/**
 The brand styling of a vault entry, looked up from its url: a gradient, a
 text colour and a hover colour. Each lookup lower-cases the url and returns
 the class of the first domain key the url contains.
 */
module BrandColors {
  import opened Wrappers
  import opened Text

  /** `!url` holds for `undefined` and for the empty string. */
  predicate IsBlank(url: Option<string>) {
    url.None? || url.value == []
  }

  const BlankGradient := "from-gray-600 to-gray-700"
  const AmazonGradient := "from-orange-500 to-yellow-500"
  const GoogleGradient := "from-blue-500 to-green-500"
  const MicrosoftGradient := "from-blue-600 to-cyan-500"
  const AppleGradient := "from-gray-800 to-gray-900"
  const FacebookGradient := "from-blue-600 to-blue-700"
  const TwitterGradient := "from-blue-400 to-blue-500"
  const InstagramGradient := "from-purple-500 via-pink-500 to-orange-500"
  const NetflixGradient := "from-red-600 to-red-700"
  const SpotifyGradient := "from-green-600 to-green-700"
  const GithubGradient := "from-gray-700 to-gray-800"
  const DefaultGradient := "from-indigo-500 to-purple-500"

  /**
   `getBrandGradient`: the early-return chain over the lower-cased url. Only a
   blank url gets the blank gradient.
   */
  function BrandGradient(url: Option<string>): (r: string)
    ensures r == BlankGradient <==> IsBlank(url)
  {
    if IsBlank(url) then BlankGradient
    else
      var domain := ToLower(url.value);
      if Contains(domain, "amazon.com") then AmazonGradient
      else if Contains(domain, "google.com") then GoogleGradient
      else if Contains(domain, "microsoft.com") then MicrosoftGradient
      else if Contains(domain, "apple.com") then AppleGradient
      else if Contains(domain, "facebook.com") then FacebookGradient
      else if Contains(domain, "twitter.com") then TwitterGradient
      else if Contains(domain, "instagram.com") then InstagramGradient
      else if Contains(domain, "netflix.com") then NetflixGradient
      else if Contains(domain, "spotify.com") then SpotifyGradient
      else if Contains(domain, "github.com") then GithubGradient
      else DefaultGradient
  }

  /** `getBrandTextColor` */
  function BrandTextColor(url: Option<string>): (r: string)
    ensures r == "text-gray-100" <==> IsBlank(url) || Contains(ToLower(url.value), "apple.com")
    ensures r == "text-gray-100" || r == "text-white"
  {
    if IsBlank(url) then "text-gray-100"
    else
      var domain := ToLower(url.value);
      if Contains(domain, "apple.com") then "text-gray-100"
      else "text-white"
  }

  /** `getBrandHoverColor` */
  function BrandHoverColor(url: Option<string>): (r: string)
    ensures IsBlank(url) <==> r == "hover:text-gray-200"
    ensures !IsBlank(url) && Contains(ToLower(url.value), "amazon.com") <==> r == "hover:text-orange-200"
    ensures !IsBlank(url) && !Contains(ToLower(url.value), "amazon.com") && Contains(ToLower(url.value), "apple.com")
      <==> r == "hover:text-gray-300"
    ensures !IsBlank(url) && !Contains(ToLower(url.value), "amazon.com") && !Contains(ToLower(url.value), "apple.com")
      <==> r == "hover:text-blue-200"
  {
    if IsBlank(url) then "hover:text-gray-200"
    else
      var domain := ToLower(url.value);
      if Contains(domain, "amazon.com") then "hover:text-orange-200"
      else if Contains(domain, "apple.com") then "hover:text-gray-300"
      else "hover:text-blue-200"
  }

  // The chains read as tables of ordered rules.

  const GradientRules: seq<Rule> := [
    Rule("amazon.com", AmazonGradient),
    Rule("google.com", GoogleGradient),
    Rule("microsoft.com", MicrosoftGradient),
    Rule("apple.com", AppleGradient),
    Rule("facebook.com", FacebookGradient),
    Rule("twitter.com", TwitterGradient),
    Rule("instagram.com", InstagramGradient),
    Rule("netflix.com", NetflixGradient),
    Rule("spotify.com", SpotifyGradient),
    Rule("github.com", GithubGradient)]

  const TextColorRules: seq<Rule> := [Rule("apple.com", "text-gray-100")]

  const HoverColorRules: seq<Rule> := [
    Rule("amazon.com", "hover:text-orange-200"),
    Rule("apple.com", "hover:text-gray-300")]

  /** The styling a table assigns to a url: the blank value, or the first matching rule's. */
  function TableStyle(url: Option<string>, blank: string, rules: seq<Rule>, otherwise: string): string {
    if IsBlank(url) then blank else Lookup(ToLower(url.value), rules, otherwise)
  }

  /** The gradient chain is the first-match reading of its table. */
  lemma GradientIsFirstMatch(url: Option<string>)
    ensures BrandGradient(url) == TableStyle(url, BlankGradient, GradientRules, DefaultGradient)
  {
    if !IsBlank(url) {
      var domain := ToLower(url.value);
      var k := FirstMatch(domain, GradientRules);
      if k < |GradientRules| {
        assert Contains(domain, GradientRules[k].key);
      }
      assert k > 0 ==> !Contains(domain, GradientRules[0].key);
      assert k > 1 ==> !Contains(domain, GradientRules[1].key);
      assert k > 2 ==> !Contains(domain, GradientRules[2].key);
      assert k > 3 ==> !Contains(domain, GradientRules[3].key);
      assert k > 4 ==> !Contains(domain, GradientRules[4].key);
      assert k > 5 ==> !Contains(domain, GradientRules[5].key);
      assert k > 6 ==> !Contains(domain, GradientRules[6].key);
      assert k > 7 ==> !Contains(domain, GradientRules[7].key);
      assert k > 8 ==> !Contains(domain, GradientRules[8].key);
      assert k > 9 ==> !Contains(domain, GradientRules[9].key);
    }
  }

  /** The text-colour and hover chains are the first-match readings of theirs. */
  lemma ColorsAreFirstMatch(url: Option<string>)
    ensures BrandTextColor(url) == TableStyle(url, "text-gray-100", TextColorRules, "text-white")
    ensures BrandHoverColor(url) == TableStyle(url, "hover:text-gray-200", HoverColorRules, "hover:text-blue-200")
  {
    if !IsBlank(url) {
      var domain := ToLower(url.value);
      var k := FirstMatch(domain, HoverColorRules);
      assert k > 0 ==> !Contains(domain, HoverColorRules[0].key);
      assert k > 1 ==> !Contains(domain, HoverColorRules[1].key);
      var t := FirstMatch(domain, TextColorRules);
      assert t > 0 ==> !Contains(domain, TextColorRules[0].key);
    }
  }

  /**
   The first rule the url matches decides the gradient, whatever later rules
   it also matches.
   */
  lemma GradientPrecedence(url: Option<string>, k: nat)
    requires !IsBlank(url) && k < |GradientRules|
    requires Contains(ToLower(url.value), GradientRules[k].key)
    requires forall j :: 0 <= j < k ==> !Contains(ToLower(url.value), GradientRules[j].key)
    ensures BrandGradient(url) == GradientRules[k].value
  {
    GradientIsFirstMatch(url);
    LookupFirst(ToLower(url.value), GradientRules, DefaultGradient, k);
  }

  /**
   A url holding `amazon.com` gets the Amazon gradient and hover colour, even
   when it also names Google or Apple.
   */
  lemma AmazonFirst(url: Option<string>)
    requires !IsBlank(url) && Contains(ToLower(url.value), "amazon.com")
    ensures BrandGradient(url) == AmazonGradient
    ensures BrandHoverColor(url) == "hover:text-orange-200"
  {
    GradientPrecedence(url, 0);
  }

  /** A non-empty url that holds none of the ten keys gets the default gradient. */
  lemma UnknownDomain(url: Option<string>)
    requires !IsBlank(url)
    requires forall k :: 0 <= k < |GradientRules| ==> !Contains(ToLower(url.value), GradientRules[k].key)
    ensures BrandGradient(url) == DefaultGradient
  {
    GradientIsFirstMatch(url);
    LookupNone(ToLower(url.value), GradientRules, DefaultGradient);
  }

  /** An absent or empty url gets the gray styling from all three lookups. */
  lemma BlankUrl(url: Option<string>)
    requires IsBlank(url)
    ensures BrandGradient(url) == BlankGradient
    ensures BrandTextColor(url) == "text-gray-100"
    ensures BrandHoverColor(url) == "hover:text-gray-200"
  {
  }

  /** A url and its lower-cased form are styled alike by all three lookups. */
  lemma CaseInsensitive(s: string)
    ensures BrandGradient(Some(ToLower(s))) == BrandGradient(Some(s))
    ensures BrandTextColor(Some(ToLower(s))) == BrandTextColor(Some(s))
    ensures BrandHoverColor(Some(ToLower(s))) == BrandHoverColor(Some(s))
  {
    ToLowerIdempotent(s);
    ToLowerEmpty(s);
  }

  /** The key may sit anywhere in the url: no host name is parsed. */
  lemma KeyAnywhere(before: string, after: string)
    ensures BrandGradient(Some(before + "amazon.com" + after)) == AmazonGradient
  {
    var key := "amazon.com";
    ToLowerFixed(key);
    LowerSplice(before, key, after);
    AmazonFirst(Some(before + key + after));
  }

  /** A key without capitals, spliced into any text, survives lower-casing. */
  lemma LowerSplice(before: string, key: string, after: string)
    requires ToLower(key) == key
    ensures Contains(ToLower(before + key + after), key)
  {
    ToLowerAppend(before + key, after);
    ToLowerAppend(before, key);
    ContainsMiddle(ToLower(before), key, ToLower(after));
  }
}
