/**
 The password-strength analyser: a score built up check by check, a list of
 suggestions appended in check order, a clamp to [0, 100], and a three-way
 classification with its colour and icon.
 */
module PasswordStrength {
  import opened Text
  import opened Sequences

  datatype Strength = Weak | Moderate | Strong

  /** The icon shown beside the strength; the component references become tags. */
  datatype Icon = XCircle | AlertTriangle | CheckCircle

  datatype PasswordAnalysis = PasswordAnalysis(
    score: int,
    strength: Strength,
    color: string,
    icon: Icon,
    suggestions: seq<string>)

  const UseMoreCharacters := "Use at least 8 characters"
  const IncludeUppercase := "Include uppercase letters"
  const IncludeLowercase := "Include lowercase letters"
  const IncludeNumbers := "Include numbers"
  const IncludeSpecial := "Include special characters"
  const AvoidCommonPatterns := "Avoid common password patterns"
  const AvoidRepeating := "Avoid repeating characters"

  /** Every suggestion, in the order of the checks that produce them. */
  const AllSuggestions: seq<string> := [
    UseMoreCharacters, IncludeUppercase, IncludeLowercase, IncludeNumbers,
    IncludeSpecial, AvoidCommonPatterns, AvoidRepeating]

  /** The members of the character class `[!@#$%^&*(),.?":{}|<>]`. */
  const SpecialCharacters := "!@#$%^&*(),.?\":{}|<>"

  /** The case-insensitive patterns; `^123` is tested separately, as a prefix. */
  const CommonWords: seq<string> := ["password", "qwerty", "abc", "admin", "letmein", "welcome"]

  // The regular-expression tests, as predicates over the characters.

  /** `/[A-Z]/.test(p)` */
  predicate HasUppercase(p: string) { exists i :: 0 <= i < |p| && IsAsciiUpper(p[i]) }

  /** The uppercase check passes exactly when lower-casing changes the password. */
  lemma UppercaseIffCaseMatters(p: string)
    ensures HasUppercase(p) <==> ToLower(p) != p
  {
    ToLowerChanges(p);
  }

  /** `/[a-z]/.test(p)` */
  predicate HasLowercase(p: string) { exists i :: 0 <= i < |p| && IsAsciiLower(p[i]) }

  /** `/\d/.test(p)` */
  predicate HasDigit(p: string) { exists i :: 0 <= i < |p| && IsAsciiDigit(p[i]) }

  /** `/[!@#$%^&*(),.?":{}|<>]/.test(p)` */
  predicate HasSpecial(p: string) { exists i :: 0 <= i < |p| && p[i] in SpecialCharacters }

  /** Some pattern of `[/^123/, /password/i, …, /welcome/i]` matches. */
  predicate MatchesCommonPattern(p: string) {
    "123" <= p || ContainsAny(ToLower(p), CommonWords)
  }

  /** `/(.)\1{2,}/.test(p)`: three equal consecutive characters that are not line terminators. */
  predicate HasRepeatRun(p: string) {
    exists i: nat | i < |p| :: RunAt(p, i)
  }

  /** Positions `i`, `i + 1` and `i + 2` hold one character, which `.` can match. */
  predicate RunAt(p: string, i: nat) {
    i + 2 < |p| && p[i] == p[i + 1] && p[i + 1] == p[i + 2] && !IsLineTerminator(p[i])
  }

  // The specification: credits summed, failed checks selected.

  function LengthCredit(n: nat): (c: int)
    ensures n < 8 ==> c == 0
    ensures 8 <= n < 12 ==> c == 15
    ensures 12 <= n ==> c == 25
  {
    if n < 8 then 0 else if n >= 12 then 25 else 15
  }

  /** The points a check adds or takes away: `points` when it applies, none otherwise. */
  function Points(present: bool, points: int): int {
    if present then points else 0
  }

  /** The score before normalisation: the credits earned minus the two penalties. */
  function RawScore(p: string): (r: int)
    ensures -30 <= r <= 105
  {
    LengthCredit(|p|)
    + Points(HasUppercase(p), 20) + Points(HasLowercase(p), 20)
    + Points(HasDigit(p), 20) + Points(HasSpecial(p), 20)
    - Points(MatchesCommonPattern(p), 20) - Points(HasRepeatRun(p), 10)
  }

  /** Which check, in check order, asks for its suggestion. */
  function FailedChecks(p: string): (f: seq<bool>)
    ensures |f| == |AllSuggestions|
  {
    [|p| < 8, !HasUppercase(p), !HasLowercase(p), !HasDigit(p), !HasSpecial(p),
     MatchesCommonPattern(p), HasRepeatRun(p)]
  }

  /** `Math.max(0, Math.min(100, x))` */
  function Clamp(x: int): (r: int)
    ensures 0 <= r <= 100
    ensures 0 <= x <= 100 ==> r == x
    ensures x < 0 ==> r == 0
    ensures x > 100 ==> r == 100
  {
    if x < 0 then 0 else if x > 100 then 100 else x
  }

  function Category(score: int): (s: Strength)
    ensures s == Weak <==> score < 50
    ensures s == Moderate <==> 50 <= score < 80
    ensures s == Strong <==> 80 <= score
  {
    if score < 50 then Weak else if score < 80 then Moderate else Strong
  }

  function ColorOf(s: Strength): string {
    match s
    case Weak => "text-red-600"
    case Moderate => "text-yellow-600"
    case Strong => "text-green-600"
  }

  function IconOf(s: Strength): Icon {
    match s
    case Weak => XCircle
    case Moderate => AlertTriangle
    case Strong => CheckCircle
  }

  /** A check's suggestion when the check fails, nothing otherwise. */
  function Emit(failed: bool, message: string): seq<string> {
    if failed then [message] else []
  }

  /** The suggestions of the failed checks, one check after the other: at most one per check. */
  function Suggestions(p: string): (r: seq<string>)
    ensures |r| <= |AllSuggestions|
    ensures (|p| < 8) == (|r| > 0 && r[0] == UseMoreCharacters)
  {
    Emit(|p| < 8, UseMoreCharacters) + Emit(!HasUppercase(p), IncludeUppercase)
    + Emit(!HasLowercase(p), IncludeLowercase) + Emit(!HasDigit(p), IncludeNumbers)
    + Emit(!HasSpecial(p), IncludeSpecial) + Emit(MatchesCommonPattern(p), AvoidCommonPatterns)
    + Emit(HasRepeatRun(p), AvoidRepeating)
  }

  /** What `analyzePassword` returns: the clamped sum of credits, its category, and the suggestions. */
  function Analysis(p: string): (a: PasswordAnalysis)
    ensures 0 <= a.score <= 100
    ensures a.strength == Category(a.score)
    ensures a.suggestions == [] ==> a.strength == Strong
  {
    var score := Clamp(RawScore(p));
    var strength := Category(score);
    PasswordAnalysis(score, strength, ColorOf(strength), IconOf(strength), Suggestions(p))
  }

  // The analyser itself, step by step: each helper is one check of the
  // source, updating the running score and the list of suggestions.

  /** A check that earns 20 points when it passes and asks for `message` when it fails. */
  method CreditOrSuggest(present: bool, score: int, suggestions: seq<string>, message: string)
    returns (score': int, suggestions': seq<string>)
    ensures score' == score + Points(present, 20)
    ensures suggestions' == suggestions + Emit(!present, message)
  {
    score', suggestions' := score, suggestions;
    if !present {
      suggestions' := suggestions' + [message];
    } else {
      score' := score' + 20;
    }
  }

  /** A check that costs `points` and asks for `message` when it matches. */
  method Penalise(matched: bool, points: int, score: int, suggestions: seq<string>, message: string)
    returns (score': int, suggestions': seq<string>)
    ensures score' == score - Points(matched, points)
    ensures suggestions' == suggestions + Emit(matched, message)
  {
    score', suggestions' := score, suggestions;
    if matched {
      score' := score' - points;
      suggestions' := suggestions' + [message];
    }
  }

  /** The length check, which opens the running score and the suggestions. */
  method LengthStep(n: nat) returns (score: int, suggestions: seq<string>)
    ensures score == LengthCredit(n) && suggestions == Emit(n < 8, UseMoreCharacters)
  {
    score := 0;
    suggestions := [];
    if n < 8 {
      suggestions := suggestions + [UseMoreCharacters];
    } else if n >= 12 {
      score := score + 25;
    } else {
      score := score + 15;
    }
  }

  /** The three-way classification of the normalised score. */
  method Classify(score: int) returns (strength: Strength, color: string, icon: Icon)
    ensures strength == Category(score) && color == ColorOf(strength) && icon == IconOf(strength)
  {
    if score < 50 {
      strength, color, icon := Weak, "text-red-600", XCircle;
    } else if score < 80 {
      strength, color, icon := Moderate, "text-yellow-600", AlertTriangle;
    } else {
      strength, color, icon := Strong, "text-green-600", CheckCircle;
    }
  }

  method AnalyzePassword(password: string) returns (a: PasswordAnalysis)
    ensures a == Analysis(password)
  {
    var score, suggestions := LengthStep(|password|);
    score, suggestions := CreditOrSuggest(HasUppercase(password), score, suggestions, IncludeUppercase);
    score, suggestions := CreditOrSuggest(HasLowercase(password), score, suggestions, IncludeLowercase);
    score, suggestions := CreditOrSuggest(HasDigit(password), score, suggestions, IncludeNumbers);
    score, suggestions := CreditOrSuggest(HasSpecial(password), score, suggestions, IncludeSpecial);
    score, suggestions := Penalise(MatchesCommonPattern(password), 20, score, suggestions, AvoidCommonPatterns);
    score, suggestions := Penalise(HasRepeatRun(password), 10, score, suggestions, AvoidRepeating);
    assert score == RawScore(password) && suggestions == Suggestions(password);
    score := Clamp(score);
    var strength, color, icon := Classify(score);
    a := PasswordAnalysis(score, strength, color, icon, suggestions);
  }

  // What the analysis promises.

  lemma AllSuggestionsDistinct()
    ensures Distinct(AllSuggestions)
  {
    forall i, j | 0 <= i < j < |AllSuggestions| ensures AllSuggestions[i] != AllSuggestions[j] {
      var a, b := AllSuggestions[i], AllSuggestions[j];
      if |a| == |b| {
        assert a[1] != b[1] || a[8] != b[8];
      }
    }
  }

  /**
   The suggestions keep the order of the checks, never repeat, and number at
   most seven.
   */
  lemma SuggestionsOrdered(p: string)
    ensures Subsequence(Suggestions(p), AllSuggestions)
    ensures Distinct(Suggestions(p))
    ensures |Suggestions(p)| <= 7
  {
    EmittedInOrder(FailedChecks(p), AllSuggestions);
    AllSuggestionsDistinct();
    SubsequenceDistinct(Suggestions(p), AllSuggestions);
    SubsequenceIncluded(Suggestions(p), AllSuggestions);
  }

  /** Whatever checks fail, their messages come out as a subsequence of the seven messages. */
  lemma EmittedInOrder(f: seq<bool>, m: seq<string>)
    requires |f| == |m| == 7
    ensures Subsequence(
      Emit(f[0], m[0]) + Emit(f[1], m[1]) + Emit(f[2], m[2]) + Emit(f[3], m[3])
      + Emit(f[4], m[4]) + Emit(f[5], m[5]) + Emit(f[6], m[6]), m)
  {
    var s6, t6 := Emit(f[6], m[6]) + [], [m[6]] + [];
    var s5, t5 := Emit(f[5], m[5]) + s6, [m[5]] + t6;
    var s4, t4 := Emit(f[4], m[4]) + s5, [m[4]] + t5;
    var s3, t3 := Emit(f[3], m[3]) + s4, [m[3]] + t4;
    var s2, t2 := Emit(f[2], m[2]) + s3, [m[2]] + t3;
    var s1, t1 := Emit(f[1], m[1]) + s2, [m[1]] + t2;
    assert Subsequence<string>([], []);
    EmitPrefix(f[6], m[6], [], []);
    EmitPrefix(f[5], m[5], s6, t6);
    EmitPrefix(f[4], m[4], s5, t5);
    EmitPrefix(f[3], m[3], s4, t4);
    EmitPrefix(f[2], m[2], s3, t3);
    EmitPrefix(f[1], m[1], s2, t2);
    EmitPrefix(f[0], m[0], s1, t1);
    SevenAsCons(m, t1);
    Regroup(Emit(f[0], m[0]), Emit(f[1], m[1]), Emit(f[2], m[2]), Emit(f[3], m[3]),
      Emit(f[4], m[4]), Emit(f[5], m[5]), Emit(f[6], m[6]));
  }

  lemma SevenAsCons(m: seq<string>, t1: seq<string>)
    requires |m| == 7
    requires t1 == [m[1]] + ([m[2]] + ([m[3]] + ([m[4]] + ([m[5]] + ([m[6]] + [])))))
    ensures m == [m[0]] + t1
  {
  }

  lemma Regroup(e0: seq<string>, e1: seq<string>, e2: seq<string>, e3: seq<string>,
                e4: seq<string>, e5: seq<string>, e6: seq<string>)
    ensures e0 + (e1 + (e2 + (e3 + (e4 + (e5 + (e6 + [])))))) == e0 + e1 + e2 + e3 + e4 + e5 + e6
  {
  }

  /** Emitting a message in front keeps the emitted list a subsequence. */
  lemma EmitPrefix(failed: bool, message: string, xs: seq<string>, ys: seq<string>)
    requires Subsequence(xs, ys)
    ensures Subsequence(Emit(failed, message) + xs, [message] + ys)
  {
    var zs := [message] + ys;
    assert zs[1..] == ys;
    if failed {
      assert ([message] + xs)[1..] == xs;
    } else {
      assert Emit(failed, message) + xs == xs;
    }
  }

  /** Each message is suggested exactly when its check fails. */
  lemma SuggestedIffFailed(p: string)
    ensures UseMoreCharacters in Suggestions(p) <==> |p| < 8
    ensures IncludeUppercase in Suggestions(p) <==> !HasUppercase(p)
    ensures IncludeLowercase in Suggestions(p) <==> !HasLowercase(p)
    ensures IncludeNumbers in Suggestions(p) <==> !HasDigit(p)
    ensures IncludeSpecial in Suggestions(p) <==> !HasSpecial(p)
    ensures AvoidCommonPatterns in Suggestions(p) <==> MatchesCommonPattern(p)
    ensures AvoidRepeating in Suggestions(p) <==> HasRepeatRun(p)
  {
    AllSuggestionsDistinct();
    var f, m := FailedChecks(p), AllSuggestions;
    EmittedIff(f, m, 0);
    EmittedIff(f, m, 1);
    EmittedIff(f, m, 2);
    EmittedIff(f, m, 3);
    EmittedIff(f, m, 4);
    EmittedIff(f, m, 5);
    EmittedIff(f, m, 6);
  }

  /** Among seven distinct messages, the `k`-th is emitted exactly when its flag is set. */
  lemma EmittedIff(f: seq<bool>, m: seq<string>, k: nat)
    requires |f| == |m| == 7 && k < 7 && Distinct(m)
    ensures f[k] <==> (m[k] in Emit(f[0], m[0]) + Emit(f[1], m[1]) + Emit(f[2], m[2])
                         + Emit(f[3], m[3]) + Emit(f[4], m[4]) + Emit(f[5], m[5]) + Emit(f[6], m[6]))
  {
  }

  /** A higher score never lands in a weaker category. */
  lemma CategoryMonotone(x: int, y: int)
    requires x <= y
    ensures Category(x) == Strong ==> Category(y) == Strong
    ensures Category(y) == Weak ==> Category(x) == Weak
  {
  }

  /** The reported score lies in [0, 100] and the category, colour and icon follow it. */
  lemma AnalysisConsistent(p: string)
    ensures 0 <= Analysis(p).score <= 100
    ensures Analysis(p).strength == Weak <==> Analysis(p).score < 50
    ensures Analysis(p).strength == Strong <==> 80 <= Analysis(p).score
    ensures Analysis(p).color == "text-red-600" <==> Analysis(p).score < 50
    ensures Analysis(p).color == "text-yellow-600" <==> 50 <= Analysis(p).score < 80
    ensures Analysis(p).color == "text-green-600" <==> 80 <= Analysis(p).score
    ensures Analysis(p).icon == XCircle <==> Analysis(p).score < 50
    ensures Analysis(p).icon == AlertTriangle <==> 50 <= Analysis(p).score < 80
    ensures Analysis(p).icon == CheckCircle <==> 80 <= Analysis(p).score
  {
  }

  /** A password that passes every check earns a strong score of at least 95. */
  lemma NoSuggestionsIsStrong(p: string)
    requires Suggestions(p) == []
    ensures Analysis(p).strength == Strong
    ensures Analysis(p).score == if |p| >= 12 then 100 else 95
  {
    SuggestedIffFailed(p);
  }

  /**
   Twelve characters or more, all four classes and neither penalty: the raw
   score of 105 is clamped to 100, strong, with nothing to suggest.
   */
  lemma StrongPassword(p: string)
    requires |p| >= 12
    requires HasUppercase(p) && HasLowercase(p) && HasDigit(p) && HasSpecial(p)
    requires !MatchesCommonPattern(p) && !HasRepeatRun(p)
    ensures RawScore(p) == 105
    ensures Analysis(p) == PasswordAnalysis(100, Strong, "text-green-600", CheckCircle, [])
  {
  }

  /**
   A password shorter than eight characters scores at most 80, and exactly 80
   only when it has all four character classes and neither penalty, which the
   analyser then calls strong.
   */
  lemma ShortPasswordScore(p: string)
    requires |p| < 8
    ensures Analysis(p).score <= 80
    ensures Analysis(p).score == 80 <==>
      HasUppercase(p) && HasLowercase(p) && HasDigit(p) && HasSpecial(p)
      && !MatchesCommonPattern(p) && !HasRepeatRun(p)
  {
  }

  /** The empty password: no credits, the five failed-check suggestions, and weak. */
  lemma EmptyPassword()
    ensures Analysis("") == PasswordAnalysis(0, Weak, "text-red-600", XCircle,
      [UseMoreCharacters, IncludeUppercase, IncludeLowercase, IncludeNumbers, IncludeSpecial])
  {
    NoWordInEmpty(CommonWords);
  }

  lemma {:induction false} NoWordInEmpty(pats: seq<string>)
    requires forall k :: 0 <= k < |pats| ==> pats[k] != []
    ensures !ContainsAny("", pats)
  {
    if pats != [] {
      NoWordInEmpty(pats[1..]);
    }
  }

  // Outcomes for typical combinations of checks.

  /** Eight to eleven lower-case letters forming a common word: 15, weak. */
  lemma LowercaseCommonWord(p: string)
    requires 8 <= |p| < 12
    requires HasLowercase(p) && !HasUppercase(p) && !HasDigit(p) && !HasSpecial(p)
    requires MatchesCommonPattern(p) && !HasRepeatRun(p)
    ensures Analysis(p) == PasswordAnalysis(15, Weak, "text-red-600", XCircle,
      [IncludeUppercase, IncludeNumbers, IncludeSpecial, AvoidCommonPatterns])
  {
  }

  /**
   Under eight characters with all four classes and no penalty: exactly 80,
   strong, although the length suggestion is still made.
   */
  lemma ShortButComplete(p: string)
    requires |p| < 8
    requires HasUppercase(p) && HasLowercase(p) && HasDigit(p) && HasSpecial(p)
    requires !MatchesCommonPattern(p) && !HasRepeatRun(p)
    ensures Analysis(p) == PasswordAnalysis(80, Strong, "text-green-600", CheckCircle, [UseMoreCharacters])
  {
  }

  /** Long and complete but with a repeat run: 95, still strong. */
  lemma RepeatPenaltyOnly(p: string)
    requires |p| >= 12
    requires HasUppercase(p) && HasLowercase(p) && HasDigit(p) && HasSpecial(p)
    requires !MatchesCommonPattern(p) && HasRepeatRun(p)
    ensures Analysis(p) == PasswordAnalysis(95, Strong, "text-green-600", CheckCircle, [AvoidRepeating])
  {
  }

  /** Short, three classes and a repeat run: exactly 50, which is moderate, not weak. */
  lemma ShortWithRun(p: string)
    requires |p| < 8
    requires HasUppercase(p) && HasLowercase(p) && HasDigit(p) && !HasSpecial(p)
    requires !MatchesCommonPattern(p) && HasRepeatRun(p)
    ensures Analysis(p) == PasswordAnalysis(50, Moderate, "text-yellow-600", AlertTriangle,
      [UseMoreCharacters, IncludeSpecial, AvoidRepeating])
  {
  }

  // Worked examples: the outcome of each check on a concrete password, then
  // the combination above that it falls under.

  lemma PasswordIsWeak()
    ensures Analysis("password") == PasswordAnalysis(15, Weak, "text-red-600", XCircle,
      [IncludeUppercase, IncludeNumbers, IncludeSpecial, AvoidCommonPatterns])
  {
    PasswordClasses();
    PasswordPatterns();
    LowercaseCommonWord("password");
  }

  lemma PasswordClasses()
    ensures HasLowercase("password") && !HasUppercase("password")
    ensures !HasDigit("password") && !HasSpecial("password")
  {
    var p := "password";
    assert IsAsciiLower(p[0]);
  }

  lemma PasswordPatterns()
    ensures MatchesCommonPattern("password") && !HasRepeatRun("password")
  {
    var p := "password";
    ToLowerFixed(p);
    assert Contains(ToLower(p), CommonWords[0]);
  }

  lemma FourCharactersAreStrong()
    ensures Analysis("aA1!") == PasswordAnalysis(80, Strong, "text-green-600", CheckCircle, [UseMoreCharacters])
  {
    FourCharactersChecks();
    ShortButComplete("aA1!");
  }

  lemma FourCharactersChecks()
    ensures HasUppercase("aA1!") && HasLowercase("aA1!") && HasDigit("aA1!") && HasSpecial("aA1!")
    ensures !MatchesCommonPattern("aA1!") && !HasRepeatRun("aA1!")
  {
    var p := "aA1!";
    assert IsAsciiLower(p[0]) && IsAsciiUpper(p[1]) && IsAsciiDigit(p[2]) && p[3] in SpecialCharacters;
    NoCommonWord(p);
  }

  /** Every check passes: 105 points, clamped to 100. */
  lemma TroubadorIsStrong()
    ensures Analysis("Tr0ub4dor&3XyZ") == PasswordAnalysis(100, Strong, "text-green-600", CheckCircle, [])
  {
    TroubadorClasses();
    TroubadorPatterns();
    TroubadorNoRun();
    StrongPassword("Tr0ub4dor&3XyZ");
  }

  lemma TroubadorClasses()
    ensures HasUppercase("Tr0ub4dor&3XyZ") && HasLowercase("Tr0ub4dor&3XyZ")
    ensures HasDigit("Tr0ub4dor&3XyZ") && HasSpecial("Tr0ub4dor&3XyZ")
  {
    var p := "Tr0ub4dor&3XyZ";
    assert IsAsciiUpper(p[0]) && IsAsciiLower(p[1]) && IsAsciiDigit(p[2]) && p[9] in SpecialCharacters;
  }

  lemma TroubadorNoRun()
    ensures !HasRepeatRun("Tr0ub4dor&3XyZ")
  {
  }

  lemma TroubadorPatterns()
    ensures !MatchesCommonPattern("Tr0ub4dor&3XyZ")
  {
    var p := "Tr0ub4dor&3XyZ";
    assert p[0] != '1';
    NoCommonWord(p);
  }

  /** Four runs of three cost ten points once. */
  lemma RepeatsCostTen()
    ensures Analysis("aaaAAA111!!!") == PasswordAnalysis(95, Strong, "text-green-600", CheckCircle, [AvoidRepeating])
  {
    RepeatsClasses();
    RepeatsPatterns();
    RepeatPenaltyOnly("aaaAAA111!!!");
  }

  lemma RepeatsClasses()
    ensures HasUppercase("aaaAAA111!!!") && HasLowercase("aaaAAA111!!!")
    ensures HasDigit("aaaAAA111!!!") && HasSpecial("aaaAAA111!!!")
  {
    var p := "aaaAAA111!!!";
    assert IsAsciiLower(p[0]) && IsAsciiUpper(p[3]) && IsAsciiDigit(p[6]) && p[9] in SpecialCharacters;
  }

  lemma RepeatsPatterns()
    ensures !MatchesCommonPattern("aaaAAA111!!!") && HasRepeatRun("aaaAAA111!!!")
  {
    var p := "aaaAAA111!!!";
    assert RunAt(p, 0);
    NoCommonWord(p);
  }

  lemma FiftyIsModerate()
    ensures Analysis("aaaA1") == PasswordAnalysis(50, Moderate, "text-yellow-600", AlertTriangle,
      [UseMoreCharacters, IncludeSpecial, AvoidRepeating])
  {
    FiftyClasses();
    FiftyPatterns();
    ShortWithRun("aaaA1");
  }

  lemma FiftyClasses()
    ensures HasUppercase("aaaA1") && HasLowercase("aaaA1") && HasDigit("aaaA1") && !HasSpecial("aaaA1")
  {
    var p := "aaaA1";
    assert IsAsciiLower(p[0]) && IsAsciiUpper(p[3]) && IsAsciiDigit(p[4]);
  }

  lemma FiftyPatterns()
    ensures !MatchesCommonPattern("aaaA1") && HasRepeatRun("aaaA1")
  {
    var p := "aaaA1";
    assert RunAt(p, 0);
    NoCommonWord(p);
  }

  /** The `/i` patterns ignore case. */
  lemma CommonPatternIgnoresCase()
    ensures MatchesCommonPattern("xQWERTYx")
  {
    assert ToLower("xQWERTYx") == "xqwertyx";
    assert Contains("xqwertyx"[1..], CommonWords[1]);
  }

  /** The `^123` pattern matches only at the start. */
  lemma LeadingDigitsPattern()
    ensures MatchesCommonPattern("123x")
    ensures !MatchesCommonPattern("x123")
  {
    NoCommonWord("x123");
  }

  /** Three equal characters are a repeat run, unless `.` cannot match them. */
  lemma RepeatRunExamples()
    ensures HasRepeatRun("xaaa")
    ensures !HasRepeatRun("\n\n\n")
    ensures !HasRepeatRun("aab")
  {
    assert RunAt("xaaa", 1);
  }

  /**
   A string with none of `p`, `q`, `c`, `m`, `l`, `w`, in either case, holds
   none of the common words once lower-cased.
   */
  lemma NoCommonWord(s: string)
    requires forall c :: c in s ==> c !in "pqcmlwPQCMLW"
    ensures !ContainsAny(ToLower(s), CommonWords)
  {
    var t := ToLower(s);
    ToLowerLacks(s, 'p');
    ToLowerLacks(s, 'q');
    ToLowerLacks(s, 'c');
    ToLowerLacks(s, 'm');
    ToLowerLacks(s, 'l');
    ToLowerLacks(s, 'w');
    MissingCharacter(t, "password", 'p');
    MissingCharacter(t, "qwerty", 'q');
    MissingCharacter(t, "abc", 'c');
    MissingCharacter(t, "admin", 'm');
    MissingCharacter(t, "letmein", 'l');
    MissingCharacter(t, "welcome", 'w');
    ContainsAnyExists(t, CommonWords);
  }
}
