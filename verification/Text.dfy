/**
 Strings as sequences of characters, with the ASCII character classes and the
 two string operations the front end relies on: `toLowerCase` (folded on ASCII
 only) and `includes` (substring search).
 */
module Text {

  predicate IsAsciiUpper(c: char) { 'A' <= c <= 'Z' }

  predicate IsAsciiLower(c: char) { 'a' <= c <= 'z' }

  predicate IsAsciiDigit(c: char) { '0' <= c <= '9' }

  /** The characters a regular-expression `.` refuses to match. */
  predicate IsLineTerminator(c: char) {
    c == '\n' || c == '\r' || c == '\U{2028}' || c == '\U{2029}'
  }

  /** Lower-cases one ASCII capital; every other character is kept. */
  function LowerChar(c: char): (r: char)
    ensures !IsAsciiUpper(r)
    ensures IsAsciiUpper(c) ==> IsAsciiLower(r) && r as int == c as int + 32
    ensures !IsAsciiUpper(c) ==> r == c
  {
    if IsAsciiUpper(c) then (c as int + 32) as char else c
  }

  /** `toLowerCase`, character by character. */
  function ToLower(s: string): (r: string)
    ensures |r| == |s|
  {
    if s == [] then [] else [LowerChar(s[0])] + ToLower(s[1..])
  }

  lemma {:induction false} ToLowerAt(s: string, i: nat)
    requires i < |s|
    ensures ToLower(s)[i] == LowerChar(s[i])
  {
    if i > 0 {
      ToLowerAt(s[1..], i - 1);
    }
  }

  /** Lower-casing twice is lower-casing once. */
  lemma {:induction false} ToLowerIdempotent(s: string)
    ensures ToLower(ToLower(s)) == ToLower(s)
  {
    if s != [] {
      ToLowerIdempotent(s[1..]);
      assert ToLower(s)[1..] == ToLower(s[1..]);
    }
  }

  /** Lower-casing works piecewise on a concatenation. */
  lemma {:induction false} ToLowerAppend(a: string, b: string)
    ensures ToLower(a + b) == ToLower(a) + ToLower(b)
  {
    if a != [] {
      ToLowerAppend(a[1..], b);
      assert (a + b)[1..] == a[1..] + b;
    } else {
      assert a + b == b;
    }
  }

  /** A string without ASCII capitals is its own lower-case form. */
  lemma {:induction false} ToLowerFixed(s: string)
    requires forall i :: 0 <= i < |s| ==> !IsAsciiUpper(s[i])
    ensures ToLower(s) == s
  {
    if s != [] {
      ToLowerFixed(s[1..]);
    }
  }

  /** A lower-case letter absent from `s` in both cases is absent from its lower-case form. */
  lemma ToLowerLacks(s: string, c: char)
    requires IsAsciiLower(c) && c !in s && (c as int - 32) as char !in s
    ensures c !in ToLower(s)
  {
    forall i | 0 <= i < |s| ensures ToLower(s)[i] != c {
      ToLowerAt(s, i);
    }
  }

  /** Lower-casing changes a string exactly when it holds an ASCII capital. */
  lemma ToLowerChanges(s: string)
    ensures ToLower(s) == s <==> forall i :: 0 <= i < |s| ==> !IsAsciiUpper(s[i])
  {
    if forall i :: 0 <= i < |s| ==> !IsAsciiUpper(s[i]) {
      ToLowerFixed(s);
    } else {
      var i :| 0 <= i < |s| && IsAsciiUpper(s[i]);
      ToLowerAt(s, i);
    }
  }

  /** Lower-casing preserves the empty string and nothing else. */
  lemma ToLowerEmpty(s: string)
    ensures ToLower(s) == [] <==> s == []
  {
  }

  /** `pat` occurs in `s` starting at index `i`. */
  ghost predicate OccursAt(s: string, pat: string, i: nat) {
    i + |pat| <= |s| && s[i..i + |pat|] == pat
  }

  /** `s.includes(pat)`: tries each starting position from the left. */
  function Contains(s: string, pat: string): bool
    decreases |s|
  {
    if |s| < |pat| then false
    else if pat <= s then true
    else Contains(s[1..], pat)
  }

  /** `Contains` finds exactly the occurrences; the empty pattern is in every string. */
  lemma {:induction false} ContainsOccurs(s: string, pat: string)
    ensures Contains(s, pat) <==> exists i: nat :: OccursAt(s, pat, i)
    decreases |s|
  {
    if |s| < |pat| {
    } else if pat <= s {
      assert OccursAt(s, pat, 0);
    } else {
      ContainsOccurs(s[1..], pat);
      assert !OccursAt(s, pat, 0);
      if Contains(s[1..], pat) {
        var i: nat :| OccursAt(s[1..], pat, i);
        ShiftOccurrence(s, pat, i);
      }
      if j: nat :| OccursAt(s, pat, j) {
        ShiftOccurrence(s, pat, j - 1);
      }
    }
  }

  /** An occurrence past the first character of `s` is an occurrence in `s[1..]`. */
  lemma ShiftOccurrence(s: string, pat: string, i: nat)
    requires s != []
    ensures OccursAt(s, pat, i + 1) <==> OccursAt(s[1..], pat, i)
  {
    if i + 1 + |pat| <= |s| {
      assert s[i + 1..i + 1 + |pat|] == s[1..][i..i + |pat|];
    }
  }

  /** A pattern occurs in any string built around it. */
  lemma ContainsMiddle(a: string, pat: string, b: string)
    ensures Contains(a + pat + b, pat)
  {
    var s := a + pat + b;
    assert s[|a|..|a| + |pat|] == pat;
    assert OccursAt(s, pat, |a|);
    ContainsOccurs(s, pat);
  }

  /** Where a pattern occurs, so does each of its prefixes. */
  lemma ContainsPrefix(s: string, pat: string, prefix: string)
    requires prefix <= pat && Contains(s, pat)
    ensures Contains(s, prefix)
  {
    ContainsOccurs(s, pat);
    var i: nat :| OccursAt(s, pat, i);
    assert s[i..i + |prefix|] == pat[..|prefix|];
    assert OccursAt(s, prefix, i);
    ContainsOccurs(s, prefix);
  }

  /** A pattern holding a character that `s` lacks does not occur in `s`. */
  lemma MissingCharacter(s: string, pat: string, c: char)
    requires c in pat && c !in s
    ensures !Contains(s, pat)
  {
    ContainsOccurs(s, pat);
  }

  /** Some pattern of `pats` occurs in `s` (the `some` over a pattern list). */
  function ContainsAny(s: string, pats: seq<string>): (r: bool)
  {
    if pats == [] then false else Contains(s, pats[0]) || ContainsAny(s, pats[1..])
  }

  lemma {:induction false} ContainsAnyExists(s: string, pats: seq<string>)
    ensures ContainsAny(s, pats) <==> exists k :: 0 <= k < |pats| && Contains(s, pats[k])
  {
    if pats != [] {
      ContainsAnyExists(s, pats[1..]);
      if k :| 0 < k < |pats| && Contains(s, pats[k]) {
        assert pats[1..][k - 1] == pats[k];
      }
    }
  }

  // Ordered `includes` rules: a chain of `if (s.includes(key)) return value`
  // read as a table searched from the front.

  datatype Rule = Rule(key: string, value: string)

  /** The index of the first rule whose key `s` contains, or `|rules|` when none does. */
  function FirstMatch(s: string, rules: seq<Rule>): (k: nat)
    ensures k <= |rules|
    ensures k < |rules| ==> Contains(s, rules[k].key)
    ensures forall j :: 0 <= j < k ==> !Contains(s, rules[j].key)
  {
    if rules == [] then 0
    else if Contains(s, rules[0].key) then 0
    else 1 + FirstMatch(s, rules[1..])
  }

  /** The value of the first rule that matches, or `otherwise`. */
  function Lookup(s: string, rules: seq<Rule>, otherwise: string): string {
    var k := FirstMatch(s, rules);
    if k < |rules| then rules[k].value else otherwise
  }

  /** A matching rule wins exactly when no earlier rule matches. */
  lemma LookupFirst(s: string, rules: seq<Rule>, otherwise: string, k: nat)
    requires k < |rules| && Contains(s, rules[k].key)
    requires forall j :: 0 <= j < k ==> !Contains(s, rules[j].key)
    ensures Lookup(s, rules, otherwise) == rules[k].value
  {
    var m := FirstMatch(s, rules);
    assert m == k;
  }

  /** With no rule matching, the lookup falls through to `otherwise`. */
  lemma LookupNone(s: string, rules: seq<Rule>, otherwise: string)
    requires forall j :: 0 <= j < |rules| ==> !Contains(s, rules[j].key)
    ensures Lookup(s, rules, otherwise) == otherwise
  {
  }
}
