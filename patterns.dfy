/**
 * Hand-written scanners for the regular expressions the scraper and the
 * command-line generator apply: the price and item-count patterns, tag
 * removal with `<[^>]*>` and white-space collapsing with `\s+`.
 *
 * A pattern is modelled as an anchored matcher (does it match at position
 * `i`, and what does its group capture there) plus `Leftmost`, which picks
 * the first position with a match, as `FindStringSubmatch` does.
 */
module Patterns {
  import opened Wrappers
  import opened Text

  // ---------------------------------------------------------------------------
  // Runs
  // ---------------------------------------------------------------------------

  /** The end of the run of `\s` starting at `i`. */
  function SkipSpaces(s: string, i: nat): (j: nat)
    requires i <= |s|
    ensures i <= j <= |s|
    ensures forall k :: i <= k < j ==> IsRegexSpace(s[k])
    ensures j == |s| || !IsRegexSpace(s[j])
    decreases |s| - i
  {
    if i < |s| && IsRegexSpace(s[i]) then SkipSpaces(s, i + 1) else i
  }

  /** The end of the run of `\d` starting at `i`. */
  function DigitsEnd(s: string, i: nat): (j: nat)
    requires i <= |s|
    ensures i <= j <= |s|
    ensures forall k :: i <= k < j ==> IsDigit(s[k])
    ensures j == |s| || !IsDigit(s[j])
    decreases |s| - i
  {
    if i < |s| && IsDigit(s[i]) then DigitsEnd(s, i + 1) else i
  }

  // ---------------------------------------------------------------------------
  // Leftmost match
  // ---------------------------------------------------------------------------

  /**
   * The capture of the first position in [from, n) where the anchored matcher
   * `at` succeeds, or None when it succeeds nowhere.
   */
  function Leftmost(n: nat, at: nat -> Option<string>, from: nat): (r: Option<string>)
    ensures r.Some? <==> exists i :: from <= i < n && at(i).Some?
    ensures r.Some? ==> exists i :: from <= i < n && at(i) == r && forall k :: from <= k < i ==> at(k).None?
    decreases n - from
  {
    if from >= n then None
    else if at(from).Some? then at(from)
    else Leftmost(n, at, from + 1)
  }

  // ---------------------------------------------------------------------------
  // `sym\s*(\d+[,.]?\d*)`
  // ---------------------------------------------------------------------------

  predicate IsSeparator(c: char)
  {
    c == ',' || c == '.'
  }

  /** The shape of the group `(\d+[,.]?\d*)`: digits, with at most one ',' or '.' after the first digit. */
  predicate IsAmount(d: string)
  {
    && |d| > 0 && IsDigit(d[0])
    && (forall i :: 0 <= i < |d| ==> IsDigit(d[i]) || IsSeparator(d[i]))
    && (forall i, j :: 0 <= i < j < |d| && IsSeparator(d[i]) ==> !IsSeparator(d[j]))
  }

  /**
   * The price pattern anchored at `i`: it matches when `s[i]` is the currency
   * symbol and a digit follows the optional white space; the group is the
   * longest amount starting there.
   */
  function PriceAt(s: string, sym: char, i: nat): (r: Option<string>)
    ensures r.Some? <==> i < |s| && s[i] == sym && SkipSpaces(s, i + 1) < |s| && IsDigit(s[SkipSpaces(s, i + 1)])
    ensures r.Some? ==> IsAmount(r.value)
    ensures r.Some? ==>
      var j := SkipSpaces(s, i + 1);
      j + |r.value| <= |s| && s[j..j + |r.value|] == r.value
  {
    if i < |s| && s[i] == sym then
      var j := SkipSpaces(s, i + 1);
      var k := DigitsEnd(s, j);
      if k == j then None
      else if k < |s| && IsSeparator(s[k]) then
        var e := DigitsEnd(s, k + 1);
        AmountWithSeparator(s, j, k, e);
        Some(s[j..e])
      else
        AmountWithoutSeparator(s, j, k);
        Some(s[j..k])
    else None
  }

  /** Digits, one separator, digits: an amount. */
  lemma AmountWithSeparator(s: string, j: nat, k: nat, e: nat)
    requires j < k && k + 1 <= e <= |s|
    requires forall m :: j <= m < k ==> IsDigit(s[m])
    requires IsSeparator(s[k])
    requires forall m :: k + 1 <= m < e ==> IsDigit(s[m])
    ensures IsAmount(s[j..e])
  {
    var d := s[j..e];
    assert forall m :: 0 <= m < |d| ==> d[m] == s[j + m];
    assert forall m :: 0 <= m < |d| && m != k - j ==> IsDigit(d[m]);
  }

  /** A run of digits alone is an amount. */
  lemma AmountWithoutSeparator(s: string, j: nat, k: nat)
    requires j < k <= |s|
    requires forall m :: j <= m < k ==> IsDigit(s[m])
    ensures IsAmount(s[j..k])
  {
    var d := s[j..k];
    assert forall m :: 0 <= m < |d| ==> d[m] == s[j + m];
  }

  function PriceMatcher(s: string, sym: char): nat -> Option<string>
  {
    (i: nat) => PriceAt(s, sym, i)
  }

  /** `FindStringSubmatch` of the price pattern: the amount of its leftmost match. */
  function FindPrice(s: string, sym: char): (r: Option<string>)
    ensures r.Some? ==> IsAmount(r.value)
  {
    var r := Leftmost(|s|, PriceMatcher(s, sym), 0);
    assert r.Some? ==> exists i :: PriceMatcher(s, sym)(i) == r;
    r
  }

  /**
   * The price found is the one at the leftmost position where the pattern
   * matches, and there is none exactly when it matches nowhere.
   */
  lemma FindPriceLeftmost(s: string, sym: char)
    ensures FindPrice(s, sym).None? <==> forall i :: 0 <= i < |s| ==> PriceAt(s, sym, i).None?
    ensures FindPrice(s, sym).Some? ==>
      exists i :: 0 <= i < |s| && PriceAt(s, sym, i) == FindPrice(s, sym) &&
        forall k :: 0 <= k < i ==> PriceAt(s, sym, k).None?
  {
    assert forall i :: PriceMatcher(s, sym)(i) == PriceAt(s, sym, i);
  }

  /** A text without the currency symbol has no price. */
  lemma NoSymbolNoPrice(s: string, sym: char)
    requires sym !in s
    ensures FindPrice(s, sym).None?
  {
    FindPriceLeftmost(s, sym);
  }

  // ---------------------------------------------------------------------------
  // `(\d+)\s*[Uu]rest`: a count followed by a word whose first letter may be capitalised
  // ---------------------------------------------------------------------------

  /**
   * The count pattern anchored at `i`: digits, optional white space, then the
   * word; the group is the digit run.
   */
  function CountAt(s: string, upper: char, lower: char, rest: string, i: nat): (r: Option<string>)
    ensures r.Some? ==> |r.value| > 0 && AllDigits(r.value)
    ensures r.Some? ==> i + |r.value| <= |s| && s[i..i + |r.value|] == r.value
    ensures r.Some? ==>
      var k := SkipSpaces(s, i + |r.value|);
      k < |s| && (s[k] == upper || s[k] == lower) && HasPrefix(s[k + 1..], rest)
  {
    if i < |s| && IsDigit(s[i]) then
      var j := DigitsEnd(s, i);
      var k := SkipSpaces(s, j);
      if k < |s| && (s[k] == upper || s[k] == lower) && HasPrefix(s[k + 1..], rest) then Some(s[i..j]) else None
    else None
  }

  function CountMatcher(s: string, upper: char, lower: char, rest: string): nat -> Option<string>
  {
    (i: nat) => CountAt(s, upper, lower, rest, i)
  }

  /** `FindStringSubmatch` of a count pattern: the digits of its leftmost match. */
  function FindCount(s: string, upper: char, lower: char, rest: string): (r: Option<string>)
    ensures r.Some? ==> |r.value| > 0 && AllDigits(r.value)
  {
    var r := Leftmost(|s|, CountMatcher(s, upper, lower, rest), 0);
    assert r.Some? ==> exists i :: CountMatcher(s, upper, lower, rest)(i) == r;
    r
  }

  /**
   * The count found is the one at the leftmost position where the pattern
   * matches, and there is none exactly when it matches nowhere.
   */
  lemma FindCountLeftmost(s: string, upper: char, lower: char, rest: string)
    ensures FindCount(s, upper, lower, rest).None? <==> forall i :: 0 <= i < |s| ==> CountAt(s, upper, lower, rest, i).None?
    ensures FindCount(s, upper, lower, rest).Some? ==>
      exists i :: 0 <= i < |s| && CountAt(s, upper, lower, rest, i) == FindCount(s, upper, lower, rest) &&
        forall k :: 0 <= k < i ==> CountAt(s, upper, lower, rest, k).None?
  {
    assert forall i :: CountMatcher(s, upper, lower, rest)(i) == CountAt(s, upper, lower, rest, i);
  }

  /** No count without a digit. */
  lemma NoDigitNoCount(s: string, upper: char, lower: char, rest: string)
    requires forall i :: 0 <= i < |s| ==> !IsDigit(s[i])
    ensures FindCount(s, upper, lower, rest).None?
  {
    FindCountLeftmost(s, upper, lower, rest);
  }

  // ---------------------------------------------------------------------------
  // `<[^>]*>` replaced by ""
  // ---------------------------------------------------------------------------

  /** The first position at or after `i` holding `c`. */
  function IndexFrom(s: string, c: char, i: nat): (r: Option<nat>)
    requires i <= |s|
    ensures r.Some? ==> i <= r.value < |s| && s[r.value] == c && forall k :: i <= k < r.value ==> s[k] != c
    ensures r.None? ==> forall k :: i <= k < |s| ==> s[k] != c
    decreases |s| - i
  {
    if i == |s| then None
    else if s[i] == c then Some(i)
    else IndexFrom(s, c, i + 1)
  }

  /** No '<' is followed, anywhere later, by a '>': the text holds nothing `<[^>]*>` matches. */
  predicate TagFree(s: string)
  {
    forall i, j :: 0 <= i < j < |s| && s[i] == '<' ==> s[j] != '>'
  }

  /** Every contiguous block of a tag-free text is tag-free. */
  lemma TagFreeSlice(s: string, a: nat, b: nat)
    requires a <= b <= |s| && TagFree(s)
    ensures TagFree(s[a..b])
  {
    var t := s[a..b];
    forall i, j | 0 <= i < j < |t| && t[i] == '<'
      ensures t[j] != '>'
    {
      assert t[i] == s[a + i] && t[j] == s[a + j];
    }
  }

  /**
   * Tag removal: each '<' together with everything up to the first '>' after
   * it is dropped; a '<' with no '>' after it stays, and so does the rest.
   * The result holds no '<' that a '>' follows, and text without '<' or
   * without '>' comes back unchanged.
   */
  function StripTags(s: string): (r: string)
    ensures |r| <= |s|
    ensures TagFree(r)
    ensures '<' !in s ==> r == s
    ensures '>' !in s ==> r == s
    decreases |s|
  {
    if s == [] then []
    else if s[0] == '<' then
      match IndexFrom(s, '>', 1)
      case Some(k) => StripTags(s[k + 1..])
      case None => s
    else
      var t := StripTags(s[1..]);
      assert s == [s[0]] + s[1..];
      [s[0]] + t
  }

  // ---------------------------------------------------------------------------
  // `\s+` replaced by " "
  // ---------------------------------------------------------------------------

  /** Every `\s` is white space for `strings.TrimSpace`. */
  lemma RegexSpaceIsSpace(c: char)
    requires IsRegexSpace(c)
    ensures IsSpace(c)
  {
  }

  /**
   * Each maximal run of `\s` becomes one space: the result has no tab, line
   * break, form feed or carriage return and no two spaces in a row, and its
   * first and last characters are those of the input when they are not `\s`.
   */
  function CollapseSpaces(s: string): (r: string)
    ensures |r| <= |s| && (s == [] <==> r == [])
    ensures forall i :: 0 <= i < |r| ==> r[i] == ' ' || !IsRegexSpace(r[i])
    ensures forall i :: 0 <= i < |r| - 1 ==> !(r[i] == ' ' && r[i + 1] == ' ')
    ensures s != [] && !IsRegexSpace(s[0]) ==> r[0] == s[0]
    ensures s != [] && !IsRegexSpace(s[|s| - 1]) ==> r[|r| - 1] == s[|s| - 1]
    ensures (forall i :: 0 <= i < |s| ==> !IsRegexSpace(s[i])) ==> r == s
    decreases |s|
  {
    if s == [] then []
    else if IsRegexSpace(s[0]) then
      var j := SkipSpaces(s, 0);
      " " + CollapseSpaces(s[j..])
    else
      [s[0]] + CollapseSpaces(s[1..])
  }
}
