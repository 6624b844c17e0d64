/**
 * The JavaScript string operations the pages use: `toLowerCase`, `includes`,
 * `indexOf`, `trim` and `split(c)[0]`.
 * Case mapping is restricted to ASCII letters; every other character maps to itself.
 */
module Text {

  /** `toLowerCase` on one character, restricted to the ASCII letters. */
  function LowerChar(c: char): (r: char)
    ensures 'A' <= c <= 'Z' ==> 'a' <= r <= 'z' && r as int - c as int == 32
    ensures !('A' <= c <= 'Z') ==> r == c
  {
    if 'A' <= c <= 'Z' then (c as int + 32) as char else c
  }

  /** `s.toLowerCase()`, character by character. */
  function Lower(s: string): (r: string)
    ensures |r| == |s|
    ensures forall i :: 0 <= i < |s| ==> r[i] == LowerChar(s[i])
  {
    if s == [] then [] else [LowerChar(s[0])] + Lower(s[1..])
  }

  /** A string with no upper-case ASCII letter is its own lower case. */
  lemma LowerOfLowerCase(s: string)
    requires forall i :: 0 <= i < |s| ==> !('A' <= s[i] <= 'Z')
    ensures Lower(s) == s
  {
  }

  /** `needle` occurs in `hay` starting at position `i`. */
  predicate OccursAt(hay: string, needle: string, i: int)
  {
    0 <= i && i + |needle| <= |hay| && hay[i..i + |needle|] == needle
  }

  /**
   * `hay.includes(needle)`: some position of `hay` starts an occurrence of `needle`.
   * The empty needle is contained in every string; a needle longer than the
   * haystack in none.
   */
  predicate Contains(hay: string, needle: string)
    ensures needle == [] ==> Contains(hay, needle)
    ensures Contains(hay, needle) ==> |needle| <= |hay|
  {
    assert needle == [] ==> OccursAt(hay, needle, 0);
    exists i :: 0 <= i <= |hay| - |needle| && OccursAt(hay, needle, i)
  }

  /** A needle holding a character the haystack lacks does not occur in it. */
  lemma MissingCharNotContained(hay: string, needle: string, k: nat)
    requires k < |needle| && needle[k] !in hay
    ensures !Contains(hay, needle)
  {
  }

  /** `hay.indexOf(needle)`: the first position where `needle` occurs, or -1. */
  function IndexOf(hay: string, needle: string): (r: int)
    ensures r >= 0 <==> Contains(hay, needle)
    ensures r >= 0 ==> OccursAt(hay, needle, r)
    ensures r >= 0 ==> forall j :: 0 <= j < r ==> !OccursAt(hay, needle, j)
    ensures r < 0 ==> r == -1
    decreases |hay|
  {
    if |needle| > |hay| then
      assert forall i :: !OccursAt(hay, needle, i);
      -1
    else if hay[..|needle|] == needle then
      assert OccursAt(hay, needle, 0);
      0
    else
      var k := IndexOf(hay[1..], needle);
      ShiftOccurrences(hay, needle);
      assert !OccursAt(hay, needle, 0);
      if k < 0 then -1 else k + 1
  }

  /** Occurrences in `hay[1..]` are the occurrences in `hay` past position 0, shifted by one. */
  lemma ShiftOccurrences(hay: string, needle: string)
    requires |hay| > 0
    ensures forall i :: OccursAt(hay[1..], needle, i) ==> OccursAt(hay, needle, i + 1)
    ensures forall i :: 1 <= i && OccursAt(hay, needle, i) ==> OccursAt(hay[1..], needle, i - 1)
  {
  }

  /** `hay.toLowerCase().includes(term.toLowerCase())`: the case-insensitive `includes`. */
  predicate MatchesIgnoringCase(hay: string, term: string)
  {
    Contains(Lower(hay), Lower(term))
  }

  /** The characters JavaScript's `trim` removes: white space and line terminators. */
  predicate IsTrimmable(c: char)
  {
    var n := c as int;
    n == 0x09 || n == 0x0A || n == 0x0B || n == 0x0C || n == 0x0D || n == 0x20
    || n == 0xA0 || n == 0x1680 || (0x2000 <= n <= 0x200A) || n == 0x2028 || n == 0x2029
    || n == 0x202F || n == 0x205F || n == 0x3000 || n == 0xFEFF
  }

  /** `s.trimStart()`. */
  function TrimStart(s: string): (r: string)
    ensures |r| <= |s| && r == s[|s| - |r|..]
    ensures r != [] ==> !IsTrimmable(r[0])
    ensures forall i :: 0 <= i < |s| - |r| ==> IsTrimmable(s[i])
  {
    if s != [] && IsTrimmable(s[0]) then TrimStart(s[1..]) else s
  }

  /** `s.trimEnd()`. */
  function TrimEnd(s: string): (r: string)
    ensures |r| <= |s| && r == s[..|r|]
    ensures r != [] ==> !IsTrimmable(r[|r| - 1])
    ensures forall i :: |r| <= i < |s| ==> IsTrimmable(s[i])
  {
    if s != [] && IsTrimmable(s[|s| - 1]) then TrimEnd(s[..|s| - 1]) else s
  }

  /** `r` is the slice of `s` at `k`, and every character of `s` outside it is trimmable. */
  predicate TrimmedSliceAt(s: string, r: string, k: int)
  {
    0 <= k <= |s| - |r| && r == s[k..k + |r|]
    && (forall i :: 0 <= i < k ==> IsTrimmable(s[i]))
    && (forall i :: k + |r| <= i < |s| ==> IsTrimmable(s[i]))
  }

  /**
   * `s.trim()`: the slice of `s` left once the trimmable characters at both ends
   * are removed; it neither starts nor ends with one, and everything outside it is one.
   */
  function Trim(s: string): (r: string)
    ensures exists k :: TrimmedSliceAt(s, r, k)
    ensures r != [] ==> !IsTrimmable(r[0]) && !IsTrimmable(r[|r| - 1])
  {
    var front := TrimStart(s);
    var k := |s| - |front|;
    assert TrimmedSliceAt(s, TrimEnd(front), k);
    TrimEnd(front)
  }

  /** `s.trim() === ''` exactly when every character of `s` is one that `trim` removes. */
  lemma TrimEmptyIffBlank(s: string)
    ensures Trim(s) == "" <==> forall i :: 0 <= i < |s| ==> IsTrimmable(s[i])
  {
  }

  /** `s.split(sep)[0]`: the part of `s` before the first `sep`, or all of `s` when it has none. */
  function BeforeFirst(s: string, sep: char): (r: string)
    ensures r <= s
    ensures sep !in r
    ensures |r| < |s| ==> s[|r|] == sep
  {
    if s == [] || s[0] == sep then [] else [s[0]] + BeforeFirst(s[1..], sep)
  }

  /** A string cut at its first separator gives back the part before it. */
  lemma {:induction false} BeforeFirstOfJoin(front: string, sep: char, back: string)
    requires sep !in front
    ensures BeforeFirst(front + [sep] + back, sep) == front
  {
    if front != [] {
      assert (front + [sep] + back)[1..] == front[1..] + [sep] + back;
      BeforeFirstOfJoin(front[1..], sep, back);
    }
  }
}
