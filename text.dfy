/**
 * The handful of JavaScript string operations the bot relies on:
 * `indexOf`, `replace` with a string pattern, `split(sep)[0]`, `startsWith`,
 * `toLowerCase` and the rendering of a non-negative integer in a template literal.
 */
module Text {

  /** `p` occurs in `s` starting at index `k`. */
  predicate OccursAt(s: string, p: string, k: int)
  {
    0 <= k && k + |p| <= |s| && s[k..k + |p|] == p
  }

  /** Putting text in front moves every occurrence by the length of that text. */
  lemma OccursAfterPrefix(a: string, s: string, p: string, j: int)
    requires OccursAt(s, p, j)
    ensures OccursAt(a + s, p, |a| + j)
  {
    assert (a + s)[|a| + j..|a| + j + |p|] == s[j..j + |p|];
  }

  /** `s.startsWith(p)`. */
  predicate StartsWith(s: string, p: string)
  {
    OccursAt(s, p, 0)
  }

  /** The first index at or after `i` where `p` occurs in `s`, or -1. */
  function FindFrom(s: string, p: string, i: nat): (k: int)
    requires i <= |s|
    ensures k == -1 || (i <= k && OccursAt(s, p, k))
    ensures k == -1 ==> forall j :: i <= j ==> !OccursAt(s, p, j)
    ensures k != -1 ==> forall j :: i <= j < k ==> !OccursAt(s, p, j)
    decreases |s| - i
  {
    if OccursAt(s, p, i) then i
    else if i + |p| >= |s| then -1
    else FindFrom(s, p, i + 1)
  }

  /** `s.indexOf(p)`: the least index where `p` occurs in `s`, or -1 when it does not occur. */
  function Find(s: string, p: string): (k: int)
    ensures k == -1 <==> forall j :: !OccursAt(s, p, j)
    ensures k != -1 ==> OccursAt(s, p, k) && forall j :: 0 <= j < k ==> !OccursAt(s, p, j)
  {
    FindFrom(s, p, 0)
  }

  /**
   * `s.replace(p, rep)` with a string pattern: only the FIRST occurrence of `p` is
   * replaced, and `s` is returned unchanged when `p` does not occur.
   * (A replacement containing `$` patterns is not modelled; the bot's has none.)
   */
  function ReplaceFirst(s: string, p: string, rep: string): (r: string)
    ensures (forall j :: !OccursAt(s, p, j)) ==> r == s
    ensures forall k :: OccursAt(s, p, k) && (forall j :: 0 <= j < k ==> !OccursAt(s, p, j)) ==>
              r == s[..k] + rep + s[k + |p|..]
  {
    var k := Find(s, p);
    if k == -1 then s else s[..k] + rep + s[k + |p|..]
  }

  /** Lower-casing of one character, for the ASCII letters. */
  function LowerChar(c: char): char
  {
    if 'A' <= c <= 'Z' then (c as int + 32) as char else c
  }

  /** `s.toLowerCase()`, restricted to ASCII case folding. */
  function Lower(s: string): (r: string)
    ensures |r| == |s|
    ensures forall i :: 0 <= i < |s| ==> r[i] == LowerChar(s[i])
  {
    if s == [] then [] else [LowerChar(s[0])] + Lower(s[1..])
  }

  predicate IsDigit(c: char)
  {
    '0' <= c <= '9'
  }

  function DigitChar(d: nat): (c: char)
    requires d < 10
    ensures IsDigit(c)
  {
    ('0' as int + d) as char
  }

  function DigitValue(c: char): nat
    requires IsDigit(c)
  {
    c as int - '0' as int
  }

  /** The decimal text of `n`, as a template literal renders a non-negative integer. */
  function Decimal(n: nat): (s: string)
    ensures |s| >= 1
    ensures forall i :: 0 <= i < |s| ==> IsDigit(s[i])
    ensures n > 0 ==> s[0] != '0'
  {
    if n < 10 then [DigitChar(n)] else Decimal(n / 10) + [DigitChar(n % 10)]
  }

  /** The value of a non-empty string of decimal digits. */
  function ParseDecimal(s: string): nat
    requires forall i :: 0 <= i < |s| ==> IsDigit(s[i])
  {
    if s == [] then 0 else ParseDecimal(s[..|s| - 1]) * 10 + DigitValue(s[|s| - 1])
  }

  /** The rendered number can be read back: no information about `n` is lost in the text. */
  lemma {:induction false} DecimalRoundTrip(n: nat)
    ensures ParseDecimal(Decimal(n)) == n
  {
    if n >= 10 {
      DecimalRoundTrip(n / 10);
      var s := Decimal(n);
      assert s[..|s| - 1] == Decimal(n / 10);
    }
  }
}
