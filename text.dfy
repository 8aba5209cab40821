/**
 * The string operations the pages and services use: `toLowerCase`,
 * `includes`, `endsWith`, `replace(/\D/g, '')`, `replace(/\s/g, '')`,
 * `trim() === ''`, `slice(-n)` and `Number.prototype.toString`.
 * Case mapping and white space are those of ASCII.
 */
module Text {
  import Seqs

  predicate IsUpper(c: char) { 'A' <= c <= 'Z' }

  predicate IsDigit(c: char) { '0' <= c <= '9' }

  /** The characters `\s` matches among ASCII: space, tab, LF, VT, FF, CR. */
  predicate IsSpace(c: char) { c == ' ' || c == '\t' || c == '\n' || c == '\U{000B}' || c == '\U{000C}' || c == '\r' }

  function LowerChar(c: char): (d: char)
    ensures !IsUpper(d)
    ensures IsUpper(c) ==> d as int == c as int + 32
    ensures !IsUpper(c) ==> d == c
  {
    if IsUpper(c) then (c as int + 32) as char else c
  }

  /** `toLowerCase()`. */
  function Lower(s: string): (r: string)
    ensures |r| == |s|
    ensures forall i :: 0 <= i < |s| ==> r[i] == LowerChar(s[i])
  {
    Seqs.Map(s, LowerChar)
  }

  /** Lower-casing twice is lower-casing once. */
  lemma LowerIdempotent(s: string)
    ensures Lower(Lower(s)) == Lower(s)
  {
    assert forall i :: 0 <= i < |s| ==> LowerChar(LowerChar(s[i])) == LowerChar(s[i]);
  }

  /** `t` occurs in `s` starting at position `i`. */
  predicate OccursAt(s: string, t: string, i: int)
  {
    0 <= i <= |s| - |t| && s[i..i + |t|] == t
  }

  /** `s.includes(t)`: `t` occurs in `s` at some position. */
  predicate Contains(s: string, t: string)
  {
    exists i | 0 <= i <= |s| - |t| :: OccursAt(s, t, i)
  }

  /** Every string includes the empty string. */
  lemma ContainsEmpty(s: string)
    ensures Contains(s, "")
  {
    assert OccursAt(s, "", 0);
  }

  /** A string includes itself. */
  lemma ContainsSelf(s: string)
    ensures Contains(s, s)
  {
    assert OccursAt(s, s, 0);
  }

  /** `s.toLowerCase().includes(t.toLowerCase())`. */
  predicate ContainsIgnoringCase(s: string, t: string)
  {
    Contains(Lower(s), Lower(t))
  }

  /** `s.endsWith(t)`. */
  predicate EndsWith(s: string, t: string)
  {
    |t| <= |s| && s[|s| - |t|..] == t
  }

  /** `replace(/\D/g, '')`: the digits of `s`, in order. */
  function DigitsOf(s: string): (r: string)
    ensures |r| <= |s|
    ensures forall i :: 0 <= i < |r| ==> IsDigit(r[i])
    ensures Seqs.IsSubsequence(r, s)
  {
    Seqs.Filter(s, IsDigit)
  }

  /** A string of digits is its own digit string. */
  lemma DigitsOfDigits(s: string)
    requires forall i :: 0 <= i < |s| ==> IsDigit(s[i])
    ensures DigitsOf(s) == s
  {
    Seqs.FilterKeepsAll(s, IsDigit);
  }

  predicate NotSpace(c: char) { !IsSpace(c) }

  /** `replace(/\s/g, '')`. */
  function WithoutSpaces(s: string): (r: string)
    ensures |r| <= |s|
    ensures forall i :: 0 <= i < |r| ==> !IsSpace(r[i])
  {
    Seqs.Filter(s, NotSpace)
  }

  /** `s.trim() === ''`: nothing but white space. */
  predicate IsBlank(s: string)
  {
    forall i :: 0 <= i < |s| ==> IsSpace(s[i])
  }

  /** `s.slice(-n)` for `n > 0`: the last `n` characters, or all of `s` when it is shorter. */
  function LastChars(s: string, n: nat): (r: string)
    requires n > 0
    ensures |r| == if |s| < n then |s| else n
    ensures EndsWith(s, r)
  {
    if |s| < n then s else s[|s| - n..]
  }

  function DigitChar(d: nat): (c: char)
    requires d < 10
    ensures IsDigit(c)
  {
    ('0' as int + d) as char
  }

  /** Decimal digits of a natural number, without leading zeros. */
  function NatToString(n: nat): (r: string)
    ensures |r| > 0
    ensures forall i :: 0 <= i < |r| ==> IsDigit(r[i])
    decreases n
  {
    if n < 10 then [DigitChar(n)] else NatToString(n / 10) + [DigitChar(n % 10)]
  }

  /** `Number.prototype.toString()` on an integer. */
  function IntToString(n: int): (r: string)
    ensures |r| > 0
    ensures n >= 0 <==> IsDigit(r[0])
  {
    if n < 0 then "-" + NatToString(-n) else NatToString(n)
  }
}
