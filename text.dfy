/** Python text. A Python `str` is a sequence of code points and, unlike a
    Dafny `string`, may hold lone surrogates (a JSON escape such as "\ud800"
    produces one), so text is modelled as a sequence of code points. */
module Text {

  newtype CodePoint = x: int | 0 <= x < 0x11_0000

  type PyStr = seq<CodePoint>

  /** The Python literal with the same characters as `s`. */
  function Lit(s: string): (r: PyStr)
    ensures |r| == |s|
    ensures forall i :: 0 <= i < |s| ==> r[i] as int == s[i] as int
  {
    seq(|s|, i requires 0 <= i < |s| => s[i] as int as CodePoint)
  }

  /** Two literals are equal exactly when their Dafny strings are. */
  lemma LitInjective(a: string, b: string)
    ensures Lit(a) == Lit(b) <==> a == b
  {
    if Lit(a) == Lit(b) {
      forall i | 0 <= i < |a| ensures a[i] == b[i] {
        assert Lit(a)[i] == Lit(b)[i];
      }
    }
  }

  /** `c.isspace()` for a single code point: the characters that
      `str.strip()` removes when called without arguments. */
  predicate IsSpace(c: CodePoint) {
    || 0x09 <= c <= 0x0D
    || 0x1C <= c <= 0x20
    || c == 0x85 || c == 0xA0 || c == 0x1680
    || 0x2000 <= c <= 0x200A
    || c == 0x2028 || c == 0x2029 || c == 0x202F || c == 0x205F || c == 0x3000
  }

  /** `not s.strip()`: the text is empty or whitespace only. */
  predicate IsBlank(s: PyStr) {
    forall i :: 0 <= i < |s| ==> IsSpace(s[i])
  }

  predicate IsSurrogate(c: CodePoint) {
    0xD800 <= c <= 0xDFFF
  }

  /** `s.encode('utf-8')` succeeds: no lone surrogate. */
  predicate Encodable(s: PyStr) {
    forall i :: 0 <= i < |s| ==> !IsSurrogate(s[i])
  }

  function DigitChar(d: nat): (c: CodePoint)
    requires d < 10
  {
    (0x30 + d) as CodePoint
  }

  /** `str(n)` for a natural number. */
  function NatToStr(n: nat): (r: PyStr)
    ensures |r| >= 1
    decreases n
  {
    if n < 10 then [DigitChar(n)] else NatToStr(n / 10) + [DigitChar(n % 10)]
  }

  /** `str(i)` for any integer. */
  function IntToStr(i: int): PyStr {
    if i < 0 then Lit("-") + NatToStr(-i) else NatToStr(i)
  }

  /** The value of a string of decimal digits, the inverse of `NatToStr`. */
  function DigitsValue(s: PyStr): int
    decreases |s|
  {
    if s == [] then 0 else DigitsValue(s[..|s| - 1]) * 10 + (s[|s| - 1] as int - 0x30)
  }

  lemma {:induction false} NatToStrRoundTrip(n: nat)
    ensures DigitsValue(NatToStr(n)) == n
    decreases n
  {
    if n >= 10 {
      var r := NatToStr(n);
      assert r[..|r| - 1] == NatToStr(n / 10);
      NatToStrRoundTrip(n / 10);
    }
  }

  /** `sep.join(parts)`. */
  function Join(sep: PyStr, parts: seq<PyStr>): PyStr
    decreases |parts|
  {
    if parts == [] then []
    else if |parts| == 1 then parts[0]
    else Join(sep, parts[..|parts| - 1]) + sep + parts[|parts| - 1]
  }
}
