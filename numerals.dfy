/** `str(n)`, `int(s)`, `hex(n)` and `s[a:b]` on non-negative integers and strings. */
module Numerals {

  function Pow(b: nat, n: nat): (r: nat)
    ensures b > 0 ==> r > 0
  {
    if n == 0 then 1 else b * Pow(b, n - 1)
  }

  /** The digit character for `d` in bases up to 16: '0'..'9', then 'a'..'f'. */
  function DigitChar(d: nat): char
    requires d < 16
  {
    if d < 10 then ('0' as int + d) as char else ('a' as int + d - 10) as char
  }

  predicate IsDecimalDigit(c: char) {
    '0' <= c <= '9'
  }

  /** The digits of `x` in `base`, most significant first, without leading zeros. */
  function Digits(x: nat, base: nat): (r: string)
    requires 2 <= base <= 16
    ensures |r| > 0
    ensures base == 10 ==> forall i :: 0 <= i < |r| ==> IsDecimalDigit(r[i])
    decreases x
  {
    if x < base then [DigitChar(x)]
    else
      var q, d := x / base, x % base;
      DivModBounds(x, base);
      var r := Digits(q, base) + [DigitChar(d)];
      assert base == 10 ==> IsDecimalDigit(DigitChar(d));
      r
  }

  /** `str(x)` */
  function Decimal(x: nat): string {
    Digits(x, 10)
  }

  /** `hex(x)` */
  function Hex(x: nat): string {
    "0x" + Digits(x, 16)
  }

  /** `int(s)` for a non-empty string of decimal digits (leading zeros allowed). */
  function ParseDecimal(s: string): nat
    requires forall i :: 0 <= i < |s| ==> IsDecimalDigit(s[i])
    decreases |s|
  {
    if s == "" then 0
    else
      var d := s[|s| - 1] as int - '0' as int;
      assert IsDecimalDigit(s[|s| - 1]);
      10 * ParseDecimal(s[..|s| - 1]) + d
  }

  /** `int(str(x)) == x` */
  lemma {:induction false} DecimalRoundTrip(x: nat)
    ensures ParseDecimal(Decimal(x)) == x
    decreases x
  {
    var s := Decimal(x);
    if x >= 10 {
      assert s == Decimal(x / 10) + [DigitChar(x % 10)];
      assert s[..|s| - 1] == Decimal(x / 10);
      DecimalRoundTrip(x / 10);
    }
  }

  /** A number below `base^n` has at most `n` digits. */
  lemma {:induction false} DigitsBound(x: nat, base: nat, n: nat)
    requires 2 <= base <= 16 && 1 <= n && x < Pow(base, n)
    ensures |Digits(x, base)| <= n
    decreases x
  {
    if x >= base {
      assert n >= 2;
      var p := Pow(base, n - 1);
      assert Pow(base, n) == base * p;
      DivBelow(x, base, p);
      DigitsBound(x / base, base, n - 1);
    }
  }

  lemma DivModBounds(x: nat, b: nat)
    requires 2 <= b <= x
    ensures x / b < x && x % b < b
  {
  }

  lemma DivBelow(x: nat, b: nat, p: nat)
    requires b > 0 && x < b * p
    ensures x / b < p
  {
  }

  /** `s[::-1]` */
  function Reverse(s: string): (r: string)
    ensures |r| == |s| && forall i :: 0 <= i < |s| ==> r[i] == s[|s| - 1 - i]
    decreases |s|
  {
    if s == "" then "" else Reverse(s[1..]) + [s[0]]
  }

  /** A Python slice bound: a negative bound counts from the end, then the bound is
      clipped to `[0, n]`. */
  function SliceBound(i: int, n: nat): (r: nat)
    ensures r <= n
  {
    if i < 0 then (if i + n < 0 then 0 else i + n) else if i > n then n else i
  }

  /** `s[start:stop]` */
  function Slice(s: string, start: int, stop: int): (r: string)
    ensures |r| <= |s|
  {
    var a := SliceBound(start, |s|);
    var b := SliceBound(stop, |s|);
    if a < b then s[a..b] else ""
  }
}
