/** Java's 32-bit `int` and its decimal rendering, as used by the model classes. */
module JavaInt {

  const MinInt32: int := -0x8000_0000
  const MaxInt32: int := 0x7fff_ffff
  const Modulus: int := 0x1_0000_0000

  type Int32 = x: int | MinInt32 <= x <= MaxInt32

  function Min(a: int, b: int): int {
    if a <= b then a else b
  }

  /** The two's-complement wrap-around that Java's `int` arithmetic applies. */
  function Wrap32(x: int): (r: Int32)
    ensures (r - x) % Modulus == 0
    ensures MinInt32 <= x <= MaxInt32 ==> r == x
  {
    (x - MinInt32) % Modulus + MinInt32
  }

  /** Wrapping is insensitive to adding a multiple of 2^32 before wrapping. */
  lemma WrapShift(x: int, y: int)
    requires (x - y) % Modulus == 0
    ensures Wrap32(x) == Wrap32(y)
  {
    var q := (x - y) / Modulus;
    assert x - MinInt32 == (y - MinInt32) + q * Modulus;
    ModAddMultiple(y - MinInt32, q);
  }

  /** The difference of two multiples of 2^32 is one. */
  lemma MultipleDifference(a: int, b: int)
    requires a % Modulus == 0 && b % Modulus == 0
    ensures (a - b) % Modulus == 0
  {
    var qa, qb := a / Modulus, b / Modulus;
    assert a == qa * Modulus;
    assert b == qb * Modulus;
    assert a - b == (qa - qb) * Modulus;
    ModAddMultiple(0, qa - qb);
  }

  lemma ModAddMultiple(a: int, q: int)
    ensures (a + q * Modulus) % Modulus == a % Modulus
  {
  }

  function DigitChar(d: nat): (c: char)
    requires d < 10
  {
    (d + '0' as int) as char
  }

  predicate IsDigit(c: char) {
    '0' <= c <= '9'
  }

  predicate AllDigits(s: string) {
    forall k :: 0 <= k < |s| ==> IsDigit(s[k])
  }

  /** Decimal digits of a natural number, most significant first, without leading zeros. */
  function NatDigits(n: nat): (s: string)
    ensures |s| > 0 && AllDigits(s)
    ensures |s| > 1 ==> s[0] != '0'
  {
    if n < 10 then [DigitChar(n)] else NatDigits(n / 10) + [DigitChar(n % 10)]
  }

  /** Java's `Integer.toString`, which string concatenation with an `int` uses. */
  function DecimalString(n: int): (s: string)
    ensures |s| > 0 && IsDigit(s[|s| - 1])
    ensures (s[0] == '-') <==> n < 0
  {
    if n < 0 then "-" + NatDigits(-n) else NatDigits(n)
  }

  /** Reads back a digit string; the inverse of `NatDigits`. */
  function ParseNat(s: string): nat
    requires AllDigits(s)
  {
    if |s| == 0 then 0 else ParseNat(s[..|s| - 1]) * 10 + (s[|s| - 1] as int - '0' as int)
  }

  predicate IsDecimal(s: string) {
    if |s| > 0 && s[0] == '-' then |s| > 1 && AllDigits(s[1..]) else |s| > 0 && AllDigits(s)
  }

  /** Reads back an optionally signed decimal; the inverse of `DecimalString`. */
  function ParseDecimal(s: string): int
    requires IsDecimal(s)
  {
    var magnitude: int := ParseNat(if s[0] == '-' then s[1..] else s);
    if s[0] == '-' then -magnitude else magnitude
  }

  lemma {:induction false} NatDigitsRoundTrip(n: nat)
    ensures ParseNat(NatDigits(n)) == n
  {
    if n >= 10 {
      NatDigitsRoundTrip(n / 10);
      var s := NatDigits(n);
      assert s[..|s| - 1] == NatDigits(n / 10);
    }
  }

  /** Every `int` is recovered from its decimal rendering. */
  lemma DecimalRoundTrip(n: int)
    ensures IsDecimal(DecimalString(n))
    ensures ParseDecimal(DecimalString(n)) == n
  {
    if n < 0 {
      NatDigitsRoundTrip(-n);
      assert DecimalString(n)[1..] == NatDigits(-n);
    } else {
      NatDigitsRoundTrip(n);
    }
  }
}
