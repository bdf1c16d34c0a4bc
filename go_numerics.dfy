/** Go's numeric semantics as far as the exporter relies on them:
    the 64-bit `int` with two's-complement wrap-around, integer division
    that truncates toward zero, and the non-finite values of `float64`. */
module GoNumerics {

  const MinInt64: int := -0x8000_0000_0000_0000
  const MaxInt64: int := 0x7fff_ffff_ffff_ffff
  const Modulus64: int := 0x1_0000_0000_0000_0000

  /** Go's `int` (and `int64`) on a 64-bit platform. */
  type Int64 = x: int | MinInt64 <= x <= MaxInt64

  /** The value a Go `int` holds after an exact result `x` wraps around. */
  function Wrap64(x: int): (r: Int64)
    ensures (x - r) % Modulus64 == 0
    ensures MinInt64 <= x <= MaxInt64 ==> r == x
  {
    (x - MinInt64) % Modulus64 + MinInt64
  }

  /** Wrap64 subtracts a whole multiple of 2^64: the number of times `x`
      has gone past the range of Int64. */
  lemma WrapSubtracts(x: int)
    ensures Wrap64(x) == x - Modulus64 * ((x - MinInt64) / Modulus64)
  {
  }

  /** Wrapping after every `+=` gives the same value as wrapping the exact
      total once, so a wrapping accumulator tracks the exact sum modulo 2^64. */
  lemma WrapAccumulate(a: int, b: int)
    ensures Wrap64(Wrap64(a) + b) == Wrap64(a + b)
  {
    var w := Wrap64(a);
    WrapSubtracts(a);
    WrapSubtracts(w + b);
    WrapSubtracts(a + b);
    var ka := (a - MinInt64) / Modulus64;
    var k1 := (w + b - MinInt64) / Modulus64;
    var k2 := (a + b - MinInt64) / Modulus64;
    var t := k2 - k1 - ka;
    assert Wrap64(w + b) - Wrap64(a + b) == Modulus64 * t;
  }

  /** Go's `a / n` for a positive divisor: the quotient truncated toward zero
      (Dafny's own `/` is Euclidean and rounds negative quotients down). */
  function TruncDiv(a: int, n: int): (q: int)
    requires n > 0
    ensures a >= 0 ==> q >= 0 && q * n <= a < q * n + n
    ensures a < 0 ==> q * n - n < a <= q * n <= 0
  {
    if a >= 0 then
      EuclidQuotient(a, n);
      a / n
    else
      EuclidQuotient(-a, n);
      -((-a) / n)
  }

  /** Dafny's quotient of a non-negative dividend, in terms of multiplication. */
  lemma EuclidQuotient(a: nat, n: int)
    requires n > 0
    ensures a / n >= 0 && (a / n) * n <= a < (a / n) * n + n
  {
    var q, m := a / n, a % n;
    assert a == q * n + m && 0 <= m < n;
    assert q >= 0;
  }

  /** A Go `float64` as the exporter can produce it: a finite value (modelled
      as an exact real) or one of the non-finite results of dividing by zero. */
  datatype Float64 = Finite(value: real) | NaN | PosInf | NegInf

  /** Go's `x / float64(n)`: by IEEE 754, zero over zero is NaN and any other
      value over zero is an infinity of its sign. */
  function FloatDiv(x: real, n: nat): (r: Float64)
    ensures n > 0 ==> r.Finite? && r.value * n as real == x
    ensures n == 0 ==> (r.NaN? <==> x == 0.0)
    ensures n == 0 ==> (r.PosInf? <==> x > 0.0) && (r.NegInf? <==> x < 0.0)
  {
    if n > 0 then Finite(x / n as real)
    else if x == 0.0 then NaN
    else if x > 0.0 then PosInf
    else NegInf
  }
}
