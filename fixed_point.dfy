/**
 * The arithmetic of the fixed-point engine. Every Unit field is a C `char`,
 * taken here to be signed and 8 bits wide; a real number v in [0,1] is held
 * as the integer v*32. C evaluates `char` expressions in `int` and wraps the
 * result when it is stored back into a `char` field; `/` and `%` truncate
 * toward zero.
 */
module FixedPoint {

  /** A signed 8-bit C `char`. */
  type Char = x: int | -128 <= x <= 127

  /** The fixed-point scale: 32 stands for 1.0. */
  const One: int := 32

  /** The `char step_size = 1` of the update steps. */
  const StepSize: Char := 1

  /** Storing an `int` into a `char` field: two's-complement wrap-around modulo 256. */
  function Wrap(x: int): Char
  {
    if -128 <= x <= 127 then x else (x + 128) % 256 - 128
  }

  /** Wrapping keeps a value that fits and otherwise moves it by a multiple
      of 256, and the wrapped value is the only `char` congruent to `x`
      modulo 256. */
  lemma WrapCongruent(x: int, r: Char)
    ensures (x - Wrap(x)) % 256 == 0
    ensures -128 <= x <= 127 ==> Wrap(x) == x
    ensures (x - r) % 256 == 0 ==> r == Wrap(x)
  {
    var w := Wrap(x);
    assert (x - w) % 256 == 0 by {
      var q := (x + 128) / 256;
      assert x + 128 == 256 * q + (x + 128) % 256;
      if !(-128 <= x <= 127) {
        assert x - w == 256 * q;
      }
    }
    if (x - r) % 256 == 0 {
      assert (w - r) % 256 == 0 by {
        assert w - r == (x - r) - (x - w);
      }
      assert -255 <= w - r <= 255;
    }
  }

  /** C's integer `/` by a positive divisor: the quotient truncated toward zero. */
  function TDiv(a: int, d: int): (q: int)
    requires d > 0
    ensures a >= 0 ==> 0 <= d * q <= a < d * q + d
    ensures a < 0 ==> d * q - d < a <= d * q <= 0
  {
    if a >= 0 then
      DivBounds(a, d);
      a / d
    else
      DivBounds(-a, d);
      -((-a) / d)
  }

  /** Euclidean division bounds for a non-negative dividend. */
  lemma DivBounds(n: int, d: int)
    requires n >= 0 && d > 0
    ensures 0 <= n / d && 0 <= d * (n / d) <= n < d * (n / d) + d
  {
    var q, m := n / d, n % d;
    assert n == d * q + m && 0 <= m < d;
  }

  /** C's integer `%` by a positive divisor: the remainder takes the sign of `a`. */
  function TRem(a: int, d: int): (r: int)
    requires d > 0
    ensures a == d * TDiv(a, d) + r
    ensures a >= 0 ==> 0 <= r < d
    ensures a < 0 ==> -d < r <= 0
  {
    if a >= 0 then a % d else -((-a) % d)
  }

  /** C's conversion of a `double` to `char`: truncation toward zero
      (only defined when the truncated value fits in a `char`). */
  function Truncate(r: real): (c: Char)
    requires -129.0 < r < 128.0
    ensures r >= 0.0 ==> c as real <= r < c as real + 1.0
    ensures r < 0.0 ==> c as real - 1.0 < r <= c as real
  {
    if r >= 0.0 then r.Floor else -((-r).Floor)
  }

  /** The saturating rectifier of the fixed-point engine: clamps to [0, 32]. */
  function ReLu(x: Char): (r: Char)
    ensures 0 <= r <= One
    ensures 0 <= x <= One ==> r == x
    ensures x > One ==> r == One
    ensures x < 0 ==> r == 0
    ensures r > 0 <==> x > 0
  {
    if x > 32 then 32 else if x > 0 then x else 0
  }

  /** The multiply gate's output value: the product rescaled by 1/32,
      truncating, then stored into a `char`. */
  function MulValue(v0: Char, v1: Char): Char
  {
    Wrap(TDiv(v0 * v1, One))
  }

  /** The add gate's output value: the sum stored into a `char`. */
  function AddValue(v0: Char, v1: Char): Char
  {
    Wrap(v0 + v1)
  }

  /** `grad += delta` on a `char` field. */
  function Accumulate(grad: Char, delta: int): Char
  {
    Wrap(grad + delta)
  }

  /** `value += step_size * grad` on a `char` field. */
  function Step(value: Char, grad: Char): Char
  {
    Wrap(value + StepSize * grad)
  }

  /** `value %= 128` on a `char` field: only -128 is changed, to 0. */
  function Reduce(v: Char): (r: Char)
    ensures r == (if v == -128 then 0 else v)
    ensures -127 <= r <= 127
  {
    Wrap(TRem(v, 128))
  }

  /** 1.0 (that is, 32) is a two-sided identity of the rescaling multiply. */
  lemma MulByOne(v: Char)
    ensures MulValue(One, v) == v && MulValue(v, One) == v
  {
    assert One * v == v * One == 32 * v;
    assert TDiv(32 * v, 32) == v;
  }

  /** 0.5 * 0.5 = 0.25 on the grid: 16 * 16 / 32 = 8. */
  lemma MulHalfHalf()
    ensures MulValue(16, 16) == 8
  {
    assert TDiv(256, 32) == 8;
  }

  /** The product of two values in [0,1] stays in [0,1], does not wrap and is
      no larger than either factor. */
  lemma MulUnitRange(v0: Char, v1: Char)
    requires 0 <= v0 <= One && 0 <= v1 <= One
    ensures 0 <= MulValue(v0, v1) <= v0 && MulValue(v0, v1) <= v1
    ensures MulValue(v0, v1) == TDiv(v0 * v1, One)
  {
    var p := v0 * v1;
    MulMono(v0, 32, v1);
    MulMono(v1, 32, v0);
    assert 0 <= p <= 32 * v1 && p <= 32 * v0;
    var q := TDiv(p, One);
    assert 0 <= 32 * q <= p;
  }

  /** Multiplying by a non-negative factor preserves order. */
  lemma MulMono(a: int, b: int, c: int)
    requires 0 <= a <= b && 0 <= c
    ensures 0 <= a * c <= b * c && a * c == c * a && b * c == c * b
  {
  }

  /** The rectifier is monotone and idempotent. */
  lemma ReLuMonotone(x: Char, y: Char)
    requires x <= y
    ensures ReLu(x) <= ReLu(y)
    ensures ReLu(ReLu(x)) == ReLu(x)
  {
  }
}
