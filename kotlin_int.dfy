// Kotlin's fixed-width integer arithmetic, written out: `Int` is 32-bit
// two's complement and wraps on overflow; `/` truncates toward zero.

module KotlinInt {

  const TwoTo32: int := 0x1_0000_0000
  const IntMin: int := -0x8000_0000
  const IntMax: int := 0x7FFF_FFFF

  predicate InIntRange(x: int) {
    IntMin <= x <= IntMax
  }

  /** The `Int` that a mathematical result wraps to. */
  function Wrap32(x: int): (r: int)
    ensures InIntRange(r)
    ensures (r - x) % TwoTo32 == 0
    ensures InIntRange(x) ==> r == x
  {
    (x - IntMin) % TwoTo32 + IntMin
  }

  /** `Int * Int` in Kotlin. */
  function Mul32(a: int, b: int): (r: int)
    ensures InIntRange(r)
  {
    Wrap32(a * b)
  }

  /** Euclidean division of a non-negative number: the quotient brackets it between two multiples of b. */
  lemma DivBounds(a: int, b: int)
    requires a >= 0 && b > 0
    ensures a / b >= 0
    ensures 0 <= (a / b) * b <= a < (a / b + 1) * b
  {
    var q := a / b;
    assert a == q * b + a % b;
    assert (q + 1) * b == q * b + b;
  }

  /** Kotlin's `/` on integers for a positive divisor: the quotient truncated toward zero. */
  function TruncDiv(a: int, b: int): (q: int)
    requires b > 0
    ensures a >= 0 ==> 0 <= q * b <= a < (q + 1) * b
    ensures a <= 0 ==> (q - 1) * b < a <= q * b <= 0
  {
    if a >= 0 then
      DivBounds(a, b);
      a / b
    else
      var m := (-a) / b;
      DivBounds(-a, b);
      assert (-m - 1) * b == -((m + 1) * b) && (-m) * b == -(m * b);
      -m
  }

  /** Two numbers that differ by a multiple of 2^32 wrap to the same `Int`. */
  lemma WrapCongruent(x: int, y: int)
    requires (x - y) % TwoTo32 == 0
    ensures Wrap32(x) == Wrap32(y)
  {
    var k := (x - y) / TwoTo32;
    assert x - IntMin == (y - IntMin) + k * TwoTo32;
  }

  /** A value above `Int.MAX_VALUE` but below 2^32 wraps round to a negative one. */
  lemma WrapOnceAboveMax(x: int)
    requires IntMax < x < TwoTo32
    ensures Wrap32(x) == x - TwoTo32 && Wrap32(x) < 0
  {
    var y := x - IntMin - TwoTo32;
    assert 0 <= y < TwoTo32 && x - IntMin == TwoTo32 + y;
  }

  /** Wrapping an intermediate product does not change the wrapped final product. */
  lemma MulWrapLeft(a: int, b: int)
    ensures Mul32(Wrap32(a), b) == Wrap32(a * b)
  {
    var w := Wrap32(a);
    var k := (w - a) / TwoTo32;
    assert w == a + k * TwoTo32;
    assert w * b == a * b + (k * b) * TwoTo32;
    assert (w * b - a * b) % TwoTo32 == 0;
    WrapCongruent(w * b, a * b);
  }
}
