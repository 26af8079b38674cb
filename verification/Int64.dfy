/** The machine arithmetic the Go sources rely on: two's-complement int64 results and
    division that truncates toward zero. */
module Int64 {

  const TWO_63: int := 0x8000_0000_0000_0000
  const TWO_64: int := 0x1_0000_0000_0000_0000

  /** The value an int64 variable holds after an operation whose exact result is `x`. */
  function Wrap(x: int): (w: int)
    ensures -TWO_63 <= w < TWO_63
  {
    (x + TWO_63) % TWO_64 - TWO_63
  }

  /** Go's integer division by a positive divisor. */
  function Quot(a: int, b: int): int
    requires b > 0
  {
    if a >= 0 then a / b else -((-a) / b)
  }

  function Max(a: int, b: int): int {
    if a < b then b else a
  }

  lemma WrapIsIdentity(x: int)
    requires -TWO_63 <= x < TWO_63
    ensures Wrap(x) == x
  {
  }

  /** Overflow only ever loses value: adding `y` to the exact operand adds at most `y` to
      the wrapped result. */
  lemma WrapGrowsAtMost(x: int, y: int)
    requires y >= 0
    ensures Wrap(x + y) <= Wrap(x) + y
  {
  }

  lemma WrapAtMost(x: int)
    requires x >= -TWO_63
    ensures Wrap(x) <= x
  {
  }

  lemma MulMonotone(a: int, x: int, y: int)
    requires a >= 0 && x <= y
    ensures a * x <= a * y
  {
  }

  lemma QuotMonotone(a: int, b: int, d: int)
    requires d > 0 && a <= b
    ensures Quot(a, d) <= Quot(b, d)
  {
    if 0 <= a {
      DivMonotone(a, b, d);
    } else {
      DivMonotone(0, -a, d);
      if b < 0 {
        DivMonotone(-b, -a, d);
      } else {
        DivMonotone(0, b, d);
      }
    }
  }

  lemma DivMonotone(a: int, b: int, d: int)
    requires d > 0 && a <= b
    ensures a / d <= b / d
  {
    if a / d > b / d {
      assert a / d >= b / d + 1;
      MulMonotone(d, b / d + 1, a / d);
      assert false;
    }
  }
}
