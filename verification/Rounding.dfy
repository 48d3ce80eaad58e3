/** Decimal.quantize with ROUND_HALF_EVEN (roundTiesToEven, section 4.3.1 of IEEE 754-2008), on exact
    reals counted in units of the last place. */
module Rounding {

  /** The nearest integer, and the even one of two equally near. */
  function HalfEven(x: real): int {
    var f := x.Floor;
    var d := x - f as real;
    if d < 0.5 then f else if d > 0.5 then f + 1 else if f % 2 == 0 then f else f + 1
  }

  predicate IsTie(x: real) { x - x.Floor as real == 0.5 }

  lemma HalfEvenIsNear(x: real)
    ensures -0.5 <= HalfEven(x) as real - x <= 0.5
    ensures IsTie(x) ==> HalfEven(x) % 2 == 0
    ensures !IsTie(x) ==> -0.5 < HalfEven(x) as real - x < 0.5
  {
  }

  lemma HalfEvenOfInteger(n: int)
    ensures HalfEven(n as real) == n
  {
  }

  lemma HalfEvenMonotone(x: real, y: real)
    requires x <= y
    ensures HalfEven(x) <= HalfEven(y)
  {
    assert x.Floor <= y.Floor;
  }

  // Named products and quotients, so that equal operands are seen to give equal results.
  function Times(a: real, b: real): real { a * b }

  function Over(a: real, b: real): real
    requires b != 0.0
  {
    a / b
  }

  /** x rounded to a whole number of 1/scale. */
  function Quantize(x: real, scale: real): real
    requires scale > 0.0
  {
    Over(HalfEven(Times(x, scale)) as real, scale)
  }

  const CURRENCY := 10000.0
  const RATE := 1000000.0

  function RoundCurrency(x: real): real { Quantize(x, CURRENCY) }
  function RoundRate(x: real): real { Quantize(x, RATE) }

  lemma OverTimes(a: real, s: real)
    requires s > 0.0
    ensures Times(Over(a, s), s) == a && Over(Times(a, s), s) == a
  {
  }

  lemma OverMonotone(a: real, b: real, s: real)
    requires a <= b && s > 0.0
    ensures Over(a, s) <= Over(b, s) && Times(a, s) <= Times(b, s)
  {
    assert (b - a) / s >= 0.0;
    assert (b - a) * s >= 0.0;
  }

  lemma TimesDifference(a: real, b: real, s: real)
    ensures Times(a - b, s) == Times(a, s) - Times(b, s)
  {
  }

  /** Rounding moves a value by at most half a unit of the last place. */
  lemma QuantizeIsNear(x: real, scale: real)
    requires scale > 0.0
    ensures -0.5 <= Times(Quantize(x, scale) - x, scale) <= 0.5
  {
    HalfEvenIsNear(Times(x, scale));
    OverTimes(HalfEven(Times(x, scale)) as real, scale);
    TimesDifference(Quantize(x, scale), x, scale);
  }

  /** r is a whole number of 1/scale, no further from x than half of one, and an even number where x lies halfway. */
  predicate IsRounded(r: real, x: real, scale: real) {
    && r * scale == (r * scale).Floor as real && -0.5 <= (r - x) * scale <= 0.5
    && (IsTie(x * scale) ==> (r * scale).Floor % 2 == 0)
  }

  lemma QuantizeIsRounded(x: real, scale: real)
    requires scale > 0.0
    ensures IsRounded(Quantize(x, scale), x, scale)
  {
    QuantizeIsNear(x, scale);
    HalfEvenIsNear(Times(x, scale));
    OverTimes(HalfEven(Times(x, scale)) as real, scale);
  }

  /** Nothing else is: rounding is what this says. */
  lemma RoundedIsQuantized(r: real, x: real, scale: real)
    requires scale > 0.0 && IsRounded(r, x, scale)
    ensures r == Quantize(x, scale)
  {
    var n, m := (r * scale).Floor, HalfEven(Times(x, scale));
    HalfEvenIsNear(Times(x, scale));
    assert (r - x) * scale == r * scale - x * scale == n as real - Times(x, scale);
    assert n == m;
    OverTimes(r, scale);
  }

  lemma QuantizeMonotone(x: real, y: real, scale: real)
    requires scale > 0.0 && x <= y
    ensures Quantize(x, scale) <= Quantize(y, scale)
  {
    OverMonotone(x, y, scale);
    HalfEvenMonotone(Times(x, scale), Times(y, scale));
    OverMonotone(HalfEven(Times(x, scale)) as real, HalfEven(Times(y, scale)) as real, scale);
  }

  /** A value already on the grid is left alone. */
  lemma QuantizeOfGrid(n: int, scale: real)
    requires scale > 0.0
    ensures Quantize(Over(n as real, scale), scale) == Over(n as real, scale)
  {
    OverTimes(n as real, scale);
    HalfEvenOfInteger(n);
  }
}
