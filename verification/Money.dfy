/**
  Money at two decimal scales with one rounding rule. A rate is a whole number of 10^-10 units, a
  cost a whole number of 10^-6 units, and a configured number is `coeff` times 10^-`scale`.
*/
module Money {
  const RATE_SCALE: nat := 10
  const COST_SCALE: nat := 6

  /** Rate units in one cost unit. */
  const UNIT := 10_000

  function Abs(n: int): nat { if n < 0 then -n else n }

  /** ROUND_HALF_UP: to the nearest multiple of `d`, ties away from zero. */
  function RoundHalfUp(n: int, d: int): int
    requires d > 0
  {
    if n >= 0 then (2 * n + d) / (2 * d) else -((2 * -n + d) / (2 * d))
  }

  /** `p` is as near to `n` as multiples of `d` get, and on a tie the further from zero. */
  predicate Nearest(n: int, d: int, p: int) {
    && 2 * Abs(p - n) <= d
    && (2 * Abs(p - n) == d ==> 0 < n < p || p < n < 0)
  }

  predicate IsHalfUp(n: int, d: int, r: int) { Nearest(n, d, d * r) }

  lemma Multiples(d: int, k: int)
    requires d > 0
    ensures k >= 1 ==> d * k >= d
    ensures k <= -1 ==> d * k <= -d
  {
    if k >= 1 { MultiplesUp(d, k); }
    if k <= -1 { MultiplesUp(d, -k); assert d * k == -(d * -k); }
  }

  lemma {:induction false} MultiplesUp(d: int, k: nat)
    requires d > 0 && k >= 1
    ensures d * k >= d
  {
    if k > 1 { MultiplesUp(d, k - 1); assert d * k == d * (k - 1) + d; }
  }

  lemma Spread(d: int, r: int, s: int)
    ensures d * (r - s) == d * r - d * s
  {
  }

  lemma DivBounds(x: int, y: int)
    requires y > 0
    ensures y * (x / y) <= x < y * (x / y) + y
  {
  }

  lemma RoundsNonNegative(n: int, d: int)
    requires n >= 0 && d > 0
    ensures var r := RoundHalfUp(n, d); r >= 0 && Nearest(n, d, d * r)
  {
    var r := RoundHalfUp(n, d);
    DivBounds(2 * n + d, 2 * d);
    assert 2 * d * r == 2 * (d * r);
  }

  lemma RoundsToNearest(n: int, d: int)
    requires d > 0
    ensures IsHalfUp(n, d, RoundHalfUp(n, d))
  {
    RoundsNonNegative(Abs(n), d);
    if n < 0 {
      var r := RoundHalfUp(-n, d);
      assert RoundHalfUp(n, d) == -r;
      assert d * -r == -(d * r);
    }
  }

  lemma NearestIsOne(n: int, d: int, p: int, q: int)
    requires Nearest(n, d, p) && Nearest(n, d, q)
    ensures -d < p - q < d
  {
  }

  lemma NearestIsMonotone(m: int, n: int, d: int, p: int, q: int)
    requires m <= n && Nearest(m, d, p) && Nearest(n, d, q)
    ensures p - q < d
  {
  }

  /** The rounding is the only value with that meaning. */
  lemma RoundingIsHalfUp(n: int, d: int, r: int)
    requires d > 0
    ensures r == RoundHalfUp(n, d) <==> IsHalfUp(n, d, r)
  {
    RoundsToNearest(n, d);
    hide RoundHalfUp;
    var s := RoundHalfUp(n, d);
    if IsHalfUp(n, d, r) {
      NearestIsOne(n, d, d * r, d * s);
      Spread(d, r, s);
      Multiples(d, r - s);
    }
  }

  lemma RoundingIsMonotone(m: int, n: int, d: int)
    requires d > 0 && m <= n
    ensures RoundHalfUp(m, d) <= RoundHalfUp(n, d)
  {
    hide RoundHalfUp, Nearest;
    var r, s := RoundHalfUp(m, d), RoundHalfUp(n, d);
    RoundsToNearest(m, d);
    RoundsToNearest(n, d);
    NearestIsMonotone(m, n, d, d * r, d * s);
    Spread(d, r, s);
    Multiples(d, r - s);
  }

  lemma RoundingKeepsMultiples(r: int, d: int)
    requires d > 0
    ensures RoundHalfUp(d * r, d) == r
  {
    RoundingIsHalfUp(d * r, d, r);
  }

  function Pow10(k: nat): (p: int)
    ensures p > 0
  {
    if k == 0 then 1 else 10 * Pow10(k - 1)
  }

  /** A number re-expressed at `target` decimal places. */
  function Quantize(coeff: int, scale: nat, target: nat): int {
    if scale <= target then coeff * Pow10(target - scale) else RoundHalfUp(coeff, Pow10(scale - target))
  }

  /**
    Quantizing loses at most half a unit of the target scale, and nothing when the number already
    fits: both sides of the comparison are written at the finer of the two scales.
  */
  lemma QuantizeError(coeff: int, scale: nat, target: nat)
    ensures var q := Quantize(coeff, scale, target);
            if scale <= target then q == coeff * Pow10(target - scale)
            else 2 * Abs(Pow10(scale - target) * q - coeff) <= Pow10(scale - target)
  {
    if scale > target { RoundsToNearest(coeff, Pow10(scale - target)); }
  }

  lemma ProductSign(a: int, b: int)
    requires b > 0
    ensures a >= 0 ==> a * b >= 0
    ensures a <= 0 ==> a * b <= 0
  {
  }

  lemma QuantizeSign(coeff: int, scale: nat, target: nat)
    ensures coeff >= 0 ==> Quantize(coeff, scale, target) >= 0
    ensures coeff <= 0 ==> Quantize(coeff, scale, target) <= 0
  {
    hide RoundHalfUp, Pow10;
    if scale > target {
      var d := Pow10(scale - target);
      RoundingKeepsMultiples(0, d);
      assert d * 0 == 0;
      if coeff >= 0 { RoundingIsMonotone(0, coeff, d); }
      if coeff <= 0 { RoundingIsMonotone(coeff, 0, d); }
    } else {
      ProductSign(coeff, Pow10(target - scale));
    }
  }

  /** The rate scale refines the cost scale: a cost re-read as a rate is the same amount. */
  lemma CostIsExactAsRate(cost: int)
    ensures Quantize(cost, COST_SCALE, RATE_SCALE) == cost * UNIT
    ensures Quantize(cost * UNIT, RATE_SCALE, COST_SCALE) == cost
  {
    assert Pow10(4) == 10 * Pow10(3) == 100 * Pow10(2) == 1000 * Pow10(1) == 10000;
    assert UNIT * cost == cost * UNIT;
    RoundingKeepsMultiples(cost, UNIT);
  }
}
