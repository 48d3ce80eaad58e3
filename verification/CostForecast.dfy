/** Splitting a trip's cost between the stem and the drops, and the thirteen-week cash forecast. */
module CostForecast {
  import opened Sql
  import opened Rounding

  /** A whole number of units of the last place. */
  predicate OnGrid(x: real) { Times(x, CURRENCY) == Times(x, CURRENCY).Floor as real }

  // ---------------------------------------------------------------------------
  // Route costs.
  // ---------------------------------------------------------------------------

  datatype RouteCost = RouteCost(fixedStem: real, variableDrop: real, distance: real)

  /** The share of the pool that falls to some of the distance, unrounded. */
  function ShareOf(pool: real, part: real, distance: real): real
    requires distance != 0.0
  {
    Times(part, Over(pool, distance))
  }

  /** calculate_segregated_route_cost; None stands for the ValueErrors. */
  function SegregatedRouteCost(stem: real, drop: real, back: real, pool: real): Option<RouteCost> {
    if stem <= 0.0 || back <= 0.0 || drop < 0.0 || pool <= 0.0 then None
    else
      var distance := stem + drop + back;
      Some(RouteCost(RoundCurrency(ShareOf(pool, stem + back, distance)),
                     RoundCurrency(ShareOf(pool, drop, distance)), distance))
  }

  /** Rounding two parts of a whole number keeps their sum unless both are ties and the sum is odd. */
  lemma RoundedPartsSum(x: real, y: real, n: int)
    requires x + y == n as real
    ensures HalfEven(x) + HalfEven(y) == n <==> !(IsTie(x) && n % 2 == 1)
    ensures n - 1 <= HalfEven(x) + HalfEven(y) <= n + 1
  {
    var k := x.Floor;
    var d := x - k as real;
    if d == 0.0 {
      assert y.Floor == n - k;
    } else {
      assert y.Floor == n - k - 1;
      assert y - y.Floor as real == 1.0 - d;
    }
  }

  lemma SharesSum(pool: real, a: real, b: real, distance: real)
    requires distance > 0.0 && a + b == distance
    ensures ShareOf(pool, a, distance) + ShareOf(pool, b, distance) == pool
  {
    var rate := Over(pool, distance);
    assert Times(a, rate) + Times(b, rate) == Times(distance, rate);
    OverTimes(pool, distance);
    assert Times(distance, rate) == Times(rate, distance);
  }

  /** Each rounded cost is its distance's share of the pool to within half a unit. */
  lemma CostsAreShares(stem: real, drop: real, back: real, pool: real)
    requires SegregatedRouteCost(stem, drop, back, pool).Some?
    ensures var r := SegregatedRouteCost(stem, drop, back, pool).value;
            && r.distance == stem + drop + back
            && -0.5 <= Times(r.fixedStem - ShareOf(pool, stem + back, r.distance), CURRENCY) <= 0.5
            && -0.5 <= Times(r.variableDrop - ShareOf(pool, drop, r.distance), CURRENCY) <= 0.5
            && Times(ShareOf(pool, drop, r.distance), r.distance) == Times(drop, pool)
  {
    var distance := stem + drop + back;
    QuantizeIsNear(ShareOf(pool, stem + back, distance), CURRENCY);
    QuantizeIsNear(ShareOf(pool, drop, distance), CURRENCY);
    OverTimes(pool, distance);
    Regroup(drop, Over(pool, distance), distance);
  }

  /** A trip is refused exactly when a leg to or from the depot is not positive, the drops have a negative distance, or
      there is nothing to divide. */
  lemma RefusedExactly(stem: real, drop: real, back: real, pool: real)
    ensures SegregatedRouteCost(stem, drop, back, pool).None?
            <==> stem <= 0.0 || drop < 0.0 || back <= 0.0 || pool <= 0.0
  {
  }

  lemma Regroup(a: real, b: real, c: real)
    ensures Times(Times(a, b), c) == Times(a, Times(b, c))
  {
  }

  lemma TimesSum(x: real, y: real, s: real)
    ensures Times(x + y, s) == Times(x, s) + Times(y, s)
  {
  }

  /** For a pool of whole units the two rounded costs add up to it exactly when the split is no tie or the
      pool is even; they are never more than one unit off. */
  lemma CostsAddUpUnlessTied(stem: real, drop: real, back: real, units: int)
    requires stem > 0.0 && drop >= 0.0 && back > 0.0 && units > 0
    ensures var pool := Over(units as real, CURRENCY);
            var r := SegregatedRouteCost(stem, drop, back, pool);
            && r.Some?
            && (r.value.fixedStem + r.value.variableDrop == pool
                <==> !(IsTie(Times(ShareOf(pool, stem + back, stem + drop + back), CURRENCY)) && units % 2 == 1))
            && -1.0 <= Times(r.value.fixedStem + r.value.variableDrop - pool, CURRENCY) <= 1.0
  {
    var pool := Over(units as real, CURRENCY);
    var distance := stem + drop + back;
    var a, b := ShareOf(pool, stem + back, distance), ShareOf(pool, drop, distance);
    SharesSum(pool, stem + back, drop, distance);
    TimesSum(a, b, CURRENCY);
    OverTimes(units as real, CURRENCY);
    RoundedPartsSum(Times(a, CURRENCY), Times(b, CURRENCY), units);
    OverTimes(HalfEven(Times(a, CURRENCY)) as real, CURRENCY);
    OverTimes(HalfEven(Times(b, CURRENCY)) as real, CURRENCY);
  }

  /** The smallest case: half of one unit each way is rounded away twice. */
  lemma OneUnitIsLost()
    ensures SegregatedRouteCost(0.5, 1.0, 0.5, Over(1.0, CURRENCY)) == Some(RouteCost(0.0, 0.0, 2.0))
  {
    var share := ShareOf(Over(1.0, CURRENCY), 1.0, 2.0);
    assert Times(share, CURRENCY) == 0.5;
    assert HalfEven(0.5) == 0;
    assert Over(0.0, CURRENCY) == 0.0;
  }

  // ---------------------------------------------------------------------------
  // Thirteen weeks of cash.
  // ---------------------------------------------------------------------------

  datatype Key = ResolvedCashReceipts | ForcedSupplierPayments | OperationalCostPools

  datatype WeekInput = WeekInput(receipts: Option<real>, payments: Option<real>, costs: Option<real>)

  datatype Week = Week(number: nat, endingCash: real, isOverdraft: bool)

  datatype Forecast =
    | WrongLength(count: nat)
    | Incomplete(week: nat, missing: seq<Key>)
    | Complete(weeks: seq<Week>, firstOverdraft: Option<nat>)

  const HORIZON := 13

  function Missing(w: WeekInput): (keys: seq<Key>) {
    (if w.receipts.None? then [ResolvedCashReceipts] else [])
    + (if w.payments.None? then [ForcedSupplierPayments] else [])
    + (if w.costs.None? then [OperationalCostPools] else [])
  }

  predicate IsResolved(w: WeekInput) { w.receipts.Some? && w.payments.Some? && w.costs.Some? }

  lemma NothingMissing(w: WeekInput)
    ensures Missing(w) == [] <==> IsResolved(w)
  {
  }

  function Flow(w: WeekInput): real
    requires IsResolved(w)
  {
    w.receipts.value - w.payments.value - w.costs.value
  }

  ghost predicate AllResolved(inputs: seq<WeekInput>) { forall i :: 0 <= i < |inputs| ==> IsResolved(inputs[i]) }

  /** The cash at the end of week n, rounded every week. */
  function Ending(opening: real, inputs: seq<WeekInput>, n: nat): real
    requires n <= |inputs| && AllResolved(inputs)
  {
    if n == 0 then opening else RoundCurrency(Ending(opening, inputs, n - 1) + Flow(inputs[n - 1]))
  }

  /** The same without any rounding. */
  function Exact(opening: real, inputs: seq<WeekInput>, n: nat): real
    requires n <= |inputs| && AllResolved(inputs)
  {
    if n == 0 then opening else Exact(opening, inputs, n - 1) + Flow(inputs[n - 1])
  }

  /** build_13_week_cash_forecast */
  method BuildForecast(opening: real, inputs: seq<WeekInput>) returns (f: Forecast)
    ensures |inputs| != HORIZON ==> f == WrongLength(|inputs|)
    ensures |inputs| == HORIZON && !AllResolved(inputs) ==>
              && f.Incomplete? && 1 <= f.week <= HORIZON && f.missing == Missing(inputs[f.week - 1]) && f.missing != []
              && forall i :: 0 <= i < f.week - 1 ==> IsResolved(inputs[i])
    ensures |inputs| == HORIZON && AllResolved(inputs) ==>
              && f.Complete? && |f.weeks| == HORIZON
              && (forall i :: 0 <= i < HORIZON ==>
                    var cash := Ending(opening, inputs, i + 1); f.weeks[i] == Week(i + 1, cash, cash < 0.0))
              && (f.firstOverdraft.None? ==> forall n :: 1 <= n <= HORIZON ==> Ending(opening, inputs, n) >= 0.0)
              && (f.firstOverdraft.Some? ==>
                    && 1 <= f.firstOverdraft.value <= HORIZON && Ending(opening, inputs, f.firstOverdraft.value) < 0.0
                    && forall n :: 1 <= n < f.firstOverdraft.value ==> Ending(opening, inputs, n) >= 0.0)
  {
    if |inputs| != HORIZON {
      return WrongLength(|inputs|);
    }
    for i := 0 to HORIZON
      invariant forall k :: 0 <= k < i ==> IsResolved(inputs[k])
    {
      NothingMissing(inputs[i]);
      if Missing(inputs[i]) != [] {
        return Incomplete(i + 1, Missing(inputs[i]));
      }
    }
    var weeks: seq<Week> := [];
    var cash, first: Option<nat> := opening, None;
    for i := 0 to HORIZON
      invariant |weeks| == i && cash == Ending(opening, inputs, i)
      invariant forall k :: 0 <= k < i ==>
          var c := Ending(opening, inputs, k + 1); weeks[k] == Week(k + 1, c, c < 0.0)
      invariant first.None? ==> forall n :: 1 <= n <= i ==> Ending(opening, inputs, n) >= 0.0
      invariant first.Some? ==> 1 <= first.value <= i && Ending(opening, inputs, first.value) < 0.0
      invariant first.Some? ==> forall n :: 1 <= n < first.value ==> Ending(opening, inputs, n) >= 0.0
    {
      var w := inputs[i];
      cash := RoundCurrency(cash + w.receipts.value - w.payments.value - w.costs.value);
      assert cash == Ending(opening, inputs, i + 1);
      weeks := weeks + [Week(i + 1, cash, cash < 0.0)];
      if cash < 0.0 && first.None? {
        first := Some(i + 1);
      }
    }
    return Complete(weeks, first);
  }

  /** Weekly rounding adds up to at most half a unit a week. */
  lemma {:induction false} ForecastDrift(opening: real, inputs: seq<WeekInput>, n: nat)
    requires n <= |inputs| && AllResolved(inputs)
    ensures -0.5 * n as real
            <= Times(Ending(opening, inputs, n) - Exact(opening, inputs, n), CURRENCY) <= 0.5 * n as real
  {
    if n > 0 {
      ForecastDrift(opening, inputs, n - 1);
      QuantizeIsNear(Ending(opening, inputs, n - 1) + Flow(inputs[n - 1]), CURRENCY);
    }
  }

  datatype Totals = Totals(receipts: real, payments: real, costs: real)

  /** What the first n weeks bring and take, each kind for itself. */
  function Sums(inputs: seq<WeekInput>, n: nat): Totals
    requires n <= |inputs| && AllResolved(inputs)
  {
    if n == 0 then Totals(0.0, 0.0, 0.0)
    else
      var t, w := Sums(inputs, n - 1), inputs[n - 1];
      Totals(t.receipts + w.receipts.value, t.payments + w.payments.value, t.costs + w.costs.value)
  }

  lemma {:induction false} ExactAddsUp(opening: real, inputs: seq<WeekInput>, n: nat)
    requires n <= |inputs| && AllResolved(inputs)
    ensures var t := Sums(inputs, n); Exact(opening, inputs, n) == opening + t.receipts - t.payments - t.costs
  {
    if n > 0 { ExactAddsUp(opening, inputs, n - 1); }
  }

  /** The cash after n weeks is the opening cash and all receipts less all payments and costs, to within half a unit a
      week. */
  lemma ForecastAddsUp(opening: real, inputs: seq<WeekInput>, n: nat)
    requires n <= |inputs| && AllResolved(inputs)
    ensures var t := Sums(inputs, n);
            -0.5 * n as real
            <= Times(Ending(opening, inputs, n) - (opening + t.receipts - t.payments - t.costs), CURRENCY)
            <= 0.5 * n as real
  {
    ExactAddsUp(opening, inputs, n);
    ForecastDrift(opening, inputs, n);
  }

  /** At least the receipts, and at most the payments and the costs, week by week. */
  ghost predicate NoWorse(inputs: seq<WeekInput>, other: seq<WeekInput>)
    requires AllResolved(inputs) && AllResolved(other)
  {
    && |inputs| == |other|
    && forall i :: 0 <= i < |inputs| ==>
         && inputs[i].receipts.value >= other[i].receipts.value
         && inputs[i].payments.value <= other[i].payments.value && inputs[i].costs.value <= other[i].costs.value
  }

  /** A forecast that is no worse in any week ends no week with less, rounding included. */
  lemma {:induction false} ForecastIsMonotone(opening: real, inputs: seq<WeekInput>, other: seq<WeekInput>, n: nat)
    requires n <= |inputs| && AllResolved(inputs) && AllResolved(other) && NoWorse(inputs, other)
    ensures Ending(opening, inputs, n) >= Ending(opening, other, n)
  {
    if n > 0 {
      ForecastIsMonotone(opening, inputs, other, n - 1);
      QuantizeMonotone(Ending(opening, other, n - 1) + Flow(other[n - 1]),
                       Ending(opening, inputs, n - 1) + Flow(inputs[n - 1]), CURRENCY);
    }
  }

  predicate InUnits(w: WeekInput)
    requires IsResolved(w)
  {
    OnGrid(w.receipts.value) && OnGrid(w.payments.value) && OnGrid(w.costs.value)
  }

  lemma GridRounding(x: real)
    requires OnGrid(x)
    ensures RoundCurrency(x) == x
  {
    OverTimes(x, CURRENCY);
    HalfEvenOfInteger(Times(x, CURRENCY).Floor);
  }

  lemma GridSum(x: real, y: real)
    requires OnGrid(x) && OnGrid(y)
    ensures OnGrid(x + y) && OnGrid(x - y)
  {
    var m, n := Times(x, CURRENCY).Floor, Times(y, CURRENCY).Floor;
    TimesSum(x, y, CURRENCY);
    TimesDifference(x, y, CURRENCY);
    assert Times(x + y, CURRENCY) == (m + n) as real;
    assert Times(x - y, CURRENCY) == (m - n) as real;
  }

  /** With figures of four decimals nothing drifts, so the first overdraft reported is the first week in
      which the money really runs out. */
  lemma {:induction false} FourDecimalsDoNotDrift(opening: real, inputs: seq<WeekInput>, n: nat)
    requires n <= |inputs| && AllResolved(inputs) && OnGrid(opening)
    requires forall i :: 0 <= i < |inputs| ==> InUnits(inputs[i])
    ensures Ending(opening, inputs, n) == Exact(opening, inputs, n) && OnGrid(Exact(opening, inputs, n))
  {
    if n > 0 {
      FourDecimalsDoNotDrift(opening, inputs, n - 1);
      var w := inputs[n - 1];
      GridSum(w.receipts.value, w.payments.value);
      GridSum(w.receipts.value - w.payments.value, w.costs.value);
      GridSum(Exact(opening, inputs, n - 1), Flow(w));
      GridRounding(Exact(opening, inputs, n));
    }
  }
}
