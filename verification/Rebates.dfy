/** Expected rebates from flat rates, fixed amounts and spend bands, and the distance to the next band. */
module Rebates {
  import opened Sql
  import opened Rounding

  datatype RebateType = FixedPercentage | Tiered | Volume | Growth | FixedAmount | Retrospective

  datatype Band = Band(threshold: real, rate: real)

  datatype Agreement = Agreement(kind: RebateType, flatRate: Option<real>, bands: seq<Band>, fixedAmount: Option<real>)

  /** The bands whose threshold the spend has reached. */
  function Reached(bands: seq<Band>, spend: real): (r: seq<Band>)
    ensures forall b :: b in r <==> b in bands && spend >= b.threshold
  {
    if bands == [] then []
    else
      var rest := Reached(bands[1..], spend);
      if spend >= bands[0].threshold then [bands[0]] + rest else rest
  }

  /** max(..., key=threshold): the first of the bands with the greatest threshold. */
  function Highest(bands: seq<Band>): (h: Band)
    requires bands != []
    ensures h in bands && forall b :: b in bands ==> b.threshold <= h.threshold
  {
    if |bands| == 1 then bands[0]
    else
      var h := Highest(bands[1..]);
      if bands[0].threshold >= h.threshold then bands[0] else h
  }

  /** The bands still ahead. */
  function Ahead(bands: seq<Band>, spend: real): (r: seq<Band>)
    ensures forall b :: b in r <==> b in bands && b.threshold > spend
  {
    if bands == [] then []
    else
      var rest := Ahead(bands[1..], spend);
      if bands[0].threshold > spend then [bands[0]] + rest else rest
  }

  /** sorted(..., key=threshold)[0] */
  function Nearest(bands: seq<Band>): (n: Band)
    requires bands != []
    ensures n in bands && forall b :: b in bands ==> n.threshold <= b.threshold
  {
    if |bands| == 1 then bands[0]
    else
      var n := Nearest(bands[1..]);
      if bands[0].threshold <= n.threshold then bands[0] else n
  }

  /** calculate_expected_rebate; None stands for the ValueError of an incomplete agreement. */
  function ExpectedRebate(a: Agreement, spend: real): Option<real> {
    match a.kind
    case FixedAmount => if a.fixedAmount.None? then None else Some(RoundCurrency(a.fixedAmount.value))
    case Tiered => BandRebate(a.bands, spend)
    case Retrospective => BandRebate(a.bands, spend)
    case _ => if a.flatRate.None? then None else Some(RoundCurrency(Times(spend, a.flatRate.value)))
  }

  function BandRebate(bands: seq<Band>, spend: real): Option<real> {
    if bands == [] then None
    else if Reached(bands, spend) == [] then Some(0.0)
    else Some(RoundCurrency(Times(spend, Highest(Reached(bands, spend)).rate)))
  }

  /** calculate_progress_to_next_tier; None stands for the ValueError. */
  function Progress(bands: seq<Band>, spend: real): Option<(Option<real>, Option<real>)> {
    if bands == [] then None
    else if Ahead(bands, spend) == [] then Some((None, None))
    else
      var next := Nearest(Ahead(bands, spend)).threshold;
      Some((Some(next), Some(RoundCurrency(next - spend))))
  }

  ghost predicate DistinctThresholds(bands: seq<Band>) {
    forall a, b :: a in bands && b in bands && a.threshold == b.threshold ==> a == b
  }

  /** Rates are not negative and do not fall as the threshold rises. */
  ghost predicate RewardsSpend(bands: seq<Band>) {
    && (forall b :: b in bands ==> b.rate >= 0.0)
    && (forall a, b :: a in bands && b in bands && a.threshold <= b.threshold ==> a.rate <= b.rate)
  }

  /** The band a spend falls in: the reached band that no reached band exceeds. */
  ghost predicate Governing(bands: seq<Band>, spend: real, b: Band) {
    b in bands && b.threshold <= spend && forall c :: c in bands && c.threshold <= spend ==> c.threshold <= b.threshold
  }

  lemma HighestReachedGoverns(bands: seq<Band>, spend: real)
    requires Reached(bands, spend) != []
    ensures Governing(bands, spend, Highest(Reached(bands, spend)))
  {
  }

  /** The governing band's rate is what is paid; where no band governs nothing is. */
  lemma GoverningBandPays(bands: seq<Band>, spend: real, b: Band)
    requires bands != [] && DistinctThresholds(bands)
    ensures Governing(bands, spend, b) ==> BandRebate(bands, spend) == Some(RoundCurrency(Times(spend, b.rate)))
    ensures (forall c :: c in bands ==> spend < c.threshold) ==> BandRebate(bands, spend) == Some(0.0)
  {
    if Governing(bands, spend, b) {
      assert b in Reached(bands, spend);
      assert Highest(Reached(bands, spend)).threshold == b.threshold;
    }
    if Reached(bands, spend) != [] { assert Reached(bands, spend)[0] in Reached(bands, spend); }
  }

  /** What an agreement pays before rounding: a part of the spend, or an amount whatever the spend. */
  ghost predicate Pays(a: Agreement, spend: real, due: real) {
    match a.kind
    case FixedAmount => a.fixedAmount == Some(due)
    case Tiered => PaysByBand(a.bands, spend, due)
    case Retrospective => PaysByBand(a.bands, spend, due)
    case _ => a.flatRate.Some? && due == spend * a.flatRate.value
  }

  /** Nothing below every band, and otherwise the rate of the band the spend falls in, on all of the spend. */
  ghost predicate PaysByBand(bands: seq<Band>, spend: real, due: real) {
    || (bands != [] && due == 0.0 && forall b :: b in bands ==> spend < b.threshold)
    || exists b :: Governing(bands, spend, b) && due == spend * b.rate
  }

  /** An agreement is complete when it has what its kind is worked out from. */
  predicate IsComplete(a: Agreement) {
    match a.kind
    case FixedAmount => a.fixedAmount.Some?
    case Tiered => a.bands != []
    case Retrospective => a.bands != []
    case _ => a.flatRate.Some?
  }

  lemma BandRebateMeans(bands: seq<Band>, spend: real)
    requires bands != []
    ensures exists due :: PaysByBand(bands, spend, due) && IsRounded(BandRebate(bands, spend).value, due, CURRENCY)
  {
    if Reached(bands, spend) == [] {
      forall b | b in bands ensures spend < b.threshold { assert b in Reached(bands, spend) <==> spend >= b.threshold; }
      assert PaysByBand(bands, spend, 0.0) && IsRounded(0.0, 0.0, CURRENCY);
    } else {
      var b := Highest(Reached(bands, spend));
      HighestReachedGoverns(bands, spend);
      QuantizeIsRounded(Times(spend, b.rate), CURRENCY);
      assert PaysByBand(bands, spend, Times(spend, b.rate));
    }
  }

  /** For every kind of agreement: there is a rebate exactly when the agreement is complete, and it is what the
      agreement pays, rounded to four decimals. */
  lemma RebateIsWhatIsPaid(a: Agreement, spend: real)
    ensures ExpectedRebate(a, spend).Some? <==> IsComplete(a)
    ensures IsComplete(a) ==>
              exists due :: Pays(a, spend, due) && IsRounded(ExpectedRebate(a, spend).value, due, CURRENCY)
  {
    if IsComplete(a) {
      match a.kind
      case FixedAmount =>
        QuantizeIsRounded(a.fixedAmount.value, CURRENCY);
        assert Pays(a, spend, a.fixedAmount.value);
      case Tiered => BandRebateMeans(a.bands, spend);
      case Retrospective => BandRebateMeans(a.bands, spend);
      case _ =>
        QuantizeIsRounded(Times(spend, a.flatRate.value), CURRENCY);
        assert Pays(a, spend, Times(spend, a.flatRate.value));
    }
  }

  /** With different thresholds there is only one amount to pay, so this fixes the rebate. */
  lemma OneAmountIsDue(a: Agreement, spend: real, x: real, y: real)
    requires DistinctThresholds(a.bands) && Pays(a, spend, x) && Pays(a, spend, y)
    ensures x == y
  {
  }

  /** The order in which an agreement lists its bands does not matter. */
  lemma RebateIgnoresBandOrder(xs: seq<Band>, ys: seq<Band>, spend: real)
    requires (forall b :: b in xs <==> b in ys) && DistinctThresholds(xs)
    ensures BandRebate(xs, spend) == BandRebate(ys, spend)
  {
    SameBandsReached(xs, ys, spend);
    if Reached(xs, spend) != [] {
      HighestReachedGoverns(xs, spend);
      HighestReachedGoverns(ys, spend);
    }
  }

  lemma SameBandsReached(xs: seq<Band>, ys: seq<Band>, spend: real)
    requires forall b :: b in xs <==> b in ys
    ensures (xs == [] <==> ys == []) && (Reached(xs, spend) == [] <==> Reached(ys, spend) == [])
  {
    if xs != [] { assert xs[0] in ys; }
    if ys != [] { assert ys[0] in xs; }
    if Reached(xs, spend) != [] { assert Reached(xs, spend)[0] in Reached(ys, spend); }
    if Reached(ys, spend) != [] { assert Reached(ys, spend)[0] in Reached(xs, spend); }
  }

  lemma ProductMonotone(s: real, t: real, a: real, b: real)
    requires 0.0 <= s <= t && 0.0 <= a <= b
    ensures 0.0 <= Times(s, a) <= Times(t, b)
  {
    assert s * a <= s * b <= t * b;
  }

  /** No band is reached by net credits large enough to cost the buyer a rebate. */
  ghost predicate ForgivesCredits(bands: seq<Band>) {
    forall b :: b in bands && b.threshold < 0.0 ==> RoundCurrency(Times(b.threshold, b.rate)) >= 0.0
  }

  lemma CreditMonotone(s: real, t: real, a: real)
    requires s <= t <= 0.0 <= a
    ensures Times(s, a) <= Times(t, a) <= 0.0
  {
    assert (t - s) * a >= 0.0 && -t * a >= 0.0;
  }

  lemma CreditsEarnNothing(bands: seq<Band>, s: real)
    requires bands != [] && RewardsSpend(bands) && ForgivesCredits(bands) && s < 0.0
    ensures BandRebate(bands, s) == Some(0.0)
  {
    ZeroRoundsToZero();
    if Reached(bands, s) != [] {
      var b := Highest(Reached(bands, s));
      HighestReachedGoverns(bands, s);
      CreditMonotone(b.threshold, s, b.rate);
      QuantizeMonotone(Times(b.threshold, b.rate), Times(s, b.rate), CURRENCY);
      QuantizeMonotone(Times(s, b.rate), 0.0, CURRENCY);
    }
  }

  lemma SpendEarns(bands: seq<Band>, s: real)
    requires bands != [] && RewardsSpend(bands) && 0.0 <= s
    ensures BandRebate(bands, s).value >= 0.0
  {
    ZeroRoundsToZero();
    if Reached(bands, s) != [] {
      var b := Highest(Reached(bands, s));
      HighestReachedGoverns(bands, s);
      ProductMonotone(0.0, s, 0.0, b.rate);
      QuantizeMonotone(0.0, Times(s, b.rate), CURRENCY);
    }
  }

  /** Buying more never earns less, net credits included. */
  lemma RebateGrowsWithSpend(bands: seq<Band>, s: real, t: real)
    requires bands != [] && RewardsSpend(bands) && s <= t && (0.0 <= s || ForgivesCredits(bands))
    ensures BandRebate(bands, s).value <= BandRebate(bands, t).value
  {
    if s < 0.0 {
      CreditsEarnNothing(bands, s);
      if t < 0.0 { CreditsEarnNothing(bands, t); } else { SpendEarns(bands, t); }
    } else if Reached(bands, s) == [] {
      SpendEarns(bands, t);
    } else {
      assert Reached(bands, s)[0] in Reached(bands, t);
      HighestReachedGoverns(bands, s);
      HighestReachedGoverns(bands, t);
      var a, b := Highest(Reached(bands, s)), Highest(Reached(bands, t));
      ProductMonotone(s, t, a.rate, b.rate);
      QuantizeMonotone(Times(s, a.rate), Times(t, b.rate), CURRENCY);
    }
  }

  ghost predicate GrowsWithSpend(bands: seq<Band>)
    requires bands != []
  {
    forall s, t :: s <= t ==> BandRebate(bands, s).value <= BandRebate(bands, t).value
  }

  /** That is so of all amounts exactly when no band with a negative threshold pays at its threshold. */
  lemma RebateGrowsWithSpendExactly(bands: seq<Band>)
    requires bands != [] && RewardsSpend(bands)
    ensures GrowsWithSpend(bands) <==> ForgivesCredits(bands)
  {
    if ForgivesCredits(bands) {
      forall s, t | s <= t ensures BandRebate(bands, s).value <= BandRebate(bands, t).value {
        RebateGrowsWithSpend(bands, s, t);
      }
    } else {
      var b :| b in bands && b.threshold < 0.0 && RoundCurrency(Times(b.threshold, b.rate)) < 0.0;
      ThresholdPays(bands, b);
      var s := BelowAll(bands, b.threshold);
      NoneReached(bands, s);
      assert s <= b.threshold && BandRebate(bands, s) == Some(0.0);
    }
  }

  lemma ThresholdPays(bands: seq<Band>, b: Band)
    requires RewardsSpend(bands) && b in bands
    ensures BandRebate(bands, b.threshold) == Some(RoundCurrency(Times(b.threshold, b.rate)))
  {
    assert b in Reached(bands, b.threshold);
    HighestReachedGoverns(bands, b.threshold);
    var h := Highest(Reached(bands, b.threshold));
    assert h.rate == b.rate;
  }

  /** An amount below every threshold, and below t. */
  lemma {:induction false} BelowAll(bands: seq<Band>, t: real) returns (s: real)
    ensures s <= t && forall c :: c in bands ==> s < c.threshold
  {
    s := t;
    if bands != [] {
      s := BelowAll(bands[1..], t);
      if s >= bands[0].threshold { s := bands[0].threshold - 1.0; }
      assert bands == [bands[0]] + bands[1..];
    }
  }

  lemma {:induction false} NoneReached(bands: seq<Band>, s: real)
    requires forall c :: c in bands ==> s < c.threshold
    ensures Reached(bands, s) == []
  {
    if bands != [] { NoneReached(bands[1..], s); }
  }

  lemma ZeroRoundsToZero()
    ensures RoundCurrency(0.0) == 0.0
  {
    QuantizeOfGrid(0, CURRENCY);
  }

  /** The remaining amount is the way to the nearest threshold not yet reached, rounded; there is none exactly when
      every threshold is reached. */
  lemma ProgressMeans(bands: seq<Band>, spend: real)
    requires bands != []
    ensures Progress(bands, spend).Some?
    ensures var (next, remaining) := Progress(bands, spend).value;
            && (next.None? <==> forall b :: b in bands ==> b.threshold <= spend)
            && (remaining.None? <==> next.None?)
            && (next.Some? ==>
                  && spend < next.value && IsRounded(remaining.value, next.value - spend, CURRENCY)
                  && (exists b :: b in bands && b.threshold == next.value)
                  && forall b :: b in bands && spend < b.threshold ==> next.value <= b.threshold)
  {
    if Ahead(bands, spend) == [] {
      forall b | b in bands ensures b.threshold <= spend { assert b in Ahead(bands, spend) <==> b.threshold > spend; }
    } else {
      var n := Nearest(Ahead(bands, spend));
      QuantizeIsRounded(n.threshold - spend, CURRENCY);
      assert n in Ahead(bands, spend);
    }
  }

  /** One band governs from the present spend up to, but not at, the threshold Progress reports; with
      no threshold to report it governs for good. */
  lemma BandLastsUntilNextThreshold(bands: seq<Band>, spend: real, t: real, b: Band)
    requires bands != [] && DistinctThresholds(bands) && spend <= t
    ensures var next := Progress(bands, spend).value.0;
            && (next.None? || t < next.value ==> (Governing(bands, spend, b) <==> Governing(bands, t, b)))
            && (next.Some? && t >= next.value ==> !(Governing(bands, spend, b) && Governing(bands, t, b)))
            && (next == Some(t) ==> exists c :: Governing(bands, t, c) && c.threshold == t)
  {
    if Ahead(bands, spend) != [] {
      var n := Nearest(Ahead(bands, spend));
      if t < n.threshold {
        forall c | c in bands ensures c.threshold <= t <==> c.threshold <= spend {
          assert c.threshold > spend ==> c in Ahead(bands, spend);
        }
      } else if n.threshold == t {
        assert Governing(bands, t, n);
      }
    } else {
      forall c | c in bands ensures c.threshold <= spend { assert c.threshold > spend ==> c in Ahead(bands, spend); }
    }
  }
}
