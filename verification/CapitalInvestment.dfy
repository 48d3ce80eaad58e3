/** Net present value, the internal rate of return by bisection, and the discounted payback period.
    Decimals are exact reals; only the final quantization rounds. */
module CapitalInvestment {
  import opened Sql
  import opened Rounding

  function Pow(x: real, n: nat): real { if n == 0 then 1.0 else x * Pow(x, n - 1) }

  /** The present value of flows discounted by d a year: flows[0] + d * (flows[1] + d * ...). */
  function Value(flows: seq<real>, d: real): real {
    if flows == [] then 0.0 else flows[0] + d * Value(flows[1..], d)
  }

  function Discount(rate: real): real
    requires rate > -1.0
  {
    1.0 / (1.0 + rate)
  }

  function Npv(rate: real, flows: seq<real>): real
    requires rate > -1.0
  {
    Value(flows, Discount(rate))
  }

  lemma DiscountDecreases(r: real, s: real)
    requires -1.0 < r < s
    ensures 0.0 < Discount(s) < Discount(r)
  {
    var a, b := 1.0 + r, 1.0 + s;
    assert (1.0 / a - 1.0 / b) * (a * b) == b - a;
    assert a * b > 0.0;
    assert 1.0 / b > 0.0;
  }

  lemma DiscountIsPositive(r: real)
    requires r > -1.0
    ensures Discount(r) > 0.0
  {
    DiscountDecreases(r, r + 1.0);
  }

  lemma {:induction false} PowInverse(x: real, n: nat)
    requires x > 0.0
    ensures Pow(x, n) > 0.0 && Pow(1.0 / x, n) == 1.0 / Pow(x, n)
  {
    if n > 0 {
      PowInverse(x, n - 1);
      var p := Pow(x, n - 1);
      assert 1.0 / x * (1.0 / p) == 1.0 / (x * p);
    }
  }

  lemma {:induction false} ValueOfAppended(flows: seq<real>, c: real, d: real)
    ensures Value(flows + [c], d) == Value(flows, d) + c * Pow(d, |flows|)
  {
    if flows == [] {
      assert ([] + [c])[1..] == [];
    } else {
      assert (flows + [c])[1..] == flows[1..] + [c];
      ValueOfAppended(flows[1..], c, d);
      var p := Pow(d, |flows| - 1);
      assert d * (c * p) == c * (d * p);
    }
  }

  /** _npv_at_rate */
  method NpvAtRate(rate: real, flows: seq<real>) returns (total: real)
    requires rate > -1.0
    ensures total == Npv(rate, flows)
  {
    total := 0.0;
    for t := 0 to |flows|
      invariant total == Value(flows[..t], Discount(rate))
    {
      PowInverse(1.0 + rate, t);
      ValueOfAppended(flows[..t], flows[t], Discount(rate));
      assert flows[..t + 1] == flows[..t] + [flows[t]];
      var p := Pow(1.0 + rate, t);
      assert flows[t] / p == flows[t] * (1.0 / p);
      total := total + flows[t] / p;
    }
    assert flows[..|flows|] == flows;
  }

  // ---------------------------------------------------------------------------
  // The sign-change gate.
  // ---------------------------------------------------------------------------

  function NonZero(flows: seq<real>): seq<real> {
    if flows == [] then [] else if flows[0] != 0.0 then [flows[0]] + NonZero(flows[1..]) else NonZero(flows[1..])
  }

  function Flips(flows: seq<real>): nat {
    if |flows| < 2 then 0 else (if (flows[1] > 0.0) != (flows[0] > 0.0) then 1 else 0) + Flips(flows[1..])
  }

  /** _count_sign_changes */
  function SignChanges(flows: seq<real>): nat { Flips(NonZero(flows)) }

  predicate NoneNegative(flows: seq<real>) { forall i :: 0 <= i < |flows| ==> flows[i] >= 0.0 }
  predicate NonePositive(flows: seq<real>) { forall i :: 0 <= i < |flows| ==> flows[i] <= 0.0 }
  predicate SomeNegative(flows: seq<real>) { exists i :: 0 <= i < |flows| && flows[i] < 0.0 }

  /** Outlays first, receipts afterwards. */
  predicate Rising(flows: seq<real>) {
    NoneNegative(flows) || (flows[0] <= 0.0 && Rising(flows[1..]))
  }

  predicate StartsNegative(flows: seq<real>) {
    flows != [] && (flows[0] < 0.0 || (flows[0] == 0.0 && StartsNegative(flows[1..])))
  }

  function Negated(flows: seq<real>): seq<real> { seq(|flows|, i requires 0 <= i < |flows| => -flows[i]) }

  lemma {:induction false} NoFlipsOneSign(x: real, flows: seq<real>)
    requires x != 0.0 && Flips([x] + NonZero(flows)) == 0
    ensures if x > 0.0 then NoneNegative(flows) else NonePositive(flows)
    decreases |flows|
  {
    if flows != [] {
      var c, rest := flows[0], flows[1..];
      if c != 0.0 {
        assert ([x] + NonZero(flows))[1..] == [c] + NonZero(rest);
        NoFlipsOneSign(c, rest);
      } else {
        NoFlipsOneSign(x, rest);
      }
      assert flows == [c] + rest;
    }
  }

  lemma {:induction false} OneFlipRises(x: real, flows: seq<real>)
    requires x < 0.0 && Flips([x] + NonZero(flows)) == 1
    ensures Rising(flows)
    decreases |flows|
  {
    var c, rest := flows[0], flows[1..];
    if c == 0.0 {
      OneFlipRises(x, rest);
    } else {
      assert ([x] + NonZero(flows))[1..] == [c] + NonZero(rest);
      if c < 0.0 { OneFlipRises(c, rest); } else { NoFlipsOneSign(c, rest); assert flows == [c] + rest; }
    }
  }

  /** One sign change, outlay first: the flows rise, and some flow is an outlay. */
  lemma {:induction false} ConventionalFlowsRise(flows: seq<real>)
    requires SignChanges(flows) == 1 && StartsNegative(flows)
    ensures Rising(flows) && SomeNegative(flows)
  {
    if flows[0] < 0.0 {
      OneFlipRises(flows[0], flows[1..]);
    } else {
      ConventionalFlowsRise(flows[1..]);
      var i :| 0 <= i < |flows[1..]| && flows[1..][i] < 0.0;
      assert flows[i + 1] < 0.0;
    }
  }

  lemma {:induction false} NegatedGate(flows: seq<real>)
    ensures NonZero(Negated(flows)) == Negated(NonZero(flows))
    ensures SignChanges(flows) >= 1 && !StartsNegative(flows) ==> StartsNegative(Negated(flows))
  {
    if flows != [] {
      assert Negated(flows)[1..] == Negated(flows[1..]);
      NegatedGate(flows[1..]);
      assert NonZero(Negated(flows)) == Negated(NonZero(flows)) by {
        if flows[0] != 0.0 {
          assert Negated([flows[0]] + NonZero(flows[1..])) == [-flows[0]] + Negated(NonZero(flows[1..]));
        }
      }
    }
  }

  lemma {:induction false} NegatedFlips(flows: seq<real>)
    requires forall i :: 0 <= i < |flows| ==> flows[i] != 0.0
    ensures Flips(Negated(flows)) == Flips(flows)
  {
    if |flows| >= 2 {
      assert Negated(flows)[1..] == Negated(flows[1..]);
      NegatedFlips(flows[1..]);
    }
  }

  lemma {:induction false} NonZeroHasNoZero(flows: seq<real>)
    ensures forall i :: 0 <= i < |NonZero(flows)| ==> NonZero(flows)[i] != 0.0
  {
    if flows != [] { NonZeroHasNoZero(flows[1..]); }
  }

  lemma NegatedSignChanges(flows: seq<real>)
    ensures SignChanges(Negated(flows)) == SignChanges(flows)
  {
    NegatedGate(flows);
    NonZeroHasNoZero(flows);
    NegatedFlips(NonZero(flows));
  }

  lemma {:induction false} NegatedValue(flows: seq<real>, d: real)
    ensures Value(Negated(flows), d) == -Value(flows, d)
  {
    if flows != [] {
      assert Negated(flows)[1..] == Negated(flows[1..]);
      NegatedValue(flows[1..], d);
      assert d * -Value(flows[1..], d) == -(d * Value(flows[1..], d));
    }
  }

  // ---------------------------------------------------------------------------
  // What the gate lets through.
  // ---------------------------------------------------------------------------

  /** Up to k no receipts and some outlay, from k on no outlays and some receipt; years without a flow may lie
      anywhere. */
  ghost predicate OutlaysThenReceipts(flows: seq<real>, k: nat) {
    && k <= |flows|
    && (forall i :: 0 <= i < k ==> flows[i] <= 0.0) && (exists i :: 0 <= i < k && flows[i] < 0.0)
    && (forall i :: k <= i < |flows| ==> flows[i] >= 0.0) && (exists i :: k <= i < |flows| && flows[i] > 0.0)
  }

  ghost predicate ReceiptsThenOutlays(flows: seq<real>, k: nat) {
    && k <= |flows|
    && (forall i :: 0 <= i < k ==> flows[i] >= 0.0) && (exists i :: 0 <= i < k && flows[i] > 0.0)
    && (forall i :: k <= i < |flows| ==> flows[i] <= 0.0) && (exists i :: k <= i < |flows| && flows[i] < 0.0)
  }

  ghost predicate TurnsOnce(flows: seq<real>) {
    exists k :: OutlaysThenReceipts(flows, k) || ReceiptsThenOutlays(flows, k)
  }

  /** After an outlay: up to k no receipts, from k on no outlays and some receipt. */
  ghost predicate TurnsUp(flows: seq<real>, k: nat) {
    && k <= |flows| && (forall i :: 0 <= i < k ==> flows[i] <= 0.0)
    && (forall i :: k <= i < |flows| ==> flows[i] >= 0.0) && (exists i :: k <= i < |flows| && flows[i] > 0.0)
  }

  lemma TurnsUpLater(flows: seq<real>, k: nat)
    requires flows != [] && flows[0] <= 0.0 && TurnsUp(flows[1..], k)
    ensures TurnsUp(flows, k + 1)
  {
    var i :| k <= i < |flows[1..]| && flows[1..][i] > 0.0;
    assert flows[i + 1] > 0.0;
    forall j | 0 <= j < k + 1 ensures flows[j] <= 0.0 { if j > 0 { assert flows[j] == flows[1..][j - 1]; } }
    forall j | k + 1 <= j < |flows| ensures flows[j] >= 0.0 { assert flows[j] == flows[1..][j - 1]; }
  }

  lemma TurnsUpBefore(flows: seq<real>, k: nat)
    requires TurnsUp(flows, k) && flows[0] <= 0.0
    ensures TurnsUp(flows[1..], if k == 0 then 0 else k - 1)
  {
    var i :| k <= i < |flows| && flows[i] > 0.0;
    assert flows[1..][i - 1] > 0.0;
  }

  lemma {:induction false} OneFlipTurnsUp(x: real, flows: seq<real>) returns (k: nat)
    requires x < 0.0 && Flips([x] + NonZero(flows)) == 1
    ensures TurnsUp(flows, k)
    decreases |flows|
  {
    assert flows != [] by { assert [x] + NonZero([]) == [x]; }
    var c, rest := flows[0], flows[1..];
    if c == 0.0 {
      k := OneFlipTurnsUp(x, rest);
      TurnsUpLater(flows, k);
      k := k + 1;
    } else {
      assert ([x] + NonZero(flows))[1..] == [c] + NonZero(rest);
      if c < 0.0 {
        k := OneFlipTurnsUp(c, rest);
        TurnsUpLater(flows, k);
        k := k + 1;
      } else {
        NoFlipsOneSign(c, rest);
        assert flows == [c] + rest;
        k := 0;
      }
    }
  }

  lemma {:induction false} OneSignNoFlips(x: real, flows: seq<real>)
    requires x > 0.0 && NoneNegative(flows)
    ensures Flips([x] + NonZero(flows)) == 0
    decreases |flows|
  {
    if flows != [] {
      var c, rest := flows[0], flows[1..];
      OneSignNoFlips(if c > 0.0 then c else x, rest);
      if c > 0.0 { assert ([x] + NonZero(flows))[1..] == [c] + NonZero(rest); }
    }
  }

  lemma {:induction false} TurningUpIsOneFlip(x: real, flows: seq<real>, k: nat)
    requires x < 0.0 && TurnsUp(flows, k)
    ensures Flips([x] + NonZero(flows)) == 1
    decreases |flows|
  {
    var c, rest := flows[0], flows[1..];
    if c > 0.0 {
      assert NoneNegative(rest);
      assert ([x] + NonZero(flows))[1..] == [c] + NonZero(rest);
      OneSignNoFlips(c, rest);
    } else {
      TurnsUpBefore(flows, k);
      TurningUpIsOneFlip(if c < 0.0 then c else x, rest, if k == 0 then 0 else k - 1);
      if c < 0.0 { assert ([x] + NonZero(flows))[1..] == [c] + NonZero(rest); }
    }
  }

  lemma {:induction false} InvestmentTurns(flows: seq<real>) returns (k: nat)
    requires SignChanges(flows) == 1 && StartsNegative(flows)
    ensures OutlaysThenReceipts(flows, k)
  {
    var c, rest := flows[0], flows[1..];
    if c < 0.0 {
      k := OneFlipTurnsUp(c, rest);
    } else {
      k := InvestmentTurns(rest);
      var i :| 0 <= i < k && rest[i] < 0.0;
      assert flows[i + 1] < 0.0;
    }
    TurnsUpLater(flows, k);
    k := k + 1;
  }

  lemma {:induction false} TurningIsOneChange(flows: seq<real>, k: nat)
    requires OutlaysThenReceipts(flows, k)
    ensures SignChanges(flows) == 1 && StartsNegative(flows)
    decreases |flows|
  {
    var c, rest := flows[0], flows[1..];
    TurnsUpBefore(flows, k);
    if c < 0.0 {
      TurningUpIsOneFlip(c, rest, k - 1);
    } else {
      var i :| 0 <= i < k && flows[i] < 0.0;
      assert rest[i - 1] < 0.0;
      TurningIsOneChange(rest, k - 1);
    }
  }

  lemma NegatedTurns(flows: seq<real>, k: nat)
    ensures ReceiptsThenOutlays(flows, k) <==> OutlaysThenReceipts(Negated(flows), k)
  {
    var n := Negated(flows);
    forall i | 0 <= i < |flows| ensures n[i] == -flows[i] && flows[i] == -n[i] {
    }
  }

  /** The gate of calculate_irr: one sign change means that the flows turn once, from outlays to receipts or the other
      way round, zeros wherever they are. */
  lemma OneSignChangeExactly(flows: seq<real>)
    ensures SignChanges(flows) == 1 <==> TurnsOnce(flows)
    ensures SignChanges(flows) == 1 ==> (StartsNegative(flows) <==> exists k :: OutlaysThenReceipts(flows, k))
  {
    NegatedSignChanges(flows);
    NegatedGate(flows);
    if SignChanges(flows) == 1 {
      if StartsNegative(flows) {
        var k := InvestmentTurns(flows);
      } else {
        var k := InvestmentTurns(Negated(flows));
        NegatedTurns(flows, k);
      }
    }
    if k :| OutlaysThenReceipts(flows, k) { TurningIsOneChange(flows, k); }
    if k :| ReceiptsThenOutlays(flows, k) {
      NegatedTurns(flows, k);
      TurningIsOneChange(Negated(flows), k);
    }
  }

  // ---------------------------------------------------------------------------
  // At most one zero.
  // ---------------------------------------------------------------------------

  lemma PositiveFactor(a: real, p: real)
    requires p > 0.0
    ensures (a * p > 0.0 <==> a > 0.0) && (a * p >= 0.0 <==> a >= 0.0) && (a * p <= p <==> a <= 1.0)
  {
    if a > 1.0 { assert (a - 1.0) * p > 0.0; } else { assert (1.0 - a) * p >= 0.0; }
  }

  lemma ProductGrows(d: real, e: real, v: real, w: real)
    requires 0.0 < d < e && 0.0 <= v <= w
    ensures d * v <= e * w
    ensures v > 0.0 || v < w ==> d * v < e * w
  {
    assert d * v <= d * w;
    assert d * w <= e * w;
    if v < w { assert d * v < d * w; }
    if v > 0.0 { assert (e - d) * w > 0.0; }
  }

  lemma {:induction false} ReceiptsGrow(flows: seq<real>, d: real, e: real)
    requires NoneNegative(flows) && 0.0 < d < e
    ensures 0.0 <= Value(flows, d) <= Value(flows, e)
  {
    if flows != [] {
      ReceiptsGrow(flows[1..], d, e);
      ProductGrows(d, e, Value(flows[1..], d), Value(flows[1..], e));
      assert d * Value(flows[1..], d) >= 0.0;
    }
  }

  /** While the value of rising flows is not negative, discounting less makes it larger. */
  lemma {:induction false} RisingValueGrows(flows: seq<real>, d: real, e: real)
    requires Rising(flows) && 0.0 < d < e && Value(flows, d) >= 0.0
    ensures Value(flows, e) >= Value(flows, d)
    ensures SomeNegative(flows) ==> Value(flows, e) > Value(flows, d)
  {
    if NoneNegative(flows) {
      ReceiptsGrow(flows, d, e);
    } else {
      var c, rest := flows[0], flows[1..];
      var v := Value(rest, d);
      assert v * d == d * v == Value(flows, d) - c;
      PositiveFactor(v, d);
      RisingValueGrows(rest, d, e);
      ProductGrows(d, e, v, Value(rest, e));
      if c == 0.0 { NegativeLater(flows); }
    }
  }

  lemma NegativeLater(flows: seq<real>)
    requires flows != [] && flows[0] == 0.0 && SomeNegative(flows)
    ensures SomeNegative(flows[1..])
  {
    var i :| 0 <= i < |flows| && flows[i] < 0.0;
    assert flows[1..][i - 1] < 0.0;
  }

  predicate IsZero(rate: real, flows: seq<real>) { rate > -1.0 && Npv(rate, flows) == 0.0 }

  /** With one sign change, the NPV at a zero's two sides has opposite signs: an investment is worth
      having exactly at the rates up to the zero, a loan exactly from the zero on. */
  lemma ZeroSeparatesSigns(flows: seq<real>, z: real, r: real)
    requires SignChanges(flows) == 1 && IsZero(z, flows) && r > -1.0
    ensures StartsNegative(flows) ==> (r < z <==> Npv(r, flows) > 0.0) && (r > z <==> Npv(r, flows) < 0.0)
    ensures !StartsNegative(flows) ==> (r < z <==> Npv(r, flows) < 0.0) && (r > z <==> Npv(r, flows) > 0.0)
  {
    if StartsNegative(flows) {
      ConventionalSigns(flows, z, r);
    } else {
      NegatedGate(flows);
      NegatedSignChanges(flows);
      NegatedValue(flows, Discount(z));
      NegatedValue(flows, Discount(r));
      ConventionalSigns(Negated(flows), z, r);
    }
  }

  lemma ConventionalSigns(flows: seq<real>, z: real, r: real)
    requires SignChanges(flows) == 1 && StartsNegative(flows) && IsZero(z, flows) && r > -1.0
    ensures (r < z <==> Npv(r, flows) > 0.0) && (r > z <==> Npv(r, flows) < 0.0)
  {
    ConventionalFlowsRise(flows);
    if r < z {
      DiscountDecreases(r, z);
      RisingValueGrows(flows, Discount(z), Discount(r));
    } else if r > z {
      DiscountDecreases(z, r);
      if Npv(r, flows) >= 0.0 { RisingValueGrows(flows, Discount(r), Discount(z)); }
    }
  }

  /** Descartes: one sign change leaves at most one rate at which the NPV vanishes. */
  lemma AtMostOneZero(flows: seq<real>, y: real, z: real)
    requires SignChanges(flows) == 1 && IsZero(y, flows) && IsZero(z, flows)
    ensures y == z
  {
    ZeroSeparatesSigns(flows, z, y);
  }

  // ---------------------------------------------------------------------------
  // How far a rate can be from the return when its NPV is near zero.
  // ---------------------------------------------------------------------------

  lemma BeyondStep(c: real, d: real, e: real, v: real, w: real)
    requires c + d * v == 0.0 && d > 0.0 && e > 0.0
    ensures w >= v ==> d * (c + e * w) >= -c * (e - d)
    ensures w <= v ==> d * (c + e * w) <= -c * (e - d)
  {
    var p := d * e;
    assert d * (c + e * w) == d * c + p * w;
    assert -c * (e - d) == d * c + e * (d * v) == d * c + p * v;
    if w >= v { assert p * (w - v) >= 0.0; }
    if w <= v { assert p * (v - w) >= 0.0; }
  }

  lemma RisingValueIsOrdered(flows: seq<real>, d: real, e: real)
    requires Rising(flows) && d > 0.0 && e > 0.0 && Value(flows, d) >= 0.0
    ensures e >= d ==> Value(flows, e) >= Value(flows, d)
    ensures e <= d ==> Value(flows, e) <= Value(flows, d)
  {
    if d < e { RisingValueGrows(flows, d, e); }
    if e < d && Value(flows, e) >= 0.0 { RisingValueGrows(flows, e, d); }
  }

  /** On either side of the zero d the value is on or beyond the line through it whose slope is the outlay. */
  lemma ValueIsBeyond(flows: seq<real>, d: real, e: real)
    requires flows != [] && flows[0] < 0.0 && Rising(flows) && d > 0.0 && e > 0.0 && Value(flows, d) == 0.0
    ensures e >= d ==> Times(d, Value(flows, e)) >= Times(-flows[0], e - d)
    ensures e <= d ==> Times(d, Value(flows, e)) <= Times(-flows[0], e - d)
  {
    var c, rest := flows[0], flows[1..];
    var v := Value(rest, d);
    PositiveFactor(v, d);
    assert v * d == d * v == -c;
    RisingValueIsOrdered(rest, d, e);
    BeyondStep(c, d, e, v, Value(rest, e));
  }

  /** Of a project with one sign change and its outlay now, the NPV at r is on or beyond the outlay times the
      difference of the discounts, both measured in discounts at the return z. */
  lemma NpvIsBeyond(flows: seq<real>, z: real, r: real)
    requires SignChanges(flows) == 1 && flows != [] && flows[0] < 0.0 && IsZero(z, flows) && r > -1.0
    ensures var d, e := Discount(z), Discount(r);
            && (r <= z ==> Times(d, Npv(r, flows)) >= Times(-flows[0], e - d))
            && (r >= z ==> Times(d, Npv(r, flows)) <= Times(-flows[0], e - d))
  {
    ConventionalFlowsRise(flows);
    DiscountIsPositive(z);
    DiscountIsPositive(r);
    if r < z { DiscountDecreases(r, z); }
    if z < r { DiscountDecreases(z, r); }
    ValueIsBeyond(flows, Discount(z), Discount(r));
  }

  function Size(x: real): real { if x < 0.0 then -x else x }

  lemma DiscountDifference(z: real, r: real)
    requires z > -1.0 && r > -1.0
    ensures Discount(r) - Discount(z) == Times(z - r, Times(Discount(z), Discount(r)))
  {
    var a, b := 1.0 + z, 1.0 + r;
    assert 1.0 / b - 1.0 / a == (a - b) * (1.0 / a * (1.0 / b)) by {
      assert a * (1.0 / a) == 1.0 && b * (1.0 / b) == 1.0;
      assert (a - b) * (1.0 / a * (1.0 / b)) == a * (1.0 / a) * (1.0 / b) - b * (1.0 / b) * (1.0 / a);
    }
  }

  /** q * d * e <= d * v < d * t gives q < t / e. */
  lemma CancelDiscounts(q: real, d: real, e: real, b: real, v: real, t: real)
    requires d > 0.0 && b > 0.0 && e * b == 1.0 && q * (d * e) <= d * v && v < t
    ensures q < t * b
  {
    assert d * (q * e) <= d * v;
    assert q * e <= v by { PositiveFactor(v - q * e, d); assert (v - q * e) * d == d * v - d * (q * e); }
    assert (t - q * e) * b > 0.0;
    assert q * e * b == q * (e * b);
  }

  lemma OutlayIsNear(flows: seq<real>, z: real, r: real, tolerance: real)
    requires SignChanges(flows) == 1 && flows != [] && flows[0] < 0.0 && IsZero(z, flows) && r > -1.0
    requires -tolerance < Npv(r, flows) < tolerance
    ensures Times(-flows[0], Size(z - r)) < Times(tolerance, 1.0 + r)
  {
    var d, e, b, k := Discount(z), Discount(r), 1.0 + r, -flows[0];
    NpvIsBeyond(flows, z, r);
    DiscountDifference(z, r);
    assert e * b == 1.0 && d > 0.0;
    var q := k * (z - r);
    assert Times(k, e - d) == k * ((z - r) * (d * e)) == q * (d * e);
    if r <= z {
      CancelDiscounts(q, d, e, b, Npv(r, flows), tolerance);
    } else {
      assert (-q) * (d * e) == -(q * (d * e)) && d * (-Npv(r, flows)) == -(d * Npv(r, flows));
      CancelDiscounts(-q, d, e, b, -Npv(r, flows), tolerance);
    }
  }

  lemma LoanIsNear(flows: seq<real>, z: real, r: real, tolerance: real)
    requires SignChanges(flows) == 1 && flows != [] && flows[0] > 0.0 && IsZero(z, flows) && r > -1.0
    requires -tolerance < Npv(r, flows) < tolerance
    ensures Times(flows[0], Size(z - r)) < Times(tolerance, 1.0 + r)
  {
    NegatedSignChanges(flows);
    NegatedValue(flows, Discount(z));
    NegatedValue(flows, Discount(r));
    OutlayIsNear(Negated(flows), z, r, tolerance);
    assert -Negated(flows)[0] == flows[0];
  }

  /** A rate whose NPV is within the tolerance is off the return by less than the tolerance, over the first flow,
      of one plus the rate. The tolerance is a sum of money: for a first flow below it this says nothing. */
  lemma ReturnIsNear(flows: seq<real>, z: real, r: real, tolerance: real)
    requires SignChanges(flows) == 1 && IsZero(z, flows) && r > -1.0 && -tolerance < Npv(r, flows) < tolerance
    ensures flows != [] && Times(Size(flows[0]), Size(z - r)) < Times(tolerance, 1.0 + r)
  {
    assert flows != [] by { assert NonZero([]) == []; }
    if flows[0] < 0.0 {
      OutlayIsNear(flows, z, r, tolerance);
    } else if flows[0] > 0.0 {
      LoanIsNear(flows, z, r, tolerance);
    } else {
      PositiveFactor(tolerance, 1.0 + r);
      assert flows[0] == 0.0 && Size(flows[0]) == 0.0;
      assert Times(Size(flows[0]), Size(z - r)) == 0.0;
    }
  }

  /** The sum of the sizes of the flows. */
  function Volume(flows: seq<real>): real { if flows == [] then 0.0 else Size(flows[0]) + Volume(flows[1..]) }

  lemma DiscountedWithin(d: real, v: real, w: real)
    requires 0.0 <= d <= 1.0 && -w <= v <= w
    ensures -w <= d * v <= w
  {
    var p, q := d * w, d * v;
    if d != 0.0 && w != 0.0 {
      PositiveFactor(1.0 - d, w);
      PositiveFactor(w - v, d);
      PositiveFactor(w + v, d);
      assert (w - v) * d == p - q && (w + v) * d == p + q;
      assert (1.0 - d) * w == w - p;
      assert q <= p;
      assert -p <= q;
    }
  }

  lemma {:induction false} ValueIsWithinVolume(flows: seq<real>, d: real)
    requires 0.0 <= d <= 1.0
    ensures -Volume(flows) <= Value(flows, d) <= Volume(flows)
  {
    if flows != [] {
      ValueIsWithinVolume(flows[1..], d);
      DiscountedWithin(d, Value(flows[1..], d), Volume(flows[1..]));
    }
  }

  // ---------------------------------------------------------------------------
  // Bisection.
  // ---------------------------------------------------------------------------

  const LOW := -0.9999
  const HIGH := 100.0
  const MIDDLE := (LOW + HIGH) / 2.0

  datatype Bracket = Bracket(low: real, high: real, npvLow: real)

  function Mid(b: Bracket): real { (b.low + b.high) / 2.0 }

  /** The bracket after i halvings. */
  function BracketAt(flows: seq<real>, i: nat): (b: Bracket)
    ensures LOW <= b.low <= b.high
  {
    if i == 0 then Bracket(LOW, HIGH, Npv(LOW, flows))
    else
      var b := BracketAt(flows, i - 1);
      var m := Mid(b);
      if (Npv(m, flows) > 0.0) == (b.npvLow > 0.0) then Bracket(m, b.high, Npv(m, flows)) else b.(high := m)
  }

  predicate CloseEnough(flows: seq<real>, i: nat, tolerance: real) {
    -tolerance < Npv(Mid(BracketAt(flows, i)), flows) < tolerance
  }

  /** The one configuration in which the search walks away from its own zero. */
  predicate ZeroAtLowEnd(flows: seq<real>) { Npv(LOW, flows) == 0.0 && StartsNegative(flows) }

  /** The rate is no further from the return, if there is one, than the tolerance and the first flow allow. */
  ghost predicate IsNearReturn(flows: seq<real>, r: real, tolerance: real) {
    forall z :: IsZero(z, flows) ==>
      flows != [] && Times(Size(flows[0]), Size(z - r)) < Times(tolerance, 1.0 + r)
  }

  lemma CloseIsNear(flows: seq<real>, i: nat, tolerance: real)
    requires SignChanges(flows) == 1 && CloseEnough(flows, i, tolerance)
    ensures IsNearReturn(flows, Mid(BracketAt(flows, i)), tolerance)
  {
    var r := Mid(BracketAt(flows, i));
    forall z | IsZero(z, flows)
      ensures flows != [] && Times(Size(flows[0]), Size(z - r)) < Times(tolerance, 1.0 + r)
    {
      ReturnIsNear(flows, z, r, tolerance);
    }
  }

  /** calculate_irr: the first midpoint whose NPV is within tolerance, if there is one in time. */
  method CalculateIrr(flows: seq<real>, maxIterations: nat, tolerance: real) returns (irr: Option<real>)
    ensures irr.None? <==>
              || !TurnsOnce(flows) || Npv(LOW, flows) * Npv(HIGH, flows) > 0.0
              || forall i :: 0 <= i < maxIterations ==> !CloseEnough(flows, i, tolerance)
    ensures irr.Some? ==> exists i ::
              && 0 <= i < maxIterations && CloseEnough(flows, i, tolerance)
              && irr.value == RoundRate(Mid(BracketAt(flows, i)))
              && IsNearReturn(flows, Mid(BracketAt(flows, i)), tolerance)
              && forall j :: 0 <= j < i ==> !CloseEnough(flows, j, tolerance)
    ensures TurnsOnce(flows) && ZeroAtLowEnd(flows) ==>
              && (irr.None? <==> forall i :: 0 <= i < maxIterations ==> !CloseEnough(flows, i, tolerance))
              && (irr.Some? ==> irr.value >= MIDDLE)
  {
    OneSignChangeExactly(flows);
    if SignChanges(flows) != 1 {
      return None;
    }
    var low, high := LOW, HIGH;
    var npvLow := NpvAtRate(low, flows);
    var npvHigh := NpvAtRate(high, flows);
    if npvLow * npvHigh > 0.0 {
      return None;
    }
    for i := 0 to maxIterations
      invariant Bracket(low, high, npvLow) == BracketAt(flows, i)
      invariant forall j :: 0 <= j < i ==> !CloseEnough(flows, j, tolerance)
    {
      var mid := (low + high) / 2.0;
      var npvMid := NpvAtRate(mid, flows);
      assert mid == Mid(BracketAt(flows, i));
      if -tolerance < npvMid < tolerance {
        assert CloseEnough(flows, i, tolerance);
        CloseIsNear(flows, i, tolerance);
        if ZeroAtLowEnd(flows) {
          LowEndReturnIsMissed(flows, i);
          RoundedAboveMiddle(mid);
        }
        return Some(RoundRate(mid));
      }
      if (npvMid > 0.0) == (npvLow > 0.0) {
        low, npvLow := mid, npvMid;
      } else {
        high := mid;
      }
    }
    irr := None;
  }

  function Two(n: nat): (p: real)
    ensures p > 0.0
  {
    if n == 0 then 1.0 else 2.0 * Two(n - 1)
  }

  function Width(flows: seq<real>, i: nat): real { BracketAt(flows, i).high - BracketAt(flows, i).low }

  lemma WidthHalves(flows: seq<real>, i: nat)
    requires i > 0
    ensures Width(flows, i) == Width(flows, i - 1) / 2.0
  {
  }

  lemma {:induction false} BracketHalves(flows: seq<real>, i: nat)
    ensures Times(Width(flows, i), Two(i)) == HIGH - LOW
  {
    if i > 0 {
      BracketHalves(flows, i - 1);
      WidthHalves(flows, i);
      HalfTimesDouble(Width(flows, i - 1), Two(i - 1));
    }
  }

  lemma HalfTimesDouble(w: real, p: real)
    ensures Times(w / 2.0, 2.0 * p) == Times(w, p)
  {
  }

  /** Invariant of the search: the zero stays in the bracket, and the remembered sign is the sign on
      the low side of the zero. */
  lemma {:induction false} BracketKeepsZero(flows: seq<real>, z: real, i: nat)
    requires SignChanges(flows) == 1 && IsZero(z, flows) && LOW <= z <= HIGH && !ZeroAtLowEnd(flows)
    ensures var b := BracketAt(flows, i);
            b.low <= z <= b.high && (b.npvLow > 0.0 <==> StartsNegative(flows)) && (StartsNegative(flows) ==> b.low < z)
  {
    if i == 0 {
      ZeroSeparatesSigns(flows, z, LOW);
    } else {
      BracketKeepsZero(flows, z, i - 1);
      ZeroSeparatesSigns(flows, z, Mid(BracketAt(flows, i - 1)));
    }
  }

  lemma ZeroAtLowEndIsLost(flows: seq<real>, z: real)
    requires SignChanges(flows) == 1 && IsZero(z, flows) && ZeroAtLowEnd(flows)
    ensures BracketAt(flows, 1).low > z
  {
    assert IsZero(LOW, flows);
    AtMostOneZero(flows, LOW, z);
    ZeroSeparatesSigns(flows, z, Mid(BracketAt(flows, 0)));
    assert BracketAt(flows, 1).low == Mid(BracketAt(flows, 0));
  }

  ghost predicate KeptAt(flows: seq<real>, z: real, i: nat) { BracketAt(flows, i).low <= z <= BracketAt(flows, i).high }

  /** The zero is kept in every bracket exactly when it does not lie at the low end of a conventional
      investment; there the first halving already loses it. */
  lemma ZeroKeptExactly(flows: seq<real>, z: real)
    requires SignChanges(flows) == 1 && IsZero(z, flows) && LOW <= z <= HIGH
    ensures (forall i: nat :: KeptAt(flows, z, i)) <==> !ZeroAtLowEnd(flows)
  {
    if ZeroAtLowEnd(flows) {
      ZeroAtLowEndIsLost(flows, z);
      assert !KeptAt(flows, z, 1);
    } else {
      forall i: nat ensures KeptAt(flows, z, i) { BracketKeepsZero(flows, z, i); }
    }
  }

  /** The midpoint of the i-th bracket is within half a bracket of the zero. */
  lemma MidpointIsNear(flows: seq<real>, z: real, i: nat)
    requires SignChanges(flows) == 1 && IsZero(z, flows) && LOW <= z <= HIGH && !ZeroAtLowEnd(flows)
    ensures var m := Mid(BracketAt(flows, i));
            -(HIGH - LOW) <= Times(m - z, 2.0 * Two(i)) <= HIGH - LOW
  {
    assert Times(Width(flows, i), Two(i)) == HIGH - LOW by { BracketHalves(flows, i); }
    assert -Width(flows, i) <= 2.0 * (Mid(BracketAt(flows, i)) - z) <= Width(flows, i) by {
      MidpointWithinHalf(flows, z, i);
    }
    ScaledDistance(Mid(BracketAt(flows, i)) - z, Width(flows, i), Two(i));
  }

  lemma MidpointWithinHalf(flows: seq<real>, z: real, i: nat)
    requires SignChanges(flows) == 1 && IsZero(z, flows) && LOW <= z <= HIGH && !ZeroAtLowEnd(flows)
    ensures -Width(flows, i) <= 2.0 * (Mid(BracketAt(flows, i)) - z) <= Width(flows, i)
  {
    BracketKeepsZero(flows, z, i);
  }

  lemma ScaledDistance(x: real, w: real, p: real)
    requires -w <= 2.0 * x <= w && p > 0.0
    ensures -Times(w, p) <= Times(x, 2.0 * p) <= Times(w, p)
  {
    assert x * (2.0 * p) == 2.0 * x * p;
    assert (w - 2.0 * x) * p >= 0.0 && (w + 2.0 * x) * p >= 0.0;
  }

  /** The early refusal is right: no zero lies in the search range. */
  lemma EarlyRefusalIsRight(flows: seq<real>, z: real)
    requires SignChanges(flows) == 1 && Npv(LOW, flows) * Npv(HIGH, flows) > 0.0 && LOW <= z <= HIGH
    ensures !IsZero(z, flows)
  {
    OppositeSigns(Npv(LOW, flows), Npv(HIGH, flows));
    if IsZero(z, flows) {
      ZeroSeparatesSigns(flows, z, LOW);
      ZeroSeparatesSigns(flows, z, HIGH);
    }
  }

  lemma OppositeSigns(a: real, b: real)
    ensures (a >= 0.0 && b <= 0.0) || (a <= 0.0 && b >= 0.0) ==> a * b <= 0.0
  {
    if a >= 0.0 && b <= 0.0 { assert a * -b >= 0.0; }
    if a <= 0.0 && b >= 0.0 { assert -a * b >= 0.0; }
  }

  /** An investment whose rate of return is the low end of the documented range, -99.99%: the search walks to
      the other end, so every midpoint it tries lies at or above the middle of the range. */
  lemma {:induction false} LowEndReturnIsMissed(flows: seq<real>, i: nat)
    requires SignChanges(flows) == 1 && ZeroAtLowEnd(flows)
    ensures var b := BracketAt(flows, i); b.npvLow <= 0.0 && b.high == HIGH
    ensures Mid(BracketAt(flows, i)) >= MIDDLE
  {
    assert IsZero(LOW, flows);
    if i > 0 {
      LowEndReturnIsMissed(flows, i - 1);
      ZeroSeparatesSigns(flows, LOW, Mid(BracketAt(flows, i - 1)));
    }
  }

  lemma RoundedAboveMiddle(x: real)
    requires x >= MIDDLE
    ensures RoundRate(x) >= MIDDLE
  {
    assert MIDDLE == Over(49500050.0, RATE);
    QuantizeOfGrid(49500050, RATE);
    QuantizeMonotone(MIDDLE, x, RATE);
  }

  /** Such a project can be answered None for any number of iterations ... */
  lemma LowEndReturnUnanswered(i: nat)
    ensures var flows := [-1.0, 0.0001];
            SignChanges(flows) == 1 && ZeroAtLowEnd(flows) && !CloseEnough(flows, i, 0.0000001)
  {
    TwoFlows(-1.0);
    TwoFlowValue(-1.0, LOW);
    LowEndReturnIsMissed([-1.0, 0.0001], i);
    var a := 1.0 + Mid(BracketAt([-1.0, 0.0001], i));
    TwoFlowValue(-1.0, Mid(BracketAt([-1.0, 0.0001], i)));
    assert a >= 1.0;
    assert 0.0001 * (1.0 / a) <= 0.0001 by { assert 1.0 / a <= 1.0; }
  }

  /** ... or be answered at once with the middle of the range: that is the answer for any project, wherever its
      return lies, whose flows together come to less than the tolerance. */
  lemma TinyFlowsAnswerTheMiddle(flows: seq<real>, tolerance: real)
    requires Volume(flows) < tolerance
    ensures CloseEnough(flows, 0, tolerance) && Mid(BracketAt(flows, 0)) == MIDDLE
  {
    assert 0.0 <= Discount(MIDDLE) <= 1.0;
    ValueIsWithinVolume(flows, Discount(MIDDLE));
  }

  /** So of the project with its return at the low end ... */
  lemma LowEndReturnMisjudged()
    ensures var flows := [-0.00000005, 0.000000000005];
            SignChanges(flows) == 1 && ZeroAtLowEnd(flows) && CloseEnough(flows, 0, 0.0000001)
  {
    TwoFlows(-0.00000005);
    TwoFlowValue(-0.00000005, LOW);
    TwoFlowsVolume(-0.00000005, 0.000000000005);
    TinyFlowsAnswerTheMiddle([-0.00000005, 0.000000000005], 0.0000001);
  }

  /** ... and of one that doubles its outlay in a year: the return is 100%, the answer 4950.005%. */
  lemma DoublingIsMisjudged()
    ensures var flows := [-0.00000003, 0.00000006];
            SignChanges(flows) == 1 && IsZero(1.0, flows) && CloseEnough(flows, 0, 0.0000001)
  {
    var flows := [-0.00000003, 0.00000006];
    assert flows[1..] == [0.00000006] && flows[1..][1..] == [];
    OneSignChange(-0.00000003, 0.00000006);
    assert Value(flows[1..], 0.5) == 0.00000006 + 0.5 * 0.0;
    TwoFlowsVolume(-0.00000003, 0.00000006);
    TinyFlowsAnswerTheMiddle(flows, 0.0000001);
  }

  lemma TwoFlowsVolume(a: real, b: real)
    ensures Volume([a, b]) == Size(a) + Size(b)
  {
    assert [a, b][1..] == [b] && [b][1..] == [];
    assert Volume([b]) == Size(b) + 0.0;
  }

  lemma OneSignChange(outlay: real, back: real)
    requires outlay < 0.0 < back
    ensures SignChanges([outlay, back]) == 1 && StartsNegative([outlay, back])
  {
    var flows := [outlay, back];
    assert flows[1..] == [back] && flows[1..][1..] == [];
    assert NonZero([back]) == [back] by { assert [back][1..] == []; }
    assert NonZero(flows) == [outlay] + [back] == flows;
    assert Flips(flows) == 1;
  }

  /** An outlay and a ten-thousandth of it back after a year. */
  lemma TwoFlows(outlay: real)
    requires outlay < 0.0
    ensures SignChanges([outlay, -0.0001 * outlay]) == 1 && StartsNegative([outlay, -0.0001 * outlay])
  {
    OneSignChange(outlay, -0.0001 * outlay);
  }

  lemma TwoFlowValue(outlay: real, r: real)
    requires r > -1.0
    ensures Npv(r, [outlay, -0.0001 * outlay]) == outlay - 0.0001 * outlay * (1.0 / (1.0 + r))
  {
    var flows, d := [outlay, -0.0001 * outlay], Discount(r);
    assert flows[1..] == [-0.0001 * outlay] && flows[1..][1..] == [];
    assert Value(flows[1..], d) == -0.0001 * outlay + d * 0.0;
  }

  // ---------------------------------------------------------------------------
  // Discounted payback.
  // ---------------------------------------------------------------------------

  /** The discounted total of years 0..t. */
  function Cumulative(flows: seq<real>, rate: real, t: nat): real
    requires rate > -1.0 && t < |flows|
  {
    Value(flows[..t + 1], Discount(rate))
  }

  predicate CrossesAt(flows: seq<real>, rate: real, t: int)
    requires rate > -1.0
  {
    0 < t < |flows| && Cumulative(flows, rate, t - 1) < 0.0 <= Cumulative(flows, rate, t)
  }

  /** Where in year t the straight line from one total to the next meets zero. */
  function CrossingPoint(flows: seq<real>, rate: real, t: int): real
    requires rate > -1.0 && CrossesAt(flows, rate, t)
  {
    var before, after := Cumulative(flows, rate, t - 1), Cumulative(flows, rate, t);
    (t - 1) as real + -before / (after - before)
  }

  /** One more year on the running total. */
  lemma NextTotal(flows: seq<real>, rate: real, t: nat)
    requires rate > -1.0 && t < |flows|
    ensures Pow(1.0 + rate, t) != 0.0
    ensures Cumulative(flows, rate, t) == Value(flows[..t], Discount(rate)) + flows[t] / Pow(1.0 + rate, t)
    ensures Cumulative(flows, rate, t) == Value(flows[..t + 1], Discount(rate))
    ensures t > 0 ==> Cumulative(flows, rate, t - 1) == Value(flows[..t], Discount(rate))
  {
    PowInverse(1.0 + rate, t);
    ValueOfAppended(flows[..t], flows[t], Discount(rate));
    assert flows[..t + 1] == flows[..t] + [flows[t]];
    assert flows[t] / Pow(1.0 + rate, t) == flows[t] * (1.0 / Pow(1.0 + rate, t));
    if t > 0 { assert flows[..t - 1 + 1] == flows[..t]; }
  }

  /** calculate_discounted_payback_period; None in the first result is the ValueError. */
  method DiscountedPayback(rate: real, flows: seq<real>) returns (valid: bool, period: Option<real>)
    ensures valid <==> rate > 0.0
    ensures !valid ==> period.None?
    ensures valid && period.None? ==> forall t :: !CrossesAt(flows, rate, t)
    ensures valid && period.Some? ==> exists t ::
              CrossesAt(flows, rate, t) && period.value == RoundRate(CrossingPoint(flows, rate, t))
              && forall s :: 0 <= s < t ==> !CrossesAt(flows, rate, s)
  {
    if rate <= 0.0 {
      return false, None;
    }
    valid := true;
    var cumulative := 0.0;
    for t := 0 to |flows|
      invariant cumulative == Value(flows[..t], Discount(rate))
      invariant forall s :: s < t ==> !CrossesAt(flows, rate, s)
    {
      NextTotal(flows, rate, t);
      var discounted := flows[t] / Pow(1.0 + rate, t);
      var previous := cumulative;
      cumulative := cumulative + discounted;
      if t > 0 && previous < 0.0 <= cumulative {
        assert CrossesAt(flows, rate, t);
        return true, Some(RoundRate((t - 1) as real + -previous / discounted));
      }
    }
    period := None;
  }

  /** The interpolated crossing lies within its year, and is where the interpolated total is zero. */
  lemma CrossingIsInterpolated(flows: seq<real>, rate: real, t: int)
    requires rate > -1.0 && CrossesAt(flows, rate, t)
    ensures var x := CrossingPoint(flows, rate, t);
            var before, after := Cumulative(flows, rate, t - 1), Cumulative(flows, rate, t);
            (t - 1) as real < x <= t as real && before + (x - (t - 1) as real) * (after - before) == 0.0
  {
    var before, after := Cumulative(flows, rate, t - 1), Cumulative(flows, rate, t);
    var f := -before / (after - before);
    assert f * (after - before) == -before;
    PositiveFactor(f, after - before);
  }

  /** A project that starts with an outlay and never pays back is in the red in every year. */
  lemma {:induction false} NoPaybackStaysNegative(flows: seq<real>, rate: real, t: nat)
    requires rate > -1.0 && t < |flows| && flows[0] < 0.0
    requires forall s :: !CrossesAt(flows, rate, s)
    ensures Cumulative(flows, rate, t) < 0.0
  {
    if t == 0 {
      assert flows[..0 + 1] == [flows[0]] && [flows[0]][1..] == [];
      assert Value([flows[0]], Discount(rate)) == flows[0] + Discount(rate) * 0.0;
    } else {
      NoPaybackStaysNegative(flows, rate, t - 1);
      assert !CrossesAt(flows, rate, t);
    }
  }

  lemma {:induction false} RisingAfterReceipt(flows: seq<real>, t: nat, u: nat)
    requires Rising(flows) && t <= u < |flows| && flows[t] > 0.0
    ensures flows[u] >= 0.0
    decreases |flows|
  {
    if !NoneNegative(flows) && t > 0 {
      assert flows[1..][t - 1] == flows[t] && flows[1..][u - 1] == flows[u];
      RisingAfterReceipt(flows[1..], t - 1, u - 1);
    }
  }

  lemma CumulativeStep(flows: seq<real>, rate: real, t: nat)
    requires rate > -1.0 && 0 < t < |flows|
    ensures Cumulative(flows, rate, t) == Cumulative(flows, rate, t - 1) + flows[t] * Pow(Discount(rate), t)
    ensures Pow(Discount(rate), t) > 0.0
  {
    assert flows[..t + 1] == flows[..t] + [flows[t]];
    ValueOfAppended(flows[..t], flows[t], Discount(rate));
    PowInverse(1.0 + rate, t);
  }

  /** After a crossing, conventional flows never fall back below zero. */
  lemma {:induction false} CrossedStaysUp(flows: seq<real>, rate: real, t: nat, u: nat)
    requires rate > -1.0 && CrossesAt(flows, rate, t) && Rising(flows) && t <= u < |flows|
    ensures Cumulative(flows, rate, u) >= 0.0
    decreases u
  {
    if t < u {
      CrossedStaysUp(flows, rate, t, u - 1);
      CumulativeStep(flows, rate, t);
      var p, q := Pow(Discount(rate), t), Pow(Discount(rate), u);
      PositiveFactor(flows[t], p);
      RisingAfterReceipt(flows, t, u);
      CumulativeStep(flows, rate, u);
      PositiveFactor(flows[u], q);
    }
  }

  /** The three appraisals of a conventional project agree: it pays back within its horizon exactly when
      its NPV is not negative, which is exactly when the rate does not exceed its rate of return. */
  lemma PaybackMeetsNpvMeetsIrr(flows: seq<real>, rate: real, z: real)
    requires SignChanges(flows) == 1 && flows[0] < 0.0 && rate > -1.0 && IsZero(z, flows)
    ensures (exists t :: CrossesAt(flows, rate, t)) <==> Npv(rate, flows) >= 0.0
    ensures Npv(rate, flows) >= 0.0 <==> rate <= z
  {
    ZeroSeparatesSigns(flows, z, rate);
    ConventionalFlowsRise(flows);
    var last := |flows| - 1;
    assert flows[..last + 1] == flows;
    if t :| CrossesAt(flows, rate, t) {
      CrossedStaysUp(flows, rate, t, last);
    } else {
      NoPaybackStaysNegative(flows, rate, last);
    }
  }
}
