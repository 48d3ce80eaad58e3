/** The rebate periods of one supplier: purchases arrive, open periods are re-aggregated from the best
    source available, and periods are closed.  Purchases are never withdrawn. */
module RebateWaterfall {
  import opened Sql
  import opened Rounding
  import opened Rebates

  datatype Source = Manual | TransactionAggregation | InvoiceAggregation

  function Rank(s: Source): nat {
    match s case Manual => 0 case TransactionAggregation => 1 case InvoiceAggregation => 2
  }

  datatype Purchase = Purchase(amount: real, quantity: real, day: int)

  datatype Period = Period(
    first: int, last: int, agreement: Agreement, spend: Option<real>, volume: Option<real>,
    source: Source, expected: Option<real>, earned: Option<real>)

  datatype Books = Books(invoices: seq<Purchase>, transactions: seq<Purchase>, periods: seq<Period>)

  function InPeriod(ps: seq<Purchase>, first: int, last: int): seq<Purchase> {
    if ps == [] then []
    else (if first <= ps[0].day <= last then [ps[0]] else []) + InPeriod(ps[1..], first, last)
  }

  function Spend(ps: seq<Purchase>): real { if ps == [] then 0.0 else ps[0].amount + Spend(ps[1..]) }
  function Quantity(ps: seq<Purchase>): real { if ps == [] then 0.0 else ps[0].quantity + Quantity(ps[1..]) }

  /** The source recalculate_affected_periods settles on, and its purchases. */
  function Choose(b: Books, p: Period): (Source, seq<Purchase>) {
    if p.source == InvoiceAggregation || b.invoices != [] then (InvoiceAggregation, b.invoices)
    else if b.transactions != [] then (TransactionAggregation, b.transactions)
    else (p.source, [])
  }

  /** Is the period open and does it overlap the dates of the new purchases? */
  predicate Affected(p: Period, minDate: int, maxDate: int) {
    p.earned.None? && p.first <= maxDate && p.last >= minDate
  }

  /** The period after re-aggregation; None when its agreement cannot be evaluated. */
  function Refreshed(b: Books, p: Period): Option<Period> {
    var (source, purchases) := Choose(b, p);
    if source == Manual then Some(p)
    else
      var inside := InPeriod(purchases, p.first, p.last);
      var spend := RoundCurrency(Spend(inside));
      match ExpectedRebate(p.agreement, spend)
      case None => None
      case Some(rebate) =>
        Some(p.(spend := Some(spend), volume := Some(Quantity(inside)), source := source, expected := Some(rebate)))
  }

  /** Every affected period refreshed; None when one of them fails and the transaction is rolled back. */
  function RefreshedFrom(b: Books, minDate: int, maxDate: int, i: nat): (r: Option<seq<Period>>)
    requires i <= |b.periods|
    ensures r.Some? ==> |r.value| == |b.periods| - i
    decreases |b.periods| - i
  {
    if i == |b.periods| then Some([])
    else
      var p := b.periods[i];
      var q := if Affected(p, minDate, maxDate) then Refreshed(b, p) else Some(p);
      var rest := RefreshedFrom(b, minDate, maxDate, i + 1);
      if q.None? || rest.None? then None else Some([q.value] + rest.value)
  }

  function Recalculated(b: Books, minDate: int, maxDate: int): Books {
    var periods := RefreshedFrom(b, minDate, maxDate, 0);
    if periods.None? then b else b.(periods := periods.value)
  }

  /** close_period: refused before the last day, and once an earned amount is there. */
  function Closed(p: Period, today: int): Period {
    if today >= p.last && p.earned.None? then p.(earned := p.expected) else p
  }

  // ---------------------------------------------------------------------------
  // The service object.
  // ---------------------------------------------------------------------------

  class SupplierRebates {
    var invoices: seq<Purchase>
    var transactions: seq<Purchase>
    var periods: seq<Period>

    function State(): Books
      reads this
    {
      Books(invoices, transactions, periods)
    }

    /** aggregate_transactions_for_period */
    method Aggregate(purchases: seq<Purchase>, first: int, last: int) returns (spend: real, volume: real)
      ensures spend == RoundCurrency(Spend(InPeriod(purchases, first, last)))
      ensures volume == Quantity(InPeriod(purchases, first, last))
    {
      spend, volume := 0.0, 0.0;
      for i := 0 to |purchases|
        invariant spend + Spend(InPeriod(purchases[i..], first, last)) == Spend(InPeriod(purchases, first, last))
        invariant volume + Quantity(InPeriod(purchases[i..], first, last)) == Quantity(InPeriod(purchases, first, last))
      {
        var p := purchases[i];
        var rest := InPeriod(purchases[i + 1..], first, last);
        assert purchases[i..][1..] == purchases[i + 1..];
        if first <= p.day <= last {
          assert InPeriod(purchases[i..], first, last) == [p] + rest && ([p] + rest)[1..] == rest;
          spend, volume := spend + p.amount, volume + p.quantity;
        } else {
          assert InPeriod(purchases[i..], first, last) == rest;
        }
      }
      spend := RoundCurrency(spend);
    }

    /** The body of the loop in recalculate_affected_periods. */
    method Reaggregate(period: Period) returns (q: Option<Period>)
      ensures q == Refreshed(State(), period)
    {
      var source, purchases := period.source, [];
      if period.source == InvoiceAggregation {
        purchases := invoices;
      } else if invoices != [] {
        source, purchases := InvoiceAggregation, invoices;
      } else if transactions != [] {
        source, purchases := TransactionAggregation, transactions;
      }
      if source != InvoiceAggregation && source != TransactionAggregation {
        return Some(period);
      }
      var spend, volume := Aggregate(purchases, period.first, period.last);
      var rebate := ExpectedRebate(period.agreement, spend);
      if rebate.None? {
        return None;
      }
      return Some(period.(spend := Some(spend), volume := Some(volume), source := source, expected := rebate));
    }

    /** recalculate_affected_periods */
    method RecalculateAffectedPeriods(minDate: int, maxDate: int) returns (ok: bool)
      modifies this`periods
      ensures ok <==> RefreshedFrom(old(State()), minDate, maxDate, 0).Some?
      ensures State() == Recalculated(old(State()), minDate, maxDate)
    {
      ghost var b := State();
      ghost var all := RefreshedFrom(b, minDate, maxDate, 0);
      var updated: seq<Period> := [];
      for i := 0 to |periods|
        invariant State() == b
        invariant all.Some? <==> RefreshedFrom(b, minDate, maxDate, i).Some?
        invariant all.Some? ==> all.value == updated + RefreshedFrom(b, minDate, maxDate, i).value
      {
        var period := periods[i];
        if Affected(period, minDate, maxDate) {
          var refreshed := Reaggregate(period);
          if refreshed.None? {
            return false;
          }
          period := refreshed.value;
        }
        updated := updated + [period];
      }
      periods := updated;
      ok := true;
    }

    method ClosePeriod(i: nat, today: int) returns (ok: bool)
      requires i < |periods|
      modifies this`periods
      ensures ok <==> today >= old(periods[i]).last && old(periods[i]).earned.None?
      ensures periods == old(periods)[i := Closed(old(periods[i]), today)]
    {
      if today < periods[i].last || periods[i].earned.Some? {
        return false;
      }
      periods := periods[i := periods[i].(earned := periods[i].expected)];
      ok := true;
    }
  }

  predicate IsBetween(first: int, day: int, last: int) { first <= day <= last }

  /** A period is affected exactly when nothing is earned yet and one of its days is among those of the purchases. */
  lemma AffectedExactly(p: Period, minDate: int, maxDate: int)
    requires p.first <= p.last && minDate <= maxDate
    ensures Affected(p, minDate, maxDate) <==>
            p.earned.None? && exists day :: IsBetween(p.first, day, p.last) && IsBetween(minDate, day, maxDate)
  {
    if p.first <= maxDate && p.last >= minDate {
      var day := if p.first < minDate then minDate else p.first;
      assert IsBetween(p.first, day, p.last) && IsBetween(minDate, day, maxDate);
    }
  }

  // ---------------------------------------------------------------------------
  // Any run.
  // ---------------------------------------------------------------------------

  datatype Event =
    | Invoices(lines: seq<Purchase>)
    | Transactions(rows: seq<Purchase>)
    | NewPeriod(period: Period)
    | Recalculate(minDate: int, maxDate: int)
    | Close(i: nat, today: int)

  predicate Possible(b: Books, e: Event) {
    match e
    case Close(i, _) => i < |b.periods|
    case NewPeriod(p) => p.source == Manual && p.earned.None?
    case _ => true
  }

  function After(b: Books, e: Event): Books
    requires Possible(b, e)
  {
    match e
    case Invoices(lines) => b.(invoices := b.invoices + lines)
    case Transactions(rows) => b.(transactions := b.transactions + rows)
    case NewPeriod(p) => b.(periods := b.periods + [p])
    case Recalculate(minDate, maxDate) => Recalculated(b, minDate, maxDate)
    case Close(i, today) => b.(periods := b.periods[i := Closed(b.periods[i], today)])
  }

  ghost predicate Run(states: seq<Books>, events: seq<Event>) {
    && |states| == |events| + 1 && states[0] == Books([], [], [])
    && forall i :: 0 <= i < |events| ==>
         Possible(states[i], events[i]) && states[i + 1] == After(states[i], events[i])
  }

  /** A period aggregated from a source means that source had purchases; an earned amount is the
      expected one. */
  predicate PeriodOk(b: Books, p: Period) {
    && (p.source == InvoiceAggregation ==> b.invoices != [])
    && (p.source == TransactionAggregation ==> b.transactions != [])
    && (p.earned.Some? ==> p.earned == p.expected)
  }

  predicate BooksOk(b: Books) { forall i :: 0 <= i < |b.periods| ==> PeriodOk(b, b.periods[i]) }

  lemma {:induction false} RefreshedAt(b: Books, minDate: int, maxDate: int, i: nat, k: nat)
    requires i <= k < |b.periods| && RefreshedFrom(b, minDate, maxDate, i).Some?
    ensures Affected(b.periods[k], minDate, maxDate) ==> Refreshed(b, b.periods[k]).Some?
    ensures RefreshedFrom(b, minDate, maxDate, i).value[k - i] ==
            if Affected(b.periods[k], minDate, maxDate) then Refreshed(b, b.periods[k]).value else b.periods[k]
    decreases |b.periods| - i
  {
    if i + 1 < |b.periods| {
      RefreshedAt(b, minDate, maxDate, i + 1, if i == k then i + 1 else k);
    }
  }

  lemma RecalculatedAt(b: Books, minDate: int, maxDate: int, k: nat)
    requires k < |b.periods|
    ensures var r := Recalculated(b, minDate, maxDate);
            && |r.periods| == |b.periods| && r.invoices == b.invoices && r.transactions == b.transactions
            && (r.periods[k] == b.periods[k]
                || (Affected(b.periods[k], minDate, maxDate) && Refreshed(b, b.periods[k]) == Some(r.periods[k])))
  {
    if RefreshedFrom(b, minDate, maxDate, 0).Some? { RefreshedAt(b, minDate, maxDate, 0, k); }
  }

  lemma EventKeepsBooks(b: Books, e: Event)
    requires BooksOk(b) && Possible(b, e)
    ensures BooksOk(After(b, e))
  {
    if e.Recalculate? {
      forall k | 0 <= k < |After(b, e).periods| ensures PeriodOk(b, After(b, e).periods[k]) {
        RecalculatedAt(b, e.minDate, e.maxDate, k);
      }
    }
  }

  /** One event never lowers a period's source rank and never alters a period with an earned amount. */
  lemma EventIsForward(b: Books, e: Event, k: nat)
    requires BooksOk(b) && Possible(b, e) && k < |b.periods|
    ensures var a := After(b, e);
            && k < |a.periods| && Rank(b.periods[k].source) <= Rank(a.periods[k].source)
            && (b.periods[k].earned.Some? ==> a.periods[k] == b.periods[k])
  {
    if e.Recalculate? { RecalculatedAt(b, e.minDate, e.maxDate, k); }
  }

  lemma {:induction false} RunKeepsBooks(states: seq<Books>, events: seq<Event>, n: nat)
    requires Run(states, events) && n < |states|
    ensures BooksOk(states[n])
  {
    if n > 0 {
      RunKeepsBooks(states, events, n - 1);
      assert states[n - 1 + 1] == After(states[n - 1], events[n - 1]);
      EventKeepsBooks(states[n - 1], events[n - 1]);
    }
  }

  /** Over any run a period's source only becomes more authoritative; and once it has an earned amount
      the period is final, with the earned amount equal to the expected one. */
  lemma {:induction false} RunsAreForward(states: seq<Books>, events: seq<Event>, m: nat, n: nat, k: nat)
    requires Run(states, events) && m <= n < |states| && k < |states[m].periods|
    ensures k < |states[n].periods| && Rank(states[m].periods[k].source) <= Rank(states[n].periods[k].source)
    ensures states[m].periods[k].source == InvoiceAggregation ==> states[n].periods[k].source == InvoiceAggregation
    ensures states[m].periods[k].source == TransactionAggregation ==> states[n].periods[k].source != Manual
    ensures states[m].periods[k].earned.Some? ==>
              && states[n].periods[k] == states[m].periods[k]
              && states[n].periods[k].earned == states[n].periods[k].expected
    decreases n
  {
    RunKeepsBooks(states, events, n);
    if m < n {
      RunsAreForward(states, events, m, n - 1, k);
      RunKeepsBooks(states, events, n - 1);
      assert states[n - 1 + 1] == After(states[n - 1], events[n - 1]);
      EventIsForward(states[n - 1], events[n - 1], k);
    }
  }

  /** q is p with the best source that has any purchases at all, and the rounded total of that source's
      purchases inside the period; p itself when there are none. */
  predicate HoldsBest(b: Books, p: Period, q: Period) {
    && q.first == p.first && q.last == p.last && q.agreement == p.agreement && q.earned == p.earned
    && (q.source == InvoiceAggregation <==> b.invoices != [])
    && (q.source == TransactionAggregation <==> b.invoices == [] && b.transactions != [])
    && (if q.source == Manual then q == p
        else
          var inside := InPeriod(if b.invoices != [] then b.invoices else b.transactions, p.first, p.last);
          && q.spend == Some(RoundCurrency(Spend(inside))) && q.volume == Some(Quantity(inside))
          && q.expected.Some? && q.expected == ExpectedRebate(p.agreement, q.spend.value))
  }

  lemma RefreshedHoldsBest(b: Books, p: Period)
    requires PeriodOk(b, p) && Refreshed(b, p).Some?
    ensures HoldsBest(b, p, Refreshed(b, p).value)
  {
  }

  /** In any run, whatever came before: after a re-aggregation that succeeds each affected period holds the best
      source with purchases, and every other period is as it was. */
  lemma RecalculationTakesTheBest(states: seq<Books>, events: seq<Event>, n: nat, k: nat)
    requires Run(states, events) && n < |events| && events[n].Recalculate? && k < |states[n].periods|
    requires RefreshedFrom(states[n], events[n].minDate, events[n].maxDate, 0).Some?
    ensures k < |states[n + 1].periods|
    ensures var p, q := states[n].periods[k], states[n + 1].periods[k];
            if Affected(p, events[n].minDate, events[n].maxDate) then HoldsBest(states[n + 1], p, q) else q == p
  {
    var b, e := states[n], events[n];
    RunKeepsBooks(states, events, n);
    assert PeriodOk(b, b.periods[k]);
    RefreshedAt(b, e.minDate, e.maxDate, 0, k);
    if Affected(b.periods[k], e.minDate, e.maxDate) { RefreshedHoldsBest(b, b.periods[k]); }
  }

  lemma RefreshIsStable(b: Books, p: Period)
    requires Refreshed(b, p).Some?
    ensures Refreshed(b, Refreshed(b, p).value) == Refreshed(b, p)
  {
  }

  lemma {:induction false} RecalculationIsStable(b: Books, minDate: int, maxDate: int, i: nat)
    requires i <= |b.periods| && RefreshedFrom(b, minDate, maxDate, 0).Some?
    ensures var r := Recalculated(b, minDate, maxDate);
            |r.periods| == |b.periods| && RefreshedFrom(r, minDate, maxDate, i) == Some(r.periods[i..])
    decreases |b.periods| - i
  {
    var r := Recalculated(b, minDate, maxDate);
    if i < |b.periods| {
      RefreshedAt(b, minDate, maxDate, 0, i);
      RecalculationIsStable(b, minDate, maxDate, i + 1);
      if Affected(b.periods[i], minDate, maxDate) {
        RefreshIsStable(b, b.periods[i]);
        SameBooksSameRefresh(b, r, r.periods[i]);
      }
      assert r.periods[i..] == [r.periods[i]] + r.periods[i + 1..];
    } else {
      assert r.periods[i..] == [];
    }
  }

  lemma SameBooksSameRefresh(a: Books, b: Books, p: Period)
    requires a.invoices == b.invoices && a.transactions == b.transactions
    ensures Refreshed(a, p) == Refreshed(b, p)
  {
  }

  /** Recalculating again without new purchases changes nothing. */
  lemma RecalculatingAgainChangesNothing(b: Books, minDate: int, maxDate: int)
    ensures var r := Recalculated(b, minDate, maxDate); Recalculated(r, minDate, maxDate) == r
  {
    if RefreshedFrom(b, minDate, maxDate, 0).Some? {
      RecalculationIsStable(b, minDate, maxDate, 0);
    }
  }

  // ---------------------------------------------------------------------------
  // The source of a period, if it were chosen by the purchases inside that period.
  // ---------------------------------------------------------------------------

  function Inside(ps: seq<Purchase>, p: Period): seq<Purchase> { InPeriod(ps, p.first, p.last) }

  /** Invoices, then transactions, then the figures entered by hand, judged period by period; no period goes back
      to a source of lower rank. */
  function ChoosePerPeriod(b: Books, p: Period): (Source, seq<Purchase>) {
    if p.source == InvoiceAggregation || Inside(b.invoices, p) != [] then (InvoiceAggregation, Inside(b.invoices, p))
    else if p.source == TransactionAggregation || Inside(b.transactions, p) != [] then
      (TransactionAggregation, Inside(b.transactions, p))
    else (Manual, [])
  }

  function RefreshedPerPeriod(b: Books, p: Period): Option<Period> {
    var (source, inside) := ChoosePerPeriod(b, p);
    if source == Manual then Some(p)
    else
      var spend := RoundCurrency(Spend(inside));
      match ExpectedRebate(p.agreement, spend)
      case None => None
      case Some(rebate) =>
        Some(p.(spend := Some(spend), volume := Some(Quantity(inside)), source := source, expected := Some(rebate)))
  }

  /** Purchases of the source a period is about to move to lie inside it. */
  predicate MoveIsFounded(b: Books, p: Period) {
    && (b.invoices != [] ==> Inside(b.invoices, p) != [])
    && (b.invoices == [] && b.transactions != [] && p.source == Manual ==> Inside(b.transactions, p) != [])
  }

  predicate Evaluable(a: Agreement) { ExpectedRebate(a, 0.0).Some? }

  /** Whether an agreement can be evaluated does not depend on the spend. */
  lemma EvaluableAtAnySpend(a: Agreement, spend: real)
    ensures ExpectedRebate(a, spend).Some? <==> Evaluable(a)
  {
  }

  lemma ChoicesAgreeExactly(b: Books, p: Period)
    ensures (Choose(b, p).0 == ChoosePerPeriod(b, p).0 && Inside(Choose(b, p).1, p) == ChoosePerPeriod(b, p).1)
            <==> p.source == InvoiceAggregation || MoveIsFounded(b, p)
  {
  }

  /** The source is chosen per supplier, not per period. That comes to the same exactly when the period is on
      invoices already, or has an invoice of its own, or the supplier has none at all and the period is either past
      hand-entered figures, or has a transaction of its own, or the supplier has no transactions either. */
  lemma PrecedenceIsPerPeriodExactly(b: Books, p: Period)
    requires Evaluable(p.agreement)
    ensures Refreshed(b, p) == RefreshedPerPeriod(b, p) <==> p.source == InvoiceAggregation || MoveIsFounded(b, p)
  {
    ChoicesAgreeExactly(b, p);
    forall spend: real ensures ExpectedRebate(p.agreement, spend).Some? { EvaluableAtAnySpend(p.agreement, spend); }
    assert Inside(Choose(b, p).1, p) == InPeriod(Choose(b, p).1, p.first, p.last);
  }

  /** What such a move leaves behind: no spend and no volume, whatever transactions the period has and whatever
      was entered by hand. */
  lemma UnfoundedMoveLosesSpend(b: Books, p: Period)
    requires p.source != InvoiceAggregation && Evaluable(p.agreement) && !MoveIsFounded(b, p)
    ensures Refreshed(b, p).Some?
    ensures var q := Refreshed(b, p).value;
            && q.spend == Some(0.0) && q.volume == Some(0.0)
            && q.source == (if b.invoices != [] then InvoiceAggregation else TransactionAggregation)
  {
    ZeroRoundsToZero();
    EvaluableAtAnySpend(p.agreement, 0.0);
  }

  /** One invoice from outside a period moves the period to invoice data, and its transaction spend is replaced
      by nothing. */
  lemma InvoiceElsewhereHidesTransactions(p: Period, t: Purchase, v: Purchase)
    requires p.source != InvoiceAggregation && Evaluable(p.agreement)
    requires p.first <= t.day <= p.last && !(p.first <= v.day <= p.last)
    ensures var b := Books([v], [t], [p]);
            && Refreshed(b, p).Some? && Refreshed(b, p).value.spend == Some(0.0)
            && RefreshedPerPeriod(b, p).Some? && RefreshedPerPeriod(b, p).value.spend == Some(RoundCurrency(t.amount))
  {
    var b := Books([v], [t], [p]);
    InsideOne(v, p);
    InsideOne(t, p);
    UnfoundedMoveLosesSpend(b, p);
    EvaluableAtAnySpend(p.agreement, RoundCurrency(t.amount));
  }

  lemma InsideOne(v: Purchase, p: Period)
    ensures Inside([v], p) == if p.first <= v.day <= p.last then [v] else []
    ensures Spend([v]) == v.amount
  {
    assert [v][1..] == [] && InPeriod([], p.first, p.last) == [];
    assert [v] + [] == [v];
  }

  /** Without any invoice, one transaction from outside a period replaces the spend entered by hand by nothing. */
  lemma TransactionElsewhereReplacesManual(p: Period, t: Purchase)
    requires p.source == Manual && Evaluable(p.agreement) && !(p.first <= t.day <= p.last)
    ensures var b := Books([], [t], [p]);
            && Refreshed(b, p).Some? && Refreshed(b, p).value.spend == Some(0.0)
            && RefreshedPerPeriod(b, p) == Some(p)
  {
    InsideOne(t, p);
    UnfoundedMoveLosesSpend(Books([], [t], [p]), p);
  }
}
