/** The service writers that append to the evidence ledger.  A LedgerSession is one transaction's view
    of the tables; its methods issue the statements the services issue, and the lemmas beside it show
    which of these transactions the constraints accept. */
module EvidenceServices {
  import opened Sql
  import opened CheckExpressions
  import opened EvidenceSchema
  import opened EvidenceTriggers
  import opened EvidenceTransactions
  import opened EvidenceConcurrency
  import Rebates
  import Rounding

  // ---------------------------------------------------------------------------
  // The event writer, as a function on transactions.
  // ---------------------------------------------------------------------------

  /** coalesce(max(event_version), 0) over one log. */
  ghost function LastVersion(events: map<int, Event>, p: ParentId, m: Measure): int {
    var latest := LatestId(events, p, m);
    if latest.Some? && latest.value in events then events[latest.value].version else 0
  }

  /** The event a writer inserts: a first event records no past, a later one copies the row's columns. */
  function EventFor(p: ParentId, row: ParentRow, m: Measure, version: int, after: Facts, reason: Reason): Event {
    Event(row.org, if p.Rebate? then Some(p.id) else None, if p.Rebate? then None else Some(p.id),
          m, version, if version == 1 then EMPTY else FactsOf(row, m), after, reason)
  }

  /** The row after its snapshot columns and its pointer have been set. */
  function Pointed(row: ParentRow, m: Measure, after: Facts, id: int): ParentRow {
    match row
    case RebateRow(_, _, _, _, _) => row.(expected := Visible(m, after), expectedEvent := Some(id))
    case OpportunityRow(_, _, _, _, _, _) =>
      if m == AnnualFinancialImpact then row.(impact := Visible(m, after), impactEvent := Some(id))
      else row.(savings := Visible(m, after), savingsEvent := Some(id))
  }

  ghost function WriteEvent(w: Work, p: ParentId, m: Measure, id: int, after: Facts, reason: Reason): Work
    requires p in w.db.parents
  {
    var row := w.db.parents[p];
    var e := EventFor(p, row, m, LastVersion(w.db.events, p, m) + 1, after, reason);
    Apply(Apply(w, InsertEvent(id, e)), UpdateParent(p, Pointed(row, m, after, id)))
  }

  const UNKNOWN := EMPTY.(status := Some(Unknown))

  /** What recalculate_expected records for a computed rebate. */
  function ExpectedFacts(computed: Option<int>, now: int): Facts {
    if computed.None? then UNKNOWN
    else Facts(computed, Some(Calculated), Some(ContractTermsCalculation), Some(now), None, None, None, None)
  }

  /** A Numeric(18,4) column holds a number of ten-thousandths. */
  function Stored(x: real): int { Rounding.HalfEven(Rounding.Times(x, Rounding.CURRENCY)) }

  function Loaded(units: int): real { Rounding.Over(units as real, Rounding.CURRENCY) }

  /** _compute_expected_amount: nothing without a spend; the outer None stands for the ValueError of an
      incomplete agreement. */
  function ComputeExpected(a: Rebates.Agreement, spend: Option<int>): (r: Option<Option<int>>)
    ensures r.Some? && r.value.Some? ==>
              spend.Some? && Rebates.ExpectedRebate(a, Loaded(spend.value)) == Some(Loaded(r.value.value))
    ensures r.Some? && r.value.None? <==> spend.None?
  {
    if spend.None? then Some(None)
    else match Rebates.ExpectedRebate(a, Loaded(spend.value))
      case None => None
      case Some(rebate) =>
        assert Loaded(Stored(rebate)) == rebate by { RebateIsWhole(a, Loaded(spend.value)); }
        Some(Some(Stored(rebate)))
  }

  /** The columns state the rebate the agreement gives for the spend, worked out at the time given; without a spend
      they state that it is unknown, and nothing else. */
  predicate StatesRebate(f: Facts, a: Rebates.Agreement, spend: Option<int>, now: int) {
    && (f.amount.Some? <==> spend.Some?) && (f.calculatedAt.Some? <==> spend.Some?) && (f.basis.Some? <==> spend.Some?)
    && (spend.Some? ==>
          && Rebates.ExpectedRebate(a, Loaded(spend.value)) == Some(Loaded(f.amount.value))
          && f.status == Some(Calculated) && f.basis == Some(ContractTermsCalculation) && f.calculatedAt == Some(now))
    && (spend.None? ==> f.status == Some(Unknown))
    && f.approvedAt.None? && f.approvedBy.None? && f.periodStart.None? && f.periodEnd.None?
  }

  /** A period whose row, and whose event of that identity, state the rebate for its spend. */
  ghost predicate RecordsRebate(db: Db, p: ParentId, id: int, a: Rebates.Agreement, spend: Option<int>, now: int) {
    && p in db.parents && db.parents[p].RebateRow? && db.parents[p].spend == spend
    && StatesRebate(db.parents[p].expected, a, spend, now) && db.parents[p].expectedEvent == Some(id)
    && id in db.events && InLog(db.events[id], p, ExpectedAmount) && StatesRebate(db.events[id].after, a, spend, now)
  }

  lemma WriteRecordsRebate(w: Work, p: ParentId, id: int, a: Rebates.Agreement, computed: Option<int>, now: int,
      reason: Reason)
    requires p in w.db.parents && p.Rebate? && w.db.parents[p].RebateRow?
    requires ComputeExpected(a, w.db.parents[p].spend) == Some(computed)
    ensures RecordsRebate(WriteEvent(w, p, ExpectedAmount, id, ExpectedFacts(computed, now), reason).db, p, id, a,
                          w.db.parents[p].spend, now)
  {
  }

  /** A computed rebate is a whole number of ten-thousandths, so storing it loses nothing. */
  lemma RebateIsWhole(a: Rebates.Agreement, spend: real)
    requires Rebates.ExpectedRebate(a, spend).Some?
    ensures Loaded(Stored(Rebates.ExpectedRebate(a, spend).value)) == Rebates.ExpectedRebate(a, spend).value
  {
    forall x: real ensures Loaded(Stored(Rounding.RoundCurrency(x))) == Rounding.RoundCurrency(x) {
      Rounding.OverTimes(Rounding.HalfEven(Rounding.Times(x, Rounding.CURRENCY)) as real, Rounding.CURRENCY);
      Rounding.HalfEvenOfInteger(Rounding.HalfEven(Rounding.Times(x, Rounding.CURRENCY)));
    }
    Rebates.ZeroRoundsToZero();
  }

  function ImpactFacts(amount: Option<int>, from: Option<int>): Facts {
    if amount.None? then UNKNOWN else Facts(amount, Some(Estimated), Some(ManualEstimate), None, None, None, from, None)
  }

  function SavingsFacts(amount: int, now: int, user: int, first: int, last: int): Facts {
    Facts(Some(amount), Some(Confirmed), Some(ReconciledActuals), None, Some(now), Some(user), Some(first), Some(last))
  }

  // ---------------------------------------------------------------------------
  // The session.
  // ---------------------------------------------------------------------------

  class LedgerSession {
    var db: Db
    var queue: seq<Firing>
    var nextId: int      // the identity sequences

    ghost predicate Valid()
      reads this
    {
      && (forall i :: i in db.events ==> i < nextId && db.events[i].version > 0)
      && (forall i :: i in db.evidence ==> i < nextId)
      && (forall p :: p in db.parents ==> p.id < nextId && Fits(p, db.parents[p]))
    }

    ghost function State(): Work
      reads this
    {
      Work(db, queue)
    }

    /** select(func.max(event_version)), plus one. */
    method NextVersion(p: ParentId, m: Measure) returns (version: int)
      requires Valid()
      ensures version == LastVersion(db.events, p, m) + 1
    {
      var current := 0;
      var rest: set<int> := db.events.Keys;
      while rest != {}
        invariant rest <= db.events.Keys
        invariant forall i :: i in db.events && i !in rest && InLog(db.events[i], p, m) ==>
                    db.events[i].version <= current
        invariant current == 0 || HasVersion(db.events, p, m, current)
        invariant 0 <= current
      {
        EmptyOrInhabited(rest);
        var i :| i in rest;
        rest := rest - {i};
        if InLog(db.events[i], p, m) && db.events[i].version > current {
          current := db.events[i].version;
        }
      }
      GreatestIsLast(db.events, p, m, current);
      version := current + 1;
    }

    /** _write_expected_amount_event and _write_opportunity_measure_event, on a freshly read row. */
    method WriteMeasureEvent(p: ParentId, m: Measure, after: Facts, reason: Reason) returns (id: int)
      requires Valid() && p in db.parents && Governs(p, m)
      modifies this
      ensures Valid() && id == old(nextId) && nextId == old(nextId) + 1
      ensures State() == WriteEvent(old(State()), p, m, id, after, reason)
    {
      var locked := db.parents[p];
      var version := NextVersion(p, m);
      LastVersionIsCounted(db.events, p, m);
      id := nextId;
      nextId := nextId + 1;
      db := db.(events := db.events[id := EventFor(p, locked, m, version, after, reason)]);
      queue := queue + [EventFiring(id)];
      var row := Pointed(locked, m, after, id);
      db := db.(parents := db.parents[p := row]);
      queue := queue + [ParentFiring(p, row)];
    }

    method InsertRow(p: ParentId, row: ParentRow)
      requires Valid() && p.id == nextId && Fits(p, row)
      modifies this
      ensures Valid() && nextId == old(nextId) + 1
      ensures State() == Apply(old(State()), InsertParent(p, row))
    {
      db := db.(parents := db.parents[p := row]);
      queue := queue + [ParentFiring(p, row)];
      nextId := nextId + 1;
    }

    method AttachEvidence(event: int, org: int, kind: EvidenceKind)
      requires Valid()
      modifies this
      ensures Valid() && nextId == old(nextId) + 1
      ensures State() == Apply(old(State()), InsertEvidence(old(nextId), Evidence(org, event, kind)))
    {
      db := db.(evidence := db.evidence[nextId := Evidence(org, event, kind)]);
      nextId := nextId + 1;
    }

    /** recalculate_expected; false stands for the ValueError, before anything is written. */
    method RecalculateExpected(p: ParentId, agreement: Rebates.Agreement, now: int, reason: Reason) returns (ok: bool)
      requires Valid() && p in db.parents && p.Rebate?
      modifies this
      ensures Valid()
      ensures old(db.parents[p]).RebateRow?
      ensures ok <==> ComputeExpected(agreement, old(db.parents[p]).spend).Some?
      ensures !ok ==> State() == old(State())
      ensures ok ==>
                var computed := ComputeExpected(agreement, old(db.parents[p]).spend).value;
                State() ==
                WriteEvent(old(State()), p, ExpectedAmount, old(nextId), ExpectedFacts(computed, now), reason)
      ensures ok ==> RecordsRebate(db, p, old(nextId), agreement, old(db.parents[p]).spend, now)
    {
      assert Fits(p, db.parents[p]);
      ghost var before := State();
      var computed := ComputeExpected(agreement, db.parents[p].spend);
      if computed.None? {
        return false;
      }
      var id := WriteMeasureEvent(p, ExpectedAmount, ExpectedFacts(computed.value, now), reason);
      WriteRecordsRebate(before, p, id, agreement, computed.value, now, reason);
      ok := true;
    }

    /** record_period_actual: the new row, then its first event; after the ValueError of an incomplete
        agreement the transaction is rolled back. */
    method RecordPeriodActual(org: int, spend: Option<int>, agreement: Rebates.Agreement, now: int)
      returns (p: ParentId, ok: bool)
      requires Valid()
      modifies this
      ensures Valid() && p == Rebate(old(nextId))
      ensures ok <==> ComputeExpected(agreement, spend).Some?
      ensures ok ==>
                var computed := ComputeExpected(agreement, spend).value;
                State() == NewPeriod(old(State()), old(nextId), org, spend, computed, now)
      ensures ok ==> RecordsRebate(db, p, old(nextId) + 1, agreement, spend, now)
    {
      p := Rebate(nextId);
      InsertRow(p, RebateRow(org, UNKNOWN, None, spend, None));
      ok := RecalculateExpected(p, agreement, now, ManualEntry);
    }

    /** create_opportunity; an estimate without its starting date is refused before any statement. */
    method CreateOpportunity(org: int, amount: Option<int>, from: Option<int>) returns (created: Option<ParentId>)
      requires Valid()
      modifies this
      ensures Valid()
      ensures created.None? <==> amount.Some? && from.None?
      ensures created.None? ==> State() == old(State())
      ensures created.Some? ==> created.value == Opportunity(old(nextId))
      ensures created.Some? ==> State() == NewOpportunity(old(State()), old(nextId), org, amount, from)
    {
      if amount.Some? && from.None? {
        return None;
      }
      var p := Opportunity(nextId);
      InsertRow(p, OpportunityRow(org, UNKNOWN, None, UNKNOWN, None, Identified));
      var _ := WriteMeasureEvent(p, AnnualFinancialImpact, ImpactFacts(amount, from), ManualEntry);
      var _ := WriteMeasureEvent(p, RealisedSavings, UNKNOWN, ManualEntry);
      created := Some(p);
    }

    /** record_realised_savings: the confirmed event, its three evidence rows, the waterfall stage. */
    method RecordRealisedSavings(p: ParentId, org: int, amount: int, now: int, user: int, first: int, last: int)
      returns (ok: bool)
      requires Valid() && p in db.parents && p.Opportunity?
      modifies this
      ensures Valid()
      ensures ok <==> old(db.parents[p].stage) == Implementation && first <= last
      ensures !ok ==> State() == old(State())
      ensures ok ==>
                State() == Realise(old(State()), p, old(nextId), org, SavingsFacts(amount, now, user, first, last))
    {
      if db.parents[p].stage != Implementation || first > last {
        return false;
      }
      var id := WriteMeasureEvent(p, RealisedSavings, SavingsFacts(amount, now, user, first, last), EvidenceReceived);
      AttachEvidence(id, org, DocumentedBaseline);
      AttachEvidence(id, org, ActualCostSource);
      AttachEvidence(id, org, VarianceCalculationReference);
      SetStage(p, Stage.Realised);
      ok := true;
    }

    method SetStage(p: ParentId, stage: Stage)
      requires Valid() && p in db.parents && p.Opportunity?
      modifies this`db, this`queue
      ensures Valid()
      ensures State() == Apply(old(State()), UpdateParent(p, old(db.parents[p]).(stage := stage)))
    {
      var row := db.parents[p].(stage := stage);
      db := db.(parents := db.parents[p := row]);
      queue := queue + [ParentFiring(p, row)];
    }
  }

  lemma EmptyOrInhabited(s: set<int>)
    ensures s == {} || exists i :: i in s
  {
    if forall i :: i !in s { assert s == {}; }
  }

  lemma GreatestIsLast(events: map<int, Event>, p: ParentId, m: Measure, n: int)
    requires forall i :: i in events ==> events[i].version > 0
    requires forall i :: i in events && InLog(events[i], p, m) ==> events[i].version <= n
    requires n == 0 || HasVersion(events, p, m, n)
    ensures LastVersion(events, p, m) == n
  {
    if n != 0 {
      var i :| i in events && InLog(events[i], p, m) && events[i].version == n;
      assert IsLatest(events, p, m, i);
    }
  }

  lemma LastVersionIsCounted(events: map<int, Event>, p: ParentId, m: Measure)
    requires forall i :: i in events ==> events[i].version > 0
    ensures LastVersion(events, p, m) >= 0
    ensures forall i :: i in events && InLog(events[i], p, m) ==> events[i].version <= LastVersion(events, p, m)
    ensures LastVersion(events, p, m) == 0 <==> !(exists i :: i in events && InLog(events[i], p, m))
  {
    if i :| i in events && InLog(events[i], p, m) {
      LatestExists(events, p, m, i);
    }
  }

  // ---------------------------------------------------------------------------
  // The services, as functions on transactions.
  // ---------------------------------------------------------------------------

  ghost function NewPeriod(w: Work, n: int, org: int, spend: Option<int>, computed: Option<int>, now: int): Work {
    var p := Rebate(n);
    WriteEvent(Apply(w, InsertParent(p, RebateRow(org, UNKNOWN, None, spend, None))), p, ExpectedAmount, n + 1,
               ExpectedFacts(computed, now), ManualEntry)
  }

  ghost function NewOpportunity(w: Work, n: int, org: int, amount: Option<int>, from: Option<int>): Work {
    var p := Opportunity(n);
    var inserted := Apply(w, InsertParent(p, OpportunityRow(org, UNKNOWN, None, UNKNOWN, None, Identified)));
    WriteEvent(WriteEvent(inserted, p, AnnualFinancialImpact, n + 1, ImpactFacts(amount, from), ManualEntry),
               p, RealisedSavings, n + 2, UNKNOWN, ManualEntry)
  }

  ghost function WithEvidence(w: Work, id: int, n: int, org: int): Work {
    Apply(Apply(Apply(w, InsertEvidence(n, Evidence(org, id, DocumentedBaseline))),
                InsertEvidence(n + 1, Evidence(org, id, ActualCostSource))),
          InsertEvidence(n + 2, Evidence(org, id, VarianceCalculationReference)))
  }

  ghost function Realise(w: Work, p: ParentId, id: int, org: int, after: Facts): Work
    requires p in w.db.parents && p.Opportunity? && w.db.parents[p].OpportunityRow?
  {
    var written := WithEvidence(WriteEvent(w, p, RealisedSavings, id, after, EvidenceReceived), id, id + 1, org);
    Apply(written, UpdateParent(p, written.db.parents[p].(stage := Stage.Realised)))
  }
}
