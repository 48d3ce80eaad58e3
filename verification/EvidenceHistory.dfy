/** Whole histories of the ledger: the backfill that starts it on existing tables, and any sequence of
    service calls after that. */
module EvidenceHistory {
  import opened Sql
  import opened CheckExpressions
  import opened EvidenceSchema
  import opened EvidenceTriggers
  import opened EvidenceTransactions
  import opened EvidenceConcurrency
  import opened EvidenceServices
  import opened EvidenceAcceptance
  import Rebates

  // ---------------------------------------------------------------------------
  // The backfill of migration 0021.
  // ---------------------------------------------------------------------------

  /** A row as it stood before the migration: an amount, perhaps, and nothing about its evidence. */
  predicate Legacy(p: ParentId, row: ParentRow) {
    && Fits(p, row)
    && (forall m | m in {ExpectedAmount, AnnualFinancialImpact, RealisedSavings} && Governs(p, m) ::
          FactsOf(row, m) == EMPTY.(amount := FactsOf(row, m).amount) && PointerOf(row, m).None?)
  }

  function BackfilledFacts(f: Facts): Facts {
    EMPTY.(amount := f.amount, status := Some(if f.amount.None? then Unknown else LegacyUnverified))
  }

  /** The amount, and nothing said for it. */
  predicate IsMarked(f: Facts, amount: Option<int>) {
    && f.amount == amount && f.status == Some(if amount.Some? then LegacyUnverified else Unknown)
    && f.basis.None? && f.calculatedAt.None? && f.approvedAt.None? && f.approvedBy.None?
    && f.periodStart.None? && f.periodEnd.None?
  }

  function Genesis(p: ParentId, row: ParentRow, m: Measure): Event {
    EventFor(p, row, m, 1, BackfilledFacts(FactsOf(row, m)), InitialBackfill)
  }

  function BackfilledMeasure(p: ParentId, row: ParentRow, m: Measure, id: Slot -> int): ParentRow {
    Pointed(row, m, BackfilledFacts(FactsOf(row, m)), id((p, m)))
  }

  function BackfilledRow(p: ParentId, row: ParentRow, id: Slot -> int): ParentRow {
    match p
    case Rebate(_) => BackfilledMeasure(p, row, ExpectedAmount, id)
    case Opportunity(_) =>
      BackfilledMeasure(p, BackfilledMeasure(p, row, AnnualFinancialImpact, id), RealisedSavings, id)
  }

  /** `events` holds one version-1 event per governed measure of every legacy row, and nothing else;
      the identity sequence has given the event of each log the number id. */
  ghost predicate IsBackfill(legacy: map<ParentId, ParentRow>, id: Slot -> int, db: Db) {
    && db.evidence == map[]
    && db.parents.Keys == legacy.Keys
    && (forall p :: p in legacy ==> db.parents[p] == BackfilledRow(p, legacy[p], id))
    && (forall p, m :: p in legacy && Governs(p, m) ==>
         id((p, m)) in db.events && db.events[id((p, m))] == Genesis(p, legacy[p], m))
    && (forall i :: i in db.events ==> exists s: Slot :: s.0 in legacy && Governs(s.0, s.1) && id(s) == i)
  }

  lemma BackfilledFactsAreLegal(m: Measure, f: Facts)
    requires !m.OtherMeasure?
    ensures EventStateAllowed(m, BackfilledFacts(f)) && StatusInVocabulary(m, BackfilledFacts(f).status.value)
    ensures Visible(m, BackfilledFacts(f)) == BackfilledFacts(f)
    ensures SnapshotChecks(m, BackfilledFacts(f))
    ensures Tier(BackfilledFacts(f).status).value <= 1
  {
  }

  lemma BackfilledRowShows(p: ParentId, row: ParentRow, id: Slot -> int, m: Measure)
    requires Legacy(p, row) && Governs(p, m)
    ensures var r := BackfilledRow(p, row, id);
            && Fits(p, r) && r.org == row.org && PointerOf(r, m) == Some(id((p, m)))
            && FactsOf(r, m) == BackfilledFacts(FactsOf(row, m))
  {
    BackfilledFactsAreLegal(m, FactsOf(row, m));
  }

  lemma BackfilledEvent(legacy: map<ParentId, ParentRow>, id: Slot -> int, db: Db, i: int) returns (s: Slot)
    requires IsBackfill(legacy, id, db) && i in db.events
    ensures s.0 in legacy && Governs(s.0, s.1) && id(s) == i && ParentOf(db.events[i]) == s.0
            && db.events[i].measure == s.1
    ensures EventOrdered(db, i) && EvidenceTrigger(db.evidence, i, db.events[i])
  {
    s :| s.0 in legacy && Governs(s.0, s.1) && id(s) == i;
    assert s == (s.0, s.1);
    assert id((s.0, s.1)) in db.events && db.events[id((s.0, s.1))] == Genesis(s.0, legacy[s.0], s.1);
    BackfilledFactsAreLegal(s.1, FactsOf(legacy[s.0], s.1));
  }

  lemma BackfilledSlot(legacy: map<ParentId, ParentRow>, id: Slot -> int, db: Db, p: ParentId, m: Measure)
    requires IsBackfill(legacy, id, db) && p in legacy && Legacy(p, legacy[p]) && Governs(p, m)
    ensures SlotOrdered(db, p, m, {}) && SnapshotChecks(m, FactsOf(db.parents[p], m)) && Fits(p, db.parents[p])
    ensures PointerOf(db.parents[p], m) == Some(id((p, m))) && id((p, m)) in db.events
    ensures IsMarked(FactsOf(db.parents[p], m), FactsOf(legacy[p], m).amount)
    ensures IsMarked(db.events[id((p, m))].after, FactsOf(legacy[p], m).amount)
  {
    BackfilledRowShows(p, legacy[p], id, m);
    BackfilledFactsAreLegal(m, FactsOf(legacy[p], m));
    assert id((p, m)) in db.events && db.events[id((p, m))] == Genesis(p, legacy[p], m);
    forall j | j in db.events && InLog(db.events[j], p, m) ensures j == id((p, m)) {
      var s := BackfilledEvent(legacy, id, db, j);
      InLogIsParentOf(db.events[j], p, m);
    }
  }

  /** The backfill invents nothing: amounts are kept, and each is marked unknown or unverified, without a basis, a
      date or an approval, in the row and in its first event. It leaves the ledger in order, so every later
      transaction starts from tables in order. */
  lemma BackfillStartsTheLedger(legacy: map<ParentId, ParentRow>, id: Slot -> int, db: Db)
    requires IsBackfill(legacy, id, db)
    requires forall p :: p in legacy ==> Legacy(p, legacy[p])
    ensures ServiceLedger(db) && NeverConfirmed(db)
    ensures forall p, m :: p in legacy && Governs(p, m) ==>
              && p in db.parents && id((p, m)) in db.events && PointerOf(db.parents[p], m) == Some(id((p, m)))
              && IsMarked(FactsOf(db.parents[p], m), FactsOf(legacy[p], m).amount)
              && IsMarked(db.events[id((p, m))].after, FactsOf(legacy[p], m).amount)
  {
    forall i | i in db.events ensures EventOrdered(db, i) && EvidenceTrigger(db.evidence, i, db.events[i]) {
      var _ := BackfilledEvent(legacy, id, db, i);
    }
    forall i, j | i in db.events && j in db.events && SameSlot(db.events[i], db.events[j]) ensures i == j {
      var _ := BackfilledEvent(legacy, id, db, i);
      var _ := BackfilledEvent(legacy, id, db, j);
    }
    forall p, m | p in legacy && Governs(p, m)
      ensures SlotOrdered(db, p, m, {})
      ensures p in db.parents && id((p, m)) in db.events && PointerOf(db.parents[p], m) == Some(id((p, m)))
      ensures IsMarked(FactsOf(db.parents[p], m), FactsOf(legacy[p], m).amount)
      ensures IsMarked(db.events[id((p, m))].after, FactsOf(legacy[p], m).amount)
    {
      BackfilledSlot(legacy, id, db, p, m);
    }
    forall p | p in db.parents ensures RowChecks(p, db.parents[p]) {
      forall m | m in {ExpectedAmount, AnnualFinancialImpact, RealisedSavings} && Governs(p, m)
        ensures SnapshotChecks(m, FactsOf(db.parents[p], m))
      {
        BackfilledSlot(legacy, id, db, p, m);
      }
      BackfilledSlot(legacy, id, db, p, if p.Rebate? then ExpectedAmount else RealisedSavings);
    }
  }

  // ---------------------------------------------------------------------------
  // Sequences of service calls.
  // ---------------------------------------------------------------------------

  datatype Call =
    | RecordPeriod(org: int, spend: Option<int>, computed: Option<int>, at: int)
    | Recalculate(p: ParentId, newSpend: int, amount: int, at: int)
    | Close(p: ParentId)
    | Create(org: int, estimate: Option<int>, from: Option<int>)
    | Advance(p: ParentId, stage: Stage)
    | RealiseSavings(p: ParentId, amount: int, at: int, user: int, first: int, last: int)

  /** What a call demands of its arguments and of the row it works on. */
  predicate Callable(db: Db, c: Call) {
    match c
    case RecordPeriod(_, _, _, _) => true
    case Recalculate(p, _, _, _) => p in db.parents && p.Rebate? && db.parents[p].RebateRow?
    case Close(p) => p in db.parents && p.Rebate? && db.parents[p].RebateRow? && db.parents[p].earned.None?
    case Create(_, estimate, from) => estimate.Some? ==> from.Some?
    case Advance(p, _) => p in db.parents && p.Opportunity? && db.parents[p].OpportunityRow?
    case RealiseSavings(p, _, _, _, first, last) =>
      && p in db.parents && p.Opportunity? && db.parents[p].OpportunityRow?
      && db.parents[p].stage == Implementation && first <= last
  }

  ghost function Perform(db: Db, n: int, c: Call): Work
    requires Callable(db, c)
  {
    var w := Work(db, []);
    match c
    case RecordPeriod(org, spend, computed, at) => NewPeriod(w, n, org, spend, computed, at)
    case Recalculate(p, newSpend, amount, at) =>
      WriteEvent(Apply(w, UpdateParent(p, db.parents[p].(spend := Some(newSpend)))), p, ExpectedAmount, n,
                 ExpectedFacts(Some(amount), at), Recalculation)
    case Close(p) => Apply(w, UpdateParent(p, db.parents[p].(earned := db.parents[p].expected.amount)))
    case Create(org, estimate, from) => NewOpportunity(w, n, org, estimate, from)
    case Advance(p, stage) => Apply(w, UpdateParent(p, db.parents[p].(stage := stage)))
    case RealiseSavings(p, amount, at, user, first, last) =>
      Realise(w, p, n, db.parents[p].org, SavingsFacts(amount, at, user, first, last))
  }

  // ---------------------------------------------------------------------------
  // What a call leaves, column by column.
  // ---------------------------------------------------------------------------

  predicate StatesExpected(f: Facts, amount: Option<int>, at: int) {
    && f.amount == amount
    && (amount.Some? ==> f.status == Some(Calculated) && f.calculatedAt == Some(at))
    && (amount.None? ==> f.status == Some(Unknown) && f.calculatedAt.None?)
  }

  predicate StatesEstimate(f: Facts, amount: Option<int>, from: Option<int>) {
    && f.amount == amount
    && (amount.Some? ==> f.status == Some(Estimated) && f.basis == Some(ManualEstimate) && f.periodStart == from)
    && (amount.None? ==> f.status == Some(Unknown) && f.basis.None? && f.periodStart.None?)
  }

  predicate StatesSavings(f: Facts, amount: int, at: int, user: int, first: int, last: int) {
    && f.amount == Some(amount) && f.status == Some(Confirmed) && f.basis == Some(ReconciledActuals)
    && f.approvedAt == Some(at) && f.approvedBy == Some(user)
    && f.periodStart == Some(first) && f.periodEnd == Some(last)
  }

  /** The row the call works on, and its new events, n being the first new identity. */
  ghost predicate Did(before: Db, after: Db, n: int, c: Call)
    requires Callable(before, c)
  {
    match c
    case RecordPeriod(org, spend, computed, at) =>
      && Rebate(n) in after.parents && n + 1 in after.events
      && (match after.parents[Rebate(n)]
          case RebateRow(o, f, e, s, d) =>
            o == org && s == spend && d.None? && e == Some(n + 1) && StatesExpected(f, computed, at)
          case _ => false)
      && StatesExpected(after.events[n + 1].after, computed, at)
    case Recalculate(p, newSpend, amount, at) =>
      && p in after.parents && n in after.events
      && (match after.parents[p]
          case RebateRow(o, f, e, s, d) =>
            && o == before.parents[p].org && s == Some(newSpend) && d == before.parents[p].earned && e == Some(n)
            && StatesExpected(f, Some(amount), at)
          case _ => false)
      && StatesExpected(after.events[n].after, Some(amount), at)
    case Close(p) =>
      && p in after.parents
      && after.parents[p] == before.parents[p].(earned := before.parents[p].expected.amount)
    case Create(org, estimate, from) =>
      && Opportunity(n) in after.parents && n + 1 in after.events && n + 2 in after.events
      && (match after.parents[Opportunity(n)]
          case OpportunityRow(o, f, e, g, h, stage) =>
            && o == org && e == Some(n + 1) && h == Some(n + 2) && stage == Identified
            && StatesEstimate(f, estimate, from) && g == UNKNOWN
          case _ => false)
      && StatesEstimate(after.events[n + 1].after, estimate, from) && after.events[n + 2].after == UNKNOWN
    case Advance(p, stage) => p in after.parents && after.parents[p] == before.parents[p].(stage := stage)
    case RealiseSavings(p, amount, at, user, first, last) =>
      && p in after.parents && n in after.events
      && (match after.parents[p]
          case OpportunityRow(o, f, e, g, h, stage) =>
            && o == before.parents[p].org && f == before.parents[p].impact && e == before.parents[p].impactEvent
            && h == Some(n) && stage == Stage.Realised && StatesSavings(g, amount, at, user, first, last)
          case _ => false)
      && StatesSavings(after.events[n].after, amount, at, user, first, last)
  }

  /** The row a call works on or creates. */
  function Target(n: int, c: Call): ParentId {
    match c
    case RecordPeriod(_, _, _, _) => Rebate(n)
    case Recalculate(p, _, _, _) => p
    case Close(p) => p
    case Create(_, _, _) => Opportunity(n)
    case Advance(p, _) => p
    case RealiseSavings(p, _, _, _, _, _) => p
  }

  /** A call records exactly what it was given, on its own row and in new events; it touches no other row and no event
      that was there before. */
  lemma CallRecords(db: Db, n: int, c: Call)
    requires FreshFrom(db, n) && Callable(db, c)
    ensures Did(db, Perform(db, n, c).db, n, c) && KeepsOthers(db, Perform(db, n, c).db, Target(n, c))
  {
    CallDoes(db, n, c);
    CallKeepsOthers(db, n, c);
  }

  ghost predicate KeepsOthers(before: Db, after: Db, p: ParentId) {
    && (forall q :: q in before.parents && q != p ==> q in after.parents && after.parents[q] == before.parents[q])
    && (forall i :: i in before.events ==> i in after.events && after.events[i] == before.events[i])
  }

  lemma CallDoes(db: Db, n: int, c: Call)
    requires FreshFrom(db, n) && Callable(db, c)
    ensures Did(db, Perform(db, n, c).db, n, c)
  {
  }

  lemma CallKeepsOthers(db: Db, n: int, c: Call)
    requires FreshFrom(db, n) && Callable(db, c)
    ensures KeepsOthers(db, Perform(db, n, c).db, Target(n, c))
  {
  }

  /** So with the rebate an agreement gives: a recalculated period, and a new one, states exactly that. */
  lemma CallRecordsRebate(db: Db, n: int, c: Call, a: Rebates.Agreement)
    requires FreshFrom(db, n) && Callable(db, c)
    ensures c.Recalculate? && ComputeExpected(a, Some(c.newSpend)) == Some(Some(c.amount)) ==>
              RecordsRebate(Perform(db, n, c).db, c.p, n, a, Some(c.newSpend), c.at)
    ensures c.RecordPeriod? && ComputeExpected(a, c.spend) == Some(c.computed) ==>
              RecordsRebate(Perform(db, n, c).db, Rebate(n), n + 1, a, c.spend, c.at)
  {
    var w := Work(db, []);
    if c.Recalculate? && ComputeExpected(a, Some(c.newSpend)) == Some(Some(c.amount)) {
      var touched := Apply(w, UpdateParent(c.p, db.parents[c.p].(spend := Some(c.newSpend))));
      WriteRecordsRebate(touched, c.p, n, a, Some(c.amount), c.at, Recalculation);
    }
    if c.RecordPeriod? && ComputeExpected(a, c.spend) == Some(c.computed) {
      var inserted := Apply(w, InsertParent(Rebate(n), RebateRow(c.org, UNKNOWN, None, c.spend, None)));
      WriteRecordsRebate(inserted, Rebate(n), n + 1, a, c.computed, c.at, ManualEntry);
    }
  }

  /** No service confirms an expected amount. */
  predicate NeverConfirmed(db: Db) {
    forall p :: p in db.parents && p.Rebate? ==> FactsOf(db.parents[p], ExpectedAmount).status != Some(Confirmed)
  }

  lemma RecalculationAfterTouch(w: Work, p: ParentId, n: int, amount: int, at: int)
    requires ServiceLedger(w.db) && NeverConfirmed(w.db) && FreshFrom(w.db, n) && p in w.db.parents && p.Rebate?
    ensures var v := WriteEvent(w, p, ExpectedAmount, n, ExpectedFacts(Some(amount), at), Recalculation);
            Accepted(v) && ServiceLedger(v.db)
  {
    var v := WriteEvent(w, p, ExpectedAmount, n, ExpectedFacts(Some(amount), at), Recalculation);
    RecalculationAccepted(w.db, p, n, Some(amount), at);
    assert v.db == WriteEvent(Work(w.db, []), p, ExpectedAmount, n, ExpectedFacts(Some(amount), at), Recalculation).db;
    ServiceLedgerIsOk(v.db);
    OrderIsAccepted(v);
  }

  lemma RecalculationCommits(db: Db, n: int, p: ParentId, newSpend: int, amount: int, at: int)
    requires ServiceLedger(db) && NeverConfirmed(db) && FreshFrom(db, n)
             && Callable(db, Recalculate(p, newSpend, amount, at))
    ensures var w := Perform(db, n, Recalculate(p, newSpend, amount, at)); Accepted(w) && ServiceLedger(w.db)
  {
    var row := db.parents[p].(spend := Some(newSpend));
    UngovernedUpdateKeepsOrder(Work(db, []), p, row);
    RecalculationAfterTouch(Apply(Work(db, []), UpdateParent(p, row)), p, n, amount, at);
  }

  /** No call marks an expected amount confirmed. */
  lemma CallsNeverConfirm(db: Db, n: int, c: Call)
    requires NeverConfirmed(db) && FreshFrom(db, n) && Callable(db, c)
    requires forall p :: p in db.parents ==> Fits(p, db.parents[p])
    ensures NeverConfirmed(Perform(db, n, c).db)
  {
  }

  /** Every callable service call commits, and leaves a ledger on which the next one can build. */
  lemma CallCommits(db: Db, n: int, c: Call)
    requires ServiceLedger(db) && NeverConfirmed(db) && FreshFrom(db, n) && Callable(db, c)
    ensures var w := Perform(db, n, c); Accepted(w) && ServiceLedger(w.db) && NeverConfirmed(w.db)
  {
    forall p | p in db.parents ensures Fits(p, db.parents[p]) { assert RowChecks(p, db.parents[p]); }
    CallsNeverConfirm(db, n, c);
    match c
    case RecordPeriod(org, spend, computed, at) => NewPeriodAccepted(db, n, org, spend, computed, at);
    case Recalculate(p, newSpend, amount, at) => RecalculationCommits(db, n, p, newSpend, amount, at);
    case Close(p) =>
      UngovernedUpdateKeepsOrder(Work(db, []), p, db.parents[p].(earned := db.parents[p].expected.amount));
    case Create(org, estimate, from) => NewOpportunityAccepted(db, n, org, estimate, from);
    case Advance(p, stage) => UngovernedUpdateKeepsOrder(Work(db, []), p, db.parents[p].(stage := stage));
    case RealiseSavings(p, amount, at, user, first, last) =>
      RealisationAccepted(db, p, n, amount, at, user, first, last);
  }

  /** The writers' habit the concurrency argument rests on: whoever queues an event's firing also
      queues one for the event's parent row. */
  ghost predicate Habitual(w: Work) {
    forall f :: f in w.queue && f.EventFiring? ==>
      f.id in w.db.events && QueuedParent(w.queue, ParentOf(w.db.events[f.id]))
  }

  lemma WriteIsHabitual(w: Work, p: ParentId, m: Measure, id: int, after: Facts, reason: Reason)
    requires p in w.db.parents && id !in w.db.events && Habitual(w)
    ensures Habitual(WriteEvent(w, p, m, id, after, reason))
  {
    var v := WriteEvent(w, p, m, id, after, reason);
    assert ParentOf(v.db.events[id]) == p;
    assert ParentFiring(p, v.db.parents[p]) in v.queue;
    forall f | f in v.queue && f.EventFiring?
      ensures f.id in v.db.events && QueuedParent(v.queue, ParentOf(v.db.events[f.id]))
    {
      if f != EventFiring(id) {
        assert f in w.queue;
        var g :| g in w.queue && g.ParentFiring? && g.p == ParentOf(w.db.events[f.id]);
        assert g in v.queue;
      }
    }
  }

  lemma StatementIsHabitual(w: Work, s: Statement)
    requires Habitual(w) && !s.InsertEvent? && !s.DeleteParent?
    ensures Habitual(Apply(w, s))
  {
    var v := Apply(w, s);
    forall f | f in v.queue && f.EventFiring?
      ensures f.id in v.db.events && QueuedParent(v.queue, ParentOf(v.db.events[f.id]))
    {
      assert f in w.queue;
      var g :| g in w.queue && g.ParentFiring? && g.p == ParentOf(w.db.events[f.id]);
      assert g in v.queue;
    }
  }

  lemma EvidenceIsHabitual(w: Work, id: int, n: int, org: int)
    requires Habitual(w)
    ensures Habitual(WithEvidence(w, id, n, org))
  {
    var a, b, c := InsertEvidence(n, Evidence(org, id, DocumentedBaseline)),
                   InsertEvidence(n + 1, Evidence(org, id, ActualCostSource)),
                   InsertEvidence(n + 2, Evidence(org, id, VarianceCalculationReference));
    StatementIsHabitual(w, a);
    StatementIsHabitual(Apply(w, a), b);
    StatementIsHabitual(Apply(Apply(w, a), b), c);
  }

  lemma CallsAreHabitual(db: Db, n: int, c: Call)
    requires FreshFrom(db, n) && Callable(db, c)
    ensures Habitual(Perform(db, n, c))
  {
    var w := Work(db, []);
    match c
    case RecordPeriod(org, spend, computed, at) =>
      var s := InsertParent(Rebate(n), RebateRow(org, UNKNOWN, None, spend, None));
      StatementIsHabitual(w, s);
      WriteIsHabitual(Apply(w, s), Rebate(n), ExpectedAmount, n + 1, ExpectedFacts(computed, at), ManualEntry);
    case Recalculate(p, newSpend, amount, at) =>
      var s := UpdateParent(p, db.parents[p].(spend := Some(newSpend)));
      StatementIsHabitual(w, s);
      WriteIsHabitual(Apply(w, s), p, ExpectedAmount, n, ExpectedFacts(Some(amount), at), Recalculation);
    case Close(p) => StatementIsHabitual(w, UpdateParent(p, db.parents[p].(earned := db.parents[p].expected.amount)));
    case Create(org, estimate, from) =>
      var p := Opportunity(n);
      var s := InsertParent(p, OpportunityRow(org, UNKNOWN, None, UNKNOWN, None, Identified));
      StatementIsHabitual(w, s);
      WriteIsHabitual(Apply(w, s), p, AnnualFinancialImpact, n + 1, ImpactFacts(estimate, from), ManualEntry);
      var first := WriteEvent(Apply(w, s), p, AnnualFinancialImpact, n + 1, ImpactFacts(estimate, from), ManualEntry);
      WriteIsHabitual(first, p, RealisedSavings, n + 2, UNKNOWN, ManualEntry);
    case Advance(p, stage) => StatementIsHabitual(w, UpdateParent(p, db.parents[p].(stage := stage)));
    case RealiseSavings(p, amount, at, user, first, last) =>
      var after := SavingsFacts(amount, at, user, first, last);
      var org := db.parents[p].org;
      WriteIsHabitual(w, p, RealisedSavings, n, after, EvidenceReceived);
      var written := WriteEvent(w, p, RealisedSavings, n, after, EvidenceReceived);
      EvidenceIsHabitual(written, n, n + 1, org);
      var proven := WithEvidence(written, n, n + 1, org);
      StatementIsHabitual(proven, UpdateParent(p, proven.db.parents[p].(stage := Stage.Realised)));
  }

  /** A history: each call is made on the tables the previous ones left, with fresh identities. */
  ghost predicate History(dbs: seq<Db>, calls: seq<Call>, ids: seq<int>) {
    && |dbs| == |calls| + 1 && |ids| == |calls|
    && forall i :: 0 <= i < |calls| ==>
         FreshFrom(dbs[i], ids[i]) && Callable(dbs[i], calls[i]) && dbs[i + 1] == Perform(dbs[i], ids[i], calls[i]).db
  }

  /** From a ledger in order, no service call of any history is ever refused at commit. */
  lemma {:induction false} HistoriesNeverFail(dbs: seq<Db>, calls: seq<Call>, ids: seq<int>, i: nat)
    requires History(dbs, calls, ids) && ServiceLedger(dbs[0]) && NeverConfirmed(dbs[0]) && i < |dbs|
    ensures ServiceLedger(dbs[i]) && NeverConfirmed(dbs[i])
    ensures i < |calls| ==> Accepted(Perform(dbs[i], ids[i], calls[i]))
  {
    if i > 0 {
      HistoriesNeverFail(dbs, calls, ids, i - 1);
      CallCommits(dbs[i - 1], ids[i - 1], calls[i - 1]);
      assert dbs[i - 1 + 1] == Perform(dbs[i - 1], ids[i - 1], calls[i - 1]).db;
    }
    if i < |calls| {
      CallCommits(dbs[i], ids[i], calls[i]);
    }
  }

  // ---------------------------------------------------------------------------
  // What the database alone does not enforce.
  // ---------------------------------------------------------------------------

  /** No trigger fires on a parent when only an event is inserted: for every parent and measure, an event that
      follows the log is accepted exactly when it is no bare downgrade and its evidence suffices, and then
      leaves its row behind the log.  Keeping snapshot and log together is the writers' habit, not the
      database's. */
  lemma LoneEventIsAccepted(db: Db, p: ParentId, m: Measure, n: int, after: Facts, reason: Reason)
    requires ServiceLedger(db) && FreshFrom(db, n) && p in db.parents && Governs(p, m) && Recordable(m, after, reason)
    ensures var e := EventFor(p, db.parents[p], m, LastVersion(db.events, p, m) + 1, after, reason);
            var w := Apply(Work(db, []), InsertEvent(n, e));
            && EventChecks(e) && !ShowsLatest(w.db.events, p, w.db.parents[p], m)
            && (Accepted(w) <==> NoBareDowngrade(FactsOf(db.parents[p], m).status, after.status, reason)
                                 && EvidenceTrigger(db.evidence, n, e))
  {
    var e := EventFor(p, db.parents[p], m, LastVersion(db.events, p, m) + 1, after, reason);
    WrittenEvent(Work(db, []), {}, p, m, n, after, reason);
    assert WriteEvent(Work(db, []), p, m, n, after, reason).db.events == db.events[n := e];
    LoneEventIsNewer(db, p, m, n, e);
    OneEventVerdict(Apply(Work(db, []), InsertEvent(n, e)), n);
  }

  lemma OneEventVerdict(w: Work, n: int)
    requires w.queue == [EventFiring(n)] && n in w.db.events
    ensures Accepted(w)
            <==> ChainTrigger(w.db.events, w.db.events[n]) && EvidenceTrigger(w.db.evidence, n, w.db.events[n])
  {
    assert w.queue[0].EventFiring?;
  }

  lemma LoneEventIsNewer(db: Db, p: ParentId, m: Measure, n: int, e: Event)
    requires ServiceLedger(db) && p in db.parents && Governs(p, m) && n !in db.events
    requires InLog(e, p, m) && e.version == LastVersion(db.events, p, m) + 1
    ensures !ShowsLatest(db.events[n := e], p, db.parents[p], m)
  {
    WriterReadsLatest(db, {}, p, m);
    var id := PointerOf(db.parents[p], m).value;
    assert db.events[n := e][id].version < db.events[n := e][n].version;
  }
}
