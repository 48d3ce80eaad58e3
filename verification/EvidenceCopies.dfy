/** Service calls that work from a copy of their row.  A request reads its row with a plain select and hands the
    object to a service; the select FOR UPDATE in the event writer takes the row lock but leaves the object as it
    was read.  So the old_* columns of the event, and every decision, come from the copy, while the version number
    and the row an UPDATE falls on are those of the tables. */
module EvidenceCopies {
  import opened Sql
  import opened CheckExpressions
  import opened EvidenceSchema
  import opened EvidenceTriggers
  import opened EvidenceTransactions
  import opened EvidenceConcurrency
  import opened EvidenceServices
  import opened EvidenceAcceptance
  import opened EvidenceHistory
  import Rebates

  // ---------------------------------------------------------------------------
  // What an UPDATE writes.
  // ---------------------------------------------------------------------------

  /** A column is written only if the value now held differs from the one read. */
  function Value<T(==)>(row: T, read: T, now: T): T { if now == read then row else now }

  function Values(row: Facts, read: Facts, now: Facts): Facts {
    Facts(Value(row.amount, read.amount, now.amount), Value(row.status, read.status, now.status),
          Value(row.basis, read.basis, now.basis), Value(row.calculatedAt, read.calculatedAt, now.calculatedAt),
          Value(row.approvedAt, read.approvedAt, now.approvedAt),
          Value(row.approvedBy, read.approvedBy, now.approvedBy),
          Value(row.periodStart, read.periodStart, now.periodStart),
          Value(row.periodEnd, read.periodEnd, now.periodEnd))
  }

  /** The row after the UPDATE for an object that was last in step with the tables as `read`. */
  function Flushed(row: ParentRow, read: ParentRow, now: ParentRow): ParentRow {
    match (row, read, now)
    case (RebateRow(org, f, e, s, d), RebateRow(_, f1, e1, s1, d1), RebateRow(_, f2, e2, s2, d2)) =>
      RebateRow(org, Values(f, f1, f2), Value(e, e1, e2), Value(s, s1, s2), Value(d, d1, d2))
    case (OpportunityRow(org, f, e, g, h, s), OpportunityRow(_, f1, e1, g1, h1, s1),
          OpportunityRow(_, f2, e2, g2, h2, s2)) =>
      OpportunityRow(org, Values(f, f1, f2), Value(e, e1, e2), Values(g, g1, g2), Value(h, h1, h2), Value(s, s1, s2))
    case _ => now
  }

  /** Does the copy still show what the row holds for the measure? */
  predicate ShowsRow(copy: ParentRow, row: ParentRow, m: Measure) {
    copy.org == row.org && FactsOf(copy, m) == FactsOf(row, m)
  }

  /** A copy of a row of p: an organisation never changes, and no identity from n on was known when it was read. */
  predicate IsCopy(p: ParentId, copy: ParentRow, row: ParentRow, n: int) {
    && Fits(p, copy) && Fits(p, row) && copy.org == row.org
    && forall m | m in {ExpectedAmount, AnnualFinancialImpact, RealisedSavings} ::
         PointerOf(copy, m).Some? ==> PointerOf(copy, m).value < n
  }

  // ---------------------------------------------------------------------------
  // One write from a copy.
  // ---------------------------------------------------------------------------

  /** The event writer on a copy: the event's past is the copy's. */
  ghost function WriteFrom(w: Work, p: ParentId, copy: ParentRow, m: Measure, id: int, after: Facts, reason: Reason)
    : Work
    requires p in w.db.parents
  {
    var e := EventFor(p, copy, m, LastVersion(w.db.events, p, m) + 1, after, reason);
    Apply(Apply(w, InsertEvent(id, e)),
          UpdateParent(p, Flushed(w.db.parents[p], copy, Pointed(copy, m, after, id))))
  }

  /** While the copy shows the row, that is the write on a freshly read row. */
  lemma CurrentWriteIsFresh(p: ParentId, row: ParentRow, copy: ParentRow, m: Measure, id: int, after: Facts)
    requires Fits(p, copy) && Fits(p, row) && Governs(p, m) && ShowsRow(copy, row, m) && PointerOf(copy, m) != Some(id)
    ensures Flushed(row, copy, Pointed(copy, m, after, id)) == Pointed(row, m, after, id)
  {
  }

  lemma CurrentWriteIsTheWrite(w: Work, p: ParentId, copy: ParentRow, m: Measure, id: int, after: Facts, reason: Reason)
    requires p in w.db.parents && Fits(p, copy) && Fits(p, w.db.parents[p]) && Governs(p, m)
    requires ShowsRow(copy, w.db.parents[p], m) && PointerOf(copy, m) != Some(id)
    ensures WriteFrom(w, p, copy, m, id, after, reason) == WriteEvent(w, p, m, id, after, reason)
  {
    CurrentWriteIsFresh(p, w.db.parents[p], copy, m, id, after);
  }

  /** An event whose past is not what the row holds follows an event that ended otherwise. */
  lemma StaleEventFollowsOther(db: Db, p: ParentId, copy: ParentRow, m: Measure, after: Facts, reason: Reason)
    requires Ordered(db, {}) && p in db.parents && Governs(p, m) && FactsOf(copy, m) != FactsOf(db.parents[p], m)
    ensures PointerOf(db.parents[p], m).Some? && PointerOf(db.parents[p], m).value in db.events
    ensures var last := db.events[PointerOf(db.parents[p], m).value];
            var e := EventFor(p, copy, m, LastVersion(db.events, p, m) + 1, after, reason);
            e.version > 1 && Precedes(last, e) && !LinkAccepted(last, e)
  {
    WriterReadsLatest(db, {}, p, m);
    var id := PointerOf(db.parents[p], m).value;
    assert EventOrdered(db, id);
    InLogIsParentOf(db.events[id], p, m);
  }

  /** Once an event follows one that ended otherwise, nothing added later makes the chain trigger accept it. */
  lemma BrokenLinkStays(events: map<int, Event>, i: int, j: int)
    requires UniqueVersions(events) && i in events && j in events && events[i].version > 1
    requires Precedes(events[j], events[i]) && !LinkAccepted(events[j], events[i])
    ensures !ChainTrigger(events, events[i])
  {
    forall k | k in events && Precedes(events[k], events[i]) ensures k == j { assert SameSlot(events[k], events[j]); }
  }

  lemma StaleWriteIsUnique(db: Db, p: ParentId, copy: ParentRow, m: Measure, n: int, after: Facts, reason: Reason)
    requires Writable(db, {}, p, m, n, after, reason)
    ensures var e := EventFor(p, copy, m, LastVersion(db.events, p, m) + 1, after, reason);
            UniqueVersions(db.events[n := e])
  {
    var w := Work(db, []);
    var e := EventFor(p, copy, m, LastVersion(db.events, p, m) + 1, after, reason);
    WrittenIsUnique(w, {}, p, m, n, after, reason);
    var others := WriteEvent(w, p, m, n, after, reason).db.events;
    var events := db.events[n := e];
    forall i, j | i in events && j in events && SameSlot(events[i], events[j]) ensures i == j {
      assert SameSlot(others[i], others[j]);
    }
  }

  lemma StaleEventIsRefused(db: Db, p: ParentId, copy: ParentRow, m: Measure, n: int, after: Facts, reason: Reason)
    requires Writable(db, {}, p, m, n, after, reason) && FactsOf(copy, m) != FactsOf(db.parents[p], m)
    ensures var e := EventFor(p, copy, m, LastVersion(db.events, p, m) + 1, after, reason);
            !ChainTrigger(db.events[n := e], e)
  {
    var e := EventFor(p, copy, m, LastVersion(db.events, p, m) + 1, after, reason);
    StaleEventFollowsOther(db, p, copy, m, after, reason);
    StaleWriteIsUnique(db, p, copy, m, n, after, reason);
    BrokenLinkStays(db.events[n := e], n, PointerOf(db.parents[p], m).value);
  }

  /** A write from a copy is accepted at commit if and only if the copy still shows the row and the write is no bare
      downgrade. */
  lemma WriteFromCopyAcceptedExactly(db: Db, p: ParentId, copy: ParentRow, m: Measure, n: int, after: Facts,
      reason: Reason)
    requires ServiceLedger(db) && Writable(db, {}, p, m, n, after, reason) && after.status != Some(Confirmed)
    requires IsCopy(p, copy, db.parents[p], n)
    ensures var w := WriteFrom(Work(db, []), p, copy, m, n, after, reason);
            && (Accepted(w) <==> FactsOf(copy, m) == FactsOf(db.parents[p], m)
                                 && NoBareDowngrade(FactsOf(db.parents[p], m).status, after.status, reason))
            && (Accepted(w) ==> ServiceLedger(w.db))
  {
    var w := WriteFrom(Work(db, []), p, copy, m, n, after, reason);
    if FactsOf(copy, m) != FactsOf(db.parents[p], m) {
      StaleEventIsRefused(db, p, copy, m, n, after, reason);
      assert w.queue[0] == EventFiring(n);
      RefusedWrite(w, n);
    } else {
      CurrentWriteIsTheWrite(Work(db, []), p, copy, m, n, after, reason);
      if NoBareDowngrade(FactsOf(db.parents[p], m).status, after.status, reason) {
        SettledWriteCommits(db, p, m, n, after, reason);
      } else {
        BareDowngradeNeverCommits(db, p, m, n, after, reason);
      }
    }
  }

  // ---------------------------------------------------------------------------
  // Whole calls from a copy.
  // ---------------------------------------------------------------------------

  /** The row a call works on; a row it creates is its own. */
  function Subject(c: Call): Option<ParentId> {
    match c
    case RecordPeriod(_, _, _, _) => None
    case Recalculate(p, _, _, _) => Some(p)
    case Close(p) => Some(p)
    case Create(_, _, _) => None
    case Advance(p, _) => Some(p)
    case RealiseSavings(p, _, _, _, _, _) => Some(p)
  }

  /** What a call demands of its arguments and of its copy; of the row itself it demands nothing. */
  predicate CallableFrom(db: Db, n: int, c: Call, copy: ParentRow) {
    && (Subject(c).Some? ==>
          Subject(c).value in db.parents && IsCopy(Subject(c).value, copy, db.parents[Subject(c).value], n))
    && match c
       case RecordPeriod(_, _, _, _) => true
       case Recalculate(p, _, _, _) => p.Rebate?
       case Close(p) => p.Rebate? && copy.RebateRow? && copy.earned.None?
       case Create(_, estimate, from) => estimate.Some? ==> from.Some?
       case Advance(p, _) => p.Opportunity?
       case RealiseSavings(p, _, _, _, first, last) =>
         p.Opportunity? && copy.OpportunityRow? && copy.stage == Implementation && first <= last
  }

  /** The event and the evidence of a realisation, before the stage is set. */
  ghost function RealisedFrom(w: Work, p: ParentId, copy: ParentRow, n: int, after: Facts): Work
    requires p in w.db.parents
  {
    WithEvidence(WriteFrom(w, p, copy, RealisedSavings, n, after, EvidenceReceived), n, n + 1, copy.org)
  }

  ghost function PerformFrom(db: Db, n: int, c: Call, copy: ParentRow): Work
    requires CallableFrom(db, n, c, copy)
  {
    var w := Work(db, []);
    match c
    case RecordPeriod(org, spend, computed, at) => NewPeriod(w, n, org, spend, computed, at)
    case Recalculate(p, newSpend, amount, at) =>
      var now := copy.(spend := Some(newSpend));
      WriteFrom(Apply(w, UpdateParent(p, Flushed(db.parents[p], copy, now))), p, now, ExpectedAmount, n,
                ExpectedFacts(Some(amount), at), Recalculation)
    case Close(p) => Apply(w, UpdateParent(p, Flushed(db.parents[p], copy, copy.(earned := copy.expected.amount))))
    case Create(org, estimate, from) => NewOpportunity(w, n, org, estimate, from)
    case Advance(p, stage) => Apply(w, UpdateParent(p, Flushed(db.parents[p], copy, copy.(stage := stage))))
    case RealiseSavings(p, amount, at, user, first, last) =>
      var after := SavingsFacts(amount, at, user, first, last);
      var now := Pointed(copy, RealisedSavings, after, n);
      var written := RealisedFrom(w, p, copy, n, after);
      Apply(written, UpdateParent(p, Flushed(written.db.parents[p], now, now.(stage := Stage.Realised))))
  }

  /** On a copy that is the row itself, that is the call. */
  lemma CurrentCopyIsTheCall(db: Db, n: int, c: Call)
    requires Subject(c).Some? && Callable(db, c) && CallableFrom(db, n, c, db.parents[Subject(c).value])
    ensures PerformFrom(db, n, c, db.parents[Subject(c).value]) == Perform(db, n, c)
  {
    match c
    case Recalculate(p, newSpend, amount, at) =>
      var row := db.parents[p].(spend := Some(newSpend));
      assert PointerOf(row, ExpectedAmount) == PointerOf(db.parents[p], ExpectedAmount) != Some(n);
      CurrentWriteIsTheWrite(Apply(Work(db, []), UpdateParent(p, row)), p, row, ExpectedAmount, n,
                             ExpectedFacts(Some(amount), at), Recalculation);
    case RealiseSavings(p, amount, at, user, first, last) =>
      CurrentWriteIsTheWrite(Work(db, []), p, db.parents[p], RealisedSavings, n,
                             SavingsFacts(amount, at, user, first, last), EvidenceReceived);
    case _ =>
  }

  /** Does the copy show what the call's event will follow? Closing and advancing write no event. */
  predicate Serves(db: Db, c: Call, copy: ParentRow) {
    match c
    case Recalculate(p, _, _, _) =>
      p in db.parents && FactsOf(copy, ExpectedAmount) == FactsOf(db.parents[p], ExpectedAmount)
    case RealiseSavings(p, _, _, _, _, _) =>
      p in db.parents && FactsOf(copy, RealisedSavings) == FactsOf(db.parents[p], RealisedSavings)
    case _ => true
  }

  /** Changes of the columns a call may always change. */
  lemma FlushedUngoverned(p: ParentId, row: ParentRow, copy: ParentRow, now: ParentRow)
    requires Fits(p, row) && Fits(p, copy) && Fits(p, now)
    requires p.Rebate? ==> now.expected == copy.expected && now.expectedEvent == copy.expectedEvent
    requires p.Opportunity? ==> now.impact == copy.impact && now.impactEvent == copy.impactEvent
                                && now.savings == copy.savings && now.savingsEvent == copy.savingsEvent
    ensures Fits(p, Flushed(row, copy, now)) && SameGoverned(p, Flushed(row, copy, now), row)
  {
  }

  /** A queued event that the chain trigger refuses. */
  ghost predicate Doomed(w: Work, id: int) {
    EventFiring(id) in w.queue && id in w.db.events && !ChainTrigger(w.db.events, w.db.events[id])
  }

  lemma StaleWriteIsDoomed(w: Work, p: ParentId, copy: ParentRow, m: Measure, n: int, after: Facts, reason: Reason)
    requires Writable(w.db, {}, p, m, n, after, reason) && FactsOf(copy, m) != FactsOf(w.db.parents[p], m)
    ensures Doomed(WriteFrom(w, p, copy, m, n, after, reason), n)
  {
    StaleEventIsRefused(w.db, p, copy, m, n, after, reason);
    var v := WriteFrom(w, p, copy, m, n, after, reason);
    assert v.queue[|w.queue|] == EventFiring(n);
  }

  lemma DoomedStays(w: Work, id: int, s: Statement)
    requires Doomed(w, id) && (s.UpdateParent? || s.InsertEvidence?)
    ensures Doomed(Apply(w, s), id)
  {
    assert forall f :: f in w.queue ==> f in Apply(w, s).queue;
  }

  lemma DoomedIsRefused(w: Work, id: int)
    requires Doomed(w, id)
    ensures !Accepted(w)
  {
    RefusedWrite(w, id);
  }

  lemma RecalculationFromCopy(db: Db, n: int, c: Call, copy: ParentRow)
    requires ServiceLedger(db) && NeverConfirmed(db) && FreshFrom(db, n) && CallableFrom(db, n, c, copy)
             && c.Recalculate?
    ensures var w := PerformFrom(db, n, c, copy);
            && (Accepted(w) <==> Serves(db, c, copy)) && (Serves(db, c, copy) ==> ServiceLedger(w.db))
  {
    var now, after := copy.(spend := Some(c.newSpend)), ExpectedFacts(Some(c.amount), c.at);
    var row := Flushed(db.parents[c.p], copy, now);
    var touched := Apply(Work(db, []), UpdateParent(c.p, row));
    FlushedUngoverned(c.p, db.parents[c.p], copy, now);
    UngovernedUpdateKeepsOrder(Work(db, []), c.p, row);
    ServiceFactsAreRecordable(Some(c.amount), None, c.at, 0, 0, 0, 0);
    if Serves(db, c, copy) {
      assert PointerOf(now, ExpectedAmount) == PointerOf(copy, ExpectedAmount) != Some(n);
      CurrentWriteIsTheWrite(touched, c.p, now, ExpectedAmount, n, after, Recalculation);
      RecalculationAfterTouch(touched, c.p, n, c.amount, c.at);
    } else {
      StaleWriteIsDoomed(touched, c.p, now, ExpectedAmount, n, after, Recalculation);
      DoomedIsRefused(PerformFrom(db, n, c, copy), n);
    }
  }

  lemma RealisationFromCurrentCopy(db: Db, n: int, c: Call, copy: ParentRow)
    requires ServiceLedger(db) && FreshFrom(db, n) && CallableFrom(db, n, c, copy) && c.RealiseSavings?
    requires Serves(db, c, copy)
    ensures var w := PerformFrom(db, n, c, copy); Accepted(w) && ServiceLedger(w.db)
  {
    var after := SavingsFacts(c.amount, c.at, c.user, c.first, c.last);
    var w := Work(db, []);
    assert PointerOf(copy, RealisedSavings) != Some(n);
    CurrentWriteIsTheWrite(w, c.p, copy, RealisedSavings, n, after, EvidenceReceived);
    var written := WriteEvent(w, c.p, RealisedSavings, n, after, EvidenceReceived);
    RealisationWritten(db, c.p, n, c.amount, c.at, c.user, c.first, c.last);
    EvidenceSuffices(written, n, n + 1, copy.org);
    var proven := WithEvidence(written, n, n + 1, copy.org);
    EvidenceKeepsOrder(written.db, proven.db);
    var now := Pointed(copy, RealisedSavings, after, n);
    var row := proven.db.parents[c.p];
    FlushedUngoverned(c.p, row, now, now.(stage := Stage.Realised));
    UngovernedUpdateKeepsOrder(proven, c.p, Flushed(row, now, now.(stage := Stage.Realised)));
  }

  lemma StaleRealisationIsDoomed(w: Work, p: ParentId, copy: ParentRow, n: int, after: Facts)
    requires Writable(w.db, {}, p, RealisedSavings, n, after, EvidenceReceived)
    requires FactsOf(copy, RealisedSavings) != FactsOf(w.db.parents[p], RealisedSavings)
    ensures Doomed(RealisedFrom(w, p, copy, n, after), n) && p in RealisedFrom(w, p, copy, n, after).db.parents
  {
    StaleWriteIsDoomed(w, p, copy, RealisedSavings, n, after, EvidenceReceived);
    EvidenceKeepsDoomed(WriteFrom(w, p, copy, RealisedSavings, n, after, EvidenceReceived), n, n + 1, copy.org);
  }

  lemma RealisationFromStaleCopy(db: Db, n: int, c: Call, copy: ParentRow)
    requires ServiceLedger(db) && FreshFrom(db, n) && CallableFrom(db, n, c, copy) && c.RealiseSavings?
    requires !Serves(db, c, copy)
    ensures !Accepted(PerformFrom(db, n, c, copy))
  {
    var after := SavingsFacts(c.amount, c.at, c.user, c.first, c.last);
    ServiceFactsAreRecordable(None, None, c.at, c.amount, c.user, c.first, c.last);
    StaleRealisationIsDoomed(Work(db, []), c.p, copy, n, after);
    var proven := RealisedFrom(Work(db, []), c.p, copy, n, after);
    var now := Pointed(copy, RealisedSavings, after, n);
    DoomedStays(proven, n, UpdateParent(c.p, Flushed(proven.db.parents[c.p], now, now.(stage := Stage.Realised))));
    DoomedIsRefused(PerformFrom(db, n, c, copy), n);
  }

  lemma EvidenceKeepsDoomed(w: Work, id: int, n: int, org: int)
    requires Doomed(w, id)
    ensures Doomed(WithEvidence(w, id, n, org), id)
  {
    var a, b := InsertEvidence(n, Evidence(org, id, DocumentedBaseline)),
                InsertEvidence(n + 1, Evidence(org, id, ActualCostSource));
    DoomedStays(w, id, a);
    DoomedStays(Apply(w, a), id, b);
    DoomedStays(Apply(Apply(w, a), b), id, InsertEvidence(n + 2, Evidence(org, id, VarianceCalculationReference)));
  }

  /** A call is accepted at commit if and only if its copy still shows what its event will follow. */
  lemma CallFromCopyCommitsExactly(db: Db, n: int, c: Call, copy: ParentRow)
    requires ServiceLedger(db) && NeverConfirmed(db) && FreshFrom(db, n) && CallableFrom(db, n, c, copy)
    ensures var w := PerformFrom(db, n, c, copy);
            && (Accepted(w) <==> Serves(db, c, copy))
            && (Serves(db, c, copy) ==> ServiceLedger(w.db) && NeverConfirmed(w.db))
  {
    if Serves(db, c, copy) { CallsFromCopiesNeverConfirm(db, n, c, copy); }
    match c
    case RecordPeriod(org, spend, computed, at) => NewPeriodAccepted(db, n, org, spend, computed, at);
    case Recalculate(_, _, _, _) => RecalculationFromCopy(db, n, c, copy);
    case Close(p) => UngovernedFromCopy(db, p, copy, copy.(earned := copy.expected.amount));
    case Create(org, estimate, from) => NewOpportunityAccepted(db, n, org, estimate, from);
    case Advance(p, stage) => UngovernedFromCopy(db, p, copy, copy.(stage := stage));
    case RealiseSavings(_, _, _, _, _, _) =>
      if Serves(db, c, copy) { RealisationFromCurrentCopy(db, n, c, copy); }
      else { RealisationFromStaleCopy(db, n, c, copy); }
  }

  lemma UngovernedFromCopy(db: Db, p: ParentId, copy: ParentRow, now: ParentRow)
    requires ServiceLedger(db) && p in db.parents && Fits(p, copy) && Fits(p, now)
    requires p.Rebate? ==> now.expected == copy.expected && now.expectedEvent == copy.expectedEvent
    requires p.Opportunity? ==> now.impact == copy.impact && now.impactEvent == copy.impactEvent
                                && now.savings == copy.savings && now.savingsEvent == copy.savingsEvent
    ensures var w := Apply(Work(db, []), UpdateParent(p, Flushed(db.parents[p], copy, now)));
            Accepted(w) && ServiceLedger(w.db)
  {
    assert RowChecks(p, db.parents[p]);
    FlushedUngoverned(p, db.parents[p], copy, now);
    UngovernedUpdateKeepsOrder(Work(db, []), p, Flushed(db.parents[p], copy, now));
  }

  lemma CallsFromCopiesNeverConfirm(db: Db, n: int, c: Call, copy: ParentRow)
    requires ServiceLedger(db) && NeverConfirmed(db) && FreshFrom(db, n) && CallableFrom(db, n, c, copy)
    requires Serves(db, c, copy)
    ensures NeverConfirmed(PerformFrom(db, n, c, copy).db)
  {
    forall p | p in db.parents ensures Fits(p, db.parents[p]) { assert RowChecks(p, db.parents[p]); }
  }

  /** A recalculation that commits records its amount whatever the copy. The spend goes unwritten where the copy had
      it already, so the row states the rebate for the spend it shows exactly when the copy had another one, or the
      row still has it. */
  lemma CopyRecordsRebate(db: Db, n: int, c: Call, copy: ParentRow, a: Rebates.Agreement)
    requires ServiceLedger(db) && NeverConfirmed(db) && FreshFrom(db, n) && CallableFrom(db, n, c, copy)
    requires c.Recalculate? && Serves(db, c, copy) && ComputeExpected(a, Some(c.newSpend)) == Some(Some(c.amount))
    ensures var w := PerformFrom(db, n, c, copy);
            && Accepted(w) && c.p in w.db.parents && n in w.db.events
            && StatesRebate(w.db.events[n].after, a, Some(c.newSpend), c.at)
            && StatesRebate(FactsOf(w.db.parents[c.p], ExpectedAmount), a, Some(c.newSpend), c.at)
            && (RecordsRebate(w.db, c.p, n, a, Some(c.newSpend), c.at)
                <==> copy.spend != Some(c.newSpend) || db.parents[c.p].spend == Some(c.newSpend))
  {
    CallFromCopyCommitsExactly(db, n, c, copy);
    assert RowChecks(c.p, db.parents[c.p]);
    var now := copy.(spend := Some(c.newSpend));
    var touched := Apply(Work(db, []), UpdateParent(c.p, Flushed(db.parents[c.p], copy, now)));
    FlushedUngoverned(c.p, db.parents[c.p], copy, now);
    assert PointerOf(now, ExpectedAmount) == PointerOf(copy, ExpectedAmount) != Some(n);
    CurrentWriteIsTheWrite(touched, c.p, now, ExpectedAmount, n, ExpectedFacts(Some(c.amount), c.at), Recalculation);
    WriteRecordsAmount(touched, c.p, n, a, c.newSpend, c.amount, c.at);
  }

  lemma WriteRecordsAmount(w: Work, p: ParentId, n: int, a: Rebates.Agreement, spend: int, amount: int, at: int)
    requires p in w.db.parents && p.Rebate? && w.db.parents[p].RebateRow?
    requires ComputeExpected(a, Some(spend)) == Some(Some(amount))
    ensures var v := WriteEvent(w, p, ExpectedAmount, n, ExpectedFacts(Some(amount), at), Recalculation);
            && p in v.db.parents && n in v.db.events
            && StatesRebate(v.db.events[n].after, a, Some(spend), at)
            && StatesRebate(FactsOf(v.db.parents[p], ExpectedAmount), a, Some(spend), at)
            && (RecordsRebate(v.db, p, n, a, Some(spend), at) <==> w.db.parents[p].spend == Some(spend))
  {
  }

  /** Inserting a period is the same whatever was read before. */
  lemma NewPeriodFromCopyRecordsRebate(db: Db, n: int, c: Call, copy: ParentRow, a: Rebates.Agreement)
    requires FreshFrom(db, n) && CallableFrom(db, n, c, copy)
    requires c.RecordPeriod? && ComputeExpected(a, c.spend) == Some(c.computed)
    ensures RecordsRebate(PerformFrom(db, n, c, copy).db, Rebate(n), n + 1, a, c.spend, c.at)
  {
    CallRecordsRebate(db, n, c, a);
  }

  // ---------------------------------------------------------------------------
  // Two sessions, one row.
  // ---------------------------------------------------------------------------

  lemma CopyOutlivesTheCall(db: Db, n: int, k: int, c: Call)
    requires ServiceLedger(db) && FreshFrom(db, n) && (c.Recalculate? || c.RealiseSavings?) && c.p in db.parents
    requires CallableFrom(db, n, c, db.parents[c.p]) && FreshFrom(PerformFrom(db, n, c, db.parents[c.p]).db, k)
    ensures var copy, first := db.parents[c.p], PerformFrom(db, n, c, db.parents[c.p]).db;
            && c.p in first.parents && IsCopy(c.p, copy, first.parents[c.p], k)
            && (c.Recalculate? ==> FactsOf(first.parents[c.p], ExpectedAmount) == ExpectedFacts(Some(c.amount), c.at))
            && (c.RealiseSavings? ==> FactsOf(first.parents[c.p], RealisedSavings) ==
                                      SavingsFacts(c.amount, c.at, c.user, c.first, c.last))
  {
    assert RowChecks(c.p, db.parents[c.p]);
    CurrentCopyIsTheCall(db, n, c);
    var first := PerformFrom(db, n, c, db.parents[c.p]).db;
    assert n in first.events;
  }

  /** Two requests read one period and both recalculate it: the second is refused at commit unless the first
      recorded exactly what was there before, its time included. */
  lemma SecondRecalculationIsRefused(db: Db, n: int, k: int, c: Call, d: Call)
    requires ServiceLedger(db) && NeverConfirmed(db) && FreshFrom(db, n) && c.Recalculate? && d.Recalculate?
             && c.p == d.p
    requires c.p in db.parents && CallableFrom(db, n, c, db.parents[c.p])
    requires FreshFrom(PerformFrom(db, n, c, db.parents[c.p]).db, k)
    ensures var copy := db.parents[c.p];
            var first := PerformFrom(db, n, c, copy);
            && Accepted(first) && CallableFrom(first.db, k, d, copy)
            && (Accepted(PerformFrom(first.db, k, d, copy)) <==>
                  FactsOf(copy, ExpectedAmount) == ExpectedFacts(Some(c.amount), c.at))
  {
    var copy := db.parents[c.p];
    CallFromCopyCommitsExactly(db, n, c, copy);
    var first := PerformFrom(db, n, c, copy);
    CopyOutlivesTheCall(db, n, k, c);
    CallFromCopyCommitsExactly(first.db, k, d, copy);
  }

  /** And so with savings: of two requests that read one opportunity in implementation the second never records
      any, unless the first recorded what was there already. */
  lemma SecondRealisationIsRefused(db: Db, n: int, k: int, c: Call, d: Call)
    requires ServiceLedger(db) && NeverConfirmed(db) && FreshFrom(db, n)
    requires c.RealiseSavings? && d.RealiseSavings? && c.p == d.p && d.first <= d.last
    requires c.p in db.parents && CallableFrom(db, n, c, db.parents[c.p])
    requires FreshFrom(PerformFrom(db, n, c, db.parents[c.p]).db, k)
    ensures var copy := db.parents[c.p];
            var first := PerformFrom(db, n, c, copy);
            && Accepted(first) && CallableFrom(first.db, k, d, copy)
            && (Accepted(PerformFrom(first.db, k, d, copy)) <==>
                  FactsOf(copy, RealisedSavings) == SavingsFacts(c.amount, c.at, c.user, c.first, c.last))
  {
    var copy := db.parents[c.p];
    CallFromCopyCommitsExactly(db, n, c, copy);
    var first := PerformFrom(db, n, c, copy);
    CopyOutlivesTheCall(db, n, k, c);
    CallFromCopyCommitsExactly(first.db, k, d, copy);
  }

  /** Closing writes no event, so nothing refuses it: from a stale copy the period earns what the copy expected,
      over whatever another request has earned it meanwhile, and what is earned is what is expected exactly when
      the copy's amount still is. */
  lemma StaleCloseIsAccepted(db: Db, n: int, p: ParentId, copy: ParentRow)
    requires ServiceLedger(db) && NeverConfirmed(db) && FreshFrom(db, n) && CallableFrom(db, n, Close(p), copy)
    requires copy.expected.amount.Some?
    ensures var w := PerformFrom(db, n, Close(p), copy);
            && Accepted(w) && ServiceLedger(w.db)
            && w.db.parents[p] == db.parents[p].(earned := copy.expected.amount)
            && (w.db.parents[p].earned == w.db.parents[p].expected.amount <==>
                  copy.expected.amount == db.parents[p].expected.amount)
  {
    CallFromCopyCommitsExactly(db, n, Close(p), copy);
  }

  /** A copy without an amount changes nothing. */
  lemma EmptyCloseChangesNothing(db: Db, n: int, p: ParentId, copy: ParentRow)
    requires ServiceLedger(db) && CallableFrom(db, n, Close(p), copy) && copy.expected.amount.None?
    ensures PerformFrom(db, n, Close(p), copy).db == db
  {
    assert Flushed(db.parents[p], copy, copy.(earned := None)) == db.parents[p];
    assert db.parents[p := db.parents[p]] == db.parents;
  }

  /** A decision on a stage is likewise one on the copy's: savings are recorded, and the stage set, whatever stage
      the opportunity has since been moved to, as long as its savings are untouched. */
  lemma StaleStageIsOverwritten(db: Db, n: int, c: Call, copy: ParentRow)
    requires ServiceLedger(db) && NeverConfirmed(db) && FreshFrom(db, n) && CallableFrom(db, n, c, copy)
    requires c.RealiseSavings? && Serves(db, c, copy)
    ensures var w := PerformFrom(db, n, c, copy);
            Accepted(w) && c.p in w.db.parents && w.db.parents[c.p].OpportunityRow?
            && w.db.parents[c.p].stage == Stage.Realised
  {
    CallFromCopyCommitsExactly(db, n, c, copy);
  }
}
