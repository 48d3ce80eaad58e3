/** Which service transactions the constraints accept.  The concurrency module shows that whatever is
    accepted is safe; here the service writers are shown to be accepted, exactly when. */
module EvidenceAcceptance {
  import opened Sql
  import opened CheckExpressions
  import opened EvidenceSchema
  import opened EvidenceTriggers
  import opened EvidenceTransactions
  import opened EvidenceConcurrency
  import opened EvidenceServices

  type Slot = (ParentId, Measure)

  ghost predicate EmptyLog(events: map<int, Event>, p: ParentId, m: Measure) {
    forall i :: i in events ==> !InLog(events[i], p, m)
  }

  /** Within a transaction: everything is in order except that the logs in `pending` still await their
      first event. Events carry nothing their parent table cannot show. */
  ghost predicate Ordered(db: Db, pending: set<Slot>) {
    && UniqueVersions(db.events)
    && (forall i :: i in db.events ==> EventOrdered(db, i))
    && (forall p :: p in db.parents ==> RowChecks(p, db.parents[p]))
    && (forall p, m :: p in db.parents && Governs(p, m) ==> SlotOrdered(db, p, m, pending))
  }

  ghost predicate EventOrdered(db: Db, i: int)
    requires i in db.events
  {
    var e := db.events[i];
    EventChecks(e) && ParentOf(e) in db.parents && ChainTrigger(db.events, e) && Visible(e.measure, e.after) == e.after
  }

  ghost predicate SlotOrdered(db: Db, p: ParentId, m: Measure, pending: set<Slot>)
    requires p in db.parents
  {
    if (p, m) in pending then EmptyLog(db.events, p, m) && PointerOf(db.parents[p], m).None?
    else ShowsLatest(db.events, p, db.parents[p], m)
  }

  ghost predicate Evidenced(db: Db, exempt: set<int>) {
    forall i :: i in db.events && i !in exempt ==> EvidenceTrigger(db.evidence, i, db.events[i])
  }

  ghost predicate ServiceLedger(db: Db) { Ordered(db, {}) && Evidenced(db, {}) }

  lemma ServiceLedgerIsOk(db: Db)
    requires ServiceLedger(db)
    ensures LedgerOk(db)
  {
    forall i | i in db.events ensures EventOk(db, i) { assert EventOrdered(db, i); }
    forall p | p in db.parents ensures RowSettled(db, p) {
      forall m | Governs(p, m) ensures ShowsLatest(db.events, p, db.parents[p], m) { assert SlotOrdered(db, p, m, {}); }
    }
  }

  /** Tables in order satisfy every deferred trigger, whatever was queued. */
  lemma OrderIsAccepted(w: Work)
    requires LedgerOk(w.db)
    ensures EventsAccepted(w) && FinalRowsAccepted(w)
  {
    forall i | i in w.db.events ensures EventChecks(w.db.events[i]) && EventSettled(w.db, i) {
      assert EventOk(w.db, i);
    }
    forall p | p in w.db.parents ensures ParentTriggers(w.db.events, p, w.db.parents[p]) {
      assert RowSettled(w.db, p);
      forall m | m in {ExpectedAmount, AnnualFinancialImpact, RealisedSavings} && Governs(p, m)
        ensures SnapshotTrigger(w.db.events, p, w.db.parents[p], m)
      {
        assert ShowsLatest(w.db.events, p, w.db.parents[p], m);
        SnapshotTriggerMeans(w.db.events, p, w.db.parents[p], m);
      }
    }
  }

  // ---------------------------------------------------------------------------
  // One event write.
  // ---------------------------------------------------------------------------

  /** The facts a writer may record for a measure. */
  predicate Recordable(m: Measure, after: Facts, reason: Reason) {
    && after.status.Some? && StatusInVocabulary(m, after.status.value)
    && EventStateAllowed(m, after) && Visible(m, after) == after && !reason.OtherReason?
  }

  /** The rule the chain trigger applies to a write on top of the row's present status. */
  predicate NoBareDowngrade(now: Option<Status>, next: Option<Status>, reason: Reason) {
    AllowsDowngrade(reason) || !Taken(Less(Tier(next), Tier(now)))
  }

  ghost predicate Writable(db: Db, pending: set<Slot>, p: ParentId, m: Measure, id: int, after: Facts, reason: Reason) {
    Ordered(db, pending) && p in db.parents && Governs(p, m) && id !in db.events && Recordable(m, after, reason)
  }

  lemma RowChecksAt(p: ParentId, row: ParentRow, m: Measure)
    requires RowChecks(p, row) && Governs(p, m)
    ensures SnapshotChecks(m, FactsOf(row, m))
  {
  }

  lemma NothingPendingAfter(p: ParentId, m: Measure)
    ensures {} - {(p, m)} == {}
  {
  }

  lemma PositiveVersions(db: Db, pending: set<Slot>)
    requires Ordered(db, pending)
    ensures forall i :: i in db.events ==> db.events[i].version > 0
  {
    forall i | i in db.events ensures db.events[i].version > 0 { assert EventOrdered(db, i); }
  }

  /** The row a writer reads shows the event its own event will follow. */
  lemma WriterReadsLatest(db: Db, pending: set<Slot>, p: ParentId, m: Measure)
    requires Ordered(db, pending) && p in db.parents && Governs(p, m)
    ensures (p, m) in pending ==> LastVersion(db.events, p, m) == 0
    ensures (p, m) !in pending ==>
      PointerOf(db.parents[p], m).Some? && PointerOf(db.parents[p], m).value in db.events
      && var last := db.events[PointerOf(db.parents[p], m).value];
         InLog(last, p, m) && last.version == LastVersion(db.events, p, m) && last.after == FactsOf(db.parents[p], m)
  {
    PositiveVersions(db, pending);
    LastVersionIsCounted(db.events, p, m);
    assert SlotOrdered(db, p, m, pending);
    if (p, m) !in pending {
      var id := PointerOf(db.parents[p], m).value;
      assert EventOrdered(db, id);
      assert IsLatest(db.events, p, m, LatestId(db.events, p, m).value);
    }
  }

  lemma WrittenPasses(w: Work, pending: set<Slot>, p: ParentId, m: Measure, id: int, after: Facts, reason: Reason)
    requires Writable(w.db, pending, p, m, id, after, reason)
    ensures var e := WriteEvent(w, p, m, id, after, reason).db.events[id];
            EventChecks(e) && InLog(e, p, m) && ParentOf(e) == p && e.version == LastVersion(w.db.events, p, m) + 1
  {
    PositiveVersions(w.db, pending);
    LastVersionIsCounted(w.db.events, p, m);
    assert RowChecks(p, w.db.parents[p]);
  }

  lemma WrittenIsUnique(w: Work, pending: set<Slot>, p: ParentId, m: Measure, id: int, after: Facts, reason: Reason)
    requires Writable(w.db, pending, p, m, id, after, reason)
    ensures UniqueVersions(WriteEvent(w, p, m, id, after, reason).db.events)
  {
    var e := WriteEvent(w, p, m, id, after, reason).db.events[id];
    WrittenPasses(w, pending, p, m, id, after, reason);
    PositiveVersions(w.db, pending);
    LastVersionIsCounted(w.db.events, p, m);
    forall i | i in w.db.events ensures !SameSlot(w.db.events[i], e) && !SameSlot(e, w.db.events[i]) {
      assert EventOrdered(w.db, i);
      InLogIsParentOf(w.db.events[i], p, m);
    }
  }

  /** An event that follows the one its row shows is accepted exactly when it is no bare downgrade. */
  lemma FollowerAccepted(events: map<int, Event>, last: int, e: Event, now: Option<Status>)
    requires UniqueVersions(events) && last in events && e.version != 1
    requires Precedes(events[last], e) && e.before == events[last].after && now == events[last].after.status
    ensures ChainTrigger(events, e) <==> NoBareDowngrade(now, e.after.status, e.reason)
  {
    forall i | i in events && Precedes(events[i], e) ensures i == last { assert SameSlot(events[i], events[last]); }
    assert LinkAccepted(events[last], e) <==> NoBareDowngrade(now, e.after.status, e.reason);
  }

  /** The inserted event passes its constraints, extends the log by one version, and is accepted by the
      chain trigger exactly when it is a first event or no bare downgrade. */
  lemma WrittenEvent(w: Work, pending: set<Slot>, p: ParentId, m: Measure, id: int, after: Facts, reason: Reason)
    requires Writable(w.db, pending, p, m, id, after, reason)
    ensures var v := WriteEvent(w, p, m, id, after, reason);
            var e := v.db.events[id];
            && EventChecks(e) && InLog(e, p, m) && ParentOf(e) == p && e.version == LastVersion(w.db.events, p, m) + 1
            && UniqueVersions(v.db.events)
            && (ChainTrigger(v.db.events, e) <==>
                  (p, m) in pending || NoBareDowngrade(FactsOf(w.db.parents[p], m).status, after.status, reason))
  {
    var v := WriteEvent(w, p, m, id, after, reason);
    WrittenPasses(w, pending, p, m, id, after, reason);
    WrittenIsUnique(w, pending, p, m, id, after, reason);
    WriterReadsLatest(w.db, pending, p, m);
    if (p, m) !in pending {
      var last := PointerOf(w.db.parents[p], m).value;
      assert last != id && v.db.events[last] == w.db.events[last];
      assert EventOrdered(w.db, last);
      InLogIsParentOf(v.db.events[last], p, m);
      FollowerAccepted(v.db.events, last, v.db.events[id], FactsOf(w.db.parents[p], m).status);
    }
  }

  lemma WrittenRow(w: Work, pending: set<Slot>, p: ParentId, m: Measure, id: int, after: Facts, reason: Reason)
    requires Writable(w.db, pending, p, m, id, after, reason)
    ensures var v := WriteEvent(w, p, m, id, after, reason);
            RowChecks(p, v.db.parents[p]) && ShowsLatest(v.db.events, p, v.db.parents[p], m)
  {
    var v := WriteEvent(w, p, m, id, after, reason);
    WrittenEvent(w, pending, p, m, id, after, reason);
    PositiveVersions(w.db, pending);
    LastVersionIsCounted(w.db.events, p, m);
    EventChecksCarryOver(v.db.events[id]);
    assert RowChecks(p, w.db.parents[p]);
  }

  lemma WriteKeepsEvents(w: Work, pending: set<Slot>, p: ParentId, m: Measure, id: int, after: Facts, reason: Reason)
    requires Writable(w.db, pending, p, m, id, after, reason)
    requires (p, m) in pending || NoBareDowngrade(FactsOf(w.db.parents[p], m).status, after.status, reason)
    ensures var v := WriteEvent(w, p, m, id, after, reason);
            forall i :: i in v.db.events ==> EventOrdered(v.db, i)
  {
    var v := WriteEvent(w, p, m, id, after, reason);
    WrittenEvent(w, pending, p, m, id, after, reason);
    forall i | i in v.db.events ensures EventOrdered(v.db, i) {
      if i != id {
        assert EventOrdered(w.db, i);
        if w.db.events[i].version != 1 {
          var events := w.db.events;
          var j :| j in events && Precedes(events[j], events[i]) && LinkAccepted(events[j], events[i]);
          assert v.db.events[j] == events[j];
        }
      }
    }
  }

  lemma SlotKept(events: map<int, Event>, id: int, e: Event, q: ParentId, k: Measure, r: ParentRow, r': ParentRow)
    requires id !in events && !InLog(e, q, k)
    requires r.org == r'.org && PointerOf(r, k) == PointerOf(r', k) && FactsOf(r, k) == FactsOf(r', k)
    ensures ShowsLatest(events, q, r, k) ==> ShowsLatest(events[id := e], q, r', k)
    ensures EmptyLog(events, q, k) ==> EmptyLog(events[id := e], q, k)
  {
  }

  lemma PointedKeepsOtherMeasure(p: ParentId, row: ParentRow, m: Measure, after: Facts, id: int, k: Measure)
    requires Fits(p, row) && Governs(p, m) && Governs(p, k) && k != m
    ensures var r := Pointed(row, m, after, id);
            r.org == row.org && PointerOf(r, k) == PointerOf(row, k) && FactsOf(r, k) == FactsOf(row, k)
  {
  }

  /** The log of another measure or parent does not notice the write. */
  lemma WriteKeepsOtherSlot(w: Work, pending: set<Slot>, p: ParentId, m: Measure, id: int, after: Facts,
      reason: Reason, q: ParentId, k: Measure)
    requires Writable(w.db, pending, p, m, id, after, reason)
    requires q in w.db.parents && Governs(q, k) && (q, k) != (p, m)
    ensures SlotOrdered(WriteEvent(w, p, m, id, after, reason).db, q, k, pending - {(p, m)})
  {
    var v := WriteEvent(w, p, m, id, after, reason);
    WrittenEvent(w, pending, p, m, id, after, reason);
    InLogIsParentOf(v.db.events[id], q, k);
    assert SlotOrdered(w.db, q, k, pending);
    if q == p {
      assert RowChecks(p, w.db.parents[p]);
      PointedKeepsOtherMeasure(p, w.db.parents[p], m, after, id, k);
    }
    SlotKept(w.db.events, id, v.db.events[id], q, k, w.db.parents[q], v.db.parents[q]);
  }

  /** An accepted write leaves everything else as it was and settles its own log. */
  lemma WriteKeepsOrder(w: Work, pending: set<Slot>, p: ParentId, m: Measure, id: int, after: Facts, reason: Reason)
    requires Writable(w.db, pending, p, m, id, after, reason)
    requires (p, m) in pending || NoBareDowngrade(FactsOf(w.db.parents[p], m).status, after.status, reason)
    ensures Ordered(WriteEvent(w, p, m, id, after, reason).db, pending - {(p, m)})
  {
    var v := WriteEvent(w, p, m, id, after, reason);
    WrittenEvent(w, pending, p, m, id, after, reason);
    WrittenRow(w, pending, p, m, id, after, reason);
    WriteKeepsEvents(w, pending, p, m, id, after, reason);
    forall q, k | q in v.db.parents && Governs(q, k) ensures SlotOrdered(v.db, q, k, pending - {(p, m)}) {
      if (q, k) != (p, m) { WriteKeepsOtherSlot(w, pending, p, m, id, after, reason, q, k); }
    }
    forall q | q in v.db.parents ensures RowChecks(q, v.db.parents[q]) {
      if q != p { assert RowChecks(q, w.db.parents[q]); }
    }
  }

  lemma WriteKeepsEvidence(w: Work, p: ParentId, m: Measure, id: int, after: Facts, reason: Reason, exempt: set<int>)
    requires p in w.db.parents && Evidenced(w.db, exempt)
    ensures Evidenced(WriteEvent(w, p, m, id, after, reason).db, exempt + {id})
    ensures after.status != Some(Confirmed) ==> Evidenced(WriteEvent(w, p, m, id, after, reason).db, exempt)
  {
  }

  /** A parent row inserted with empty pointers makes its logs pending and nothing else. */
  lemma InsertKeepsOrder(w: Work, pending: set<Slot>, p: ParentId, row: ParentRow, slots: set<Slot>)
    requires Ordered(w.db, pending) && p !in w.db.parents && RowChecks(p, row)
    requires forall m :: Governs(p, m) ==> PointerOf(row, m).None? && (p, m) in slots
    requires forall s :: s in slots ==> s.0 == p
    ensures Ordered(Apply(w, InsertParent(p, row)).db, pending + slots)
  {
    var v := Apply(w, InsertParent(p, row));
    forall i | i in v.db.events ensures EventOrdered(v.db, i) { assert EventOrdered(w.db, i); }
    forall q, k | q in v.db.parents && Governs(q, k) ensures SlotOrdered(v.db, q, k, pending + slots) {
      if q == p {
        forall i | i in v.db.events ensures !InLog(v.db.events[i], p, k) {
          assert EventOrdered(w.db, i);
          InLogIsParentOf(w.db.events[i], p, k);
        }
      } else {
        assert SlotOrdered(w.db, q, k, pending);
      }
    }
    forall q | q in v.db.parents ensures RowChecks(q, v.db.parents[q]) {
      if q != p { assert RowChecks(q, w.db.parents[q]); }
    }
  }

  // ---------------------------------------------------------------------------
  // The services.
  // ---------------------------------------------------------------------------

  ghost predicate Accepted(w: Work) { EventsAccepted(w) && FinalRowsAccepted(w) }

  ghost predicate FreshFrom(db: Db, n: int) {
    && (forall i :: i in db.events ==> i < n)
    && (forall i :: i in db.evidence ==> i < n)
    && (forall p :: p in db.parents ==> p.id < n)
  }

  lemma ServiceFactsAreRecordable(computed: Option<int>, from: Option<int>, now: int, amount: int, user: int,
      first: int, last: int)
    ensures Recordable(ExpectedAmount, ExpectedFacts(computed, now), Recalculation)
    ensures Recordable(ExpectedAmount, ExpectedFacts(computed, now), ManualEntry)
    ensures computed.Some? ==> from.Some? ==>
              Recordable(AnnualFinancialImpact, ImpactFacts(computed, from), ManualEntry)
    ensures Recordable(AnnualFinancialImpact, UNKNOWN, ManualEntry) && Recordable(RealisedSavings, UNKNOWN, ManualEntry)
    ensures first <= last ==>
              Recordable(RealisedSavings, SavingsFacts(amount, now, user, first, last), EvidenceReceived)
  {
  }

  lemma UnknownRowsAreLegal(n: int, org: int, spend: Option<int>)
    ensures RowChecks(Rebate(n), RebateRow(org, UNKNOWN, None, spend, None))
    ensures RowChecks(Opportunity(n), OpportunityRow(org, UNKNOWN, None, UNKNOWN, None, Identified))
  {
  }

  lemma RecalculationRule(now: Option<Status>, computed: Option<int>, at: int)
    requires now.Some? && !now.value.OtherStatus?
    ensures NoBareDowngrade(now, ExpectedFacts(computed, at).status, Recalculation)
        <==> if computed.Some? then now != Some(Confirmed) else now == Some(Unknown) || now == Some(NotApplicable)
  {
  }

  /** A write whose event the chain trigger refuses never commits. */
  lemma RefusedWrite(w: Work, id: int)
    requires EventFiring(id) in w.queue && id in w.db.events && !ChainTrigger(w.db.events, w.db.events[id])
    ensures !Accepted(w)
  {
    var i :| 0 <= i < |w.queue| && w.queue[i] == EventFiring(id);
  }

  /** One write that is no bare downgrade and needs no evidence rows commits. */
  lemma SettledWriteCommits(db: Db, p: ParentId, m: Measure, n: int, after: Facts, reason: Reason)
    requires ServiceLedger(db) && Writable(db, {}, p, m, n, after, reason) && after.status != Some(Confirmed)
    requires NoBareDowngrade(FactsOf(db.parents[p], m).status, after.status, reason)
    ensures var w := WriteEvent(Work(db, []), p, m, n, after, reason); Accepted(w) && ServiceLedger(w.db)
  {
    var w := WriteEvent(Work(db, []), p, m, n, after, reason);
    WriteKeepsOrder(Work(db, []), {}, p, m, n, after, reason);
    WriteKeepsEvidence(Work(db, []), p, m, n, after, reason, {});
    NothingPendingAfter(p, m);
    ServiceLedgerIsOk(w.db);
    OrderIsAccepted(w);
  }

  lemma BareDowngradeNeverCommits(db: Db, p: ParentId, m: Measure, n: int, after: Facts, reason: Reason)
    requires Writable(db, {}, p, m, n, after, reason)
             && !NoBareDowngrade(FactsOf(db.parents[p], m).status, after.status, reason)
    ensures !Accepted(WriteEvent(Work(db, []), p, m, n, after, reason))
  {
    var w := WriteEvent(Work(db, []), p, m, n, after, reason);
    WrittenEvent(Work(db, []), {}, p, m, n, after, reason);
    assert w.queue[0] == EventFiring(n);
    RefusedWrite(w, n);
  }

  /** recalculate_expected on a settled row, from a fresh read: it commits if and only if the new state
      is no bare downgrade, that is, unless the row is confirmed, or has an amount that would be lost. */
  lemma RecalculationAccepted(db: Db, p: ParentId, n: int, computed: Option<int>, now: int)
    requires ServiceLedger(db) && FreshFrom(db, n) && p in db.parents && p.Rebate?
    ensures var w := WriteEvent(Work(db, []), p, ExpectedAmount, n, ExpectedFacts(computed, now), Recalculation);
            var status := FactsOf(db.parents[p], ExpectedAmount).status;
            && RowChecks(p, w.db.parents[p]) && EventChecks(w.db.events[n])
            && (Accepted(w) <==>
                  if computed.Some? then status != Some(Confirmed)
                  else status == Some(Unknown) || status == Some(NotApplicable))
            && (Accepted(w) ==> ServiceLedger(w.db))
  {
    var after := ExpectedFacts(computed, now);
    var w := WriteEvent(Work(db, []), p, ExpectedAmount, n, after, Recalculation);
    ServiceFactsAreRecordable(computed, None, now, 0, 0, 0, 0);
    WrittenEvent(Work(db, []), {}, p, ExpectedAmount, n, after, Recalculation);
    WrittenRow(Work(db, []), {}, p, ExpectedAmount, n, after, Recalculation);
    RowChecksAt(p, db.parents[p], ExpectedAmount);
    RecalculationRule(FactsOf(db.parents[p], ExpectedAmount).status, computed, now);
    if NoBareDowngrade(FactsOf(db.parents[p], ExpectedAmount).status, after.status, Recalculation) {
      SettledWriteCommits(db, p, ExpectedAmount, n, after, Recalculation);
    } else {
      BareDowngradeNeverCommits(db, p, ExpectedAmount, n, after, Recalculation);
    }
  }

  /** record_period_actual always commits. */
  lemma NewPeriodAccepted(db: Db, n: int, org: int, spend: Option<int>, computed: Option<int>, now: int)
    requires ServiceLedger(db) && FreshFrom(db, n)
    ensures var w := NewPeriod(Work(db, []), n, org, spend, computed, now);
            Accepted(w) && ServiceLedger(w.db)
  {
    var p := Rebate(n);
    var slot := (p, ExpectedAmount);
    var inserted := Apply(Work(db, []), InsertParent(p, RebateRow(org, UNKNOWN, None, spend, None)));
    UnknownRowsAreLegal(n, org, spend);
    InsertKeepsOrder(Work(db, []), {}, p, RebateRow(org, UNKNOWN, None, spend, None), {slot});
    assert {} + {slot} == {slot} && {slot} - {slot} == {};
    ServiceFactsAreRecordable(computed, None, now, 0, 0, 0, 0);
    WriteKeepsOrder(inserted, {slot}, p, ExpectedAmount, n + 1, ExpectedFacts(computed, now), ManualEntry);
    WriteKeepsEvidence(inserted, p, ExpectedAmount, n + 1, ExpectedFacts(computed, now), ManualEntry, {});
    var w := NewPeriod(Work(db, []), n, org, spend, computed, now);
    ServiceLedgerIsOk(w.db);
    OrderIsAccepted(w);
  }

  /** The first events of both measures settle a new opportunity. */
  lemma FirstEventsKeepOrder(w: Work, p: ParentId, n: int, facts: Facts)
    requires Ordered(w.db, {(p, AnnualFinancialImpact), (p, RealisedSavings)}) && Evidenced(w.db, {})
    requires p in w.db.parents && p.Opportunity? && n !in w.db.events && n + 1 !in w.db.events
    requires Recordable(AnnualFinancialImpact, facts, ManualEntry) && facts.status != Some(Confirmed)
    ensures var first := WriteEvent(w, p, AnnualFinancialImpact, n, facts, ManualEntry);
            ServiceLedger(WriteEvent(first, p, RealisedSavings, n + 1, UNKNOWN, ManualEntry).db)
  {
    var a, b := (p, AnnualFinancialImpact), (p, RealisedSavings);
    assert {a, b} - {a} == {b} && {b} - {b} == {};
    var first := WriteEvent(w, p, AnnualFinancialImpact, n, facts, ManualEntry);
    WriteKeepsOrder(w, {a, b}, p, AnnualFinancialImpact, n, facts, ManualEntry);
    WriteKeepsEvidence(w, p, AnnualFinancialImpact, n, facts, ManualEntry, {});
    ServiceFactsAreRecordable(None, None, 0, 0, 0, 0, 0);
    WriteKeepsOrder(first, {b}, p, RealisedSavings, n + 1, UNKNOWN, ManualEntry);
    WriteKeepsEvidence(first, p, RealisedSavings, n + 1, UNKNOWN, ManualEntry, {});
  }

  /** create_opportunity always commits once it has passed its own argument check. */
  lemma NewOpportunityAccepted(db: Db, n: int, org: int, amount: Option<int>, from: Option<int>)
    requires ServiceLedger(db) && FreshFrom(db, n) && (amount.Some? ==> from.Some?)
    ensures var w := NewOpportunity(Work(db, []), n, org, amount, from);
            Accepted(w) && ServiceLedger(w.db)
  {
    var p := Opportunity(n);
    var slots := {(p, AnnualFinancialImpact), (p, RealisedSavings)};
    var row := OpportunityRow(org, UNKNOWN, None, UNKNOWN, None, Identified);
    var inserted := Apply(Work(db, []), InsertParent(p, row));
    UnknownRowsAreLegal(n, org, None);
    InsertKeepsOrder(Work(db, []), {}, p, row, slots);
    assert {} + slots == slots;
    ServiceFactsAreRecordable(amount, from, 0, 0, 0, 0, 0);
    FirstEventsKeepOrder(inserted, p, n + 1, ImpactFacts(amount, from));
    var w := NewOpportunity(Work(db, []), n, org, amount, from);
    ServiceLedgerIsOk(w.db);
    OrderIsAccepted(w);
  }

  /** Both insert a row that points nowhere yet, so before 0024 neither of them could ever commit. */
  lemma NewRowsNeverPassedImages(db: Db, n: int, org: int, spend: Option<int>, computed: Option<int>, now: int,
                                 amount: Option<int>, from: Option<int>)
    ensures !ImagesAccepted(NewPeriod(Work(db, []), n, org, spend, computed, now))
    ensures !ImagesAccepted(NewOpportunity(Work(db, []), n, org, amount, from))
  {
    NewRowIsRejected(NewPeriod(Work(db, []), n, org, spend, computed, now), Rebate(n), ExpectedAmount);
    NewRowIsRejected(NewOpportunity(Work(db, []), n, org, amount, from), Opportunity(n), RealisedSavings);
  }

  lemma NewRowIsRejected(w: Work, p: ParentId, m: Measure)
    requires w.queue != [] && w.queue[0].ParentFiring? && w.queue[0].p == p
    requires Governs(p, m) && PointerOf(w.queue[0].image, m).None?
    ensures !ImagesAccepted(w)
  {
    assert PointsNowhere(p, w.queue[0].image);
    NowhereIsRejected(w, p, w.queue[0].image);
  }

  /** The row create_opportunity_from_line inserts: the impact of the line, under the default statuses, and no
      event for either measure. */
  function LineRow(org: int, impact: Option<int>): ParentRow {
    OpportunityRow(org, UNKNOWN.(amount := impact), None, UNKNOWN, None, Identified)
  }

  /** It can never be stored: with an impact the row violates its constraint, and without one the deferred trigger
      refuses it at commit, whatever else the tables hold. */
  lemma OpportunityFromLineNeverCommits(db: Db, n: int, org: int, impact: Option<int>)
    ensures RowChecks(Opportunity(n), LineRow(org, impact)) <==> impact.None?
    ensures !FinalRowsAccepted(Apply(Work(db, []), InsertParent(Opportunity(n), LineRow(org, impact))))
  {
    var p, row := Opportunity(n), LineRow(org, impact);
    var w := Apply(Work(db, []), InsertParent(p, row));
    if impact.None? {
      UnknownRowsAreLegal(n, org, None);
      assert UNKNOWN.(amount := impact) == UNKNOWN;
    } else {
      assert !SnapshotChecks(AnnualFinancialImpact, FactsOf(row, AnnualFinancialImpact));
      assert Governs(p, AnnualFinancialImpact);
    }
    assert w.queue[0] == ParentFiring(p, row) && w.db.parents[p] == row;
    assert !SnapshotTrigger(w.db.events, p, row, RealisedSavings);
    assert !ParentTriggers(w.db.events, p, row);
  }

  /** The three evidence rows suffice for the confirmed event and disturb no other. */
  lemma EvidenceSuffices(w: Work, id: int, n: int, org: int)
    requires Evidenced(w.db, {id}) && id in w.db.events && w.db.events[id].measure == RealisedSavings
    requires forall i :: i in w.db.evidence ==> i < n
    ensures Evidenced(WithEvidence(w, id, n, org).db, {})
  {
    var v := WithEvidence(w, id, n, org);
    assert v.db.evidence[n].kind == DocumentedBaseline && v.db.evidence[n + 1].kind == ActualCostSource
        && v.db.evidence[n + 2].kind == VarianceCalculationReference;
    forall i, kinds | HasEvidence(w.db.evidence, i, kinds) ensures HasEvidence(v.db.evidence, i, kinds) {
      var j :| j in w.db.evidence && w.db.evidence[j].eventId == i && w.db.evidence[j].kind in kinds;
      assert v.db.evidence[j] == w.db.evidence[j];
    }
  }

  /** A row update that leaves the governed columns alone keeps everything in order. */
  lemma UngovernedUpdateKeepsOrder(w: Work, p: ParentId, row: ParentRow)
    requires ServiceLedger(w.db) && p in w.db.parents && Fits(p, row) && SameGoverned(p, row, w.db.parents[p])
    ensures var v := Apply(w, UpdateParent(p, row)); ServiceLedger(v.db) && Accepted(v)
  {
    var v := Apply(w, UpdateParent(p, row));
    assert RowChecks(p, w.db.parents[p]);
    forall i | i in v.db.events ensures EventOrdered(v.db, i) { assert EventOrdered(w.db, i); }
    forall q, k | q in v.db.parents && Governs(q, k) ensures SlotOrdered(v.db, q, k, {}) {
      assert SlotOrdered(w.db, q, k, {});
    }
    ServiceLedgerIsOk(v.db);
    OrderIsAccepted(v);
  }

  lemma EvidenceKeepsOrder(a: Db, b: Db)
    requires Ordered(a, {}) && b.events == a.events && b.parents == a.parents
    ensures Ordered(b, {})
  {
    forall i | i in b.events ensures EventOrdered(b, i) { assert EventOrdered(a, i); }
    forall q, k | q in b.parents && Governs(q, k) ensures SlotOrdered(b, q, k, {}) { assert SlotOrdered(a, q, k, {}); }
  }

  /** The confirmed event is in order, and waits for its evidence. */
  lemma RealisationWritten(db: Db, p: ParentId, n: int, amount: int, now: int, user: int, first: int, last: int)
    requires ServiceLedger(db) && FreshFrom(db, n) && p in db.parents && p.Opportunity? && first <= last
    ensures var after := SavingsFacts(amount, now, user, first, last);
            var w := WriteEvent(Work(db, []), p, RealisedSavings, n, after, EvidenceReceived);
            && Ordered(w.db, {}) && Evidenced(w.db, {n}) && w.db.evidence == db.evidence
            && n in w.db.events && w.db.events[n].measure == RealisedSavings
  {
    var after := SavingsFacts(amount, now, user, first, last);
    ServiceFactsAreRecordable(None, None, now, amount, user, first, last);
    RowChecksAt(p, db.parents[p], RealisedSavings);
    WriteKeepsOrder(Work(db, []), {}, p, RealisedSavings, n, after, EvidenceReceived);
    WriteKeepsEvidence(Work(db, []), p, RealisedSavings, n, after, EvidenceReceived, {});
    NothingPendingAfter(p, RealisedSavings);
    assert {} + {n} == {n};
  }

  /** record_realised_savings always commits once it has passed its own checks. */
  lemma RealisationAccepted(db: Db, p: ParentId, n: int, amount: int, now: int, user: int, first: int, last: int)
    requires ServiceLedger(db) && FreshFrom(db, n) && p in db.parents && p.Opportunity? && db.parents[p].OpportunityRow?
    requires db.parents[p].stage == Implementation && first <= last
    ensures var w := Realise(Work(db, []), p, n, db.parents[p].org, SavingsFacts(amount, now, user, first, last));
            Accepted(w) && ServiceLedger(w.db) && w.db.parents[p].stage == Stage.Realised
            && w.db.parents[p].savings == SavingsFacts(amount, now, user, first, last)
  {
    var after := SavingsFacts(amount, now, user, first, last);
    var org := db.parents[p].org;
    var written := WriteEvent(Work(db, []), p, RealisedSavings, n, after, EvidenceReceived);
    RealisationWritten(db, p, n, amount, now, user, first, last);
    EvidenceSuffices(written, n, n + 1, org);
    var proven := WithEvidence(written, n, n + 1, org);
    EvidenceKeepsOrder(written.db, proven.db);
    UngovernedUpdateKeepsOrder(proven, p, proven.db.parents[p].(stage := Stage.Realised));
  }
}
