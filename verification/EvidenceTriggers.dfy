/** The deferred constraint triggers of migrations 0021 and 0024, as the queries and conditions they
    run, and what each of them amounts to on tables that satisfy the CHECK and UNIQUE constraints. */
module EvidenceTriggers {
  import opened Sql
  import opened CheckExpressions
  import opened EvidenceSchema

  // ---------------------------------------------------------------------------
  // Rows of one log.
  // ---------------------------------------------------------------------------

  /** The parent row an event's two foreign keys name. */
  function ParentOf(e: Event): ParentId {
    if e.rebateId.Some? then Rebate(e.rebateId.value)
    else if e.opportunityId.Some? then Opportunity(e.opportunityId.value)
    else Rebate(0)
  }

  /** Does an event belong to the log of measure m of parent p? */
  predicate InLog(e: Event, p: ParentId, m: Measure) {
    e.measure == m && match p
      case Rebate(n) => e.rebateId == Some(n)
      case Opportunity(n) => e.opportunityId == Some(n)
  }

  /** The three unique constraints: one event per version of a log. */
  ghost predicate UniqueVersions(events: map<int, Event>) {
    forall i, j :: i in events && j in events && SameSlot(events[i], events[j]) ==> i == j
  }

  predicate SameSlot(a: Event, b: Event) {
    a.measure == b.measure && a.version == b.version && ParentOf(a) == ParentOf(b)
  }

  lemma InLogIsParentOf(e: Event, p: ParentId, m: Measure)
    requires EventChecks(e)
    ensures InLog(e, p, m) <==> e.measure == m && ParentOf(e) == p
  {
  }

  // ---------------------------------------------------------------------------
  // check_event_chain_integrity
  // ---------------------------------------------------------------------------

  /** The CASE expression that ranks statuses; it has no ELSE branch. */
  function Tier(s: Option<Status>): Option<int> {
    match s
    case None => None
    case Some(t) =>
      match t
      case Unknown => Some(0)
      case NotApplicable => Some(0)
      case LegacyUnverified => Some(1)
      case Estimated => Some(2)
      case Calculated => Some(3)
      case Confirmed => Some(4)
      case OtherStatus(_) => None
  }

  predicate AllowsDowngrade(r: Reason) { r == Correction || r == EvidenceWithdrawn || r == SourceDataRestated }

  /** The rows of the query for the immediately preceding event. */
  predicate Precedes(prev: Event, e: Event) {
    prev.measure == e.measure && prev.version == e.version - 1
    && prev.rebateId == e.rebateId && prev.opportunityId == e.opportunityId
  }

  /** Does the trigger accept event e when the query returned prev? */
  predicate LinkAccepted(prev: Event, e: Event) {
    && e.before == prev.after
    && !Taken(And(Less(Tier(e.after.status), Tier(prev.after.status)), Of(!AllowsDowngrade(e.reason))))
  }

  ghost predicate ChainTrigger(events: map<int, Event>, e: Event) {
    e.version == 1 || exists i :: i in events && Precedes(events[i], e) && LinkAccepted(events[i], e)
  }

  // The same rules in management_accounting, written a second time there.

  const EVIDENCE_TIER_BY_STATUS: map<Status, int> :=
    map[Unknown := 0, NotApplicable := 0, LegacyUnverified := 1, Estimated := 2, Calculated := 3, Confirmed := 4]

  const DOWNGRADE_APPROPRIATE_REASON_CODES: set<Reason> := {Correction, EvidenceWithdrawn, SourceDataRestated}

  /** classify_evidence_tier; None stands for the ValueError. */
  function ClassifyTier(s: Status): Option<int> {
    if s in EVIDENCE_TIER_BY_STATUS then Some(EVIDENCE_TIER_BY_STATUS[s]) else None
  }

  /** is_evidence_downgrade; None stands for the ValueError. */
  function IsDowngrade(previous: Option<Status>, next: Status): Option<bool> {
    match previous
    case None => Some(false)
    case Some(s) =>
      if ClassifyTier(next).None? || ClassifyTier(s).None? then None
      else Some(ClassifyTier(next).value < ClassifyTier(s).value)
  }

  lemma TablesAgree(s: Status, r: Reason)
    ensures ClassifyTier(s) == Tier(Some(s))
    ensures r in DOWNGRADE_APPROPRIATE_REASON_CODES <==> AllowsDowngrade(r)
  {
    match s
    case Unknown =>
    case NotApplicable =>
    case LegacyUnverified =>
    case Estimated =>
    case Calculated =>
    case Confirmed =>
    case OtherStatus(_) =>
  }

  /** The Python rule and the trigger agree whenever the Python rule answers; outside the vocabulary
      Python raises and the trigger lets the event through. */
  lemma DowngradeRulesAgree(prev: Event, e: Event)
    requires e.before == prev.after && prev.after.status.Some? && e.after.status.Some?
    ensures var python := IsDowngrade(prev.after.status, e.after.status.value);
            LinkAccepted(prev, e) <==> python != Some(true) || e.reason in DOWNGRADE_APPROPRIATE_REASON_CODES
    ensures IsDowngrade(prev.after.status, e.after.status.value).None?
            <==> prev.after.status.value.OtherStatus? || e.after.status.value.OtherStatus?
  {
    TablesAgree(prev.after.status.value, e.reason);
    TablesAgree(e.after.status.value, e.reason);
  }

  // ---------------------------------------------------------------------------
  // check_confirmed_event_has_sufficient_evidence
  // ---------------------------------------------------------------------------

  predicate HasEvidence(evidence: map<int, Evidence>, event: int, kinds: set<EvidenceKind>) {
    exists i :: i in evidence && evidence[i].eventId == event && evidence[i].kind in kinds
  }

  predicate EvidenceTrigger(evidence: map<int, Evidence>, id: int, e: Event) {
    if e.after.status != Some(Confirmed) then true
    else if e.measure == RealisedSavings && e.after.basis == Some(ReconciledActuals) then
      && HasEvidence(evidence, id, {DocumentedBaseline})
      && HasEvidence(evidence, id, {ActualCostSource})
      && HasEvidence(evidence, id, {VarianceCalculationReference})
    else e.measure == ExpectedAmount ==> HasEvidence(evidence, id, {SupplierStatementDocument, CreditNoteDocument})
  }

  // ---------------------------------------------------------------------------
  // The parent triggers.  They differ only in the row image they are given.
  // ---------------------------------------------------------------------------

  ghost predicate IsLatest(events: map<int, Event>, p: ParentId, m: Measure, id: int) {
    id in events && InLog(events[id], p, m)
    && forall j :: j in events && InLog(events[j], p, m) ==> events[j].version <= events[id].version
  }

  /** SELECT id ... ORDER BY event_version DESC LIMIT 1 */
  ghost function LatestId(events: map<int, Event>, p: ParentId, m: Measure): Option<int> {
    if exists id :: IsLatest(events, p, m, id) then (var id :| IsLatest(events, p, m, id); Some(id)) else None
  }

  /** The columns of the event a pointer names; all NULL when there is no such row. */
  function Lookup(events: map<int, Event>, id: int): Option<Event> {
    if id in events then Some(events[id]) else None
  }

  /** The condition under which the trigger reports a pointer to somebody else's event. */
  function PointerMismatch(p: ParentId, row: ParentRow, m: Measure, ev: Option<Event>): Truth {
    var org := if ev.Some? then Some(ev.value.org) else None;
    var measure := if ev.Some? then Some(ev.value.measure) else None;
    var key := if ev.None? then None else if p.Rebate? then ev.value.rebateId else ev.value.opportunityId;
    Or(Or(NotEqual(org, Some(row.org)), NotEqual(key, Some(p.id))), NotEqual(measure, Some(m)))
  }

  ghost predicate SnapshotTrigger(events: map<int, Event>, p: ParentId, row: ParentRow, m: Measure) {
    && PointerOf(row, m).Some?
    && var id := PointerOf(row, m).value;
       var ev := Lookup(events, id);
       && !Taken(PointerMismatch(p, row, m, ev))
       && FactsOf(row, m) == Visible(m, if ev.Some? then ev.value.after else EMPTY)
       && !Taken(NotEqual(LatestId(events, p, m), Some(id)))
  }

  /** All parent triggers on one row image: one for a rebate period, two for an opportunity. */
  ghost predicate ParentTriggers(events: map<int, Event>, p: ParentId, row: ParentRow) {
    if p.Rebate? then SnapshotTrigger(events, p, row, ExpectedAmount)
    else SnapshotTrigger(events, p, row, AnnualFinancialImpact) && SnapshotTrigger(events, p, row, RealisedSavings)
  }

  /** What the snapshot trigger is for: the row repeats the latest event of its own log. */
  ghost predicate ShowsLatest(events: map<int, Event>, p: ParentId, row: ParentRow, m: Measure) {
    && PointerOf(row, m).Some?
    && var id := PointerOf(row, m).value;
       IsLatest(events, p, m, id) && events[id].org == row.org && FactsOf(row, m) == Visible(m, events[id].after)
  }

  /** A log with an event has a latest one. */
  lemma {:induction false} LatestExists(events: map<int, Event>, p: ParentId, m: Measure, id: int)
    requires id in events && InLog(events[id], p, m)
    ensures exists i :: IsLatest(events, p, m, i)
    decreases |events|
  {
    var rest := map i | i in events && i != id :: events[i];
    assert rest.Keys == events.Keys - {id};
    if j :| j in rest && InLog(rest[j], p, m) && rest[j].version > events[id].version {
      LatestExists(rest, p, m, j);
      var k :| IsLatest(rest, p, m, k);
      assert IsLatest(events, p, m, k) by {
        forall i | i in events && InLog(events[i], p, m) ensures events[i].version <= events[k].version {
          assert i == id || (i in rest && InLog(rest[i], p, m));
          assert rest[j].version <= rest[k].version;
        }
      }
    } else {
      assert IsLatest(events, p, m, id) by {
        forall i | i in events && InLog(events[i], p, m) ensures events[i].version <= events[id].version {
          assert i == id || (i in rest && InLog(rest[i], p, m));
        }
      }
    }
  }

  /** Although its comparisons can be NULL, the trigger accepts exactly the rows that repeat the
      latest event of their own log: the CHECK constraints close every NULL case. */
  lemma SnapshotTriggerMeans(events: map<int, Event>, p: ParentId, row: ParentRow, m: Measure)
    requires forall i :: i in events ==> EventChecks(events[i])
    requires UniqueVersions(events) && Governs(p, m) && FactsOf(row, m).status.Some?
    ensures SnapshotTrigger(events, p, row, m) <==> ShowsLatest(events, p, row, m)
  {
    if PointerOf(row, m).Some? {
      var id := PointerOf(row, m).value;
      if id in events {
        assert EventChecks(events[id]);
        MismatchMeans(p, row, m, events[id]);
        if InLog(events[id], p, m) { LatestIsFound(events, p, m, id); }
      }
    }
  }

  /** For an event that exists the first condition reports exactly those of another organisation or log. */
  lemma MismatchMeans(p: ParentId, row: ParentRow, m: Measure, e: Event)
    requires EventChecks(e) && Governs(p, m)
    ensures !Taken(PointerMismatch(p, row, m, Some(e))) <==> e.org == row.org && InLog(e, p, m)
  {
  }

  /** The second finds the only latest event of a log that is not empty. */
  lemma LatestIsFound(events: map<int, Event>, p: ParentId, m: Measure, id: int)
    requires forall i :: i in events ==> EventChecks(events[i])
    requires UniqueVersions(events) && id in events && InLog(events[id], p, m)
    ensures LatestId(events, p, m).Some?
    ensures LatestId(events, p, m) == Some(id) <==> IsLatest(events, p, m, id)
  {
    LatestExists(events, p, m, id);
    var latest := LatestId(events, p, m).value;
    assert IsLatest(events, p, m, latest);
    if IsLatest(events, p, m, id) {
      InLogIsParentOf(events[id], p, m);
      InLogIsParentOf(events[latest], p, m);
      assert SameSlot(events[id], events[latest]);
    }
  }

  /** Without the CHECK that an event has exactly one parent the NULL cases stay open: this pointer
      names an event of the right measure with no parent at all, and the trigger accepts it. */
  lemma OrphanEventSlipsThrough()
    ensures var orphan := Event(1, None, None, ExpectedAmount, 1, EMPTY, EMPTY.(status := Some(Unknown)), ManualEntry);
            var row := RebateRow(1, EMPTY.(status := Some(Unknown)), Some(7), None, None);
            SnapshotTrigger(map[7 := orphan], Rebate(3), row, ExpectedAmount)
            && !ShowsLatest(map[7 := orphan], Rebate(3), row, ExpectedAmount)
  {
    var orphan := Event(1, None, None, ExpectedAmount, 1, EMPTY, EMPTY.(status := Some(Unknown)), ManualEntry);
    assert forall i :: !IsLatest(map[7 := orphan], Rebate(3), ExpectedAmount, i);
  }

}
