/** The statements a service call issues one by one, from the copy of its row it works on, and what each of them
    needs of the tables its session sees. */
module EvidenceStatements {
  import opened Sql
  import opened CheckExpressions
  import opened EvidenceSchema
  import opened EvidenceTriggers
  import opened EvidenceTransactions
  import opened EvidenceConcurrency
  import opened EvidenceServices
  import opened EvidenceAcceptance
  import opened EvidenceHistory
  import opened EvidenceCopies

  // ---------------------------------------------------------------------------
  // The statements of a call.
  // ---------------------------------------------------------------------------

  /** The two statements of one write: the event, then the row that points at it. */
  ghost function Writes(db: Db, p: ParentId, m: Measure, id: int, after: Facts, reason: Reason): seq<Action>
    requires p in db.parents
  {
    var row := db.parents[p];
    [AddEvent(id, EventFor(p, row, m, LastVersion(db.events, p, m) + 1, after, reason)),
     Update(p, Pointed(row, m, after, id))]
  }

  /** The same from a copy. */
  ghost function WritesFrom(db: Db, p: ParentId, copy: ParentRow, m: Measure, id: int, after: Facts, reason: Reason)
    : seq<Action>
    requires p in db.parents
  {
    [AddEvent(id, EventFor(p, copy, m, LastVersion(db.events, p, m) + 1, after, reason)),
     Update(p, Flushed(db.parents[p], copy, Pointed(copy, m, after, id)))]
  }

  function EvidenceRows(id: int, n: int, org: int): seq<Action> {
    [AddEvidence(n, Evidence(org, id, DocumentedBaseline)), AddEvidence(n + 1, Evidence(org, id, ActualCostSource)),
     AddEvidence(n + 2, Evidence(org, id, VarianceCalculationReference))]
  }

  /** What a statement does to what its session sees. */
  function Effect(db: Db, a: Action): Db {
    match a
    case Insert(p, row) => db.(parents := db.parents[p := row])
    case Update(p, row) => db.(parents := db.parents[p := row])
    case AddEvent(id, e) => db.(events := db.events[id := e])
    case AddEvidence(id, item) => db.(evidence := db.evidence[id := item])
    case _ => db
  }

  function Effects(db: Db, todo: seq<Action>): Db
    decreases |todo|
  {
    if todo == [] then db else Effects(Effect(db, todo[0]), todo[1..])
  }

  /** A new opportunity's row, and what the tables are with it. */
  function NewOpportunityRow(org: int): ParentRow { OpportunityRow(org, UNKNOWN, None, UNKNOWN, None, Identified) }

  function Inserted(db: Db, n: int, org: int): Db { Effect(db, Insert(Opportunity(n), NewOpportunityRow(org))) }

  /** The first events of both measures of a new opportunity. */
  ghost function FirstWrites(db: Db, p: ParentId, n: int, facts: Facts): seq<Action>
    requires p in db.parents
  {
    var first := WriteEvent(Work(db, []), p, AnnualFinancialImpact, n, facts, ManualEntry).db;
    Writes(db, p, AnnualFinancialImpact, n, facts, ManualEntry)
    + Writes(first, p, RealisedSavings, n + 1, UNKNOWN, ManualEntry)
  }

  /** All statements of a call on the tables it sees, its new identities starting at n. */
  ghost function Statements(db: Db, n: int, c: Call, copy: ParentRow): seq<Action>
    requires CallableFrom(db, n, c, copy)
  {
    match c
    case RecordPeriod(org, spend, computed, at) =>
      var insert := Insert(Rebate(n), RebateRow(org, UNKNOWN, None, spend, None));
      [insert] + Writes(Effect(db, insert), Rebate(n), ExpectedAmount, n + 1, ExpectedFacts(computed, at), ManualEntry)
    case Recalculate(p, newSpend, amount, at) =>
      var now := copy.(spend := Some(newSpend));
      var update := Update(p, Flushed(db.parents[p], copy, now));
      [update] + WritesFrom(Effect(db, update), p, now, ExpectedAmount, n, ExpectedFacts(Some(amount), at),
          Recalculation)
    case Close(p) => [Update(p, Flushed(db.parents[p], copy, copy.(earned := copy.expected.amount)))]
    case Create(org, estimate, from) =>
      var p := Opportunity(n);
      [Insert(p, NewOpportunityRow(org))] + FirstWrites(Inserted(db, n, org), p, n + 1, ImpactFacts(estimate, from))
    case Advance(p, stage) => [Update(p, Flushed(db.parents[p], copy, copy.(stage := stage)))]
    case RealiseSavings(p, amount, at, user, first, last) =>
      var after := SavingsFacts(amount, at, user, first, last);
      var now := Pointed(copy, RealisedSavings, after, n);
      var row := Flushed(db.parents[p], copy, now);
      WritesFrom(db, p, copy, RealisedSavings, n, after, EvidenceReceived)
      + (EvidenceRows(n, n + 1, copy.org) + [Update(p, Flushed(row, now, now.(stage := Stage.Realised)))])
  }

  // ---------------------------------------------------------------------------
  // Statements whose time has come.
  // ---------------------------------------------------------------------------

  /** What a statement needs of the tables its own session sees. */
  predicate Admissible(db: Db, a: Action) {
    match a
    case Insert(p, row) => p !in db.parents && RowChecks(p, row) && PointersExist(db.events, row)
    case Update(p, row) => p in db.parents && RowChecks(p, row) && PointersExist(db.events, row)
    case AddEvent(id, e) => EventChecks(e) && ParentOf(e) in db.parents && FreshIn(db.events, id, e)
    case AddEvidence(id, item) =>
      item.eventId in db.events && db.events[item.eventId].org == item.org && id !in db.evidence
    case _ => false
  }

  predicate Ready(db: Db, todo: seq<Action>)
    decreases |todo|
  {
    todo == [] || (Admissible(db, todo[0]) && Ready(Effect(db, todo[0]), todo[1..]))
  }

  lemma {:induction false} ReadyInTurn(db: Db, a: seq<Action>, b: seq<Action>)
    requires Ready(db, a) && Ready(Effects(db, a), b)
    ensures Ready(db, a + b) && Effects(db, a + b) == Effects(Effects(db, a), b)
    decreases |a|
  {
    if a == [] {
      assert a + b == b;
    } else {
      assert (a + b)[1..] == a[1..] + b;
      ReadyInTurn(Effect(db, a[0]), a[1..], b);
    }
  }

  lemma ReadyAlone(db: Db, a: Action)
    requires Admissible(db, a)
    ensures Ready(db, [a]) && Effects(db, [a]) == Effect(db, a)
  {
    assert [a][1..] == [];
  }

  lemma PointersOfOrdered(db: Db, pending: set<Slot>, p: ParentId)
    requires Ordered(db, pending) && p in db.parents
    ensures PointersExist(db.events, db.parents[p])
  {
    var row := db.parents[p];
    assert RowChecks(p, row);
    forall m | m in {ExpectedAmount, AnnualFinancialImpact, RealisedSavings} && PointerOf(row, m).Some?
      ensures PointerOf(row, m).value in db.events
    {
      var g := if p.Rebate? then ExpectedAmount else if m == AnnualFinancialImpact then m else RealisedSavings;
      assert PointerOf(row, m) == PointerOf(row, g) && Governs(p, g);
      assert SlotOrdered(db, p, g, pending);
    }
  }

  lemma PointedAtEvent(events: map<int, Event>, p: ParentId, row: ParentRow, m: Measure, id: int, e: Event,
      after: Facts)
    requires PointersExist(events, row) && Fits(p, row) && Governs(p, m)
    ensures PointersExist(events[id := e], Pointed(row, m, after, id))
  {
    var pointed := Pointed(row, m, after, id);
    forall k | k in {ExpectedAmount, AnnualFinancialImpact, RealisedSavings}
      ensures PointerOf(pointed, k) == Some(id) || PointerOf(pointed, k) == PointerOf(row, k)
    {
    }
  }

  lemma WritesAreReady(db: Db, pending: set<Slot>, p: ParentId, m: Measure, id: int, after: Facts, reason: Reason)
    requires Writable(db, pending, p, m, id, after, reason)
    ensures var todo := Writes(db, p, m, id, after, reason);
            Ready(db, todo) && Effects(db, todo) == WriteEvent(Work(db, []), p, m, id, after, reason).db
  {
    var w := Work(db, []);
    var todo := Writes(db, p, m, id, after, reason);
    var add, update := todo[0], todo[1];
    WrittenEvent(w, pending, p, m, id, after, reason);
    WrittenRow(w, pending, p, m, id, after, reason);
    var v := WriteEvent(w, p, m, id, after, reason).db;
    assert FreshIn(db.events, id, add.event) by {
      forall i | i in db.events ensures !SameSlot(db.events[i], add.event) {
        assert v.events[i] == db.events[i] && v.events[id] == add.event;
      }
    }
    assert Admissible(db, add);
    var next := Effect(db, add);
    assert PointersExist(next.events, update.row) by {
      PointersOfOrdered(db, pending, p);
      assert RowChecks(p, db.parents[p]);
      PointedAtEvent(db.events, p, db.parents[p], m, id, add.event, after);
    }
    assert Admissible(next, update) && next.parents == db.parents;
    ReadyAlone(next, update);
    assert todo[1..] == [update];
    assert Effects(db, todo) == Effects(next, [update]);
  }

  // ---------------------------------------------------------------------------
  // Every call is ready, and does what it does alone.
  // ---------------------------------------------------------------------------

  /** The statements can be issued one by one on these tables, and leave the tables the call leaves. */
  ghost predicate Plays(db: Db, todo: seq<Action>, after: Db) { Ready(db, todo) && Effects(db, todo) == after }

  lemma PlaysInTurn(db: Db, a: seq<Action>, middle: Db, b: seq<Action>, after: Db)
    requires Plays(db, a, middle) && Plays(middle, b, after)
    ensures Plays(db, a + b, after)
  {
    ReadyInTurn(db, a, b);
  }

  lemma OnePlays(db: Db, a: Action)
    requires Admissible(db, a)
    ensures Plays(db, [a], Effect(db, a))
  {
    ReadyAlone(db, a);
  }

  lemma WritesPlay(w: Work, pending: set<Slot>, p: ParentId, m: Measure, id: int, after: Facts, reason: Reason)
    requires Writable(w.db, pending, p, m, id, after, reason)
    ensures Plays(w.db, Writes(w.db, p, m, id, after, reason), WriteEvent(w, p, m, id, after, reason).db)
  {
    WritesAreReady(w.db, pending, p, m, id, after, reason);
  }

  lemma UngovernedPlays(db: Db, p: ParentId, row: ParentRow)
    requires ServiceLedger(db) && p in db.parents && Fits(p, row) && SameGoverned(p, row, db.parents[p])
    ensures Plays(db, [Update(p, row)], Apply(Work(db, []), UpdateParent(p, row)).db)
    ensures ServiceLedger(Effect(db, Update(p, row)))
  {
    UngovernedUpdateKeepsOrder(Work(db, []), p, row);
    var next := Effect(db, Update(p, row));
    PointersOfOrdered(next, {}, p);
    assert RowChecks(p, next.parents[p]);
    OnePlays(db, Update(p, row));
  }

  lemma PeriodPlays(db: Db, n: int, c: Call, copy: ParentRow)
    requires ServiceLedger(db) && FreshFrom(db, n) && c.RecordPeriod? && CallableFrom(db, n, c, copy)
    ensures Plays(db, Statements(db, n, c, copy), PerformFrom(db, n, c, copy).db)
  {
    var p, row := Rebate(n), RebateRow(c.org, UNKNOWN, None, c.spend, None);
    var slot, insert := (p, ExpectedAmount), Insert(p, row);
    var inserted := Apply(Work(db, []), InsertParent(p, row));
    UnknownRowsAreLegal(n, c.org, c.spend);
    InsertKeepsOrder(Work(db, []), {}, p, row, {slot});
    assert {} + {slot} == {slot};
    ServiceFactsAreRecordable(c.computed, None, c.at, 0, 0, 0, 0);
    OnePlays(db, insert);
    WritesPlay(inserted, {slot}, p, ExpectedAmount, n + 1, ExpectedFacts(c.computed, c.at), ManualEntry);
    PlaysInTurn(db, [insert], inserted.db,
                Writes(inserted.db, p, ExpectedAmount, n + 1, ExpectedFacts(c.computed, c.at), ManualEntry),
                PerformFrom(db, n, c, copy).db);
  }

  lemma CurrentWritesAreTheWrites(db: Db, p: ParentId, copy: ParentRow, m: Measure, id: int, after: Facts,
      reason: Reason)
    requires p in db.parents && Fits(p, copy) && Fits(p, db.parents[p]) && Governs(p, m)
    requires ShowsRow(copy, db.parents[p], m) && PointerOf(copy, m) != Some(id)
    ensures WritesFrom(db, p, copy, m, id, after, reason) == Writes(db, p, m, id, after, reason)
  {
    CurrentWriteIsFresh(p, db.parents[p], copy, m, id, after);
  }

  lemma RecalculationPlays(db: Db, n: int, c: Call, copy: ParentRow)
    requires ServiceLedger(db) && FreshFrom(db, n) && c.Recalculate? && CallableFrom(db, n, c, copy)
    requires Serves(db, c, copy)
    ensures Plays(db, Statements(db, n, c, copy), PerformFrom(db, n, c, copy).db)
  {
    var now, after := copy.(spend := Some(c.newSpend)), ExpectedFacts(Some(c.amount), c.at);
    var row := Flushed(db.parents[c.p], copy, now);
    var touched := Apply(Work(db, []), UpdateParent(c.p, row));
    FlushedUngoverned(c.p, db.parents[c.p], copy, now);
    UngovernedPlays(db, c.p, row);
    ServiceFactsAreRecordable(Some(c.amount), None, c.at, 0, 0, 0, 0);
    assert PointerOf(now, ExpectedAmount) == PointerOf(copy, ExpectedAmount) != Some(n);
    CurrentWritesAreTheWrites(touched.db, c.p, now, ExpectedAmount, n, after, Recalculation);
    CurrentWriteIsTheWrite(touched, c.p, now, ExpectedAmount, n, after, Recalculation);
    WritesPlay(touched, {}, c.p, ExpectedAmount, n, after, Recalculation);
    PlaysInTurn(db, [Update(c.p, row)], touched.db,
                WritesFrom(touched.db, c.p, now, ExpectedAmount, n, after, Recalculation),
                PerformFrom(db, n, c, copy).db);
  }

  lemma InsertPlays(db: Db, n: int, org: int)
    requires ServiceLedger(db) && FreshFrom(db, n)
    ensures var p := Opportunity(n);
            && Plays(db, [Insert(p, NewOpportunityRow(org))], Inserted(db, n, org))
            && Ordered(Inserted(db, n, org), {(p, AnnualFinancialImpact), (p, RealisedSavings)})
  {
    var p, row := Opportunity(n), NewOpportunityRow(org);
    var slots := {(p, AnnualFinancialImpact), (p, RealisedSavings)};
    UnknownRowsAreLegal(n, org, None);
    InsertKeepsOrder(Work(db, []), {}, p, row, slots);
    assert {} + slots == slots;
    OnePlays(db, Insert(p, row));
  }

  lemma FirstWritesPlay(w: Work, p: ParentId, n: int, facts: Facts)
    requires Ordered(w.db, {(p, AnnualFinancialImpact), (p, RealisedSavings)}) && p in w.db.parents && p.Opportunity?
    requires n !in w.db.events && n + 1 !in w.db.events && Recordable(AnnualFinancialImpact, facts, ManualEntry)
    ensures var first := WriteEvent(w, p, AnnualFinancialImpact, n, facts, ManualEntry);
            Plays(w.db, FirstWrites(w.db, p, n, facts),
                  WriteEvent(first, p, RealisedSavings, n + 1, UNKNOWN, ManualEntry).db)
  {
    var a, b := (p, AnnualFinancialImpact), (p, RealisedSavings);
    var first := WriteEvent(w, p, AnnualFinancialImpact, n, facts, ManualEntry);
    WritesPlay(w, {a, b}, p, AnnualFinancialImpact, n, facts, ManualEntry);
    WriteKeepsOrder(w, {a, b}, p, AnnualFinancialImpact, n, facts, ManualEntry);
    assert {a, b} - {a} == {b};
    ServiceFactsAreRecordable(None, None, 0, 0, 0, 0, 0);
    WritesPlay(first, {b}, p, RealisedSavings, n + 1, UNKNOWN, ManualEntry);
    assert first.db == WriteEvent(Work(w.db, []), p, AnnualFinancialImpact, n, facts, ManualEntry).db;
    PlaysInTurn(w.db, Writes(w.db, p, AnnualFinancialImpact, n, facts, ManualEntry), first.db,
                Writes(first.db, p, RealisedSavings, n + 1, UNKNOWN, ManualEntry),
                WriteEvent(first, p, RealisedSavings, n + 1, UNKNOWN, ManualEntry).db);
  }

  lemma CreationPlays(db: Db, n: int, c: Call, copy: ParentRow)
    requires ServiceLedger(db) && FreshFrom(db, n) && c.Create? && CallableFrom(db, n, c, copy)
    ensures Plays(db, Statements(db, n, c, copy), PerformFrom(db, n, c, copy).db)
  {
    var p, facts := Opportunity(n), ImpactFacts(c.estimate, c.from);
    var w := Apply(Work(db, []), InsertParent(p, NewOpportunityRow(c.org)));
    InsertPlays(db, n, c.org);
    assert w.db == Inserted(db, n, c.org);
    ServiceFactsAreRecordable(c.estimate, c.from, 0, 0, 0, 0, 0);
    FirstWritesPlay(w, p, n + 1, facts);
    PlaysInTurn(db, [Insert(p, NewOpportunityRow(c.org))], w.db, FirstWrites(w.db, p, n + 1, facts),
                PerformFrom(db, n, c, copy).db);
  }

  lemma EvidencePlays(w: Work, id: int, n: int, org: int)
    requires id in w.db.events && w.db.events[id].org == org && forall i :: i in w.db.evidence ==> i < n
    ensures Plays(w.db, EvidenceRows(id, n, org), WithEvidence(w, id, n, org).db)
  {
    var todo := EvidenceRows(id, n, org);
    var one := Effect(w.db, todo[0]);
    var two := Effect(one, todo[1]);
    OnePlays(two, todo[2]);
    assert todo[1..][1..] == [todo[2]];
    assert Ready(one, todo[1..]) && Effects(one, todo[1..]) == Effect(two, todo[2]);
  }

  lemma RealisationWritesPlay(db: Db, n: int, c: Call, copy: ParentRow)
    requires ServiceLedger(db) && FreshFrom(db, n) && c.RealiseSavings? && CallableFrom(db, n, c, copy)
    requires Serves(db, c, copy)
    ensures var after := SavingsFacts(c.amount, c.at, c.user, c.first, c.last);
            var written := WriteFrom(Work(db, []), c.p, copy, RealisedSavings, n, after, EvidenceReceived);
            && Plays(db, WritesFrom(db, c.p, copy, RealisedSavings, n, after, EvidenceReceived), written.db)
            && Ordered(written.db, {}) && Evidenced(written.db, {n}) && written.db.evidence == db.evidence
            && n in written.db.events && written.db.events[n].measure == RealisedSavings
            && written.db.events[n].org == copy.org
            && written.db.parents[c.p] == Flushed(db.parents[c.p], copy, Pointed(copy, RealisedSavings, after, n))
  {
    var after := SavingsFacts(c.amount, c.at, c.user, c.first, c.last);
    ServiceFactsAreRecordable(None, None, c.at, c.amount, c.user, c.first, c.last);
    assert PointerOf(copy, RealisedSavings) != Some(n);
    CurrentWritesAreTheWrites(db, c.p, copy, RealisedSavings, n, after, EvidenceReceived);
    CurrentWriteIsTheWrite(Work(db, []), c.p, copy, RealisedSavings, n, after, EvidenceReceived);
    WritesPlay(Work(db, []), {}, c.p, RealisedSavings, n, after, EvidenceReceived);
    RealisationWritten(db, c.p, n, c.amount, c.at, c.user, c.first, c.last);
  }

  lemma RealisationPlays(db: Db, n: int, c: Call, copy: ParentRow)
    requires ServiceLedger(db) && FreshFrom(db, n) && c.RealiseSavings? && CallableFrom(db, n, c, copy)
    requires Serves(db, c, copy)
    ensures Plays(db, Statements(db, n, c, copy), PerformFrom(db, n, c, copy).db)
  {
    var after := SavingsFacts(c.amount, c.at, c.user, c.first, c.last);
    var written := WriteFrom(Work(db, []), c.p, copy, RealisedSavings, n, after, EvidenceReceived);
    RealisationWritesPlay(db, n, c, copy);
    EvidencePlays(written, n, n + 1, copy.org);
    StagePlays(written, c.p, n, copy.org, copy, after);
    var now, row := Pointed(copy, RealisedSavings, after, n), written.db.parents[c.p];
    var update := Update(c.p, Flushed(row, now, now.(stage := Stage.Realised)));
    PlaysInTurn(written.db, EvidenceRows(n, n + 1, copy.org), WithEvidence(written, n, n + 1, copy.org).db, [update],
                PerformFrom(db, n, c, copy).db);
    PlaysInTurn(db, WritesFrom(db, c.p, copy, RealisedSavings, n, after, EvidenceReceived), written.db,
                EvidenceRows(n, n + 1, copy.org) + [update], PerformFrom(db, n, c, copy).db);
  }

  /** The last statement of a realisation. */
  lemma StagePlays(written: Work, p: ParentId, n: int, org: int, copy: ParentRow, after: Facts)
    requires Ordered(written.db, {}) && Evidenced(written.db, {n}) && p in written.db.parents && p.Opportunity?
    requires n in written.db.events && written.db.events[n].measure == RealisedSavings && Fits(p, copy)
    requires forall i :: i in written.db.evidence ==> i < n + 1
    ensures var proven := WithEvidence(written, n, n + 1, org);
            var now := Pointed(copy, RealisedSavings, after, n);
            var row := Flushed(written.db.parents[p], now, now.(stage := Stage.Realised));
            Plays(proven.db, [Update(p, row)], Apply(proven, UpdateParent(p, row)).db)
  {
    EvidenceSuffices(written, n, n + 1, org);
    var proven := WithEvidence(written, n, n + 1, org);
    EvidenceKeepsOrder(written.db, proven.db);
    var now := Pointed(copy, RealisedSavings, after, n);
    assert RowChecks(p, written.db.parents[p]);
    FlushedUngoverned(p, written.db.parents[p], now, now.(stage := Stage.Realised));
    UngovernedPlays(proven.db, p, Flushed(written.db.parents[p], now, now.(stage := Stage.Realised)));
  }

  lemma UngovernedFromCopyPlays(db: Db, p: ParentId, copy: ParentRow, now: ParentRow)
    requires ServiceLedger(db) && p in db.parents && Fits(p, copy) && Fits(p, now)
    requires p.Rebate? ==> now.expected == copy.expected && now.expectedEvent == copy.expectedEvent
    requires p.Opportunity? ==> now.impact == copy.impact && now.impactEvent == copy.impactEvent
                                && now.savings == copy.savings && now.savingsEvent == copy.savingsEvent
    ensures var row := Flushed(db.parents[p], copy, now);
            Plays(db, [Update(p, row)], Apply(Work(db, []), UpdateParent(p, row)).db)
  {
    assert RowChecks(p, db.parents[p]);
    FlushedUngoverned(p, db.parents[p], copy, now);
    UngovernedPlays(db, p, Flushed(db.parents[p], copy, now));
  }

  /** On tables in order the statements of a call whose copy serves can be issued one after the other. */
  lemma CallPlays(db: Db, n: int, c: Call, copy: ParentRow)
    requires ServiceLedger(db) && FreshFrom(db, n) && CallableFrom(db, n, c, copy) && Serves(db, c, copy)
    ensures Plays(db, Statements(db, n, c, copy), PerformFrom(db, n, c, copy).db)
  {
    match c
    case RecordPeriod(_, _, _, _) => PeriodPlays(db, n, c, copy);
    case Recalculate(_, _, _, _) => RecalculationPlays(db, n, c, copy);
    case Close(p) => UngovernedFromCopyPlays(db, p, copy, copy.(earned := copy.expected.amount));
    case Create(_, _, _) => CreationPlays(db, n, c, copy);
    case Advance(p, stage) => UngovernedFromCopyPlays(db, p, copy, copy.(stage := stage));
    case RealiseSavings(_, _, _, _, _, _) => RealisationPlays(db, n, c, copy);
  }

  // ---------------------------------------------------------------------------
  // What the statements of a call touch.
  // ---------------------------------------------------------------------------

  /** A statement that touches nothing but rows the session has locked and things numbered from n on. */
  predicate IsOwn(a: Action, locks: set<ParentId>, n: int) {
    match a
    case Insert(p, _) => p.id >= n
    case Update(p, _) => p in locks || p.id >= n
    case AddEvent(id, _) => id >= n
    case AddEvidence(id, _) => id >= n
    case _ => false
  }

  ghost predicate AllOwn(todo: seq<Action>, locks: set<ParentId>, n: int) {
    forall a :: a in todo ==> IsOwn(a, locks, n)
  }

  /** The row of each event is written after it. */
  ghost predicate Covered(todo: seq<Action>) {
    forall a :: a in todo && a.AddEvent? ==> exists b :: b in todo && b.Update? && b.p == ParentOf(a.event)
  }

  /** No two events are given one identity. */
  ghost predicate Numbered(todo: seq<Action>) {
    forall i, j :: 0 <= i < j < |todo| && todo[i].AddEvent? && todo[j].AddEvent? ==> todo[i].id != todo[j].id
  }

  /** All that is asked of the statements of a call, whatever its copy. */
  ghost predicate Proper(todo: seq<Action>, locks: set<ParentId>, n: int) {
    AllOwn(todo, locks, n) && Covered(todo) && Numbered(todo)
  }

  lemma CoveredInTurn(a: seq<Action>, b: seq<Action>)
    requires Covered(a) && Covered(b)
    ensures Covered(a + b)
  {
    forall x | x in a + b && x.AddEvent? ensures exists y :: y in a + b && y.Update? && y.p == ParentOf(x.event) {
      var y :| (y in a || y in b) && y.Update? && y.p == ParentOf(x.event);
      assert y in a + b;
    }
  }

  /** The events of the statements are numbered id or are none. */
  ghost predicate EventsAre(todo: seq<Action>, ids: set<int>) { forall a :: a in todo && a.AddEvent? ==> a.id in ids }

  lemma ProperInTurn(a: seq<Action>, b: seq<Action>, locks: set<ParentId>, n: int, ids: set<int>, more: set<int>)
    requires Proper(a, locks, n) && Proper(b, locks, n) && EventsAre(a, ids) && EventsAre(b, more) && ids !! more
    ensures Proper(a + b, locks, n) && EventsAre(a + b, ids + more)
  {
    CoveredInTurn(a, b);
    var all := a + b;
    forall i, j | 0 <= i < j < |all| && all[i].AddEvent? && all[j].AddEvent? ensures all[i].id != all[j].id {
      if i < |a| <= j { assert a[i] in a && b[j - |a|] in b; }
    }
  }

  lemma OneIsProper(a: Action, locks: set<ParentId>, n: int)
    requires IsOwn(a, locks, n) && !a.AddEvent?
    ensures Proper([a], locks, n) && EventsAre([a], {})
  {
  }

  lemma WriteIsProper(p: ParentId, e: Event, id: int, row: ParentRow, locks: set<ParentId>, n: int)
    requires (p in locks || p.id >= n) && id >= n && ParentOf(e) == p
    ensures Proper([AddEvent(id, e), Update(p, row)], locks, n) && EventsAre([AddEvent(id, e), Update(p, row)], {id})
  {
    var todo := [AddEvent(id, e), Update(p, row)];
    assert todo[1].Update? && todo[1].p == ParentOf(todo[0].event) && todo[1] in todo;
  }

  lemma WritesAreProper(db: Db, p: ParentId, m: Measure, id: int, after: Facts, reason: Reason, locks: set<ParentId>,
      n: int)
    requires p in db.parents && (p in locks || p.id >= n) && id >= n
    ensures var todo := Writes(db, p, m, id, after, reason); Proper(todo, locks, n) && EventsAre(todo, {id})
  {
    var todo := Writes(db, p, m, id, after, reason);
    WriteIsProper(p, todo[0].event, id, todo[1].row, locks, n);
  }

  lemma WritesFromAreProper(db: Db, p: ParentId, copy: ParentRow, m: Measure, id: int, after: Facts, reason: Reason,
      locks: set<ParentId>, n: int)
    requires p in db.parents && (p in locks || p.id >= n) && id >= n
    ensures var todo := WritesFrom(db, p, copy, m, id, after, reason); Proper(todo, locks, n) && EventsAre(todo, {id})
  {
    var todo := WritesFrom(db, p, copy, m, id, after, reason);
    WriteIsProper(p, todo[0].event, id, todo[1].row, locks, n);
  }

  lemma PeriodIsProper(db: Db, n: int, c: Call, copy: ParentRow, locks: set<ParentId>)
    requires CallableFrom(db, n, c, copy) && c.RecordPeriod?
    ensures Proper(Statements(db, n, c, copy), locks, n)
  {
    var insert := Insert(Rebate(n), RebateRow(c.org, UNKNOWN, None, c.spend, None));
    var inserted, after := Effect(db, insert), ExpectedFacts(c.computed, c.at);
    OneIsProper(insert, locks, n);
    WritesAreProper(inserted, Rebate(n), ExpectedAmount, n + 1, after, ManualEntry, locks, n);
    ProperInTurn([insert], Writes(inserted, Rebate(n), ExpectedAmount, n + 1, after, ManualEntry), locks, n, {},
        {n + 1});
  }

  lemma RecalculationIsProper(db: Db, n: int, c: Call, copy: ParentRow, locks: set<ParentId>)
    requires CallableFrom(db, n, c, copy) && c.Recalculate? && c.p in locks
    ensures Proper(Statements(db, n, c, copy), locks, n)
  {
    var now, after := copy.(spend := Some(c.newSpend)), ExpectedFacts(Some(c.amount), c.at);
    var update := Update(c.p, Flushed(db.parents[c.p], copy, now));
    var touched := Effect(db, update);
    OneIsProper(update, locks, n);
    WritesFromAreProper(touched, c.p, now, ExpectedAmount, n, after, Recalculation, locks, n);
    ProperInTurn([update], WritesFrom(touched, c.p, now, ExpectedAmount, n, after, Recalculation), locks, n, {}, {n});
  }

  lemma FirstWritesAreProper(db: Db, p: ParentId, n: int, facts: Facts, locks: set<ParentId>, k: int)
    requires p in db.parents && p.id >= k && n >= k
    ensures Proper(FirstWrites(db, p, n, facts), locks, k) && EventsAre(FirstWrites(db, p, n, facts), {n, n + 1})
  {
    var first := WriteEvent(Work(db, []), p, AnnualFinancialImpact, n, facts, ManualEntry).db;
    WritesAreProper(db, p, AnnualFinancialImpact, n, facts, ManualEntry, locks, k);
    WritesAreProper(first, p, RealisedSavings, n + 1, UNKNOWN, ManualEntry, locks, k);
    ProperInTurn(Writes(db, p, AnnualFinancialImpact, n, facts, ManualEntry),
                 Writes(first, p, RealisedSavings, n + 1, UNKNOWN, ManualEntry), locks, k, {n}, {n + 1});
  }

  lemma CreationIsProper(db: Db, n: int, c: Call, copy: ParentRow, locks: set<ParentId>)
    requires CallableFrom(db, n, c, copy) && c.Create?
    ensures Proper(Statements(db, n, c, copy), locks, n)
  {
    var p, facts := Opportunity(n), ImpactFacts(c.estimate, c.from);
    var insert, inserted := Insert(p, NewOpportunityRow(c.org)), Inserted(db, n, c.org);
    OneIsProper(insert, locks, n);
    FirstWritesAreProper(inserted, p, n + 1, facts, locks, n);
    ProperInTurn([insert], FirstWrites(inserted, p, n + 1, facts), locks, n, {}, {n + 1, n + 1 + 1});
  }

  lemma EvidenceIsProper(id: int, n: int, org: int, locks: set<ParentId>, k: int)
    requires n >= k
    ensures Proper(EvidenceRows(id, n, org), locks, k) && EventsAre(EvidenceRows(id, n, org), {})
  {
  }

  lemma RealisationIsProper(db: Db, n: int, c: Call, copy: ParentRow, locks: set<ParentId>)
    requires CallableFrom(db, n, c, copy) && c.RealiseSavings? && c.p in locks
    ensures Proper(Statements(db, n, c, copy), locks, n)
  {
    var after := SavingsFacts(c.amount, c.at, c.user, c.first, c.last);
    var now := Pointed(copy, RealisedSavings, after, n);
    var row := Flushed(db.parents[c.p], copy, now);
    var update := Update(c.p, Flushed(row, now, now.(stage := Stage.Realised)));
    EvidenceIsProper(n, n + 1, copy.org, locks, n);
    OneIsProper(update, locks, n);
    ProperInTurn(EvidenceRows(n, n + 1, copy.org), [update], locks, n, {}, {});
    WritesFromAreProper(db, c.p, copy, RealisedSavings, n, after, EvidenceReceived, locks, n);
    ProperInTurn(WritesFrom(db, c.p, copy, RealisedSavings, n, after, EvidenceReceived),
                 EvidenceRows(n, n + 1, copy.org) + [update], locks, n, {n}, {} + {});
  }

  /** Whatever its copy, a call touches nothing but its row and new things. */
  lemma CallIsProper(db: Db, n: int, c: Call, copy: ParentRow, locks: set<ParentId>)
    requires CallableFrom(db, n, c, copy) && (Subject(c).Some? ==> Subject(c).value in locks)
    ensures Proper(Statements(db, n, c, copy), locks, n)
  {
    match c
    case RecordPeriod(_, _, _, _) => PeriodIsProper(db, n, c, copy, locks);
    case Recalculate(_, _, _, _) => RecalculationIsProper(db, n, c, copy, locks);
    case Close(p) => OneIsProper(Statements(db, n, c, copy)[0], locks, n);
    case Create(_, _, _) => CreationIsProper(db, n, c, copy, locks);
    case Advance(p, stage) => OneIsProper(Statements(db, n, c, copy)[0], locks, n);
    case RealiseSavings(_, _, _, _, _, _) => RealisationIsProper(db, n, c, copy, locks);
  }
}
