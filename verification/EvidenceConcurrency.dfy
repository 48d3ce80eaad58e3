/** Interleaved transactions over the evidence-state tables at READ COMMITTED.  A session keeps its
    own writes until it commits, holds row locks on the parents it locked or wrote, and sees the
    committed tables overlaid with its own writes.  Deferred firings are evaluated one by one at
    commit, each against what is visible at that moment. */
module EvidenceConcurrency {
  import opened Sql
  import opened CheckExpressions
  import opened EvidenceSchema
  import opened EvidenceTriggers
  import opened EvidenceTransactions

  datatype Session = Session(
    rows: map<ParentId, ParentRow>, events: map<int, Event>, evidence: map<int, Evidence>,
    locks: set<ParentId>, queue: seq<Firing>, judging: bool)

  datatype System = System(committed: Db, sessions: map<int, Session>)

  const NEW_SESSION := Session(map[], map[], map[], {}, [], false)

  function View(c: Db, s: Session): Db {
    Db(c.parents + s.rows, c.events + s.events, c.evidence + s.evidence)
  }

  datatype Action =
    | Begin
    | Lock(p: ParentId)                          // SELECT ... FOR UPDATE
    | Insert(p: ParentId, row: ParentRow)
    | Update(p: ParentId, row: ParentRow)        // takes the row lock as well
    | AddEvent(id: int, event: Event)
    | AddEvidence(eid: int, item: Evidence)
    | StartCommit
    | Fire
    | Publish
    | Abort

  ghost predicate FreeFor(y: System, k: int, p: ParentId) {
    forall j :: j in y.sessions && j != k ==> p !in y.sessions[j].locks
  }

  predicate PointersExist(events: map<int, Event>, row: ParentRow) {
    forall m | m in {ExpectedAmount, AnnualFinancialImpact, RealisedSavings} ::
      PointerOf(row, m).Some? ==> PointerOf(row, m).value in events
  }

  /** A new event neither reuses an identity nor a version of its log, committed or still in flight. */
  predicate FreshIn(events: map<int, Event>, id: int, e: Event) {
    id !in events && forall i :: i in events ==> !SameSlot(events[i], e)
  }

  /** The writers' habit: whoever adds an event also writes the event's parent row. */
  predicate Disciplined(s: Session) {
    forall i :: i in s.events ==> ParentOf(s.events[i]) in s.rows
  }

  ghost predicate Verdict(db: Db, f: Firing) {
    match f
    case EventFiring(i) =>
      i in db.events ==> ChainTrigger(db.events, db.events[i]) && EvidenceTrigger(db.evidence, i, db.events[i])
    case ParentFiring(p, _) => p in db.parents ==> ParentTriggers(db.events, p, db.parents[p])
  }

  /** May session k take action a?  The row images, the old_* and the new_* values are arbitrary: a
      writer may be working from stale objects. */
  ghost predicate Enabled(y: System, k: int, a: Action) {
    if a.Begin? then k !in y.sessions
    else
      && k in y.sessions
      && var s := y.sessions[k];
         var v := View(y.committed, s);
         match a
         case Lock(p) => !s.judging && p in v.parents && FreeFor(y, k, p)
         case Insert(p, row) =>
           && !s.judging && p !in y.committed.parents && (forall j :: j in y.sessions ==> p !in y.sessions[j].rows)
           && RowChecks(p, row) && PointersExist(v.events, row)
         case Update(p, row) =>
           !s.judging && p in v.parents && FreeFor(y, k, p) && RowChecks(p, row) && PointersExist(v.events, row)
         case AddEvent(id, e) =>
           && !s.judging && EventChecks(e) && ParentOf(e) in v.parents && FreshIn(y.committed.events, id, e)
           && (forall j :: j in y.sessions ==> FreshIn(y.sessions[j].events, id, e))
         case AddEvidence(id, item) =>
           && !s.judging && item.eventId in v.events && v.events[item.eventId].org == item.org
           && id !in y.committed.evidence && (forall j :: j in y.sessions ==> id !in y.sessions[j].evidence)
         case StartCommit => !s.judging && Disciplined(s)
         case Fire => s.judging && s.queue != [] && Verdict(v, s.queue[0])
         case Publish => s.judging && s.queue == []
         case _ => true
  }

  function Written(s: Session, p: ParentId, row: ParentRow): Session {
    s.(rows := s.rows[p := row], locks := s.locks + {p}, queue := s.queue + [ParentFiring(p, row)])
  }

  /** The session after one of its own statements. */
  function AfterAction(s: Session, a: Action): Session {
    match a
    case Lock(p) => s.(locks := s.locks + {p})
    case Insert(p, row) => Written(s, p, row)
    case Update(p, row) => Written(s, p, row)
    case AddEvent(id, e) => s.(events := s.events[id := e], queue := s.queue + [EventFiring(id)])
    case AddEvidence(id, item) => s.(evidence := s.evidence[id := item])
    case StartCommit => s.(judging := true)
    case Fire => if s.queue == [] then s else s.(queue := s.queue[1..])
    case _ => s
  }

  function Do(y: System, k: int, a: Action): System {
    if a.Begin? then y.(sessions := y.sessions[k := NEW_SESSION])
    else if k !in y.sessions then y
    else if a.Publish? then System(View(y.committed, y.sessions[k]), y.sessions - {k})
    else if a.Abort? then y.(sessions := y.sessions - {k})
    else y.(sessions := y.sessions[k := AfterAction(y.sessions[k], a)])
  }

  // ---------------------------------------------------------------------------
  // What holds of the committed tables.
  // ---------------------------------------------------------------------------

  ghost predicate EventOk(db: Db, i: int)
    requires i in db.events
  {
    && EventChecks(db.events[i]) && ParentOf(db.events[i]) in db.parents
    && EventSettled(db, i)
  }

  ghost predicate EventSettled(db: Db, i: int)
    requires i in db.events
  {
    ChainTrigger(db.events, db.events[i]) && EvidenceTrigger(db.evidence, i, db.events[i])
  }

  ghost predicate RowSettled(db: Db, p: ParentId)
    requires p in db.parents
  {
    forall m {:trigger ShowsLatest(db.events, p, db.parents[p], m)} ::
      Governs(p, m) ==> ShowsLatest(db.events, p, db.parents[p], m)
  }

  ghost predicate LedgerOk(db: Db) {
    && UniqueVersions(db.events)
    && (forall i :: i in db.events ==> EventOk(db, i))
    && (forall p :: p in db.parents ==> RowChecks(p, db.parents[p]) && RowSettled(db, p))
  }

  // ---------------------------------------------------------------------------
  // What holds of the sessions.
  // ---------------------------------------------------------------------------

  ghost predicate Apart(a: map<int, Event>, b: map<int, Event>) {
    forall i, j :: i in a && j in b ==> i != j && !SameSlot(a[i], b[j])
  }

  ghost predicate QueuedParent(queue: seq<Firing>, p: ParentId) {
    exists f :: f in queue && f.ParentFiring? && f.p == p
  }

  /** What the immediate constraints give of a session's own writes. */
  ghost predicate WritesOk(c: Db, s: Session) {
    var v := View(c, s);
    && s.rows.Keys <= s.locks <= v.parents.Keys
    && UniqueVersions(s.events) && Apart(c.events, s.events) && s.evidence.Keys !! c.evidence.Keys
    && (forall i :: i in s.events ==> EventChecks(s.events[i]) && ParentOf(s.events[i]) in v.parents)
    && (forall p :: p in s.rows ==> RowChecks(p, s.rows[p]))
  }

  ghost predicate SessionOk(c: Db, s: Session) {
    var v := View(c, s);
    && WritesOk(c, s)
    && (s.judging ==> Disciplined(s))
    && (forall i :: i in s.events ==> EventFiring(i) in s.queue || (s.judging && EventSettled(v, i)))
    && (forall p :: p in s.rows ==> QueuedParent(s.queue, p) || (s.judging && RowSettled(v, p)))
  }

  ghost predicate Compatible(s: Session, t: Session) {
    s.locks !! t.locks && Apart(s.events, t.events) && s.evidence.Keys !! t.evidence.Keys
  }

  ghost predicate Consistent(y: System) {
    && LedgerOk(y.committed)
    && (forall k :: k in y.sessions ==> SessionOk(y.committed, y.sessions[k]))
    && (forall j, k :: j in y.sessions && k in y.sessions && j != k ==> Compatible(y.sessions[j], y.sessions[k]))
  }

  // ---------------------------------------------------------------------------
  // A statement keeps its own session in order and apart from the others.
  // ---------------------------------------------------------------------------

  predicate IsStatement(a: Action) { !a.Begin? && !a.Publish? && !a.Abort? }

  lemma ViewKeepsUnique(c: Db, s: Session)
    requires UniqueVersions(c.events) && UniqueVersions(s.events) && Apart(c.events, s.events)
    ensures UniqueVersions(View(c, s).events)
  {
  }

  /** A firing the database evaluates successfully settles its event or its row. */
  lemma FireSettles(c: Db, s: Session)
    requires LedgerOk(c) && SessionOk(c, s) && s.judging && s.queue != [] && Verdict(View(c, s), s.queue[0])
    ensures s.queue[0].EventFiring? && s.queue[0].id in s.events ==> EventSettled(View(c, s), s.queue[0].id)
    ensures s.queue[0].ParentFiring? && s.queue[0].p in s.rows ==> RowSettled(View(c, s), s.queue[0].p)
  {
    var v := View(c, s);
    if s.queue[0].ParentFiring? && s.queue[0].p in s.rows {
      var p := s.queue[0].p;
      ViewKeepsUnique(c, s);
      assert forall i :: i in v.events ==> EventChecks(v.events[i]);
      forall m | Governs(p, m) ensures ShowsLatest(v.events, p, v.parents[p], m) {
        SnapshotTriggerMeans(v.events, p, v.parents[p], m);
      }
    }
  }

  lemma FireKeepsSession(y: System, k: int)
    requires Consistent(y) && Enabled(y, k, Fire)
    ensures SessionOk(y.committed, AfterAction(y.sessions[k], Fire))
  {
    var c, s := y.committed, y.sessions[k];
    var t := AfterAction(s, Fire);
    FireSettles(c, s);
    assert View(c, t) == View(c, s);
    assert forall f :: f in s.queue ==> f == s.queue[0] || f in t.queue;
    forall p | p in t.rows ensures QueuedParent(t.queue, p) || RowSettled(View(c, t), p) {
      if QueuedParent(s.queue, p) {
        var f :| f in s.queue && f.ParentFiring? && f.p == p;
      }
    }
  }

  lemma StatementKeepsSession(y: System, k: int, a: Action)
    requires Consistent(y) && IsStatement(a) && Enabled(y, k, a) && !a.Fire?
    ensures SessionOk(y.committed, AfterAction(y.sessions[k], a))
  {
    var c, s := y.committed, y.sessions[k];
    var t := AfterAction(s, a);
    assert SessionOk(c, s);
    assert forall f :: f in s.queue ==> f in t.queue;
    forall p | p in t.rows ensures QueuedParent(t.queue, p) || t.judging {
      if p in s.rows && QueuedParent(s.queue, p) {
        var f :| f in s.queue && f.ParentFiring? && f.p == p;
        assert f in t.queue;
      } else if a.Insert? || a.Update? {
        assert ParentFiring(a.p, a.row) in t.queue;
      }
    }
    if a.AddEvent? {
      assert EventFiring(a.id) in t.queue;
      assert forall i :: i in s.events ==> SameSlot(s.events[i], a.event) == SameSlot(a.event, s.events[i]);
    }
  }

  lemma StatementStaysApart(y: System, k: int, a: Action, j: int)
    requires Consistent(y) && IsStatement(a) && Enabled(y, k, a) && j in y.sessions && j != k
    ensures Compatible(AfterAction(y.sessions[k], a), y.sessions[j])
            && Compatible(y.sessions[j], AfterAction(y.sessions[k], a))
  {
    assert Compatible(y.sessions[k], y.sessions[j]) && Compatible(y.sessions[j], y.sessions[k]);
    assert SessionOk(y.committed, y.sessions[j]);
  }

  // ---------------------------------------------------------------------------
  // A published session leaves the tables in order and disturbs nobody.
  // ---------------------------------------------------------------------------

  /** Events of other parents do not change which event is the latest of a log. */
  lemma OtherLogsKeepLatest(a: map<int, Event>, b: map<int, Event>, p: ParentId, row: ParentRow, m: Measure)
    requires a.Keys <= b.Keys && (forall i :: i in a ==> a[i] == b[i])
    requires forall i :: i in b && i !in a ==> EventChecks(b[i]) && ParentOf(b[i]) != p
    requires ShowsLatest(a, p, row, m)
    ensures ShowsLatest(b, p, row, m)
  {
    forall i | i in b && i !in a ensures !InLog(b[i], p, m) { InLogIsParentOf(b[i], p, m); }
  }

  /** A settled event stays settled as events and evidence are added. */
  lemma SettledEventsStay(a: Db, b: Db, i: int)
    requires i in a.events && EventSettled(a, i)
    requires a.events.Keys <= b.events.Keys && (forall j :: j in a.events ==> a.events[j] == b.events[j])
    requires a.evidence.Keys <= b.evidence.Keys && (forall j :: j in a.evidence ==> a.evidence[j] == b.evidence[j])
    ensures EventSettled(b, i)
  {
    forall kinds | HasEvidence(a.evidence, i, kinds) ensures HasEvidence(b.evidence, i, kinds) {
      var j :| j in a.evidence && a.evidence[j].eventId == i && a.evidence[j].kind in kinds;
      assert b.evidence[j] == a.evidence[j];
    }
    if a.events[i].version != 1 {
      var j :| j in a.events && Precedes(a.events[j], a.events[i]) && LinkAccepted(a.events[j], a.events[i]);
      assert b.events[j] == a.events[j];
    }
  }

  lemma PublishKeepsLedger(c: Db, s: Session)
    requires LedgerOk(c) && SessionOk(c, s) && s.judging && s.queue == []
    ensures LedgerOk(View(c, s))
  {
    var v := View(c, s);
    ViewKeepsUnique(c, s);
    forall i | i in v.events ensures EventOk(v, i) {
      if i !in s.events {
        assert EventOk(c, i);
        SettledEventsStay(c, v, i);
      }
    }
    forall p | p in v.parents ensures RowChecks(p, v.parents[p]) && RowSettled(v, p) {
      if p in s.rows {
        assert !QueuedParent(s.queue, p);
      } else {
        assert RowSettled(c, p);
        forall m | Governs(p, m) ensures ShowsLatest(v.events, p, v.parents[p], m) {
          assert ShowsLatest(c.events, p, c.parents[p], m);
          OtherLogsKeepLatest(c.events, v.events, p, c.parents[p], m);
        }
      }
    }
  }

  /** Two sessions that have kept apart, the first of them about to commit. */
  ghost predicate KeptApart(c: Db, s: Session, t: Session) {
    WritesOk(c, s) && Disciplined(s) && WritesOk(c, t) && Compatible(s, t)
  }

  /** What another session sees only grows, and not in the logs of the rows it has written. */
  lemma OthersViewGrows(c: Db, s: Session, t: Session)
    requires KeptApart(c, s, t)
    ensures var a, b := View(c, t), View(View(c, s), t);
      && a.parents.Keys <= b.parents.Keys && (forall p :: p in t.rows ==> b.parents[p] == a.parents[p])
      && a.events.Keys <= b.events.Keys && (forall i :: i in a.events ==> a.events[i] == b.events[i])
      && a.evidence.Keys <= b.evidence.Keys && (forall i :: i in a.evidence ==> a.evidence[i] == b.evidence[i])
  {
  }

  lemma OthersLogsAreLeftAlone(c: Db, s: Session, t: Session, i: int)
    requires KeptApart(c, s, t) && i in View(View(c, s), t).events && i !in View(c, t).events
    ensures var e := View(View(c, s), t).events[i]; EventChecks(e) && ParentOf(e) !in t.rows
  {
    assert i in s.events && ParentOf(s.events[i]) in s.rows;
  }

  lemma OthersStaySettled(c: Db, s: Session, t: Session)
    requires KeptApart(c, s, t)
    ensures forall i :: i in t.events && EventSettled(View(c, t), i) ==> EventSettled(View(View(c, s), t), i)
    ensures forall p :: p in t.rows && RowSettled(View(c, t), p) ==> RowSettled(View(View(c, s), t), p)
  {
    var a, b := View(c, t), View(View(c, s), t);
    OthersViewGrows(c, s, t);
    forall i | i in t.events && EventSettled(a, i) ensures EventSettled(b, i) {
      SettledEventsStay(a, b, i);
    }
    forall i | i in b.events && i !in a.events ensures EventChecks(b.events[i]) && ParentOf(b.events[i]) !in t.rows {
      OthersLogsAreLeftAlone(c, s, t, i);
    }
    forall p | p in t.rows && RowSettled(a, p) ensures RowSettled(b, p) {
      forall m | Governs(p, m) ensures ShowsLatest(b.events, p, b.parents[p], m) {
        assert ShowsLatest(a.events, p, a.parents[p], m);
        OtherLogsKeepLatest(a.events, b.events, p, a.parents[p], m);
      }
    }
  }

  lemma BothStayApart(a: map<int, Event>, b: map<int, Event>, t: map<int, Event>)
    requires Apart(a, t) && Apart(b, t)
    ensures Apart(a + b, t)
  {
  }

  lemma OthersKeepWrites(c: Db, s: Session, t: Session)
    requires KeptApart(c, s, t)
    ensures WritesOk(View(c, s), t)
  {
    BothStayApart(c.events, s.events, t.events);
    assert View(c, t).parents.Keys <= View(View(c, s), t).parents.Keys;
  }

  lemma PublishKeepsOthers(c: Db, s: Session, t: Session)
    requires LedgerOk(c) && SessionOk(c, s) && s.judging && SessionOk(c, t) && Compatible(s, t)
    ensures SessionOk(View(c, s), t)
  {
    assert WritesOk(View(c, s), t) by { OthersKeepWrites(c, s, t); }
    OthersStaySettled(c, s, t);
  }

  // ---------------------------------------------------------------------------
  // Every step, every run.
  // ---------------------------------------------------------------------------

  lemma StatementKeepsConsistent(y: System, k: int, a: Action)
    requires Consistent(y) && Enabled(y, k, a) && IsStatement(a)
    ensures Consistent(Do(y, k, a))
  {
    var z := Do(y, k, a);
    var s := AfterAction(y.sessions[k], a);
    assert SessionOk(y.committed, s) by {
      if a.Fire? { FireKeepsSession(y, k); } else { StatementKeepsSession(y, k, a); }
    }
    forall j | j in y.sessions && j != k ensures Compatible(s, y.sessions[j]) && Compatible(y.sessions[j], s) {
      StatementStaysApart(y, k, a, j);
    }
    OneSessionReplaced(y, k, s);
  }

  lemma OneSessionReplaced(y: System, k: int, s: Session)
    requires Consistent(y) && SessionOk(y.committed, s)
    requires forall j :: j in y.sessions && j != k ==> Compatible(s, y.sessions[j]) && Compatible(y.sessions[j], s)
    ensures Consistent(y.(sessions := y.sessions[k := s]))
  {
  }

  lemma PublishKeepsConsistent(y: System, k: int)
    requires Consistent(y) && Enabled(y, k, Publish)
    ensures Consistent(Do(y, k, Publish))
  {
    PublishKeepsLedger(y.committed, y.sessions[k]);
    var z := Do(y, k, Publish);
    forall j | j in z.sessions ensures SessionOk(z.committed, z.sessions[j]) {
      PublishKeepsOthers(y.committed, y.sessions[k], y.sessions[j]);
    }
  }

  lemma NewSessionIsOk(y: System)
    requires Consistent(y)
    ensures SessionOk(y.committed, NEW_SESSION)
    ensures forall j :: j in y.sessions ==>
              Compatible(NEW_SESSION, y.sessions[j]) && Compatible(y.sessions[j], NEW_SESSION)
  {
  }

  /** Whatever a session does next, the tables and all sessions stay in order. */
  lemma StepKeepsConsistent(y: System, k: int, a: Action)
    requires Consistent(y) && Enabled(y, k, a)
    ensures Consistent(Do(y, k, a))
  {
    if a.Begin? {
      NewSessionIsOk(y);
      OneSessionReplaced(y, k, NEW_SESSION);
    } else if a.Publish? {
      PublishKeepsConsistent(y, k);
    } else if !a.Abort? {
      StatementKeepsConsistent(y, k, a);
    }
  }

  ghost predicate Step(y: System, z: System) {
    exists k, a :: Enabled(y, k, a) && z == Do(y, k, a)
  }

  /** A run: any interleaving of any number of sessions, from tables in order. */
  ghost predicate Execution(run: seq<System>) {
    && run != []
    && LedgerOk(run[0].committed) && run[0].sessions == map[]
    && forall i :: 0 <= i < |run| - 1 ==> Step(run[i], run[i + 1])
  }

  lemma {:induction false} ExecutionsStayConsistent(run: seq<System>, n: nat)
    requires Execution(run) && n < |run|
    ensures Consistent(run[n])
  {
    if n > 0 {
      ExecutionsStayConsistent(run, n - 1);
      assert Step(run[n - 1], run[n - 1 + 1]);
      var k, a :| Enabled(run[n - 1], k, a) && run[n] == Do(run[n - 1], k, a);
      StepKeepsConsistent(run[n - 1], k, a);
    }
  }

  /** A log of n events: versions exactly 1..n, each once; the first has no past; every later one
      starts where its predecessor ended; the parent row points at event n and repeats it. */
  ghost predicate CompleteLog(db: Db, p: ParentId, m: Measure, n: int)
    requires p in db.parents
  {
    && n >= 1
    && (forall i :: i in db.events && InLog(db.events[i], p, m) ==> 1 <= db.events[i].version <= n)
    && (forall v :: 1 <= v <= n ==> HasVersion(db.events, p, m, v))
    && (forall i, j :: i in db.events && j in db.events && InLog(db.events[i], p, m) && InLog(db.events[j], p, m) ==>
          && (db.events[i].version == db.events[j].version ==> i == j)
          && (db.events[i].version == 1 ==> db.events[i].before == EMPTY)
          && (db.events[j].version == db.events[i].version + 1 ==> db.events[j].before == db.events[i].after))
    && var row := db.parents[p];
       && PointerOf(row, m).Some? && PointerOf(row, m).value in db.events
       && var e := db.events[PointerOf(row, m).value];
          InLog(e, p, m) && e.version == n && e.org == row.org && FactsOf(row, m) == Visible(m, e.after)
  }

  ghost predicate HasVersion(events: map<int, Event>, p: ParentId, m: Measure, v: int) {
    exists i :: i in events && InLog(events[i], p, m) && events[i].version == v
  }

  /** Below an event of a log there is one of every earlier version. */
  lemma {:induction false} EarlierVersionsExist(db: Db, p: ParentId, m: Measure, i: int, v: int)
    requires LedgerOk(db) && i in db.events && InLog(db.events[i], p, m) && 1 <= v <= db.events[i].version
    ensures HasVersion(db.events, p, m, v)
    decreases db.events[i].version
  {
    if v < db.events[i].version {
      assert EventOk(db, i);
      var j :| j in db.events && Precedes(db.events[j], db.events[i]) && LinkAccepted(db.events[j], db.events[i]);
      EarlierVersionsExist(db, p, m, j, v);
    }
  }

  lemma LinkedToPredecessor(db: Db, i: int, j: int)
    requires LedgerOk(db) && i in db.events && j in db.events
    requires Precedes(db.events[i], db.events[j])
    ensures LinkAccepted(db.events[i], db.events[j])
  {
    assert EventOk(db, i) && EventOk(db, j);
    var k :| k in db.events && Precedes(db.events[k], db.events[j]) && LinkAccepted(db.events[k], db.events[j]);
    assert SameSlot(db.events[i], db.events[k]);
  }

  lemma OrderedLedgerIsComplete(db: Db, p: ParentId, m: Measure)
    requires LedgerOk(db) && p in db.parents && Governs(p, m)
    ensures exists n :: CompleteLog(db, p, m, n)
  {
    assert RowSettled(db, p);
    assert ShowsLatest(db.events, p, db.parents[p], m);
    var id := PointerOf(db.parents[p], m).value;
    var n := db.events[id].version;
    forall v | 1 <= v <= n ensures HasVersion(db.events, p, m, v) { EarlierVersionsExist(db, p, m, id, v); }
    forall i | i in db.events
      ensures EventOk(db, i)
      ensures InLog(db.events[i], p, m) <==> db.events[i].measure == m && ParentOf(db.events[i]) == p
    {
      assert EventOk(db, i);
      InLogIsParentOf(db.events[i], p, m);
    }
    forall i, j | i in db.events && j in db.events && InLog(db.events[i], p, m) && InLog(db.events[j], p, m)
      ensures db.events[i].version == db.events[j].version ==> i == j
      ensures db.events[j].version == db.events[i].version + 1 ==> db.events[j].before == db.events[i].after
    {
      if db.events[i].version == db.events[j].version { assert SameSlot(db.events[i], db.events[j]); }
      if db.events[j].version == db.events[i].version + 1 {
        assert db.events[i].rebateId == db.events[j].rebateId
            && db.events[i].opportunityId == db.events[j].opportunityId;
        LinkedToPredecessor(db, i, j);
      }
    }
    assert CompleteLog(db, p, m, n);
  }

  /** In every committed state of every interleaving, every governed log is complete and its parent
      row repeats the last event, however stale the values the writers worked from. */
  lemma EveryReachableLogIsComplete(run: seq<System>, n: nat, p: ParentId, m: Measure)
    requires Execution(run) && n < |run| && p in run[n].committed.parents && Governs(p, m)
    ensures exists k :: CompleteLog(run[n].committed, p, m, k)
  {
    ExecutionsStayConsistent(run, n);
    OrderedLedgerIsComplete(run[n].committed, p, m);
  }

  // ---------------------------------------------------------------------------
  // What the triggers do not enforce by themselves.
  // ---------------------------------------------------------------------------

  /** Every deferred trigger the session queued would pass. */
  ghost predicate Settled(c: Db, s: Session) {
    var v := View(c, s);
    (forall i :: i in s.events ==> EventSettled(v, i)) && (forall p :: p in s.rows ==> RowSettled(v, p))
  }

  /** An event that shares no slot with a complete log comes after all of it. */
  lemma NewSlotIsBeyond(db: Db, p: ParentId, m: Measure, id: int, e: Event)
    requires LedgerOk(db) && id in db.events && InLog(db.events[id], p, m)
    requires EventChecks(e) && InLog(e, p, m) && forall j :: j in db.events ==> !SameSlot(db.events[j], e)
    ensures e.version > db.events[id].version
  {
    forall v | 1 <= v <= db.events[id].version ensures HasVersion(db.events, p, m, v) {
      EarlierVersionsExist(db, p, m, id, v);
    }
    forall j | j in db.events && InLog(db.events[j], p, m) ensures db.events[j].version != e.version {
      assert EventOk(db, j);
      InLogIsParentOf(db.events[j], p, m);
      InLogIsParentOf(e, p, m);
    }
    assert !HasVersion(db.events, p, m, e.version);
  }

  /** An event added beside its parent's row leaves that row behind its log. */
  lemma SkippedRowFallsBehind(c: Db, s: Session, i: int)
    requires LedgerOk(c) && WritesOk(c, s) && i in s.events && ParentOf(s.events[i]) !in s.rows
    ensures !RowSettled(View(c, s), ParentOf(s.events[i]))
  {
    var v := View(c, s);
    var e := s.events[i];
    var p, m := ParentOf(e), e.measure;
    assert p in c.parents && v.parents[p] == c.parents[p];
    InLogIsParentOf(e, p, m);
    assert RowSettled(c, p) && ShowsLatest(c.events, p, c.parents[p], m);
    var id := PointerOf(c.parents[p], m).value;
    NewSlotIsBeyond(c, p, m, id, e);
    assert v.events[id].version < v.events[i].version && InLog(v.events[i], p, m);
    assert !ShowsLatest(v.events, p, v.parents[p], m);
  }

  /** A transaction whose triggers all pass leaves the ledger in order if and only if it wrote the parent row
      of each event it added: no trigger fires on a row for an event alone. */
  lemma DisciplineIsNeeded(c: Db, s: Session)
    requires LedgerOk(c) && WritesOk(c, s) && Settled(c, s)
    ensures LedgerOk(View(c, s)) <==> Disciplined(s)
  {
    if Disciplined(s) {
      PublishKeepsLedger(c, s.(judging := true, queue := []));
    } else {
      var i :| i in s.events && ParentOf(s.events[i]) !in s.rows;
      SkippedRowFallsBehind(c, s, i);
    }
  }

  predicate SameLog(a: Event, b: Event) { a.measure == b.measure && ParentOf(a) == ParentOf(b) }

  lemma TierStep(a: Event, b: Event)
    requires EventChecks(a) && EventChecks(b) && Precedes(a, b) && LinkAccepted(a, b) && !AllowsDowngrade(b.reason)
    ensures SameLog(a, b) && Tier(a.after.status).Some? && Tier(b.after.status).Some?
    ensures Tier(a.after.status).value <= Tier(b.after.status).value
  {
  }

  /** The evidence tier of a log never falls between two versions unless some event after the first of
      them gave one of the three correction reasons. */
  lemma {:induction false} TierFallsOnlyByCorrection(db: Db, i: int, j: int)
    requires LedgerOk(db) && i in db.events && j in db.events
    requires SameLog(db.events[i], db.events[j])
    requires db.events[i].version <= db.events[j].version
    requires forall k | k in db.events && SameLog(db.events[k], db.events[j])
                        && db.events[i].version < db.events[k].version <= db.events[j].version ::
               !AllowsDowngrade(db.events[k].reason)
    ensures Tier(db.events[i].after.status).Some? && Tier(db.events[j].after.status).Some?
    ensures Tier(db.events[i].after.status).value <= Tier(db.events[j].after.status).value
    decreases db.events[j].version
  {
    assert EventOk(db, i) && EventOk(db, j);
    if db.events[i].version == db.events[j].version {
      assert SameSlot(db.events[i], db.events[j]);
    } else {
      var k :| k in db.events && Precedes(db.events[k], db.events[j]) && LinkAccepted(db.events[k], db.events[j]);
      assert EventOk(db, k);
      TierStep(db.events[k], db.events[j]);
      TierFallsOnlyByCorrection(db, i, k);
    }
  }
}
