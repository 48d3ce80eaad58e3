/** Service calls of any number of sessions, interleaved statement by statement.  A call works from a copy of its
    row read at any time before, locks the row, and from then on issues fixed statements; other sessions run and
    commit between any two of them.  Every such interleaving is a run of the concurrency model.  In none of them is
    anything asked by a session refused whose copies were all current when it locked their rows; and a session with
    a stale copy never commits. */
module EvidenceInterleaving {
  import opened Sql
  import opened CheckExpressions
  import opened EvidenceSchema
  import opened EvidenceTriggers
  import opened EvidenceTransactions
  import opened EvidenceConcurrency
  import opened EvidenceServices
  import opened EvidenceAcceptance
  import opened EvidenceHistory
  import opened EvidenceCopies
  import opened EvidenceStatements

  /** A session, what its present call has still to issue, and whether one of its calls has worked from a copy
      that no longer showed the row when the call locked it. */
  datatype Agent = Agent(session: Session, todo: seq<Action>, stale: bool)

  datatype Floor = Floor(committed: Db, agents: map<int, Agent>)

  /** The state of the concurrency model: the sessions as the database knows them. */
  function Concrete(f: Floor): System { System(f.committed, map k | k in f.agents :: f.agents[k].session) }

  /** The session when its call is through. */
  function Through(s: Session, todo: seq<Action>): Session
    decreases |todo|
  {
    if todo == [] then s else Through(AfterAction(s, todo[0]), todo[1..])
  }

  function Final(a: Agent): Session { Through(a.session, a.todo) }

  // ---------------------------------------------------------------------------
  // The moves.
  // ---------------------------------------------------------------------------

  datatype Move = Join | Ask(n: int, call: Call, copy: ParentRow) | Next | Seal | Judge | Release | Quit

  /** All identities handed out so far are below n. */
  ghost predicate AllBelow(f: Floor, n: int) {
    && FreshFrom(f.committed, n)
    && forall k :: k in f.agents ==> FreshFrom(View(f.committed, Final(f.agents[k])), n)
  }

  /** What the application chooses to do: a call starts from any copy, on a row that nobody else has locked, with
      identities of its own. Whether the database lets it is not asked here. */
  ghost predicate May(f: Floor, k: int, m: Move) {
    if m.Join? then k !in f.agents
    else
      && k in f.agents
      && var s, todo := f.agents[k].session, f.agents[k].todo;
         match m
         case Ask(n, c, copy) =>
           && todo == [] && !s.judging && CallableFrom(View(f.committed, s), n, c, copy) && AllBelow(f, n)
           && (Subject(c).Some? ==> FreeFor(Concrete(f), k, Subject(c).value))
         case Next => todo != []
         case Seal => todo == [] && !s.judging
         case Judge => s.judging && s.queue != []
         case Release => s.judging && s.queue == []
         case _ => true
  }

  ghost function Asked(f: Floor, k: int, n: int, c: Call, copy: ParentRow): Agent
    requires k in f.agents && CallableFrom(View(f.committed, f.agents[k].session), n, c, copy)
  {
    var s, v := f.agents[k].session, View(f.committed, f.agents[k].session);
    Agent(if Subject(c).Some? then AfterAction(s, Lock(Subject(c).value)) else s,
          Statements(v, n, c, copy), f.agents[k].stale || !Serves(v, c, copy))
  }

  ghost function Moved(f: Floor, k: int, m: Move): Floor
    requires May(f, k, m)
  {
    match m
    case Join => f.(agents := f.agents[k := Agent(NEW_SESSION, [], false)])
    case Ask(n, c, copy) => f.(agents := f.agents[k := Asked(f, k, n, c, copy)])
    case Next =>
      var a := f.agents[k];
      f.(agents := f.agents[k := a.(session := AfterAction(a.session, a.todo[0]), todo := a.todo[1..])])
    case Seal => f.(agents := f.agents[k := f.agents[k].(session := AfterAction(f.agents[k].session, StartCommit))])
    case Judge => f.(agents := f.agents[k := f.agents[k].(session := AfterAction(f.agents[k].session, Fire))])
    case Release => Floor(View(f.committed, f.agents[k].session), f.agents - {k})
    case Quit => f.(agents := f.agents - {k})
  }

  /** What the move asks of the database; a call that creates its row starts without asking anything. */
  function Asks(f: Floor, k: int, m: Move): Option<Action> {
    match m
    case Join => Some(Begin)
    case Ask(_, c, _) => if Subject(c).Some? then Some(Lock(Subject(c).value)) else None
    case Next => if k in f.agents && f.agents[k].todo != [] then Some(f.agents[k].todo[0]) else None
    case Seal => Some(StartCommit)
    case Judge => Some(Fire)
    case Release => Some(Publish)
    case Quit => Some(Abort)
  }

  /** Does the database let it: no lock to wait for, no constraint violated, no trigger that refuses? */
  ghost predicate Granted(f: Floor, k: int, m: Move) {
    Asks(f, k, m).Some? ==> Enabled(Concrete(f), k, Asks(f, k, m).value)
  }

  // ---------------------------------------------------------------------------
  // What a session becomes as its call goes on.
  // ---------------------------------------------------------------------------

  lemma ActionEffect(c: Db, s: Session, a: Action)
    requires Admissible(View(c, s), a)
    ensures View(c, AfterAction(s, a)) == Effect(View(c, s), a)
  {
    match a
    case Insert(p, row) => LaidOver(c.parents, s.rows, p, row);
    case Update(p, row) => LaidOver(c.parents, s.rows, p, row);
    case AddEvent(id, e) => LaidOver(c.events, s.events, id, e);
    case AddEvidence(id, item) => LaidOver(c.evidence, s.evidence, id, item);
    case _ =>
  }

  lemma LaidOver<K, V>(below: map<K, V>, above: map<K, V>, k: K, v: V)
    ensures below + above[k := v] == (below + above)[k := v]
  {
  }

  lemma {:induction false} ThroughEffect(c: Db, s: Session, todo: seq<Action>)
    requires Ready(View(c, s), todo)
    ensures View(c, Through(s, todo)) == Effects(View(c, s), todo) && Through(s, todo).judging == s.judging
    decreases |todo|
  {
    if todo != [] {
      ActionEffect(c, s, todo[0]);
      ThroughEffect(c, AfterAction(s, todo[0]), todo[1..]);
    }
  }

  /** Is it a statement, and does it add no event under an identity the session has given already? */
  predicate AddsNew(s: Session, a: Action) {
    match a
    case Insert(_, _) => true
    case Update(_, _) => true
    case AddEvent(id, _) => id !in s.events
    case AddEvidence(_, _) => true
    case _ => false
  }

  predicate Grows(s: Session, todo: seq<Action>)
    decreases |todo|
  {
    todo == [] || (AddsNew(s, todo[0]) && Grows(AfterAction(s, todo[0]), todo[1..]))
  }

  lemma {:induction false} ProperGrows(s: Session, todo: seq<Action>, locks: set<ParentId>, n: int)
    requires AllOwn(todo, locks, n) && Numbered(todo)
    requires forall a :: a in todo && a.AddEvent? ==> a.id !in s.events
    ensures Grows(s, todo)
    decreases |todo|
  {
    if todo != [] {
      assert todo[0] in todo && IsOwn(todo[0], locks, n);
      forall a | a in todo[1..] ensures IsOwn(a, locks, n) { assert a in todo; }
      forall a | a in todo[1..] && a.AddEvent? ensures a.id !in AfterAction(s, todo[0]).events {
        var j :| 1 <= j < |todo| && todo[j] == a;
      }
      ProperGrows(AfterAction(s, todo[0]), todo[1..], locks, n);
    }
  }

  /** Whatever a session has, it still has later. */
  ghost predicate Keeps(s: Session, t: Session) {
    && s.rows.Keys <= t.rows.Keys && s.locks <= t.locks && s.evidence.Keys <= t.evidence.Keys
    && forall i :: i in s.events ==> i in t.events && t.events[i] == s.events[i]
  }

  lemma {:induction false} ThroughKeeps(s: Session, todo: seq<Action>)
    requires Grows(s, todo)
    ensures Keeps(s, Through(s, todo)) && Through(s, todo).judging == s.judging
    decreases |todo|
  {
    if todo != [] {
      var t := AfterAction(s, todo[0]);
      assert Keeps(s, t);
      ThroughKeeps(t, todo[1..]);
    }
  }

  /** Has the statement been issued, as far as its session can tell? */
  predicate Shows(t: Session, a: Action) {
    match a
    case Insert(p, _) => p in t.rows && p in t.locks
    case Update(p, _) => p in t.rows && p in t.locks
    case AddEvent(id, e) => id in t.events && t.events[id] == e
    case AddEvidence(id, _) => id in t.evidence
    case _ => true
  }

  lemma {:induction false} ThroughShows(s: Session, todo: seq<Action>, a: Action)
    requires Grows(s, todo) && a in todo
    ensures Shows(Through(s, todo), a)
    decreases |todo|
  {
    var t := AfterAction(s, todo[0]);
    if a == todo[0] {
      assert Shows(t, a);
      ThroughKeeps(t, todo[1..]);
    } else {
      ThroughShows(t, todo[1..], a);
    }
  }

  /** What a session has beyond s is numbered from n on; its events are those of s and those of the statements. */
  ghost predicate Bounded(s: Session, t: Session, todo: seq<Action>, n: int) {
    && (forall p :: p in t.locks ==> p in s.locks || p.id >= n)
    && (forall i :: i in t.events ==> (i in s.events && t.events[i] == s.events[i]) || AddEvent(i, t.events[i]) in todo)
    && (forall i :: i in t.events ==> i in s.events || i >= n)
    && (forall i :: i in t.evidence ==> i in s.evidence || i >= n)
  }

  lemma {:induction false} ThroughIsBounded(s: Session, todo: seq<Action>, n: int)
    requires AllOwn(todo, s.locks, n)
    ensures Bounded(s, Through(s, todo), todo, n)
    decreases |todo|
  {
    if todo != [] {
      var t := AfterAction(s, todo[0]);
      assert todo[0] in todo && s.locks <= t.locks;
      forall a | a in todo[1..] ensures IsOwn(a, t.locks, n) { assert IsOwn(a, s.locks, n); }
      ThroughIsBounded(t, todo[1..], n);
    }
  }

  /** A session locks what it writes, and locks nothing that is not there. */
  predicate LocksItsRows(c: Db, s: Session) { s.rows.Keys <= s.locks <= View(c, s).parents.Keys }

  lemma {:induction false} ThroughLocksItsRows(c: Db, s: Session, todo: seq<Action>)
    requires Grows(s, todo) && LocksItsRows(c, s)
    ensures LocksItsRows(c, Through(s, todo))
    decreases |todo|
  {
    if todo != [] { ThroughLocksItsRows(c, AfterAction(s, todo[0]), todo[1..]); }
  }

  // ---------------------------------------------------------------------------
  // The invariant.
  // ---------------------------------------------------------------------------

  /** A session whose call is through can be committed as it stands. */
  ghost predicate Finished(c: Db, t: Session) {
    WritesOk(c, t) && Disciplined(t) && ServiceLedger(View(c, t)) && NeverConfirmed(View(c, t))
  }

  /** An event of the session follows one that ended otherwise. */
  ghost predicate Broken(c: Db, t: Session) {
    exists i, j :: BrokenLink(View(c, t).events, i, j) && i in t.events
  }

  ghost predicate BrokenLink(events: map<int, Event>, i: int, j: int) {
    && i in events && j in events && events[i].version > 1
    && Precedes(events[j], events[i]) && !LinkAccepted(events[j], events[i])
  }

  /** All a call will lock is locked from its start, but for the row it is still to create. */
  ghost predicate LocksHeld(c: Db, a: Agent) {
    forall p :: p in Final(a).locks ==> p in a.session.locks || p !in View(c, a.session).parents
  }

  /** What holds of every session, stale or not. */
  ghost predicate Kept(c: Db, a: Agent) {
    && Grows(a.session, a.todo) && (a.session.judging ==> a.todo == [])
    && LocksHeld(c, a) && LocksItsRows(c, Final(a)) && Disciplined(Final(a))
  }

  ghost predicate AgentOk(c: Db, a: Agent) {
    && Kept(c, a)
    && (if a.stale then Broken(c, Final(a)) else Ready(View(c, a.session), a.todo) && Finished(c, Final(a)))
  }

  ghost predicate AllApart(f: Floor) {
    forall j, k :: j in f.agents && k in f.agents && j != k ==> Compatible(Final(f.agents[j]), Final(f.agents[k]))
  }

  ghost predicate FloorOk(f: Floor) {
    && ServiceLedger(f.committed) && NeverConfirmed(f.committed) && Consistent(Concrete(f))
    && (forall k :: k in f.agents ==> AgentOk(f.committed, f.agents[k]))
    && AllApart(f)
  }

  lemma SessionIsOk(f: Floor, k: int)
    requires FloorOk(f) && k in f.agents
    ensures SessionOk(f.committed, f.agents[k].session)
  {
    assert Concrete(f).sessions[k] == f.agents[k].session;
  }

  // ---------------------------------------------------------------------------
  // Nothing a current session asks is refused.
  // ---------------------------------------------------------------------------

  /** Does the session keep away from what the statement touches? */
  ghost predicate Elsewhere(s: Session, a: Action) {
    match a
    case Insert(p, _) => p !in s.rows
    case Update(p, _) => p !in s.locks
    case AddEvent(id, e) => FreshIn(s.events, id, e)
    case AddEvidence(id, _) => id !in s.evidence
    case _ => true
  }

  lemma OthersAreElsewhere(f: Floor, k: int, j: int, a: Action)
    requires FloorOk(f) && k in f.agents && j in f.agents && j != k && a in f.agents[k].todo
    ensures Elsewhere(f.agents[j].session, a)
  {
    var mine, other := f.agents[k], f.agents[j];
    assert AgentOk(f.committed, mine) && AgentOk(f.committed, other);
    assert Compatible(Final(mine), Final(other)) && Compatible(Final(other), Final(mine));
    ThroughShows(mine.session, mine.todo, a);
    ThroughKeeps(other.session, other.todo);
    if a.Insert? { RowsAreLocked(f, j, a.p); }
  }

  lemma RowsAreLocked(f: Floor, j: int, p: ParentId)
    requires FloorOk(f) && j in f.agents
    ensures p in f.agents[j].session.rows ==> p in f.agents[j].session.locks
  {
    SessionIsOk(f, j);
  }

  lemma FreshInBoth(below: map<int, Event>, above: map<int, Event>, id: int, e: Event)
    requires FreshIn(below + above, id, e) && below.Keys !! above.Keys
    ensures FreshIn(below, id, e) && FreshIn(above, id, e)
  {
    forall i | i in above ensures !SameSlot(above[i], e) { assert (below + above)[i] == above[i]; }
    forall i | i in below ensures !SameSlot(below[i], e) { assert (below + above)[i] == below[i]; }
  }

  lemma AdmissibleIsEnabled(y: System, k: int, a: Action)
    requires k in y.sessions && !y.sessions[k].judging && Admissible(View(y.committed, y.sessions[k]), a)
    requires y.committed.events.Keys !! y.sessions[k].events.Keys
    requires forall j :: j in y.sessions && j != k ==> Elsewhere(y.sessions[j], a)
    ensures Enabled(y, k, a)
  {
    if a.AddEvent? {
      FreshInBoth(y.committed.events, y.sessions[k].events, a.id, a.event);
      forall j | j in y.sessions ensures FreshIn(y.sessions[j].events, a.id, a.event) {
        if j != k { assert Elsewhere(y.sessions[j], a); }
      }
    }
  }

  lemma IdentitiesAreItsOwn(c: Db, s: Session)
    requires WritesOk(c, s)
    ensures c.events.Keys !! s.events.Keys
  {
    forall i | i in c.events ensures i !in s.events { assert i in s.events ==> i != i; }
  }

  lemma NextIsGranted(f: Floor, k: int)
    requires FloorOk(f) && k in f.agents && f.agents[k].todo != [] && !f.agents[k].stale
    ensures Enabled(Concrete(f), k, f.agents[k].todo[0])
  {
    var y, a := Concrete(f), f.agents[k].todo[0];
    assert AgentOk(f.committed, f.agents[k]);
    forall j | j in y.sessions && j != k ensures Elsewhere(y.sessions[j], a) { OthersAreElsewhere(f, k, j, a); }
    SessionIsOk(f, k);
    IdentitiesAreItsOwn(f.committed, f.agents[k].session);
    AdmissibleIsEnabled(y, k, a);
  }

  lemma CurrentIsSettled(f: Floor, k: int, q: Firing)
    requires FloorOk(f) && k in f.agents && f.agents[k].todo == [] && !f.agents[k].stale
    requires q in f.agents[k].session.queue
    ensures Verdict(View(f.committed, f.agents[k].session), q)
  {
    var s := f.agents[k].session;
    var w := Work(View(f.committed, s), s.queue);
    assert AgentOk(f.committed, f.agents[k]) && Final(f.agents[k]) == s;
    ServiceLedgerIsOk(w.db);
    OrderIsAccepted(w);
    var i :| 0 <= i < |w.queue| && w.queue[i] == q;
  }

  /** What a move may be refused: a statement of a stale session, or the judging of its firings. */
  predicate MayBeRefused(f: Floor, k: int, m: Move) { k in f.agents && f.agents[k].stale && (m.Next? || m.Judge?) }

  lemma EveryMoveIsGranted(f: Floor, k: int, m: Move)
    requires FloorOk(f) && May(f, k, m) && !MayBeRefused(f, k, m)
    ensures Granted(f, k, m)
  {
    if !m.Join? { assert AgentOk(f.committed, f.agents[k]); }
    if m.Next? { NextIsGranted(f, k); }
    if m.Judge? { CurrentIsSettled(f, k, f.agents[k].session.queue[0]); }
  }

  // ---------------------------------------------------------------------------
  // A stale session never commits.
  // ---------------------------------------------------------------------------

  /** The firing of the broken event stays in the queue of its session, and is refused whenever it is judged. */
  lemma StaleIsRefused(f: Floor, k: int)
    requires FloorOk(f) && k in f.agents && f.agents[k].todo == [] && f.agents[k].stale
    ensures exists q :: q in f.agents[k].session.queue && !Verdict(View(f.committed, f.agents[k].session), q)
  {
    var c, s := f.committed, f.agents[k].session;
    assert AgentOk(c, f.agents[k]) && Final(f.agents[k]) == s;
    SessionIsOk(f, k);
    var v := View(c, s);
    var i, j :| BrokenLink(v.events, i, j) && i in s.events;
    ViewKeepsUnique(c, s);
    BrokenLinkStays(v.events, i, j);
    assert EventFiring(i) in s.queue && !Verdict(v, EventFiring(i));
  }

  lemma ConcreteReplaced(f: Floor, k: int, a: Agent)
    ensures Concrete(f.(agents := f.agents[k := a])) ==
            Concrete(f).(sessions := Concrete(f).sessions[k := a.session])
  {
  }

  lemma ConcreteRemoved(f: Floor, k: int)
    ensures Concrete(f.(agents := f.agents - {k})) == Concrete(f).(sessions := Concrete(f).sessions - {k})
  {
  }

  lemma RemovalIsAStep(f: Floor, k: int, m: Move)
    requires May(f, k, m) && (m.Release? || m.Quit?)
    ensures Concrete(Moved(f, k, m)) == Do(Concrete(f), k, Asks(f, k, m).value)
  {
    ConcreteRemoved(f, k);
  }

  lemma AskingIsAStep(f: Floor, k: int, m: Move)
    requires May(f, k, m) && m.Ask?
    ensures Concrete(Moved(f, k, m)) ==
            if Asks(f, k, m).Some? then Do(Concrete(f), k, Asks(f, k, m).value) else Concrete(f)
  {
    ConcreteReplaced(f, k, Asked(f, k, m.n, m.call, m.copy));
    if Subject(m.call).None? { assert Concrete(f).sessions[k := f.agents[k].session] == Concrete(f).sessions; }
  }

  /** A move does to the database what the concurrency model says. */
  lemma EveryMoveIsAStep(f: Floor, k: int, m: Move)
    requires FloorOk(f) && May(f, k, m)
    ensures Concrete(Moved(f, k, m)) ==
            if Asks(f, k, m).Some? then Do(Concrete(f), k, Asks(f, k, m).value) else Concrete(f)
  {
    if m.Release? || m.Quit? {
      RemovalIsAStep(f, k, m);
    } else if m.Ask? {
      AskingIsAStep(f, k, m);
    } else {
      ConcreteReplaced(f, k, Moved(f, k, m).agents[k]);
      if m.Next? { assert AgentOk(f.committed, f.agents[k]); }
    }
  }

  /** So the concurrency model keeps what it keeps. */
  lemma MoveKeepsConsistent(f: Floor, k: int, m: Move)
    requires FloorOk(f) && May(f, k, m) && Granted(f, k, m)
    ensures Consistent(Concrete(Moved(f, k, m)))
  {
    EveryMoveIsAStep(f, k, m);
    if Asks(f, k, m).Some? { StepKeepsConsistent(Concrete(f), k, Asks(f, k, m).value); }
  }

  // ---------------------------------------------------------------------------
  // Every move keeps the invariant.
  // ---------------------------------------------------------------------------

  /** What is left to show of a floor once the concurrency model has kept its part. */
  ghost predicate OthersAsBefore(f: Floor, g: Floor, k: int) {
    && g.committed == f.committed && g.agents.Keys == f.agents.Keys + {k}
    && forall j :: j in f.agents && j != k ==> g.agents[j] == f.agents[j]
  }

  lemma ApartReplaced(f: Floor, g: Floor, k: int)
    requires AllApart(f) && OthersAsBefore(f, g, k)
    requires forall j :: j in f.agents && j != k ==>
               && Compatible(Final(g.agents[k]), Final(f.agents[j]))
               && Compatible(Final(f.agents[j]), Final(g.agents[k]))
    ensures AllApart(g)
  {
  }

  lemma AgentReplaced(f: Floor, g: Floor, k: int)
    requires FloorOk(f) && OthersAsBefore(f, g, k) && AgentOk(g.committed, g.agents[k]) && Consistent(Concrete(g))
    requires AllApart(g)
    ensures FloorOk(g)
  {
    forall j | j in g.agents ensures AgentOk(g.committed, g.agents[j]) {
      if j != k { assert g.agents[j] == f.agents[j]; }
    }
  }

  /** A session that ends up the same can stand in for another. */
  lemma SameFinalIsApart(f: Floor, g: Floor, k: int)
    requires AllApart(f) && k in f.agents && OthersAsBefore(f, g, k)
    requires var s, t := Final(f.agents[k]), Final(g.agents[k]);
             s.locks == t.locks && s.events == t.events && s.evidence == t.evidence
    ensures AllApart(g)
  {
    forall j | j in f.agents && j != k
      ensures Compatible(Final(g.agents[k]), Final(f.agents[j])) && Compatible(Final(f.agents[j]), Final(g.agents[k]))
    {
      assert Compatible(Final(f.agents[k]), Final(f.agents[j])) && Compatible(Final(f.agents[j]), Final(f.agents[k]));
    }
    ApartReplaced(f, g, k);
  }

  lemma NewSessionIsOk(c: Db)
    requires ServiceLedger(c) && NeverConfirmed(c)
    ensures AgentOk(c, Agent(NEW_SESSION, [], false))
  {
    assert View(c, NEW_SESSION) == c;
    assert Final(Agent(NEW_SESSION, [], false)) == NEW_SESSION;
  }

  function Stepped(a: Agent): Agent
    requires a.todo != []
  {
    a.(session := AfterAction(a.session, a.todo[0]), todo := a.todo[1..])
  }

  lemma NextKeepsAgent(c: Db, a: Agent)
    requires AgentOk(c, a) && a.todo != []
    ensures AgentOk(c, Stepped(a)) && Final(Stepped(a)) == Final(a)
  {
    var b := Stepped(a);
    assert a.todo[0] in a.todo;
    ThroughShows(a.session, a.todo, a.todo[0]);
    forall p | p in Final(b).locks ensures p in b.session.locks || p !in View(c, b.session).parents {
      assert p in Final(a).locks;
    }
    if !a.stale { ActionEffect(c, a.session, a.todo[0]); }
  }

  /** Committing and judging change neither what a session has written nor what it sees. */
  lemma ClosingKeepsAgent(c: Db, s: Session, t: Session, stale: bool)
    requires AgentOk(c, Agent(s, [], stale)) && t.(judging := s.judging, queue := s.queue) == s
    ensures AgentOk(c, Agent(t, [], stale))
  {
    assert View(c, t) == View(c, s) && Final(Agent(t, [], stale)) == t && Final(Agent(s, [], stale)) == s;
  }

  // ---------------------------------------------------------------------------
  // A call starts.
  // ---------------------------------------------------------------------------

  lemma OwnThingsAreNew(c: Db, s: Session, t: Session, todo: seq<Action>, n: int)
    requires WritesOk(c, s) && FreshFrom(c, n) && Bounded(s, t, todo, n)
    ensures c.events.Keys !! t.events.Keys && t.evidence.Keys !! c.evidence.Keys
  {
    forall i | i in c.events ensures i !in t.events { assert i in s.events ==> i != i; }
    forall i | i in c.evidence ensures i !in t.evidence { assert i !in s.evidence.Keys; }
  }

  lemma SeenInOrderIsOk(c: Db, t: Session)
    requires c.events.Keys !! t.events.Keys && t.evidence.Keys !! c.evidence.Keys
    requires LocksItsRows(c, t) && ServiceLedger(View(c, t))
    ensures WritesOk(c, t)
  {
    var v := View(c, t);
    forall i | i in t.events ensures EventChecks(t.events[i]) && ParentOf(t.events[i]) in v.parents {
      assert v.events[i] == t.events[i] && EventOrdered(v, i);
    }
    forall i, j | i in c.events && j in t.events ensures i != j && !SameSlot(c.events[i], t.events[j]) {
      assert v.events[i] == c.events[i] && v.events[j] == t.events[j];
    }
    forall i, j | i in t.events && j in t.events && SameSlot(t.events[i], t.events[j]) ensures i == j {
      assert v.events[i] == t.events[i] && v.events[j] == t.events[j];
    }
    forall p | p in t.rows ensures RowChecks(p, t.rows[p]) { assert v.parents[p] == t.rows[p]; }
  }

  /** A session that only adds things of its own writes them in order if what it then sees is in order. */
  lemma OwnWritesAreOk(c: Db, s: Session, t: Session, todo: seq<Action>, n: int)
    requires WritesOk(c, s) && FreshFrom(c, n) && Bounded(s, t, todo, n)
    requires LocksItsRows(c, t) && ServiceLedger(View(c, t))
    ensures WritesOk(c, t)
  {
    OwnThingsAreNew(c, s, t, todo, n);
    SeenInOrderIsOk(c, t);
  }

  lemma OwnIsDisciplined(s: Session, todo: seq<Action>, n: int)
    requires Grows(s, todo) && Disciplined(s) && Covered(todo) && Bounded(s, Through(s, todo), todo, n)
    ensures Disciplined(Through(s, todo))
  {
    var t := Through(s, todo);
    ThroughKeeps(s, todo);
    forall i | i in t.events ensures ParentOf(t.events[i]) in t.rows {
      if AddEvent(i, t.events[i]) in todo {
        var b :| b in todo && b.Update? && b.p == ParentOf(t.events[i]);
        ThroughShows(s, todo, b);
      }
    }
  }

  /** The session at the start of a call: with its lock, but nothing else yet. */
  lemma LockKeepsSession(c: Db, s: Session, p: ParentId)
    requires WritesOk(c, s) && p in View(c, s).parents
    ensures var t := AfterAction(s, Lock(p)); WritesOk(c, t) && View(c, t) == View(c, s)
  {
  }

  /** May the session start the call, its row locked and its identities beyond all it sees? */
  ghost predicate Starts(c: Db, s: Session, n: int, call: Call, copy: ParentRow) {
    && WritesOk(c, s) && Disciplined(s) && !s.judging && CallableFrom(View(c, s), n, call, copy)
    && FreshFrom(c, n) && FreshFrom(View(c, s), n) && (Subject(call).Some? ==> Subject(call).value in s.locks)
  }

  ghost function Started(c: Db, s: Session, n: int, call: Call, copy: ParentRow, stale: bool): Agent
    requires Starts(c, s, n, call, copy)
  {
    Agent(s, Statements(View(c, s), n, call, copy), stale)
  }

  lemma StartedCallIsKept(c: Db, s: Session, n: int, call: Call, copy: ParentRow, stale: bool)
    requires Starts(c, s, n, call, copy)
    ensures var a := Started(c, s, n, call, copy, stale);
            && Kept(c, a) && Bounded(s, Final(a), a.todo, n) && AllOwn(a.todo, s.locks, n)
  {
    var v := View(c, s);
    var todo := Statements(v, n, call, copy);
    CallIsProper(v, n, call, copy, s.locks);
    forall a | a in todo && a.AddEvent? ensures a.id !in s.events {
      assert IsOwn(a, s.locks, n);
    }
    ProperGrows(s, todo, s.locks, n);
    ThroughIsBounded(s, todo, n);
    ThroughLocksItsRows(c, s, todo);
    OwnIsDisciplined(s, todo, n);
  }

  /** From a current copy on tables in order it will leave them in order. */
  lemma StartedCallIsCurrent(c: Db, s: Session, n: int, call: Call, copy: ParentRow)
    requires Starts(c, s, n, call, copy) && ServiceLedger(View(c, s)) && NeverConfirmed(View(c, s))
    requires Serves(View(c, s), call, copy)
    ensures AgentOk(c, Started(c, s, n, call, copy, false))
  {
    var v := View(c, s);
    var todo := Statements(v, n, call, copy);
    StartedCallIsKept(c, s, n, call, copy, false);
    CallPlays(v, n, call, copy);
    CallFromCopyCommitsExactly(v, n, call, copy);
    ThroughEffect(c, s, todo);
    OwnWritesAreOk(c, s, Through(s, todo), todo, n);
  }

  /** What a session sees stays as it is under statements that add new things. */
  lemma SeenStays(c: Db, s: Session, t: Session, todo: seq<Action>, n: int, j: int)
    requires Bounded(s, t, todo, n) && AllOwn(todo, s.locks, n) && Keeps(s, t) && j in View(c, s).events && j < n
    ensures j in View(c, t).events && View(c, t).events[j] == View(c, s).events[j]
  {
    if j in t.events && AddEvent(j, t.events[j]) in todo { assert IsOwn(AddEvent(j, t.events[j]), s.locks, n); }
  }

  lemma BrokenStays(c: Db, s: Session, n: int, call: Call, copy: ParentRow)
    requires Starts(c, s, n, call, copy) && Broken(c, s)
    ensures Broken(c, Final(Started(c, s, n, call, copy, true)))
  {
    var a := Started(c, s, n, call, copy, true);
    var t := Final(a);
    StartedCallIsKept(c, s, n, call, copy, true);
    ThroughKeeps(s, a.todo);
    var i, j :| BrokenLink(View(c, s).events, i, j) && i in s.events;
    SeenStays(c, s, t, a.todo, n, i);
    SeenStays(c, s, t, a.todo, n, j);
    assert BrokenLink(View(c, t).events, i, j);
  }

  lemma EventBreaks(c: Db, s: Session, n: int, call: Call, copy: ParentRow, e: Event, j: int)
    requires Starts(c, s, n, call, copy) && AddEvent(n, e) in Statements(View(c, s), n, call, copy)
    requires j in View(c, s).events && e.version > 1
    requires Precedes(View(c, s).events[j], e) && !LinkAccepted(View(c, s).events[j], e)
    ensures Broken(c, Final(Started(c, s, n, call, copy, true)))
  {
    var a := Started(c, s, n, call, copy, true);
    var t := Final(a);
    StartedCallIsKept(c, s, n, call, copy, true);
    ThroughKeeps(s, a.todo);
    ThroughShows(s, a.todo, AddEvent(n, e));
    SeenStays(c, s, t, a.todo, n, j);
    assert BrokenLink(View(c, t).events, n, j);
  }

  lemma StaleRecalculationBreaks(c: Db, s: Session, n: int, call: Call, copy: ParentRow)
    requires Starts(c, s, n, call, copy) && ServiceLedger(View(c, s)) && call.Recalculate?
    requires !Serves(View(c, s), call, copy)
    ensures Broken(c, Final(Started(c, s, n, call, copy, true)))
  {
    var v, now, after := View(c, s), copy.(spend := Some(call.newSpend)), ExpectedFacts(Some(call.amount), call.at);
    var e := EventFor(call.p, now, ExpectedAmount, LastVersion(v.events, call.p, ExpectedAmount) + 1, after,
        Recalculation);
    assert Statements(v, n, call, copy)[1] == AddEvent(n, e);
    StaleEventFollowsOther(v, call.p, now, ExpectedAmount, after, Recalculation);
    EventBreaks(c, s, n, call, copy, e, PointerOf(v.parents[call.p], ExpectedAmount).value);
  }

  lemma StaleRealisationBreaks(c: Db, s: Session, n: int, call: Call, copy: ParentRow)
    requires Starts(c, s, n, call, copy) && ServiceLedger(View(c, s)) && call.RealiseSavings?
    requires !Serves(View(c, s), call, copy)
    ensures Broken(c, Final(Started(c, s, n, call, copy, true)))
  {
    var v, after := View(c, s), SavingsFacts(call.amount, call.at, call.user, call.first, call.last);
    var e := EventFor(call.p, copy, RealisedSavings, LastVersion(v.events, call.p, RealisedSavings) + 1, after,
                      EvidenceReceived);
    assert Statements(v, n, call, copy)[0] == AddEvent(n, e);
    StaleEventFollowsOther(v, call.p, copy, RealisedSavings, after, EvidenceReceived);
    EventBreaks(c, s, n, call, copy, e, PointerOf(v.parents[call.p], RealisedSavings).value);
  }

  /** Wherever a call starts, its session is as it should be: current, or broken for good. */
  lemma StartedCallIsOk(c: Db, s: Session, n: int, call: Call, copy: ParentRow, stale: bool)
    requires Starts(c, s, n, call, copy)
    requires if stale then Broken(c, s) else ServiceLedger(View(c, s)) && NeverConfirmed(View(c, s))
    ensures AgentOk(c, Started(c, s, n, call, copy, stale || !Serves(View(c, s), call, copy)))
  {
    StartedCallIsKept(c, s, n, call, copy, stale || !Serves(View(c, s), call, copy));
    if stale {
      BrokenStays(c, s, n, call, copy);
    } else if Serves(View(c, s), call, copy) {
      StartedCallIsCurrent(c, s, n, call, copy);
    } else if call.Recalculate? {
      StaleRecalculationBreaks(c, s, n, call, copy);
    } else {
      StaleRealisationBreaks(c, s, n, call, copy);
    }
  }

  lemma SlotsHaveParents(a: Event, b: Event)
    ensures SameSlot(a, b) ==> ParentOf(a) == ParentOf(b)
  {
  }

  /** Sessions that lock different rows and number their things apart add events to different logs. */
  lemma ApartByLocks(s: Session, t: Session)
    requires s.rows.Keys <= s.locks && Disciplined(s) && t.rows.Keys <= t.locks && Disciplined(t)
    requires s.locks !! t.locks && s.events.Keys !! t.events.Keys && s.evidence.Keys !! t.evidence.Keys
    ensures Compatible(s, t) && Compatible(t, s)
  {
    forall i, j | i in s.events && j in t.events ensures !SameSlot(s.events[i], t.events[j]) {
      assert ParentOf(s.events[i]) in s.locks && ParentOf(t.events[j]) in t.locks;
      SlotsHaveParents(s.events[i], t.events[j]);
    }
  }

  /** Nobody else has or will come to lock a row that is free and there to be seen. */
  lemma SubjectIsFree(f: Floor, k: int, j: int, p: ParentId)
    requires FloorOk(f) && k in f.agents && j in f.agents && j != k && f.agents[k].todo == []
    requires p in View(f.committed, f.agents[k].session).parents && FreeFor(Concrete(f), k, p)
    ensures p !in Final(f.agents[j]).locks
  {
    var c, s, other := f.committed, f.agents[k].session, f.agents[j];
    assert AgentOk(c, f.agents[k]) && Final(f.agents[k]) == s && AgentOk(c, other);
    assert Compatible(s, Final(other));
    assert Concrete(f).sessions[j] == other.session && p !in other.session.locks;
    RowsAreLocked(f, k, p);
    if p !in s.rows { assert p in c.parents; }
  }

  lemma LocksWithin(c: Db, t: Session, n: int)
    requires LocksItsRows(c, t) && FreshFrom(View(c, t), n)
    ensures forall p :: p in t.locks ==> p.id < n
    ensures forall i :: i in t.events ==> i < n
    ensures forall i :: i in t.evidence ==> i < n
  {
    forall p | p in t.locks ensures p.id < n { assert p in View(c, t).parents; }
  }

  /** What a call adds is apart from what any other session has added or will add. */
  lemma StartedCallIsApart(c: Db, s: Session, t: Session, todo: seq<Action>, n: int, u: Session)
    requires LocksItsRows(c, t) && Disciplined(t) && Bounded(s, t, todo, n)
    requires LocksItsRows(c, u) && Disciplined(u) && FreshFrom(View(c, u), n) && Compatible(s, u)
    ensures Compatible(t, u) && Compatible(u, t)
  {
    LocksWithin(c, u, n);
    forall i | i in t.events ensures i !in u.events { assert i in s.events && i in u.events ==> i != i; }
    forall i | i in t.evidence ensures i !in u.evidence { assert i in s.evidence ==> i !in u.evidence.Keys; }
    assert forall p :: p in t.locks ==> p !in u.locks;
    ApartByLocks(t, u);
  }

  lemma AskedStarts(f: Floor, k: int, n: int, call: Call, copy: ParentRow)
    requires FloorOk(f) && May(f, k, Ask(n, call, copy))
    ensures var a := Asked(f, k, n, call, copy);
            && Starts(f.committed, a.session, n, call, copy)
               && View(f.committed, a.session) == View(f.committed, f.agents[k].session)
            && a == Started(f.committed, a.session, n, call, copy, a.stale)
  {
    var c, s := f.committed, f.agents[k].session;
    assert AgentOk(c, f.agents[k]) && Final(f.agents[k]) == s;
    SessionIsOk(f, k);
    if Subject(call).Some? { LockKeepsSession(c, s, Subject(call).value); }
  }

  lemma AskedIsBounded(f: Floor, k: int, n: int, call: Call, copy: ParentRow)
    requires FloorOk(f) && May(f, k, Ask(n, call, copy))
    ensures var a := Asked(f, k, n, call, copy);
            Kept(f.committed, a) && Bounded(a.session, Final(a), a.todo, n)
  {
    var a := Asked(f, k, n, call, copy);
    AskedStarts(f, k, n, call, copy);
    StartedCallIsKept(f.committed, a.session, n, call, copy, a.stale);
  }

  lemma LockedIsSound(f: Floor, k: int, n: int, call: Call, copy: ParentRow)
    requires FloorOk(f) && May(f, k, Ask(n, call, copy))
    ensures var c, s := f.committed, Asked(f, k, n, call, copy).session;
            if f.agents[k].stale then Broken(c, s) else ServiceLedger(View(c, s)) && NeverConfirmed(View(c, s))
  {
    assert AgentOk(f.committed, f.agents[k]) && Final(f.agents[k]) == f.agents[k].session;
    AskedStarts(f, k, n, call, copy);
  }

  lemma AskedIsOk(f: Floor, k: int, n: int, call: Call, copy: ParentRow)
    requires FloorOk(f) && May(f, k, Ask(n, call, copy))
    ensures AgentOk(f.committed, Asked(f, k, n, call, copy))
  {
    AskedStarts(f, k, n, call, copy);
    LockedIsSound(f, k, n, call, copy);
    StartedCallIsOk(f.committed, Asked(f, k, n, call, copy).session, n, call, copy, f.agents[k].stale);
  }

  lemma LockedIsApart(f: Floor, k: int, n: int, call: Call, copy: ParentRow, j: int)
    requires FloorOk(f) && May(f, k, Ask(n, call, copy)) && j in f.agents && j != k
    ensures Compatible(Asked(f, k, n, call, copy).session, Final(f.agents[j]))
  {
    assert AgentOk(f.committed, f.agents[k]) && Final(f.agents[k]) == f.agents[k].session;
    assert Compatible(Final(f.agents[k]), Final(f.agents[j]));
    if Subject(call).Some? { SubjectIsFree(f, k, j, Subject(call).value); }
  }

  lemma AskedIsApart(f: Floor, k: int, n: int, call: Call, copy: ParentRow, j: int)
    requires FloorOk(f) && May(f, k, Ask(n, call, copy)) && j in f.agents && j != k
    ensures var t, u := Final(Asked(f, k, n, call, copy)), Final(f.agents[j]); Compatible(t, u) && Compatible(u, t)
  {
    var a, u := Asked(f, k, n, call, copy), Final(f.agents[j]);
    AskedIsBounded(f, k, n, call, copy);
    LockedIsApart(f, k, n, call, copy, j);
    assert Kept(f.committed, f.agents[j]) by { assert AgentOk(f.committed, f.agents[j]); }
    StartedCallIsApart(f.committed, a.session, Final(a), a.todo, n, u);
  }

  lemma AskedFloorIsApart(f: Floor, k: int, n: int, call: Call, copy: ParentRow)
    requires FloorOk(f) && May(f, k, Ask(n, call, copy))
    ensures AllApart(Moved(f, k, Ask(n, call, copy)))
  {
    var g := Moved(f, k, Ask(n, call, copy));
    forall j | j in f.agents && j != k
      ensures Compatible(Final(g.agents[k]), Final(f.agents[j])) && Compatible(Final(f.agents[j]), Final(g.agents[k]))
    {
      AskedIsApart(f, k, n, call, copy, j);
    }
    ApartReplaced(f, g, k);
  }

  lemma AskKeepsFloor(f: Floor, k: int, n: int, call: Call, copy: ParentRow)
    requires FloorOk(f) && May(f, k, Ask(n, call, copy)) && Granted(f, k, Ask(n, call, copy))
    ensures FloorOk(Moved(f, k, Ask(n, call, copy)))
  {
    var g := Moved(f, k, Ask(n, call, copy));
    assert Consistent(Concrete(g)) by { MoveKeepsConsistent(f, k, Ask(n, call, copy)); }
    assert AllApart(g) by { AskedFloorIsApart(f, k, n, call, copy); }
    assert AgentOk(g.committed, g.agents[k]) by { AskedIsOk(f, k, n, call, copy); }
    assert OthersAsBefore(f, g, k);
    AgentReplaced(f, g, k);
  }

  // ---------------------------------------------------------------------------
  // A session is published under the others.
  // ---------------------------------------------------------------------------

  /** b has everything a has. */
  ghost predicate GrowsTo(a: Db, b: Db) {
    && a.parents.Keys <= b.parents.Keys
    && a.events.Keys <= b.events.Keys && (forall i :: i in a.events ==> a.events[i] == b.events[i])
    && a.evidence.Keys <= b.evidence.Keys && (forall i :: i in a.evidence ==> a.evidence[i] == b.evidence[i])
  }

  /** What b has beyond a is none of the statement's business. */
  ghost predicate Avoids(a: Db, b: Db, act: Action) {
    match act
    case Insert(p, _) => p in b.parents ==> p in a.parents
    case AddEvent(id, e) => forall i :: i in b.events && i !in a.events ==> i != id && !SameSlot(b.events[i], e)
    case AddEvidence(id, _) => id in b.evidence ==> id in a.evidence
    case _ => true
  }

  lemma AdmissibleStays(a: Db, b: Db, act: Action)
    requires GrowsTo(a, b) && Admissible(a, act) && Avoids(a, b, act)
    ensures Admissible(b, act) && GrowsTo(Effect(a, act), Effect(b, act))
  {
  }

  lemma AvoidanceStays(a: Db, b: Db, first: Action, act: Action)
    requires GrowsTo(a, b) && Avoids(a, b, act)
    ensures Avoids(Effect(a, first), Effect(b, first), act)
  {
  }

  lemma {:induction false} ReadyStays(a: Db, b: Db, todo: seq<Action>)
    requires GrowsTo(a, b) && Ready(a, todo) && forall act :: act in todo ==> Avoids(a, b, act)
    ensures Ready(b, todo)
    decreases |todo|
  {
    if todo != [] {
      assert todo[0] in todo;
      AdmissibleStays(a, b, todo[0]);
      forall act | act in todo[1..] ensures Avoids(Effect(a, todo[0]), Effect(b, todo[0]), act) {
        AvoidanceStays(a, b, todo[0], act);
      }
      ReadyStays(Effect(a, todo[0]), Effect(b, todo[0]), todo[1..]);
    }
  }

  lemma EventStaysOrdered(a: Db, b: Db, i: int)
    requires GrowsTo(a, b) && i in a.events && EventOrdered(a, i) && EvidenceTrigger(a.evidence, i, a.events[i])
    ensures EventOrdered(b, i) && EvidenceTrigger(b.evidence, i, b.events[i])
  {
    SettledEventsStay(a, b, i);
  }

  lemma SlotStaysOrdered(a: Db, b: Db, p: ParentId, m: Measure)
    requires GrowsTo(a, b) && p in a.parents && b.parents[p] == a.parents[p] && SlotOrdered(a, p, m, {})
    requires forall i :: i in b.events && i !in a.events ==> EventChecks(b.events[i]) && ParentOf(b.events[i]) != p
    ensures SlotOrdered(b, p, m, {})
  {
    OtherLogsKeepLatest(a.events, b.events, p, a.parents[p], m);
  }

  /** Two sessions whose calls are through, and which have kept apart. */
  ghost predicate Mergeable(c: Db, s: Session, t: Session) {
    Finished(c, s) && Finished(c, t) && Compatible(s, t)
  }

  lemma BothGrow(c: Db, s: Session, t: Session)
    requires Mergeable(c, s, t)
    ensures var b := View(View(c, s), t); GrowsTo(View(c, s), b) && GrowsTo(View(c, t), b)
  {
    OthersViewGrows(c, s, t);
    BothStayApart(c.events, s.events, t.events);
    assert forall i :: i in View(c, s).events ==> i !in t.events;
    assert forall i :: i in View(c, s).evidence ==> i !in t.evidence.Keys;
  }

  lemma MergedEvents(c: Db, s: Session, t: Session, i: int)
    requires Mergeable(c, s, t) && i in View(View(c, s), t).events
    ensures var b := View(View(c, s), t); EventOrdered(b, i) && EvidenceTrigger(b.evidence, i, b.events[i])
  {
    var b := View(View(c, s), t);
    BothGrow(c, s, t);
    var a := if i in t.events then View(c, t) else View(c, s);
    assert i in a.events && EventOrdered(a, i);
    EventStaysOrdered(a, b, i);
  }

  lemma MergedRows(c: Db, s: Session, t: Session, p: ParentId)
    requires Mergeable(c, s, t) && p in View(View(c, s), t).parents
    ensures var b := View(View(c, s), t);
            && RowChecks(p, b.parents[p])
            && (p.Rebate? ==> FactsOf(b.parents[p], ExpectedAmount).status != Some(Confirmed))
  {
    var b := View(View(c, s), t);
    var a := if p in t.rows then View(c, t) else View(c, s);
    assert b.parents[p] == a.parents[p] && RowChecks(p, a.parents[p]) && NeverConfirmed(a);
  }

  lemma MergedSlots(c: Db, s: Session, t: Session, p: ParentId, m: Measure)
    requires Mergeable(c, s, t) && p in View(View(c, s), t).parents && Governs(p, m)
    ensures SlotOrdered(View(View(c, s), t), p, m, {})
  {
    var b := View(View(c, s), t);
    BothGrow(c, s, t);
    if p in t.rows {
      forall i | i in b.events && i !in View(c, t).events
        ensures EventChecks(b.events[i]) && ParentOf(b.events[i]) != p
      {
        OthersLogsAreLeftAlone(c, s, t, i);
      }
      assert SlotOrdered(View(c, t), p, m, {});
      SlotStaysOrdered(View(c, t), b, p, m);
    } else {
      forall i | i in b.events && i !in View(c, s).events
        ensures EventChecks(b.events[i]) && ParentOf(b.events[i]) != p
      {
        assert i in t.events && ParentOf(t.events[i]) in t.rows;
      }
      assert SlotOrdered(View(c, s), p, m, {});
      SlotStaysOrdered(View(c, s), b, p, m);
    }
  }

  /** Once one of them is committed, what the other will leave is still in order. */
  lemma MergeKeepsFinished(c: Db, s: Session, t: Session)
    requires Mergeable(c, s, t)
    ensures Finished(View(c, s), t)
  {
    var b := View(View(c, s), t);
    OthersKeepWrites(c, s, t);
    ViewKeepsUnique(View(c, s), t);
    forall i | i in b.events ensures EventOrdered(b, i) && EvidenceTrigger(b.evidence, i, b.events[i]) {
      MergedEvents(c, s, t, i);
    }
    forall p | p in b.parents
      ensures RowChecks(p, b.parents[p])
      ensures p.Rebate? ==> FactsOf(b.parents[p], ExpectedAmount).status != Some(Confirmed)
    {
      MergedRows(c, s, t, p);
    }
    forall p, m | p in b.parents && Governs(p, m) ensures SlotOrdered(b, p, m, {}) { MergedSlots(c, s, t, p, m); }
  }

  /** The other session, and the one that is committed. */
  ghost predicate Beside(c: Db, s: Session, a: Agent) { Finished(c, s) && Compatible(s, Final(a)) }

  lemma PublishedAvoids(c: Db, s: Session, a: Agent, act: Action)
    requires Kept(c, a) && Beside(c, s, a) && act in a.todo
    ensures Avoids(View(c, a.session), View(View(c, s), a.session), act)
  {
    ThroughShows(a.session, a.todo, act);
    var t, b := Final(a), View(View(c, s), a.session);
    match act
    case Insert(p, _) => assert p in s.rows ==> p in s.locks && p in t.locks;
    case AddEvent(id, e) =>
      forall i | i in b.events && i !in View(c, a.session).events ensures i != id && !SameSlot(b.events[i], e) {
        assert i in s.events && b.events[i] == s.events[i] && t.events[id] == e;
      }
    case AddEvidence(id, _) => assert id in s.evidence.Keys ==> id !in t.evidence.Keys;
    case _ =>
  }

  lemma PublishedGrows(c: Db, s: Session, t: Session)
    requires Finished(c, s)
    ensures GrowsTo(View(c, t), View(View(c, s), t))
  {
    forall i | i in View(c, t).events ensures View(View(c, s), t).events[i] == View(c, t).events[i] {
      assert i in c.events ==> i !in s.events by { assert Apart(c.events, s.events); }
    }
    forall i | i in View(c, t).evidence ensures View(View(c, s), t).evidence[i] == View(c, t).evidence[i] {
      assert i in c.evidence.Keys ==> i !in s.evidence.Keys;
    }
  }

  lemma PublishKeepsKept(c: Db, s: Session, a: Agent)
    requires Kept(c, a) && Beside(c, s, a)
    ensures Kept(View(c, s), a)
  {
    forall p | p in Final(a).locks ensures p in a.session.locks || p !in View(View(c, s), a.session).parents {
      assert p in s.rows ==> p in s.locks;
    }
  }

  lemma PublishKeepsReady(c: Db, s: Session, a: Agent)
    requires Kept(c, a) && Ready(View(c, a.session), a.todo) && Beside(c, s, a)
    ensures Ready(View(View(c, s), a.session), a.todo)
  {
    PublishedGrows(c, s, a.session);
    forall act | act in a.todo ensures Avoids(View(c, a.session), View(View(c, s), a.session), act) {
      PublishedAvoids(c, s, a, act);
    }
    ReadyStays(View(c, a.session), View(View(c, s), a.session), a.todo);
  }

  lemma PublishKeepsBroken(c: Db, s: Session, t: Session)
    requires Finished(c, s) && Broken(c, t)
    ensures Broken(View(c, s), t)
  {
    PublishedGrows(c, s, t);
    var i, j :| BrokenLink(View(c, t).events, i, j) && i in t.events;
    assert BrokenLink(View(View(c, s), t).events, i, j);
  }

  lemma PublishKeepsAgent(c: Db, s: Session, a: Agent)
    requires AgentOk(c, a) && Beside(c, s, a)
    ensures AgentOk(View(c, s), a)
  {
    PublishKeepsKept(c, s, a);
    if a.stale {
      PublishKeepsBroken(c, s, Final(a));
    } else {
      MergeKeepsFinished(c, s, Final(a));
      PublishKeepsReady(c, s, a);
    }
  }

  /** Only a current session gets as far as its commit. */
  lemma ReleasedIsCurrent(f: Floor, k: int)
    requires FloorOk(f) && May(f, k, Release)
    ensures !f.agents[k].stale && f.agents[k].todo == [] && Finished(f.committed, f.agents[k].session)
  {
    assert AgentOk(f.committed, f.agents[k]) && Final(f.agents[k]) == f.agents[k].session;
    if f.agents[k].stale { StaleIsRefused(f, k); }
  }

  lemma ReleaseKeepsFloor(f: Floor, k: int)
    requires FloorOk(f) && May(f, k, Release) && Granted(f, k, Release)
    ensures FloorOk(Moved(f, k, Release))
  {
    var c, s, g := f.committed, f.agents[k].session, Moved(f, k, Release);
    ReleasedIsCurrent(f, k);
    MoveKeepsConsistent(f, k, Release);
    forall j | j in g.agents ensures AgentOk(g.committed, g.agents[j]) {
      assert Final(f.agents[k]) == s && Compatible(Final(f.agents[k]), Final(f.agents[j])) && AgentOk(c, f.agents[j]);
      PublishKeepsAgent(c, s, f.agents[j]);
    }
  }

  lemma NextKeepsFloor(f: Floor, k: int)
    requires FloorOk(f) && May(f, k, Next) && Granted(f, k, Next)
    ensures FloorOk(Moved(f, k, Next))
  {
    NextKeepsAgent(f.committed, f.agents[k]);
    MoveKeepsConsistent(f, k, Next);
    SameFinalIsApart(f, Moved(f, k, Next), k);
    AgentReplaced(f, Moved(f, k, Next), k);
  }

  lemma CloseKeepsFloor(f: Floor, k: int, m: Move)
    requires FloorOk(f) && May(f, k, m) && Granted(f, k, m) && (m.Seal? || m.Judge?)
    ensures FloorOk(Moved(f, k, m))
  {
    var a, b := f.agents[k], Moved(f, k, m).agents[k];
    assert AgentOk(f.committed, a) && a == Agent(a.session, [], a.stale) && b == Agent(b.session, [], a.stale);
    ClosingKeepsAgent(f.committed, a.session, b.session, a.stale);
    MoveKeepsConsistent(f, k, m);
    assert Final(a) == a.session && Final(b) == b.session;
    SameFinalIsApart(f, Moved(f, k, m), k);
    AgentReplaced(f, Moved(f, k, m), k);
  }

  lemma EmptyIsApart(s: Session, t: Session)
    requires s.locks == {} && s.events == map[] && s.evidence == map[]
    ensures Compatible(s, t) && Compatible(t, s)
  {
  }

  lemma JoinedFloorIsApart(f: Floor, k: int, g: Floor)
    requires AllApart(f) && OthersAsBefore(f, g, k)
    requires var s := Final(g.agents[k]); s.locks == {} && s.events == map[] && s.evidence == map[]
    ensures AllApart(g)
  {
    forall j | j in f.agents && j != k
      ensures Compatible(Final(g.agents[k]), Final(f.agents[j])) && Compatible(Final(f.agents[j]), Final(g.agents[k]))
    {
      EmptyIsApart(Final(g.agents[k]), Final(f.agents[j]));
    }
    ApartReplaced(f, g, k);
  }

  lemma JoinKeepsFloor(f: Floor, k: int)
    requires FloorOk(f) && May(f, k, Join) && Granted(f, k, Join)
    ensures FloorOk(Moved(f, k, Join))
  {
    var g := Moved(f, k, Join);
    NewSessionIsOk(f.committed);
    MoveKeepsConsistent(f, k, Join);
    assert Final(g.agents[k]) == NEW_SESSION;
    JoinedFloorIsApart(f, k, g);
    AgentReplaced(f, g, k);
  }

  lemma QuitKeepsFloor(f: Floor, k: int)
    requires FloorOk(f) && May(f, k, Quit) && Granted(f, k, Quit)
    ensures FloorOk(Moved(f, k, Quit))
  {
    MoveKeepsConsistent(f, k, Quit);
    var g := Moved(f, k, Quit);
    forall j | j in g.agents ensures AgentOk(g.committed, g.agents[j]) { assert AgentOk(f.committed, f.agents[j]); }
  }

  /** Whatever is done next, by whichever session, everything stays in order. */
  lemma MoveKeepsFloor(f: Floor, k: int, m: Move)
    requires FloorOk(f) && May(f, k, m) && Granted(f, k, m)
    ensures FloorOk(Moved(f, k, m))
  {
    match m
    case Join => JoinKeepsFloor(f, k);
    case Ask(n, call, copy) => AskKeepsFloor(f, k, n, call, copy);
    case Next => NextKeepsFloor(f, k);
    case Seal => CloseKeepsFloor(f, k, Seal);
    case Judge => CloseKeepsFloor(f, k, Judge);
    case Release => ReleaseKeepsFloor(f, k);
    case Quit => QuitKeepsFloor(f, k);
  }

  // ---------------------------------------------------------------------------
  // All runs.
  // ---------------------------------------------------------------------------

  /** After a refusal a session can only quit, so only moves that are granted are made. */
  ghost predicate OneMove(f: Floor, g: Floor) {
    exists k, m :: May(f, k, m) && Granted(f, k, m) && g == Moved(f, k, m)
  }

  /** Any number of sessions, making any calls from any copies, interleaved in any way, from tables in order. */
  ghost predicate Traffic(run: seq<Floor>) {
    && run != [] && run[0].agents == map[] && ServiceLedger(run[0].committed) && NeverConfirmed(run[0].committed)
    && forall i :: 0 <= i < |run| - 1 ==> OneMove(run[i], run[i + 1])
  }

  lemma {:induction false} TrafficStaysInOrder(run: seq<Floor>, n: nat)
    requires Traffic(run) && n < |run|
    ensures FloorOk(run[n])
  {
    if n > 0 {
      TrafficStaysInOrder(run, n - 1);
      assert OneMove(run[n - 1], run[n - 1 + 1]);
      var k, m :| May(run[n - 1], k, m) && Granted(run[n - 1], k, m) && run[n] == Moved(run[n - 1], k, m);
      MoveKeepsFloor(run[n - 1], k, m);
    } else {
      ServiceLedgerIsOk(run[0].committed);
    }
  }

  /** At no point of any interleaving does the database refuse a statement, a lock on a free row, a deferred trigger
      or a commit that is asked by a session whose calls have worked from current copies; of other sessions it can
      refuse only statements and triggers. */
  lemma NoCurrentCallIsRefused(run: seq<Floor>, n: nat, k: int, m: Move)
    requires Traffic(run) && n < |run| && May(run[n], k, m) && !MayBeRefused(run[n], k, m)
    ensures Granted(run[n], k, m)
  {
    TrafficStaysInOrder(run, n);
    EveryMoveIsGranted(run[n], k, m);
  }

  /** Once all calls of a session are through, its triggers accept it if and only if none of them worked from a
      stale copy; and a session with one that did is never committed. */
  lemma CommitsExactlyWhenCurrent(run: seq<Floor>, n: nat, k: int)
    requires Traffic(run) && n < |run| && k in run[n].agents && run[n].agents[k].todo == []
    ensures var a := run[n].agents[k];
            && ((forall q :: q in a.session.queue ==> Verdict(View(run[n].committed, a.session), q)) <==> !a.stale)
            && (May(run[n], k, Release) ==> !a.stale)
  {
    TrafficStaysInOrder(run, n);
    var a := run[n].agents[k];
    if a.stale {
      StaleIsRefused(run[n], k);
    } else {
      forall q | q in a.session.queue ensures Verdict(View(run[n].committed, a.session), q) {
        CurrentIsSettled(run[n], k, q);
      }
    }
    if May(run[n], k, Release) { ReleasedIsCurrent(run[n], k); }
  }

  /** Each move is a step of the concurrency model, or none of its business. */
  lemma TrafficIsAnExecution(run: seq<Floor>, n: nat)
    requires Traffic(run) && n + 1 < |run|
    ensures Concrete(run[n + 1]) == Concrete(run[n]) || Step(Concrete(run[n]), Concrete(run[n + 1]))
  {
    TrafficStaysInOrder(run, n);
    assert OneMove(run[n], run[n + 1]);
    var k, m :| May(run[n], k, m) && Granted(run[n], k, m) && run[n + 1] == Moved(run[n], k, m);
    EveryMoveIsAStep(run[n], k, m);
    if Asks(run[n], k, m).Some? { assert Enabled(Concrete(run[n]), k, Asks(run[n], k, m).value); }
  }
}
