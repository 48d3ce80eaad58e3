/** One transaction: a list of statements, the deferred firings they queue, and the verdict of the
    parent triggers at commit, as migration 0021 wrote them (judging the queued row image) and as
    migration 0024 rewrote them (judging the row as it stands). */
module EvidenceTransactions {
  import opened Sql
  import opened CheckExpressions
  import opened EvidenceSchema
  import opened EvidenceTriggers

  datatype Statement =
    | InsertParent(p: ParentId, row: ParentRow)
    | UpdateParent(p: ParentId, row: ParentRow)
    | DeleteParent(p: ParentId)
    | InsertEvent(id: int, event: Event)
    | InsertEvidence(id: int, item: Evidence)

  /** A queued firing of a deferred row trigger; a parent firing carries the row as its statement left it. */
  datatype Firing = EventFiring(id: int) | ParentFiring(p: ParentId, image: ParentRow)

  datatype Work = Work(db: Db, queue: seq<Firing>)

  function Apply(w: Work, s: Statement): Work {
    match s
    case InsertParent(p, row) => Work(w.db.(parents := w.db.parents[p := row]), w.queue + [ParentFiring(p, row)])
    case UpdateParent(p, row) =>
      if p in w.db.parents then Work(w.db.(parents := w.db.parents[p := row]), w.queue + [ParentFiring(p, row)]) else w
    case DeleteParent(p) => w.(db := w.db.(parents := w.db.parents - {p}))
    case InsertEvent(id, e) => Work(w.db.(events := w.db.events[id := e]), w.queue + [EventFiring(id)])
    case InsertEvidence(id, item) => w.(db := w.db.(evidence := w.db.evidence[id := item]))
  }

  function Run(w: Work, statements: seq<Statement>): Work
    decreases |statements|
  {
    if statements == [] then w else Run(Apply(w, statements[0]), statements[1..])
  }

  /** Migration 0021: every queued image is judged. */
  ghost predicate ImagesAccepted(w: Work) {
    forall i :: 0 <= i < |w.queue| && w.queue[i].ParentFiring? ==>
      ParentTriggers(w.db.events, w.queue[i].p, w.queue[i].image)
  }

  /** Migration 0024: the row is read again; a row that has gone is not judged. */
  ghost predicate FinalRowsAccepted(w: Work) {
    forall i :: 0 <= i < |w.queue| && w.queue[i].ParentFiring? && w.queue[i].p in w.db.parents ==>
      ParentTriggers(w.db.events, w.queue[i].p, w.db.parents[w.queue[i].p])
  }

  /** The two event triggers, which no migration changed. */
  ghost predicate EventsAccepted(w: Work) {
    forall i :: 0 <= i < |w.queue| && w.queue[i].EventFiring? && w.queue[i].id in w.db.events ==>
      ChainTrigger(w.db.events, w.db.events[w.queue[i].id])
      && EvidenceTrigger(w.db.evidence, w.queue[i].id, w.db.events[w.queue[i].id])
  }

  // ---------------------------------------------------------------------------
  // Every image judged implies every final row judged.
  // ---------------------------------------------------------------------------

  /** A parent with a queued firing that is still there has its current row in the queue. */
  ghost predicate CurrentImagesQueued(w: Work) {
    forall i :: 0 <= i < |w.queue| && w.queue[i].ParentFiring? && w.queue[i].p in w.db.parents ==>
      ParentFiring(w.queue[i].p, w.db.parents[w.queue[i].p]) in w.queue
  }

  lemma ApplyKeepsCurrentImages(w: Work, s: Statement)
    requires CurrentImagesQueued(w)
    ensures CurrentImagesQueued(Apply(w, s))
  {
    var v := Apply(w, s);
    forall i | 0 <= i < |v.queue| && v.queue[i].ParentFiring? && v.queue[i].p in v.db.parents
      ensures ParentFiring(v.queue[i].p, v.db.parents[v.queue[i].p]) in v.queue
    {
      var p := v.queue[i].p;
      if (s.InsertParent? || s.UpdateParent?) && s.p == p && v != w {
        assert v.queue[|w.queue|] == ParentFiring(p, v.db.parents[p]);
      } else {
        assert p in w.db.parents && v.db.parents[p] == w.db.parents[p];
        assert i < |w.queue| && w.queue[i] == v.queue[i];
        assert ParentFiring(p, w.db.parents[p]) in w.queue;
      }
    }
  }

  lemma {:induction false} RunKeepsCurrentImages(w: Work, statements: seq<Statement>)
    requires CurrentImagesQueued(w)
    ensures CurrentImagesQueued(Run(w, statements))
    decreases |statements|
  {
    if statements != [] {
      ApplyKeepsCurrentImages(w, statements[0]);
      RunKeepsCurrentImages(Apply(w, statements[0]), statements[1..]);
    }
  }

  /** A transaction that satisfied the old triggers satisfies the new ones. */
  lemma ImagesAcceptedImpliesFinalRowsAccepted(db: Db, statements: seq<Statement>)
    ensures ImagesAccepted(Run(Work(db, []), statements)) ==> FinalRowsAccepted(Run(Work(db, []), statements))
  {
    var w := Run(Work(db, []), statements);
    RunKeepsCurrentImages(Work(db, []), statements);
    if ImagesAccepted(w) {
      forall i | 0 <= i < |w.queue| && w.queue[i].ParentFiring? && w.queue[i].p in w.db.parents
        ensures ParentTriggers(w.db.events, w.queue[i].p, w.db.parents[w.queue[i].p])
      {
        var f := ParentFiring(w.queue[i].p, w.db.parents[w.queue[i].p]);
        var k :| 0 <= k < |w.queue| && w.queue[k] == f;
      }
    }
  }

  // ---------------------------------------------------------------------------
  // Exactly which transactions the old triggers lost.
  // ---------------------------------------------------------------------------

  /** Do two images of a row agree on the columns the triggers look at? */
  predicate SameGoverned(p: ParentId, a: ParentRow, b: ParentRow) {
    && a.org == b.org
    && (forall m | m in {ExpectedAmount, AnnualFinancialImpact, RealisedSavings} && Governs(p, m) ::
          PointerOf(a, m) == PointerOf(b, m) && FactsOf(a, m) == FactsOf(b, m))
  }

  predicate Deletes(statements: seq<Statement>) {
    exists s :: s in statements && s.DeleteParent?
  }

  /** Everything queued passed its statement's own constraints. */
  ghost predicate WellFormed(w: Work) {
    && (forall i :: i in w.db.events ==> EventChecks(w.db.events[i]))
    && UniqueVersions(w.db.events)
    && (forall p :: p in w.db.parents ==> RowChecks(p, w.db.parents[p]))
    && (forall i :: 0 <= i < |w.queue| && w.queue[i].ParentFiring? ==> RowChecks(w.queue[i].p, w.queue[i].image))
  }

  ghost predicate TouchedRowsPresent(w: Work) {
    forall i :: 0 <= i < |w.queue| && w.queue[i].ParentFiring? ==> w.queue[i].p in w.db.parents
  }

  lemma {:induction false} TouchedRowsStay(w: Work, statements: seq<Statement>)
    requires !Deletes(statements) && TouchedRowsPresent(w)
    ensures TouchedRowsPresent(Run(w, statements))
    decreases |statements|
  {
    if statements != [] {
      assert statements[0] in statements;
      assert forall s :: s in statements[1..] ==> s in statements;
      TouchedRowsStay(Apply(w, statements[0]), statements[1..]);
    }
  }

  /** The triggers see only the governed columns, and those of an accepted row are determined. */
  lemma AcceptedRowsAgree(events: map<int, Event>, p: ParentId, a: ParentRow, b: ParentRow)
    requires (forall i :: i in events ==> EventChecks(events[i])) && UniqueVersions(events)
    requires RowChecks(p, a) && RowChecks(p, b) && ParentTriggers(events, p, b)
    ensures ParentTriggers(events, p, a) <==> SameGoverned(p, a, b)
  {
    forall m | m in {ExpectedAmount, AnnualFinancialImpact, RealisedSavings} && Governs(p, m)
      ensures SnapshotTrigger(events, p, a, m) <==> ShowsLatest(events, p, a, m)
      ensures ShowsLatest(events, p, b, m)
      ensures ShowsLatest(events, p, a, m)
              <==> a.org == b.org && PointerOf(a, m) == PointerOf(b, m) && FactsOf(a, m) == FactsOf(b, m)
    {
      SnapshotTriggerMeans(events, p, a, m);
      SnapshotTriggerMeans(events, p, b, m);
      if ShowsLatest(events, p, a, m) {
        var i, j := PointerOf(a, m).value, PointerOf(b, m).value;
        InLogIsParentOf(events[i], p, m);
        InLogIsParentOf(events[j], p, m);
        assert SameSlot(events[i], events[j]);
      }
    }
  }

  /** The old triggers accept exactly the transactions that the new ones accept and that never leave a
      governed column in an intermediate state: whatever the statements, nothing else was lost. */
  lemma OldTriggersExactly(db: Db, statements: seq<Statement>)
    requires !Deletes(statements) && WellFormed(Run(Work(db, []), statements))
    ensures var w := Run(Work(db, []), statements);
            ImagesAccepted(w) <==>
              FinalRowsAccepted(w) &&
              forall i :: 0 <= i < |w.queue| && w.queue[i].ParentFiring? ==>
                w.queue[i].p in w.db.parents && SameGoverned(w.queue[i].p, w.queue[i].image, w.db.parents[w.queue[i].p])
  {
    var w := Run(Work(db, []), statements);
    TouchedRowsStay(Work(db, []), statements);
    assert TouchedRowsPresent(w);
    ImagesAcceptedImpliesFinalRowsAccepted(db, statements);
    if FinalRowsAccepted(w) {
      forall i | 0 <= i < |w.queue| && w.queue[i].ParentFiring?
        ensures ParentTriggers(w.db.events, w.queue[i].p, w.queue[i].image)
                <==> SameGoverned(w.queue[i].p, w.queue[i].image, w.db.parents[w.queue[i].p])
      {
        AcceptedRowsAgree(w.db.events, w.queue[i].p, w.queue[i].image, w.db.parents[w.queue[i].p]);
      }
    }
  }

  ghost function Touched(w: Work): set<ParentId> {
    set f | f in w.queue && f.ParentFiring? :: f.p
  }

  /** 0024's verdict is a function of the final tables and of which parents were touched. */
  lemma FinalVerdictIgnoresHistory(a: Work, b: Work)
    requires a.db == b.db && Touched(a) == Touched(b)
    ensures FinalRowsAccepted(a) <==> FinalRowsAccepted(b)
  {
    FinalVerdictByTouched(a);
    FinalVerdictByTouched(b);
  }

  lemma FinalVerdictByTouched(w: Work)
    ensures FinalRowsAccepted(w) <==>
            forall p :: p in Touched(w) && p in w.db.parents ==> ParentTriggers(w.db.events, p, w.db.parents[p])
  {
    if FinalRowsAccepted(w) {
      forall p | p in Touched(w) && p in w.db.parents ensures ParentTriggers(w.db.events, p, w.db.parents[p]) {
        var f :| f in w.queue && f.ParentFiring? && f.p == p;
        var i :| 0 <= i < |w.queue| && w.queue[i] == f;
      }
    } else {
      var i :| 0 <= i < |w.queue| && w.queue[i].ParentFiring? && w.queue[i].p in w.db.parents
               && !ParentTriggers(w.db.events, w.queue[i].p, w.db.parents[w.queue[i].p]);
      assert w.queue[i] in w.queue;
      assert w.queue[i].p in Touched(w);
    }
  }

  // ---------------------------------------------------------------------------
  // The intended lifecycle of a new row.
  // ---------------------------------------------------------------------------

  /** Whatever follows the insert of p's row: events and evidence of any kind, and updates of that row. */
  predicate Follows(p: ParentId, rest: seq<Statement>) {
    forall s :: s in rest ==> s.InsertEvent? || s.InsertEvidence? || (s.UpdateParent? && s.p == p)
  }

  /** A new row that starts with one of its measures pointing nowhere. */
  function Lifecycle(db: Db, p: ParentId, placeholder: ParentRow, rest: seq<Statement>): Work {
    Run(Work(db, []), [InsertParent(p, placeholder)] + rest)
  }

  ghost predicate PointsNowhere(p: ParentId, row: ParentRow) { exists m :: Governs(p, m) && PointerOf(row, m).None? }

  /** Each measure of p has exactly one event, first(m). */
  ghost predicate FirstEvents(events: map<int, Event>, p: ParentId, first: Measure -> int) {
    && (forall m :: Governs(p, m) ==> first(m) in events && InLog(events[first(m)], p, m))
    && (forall m, i :: Governs(p, m) && i in events && InLog(events[i], p, m) ==> i == first(m))
  }

  /** The row points at the first event of each of its measures and repeats it. */
  ghost predicate RepeatsEvents(events: map<int, Event>, p: ParentId, row: ParentRow, first: Measure -> int)
    requires FirstEvents(events, p, first)
  {
    forall m :: Governs(p, m) ==>
      && PointerOf(row, m) == Some(first(m)) && events[first(m)].org == row.org
      && FactsOf(row, m) == Visible(m, events[first(m)].after)
  }

  lemma {:induction false} RunTouchesOnly(w: Work, p: ParentId, rest: seq<Statement>)
    requires Follows(p, rest) && p in w.db.parents && w.queue != []
    requires forall i :: 0 <= i < |w.queue| && w.queue[i].ParentFiring? ==> w.queue[i].p == p
    ensures var v := Run(w, rest);
            && p in v.db.parents && v.queue != [] && v.queue[0] == w.queue[0]
            && forall i :: 0 <= i < |v.queue| && v.queue[i].ParentFiring? ==> v.queue[i].p == p
    decreases |rest|
  {
    if rest != [] {
      assert rest[0] in rest;
      assert forall s :: s in rest[1..] ==> s in rest;
      RunTouchesOnly(Apply(w, rest[0]), p, rest[1..]);
    }
  }

  lemma TriggersWantFirstEvents(events: map<int, Event>, p: ParentId, row: ParentRow, first: Measure -> int)
    requires (forall i :: i in events ==> EventChecks(events[i])) && UniqueVersions(events)
    requires RowChecks(p, row) && FirstEvents(events, p, first)
    ensures ParentTriggers(events, p, row) <==> RepeatsEvents(events, p, row, first)
  {
    forall m | m in {ExpectedAmount, AnnualFinancialImpact, RealisedSavings} && Governs(p, m)
      ensures SnapshotTrigger(events, p, row, m) <==> ShowsLatest(events, p, row, m)
      ensures IsLatest(events, p, m, first(m)) && forall i :: IsLatest(events, p, m, i) ==> i == first(m)
    {
      SnapshotTriggerMeans(events, p, row, m);
    }
  }

  /** A new row of either kind, inserted while a measure points nowhere, then given its events and its
      references in any order: the old triggers reject every such transaction, the new ones accept it exactly
      when the final row repeats the first event of each of its measures. */
  lemma LifecycleVerdicts(db: Db, p: ParentId, placeholder: ParentRow, rest: seq<Statement>, first: Measure -> int)
    requires PointsNowhere(p, placeholder) && Follows(p, rest)
    requires WellFormed(Lifecycle(db, p, placeholder, rest))
    requires FirstEvents(Lifecycle(db, p, placeholder, rest).db.events, p, first)
    ensures var w := Lifecycle(db, p, placeholder, rest);
            && !ImagesAccepted(w) && p in w.db.parents
            && (FinalRowsAccepted(w) <==> RepeatsEvents(w.db.events, p, w.db.parents[p], first))
  {
    var w := Lifecycle(db, p, placeholder, rest);
    var inserted := Apply(Work(db, []), InsertParent(p, placeholder));
    assert ([InsertParent(p, placeholder)] + rest)[1..] == rest;
    assert w == Run(inserted, rest);
    RunTouchesOnly(inserted, p, rest);
    assert w.queue[0] == ParentFiring(p, placeholder);
    NowhereIsRejected(w, p, placeholder);
    assert FinalRowsAccepted(w) <==> ParentTriggers(w.db.events, p, w.db.parents[p]);
    TriggersWantFirstEvents(w.db.events, p, w.db.parents[p], first);
  }

  /** The old triggers reject any transaction in which a row image ever pointed nowhere. */
  lemma NowhereIsRejected(w: Work, p: ParentId, image: ParentRow)
    requires ParentFiring(p, image) in w.queue && PointsNowhere(p, image)
    ensures !ImagesAccepted(w)
  {
    var i :| 0 <= i < |w.queue| && w.queue[i] == ParentFiring(p, image);
    var m :| Governs(p, m) && PointerOf(image, m).None?;
    assert !SnapshotTrigger(w.db.events, p, image, m);
    assert !ParentTriggers(w.db.events, w.queue[i].p, w.queue[i].image);
  }
}
