/**
 What every interleaving of a project move and its purge keeps: one holder per
 project id, shown exactly while committed, deletions only where and while they
 are allowed, and old runs fenced off.
 */
module ProjectMoveProofs {
  import opened Wrappers
  import PurgeDrain
  import opened ProjectMove

  // ── every step keeps the invariant ─────────────────────────────────────────

  /** A begun move holds its project alone, and takes no other project's holder away. */
  lemma BeginHolders(db: Db, m: MoveId, p: ProjectId, w: WorkspaceId, manifest: nat, now: int)
    requires Good(db) && MayBegin(db, m, p)
    ensures OneHolder(Begin(db, m, p, w, manifest, now)) && GoodProjects(Begin(db, m, p, w, manifest, now))
    ensures m !in db.everShown
  {
    hide GoodMove, GoodWorker;
    var next := Begin(db, m, p, w, manifest, now);
    forall q | q in next.projects && next.projects[q].hidden
      ensures HasHolder(next, q)
    {
      var o :| o in db.moves && db.moves[o].project == q && db.moves[o].status != Purged;
      assert next.moves[o] == db.moves[o];
    }
  }

  lemma BeginMoves(db: Db, m: MoveId, p: ProjectId, w: WorkspaceId, manifest: nat, now: int, o: MoveId)
    requires MayBegin(db, m, p) && (o in db.moves ==> GoodMove(db, o))
    requires m !in db.everShown
    requires o in Begin(db, m, p, w, manifest, now).moves
    ensures GoodMove(Begin(db, m, p, w, manifest, now), o)
  {
  }

  lemma BeginKeeps(db: Db, m: MoveId, p: ProjectId, w: WorkspaceId, manifest: nat, now: int)
    requires Good(db)
    ensures Good(Begin(db, m, p, w, manifest, now))
  {
    hide GoodMove, OneHolder, GoodProjects;
    if MayBegin(db, m, p) {
      var next := Begin(db, m, p, w, manifest, now);
      BeginHolders(db, m, p, w, manifest, now);
      forall o | o in next.moves
        ensures GoodMove(next, o)
      {
        BeginMoves(db, m, p, w, manifest, now, o);
      }
    }
  }

  /** A step that rewrites only move `m` and the rows of its project. */
  ghost predicate OwnStep(db: Db, next: Db, m: MoveId)
    requires m in db.moves
  {
    && m in next.moves && next.moves == db.moves[m := next.moves[m]]
    && next.moves[m].project == db.moves[m].project
    && (forall p :: p != db.moves[m].project ==>
          (p in next.projects <==> p in db.projects) && (p in db.projects ==> next.projects[p] == db.projects[p])
          && Contents(next, p) == Contents(db, p))
    && next.workers == db.workers && next.nextRun >= db.nextRun
    && (forall o :: o != m ==> (o in next.everShown <==> o in db.everShown))
  }

  lemma OwnStepMoves(db: Db, next: Db, m: MoveId)
    requires Good(db) && m in db.moves && db.moves[m].status != Purged && OwnStep(db, next, m) && GoodMove(next, m)
    ensures forall o :: o in next.moves ==> GoodMove(next, o)
  {
    forall o | o in next.moves
      ensures GoodMove(next, o)
    {
      if o != m {
        assert GoodMove(db, o);
        if db.moves[o].project == db.moves[m].project {
          assert db.moves[o].status == Purged;
        }
      }
    }
  }

  lemma OwnStepProjects(db: Db, next: Db, m: MoveId)
    requires GoodProjects(db) && m in db.moves && db.moves[m].status != Purged && OwnStep(db, next, m)
    requires db.moves[m].project in next.projects && next.projects[db.moves[m].project].hidden ==>
             next.moves[m].status != Purged
    requires Contents(next, db.moves[m].project) > 0 ==> db.moves[m].project in next.projects
    ensures GoodProjects(next)
  {
    var p := db.moves[m].project;
    forall q | q in next.projects && next.projects[q].hidden
      ensures HasHolder(next, q)
    {
      if q == p {
        assert next.moves[m].project == q;
      } else {
        assert HasHolder(db, q);
        var o :| o in db.moves && db.moves[o].project == q && db.moves[o].status != Purged;
        assert next.moves[o] == db.moves[o];
      }
    }
    forall q | q in next.contents && next.contents[q] > 0
      ensures q in next.projects
    {
      assert Contents(next, q) > 0;
      if q != p {
        assert Contents(db, q) > 0;
      }
    }
  }

  lemma OwnStepKeeps(db: Db, next: Db, m: MoveId)
    requires Good(db) && m in db.moves && db.moves[m].status != Purged && OwnStep(db, next, m) && GoodMove(next, m)
    requires db.moves[m].abortedAt.Some? ==> next.moves[m].abortedAt == db.moves[m].abortedAt
    requires db.moves[m].project in next.projects && next.projects[db.moves[m].project].hidden ==>
             next.moves[m].status != Purged
    requires Contents(next, db.moves[m].project) > 0 ==> db.moves[m].project in next.projects
    ensures Good(next)
  {
    OwnStepMoves(db, next, m);
    OwnStepProjects(db, next, m);
    hide GoodMove, GoodProjects;
    forall run | run in next.workers
      ensures GoodWorker(next, run)
    {
      assert GoodWorker(db, run);
    }
  }

  lemma ImportProjectKeeps(db: Db, m: MoveId, now: int)
    requires Good(db)
    ensures Good(ImportProject(db, m, now))
  {
    if ImportProject(db, m, now) != db {
      assert GoodMove(db, m);
      OwnStepKeeps(db, ImportProject(db, m, now), m);
    }
  }

  lemma ImportKeeps(db: Db, m: MoveId, inserted: nat, now: int)
    requires Good(db)
    ensures Good(ImportProject(db, m, now)) && Good(ImportRows(db, m, inserted, now))
  {
    ImportProjectKeeps(db, m, now);
    hide ImportProject;
    if ImportRows(db, m, inserted, now) != db {
      assert GoodMove(db, m);
      OwnStepKeeps(db, ImportRows(db, m, inserted, now), m);
    }
  }

  lemma CommitKeeps(db: Db, m: MoveId, manifest: nat, verified: bool, now: int)
    requires Good(db)
    ensures Good(Commit(db, m, manifest, verified, now))
  {
    if Commit(db, m, manifest, verified, now) != db {
      assert GoodMove(db, m);
      OwnStepKeeps(db, Commit(db, m, manifest, verified, now), m);
    }
  }

  lemma UncommitKeeps(db: Db, m: MoveId, changed: bool, confirmed: bool, now: int)
    requires Good(db)
    ensures Good(Uncommit(db, m, changed, confirmed, now))
  {
    if Uncommit(db, m, changed, confirmed, now) != db {
      assert GoodMove(db, m);
      OwnStepKeeps(db, Uncommit(db, m, changed, confirmed, now), m);
    }
  }

  /** A (re)start changes the move's purge alone: a run newly minted, in the phase it was in. */
  lemma Scheduled(db: Db, m: MoveId, byCron: bool, now: int)
    requires m in db.moves
    ensures var next := SchedulePurge(db, m, byCron, now);
            var purge := next.moves[m].purge;
            && next == db.(moves := db.moves[m := db.moves[m].(purge := purge)], nextRun := db.nextRun + 1)
            && purge.Some? && purge.value.run == db.nextRun
            && purge.value.phase == (if db.moves[m].purge.Some? then db.moves[m].purge.value.phase else RowsPhase)
  {
  }

  lemma MoveIsGood(db: Db, m: MoveId)
    requires Good(db) && m in db.moves
    ensures GoodMove(db, m) && 0 < db.nextRun
  {
  }

  /** An abort that changes anything leaves the move aborting under a new run, and nothing else changed. */
  lemma AbortIs(db: Db, m: MoveId, now: int)
    requires m in db.moves && Abort(db, m, now) != db
    ensures m in Abort(db, m, now).moves
    ensures var was, next := db.moves[m], Abort(db, m, now).moves[m];
            && Abort(db, m, now) == db.(moves := db.moves[m := next], nextRun := db.nextRun + 1)
            && (Open(was.status) || was.status == Aborting)
            && next == was.(status := Aborting, updatedAt := next.updatedAt, abortedAt := next.abortedAt,
                            purge := next.purge)
            && next.abortedAt == (if was.status == Aborting then was.abortedAt else Some(now))
            && next.purge.Some? && next.purge.value.run == db.nextRun
            && next.purge.value.phase == (if was.purge.Some? then was.purge.value.phase else RowsPhase)
  {
    hide SchedulePurge, PurgeStalled;
    var cancelled := db.moves[m].(status := Aborting, updatedAt := now, abortedAt := Some(now));
    Scheduled(db, m, false, now);
    Scheduled(db.(moves := db.moves[m := cancelled]), m, false, now);
  }

  lemma AbortFits(db: Db, m: MoveId, now: int)
    requires Good(db) && m in db.moves && Abort(db, m, now) != db
    ensures db.moves[m].status != Purged && OwnStep(db, Abort(db, m, now), m) && GoodMove(Abort(db, m, now), m)
    ensures db.moves[m].abortedAt.Some? ==> Abort(db, m, now).moves[m].abortedAt == db.moves[m].abortedAt
    ensures Abort(db, m, now).moves[m].status != Purged
    ensures Abort(db, m, now).contents == db.contents && Abort(db, m, now).projects == db.projects
  {
    hide Good, Abort;
    MoveIsGood(db, m);
    AbortIs(db, m, now);
  }

  lemma AbortKeeps(db: Db, m: MoveId, now: int)
    requires Good(db)
    ensures Good(Abort(db, m, now))
  {
    if m in db.moves && Abort(db, m, now) != db {
      AbortFits(db, m, now);
      hide Abort;
      OwnStepKeeps(db, Abort(db, m, now), m);
    }
  }

  lemma RescueFits(db: Db, m: MoveId, now: int)
    requires Good(db) && m in db.moves && Rescue(db, m, now) != db
    ensures db.moves[m].status != Purged && OwnStep(db, Rescue(db, m, now), m) && GoodMove(Rescue(db, m, now), m)
    ensures db.moves[m].abortedAt.Some? ==> Rescue(db, m, now).moves[m].abortedAt == db.moves[m].abortedAt
    ensures Rescue(db, m, now).moves[m].status != Purged
    ensures Rescue(db, m, now).contents == db.contents && Rescue(db, m, now).projects == db.projects
  {
    assert GoodMove(db, m);
    var abortedAt := if db.moves[m].abortedAt.Some? then db.moves[m].abortedAt else Some(now);
    Scheduled(db.(moves := db.moves[m := db.moves[m].(status := Aborting, updatedAt := now, abortedAt := abortedAt)]),
              m, false, now);
    hide Good, SchedulePurge;
  }

  lemma RescueKeeps(db: Db, m: MoveId, now: int)
    requires Good(db)
    ensures Good(Rescue(db, m, now))
  {
    if m in db.moves && Rescue(db, m, now) != db {
      RescueFits(db, m, now);
      hide Rescue;
      OwnStepKeeps(db, Rescue(db, m, now), m);
    }
  }

  /** While a move is being purged nobody else can hold its project id: the purge never meets a taken id. */
  lemma NeverTaken(db: Db, m: MoveId)
    requires Good(db) && m in db.moves && db.moves[m].status == Aborting
    ensures HiddenProject(db, db.moves[m]) != Taken
  {
    assert GoodMove(db, m);
  }

  lemma StepLinkKeeps(db: Db, m: MoveId, run: RunId, link: RowsLink, auditDeleted: nat, now: int)
    requires Good(db) && (m in db.moves ==> LinkFits(Contents(db, db.moves[m].project), link))
    ensures Good(Step(db, m, run, link, auditDeleted, now))
  {
    if CurrentRun(db, m, run) {
      StepLinkFits(db, m, run, link, auditDeleted, now);
      StepLinkFrame(db, m, run, link, auditDeleted, now);
      OwnStepKeeps(db, Step(db, m, run, link, auditDeleted, now), m);
    }
  }

  lemma StepLinkFits(db: Db, m: MoveId, run: RunId, link: RowsLink, auditDeleted: nat, now: int)
    requires Good(db) && CurrentRun(db, m, run) && LinkFits(Contents(db, db.moves[m].project), link)
    ensures var next := Step(db, m, run, link, auditDeleted, now);
            && GoodMove(next, m)
            && (Contents(next, db.moves[m].project) > 0 ==> db.moves[m].project in next.projects)
  {
    assert GoodMove(db, m);
    NeverTaken(db, m);
    assert Contents(db, db.moves[m].project) > 0 ==> db.moves[m].project in db.projects;
  }

  /** Saving a purge writes the one move's row. */
  lemma SavesOne(db: Db, m: MoveId)
    requires m in db.moves
    ensures forall tables: Db, purge: Purge :: tables.moves == db.moves ==>
              Save(tables, m, purge).moves == db.moves[m := db.moves[m].(purge := Some(purge))]
  {
  }

  /** A link writes no move's row but its own, and there nothing but the purge. */
  lemma StepLinkMoves(db: Db, m: MoveId, run: RunId, link: RowsLink, auditDeleted: nat, now: int)
    requires CurrentRun(db, m, run)
    ensures var next := Step(db, m, run, link, auditDeleted, now);
            && m in next.moves && next.moves == db.moves[m := next.moves[m]]
            && next.moves[m] == db.moves[m].(purge := next.moves[m].purge)
  {
    SavesOne(db, m);
    hide Save;
  }

  /** A link deletes rows of its own move's project, and that project's row, and nothing else. */
  lemma StepLinkRows(db: Db, m: MoveId, run: RunId, link: RowsLink, auditDeleted: nat, now: int, p: ProjectId)
    requires CurrentRun(db, m, run) && p != db.moves[m].project
    ensures var next := Step(db, m, run, link, auditDeleted, now);
            && (p in next.projects <==> p in db.projects) && (p in db.projects ==> next.projects[p] == db.projects[p])
            && Contents(next, p) == Contents(db, p)
  {
  }

  /** A link writes its own move's row and its own project's rows, whatever the tables hold. */
  lemma StepLinkFrame(db: Db, m: MoveId, run: RunId, link: RowsLink, auditDeleted: nat, now: int)
    requires CurrentRun(db, m, run)
    ensures var next := Step(db, m, run, link, auditDeleted, now);
            && OwnStep(db, next, m)
            && next.moves[m] == db.moves[m].(purge := next.moves[m].purge)
            && next.nextRun == db.nextRun && next.everShown == db.everShown && next.objects == db.objects
  {
    StepLinkMoves(db, m, run, link, auditDeleted, now);
    forall p | p != db.moves[m].project
      ensures var next := Step(db, m, run, link, auditDeleted, now);
              && (p in next.projects <==> p in db.projects) && (p in db.projects ==> next.projects[p] == db.projects[p])
              && Contents(next, p) == Contents(db, p)
    {
      StepLinkRows(db, m, run, link, auditDeleted, now, p);
    }
  }

  lemma SaveKeeps(db: Db, m: MoveId, purge: Purge)
    requires Good(db) && m in db.moves && db.moves[m].status == Aborting
    requires purge.run == db.moves[m].purge.value.run && purge.phase == db.moves[m].purge.value.phase
    ensures Good(Save(db, m, purge))
  {
    assert GoodMove(db, m);
    OwnStepKeeps(db, Save(db, m, purge), m);
  }

  lemma ErrorKeeps(db: Db, m: MoveId, run: RunId, error: PurgeError, now: int)
    requires Good(db)
    ensures Good(RecordError(db, m, run, error, now))
  {
    if CurrentRun(db, m, run) {
      SaveKeeps(db, m, db.moves[m].purge.value.(error := Some(error), updatedAt := now));
    }
  }

  lemma BatchKeeps(db: Db, m: MoveId, run: RunId, deleted: nat, now: int)
    requires Good(db)
    ensures Good(ClaimObjectBatch(db, m, run, deleted, now))
  {
    if MayDeleteObjects(db, m, run) {
      var saved := ClaimObjectBatch(db, m, run, deleted, now).moves[m].purge.value;
      assert ClaimObjectBatch(db, m, run, deleted, now) == Save(db, m, saved);
      SaveKeeps(db, m, saved);
    }
  }

  lemma FinishKeeps(db: Db, m: MoveId, run: RunId, deleted: nat, noStorage: bool, now: int)
    requires Good(db)
    ensures Good(Finish(db, m, run, deleted, noStorage, now))
  {
    if MayDeleteObjects(db, m, run) {
      assert GoodMove(db, m);
      OwnStepKeeps(db, Finish(db, m, run, deleted, noStorage, now), m);
    }
  }

  lemma ResumeKeeps(db: Db, m: MoveId, now: int)
    requires Good(db)
    ensures Good(Resume(db, m, now))
  {
    if Resume(db, m, now) != db {
      assert GoodMove(db, m);
      if db.moves[m].purge.Some? && db.moves[m].purge.value.restarts >= MAX_RESTARTS {
        SaveKeeps(db, m, db.moves[m].purge.value.(error := Some(Stopped("stalled")), updatedAt := now));
      } else {
        OwnStepKeeps(db, Resume(db, m, now), m);
      }
    }
  }

  /** A step of a worker that leaves the tables to one of the links. */
  lemma PutKeeps(db: Db, run: RunId, w: Worker)
    requires Good(db) && run in db.workers && GoodWorker(Put(db, run, w), run)
    ensures Good(Put(db, run, w))
  {
    var next := Put(db, run, w);
    forall o | o in next.moves
      ensures GoodMove(next, o)
    {
      assert GoodMove(db, o);
    }
    forall r | r in next.workers
      ensures GoodWorker(next, r)
    {
      if r != run {
        assert GoodWorker(db, r);
      }
    }
    forall q | q in next.projects && next.projects[q].hidden
      ensures HasHolder(next, q)
    {
      assert HasHolder(db, q);
      var o :| o in db.moves && db.moves[o].project == q && db.moves[o].status != Purged;
      assert next.moves[o] == db.moves[o];
    }
  }

  lemma TakenSize(keys: seq<Key>, n: nat)
    requires n <= |keys|
    ensures |AsSet(keys[..n])| <= n
  {
    if n > 0 {
      TakenSize(keys, n - 1);
      assert keys[..n] == keys[..n - 1] + [keys[n - 1]];
      assert AsSet(keys[..n]) == AsSet(keys[..n - 1]) + {keys[n - 1]};
    }
  }

  /** A claim: the batch before it is counted, and at most `DELETE_BATCH` keys are taken. */
  lemma BatchAside(db: Db, m: MoveId, run: RunId, deleted: nat, now: int)
    ensures var next := ClaimObjectBatch(db, m, run, deleted, now);
            && next.workers == db.workers && next.nextRun == db.nextRun
            && (forall o :: o in db.moves ==> o in next.moves && next.moves[o].abortedAt == db.moves[o].abortedAt)
  {
  }

  /** A claim takes at most a batch, and only for a worker that may list. */
  lemma ClaimTakesBatch(db: Db, run: RunId, now: int)
    requires Good(db) && run in db.workers && db.workers[run].pc == Claiming && db.workers[run].prefixes != []
    ensures var w := db.workers[run];
            var next := Claim(db, run, now);
            && run in next.workers
            && next == Put(ClaimObjectBatch(db, w.move, run, w.deleted, now), run, next.workers[run])
            && GoodWorker(Put(db, run, next.workers[run]), run)
  {
    var w := db.workers[run];
    assert GoodWorker(db, run);
    TakenSize(w.listed, if |w.listed| < DELETE_BATCH then |w.listed| else DELETE_BATCH);
    hide Good, ClaimObjectBatch, ClaimAnswer, AsSet;
  }

  lemma ClaimKeeps(db: Db, run: RunId, now: int)
    requires Good(db) && run in db.workers
    ensures Good(Claim(db, run, now))
  {
    var w := db.workers[run];
    if w.pc == Claiming && w.prefixes != [] {
      BatchKeeps(db, w.move, run, w.deleted, now);
      BatchAside(db, w.move, run, w.deleted, now);
      ClaimTakesBatch(db, run, now);
      hide Claim, Good, ClaimObjectBatch;
      LinkThenPut(db, ClaimObjectBatch(db, w.move, run, w.deleted, now), run, Claim(db, run, now).workers[run]);
    }
  }

  /** A link of the tables followed by the worker's own step. */
  lemma LinkThenPut(db: Db, linked: Db, run: RunId, w: Worker)
    requires Good(db)
    requires Good(linked)
    requires run in db.workers
    requires linked.workers == db.workers
    requires linked.nextRun == db.nextRun
    requires forall m :: m in db.moves && db.moves[m].abortedAt.Some? ==>
             m in linked.moves && linked.moves[m].abortedAt == db.moves[m].abortedAt
    requires GoodWorker(Put(db, run, w), run)
    ensures Good(Put(linked, run, w))
  {
    assert GoodWorker(Put(linked, run, w), run);
    PutKeeps(linked, run, w);
  }

  lemma DeleteKeeps(db: Db, run: RunId, key: Key)
    requires Good(db) && run in db.workers
    ensures Good(Delete(db, run, key))
  {
    assert GoodWorker(db, run);
    if key in db.workers[run].batch {
      var gone := db.(objects := db.objects - {key});
      ObjectsAside(db, gone);
      PutKeeps(gone, run, Delete(db, run, key).workers[run]);
    }
  }

  lemma WorkerStepKeeps(db: Db, e: Event)
    requires Good(db) && Legal(db, e) && (e.EPlan? || e.EList? || e.EBatchDone? || e.ECrash?)
    ensures Good(Next(db, e))
  {
    assert GoodWorker(db, e.run);
    var w := Next(db, e).workers[e.run];
    assert Next(db, e) == db || Next(db, e) == Put(db, e.run, w);
    if Next(db, e) != db {
      PutKeeps(db, e.run, w);
    }
  }

  lemma PauseKeeps(db: Db, run: RunId, now: int)
    requires Good(db) && run in db.workers
    ensures Good(Pause(db, run, now))
  {
    var w := db.workers[run];
    assert GoodWorker(db, run);
    BatchKeeps(db, w.move, run, w.deleted, now);
    LinkThenPut(db, ClaimObjectBatch(db, w.move, run, w.deleted, now), run, w.(deleted := 0));
  }

  lemma FinishObjectsKeeps(db: Db, run: RunId, now: int)
    requires Good(db) && run in db.workers
    ensures Good(FinishObjects(db, run, now))
  {
    var w := db.workers[run];
    assert GoodWorker(db, run);
    FinishKeeps(db, w.move, run, w.deleted, false, now);
    LinkThenPut(db, Finish(db, w.move, run, w.deleted, false, now), run, w.(pc := Ended, deleted := 0));
  }

  lemma FinishNoStorageKeeps(db: Db, run: RunId, now: int)
    requires Good(db) && run in db.workers
    ensures Good(FinishNoStorage(db, run, now))
  {
    var w := db.workers[run];
    assert GoodWorker(db, run);
    FinishKeeps(db, w.move, run, 0, true, now);
    LinkThenPut(db, Finish(db, w.move, run, 0, true, now), run, w.(pc := Ended, deleted := 0));
  }

  lemma FailKeeps(db: Db, run: RunId, error: PurgeError, now: int)
    requires Good(db) && run in db.workers
    ensures Good(Fail(db, run, error, now))
  {
    var w := db.workers[run];
    assert GoodWorker(db, run);
    ErrorKeeps(db, w.move, run, error, now);
    LinkThenPut(db, RecordError(db, w.move, run, error, now), run, w.(pc := Ended, deleted := 0));
  }

  /** The invariant says nothing of the objects or the audit log. */
  lemma ObjectsAside(db: Db, next: Db)
    requires Good(db) && next == db.(objects := next.objects, auditPages := next.auditPages)
    ensures Good(next)
  {
    forall o | o in next.moves
      ensures GoodMove(next, o)
    {
      assert GoodMove(db, o);
    }
    forall r | r in next.workers
      ensures GoodWorker(next, r)
    {
      assert GoodWorker(db, r);
    }
    forall q | q in next.projects && next.projects[q].hidden
      ensures HasHolder(next, q)
    {
      assert HasHolder(db, q);
    }
  }

  /** A step that leaves every move, every hidden project and every worker as it was. */
  lemma AsideKeeps(db: Db, next: Db)
    requires Good(db)
    requires next.moves == db.moves
    requires next.workers == db.workers
    requires next.nextRun == db.nextRun
    requires next.everShown == db.everShown
    requires forall p :: p in db.projects ==> p in next.projects && next.projects[p].hidden == db.projects[p].hidden
    requires forall p :: p in next.projects && next.projects[p].hidden ==>
             p in db.projects && next.projects[p] == db.projects[p]
    requires forall p :: p in next.projects && p !in db.projects ==> !HasHolder(db, p)
    requires forall p :: Contents(next, p) == Contents(db, p) || Shown(db, p)
    ensures Good(next)
  {
    forall o | o in next.moves
      ensures GoodMove(next, o)
    {
      assert GoodMove(db, o);
    }
    forall r | r in next.workers
      ensures GoodWorker(next, r)
    {
      assert GoodWorker(db, r);
    }
    forall q | q in next.projects && next.projects[q].hidden
      ensures HasHolder(next, q)
    {
      assert HasHolder(db, q);
    }
    forall p | p in next.contents && next.contents[p] > 0
      ensures p in next.projects
    {
      assert Contents(next, p) > 0;
    }
  }

  /** What others do to projects that are not being moved, or that are shown. */
  lemma CreateKeeps(db: Db, p: ProjectId, w: WorkspaceId)
    requires Good(db)
    ensures Good(Next(db, ECreateProject(p, w)))
  {
    hide Good;
    if p !in db.projects && !exists o :: o in db.moves && db.moves[o].project == p {
      AsideKeeps(db, db.(projects := db.projects[p := Project(w, false, false)]));
    }
  }

  lemma SharedWriteKeeps(db: Db, p: ProjectId, written: nat)
    requires Good(db)
    ensures Good(Next(db, ESharedWrite(p, written)))
  {
    AsideKeeps(db, Next(db, ESharedWrite(p, written)));
  }

  lemma DeleteProjectKeeps(db: Db, p: ProjectId)
    requires Good(db)
    ensures Good(Next(db, EDeleteProject(p)))
  {
    AsideKeeps(db, Next(db, EDeleteProject(p)));
  }

  lemma MoveWorkspaceKeeps(db: Db, p: ProjectId, w: WorkspaceId)
    requires Good(db)
    ensures Good(Next(db, EMoveWorkspace(p, w)))
  {
    AsideKeeps(db, Next(db, EMoveWorkspace(p, w)));
  }

  lemma SpawnKeeps(db: Db, m: MoveId, run: RunId)
    requires Good(db) && run !in db.workers && run < db.nextRun
    ensures Good(Next(db, ESpawn(m, run)))
  {
    var next := Next(db, ESpawn(m, run));
    forall o | o in next.moves
      ensures GoodMove(next, o)
    {
      assert GoodMove(db, o);
    }
    forall r | r in next.workers
      ensures GoodWorker(next, r)
    {
      if r != run {
        assert GoodWorker(db, r);
      }
    }
    forall q | q in next.projects && next.projects[q].hidden
      ensures HasHolder(next, q)
    {
      assert HasHolder(db, q);
    }
  }

  lemma StepKeeps(db: Db, e: Event)
    requires Good(db) && Legal(db, e)
    ensures Good(Next(db, e))
  {
    match e
    case EBegin(m, p, w, manifest, now) => BeginKeeps(db, m, p, w, manifest, now);
    case EImportProject(m, now) => ImportKeeps(db, m, 0, now);
    case EImportRows(m, inserted, now) => ImportKeeps(db, m, inserted, now);
    case ECommit(m, manifest, verified, now) => CommitKeeps(db, m, manifest, verified, now);
    case EUncommit(m, changed, confirmed, now) => UncommitKeeps(db, m, changed, confirmed, now);
    case EAbort(m, now) => AbortKeeps(db, m, now);
    case ERescue(m, now) => RescueKeeps(db, m, now);
    case EAuditGrows(_) => ObjectsAside(db, Next(db, e));
    case EUpload(_) => ObjectsAside(db, Next(db, e));
    case EStep(m, run, link, auditDeleted, now) => StepLinkKeeps(db, m, run, link, auditDeleted, now);
    case EResume(m, now) => ResumeKeeps(db, m, now);
    case ESpawn(m, run) => SpawnKeeps(db, m, run);
    case EPause(run, now) => PauseKeeps(db, run, now);
    case EFinish(run, now) => FinishObjectsKeeps(db, run, now);
    case EFinishNoStorage(run, now) => FinishNoStorageKeeps(db, run, now);
    case EFail(run, error, now) => FailKeeps(db, run, error, now);
    case ECreateProject(p, w) => CreateKeeps(db, p, w);
    case ESharedWrite(p, written) => SharedWriteKeeps(db, p, written);
    case EDeleteProject(p) => DeleteProjectKeeps(db, p);
    case EMoveWorkspace(p, w) => MoveWorkspaceKeeps(db, p, w);
    case EClaim(run, now) => ClaimKeeps(db, run, now);
    case EDelete(run, key) => DeleteKeeps(db, run, key);
    case _ => WorkerStepKeeps(db, e);
  }

  lemma {:induction false} RunKeeps(states: seq<Db>, events: seq<Event>, k: nat)
    requires Run(states, events) && k <= |events|
    ensures Good(states[k])
    decreases k
  {
    if k > 0 {
      RunKeeps(states, events, k - 1);
      assert Legal(states[k - 1], events[k - 1]) && states[k] == Next(states[k - 1], events[k - 1]);
      StepKeeps(states[k - 1], events[k - 1]);
    }
  }
}
