/**
 What each event of a project move leaves alone, and how a move's row may change
 by one event: what the theorems about runs reason with.
 */
module ProjectMoveFrames {
  import opened Wrappers
  import PurgeDrain
  import opened ProjectMove
  import opened ProjectMoveProofs

  // ── what an event leaves alone ─────────────────────────────────────────────

  predicate StepOf(e: Event, run: RunId) {
    match e
    case ESpawn(_, r) => r == run
    case EPlan(r, _) => r == run
    case EList(r, _) => r == run
    case EClaim(r, _) => r == run
    case EDelete(r, _) => r == run
    case EBatchDone(r) => r == run
    case EPause(r, _) => r == run
    case EFinish(r, _) => r == run
    case EFinishNoStorage(r, _) => r == run
    case EFail(r, _, _) => r == run
    case ECrash(r) => r == run
    case _ => false
  }

  /** A step of the move itself, or of a project somebody works in. */
  predicate TableEvent(e: Event) {
    e.EBegin? || e.EImportProject? || e.EImportRows? || e.ECommit? || e.EUncommit?
    || e.ECreateProject? || e.ESharedWrite? || e.EDeleteProject? || e.EMoveWorkspace?
  }

  lemma TableFrame(db: Db, e: Event)
    requires TableEvent(e)
    ensures var next := Next(db, e);
            next.workers == db.workers && next.objects == db.objects && next.auditPages == db.auditPages
  {
  }

  lemma RestartFrame(db: Db, e: Event)
    requires e.EAbort? || e.ERescue? || e.EResume?
    ensures var next := Next(db, e);
            && next.workers == db.workers && next.objects == db.objects && next.auditPages == db.auditPages
            && next.projects == db.projects && next.contents == db.contents
  {
  }

  lemma LinkFrame(db: Db, e: Event)
    requires e.EStep?
    ensures var next := Next(db, e);
            next.workers == db.workers && next.objects == db.objects && next.auditPages == db.auditPages
  {
  }

  // ── steps of a worker that commit ──────────────────────────────────────────

  predicate Commits(e: Event) {
    e.EClaim? || e.EPause? || e.EFinish? || e.EFinishNoStorage? || e.EFail?
  }

  /** What such a step commits to the move's row, before the worker goes on. */
  function CommitOf(db: Db, e: Event, w: Worker): Db
    requires Commits(e)
  {
    match e
    case EClaim(run, now) => ClaimObjectBatch(db, w.move, run, w.deleted, now)
    case EPause(run, now) => ClaimObjectBatch(db, w.move, run, w.deleted, now)
    case EFinish(run, now) => Finish(db, w.move, run, w.deleted, false, now)
    case EFinishNoStorage(run, now) => Finish(db, w.move, run, 0, true, now)
    case EFail(run, error, now) => RecordError(db, w.move, run, error, now)
  }

  /** Such a step does nothing, or commits and moves its own worker on. */
  lemma CommitThenPut(db: Db, e: Event)
    requires Commits(e)
    ensures Next(db, e) == db || (e.run in db.workers && e.run in Next(db, e).workers &&
              Next(db, e) == Put(CommitOf(db, e, db.workers[e.run]), e.run, Next(db, e).workers[e.run]))
  {
    hide ClaimObjectBatch, Finish, RecordError, ClaimAnswer, AsSet;
  }

  lemma CommitsMoves(db: Db, e: Event, w: Worker)
    requires Commits(e)
    ensures CommitOf(db, e, w) == db.(moves := CommitOf(db, e, w).moves)
  {
  }

  lemma CommittingFrame(db: Db, e: Event, run: RunId)
    requires StepOf(e, run) && Commits(e)
    ensures var next := Next(db, e);
            && next.auditPages == db.auditPages
            && next.projects == db.projects
            && next.contents == db.contents
            && next.objects == db.objects
            && (forall r :: r != run ==>
                 (r in next.workers <==> r in db.workers) && (r in db.workers ==> next.workers[r] == db.workers[r]))
  {
    CommitThenPut(db, e);
    if run in db.workers {
      CommitsMoves(db, e, db.workers[run]);
    }
    hide Next, CommitOf;
  }

  /** Only the worker of `run` changed. */
  ghost predicate OnlyWorker(db: Db, next: Db, run: RunId) {
    && next == db.(workers := next.workers)
    && (forall r :: r != run ==> (r in next.workers <==> r in db.workers))
    && (forall r :: r != run && r in db.workers ==> next.workers[r] == db.workers[r])
  }

  lemma ListingFrame(db: Db, run: RunId, now: int, keys: seq<Key>)
    requires run in db.workers
    ensures OnlyWorker(db, Plan(db, run, now), run)
    ensures OnlyWorker(db, List(db, run, keys), run)
    ensures OnlyWorker(db, BatchDone(db, run), run)
  {
    hide AllowedPrefixes, MayDeleteObjects;
  }

  lemma LocalFrame(db: Db, e: Event, run: RunId)
    requires StepOf(e, run) && (e.ESpawn? || e.EPlan? || e.EList? || e.EDelete? || e.EBatchDone? || e.ECrash?)
    ensures var next := Next(db, e);
            && next.auditPages == db.auditPages && next.projects == db.projects && next.contents == db.contents
            && (forall r :: r != run ==>
                 (r in next.workers <==> r in db.workers) && (r in db.workers ==> next.workers[r] == db.workers[r]))
            && next.objects <= db.objects
            && (forall key :: key in db.objects && key !in next.objects ==>
                  e.EDelete? && e.key == key && run in db.workers && key in db.workers[run].batch)
  {
    if run in db.workers {
      ListingFrame(db, run, if e.EPlan? then e.now else 0, if e.EList? then e.keys else []);
    }
    hide Plan, List, BatchDone;
  }

  lemma OutsideFrame(db: Db, e: Event)
    requires e.EAuditGrows? || e.EUpload?
    ensures var next := Next(db, e);
            && next.workers == db.workers && next.projects == db.projects && next.contents == db.contents
            && next.objects == db.objects + (if e.EUpload? then {e.key} else {})
            && (e.EUpload? ==> next.auditPages == db.auditPages)
  {
  }

  /**
   A worker changes only by its own steps; a key enters the store only by an
   upload and leaves it only by the DELETE of a claimed key; rows and projects
   change only by the table's events and the purge's links.
   */
  lemma Frame(db: Db, e: Event)
    ensures !e.EAuditGrows? ==> Next(db, e).auditPages == db.auditPages
    ensures forall run :: !StepOf(e, run) ==>
              (run in Next(db, e).workers <==> run in db.workers)
                && (run in db.workers ==> Next(db, e).workers[run] == db.workers[run])
    ensures forall key :: key in Next(db, e).objects && key !in db.objects ==> e == EUpload(key)
    ensures forall key :: key in db.objects && key !in Next(db, e).objects ==>
              e.EDelete? && e.key == key && e.run in db.workers && key in db.workers[e.run].batch
    ensures !TableEvent(e) && !e.EStep? ==> Next(db, e).projects == db.projects && Next(db, e).contents == db.contents
  {
    hide Next;
    if TableEvent(e) {
      TableFrame(db, e);
    } else if e.EAbort? || e.ERescue? || e.EResume? {
      RestartFrame(db, e);
    } else if e.EStep? {
      LinkFrame(db, e);
    } else if e.EAuditGrows? || e.EUpload? {
      OutsideFrame(db, e);
    } else if e.EClaim? || e.EPause? || e.EFinish? || e.EFinishNoStorage? || e.EFail? {
      CommittingFrame(db, e, e.run);
    } else {
      LocalFrame(db, e, e.run);
    }
  }

  // ── how a move's row may change ────────────────────────────────────────────

  /** One step of one move: nothing reopens a cancelled move, runs only grow, only `finish` purges. */
  ghost predicate Evolves(a: Move, b: Move) {
    && b.project == a.project && b.workspace == a.workspace && b.manifest == a.manifest
    && (a.status == Purged ==> b == a)
    && (a.status == Aborting ==> b.status in {Aborting, Purged} && b.abortedAt == a.abortedAt)
    && (b.status == Purged && a.status != Purged ==>
          a.status == Aborting && a.purge.Some? && a.purge.value.phase == ObjectsPhase)
    && (a.purge.Some? ==> b.purge.Some? && b.purge.value.run >= a.purge.value.run)
    && (b.uncommittedAt.Some? ==> a.uncommittedAt.Some? || a.status == Committed)
  }

  lemma OpenMovesEvolve(db: Db, e: Event, m: MoveId)
    requires Good(db) && m in db.moves
    requires e.EBegin? || e.EImportProject? || e.EImportRows? || e.ECommit? || e.EUncommit?
    ensures m in Next(db, e).moves && Evolves(db.moves[m], Next(db, e).moves[m])
    ensures m in db.everShown ==> m in Next(db, e).everShown
  {
    assert GoodMove(db, m);
    hide Good, GoodMove, MayBegin, TakesRows;
  }

  lemma AbortKnows(db: Db, a: MoveId, now: int)
    requires Abort(db, a, now) != db
    ensures a in db.moves
  {
  }

  lemma AbortEvolves(db: Db, a: MoveId, now: int, m: MoveId)
    requires Good(db) && m in db.moves
    ensures m in Abort(db, a, now).moves && Evolves(db.moves[m], Abort(db, a, now).moves[m])
    ensures Abort(db, a, now).everShown == db.everShown
  {
    hide Good, Abort;
    MoveIsGood(db, m);
    if Abort(db, a, now) != db {
      assert a in db.moves by { AbortKnows(db, a, now); }
      AbortIs(db, a, now);
    }
  }

  lemma RescueEvolves(db: Db, a: MoveId, now: int, m: MoveId)
    requires Good(db) && m in db.moves
    ensures m in Rescue(db, a, now).moves && Evolves(db.moves[m], Rescue(db, a, now).moves[m])
    ensures Rescue(db, a, now).everShown == db.everShown
  {
    assert GoodMove(db, m);
    if a in db.moves {
      var abortedAt := if db.moves[a].abortedAt.Some? then db.moves[a].abortedAt else Some(now);
      Scheduled(db.(moves := db.moves[a := db.moves[a].(status := Aborting, updatedAt := now,
                abortedAt := abortedAt)]), a, false, now);
    }
    hide Good, SchedulePurge;
  }

  lemma ResumeEvolves(db: Db, a: MoveId, now: int, m: MoveId)
    requires Good(db) && m in db.moves
    ensures m in Resume(db, a, now).moves && Evolves(db.moves[m], Resume(db, a, now).moves[m])
    ensures Resume(db, a, now).everShown == db.everShown
  {
    assert GoodMove(db, m);
    if a in db.moves {
      Scheduled(db, a, true, now);
    }
    hide Good, SchedulePurge, PurgeStalled;
  }

  lemma RestartsEvolve(db: Db, e: Event, m: MoveId)
    requires Good(db) && m in db.moves && (e.EAbort? || e.ERescue? || e.EResume?)
    ensures m in Next(db, e).moves
    ensures Evolves(db.moves[m], Next(db, e).moves[m])
    ensures Next(db, e).everShown == db.everShown
  {
    match e
    case EAbort(a, now) => AbortEvolves(db, a, now, m);
    case ERescue(a, now) => RescueEvolves(db, a, now, m);
    case EResume(a, now) => ResumeEvolves(db, a, now, m);
  }

  lemma LinkEvolves(db: Db, e: Event, m: MoveId)
    requires Good(db) && m in db.moves && e.EStep?
    ensures m in Next(db, e).moves && Evolves(db.moves[m], Next(db, e).moves[m])
    ensures Next(db, e).everShown == db.everShown
  {
    if CurrentRun(db, e.move, e.run) {
      StepLinkMoves(db, e.move, e.run, e.link, e.auditDeleted, e.now);
      StepLinkKeepsRun(db, e.move, e.run, e.link, e.auditDeleted, e.now);
    }
  }

  lemma StepLinkKeepsRun(db: Db, m: MoveId, run: RunId, link: RowsLink, auditDeleted: nat, now: int)
    requires CurrentRun(db, m, run)
    ensures var next := Step(db, m, run, link, auditDeleted, now);
            CurrentRun(next, m, run) && next.everShown == db.everShown
  {
  }

  lemma BatchEvolves(db: Db, a: MoveId, run: RunId, deleted: nat, now: int, m: MoveId)
    requires m in db.moves
    ensures var next := ClaimObjectBatch(db, a, run, deleted, now);
            m in next.moves && Evolves(db.moves[m], next.moves[m]) && next.everShown == db.everShown
  {
  }

  lemma ErrorEvolves(db: Db, a: MoveId, run: RunId, error: PurgeError, now: int, m: MoveId)
    requires m in db.moves
    ensures var next := RecordError(db, a, run, error, now);
            m in next.moves && Evolves(db.moves[m], next.moves[m]) && next.everShown == db.everShown
  {
  }

  lemma FinishEvolves(db: Db, a: MoveId, run: RunId, deleted: nat, noStorage: bool, now: int, m: MoveId)
    requires m in db.moves
    ensures var next := Finish(db, a, run, deleted, noStorage, now);
            m in next.moves && Evolves(db.moves[m], next.moves[m]) && next.everShown == db.everShown
  {
  }

  lemma CommitEvolves(db: Db, e: Event, w: Worker, m: MoveId)
    requires m in db.moves && Commits(e)
    ensures var next := CommitOf(db, e, w);
            m in next.moves && Evolves(db.moves[m], next.moves[m]) && next.everShown == db.everShown
  {
    match e
    case EClaim(run, now) => BatchEvolves(db, w.move, run, w.deleted, now, m);
    case EPause(run, now) => BatchEvolves(db, w.move, run, w.deleted, now, m);
    case EFinish(run, now) => FinishEvolves(db, w.move, run, w.deleted, false, now, m);
    case EFinishNoStorage(run, now) => FinishEvolves(db, w.move, run, 0, true, now, m);
    case EFail(run, error, now) => ErrorEvolves(db, w.move, run, error, now, m);
  }

  lemma WorkersEvolve(db: Db, e: Event, m: MoveId)
    requires m in db.moves && Commits(e)
    ensures m in Next(db, e).moves && Evolves(db.moves[m], Next(db, e).moves[m])
    ensures Next(db, e).everShown == db.everShown
  {
    CommitThenPut(db, e);
    if e.run in db.workers {
      CommitEvolves(db, e, db.workers[e.run], m);
    }
    hide Next, CommitOf;
  }

  lemma AllElseEvolves(db: Db, e: Event)
    requires e.ECreateProject? || e.ESharedWrite? || e.EDeleteProject? || e.EMoveWorkspace? || e.EAuditGrows?
             || e.EUpload?
             || e.ESpawn? || e.EPlan? || e.EList? || e.EDelete? || e.EBatchDone? || e.ECrash?
    ensures Next(db, e).moves == db.moves && Next(db, e).everShown == db.everShown
  {
  }

  lemma AlwaysEvolves(db: Db, e: Event, m: MoveId)
    requires Good(db) && m in db.moves
    ensures m in Next(db, e).moves && Evolves(db.moves[m], Next(db, e).moves[m])
    ensures m in db.everShown ==> m in Next(db, e).everShown
  {
    hide Next;
    if e.EBegin? || e.EImportProject? || e.EImportRows? || e.ECommit? || e.EUncommit? {
      OpenMovesEvolve(db, e, m);
    } else if e.EAbort? || e.ERescue? || e.EResume? {
      RestartsEvolve(db, e, m);
    } else if e.EStep? {
      LinkEvolves(db, e, m);
    } else if e.EClaim? || e.EPause? || e.EFinish? || e.EFinishNoStorage? || e.EFail? {
      WorkersEvolve(db, e, m);
    } else {
      AllElseEvolves(db, e);
    }
  }

  lemma BeginEnters(db: Db, e: Event, m: MoveId)
    requires m !in db.moves && m in Next(db, e).moves
    requires e.EBegin? || e.EImportProject? || e.EImportRows? || e.ECommit? || e.EUncommit? || e.EAbort? || e.ERescue?
             || e.EResume?
    ensures Next(db, e).moves[m].status == Reserved && Next(db, e).moves[m].uncommittedAt.None?
  {
  }

  lemma LinkEntersNone(db: Db, e: Event, m: MoveId)
    requires m !in db.moves && e.EStep?
    ensures m !in Next(db, e).moves
  {
  }

  lemma WorkersEnterNone(db: Db, e: Event, m: MoveId)
    requires m !in db.moves && (e.EClaim? || e.EPause? || e.EFinish? || e.EFinishNoStorage? || e.EFail?)
    ensures m !in Next(db, e).moves
  {
  }

  /** A move enters the table reserved and never shown. */
  lemma NewMove(db: Db, e: Event, m: MoveId)
    requires m !in db.moves && m in Next(db, e).moves
    ensures Next(db, e).moves[m].status == Reserved && Next(db, e).moves[m].uncommittedAt.None?
  {
    hide Next;
    if e.EBegin? || e.EImportProject? || e.EImportRows? || e.ECommit? || e.EUncommit? || e.EAbort? || e.ERescue?
       || e.EResume? {
      BeginEnters(db, e, m);
    } else if e.EStep? {
      LinkEntersNone(db, e, m);
    } else if e.EClaim? || e.EPause? || e.EFinish? || e.EFinishNoStorage? || e.EFail? {
      WorkersEnterNone(db, e, m);
    } else {
      AllElseEvolves(db, e);
    }
  }
}
