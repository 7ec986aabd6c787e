/**
 When each mutation of a move goes through and what it leaves, said by the values
 of the rows: reserving, importing, committing, rolling back, cancelling, a link
 of the purge, and the counts the purge keeps.
 */
module ProjectMoveGuards {
  import opened Wrappers
  import PurgeDrain
  import opened ProjectMove
  import opened ProjectMoveProofs
  import opened ProjectMoveFrames
  import opened ProjectMoveRuns

  // ── reserving ──────────────────────────────────────────────────────────────

  /** Some move of the project has one of these statuses. */
  predicate SomeMove(db: Db, p: ProjectId, statuses: set<Status>) {
    exists o :: o in db.moves && db.moves[o].project == p && db.moves[o].status in statuses
  }

  /** A new move id reserves a free project; an unfinished move, then a project in the Cloud, refuse it by name. */
  lemma Reserves(db: Db, m: MoveId, p: ProjectId, w: WorkspaceId, manifest: nat, now: int)
    requires m !in db.moves
    ensures var busy := SomeMove(db, p, {Reserved, Importing, Aborting});
            var there := p in db.projects || SomeMove(db, p, {Committed});
            && BeginAnswerTo(db, m, p, w, manifest) ==
                 (if busy then ImportInProgress else if there then AlreadyMigrated else Status(Reserved))
            && Begin(db, m, p, w, manifest, now) ==
                 if busy || there then db
                 else db.(moves := db.moves[m := Move(p, w, manifest, Reserved, now, None, None, None)])
  {
    if SomeMove(db, p, {Committed}) {
      assert exists o :: o in db.moves && db.moves[o].project == p && db.moves[o].status == Committed;
    }
    assert MayBegin(db, m, p) <==>
           !SomeMove(db, p, {Reserved, Importing, Aborting, Committed}) && p !in db.projects
    by {
      forall o | o in db.moves && db.moves[o].project == p
        ensures db.moves[o].status == Purged || db.moves[o].status in {Reserved, Importing, Aborting, Committed}
      {
        match db.moves[o].status
        case _ =>
      }
    }
    assert SomeMove(db, p, {Reserved, Importing, Aborting, Committed}) <==>
           SomeMove(db, p, {Reserved, Importing, Aborting}) || SomeMove(db, p, {Committed});
  }

  // ── taking rows, committing, rolling back ──────────────────────────────────

  predicate IsOpen(db: Db, m: MoveId) {
    m in db.moves && (db.moves[m].status == Reserved || db.moves[m].status == Importing)
  }

  /** The project of a move is stored, in the move's Workspace and not deleted. */
  predicate InPlace(db: Db, m: MoveId, hidden: bool)
    requires m in db.moves
  {
    var p := db.moves[m].project;
    p in db.projects && db.projects[p].workspace == db.moves[m].workspace
      && db.projects[p].hidden == hidden && !db.projects[p].deleted
  }

  /** Rows land exactly for an open move whose project is stored hidden; the project row, once, for an open move. */
  lemma RowsLand(db: Db, m: MoveId, inserted: nat, now: int)
    requires m in db.moves
    ensures var move := db.moves[m];
            && ImportProject(db, m, now) ==
                 (if IsOpen(db, m) && move.project !in db.projects
                  then db.(moves := db.moves[m := move.(status := Importing, updatedAt := now)],
                           projects := db.projects[move.project := Project(move.workspace, true, false)])
                  else db)
            && var next := ImportRows(db, m, inserted, now);
               if IsOpen(db, m) && InPlace(db, m, true) && inserted > 0
               then && next.moves == db.moves[m := move.(status := Importing, updatedAt := now)]
                    && Contents(next, move.project) == Contents(db, move.project) + inserted
                    && (forall q :: q != move.project ==> Contents(next, q) == Contents(db, q))
                    && next == db.(moves := next.moves, contents := next.contents)
               else next == db
  {
  }

  /**
   A commit goes through exactly when the move is open, its project is in place and
   hidden, the manifest is the reserved one and every stream arrived; then that
   project is shown and that move committed, and nothing else changes.
   */
  lemma CommittedExactlyWhen(db: Db, m: MoveId, manifest: nat, verified: bool, now: int)
    ensures Commit(db, m, manifest, verified, now) != db <==>
            IsOpen(db, m) && InPlace(db, m, true) && db.moves[m].manifest == manifest && verified
    ensures var next := Commit(db, m, manifest, verified, now);
            next != db ==>
              var move := db.moves[m];
              next == db.(moves := db.moves[m := move.(status := Committed, updatedAt := now)],
                          projects := db.projects[move.project := Project(move.workspace, false, false)],
                          everShown := db.everShown + {m})
  {
    if TakesRows(db, m) && db.moves[m].manifest == manifest && verified {
      assert Commit(db, m, manifest, verified, now).moves[m].status != db.moves[m].status;
    }
  }

  /**
   A roll back goes through exactly when the move is committed, its project is there,
   not deleted and in the move's Workspace, and nothing changed since or the caller
   confirmed; then that project is hidden, that move imports again and says when it
   was rolled back, and nothing else changes.
   */
  lemma RolledBackExactlyWhen(db: Db, m: MoveId, changed: bool, confirmed: bool, now: int)
    ensures Uncommit(db, m, changed, confirmed, now) != db <==>
            && m in db.moves && db.moves[m].status == Committed
            && db.moves[m].project in db.projects && !db.projects[db.moves[m].project].deleted
            && db.projects[db.moves[m].project].workspace == db.moves[m].workspace
            && (!changed || confirmed)
    ensures var next := Uncommit(db, m, changed, confirmed, now);
            next != db ==>
              var move := db.moves[m];
              next == db.(moves := db.moves[m := move.(status := Importing, updatedAt := now,
                                                        uncommittedAt := Some(now))],
                          projects := db.projects[move.project := Project(move.workspace, true, false)])
  {
    var next := Uncommit(db, m, changed, confirmed, now);
    if m in next.moves && m in db.moves && next.moves[m].status != db.moves[m].status {
      assert next != db;
    }
  }

  /** A committed move's project leaves the shown state only by its roll back, and unconfirmed only when unchanged. */
  lemma LeavesOnlyByRollBack(db: Db, e: Event, m: MoveId)
    requires Good(db) && Legal(db, e) && m in db.moves && db.moves[m].status == Committed
    requires !Shown(Next(db, e), db.moves[m].project)
    ensures e.EUncommit? && e.move == m && (e.changed ==> e.confirmed)
  {
    MoveIsGood(db, m);
    StepKeeps(db, e);
    AlwaysEvolves(db, e, m);
    assert GoodMove(Next(db, e), m);
    assert Next(db, e).moves[m].status != Committed;
    hide Good, GoodMove;
    OnlyRollBack(db, e, m);
  }

  /** Of the mutations of a move only a roll back ends `Committed`. */
  lemma OnlyRollBack(db: Db, e: Event, m: MoveId)
    requires m in db.moves && db.moves[m].status == Committed
    requires m in Next(db, e).moves && Next(db, e).moves[m].status != Committed
    ensures e.EUncommit? && e.move == m && (e.changed ==> e.confirmed)
  {
    if e.EUncommit? {
      RolledBackExactlyWhen(db, e.move, e.changed, e.confirmed, e.now);
    } else if e.EClaim? || e.EPause? || e.EFinish? || e.EFinishNoStorage? || e.EFail? || e.EStep? || e.EResume? {
      PurgeLeavesCommitted(db, e, m);
      assert false;
    } else {
      OthersLeaveCommitted(db, e, m);
      assert false;
    }
  }

  lemma PurgeLeavesCommitted(db: Db, e: Event, m: MoveId)
    requires m in db.moves && db.moves[m].status == Committed
    requires e.EClaim? || e.EPause? || e.EFinish? || e.EFinishNoStorage? || e.EFail? || e.EStep? || e.EResume?
    ensures m in Next(db, e).moves && Next(db, e).moves[m].status == Committed
  {
    hide Step, Resume, ClaimObjectBatch, Finish, RecordError, ClaimAnswer, AsSet;
    if e.EStep? {
      LinkLeaves(db, e.move, e.run, e.link, e.auditDeleted, e.now, m);
    } else if e.EResume? {
      ResumeLeaves(db, e.move, e.now, m);
    } else if e.run in db.workers {
      var w := db.workers[e.run];
      BatchLeaves(db, w.move, e.run, w.deleted, e.now, m);
      FinishLeaves(db, w.move, e.run, w.deleted, false, e.now, m);
      FinishLeaves(db, w.move, e.run, 0, true, e.now, m);
      if e.EFail? {
        ErrorLeaves(db, w.move, e.run, e.error, e.now, m);
      }
    }
  }

  lemma LinkLeaves(db: Db, o: MoveId, run: RunId, link: RowsLink, audited: nat, now: int, m: MoveId)
    requires m in db.moves && db.moves[m].status != Aborting
    ensures m in Step(db, o, run, link, audited, now).moves
    ensures Step(db, o, run, link, audited, now).moves[m] == db.moves[m]
  {
  }

  lemma ResumeLeaves(db: Db, o: MoveId, now: int, m: MoveId)
    requires m in db.moves && db.moves[m].status != Aborting
    ensures m in Resume(db, o, now).moves && Resume(db, o, now).moves[m] == db.moves[m]
  {
  }

  lemma BatchLeaves(db: Db, o: MoveId, run: RunId, n: nat, now: int, m: MoveId)
    requires m in db.moves && db.moves[m].status != Aborting
    ensures m in ClaimObjectBatch(db, o, run, n, now).moves
    ensures ClaimObjectBatch(db, o, run, n, now).moves[m] == db.moves[m]
  {
  }

  lemma FinishLeaves(db: Db, o: MoveId, run: RunId, n: nat, noStorage: bool, now: int, m: MoveId)
    requires m in db.moves && db.moves[m].status != Aborting
    ensures m in Finish(db, o, run, n, noStorage, now).moves
    ensures Finish(db, o, run, n, noStorage, now).moves[m] == db.moves[m]
  {
  }

  lemma ErrorLeaves(db: Db, o: MoveId, run: RunId, error: PurgeError, now: int, m: MoveId)
    requires m in db.moves && db.moves[m].status != Aborting
    ensures m in RecordError(db, o, run, error, now).moves
    ensures RecordError(db, o, run, error, now).moves[m] == db.moves[m]
  {
  }

  lemma OthersLeaveCommitted(db: Db, e: Event, m: MoveId)
    requires m in db.moves && db.moves[m].status == Committed
    requires !(e.EClaim? || e.EPause? || e.EFinish? || e.EFinishNoStorage? || e.EFail? || e.EStep? || e.EResume?)
    requires !e.EUncommit?
    ensures m in Next(db, e).moves && Next(db, e).moves[m].status == Committed
  {
    if e.EBegin? || e.EImportProject? || e.EImportRows? || e.ECommit? || e.EAbort? || e.ERescue? {
      CallsLeaveCommitted(db, e, m);
    } else {
      assert Next(db, e).moves == db.moves by {
        hide AllowedPrefixes, PurgeStalled, HiddenProject, Contents, AsSet;
      }
    }
    hide Next;
  }

  lemma CallsLeaveCommitted(db: Db, e: Event, m: MoveId)
    requires m in db.moves && db.moves[m].status == Committed
    requires e.EBegin? || e.EImportProject? || e.EImportRows? || e.ECommit? || e.EAbort? || e.ERescue?
    ensures m in Next(db, e).moves && Next(db, e).moves[m].status == Committed
  {
    hide PurgeStalled, Contents;
  }

  /** Somebody wrote in the project while the move was committed, and it stayed so until event `k`. */
  ghost predicate ChangedSinceCommit(states: seq<Db>, events: seq<Event>, k: nat, m: MoveId)
    requires Run(states, events) && k < |events|
  {
    exists i :: 0 <= i < k && events[i].ESharedWrite? && events[i].written > 0 && m in states[i].moves
      && events[i].project == states[i].moves[m].project
      && forall n :: i <= n <= k ==> m in states[n].moves && states[n].moves[m].status == Committed
  }

  /** A roll back is told of the changes there were. */
  ghost predicate Tells(states: seq<Db>, events: seq<Event>)
    requires Run(states, events)
  {
    forall k :: 0 <= k < |events| && events[k].EUncommit? && ChangedSinceCommit(states, events, k, events[k].move) ==>
      events[k].changed
  }

  /** Over any run: a project changed since its commit leaves the shown state only by a confirmed roll back. */
  lemma ChangedLeavesOnlyConfirmed(states: seq<Db>, events: seq<Event>, k: nat, m: MoveId)
    requires Run(states, events) && Tells(states, events) && k < |events|
    requires ChangedSinceCommit(states, events, k, m)
    requires m in states[k].moves && !Shown(states[k + 1], states[k].moves[m].project)
    ensures events[k].EUncommit? && events[k].move == m && events[k].confirmed
  {
    hide Next;
    RunKeeps(states, events, k);
    assert Legal(states[k], events[k]) && states[k + 1] == Next(states[k], events[k]);
    LeavesOnlyByRollBack(states[k], events[k], m);
  }
}
