/**
 What each step of a purge leaves, said by the values of the move's row: who starts
 and restarts it and with what progress, what a link records, when it stops, and
 that every object deleted is counted once.
 */
module ProjectMoveLinks {
  import opened Wrappers
  import PurgeDrain
  import opened ProjectMove
  import opened ProjectMoveProofs
  import opened ProjectMoveFrames
  import opened ProjectMoveRuns

  /** The progress a purge reports: its phase, where it is in it, what it deleted and what it skipped. */
  datatype Progress = Progress(phase: Phase, cursor: nat, rows: nat, objects: nat, skipped: Option<Skip>)

  function ProgressOf(purge: Option<Purge>): Progress {
    match purge
    case None => Progress(RowsPhase, 0, 0, 0, None)
    case Some(p) => Progress(p.phase, p.cursor, p.rows, p.objects, p.skipped)
  }

  /** A purge is started, or started again where it was: under a new run, without error, its restarts as given. */
  predicate Started(db: Db, next: Db, m: MoveId, restarts: nat, now: int) {
    && m in db.moves && m in next.moves
    && next.nextRun == db.nextRun + 1
    && var was, purge := db.moves[m].purge, next.moves[m].purge;
       && purge.Some? && purge.value.run == db.nextRun && purge.value.error.None?
       && purge.value.restarts == restarts && purge.value.updatedAt == now
       && ProgressOf(purge) == ProgressOf(was)
  }

  /** A purge that has not moved for ten minutes; its objects phase may first wait for the uploads to expire. */
  predicate Overdue(move: Move, now: int) {
    && move.purge.Some?
    && var purge := move.purge.value;
       var cancelledAt := if move.abortedAt.Some? then move.abortedAt.value else move.updatedAt;
       && now >= purge.updatedAt + 600_000
       && (purge.phase == ObjectsPhase ==> now >= cancelledAt + 1_800_000 + 600_000)
  }

  /** What the cron takes up by itself: a purge never started, failed in passing, or overdue; never a stopped one. */
  predicate TakenUp(move: Move, now: int) {
    && move.status == Aborting
    && (move.purge.None? || (move.purge.value.error.Some? && move.purge.value.error.value.LinkFailed?)
        || (move.purge.value.error.None? && Overdue(move, now)))
  }

  lemma StalledMeans(move: Move, now: int)
    ensures PurgeStalled(move, now) <==> TakenUp(move, now)
  {
  }

  /**
   An abort cancels an open move and starts its purge; of one already cancelled it
   restarts the purge when that failed, stopped or is overdue; anything else it
   leaves alone. A person's restart counts from zero again.
   */
  lemma AbortedExactlyWhen(db: Db, m: MoveId, now: int)
    ensures var next := Abort(db, m, now);
            if m in db.moves && Open(db.moves[m].status)
            then && Started(db, next, m, 0, now)
                 && next == db.(nextRun := db.nextRun + 1, moves := db.moves[m := db.moves[m].(status := Aborting,
                              updatedAt := now, abortedAt := Some(now), purge := next.moves[m].purge)])
            else if m in db.moves && db.moves[m].status == Aborting
                    && (TakenUp(db.moves[m], now) || (db.moves[m].purge.Some? && db.moves[m].purge.value.error.Some?))
            then && Started(db, next, m, 0, now)
                 && next == db.(nextRun := db.nextRun + 1,
                                moves := db.moves[m := db.moves[m].(purge := next.moves[m].purge)])
            else next == db
  {
    if m in db.moves {
      StalledMeans(db.moves[m], now);
    }
    hide PurgeStalled, TakenUp;
  }

  /** The operator's abort restarts any unfinished purge; a committed or purged move it leaves alone too. */
  lemma RescuedExactlyWhen(db: Db, m: MoveId, now: int)
    ensures var next := Rescue(db, m, now);
            if m in db.moves && db.moves[m].status !in {Committed, Purged}
            then && Started(db, next, m, 0, now)
                 && next == db.(nextRun := db.nextRun + 1, moves := db.moves[m := db.moves[m].(status := Aborting,
                              updatedAt := now, purge := next.moves[m].purge,
                              abortedAt := if db.moves[m].abortedAt.Some? then db.moves[m].abortedAt else Some(now))])
            else next == db
  {
    if m in db.moves {
      match db.moves[m].status
      case _ =>
    }
  }

  /** The cron restarts what it takes up, five times in a row; then it stops the purge for a person to look. */
  lemma ResumedExactlyWhen(db: Db, m: MoveId, now: int)
    requires m in db.moves
    ensures var next, purge := Resume(db, m, now), db.moves[m].purge;
            if !TakenUp(db.moves[m], now) then next == db
            else if purge.Some? && purge.value.restarts >= 5
            then next == db.(moves := db.moves[m := db.moves[m].(purge :=
                               Some(purge.value.(error := Some(Stopped("stalled")), updatedAt := now)))])
            else && Started(db, next, m, 1 + (if purge.Some? then purge.value.restarts else 0), now)
                 && next == db.(nextRun := db.nextRun + 1,
                                moves := db.moves[m := db.moves[m].(purge := next.moves[m].purge)])
  {
    StalledMeans(db.moves[m], now);
    hide PurgeStalled, TakenUp;
  }

  // ── a link ─────────────────────────────────────────────────────────────────

  /** The run in charge of a move's purge. */
  predicate InCharge(db: Db, m: MoveId, run: RunId) {
    m in db.moves && db.moves[m].status == Aborting && db.moves[m].purge.Some? && db.moves[m].purge.value.run == run
  }

  /** The move's own project row is there, hidden and in its Workspace, and no committed move shows it. */
  predicate OwnProject(db: Db, move: Move) {
    && move.project in db.projects && db.projects[move.project].hidden
    && db.projects[move.project].workspace == move.workspace
    && !exists o :: o in db.moves && db.moves[o].project == move.project && db.moves[o].status == Committed
  }

  /**
   What a link of the run in charge records. With the project row there it drains:
   a foreign row stops the purge, a drained project moves on to the audit log; it
   reads the audit log page by page, and only the last page takes the project row
   and moves on to the objects. Without the project row it goes straight to them.
   */
  lemma LinkRecords(db: Db, m: MoveId, run: RunId, link: RowsLink, audited: nat, now: int)
    requires InCharge(db, m, run) && LinkFits(Contents(db, db.moves[m].project), link)
    ensures var next := Step(db, m, run, link, audited, now);
            var move := db.moves[m];
            var was := move.purge.value;
            && m in next.moves && next.moves[m].purge.Some?
            && var purge := next.moves[m].purge.value;
            && purge.run == run && purge.updatedAt == now && purge.objects == was.objects
            && next.moves == db.moves[m := move.(purge := Some(purge))]
            && if was.phase == ObjectsPhase || !OwnProject(db, move)
               then && next.projects == db.projects && next.contents == db.contents
                    && purge == was.(phase := ObjectsPhase, cursor := 0, updatedAt := now,
                                     skipped := if was.phase != ObjectsPhase && move.project in db.projects
                                                then Some(IdTaken) else was.skipped)
               else if was.phase == RowsPhase
               then && next.projects == db.projects
                    && Contents(next, move.project) == Contents(db, move.project) - link.deleted
                    && purge.rows == was.rows + link.deleted && purge.skipped == was.skipped
                    && (link.outcome.Foreign? ==>
                          purge.error == Some(Stopped("foreign_row")) && purge.phase == RowsPhase)
                    && (link.outcome == PurgeDrain.Drained ==> purge.phase == AuditPhase && purge.cursor == 0)
                    && (link.outcome == PurgeDrain.OutOfBudget ==>
                          purge.phase == RowsPhase && purge.cursor == was.cursor)
                    && (!link.outcome.Foreign? ==> purge.error == was.error && purge.restarts == 0)
               else && next.contents == db.contents && purge.skipped == was.skipped && purge.error == was.error
                    && purge.restarts == 0
                    && if was.cursor + 1 < db.auditPages
                       then && next.projects == db.projects && purge.phase == AuditPhase
                            && purge.cursor == was.cursor + 1 && purge.rows == was.rows + audited
                       else && next.projects == db.projects - {move.project}
                            && purge.phase == ObjectsPhase && purge.rows == was.rows + audited + 1
  {
    OwnsMeans(db, m);
    hide HiddenProject, OwnProject;
  }

  lemma OwnsMeans(db: Db, m: MoveId)
    requires m in db.moves
    ensures HiddenProject(db, db.moves[m]) == Ours <==> OwnProject(db, db.moves[m])
    ensures HiddenProject(db, db.moves[m]) == Nobody <==> db.moves[m].project !in db.projects
  {
  }

  /** A row that is not the project's stops the purge: the cron leaves it to a person. */
  lemma ForeignRowStops(db: Db, m: MoveId, run: RunId, link: RowsLink, audited: nat, now: int, later: int)
    requires InCharge(db, m, run) && LinkFits(Contents(db, db.moves[m].project), link)
    requires OwnProject(db, db.moves[m]) && db.moves[m].purge.value.phase == RowsPhase && link.outcome.Foreign?
    ensures var next := Step(db, m, run, link, audited, now);
            Resume(next, m, later) == next && next.projects == db.projects
  {
    LinkRecords(db, m, run, link, audited, now);
    var next := Step(db, m, run, link, audited, now);
    hide Step, OwnProject;
    ResumedExactlyWhen(next, m, later);
  }

  // ── the objects ────────────────────────────────────────────────────────────

  /** The prefixes a purge may still take: the project's while nobody has its id, and always its own. */
  function MayTake(db: Db, m: MoveId): seq<Prefix>
    requires m in db.moves
  {
    var p := db.moves[m].project;
    var skips := db.moves[m].purge.Some? && db.moves[m].purge.value.skipped == Some(IdTaken);
    if p in db.projects || skips then [MovePrefix(m)] else [ProjectPrefix(p), MovePrefix(m)]
  }

  /**
   The worker in charge plans all of them, once the uploads of the cancelled move have
   expired and not before; one that is no longer in charge ends. A claim is granted
   exactly for one of them.
   */
  lemma PlansAll(db: Db, run: RunId, now: int, prefix: Prefix)
    requires run in db.workers && db.workers[run].pc == Planning && db.workers[run].move in db.moves
    ensures var w := db.workers[run];
            var cancelledAt := if db.moves[w.move].abortedAt.Some? then db.moves[w.move].abortedAt.value
                               else db.moves[w.move].updatedAt;
            var charged := InCharge(db, w.move, run) && db.moves[w.move].purge.value.phase == ObjectsPhase;
            && (ClaimAnswer(db, w.move, run, prefix) <==> charged && prefix in MayTake(db, w.move))
            && Plan(db, run, now) ==
                 if !charged then db.(workers := db.workers[run := w.(pc := Ended)])
                 else if now < cancelledAt + 1_800_000 then db
                 else db.(workers := db.workers[run := w.(pc := Listing, plannedAt := now, listed := [],
                                                          prefixes := MayTake(db, w.move))])
  {
    var w := db.workers[run];
    assert AllowedPrefixes(db, w.move) == MayTake(db, w.move);
    hide AllowedPrefixes, MayTake;
  }

  /** The first keys of a page, at most eight of them. */
  function FirstEight(keys: seq<Key>): seq<Key> {
    if |keys| > 8 then keys[..8] else keys
  }

  /**
   A listed page goes batch by batch: a granted claim takes the first eight keys and
   leaves the rest, each DELETE takes its object and its key, and when the batch is
   done the worker claims on while keys are left, and plans again only then. A claim
   that is refused ends it; an empty list passes to the next prefix, and after the
   last one to the finish.
   */
  lemma BatchByBatch(db: Db, run: RunId, keys: seq<Key>, key: Key, now: int)
    requires run in db.workers
    ensures var w := db.workers[run];
            && (w.pc == Listing && w.prefixes != [] ==>
                  List(db, run, keys) == db.(workers := db.workers[run :=
                    if keys != [] then w.(pc := Claiming, listed := keys)
                    else if |w.prefixes| == 1 then w.(pc := Finishing, prefixes := [])
                    else w.(prefixes := w.prefixes[1..])]))
            && (w.pc == Claiming && w.prefixes != [] ==>
                  var next := Claim(db, run, now).workers;
                  next == db.workers[run :=
                    if ClaimAnswer(db, w.move, run, w.prefixes[0])
                    then w.(pc := Deleting, batch := (set k | k in FirstEight(w.listed)), deleted := 0,
                            listed := w.listed[|FirstEight(w.listed)|..])
                    else w.(pc := Ended, listed := [], deleted := 0)])
            && (key in w.batch ==>
                  && Delete(db, run, key).objects == db.objects - {key}
                  && run in Delete(db, run, key).workers
                  && Delete(db, run, key).workers[run].batch == w.batch - {key}
                  && Delete(db, run, key).moves == db.moves)
            && (w.pc == Deleting && w.batch == {} ==>
                  BatchDone(db, run) == db.(workers := db.workers[run :=
                    if w.listed == [] then w.(pc := Planning) else w.(pc := Claiming)]))
  {
    var w := db.workers[run];
    assert |w.prefixes| == 1 ==> w.prefixes[1..] == [];
    assert w.listed[..|w.listed|] == w.listed;
    hide ClaimAnswer, AllowedPrefixes;
  }

  // ── every object is counted once ───────────────────────────────────────────

  /** A worker's batch counts exactly what it deleted, for the run in charge, and from then on is counted. */
  lemma BatchCounted(db: Db, m: MoveId, run: RunId, n: nat, now: int)
    ensures var next := ClaimObjectBatch(db, m, run, n, now);
            if InCharge(db, m, run) && db.moves[m].purge.value.phase == ObjectsPhase
            then var was := db.moves[m].purge.value;
                 next == db.(moves := db.moves[m := db.moves[m].(purge := Some(was.(objects := was.objects + n,
                               restarts := if n == 0 then was.restarts else 0, updatedAt := now)))])
            else next == db
  {
  }

  /**
   A purge ends exactly by the finish of its run in charge, in its objects phase:
   its count takes in the last deletes, and it says what it skipped, the id of
   another's project before an absent store.
   */
  lemma FinishedExactlyWhen(db: Db, m: MoveId, run: RunId, n: nat, noStorage: bool, now: int)
    ensures var next := Finish(db, m, run, n, noStorage, now);
            if InCharge(db, m, run) && db.moves[m].purge.value.phase == ObjectsPhase
            then var was := db.moves[m].purge.value;
                 next == db.(moves := db.moves[m := db.moves[m].(status := Purged, updatedAt := now,
                   purge := Some(was.(objects := was.objects + n, error := None, updatedAt := now,
                     skipped := if was.skipped == None && noStorage then Some(NoStorage) else was.skipped)))])
            else next == db
  {
  }

  /** What the purge counted and its run's worker has still to count. */
  function Tally(db: Db, run: RunId): nat
    requires run in db.workers && db.workers[run].move in db.moves
    requires db.moves[db.workers[run].move].purge.Some?
  {
    db.moves[db.workers[run].move].purge.value.objects + db.workers[run].deleted
  }

  /** The run in charge of its move's purge, in its objects phase, with its worker at work. */
  predicate AtWork(db: Db, run: RunId) {
    && run in db.workers && InCharge(db, db.workers[run].move, run)
    && db.moves[db.workers[run].move].purge.value.phase == ObjectsPhase
    && (db.workers[run].pc != Deleting ==> db.workers[run].batch == {})
  }

  predicate WorkerStep(e: Event, run: RunId) {
    && (e.EPlan? || e.EList? || e.EClaim? || e.EDelete? || e.EBatchDone? || e.EPause? || e.EFinish?)
    && e.run == run
  }

  /**
   Conservation: over each step of the worker in charge, what is counted or still to
   be counted rises by the object a DELETE took, and by nothing else; so every
   object of a batch is counted, and none twice.
   */
  lemma EachObjectCountedOnce(db: Db, e: Event, run: RunId)
    requires AtWork(db, run) && WorkerStep(e, run)
    ensures run in Next(db, e).workers && Next(db, e).workers[run].move == db.workers[run].move
    ensures db.workers[run].move in Next(db, e).moves && Next(db, e).moves[db.workers[run].move].purge.Some?
    ensures Tally(Next(db, e), run) ==
              Tally(db, run) + if e.EDelete? && e.key in db.workers[run].batch then 1 else 0
  {
    hide Next, Tally;
    if e.EClaim? || e.EPause? || e.EFinish? {
      CallCounts(db, e, run);
    } else {
      OwnStepCounts(db, e, run);
    }
  }

  /** A call hands over what its worker has still to count. */
  lemma CallCounts(db: Db, e: Event, run: RunId)
    requires AtWork(db, run) && (e.EClaim? || e.EPause? || e.EFinish?) && e.run == run
    ensures run in Next(db, e).workers && Next(db, e).workers[run].move == db.workers[run].move
    ensures db.workers[run].move in Next(db, e).moves && Next(db, e).moves[db.workers[run].move].purge.Some?
    ensures Tally(Next(db, e), run) == Tally(db, run)
  {
    if e.EFinish? {
      FinishCounts(db, e, run);
    } else if e.EClaim? {
      ClaimCounts(db, e, run);
    } else {
      hide ClaimAnswer, AllowedPrefixes, AsSet;
    }
    hide Next, Tally, AtWork;
  }

  lemma FinishCounts(db: Db, e: Event, run: RunId)
    requires AtWork(db, run) && e.EFinish? && e.run == run
    ensures run in Next(db, e).workers && Next(db, e).workers[run].move == db.workers[run].move
    ensures db.workers[run].move in Next(db, e).moves && Next(db, e).moves[db.workers[run].move].purge.Some?
    ensures Tally(Next(db, e), run) == Tally(db, run)
  {
    hide AllowedPrefixes, AsSet;
  }

  lemma ClaimCounts(db: Db, e: Event, run: RunId)
    requires AtWork(db, run) && e.EClaim? && e.run == run
    ensures run in Next(db, e).workers && Next(db, e).workers[run].move == db.workers[run].move
    ensures db.workers[run].move in Next(db, e).moves && Next(db, e).moves[db.workers[run].move].purge.Some?
    ensures Tally(Next(db, e), run) == Tally(db, run)
  {
    hide ClaimAnswer, AllowedPrefixes, AsSet;
  }

  lemma OwnStepCounts(db: Db, e: Event, run: RunId)
    requires AtWork(db, run) && (e.EPlan? || e.EList? || e.EDelete? || e.EBatchDone?) && e.run == run
    ensures run in Next(db, e).workers && Next(db, e).workers[run].move == db.workers[run].move
    ensures db.workers[run].move in Next(db, e).moves && Next(db, e).moves[db.workers[run].move].purge.Some?
    ensures Tally(Next(db, e), run) ==
              Tally(db, run) + if e.EDelete? && e.key in db.workers[run].batch then 1 else 0
  {
    hide AllowedPrefixes, AsSet;
  }
}
