/**
 What the purge of a move deletes, when it may, what a run that was restarted
 can still do, and why the cron stops restarting it.
 */
module ProjectMovePurge {
  import opened Wrappers
  import opened ProjectMove
  import opened ProjectMoveProofs
  import opened ProjectMoveFrames
  import opened ProjectMoveRuns

  // ── rows: only while the project is hidden under this move ─────────────────

  /** Whatever the tables hold, a link changes a project or its rows only while it is this move's hidden one. */
  lemma RowsOnlyWhileHidden(db: Db, m: MoveId, run: RunId, link: RowsLink, auditDeleted: nat, now: int)
    ensures var next := Step(db, m, run, link, auditDeleted, now);
            (next.projects != db.projects || next.contents != db.contents) ==>
            (CurrentRun(db, m, run) && HiddenProject(db, db.moves[m]) == Ours
                && db.moves[m].purge.value.phase != ObjectsPhase)
  {
  }

  /** What a link adds to the purge's row count is what it deleted: rows, audit rows, and at last the project row. */
  lemma LinkCountsWhatItDeletes(db: Db, m: MoveId, run: RunId, link: RowsLink, auditDeleted: nat, now: int)
    requires Good(db) && CurrentRun(db, m, run) && LinkFits(Contents(db, db.moves[m].project), link)
    ensures var next := Step(db, m, run, link, auditDeleted, now);
            var p := db.moves[m].project;
            var inAudit := db.moves[m].purge.value.phase == AuditPhase && p in db.projects;
            next.moves[m].purge.value.rows - db.moves[m].purge.value.rows ==
              (Contents(db, p) - Contents(next, p)) + (if inAudit then auditDeleted else 0)
                + (if p in db.projects && p !in next.projects then 1 else 0)
    ensures Step(db, m, run, link, auditDeleted, now).moves[m].purge.value.objects == db.moves[m].purge.value.objects
  {
    assert GoodMove(db, m);
    NeverTaken(db, m);
  }

  /**
   The project prefix is claimed only for the run in charge, in its objects phase, while no project
   row holds the id.
   */
  lemma ProjectKeysOnlyWhenUnheld(db: Db, m: MoveId, run: RunId, p: ProjectId)
    requires ClaimAnswer(db, m, run, ProjectPrefix(p))
    ensures CurrentRun(db, m, run) && db.moves[m].purge.value.phase == ObjectsPhase
    ensures p == db.moves[m].project && p !in db.projects
  {
    var allowed := AllowedPrefixes(db, m);
    assert allowed[|allowed| - 1] == MovePrefix(m);
  }

  // ── keys: only claimed ones, and only the move's own ───────────────────────

  predicate OwnPrefix(db: Db, m: MoveId, prefix: Prefix) {
    prefix == MovePrefix(m) || (m in db.moves && prefix == ProjectPrefix(db.moves[m].project))
  }

  /** A worker handles only keys under its move's two prefixes, each listed once. */
  ghost predicate Tidy(db: Db, w: Worker) {
    && (forall prefix :: prefix in w.prefixes ==> OwnPrefix(db, w.move, prefix))
    && (forall k :: k in w.listed ==> OwnPrefix(db, w.move, k.prefix) && k !in w.batch)
    && (forall k :: k in w.batch ==> OwnPrefix(db, w.move, k.prefix))
    && (forall i, j :: 0 <= i < j < |w.listed| ==> w.listed[i] != w.listed[j])
    && (w.pc != Deleting && w.pc != Ended ==> w.batch == {})
    && (w.pc in {Claiming, Deleting} && w.listed != [] ==>
          w.prefixes != [] && forall k :: k in w.listed ==> k.prefix == w.prefixes[0])
  }

  ghost predicate AllTidy(db: Db) {
    forall run :: run in db.workers ==> Tidy(db, db.workers[run])
  }

  lemma TidyStaysOwn(db: Db, e: Event, w: Worker)
    requires Good(db) && Tidy(db, w)
    ensures Tidy(Next(db, e), w)
  {
    hide Next;
    if w.move in db.moves {
      AlwaysEvolves(db, e, w.move);
    }
  }

  lemma ClaimTidy(db: Db, run: RunId, now: int)
    requires run in db.workers && Tidy(db, db.workers[run])
    ensures run in Claim(db, run, now).workers && Tidy(db, Claim(db, run, now).workers[run])
  {
    var w := db.workers[run];
    if w.pc == Claiming && w.prefixes != [] {
      var n := if |w.listed| < DELETE_BATCH then |w.listed| else DELETE_BATCH;
      assert w.listed == w.listed[..n] + w.listed[n..];
    }
  }

  lemma ListTidy(db: Db, run: RunId, keys: seq<Key>)
    requires run in db.workers && Tidy(db, db.workers[run]) && Legal(db, EList(run, keys))
    ensures run in List(db, run, keys).workers && Tidy(db, List(db, run, keys).workers[run])
  {
  }

  lemma CommittingTidy(db: Db, e: Event, run: RunId)
    requires StepOf(e, run) && run in db.workers && Tidy(db, db.workers[run])
    requires e.EClaim? || e.EPause? || e.EFinish? || e.EFinishNoStorage? || e.EFail?
    ensures run in Next(db, e).workers && Tidy(db, Next(db, e).workers[run])
  {
    match e
    case EClaim(_, now) => ClaimTidy(db, run, now);
    case EPause(_, _) =>
    case EFinish(_, _) =>
    case EFinishNoStorage(_, _) =>
    case EFail(_, _, _) =>
  }

  lemma PlanTidy(db: Db, run: RunId, now: int)
    requires run in db.workers && Tidy(db, db.workers[run])
    ensures run in Plan(db, run, now).workers && Tidy(db, Plan(db, run, now).workers[run])
  {
  }

  lemma LocalTidy(db: Db, e: Event, run: RunId)
    requires Legal(db, e) && StepOf(e, run) && (run in db.workers ==> Tidy(db, db.workers[run]))
    requires e.ESpawn? || e.EPlan? || e.EList? || e.EDelete? || e.EBatchDone? || e.ECrash?
    ensures run in Next(db, e).workers && Tidy(db, Next(db, e).workers[run])
  {
    if e.EList? {
      ListTidy(db, run, e.keys);
    } else if e.EPlan? {
      PlanTidy(db, run, e.now);
    }
    hide Plan, List;
  }

  /** What one step makes of its own worker. */
  lemma OwnWorkerTidy(db: Db, e: Event, run: RunId)
    requires Legal(db, e) && StepOf(e, run) && (run in db.workers ==> Tidy(db, db.workers[run]))
    ensures run in Next(db, e).workers && Tidy(db, Next(db, e).workers[run])
  {
    hide Next;
    if e.EClaim? || e.EPause? || e.EFinish? || e.EFinishNoStorage? || e.EFail? {
      CommittingTidy(db, e, run);
    } else {
      LocalTidy(db, e, run);
    }
  }

  lemma TidyKeeps(db: Db, e: Event)
    requires Good(db) && Legal(db, e) && AllTidy(db)
    ensures AllTidy(Next(db, e))
  {
    hide Next;
    forall run | run in Next(db, e).workers
      ensures Tidy(Next(db, e), Next(db, e).workers[run])
    {
      if StepOf(e, run) {
        OwnWorkerTidy(db, e, run);
        TidyStaysOwn(db, e, Next(db, e).workers[run]);
      } else {
        Frame(db, e);
        TidyStaysOwn(db, e, db.workers[run]);
      }
    }
  }


  lemma {:induction false} RunTidy(states: seq<Db>, events: seq<Event>, k: nat)
    requires Run(states, events) && states[0] == Empty && k <= |events|
    ensures AllTidy(states[k])
    decreases k
  {
    hide Next;
    if k > 0 {
      RunTidy(states, events, k - 1);
      RunKeeps(states, events, k - 1);
      TidyKeeps(states[k - 1], events[k - 1]);
    }
  }

  /** What held when a key entered a worker's batch. */
  ghost predicate Claimed(db: Db, e: Event, run: RunId, key: Key) {
    && e.EClaim? && e.run == run && run in db.workers
    && var m := db.workers[run].move;
       && MayDeleteObjects(db, m, run)
       && OwnPrefix(db, m, key.prefix)
       && (key.prefix.ProjectPrefix? ==> key.prefix.project !in db.projects)
       && db.moves[m].abortedAt.Some?
       && db.moves[m].abortedAt.value + OBJECTS_AFTER_ABORT_MS <= db.workers[run].plannedAt
  }

  /** A batch grows only by a claim, and the claim's conditions held. */
  /** No other step of a worker adds to its batch. */
  lemma OnlyClaimsGrow(db: Db, e: Event, run: RunId)
    requires StepOf(e, run) && !e.EClaim? && run in Next(db, e).workers
    ensures Next(db, e).workers[run].batch <= (if run in db.workers then db.workers[run].batch else {})
  {
    hide ClaimObjectBatch, Finish, RecordError, AllowedPrefixes, MayDeleteObjects;
  }

  lemma BatchGrowsByClaim(db: Db, e: Event, run: RunId, key: Key)
    requires Good(db) && AllTidy(db) && Legal(db, e)
    requires run in Next(db, e).workers && key in Next(db, e).workers[run].batch
    requires run in db.workers ==> key !in db.workers[run].batch
    ensures Claimed(db, e, run, key)
  {
    if !StepOf(e, run) {
      hide Next;
      Frame(db, e);
    } else if e.EClaim? {
      OwnClaim(db, e);
      hide Next, Claim;
      ClaimedByClaim(db, run, e.now, key);
    } else {
      hide Next;
      OnlyClaimsGrow(db, e, run);
    }
  }

  lemma OwnClaim(db: Db, e: Event)
    requires e.EClaim?
    ensures Next(db, e) == if e.run in db.workers then Claim(db, e.run, e.now) else db
  {
  }

  lemma ClaimedByClaim(db: Db, run: RunId, now: int, key: Key)
    requires Good(db) && run in db.workers && Tidy(db, db.workers[run])
    requires key in Claim(db, run, now).workers[run].batch && key !in db.workers[run].batch
    ensures Claimed(db, EClaim(run, now), run, key)
  {
    var w := db.workers[run];
    assert GoodWorker(db, run);
    assert key in w.listed;
    if key.prefix.ProjectPrefix? {
      ProjectKeysOnlyWhenUnheld(db, w.move, run, key.prefix.project);
    }
  }

  /**
   Whatever a worker is about to delete, it claimed before: while its run was
   in charge and in its objects phase, under its move's own prefixes, while no
   project row held the id, and once the uploads of the move had expired.
   */
  lemma {:induction false} DeletesWereClaimed(states: seq<Db>, events: seq<Event>, k: nat, run: RunId, key: Key)
    returns (j: nat)
    requires Run(states, events) && states[0] == Empty && k <= |events|
    requires run in states[k].workers && key in states[k].workers[run].batch
    ensures j < k && Claimed(states[j], events[j], run, key)
    decreases k
  {
    hide Next;
    assert k > 0;
    if run in states[k - 1].workers && key in states[k - 1].workers[run].batch {
      j := DeletesWereClaimed(states, events, k - 1, run, key);
    } else {
      j := k - 1;
      RunKeeps(states, events, j);
      RunTidy(states, events, j);
      BatchGrowsByClaim(states[j], events[j], run, key);
    }
  }

  // ── a run left behind by a restart ─────────────────────────────────────────

  /** A newer run is in charge of the purge, or the purge is over. */
  predicate Superseded(db: Db, m: MoveId, run: RunId) {
    && m in db.moves
    && (db.moves[m].status == Purged
        || (db.moves[m].status == Aborting && db.moves[m].purge.Some? && db.moves[m].purge.value.run > run))
  }

  lemma RestartSupersedes(db: Db, m: MoveId, run: RunId, byCron: bool, now: int)
    requires Good(db) && CurrentRun(db, m, run)
    ensures Superseded(SchedulePurge(db, m, byCron, now), m, run)
  {
    assert GoodMove(db, m);
  }

  /** Its links do nothing: it never claims, counts, advances the phase, fails the purge or finishes it. */
  lemma SupersededDoesNothing(db: Db, m: MoveId, run: RunId, link: RowsLink, n: nat, noStorage: bool,
          error: PurgeError, prefix: Prefix, now: int)
    requires Superseded(db, m, run)
    ensures Step(db, m, run, link, n, now) == db
    ensures ClaimObjectBatch(db, m, run, n, now) == db && !ClaimAnswer(db, m, run, prefix)
    ensures Finish(db, m, run, n, noStorage, now) == db
    ensures RecordError(db, m, run, error, now) == db
  {
  }

  lemma SupersededStays(db: Db, e: Event, m: MoveId, run: RunId)
    requires Good(db) && Superseded(db, m, run)
    ensures Superseded(Next(db, e), m, run)
  {
    hide Next;
    AlwaysEvolves(db, e, m);
  }

  lemma SupersededOnlyShrinks(db: Db, e: Event, run: RunId)
    requires Good(db) && AllTidy(db) && Legal(db, e)
    requires run in db.workers && Superseded(db, db.workers[run].move, run)
    ensures run in Next(db, e).workers && Next(db, e).workers[run].move == db.workers[run].move
    ensures Next(db, e).workers[run].batch <= db.workers[run].batch
  {
    WorkerStays(db, e, run);
    hide Next;
    forall key | key in Next(db, e).workers[run].batch
      ensures key in db.workers[run].batch
    {
      if key !in db.workers[run].batch {
        BatchGrowsByClaim(db, e, run, key);
      }
    }
  }

  lemma WorkerStays(db: Db, e: Event, run: RunId)
    requires run in db.workers && Legal(db, e)
    ensures run in Next(db, e).workers && Next(db, e).workers[run].move == db.workers[run].move
  {
    if !StepOf(e, run) {
      Frame(db, e);
    }
  }

  /** A run left behind deletes at most the batch it held when it was superseded: at most `DELETE_BATCH` keys. */
  lemma {:induction false} LeftBehind(states: seq<Db>, events: seq<Event>, j: nat, k: nat, run: RunId)
    requires Run(states, events) && states[0] == Empty && j <= k <= |events|
    requires run in states[j].workers && Superseded(states[j], states[j].workers[run].move, run)
    ensures run in states[k].workers && states[k].workers[run].move == states[j].workers[run].move
    ensures Superseded(states[k], states[k].workers[run].move, run)
    ensures states[k].workers[run].batch <= states[j].workers[run].batch
    ensures |states[j].workers[run].batch| <= DELETE_BATCH
    decreases k
  {
    hide Next;
    RunKeeps(states, events, j);
    assert GoodWorker(states[j], run);
    if j < k {
      LeftBehind(states, events, j, k - 1, run);
      RunKeeps(states, events, k - 1);
      RunTidy(states, events, k - 1);
      SupersededOnlyShrinks(states[k - 1], events[k - 1], run);
      SupersededStays(states[k - 1], events[k - 1], states[k - 1].workers[run].move, run);
    }
  }

  /** So every key it takes out of the store afterwards is one of those. */
  lemma LeftBehindDeletes(states: seq<Db>, events: seq<Event>, j: nat, k: nat, run: RunId, key: Key)
    requires Run(states, events) && states[0] == Empty && j <= k < |events|
    requires run in states[j].workers && Superseded(states[j], states[j].workers[run].move, run)
    requires StepOf(events[k], run) && key in states[k].objects && key !in states[k + 1].objects
    ensures key in states[j].workers[run].batch && |states[j].workers[run].batch| <= DELETE_BATCH
  {
    hide Next;
    LeftBehind(states, events, j, k, run);
    assert states[k + 1] == Next(states[k], events[k]);
    Frame(states[k], events[k]);
  }

  // ── exactly what a run left behind can still delete ────────────────────────

  /** After `events`, a step of `run` takes `key` out of the store. */
  ghost predicate RemovesAfter(db: Db, events: seq<Event>, run: RunId, key: Key) {
    exists mid: Db, e: Event ::
      Plays(db, events, mid) && Legal(mid, e) && StepOf(e, run) && key in mid.objects && key !in Next(mid, e).objects
  }

  ghost predicate MayStillRemove(db: Db, run: RunId, key: Key) {
    exists events: seq<Event> :: RemovesAfter(db, events, run, key)
  }

  /** The same, while nobody uploads the key. */
  ghost predicate MayStillRemoveStored(db: Db, run: RunId, key: Key) {
    exists events: seq<Event> :: EUpload(key) !in events && RemovesAfter(db, events, run, key)
  }

  ghost predicate LeftBehindRun(db: Db, run: RunId) {
    Good(db) && AllTidy(db) && run in db.workers && Superseded(db, db.workers[run].move, run)
  }

  lemma {:induction false} LeftBehindPlays(db: Db, events: seq<Event>, mid: Db, run: RunId, key: Key)
    requires LeftBehindRun(db, run) && Plays(db, events, mid)
    ensures LeftBehindRun(mid, run) && mid.workers[run].batch <= db.workers[run].batch
    ensures EUpload(key) !in events && key in mid.objects ==> key in db.objects
    decreases |events|
  {
    hide Next, Good, Superseded, AllTidy;
    if events != [] {
      var next := Next(db, events[0]);
      StepKeeps(db, events[0]);
      TidyKeeps(db, events[0]);
      SupersededOnlyShrinks(db, events[0], run);
      SupersededStays(db, events[0], db.workers[run].move, run);
      Frame(db, events[0]);
      LeftBehindPlays(next, events[1..], mid, run, key);
    }
  }

  lemma DeleteLands(db: Db, run: RunId, key: Key)
    requires run in db.workers && key in db.workers[run].batch
    ensures Legal(db, EDelete(run, key)) && key !in Next(db, EDelete(run, key)).objects
    ensures Legal(db, EUpload(key)) && Next(db, EUpload(key)) == db.(objects := db.objects + {key})
  {
  }

  /** Its batch is exactly what a run left behind may still take out of the store. */
  lemma LeftBehindExactly(db: Db, run: RunId, key: Key)
    requires LeftBehindRun(db, run)
    ensures MayStillRemove(db, run, key) <==> key in db.workers[run].batch
    ensures MayStillRemoveStored(db, run, key) <==> key in db.workers[run].batch && key in db.objects
  {
    hide Next, Good, Superseded, AllTidy;
    forall events: seq<Event> | RemovesAfter(db, events, run, key)
      ensures key in db.workers[run].batch && (EUpload(key) !in events ==> key in db.objects)
    {
      var mid: Db, e: Event :|
        Plays(db, events, mid) && Legal(mid, e) && StepOf(e, run) && key in mid.objects && key !in Next(mid, e).objects;
      LeftBehindPlays(db, events, mid, run, key);
      Frame(mid, e);
    }
    if key in db.workers[run].batch {
      DeleteLands(db, run, key);
      var stored := db.(objects := db.objects + {key});
      DeleteLands(stored, run, key);
      var upload := [EUpload(key)];
      assert upload[1..] == [] && Plays(stored, [], stored);
      assert Plays(db, upload, stored);
      assert StepOf(EDelete(run, key), run) && RemovesAfter(db, upload, run, key);
      if key in db.objects {
        assert Plays(db, [], db) && RemovesAfter(db, [], run, key) && EUpload(key) !in [];
      }
    }
  }

  /**
   So the documented promise, that a run left behind deletes nothing more, holds
   exactly when it was superseded with no batch under way; and as long as nobody
   uploads under a key of that batch, exactly when none of those keys is stored.
   */
  lemma NothingLeftToDeleteExactly(db: Db, run: RunId)
    requires LeftBehindRun(db, run)
    ensures (forall key :: !MayStillRemove(db, run, key)) <==> db.workers[run].batch == {}
    ensures (forall key :: !MayStillRemoveStored(db, run, key)) <==> db.workers[run].batch !! db.objects
  {
    hide MayStillRemove, MayStillRemoveStored, Good, AllTidy, Superseded;
    forall key
      ensures MayStillRemove(db, run, key) <==> key in db.workers[run].batch
      ensures MayStillRemoveStored(db, run, key) <==> key in db.workers[run].batch && key in db.objects
    {
      LeftBehindExactly(db, run, key);
    }
  }
}
