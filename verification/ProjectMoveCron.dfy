/**
 Why the cron stops restarting a purge: the work a purge has left only shrinks
 while nobody acts on the move, every commit that resets the restart count made
 it strictly smaller, and the cron gives up after `MAX_RESTARTS` in a row.
 */
module ProjectMoveCron {
  import opened Wrappers
  import PurgeDrain
  import opened ProjectMove
  import opened ProjectMoveProofs
  import opened ProjectMoveFrames
  import opened ProjectMoveRuns
  import opened ProjectMovePurge

  // ── the work left ──────────────────────────────────────────────────────────

  /** The worker of the run in charge of `m`'s purge. */
  function InCharge(db: Db, m: MoveId): Option<Worker>
    requires m in db.moves && db.moves[m].purge.Some?
  {
    var run := db.moves[m].purge.value.run;
    if run in db.workers && db.workers[run].move == m then Some(db.workers[run]) else None
  }

  function Stored(objects: set<Key>, p: ProjectId, m: MoveId): set<Key> {
    set k | k in objects && (k.prefix == ProjectPrefix(p) || k.prefix == MovePrefix(m))
  }

  /** The keys stored under the move's prefixes, and those its worker still means to delete. */
  function Pending(objects: set<Key>, p: ProjectId, m: MoveId, w: Option<Worker>): set<Key> {
    Stored(objects, p, m) + (if w.Some? then AsSet(w.value.listed) + w.value.batch else {})
  }

  /** Keys pending, and keys deleted that no commit has counted yet. */
  function Load(objects: set<Key>, p: ProjectId, m: MoveId, w: Option<Worker>): nat {
    |Pending(objects, p, m, w)| + (if w.Some? then w.value.deleted else 0)
  }

  function LoadOf(db: Db, m: MoveId): nat
    requires m in db.moves && db.moves[m].purge.Some?
  {
    Load(db.objects, db.moves[m].project, m, InCharge(db, m))
  }

  /** Phases, rows, audit pages and objects left. */
  function Work(db: Db, m: MoveId): nat
    requires m in db.moves && db.moves[m].purge.Some?
  {
    var purge := db.moves[m].purge.value;
    LoadOf(db, m) +
    match purge.phase
    case RowsPhase => Contents(db, db.moves[m].project) + db.auditPages + 2
    case AuditPhase => (if purge.cursor < db.auditPages then db.auditPages - purge.cursor else 0) + 1
    case ObjectsPhase => 0
  }

  function Patience(restarts: nat): nat {
    if restarts < MAX_RESTARTS then MAX_RESTARTS - restarts else 0
  }

  /** How often the cron can still restart the purge. */
  function RestartsLeft(db: Db, m: MoveId): nat {
    if m in db.moves && db.moves[m].status == Aborting && db.moves[m].purge.Some?
    then Work(db, m) * (MAX_RESTARTS + 1) + Patience(db.moves[m].purge.value.restarts)
    else 0
  }

  predicate CronRestarts(db: Db, e: Event, m: MoveId) {
    && e.EResume? && e.move == m && m in db.moves && PurgeStalled(db.moves[m], e.now)
    && !(db.moves[m].purge.Some? && db.moves[m].purge.value.restarts >= MAX_RESTARTS)
  }

  /** Nobody acts on the move. */
  predicate Untouched(e: Event, m: MoveId) {
    !(e.EAbort? && e.move == m) && !(e.ERescue? && e.move == m)
  }

  /** Nobody acts on the move, nothing new is uploaded under its prefixes, and the audit log stays as it is. */
  predicate Quiet(db: Db, e: Event, m: MoveId)
    requires m in db.moves
  {
    && Untouched(e, m) && !e.EAuditGrows?
    && !(e.EUpload? && (e.key.prefix == ProjectPrefix(db.moves[m].project) || e.key.prefix == MovePrefix(m)))
  }

  // ── the load never grows ───────────────────────────────────────────────────

  /** Fewer keys pending, and no more deleted keys uncounted. */
  lemma LoadShrinks(o1: set<Key>, w1: Option<Worker>, o2: set<Key>, w2: Option<Worker>, p: ProjectId, m: MoveId)
    requires Pending(o2, p, m, w2) <= Pending(o1, p, m, w1)
    requires w2.Some? && w2.value.deleted > 0 ==> w1.Some? && w2.value.deleted <= w1.value.deleted
    ensures Load(o2, p, m, w2) <= Load(o1, p, m, w1)
  {
    SubsetSize(Pending(o2, p, m, w2), Pending(o1, p, m, w1));
  }

  /** One DELETE: the key leaves the batch and the store and is counted later. */
  lemma DeleteMovesLoad(objects: set<Key>, p: ProjectId, m: MoveId, w: Worker, key: Key)
    requires key in w.batch && key !in w.listed && (key.prefix == ProjectPrefix(p) || key.prefix == MovePrefix(m))
    ensures Load(objects - {key}, p, m, Some(w.(batch := w.batch - {key}, deleted := w.deleted + 1))) ==
            Load(objects, p, m, Some(w))
  {
    var before := Pending(objects, p, m, Some(w));
    var after := Pending(objects - {key}, p, m, Some(w.(batch := w.batch - {key}, deleted := w.deleted + 1)));
    assert after == before - {key};
    assert key in before;
  }

  /** A batch taken from what was listed leaves the keys pending as they were. */
  lemma ClaimMovesLoad(objects: set<Key>, p: ProjectId, m: MoveId, w: Worker, n: nat)
    requires n <= |w.listed| && w.batch == {}
    ensures Pending(objects, p, m, Some(w.(pc := Deleting, batch := AsSet(w.listed[..n]), listed := w.listed[n..],
                  deleted := 0))) ==
            Pending(objects, p, m, Some(w))
  {
    assert w.listed == w.listed[..n] + w.listed[n..];
    assert AsSet(w.listed) == AsSet(w.listed[..n]) + AsSet(w.listed[n..]);
  }

  // ── every quiet step shrinks the work ──────────────────────────────────────

  predicate UnderPurge(db: Db, m: MoveId) {
    m in db.moves && db.moves[m].status == Aborting && db.moves[m].purge.Some?
  }

  /** The work did not grow, and it shrank if the restart count went down. */
  ghost predicate Shrinks(db: Db, next: Db, m: MoveId)
    requires UnderPurge(db, m)
  {
    UnderPurge(next, m) ==>
      Work(next, m) <= Work(db, m) &&
      (next.moves[m].purge.value.restarts < db.moves[m].purge.value.restarts ==> Work(next, m) < Work(db, m))
  }

  ghost predicate SameStage(db: Db, next: Db, m: MoveId)
    requires UnderPurge(db, m)
  {
    UnderPurge(next, m) && next.moves[m].project == db.moves[m].project &&
    var a, b := db.moves[m].purge.value, next.moves[m].purge.value;
    && b.phase == a.phase && b.cursor == a.cursor
    && Contents(next, next.moves[m].project) <= Contents(db, db.moves[m].project) && next.auditPages == db.auditPages
  }

  lemma SameStageShrinks(db: Db, next: Db, m: MoveId)
    requires UnderPurge(db, m) && SameStage(db, next, m) && LoadOf(next, m) <= LoadOf(db, m)
    requires next.moves[m].purge.value.restarts < db.moves[m].purge.value.restarts ==> LoadOf(next, m) < LoadOf(db, m)
    ensures Shrinks(db, next, m)
  {
  }

  predicate Leads(db: Db, m: MoveId, run: RunId) {
    UnderPurge(db, m) && db.moves[m].purge.value.run == run && run in db.workers && db.workers[run].move == m
  }

  /** A step of the leading worker alone. */
  lemma PutShrinks(db: Db, run: RunId, w: Worker, m: MoveId)
    requires Leads(db, m, run) && w.move == m && w.deleted <= db.workers[run].deleted
    requires forall k :: k in w.listed || k in w.batch ==>
               k in db.workers[run].listed || k in db.workers[run].batch
                 || k in Stored(db.objects, db.moves[m].project, m)
    ensures Shrinks(db, Put(db, run, w), m)
  {
    var next := Put(db, run, w);
    LoadShrinks(db.objects, Some(db.workers[run]), db.objects, Some(w), db.moves[m].project, m);
    SameStageShrinks(db, next, m);
  }

  lemma ListShrinks(db: Db, run: RunId, keys: seq<Key>, m: MoveId)
    requires Leads(db, m, run) && Tidy(db, db.workers[run]) && Legal(db, EList(run, keys))
    ensures Shrinks(db, List(db, run, keys), m)
  {
    var w := db.workers[run];
    if w.pc == Listing && w.prefixes != [] {
      forall k | k in keys
        ensures k in Stored(db.objects, db.moves[m].project, m)
      {
        assert OwnPrefix(db, m, w.prefixes[0]);
      }
      PutShrinks(db, run, List(db, run, keys).workers[run], m);
    }
  }

  lemma DeleteShrinks(db: Db, run: RunId, key: Key, m: MoveId)
    requires Leads(db, m, run) && Tidy(db, db.workers[run])
    ensures Shrinks(db, Delete(db, run, key), m)
  {
    var w := db.workers[run];
    if key in w.batch {
      var next := Delete(db, run, key);
      var p := db.moves[m].project;
      assert OwnPrefix(db, m, key.prefix);
      DeleteMovesLoad(db.objects, p, m, w, key);
      LoadShrinks(next.objects, Some(w.(batch := w.batch - {key}, deleted := w.deleted + 1)), next.objects,
                  Some(next.workers[run]), p, m);
      SameStageShrinks(db, next, m);
    }
  }

  /** A commit that counts what the worker deleted, followed by the worker's own step. */
  lemma CountShrinks(db: Db, run: RunId, w: Worker, now: int, m: MoveId)
    requires Leads(db, m, run) && w.move == m && w.deleted == 0
    requires Pending(db.objects, db.moves[m].project, m, Some(w)) <=
             Pending(db.objects, db.moves[m].project, m, Some(db.workers[run]))
    ensures Shrinks(db, Put(ClaimObjectBatch(db, m, run, db.workers[run].deleted, now), run, w), m)
  {
    var next := Put(ClaimObjectBatch(db, m, run, db.workers[run].deleted, now), run, w);
    SubsetSize(Pending(db.objects, db.moves[m].project, m, Some(w)),
               Pending(db.objects, db.moves[m].project, m, Some(db.workers[run])));
    SameStageShrinks(db, next, m);
  }

  lemma ClaimShrinks(db: Db, run: RunId, now: int, m: MoveId)
    requires Leads(db, m, run) && Tidy(db, db.workers[run])
    ensures Shrinks(db, Claim(db, run, now), m)
  {
    var w := db.workers[run];
    if w.pc == Claiming && w.prefixes != [] {
      var n := if |w.listed| < DELETE_BATCH then |w.listed| else DELETE_BATCH;
      ClaimMovesLoad(db.objects, db.moves[m].project, m, w, n);
      CountShrinks(db, run, Claim(db, run, now).workers[run], now, m);
    }
  }

  lemma PauseShrinks(db: Db, run: RunId, now: int, m: MoveId)
    requires Leads(db, m, run)
    ensures Shrinks(db, Pause(db, run, now), m)
  {
    if db.workers[run].pc == Planning {
      CountShrinks(db, run, db.workers[run].(deleted := 0), now, m);
    }
  }

  lemma FailShrinks(db: Db, run: RunId, error: PurgeError, now: int, m: MoveId)
    requires Leads(db, m, run)
    ensures Shrinks(db, Fail(db, run, error, now), m)
  {
    var next := Fail(db, run, error, now);
    LoadShrinks(db.objects, Some(db.workers[run]), db.objects, Some(next.workers[run]), db.moves[m].project, m);
    SameStageShrinks(db, next, m);
  }

  /** `finish` by the leading worker ends the purge, or does nothing. */
  lemma FinishShrinks(db: Db, run: RunId, now: int, m: MoveId)
    requires Leads(db, m, run)
    ensures Shrinks(db, FinishObjects(db, run, now), m) && Shrinks(db, FinishNoStorage(db, run, now), m)
  {
    var w := db.workers[run].(pc := Ended, deleted := 0);
    if !MayDeleteObjects(db, m, run) {
      PutShrinks(db, run, w, m);
    }
  }

  /** A link of the run in charge: rows or audit pages go, or the next phase begins. */
  lemma LinkShrinks(db: Db, m: MoveId, run: RunId, link: RowsLink, auditDeleted: nat, now: int)
    requires Good(db) && CurrentRun(db, m, run) && LinkFits(Contents(db, db.moves[m].project), link)
    ensures UnderPurge(db, m) && Shrinks(db, Step(db, m, run, link, auditDeleted, now), m)
  {
    var next := Step(db, m, run, link, auditDeleted, now);
    StepLinkFrame(db, m, run, link, auditDeleted, now);
    StepLinkKeepsRun(db, m, run, link, auditDeleted, now);
    assert GoodMove(db, m);
    NeverTaken(db, m);
    assert LoadOf(next, m) == LoadOf(db, m);
  }

  /** The cron: a fresh run starts with the keys that are stored. */
  lemma ResumeShrinks(db: Db, m: MoveId, now: int)
    requires Good(db) && UnderPurge(db, m)
    ensures Shrinks(db, Resume(db, m, now), m)
    ensures UnderPurge(Resume(db, m, now), m)
    ensures Resume(db, m, now).moves[m].purge.value.restarts ==
            db.moves[m].purge.value.restarts + (if CronRestarts(db, EResume(m, now), m) then 1 else 0)
  {
    var next := Resume(db, m, now);
    if CronRestarts(db, EResume(m, now), m) {
      assert db.nextRun !in db.workers;
      LoadShrinks(db.objects, InCharge(db, m), db.objects, None, db.moves[m].project, m);
      assert InCharge(next, m) == None;
    }
    hide Good, Load;
    SameStageShrinks(db, next, m);
  }

  /** A step of the move itself, or a (re)start of its purge. */
  predicate OfMoves(e: Event) {
    || e.EBegin? || e.EImportProject? || e.EImportRows? || e.ECommit? || e.EUncommit?
    || e.EAbort? || e.ERescue? || e.EResume?
  }

  lemma OtherRestarts(db: Db, e: Event, m: MoveId)
    requires m in db.moves && (e.EAbort? || e.ERescue? || e.EResume?) && e.move != m
    ensures m in Next(db, e).moves && Next(db, e).moves[m] == db.moves[m]
  {
    hide PurgeStalled;
  }

  lemma OtherMoves(db: Db, e: Event, m: MoveId)
    requires UnderPurge(db, m) && OfMoves(e)
    requires !(e.EAbort? && e.move == m) && !(e.ERescue? && e.move == m) && !(e.EResume? && e.move == m)
    ensures m in Next(db, e).moves && Next(db, e).moves[m] == db.moves[m]
  {
    if e.EAbort? || e.ERescue? || e.EResume? {
      hide Next;
      OtherRestarts(db, e, m);
    }
    hide Abort, Rescue, Resume;
  }

  lemma OthersWork(db: Db, e: Event, run: RunId, m: MoveId)
    requires UnderPurge(db, m) && !Leads(db, m, run) && StepOf(e, run)
    requires e.EClaim? || e.EPause? || e.EFinish? || e.EFinishNoStorage? || e.EFail?
    ensures m in Next(db, e).moves && Next(db, e).moves[m] == db.moves[m]
  {
    if run in db.workers {
      assert db.workers[run].move == m ==> !CurrentRun(db, m, run);
    }
  }

  /** Steps that are not the purge's own leave its row as it is. */
  lemma RowUntouched(db: Db, e: Event, m: MoveId)
    requires Good(db) && UnderPurge(db, m)
    requires !(e.EAbort? && e.move == m) && !(e.ERescue? && e.move == m) && !(e.EResume? && e.move == m)
    requires !(e.EStep? && CurrentRun(db, m, e.run) && e.move == m)
    requires !(StepOf(e, db.moves[m].purge.value.run) && Leads(db, m, db.moves[m].purge.value.run))
    ensures m in Next(db, e).moves && Next(db, e).moves[m] == db.moves[m]
  {
    hide Next;
    if e.EStep? {
      OwnLink(db, e);
      if CurrentRun(db, e.move, e.run) {
        StepLinkMoves(db, e.move, e.run, e.link, e.auditDeleted, e.now);
      }
    } else if Commits(e) {
      OthersWork(db, e, e.run, m);
    } else if OfMoves(e) {
      OtherMoves(db, e, m);
    } else {
      AllElseEvolves(db, e);
    }
  }

  /** Whatever else happens leaves the purge's work as it was, or smaller. */
  lemma AsideShrinks(db: Db, e: Event, m: MoveId)
    requires Good(db) && Legal(db, e) && UnderPurge(db, m) && Quiet(db, e, m)
    requires !(e.EResume? && e.move == m) && !(e.EStep? && CurrentRun(db, m, e.run) && e.move == m)
    requires !StepOf(e, db.moves[m].purge.value.run)
             || (db.moves[m].purge.value.run in db.workers && !Leads(db, m, db.moves[m].purge.value.run))
    ensures Shrinks(db, Next(db, e), m)
  {
    hide Next;
    var next := Next(db, e);
    var run := db.moves[m].purge.value.run;
    RowUntouched(db, e, m);
    NoRowsWhileAborting(db, e, m);
    Frame(db, e);
    if StepOf(e, run) {
      WorkerStays(db, e, run);
    }
    assert InCharge(next, m) == InCharge(db, m);
    var p := db.moves[m].project;
    assert Stored(next.objects, p, m) <= Stored(db.objects, p, m);
    LoadShrinks(db.objects, InCharge(db, m), next.objects, InCharge(next, m), p, m);
    SameStageShrinks(db, next, m);
  }

  lemma SpawnShrinks(db: Db, m: MoveId, run: RunId)
    requires UnderPurge(db, m) && run !in db.workers && db.moves[m].purge.value.run == run
    ensures forall o :: Shrinks(db, Next(db, ESpawn(o, run)), m)
  {
    forall o
      ensures Shrinks(db, Next(db, ESpawn(o, run)), m)
    {
      var next := Next(db, ESpawn(o, run));
      LoadShrinks(db.objects, None, next.objects, InCharge(next, m), db.moves[m].project, m);
      SameStageShrinks(db, next, m);
    }
  }

  /** Each step of the leading worker. */
  lemma PlanShrinks(db: Db, run: RunId, now: int, m: MoveId)
    requires Leads(db, m, run)
    ensures Shrinks(db, Plan(db, run, now), m) && Shrinks(db, BatchDone(db, run), m)
  {
    hide AllowedPrefixes;
    PutShrinks(db, run, Plan(db, run, now).workers[run], m);
    PutShrinks(db, run, BatchDone(db, run).workers[run], m);
  }

  lemma CrashShrinks(db: Db, run: RunId, m: MoveId)
    requires Leads(db, m, run)
    ensures Shrinks(db, Put(db, run, db.workers[run].(pc := Ended, deleted := 0)), m)
  {
    PutShrinks(db, run, db.workers[run].(pc := Ended, deleted := 0), m);
  }

  lemma LeaderCommitShrinks(db: Db, e: Event, m: MoveId, run: RunId)
    requires Leads(db, m, run) && Tidy(db, db.workers[run]) && StepOf(e, run) && Commits(e)
    ensures Shrinks(db, Next(db, e), m)
  {
    hide Tidy, Shrinks, Claim, Pause, FinishObjects, FinishNoStorage, Fail;
    match e
    case EClaim(_, now) => ClaimShrinks(db, run, now, m);
    case EPause(_, now) => PauseShrinks(db, run, now, m);
    case EFinish(_, now) => FinishShrinks(db, run, now, m);
    case EFinishNoStorage(_, now) => FinishShrinks(db, run, now, m);
    case EFail(_, error, now) => FailShrinks(db, run, error, now, m);
  }

  lemma LeaderShrinks(db: Db, e: Event, m: MoveId, run: RunId)
    requires Good(db) && AllTidy(db) && Legal(db, e) && Leads(db, m, run) && StepOf(e, run)
    ensures Shrinks(db, Next(db, e), m)
  {
    assert Tidy(db, db.workers[run]);
    if Commits(e) {
      hide Next;
      LeaderCommitShrinks(db, e, m, run);
    } else {
      hide Good, AllTidy, Tidy, Shrinks, Plan, List, Delete, BatchDone;
      match e
      case EPlan(_, now) => PlanShrinks(db, run, now, m);
      case EList(_, keys) => ListShrinks(db, run, keys, m);
      case EDelete(_, key) => DeleteShrinks(db, run, key, m);
      case EBatchDone(_) => PlanShrinks(db, run, 0, m);
      case ECrash(_) => CrashShrinks(db, run, m);
      case _ =>
    }
  }

  /**
   While nobody acts on a purge, no step adds to its work, and a commit that
   resets the restart count made the work strictly smaller.
   */
  lemma QuietShrinks(db: Db, e: Event, m: MoveId)
    requires Good(db) && AllTidy(db) && Legal(db, e) && UnderPurge(db, m) && Quiet(db, e, m)
    ensures Shrinks(db, Next(db, e), m)
  {
    hide Next;
    var run := db.moves[m].purge.value.run;
    if e.EResume? && e.move == m {
      OwnResume(db, e);
      ResumeShrinks(db, m, e.now);
    } else if e.EStep? && e.move == m && CurrentRun(db, m, e.run) {
      OwnLink(db, e);
      LinkShrinks(db, m, e.run, e.link, e.auditDeleted, e.now);
    } else if StepOf(e, run) && Leads(db, m, run) {
      LeaderShrinks(db, e, m, run);
    } else if StepOf(e, run) && run !in db.workers {
      SpawnShrinks(db, m, run);
    } else {
      AsideShrinks(db, e, m);
    }
  }

  lemma OwnResume(db: Db, e: Event)
    requires e.EResume?
    ensures Next(db, e) == Resume(db, e.move, e.now)
  {
  }

  lemma OwnLink(db: Db, e: Event)
    requires e.EStep?
    ensures Next(db, e) == Step(db, e.move, e.run, e.link, e.auditDeleted, e.now)
  {
  }

  // ── how often the cron restarts ────────────────────────────────────────────

  /** A step that made the work no larger, and spent a restart or not. */
  lemma SpentFromWork(db: Db, next: Db, m: MoveId, spent: nat)
    requires UnderPurge(db, m) && Shrinks(db, next, m) && spent <= 1
    requires spent == 1 ==>
               && UnderPurge(next, m) && db.moves[m].purge.value.restarts < MAX_RESTARTS
               && next.moves[m].purge.value.restarts == db.moves[m].purge.value.restarts + 1
    ensures RestartsLeft(next, m) + spent <= RestartsLeft(db, m)
  {
    hide Work;
  }

  /** Every quiet step spends no restart, and every restart spends one. */
  lemma RestartsAreSpent(db: Db, e: Event, m: MoveId)
    requires Good(db) && AllTidy(db) && Legal(db, e) && Cancelled(db, m) && Quiet(db, e, m)
    ensures RestartsLeft(Next(db, e), m) + (if CronRestarts(db, e, m) then 1 else 0) <= RestartsLeft(db, m)
  {
    hide Next;
    assert GoodMove(db, m);
    AlwaysEvolves(db, e, m);
    if db.moves[m].status == Aborting {
      QuietShrinks(db, e, m);
      if e.EResume? && e.move == m {
        OwnResume(db, e);
        ResumeShrinks(db, m, e.now);
      }
      hide Good, AllTidy, Legal, Quiet, Shrinks, RestartsLeft, Resume, PurgeStalled;
      SpentFromWork(db, Next(db, e), m, if CronRestarts(db, e, m) then 1 else 0);
    }
  }

  function Restarts(states: seq<Db>, events: seq<Event>, j: nat, k: nat, m: MoveId): nat
    requires j <= k <= |events| < |states|
    decreases k
  {
    if k == j then 0
    else Restarts(states, events, j, k - 1, m) + (if CronRestarts(states[k - 1], events[k - 1], m) then 1 else 0)
  }

  /**
   However long nobody acts on a cancelled move, the cron restarts its purge no
   more often than the work left when they stopped allows.
   */
  lemma {:induction false} CronStops(states: seq<Db>, events: seq<Event>, j: nat, k: nat, m: MoveId)
    requires Run(states, events) && states[0] == Empty && j <= k <= |events| && Cancelled(states[j], m)
    requires forall i :: j <= i < k && m in states[i].moves ==> Quiet(states[i], events[i], m)
    ensures Cancelled(states[k], m)
    ensures Restarts(states, events, j, k, m) + RestartsLeft(states[k], m) <= RestartsLeft(states[j], m)
    decreases k
  {
    hide Next, Quiet, RestartsLeft, Legal, Good, CronRestarts;
    if j < k {
      CronStops(states, events, j, k - 1, m);
      RunKeeps(states, events, k - 1);
      RunTidy(states, events, k - 1);
      CancelledStays(states[k - 1], events[k - 1], m);
      RestartsAreSpent(states[k - 1], events[k - 1], m);
    }
  }

  function RestartsOf(db: Db, m: MoveId): nat {
    if UnderPurge(db, m) then db.moves[m].purge.value.restarts else 0
  }

  /** A quiet step of a purge that is still under way and did not reset the count. */
  predicate NoReset(db: Db, e: Event, next: Db, m: MoveId) {
    UnderPurge(db, m) && UnderPurge(next, m) && Quiet(db, e, m) && RestartsOf(db, m) <= RestartsOf(next, m)
  }

  /** Between two commits that reset the count, the cron restarts at most `MAX_RESTARTS` times. */
  lemma {:induction false} RestartsInARow(states: seq<Db>, events: seq<Event>, j: nat, k: nat, m: MoveId)
    requires Run(states, events) && j <= k <= |events|
    requires forall i :: j <= i < k ==> NoReset(states[i], events[i], states[i + 1], m)
    ensures Restarts(states, events, j, k, m) + Patience(RestartsOf(states[k], m)) <= MAX_RESTARTS
    decreases k
  {
    hide Next;
    if j < k {
      RestartsInARow(states, events, j, k - 1, m);
      var db, e := states[k - 1], events[k - 1];
      RunKeeps(states, events, k - 1);
      assert NoReset(db, e, states[k - 1 + 1], m);
      if CronRestarts(db, e, m) {
        OwnResume(db, e);
        ResumeShrinks(db, m, e.now);
      }
    }
  }

  // ── a purge that stopped ───────────────────────────────────────────────────

  predicate HasStopped(db: Db, m: MoveId) {
    UnderPurge(db, m) && db.moves[m].purge.value.error.Some? && db.moves[m].purge.value.error.value.Stopped?
  }

  /** The cron leaves a stopped purge alone. */
  lemma StoppedIsNotResumed(db: Db, m: MoveId, now: int)
    requires HasStopped(db, m)
    ensures Resume(db, m, now) == db
  {
  }

  /** The leading run's worker, still at work, reports a passing failure over the stop. */
  predicate Overwrites(db: Db, e: Event, m: MoveId) {
    e.EFail? && Leads(db, m, e.run) && db.workers[e.run].pc != Ended && e.error.LinkFailed?
  }

  /** A stop is lost by one thing only while nobody acts on the move. */
  lemma StoppedStays(db: Db, e: Event, m: MoveId)
    requires Good(db) && Legal(db, e) && HasStopped(db, m) && Untouched(e, m) && UnderPurge(Next(db, e), m)
    ensures HasStopped(Next(db, e), m) <==> !Overwrites(db, e, m)
  {
    hide Next;
    var run := db.moves[m].purge.value.run;
    if e.EResume? && e.move == m {
      OwnResume(db, e);
    } else if e.EStep? && e.move == m && CurrentRun(db, m, e.run) {
      OwnLink(db, e);
      StoppedThroughLink(db, m, e.run, e.link, e.auditDeleted, e.now);
    } else if StepOf(e, run) && Leads(db, m, run) {
      StoppedThroughWorker(db, e, m, run);
    } else {
      RowUntouched(db, e, m);
    }
  }

  lemma StoppedThroughLink(db: Db, m: MoveId, run: RunId, link: RowsLink, auditDeleted: nat, now: int)
    requires HasStopped(db, m) && CurrentRun(db, m, run)
    ensures HasStopped(Step(db, m, run, link, auditDeleted, now), m)
  {
  }

  lemma StoppedThroughWorker(db: Db, e: Event, m: MoveId, run: RunId)
    requires HasStopped(db, m) && Leads(db, m, run) && StepOf(e, run) && Legal(db, e) && UnderPurge(Next(db, e), m)
    ensures HasStopped(Next(db, e), m) <==> !Overwrites(db, e, m)
  {
    match e
    case EClaim(_, now) =>
    case EPause(_, now) =>
    case EFinish(_, now) =>
    case EFinishNoStorage(_, now) =>
    case EFail(_, error, now) =>
    case _ => AllElseEvolves(db, e);
  }

  lemma OverwriteCounts(db: Db, e: Event, m: MoveId)
    requires Overwrites(db, e, m)
    ensures UnderPurge(Next(db, e), m)
    ensures Next(db, e).moves[m].purge == Some(db.moves[m].purge.value.(error := Some(e.error), updatedAt := e.now))
  {
  }

  lemma PurgedIsNotResumed(db: Db, m: MoveId, now: int)
    requires Cancelled(db, m)
    requires !UnderPurge(db, m) ==> db.moves[m].status == Purged
    requires UnderPurge(db, m) ==> HasStopped(db, m)
    ensures !CronRestarts(db, EResume(m, now), m)
  {
  }

  /**
   Exactly when the next pass of the cron restarts a purge that had stopped: the
   worker of its own run has just reported a passing failure over the stop, and
   the restart count is below its limit again (a stalled purge has reached it, so
   a claim that counted deleted keys must have come in between).
   */
  lemma RestartedExactlyWhen(db: Db, e: Event, m: MoveId, now: int)
    requires Good(db) && Legal(db, e) && HasStopped(db, m) && Untouched(e, m)
    ensures CronRestarts(Next(db, e), EResume(m, now), m) <==>
              Overwrites(db, e, m) && db.moves[m].purge.value.restarts < MAX_RESTARTS
  {
    hide Next;
    if Overwrites(db, e, m) {
      OverwriteCounts(db, e, m);
    } else {
      AlwaysEvolves(db, e, m);
      if UnderPurge(Next(db, e), m) {
        StoppedStays(db, e, m);
      }
      PurgedIsNotResumed(Next(db, e), m, now);
    }
  }

  /**
   Over any stretch in which nobody acts on it, a purge that stopped stays so if and only if its
   stop is never overwritten.
   */
  lemma {:induction false} StoppedUntilOverwritten(states: seq<Db>, events: seq<Event>, j: nat, k: nat, m: MoveId)
    requires Run(states, events) && j <= k <= |events| && HasStopped(states[j], m)
    requires forall i :: j <= i < k ==> Untouched(events[i], m)
    ensures Cancelled(states[k], m) && (!UnderPurge(states[k], m) ==> states[k].moves[m].status == Purged)
    ensures (forall i :: j <= i <= k && UnderPurge(states[i], m) ==> HasStopped(states[i], m)) <==>
              (forall i :: j <= i < k ==> !Overwrites(states[i], events[i], m))
    decreases k
  {
    hide Next, HasStopped, Overwrites;
    assert Cancelled(states[j], m) && UnderPurge(states[j], m) by {
      StoppedIsUnderPurge(states[j], m);
    }
    if j < k {
      StoppedUntilOverwritten(states, events, j, k - 1, m);
      var db, e := states[k - 1], events[k - 1];
      RunKeeps(states, events, k - 1);
      AlwaysEvolves(db, e, m);
      if Overwrites(db, e, m) {
        OverwriteLosesStop(db, e, m);
      } else if UnderPurge(db, m) && UnderPurge(states[k], m) && HasStopped(db, m) {
        StoppedStays(db, e, m);
      }
    }
  }

  lemma StoppedIsUnderPurge(db: Db, m: MoveId)
    requires HasStopped(db, m)
    ensures UnderPurge(db, m) && Cancelled(db, m)
  {
  }

  lemma OverwriteLosesStop(db: Db, e: Event, m: MoveId)
    requires Overwrites(db, e, m)
    ensures UnderPurge(Next(db, e), m) && !HasStopped(Next(db, e), m)
  {
    OverwriteCounts(db, e, m);
  }

  /** So a restart after a stop is always one the worker of the stopped run brought about. */
  lemma RestartAfterStop(states: seq<Db>, events: seq<Event>, j: nat, k: nat, m: MoveId) returns (i: nat)
    requires Run(states, events) && j <= k < |events| && HasStopped(states[j], m)
    requires forall i :: j <= i < k ==> Untouched(events[i], m)
    requires CronRestarts(states[k], events[k], m)
    ensures j <= i < k && Overwrites(states[i], events[i], m)
  {
    hide Next, Overwrites;
    StoppedUntilOverwritten(states, events, j, k, m);
    if forall i :: j <= i < k ==> !Overwrites(states[i], events[i], m) {
      PurgedIsNotResumed(states[k], m, events[k].now);
      assert false;
    }
    i :| j <= i < k && Overwrites(states[i], events[i], m);
  }

  /** The worker of the run in charge has ended: whoever looks at the backend can see that it has no action left. */
  predicate WorkerEnded(db: Db, m: MoveId) {
    UnderPurge(db, m) && Leads(db, m, db.moves[m].purge.value.run)
      && db.workers[db.moves[m].purge.value.run].pc == Ended
  }

  lemma EndedStays(db: Db, e: Event, run: RunId)
    requires run in db.workers && db.workers[run].pc == Ended
    ensures run in Next(db, e).workers
    ensures Next(db, e).workers[run].pc == Ended
    ensures Next(db, e).workers[run].move == db.workers[run].move
  {
    hide Next;
    if StepOf(e, run) {
      EndedDoesNothing(db, e, run);
    } else {
      Frame(db, e);
    }
  }

  lemma EndedDoesNothing(db: Db, e: Event, run: RunId)
    requires run in db.workers && db.workers[run].pc == Ended && StepOf(e, run)
    ensures Next(db, e).moves == db.moves && Next(db, e).projects == db.projects && Next(db, e).contents == db.contents
    ensures run in Next(db, e).workers
    ensures Next(db, e).workers[run].pc == Ended
    ensures Next(db, e).workers[run].move == db.workers[run].move
  {
  }

  lemma StoppedForGoodStep(db: Db, e: Event, m: MoveId)
    requires Good(db) && Legal(db, e) && HasStopped(db, m) && WorkerEnded(db, m) && Untouched(e, m)
    ensures HasStopped(Next(db, e), m) && WorkerEnded(Next(db, e), m)
  {
    hide Next;
    var run := db.moves[m].purge.value.run;
    EndedStays(db, e, run);
    if e.EResume? && e.move == m {
      OwnResume(db, e);
      StoppedIsNotResumed(db, m, e.now);
    } else if e.EStep? && e.move == m && CurrentRun(db, m, e.run) {
      OwnLink(db, e);
      StepLinkKeepsRun(db, m, e.run, e.link, e.auditDeleted, e.now);
      StoppedThroughLink(db, m, e.run, e.link, e.auditDeleted, e.now);
    } else if StepOf(e, run) {
      EndedDoesNothing(db, e, run);
    } else {
      RowUntouched(db, e, m);
    }
  }

  /** A stop whose worker has ended lasts until somebody acts on the move, whatever else happens. */
  lemma {:induction false} StoppedForGood(states: seq<Db>, events: seq<Event>, j: nat, k: nat, m: MoveId)
    requires Run(states, events) && j <= k <= |events| && HasStopped(states[j], m) && WorkerEnded(states[j], m)
    requires forall i :: j <= i < k ==> Untouched(events[i], m)
    ensures HasStopped(states[k], m) && WorkerEnded(states[k], m)
    ensures k < |events| ==> !CronRestarts(states[k], events[k], m)
    decreases k
  {
    hide Next;
    if j < k {
      StoppedForGood(states, events, j, k - 1, m);
      RunKeeps(states, events, k - 1);
      StoppedForGoodStep(states[k - 1], events[k - 1], m);
    }
  }

  // ── what finishing means ───────────────────────────────────────────────────

  /** The prefixes of `all` that a worker has found empty, when it has `left` to list. */
  ghost predicate FoundEmpty(objects: set<Key>, all: seq<Prefix>, left: seq<Prefix>) {
    |left| <= |all| && left == all[|all| - |left|..] &&
    forall k :: k in objects ==> k.prefix !in all[..|all| - |left|]
  }

  /** One step of a worker that has planned `all` and nothing uploaded under it since. */
  lemma ListingGoesOn(db: Db, e: Event, run: RunId, all: seq<Prefix>)
    requires Legal(db, e) && run in db.workers && !(e.EPlan? && e.run == run)
    requires e.EUpload? ==> e.key.prefix !in all
    requires db.workers[run].pc in {Listing, Finishing} ==> FoundEmpty(db.objects, all, db.workers[run].prefixes)
                                                             && (db.workers[run].pc == Finishing ==>
                                                                  db.workers[run].prefixes == [])
    ensures run in Next(db, e).workers
    ensures var w := Next(db, e).workers[run];
            w.pc in {Listing, Finishing} ==>
              FoundEmpty(Next(db, e).objects, all, w.prefixes) && (w.pc == Finishing ==> w.prefixes == [])
  {
    hide Next;
    WorkerStays(db, e, run);
    var next := Next(db, e);
    Frame(db, e);
    if StepOf(e, run) {
      ListedOn(db, e, run, all);
    }
  }

  lemma ListedNext(db: Db, run: RunId, keys: seq<Key>, all: seq<Prefix>)
    requires run in db.workers && Legal(db, EList(run, keys))
    requires db.workers[run].pc in {Listing, Finishing} ==> FoundEmpty(db.objects, all, db.workers[run].prefixes)
                                                             && (db.workers[run].pc == Finishing ==>
                                                                  db.workers[run].prefixes == [])
    ensures run in List(db, run, keys).workers
    ensures var w := List(db, run, keys).workers[run];
            w.pc in {Listing, Finishing} ==>
              FoundEmpty(db.objects, all, w.prefixes) && (w.pc == Finishing ==> w.prefixes == [])
  {
    var w := db.workers[run];
    if w.pc == Listing && w.prefixes != [] && keys == [] {
      var n := |all| - |w.prefixes|;
      assert all[..n + 1] == all[..n] + [w.prefixes[0]];
      assert w.prefixes[1..] == all[n + 1..];
    }
  }

  lemma ListedOn(db: Db, e: Event, run: RunId, all: seq<Prefix>)
    requires Legal(db, e) && StepOf(e, run) && run in db.workers && !e.EPlan? && !e.ESpawn?
    requires db.workers[run].pc in {Listing, Finishing} ==> FoundEmpty(db.objects, all, db.workers[run].prefixes)
                                                             && (db.workers[run].pc == Finishing ==>
                                                                  db.workers[run].prefixes == [])
    ensures run in Next(db, e).workers
    ensures var w := Next(db, e).workers[run];
            w.pc in {Listing, Finishing} ==>
              FoundEmpty(db.objects, all, w.prefixes) && (w.pc == Finishing ==> w.prefixes == [])
  {
    if e.EList? {
      ListedNext(db, run, e.keys, all);
    }
    hide List, FoundEmpty, ClaimObjectBatch, Finish, RecordError;
  }

  /**
   A worker that reaches `finish` with no upload since its plan found every planned prefix empty,
   and they still are.
   */
  lemma {:induction false} FinishFindsNothing(states: seq<Db>, events: seq<Event>, j: nat, k: nat, run: RunId,
          all: seq<Prefix>)
    requires Run(states, events) && j <= k <= |events|
    requires run in states[j].workers && states[j].workers[run].pc == Listing && states[j].workers[run].prefixes == all
    requires forall i :: j <= i < k ==>
             !(events[i].EPlan? && events[i].run == run) && (events[i].EUpload? ==> events[i].key.prefix !in all)
    ensures run in states[k].workers
    ensures states[k].workers[run].pc in {Listing, Finishing} ==>
            FoundEmpty(states[k].objects, all, states[k].workers[run].prefixes)
    ensures states[k].workers[run].pc == Finishing ==>
              states[k].workers[run].prefixes == [] && forall key :: key in states[k].objects ==> key.prefix !in all
    decreases k
  {
    hide Next;
    if j < k {
      FinishFindsNothing(states, events, j, k - 1, run, all);
      ListingGoesOn(states[k - 1], events[k - 1], run, all);
    }
    assert all[..|all|] == all;
  }
}
