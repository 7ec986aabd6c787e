/**
 Moving one project into a Workspace, and purging a move that was cancelled.

 A move is reserved, takes rows, is committed (its project is shown) and may be
 rolled back; a cancelled one is `Aborting` until a chain of links has deleted
 its rows, its audit rows and its objects, and ends `Purged`. Every (re)start of
 the purge mints a run; the object worker of a run is a small program whose
 steps interleave with everything else, and whose requests may land late.
 */
module ProjectMove {
  import opened Wrappers
  import PurgeDrain

  const MAX_RESTARTS := 5
  const STALL_MS := 600_000
  const OBJECTS_AFTER_ABORT_MS := 1_800_000
  const DELETE_BATCH := 8
  const S3_LIST_MAX_KEYS := 1_000

  type MoveId = nat
  type ProjectId = nat
  type WorkspaceId = nat
  type RunId = nat

  datatype Status = Reserved | Importing | Committed | Aborting | Purged
  datatype Phase = RowsPhase | AuditPhase | ObjectsPhase
  datatype PurgeError = Stopped(code: string) | LinkFailed(code: string)
  datatype Skip = IdTaken | NoStorage

  datatype Purge = Purge(
    run: RunId, phase: Phase, cursor: nat, rows: nat, objects: nat,
    skipped: Option<Skip>, error: Option<PurgeError>, restarts: nat, updatedAt: int)

  datatype Move = Move(
    project: ProjectId, workspace: WorkspaceId, manifest: nat, status: Status,
    updatedAt: int, abortedAt: Option<int>, uncommittedAt: Option<int>, purge: Option<Purge>)

  datatype Project = Project(workspace: WorkspaceId, hidden: bool, deleted: bool)

  datatype Prefix = ProjectPrefix(project: ProjectId) | MovePrefix(move: MoveId)
  datatype Key = Key(prefix: Prefix, name: nat)

  datatype Pc = Planning | Listing | Claiming | Deleting | Finishing | Ended

  /** The object worker of one run: `batch` is claimed and not yet deleted, `deleted` not yet counted. */
  datatype Worker = Worker(
    move: MoveId, pc: Pc, plannedAt: int, prefixes: seq<Prefix>, listed: seq<Key>, batch: set<Key>, deleted: nat)

  /**
   The tables and the object store. `contents` counts the rows under a project,
   `auditPages` the pages of the Workspace's audit log; `everShown` remembers
   which moves were ever committed.
   */
  datatype Db = Db(
    moves: map<MoveId, Move>, projects: map<ProjectId, Project>, contents: map<ProjectId, nat>, auditPages: nat,
    objects: set<Key>, workers: map<RunId, Worker>, nextRun: RunId, everShown: set<MoveId>)

  // ── reading ────────────────────────────────────────────────────────────────

  predicate Open(status: Status) {
    status in {Reserved, Importing}
  }

  function Contents(db: Db, p: ProjectId): nat {
    if p in db.contents then db.contents[p] else 0
  }

  predicate Shown(db: Db, p: ProjectId) {
    p in db.projects && !db.projects[p].hidden
  }

  predicate CurrentRun(db: Db, m: MoveId, run: RunId) {
    m in db.moves && db.moves[m].status == Aborting && db.moves[m].purge.Some? && db.moves[m].purge.value.run == run
  }

  datatype Holder = Nobody | Ours | Taken

  /** Who holds a move's project id, as the purge reads it. */
  function HiddenProject(db: Db, move: Move): Holder {
    if move.project !in db.projects then Nobody
    else if db.projects[move.project].hidden && db.projects[move.project].workspace == move.workspace &&
            (forall o :: o in db.moves && db.moves[o].project == move.project ==> db.moves[o].status != Committed)
    then Ours else Taken
  }

  function NotBefore(move: Move): int {
    (if move.abortedAt.Some? then move.abortedAt.value else move.updatedAt) + OBJECTS_AFTER_ABORT_MS
  }

  function AllowedPrefixes(db: Db, m: MoveId): seq<Prefix>
    requires m in db.moves
  {
    var move := db.moves[m];
    (if move.project !in db.projects && (move.purge.None? || move.purge.value.skipped != Some(IdTaken))
     then [ProjectPrefix(move.project)] else []) + [MovePrefix(m)]
  }

  predicate PurgeStalled(move: Move, now: int) {
    && move.status == Aborting
    && (move.purge.None?
        || (var purge := move.purge.value;
            if purge.error.Some? then purge.error.value.LinkFailed?
            else
              var since := if purge.phase == ObjectsPhase && NotBefore(move) > purge.updatedAt then NotBefore(move)
                  else purge.updatedAt;
              now - since >= STALL_MS))
  }

  // ── begin, rows, commit, uncommit ──────────────────────────────────────────

  predicate MayBegin(db: Db, m: MoveId, p: ProjectId) {
    m !in db.moves && p !in db.projects
      && forall o :: o in db.moves && db.moves[o].project == p ==> db.moves[o].status == Purged
  }

  function Begin(db: Db, m: MoveId, p: ProjectId, w: WorkspaceId, manifest: nat, now: int): Db {
    if MayBegin(db, m, p)
    then db.(moves := db.moves[m := Move(p, w, manifest, Reserved, now, None, None, None)])
    else db
  }

  datatype BeginAnswer = Status(status: Status) | MoveConflict | ImportInProgress | AlreadyMigrated

  /** A move id answers its own status to the same reservation again, and a conflict to any other. */
  function BeginAnswerTo(db: Db, m: MoveId, p: ProjectId, w: WorkspaceId, manifest: nat): BeginAnswer {
    if m in db.moves then
      var move := db.moves[m];
      if move.project == p && move.workspace == w && move.manifest == manifest then Status(move.status)
      else MoveConflict
    else if exists o ::
              o in db.moves && db.moves[o].project == p && db.moves[o].status in {Reserved, Importing, Aborting}
    then ImportInProgress
    else if p in db.projects
            || exists o :: o in db.moves && db.moves[o].project == p && db.moves[o].status == Committed
    then AlreadyMigrated
    else Status(Reserved)
  }

  /** The project row of a move: inserted hidden, unless the id is held. */
  function ImportProject(db: Db, m: MoveId, now: int): Db {
    if m in db.moves && Open(db.moves[m].status) && db.moves[m].project !in db.projects then
      var move := db.moves[m];
      db.(moves := db.moves[m := move.(status := Importing, updatedAt := now)],
          projects := db.projects[move.project := Project(move.workspace, true, false)])
    else db
  }

  /** Whether a move's rows land: it is open, and its project is stored and still hidden under it. */
  predicate TakesRows(db: Db, m: MoveId) {
    && m in db.moves && Open(db.moves[m].status) && db.moves[m].project in db.projects
    && db.projects[db.moves[m].project] == Project(db.moves[m].workspace, true, false)
  }

  function ImportRows(db: Db, m: MoveId, inserted: nat, now: int): Db {
    if TakesRows(db, m) && inserted > 0 then
      var move := db.moves[m];
      db.(moves := db.moves[m := move.(status := Importing, updatedAt := now)],
          contents := db.contents[move.project := Contents(db, move.project) + inserted])
    else db
  }

  /** `verified`: every stream's accumulator equals the manifest's promise (`ImportDigest`). */
  function Commit(db: Db, m: MoveId, manifest: nat, verified: bool, now: int): Db {
    if TakesRows(db, m) && db.moves[m].manifest == manifest && verified then
      var move := db.moves[m];
      db.(moves := db.moves[m := move.(status := Committed, updatedAt := now)],
          projects := db.projects[move.project := db.projects[move.project].(hidden := false)],
          everShown := db.everShown + {m})
    else db
  }

  function Uncommit(db: Db, m: MoveId, changed: bool, confirmed: bool, now: int): Db {
    if m in db.moves && db.moves[m].status == Committed && db.moves[m].project in db.projects &&
       !db.projects[db.moves[m].project].deleted
         && db.projects[db.moves[m].project].workspace == db.moves[m].workspace &&
       (changed ==> confirmed)
    then
      var move := db.moves[m];
      db.(moves := db.moves[m := move.(status := Importing, updatedAt := now, uncommittedAt := Some(now))],
          projects := db.projects[move.project := db.projects[move.project].(hidden := true)])
    else db
  }

  // ── abort and the purge's links ────────────────────────────────────────────

  function FreshPurge(now: int): Purge {
    Purge(0, RowsPhase, 0, 0, 0, None, None, 0, now)
  }

  function SchedulePurge(db: Db, m: MoveId, byCron: bool, now: int): Db
    requires m in db.moves
  {
    var move := db.moves[m];
    var purge := if move.purge.Some? then move.purge.value else FreshPurge(now);
    var restarts := if byCron then purge.restarts + 1 else 0;
    var restarted := purge.(run := db.nextRun, error := None, restarts := restarts, updatedAt := now);
    db.(moves := db.moves[m := move.(purge := Some(restarted))], nextRun := db.nextRun + 1)
  }

  function Abort(db: Db, m: MoveId, now: int): Db {
    if m !in db.moves then db
    else
      var move := db.moves[m];
      if move.status == Aborting then
        if (move.purge.Some? && move.purge.value.error.Some?) || PurgeStalled(move, now)
        then SchedulePurge(db, m, false, now) else db
      else if Open(move.status) then
        SchedulePurge(db.(moves := db.moves[m := move.(status := Aborting, updatedAt := now, abortedAt := Some(now))]),
                      m, false, now)
      else db
  }

  /** The operator's abort: also restarts a purge that is under way. */
  function Rescue(db: Db, m: MoveId, now: int): Db {
    if m in db.moves && (Open(db.moves[m].status) || db.moves[m].status == Aborting) then
      var move := db.moves[m];
      var abortedAt := if move.abortedAt.Some? then move.abortedAt else Some(now);
      SchedulePurge(db.(moves := db.moves[m := move.(status := Aborting, updatedAt := now, abortedAt := abortedAt)]),
                    m, false, now)
    else db
  }

  function Save(db: Db, m: MoveId, purge: Purge): Db
    requires m in db.moves
  {
    db.(moves := db.moves[m := db.moves[m].(purge := Some(purge))])
  }

  /** What one rows-phase link did: `PurgeDrain.Link`'s outcome and how many rows it deleted. */
  datatype RowsLink = RowsLink(deleted: nat, outcome: PurgeDrain.Outcome)

  predicate LinkFits(contents: nat, link: RowsLink) {
    && link.deleted <= contents
    && (link.outcome == PurgeDrain.Drained ==> link.deleted == contents)
    && (link.outcome == PurgeDrain.OutOfBudget ==> link.deleted >= 1)
  }

  function Step(db: Db, m: MoveId, run: RunId, link: RowsLink, auditDeleted: nat, now: int): Db {
    if !CurrentRun(db, m, run) then db
    else
      var move := db.moves[m];
      var purge := move.purge.value.(updatedAt := now);
      var toObjects := purge.(phase := ObjectsPhase, cursor := 0);
      var holder := HiddenProject(db, move);
      if purge.phase == ObjectsPhase || holder == Nobody then Save(db, m, toObjects)
      else if holder == Taken then Save(db, m, toObjects.(skipped := Some(IdTaken)))
      else if purge.phase == RowsPhase then
        var left := Contents(db, move.project) - link.deleted;
        var emptied := db.(contents := db.contents[move.project := if left < 0 then 0 else left]);
        var counted := purge.(rows := purge.rows + link.deleted);
        if link.outcome.Foreign? then Save(emptied, m, counted.(error := Some(Stopped("foreign_row"))))
        else if link.outcome == PurgeDrain.Drained
             then Save(emptied, m, counted.(phase := AuditPhase, cursor := 0, restarts := 0))
        else Save(emptied, m, counted.(restarts := 0))
      else if purge.cursor + 1 < db.auditPages then
        Save(db, m, purge.(rows := purge.rows + auditDeleted, cursor := purge.cursor + 1, restarts := 0))
      else
        Save(db.(projects := db.projects - {move.project}), m,
             toObjects.(rows := purge.rows + auditDeleted + 1, restarts := 0))
  }

  function RecordError(db: Db, m: MoveId, run: RunId, error: PurgeError, now: int): Db {
    if !CurrentRun(db, m, run) then db
    else Save(db, m, db.moves[m].purge.value.(error := Some(error), updatedAt := now))
  }

  predicate MayDeleteObjects(db: Db, m: MoveId, run: RunId) {
    CurrentRun(db, m, run) && db.moves[m].purge.value.phase == ObjectsPhase
  }

  predicate ClaimAnswer(db: Db, m: MoveId, run: RunId, prefix: Prefix) {
    MayDeleteObjects(db, m, run) && prefix in AllowedPrefixes(db, m)
  }

  function ClaimObjectBatch(db: Db, m: MoveId, run: RunId, deleted: nat, now: int): Db {
    if !MayDeleteObjects(db, m, run) then db
    else
      var purge := db.moves[m].purge.value;
      var restarts := if deleted > 0 then 0 else purge.restarts;
      Save(db, m, purge.(objects := purge.objects + deleted, restarts := restarts, updatedAt := now))
  }

  function Finish(db: Db, m: MoveId, run: RunId, deleted: nat, noStorage: bool, now: int): Db {
    if !MayDeleteObjects(db, m, run) then db
    else
      var purge := db.moves[m].purge.value;
      var skipped := if purge.skipped.Some? then purge.skipped else if noStorage then Some(NoStorage) else None;
      var done := purge.(objects := purge.objects + deleted, skipped := skipped, error := None, updatedAt := now);
      db.(moves := db.moves[m := db.moves[m].(status := Purged, updatedAt := now, purge := Some(done))])
  }

  /** What the cron does to one row. */
  function Resume(db: Db, m: MoveId, now: int): Db {
    if m !in db.moves || !PurgeStalled(db.moves[m], now) then db
    else if db.moves[m].purge.Some? && db.moves[m].purge.value.restarts >= MAX_RESTARTS
    then Save(db, m, db.moves[m].purge.value.(error := Some(Stopped("stalled")), updatedAt := now))
    else SchedulePurge(db, m, true, now)
  }

  // ── the object worker of a run, step by step ───────────────────────────────

  function Put(db: Db, run: RunId, worker: Worker): Db {
    db.(workers := db.workers[run := worker])
  }

  function Plan(db: Db, run: RunId, now: int): Db
    requires run in db.workers
  {
    var w := db.workers[run];
    if w.pc != Planning then db
    else if !MayDeleteObjects(db, w.move, run) then Put(db, run, w.(pc := Ended))
    else if now < NotBefore(db.moves[w.move]) then db
    else Put(db, run, w.(pc := Listing, plannedAt := now, prefixes := AllowedPrefixes(db, w.move), listed := []))
  }

  /** A page of the store's list of `prefix`. */
  ghost predicate IsPage(db: Db, prefix: Prefix, keys: seq<Key>) {
    && (forall k :: k in keys ==> k in db.objects && k.prefix == prefix)
    && (forall i, j :: 0 <= i < j < |keys| ==> keys[i] != keys[j])
    && |keys| <= S3_LIST_MAX_KEYS
    && (keys == [] ==> forall k :: k in db.objects ==> k.prefix != prefix)
  }

  function List(db: Db, run: RunId, keys: seq<Key>): Db
    requires run in db.workers
  {
    var w := db.workers[run];
    if w.pc != Listing || w.prefixes == [] then db
    else if keys != [] then Put(db, run, w.(pc := Claiming, listed := keys))
    else Put(db, run, w.(prefixes := w.prefixes[1..], pc := if |w.prefixes| == 1 then Finishing else Listing))
  }

  function AsSet(keys: seq<Key>): set<Key> {
    set k | k in keys
  }

  function Claim(db: Db, run: RunId, now: int): Db
    requires run in db.workers
  {
    var w := db.workers[run];
    if w.pc != Claiming || w.prefixes == [] then db
    else
      var counted := ClaimObjectBatch(db, w.move, run, w.deleted, now);
      if !ClaimAnswer(db, w.move, run, w.prefixes[0])
      then Put(counted, run, w.(pc := Ended, listed := [], deleted := 0))
      else
        var n := if |w.listed| < DELETE_BATCH then |w.listed| else DELETE_BATCH;
        Put(counted, run, w.(pc := Deleting, batch := AsSet(w.listed[..n]), listed := w.listed[n..], deleted := 0))
  }

  /** One DELETE of a claimed key lands; it may land after its worker has ended. */
  function Delete(db: Db, run: RunId, key: Key): Db
    requires run in db.workers
  {
    var w := db.workers[run];
    if key !in w.batch then db
    else Put(db.(objects := db.objects - {key}), run,
             w.(batch := w.batch - {key}, deleted := if w.pc == Deleting then w.deleted + 1 else w.deleted))
  }

  function BatchDone(db: Db, run: RunId): Db
    requires run in db.workers
  {
    var w := db.workers[run];
    if w.pc != Deleting || w.batch != {} then db
    else Put(db, run, w.(pc := if w.listed == [] then Planning else Claiming))
  }

  /** After its pages the worker counts what it deleted and schedules itself again. */
  function Pause(db: Db, run: RunId, now: int): Db
    requires run in db.workers
  {
    var w := db.workers[run];
    if w.pc != Planning then db
    else Put(ClaimObjectBatch(db, w.move, run, w.deleted, now), run, w.(deleted := 0))
  }

  function FinishObjects(db: Db, run: RunId, now: int): Db
    requires run in db.workers
  {
    var w := db.workers[run];
    if w.pc != Finishing then db
    else Put(Finish(db, w.move, run, w.deleted, false, now), run, w.(pc := Ended, deleted := 0))
  }

  function FinishNoStorage(db: Db, run: RunId, now: int): Db
    requires run in db.workers
  {
    var w := db.workers[run];
    if w.pc != Planning then db
    else Put(Finish(db, w.move, run, 0, true, now), run, w.(pc := Ended, deleted := 0))
  }

  /** The worker reports why it failed, and ends: once, since it is over after that. */
  function Fail(db: Db, run: RunId, error: PurgeError, now: int): Db
    requires run in db.workers
  {
    var w := db.workers[run];
    if w.pc == Ended then db
    else Put(RecordError(db, w.move, run, error, now), run, w.(pc := Ended, deleted := 0))
  }

  // ── every event ────────────────────────────────────────────────────────────

  datatype Event =
    | EBegin(move: MoveId, project: ProjectId, workspace: WorkspaceId, manifest: nat, now: int)
    | EImportProject(move: MoveId, now: int)
    | EImportRows(move: MoveId, inserted: nat, now: int)
    | ECommit(move: MoveId, manifest: nat, verified: bool, now: int)
    | EUncommit(move: MoveId, changed: bool, confirmed: bool, now: int)
    | EAbort(move: MoveId, now: int)
    | ERescue(move: MoveId, now: int)
    | ECreateProject(project: ProjectId, workspace: WorkspaceId)
    | ESharedWrite(project: ProjectId, written: nat)
    | EDeleteProject(project: ProjectId)
    | EMoveWorkspace(project: ProjectId, workspace: WorkspaceId)
    | EAuditGrows(pages: nat)
    | EUpload(key: Key)
    | EStep(move: MoveId, run: RunId, link: RowsLink, auditDeleted: nat, now: int)
    | EResume(move: MoveId, now: int)
    | ESpawn(move: MoveId, run: RunId)
    | EPlan(run: RunId, now: int)
    | EList(run: RunId, keys: seq<Key>)
    | EClaim(run: RunId, now: int)
    | EDelete(run: RunId, key: Key)
    | EBatchDone(run: RunId)
    | EPause(run: RunId, now: int)
    | EFinish(run: RunId, now: int)
    | EFinishNoStorage(run: RunId, now: int)
    | EFail(run: RunId, error: PurgeError, now: int)
    | ECrash(run: RunId)

  /** What the platform and the drain guarantee of an event. */
  ghost predicate Legal(db: Db, e: Event) {
    match e
    case EStep(m, run, link, _, _) => m in db.moves ==> LinkFits(Contents(db, db.moves[m].project), link)
    case ESpawn(m, run) =>
      run !in db.workers && run < db.nextRun && (CurrentRun(db, m, run) ==>
          db.moves[m].purge.value.phase == ObjectsPhase)
    case EList(run, keys) =>
      run in db.workers && (db.workers[run].pc == Listing && db.workers[run].prefixes != [] ==>
          IsPage(db, db.workers[run].prefixes[0], keys))
    case EPlan(run, _) => run in db.workers
    case EClaim(run, _) => run in db.workers
    case EDelete(run, _) => run in db.workers
    case EBatchDone(run) => run in db.workers
    case EPause(run, _) => run in db.workers
    case EFinish(run, _) => run in db.workers
    case EFinishNoStorage(run, _) => run in db.workers
    case EFail(run, _, _) => run in db.workers
    case ECrash(run) => run in db.workers
    case _ => true
  }

  function Next(db: Db, e: Event): Db {
    match e
    case EBegin(m, p, w, manifest, now) => Begin(db, m, p, w, manifest, now)
    case EImportProject(m, now) => ImportProject(db, m, now)
    case EImportRows(m, inserted, now) => ImportRows(db, m, inserted, now)
    case ECommit(m, manifest, verified, now) => Commit(db, m, manifest, verified, now)
    case EUncommit(m, changed, confirmed, now) => Uncommit(db, m, changed, confirmed, now)
    case EAbort(m, now) => Abort(db, m, now)
    case ERescue(m, now) => Rescue(db, m, now)
    case ECreateProject(p, w) =>
      if p in db.projects || (exists o :: o in db.moves && db.moves[o].project == p) then db
      else db.(projects := db.projects[p := Project(w, false, false)])
    case ESharedWrite(p, written) =>
      if Shown(db, p) then db.(contents := db.contents[p := Contents(db, p) + written]) else db
    case EDeleteProject(p) =>
      if Shown(db, p) then db.(projects := db.projects[p := db.projects[p].(deleted := true)]) else db
    case EMoveWorkspace(p, w) =>
      if Shown(db, p) then db.(projects := db.projects[p := db.projects[p].(workspace := w)]) else db
    case EAuditGrows(pages) => db.(auditPages := db.auditPages + pages)
    case EUpload(key) => db.(objects := db.objects + {key})
    case EStep(m, run, link, auditDeleted, now) => Step(db, m, run, link, auditDeleted, now)
    case EResume(m, now) => Resume(db, m, now)
    case ESpawn(m, run) => if run in db.workers then db else Put(db, run, Worker(m, Planning, 0, [], [], {}, 0))
    case EPlan(run, now) => if run in db.workers then Plan(db, run, now) else db
    case EList(run, keys) => if run in db.workers then List(db, run, keys) else db
    case EClaim(run, now) => if run in db.workers then Claim(db, run, now) else db
    case EDelete(run, key) => if run in db.workers then Delete(db, run, key) else db
    case EBatchDone(run) => if run in db.workers then BatchDone(db, run) else db
    case EPause(run, now) => if run in db.workers then Pause(db, run, now) else db
    case EFinish(run, now) => if run in db.workers then FinishObjects(db, run, now) else db
    case EFinishNoStorage(run, now) => if run in db.workers then FinishNoStorage(db, run, now) else db
    case EFail(run, error, now) => if run in db.workers then Fail(db, run, error, now) else db
    case ECrash(run) => if run in db.workers then Put(db, run, db.workers[run].(pc := Ended, deleted := 0)) else db
  }

  ghost predicate Run(states: seq<Db>, events: seq<Event>) {
    && |states| == |events| + 1
    && Good(states[0])
    && forall i :: 0 <= i < |events| ==> Legal(states[i], events[i]) && states[i + 1] == Next(states[i], events[i])
  }

  // ── the invariant ──────────────────────────────────────────────────────────

  /** Nothing moved, nothing stored. */
  const Empty: Db := Db(map[], map[], map[], 1, {}, map[], 1, {})

  /** What holds of one move and the project it names. */
  predicate GoodMove(db: Db, m: MoveId)
    requires m in db.moves
  {
    var move := db.moves[m];
    var p := move.project;
    && (move.status != Purged ==> (Shown(db, p) <==> move.status == Committed))
    && (move.status == Reserved ==> p !in db.projects)
    && (move.status == Importing ==> p in db.projects)
    && (move.status != Purged && p in db.projects && db.projects[p].hidden ==>
          db.projects[p].workspace == move.workspace && !db.projects[p].deleted)
    && (move.purge.Some? <==> move.status in {Aborting, Purged})
    && (move.abortedAt.Some? <==> move.status in {Aborting, Purged})
    && (move.purge.Some? ==> 0 < move.purge.value.run < db.nextRun)
    && (move.status == Aborting && move.purge.value.phase != RowsPhase ==> Contents(db, p) == 0)
    && (move.status == Aborting && move.purge.value.phase == ObjectsPhase ==> p !in db.projects)
    && (move.status == Committed ==> m in db.everShown)
    && (Open(move.status) && m in db.everShown ==> move.uncommittedAt.Some?)
  }

  /** At most one move that is not purged holds a project id. */
  ghost predicate OneHolder(db: Db) {
    forall m, o :: m in db.moves && o in db.moves && m != o && db.moves[m].project == db.moves[o].project ==>
      db.moves[m].status == Purged || db.moves[o].status == Purged
  }

  predicate HasHolder(db: Db, p: ProjectId) {
    exists m :: m in db.moves && db.moves[m].project == p && db.moves[m].status != Purged
  }

  ghost predicate GoodProjects(db: Db) {
    && (forall p :: p in db.projects && db.projects[p].hidden ==> HasHolder(db, p))
    && (forall p :: p in db.contents && db.contents[p] > 0 ==> p in db.projects)
    && (forall m :: m in db.everShown ==> m in db.moves)
  }

  predicate GoodWorker(db: Db, run: RunId)
    requires run in db.workers
  {
    var w := db.workers[run];
    && run < db.nextRun
    && |w.batch| <= DELETE_BATCH
    && (w.pc in {Listing, Claiming, Deleting, Finishing} || w.batch != {} ==>
          && w.move in db.moves && db.moves[w.move].abortedAt.Some?
          && db.moves[w.move].abortedAt.value + OBJECTS_AFTER_ABORT_MS <= w.plannedAt)
  }

  ghost predicate Good(db: Db) {
    && (forall m :: m in db.moves ==> GoodMove(db, m))
    && OneHolder(db)
    && GoodProjects(db)
    && (forall run :: run in db.workers ==> GoodWorker(db, run))
    && 0 < db.nextRun
  }
}
