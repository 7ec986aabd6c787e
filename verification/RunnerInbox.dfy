/**
 The runner inbox: a lease queue fenced by (boot, attempt).

 The tables are one value, `Db`. Every mutation is a function on it; the class
 `Inbox` performs the same mutations in place and is proved equal to
 them. What the protocol promises is proved about runs: any sequence of calls,
 scheduled checks, withdrawals, handovers and hidden projects, in any order and
 at any times.
 */
module RunnerInbox {
  import opened Wrappers

  const JOB_MAX_ATTEMPTS := 5
  const JOB_LEASE_MS := 60_000
  const JOB_LEASE_MAX_MS := 1_800_000
  const JOB_CLAIM_MAX := 32
  const LEASED_SCAN := 256
  const IMPORTING_SKIP_MAX := 512
  const TERMINAL_JOB_TTL_MS := 604_800_000
  const MAX_CODE := 200
  const MAX_SAFE_INTEGER := 9_007_199_254_740_991

  type JobId = nat
  type RunnerId = nat
  type ProjectId = nat

  /** A boot id as a caller sends it: a UUID, or text that is none. */
  datatype Boot = Uuid(n: nat) | NotUuid(text: string)

  datatype Status = Queued | Leased | Done | Failed | Cancelled | Expired
  datatype LeaseRef = LeaseRef(boot: Boot, attempt: int)
  datatype Lease = Lease(ref: LeaseRef, expiresAt: int)
  datatype Reporter = ByRunner | ByBackend
  datatype Failure = Failure(attempt: int, code: string, retryable: bool, reporter: Reporter, at: int)
  datatype Ending = Ending(completedAt: int, keepUntil: int)

  /** A job row. `pinned` says that it names a Working copy; `rank` 0 is urgent, 1 is normal. */
  datatype Job = Job(
    runner: RunnerId,
    project: ProjectId,
    rank: nat,
    pinned: bool,
    status: Status,
    availableAt: int,
    lease: Option<Lease>,
    failure: Option<Failure>,
    result: Option<string>,
    ending: Option<Ending>)

  /** One scheduled `expireLease`. */
  datatype Timer = Timer(job: JobId, attempt: int, at: int)

  /** The tables the inbox reads and writes; `hidden` holds the projects still being imported. */
  datatype Db = Db(jobs: map<JobId, Job>, timers: multiset<Timer>, hidden: set<ProjectId>)

  datatype Outcome =
    | DoneWith(result: string, storable: bool)
    | FailedWith(code: string, retryable: bool)

  datatype LostReason = LostCancelled | LostFenced | LostGone
  datatype RenewReply = Extended(lease: Lease) | NotExtended(reason: LostReason)
  datatype CompleteReply = Recorded(status: Status) | Duplicate(status: Status) | Superseded(reason: LostReason)

  // ── pure rules ─────────────────────────────────────────────────────────────

  predicate WellFormed(ref: LeaseRef) {
    ref.boot.Uuid? && 1 <= ref.attempt <= MAX_SAFE_INTEGER
  }

  /** `None` stands for an absent or non-finite number. */
  function Bounded(value: Option<real>, fallback: int, min: int, max: int): (r: int)
    requires min <= fallback <= max
    ensures min <= r <= max
    ensures value.None? ==> r == fallback
  {
    var floor := if value.Some? then value.value.Floor else fallback;
    var raised := if floor < min then min else floor;
    if raised > max then max else raised
  }

  function Pow4(n: nat): (r: nat)
    ensures r >= 1
  {
    if n == 0 then 1 else 4 * Pow4(n - 1)
  }

  function RetryDelayMs(attempt: int): int {
    var delay := 5_000 * Pow4(if attempt < 1 then 0 else attempt - 1);
    if delay > 600_000 then 600_000 else delay
  }

  function Attempt(job: Job): int {
    if job.lease.Some? then job.lease.value.ref.attempt else 0
  }

  predicate Terminal(status: Status) {
    status in {Done, Failed, Cancelled, Expired}
  }

  predicate IsLease(job: Job, ref: LeaseRef) {
    job.lease.Some? && job.lease.value.ref == ref
  }

  predicate ReportedFailure(job: Job, ref: LeaseRef) {
    IsLease(job, ref) && job.failure.Some? && job.failure.value.reporter == ByRunner
      && job.failure.value.attempt == ref.attempt
  }

  predicate AlreadyReported(job: Job, ref: LeaseRef) {
    (job.status == Done && IsLease(job, ref)) || ReportedFailure(job, ref)
  }

  predicate LeaseMayContinue(job: Job, ref: LeaseRef) {
    IsLease(job, ref) && (job.status == Leased || (job.status == Queued && !ReportedFailure(job, ref)))
  }

  predicate LeaseMayReport(job: Job, ref: LeaseRef) {
    LeaseMayContinue(job, ref) || (job.status == Expired && IsLease(job, ref))
  }

  // ── what each mutation does to one row ─────────────────────────────────────

  function EndingAt(now: int): Option<Ending> {
    Some(Ending(now, now + TERMINAL_JOB_TTL_MS))
  }

  function Withdrawn(job: Job, code: string, now: int): Job {
    if Terminal(job.status) then job
    else job.(status := Cancelled, ending := EndingAt(now),
              failure := Some(Failure(Attempt(job), code, false, ByBackend, now)))
  }

  function LeasedTo(job: Job, ref: LeaseRef, expiresAt: int): Job {
    job.(status := Leased, lease := Some(Lease(ref, expiresAt)))
  }

  function DeadLettered(job: Job, now: int): Job {
    job.(status := Expired, ending := EndingAt(now),
         failure := Some(Failure(Attempt(job), "lease_expired", false, ByBackend, now)))
  }

  function LeaseRanOut(job: Job, now: int): Job {
    if Attempt(job) >= JOB_MAX_ATTEMPTS then DeadLettered(job, now)
    else job.(status := Queued, availableAt := now + RetryDelayMs(Attempt(job)),
              failure := Some(Failure(Attempt(job), "lease_expired", true, ByBackend, now)))
  }

  function Completed(job: Job, result: string, now: int): Job {
    job.(status := Done, result := Some(result), ending := EndingAt(now))
  }

  function FailedJob(job: Job, ref: LeaseRef, code: string, retryable: bool, now: int): Job {
    var failure := Some(Failure(ref.attempt, code, retryable, ByRunner, now));
    if retryable && ref.attempt < JOB_MAX_ATTEMPTS && job.status != Expired
    then job.(status := Queued, failure := failure, availableAt := now + RetryDelayMs(ref.attempt))
    else job.(status := Failed, failure := failure, ending := EndingAt(now))
  }

  function CodeOf(code: string): string {
    if code == "" then "unspecified" else if |code| > MAX_CODE then code[..MAX_CODE] else code
  }

  function Reported(job: Job, ref: LeaseRef, outcome: Outcome, now: int): Job {
    match outcome
    case DoneWith(result, storable) =>
      if storable then Completed(job, result, now) else FailedJob(job, ref, "invalid_job_result", false, now)
    case FailedWith(code, retryable) => FailedJob(job, ref, CodeOf(code), retryable, now)
  }

  // ── renew, complete, expireLease ───────────────────────────────────────────

  /** `jobOf`: a job of a project still being imported is nobody's yet. */
  predicate Named(db: Db, id: JobId) {
    id in db.jobs && db.jobs[id].project !in db.hidden
  }

  datatype RenewCall = RenewCall(
    runner: RunnerId, job: JobId, ref: LeaseRef, extendMs: Option<real>, mayWork: bool, now: int
  )

  /** The expiry a renewal asks for: the claim lease by default, at least a second, at most half an hour. */
  function Asked(c: RenewCall): (at: int)
    ensures c.now + 1_000 <= at <= c.now + JOB_LEASE_MAX_MS
    ensures c.extendMs.None? ==> at == c.now + JOB_LEASE_MS
  {
    c.now + Bounded(c.extendMs, JOB_LEASE_MS, 1_000, JOB_LEASE_MAX_MS)
  }

  function RenewReplyTo(db: Db, c: RenewCall): RenewReply {
    if !Named(db, c.job) || db.jobs[c.job].runner != c.runner then NotExtended(LostGone)
    else
      var job := db.jobs[c.job];
      if job.status == Cancelled then NotExtended(LostCancelled)
      else if !WellFormed(c.ref) || !LeaseMayContinue(job, c.ref) then NotExtended(LostFenced)
      else if !c.mayWork then NotExtended(LostCancelled)
      else
        Extended(Lease(c.ref, if job.status == Leased && job.lease.value.expiresAt > Asked(c)
                              then job.lease.value.expiresAt else Asked(c)))
  }

  function Renew(db: Db, c: RenewCall): Db {
    var reply := RenewReplyTo(db, c);
    if reply.Extended? then
      var job := db.jobs[c.job];
      db.(jobs := db.jobs[c.job := LeasedTo(job, c.ref, reply.lease.expiresAt)],
          timers := if job.status == Leased then db.timers
                    else db.timers + multiset{Timer(c.job, c.ref.attempt, reply.lease.expiresAt)})
    else if RenewWithdraws(db, c) then db.(jobs := db.jobs[c.job := Withdrawn(db.jobs[c.job], "not_a_member", c.now)])
    else db
  }

  predicate RenewWithdraws(db: Db, c: RenewCall) {
    && Named(db, c.job)
    && db.jobs[c.job].runner == c.runner
    && WellFormed(c.ref)
    && LeaseMayContinue(db.jobs[c.job], c.ref)
    && !c.mayWork
  }

  datatype CompleteCall = CompleteCall(runner: RunnerId, job: JobId, ref: LeaseRef, outcome: Outcome, now: int)

  function CompleteReplyTo(db: Db, c: CompleteCall): CompleteReply {
    if !Named(db, c.job) || db.jobs[c.job].runner != c.runner then Superseded(LostGone)
    else
      var job := db.jobs[c.job];
      if !WellFormed(c.ref) then Superseded(LostFenced)
      else if AlreadyReported(job, c.ref) then Duplicate(job.status)
      else if job.status == Cancelled then Superseded(LostCancelled)
      else if !LeaseMayReport(job, c.ref) then Superseded(LostFenced)
      else Recorded(Reported(job, c.ref, c.outcome, c.now).status)
  }

  function Complete(db: Db, c: CompleteCall): Db {
    if CompleteReplyTo(db, c).Recorded?
    then db.(jobs := db.jobs[c.job := Reported(db.jobs[c.job], c.ref, c.outcome, c.now)])
    else db
  }

  /** The scheduled check fires (it leaves the schedule) and looks at its lease. */
  function Fire(db: Db, t: Timer, now: int): Db {
    var rest := db.timers - multiset{t};
    if !Named(db, t.job) || db.jobs[t.job].status != Leased || Attempt(db.jobs[t.job]) != t.attempt
       || db.jobs[t.job].lease.None?
    then db.(timers := rest)
    else
      var job := db.jobs[t.job];
      if job.lease.value.expiresAt > now
      then db.(timers := rest + multiset{Timer(t.job, t.attempt, job.lease.value.expiresAt)})
      else db.(timers := rest, jobs := db.jobs[t.job := LeaseRanOut(job, now)])
  }

  // ── claim ──────────────────────────────────────────────────────────────────

  /**
   One claim, with what it reads: `leased`, `urgent` and `normal` are the ready
   index's answers in index order; `mayWork` the projects the owner may work in;
   `lost` the notices whose access was lost; `barred` a release below the floor.
   */
  datatype ClaimCall = ClaimCall(
    runner: RunnerId, boot: Boot, max: Option<real>, barred: bool,
    leased: seq<JobId>, urgent: seq<JobId>, normal: seq<JobId>,
    mayWork: set<ProjectId>, lost: set<JobId>, now: int)

  ghost predicate Distinct(ids: seq<JobId>) {
    forall i, j :: 0 <= i < j < |ids| ==> ids[i] != ids[j]
  }

  ghost predicate LeasedPage(db: Db, c: ClaimCall) {
    && Distinct(c.leased)
    && (forall id :: id in c.leased ==> id in db.jobs && db.jobs[id].runner == c.runner && db.jobs[id].status == Leased)
    && |c.leased| <= LEASED_SCAN
    && (|c.leased| < LEASED_SCAN ==>
          forall id :: id in db.jobs && db.jobs[id].runner == c.runner && db.jobs[id].status == Leased ==>
              id in c.leased)
  }

  predicate ReadyRow(db: Db, id: JobId, runner: RunnerId, rank: nat, now: int) {
    && id in db.jobs
    && db.jobs[id].runner == runner
    && db.jobs[id].status == Queued
    && db.jobs[id].rank == rank
    && db.jobs[id].availableAt <= now
  }

  ghost predicate ReadyRange(db: Db, ids: seq<JobId>, runner: RunnerId, rank: nat, now: int) {
    && Distinct(ids)
    && (forall id :: id in ids <==> ReadyRow(db, id, runner, rank, now))
    && (forall i, j :: 0 <= i < j < |ids| && ids[i] in db.jobs && ids[j] in db.jobs ==>
          db.jobs[ids[i]].availableAt <= db.jobs[ids[j]].availableAt)
  }

  /** The index answers what it holds. */
  ghost predicate ClaimReads(db: Db, c: ClaimCall) {
    && LeasedPage(db, c)
    && ReadyRange(db, c.urgent, c.runner, 0, c.now)
    && ReadyRange(db, c.normal, c.runner, 1, c.now)
  }

  predicate Answers(c: ClaimCall) {
    c.boot.Uuid? && !c.barred
  }

  function Limit(c: ClaimCall): (n: nat)
    ensures 1 <= n <= JOB_CLAIM_MAX
  {
    Bounded(c.max, JOB_CLAIM_MAX, 1, JOB_CLAIM_MAX)
  }

  /** A leased job an earlier boot holds, of a project that is shown. */
  predicate HeldByEarlierBoot(db: Db, c: ClaimCall, id: JobId) {
    Named(db, id) && db.jobs[id].lease.Some? && db.jobs[id].lease.value.ref.boot != c.boot
  }

  function TakenBack(db: Db, c: ClaimCall, ids: seq<JobId>): seq<JobId> {
    if ids == [] then []
    else
      var rest := TakenBack(db, c, ids[..|ids| - 1]);
      var id := ids[|ids| - 1];
      if HeldByEarlierBoot(db, c, id) && Attempt(db.jobs[id]) < JOB_MAX_ATTEMPTS then rest + [id] else rest
  }

  predicate DiesInClaim(db: Db, c: ClaimCall, id: JobId) {
    id in c.leased && HeldByEarlierBoot(db, c, id) && Attempt(db.jobs[id]) >= JOB_MAX_ATTEMPTS
  }

  /** One priority's range: fill up to `limit`, passing over a bounded number of hidden jobs. */
  function Scan(db: Db, limit: nat, found: seq<JobId>, passed: nat, ids: seq<JobId>): (seq<JobId>, nat)
    decreases |ids|
  {
    if ids == [] || |found| >= limit || passed >= IMPORTING_SKIP_MAX then (found, passed)
    else if Named(db, ids[0]) then Scan(db, limit, found + [ids[0]], passed, ids[1..])
    else Scan(db, limit, found, passed + 1, ids[1..])
  }

  function Candidates(db: Db, c: ClaimCall): (seq<JobId>, nat) {
    var (urgent, passed) := Scan(db, Limit(c), TakenBack(db, c, c.leased), 0, c.urgent);
    Scan(db, Limit(c), urgent, passed, c.normal)
  }

  function Chosen(db: Db, c: ClaimCall): seq<JobId> {
    var all := Candidates(db, c).0;
    if |all| > Limit(c) then all[..Limit(c)] else all
  }

  predicate HandsOut(db: Db, c: ClaimCall, id: JobId) {
    id in db.jobs && db.jobs[id].project in c.mayWork && id !in c.lost
  }

  function HandedOut(db: Db, c: ClaimCall, ids: seq<JobId>): seq<JobId> {
    if ids == [] then []
    else
      var rest := HandedOut(db, c, ids[..|ids| - 1]);
      var id := ids[|ids| - 1];
      if HandsOut(db, c, id) then rest + [id] else rest
  }

  /** The jobs a claim answers with. */
  function Claimed(db: Db, c: ClaimCall): seq<JobId> {
    if Answers(c) then HandedOut(db, c, Chosen(db, c)) else []
  }

  function NextRef(job: Job, boot: Boot): LeaseRef {
    LeaseRef(boot, Attempt(job) + 1)
  }

  function ChosenRow(db: Db, c: ClaimCall, id: JobId): Job
    requires id in db.jobs
  {
    var job := db.jobs[id];
    if job.project !in c.mayWork then Withdrawn(job, "not_a_member", c.now)
    else if id in c.lost then Withdrawn(job, "access_lost", c.now)
    else LeasedTo(job, NextRef(job, c.boot), c.now + JOB_LEASE_MS)
  }

  /** The rows once every dead lease is dead-lettered and the jobs of `chosen` are handed out or withdrawn. */
  function Handed(db: Db, c: ClaimCall, chosen: seq<JobId>): map<JobId, Job> {
    map id | id in db.jobs ::
      if DiesInClaim(db, c, id) then DeadLettered(db.jobs[id], c.now)
      else if id in chosen then ChosenRow(db, c, id)
      else db.jobs[id]
  }

  function ChecksFor(db: Db, c: ClaimCall, ids: seq<JobId>): multiset<Timer> {
    if ids == [] then multiset{}
    else
      var rest := ChecksFor(db, c, ids[..|ids| - 1]);
      var id := ids[|ids| - 1];
      if HandsOut(db, c, id)
      then rest + multiset{Timer(id, Attempt(db.jobs[id]) + 1, c.now + JOB_LEASE_MS)}
      else rest
  }

  function Claim(db: Db, c: ClaimCall): Db {
    if !Answers(c) then db
    else db.(jobs := Handed(db, c, Chosen(db, c)),
             timers := db.timers + ChecksFor(db, c, Chosen(db, c)))
  }

  // ── every event, and runs ──────────────────────────────────────────────────

  datatype Event =
    | EEnqueue(id: JobId, job: Job)
    | EClaim(claim: ClaimCall)
    | ERenew(renew: RenewCall)
    | EComplete(complete: CompleteCall)
    | EFire(timer: Timer, now: int)
    | ECancel(id: JobId, code: string, now: int)
    | EHandover(from: RunnerId, to: RunnerId, picked: set<JobId>)
    | EHide(project: ProjectId)
    | EShow(project: ProjectId)

  predicate FreshJob(job: Job) {
    job.lease.None? && job.failure.None? &&
    ((job.status == Queued && job.ending.None?) || (job.status == Done && job.ending.Some?))
  }

  predicate Movable(db: Db, id: JobId, from: RunnerId) {
    id in db.jobs && db.jobs[id].runner == from && !db.jobs[id].pinned && db.jobs[id].status in {Queued, Leased}
  }

  /** What the platform and the callers' own checks guarantee of an event. */
  ghost predicate Legal(db: Db, e: Event) {
    match e
    case EEnqueue(id, job) => id !in db.jobs && FreshJob(job)
    case EClaim(claim) => ClaimReads(db, claim)
    case EFire(t, now) => t in db.timers && t.at <= now
    case EHandover(from, to, picked) => forall id :: id in picked ==> Movable(db, id, from)
    case _ => true
  }

  function Handover(db: Db, to: RunnerId, picked: set<JobId>): Db {
    db.(jobs := map id | id in db.jobs :: if id in picked then db.jobs[id].(runner := to) else db.jobs[id])
  }

  function Next(db: Db, e: Event): Db {
    match e
    case EEnqueue(id, job) => db.(jobs := db.jobs[id := job])
    case EClaim(claim) => Claim(db, claim)
    case ERenew(renew) => Renew(db, renew)
    case EComplete(complete) => Complete(db, complete)
    case EFire(t, now) => Fire(db, t, now)
    case ECancel(id, code, now) =>
      if id in db.jobs then db.(jobs := db.jobs[id := Withdrawn(db.jobs[id], code, now)]) else db
    case EHandover(from, to, picked) => Handover(db, to, picked)
    case EHide(p) => db.(hidden := db.hidden + {p})
    case EShow(p) => db.(hidden := db.hidden - {p})
  }

  ghost predicate Run(states: seq<Db>, events: seq<Event>) {
    && |states| == |events| + 1
    && Good(states[0])
    && forall i :: 0 <= i < |events| ==> Legal(states[i], events[i]) && states[i + 1] == Next(states[i], events[i])
  }

  // ── the row invariant, and what a step may do to a row ─────────────────────

  predicate GoodJob(job: Job) {
    && (job.status in {Leased, Expired} ==> job.lease.Some?)
    && (job.status == Expired ==> job.failure.Some? && job.failure.value.reporter == ByBackend)
    && (job.lease.Some? ==> job.lease.value.ref.boot.Uuid? && 1 <= Attempt(job) <= JOB_MAX_ATTEMPTS)
    && (job.status == Queued ==> Attempt(job) < JOB_MAX_ATTEMPTS)
    && (job.failure.Some? && job.failure.value.reporter == ByRunner ==> 1 <= job.failure.value.attempt <= Attempt(job))
    && (job.status == Leased ==> !ReportedFailure(job, job.lease.value.ref))
    && (Terminal(job.status) <==> job.ending.Some?)
  }

  ghost predicate Good(db: Db) {
    forall id :: id in db.jobs ==> GoodJob(db.jobs[id])
  }

  /** Attempt `a` has told its last: nothing it reports is recorded any more. */
  predicate Spent(job: Job, a: int) {
    || Attempt(job) > a
    || (Attempt(job) == a && job.status in {Done, Failed, Cancelled})
    || (Attempt(job) == a && job.status == Queued && job.failure.Some? && job.failure.value.reporter == ByRunner
         && job.failure.value.attempt == a)
  }

  /**
   What every step keeps of a job: attempts only grow and stay within bounds, an
   attempt keeps its boot, `done`, `failed` and `cancelled` rows never change
   again, an `expired` row may only become `done` or `failed`, and a spent
   attempt stays spent.
   */
  ghost predicate Evolves(j: Job, k: Job) {
    && k.project == j.project && k.rank == j.rank && k.pinned == j.pinned
    && Attempt(j) <= Attempt(k)
    && (Attempt(j) == Attempt(k) && j.lease.Some? ==> k.lease.Some? && k.lease.value.ref == j.lease.value.ref)
    && (j.status in {Done, Failed, Cancelled} ==> k == j)
    && (j.status == Expired ==> k == j || (k.status in {Done, Failed} && k.lease == j.lease && k.runner == j.runner))
    && (forall a :: Spent(j, a) ==> Spent(k, a))
  }
}
