/**
 What each call of the inbox stores and answers, said by the values of the row:
 the outcome of an attempt, the wait of a retry, what a claim hands out and what
 it withdraws, and what every refusal leaves alone.
 */
module RunnerInboxOutcomes {
  import opened Wrappers
  import opened RunnerInbox
  import opened RunnerInboxProofs

  /** How long attempt 1, 2, 3 and 4 wait before the next: 5 s, 20 s, 80 s and 320 s. */
  const RETRY_WAITS: seq<int> := [5_000, 20_000, 80_000, 320_000]

  const WEEK_MS := 604_800_000

  lemma Waits(attempt: int)
    ensures 1 <= attempt < JOB_MAX_ATTEMPTS ==> RetryDelayMs(attempt) == RETRY_WAITS[attempt - 1]
    ensures attempt >= JOB_MAX_ATTEMPTS ==> RetryDelayMs(attempt) == 600_000
  {
    assert Pow4(1) == 4 && Pow4(2) == 16 && Pow4(3) == 64;
    if attempt >= 5 {
      PowGrows(attempt - 1);
    }
  }

  lemma {:induction false} PowGrows(n: nat)
    requires n >= 4
    ensures Pow4(n) >= 256
  {
    if n == 4 {
      assert Pow4(3) == 64;
    } else {
      PowGrows(n - 1);
    }
  }

  /** A failure code as it is stored: at most 200 characters of it, and never empty. */
  predicate IsCode(stored: string, code: string) {
    if code == "" then stored == "unspecified" else stored <= code && |stored| == if |code| < 200 then |code| else 200
  }

  // ── complete ───────────────────────────────────────────────────────────────

  /** Exactly the failures of an attempt that is not the last and was not given up are tried again. */
  predicate TriedAgain(job: Job, ref: LeaseRef, retryable: bool) {
    retryable && ref.attempt < 5 && job.status != Expired
  }

  /**
   What a recorded outcome stores, and that the reply names the status stored: a
   storable result makes the job done with it; one that is not storable fails it
   for good; a failure fails it, or queues it until its wait is over.
   */
  lemma OutcomeStored(db: Db, c: CompleteCall)
    requires Good(db) && CompleteReplyTo(db, c).Recorded?
    ensures c.job in Complete(db, c).jobs
    ensures var job, row := db.jobs[c.job], Complete(db, c).jobs[c.job];
            && Complete(db, c) == db.(jobs := db.jobs[c.job := row])
            && CompleteReplyTo(db, c) == Recorded(row.status)
            && match c.outcome
               case DoneWith(result, storable) =>
                 if storable
                 then row == job.(status := Done, result := Some(result),
                                  ending := Some(Ending(c.now, c.now + WEEK_MS)))
                 else row == job.(status := Failed, ending := Some(Ending(c.now, c.now + WEEK_MS)),
                                  failure := Some(Failure(c.ref.attempt, "invalid_job_result", false, ByRunner, c.now)))
               case FailedWith(code, retryable) =>
                 && row.failure.Some? && IsCode(row.failure.value.code, code)
                 && row.failure.value == Failure(c.ref.attempt, row.failure.value.code, retryable, ByRunner, c.now)
                 && 1 <= c.ref.attempt
                 && row == if TriedAgain(job, c.ref, retryable)
                           then job.(status := Queued, failure := row.failure,
                                     availableAt := c.now + RETRY_WAITS[c.ref.attempt - 1])
                           else job.(status := Failed, failure := row.failure,
                                     ending := Some(Ending(c.now, c.now + WEEK_MS)))
  {
    Waits(c.ref.attempt);
    hide Pow4, RetryDelayMs;
  }

  /** A stored result is there, and the job done, at every later moment. */
  lemma ResultStays(states: seq<Db>, events: seq<Event>, j: nat, k: nat)
    requires Run(states, events) && j < k <= |events| && events[j].EComplete?
    requires CompleteReplyTo(states[j], events[j].complete).Recorded?
    requires events[j].complete.outcome.DoneWith? && events[j].complete.outcome.storable
    ensures var c := events[j].complete;
            && c.job in states[k].jobs && states[k].jobs[c.job].status == Done
            && states[k].jobs[c.job].result == Some(c.outcome.result)
  {
    RunKeeps(states, events, j, j);
    assert states[j + 1] == Next(states[j], events[j]);
    OutcomeStored(states[j], events[j].complete);
    FinishedStaysFinished(states, events, j + 1, j + 1, k, events[j].complete.job);
  }

  /** The caller's own job, of a project that is shown. */
  predicate Theirs(db: Db, id: JobId, runner: RunnerId) {
    id in db.jobs && db.jobs[id].project !in db.hidden && db.jobs[id].runner == runner
  }

  predicate IsAttempt(ref: LeaseRef) {
    ref.boot.Uuid? && 1 <= ref.attempt <= 9_007_199_254_740_991
  }

  /** This attempt's runner said that it failed. */
  predicate SaidFailed(job: Job, ref: LeaseRef) {
    job.failure.Some? && job.failure.value.reporter == ByRunner && job.failure.value.attempt == ref.attempt
  }

  /** What a completion that records nothing answers, and that it changes nothing. */
  lemma NotRecorded(db: Db, c: CompleteCall)
    requires !CompleteReplyTo(db, c).Recorded?
    ensures Complete(db, c) == db
    ensures CompleteReplyTo(db, c) ==
              if !Theirs(db, c.job, c.runner) then Superseded(LostGone)
              else
                var job := db.jobs[c.job];
                var its := job.lease.Some? && job.lease.value.ref == c.ref;
                if IsAttempt(c.ref) && its && (job.status == Done || SaidFailed(job, c.ref)) then Duplicate(job.status)
                else if IsAttempt(c.ref) && job.status == Cancelled then Superseded(LostCancelled)
                else Superseded(LostFenced)
  {
  }

  // ── renew ──────────────────────────────────────────────────────────────────

  /** The attempt is the job's latest, and it runs or ran out without a word. */
  predicate StillOn(db: Db, c: RenewCall) {
    && Theirs(db, c.job, c.runner) && IsAttempt(c.ref)
    && var job := db.jobs[c.job];
       && job.lease.Some? && job.lease.value.ref == c.ref
       && (job.status == Leased || (job.status == Queued && !SaidFailed(job, c.ref)))
  }

  /**
   Exactly when a renewal extends, until when, and what else it answers: a job
   whose owner left is withdrawn, anything else is left alone.
   */
  lemma RenewalAnswers(db: Db, c: RenewCall)
    ensures RenewReplyTo(db, c).Extended? <==> StillOn(db, c) && c.mayWork
    ensures RenewReplyTo(db, c).Extended? ==>
              var at := RenewReplyTo(db, c).lease.expiresAt;
              var held := db.jobs[c.job].lease.value.expiresAt;
              && c.job in Renew(db, c).jobs && Renew(db, c).jobs[c.job].lease == Some(Lease(c.ref, at))
              && at == (if db.jobs[c.job].status == Leased && held > Asked(c) then held else Asked(c))
              && Renew(db, c).timers == (if db.jobs[c.job].status == Leased then db.timers
                                         else db.timers + multiset{Timer(c.job, c.ref.attempt, at)})
    ensures StillOn(db, c) && !c.mayWork ==>
              && RenewReplyTo(db, c) == NotExtended(LostCancelled)
              && Renew(db, c) == Next(db, ECancel(c.job, "not_a_member", c.now))
    ensures !StillOn(db, c) ==>
              && Renew(db, c) == db
              && RenewReplyTo(db, c) == NotExtended(
                   if !Theirs(db, c.job, c.runner) then LostGone
                   else if db.jobs[c.job].status == Cancelled then LostCancelled else LostFenced)
  {
  }

  /** How long a renewal asks for: a minute unless it says, what it says within a second and half an hour. */
  lemma AskedFor(c: RenewCall)
    ensures c.extendMs.None? ==> Asked(c) == c.now + 60_000
    ensures c.extendMs.Some? ==>
              var ms := c.extendMs.value;
              && (ms < 1_000.0 ==> Asked(c) == c.now + 1_000)
              && (ms >= 1_800_000.0 ==> Asked(c) == c.now + 1_800_000)
              && (1_000.0 <= ms < 1_800_000.0 ==> Asked(c) == c.now + ms.Floor)
  {
  }

  /** How many jobs a claim asks for: 32 unless it says, what it says within one and 32. */
  lemma LimitAsked(c: ClaimCall)
    ensures c.max.None? ==> Limit(c) == 32
    ensures c.max.Some? ==>
              && (c.max.value < 1.0 ==> Limit(c) == 1)
              && (c.max.value >= 32.0 ==> Limit(c) == 32)
              && (1.0 <= c.max.value < 32.0 ==> Limit(c) == c.max.value.Floor)
  {
  }

  // ── withdrawing, running out ───────────────────────────────────────────────

  /** A withdrawal ends an open job for good and says why; a job that has ended stays as it is. */
  lemma WithdrawnFor(db: Db, id: JobId, code: string, now: int)
    requires id in db.jobs
    ensures var job := db.jobs[id];
            Next(db, ECancel(id, code, now)) ==
              if job.status in {Queued, Leased}
              then db.(jobs := db.jobs[id := job.(status := Cancelled, ending := Some(Ending(now, now + WEEK_MS)),
                         failure := Some(Failure(if job.lease.Some? then job.lease.value.ref.attempt else 0,
                                                 code, false, ByBackend, now)))])
              else db
  {
    var job := db.jobs[id];
    match job.status
    case Queued =>
    case Leased =>
    case _ => assert db.jobs[id := Withdrawn(job, code, now)] == db.jobs;
  }

  /**
   A check whose lease ran out queues the job until its wait is over, or gives it
   up after the fifth attempt; one that comes early moves to the lease's end; any
   other only leaves the schedule.
   */
  lemma CheckLooks(db: Db, t: Timer, now: int)
    requires Good(db)
    ensures var live := && t.job in db.jobs && db.jobs[t.job].project !in db.hidden
                        && db.jobs[t.job].status == Leased && db.jobs[t.job].lease.value.ref.attempt == t.attempt;
            var rest := db.timers - multiset{t};
            if !live then Fire(db, t, now) == db.(timers := rest)
            else
              var job := db.jobs[t.job];
              if job.lease.value.expiresAt > now
              then Fire(db, t, now) ==
                     db.(timers := rest + multiset{Timer(t.job, t.attempt, job.lease.value.expiresAt)})
              else
                && 1 <= t.attempt <= 5
                && Fire(db, t, now) ==
                   db.(timers := rest, jobs := db.jobs[t.job := GivenUpOrQueued(job, t.attempt, now)])
  {
    if t.job in db.jobs {
      Waits(t.attempt);
      assert GoodJob(db.jobs[t.job]);
    }
    hide Pow4, RetryDelayMs;
  }

  function GivenUpOrQueued(job: Job, attempt: int, now: int): Job
    requires 1 <= attempt <= 5
  {
    var failure := Some(Failure(attempt, "lease_expired", attempt < 5, ByBackend, now));
    if attempt < 5 then job.(status := Queued, availableAt := now + RETRY_WAITS[attempt - 1], failure := failure)
    else job.(status := Expired, ending := Some(Ending(now, now + WEEK_MS)), failure := failure)
  }

  // ── claim ──────────────────────────────────────────────────────────────────

  /** The lease a claim hands a chosen job out under: its next attempt, for a minute. */
  function HandedLease(job: Job, c: ClaimCall): Lease {
    Lease(LeaseRef(c.boot, 1 + (if job.lease.Some? then job.lease.value.ref.attempt else 0)), c.now + 60_000)
  }

  /**
   Of the jobs a claim chose it hands out exactly those of projects the owner may
   work in whose access was not lost: leased to the calling boot at the next
   attempt, with a check at the lease's end. The others it withdraws, and says why.
   */
  lemma ChosenIsHandedOrWithdrawn(db: Db, c: ClaimCall, id: JobId)
    requires Good(db) && ClaimReads(db, c) && Answers(c) && id in Chosen(db, c)
    ensures id in db.jobs && id in Claim(db, c).jobs
    ensures var job, row := db.jobs[id], Claim(db, c).jobs[id];
            if job.project in c.mayWork && id !in c.lost
            then && id in Claimed(db, c)
                 && row == job.(status := Leased, lease := Some(HandedLease(job, c)))
                 && Timer(id, HandedLease(job, c).ref.attempt, c.now + 60_000) in Claim(db, c).timers
            else && id !in Claimed(db, c)
                 && row == Next(db, ECancel(id, if job.project in c.mayWork then "access_lost" else "not_a_member",
                                            c.now)).jobs[id]
                 && row.status == Cancelled
  {
    ChosenRows(db, c);
    HandedOutFrom(db, c, Chosen(db, c));
    if HandsOut(db, c, id) {
      CheckScheduled(db, c, Chosen(db, c), id);
    }
    hide Chosen, HandedOut, ChecksFor;
    assert !DiesInClaim(db, c, id);
  }

  /** A claim answers only chosen jobs; of the others it changes only a lapsed lease of an earlier boot, which dies. */
  lemma OthersInAClaim(db: Db, c: ClaimCall, id: JobId)
    requires Good(db) && ClaimReads(db, c) && id in db.jobs && !(Answers(c) && id in Chosen(db, c))
    ensures id !in Claimed(db, c) && id in Claim(db, c).jobs
    ensures var job := db.jobs[id];
            var lapsed := && Answers(c) && id in c.leased && job.project !in db.hidden
                          && job.lease.value.ref.boot != c.boot && job.lease.value.ref.attempt >= 5;
            Claim(db, c).jobs[id] == if lapsed then GivenUpOrQueued(job, 5, c.now) else job
  {
    assert GoodJob(db.jobs[id]);
    HandedOutFrom(db, c, Chosen(db, c));
    hide Chosen, HandedOut, ChecksFor;
  }

  /** A caller whose boot is no UUID, or whose release is too old, gets nothing and changes nothing. */
  lemma NotAnswered(db: Db, c: ClaimCall)
    requires !c.boot.Uuid? || c.barred
    ensures Claim(db, c) == db && Claimed(db, c) == []
  {
  }
}
