/**
 What the inbox protocol keeps over every run: attempts, boots, absorbing
 statuses, one recorded outcome per attempt, fencing, and when a lease is
 forgotten.
 */
module RunnerInboxProofs {
  import opened Wrappers
  import opened RunnerInbox

  // ── what one claim reads and chooses ───────────────────────────────────────

  lemma TakenBackFrom(db: Db, c: ClaimCall, ids: seq<JobId>)
    ensures forall id :: id in TakenBack(db, c, ids) <==>
              id in ids && HeldByEarlierBoot(db, c, id) && Attempt(db.jobs[id]) < JOB_MAX_ATTEMPTS
    ensures Distinct(ids) ==> Distinct(TakenBack(db, c, ids))
  {
    if ids != [] {
      var front := ids[..|ids| - 1];
      TakenBackFrom(db, c, front);
      assert ids == front + [ids[|ids| - 1]];
    }
  }

  lemma ScanFinds(db: Db, limit: nat, found: seq<JobId>, passed: nat, ids: seq<JobId>)
    ensures forall id :: id in Scan(db, limit, found, passed, ids).0 ==> id in found || (id in ids && Named(db, id))
    ensures found <= Scan(db, limit, found, passed, ids).0
    ensures Distinct(found) && Distinct(ids) && (forall id :: id in ids ==> id !in found) ==>
              Distinct(Scan(db, limit, found, passed, ids).0)
    decreases |ids|
  {
    if !(ids == [] || |found| >= limit || passed >= IMPORTING_SKIP_MAX) {
      if Named(db, ids[0]) {
        ScanFinds(db, limit, found + [ids[0]], passed, ids[1..]);
      } else {
        ScanFinds(db, limit, found, passed + 1, ids[1..]);
      }
    }
  }

  /** A scan that stops short of its limit and of the skip bound has found every shown job of its range. */
  lemma ScanMissesNothing(db: Db, limit: nat, found: seq<JobId>, passed: nat, ids: seq<JobId>)
    ensures var (all, skipped) := Scan(db, limit, found, passed, ids);
            |all| < limit && skipped < IMPORTING_SKIP_MAX ==>
              (forall id :: id in ids && Named(db, id) ==> id in all) && |found| <= |all| && passed <= skipped
    decreases |ids|
  {
    if !(ids == [] || |found| >= limit || passed >= IMPORTING_SKIP_MAX) {
      if Named(db, ids[0]) {
        ScanMissesNothing(db, limit, found + [ids[0]], passed, ids[1..]);
        ScanFinds(db, limit, found + [ids[0]], passed, ids[1..]);
        assert (found + [ids[0]])[|found|] == ids[0];
      } else {
        ScanMissesNothing(db, limit, found, passed + 1, ids[1..]);
      }
    }
  }

  /**
   What may be chosen: an earlier boot's lease with an attempt left, or a due job of a shown
   project; no job twice.
   */
  lemma ChosenRows(db: Db, c: ClaimCall)
    requires ClaimReads(db, c)
    ensures Distinct(Chosen(db, c)) && |Chosen(db, c)| <= Limit(c)
    ensures forall id :: id in Chosen(db, c) ==>
              && Named(db, id) && db.jobs[id].runner == c.runner
              && ((db.jobs[id].status == Leased && HeldByEarlierBoot(db, c, id)
                     && Attempt(db.jobs[id]) < JOB_MAX_ATTEMPTS)
                  || (db.jobs[id].status == Queued && db.jobs[id].availableAt <= c.now))
  {
    var back := TakenBack(db, c, c.leased);
    TakenBackFrom(db, c, c.leased);
    ScanFinds(db, Limit(c), back, 0, c.urgent);
    var (urgent, passed) := Scan(db, Limit(c), back, 0, c.urgent);
    ScanFinds(db, Limit(c), urgent, passed, c.normal);
  }

  lemma HandedOutFrom(db: Db, c: ClaimCall, ids: seq<JobId>)
    ensures forall id :: id in HandedOut(db, c, ids) <==> id in ids && HandsOut(db, c, id)
    ensures Distinct(ids) ==> Distinct(HandedOut(db, c, ids))
  {
    if ids != [] {
      HandedOutFrom(db, c, ids[..|ids| - 1]);
      assert ids == ids[..|ids| - 1] + [ids[|ids| - 1]];
    }
  }

  lemma CheckScheduled(db: Db, c: ClaimCall, ids: seq<JobId>, id: JobId)
    requires id in ids && HandsOut(db, c, id)
    ensures Timer(id, Attempt(db.jobs[id]) + 1, c.now + JOB_LEASE_MS) in ChecksFor(db, c, ids)
  {
    var last := ids[|ids| - 1];
    assert ids == ids[..|ids| - 1] + [last];
    if id != last {
      CheckScheduled(db, c, ids[..|ids| - 1], id);
    }
  }

  /**
   A claim that hands out fewer jobs than its limit and met fewer hidden jobs
   than it may pass over leaves no due job of a shown project waiting: each is
   leased to the calling boot or withdrawn.
   */
  predicate ReadyFor(db: Db, c: ClaimCall, id: JobId) {
    && Named(db, id) && db.jobs[id].runner == c.runner
    && db.jobs[id].status == Queued && db.jobs[id].rank <= 1 && db.jobs[id].availableAt <= c.now
  }

  lemma ReadyIsFound(db: Db, c: ClaimCall, id: JobId)
    requires ClaimReads(db, c) && ReadyFor(db, c, id)
    requires |Candidates(db, c).0| < Limit(c) && Candidates(db, c).1 < IMPORTING_SKIP_MAX
    ensures id in Chosen(db, c)
  {
    var back := TakenBack(db, c, c.leased);
    var (urgent, passed) := Scan(db, Limit(c), back, 0, c.urgent);
    ScanMissesNothing(db, Limit(c), urgent, passed, c.normal);
    ScanFinds(db, Limit(c), urgent, passed, c.normal);
    ScanMissesNothing(db, Limit(c), back, 0, c.urgent);
    hide Scan, TakenBack, Distinct, LeasedPage;
    assert ReadyRow(db, id, c.runner, db.jobs[id].rank, c.now);
  }

  lemma ChosenQueuedIsHanded(db: Db, c: ClaimCall, id: JobId)
    requires id in db.jobs && GoodJob(db.jobs[id]) && db.jobs[id].status == Queued && Answers(c) && id in Chosen(db, c)
    requires id !in c.leased
    ensures id in Claim(db, c).jobs
    ensures var job := Claim(db, c).jobs[id];
            || job.status == Cancelled
            || (job.status == Leased && job.lease ==
                 Some(Lease(LeaseRef(c.boot, Attempt(db.jobs[id]) + 1), c.now + JOB_LEASE_MS))
                && id in Claimed(db, c))
  {
    HandedOutFrom(db, c, Chosen(db, c));
    hide Chosen, HandedOut, ChecksFor;
  }

  lemma ClaimLeavesNothingReady(db: Db, c: ClaimCall, id: JobId)
    requires ClaimReads(db, c) && Good(db) && Answers(c)
    requires |Candidates(db, c).0| < Limit(c) && Candidates(db, c).1 < IMPORTING_SKIP_MAX
    requires id in db.jobs && db.jobs[id].runner == c.runner && Named(db, id)
    requires db.jobs[id].status == Queued && db.jobs[id].rank <= 1 && db.jobs[id].availableAt <= c.now
    ensures var job := Claim(db, c).jobs[id];
            || job.status == Cancelled
            || (job.status == Leased && job.lease ==
                 Some(Lease(LeaseRef(c.boot, Attempt(db.jobs[id]) + 1), c.now + JOB_LEASE_MS))
                && id in Claimed(db, c))
  {
    ReadyIsFound(db, c, id);
    hide Claim, Claimed, Candidates, Chosen;
    ChosenQueuedIsHanded(db, c, id);
  }

  /** A range is taken in its own order: nothing is found ahead of an earlier shown job. */
  lemma ScanInOrder(db: Db, limit: nat, found: seq<JobId>, passed: nat, ids: seq<JobId>, i: nat, j: nat)
    requires i < j < |ids| && Named(db, ids[i]) && Distinct(ids) && ids[j] !in found
    requires ids[j] in Scan(db, limit, found, passed, ids).0
    ensures ids[i] in Scan(db, limit, found, passed, ids).0
    decreases |ids|
  {
    var next := if Named(db, ids[0]) then found + [ids[0]] else found;
    var skipped := if Named(db, ids[0]) then passed else passed + 1;
    if i == 0 {
      ScanFinds(db, limit, next, skipped, ids[1..]);
      assert next[|found|] == ids[0];
    } else {
      ScanInOrder(db, limit, next, skipped, ids[1..], i - 1, j - 1);
    }
  }

  lemma ScanStops(db: Db, limit: nat, found: seq<JobId>, passed: nat, ids: seq<JobId>)
    ensures |found| < limit ==> |Scan(db, limit, found, passed, ids).0| <= limit
    ensures |found| >= limit ==> Scan(db, limit, found, passed, ids).0 == found
    decreases |ids|
  {
    if !(ids == [] || |found| >= limit || passed >= IMPORTING_SKIP_MAX) {
      ScanStops(db, limit, if Named(db, ids[0]) then found + [ids[0]] else found,
                if Named(db, ids[0]) then passed else passed + 1, ids[1..]);
    }
  }

  ghost predicate Due(db: Db, c: ClaimCall, id: JobId) {
    Named(db, id) && db.jobs[id].rank <= 1 && ReadyRow(db, id, c.runner, db.jobs[id].rank, c.now)
  }

  /** Urgent jobs first, then oldest: a claim never takes a due job and leaves a more pressing one. */
  lemma MorePressingFirst(db: Db, c: ClaimCall, early: JobId, late: JobId)
    requires ClaimReads(db, c) && Due(db, c, early) && Due(db, c, late)
    requires db.jobs[early].rank < db.jobs[late].rank ||
             (db.jobs[early].rank == db.jobs[late].rank && db.jobs[early].availableAt < db.jobs[late].availableAt)
    requires late in Chosen(db, c)
    ensures early in Chosen(db, c)
  {
    var back := TakenBack(db, c, c.leased);
    TakenBackFrom(db, c, c.leased);
    var (urgent, passed) := Scan(db, Limit(c), back, 0, c.urgent);
    ScanFinds(db, Limit(c), back, 0, c.urgent);
    ScanFinds(db, Limit(c), urgent, passed, c.normal);
    ScanStops(db, Limit(c), back, 0, c.urgent);
    ScanStops(db, Limit(c), urgent, passed, c.normal);
    if db.jobs[early].rank == 0 && db.jobs[late].rank == 1 {
      ScanMissesNothing(db, Limit(c), back, 0, c.urgent);
    } else {
      var range := if db.jobs[early].rank == 0 then c.urgent else c.normal;
      var i :| 0 <= i < |range| && range[i] == early;
      var j :| 0 <= j < |range| && range[j] == late;
      if db.jobs[early].rank == 0 {
        ScanInOrder(db, Limit(c), back, 0, range, i, j);
      } else {
        ScanInOrder(db, Limit(c), urgent, passed, range, i, j);
      }
    }
  }

  // ── one step ───────────────────────────────────────────────────────────────

  lemma ChosenRowKeeps(db: Db, c: ClaimCall, id: JobId)
    requires id in db.jobs && GoodJob(db.jobs[id]) && c.boot.Uuid?
    requires db.jobs[id].status in {Queued, Leased} && Attempt(db.jobs[id]) < JOB_MAX_ATTEMPTS
    ensures GoodJob(ChosenRow(db, c, id)) && Evolves(db.jobs[id], ChosenRow(db, c, id))
  {
  }

  lemma DeadLetterKeeps(job: Job, now: int)
    requires GoodJob(job) && job.status == Leased
    ensures GoodJob(DeadLettered(job, now)) && Evolves(job, DeadLettered(job, now))
  {
  }

  lemma ClaimKeeps(db: Db, c: ClaimCall)
    requires Good(db) && ClaimReads(db, c)
    ensures Good(Claim(db, c))
    ensures forall id :: id in db.jobs ==> id in Claim(db, c).jobs && Evolves(db.jobs[id], Claim(db, c).jobs[id])
  {
    if Answers(c) {
      ChosenRows(db, c);
      var chosen := Chosen(db, c);
      forall id | id in db.jobs
        ensures GoodJob(Handed(db, c, chosen)[id]) && Evolves(db.jobs[id], Handed(db, c, chosen)[id])
      {
        if DiesInClaim(db, c, id) {
          DeadLetterKeeps(db.jobs[id], c.now);
        } else if id in chosen {
          ChosenRowKeeps(db, c, id);
        }
      }
    }
  }

  lemma RenewedRowKeeps(db: Db, c: RenewCall)
    requires c.job in db.jobs && GoodJob(db.jobs[c.job])
    ensures c.job in Renew(db, c).jobs
    ensures GoodJob(Renew(db, c).jobs[c.job]) && Evolves(db.jobs[c.job], Renew(db, c).jobs[c.job])
  {
  }

  lemma RenewKeeps(db: Db, c: RenewCall)
    requires Good(db)
    ensures Good(Renew(db, c))
    ensures forall id :: id in db.jobs ==> id in Renew(db, c).jobs && Evolves(db.jobs[id], Renew(db, c).jobs[id])
  {
    hide Evolves, GoodJob;
    SameJobs(db);
    if c.job in db.jobs {
      RenewedRowKeeps(db, c);
    }
  }

  lemma CompleteKeeps(db: Db, c: CompleteCall)
    requires Good(db)
    ensures Good(Complete(db, c))
    ensures forall id :: id in db.jobs ==> id in Complete(db, c).jobs && Evolves(db.jobs[id], Complete(db, c).jobs[id])
  {
    if CompleteReplyTo(db, c).Recorded? {
      var job := db.jobs[c.job];
      var after := Reported(job, c.ref, c.outcome, c.now);
      assert GoodJob(after) && Evolves(job, after);
    }
  }

  lemma LeaseRanOutKeeps(job: Job, now: int)
    requires GoodJob(job) && job.status == Leased
    ensures GoodJob(LeaseRanOut(job, now)) && Evolves(job, LeaseRanOut(job, now))
  {
  }

  lemma FireKeeps(db: Db, t: Timer, now: int)
    requires Good(db)
    ensures Good(Fire(db, t, now))
    ensures forall id :: id in db.jobs ==>
            id in Fire(db, t, now).jobs && Evolves(db.jobs[id], Fire(db, t, now).jobs[id])
  {
    if t.job in db.jobs && db.jobs[t.job].status == Leased {
      LeaseRanOutKeeps(db.jobs[t.job], now);
    }
    hide LeaseRanOut, GoodJob;
  }

  /** Every legal step keeps the row invariant and moves each job only as `Evolves` allows. */
  lemma FreshIsGood(job: Job)
    requires FreshJob(job)
    ensures GoodJob(job)
  {
  }

  lemma RowKeeps(db: Db, e: Event, id: JobId)
    requires id in db.jobs && GoodJob(db.jobs[id]) && Legal(db, e)
    requires e.EEnqueue? || e.ECancel? || e.EHandover? || e.EHide? || e.EShow?
    ensures id in Next(db, e).jobs
    ensures GoodJob(Next(db, e).jobs[id]) && Evolves(db.jobs[id], Next(db, e).jobs[id])
  {
  }

  lemma RestKeeps(db: Db, e: Event)
    requires Good(db) && Legal(db, e)
    requires e.EEnqueue? || e.ECancel? || e.EHandover? || e.EHide? || e.EShow?
    ensures Good(Next(db, e))
    ensures forall id :: id in db.jobs ==> id in Next(db, e).jobs && Evolves(db.jobs[id], Next(db, e).jobs[id])
  {
    hide Withdrawn, Evolves, GoodJob;
    forall id | id in db.jobs
      ensures GoodJob(Next(db, e).jobs[id]) && Evolves(db.jobs[id], Next(db, e).jobs[id])
    {
      RowKeeps(db, e, id);
    }
    if e.EEnqueue? {
      FreshIsGood(e.job);
    }
  }

  lemma StepKeeps(db: Db, e: Event)
    requires Good(db) && Legal(db, e)
    ensures Good(Next(db, e))
    ensures forall id :: id in db.jobs ==> id in Next(db, e).jobs && Evolves(db.jobs[id], Next(db, e).jobs[id])
  {
    hide Good, Evolves, Claim, Renew, Complete, Fire, Handover, Withdrawn;
    match e
    case EClaim(claim) => ClaimKeeps(db, claim);
    case ERenew(renew) => RenewKeeps(db, renew);
    case EComplete(complete) => CompleteKeeps(db, complete);
    case EFire(t, now) => FireKeeps(db, t, now);
    case _ => RestKeeps(db, e);
  }

  lemma SameJobs(db: Db)
    ensures forall id :: id in db.jobs ==> Evolves(db.jobs[id], db.jobs[id])
  {
  }

  lemma StillEvolves(a: Db, b: Db, c: Db)
    requires forall id :: id in a.jobs ==> id in b.jobs && Evolves(a.jobs[id], b.jobs[id])
    requires forall id :: id in b.jobs ==> id in c.jobs && Evolves(b.jobs[id], c.jobs[id])
    ensures forall id :: id in a.jobs ==> id in c.jobs && Evolves(a.jobs[id], c.jobs[id])
  {
    hide Evolves;
    forall id | id in a.jobs
      ensures Evolves(a.jobs[id], c.jobs[id])
    {
      EvolvesThrough(a.jobs[id], b.jobs[id], c.jobs[id]);
    }
  }

  lemma EvolvesThrough(j: Job, k: Job, l: Job)
    requires Evolves(j, k) && Evolves(k, l)
    ensures Evolves(j, l)
  {
    hide Spent;
  }

  // ── whole runs ─────────────────────────────────────────────────────────────

  /** Between any two moments of a run every job is kept, and only evolves. */
  lemma {:induction false} RunKeeps(states: seq<Db>, events: seq<Event>, i: nat, k: nat)
    requires Run(states, events) && i <= k <= |events|
    ensures Good(states[k])
    ensures forall id :: id in states[i].jobs ==>
            id in states[k].jobs && Evolves(states[i].jobs[id], states[k].jobs[id])
    decreases k
  {
    hide Next, Legal, Good, Evolves;
    if k == 0 {
      SameJobs(states[0]);
    } else if i < k {
      RunKeeps(states, events, i, k - 1);
      StepKeeps(states[k - 1], events[k - 1]);
      StillEvolves(states[i], states[k - 1], states[k]);
    } else {
      RunKeeps(states, events, i - 1, k - 1);
      StepKeeps(states[k - 1], events[k - 1]);
      SameJobs(states[k]);
    }
  }

  /** Attempt numbers stay within their bound and never go back; an attempt belongs to one boot for good. */
  lemma AttemptsAndBoots(states: seq<Db>, events: seq<Event>, i: nat, k: nat, id: JobId)
    requires Run(states, events) && i <= k <= |events| && id in states[i].jobs
    ensures id in states[k].jobs
    ensures 0 <= Attempt(states[i].jobs[id]) <= Attempt(states[k].jobs[id]) <= JOB_MAX_ATTEMPTS
    ensures states[i].jobs[id].lease.Some? && Attempt(states[i].jobs[id]) == Attempt(states[k].jobs[id]) ==>
              IsLease(states[k].jobs[id], states[i].jobs[id].lease.value.ref)
  {
    RunKeeps(states, events, i, k);
    RunKeeps(states, events, i, i);
  }

  /**
   `done`, `failed` and `cancelled` are final, row and all; `expired` changes at most once, into
   `done` or `failed`.
   */
  lemma FinishedStaysFinished(states: seq<Db>, events: seq<Event>, i: nat, j: nat, k: nat, id: JobId)
    requires Run(states, events) && i <= j <= k <= |events| && id in states[i].jobs
    ensures id in states[j].jobs && id in states[k].jobs
    ensures states[i].jobs[id].status in {Done, Failed, Cancelled} ==> states[k].jobs[id] == states[i].jobs[id]
    ensures states[i].jobs[id].status == Expired && states[j].jobs[id] != states[i].jobs[id] ==>
              states[j].jobs[id].status in {Done, Failed} && states[k].jobs[id] == states[j].jobs[id]
  {
    RunKeeps(states, events, i, j);
    RunKeeps(states, events, j, k);
    RunKeeps(states, events, i, k);
  }

  /**
   Exactly when a completion is recorded: the job is the caller's and shown, the
   reference is its most recent lease, and that attempt has not told its last.
   Late counts: a lease that ran out (`queued` again, or `expired`) still may.
   */
  lemma RecordedExactlyWhen(db: Db, c: CompleteCall)
    requires Good(db)
    ensures CompleteReplyTo(db, c).Recorded? <==>
              && Named(db, c.job) && db.jobs[c.job].runner == c.runner && WellFormed(c.ref)
              && IsLease(db.jobs[c.job], c.ref) && !Spent(db.jobs[c.job], c.ref.attempt)
    ensures CompleteReplyTo(db, c).Recorded? ==> Spent(Complete(db, c).jobs[c.job], c.ref.attempt)
    ensures !CompleteReplyTo(db, c).Recorded? ==> Complete(db, c) == db
  {
  }

  /** At most one `complete` per job and attempt is ever recorded, whoever sends it and however often. */
  lemma RecordedAtMostOnce(states: seq<Db>, events: seq<Event>, i: nat, k: nat)
    requires Run(states, events) && i < k < |events|
    requires events[i].EComplete? && events[k].EComplete?
    requires events[i].complete.job == events[k].complete.job
    requires events[i].complete.ref.attempt == events[k].complete.ref.attempt
    requires CompleteReplyTo(states[i], events[i].complete).Recorded?
    ensures !CompleteReplyTo(states[k], events[k].complete).Recorded?
  {
    RunKeeps(states, events, i, i);
    RecordedExactlyWhen(states[i], events[i].complete);
    RunKeeps(states, events, i + 1, k);
    assert states[i + 1] == Next(states[i], events[i]);
    RecordedExactlyWhen(states[k], events[k].complete);
  }

  /**
   Fencing. Once an attempt has been leased, nothing an older attempt does later
   changes any row: its renewals and completions change nothing at all, and its
   expiry checks only leave the schedule.
   */
  lemma FencedNow(db: Db, e: Event, id: JobId, stale: int)
    requires id in db.jobs && GoodJob(db.jobs[id]) && stale < Attempt(db.jobs[id])
    ensures e.ERenew? && e.renew.job == id && e.renew.ref.attempt == stale ==>
              Next(db, e) == db && RenewReplyTo(db, e.renew).NotExtended?
    ensures e.EComplete? && e.complete.job == id && e.complete.ref.attempt == stale ==>
              Next(db, e) == db && CompleteReplyTo(db, e.complete).Superseded?
    ensures e.EFire? && e.timer.job == id && e.timer.attempt == stale ==>
              Next(db, e) == db.(timers := db.timers - multiset{e.timer})
  {
    hide Claim, Handover, Withdrawn;
  }

  lemma OlderAttemptsAreFenced(states: seq<Db>, events: seq<Event>, i: nat, k: nat, id: JobId, stale: int)
    requires Run(states, events) && i <= k < |events| && id in states[i].jobs
    requires stale < Attempt(states[i].jobs[id])
    ensures events[k].ERenew? && events[k].renew.job == id && events[k].renew.ref.attempt == stale ==>
              states[k + 1] == states[k] && RenewReplyTo(states[k], events[k].renew).NotExtended?
    ensures events[k].EComplete? && events[k].complete.job == id && events[k].complete.ref.attempt == stale ==>
              states[k + 1] == states[k] && CompleteReplyTo(states[k], events[k].complete).Superseded?
    ensures events[k].EFire? && events[k].timer.job == id && events[k].timer.attempt == stale ==>
              states[k + 1] == states[k].(timers := states[k].timers - multiset{events[k].timer})
  {
    RunKeeps(states, events, i, k);
    assert states[k + 1] == Next(states[k], events[k]);
    FencedNow(states[k], events[k], id, stale);
    hide Next, Legal, Good, Evolves, RenewReplyTo, CompleteReplyTo;
  }

  /**
   A failure that may be retried costs its attempt and a pause: until the backoff
   is over no claim hands the job out or touches it, and a claim after it that has
   room leases it, or withdraws it, at the next attempt.
   */
  predicate BacksOff(c: CompleteCall, job: Job) {
    && c.ref.attempt < JOB_MAX_ATTEMPTS && job.status == Queued && job.rank <= 1 && Attempt(job) == c.ref.attempt
    && job.availableAt == c.now + RetryDelayMs(c.ref.attempt)
    && c.now + 5_000 <= job.availableAt <= c.now + 600_000
  }

  lemma RetryWaits(db: Db, c: CompleteCall)
    requires Good(db) && CompleteReplyTo(db, c) == Recorded(Queued) && db.jobs[c.job].rank <= 1
    ensures Named(Complete(db, c), c.job) && Complete(db, c).jobs[c.job].runner == c.runner
    ensures BacksOff(c, Complete(db, c).jobs[c.job])
  {
    assert GoodJob(db.jobs[c.job]);
  }

  lemma NotBeforeDue(db: Db, claim: ClaimCall, id: JobId)
    requires ClaimReads(db, claim) && Answers(claim) && id in db.jobs
    requires db.jobs[id].status == Queued && claim.now < db.jobs[id].availableAt
    ensures id in Claim(db, claim).jobs && Claim(db, claim).jobs[id] == db.jobs[id] && id !in Claimed(db, claim)
  {
    ChosenRows(db, claim);
    HandedOutFrom(db, claim, Chosen(db, claim));
    hide Chosen, HandedOut, ChecksFor;
  }

  lemma RetriedAfterBackoff(db: Db, c: CompleteCall, claim: ClaimCall)
    requires Good(db) && CompleteReplyTo(db, c) == Recorded(Queued) && db.jobs[c.job].rank <= 1
    requires claim.runner == c.runner && ClaimReads(Complete(db, c), claim) && Answers(claim)
    ensures var next := Complete(db, c);
            var due := c.now + RetryDelayMs(c.ref.attempt);
            && c.ref.attempt < JOB_MAX_ATTEMPTS
            && c.now + 5_000 <= due <= c.now + 600_000
            && (claim.now < due ==>
                 Claim(next, claim).jobs[c.job] == next.jobs[c.job] && c.job !in Claimed(next, claim))
            && (claim.now >= due && |Candidates(next, claim).0| < Limit(claim)
                 && Candidates(next, claim).1 < IMPORTING_SKIP_MAX ==>
                  var job := Claim(next, claim).jobs[c.job];
                  job.status == Cancelled || job.lease ==
                    Some(Lease(LeaseRef(claim.boot, c.ref.attempt + 1), claim.now + JOB_LEASE_MS)))
  {
    var next := Complete(db, c);
    RetryWaits(db, c);
    CompleteKeeps(db, c);
    hide Complete, Claim, Claimed, Candidates, ClaimReads, Good;
    if claim.now < next.jobs[c.job].availableAt {
      NotBeforeDue(next, claim, c.job);
    } else if |Candidates(next, claim).0| < Limit(claim) && Candidates(next, claim).1 < IMPORTING_SKIP_MAX {
      ClaimLeavesNothingReady(next, claim, c.job);
    }
  }

  /**
   A renewal never shortens a lease, changes nothing but its expiry and a queued
   row's status, and leaves the attempt able to report.
   */
  lemma RenewalExtends(db: Db, c: RenewCall, outcome: Outcome)
    requires Good(db) && RenewReplyTo(db, c).Extended?
    ensures var next := Renew(db, c);
            var job := db.jobs[c.job];
            var at := next.jobs[c.job].lease.value.expiresAt;
            && next.jobs == db.jobs[c.job := job.(status := Leased, lease := Some(Lease(c.ref, at)))]
            && at >= c.now + 1_000 && at >= Asked(c)
            && (job.status == Leased ==> at >= job.lease.value.expiresAt)
            && CompleteReplyTo(next, CompleteCall(c.runner, c.job, c.ref, outcome, c.now)).Recorded?
  {
    assert GoodJob(db.jobs[c.job]);
  }

  // ── no lease is forgotten ──────────────────────────────────────────────────

  predicate ChecksLease(t: Timer, id: JobId, job: Job) {
    job.lease.Some? && t.job == id && t.attempt == Attempt(job) && t.at <= job.lease.value.expiresAt
  }

  /** A leased job has a pending check for its attempt, due no later than its lease expires. */
  ghost predicate Covered(db: Db, id: JobId) {
    id in db.jobs && db.jobs[id].status == Leased ==> exists t :: t in db.timers && ChecksLease(t, id, db.jobs[id])
  }

  lemma TimersKeepCover(db: Db, next: Db, id: JobId)
    requires Covered(db, id) && id in db.jobs && id in next.jobs
    requires forall t :: t in db.timers && t.job == id ==> t in next.timers
    requires next.jobs[id].status == Leased ==>
               db.jobs[id].status == Leased && db.jobs[id].lease.Some? && next.jobs[id].lease.Some? &&
               Attempt(next.jobs[id]) == Attempt(db.jobs[id]) &&
               db.jobs[id].lease.value.expiresAt <= next.jobs[id].lease.value.expiresAt
    ensures Covered(next, id)
  {
    if next.jobs[id].status == Leased {
      var t :| t in db.timers && ChecksLease(t, id, db.jobs[id]);
      assert t in next.timers && ChecksLease(t, id, next.jobs[id]);
    }
  }

  lemma ClaimKeepsCover(db: Db, c: ClaimCall, id: JobId)
    requires Good(db) && ClaimReads(db, c) && Covered(db, id)
    ensures Covered(Claim(db, c), id)
  {
    if id in db.jobs && Answers(c) {
      ChosenRows(db, c);
      if id in Chosen(db, c) && HandsOut(db, c, id) {
        CheckScheduled(db, c, Chosen(db, c), id);
        var t := Timer(id, Attempt(db.jobs[id]) + 1, c.now + JOB_LEASE_MS);
        assert t in Claim(db, c).timers && ChecksLease(t, id, Claim(db, c).jobs[id]);
      } else {
        TimersKeepCover(db, Claim(db, c), id);
      }
    }
  }

  lemma RenewKeepsCover(db: Db, c: RenewCall, id: JobId)
    requires Good(db) && Covered(db, id)
    ensures Covered(Renew(db, c), id)
  {
    if id in db.jobs {
      var reply := RenewReplyTo(db, c);
      if c.job == id && reply.Extended? && db.jobs[id].status != Leased {
        var t := Timer(id, c.ref.attempt, reply.lease.expiresAt);
        assert t in Renew(db, c).timers && ChecksLease(t, id, Renew(db, c).jobs[id]);
      } else {
        TimersKeepCover(db, Renew(db, c), id);
      }
    }
  }

  /** The check that fires is dropped (its project is hidden), and no other check of the lease is pending. */
  ghost predicate LosesCover(db: Db, e: Event, id: JobId) {
    && e.EFire? && e.timer.job == id
    && id in db.jobs && !Named(db, id) && db.jobs[id].status == Leased
    && !exists u :: u in db.timers - multiset{e.timer} && ChecksLease(u, id, db.jobs[id])
  }

  lemma FireKeepsCover(db: Db, t: Timer, now: int, id: JobId)
    requires Good(db) && Covered(db, id) && t in db.timers
    requires !LosesCover(db, EFire(t, now), id)
    ensures Covered(Fire(db, t, now), id)
  {
    var next := Fire(db, t, now);
    if id in db.jobs && next.jobs[id].status == Leased {
      var job := db.jobs[id];
      if t.job == id && Named(db, id) && t.attempt == Attempt(job) {
        assert ChecksLease(Timer(id, t.attempt, job.lease.value.expiresAt), id, next.jobs[id]);
      } else {
        var pending :| pending in (if t.job == id && !Named(db, id) then db.timers - multiset{t} else db.timers)
                       && ChecksLease(pending, id, job);
        assert pending in next.timers && ChecksLease(pending, id, next.jobs[id]);
      }
    }
  }

  lemma CompleteKeepsCover(db: Db, c: CompleteCall, id: JobId)
    requires Good(db) && Covered(db, id)
    ensures Covered(Complete(db, c), id)
  {
    if id in db.jobs {
      TimersKeepCover(db, Complete(db, c), id);
    }
  }

  lemma RestKeepsCover(db: Db, e: Event, id: JobId)
    requires Good(db) && Legal(db, e) && Covered(db, id)
    requires e.EEnqueue? || e.ECancel? || e.EHandover? || e.EHide? || e.EShow?
    ensures Covered(Next(db, e), id)
  {
    if id in db.jobs {
      TimersKeepCover(db, Next(db, e), id);
    }
  }

  lemma StepKeepsCover(db: Db, e: Event, id: JobId)
    requires Good(db) && Legal(db, e) && Covered(db, id) && !LosesCover(db, e, id)
    ensures Covered(Next(db, e), id)
  {
    hide Good, Covered, LosesCover, Claim, Renew, Complete, Fire, Handover, Withdrawn;
    match e
    case EClaim(claim) => ClaimKeepsCover(db, claim, id);
    case ERenew(renew) => RenewKeepsCover(db, renew, id);
    case EFire(t, now) => FireKeepsCover(db, t, now, id);
    case EComplete(complete) => CompleteKeepsCover(db, complete, id);
    case _ => RestKeepsCover(db, e, id);
  }

  /** Exactly when a step loses the pending check of a lease that had one. */
  lemma CoverLostExactlyWhen(db: Db, e: Event, id: JobId)
    requires Good(db) && Legal(db, e) && Covered(db, id)
    ensures Covered(Next(db, e), id) <==> !LosesCover(db, e, id)
  {
    if !LosesCover(db, e, id) {
      StepKeepsCover(db, e, id);
    }
  }

  /**
   No lease is forgotten at any moment of a stretch, through claims, renewals
   (late ones included), completions, withdrawals, handovers and hidden projects,
   if and only if it was not forgotten at first and no check of the job is
   dropped as its last one.
   */
  lemma {:induction false} NoLeaseForgotten(states: seq<Db>, events: seq<Event>, k: nat, id: JobId)
    requires Run(states, events) && k <= |events|
    ensures (forall i :: 0 <= i <= k ==> Covered(states[i], id)) <==>
              (Covered(states[0], id) && forall i :: 0 <= i < k ==> !LosesCover(states[i], events[i], id))
    decreases k
  {
    hide Covered, LosesCover, Next;
    if k > 0 {
      NoLeaseForgotten(states, events, k - 1, id);
      RunKeeps(states, events, 0, k - 1);
      assert Legal(states[k - 1], events[k - 1]) && states[k] == Next(states[k - 1], events[k - 1]);
      if Covered(states[k - 1], id) {
        CoverLostExactlyWhen(states[k - 1], events[k - 1], id);
      }
    }
  }

  const WAITING: Job := Job(0, 5, 1, false, Queued, 0, None, None, None, None)
  const ASKED: ClaimCall := ClaimCall(0, Uuid(1), None, false, [], [], [7], {5}, {}, 0)
  const FIRST_LEASE: Lease := Lease(LeaseRef(Uuid(1), 1), JOB_LEASE_MS)
  const CHECK: Timer := Timer(7, 1, JOB_LEASE_MS)

  /** A claim of the one job there is. */
  lemma ClaimsTheOne()
    ensures var db := Db(map[7 := WAITING], multiset{}, {});
            ClaimReads(db, ASKED) &&
            Claim(db, ASKED) == Db(map[7 := WAITING.(status := Leased, lease := Some(FIRST_LEASE))], multiset{CHECK},
                  {})
  {
    var db := Db(map[7 := WAITING], multiset{}, {});
    assert [] + [7] == [7] && [7][1..] == [];
    assert Scan(db, JOB_CLAIM_MAX, [], 0, [7]) == Scan(db, JOB_CLAIM_MAX, [7], 0, []);
    assert Chosen(db, ASKED) == [7];
    assert ChecksFor(db, ASKED, []) == multiset{};
    assert [7][..0] == [];
    assert ChecksFor(db, ASKED, [7]) == multiset{CHECK};
    assert Handed(db, ASKED, [7]) == map[7 := WAITING.(status := Leased, lease := Some(FIRST_LEASE))];
  }

  /**
   It does happen, from an empty inbox: a job is enqueued and claimed, its project
   is hidden, and its only check runs then. When the project is shown again, the
   job is still leased, past its expiry, and nothing is scheduled.
   */
  lemma HiddenProjectForgetsALease() returns (states: seq<Db>, events: seq<Event>)
    ensures Run(states, events) && states[0] == Db(map[], multiset{}, {})
    ensures events == [EEnqueue(7, WAITING), EClaim(ASKED), EHide(5), EFire(CHECK, JOB_LEASE_MS), EShow(5)]
    ensures Covered(states[3], 7) && LosesCover(states[3], events[3], 7)
    ensures Named(states[5], 7) && states[5].jobs[7].lease == Some(FIRST_LEASE) && states[5].timers == multiset{}
    ensures Forgotten(states[5], 7)
  {
    hide Next, Legal, Covered, LosesCover, Forgotten, Named, Good;
    var leased := map[7 := WAITING.(status := Leased, lease := Some(FIRST_LEASE))];
    OneStepEach(leased);
    DropsTheCheck(leased);
    LeftForgotten(leased);
    states, events := FiveSteps(
      Db(map[], multiset{}, {}), EEnqueue(7, WAITING), Db(map[7 := WAITING], multiset{}, {}), EClaim(ASKED),
      Db(leased, multiset{CHECK}, {}), EHide(5), Db(leased, multiset{CHECK}, {5}), EFire(CHECK, JOB_LEASE_MS),
      Db(leased, multiset{}, {5}), EShow(5), Db(leased, multiset{}, {}));
    hide Run;
  }

  lemma FiveSteps(a: Db, u: Event, b: Db, v: Event, c: Db, w: Event, d: Db, x: Event, e: Db, y: Event, f: Db)
    returns (states: seq<Db>, events: seq<Event>)
    requires Good(a)
    requires Legal(a, u)
    requires Next(a, u) == b
    requires Legal(b, v)
    requires Next(b, v) == c
    requires Legal(c, w)
    requires Next(c, w) == d
    requires Legal(d, x) && Next(d, x) == e && Legal(e, y) && Next(e, y) == f
    ensures states == [a, b, c, d, e, f] && events == [u, v, w, x, y] && Run(states, events)
  {
    hide Next, Legal, Good;
    states, events := [a, b, c, d, e, f], [u, v, w, x, y];
  }

  lemma LeftForgotten(leased: map<JobId, Job>)
    requires leased == map[7 := WAITING.(status := Leased, lease := Some(FIRST_LEASE))]
    ensures Named(Db(leased, multiset{}, {}), 7) && leased[7].lease == Some(FIRST_LEASE)
    ensures Forgotten(Db(leased, multiset{}, {}), 7) && Good(Db(map[], multiset{}, {}))
  {
  }

  lemma OneStepEach(leased: map<JobId, Job>)
    requires leased == map[7 := WAITING.(status := Leased, lease := Some(FIRST_LEASE))]
    ensures var empty := Db(map[], multiset{}, {});
            Legal(empty, EEnqueue(7, WAITING)) && Next(empty, EEnqueue(7, WAITING)) ==
              Db(map[7 := WAITING], multiset{}, {})
    ensures var queued := Db(map[7 := WAITING], multiset{}, {});
            Legal(queued, EClaim(ASKED)) && Next(queued, EClaim(ASKED)) == Db(leased, multiset{CHECK}, {})
    ensures var claimed := Db(leased, multiset{CHECK}, {});
            Legal(claimed, EHide(5)) && Next(claimed, EHide(5)) == Db(leased, multiset{CHECK}, {5})
    ensures var forgotten := Db(leased, multiset{}, {5});
            Legal(forgotten, EShow(5)) && Next(forgotten, EShow(5)) == Db(leased, multiset{}, {})
  {
    ClaimsTheOne();
    hide Claim, ClaimReads;
  }

  lemma DropsTheCheck(leased: map<JobId, Job>)
    requires leased == map[7 := WAITING.(status := Leased, lease := Some(FIRST_LEASE))]
    ensures var db := Db(leased, multiset{CHECK}, {5});
            && Covered(db, 7) && LosesCover(db, EFire(CHECK, JOB_LEASE_MS), 7)
            && Legal(db, EFire(CHECK, JOB_LEASE_MS))
            && Next(db, EFire(CHECK, JOB_LEASE_MS)) == Db(leased, multiset{}, {5})
  {
    assert multiset{CHECK} - multiset{CHECK} == multiset{};
    assert CHECK in multiset{CHECK} && ChecksLease(CHECK, 7, leased[7]);
  }

  // ── a forgotten lease ──────────────────────────────────────────────────────

  /** A lease no pending check looks at, early or late. */
  ghost predicate Forgotten(db: Db, id: JobId) {
    && id in db.jobs && db.jobs[id].status == Leased
    && forall t :: t in db.timers && t.job == id ==> t.attempt != Attempt(db.jobs[id])
  }

  /**
   Somebody acts on the lease: a claim from another boot that reads it, a completion, a refused
   renewal, a withdrawal.
   */
  predicate ActsOnLease(db: Db, e: Event, id: JobId) {
    match e
    case EClaim(claim) => id in claim.leased && HeldByEarlierBoot(db, claim, id)
    case EComplete(complete) => complete.job == id && CompleteReplyTo(db, complete).Recorded?
    case ERenew(renew) => renew.job == id && RenewWithdraws(db, renew)
    case ECancel(job, _, _) => job == id
    case _ => false
  }

  lemma ChecksAreForChosen(db: Db, c: ClaimCall, ids: seq<JobId>, id: JobId)
    requires id !in ids
    ensures forall t :: t in ChecksFor(db, c, ids) ==> t.job != id
  {
    if ids != [] {
      assert ids == ids[..|ids| - 1] + [ids[|ids| - 1]];
      ChecksAreForChosen(db, c, ids[..|ids| - 1], id);
    }
  }

  /** A leased job is chosen only by taking it back. */
  lemma NotChosen(db: Db, c: ClaimCall, id: JobId)
    requires ClaimReads(db, c) && id in db.jobs && db.jobs[id].status == Leased
    requires !(id in c.leased && HeldByEarlierBoot(db, c, id))
    ensures id !in Chosen(db, c)
  {
    var back := TakenBack(db, c, c.leased);
    TakenBackFrom(db, c, c.leased);
    ScanFinds(db, Limit(c), back, 0, c.urgent);
    var (urgent, passed) := Scan(db, Limit(c), back, 0, c.urgent);
    ScanFinds(db, Limit(c), urgent, passed, c.normal);
    assert id !in back && id !in c.urgent && id !in c.normal by {
      assert !ReadyRow(db, id, c.runner, 0, c.now) && !ReadyRow(db, id, c.runner, 1, c.now);
    }
  }

  predicate SameLeaseRef(db: Db, next: Db, id: JobId) {
    && id in db.jobs && id in next.jobs
    && db.jobs[id].lease.Some? && IsLease(next.jobs[id], db.jobs[id].lease.value.ref)
  }

  lemma ClaimLeavesForgotten(db: Db, c: ClaimCall, id: JobId)
    requires Good(db) && ClaimReads(db, c) && Forgotten(db, id) && !ActsOnLease(db, EClaim(c), id)
    ensures Forgotten(Claim(db, c), id) && SameLeaseRef(db, Claim(db, c), id)
  {
    assert GoodJob(db.jobs[id]);
    NotChosen(db, c, id);
    ChecksAreForChosen(db, c, Chosen(db, c), id);
  }

  lemma RenewLeavesForgotten(db: Db, c: RenewCall, id: JobId)
    requires Good(db) && Forgotten(db, id) && !ActsOnLease(db, ERenew(c), id)
    ensures Forgotten(Renew(db, c), id) && SameLeaseRef(db, Renew(db, c), id)
  {
    assert GoodJob(db.jobs[id]);
  }

  lemma FireLeavesForgotten(db: Db, t: Timer, now: int, id: JobId)
    requires Good(db) && t in db.timers && Forgotten(db, id)
    ensures Forgotten(Fire(db, t, now), id) && SameLeaseRef(db, Fire(db, t, now), id)
  {
    assert GoodJob(db.jobs[id]);
  }

  lemma StaysForgottenStep(db: Db, e: Event, id: JobId)
    requires Good(db) && Legal(db, e) && Forgotten(db, id) && !ActsOnLease(db, e, id)
    ensures Forgotten(Next(db, e), id) && SameLeaseRef(db, Next(db, e), id)
  {
    hide Claim, Renew, Fire;
    assert GoodJob(db.jobs[id]);
    match e
    case EClaim(claim) => ClaimLeavesForgotten(db, claim, id);
    case ERenew(renew) => RenewLeavesForgotten(db, renew, id);
    case EFire(t, now) => FireLeavesForgotten(db, t, now, id);
    case _ =>
  }

  /**
   However long it is left, no check ever ends a forgotten lease: it lasts, its boot and attempt
   unchanged, until somebody acts on it.
   */
  lemma {:induction false} ForgottenUntilActedOn(states: seq<Db>, events: seq<Event>, i: nat, k: nat, id: JobId)
    requires Run(states, events) && i <= k <= |events| && Forgotten(states[i], id)
    requires forall j :: i <= j < k ==> !ActsOnLease(states[j], events[j], id)
    ensures Forgotten(states[k], id) && SameLeaseRef(states[i], states[k], id)
    decreases k
  {
    hide Next, ActsOnLease;
    RunKeeps(states, events, 0, i);
    assert GoodJob(states[i].jobs[id]);
    if i < k {
      ForgottenUntilActedOn(states, events, i, k - 1, id);
      RunKeeps(states, events, 0, k - 1);
      assert Legal(states[k - 1], events[k - 1]) && states[k] == Next(states[k - 1], events[k - 1]);
      StaysForgottenStep(states[k - 1], events[k - 1], id);
    }
  }

  /** A claim with room for everything it takes back chooses all of it. */
  lemma TakenBackIsChosen(db: Db, c: ClaimCall, id: JobId)
    requires |TakenBack(db, c, c.leased)| <= Limit(c) && id in TakenBack(db, c, c.leased)
    ensures id in Chosen(db, c)
  {
    var back := TakenBack(db, c, c.leased);
    ScanFinds(db, Limit(c), back, 0, c.urgent);
    var (urgent, passed) := Scan(db, Limit(c), back, 0, c.urgent);
    ScanFinds(db, Limit(c), urgent, passed, c.normal);
    var i :| 0 <= i < |back| && back[i] == id;
    assert Chosen(db, c)[i] == id;
  }

  /**
   A claim from a new boot takes a forgotten lease back, as it takes back any
   lease of an earlier boot: the job is leased to that boot at the next attempt,
   now checked again, or withdrawn, or dead-lettered after its last attempt. It
   needs the project shown and room for what it takes back.
   */
  lemma ChosenLeaseIsHanded(db: Db, c: ClaimCall, id: JobId)
    requires id in db.jobs && GoodJob(db.jobs[id]) && db.jobs[id].status == Leased && Answers(c) && id in Chosen(db, c)
    requires Attempt(db.jobs[id]) < JOB_MAX_ATTEMPTS
    ensures var next := Claim(db, c);
            && id in next.jobs
            && (|| next.jobs[id].status == Cancelled
                || (next.jobs[id].status == Leased && Covered(next, id) && id in Claimed(db, c) &&
                    next.jobs[id].lease == Some(Lease(LeaseRef(c.boot, Attempt(db.jobs[id]) + 1),
                          c.now + JOB_LEASE_MS))))
  {
    HandedOutFrom(db, c, Chosen(db, c));
    hide Chosen, HandedOut, ChecksFor;
    if HandsOut(db, c, id) {
      CheckScheduled(db, c, Chosen(db, c), id);
      var t := Timer(id, Attempt(db.jobs[id]) + 1, c.now + JOB_LEASE_MS);
      assert t in Claim(db, c).timers && ChecksLease(t, id, Claim(db, c).jobs[id]);
    }
  }

  lemma DyingLeaseDies(db: Db, c: ClaimCall, id: JobId)
    requires Answers(c) && DiesInClaim(db, c, id)
    ensures id in Claim(db, c).jobs && Claim(db, c).jobs[id].status == Expired
  {
    hide Chosen, ChecksFor;
  }

  lemma NewBootTakesItBack(db: Db, c: ClaimCall, id: JobId)
    requires Good(db) && ClaimReads(db, c) && Answers(c)
    requires Named(db, id) && db.jobs[id].status == Leased && db.jobs[id].runner == c.runner
    requires |c.leased| < LEASED_SCAN && |TakenBack(db, c, c.leased)| <= Limit(c)
    requires db.jobs[id].lease.value.ref.boot != c.boot
    ensures var next := Claim(db, c);
            var job := next.jobs[id];
            && (Attempt(db.jobs[id]) == JOB_MAX_ATTEMPTS ==> job.status == Expired)
            && (Attempt(db.jobs[id]) < JOB_MAX_ATTEMPTS ==>
                  || job.status == Cancelled
                  || (job.status == Leased && Covered(next, id) && id in Claimed(db, c) &&
                      job.lease == Some(Lease(LeaseRef(c.boot, Attempt(db.jobs[id]) + 1), c.now + JOB_LEASE_MS))))
  {
    hide Claim, Claimed, Covered, Candidates, Chosen;
    assert GoodJob(db.jobs[id]) && id in c.leased;
    if Attempt(db.jobs[id]) < JOB_MAX_ATTEMPTS {
      TakenBackFrom(db, c, c.leased);
      TakenBackIsChosen(db, c, id);
      ChosenLeaseIsHanded(db, c, id);
    } else {
      DyingLeaseDies(db, c, id);
    }
  }

  /** Running the scheduled checks of `order`, in that order, at `now`. */
  function FireAll(db: Db, order: seq<Timer>, now: int): Db
    decreases |order|
  {
    if order == [] then db else FireAll(Fire(db, order[0], now), order[1..], now)
  }

  lemma {:induction false} ChecksSettle(db: Db, order: seq<Timer>, now: int, id: JobId, job: Job, settled: bool)
    requires Named(db, id) && GoodJob(job) && job.status == Leased && job.lease.value.expiresAt <= now
    requires db.jobs[id] == if settled then LeaseRanOut(job, now) else job
    requires settled || exists i :: 0 <= i < |order| && order[i].job == id && order[i].attempt == Attempt(job)
    ensures Named(FireAll(db, order, now), id) && FireAll(db, order, now).jobs[id] == LeaseRanOut(job, now)
    decreases |order|
  {
    if order != [] {
      var t := order[0];
      var next := Fire(db, t, now);
      if settled || (t.job == id && t.attempt == Attempt(job)) {
        ChecksSettle(next, order[1..], now, id, job, true);
      } else {
        var i :| 0 <= i < |order| && order[i].job == id && order[i].attempt == Attempt(job);
        assert order[1..][i - 1] == order[i];
        ChecksSettle(next, order[1..], now, id, job, false);
      }
    }
  }

  /**
   Once a covered lease has run out and the due checks have run, in whatever
   order, the job is back in the queue with a backoff, or dead-lettered when it
   was the last attempt.
   */
  lemma DueChecksEndTheLease(db: Db, order: seq<Timer>, now: int, id: JobId)
    requires Good(db) && Covered(db, id) && Named(db, id)
    requires db.jobs[id].status == Leased && db.jobs[id].lease.value.expiresAt <= now
    requires forall t :: t in db.timers && t.at <= now ==> t in order
    ensures Named(FireAll(db, order, now), id)
    ensures var job := FireAll(db, order, now).jobs[id];
            && Attempt(job) == Attempt(db.jobs[id])
            && (Attempt(job) < JOB_MAX_ATTEMPTS ==>
                 job.status == Queued && job.availableAt == now + RetryDelayMs(Attempt(job)))
            && (Attempt(job) == JOB_MAX_ATTEMPTS ==> job.status == Expired && job.ending == EndingAt(now))
  {
    var t :| t in db.timers && ChecksLease(t, id, db.jobs[id]);
    assert t in order;
    ChecksSettle(db, order, now, id, db.jobs[id], false);
  }
}
