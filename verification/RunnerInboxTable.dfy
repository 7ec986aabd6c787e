/**
 The inbox as the backend keeps it: tables updated in place, one method per
 mutation. Each method is proved equal to the mutation of `RunnerInbox` it
 performs, so everything `RunnerInboxProofs` says holds of it.
 */
module RunnerInboxTable {
  import opened Wrappers
  import opened RunnerInbox
  import opened RunnerInboxProofs

  /** The rows after the first `n` leased jobs were looked at. */
  ghost function Swept(db: Db, c: ClaimCall, n: nat): map<JobId, Job>
    requires n <= |c.leased|
  {
    map id | id in db.jobs ::
      if id in c.leased[..n] && DiesInClaim(db, c, id) then DeadLettered(db.jobs[id], c.now) else db.jobs[id]
  }

  lemma SweptRow(db: Db, c: ClaimCall, n: nat, id: JobId)
    requires n < |c.leased| && Distinct(c.leased) && id in db.jobs
    ensures Swept(db, c, n + 1)[id] ==
              if id == c.leased[n] && DiesInClaim(db, c, id) then DeadLettered(db.jobs[id], c.now)
              else Swept(db, c, n)[id]
    ensures id == c.leased[n] ==> Swept(db, c, n)[id] == db.jobs[id]
  {
    hide DiesInClaim, DeadLettered;
    assert id in c.leased[..n + 1] <==> id in c.leased[..n] || id == c.leased[n];
  }

  lemma SweptKeys(db: Db, c: ClaimCall, n: nat)
    requires n <= |c.leased|
    ensures Swept(db, c, n).Keys == db.jobs.Keys
  {
  }

  lemma SweptNext(db: Db, c: ClaimCall, n: nat)
    requires n < |c.leased| && Distinct(c.leased) && c.leased[n] in db.jobs
    ensures Swept(db, c, n)[c.leased[n]] == db.jobs[c.leased[n]]
    ensures Swept(db, c, n + 1) ==
              if DiesInClaim(db, c, c.leased[n])
              then Swept(db, c, n)[c.leased[n] := DeadLettered(db.jobs[c.leased[n]], c.now)]
              else Swept(db, c, n)
  {
    hide Swept, DiesInClaim, DeadLettered;
    SweptKeys(db, c, n);
    SweptKeys(db, c, n + 1);
    forall id | id in db.jobs
      ensures Swept(db, c, n + 1)[id] ==
                if id == c.leased[n] && DiesInClaim(db, c, id) then DeadLettered(db.jobs[id], c.now)
                else Swept(db, c, n)[id]
    {
      SweptRow(db, c, n, id);
    }
    SweptRow(db, c, n, c.leased[n]);
  }

  /** What the loop over the leased jobs decides of the next one. */
  lemma TakenNext(db: Db, c: ClaimCall, n: nat)
    requires Good(db) && ClaimReads(db, c) && n < |c.leased|
    ensures var id := c.leased[n];
            && id in db.jobs && db.jobs[id].lease.Some?
            && (DiesInClaim(db, c, id) <==> HeldByEarlierBoot(db, c, id) && Attempt(db.jobs[id]) >= JOB_MAX_ATTEMPTS)
            && TakenBack(db, c, c.leased[..n + 1]) == TakenBack(db, c, c.leased[..n])
                 + (if HeldByEarlierBoot(db, c, id) && Attempt(db.jobs[id]) < JOB_MAX_ATTEMPTS then [id] else [])
  {
    hide HeldByEarlierBoot;
    assert GoodJob(db.jobs[c.leased[n]]);
    assert c.leased[..n + 1][..n] == c.leased[..n] && c.leased[..n + 1][n] == c.leased[n];
  }

  /** Dead-lettering leases hides no ready job. */
  lemma NamedStill(db: Db, c: ClaimCall)
    requires ClaimReads(db, c)
    ensures var swept := db.(jobs := Swept(db, c, |c.leased|));
            forall id :: id in c.urgent || id in c.normal ==> id in swept.jobs && (Named(swept, id) <==> Named(db, id))
  {
    SweptKeys(db, c, |c.leased|);
  }

  lemma ChosenInHand(db: Db, c: ClaimCall)
    requires Good(db) && ClaimReads(db, c)
    ensures InHand(db, c, Chosen(db, c))
  {
    ChosenRows(db, c);
    hide ClaimReads, Chosen, Good;
  }

  lemma StartOfClaim(db: Db, c: ClaimCall)
    requires ClaimReads(db, c)
    ensures Distinct(c.leased) && forall id :: id in c.leased ==> id in db.jobs
    ensures TakenBack(db, c, c.leased[..0]) == [] && Swept(db, c, 0) == db.jobs
  {
  }

  lemma SweptAll(db: Db, c: ClaimCall)
    ensures Swept(db, c, |c.leased|) == Handed(db, c, [])
  {
    assert c.leased[..|c.leased|] == c.leased;
  }

  /** Jobs that may be handed out one after the other: known, no job twice, none of them dying in this claim. */
  ghost predicate InHand(db: Db, c: ClaimCall, chosen: seq<JobId>) {
    Distinct(chosen) && forall id :: id in chosen ==>
      id in db.jobs && !DiesInClaim(db, c, id) && !Terminal(db.jobs[id].status)
  }

  lemma HandedRow(db: Db, c: ClaimCall, chosen: seq<JobId>, k: nat, id: JobId)
    requires InHand(db, c, chosen) && k < |chosen| && id in db.jobs
    ensures Handed(db, c, chosen[..k + 1])[id] == if id == chosen[k] then ChosenRow(db, c, id)
            else Handed(db, c, chosen[..k])[id]
    ensures id == chosen[k] ==> Handed(db, c, chosen[..k])[id] == db.jobs[id]
  {
    hide ChosenRow, DeadLettered;
    assert id in chosen[..k + 1] <==> id in chosen[..k] || id == chosen[k];
    assert chosen[k] !in chosen[..k];
  }

  lemma HandedNext(db: Db, c: ClaimCall, chosen: seq<JobId>, k: nat)
    requires InHand(db, c, chosen) && k < |chosen|
    ensures chosen[k] in Handed(db, c, chosen[..k]) && Handed(db, c, chosen[..k])[chosen[k]] == db.jobs[chosen[k]]
    ensures Handed(db, c, chosen[..k + 1]) == Handed(db, c, chosen[..k])[chosen[k] := ChosenRow(db, c, chosen[k])]
  {
    forall id | id in db.jobs
      ensures Handed(db, c, chosen[..k + 1])[id] == if id == chosen[k] then ChosenRow(db, c, id)
              else Handed(db, c, chosen[..k])[id]
    {
      HandedRow(db, c, chosen, k, id);
    }
    HandedRow(db, c, chosen, k, chosen[k]);
    assert Handed(db, c, chosen[..k]).Keys == db.jobs.Keys == Handed(db, c, chosen[..k + 1]).Keys;
    hide Handed, ChosenRow, DiesInClaim;
  }

  lemma NothingHanded(db: Db, c: ClaimCall, chosen: seq<JobId>)
    ensures chosen[..0] == [] && HandedOut(db, c, []) == [] && ChecksFor(db, c, []) == multiset{}
  {
  }

  /** What one more chosen job adds to the answer and to the schedule. */
  lemma AnswersNext(db: Db, c: ClaimCall, chosen: seq<JobId>, k: nat)
    requires InHand(db, c, chosen) && k < |chosen|
    ensures var id := chosen[k];
            && HandedOut(db, c, chosen[..k + 1]) ==
               HandedOut(db, c, chosen[..k]) + (if HandsOut(db, c, id) then [id] else [])
            && ChecksFor(db, c, chosen[..k + 1]) == ChecksFor(db, c, chosen[..k]) +
                 (if HandsOut(db, c, id) then multiset{Timer(id, Attempt(db.jobs[id]) + 1, c.now + JOB_LEASE_MS)}
                     else multiset{})
  {
    assert chosen[..k + 1][..k] == chosen[..k] && chosen[..k + 1][k] == chosen[k];
  }

  class Inbox {
    var jobs: map<JobId, Job>
    var timers: multiset<Timer>
    var hidden: set<ProjectId>

    constructor ()
      ensures Tables() == Db(map[], multiset{}, {})
    {
      jobs, timers, hidden := map[], multiset{}, {};
    }

    ghost function Tables(): Db
      reads this
    {
      Db(jobs, timers, hidden)
    }

    /** Leases a job until `expiresAt`, with the scheduled check that expires it. */
    method TakeLease(id: JobId, ref: LeaseRef, expiresAt: int)
      requires id in jobs
      modifies this`jobs, this`timers
      ensures jobs == old(jobs)[id := LeasedTo(old(jobs)[id], ref, expiresAt)]
      ensures timers == old(timers) + multiset{Timer(id, ref.attempt, expiresAt)}
    {
      jobs := jobs[id := LeasedTo(jobs[id], ref, expiresAt)];
      timers := timers + multiset{Timer(id, ref.attempt, expiresAt)};
    }

    method Withdraw(id: JobId, code: string, now: int)
      requires id in jobs
      modifies this`jobs
      ensures jobs == old(jobs)[id := Withdrawn(old(jobs)[id], code, now)]
    {
      if !Terminal(jobs[id].status) {
        jobs := jobs[id := Withdrawn(jobs[id], code, now)];
      }
    }

    /** Takes back what an earlier boot held: a job out of attempts dies, the others are candidates. */
    method TakeBack(c: ClaimCall) returns (candidates: seq<JobId>)
      requires Good(Tables()) && ClaimReads(Tables(), c)
      modifies this`jobs
      ensures candidates == TakenBack(old(Tables()), c, c.leased)
      ensures jobs == Swept(old(Tables()), c, |c.leased|)
    {
      hide Good, ClaimReads, Swept, TakenBack, DiesInClaim, DeadLettered;
      candidates := [];
      ghost var db := Tables();
      StartOfClaim(db, c);
      for i := 0 to |c.leased|
        invariant candidates == TakenBack(db, c, c.leased[..i])
        invariant jobs == Swept(db, c, i)
        invariant hidden == db.hidden
      {
        var id := c.leased[i];
        SweptNext(db, c, i);
        SweptKeys(db, c, i);
        TakenNext(db, c, i);
        var job := jobs[id];
        if job.lease.value.ref.boot != c.boot && job.project !in hidden {
          if Attempt(job) >= JOB_MAX_ATTEMPTS {
            jobs := jobs[id := DeadLettered(job, c.now)];
          } else {
            candidates := candidates + [id];
          }
        }
      }
      assert c.leased[..|c.leased|] == c.leased;
    }

    /** One priority's range, up to the limit, passing over jobs of hidden projects. */
    method Fill(limit: nat, found: seq<JobId>, passed: nat, ids: seq<JobId>, ghost db: Db)
      returns (candidates: seq<JobId>, passedOver: nat)
      requires forall id :: id in ids ==> id in jobs && (Named(Tables(), id) <==> Named(db, id))
      ensures (candidates, passedOver) == Scan(db, limit, found, passed, ids)
    {
      candidates, passedOver := found, passed;
      var i := 0;
      while i < |ids| && |candidates| < limit && passedOver < IMPORTING_SKIP_MAX
        invariant 0 <= i <= |ids|
        invariant Scan(db, limit, found, passed, ids) == Scan(db, limit, candidates, passedOver, ids[i..])
      {
        var id := ids[i];
        assert ids[i..][0] == id && ids[i..][1..] == ids[i + 1..];
        if jobs[id].project in hidden {
          passedOver := passedOver + 1;
        } else {
          candidates := candidates + [id];
        }
        i := i + 1;
      }
    }

    /** Leases each chosen job to the calling boot, or withdraws it. */
    method HandOut(c: ClaimCall, chosen: seq<JobId>, ghost db: Db) returns (claimed: seq<JobId>)
      requires InHand(db, c, chosen)
      requires jobs == Handed(db, c, []) && timers == db.timers
      modifies this`jobs, this`timers
      ensures claimed == HandedOut(db, c, chosen)
      ensures jobs == Handed(db, c, chosen)
      ensures timers == db.timers + ChecksFor(db, c, chosen)
    {
      claimed := [];
      NothingHanded(db, c, chosen);
      hide Handed, HandedOut, ChecksFor, DiesInClaim;
      for k := 0 to |chosen|
        invariant claimed == HandedOut(db, c, chosen[..k])
        invariant timers == db.timers + ChecksFor(db, c, chosen[..k])
        invariant jobs == Handed(db, c, chosen[..k])
      {
        var id := chosen[k];
        HandedNext(db, c, chosen, k);
        AnswersNext(db, c, chosen, k);
        var job := jobs[id];
        if job.project !in c.mayWork {
          Withdraw(id, "not_a_member", c.now);
        } else if id in c.lost {
          Withdraw(id, "access_lost", c.now);
        } else {
          TakeLease(id, NextRef(job, c.boot), c.now + JOB_LEASE_MS);
          claimed := claimed + [id];
        }
      }
      assert chosen[..|chosen|] == chosen;
    }

    /**
     Leases up to the limit of the calling runner's ready jobs, or withdraws those its owner may no
     longer work on.
     */
    method Claim(c: ClaimCall) returns (claimed: seq<JobId>)
      requires Good(Tables()) && ClaimReads(Tables(), c)
      modifies this`jobs, this`timers
      ensures Tables() == RunnerInbox.Claim(old(Tables()), c)
      ensures claimed == Claimed(old(Tables()), c)
    {
      hide Good, ClaimReads, Swept, TakenBack, Handed, HandedOut, ChecksFor, Scan, InHand;
      if !c.boot.Uuid? || c.barred {
        return [];
      }
      ghost var db := Tables();
      var limit := Limit(c);
      var candidates := TakeBack(c);
      NamedStill(db, c);
      var passedOver := 0;
      candidates, passedOver := Fill(limit, candidates, passedOver, c.urgent, db);
      candidates, passedOver := Fill(limit, candidates, passedOver, c.normal, db);
      SweptAll(db, c);
      ChosenInHand(db, c);
      claimed := HandOut(c, if |candidates| > limit then candidates[..limit] else candidates, db);
    }

    /** Extends a lease; one that ran out without a successor is taken up again. */
    method Renew(c: RenewCall) returns (reply: RenewReply)
      modifies this`jobs, this`timers
      ensures Tables() == RunnerInbox.Renew(old(Tables()), c)
      ensures reply == RenewReplyTo(old(Tables()), c)
    {
      if c.job !in jobs || jobs[c.job].project in hidden || jobs[c.job].runner != c.runner {
        return NotExtended(LostGone);
      }
      var job := jobs[c.job];
      if job.status == Cancelled {
        return NotExtended(LostCancelled);
      }
      if !WellFormed(c.ref) || !LeaseMayContinue(job, c.ref) {
        return NotExtended(LostFenced);
      }
      if !c.mayWork {
        Withdraw(c.job, "not_a_member", c.now);
        return NotExtended(LostCancelled);
      }
      if job.status == Leased {
        var expiresAt := if job.lease.value.expiresAt > Asked(c) then job.lease.value.expiresAt else Asked(c);
        jobs := jobs[c.job := job.(lease := Some(Lease(c.ref, expiresAt)))];
        reply := Extended(Lease(c.ref, expiresAt));
      } else {
        TakeLease(c.job, c.ref, Asked(c));
        reply := Extended(Lease(c.ref, Asked(c)));
      }
    }

    method RecordFailure(id: JobId, ref: LeaseRef, code: string, retryable: bool, now: int) returns (status: Status)
      requires id in jobs
      modifies this`jobs
      ensures jobs == old(jobs)[id := FailedJob(old(jobs)[id], ref, code, retryable, now)]
      ensures status == jobs[id].status
    {
      var job := jobs[id];
      var failure := Some(Failure(ref.attempt, code, retryable, ByRunner, now));
      status := if retryable && ref.attempt < JOB_MAX_ATTEMPTS && job.status != Expired then Queued else Failed;
      if status == Queued {
        jobs := jobs[id := job.(status := status, failure := failure, availableAt := now + RetryDelayMs(ref.attempt))];
      } else {
        jobs := jobs[id := job.(status := status, failure := failure, ending := EndingAt(now))];
      }
    }

    /** Records a lease's outcome: idempotent, fenced, and accepted late. */
    method Complete(c: CompleteCall) returns (reply: CompleteReply)
      modifies this`jobs
      ensures Tables() == RunnerInbox.Complete(old(Tables()), c)
      ensures reply == CompleteReplyTo(old(Tables()), c)
    {
      if c.job !in jobs || jobs[c.job].project in hidden || jobs[c.job].runner != c.runner {
        return Superseded(LostGone);
      }
      var job := jobs[c.job];
      if !WellFormed(c.ref) {
        return Superseded(LostFenced);
      }
      if AlreadyReported(job, c.ref) {
        return Duplicate(job.status);
      }
      if job.status == Cancelled {
        return Superseded(LostCancelled);
      }
      if !LeaseMayReport(job, c.ref) {
        return Superseded(LostFenced);
      }
      var status: Status;
      match c.outcome {
        case DoneWith(result, storable) =>
          if storable {
            jobs := jobs[c.job := Completed(job, result, c.now)];
            status := Done;
          } else {
            status := RecordFailure(c.job, c.ref, "invalid_job_result", false, c.now);
          }
        case FailedWith(code, retryable) =>
          status := RecordFailure(c.job, c.ref, CodeOf(code), retryable, c.now);
      }
      return Recorded(status);
    }

    /** The scheduled check behind a lease: moves with a renewed lease, ends one that ran out. */
    method ExpireLease(t: Timer, now: int)
      requires Good(Tables()) && t in timers
      modifies this`jobs, this`timers
      ensures Tables() == Fire(old(Tables()), t, now)
    {
      timers := timers - multiset{t};
      if t.job !in jobs || jobs[t.job].project in hidden {
        return;
      }
      var job := jobs[t.job];
      if job.status != Leased || job.lease.value.ref.attempt != t.attempt {
        return;
      }
      if job.lease.value.expiresAt > now {
        timers := timers + multiset{Timer(t.job, t.attempt, job.lease.value.expiresAt)};
      } else if t.attempt >= JOB_MAX_ATTEMPTS {
        jobs := jobs[t.job := DeadLettered(job, now)];
      } else {
        jobs := jobs[t.job := job.(status := Queued, availableAt := now + RetryDelayMs(t.attempt),
                                   failure := Some(Failure(t.attempt, "lease_expired", true, ByBackend, now)))];
      }
    }
  }
}
