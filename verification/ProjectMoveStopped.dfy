/**
 What a stop of a purge does not promise: a purge the cron gave up on can be
 restarted by the cron, when the worker it gave up on is only slow.
 */
module ProjectMoveStopped {
  import opened Wrappers
  import PurgeDrain
  import opened ProjectMove
  import opened ProjectMoveRuns
  import opened ProjectMoveCron
  import opened ProjectMoveLate

  const OTHER: Key := Key(MovePrefix(0), 0)
  const BUSY: int := 4_800_000
  const STALLED: int := 5_400_000
  const FAILURE: PurgeError := LinkFailed("network:delete:0")
  const STALL: Option<PurgeError> := Some(Stopped("stalled"))

  /** The move in its objects phase, under the run that so many restarts minted. */
  function Purging(restarted: nat, restarts: nat, error: Option<PurgeError>, objects: nat, updatedAt: int,
          stored: set<Key>, workers: map<RunId, Worker>): Db
  {
    var purge := Purge(restarted + 1, ObjectsPhase, 0, 1, objects, None, error, restarts, updatedAt);
    Db(map[0 := Move(1, 0, 0, Aborting, 0, Some(0), None, Some(purge))], map[], map[1 := 0], 1, stored, workers,
       restarted + 2, {})
  }

  /** Until the last restart nobody has reported anything. */
  function Waiting(restarted: nat, updatedAt: int): Db {
    Purging(restarted, restarted, None, 0, updatedAt, {KEY, OTHER}, map[])
  }

  function Sixth(w: Worker): map<RunId, Worker> {
    map[6 := w]
  }

  /**
   After the abort another upload lands; the rows are purged, and no run's worker reports: the cron
   restarts it once.
   */
  lemma UploadsOther()
    ensures Legal(Linked(RowsPhase, {KEY}), EUpload(OTHER))
    ensures Next(Linked(RowsPhase, {KEY}), EUpload(OTHER)) == Linked(RowsPhase, {KEY, OTHER})
  {
    assert {KEY} + {OTHER} == {KEY, OTHER};
  }

  lemma PlayFirstRestart(start: Db) returns (end: Db)
    requires start == Db(map[0 := Cancelling(1, RowsPhase, 0, 0, 0, 0)], HIDDEN, map[], 1, {KEY}, map[], 2, {})
    ensures end == Waiting(1, 2_400_000)
    ensures Plays(start, [EUpload(OTHER), EStep(0, 1, DRAINED, 0, 0), EStep(0, 1, DRAINED, 0, 0),
                EResume(0, 2_400_000)], end)
  {
    end := Waiting(1, 2_400_000);
    UploadsOther();
    LinkToAudit({KEY, OTHER});
    LinkToObjects({KEY, OTHER});
    FirstResumed();
    assert Linked(ObjectsPhase, {KEY, OTHER}) == Waiting(0, 0);
    hide Next, Legal;
    Play4(start, EUpload(OTHER), Linked(RowsPhase, {KEY, OTHER}), EStep(0, 1, DRAINED, 0, 0),
          Linked(AuditPhase, {KEY, OTHER}),
          EStep(0, 1, DRAINED, 0, 0), Waiting(0, 0), EResume(0, 2_400_000), end);
  }

  /** The first restart counts from the end of the wait for uploads. */
  lemma FirstResumed()
    ensures Legal(Waiting(0, 0), EResume(0, 2_400_000))
    ensures Next(Waiting(0, 0), EResume(0, 2_400_000)) == Waiting(1, 2_400_000)
  {
  }

  lemma Resumed(restarted: nat, updatedAt: int, now: int)
    requires restarted < MAX_RESTARTS && updatedAt >= LATER && now - updatedAt >= STALL_MS
    ensures Legal(Waiting(restarted, updatedAt), EResume(0, now))
    ensures Next(Waiting(restarted, updatedAt), EResume(0, now)) == Waiting(restarted + 1, now)
  {
  }

  /** The cron restarts it four times more. */
  lemma PlayRestarts(start: Db) returns (end: Db)
    requires start == Waiting(1, 2_400_000)
    ensures end == Waiting(5, BUSY)
    ensures Plays(start, [EResume(0, 3_000_000), EResume(0, 3_600_000), EResume(0, 4_200_000), EResume(0, BUSY)], end)
  {
    hide Next, Legal, Waiting;
    end := Waiting(5, BUSY);
    Resumed(1, 2_400_000, 3_000_000);
    Resumed(2, 3_000_000, 3_600_000);
    Resumed(3, 3_600_000, 4_200_000);
    Resumed(4, 4_200_000, BUSY);
    Play4(start, EResume(0, 3_000_000), Waiting(2, 3_000_000), EResume(0, 3_600_000), Waiting(3, 3_600_000),
          EResume(0, 4_200_000), Waiting(4, 4_200_000), EResume(0, BUSY), end);
  }

  lemma Spawns()
    ensures var start := Waiting(5, BUSY);
            Legal(start, ESpawn(0, 6)) &&
            Next(start, ESpawn(0, 6)) == Purging(5, 5, None, 0, BUSY, {KEY, OTHER},
                 Sixth(Worker(0, Planning, 0, [], [], {}, 0)))
  {
  }

  /** The sixth run's worker reads which prefixes it may delete, */
  lemma Plans(error: Option<PurgeError>, updatedAt: int, stored: set<Key>, w: Worker, now: int)
    requires w.move == 0 && w.pc == Planning && now >= LATER
    ensures var db := Purging(5, 5, error, 0, updatedAt, stored, Sixth(w));
            Legal(db, EPlan(6, now)) &&
            Next(db, EPlan(6, now)) == Purging(5, 5, error, 0, updatedAt, stored,
                 Sixth(w.(pc := Listing, plannedAt := now, prefixes := BOTH, listed := [])))
  {
    assert [ProjectPrefix(1)] + [MovePrefix(0)] == BOTH;
    assert Sixth(w)[6 := w.(pc := Listing, plannedAt := now, prefixes := BOTH, listed := [])] ==
           Sixth(w.(pc := Listing, plannedAt := now, prefixes := BOTH, listed := []));
  }

  /** and lists the first of them. */
  lemma Lists(restarts: nat, error: Option<PurgeError>, updatedAt: int, stored: set<Key>, w: Worker, keys: seq<Key>)
    requires w.pc == Listing && w.prefixes != []
    requires IsPage(Purging(5, restarts, error, 0, updatedAt, stored, Sixth(w)), w.prefixes[0], keys)
    ensures var db := Purging(5, restarts, error, 0, updatedAt, stored, Sixth(w));
            var found := if keys != [] then w.(pc := Claiming, listed := keys)
                         else w.(prefixes := w.prefixes[1..], pc := if |w.prefixes| == 1 then Finishing else Listing);
            Legal(db, EList(6, keys)) && Next(db, EList(6, keys)) == Purging(5, restarts, error, 0, updatedAt, stored,
                  Sixth(found))
  {
    var found := if keys != [] then w.(pc := Claiming, listed := keys)
                 else w.(prefixes := w.prefixes[1..], pc := if |w.prefixes| == 1 then Finishing else Listing);
    assert Sixth(w)[6 := found] == Sixth(found);
  }

  /** One key claimed by the sixth run: whatever it deleted before is counted. */
  lemma ClaimsOne(db: Db, next: Db, key: Key, now: int)
    requires 6 in db.workers && db.workers[6].move == 0 && db.workers[6].pc == Claiming && db.workers[6].listed == [key]
    requires db.workers[6].prefixes != [] && ClaimAnswer(db, 0, 6, db.workers[6].prefixes[0])
    requires next == Put(ClaimObjectBatch(db, 0, 6, db.workers[6].deleted, now), 6,
                         db.workers[6].(pc := Deleting, batch := {key}, listed := [], deleted := 0))
    ensures Legal(db, EClaim(6, now)) && Next(db, EClaim(6, now)) == next
  {
    assert AsSet([key]) == {key};
    assert [key][..1] == [key] && [key][1..] == [];
  }

  lemma ClaimsFirst()
    ensures var listed := Purging(5, 5, None, 0, BUSY, {KEY, OTHER},
              Sixth(Worker(0, Claiming, BUSY, BOTH, [KEY], {}, 0)));
            Legal(listed, EClaim(6, BUSY)) &&
            Next(listed, EClaim(6, BUSY)) == Purging(5, 5, None, 0, BUSY, {KEY, OTHER},
                 Sixth(Worker(0, Deleting, BUSY, BOTH, [], {KEY}, 0)))
  {
    var listed := Purging(5, 5, None, 0, BUSY, {KEY, OTHER}, Sixth(Worker(0, Claiming, BUSY, BOTH, [KEY], {}, 0)));
    assert AllowedPrefixes(listed, 0)[0] == ProjectPrefix(1);
    ClaimsOne(listed, Purging(5, 5, None, 0, BUSY, {KEY, OTHER}, Sixth(Worker(0, Deleting, BUSY, BOTH, [], {KEY}, 0))),
              KEY, BUSY);
  }

  /** It claims the first key */
  lemma PlayClaim(start: Db) returns (end: Db)
    requires start == Waiting(5, BUSY)
    ensures end == Purging(5, 5, None, 0, BUSY, {KEY, OTHER}, Sixth(Worker(0, Deleting, BUSY, BOTH, [], {KEY}, 0)))
    ensures Plays(start, [ESpawn(0, 6), EPlan(6, BUSY), EList(6, [KEY]), EClaim(6, BUSY)], end)
  {
    var spawned := Purging(5, 5, None, 0, BUSY, {KEY, OTHER}, Sixth(Worker(0, Planning, 0, [], [], {}, 0)));
    var planned := Purging(5, 5, None, 0, BUSY, {KEY, OTHER}, Sixth(Worker(0, Listing, BUSY, BOTH, [], {}, 0)));
    var listed := Purging(5, 5, None, 0, BUSY, {KEY, OTHER}, Sixth(Worker(0, Claiming, BUSY, BOTH, [KEY], {}, 0)));
    end := Purging(5, 5, None, 0, BUSY, {KEY, OTHER}, Sixth(Worker(0, Deleting, BUSY, BOTH, [], {KEY}, 0)));
    Spawns();
    Plans(None, BUSY, {KEY, OTHER}, Worker(0, Planning, 0, [], [], {}, 0), BUSY);
    Lists(5, None, BUSY, {KEY, OTHER}, Worker(0, Listing, BUSY, BOTH, [], {}, 0), [KEY]);
    ClaimsFirst();
    hide Next, Legal;
    Play4(start, ESpawn(0, 6), spawned, EPlan(6, BUSY), planned, EList(6, [KEY]), listed, EClaim(6, BUSY), end);
  }

  lemma Slow()
    ensures var start := Purging(5, 5, None, 0, BUSY, {KEY, OTHER},
              Sixth(Worker(0, Deleting, BUSY, BOTH, [], {KEY}, 0)));
            var gone := Purging(5, 5, None, 0, BUSY, {OTHER}, Sixth(Worker(0, Deleting, BUSY, BOTH, [], {}, 1)));
            && Legal(start, EDelete(6, KEY)) && Next(start, EDelete(6, KEY)) == gone && Legal(gone, EBatchDone(6))
            && Next(gone, EBatchDone(6)) == Purging(5, 5, None, 0, BUSY, {OTHER},
                 Sixth(Worker(0, Planning, BUSY, BOTH, [], {}, 1)))
  {
    assert {KEY, OTHER} - {KEY} == {OTHER} && {KEY} - {KEY} == {};
  }

  lemma GivenUp(w: Worker)
    ensures var db := Purging(5, 5, None, 0, BUSY, {OTHER}, Sixth(w));
            Legal(db, EResume(0, STALLED)) && Next(db, EResume(0, STALLED)) ==
              Purging(5, 5, STALL, 0, STALLED, {OTHER}, Sixth(w))
  {
  }

  /** and deletes it so slowly that the cron gives up on the purge meanwhile. */
  lemma PlayStop(start: Db) returns (end: Db)
    requires start == Purging(5, 5, None, 0, BUSY, {KEY, OTHER}, Sixth(Worker(0, Deleting, BUSY, BOTH, [], {KEY}, 0)))
    ensures end == Purging(5, 5, STALL, 0, STALLED, {OTHER}, Sixth(Worker(0, Listing, STALLED, BOTH, [], {}, 1)))
    ensures Plays(start, [EDelete(6, KEY), EBatchDone(6), EResume(0, STALLED), EPlan(6, STALLED)], end)
  {
    var gone := Purging(5, 5, None, 0, BUSY, {OTHER}, Sixth(Worker(0, Deleting, BUSY, BOTH, [], {}, 1)));
    var idle := Purging(5, 5, None, 0, BUSY, {OTHER}, Sixth(Worker(0, Planning, BUSY, BOTH, [], {}, 1)));
    var stopped := Purging(5, 5, STALL, 0, STALLED, {OTHER}, Sixth(Worker(0, Planning, BUSY, BOTH, [], {}, 1)));
    end := Purging(5, 5, STALL, 0, STALLED, {OTHER}, Sixth(Worker(0, Listing, STALLED, BOTH, [], {}, 1)));
    Slow();
    GivenUp(idle.workers[6]);
    Plans(STALL, STALLED, {OTHER}, Worker(0, Planning, BUSY, BOTH, [], {}, 1), STALLED);
    hide Next, Legal;
    Play4(start, EDelete(6, KEY), gone, EBatchDone(6), idle, EResume(0, STALLED), stopped, EPlan(6, STALLED), end);
  }

  lemma OwnPrefixAllowed(db: Db)
    requires MayDeleteObjects(db, 0, 6)
    ensures ClaimAnswer(db, 0, 6, MovePrefix(0))
  {
    var allowed := AllowedPrefixes(db, 0);
    assert allowed[|allowed| - 1] == MovePrefix(0);
  }

  lemma ClaimsSecond()
    ensures var listed := Purging(5, 5, STALL, 0, STALLED, {OTHER},
              Sixth(Worker(0, Claiming, STALLED, [MovePrefix(0)], [OTHER], {}, 1)));
            Legal(listed, EClaim(6, STALLED)) &&
            Next(listed, EClaim(6, STALLED)) ==
              Purging(5, 0, STALL, 1, STALLED, {OTHER},
                      Sixth(Worker(0, Deleting, STALLED, [MovePrefix(0)], [], {OTHER}, 0)))
  {
    var listed := Purging(5, 5, STALL, 0, STALLED, {OTHER},
          Sixth(Worker(0, Claiming, STALLED, [MovePrefix(0)], [OTHER], {}, 1)));
    OwnPrefixAllowed(listed);
    ClaimsOne(listed, Purging(5, 0, STALL, 1, STALLED, {OTHER},
          Sixth(Worker(0, Deleting, STALLED, [MovePrefix(0)], [], {OTHER}, 0))), OTHER, STALLED);
  }

  lemma Fails(w: Worker)
    requires w.move == 0 && w.pc == Deleting && w.deleted == 0
    ensures var db := Purging(5, 0, STALL, 1, STALLED, {OTHER}, Sixth(w));
            Legal(db, EFail(6, FAILURE, STALLED)) &&
            Next(db, EFail(6, FAILURE, STALLED)) ==
              Purging(5, 0, Some(FAILURE), 1, STALLED, {OTHER}, Sixth(w.(pc := Ended)))
  {
    assert Sixth(w)[6 := w.(pc := Ended)] == Sixth(w.(pc := Ended));
  }

  /** Still at work, it claims its next key, which counts the first, and then fails to reach the store. */
  lemma PlayOverwrite(start: Db) returns (end: Db)
    requires start == Purging(5, 5, STALL, 0, STALLED, {OTHER}, Sixth(Worker(0, Listing, STALLED, BOTH, [], {}, 1)))
    ensures end == Purging(5, 0, Some(FAILURE), 1, STALLED, {OTHER},
              Sixth(Worker(0, Ended, STALLED, [MovePrefix(0)], [], {OTHER}, 0)))
    ensures Plays(start, [EList(6, []), EList(6, [OTHER]), EClaim(6, STALLED), EFail(6, FAILURE, STALLED)], end)
  {
    var own := [MovePrefix(0)];
    var second := Purging(5, 5, STALL, 0, STALLED, {OTHER}, Sixth(Worker(0, Listing, STALLED, own, [], {}, 1)));
    var listed := Purging(5, 5, STALL, 0, STALLED, {OTHER}, Sixth(Worker(0, Claiming, STALLED, own, [OTHER], {}, 1)));
    var claimed := Purging(5, 0, STALL, 1, STALLED, {OTHER}, Sixth(Worker(0, Deleting, STALLED, own, [], {OTHER}, 0)));
    end := Purging(5, 0, Some(FAILURE), 1, STALLED, {OTHER}, Sixth(Worker(0, Ended, STALLED, own, [], {OTHER}, 0)));
    assert BOTH[1..] == own;
    Lists(5, STALL, STALLED, {OTHER}, start.workers[6], []);
    Lists(5, STALL, STALLED, {OTHER}, second.workers[6], [OTHER]);
    ClaimsSecond();
    Fails(claimed.workers[6]);
    hide Next, Legal;
    Play4(start, EList(6, []), second, EList(6, [OTHER]), listed, EClaim(6, STALLED), claimed,
          EFail(6, FAILURE, STALLED), end);
  }

  /**
   From an empty backend: the cron gives up on a purge whose worker is only slow;
   nobody acts on the move, and yet the cron restarts it.
   */
  lemma StoppedIsRestarted() returns (before: seq<Event>, stopped: Db, after: seq<Event>, db: Db)
    ensures Plays(Empty, before, stopped) && HasStopped(stopped, 0)
    ensures Plays(stopped, after, db) && forall e :: e in after ==> Untouched(e, 0)
    ensures CronRestarts(db, EResume(0, STALLED), 0)
  {
    hide Next, Plays;
    var a := PlayAbort();
    var b := PlayFirstRestart(a);
    var c := PlayRestarts(b);
    var d := PlayClaim(c);
    stopped := PlayStop(d);
    db := PlayOverwrite(stopped);
    var abort := [EBegin(0, 1, 0, 0, 0), EImportProject(0, 0), EUpload(KEY), EAbort(0, 0)];
    var first := [EUpload(OTHER), EStep(0, 1, DRAINED, 0, 0), EStep(0, 1, DRAINED, 0, 0), EResume(0, 2_400_000)];
    var more := [EResume(0, 3_000_000), EResume(0, 3_600_000), EResume(0, 4_200_000), EResume(0, BUSY)];
    var claim := [ESpawn(0, 6), EPlan(6, BUSY), EList(6, [KEY]), EClaim(6, BUSY)];
    var stop := [EDelete(6, KEY), EBatchDone(6), EResume(0, STALLED), EPlan(6, STALLED)];
    after := [EList(6, []), EList(6, [OTHER]), EClaim(6, STALLED), EFail(6, FAILURE, STALLED)];
    PlaysThen(c, claim, d, stop, stopped);
    PlaysThen(b, more, c, claim + stop, stopped);
    PlaysThen(a, first, b, more + (claim + stop), stopped);
    PlaysThen(Empty, abort, a, first + (more + (claim + stop)), stopped);
    before := abort + (first + (more + (claim + stop)));
  }
}
