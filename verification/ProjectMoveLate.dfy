/**
 What the fencing of purge runs does not promise: a DELETE of a claimed batch
 that lands late is not called back, so a run left behind can still take a key
 out of the store after the move is purged and the project was moved again.
 */
module ProjectMoveLate {
  import opened Wrappers
  import PurgeDrain
  import opened ProjectMove
  import opened ProjectMoveRuns

  const KEY: Key := Key(ProjectPrefix(1), 0)
  const LATER: int := OBJECTS_AFTER_ABORT_MS
  const HIDDEN: map<ProjectId, Project> := map[1 := Project(0, true, false)]
  const BOTH: seq<Prefix> := [ProjectPrefix(1), MovePrefix(0)]
  const HOLDING: Worker := Worker(0, Deleting, LATER, BOTH, [], {KEY}, 0)

  function Cancelling(run: RunId, phase: Phase, rows: nat, objects: nat, at: int, updatedAt: int): Move {
    Move(1, 0, 0, Aborting, at, Some(0), None, Some(Purge(run, phase, 0, rows, objects, None, None, 0, updatedAt)))
  }

  lemma PlayAbort() returns (mid: Db)
    ensures mid == Db(map[0 := Cancelling(1, RowsPhase, 0, 0, 0, 0)], HIDDEN, map[], 1, {KEY}, map[], 2, {})
    ensures Plays(Empty, [EBegin(0, 1, 0, 0, 0), EImportProject(0, 0), EUpload(KEY), EAbort(0, 0)], mid)
  {
    mid := Db(map[0 := Cancelling(1, RowsPhase, 0, 0, 0, 0)], HIDDEN, map[], 1, {KEY}, map[], 2, {});
    var importing := Db(map[0 := Move(1, 0, 0, Importing, 0, None, None, None)], HIDDEN, map[], 1, {}, map[], 1, {});
    Play4(Empty, EBegin(0, 1, 0, 0, 0), Empty.(moves := map[0 := Move(1, 0, 0, Reserved, 0, None, None, None)]),
          EImportProject(0, 0), importing, EUpload(KEY), importing.(objects := {KEY}), EAbort(0, 0), mid);
  }

  function InObjects(run: RunId, at: int, updatedAt: int, workers: map<RunId, Worker>): Db {
    Db(map[0 := Cancelling(run, ObjectsPhase, 1, 0, at, updatedAt)], map[], map[1 := 0], 1, {KEY}, workers, run + 1, {})
  }

  const DRAINED: RowsLink := RowsLink(0, PurgeDrain.Drained)

  lemma Planned(run: RunId, at: int, workers: map<RunId, Worker>)
    requires run in workers && workers[run].move == 0 && workers[run].pc == Planning && run > 0
    ensures var listing := workers[run].(pc := Listing, plannedAt := LATER, prefixes := BOTH, listed := []);
            Legal(InObjects(run, at, at, workers), EPlan(run, LATER)) &&
            Next(InObjects(run, at, at, workers), EPlan(run, LATER)) ==
              InObjects(run, at, at, workers[run := listing])
  {
    assert [ProjectPrefix(1)] + [MovePrefix(0)] == BOTH;
  }

  /** The cancelled move with nothing but its project row left, in some phase of its purge. */
  function Linked(phase: Phase, stored: set<Key>): Db {
    Db(map[0 := Cancelling(1, phase, if phase == ObjectsPhase then 1 else 0, 0, 0, 0)],
       if phase == ObjectsPhase then map[] else HIDDEN, if phase == RowsPhase then map[] else map[1 := 0],
       1, stored, map[], 2, {})
  }

  lemma LinkToAudit(stored: set<Key>)
    ensures Legal(Linked(RowsPhase, stored), EStep(0, 1, DRAINED, 0, 0))
    ensures Next(Linked(RowsPhase, stored), EStep(0, 1, DRAINED, 0, 0)) == Linked(AuditPhase, stored)
  {
  }

  lemma LinkToObjects(stored: set<Key>)
    ensures Legal(Linked(AuditPhase, stored), EStep(0, 1, DRAINED, 0, 0))
    ensures Next(Linked(AuditPhase, stored), EStep(0, 1, DRAINED, 0, 0)) == Linked(ObjectsPhase, stored)
  {
    assert HIDDEN - {1} == map[];
  }

  lemma ObjectsLeft()
    ensures Linked(ObjectsPhase, {KEY}) == InObjects(1, 0, 0, map[])
  {
  }

  lemma SpawnedFirst()
    ensures Legal(InObjects(1, 0, 0, map[]), ESpawn(0, 1))
    ensures Next(InObjects(1, 0, 0, map[]), ESpawn(0, 1)) ==
            InObjects(1, 0, 0, map[1 := Worker(0, Planning, 0, [], [], {}, 0)])
  {
  }

  lemma PlayRows(start: Db) returns (mid: Db)
    requires start == Db(map[0 := Cancelling(1, RowsPhase, 0, 0, 0, 0)], HIDDEN, map[], 1, {KEY}, map[], 2, {})
    ensures mid == InObjects(1, 0, 0, map[1 := Worker(0, Listing, LATER, BOTH, [], {}, 0)])
    ensures Plays(start, [EStep(0, 1, DRAINED, 0, 0), EStep(0, 1, DRAINED, 0, 0), ESpawn(0, 1), EPlan(1, LATER)], mid)
  {
    hide Next, Legal, InObjects;
    var listing: map<RunId, Worker> := map[1 := Worker(0, Listing, LATER, BOTH, [], {}, 0)];
    mid := InObjects(1, 0, 0, listing);
    var planning: map<RunId, Worker> := map[1 := Worker(0, Planning, 0, [], [], {}, 0)];
    var spawned := InObjects(1, 0, 0, planning);
    LinkToAudit({KEY});
    LinkToObjects({KEY});
    ObjectsLeft();
    SpawnedFirst();
    Planned(1, 0, planning);
    assert planning[1 := Worker(0, Listing, LATER, BOTH, [], {}, 0)] == listing;
    Play4(start, EStep(0, 1, DRAINED, 0, 0), Linked(AuditPhase, {KEY}), EStep(0, 1, DRAINED, 0, 0),
          InObjects(1, 0, 0, map[]),
          ESpawn(0, 1), spawned, EPlan(1, LATER), mid);
  }

  lemma Listed(run: RunId, at: int, workers: map<RunId, Worker>)
    requires run in workers && workers[run] == Worker(0, Listing, LATER, BOTH, [], {}, 0) && run > 0
    ensures Legal(InObjects(run, at, at, workers), EList(run, [KEY]))
    ensures Next(InObjects(run, at, at, workers), EList(run, [KEY])) ==
            InObjects(run, at, at, workers[run := Worker(0, Claiming, LATER, BOTH, [KEY], {}, 0)])
  {
  }

  lemma ClaimedNow(run: RunId, at: int, workers: map<RunId, Worker>)
    requires run in workers && workers[run] == Worker(0, Claiming, LATER, BOTH, [KEY], {}, 0) && run > 0
    ensures Legal(InObjects(run, at, at, workers), EClaim(run, LATER))
    ensures Next(InObjects(run, at, at, workers), EClaim(run, LATER)) ==
            InObjects(run, at, LATER, workers[run := HOLDING])
  {
    var db := InObjects(run, at, at, workers);
    assert AsSet([KEY]) == {KEY};
    assert [KEY][..1] == [KEY] && [KEY][1..] == [];
    assert AllowedPrefixes(db, 0)[0] == ProjectPrefix(1);
    assert Claim(db, run, LATER).workers == workers[run := HOLDING];
  }

  lemma TakenOver()
    ensures Legal(InObjects(1, 0, LATER, map[1 := HOLDING]), ERescue(0, LATER))
    ensures Legal(InObjects(2, LATER, LATER, map[1 := HOLDING]), ESpawn(0, 2))
    ensures Next(InObjects(1, 0, LATER, map[1 := HOLDING]), ERescue(0, LATER)) ==
            InObjects(2, LATER, LATER, map[1 := HOLDING])
    ensures Next(InObjects(2, LATER, LATER, map[1 := HOLDING]), ESpawn(0, 2)) ==
            InObjects(2, LATER, LATER, map[1 := HOLDING, 2 := Worker(0, Planning, 0, [], [], {}, 0)])
  {
  }

  /** The first run claims the key; its DELETE stays under way while a second run takes over. */
  lemma PlayTakeover(start: Db) returns (mid: Db)
    requires start == InObjects(1, 0, 0, map[1 := Worker(0, Listing, LATER, BOTH, [], {}, 0)])
    ensures mid == InObjects(2, LATER, LATER, map[1 := HOLDING, 2 := Worker(0, Planning, 0, [], [], {}, 0)])
    ensures Plays(start, [EList(1, [KEY]), EClaim(1, LATER), ERescue(0, LATER), ESpawn(0, 2)], mid)
  {
    hide Next, Legal, InObjects;
    mid := InObjects(2, LATER, LATER, map[1 := HOLDING, 2 := Worker(0, Planning, 0, [], [], {}, 0)]);
    var listing: map<RunId, Worker> := map[1 := Worker(0, Listing, LATER, BOTH, [], {}, 0)];
    var listed := listing[1 := Worker(0, Claiming, LATER, BOTH, [KEY], {}, 0)];
    Listed(1, 0, listing);
    ClaimedNow(1, 0, listed);
    assert listed[1 := HOLDING] == map[1 := HOLDING];
    var held := InObjects(1, 0, LATER, map[1 := HOLDING]);
    var rescued := InObjects(2, LATER, LATER, map[1 := HOLDING]);
    TakenOver();
    Play4(start, EList(1, [KEY]), InObjects(1, 0, 0, listed), EClaim(1, LATER), held, ERescue(0, LATER), rescued,
          ESpawn(0, 2), mid);
  }

  lemma DeletedNow(workers: map<RunId, Worker>)
    requires 2 in workers && workers[2] == HOLDING
    ensures Legal(InObjects(2, LATER, LATER, workers), EDelete(2, KEY))
    ensures Next(InObjects(2, LATER, LATER, workers), EDelete(2, KEY)) ==
            InObjects(2, LATER, LATER, workers[2 := Worker(0, Deleting, LATER, BOTH, [], {}, 1)]).(objects := {})
  {
    assert {KEY} - {KEY} == {};
  }

  /** The second run lists the key too, claims and deletes it. */
  lemma PlaySecond(start: Db) returns (mid: Db)
    requires start == InObjects(2, LATER, LATER, map[1 := HOLDING, 2 := Worker(0, Planning, 0, [], [], {}, 0)])
    ensures mid == InObjects(2, LATER, LATER,
              map[1 := HOLDING, 2 := Worker(0, Deleting, LATER, BOTH, [], {}, 1)]).(objects := {})
    ensures Plays(start, [EPlan(2, LATER), EList(2, [KEY]), EClaim(2, LATER), EDelete(2, KEY)], mid)
  {
    hide Next, Legal, InObjects;
    var deleting: map<RunId, Worker> := map[1 := HOLDING, 2 := Worker(0, Deleting, LATER, BOTH, [], {}, 1)];
    mid := InObjects(2, LATER, LATER, deleting).(objects := {});
    var planning: map<RunId, Worker> := map[1 := HOLDING, 2 := Worker(0, Planning, 0, [], [], {}, 0)];
    var listing := planning[2 := Worker(0, Listing, LATER, BOTH, [], {}, 0)];
    var listed := listing[2 := Worker(0, Claiming, LATER, BOTH, [KEY], {}, 0)];
    var held := InObjects(2, LATER, LATER, listed[2 := HOLDING]);
    Planned(2, LATER, planning);
    Listed(2, LATER, listing);
    ClaimedNow(2, LATER, listed);
    DeletedNow(listed[2 := HOLDING]);
    assert listed[2 := HOLDING][2 := Worker(0, Deleting, LATER, BOTH, [], {}, 1)] == deleting;
    Play4(start, EPlan(2, LATER), InObjects(2, LATER, LATER, listing), EList(2, [KEY]),
          InObjects(2, LATER, LATER, listed),
          EClaim(2, LATER), held, EDelete(2, KEY), mid);
  }

  lemma BatchIsDone(start: Db)
    requires start == InObjects(2, LATER, LATER,
               map[1 := HOLDING, 2 := Worker(0, Deleting, LATER, BOTH, [], {}, 1)]).(objects := {})
    ensures Legal(start, EBatchDone(2))
    ensures Next(start, EBatchDone(2)) == start.(workers := start.workers[2 := Worker(0, Planning, LATER, BOTH, [], {},
                  1)])
  {
  }

  lemma PlansAgain(start: Db)
    requires start == InObjects(2, LATER, LATER,
               map[1 := HOLDING, 2 := Worker(0, Deleting, LATER, BOTH, [], {}, 1)]).(objects := {})
    ensures var idle := start.(workers := start.workers[2 := Worker(0, Planning, LATER, BOTH, [], {}, 1)]);
            var planned := start.(workers := start.workers[2 := Worker(0, Listing, LATER, BOTH, [], {}, 1)]);
            Legal(idle, EPlan(2, LATER)) && Next(idle, EPlan(2, LATER)) == planned
  {
    assert [ProjectPrefix(1)] + [MovePrefix(0)] == BOTH;
  }

  lemma FoundNothing(start: Db)
    requires start == InObjects(2, LATER, LATER,
               map[1 := HOLDING, 2 := Worker(0, Deleting, LATER, BOTH, [], {}, 1)]).(objects := {})
    ensures var planned := start.(workers := start.workers[2 := Worker(0, Listing, LATER, BOTH, [], {}, 1)]);
            var second := start.(workers := start.workers[2 := Worker(0, Listing, LATER, [MovePrefix(0)], [], {}, 1)]);
            && Legal(planned, EList(2, [])) && Next(planned, EList(2, [])) == second && Legal(second, EList(2, []))
            && Next(second, EList(2, [])) == start.(workers := start.workers[2 := Worker(0, Finishing, LATER, [], [],
                     {}, 1)])
  {
    assert BOTH[1..] == [MovePrefix(0)] && [MovePrefix(0)][1..] == [];
  }

  lemma Finished(db: Db)
    requires db == InObjects(2, LATER, LATER,
               map[1 := HOLDING, 2 := Worker(0, Finishing, LATER, [], [], {}, 1)]).(objects := {})
    ensures var done := Next(db, EFinish(2, LATER));
            && done.moves.Keys == {0}
            && done.moves[0].status == Purged
            && done.moves[0].project == 1
            && done.projects == map[]
            && 1 in done.workers && done.workers[1] == HOLDING
  {
  }

  /** It finds nothing left, */
  lemma PlayNothingLeft(start: Db) returns (mid: Db)
    requires start == InObjects(2, LATER, LATER,
               map[1 := HOLDING, 2 := Worker(0, Deleting, LATER, BOTH, [], {}, 1)]).(objects := {})
    ensures mid == InObjects(2, LATER, LATER,
              map[1 := HOLDING, 2 := Worker(0, Finishing, LATER, [], [], {}, 1)]).(objects := {})
    ensures Plays(start, [EBatchDone(2), EPlan(2, LATER), EList(2, []), EList(2, [])], mid)
  {
    var idle := start.(workers := start.workers[2 := Worker(0, Planning, LATER, BOTH, [], {}, 1)]);
    var planned := start.(workers := start.workers[2 := Worker(0, Listing, LATER, BOTH, [], {}, 1)]);
    var second := start.(workers := start.workers[2 := Worker(0, Listing, LATER, [MovePrefix(0)], [], {}, 1)]);
    mid := start.(workers := start.workers[2 := Worker(0, Finishing, LATER, [], [], {}, 1)]);
    BatchIsDone(start);
    PlansAgain(start);
    FoundNothing(start);
    hide Next, Legal;
    Play4(start, EBatchDone(2), idle, EPlan(2, LATER), planned, EList(2, []), second, EList(2, []), mid);
  }

  /** and finishes: the move is purged while the first run still holds the key. */
  lemma PlayFinish(start: Db) returns (mid: Db)
    requires start == InObjects(2, LATER, LATER,
               map[1 := HOLDING, 2 := Worker(0, Finishing, LATER, [], [], {}, 1)]).(objects := {})
    ensures mid.moves.Keys == {0} && mid.moves[0].status == Purged && mid.moves[0].project == 1 && mid.projects == map[]
    ensures 1 in mid.workers && mid.workers[1] == HOLDING
    ensures Plays(start, [EFinish(2, LATER)], mid)
  {
    Finished(start);
    mid := Next(start, EFinish(2, LATER));
    hide Next;
    assert Plays(mid, [], mid);
    assert [EFinish(2, LATER)][1..] == [];
  }

  /** The project is moved again, committed, and its object uploaded again. */
  lemma PlayAgain(start: Db) returns (end: Db)
    requires start.moves.Keys == {0}
    requires start.moves[0].status == Purged
    requires start.moves[0].project == 1
    requires start.projects == map[]
    requires 1 in start.workers && start.workers[1] == HOLDING
    ensures Plays(start, [EBegin(1, 1, 0, 0, LATER), EImportProject(1, LATER), ECommit(1, 0, true, LATER),
                EUpload(KEY)], end)
    ensures 0 in end.moves && end.moves[0].status == Purged && 1 in end.moves && end.moves[1].status == Committed
    ensures Shown(end, 1) && KEY in end.objects && end.workers == start.workers
  {
    var begun := Next(start, EBegin(1, 1, 0, 0, LATER));
    assert begun.moves[1].status == Reserved;
    var importing := Next(begun, EImportProject(1, LATER));
    assert importing.projects[1] == Project(0, true, false);
    var shown := Next(importing, ECommit(1, 0, true, LATER));
    end := Next(shown, EUpload(KEY));
    Play4(start, EBegin(1, 1, 0, 0, LATER), begun, EImportProject(1, LATER), importing, ECommit(1, 0, true, LATER),
          shown, EUpload(KEY), end);
  }

  /**
   From an empty backend: a run is replaced while its DELETE is under way, the
   move is purged, the project is moved again and shown, and the old DELETE then
   removes the shown project's object.
   */
  lemma LateDelete() returns (events: seq<Event>, db: Db)
    ensures Plays(Empty, events, db)
    ensures 0 in db.moves && db.moves[0].status == Purged && Shown(db, KEY.prefix.project)
    ensures Legal(db, EDelete(1, KEY)) && KEY in db.objects && KEY !in Next(db, EDelete(1, KEY)).objects
  {
    hide Next, Plays;
    var a := PlayAbort();
    var b := PlayRows(a);
    var c := PlayTakeover(b);
    var d := PlaySecond(c);
    var e := PlayNothingLeft(d);
    var f := PlayFinish(e);
    db := PlayAgain(f);
    var second := [EPlan(2, LATER), EList(2, [KEY]), EClaim(2, LATER), EDelete(2, KEY)];
    var rest := [EBatchDone(2), EPlan(2, LATER), EList(2, []), EList(2, [])];
    var again := [EBegin(1, 1, 0, 0, LATER), EImportProject(1, LATER), ECommit(1, 0, true, LATER), EUpload(KEY)];
    PlaysThen(e, [EFinish(2, LATER)], f, again, db);
    PlaysThen(d, rest, e, [EFinish(2, LATER)] + again, db);
    PlaysThen(c, second, d, rest + ([EFinish(2, LATER)] + again), db);
    var takeover := [EList(1, [KEY]), EClaim(1, LATER), ERescue(0, LATER), ESpawn(0, 2)];
    var fromC := second + (rest + ([EFinish(2, LATER)] + again));
    PlaysThen(b, takeover, c, fromC, db);
    var rows := [EStep(0, 1, DRAINED, 0, 0), EStep(0, 1, DRAINED, 0, 0), ESpawn(0, 1), EPlan(1, LATER)];
    PlaysThen(a, rows, b, takeover + fromC, db);
    var abort := [EBegin(0, 1, 0, 0, 0), EImportProject(0, 0), EUpload(KEY), EAbort(0, 0)];
    PlaysThen(Empty, abort, a, rows + (takeover + fromC), db);
    events := abort + (rows + (takeover + fromC));
    Landed(db);
  }

  lemma Landed(db: Db)
    requires 1 in db.workers && db.workers[1] == HOLDING
    ensures Legal(db, EDelete(1, KEY)) && KEY !in Next(db, EDelete(1, KEY)).objects
  {
  }
}
