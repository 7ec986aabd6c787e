/**
 Theorems about whole runs of a project move: who holds an id and when it is
 shown, what a purge may delete and when, and what an old run can still do.
 */
module ProjectMoveRuns {
  import opened Wrappers
  import opened ProjectMove
  import opened ProjectMoveProofs
  import opened ProjectMoveFrames

  // ── holding and showing an id ──────────────────────────────────────────────

  lemma EmptyIsGood()
    ensures Good(Empty)
  {
  }

  /** In every reachable state at most one move that is not purged names a project id. */
  lemma AtMostOneHolder(states: seq<Db>, events: seq<Event>, k: nat, m: MoveId, o: MoveId)
    requires Run(states, events) && k <= |events|
    requires m in states[k].moves && o in states[k].moves
    requires states[k].moves[m].project == states[k].moves[o].project
    requires states[k].moves[m].status != Purged && states[k].moves[o].status != Purged
    ensures m == o
  {
    RunKeeps(states, events, k);
  }

  lemma {:induction false} ReservationStays(states: seq<Db>, events: seq<Event>, j: nat, k: nat, m: MoveId)
    requires Run(states, events) && j <= k <= |events| && m in states[j].moves
    ensures m in states[k].moves && states[k].moves[m].project == states[j].moves[m].project
    ensures states[k].moves[m].workspace == states[j].moves[m].workspace
    ensures states[k].moves[m].manifest == states[j].moves[m].manifest
    decreases k
  {
    hide Next;
    if j < k {
      ReservationStays(states, events, j, k - 1, m);
      RunKeeps(states, events, k - 1);
      AlwaysEvolves(states[k - 1], events[k - 1], m);
    }
  }

  /**
   Beginning is idempotent by the move's id: once it reserved a project, the same
   reservation sent again, however late, changes nothing and answers how far the
   move is; any other reservation under that id is a conflict.
   */
  lemma BegunAgain(states: seq<Db>, events: seq<Event>, j: nat, k: nat, p: ProjectId, w: WorkspaceId, manifest: nat,
          now: int)
    requires Run(states, events) && j < k <= |events|
    requires events[j].EBegin? && MayBegin(states[j], events[j].move, events[j].project)
    ensures var first := events[j];
            && Begin(states[k], first.move, p, w, manifest, now) == states[k]
            && first.move in states[k].moves
            && BeginAnswerTo(states[k], first.move, p, w, manifest) ==
                 if (p, w, manifest) == (first.project, first.workspace, first.manifest)
                 then Status(states[k].moves[first.move].status)
                 else MoveConflict
  {
    assert states[j + 1] == Next(states[j], events[j]);
    ReservationStays(states, events, j + 1, k, events[j].move);
  }

  /** A reservation goes through exactly when the answer is a fresh one: the id is new and nothing holds the project. */
  lemma ReservedExactlyWhen(db: Db, m: MoveId, p: ProjectId, w: WorkspaceId, manifest: nat, now: int)
    requires Good(db)
    ensures Begin(db, m, p, w, manifest, now) != db <==>
            m !in db.moves && BeginAnswerTo(db, m, p, w, manifest) == Status(Reserved)
  {
    if MayBegin(db, m, p) {
      assert m in Begin(db, m, p, w, manifest, now).moves;
    }
  }

  /** A moved project is shown exactly while its move is committed. */
  lemma ShownExactlyWhileCommitted(states: seq<Db>, events: seq<Event>, k: nat, m: MoveId)
    requires Run(states, events) && k <= |events|
    requires m in states[k].moves && states[k].moves[m].status != Purged
    ensures Shown(states[k], states[k].moves[m].project) <==> states[k].moves[m].status == Committed
  {
    RunKeeps(states, events, k);
    assert GoodMove(states[k], m);
  }

  lemma {:induction false} ShownIsRemembered(states: seq<Db>, events: seq<Event>, j: nat, k: nat, m: MoveId)
    requires Run(states, events) && j <= k <= |events| && m in states[j].moves && m in states[j].everShown
    ensures m in states[k].moves && m in states[k].everShown
    decreases k
  {
    if j < k {
      ShownIsRemembered(states, events, j, k - 1, m);
      RunKeeps(states, events, k - 1);
      AlwaysEvolves(states[k - 1], events[k - 1], m);
    }
  }

  /** An open move that was never rolled back was never shown. */
  lemma OpenAndNeverRolledBack(states: seq<Db>, events: seq<Event>, j: nat, k: nat, m: MoveId)
    requires Run(states, events) && j <= k <= |events| && m in states[j].moves && m in states[k].moves
    requires Open(states[k].moves[m].status) && states[k].moves[m].uncommittedAt.None?
    ensures states[j].moves[m].status != Committed
  {
    RunKeeps(states, events, j);
    RunKeeps(states, events, k);
    assert GoodMove(states[j], m) && GoodMove(states[k], m);
    if states[j].moves[m].status == Committed {
      ShownIsRemembered(states, events, j, k, m);
    }
  }

  /** And a move that was rolled back was shown before. */
  lemma {:induction false} RolledBackWasShown(states: seq<Db>, events: seq<Event>, k: nat, m: MoveId) returns (j: nat)
    requires Run(states, events) && states[0] == Empty && k <= |events|
    requires m in states[k].moves && states[k].moves[m].uncommittedAt.Some?
    ensures j < k && m in states[j].moves && states[j].moves[m].status == Committed
    decreases k
  {
    hide Next;
    assert k > 0;
    RunKeeps(states, events, k - 1);
    if m !in states[k - 1].moves {
      NewMove(states[k - 1], events[k - 1], m);
      assert false;
    }
    AlwaysEvolves(states[k - 1], events[k - 1], m);
    if states[k - 1].moves[m].status == Committed {
      j := k - 1;
    } else {
      j := RolledBackWasShown(states, events, k - 1, m);
    }
  }

  // ── runs played from a state ──────────────────────────────────────────────

  /** Playing events one after another. */
  ghost predicate Plays(db: Db, events: seq<Event>, end: Db)
    decreases |events|
  {
    if events == [] then db == end
    else Legal(db, events[0]) && Plays(Next(db, events[0]), events[1..], end)
  }

  lemma {:induction false} PlaysThen(db: Db, first: seq<Event>, mid: Db, second: seq<Event>, end: Db)
    requires Plays(db, first, mid) && Plays(mid, second, end)
    ensures Plays(db, first + second, end)
    decreases |first|
  {
    hide Next;
    if first == [] {
      assert first + second == second;
    } else {
      PlaysThen(Next(db, first[0]), first[1..], mid, second, end);
      assert (first + second)[1..] == first[1..] + second;
    }
  }

  lemma Play4(db: Db, a: Event, s: Db, b: Event, t: Db, c: Event, u: Db, d: Event, end: Db)
    requires Legal(db, a) && Next(db, a) == s && Legal(s, b) && Next(s, b) == t
    requires Legal(t, c) && Next(t, c) == u && Legal(u, d) && Next(u, d) == end
    ensures Plays(db, [a, b, c, d], end)
  {
    hide Next;
    assert Plays(end, [], end);
    assert [d][1..] == [] && [c, d][1..] == [d] && [b, c, d][1..] == [c, d] && [a, b, c, d][1..] == [b, c, d];
    assert Plays(u, [d], end);
    assert Plays(t, [c, d], end);
  }

  lemma {:induction false} PlaysKeep(db: Db, events: seq<Event>, end: Db)
    requires Good(db) && Plays(db, events, end)
    ensures Good(end)
    decreases |events|
  {
    hide Next, Good;
    if events != [] {
      StepKeeps(db, events[0]);
      PlaysKeep(Next(db, events[0]), events[1..], end);
    }
  }

  // ── a cancelled move ───────────────────────────────────────────────────────

  predicate Cancelled(db: Db, m: MoveId) {
    m in db.moves && db.moves[m].status in {Aborting, Purged}
  }

  /** A cancelled move never opens again. */
  lemma CancelledStays(db: Db, e: Event, m: MoveId)
    requires Good(db) && Legal(db, e) && Cancelled(db, m)
    ensures Cancelled(Next(db, e), m)
    ensures db.moves[m].status == Purged ==> Next(db, e).moves[m] == db.moves[m]
  {
    AlwaysEvolves(db, e, m);
  }

  lemma LinkAddsNoRows(db: Db, e: Event, p: ProjectId)
    requires e.EStep?
    requires e.move in db.moves ==> LinkFits(Contents(db, db.moves[e.move].project), e.link)
    ensures Contents(Next(db, e), p) <= Contents(db, p) && (p in Next(db, e).projects ==> p in db.projects)
  {
    if CurrentRun(db, e.move, e.run) && db.moves[e.move].project != p {
      StepLinkRows(db, e.move, e.run, e.link, e.auditDeleted, e.now, p);
    }
  }

  lemma MoveEventAddsNoRows(db: Db, e: Event, m: MoveId)
    requires Good(db) && m in db.moves && db.moves[m].status == Aborting
    requires e.EBegin? || e.EImportProject? || e.EImportRows? || e.ECommit? || e.EUncommit?
    ensures Contents(Next(db, e), db.moves[m].project) <= Contents(db, db.moves[m].project)
    ensures db.moves[m].project in Next(db, e).projects ==> db.moves[m].project in db.projects
  {
    assert GoodMove(db, m);
    assert forall o :: o in db.moves && o != m && db.moves[o].project == db.moves[m].project ==>
           db.moves[o].status == Purged;
    hide Good, MayBegin;
  }

  lemma ProjectEventAddsNoRows(db: Db, e: Event, m: MoveId)
    requires Good(db) && m in db.moves && db.moves[m].status == Aborting
    requires e.ECreateProject? || e.ESharedWrite? || e.EDeleteProject? || e.EMoveWorkspace?
    ensures Contents(Next(db, e), db.moves[m].project) <= Contents(db, db.moves[m].project)
    ensures db.moves[m].project in Next(db, e).projects ==> db.moves[m].project in db.projects
  {
    assert GoodMove(db, m);
    hide Good, GoodMove;
  }

  lemma TableAddsNoRows(db: Db, e: Event, m: MoveId)
    requires Good(db) && m in db.moves && db.moves[m].status == Aborting && TableEvent(e)
    ensures Contents(Next(db, e), db.moves[m].project) <= Contents(db, db.moves[m].project)
    ensures db.moves[m].project in Next(db, e).projects ==> db.moves[m].project in db.projects
  {
    hide Next, Good;
    if e.ECreateProject? || e.ESharedWrite? || e.EDeleteProject? || e.EMoveWorkspace? {
      ProjectEventAddsNoRows(db, e, m);
    } else {
      MoveEventAddsNoRows(db, e, m);
    }
  }

  /** Once a move is aborting, no row enters its project and its project row never comes back. */
  lemma NoRowsWhileAborting(db: Db, e: Event, m: MoveId)
    requires Good(db) && Legal(db, e) && m in db.moves && db.moves[m].status == Aborting
    ensures Contents(Next(db, e), db.moves[m].project) <= Contents(db, db.moves[m].project)
    ensures db.moves[m].project in Next(db, e).projects ==> db.moves[m].project in db.projects
  {
    hide Next;
    if e.EStep? {
      LinkAddsNoRows(db, e, db.moves[m].project);
    } else if TableEvent(e) {
      TableAddsNoRows(db, e, m);
    } else {
      Frame(db, e);
    }
  }

  lemma {:induction false} RowsOnlyLeave(states: seq<Db>, events: seq<Event>, j: nat, k: nat, m: MoveId)
    requires Run(states, events) && j <= k <= |events| && Cancelled(states[j], m)
    requires m in states[k].moves && states[k].moves[m].status == Aborting
    ensures states[k].moves[m].project == states[j].moves[m].project
    ensures Contents(states[k], states[k].moves[m].project) <= Contents(states[j], states[k].moves[m].project)
    ensures states[k].moves[m].project in states[k].projects ==> states[k].moves[m].project in states[j].projects
    decreases k
  {
    hide Next;
    if j < k {
      CancelledThroughout(states, events, j, k - 1, m);
      RunKeeps(states, events, k - 1);
      CancelledStays(states[k - 1], events[k - 1], m);
      RunKeeps(states, events, k - 1);
      AlwaysEvolves(states[k - 1], events[k - 1], m);
      RowsOnlyLeave(states, events, j, k - 1, m);
      NoRowsWhileAborting(states[k - 1], events[k - 1], m);
    }
  }

  lemma {:induction false} CancelledThroughout(states: seq<Db>, events: seq<Event>, j: nat, k: nat, m: MoveId)
    requires Run(states, events) && j <= k <= |events| && Cancelled(states[j], m)
    ensures Cancelled(states[k], m)
    decreases k
  {
    if j < k {
      CancelledThroughout(states, events, j, k - 1, m);
      RunKeeps(states, events, k - 1);
      CancelledStays(states[k - 1], events[k - 1], m);
    }
  }

  /** When a move becomes purged nothing is stored under its project id any more. */
  lemma PurgedLeavesNothing(db: Db, e: Event, m: MoveId)
    requires Good(db) && Legal(db, e) && m in db.moves && db.moves[m].status != Purged
    requires m in Next(db, e).moves && Next(db, e).moves[m].status == Purged
    ensures db.moves[m].project !in Next(db, e).projects && Contents(Next(db, e), db.moves[m].project) == 0
    ensures db.moves[m].status == Aborting && db.moves[m].purge.value.phase == ObjectsPhase
  {
    hide Next;
    AlwaysEvolves(db, e, m);
    assert GoodMove(db, m);
    NoRowsWhileAborting(db, e, m);
  }
}
