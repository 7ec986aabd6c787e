/**
 The move's mutations as they run: each reads the tables, decides, and patches
 rows in place; `State` is the tables as one value. A link drains the project's
 rows itself, and a commit checks the accumulators itself: here the row counts
 and the verdict the move's steps take as inputs are derived, not assumed.
 */
module ProjectMoveTable {
  import opened Wrappers
  import ImportDigest
  import PurgeDrain
  import opened ProjectMove

  // ── what a link and a commit read ──────────────────────────────────────────

  /** An audit row, and the project its detail names. */
  datatype AuditRow = AuditRow(workspace: WorkspaceId, kind: string, targetKind: string, project: Option<ProjectId>)

  predicate IsImported(row: AuditRow, move: Move) {
    row.workspace == move.workspace && "mcp_" <= row.kind && row.targetKind == "mcp_server"
      && row.project == Some(move.project)
  }

  /** The rows of an audit page that the move wrote. */
  ghost function Imported(page: seq<AuditRow>, move: Move): set<nat> {
    set i | 0 <= i < |page| && IsImported(page[i], move)
  }

  /** Two moves count the same audit row only when they move the same project into the same Workspace. */
  lemma AuditRowsApart(page: seq<AuditRow>, a: Move, b: Move, i: nat)
    requires i in Imported(page, a) && i in Imported(page, b)
    ensures a.project == b.project && a.workspace == b.workspace
    ensures i < |page| && page[i].targetKind == "mcp_server" && page[i].kind[..4] == "mcp_"
  {
  }

  /** Every row the backend's plan reaches under a project, at any depth. */
  ghost function RowsUnder(rows: PurgeDrain.Rows, project: PurgeDrain.Row): set<PurgeDrain.DocId> {
    PurgeDrain.Under(rows, PurgeDrain.ProjectPurge(), project)
  }

  /**
   What a drain of the backend's plan leaves fits what a link may do, counted over
   the rows the plan reaches under the project: it deletes no more than there are,
   all of them when it answers that nothing is left, at least one when it ran out
   of budget; and what it deleted is what is gone.
   */
  lemma DrainFits(before: PurgeDrain.Rows, after: PurgeDrain.Rows, project: PurgeDrain.Row, outcome: PurgeDrain.Outcome)
    requires PurgeDrain.Shrunk(before, after) && PurgeDrain.NoOrphans(before, after, PurgeDrain.ChildrenOf)
    requires PurgeDrain.Found(before, after, PurgeDrain.ProjectPurge(), |PurgeDrain.ProjectPurge()|, project)
    requires outcome == PurgeDrain.OutOfBudget ==> |after| < |before|
    requires outcome == PurgeDrain.Drained ==>
             PurgeDrain.AllClear(after, PurgeDrain.ProjectPurge(), |PurgeDrain.ProjectPurge()|, project)
    ensures |after| <= |before|
    ensures LinkFits(|RowsUnder(before, project)|, RowsLink(|before| - |after|, outcome))
    ensures |RowsUnder(after, project)| == |RowsUnder(before, project)| - (|before| - |after|)
  {
    PlanFollows();
    PurgeDrain.LinkCounts(before, after, PurgeDrain.ProjectPurge(), project, PurgeDrain.ChildrenOf);
    if outcome == PurgeDrain.Drained {
      PurgeDrain.NothingLeftAnywhere(before, after, PurgeDrain.ProjectPurge(), project, PurgeDrain.ChildrenOf);
    }
  }

  lemma PlanFollows()
    ensures forall node :: node in PurgeDrain.ProjectPurge() ==> PurgeDrain.Follows(node, PurgeDrain.ChildrenOf)
  {
    PurgeDrain.ProjectPurgeFollows();
  }

  /** A project's id as its rows write it: in decimal. */
  function ProjectText(p: ProjectId): string {
    (if p < 10 then "" else ProjectText(p / 10)) + [('0' as int + p % 10) as char]
  }

  /** Two projects never write the same id. */
  lemma {:induction false} TextsDiffer(p: ProjectId, q: ProjectId)
    requires ProjectText(p) == ProjectText(q)
    ensures p == q
  {
    var s, t := ProjectText(p), ProjectText(q);
    assert s[|s| - 1] == t[|t| - 1] && s[..|s| - 1] == t[..|t| - 1];
    if p >= 10 && q >= 10 {
      assert s[..|s| - 1] == ProjectText(p / 10) && t[..|t| - 1] == ProjectText(q / 10);
      TextsDiffer(p / 10, q / 10);
    }
  }

  lemma NothingDrained(rows: PurgeDrain.Rows)
    ensures PurgeDrain.Shrunk(rows, rows) && PurgeDrain.NoOrphans(rows, rows, PurgeDrain.ChildrenOf)
  {
  }

  /** Rows that are a project's own name no other project. */
  lemma NamesNoOther(before: PurgeDrain.Rows, after: PurgeDrain.Rows, p: ProjectId)
    requires forall d :: d in before && d !in after ==> PurgeDrain.Mine(before[d], ProjectText(p))
    ensures forall d, q :: d in before && d !in after && before[d].project == Some(ProjectText(q)) ==> q == p
  {
    forall d, q | d in before && d !in after && before[d].project == Some(ProjectText(q))
      ensures q == p
    {
      TextsDiffer(p, q);
    }
  }

  // ── the tables ─────────────────────────────────────────────────────────────

  predicate Holds(move: Move, p: ProjectId, statuses: set<Status>) {
    move.project == p && move.status in statuses
  }

  class Imports {
    var moves: map<MoveId, Move>
    var projects: map<ProjectId, Project>
    var auditPages: nat
    var nextRun: RunId
    /** How many rows are under each project; the backend keeps no such count. */
    ghost var contents: map<ProjectId, nat>
    ghost var objects: set<Key>
    ghost var workers: map<RunId, Worker>
    ghost var everShown: set<MoveId>

    ghost function State(): Db
      reads this
    {
      Db(moves, projects, contents, auditPages, objects, workers, nextRun, everShown)
    }

    constructor ()
      ensures State() == Empty
    {
      moves, projects, auditPages, nextRun := map[], map[], 1, 1;
      contents, objects, workers, everShown := map[], {}, map[], {};
    }

    /** Whether some move of `p` has one of these statuses. */
    method Among(p: ProjectId, statuses: set<Status>) returns (found: bool)
      ensures found <==> exists o :: o in moves && Holds(moves[o], p, statuses)
    {
      var left := moves.Keys;
      found := false;
      while left != {} && !found
        invariant left <= moves.Keys
        invariant !found ==> forall o :: o in moves && o !in left ==> !Holds(moves[o], p, statuses)
        invariant found ==> exists o :: o in moves && Holds(moves[o], p, statuses)
      {
        var o :| o in left;
        left := left - {o};
        found := Holds(moves[o], p, statuses);
      }
    }

    method Begin(m: MoveId, p: ProjectId, w: WorkspaceId, manifest: nat, now: int) returns (answer: BeginAnswer)
      modifies this
      ensures State() == ProjectMove.Begin(old(State()), m, p, w, manifest, now)
      ensures answer == BeginAnswerTo(old(State()), m, p, w, manifest)
    {
      if m in moves {
        if moves[m].project == p && moves[m].workspace == w && moves[m].manifest == manifest {
          return Status(moves[m].status);
        }
        return MoveConflict;
      }
      var held := Among(p, {Reserved, Importing, Aborting});
      assert held <==> exists o ::
             o in moves && moves[o].project == p && moves[o].status in {Reserved, Importing, Aborting} by {
        assert forall o :: o in moves ==> (Holds(moves[o], p, {Reserved, Importing, Aborting}) <==>
                 moves[o].project == p && moves[o].status in {Reserved, Importing, Aborting});
      }
      if held {
        return ImportInProgress;
      }
      var committed := Among(p, {Committed});
      assert committed <==> exists o :: o in moves && moves[o].project == p && moves[o].status == Committed by {
        assert forall o :: o in moves ==> (Holds(moves[o], p, {Committed}) <==>
                 moves[o].project == p && moves[o].status == Committed);
      }
      if p in projects || committed {
        return AlreadyMigrated;
      }
      moves := moves[m := Move(p, w, manifest, Reserved, now, None, None, None)];
      return Status(Reserved);
    }

    /** Commits when every stream arrived as the manifest promised; otherwise names the streams that did not. */
    method Commit(m: MoveId, manifest: nat, streams: seq<ImportDigest.StreamRow>, now: int)
      returns (done: bool, mismatched: seq<nat>)
      requires ImportDigest.OneRowAStream(streams)
      modifies this
      ensures State() == ProjectMove.Commit(old(State()), m, manifest, ImportDigest.AllArrived(streams), now)
      ensures done <==>
              TakesRows(old(State()), m) && old(moves)[m].manifest == manifest && ImportDigest.AllArrived(streams)
      ensures m in old(moves) && Open(old(moves)[m].status) && old(moves)[m].manifest == manifest ==>
                forall s: nat :: s in mismatched <==>
                  ImportDigest.Present(streams, s) && !ImportDigest.Arrived(streams, s)
    {
      done, mismatched := false, [];
      if m !in moves || !Open(moves[m].status) || moves[m].manifest != manifest {
        return;
      }
      var verified: bool;
      verified, mismatched := ImportDigest.Verify(streams);
      if !verified {
        return;
      }
      var move := moves[m];
      if move.project !in projects || projects[move.project] != Project(move.workspace, true, false) {
        return;
      }
      moves := moves[m := move.(status := Committed, updatedAt := now)];
      projects := projects[move.project := projects[move.project].(hidden := false)];
      everShown := everShown + {m};
      done := true;
    }

    method Uncommit(m: MoveId, changed: bool, confirmed: bool, now: int)
      modifies this
      ensures State() == ProjectMove.Uncommit(old(State()), m, changed, confirmed, now)
    {
      if m !in moves || moves[m].status != Committed {
        return;
      }
      var move := moves[m];
      if move.project !in projects || projects[move.project].deleted
         || projects[move.project].workspace != move.workspace || (changed && !confirmed) {
        return;
      }
      projects := projects[move.project := projects[move.project].(hidden := true)];
      moves := moves[m := move.(status := Importing, updatedAt := now, uncommittedAt := Some(now))];
    }

    method SchedulePurge(m: MoveId, byCron: bool, now: int)
      requires m in moves
      modifies this
      ensures State() == ProjectMove.SchedulePurge(old(State()), m, byCron, now)
    {
      var purge := if moves[m].purge.Some? then moves[m].purge.value else FreshPurge(now);
      var run := nextRun;
      nextRun := nextRun + 1;
      var restarts := 0;
      if byCron {
        restarts := purge.restarts + 1;
      }
      moves := moves[m := moves[m].(purge := Some(purge.(run := run, error := None, restarts := restarts,
                updatedAt := now)))];
    }

    method Abort(m: MoveId, now: int)
      modifies this
      ensures State() == ProjectMove.Abort(old(State()), m, now)
    {
      if m !in moves {
        return;
      }
      if moves[m].status == Aborting {
        if (moves[m].purge.Some? && moves[m].purge.value.error.Some?) || PurgeStalled(moves[m], now) {
          SchedulePurge(m, false, now);
        }
      } else if Open(moves[m].status) {
        moves := moves[m := moves[m].(status := Aborting, updatedAt := now, abortedAt := Some(now))];
        SchedulePurge(m, false, now);
      }
    }

    method HiddenProject(move: Move) returns (holder: Holder)
      ensures holder == ProjectMove.HiddenProject(State(), move)
    {
      if move.project !in projects {
        return Nobody;
      }
      var committed := Among(move.project, {Committed});
      assert committed <==> exists o ::
             o in moves && moves[o].project == move.project && moves[o].status == Committed by {
        assert forall o :: o in moves ==> (Holds(moves[o], move.project, {Committed}) <==>
                 moves[o].project == move.project && moves[o].status == Committed);
      }
      if projects[move.project].hidden && projects[move.project].workspace == move.workspace && !committed {
        return Ours;
      }
      return Taken;
    }

    method Save(m: MoveId, purge: Purge)
      requires m in moves
      modifies this
      ensures State() == ProjectMove.Save(old(State()), m, purge)
    {
      moves := moves[m := moves[m].(purge := Some(purge))];
    }

    /**
     One link. In the rows phase it drains the backend's plan under `project`, the
     row of the move's project; in the audit phase it deletes what the move wrote on
     one audit page. `link` is what the drain did, read off the rows.
     */
    method Step(m: MoveId, run: RunId, tables: PurgeDrain.Purger, project: PurgeDrain.Row, page: seq<AuditRow>,
            ghost cap: nat, now: int)
      returns (ghost link: RowsLink)
      requires m in moves ==> project.table == PurgeDrain.Projects && project.id == ProjectText(moves[m].project)
      requires m in moves ==> Contents(State(), moves[m].project) == |RowsUnder(tables.rows, project)|
      requires forall d :: d in tables.rows ==> tables.rows[d].bytes <= cap
      modifies this, tables
      ensures State() == ProjectMove.Step(old(State()), m, run, link,
                                          if m in old(moves) then |Imported(page, old(moves)[m])| else 0, now)
      ensures forall audited: nat :: Legal(old(State()), EStep(m, run, link, audited, now))
      ensures m in old(moves) ==> m in moves && Contents(State(), moves[m].project) == |RowsUnder(tables.rows, project)|
      ensures PurgeDrain.Shrunk(old(tables.rows), tables.rows)
      ensures PurgeDrain.NoOrphans(old(tables.rows), tables.rows, PurgeDrain.ChildrenOf)
      ensures forall d :: d in old(tables.rows) && d !in tables.rows ==>
                && CurrentRun(old(State()), m, run) && ProjectMove.HiddenProject(old(State()), old(moves)[m]) == Ours
                && old(moves)[m].purge.value.phase == RowsPhase
                && d in RowsUnder(old(tables.rows), project)
                && PurgeDrain.Mine(old(tables.rows)[d], ProjectText(old(moves)[m].project))
      ensures forall d, q ::
              d in old(tables.rows) && d !in tables.rows && old(tables.rows)[d].project == Some(ProjectText(q)) ==>
                m in old(moves) && q == old(moves)[m].project
    {
      hide ProjectText, RowsUnder, Imported, PurgeDrain.Mine, PurgeDrain.NoOrphans, PurgeDrain.Shrunk;
      NothingDrained(tables.rows);
      link := RowsLink(0, PurgeDrain.Foreign(PurgeDrain.Projects));
      if m !in moves || moves[m].status != Aborting || moves[m].purge.None? || moves[m].purge.value.run != run {
        return;
      }
      var move := moves[m];
      var purge := move.purge.value.(updatedAt := now);
      if purge.phase == ObjectsPhase {
        Save(m, purge.(phase := ObjectsPhase, cursor := 0));
        return;
      }
      var holder := HiddenProject(move);
      if holder == Taken {
        Save(m, purge.(phase := ObjectsPhase, cursor := 0, skipped := Some(IdTaken)));
        return;
      }
      if holder == Nobody {
        Save(m, purge.(phase := ObjectsPhase, cursor := 0));
        return;
      }
      if purge.phase == RowsPhase {
        var outcome, deleted := DrainRows(tables, project, cap);
        NamesNoOther(old(tables.rows), tables.rows, move.project);
        link := RowsLink(deleted, outcome);
        SaveRows(m, run, RowsLink(deleted, outcome), now);
      } else {
        StepAudit(m, run, link, page, now);
      }
    }

    /** Drains the backend's plan under a project, as far as one link goes. */
    static method DrainRows(tables: PurgeDrain.Purger, project: PurgeDrain.Row, ghost cap: nat)
      returns (outcome: PurgeDrain.Outcome, deleted: nat)
      requires forall d :: d in tables.rows ==> tables.rows[d].bytes <= cap
      modifies tables
      ensures LinkFits(|RowsUnder(old(tables.rows), project)|, RowsLink(deleted, outcome))
      ensures |RowsUnder(tables.rows, project)| == |RowsUnder(old(tables.rows), project)| - deleted
      ensures PurgeDrain.Shrunk(old(tables.rows), tables.rows)
      ensures PurgeDrain.NoOrphans(old(tables.rows), tables.rows, PurgeDrain.ChildrenOf)
      ensures forall d :: d in old(tables.rows) && d !in tables.rows ==>
                d in RowsUnder(old(tables.rows), project) && PurgeDrain.Mine(old(tables.rows)[d], project.id)
    {
      hide PurgeDrain.ProjectPurge;
      ghost var before := tables.rows;
      PlanFollows();
      outcome, deleted := tables.Link(PurgeDrain.ProjectPurge(), project, PurgeDrain.ChildrenOf, cap);
      DrainFits(before, tables.rows, project, outcome);
    }

    /** What a rows-phase link leaves of its purge; `link` is what its drain did. */
    method SaveRows(m: MoveId, run: RunId, link: RowsLink, now: int)
      requires CurrentRun(State(), m, run)
      requires moves[m].purge.value.phase == RowsPhase
      requires ProjectMove.HiddenProject(State(), moves[m]) == Ours
      requires LinkFits(Contents(State(), moves[m].project), link)
      modifies this
      ensures forall audited: nat :: State() == ProjectMove.Step(old(State()), m, run, link, audited, now)
      ensures m in moves && moves[m].project == old(moves)[m].project
      ensures Contents(State(), moves[m].project) == Contents(old(State()), moves[m].project) - link.deleted
    {
      var purge := moves[m].purge.value;
      contents := contents[moves[m].project := Contents(State(), moves[m].project) - link.deleted];
      var counted := purge.(updatedAt := now, rows := purge.rows + link.deleted);
      match link.outcome
      case Foreign(_) => Save(m, counted.(error := Some(Stopped("foreign_row"))));
      case Drained => Save(m, counted.(phase := AuditPhase, cursor := 0, restarts := 0));
      case OutOfBudget => Save(m, counted.(restarts := 0));
    }

    method StepAudit(m: MoveId, run: RunId, ghost link: RowsLink, page: seq<AuditRow>, now: int)
      requires CurrentRun(State(), m, run)
      requires moves[m].purge.value.phase == AuditPhase
      requires ProjectMove.HiddenProject(State(), moves[m]) == Ours
      modifies this
      ensures State() == ProjectMove.Step(old(State()), m, run, link, |Imported(page, old(moves)[m])|, now)
      ensures contents == old(contents)
    {
      var deleted := CountImported(page, moves[m]);
      var purge := moves[m].purge.value;
      var counted := purge.(rows := purge.rows + deleted, restarts := 0, updatedAt := now);
      if purge.cursor + 1 < auditPages {
        Save(m, counted.(cursor := purge.cursor + 1));
      } else {
        projects := projects - {moves[m].project};
        Save(m, counted.(rows := counted.rows + 1, phase := ObjectsPhase, cursor := 0));
      }
    }

    method CountImported(page: seq<AuditRow>, move: Move) returns (n: nat)
      ensures n == |Imported(page, move)|
    {
      n := 0;
      for i := 0 to |page|
        invariant n == |Imported(page[..i], move)|
      {
        assert Imported(page[..i + 1], move) ==
               Imported(page[..i], move) + (if IsImported(page[i], move) then {i} else {});
        if IsImported(page[i], move) {
          n := n + 1;
        }
      }
      assert page[..|page|] == page;
    }

    method ClaimObjectBatch(m: MoveId, run: RunId, prefix: Prefix, deleted: nat, now: int) returns (claimed: bool)
      modifies this
      ensures State() == ProjectMove.ClaimObjectBatch(old(State()), m, run, deleted, now)
      ensures claimed <==> ClaimAnswer(old(State()), m, run, prefix)
    {
      if m !in moves || moves[m].status != Aborting || moves[m].purge.None? || moves[m].purge.value.run != run
         || moves[m].purge.value.phase != ObjectsPhase {
        return false;
      }
      var purge := moves[m].purge.value;
      var move := moves[m];
      var allowed := [MovePrefix(m)];
      if move.project !in projects && purge.skipped != Some(IdTaken) {
        allowed := [ProjectPrefix(move.project)] + allowed;
      }
      claimed := prefix in allowed;
      assert allowed == AllowedPrefixes(old(State()), m);
      var restarts := purge.restarts;
      if deleted > 0 {
        restarts := 0;
      }
      Save(m, purge.(objects := purge.objects + deleted, restarts := restarts, updatedAt := now));
    }

    method Finish(m: MoveId, run: RunId, deleted: nat, noStorage: bool, now: int)
      modifies this
      ensures State() == ProjectMove.Finish(old(State()), m, run, deleted, noStorage, now)
    {
      if m !in moves || moves[m].status != Aborting || moves[m].purge.None? || moves[m].purge.value.run != run
         || moves[m].purge.value.phase != ObjectsPhase {
        return;
      }
      var purge := moves[m].purge.value;
      var skipped := purge.skipped;
      if skipped.None? && noStorage {
        skipped := Some(NoStorage);
      }
      moves := moves[m := moves[m].(status := Purged, updatedAt := now,
        purge := Some(purge.(objects := purge.objects + deleted, skipped := skipped, error := None,
              updatedAt := now)))];
    }

    /** The cron: every aborting move in turn. */
    method Resume(aborting: seq<MoveId>, now: int) returns (restarted: nat)
      requires forall m :: m in aborting ==> m in moves
      modifies this
      ensures State() == ResumeAll(old(State()), aborting, now)
      ensures nextRun == old(nextRun) + restarted
    {
      restarted := 0;
      for i := 0 to |aborting|
        invariant State() == ResumeAll(old(State()), aborting[..i], now)
        invariant forall m :: m in aborting ==> m in moves
        invariant nextRun == old(nextRun) + restarted
      {
        var m := aborting[i];
        assert aborting[..i + 1][..i] == aborting[..i];
        if PurgeStalled(moves[m], now) {
          if moves[m].purge.Some? && moves[m].purge.value.restarts >= MAX_RESTARTS {
            Save(m, moves[m].purge.value.(error := Some(Stopped("stalled")), updatedAt := now));
          } else {
            SchedulePurge(m, true, now);
            restarted := restarted + 1;
          }
        }
      }
      assert aborting[..|aborting|] == aborting;
    }
  }

  function ResumeAll(db: Db, aborting: seq<MoveId>, now: int): Db {
    if aborting == [] then db else Resume(ResumeAll(db, aborting[..|aborting| - 1], now), aborting[|aborting| - 1], now)
  }

  lemma ResumeRest(db: Db, o: MoveId, now: int)
    ensures var next := Resume(db, o, now);
            && next.nextRun >= db.nextRun && next.projects == db.projects && next.contents == db.contents
            && (forall m :: m in db.moves ==> m in next.moves && (m != o ==> next.moves[m] == db.moves[m]))
  {
  }

  /** What the cron does to a row depends on the row, the clock and the run it may mint. */
  lemma ResumeActs(db: Db, m: MoveId, now: int)
    requires m in db.moves
    ensures Resume(db, m, now) == db <==> !PurgeStalled(db.moves[m], now)
    ensures m in Resume(db, m, now).moves
  {
  }

  lemma ResumeMints(db: Db, m: MoveId, now: int)
    requires m in db.moves && PurgeStalled(db.moves[m], now)
    ensures var gaveUp := db.moves[m].purge.Some? && db.moves[m].purge.value.restarts >= MAX_RESTARTS;
            Resume(db, m, now).nextRun == db.nextRun + (if gaveUp then 0 else 1)
  {
  }

  /** What the cron does to a row depends on the row, the clock and the run it may mint. */
  lemma ResumeReads(db: Db, other: Db, m: MoveId, now: int)
    requires m in db.moves && m in other.moves && db.moves[m] == other.moves[m] && db.nextRun == other.nextRun
    ensures Resume(db, m, now).moves[m] == Resume(other, m, now).moves[m]
  {
    hide PurgeStalled;
  }

  lemma ResumeOwn(db: Db, other: Db, m: MoveId, now: int)
    requires m in db.moves && m in other.moves && db.moves[m] == other.moves[m]
    ensures Resume(db, m, now) == db <==> Resume(other, m, now) == other
    ensures m in Resume(other, m, now).moves && m in Resume(db.(nextRun := other.nextRun), m, now).moves
    ensures Resume(other, m, now).moves[m] == Resume(db.(nextRun := other.nextRun), m, now).moves[m]
    ensures Resume(db, m, now).nextRun == db.nextRun || Resume(other, m, now).nextRun > other.nextRun
  {
    ResumeActs(db, m, now);
    ResumeActs(other, m, now);
    ResumeActs(db.(nextRun := other.nextRun), m, now);
    ResumeReads(other, db.(nextRun := other.nextRun), m, now);
    if PurgeStalled(db.moves[m], now) {
      ResumeMints(db, m, now);
      ResumeMints(other, m, now);
    }
    hide Resume, PurgeStalled;
  }

  /** One pass of the cron does to each aborting move what resuming it alone would, up to the run it mints. */
  lemma {:induction false} ResumeAllRows(db: Db, aborting: seq<MoveId>, now: int, m: MoveId)
    requires m in db.moves && forall i, j :: 0 <= i < j < |aborting| ==> aborting[i] != aborting[j]
    ensures var next := ResumeAll(db, aborting, now);
            && m in next.moves
            && next.nextRun >= db.nextRun
            && next.projects == db.projects
            && next.contents == db.contents
            && (m !in aborting || Resume(db, m, now) == db ==> next.moves[m] == db.moves[m])
            && (m in aborting && Resume(db, m, now) != db ==>
                  exists run :: db.nextRun <= run && (run < next.nextRun || Resume(db, m, now).nextRun == db.nextRun)
                    && next.moves[m] == Resume(db.(nextRun := run), m, now).moves[m])
  {
    if aborting != [] {
      var last := |aborting| - 1;
      var mid := ResumeAll(db, aborting[..last], now);
      ResumeAllRows(db, aborting[..last], now, m);
      ResumeRest(mid, aborting[last], now);
      if aborting[last] == m {
        assert m !in aborting[..last];
        ResumeOwn(db, mid, m, now);
        hide Resume;
      } else {
        hide Resume;
        assert m in aborting <==> m in aborting[..last];
      }
    }
  }
}
