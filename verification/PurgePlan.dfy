/**
 What the backend's purge plan reaches, said by the tables themselves: every row
 that names the project or hangs under such a row, and no other, so that rows of
 other projects that point into the moved one stay.
 */
module PurgePlan {
  import opened Wrappers
  import opened PurgeDrain

  /** By which field a row of one table names the row of another it hangs under. */
  function HangsBy(child: Table, owner: Table): Option<Field> {
    match owner
    case Sessions => (
      match child
      case SessionEvents | SessionIntake | SessionStates | SessionTurns | TranscriptArtifacts | TranscriptSegments
        | EventArchives | PiLogSegments | StreamChunks | SessionViewers | SessionFollowUpRevisions
        | SessionFollowUpQueues | SessionGrants | ReadMarkers | AttentionItems => Some(SessionField)
      case Delegations => Some(ChildSessionField)
      case DelegationExtensions => Some(ParentSessionField)
      case Watches => Some(WatcherSessionField)
      case _ => None)
    case SessionViewers => if child == SessionViewerHeartbeats then Some(ViewerField) else None
    case Tickets => (
      match child
      case TicketBodies | TicketComments | TicketSignals | WorkingCopies | AttentionItems => Some(TicketField)
      case TicketLinks => Some(FromTicketField)
      case _ => None)
    case Automations => if child == AutomationSchedules then Some(AutomationField) else None
    case ProjectRepos => if child == RecipeStatus then Some(RepoField) else None
    case _ => None
  }

  /** A row that names the project itself, by its id or, where entries have a scope, by the project's scope. */
  predicate NamesProject(row: Row, project: Row) {
    if row.table in {ConfigEntries, Secrets, ModelConnections}
    then ScopeField in row.fields && row.fields[ScopeField] == "p:" + project.id
    else HasProject(row.table) && ProjectField in row.fields && row.fields[ProjectField] == project.id
  }

  /** The tables whose rows are read by the project they are of. */
  predicate HasProject(table: Table) {
    match table
    case Sessions | Tickets | Automations | ProjectRepos | WorkingCopies | RunnerJobs | BoardEvents | Labels | BlobLinks
      | Blobs | AutomationArmings | AutomationColumnOrder | AutomationRuns | EnvironmentRuns | EnvironmentSnapshots
      | MemberProjectPrefs | ProjectCheckouts | ProjectEnvironment | ProjectCounters | ProjectMoves => true
    case _ => false
  }

  predicate Hangs(row: Row, owner: Row) {
    var field := HangsBy(row.table, owner.table);
    field.Some? && field.value in row.fields && row.fields[field.value] == owner.id
  }

  /** A row of the project: it names it, or hangs under a row that does, or under one that hangs so. */
  ghost predicate Belongs(rows: Rows, project: Row, d: DocId) {
    && d in rows
    && (|| NamesProject(rows[d], project)
        || (exists m :: m in rows && Hangs(rows[d], rows[m]) && NamesProject(rows[m], project))
        || (exists m, s ::
              m in rows && s in rows && Hangs(rows[d], rows[m]) && Hangs(rows[m], rows[s])
              && NamesProject(rows[s], project)))
  }

  /** A row listed under a table's rows is one that hangs under them. */
  lemma ChildHangs(owner: Table, i: nat)
    requires i < |ChildrenOf(owner)|
    ensures var child := ChildrenOf(owner)[i];
            HangsBy(child.table, owner) == Some(child.field) && child.via == OwnerId
  {
    match owner
    case Sessions => SessionChildHangs(i);
    case _ =>
  }

  lemma SessionChildHangs(i: nat)
    requires i < 18
    ensures var child := ChildrenOf(Sessions)[i];
            HangsBy(child.table, Sessions) == Some(child.field) && child.via == OwnerId
  {
    var children := ChildrenOf(Sessions);
    if i < 9 {
      assert children[..9] == [
        ById(SessionEvents, SessionField), ById(SessionIntake, SessionField), ById(SessionStates, SessionField),
        ById(SessionTurns, SessionField), ById(TranscriptArtifacts, SessionField),
        ById(TranscriptSegments, SessionField), ById(EventArchives, SessionField),
        ById(PiLogSegments, SessionField), ById(StreamChunks, SessionField)];
      assert children[i] == children[..9][i];
    }
  }

  /** Where a table is listed under another. */
  function PlaceOf(child: Table, owner: Table): nat {
    match owner
    case Sessions => (
      match child
      case SessionEvents => 0
      case SessionIntake => 1
      case SessionStates => 2
      case SessionTurns => 3
      case TranscriptArtifacts => 4
      case TranscriptSegments => 5
      case EventArchives => 6
      case PiLogSegments => 7
      case StreamChunks => 8
      case SessionViewers => 9
      case SessionFollowUpRevisions => 10
      case SessionFollowUpQueues => 11
      case Delegations => 12
      case DelegationExtensions => 13
      case SessionGrants => 14
      case Watches => 15
      case ReadMarkers => 16
      case _ => 17)
    case Tickets => (
      match child
      case TicketBodies => 0
      case TicketComments => 1
      case TicketSignals => 2
      case TicketLinks => 3
      case WorkingCopies => 4
      case _ => 5)
    case _ => 0
  }

  /** And a row that hangs under them is listed there. */
  lemma HangingIsChild(child: Table, owner: Table)
    requires HangsBy(child, owner).Some?
    ensures PlaceOf(child, owner) < |ChildrenOf(owner)|
    ensures ChildrenOf(owner)[PlaceOf(child, owner)].table == child
  {
    if owner == Sessions {
      if PlaceOf(child, owner) < 5 {
        FirstSessionTables(child);
      } else if PlaceOf(child, owner) < 9 {
        NextSessionTables(child);
      } else {
        LastSessionTables(child);
      }
      hide PlaceOf, HangsBy, ChildrenOf;
    }
  }

  lemma FirstSessionTables(child: Table)
    requires HangsBy(child, Sessions).Some? && PlaceOf(child, Sessions) < 5
    ensures |ChildrenOf(Sessions)| == 18 && ChildrenOf(Sessions)[PlaceOf(child, Sessions)].table == child
  {
  }

  lemma NextSessionTables(child: Table)
    requires HangsBy(child, Sessions).Some? && 5 <= PlaceOf(child, Sessions) < 9
    ensures |ChildrenOf(Sessions)| == 18 && ChildrenOf(Sessions)[PlaceOf(child, Sessions)].table == child
  {
  }

  lemma LastSessionTables(child: Table)
    requires HangsBy(child, Sessions).Some? && PlaceOf(child, Sessions) >= 9
    ensures |ChildrenOf(Sessions)| == 18 && PlaceOf(child, Sessions) < 18
    ensures ChildrenOf(Sessions)[PlaceOf(child, Sessions)].table == child
  {
  }

  /** A row hangs under another exactly when a node listed for the other's table finds it there. */
  lemma HangsMeans(row: Row, owner: Row)
    ensures Hangs(row, owner) <==>
            exists i :: 0 <= i < |ChildrenOf(owner.table)| && IsUnder(row, ChildrenOf(owner.table)[i], owner)
  {
    hide HangsBy, PlaceOf, ChildrenOf;
    if Hangs(row, owner) {
      var i := PlaceOf(row.table, owner.table);
      HangingIsChild(row.table, owner.table);
      ChildHangs(owner.table, i);
      assert IsUnder(row, ChildrenOf(owner.table)[i], owner);
    }
    forall i | 0 <= i < |ChildrenOf(owner.table)| && IsUnder(row, ChildrenOf(owner.table)[i], owner)
      ensures Hangs(row, owner)
    {
      ChildHangs(owner.table, i);
    }
  }

  lemma ListedTables(table: Table)
    ensures table in TOP_TABLES <==> HasProject(table) || table in {ConfigEntries, Secrets, ModelConnections}
  {
    if table in TOP_TABLES {
      ListedHasProject(table);
    } else {
      OthersHaveNone(table);
    }
    hide TOP_TABLES, HasProject;
  }

  lemma ListedHasProject(table: Table)
    requires table in TOP_TABLES
    ensures HasProject(table) || table in {ConfigEntries, Secrets, ModelConnections}
  {
    var i :| 0 <= i < |TOP_TABLES| && TOP_TABLES[i] == table;
    if i < 8 {
      FirstHaveProject(i);
    } else {
      LastHaveProject(i);
    }
    hide HasProject, TOP_TABLES;
  }

  lemma FirstHaveProject(i: nat)
    requires i < 8
    ensures HasProject(TOP_TABLES[i])
  {
  }

  lemma LastHaveProject(i: nat)
    requires 8 <= i < |TOP_TABLES|
    ensures HasProject(TOP_TABLES[i]) || TOP_TABLES[i] in {ConfigEntries, Secrets, ModelConnections}
  {
  }

  lemma OthersHaveNone(table: Table)
    requires table !in TOP_TABLES
    ensures !HasProject(table) && table !in {ConfigEntries, Secrets, ModelConnections}
  {
  }

  /** A row names the project exactly when the plan's node of its table finds it under the project. */
  lemma NamesMeans(row: Row, project: Row)
    ensures NamesProject(row, project) <==> row.table in TOP_TABLES && IsUnder(row, TopNode(row.table), project)
  {
    ListedTables(row.table);
    hide ChildrenOf, HasProject, TOP_TABLES;
  }

  lemma TopOf(table: Table)
    ensures TopNode(table).table == table && TopNode(table).children == ChildrenOf(table)
  {
    hide ChildrenOf;
  }

  lemma ReachedBelongs(rows: Rows, project: Row, i: nat, d: DocId)
    requires i < |ProjectPurge()| && Reaches(rows, ProjectPurge()[i], project, d)
    ensures Belongs(rows, project, d)
  {
    hide HangsBy, ChildrenOf, TopNode, NamesProject, Hangs;
    var node := ProjectPurge()[i];
    TopOf(TOP_TABLES[i]);
    if d in rows && IsUnder(rows[d], node, project) {
      NamesMeans(rows[d], project);
    } else {
      var m, j :| m in rows && IsUnder(rows[m], node, project) && 0 <= j < |node.children|
          && Reaches(rows, node.children[j], rows[m], d);
      NamesMeans(rows[m], project);
      BelowBelongs(rows, m, j, d);
    }
  }

  /** What a node listed for a row's table finds under the row hangs there, or under a row that does. */
  lemma BelowBelongs(rows: Rows, m: DocId, j: nat, d: DocId)
    requires m in rows && j < |ChildrenOf(rows[m].table)|
    requires Reaches(rows, ChildrenOf(rows[m].table)[j], rows[m], d)
    ensures d in rows
    ensures Hangs(rows[d], rows[m])
            || exists v :: v in rows && Hangs(rows[d], rows[v]) && Hangs(rows[v], rows[m])
  {
    hide HangsBy, ChildrenOf, Hangs;
    var child := ChildrenOf(rows[m].table)[j];
    OfChild(rows[m].table, j);
    if d in rows && IsUnder(rows[d], child, rows[m]) {
      HangsMeans(rows[d], rows[m]);
    } else {
      var v, k :| v in rows && IsUnder(rows[v], child, rows[m]) && 0 <= k < |child.children|
          && Reaches(rows, child.children[k], rows[v], d);
      assert child.children[k] in child.children;
      HangsMeans(rows[v], rows[m]);
      HangsMeans(rows[d], rows[v]);
    }
  }

  lemma BelongsReached(rows: Rows, project: Row, d: DocId)
    requires Belongs(rows, project, d)
    ensures ReachesAny(rows, ProjectPurge(), |ProjectPurge()|, project, d)
  {
    hide HangsBy, ChildrenOf, TopNode, NamesProject, Hangs;
    if NamesProject(rows[d], project) {
      var _ := NamedReaches(rows, project, d);
    } else if m :| m in rows && Hangs(rows[d], rows[m]) && NamesProject(rows[m], project) {
      var i := NamedReaches(rows, project, m);
      HangsMeans(rows[d], rows[m]);
      TopOf(rows[m].table);
      var j :| 0 <= j < |ChildrenOf(rows[m].table)| && IsUnder(rows[d], ChildrenOf(rows[m].table)[j], rows[m]);
      assert Reaches(rows, ProjectPurge()[i].children[j], rows[m], d);
      assert Reaches(rows, ProjectPurge()[i], project, d);
    } else {
      var m, s :| m in rows && s in rows && Hangs(rows[d], rows[m]) && Hangs(rows[m], rows[s])
          && NamesProject(rows[s], project);
      var i := NamedReaches(rows, project, s);
      HangsMeans(rows[d], rows[m]);
      HangsMeans(rows[m], rows[s]);
      TopOf(rows[s].table);
      var j :| 0 <= j < |ChildrenOf(rows[s].table)| && IsUnder(rows[m], ChildrenOf(rows[s].table)[j], rows[s]);
      OfChild(rows[s].table, j);
      var k :| 0 <= k < |ChildrenOf(rows[m].table)| && IsUnder(rows[d], ChildrenOf(rows[m].table)[k], rows[m]);
      assert Reaches(rows, ProjectPurge()[i].children[j].children[k], rows[m], d);
      assert Reaches(rows, ProjectPurge()[i].children[j], rows[s], d);
      assert Reaches(rows, ProjectPurge()[i], project, d);
    }
  }

  lemma NamedReaches(rows: Rows, project: Row, d: DocId) returns (i: nat)
    requires d in rows && NamesProject(rows[d], project)
    ensures i < |ProjectPurge()| && ProjectPurge()[i] == TopNode(rows[d].table)
    ensures IsUnder(rows[d], ProjectPurge()[i], project)
    ensures Reaches(rows, ProjectPurge()[i], project, d)
    ensures ReachesAny(rows, ProjectPurge(), |ProjectPurge()|, project, d)
  {
    hide HangsBy, ChildrenOf, TopNode, NamesProject;
    NamesMeans(rows[d], project);
    i :| 0 <= i < |TOP_TABLES| && TOP_TABLES[i] == rows[d].table;
    assert Reaches(rows, ProjectPurge()[i], project, d);
  }

  /** The plan reaches exactly the rows of the project. */
  lemma PlanReachesExactly(rows: Rows, project: Row, d: DocId)
    ensures ReachesAny(rows, ProjectPurge(), |ProjectPurge()|, project, d) <==> Belongs(rows, project, d)
  {
    if ReachesAny(rows, ProjectPurge(), |ProjectPurge()|, project, d) {
      var i :| 0 <= i < |ProjectPurge()| && Reaches(rows, ProjectPurge()[i], project, d);
      ReachedBelongs(rows, project, i, d);
    }
    if Belongs(rows, project, d) {
      BelongsReached(rows, project, d);
    }
  }

  /** So what a link's drain counts under a project are the project's rows. */
  lemma UnderIsTheProject(rows: Rows, project: Row)
    ensures Under(rows, ProjectPurge(), project) == set d | d in rows && Belongs(rows, project, d)
  {
    forall d | d in rows
      ensures d in Under(rows, ProjectPurge(), project) <==> Belongs(rows, project, d)
    {
      PlanReachesExactly(rows, project, d);
    }
  }

  /** A row that says it is another project's. */
  predicate SaysAnothers(row: Row, project: Row) {
    row.project.Some? && row.project.value != project.id
  }

  /** A link of the plan takes only rows of the project, none that names another, and leaves every other row. */
  lemma LinkTakesOnlyItsOwn(before: Rows, after: Rows, project: Row, d: DocId)
    requires Shrunk(before, after) && Found(before, after, ProjectPurge(), |ProjectPurge()|, project)
    requires d in before
    ensures d !in after ==> Belongs(before, project, d) && !SaysAnothers(before[d], project)
    ensures !Belongs(before, project, d) || SaysAnothers(before[d], project) ==> d in after && after[d] == before[d]
  {
    PlanReachesExactly(before, project, d);
    hide ProjectPurge, Belongs, Reaches;
  }

  /**
   The whole chain: after the link that drains the plan no row of the project is
   left, those of a session, a ticket or a viewer of it included.
   */
  lemma ChainTakesTheProject(links: seq<Rows>, drained: Rows, project: Row)
    requires Chain(links, ChildrenOf)
    requires Shrunk(links[|links| - 1], drained) && NoOrphans(links[|links| - 1], drained, ChildrenOf)
    requires AllClear(drained, ProjectPurge(), |ProjectPurge()|, project)
    ensures forall d :: Belongs(links[0], project, d) ==> d !in drained
  {
    ProjectPurgeFollows();
    ChainPurgesEverything(links, drained, ProjectPurge(), project, ChildrenOf);
    forall d | Belongs(links[0], project, d)
      ensures d !in drained
    {
      PlanReachesExactly(links[0], project, d);
    }
  }
}
