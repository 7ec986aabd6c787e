/**
 The rows phase of a purge: deleting everything under a moved project, children
 before their owner, a bounded amount per transaction.

 `Purger` holds the rows and drains a tree of purge nodes in place; the plan of
 the backend is `ProjectPurge`.
 */
module PurgeDrain {
  import opened Wrappers

  const STEP_MAX_ROWS := 256
  const STEP_MAX_BYTES := 2_097_152
  const TAKE := 4

  datatype Table =
    | Sessions | SessionEvents | SessionIntake | SessionStates | SessionTurns | TranscriptArtifacts
    | TranscriptSegments | EventArchives | PiLogSegments | StreamChunks | SessionViewers
    | SessionViewerHeartbeats | SessionFollowUpRevisions | SessionFollowUpQueues | Delegations
    | DelegationExtensions | SessionGrants | Watches | ReadMarkers | AttentionItems
    | Tickets | TicketBodies | TicketComments | TicketSignals | TicketLinks | WorkingCopies
    | Automations | AutomationSchedules | ProjectRepos | RecipeStatus | RunnerJobs | BoardEvents
    | Labels | BlobLinks | Blobs | AutomationArmings | AutomationColumnOrder | AutomationRuns
    | EnvironmentRuns | EnvironmentSnapshots | ConfigEntries | Secrets | ModelConnections
    | MemberProjectPrefs | ProjectCheckouts | ProjectEnvironment | ProjectCounters | ProjectMoves
    | Projects

  datatype Field =
    | ProjectField | SessionField | ViewerField | ChildSessionField | ParentSessionField
    | WatcherSessionField | TicketField | FromTicketField | AutomationField | RepoField | ScopeField

  /** What a node's field equals: the owner's id, or the owner's project scope key. */
  datatype Via = OwnerId | ProjectScope

  datatype Node = Node(table: Table, field: Field, via: Via, children: seq<Node>)

  type DocId = nat
  type Plan = Table -> seq<Node>

  /** A row: its id, the fields the purge reads it by, the project it names (if it names one), and its size. */
  datatype Row = Row(table: Table, id: string, fields: map<Field, string>, project: Option<string>, bytes: nat)

  type Rows = map<DocId, Row>

  datatype Outcome = Drained | OutOfBudget | Foreign(table: Table)

  function ValueOf(node: Node, owner: Row): string {
    if node.via == OwnerId then owner.id else "p:" + owner.id
  }

  /** Whether a node's index query finds `row` under `owner`. */
  predicate IsUnder(row: Row, node: Node, owner: Row) {
    row.table == node.table && node.field in row.fields && row.fields[node.field] == ValueOf(node, owner)
  }

  /** A node has no row under `owner`. */
  ghost predicate Clear(rows: Rows, node: Node, owner: Row) {
    forall d :: d in rows ==> !IsUnder(rows[d], node, owner)
  }

  /** The first `k` children of a node have no row under `doc`. */
  ghost predicate ChildrenClear(rows: Rows, node: Node, k: nat, doc: Row)
    requires k <= |node.children|
  {
    forall i :: 0 <= i < k ==> Clear(rows, node.children[i], doc)
  }

  /** Found under `owner` through `node`, at any depth. */
  ghost predicate Reaches(rows: Rows, node: Node, owner: Row, d: DocId) {
    || (d in rows && IsUnder(rows[d], node, owner))
    || exists m, i ::
       m in rows && IsUnder(rows[m], node, owner) && 0 <= i < |node.children|
       && Reaches(rows, node.children[i], rows[m], d)
  }

  // ── the plan ───────────────────────────────────────────────────────────────

  function ById(table: Table, field: Field): Node {
    Node(table, field, OwnerId, [])
  }

  /** The children of a table's rows, wherever the plan lists the table. */
  function ChildrenOf(table: Table): seq<Node> {
    match table
    case Sessions => [
      ById(SessionEvents, SessionField), ById(SessionIntake, SessionField), ById(SessionStates, SessionField),
      ById(SessionTurns, SessionField), ById(TranscriptArtifacts, SessionField), ById(TranscriptSegments, SessionField),
      ById(EventArchives, SessionField), ById(PiLogSegments, SessionField), ById(StreamChunks, SessionField),
      Node(SessionViewers, SessionField, OwnerId, [ById(SessionViewerHeartbeats, ViewerField)]),
      ById(SessionFollowUpRevisions, SessionField), ById(SessionFollowUpQueues, SessionField),
      ById(Delegations, ChildSessionField), ById(DelegationExtensions, ParentSessionField),
      ById(SessionGrants, SessionField), ById(Watches, WatcherSessionField), ById(ReadMarkers, SessionField),
      ById(AttentionItems, SessionField)]
    case SessionViewers => [ById(SessionViewerHeartbeats, ViewerField)]
    case Tickets => [
      ById(TicketBodies, TicketField), ById(TicketComments, TicketField), ById(TicketSignals, TicketField),
      ById(TicketLinks, FromTicketField), ById(WorkingCopies, TicketField), ById(AttentionItems, TicketField)]
    case Automations => [ById(AutomationSchedules, AutomationField)]
    case ProjectRepos => [ById(RecipeStatus, RepoField)]
    case _ => []
  }

  function Top(table: Table): Node {
    Node(table, ProjectField, OwnerId, ChildrenOf(table))
  }

  function Scoped(table: Table): Node {
    Node(table, ScopeField, ProjectScope, ChildrenOf(table))
  }

  const TOP_TABLES: seq<Table> := [
    Sessions, Tickets, Automations, ProjectRepos, WorkingCopies, RunnerJobs, BoardEvents, Labels, BlobLinks, Blobs,
    AutomationArmings, AutomationColumnOrder, AutomationRuns, EnvironmentRuns, EnvironmentSnapshots, ConfigEntries,
    Secrets, ModelConnections, MemberProjectPrefs, ProjectCheckouts, ProjectEnvironment, ProjectCounters, ProjectMoves]

  function TopNode(table: Table): Node {
    if table in {ConfigEntries, Secrets, ModelConnections} then Scoped(table) else Top(table)
  }

  /** The nodes under a project, in the order a link drains them. */
  function ProjectPurge(): seq<Node> {
    seq(|TOP_TABLES|, i requires 0 <= i < |TOP_TABLES| => TopNode(TOP_TABLES[i]))
  }

  /** A tree that gives a table the same children wherever it appears. */
  ghost predicate Follows(node: Node, plan: Plan) {
    node.children == plan(node.table) && forall i :: 0 <= i < |node.children| ==> Follows(node.children[i], plan)
  }

  /** Among the tables listed as children, only a session's viewers have children of their own. */
  lemma OnlyViewersHaveChildren(table: Table, i: nat)
    requires i < |ChildrenOf(table)|
    ensures var child := ChildrenOf(table)[i];
            && child.table !in {Sessions, Tickets, Automations, ProjectRepos}
            && child.children ==
               if child.table == SessionViewers then [ById(SessionViewerHeartbeats, ViewerField)] else []
  {
  }

  /** A child's own children are the plan's for its table, and have none. */
  lemma OfChild(table: Table, i: nat)
    requires i < |ChildrenOf(table)|
    ensures ChildrenOf(table)[i].children == ChildrenOf(ChildrenOf(table)[i].table)
    ensures forall leaf :: leaf in ChildrenOf(table)[i].children ==> leaf.children == [] == ChildrenOf(leaf.table)
  {
    var child := ChildrenOf(table)[i];
    OnlyViewersHaveChildren(table, i);
    if child.table == SessionViewers {
      assert child.children == [ById(SessionViewerHeartbeats, ViewerField)] == ChildrenOf(SessionViewers);
      assert ChildrenOf(SessionViewerHeartbeats) == [];
      hide ChildrenOf;
    } else {
      assert ChildrenOf(child.table) == [];
      hide ChildrenOf;
    }
  }

  lemma ChildFollows(table: Table, i: nat)
    requires i < |ChildrenOf(table)|
    ensures Follows(ChildrenOf(table)[i], ChildrenOf)
  {
    OfChild(table, i);
    hide ChildrenOf;
    var child := ChildrenOf(table)[i];
    forall k | 0 <= k < |child.children|
      ensures Follows(child.children[k], ChildrenOf)
    {
      assert child.children[k] in child.children;
    }
  }

  lemma TopFollows(table: Table)
    ensures Follows(Top(table), ChildrenOf) && Follows(Scoped(table), ChildrenOf)
  {
    hide ChildrenOf;
    forall i | 0 <= i < |ChildrenOf(table)|
      ensures Follows(ChildrenOf(table)[i], ChildrenOf)
    {
      ChildFollows(table, i);
    }
  }

  /** The backend's plan is such a tree at every node. */
  lemma ProjectPurgeFollows()
    ensures forall i :: 0 <= i < |ProjectPurge()| ==> Follows(ProjectPurge()[i], ChildrenOf)
  {
    forall i | 0 <= i < |ProjectPurge()|
      ensures Follows(ProjectPurge()[i], ChildrenOf)
    {
      TopFollows(TOP_TABLES[i]);
    }
  }

  // ── what a drain may do ────────────────────────────────────────────────────

  /** Rows only disappear; none is changed. */
  ghost predicate Shrunk(before: Rows, after: Rows) {
    forall d :: d in after ==> d in before && after[d] == before[d]
  }

  predicate Mine(row: Row, project: string) {
    row.project.None? || row.project.value == project
  }

  /** Every deleted row was the moved project's own, and was found under `owner`. */
  ghost predicate OnlyReached(before: Rows, after: Rows, node: Node, owner: Row, project: string) {
    forall d :: d in before && d !in after ==> Mine(before[d], project) && Reaches(before, node, owner, d)
  }

  /** No row is left under a deleted one. */
  ghost predicate NoOrphans(before: Rows, after: Rows, plan: Plan) {
    forall d, child :: d in before && d !in after && child in plan(before[d].table) ==> Clear(after, child, before[d])
  }

  /** What a drain of `node` under `owner` may have done, and no more. */
  ghost predicate Purged(before: Rows, after: Rows, node: Node, owner: Row, project: string, plan: Plan) {
    Shrunk(before, after) && OnlyReached(before, after, node, owner, project) && NoOrphans(before, after, plan)
  }

  lemma Smaller(before: Rows, after: Rows)
    requires Shrunk(before, after)
    ensures |after| <= |before|
  {
    assert after.Keys <= before.Keys;
    SubsetSize(after.Keys, before.Keys);
  }

  ghost function Pick(rows: Rows): (d: DocId)
    requires |rows| > 0
    ensures d in rows
  {
    var d :| d in rows; d
  }

  ghost function Weight(rows: Rows): nat
    decreases |rows|
  {
    if |rows| == 0 then 0
    else
      var d := Pick(rows);
      assert (rows - {d}).Keys == rows.Keys - {d};
      rows[d].bytes + Weight(rows - {d})
  }

  lemma Without(rows: Rows, d: DocId)
    requires d in rows
    ensures |rows - {d}| == |rows| - 1
  {
    assert (rows - {d}).Keys == rows.Keys - {d};
  }

  lemma WeightOf(rows: Rows, d: DocId)
    requires d in rows
    ensures Weight(rows) == rows[d].bytes + Weight(rows - {d})
    decreases |rows|
  {
    var e := Pick(rows);
    Without(rows, d);
    Without(rows, e);
    if e != d {
      WeightOf(rows - {e}, d);
      WeightOf(rows - {d}, e);
      assert rows - {e} - {d} == rows - {d} - {e};
    }
  }

  lemma StillClear(before: Rows, after: Rows, node: Node, k: nat, doc: Row)
    requires Shrunk(before, after) && k < |node.children| && ChildrenClear(before, node, k, doc)
    ensures Clear(after, node.children[k], doc) ==> ChildrenClear(after, node, k + 1, doc)
  {
    forall i | 0 <= i < k
      ensures Clear(after, node.children[i], doc)
    {
      assert Clear(before, node.children[i], doc);
    }
  }

  lemma ReachesShrinks(before: Rows, after: Rows, node: Node, owner: Row, d: DocId)
    requires Shrunk(before, after) && Reaches(after, node, owner, d)
    ensures Reaches(before, node, owner, d)
    decreases node
  {
    if !(d in after && IsUnder(after[d], node, owner)) {
      var m, i :| m in after && IsUnder(after[m], node, owner) && 0 <= i < |node.children|
          && Reaches(after, node.children[i], after[m], d);
      ReachesShrinks(before, after, node.children[i], after[m], d);
    }
  }

  function Height(node: Node): nat {
    1 + MaxHeight(node.children)
  }

  function MaxHeight(nodes: seq<Node>): nat {
    if nodes == [] then 0
    else var rest := MaxHeight(nodes[1..]); var first := Height(nodes[0]); if first > rest then first else rest
  }

  lemma ChildIsLower(nodes: seq<Node>, i: nat)
    requires i < |nodes|
    ensures Height(nodes[i]) <= MaxHeight(nodes)
  {
    if i > 0 {
      ChildIsLower(nodes[1..], i - 1);
    }
  }

  /** In a tree that follows a plan no table lies below itself: what is found under a row is of other tables. */
  lemma ReachedTables(rows: Rows, node: Node, owner: Row, d: DocId, plan: Plan)
    requires Follows(node, plan) && Reaches(rows, node, owner, d)
    ensures d in rows && 1 + MaxHeight(plan(rows[d].table)) <= Height(node)
    decreases node
  {
    if !(d in rows && IsUnder(rows[d], node, owner)) {
      var m, i :| m in rows && IsUnder(rows[m], node, owner) && 0 <= i < |node.children|
          && Reaches(rows, node.children[i], rows[m], d);
      ReachedTables(rows, node.children[i], rows[m], d, plan);
      ChildIsLower(node.children, i);
    }
  }

  /** Draining a child of `doc` never deletes `doc` itself. */
  lemma DocSurvivesItsChildren(before: Rows, after: Rows, node: Node, i: nat, d: DocId, project: string, plan: Plan)
    requires Follows(node, plan) && i < |node.children| && d in before && before[d].table == node.table
    requires Shrunk(before, after) && OnlyReached(before, after, node.children[i], before[d], project)
    ensures d in after
  {
    if d !in after {
      ReachedTables(before, node.children[i], before[d], d, plan);
      ChildIsLower(node.children, i);
    }
  }

  /** The steps of a drain add up. */
  lemma DrainChild(first: Rows, before: Rows, after: Rows, node: Node, owner: Row, project: string, plan: Plan,
          d: DocId, i: nat)
    requires Shrunk(first, before) && OnlyReached(first, before, node, owner, project) && NoOrphans(first, before, plan)
    requires d in before && IsUnder(before[d], node, owner) && i < |node.children|
    requires Shrunk(before, after)
    requires OnlyReached(before, after, node.children[i], before[d], project)
    requires NoOrphans(before, after, plan)
    ensures Shrunk(first, after) && OnlyReached(first, after, node, owner, project) && NoOrphans(first, after, plan)
  {
    forall e | e in first && e !in after
      ensures Mine(first[e], project) && Reaches(first, node, owner, e)
    {
      if e in before {
        ReachesShrinks(first, before, node.children[i], before[d], e);
        assert d in first && IsUnder(first[d], node, owner);
      }
    }
  }

  lemma DeleteOne(first: Rows, before: Rows, node: Node, owner: Row, project: string, plan: Plan, d: DocId)
    requires Shrunk(first, before) && OnlyReached(first, before, node, owner, project) && NoOrphans(first, before, plan)
    requires d in before && IsUnder(before[d], node, owner) && Mine(before[d], project) && Follows(node, plan)
    requires ChildrenClear(before, node, |node.children|, before[d])
    ensures Shrunk(first, before - {d})
    ensures OnlyReached(first, before - {d}, node, owner, project)
    ensures NoOrphans(first, before - {d}, plan)
  {
    assert d in first && IsUnder(first[d], node, owner);
  }

  /**
   When a node has nothing left under `owner` and no orphan was left, nothing that was reachable is
   left at any depth.
   */
  lemma NothingLeft(before: Rows, after: Rows, node: Node, owner: Row, plan: Plan, d: DocId)
    requires Shrunk(before, after) && NoOrphans(before, after, plan) && Follows(node, plan)
    requires Clear(after, node, owner) && Reaches(before, node, owner, d)
    ensures d !in after
    decreases node
  {
    if d in before && IsUnder(before[d], node, owner) {
    } else {
      var m, i :| m in before && IsUnder(before[m], node, owner) && 0 <= i < |node.children|
          && Reaches(before, node.children[i], before[m], d);
      assert node.children[i] in plan(before[m].table);
      NothingLeft(before, after, node.children[i], before[m], plan, d);
    }
  }

  /** Links of a chain add up: an orphan-free purge stays so however many transactions it takes. */
  lemma LinksAddUp(a: Rows, b: Rows, c: Rows, plan: Plan)
    requires Shrunk(a, b) && Shrunk(b, c) && NoOrphans(a, b, plan) && NoOrphans(b, c, plan)
    ensures Shrunk(a, c) && NoOrphans(a, c, plan)
  {
  }

  /** Found through one of the first `n` of `nodes`. */
  ghost predicate ReachesAny(rows: Rows, nodes: seq<Node>, n: nat, owner: Row, d: DocId) {
    exists i :: 0 <= i < n && i < |nodes| && Reaches(rows, nodes[i], owner, d)
  }

  /** Every deleted row was the project's own, found through one of the first `n` nodes. */
  ghost predicate Found(before: Rows, after: Rows, nodes: seq<Node>, n: nat, project: Row) {
    forall d :: d in before && d !in after ==> Mine(before[d], project.id) && ReachesAny(before, nodes, n, project, d)
  }

  lemma FoundMore(a: Rows, b: Rows, c: Rows, nodes: seq<Node>, n: nat, project: Row)
    requires Shrunk(a, b) && Shrunk(b, c) && n < |nodes|
    requires Found(a, b, nodes, n, project) && OnlyReached(b, c, nodes[n], project, project.id)
    ensures Found(a, c, nodes, n + 1, project)
  {
    forall d | d in a && d !in c
      ensures Mine(a[d], project.id) && ReachesAny(a, nodes, n + 1, project, d)
    {
      if d in b {
        ReachesShrinks(a, b, nodes[n], project, d);
      } else {
        assert ReachesAny(a, nodes, n, project, d);
      }
    }
  }

  ghost predicate AllClear(rows: Rows, nodes: seq<Node>, n: nat, owner: Row) {
    forall i :: 0 <= i < n && i < |nodes| ==> Clear(rows, nodes[i], owner)
  }

  lemma FoundWithin(before: Rows, after: Rows, nodes: seq<Node>, n: nat, project: Row)
    requires Found(before, after, nodes, n, project) && n <= |nodes|
    ensures Found(before, after, nodes, |nodes|, project)
  {
    forall d | ReachesAny(before, nodes, n, project, d)
      ensures ReachesAny(before, nodes, |nodes|, project, d)
    {
      var i :| 0 <= i < n && Reaches(before, nodes[i], project, d);
      assert 0 <= i < |nodes|;
    }
  }

  lemma StillAllClear(before: Rows, after: Rows, nodes: seq<Node>, n: nat, owner: Row)
    requires Shrunk(before, after) && n < |nodes| && AllClear(before, nodes, n, owner) && Clear(after, nodes[n], owner)
    ensures AllClear(after, nodes, n + 1, owner)
  {
    forall i | 0 <= i < n
      ensures Clear(after, nodes[i], owner)
    {
      assert Clear(before, nodes[i], owner);
    }
  }

  lemma NothingLeftAnywhere(before: Rows, after: Rows, nodes: seq<Node>, owner: Row, plan: Plan)
    requires Shrunk(before, after) && NoOrphans(before, after, plan)
    requires forall node :: node in nodes ==> Follows(node, plan)
    requires AllClear(after, nodes, |nodes|, owner)
    ensures forall d :: ReachesAny(before, nodes, |nodes|, owner, d) ==> d !in after
  {
    forall d | ReachesAny(before, nodes, |nodes|, owner, d)
      ensures d !in after
    {
      var i :| 0 <= i < |nodes| && Reaches(before, nodes[i], owner, d);
      NothingLeft(before, after, nodes[i], owner, plan, d);
    }
  }

  // ── counting what is left ──────────────────────────────────────────────────

  /** The rows the plan reaches under a project, at any depth. */
  ghost function Under(rows: Rows, nodes: seq<Node>, project: Row): set<DocId> {
    set d | d in rows && ReachesAny(rows, nodes, |nodes|, project, d)
  }

  /** What was reachable and was not deleted is reachable still: no row on the way to it is gone. */
  lemma StaysReachable(before: Rows, after: Rows, node: Node, owner: Row, plan: Plan, d: DocId)
    requires Shrunk(before, after) && NoOrphans(before, after, plan) && Follows(node, plan)
    requires Reaches(before, node, owner, d) && d in after
    ensures Reaches(after, node, owner, d)
    decreases node
  {
    if !IsUnder(before[d], node, owner) {
      var m, i :| m in before && IsUnder(before[m], node, owner) && 0 <= i < |node.children|
          && Reaches(before, node.children[i], before[m], d);
      if m !in after {
        assert node.children[i] in plan(before[m].table);
        NothingLeft(before, after, node.children[i], before[m], plan, d);
      } else {
        StaysReachable(before, after, node.children[i], before[m], plan, d);
      }
    }
  }

  lemma UnderAfter(before: Rows, after: Rows, nodes: seq<Node>, project: Row, plan: Plan)
    requires Shrunk(before, after)
    requires NoOrphans(before, after, plan)
    requires forall node :: node in nodes ==> Follows(node, plan)
    ensures Under(after, nodes, project) == Under(before, nodes, project) * after.Keys
  {
    forall d | d in after
      ensures d in Under(after, nodes, project) <==> d in Under(before, nodes, project)
    {
      if ReachesAny(before, nodes, |nodes|, project, d) {
        var i :| 0 <= i < |nodes| && Reaches(before, nodes[i], project, d);
        StaysReachable(before, after, nodes[i], project, plan, d);
      }
      if ReachesAny(after, nodes, |nodes|, project, d) {
        var i :| 0 <= i < |nodes| && Reaches(after, nodes[i], project, d);
        ReachesShrinks(before, after, nodes[i], project, d);
      }
    }
  }

  lemma TakenFrom(all: set<DocId>, before: set<DocId>, after: set<DocId>)
    requires after <= before && all <= before && before - after <= all
    ensures |all * after| + (|before| - |after|) == |all| && |after| <= |before|
  {
    var gone := before - after;
    assert before == gone + after && gone !! after;
    assert all == gone + all * after && gone !! (all * after);
  }

  /** A link takes as many rows from under the project as it deletes, and all of them once nothing reachable is left. */
  lemma LinkCounts(before: Rows, after: Rows, nodes: seq<Node>, project: Row, plan: Plan)
    requires Shrunk(before, after) && NoOrphans(before, after, plan) && Found(before, after, nodes, |nodes|, project)
    requires forall node :: node in nodes ==> Follows(node, plan)
    ensures |after| <= |before|
    ensures |Under(after, nodes, project)| + (|before| - |after|) == |Under(before, nodes, project)|
    ensures (forall d :: ReachesAny(before, nodes, |nodes|, project, d) ==> d !in after) ==>
            Under(after, nodes, project) == {}
  {
    var all := Under(before, nodes, project);
    UnderAfter(before, after, nodes, project, plan);
    assert after.Keys <= before.Keys && all <= before.Keys && before.Keys - after.Keys <= all;
    hide Under, ReachesAny;
    TakenFrom(all, before.Keys, after.Keys);
    assert |before.Keys| == |before| && |after.Keys| == |after|;
    if forall d :: ReachesAny(before, nodes, |nodes|, project, d) ==> d !in after {
      assert all * after.Keys == {} by {
        UnderIsReached(before, nodes, project);
      }
    }
  }

  lemma UnderIsReached(rows: Rows, nodes: seq<Node>, project: Row)
    ensures forall d :: d in Under(rows, nodes, project) ==> ReachesAny(rows, nodes, |nodes|, project, d)
  {
  }

  /**
   The rows between links that ran out of budget, as `Link` leaves them: each deleted something,
   none left an orphan.
   */
  ghost predicate Chain(links: seq<Rows>, plan: Plan) {
    && links != []
    && forall i :: 0 <= i < |links| - 1 ==>
         Shrunk(links[i], links[i + 1]) && NoOrphans(links[i], links[i + 1], plan) && |links[i + 1]| < |links[i]|
  }

  /** A chain has at most as many such links as there are rows, and first to last leaves no orphan. */
  lemma {:induction false} ChainEnds(links: seq<Rows>, plan: Plan)
    requires Chain(links, plan)
    ensures |links| - 1 <= |links[0]| - |links[|links| - 1]|
    ensures Shrunk(links[0], links[|links| - 1]) && NoOrphans(links[0], links[|links| - 1], plan)
  {
    if |links| > 1 {
      var front := links[..|links| - 1];
      ChainEnds(front, plan);
      LinksAddUp(links[0], links[|links| - 2], links[|links| - 1], plan);
    }
  }

  /** After the link that drains the plan, no row the first link could reach, at any depth, is left. */
  lemma ChainPurgesEverything(links: seq<Rows>, drained: Rows, nodes: seq<Node>, project: Row, plan: Plan)
    requires Chain(links, plan) && (forall node :: node in nodes ==> Follows(node, plan))
    requires Shrunk(links[|links| - 1], drained) && NoOrphans(links[|links| - 1], drained, plan)
    requires AllClear(drained, nodes, |nodes|, project)
    ensures forall d :: ReachesAny(links[0], nodes, |nodes|, project, d) ==> d !in drained
  {
    ChainEnds(links, plan);
    LinksAddUp(links[0], links[|links| - 1], drained, plan);
    NothingLeftAnywhere(links[0], drained, nodes, project, plan);
  }

  // ── the drain itself ───────────────────────────────────────────────────────

  /** What one transaction may still delete. */
  class Budget {
    var rows: nat
    var bytes: nat

    constructor ()
      ensures rows == 0 && bytes == 0
    {
      rows, bytes := 0, 0;
    }

    predicate Spent()
      reads this
    {
      rows >= STEP_MAX_ROWS || bytes >= STEP_MAX_BYTES
    }

    function Take(): (n: nat)
      requires !Spent()
      reads this
      ensures 1 <= n <= TAKE && rows + n <= STEP_MAX_ROWS
    {
      if TAKE < STEP_MAX_ROWS - rows then TAKE else STEP_MAX_ROWS - rows
    }

    /** Within its limits, when no row is larger than `cap`. */
    ghost predicate Within(cap: nat)
      reads this
    {
      rows <= STEP_MAX_ROWS && (bytes == 0 || (rows > 0 && bytes < STEP_MAX_BYTES + cap))
    }

    method Count(row: Row)
      modifies this
      ensures rows == old(rows) + 1 && bytes == old(bytes) + row.bytes
    {
      rows := rows + 1;
      bytes := bytes + row.bytes;
    }
  }

  class Purger {
    var rows: Rows

    constructor (rows: Rows)
      ensures this.rows == rows
    {
      this.rows := rows;
    }

    /** Everything deleted so far is on the budget, row for row and byte for byte. */
    ghost predicate Accounts(before: Rows, budgetRows: nat, budgetBytes: nat, budget: Budget)
      reads this, budget
    {
      && |rows| + budget.rows == |before| + budgetRows
      && Weight(rows) + budget.bytes == Weight(before) + budgetBytes
    }

    /** A row found under `owner` names another project. */
    ghost predicate ForeignUnder(node: Node, owner: Row, project: string, table: Table)
      reads this
    {
      exists d :: d in rows && rows[d].table == table && rows[d].project.Some? && rows[d].project.value != project
        && Reaches(rows, node, owner, d)
    }

    /** Deletes one row whose children are gone, and counts it. */
    method Delete(d: DocId, node: Node, owner: Row, project: string, budget: Budget, ghost first: Rows,
            ghost plan: Plan, ghost cap: nat)
      requires d in rows && IsUnder(rows[d], node, owner) && Mine(rows[d], project) && Follows(node, plan)
      requires ChildrenClear(rows, node, |node.children|, rows[d])
      requires Purged(first, rows, node, owner, project, plan)
      requires budget.Within(cap) && !budget.Spent() && rows[d].bytes <= cap
      modifies this, budget
      ensures rows == old(rows) - {d} && |rows| == |old(rows)| - 1
      ensures Purged(first, rows, node, owner, project, plan)
      ensures budget.Within(cap) && Accounts(old(rows), old(budget.rows), old(budget.bytes), budget)
    {
      var doc := rows[d];
      DeleteOne(first, rows, node, owner, project, plan, d);
      WeightOf(rows, d);
      Without(rows, d);
      rows := rows - {d};
      budget.Count(doc);
    }

    /** The first rows of a node's index range. */
    method First(node: Node, owner: Row, n: nat) returns (docs: seq<DocId>)
      ensures forall i :: 0 <= i < |docs| ==> docs[i] in rows && IsUnder(rows[docs[i]], node, owner)
      ensures forall i, j :: 0 <= i < j < |docs| ==> docs[i] != docs[j]
      ensures |docs| <= n && (docs == [] && n > 0 ==> Clear(rows, node, owner))
    {
      docs := [];
      var left := set d | d in rows && IsUnder(rows[d], node, owner);
      ghost var all := left;
      while |docs| < n && left != {}
        invariant |docs| <= n && left <= all
        invariant forall i :: 0 <= i < |docs| ==>
                  docs[i] in rows && IsUnder(rows[docs[i]], node, owner) && docs[i] !in left
        invariant forall i, j :: 0 <= i < j < |docs| ==> docs[i] != docs[j]
        invariant docs == [] ==> left == all
        decreases |left|
      {
        var d :| d in left;
        docs := docs + [d];
        left := left - {d};
      }
      if docs == [] && n > 0 {
        assert forall d :: d in rows && IsUnder(rows[d], node, owner) ==> d in all;
      }
    }

    /** Drains every child of row `d`, so that it can be deleted. */
    method DrainChildren(node: Node, owner: Row, d: DocId, project: string, budget: Budget, ghost first: Rows,
            ghost plan: Plan, ghost cap: nat)
      returns (r: Outcome)
      requires Follows(node, plan) && budget.Within(cap) && !budget.Spent()
      requires forall e :: e in rows ==> rows[e].bytes <= cap
      requires Purged(first, rows, node, owner, project, plan)
      requires d in rows && IsUnder(rows[d], node, owner)
      modifies this, budget
      ensures Purged(first, rows, node, owner, project, plan)
      ensures Shrunk(old(rows), rows)
      ensures Accounts(old(rows), old(budget.rows), old(budget.bytes), budget)
      ensures budget.Within(cap)
      ensures r == Drained ==> d in rows && IsUnder(rows[d], node, owner) && !budget.Spent()
      ensures r == Drained ==> ChildrenClear(rows, node, |node.children|, rows[d])
      ensures r == OutOfBudget ==> budget.Spent()
      ensures r.Foreign? ==> ForeignUnder(node, owner, project, r.table)
      ensures node.children == [] ==> r == Drained && rows == old(rows)
      decreases node, 0
    {
      r := Drained;
      ghost var start := rows;
      var doc := rows[d];
      for k := 0 to |node.children|
        invariant k == 0 ==> rows == start
        invariant Purged(first, rows, node, owner, project, plan) && Shrunk(start, rows)
        invariant Accounts(start, old(budget.rows), old(budget.bytes), budget) && budget.Within(cap)
        invariant d in rows && rows[d] == doc && !budget.Spent()
        invariant ChildrenClear(rows, node, k, doc)
      {
        ghost var before := rows;
        r := Drain(node.children[k], doc, project, budget, plan, cap);
        DrainChild(first, before, rows, node, owner, project, plan, d, k);
        DocSurvivesItsChildren(before, rows, node, k, d, project, plan);
        StillClear(before, rows, node, k, doc);
        if r != Drained {
          if r.Foreign? {
            ghost var e :| e in rows && rows[e].table == r.table && rows[e].project.Some?
                           && rows[e].project.value != project && Reaches(rows, node.children[k], doc, e);
            assert d in rows && IsUnder(rows[d], node, owner) && Reaches(rows, node.children[k], rows[d], e);
            assert Reaches(rows, node, owner, e);
          }
          return;
        }
      }
      r := Drained;
    }

    /** Deletes the rows of one read, each after its children, as far as the budget goes. */
    method DrainRead(node: Node, owner: Row, docs: seq<DocId>, project: string, budget: Budget, ghost first: Rows,
            ghost plan: Plan, ghost cap: nat)
      returns (r: Outcome)
      requires Follows(node, plan) && budget.Within(cap) && !budget.Spent()
      requires forall e :: e in rows ==> rows[e].bytes <= cap
      requires Purged(first, rows, node, owner, project, plan)
      requires docs != [] && (node.children == [] || |docs| == 1)
      requires forall i :: 0 <= i < |docs| ==> docs[i] in rows && IsUnder(rows[docs[i]], node, owner)
      requires forall i, j :: 0 <= i < j < |docs| ==> docs[i] != docs[j]
      modifies this, budget
      ensures Purged(first, rows, node, owner, project, plan) && Shrunk(old(rows), rows)
      ensures Accounts(old(rows), old(budget.rows), old(budget.bytes), budget) && budget.Within(cap)
      ensures r == Drained ==> |rows| < |old(rows)|
      ensures r == OutOfBudget ==> budget.Spent()
      ensures r.Foreign? ==> ForeignUnder(node, owner, project, r.table)
      decreases node, 1
    {
      ghost var start := rows;
      for i := 0 to |docs|
        invariant Purged(first, rows, node, owner, project, plan) && Shrunk(start, rows)
        invariant Accounts(start, old(budget.rows), old(budget.bytes), budget) && budget.Within(cap)
        invariant forall k :: i <= k < |docs| ==> docs[k] in rows && IsUnder(rows[docs[k]], node, owner)
        invariant if i == 0 then rows == start else |rows| < |start|
      {
        if budget.Spent() {
          return OutOfBudget;
        }
        var d := docs[i];
        if !Mine(rows[d], project) {
          assert Reaches(rows, node, owner, d);
          return Foreign(node.table);
        }
        ghost var before := rows;
        r := DrainChildren(node, owner, d, project, budget, first, plan, cap);
        if r != Drained {
          return;
        }
        Smaller(before, rows);
        Delete(d, node, owner, project, budget, first, plan, cap);
      }
      r := Drained;
    }

    /** Deletes `node`'s rows under `owner`, children first, within `budget`. */
    method Drain(node: Node, owner: Row, project: string, budget: Budget, ghost plan: Plan, ghost cap: nat)
      returns (r: Outcome)
      requires Follows(node, plan) && budget.Within(cap)
      requires forall d :: d in rows ==> rows[d].bytes <= cap
      modifies this, budget
      ensures Purged(old(rows), rows, node, owner, project, plan)
      ensures Accounts(old(rows), old(budget.rows), old(budget.bytes), budget) && budget.Within(cap)
      ensures r == Drained ==> Clear(rows, node, owner) && !budget.Spent()
      ensures r == OutOfBudget ==> budget.Spent()
      ensures r.Foreign? ==> ForeignUnder(node, owner, project, r.table)
      decreases node, 2
    {
      ghost var first := rows;
      while true
        invariant Purged(first, rows, node, owner, project, plan)
        invariant Accounts(first, old(budget.rows), old(budget.bytes), budget) && budget.Within(cap)
        decreases |rows|
      {
        if budget.Spent() {
          return OutOfBudget;
        }
        var docs := First(node, owner, if node.children == [] then budget.Take() else 1);
        if docs == [] {
          return Drained;
        }
        r := DrainRead(node, owner, docs, project, budget, first, plan, cap);
        if r != Drained {
          return;
        }
      }
    }

    /**
     The rows phase of one link: drains every node under the project, or stops
     where the budget does, and says how many rows it deleted. No row is larger
     than `cap`.
     */
    method Link(nodes: seq<Node>, project: Row, ghost plan: Plan, ghost cap: nat) returns (r: Outcome, deleted: nat)
      requires forall node :: node in nodes ==> Follows(node, plan)
      requires forall d :: d in rows ==> rows[d].bytes <= cap
      modifies this
      ensures Shrunk(old(rows), rows) && NoOrphans(old(rows), rows, plan)
      ensures Found(old(rows), rows, nodes, |nodes|, project)
      ensures |rows| + deleted == |old(rows)| && deleted <= STEP_MAX_ROWS
      ensures Weight(old(rows)) < Weight(rows) + STEP_MAX_BYTES + cap
      ensures r == OutOfBudget ==> |rows| < |old(rows)|
      ensures r == Drained ==> AllClear(rows, nodes, |nodes|, project)
      ensures r == Drained ==> forall d :: ReachesAny(old(rows), nodes, |nodes|, project, d) ==> d !in rows
      ensures r.Foreign? ==> exists d ::
              d in rows && rows[d].table == r.table && rows[d].project.Some? && rows[d].project.value != project.id
              && ReachesAny(rows, nodes, |nodes|, project, d)
      ensures |Under(rows, nodes, project)| + deleted == |Under(old(rows), nodes, project)|
      ensures r == Drained ==> Under(rows, nodes, project) == {}
    {
      var budget := new Budget();
      ghost var first := rows;
      for i := 0 to |nodes|
        invariant Shrunk(first, rows) && NoOrphans(first, rows, plan) && Found(first, rows, nodes, i, project)
        invariant Accounts(first, 0, 0, budget) && budget.Within(cap)
        invariant AllClear(rows, nodes, i, project)
      {
        ghost var before := rows;
        r := Drain(nodes[i], project, project.id, budget, plan, cap);
        LinksAddUp(first, before, rows, plan);
        FoundMore(first, before, rows, nodes, i, project);
        Smaller(first, rows);
        deleted := budget.rows;
        if r != Drained {
          FoundWithin(first, rows, nodes, i + 1, project);
          LinkCounts(first, rows, nodes, project, plan);
          return;
        }
        StillAllClear(before, rows, nodes, i, project);
      }
      Smaller(first, rows);
      NothingLeftAnywhere(first, rows, nodes, project, plan);
      LinkCounts(first, rows, nodes, project, plan);
      r, deleted := Drained, budget.rows;
    }
  }
}
