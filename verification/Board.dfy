/**
 The board's columns. Every live ticket of a column has its own key; a move reads
 the gap it lands in off the column itself, and writes exactly the tickets it moves.
 */
module Board {
  import opened Wrappers
  import opened Positions

  const TICKETS_PER_MOVE: nat := 100

  type Id = nat
  type ProjectId = nat
  /** A column, by its place from left to right. */
  type Status = nat

  datatype Ticket = Ticket(project: ProjectId, status: Status, position: Key, number: nat, archived: bool)
  type Rows = map<Id, Ticket>

  /** A live ticket of a column. */
  predicate InColumn(rows: Rows, id: Id, p: ProjectId, st: Status) {
    id in rows && rows[id].project == p && rows[id].status == st && !rows[id].archived
  }

  /** A live ticket of a column that a move leaves where it is. */
  predicate Still(rows: Rows, id: Id, p: ProjectId, st: Status, moving: set<Id>) {
    InColumn(rows, id, p, st) && id !in moving
  }

  /** Live tickets of one column have valid keys of their own. */
  ghost predicate Distinct(rows: Rows) {
    && (forall id :: id in rows ==> Valid(rows[id].position))
    && (forall x, y :: x in rows && y in rows && x != y && SameColumn(rows[x], rows[y]) ==>
         rows[x].position != rows[y].position)
  }

  predicate SameColumn(a: Ticket, b: Ticket) {
    !a.archived && !b.archived && a.project == b.project && a.status == b.status
  }

  /** Board order: column left to right, then position, then number. */
  predicate BoardLess(a: Ticket, b: Ticket) {
    || a.status < b.status
    || (a.status == b.status && Less(a.position, b.position))
    || (a.status == b.status && a.position == b.position && a.number < b.number)
  }

  function KeyAt(rows: Rows, id: Option<Id>): Option<Key>
    requires id.Some? ==> id.value in rows
  {
    if id.Some? then Some(rows[id.value].position) else None
  }

  // ── the gap ────────────────────────────────────────────────────────────────

  /** Two neighbours, adjacent among the tickets that stay; `None` is the column's start or end. */
  ghost predicate IsGap(rows: Rows, p: ProjectId, st: Status, moving: set<Id>, after: Option<Id>, before: Option<Id>) {
    && (after.Some? ==> Still(rows, after.value, p, st, moving))
    && (before.Some? ==> Still(rows, before.value, p, st, moving))
    && (after.Some? && before.Some? ==> Less(rows[after.value].position, rows[before.value].position))
    && forall q :: Still(rows, q, p, st, moving) ==> !Inside(rows[q].position, KeyAt(rows, after), KeyAt(rows, before))
  }

  /** The neighbours a move names that are still usable. */
  function Anchor(rows: Rows, named: Option<Id>, st: Status, moving: set<Id>): Option<Id>
    requires named.Some? ==> named.value in rows
  {
    if named.Some? && !rows[named.value].archived && rows[named.value].status == st && named.value !in moving then named
    else None
  }

  /**
   Where the group lands: after the usable `after`, else before the usable `before`, else at the
   column's end, or its start.
   */
  ghost predicate LandsWhereNamed(rows: Rows, st: Status, moving: set<Id>, afterId: Option<Id>, beforeId: Option<Id>,
          after: Option<Id>, before: Option<Id>)
    requires (afterId.Some? ==> afterId.value in rows) && (beforeId.Some? ==> beforeId.value in rows)
  {
    if Anchor(rows, afterId, st, moving).Some? then after == afterId
    else if Anchor(rows, beforeId, st, moving).Some? then before == beforeId
    else if afterId.None? && beforeId.Some? then after.None?
    else before.None?
  }

  /** What a move did: the group is inside the gap, in board order, and nothing else changed. */
  ghost predicate MoveDone(rows: Rows, next: Rows, moving: set<Id>, st: Status, after: Option<Key>, before: Option<Key>)
  {
    && next.Keys == rows.Keys && moving <= rows.Keys
    && (forall id :: id in rows && id !in moving ==> next[id] == rows[id])
    && (forall id :: id in moving ==> next[id] == rows[id].(status := st, position := next[id].position))
    && (forall id :: id in moving ==> Valid(next[id].position) && Inside(next[id].position, after, before))
    && (forall x, y :: x in moving && y in moving && BoardLess(rows[x], rows[y]) ==>
         Less(next[x].position, next[y].position))
  }

  /** The whole group already lies in the gap, in its column. */
  predicate Settled(rows: Rows, moving: set<Id>, st: Status, after: Option<Key>, before: Option<Key>) {
    forall id :: id in moving ==> id in rows && rows[id].status == st && Inside(rows[id].position, after, before)
  }

  /**
   Which neighbour the group keeps to: the ticket it was to land after, when that is
   live in the column and stays; else the one it was to land before; else it goes to
   the start, when only that one was named; else to the end.
   */
  lemma LandsByTheNamed(rows: Rows, p: ProjectId, st: Status, moving: set<Id>, afterId: Option<Id>,
          beforeId: Option<Id>, after: Option<Id>, before: Option<Id>)
    requires Named(rows, p, afterId) && Named(rows, p, beforeId)
    requires LandsWhereNamed(rows, st, moving, afterId, beforeId, after, before)
    ensures var keepsAfter := && afterId.Some? && afterId.value !in moving
                              && rows[afterId.value].status == st && !rows[afterId.value].archived;
            var keepsBefore := && beforeId.Some? && beforeId.value !in moving
                               && rows[beforeId.value].status == st && !rows[beforeId.value].archived;
            if keepsAfter then after == afterId
            else if keepsBefore then before == beforeId
            else if afterId.None? && beforeId.Some? then after == None
            else before == None
  {
  }

  // ── what a move keeps ──────────────────────────────────────────────────────

  /** A ticket that stays is below both ends of the gap, or above them. */
  lemma StillIsOutside(rows: Rows, p: ProjectId, st: Status, moving: set<Id>, after: Option<Id>, before: Option<Id>,
          q: Id, k: Key)
    requires IsGap(rows, p, st, moving, after, before) && Still(rows, q, p, st, moving)
    requires Inside(k, KeyAt(rows, after), KeyAt(rows, before))
    ensures after.Some? && rows[q].position == rows[after.value].position ==> Less(rows[q].position, k)
    ensures after.Some? && Less(rows[q].position, rows[after.value].position) ==> Less(rows[q].position, k)
    ensures before.Some? && rows[q].position == rows[before.value].position ==> Less(k, rows[q].position)
    ensures before.Some? && Less(rows[before.value].position, rows[q].position) ==> Less(k, rows[q].position)
    ensures Less(rows[q].position, k) || Less(k, rows[q].position)
    ensures rows[q].position != k
  {
    var at := rows[q].position;
    if after.Some? {
      Total(at, rows[after.value].position);
      if Less(at, rows[after.value].position) {
        Transitive(at, rows[after.value].position, k);
      }
    }
    if before.Some? {
      Total(at, rows[before.value].position);
      if Less(rows[before.value].position, at) {
        Transitive(k, rows[before.value].position, at);
      }
    }
    Irreflexive(k);
  }

  /** The group lands as one block: every ticket that stays is before all of it or after all of it. */
  lemma MoveIsContiguous(rows: Rows, next: Rows, p: ProjectId, st: Status, moving: set<Id>, after: Option<Id>,
          before: Option<Id>, q: Id, x: Id, y: Id)
    requires IsGap(rows, p, st, moving, after, before)
    requires MoveDone(rows, next, moving, st, KeyAt(rows, after), KeyAt(rows, before))
    requires Still(rows, q, p, st, moving) && x in moving && y in moving
    ensures Less(next[q].position, next[x].position) <==> Less(next[q].position, next[y].position)
    ensures Less(next[x].position, next[q].position) <==> Less(next[y].position, next[q].position)
  {
    var at := rows[q].position;
    StillIsOutside(rows, p, st, moving, after, before, q, next[x].position);
    StillIsOutside(rows, p, st, moving, after, before, q, next[y].position);
    if after.Some? {
      Total(at, rows[after.value].position);
    }
    if before.Some? {
      Total(at, rows[before.value].position);
    }
    if Less(at, next[x].position) {
      Asymmetric(at, next[x].position);
    } else {
      Asymmetric(next[x].position, at);
    }
    if Less(at, next[y].position) {
      Asymmetric(at, next[y].position);
    } else {
      Asymmetric(next[y].position, at);
    }
  }

  /** After a move every column still has keys of its own. */
  lemma MoveKeepsDistinct(rows: Rows, next: Rows, p: ProjectId, st: Status, moving: set<Id>, after: Option<Id>,
          before: Option<Id>)
    requires Distinct(rows) && IsGap(rows, p, st, moving, after, before)
    requires MoveDone(rows, next, moving, st, KeyAt(rows, after), KeyAt(rows, before))
    requires forall id :: id in moving ==> rows[id].project == p && !rows[id].archived
    ensures Distinct(next)
  {
    forall x, y | x in next && y in next && x != y && SameColumn(next[x], next[y])
      ensures next[x].position != next[y].position
    {
      if x in moving && y in moving {
        BothMoved(rows, next, st, moving, KeyAt(rows, after), KeyAt(rows, before), x, y);
      } else if x in moving {
        StillIsOutside(rows, p, st, moving, after, before, y, next[x].position);
      } else if y in moving {
        StillIsOutside(rows, p, st, moving, after, before, x, next[y].position);
      }
    }
  }

  lemma BothMoved(rows: Rows, next: Rows, st: Status, moving: set<Id>, after: Option<Key>, before: Option<Key>, x: Id,
          y: Id)
    requires Distinct(rows) && MoveDone(rows, next, moving, st, after, before)
    requires x in moving
    requires y in moving
    requires x != y
    requires rows[x].project == rows[y].project
    requires !rows[x].archived
    requires !rows[y].archived
    ensures next[x].position != next[y].position
  {
    Total(rows[x].position, rows[y].position);
    assert BoardLess(rows[x], rows[y]) || BoardLess(rows[y], rows[x]);
    Irreflexive(next[x].position);
  }

  // ── the mutations ──────────────────────────────────────────────────────────

  datatype MoveResult = Moved(after: Option<Id>, before: Option<Id>, written: set<Id>) | NotFound | Refused

  function AsSet(ids: seq<Id>): set<Id> {
    set id | id in ids
  }

  /** The tickets a move moves: all it names, but a move to a column only leaves those already there. */
  function Moving(rows: Rows, ids: seq<Id>, st: Status, columnOnly: bool): set<Id> {
    set id | id in AsSet(ids) && id in rows && (!columnOnly || rows[id].status != st)
  }

  /** What a move is refused for: an unknown or archived ticket, an unknown neighbour, or too many. */
  predicate MayMove(rows: Rows, p: ProjectId, ids: seq<Id>, afterId: Option<Id>, beforeId: Option<Id>) {
    && 0 < |AsSet(ids)| <= TICKETS_PER_MOVE
    && (forall id :: id in ids ==> id in rows && rows[id].project == p && !rows[id].archived)
    && Named(rows, p, afterId) && Named(rows, p, beforeId)
  }

  class Columns {
    var tickets: Rows

    ghost predicate Valid()
      reads this
    {
      Distinct(tickets)
    }

    constructor ()
      ensures Valid() && tickets == map[]
    {
      tickets := map[];
    }

    /** The nearest ticket that stays on one side of `from` (from the column's start or end, when there is none). */
    method Beyond(p: ProjectId, st: Status, moving: set<Id>, upwards: bool, from: Option<Key>)
      returns (nearest: Option<Id>)
      requires Valid()
      ensures nearest.Some? ==>
              Still(tickets, nearest.value, p, st, moving) && Past(tickets[nearest.value].position, upwards, from)
      ensures forall q :: Still(tickets, q, p, st, moving) && Past(tickets[q].position, upwards, from) ==>
                nearest.Some? && !Nearer(tickets[q].position, tickets[nearest.value].position, upwards)
    {
      var left := tickets.Keys;
      nearest := None;
      while left != {}
        invariant left <= tickets.Keys
        invariant nearest.Some? ==>
                  Still(tickets, nearest.value, p, st, moving) && Past(tickets[nearest.value].position, upwards, from)
        invariant forall q ::
                  q in tickets && q !in left && Still(tickets, q, p, st, moving)
                  && Past(tickets[q].position, upwards, from) ==>
                    nearest.Some? && !Nearer(tickets[q].position, tickets[nearest.value].position, upwards)
      {
        var id :| id in left;
        left := left - {id};
        if Still(tickets, id, p, st, moving) && Past(tickets[id].position, upwards, from) {
          if nearest.None? || Nearer(tickets[id].position, tickets[nearest.value].position, upwards) {
            forall q | q in tickets && q !in left && Still(tickets, q, p, st, moving)
                && Past(tickets[q].position, upwards, from)
              ensures !Nearer(tickets[q].position, tickets[id].position, upwards)
            {
              if q == id {
                Irreflexive(tickets[id].position);
              } else {
                NoNearer(tickets[q].position, tickets[nearest.value].position, tickets[id].position, upwards);
              }
            }
            nearest := Some(id);
          }
        }
      }
    }

    /** The gap a move lands in. */
    method MoveGap(p: ProjectId, st: Status, moving: set<Id>, afterId: Option<Id>, beforeId: Option<Id>)
      returns (found: bool, after: Option<Id>, before: Option<Id>)
      requires Valid()
      ensures found <==> Named(tickets, p, afterId) && Named(tickets, p, beforeId)
      ensures found ==>
              IsGap(tickets, p, st, moving, after, before)
              && LandsWhereNamed(tickets, st, moving, afterId, beforeId, after, before)
    {
      after, before := None, None;
      found := Named(tickets, p, afterId) && Named(tickets, p, beforeId);
      if !found {
        return;
      }
      if Anchor(tickets, afterId, st, moving).Some? {
        after := afterId;
        before := Beyond(p, st, moving, true, KeyAt(tickets, after));
      } else if Anchor(tickets, beforeId, st, moving).Some? {
        before := beforeId;
        after := Beyond(p, st, moving, false, KeyAt(tickets, before));
      } else if afterId.None? && beforeId.Some? {
        before := Beyond(p, st, moving, true, None);
      } else {
        after := Beyond(p, st, moving, false, None);
      }
      GapFound(tickets, p, st, moving, after, before);
    }

    /** The least of some tickets in board order. */
    method First(ids: set<Id>) returns (least: Id)
      requires Valid() && Sortable(tickets, ids) && ids != {}
      ensures least in ids && forall id :: id in ids && id != least ==> BoardLess(tickets[least], tickets[id])
    {
      least :| least in ids;
      var left := ids - {least};
      while left != {}
        invariant left <= ids && least in ids && least !in left
        invariant forall id :: id in ids && id !in left && id != least ==> BoardLess(tickets[least], tickets[id])
      {
        var id :| id in left;
        left := left - {id};
        BoardTotal(tickets, ids, least, id);
        if BoardLess(tickets[id], tickets[least]) {
          forall other | other in ids && other !in left && other != id
            ensures BoardLess(tickets[id], tickets[other])
          {
            if other != least {
              BoardTransitive(tickets[id], tickets[least], tickets[other]);
            }
          }
          least := id;
        }
      }
    }

    /** Some tickets in board order. */
    method InBoardOrder(ids: set<Id>) returns (sorted: seq<Id>)
      requires Valid() && Sortable(tickets, ids)
      ensures IsOrderOf(tickets, ids, sorted)
    {
      sorted := [];
      var left := ids;
      while left != {}
        invariant left <= ids
        invariant forall id :: id in sorted <==> id in ids && id !in left
        invariant forall i, j :: 0 <= i < j < |sorted| ==> BoardLess(tickets[sorted[i]], tickets[sorted[j]])
        invariant forall id, other :: id in sorted && other in left ==> BoardLess(tickets[id], tickets[other])
      {
        var least := First(left);
        left := left - {least};
        sorted := sorted + [least];
      }
    }

    /** Writes the group's new keys and column, and nothing else. */
    method Place(group: seq<Id>, st: Status, keys: seq<Key>)
      requires |group| == |keys| && forall i :: 0 <= i < |group| ==> group[i] in tickets
      requires forall i, j :: 0 <= i < j < |group| ==> group[i] != group[j]
      modifies this
      ensures tickets.Keys == old(tickets.Keys)
      ensures forall id :: id in tickets && id !in group ==> tickets[id] == old(tickets)[id]
      ensures forall i :: 0 <= i < |group| ==>
              tickets[group[i]] == old(tickets)[group[i]].(status := st, position := keys[i])
    {
      for n := 0 to |group|
        invariant tickets.Keys == old(tickets.Keys)
        invariant forall id :: id in tickets && id !in group[..n] ==> tickets[id] == old(tickets)[id]
        invariant forall i :: 0 <= i < n ==>
                    tickets[group[i]] == old(tickets)[group[i]].(status := st, position := keys[i])
      {
        tickets := tickets[group[n] := tickets[group[n]].(status := st, position := keys[n])];
      }
    }

    /** Fresh keys in the gap for what moves, unless all of it is already there. */
    method PlaceGroup(p: ProjectId, moving: set<Id>, st: Status, after: Option<Id>, before: Option<Id>)
      returns (written: set<Id>)
      requires Valid() && Sortable(tickets, moving) && (forall id :: id in moving ==> tickets[id].project == p)
      requires IsGap(tickets, p, st, moving, after, before)
      modifies this
      ensures Valid()
      ensures MoveDone(old(tickets), tickets, moving, st, KeyAt(old(tickets), after), KeyAt(old(tickets), before))
      ensures written == if Settled(old(tickets), moving, st, KeyAt(old(tickets), after), KeyAt(old(tickets), before))
                         then {} else moving
      ensures forall id :: id in tickets && id !in written ==> tickets[id] == old(tickets)[id]
    {
      hide IsGap, MoveDone, Distinct, Sortable, Settled, IsOrderOf, Ascending, AllInside, KeysBetween;
      GapIsOpen(tickets, p, st, moving, after, before);
      var low, high := KeyAt(tickets, after), KeyAt(tickets, before);
      if Settled(tickets, moving, st, low, high) {
        SettledIsDone(tickets, moving, st, low, high);
        return {};
      }
      var group := InBoardOrder(moving);
      var keys := KeysBetween(low, high, |group|);
      KeysAreBetween(low, high, |group|);
      OrderIsDistinct(tickets, moving, group);
      ghost var was := tickets;
      Place(group, st, keys);
      PlacedIsDone(was, tickets, moving, group, keys, st, low, high);
      MoveKeepsDistinct(was, tickets, p, st, moving, after, before);
      return moving;
    }

    /**
     Moves tickets into a column, between the neighbours the command names. What
     moves lands as one block inside the gap, in board order; a group that is
     already inside it is left alone.
     */
    method MoveTickets(p: ProjectId, ids: seq<Id>, st: Status, afterId: Option<Id>, beforeId: Option<Id>)
      returns (r: MoveResult)
      requires Valid()
      modifies this
      ensures Valid()
      ensures !r.Moved? ==> tickets == old(tickets)
      ensures r.Moved? <==> MayMove(old(tickets), p, ids, afterId, beforeId)
      ensures r.Moved? ==>
                var moving := Moving(old(tickets), ids, st, afterId.None? && beforeId.None?);
                && IsGap(old(tickets), p, st, moving, r.after, r.before)
                && LandsWhereNamed(old(tickets), st, moving, afterId, beforeId, r.after, r.before)
                && MoveDone(old(tickets), tickets, moving, st, KeyAt(old(tickets), r.after),
                     KeyAt(old(tickets), r.before))
                && (forall id :: id in moving <==>
                      id in ids && id in old(tickets)
                      && (afterId.Some? || beforeId.Some? || old(tickets)[id].status != st))
                && r.written == (if Settled(old(tickets), moving, st, KeyAt(old(tickets), r.after),
                                            KeyAt(old(tickets), r.before)) then {} else moving)
                && forall id :: id in tickets && id !in r.written ==> tickets[id] == old(tickets)[id]
      ensures r.NotFound? <==>
                && |AsSet(ids)| <= 100
                && (|| (exists id :: id in ids && !(id in old(tickets) && old(tickets)[id].project == p))
                    || (afterId.Some? && !(afterId.value in old(tickets) && old(tickets)[afterId.value].project == p))
                    || (beforeId.Some?
                        && !(beforeId.value in old(tickets) && old(tickets)[beforeId.value].project == p)))
      ensures r.Refused? <==>
                || |AsSet(ids)| > 100
                || (!r.NotFound? && (ids == [] || exists id :: id in ids && old(tickets)[id].archived))
    {
      hide IsGap, MoveDone, LandsWhereNamed, Distinct, Settled, Moving, Sortable;
      var named := AsSet(ids);
      assert ids != [] ==> ids[0] in named;
      if |named| > TICKETS_PER_MOVE {
        return Refused;
      }
      if exists id :: id in named && (id !in tickets || tickets[id].project != p) {
        return NotFound;
      }
      var moving := Moving(tickets, ids, st, afterId.None? && beforeId.None?);
      var found, after, before := MoveGap(p, st, moving, afterId, beforeId);
      if !found {
        return NotFound;
      }
      if named == {} || exists id :: id in named && tickets[id].archived {
        return Refused;
      }
      MovingIsSortable(tickets, p, ids, st, afterId.None? && beforeId.None?);
      MovingMeans(tickets, ids, st, afterId.None? && beforeId.None?);
      var written := PlaceGroup(p, moving, st, after, before);
      return Moved(after, before, written);
    }

    // ── the other key writers ────────────────────────────────────────────────

    /** The last key of a column. */
    method ColumnEnd(p: ProjectId, st: Status) returns (end: Option<Key>)
      requires Valid()
      ensures end.Some? ==> Positions.Valid(end.value)
      ensures forall q :: InColumn(tickets, q, p, st) ==> end.Some? && !Less(end.value, tickets[q].position)
    {
      var last := Beyond(p, st, {}, false, None);
      end := if last.Some? then Some(tickets[last.value].position) else None;
      forall q | InColumn(tickets, q, p, st)
        ensures end.Some? && !Less(end.value, tickets[q].position)
      {
        assert Still(tickets, q, p, st, {});
      }
    }

    method CreateTicket(id: Id, p: ProjectId, st: Status, number: nat) returns (created: bool)
      requires Valid()
      modifies this
      ensures Valid() && created == (id !in old(tickets))
      ensures created ==>
              && id in tickets
              && tickets == old(tickets)[id := Ticket(p, st, tickets[id].position, number, false)]
              && forall q :: InColumn(old(tickets), q, p, st) ==> Less(tickets[q].position, tickets[id].position)
      ensures !created ==> tickets == old(tickets)
    {
      if id in tickets {
        return false;
      }
      var end := ColumnEnd(p, st);
      var key := Between(end, None);
      AtTheEnd(tickets, p, st, end, key);
      tickets := tickets[id := Ticket(p, st, key, number, false)];
      return true;
    }

    method ArchiveTicket(id: Id) returns (changed: bool)
      requires Valid() && id in tickets
      modifies this
      ensures Valid()
      ensures tickets == old(tickets)[id := old(tickets)[id].(archived := true)]
      ensures changed == !old(tickets)[id].archived
    {
      changed := !tickets[id].archived;
      tickets := tickets[id := tickets[id].(archived := true)];
    }

    method UnarchiveTicket(id: Id) returns (changed: bool)
      requires Valid() && id in tickets
      modifies this
      ensures Valid() && changed == old(tickets)[id].archived
      ensures changed ==>
              var was := old(tickets)[id];
              && id in tickets
              && tickets == old(tickets)[id := was.(archived := false, position := tickets[id].position)]
              && forall q :: InColumn(old(tickets), q, was.project, was.status) ==>
                   Less(tickets[q].position, tickets[id].position)
      ensures !changed ==> tickets == old(tickets)
    {
      if !tickets[id].archived {
        return false;
      }
      var end := ColumnEnd(tickets[id].project, tickets[id].status);
      var key := Between(end, None);
      AtTheEnd(tickets, tickets[id].project, tickets[id].status, end, key);
      tickets := tickets[id := tickets[id].(archived := false, position := key)];
      return true;
    }

    /**
     Rewrites a column's keys, once one has grown too long: every live ticket of it,
     in the order there was, none too long again up to 240 of them.
     */
    method RebalanceColumn(p: ProjectId, st: Status) returns (rewritten: nat)
      requires Valid()
      modifies this
      ensures Valid() && tickets.Keys == old(tickets.Keys)
      ensures forall id :: id in tickets ==> tickets[id] == old(tickets)[id].(position := tickets[id].position)
      ensures forall id :: id in tickets && !InColumn(tickets, id, p, st) ==> tickets[id] == old(tickets)[id]
      ensures forall x, y :: InColumn(tickets, x, p, st) && InColumn(tickets, y, p, st) ==>
                (Less(tickets[x].position, tickets[y].position) <==>
                    Less(old(tickets)[x].position, old(tickets)[y].position))
      ensures (forall id :: InColumn(old(tickets), id, p, st) ==> |old(tickets)[id].position| <= 48) ==>
              tickets == old(tickets) && rewritten == 0
      ensures (exists id :: InColumn(old(tickets), id, p, st) && |old(tickets)[id].position| > 48) ==>
              && rewritten == |set id | id in tickets && InColumn(tickets, id, p, st)|
              && (forall id :: InColumn(tickets, id, p, st) ==>
                    AmongFirst(tickets[id].position, rewritten))
              && (rewritten <= 240 ==> forall id :: InColumn(tickets, id, p, st) ==> |tickets[id].position| <= 48)
    {
      hide InColumn, Sortable, Distinct, IsOrderOf, Ascending, AllInside, Less, AmongFirst, KeysBetween;
      var live := set id | id in tickets && InColumn(tickets, id, p, st);
      ColumnIsSortable(tickets, p, st, live);
      if forall id :: id in live ==> !NeedsRebalance(tickets[id].position) {
        return 0;
      }
      var column := InBoardOrder(live);
      var keys := KeysBetween(None, None, |column|);
      KeysAreBetween(None, None, |column|);
      ghost var was := tickets;
      OrderIsDistinct(tickets, live, column);
      Place(column, st, keys);
      ColumnRewritten(was, tickets, p, st, live, column);
      return |column|;
    }
  }

  predicate Named(rows: Rows, p: ProjectId, named: Option<Id>) {
    named.Some? ==> named.value in rows && rows[named.value].project == p
  }

  predicate Past(k: Key, upwards: bool, from: Option<Key>) {
    from.None? || (if upwards then Less(from.value, k) else Less(k, from.value))
  }

  predicate Nearer(a: Key, b: Key, upwards: bool) {
    if upwards then Less(a, b) else Less(b, a)
  }

  lemma NoNearer(q: Key, nearest: Key, id: Key, upwards: bool)
    requires !Nearer(q, nearest, upwards) && Nearer(id, nearest, upwards)
    ensures !Nearer(q, id, upwards)
  {
    if Nearer(q, id, upwards) {
      if upwards {
        Transitive(q, id, nearest);
      } else {
        Transitive(nearest, id, q);
      }
    }
  }

  /** The nearest ticket on the open side closes the gap. */
  lemma GapFound(rows: Rows, p: ProjectId, st: Status, moving: set<Id>, after: Option<Id>, before: Option<Id>)
    requires after.Some? ==> Still(rows, after.value, p, st, moving)
    requires before.Some? ==> Still(rows, before.value, p, st, moving)
    requires after.Some? && before.Some? ==> Less(rows[after.value].position, rows[before.value].position)
    requires (forall q :: Still(rows, q, p, st, moving) && Past(rows[q].position, true, KeyAt(rows, after)) ==>
                before.Some? && !Nearer(rows[q].position, rows[before.value].position, true))
             || (forall q :: Still(rows, q, p, st, moving) && Past(rows[q].position, false, KeyAt(rows, before)) ==>
                   after.Some? && !Nearer(rows[q].position, rows[after.value].position, false))
    ensures IsGap(rows, p, st, moving, after, before)
  {
  }

  // ── sorting a group ────────────────────────────────────────────────────────

  /** Live tickets of one project. */
  predicate Sortable(rows: Rows, ids: set<Id>) {
    forall x, y :: x in ids && y in ids ==>
        x in rows && y in rows && rows[x].project == rows[y].project && !rows[x].archived
  }

  ghost predicate IsOrderOf(rows: Rows, ids: set<Id>, sorted: seq<Id>) {
    && (forall id :: id in sorted <==> id in ids) && ids <= rows.Keys
    && (forall i, j :: 0 <= i < j < |sorted| ==> BoardLess(rows[sorted[i]], rows[sorted[j]]))
  }

  lemma BoardTotal(rows: Rows, ids: set<Id>, x: Id, y: Id)
    requires Distinct(rows) && Sortable(rows, ids) && x in ids && y in ids && x != y
    ensures BoardLess(rows[x], rows[y]) || BoardLess(rows[y], rows[x])
  {
    Total(rows[x].position, rows[y].position);
  }

  lemma BoardTransitive(a: Ticket, b: Ticket, c: Ticket)
    requires BoardLess(a, b) && BoardLess(b, c)
    ensures BoardLess(a, c)
  {
    if a.status == b.status == c.status && Less(a.position, b.position) && Less(b.position, c.position) {
      Transitive(a.position, b.position, c.position);
    }
  }

  lemma BoardIrreflexive(a: Ticket)
    ensures !BoardLess(a, a)
  {
    Irreflexive(a.position);
  }

  /** An order names each ticket once. */
  lemma OrderIsDistinct(rows: Rows, ids: set<Id>, sorted: seq<Id>)
    requires IsOrderOf(rows, ids, sorted)
    ensures forall i :: 0 <= i < |sorted| ==> sorted[i] in rows && sorted[i] in ids
    ensures forall id :: id in sorted <==> id in ids
    ensures forall i, j :: 0 <= i < j < |sorted| ==> sorted[i] != sorted[j]
  {
    assert forall i :: 0 <= i < |sorted| ==> sorted[i] in sorted;
    forall i, j | 0 <= i < j < |sorted|
      ensures sorted[i] != sorted[j]
    {
      BoardIrreflexive(rows[sorted[i]]);
    }
  }

  /** In an order, an earlier place means less. */
  lemma OrderDecides(rows: Rows, ids: set<Id>, sorted: seq<Id>, i: nat, j: nat)
    requires IsOrderOf(rows, ids, sorted) && i < |sorted| && j < |sorted| && BoardLess(rows[sorted[i]], rows[sorted[j]])
    ensures i < j
  {
    BoardIrreflexive(rows[sorted[i]]);
    if j < i {
      BoardTransitive(rows[sorted[i]], rows[sorted[j]], rows[sorted[i]]);
    }
  }

  /**
   An order reads as the board does: columns from left to right, in a column the lower
   key first, and of equal keys the ticket with the lower number.
   */
  lemma OrderReadsAsTheBoard(rows: Rows, ids: set<Id>, sorted: seq<Id>, i: nat, j: nat)
    requires IsOrderOf(rows, ids, sorted) && i < j < |sorted|
    ensures sorted[i] in rows && sorted[j] in rows
    ensures var a, b := rows[sorted[i]], rows[sorted[j]];
            && a.status <= b.status
            && (a.status == b.status ==> !Less(b.position, a.position))
            && (a.status == b.status && a.position == b.position ==> a.number < b.number)
  {
    OrderIsDistinct(rows, ids, sorted);
    if Less(rows[sorted[i]].position, rows[sorted[j]].position) {
      if Less(rows[sorted[j]].position, rows[sorted[i]].position) {
        Transitive(rows[sorted[i]].position, rows[sorted[j]].position, rows[sorted[i]].position);
        Irreflexive(rows[sorted[i]].position);
      }
    } else if rows[sorted[i]].position == rows[sorted[j]].position {
      Irreflexive(rows[sorted[i]].position);
    }
  }

  lemma MovingMeans(rows: Rows, ids: seq<Id>, st: Status, columnOnly: bool)
    ensures forall id :: id in Moving(rows, ids, st, columnOnly) <==>
              id in ids && id in rows && (!columnOnly || rows[id].status != st)
  {
  }

  /** The neighbours of a gap leave room for keys. */
  lemma GapIsOpen(rows: Rows, p: ProjectId, st: Status, moving: set<Id>, after: Option<Id>, before: Option<Id>)
    requires Distinct(rows) && IsGap(rows, p, st, moving, after, before)
    requires Sortable(rows, moving)
    ensures moving <= rows.Keys && (forall id :: id in moving ==> !rows[id].archived)
    ensures after.Some? ==> after.value in rows
    ensures before.Some? ==> before.value in rows
    ensures OpenGap(KeyAt(rows, after), KeyAt(rows, before))
  {
    forall id | id in moving
      ensures id in rows && !rows[id].archived
    {
    }
  }

  lemma MovingIsSortable(rows: Rows, p: ProjectId, ids: seq<Id>, st: Status, columnOnly: bool)
    requires forall id :: id in AsSet(ids) ==> id in rows && rows[id].project == p && !rows[id].archived
    ensures Sortable(rows, Moving(rows, ids, st, columnOnly))
    ensures forall id :: id in Moving(rows, ids, st, columnOnly) ==> rows[id].project == p
  {
  }

  lemma SettledIsDone(rows: Rows, moving: set<Id>, st: Status, low: Option<Key>, high: Option<Key>)
    requires Distinct(rows) && moving <= rows.Keys && Sortable(rows, moving)
    requires Settled(rows, moving, st, low, high)
    ensures MoveDone(rows, rows, moving, st, low, high)
  {
    forall x, y | x in moving && y in moving && BoardLess(rows[x], rows[y])
      ensures Less(rows[x].position, rows[y].position)
    {
      if x == y {
        BoardIrreflexive(rows[x]);
      }
    }
  }

  lemma PlacedIsDone(rows: Rows, next: Rows, moving: set<Id>, group: seq<Id>, keys: seq<Key>, st: Status,
          low: Option<Key>, high: Option<Key>)
    requires IsOrderOf(rows, moving, group) && |keys| == |group| && Ascending(keys) && AllInside(keys, low, high)
    requires next.Keys == rows.Keys && forall id :: id in rows && id !in group ==> next[id] == rows[id]
    requires forall i :: 0 <= i < |group| ==> next[group[i]] == rows[group[i]].(status := st, position := keys[i])
    ensures MoveDone(rows, next, moving, st, low, high)
  {
    forall id | id in moving
      ensures next[id] == rows[id].(status := st, position := next[id].position)
      ensures Positions.Valid(next[id].position)
      ensures Inside(next[id].position, low, high)
    {
      assert id in group;
      var i :| 0 <= i < |group| && group[i] == id;
      assert Positions.Valid(keys[i]);
    }
    forall x, y | x in moving && y in moving && BoardLess(rows[x], rows[y])
      ensures Less(next[x].position, next[y].position)
    {
      assert x in group && y in group;
      var i :| 0 <= i < |group| && group[i] == x;
      var j :| 0 <= j < |group| && group[j] == y;
      OrderDecides(rows, moving, group, i, j);
    }
  }

  /** A key above a column's last one is above all of them. */
  lemma AtTheEnd(rows: Rows, p: ProjectId, st: Status, end: Option<Key>, key: Key)
    requires forall q :: InColumn(rows, q, p, st) ==> end.Some? && !Less(end.value, rows[q].position)
    requires end.Some? ==> Less(end.value, key)
    ensures forall q :: InColumn(rows, q, p, st) ==> Less(rows[q].position, key) && rows[q].position != key
  {
    forall q | InColumn(rows, q, p, st)
      ensures Less(rows[q].position, key) && rows[q].position != key
    {
      Total(rows[q].position, end.value);
      if Less(rows[q].position, end.value) {
        Transitive(rows[q].position, end.value, key);
      }
      Asymmetric(rows[q].position, key);
    }
  }

  lemma {:induction false} ColumnSize(live: set<Id>, column: seq<Id>)
    requires forall id :: id in column <==> id in live
    requires forall i, j :: 0 <= i < j < |column| ==> column[i] != column[j]
    ensures |column| == |live|
    decreases |column|
  {
    if column != [] {
      var last := column[|column| - 1];
      assert column == column[..|column| - 1] + [last];
      ColumnSize(live - {last}, column[..|column| - 1]);
    }
  }

  /** What rewriting a column's keys in their order leaves. */
  lemma ColumnRewritten(rows: Rows, next: Rows, p: ProjectId, st: Status, live: set<Id>, column: seq<Id>)
    requires Distinct(rows) && IsOrderOf(rows, live, column)
    requires forall id :: id in live <==> InColumn(rows, id, p, st)
    requires next.Keys == rows.Keys && forall id :: id in rows && id !in column ==> next[id] == rows[id]
    requires forall i :: 0 <= i < |column| ==>
             next[column[i]] == rows[column[i]].(status := st, position := KeysBetween(None, None, |column|)[i])
    ensures Distinct(next)
    ensures forall id :: id in rows ==> next[id] == rows[id].(position := next[id].position)
    ensures forall id :: id in rows && !InColumn(next, id, p, st) ==> next[id] == rows[id]
    ensures forall x, y :: InColumn(next, x, p, st) && InColumn(next, y, p, st) ==>
            (Less(next[x].position, next[y].position) <==> Less(rows[x].position, rows[y].position))
    ensures |column| == |set id | id in next && InColumn(next, id, p, st)|
    ensures forall id :: InColumn(next, id, p, st) ==> AmongFirst(next[id].position, |column|)
    ensures |column| <= 240 ==> forall id :: InColumn(next, id, p, st) ==> |next[id].position| <= 48
  {
    hide Distinct, InColumn, Ascending, AllInside, Less, NthKey, KeysBetween, BoardLess, AmongFirst;
    var keys := KeysBetween(None, None, |column|);
    KeysAreBetween(None, None, |column|);
    OrderIsDistinct(rows, live, column);
    Rebalanced(rows, next, p, st, live, column, keys);
    ColumnSize(live, column);
    ColumnIsLive(next, p, st, live);
    RewrittenKeys(|column|);
    WrittenPlaces(next, p, st, live, column, keys);
  }

  lemma ColumnIsLive(rows: Rows, p: ProjectId, st: Status, live: set<Id>)
    requires forall id :: id in live <==> InColumn(rows, id, p, st)
    ensures live == set id | id in rows && InColumn(rows, id, p, st)
  {
  }

  lemma WrittenPlaces(rows: Rows, p: ProjectId, st: Status, live: set<Id>, column: seq<Id>, keys: seq<Key>)
    requires forall id :: id in column <==> id in live
    requires forall id :: id in live <==> InColumn(rows, id, p, st)
    requires |keys| == |column| && forall i :: 0 <= i < |column| ==> column[i] in rows
    requires forall i :: 0 <= i < |column| ==> rows[column[i]].position == keys[i] == NthKey(i)
    ensures forall id :: InColumn(rows, id, p, st) ==>
              AmongFirst(rows[id].position, |column|)
    ensures |column| <= 240 ==> forall id :: InColumn(rows, id, p, st) ==> |rows[id].position| <= 48
  {
    forall id | InColumn(rows, id, p, st)
      ensures AmongFirst(rows[id].position, |column|)
      ensures |column| <= 240 ==> |rows[id].position| <= 48
    {
      assert id in column;
      var i :| 0 <= i < |column| && column[i] == id;
      assert rows[id].position == NthKey(i);
    }
  }

  lemma ColumnIsSortable(rows: Rows, p: ProjectId, st: Status, live: set<Id>)
    requires live == set id | id in rows && InColumn(rows, id, p, st)
    ensures Sortable(rows, live)
    ensures forall id :: id in live <==> InColumn(rows, id, p, st)
  {
  }

  lemma KeepsOrder(rows: Rows, next: Rows, p: ProjectId, st: Status, live: set<Id>)
    requires Distinct(rows) && MoveDone(rows, next, live, st, None, None)
    requires forall id :: id in live <==> InColumn(rows, id, p, st)
    ensures forall x, y :: x in live && y in live ==>
            (Less(next[x].position, next[y].position) <==> Less(rows[x].position, rows[y].position))
  {
    hide Less, Valid, Inside;
    forall x, y | x in live && y in live
      ensures Less(next[x].position, next[y].position) <==> Less(rows[x].position, rows[y].position)
    {
      Total(rows[x].position, rows[y].position);
      if Less(rows[x].position, rows[y].position) {
        assert BoardLess(rows[x], rows[y]);
      } else if Less(rows[y].position, rows[x].position) {
        assert BoardLess(rows[y], rows[x]);
        Asymmetric(next[y].position, next[x].position);
      } else {
        assert x == y;
        Irreflexive(next[x].position);
      }
    }
  }

  lemma Rebalanced(rows: Rows, next: Rows, p: ProjectId, st: Status, live: set<Id>, column: seq<Id>, keys: seq<Key>)
    requires Distinct(rows)
    requires IsOrderOf(rows, live, column)
    requires |keys| == |column|
    requires Ascending(keys)
    requires AllInside(keys, None, None)
    requires forall id :: id in live <==> InColumn(rows, id, p, st)
    requires next.Keys == rows.Keys && forall id :: id in rows && id !in column ==> next[id] == rows[id]
    requires forall i :: 0 <= i < |column| ==> next[column[i]] == rows[column[i]].(status := st, position := keys[i])
    ensures Distinct(next)
    ensures forall id :: id in live <==> InColumn(next, id, p, st)
    ensures forall x, y :: x in live && y in live ==>
            (Less(next[x].position, next[y].position) <==> Less(rows[x].position, rows[y].position))
    ensures forall id :: id in rows ==> next[id] == rows[id].(position := next[id].position)
  {
    hide IsOrderOf, Ascending, AllInside, Less, BoardLess;
    PlacedIsDone(rows, next, live, column, keys, st, None, None);
    KeepsOrder(rows, next, p, st, live);
    forall x, y | x in next && y in next && x != y && SameColumn(next[x], next[y])
      ensures next[x].position != next[y].position
    {
      if x in live && y in live {
        BothMoved(rows, next, st, live, None, None, x, y);
      }
    }
  }
}
