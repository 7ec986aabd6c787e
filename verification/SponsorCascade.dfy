/**
 Withdrawing everyone a person sponsored into the preview, and with `cascade`
 everyone those people sponsored, and so on: a walk over the graph whose edges
 are the live grants somebody joined with, which may hold cycles.
 */
module SponsorCascade {
  import opened Wrappers

  type User = nat
  type GrantId = nat

  datatype Grant = Grant(
    sponsor: Option<User>, redeemedBy: Option<User>, revokedAt: Option<int>, expiresAt: Option<int>
  )
  type Grants = map<GrantId, Grant>

  predicate Live(g: Grant, now: int) {
    g.revokedAt.None? && (g.expiresAt.None? || g.expiresAt.value > now)
  }

  predicate SponsoredBy(g: Grant, sponsors: set<User>) {
    g.sponsor.Some? && g.sponsor.value in sponsors
  }

  /** The live grants of some sponsors, by whether somebody joined with them. */
  function LiveOf(grants: Grants, sponsors: set<User>, redeemed: bool, now: int): set<GrantId> {
    set id | id in grants && SponsoredBy(grants[id], sponsors) && Live(grants[id], now)
      && grants[id].redeemedBy.Some? == redeemed
  }

  /** Withdrawing some sponsors: what somebody joined with is revoked, what nobody used is gone, the rest stays. */
  function Withdrawn(grants: Grants, sponsors: set<User>, now: int): Grants {
    map id | id in grants && id !in LiveOf(grants, sponsors, false, now) ::
      if id in LiveOf(grants, sponsors, true, now) then grants[id].(revokedAt := Some(now)) else grants[id]
  }

  /** A grant falls with its sponsor while it is neither revoked nor expired. */
  predicate Falls(g: Grant, sponsors: set<User>, now: int) {
    && g.sponsor.Some? && g.sponsor.value in sponsors && g.revokedAt == None
    && (g.expiresAt == None || now < g.expiresAt.value)
  }

  /** What withdrawing some sponsors does to each grant, and how many of each kind there were. */
  lemma WithdrawnMeans(grants: Grants, sponsors: set<User>, now: int)
    ensures Withdrawn(grants, sponsors, now).Keys <= grants.Keys
    ensures forall id :: id in grants && !Falls(grants[id], sponsors, now) ==>
              id in Withdrawn(grants, sponsors, now) && Withdrawn(grants, sponsors, now)[id] == grants[id]
    ensures forall id :: id in grants && Falls(grants[id], sponsors, now) ==>
              if grants[id].redeemedBy.Some?
              then && id in Withdrawn(grants, sponsors, now)
                   && Withdrawn(grants, sponsors, now)[id] == grants[id].(revokedAt := Some(now))
              else id !in Withdrawn(grants, sponsors, now)
    ensures LiveOf(grants, sponsors, true, now) ==
            set id | id in grants && Falls(grants[id], sponsors, now) && grants[id].redeemedBy.Some?
    ensures LiveOf(grants, sponsors, false, now) ==
            set id | id in grants && Falls(grants[id], sponsors, now) && grants[id].redeemedBy.None?
  {
  }

  /** `v` joined with a live grant `u` sponsored. */
  predicate Edge(grants: Grants, u: User, v: User, now: int) {
    exists id ::
      id in grants && Live(grants[id], now) && grants[id].sponsor == Some(u) && grants[id].redeemedBy == Some(v)
  }

  ghost predicate Path(grants: Grants, p: seq<User>, u: User, v: User, now: int) {
    && |p| > 0 && p[0] == u && p[|p| - 1] == v
    && forall i :: 0 <= i < |p| - 1 ==> Edge(grants, p[i], p[i + 1], now)
  }

  ghost predicate Reaches(grants: Grants, u: User, v: User, now: int) {
    exists p :: Path(grants, p, u, v, now)
  }

  lemma ReachesItself(grants: Grants, u: User, now: int)
    ensures Reaches(grants, u, u, now)
  {
    assert Path(grants, [u], u, u, now);
  }

  lemma ReachesOn(grants: Grants, u: User, v: User, w: User, now: int)
    requires Reaches(grants, u, v, now) && Edge(grants, v, w, now)
    ensures Reaches(grants, u, w, now)
  {
    var p :| Path(grants, p, u, v, now);
    assert Path(grants, p + [w], u, w, now);
  }

  /** A set that holds the root and every edge out of it holds everyone the root reaches. */
  lemma {:induction false} ClosedHoldsAll(grants: Grants, closed: set<User>, root: User, p: seq<User>, v: User,
          now: int)
    requires root in closed && forall u, w :: u in closed && Edge(grants, u, w, now) ==> w in closed
    requires Path(grants, p, root, v, now)
    ensures v in closed
    decreases |p|
  {
    if |p| > 1 {
      var before := p[|p| - 2];
      assert Path(grants, p[..|p| - 1], root, before, now);
      ClosedHoldsAll(grants, closed, root, p[..|p| - 1], before, now);
      assert Edge(grants, before, v, now);
    }
  }

  // ── one sponsor at a time ──────────────────────────────────────────────────

  /** Whoever joined with a live grant of `u`. */
  function Joined(grants: Grants, u: User, now: int): set<User> {
    set id | id in LiveOf(grants, {u}, true, now) :: grants[id].redeemedBy.value
  }

  lemma JoinedAreEdges(grants: Grants, u: User, v: User, now: int)
    ensures v in Joined(grants, u, now) <==> Edge(grants, u, v, now)
  {
    if Edge(grants, u, v, now) {
      var id :| id in grants && Live(grants[id], now) && grants[id].sponsor == Some(u)
          && grants[id].redeemedBy == Some(v);
      assert id in LiveOf(grants, {u}, true, now);
    }
  }

  /** Withdrawing one more sponsor, after others. */
  lemma OneMore(was: Grants, done: set<User>, u: User, now: int)
    requires u !in done
    ensures var sofar := Withdrawn(was, done, now);
            && Withdrawn(sofar, {u}, now) == Withdrawn(was, done + {u}, now)
            && Joined(sofar, u, now) == Joined(was, u, now)
            && forall redeemed ::
                 |LiveOf(was, done + {u}, redeemed, now)| ==
                 |LiveOf(was, done, redeemed, now)| + |LiveOf(sofar, {u}, redeemed, now)|
  {
    var sofar := Withdrawn(was, done, now);
    forall redeemed
      ensures LiveOf(sofar, {u}, redeemed, now) == LiveOf(was, {u}, redeemed, now)
      ensures |LiveOf(was, done + {u}, redeemed, now)| ==
              |LiveOf(was, done, redeemed, now)| + |LiveOf(sofar, {u}, redeemed, now)|
    {
      SameLive(was, done, u, redeemed, now);
      assert LiveOf(was, done + {u}, redeemed, now) ==
             LiveOf(was, done, redeemed, now) + LiveOf(was, {u}, redeemed, now);
      assert LiveOf(was, done, redeemed, now) !! LiveOf(was, {u}, redeemed, now);
    }
    WithdrawnOneMore(was, done, u, now);
    forall v
      ensures v in Joined(sofar, u, now) <==> v in Joined(was, u, now)
    {
      if v in Joined(was, u, now) {
        var id :| id in LiveOf(was, {u}, true, now) && was[id].redeemedBy.value == v;
        assert id in LiveOf(sofar, {u}, true, now) && sofar[id] == was[id];
      }
      if v in Joined(sofar, u, now) {
        var id :| id in LiveOf(sofar, {u}, true, now) && sofar[id].redeemedBy.value == v;
        assert id in LiveOf(was, {u}, true, now) && sofar[id] == was[id];
      }
    }
  }

  lemma SameLive(was: Grants, done: set<User>, u: User, redeemed: bool, now: int)
    requires u !in done
    ensures LiveOf(Withdrawn(was, done, now), {u}, redeemed, now) == LiveOf(was, {u}, redeemed, now)
  {
  }

  lemma WithdrawnOneMore(was: Grants, done: set<User>, u: User, now: int)
    requires u !in done
    ensures Withdrawn(Withdrawn(was, done, now), {u}, now) == Withdrawn(was, done + {u}, now)
  {
    SameLive(was, done, u, true, now);
    SameLive(was, done, u, false, now);
  }

  // ── one grant at a time ────────────────────────────────────────────────────

  function Revoked(was: Grants, ids: set<GrantId>, sponsor: User, now: int): set<GrantId> {
    ids * LiveOf(was, {sponsor}, true, now)
  }

  function Unused(was: Grants, ids: set<GrantId>, sponsor: User, now: int): set<GrantId> {
    ids * LiveOf(was, {sponsor}, false, now)
  }

  /** The table once the grants `ids` were gone through for `sponsor`. */
  function Touched(was: Grants, ids: set<GrantId>, sponsor: User, now: int): Grants {
    map id | id in was && id !in Unused(was, ids, sponsor, now) ::
      if id in Revoked(was, ids, sponsor, now) then was[id].(revokedAt := Some(now)) else was[id]
  }

  function JoinedIn(was: Grants, ids: set<GrantId>, sponsor: User, now: int): set<User> {
    set id | id in Revoked(was, ids, sponsor, now) :: was[id].redeemedBy.value
  }

  lemma NothingTouched(was: Grants, sponsor: User, now: int)
    ensures Touched(was, {}, sponsor, now) == was
    ensures Revoked(was, {}, sponsor, now) == {}
    ensures Unused(was, {}, sponsor, now) == {}
    ensures JoinedIn(was, {}, sponsor, now) == {}
  {
  }

  lemma AllTouched(was: Grants, sponsor: User, now: int)
    ensures Touched(was, was.Keys, sponsor, now) == Withdrawn(was, {sponsor}, now)
    ensures Revoked(was, was.Keys, sponsor, now) == LiveOf(was, {sponsor}, true, now)
    ensures Unused(was, was.Keys, sponsor, now) == LiveOf(was, {sponsor}, false, now)
    ensures JoinedIn(was, was.Keys, sponsor, now) == Joined(was, sponsor, now)
  {
    assert Revoked(was, was.Keys, sponsor, now) == LiveOf(was, {sponsor}, true, now);
    assert Unused(was, was.Keys, sponsor, now) == LiveOf(was, {sponsor}, false, now);
  }

  /** A grant the sponsor gave, live, by whether somebody joined with it. */
  predicate Hit(g: Grant, sponsor: User, redeemed: bool, now: int) {
    g.sponsor == Some(sponsor) && Live(g, now) && g.redeemedBy.Some? == redeemed
  }

  lemma TouchSets(was: Grants, ids: set<GrantId>, id: GrantId, sponsor: User, now: int)
    requires id in was && id !in ids
    ensures Revoked(was, ids + {id}, sponsor, now) ==
            Revoked(was, ids, sponsor, now) + (if Hit(was[id], sponsor, true, now) then {id} else {})
    ensures Unused(was, ids + {id}, sponsor, now) ==
            Unused(was, ids, sponsor, now) + (if Hit(was[id], sponsor, false, now) then {id} else {})
    ensures id !in Revoked(was, ids, sponsor, now) && id !in Unused(was, ids, sponsor, now)
  {
  }

  lemma TouchTable(was: Grants, ids: set<GrantId>, id: GrantId, sponsor: User, now: int)
    requires id in was && id !in ids
    ensures var sofar, next := Touched(was, ids, sponsor, now), Touched(was, ids + {id}, sponsor, now);
            next == if Hit(was[id], sponsor, true, now) then sofar[id := was[id].(revokedAt := Some(now))]
                    else if Hit(was[id], sponsor, false, now) then sofar - {id} else sofar
  {
    TouchSets(was, ids, id, sponsor, now);
    hide Revoked, Unused, Hit;
  }

  lemma TouchJoined(was: Grants, ids: set<GrantId>, id: GrantId, sponsor: User, now: int)
    requires id in was && id !in ids
    ensures JoinedIn(was, ids + {id}, sponsor, now) ==
            JoinedIn(was, ids, sponsor, now) + (if Hit(was[id], sponsor, true, now) then {was[id].redeemedBy.value}
                     else {})
  {
    TouchSets(was, ids, id, sponsor, now);
    var sofar, next := Revoked(was, ids, sponsor, now), Revoked(was, ids + {id}, sponsor, now);
    forall u | u in JoinedIn(was, ids + {id}, sponsor, now)
      ensures u in JoinedIn(was, ids, sponsor, now)
              || (Hit(was[id], sponsor, true, now) && u == was[id].redeemedBy.value)
    {
      var i :| i in next && was[i].redeemedBy.value == u;
      assert i in sofar || i == id;
    }
    forall u | u in JoinedIn(was, ids, sponsor, now)
      ensures u in JoinedIn(was, ids + {id}, sponsor, now)
    {
      var i :| i in sofar && was[i].redeemedBy.value == u;
      assert i in next;
    }
    if Hit(was[id], sponsor, true, now) {
      assert id in next;
    }
  }

  lemma TouchCounts(was: Grants, ids: set<GrantId>, id: GrantId, sponsor: User, now: int)
    requires id in was && id !in ids
    ensures |Revoked(was, ids + {id}, sponsor, now)| ==
            |Revoked(was, ids, sponsor, now)| + (if Hit(was[id], sponsor, true, now) then 1 else 0)
    ensures |Unused(was, ids + {id}, sponsor, now)| ==
            |Unused(was, ids, sponsor, now)| + (if Hit(was[id], sponsor, false, now) then 1 else 0)
  {
    TouchSets(was, ids, id, sponsor, now);
    hide Revoked, Unused, Hit;
  }

  predicate NoRepeats(queue: seq<User>) {
    forall i, j :: 0 <= i < j < |queue| ==> queue[i] != queue[j]
  }

  /** A queue of people who were seen, each once. */
  ghost predicate IsQueue(queue: seq<User>, seen: set<User>) {
    (forall u :: u in queue ==> u in seen) && NoRepeats(queue)
  }

  /** The queue grew by exactly the people newly seen. */
  ghost predicate Queued(queue: seq<User>, seen: set<User>, queued: seq<User>, seenNow: set<User>) {
    && NoRepeats(queued)
    && (forall u :: u in queued <==> u in queue || (u in seenNow && u !in seen))
    && (seenNow == seen ==> queued == queue)
    && seen <= seenNow
  }

  lemma NobodyQueued(queue: seq<User>, seen: set<User>)
    requires IsQueue(queue, seen)
    ensures Queued(queue, seen, queue, seen)
  {
  }

  /** Queueing somebody newly seen. */
  lemma QueueOne(queue: seq<User>, seen: set<User>, queued: seq<User>, seenNow: set<User>, u: User)
    requires IsQueue(queue, seen) && Queued(queue, seen, queued, seenNow)
    ensures u !in seenNow ==> Queued(queue, seen, queued + [u], seenNow + {u})
    ensures u in seenNow ==> seenNow + {u} == seenNow
  {
  }

  /** One sponsor's pass over the grants: what it was given. */
  datatype Pass = Pass(was: Grants, sponsor: User, cascade: bool, now: int, seen: set<User>, queue: seq<User>)

  /** What the pass has done once it went through the grants of `ids`. */
  ghost predicate Passed(pass: Pass, ids: set<GrantId>, grants: Grants, seenNow: set<User>, queued: seq<User>,
          revoked: nat, withdrawn: nat)
  {
    && grants == Touched(pass.was, ids, pass.sponsor, pass.now)
    && revoked == |Revoked(pass.was, ids, pass.sponsor, pass.now)|
    && withdrawn == |Unused(pass.was, ids, pass.sponsor, pass.now)|
    && seenNow == (if pass.cascade then pass.seen + JoinedIn(pass.was, ids, pass.sponsor, pass.now) else pass.seen)
    && Queued(pass.queue, pass.seen, queued, seenNow)
    && IsQueue(pass.queue, pass.seen)
  }

  lemma PassStarts(pass: Pass)
    requires IsQueue(pass.queue, pass.seen)
    ensures Passed(pass, {}, pass.was, pass.seen, pass.queue, 0, 0)
  {
    hide Touched, Revoked, Unused, JoinedIn, IsQueue, Queued;
    NobodyQueued(pass.queue, pass.seen);
    NothingTouched(pass.was, pass.sponsor, pass.now);
  }

  /** One more grant: what becomes of it, and who is queued for it. */
  lemma PassOne(pass: Pass, ids: set<GrantId>, id: GrantId, grants: Grants, seenNow: set<User>, queued: seq<User>,
          revoked: nat, withdrawn: nat)
    requires Passed(pass, ids, grants, seenNow, queued, revoked, withdrawn) && id in pass.was && id !in ids
    ensures var grant := pass.was[id];
            var hit := grant.sponsor == Some(pass.sponsor) && Live(grant, pass.now);
            && (!hit ==> Passed(pass, ids + {id}, grants, seenNow, queued, revoked, withdrawn))
            && (hit && grant.redeemedBy.None? ==>
                  Passed(pass, ids + {id}, grants - {id}, seenNow, queued, revoked, withdrawn + 1))
            && (hit && grant.redeemedBy.Some? ==>
                  var revokedNow := grants[id := grant.(revokedAt := Some(pass.now))];
                  var u := grant.redeemedBy.value;
                  if pass.cascade && u !in seenNow
                  then Passed(pass, ids + {id}, revokedNow, seenNow + {u}, queued + [u], revoked + 1, withdrawn)
                  else Passed(pass, ids + {id}, revokedNow, seenNow, queued, revoked + 1, withdrawn))
  {
    hide Touched, Revoked, Unused, JoinedIn, IsQueue, Queued, Live;
    TouchTable(pass.was, ids, id, pass.sponsor, pass.now);
    TouchJoined(pass.was, ids, id, pass.sponsor, pass.now);
    TouchCounts(pass.was, ids, id, pass.sponsor, pass.now);
    if pass.was[id].redeemedBy.Some? {
      QueueOne(pass.queue, pass.seen, queued, seenNow, pass.was[id].redeemedBy.value);
    }
  }

  lemma PassEnds(pass: Pass, grants: Grants, seenNow: set<User>, queued: seq<User>, revoked: nat, withdrawn: nat)
    requires Passed(pass, pass.was.Keys, grants, seenNow, queued, revoked, withdrawn)
    ensures grants == Withdrawn(pass.was, {pass.sponsor}, pass.now)
    ensures revoked == |LiveOf(pass.was, {pass.sponsor}, true, pass.now)|
    ensures withdrawn == |LiveOf(pass.was, {pass.sponsor}, false, pass.now)|
    ensures seenNow == if pass.cascade then pass.seen + Joined(pass.was, pass.sponsor, pass.now) else pass.seen
    ensures Queued(pass.queue, pass.seen, queued, seenNow)
  {
    hide Touched, Revoked, Unused, JoinedIn, IsQueue, Queued, Withdrawn, LiveOf, Joined;
    AllTouched(pass.was, pass.sponsor, pass.now);
  }

  class Preview {
    var grants: Grants
    var seats: map<User, nat>

    constructor ()
      ensures grants == map[] && seats == map[]
    {
      grants, seats := map[], map[];
    }

    /** One sponsor's grants; who joined with them is noted unless already seen. */
    method RevokeFor(sponsor: User, cascade: bool, now: int, seen: set<User>, queue: seq<User>)
      returns (seenNow: set<User>, queued: seq<User>, revoked: nat, withdrawn: nat)
      requires IsQueue(queue, seen)
      modifies this`grants
      ensures grants == Withdrawn(old(grants), {sponsor}, now)
      ensures revoked == |LiveOf(old(grants), {sponsor}, true, now)|
      ensures withdrawn == |LiveOf(old(grants), {sponsor}, false, now)|
      ensures seenNow == if cascade then seen + Joined(old(grants), sponsor, now) else seen
      ensures Queued(queue, seen, queued, seenNow)
    {
      hide Passed, Withdrawn, LiveOf, Joined, IsQueue, Queued, Live;
      seenNow, queued, revoked, withdrawn := seen, queue, 0, 0;
      var was := grants;
      var left := was.Keys;
      ghost var pass := Pass(was, sponsor, cascade, now, seen, queue);
      PassStarts(pass);
      assert was.Keys - left == {};
      while left != {}
        invariant left <= was.Keys
        invariant Passed(pass, was.Keys - left, grants, seenNow, queued, revoked, withdrawn)
      {
        var id :| id in left;
        PassOne(pass, was.Keys - left, id, grants, seenNow, queued, revoked, withdrawn);
        assert was.Keys - (left - {id}) == was.Keys - left + {id};
        left := left - {id};
        var grant := was[id];
        if grant.sponsor == Some(sponsor) && Live(grant, now) {
          if grant.redeemedBy.None? {
            grants := grants - {id};
            withdrawn := withdrawn + 1;
          } else {
            grants := grants[id := grant.(revokedAt := Some(now))];
            revoked := revoked + 1;
            if cascade && grant.redeemedBy.value !in seenNow {
              seenNow := seenNow + {grant.redeemedBy.value};
              queued := queued + [grant.redeemedBy.value];
            }
          }
        }
      }
      assert was.Keys - left == was.Keys;
      PassEnds(pass, grants, seenNow, queued, revoked, withdrawn);
    }

    /** Withdraws everyone `root` sponsored; with `cascade`, down the whole chain. */
    method RevokeSponsoredBy(root: User, cascade: bool, now: int)
      returns (revoked: nat, withdrawn: nat, ghost sponsors: set<User>)
      modifies this
      ensures forall u :: u in sponsors <==> if cascade then Reaches(old(grants), root, u, now) else u == root
      ensures grants.Keys <= old(grants).Keys
      ensures forall id :: id in old(grants) && !Falls(old(grants)[id], sponsors, now) ==>
                id in grants && grants[id] == old(grants)[id]
      ensures forall id :: id in old(grants) && Falls(old(grants)[id], sponsors, now) ==>
                if old(grants)[id].redeemedBy.Some?
                then id in grants && grants[id] == old(grants)[id].(revokedAt := Some(now)) else id !in grants
      ensures revoked == |set id | id in old(grants) && Falls(old(grants)[id], sponsors, now)
                                   && old(grants)[id].redeemedBy.Some?|
      ensures withdrawn == |set id | id in old(grants) && Falls(old(grants)[id], sponsors, now)
                                     && old(grants)[id].redeemedBy.None?|
      ensures seats.Keys == old(seats).Keys
      ensures forall u :: u in seats ==> seats[u] == if u in sponsors then 0 else old(seats)[u]
    {
      hide Walked, Withdrawn, LiveOf, Zeroed, Pending, Queued, IsQueue, Joined, Reaches;
      revoked, withdrawn := 0, 0;
      var queue := [root];
      var seen := {root};
      ghost var was := grants;
      ghost var people := WalkFrom(was, root, cascade, now);
      Nothing(was, now);
      ZeroNone(seats);
      PendingAtFirst(root);
      sponsors := {};
      while queue != []
        invariant Pending(queue, seen, sponsors)
        invariant Walked(was, root, cascade, seen, sponsors, people, now)
        invariant grants == Withdrawn(was, sponsors, now)
        invariant revoked == |LiveOf(was, sponsors, true, now)| && withdrawn == |LiveOf(was, sponsors, false, now)|
        invariant seats == Zeroed(old(seats), sponsors)
        decreases |people - seen|, |queue|
      {
        var sponsor := queue[0];
        QueueTail(queue, seen, sponsors);
        OneMore(was, sponsors, sponsor, now);
        ghost var seenBefore := seen;
        var rest := queue[1..];
        ghost var whole := queue;
        var r, w: nat;
        seen, queue, r, w := RevokeFor(sponsor, cascade, now, seen, rest);
        PendingOn(whole, seenBefore, sponsors, queue, seen);
        revoked, withdrawn := revoked + r, withdrawn + w;
        WalkOn(was, root, cascade, seenBefore, seen, sponsors, people, sponsor, now);
        ZeroOne(old(seats), sponsors, sponsor);
        sponsors := sponsors + {sponsor};
        if sponsor in seats {
          seats := seats[sponsor := 0];
        }
      }
      NonePending(seen, sponsors);
      WalkedAll(was, root, cascade, seen, people, now);
      WithdrawnMeans(was, sponsors, now);
      ZeroedMeans(old(seats), sponsors);
    }
  }

  function Zeroed(seats: map<User, nat>, sponsors: set<User>): map<User, nat> {
    map u | u in seats :: if u in sponsors then 0 else seats[u]
  }

  lemma ZeroedMeans(seats: map<User, nat>, sponsors: set<User>)
    ensures Zeroed(seats, sponsors).Keys == seats.Keys
    ensures forall u :: u in seats ==> Zeroed(seats, sponsors)[u] == if u in sponsors then 0 else seats[u]
  {
  }

  lemma ZeroNone(seats: map<User, nat>)
    ensures Zeroed(seats, {}) == seats
  {
  }

  lemma ZeroOne(seats: map<User, nat>, sponsors: set<User>, u: User)
    ensures var sofar := Zeroed(seats, sponsors);
            Zeroed(seats, sponsors + {u}) == if u in sofar then sofar[u := 0] else sofar
  {
  }

  lemma Nothing(grants: Grants, now: int)
    ensures Withdrawn(grants, {}, now) == grants
    ensures LiveOf(grants, {}, true, now) == {}
    ensures LiveOf(grants, {}, false, now) == {}
  {
  }

  /** Everyone seen is either still in the queue or done. */
  ghost predicate Pending(queue: seq<User>, seen: set<User>, sponsors: set<User>) {
    IsQueue(queue, seen) && (forall u :: u in seen <==> u in queue || u in sponsors)
      && forall u :: u in queue ==> u !in sponsors
  }

  lemma QueueTail(queue: seq<User>, seen: set<User>, sponsors: set<User>)
    requires Pending(queue, seen, sponsors) && queue != []
    ensures IsQueue(queue[1..], seen) && queue[0] in seen && queue[0] !in sponsors
  {
    assert queue == [queue[0]] + queue[1..];
  }

  lemma PendingOn(queue: seq<User>, seen: set<User>, sponsors: set<User>, queued: seq<User>, seenNow: set<User>)
    requires Pending(queue, seen, sponsors) && queue != [] && Queued(queue[1..], seen, queued, seenNow)
    ensures Pending(queued, seenNow, sponsors + {queue[0]})
    ensures seenNow == seen ==> |queued| < |queue|
  {
    assert queue == [queue[0]] + queue[1..];
  }

  lemma PendingAtFirst(root: User)
    ensures Pending([root], {root}, {})
  {
  }

  lemma NonePending(seen: set<User>, sponsors: set<User>)
    requires Pending([], seen, sponsors)
    ensures seen == sponsors
  {
  }

  /** Where the walk is: everyone seen is reached, and the edges out of everyone done lead to people seen. */
  ghost predicate Walked(was: Grants, root: User, cascade: bool, seen: set<User>, sponsors: set<User>,
          people: set<User>, now: int)
  {
    && root in seen && seen <= people && sponsors <= seen
    && people == {root} + (set id | id in was && was[id].redeemedBy.Some? :: was[id].redeemedBy.value)
    && (forall u :: u in seen ==> if cascade then Reaches(was, root, u, now) else u == root)
    && (cascade ==> forall u, v :: u in sponsors && Edge(was, u, v, now) ==> v in seen)
  }

  lemma WalkFrom(was: Grants, root: User, cascade: bool, now: int) returns (people: set<User>)
    ensures Walked(was, root, cascade, {root}, {}, people, now)
  {
    people := {root} + (set id | id in was && was[id].redeemedBy.Some? :: was[id].redeemedBy.value);
    ReachesItself(was, root, now);
  }

  /** A walk with nobody left to do reached everyone the root reaches, and nobody else. */
  lemma WalkedAll(was: Grants, root: User, cascade: bool, seen: set<User>, people: set<User>, now: int)
    requires Walked(was, root, cascade, seen, seen, people, now)
    ensures forall u :: u in seen <==> if cascade then Reaches(was, root, u, now) else u == root
  {
    if cascade {
      forall u | Reaches(was, root, u, now)
        ensures u in seen
      {
        var p :| Path(was, p, root, u, now);
        ClosedHoldsAll(was, seen, root, p, u, now);
      }
    }
  }

  /** One more sponsor's grants. */
  lemma WalkOn(was: Grants, root: User, cascade: bool, seen: set<User>, seenNow: set<User>, sponsors: set<User>,
          people: set<User>, sponsor: User, now: int)
    requires Walked(was, root, cascade, seen, sponsors, people, now) && sponsor in seen
    requires seenNow == if cascade then seen + Joined(was, sponsor, now) else seen
    ensures Walked(was, root, cascade, seenNow, sponsors + {sponsor}, people, now)
    ensures seenNow != seen ==> |people - seenNow| < |people - seen|
  {
    if cascade {
      forall v | v in Joined(was, sponsor, now)
        ensures v in people && Reaches(was, root, v, now)
      {
        JoinedAreEdges(was, sponsor, v, now);
        var id :| id in LiveOf(was, {sponsor}, true, now) && was[id].redeemedBy.value == v;
        ReachesOn(was, root, sponsor, v, now);
      }
      forall v | Edge(was, sponsor, v, now)
        ensures v in seenNow
      {
        JoinedAreEdges(was, sponsor, v, now);
      }
    }
    Fewer(people, seen, seenNow);
  }

  lemma Fewer(people: set<User>, seen: set<User>, seenNow: set<User>)
    requires seen <= seenNow <= people
    ensures seenNow != seen ==> |people - seenNow| < |people - seen|
  {
    if seenNow != seen {
      var v :| v in seenNow && v !in seen;
      SubsetSize(people - seenNow, people - seen - {v});
    }
  }
}
