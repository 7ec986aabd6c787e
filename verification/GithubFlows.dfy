/**
 The browser's return from GitHub. A flow ends once, `Done` or `Failed`; a
 connect is claimed by one confirm at a time; and one GitHub account belongs to
 at most one person, whose GitHub link says the same as their connection.
 */
module GithubFlows {
  import opened Wrappers

  const CLAIM_MS := 60_000
  const FLOW_TTL_MS := 600_000
  const REQUEST_TTL_MS := 1_209_600_000
  const FLOW_GRACE_MS := 3_600_000

  type FlowId = nat
  type User = nat
  type GithubUser = nat
  type Nonce = nat
  type Hash = nat
  type KeyId = nat

  datatype Purpose = ToConnect | ToInstall
  datatype Status = Pending | Requested | Done | Failed
  datatype Claim = Claim(nonce: Nonce, until: int)
  datatype Flow = Flow(
    user: User, purpose: Purpose, stateHash: Hash, status: Status, error: Option<Problem>,
    claim: Option<Claim>, expiresAt: int
  )

  datatype Problem = FlowNotFound | FlowUsed | FlowExpired | Busy | AccountAlreadyLinked | OtherError

  datatype ConnectionStatus = Active | NeedsReconnect | Revoked
  datatype Connection = Connection(github: GithubUser, status: ConnectionStatus)
  datatype Link = Link(user: User, github: GithubUser)

  datatype Db = Db(
    flows: map<FlowId, Flow>, connections: map<User, Connection>, links: set<Link>,
    keys: map<User, KeyId>, active: set<User>
  )

  predicate Ended(status: Status) {
    status == Done || status == Failed
  }

  function FlowProblem(flow: Option<Flow>, purpose: Purpose, stateHash: Hash, now: int): Option<Problem> {
    if flow.None? || flow.value.purpose != purpose || flow.value.stateHash != stateHash then Some(FlowNotFound)
    else if Ended(flow.value.status) then Some(FlowUsed)
    else if now >= flow.value.expiresAt then Some(FlowExpired)
    else None
  }

  function Find(db: Db, id: FlowId): Option<Flow> {
    if id in db.flows then Some(db.flows[id]) else None
  }

  predicate HeldByOther(flow: Flow, nonce: Option<Nonce>, now: int) {
    flow.claim.Some? && flow.claim.value.until > now && nonce != Some(flow.claim.value.nonce)
  }

  function Put(db: Db, id: FlowId, flow: Flow): Db {
    db.(flows := db.flows[id := flow])
  }

  // ── the mutations ──────────────────────────────────────────────────────────

  function Create(db: Db, id: FlowId, user: User, purpose: Purpose, stateHash: Hash, now: int): Db {
    if id in db.flows || (purpose == ToInstall && (user !in db.connections || db.connections[user].status != Active))
    then db
    else Put(db, id, Flow(user, purpose, stateHash, Pending, None, None, now + FLOW_TTL_MS))
  }

  function Fail(db: Db, id: FlowId, error: Problem, nonce: Option<Nonce>, now: int): Db {
    if id !in db.flows || Ended(db.flows[id].status) || HeldByOther(db.flows[id], nonce, now) then db
    else Put(db, id, db.flows[id].(status := Failed, error := Some(error), claim := None))
  }

  function ClaimProblem(db: Db, id: FlowId, stateHash: Hash, nonce: Nonce, now: int): Option<Problem> {
    var problem := FlowProblem(Find(db, id), ToConnect, stateHash, now);
    if problem.Some? then problem
    else if HeldByOther(db.flows[id], Some(nonce), now) then Some(Busy)
    else None
  }

  function TakeClaim(db: Db, id: FlowId, stateHash: Hash, nonce: Nonce, now: int): Db {
    if ClaimProblem(db, id, stateHash, nonce, now).Some? then db
    else Put(db, id, db.flows[id].(claim := Some(Claim(nonce, now + CLAIM_MS))))
  }

  function MarkRequested(db: Db, id: FlowId, now: int): Db {
    if id in db.flows && db.flows[id].purpose == ToInstall && db.flows[id].status == Pending
    then Put(db, id, db.flows[id].(status := Requested, expiresAt := now + REQUEST_TTL_MS))
    else db
  }

  /** Somebody else has this GitHub account, connected or linked. */
  predicate TakenByOther(db: Db, github: GithubUser, user: User) {
    || (exists u :: u in db.connections && db.connections[u].github == github && u != user)
    || (exists l :: l in db.links && l.github == github && l.user != user)
  }

  /** The person's data key: the one sealed under must be theirs, or theirs to store first. */
  predicate KeyStorable(db: Db, user: User, kid: KeyId, isNew: bool) {
    if isNew then user !in db.keys else user in db.keys && db.keys[user] == kid
  }

  datatype Connected = Connected | Refused(problem: Problem) | SealAgain

  function ConnectAnswer(db: Db, id: FlowId, stateHash: Hash, nonce: Nonce, github: GithubUser, kid: KeyId,
          isNew: bool, now: int): Connected
  {
    var problem := FlowProblem(Find(db, id), ToConnect, stateHash, now);
    if problem.Some? then Refused(problem.value)
    else
      var flow := db.flows[id];
      if flow.claim.None? || flow.claim.value.nonce != nonce then Refused(FlowUsed)
      else if flow.user !in db.active then Refused(FlowNotFound)
      else if TakenByOther(db, github, flow.user) then Refused(AccountAlreadyLinked)
      else if !KeyStorable(db, flow.user, kid, isNew) then SealAgain
      else Connected
  }

  function CompleteConnect(db: Db, id: FlowId, stateHash: Hash, nonce: Nonce, github: GithubUser, kid: KeyId,
          isNew: bool, now: int): Db
  {
    match ConnectAnswer(db, id, stateHash, nonce, github, kid, isNew, now)
    case Connected =>
      var user := db.flows[id].user;
      db.(flows := db.flows[id := db.flows[id].(status := Done, claim := None)],
          connections := db.connections[user := Connection(github, Active)],
          links := (set l | l in db.links && (l.user != user || l.github == github)) + {Link(user, github)},
          keys := if isNew then db.keys[user := kid] else db.keys)
    case Refused(problem) =>
      if problem == AccountAlreadyLinked
      then Put(db, id, db.flows[id].(status := Failed, error := Some(AccountAlreadyLinked), claim := None)) else db
    case SealAgain => db
  }

  function CompleteInstall(db: Db, id: FlowId, stateHash: Hash, now: int): Db {
    if FlowProblem(Find(db, id), ToInstall, stateHash, now).Some? || db.flows[id].user !in db.active then db
    else Put(db, id, db.flows[id].(status := Done))
  }

  predicate WaitsFor(db: Db, flow: Flow, github: GithubUser) {
    flow.status == Requested && flow.user in db.connections && db.connections[flow.user].github == github
  }

  /** An owner approved: the requester's waiting flows are done. */
  function CompleteRequested(db: Db, github: GithubUser): Db {
    db.(flows := map id | id in db.flows ::
          if WaitsFor(db, db.flows[id], github) then db.flows[id].(status := Done) else db.flows[id])
  }

  function Forget(db: Db, user: User): Db {
    db.(connections := db.connections - {user}, links := set l | l in db.links && l.user != user)
  }

  function SetStatus(db: Db, user: User, status: ConnectionStatus): Db {
    if user in db.connections then db.(connections := db.connections[user := db.connections[user].(status := status)])
    else db
  }

  function Purge(db: Db, now: int): Db {
    db.(flows := map id | id in db.flows && db.flows[id].expiresAt >= now - FLOW_GRACE_MS :: db.flows[id])
  }

  // ── every event ────────────────────────────────────────────────────────────

  datatype Event =
    | ECreate(id: FlowId, user: User, purpose: Purpose, stateHash: Hash, now: int)
    | EFail(id: FlowId, problem: Problem, nonce: Option<Nonce>, now: int)
    | EClaim(id: FlowId, stateHash: Hash, claimant: Nonce, now: int)
    | ERequested(id: FlowId, now: int)
    | EConnect(id: FlowId, stateHash: Hash, claimant: Nonce, github: GithubUser, kid: KeyId, isNew: bool, now: int)
    | EInstall(id: FlowId, stateHash: Hash, now: int)
    | EApproved(github: GithubUser)
    | EForget(user: User)
    | EStatus(user: User, status: ConnectionStatus)
    | EPurge(now: int)
    | EAccounts(active: set<User>)

  function Next(db: Db, e: Event): Db {
    match e
    case ECreate(id, user, purpose, stateHash, now) => Create(db, id, user, purpose, stateHash, now)
    case EFail(id, problem, nonce, now) => Fail(db, id, problem, nonce, now)
    case EClaim(id, stateHash, nonce, now) => TakeClaim(db, id, stateHash, nonce, now)
    case ERequested(id, now) => MarkRequested(db, id, now)
    case EConnect(id, stateHash, nonce, github, kid, isNew, now) =>
      CompleteConnect(db, id, stateHash, nonce, github, kid, isNew, now)
    case EInstall(id, stateHash, now) => CompleteInstall(db, id, stateHash, now)
    case EApproved(github) => CompleteRequested(db, github)
    case EForget(user) => Forget(db, user)
    case EStatus(user, status) => SetStatus(db, user, status)
    case EPurge(now) => Purge(db, now)
    case EAccounts(active) => db.(active := active)
  }

  const Empty: Db := Db(map[], map[], {}, map[], {})

  ghost predicate Run(states: seq<Db>, events: seq<Event>) {
    && |states| == |events| + 1 && states[0] == Empty
    && forall i :: 0 <= i < |events| ==> states[i + 1] == Next(states[i], events[i])
  }

  // ── one GitHub account, one person ─────────────────────────────────────────

  /** Each connected person has exactly the one link their connection says, and nobody shares a GitHub account. */
  ghost predicate OnePerAccount(db: Db) {
    && (forall u, v ::
         u in db.connections && v in db.connections && db.connections[u].github == db.connections[v].github ==> u == v)
    && (forall l :: l in db.links <==> l.user in db.connections && db.connections[l.user].github == l.github)
  }

  lemma ConnectKeeps(db: Db, e: Event)
    requires OnePerAccount(db) && e.EConnect?
    ensures OnePerAccount(Next(db, e))
  {
  }

  lemma OthersKeep(db: Db, e: Event)
    requires OnePerAccount(db) && !e.EConnect?
    ensures OnePerAccount(Next(db, e))
  {
    assert e.EForget? || e.EStatus? || (Next(db, e).connections == db.connections && Next(db, e).links == db.links);
  }

  /** In every run GitHub accounts and people correspond one to one, and links agree with connections. */
  lemma {:induction false} OneAccountPerPerson(states: seq<Db>, events: seq<Event>, k: nat)
    requires Run(states, events) && k <= |events|
    ensures OnePerAccount(states[k])
    decreases k
  {
    hide Next;
    if k > 0 {
      OneAccountPerPerson(states, events, k - 1);
      if events[k - 1].EConnect? {
        ConnectKeeps(states[k - 1], events[k - 1]);
      } else {
        OthersKeep(states[k - 1], events[k - 1]);
      }
    }
  }

  // ── a flow ends once ───────────────────────────────────────────────────────

  lemma EndedStays(db: Db, e: Event, id: FlowId)
    requires id in db.flows && Ended(db.flows[id].status)
    ensures id in Next(db, e).flows ==> Next(db, e).flows[id] == db.flows[id]
    ensures !e.EPurge? ==> id in Next(db, e).flows
  {
  }

  /** Once a flow has ended nothing changes its outcome while its row is kept. */
  lemma {:induction false} OutcomeIsFinal(states: seq<Db>, events: seq<Event>, j: nat, k: nat, id: FlowId)
    requires Run(states, events) && j <= k <= |events|
    requires id in states[j].flows && Ended(states[j].flows[id].status)
    requires forall i :: j <= i <= k ==> id in states[i].flows
    ensures id in states[k].flows && states[k].flows[id] == states[j].flows[id]
    decreases k
  {
    hide Next;
    if j < k {
      OutcomeIsFinal(states, events, j, k - 1, id);
      EndedStays(states[k - 1], events[k - 1], id);
      assert id in states[k].flows;
    }
  }

  /** Before it ends a flow may wait for an owner, once, and never goes back to pending. */
  lemma WaitsOnce(db: Db, e: Event, id: FlowId)
    requires id in db.flows && id in Next(db, e).flows
    ensures db.flows[id].status == Requested ==> Next(db, e).flows[id].status != Pending
    ensures Next(db, e).flows[id].user == db.flows[id].user && Next(db, e).flows[id].purpose == db.flows[id].purpose
    ensures Next(db, e).flows[id].status == Requested && db.flows[id].status != Requested ==>
              db.flows[id].status == Pending && db.flows[id].purpose == ToInstall
  {
  }

  // ── one confirm at a time ──────────────────────────────────────────────────

  /**
   What holds of a flow: only a connect is claimed, only an install waits, and a claim never
   outlives its flow by its own length.
   */
  predicate GoodFlow(flow: Flow) {
    && (flow.purpose == ToConnect ==> flow.status != Requested)
    && (flow.claim.Some? ==>
         flow.purpose == ToConnect && !Ended(flow.status) && flow.claim.value.until < flow.expiresAt + CLAIM_MS)
  }

  ghost predicate GoodFlows(db: Db) {
    forall id :: id in db.flows ==> GoodFlow(db.flows[id])
  }

  lemma FlowsKept(db: Db, e: Event)
    requires GoodFlows(db)
    ensures GoodFlows(Next(db, e))
  {
  }

  lemma {:induction false} FlowsStayGood(states: seq<Db>, events: seq<Event>, k: nat)
    requires Run(states, events) && k <= |events|
    ensures GoodFlows(states[k])
    decreases k
  {
    hide Next;
    if k > 0 {
      FlowsStayGood(states, events, k - 1);
      FlowsKept(states[k - 1], events[k - 1]);
    }
  }

  /** An event comes before `until`, and is none of this claimant's on this flow. */
  predicate Meanwhile(e: Event, id: FlowId, nonce: Nonce, until: int) {
    match e
    case ECreate(_, _, _, _, now) => now < until
    case EFail(flow, _, claimant, now) => now < until && (flow == id ==> claimant != Some(nonce))
    case EClaim(flow, _, claimant, now) => now < until && (flow == id ==> claimant != nonce)
    case ERequested(_, now) => now < until
    case EConnect(flow, _, claimant, _, _, _, now) => now < until && (flow == id ==> claimant != nonce)
    case EInstall(_, _, now) => now < until
    case EPurge(now) => now < until
    case _ => true
  }

  predicate HeldBy(db: Db, id: FlowId, nonce: Nonce, until: int) {
    id in db.flows && db.flows[id].claim == Some(Claim(nonce, until))
  }

  lemma ClaimLastsStep(db: Db, e: Event, id: FlowId, nonce: Nonce, until: int)
    requires GoodFlows(db) && HeldBy(db, id, nonce, until) && Meanwhile(e, id, nonce, until)
    ensures id in Next(db, e).flows && Next(db, e).flows[id] == db.flows[id]
    ensures (e.EClaim? || e.EConnect?) && e.id == id ==> Next(db, e) == db
  {
    assert GoodFlow(db.flows[id]);
  }

  /**
   From a claim until it runs out nothing anybody else does, in any order, changes
   the flow: no other request claims, fails, completes or purges it, and another's
   claim or confirm changes nothing at all.
   */
  lemma {:induction false} ClaimExcludesOthers(states: seq<Db>, events: seq<Event>, j: nat, k: nat)
    requires Run(states, events) && j < k <= |events| && events[j].EClaim?
    requires var c := events[j]; ClaimProblem(states[j], c.id, c.stateHash, c.claimant, c.now).None?
    requires var c := events[j]; forall i :: j < i < k ==> Meanwhile(events[i], c.id, c.claimant, c.now + CLAIM_MS)
    ensures var c := events[j];
            && HeldBy(states[k], c.id, c.claimant, c.now + CLAIM_MS)
            && c.id in states[j].flows
            && states[k].flows[c.id] == states[j].flows[c.id].(claim := Some(Claim(c.claimant, c.now + CLAIM_MS)))
            && (k > j + 1 && (events[k - 1].EClaim? || events[k - 1].EConnect?) && events[k - 1].id == c.id ==>
                 states[k] == states[k - 1])
    decreases k
  {
    var c := events[j];
    assert states[j + 1] == Next(states[j], c);
    if k > j + 1 {
      ClaimExcludesOthers(states, events, j, k - 1);
      FlowsStayGood(states, events, k - 1);
      ClaimLastsStep(states[k - 1], events[k - 1], c.id, c.claimant, c.now + CLAIM_MS);
    }
  }

  /** The claim of a flow is not `nonce`'s. */
  predicate NotHeldBy(db: Db, id: FlowId, nonce: Nonce) {
    id in db.flows && db.flows[id].claim.Some? ==> db.flows[id].claim.value.nonce != nonce
  }

  lemma StaysOvertaken(db: Db, e: Event, id: FlowId, nonce: Nonce)
    requires NotHeldBy(db, id, nonce) && !(e.EClaim? && e.id == id && e.claimant == nonce)
    ensures NotHeldBy(Next(db, e), id, nonce)
    ensures e.EConnect? && e.id == id && e.claimant == nonce ==> Next(db, e) == db
  {
  }

  /** A confirm whose claim another took over, or that ended, stores nothing, however late it comes. */
  lemma {:induction false} OvertakenConfirm(states: seq<Db>, events: seq<Event>, j: nat, k: nat, id: FlowId,
          nonce: Nonce)
    requires Run(states, events) && j <= k <= |events| && NotHeldBy(states[j], id, nonce)
    requires forall i :: j <= i < k ==> !(events[i].EClaim? && events[i].id == id && events[i].claimant == nonce)
    ensures NotHeldBy(states[k], id, nonce)
    ensures k < |events| && events[k].EConnect? && events[k].id == id && events[k].claimant == nonce ==>
            states[k + 1] == states[k]
    decreases k
  {
    hide Next;
    if j < k {
      OvertakenConfirm(states, events, j, k - 1, id, nonce);
      StaysOvertaken(states[k - 1], events[k - 1], id, nonce);
    }
    if k < |events| && !(events[k].EClaim? && events[k].id == id && events[k].claimant == nonce) {
      StaysOvertaken(states[k], events[k], id, nonce);
    }
  }

  /** An event that names the flow does so with another secret, or once it has expired. */
  predicate NotItsRoundTrip(e: Event, id: FlowId, flow: Flow) {
    match e
    case EClaim(i, stateHash, _, now) => i == id ==> stateHash != flow.stateHash || now >= flow.expiresAt
    case EConnect(i, stateHash, _, _, _, _, now) => i == id ==> stateHash != flow.stateHash || now >= flow.expiresAt
    case _ => true
  }

  lemma NotItsRoundTripStep(db: Db, e: Event, id: FlowId)
    requires GoodFlows(db) && id in db.flows && db.flows[id].purpose == ToConnect && db.flows[id].status != Done
    requires NotItsRoundTrip(e, id, db.flows[id]) && id in Next(db, e).flows
    ensures Next(db, e).flows[id] == db.flows[id]
            || (Next(db, e).flows[id].status == Failed
                 && Next(db, e).flows[id] == db.flows[id].(status := Failed, error := Next(db, e).flows[id].error,
                   claim := None))
  {
    assert GoodFlow(db.flows[id]);
  }

  /**
   Without its own secret, in time, a connect is never claimed and never done, whatever else
   happens while its row is kept.
   */
  lemma {:induction false} OnlyItsOwnRoundTrip(states: seq<Db>, events: seq<Event>, j: nat, k: nat, id: FlowId)
    requires Run(states, events) && j <= k <= |events| && forall i :: j <= i <= k ==> id in states[i].flows
    requires states[j].flows[id].purpose == ToConnect && states[j].flows[id].status != Done
    requires forall i :: j <= i < k ==> NotItsRoundTrip(events[i], id, states[j].flows[id])
    ensures id in states[k].flows && id in states[j].flows
    ensures states[k].flows[id].status in {states[j].flows[id].status, Failed}
    ensures states[k].flows[id].claim in {states[j].flows[id].claim, None}
    ensures states[k].flows[id].purpose == ToConnect && states[k].flows[id].stateHash == states[j].flows[id].stateHash
    ensures states[k].flows[id].expiresAt == states[j].flows[id].expiresAt
    decreases k
  {
    hide Next;
    if j < k {
      OnlyItsOwnRoundTrip(states, events, j, k - 1, id);
      FlowsStayGood(states, events, k - 1);
      assert states[k] == Next(states[k - 1], events[k - 1]) && id in states[k].flows;
      NotItsRoundTripStep(states[k - 1], events[k - 1], id);
    }
  }

  /** Losing the race for the person's data key changes nothing: sealing again under the winner's key connects. */
  lemma SealAgainConnects(db: Db, id: FlowId, stateHash: Hash, nonce: Nonce, github: GithubUser, kid: KeyId,
          isNew: bool, now: int)
    requires ConnectAnswer(db, id, stateHash, nonce, github, kid, isNew, now) == SealAgain
    ensures CompleteConnect(db, id, stateHash, nonce, github, kid, isNew, now) == db
    ensures var user := db.flows[id].user;
            if user in db.keys
            then ConnectAnswer(db, id, stateHash, nonce, github, db.keys[user], false, now) == Connected
            else ConnectAnswer(db, id, stateHash, nonce, github, kid, true, now) == Connected
  {
  }

  /** What a connect that went through leaves. */
  lemma ConnectedMeans(db: Db, id: FlowId, stateHash: Hash, nonce: Nonce, github: GithubUser, kid: KeyId, isNew: bool,
          now: int)
    requires OnePerAccount(db) && ConnectAnswer(db, id, stateHash, nonce, github, kid, isNew, now) == Connected
    ensures var next := CompleteConnect(db, id, stateHash, nonce, github, kid, isNew, now);
            var user := db.flows[id].user;
            && next.flows[id].status == Done && next.connections[user] == Connection(github, Active)
            && (forall l: Link :: l in next.links && l.user == user ==> l == Link(user, github))
            && (forall u :: u != user ==>
                 (u in next.connections <==> u in db.connections)
                 && (u in db.connections ==> next.connections[u] == db.connections[u]))
            && (forall l: Link :: l.user != user ==> (l in next.links <==> l in db.links))
  {
  }

  class Flows {
    var flows: map<FlowId, Flow>
    var connections: map<User, Connection>
    var links: set<Link>
    var keys: map<User, KeyId>
    var active: set<User>

    function State(): Db
      reads this
    {
      Db(flows, connections, links, keys, active)
    }

    constructor ()
      ensures State() == Empty
    {
      flows, connections, links, keys, active := map[], map[], {}, map[], {};
    }

    method FailFlow(id: FlowId, error: Problem, nonce: Option<Nonce>, now: int)
      modifies this
      ensures State() == Fail(old(State()), id, error, nonce, now)
    {
      if id !in flows || Ended(flows[id].status) || HeldByOther(flows[id], nonce, now) {
        return;
      }
      flows := flows[id := flows[id].(status := Failed, error := Some(error), claim := None)];
    }

    method ClaimFlow(id: FlowId, stateHash: Hash, nonce: Nonce, now: int) returns (problem: Option<Problem>)
      modifies this
      ensures State() == TakeClaim(old(State()), id, stateHash, nonce, now)
      ensures problem == ClaimProblem(old(State()), id, stateHash, nonce, now)
    {
      problem := FlowProblem(Find(State(), id), ToConnect, stateHash, now);
      if problem.Some? {
        return;
      }
      if HeldByOther(flows[id], Some(nonce), now) {
        return Some(Busy);
      }
      flows := flows[id := flows[id].(claim := Some(Claim(nonce, now + CLAIM_MS)))];
    }

    method Complete(id: FlowId, stateHash: Hash, nonce: Nonce, github: GithubUser, kid: KeyId, isNew: bool, now: int)
      returns (answer: Connected)
      modifies this
      ensures State() == CompleteConnect(old(State()), id, stateHash, nonce, github, kid, isNew, now)
      ensures answer == ConnectAnswer(old(State()), id, stateHash, nonce, github, kid, isNew, now)
    {
      var problem := FlowProblem(Find(State(), id), ToConnect, stateHash, now);
      if problem.Some? {
        return Refused(problem.value);
      }
      var flow := flows[id];
      if flow.claim.None? || flow.claim.value.nonce != nonce {
        return Refused(FlowUsed);
      }
      if flow.user !in active {
        return Refused(FlowNotFound);
      }
      if TakenByOther(State(), github, flow.user) {
        flows := flows[id := flow.(status := Failed, error := Some(AccountAlreadyLinked), claim := None)];
        return Refused(AccountAlreadyLinked);
      }
      if isNew {
        if flow.user in keys {
          return SealAgain;
        }
        keys := keys[flow.user := kid];
      } else if flow.user !in keys || keys[flow.user] != kid {
        return SealAgain;
      }
      connections := connections[flow.user := Connection(github, Active)];
      Relink(flow.user, github);
      flows := flows[id := flow.(status := Done, claim := None)];
      return Connected.Connected;
    }

    /** The person's GitHub link, replacing one to another GitHub account. */
    method Relink(user: User, github: GithubUser)
      modifies this`links
      ensures links == (set l | l in old(links) && (l.user != user || l.github == github)) + {Link(user, github)}
    {
      var left := links;
      ghost var was := links;
      while left != {}
        invariant left <= was
        invariant forall l :: l in links <==> l in was && (l in left || l.user != user || l.github == github)
      {
        var l :| l in left;
        left := left - {l};
        if l.user == user && l.github != github {
          links := links - {l};
        }
      }
      if Link(user, github) !in links {
        links := links + {Link(user, github)};
      }
    }

    /** The webhook's half: every flow of the requester that waits is done. */
    method CompleteRequestedFlows(github: GithubUser)
      requires OnePerAccount(State())
      modifies this`flows
      ensures State() == CompleteRequested(old(State()), github)
    {
      ghost var was := flows;
      if !exists u :: u in connections && connections[u].github == github {
        assert flows == CompleteRequested(State(), github).flows;
        return;
      }
      var user :| user in connections && connections[user].github == github;
      var left := flows.Keys;
      while left != {}
        invariant left <= was.Keys && flows.Keys == was.Keys
        invariant forall id :: id in flows ==>
                  flows[id] == if id !in left && was[id].user == user && was[id].status == Requested
                  then was[id].(status := Done) else was[id]
      {
        var id :| id in left;
        left := left - {id};
        if flows[id].user == user && flows[id].status == Requested {
          flows := flows[id := flows[id].(status := Done)];
        }
      }
    }
  }
}
