/**
 When each step of a browser round trip goes through, what it answers otherwise and
 what it leaves, said by the values of the flow.
 */
module GithubFlowsAnswers {
  import opened Wrappers
  import opened GithubFlows

  /** The flow this request carries the secret of, for this purpose. */
  predicate Carries(db: Db, id: FlowId, purpose: Purpose, stateHash: Hash) {
    id in db.flows && db.flows[id].purpose == purpose && db.flows[id].stateHash == stateHash
  }

  /** Why a request that carries a flow's secret is refused, if it is. */
  function Late(flow: Flow, now: int): Option<Problem> {
    if flow.status == Done || flow.status == Failed then Some(FlowUsed)
    else if now >= flow.expiresAt then Some(FlowExpired)
    else None
  }

  lemma FlowProblemMeans(db: Db, id: FlowId, purpose: Purpose, stateHash: Hash, now: int)
    ensures FlowProblem(Find(db, id), purpose, stateHash, now) ==
              if !Carries(db, id, purpose, stateHash) then Some(FlowNotFound) else Late(db.flows[id], now)
  {
  }

  /** Somebody else's confirm is under way. */
  predicate Claimed(flow: Flow, mine: Option<Nonce>, now: int) {
    flow.claim.Some? && now < flow.claim.value.until && mine != Some(flow.claim.value.nonce)
  }

  /** A flow starts, pending for ten minutes, under a new id; an install only for a person connected and active. */
  lemma CreatedExactlyWhen(db: Db, id: FlowId, user: User, purpose: Purpose, stateHash: Hash, now: int)
    ensures Create(db, id, user, purpose, stateHash, now) ==
              if id !in db.flows
                 && (purpose == ToConnect || (user in db.connections && db.connections[user].status == Active))
              then db.(flows := db.flows[id := Flow(user, purpose, stateHash, Pending, None, None, now + 600_000)])
              else db
  {
  }

  /** A confirm claims the flow for a minute exactly when it carries its secret in time and no other holds it. */
  lemma ClaimedExactlyWhen(db: Db, id: FlowId, stateHash: Hash, nonce: Nonce, now: int)
    ensures var problem := ClaimProblem(db, id, stateHash, nonce, now);
            && problem == (if !Carries(db, id, ToConnect, stateHash) then Some(FlowNotFound)
                           else if Late(db.flows[id], now).Some? then Late(db.flows[id], now)
                           else if Claimed(db.flows[id], Some(nonce), now) then Some(Busy)
                           else None)
            && TakeClaim(db, id, stateHash, nonce, now) ==
                 if problem.Some? then db
                 else db.(flows := db.flows[id := db.flows[id].(claim := Some(Claim(nonce, now + 60_000)))])
  {
  }

  /** A failure ends an open flow that no other confirm holds, with its reason; any other flow it leaves. */
  lemma FailedExactlyWhen(db: Db, id: FlowId, error: Problem, nonce: Option<Nonce>, now: int)
    ensures Fail(db, id, error, nonce, now) ==
              if id in db.flows && (db.flows[id].status == Pending || db.flows[id].status == Requested)
                 && !Claimed(db.flows[id], nonce, now)
              then db.(flows := db.flows[id := db.flows[id].(status := Failed, error := Some(error), claim := None)])
              else db
  {
    if id in db.flows {
      match db.flows[id].status
      case _ =>
    }
  }

  /** Another person has this GitHub account, connected or linked. */
  predicate AnothersAccount(db: Db, user: User, github: GithubUser) {
    || (exists u :: u in db.connections && u != user && db.connections[u].github == github)
    || (exists l :: l in db.links && l.user != user && l.github == github)
  }

  /** The token is sealed under the person's data key, or brings their first. */
  predicate SealedRight(db: Db, user: User, kid: KeyId, isNew: bool) {
    if user in db.keys then !isNew && db.keys[user] == kid else isNew
  }

  /**
   What a connect answers, in this order: the flow's own problem; that this confirm
   does not hold it; that the person's account is gone; that the GitHub account is
   another's; that the token must be sealed again; else it is connected.
   */
  lemma ConnectAnswers(db: Db, id: FlowId, stateHash: Hash, nonce: Nonce, github: GithubUser, kid: KeyId, isNew: bool,
          now: int)
    ensures ConnectAnswer(db, id, stateHash, nonce, github, kid, isNew, now) ==
              if !Carries(db, id, ToConnect, stateHash) then Refused(FlowNotFound)
              else if Late(db.flows[id], now).Some? then Refused(Late(db.flows[id], now).value)
              else if !(db.flows[id].claim.Some? && db.flows[id].claim.value.nonce == nonce) then Refused(FlowUsed)
              else if db.flows[id].user !in db.active then Refused(FlowNotFound)
              else if AnothersAccount(db, db.flows[id].user, github) then Refused(AccountAlreadyLinked)
              else if !SealedRight(db, db.flows[id].user, kid, isNew) then SealAgain
              else Connected
  {
  }

  /** Another's account fails the flow for good; a connect stores the key it brings; any other answer stores nothing. */
  lemma ConnectLeaves(db: Db, id: FlowId, stateHash: Hash, nonce: Nonce, github: GithubUser, kid: KeyId, isNew: bool,
          now: int)
    ensures var next := CompleteConnect(db, id, stateHash, nonce, github, kid, isNew, now);
            match ConnectAnswer(db, id, stateHash, nonce, github, kid, isNew, now)
            case Connected =>
              && (forall u :: u != db.flows[id].user ==> (u in next.keys <==> u in db.keys))
              && (forall u :: u in db.keys ==> u in next.keys && next.keys[u] == db.keys[u])
              && db.flows[id].user in next.keys && next.keys[db.flows[id].user] == kid
              && next.flows == db.flows[id := db.flows[id].(status := Done, claim := None)]
            case Refused(AccountAlreadyLinked) =>
              next == db.(flows := db.flows[id := db.flows[id].(status := Failed, claim := None,
                                                                error := Some(AccountAlreadyLinked))])
            case _ => next == db
  {
    ConnectAnswers(db, id, stateHash, nonce, github, kid, isNew, now);
  }

  /**
   A round trip goes through: from a claim that was granted, the same confirm, in
   time, for an active person and an account nobody else has, connects that person
   to that account and ends the flow.
   */
  lemma RoundTripConnects(db: Db, id: FlowId, stateHash: Hash, nonce: Nonce, github: GithubUser, kid: KeyId,
          isNew: bool, claimedAt: int, now: int)
    requires ClaimProblem(db, id, stateHash, nonce, claimedAt).None? && now < db.flows[id].expiresAt
    requires db.flows[id].user in db.active && !AnothersAccount(db, db.flows[id].user, github)
    requires SealedRight(db, db.flows[id].user, kid, isNew)
    ensures var claimed := TakeClaim(db, id, stateHash, nonce, claimedAt);
            var user := db.flows[id].user;
            var next := CompleteConnect(claimed, id, stateHash, nonce, github, kid, isNew, now);
            && ConnectAnswer(claimed, id, stateHash, nonce, github, kid, isNew, now) == Connected
            && next.flows[id].status == Done && next.connections[user] == Connection(github, Active)
            && Link(user, github) in next.links
  {
    ClaimedExactlyWhen(db, id, stateHash, nonce, claimedAt);
    ConnectAnswers(TakeClaim(db, id, stateHash, nonce, claimedAt), id, stateHash, nonce, github, kid, isNew, now);
    ConnectLeaves(TakeClaim(db, id, stateHash, nonce, claimedAt), id, stateHash, nonce, github, kid, isNew, now);
  }

  /** An install waits for an owner, two weeks, exactly from pending; it is done exactly by its own round trip. */
  lemma InstallsExactlyWhen(db: Db, id: FlowId, stateHash: Hash, now: int)
    ensures MarkRequested(db, id, now) ==
              (if id in db.flows && db.flows[id].purpose == ToInstall && db.flows[id].status == Pending
               then db.(flows := db.flows[id := db.flows[id].(status := Requested, expiresAt := now + 1_209_600_000)])
               else db)
    ensures CompleteInstall(db, id, stateHash, now) ==
              if Carries(db, id, ToInstall, stateHash) && Late(db.flows[id], now).None?
                 && db.flows[id].user in db.active
              then db.(flows := db.flows[id := db.flows[id].(status := Done)]) else db
  {
  }

  /** An owner's approval ends exactly the waiting flows of the person with that GitHub account. */
  lemma ApprovedExactly(db: Db, github: GithubUser)
    ensures var next := CompleteRequested(db, github);
            && next == db.(flows := next.flows) && next.flows.Keys == db.flows.Keys
            && forall id :: id in db.flows ==>
                 next.flows[id] ==
                   if db.flows[id].status == Requested && db.flows[id].user in db.connections
                      && db.connections[db.flows[id].user].github == github
                   then db.flows[id].(status := Done) else db.flows[id]
  {
  }

  /** Disconnecting takes the person's connection and links alone; a purge takes flows an hour past their end. */
  lemma ForgetAndPurge(db: Db, user: User, now: int)
    ensures var next := Forget(db, user);
            && next == db.(connections := db.connections - {user}, links := next.links)
            && forall l :: l in next.links <==> l in db.links && l.user != user
    ensures var next := Purge(db, now);
            && next == db.(flows := next.flows)
            && (forall id :: id in next.flows <==> id in db.flows && db.flows[id].expiresAt + 3_600_000 >= now)
            && forall id :: id in next.flows ==> next.flows[id] == db.flows[id]
  {
  }

  // ── how long a connection lasts ────────────────────────────────────────────

  /** The person disconnects, GitHub's answers change their connection's status, or a confirm of theirs succeeds. */
  ghost predicate Touches(db: Db, e: Event, user: User) {
    match e
    case EForget(u) => u == user
    case EStatus(u, _) => u == user
    case EConnect(id, stateHash, nonce, github, kid, isNew, now) =>
      && id in db.flows && db.flows[id].user == user && db.flows[id].claim.Some?
      && db.flows[id].claim.value.nonce == nonce && now < db.flows[id].expiresAt
    case _ => false
  }

  /** Each event changes the connections only of the people it concerns, and a status change leaves the account. */
  lemma ConnectionStep(db: Db, e: Event, user: User)
    ensures var next := Next(db, e);
            && (!Touches(db, e, user) ==>
                  (user in next.connections <==> user in db.connections)
                  && (user in db.connections ==> next.connections[user] == db.connections[user]))
            && (e.EStatus? && e.user in db.connections ==>
                  next == db.(connections :=
                    db.connections[e.user := Connection(db.connections[e.user].github, e.status)]))
  {
    if e.EConnect? {
      ConnectAnswers(db, e.id, e.stateHash, e.claimant, e.github, e.kid, e.isNew, e.now);
      ConnectedKeepsOthers(db, e, user);
    }
  }

  lemma ConnectedKeepsOthers(db: Db, e: Event, user: User)
    requires e.EConnect?
    ensures var next := Next(db, e);
            next.connections != db.connections ==>
              && ConnectAnswer(db, e.id, e.stateHash, e.claimant, e.github, e.kid, e.isNew, e.now).Connected?
              && next.connections == db.connections[db.flows[e.id].user := Connection(e.github, Active)]
  {
  }

  /** A person's connection stays what it is through any run in which nothing concerns it, whatever others do. */
  lemma {:induction false} ConnectionLasts(states: seq<Db>, events: seq<Event>, j: nat, k: nat, user: User)
    requires Run(states, events) && j <= k <= |events|
    requires forall i :: j <= i < k ==> !Touches(states[i], events[i], user)
    ensures user in states[k].connections <==> user in states[j].connections
    ensures user in states[j].connections ==> states[k].connections[user] == states[j].connections[user]
    decreases k
  {
    hide Next, Touches;
    if j < k {
      ConnectionLasts(states, events, j, k - 1, user);
      ConnectionStep(states[k - 1], events[k - 1], user);
    }
  }
}
