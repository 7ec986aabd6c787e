/**
 Refreshing one person's GitHub tokens. A refresh token is single use, so of the
 callers that find the access token due exactly one may refresh: the one that
 takes the lease. Callers are small programs whose steps interleave with each
 other, with a reconnect, a revoke and a disconnect, and with the clock.
 */
module GithubRefresh {
  import opened Wrappers

  const TOKEN_REFRESH_MARGIN_MS := 1_800_000
  const REFRESH_LEASE_MS := 60_000
  const WAIT_STEPS: nat := 20

  type Token = nat
  type Nonce = nat
  type CallerId = nat

  datatype Status = Active | NeedsReconnect | Revoked
  datatype Lease = Lease(nonce: Nonce, until: int)
  datatype Tokens = Tokens(access: Token, refresh: Token)
  datatype Connection = Connection(
    status: Status, tokens: Option<Tokens>, accessExpiresAt: int, refreshExpiresAt: int, lease: Option<Lease>)

  datatype Pair = Pair(access: Token, refresh: Token, accessExpiresAt: int, refreshExpiresAt: int)
  /** How GitHub answers a refresh. */
  datatype Reply = Refreshed(pair: Pair) | BadRefreshToken | Unavailable
  datatype Mint = Minted(token: Token, useUntil: int) | Refused | GithubUnavailable

  datatype Decision = Use | Refresh | NotConnected | Reconnect

  function UseUntil(accessExpiresAt: int): int {
    accessExpiresAt - TOKEN_REFRESH_MARGIN_MS
  }

  function Decide(row: Option<Connection>, now: int): Decision {
    if row.None? || row.value.status == Revoked || row.value.tokens.None? then NotConnected
    else if row.value.status == NeedsReconnect then Reconnect
    else if now < UseUntil(row.value.accessExpiresAt) then Use
    else if now >= row.value.refreshExpiresAt then Reconnect
    else Refresh
  }

  predicate LeaseFree(lease: Option<Lease>, now: int) {
    lease.None? || lease.value.until <= now
  }

  // ── the mutations ──────────────────────────────────────────────────────────

  predicate MayBegin(row: Option<Connection>, now: int) {
    row.Some? && row.value.status == Active && now >= UseUntil(row.value.accessExpiresAt)
      && LeaseFree(row.value.lease, now)
  }

  function BeginRefresh(row: Option<Connection>, nonce: Nonce, now: int): Option<Connection> {
    if MayBegin(row, now) then Some(row.value.(lease := Some(Lease(nonce, now + REFRESH_LEASE_MS)))) else row
  }

  predicate Holds(row: Option<Connection>, nonce: Nonce) {
    row.Some? && row.value.lease.Some? && row.value.lease.value.nonce == nonce
  }

  function CompleteRefresh(row: Option<Connection>, nonce: Nonce, pair: Pair): Option<Connection> {
    if Holds(row, nonce)
    then Some(row.value.(tokens := Some(Tokens(pair.access, pair.refresh)), accessExpiresAt := pair.accessExpiresAt,
                         refreshExpiresAt := pair.refreshExpiresAt, lease := None))
    else row
  }

  function EndRefresh(row: Option<Connection>, nonce: Nonce, needsReconnect: bool): Option<Connection> {
    if Holds(row, nonce)
    then Some(row.value.(lease := None, status := if needsReconnect then NeedsReconnect else row.value.status))
    else row
  }

  /** A connect that went through, for a person with or without a connection. */
  function Connect(pair: Pair): Option<Connection> {
    Some(Connection(Active, Some(Tokens(pair.access, pair.refresh)), pair.accessExpiresAt, pair.refreshExpiresAt, None))
  }

  function Revoke(row: Option<Connection>): Option<Connection> {
    if row.None? then row else Some(row.value.(status := Revoked, tokens := None, lease := None))
  }

  /** The mutations over the row they patch. */
  class TokenRow {
    var row: Option<Connection>

    constructor ()
      ensures row == None
    {
      row := None;
    }

    method Begin(nonce: Nonce, now: int) returns (began: bool)
      modifies this
      ensures row == BeginRefresh(old(row), nonce, now) && began == MayBegin(old(row), now)
    {
      if row.None? || row.value.status != Active {
        return false;
      }
      if now < UseUntil(row.value.accessExpiresAt) || !LeaseFree(row.value.lease, now) {
        return false;
      }
      row := Some(row.value.(lease := Some(Lease(nonce, now + REFRESH_LEASE_MS))));
      return true;
    }

    method Complete(nonce: Nonce, pair: Pair) returns (stored: bool)
      modifies this
      ensures row == CompleteRefresh(old(row), nonce, pair) && stored == Holds(old(row), nonce)
      ensures stored ==> row == Some(Connection(old(row).value.status, Some(Tokens(pair.access, pair.refresh)),
                                                pair.accessExpiresAt, pair.refreshExpiresAt, None))
      ensures !stored ==> row == old(row)
    {
      if row.None? || row.value.lease.None? || row.value.lease.value.nonce != nonce {
        return false;
      }
      row := Some(row.value.(tokens := Some(Tokens(pair.access, pair.refresh)), accessExpiresAt := pair.accessExpiresAt,
                             refreshExpiresAt := pair.refreshExpiresAt, lease := None));
      return true;
    }

    method End(nonce: Nonce, needsReconnect: bool)
      modifies this
      ensures row == EndRefresh(old(row), nonce, needsReconnect)
      ensures !Holds(old(row), nonce) ==> row == old(row)
      ensures Holds(old(row), nonce) && !needsReconnect ==> row == Some(old(row).value.(lease := None))
      ensures Holds(old(row), nonce) && needsReconnect ==>
                row == Some(old(row).value.(lease := None, status := NeedsReconnect))
    {
      if row.None? || row.value.lease.None? || row.value.lease.value.nonce != nonce {
        return;
      }
      row := Some(row.value.(lease := None));
      if needsReconnect {
        row := Some(row.value.(status := NeedsReconnect));
      }
    }

    /**
     The refresh by a caller nobody interrupts: on every way out it no longer holds the
     lease. A refused token asks for a reconnect; GitHub being unavailable changes
     nothing else.
     */
    method RefreshHoldingLease(nonce: Nonce, reply: Reply) returns (result: Option<Mint>)
      modifies this
      ensures !Holds(row, nonce)
      ensures row == match reply
        case Refreshed(pair) => CompleteRefresh(old(row), nonce, pair)
        case BadRefreshToken => EndRefresh(old(row), nonce, true)
        case Unavailable => EndRefresh(old(row), nonce, false)
      ensures !Holds(old(row), nonce) ==> row == old(row)
      ensures Holds(old(row), nonce) ==>
                var was := old(row).value;
                match reply
                case Refreshed(pair) =>
                  row == Some(Connection(was.status, Some(Tokens(pair.access, pair.refresh)), pair.accessExpiresAt,
                                         pair.refreshExpiresAt, None))
                case BadRefreshToken => row == Some(was.(status := NeedsReconnect, lease := None))
                case Unavailable => row == Some(was.(lease := None))
      ensures result ==
                match reply
                case Refreshed(pair) =>
                  if Holds(old(row), nonce) then Some(Minted(pair.access, pair.accessExpiresAt - 1_800_000)) else None
                case BadRefreshToken => Some(Refused)
                case Unavailable => Some(GithubUnavailable)
    {
      var stored, needsReconnect := false, false;
      match reply {
        case BadRefreshToken =>
          needsReconnect := true;
          result := Some(Refused);
        case Unavailable => result := Some(GithubUnavailable);
        case Refreshed(pair) =>
          stored := Complete(nonce, pair);
          result := if stored then Some(Minted(pair.access, UseUntil(pair.accessExpiresAt))) else None;
      }
      if !stored {
        End(nonce, needsReconnect);
      }
    }
  }

  // ── callers ────────────────────────────────────────────────────────────────

  /**
   Where a caller is: about to read; about to take the lease with what it read;
   refreshing (before and after GitHub answers); about to release the lease;
   returned.
   */
  datatype Pc =
    | ToRead
    | ToBegin(token: Token, readAt: int)
    | ToSend(token: Token, nonce: Nonce, begunAt: int)
    | Sent(token: Token, nonce: Nonce, begunAt: int)
    | Replied(token: Token, nonce: Nonce, begunAt: int, reply: Reply)
    | ToEnd(token: Token, nonce: Nonce, begunAt: int, needsReconnect: bool, result: Option<Mint>)
    | Returned(mint: Mint)
  datatype Caller = Caller(step: nat, pc: Pc)

  /**
   `issued` are the tokens GitHub ever gave, `spent` the refresh tokens whose successor was stored,
   `nonces` those drawn.
   */
  datatype Db = Db(
    row: Option<Connection>, callers: map<CallerId, Caller>, now: int, issued: set<Token>,
    spent: set<Token>, nonces: set<Nonce>
  )

  datatype Event =
    | ECall(c: CallerId, now: int)
    | ERead(c: CallerId, now: int)
    | EBegin(c: CallerId, nonce: Nonce, now: int)
    | ESend(c: CallerId, now: int)
    | EReply(c: CallerId, reply: Reply, now: int)
    | EComplete(c: CallerId, now: int)
    | EEnd(c: CallerId, now: int)
    | ECrash(c: CallerId, now: int)
    | EConnect(pair: Pair, now: int)
    | ERevoke(now: int)
    | EForget(now: int)

  predicate Fresh(db: Db, pair: Pair) {
    pair.access !in db.issued && pair.refresh !in db.issued && pair.access != pair.refresh
  }

  /** The clock does not run back; nonces and GitHub's tokens are new. */
  predicate Legal(db: Db, e: Event) {
    && e.now >= db.now
    && match e
       case ECall(c, _) => c !in db.callers
       case EBegin(_, nonce, _) => nonce !in db.nonces
       case EReply(_, reply, _) => reply.Refreshed? ==> Fresh(db, reply.pair)
       case EConnect(pair, _) => Fresh(db, pair)
       case _ => true
  }

  function Put(db: Db, c: CallerId, pc: Pc): Db
    requires c in db.callers
  {
    db.(callers := db.callers[c := db.callers[c].(pc := pc)])
  }

  function Issue(db: Db, pair: Pair): Db {
    db.(issued := db.issued + {pair.access, pair.refresh})
  }

  function Read(db: Db, c: CallerId): Db
    requires c in db.callers
  {
    if db.callers[c].pc != ToRead then db
    else
      match Decide(db.row, db.now)
      case Use => Put(db, c, Returned(Minted(db.row.value.tokens.value.access, UseUntil(db.row.value.accessExpiresAt))))
      case Refresh => Put(db, c, ToBegin(db.row.value.tokens.value.refresh, db.now))
      case _ => Put(db, c, Returned(Refused))
  }

  /** Reading again, or giving up after the last step. */
  function Again(db: Db, c: CallerId): Db
    requires c in db.callers
  {
    var step := db.callers[c].step;
    if step >= WAIT_STEPS then Put(db, c, Returned(GithubUnavailable))
    else db.(callers := db.callers[c := Caller(step + 1, ToRead)])
  }

  function Begin(db: Db, c: CallerId, nonce: Nonce): Db
    requires c in db.callers
  {
    var pc := db.callers[c].pc;
    if !pc.ToBegin? then db
    else if MayBegin(db.row, db.now)
    then Put(db, c, ToSend(pc.token, nonce, db.now)).(row := BeginRefresh(db.row, nonce, db.now),
           nonces := db.nonces + {nonce})
    else Again(db, c)
  }

  function GetReply(db: Db, c: CallerId, reply: Reply): Db
    requires c in db.callers
  {
    var pc := db.callers[c].pc;
    if !pc.Sent? then db
    else
      var got := Put(db, c, match reply
        case Refreshed(_) => Replied(pc.token, pc.nonce, pc.begunAt, reply)
        case BadRefreshToken => ToEnd(pc.token, pc.nonce, pc.begunAt, true, Some(Refused))
        case Unavailable => ToEnd(pc.token, pc.nonce, pc.begunAt, false, Some(GithubUnavailable)));
      if reply.Refreshed? then Issue(got, reply.pair) else got
  }

  function Complete(db: Db, c: CallerId): Db
    requires c in db.callers
  {
    var pc := db.callers[c].pc;
    if !(pc.Replied? && pc.reply.Refreshed?) then db
    else
      var pair := pc.reply.pair;
      if Holds(db.row, pc.nonce)
      then Put(db, c, Returned(Minted(pair.access, UseUntil(pair.accessExpiresAt))))
             .(row := CompleteRefresh(db.row, pc.nonce, pair), spent := db.spent + {pc.token})
      else Put(db, c, ToEnd(pc.token, pc.nonce, pc.begunAt, false, None))
  }

  /** The `finally`: on every way out but a stored pair. */
  function End(db: Db, c: CallerId): Db
    requires c in db.callers
  {
    var pc := db.callers[c].pc;
    if !pc.ToEnd? then db
    else
      var ended := db.(row := EndRefresh(db.row, pc.nonce, pc.needsReconnect));
      if pc.result.Some? then Put(ended, c, Returned(pc.result.value)) else Again(ended, c)
  }

  function Next(was: Db, e: Event): Db {
    var db := was.(now := if e.now > was.now then e.now else was.now);
    match e
    case ECall(c, _) => if c in db.callers then db else db.(callers := db.callers[c := Caller(0, ToRead)])
    case ERead(c, _) => if c in db.callers then Read(db, c) else db
    case EBegin(c, nonce, _) => if c in db.callers then Begin(db, c, nonce) else db
    case ESend(c, _) =>
      if c in db.callers && db.callers[c].pc.ToSend?
      then Put(db, c, Sent(db.callers[c].pc.token, db.callers[c].pc.nonce, db.callers[c].pc.begunAt)) else db
    case EReply(c, reply, _) => if c in db.callers then GetReply(db, c, reply) else db
    case EComplete(c, _) => if c in db.callers then Complete(db, c) else db
    case EEnd(c, _) => if c in db.callers then End(db, c) else db
    case ECrash(c, _) => db.(callers := db.callers - {c})
    case EConnect(pair, _) => Issue(db.(row := Connect(pair)), pair)
    case ERevoke(_) => db.(row := Revoke(db.row))
    case EForget(_) => db.(row := None)
  }

  /** Nobody connected yet. */
  function Start(now: int): Db {
    Db(None, map[], now, {}, {}, {})
  }

  ghost predicate Run(states: seq<Db>, events: seq<Event>) {
    && |states| == |events| + 1 && states[0] == Start(states[0].now)
    && forall i :: 0 <= i < |events| ==> Legal(states[i], events[i]) && states[i + 1] == Next(states[i], events[i])
  }

  // ── a caller mid-refresh ───────────────────────────────────────────────────

  predicate Refreshing(c: Caller) {
    c.pc.ToSend? || c.pc.Sent? || c.pc.Replied? || c.pc.ToEnd?
  }

  function NonceOf(c: Caller): Nonce
    requires Refreshing(c)
  {
    c.pc.nonce
  }

  /** Its request may be at GitHub, or about to be. */
  predicate InFlight(c: Caller) {
    c.pc.ToSend? || c.pc.Sent? || c.pc.Replied?
  }

  // ── without any timing assumption ──────────────────────────────────────────

  /** Nonces are drawn once; a stored lease belongs to a caller that is still refreshing, or that crashed. */
  ghost predicate NoncesHeld(db: Db) {
    && (forall c :: c in db.callers && Refreshing(db.callers[c]) ==> NonceOf(db.callers[c]) in db.nonces)
    && (db.row.Some? && db.row.value.lease.Some? ==> db.row.value.lease.value.nonce in db.nonces)
    && (forall c, d ::
         c in db.callers && d in db.callers && c != d && Refreshing(db.callers[c]) && Refreshing(db.callers[d]) ==>
          NonceOf(db.callers[c]) != NonceOf(db.callers[d]))
  }

  /** A caller starts refreshing only by taking the lease with a nonce of its own. */
  lemma RefreshingFrom(db: Db, e: Event, c: CallerId)
    requires c in Next(db, e).callers && Refreshing(Next(db, e).callers[c])
    ensures (c in db.callers && Refreshing(db.callers[c]) && NonceOf(Next(db, e).callers[c]) == NonceOf(db.callers[c]))
            || (e.EBegin? && e.c == c && NonceOf(Next(db, e).callers[c]) == e.nonce && e.nonce in Next(db, e).nonces)
    ensures db.nonces <= Next(db, e).nonces
  {
  }

  lemma LeaseFrom(db: Db, e: Event)
    requires Next(db, e).row.Some? && Next(db, e).row.value.lease.Some?
    ensures (db.row.Some? && db.row.value.lease == Next(db, e).row.value.lease)
            || (e.EBegin? && Next(db, e).row.value.lease.value.nonce == e.nonce && e.nonce in Next(db, e).nonces)
    ensures db.nonces <= Next(db, e).nonces
  {
  }

  lemma NoncesKept(db: Db, e: Event)
    requires NoncesHeld(db) && Legal(db, e)
    ensures NoncesHeld(Next(db, e))
  {
    hide Next;
    var next := Next(db, e);
    forall c | c in next.callers && Refreshing(next.callers[c])
      ensures NonceOf(next.callers[c]) in next.nonces
    {
      RefreshingFrom(db, e, c);
    }
    if next.row.Some? && next.row.value.lease.Some? {
      LeaseFrom(db, e);
    }
    forall c, d | c in next.callers && d in next.callers && c != d && Refreshing(next.callers[c])
        && Refreshing(next.callers[d])
      ensures NonceOf(next.callers[c]) != NonceOf(next.callers[d])
    {
      RefreshingFrom(db, e, c);
      RefreshingFrom(db, e, d);
    }
  }

  lemma {:induction false} NoncesAlways(states: seq<Db>, events: seq<Event>, k: nat)
    requires Run(states, events) && k <= |events|
    ensures NoncesHeld(states[k])
    decreases k
  {
    hide Next;
    if k > 0 {
      NoncesAlways(states, events, k - 1);
      NoncesKept(states[k - 1], events[k - 1]);
    }
  }

  /** A caller whose lease is gone, by a takeover, a reconnect, a revoke or a disconnect. */
  predicate Overtaken(db: Db, c: CallerId) {
    c in db.callers && Refreshing(db.callers[c]) && !Holds(db.row, NonceOf(db.callers[c]))
  }

  /** It stays overtaken until it has released what it does not hold, and none of its steps changes the row. */
  lemma OvertakenChangesNothing(db: Db, e: Event, c: CallerId)
    requires NoncesHeld(db) && Legal(db, e) && Overtaken(db, c)
    ensures e in {ESend(c, e.now), EComplete(c, e.now), EEnd(c, e.now), ERead(c, e.now), ECrash(c, e.now)} ==>
            Next(db, e).row == db.row
    ensures e.EReply? && e.c == c ==> Next(db, e).row == db.row
    ensures Overtaken(Next(db, e), c)
            || (c in Next(db, e).callers && !Refreshing(Next(db, e).callers[c])) || c !in Next(db, e).callers
  {
  }

  lemma OvertakenStays(db: Db, e: Event, nonce: Nonce)
    requires NoncesHeld(db) && Legal(db, e) && nonce in db.nonces && !Holds(db.row, nonce)
    ensures nonce in Next(db, e).nonces && !Holds(Next(db, e).row, nonce)
  {
    if Next(db, e).row.Some? && Next(db, e).row.value.lease.Some? {
      LeaseFrom(db, e);
    }
  }

  /**
   Over any run, whatever the timing: a refresh that was overtaken never holds the
   lease again, so neither its late pair nor its late refusal reaches the row.
   */
  lemma {:induction false} OvertakenForGood(states: seq<Db>, events: seq<Event>, j: nat, k: nat, nonce: Nonce,
          pair: Pair, needsReconnect: bool)
    requires Run(states, events) && j <= k <= |events| && nonce in states[j].nonces && !Holds(states[j].row, nonce)
    ensures nonce in states[k].nonces && !Holds(states[k].row, nonce)
    ensures CompleteRefresh(states[k].row, nonce, pair) == states[k].row
    ensures EndRefresh(states[k].row, nonce, needsReconnect) == states[k].row
    decreases k
  {
    hide Next;
    if j < k {
      OvertakenForGood(states, events, j, k - 1, nonce, pair, needsReconnect);
      NoncesAlways(states, events, k - 1);
      OvertakenStays(states[k - 1], events[k - 1], nonce);
    }
  }

  /**
   What a stored pair is for: until it is due every reader gets its access token, and then its
   refresh token is the one sent.
   */
  lemma StoredPairIsHandedOut(db: Db, e: Event, reader: CallerId, at: int)
    requires Legal(db, e)
    requires e.EComplete?
    requires e.c in db.callers
    requires db.callers[e.c].pc.Replied?
    requires db.callers[e.c].pc.reply.Refreshed?
    requires Holds(db.row, db.callers[e.c].pc.nonce) && db.row.value.status == Active
    requires reader in Next(db, e).callers && Next(db, e).callers[reader].pc == ToRead && at >= Next(db, e).now
    ensures var pair := db.callers[e.c].pc.reply.pair;
            var read := Next(Next(db, e), ERead(reader, at)).callers[reader].pc;
            && Next(db, e).callers[e.c].pc == Returned(Minted(pair.access, UseUntil(pair.accessExpiresAt)))
            && read == if at < UseUntil(pair.accessExpiresAt)
               then Returned(Minted(pair.access, UseUntil(pair.accessExpiresAt)))
                       else if at < pair.refreshExpiresAt then ToBegin(pair.refresh, at)
                       else Returned(Refused)
  {
  }

  /** A lease in the row is some caller's that is still refreshing, unless one crashed. */
  ghost predicate LeaseHasOwner(db: Db) {
    db.row.Some? && db.row.value.lease.Some? ==>
      exists c ::
        c in db.callers && Refreshing(db.callers[c]) && NonceOf(db.callers[c]) == db.row.value.lease.value.nonce
  }

  lemma LeaseOwnerKept(db: Db, e: Event)
    requires LeaseHasOwner(db) && NoncesHeld(db) && Legal(db, e) && !e.ECrash?
    ensures LeaseHasOwner(Next(db, e))
  {
    var next := Next(db, e);
    if next.row.Some? && next.row.value.lease.Some? {
      var nonce := next.row.value.lease.value.nonce;
      if db.row.Some? && db.row.value.lease.Some? && nonce == db.row.value.lease.value.nonce {
        var c :| c in db.callers && Refreshing(db.callers[c]) && NonceOf(db.callers[c]) == nonce;
        assert c in next.callers && Refreshing(next.callers[c]) && NonceOf(next.callers[c]) == nonce;
      } else {
        assert e.EBegin? && e.c in next.callers && Refreshing(next.callers[e.c]) && NonceOf(next.callers[e.c]) == nonce;
      }
    }
  }

  /** While no caller crashes, a lease in the row belongs to a caller under way: none returns still holding it. */
  lemma {:induction false} NobodyReturnsHolding(states: seq<Db>, events: seq<Event>, k: nat)
    requires Run(states, events) && k <= |events|
    requires forall i :: 0 <= i < k ==> !events[i].ECrash?
    ensures LeaseHasOwner(states[k])
    decreases k
  {
    hide Next;
    if k > 0 {
      NobodyReturnsHolding(states, events, k - 1);
      NoncesAlways(states, events, k - 1);
      LeaseOwnerKept(states[k - 1], events[k - 1]);
    }
  }

  // ── with its timing assumptions ────────────────────────────────────────────

  /** A round trip ends within its lease: time does not pass a lease's end while its caller is refreshing. */
  ghost predicate InTime(db: Db, e: Event) {
    forall c :: c in db.callers && Refreshing(db.callers[c]) ==> e.now < db.callers[c].pc.begunAt + REFRESH_LEASE_MS
  }

  /** A caller takes the lease within `usable` of reading. */
  predicate Prompt(db: Db, e: Event, usable: int) {
    e.EBegin? && e.c in db.callers && db.callers[e.c].pc.ToBegin? ==> e.now - db.callers[e.c].pc.readAt < usable
  }

  /** A pair, when it is stored, is handed out for at least `usable`. */
  predicate Lasting(db: Db, e: Event, usable: int) {
    match e
    case EComplete(c, now) =>
      c in db.callers && db.callers[c].pc.Replied? && db.callers[c].pc.reply.Refreshed? ==>
        UseUntil(db.callers[c].pc.reply.pair.accessExpiresAt) >= now + usable
    case EConnect(pair, now) => UseUntil(pair.accessExpiresAt) >= now + usable
    case _ => true
  }

  ghost predicate Timely(db: Db, e: Event, usable: int) {
    InTime(db, e) && Prompt(db, e, usable) && Lasting(db, e, usable)
  }

  /** The row's refresh token is `token`, and it may be refreshed. */
  predicate Current(db: Db, token: Token) {
    db.row.Some? && db.row.value.tokens.Some? && db.row.value.tokens.value.refresh == token
  }

  /** The row cannot be due before `at`. */
  predicate NotDueBefore(db: Db, at: int) {
    db.row.None? || db.row.value.status != Active || UseUntil(db.row.value.accessExpiresAt) >= at
  }

  ghost predicate GoodCaller(db: Db, c: CallerId, usable: int)
    requires c in db.callers
  {
    var pc := db.callers[c].pc;
    && (pc.ToBegin? ==>
          pc.readAt <= db.now && pc.token in db.issued
            && ((Current(db, pc.token) && pc.token !in db.spent) || NotDueBefore(db, pc.readAt + usable)))
    && (Refreshing(db.callers[c]) ==>
          && pc.begunAt <= db.now
          && (Holds(db.row, pc.nonce) ==>
               db.row.value.lease.value.until == pc.begunAt + REFRESH_LEASE_MS && db.row.value.status == Active)
          && (!Holds(db.row, pc.nonce) ==> NotDueBefore(db, pc.begunAt + REFRESH_LEASE_MS)))
    && (InFlight(db.callers[c]) ==>
          && pc.token in db.issued && pc.token !in db.spent
          && (Holds(db.row, pc.nonce) ==> Current(db, pc.token)))
  }

  ghost predicate OneRefreshing(db: Db) {
    forall c, d :: c in db.callers && d in db.callers && Refreshing(db.callers[c]) && Refreshing(db.callers[d]) ==>
        c == d
  }

  ghost predicate Good(db: Db, usable: int) {
    && NoncesHeld(db)
    && OneRefreshing(db)
    && db.spent <= db.issued
    && (db.row.Some? && db.row.value.tokens.Some? ==>
         db.row.value.tokens.value.refresh in db.issued && db.row.value.tokens.value.refresh !in db.spent)
    && (forall c :: c in db.callers ==> GoodCaller(db, c, usable))
    && (forall c :: c in db.callers && db.callers[c].pc.Replied? && db.callers[c].pc.reply.Refreshed? ==>
          db.callers[c].pc.reply.pair.refresh in db.issued - db.spent
            && db.callers[c].pc.reply.pair.refresh != db.callers[c].pc.token)
  }

  lemma ConnectGood(db: Db, e: Event, usable: int)
    requires Good(db, usable) && Legal(db, e) && Timely(db, e, usable) && usable >= REFRESH_LEASE_MS
    requires e.EConnect? || e.ERevoke? || e.EForget? || e.ECall? || e.ECrash?
    ensures Good(Next(db, e), usable)
  {
    NoncesKept(db, e);
    hide NoncesHeld;
    var next := Next(db, e);
    forall c | c in next.callers
      ensures GoodCaller(next, c, usable)
    {
      assert c in db.callers ==> GoodCaller(db, c, usable);
    }
  }

  lemma ReadGood(db: Db, e: Event, usable: int)
    requires Good(db, usable) && Legal(db, e) && Timely(db, e, usable) && e.ERead?
    ensures Good(Next(db, e), usable)
  {
    NoncesKept(db, e);
    hide NoncesHeld;
    var next := Next(db, e);
    forall c | c in next.callers
      ensures GoodCaller(next, c, usable)
    {
      assert GoodCaller(db, c, usable);
    }
  }

  /** Taking the lease: nobody else is refreshing, and what the caller read is still what is stored. */
  lemma BeginTakesWhatIsStored(db: Db, e: Event, usable: int)
    requires Good(db, usable)
    requires Legal(db, e)
    requires Timely(db, e, usable)
    requires e.EBegin?
    requires e.c in db.callers
    requires db.callers[e.c].pc.ToBegin?
    requires MayBegin(db.row, e.now)
    ensures forall c :: c in db.callers ==> !Refreshing(db.callers[c])
    ensures Current(db, db.callers[e.c].pc.token) && db.callers[e.c].pc.token !in db.spent
  {
    assert GoodCaller(db, e.c, usable);
    forall c | c in db.callers
      ensures !Refreshing(db.callers[c])
    {
      assert GoodCaller(db, c, usable);
    }
  }

  lemma BeginCaller(db: Db, e: Event, usable: int, c: CallerId)
    requires Good(db, usable) && Legal(db, e) && Timely(db, e, usable) && e.EBegin? && c in db.callers
    ensures c in Next(db, e).callers && GoodCaller(Next(db, e), c, usable)
  {
    assert GoodCaller(db, c, usable);
    if e.c in db.callers && db.callers[e.c].pc.ToBegin? && MayBegin(db.row, e.now) {
      BeginTakesWhatIsStored(db, e, usable);
    }
    hide NoncesHeld, Timely;
  }

  lemma BeginRest(db: Db, e: Event, usable: int)
    requires Good(db, usable) && Legal(db, e) && Timely(db, e, usable) && e.EBegin?
    ensures var next := Next(db, e);
            && OneRefreshing(next)
            && next.spent == db.spent
            && next.issued == db.issued
            && next.callers.Keys == db.callers.Keys
            && (next.row.Some? <==> db.row.Some?) && (next.row.Some? ==> next.row.value.tokens == db.row.value.tokens)
            && (forall c :: c in next.callers && next.callers[c].pc.Replied? ==> next.callers[c] == db.callers[c])
  {
    if e.c in db.callers && db.callers[e.c].pc.ToBegin? && MayBegin(db.row, e.now) {
      BeginTakesWhatIsStored(db, e, usable);
    }
    hide NoncesHeld, GoodCaller, Timely;
  }

  lemma BeginGood(db: Db, e: Event, usable: int)
    requires Good(db, usable) && Legal(db, e) && Timely(db, e, usable) && e.EBegin?
    ensures Good(Next(db, e), usable)
  {
    hide NoncesHeld, Next, GoodCaller, Legal, Timely;
    NoncesKept(db, e);
    BeginRest(db, e, usable);
    forall c | c in db.callers
      ensures c in Next(db, e).callers && GoodCaller(Next(db, e), c, usable)
    {
      BeginCaller(db, e, usable, c);
    }
  }

  lemma RefreshCaller(db: Db, e: Event, usable: int, c: CallerId)
    requires (e.ESend? || e.EReply?) && Legal(db, e) && c in db.callers && GoodCaller(db, c, usable)
    requires e.c in db.callers ==> GoodCaller(db, e.c, usable)
    ensures c in Next(db, e).callers && GoodCaller(Next(db, e), c, usable)
  {
  }

  lemma RefreshRest(db: Db, e: Event, usable: int)
    requires Good(db, usable) && Legal(db, e) && (e.ESend? || e.EReply?)
    ensures var next := Next(db, e);
            && OneRefreshing(next) && next.spent <= next.issued && next.callers.Keys == db.callers.Keys
            && (next.row.Some? && next.row.value.tokens.Some? ==>
                  next.row.value.tokens.value.refresh in next.issued
                    && next.row.value.tokens.value.refresh !in next.spent)
            && (forall c :: c in next.callers && next.callers[c].pc.Replied? && next.callers[c].pc.reply.Refreshed? ==>
                  next.callers[c].pc.reply.pair.refresh in next.issued - next.spent
                  && next.callers[c].pc.reply.pair.refresh != next.callers[c].pc.token)
  {
    assert e.c in db.callers ==> GoodCaller(db, e.c, usable);
    hide NoncesHeld;
  }

  lemma RefreshGood(db: Db, e: Event, usable: int)
    requires Good(db, usable) && Legal(db, e) && Timely(db, e, usable) && (e.ESend? || e.EReply?)
    ensures Good(Next(db, e), usable)
  {
    hide NoncesHeld, Next, GoodCaller, Legal, Timely;
    NoncesKept(db, e);
    RefreshRest(db, e, usable);
    forall c | c in db.callers
      ensures c in Next(db, e).callers && GoodCaller(Next(db, e), c, usable)
    {
      RefreshCaller(db, e, usable, c);
    }
  }

  lemma CompleteGood(db: Db, e: Event, usable: int)
    requires Good(db, usable) && Legal(db, e) && Timely(db, e, usable) && usable >= REFRESH_LEASE_MS && e.EComplete?
    ensures Good(Next(db, e), usable)
  {
    NoncesKept(db, e);
    hide NoncesHeld;
    var next := Next(db, e);
    if e.c in db.callers {
      assert GoodCaller(db, e.c, usable);
    }
    forall c | c in next.callers
      ensures GoodCaller(next, c, usable)
    {
      assert GoodCaller(db, c, usable);
    }
  }

  lemma EndCaller(db: Db, e: Event, usable: int, c: CallerId)
    requires e.EEnd? && e.now >= db.now && e.c in db.callers && c in db.callers
    requires GoodCaller(db, e.c, usable) && GoodCaller(db, c, usable) && OneRefreshing(db)
    ensures c in Next(db, e).callers && GoodCaller(Next(db, e), c, usable)
  {
  }

  lemma EndRest(db: Db, e: Event, usable: int)
    requires Good(db, usable) && e.EEnd?
    ensures var next := Next(db, e);
            && OneRefreshing(next)
            && next.spent == db.spent
            && next.issued == db.issued
            && next.callers.Keys == db.callers.Keys
            && (next.row.Some? <==> db.row.Some?) && (next.row.Some? ==> next.row.value.tokens == db.row.value.tokens)
            && (forall c :: c in next.callers && next.callers[c].pc.Replied? ==> next.callers[c] == db.callers[c])
  {
    hide NoncesHeld, GoodCaller;
  }

  lemma EndGood(db: Db, e: Event, usable: int)
    requires Good(db, usable) && Legal(db, e) && Timely(db, e, usable) && e.EEnd?
    ensures Good(Next(db, e), usable)
  {
    NoncesKept(db, e);
    EndRest(db, e, usable);
    if e.c in db.callers {
      hide NoncesHeld, Next, GoodCaller;
      forall c | c in db.callers
        ensures c in Next(db, e).callers && GoodCaller(Next(db, e), c, usable)
      {
        EndCaller(db, e, usable, c);
      }
    } else {
      hide NoncesHeld;
      forall c | c in db.callers
        ensures GoodCaller(Next(db, e), c, usable)
      {
        assert GoodCaller(db, c, usable);
      }
    }
  }

  lemma StepGood(db: Db, e: Event, usable: int)
    requires Good(db, usable) && Legal(db, e) && Timely(db, e, usable) && usable >= REFRESH_LEASE_MS
    ensures Good(Next(db, e), usable)
  {
    hide Next, Good, Timely, Legal;
    match e
    case ERead(_, _) => ReadGood(db, e, usable);
    case EBegin(_, _, _) => BeginGood(db, e, usable);
    case ESend(_, _) => RefreshGood(db, e, usable);
    case EReply(_, _, _) => RefreshGood(db, e, usable);
    case EComplete(_, _) => CompleteGood(db, e, usable);
    case EEnd(_, _) => EndGood(db, e, usable);
    case _ => ConnectGood(db, e, usable);
  }

  ghost predicate TimelyRun(states: seq<Db>, events: seq<Event>, usable: int) {
    && Run(states, events) && usable >= REFRESH_LEASE_MS
    && forall i :: 0 <= i < |events| ==> Timely(states[i], events[i], usable)
  }

  lemma {:induction false} TimelyGood(states: seq<Db>, events: seq<Event>, usable: int, k: nat)
    requires TimelyRun(states, events, usable) && k <= |events|
    ensures Good(states[k], usable)
    decreases k
  {
    hide Next, Timely, Legal;
    if k > 0 {
      TimelyGood(states, events, usable, k - 1);
      assert states[k] == Next(states[k - 1], events[k - 1]);
      StepGood(states[k - 1], events[k - 1], usable);
    }
  }

  /**
   At most one refresh of a connection is ever in flight; while its caller holds
   the lease it sends the refresh token that is stored; and whether or not it
   was overtaken, never one whose successor was stored.
   */
  lemma OneRefreshOfTheStoredToken(states: seq<Db>, events: seq<Event>, usable: int, k: nat, c: CallerId)
    requires TimelyRun(states, events, usable) && k <= |events|
    requires c in states[k].callers && InFlight(states[k].callers[c])
    ensures forall d :: d in states[k].callers && InFlight(states[k].callers[d]) ==> d == c
    ensures states[k].callers[c].pc.token !in states[k].spent
    ensures Holds(states[k].row, states[k].callers[c].pc.nonce) ==> Current(states[k], states[k].callers[c].pc.token)
  {
    hide Next, Timely, Legal;
    TimelyGood(states, events, usable, k);
    assert GoodCaller(states[k], c, usable);
  }

  // ── why both assumptions are needed ────────────────────────────────────────

  const USABLE: int := REFRESH_LEASE_MS

  /** Playing events from a state, timely except that readers may be `slow`, or round trips `late`. */
  ghost predicate Plays(db: Db, events: seq<Event>, end: Db, slow: bool, late: bool)
    decreases |events|
  {
    if events == [] then db == end
    else Fits(db, events[0], slow, late) && Plays(Next(db, events[0]), events[1..], end, slow, late)
  }

  ghost predicate Fits(db: Db, e: Event, slow: bool, late: bool) {
    Legal(db, e) && (slow || Prompt(db, e, USABLE)) && (late || InTime(db, e)) && Lasting(db, e, USABLE)
  }

  lemma {:induction false} PlaysThen(db: Db, first: seq<Event>, mid: Db, second: seq<Event>, end: Db, slow: bool,
          late: bool)
    requires Plays(db, first, mid, slow, late) && Plays(mid, second, end, slow, late)
    ensures Plays(db, first + second, end, slow, late)
    decreases |first|
  {
    hide Next, Fits;
    if first == [] {
      assert first + second == second;
    } else {
      PlaysThen(Next(db, first[0]), first[1..], mid, second, end, slow, late);
      assert (first + second)[1..] == first[1..] + second;
    }
  }

  lemma Plays2(db: Db, e: Event, mid: Db, f: Event, end: Db, slow: bool, late: bool)
    requires Fits(db, e, slow, late) && Next(db, e) == mid && Fits(mid, f, slow, late) && Next(mid, f) == end
    ensures Plays(db, [e, f], end, slow, late)
  {
    hide Next, Fits;
    assert [e, f][1..] == [f] && [f][1..] == [];
    assert Plays(end, [], end, slow, late);
    assert Plays(mid, [f], end, slow, late);
  }

  const DUE: int := 60_000
  const AGAIN: int := 120_000
  const FIRST: Pair := Pair(1, 2, TOKEN_REFRESH_MARGIN_MS + DUE, 1_000_000_000)
  const SECOND: Pair := Pair(3, 4, TOKEN_REFRESH_MARGIN_MS + AGAIN, 1_000_000_000)

  function Stored(pair: Pair, lease: Option<Lease>): Option<Connection> {
    Some(Connection(Active, Some(Tokens(pair.access, pair.refresh)), pair.accessExpiresAt, pair.refreshExpiresAt,
          lease))
  }

  /** The first pair is stored, two callers have come, the first of them at `pc`. */
  function Calling(pc: Pc, lease: Option<Lease>, now: int, nonces: set<Nonce>): Db {
    Db(Stored(FIRST, lease), map[0 := Caller(0, pc), 1 := Caller(0, ToRead)], now, {1, 2}, {}, nonces)
  }

  lemma PlayCalls(slow: bool, late: bool)
    ensures Plays(Start(0), [EConnect(FIRST, 0), ECall(0, 0)] + [ECall(1, 0), ERead(0, DUE)],
              Calling(ToBegin(2, DUE), None, DUE, {}), slow, late)
  {
    var a := Db(Stored(FIRST, None), map[], 0, {1, 2}, {}, {});
    var b := a.(callers := map[0 := Caller(0, ToRead)]);
    var c := Calling(ToRead, None, 0, {});
    var d := Calling(ToBegin(2, DUE), None, DUE, {});
    assert Next(Start(0), EConnect(FIRST, 0)) == a;
    assert Next(a, ECall(0, 0)) == b;
    assert Next(b, ECall(1, 0)) == c;
    assert Next(c, ERead(0, DUE)) == d;
    hide Next;
    Plays2(Start(0), EConnect(FIRST, 0), a, ECall(0, 0), b, slow, late);
    Plays2(b, ECall(1, 0), c, ERead(0, DUE), d, slow, late);
    PlaysThen(Start(0), [EConnect(FIRST, 0), ECall(0, 0)], b, [ECall(1, 0), ERead(0, DUE)], d, slow, late);
  }

  /** When the token is due the first caller takes the lease and sends the refresh token. */
  lemma PlaySent(slow: bool, late: bool)
    ensures Plays(Calling(ToBegin(2, DUE), None, DUE, {}), [EBegin(0, 7, DUE), ESend(0, DUE)],
              Calling(Sent(2, 7, DUE), Some(Lease(7, AGAIN)), DUE, {7}), slow, late)
  {
    var start := Calling(ToBegin(2, DUE), None, DUE, {});
    var began := Calling(ToSend(2, 7, DUE), Some(Lease(7, AGAIN)), DUE, {7});
    assert Next(start, EBegin(0, 7, DUE)) == began;
    Plays2(start, EBegin(0, 7, DUE), began, ESend(0, DUE), Calling(Sent(2, 7, DUE), Some(Lease(7, AGAIN)), DUE, {7}),
           slow, late);
  }

  lemma PlayFirstSends(slow: bool, late: bool) returns (events: seq<Event>)
    ensures Plays(Start(0), events, Calling(Sent(2, 7, DUE), Some(Lease(7, AGAIN)), DUE, {7}), slow, late)
  {
    hide Plays;
    PlayCalls(slow, late);
    PlaySent(slow, late);
    var calls := [EConnect(FIRST, 0), ECall(0, 0)] + [ECall(1, 0), ERead(0, DUE)];
    PlaysThen(Start(0), calls, Calling(ToBegin(2, DUE), None, DUE, {}), [EBegin(0, 7, DUE), ESend(0, DUE)],
              Calling(Sent(2, 7, DUE), Some(Lease(7, AGAIN)), DUE, {7}), slow, late);
    events := calls + [EBegin(0, 7, DUE), ESend(0, DUE)];
  }

  // A slow reader.

  function SecondStored(lease: Option<Lease>, pc: Pc, now: int, nonces: set<Nonce>): Db {
    Db(Stored(SECOND, lease), map[0 := Caller(0, Returned(Minted(3, AGAIN))), 1 := Caller(0, pc)], now, {1, 2, 3, 4},
       {2}, nonces)
  }

  /** The second caller reads the pair the first is refreshing; the first stores its successor. */
  lemma PlayStored()
    ensures Plays(Calling(Sent(2, 7, DUE), Some(Lease(7, AGAIN)), DUE, {7}),
              [ERead(1, DUE), EReply(0, Refreshed(SECOND), DUE)] + [EComplete(0, DUE)],
                  SecondStored(None, ToBegin(2, DUE), DUE, {7}), true, false)
  {
    var start := Calling(Sent(2, 7, DUE), Some(Lease(7, AGAIN)), DUE, {7});
    var read := start.(callers := map[0 := Caller(0, Sent(2, 7, DUE)), 1 := Caller(0, ToBegin(2, DUE))]);
    var replied := read.(callers := map[0 := Caller(0, Replied(2, 7, DUE, Refreshed(SECOND))),
            1 := Caller(0, ToBegin(2, DUE))], issued := {1, 2, 3, 4});
    var end := SecondStored(None, ToBegin(2, DUE), DUE, {7});
    assert Next(start, ERead(1, DUE)) == read;
    assert Next(read, EReply(0, Refreshed(SECOND), DUE)) == replied;
    assert Next(replied, EComplete(0, DUE)) == end;
    hide Next;
    Plays2(start, ERead(1, DUE), read, EReply(0, Refreshed(SECOND), DUE), replied, true, false);
    assert [EComplete(0, DUE)][1..] == [];
    assert Plays(end, [], end, true, false);
    assert Plays(replied, [EComplete(0, DUE)], end, true, false);
    PlaysThen(start, [ERead(1, DUE), EReply(0, Refreshed(SECOND), DUE)], replied, [EComplete(0, DUE)], end, true,
              false);
  }

  lemma PlaySlowSends()
    ensures Plays(SecondStored(None, ToBegin(2, DUE), DUE, {7}), [EBegin(1, 8, AGAIN), ESend(1, AGAIN)],
                  SecondStored(Some(Lease(8, AGAIN + REFRESH_LEASE_MS)), Sent(2, 8, AGAIN), AGAIN, {7, 8}), true, false)
  {
    var start := SecondStored(None, ToBegin(2, DUE), DUE, {7});
    var began := SecondStored(Some(Lease(8, AGAIN + REFRESH_LEASE_MS)), ToSend(2, 8, AGAIN), AGAIN, {7, 8});
    assert Next(start, EBegin(1, 8, AGAIN)) == began;
    Plays2(start, EBegin(1, 8, AGAIN), began, ESend(1, AGAIN),
           SecondStored(Some(Lease(8, AGAIN + REFRESH_LEASE_MS)), Sent(2, 8, AGAIN), AGAIN, {7, 8}), true, false);
  }

  lemma SlowIsRefused(sent: Db) returns (end: Db)
    requires sent == SecondStored(Some(Lease(8, AGAIN + REFRESH_LEASE_MS)), Sent(2, 8, AGAIN), AGAIN, {7, 8})
    ensures Plays(sent, [EReply(1, BadRefreshToken, AGAIN), EEnd(1, AGAIN)], end, true, false)
    ensures end.row.Some? && end.row.value.status == NeedsReconnect && Current(end, 4) && 4 !in end.spent
  {
    var b := Next(sent, EReply(1, BadRefreshToken, AGAIN));
    assert b.callers[1] == Caller(0, ToEnd(2, 8, AGAIN, true, Some(Refused)));
    assert b.callers[0] == sent.callers[0];
    end := Next(b, EEnd(1, AGAIN));
    Plays2(sent, EReply(1, BadRefreshToken, AGAIN), b, EEnd(1, AGAIN), end, true, false);
  }

  /**
   Every round trip is in time and every pair lasts; but a caller that is slower
   between its read and the lease than a fresh pair is usable takes the lease with
   a spent refresh token. GitHub refuses it, and the person has to reconnect
   although the stored token was never used.
   */
  lemma SlowReaderStrandsTheConnection() returns (events: seq<Event>, sent: Db, end: Db)
    ensures Plays(Start(0), events, sent, true, false)
    ensures 1 in sent.callers && sent.callers[1].pc.Sent? && sent.callers[1].pc.token in sent.spent
    ensures Plays(sent, [EReply(1, BadRefreshToken, AGAIN), EEnd(1, AGAIN)], end, true, false)
    ensures end.row.Some? && end.row.value.status == NeedsReconnect && Current(end, 4) && 4 !in end.spent
  {
    hide Next, Plays, Fits;
    var first := PlayFirstSends(true, false);
    PlayStored();
    PlaySlowSends();
    var second := [ERead(1, DUE), EReply(0, Refreshed(SECOND), DUE)] + [EComplete(0, DUE)];
    var third := [EBegin(1, 8, AGAIN), ESend(1, AGAIN)];
    var begun := Calling(Sent(2, 7, DUE), Some(Lease(7, AGAIN)), DUE, {7});
    var stored := SecondStored(None, ToBegin(2, DUE), DUE, {7});
    sent := SecondStored(Some(Lease(8, AGAIN + REFRESH_LEASE_MS)), Sent(2, 8, AGAIN), AGAIN, {7, 8});
    PlaysThen(begun, second, stored, third, sent, true, false);
    PlaysThen(Start(0), first, begun, second + third, sent, true, false);
    events := first + (second + third);
    end := SlowIsRefused(sent);
  }

  // A round trip that outlives its lease.

  const THIRD: Pair := Pair(3, 4, TOKEN_REFRESH_MARGIN_MS + AGAIN + REFRESH_LEASE_MS, 1_000_000_000)

  /** Both callers are at GitHub, with the same refresh token. */
  const BOTH_SENT: Db := Db(Stored(FIRST, Some(Lease(8, AGAIN + REFRESH_LEASE_MS))),
                            map[0 := Caller(0, Sent(2, 7, DUE)), 1 := Caller(0, Sent(2, 8, AGAIN))], AGAIN, {1, 2}, {},
                              {7, 8})

  /** While the first caller waits for GitHub its lease ends, and the second takes it. */
  lemma PlayBothSent()
    ensures Plays(Calling(Sent(2, 7, DUE), Some(Lease(7, AGAIN)), DUE, {7}),
              [ERead(1, AGAIN - 1), EBegin(1, 8, AGAIN)] + [ESend(1, AGAIN)],
                  BOTH_SENT, false, true)
  {
    var start := Calling(Sent(2, 7, DUE), Some(Lease(7, AGAIN)), DUE, {7});
    var read := start.(callers := map[0 := Caller(0, Sent(2, 7, DUE)), 1 := Caller(0, ToBegin(2, AGAIN - 1))],
          now := AGAIN - 1);
    var began := BOTH_SENT.(callers := map[0 := Caller(0, Sent(2, 7, DUE)), 1 := Caller(0, ToSend(2, 8, AGAIN))]);
    assert Next(start, ERead(1, AGAIN - 1)) == read;
    assert Next(read, EBegin(1, 8, AGAIN)) == began;
    assert Next(began, ESend(1, AGAIN)) == BOTH_SENT;
    hide Next;
    Plays2(start, ERead(1, AGAIN - 1), read, EBegin(1, 8, AGAIN), began, false, true);
    assert [ESend(1, AGAIN)][1..] == [];
    assert Plays(BOTH_SENT, [], BOTH_SENT, false, true);
    assert Plays(began, [ESend(1, AGAIN)], BOTH_SENT, false, true);
    PlaysThen(start, [ERead(1, AGAIN - 1), EBegin(1, 8, AGAIN)], began, [ESend(1, AGAIN)], BOTH_SENT, false, true);
  }

  /** The first one's pair comes too late to be stored, and the second is refused. */
  lemma FirstTooLate() returns (late: Db)
    ensures late == BOTH_SENT.(callers := map[0 := Caller(0, ToEnd(2, 7, DUE, false, None)),
                1 := Caller(0, Sent(2, 8, AGAIN))], issued := {1, 2, 3, 4})
    ensures Plays(BOTH_SENT, [EReply(0, Refreshed(THIRD), AGAIN), EComplete(0, AGAIN)], late, false, true)
  {
    var replied := BOTH_SENT.(callers := map[0 := Caller(0, Replied(2, 7, DUE, Refreshed(THIRD))),
            1 := Caller(0, Sent(2, 8, AGAIN))], issued := {1, 2, 3, 4});
    late := replied.(callers := map[0 := Caller(0, ToEnd(2, 7, DUE, false, None)), 1 := Caller(0, Sent(2, 8, AGAIN))]);
    assert Next(BOTH_SENT, EReply(0, Refreshed(THIRD), AGAIN)) == replied;
    assert Next(replied, EComplete(0, AGAIN)) == late;
    Plays2(BOTH_SENT, EReply(0, Refreshed(THIRD), AGAIN), replied, EComplete(0, AGAIN), late, false, true);
  }

  lemma BothAnswered() returns (late: Db, end: Db)
    ensures Plays(BOTH_SENT, [EReply(0, Refreshed(THIRD), AGAIN), EComplete(0, AGAIN)], late, false, true)
    ensures Plays(late, [EReply(1, BadRefreshToken, AGAIN), EEnd(1, AGAIN)], end, false, true)
    ensures 4 in end.issued && end.spent == {} && end.row == Some(Stored(FIRST, None).value.(status := NeedsReconnect))
  {
    late := FirstTooLate();
    var lost := Caller(0, ToEnd(2, 7, DUE, false, None));
    var refused := late.(callers := map[0 := lost, 1 := Caller(0, ToEnd(2, 8, AGAIN, true, Some(Refused)))]);
    assert Next(late, EReply(1, BadRefreshToken, AGAIN)) == refused;
    end := Next(refused, EEnd(1, AGAIN));
    Plays2(late, EReply(1, BadRefreshToken, AGAIN), refused, EEnd(1, AGAIN), end, false, true);
  }

  /**
   Every caller is prompt and every pair lasts; but a round trip outlives its
   lease: two refreshes of the same token are in flight at once, and when both are
   answered the only valid refresh token was never stored, and the person has to
   reconnect.
   */
  lemma LateReplyStrandsTheConnection() returns (events: seq<Event>, end: Db)
    ensures Plays(Start(0), events, BOTH_SENT, false, true)
    ensures InFlight(BOTH_SENT.callers[0])
    ensures InFlight(BOTH_SENT.callers[1])
    ensures BOTH_SENT.callers[0].pc.token == BOTH_SENT.callers[1].pc.token
    ensures exists rest :: Plays(BOTH_SENT, rest, end, false, true)
    ensures end.row.Some? && end.row.value.status == NeedsReconnect && 4 in end.issued && !Current(end, 4)
  {
    hide Next, Plays, Fits;
    var first := PlayFirstSends(false, true);
    PlayBothSent();
    var second := [ERead(1, AGAIN - 1), EBegin(1, 8, AGAIN)] + [ESend(1, AGAIN)];
    PlaysThen(Start(0), first, Calling(Sent(2, 7, DUE), Some(Lease(7, AGAIN)), DUE, {7}), second, BOTH_SENT, false,
              true);
    events := first + second;
    var late: Db;
    late, end := BothAnswered();
    var answers := [EReply(0, Refreshed(THIRD), AGAIN), EComplete(0, AGAIN)];
    var rest := [EReply(1, BadRefreshToken, AGAIN), EEnd(1, AGAIN)];
    PlaysThen(BOTH_SENT, answers, late, rest, end, false, true);
  }
}
