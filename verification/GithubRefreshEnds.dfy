/**
 What a mint and a refresh leave behind, said by the values of the connection: who
 gets a token, what a failed refresh keeps, and when a person has to reconnect.
 */
module GithubRefreshEnds {
  import opened Wrappers
  import opened GithubRefresh

  // ── reading and beginning ──────────────────────────────────────────────────

  /** A connection with tokens that neither the person nor GitHub ended. */
  predicate Usable(row: Option<Connection>) {
    row.Some? && row.value.status == Active && row.value.tokens.Some?
  }

  /**
   What a reader does with what it read: the stored access token until half an hour
   before it ends, then a refresh with the stored refresh token, until that ends too;
   without a usable connection it is refused.
   */
  lemma ReaderGets(db: Db, c: CallerId, at: int)
    requires c in db.callers && db.callers[c].pc == ToRead && at >= db.now
    ensures var next := Next(db, ERead(c, at));
            && next == db.(now := at, callers := next.callers)
            && next.callers == db.callers[c := Caller(db.callers[c].step, next.callers[c].pc)]
            && next.callers[c].pc ==
                 if !Usable(db.row) then Returned(Refused)
                 else if at < db.row.value.accessExpiresAt - 1_800_000
                 then Returned(Minted(db.row.value.tokens.value.access, db.row.value.accessExpiresAt - 1_800_000))
                 else if at >= db.row.value.refreshExpiresAt then Returned(Refused)
                 else ToBegin(db.row.value.tokens.value.refresh, at)
  {
  }

  /** The token is due and nobody is refreshing it. */
  predicate Due(row: Option<Connection>, now: int) {
    && row.Some? && row.value.status == Active && now >= row.value.accessExpiresAt - 1_800_000
    && (row.value.lease == None || row.value.lease.value.until <= now)
  }

  /**
   A caller takes the lease, for a minute, exactly when the token is due and the lease
   is free or ran out; otherwise it reads again, at most twenty times, and then says
   that GitHub is unavailable.
   */
  lemma BeginsExactlyWhen(db: Db, c: CallerId, nonce: Nonce, at: int)
    requires c in db.callers && db.callers[c].pc.ToBegin? && at >= db.now
    ensures var next := Next(db, EBegin(c, nonce, at));
            var was := db.callers[c];
            && c in next.callers
            && next.row == (if Due(db.row, at) then Some(db.row.value.(lease := Some(Lease(nonce, at + 60_000))))
                            else db.row)
            && next.callers[c] ==
                 if Due(db.row, at) then Caller(was.step, ToSend(was.pc.token, nonce, at))
                 else if was.step >= 20 then Caller(was.step, Returned(GithubUnavailable))
                 else Caller(was.step + 1, ToRead)
  {
  }

  // ── how a refresh ends ─────────────────────────────────────────────────────

  /** GitHub's refusal of the token asks for a reconnect and refuses the caller; any other failure only its turn. */
  lemma ReplySays(db: Db, c: CallerId, reply: Reply, at: int)
    requires c in db.callers && db.callers[c].pc.Sent? && at >= db.now && !reply.Refreshed?
    ensures var next := Next(db, EReply(c, reply, at));
            var was := db.callers[c].pc;
            && c in next.callers && next.row == db.row
            && next.callers[c].pc == ToEnd(was.token, was.nonce, was.begunAt, reply == BadRefreshToken,
                                           Some(if reply == BadRefreshToken then Refused else GithubUnavailable))
  {
  }

  /** This caller's turn is still its own. */
  predicate HoldsTurn(row: Option<Connection>, nonce: Nonce) {
    row.Some? && row.value.lease.Some? && row.value.lease.value.nonce == nonce
  }

  /**
   The end of a failed refresh by the lease's holder: GitHub being unavailable leaves
   status, tokens and expiries as they were and the lease free, so that the next
   caller may begin at once; a refused token leaves the tokens and asks for a
   reconnect. One who was overtaken leaves everything.
   */
  lemma FailedRefreshLeaves(db: Db, c: CallerId, at: int)
    requires c in db.callers && db.callers[c].pc.ToEnd? && at >= db.now
    ensures var next := Next(db, EEnd(c, at));
            var pc := db.callers[c].pc;
            && next.row == (if !HoldsTurn(db.row, pc.nonce) then db.row
                            else if pc.needsReconnect
                            then Some(db.row.value.(status := NeedsReconnect, lease := None))
                            else Some(db.row.value.(lease := None)))
            && (HoldsTurn(db.row, pc.nonce) && !pc.needsReconnect && db.row.value.status == Active ==>
                  (Due(next.row, at) <==> at >= db.row.value.accessExpiresAt - 1_800_000))
            && (pc.result.Some? ==> c in next.callers && next.callers[c].pc == Returned(pc.result.value))
  {
  }

  predicate Wants(row: Option<Connection>) {
    row.Some? && row.value.status == NeedsReconnect
  }

  /** A connection comes to need a reconnect only by its lease's holder whom GitHub refused. */
  lemma OnlyTheHolderAsks(db: Db, e: Event)
    requires !Wants(db.row) && Wants(Next(db, e).row)
    ensures e.EEnd? && e.c in db.callers && db.callers[e.c].pc.ToEnd? && db.callers[e.c].pc.needsReconnect
    ensures HoldsTurn(db.row, db.callers[e.c].pc.nonce)
  {
  }

  /** Over any run: whoever asks for a reconnect was answered by GitHub that its refresh token is no good. */
  lemma {:induction false} AskedAfterARefusal(states: seq<Db>, events: seq<Event>, k: nat, c: CallerId) returns (j: nat)
    requires Run(states, events) && k <= |events| && c in states[k].callers
    requires states[k].callers[c].pc.ToEnd? && states[k].callers[c].pc.needsReconnect
    ensures j < k && events[j].EReply? && events[j].c == c && events[j].reply == BadRefreshToken
    ensures c in states[j].callers && states[j].callers[c].pc.Sent?
    ensures states[j].callers[c].pc.nonce == states[k].callers[c].pc.nonce
    decreases k
  {
    hide Next;
    assert k > 0;
    assert states[k] == Next(states[k - 1], events[k - 1]);
    AsksFrom(states[k - 1], events[k - 1], c);
    if c in states[k - 1].callers && states[k - 1].callers[c] == states[k].callers[c] {
      j := AskedAfterARefusal(states, events, k - 1, c);
    } else {
      j := k - 1;
    }
  }

  lemma AsksFrom(db: Db, e: Event, c: CallerId)
    requires c in Next(db, e).callers && Next(db, e).callers[c].pc.ToEnd? && Next(db, e).callers[c].pc.needsReconnect
    ensures c in db.callers
    ensures db.callers[c] == Next(db, e).callers[c]
            || (e.EReply? && e.c == c && e.reply == BadRefreshToken && db.callers[c].pc.Sent?
                && db.callers[c].pc.nonce == Next(db, e).callers[c].pc.nonce)
  {
  }

  /** Over any run: a connection comes to need a reconnect only after GitHub refused its lease's holder. */
  lemma NeedsReconnectOnlyAfterRefusal(states: seq<Db>, events: seq<Event>, k: nat) returns (j: nat)
    requires Run(states, events) && k < |events| && !Wants(states[k].row) && Wants(states[k + 1].row)
    ensures j < k && events[j].EReply? && events[j].reply == BadRefreshToken
    ensures events[k].EEnd? && events[j].c == events[k].c && events[j].c in states[j].callers
    ensures states[j].callers[events[j].c].pc.Sent?
    ensures HoldsTurn(states[k].row, states[j].callers[events[j].c].pc.nonce)
  {
    hide Next;
    assert states[k + 1] == Next(states[k], events[k]);
    OnlyTheHolderAsks(states[k], events[k]);
    j := AskedAfterARefusal(states, events, k, events[k].c);
  }

  // ── until the person connects again ────────────────────────────────────────

  lemma {:induction false} UnusableUntilConnect(states: seq<Db>, events: seq<Event>, j: nat, k: nat)
    requires Run(states, events) && j <= k <= |events|
    requires states[j].row.Some? ==> states[j].row.value.status != Active
    requires forall i :: j <= i < k ==> !events[i].EConnect?
    ensures states[k].row.Some? ==> states[k].row.value.status != Active
    decreases k
  {
    hide Next;
    if j < k {
      UnusableUntilConnect(states, events, j, k - 1);
      assert states[k] == Next(states[k - 1], events[k - 1]);
      OnlyConnectActivates(states[k - 1], events[k - 1]);
    }
  }

  lemma OnlyConnectActivates(db: Db, e: Event)
    requires !e.EConnect? && (db.row.Some? ==> db.row.value.status != Active)
    ensures Next(db, e).row.Some? ==> Next(db, e).row.value.status != Active
  {
  }

  /** Over any run: once a connection needs a reconnect, or was revoked, every reader is refused until a connect. */
  lemma RefusedUntilConnect(states: seq<Db>, events: seq<Event>, j: nat, k: nat, c: CallerId, at: int)
    requires Run(states, events) && j <= k <= |events|
    requires states[j].row.Some? ==> states[j].row.value.status != Active
    requires forall i :: j <= i < k ==> !events[i].EConnect?
    requires c in states[k].callers && states[k].callers[c].pc == ToRead && at >= states[k].now
    ensures c in Next(states[k], ERead(c, at)).callers
    ensures Next(states[k], ERead(c, at)).callers[c].pc == Returned(Refused)
  {
    UnusableUntilConnect(states, events, j, k);
    ReaderGets(states[k], c, at);
    hide Next;
  }

  /** A connect makes a fresh, active connection; a revoke keeps no token and no lease; a disconnect nothing. */
  lemma ConnectAndRevoke(db: Db, pair: Pair, at: int)
    ensures Next(db, EConnect(pair, at)).row ==
              Some(Connection(Active, Some(Tokens(pair.access, pair.refresh)), pair.accessExpiresAt,
                              pair.refreshExpiresAt, None))
    ensures Next(db, ERevoke(at)).row ==
              if db.row.None? then None else Some(db.row.value.(status := Revoked, tokens := None, lease := None))
    ensures Next(db, EForget(at)).row == None
  {
  }
}
