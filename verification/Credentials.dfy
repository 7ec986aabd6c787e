/**
 A runner's refresh credential. Each exchange rotates it; the previous one keeps
 a grace until the first write with a token of the current generation shows that
 the box saved the new one; presented after that, it is a copy and the runner is
 cut off (the rotation of section 4.14.2 of RFC 9700).
 */
module Credentials {
  import opened Wrappers

  type Hash = nat

  datatype Row = Row(generation: nat, current: Hash, previous: Option<Hash>, used: bool, revoked: bool)

  datatype Answer = Rotated(generation: nat) | Revoked | Invalid | Paused

  /** One exchange: whether the owner has access, and the hash of the credential it would issue, are given. */
  function Answered(row: Row, presented: Hash, access: bool): Answer {
    if row.revoked then Revoked
    else if presented != row.current && row.previous != Some(presented) then Invalid
    else if presented != row.current && row.used then Revoked
    else if !access then Paused
    else Rotated(row.generation + 1)
  }

  function Rotate(row: Row, presented: Hash, next: Hash, access: bool): Row {
    match Answered(row, presented, access)
    case Rotated(generation) =>
      if presented == row.current
      then row.(generation := generation, previous := Some(row.current), current := next, used := false)
      else row.(generation := generation, current := next)
    case Revoked => row.(revoked := true)
    case _ => row
  }

  /** A write with a token of `generation`: of the current one, it is the first use. */
  function Write(row: Row, generation: Option<nat>): Row {
    if generation == Some(row.generation) && !row.revoked then row.(used := true) else row
  }

  /** A lost registration reply: only the first credential, never used, may be replaced. */
  predicate MayRegisterAgain(row: Row) {
    !row.revoked && row.generation == 1 && !row.used
  }

  function RegisterAgain(row: Row, next: Hash): Row {
    if MayRegisterAgain(row) then row.(current := next) else row
  }

  class Runner {
    var generation: nat
    var current: Hash
    var previous: Option<Hash>
    var firstUsedAt: Option<int>
    var revokedAt: Option<int>

    function State(): Row
      reads this
    {
      Row(generation, current, previous, firstUsedAt.Some?, revokedAt.Some?)
    }

    constructor (credential: Hash)
      ensures State() == Row(1, credential, None, false, false)
    {
      generation, current, previous, firstUsedAt, revokedAt := 1, credential, None, None, None;
    }

    method RotateCredential(presented: Hash, next: Hash, access: bool, now: int) returns (answer: Answer)
      modifies this
      ensures State() == Rotate(old(State()), presented, next, access)
      ensures answer == Answered(old(State()), presented, access)
    {
      if revokedAt.Some? {
        return Revoked;
      }
      var isCurrent := presented == current;
      if !isCurrent {
        if previous != Some(presented) {
          return Invalid;
        }
        if firstUsedAt.Some? {
          revokedAt := Some(now);
          return Revoked;
        }
      }
      if !access {
        return Paused;
      }
      generation := generation + 1;
      if isCurrent {
        previous := Some(current);
        firstUsedAt := None;
      }
      current := next;
      return Rotated(generation);
    }

    method RequireForWrite(tokenGeneration: Option<nat>, now: int) returns (refused: bool)
      modifies this
      ensures State() == Write(old(State()), tokenGeneration) && refused == old(revokedAt).Some?
    {
      if revokedAt.Some? {
        return true;
      }
      if tokenGeneration.Some? && tokenGeneration.value == generation && firstUsedAt.None? {
        firstUsedAt := Some(now);
      }
      return false;
    }

    method RetryDesktopRegistration(credential: Hash) returns (replaced: bool)
      modifies this
      ensures State() == RegisterAgain(old(State()), credential) && replaced == MayRegisterAgain(old(State()))
    {
      if revokedAt.Some? || generation != 1 || firstUsedAt.Some? {
        return false;
      }
      current := credential;
      return true;
    }
  }

  // ── a credential that is dead stays dead ───────────────────────────────────

  /** Neither slot accepts it any more. */
  predicate Dead(row: Row, h: Hash) {
    h != row.current && (row.previous != Some(h) || row.used)
  }

  datatype Act =
    | Present(hash: Hash, next: Hash, access: bool)
    | Use(generation: Option<nat>)
    | Reregister(next: Hash)
    | CutOff

  function Apply(row: Row, a: Act): Row {
    match a
    case Present(hash, next, access) => Rotate(row, hash, next, access)
    case Use(generation) => Write(row, generation)
    case Reregister(next) => RegisterAgain(row, next)
    case CutOff => row.(revoked := true)
  }

  function Play(row: Row, acts: seq<Act>): Row {
    if acts == [] then row else Apply(Play(row, acts[..|acts| - 1]), acts[|acts| - 1])
  }

  /** The credentials issued along the way are new. */
  predicate Issues(a: Act, h: Hash) {
    (a.Present? || a.Reregister?) && a.next == h
  }

  /**
   Whoever presents what in whatever order: a credential that is dead is never
   accepted again; presenting it changes nothing, or cuts the runner off.
   */
  lemma {:induction false} DeadStaysDead(row: Row, acts: seq<Act>, h: Hash, next: Hash, access: bool)
    requires Dead(row, h) && forall a :: a in acts ==> !Issues(a, h)
    ensures Dead(Play(row, acts), h)
    ensures !Answered(Play(row, acts), h, access).Rotated?
    ensures Rotate(Play(row, acts), h, next, access) in {Play(row, acts), Play(row, acts).(revoked := true)}
    decreases |acts|
  {
    if acts != [] {
      DeadStaysDead(row, acts[..|acts| - 1], h, next, access);
      assert acts[|acts| - 1] in acts;
    }
  }

  /** It dies when its successor is used, when its successor rotates, and when it is dropped unused. */
  lemma HowItDies(row: Row, next: Hash, after: Hash)
    requires !row.revoked && next != row.current && after != row.current && after != next
    ensures var one := Rotate(row, row.current, next, true);
            && !Dead(one, row.current)
            && Dead(Write(one, Some(one.generation)), row.current)
            && Dead(Rotate(one, next, after, true), row.current)
            && Dead(Rotate(one, row.current, after, true), next)
  {
  }

  /** A copy of the previous credential, once the current one was used, ends the runner for good. */
  lemma {:induction false} ReuseCutsOff(row: Row, h: Hash, next: Hash, access: bool, acts: seq<Act>)
    requires !row.revoked && row.previous == Some(h) && h != row.current && row.used
    ensures Answered(row, h, access) == Revoked
    ensures Play(Rotate(row, h, next, access), acts).revoked
    decreases |acts|
  {
    if acts != [] {
      ReuseCutsOff(row, h, next, access, acts[..|acts| - 1]);
    }
  }

  /** Strangers who present neither slot's credential, however often, change nothing and cannot cut the runner off. */
  lemma {:induction false} StrangerChangesNothing(row: Row, acts: seq<Act>)
    requires forall a :: a in acts ==> a.Present? && a.hash != row.current && row.previous != Some(a.hash)
    ensures Play(row, acts) == row
    decreases |acts|
  {
    if acts != [] {
      StrangerChangesNothing(row, acts[..|acts| - 1]);
      assert acts[|acts| - 1] in acts;
    }
  }

  /**
   The exchange, by the slots: the current credential moves to the second slot and is
   unused again under the next generation; the one before, not yet followed by a use,
   replaces the unused current one; after a use it ends the runner. Whatever else is
   presented, and whoever's access is paused, leaves the row.
   */
  lemma ExchangedExactlyWhen(row: Row, presented: Hash, next: Hash, access: bool)
    ensures Rotate(row, presented, next, access) ==
              if row.revoked then row
              else if presented == row.current && access
              then Row(row.generation + 1, next, Some(presented), false, false)
              else if presented != row.current && row.previous == Some(presented) && !row.used && access
              then Row(row.generation + 1, next, Some(presented), false, false)
              else if presented != row.current && row.previous == Some(presented) && row.used
              then row.(revoked := true)
              else row
    ensures Answered(row, presented, access).Rotated? <==>
            Rotate(row, presented, next, access).generation == row.generation + 1
    ensures Answered(row, presented, access) == Revoked <==> Rotate(row, presented, next, access).revoked
    ensures Answered(row, presented, access) == Invalid <==>
            !row.revoked && presented != row.current && row.previous != Some(presented)
  {
  }

  /**
   A write marks the first use exactly of a runner in service with a token of the
   current generation; registering again replaces exactly a first credential nobody used.
   */
  lemma UsedExactlyWhen(row: Row, generation: Option<nat>, next: Hash)
    ensures Write(row, generation) ==
              if !row.revoked && generation.Some? && generation.value == row.generation
              then Row(row.generation, row.current, row.previous, true, false) else row
    ensures RegisterAgain(row, next) ==
              if !row.revoked && row.generation == 1 && !row.used then Row(1, next, row.previous, false, false) else row
  {
  }

  /** Once it was cut off nothing changes the runner's row any more. */
  lemma {:induction false} RevokedIsFrozen(row: Row, acts: seq<Act>)
    requires row.revoked
    ensures Play(row, acts) == row
    decreases |acts|
  {
    if acts != [] {
      RevokedIsFrozen(row, acts[..|acts| - 1]);
    }
  }

  // ── one box that saves before it uses ──────────────────────────────────────

  /** What a box asked: to rotate what it has saved, or (nothing saved yet) to register again. */
  datatype Request = Exchange(presented: Hash) | Registration
  datatype Reply = Reply(credential: Hash, generation: nat)

  /**
   The runner's row and its box: what the box saved, the request or the reply
   that is on its way, the generation of the token it holds in memory, and the
   requests it gave up on before they were answered.
   */
  datatype Sys = Sys(
    row: Row, saved: Option<Hash>, request: Option<Request>, reply: Option<Reply>, token: Option<nat>,
    issued: set<Hash>, late: set<Request>)

  datatype Event =
    | Ask
    | Process(next: Hash, access: bool)
    | Deliver
    | GiveUp(crash: bool)
    | WriteWithToken
    | Stranger(hash: Hash, next: Hash, access: bool)
    | Late(request: Request, next: Hash, access: bool)

  predicate Legal(s: Sys, e: Event) {
    match e
    case Process(next, _) => next !in s.issued
    case Stranger(hash, _, _) => hash !in s.issued
    case Late(request, next, _) => request in s.late && next !in s.issued
    case _ => true
  }

  function Next(s: Sys, e: Event): Sys {
    match e
    case Ask =>
      if s.request.Some? || s.reply.Some? then s
      else s.(request := Some(if s.saved.Some? then Exchange(s.saved.value) else Registration))
    case Process(next, access) =>
      if s.request.None? then s
      else (
        match s.request.value
        case Exchange(presented) =>
          var answer := Answered(s.row, presented, access);
          s.(row := Rotate(s.row, presented, next, access), request := None, issued := s.issued + {next},
             reply := if answer.Rotated? then Some(Reply(next, answer.generation)) else None)
        case Registration =>
          s.(row := RegisterAgain(s.row, next), request := None, issued := s.issued + {next},
             reply := if MayRegisterAgain(s.row) then Some(Reply(next, s.row.generation)) else None))
    case Deliver =>
      if s.reply.None? then s
      else s.(saved := Some(s.reply.value.credential), token := Some(s.reply.value.generation), reply := None)
    case GiveUp(crash) =>
      s.(request := None, reply := None, token := if crash then None else s.token,
         late := if s.request.Some? then s.late + {s.request.value} else s.late)
    case WriteWithToken => s.(row := Write(s.row, s.token))
    case Stranger(hash, next, access) => s.(row := Rotate(s.row, hash, next, access))
    case Late(request, next, access) => s.(row := Repeated(s.row, request, next, access), issued := s.issued + {next})
  }

  /** A request the box gave up on arrives after all; nobody reads the answer. */
  function Repeated(row: Row, request: Request, next: Hash, access: bool): Row {
    match request
    case Exchange(presented) => Rotate(row, presented, next, access)
    case Registration => RegisterAgain(row, next)
  }

  /** Registered, and the reply may be lost like any other. */
  function Registered(credential: Hash): Sys {
    Sys(Row(1, credential, None, false, false), None, None, Some(Reply(credential, 1)), None, {credential}, {})
  }

  ghost predicate Run(states: seq<Sys>, events: seq<Event>) {
    && |states| == |events| + 1 && states[0] == Registered(states[0].row.current)
    && forall i :: 0 <= i < |events| ==> Legal(states[i], events[i]) && states[i + 1] == Next(states[i], events[i])
  }

  /** What the box saved still works: it is current, or previous while the current one is unused. */
  predicate Works(row: Row, h: Hash) {
    !row.revoked && (h == row.current || (row.previous == Some(h) && !row.used))
  }

  predicate Good(s: Sys) {
    && (if s.saved.Some? then Works(s.row, s.saved.value) else MayRegisterAgain(s.row))
    && s.row.current in s.issued && (s.row.previous.Some? ==> s.row.previous.value in s.issued)
    && (s.request.Some? && s.request.value.Exchange? ==> s.saved == Some(s.request.value.presented))
    && (s.request.Some? && s.request.value.Registration? ==> s.saved.None?)
    && (s.reply.Some? ==>
          s.request.None? && s.reply.value == Reply(s.row.current, s.row.generation) && !s.row.used
            && s.saved != Some(s.row.current))
    && (s.saved.Some? ==> s.saved.value in s.issued)
    && (s.token.Some? ==>
         s.token.value <= s.row.generation && (s.token.value == s.row.generation ==> s.saved == Some(s.row.current)))
  }

  /** None of the requests it gave up on is processed later. */
  ghost predicate NoneLate(events: seq<Event>) {
    forall e :: e in events ==> !e.Late?
  }

  /**
   However many replies are lost and however often it crashes, a box that saves a credential before
   using its token is never cut off.
   */
  lemma {:induction false} NeverCutOff(states: seq<Sys>, events: seq<Event>, k: nat)
    requires Run(states, events) && NoneLate(events) && k <= |events|
    ensures Good(states[k])
    decreases k
  {
    if k > 0 {
      NeverCutOff(states, events, k - 1);
      assert events[k - 1] in events;
      StepGood(states[k - 1], events[k - 1]);
    }
  }

  lemma StepGood(s: Sys, e: Event)
    requires Good(s) && Legal(s, e) && !e.Late?
    ensures Good(Next(s, e))
  {
  }

  /** So its next exchange is answered with a new credential, whenever its owner has access. */
  lemma NextExchangeWorks(states: seq<Sys>, events: seq<Event>, k: nat, access: bool)
    requires Run(states, events) && NoneLate(events) && k <= |events| && states[k].saved.Some?
    ensures Answered(states[k].row, states[k].saved.value, access) ==
            (if access then Rotated(states[k].row.generation + 1) else Paused)
  {
    NeverCutOff(states, events, k);
  }

  // ── requests that arrive late ──────────────────────────────────────────────

  /** The box can go on: what it saved works, or it has saved nothing and may register again. */
  predicate GoesOn(s: Sys) {
    if s.saved.Some? then Works(s.row, s.saved.value) else MayRegisterAgain(s.row)
  }

  /**
   What strands a box that could go on, read off the row: a late exchange of the
   current credential when that is not the one it saved; of the previous one when
   the current one was used, or when what it saved is the current one; a late
   registration once it saved the first credential; and a reply whose credential is
   no longer the current one, and is not the previous one or comes after first use.
   */
  predicate Strands(s: Sys, e: Event) {
    match e
    case Late(Exchange(h), _, access) =>
      if h == s.row.current then access && s.saved != Some(h)
      else s.row.previous == Some(h) && (s.row.used || (access && s.saved != Some(h)))
    case Late(Registration, _, _) => s.saved.Some? && MayRegisterAgain(s.row)
    case Deliver =>
      s.reply.Some? && s.reply.value.credential != s.row.current
      && (s.row.previous != Some(s.reply.value.credential) || s.row.used)
    case _ => false
  }

  /** What holds of a box however late its requests are, as long as it can go on. */
  predicate Sound(s: Sys) {
    && s.row.current in s.issued && (s.row.previous.Some? ==> s.row.previous.value in s.issued)
    && s.row.previous != Some(s.row.current)
    && s.row.generation >= 1
    && (s.row.generation == 1 ==> s.row.previous.None?)
    && (s.request.Some? ==> s.reply.None?)
    && (s.request.Some? && s.request.value.Exchange? ==> s.saved == Some(s.request.value.presented))
    && (s.request.Some? && s.request.value.Registration? ==> s.saved.None?)
    && (forall r :: r in s.late && r.Exchange? ==> s.saved.Some? && r.presented in s.issued)
    && (s.saved.Some? ==> s.saved.value in s.issued)
    && (s.saved.None? ==> s.token.None?)
    && (s.reply.Some? ==>
         s.reply.value.credential in s.issued && TokenFits(s, s.reply.value.generation, s.reply.value.credential))
    && (s.token.Some? && s.saved.Some? ==> TokenFits(s, s.token.value, s.saved.value))
  }

  /** A token of the current generation came with the current credential, or with one that is dead by now. */
  predicate TokenFits(s: Sys, generation: nat, h: Hash) {
    generation <= s.row.generation && (generation == s.row.generation && Works(s.row, h) ==> h == s.row.current)
  }

  /** Exactly when one step strands a box that could go on. */
  lemma StrandedExactlyWhen(s: Sys, e: Event)
    requires Sound(s) && GoesOn(s) && Legal(s, e)
    ensures Sound(Next(s, e))
    ensures GoesOn(Next(s, e)) <==> !Strands(s, e)
  {
  }

  /**
   A box that saves before it uses can go on at every moment of a run, through
   lost replies, crashes and late requests, if and only if nothing strands it.
   */
  lemma {:induction false} GoesOnExactlyWhen(states: seq<Sys>, events: seq<Event>, k: nat)
    requires Run(states, events) && k <= |events|
    ensures (forall i :: 0 <= i <= k ==> GoesOn(states[i])) <==>
            (forall i :: 0 <= i < k ==> !Strands(states[i], events[i]))
    ensures (forall i :: 0 <= i <= k ==> GoesOn(states[i])) ==> Sound(states[k])
    decreases k
  {
    if k > 0 {
      GoesOnExactlyWhen(states, events, k - 1);
      if forall i :: 0 <= i <= k - 1 ==> GoesOn(states[i]) {
        StrandedExactlyWhen(states[k - 1], events[k - 1]);
        assert states[k] == Next(states[k - 1], events[k - 1]);
      }
    }
  }

  /** A stranded box stays so: what it saved is never accepted again, whatever anybody presents. */
  lemma StrandedForGood(s: Sys, acts: seq<Act>, next: Hash)
    requires s.saved.Some? && !GoesOn(s) && s.saved.value != next && forall a :: a in acts ==> !Issues(a, s.saved.value)
    ensures !Answered(Play(s.row, acts), s.saved.value, true).Rotated?
  {
    if s.row.revoked {
      RevokedIsFrozen(s.row, acts);
    } else {
      DeadStaysDead(s.row, acts, s.saved.value, next, true);
    }
  }

  const ASKED_TWICE: seq<Event> := [Deliver, Ask, GiveUp(false), Ask, Process(2, true), Deliver]

  /** The box saves the first credential, asks, gives up, asks again and saves the answer, the second. */
  lemma SavesSecond() returns (states: seq<Sys>)
    ensures Run(states, ASKED_TWICE) && |states| == 7
    ensures states[6] == Sys(Row(2, 2, Some(1), false, false), Some(2), None, None, Some(2), {1, 2}, {Exchange(1)})
  {
    var s1 := Next(Registered(1), Deliver);
    var s2 := Next(s1, Ask);
    var s3 := Next(s2, GiveUp(false));
    var s4 := Next(s3, Ask);
    var s5 := Next(s4, Process(2, true));
    states := [Registered(1), s1, s2, s3, s4, s5, Next(s5, Deliver)];
    assert s3.late == {Exchange(1)};
  }

  /**
   When the first request then arrives after all, the credential it saved is gone before its first use: the
   backend does not know it any more.
   */
  lemma DelayedBeforeFirstUse() returns (states: seq<Sys>, events: seq<Event>)
    ensures Run(states, events) && |events| == 7 && events[6] == Late(Exchange(1), 3, true)
    ensures WriteWithToken !in events && states[6].saved == Some(2) && Works(states[6].row, 2) && !states[6].row.used
    ensures states[7].saved == Some(2) && Dead(states[7].row, 2) && Answered(states[7].row, 2, true) == Invalid
  {
    var saved := SavesSecond();
    events := ASKED_TWICE + [Late(Exchange(1), 3, true)];
    states := saved + [Next(saved[6], events[6])];
  }

  /** After that first use the same late request looks like a copy: it cuts the runner off. */
  lemma DelayedRequestCutsOff() returns (states: seq<Sys>, events: seq<Event>)
    ensures Run(states, events)
    ensures |events| == 8
    ensures events[6] == WriteWithToken
    ensures events[7] == Late(Exchange(1), 3, true)
    ensures states[7].saved == Some(2) && Works(states[7].row, 2) && states[7].row.used
    ensures states[8].row.revoked && Answered(states[8].row, 2, true) == Revoked
  {
    var saved := SavesSecond();
    events := ASKED_TWICE + [WriteWithToken, Late(Exchange(1), 3, true)];
    states := saved + [Next(saved[6], events[6]), Next(Next(saved[6], events[6]), events[7])];
  }
}
