/**
 When a root key can be dropped: what still needs one, why nothing ever needs an
 old one again, and exactly when every sealed value stays openable without it.
 */
module SecretsRoots {
  import opened Wrappers
  import opened Secrets
  import opened SecretsProofs

  // ── nothing comes to need an old root key ──────────────────────────────────

  lemma LeadsUp(rewraps: map<Id, Rewrapping>, id: Id, from: Kid, to: Kid)
    requires LeadsTo(rewraps, id, from, to)
    ensures from <= to
  {
  }

  /** Fewer moves left, fewer root keys within reach. */
  lemma {:induction false} FewerMoves(before: map<Id, Rewrapping>, after: map<Id, Rewrapping>, id: Id, from: Kid,
          to: Kid)
    requires LeadsTo(after, id, from, to)
    requires forall r, i: nat, c, t :: r in after && Moves(after[r], i, id, c, t) ==>
             r in before && Moves(before[r], i, id, c, t)
    ensures LeadsTo(before, id, from, to)
    decreases if from < to then to - from else 0
  {
    if from != to {
      var r: Id, i: nat, mid: Kid :| r in after && Moves(after[r], i, id, from, mid) && from < mid <= to
          && LeadsTo(after, id, mid, to);
      FewerMoves(before, after, id, mid, to);
      assert Moves(before[r], i, id, from, mid);
    }
  }

  /** Keys wrapped as before, and no new move, need no new root key. */
  lemma SameNeeds(db: Db, next: Db, kid: Kid)
    requires db.roots != [] && StillNeeded(next, kid)
    requires forall k :: k in next.keys ==> k in db.keys && next.keys[k].rootKid == db.keys[k].rootKid
    requires forall r :: r in next.rewraps ==> r in db.rewraps && next.rewraps[r] == db.rewraps[r]
    requires forall a :: a in next.settings && Brings(next, a, kid) ==>
             kid == db.roots[0] || (a in db.settings && Brings(db, a, kid))
    ensures StillNeeded(db, kid) || kid == db.roots[0]
  {
    if k :| k in next.keys && LeadsTo(next.rewraps, k, next.keys[k].rootKid, kid) {
      FewerMoves(db.rewraps, next.rewraps, k, db.keys[k].rootKid, kid);
    }
  }

  lemma SealNeeds(db: Db, a: Id, kid: Kid)
    requires Good(db) && a in db.settings && StillNeeded(SealStep(db, a), kid)
    ensures StillNeeded(db, kid) || kid == db.roots[0]
  {
    assert db.roots != [];
    SealRest(db, a);
    hide LeadsTo, StillNeeded, Good, SealStep;
    SameNeeds(db, SealStep(db, a), kid);
  }

  /** A data key just stored is in no pass: what brought it is all that needs its root key. */
  lemma WriteNeeds(db: Db, a: Id, allowed: bool, kid: Kid)
    requires Good(db) && a in db.settings && StillNeeded(WriteStep(db, a, allowed), kid)
    ensures StillNeeded(db, kid)
  {
    var next := WriteStep(db, a, allowed);
    assert GoodSetting(db, a);
    WriteWrapping(db, a, allowed);
    WriteCarries(db, a, allowed);
    forall owner | HasKey(db.keys, owner)
      ensures HasKey(next.keys, owner)
    {
      var k :| k in db.keys && db.keys[k].owner == owner;
      assert next.keys[k].owner == owner;
    }
    hide WriteStep, Refusal, LeadsTo, Good;
    if k :| k in next.keys && LeadsTo(next.rewraps, k, next.keys[k].rootKid, kid) {
      if k !in db.keys {
        assert db.settings[a].pc.args.newKey.value.id == k;
        NotInAnyPass(db, k, next.keys[k].rootKid, kid);
        assert Brings(db, a, kid);
      }
    } else {
      var b :| b in next.settings && Brings(next, b, kid);
      assert Brings(db, b, kid);
    }
  }

  lemma WroteWrapping(db: Db, a: Id)
    requires a in db.settings && db.settings[a].pc.Sealed? && GoodSetting(db, a)
    requires Reachable(db.projects, db.settings[a].pc.args.target) && KeyAgrees(db, db.settings[a].pc.args)
    ensures var next := Wrote(db, a);
            && next.rewraps == db.rewraps && next.roots == db.roots
            && (forall k :: k in db.keys ==> k in next.keys && next.keys[k] == db.keys[k])
            && (forall k :: k in next.keys && k !in db.keys ==>
                  && Carries(db.settings[a]) && db.settings[a].pc.args.newKey.value.id == k
                  && Brings(db, a, next.keys[k].rootKid))
  {
    hide Stored, KnownKey;
  }

  /** A write that is refused, or not due, changes no more than how far its action is. */
  lemma UnsealedCarriesNothing(s: Setting)
    requires !s.pc.Sealed?
    ensures !Carries(s)
  {
  }

  lemma WriteRefused(db: Db, a: Id, allowed: bool)
    requires a in db.settings && (db.settings[a].pc.Sealed? ==> Refusal(db, db.settings[a].pc.args, allowed).Some?)
    ensures var next := WriteStep(db, a, allowed);
            && next == db.(settings := next.settings) && next.settings.Keys == db.settings.Keys
            && forall b :: b in next.settings && Carries(next.settings[b]) ==> next.settings[b] == db.settings[b]
  {
    hide Refusal, Write, Carries;
    if db.settings[a].pc.Sealed? {
      var next := WriteStep(db, a, allowed);
      assert forall b :: b in db.settings && b != a ==> next.settings[b] == db.settings[b];
      UnsealedCarriesNothing(next.settings[a]);
    }
  }

  lemma WriteWrapping(db: Db, a: Id, allowed: bool)
    requires Good(db) && a in db.settings
    ensures var next := WriteStep(db, a, allowed);
            && next.rewraps == db.rewraps && next.roots == db.roots
            && (forall k :: k in db.keys ==> k in next.keys && next.keys[k] == db.keys[k])
            && (forall k :: k in next.keys && k !in db.keys ==>
                  && Carries(db.settings[a]) && db.settings[a].pc.args.newKey.value.id == k
                  && Brings(db, a, next.keys[k].rootKid))
  {
    hide Good, WriteStep, Wrote, Refusal, GoodSetting, KeyAgrees, Brings;
    SettingIsGood(db, a);
    if db.settings[a].pc.Sealed? && Refusal(db, db.settings[a].pc.args, allowed).None? {
      Accepted(db, a, allowed);
      WroteWrapping(db, a);
    } else {
      WriteRefused(db, a, allowed);
    }
  }

  /** After a write no set carries a key that it did not carry before. */
  lemma WroteLeavesActions(db: Db, a: Id)
    requires a in db.settings && db.settings[a].pc.Sealed?
    ensures var next := Wrote(db, a);
            && next.roots == db.roots && next.rewraps == db.rewraps && next.settings.Keys == db.settings.Keys
            && forall b :: b in next.settings && Carries(next.settings[b]) ==> next.settings[b] == db.settings[b]
  {
    hide Stored, KeysAfter;
  }

  lemma WriteCarries(db: Db, a: Id, allowed: bool)
    requires a in db.settings
    ensures var next := WriteStep(db, a, allowed);
            && next.roots == db.roots && next.rewraps == db.rewraps && next.settings.Keys == db.settings.Keys
            && forall b :: b in next.settings && Carries(next.settings[b]) ==> next.settings[b] == db.settings[b]
  {
    hide WriteStep, Wrote, Refusal, Carries;
    if db.settings[a].pc.Sealed? && Refusal(db, db.settings[a].pc.args, allowed).None? {
      Accepted(db, a, allowed);
      WroteLeavesActions(db, a);
    } else {
      WriteRefused(db, a, allowed);
    }
  }

  lemma NotInAnyPass(db: Db, k: Id, from: Kid, to: Kid)
    requires Good(db) && k !in db.keys && LeadsTo(db.rewraps, k, from, to)
    ensures from == to
  {
    forall r: Id, i: nat, mid: Kid | r in db.rewraps
      ensures !Moves(db.rewraps[r], i, k, from, mid)
    {
      assert GoodRewrap(db, r);
    }
  }

  /** Nothing leads past the current root key. */
  lemma NoneBeyond(db: Db, id: Id, to: Kid)
    requires Good(db) && LeadsTo(db.rewraps, id, db.roots[0], to)
    ensures to == db.roots[0]
  {
    forall r: Id, i: nat, mid: Kid | r in db.rewraps && db.roots[0] < mid
      ensures !Moves(db.rewraps[r], i, id, db.roots[0], mid)
    {
      assert GoodRewrap(db, r);
    }
  }

  /** A new pass moves keys to the current root key only. */
  lemma {:induction false} NewPassLeads(db: Db, next: Db, r: Id, id: Id, from: Kid, to: Kid)
    requires Good(next) && next.roots == db.roots && db.roots != [] && r !in db.rewraps && r in next.rewraps
    requires next.rewraps == db.rewraps[r := next.rewraps[r]] && next.rewraps[r].roots == db.roots
    requires LeadsTo(next.rewraps, id, from, to)
    ensures LeadsTo(db.rewraps, id, from, to) || to == db.roots[0]
    decreases if from < to then to - from else 0
  {
    if from != to {
      var q: Id, i: nat, mid: Kid :|
        q in next.rewraps && Moves(next.rewraps[q], i, id, from, mid) && from < mid <= to
          && LeadsTo(next.rewraps, id, mid, to);
      if q == r {
        NoneBeyond(next, id, to);
      } else {
        NewPassLeads(db, next, r, id, mid, to);
        assert q in db.rewraps && Moves(db.rewraps[q], i, id, from, mid);
      }
    }
  }

  lemma StaleNeeds(db: Db, r: Id, batch: seq<NewKey>, kid: Kid)
    requires Good(db) && Safe(db) && Legal(db, EStale(r, batch)) && StillNeeded(Next(db, EStale(r, batch)), kid)
    ensures StillNeeded(db, kid) || kid == db.roots[0]
  {
    var next := Next(db, EStale(r, batch));
    StaleKeeps(db, r, batch);
    hide LeadsTo, Good, Safe, IsStaleBatch;
    if k :| k in next.keys && LeadsTo(next.rewraps, k, next.keys[k].rootKid, kid) {
      NewPassLeads(db, next, r, k, next.keys[k].rootKid, kid);
    } else {
      var a :| a in next.settings && Brings(next, a, kid);
      assert Brings(db, a, kid);
    }
  }

  /** A store uses up the move it makes. */
  lemma StoreMoves(db: Db, r: Id, id: Id)
    requires Good(db) && r in db.rewraps && id in db.keys
    ensures var next := StoreStep(db, r);
            && id in next.keys && next.settings == db.settings && next.roots == db.roots
            && (forall q, i: nat, c, t :: q in next.rewraps && Moves(next.rewraps[q], i, id, c, t) ==>
                 q in db.rewraps && Moves(db.rewraps[q], i, id, c, t))
            && (next.keys[id].rootKid != db.keys[id].rootKid ==>
                  && Moves(db.rewraps[r], db.rewraps[r].done, id, db.keys[id].rootKid, next.keys[id].rootKid)
                  && db.keys[id].rootKid < next.keys[id].rootKid)
  {
    hide Good, KnownKey;
    RewrapIsGood(db, r);
  }

  lemma StoreNeeds(db: Db, r: Id, kid: Kid)
    requires Good(db) && r in db.rewraps && StillNeeded(StoreStep(db, r), kid)
    ensures StillNeeded(db, kid)
  {
    var next := StoreStep(db, r);
    StoreKeys(db, r);
    forall owner
      ensures HasKey(next.keys, owner) <==> HasKey(db.keys, owner)
    {
    }
    if k :| k in next.keys && LeadsTo(next.rewraps, k, next.keys[k].rootKid, kid) {
      StoreMoves(db, r, k);
      hide StoreStep;
      FewerMoves(db.rewraps, next.rewraps, k, next.keys[k].rootKid, kid);
      LeadsUp(db.rewraps, k, next.keys[k].rootKid, kid);
      assert LeadsTo(db.rewraps, k, db.keys[k].rootKid, kid);
    } else {
      var a :| a in next.settings && Brings(next, a, kid);
      StoreStepElsewhere(db, r);
      assert Brings(db, a, kid);
    }
  }

  /** Whatever happens, nothing comes to need a root key nothing needed, but the current one. */
  lemma NeedsShrink(db: Db, e: Event, kid: Kid)
    requires Good(db) && (e.EStale? ==> Safe(db)) && Legal(db, e) && StillNeeded(Next(db, e), kid)
    ensures StillNeeded(db, kid) || kid == db.roots[0]
  {
    match e
    case ESeal(a) => SealNeeds(db, a, kid);
    case EWrite(a, allowed) => WriteNeeds(db, a, allowed, kid);
    case EStale(r, batch) => StaleNeeds(db, r, batch, kid);
    case EStore(r) => StoreNeeds(db, r, kid);
    case _ => OtherNeeds(db, e, kid);
  }

  lemma OtherNeeds(db: Db, e: Event, kid: Kid)
    requires Good(db) && Legal(db, e) && StillNeeded(Next(db, e), kid)
    requires !e.ESeal? && !e.EWrite? && !e.EStale? && !e.EStore?
    ensures StillNeeded(db, kid) || kid == db.roots[0]
  {
    OtherRest(db, e);
    CarriesBySealing(db, e);
    hide LeadsTo, StillNeeded, Next, Legal;
    SameNeeds(db, Next(db, e), kid);
  }

  lemma OtherRest(db: Db, e: Event)
    requires db.roots != [] && !e.ESeal? && !e.EWrite? && !e.EStale? && !e.EStore?
    ensures Next(db, e).keys == db.keys && Next(db, e).rewraps == db.rewraps
  {
    hide PlanStep;
    match e
    case EPlan(a, allowed) => if a in db.settings { PlanRest(db, a, allowed); }
    case _ =>
  }

  lemma RootsStay(db: Db, e: Event)
    requires Good(db) && Legal(db, e)
    ensures Next(db, e).roots != [] && db.roots[0] in Next(db, e).roots
    ensures forall kid :: kid in db.roots && e != EDrop(kid) ==> kid in Next(db, e).roots
  {
    hide Good, StoreStep, StillNeeded, IsStaleBatch;
    RestIsGood(db);
    if e.EPlan? || e.ESeal? || e.EWrite? {
      hide Next;
      ActionsAside(db, e);
    } else if e.EDrop? {
      WithoutKeeps(db.roots, e.kid);
    } else if e.EStore? {
      StoreStepElsewhere(db, e.r);
    }
  }

  /** Every step keeps the invariant, and every root key still needed configured. */
  lemma StepIsSafe(db: Db, e: Event)
    requires Good(db) && Safe(db) && Legal(db, e)
    ensures Good(Next(db, e)) && Safe(Next(db, e))
  {
    StepKeeps(db, e);
    RootsStay(db, e);
    hide Next, Good, StillNeeded;
    forall kid | StillNeeded(Next(db, e), kid)
      ensures kid in Next(db, e).roots
    {
      NeedsShrink(db, e, kid);
    }
  }

  lemma {:induction false} RunKeeps(states: seq<Db>, events: seq<Event>, k: nat)
    requires Run(states, events) && k <= |events|
    ensures Good(states[k]) && Safe(states[k])
    decreases k
  {
    hide Next, Legal, Good, Safe;
    if k > 0 {
      RunKeeps(states, events, k - 1);
      assert states[k] == Next(states[k - 1], events[k - 1]);
      StepIsSafe(states[k - 1], events[k - 1]);
    }
  }

  /** In every run: one data key per owner, one row per scope and name, and every scope within its bounds. */
  lemma OneKeyOneRowBounded(states: seq<Db>, events: seq<Event>, k: nat, t: Target)
    requires Run(states, events) && k <= |events|
    ensures OneKeyPerOwner(states[k]) && OneRowPerName(states[k])
    ensures |SecretsAt(states[k].secrets, t)| <= MAX_SECRETS_PER_SCOPE
    ensures BytesOf(states[k].secrets, SecretsAt(states[k].secrets, t)) <= MAX_SCOPE_BYTES
  {
    hide Next, Legal;
    RunKeeps(states, events, k);
    assert ScopeFits(states[k].secrets, t);
  }

  // ── exactly when a root key can be dropped ─────────────────────────────────

  /** Every data key opens, and every row opens to the value last written there. */
  ghost predicate Readable(db: Db) {
    && (forall k :: k in db.keys ==> OpensKey(db, k))
    && (forall id :: id in db.secrets ==> OpensRow(db, id))
  }

  predicate OpensKey(db: Db, k: Id)
    requires k in db.keys
  {
    Unwrap(db.roots, db.keys[k].rootKid, db.keys[k].wrapped, KeyContext(k, db.keys[k].owner)).Some?
  }

  predicate OpensRow(db: Db, id: Id)
    requires id in db.secrets
  {
    var row := db.secrets[id];
    (row.target, row.name) in db.written && OpenRow(db.keys, db.roots, id, row) ==
      Some(db.written[(row.target, row.name)])
  }

  lemma SafeIsReadable(db: Db)
    requires Good(db) && Safe(db)
    ensures Readable(db)
  {
    forall k | k in db.keys
      ensures OpensKey(db, k)
    {
      assert GoodKey(db, k);
      KeyIsNeeded(db, k);
    }
    forall id | id in db.secrets
      ensures OpensRow(db, id)
    {
      OpensToLastWritten(db, id);
    }
  }

  /** Playing events in which no root key is dropped. */
  ghost predicate Plays(db: Db, events: seq<Event>, end: Db)
    decreases |events|
  {
    if events == [] then db == end
    else db.roots != [] && !events[0].EDrop? && Legal(db, events[0]) && Plays(Next(db, events[0]), events[1..], end)
  }

  /** Without `kid`, whatever happens next, everything stays readable. */
  ghost predicate MayDrop(db: Db, kid: Kid)
    requires db.roots != []
  {
    forall events: seq<Event>, end: Db :: Plays(Next(db, EDrop(kid)), events, end) ==> Readable(end)
  }

  lemma {:induction false} PlaysSafely(db: Db, events: seq<Event>, end: Db)
    requires Good(db) && Safe(db) && Plays(db, events, end)
    ensures Good(end) && Safe(end)
    decreases |events|
  {
    hide Next, Legal, Good, Safe;
    if events != [] {
      StepIsSafe(db, events[0]);
      PlaysSafely(Next(db, events[0]), events[1..], end);
    }
  }

  lemma DropNeeds(db: Db, dropped: Kid, kid: Kid)
    requires Good(db)
    ensures StillNeeded(Next(db, EDrop(dropped)), kid) <==> StillNeeded(db, kid)
  {
    hide Good;
    RestIsGood(db);
    RootsNeedNothing(db, dropped, kid);
  }

  lemma RootsNeedNothing(db: Db, dropped: Kid, kid: Kid)
    requires db.roots != []
    ensures StillNeeded(Next(db, EDrop(dropped)), kid) <==> StillNeeded(db, kid)
  {
    hide LeadsTo, Without;
    var next := Next(db, EDrop(dropped));
    assert next == db.(roots := next.roots);
    hide Next;
    assert forall a :: a in db.settings ==> (Brings(next, a, kid) <==> Brings(db, a, kid));
  }

  lemma DropIsSafe(db: Db, kid: Kid)
    requires Good(db) && Safe(db) && !StillNeeded(db, kid)
    ensures Good(Next(db, EDrop(kid))) && Safe(Next(db, EDrop(kid)))
  {
    DropKeeps(db, kid);
    WithoutKeeps(db.roots, kid);
    hide StillNeeded, Good;
    forall other | StillNeeded(Next(db, EDrop(kid)), other)
      ensures other in Next(db, EDrop(kid)).roots
    {
      DropNeeds(db, kid, other);
    }
  }

  /** A continuation after which something does not open. */
  ghost predicate LosesSomething(db: Db) {
    exists events: seq<Event>, end: Db :: Plays(db, events, end) && !Readable(end)
  }

  lemma OneMoreStep(db: Db, e: Event)
    requires db.roots != [] && !e.EDrop? && Legal(db, e) && LosesSomething(Next(db, e))
    ensures LosesSomething(db)
  {
    hide Next, Legal, Readable;
    var events: seq<Event>, end: Db :| Plays(Next(db, e), events, end) && !Readable(end);
    assert ([e] + events)[1..] == events;
    assert Plays(db, [e] + events, end);
  }

  lemma OneMoreStore(db: Db, r: Id)
    requires db.roots != [] && r in db.rewraps && LosesSomething(StoreStep(db, r))
    ensures LosesSomething(db)
  {
    OneMoreStep(db, EStore(r));
  }

  lemma OneMoreRemoval(db: Db, id: Id)
    requires db.roots != [] && id in db.secrets && LosesSomething(Removed(db, id))
    ensures LosesSomething(db)
  {
    OneMoreStep(db, ERemove(id));
  }

  function Removed(db: Db, id: Id): Db
    requires id in db.secrets
  {
    db.(secrets := db.secrets - {id}, written := db.written - {(db.secrets[id].target, db.secrets[id].name)})
  }

  lemma UnderMissingRoot(db: Db, k: Id)
    requires k in db.keys && db.keys[k].rootKid !in db.roots
    ensures LosesSomething(db)
  {
    assert Plays(db, [], db) && !OpensKey(db, k);
  }

  /** One store of a pass that has a key to store. */
  lemma StoreOnce(db: Db, r: Id, id: Id, i: nat, kid: Kid)
    requires Good(db) && r in db.rewraps && id in db.keys && db.rewraps[r].done <= i < |db.rewraps[r].keys|
    requires db.rewraps[r].keys[i].id == id && db.rewraps[r].keys[i].rootKid == db.keys[id].rootKid
    ensures var next := StoreStep(db, r);
            && Good(next) && id in next.keys && next.roots == db.roots && r in next.rewraps
            && next.rewraps[r].keys == db.rewraps[r].keys && next.rewraps[r].roots == db.rewraps[r].roots
            && next.rewraps[r].done == db.rewraps[r].done + 1
            && (forall q :: q != r ==>
                 (q in next.rewraps <==> q in db.rewraps) && (q in db.rewraps ==> next.rewraps[q] == db.rewraps[q]))
            && next.keys[id].rootKid == (if i == db.rewraps[r].done then db.rewraps[r].roots[0]
                 else db.keys[id].rootKid)
  {
    StoreKeeps(db, r);
    assert GoodRewrap(db, r);
    var done := db.rewraps[r].done;
    assert KnownKey(db, db.rewraps[r].keys[done]);
    assert i != done ==> db.rewraps[r].keys[done].id != id;
  }

  /** Passes that can bring a key under a missing root key can be played until they do. */
  lemma {:induction false} PassesLose(db: Db, id: Id, kid: Kid)
    requires Good(db) && id in db.keys && kid !in db.roots && LeadsTo(db.rewraps, id, db.keys[id].rootKid, kid)
    ensures LosesSomething(db)
    decreases if db.keys[id].rootKid < kid then kid - db.keys[id].rootKid else 0, 1, 0
  {
    var from := db.keys[id].rootKid;
    if from == kid {
      UnderMissingRoot(db, id);
    } else {
      var r: Id, i: nat, mid: Kid :|
        r in db.rewraps && Moves(db.rewraps[r], i, id, from, mid) && from < mid <= kid
          && LeadsTo(db.rewraps, id, mid, kid);
      PassLoses(db, id, kid, r, i);
    }
  }

  lemma {:induction false} PassLoses(db: Db, id: Id, kid: Kid, r: Id, i: nat)
    requires Good(db) && id in db.keys && kid !in db.roots && r in db.rewraps && db.rewraps[r].roots != []
    requires var mid := db.rewraps[r].roots[0];
             Moves(db.rewraps[r], i, id, db.keys[id].rootKid, mid) && db.keys[id].rootKid < mid <= kid
               && LeadsTo(db.rewraps, id, mid, kid)
    ensures LosesSomething(db)
    decreases if db.keys[id].rootKid < kid then kid - db.keys[id].rootKid else 0, 0, if i >= db.rewraps[r].done
              then i - db.rewraps[r].done else 0
  {
    var mid := db.rewraps[r].roots[0];
    var next := StoreStep(db, r);
    hide StoreStep, LeadsTo, LosesSomething;
    StoreOnce(db, r, id, i, kid);
    assert GoodRewrap(db, r);
    hide Good, GoodRewrap;
    MovesLeft(db, next, r, id, mid, kid);
    if i == db.rewraps[r].done {
      PassesLose(next, id, kid);
    } else {
      PassLoses(next, id, kid, r, i);
    }
    OneMoreStore(db, r);
  }

  /** The moves that come after a store are still there. */
  lemma {:induction false} MovesLeft(db: Db, next: Db, r: Id, id: Id, from: Kid, to: Kid)
    requires r in db.rewraps
    requires r in next.rewraps
    requires LeadsTo(db.rewraps, id, from, to)
    requires db.rewraps[r].done < |db.rewraps[r].keys|
    requires next.rewraps[r] == db.rewraps[r].(done := db.rewraps[r].done + 1, rewrapped := next.rewraps[r].rewrapped)
    requires forall q :: q != r ==>
             (q in next.rewraps <==> q in db.rewraps) && (q in db.rewraps ==> next.rewraps[q] == db.rewraps[q])
    requires db.rewraps[r].keys[db.rewraps[r].done].id == id ==> db.rewraps[r].keys[db.rewraps[r].done].rootKid < from
    ensures LeadsTo(next.rewraps, id, from, to)
    decreases if from < to then to - from else 0
  {
    if from != to {
      var q: Id, i: nat, mid: Kid :| q in db.rewraps && Moves(db.rewraps[q], i, id, from, mid) && from < mid <= to
          && LeadsTo(db.rewraps, id, mid, to);
      MovesLeft(db, next, r, id, mid, to);
      assert Moves(next.rewraps[q], i, id, from, mid);
    }
  }

  // A set that brings a data key under a missing root key can be played until it
  // stores it: every other secret is removed, and the project brought back.

  lemma RemovedIsNext(db: Db, id: Id)
    requires db.roots != [] && id in db.secrets
    ensures Next(db, ERemove(id)) == Removed(db, id)
    ensures |Removed(db, id).secrets| < |db.secrets|
  {
    assert Removed(db, id).secrets.Keys == db.secrets.Keys - {id};
  }

  lemma RemovedStillBrings(db: Db, id: Id, a: Id, kid: Kid)
    requires Good(db) && id in db.secrets && a in db.settings && Brings(db, a, kid)
    ensures var next := Removed(db, id);
            Good(next) && next.roots == db.roots && a in next.settings && Brings(next, a, kid)
              && |next.secrets| < |db.secrets|
  {
    RemoveKeeps(db, id);
    assert db.roots != [];
    hide Good, Next;
    RemovedIsNext(db, id);
  }

  lemma {:induction false} SetLoses(db: Db, a: Id, kid: Kid)
    requires Good(db) && a in db.settings && kid !in db.roots && Brings(db, a, kid)
    ensures LosesSomething(db)
    decreases |db.secrets|
  {
    assert db.roots != [];
    hide Good, Brings, LosesSomething, Removed;
    if db.secrets == map[] {
      SetLosesAlone(db, a, kid);
    } else {
      var id :| id in db.secrets;
      RemovedStillBrings(db, id, a, kid);
      SetLoses(Removed(db, id), a, kid);
      OneMoreRemoval(db, id);
    }
  }

  function Home(t: Target): Option<ProjectId> {
    match t
    case WorkspaceTarget(_) => None
    case ProjectTarget(p) => Some(p)
    case PersonalTarget(_, only) => only
  }

  lemma SetLosesAlone(db: Db, a: Id, kid: Kid)
    requires Good(db) && a in db.settings && kid !in db.roots && Brings(db, a, kid) && db.secrets == map[]
    ensures LosesSomething(db)
  {
    var t := db.settings[a].target;
    var owner := db.settings[a].pc.args.newKey.value.owner;
    assert GoodSetting(db, a);
    if Home(t).Some? {
      var back := EProject(Home(t).value, Some(if owner.OfWorkspace? then owner.workspace else 0));
      var next := Next(db, back);
      ProjectKeeps(db, back);
      assert GoodSetting(next, a);
      StoresKey(next, a, kid);
      OneMoreStep(db, back);
    } else {
      StoresKey(db, a, kid);
    }
  }

  lemma StoresKey(db: Db, a: Id, kid: Kid)
    requires Good(db) && a in db.settings && kid !in db.roots && Brings(db, a, kid) && db.secrets == map[]
    requires Reachable(db.projects, db.settings[a].target)
    requires KeyOwner(db.projects, db.settings[a].target) == db.settings[a].pc.args.newKey.value.owner
    ensures LosesSomething(db)
  {
    assert GoodSetting(db, a);
    var w := db.settings[a].pc.args;
    assert Others(db.secrets, w.target, w.name) == {};
    assert Refusal(db, w, true) == None;
    var next := Next(db, EWrite(a, true));
    assert w.newKey.value.id in next.keys && next.keys[w.newKey.value.id].rootKid == kid && next.roots == db.roots;
    UnderMissingRoot(next, w.newKey.value.id);
    OneMoreStep(db, EWrite(a, true));
  }

  /**
   Exactly when an old root key may be dropped: everything stays readable whatever
   happens next, if and only if no data key is under it, no pass under way can put
   one under it, and no set under way brings a first data key of its owner under it.
   */
  lemma MayDropExactlyWhen(db: Db, kid: Kid)
    requires Good(db) && Safe(db) && kid in db.roots && kid != db.roots[0]
    ensures MayDrop(db, kid) <==> !StillNeeded(db, kid)
  {
    var next := Next(db, EDrop(kid));
    if !StillNeeded(db, kid) {
      DropIsSafe(db, kid);
      forall events: seq<Event>, end: Db | Plays(next, events, end)
        ensures Readable(end)
      {
        PlaysSafely(next, events, end);
        SafeIsReadable(end);
      }
    } else {
      DropKeeps(db, kid);
      WithoutKeeps(db.roots, kid);
      StillNeededLoses(next, db, kid);
      var events: seq<Event>, end: Db :| Plays(next, events, end) && !Readable(end);
    }
  }

  lemma StillNeededLoses(next: Db, db: Db, kid: Kid)
    requires Good(next) && kid !in next.roots && StillNeeded(db, kid)
    requires next == db.(roots := next.roots)
    ensures LosesSomething(next)
  {
    if k :| k in db.keys && LeadsTo(db.rewraps, k, db.keys[k].rootKid, kid) {
      PassesLose(next, k, kid);
    } else {
      var a :| a in db.settings && Brings(db, a, kid);
      assert Brings(next, a, kid);
      SetLoses(next, a, kid);
    }
  }

  // ── what an operator can check ─────────────────────────────────────────────

  /** Since `start`, at which the root key `latest` came in: what carries an older one was already under way. */
  ghost predicate Younger(start: Db, db: Db, latest: Kid) {
    && db.roots != [] && db.roots[0] >= latest
    && (forall a ::
         a in db.settings && Carries(db.settings[a]) && db.settings[a].pc.args.newKey.value.rootKid < latest ==>
         a in start.settings)
    && (forall r :: r in db.rewraps && db.rewraps[r].roots != [] && db.rewraps[r].roots[0] < latest ==>
         r in start.rewraps)
  }

  lemma ActionsAside(db: Db, e: Event)
    requires db.roots != [] && (e.EPlan? || e.ESeal? || e.EWrite?)
    ensures Next(db, e).roots == db.roots && Next(db, e).rewraps == db.rewraps
  {
    hide WriteStep, PlanStep, SealStep;
    if e.a in db.settings {
      match e
      case EWrite(a, allowed) => WriteCarries(db, a, allowed);
      case ESeal(a) => SealRest(db, a);
      case EPlan(a, allowed) => PlanRest(db, a, allowed);
    }
  }

  lemma PassesStay(db: Db, e: Event)
    requires Good(db) && Legal(db, e)
    ensures Next(db, e).roots != [] && Next(db, e).roots[0] >= db.roots[0]
    ensures forall r :: r in Next(db, e).rewraps ==>
              if r in db.rewraps then Next(db, e).rewraps[r].roots == db.rewraps[r].roots
              else Next(db, e).rewraps[r].roots == db.roots
  {
    hide Good, StoreStep, StillNeeded, IsStaleBatch;
    RestIsGood(db);
    if e.EPlan? || e.ESeal? || e.EWrite? {
      hide Next;
      ActionsAside(db, e);
    } else if e.EDrop? {
      WithoutKeeps(db.roots, e.kid);
    } else if e.EStore? {
      StoreStepElsewhere(db, e.r);
    }
  }

  lemma SealsUnderCurrent(roots: seq<Kid>, s: Setting, plan: Plan, newId: Id)
    requires roots != []
    ensures var args := Seal(roots, s, plan, newId);
            args.Some? && args.value.newKey.Some? ==> args.value.newKey.value.rootKid == roots[0]
  {
  }

  lemma SealRest(db: Db, a: Id)
    requires a in db.settings && db.roots != []
    ensures var next := SealStep(db, a); next.roots == db.roots && next.rewraps == db.rewraps && next.keys == db.keys
    ensures var next := SealStep(db, a);
            next.settings.Keys == db.settings.Keys &&
            forall b :: b in next.settings && Carries(next.settings[b]) ==>
              next.settings[b] == db.settings[b] || next.settings[b].pc.args.newKey.value.rootKid == db.roots[0]
  {
    if db.settings[a].pc.Planned? {
      SealsUnderCurrent(db.roots, db.settings[a], db.settings[a].pc.plan, db.nextId);
    }
    hide Seal;
  }

  lemma WithKeeps(db: Db, a: Id, pc: Pc)
    requires a in db.settings && !pc.Sealed?
    ensures var next := With(db, a, pc);
            && next == db.(settings := next.settings) && next.settings.Keys == db.settings.Keys
            && forall b :: b in next.settings && Carries(next.settings[b]) ==> next.settings[b] == db.settings[b]
  {
  }

  lemma PlanRest(db: Db, a: Id, allowed: bool)
    requires a in db.settings
    ensures var next := PlanStep(db, a, allowed);
            && next.roots == db.roots
            && next.rewraps == db.rewraps
            && next.keys == db.keys
            && next.settings.Keys == db.settings.Keys
            && forall b :: b in next.settings && Carries(next.settings[b]) ==> next.settings[b] == db.settings[b]
  {
    hide PlanWrite, With, Carries;
    WithKeeps(db, a, Ended(Some(NoAccess)));
    if Reachable(db.projects, db.settings[a].target) {
      WithKeeps(db, a, Planned(PlanWrite(db, db.settings[a].target, db.settings[a].name)));
    }
  }

  lemma RestCarries(db: Db, e: Event)
    requires db.roots != [] && !e.ESeal? && !e.EWrite? && !e.EPlan?
    ensures forall a :: a in Next(db, e).settings && Carries(Next(db, e).settings[a]) ==>
              a in db.settings && Next(db, e).settings[a] == db.settings[a]
  {
  }

  /** Only sealing makes a set carry a new data key, and it does so under the current root key. */
  lemma CarriesBySealing(db: Db, e: Event)
    requires Good(db) && Legal(db, e)
    ensures forall a :: a in Next(db, e).settings && Carries(Next(db, e).settings[a]) ==>
              (a in db.settings && Next(db, e).settings[a] == db.settings[a])
              || Next(db, e).settings[a].pc.args.newKey.value.rootKid == db.roots[0]
  {
    assert db.roots != [];
    hide WriteStep, PlanStep, SealStep, Good, StillNeeded, IsStaleBatch, Carries;
    if e.EWrite? {
      WriteCarries(db, e.a, e.allowed);
    } else if e.ESeal? {
      SealRest(db, e.a);
    } else if e.EPlan? {
      PlanRest(db, e.a, e.allowed);
    } else {
      hide Next;
      RestCarries(db, e);
    }
  }

  lemma StaysYounger(start: Db, db: Db, e: Event, latest: Kid)
    requires Good(db) && Legal(db, e) && Younger(start, db, latest)
    ensures Younger(start, Next(db, e), latest)
  {
    hide Next, Good, Legal, Carries;
    PassesStay(db, e);
    CarriesBySealing(db, e);
  }

  lemma {:induction false} YoungerThroughout(states: seq<Db>, events: seq<Event>, j: nat, k: nat, latest: Kid)
    requires Run(states, events) && j < k <= |events| && events[j] == ERotate(latest)
    ensures Younger(states[j], states[k], latest)
    decreases k
  {
    hide Next, Legal, Younger;
    RunKeeps(states, events, k - 1);
    assert states[k] == Next(states[k - 1], events[k - 1]);
    if k == j + 1 {
      RotatedIsYounger(states[j], latest);
    } else {
      YoungerThroughout(states, events, j, k - 1, latest);
      StaysYounger(states[j], states[k - 1], events[k - 1], latest);
    }
  }

  lemma RotatedIsYounger(db: Db, latest: Kid)
    requires db.roots != []
    ensures Younger(db, Next(db, ERotate(latest)), latest)
  {
  }

  predicate SetOver(db: Db, a: Id) {
    a in db.settings ==> db.settings[a].pc.Ended?
  }

  predicate PassOver(db: Db, r: Id) {
    r in db.rewraps ==> db.rewraps[r].done == |db.rewraps[r].keys|
  }

  /**
   A condition an operator can check after a rotation: no data key names the old
   root key, and every set and every re-wrap pass that was under way at the
   rotation is over. Then the old root key may be dropped.
   */
  lemma CheckedBeforeDrop(states: seq<Db>, events: seq<Event>, j: nat, k: nat, latest: Kid, kid: Kid)
    requires Run(states, events) && j < k <= |events| && events[j] == ERotate(latest)
    requires kid in states[k].roots && kid < latest
    requires forall key :: key in states[k].keys ==> states[k].keys[key].rootKid != kid
    requires forall a :: a in states[j].settings ==> SetOver(states[k], a)
    requires forall r :: r in states[j].rewraps ==> PassOver(states[k], r)
    ensures !StillNeeded(states[k], kid)
    ensures states[k].roots != [] && MayDrop(states[k], kid)
  {
    hide Next, Legal;
    RunKeeps(states, events, k);
    YoungerThroughout(states, events, j, k, latest);
    var db := states[k];
    forall key | key in db.keys
      ensures !LeadsTo(db.rewraps, key, db.keys[key].rootKid, kid)
    {
      if LeadsTo(db.rewraps, key, db.keys[key].rootKid, kid) {
        var r, i := LastMove(db.rewraps, key, db.keys[key].rootKid, kid);
        assert false;
      }
    }
    assert forall a :: a in db.settings && Brings(db, a, kid) ==> a in states[j].settings && SetOver(db, a);
    MayDropExactlyWhen(db, kid);
  }

  /** What leads to a root key ends with a pass that still moves to it. */
  lemma {:induction false} LastMove(rewraps: map<Id, Rewrapping>, id: Id, from: Kid, to: Kid) returns (r: Id, i: nat)
    requires LeadsTo(rewraps, id, from, to) && from != to
    ensures r in rewraps
    ensures rewraps[r].done <= i < |rewraps[r].keys|
    ensures rewraps[r].roots != []
    ensures rewraps[r].roots[0] == to
    decreases if from < to then to - from else 0
  {
    var mid: Kid;
    r, i, mid :| r in rewraps && Moves(rewraps[r], i, id, from, mid) && from < mid <= to
      && LeadsTo(rewraps, id, mid, to);
    if mid != to {
      r, i := LastMove(rewraps, id, mid, to);
    }
  }

  // ── dropping too soon ──────────────────────────────────────────────────────

  /** A deployment with one root key and nothing set. */
  const Start: Db := Db(map[], map[], map[], [0], map[], map[], 0, map[])

  lemma StartIsSafe()
    ensures Good(Start) && Safe(Start)
  {
    forall t
      ensures ScopeFits(Start.secrets, t)
    {
      assert SecretsAt(Start.secrets, t) == {};
    }
  }

  const HERE: Target := WorkspaceTarget(0)
  const WAITING: WriteArgs := WriteArgs(
    HERE, "A", Secret, None, 0, None, Some(SealedValue(1, Cipher(Data(1), "v", ValueContext(0, HERE, "A")))),
    Some(NewKey(1, OfWorkspace(0), 0, Cipher(Root(0), Data(1), KeyContext(1, OfWorkspace(0))))))

  function Asked(pc: Pc, roots: seq<Kid>, nextId: Id): Db {
    Db(map[], map[], map[], roots, map[0 := Setting(HERE, "A", Secret, "v", None, 1, pc)], map[], nextId, map[])
  }

  lemma PlayRotation()
    ensures Plays(Start, [EStart(0, HERE, "A", Secret, "v", None), EPlan(0, true), ESeal(0), ERotate(1)],
              Asked(Sealed(WAITING), [1, 0], 2))
  {
    var planned := Asked(Planned(Plan(0, OfWorkspace(0), None)), [0], 1);
    var waiting := Asked(Sealed(WAITING), [0], 2);
    var end := Asked(Sealed(WAITING), [1, 0], 2);
    assert Next(Start, EStart(0, HERE, "A", Secret, "v", None)) == Asked(ToPlan, [0], 0);
    assert Next(Asked(ToPlan, [0], 0), EPlan(0, true)) == planned;
    assert Next(planned, ESeal(0)) == waiting;
    assert Next(waiting, ERotate(1)) == end;
    var events := [EStart(0, HERE, "A", Secret, "v", None), EPlan(0, true), ESeal(0), ERotate(1)];
    assert events[1..] == [EPlan(0, true), ESeal(0), ERotate(1)];
    assert events[1..][1..] == [ESeal(0), ERotate(1)];
    assert events[1..][1..][1..] == [ERotate(1)];
    assert Plays(end, [], end);
    assert Plays(waiting, [ERotate(1)], end);
    assert Plays(planned, [ESeal(0), ERotate(1)], end);
    assert Plays(Asked(ToPlan, [0], 0), [EPlan(0, true), ESeal(0), ERotate(1)], end);
  }

  /**
   No data key under the old root key is not enough, as documented it would be: a
   set seals under it, the root key is rotated, nothing is left to re-wrap, the
   old root key is dropped, and the set then stores a value nobody can open.
   */
  lemma DropTooSoon() returns (events: seq<Event>, db: Db)
    ensures Plays(Start, events, db) && db.roots == [1, 0] && StaleKeys(db.keys, 1) == {}
    ensures forall key :: key in db.keys ==> db.keys[key].rootKid != 0
    ensures var done := Next(Next(db, EDrop(0)), EWrite(0, true));
            done.roots == [1] && 0 in done.secrets && OpenRow(done.keys, done.roots, 0, done.secrets[0]) == None
  {
    events := [EStart(0, HERE, "A", Secret, "v", None), EPlan(0, true), ESeal(0), ERotate(1)];
    db := Asked(Sealed(WAITING), [1, 0], 2);
    PlayRotation();
    var dropped := Next(db, EDrop(0));
    assert dropped == Asked(Sealed(WAITING), [1], 2);
    assert Others(dropped.secrets, HERE, "A") == {};
    assert Refusal(dropped, WAITING, true) == None;
  }
}
