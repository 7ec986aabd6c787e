/**
 Which secret a Session gets under a name, and what a set answers, said by the rows
 themselves: the four places a Session's owner reads in a project, the nearest
 first, and every reason a write is refused for.
 */
module SecretsLayers {
  import opened Wrappers
  import opened Secrets
  import opened SecretsProofs

  // ── whose secret is delivered ──────────────────────────────────────────────

  /** No secret of that name is set there. */
  predicate Unset(rows: map<Id, Row>, t: Target, name: Text) {
    forall id :: id in rows && rows[id].target == t ==> rows[id].name != name
  }

  /**
   The row a Session of `user` in project `p` gets under `name`: the person's own for
   this project; without one their personal one; without that the project's; and
   without any of them the one of the project's Workspace.
   */
  predicate Supplies(rows: map<Id, Row>, projects: map<ProjectId, WorkspaceId>, user: UserId, p: ProjectId, name: Text,
          id: Id)
    requires p in projects
  {
    var mine, anywhere := PersonalTarget(user, Some(p)), PersonalTarget(user, None);
    && id in rows && rows[id].name == name
    && (|| rows[id].target == mine
        || (rows[id].target == anywhere && Unset(rows, mine, name))
        || (rows[id].target == ProjectTarget(p) && Unset(rows, mine, name) && Unset(rows, anywhere, name))
        || (rows[id].target == WorkspaceTarget(projects[p]) && Unset(rows, mine, name) && Unset(rows, anywhere, name)
            && Unset(rows, ProjectTarget(p), name)))
  }

  lemma UnsetMeans(rows: map<Id, Row>, t: Target, name: Text)
    ensures Unset(rows, t, name) <==> !HasSecret(rows, t, name)
  {
  }

  /** The highest layer that sets a name is where that row is. */
  lemma SupplierIsWinner(db: Db, user: UserId, p: ProjectId, name: Text)
    requires OneRowPerName(db) && p in db.projects
    ensures var winner := Winner(db.secrets, Layers(db.projects, user, p), name);
            && (winner.None? ==> forall id :: !Supplies(db.secrets, db.projects, user, p, name, id))
            && (winner.Some? ==> forall id :: Supplies(db.secrets, db.projects, user, p, name, id) <==>
                                              id == SecretOf(db.secrets, winner.value, name))
  {
    var layers := Layers(db.projects, user, p);
    var mine, anywhere := PersonalTarget(user, Some(p)), PersonalTarget(user, None);
    UnsetMeans(db.secrets, mine, name);
    UnsetMeans(db.secrets, anywhere, name);
    UnsetMeans(db.secrets, ProjectTarget(p), name);
    UnsetMeans(db.secrets, WorkspaceTarget(db.projects[p]), name);
    HighestOfFour(db.secrets, mine, anywhere, ProjectTarget(p), WorkspaceTarget(db.projects[p]), name);
    var winner := Winner(db.secrets, layers, name);
    hide HasSecret, Winner;
    if winner.Some? {
      forall id | Supplies(db.secrets, db.projects, user, p, name, id)
        ensures id == SecretOf(db.secrets, winner.value, name)
      {
        assert !Unset(db.secrets, db.secrets[id].target, name);
      }
    }
  }

  lemma HighestOfFour(rows: map<Id, Row>, a: Target, b: Target, c: Target, d: Target, name: Text)
    ensures Winner(rows, [a, b, c, d], name) ==
              if HasSecret(rows, a, name) then Some(a)
              else if HasSecret(rows, b, name) then Some(b)
              else if HasSecret(rows, c, name) then Some(c)
              else if HasSecret(rows, d, name) then Some(d)
              else None
  {
    assert [a, b, c, d][1..] == [b, c, d] && [b, c, d][1..] == [c, d] && [c, d][1..] == [d] && [d][1..] == [];
    assert Winner(rows, [d], name) == if HasSecret(rows, d, name) then Some(d) else None;
    assert Winner(rows, [c, d], name) == if HasSecret(rows, c, name) then Some(c) else Winner(rows, [d], name);
  }

  /** What is supplied is the person's own, or of this project or its Workspace: never another's. */
  lemma NeverAnothers(db: Db, user: UserId, p: ProjectId, name: Text, id: Id)
    requires p in db.projects && Supplies(db.secrets, db.projects, user, p, name, id)
    ensures match db.secrets[id].target
            case PersonalTarget(u, only) => u == user && only in {None, Some(p)}
            case ProjectTarget(q) => q == p
            case WorkspaceTarget(w) => w == db.projects[p]
  {
  }

  /** The secret that is removed is gone and no other; narrowing one changes where it reaches and nothing else. */
  lemma RemovedOrNarrowed(db: Db, id: Id, reach: Exposure)
    requires db.roots != [] && id in db.secrets
    ensures Next(db, ERemove(id)).secrets == db.secrets - {id} && Next(db, ERemove(id)).keys == db.keys
    ensures Next(db, EExposure(id, reach)) == db.(secrets := db.secrets[id := db.secrets[id].(exposure := reach)])
  {
  }

  /** Removing a secret uncovers the next one: what then supplies the name is further out than what did. */
  lemma RemovalUncovers(db: Db, user: UserId, p: ProjectId, name: Text, id: Id, next: Id)
    requires db.roots != [] && OneRowPerName(db) && p in db.projects
    requires Supplies(db.secrets, db.projects, user, p, name, id)
    requires Supplies(Next(db, ERemove(id)).secrets, db.projects, user, p, name, next)
    ensures next in db.secrets && next != id
    ensures match db.secrets[id].target
            case PersonalTarget(_, Some(_)) => db.secrets[next].target != PersonalTarget(user, Some(p))
            case PersonalTarget(_, None) =>
              db.secrets[next].target in {ProjectTarget(p), WorkspaceTarget(db.projects[p])}
            case ProjectTarget(_) => db.secrets[next].target == WorkspaceTarget(db.projects[p])
            case WorkspaceTarget(_) => false
  {
    RemovedOrNarrowed(db, id, Setup);
    assert db.secrets[next].target != db.secrets[id].target;
    assert !Unset(db.secrets, db.secrets[next].target, name);
  }

  // ── how a set begins ───────────────────────────────────────────────────────

  /** A set is taken up exactly with a name of at most 128 bytes and a value of at most 32 KiB without a NUL. */
  lemma TakenUpExactlyWhen(db: Db, a: Id, t: Target, name: Text, kind: Kind, value: Text, exposure: Option<Exposure>)
    requires db.roots != [] && a !in db.settings
    ensures Next(db, EStart(a, t, name, kind, value, exposure)) ==
              if 1 <= |name| <= 128 && 1 <= |value| <= 32_768 && !exists i :: 0 <= i < |value| && value[i] == '\0'
              then db.(settings := db.settings[a := Setting(t, name, kind, value, exposure, 1, ToPlan)])
              else db
  {
  }

  /** A set plans to write the row that is there under the data key of the place, or a new row, or a first key. */
  lemma PlansItsRow(db: Db, a: Id, allowed: bool)
    requires OneRowPerName(db) && OneKeyPerOwner(db) && a in db.settings && db.settings[a].pc == ToPlan
    ensures var s, next := db.settings[a], PlanStep(db, a, allowed);
            && a in next.settings && next.secrets == db.secrets && next.keys == db.keys
            && if !allowed || !exists owner :: SealedFor(db, s.target, owner)
               then next.settings[a].pc == Ended(Some(NoAccess))
               else next.settings[a].pc.Planned?
                    && var plan := next.settings[a].pc.plan;
                       && SealedFor(db, s.target, plan.owner)
                       && (forall id ::
                             id in db.secrets && db.secrets[id].target == s.target && db.secrets[id].name == s.name ==>
                             plan.secretId == id)
                       && (Unset(db.secrets, s.target, s.name) ==> plan.secretId == db.nextId)
                       && (forall k :: k in db.keys && db.keys[k].owner == plan.owner ==>
                             plan.dataKey == Some(NewKey(k, plan.owner, db.keys[k].rootKid, db.keys[k].wrapped)))
                       && ((forall k :: k in db.keys ==> db.keys[k].owner != plan.owner) ==> plan.dataKey.None?)
  {
    var s := db.settings[a];
    if Reachable(db.projects, s.target) {
      assert SealedFor(db, s.target, KeyOwner(db.projects, s.target));
    }
  }

  // ── what a write answers ───────────────────────────────────────────────────

  /** Whose data key seals a secret there: the person's own, or that of the project's Workspace. */
  predicate SealedFor(db: Db, t: Target, owner: Owner) {
    match t
    case WorkspaceTarget(w) => owner == OfWorkspace(w)
    case ProjectTarget(p) => p in db.projects && owner == OfWorkspace(db.projects[p])
    case PersonalTarget(u, only) => (only.Some? ==> only.value in db.projects) && owner == OfUser(u)
  }

  /** The value is sealed under the data key of the place, or under a first one nobody stored meanwhile. */
  predicate SealedRight(db: Db, w: WriteArgs) {
    w.value.Some? ==>
      if w.newKey.Some?
      then SealedFor(db, w.target, w.newKey.value.owner) && w.newKey.value.id == w.value.value.kid
           && forall k :: k in db.keys ==> db.keys[k].owner != w.newKey.value.owner
      else w.value.value.kid in db.keys && SealedFor(db, w.target, db.keys[w.value.value.kid].owner)
  }

  /** The write names the row that is there under the name, or a row that is not there when none is. */
  predicate NamesItsRow(db: Db, w: WriteArgs) {
    if exists id :: id in db.secrets && db.secrets[id].target == w.target && db.secrets[id].name == w.name
    then w.secretId in db.secrets && db.secrets[w.secretId].target == w.target && db.secrets[w.secretId].name == w.name
    else w.secretId !in db.secrets
  }

  /** The place keeps within a hundred secrets and 64 KiB with this one in it. */
  ghost predicate Fits(db: Db, w: WriteArgs) {
    var others := set id | id in db.secrets && db.secrets[id].target == w.target && db.secrets[id].name != w.name;
    && |others| + 1 <= 100
    && BytesOf(db.secrets, others) + |w.name| + 1
       + (if w.value.Some? then |w.value.value.cipher.content|
          else if w.plain.Some? then |w.plain.value| else 0) <= 65_536
  }

  /** Exactly why a write is refused, and exactly when it is not. */
  lemma RefusedExactlyWhen(db: Db, w: WriteArgs, allowed: bool)
    ensures Refusal(db, w, allowed) ==
              if !allowed || !exists owner :: SealedFor(db, w.target, owner) then Some(NoAccess)
              else if !SealedRight(db, w) || !NamesItsRow(db, w) then Some(Conflicted)
              else if !Fits(db, w) then Some(OverLimit)
              else None
  {
    if Reachable(db.projects, w.target) {
      assert SealedFor(db, w.target, KeyOwner(db.projects, w.target));
    }
    assert Others(db.secrets, w.target, w.name) ==
           set id | id in db.secrets && db.secrets[id].target == w.target && db.secrets[id].name != w.name;
    hide BytesOf;
  }

  /**
   How a set ends: what changed between its plan and its write sends it back once,
   to plan and seal again; the second time, and any other refusal, is its answer,
   and a refused write stores nothing.
   */
  lemma RefusedSetEnds(db: Db, a: Id, allowed: bool)
    requires a in db.settings && db.settings[a].pc.Sealed?
    requires Refusal(db, db.settings[a].pc.args, allowed).Some?
    ensures var s := db.settings[a];
            var refusal := Refusal(db, s.pc.args, allowed).value;
            WriteStep(db, a, allowed) ==
              db.(settings := db.settings[a :=
                if refusal == Conflicted && s.attempt <= 1 then s.(attempt := s.attempt + 1, pc := ToPlan)
                else s.(pc := Ended(Some(refusal)))])
  {
    hide Refusal;
  }

  // ── what a re-wrap pass stores ─────────────────────────────────────────────

  /**
   A pass ends on a key it cannot open with the root keys it read. Otherwise it takes
   one more key up: wrapped under its newest root key and counted if that key is
   still under the root key it was read with, left alone and not counted if not.
   */
  lemma PassStores(db: Db, r: Id)
    requires r in db.rewraps && db.rewraps[r].done < |db.rewraps[r].keys| && db.rewraps[r].roots != []
    requires var w := db.rewraps[r]; w.keys[w.done].rootKid != w.roots[0]
    ensures var w, next := db.rewraps[r], StoreStep(db, r);
            var key := w.keys[w.done];
            var context := KeyContext(key.id, key.owner);
            && (next.rewraps.Keys == db.rewraps.Keys - {r} <==>
                key.rootKid !in w.roots || key.wrapped.under != Root(key.rootKid) || key.wrapped.context != context)
            && if r !in next.rewraps then next == db.(rewraps := db.rewraps - {r})
               else if key.id in db.keys && db.keys[key.id].rootKid == key.rootKid
               then next == db.(keys := db.keys[key.id := KeyRow(db.keys[key.id].owner, w.roots[0],
                                      Cipher(Root(w.roots[0]), key.wrapped.content, context))],
                                rewraps := db.rewraps[r := w.(done := w.done + 1, rewrapped := w.rewrapped + 1)])
               else next == db.(rewraps := db.rewraps[r := w.(done := w.done + 1)])
  {
    var w, next := db.rewraps[r], StoreStep(db, r);
    var key := w.keys[w.done];
    if key.id in db.keys && db.keys[key.id].rootKid == key.rootKid {
      assert r in next.rewraps ==> next.keys[key.id] != db.keys[key.id];
    }
  }
}
