/**
 The write, the re-wrap pass and the delivery as they run, over the rows they
 patch: each is proved against what `Secrets` says of the same step.
 */
module SecretsVault {
  import opened Wrappers
  import opened Secrets
  import opened SecretsLayers
  import opened SecretsProofs

  datatype Delivery = Refused | Withheld | Delivered(entries: map<Text, Text>)

  class Vault {
    var secrets: map<Id, Row>
    var keys: map<Id, KeyRow>
    var projects: map<ProjectId, WorkspaceId>
    /** The deployment's root keys, current first. */
    var roots: seq<Kid>
    ghost var nextId: Id
    ghost var written: map<(Target, Text), Text>

    ghost function State(): Db
      reads this
    {
      Db(secrets, keys, projects, roots, map[], map[], nextId, written)
    }

    constructor (root: Kid)
      ensures Good(State()) && Safe(State())
    {
      secrets, keys, projects, roots := map[], map[], map[], [root];
      nextId, written := 0, map[];
      new;
      forall t
        ensures ScopeFits(secrets, t)
      {
        assert SecretsAt(secrets, t) == {};
      }
    }

    method FindSecret(t: Target, name: Text) returns (found: Option<Id>)
      ensures found.Some? <==> HasSecret(secrets, t, name)
      ensures found.Some? ==>
              found.value in secrets && secrets[found.value].target == t && secrets[found.value].name == name
    {
      var left := secrets.Keys;
      while left != {}
        invariant left <= secrets.Keys
        invariant forall id :: id in secrets && id !in left ==> !(secrets[id].target == t && secrets[id].name == name)
      {
        var id :| id in left;
        if secrets[id].target == t && secrets[id].name == name {
          return Some(id);
        }
        left := left - {id};
      }
      return None;
    }

    method FindKey(owner: Owner) returns (found: Option<Id>)
      ensures found.Some? <==> HasKey(keys, owner)
      ensures found.Some? ==> found.value in keys && keys[found.value].owner == owner
    {
      var left := keys.Keys;
      while left != {}
        invariant left <= keys.Keys
        invariant forall k :: k in keys && k !in left ==> keys[k].owner != owner
      {
        var k :| k in left;
        if keys[k].owner == owner {
          return Some(k);
        }
        left := left - {k};
      }
      return None;
    }

    /** How many other secrets a scope holds, and their bytes. */
    method Weigh(t: Target, name: Text) returns (count: nat, bytes: nat)
      ensures count == |Others(secrets, t, name)| && bytes == BytesOf(secrets, Others(secrets, t, name))
    {
      var left := secrets.Keys;
      ghost var seen: set<Id> := {};
      count, bytes := 0, 0;
      while left != {}
        invariant left <= secrets.Keys && seen <= secrets.Keys
        invariant forall id :: id in seen <==> id in Others(secrets, t, name) && id !in left
        invariant count == |seen| && bytes == BytesOf(secrets, seen)
      {
        var id :| id in left;
        left := left - {id};
        if secrets[id].target == t && secrets[id].name != name {
          BytesAnyOrder(secrets, seen + {id}, id);
          assert seen + {id} - {id} == seen;
          seen := seen + {id};
          count := count + 1;
          bytes := bytes + RowBytes(secrets[id].name, secrets[id].plain, secrets[id].value);
        }
      }
      assert seen == Others(secrets, t, name);
    }

    /** The row a write inserts, or what it makes of the one there is. */
    method NewRow(w: WriteArgs, existing: Option<Id>) returns (row: Row)
      requires existing == if w.secretId in secrets then Some(w.secretId) else None
      ensures row == Stored(secrets, w)
    {
      row := Row(w.target, w.name, w.kind, w.plain, w.value, Session, 1);
      if existing.Some? {
        row := secrets[existing.value].(kind := w.kind, plain := w.plain, value := w.value,
            version := secrets[existing.value].version + 1);
      }
      if w.exposure.Some? {
        row := row.(exposure := w.exposure.value);
      }
    }

    method Write(w: WriteArgs, allowed: bool) returns (o: Outcome)
      requires OneRowPerName(State())
      modifies this`secrets, this`keys
      ensures State() == Secrets.Write(old(State()), w, allowed)
      ensures var refusal := Refusal(old(State()), w, allowed);
              o == if refusal.Some? then refusal.value
                else Written(w.secretId, secrets[w.secretId].version, w.secretId !in old(secrets))
    {
      hide Stored, BytesOf;
      if !allowed || !Reachable(projects, w.target) {
        return NoAccess;
      }
      if w.value.Some? {
        var owner := KeyOwner(projects, w.target);
        if w.newKey.Some? {
          var existing := FindKey(owner);
          if existing.Some? || w.newKey.value.owner != owner || w.newKey.value.id != w.value.value.kid {
            return Conflicted;
          }
        } else if w.value.value.kid !in keys || keys[w.value.value.kid].owner != owner {
          return Conflicted;
        }
      }
      var existing := FindSecret(w.target, w.name);
      if (if existing.Some? then existing.value != w.secretId else w.secretId in secrets) {
        return Conflicted;
      }
      var count, bytes := Weigh(w.target, w.name);
      if count >= MAX_SECRETS_PER_SCOPE || bytes + RowBytes(w.name, w.plain, w.value) > MAX_SCOPE_BYTES {
        return OverLimit;
      }
      if w.value.Some? && w.newKey.Some? {
        keys := keys[w.newKey.value.id := KeyRow(w.newKey.value.owner, w.newKey.value.rootKid, w.newKey.value.wrapped)];
      }
      var row := NewRow(w, existing);
      secrets := secrets[w.secretId := row];
      return Written(w.secretId, row.version, existing.None?);
    }

    // ── re-wrapping ──────────────────────────────────────────────────────────

    method Stale(current: Kid) returns (batch: seq<NewKey>)
      ensures IsStaleBatch(keys, current, batch)
    {
      var left := keys.Keys;
      batch := [];
      ghost var seen: set<Id> := {};
      hide Ids;
      NoIds();
      while left != {} && |batch| < BATCH
        invariant |seen| == |batch| <= BATCH && seen == Ids(batch)
        invariant forall i :: 0 <= i < |batch| ==> AsStored(keys, batch[i]) && batch[i].rootKid != current
        invariant forall i :: 0 <= i < |batch| ==> batch[i].id !in left
        invariant forall i, j :: 0 <= i < j < |batch| ==> batch[i].id != batch[j].id
        invariant seen == StaleKeys(keys, current) - left && left <= keys.Keys
      {
        var k :| k in left;
        left := left - {k};
        if keys[k].rootKid != current {
          IdsGrow(batch, NewKey(k, keys[k].owner, keys[k].rootKid, keys[k].wrapped));
          batch := batch + [NewKey(k, keys[k].owner, keys[k].rootKid, keys[k].wrapped)];
          seen := seen + {k};
        }
      }
      AllOrBatch(seen, StaleKeys(keys, current), left);
    }

    /** One key of a batch: unwrapped, wrapped again, stored unless its root key changed. */
    method RewrapOne(key: NewKey) returns (stored: bool)
      requires Good(State()) && Safe(State()) && AsStored(keys, key) && key.rootKid != roots[0]
      modifies this`keys
      ensures keys.Keys == old(keys).Keys && forall k :: k in keys && k != key.id ==> keys[k] == old(keys)[k]
      ensures key.id in StaleKeys(old(keys), roots[0])
      ensures StaleKeys(keys, roots[0]) == StaleKeys(old(keys), roots[0]) - {key.id}
      ensures stored
      ensures keys == Store(old(keys), key.id, key.rootKid, roots[0],
                Wrap(roots, old(keys)[key.id].wrapped.content, KeyContext(key.id, key.owner)))
      ensures Good(State()) && Safe(State()) && KeysKept(old(State()), State())
    {
      assert GoodKey(State(), key.id);
      KeyIsNeeded(State(), key.id);
      var context := KeyContext(key.id, key.owner);
      var raw := Unwrap(roots, key.rootKid, key.wrapped, context);
      var wrapped := Wrap(roots, raw.value, context);
      ghost var before := State();
      stored := keys[key.id].rootKid == key.rootKid;
      if stored {
        keys := keys[key.id := keys[key.id].(rootKid := roots[0], wrapped := wrapped)];
        OneRewrapped(before, State(), key.id);
        StillConfigured(before, State(), key.id);
      }
    }

    /** The next key of a batch, the others still as the batch has them. */
    method RewrapNext(batch: seq<NewKey>, i: nat, ghost was: Db) returns (stored: bool)
      requires Good(State())
      requires Safe(State())
      requires KeysKept(was, State())
      requires i < |batch|
      requires StaleFrom(keys, roots[0], batch, i)
      modifies this`keys
      ensures Good(State()) && Safe(State()) && KeysKept(was, State()) && keys.Keys == old(keys.Keys) && stored
      ensures StaleFrom(keys, roots[0], batch, i + 1)
      ensures |StaleKeys(keys, roots[0])| + 1 == |StaleKeys(old(keys), roots[0])|
    {
      hide Good, Safe, GoodKey, Store, StaleKeys, Wrap, KeysKept, AsStored;
      ghost var before := State();
      stored := RewrapOne(batch[i]);
      OthersAsStored(before.keys, keys, batch, i);
      KeptTwice(was, before, State());
    }

    /** Every key of a batch in turn. */
    method RewrapBatch(batch: seq<NewKey>) returns (rewrapped: nat)
      requires Good(State()) && Safe(State()) && StaleFrom(keys, roots[0], batch, 0)
      modifies this`keys
      ensures Good(State()) && Safe(State()) && KeysKept(old(State()), State()) && keys.Keys == old(keys.Keys)
      ensures rewrapped == |batch| && |StaleKeys(keys, roots[0])| + rewrapped == |StaleKeys(old(keys), roots[0])|
    {
      hide Good, Safe, StaleKeys, KeysKept, StaleFrom;
      HasRoots(State());
      rewrapped := 0;
      ghost var was := State();
      KeptAtFirst(was);
      for i := 0 to |batch|
        invariant Good(State()) && Safe(State()) && KeysKept(was, State()) && keys.Keys == was.keys.Keys
        invariant rewrapped == i && StaleFrom(keys, roots[0], batch, i)
        invariant |StaleKeys(keys, roots[0])| + i == |StaleKeys(was.keys, roots[0])|
      {
        var stored := RewrapNext(batch, i, was);
        if stored {
          rewrapped := rewrapped + 1;
        }
      }
    }

    /** One pass over a batch, nobody else writing meanwhile. */
    method Rewrap() returns (rewrapped: nat, more: bool)
      requires Good(State()) && Safe(State())
      modifies this`keys
      ensures Good(State()) && Safe(State()) && KeysKept(old(State()), State()) && keys.Keys == old(keys.Keys)
      ensures |StaleKeys(keys, roots[0])| + rewrapped == |StaleKeys(old(keys), roots[0])|
      ensures rewrapped == if |StaleKeys(old(keys), roots[0])| < BATCH then |StaleKeys(old(keys), roots[0])| else BATCH
      ensures more <==> rewrapped == BATCH
    {
      hide Good, Safe, StaleKeys, KeysKept, AsStored;
      HasRoots(State());
      var batch := Stale(roots[0]);
      rewrapped := RewrapBatch(batch);
      more := |batch| == BATCH;
    }

    /** Re-wrapping to the end leaves no data key under an old root key, and every value where it was. */
    method RewrapAll()
      requires Good(State()) && Safe(State())
      modifies this`keys
      ensures Good(State()) && Safe(State()) && KeysKept(old(State()), State()) && keys.Keys == old(keys.Keys)
      ensures StaleKeys(keys, roots[0]) == {}
    {
      var more := true;
      while more
        invariant Good(State()) && Safe(State()) && KeysKept(old(State()), State()) && keys.Keys == old(keys.Keys)
        invariant !more ==> |StaleKeys(keys, roots[0])| == 0
        decreases |StaleKeys(keys, roots[0])| + (if more then 1 else 0)
      {
        var rewrapped: nat;
        rewrapped, more := Rewrap();
      }
    }

    // ── delivery ─────────────────────────────────────────────────────────────

    /**
     What a Session of `user` in `p` receives for `purpose`: under each name the value
     last written to the row that supplies it, if that row reaches the purpose.
     `entitled`: the runner holds the claim and its owner is a member; `injects`: the
     runner's owner lets secrets reach it.
     */
    method Deliver(user: UserId, p: ProjectId, purpose: Exposure, entitled: bool, injects: bool) returns (d: Delivery)
      requires Good(State()) && Safe(State())
      ensures d == Refused <==> !entitled || p !in projects
      ensures d == Withheld <==> entitled && p in projects && !injects
      ensures d.Delivered? ==> forall name :: name in d.entries <==>
                exists id :: Supplies(secrets, projects, user, p, name, id)
                             && (secrets[id].exposure == Session || purpose == Setup)
      ensures d.Delivered? ==> forall name, id ::
                name in d.entries && Supplies(secrets, projects, user, p, name, id) ==>
                (secrets[id].target, name) in written && d.entries[name] == written[(secrets[id].target, name)]
    {
      if !entitled || p !in projects {
        return Refused;
      }
      if !injects {
        return Withheld;
      }
      var winners := Winners(Layers(projects, user, p));
      var entries := OpenWinners(winners, purpose);
      d := Delivered(entries);
      forall name
        ensures forall id :: Supplies(secrets, projects, user, p, name, id) <==> name in winners && id == winners[name]
      {
        SupplierIsWinner(State(), user, p, name);
        if name in winners {
          assert IsRowOf(winners[name], Winner(secrets, Layers(projects, user, p), name), name);
        }
      }
      hide Supplies, Layers, Winner, Good, Safe;
    }

    /** The winners whose exposure reaches `purpose`, opened. */
    method OpenWinners(winners: map<Text, Id>, purpose: Exposure) returns (entries: map<Text, Text>)
      requires Good(State()) && Safe(State())
      requires forall name :: name in winners ==> winners[name] in secrets && secrets[winners[name]].name == name
      ensures forall name :: name in entries <==> name in winners && Reaches(secrets[winners[name]].exposure, purpose)
      ensures forall name :: name in entries ==>
                (secrets[winners[name]].target, name) in written
                  && entries[name] == written[(secrets[winners[name]].target, name)]
    {
      hide Good, Safe;
      var dataKeys := DataKeys(winners.Values);
      entries := map[];
      var left := winners.Keys;
      while left != {}
        invariant left <= winners.Keys
        invariant forall name :: name in entries <==>
                  name in winners && name !in left && Reaches(secrets[winners[name]].exposure, purpose)
        invariant forall name :: name in entries ==>
                    name in winners && (secrets[winners[name]].target, name) in written
                      && entries[name] == written[(secrets[winners[name]].target, name)]
      {
        var name :| name in left;
        left := left - {name};
        var id := winners[name];
        var row := secrets[id];
        assert id in winners.Values;
        OpensToLastWritten(State(), id);
        if Reaches(row.exposure, purpose) {
          var value := [];
          if row.value.None? {
            value := row.plain.value;
          } else {
            value := Open(dataKeys[row.value.value.kid], row.value.value.cipher,
                ValueContext(id, row.target, row.name)).value;
          }
          entries := entries[name := value];
        }
      }
    }

    predicate IsRowOf(id: Id, t: Option<Target>, name: Text)
      reads this
    {
      t.Some? && id in secrets && secrets[id].target == t.value && secrets[id].name == name
    }

    /** For each name, the row of the highest layer that sets it. */
    method Winners(layers: seq<Target>) returns (winners: map<Text, Id>)
      requires OneRowPerName(State())
      ensures forall name :: name in winners <==> Winner(secrets, layers, name).Some?
      ensures forall name :: name in winners ==> IsRowOf(winners[name], Winner(secrets, layers, name), name)
    {
      winners := map[];
      var i := |layers|;
      while i > 0
        invariant 0 <= i <= |layers|
        invariant forall name :: name in winners <==> Winner(secrets, layers[i..], name).Some?
        invariant forall name :: name in winners ==> IsRowOf(winners[name], Winner(secrets, layers[i..], name), name)
      {
        i := i - 1;
        assert layers[i..][1..] == layers[i + 1..] && layers[i..][0] == layers[i];
        winners := Overlay(winners, layers[i]);
      }
      assert layers[0..] == layers;
    }

    /** A layer's rows laid over those below it. */
    method Overlay(below: map<Text, Id>, t: Target) returns (winners: map<Text, Id>)
      requires OneRowPerName(State())
      ensures forall name :: name in winners <==> HasSecret(secrets, t, name) || name in below
      ensures forall name :: name in winners && !HasSecret(secrets, t, name) ==> winners[name] == below[name]
      ensures forall name :: name in winners && HasSecret(secrets, t, name) ==>
                winners[name] in secrets && secrets[winners[name]].name == name && secrets[winners[name]].target == t
    {
      winners := below;
      var left := secrets.Keys;
      while left != {}
        invariant left <= secrets.Keys
        invariant forall name :: name in winners <==>
                  name in below || exists id ::
                  id in secrets && id !in left && secrets[id].target == t && secrets[id].name == name
        invariant forall id :: id in secrets && id !in left && secrets[id].target == t ==>
                  winners[secrets[id].name] == id
        invariant forall name :: name in winners && name in below ==>
                    winners[name] == below[name] || (winners[name] in secrets && secrets[winners[name]].target == t
                        && secrets[winners[name]].name == name)
      {
        var id :| id in left;
        left := left - {id};
        if secrets[id].target == t {
          winners := winners[secrets[id].name := id];
        }
      }
    }

    /** The data keys of some rows, unwrapped. */
    method DataKeys(ids: set<Id>) returns (dataKeys: map<Id, Material>)
      requires Good(State()) && Safe(State()) && ids <= secrets.Keys
      ensures forall id :: id in ids && secrets[id].value.Some? ==>
                secrets[id].value.value.kid in dataKeys && secrets[id].value.value.kid in keys
                && dataKeys[secrets[id].value.value.kid] == keys[secrets[id].value.value.kid].wrapped.content
    {
      hide Good, Safe, Unwrap;
      dataKeys := map[];
      var left := ids;
      while left != {}
        invariant left <= ids
        invariant forall k :: k in dataKeys ==> k in keys && dataKeys[k] == keys[k].wrapped.content
        invariant forall id :: id in ids && id !in left && secrets[id].value.Some? ==>
                  secrets[id].value.value.kid in dataKeys
      {
        var id :| id in left;
        left := left - {id};
        if secrets[id].value.Some? {
          var kid := secrets[id].value.value.kid;
          RowsKeyOpens(State(), id);
          var key := keys[kid];
          dataKeys := dataKeys[kid := Unwrap(roots, key.rootKid, key.wrapped, KeyContext(kid, key.owner)).value];
        }
      }
    }
  }

  /** The data key of a sealed row opens. */
  lemma RowsKeyOpens(db: Db, id: Id)
    requires Good(db) && Safe(db) && id in db.secrets && db.secrets[id].value.Some?
    ensures var kid := db.secrets[id].value.value.kid;
            && kid in db.keys
            && Unwrap(db.roots, db.keys[kid].rootKid, db.keys[kid].wrapped, KeyContext(kid, db.keys[kid].owner)) ==
                 Some(db.keys[kid].wrapped.content)
  {
    hide Good, Safe;
    RowIsGood(db, id);
    KeyIsGood(db, db.secrets[id].value.value.kid);
    KeyIsNeeded(db, db.secrets[id].value.value.kid);
  }

  function Ids(batch: seq<NewKey>): set<Id> {
    set key | key in batch :: key.id
  }

  /** From the `i`-th on a batch has keys as they are stored, stale and each once. */
  predicate StaleFrom(keys: map<Id, KeyRow>, current: Kid, batch: seq<NewKey>, i: nat) {
    && (forall j :: i <= j < |batch| ==> AsStored(keys, batch[j]) && batch[j].rootKid != current)
    && (forall j, k :: i <= j < k < |batch| ==> batch[j].id != batch[k].id)
  }

  lemma OthersAsStored(before: map<Id, KeyRow>, keys: map<Id, KeyRow>, batch: seq<NewKey>, i: nat)
    requires i < |batch|
    requires keys.Keys == before.Keys
    requires forall k :: k in keys && k != batch[i].id ==> keys[k] == before[k]
    requires forall j :: i < j < |batch| ==> AsStored(before, batch[j]) && batch[j].id != batch[i].id
    ensures forall j :: i < j < |batch| ==> AsStored(keys, batch[j])
  {
  }

  lemma AllOrBatch(seen: set<Id>, stale: set<Id>, left: set<Id>)
    requires seen == stale - left
    ensures |seen| <= |stale| && (left == {} ==> |seen| == |stale|)
  {
    SubsetSize(seen, stale);
    if left == {} {
      assert seen == stale;
    }
  }

  lemma NoIds()
    ensures Ids([]) == {}
  {
  }

  lemma IdsGrow(batch: seq<NewKey>, key: NewKey)
    ensures Ids(batch + [key]) == Ids(batch) + {key.id}
  {
    assert key in batch + [key];
    forall other | other in batch
      ensures other in batch + [key]
    {
    }
  }

  lemma HasRoots(db: Db)
    requires Good(db)
    ensures db.roots != []
  {
  }

  lemma KeptAtFirst(a: Db)
    ensures KeysKept(a, a)
  {
  }

  lemma KeptTwice(a: Db, b: Db, c: Db)
    requires KeysKept(a, b) && KeysKept(b, c)
    ensures KeysKept(a, c)
  {
  }

  /** With nothing under way, what is needed is what the data keys are under. */
  lemma NeededAlone(db: Db)
    requires db.settings == map[] && db.rewraps == map[]
    ensures Safe(db) <==> forall k :: k in db.keys ==> db.keys[k].rootKid in db.roots
  {
    if Safe(db) {
      forall k | k in db.keys
        ensures db.keys[k].rootKid in db.roots
      {
        KeyIsNeeded(db, k);
      }
    }
  }

  lemma StillConfigured(before: Db, db: Db, id: Id)
    requires before.settings == map[]
    requires before.rewraps == map[]
    requires before.roots != []
    requires Safe(before)
    requires id in before.keys
    requires db == before.(keys := db.keys)
    requires db.keys.Keys == before.keys.Keys
    requires db.keys[id].rootKid == before.roots[0]
    requires forall k :: k in db.keys && k != id ==> db.keys[k] == before.keys[k]
    ensures Safe(db)
  {
    NeededAlone(before);
    NeededAlone(db);
  }

  /** Re-wrapping one key keeps everything good. */
  lemma OneRewrapped(before: Db, db: Db, id: Id)
    requires Good(before) && before.settings == map[] && before.rewraps == map[] && id in before.keys
    requires db == before.(keys := before.keys[id :=
               before.keys[id].(rootKid := before.roots[0],
                   wrapped := Cipher(Root(before.roots[0]), before.keys[id].wrapped.content,
                     KeyContext(id, before.keys[id].owner)))])
    ensures Good(db) && KeysKept(before, db)
  {
    forall k | k in db.keys
      ensures GoodKey(db, k)
    {
      assert GoodKey(before, k);
    }
    KeysAside(before, db);
  }
}
