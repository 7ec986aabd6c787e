/**
 What every interleaving of setting, removing, narrowing, moving, rotating and
 re-wrapping keeps: one data key per owner, one row per scope and name, every
 sealed value openable as the value last written, every scope within its bounds.
 */
module SecretsProofs {
  import opened Wrappers
  import opened Secrets

  // ── sizes ──────────────────────────────────────────────────────────────────

  lemma {:induction false} BytesAnyOrder(rows: map<Id, Row>, ids: set<Id>, id: Id)
    requires ids <= rows.Keys && id in ids
    ensures BytesOf(rows, ids) == RowBytes(rows[id].name, rows[id].plain, rows[id].value) + BytesOf(rows, ids - {id})
    decreases |ids|
  {
    var first :| first in ids && BytesOf(rows, ids) == RowBytes(rows[first].name, rows[first].plain, rows[first].value)
        + BytesOf(rows, ids - {first});
    if first != id {
      BytesAnyOrder(rows, ids - {first}, id);
      BytesAnyOrder(rows, ids - {id}, first);
      assert ids - {first} - {id} == ids - {id} - {first};
    }
  }

  predicate SameBytes(a: Row, b: Row) {
    a.name == b.name && a.plain == b.plain && a.value == b.value
  }

  lemma {:induction false} BytesSame(rows: map<Id, Row>, other: map<Id, Row>, ids: set<Id>)
    requires ids <= rows.Keys && ids <= other.Keys && forall id :: id in ids ==> SameBytes(rows[id], other[id])
    ensures BytesOf(rows, ids) == BytesOf(other, ids)
    decreases |ids|
  {
    if ids != {} {
      var id :| id in ids && BytesOf(rows, ids) ==
          RowBytes(rows[id].name, rows[id].plain, rows[id].value) + BytesOf(rows, ids - {id});
      BytesSame(rows, other, ids - {id});
      BytesAnyOrder(other, ids, id);
    }
  }

  lemma SameScopeFits(rows: map<Id, Row>, other: map<Id, Row>, t: Target)
    requires ScopeFits(rows, t) && SecretsAt(other, t) == SecretsAt(rows, t)
    requires forall id :: id in SecretsAt(rows, t) ==> SameBytes(rows[id], other[id])
    ensures ScopeFits(other, t)
  {
    BytesSame(rows, other, SecretsAt(rows, t));
  }

  /** A row replaced or added at a scope counts with the scope's others. */
  lemma PutFits(rows: map<Id, Row>, t: Target, name: Text, id: Id, row: Row)
    requires row.target == t && row.name == name
    requires id in rows ==> rows[id].target == t && rows[id].name == name
    requires forall i :: i in rows && rows[i].target == t && rows[i].name == name ==> i == id
    requires |Others(rows, t, name)| < MAX_SECRETS_PER_SCOPE
    requires BytesOf(rows, Others(rows, t, name)) + RowBytes(row.name, row.plain, row.value) <= MAX_SCOPE_BYTES
    ensures ScopeFits(rows[id := row], t)
  {
    var next := rows[id := row];
    var others := Others(rows, t, name);
    hide BytesOf, RowBytes;
    assert SecretsAt(next, t) == others + {id};
    BytesAnyOrder(next, SecretsAt(next, t), id);
    assert SecretsAt(next, t) - {id} == others;
    BytesSame(rows, next, others);
  }

  lemma PutElsewhereFits(rows: map<Id, Row>, t: Target, id: Id, row: Row)
    requires ScopeFits(rows, t) && row.target != t && (id in rows ==> rows[id].target == row.target)
    ensures ScopeFits(rows[id := row], t)
  {
    assert SecretsAt(rows[id := row], t) == SecretsAt(rows, t);
    SameScopeFits(rows, rows[id := row], t);
  }

  /** A write that passed the limits leaves its scope within them, and every other scope as it was. */
  lemma WriteFits(db: Db, w: WriteArgs, allowed: bool, t: Target)
    requires ScopeFits(db.secrets, t) && OneRowPerName(db) && Refusal(db, w, allowed).None?
    ensures ScopeFits(Write(db, w, allowed).secrets, t)
  {
    var row := Stored(db.secrets, w);
    if t == w.target {
      PutFits(db.secrets, t, w.name, w.secretId, row);
    } else {
      PutElsewhereFits(db.secrets, t, w.secretId, row);
    }
  }

  lemma RemoveFits(rows: map<Id, Row>, id: Id, t: Target)
    requires ScopeFits(rows, t) && id in rows
    ensures ScopeFits(rows - {id}, t)
  {
    var at := SecretsAt(rows, t);
    if id in at {
      assert SecretsAt(rows - {id}, t) == at - {id};
      BytesAnyOrder(rows, at, id);
      BytesSame(rows, rows - {id}, at - {id});
    } else {
      assert SecretsAt(rows - {id}, t) == at;
      BytesSame(rows, rows - {id}, at);
    }
  }

  lemma ExposureFits(rows: map<Id, Row>, id: Id, e: Exposure, t: Target)
    requires ScopeFits(rows, t) && id in rows
    ensures ScopeFits(rows[id := rows[id].(exposure := e)], t)
  {
    assert SecretsAt(rows[id := rows[id].(exposure := e)], t) == SecretsAt(rows, t);
    SameScopeFits(rows, rows[id := rows[id].(exposure := e)], t);
  }

  // ── what every event keeps ─────────────────────────────────────────────────

  // The parts of the invariant, one at a time.

  lemma RowIsGood(db: Db, id: Id)
    requires Good(db) && id in db.secrets
    ensures GoodRow(db, id)
  {
  }

  lemma KeyIsGood(db: Db, k: Id)
    requires Good(db) && k in db.keys
    ensures GoodKey(db, k)
  {
  }

  lemma SettingIsGood(db: Db, a: Id)
    requires Good(db) && a in db.settings
    ensures GoodSetting(db, a)
  {
  }

  lemma RewrapIsGood(db: Db, r: Id)
    requires Good(db) && r in db.rewraps
    ensures GoodRewrap(db, r)
  {
  }

  lemma RestIsGood(db: Db)
    requires Good(db)
    ensures db.roots != [] && NewestFirst(db.roots) && OneKeyPerOwner(db) && OneRowPerName(db)
    ensures Bounded(db) && NewKeysDiffer(db) && WrittenIsStored(db)
  {
  }

  /** Data keys stay: a re-wrap changes what wraps a key, never the key, and nothing deletes one. */
  ghost predicate KeysKept(db: Db, next: Db) {
    && (forall k :: k in db.keys ==>
         k in next.keys && next.keys[k].owner == db.keys[k].owner
         && next.keys[k].wrapped.content == db.keys[k].wrapped.content)
    && next.nextId >= db.nextId
  }

  lemma RowsKept(db: Db, next: Db)
    requires forall id :: id in db.secrets ==> GoodRow(db, id)
    requires KeysKept(db, next)
    requires next.secrets == db.secrets
    requires next.written == db.written
    ensures forall id :: id in next.secrets ==> GoodRow(next, id)
  {
    forall id | id in next.secrets
      ensures GoodRow(next, id)
    {
      assert GoodRow(db, id);
    }
  }

  lemma RewrapsKept(db: Db, next: Db)
    requires (forall r :: r in db.rewraps ==> GoodRewrap(db, r)) && KeysKept(db, next) && next.rewraps == db.rewraps
    requires db.roots != [] && next.roots != [] && db.roots[0] <= next.roots[0]
    ensures forall r :: r in next.rewraps ==> GoodRewrap(next, r)
  {
    forall r | r in next.rewraps
      ensures GoodRewrap(next, r)
    {
      assert GoodRewrap(db, r);
    }
  }

  /** An action's own state still fits when the keys it does not know of are not its own. */
  lemma SettingKept(db: Db, next: Db, a: Id)
    requires a in db.settings
    requires a in next.settings
    requires next.settings[a] == db.settings[a]
    requires GoodSetting(db, a)
    requires KeysKept(db, next)
    requires Carries(db.settings[a]) ==> db.settings[a].pc.args.newKey.value.id !in next.keys
    ensures GoodSetting(next, a)
  {
  }

  /** A step of action `a` that touches nothing but its own state. */
  lemma SettingOnly(db: Db, next: Db, a: Id)
    requires Good(db) && a in next.settings && next.settings == db.settings[a := next.settings[a]]
    requires next == db.(settings := next.settings, nextId := next.nextId) && next.nextId >= db.nextId
    requires GoodSetting(next, a)
    requires Carries(next.settings[a]) ==> next.settings[a].pc.args.newKey.value.id >= db.nextId
    ensures Good(next)
  {
    assert KeysKept(db, next);
    RowsKept(db, next);
    RewrapsKept(db, next);
    forall b | b in next.settings
      ensures GoodSetting(next, b)
    {
      if b != a {
        assert GoodSetting(db, b);
        SettingKept(db, next, b);
      }
    }
    forall k | k in next.keys
      ensures GoodKey(next, k)
    {
      assert GoodKey(db, k);
    }
    forall b, c | b in next.settings && c in next.settings && b != c && Carries(next.settings[b])
        && Carries(next.settings[c])
      ensures next.settings[b].pc.args.newKey.value.id != next.settings[c].pc.args.newKey.value.id
    {
      if b != a { assert GoodSetting(db, b); }
      if c != a { assert GoodSetting(db, c); }
    }
    forall t
      ensures ScopeFits(next.secrets, t)
    {
      assert ScopeFits(db.secrets, t);
    }
  }

  lemma StartKeeps(db: Db, e: Event)
    requires Good(db) && Legal(db, e) && e.EStart?
    ensures Good(Next(db, e))
  {
    if Settable(e.name, e.value) {
      SettingOnly(db, Next(db, e), e.a);
    }
  }

  lemma PlanKeeps(db: Db, a: Id, allowed: bool)
    requires Good(db) && a in db.settings
    ensures Good(PlanStep(db, a, allowed))
  {
    hide Good, GoodRow, GoodRewrap;
    var s := db.settings[a];
    SettingIsGood(db, a);
    if s.pc == ToPlan {
      if allowed && Reachable(db.projects, s.target) && HasKey(db.keys, KeyOwner(db.projects, s.target)) {
        KeyIsGood(db, KeyOf(db.keys, KeyOwner(db.projects, s.target)));
      }
      SettingOnly(db, PlanStep(db, a, allowed), a);
    }
  }

  /** What an action sealed is good wherever its plan was. */
  lemma SealKeeps(db: Db, a: Id)
    requires Good(db) && a in db.settings
    ensures Good(SealStep(db, a))
  {
    var s := db.settings[a];
    if s.pc.Planned? {
      assert GoodSetting(db, a);
      forall k | k in db.keys
        ensures k < db.nextId
      {
        assert GoodKey(db, k);
      }
      SettingOnly(db, SealStep(db, a), a);
    }
  }

  lemma ExposureKeeps(db: Db, id: Id, exposure: Exposure)
    requires Good(db)
    ensures Good(Next(db, EExposure(id, exposure)))
  {
    if id in db.secrets {
      RowsTouched(db, Next(db, EExposure(id, exposure)));
      ExposureRows(db, id, exposure);
      ExposureNames(db, id, exposure);
    }
  }

  lemma ExposureIs(db: Db, id: Id, exposure: Exposure)
    requires db.roots != [] && id in db.secrets
    ensures Next(db, EExposure(id, exposure)) == db.(secrets := db.secrets[id := db.secrets[id].(exposure := exposure)])
  {
  }

  lemma ExposureNames(db: Db, id: Id, exposure: Exposure)
    requires Good(db) && id in db.secrets
    ensures var next := Next(db, EExposure(id, exposure));
            OneRowPerName(next) && WrittenIsStored(next) && Bounded(next)
  {
    hide Good, Next, ScopeFits;
    RestIsGood(db);
    ExposureIs(db, id, exposure);
    var rows := db.secrets[id := db.secrets[id].(exposure := exposure)];
    forall t
      ensures ScopeFits(rows, t)
    {
      ExposureFits(db.secrets, id, exposure, t);
    }
    forall tn | tn in db.written
      ensures HasSecret(rows, tn.0, tn.1)
    {
      StillStored(db.secrets, rows, tn.0, tn.1);
    }
    hide HasSecret;
    assert forall i :: i in rows ==>
           i in db.secrets && rows[i].target == db.secrets[i].target && rows[i].name == db.secrets[i].name;
  }

  /** A name stays taken while its row stays. */
  lemma StillStored(rows: map<Id, Row>, next: map<Id, Row>, t: Target, name: Text)
    requires HasSecret(rows, t, name)
    requires forall i :: i in rows && rows[i].target == t && rows[i].name == name ==>
             i in next && next[i].target == t && next[i].name == name
    ensures HasSecret(next, t, name)
  {
  }

  lemma ExposedRow(db: Db, id: Id, exposure: Exposure, i: Id)
    requires id in db.secrets && i in db.secrets && GoodRow(db, i)
    ensures GoodRow(db.(secrets := db.secrets[id := db.secrets[id].(exposure := exposure)]), i)
  {
  }

  lemma ExposureRows(db: Db, id: Id, exposure: Exposure)
    requires Good(db) && id in db.secrets
    ensures forall i :: i in Next(db, EExposure(id, exposure)).secrets ==> GoodRow(Next(db, EExposure(id, exposure)), i)
  {
    hide Good, Next, GoodRow;
    RestIsGood(db);
    ExposureIs(db, id, exposure);
    forall i | i in db.secrets
      ensures GoodRow(Next(db, EExposure(id, exposure)), i)
    {
      RowIsGood(db, i);
      ExposedRow(db, id, exposure, i);
    }
  }

  /** A step that touches only secret rows leaves keys, actions and re-wraps as good as they were. */
  lemma RowsTouched(db: Db, next: Db)
    requires Good(db) && next == db.(secrets := next.secrets, written := next.written)
    ensures forall k :: k in next.keys ==> GoodKey(next, k)
    ensures forall a :: a in next.settings ==> GoodSetting(next, a)
    ensures forall r :: r in next.rewraps ==> GoodRewrap(next, r)
    ensures OneKeyPerOwner(next) && NewKeysDiffer(next)
  {
    forall k | k in next.keys
      ensures GoodKey(next, k)
    {
      assert GoodKey(db, k);
    }
    forall a | a in next.settings
      ensures GoodSetting(next, a)
    {
      assert GoodSetting(db, a);
      assert Carries(db.settings[a]) ==> db.settings[a].pc.args.newKey.value.id !in db.keys;
      SettingKept(db, next, a);
    }
    RewrapsKept(db, next);
  }

  lemma RemoveKeeps(db: Db, id: Id)
    requires Good(db)
    ensures Good(Next(db, ERemove(id)))
  {
    if id in db.secrets {
      var next := Next(db, ERemove(id));
      RowsTouched(db, next);
      forall t
        ensures ScopeFits(next.secrets, t)
      {
        RemoveFits(db.secrets, id, t);
      }
      RemoveRows(db, id);
    }
  }

  lemma RemoveIs(db: Db, id: Id)
    requires db.roots != [] && id in db.secrets
    ensures Next(db, ERemove(id)) ==
            db.(secrets := db.secrets - {id}, written := db.written - {(db.secrets[id].target, db.secrets[id].name)})
  {
  }

  lemma RemoveRows(db: Db, id: Id)
    requires Good(db) && id in db.secrets
    ensures var next := Next(db, ERemove(id));
            (forall i :: i in next.secrets ==> GoodRow(next, i)) && OneRowPerName(next) && WrittenIsStored(next)
  {
    hide Good, Next, Bounded, NewKeysDiffer;
    RestIsGood(db);
    RemoveIs(db, id);
    var gone := (db.secrets[id].target, db.secrets[id].name);
    var next := db.(secrets := db.secrets - {id}, written := db.written - {gone});
    forall i | i in next.secrets
      ensures GoodRow(next, i)
    {
      RowIsGood(db, i);
      assert (db.secrets[i].target, db.secrets[i].name) != gone;
    }
    hide GoodRow;
    forall tn | tn in next.written
      ensures HasSecret(next.secrets, tn.0, tn.1)
    {
      assert tn != gone;
      StillStored(db.secrets, next.secrets, tn.0, tn.1);
    }
  }

  lemma ProjectKeeps(db: Db, e: Event)
    requires Good(db) && e.EProject?
    ensures Good(Next(db, e))
  {
    RootsKeep(db, Next(db, e));
  }

  /** New roots, or other projects: nothing stored changes. */
  lemma RootsKeep(db: Db, next: Db)
    requires Good(db) && next == db.(projects := next.projects, roots := next.roots)
    requires next.roots != [] && db.roots[0] <= next.roots[0] && NewestFirst(next.roots)
    ensures Good(next)
  {
    RowsKept(db, next);
    RewrapsKept(db, next);
    forall k | k in next.keys
      ensures GoodKey(next, k)
    {
      assert GoodKey(db, k);
    }
    forall a | a in next.settings
      ensures GoodSetting(next, a)
    {
      assert GoodSetting(db, a);
      SettingKept(db, next, a);
    }
    forall t
      ensures ScopeFits(next.secrets, t)
    {
      assert ScopeFits(db.secrets, t);
    }
  }

  lemma {:induction false} WithoutKeeps(roots: seq<Kid>, kid: Kid)
    ensures forall k :: k in Without(roots, kid) <==> k in roots && k != kid
    ensures roots != [] && roots[0] != kid ==> Without(roots, kid) != [] && Without(roots, kid)[0] == roots[0]
  {
    if roots != [] {
      WithoutKeeps(roots[1..], kid);
    }
  }

  lemma {:induction false} WithoutNewestFirst(roots: seq<Kid>, kid: Kid)
    requires NewestFirst(roots)
    ensures NewestFirst(Without(roots, kid))
  {
    if roots != [] {
      WithoutNewestFirst(roots[1..], kid);
      WithoutKeeps(roots[1..], kid);
      var rest := Without(roots[1..], kid);
      forall i | 0 <= i < |rest|
        ensures rest[i] < roots[0]
      {
        assert rest[i] in rest && rest[i] in roots[1..];
      }
    }
  }

  lemma DropKeeps(db: Db, kid: Kid)
    requires Good(db)
    ensures Good(Next(db, EDrop(kid)))
  {
    if kid in db.roots && kid != db.roots[0] {
      WithoutKeeps(db.roots, kid);
      WithoutNewestFirst(db.roots, kid);
      RootsKeep(db, Next(db, EDrop(kid)));
    }
  }

  lemma KeyIsNeeded(db: Db, k: Id)
    requires k in db.keys
    ensures StillNeeded(db, db.keys[k].rootKid)
    ensures Safe(db) ==> db.keys[k].rootKid in db.roots
  {
    assert LeadsTo(db.rewraps, k, db.keys[k].rootKid, db.keys[k].rootKid);
  }

  lemma NewPassIsGood(db: Db, r: Id, batch: seq<NewKey>)
    requires Good(db) && Safe(db) && r !in db.rewraps && IsStaleBatch(db.keys, db.roots[0], batch)
    ensures GoodRewrap(db.(rewraps := db.rewraps[r := Rewrapping(db.roots, batch, 0, 0)]), r)
  {
    hide Good, Safe;
    RestIsGood(db);
    forall i | 0 <= i < |batch|
      ensures KnownKey(db, batch[i]) && batch[i].rootKid in db.roots && batch[i].rootKid < db.roots[0]
    {
      KeyIsGood(db, batch[i].id);
      KeyIsNeeded(db, batch[i].id);
    }
  }

  lemma StaleKeeps(db: Db, r: Id, batch: seq<NewKey>)
    requires Good(db) && Safe(db) && r !in db.rewraps && IsStaleBatch(db.keys, db.roots[0], batch)
    ensures Good(Next(db, EStale(r, batch)))
  {
    var next := Next(db, EStale(r, batch));
    NewPassIsGood(db, r, batch);
    KeysAside(db, next);
    hide Safe, IsStaleBatch, KnownKey;
    forall q | q in next.rewraps
      ensures GoodRewrap(next, q)
    {
      if q != r {
        assert GoodRewrap(db, q);
        PassStays(db, next, q);
      }
    }
  }

  lemma PassStays(db: Db, next: Db, q: Id)
    requires q in db.rewraps && q in next.rewraps && next.rewraps[q] == db.rewraps[q] && GoodRewrap(db, q)
    requires next.keys == db.keys && next.roots == db.roots
    ensures GoodRewrap(next, q)
  {
  }

  /** A step that touches only the data keys' wrapping and the re-wraps. */
  lemma KeysAside(db: Db, next: Db)
    requires Good(db) && next == db.(keys := next.keys, rewraps := next.rewraps) && KeysKept(db, next)
    requires next.keys.Keys == db.keys.Keys && forall k :: k in next.keys ==> GoodKey(next, k)
    requires forall k :: k in next.keys ==> next.keys[k].owner == db.keys[k].owner
    ensures (forall r :: r in next.rewraps ==> GoodRewrap(next, r)) ==> Good(next)
  {
    RowsKept(db, next);
    forall a | a in next.settings
      ensures GoodSetting(next, a)
    {
      assert GoodSetting(db, a);
      SettingKept(db, next, a);
    }
    forall t
      ensures ScopeFits(next.secrets, t)
    {
      assert ScopeFits(db.secrets, t);
    }
  }

  /** Storing a re-wrapped key: the key is the same, under another root key. */
  lemma StoreGood(db: Db, id: Id, fromKid: Kid, root: Kid, raw: Material, k: Id)
    requires id in db.keys && raw == db.keys[id].wrapped.content
    requires k in db.keys && GoodKey(db, k)
    ensures var keys := Store(db.keys, id, fromKid, root, Cipher(Root(root), raw, KeyContext(id, db.keys[id].owner)));
            && k in keys && GoodKey(db.(keys := keys), k) && keys.Keys == db.keys.Keys
            && keys[k].owner == db.keys[k].owner && keys[k].wrapped.content == db.keys[k].wrapped.content
  {
  }

  /** What a re-wrap step stores, from a key it knows. */
  lemma StoreStepKeys(db: Db, r: Id)
    requires r in db.rewraps && GoodRewrap(db, r)
    requires var w := db.rewraps[r]; w.done < |w.keys| && w.roots != [] && w.keys[w.done].rootKid in w.roots
    ensures var w := db.rewraps[r];
            var key := w.keys[w.done];
            && key.id in db.keys
            && StoreStep(db, r).keys ==
                 Store(db.keys, key.id, key.rootKid, w.roots[0],
                       Cipher(Root(w.roots[0]), db.keys[key.id].wrapped.content,
                              KeyContext(key.id, db.keys[key.id].owner)))
  {
    assert KnownKey(db, db.rewraps[r].keys[db.rewraps[r].done]);
  }

  lemma StoreStepElse(db: Db, r: Id)
    requires r in db.rewraps
    requires var w := db.rewraps[r]; !(w.done < |w.keys| && w.roots != [] && w.keys[w.done].rootKid in w.roots)
    ensures StoreStep(db, r).keys == db.keys
  {
  }

  lemma StoreStepElsewhere(db: Db, r: Id)
    requires r in db.rewraps
    ensures var next := StoreStep(db, r);
            && next == db.(keys := next.keys, rewraps := next.rewraps)
            && (forall q :: q in next.rewraps ==> q in db.rewraps && (q != r ==> next.rewraps[q] == db.rewraps[q]))
            && (r in next.rewraps ==>
                 next.rewraps[r].keys == db.rewraps[r].keys && next.rewraps[r].roots == db.rewraps[r].roots
                                      && db.rewraps[r].done <= next.rewraps[r].done
                                      && (db.rewraps[r].done <= |db.rewraps[r].keys| ==>
                                           next.rewraps[r].done <= |db.rewraps[r].keys|))
  {
  }

  lemma StoreKeys(db: Db, r: Id)
    requires Good(db) && r in db.rewraps
    ensures var next := StoreStep(db, r);
            && KeysKept(db, next) && next.keys.Keys == db.keys.Keys && forall k :: k in next.keys ==> GoodKey(next, k)
  {
    hide Good, GoodKey, StoreStep, Store, GoodRewrap;
    StoreStepElsewhere(db, r);
    RewrapIsGood(db, r);
    var next := StoreStep(db, r);
    var w := db.rewraps[r];
    if w.done < |w.keys| && w.roots != [] && w.keys[w.done].rootKid in w.roots {
      var key := w.keys[w.done];
      StoreStepKeys(db, r);
      KeyIsGood(db, key.id);
      StoreGood(db, key.id, key.rootKid, w.roots[0], db.keys[key.id].wrapped.content, key.id);
      forall k | k in db.keys
        ensures k in next.keys
        ensures GoodKey(next, k)
        ensures next.keys[k].owner == db.keys[k].owner
        ensures next.keys[k].wrapped.content == db.keys[k].wrapped.content
      {
        KeyIsGood(db, k);
        StoreGood(db, key.id, key.rootKid, w.roots[0], db.keys[key.id].wrapped.content, k);
        KeyMovesAlong(db.(keys := next.keys), next, k);
      }
    } else {
      StoreStepElse(db, r);
      forall k | k in next.keys
        ensures GoodKey(next, k)
      {
        KeyIsGood(db, k);
        KeyMovesAlong(db, next, k);
      }
    }
  }

  lemma KeyMovesAlong(db: Db, next: Db, k: Id)
    requires k in db.keys && k in next.keys && db.keys[k] == next.keys[k] && next.nextId >= db.nextId && GoodKey(db, k)
    ensures GoodKey(next, k)
  {
  }

  lemma KnownKeyKept(db: Db, next: Db, k: NewKey)
    requires KnownKey(db, k) && KeysKept(db, next)
    ensures KnownKey(next, k)
  {
  }

  lemma StoreKeeps(db: Db, r: Id)
    requires Good(db) && r in db.rewraps
    ensures Good(StoreStep(db, r))
  {
    var next := StoreStep(db, r);
    StoreKeys(db, r);
    StoreStepElsewhere(db, r);
    hide KnownKey, StoreStep, Store, GoodKey, GoodRewrap, KeysKept;
    KeysAside(db, next);
    forall q | q in next.rewraps
      ensures GoodRewrap(next, q)
    {
      RewrapGoesOn(db, next, q);
    }
  }

  /** A pass further on, over keys that are the same, is as good as it was. */
  lemma RewrapGoesOn(db: Db, next: Db, q: Id)
    requires q in db.rewraps && q in next.rewraps && GoodRewrap(db, q) && KeysKept(db, next) && next.roots == db.roots
    requires next.rewraps[q].keys == db.rewraps[q].keys && next.rewraps[q].roots == db.rewraps[q].roots
    requires db.rewraps[q].done <= next.rewraps[q].done <= |db.rewraps[q].keys|
    ensures GoodRewrap(next, q)
  {
    hide KnownKey, KeysKept;
    forall i | next.rewraps[q].done <= i < |next.rewraps[q].keys|
      ensures KnownKey(next, next.rewraps[q].keys[i])
    {
      KnownKeyKept(db, next, next.rewraps[q].keys[i]);
    }
  }

  // ── a write ────────────────────────────────────────────────────────────────

  ghost function KeysAfter(keys: map<Id, KeyRow>, w: WriteArgs): map<Id, KeyRow> {
    if w.value.Some? && w.newKey.Some?
    then keys[w.newKey.value.id := KeyRow(w.newKey.value.owner, w.newKey.value.rootKid, w.newKey.value.wrapped)]
    else keys
  }

  /** What a write that goes through leaves. */
  ghost function Wrote(db: Db, a: Id): Db
    requires a in db.settings && db.settings[a].pc.Sealed?
  {
    var s := db.settings[a];
    var w := s.pc.args;
    var row := Stored(db.secrets, w);
    var done := Ended(Some(Written(w.secretId, row.version, w.secretId !in db.secrets)));
    db.(secrets := db.secrets[w.secretId := row], keys := KeysAfter(db.keys, w),
        settings := db.settings[a := s.(pc := done)], written := db.written[(s.target, s.name) := s.value])
  }

  /** A write that is not refused found its key and its row as it expects them, with room in the scope. */
  lemma Accepted(db: Db, a: Id, allowed: bool)
    requires a in db.settings && db.settings[a].pc.Sealed? && Refusal(db, db.settings[a].pc.args, allowed).None?
    ensures WriteStep(db, a, allowed) == Wrote(db, a)
    ensures var w := db.settings[a].pc.args;
            Reachable(db.projects, w.target) && KeyAgrees(db, w) && IdAgrees(db, w) && WithinLimits(db, w)
  {
    hide KeyAgrees, IdAgrees, WithinLimits, Stored;
  }

  /** The rows after a write that went through: the new one holds what was asked, the others what they held. */
  lemma WriteRows(db: Db, a: Id, allowed: bool, id: Id)
    requires Good(db)
    requires a in db.settings
    requires db.settings[a].pc.Sealed?
    requires Refusal(db, db.settings[a].pc.args, allowed).None?
    requires id in WriteStep(db, a, allowed).secrets
    ensures GoodRow(WriteStep(db, a, allowed), id)
  {
    hide Good, Refusal, WriteStep, Wrote, GoodRow, GoodSetting, KeyAgrees, IdAgrees, WithinLimits;
    Accepted(db, a, allowed);
    SettingIsGood(db, a);
    WroteRows(db, a);
    if id == db.settings[a].pc.args.secretId {
      WroteRow(db, a);
    } else {
      RowIsGood(db, id);
      RestIsGood(db);
      WroteElsewhere(db, a, id);
    }
  }

  lemma WroteRows(db: Db, a: Id)
    requires a in db.settings && db.settings[a].pc.Sealed?
    ensures Wrote(db, a).secrets.Keys == db.secrets.Keys + {db.settings[a].pc.args.secretId}
  {
    hide Stored, KeysAfter;
  }

  lemma WroteElsewhere(db: Db, a: Id, id: Id)
    requires a in db.settings && db.settings[a].pc.Sealed? && GoodSetting(db, a) && IdAgrees(db, db.settings[a].pc.args)
    requires id in db.secrets && GoodRow(db, id) && id != db.settings[a].pc.args.secretId && OneRowPerName(db)
    ensures id in Wrote(db, a).secrets && GoodRow(Wrote(db, a), id)
  {
    hide Stored, KnownKey;
    assert (db.secrets[id].target, db.secrets[id].name) != (db.settings[a].target, db.settings[a].name);
  }

  predicate NewKeyIsFresh(db: Db, a: Id)
    requires a in db.settings
  {
    Carries(db.settings[a]) ==> db.settings[a].pc.args.newKey.value.id !in db.keys
  }

  lemma WroteRow(db: Db, a: Id)
    requires a in db.settings && db.settings[a].pc.Sealed? && GoodSetting(db, a) && IdAgrees(db, db.settings[a].pc.args)
    ensures GoodRow(Wrote(db, a), db.settings[a].pc.args.secretId)
  {
  }

  lemma WriteNames(db: Db, a: Id, allowed: bool)
    requires Good(db)
    requires a in db.settings
    requires db.settings[a].pc.Sealed?
    requires Refusal(db, db.settings[a].pc.args, allowed).None?
    ensures WrittenIsStored(WriteStep(db, a, allowed))
  {
    hide Good, Refusal, WriteStep, Wrote, GoodSetting, KeyAgrees, IdAgrees, WithinLimits;
    Accepted(db, a, allowed);
    SettingIsGood(db, a);
    RestIsGood(db);
    WroteNames(db, a);
  }

  lemma WroteNames(db: Db, a: Id)
    requires a in db.settings && db.settings[a].pc.Sealed? && GoodSetting(db, a) && IdAgrees(db, db.settings[a].pc.args)
    requires WrittenIsStored(db)
    ensures WrittenIsStored(Wrote(db, a))
  {
    var next := Wrote(db, a);
    var s := db.settings[a];
    assert s.pc.args.target == s.target && s.pc.args.name == s.name;
    hide KeysAfter, GoodSetting;
    forall tn | tn in next.written
      ensures HasSecret(next.secrets, tn.0, tn.1)
    {
      if tn == (s.target, s.name) {
        assert next.secrets[s.pc.args.secretId].target == s.target;
      } else {
        StillStored(db.secrets, next.secrets, tn.0, tn.1);
      }
    }
  }

  lemma WriteOneRow(db: Db, w: WriteArgs, i: Id, j: Id)
    requires OneRowPerName(db) && IdAgrees(db, w)
    requires var next := db.secrets[w.secretId := Stored(db.secrets, w)];
             i in next && j in next && next[i].target == next[j].target && next[i].name == next[j].name
    ensures i == j
  {
  }

  lemma WriteKeys(db: Db, a: Id, allowed: bool)
    requires Good(db)
    requires a in db.settings
    requires db.settings[a].pc.Sealed?
    requires Refusal(db, db.settings[a].pc.args, allowed).None?
    ensures var next := WriteStep(db, a, allowed);
            && KeysKept(db, next) && OneKeyPerOwner(next) && (forall k :: k in next.keys ==> GoodKey(next, k))
            && (forall b :: b in next.settings && b != a && Carries(next.settings[b]) ==>
                 next.settings[b].pc.args.newKey.value.id !in next.keys)
  {
    hide Good, Refusal, WriteStep, Wrote, GoodSetting, GoodKey, KeyAgrees, IdAgrees, WithinLimits;
    Accepted(db, a, allowed);
    SettingIsGood(db, a);
    RestIsGood(db);
    forall k | k in db.keys
      ensures GoodKey(db, k)
    {
      KeyIsGood(db, k);
    }
    forall b | b in db.settings
      ensures NewKeyIsFresh(db, b)
    {
      SettingIsGood(db, b);
      FreshWhileCarried(db, b);
    }
    WroteKeys(db, a);
    WroteCarried(db, a);
  }

  lemma FreshWhileCarried(db: Db, b: Id)
    requires b in db.settings && GoodSetting(db, b)
    ensures NewKeyIsFresh(db, b)
  {
  }

  lemma WroteKeys(db: Db, a: Id)
    requires a in db.settings && db.settings[a].pc.Sealed? && GoodSetting(db, a)
    requires Reachable(db.projects, db.settings[a].pc.args.target) && KeyAgrees(db, db.settings[a].pc.args)
    requires OneKeyPerOwner(db) && forall k :: k in db.keys ==> GoodKey(db, k)
    ensures var next := Wrote(db, a);
            KeysKept(db, next) && OneKeyPerOwner(next) && (forall k :: k in next.keys ==> GoodKey(next, k))
  {
    hide Stored, KnownKey;
  }

  lemma WroteCarried(db: Db, a: Id)
    requires a in db.settings && db.settings[a].pc.Sealed? && NewKeysDiffer(db)
    requires forall b :: b in db.settings ==> NewKeyIsFresh(db, b)
    ensures var next := Wrote(db, a);
            forall b :: b in next.settings && b != a && Carries(next.settings[b]) ==>
                next.settings[b].pc.args.newKey.value.id !in next.keys
  {
    hide Stored;
    forall b | b in db.settings && b != a && Carries(db.settings[b])
      ensures db.settings[b].pc.args.newKey.value.id !in Wrote(db, a).keys
    {
      assert NewKeyIsFresh(db, b);
    }
  }

  lemma WriteKeeps(db: Db, a: Id, allowed: bool)
    requires Good(db) && a in db.settings
    ensures Good(WriteStep(db, a, allowed))
  {
    var s := db.settings[a];
    var next := WriteStep(db, a, allowed);
    if s.pc.Sealed? {
      if Refusal(db, s.pc.args, allowed).Some? {
        SettingOnly(db, next, a);
      } else {
        WriteKeepsStored(db, a, allowed);
      }
    }
  }

  lemma WriteActions(db: Db, a: Id, allowed: bool)
    requires Good(db)
    requires a in db.settings
    requires db.settings[a].pc.Sealed?
    requires Refusal(db, db.settings[a].pc.args, allowed).None?
    ensures var next := WriteStep(db, a, allowed);
            && (forall r :: r in next.rewraps ==> GoodRewrap(next, r))
            && (forall b :: b in next.settings ==> GoodSetting(next, b))
            && NewKeysDiffer(next)
  {
    WriteKeys(db, a, allowed);
    Accepted(db, a, allowed);
    var next := Wrote(db, a);
    assert GoodSetting(db, a) && NewKeysDiffer(db);
    hide WriteStep, Refusal, WithinLimits, KeyAgrees, IdAgrees, Stored, KeysAfter, GoodRewrap, GoodKey, KeysKept,
         GoodRow;
    RewrapsKept(db, next);
    forall b | b in next.settings
      ensures GoodSetting(next, b)
    {
      if b != a {
        assert GoodSetting(db, b);
        SettingKept(db, next, b);
      }
    }
  }

  lemma WriteScopes(db: Db, a: Id, allowed: bool)
    requires Good(db)
    requires a in db.settings
    requires db.settings[a].pc.Sealed?
    requires Refusal(db, db.settings[a].pc.args, allowed).None?
    ensures OneRowPerName(WriteStep(db, a, allowed)) && Bounded(WriteStep(db, a, allowed))
  {
    Accepted(db, a, allowed);
    var next := Wrote(db, a);
    var w := db.settings[a].pc.args;
    assert OneRowPerName(db) && Bounded(db);
    assert Write(db, w, allowed).secrets == next.secrets;
    hide WriteStep, Write, WithinLimits, KeyAgrees, Stored, KeysAfter, Good, ScopeFits;
    forall i, j | i in next.secrets && j in next.secrets
                  && next.secrets[i].target == next.secrets[j].target && next.secrets[i].name == next.secrets[j].name
      ensures i == j
    {
      WriteOneRow(db, w, i, j);
    }
    forall t
      ensures ScopeFits(next.secrets, t)
    {
      WriteFits(db, w, allowed, t);
    }
  }

  lemma WriteKeepsStored(db: Db, a: Id, allowed: bool)
    requires Good(db)
    requires a in db.settings
    requires db.settings[a].pc.Sealed?
    requires Refusal(db, db.settings[a].pc.args, allowed).None?
    ensures Good(WriteStep(db, a, allowed))
  {
    var next := WriteStep(db, a, allowed);
    Accepted(db, a, allowed);
    assert next.roots == db.roots;
    hide WriteStep, Wrote, Refusal;
    forall id | id in next.secrets
      ensures GoodRow(next, id)
    {
      WriteRows(db, a, allowed, id);
    }
    WriteNames(db, a, allowed);
    WriteKeys(db, a, allowed);
    WriteActions(db, a, allowed);
    WriteScopes(db, a, allowed);
    assert NewestFirst(db.roots) && db.roots != [];
    hide GoodRow, GoodKey, GoodSetting, GoodRewrap, OneRowPerName, OneKeyPerOwner, Bounded, NewKeysDiffer,
         WrittenIsStored, KeysKept;
  }

  // ── every event, every run ─────────────────────────────────────────────────

  lemma StepKeeps(db: Db, e: Event)
    requires Good(db) && (e.EStale? ==> Safe(db)) && Legal(db, e)
    ensures Good(Next(db, e))
  {
    match e
    case EStart(_, _, _, _, _, _) => StartKeeps(db, e);
    case EPlan(a, allowed) => PlanKeeps(db, a, allowed);
    case ESeal(a) => SealKeeps(db, a);
    case EWrite(a, allowed) => WriteKeeps(db, a, allowed);
    case EExposure(id, exposure) => ExposureKeeps(db, id, exposure);
    case ERemove(id) => RemoveKeeps(db, id);
    case EProject(_, _) => ProjectKeeps(db, e);
    case ERotate(_) => RootsKeep(db, Next(db, e));
    case EDrop(kid) => DropKeeps(db, kid);
    case EStale(r, batch) => StaleKeeps(db, r, batch);
    case EStore(r) => StoreKeeps(db, r);
  }

  // ── what this promises ─────────────────────────────────────────────────────

  /** Every stored row opens, at delivery, to the value last written for its scope and name. */
  lemma OpensToLastWritten(db: Db, id: Id)
    requires Good(db) && Safe(db) && id in db.secrets
    ensures (db.secrets[id].target, db.secrets[id].name) in db.written
    ensures OpenRow(db.keys, db.roots, id, db.secrets[id]) ==
            Some(db.written[(db.secrets[id].target, db.secrets[id].name)])
  {
    assert GoodRow(db, id);
    if db.secrets[id].value.Some? {
      assert GoodKey(db, db.secrets[id].value.value.kid);
      KeyIsNeeded(db, db.secrets[id].value.value.kid);
    }
  }

  /**
   What a set that goes through leaves: one row at its scope and name, of the kind
   asked for and the exposure asked for, or kept, or `Session` for a new one, one
   version on; and every other row as it was.
   */
  lemma SetLeaves(db: Db, a: Id, allowed: bool)
    requires Good(db)
    requires a in db.settings
    requires db.settings[a].pc.Sealed?
    requires Refusal(db, db.settings[a].pc.args, allowed).None?
    ensures var s := db.settings[a];
            var id := s.pc.args.secretId;
            var next := WriteStep(db, a, allowed);
            var before := HasSecret(db.secrets, s.target, s.name);
            && (before <==> id in db.secrets)
            && next.secrets.Keys == db.secrets.Keys + {id}
            && (forall other :: other in db.secrets && other != id ==> next.secrets[other] == db.secrets[other])
            && next.secrets[id].target == s.target && next.secrets[id].name == s.name && next.secrets[id].kind == s.kind
            && next.secrets[id].exposure == (if s.exposure.Some? then s.exposure.value else if before
                 then db.secrets[id].exposure else Session)
            && next.settings[a].pc == Ended(Some(Written(id, next.secrets[id].version, !before)))
            && next.secrets[id].version == (if before then db.secrets[id].version else 0) + 1
  {
    hide Good, Refusal, WriteStep, KeyAgrees, WithinLimits, KnownKey, GoodNewKey, KeysAfter;
    Accepted(db, a, allowed);
    SettingIsGood(db, a);
  }

  /** And nothing else opens: under another secret's id, scope or name, a sealed value stays closed. */
  lemma OpensNowhereElse(db: Db, id: Id, other: Id, row: Row)
    requires Good(db) && id in db.secrets && db.secrets[id].kind == Secret && row.value == db.secrets[id].value
    requires other != id || row.target != db.secrets[id].target || row.name != db.secrets[id].name
    ensures OpenRow(db.keys, db.roots, other, row) == None
  {
    assert GoodRow(db, id);
  }

  // ── which value wins ───────────────────────────────────────────────────────

  /** The winner is the first layer that sets the name. */
  lemma {:induction false} WinnerIsHighest(rows: map<Id, Row>, layers: seq<Target>, name: Text)
    ensures match Winner(rows, layers, name)
            case Some(t) =>
              exists i :: 0 <= i < |layers| && layers[i] == t && HasSecret(rows, t, name) && forall j :: 0 <= j < i ==>
                !HasSecret(rows, layers[j], name)
            case None => forall j :: 0 <= j < |layers| ==> !HasSecret(rows, layers[j], name)
  {
    if layers != [] && !HasSecret(rows, layers[0], name) {
      WinnerIsHighest(rows, layers[1..], name);
      var w := Winner(rows, layers[1..], name);
      if w.Some? {
        var i :| 0 <= i < |layers[1..]| && layers[1..][i] == w.value && HasSecret(rows, w.value, name)
            && forall j :: 0 <= j < i ==> !HasSecret(rows, layers[1..][j], name);
        assert layers[i + 1] == w.value;
        forall j | 0 <= j < i + 1
          ensures !HasSecret(rows, layers[j], name)
        {
          if j > 0 {
            assert layers[1..][j - 1] == layers[j];
          }
        }
      } else {
        forall j | 0 <= j < |layers|
          ensures !HasSecret(rows, layers[j], name)
        {
          if j > 0 {
            assert layers[1..][j - 1] == layers[j];
          }
        }
      }
    }
  }
}
