/**
 Team secrets. Setting one is an action: it plans under the tables as they are,
 seals the value under a data key, and writes in one mutation that checks again;
 meanwhile others set, remove and narrow secrets, projects change Workspace, and
 the operator rotates the root key and re-wraps the data keys. Sealing is
 symbolic: a ciphertext opens under the key and the context it was made with.
 */
module Secrets {
  import opened Wrappers

  const MAX_SECRETS_PER_SCOPE: nat := 100
  const MAX_SCOPE_BYTES: nat := 64 * 1024
  const MAX_SECRET_VALUE_BYTES: nat := 32 * 1024
  const MAX_SECRET_NAME: nat := 128
  const BATCH: nat := 50

  type Id = nat
  /** Root keys are numbered as they were introduced. */
  type Kid = nat
  type WorkspaceId = nat
  type ProjectId = nat
  type UserId = nat
  /** Text by its UTF-8 bytes. */
  type Text = seq<char>

  /** The one place a secret is set; it stands for the scope key, which is injective. */
  datatype Target =
    | WorkspaceTarget(workspace: WorkspaceId)
    | ProjectTarget(project: ProjectId)
    | PersonalTarget(user: UserId, only: Option<ProjectId>)
  datatype Owner = OfWorkspace(workspace: WorkspaceId) | OfUser(user: UserId)
  datatype Kind = Env | Secret
  datatype Exposure = Setup | Session

  // ── sealing ────────────────────────────────────────────────────────────────

  datatype Material = Root(kid: Kid) | Data(n: Id)
  datatype Context = KeyContext(id: Id, owner: Owner) | ValueContext(secret: Id, target: Target, name: Text)
  datatype Cipher<T> = Cipher(under: Material, content: T, context: Context)

  function Open<T>(key: Material, c: Cipher<T>, context: Context): Option<T> {
    if c.under == key && c.context == context then Some(c.content) else None
  }

  /** The deployment's root keys, current first. */
  function Wrap(roots: seq<Kid>, dataKey: Material, context: Context): Cipher<Material>
    requires roots != []
  {
    Cipher(Root(roots[0]), dataKey, context)
  }

  function Unwrap(roots: seq<Kid>, rootKid: Kid, wrapped: Cipher<Material>, context: Context): Option<Material> {
    if rootKid in roots then Open(Root(rootKid), wrapped, context) else None
  }

  // ── rows ───────────────────────────────────────────────────────────────────

  datatype SealedValue = SealedValue(kid: Id, cipher: Cipher<Text>)
  datatype KeyRow = KeyRow(owner: Owner, rootKid: Kid, wrapped: Cipher<Material>)
  datatype Row = Row(
    target: Target, name: Text, kind: Kind, plain: Option<Text>, value: Option<SealedValue>,
    exposure: Exposure, version: nat
  )

  datatype NewKey = NewKey(id: Id, owner: Owner, rootKid: Kid, wrapped: Cipher<Material>)
  datatype WriteArgs = WriteArgs(
    target: Target, name: Text, kind: Kind, exposure: Option<Exposure>, secretId: Id,
    plain: Option<Text>, value: Option<SealedValue>, newKey: Option<NewKey>)

  datatype Outcome = Written(secretId: Id, version: nat, created: bool) | Conflicted | OverLimit | NoAccess

  datatype Plan = Plan(secretId: Id, owner: Owner, dataKey: Option<NewKey>)
  datatype Pc = ToPlan | Planned(plan: Plan) | Sealed(args: WriteArgs) | Ended(outcome: Option<Outcome>)
  /** A `set` under way: what was asked, and how far it is. */
  datatype Setting = Setting(
    target: Target, name: Text, kind: Kind, value: Text, exposure: Option<Exposure>, attempt: nat,
    pc: Pc
  )

  /** A re-wrap pass under way: its provider's keys, the stale keys it read, and how many it has been through. */
  datatype Rewrapping = Rewrapping(roots: seq<Kid>, keys: seq<NewKey>, done: nat, rewrapped: nat)

  /** `written` remembers the value last written for each scope and name. */
  datatype Db = Db(
    secrets: map<Id, Row>, keys: map<Id, KeyRow>, projects: map<ProjectId, WorkspaceId>, roots: seq<Kid>,
    settings: map<Id, Setting>, rewraps: map<Id, Rewrapping>, nextId: Id, written: map<(Target, Text), Text>)

  function SecretsAt(rows: map<Id, Row>, t: Target): set<Id> {
    set id | id in rows && rows[id].target == t
  }

  function Others(rows: map<Id, Row>, t: Target, name: Text): set<Id> {
    set id | id in rows && rows[id].target == t && rows[id].name != name
  }

  function SecretBytes(name: Text, value: Text): nat {
    |name| + 1 + |value|
  }

  function RowBytes(name: Text, plain: Option<Text>, value: Option<SealedValue>): nat {
    if value.None? then SecretBytes(name, if plain.Some? then plain.value else [])
    else SecretBytes(name, []) + |value.value.cipher.content|
  }

  ghost function BytesOf(rows: map<Id, Row>, ids: set<Id>): nat
    requires ids <= rows.Keys
  {
    if ids == {} then 0
    else
      var id :| id in ids;
      RowBytes(rows[id].name, rows[id].plain, rows[id].value) + BytesOf(rows, ids - {id})
  }

  /** The project a target names is there. */
  predicate Reachable(projects: map<ProjectId, WorkspaceId>, t: Target) {
    match t
    case WorkspaceTarget(_) => true
    case ProjectTarget(p) => p in projects
    case PersonalTarget(_, only) => only.Some? ==> only.value in projects
  }

  function KeyOwner(projects: map<ProjectId, WorkspaceId>, t: Target): Owner
    requires Reachable(projects, t)
  {
    match t
    case WorkspaceTarget(w) => OfWorkspace(w)
    case ProjectTarget(p) => OfWorkspace(projects[p])
    case PersonalTarget(u, _) => OfUser(u)
  }

  predicate HasKey(keys: map<Id, KeyRow>, owner: Owner) {
    exists k :: k in keys && keys[k].owner == owner
  }

  ghost function KeyOf(keys: map<Id, KeyRow>, owner: Owner): Id
    requires HasKey(keys, owner)
  {
    var k :| k in keys && keys[k].owner == owner;
    k
  }

  predicate HasSecret(rows: map<Id, Row>, t: Target, name: Text) {
    exists id :: id in rows && rows[id].target == t && rows[id].name == name
  }

  ghost function SecretOf(rows: map<Id, Row>, t: Target, name: Text): Id
    requires HasSecret(rows, t, name)
  {
    var id :| id in rows && rows[id].target == t && rows[id].name == name;
    id
  }

  // ── set: plan, seal, write ─────────────────────────────────────────────────

  ghost function PlanWrite(db: Db, t: Target, name: Text): Plan
    requires Reachable(db.projects, t)
  {
    var owner := KeyOwner(db.projects, t);
    Plan(if HasSecret(db.secrets, t, name) then SecretOf(db.secrets, t, name) else db.nextId, owner,
         if HasKey(db.keys, owner) then
           var k := KeyOf(db.keys, owner);
           Some(NewKey(k, owner, db.keys[k].rootKid, db.keys[k].wrapped))
         else None)
  }

  /** Sealing needs the root keys: `None` when the data key does not open. `newId` names a new data key. */
  function Seal(roots: seq<Kid>, s: Setting, plan: Plan, newId: Id): Option<WriteArgs>
    requires roots != []
  {
    if s.kind == Env then Some(WriteArgs(s.target, s.name, Env, s.exposure, plan.secretId, Some(s.value), None, None))
    else
      var context := ValueContext(plan.secretId, s.target, s.name);
      if plan.dataKey.None? then
        var wrapped := Wrap(roots, Data(newId), KeyContext(newId, plan.owner));
        Some(WriteArgs(s.target, s.name, Secret, s.exposure, plan.secretId, None,
                       Some(SealedValue(newId, Cipher(Data(newId), s.value, context))),
                       Some(NewKey(newId, plan.owner, roots[0], wrapped))))
      else
        var key := plan.dataKey.value;
        var dataKey := Unwrap(roots, key.rootKid, key.wrapped, KeyContext(key.id, plan.owner));
        if dataKey.None? then None
        else Some(WriteArgs(s.target, s.name, Secret, s.exposure, plan.secretId, None,
                            Some(SealedValue(key.id, Cipher(dataKey.value, s.value, context))), None))
  }

  /** The data key the value was sealed under must still be the target's, or still be missing. */
  predicate KeyAgrees(db: Db, w: WriteArgs)
    requires Reachable(db.projects, w.target)
  {
    w.value.Some? ==>
      var owner := KeyOwner(db.projects, w.target);
      if w.newKey.Some? then !HasKey(db.keys, owner) && w.newKey.value.owner == owner
      && w.newKey.value.id == w.value.value.kid
      else w.value.value.kid in db.keys && db.keys[w.value.value.kid].owner == owner
  }

  predicate IdAgrees(db: Db, w: WriteArgs) {
    if HasSecret(db.secrets, w.target, w.name)
    then w.secretId in db.secrets && db.secrets[w.secretId].target == w.target && db.secrets[w.secretId].name == w.name
    else w.secretId !in db.secrets
  }

  ghost predicate WithinLimits(db: Db, w: WriteArgs) {
    var others := Others(db.secrets, w.target, w.name);
    && |others| < MAX_SECRETS_PER_SCOPE
    && BytesOf(db.secrets, others) + RowBytes(w.name, w.plain, w.value) <= MAX_SCOPE_BYTES
  }

  ghost function Refusal(db: Db, w: WriteArgs, allowed: bool): Option<Outcome> {
    if !allowed || !Reachable(db.projects, w.target) then Some(NoAccess)
    else if !KeyAgrees(db, w) || !IdAgrees(db, w) then Some(Conflicted)
    else if !WithinLimits(db, w) then Some(OverLimit)
    else None
  }

  function Stored(rows: map<Id, Row>, w: WriteArgs): Row {
    if w.secretId in rows then
      var was := rows[w.secretId];
      was.(kind := w.kind, plain := w.plain, value := w.value,
            exposure := if w.exposure.Some? then w.exposure.value else was.exposure, version := was.version + 1)
    else Row(w.target, w.name, w.kind, w.plain, w.value, if w.exposure.Some? then w.exposure.value else Session, 1)
  }

  ghost function Write(db: Db, w: WriteArgs, allowed: bool): Db {
    if Refusal(db, w, allowed).Some? then db
    else db.(secrets := db.secrets[w.secretId := Stored(db.secrets, w)],
             keys := if w.value.Some? && w.newKey.Some?
                     then db.keys[w.newKey.value.id := KeyRow(w.newKey.value.owner, w.newKey.value.rootKid,
                              w.newKey.value.wrapped)]
                     else db.keys)
  }

  // ── re-wrapping ────────────────────────────────────────────────────────────

  function StaleKeys(keys: map<Id, KeyRow>, current: Kid): set<Id> {
    set k | k in keys && keys[k].rootKid != current
  }

  /** A key as a query reads it. */
  predicate AsStored(keys: map<Id, KeyRow>, key: NewKey) {
    key.id in keys && keys[key.id] == KeyRow(key.owner, key.rootKid, key.wrapped)
  }

  /** What the stale query answers: at most a batch, every one of them when there are fewer. */
  ghost predicate IsStaleBatch(keys: map<Id, KeyRow>, current: Kid, batch: seq<NewKey>) {
    && (forall i :: 0 <= i < |batch| ==> AsStored(keys, batch[i]) && batch[i].rootKid != current)
    && (forall i, j :: 0 <= i < j < |batch| ==> batch[i].id != batch[j].id)
    && |batch| == if |StaleKeys(keys, current)| < BATCH then |StaleKeys(keys, current)| else BATCH
  }

  /** Stores a re-wrapped key, unless its root key changed since it was read. */
  function Store(keys: map<Id, KeyRow>, id: Id, fromKid: Kid, rootKid: Kid, wrapped: Cipher<Material>): map<Id, KeyRow>
  {
    if id in keys && keys[id].rootKid == fromKid then keys[id := keys[id].(rootKid := rootKid, wrapped := wrapped)]
    else keys
  }

  // ── delivery ───────────────────────────────────────────────────────────────

  /** The layers of a Session's owner in a project, highest first. */
  function Layers(projects: map<ProjectId, WorkspaceId>, user: UserId, p: ProjectId): seq<Target>
    requires p in projects
  {
    [PersonalTarget(user, Some(p)), PersonalTarget(user, None), ProjectTarget(p), WorkspaceTarget(projects[p])]
  }

  /** The highest layer that sets `name`. */
  function Winner(rows: map<Id, Row>, layers: seq<Target>, name: Text): (winner: Option<Target>)
    ensures winner.Some? ==> HasSecret(rows, winner.value, name)
  {
    if layers == [] then None
    else if HasSecret(rows, layers[0], name) then Some(layers[0])
    else Winner(rows, layers[1..], name)
  }

  predicate Reaches(e: Exposure, purpose: Exposure) {
    purpose == Setup || e == Session
  }

  /** The value of a row, opened as delivery opens it. */
  function OpenRow(keys: map<Id, KeyRow>, roots: seq<Kid>, id: Id, row: Row): Option<Text> {
    if row.value.None? then row.plain
    else if row.value.value.kid !in keys then None
    else
      var key := keys[row.value.value.kid];
      var dataKey := Unwrap(roots, key.rootKid, key.wrapped, KeyContext(row.value.value.kid, key.owner));
      if dataKey.None? then None
      else Open(dataKey.value, row.value.value.cipher, ValueContext(id, row.target, row.name))
  }

  // ── events ─────────────────────────────────────────────────────────────────

  datatype Event =
    | EStart(a: Id, target: Target, name: Text, kind: Kind, value: Text, exposure: Option<Exposure>)
    | EPlan(a: Id, allowed: bool)
    | ESeal(a: Id)
    | EWrite(a: Id, allowed: bool)
    | EExposure(secret: Id, reach: Exposure)
    | ERemove(secret: Id)
    | EProject(project: ProjectId, workspace: Option<WorkspaceId>)
    | ERotate(kid: Kid)
    | EDrop(kid: Kid)
    | EStale(r: Id, batch: seq<NewKey>)
    | EStore(r: Id)

  function With(db: Db, a: Id, pc: Pc): Db
    requires a in db.settings
  {
    db.(settings := db.settings[a := db.settings[a].(pc := pc)])
  }

  predicate Settable(name: Text, value: Text) {
    0 < |name| <= MAX_SECRET_NAME && 0 < |value| <= MAX_SECRET_VALUE_BYTES && '\0' !in value
  }

  ghost function PlanStep(db: Db, a: Id, allowed: bool): Db
    requires a in db.settings
  {
    var s := db.settings[a];
    if s.pc != ToPlan then db
    else if !allowed || !Reachable(db.projects, s.target) then With(db, a, Ended(Some(NoAccess)))
    else With(db, a, Planned(PlanWrite(db, s.target, s.name))).(nextId := db.nextId + 1)
  }

  function SealStep(db: Db, a: Id): Db
    requires a in db.settings && db.roots != []
  {
    var s := db.settings[a];
    if !s.pc.Planned? then db
    else
      var args := Seal(db.roots, s, s.pc.plan, db.nextId);
      With(db, a, if args.Some? then Sealed(args.value) else Ended(None)).(nextId := db.nextId + 1)
  }

  /** A conflict on the first attempt plans again; on the second it is the caller's. */
  ghost function WriteStep(db: Db, a: Id, allowed: bool): Db
    requires a in db.settings
  {
    var s := db.settings[a];
    if !s.pc.Sealed? then db
    else
      var refusal := Refusal(db, s.pc.args, allowed);
      if refusal == Some(Conflicted) && s.attempt < 2 then
        db.(settings := db.settings[a := s.(attempt := s.attempt + 1, pc := ToPlan)])
      else if refusal.Some? then With(db, a, Ended(refusal))
      else
        var done := Write(db, s.pc.args, allowed);
        var row := done.secrets[s.pc.args.secretId];
        With(done, a, Ended(Some(Written(s.pc.args.secretId, row.version, s.pc.args.secretId !in db.secrets))))
          .(written := db.written[(s.target, s.name) := s.value])
  }

  function StoreStep(db: Db, r: Id): Db
    requires r in db.rewraps
  {
    var w := db.rewraps[r];
    if w.done >= |w.keys| || w.roots == [] then db
    else
      var key := w.keys[w.done];
      var context := KeyContext(key.id, key.owner);
      var raw := Unwrap(w.roots, key.rootKid, key.wrapped, context);
      if raw.None? then db.(rewraps := db.rewraps - {r})
      else
        var stored := Store(db.keys, key.id, key.rootKid, w.roots[0], Wrap(w.roots, raw.value, context));
        db.(keys := stored,
            rewraps := db.rewraps[r := w.(done := w.done + 1,
                  rewrapped := w.rewrapped + (if stored != db.keys then 1 else 0))])
  }

  // ── what still needs a root key ────────────────────────────────────────────

  /** A pass has still to move a key from one root key to another. */
  predicate Moves(w: Rewrapping, i: nat, id: Id, from: Kid, to: Kid) {
    w.done <= i < |w.keys| && w.roots != [] && w.keys[i].id == id && w.keys[i].rootKid == from && w.roots[0] == to
  }

  /** The passes under way can bring a key from one root key to another, one pass after another. */
  ghost predicate LeadsTo(rewraps: map<Id, Rewrapping>, id: Id, from: Kid, to: Kid)
    decreases if from < to then to - from else 0
  {
    || from == to
    || exists r: Id, i: nat, mid: Kid ::
         r in rewraps && Moves(rewraps[r], i, id, from, mid) && from < mid <= to && LeadsTo(rewraps, id, mid, to)
  }

  /** A set under way carries a new data key under `kid`, and its owner has none yet. */
  predicate Brings(db: Db, a: Id, kid: Kid)
    requires a in db.settings
  {
    Carries(db.settings[a]) && db.settings[a].pc.args.newKey.value.rootKid == kid
      && !HasKey(db.keys, db.settings[a].pc.args.newKey.value.owner)
  }

  /** A data key is under it, or passes under way can put one under it, or a set under way can store one under it. */
  ghost predicate StillNeeded(db: Db, kid: Kid) {
    || (exists k :: k in db.keys && LeadsTo(db.rewraps, k, db.keys[k].rootKid, kid))
    || (exists a :: a in db.settings && Brings(db, a, kid))
  }

  /** Every root key still needed is configured. */
  ghost predicate Safe(db: Db) {
    forall kid :: StillNeeded(db, kid) ==> kid in db.roots
  }

  ghost predicate Legal(db: Db, e: Event)
    requires db.roots != []
  {
    match e
    case EStart(a, _, _, _, _, _) => a !in db.settings
    case EPlan(a, _) => a in db.settings
    case ESeal(a) => a in db.settings
    case EWrite(a, _) => a in db.settings
    case ERotate(kid) => kid > db.roots[0]
    case EDrop(kid) => kid in db.roots && kid != db.roots[0] && !StillNeeded(db, kid)
    case EStale(r, batch) => r !in db.rewraps && IsStaleBatch(db.keys, db.roots[0], batch)
    case EStore(r) => r in db.rewraps
    case _ => true
  }

  function Without(roots: seq<Kid>, kid: Kid): seq<Kid> {
    if roots == [] then [] else (if roots[0] == kid then [] else [roots[0]]) + Without(roots[1..], kid)
  }

  ghost function Next(db: Db, e: Event): Db
    requires db.roots != []
  {
    match e
    case EStart(a, t, name, kind, value, exposure) =>
      if a !in db.settings && Settable(name, value)
      then db.(settings := db.settings[a := Setting(t, name, kind, value, exposure, 1, ToPlan)]) else db
    case EPlan(a, allowed) => if a in db.settings then PlanStep(db, a, allowed) else db
    case ESeal(a) => if a in db.settings then SealStep(db, a) else db
    case EWrite(a, allowed) => if a in db.settings then WriteStep(db, a, allowed) else db
    case EExposure(id, exposure) =>
      if id in db.secrets then db.(secrets := db.secrets[id := db.secrets[id].(exposure := exposure)]) else db
    case ERemove(id) =>
      if id in db.secrets
      then db.(secrets := db.secrets - {id}, written := db.written - {(db.secrets[id].target, db.secrets[id].name)})
      else db
    case EProject(p, w) => db.(projects := if w.Some? then db.projects[p := w.value] else db.projects - {p})
    case ERotate(kid) => db.(roots := [kid] + db.roots)
    case EDrop(kid) => if kid in db.roots && kid != db.roots[0] then db.(roots := Without(db.roots, kid)) else db
    case EStale(r, batch) =>
      if r in db.rewraps then db else db.(rewraps := db.rewraps[r := Rewrapping(db.roots, batch, 0, 0)])
    case EStore(r) => if r in db.rewraps then StoreStep(db, r) else db
  }

  ghost predicate Run(states: seq<Db>, events: seq<Event>) {
    && |states| == |events| + 1 && Good(states[0]) && Safe(states[0])
    && forall i :: 0 <= i < |events| ==>
         states[i].roots != [] && Legal(states[i], events[i]) && states[i + 1] == Next(states[i], events[i])
  }

  // ── the invariant ──────────────────────────────────────────────────────────

  /** A data key opens under the root key it names, as its owner's. */
  predicate GoodKey(db: Db, k: Id)
    requires k in db.keys
  {
    var key := db.keys[k];
    k < db.nextId && key.wrapped.under == Root(key.rootKid) && key.wrapped.context == KeyContext(k, key.owner)
  }

  /** A stored row holds the value last written there. */
  predicate GoodRow(db: Db, id: Id)
    requires id in db.secrets
  {
    var row := db.secrets[id];
    && (row.target, row.name) in db.written
    && match row.kind
       case Env => row.value.None? && row.plain == Some(db.written[(row.target, row.name)])
       case Secret =>
         row.plain.None? && row.value.Some? && row.value.value.kid in db.keys &&
         row.value.value.cipher ==
           Cipher(db.keys[row.value.value.kid].wrapped.content, db.written[(row.target, row.name)],
                  ValueContext(id, row.target, row.name))
  }

  predicate GoodNewKey(db: Db, nk: NewKey) {
    nk.id < db.nextId && nk.id !in db.keys &&
    nk.wrapped.under == Root(nk.rootKid) && nk.wrapped.context == KeyContext(nk.id, nk.owner)
  }

  /** Whose data key seals a target's values, in whatever Workspace its project is. */
  predicate OwnerFits(t: Target, owner: Owner) {
    match t
    case WorkspaceTarget(w) => owner == OfWorkspace(w)
    case ProjectTarget(_) => owner.OfWorkspace?
    case PersonalTarget(u, _) => owner == OfUser(u)
  }

  predicate GoodArgs(db: Db, s: Setting, w: WriteArgs) {
    && w.target == s.target && w.name == s.name && w.kind == s.kind && w.exposure == s.exposure
    && match s.kind
       case Env => w.plain == Some(s.value) && w.value.None? && w.newKey.None?
       case Secret =>
         && w.plain.None? && w.value.Some? && w.value.value.cipher.content == s.value
         && w.value.value.cipher.context == ValueContext(w.secretId, s.target, s.name)
         && (if w.newKey.Some?
             then GoodNewKey(db, w.newKey.value) && OwnerFits(s.target, w.newKey.value.owner)
                  && w.value.value.kid == w.newKey.value.id
                  && w.value.value.cipher.under == w.newKey.value.wrapped.content
             else w.value.value.kid in db.keys && w.value.value.cipher.under ==
                  db.keys[w.value.value.kid].wrapped.content)
  }

  /** A key as some action read it: its owner and what it wraps have not changed since. */
  predicate KnownKey(db: Db, k: NewKey) {
    k.id in db.keys && db.keys[k.id].owner == k.owner && k.wrapped.content == db.keys[k.id].wrapped.content
    && k.wrapped.under == Root(k.rootKid) && k.wrapped.context == KeyContext(k.id, k.owner)
  }

  predicate GoodSetting(db: Db, a: Id)
    requires a in db.settings
  {
    var s := db.settings[a];
    && Settable(s.name, s.value)
    && match s.pc
       case Planned(plan) =>
         OwnerFits(s.target, plan.owner) &&
         (plan.dataKey.Some? ==> plan.dataKey.value.owner == plan.owner && KnownKey(db, plan.dataKey.value))
       case Sealed(args) => GoodArgs(db, s, args)
       case _ => true
  }

  predicate GoodRewrap(db: Db, r: Id)
    requires r in db.rewraps
  {
    var w := db.rewraps[r];
    && w.done <= |w.keys| && w.roots != [] && db.roots != [] && w.roots[0] <= db.roots[0]
    && (forall i :: w.done <= i < |w.keys| ==> KnownKey(db, w.keys[i]))
    && (forall i :: w.done <= i < |w.keys| ==> w.keys[i].rootKid in w.roots && w.keys[i].rootKid < w.roots[0])
    && (forall i, j :: 0 <= i < j < |w.keys| ==> w.keys[i].id != w.keys[j].id)
  }

  ghost predicate OneKeyPerOwner(db: Db) {
    forall j, k :: j in db.keys && k in db.keys && db.keys[j].owner == db.keys[k].owner ==> j == k
  }

  ghost predicate OneRowPerName(db: Db) {
    forall i, j ::
        i in db.secrets && j in db.secrets && db.secrets[i].target == db.secrets[j].target
        && db.secrets[i].name == db.secrets[j].name ==>
        i == j
  }

  /** A scope is within its bounds. */
  ghost predicate ScopeFits(rows: map<Id, Row>, t: Target) {
    |SecretsAt(rows, t)| <= MAX_SECRETS_PER_SCOPE && BytesOf(rows, SecretsAt(rows, t)) <= MAX_SCOPE_BYTES
  }

  ghost predicate Bounded(db: Db) {
    forall t :: ScopeFits(db.secrets, t)
  }

  /** No two actions carry a new data key of the same id. */
  ghost predicate NewKeysDiffer(db: Db) {
    forall a, b ::
        a in db.settings && b in db.settings && a != b && Carries(db.settings[a]) && Carries(db.settings[b]) ==>
      db.settings[a].pc.args.newKey.value.id != db.settings[b].pc.args.newKey.value.id
  }

  predicate Carries(s: Setting) {
    s.pc.Sealed? && s.pc.args.newKey.Some?
  }

  ghost predicate WrittenIsStored(db: Db) {
    forall tn :: tn in db.written ==> HasSecret(db.secrets, tn.0, tn.1)
  }

  ghost predicate NewestFirst(roots: seq<Kid>) {
    forall i, j :: 0 <= i < j < |roots| ==> roots[i] > roots[j]
  }

  ghost predicate Good(db: Db) {
    && db.roots != [] && NewestFirst(db.roots)
    && (forall k :: k in db.keys ==> GoodKey(db, k))
    && (forall id :: id in db.secrets ==> GoodRow(db, id))
    && (forall a :: a in db.settings ==> GoodSetting(db, a))
    && (forall r :: r in db.rewraps ==> GoodRewrap(db, r))
    && OneKeyPerOwner(db) && OneRowPerName(db) && Bounded(db) && NewKeysDiffer(db) && WrittenIsStored(db)
  }
}
