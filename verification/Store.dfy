/** The statements the SQL stores issue, as functions of the tables they run against. */
module Store {
  import opened Model

  // ---------------------------------------------------------------- key rows

  function GetKey(t: Tables, id: Uuid, tenant: Uuid): (r: Option<Key>) {
    if id in t.keys && t.keys[id].tenant == tenant then Some(t.keys[id]) else None
  }

  /** Rows are stored under their id. */
  ghost predicate KeysById(t: Tables) {
    forall i | i in t.keys :: t.keys[i].id == i
  }

  predicate NameTaken(t: Tables, tenant: Uuid, name: Name) {
    exists i | i in t.keys :: t.keys[i].tenant == tenant && t.keys[i].name == name
  }

  /** The schema's unique constraint on tenant and name. */
  ghost predicate NamesUnique(t: Tables) {
    forall i, j | i in t.keys && j in t.keys && t.keys[i].tenant == t.keys[j].tenant && t.keys[i].name == t.keys[j].name ::
      i == j
  }

  ghost function IdByName(t: Tables, tenant: Uuid, name: Name): (i: Uuid)
    requires NameTaken(t, tenant, name)
    ensures i in t.keys && t.keys[i].tenant == tenant && t.keys[i].name == name
  {
    var i :| i in t.keys && t.keys[i].tenant == tenant && t.keys[i].name == name;
    i
  }

  function SetStates(t: Tables, id: Uuid, life: LifeCycle, status: Status): (r: Tables)
    requires id in t.keys
  {
    t.(keys := t.keys[id := t.keys[id].(life := life, status := status)])
  }

  /** Compare-and-set on a key row: `None` when the statement matches no row. An empty list of
      expected values leaves that column unconstrained. */
  function UpdateKeyStates(t: Tables, id: Uuid, tenant: Uuid,
                           fromLife: set<LifeCycle>, fromStatus: set<Status>,
                           toLife: LifeCycle, toStatus: Status): (r: Option<Tables>)
  {
    if id in t.keys && t.keys[id].tenant == tenant
       && (fromLife == {} || t.keys[id].life in fromLife)
       && (fromStatus == {} || t.keys[id].status in fromStatus)
    then Some(SetStates(t, id, toLife, toStatus))
    else None
  }

  datatype UpsertResult =
    | Upserted(tables: Tables, id: Uuid)
    | IdentityConflict
    | ConflictingRowGone

  /** Insert, or adopt the row that has the same name (else the same id) and overwrite its states. */
  ghost function UpsertKey(t: Tables, k: Key): (r: UpsertResult) {
    if k.id !in t.keys && !NameTaken(t, k.tenant, k.name) then
      Upserted(t.(keys := t.keys[k.id := k]), k.id)
    else if NameTaken(t, k.tenant, k.name) then
      Reconcile(t, IdByName(t, k.tenant, k.name), k)
    else if t.keys[k.id].tenant == k.tenant then
      Reconcile(t, k.id, k)
    else
      ConflictingRowGone
  }

  ghost function Reconcile(t: Tables, existing: Uuid, k: Key): (r: UpsertResult)
    requires existing in t.keys
  {
    if t.keys[existing].IsSame(k)
    then Upserted(SetStates(t, existing, k.life, k.status), existing)
    else IdentityConflict
  }

  // ------------------------------------------------------------ version rows

  /** The filters of a version listing; 0 and `None` leave a column unconstrained. */
  datatype VersionQuery = VersionQuery(version: nat, processing: Option<Processing>, life: Option<LifeCycle>)

  predicate Listed(t: Tables, tenant: Uuid, keyId: Uuid, q: VersionQuery, v: VersionId) {
    && v in t.versions
    && v.tenant == tenant
    && v.keyId == keyId
    && (q.version == 0 || v.version == q.version)
    && (q.processing.None? || t.versions[v].processing == q.processing.value)
    && (q.life.None? || t.versions[v].life == q.life.value)
  }

  /** `ORDER BY version DESC, revision DESC`, read as "not before". */
  predicate NotBefore(a: VersionId, b: VersionId) {
    a.version > b.version || (a.version == b.version && a.revision >= b.revision)
  }

  ghost predicate IsNewest(t: Tables, tenant: Uuid, keyId: Uuid, q: VersionQuery, v: VersionId) {
    && Listed(t, tenant, keyId, q, v)
    && forall u | Listed(t, tenant, keyId, q, u) :: NotBefore(v, u)
  }

  /** The single row a listing with limit 1 returns, if it returns any. */
  ghost function Newest(t: Tables, tenant: Uuid, keyId: Uuid, q: VersionQuery): (r: Option<KeyVersion>)
    ensures r.None? <==> forall v :: !Listed(t, tenant, keyId, q, v)
    ensures r.Some? ==> exists v :: IsNewest(t, tenant, keyId, q, v) && r.value == t.versions[v]
  {
    if exists v :: Listed(t, tenant, keyId, q, v) then
      NewestExists(t, tenant, keyId, q);
      var v :| IsNewest(t, tenant, keyId, q, v);
      Some(t.versions[v])
    else None
  }

  lemma NewestExists(t: Tables, tenant: Uuid, keyId: Uuid, q: VersionQuery)
    requires exists v :: Listed(t, tenant, keyId, q, v)
    ensures exists v :: IsNewest(t, tenant, keyId, q, v)
  {
    var rows := set v | v in t.versions && Listed(t, tenant, keyId, q, v);
    var some :| Listed(t, tenant, keyId, q, some);
    assert some in rows;
    var v := MaximalId(rows);
    assert IsNewest(t, tenant, keyId, q, v);
  }

  lemma MaximalId(s: set<VersionId>) returns (m: VersionId)
    requires s != {}
    ensures m in s && forall x | x in s :: NotBefore(m, x)
  {
    var x :| x in s;
    if s == {x} {
      m := x;
    } else {
      var rest := s - {x};
      m := MaximalId(rest);
      assert forall y | y in s :: y == x || y in rest;
      if NotBefore(x, m) { m := x; }
    }
  }

  /** The primary key makes the newest row unique. */
  lemma NewestIs(t: Tables, tenant: Uuid, keyId: Uuid, q: VersionQuery, v: VersionId)
    requires IsNewest(t, tenant, keyId, q, v)
    ensures Newest(t, tenant, keyId, q) == Some(t.versions[v])
  {
  }

  const LATEST := VersionQuery(0, None, None)
  const LATEST_ACTIVE := VersionQuery(0, Some(Usable), Some(Active))

  function SetVersionStates(t: Tables, v: VersionId, life: LifeCycle, processing: Processing): (r: Tables)
    requires v in t.versions
  {
    t.(versions := t.versions[v := t.versions[v].(life := life, processing := processing)])
  }

  /** Compare-and-set on a version row: `None` when the statement matches no row. */
  function UpdateVersionStates(t: Tables, v: VersionId, fromLife: set<LifeCycle>, fromProcessing: set<Processing>,
                               toLife: LifeCycle, toProcessing: Processing): (r: Option<Tables>)
  {
    if v in t.versions && t.versions[v].life in fromLife && t.versions[v].processing in fromProcessing
    then Some(SetVersionStates(t, v, toLife, toProcessing))
    else None
  }

  function InsertVersion(t: Tables, kv: KeyVersion): (r: Tables) {
    t.(versions := t.versions[kv.id := kv])
  }
}
