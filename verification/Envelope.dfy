/** Secrets sealed under their parent's version, up to the provider of the root key. */
module Envelope {
  import opened Model
  import opened Store
  import opened Hierarchy
  import opened Topology
  import opened Lifecycle
  import opened Worlds

  datatype Failure =
    | VersionRequired | KeyNotFound | NoProcessor | NoVault | NoParentKey | NotInVault | BadSeal
    | ParentUnresolved | TenantNotFound | NoProvider | NoProviderKey | OffHierarchy
    | NoUsableVersion | NotActivated | KeyTransient | UsageNotAllowed

  /** Failures that only say what state a key is in. */
  predicate OfState(f: Failure) {
    f.NoUsableVersion? || f.NotActivated? || f.KeyTransient? || f.UsageNotAllowed?
  }

  datatype Res = Ok(bytes: Bytes) | Err(why: Failure)

  /** The key the root provider seals with, after the checks a seal or an unseal makes. */
  ghost function RootKey(w: World, tenant: Uuid, keyId: Uuid, version: nat, usage: Usage): (r: Res) {
    if version == 0 then Err(VersionRequired)
    else if tenant !in w.root.tenants then Err(TenantNotFound)
    else
      match GetKey(w.root, keyId, tenant)
      case None => Err(KeyNotFound)
      case Some(key) =>
        if key.status != Completed then Err(KeyTransient)
        else if usage !in Usages(key.life) then Err(UsageNotAllowed)
        else if ProviderSlot(tenant, keyId) !in w.vaults || !w.vaults[ProviderSlot(tenant, keyId)].Provider? then
          Err(NoProvider)
        else
          match Newest(w.root, tenant, keyId, VersionQuery(version, None, None))
          case None => Err(NoProviderKey)
          case Some(kv) =>
            var spec := w.vaults[ProviderSlot(tenant, keyId)].spec;
            if kv.providerKey.None? || kv.providerKey.value.kind != spec.kind || kv.providerKey.value.id == "" then
              Err(NoProviderKey)
            else Ok(Provided(spec.secret, kv.providerKey.value.id))
  }

  /** The secret a node's manager uses for a version of a key. The bound is the position of the kind
      that asks; a key that does not stand above it is reported as `OffHierarchy`. */
  ghost function SecretOf(c: Config, w: World, n: Node, tenant: Uuid, keyId: Uuid, version: nat, bound: nat): (r: Res)
    requires Sized(c, w) && IsNode(c, n)
    decreases bound, 0
  {
    if version == 0 then Err(VersionRequired)
    else
      match Newest(TablesAt(w, n), tenant, keyId, VersionQuery(version, Some(Usable), None))
      case None => Err(NoUsableVersion)
      case Some(kv) =>
        match GetKey(TablesAt(w, n), keyId, tenant)
        case None => Err(KeyNotFound)
        case Some(key) =>
          if key.life != Active then Err(NotActivated)
          else if !Serves(c, n, key.kind) then Err(NoProcessor)
          else if IndexOf(c.hierarchy.specs, key.kind) >= bound then Err(OffHierarchy)
          else ResolveSecret(c, w, n, key.kind, kv)
  }

  /** The key of the parent a version is pinned to, as the node's processor for the kind finds it. */
  ghost function ParentKey(c: Config, w: World, n: Node, kind: Name, kv: KeyVersion, usage: Usage): (r: Res)
    requires Sized(c, w) && IsNode(c, n) && Serves(c, n, kind)
    decreases IndexOf(c.hierarchy.specs, kind), 1
  {
    if kv.parentKey.None? then Err(NoParentKey)
    else
      match ParentOf(c, n, kind)
      case Unresolved => Err(ParentUnresolved)
      case RootProvider => RootKey(w, kv.id.tenant, kv.parentKey.value, kv.ParentPin(), usage)
      case ManagerAt(m) =>
        SecretOf(c, w, m, kv.id.tenant, kv.parentKey.value, kv.ParentPin(), IndexOf(c.hierarchy.specs, kind))
  }

  /** Undo the parent's seal, then the transport's, if one is bound. */
  function Unwrap(parentKey: Bytes, transport: Option<nat>, e: Entry): (r: Res)
    requires e.Sealed?
  {
    match Open(parentKey, e.aad, e.material)
    case None => Err(BadSeal)
    case Some(inner) =>
      match transport
      case None => Ok(inner)
      case Some(t) =>
        match Open(Raw(t), e.aad, inner)
        case None => Err(BadSeal)
        case Some(secret) => Ok(secret)
  }

  ghost function ResolveSecret(c: Config, w: World, n: Node, kind: Name, kv: KeyVersion): (r: Res)
    requires Sized(c, w) && IsNode(c, n) && Serves(c, n, kind)
    decreases IndexOf(c.hierarchy.specs, kind), 2
  {
    if !NodeBindings(c, n)[kind].vault then Err(NoVault)
    else if Slot(n, kv.id) !in w.vaults || !w.vaults[Slot(n, kv.id)].Sealed? then Err(NotInVault)
    else
      match ParentKey(c, w, n, kind, kv, Decrypt)
      case Err(f) => Err(f)
      case Ok(k) => Unwrap(k, NodeBindings(c, n)[kind].sealer, w.vaults[Slot(n, kv.id)])
  }

  /** What a fresh attempt draws: the secret, and one nonce for each seal. */
  datatype Draw = Draw(secret: nat, transportNonce: nat, parentNonce: nat)

  /** The vault entry an attempt stores: the secret sealed for transport, then under the parent. */
  ghost function CreateSecret(c: Config, w: World, n: Node, kind: Name, kv: KeyVersion, d: Draw): (r: Option<Entry>)
    requires Sized(c, w) && IsNode(c, n)
  {
    if !Serves(c, n, kind) || !NodeBindings(c, n)[kind].vault then None
    else
      var inner := match NodeBindings(c, n)[kind].sealer
                   case None => Raw(d.secret)
                   case Some(t) => Seal(Raw(t), d.transportNonce, kv.id, Raw(d.secret));
      match ParentKey(c, w, n, kind, kv, Encrypt)
      case Err(_) => None
      case Ok(k) => Some(Sealed(Seal(k, d.parentNonce, kv.id, inner), kv.id))
  }

  // ------------------------------------------------------------------ round trip

  /** Two worlds that differ at most in the rows and slots of one key. */
  ghost predicate SameExcept(c: Config, w: World, w2: World, i: Uuid) {
    && Sized(c, w) && Sized(c, w2)
    && w2.root.tenants == w.root.tenants
    && (forall n: Node, j: Uuid {:trigger TablesAt(w2, n).keys[j]} {:trigger j in TablesAt(w2, n).keys} | IsNode(c, n) && j != i ::
          && (j in TablesAt(w, n).keys <==> j in TablesAt(w2, n).keys)
          && (j in TablesAt(w, n).keys ==> TablesAt(w2, n).keys[j] == TablesAt(w, n).keys[j]))
    && (forall n: Node, v: VersionId | IsNode(c, n) && v.keyId != i ::
          && (v in TablesAt(w, n).versions <==> v in TablesAt(w2, n).versions)
          && (v in TablesAt(w, n).versions ==> TablesAt(w2, n).versions[v] == TablesAt(w, n).versions[v]))
    && (forall s: Slot | s.id.keyId != i ::
          && (s in w.vaults <==> s in w2.vaults)
          && (s in w.vaults ==> w2.vaults[s] == w.vaults[s]))
  }

  /** No node's row for the key gives it a kind that stands above the bound. */
  ghost predicate NotAbove(c: Config, w: World, keyId: Uuid, bound: nat)
    requires Sized(c, w)
  {
    forall n: Node | IsNode(c, n) && keyId in TablesAt(w, n).keys ::
      IndexOf(c.hierarchy.specs, TablesAt(w, n).keys[keyId].kind) >= bound
  }

  /** No version of a key that stands above the bound is pinned to the key. */
  ghost predicate PinsAvoid(c: Config, w: World, keyId: Uuid, bound: nat)
    requires Sized(c, w)
  {
    forall n: Node, v: VersionId | IsNode(c, n) && v in TablesAt(w, n).versions && v.keyId in TablesAt(w, n).keys
                                   && IndexOf(c.hierarchy.specs, TablesAt(w, n).keys[v.keyId].kind) < bound ::
      TablesAt(w, n).versions[v].parentKey != Some(keyId)
  }

  lemma NewestElsewhere(t: Tables, t2: Tables, tenant: Uuid, keyId: Uuid, q: VersionQuery)
    requires forall v: VersionId | v.keyId == keyId :: v in t.versions <==> v in t2.versions
    requires forall v: VersionId | v.keyId == keyId && v in t.versions :: t.versions[v] == t2.versions[v]
    ensures Newest(t, tenant, keyId, q) == Newest(t2, tenant, keyId, q)
  {
    assert forall v :: Listed(t, tenant, keyId, q, v) <==> Listed(t2, tenant, keyId, q, v);
    if v :| IsNewest(t, tenant, keyId, q, v) {
      assert IsNewest(t2, tenant, keyId, q, v);
      NewestIs(t, tenant, keyId, q, v);
      NewestIs(t2, tenant, keyId, q, v);
    } else if exists v :: Listed(t, tenant, keyId, q, v) {
      NewestExists(t, tenant, keyId, q);
    }
  }

  lemma RootKeyElsewhere(c: Config, w: World, w2: World, i: Uuid, tenant: Uuid, keyId: Uuid, version: nat, usage: Usage)
    requires SameExcept(c, w, w2, i) && keyId != i
    ensures RootKey(w, tenant, keyId, version, usage) == RootKey(w2, tenant, keyId, version, usage)
  {
    var t, t2 := TablesAt(w, AtRoot), TablesAt(w2, AtRoot);
    assert keyId in t.keys <==> keyId in t2.keys;
    NewestElsewhere(t, t2, tenant, keyId, VersionQuery(version, None, None));
  }

  /** Both worlds list the same rows of any other key, at every node. */
  lemma RowsElsewhere(c: Config, w: World, w2: World, i: Uuid, n: Node, tenant: Uuid, keyId: Uuid, q: VersionQuery)
    requires SameExcept(c, w, w2, i) && IsNode(c, n) && keyId != i
    ensures GetKey(TablesAt(w, n), keyId, tenant) == GetKey(TablesAt(w2, n), keyId, tenant)
    ensures Newest(TablesAt(w, n), tenant, keyId, q) == Newest(TablesAt(w2, n), tenant, keyId, q)
  {
    var t, t2 := TablesAt(w, n), TablesAt(w2, n);
    assert keyId in t.keys <==> keyId in t2.keys;
    NewestElsewhere(t, t2, tenant, keyId, q);
  }

  /** The secrets of keys that stand above a key do not depend on it. */
  lemma {:induction false} SecretOfElsewhere(c: Config, w: World, w2: World, i: Uuid, n: Node,
                                             tenant: Uuid, keyId: Uuid, version: nat, bound: nat)
    requires SameExcept(c, w, w2, i) && AllRowsKeyed(c, w) && IsNode(c, n)
    requires NotAbove(c, w, i, bound) && NotAbove(c, w2, i, bound) && keyId != i
    requires PinsAvoid(c, w, i, bound)
    ensures SecretOf(c, w, n, tenant, keyId, version, bound) == SecretOf(c, w2, n, tenant, keyId, version, bound)
    decreases bound, 0
  {
    var q := VersionQuery(version, Some(Usable), None);
    RowsElsewhere(c, w, w2, i, n, tenant, keyId, q);
    var key := GetKey(TablesAt(w, n), keyId, tenant);
    var row := Newest(TablesAt(w, n), tenant, keyId, q);
    if version != 0 && row.Some? && key.Some? && key.value.life == Active && Serves(c, n, key.value.kind)
       && IndexOf(c.hierarchy.specs, key.value.kind) < bound
    {
      ResolveElsewhere(c, w, w2, i, n, keyId, key.value.kind, row.value);
    }
  }

  lemma {:induction false} ResolveElsewhere(c: Config, w: World, w2: World, i: Uuid, n: Node,
                                            keyId: Uuid, kind: Name, kv: KeyVersion)
    requires SameExcept(c, w, w2, i) && AllRowsKeyed(c, w) && IsNode(c, n) && Serves(c, n, kind)
    requires NotAbove(c, w, i, IndexOf(c.hierarchy.specs, kind) + 1) && NotAbove(c, w2, i, IndexOf(c.hierarchy.specs, kind) + 1)
    requires PinsAvoid(c, w, i, IndexOf(c.hierarchy.specs, kind) + 1)
    requires keyId != i && keyId in TablesAt(w, n).keys && TablesAt(w, n).keys[keyId].kind == kind
    requires exists v :: v in TablesAt(w, n).versions && TablesAt(w, n).versions[v] == kv && v.keyId == keyId
    ensures ResolveSecret(c, w, n, kind, kv) == ResolveSecret(c, w2, n, kind, kv)
    decreases IndexOf(c.hierarchy.specs, kind), 2
  {
    var v :| v in TablesAt(w, n).versions && TablesAt(w, n).versions[v] == kv && v.keyId == keyId;
    assert RowsKeyed(TablesAt(w, n));
    ParentKeyElsewhere(c, w, w2, i, n, kind, kv, Decrypt);
  }

  lemma {:induction false} ParentKeyElsewhere(c: Config, w: World, w2: World, i: Uuid, n: Node,
                                              kind: Name, kv: KeyVersion, usage: Usage)
    requires SameExcept(c, w, w2, i) && AllRowsKeyed(c, w) && IsNode(c, n) && Serves(c, n, kind)
    requires NotAbove(c, w, i, IndexOf(c.hierarchy.specs, kind)) && NotAbove(c, w2, i, IndexOf(c.hierarchy.specs, kind))
    requires PinsAvoid(c, w, i, IndexOf(c.hierarchy.specs, kind)) && kv.parentKey != Some(i)
    ensures ParentKey(c, w, n, kind, kv, usage) == ParentKey(c, w2, n, kind, kv, usage)
    decreases IndexOf(c.hierarchy.specs, kind), 1
  {
    if kv.parentKey.Some? {
      match ParentOf(c, n, kind) {
        case ManagerAt(m) =>
          SecretOfElsewhere(c, w, w2, i, m, kv.id.tenant, kv.parentKey.value, kv.ParentPin(),
                            IndexOf(c.hierarchy.specs, kind));
        case RootProvider =>
          RootKeyElsewhere(c, w, w2, i, kv.id.tenant, kv.parentKey.value, kv.ParentPin(), usage);
        case Unresolved =>
      }
    }
  }

  /** Encryption is permitted only where decryption is. */
  lemma EncryptImpliesDecrypt(c: Config, w: World, n: Node, kind: Name, kv: KeyVersion)
    requires Sized(c, w) && IsNode(c, n) && Serves(c, n, kind)
    requires ParentKey(c, w, n, kind, kv, Encrypt).Ok?
    ensures ParentKey(c, w, n, kind, kv, Decrypt) == ParentKey(c, w, n, kind, kv, Encrypt)
  {
  }

  /** Once what an attempt created is stored, the secret it drew resolves at once, whatever the depth
      of the chain, whether or not a transport sealer is bound, and whatever else the attempt changed
      about its own key. */
  lemma RoundTrip(c: Config, w: World, w2: World, n: Node, kind: Name, kv: KeyVersion, d: Draw)
    requires SameExcept(c, w, w2, kv.id.keyId) && AllRowsKeyed(c, w) && IsNode(c, n)
    requires CreateSecret(c, w, n, kind, kv, d).Some?
    requires Slot(n, kv.id) in w2.vaults && w2.vaults[Slot(n, kv.id)] == CreateSecret(c, w, n, kind, kv, d).value
    requires var bound := IndexOf(c.hierarchy.specs, kind);
             && NotAbove(c, w, kv.id.keyId, bound) && NotAbove(c, w2, kv.id.keyId, bound)
             && PinsAvoid(c, w, kv.id.keyId, bound) && kv.parentKey != Some(kv.id.keyId)
    ensures ResolveSecret(c, w2, n, kind, kv) == Ok(Raw(d.secret))
  {
    EncryptImpliesDecrypt(c, w, n, kind, kv);
    ParentKeyElsewhere(c, w, w2, kv.id.keyId, n, kind, kv, Decrypt);
  }

  // ------------------------------------------------------------------- stability

  /** Two versions of a row that agree on everything sealing depends on. */
  predicate SamePins(a: KeyVersion, b: KeyVersion) {
    a.id == b.id && a.parentKey == b.parentKey && a.parentVersion == b.parentVersion && a.providerKey == b.providerKey
  }

  /** A later world keeps the rows of an earlier one: keys keep their identity, versions their pins. */
  ghost predicate KeepsRows(t: Tables, t2: Tables) {
    && t.tenants <= t2.tenants
    && (forall i | i in t.keys :: i in t2.keys && t2.keys[i].IsSame(t.keys[i]))
    && (forall v | v in t.versions :: v in t2.versions && SamePins(t.versions[v], t2.versions[v]))
  }

  /** It keeps the material of every committed version, and the secret of every bound provider. */
  ghost predicate KeepsMaterial(w: World, w2: World, n: Node)
    requires n.AtAgent? ==> n.index < |w.agents|
  {
    forall v | v in TablesAt(w, n).versions && Slot(n, v) in w.vaults ::
      Slot(n, v) in w2.vaults && w2.vaults[Slot(n, v)] == w.vaults[Slot(n, v)]
  }

  ghost predicate KeepsProviders(w: World, w2: World) {
    forall t: Uuid, k: Uuid | ProviderSlot(t, k) in w.vaults && w.vaults[ProviderSlot(t, k)].Provider? ::
      && ProviderSlot(t, k) in w2.vaults && w2.vaults[ProviderSlot(t, k)].Provider?
      && w2.vaults[ProviderSlot(t, k)].spec.secret == w.vaults[ProviderSlot(t, k)].spec.secret
      && w2.vaults[ProviderSlot(t, k)].spec.kind == w.vaults[ProviderSlot(t, k)].spec.kind
  }

  /** Nothing that sealing depends on is lost from one world to the other. */
  ghost predicate Grows(c: Config, w: World, w2: World) {
    && Sized(c, w) && Sized(c, w2)
    && (forall n: Node | IsNode(c, n) :: KeepsRows(TablesAt(w, n), TablesAt(w2, n)))
    && (forall n: Node | IsNode(c, n) :: KeepsMaterial(w, w2, n))
    && KeepsProviders(w, w2)
  }

  ghost predicate FirstRevisions(c: Config, w: World)
    requires Sized(c, w)
  {
    forall n: Node, v: VersionId | IsNode(c, n) && v in TablesAt(w, n).versions :: v.revision == 1
  }

  ghost predicate LaterWorld(c: Config, w: World, w2: World) {
    Grows(c, w, w2) && AllRowsKeyed(c, w) && AllRowsKeyed(c, w2) && FirstRevisions(c, w) && FirstRevisions(c, w2)
  }

  /** The same result, or a failure that only reports a key's state. */
  predicate SameOrState(r: Res, r2: Res) {
    r2 == r || (r2.Err? && OfState(r2.why))
  }

  lemma NewestKept(t: Tables, t2: Tables, tenant: Uuid, keyId: Uuid, version: nat, p: Option<Processing>)
    requires RowsKeyed(t) && RowsKeyed(t2) && KeepsRows(t, t2) && version > 0
    requires forall v | v in t.versions :: v.revision == 1
    requires forall v | v in t2.versions :: v.revision == 1
    ensures var q := VersionQuery(version, p, None);
            Newest(t, tenant, keyId, q).Some? ==>
              var id := VersionId(tenant, keyId, version, 1);
              && id in t.versions && Newest(t, tenant, keyId, q) == Some(t.versions[id])
              && (Newest(t2, tenant, keyId, q).None? || Newest(t2, tenant, keyId, q) == Some(t2.versions[id]))
              && (p.None? ==> Newest(t2, tenant, keyId, q).Some?)
  {
    var q, id := VersionQuery(version, p, None), VersionId(tenant, keyId, version, 1);
    if Newest(t, tenant, keyId, q).Some? {
      assert id in t2.versions;
      assert p.None? ==> Listed(t2, tenant, keyId, q, id);
    }
  }

  lemma RootKeyStable(c: Config, w: World, w2: World, tenant: Uuid, keyId: Uuid, version: nat, usage: Usage)
    requires LaterWorld(c, w, w2) && RootKey(w, tenant, keyId, version, usage).Ok?
    ensures SameOrState(RootKey(w, tenant, keyId, version, usage), RootKey(w2, tenant, keyId, version, usage))
  {
    assert KeepsRows(TablesAt(w, AtRoot), TablesAt(w2, AtRoot));
    assert RowsKeyed(TablesAt(w, AtRoot)) && RowsKeyed(TablesAt(w2, AtRoot));
    assert forall v | v in w.root.versions :: v in TablesAt(w, AtRoot).versions;
    assert forall v | v in w2.root.versions :: v in TablesAt(w2, AtRoot).versions;
    NewestKept(w.root, w2.root, tenant, keyId, version, None);
  }

  /** A secret that resolves keeps resolving to the same bytes, in every later world, unless some key
      of its chain is in a state that forbids it. */
  lemma {:induction false} SecretStable(c: Config, w: World, w2: World, n: Node,
                                        tenant: Uuid, keyId: Uuid, version: nat, bound: nat)
    requires LaterWorld(c, w, w2) && IsNode(c, n)
    requires SecretOf(c, w, n, tenant, keyId, version, bound).Ok?
    ensures SameOrState(SecretOf(c, w, n, tenant, keyId, version, bound),
                        SecretOf(c, w2, n, tenant, keyId, version, bound))
    decreases bound, 0
  {
    assert KeepsRows(TablesAt(w, n), TablesAt(w2, n));
    assert RowsKeyed(TablesAt(w, n)) && RowsKeyed(TablesAt(w2, n));
    NewestKept(TablesAt(w, n), TablesAt(w2, n), tenant, keyId, version, Some(Usable));
    var id := VersionId(tenant, keyId, version, 1);
    var key := GetKey(TablesAt(w, n), keyId, tenant).value;
    ResolveStable(c, w, w2, n, key.kind, id);
  }

  lemma {:induction false} ResolveStable(c: Config, w: World, w2: World, n: Node, kind: Name, id: VersionId)
    requires LaterWorld(c, w, w2) && IsNode(c, n) && Serves(c, n, kind)
    requires id in TablesAt(w, n).versions && id in TablesAt(w2, n).versions
    requires ResolveSecret(c, w, n, kind, TablesAt(w, n).versions[id]).Ok?
    ensures SameOrState(ResolveSecret(c, w, n, kind, TablesAt(w, n).versions[id]),
                        ResolveSecret(c, w2, n, kind, TablesAt(w2, n).versions[id]))
    decreases IndexOf(c.hierarchy.specs, kind), 2
  {
    var kv, kv2 := TablesAt(w, n).versions[id], TablesAt(w2, n).versions[id];
    assert KeepsRows(TablesAt(w, n), TablesAt(w2, n)) && KeepsMaterial(w, w2, n);
    assert RowsKeyed(TablesAt(w, n));
    assert w2.vaults[Slot(n, kv.id)] == w.vaults[Slot(n, kv.id)];
    match ParentOf(c, n, kind) {
      case ManagerAt(m) =>
        SecretStable(c, w, w2, m, kv.id.tenant, kv.parentKey.value, kv.ParentPin(), IndexOf(c.hierarchy.specs, kind));
      case RootProvider =>
        RootKeyStable(c, w, w2, kv.id.tenant, kv.parentKey.value, kv.ParentPin(), Decrypt);
      case Unresolved =>
    }
  }

  // ------------------------------------------------------------------- availability

  /** Every pinned version above is usable and its key active at its node; the root key is settled in
      a state that still decrypts. */
  ghost predicate ChainReady(c: Config, w: World, n: Node, kind: Name, kv: KeyVersion)
    requires Sized(c, w) && IsNode(c, n)
    decreases IndexOf(c.hierarchy.specs, kind)
  {
    Serves(c, n, kind) && kv.parentKey.Some? &&
    match ParentOf(c, n, kind)
    case Unresolved => false
    case RootProvider =>
      var p := GetKey(w.root, kv.parentKey.value, kv.id.tenant);
      p.Some? && p.value.status == Completed && Decrypt in Usages(p.value.life)
    case ManagerAt(m) =>
      var p := GetKey(TablesAt(w, m), kv.parentKey.value, kv.id.tenant);
      var id := VersionId(kv.id.tenant, kv.parentKey.value, kv.ParentPin(), 1);
      && p.Some? && p.value.life == Active
      && id in TablesAt(w, m).versions && TablesAt(w, m).versions[id].processing == Usable
      && 0 <= IndexOf(c.hierarchy.specs, p.value.kind) < IndexOf(c.hierarchy.specs, kind)
      && ChainReady(c, w, m, p.value.kind, TablesAt(w, m).versions[id])
  }

  lemma NewestExactly(t: Tables, tenant: Uuid, keyId: Uuid, version: nat)
    requires version > 0 && RowsKeyed(t) && forall v | v in t.versions :: v.revision == 1
    ensures var id := VersionId(tenant, keyId, version, 1);
            Newest(t, tenant, keyId, VersionQuery(version, Some(Usable), None))
            == if id in t.versions && t.versions[id].processing == Usable then Some(t.versions[id]) else None
  {
    var id, q := VersionId(tenant, keyId, version, 1), VersionQuery(version, Some(Usable), None);
    if id in t.versions && t.versions[id].processing == Usable { assert Listed(t, tenant, keyId, q, id); }
  }

  lemma {:induction false} SecretReady(c: Config, w: World, w2: World, n: Node,
                                       tenant: Uuid, keyId: Uuid, version: nat, bound: nat)
    requires LaterWorld(c, w, w2) && IsNode(c, n)
    requires SecretOf(c, w, n, tenant, keyId, version, bound).Ok?
    ensures var id, key := VersionId(tenant, keyId, version, 1), GetKey(TablesAt(w2, n), keyId, tenant);
            SecretOf(c, w2, n, tenant, keyId, version, bound).Ok? <==>
              && key.Some? && key.value.life == Active
              && id in TablesAt(w2, n).versions && TablesAt(w2, n).versions[id].processing == Usable
              && 0 <= IndexOf(c.hierarchy.specs, key.value.kind) < bound
              && ChainReady(c, w2, n, key.value.kind, TablesAt(w2, n).versions[id])
    decreases bound, 0
  {
    assert KeepsRows(TablesAt(w, n), TablesAt(w2, n));
    assert RowsKeyed(TablesAt(w, n)) && RowsKeyed(TablesAt(w2, n));
    NewestExactly(TablesAt(w, n), tenant, keyId, version);
    NewestExactly(TablesAt(w2, n), tenant, keyId, version);
    ResolveReady(c, w, w2, n, GetKey(TablesAt(w, n), keyId, tenant).value.kind, VersionId(tenant, keyId, version, 1));
  }

  /** Once a version has resolved, it resolves in a later world exactly when its chain is ready there. */
  lemma {:induction false} ResolveReady(c: Config, w: World, w2: World, n: Node, kind: Name, id: VersionId)
    requires LaterWorld(c, w, w2) && IsNode(c, n) && Serves(c, n, kind)
    requires id in TablesAt(w, n).versions && id in TablesAt(w2, n).versions
    requires ResolveSecret(c, w, n, kind, TablesAt(w, n).versions[id]).Ok?
    ensures ResolveSecret(c, w2, n, kind, TablesAt(w2, n).versions[id]).Ok? <==>
            ChainReady(c, w2, n, kind, TablesAt(w2, n).versions[id])
    decreases IndexOf(c.hierarchy.specs, kind), 2
  {
    var kv, kv2 := TablesAt(w, n).versions[id], TablesAt(w2, n).versions[id];
    assert KeepsRows(TablesAt(w, n), TablesAt(w2, n)) && KeepsMaterial(w, w2, n);
    assert RowsKeyed(TablesAt(w, n));
    assert w2.vaults[Slot(n, kv.id)] == w.vaults[Slot(n, kv.id)];
    match ParentOf(c, n, kind) {
      case ManagerAt(m) =>
        SecretStable(c, w, w2, m, kv.id.tenant, kv.parentKey.value, kv.ParentPin(), IndexOf(c.hierarchy.specs, kind));
        SecretReady(c, w, w2, m, kv.id.tenant, kv.parentKey.value, kv.ParentPin(), IndexOf(c.hierarchy.specs, kind));
      case RootProvider =>
        RootKeyReady(c, w, w2, kv.id.tenant, kv.parentKey.value, kv.ParentPin());
      case Unresolved =>
    }
  }

  lemma RootKeyReady(c: Config, w: World, w2: World, tenant: Uuid, keyId: Uuid, version: nat)
    requires LaterWorld(c, w, w2) && RootKey(w, tenant, keyId, version, Decrypt).Ok?
    ensures var p := GetKey(w2.root, keyId, tenant);
            RootKey(w2, tenant, keyId, version, Decrypt).Ok? <==>
            p.Some? && p.value.status == Completed && Decrypt in Usages(p.value.life)
    ensures SameOrState(RootKey(w, tenant, keyId, version, Decrypt), RootKey(w2, tenant, keyId, version, Decrypt))
  {
    RootKeyStable(c, w, w2, tenant, keyId, version, Decrypt);
    assert KeepsRows(TablesAt(w, AtRoot), TablesAt(w2, AtRoot));
    assert RowsKeyed(TablesAt(w, AtRoot)) && RowsKeyed(TablesAt(w2, AtRoot));
    assert forall v | v in w.root.versions :: v in TablesAt(w, AtRoot).versions;
    assert forall v | v in w2.root.versions :: v in TablesAt(w2, AtRoot).versions;
    NewestKept(w.root, w2.root, tenant, keyId, version, None);
  }
}
