/** Which chains of a configuration can ever seal. */
module Sealing {
  import opened Model
  import opened Store
  import opened Hierarchy
  import opened Topology
  import opened Lifecycle
  import opened Worlds
  import opened Envelope

  /** Every version is pinned to a key one position above its own, wherever that key is known. */
  ghost predicate OneAbove(c: Config, w: World)
    requires Sized(c, w)
  {
    forall n: Node, v: VersionId, m: Node {:trigger PinAbove(c, w, n, v, m)}
      | IsNode(c, n) && IsNode(c, m) && v in TablesAt(w, n).versions && v.keyId in TablesAt(w, n).keys ::
      PinAbove(c, w, n, v, m)
  }

  ghost predicate PinAbove(c: Config, w: World, n: Node, v: VersionId, m: Node)
    requires Sized(c, w) && IsNode(c, n) && IsNode(c, m)
    requires v in TablesAt(w, n).versions && v.keyId in TablesAt(w, n).keys
  {
    PinnedBelow(c, w, TablesAt(w, n).versions[v], IndexOf(c.hierarchy.specs, TablesAt(w, n).keys[v.keyId].kind), m)
  }

  /** A version of a key at position i, as far as the parent's row at a node tells. */
  ghost predicate PinnedBelow(c: Config, w: World, kv: KeyVersion, i: int, m: Node)
    requires Sized(c, w) && IsNode(c, m)
  {
    kv.parentKey.Some? && kv.parentKey.value in TablesAt(w, m).keys ==>
      IndexOf(c.hierarchy.specs, TablesAt(w, m).keys[kv.parentKey.value].kind) == i - 1
  }

  /** A sealing attempt that succeeds, for a version of a key at position i. */
  ghost predicate Seals(c: Config, w: World, n: Node, i: nat, kv: KeyVersion, d: Draw)
    requires IsNode(c, n) && i < |c.hierarchy.specs|
  {
    && Sized(c, w) && AllRowsKeyed(c, w) && OneAbove(c, w) && (forall m: Node | IsNode(c, m) :: PinnedBelow(c, w, kv, i, m))
    && CreateSecret(c, w, n, c.hierarchy.specs[i].kind, kv, d).Some?
  }

  ghost predicate CanSeal(c: Config, n: Node, i: nat)
    requires IsNode(c, n) && i < |c.hierarchy.specs|
  {
    exists w: World, kv: KeyVersion, d: Draw :: Seals(c, w, n, i, kv, d)
  }

  // ------------------------------------------------------------------ a seal climbs a bound chain

  ghost predicate Ranked(c: Config) {
    DistinctKinds(c.hierarchy.specs) && c.hierarchy.specs != [] && c.hierarchy.specs[0].role == RootRole
  }

  lemma {:induction false} ParentNeedsChain(c: Config, w: World, n: Node, i: nat, kv: KeyVersion, usage: Usage)
    requires Ranked(c) && Sized(c, w) && AllRowsKeyed(c, w) && OneAbove(c, w)
    requires IsNode(c, n) && i < |c.hierarchy.specs| && Serves(c, n, c.hierarchy.specs[i].kind) && i > 0
    requires NodeBindings(c, n)[c.hierarchy.specs[i].kind].vault
    requires forall m: Node | IsNode(c, m) :: PinnedBelow(c, w, kv, i, m)
    requires ParentKey(c, w, n, c.hierarchy.specs[i].kind, kv, usage).Ok?
    ensures ChainBound(c, n, i)
    decreases i, 0
  {
    var kind := c.hierarchy.specs[i].kind;
    IndexAt(c.hierarchy.specs, i);
    match ParentOf(c, n, kind) {
      case Unresolved =>
      case RootProvider =>
      case ManagerAt(m) =>
        assert PinnedBelow(c, w, kv, i, m);
        SecretNeedsChain(c, w, m, i - 1, kv.id.tenant, kv.parentKey.value, kv.ParentPin(), i);
    }
  }

  /** A manager that uses a secret of a key has a bound chain for the key's position. */
  lemma {:induction false} SecretNeedsChain(c: Config, w: World, n: Node, i: nat, tenant: Uuid, keyId: Uuid, version: nat, bound: nat)
    requires Ranked(c) && Sized(c, w) && AllRowsKeyed(c, w) && OneAbove(c, w)
    requires IsNode(c, n) && i < |c.hierarchy.specs|
    requires keyId in TablesAt(w, n).keys ==> IndexOf(c.hierarchy.specs, TablesAt(w, n).keys[keyId].kind) == i
    requires SecretOf(c, w, n, tenant, keyId, version, bound).Ok? && bound == i + 1
    ensures ChainBound(c, n, i)
    decreases i, 2
  {
    var t, q := TablesAt(w, n), VersionQuery(version, Some(Usable), None);
    assert RowsKeyed(t);
    var v :| IsNewest(t, tenant, keyId, q, v) && Newest(t, tenant, keyId, q).value == t.versions[v];
    assert c.hierarchy.specs[i].kind == t.keys[keyId].kind;
    forall m: Node | IsNode(c, m) ensures PinnedBelow(c, w, t.versions[v], i, m) {
      assert PinAbove(c, w, n, v, m);
    }
    UnwrapNeedsChain(c, w, n, i, t.versions[v]);
  }

  lemma {:induction false} UnwrapNeedsChain(c: Config, w: World, n: Node, i: nat, kv: KeyVersion)
    requires Ranked(c) && Sized(c, w) && AllRowsKeyed(c, w) && OneAbove(c, w)
    requires IsNode(c, n) && i < |c.hierarchy.specs| && Serves(c, n, c.hierarchy.specs[i].kind)
    requires forall m: Node | IsNode(c, m) :: PinnedBelow(c, w, kv, i, m)
    requires ResolveSecret(c, w, n, c.hierarchy.specs[i].kind, kv).Ok?
    ensures ChainBound(c, n, i)
    decreases i, 1
  {
    IndexAt(c.hierarchy.specs, i);
    if i > 0 { ParentNeedsChain(c, w, n, i, kv, Decrypt); }
  }

  // ------------------------------------------------------------------ a world for every bound chain

  const TENANT: Uuid := 0
  const ROOT_SECRET: nat := 1
  const SECRET: nat := 2

  function Id(j: nat): (v: VersionId) {
    VersionId(TENANT, j, 1, 1)
  }

  /** One key per position, active and settled; its number is its position. */
  function SampleKey(c: Config, j: nat): (k: Key)
    requires j < |c.hierarchy.specs|
  {
    Key(j, "", TENANT, c.hierarchy.specs[j].kind, if j == 0 then None else Some(j - 1), "", map[], Active, Completed, 0)
  }

  function SampleVersion(j: nat): (kv: KeyVersion) {
    KeyVersion(Id(j), if j == 0 then None else Some(j - 1), if j == 0 then None else Some(1), Active, Usable,
               if j == 0 then Some(ProviderKey("p", "k")) else None)
  }

  function SampleTables(c: Config): (t: Tables) {
    Tables({TENANT}, map j | 0 <= j < |c.hierarchy.specs| :: SampleKey(c, j),
           map v | v in set j | 0 <= j < |c.hierarchy.specs| :: Id(j) :: SampleVersion(v.keyId))
  }

  /** The key that seals the secret at a position. */
  function KeyAbove(j: nat): (b: Bytes) {
    if j <= 1 then Provided(ROOT_SECRET, "k") else Raw(SECRET)
  }

  function SampleEntry(c: Config, n: Node, j: nat): (e: Entry)
    requires IsNode(c, n) && j < |c.hierarchy.specs|
  {
    var kind := c.hierarchy.specs[j].kind;
    var inner := if kind in NodeBindings(c, n) && NodeBindings(c, n)[kind].sealer.Some?
                 then Seal(Raw(NodeBindings(c, n)[kind].sealer.value), 0, Id(j), Raw(SECRET)) else Raw(SECRET);
    Sealed(Seal(KeyAbove(j), 0, Id(j), inner), Id(j))
  }

  function SampleSlots(c: Config): (s: set<Slot>) {
    (set j | 0 <= j < |c.hierarchy.specs| :: Slot(AtRoot, Id(j)))
    + (set a, j | 0 <= a < |c.agents| && 0 <= j < |c.hierarchy.specs| :: Slot(AtAgent(a), Id(j)))
  }

  /** A world in which every node knows every key and holds every secret. */
  function SampleWorld(c: Config): (w: World) {
    World(SampleTables(c), seq(|c.agents|, _ => SampleTables(c)),
          (map s | s in SampleSlots(c) :: SampleEntry(c, s.node, s.id.keyId))
          [ProviderSlot(TENANT, 0) := Provider(ProviderSpec(ROOT_SECRET, "p", 0))], {})
  }

  lemma SampleAt(c: Config, n: Node, j: nat)
    requires IsNode(c, n) && j < |c.hierarchy.specs|
    ensures Sized(c, SampleWorld(c)) && TablesAt(SampleWorld(c), n) == SampleTables(c)
    ensures Slot(n, Id(j)) in SampleWorld(c).vaults && SampleWorld(c).vaults[Slot(n, Id(j))] == SampleEntry(c, n, j)
    ensures Id(j) in SampleTables(c).versions && SampleTables(c).versions[Id(j)] == SampleVersion(j)
  {
    if n.AtAgent? { assert Slot(n, Id(j)) in SampleSlots(c); }
  }

  lemma SampleNewest(c: Config, j: nat, p: Option<Processing>)
    requires j < |c.hierarchy.specs| && (p.None? || p.value == Usable)
    ensures Newest(SampleTables(c), TENANT, j, VersionQuery(1, p, None)) == Some(SampleVersion(j))
  {
    SampleAt(c, AtRoot, j);
    assert IsNewest(SampleTables(c), TENANT, j, VersionQuery(1, p, None), Id(j));
    NewestIs(SampleTables(c), TENANT, j, VersionQuery(1, p, None), Id(j));
  }

  lemma SampleProvider(c: Config, usage: Usage)
    requires c.hierarchy.specs != [] && usage in Usages(Active)
    ensures RootKey(SampleWorld(c), TENANT, 0, 1, usage) == Ok(KeyAbove(1))
  {
    SampleNewest(c, 0, None);
  }

  lemma {:induction false} SampleParent(c: Config, n: Node, i: nat, usage: Usage)
    requires Ranked(c) && IsNode(c, n) && i < |c.hierarchy.specs| && ChainBound(c, n, i) && usage in Usages(Active)
    requires ParentOf(c, n, c.hierarchy.specs[i].kind).RootProvider? ==> i == 1
    requires HopsOk(c) && InSegment(c.hierarchy.specs, NodeSegment(c, n), i)
    ensures Sized(c, SampleWorld(c))
    ensures ParentKey(c, SampleWorld(c), n, c.hierarchy.specs[i].kind, SampleVersion(i), usage) == Ok(KeyAbove(i))
    decreases i, 0
  {
    SampleAt(c, n, i);
    IndexAt(c.hierarchy.specs, i);
    match ParentOf(c, n, c.hierarchy.specs[i].kind) {
      case RootProvider => SampleProvider(c, usage);
      case ManagerAt(m) =>
        assert HopOk(c, n, i);
        SampleResolves(c, m, i - 1);
        SampleSecret(c, m, i - 1);
    }
  }

  lemma SampleSecret(c: Config, m: Node, j: nat)
    requires Ranked(c) && IsNode(c, m) && j < |c.hierarchy.specs| && Sized(c, SampleWorld(c))
    requires Serves(c, m, c.hierarchy.specs[j].kind)
    ensures SecretOf(c, SampleWorld(c), m, TENANT, j, 1, j + 1)
            == ResolveSecret(c, SampleWorld(c), m, c.hierarchy.specs[j].kind, SampleVersion(j))
  {
    SampleAt(c, m, j);
    SampleNewest(c, j, Some(Usable));
    IndexAt(c.hierarchy.specs, j);
  }

  lemma {:induction false} SampleResolves(c: Config, n: Node, i: nat)
    requires Ranked(c) && IsNode(c, n) && i < |c.hierarchy.specs| && ChainBound(c, n, i)
    requires HopsOk(c) && InSegment(c.hierarchy.specs, NodeSegment(c, n), i)
    ensures Sized(c, SampleWorld(c))
    ensures ResolveSecret(c, SampleWorld(c), n, c.hierarchy.specs[i].kind, SampleVersion(i)) == Ok(Raw(SECRET))
    decreases i, 1
  {
    SampleAt(c, n, i);
    assert HopOk(c, n, i);
    SampleParent(c, n, i, Decrypt);
    SampleOpens(c, n, i);
    StepOfResolve(c, SampleWorld(c), n, c.hierarchy.specs[i].kind, SampleVersion(i), KeyAbove(i));
  }

  lemma SampleOpens(c: Config, n: Node, j: nat)
    requires IsNode(c, n) && j < |c.hierarchy.specs| && c.hierarchy.specs[j].kind in NodeBindings(c, n)
    ensures Envelope.Unwrap(KeyAbove(j), NodeBindings(c, n)[c.hierarchy.specs[j].kind].sealer, SampleEntry(c, n, j)) == Ok(Raw(SECRET))
  {
  }

  lemma StepOfResolve(c: Config, w: World, n: Node, kind: Name, kv: KeyVersion, k: Bytes)
    requires Sized(c, w) && IsNode(c, n) && Serves(c, n, kind) && NodeBindings(c, n)[kind].vault
    requires Slot(n, kv.id) in w.vaults && w.vaults[Slot(n, kv.id)].Sealed? && ParentKey(c, w, n, kind, kv, Decrypt) == Ok(k)
    ensures ResolveSecret(c, w, n, kind, kv) == Envelope.Unwrap(k, NodeBindings(c, n)[kind].sealer, w.vaults[Slot(n, kv.id)])
  {
  }

  lemma SampleOneAbove(c: Config)
    requires Ranked(c)
    ensures var w := SampleWorld(c);
            && Sized(c, w) && AllRowsKeyed(c, w) && OneAbove(c, w)
            && forall i: nat, m: Node | i < |c.hierarchy.specs| && IsNode(c, m) :: PinnedBelow(c, w, SampleVersion(i), i, m)
  {
    var w := SampleWorld(c);
    forall n: Node | IsNode(c, n) ensures TablesAt(w, n) == SampleTables(c) { SampleAt(c, n, 0); }
    forall i: nat, m: Node | i < |c.hierarchy.specs| && IsNode(c, m) ensures PinnedBelow(c, w, SampleVersion(i), i, m) {
      SampleAt(c, m, 0);
      if i > 0 { IndexAt(c.hierarchy.specs, i - 1); }
    }
    forall n: Node, v: VersionId, m: Node
      | IsNode(c, n) && IsNode(c, m) && v in TablesAt(w, n).versions && v.keyId in TablesAt(w, n).keys
      ensures PinAbove(c, w, n, v, m)
    {
      IndexAt(c.hierarchy.specs, v.keyId);
      assert PinnedBelow(c, w, SampleVersion(v.keyId), v.keyId, m);
    }
  }

  lemma BoundCanSeal(c: Config, n: Node, i: nat)
    requires Ranked(c) && HopsOk(c) && IsNode(c, n) && i < |c.hierarchy.specs| && ChainBound(c, n, i)
    requires InSegment(c.hierarchy.specs, NodeSegment(c, n), i)
    ensures CanSeal(c, n, i)
  {
    assert HopOk(c, n, i);
    SampleParent(c, n, i, Encrypt);
    SampleSeals(c, n, i);
    SampleOneAbove(c);
    assert Seals(c, SampleWorld(c), n, i, SampleVersion(i), Draw(0, 0, 0));
  }

  lemma SampleSeals(c: Config, n: Node, i: nat)
    requires IsNode(c, n) && i < |c.hierarchy.specs| && ChainBound(c, n, i) && Sized(c, SampleWorld(c))
    requires ParentKey(c, SampleWorld(c), n, c.hierarchy.specs[i].kind, SampleVersion(i), Encrypt).Ok?
    ensures CreateSecret(c, SampleWorld(c), n, c.hierarchy.specs[i].kind, SampleVersion(i), Draw(0, 0, 0)).Some?
  {
  }

  /** A chain of an accepted configuration can seal, in some world, if and only if every kind on the
      way is served with a vault and the last hop is the root provider. */
  lemma CanSealIff(c: Config, n: Node, i: nat)
    requires Accepted(c) && IsNode(c, n) && 1 <= i < |c.hierarchy.specs| && InSegment(c.hierarchy.specs, NodeSegment(c, n), i)
    ensures CanSeal(c, n, i) <==> ChainBound(c, n, i)
  {
    if ChainBound(c, n, i) {
      AcceptedHops(c);
      BoundCanSeal(c, n, i);
    }
    if CanSeal(c, n, i) { SealNeedsChain(c, n, i); }
  }

  lemma SealNeedsChain(c: Config, n: Node, i: nat)
    requires Ranked(c) && IsNode(c, n) && 1 <= i < |c.hierarchy.specs| && CanSeal(c, n, i)
    ensures ChainBound(c, n, i)
  {
    var w: World, kv: KeyVersion, d: Draw :| Seals(c, w, n, i, kv, d);
    ParentNeedsChain(c, w, n, i, kv, Encrypt);
  }

  /** The acceptance rules do not see it: every chain of an accepted configuration can seal if and
      only if the root key is reached locally and every binding names a vault. */
  lemma ChainsCanSealIff(c: Config)
    requires Accepted(c)
    ensures RootKeyReachedLocally(c) && VaultsBound(c) <==>
            forall n: Node, i: nat | IsNode(c, n) && 1 <= i < |c.hierarchy.specs|
                                     && InSegment(c.hierarchy.specs, NodeSegment(c, n), i) :: CanSeal(c, n, i)
  {
    ChainsBoundIff(c);
    forall n: Node, i: nat | IsNode(c, n) && 1 <= i < |c.hierarchy.specs| && InSegment(c.hierarchy.specs, NodeSegment(c, n), i)
      ensures CanSeal(c, n, i) <==> ChainBound(c, n, i)
    {
      CanSealIff(c, n, i);
    }
  }

  /** A kind right below the root key whose parent is remote never seals, in no world and for no
      version: the manager found there has no processor for the root kind. */
  lemma RemoteFirstKindNeverSeals(c: Config, w: World, n: Node, kv: KeyVersion, d: Draw)
    requires Valid(c.hierarchy) && Sized(c, w) && IsNode(c, n) && 1 < |c.hierarchy.specs|
    requires Serves(c, n, c.hierarchy.specs[1].kind) && NodeBindings(c, n)[c.hierarchy.specs[1].kind].HasRemoteParent()
    ensures CreateSecret(c, w, n, c.hierarchy.specs[1].kind, kv, d).None?
  {
    var kind := c.hierarchy.specs[1].kind;
    IndexAt(c.hierarchy.specs, 1);
    if kv.parentKey.Some? && ParentOf(c, n, kind).ManagerAt? {
      NoSecretAtRootKind(c, w, ParentOf(c, n, kind).node, kv.id.tenant, kv.parentKey.value, kv.ParentPin());
    }
    assert ParentKey(c, w, n, kind, kv, Encrypt).Err?;
  }

  lemma NoSecretAtRootKind(c: Config, w: World, n: Node, tenant: Uuid, keyId: Uuid, version: nat)
    requires Valid(c.hierarchy) && Sized(c, w) && IsNode(c, n)
    ensures SecretOf(c, w, n, tenant, keyId, version, 1).Err?
  {
  }

  /** So a secret is sealed at an agent only two positions or more below the root key. */
  lemma AgentsSealBelowFirst(c: Config, w: World, a: nat, kind: Name, kv: KeyVersion, d: Draw)
    requires Accepted(c) && Sized(c, w) && a < |c.agents| && CreateSecret(c, w, AtAgent(a), kind, kv, d).Some?
    ensures IndexOf(c.hierarchy.specs, kind) >= 2
  {
    BoundAtAgent(c, a, kind);
    if IndexOf(c.hierarchy.specs, kind) == 1 {
      assert kind == c.hierarchy.specs[1].kind;
      FirstAtAgentIsRemote(c, a);
      RemoteFirstKindNeverSeals(c, w, AtAgent(a), kv, d);
    }
  }

  lemma FirstAtAgentIsRemote(c: Config, a: nat)
    requires Accepted(c) && a < |c.agents| && 1 < |c.hierarchy.specs|
    requires InSegment(c.hierarchy.specs, c.agents[a].segment, 1)
    ensures Serves(c, AtAgent(a), c.hierarchy.specs[1].kind)
    ensures c.agents[a].bindings[c.hierarchy.specs[1].kind].HasRemoteParent()
  {
    assert AgentSegmentOk(c.hierarchy.specs, c.agents[a].segment, c.agents[a].bindings);
    assert c.hierarchy.specs[0].role == RootRole;
    AgentStartIsRemote(c, a);
  }
}
