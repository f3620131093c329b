/** The system's mutable state: every node's database, every node's vault, and the services that
    change them. */
module Clusters {
  import opened Model
  import opened Store
  import opened Hierarchy
  import opened Topology
  import opened Lifecycle
  import opened Worlds
  import opened Envelope
  import opened Agent
  import Transactions

  lemma {:induction false} UpsertKeepsNames(t: Tables, k: Key)
    requires NamesUnique(t) && UpsertKey(t, k).Upserted?
    ensures NamesUnique(UpsertKey(t, k).tables)
  {
    if k.id in t.keys || NameTaken(t, k.tenant, k.name) {
      var i := UpsertKey(t, k).id;
      assert UpsertKey(t, k).tables == SetStates(t, i, k.life, k.status);
    }
  }

  class Cluster {
    const config: Config
    var root: Tables
    var agents: seq<Tables>
    var vaults: map<Slot, Entry>
    var jobs: set<Key>

    constructor (c: Config, w: World)
      requires Sized(c, w)
      ensures config == c && View() == w
    {
      config, root, agents, vaults, jobs := c, w.root, w.agents, w.vaults, w.jobs;
    }

    function View(): (w: World)
      reads this
    {
      World(root, agents, vaults, jobs)
    }

    /** One database per agent; every schema keeps ids and names unique. */
    ghost predicate Valid()
      reads this
    {
      && Sized(config, View()) && NamesUnique(root) && KeysById(root)
      && forall a | 0 <= a < |agents| :: NamesUnique(agents[a])
    }

    // ---------------------------------------------------------------- managers

    method ListNewest(n: Node, tenant: Uuid, keyId: Uuid, q: VersionQuery) returns (r: Option<KeyVersion>)
      requires Valid() && IsNode(config, n)
      ensures r == Newest(TablesAt(View(), n), tenant, keyId, q)
    {
      var tx := new Transactions.Tx(match n case AtRoot => root case AtAgent(a) => agents[a]);
      r := tx.NewestVersion(tenant, keyId, q);
    }

    /** The root provider's side of a seal or unseal. */
    method ProviderKey(tenant: Uuid, keyId: Uuid, version: nat, usage: Usage) returns (r: Res)
      requires Valid()
      ensures r == RootKey(View(), tenant, keyId, version, usage)
    {
      if version == 0 { return Err(VersionRequired); }
      if tenant !in root.tenants { return Err(TenantNotFound); }
      var key := GetKey(root, keyId, tenant);
      if key.None? { return Err(KeyNotFound); }
      if key.value.status != Completed { return Err(KeyTransient); }
      if usage !in Usages(key.value.life) { return Err(UsageNotAllowed); }
      var slot := ProviderSlot(tenant, keyId);
      if slot !in vaults || !vaults[slot].Provider? { return Err(NoProvider); }
      var kv := ListNewest(AtRoot, tenant, keyId, VersionQuery(version, None, None));
      if kv.None? || kv.value.providerKey.None? { return Err(NoProviderKey); }
      var spec, providerKey := vaults[slot].spec, kv.value.providerKey.value;
      if providerKey.kind != spec.kind || providerKey.id == "" { return Err(NoProviderKey); }
      return Ok(Provided(spec.secret, providerKey.id));
    }

    /** A manager resolves the version and the key it is asked for, then unseals the version's secret. */
    method SecretFor(n: Node, tenant: Uuid, keyId: Uuid, version: nat, bound: nat) returns (r: Res)
      requires Valid() && IsNode(config, n)
      ensures r == SecretOf(config, View(), n, tenant, keyId, version, bound)
      decreases bound, 0
    {
      if version == 0 { return Err(VersionRequired); }
      var kv := ListNewest(n, tenant, keyId, VersionQuery(version, Some(Usable), None));
      if kv.None? { return Err(NoUsableVersion); }
      var key := GetKey(TablesAt(View(), n), keyId, tenant);
      if key.None? { return Err(KeyNotFound); }
      if key.value.life != Active { return Err(NotActivated); }
      if !Serves(config, n, key.value.kind) { return Err(NoProcessor); }
      if IndexOf(config.hierarchy.specs, key.value.kind) >= bound { return Err(OffHierarchy); }
      r := Unseal(n, key.value.kind, kv.value);
    }

    method KeyOfParent(n: Node, kind: Name, kv: KeyVersion, usage: Usage) returns (r: Res)
      requires Valid() && IsNode(config, n) && Serves(config, n, kind)
      ensures r == ParentKey(config, View(), n, kind, kv, usage)
      decreases IndexOf(config.hierarchy.specs, kind), 1
    {
      if kv.parentKey.None? { return Err(NoParentKey); }
      match ParentOf(config, n, kind) {
        case Unresolved => r := Err(ParentUnresolved);
        case RootProvider => r := ProviderKey(kv.id.tenant, kv.parentKey.value, kv.ParentPin(), usage);
        case ManagerAt(m) =>
          r := SecretFor(m, kv.id.tenant, kv.parentKey.value, kv.ParentPin(), IndexOf(config.hierarchy.specs, kind));
      }
    }

    method Unseal(n: Node, kind: Name, kv: KeyVersion) returns (r: Res)
      requires Valid() && IsNode(config, n) && Serves(config, n, kind)
      ensures r == ResolveSecret(config, View(), n, kind, kv)
      decreases IndexOf(config.hierarchy.specs, kind), 2
    {
      if !NodeBindings(config, n)[kind].vault { return Err(NoVault); }
      if Slot(n, kv.id) !in vaults || !vaults[Slot(n, kv.id)].Sealed? { return Err(NotInVault); }
      var k := KeyOfParent(n, kind, kv, Decrypt);
      if k.Err? { return k; }
      return Envelope.Unwrap(k.bytes, NodeBindings(config, n)[kind].sealer, vaults[Slot(n, kv.id)]);
    }

    /** Draw a secret, seal it for transport and under the parent, and import it into the vault. */
    method SealNewSecret(n: Node, kind: Name, kv: KeyVersion, f: SealFaults) returns (ok: bool)
      requires Valid() && IsNode(config, n)
      modifies this`vaults
      ensures Valid()
      ensures var g := GenerateAndSeal(config, old(View()), n, kind, kv, f); View() == g.world && ok == g.ok
    {
      if f.before || !Serves(config, n, kind) || !NodeBindings(config, n)[kind].vault { return false; }
      var secret := Raw(f.draw.secret);
      var sealer := NodeBindings(config, n)[kind].sealer;
      if sealer.Some? { secret := Seal(Raw(sealer.value), f.draw.transportNonce, kv.id, secret); }
      var k := KeyOfParent(n, kind, kv, Encrypt);
      if k.Err? { return false; }
      vaults := vaults[Slot(n, kv.id) := Sealed(Seal(k.bytes, f.draw.parentNonce, kv.id, secret), kv.id)];
      return !f.after;
    }

    // ---------------------------------------------------------------- agent services

    /** The agent's key service: one transaction that inserts or reconciles the row. */
    method ServeUpsertKey(a: nat, k: Key, f: KeyFaults) returns (reply: Reply)
      requires Valid() && a < |agents|
      modifies this`agents
      ensures Valid()
      ensures var s := UpsertKeyAt(old(View()), a, k, f); View() == s.world && reply == s.reply
    {
      assert agents[a := agents[a]] == agents;
      if !Acceptable(k) { return Abort; }
      if f.tenantRead { return Retry; }
      if k.tenant !in agents[a].tenants { return Abort; }
      if f.create { return Retry; }
      var conflict := k.id in agents[a].keys || NameTaken(agents[a], k.tenant, k.name);
      if f.readExisting && conflict { return Retry; }
      var tx := new Transactions.Tx(agents[a]);
      var r := tx.UpsertKey(MirrorRow(k));
      if r.IdentityConflict? { return Abort; }
      if r.ConflictingRowGone? || (f.update && conflict) || f.commit { return Retry; }
      UpsertKeepsNames(agents[a], MirrorRow(k));
      agents := agents[a := tx.tables];
      return Applied;
    }

    /** The agent's version service: in one transaction the row is updated, or created together with
        its secret. */
    method ServeUpsertVersion(a: nat, kv: KeyVersion, f: VersionFaults) returns (reply: Reply)
      requires Valid() && a < |agents|
      modifies this`agents, this`vaults
      ensures Valid()
      ensures var s := UpsertVersionAt(config, old(View()), a, kv, f); View() == s.world && reply == s.reply
    {
      if kv.id.version == 0 || kv.id.revision == 0 { return Abort; }
      if f.tenantRead { return Retry; }
      if kv.id.tenant !in agents[a].tenants { return Abort; }
      if f.keyRead { return Retry; }
      var key := GetKey(agents[a], kv.id.keyId, kv.id.tenant);
      if key.None? || key.value.life != kv.life { return Abort; }
      if f.versionRead || f.write { return Retry; }
      var tx := new Transactions.Tx(agents[a]);
      if kv.id in tx.tables.versions {
        var stored := tx.tables.versions[kv.id];
        var matched := tx.UpdateVersionStates(kv.id, {stored.life}, {stored.processing}, kv.life, kv.processing);
      } else {
        var created := tx.CreateVersion(OnWire(kv));
        var sealedOk := SealNewSecret(AtAgent(a), key.value.kind, OnWire(kv), f.seal);
        if !sealedOk { return Retry; }
      }
      if f.commit { return Retry; }
      agents := agents[a := tx.tables];
      return Applied;
    }
  }
}
