/** The calls the root makes on an agent. Each runs in one transaction on the agent's tables; the
    vault is written outside it. */
module Agent {
  import opened Model
  import opened Store
  import opened Topology
  import opened Worlds
  import opened Envelope

  /** How a call ends for the caller: applied, worth retrying, or refused for good. */
  datatype Reply = Applied | Retry | Abort

  datatype Served = Served(world: World, reply: Reply)

  /** Errors before and after the vault took the entry, and what the attempt draws. */
  datatype SealFaults = SealFaults(before: bool, after: bool, draw: Draw)

  datatype SealOutcome = SealOutcome(world: World, ok: bool)

  /** Generate, seal and import the secret of a version. The import outlives a later error. */
  ghost function GenerateAndSeal(c: Config, w: World, n: Node, kind: Name, kv: KeyVersion, f: SealFaults): (r: SealOutcome)
    requires Sized(c, w) && IsNode(c, n)
  {
    if f.before then SealOutcome(w, false)
    else
      match CreateSecret(c, w, n, kind, kv, f.draw)
      case None => SealOutcome(w, false)
      case Some(e) => SealOutcome(w.(vaults := w.vaults[Slot(n, kv.id) := e]), !f.after)
  }

  datatype KeyFaults = KeyFaults(tenantRead: bool, create: bool, readExisting: bool, update: bool, commit: bool)

  /** The row an agent keeps: mirrored rows are always completed. */
  function MirrorRow(k: Key): (r: Key) {
    k.(status := Completed)
  }

  predicate ValidUpsert(k: Key) {
    k.kind != "" && k.name != "" && k.managedBy != "" && k.parent.Some?
  }

  /** The checks made before the transaction: complete, and no reserved label. */
  predicate Acceptable(k: Key) {
    ValidUpsert(k) && !HasReserved(k.labels)
  }

  ghost function UpsertOn(t: Tables, k: Key, f: KeyFaults): (r: (Tables, Reply)) {
    if !Acceptable(k) then (t, Abort)
    else if f.tenantRead then (t, Retry)
    else if k.tenant !in t.tenants then (t, Abort)
    else if f.create then (t, Retry)
    else if f.readExisting && (k.id in t.keys || NameTaken(t, k.tenant, k.name)) then (t, Retry)
    else
      match UpsertKey(t, MirrorRow(k))
      case IdentityConflict => (t, Abort)
      case ConflictingRowGone => (t, Retry)
      case Upserted(t2, _) =>
        if (f.update && (k.id in t.keys || NameTaken(t, k.tenant, k.name))) || f.commit then (t, Retry) else (t2, Applied)
  }

  ghost function UpsertKeyAt(w: World, a: nat, k: Key, f: KeyFaults): (r: Served)
    requires a < |w.agents|
  {
    var (t, reply) := UpsertOn(w.agents[a], k, f);
    Served(w.(agents := w.agents[a := t]), reply)
  }

  datatype VersionFaults = VersionFaults(
    tenantRead: bool, keyRead: bool, versionRead: bool, write: bool, seal: SealFaults, commit: bool)

  /** A version as the call carries it: no labels, and pin 0 means none. */
  function OnWire(kv: KeyVersion): (r: KeyVersion) {
    kv.(parentVersion := if kv.ParentPin() == 0 then None else kv.parentVersion, providerKey := None)
  }

  ghost function UpsertVersionAt(c: Config, w: World, a: nat, kv: KeyVersion, f: VersionFaults): (r: Served)
    requires Sized(c, w) && a < |w.agents|
  {
    var t := w.agents[a];
    if kv.id.version == 0 || kv.id.revision == 0 then Served(w, Abort)
    else if f.tenantRead then Served(w, Retry)
    else if kv.id.tenant !in t.tenants then Served(w, Abort)
    else if f.keyRead then Served(w, Retry)
    else
      match GetKey(t, kv.id.keyId, kv.id.tenant)
      case None => Served(w, Abort)
      case Some(key) =>
        if key.life != kv.life then Served(w, Abort)
        else if f.versionRead || f.write then Served(w, Retry)
        else if kv.id in t.versions then
          if f.commit then Served(w, Retry)
          else Served(w.(agents := w.agents[a := SetVersionStates(t, kv.id, kv.life, kv.processing)]), Applied)
        else
          var s := GenerateAndSeal(c, w, AtAgent(a), key.kind, OnWire(kv), f.seal);
          if !s.ok || f.commit then Served(s.world, Retry)
          else Served(s.world.(agents := s.world.agents[a := InsertVersion(t, OnWire(kv))]), Applied)
  }
}
