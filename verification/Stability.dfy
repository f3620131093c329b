/** What a step never takes away: rows, pins, committed material, bound providers. */
module Stability {
  import opened Model
  import opened Store
  import opened Topology
  import opened Worlds
  import opened Envelope
  import opened Agent
  import opened Protocol
  import opened KeyAction
  import opened Steps
  import opened Invariant
  import opened Preservation

  lemma GrowsTransitive(c: Config, w: World, w1: World, w2: World)
    requires Grows(c, w, w1) && Grows(c, w1, w2)
    ensures Grows(c, w, w2)
  {
    forall n: Node | IsNode(c, n)
      ensures KeepsRows(TablesAt(w, n), TablesAt(w2, n)) && KeepsMaterial(w, w2, n)
    {
      assert KeepsRows(TablesAt(w, n), TablesAt(w1, n)) && KeepsRows(TablesAt(w1, n), TablesAt(w2, n));
      assert KeepsMaterial(w, w1, n) && KeepsMaterial(w1, w2, n);
    }
  }

  lemma GrowsReflexive(c: Config, w: World)
    requires Sized(c, w)
    ensures Grows(c, w, w)
  {
  }

  /** Replacing the root's tables by tables that keep its rows. */
  lemma RootGrows(c: Config, w: World, t: Tables)
    requires Sized(c, w) && KeepsRows(w.root, t)
    ensures Grows(c, w, w.(root := t))
  {
    var w2 := w.(root := t);
    forall n: Node | IsNode(c, n)
      ensures KeepsRows(TablesAt(w, n), TablesAt(w2, n)) && KeepsMaterial(w, w2, n)
    {
    }
  }

  lemma AgentGrows(c: Config, w: World, a: nat, t: Tables)
    requires Sized(c, w) && a < |w.agents| && KeepsRows(w.agents[a], t)
    ensures Grows(c, w, WithAgent(w, a, t))
  {
    var w2 := WithAgent(w, a, t);
    forall n: Node | IsNode(c, n)
      ensures KeepsRows(TablesAt(w, n), TablesAt(w2, n)) && KeepsMaterial(w, w2, n)
    {
    }
  }

  /** Writing the slot of a version that is not committed at its node. */
  lemma VaultGrows(c: Config, w: World, n: Node, v: VersionId, e: Entry)
    requires Sized(c, w) && IsNode(c, n) && v !in TablesAt(w, n).versions && v.version > 0
    ensures Grows(c, w, w.(vaults := w.vaults[Slot(n, v) := e]))
  {
  }

  // ------------------------------------------------------------------ the task

  lemma SealGrows(c: Config, w: World, n: Node, kind: Name, kv: KeyVersion, f: SealFaults)
    requires Sized(c, w) && IsNode(c, n) && kv.id !in TablesAt(w, n).versions && kv.id.version > 0
    ensures Grows(c, w, GenerateAndSeal(c, w, n, kind, kv, f).world)
  {
    SealEffect(c, w, n, kind, kv, f);
    var g := GenerateAndSeal(c, w, n, kind, kv, f);
    if g.world == w {
      GrowsReflexive(c, w);
    } else {
      VaultGrows(c, w, n, kv.id, g.world.vaults[Slot(n, kv.id)]);
    }
  }

  lemma CallKeyGrows(c: Config, w: World, a: nat, k: Key, call: Call<KeyFaults>)
    requires Inv(c, w) && CallFor(c, w, a, k)
    ensures Grows(c, w, CallUpsertKey(w, a, k, call).world)
  {
    UpsertLandsOnRow(c, w, a, k, call.faults);
    var t := UpsertOn(w.agents[a], k, call.faults).0;
    assert w.agents[a := w.agents[a]] == w.agents;
    if k.id in w.agents[a].keys {
      assert w.agents[a].keys[k.id].IsSame(w.root.keys[k.id]);
    }
    GrowsReflexive(c, w);
    AgentGrows(c, w, a, t);
  }

  lemma VersionAtGrows(c: Config, w: World, a: nat, k: Key, kv: KeyVersion, f: VersionFaults)
    requires Inv(c, w) && OpenVersion(c, w, a, k, kv)
    ensures Grows(c, w, UpsertVersionAt(c, w, a, kv, f).world)
  {
    VersionCallCases(c, w, a, kv, f);
    GrowsReflexive(c, w);
    var key := GetKey(w.agents[a], kv.id.keyId, kv.id.tenant);
    if kv.id in w.agents[a].versions {
      assert RowsKeyed(TablesAt(w, AtAgent(a)));
      AgentGrows(c, w, a, SetVersionStates(w.agents[a], kv.id, kv.life, kv.processing));
    } else if key.Some? {
      FirstPushGrows(c, w, a, kv, key.value.kind, f.seal);
    }
  }

  lemma FirstPushGrows(c: Config, w: World, a: nat, kv: KeyVersion, kind: Name, f: SealFaults)
    requires Sized(c, w) && a < |w.agents| && kv.id !in w.agents[a].versions && kv.id.version > 0
    ensures var g := GenerateAndSeal(c, w, AtAgent(a), kind, OnWire(kv), f);
            Grows(c, w, g.world) && Grows(c, w, WithAgent(g.world, a, InsertVersion(w.agents[a], OnWire(kv))))
  {
    var g := GenerateAndSeal(c, w, AtAgent(a), kind, OnWire(kv), f);
    SealGrows(c, w, AtAgent(a), kind, OnWire(kv), f);
    SealEffect(c, w, AtAgent(a), kind, OnWire(kv), f);
    AgentGrows(c, g.world, a, InsertVersion(w.agents[a], OnWire(kv)));
    GrowsTransitive(c, w, g.world, WithAgent(g.world, a, InsertVersion(w.agents[a], OnWire(kv))));
  }

  lemma RemoteGrows(c: Config, w: World, key: Key, kv: KeyVersion, f: TaskFaults)
    requires Deployed(c) && Running(c, w, key)
    requires kv.id.keyId == key.id && kv.id.version > 0 && kv.id.revision == 1 && kv.parentKey == key.parent
    ensures Grows(c, w, UpsertRemote(c, w, key, kv, f).world)
  {
    GrowsReflexive(c, w);
    if key.managedBy != c.name && FindAgent(c.agents, key.managedBy).Some? {
      var a := FindAgent(c.agents, key.managedBy).value;
      CallKeyKeepsInv(c, w, a, key, f.keyCall);
      CallKeyGrows(c, w, a, key, f.keyCall);
      var w1 := CallUpsertKey(w, a, key, f.keyCall).world;
      VersionAtGrows(c, w1, a, key, kv, f.versionCall.faults);
      GrowsReflexive(c, w1);
      GrowsTransitive(c, w, w1, CallUpsertVersion(c, w1, a, kv, f.versionCall).world);
    }
  }

  lemma LocalSealGrows(c: Config, w: World, key: Key, kv: KeyVersion, isNew: bool, f: TaskFaults)
    requires Sized(c, w) && kv.id.version > 0 && (isNew ==> kv.id !in w.root.versions)
    ensures Grows(c, w, SealLocally(c, w, key, kv, isNew, f).world)
  {
    GrowsReflexive(c, w);
    if isNew { SealGrows(c, w, AtRoot, key.kind, kv, f.seal); }
  }

  /** What resolving does to the tables: one row inserted, or one row's states set. */
  lemma ResolvedKeepsRows(t: Tables, key: Key, f: TaskFaults, status: Status)
    requires RowsKeyed(t) && ResolveVersion(t, key, f).Resolved? && key.id in t.keys
    ensures ResolveVersion(t, key, f).tables.keys == t.keys
    ensures KeepsRows(t, SetStates(ResolveVersion(t, key, f).tables, key.id, key.life, status))
  {
    ResolveEffect(t, key, f);
  }

  /** The worlds a task may end in, each reached by calls alone or by calls and one commit. */
  ghost predicate EndsIn(c: Config, w: World, key: Key, f: TaskFaults, out: World)
    requires Sized(c, w) && ResolveVersion(w.root, key, f).Resolved?
  {
    var r := ResolveVersion(w.root, key, f);
    var s := SealLocally(c, w, key, r.version, r.isNew, f);
    var p := UpsertRemote(c, s.world, key, r.version, f);
    || out == s.world
    || out == p.world
    || (key.id in r.tables.keys
        && (|| out == s.world.(root := SetStates(r.tables, key.id, key.life, Failed))
            || out == p.world.(root := SetStates(r.tables, key.id, key.life, Failed))
            || out == p.world.(root := SetStates(r.tables, key.id, key.life, Completed))))
  }

  lemma ProcessCases(c: Config, w: World, key: Key, f: TaskFaults)
    requires Sized(c, w) && key.id in w.root.keys && w.root.keys[key.id] == key
    ensures var out := Process(c, w, key, f).world;
            || out == w
            || out == w.(root := SetStates(w.root, key.id, key.life, Failed))
            || (ResolveVersion(w.root, key, f).Resolved? && EndsIn(c, w, key, f, out))
  {
  }

  lemma ProcessGrows(c: Config, w: World, key: Key, f: TaskFaults)
    requires Deployed(c) && Running(c, w, key)
    ensures Grows(c, w, Process(c, w, key, f).world)
  {
    ProcessCases(c, w, key, f);
    var out := Process(c, w, key, f).world;
    if out == w {
      GrowsReflexive(c, w);
    } else if out == w.(root := SetStates(w.root, key.id, key.life, Failed)) {
      RootGrows(c, w, SetStates(w.root, key.id, key.life, Failed));
    } else {
      CallsGrow(c, w, key, f);
    }
  }

  lemma CommitGrows(c: Config, w: World, w1: World, t: Tables)
    requires Grows(c, w, w1) && w1.root == w.root && KeepsRows(w.root, t)
    ensures Grows(c, w, w1.(root := t))
  {
    RootGrows(c, w1, t);
    GrowsTransitive(c, w, w1, w1.(root := t));
  }

  lemma CommitsGrow(c: Config, w: World, key: Key, f: TaskFaults)
    requires Sized(c, w) && RowsKeyed(w.root) && ResolveVersion(w.root, key, f).Resolved? && key.id in w.root.keys
    requires var r := ResolveVersion(w.root, key, f);
             var s := SealLocally(c, w, key, r.version, r.isNew, f);
             var p := UpsertRemote(c, s.world, key, r.version, f);
             Grows(c, w, s.world) && Grows(c, w, p.world) && s.world.root == w.root && p.world.root == w.root
    ensures forall out | EndsIn(c, w, key, f, out) :: Grows(c, w, out)
  {
    var r := ResolveVersion(w.root, key, f);
    var s := SealLocally(c, w, key, r.version, r.isNew, f);
    var p := UpsertRemote(c, s.world, key, r.version, f);
    ResolvedKeepsRows(w.root, key, f, Failed);
    ResolvedKeepsRows(w.root, key, f, Completed);
    CommitGrows(c, w, s.world, SetStates(r.tables, key.id, key.life, Failed));
    CommitGrows(c, w, p.world, SetStates(r.tables, key.id, key.life, Failed));
    CommitGrows(c, w, p.world, SetStates(r.tables, key.id, key.life, Completed));
  }

  lemma CallsGrow(c: Config, w: World, key: Key, f: TaskFaults)
    requires Deployed(c) && Running(c, w, key) && ResolveVersion(w.root, key, f).Resolved?
    ensures forall out | EndsIn(c, w, key, f, out) :: Grows(c, w, out)
  {
    var r := ResolveVersion(w.root, key, f);
    ResolvedIsLatest(c, w, key, f);
    if r.isNew { NewVersionInOrder(c, w, key, f); }
    LocalSealGrows(c, w, key, r.version, r.isNew, f);
    LocalSealKeepsInv(c, w, key, r.version, r.isNew, f);
    var s := SealLocally(c, w, key, r.version, r.isNew, f);
    RemoteGrows(c, s.world, key, r.version, f);
    RemoteKeepsInv(c, s.world, key, r.version, f);
    GrowsTransitive(c, w, s.world, UpsertRemote(c, s.world, key, r.version, f).world);
    assert RowsKeyed(TablesAt(w, AtRoot));
    CommitsGrow(c, w, key, f);
  }

  // ------------------------------------------------------------------ all steps

  predicate SameProvider(a: ProviderSpec, b: ProviderSpec) {
    a.secret == b.secret && a.kind == b.kind
  }

  /** A provider is neither removed nor bound to another secret or type. */
  ghost predicate KeepsBinding(w: World, s: Step) {
    match s
    case CreateProviderStep(kid, spec, _, _) =>
      Bound(w, kid) ==> SameProvider(w.vaults[ProviderSlot(kid.tenant, kid.id)].spec, spec)
    case RemoveProviderStep(kid, _) => !Bound(w, kid)
    case _ => true
  }

  lemma JobGrows(c: Config, w: World, p: Key)
    requires Sized(c, w)
    ensures Grows(c, w, w.(jobs := w.jobs + {p}))
  {
    GrowsReflexive(c, w);
  }

  lemma AnnounceGrows(c: Config, w: World, req: AnnounceRequest, id: Uuid, now: int, f: AnnounceFaults)
    requires Sized(c, w) && id !in w.root.keys
    ensures Grows(c, w, Announce(c, w, req, id, now, f))
  {
    AnnounceCases(c, w, req, id, now, f);
    var k, w2 := NewKey(c, req, id, now), Announce(c, w, req, id, now, f);
    GrowsReflexive(c, w);
    if NameTaken(w.root, k.tenant, k.name) {
      var i := IdByName(w.root, k.tenant, k.name);
      var w1 := w.(jobs := w.jobs + {k.(id := i)});
      JobGrows(c, w, k.(id := i));
      CommitGrows(c, w, w, SetStates(w.root, i, PreActivation, Pending));
      CommitGrows(c, w, w1, SetStates(w.root, i, PreActivation, Pending));
    } else {
      JobGrows(c, w, k);
      CommitGrows(c, w, w, WithRow(w, k).root);
      CommitGrows(c, w, w.(jobs := w.jobs + {k}), WithRow(w, k).root);
    }
  }

  lemma PushTenantGrows(c: Config, w: World, p: Key, f: AnnounceTaskFaults)
    requires Sized(c, w)
    ensures Grows(c, w, PushTenant(c, w, p, f).world)
  {
    GrowsReflexive(c, w);
    if FindAgent(c.agents, p.managedBy).Some? {
      var a := FindAgent(c.agents, p.managedBy).value;
      AgentGrows(c, w, a, w.agents[a].(tenants := w.agents[a].tenants + {p.tenant}));
    }
  }

  lemma PushKeyGrows(c: Config, w: World, p: Key, f: AnnounceTaskFaults)
    requires Inv(c, w) && p in w.jobs && p.id in w.root.keys
    ensures Grows(c, w, PushKey(c, w, p, f).world)
  {
    GrowsReflexive(c, w);
    if FindAgent(c.agents, p.managedBy).Some? {
      CallKeyGrows(c, w, FindAgent(c.agents, p.managedBy).value, p, f.keyCall);
    }
  }

  lemma SettleGrows(c: Config, w: World, p: Key, status: Status, f: AnnounceTaskFaults)
    requires Sized(c, w)
    ensures Grows(c, w, Settle(w, p, status, f).world)
  {
    GrowsReflexive(c, w);
    if p.id in w.root.keys {
      CommitGrows(c, w, w, SetStates(w.root, p.id, PreActivation, status));
    }
  }

  lemma AnnounceTaskGrows(c: Config, w: World, p: Key, f: AnnounceTaskFaults)
    requires Inv(c, w) && p in w.jobs
    ensures Grows(c, w, HandleAnnounce(c, w, p, f).world)
  {
    AnnounceTaskCases(c, w, p, f);
    GrowsReflexive(c, w);
    PushTenantGrows(c, w, p, f);
    PushTenantKeepsInv(c, w, p, f);
    var w1 := PushTenant(c, w, p, f).world;
    SettleGrows(c, w1, p, Failed, f);
    GrowsTransitive(c, w, w1, Settle(w1, p, Failed, f).world);
    if p.id in w1.root.keys {
      PushKeyGrows(c, w1, p, f);
      var w2 := PushKey(c, w1, p, f).world;
      GrowsTransitive(c, w, w1, w2);
      SettleGrows(c, w2, p, Failed, f);
      SettleGrows(c, w2, p, Completed, f);
      GrowsTransitive(c, w, w2, Settle(w2, p, Failed, f).world);
      GrowsTransitive(c, w, w2, Settle(w2, p, Completed, f).world);
    }
  }

  lemma StoreSpecGrows(c: Config, w: World, kid: KeyIdentifier, spec: ProviderSpec)
    requires Inv(c, w) && (Bound(w, kid) ==> SameProvider(w.vaults[ProviderSlot(kid.tenant, kid.id)].spec, spec))
    ensures Grows(c, w, StoreSpec(w, kid, spec))
  {
    forall v | v in w.root.versions ensures v.version > 0 {
      assert RowInOrder(w.root, v);
    }
  }

  lemma InsertProviderGrows(c: Config, w: World, kid: KeyIdentifier, version: nat, providerKey: ProviderKey, f: ProviderFaults)
    requires Sized(c, w)
    ensures Grows(c, w, InsertProviderVersion(w, kid, version, providerKey, f))
  {
    GrowsReflexive(c, w);
    var kv := ProviderVersion(kid, version, providerKey);
    if kv.id !in w.root.versions { RootGrows(c, w, InsertVersion(w.root, kv)); }
  }

  lemma ProviderGrows(c: Config, w: World, kid: KeyIdentifier, spec: ProviderSpec, providerKey: string, f: ProviderFaults)
    requires Inv(c, w) && (Bound(w, kid) ==> SameProvider(w.vaults[ProviderSlot(kid.tenant, kid.id)].spec, spec))
    ensures Grows(c, w, CreateProvider(w, kid, spec, providerKey, f))
  {
    GrowsReflexive(c, w);
    StoreSpecGrows(c, w, kid, spec);
    var w1 := StoreSpec(w, kid, spec);
    InsertProviderGrows(c, w1, kid, 1, ProviderKey(spec.kind, providerKey), f);
    GrowsTransitive(c, w, w1, InsertProviderVersion(w1, kid, 1, ProviderKey(spec.kind, providerKey), f));
  }

  lemma RotateGrows(c: Config, w: World, kid: KeyIdentifier, kind: string, auth: nat, providerKey: string, f: ProviderFaults)
    requires Inv(c, w)
    ensures Grows(c, w, RotateAuth(w, kid, kind, auth, f))
    ensures Grows(c, w, RotateProviderKey(w, kid, kind, providerKey, f))
  {
    GrowsReflexive(c, w);
    if Bound(w, kid) {
      StoreSpecGrows(c, w, kid, w.vaults[ProviderSlot(kid.tenant, kid.id)].spec.(auth := auth));
    }
    RotateKeyCases(w, kid, kind, providerKey, f);
    if Newest(w.root, kid.tenant, kid.id, LATEST).Some? {
      InsertProviderGrows(c, w, kid, Newest(w.root, kid.tenant, kid.id, LATEST).value.id.version + 1, ProviderKey(kind, providerKey), f);
    }
  }

  lemma SpecsAtVersionZero(c: Config, w: World, kid: KeyIdentifier)
    requires VaultsInPlace(c, w)
    ensures ProviderSlot(kid.tenant, kid.id) in w.vaults <==> Bound(w, kid)
  {
    if ProviderSlot(kid.tenant, kid.id) in w.vaults { assert SlotInPlace(c, w, ProviderSlot(kid.tenant, kid.id)); }
  }

  lemma RemoveUnboundGrows(c: Config, w: World, kid: KeyIdentifier, f: ProviderFaults)
    requires Inv(c, w) && !Bound(w, kid)
    ensures Grows(c, w, RemoveProvider(w, kid, f))
  {
    SpecsAtVersionZero(c, w, kid);
    assert w.vaults - {ProviderSlot(kid.tenant, kid.id)} == w.vaults;
    GrowsReflexive(c, w);
  }

  /** Rows, pins, committed material and bound providers survive every step. */
  lemma StepGrows(c: Config, w: World, s: Step)
    requires Deployed(c) && Inv(c, w) && Enabled(c, w, s) && KeepsBinding(w, s)
    ensures Grows(c, w, Next(c, w, s))
  {
    match s
    case CreateTenantStep(t) => CommitGrowsTenant(c, w, t);
    case AnnounceStep(req, id, now, f) => AnnounceGrows(c, w, req, id, now, f);
    case ConfirmStep(p, failed) => ConfirmGrows(c, w, p, failed);
    case AnnounceTaskStep(p, f) => AnnounceTaskGrows(c, w, p, f);
    case ActionStep(a, kid, cascading, tree) =>
      MovedSameRows(w.root, Target(a), tree);
      RootGrows(c, w, Moved(w.root, Target(a), tree));
    case TaskStep(a, kid, f) => TaskGrows(c, w, Target(a), kid, f);
    case CreateProviderStep(kid, spec, pk, f) => ProviderGrows(c, w, kid, spec, pk, f);
    case RotateAuthStep(kid, kind, auth, f) => RotateGrows(c, w, kid, kind, auth, "", f);
    case RotateKeyStep(kid, kind, pk, f) => RotateGrows(c, w, kid, kind, 0, pk, f);
    case RemoveProviderStep(kid, f) => RemoveUnboundGrows(c, w, kid, f);
  }

  lemma CommitGrowsTenant(c: Config, w: World, t: Uuid)
    requires Sized(c, w)
    ensures Grows(c, w, w.(root := w.root.(tenants := w.root.tenants + {t})))
  {
    RootGrows(c, w, w.root.(tenants := w.root.tenants + {t}));
  }

  lemma ConfirmGrows(c: Config, w: World, p: Key, failed: bool)
    requires Sized(c, w)
    ensures Grows(c, w, ConfirmAnnounce(w, p, failed))
  {
    GrowsReflexive(c, w);
    if p.id in w.root.keys { RootGrows(c, w, SetStates(w.root, p.id, w.root.keys[p.id].life, InProgress)); }
  }

  lemma TaskGrows(c: Config, w: World, target: LifeCycle, kid: KeyIdentifier, f: TaskFaults)
    requires Deployed(c) && Inv(c, w)
    ensures Grows(c, w, HandleTask(c, w, target, kid, f).world)
  {
    GrowsReflexive(c, w);
    TaskCases(c, w, target, kid, f);
    if HandleTask(c, w, target, kid, f).world != w {
      assert RowsKeyed(TablesAt(w, AtRoot));
      ProcessGrows(c, w, GetKey(w.root, kid.id, kid.tenant).value, f);
    }
  }

  lemma InvFirstRevisions(c: Config, w: World)
    requires Inv(c, w)
    ensures FirstRevisions(c, w)
  {
    forall n: Node, v: VersionId | IsNode(c, n) && v in TablesAt(w, n).versions ensures v.revision == 1 {
      if n.AtRoot? { assert RowInOrder(w.root, v); }
    }
  }

  lemma StepOfRunGrows(c: Config, ws: seq<World>, steps: seq<Step>, k: nat)
    requires Deployed(c) && Run(c, ws, steps) && Initial(c, ws[0]) && k < |steps| && KeepsBinding(ws[k], steps[k])
    ensures Grows(c, ws[k], ws[k + 1])
  {
    RunKeepsInv(c, ws, steps, k);
    assert Taken(c, ws, steps, k);
    StepGrows(c, ws[k], steps[k]);
  }

  ghost predicate GrownTo(c: Config, ws: seq<World>, k: nat) {
    0 < k < |ws| && Grows(c, ws[k - 1], ws[k])
  }

  lemma {:induction false} GrowsAlong(c: Config, ws: seq<World>, i: nat, j: nat)
    requires i <= j < |ws| && Sized(c, ws[i]) && forall k | i < k <= j :: GrownTo(c, ws, k)
    ensures Grows(c, ws[i], ws[j])
    decreases j - i
  {
    if i == j {
      GrowsReflexive(c, ws[i]);
    } else {
      GrowsAlong(c, ws, i, j - 1);
      assert GrownTo(c, ws, j);
      GrowsTransitive(c, ws[i], ws[j - 1], ws[j]);
    }
  }

  lemma WorldsGrow(c: Config, ws: seq<World>, steps: seq<Step>, i: nat, j: nat)
    requires Deployed(c) && Run(c, ws, steps) && Initial(c, ws[0]) && i <= j < |ws|
    requires forall k | i <= k < j :: KeepsBinding(ws[k], steps[k])
    ensures Grows(c, ws[i], ws[j])
  {
    forall k | i < k <= j ensures GrownTo(c, ws, k) {
      StepOfRunGrows(c, ws, steps, k - 1);
    }
    GrowsAlong(c, ws, i, j);
  }

  lemma RunRevisions(c: Config, ws: seq<World>, steps: seq<Step>, i: nat)
    requires Deployed(c) && Run(c, ws, steps) && Initial(c, ws[0]) && i < |ws|
    ensures Sized(c, ws[i]) && AllRowsKeyed(c, ws[i]) && FirstRevisions(c, ws[i])
  {
    RunKeepsInv(c, ws, steps, i);
    InvFirstRevisions(c, ws[i]);
  }

  /** Along a run that keeps every provider bound as it is, nothing sealing depends on is lost. */
  lemma RunGrows(c: Config, ws: seq<World>, steps: seq<Step>, i: nat, j: nat)
    requires Deployed(c) && Run(c, ws, steps) && Initial(c, ws[0]) && i <= j < |ws|
    requires forall k | i <= k < j :: KeepsBinding(ws[k], steps[k])
    ensures LaterWorld(c, ws[i], ws[j])
  {
    WorldsGrow(c, ws, steps, i, j);
    RunRevisions(c, ws, steps, i);
    RunRevisions(c, ws, steps, j);
  }
}
