/** What has reached the agents: every key past pre-activation, and every version the root committed
    for a key without reserved labels. */
module Delivery {
  import opened Model
  import opened Store
  import opened Hierarchy
  import opened Topology
  import opened Worlds
  import opened Sealing
  import opened Agent
  import opened Protocol
  import opened Forest
  import opened KeyAction
  import opened Steps
  import opened Invariant
  import opened Preservation
  import opened Material

  // ------------------------------------------------------------------ the parts

  /** A row an agent holds passed the checks of its key service. */
  ghost predicate Known(w: World, a: nat, i: Uuid)
    requires a < |w.agents| && i in w.agents[a].keys
  {
    ValidUpsert(w.agents[a].keys[i]) && w.agents[a].keys[i].tenant in w.agents[a].tenants
  }

  ghost predicate AgentsKnow(w: World) {
    forall a: nat, i {:trigger Known(w, a, i)} | a < |w.agents| && i in w.agents[a].keys :: Known(w, a, i)
  }

  /** A key past pre-activation is at its agent. */
  ghost predicate Arrived(c: Config, w: World, i: Uuid)
    requires Sized(c, w) && i in w.root.keys
  {
    w.root.keys[i].managedBy != c.name && w.root.keys[i].life != PreActivation ==>
      var a := FindAgent(c.agents, w.root.keys[i].managedBy);
      a.Some? && i in w.agents[a.value].keys
  }

  ghost predicate KeysArrived(c: Config, w: World)
    requires Sized(c, w)
  {
    forall i {:trigger Arrived(c, w, i)} | i in w.root.keys :: Arrived(c, w, i)
  }

  /** A version of a key other than the root key is its first, and at its agent unless the stored row
      carries a reserved label. */
  ghost predicate Shipped(c: Config, w: World, v: VersionId)
    requires Sized(c, w) && v in w.root.versions
  {
    v.keyId in w.root.keys &&
    var k := w.root.keys[v.keyId];
    && (IndexOf(c.hierarchy.specs, k.kind) > 0 ==> v.version == 1)
    && (k.managedBy != c.name && !HasReserved(k.labels) ==>
          var a := FindAgent(c.agents, k.managedBy);
          a.Some? && v in w.agents[a.value].versions)
  }

  ghost predicate VersionsShipped(c: Config, w: World)
    requires Sized(c, w)
  {
    forall v {:trigger Shipped(c, w, v)} | v in w.root.versions :: Shipped(c, w, v)
  }

  /** A version at an agent: of a key without reserved labels, two positions or more below the root
      key, and pinned to the first version of its parent. */
  ghost predicate Received(c: Config, w: World, a: nat, v: VersionId)
    requires a < |w.agents| && v in w.agents[a].versions
  {
    && v.keyId in w.root.keys && !HasReserved(w.root.keys[v.keyId].labels)
    && IndexOf(c.hierarchy.specs, w.root.keys[v.keyId].kind) >= 2
    && w.agents[a].versions[v].parentVersion == Some(1)
  }

  ghost predicate VersionsReceived(c: Config, w: World) {
    forall a: nat, v {:trigger Received(c, w, a, v)} | a < |w.agents| && v in w.agents[a].versions :: Received(c, w, a, v)
  }

  /** An agent's vault holds secrets of keys without reserved labels only. */
  ghost predicate Welcome(w: World, s: Slot) {
    s.node.AtAgent? ==> s.id.keyId in w.root.keys && !HasReserved(w.root.keys[s.id.keyId].labels)
  }

  ghost predicate SlotsWelcome(w: World) {
    forall s {:trigger Welcome(w, s)} | s in w.vaults :: Welcome(w, s)
  }

  ghost predicate Delivered(c: Config, w: World) {
    && Sized(c, w) && AgentsKnow(w) && KeysArrived(c, w) && VersionsShipped(c, w) && VersionsReceived(c, w)
    && SlotsWelcome(w)
  }

  lemma InitialDelivered(c: Config, w: World)
    requires Initial(c, w)
    ensures Delivered(c, w)
  {
  }

  // ------------------------------------------------------------------ what cannot matter

  /** Labels and identity of the root's rows stay, and no version comes or goes. */
  ghost predicate SameLabels(t: Tables, t2: Tables) {
    && t2.keys.Keys == t.keys.Keys && t2.versions.Keys == t.versions.Keys
    && forall i | i in t.keys :: t2.keys[i].IsSame(t.keys[i]) && t2.keys[i].labels == t.keys[i].labels
  }

  lemma StatesKeepDelivered(c: Config, w: World, w2: World)
    requires Delivered(c, w) && w2.agents == w.agents && SameLabels(w.root, w2.root)
    requires forall i | i in w.root.keys && w.root.keys[i].life == PreActivation != w2.root.keys[i].life :: Arrived(c, w2, i)
    requires forall s | s in w2.vaults && s !in w.vaults :: Welcome(w2, s)
    ensures Delivered(c, w2)
  {
    forall s | s in w2.vaults ensures Welcome(w2, s) {
      if s in w.vaults { assert Welcome(w, s); }
    }
    forall i | i in w2.root.keys ensures Arrived(c, w2, i) { assert Arrived(c, w, i); }
    forall v | v in w2.root.versions ensures Shipped(c, w2, v) { assert Shipped(c, w, v); }
    forall a: nat, i | a < |w2.agents| && i in w2.agents[a].keys ensures Known(w2, a, i) { assert Known(w, a, i); }
    forall a: nat, v | a < |w2.agents| && v in w2.agents[a].versions ensures Received(c, w2, a, v) { assert Received(c, w, a, v); }
  }

  /** An agent's keys and tenants may grow, if what comes is known. */
  lemma KeysKeepDelivered(c: Config, w: World, a: nat, t: Tables)
    requires Delivered(c, w) && a < |w.agents| && t.versions == w.agents[a].versions
    requires w.agents[a].tenants <= t.tenants && w.agents[a].keys.Keys <= t.keys.Keys
    requires forall i | i in t.keys ::
               (i in w.agents[a].keys && t.keys[i].IsSame(w.agents[a].keys[i])) || (ValidUpsert(t.keys[i]) && t.keys[i].tenant in t.tenants)
    ensures Delivered(c, WithAgent(w, a, t))
  {
    var w2 := WithAgent(w, a, t);
    forall s | s in w2.vaults ensures Welcome(w2, s) { assert Welcome(w, s); }
    forall i | i in w2.root.keys ensures Arrived(c, w2, i) { assert Arrived(c, w, i); }
    forall v | v in w2.root.versions ensures Shipped(c, w2, v) { assert Shipped(c, w, v); }
    forall b: nat, i | b < |w2.agents| && i in w2.agents[b].keys ensures Known(w2, b, i) {
      if i in w.agents[b].keys { assert Known(w, b, i); }
    }
    forall b: nat, v | b < |w2.agents| && v in w2.agents[b].versions ensures Received(c, w2, b, v) { assert Received(c, w, b, v); }
  }

  lemma VersionsKeepDelivered(c: Config, w: World, a: nat, t: Tables)
    requires Delivered(c, w) && a < |w.agents| && t.keys == w.agents[a].keys && t.tenants == w.agents[a].tenants
    requires w.agents[a].versions.Keys <= t.versions.Keys
    requires forall v | v in t.versions :: Received(c, WithAgent(w, a, t), a, v)
    ensures Delivered(c, WithAgent(w, a, t))
  {
    var w2 := WithAgent(w, a, t);
    forall s | s in w2.vaults ensures Welcome(w2, s) { assert Welcome(w, s); }
    forall i | i in w2.root.keys ensures Arrived(c, w2, i) { assert Arrived(c, w, i); }
    forall v | v in w2.root.versions ensures Shipped(c, w2, v) { assert Shipped(c, w, v); }
    forall b: nat, i | b < |w2.agents| && i in w2.agents[b].keys ensures Known(w2, b, i) { assert Known(w, b, i); }
    forall b: nat, v | b < |w2.agents| && v in w2.agents[b].versions ensures Received(c, w2, b, v) {
      if b != a { assert Received(c, w, b, v); }
    }
  }

  // ------------------------------------------------------------------ the calls of a task

  /** A key call that changes anything passed the checks. */
  lemma UpsertPassedChecks(t: Tables, k: Key, f: KeyFaults)
    ensures var t2 := UpsertOn(t, k, f).0;
            t2 == t || (Acceptable(k) && k.tenant in t.tenants && t2.tenants == t.tenants && t2.versions == t.versions)
  {
  }

  lemma KeyCallKeepsDelivered(c: Config, w: World, a: nat, k: Key, call: Call<KeyFaults>)
    requires Inv(c, w) && Delivered(c, w) && CallFor(c, w, a, k)
    ensures Delivered(c, CallUpsertKey(w, a, k, call).world)
  {
    UpsertPassedChecks(w.agents[a], k, call.faults);
    UpsertLandsOnRow(c, w, a, k, call.faults);
    var t := UpsertOn(w.agents[a], k, call.faults).0;
    if t == w.agents[a] {
      assert w.agents[a := t] == w.agents;
    } else {
      KeysKeepDelivered(c, w, a, t);
    }
  }

  /** The version a task works on: the first, and pinned to the parent's first. */
  ghost predicate FirstPinned(c: Config, key: Key, kv: KeyVersion) {
    && kv.id.keyId == key.id && kv.parentKey == key.parent
    && (IndexOf(c.hierarchy.specs, key.kind) > 0 ==> kv.id.version == 1)
    && (IndexOf(c.hierarchy.specs, key.kind) >= 2 ==> kv.parentVersion == Some(1))
  }

  lemma FirstPushDelivered(c: Config, w: World, a: nat, key: Key, kv: KeyVersion, f: SealFaults, g: SealOutcome)
    requires Deployed(c) && Delivered(c, w) && a < |w.agents| && key.id in w.root.keys && w.root.keys[key.id] == key
    requires FirstPinned(c, key, kv) && !HasReserved(key.labels)
    requires g == GenerateAndSeal(c, w, AtAgent(a), key.kind, OnWire(kv), f) && g.ok
    ensures Delivered(c, WithAgent(g.world, a, InsertVersion(w.agents[a], OnWire(kv))))
  {
    SealStores(c, w, AtAgent(a), key.kind, OnWire(kv), f);
    AgentsSealBelowFirst(c, w, a, key.kind, OnWire(kv), f.draw);
    var t := InsertVersion(w.agents[a], OnWire(kv));
    forall v | v in t.versions ensures Received(c, WithAgent(w, a, t), a, v) {
      if v != kv.id { assert Received(c, w, a, v); }
    }
    VersionsKeepDelivered(c, w, a, t);
    StatesKeepDelivered(c, WithAgent(w, a, t), WithAgent(g.world, a, t));
  }

  lemma UpdatedVersionDelivered(c: Config, w: World, a: nat, v: VersionId, life: LifeCycle, p: Processing)
    requires Delivered(c, w) && a < |w.agents| && v in w.agents[a].versions
    ensures Delivered(c, WithAgent(w, a, SetVersionStates(w.agents[a], v, life, p)))
  {
    var t := SetVersionStates(w.agents[a], v, life, p);
    forall u | u in t.versions ensures Received(c, WithAgent(w, a, t), a, u) { assert Received(c, w, a, u); }
    VersionsKeepDelivered(c, w, a, t);
  }

  lemma VersionAtKeepsDelivered(c: Config, w: World, a: nat, key: Key, kv: KeyVersion, f: VersionFaults)
    requires Deployed(c) && Delivered(c, w) && a < |w.agents| && key.id in w.root.keys && w.root.keys[key.id] == key
    requires FirstPinned(c, key, kv) && !HasReserved(key.labels)
    requires key.id in w.agents[a].keys ==> w.agents[a].keys[key.id].kind == key.kind
    ensures Delivered(c, UpsertVersionAt(c, w, a, kv, f).world)
  {
    VersionCallCases(c, w, a, kv, f);
    if kv.id in w.agents[a].versions { UpdatedVersionDelivered(c, w, a, kv.id, kv.life, kv.processing); }
    if GetKey(w.agents[a], kv.id.keyId, kv.id.tenant).Some? {
      var g := GenerateAndSeal(c, w, AtAgent(a), key.kind, OnWire(kv), f.seal);
      SealEffect(c, w, AtAgent(a), key.kind, OnWire(kv), f.seal);
      StatesKeepDelivered(c, w, g.world);
      if g.ok { FirstPushDelivered(c, w, a, key, kv, f.seal, g); }
    }
  }

  lemma VersionCallKeepsDelivered(c: Config, w: World, a: nat, key: Key, kv: KeyVersion, call: Call<VersionFaults>)
    requires Deployed(c) && Inv(c, w) && Delivered(c, w) && a < |w.agents| && key.id in w.root.keys && w.root.keys[key.id] == key
    requires FirstPinned(c, key, kv) && !HasReserved(key.labels)
    ensures Delivered(c, CallUpsertVersion(c, w, a, kv, call).world)
  {
    if key.id in w.agents[a].keys { OneKind(c, w, AtAgent(a), key.id); }
    VersionAtKeepsDelivered(c, w, a, key, kv, call.faults);
  }

  /** An agent refuses a key with a reserved label, and nothing of the push takes effect. */
  lemma ReservedIsRefused(c: Config, w: World, key: Key, kv: KeyVersion, f: TaskFaults)
    requires Sized(c, w) && key.managedBy != c.name && HasReserved(key.labels)
    ensures var p := UpsertRemote(c, w, key, kv, f); p.world == w && !p.verdict.Done?
  {
    var a := FindAgent(c.agents, key.managedBy);
    if a.Some? { assert w.agents[a.value := w.agents[a.value]] == w.agents; }
  }

  lemma RemoteKeepsDelivered(c: Config, w: World, key: Key, kv: KeyVersion, f: TaskFaults)
    requires Deployed(c) && Running(c, w, key) && Delivered(c, w) && FirstPinned(c, key, kv)
    ensures Delivered(c, UpsertRemote(c, w, key, kv, f).world)
  {
    if key.managedBy != c.name && FindAgent(c.agents, key.managedBy).Some? {
      var a := FindAgent(c.agents, key.managedBy).value;
      if HasReserved(key.labels) {
        ReservedIsRefused(c, w, key, kv, f);
      } else {
        KeyCallKeepsDelivered(c, w, a, key, f.keyCall);
        CallKeyKeepsInv(c, w, a, key, f.keyCall);
        VersionCallKeepsDelivered(c, CallUpsertKey(w, a, key, f.keyCall).world, a, key, kv, f.versionCall);
      }
    }
  }

  /** The agent of a key past pre-activation never refuses a key without reserved labels. */
  lemma KeyNotRefused(c: Config, w: World, a: nat, key: Key, f: KeyFaults)
    requires Inv(c, w) && Delivered(c, w) && CallFor(c, w, a, key) && w.root.keys[key.id] == key
    requires key.managedBy != c.name && key.life != PreActivation && !HasReserved(key.labels)
    ensures Acceptable(key) && key.tenant in w.agents[a].tenants
    ensures !UpsertKeyAt(w, a, key, f).reply.Abort?
  {
    assert Arrived(c, w, key.id) && Known(w, a, key.id);
    assert w.agents[a].keys[key.id].IsSame(key);
    NameIsItsOwn(c, w, a, key);
  }

  lemma VersionNotRefused(c: Config, w: World, a: nat, kv: KeyVersion, f: VersionFaults)
    requires Sized(c, w) && a < |w.agents| && kv.id.version > 0 && kv.id.revision > 0 && kv.id.tenant in w.agents[a].tenants
    requires GetKey(w.agents[a], kv.id.keyId, kv.id.tenant).Some?
    requires GetKey(w.agents[a], kv.id.keyId, kv.id.tenant).value.life == kv.life
    ensures !UpsertVersionAt(c, w, a, kv, f).reply.Abort?
  {
  }

  lemma KeyCallLeavesTenants(w: World, a: nat, k: Key, call: Call<KeyFaults>)
    requires a < |w.agents|
    ensures |CallUpsertKey(w, a, k, call).world.agents| == |w.agents|
    ensures CallUpsertKey(w, a, k, call).world.agents[a].tenants == w.agents[a].tenants
  {
    UpsertPassedChecks(w.agents[a], k, call.faults);
  }

  lemma NotGivenUp(c: Config, w: World, key: Key, kv: KeyVersion, f: TaskFaults)
    requires Deployed(c) && Running(c, w, key) && Delivered(c, w) && key.managedBy != c.name && key.life != PreActivation
    requires kv.id.keyId == key.id && kv.id.tenant == key.tenant && kv.id.version > 0 && kv.id.revision > 0 && kv.life == key.life
    ensures !HasReserved(key.labels) ==> !UpsertRemote(c, w, key, kv, f).verdict.GiveUp?
  {
    assert ManagerKnown(c, key);
    var a := FindAgent(c.agents, key.managedBy).value;
    if !HasReserved(key.labels) {
      KeyNotRefused(c, w, a, key, f.keyCall.faults);
      GiveUpMeansAbort(c, w, key, kv, a, f);
      if CallUpsertKey(w, a, key, f.keyCall).verdict.Done? { SecondCallNotRefused(c, w, a, key, kv, f); }
    }
  }

  lemma GiveUpMeansAbort(c: Config, w: World, key: Key, kv: KeyVersion, a: nat, f: TaskFaults)
    requires Sized(c, w) && key.managedBy != c.name && FindAgent(c.agents, key.managedBy) == Some(a)
    ensures UpsertRemote(c, w, key, kv, f).verdict.GiveUp? && !UpsertKeyAt(w, a, key, f.keyCall.faults).reply.Abort? ==>
              var p := CallUpsertKey(w, a, key, f.keyCall);
              p.verdict.Done? && UpsertVersionAt(c, p.world, a, kv, f.versionCall.faults).reply.Abort?
  {
  }

  lemma SecondCallNotRefused(c: Config, w: World, a: nat, key: Key, kv: KeyVersion, f: TaskFaults)
    requires Running(c, w, key) && CallFor(c, w, a, key) && CallUpsertKey(w, a, key, f.keyCall).verdict.Done?
    requires key.tenant in w.agents[a].tenants
    requires kv.id.keyId == key.id && kv.id.tenant == key.tenant && kv.id.version > 0 && kv.id.revision > 0 && kv.life == key.life
    ensures Sized(c, CallUpsertKey(w, a, key, f.keyCall).world)
    ensures !UpsertVersionAt(c, CallUpsertKey(w, a, key, f.keyCall).world, a, kv, f.versionCall.faults).reply.Abort?
  {
    CallKeyKeepsInv(c, w, a, key, f.keyCall);
    KeyCallLeavesTenants(w, a, key, f.keyCall);
    var w1 := CallUpsertKey(w, a, key, f.keyCall).world;
    assert w1.agents[a].keys[key.id].IsSame(w1.root.keys[key.id]);
    VersionNotRefused(c, w1, a, kv, f.versionCall.faults);
  }

  // ------------------------------------------------------------------ the task

  /** A row in order, two positions or more below the root key, is pinned to its parent's first version. */
  lemma PinIsFirst(c: Config, w: World, t: Tables, v: VersionId)
    requires Delivered(c, w) && WellFormed(c.hierarchy.specs, w.root) && t.keys == w.root.keys && v in t.versions && RowInOrder(t, v)
    requires forall u: VersionId | u in t.versions && u.keyId != v.keyId :: u in w.root.versions
    requires IndexOf(c.hierarchy.specs, t.keys[v.keyId].kind) >= 2
    ensures t.versions[v].parentVersion == Some(1)
  {
    assert Placed(c.hierarchy.specs, w.root, v.keyId);
    var p := t.keys[v.keyId].parent.value;
    var u := VersionId(v.tenant, p, t.versions[v].parentVersion.value, 1);
    assert p != v.keyId && Shipped(c, w, u);
  }

  lemma ResolvedIsFirst(c: Config, w: World, key: Key, f: TaskFaults)
    requires Running(c, w, key) && Delivered(c, w) && ResolveVersion(w.root, key, f).Resolved?
    ensures FirstPinned(c, key, ResolveVersion(w.root, key, f).version)
  {
    var r := ResolveVersion(w.root, key, f);
    ResolvedIsLatest(c, w, key, f);
    ResolveEffect(w.root, key, f);
    if r.isNew {
      NewVersionInOrder(c, w, key, f);
      if IndexOf(c.hierarchy.specs, key.kind) >= 2 { PinIsFirst(c, w, r.tables, r.version.id); }
    } else {
      UpdatedIsFirst(c, w, key, r.version, f);
    }
  }

  lemma UpdatedIsFirst(c: Config, w: World, key: Key, kv: KeyVersion, f: TaskFaults)
    requires Running(c, w, key) && Delivered(c, w) && kv.id in w.root.versions && kv.id.keyId == key.id
    requires ResolveVersion(w.root, key, f).Resolved? && ResolveVersion(w.root, key, f).version == kv && !ResolveVersion(w.root, key, f).isNew
    ensures IndexOf(c.hierarchy.specs, key.kind) > 0 ==> kv.id.version == 1
    ensures IndexOf(c.hierarchy.specs, key.kind) >= 2 ==> kv.parentVersion == Some(1)
  {
    assert RowsKeyed(TablesAt(w, AtRoot));
    assert Shipped(c, w, kv.id) && RowInOrder(w.root, kv.id);
    if IndexOf(c.hierarchy.specs, key.kind) >= 2 { PinIsFirst(c, w, w.root, kv.id); }
  }

  /** Committing the resolved version, with the key's status: a new version of an agent's key is at
      the agent, or the row carries a reserved label. */
  lemma CommitKeepsDelivered(c: Config, w: World, w1: World, key: Key, f: TaskFaults, status: Status)
    requires Running(c, w, key) && Delivered(c, w1) && w1.root == w.root && ResolveVersion(w.root, key, f).Resolved?
    requires FirstPinned(c, key, ResolveVersion(w.root, key, f).version)
    requires key.managedBy != c.name && !HasReserved(key.labels) ==>
               var a := FindAgent(c.agents, key.managedBy);
               a.Some? && ResolveVersion(w.root, key, f).version.id in w1.agents[a.value].versions
    ensures key.id in ResolveVersion(w.root, key, f).tables.keys
    ensures Delivered(c, w1.(root := SetStates(ResolveVersion(w.root, key, f).tables, key.id, key.life, status)))
  {
    ResolveEffect(w.root, key, f);
    assert RowsKeyed(TablesAt(w, AtRoot));
    CommittedDelivered(c, w1, key, ResolveVersion(w.root, key, f), status);
  }

  lemma CommittedDelivered(c: Config, w: World, key: Key, r: Resolution, status: Status)
    requires Delivered(c, w) && key.id in w.root.keys && w.root.keys[key.id] == key && r.Resolved? && r.version.id.keyId == key.id
    requires r.tables == InsertVersion(w.root, r.version)
             || (r.version.id in w.root.versions && r.tables == SetVersionStates(w.root, r.version.id, key.life, Usable))
    requires IndexOf(c.hierarchy.specs, key.kind) > 0 ==> r.version.id.version == 1
    requires key.managedBy != c.name && !HasReserved(key.labels) ==>
               var a := FindAgent(c.agents, key.managedBy); a.Some? && r.version.id in w.agents[a.value].versions
    ensures Delivered(c, w.(root := SetStates(r.tables, key.id, key.life, status)))
  {
    var w2 := w.(root := SetStates(r.tables, key.id, key.life, status));
    forall s | s in w2.vaults ensures Welcome(w2, s) { assert Welcome(w, s); }
    forall i | i in w2.root.keys ensures Arrived(c, w2, i) { assert Arrived(c, w, i); }
    forall v | v in w2.root.versions ensures Shipped(c, w2, v) {
      if v in w.root.versions { assert Shipped(c, w, v); }
    }
    forall a: nat, i | a < |w2.agents| && i in w2.agents[a].keys ensures Known(w2, a, i) { assert Known(w, a, i); }
    forall a: nat, v | a < |w2.agents| && v in w2.agents[a].versions ensures Received(c, w2, a, v) { assert Received(c, w, a, v); }
  }

  /** Where a due task can end, once sealing locally did not give up. */
  lemma ProcessEnds(c: Config, w: World, key: Key, f: TaskFaults)
    requires Sized(c, w) && key.id in w.root.keys && w.root.keys[key.id] == key
    requires FindKeySpec(c.hierarchy.specs, key.kind).Some?
    ensures var out, r := Process(c, w, key, f).world, ResolveVersion(w.root, key, f);
            || out == w
            || out == w.(root := SetStates(w.root, key.id, key.life, Failed))
            || (r.Resolved? && key.id in r.tables.keys
                && var s := SealLocally(c, w, key, r.version, r.isNew, f);
                   var p := UpsertRemote(c, s.world, key, r.version, f);
                   || out == s.world
                   || out == p.world
                   || (p.verdict.GiveUp? && out == p.world.(root := SetStates(r.tables, key.id, key.life, Failed)))
                   || (p.verdict.Done? && out == p.world.(root := SetStates(r.tables, key.id, key.life, Completed))))
  {
  }

  lemma ProcessKeepsDelivered(c: Config, w: World, key: Key, f: TaskFaults)
    requires Deployed(c) && Running(c, w, key) && Delivered(c, w) && key.life != PreActivation
    ensures Delivered(c, Process(c, w, key, f).world)
  {
    assert Placed(c.hierarchy.specs, w.root, key.id);
    ProcessEnds(c, w, key, f);
    StatusKeepsDelivered(c, w, key, Failed);
    if ResolveVersion(w.root, key, f).Resolved? { CallsKeepDelivered(c, w, key, f); }
  }

  lemma StatusKeepsDelivered(c: Config, w: World, key: Key, status: Status)
    requires Delivered(c, w) && key.id in w.root.keys && w.root.keys[key.id] == key
    ensures Delivered(c, w.(root := SetStates(w.root, key.id, key.life, status)))
  {
    StatesKeepDelivered(c, w, w.(root := SetStates(w.root, key.id, key.life, status)));
  }

  lemma CallsKeepDelivered(c: Config, w: World, key: Key, f: TaskFaults)
    requires Deployed(c) && Running(c, w, key) && Delivered(c, w) && key.life != PreActivation
    requires ResolveVersion(w.root, key, f).Resolved?
    ensures var r := ResolveVersion(w.root, key, f);
            var s := SealLocally(c, w, key, r.version, r.isNew, f);
            var p := UpsertRemote(c, s.world, key, r.version, f);
            && key.id in r.tables.keys && Delivered(c, s.world) && Delivered(c, p.world)
            && (p.verdict.GiveUp? ==> Delivered(c, p.world.(root := SetStates(r.tables, key.id, key.life, Failed))))
            && (p.verdict.Done? ==> Delivered(c, p.world.(root := SetStates(r.tables, key.id, key.life, Completed))))
  {
    var r := ResolveVersion(w.root, key, f);
    ResolvedIsLatest(c, w, key, f);
    ResolvedIsFirst(c, w, key, f);
    LocalSealKeepsInv(c, w, key, r.version, r.isNew, f);
    LocalKeepsDelivered(c, w, key, r.version, r.isNew, f);
    PushKeepsDelivered(c, w, SealLocally(c, w, key, r.version, r.isNew, f).world, key, f);
  }

  lemma LocalKeepsDelivered(c: Config, w: World, key: Key, kv: KeyVersion, isNew: bool, f: TaskFaults)
    requires Delivered(c, w)
    ensures Delivered(c, SealLocally(c, w, key, kv, isNew, f).world)
  {
    SealEffect(c, w, AtRoot, key.kind, kv, f.seal);
    StatesKeepDelivered(c, w, SealLocally(c, w, key, kv, isNew, f).world);
  }

  lemma PushKeepsDelivered(c: Config, w: World, w1: World, key: Key, f: TaskFaults)
    requires Deployed(c) && Running(c, w, key) && Running(c, w1, key) && Delivered(c, w1) && w1.root == w.root && key.life != PreActivation
    requires ResolveVersion(w.root, key, f).Resolved? && FirstPinned(c, key, ResolveVersion(w.root, key, f).version)
    ensures var r := ResolveVersion(w.root, key, f);
            var p := UpsertRemote(c, w1, key, r.version, f);
            && key.id in r.tables.keys && Delivered(c, p.world)
            && (p.verdict.GiveUp? ==> Delivered(c, p.world.(root := SetStates(r.tables, key.id, key.life, Failed))))
            && (p.verdict.Done? ==> Delivered(c, p.world.(root := SetStates(r.tables, key.id, key.life, Completed))))
  {
    var r := ResolveVersion(w.root, key, f);
    ResolvedIsLatest(c, w, key, f);
    RemoteKeepsDelivered(c, w1, key, r.version, f);
    RemoteKeepsInv(c, w1, key, r.version, f);
    var p := UpsertRemote(c, w1, key, r.version, f);
    if key.managedBy != c.name { NotGivenUp(c, w1, key, r.version, f); }
    if p.verdict.GiveUp? && (key.managedBy == c.name || HasReserved(key.labels)) { CommitKeepsDelivered(c, w, p.world, key, f, Failed); }
    if p.verdict.Done? { CommitKeepsDelivered(c, w, p.world, key, f, Completed); }
  }

  /** A task that commits a new version of an agent's key completes the key, or, if the stored row
      carries a reserved label, fails it. */
  lemma NewVersionOutcome(c: Config, w: World, key: Key, f: TaskFaults, v: VersionId)
    requires Deployed(c) && Running(c, w, key) && Delivered(c, w) && key.life != PreActivation && key.managedBy != c.name
    requires v in Process(c, w, key, f).world.root.versions && v !in w.root.versions
    ensures var t := Process(c, w, key, f).world.root;
            v.keyId == key.id && key.id in t.keys && t.keys[key.id] == key.(status := if HasReserved(key.labels) then Failed else Completed)
  {
    assert Placed(c.hierarchy.specs, w.root, key.id);
    ProcessEnds(c, w, key, f);
    var r := ResolveVersion(w.root, key, f);
    if r.Resolved? {
      ResolvedIsLatest(c, w, key, f);
      ResolveEffect(w.root, key, f);
      LocalIsNothing(c, w, key, r.version, r.isNew, f);
      CallsLeaveRootAlone(c, w, key, r.version, r.isNew, f);
      NotGivenUp(c, w, key, r.version, f);
      if HasReserved(key.labels) { ReservedIsRefused(c, w, key, r.version, f); }
    }
  }

  lemma LocalIsNothing(c: Config, w: World, key: Key, kv: KeyVersion, isNew: bool, f: TaskFaults)
    requires Sized(c, w) && key.managedBy != c.name
    ensures SealLocally(c, w, key, kv, isNew, f).world == w
  {
  }

  lemma TaskKeepsDelivered(c: Config, w: World, target: LifeCycle, kid: KeyIdentifier, f: TaskFaults)
    requires Deployed(c) && Inv(c, w) && Delivered(c, w) && target != PreActivation
    ensures Delivered(c, HandleTask(c, w, target, kid, f).world)
  {
    TaskCases(c, w, target, kid, f);
    if HandleTask(c, w, target, kid, f).world != w {
      InvKeysById(c, w);
      ProcessKeepsDelivered(c, w, GetKey(w.root, kid.id, kid.tenant).value, f);
    }
  }

  // ------------------------------------------------------------------ announcing

  ghost predicate SameVersions(w: World, w2: World) {
    && w2.root.versions == w.root.versions && |w2.agents| == |w.agents|
    && forall a | 0 <= a < |w.agents| :: w2.agents[a].versions == w.agents[a].versions
  }

  lemma PushesLeaveVersions(c: Config, w: World, p: Key, f: AnnounceTaskFaults)
    requires Sized(c, w)
    ensures SameVersions(w, PushTenant(c, w, p, f).world) && SameVersions(w, PushKey(c, w, p, f).world)
  {
    if a :| FindAgent(c.agents, p.managedBy) == Some(a) { UpsertLeavesVersions(w.agents[a], p, f.keyCall.faults); }
  }

  lemma SettleLeavesVersions(w: World, p: Key, status: Status, f: AnnounceTaskFaults)
    ensures SameVersions(w, Settle(w, p, status, f).world)
  {
  }

  lemma AnnounceTaskLeavesVersions(c: Config, w: World, p: Key, f: AnnounceTaskFaults)
    requires Sized(c, w)
    ensures SameVersions(w, HandleAnnounce(c, w, p, f).world)
  {
    AnnounceTaskCases(c, w, p, f);
    PushesLeaveVersions(c, w, p, f);
    var w1 := PushTenant(c, w, p, f).world;
    PushesLeaveVersions(c, w1, p, f);
    SettleLeavesVersions(w1, p, Failed, f);
    SettleLeavesVersions(PushKey(c, w1, p, f).world, p, Failed, f);
    SettleLeavesVersions(PushKey(c, w1, p, f).world, p, Completed, f);
  }

  lemma NewRowDelivered(c: Config, w: World, k: Key)
    requires Delivered(c, w) && k.id !in w.root.keys && k.life == PreActivation
    ensures Delivered(c, WithRow(w, k))
  {
    var w2 := WithRow(w, k);
    forall s | s in w2.vaults ensures Welcome(w2, s) { assert Welcome(w, s); }
    forall i | i in w2.root.keys ensures Arrived(c, w2, i) {
      if i != k.id { assert Arrived(c, w, i); }
    }
    forall v | v in w2.root.versions ensures Shipped(c, w2, v) { assert Shipped(c, w, v); }
    forall a: nat, i | a < |w2.agents| && i in w2.agents[a].keys ensures Known(w2, a, i) { assert Known(w, a, i); }
    forall a: nat, v | a < |w2.agents| && v in w2.agents[a].versions ensures Received(c, w2, a, v) { assert Received(c, w, a, v); }
  }

  lemma AnnounceKeepsDelivered(c: Config, w: World, req: AnnounceRequest, id: Uuid, now: int, f: AnnounceFaults)
    requires Delivered(c, w) && id !in w.root.keys
    ensures Delivered(c, Announce(c, w, req, id, now, f))
  {
    AnnounceCases(c, w, req, id, now, f);
    var k, w2 := NewKey(c, req, id, now), Announce(c, w, req, id, now, f);
    if NameTaken(w.root, k.tenant, k.name) {
      AdoptedKeepsDelivered(c, w, IdByName(w.root, k.tenant, k.name), k);
    } else {
      NewRowDelivered(c, w, k);
      JobKeepsDelivered(c, w, k);
      NewRowDelivered(c, w.(jobs := w.jobs + {k}), k);
    }
  }

  lemma AdoptedKeepsDelivered(c: Config, w: World, i: Uuid, k: Key)
    requires Delivered(c, w) && i in w.root.keys
    ensures var w1 := w.(jobs := w.jobs + {k.(id := i)});
            && Delivered(c, w1) && Delivered(c, w.(root := SetStates(w.root, i, PreActivation, Pending)))
            && Delivered(c, w1.(root := SetStates(w.root, i, PreActivation, Pending)))
  {
    var w1, w2 := w.(jobs := w.jobs + {k.(id := i)}), w.(root := SetStates(w.root, i, PreActivation, Pending));
    JobKeepsDelivered(c, w, k.(id := i));
    StatesKeepDelivered(c, w, w2);
    JobKeepsDelivered(c, w2, k.(id := i));
    assert w1.(root := w2.root) == w2.(jobs := w2.jobs + {k.(id := i)});
  }

  lemma JobKeepsDelivered(c: Config, w: World, p: Key)
    requires Delivered(c, w)
    ensures Delivered(c, w.(jobs := w.jobs + {p}))
  {
    StatesKeepDelivered(c, w, w.(jobs := w.jobs + {p}));
  }

  lemma ConfirmKeepsDelivered(c: Config, w: World, p: Key, failed: bool)
    requires Delivered(c, w)
    ensures Delivered(c, ConfirmAnnounce(w, p, failed))
  {
    StatesKeepDelivered(c, w, ConfirmAnnounce(w, p, failed));
  }

  lemma PushTenantKeepsDelivered(c: Config, w: World, p: Key, f: AnnounceTaskFaults)
    requires Delivered(c, w)
    ensures Delivered(c, PushTenant(c, w, p, f).world)
  {
    var a := FindAgent(c.agents, p.managedBy);
    if p.managedBy != c.name && a.Some? {
      KeysKeepDelivered(c, w, a.value, w.agents[a.value].(tenants := w.agents[a.value].tenants + {p.tenant}));
    }
  }

  lemma PushKeyKeepsDelivered(c: Config, w: World, p: Key, f: AnnounceTaskFaults)
    requires Inv(c, w) && Delivered(c, w) && p in w.jobs && p.id in w.root.keys
    ensures Delivered(c, PushKey(c, w, p, f).world)
  {
    var a := FindAgent(c.agents, p.managedBy);
    if p.managedBy != c.name && a.Some? { KeyCallKeepsDelivered(c, w, a.value, p, f.keyCall); }
  }

  lemma SettleKeepsDelivered(c: Config, w: World, p: Key, status: Status, f: AnnounceTaskFaults)
    requires Delivered(c, w)
    ensures Delivered(c, Settle(w, p, status, f).world)
  {
    StatesKeepDelivered(c, w, Settle(w, p, status, f).world);
  }

  lemma AnnounceTaskKeepsDelivered(c: Config, w: World, p: Key, f: AnnounceTaskFaults)
    requires Inv(c, w) && Delivered(c, w) && p in w.jobs
    ensures Delivered(c, HandleAnnounce(c, w, p, f).world)
  {
    AnnounceTaskCases(c, w, p, f);
    PushTenantKeepsDelivered(c, w, p, f);
    PushTenantKeepsInv(c, w, p, f);
    var w1 := PushTenant(c, w, p, f).world;
    SettleKeepsDelivered(c, w1, p, Failed, f);
    if p.id in w1.root.keys {
      PushKeyKeepsDelivered(c, w1, p, f);
      var w2 := PushKey(c, w1, p, f).world;
      SettleKeepsDelivered(c, w2, p, Failed, f);
      SettleKeepsDelivered(c, w2, p, Completed, f);
    }
  }

  // ------------------------------------------------------------------ actions and providers

  /** Only settled rows leave pre-activation. */
  lemma SettledBeforeActive(a: Action, k: Key)
    requires Passes(Filters(a), k) || PassesAlone(Filters(a), k)
    ensures k.life == PreActivation ==> k.status == Completed
  {
    var fs := Filters(a);
    assert Constrains(fs[0]);
    assert forall f | f in fs :: Constrains(f);
  }

  lemma ActionKeepsDelivered(c: Config, w: World, a: Action, kid: KeyIdentifier, cascading: bool, tree: KeyTree)
    requires Inv(c, w) && Delivered(c, w) && ActionAllowed(c, w, a, kid, cascading, tree)
    ensures Delivered(c, w.(root := Moved(w.root, Target(a), tree)))
  {
    InvKeysById(c, w);
    AgreeingActionKeepsDelivered(c, w, a, kid, cascading, tree);
  }

  lemma AgreeingActionKeepsDelivered(c: Config, w: World, a: Action, kid: KeyIdentifier, cascading: bool, tree: KeyTree)
    requires Delivered(c, w) && KeysById(w.root) && Agreement(c, w) && ActionAllowed(c, w, a, kid, cascading, tree)
    ensures Delivered(c, w.(root := Moved(w.root, Target(a), tree)))
  {
    var w2 := w.(root := Moved(w.root, Target(a), tree));
    forall i | i in w.root.keys && w.root.keys[i].life == PreActivation != w2.root.keys[i].life ensures Arrived(c, w2, i) {
      assert Agrees(c, w, i);
      WokenArrived(c, w, a, kid, cascading, tree, i);
    }
    StatesKeepDelivered(c, w, w2);
  }

  lemma WokenArrived(c: Config, w: World, a: Action, kid: KeyIdentifier, cascading: bool, tree: KeyTree, i: Uuid)
    requires Sized(c, w) && KeysById(w.root) && ActionAllowed(c, w, a, kid, cascading, tree) && i in w.root.keys && Agrees(c, w, i)
    requires w.root.keys[i].life == PreActivation != Moved(w.root, Target(a), tree).keys[i].life
    ensures Arrived(c, w.(root := Moved(w.root, Target(a), tree)), i)
  {
    WorkPasses(w.root, Request(a, kid, cascading), tree, i);
    SettledBeforeActive(a, w.root.keys[i]);
  }

  lemma ProviderVersionDelivered(c: Config, w: World, kid: KeyIdentifier, version: nat, pk: ProviderKey, f: ProviderFaults)
    requires Inv(c, w) && Delivered(c, w) && OfRootKind(c, w, kid) && kid.id in w.root.keys
    ensures Delivered(c, InsertProviderVersion(w, kid, version, pk, f))
  {
    var w2 := InsertProviderVersion(w, kid, version, pk, f);
    assert ManagerKnown(c, w.root.keys[kid.id]);
    forall s | s in w2.vaults ensures Welcome(w2, s) { assert Welcome(w, s); }
    forall i | i in w2.root.keys ensures Arrived(c, w2, i) { assert Arrived(c, w, i); }
    forall v | v in w2.root.versions ensures Shipped(c, w2, v) {
      if v in w.root.versions { assert Shipped(c, w, v); }
    }
    forall a: nat, i | a < |w2.agents| && i in w2.agents[a].keys ensures Known(w2, a, i) { assert Known(w, a, i); }
    forall a: nat, v | a < |w2.agents| && v in w2.agents[a].versions ensures Received(c, w2, a, v) { assert Received(c, w, a, v); }
  }

  lemma SpecKeepsDelivered(c: Config, w: World, w2: World)
    requires Delivered(c, w) && w2 == w.(vaults := w2.vaults) && forall s | s in w2.vaults && s !in w.vaults :: s.node == AtRoot
    ensures Delivered(c, w2)
  {
    StatesKeepDelivered(c, w, w2);
  }

  lemma CreateProviderKeepsDelivered(c: Config, w: World, kid: KeyIdentifier, spec: ProviderSpec, pk: string, f: ProviderFaults)
    requires Inv(c, w) && Delivered(c, w) && OfRootKind(c, w, kid)
    ensures Delivered(c, CreateProvider(w, kid, spec, pk, f))
  {
    var w1 := StoreSpec(w, kid, spec);
    SpecKeepsDelivered(c, w, w1);
    StoreSpecKeepsInv(c, w, kid, spec);
    if kid.id in w.root.keys { ProviderVersionDelivered(c, w1, kid, 1, ProviderKey(spec.kind, pk), f); }
  }

  lemma RotateKeyKeepsDelivered(c: Config, w: World, kid: KeyIdentifier, kind: string, pk: string, f: ProviderFaults)
    requires Inv(c, w) && Delivered(c, w) && OfRootKind(c, w, kid)
    ensures Delivered(c, RotateProviderKey(w, kid, kind, pk, f))
  {
    RotateKeyCases(w, kid, kind, pk, f);
    var latest := Newest(w.root, kid.tenant, kid.id, LATEST);
    if latest.Some? && kid.id in w.root.keys {
      ProviderVersionDelivered(c, w, kid, latest.value.id.version + 1, ProviderKey(kind, pk), f);
    }
  }

  // ------------------------------------------------------------------ every run

  lemma StepKeepsDelivered(c: Config, w: World, s: Step)
    requires Deployed(c) && Inv(c, w) && Delivered(c, w) && Enabled(c, w, s)
    ensures Delivered(c, Next(c, w, s))
  {
    match s
    case CreateTenantStep(t) => StatesKeepDelivered(c, w, Next(c, w, s));
    case AnnounceStep(req, id, now, f) => AnnounceKeepsDelivered(c, w, req, id, now, f);
    case ConfirmStep(p, failed) => ConfirmKeepsDelivered(c, w, p, failed);
    case AnnounceTaskStep(p, f) => AnnounceTaskKeepsDelivered(c, w, p, f);
    case ActionStep(a, kid, cascading, tree) => ActionKeepsDelivered(c, w, a, kid, cascading, tree);
    case TaskStep(a, kid, f) => TaskKeepsDelivered(c, w, Target(a), kid, f);
    case CreateProviderStep(kid, spec, pk, f) => CreateProviderKeepsDelivered(c, w, kid, spec, pk, f);
    case RotateAuthStep(kid, kind, auth, f) => SpecKeepsDelivered(c, w, RotateAuth(w, kid, kind, auth, f));
    case RotateKeyStep(kid, kind, pk, f) => RotateKeyKeepsDelivered(c, w, kid, kind, pk, f);
    case RemoveProviderStep(kid, f) => SpecKeepsDelivered(c, w, RemoveProvider(w, kid, f));
  }

  /** In every world of every run what should have reached the agents is there. */
  lemma {:induction false} RunDelivered(c: Config, ws: seq<World>, steps: seq<Step>, i: nat)
    requires Deployed(c) && Run(c, ws, steps) && Initial(c, ws[0]) && i < |ws|
    ensures Delivered(c, ws[i])
  {
    if i == 0 {
      InitialDelivered(c, ws[0]);
    } else {
      RunDelivered(c, ws, steps, i - 1);
      RunKeepsInv(c, ws, steps, i - 1);
      assert Taken(c, ws, steps, i - 1);
      StepKeepsDelivered(c, ws[i - 1], steps[i - 1]);
    }
  }
}
