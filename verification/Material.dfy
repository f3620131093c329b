/** Key material: drawn once, fixed when its version row is committed, and the same ever after. */
module Material {
  import opened Model
  import opened Store
  import opened Hierarchy
  import opened Topology
  import opened Lifecycle
  import opened Worlds
  import opened Envelope
  import opened Agent
  import opened Protocol
  import opened Forest
  import opened Steps
  import opened Invariant
  import opened Preservation
  import opened Stability

  // ------------------------------------------------------------------ a task touches its own key only

  lemma SameExceptTransitive(c: Config, w: World, w1: World, w2: World, i: Uuid)
    requires SameExcept(c, w, w1, i) && SameExcept(c, w1, w2, i)
    ensures SameExcept(c, w, w2, i)
  {
    forall n: Node, j: Uuid | IsNode(c, n) && j != i
      ensures j in TablesAt(w, n).keys <==> j in TablesAt(w2, n).keys
      ensures j in TablesAt(w, n).keys ==> TablesAt(w2, n).keys[j] == TablesAt(w, n).keys[j]
    {
      assert j in TablesAt(w, n).keys <==> j in TablesAt(w1, n).keys;
    }
  }

  /** Two tables that differ at most in the rows of one key. */
  ghost predicate TablesSameExcept(t: Tables, t2: Tables, i: Uuid) {
    && (forall j | j != i :: (j in t.keys <==> j in t2.keys) && (j in t.keys ==> t2.keys[j] == t.keys[j]))
    && (forall v: VersionId | v.keyId != i ::
          (v in t.versions <==> v in t2.versions) && (v in t.versions ==> t2.versions[v] == t.versions[v]))
  }

  lemma RootSameExcept(c: Config, w: World, t: Tables, i: Uuid)
    requires Sized(c, w) && t.tenants == w.root.tenants && TablesSameExcept(w.root, t, i)
    ensures SameExcept(c, w, w.(root := t), i)
  {
  }

  lemma AgentSameExcept(c: Config, w: World, a: nat, t: Tables, i: Uuid)
    requires Sized(c, w) && a < |w.agents| && TablesSameExcept(w.agents[a], t, i)
    ensures SameExcept(c, w, WithAgent(w, a, t), i)
  {
  }

  lemma VaultSameExcept(c: Config, w: World, s: Slot, e: Entry)
    requires Sized(c, w)
    ensures SameExcept(c, w, w.(vaults := w.vaults[s := e]), s.id.keyId)
  {
  }

  lemma SealTouchesOnly(c: Config, w: World, n: Node, kind: Name, kv: KeyVersion, f: SealFaults)
    requires Sized(c, w) && IsNode(c, n)
    ensures SameExcept(c, w, GenerateAndSeal(c, w, n, kind, kv, f).world, kv.id.keyId)
  {
    SealEffect(c, w, n, kind, kv, f);
    var g := GenerateAndSeal(c, w, n, kind, kv, f);
    if g.world != w { VaultSameExcept(c, w, Slot(n, kv.id), g.world.vaults[Slot(n, kv.id)]); }
  }

  lemma CallKeyTouchesOnly(c: Config, w: World, a: nat, k: Key, call: Call<KeyFaults>)
    requires Inv(c, w) && CallFor(c, w, a, k)
    ensures SameExcept(c, w, CallUpsertKey(w, a, k, call).world, k.id)
  {
    UpsertLandsOnRow(c, w, a, k, call.faults);
    AgentSameExcept(c, w, a, UpsertOn(w.agents[a], k, call.faults).0, k.id);
  }

  lemma VersionAtTouchesOnly(c: Config, w: World, a: nat, kv: KeyVersion, f: VersionFaults)
    requires Sized(c, w) && a < |w.agents|
    ensures SameExcept(c, w, UpsertVersionAt(c, w, a, kv, f).world, kv.id.keyId)
  {
    VersionCallCases(c, w, a, kv, f);
    if kv.id in w.agents[a].versions {
      AgentSameExcept(c, w, a, SetVersionStates(w.agents[a], kv.id, kv.life, kv.processing), kv.id.keyId);
    }
    var key := GetKey(w.agents[a], kv.id.keyId, kv.id.tenant);
    if key.Some? {
      var g := GenerateAndSeal(c, w, AtAgent(a), key.value.kind, OnWire(kv), f.seal);
      SealTouchesOnly(c, w, AtAgent(a), key.value.kind, OnWire(kv), f.seal);
      SealEffect(c, w, AtAgent(a), key.value.kind, OnWire(kv), f.seal);
      AgentSameExcept(c, g.world, a, InsertVersion(w.agents[a], OnWire(kv)), kv.id.keyId);
      SameExceptTransitive(c, w, g.world, WithAgent(g.world, a, InsertVersion(w.agents[a], OnWire(kv))), kv.id.keyId);
    }
  }

  // ------------------------------------------------------------------ what a chain may depend on

  /** A key has one kind everywhere, and no version that stands above it is pinned to it. */
  lemma ChainAvoidsKey(c: Config, w: World, i: Uuid)
    requires Inv(c, w) && i in w.root.keys
    ensures var bound := IndexOf(c.hierarchy.specs, w.root.keys[i].kind);
            bound >= 0 && NotAbove(c, w, i, bound) && PinsAvoid(c, w, i, bound)
    ensures w.root.keys[i].parent != Some(i)
  {
    var specs := c.hierarchy.specs;
    assert Placed(specs, w.root, i);
    forall n: Node | IsNode(c, n) && i in TablesAt(w, n).keys ensures TablesAt(w, n).keys[i].kind == w.root.keys[i].kind {
      OneKind(c, w, n, i);
    }
    forall n: Node, v: VersionId | IsNode(c, n) && v in TablesAt(w, n).versions && v.keyId in TablesAt(w, n).keys
                                   && IndexOf(specs, TablesAt(w, n).keys[v.keyId].kind) < IndexOf(specs, w.root.keys[i].kind)
      ensures TablesAt(w, n).versions[v].parentKey != Some(i)
    {
      if TablesAt(w, n).versions[v].parentKey.Some? { PinnedToHigher(c, w, n, v); }
    }
  }

  lemma PinnedToHigher(c: Config, w: World, n: Node, v: VersionId)
    requires Inv(c, w) && IsNode(c, n) && v in TablesAt(w, n).versions && TablesAt(w, n).versions[v].parentKey.Some?
    ensures v.keyId in TablesAt(w, n).keys && TablesAt(w, n).versions[v].parentKey.value in w.root.keys
    ensures IndexOf(c.hierarchy.specs, w.root.keys[TablesAt(w, n).versions[v].parentKey.value].kind)
            == IndexOf(c.hierarchy.specs, TablesAt(w, n).keys[v.keyId].kind) - 1
  {
    RowsFollowRoot(c, w, n, v);
    assert Placed(c.hierarchy.specs, w.root, v.keyId);
  }

  /** Every node's version rows name the parent the root stores for their key. */
  lemma RowsFollowRoot(c: Config, w: World, n: Node, v: VersionId)
    requires Inv(c, w) && IsNode(c, n) && v in TablesAt(w, n).versions
    ensures v.keyId in TablesAt(w, n).keys && v.keyId in w.root.keys
    ensures TablesAt(w, n).keys[v.keyId].IsSame(w.root.keys[v.keyId])
    ensures TablesAt(w, n).versions[v].parentKey == w.root.keys[v.keyId].parent
  {
    if n.AtRoot? { assert RowInOrder(w.root, v); }
  }

  // ------------------------------------------------------------------ the committing attempt

  /** What the node's attempt drew in a task. */
  function DrawAt(n: Node, f: TaskFaults): (d: Draw) {
    if n.AtRoot? then f.seal.draw else f.versionCall.faults.seal.draw
  }

  /** An entry made for a key's first version at a world in which the invariant holds resolves in any
      world that differs from it only about that key. */
  lemma CreatedResolves(c: Config, w: World, w2: World, n: Node, key: Key, kv: KeyVersion, d: Draw)
    requires Inv(c, w) && Inv(c, w2) && key.id in w.root.keys && w.root.keys[key.id].kind == key.kind
    requires key.id in w2.root.keys && w2.root.keys[key.id].kind == key.kind
    requires SameExcept(c, w, w2, key.id) && IsNode(c, n) && kv.id.keyId == key.id && kv.parentKey == w.root.keys[key.id].parent
    requires CreateSecret(c, w, n, key.kind, kv, d).Some?
    requires Slot(n, kv.id) in w2.vaults && w2.vaults[Slot(n, kv.id)] == CreateSecret(c, w, n, key.kind, kv, d).value
    ensures Serves(c, n, key.kind) && ResolveSecret(c, w2, n, key.kind, kv) == Ok(Raw(d.secret))
  {
    ChainAvoidsKey(c, w, key.id);
    ChainAvoidsKey(c, w2, key.id);
    RoundTrip(c, w, w2, n, key.kind, kv, d);
  }

  /** A sealing that succeeded stored what the attempt created. */
  lemma SealStores(c: Config, w: World, n: Node, kind: Name, kv: KeyVersion, f: SealFaults)
    requires Sized(c, w) && IsNode(c, n) && GenerateAndSeal(c, w, n, kind, kv, f).ok
    ensures var g := GenerateAndSeal(c, w, n, kind, kv, f);
            && CreateSecret(c, w, n, kind, kv, f.draw).Some?
            && g.world == w.(vaults := w.vaults[Slot(n, kv.id) := CreateSecret(c, w, n, kind, kv, f.draw).value])
  {
  }

  /** The one way a task commits a new version of a key the root manages. */
  lemma RootCommitCase(c: Config, w: World, key: Key, f: TaskFaults)
    requires Sized(c, w) && key.id in w.root.keys && key.managedBy == c.name
    requires FindKeySpec(c.hierarchy.specs, key.kind).Some? && FindKeySpec(c.hierarchy.specs, key.kind).value.role != RootRole
    requires exists v :: v in Process(c, w, key, f).world.root.versions && v !in w.root.versions
    ensures var r, out := ResolveVersion(w.root, key, f), Process(c, w, key, f).world;
            && r.Resolved? && r.isNew && key.id in r.tables.keys
            && var g := GenerateAndSeal(c, w, AtRoot, key.kind, r.version, f.seal);
               g.ok && out == g.world.(root := SetStates(r.tables, key.id, key.life, Completed))
  {
    var r := ResolveVersion(w.root, key, f);
    if r.Resolved? { ResolveEffect(w.root, key, f); }
  }

  lemma StoredAtRootResolves(c: Config, w: World, out: World, key: Key, kv: KeyVersion, d: Draw)
    requires Inv(c, w) && Inv(c, out) && key.id in w.root.keys && w.root.keys[key.id] == key
    requires kv.id.keyId == key.id && kv.parentKey == key.parent && CreateSecret(c, w, AtRoot, key.kind, kv, d).Some?
    requires out == w.(vaults := w.vaults[Slot(AtRoot, kv.id) := CreateSecret(c, w, AtRoot, key.kind, kv, d).value],
                       root := SetStates(InsertVersion(w.root, kv), key.id, key.life, Completed))
    ensures Serves(c, AtRoot, key.kind) && ResolveSecret(c, out, AtRoot, key.kind, kv) == Ok(Raw(d.secret))
  {
    var s, e := Slot(AtRoot, kv.id), CreateSecret(c, w, AtRoot, key.kind, kv, d).value;
    var w1 := w.(vaults := w.vaults[s := e]);
    VaultSameExcept(c, w, s, e);
    RootSameExcept(c, w1, out.root, key.id);
    SameExceptTransitive(c, w, w1, out, key.id);
    CreatedResolves(c, w, out, AtRoot, key, kv, d);
  }

  lemma RootCommitResolves(c: Config, w: World, key: Key, f: TaskFaults, v: VersionId)
    requires Deployed(c) && Running(c, w, key) && key.managedBy == c.name && IndexOf(c.hierarchy.specs, key.kind) > 0
    requires v in Process(c, w, key, f).world.root.versions && v !in w.root.versions
    ensures var out := Process(c, w, key, f).world;
            && v.keyId == key.id && Inv(c, out) && Serves(c, AtRoot, key.kind)
            && ResolveSecret(c, out, AtRoot, key.kind, out.root.versions[v]) == Ok(Raw(f.seal.draw.secret))
  {
    BelowRoot(c, key.kind);
    RootCommitCase(c, w, key, f);
    var kv := ResolveVersion(w.root, key, f).version;
    NewVersionInOrder(c, w, key, f);
    ResolvedIsLatest(c, w, key, f);
    ProcessKeepsInv(c, w, key, f);
    SealStores(c, w, AtRoot, key.kind, kv, f.seal);
    StoredAtRootResolves(c, w, Process(c, w, key, f).world, key, kv, f.seal.draw);
  }

  /** The one way a version call gives an agent a new row. */
  lemma AgentCommitCase(c: Config, w: World, a: nat, kv: KeyVersion, call: Call<VersionFaults>, b: nat, v: VersionId)
    requires Sized(c, w) && a < |w.agents| && b < |w.agents|
    requires v in CallUpsertVersion(c, w, a, kv, call).world.agents[b].versions && v !in w.agents[b].versions
    ensures b == a && v == kv.id && GetKey(w.agents[a], kv.id.keyId, kv.id.tenant).Some?
    ensures var kind := GetKey(w.agents[a], kv.id.keyId, kv.id.tenant).value.kind;
            var g := GenerateAndSeal(c, w, AtAgent(a), kind, OnWire(kv), call.faults.seal);
            g.ok && CallUpsertVersion(c, w, a, kv, call).world == WithAgent(g.world, a, InsertVersion(w.agents[a], OnWire(kv)))
  {
    VersionCallCases(c, w, a, kv, call.faults);
    var key := GetKey(w.agents[a], kv.id.keyId, kv.id.tenant);
    if key.Some? {
      SealEffect(c, w, AtAgent(a), key.value.kind, OnWire(kv), call.faults.seal);
    }
  }

  lemma AgentPushResolves(c: Config, w: World, out: World, a: nat, key: Key, kv: KeyVersion, call: Call<VersionFaults>, b: nat, v: VersionId)
    requires Inv(c, w) && Inv(c, out) && key.id in w.root.keys && w.root.keys[key.id] == key
    requires a < |w.agents| && b < |w.agents| && kv.id.keyId == key.id && kv.parentKey == key.parent
    requires var w2 := CallUpsertVersion(c, w, a, kv, call).world;
             && v in w2.agents[b].versions && v !in w.agents[b].versions
             && out == w2.(root := out.root) && SameExcept(c, w2, out, key.id)
             && key.id in out.root.keys && out.root.keys[key.id].kind == key.kind
    ensures b == a && v == kv.id && Serves(c, AtAgent(b), key.kind)
    ensures ResolveSecret(c, out, AtAgent(b), key.kind, out.agents[b].versions[v]) == Ok(Raw(call.faults.seal.draw.secret))
  {
    AgentCommitCase(c, w, a, kv, call, b, v);
    var w2 := CallUpsertVersion(c, w, a, kv, call).world;
    var kind := GetKey(w.agents[a], kv.id.keyId, kv.id.tenant).value.kind;
    assert w.agents[a].keys[key.id].IsSame(w.root.keys[key.id]);
    SealStores(c, w, AtAgent(a), kind, OnWire(kv), call.faults.seal);
    VersionAtTouchesOnly(c, w, a, kv, call.faults);
    SameExceptTransitive(c, w, w2, out, key.id);
    CreatedResolves(c, w, out, AtAgent(a), key, OnWire(kv), call.faults.seal.draw);
  }

  lemma VersionCallLeavesRoot(c: Config, w: World, a: nat, kv: KeyVersion, call: Call<VersionFaults>)
    requires Sized(c, w) && a < |w.agents|
    ensures var w2 := CallUpsertVersion(c, w, a, kv, call).world; Sized(c, w2) && w2.root == w.root
  {
    VersionCallCases(c, w, a, kv, call.faults);
  }

  /** A task on a key of the root's own leaves the agents alone. */
  lemma RootTaskLeavesAgents(c: Config, w: World, key: Key, f: TaskFaults)
    requires Sized(c, w) && key.managedBy == c.name
    ensures Process(c, w, key, f).world.agents == w.agents
  {
    var r := ResolveVersion(w.root, key, f);
    if r.Resolved? { SealEffect(c, w, AtRoot, key.kind, r.version, f.seal); }
  }

  /** A task that changes an agent's versions made both calls, in order. */
  lemma AgentTaskPath(c: Config, w: World, key: Key, f: TaskFaults)
    requires Sized(c, w) && key.managedBy != c.name
    requires exists b, v :: 0 <= b < |w.agents| == |Process(c, w, key, f).world.agents|
                            && v in Process(c, w, key, f).world.agents[b].versions && v !in w.agents[b].versions
    ensures ResolveVersion(w.root, key, f).Resolved? && FindAgent(c.agents, key.managedBy).Some?
    ensures var a, kv := FindAgent(c.agents, key.managedBy).value, ResolveVersion(w.root, key, f).version;
            var p := CallUpsertKey(w, a, key, f.keyCall);
            var out := Process(c, w, key, f).world;
            Sized(c, p.world) && out == CallUpsertVersion(c, p.world, a, kv, f.versionCall).world.(root := out.root)
  {
    AgentTaskEnds(c, w, key, f);
    var r := ResolveVersion(w.root, key, f);
    if r.Resolved? { PushEnds(c, w, key, r.version, f); }
  }

  /** Away from the root's own keys a task leaves the agents as they were, or as its push left them. */
  lemma AgentTaskEnds(c: Config, w: World, key: Key, f: TaskFaults)
    requires Sized(c, w) && key.managedBy != c.name
    ensures var r, out := ResolveVersion(w.root, key, f), Process(c, w, key, f).world;
            || out == w.(root := out.root)
            || (r.Resolved? && out == UpsertRemote(c, w, key, r.version, f).world.(root := out.root))
  {
  }

  /** A push leaves the agents as they were, or as the key call or both calls left them. */
  lemma PushEnds(c: Config, w: World, key: Key, kv: KeyVersion, f: TaskFaults)
    requires Sized(c, w) && key.managedBy != c.name
    ensures var p := UpsertRemote(c, w, key, kv, f);
            || p.world == w
            || (FindAgent(c.agents, key.managedBy).Some?
                && var a := FindAgent(c.agents, key.managedBy).value;
                   var k := CallUpsertKey(w, a, key, f.keyCall);
                   && Sized(c, k.world) && (forall b | 0 <= b < |w.agents| :: k.world.agents[b].versions == w.agents[b].versions)
                   && (p.world == k.world || p.world == CallUpsertVersion(c, k.world, a, kv, f.versionCall).world))
  {
    var a := FindAgent(c.agents, key.managedBy);
    if a.Some? { UpsertLeavesVersions(w.agents[a.value], key, f.keyCall.faults); }
  }

  lemma UpsertLeavesVersions(t: Tables, k: Key, f: KeyFaults)
    ensures UpsertOn(t, k, f).0.versions == t.versions
  {
  }

  /** The same key call leaves every agent's versions alone. */
  lemma KeyCallLeavesVersions(c: Config, w: World, a: nat, k: Key, call: Call<KeyFaults>, b: nat)
    requires Shape(c, w) && Mirrors(c, w) && CallFor(c, w, a, k) && b < |w.agents|
    ensures Sized(c, CallUpsertKey(w, a, k, call).world)
    ensures CallUpsertKey(w, a, k, call).world.agents[b].versions == w.agents[b].versions
  {
    UpsertLandsOnRow(c, w, a, k, call.faults);
  }

  /** The world between the two calls of a task that gave an agent a new row. */
  lemma BetweenCalls(c: Config, w: World, key: Key, f: TaskFaults, b: nat, v: VersionId) returns (a: nat, w1: World)
    requires Deployed(c) && Running(c, w, key) && b < |w.agents| == |Process(c, w, key, f).world.agents|
    requires v in Process(c, w, key, f).world.agents[b].versions && v !in w.agents[b].versions
    ensures ResolveVersion(w.root, key, f).Resolved?
    ensures Inv(c, w1) && a < |w1.agents| && b < |w1.agents| && w1.root == w.root && v !in w1.agents[b].versions
    ensures var kv, out := ResolveVersion(w.root, key, f).version, Process(c, w, key, f).world;
            && kv.id.keyId == key.id && kv.parentKey == key.parent
            && out == CallUpsertVersion(c, w1, a, kv, f.versionCall).world.(root := out.root)
  {
    if key.managedBy == c.name { RootTaskLeavesAgents(c, w, key, f); }
    AgentTaskPath(c, w, key, f);
    a := FindAgent(c.agents, key.managedBy).value;
    w1 := CallUpsertKey(w, a, key, f.keyCall).world;
    KeyCallLeavesVersions(c, w, a, key, f.keyCall, b);
    CallKeyKeepsInv(c, w, a, key, f.keyCall);
    ResolvedIsLatest(c, w, key, f);
  }

  lemma ResolveTouchesOnly(t: Tables, key: Key, f: TaskFaults)
    requires RowsKeyed(t) && ResolveVersion(t, key, f).Resolved?
    ensures var r := ResolveVersion(t, key, f);
            r.tables.keys == t.keys && r.tables.tenants == t.tenants && TablesSameExcept(t, r.tables, key.id)
  {
    ResolveEffect(t, key, f);
  }

  /** The tables a task may leave at the root. */
  lemma RootOutcomes(c: Config, w: World, key: Key, f: TaskFaults)
    requires Sized(c, w) && key.id in w.root.keys && w.root.keys[key.id] == key
    ensures var t, r := Process(c, w, key, f).world.root, ResolveVersion(w.root, key, f);
            || t == w.root
            || t == SetStates(w.root, key.id, key.life, Failed)
            || (r.Resolved? && key.id in r.tables.keys
                && t in {SetStates(r.tables, key.id, key.life, Failed), SetStates(r.tables, key.id, key.life, Completed)})
  {
    ProcessCases(c, w, key, f);
    var r := ResolveVersion(w.root, key, f);
    if r.Resolved? {
      CallsLeaveRootAlone(c, w, key, r.version, r.isNew, f);
      CallsLeaveRootAlone(c, SealLocally(c, w, key, r.version, r.isNew, f).world, key, r.version, r.isNew, f);
    }
  }

  /** Whatever a task commits at the root concerns its own key. */
  lemma RootAfterTask(c: Config, w: World, key: Key, f: TaskFaults)
    requires Sized(c, w) && RowsKeyed(w.root) && key.id in w.root.keys && w.root.keys[key.id] == key
    ensures var t := Process(c, w, key, f).world.root;
            && t.tenants == w.root.tenants && TablesSameExcept(w.root, t, key.id)
            && key.id in t.keys && t.keys[key.id].IsSame(key)
  {
    RootOutcomes(c, w, key, f);
    if ResolveVersion(w.root, key, f).Resolved? { ResolveTouchesOnly(w.root, key, f); }
  }

  lemma CommitTouchesOnly(c: Config, w: World, w2: World, key: Key, f: TaskFaults)
    requires Sized(c, w) && RowsKeyed(w.root) && key.id in w.root.keys && w.root.keys[key.id] == key
    requires Sized(c, w2) && w2.root == w.root && Process(c, w, key, f).world == w2.(root := Process(c, w, key, f).world.root)
    ensures var out := Process(c, w, key, f).world;
            SameExcept(c, w2, out, key.id) && key.id in out.root.keys && out.root.keys[key.id].IsSame(key)
  {
    RootAfterTask(c, w, key, f);
    RootSameExcept(c, w2, Process(c, w, key, f).world.root, key.id);
  }

  lemma AgentCommitResolves(c: Config, w: World, key: Key, f: TaskFaults, b: nat, v: VersionId)
    requires Deployed(c) && Running(c, w, key) && b < |w.agents| == |Process(c, w, key, f).world.agents|
    requires v in Process(c, w, key, f).world.agents[b].versions && v !in w.agents[b].versions
    ensures var out := Process(c, w, key, f).world;
            && v.keyId == key.id && Inv(c, out) && Serves(c, AtAgent(b), key.kind)
            && ResolveSecret(c, out, AtAgent(b), key.kind, out.agents[b].versions[v])
               == Ok(Raw(f.versionCall.faults.seal.draw.secret))
  {
    var a, w1 := BetweenCalls(c, w, key, f, b, v);
    var kv, out := ResolveVersion(w.root, key, f).version, Process(c, w, key, f).world;
    var w2 := CallUpsertVersion(c, w1, a, kv, f.versionCall).world;
    ProcessKeepsInv(c, w, key, f);
    assert RowsKeyed(TablesAt(w, AtRoot));
    VersionCallLeavesRoot(c, w1, a, kv, f.versionCall);
    CommitTouchesOnly(c, w, w2, key, f);
    AgentPushResolves(c, w1, out, a, key, kv, f.versionCall, b, v);
  }

  /** A version row a step adds at the node that manages its key. */
  ghost predicate NewAt(c: Config, w: World, w2: World, n: Node, v: VersionId)
    requires Sized(c, w) && Sized(c, w2)
  {
    && IsNode(c, n) && v in TablesAt(w2, n).versions && v !in TablesAt(w, n).versions
    && (n.AtRoot? ==> v.keyId in w2.root.keys && w2.root.keys[v.keyId].managedBy == c.name
                      && IndexOf(c.hierarchy.specs, w2.root.keys[v.keyId].kind) > 0)
  }

  /** The secret behind a version row, as its node resolves it. */
  ghost predicate HasSecret(c: Config, w: World, n: Node, v: VersionId, secret: nat)
    requires Sized(c, w)
  {
    && IsNode(c, n) && v in TablesAt(w, n).versions && v.keyId in TablesAt(w, n).keys
    && Serves(c, n, TablesAt(w, n).keys[v.keyId].kind)
    && ResolveSecret(c, w, n, TablesAt(w, n).keys[v.keyId].kind, TablesAt(w, n).versions[v]) == Ok(Raw(secret))
  }

  lemma CommitAtRoot(c: Config, w: World, key: Key, f: TaskFaults, v: VersionId)
    requires Deployed(c) && Running(c, w, key)
    requires var w2 := Process(c, w, key, f).world; Sized(c, w2) && NewAt(c, w, w2, AtRoot, v)
    ensures HasSecret(c, Process(c, w, key, f).world, AtRoot, v, f.seal.draw.secret)
  {
    assert RowsKeyed(TablesAt(w, AtRoot));
    RootAfterTask(c, w, key, f);
    assert v.keyId == key.id;
    RootCommitResolves(c, w, key, f, v);
  }

  lemma CommitAtAgent(c: Config, w: World, key: Key, f: TaskFaults, a: nat, v: VersionId)
    requires Deployed(c) && Running(c, w, key)
    requires var w2 := Process(c, w, key, f).world; Sized(c, w2) && NewAt(c, w, w2, AtAgent(a), v)
    ensures HasSecret(c, Process(c, w, key, f).world, AtAgent(a), v, f.versionCall.faults.seal.draw.secret)
  {
    assert RowsKeyed(TablesAt(w, AtRoot));
    RootAfterTask(c, w, key, f);
    AgentCommitResolves(c, w, key, f, a, v);
    RowsFollowRoot(c, Process(c, w, key, f).world, AtAgent(a), v);
  }

  lemma CommitOfDue(c: Config, w: World, key: Key, f: TaskFaults, n: Node, v: VersionId)
    requires Deployed(c) && Running(c, w, key)
    requires var w2 := Process(c, w, key, f).world; Sized(c, w2) && NewAt(c, w, w2, n, v)
    ensures HasSecret(c, Process(c, w, key, f).world, n, v, DrawAt(n, f).secret)
  {
    match n {
      case AtRoot => CommitAtRoot(c, w, key, f, v);
      case AtAgent(a) => CommitAtAgent(c, w, key, f, a, v);
    }
  }

  /** A task that committed a version worked on a due row. */
  lemma DueOf(c: Config, w: World, target: LifeCycle, kid: KeyIdentifier, f: TaskFaults, n: Node, v: VersionId) returns (key: Key)
    requires KeysById(w.root) && Sized(c, w) && Sized(c, HandleTask(c, w, target, kid, f).world)
    requires NewAt(c, w, HandleTask(c, w, target, kid, f).world, n, v)
    ensures key.id in w.root.keys && w.root.keys[key.id] == key && key.status == Pending
    ensures HandleTask(c, w, target, kid, f) == Process(c, w, key, f)
  {
    TaskCases(c, w, target, kid, f);
    key := GetKey(w.root, kid.id, kid.tenant).value;
  }

  lemma InvKeysById(c: Config, w: World)
    requires Inv(c, w)
    ensures KeysById(w.root)
  {
    assert RowsKeyed(TablesAt(w, AtRoot));
  }

  /** When a version row is committed, its node resolves exactly the secret this attempt drew. */
  lemma CommitFixesSecret(c: Config, w: World, target: LifeCycle, kid: KeyIdentifier, f: TaskFaults, n: Node, v: VersionId)
    requires Deployed(c) && Inv(c, w) && Sized(c, HandleTask(c, w, target, kid, f).world)
    requires NewAt(c, w, HandleTask(c, w, target, kid, f).world, n, v)
    ensures HasSecret(c, HandleTask(c, w, target, kid, f).world, n, v, DrawAt(n, f).secret)
  {
    InvKeysById(c, w);
    var key := DueOf(c, w, target, kid, f, n, v);
    CommitOfDue(c, w, key, f, n, v);
  }

  // ------------------------------------------------------------------ ever after

  /** Resolving gives what it gave exactly while the chain is ready, and otherwise reports the state
      of some key of the chain. */
  ghost predicate KeepsSecret(c: Config, w: World, n: Node, v: VersionId, secret: nat)
    requires Sized(c, w)
  {
    && IsNode(c, n) && v in TablesAt(w, n).versions && v.keyId in TablesAt(w, n).keys
    && var kind, kv := TablesAt(w, n).keys[v.keyId].kind, TablesAt(w, n).versions[v];
       && Serves(c, n, kind)
       && var r := ResolveSecret(c, w, n, kind, kv);
          if ChainReady(c, w, n, kind, kv) then r == Ok(Raw(secret)) else r.Err? && OfState(r.why)
  }

  lemma SecretKept(c: Config, w: World, w2: World, n: Node, v: VersionId, secret: nat)
    requires LaterWorld(c, w, w2) && HasSecret(c, w, n, v, secret)
    ensures KeepsSecret(c, w2, n, v, secret)
  {
    assert KeepsRows(TablesAt(w, n), TablesAt(w2, n));
    ResolveStable(c, w, w2, n, TablesAt(w, n).keys[v.keyId].kind, v);
    ResolveReady(c, w, w2, n, TablesAt(w, n).keys[v.keyId].kind, v);
  }

  /** End to end: from the task that committed a version on, through every rollback, redelivery,
      action, re-announce and provider-key rotation, its node resolves the secret that attempt drew
      exactly while its chain is ready. */
  lemma SecretForLife(c: Config, ws: seq<World>, steps: seq<Step>, i: nat, j: nat, n: Node, v: VersionId)
    requires Deployed(c) && Run(c, ws, steps) && Initial(c, ws[0]) && i < j < |ws|
    requires steps[i].TaskStep? && NewAt(c, ws[i], ws[i + 1], n, v)
    requires forall k | i < k < j :: KeepsBinding(ws[k], steps[k])
    ensures KeepsSecret(c, ws[j], n, v, DrawAt(n, steps[i].faults).secret)
  {
    RunKeepsInv(c, ws, steps, i);
    RunKeepsInv(c, ws, steps, i + 1);
    assert Taken(c, ws, steps, i);
    CommitFixesSecret(c, ws[i], Target(steps[i].action), steps[i].kid, steps[i].faults, n, v);
    RunGrows(c, ws, steps, i + 1, j);
    SecretKept(c, ws[i + 1], ws[j], n, v, DrawAt(n, steps[i].faults).secret);
  }

  // ------------------------------------------------------------------ termination

  /** Every node's row for the key a version is pinned to stands above the version's key. */
  ghost predicate PinsClimb(c: Config, w: World)
    requires Sized(c, w)
  {
    forall n: Node, v: VersionId, m: Node | IsNode(c, n) && IsNode(c, m) && v in TablesAt(w, n).versions ::
      PinClimbs(c, w, n, v, m)
  }

  ghost predicate PinClimbs(c: Config, w: World, n: Node, v: VersionId, m: Node)
    requires Sized(c, w) && IsNode(c, n) && IsNode(c, m) && v in TablesAt(w, n).versions
  {
    var kv, p := TablesAt(w, n).versions[v], TablesAt(w, n).versions[v].parentKey;
    && kv.id == v
    && v.keyId in TablesAt(w, n).keys
    && (p.Some? && p.value in TablesAt(w, m).keys ==>
          IndexOf(c.hierarchy.specs, TablesAt(w, m).keys[p.value].kind)
          < IndexOf(c.hierarchy.specs, TablesAt(w, n).keys[v.keyId].kind))
  }

  lemma InvPinClimbs(c: Config, w: World, n: Node, v: VersionId, m: Node)
    requires Inv(c, w) && IsNode(c, n) && IsNode(c, m) && v in TablesAt(w, n).versions
    ensures PinClimbs(c, w, n, v, m)
  {
    RowsFollowRoot(c, w, n, v);
    assert RowsKeyed(TablesAt(w, n));
    var p := TablesAt(w, n).versions[v].parentKey;
    if p.Some? {
      PinnedToHigher(c, w, n, v);
      if p.value in TablesAt(w, m).keys { OneKind(c, w, m, p.value); }
    }
  }

  /** A key has the kind the root stores at every node. */
  lemma OneKind(c: Config, w: World, n: Node, i: Uuid)
    requires Inv(c, w) && IsNode(c, n) && i in TablesAt(w, n).keys
    ensures i in w.root.keys && TablesAt(w, n).keys[i].kind == w.root.keys[i].kind
  {
  }

  lemma InvPinsClimb(c: Config, w: World)
    requires Inv(c, w)
    ensures PinsClimb(c, w)
  {
    forall n: Node, v: VersionId, m: Node | IsNode(c, n) && IsNode(c, m) && v in TablesAt(w, n).versions
      ensures PinClimbs(c, w, n, v, m)
    {
      InvPinClimbs(c, w, n, v, m);
    }
  }

  lemma {:induction false} SecretClimbs(c: Config, w: World, n: Node, tenant: Uuid, keyId: Uuid, version: nat, bound: nat)
    requires Sized(c, w) && PinsClimb(c, w) && IsNode(c, n)
    requires keyId in TablesAt(w, n).keys ==> IndexOf(c.hierarchy.specs, TablesAt(w, n).keys[keyId].kind) < bound
    ensures SecretOf(c, w, n, tenant, keyId, version, bound) != Err(OffHierarchy)
    decreases bound, 0
  {
    var q := VersionQuery(version, Some(Usable), None);
    if version != 0 && Newest(TablesAt(w, n), tenant, keyId, q).Some? {
      var u :| IsNewest(TablesAt(w, n), tenant, keyId, q, u) && Newest(TablesAt(w, n), tenant, keyId, q).value == TablesAt(w, n).versions[u];
      assert PinClimbs(c, w, n, u, n);
      if keyId in TablesAt(w, n).keys && Serves(c, n, TablesAt(w, n).keys[keyId].kind) { ResolveClimbs(c, w, n, u); }
    }
  }

  /** Every chain climbs the hierarchy, at least one position per hop, so resolving ends at the root key. */
  lemma {:induction false} ResolveClimbs(c: Config, w: World, n: Node, v: VersionId)
    requires Sized(c, w) && PinsClimb(c, w) && IsNode(c, n) && v in TablesAt(w, n).versions
    requires v.keyId in TablesAt(w, n).keys && Serves(c, n, TablesAt(w, n).keys[v.keyId].kind)
    ensures ResolveSecret(c, w, n, TablesAt(w, n).keys[v.keyId].kind, TablesAt(w, n).versions[v]) != Err(OffHierarchy)
    decreases IndexOf(c.hierarchy.specs, TablesAt(w, n).keys[v.keyId].kind), 1
  {
    var kind, kv := TablesAt(w, n).keys[v.keyId].kind, TablesAt(w, n).versions[v];
    assert PinClimbs(c, w, n, v, n);
    if kv.parentKey.Some? && ParentOf(c, n, kind).ManagerAt? {
      assert PinClimbs(c, w, n, v, ParentOf(c, n, kind).node);
      SecretClimbs(c, w, ParentOf(c, n, kind).node, v.tenant, kv.parentKey.value, kv.ParentPin(), IndexOf(c.hierarchy.specs, kind));
    }
    assert ParentKey(c, w, n, kind, kv, Decrypt) != Err(OffHierarchy);
  }
}
