/** Every step keeps the invariant, whatever goes wrong in it. */
module Preservation {
  import opened Model
  import opened Store
  import opened Hierarchy
  import opened Topology
  import opened Lifecycle
  import opened Worlds
  import opened Envelope
  import opened Agent
  import opened Protocol
  import opened Forest
  import opened KeyAction
  import opened Steps
  import opened Invariant

  // ------------------------------------------------------------------ sealing

  /** Sealing writes at most its own slot, and a sealed entry there. */
  lemma SealEffect(c: Config, w: World, n: Node, kind: Name, kv: KeyVersion, f: SealFaults)
    requires Sized(c, w) && IsNode(c, n)
    ensures var r, s := GenerateAndSeal(c, w, n, kind, kv, f), Slot(n, kv.id);
            && (r.world == w || (s in r.world.vaults && r.world.vaults[s].Sealed?
                                 && r.world == w.(vaults := w.vaults[s := r.world.vaults[s]])))
            && (r.ok ==> s in r.world.vaults && r.world.vaults[s].Sealed?)
  {
  }

  lemma CallsLeaveRootAlone(c: Config, w: World, key: Key, kv: KeyVersion, isNew: bool, f: TaskFaults)
    requires Sized(c, w)
    ensures SealLocally(c, w, key, kv, isNew, f).world.root == w.root && Sized(c, SealLocally(c, w, key, kv, isNew, f).world)
    ensures UpsertRemote(c, w, key, kv, f).world.root == w.root
  {
  }

  /** A key that is not the root key stands below it. */
  lemma BelowRoot(c: Config, kind: Name)
    requires Accepted(c) && FindKeySpec(c.hierarchy.specs, kind).Some?
    ensures FindKeySpec(c.hierarchy.specs, kind).value.role == RootRole <==> IndexOf(c.hierarchy.specs, kind) == 0
  {
  }

  lemma LocalSealKeepsInv(c: Config, w: World, key: Key, kv: KeyVersion, isNew: bool, f: TaskFaults)
    requires Deployed(c) && Inv(c, w) && key.id in w.root.keys && w.root.keys[key.id] == key
    requires kv.id.keyId == key.id && kv.id.version > 0
    ensures var s := SealLocally(c, w, key, kv, isNew, f);
            && Inv(c, s.world) && s.world == w.(vaults := s.world.vaults)
            && s.verdict != GiveUp
            && (s.verdict == Done && key.managedBy == c.name && isNew && IndexOf(c.hierarchy.specs, key.kind) > 0 ==>
                  Slot(AtRoot, kv.id) in s.world.vaults && s.world.vaults[Slot(AtRoot, kv.id)].Sealed?)
  {
    assert Placed(c.hierarchy.specs, w.root, key.id);
    BelowRoot(c, key.kind);
    LocalSealCases(c, w, key, kv, isNew, f);
    var s := SealLocally(c, w, key, kv, isNew, f);
    if s.world != w {
      VaultWriteKeepsInv(c, w, Slot(AtRoot, kv.id), s.world.vaults[Slot(AtRoot, kv.id)]);
    }
  }

  /** Sealing writes at most the slot of a version the root manages, below the root key. */
  lemma LocalSealCases(c: Config, w: World, key: Key, kv: KeyVersion, isNew: bool, f: TaskFaults)
    requires Sized(c, w) && FindKeySpec(c.hierarchy.specs, key.kind).Some?
    requires FindKeySpec(c.hierarchy.specs, key.kind).value.role == RootRole <==> IndexOf(c.hierarchy.specs, key.kind) == 0
    ensures var s, slot := SealLocally(c, w, key, kv, isNew, f), Slot(AtRoot, kv.id);
            && s.verdict != GiveUp
            && (s.world == w
                || (slot in s.world.vaults && s.world.vaults[slot].Sealed?
                    && s.world == w.(vaults := w.vaults[slot := s.world.vaults[slot]])
                    && key.managedBy == c.name && IndexOf(c.hierarchy.specs, key.kind) > 0))
            && (s.verdict == Done && key.managedBy == c.name && isNew && IndexOf(c.hierarchy.specs, key.kind) > 0 ==>
                  slot in s.world.vaults && s.world.vaults[slot].Sealed?)
  {
    SealEffect(c, w, AtRoot, key.kind, kv, f.seal);
  }

  // ------------------------------------------------------------------ calls to agents

  lemma CallKeyKeepsInv(c: Config, w: World, a: nat, k: Key, call: Call<KeyFaults>)
    requires Inv(c, w) && CallFor(c, w, a, k)
    requires w.root.keys[k.id].status != Completed || w.root.keys[k.id].life == k.life
    ensures var p := CallUpsertKey(w, a, k, call);
            && Inv(c, p.world) && p.world == w.(agents := p.world.agents) && CallFor(c, p.world, a, k)
            && (p.verdict == Done ==> k.id in p.world.agents[a].keys && p.world.agents[a].keys[k.id].life == k.life)
  {
    UpsertLandsOnRow(c, w, a, k, call.faults);
    var t := UpsertOn(w.agents[a], k, call.faults).0;
    if t == w.agents[a] {
      assert w.agents[a := t] == w.agents;
    } else {
      AgentKeyKeepsInv(c, w, a, k, t.keys[k.id]);
    }
  }

  /** The rows the agent must hold after a successful push. */
  ghost predicate Holds(w: World, a: nat, kv: KeyVersion) {
    && a < |w.agents| && kv.id in w.agents[a].versions
    && w.agents[a].versions[kv.id].life == kv.life && w.agents[a].versions[kv.id].processing == kv.processing
    && Slot(AtAgent(a), kv.id) in w.vaults && w.vaults[Slot(AtAgent(a), kv.id)].Sealed?
  }

  /** A version of a root row whose key is not settled. */
  ghost predicate OpenVersion(c: Config, w: World, a: nat, k: Key, kv: KeyVersion) {
    && CallFor(c, w, a, k) && w.root.keys[k.id].status != Completed
    && kv.id.keyId == k.id && kv.id.version > 0 && kv.id.revision == 1 && kv.parentKey == k.parent
  }

  lemma AgentSealKeepsInv(c: Config, w: World, a: nat, k: Key, kv: KeyVersion, kind: Name, f: SealFaults)
    requires Deployed(c) && Inv(c, w) && OpenVersion(c, w, a, k, kv)
    ensures var g := GenerateAndSeal(c, w, AtAgent(a), kind, kv, f);
            Inv(c, g.world) && g.world == w.(vaults := g.world.vaults)
  {
    SealEffect(c, w, AtAgent(a), kind, kv, f);
    var g := GenerateAndSeal(c, w, AtAgent(a), kind, kv, f);
    if g.world != w {
      assert ManagerKnown(c, w.root.keys[k.id]);
      VaultWriteKeepsInv(c, w, Slot(AtAgent(a), kv.id), g.world.vaults[Slot(AtAgent(a), kv.id)]);
    }
  }

  lemma VersionStatesKeepInv(c: Config, w: World, a: nat, k: Key, kv: KeyVersion)
    requires Inv(c, w) && OpenVersion(c, w, a, k, kv) && kv.id in w.agents[a].versions
    ensures var w2 := WithAgent(w, a, SetVersionStates(w.agents[a], kv.id, kv.life, kv.processing));
            Inv(c, w2) && Holds(w2, a, kv)
  {
    var row := w.agents[a].versions[kv.id].(life := kv.life, processing := kv.processing);
    assert RowsKeyed(TablesAt(w, AtAgent(a)));
    assert InsertVersion(w.agents[a], row) == SetVersionStates(w.agents[a], kv.id, kv.life, kv.processing);
    AgentVersionKeepsInv(c, w, a, row);
  }

  lemma FirstPushKeepsInv(c: Config, w: World, a: nat, k: Key, kv: KeyVersion, kind: Name, f: SealFaults)
    requires Deployed(c) && Inv(c, w) && OpenVersion(c, w, a, k, kv)
    requires kv.id.keyId in w.agents[a].keys && w.agents[a].keys[kv.id.keyId].tenant == kv.id.tenant
    requires GenerateAndSeal(c, w, AtAgent(a), kind, OnWire(kv), f).ok
    ensures var g := GenerateAndSeal(c, w, AtAgent(a), kind, OnWire(kv), f);
            var w2 := WithAgent(g.world, a, InsertVersion(w.agents[a], OnWire(kv)));
            Inv(c, w2) && Holds(w2, a, kv)
  {
    var g := GenerateAndSeal(c, w, AtAgent(a), kind, OnWire(kv), f);
    AgentSealKeepsInv(c, w, a, k, OnWire(kv), kind, f);
    SealEffect(c, w, AtAgent(a), kind, OnWire(kv), f);
    AgentVersionKeepsInv(c, g.world, a, OnWire(kv));
  }

  /** The four ways a version call can leave the world: untouched, the row's states set, a secret
      sealed without a row, or row and secret both stored. */
  lemma VersionCallCases(c: Config, w: World, a: nat, kv: KeyVersion, f: VersionFaults)
    requires Sized(c, w) && a < |w.agents|
    ensures var r, key := UpsertVersionAt(c, w, a, kv, f), GetKey(w.agents[a], kv.id.keyId, kv.id.tenant);
            || (r.world == w && !r.reply.Applied?)
            || (kv.id in w.agents[a].versions
                && r.world == WithAgent(w, a, SetVersionStates(w.agents[a], kv.id, kv.life, kv.processing)))
            || (key.Some? && !r.reply.Applied?
                && r.world == GenerateAndSeal(c, w, AtAgent(a), key.value.kind, OnWire(kv), f.seal).world)
            || (key.Some? && var g := GenerateAndSeal(c, w, AtAgent(a), key.value.kind, OnWire(kv), f.seal);
                g.ok && r.world == WithAgent(g.world, a, InsertVersion(w.agents[a], OnWire(kv))))
  {
  }

  ghost predicate CallKept(c: Config, w: World, a: nat, kv: KeyVersion, w2: World) {
    && Inv(c, w2) && w2.root == w.root && a < |w.agents| == |w2.agents|
    && w2.agents[a].keys == w.agents[a].keys
  }

  lemma VersionAtKeepsInv(c: Config, w: World, a: nat, k: Key, kv: KeyVersion, f: VersionFaults)
    requires Deployed(c) && Inv(c, w) && OpenVersion(c, w, a, k, kv)
    ensures var r := UpsertVersionAt(c, w, a, kv, f);
            CallKept(c, w, a, kv, r.world) && (r.reply.Applied? ==> Holds(r.world, a, kv))
  {
    VersionCallCases(c, w, a, kv, f);
    var r, key := UpsertVersionAt(c, w, a, kv, f), GetKey(w.agents[a], kv.id.keyId, kv.id.tenant);
    if kv.id in w.agents[a].versions {
      VersionStatesKeepInv(c, w, a, k, kv);
    }
    if key.Some? {
      AgentSealKeepsInv(c, w, a, k, OnWire(kv), key.value.kind, f.seal);
      if GenerateAndSeal(c, w, AtAgent(a), key.value.kind, OnWire(kv), f.seal).ok {
        FirstPushKeepsInv(c, w, a, k, kv, key.value.kind, f.seal);
      }
    }
  }

  lemma CallVersionKeepsInv(c: Config, w: World, a: nat, k: Key, kv: KeyVersion, call: Call<VersionFaults>)
    requires Deployed(c) && Inv(c, w) && OpenVersion(c, w, a, k, kv)
    ensures var p := CallUpsertVersion(c, w, a, kv, call);
            CallKept(c, w, a, kv, p.world) && (p.verdict == Done ==> Holds(p.world, a, kv))
  {
    VersionAtKeepsInv(c, w, a, k, kv, call.faults);
  }

  lemma RemoteKeepsInv(c: Config, w: World, key: Key, kv: KeyVersion, f: TaskFaults)
    requires Deployed(c) && Inv(c, w) && key.id in w.root.keys && w.root.keys[key.id] == key && key.status != Completed
    requires kv.id.keyId == key.id && kv.id.version > 0 && kv.id.revision == 1 && kv.parentKey == key.parent
    ensures var p := UpsertRemote(c, w, key, kv, f);
            && Inv(c, p.world) && p.world.root == w.root
            && (p.verdict == Done && key.managedBy != c.name ==>
                  var a := FindAgent(c.agents, key.managedBy);
                  && a.Some? && Holds(p.world, a.value, kv)
                  && key.id in p.world.agents[a.value].keys && p.world.agents[a.value].keys[key.id].life == key.life)
            && (key.managedBy == c.name ==> p.world == w)
  {
    if key.managedBy != c.name && FindAgent(c.agents, key.managedBy).Some? {
      var a := FindAgent(c.agents, key.managedBy).value;
      CallKeyKeepsInv(c, w, a, key, f.keyCall);
      var p := CallUpsertKey(w, a, key, f.keyCall);
      if p.verdict == Done {
        CallVersionKeepsInv(c, p.world, a, key, kv, f.versionCall);
      }
    }
  }

  // ------------------------------------------------------------------ the task's commit

  /** The key of a task that is under way. */
  ghost predicate Running(c: Config, w: World, key: Key) {
    Inv(c, w) && key.id in w.root.keys && w.root.keys[key.id] == key && key.status == Pending
  }

  lemma PinExists(t: Tables, key: Key, p: Uuid)
    requires VersionsInOrder(t) && Newest(t, key.tenant, p, LATEST_ACTIVE).Some?
    requires forall v | v in t.versions :: t.versions[v].id == v
    ensures var row := Newest(t, key.tenant, p, LATEST_ACTIVE).value;
            VersionId(key.tenant, p, row.id.version, 1) in t.versions
  {
    var v :| IsNewest(t, key.tenant, p, LATEST_ACTIVE, v)
             && Newest(t, key.tenant, p, LATEST_ACTIVE).value == t.versions[v];
    assert RowInOrder(t, v);
  }

  /** A resolved version is the key's latest one, in the key's state and usable. */
  lemma ResolvedIsLatest(c: Config, w: World, key: Key, f: TaskFaults)
    requires Running(c, w, key) && ResolveVersion(w.root, key, f).Resolved?
    ensures var r := ResolveVersion(w.root, key, f);
            && Newest(r.tables, key.tenant, key.id, LATEST) == Some(r.version)
            && r.version.id.keyId == key.id && r.version.id.tenant == key.tenant
            && r.version.id.version > 0 && r.version.id.revision == 1
            && r.version.life == key.life && r.version.processing == Usable && r.version.parentKey == key.parent
            && r.tables.keys == w.root.keys && r.tables.tenants == w.root.tenants
  {
    var r, t := ResolveVersion(w.root, key, f), w.root;
    assert RowsKeyed(TablesAt(w, AtRoot));
    if r.isNew {
      forall u | Listed(r.tables, key.tenant, key.id, LATEST, u) ensures u == r.version.id {
        assert !Listed(t, key.tenant, key.id, LATEST, u);
      }
      assert IsNewest(r.tables, key.tenant, key.id, LATEST, r.version.id);
    } else {
      var v :| IsNewest(t, key.tenant, key.id, LATEST, v) && Newest(t, key.tenant, key.id, LATEST).value == t.versions[v];
      assert RowInOrder(t, v);
      assert forall u :: Listed(r.tables, key.tenant, key.id, LATEST, u) <==> Listed(t, key.tenant, key.id, LATEST, u);
      assert IsNewest(r.tables, key.tenant, key.id, LATEST, v);
    }
    NewestIs(r.tables, key.tenant, key.id, LATEST, r.version.id);
  }

  /** The row of a new version is in order: first version, pinned as its key's parent demands. */
  lemma NewVersionInOrder(c: Config, w: World, key: Key, f: TaskFaults)
    requires Running(c, w, key) && ResolveVersion(w.root, key, f).Resolved? && ResolveVersion(w.root, key, f).isNew
    ensures var r := ResolveVersion(w.root, key, f);
            && r.version.id !in w.root.versions && r.tables == InsertVersion(w.root, r.version)
            && RowInOrder(r.tables, r.version.id)
  {
    assert RowsKeyed(TablesAt(w, AtRoot));
    if key.parent.Some? { PinExists(w.root, key, key.parent.value); }
  }

  /** Committing the resolved version, before the key's own status moves. */
  lemma ResolvedKeepsInv(c: Config, w: World, key: Key, f: TaskFaults)
    requires Running(c, w, key) && ResolveVersion(w.root, key, f).Resolved?
    requires var r := ResolveVersion(w.root, key, f);
             r.isNew ==> MaterialReady(c, w, r.version.id)
    ensures Inv(c, w.(root := ResolveVersion(w.root, key, f).tables))
  {
    if ResolveVersion(w.root, key, f).isNew {
      CreatedKeepsInv(c, w, key, f);
    } else {
      UpdatedKeepsInv(c, w, key, f);
    }
  }

  lemma UpdatedKeepsInv(c: Config, w: World, key: Key, f: TaskFaults)
    requires Running(c, w, key) && ResolveVersion(w.root, key, f).Resolved? && !ResolveVersion(w.root, key, f).isNew
    ensures Inv(c, w.(root := ResolveVersion(w.root, key, f).tables))
  {
    assert RowsKeyed(TablesAt(w, AtRoot));
    UpdatedOnlyStates(w, key, f);
    SettledKeepsInv(c, w, w.(root := ResolveVersion(w.root, key, f).tables), key.id);
  }

  lemma UpdatedOnlyStates(w: World, key: Key, f: TaskFaults)
    requires RowsKeyed(w.root) && ResolveVersion(w.root, key, f).Resolved? && !ResolveVersion(w.root, key, f).isNew
    ensures var w2 := w.(root := ResolveVersion(w.root, key, f).tables);
            && OnlyStates(w, w2) && w2.root.keys == w.root.keys
            && forall v | v in w.root.versions && v.keyId != key.id :: w2.root.versions[v] == w.root.versions[v]
  {
    ResolveEffect(w.root, key, f);
  }

  lemma ResolveEffect(t: Tables, key: Key, f: TaskFaults)
    requires ResolveVersion(t, key, f).Resolved?
    ensures var r := ResolveVersion(t, key, f);
            || (r.isNew && r.version.id !in t.versions && r.tables == InsertVersion(t, r.version))
            || (r.version.id in t.versions && r.tables == SetVersionStates(t, r.version.id, key.life, Usable))
  {
  }

  lemma CreatedKeepsInv(c: Config, w: World, key: Key, f: TaskFaults)
    requires Running(c, w, key) && ResolveVersion(w.root, key, f).Resolved? && ResolveVersion(w.root, key, f).isNew
    requires MaterialReady(c, w, ResolveVersion(w.root, key, f).version.id)
    ensures Inv(c, w.(root := ResolveVersion(w.root, key, f).tables))
  {
    NewVersionInOrder(c, w, key, f);
    InsertKeepsInv(c, w, ResolveVersion(w.root, key, f).version);
  }

  lemma FailedKeepsInv(c: Config, w: World, t: Tables, key: Key, f: TaskFaults)
    requires Inv(c, w) && Running(c, w.(root := t), key)
    ensures Inv(c, MarkFailed(w, t, key, f).world)
  {
    var w1 := w.(root := t);
    OnlyStatesOfOne(w1, key.id, key.life, Failed);
    UnsettledKeepsInv(c, w1, w1.(root := SetStates(t, key.id, key.life, Failed)));
  }

  lemma CompletedKeepsInv(c: Config, w: World, t: Tables, key: Key, kv: KeyVersion, f: TaskFaults)
    requires Inv(c, w) && Running(c, w.(root := t), key)
    requires Newest(t, key.tenant, key.id, LATEST) == Some(kv) && kv.life == key.life && kv.processing == Usable
    requires key.managedBy != c.name ==>
               var a := FindAgent(c.agents, key.managedBy);
               && a.Some? && Holds(w, a.value, kv)
               && key.id in w.agents[a.value].keys && w.agents[a.value].keys[key.id].life == key.life
    ensures Inv(c, MarkCompleted(w, t, key, f).world)
  {
    var w1 := w.(root := t);
    var w2 := w1.(root := SetStates(t, key.id, key.life, Completed));
    OnlyStatesOfOne(w1, key.id, key.life, Completed);
    NewestElsewhere(t, w2.root, key.tenant, key.id, LATEST);
    SettledKeepsInv(c, w1, w2, key.id);
  }

  /** What is committed once the version is sealed and pushed. */
  lemma PushedKeepsInv(c: Config, w: World, key: Key, f: TaskFaults)
    requires Deployed(c) && Running(c, w, key) && ResolveVersion(w.root, key, f).Resolved?
    requires var r := ResolveVersion(w.root, key, f); r.isNew ==> MaterialReady(c, w, r.version.id)
    ensures var r := ResolveVersion(w.root, key, f);
            var p := UpsertRemote(c, w, key, r.version, f);
            && Inv(c, p.world)
            && (p.verdict == GiveUp ==> Inv(c, MarkFailed(p.world, r.tables, key, f).world))
            && (p.verdict == Done ==> Inv(c, MarkCompleted(p.world, r.tables, key, f).world))
  {
    ResolvedIsLatest(c, w, key, f);
    var r := ResolveVersion(w.root, key, f);
    RemoteKeepsInv(c, w, key, r.version, f);
    var p := UpsertRemote(c, w, key, r.version, f);
    if p.verdict != Later {
      ResolvedKeepsInv(c, p.world, key, f);
      if p.verdict == GiveUp { FailedKeepsInv(c, p.world, r.tables, key, f); }
      if p.verdict == Done { CompletedKeepsInv(c, p.world, r.tables, key, r.version, f); }
    }
  }

  /** The world every ending of a task with a resolved version leaves. */
  lemma SealedKeepsInv(c: Config, w: World, key: Key, f: TaskFaults)
    requires Deployed(c) && Running(c, w, key) && ResolveVersion(w.root, key, f).Resolved?
    ensures var r := ResolveVersion(w.root, key, f);
            var s := SealLocally(c, w, key, r.version, r.isNew, f);
            && Inv(c, s.world) && s.verdict != GiveUp
            && (s.verdict == Done ==>
                  var p := UpsertRemote(c, s.world, key, r.version, f);
                  && Inv(c, p.world)
                  && (p.verdict == GiveUp ==> Inv(c, MarkFailed(p.world, r.tables, key, f).world))
                  && (p.verdict == Done ==> Inv(c, MarkCompleted(p.world, r.tables, key, f).world)))
  {
    ResolvedIsLatest(c, w, key, f);
    var r := ResolveVersion(w.root, key, f);
    LocalSealKeepsInv(c, w, key, r.version, r.isNew, f);
    var s := SealLocally(c, w, key, r.version, r.isNew, f);
    if s.verdict == Done { PushedKeepsInv(c, s.world, key, f); }
  }

  /** One delivery of a task, with every outcome of every store, vault and remote call. */
  lemma ProcessKeepsInv(c: Config, w: World, key: Key, f: TaskFaults)
    requires Deployed(c) && Running(c, w, key)
    ensures Inv(c, Process(c, w, key, f).world)
  {
    ProcessStages(c, w, key, f);
    match ResolveVersion(w.root, key, f) {
      case ResolveLater =>
      case NoParentVersion => UnresolvedKeepsInv(c, w, key, f);
      case Resolved(_, _, _) => SealedKeepsInv(c, w, key, f);
    }
  }

  lemma UnresolvedKeepsInv(c: Config, w: World, key: Key, f: TaskFaults)
    requires Running(c, w, key)
    ensures Inv(c, MarkFailed(w, w.root, key, f).world)
  {
    assert w.(root := w.root) == w;
    FailedKeepsInv(c, w, w.root, key, f);
  }

  lemma ProcessStages(c: Config, w: World, key: Key, f: TaskFaults)
    requires Sized(c, w)
    ensures var out, r := Process(c, w, key, f).world, ResolveVersion(w.root, key, f);
            && (r.ResolveLater? ==> out == w)
            && (r.NoParentVersion? ==> out == MarkFailed(w, w.root, key, f).world)
            && (r.Resolved? ==>
                  var s := SealLocally(c, w, key, r.version, r.isNew, f);
                  var p := UpsertRemote(c, s.world, key, r.version, f);
                  || (s.verdict == Later && out == s.world)
                  || s.verdict == GiveUp
                  || (s.verdict == Done && p.verdict == Later && out == p.world)
                  || (s.verdict == Done && p.verdict == GiveUp && out == MarkFailed(p.world, r.tables, key, f).world)
                  || (s.verdict == Done && p.verdict == Done && out == MarkCompleted(p.world, r.tables, key, f).world))
  {
  }

  lemma TaskKeepsInv(c: Config, w: World, target: LifeCycle, kid: KeyIdentifier, f: TaskFaults)
    requires Deployed(c) && Inv(c, w)
    ensures Inv(c, HandleTask(c, w, target, kid, f).world)
  {
    TaskCases(c, w, target, kid, f);
    if HandleTask(c, w, target, kid, f).world != w {
      assert RowsKeyed(TablesAt(w, AtRoot));
      ProcessKeepsInv(c, w, GetKey(w.root, kid.id, kid.tenant).value, f);
    }
  }

  /** A delivery that does anything at all works on a due row. */
  lemma TaskCases(c: Config, w: World, target: LifeCycle, kid: KeyIdentifier, f: TaskFaults)
    requires Sized(c, w)
    ensures var o, k := HandleTask(c, w, target, kid, f), GetKey(w.root, kid.id, kid.tenant);
            o.world == w || (k.Some? && k.value.life == target && k.value.status == Pending && o == Process(c, w, k.value, f))
  {
  }

  // ------------------------------------------------------------------ announcing

  function WithRow(w: World, k: Key): (w2: World) {
    w.(root := w.root.(keys := w.root.keys[k.id := k]))
  }

  lemma NewRowPlaced(c: Config, t: Tables, k: Key)
    requires WellFormed(c.hierarchy.specs, t) && k.id !in t.keys && FitsHierarchy(c.hierarchy.specs, t, k)
    requires FindKeySpec(c.hierarchy.specs, k.kind).value.role == RootRole <==> IndexOf(c.hierarchy.specs, k.kind) == 0
    ensures WellFormed(c.hierarchy.specs, t.(keys := t.keys[k.id := k]))
  {
    var t2 := t.(keys := t.keys[k.id := k]);
    forall j | j in t2.keys ensures Placed(c.hierarchy.specs, t2, j) {
      if j != k.id { assert Placed(c.hierarchy.specs, t, j); }
    }
  }

  lemma NewRowUnique(t: Tables, k: Key)
    requires NamesUnique(t) && !NameTaken(t, k.tenant, k.name)
    ensures NamesUnique(t.(keys := t.keys[k.id := k]))
  {
  }

  /** A freshly inserted row: nothing is claimed about it yet, and every other row stands. */
  lemma NewRowKeepsShape(c: Config, w: World, k: Key)
    requires Accepted(c) && Shape(c, w) && k.id !in w.root.keys && !NameTaken(w.root, k.tenant, k.name)
    requires FitsHierarchy(c.hierarchy.specs, w.root, k)
    ensures Shape(c, WithRow(w, k))
  {
    var w2 := WithRow(w, k);
    assert RowsKeyed(TablesAt(w, AtRoot));
    forall n: Node | IsNode(c, n) ensures RowsKeyed(TablesAt(w2, n)) {
      assert RowsKeyed(TablesAt(w, n));
    }
    BelowRoot(c, k.kind);
    NewRowPlaced(c, w.root, k);
    NewRowUnique(w.root, k);
  }

  lemma NewRowKeepsOrder(t: Tables, k: Key)
    requires VersionsInOrder(t) && k.id !in t.keys
    ensures VersionsInOrder(t.(keys := t.keys[k.id := k]))
  {
    var t2 := t.(keys := t.keys[k.id := k]);
    forall v | v in t2.versions ensures RowInOrder(t2, v) {
      assert RowInOrder(t, v);
    }
  }

  lemma NewRowKeepsVaults(c: Config, w: World, k: Key)
    requires VaultsInPlace(c, w) && k.id !in w.root.keys
    ensures VaultsInPlace(c, WithRow(w, k))
  {
    forall s | s in w.vaults ensures SlotInPlace(c, WithRow(w, k), s) {
      assert SlotInPlace(c, w, s);
    }
  }

  lemma NewRowKeepsMirrors(c: Config, w: World, k: Key)
    requires Sized(c, w) && Managed(c, w) && Mirrors(c, w) && ManagerKnown(c, k) && k.id !in w.root.keys
    ensures Managed(c, WithRow(w, k)) && Mirrors(c, WithRow(w, k))
  {
    var w2 := WithRow(w, k);
    forall i | i in w2.root.keys ensures ManagerKnown(c, w2.root.keys[i]) {
      if i != k.id { assert ManagerKnown(c, w.root.keys[i]); }
    }
    forall a, i | 0 <= a < |w2.agents| && i in w2.agents[a].keys
      ensures i in w2.root.keys && w2.agents[a].keys[i].IsSame(w2.root.keys[i]) && w2.root.keys[i].managedBy == c.agents[a].name
    {
      assert i in w.agents[a].keys;
    }
  }

  lemma NewRowKeepsMaterial(c: Config, w: World, k: Key)
    requires Sized(c, w) && VersionsInOrder(w.root) && MaterialStored(c, w) && k.id !in w.root.keys
    ensures MaterialStored(c, WithRow(w, k))
  {
    forall v | v in w.root.versions ensures v.keyId != k.id {
      assert RowInOrder(w.root, v);
    }
  }

  lemma NewRowKeepsInv(c: Config, w: World, k: Key)
    requires Accepted(c) && Inv(c, w) && k.id !in w.root.keys && !NameTaken(w.root, k.tenant, k.name)
    requires FitsHierarchy(c.hierarchy.specs, w.root, k) && ManagerKnown(c, k) && k.status == Pending
    requires forall p | p in w.jobs && p.id == k.id :: p.IsSame(k)
    ensures Inv(c, WithRow(w, k))
  {
    NewRowKeepsShape(c, w, k);
    NewRowKeepsOrder(w.root, k);
    NewRowKeepsMirrors(c, w, k);
    NewRowKeepsMaterial(c, w, k);
    NewRowKeepsVaults(c, w, k);
    NewRowKeepsClaims(c, w, k);
  }

  lemma NewRowKeepsClaims(c: Config, w: World, k: Key)
    requires Inv(c, w) && k.id !in w.root.keys && k.status == Pending
    ensures Sized(c, WithRow(w, k)) && Agreement(c, WithRow(w, k)) && SettledVersions(WithRow(w, k).root)
  {
    var w2 := WithRow(w, k);
    forall j | j in w2.root.keys ensures Agrees(c, w2, j) && LatestFollows(w2.root, j) {
      if j != k.id {
        assert Agrees(c, w, j) && LatestFollows(w.root, j);
        UntouchedKey(c, w, w2, j);
      }
    }
  }

  lemma JobKeepsInv(c: Config, w: World, p: Key)
    requires Inv(c, w) && p.life == PreActivation && (p.id in w.root.keys ==> p.IsSame(w.root.keys[p.id]))
    ensures Inv(c, w.(jobs := w.jobs + {p}))
  {
    var w2 := w.(jobs := w.jobs + {p});
    forall n: Node | IsNode(c, n) ensures RowsKeyed(TablesAt(w2, n)) {
      assert RowsKeyed(TablesAt(w, n));
    }
    VaultsIgnoreAgents(c, w, w2);
    forall j | j in w2.root.keys ensures Agrees(c, w2, j) && LatestFollows(w2.root, j) {
      assert Agrees(c, w, j) && LatestFollows(w.root, j);
      UntouchedKey(c, w, w2, j);
    }
  }

  /** The announced target manages the kind, so a key of the root kind is the root's. */
  lemma AnnouncedManagerKnown(c: Config, req: AnnounceRequest, id: Uuid, now: int)
    requires Deployed(c) && ValidAnnounce(c, req)
    ensures ManagerKnown(c, NewKey(c, req, id, now))
  {
    if req.target != "" {
      var a := FindAgent(c.agents, req.target).value;
      assert AgentSegmentOk(c.hierarchy.specs, c.agents[a].segment, c.agents[a].bindings);
    }
  }

  /** An announce that meets a row of its own name adopts that row and resets its states. */
  lemma ReannounceKeepsInv(c: Config, w: World, i: Uuid)
    requires Inv(c, w) && i in w.root.keys
    ensures Inv(c, w.(root := SetStates(w.root, i, PreActivation, Pending)))
  {
    OnlyStatesOfOne(w, i, PreActivation, Pending);
    UnsettledKeepsInv(c, w, w.(root := SetStates(w.root, i, PreActivation, Pending)));
  }

  /** What an accepted announce does: prepare the job, then insert or adopt the row. */
  lemma AnnounceCases(c: Config, w: World, req: AnnounceRequest, id: Uuid, now: int, f: AnnounceFaults)
    requires id !in w.root.keys
    ensures var k, w2 := NewKey(c, req, id, now), Announce(c, w, req, id, now, f);
            || w2 == w
            || (ValidAnnounce(c, req) && FitsHierarchy(c.hierarchy.specs, w.root, k)
                && if NameTaken(w.root, k.tenant, k.name) then
                     var i := IdByName(w.root, k.tenant, k.name);
                     var w1 := w.(jobs := w.jobs + {k.(id := i)});
                     && w.root.keys[i].IsSame(k)
                     && w2 in {w1, w1.(root := SetStates(w.root, i, PreActivation, Pending)),
                               w.(root := SetStates(w.root, i, PreActivation, Pending))}
                   else
                     var w1 := w.(jobs := w.jobs + {k});
                     w2 in {w1, WithRow(w1, k), WithRow(w, k)})
  {
  }

  lemma AdoptedKeepsInv(c: Config, w: World, i: Uuid, p: Key)
    requires Inv(c, w) && i in w.root.keys && p.id == i && p.life == PreActivation && p.IsSame(w.root.keys[i])
    ensures var w1 := w.(jobs := w.jobs + {p});
            && Inv(c, w1) && Inv(c, w1.(root := SetStates(w.root, i, PreActivation, Pending)))
            && Inv(c, w.(root := SetStates(w.root, i, PreActivation, Pending)))
  {
    JobKeepsInv(c, w, p);
    ReannounceKeepsInv(c, w, i);
    ReannounceKeepsInv(c, w.(jobs := w.jobs + {p}), i);
  }

  lemma InsertedKeepsInv(c: Config, w: World, k: Key)
    requires Accepted(c) && Inv(c, w) && k.id !in w.root.keys && !NameTaken(w.root, k.tenant, k.name)
    requires FitsHierarchy(c.hierarchy.specs, w.root, k) && ManagerKnown(c, k)
    requires k.life == PreActivation && k.status == Pending && forall p | p in w.jobs :: p.id != k.id
    ensures var w1 := w.(jobs := w.jobs + {k});
            Inv(c, w1) && Inv(c, WithRow(w1, k)) && Inv(c, WithRow(w, k))
  {
    JobKeepsInv(c, w, k);
    NewRowKeepsInv(c, w, k);
    NewRowKeepsInv(c, w.(jobs := w.jobs + {k}), k);
  }

  lemma AnnounceKeepsInv(c: Config, w: World, req: AnnounceRequest, id: Uuid, now: int, f: AnnounceFaults)
    requires Deployed(c) && Inv(c, w) && id !in w.root.keys && forall p | p in w.jobs :: p.id != id
    ensures Inv(c, Announce(c, w, req, id, now, f))
  {
    AnnounceCases(c, w, req, id, now, f);
    var k, w2 := NewKey(c, req, id, now), Announce(c, w, req, id, now, f);
    if w2 != w {
      if NameTaken(w.root, k.tenant, k.name) {
        var i := IdByName(w.root, k.tenant, k.name);
        AdoptedKeepsInv(c, w, i, k.(id := i));
      } else {
        AnnouncedManagerKnown(c, req, id, now);
        InsertedKeepsInv(c, w, k);
      }
    }
  }

  lemma ConfirmKeepsInv(c: Config, w: World, p: Key, failed: bool)
    requires Inv(c, w)
    ensures Inv(c, ConfirmAnnounce(w, p, failed))
  {
    var k := GetKey(w.root, p.id, p.tenant);
    if k.Some? && k.value.status == Pending && !failed {
      OnlyStatesOfOne(w, p.id, k.value.life, InProgress);
      UnsettledKeepsInv(c, w, ConfirmAnnounce(w, p, failed));
    }
  }

  lemma PushTenantKeepsInv(c: Config, w: World, p: Key, f: AnnounceTaskFaults)
    requires Inv(c, w)
    ensures var r := PushTenant(c, w, p, f); Inv(c, r.world) && r.world == w.(agents := r.world.agents)
  {
    if p.managedBy != c.name && FindAgent(c.agents, p.managedBy).Some? {
      AgentTenantKeepsInv(c, w, FindAgent(c.agents, p.managedBy).value, p.tenant);
    }
  }

  lemma PushKeyKeepsInv(c: Config, w: World, p: Key, f: AnnounceTaskFaults)
    requires Inv(c, w) && p in w.jobs && p.id in w.root.keys && w.root.keys[p.id].life == PreActivation
    ensures var r := PushKey(c, w, p, f);
            && Inv(c, r.world) && r.world == w.(agents := r.world.agents)
            && (r.verdict == Done && p.managedBy != c.name ==>
                  var a := FindAgent(c.agents, p.managedBy);
                  && a.Some? && p.id in r.world.agents[a.value].keys
                  && r.world.agents[a.value].keys[p.id].life == PreActivation)
  {
    if p.managedBy != c.name && FindAgent(c.agents, p.managedBy).Some? {
      CallKeyKeepsInv(c, w, FindAgent(c.agents, p.managedBy).value, p, f.keyCall);
    }
  }

  lemma SettleKeepsInv(c: Config, w: World, p: Key, status: Status, f: AnnounceTaskFaults)
    requires Inv(c, w) && p in w.jobs && status in {Completed, Failed}
    requires p.id in w.root.keys && w.root.keys[p.id].life == PreActivation
    requires status == Completed && p.managedBy != c.name ==>
               var a := FindAgent(c.agents, p.managedBy);
               a.Some? && p.id in w.agents[a.value].keys && w.agents[a.value].keys[p.id].life == PreActivation
    ensures Inv(c, Settle(w, p, status, f).world)
  {
    var w2 := w.(root := SetStates(w.root, p.id, PreActivation, status));
    OnlyStatesOfOne(w, p.id, PreActivation, status);
    if status == Failed {
      UnsettledKeepsInv(c, w, w2);
    } else {
      SettledKeepsInv(c, w, w2, p.id);
    }
  }

  lemma PushAndSettleKeepInv(c: Config, w: World, p: Key, f: AnnounceTaskFaults)
    requires Inv(c, w) && p in w.jobs && p.id in w.root.keys && w.root.keys[p.id].life == PreActivation
    ensures var r := PushKey(c, w, p, f);
            && Inv(c, r.world)
            && Inv(c, Settle(r.world, p, Failed, f).world)
            && (r.verdict == Done ==> Inv(c, Settle(r.world, p, Completed, f).world))
  {
    PushKeyKeepsInv(c, w, p, f);
    var r := PushKey(c, w, p, f);
    SettleKeepsInv(c, r.world, p, Failed, f);
    if r.verdict == Done { SettleKeepsInv(c, r.world, p, Completed, f); }
  }

  /** Once the tenant is pushed, a delivery of the task ends there, or goes on to the row. */
  lemma AnnounceTaskCases(c: Config, w: World, p: Key, f: AnnounceTaskFaults)
    requires Sized(c, w)
    ensures var r, w1 := HandleAnnounce(c, w, p, f).world, PushTenant(c, w, p, f).world;
            || r in {w, w1}
            || (p.id in w1.root.keys && w1.root.keys[p.id].life == PreActivation
                && r in {Settle(w1, p, Failed, f).world, PushKey(c, w1, p, f).world,
                         Settle(PushKey(c, w1, p, f).world, p, Failed, f).world})
            || (p.id in w1.root.keys && w1.root.keys[p.id].life == PreActivation
                && PushKey(c, w1, p, f).verdict == Done
                && r == Settle(PushKey(c, w1, p, f).world, p, Completed, f).world)
  {
  }

  lemma AnnounceTaskKeepsInv(c: Config, w: World, p: Key, f: AnnounceTaskFaults)
    requires Inv(c, w) && p in w.jobs
    ensures Inv(c, HandleAnnounce(c, w, p, f).world)
  {
    AnnounceTaskCases(c, w, p, f);
    PushTenantKeepsInv(c, w, p, f);
    var w1 := PushTenant(c, w, p, f).world;
    if p.id in w1.root.keys && w1.root.keys[p.id].life == PreActivation {
      SettleKeepsInv(c, w1, p, Failed, f);
      PushAndSettleKeepInv(c, w1, p, f);
    }
  }

  // ------------------------------------------------------------------ the other steps

  lemma MovedSameRows(t: Tables, target: LifeCycle, tree: KeyTree)
    ensures SameRows(t, Moved(t, target, tree)) && Moved(t, target, tree).versions == t.versions
    ensures forall i | i in t.keys && Moved(t, target, tree).keys[i].status == Completed ::
              Moved(t, target, tree).keys[i] == t.keys[i]
  {
  }

  lemma ActionKeepsInv(c: Config, w: World, target: LifeCycle, tree: KeyTree)
    requires Inv(c, w)
    ensures Inv(c, w.(root := Moved(w.root, target, tree)))
  {
    MovedSameRows(w.root, target, tree);
    UnsettledKeepsInv(c, w, w.(root := Moved(w.root, target, tree)));
  }

  lemma TenantKeepsInv(c: Config, w: World, tenant: Uuid)
    requires Inv(c, w)
    ensures Inv(c, w.(root := w.root.(tenants := w.root.tenants + {tenant})))
  {
    var w2 := w.(root := w.root.(tenants := w.root.tenants + {tenant}));
    assert OnlyStates(w, w2);
    UnsettledKeepsInv(c, w, w2);
  }

  lemma StoreSpecKeepsInv(c: Config, w: World, kid: KeyIdentifier, spec: ProviderSpec)
    requires Inv(c, w)
    ensures Inv(c, StoreSpec(w, kid, spec))
  {
    VaultWriteKeepsInv(c, w, ProviderSlot(kid.tenant, kid.id), Provider(spec));
  }

  /** The next version of a root key that is settled and active, or the first of one that is not yet
      active. */
  lemma ProviderVersionKeepsInv(c: Config, w: World, kid: KeyIdentifier, version: nat, providerKey: ProviderKey, f: ProviderFaults)
    requires Inv(c, w) && GetKey(w.root, kid.id, kid.tenant).Some? && OfRootKind(c, w, kid) && version > 0
    requires var k := w.root.keys[kid.id]; k.life == PreActivation || (k.life == Active && k.status == Completed)
    requires forall v: VersionId | v in w.root.versions && v.keyId == kid.id :: v.version < version
    requires version > 1 ==> VersionId(kid.tenant, kid.id, version - 1, 1) in w.root.versions
    ensures Inv(c, InsertProviderVersion(w, kid, version, providerKey, f))
  {
    var kv := ProviderVersion(kid, version, providerKey);
    var t := InsertVersion(w.root, kv);
    assert Placed(c.hierarchy.specs, w.root, kid.id);
    assert ManagerKnown(c, w.root.keys[kid.id]);
    assert RowInOrder(t, kv.id);
    assert IsNewest(t, kid.tenant, kid.id, LATEST, kv.id);
    NewestIs(t, kid.tenant, kid.id, LATEST, kv.id);
    InsertKeepsInv(c, w, kv);
  }

  /** Versions have no gap below them. */
  lemma {:induction false} VersionsReachDown(t: Tables, v: VersionId, n: nat)
    requires VersionsInOrder(t) && v in t.versions && 1 <= n <= v.version
    ensures v.(version := n) in t.versions
    decreases v.version
  {
    assert RowInOrder(t, v);
    if n < v.version { VersionsReachDown(t, v.(version := v.version - 1), n); }
  }

  lemma NoneWithoutFirst(t: Tables, i: Uuid)
    requires VersionsInOrder(t) && i in t.keys && VersionId(t.keys[i].tenant, i, 1, 1) !in t.versions
    ensures forall v | v in t.versions :: v.keyId != i
  {
    forall v | v in t.versions ensures v.keyId != i {
      assert RowInOrder(t, v);
      if v.keyId == i {
        VersionsReachDown(t, v, 1);
        assert false;
      }
    }
  }

  lemma CreateProviderKeepsInv(c: Config, w: World, kid: KeyIdentifier, spec: ProviderSpec, providerKey: string, f: ProviderFaults)
    requires Inv(c, w) && OfRootKind(c, w, kid)
    ensures Inv(c, CreateProvider(w, kid, spec, providerKey, f))
  {
    StoreSpecKeepsInv(c, w, kid, spec);
    var w1 := StoreSpec(w, kid, spec);
    if MayUse(w.root, kid, Link) && VersionId(kid.tenant, kid.id, 1, 1) !in w.root.versions {
      NoneWithoutFirst(w.root, kid.id);
      ProviderVersionKeepsInv(c, w1, kid, 1, ProviderKey(spec.kind, providerKey), f);
    }
  }

  /** The latest version bounds all versions of its key. */
  lemma LatestBounds(t: Tables, i: Uuid)
    requires VersionsInOrder(t) && i in t.keys && Newest(t, t.keys[i].tenant, i, LATEST).Some?
    requires forall v | v in t.versions :: t.versions[v].id == v
    ensures var latest := Newest(t, t.keys[i].tenant, i, LATEST).value;
            && latest.id == VersionId(t.keys[i].tenant, i, latest.id.version, 1) && latest.id in t.versions
            && latest.id.version > 0 && t.versions[latest.id] == latest
            && forall u: VersionId | u in t.versions && u.keyId == i :: u.version <= latest.id.version
  {
    var tenant := t.keys[i].tenant;
    var v :| IsNewest(t, tenant, i, LATEST, v) && Newest(t, tenant, i, LATEST).value == t.versions[v];
    assert RowInOrder(t, v);
    forall u: VersionId | u in t.versions && u.keyId == i ensures u.version <= v.version {
      assert RowInOrder(t, u);
      assert Listed(t, tenant, i, LATEST, u);
    }
  }

  lemma NextProviderVersionKeepsInv(c: Config, w: World, kid: KeyIdentifier, latest: KeyVersion, providerKey: ProviderKey, f: ProviderFaults)
    requires Inv(c, w) && OfRootKind(c, w, kid) && GetKey(w.root, kid.id, kid.tenant).Some?
    requires w.root.keys[kid.id].life == Active && w.root.keys[kid.id].status == Completed
    requires Newest(w.root, kid.tenant, kid.id, LATEST) == Some(latest)
    ensures Inv(c, InsertProviderVersion(w, kid, latest.id.version + 1, providerKey, f))
  {
    assert RowsKeyed(TablesAt(w, AtRoot));
    LatestBounds(w.root, kid.id);
    ProviderVersionKeepsInv(c, w, kid, latest.id.version + 1, providerKey, f);
  }

  lemma RotateKeyCases(w: World, kid: KeyIdentifier, kind: string, providerKey: string, f: ProviderFaults)
    ensures var r, latest := RotateProviderKey(w, kid, kind, providerKey, f), Newest(w.root, kid.tenant, kid.id, LATEST);
            || r == w
            || (latest.Some? && MayUse(w.root, kid, Rotate)
                && GetKey(w.root, kid.id, kid.tenant).Some?
                && w.root.keys[kid.id].life == Active && w.root.keys[kid.id].status == Completed
                && r == InsertProviderVersion(w, kid, latest.value.id.version + 1, ProviderKey(kind, providerKey), f))
  {
  }

  lemma RotatedKeepsInv(c: Config, w: World, kid: KeyIdentifier, providerKey: ProviderKey, f: ProviderFaults, w2: World)
    requires Inv(c, w) && OfRootKind(c, w, kid) && GetKey(w.root, kid.id, kid.tenant).Some?
    requires w.root.keys[kid.id].life == Active && w.root.keys[kid.id].status == Completed
    requires var latest := Newest(w.root, kid.tenant, kid.id, LATEST);
             latest.Some? && w2 == InsertProviderVersion(w, kid, latest.value.id.version + 1, providerKey, f)
    ensures Inv(c, w2)
  {
    NextProviderVersionKeepsInv(c, w, kid, Newest(w.root, kid.tenant, kid.id, LATEST).value, providerKey, f);
  }

  lemma RotateKeyKeepsInv(c: Config, w: World, kid: KeyIdentifier, kind: string, providerKey: string, f: ProviderFaults)
    requires Inv(c, w) && OfRootKind(c, w, kid)
    ensures Inv(c, RotateProviderKey(w, kid, kind, providerKey, f))
  {
    RotateKeyCases(w, kid, kind, providerKey, f);
    var w2 := RotateProviderKey(w, kid, kind, providerKey, f);
    if w2 != w { RotatedKeepsInv(c, w, kid, ProviderKey(kind, providerKey), f, w2); }
  }

  lemma RotateAuthKeepsInv(c: Config, w: World, kid: KeyIdentifier, kind: string, auth: nat, f: ProviderFaults)
    requires Inv(c, w)
    ensures Inv(c, RotateAuth(w, kid, kind, auth, f))
  {
    if Bound(w, kid) {
      StoreSpecKeepsInv(c, w, kid, w.vaults[ProviderSlot(kid.tenant, kid.id)].spec.(auth := auth));
    }
  }

  // ------------------------------------------------------------------ whole runs

  lemma StepKeepsInv(c: Config, w: World, s: Step)
    requires Deployed(c) && Inv(c, w) && Enabled(c, w, s)
    ensures Inv(c, Next(c, w, s))
  {
    match s
    case CreateTenantStep(t) => TenantKeepsInv(c, w, t);
    case AnnounceStep(req, id, now, f) => AnnounceKeepsInv(c, w, req, id, now, f);
    case ConfirmStep(p, failed) => ConfirmKeepsInv(c, w, p, failed);
    case AnnounceTaskStep(p, f) => AnnounceTaskKeepsInv(c, w, p, f);
    case ActionStep(a, kid, cascading, tree) => ActionKeepsInv(c, w, Target(a), tree);
    case TaskStep(a, kid, f) => TaskKeepsInv(c, w, Target(a), kid, f);
    case CreateProviderStep(kid, spec, pk, f) => CreateProviderKeepsInv(c, w, kid, spec, pk, f);
    case RotateAuthStep(kid, kind, auth, f) => RotateAuthKeepsInv(c, w, kid, kind, auth, f);
    case RotateKeyStep(kid, kind, pk, f) => RotateKeyKeepsInv(c, w, kid, kind, pk, f);
    case RemoveProviderStep(kid, f) => RemoveSpecKeepsInv(c, w, kid.tenant, kid.id);
  }

  /** Every world of every run satisfies the invariant. */
  lemma {:induction false} RunKeepsInv(c: Config, ws: seq<World>, steps: seq<Step>, i: nat)
    requires Deployed(c) && Run(c, ws, steps) && Initial(c, ws[0]) && i < |ws|
    ensures Inv(c, ws[i])
  {
    if i == 0 {
      InitialInv(c, ws[0]);
    } else {
      RunKeepsInv(c, ws, steps, i - 1);
      assert Taken(c, ws, steps, i - 1);
      StepKeepsInv(c, ws[i - 1], steps[i - 1]);
    }
  }
}
