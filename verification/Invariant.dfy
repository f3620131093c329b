/** What every reachable world keeps. */
module Invariant {
  import opened Model
  import opened Store
  import opened Hierarchy
  import opened Topology
  import opened Worlds
  import opened Envelope
  import opened Agent
  import opened Forest
  import opened Steps

  /** An accepted configuration in which no agent carries the root's own name. */
  ghost predicate Deployed(c: Config) {
    Accepted(c) && forall a | 0 <= a < |c.agents| :: c.agents[a].name != c.name
  }

  ghost predicate Shape(c: Config, w: World) {
    Sized(c, w) && AllRowsKeyed(c, w) && NamesUnique(w.root) && WellFormed(c.hierarchy.specs, w.root)
  }

  // ------------------------------------------------------------------ the parts

  /** The root key is the root's own; any other key is the root's or a known agent's. */
  ghost predicate ManagerKnown(c: Config, k: Key) {
    k.managedBy != c.name ==> FindAgent(c.agents, k.managedBy).Some? && IndexOf(c.hierarchy.specs, k.kind) > 0
  }

  ghost predicate Managed(c: Config, w: World) {
    forall i | i in w.root.keys :: ManagerKnown(c, w.root.keys[i])
  }

  /** A row an agent holds mirrors a root row of a key that agent manages. */
  ghost predicate Mirrors(c: Config, w: World)
    requires Sized(c, w)
  {
    && (forall a, i | 0 <= a < |w.agents| && i in w.agents[a].keys ::
          && i in w.root.keys && w.agents[a].keys[i].IsSame(w.root.keys[i])
          && w.root.keys[i].managedBy == c.agents[a].name)
    && (forall a, v | 0 <= a < |w.agents| && v in w.agents[a].versions ::
          && v.keyId in w.agents[a].keys && v.tenant == w.agents[a].keys[v.keyId].tenant
          && v.version > 0 && v.revision == 1
          && w.agents[a].versions[v].parentKey == w.agents[a].keys[v.keyId].parent)
  }

  /** A version of a key: first revision, no gap below it, pinned to an existing parent version. */
  ghost predicate RowInOrder(t: Tables, v: VersionId)
    requires v in t.versions
  {
    && v.keyId in t.keys && v.tenant == t.keys[v.keyId].tenant && v.version > 0 && v.revision == 1
    && (v.version > 1 ==> v.(version := v.version - 1) in t.versions)
    && t.versions[v].parentKey == t.keys[v.keyId].parent
    && match t.versions[v].parentKey
       case None => t.versions[v].parentVersion == None
       case Some(p) =>
         t.versions[v].parentVersion.Some? && VersionId(v.tenant, p, t.versions[v].parentVersion.value, 1) in t.versions
  }

  ghost predicate VersionsInOrder(t: Tables) {
    forall v {:trigger RowInOrder(t, v)} | v in t.versions :: RowInOrder(t, v)
  }

  /** A settled key past pre-activation has a latest version, usable and in the key's state. */
  ghost predicate LatestFollows(t: Tables, i: Uuid)
    requires i in t.keys
  {
    var k := t.keys[i];
    k.status == Completed && k.life != PreActivation ==>
      var latest := Newest(t, k.tenant, i, LATEST);
      latest.Some? && latest.value.life == k.life && latest.value.processing == Usable
  }

  ghost predicate SettledVersions(t: Tables) {
    forall i | i in t.keys :: LatestFollows(t, i)
  }

  /** The agent's rows for a key that the root shows as settled in state s. */
  ghost predicate AgentFollows(c: Config, w: World, a: nat, i: Uuid)
    requires a < |w.agents| && i in w.root.keys
  {
    var k, t := w.root.keys[i], w.agents[a];
    && i in t.keys && t.keys[i].life == k.life
    && (k.life != PreActivation ==>
          var latest := Newest(w.root, k.tenant, i, LATEST);
          && latest.Some? && latest.value.id in t.versions
          && t.versions[latest.value.id].life == k.life && t.versions[latest.value.id].processing == Usable
          && Slot(AtAgent(a), latest.value.id) in w.vaults && w.vaults[Slot(AtAgent(a), latest.value.id)].Sealed?)
  }

  ghost predicate Agrees(c: Config, w: World, i: Uuid)
    requires Sized(c, w) && i in w.root.keys
  {
    w.root.keys[i].managedBy != c.name && w.root.keys[i].status == Completed ==>
      var a := FindAgent(c.agents, w.root.keys[i].managedBy);
      a.Some? && AgentFollows(c, w, a.value, i)
  }

  ghost predicate Agreement(c: Config, w: World)
    requires Sized(c, w)
  {
    forall i | i in w.root.keys :: Agrees(c, w, i)
  }

  /** Every committed version of a key other than the root key has its secret in the vault of the node
      that manages it. */
  ghost predicate MaterialStored(c: Config, w: World)
    requires Sized(c, w)
  {
    && (forall v | v in w.root.versions && v.keyId in w.root.keys && w.root.keys[v.keyId].managedBy == c.name
                   && IndexOf(c.hierarchy.specs, w.root.keys[v.keyId].kind) > 0 ::
          Slot(AtRoot, v) in w.vaults && w.vaults[Slot(AtRoot, v)].Sealed?)
    && (forall a, v | 0 <= a < |w.agents| && v in w.agents[a].versions ::
          Slot(AtAgent(a), v) in w.vaults && w.vaults[Slot(AtAgent(a), v)].Sealed?)
  }

  /** Provider specs sit at version 0 of the root's vault, secrets at the versions of keys their node
      manages. */
  ghost predicate SlotInPlace(c: Config, w: World, s: Slot)
    requires s in w.vaults
  {
    if w.vaults[s].Provider? then s.node == AtRoot && s.id.version == 0
    else
      && s.id.version > 0 && s.id.keyId in w.root.keys
      && IndexOf(c.hierarchy.specs, w.root.keys[s.id.keyId].kind) > 0
      && match s.node
         case AtRoot => w.root.keys[s.id.keyId].managedBy == c.name
         case AtAgent(a) => a < |c.agents| && w.root.keys[s.id.keyId].managedBy == c.agents[a].name
  }

  ghost predicate VaultsInPlace(c: Config, w: World) {
    forall s {:trigger SlotInPlace(c, w, s)} | s in w.vaults :: SlotInPlace(c, w, s)
  }

  /** A prepared job describes the row it was prepared for, if that row was ever committed. */
  ghost predicate JobsKnown(w: World) {
    forall p | p in w.jobs :: p.life == PreActivation && (p.id in w.root.keys ==> p.IsSame(w.root.keys[p.id]))
  }

  ghost predicate Inv(c: Config, w: World) {
    && Shape(c, w)
    && Managed(c, w)
    && Mirrors(c, w)
    && VersionsInOrder(w.root)
    && SettledVersions(w.root)
    && Agreement(c, w)
    && MaterialStored(c, w)
    && VaultsInPlace(c, w)
    && JobsKnown(w)
  }

  lemma InitialInv(c: Config, w: World)
    requires Initial(c, w)
    ensures Inv(c, w)
  {
    forall n: Node | IsNode(c, n) ensures RowsKeyed(TablesAt(w, n)) {
    }
  }

  // ------------------------------------------------------------------ root rows change state

  /** The same rows, perhaps in other states. */
  ghost predicate SameRows(t: Tables, t2: Tables) {
    && t.tenants <= t2.tenants
    && t2.keys.Keys == t.keys.Keys && t2.versions.Keys == t.versions.Keys
    && (forall i | i in t.keys :: t2.keys[i].id == t.keys[i].id && t2.keys[i].IsSame(t.keys[i]))
    && (forall v | v in t.versions :: SamePins(t2.versions[v], t.versions[v]))
  }

  ghost predicate OnlyStates(w: World, w2: World) {
    SameRows(w.root, w2.root) && w2 == w.(root := w2.root)
  }

  lemma OnlyStatesOfOne(w: World, i: Uuid, life: LifeCycle, status: Status)
    requires i in w.root.keys
    ensures OnlyStates(w, w.(root := SetStates(w.root, i, life, status)))
  {
  }

  lemma StatesKeepShape(c: Config, w: World, w2: World)
    requires Shape(c, w) && OnlyStates(w, w2)
    ensures Shape(c, w2)
  {
    forall n: Node | IsNode(c, n) ensures RowsKeyed(TablesAt(w2, n)) {
      assert RowsKeyed(TablesAt(w, n)) && RowsKeyed(TablesAt(w, AtRoot));
    }
    forall j | j in w2.root.keys ensures Placed(c.hierarchy.specs, w2.root, j) {
      assert Placed(c.hierarchy.specs, w.root, j);
    }
    assert RowsKeyed(TablesAt(w, AtRoot));
  }

  lemma StatesKeepOrder(t: Tables, t2: Tables)
    requires VersionsInOrder(t) && SameRows(t, t2)
    ensures VersionsInOrder(t2)
  {
    forall v | v in t2.versions ensures RowInOrder(t2, v) {
      assert RowInOrder(t, v);
    }
  }

  lemma StatesKeepMirrors(c: Config, w: World, w2: World)
    requires Sized(c, w) && Managed(c, w) && Mirrors(c, w) && JobsKnown(w) && OnlyStates(w, w2)
    ensures Managed(c, w2) && Mirrors(c, w2) && JobsKnown(w2)
  {
  }

  lemma StatesKeepVaults(c: Config, w: World, w2: World)
    requires Sized(c, w) && MaterialStored(c, w) && VaultsInPlace(c, w) && OnlyStates(w, w2)
    ensures MaterialStored(c, w2) && VaultsInPlace(c, w2)
  {
    forall s | s in w2.vaults ensures SlotInPlace(c, w2, s) {
      assert SlotInPlace(c, w, s);
    }
  }

  /** Only what a state change can break remains to be shown for it. */
  lemma StatesKeepInv(c: Config, w: World, w2: World)
    requires Inv(c, w) && OnlyStates(w, w2) && SettledVersions(w2.root) && Agreement(c, w2)
    ensures Inv(c, w2)
  {
    StatesKeepShape(c, w, w2);
    StatesKeepOrder(w.root, w2.root);
    StatesKeepMirrors(c, w, w2);
    StatesKeepVaults(c, w, w2);
  }

  /** The claims about one key survive as long as its own rows are untouched. */
  lemma UntouchedKey(c: Config, w: World, w2: World, i: Uuid)
    requires Sized(c, w) && Sized(c, w2) && i in w.root.keys && i in w2.root.keys
    requires Agrees(c, w, i) && LatestFollows(w.root, i)
    requires w2.root.keys[i] == w.root.keys[i]
    requires forall v: VersionId | v.keyId == i :: v in w.root.versions <==> v in w2.root.versions
    requires forall v: VersionId | v.keyId == i && v in w.root.versions :: w2.root.versions[v] == w.root.versions[v]
    requires AllRowsKeyed(c, w)
    requires forall a | 0 <= a < |w.agents| :: AgentUntouched(w, w2, a, i)
    ensures Agrees(c, w2, i) && LatestFollows(w2.root, i)
  {
    assert RowsKeyed(TablesAt(w, AtRoot));
    NewestElsewhere(w.root, w2.root, w.root.keys[i].tenant, i, LATEST);
    var a := FindAgent(c.agents, w.root.keys[i].managedBy);
    if a.Some? {
      assert AgentUntouched(w, w2, a.value, i);
    }
  }

  ghost predicate AgentUntouched(w: World, w2: World, a: nat, i: Uuid)
    requires a < |w.agents| && a < |w2.agents|
  {
    && (i in w.agents[a].keys ==> i in w2.agents[a].keys && w2.agents[a].keys[i] == w.agents[a].keys[i])
    && (forall v: VersionId | v.keyId == i && v in w.agents[a].versions ::
          v in w2.agents[a].versions && w2.agents[a].versions[v] == w.agents[a].versions[v])
    && (forall s: Slot | s.id.keyId == i && s in w.vaults && w.vaults[s].Sealed? ::
          s in w2.vaults && w2.vaults[s].Sealed?)
  }

  /** Moving any rows to states other than completed. */
  lemma UnsettledKeepsInv(c: Config, w: World, w2: World)
    requires Inv(c, w) && OnlyStates(w, w2) && w2.root.versions == w.root.versions
    requires forall i | i in w.root.keys && w2.root.keys[i].status == Completed :: w2.root.keys[i] == w.root.keys[i]
    ensures Inv(c, w2)
  {
    forall i | i in w2.root.keys ensures Agrees(c, w2, i) && LatestFollows(w2.root, i) {
      if w2.root.keys[i].status == Completed {
        assert Agrees(c, w, i) && LatestFollows(w.root, i);
        UntouchedKey(c, w, w2, i);
      }
    }
    StatesKeepInv(c, w, w2);
  }

  /** Moving one row, its claims shown for the new states. */
  lemma SettledKeepsInv(c: Config, w: World, w2: World, i: Uuid)
    requires Inv(c, w) && OnlyStates(w, w2) && i in w.root.keys
    requires forall j | j in w.root.keys && j != i :: w2.root.keys[j] == w.root.keys[j]
    requires forall v | v in w.root.versions && v.keyId != i :: w2.root.versions[v] == w.root.versions[v]
    requires Agrees(c, w2, i) && LatestFollows(w2.root, i)
    ensures Inv(c, w2)
  {
    forall j | j in w2.root.keys ensures Agrees(c, w2, j) && LatestFollows(w2.root, j) {
      if j != i {
        assert Agrees(c, w, j) && LatestFollows(w.root, j);
        UntouchedKey(c, w, w2, j);
      }
    }
    StatesKeepInv(c, w, w2);
  }

  // ------------------------------------------------------------------ root versions are inserted

  lemma InsertKeepsShape(c: Config, w: World, kv: KeyVersion)
    requires Shape(c, w)
    ensures Shape(c, w.(root := InsertVersion(w.root, kv)))
  {
    var w2 := w.(root := InsertVersion(w.root, kv));
    forall n: Node | IsNode(c, n) ensures RowsKeyed(TablesAt(w2, n)) {
      assert RowsKeyed(TablesAt(w, n)) && RowsKeyed(TablesAt(w, AtRoot));
    }
    forall j | j in w2.root.keys ensures Placed(c.hierarchy.specs, w2.root, j) {
      assert Placed(c.hierarchy.specs, w.root, j);
    }
  }

  lemma InsertKeepsOrder(t: Tables, kv: KeyVersion)
    requires VersionsInOrder(t) && kv.id !in t.versions && RowInOrder(InsertVersion(t, kv), kv.id)
    ensures VersionsInOrder(InsertVersion(t, kv))
  {
    var t2 := InsertVersion(t, kv);
    forall v | v in t2.versions ensures RowInOrder(t2, v) {
      if v != kv.id { assert RowInOrder(t, v); }
    }
  }

  lemma InsertKeepsMaterial(c: Config, w: World, kv: KeyVersion)
    requires Sized(c, w) && MaterialStored(c, w) && MaterialReady(c, w, kv.id)
    ensures MaterialStored(c, w.(root := InsertVersion(w.root, kv)))
  {
  }

  lemma InsertKeepsVaults(c: Config, w: World, kv: KeyVersion)
    requires VaultsInPlace(c, w)
    ensures VaultsInPlace(c, w.(root := InsertVersion(w.root, kv)))
  {
    var w2 := w.(root := InsertVersion(w.root, kv));
    forall s | s in w2.vaults ensures SlotInPlace(c, w2, s) {
      assert SlotInPlace(c, w, s);
    }
  }

  /** The secret a new version of a key the root manages must have. */
  ghost predicate MaterialReady(c: Config, w: World, v: VersionId) {
    && v.keyId in w.root.keys
    && (w.root.keys[v.keyId].managedBy == c.name && IndexOf(c.hierarchy.specs, w.root.keys[v.keyId].kind) > 0 ==>
          Slot(AtRoot, v) in w.vaults && w.vaults[Slot(AtRoot, v)].Sealed?)
  }

  lemma InsertKeepsClaims(c: Config, w: World, kv: KeyVersion)
    requires Sized(c, w) && AllRowsKeyed(c, w) && Agreement(c, w) && SettledVersions(w.root)
    requires var w2 := w.(root := InsertVersion(w.root, kv));
             kv.id.keyId in w.root.keys ==> Agrees(c, w2, kv.id.keyId) && LatestFollows(w2.root, kv.id.keyId)
    ensures var w2 := w.(root := InsertVersion(w.root, kv)); Agreement(c, w2) && SettledVersions(w2.root)
  {
    var w2 := w.(root := InsertVersion(w.root, kv));
    forall j | j in w2.root.keys ensures Agrees(c, w2, j) && LatestFollows(w2.root, j) {
      if j != kv.id.keyId {
        assert Agrees(c, w, j) && LatestFollows(w.root, j);
        UntouchedKey(c, w, w2, j);
      }
    }
  }

  /** A new version row, with its material in place when the root manages the key. */
  lemma InsertKeepsInv(c: Config, w: World, kv: KeyVersion)
    requires Inv(c, w) && kv.id !in w.root.versions && RowInOrder(InsertVersion(w.root, kv), kv.id)
    requires MaterialReady(c, w, kv.id)
    requires var w2 := w.(root := InsertVersion(w.root, kv));
             Agrees(c, w2, kv.id.keyId) && LatestFollows(w2.root, kv.id.keyId)
    ensures Inv(c, w.(root := InsertVersion(w.root, kv)))
  {
    InsertKeepsShape(c, w, kv);
    InsertKeepsOrder(w.root, kv);
    InsertKeepsMaterial(c, w, kv);
    InsertKeepsVaults(c, w, kv);
    InsertKeepsClaims(c, w, kv);
  }

  // ------------------------------------------------------------------ vaults are written

  lemma VaultWriteKeepsInv(c: Config, w: World, s: Slot, e: Entry)
    requires Inv(c, w) && SlotInPlace(c, w.(vaults := w.vaults[s := e]), s)
    ensures Inv(c, w.(vaults := w.vaults[s := e]))
  {
    var w2 := w.(vaults := w.vaults[s := e]);
    VaultWriteKeepsVaults(c, w, s, e);
    VaultWriteKeepsShape(c, w, s, e);
    forall j | j in w2.root.keys ensures Agrees(c, w2, j) && LatestFollows(w2.root, j) {
      assert Agrees(c, w, j) && LatestFollows(w.root, j);
      SlotKindFixed(c, w, s, e, j);
      UntouchedKey(c, w, w2, j);
    }
  }

  /** A write replaces secrets by secrets and specs by specs. */
  lemma SlotKindFixed(c: Config, w: World, s: Slot, e: Entry, j: Uuid)
    requires VaultsInPlace(c, w) && SlotInPlace(c, w.(vaults := w.vaults[s := e]), s)
    ensures forall u: Slot | u in w.vaults && w.vaults[u].Sealed? :: w.vaults[s := e][u].Sealed?
    ensures var w2 := w.(vaults := w.vaults[s := e]);
            forall a | 0 <= a < |w.agents| :: AgentUntouched(w, w2, a, j)
  {
    if s in w.vaults { assert SlotInPlace(c, w, s); }
  }

  lemma VaultWriteKeepsVaults(c: Config, w: World, s: Slot, e: Entry)
    requires Sized(c, w) && MaterialStored(c, w) && VaultsInPlace(c, w) && SlotInPlace(c, w.(vaults := w.vaults[s := e]), s)
    ensures var w2 := w.(vaults := w.vaults[s := e]); MaterialStored(c, w2) && VaultsInPlace(c, w2)
  {
    var w2 := w.(vaults := w.vaults[s := e]);
    if s in w.vaults { assert SlotInPlace(c, w, s); }
    forall u | u in w2.vaults ensures SlotInPlace(c, w2, u) {
      if u != s { assert SlotInPlace(c, w, u); }
    }
  }

  lemma VaultWriteKeepsShape(c: Config, w: World, s: Slot, e: Entry)
    requires Shape(c, w)
    ensures Shape(c, w.(vaults := w.vaults[s := e]))
  {
    var w2 := w.(vaults := w.vaults[s := e]);
    forall n: Node | IsNode(c, n) ensures RowsKeyed(TablesAt(w2, n)) {
      assert RowsKeyed(TablesAt(w, n));
    }
  }

  lemma RemoveSpecKeepsInv(c: Config, w: World, tenant: Uuid, keyId: Uuid)
    requires Inv(c, w)
    ensures Inv(c, w.(vaults := w.vaults - {ProviderSlot(tenant, keyId)}))
  {
    var w2 := w.(vaults := w.vaults - {ProviderSlot(tenant, keyId)});
    forall n: Node | IsNode(c, n) ensures RowsKeyed(TablesAt(w2, n)) {
      assert RowsKeyed(TablesAt(w, n));
    }
    SpecRemoved(c, w, tenant, keyId);
    forall j | j in w2.root.keys ensures Agrees(c, w2, j) && LatestFollows(w2.root, j) {
      assert Agrees(c, w, j) && LatestFollows(w.root, j);
      UntouchedKey(c, w, w2, j);
    }
  }

  lemma SpecRemoved(c: Config, w: World, tenant: Uuid, keyId: Uuid)
    requires Sized(c, w) && MaterialStored(c, w) && VaultsInPlace(c, w)
    ensures var w2 := w.(vaults := w.vaults - {ProviderSlot(tenant, keyId)});
            && MaterialStored(c, w2) && VaultsInPlace(c, w2)
            && forall a, i | 0 <= a < |w.agents| :: AgentUntouched(w, w2, a, i)
  {
    var s := ProviderSlot(tenant, keyId);
    if s in w.vaults { assert SlotInPlace(c, w, s); }
    forall u | u in w.vaults && u != s ensures SlotInPlace(c, w.(vaults := w.vaults - {s}), u) {
      assert SlotInPlace(c, w, u);
    }
  }

  // ------------------------------------------------------------------ agents are written

  /** A call to an agent about a key that this agent manages, as the root stores it. */
  ghost predicate CallFor(c: Config, w: World, a: nat, k: Key) {
    && a < |w.agents| && k.id in w.root.keys && k.IsSame(w.root.keys[k.id])
    && FindAgent(c.agents, k.managedBy) == Some(a)
  }

  /** Names and ids at the agent belong together, so a mirrored row is never in the way. */
  lemma NameIsItsOwn(c: Config, w: World, a: nat, k: Key)
    requires Shape(c, w) && Mirrors(c, w) && CallFor(c, w, a, k)
    ensures NameTaken(w.agents[a], k.tenant, k.name) ==>
              IdByName(w.agents[a], k.tenant, k.name) == k.id && w.agents[a].keys[k.id].IsSame(k)
    ensures k.id in w.agents[a].keys ==> NameTaken(w.agents[a], k.tenant, k.name)
  {
    var t := w.agents[a];
    if NameTaken(t, k.tenant, k.name) {
      var i := IdByName(t, k.tenant, k.name);
      assert t.keys[i].IsSame(w.root.keys[i]);
      assert i == k.id;
    }
    if k.id in t.keys { assert t.keys[k.id].IsSame(w.root.keys[k.id]); }
  }

  /** Among mirrored rows the name leads to the row with the same id, so an upsert always lands there. */
  lemma UpsertLandsOnRow(c: Config, w: World, a: nat, k: Key, f: KeyFaults)
    requires Shape(c, w) && Mirrors(c, w) && CallFor(c, w, a, k)
    ensures var (t, reply) := UpsertOn(w.agents[a], k, f);
            && (reply.Applied? ==> k.id in t.keys && t.keys[k.id].life == k.life)
            && (t == w.agents[a] || t == w.agents[a].(keys := w.agents[a].keys[k.id := t.keys[k.id]]))
            && (k.id in t.keys && t != w.agents[a] ==>
                  t.keys[k.id].IsSame(k) && t.keys[k.id].life == k.life && t.keys[k.id].id == k.id)
            && (t != w.agents[a] ==> k.id in t.keys)
  {
    NameIsItsOwn(c, w, a, k);
    assert RowsKeyed(TablesAt(w, AtAgent(a)));
  }

  /** Replacing one agent's tables; the other agents' stay. */
  function WithAgent(w: World, a: nat, t: Tables): (w2: World)
    requires a < |w.agents|
  {
    w.(agents := w.agents[a := t])
  }

  lemma AgentRowsKeyed(c: Config, w: World, a: nat, t: Tables)
    requires Shape(c, w) && a < |w.agents| && RowsKeyed(t)
    ensures Shape(c, WithAgent(w, a, t))
  {
    var w2 := WithAgent(w, a, t);
    forall n: Node | IsNode(c, n) ensures RowsKeyed(TablesAt(w2, n)) {
      assert RowsKeyed(TablesAt(w, n));
    }
  }

  lemma VaultsIgnoreAgents(c: Config, w: World, w2: World)
    requires VaultsInPlace(c, w) && w2.root == w.root && w2.vaults == w.vaults
    ensures VaultsInPlace(c, w2)
  {
    forall s | s in w2.vaults ensures SlotInPlace(c, w2, s) {
      assert SlotInPlace(c, w, s);
    }
  }

  lemma AgentKeyMirrors(c: Config, w: World, a: nat, k: Key, row: Key)
    requires Shape(c, w) && Mirrors(c, w) && MaterialStored(c, w) && VaultsInPlace(c, w) && CallFor(c, w, a, k)
    requires row.id == k.id && row.IsSame(k)
    ensures var w2 := WithAgent(w, a, w.agents[a].(keys := w.agents[a].keys[k.id := row]));
            Shape(c, w2) && Mirrors(c, w2) && MaterialStored(c, w2) && VaultsInPlace(c, w2)
  {
    var w2 := WithAgent(w, a, w.agents[a].(keys := w.agents[a].keys[k.id := row]));
    assert RowsKeyed(TablesAt(w, AtAgent(a)));
    AgentRowsKeyed(c, w, a, w2.agents[a]);
    VaultsIgnoreAgents(c, w, w2);
  }

  /** Writing the agent's row of a key that is not settled at the root, or is settled in that state. */
  lemma AgentKeyKeepsInv(c: Config, w: World, a: nat, k: Key, row: Key)
    requires Inv(c, w) && CallFor(c, w, a, k) && row.id == k.id && row.IsSame(k)
    requires w.root.keys[k.id].status != Completed || w.root.keys[k.id].life == row.life
    ensures Inv(c, WithAgent(w, a, w.agents[a].(keys := w.agents[a].keys[k.id := row])))
  {
    var w2 := WithAgent(w, a, w.agents[a].(keys := w.agents[a].keys[k.id := row]));
    AgentKeyMirrors(c, w, a, k, row);
    forall j | j in w2.root.keys ensures Agrees(c, w2, j) && LatestFollows(w2.root, j) {
      assert Agrees(c, w, j) && LatestFollows(w.root, j);
      if j != k.id { UntouchedKey(c, w, w2, j); }
    }
  }

  lemma AgentTenantKeepsInv(c: Config, w: World, a: nat, tenant: Uuid)
    requires Inv(c, w) && a < |w.agents|
    ensures Inv(c, WithAgent(w, a, w.agents[a].(tenants := w.agents[a].tenants + {tenant})))
  {
    var w2 := WithAgent(w, a, w.agents[a].(tenants := w.agents[a].tenants + {tenant}));
    assert RowsKeyed(TablesAt(w, AtAgent(a)));
    AgentRowsKeyed(c, w, a, w2.agents[a]);
    VaultsIgnoreAgents(c, w, w2);
    forall j | j in w2.root.keys ensures Agrees(c, w2, j) && LatestFollows(w2.root, j) {
      assert Agrees(c, w, j) && LatestFollows(w.root, j);
      UntouchedKey(c, w, w2, j);
    }
  }

  /** A version row an agent may hold for one of its keys. */
  ghost predicate AgentRow(w: World, a: nat, kv: KeyVersion) {
    && a < |w.agents| && kv.id.keyId in w.agents[a].keys && kv.id.tenant == w.agents[a].keys[kv.id.keyId].tenant
    && kv.id.version > 0 && kv.id.revision == 1 && kv.parentKey == w.agents[a].keys[kv.id.keyId].parent
    && Slot(AtAgent(a), kv.id) in w.vaults && w.vaults[Slot(AtAgent(a), kv.id)].Sealed?
  }

  lemma AgentVersionMirrors(c: Config, w: World, a: nat, kv: KeyVersion)
    requires Sized(c, w) && Mirrors(c, w) && MaterialStored(c, w) && AgentRow(w, a, kv)
    ensures var w2 := WithAgent(w, a, InsertVersion(w.agents[a], kv));
            Mirrors(c, w2) && MaterialStored(c, w2)
  {
  }

  /** Writing an agent's version row of a key that is not settled at the root. */
  lemma AgentVersionKeepsInv(c: Config, w: World, a: nat, kv: KeyVersion)
    requires Inv(c, w) && AgentRow(w, a, kv)
    requires kv.id.keyId in w.root.keys && w.root.keys[kv.id.keyId].status != Completed
    ensures Inv(c, WithAgent(w, a, InsertVersion(w.agents[a], kv)))
  {
    var w2 := WithAgent(w, a, InsertVersion(w.agents[a], kv));
    assert RowsKeyed(TablesAt(w, AtAgent(a)));
    AgentRowsKeyed(c, w, a, w2.agents[a]);
    AgentVersionMirrors(c, w, a, kv);
    VaultsIgnoreAgents(c, w, w2);
    forall j | j in w2.root.keys ensures Agrees(c, w2, j) && LatestFollows(w2.root, j) {
      assert Agrees(c, w, j) && LatestFollows(w.root, j);
      if j != kv.id.keyId { UntouchedKey(c, w, w2, j); }
    }
  }
}
