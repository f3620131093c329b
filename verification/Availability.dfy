/** When secrets can be had: keys whose ancestors are active and settled, at the nodes where their
    children look for them. */
module Availability {
  import opened Model
  import opened Store
  import opened Hierarchy
  import opened Topology
  import opened Lifecycle
  import opened Worlds
  import opened Envelope
  import opened Agent
  import opened Protocol
  import opened Forest
  import opened Steps
  import opened Invariant
  import opened Preservation
  import opened Stability
  import opened Material
  import opened Delivery
  import opened Progress
  import opened Theorems

  /** The node that manages a key. */
  ghost function NodeOf(c: Config, k: Key): (n: Node)
    requires ManagerKnown(c, k)
    ensures Manages(c, n, k)
  {
    if k.managedBy == c.name then AtRoot else AtAgent(FindAgent(c.agents, k.managedBy).value)
  }

  /** The key's node looks for the parent where the parent is managed. */
  ghost predicate Housed(c: Config, w: World, i: Uuid)
    requires Managed(c, w) && WellFormed(c.hierarchy.specs, w.root) && i in w.root.keys
  {
    var k := w.root.keys[i];
    assert Placed(c.hierarchy.specs, w.root, i);
    var n := NodeOf(c, k);
    k.parent.Some? ==>
      && Serves(c, n, k.kind)
      && match ParentOf(c, n, k.kind)
         case Unresolved => false
         case RootProvider => IndexOf(c.hierarchy.specs, k.kind) == 1
         case ManagerAt(m) => IndexOf(c.hierarchy.specs, k.kind) > 1 && NodeOf(c, w.root.keys[k.parent.value]) == m
  }

  predicate Settled(w: World, i: Uuid) {
    i in w.root.keys && w.root.keys[i].life == Active && w.root.keys[i].status == Completed
  }

  /** The key and all keys above it are housed, and those above are active and settled. */
  ghost predicate LineReady(c: Config, w: World, i: Uuid)
    requires Managed(c, w) && WellFormed(c.hierarchy.specs, w.root) && i in w.root.keys
    decreases IndexOf(c.hierarchy.specs, w.root.keys[i].kind)
  {
    assert Placed(c.hierarchy.specs, w.root, i);
    && Housed(c, w, i)
    && (w.root.keys[i].parent.Some? ==> Settled(w, w.root.keys[i].parent.value) && LineReady(c, w, w.root.keys[i].parent.value))
  }

  // ------------------------------------------------------------------ a ready line is a ready chain

  /** A settled active key below the root key has its one version, usable, at its node. */
  lemma SettledIsUsable(c: Config, w: World, p: Uuid)
    requires Inv(c, w) && Delivered(c, w) && Settled(w, p) && IndexOf(c.hierarchy.specs, w.root.keys[p].kind) > 0
    ensures ManagerKnown(c, w.root.keys[p])
    ensures var t, id := TablesAt(w, NodeOf(c, w.root.keys[p])), VersionId(w.root.keys[p].tenant, p, 1, 1);
            && p in t.keys && t.keys[p].life == Active && t.keys[p].IsSame(w.root.keys[p])
            && id in t.versions && t.versions[id].processing == Usable
  {
    var k := w.root.keys[p];
    assert ManagerKnown(c, k) && LatestFollows(w.root, p) && RowsKeyed(TablesAt(w, AtRoot));
    LatestBounds(w.root, p);
    var latest := Newest(w.root, k.tenant, p, LATEST).value;
    assert Shipped(c, w, latest.id);
    if k.managedBy != c.name { assert Agrees(c, w, p); }
  }

  /** Below the root key every version is pinned to the first version of its parent. */
  lemma PinnedToFirst(c: Config, w: World, n: Node, v: VersionId)
    requires Inv(c, w) && Delivered(c, w) && IsNode(c, n) && v in TablesAt(w, n).versions && v.keyId in w.root.keys
    requires IndexOf(c.hierarchy.specs, w.root.keys[v.keyId].kind) >= 2
    ensures TablesAt(w, n).versions[v].parentVersion == Some(1)
  {
    match n {
      case AtRoot =>
        assert RowInOrder(w.root, v);
        PinIsFirst(c, w, w.root, v);
      case AtAgent(a) => assert Received(c, w, a, v);
    }
  }

  /** One link of a chain. */
  lemma Link(c: Config, w: World, n: Node, m: Node, k: Key, kv: KeyVersion, pk: Key)
    requires Sized(c, w) && IsNode(c, n) && Serves(c, n, k.kind) && ParentOf(c, n, k.kind) == ManagerAt(m)
    requires kv.parentKey == Some(pk.id) && kv.parentVersion == Some(1) && kv.id.tenant == pk.tenant
    requires pk.id in TablesAt(w, m).keys && TablesAt(w, m).keys[pk.id].life == Active && TablesAt(w, m).keys[pk.id].IsSame(pk)
    requires 0 <= IndexOf(c.hierarchy.specs, pk.kind) < IndexOf(c.hierarchy.specs, k.kind)
    requires var id := VersionId(pk.tenant, pk.id, 1, 1); var t := TablesAt(w, m);
             id in t.versions && t.versions[id].processing == Usable && ChainReady(c, w, m, pk.kind, t.versions[id])
    ensures ChainReady(c, w, n, k.kind, kv)
  {
  }

  lemma FirstLink(c: Config, w: World, n: Node, k: Key, kv: KeyVersion, pk: Key)
    requires Sized(c, w) && IsNode(c, n) && Serves(c, n, k.kind) && ParentOf(c, n, k.kind) == RootProvider
    requires kv.parentKey == Some(pk.id) && kv.id.tenant == pk.tenant && Settled(w, pk.id) && w.root.keys[pk.id] == pk
    ensures ChainReady(c, w, n, k.kind, kv)
  {
  }

  lemma RowOfTenant(c: Config, w: World, n: Node, v: VersionId)
    requires Inv(c, w) && IsNode(c, n) && v in TablesAt(w, n).versions && v.keyId in w.root.keys
    ensures v.tenant == w.root.keys[v.keyId].tenant && TablesAt(w, n).versions[v].id == v
  {
    assert RowsKeyed(TablesAt(w, n));
    if n.AtRoot? { assert RowInOrder(w.root, v); } else { assert v.keyId in w.agents[n.index].keys; }
  }

  /** Where the parent of a housed key below its settled parent is. */
  lemma ParentOfLine(c: Config, w: World, n: Node, v: VersionId)
    requires Inv(c, w) && Delivered(c, w) && Owned(c, w, n, v) && v.keyId in w.root.keys
    requires ManagerKnown(c, w.root.keys[v.keyId]) && n == NodeOf(c, w.root.keys[v.keyId]) && LineReady(c, w, v.keyId)
    requires IndexOf(c.hierarchy.specs, w.root.keys[v.keyId].kind) > 0
    ensures var k, kv := w.root.keys[v.keyId], TablesAt(w, n).versions[v];
            && k.parent.Some? && Settled(w, k.parent.value)
            && var pk := w.root.keys[k.parent.value];
               && pk.id == k.parent.value && ManagerKnown(c, pk) && LineReady(c, w, pk.id)
               && kv.parentKey == Some(pk.id) && kv.id.tenant == pk.tenant
               && 0 <= IndexOf(c.hierarchy.specs, pk.kind) < IndexOf(c.hierarchy.specs, k.kind)
               && (ParentOf(c, n, k.kind).ManagerAt? ==>
                     && IndexOf(c.hierarchy.specs, pk.kind) > 0 && kv.parentVersion == Some(1)
                     && Owned(c, w, NodeOf(c, pk), VersionId(pk.tenant, pk.id, 1, 1)))
  {
    var k := w.root.keys[v.keyId];
    RowsFollowRoot(c, w, n, v);
    RowOfTenant(c, w, n, v);
    assert Placed(c.hierarchy.specs, w.root, v.keyId) && RowsKeyed(TablesAt(w, AtRoot));
    var p := k.parent.value;
    assert Placed(c.hierarchy.specs, w.root, p) && ManagerKnown(c, w.root.keys[p]);
    if ParentOf(c, n, k.kind).ManagerAt? {
      PinnedToFirst(c, w, n, v);
      SettledIsUsable(c, w, p);
    }
  }

  lemma {:induction false} LineMakesChain(c: Config, w: World, n: Node, v: VersionId)
    requires Inv(c, w) && Delivered(c, w) && Owned(c, w, n, v) && v.keyId in w.root.keys
    requires ManagerKnown(c, w.root.keys[v.keyId]) && n == NodeOf(c, w.root.keys[v.keyId]) && LineReady(c, w, v.keyId)
    requires IndexOf(c.hierarchy.specs, w.root.keys[v.keyId].kind) > 0
    ensures ChainReady(c, w, n, w.root.keys[v.keyId].kind, TablesAt(w, n).versions[v])
    decreases IndexOf(c.hierarchy.specs, w.root.keys[v.keyId].kind)
  {
    ParentOfLine(c, w, n, v);
    var k, kv := w.root.keys[v.keyId], TablesAt(w, n).versions[v];
    var pk := w.root.keys[k.parent.value];
    match ParentOf(c, n, k.kind) {
      case RootProvider => FirstLink(c, w, n, k, kv, pk);
      case ManagerAt(m) =>
        SettledIsUsable(c, w, pk.id);
        LineMakesChain(c, w, NodeOf(c, pk), VersionId(pk.tenant, pk.id, 1, 1));
        Link(c, w, n, NodeOf(c, pk), k, kv, pk);
    }
  }

  // ------------------------------------------------------------------ reachable worlds

  /** A run that leaves provider bindings in place and ends in the world. */
  ghost predicate RunTo(c: Config, ws: seq<World>, steps: seq<Step>, w: World) {
    && Run(c, ws, steps) && Initial(c, ws[0]) && ws[|ws| - 1] == w
    && forall k | 0 <= k < |steps| :: KeepsBinding(ws[k], steps[k])
  }

  ghost predicate Reached(c: Config, w: World) {
    Sized(c, w) && exists ws: seq<World>, steps: seq<Step> :: RunTo(c, ws, steps, w)
  }

  lemma ReachStart(c: Config, w: World)
    requires Initial(c, w)
    ensures Reached(c, w)
  {
    assert RunTo(c, [w], [], w);
  }

  lemma TakenBefore(c: Config, ws: seq<World>, steps: seq<Step>, s: Step, w2: World, k: nat)
    requires k < |steps| && |ws| == |steps| + 1 && Sized(c, ws[k]) && Taken(c, ws, steps, k)
    ensures Taken(c, ws + [w2], steps + [s], k)
  {
    assert (ws + [w2])[k] == ws[k] && (ws + [w2])[k + 1] == ws[k + 1] && (steps + [s])[k] == steps[k];
  }

  lemma TakenLast(c: Config, ws: seq<World>, steps: seq<Step>, s: Step, w: World, w2: World)
    requires |ws| == |steps| + 1 && ws[|steps|] == w && Sized(c, w) && Enabled(c, w, s) && w2 == Next(c, w, s)
    ensures Taken(c, ws + [w2], steps + [s], |steps|)
  {
    assert (ws + [w2])[|steps|] == w && (ws + [w2])[|steps| + 1] == w2 && (steps + [s])[|steps|] == s;
  }

  lemma RunExtends(c: Config, ws: seq<World>, steps: seq<Step>, w: World, s: Step, w2: World)
    requires RunTo(c, ws, steps, w) && Enabled(c, w, s) && KeepsBinding(w, s) && w2 == Next(c, w, s) && Sized(c, w2)
    ensures RunTo(c, ws + [w2], steps + [s], w2)
  {
    forall k: nat | k <= |steps| ensures Taken(c, ws + [w2], steps + [s], k) {
      if k < |steps| { TakenBefore(c, ws, steps, s, w2, k); } else { TakenLast(c, ws, steps, s, w, w2); }
    }
  }

  lemma StaysSized(c: Config, w: World, s: Step)
    requires Deployed(c) && Reached(c, w) && Enabled(c, w, s)
    ensures Sized(c, Next(c, w, s))
  {
    ReachedKeeps(c, w);
    StepKeepsInv(c, w, s);
  }

  lemma ReachStep(c: Config, w: World, s: Step)
    requires Deployed(c) && Reached(c, w) && Enabled(c, w, s) && KeepsBinding(w, s)
    ensures Reached(c, Next(c, w, s))
  {
    StaysSized(c, w, s);
    var ws: seq<World>, steps: seq<Step> :| RunTo(c, ws, steps, w);
    RunExtends(c, ws, steps, w, s, Next(c, w, s));
  }

  lemma ReachedKeeps(c: Config, w: World)
    requires Deployed(c) && Reached(c, w)
    ensures Inv(c, w) && Delivered(c, w)
  {
    var ws: seq<World>, steps: seq<Step> :| RunTo(c, ws, steps, w);
    RunKeepsInv(c, ws, steps, |steps|);
    RunDelivered(c, ws, steps, |steps|);
  }

  lemma ReachedSecret(c: Config, w: World, n: Node, v: VersionId) returns (secret: nat)
    requires Deployed(c) && Reached(c, w) && Owned(c, w, n, v)
    ensures KeepsSecret(c, w, n, v, secret)
  {
    var ws: seq<World>, steps: seq<Step> :| RunTo(c, ws, steps, w);
    var i := EverySecretIsTheCommitted(c, ws, steps, |steps|, n, v);
    secret := DrawAt(n, steps[i].faults).secret;
  }

  /** In every reachable world, a version whose key and ancestors are where their children look for
      them, the ancestors active and settled, resolves at its node to its secret. */
  lemma Available(c: Config, w: World, n: Node, v: VersionId) returns (secret: nat)
    requires Deployed(c) && Reached(c, w) && Owned(c, w, n, v) && v.keyId in w.root.keys
    requires Managed(c, w) && WellFormed(c.hierarchy.specs, w.root)
    requires n == NodeOf(c, w.root.keys[v.keyId]) && LineReady(c, w, v.keyId)
    ensures Serves(c, n, w.root.keys[v.keyId].kind)
    ensures ResolveSecret(c, w, n, w.root.keys[v.keyId].kind, TablesAt(w, n).versions[v]) == Ok(Raw(secret))
  {
    ReachedKeeps(c, w);
    secret := ReachedSecret(c, w, n, v);
    RowsFollowRoot(c, w, n, v);
    if n.AtAgent? { assert Received(c, w, n.index, v); }
    LineMakesChain(c, w, n, v);
  }

  // ------------------------------------------------------------------ a ready line can be settled

  /** The root key has a provider, and its latest version one of the provider's keys. */
  ghost predicate ProviderReady(w: World, r: Key) {
    && r.tenant in w.root.tenants && Bound(w, KeyIdentifier(r.id, r.tenant))
    && var latest := Newest(w.root, r.tenant, r.id, LATEST);
       && latest.Some? && latest.value.providerKey.Some? && latest.value.providerKey.value.id != ""
       && latest.value.providerKey.value.kind == w.vaults[ProviderSlot(r.tenant, r.id)].spec.kind
  }

  /** What a key needs besides its ancestors: a vault at its node, no label its node refuses, and for a
      child of the root key a usable provider. */
  ghost predicate Equipped(c: Config, w: World, i: Uuid)
    requires Managed(c, w) && WellFormed(c.hierarchy.specs, w.root) && i in w.root.keys
  {
    assert Placed(c.hierarchy.specs, w.root, i);
    var k := w.root.keys[i];
    var n := NodeOf(c, k);
    && (k.parent.Some? ==> Serves(c, n, k.kind) && NodeBindings(c, n)[k.kind].vault)
    && (n.AtAgent? ==> !HasReserved(k.labels))
    && (IndexOf(c.hierarchy.specs, k.kind) == 1 ==> ProviderReady(w, w.root.keys[k.parent.value]))
  }

  /** A settled key has a latest version, usable and active. */
  lemma SettledHasActive(c: Config, w: World, p: Uuid)
    requires Inv(c, w) && Settled(w, p)
    ensures var k := w.root.keys[p];
            && Newest(w.root, k.tenant, p, LATEST_ACTIVE).Some?
            && Newest(w.root, k.tenant, p, LATEST_ACTIVE) == Newest(w.root, k.tenant, p, LATEST)
  {
    var k := w.root.keys[p];
    assert LatestFollows(w.root, p) && RowsKeyed(TablesAt(w, AtRoot));
    LatestBounds(w.root, p);
    var v := Newest(w.root, k.tenant, p, LATEST).value.id;
    assert IsNewest(w.root, k.tenant, p, LATEST_ACTIVE, v);
    NewestIs(w.root, k.tenant, p, LATEST_ACTIVE, v);
  }

  /** The provider of a settled root key seals. */
  lemma ProviderSeals(c: Config, w: World, p: Uuid)
    requires Inv(c, w) && Settled(w, p) && ProviderReady(w, w.root.keys[p])
    ensures var k := w.root.keys[p];
            && Newest(w.root, k.tenant, p, LATEST_ACTIVE).Some?
            && RootKey(w, k.tenant, p, Newest(w.root, k.tenant, p, LATEST_ACTIVE).value.id.version, Encrypt).Ok?
  {
    var k := w.root.keys[p];
    SettledHasActive(c, w, p);
    assert RowsKeyed(TablesAt(w, AtRoot));
    LatestBounds(w.root, p);
    var v := Newest(w.root, k.tenant, p, LATEST).value.id;
    assert IsNewest(w.root, k.tenant, p, VersionQuery(v.version, None, None), v);
    NewestIs(w.root, k.tenant, p, VersionQuery(v.version, None, None), v);
  }

  /** The manager of a settled key with a ready line hands its secret to the kinds below. */
  lemma ManagerAnswers(c: Config, w: World, p: Uuid, bound: nat)
    requires Deployed(c) && Reached(c, w) && Settled(w, p) && Managed(c, w) && WellFormed(c.hierarchy.specs, w.root)
    requires 0 < IndexOf(c.hierarchy.specs, w.root.keys[p].kind) < bound && LineReady(c, w, p)
    ensures var k := w.root.keys[p]; SecretOf(c, w, NodeOf(c, k), k.tenant, p, 1, bound).Ok?
  {
    ReachedKeeps(c, w);
    var k := w.root.keys[p];
    var n, id := NodeOf(c, k), VersionId(k.tenant, p, 1, 1);
    SettledIsUsable(c, w, p);
    var secret := Available(c, w, n, id);
    AnswersWith(c, w, n, id, bound);
  }

  lemma AnswersWith(c: Config, w: World, n: Node, id: VersionId, bound: nat)
    requires Inv(c, w) && IsNode(c, n) && id in TablesAt(w, n).versions && TablesAt(w, n).versions[id].processing == Usable
    requires id.version == 1 && id.revision == 1 && GetKey(TablesAt(w, n), id.keyId, id.tenant).Some?
    requires var k := GetKey(TablesAt(w, n), id.keyId, id.tenant).value;
             && k.life == Active && Serves(c, n, k.kind) && IndexOf(c.hierarchy.specs, k.kind) < bound
             && ResolveSecret(c, w, n, k.kind, TablesAt(w, n).versions[id]).Ok?
    ensures SecretOf(c, w, n, id.tenant, id.keyId, 1, bound).Ok?
  {
    InvFirstRevisions(c, w);
    assert RowsKeyed(TablesAt(w, n));
    NewestExactly(TablesAt(w, n), id.tenant, id.keyId, 1);
  }

  lemma SealsUnderProvider(c: Config, w: World, n: Node, kind: Name, kv: KeyVersion)
    requires Sized(c, w) && IsNode(c, n) && Serves(c, n, kind) && NodeBindings(c, n)[kind].vault
    requires ParentOf(c, n, kind) == RootProvider && kv.parentKey.Some?
    requires RootKey(w, kv.id.tenant, kv.parentKey.value, kv.ParentPin(), Encrypt).Ok?
    ensures Sealable(c, w, n, kind, kv) && Sealable(c, w, n, kind, OnWire(kv))
  {
  }

  lemma SealsUnderManager(c: Config, w: World, n: Node, kind: Name, kv: KeyVersion, m: Node)
    requires Sized(c, w) && IsNode(c, n) && Serves(c, n, kind) && NodeBindings(c, n)[kind].vault
    requires ParentOf(c, n, kind) == ManagerAt(m) && kv.parentKey.Some?
    requires SecretOf(c, w, m, kv.id.tenant, kv.parentKey.value, kv.ParentPin(), IndexOf(c.hierarchy.specs, kind)).Ok?
    ensures Sealable(c, w, n, kind, kv) && Sealable(c, w, n, kind, OnWire(kv))
  {
  }

  /** What a version derived from a settled parent is pinned to. */
  lemma DerivedPin(c: Config, w: World, i: Uuid)
    requires Inv(c, w) && Delivered(c, w) && i in w.root.keys && w.root.keys[i].parent.Some? && Settled(w, w.root.keys[i].parent.value)
    ensures var k := w.root.keys[i];
            && w.root.keys[k.parent.value].tenant == k.tenant
            && IndexOf(c.hierarchy.specs, w.root.keys[k.parent.value].kind) == IndexOf(c.hierarchy.specs, k.kind) - 1
            && Newest(w.root, k.tenant, k.parent.value, LATEST_ACTIVE).Some?
            && (IndexOf(c.hierarchy.specs, k.kind) > 1 ==>
                  Newest(w.root, k.tenant, k.parent.value, LATEST_ACTIVE).value.id.version == 1)
  {
    var p := w.root.keys[i].parent.value;
    assert Placed(c.hierarchy.specs, w.root, i) && RowsKeyed(TablesAt(w, AtRoot));
    SettledHasActive(c, w, p);
    LatestBounds(w.root, p);
    assert Shipped(c, w, Newest(w.root, w.root.keys[p].tenant, p, LATEST).value.id);
  }

  /** The first version of a key with a ready line can be sealed. */
  lemma LineSeals(c: Config, w: World, i: Uuid)
    requires Deployed(c) && Reached(c, w) && Managed(c, w) && WellFormed(c.hierarchy.specs, w.root)
    requires i in w.root.keys && w.root.keys[i].parent.Some? && LineReady(c, w, i) && Equipped(c, w, i)
    ensures var k := w.root.keys[i];
            && Newest(w.root, k.tenant, k.parent.value, LATEST_ACTIVE).Some?
            && var kv := FirstVersion(k, Some(Newest(w.root, k.tenant, k.parent.value, LATEST_ACTIVE).value.id.version));
               Sealable(c, w, NodeOf(c, k), k.kind, kv) && Sealable(c, w, NodeOf(c, k), k.kind, OnWire(kv))
  {
    ReachedKeeps(c, w);
    var k := w.root.keys[i];
    var p, n := k.parent.value, NodeOf(c, k);
    DerivedPin(c, w, i);
    var kv := FirstVersion(k, Some(Newest(w.root, k.tenant, p, LATEST_ACTIVE).value.id.version));
    if IndexOf(c.hierarchy.specs, k.kind) == 1 {
      ProviderSeals(c, w, p);
      SealsUnderProvider(c, w, n, k.kind, kv);
    } else {
      ManagerAnswers(c, w, p, IndexOf(c.hierarchy.specs, k.kind));
      SealsUnderManager(c, w, n, k.kind, kv, NodeOf(c, w.root.keys[p]));
    }
  }

  /** A version of an agent's key is at the agent, or is its first. */
  lemma HeldOrFirst(c: Config, w: World, key: Key, a: nat)
    requires Inv(c, w) && Delivered(c, w) && key.id in w.root.keys && w.root.keys[key.id] == key && !HasReserved(key.labels)
    requires key.managedBy != c.name && FindAgent(c.agents, key.managedBy) == Some(a)
    ensures var own := Newest(w.root, key.tenant, key.id, LATEST);
            own.Some? ==> own.value.id in w.agents[a].versions
  {
    assert RowsKeyed(TablesAt(w, AtRoot));
    if Newest(w.root, key.tenant, key.id, LATEST).Some? {
      LatestBounds(w.root, key.id);
      assert Shipped(c, w, Newest(w.root, key.tenant, key.id, LATEST).value.id);
    }
  }

  lemma AgentTakes(c: Config, w: World, key: Key, a: nat)
    requires Inv(c, w) && Delivered(c, w) && key.id in w.root.keys && w.root.keys[key.id] == key && !HasReserved(key.labels)
    requires key.managedBy != c.name && FindAgent(c.agents, key.managedBy) == Some(a) && key.life != PreActivation
    ensures Acceptable(key) && key.tenant in w.agents[a].tenants
  {
    assert Arrived(c, w, key.id) && Known(w, a, key.id);
    assert w.agents[a].keys[key.id].IsSame(key);
  }

  lemma SettleableAtRoot(c: Config, w: World, key: Key)
    requires Sized(c, w) && key.managedBy == c.name
    requires key.parent.None? ==> IndexOf(c.hierarchy.specs, key.kind) == 0
    requires key.parent.Some? ==>
               var pin := Newest(w.root, key.tenant, key.parent.value, LATEST_ACTIVE);
               pin.Some? && Sealable(c, w, AtRoot, key.kind, FirstVersion(key, Some(pin.value.id.version)))
    ensures Settleable(c, w, key)
  {
  }

  lemma SettleableAtAgent(c: Config, w: World, key: Key, a: nat)
    requires Sized(c, w) && key.managedBy != c.name && FindAgent(c.agents, key.managedBy) == Some(a) && key.parent.Some?
    requires Acceptable(key) && key.tenant in w.agents[a].tenants
    requires var pin := Newest(w.root, key.tenant, key.parent.value, LATEST_ACTIVE);
             pin.Some? && Sealable(c, w, AtAgent(a), key.kind, OnWire(FirstVersion(key, Some(pin.value.id.version))))
    requires var own := Newest(w.root, key.tenant, key.id, LATEST); own.Some? ==> own.value.id in w.agents[a].versions
    ensures Settleable(c, w, key)
  {
  }

  /** So a delivery in which nothing goes wrong settles such a key. */
  lemma LineSettles(c: Config, w: World, key: Key)
    requires Deployed(c) && Reached(c, w) && Running(c, w, key) && key.life != PreActivation
    requires LineReady(c, w, key.id) && Equipped(c, w, key.id)
    ensures Settleable(c, w, key)
  {
    ReachedKeeps(c, w);
    assert Placed(c.hierarchy.specs, w.root, key.id) && ManagerKnown(c, key);
    if key.parent.Some? { LineSeals(c, w, key.id); }
    if key.managedBy == c.name {
      SettleableAtRoot(c, w, key);
    } else {
      var a := FindAgent(c.agents, key.managedBy).value;
      AgentTakes(c, w, key, a);
      HeldOrFirst(c, w, key, a);
      SettleableAtAgent(c, w, key, a);
    }
  }

  // ------------------------------------------------------------------ and only then

  lemma AnsweredFrom(c: Config, w: World, m: Node, tenant: Uuid, p: Uuid, version: nat, bound: nat) returns (v: VersionId)
    requires Sized(c, w) && IsNode(c, m) && RowsKeyed(TablesAt(w, m)) && SecretOf(c, w, m, tenant, p, version, bound).Ok?
    ensures v.keyId == p && Slot(m, v) in w.vaults && w.vaults[Slot(m, v)].Sealed?
  {
    v := Newest(TablesAt(w, m), tenant, p, VersionQuery(version, Some(Usable), None)).value.id;
  }

  /** A manager answers only for keys of its own, other than the root key. */
  lemma OnlyOwnKeys(c: Config, w: World, m: Node, tenant: Uuid, p: Uuid, version: nat, bound: nat)
    requires Deployed(c) && Inv(c, w) && IsNode(c, m) && p in w.root.keys && SecretOf(c, w, m, tenant, p, version, bound).Ok?
    ensures IndexOf(c.hierarchy.specs, w.root.keys[p].kind) > 0 && ManagerKnown(c, w.root.keys[p]) && Manages(c, m, w.root.keys[p])
  {
    assert RowsKeyed(TablesAt(w, m));
    var v := AnsweredFrom(c, w, m, tenant, p, version, bound);
    SealedAtManager(c, w, m, v);
  }

  lemma SealedAtManager(c: Config, w: World, m: Node, v: VersionId)
    requires Deployed(c) && Inv(c, w) && IsNode(c, m) && Slot(m, v) in w.vaults && w.vaults[Slot(m, v)].Sealed?
    ensures v.keyId in w.root.keys
    ensures var k := w.root.keys[v.keyId];
            IndexOf(c.hierarchy.specs, k.kind) > 0 && ManagerKnown(c, k) && Manages(c, m, k)
  {
    assert SlotInPlace(c, w, Slot(m, v)) && ManagerKnown(c, w.root.keys[v.keyId]);
    if m.AtAgent? { FoundByName(c, m.index); }
  }

  lemma FoundByName(c: Config, a: nat)
    requires Deployed(c) && a < |c.agents|
    ensures FindAgent(c.agents, c.agents[a].name) == Some(a) && c.agents[a].name != c.name
  {
    assert TopologyOk(c);
    FoundAt(c.agents, a);
  }

  lemma FoundAt(agents: seq<TopologySegment>, a: nat)
    requires DistinctNames(agents) && a < |agents|
    ensures FindAgent(agents, agents[a].name) == Some(a)
  {
    var r := FindAgent(agents, agents[a].name).value;
    if r < a { assert agents[r].name != agents[a].name; }
    if a < r { assert agents[a].name != agents[r].name; }
  }

  /** Where the key of a parent was found. */
  lemma ParentFound(c: Config, w: World, n: Node, k: Key, kv: KeyVersion, usage: Usage)
    requires Deployed(c) && Inv(c, w) && IsNode(c, n) && k.parent.Some? && k.parent.value in w.root.keys && Serves(c, n, k.kind)
    requires ParentKey(c, w, n, k.kind, kv, usage).Ok? && kv.parentKey == k.parent && kv.id.tenant == k.tenant
    ensures match ParentOf(c, n, k.kind)
            case Unresolved => false
            case RootProvider => IndexOf(c.hierarchy.specs, k.kind) == 1 && RootKey(w, k.tenant, k.parent.value, kv.ParentPin(), usage).Ok?
            case ManagerAt(m) =>
              var pk := w.root.keys[k.parent.value];
              ManagerKnown(c, pk) && Manages(c, m, pk) && IndexOf(c.hierarchy.specs, pk.kind) > 0
  {
    match ParentOf(c, n, k.kind) {
      case Unresolved =>
      case RootProvider => ParentInSegment(c, n, k.kind);
      case ManagerAt(m) => OnlyOwnKeys(c, w, m, k.tenant, k.parent.value, kv.ParentPin(), IndexOf(c.hierarchy.specs, k.kind));
    }
  }

  lemma SealsMeansProvider(c: Config, w: World, p: Uuid)
    requires Inv(c, w) && Settled(w, p) && Newest(w.root, w.root.keys[p].tenant, p, LATEST_ACTIVE).Some?
    requires var k := w.root.keys[p];
             RootKey(w, k.tenant, p, Newest(w.root, k.tenant, p, LATEST_ACTIVE).value.id.version, Encrypt).Ok?
    ensures ProviderReady(w, w.root.keys[p])
  {
    var k := w.root.keys[p];
    SettledHasActive(c, w, p);
    assert RowsKeyed(TablesAt(w, AtRoot));
    LatestBounds(w.root, p);
    var v := Newest(w.root, k.tenant, p, LATEST).value.id;
    assert IsNewest(w.root, k.tenant, p, VersionQuery(v.version, None, None), v);
    NewestIs(w.root, k.tenant, p, VersionQuery(v.version, None, None), v);
  }

  /** No version of the key exists yet, at the root or at its agent. */
  ghost predicate Unstarted(c: Config, w: World, key: Key)
    requires Sized(c, w)
  {
    && Newest(w.root, key.tenant, key.id, LATEST).None?
    && forall a | FindAgent(c.agents, key.managedBy) == Some(a) :: VersionId(key.tenant, key.id, 1, 1) !in w.agents[a].versions
  }

  lemma UnstartedNeeds(c: Config, w: World, key: Key)
    requires Running(c, w, key) && Unstarted(c, w, key) && Settleable(c, w, key) && key.parent.Some?
    ensures ManagerKnown(c, key)
    ensures Newest(w.root, key.tenant, key.parent.value, LATEST_ACTIVE).Some?
    ensures var kv := FirstVersion(key, Some(Newest(w.root, key.tenant, key.parent.value, LATEST_ACTIVE).value.id.version));
            && (key.managedBy == c.name ==> Sealable(c, w, AtRoot, key.kind, kv))
            && (key.managedBy != c.name ==> Sealable(c, w, NodeOf(c, key), key.kind, OnWire(kv)) && !HasReserved(key.labels))
  {
    assert ManagerKnown(c, key) && Placed(c.hierarchy.specs, w.root, key.id);
  }

  lemma SettleableNeeds(c: Config, w: World, key: Key)
    requires Deployed(c) && Running(c, w, key) && Delivered(c, w) && Unstarted(c, w, key) && Settleable(c, w, key)
    requires key.parent.Some? ==> Settled(w, key.parent.value)
    ensures Housed(c, w, key.id) && Equipped(c, w, key.id)
  {
    assert ManagerKnown(c, key) && Placed(c.hierarchy.specs, w.root, key.id);
    if key.parent.Some? {
      UnstartedNeeds(c, w, key);
      DerivedPin(c, w, key.id);
      var p, n := key.parent.value, NodeOf(c, key);
      var first := FirstVersion(key, Some(Newest(w.root, key.tenant, p, LATEST_ACTIVE).value.id.version));
      var kv := if key.managedBy == c.name then first else OnWire(first);
      ParentFound(c, w, n, key, kv, Encrypt);
      if ParentOf(c, n, key.kind).RootProvider? { SealsMeansProvider(c, w, p); }
    }
  }

  /** Exactly: the first delivery without faults of a key below settled ancestors settles it if and
      only if the key is housed and equipped. */
  lemma FirstDeliverySettlesIff(c: Config, w: World, key: Key, f: TaskFaults)
    requires Deployed(c) && Reached(c, w) && Running(c, w, key) && key.life != PreActivation && Unstarted(c, w, key) && Smooth(f)
    requires key.parent.Some? ==> key.parent.value in w.root.keys && Settled(w, key.parent.value) && LineReady(c, w, key.parent.value)
    ensures Process(c, w, key, f).disposition == Complete <==> Housed(c, w, key.id) && Equipped(c, w, key.id)
  {
    ReachedKeeps(c, w);
    SmoothDeliverySettlesIff(c, w, key, f);
    if Settleable(c, w, key) { SettleableNeeds(c, w, key); }
    if Housed(c, w, key.id) && Equipped(c, w, key.id) { LineSettles(c, w, key); }
  }

  // ------------------------------------------------------------------ in every run

  /** Whoever resolves a version found its parent where it is managed. */
  lemma ResolvedIsHoused(c: Config, w: World, n: Node, v: VersionId, secret: nat)
    requires Deployed(c) && Inv(c, w) && HasSecret(c, w, n, v, secret) && v.keyId in w.root.keys
    requires ManagerKnown(c, w.root.keys[v.keyId]) && n == NodeOf(c, w.root.keys[v.keyId])
    ensures Housed(c, w, v.keyId)
  {
    var k, kv := w.root.keys[v.keyId], TablesAt(w, n).versions[v];
    RowsFollowRoot(c, w, n, v);
    RowOfTenant(c, w, n, v);
    assert Placed(c.hierarchy.specs, w.root, v.keyId);
    if k.parent.Some? { ParentFound(c, w, n, k, kv, Decrypt); }
  }

  lemma HousedStays(c: Config, w: World, w2: World, i: Uuid)
    requires Managed(c, w) && WellFormed(c.hierarchy.specs, w.root) && i in w.root.keys && Housed(c, w, i)
    requires Managed(c, w2) && WellFormed(c.hierarchy.specs, w2.root) && KeepsRows(w.root, w2.root)
    ensures Housed(c, w2, i)
  {
    assert Placed(c.hierarchy.specs, w.root, i);
  }

  /** The node that holds a version manages its key. */
  lemma OwnerManages(c: Config, w: World, n: Node, v: VersionId)
    requires Deployed(c) && Inv(c, w) && Owned(c, w, n, v)
    ensures v.keyId in w.root.keys && ManagerKnown(c, w.root.keys[v.keyId]) && n == NodeOf(c, w.root.keys[v.keyId])
  {
    RowsFollowRoot(c, w, n, v);
    assert ManagerKnown(c, w.root.keys[v.keyId]);
    if n.AtAgent? {
      assert v.keyId in w.agents[n.index].keys;
      FoundByName(c, n.index);
    }
  }

  ghost predicate IsHoused(c: Config, w: World, i: Uuid) {
    Inv(c, w) && i in w.root.keys && Housed(c, w, i)
  }

  lemma CommitIsHoused(c: Config, ws: seq<World>, steps: seq<Step>, k: nat, n: Node, v: VersionId)
    requires Deployed(c) && Run(c, ws, steps) && Initial(c, ws[0]) && k < |steps| && steps[k].TaskStep?
    requires NewAt(c, ws[k], ws[k + 1], n, v)
    ensures IsHoused(c, ws[k + 1], v.keyId)
  {
    RunKeepsInv(c, ws, steps, k);
    RunKeepsInv(c, ws, steps, k + 1);
    assert Taken(c, ws, steps, k);
    CommitFixesSecret(c, ws[k], Target(steps[k].action), steps[k].kid, steps[k].faults, n, v);
    OwnerManages(c, ws[k + 1], n, v);
    ResolvedIsHoused(c, ws[k + 1], n, v, DrawAt(n, steps[k].faults).secret);
  }

  lemma OwnedIsHoused(c: Config, ws: seq<World>, steps: seq<Step>, j: nat, n: Node, v: VersionId)
    requires Deployed(c) && Run(c, ws, steps) && Initial(c, ws[0]) && j < |ws| && Owned(c, ws[j], n, v)
    ensures IsHoused(c, ws[j], v.keyId)
  {
    var k := HousedOnce(c, ws, steps, j, n, v);
    StaysHoused(c, ws, steps, k, j, v.keyId);
  }

  lemma HousedOnce(c: Config, ws: seq<World>, steps: seq<Step>, j: nat, n: Node, v: VersionId) returns (k: nat)
    requires Deployed(c) && Run(c, ws, steps) && Initial(c, ws[0]) && j < |ws| && Owned(c, ws[j], n, v)
    ensures k <= j && IsHoused(c, ws[k], v.keyId)
  {
    var i := CommittedByATask(c, ws, steps, j, n, v);
    k := HousedNext(c, ws, steps, i, n, v);
  }

  lemma HousedNext(c: Config, ws: seq<World>, steps: seq<Step>, i: nat, n: Node, v: VersionId) returns (k: nat)
    requires Deployed(c) && Run(c, ws, steps) && Initial(c, ws[0]) && i < |steps| && steps[i].TaskStep?
    requires NewAt(c, ws[i], ws[i + 1], n, v)
    ensures k == i + 1 && IsHoused(c, ws[k], v.keyId)
  {
    CommitIsHoused(c, ws, steps, i, n, v);
    k := i + 1;
  }

  lemma StaysHoused(c: Config, ws: seq<World>, steps: seq<Step>, i: nat, j: nat, id: Uuid)
    requires Deployed(c) && Run(c, ws, steps) && Initial(c, ws[0]) && i <= j < |ws| && IsHoused(c, ws[i], id)
    ensures IsHoused(c, ws[j], id)
  {
    RunKeepsInv(c, ws, steps, j);
    NothingCommittedIsReplaced(c, ws, steps, i, j);
    HousedLater(c, ws[i], ws[j], id);
  }

  lemma HousedLater(c: Config, w: World, w2: World, i: Uuid)
    requires IsHoused(c, w, i) && Inv(c, w2) && Keeps(c, w, w2)
    ensures IsHoused(c, w2, i)
  {
    assert KeepsRows(TablesAt(w, AtRoot), TablesAt(w2, AtRoot));
    HousedStays(c, w, w2, i);
  }

  /** A key below the root key that is settled past pre-activation has its latest version at its node. */
  lemma SettledIsOwned(c: Config, w: World, i: Uuid) returns (n: Node, v: VersionId)
    requires Inv(c, w) && i in w.root.keys && w.root.keys[i].status == Completed && w.root.keys[i].life != PreActivation
    requires IndexOf(c.hierarchy.specs, w.root.keys[i].kind) > 0
    ensures Owned(c, w, n, v) && v.keyId == i
  {
    var k := w.root.keys[i];
    assert ManagerKnown(c, k) && LatestFollows(w.root, i) && RowsKeyed(TablesAt(w, AtRoot));
    LatestBounds(w.root, i);
    n, v := NodeOf(c, k), Newest(w.root, k.tenant, i, LATEST).value.id;
    if k.managedBy != c.name { assert Agrees(c, w, i); }
  }

  /** In every run: a key that is not housed is never settled past pre-activation. */
  lemma OnlyHousedKeysSettle(c: Config, ws: seq<World>, steps: seq<Step>, j: nat, i: Uuid)
    requires Deployed(c) && Run(c, ws, steps) && Initial(c, ws[0]) && j < |ws| && i in ws[j].root.keys
    requires ws[j].root.keys[i].status == Completed && ws[j].root.keys[i].life != PreActivation
    ensures IsHoused(c, ws[j], i)
  {
    RunKeepsInv(c, ws, steps, j);
    assert Placed(c.hierarchy.specs, ws[j].root, i);
    if ws[j].root.keys[i].parent.Some? {
      var n, v := SettledIsOwned(c, ws[j], i);
      OwnedIsHoused(c, ws, steps, j, n, v);
    }
  }
}
