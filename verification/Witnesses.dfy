/** Runs of the working sample deployment: one that brings an agent's key to active and settled, and one
    for each of the states the protocol does not leave by itself. */
module Witnesses {
  import opened Model
  import opened Store
  import opened Hierarchy
  import opened Topology
  import opened Worlds
  import opened Envelope
  import opened Protocol
  import opened Forest
  import opened KeyAction
  import opened Steps
  import opened Invariant
  import opened Preservation
  import opened Material
  import opened Delivery
  import opened Theorems
  import opened Progress
  import opened Histories
  import opened Availability
  import opened Cascade
  import opened Runs
  import opened Chains
  import opened Samples

  // ------------------------------------------------------------------ the sample deployment

  /** The kinds have different names, and the agent is not called like the root. */
  ghost predicate SampleNames(root: Name, kek: Name, tek: Name, dek: Name, leaf: Name) {
    Names([root, kek, tek, dek]) && leaf != "root" && leaf != ""
  }

  function RootReq(root: Name): (r: AnnounceRequest) { AnnounceRequest(0, root, root, None, "", map[]) }

  function KekReq(kek: Name): (r: AnnounceRequest) { AnnounceRequest(0, kek, kek, Some(1), "", map[]) }

  function TekReq(tek: Name, leaf: Name, labels: Labels): (r: AnnounceRequest) {
    AnnounceRequest(0, tek, tek, Some(2), leaf, labels)
  }

  lemma WorkingPlaces(root: Name, kek: Name, tek: Name, dek: Name, leaf: Name)
    requires SampleNames(root, kek, tek, dek, leaf)
    ensures var specs := Working(root, kek, tek, dek, leaf).hierarchy.specs;
            && IndexOf(specs, root) == 0 && IndexOf(specs, kek) == 1 && IndexOf(specs, tek) == 2 && IndexOf(specs, dek) == 3
            && FindKeySpec(specs, root) == Some(specs[0]) && FindKeySpec(specs, kek) == Some(specs[1])
            && FindKeySpec(specs, tek) == Some(specs[2])
            && FindParentKeySpec(specs, kek) == Some(specs[0])
  {
    WorkingHierarchy(root, kek, tek, dek, leaf);
    var specs := Working(root, kek, tek, dek, leaf).hierarchy.specs;
    IndexAt(specs, 0);
    IndexAt(specs, 1);
    IndexAt(specs, 2);
    IndexAt(specs, 3);
  }

  lemma WorkingNodes(root: Name, kek: Name, tek: Name, dek: Name, leaf: Name, labels: Labels)
    requires SampleNames(root, kek, tek, dek, leaf)
    ensures var c := Working(root, kek, tek, dek, leaf);
            && Serves(c, AtRoot, kek) && ParentOf(c, AtRoot, kek) == RootProvider && NodeBindings(c, AtRoot)[kek].vault
            && FindAgent(c.agents, leaf) == Some(0)
            && Serves(c, AtAgent(0), tek) && ParentOf(c, AtAgent(0), tek) == ManagerAt(AtRoot) && NodeBindings(c, AtAgent(0))[tek].vault
            && ValidAnnounce(c, RootReq(root)) && ValidAnnounce(c, KekReq(kek)) && ValidAnnounce(c, TekReq(tek, leaf, labels))
  {
    WorkingPlaces(root, kek, tek, dek, leaf);
    var c := Working(root, kek, tek, dek, leaf);
    var names := [root, kek, tek, dek];
    assert names[0] != "" && names[1] != "" && names[2] != "" && names[0] != names[1] && names[0] != names[2];
    assert FindAgent(c.agents, "root") == None;
  }

  /** A deployment whose first three kinds are managed by the root, the root and its first agent. */
  ghost predicate ThreeKinds(c: Config, root: Name, kek: Name, tek: Name, leaf: Name) {
    && root != kek && root != tek && kek != tek
    && IndexOf(c.hierarchy.specs, root) == 0 && IndexOf(c.hierarchy.specs, kek) == 1 && IndexOf(c.hierarchy.specs, tek) == 2
    && FindKeySpec(c.hierarchy.specs, root).value.role == RootRole && FindKeySpec(c.hierarchy.specs, kek).value.role != RootRole
    && FindKeySpec(c.hierarchy.specs, tek).value.role != RootRole
    && FindAgent(c.agents, leaf) == Some(0) && leaf != c.name && leaf != ""
    && Serves(c, AtRoot, kek) && ParentOf(c, AtRoot, kek) == RootProvider && NodeBindings(c, AtRoot)[kek].vault
    && Serves(c, AtAgent(0), tek) && ParentOf(c, AtAgent(0), tek) == ManagerAt(AtRoot) && NodeBindings(c, AtAgent(0))[tek].vault
    && ValidAnnounce(c, RootReq(root)) && ValidAnnounce(c, KekReq(kek)) && ValidAnnounce(c, TekReq(tek, leaf, map[]))
  }

  lemma WorkingHasThree(root: Name, kek: Name, tek: Name, dek: Name, leaf: Name)
    requires SampleNames(root, kek, tek, dek, leaf)
    ensures Deployed(Working(root, kek, tek, dek, leaf)) && ThreeKinds(Working(root, kek, tek, dek, leaf), root, kek, tek, leaf)
  {
    WorkingIsDeployed(root, kek, tek, dek, leaf);
    WorkingPlaces(root, kek, tek, dek, leaf);
    WorkingNodes(root, kek, tek, dek, leaf, map[]);
  }

  // ------------------------------------------------------------------ three keys, announced

  function Row1(c: Config, root: Name, life: LifeCycle): (k: Key) {
    Draft(c, RootReq(root), 1).(life := life, status := Completed)
  }

  function Row2(c: Config, kek: Name, life: LifeCycle): (k: Key) {
    Draft(c, KekReq(kek), 2).(life := life, status := Completed)
  }

  function Row3(c: Config, tek: Name, leaf: Name, labels: Labels): (k: Key) {
    Draft(c, TekReq(tek, leaf, labels), 3).(status := Completed)
  }

  /** What each of the three requests needs of the hierarchy. */
  lemma ThreeFit(c: Config, root: Name, kek: Name, tek: Name, leaf: Name, t: Tables, id: Uuid, labels: Labels)
    requires ThreeKinds(c, root, kek, tek, leaf)
    ensures FitsHierarchy(c.hierarchy.specs, t, Draft(c, RootReq(root), id))
    ensures 1 in t.keys && t.keys[1].tenant == 0 && t.keys[1].kind == root ==>
              FitsHierarchy(c.hierarchy.specs, t, Draft(c, KekReq(kek), id))
    ensures 2 in t.keys && t.keys[2].tenant == 0 && t.keys[2].kind == kek ==>
              FitsHierarchy(c.hierarchy.specs, t, Draft(c, TekReq(tek, leaf, labels), id))
    ensures ValidAnnounce(c, TekReq(tek, leaf, labels))
  {
  }

  lemma RootFresh(c: Config, w: World, root: Name, kek: Name, tek: Name, leaf: Name)
    requires ThreeKinds(c, root, kek, tek, leaf) && w.root == Tables({0}, map[], map[]) && w.jobs == {}
    ensures Fresh(c, w, RootReq(root), 1)
  {
    ThreeFit(c, root, kek, tek, leaf, w.root, 1, map[]);
  }

  /** The root key, announced. */
  lemma RootAnnounced(c: Config, root: Name, kek: Name, tek: Name, leaf: Name) returns (w: World)
    requires Deployed(c) && ThreeKinds(c, root, kek, tek, leaf)
    ensures Reached(c, w) && w.vaults == map[] && w.jobs == {Draft(c, RootReq(root), 1)}
    ensures w.root == Tables({0}, map[1 := Row1(c, root, PreActivation)], map[])
  {
    var w0 := Start(c);
    RootFresh(c, w0, root, kek, tek, leaf);
    w := FirstRound(c, w0, RootReq(root), 1);
    OneRow(c, w0, w, root);
  }

  lemma OneRow(c: Config, w0: World, w: World, root: Name)
    requires w0.root == Tables({0}, map[], map[]) && w0.jobs == {} && w.jobs == w0.jobs + {Draft(c, RootReq(root), 1)}
    requires w.root == w0.root.(keys := w0.root.keys[1 := Draft(c, RootReq(root), 1).(status := Completed)])
    ensures w.root == Tables({0}, map[1 := Row1(c, root, PreActivation)], map[]) && w.jobs == {Draft(c, RootReq(root), 1)}
  {
    assert w.root.keys == map[1 := Row1(c, root, PreActivation)];
  }

  /** ... and bound to a provider. */
  lemma RootBound(c: Config, root: Name, kek: Name, tek: Name, leaf: Name) returns (w: World)
    requires Deployed(c) && ThreeKinds(c, root, kek, tek, leaf)
    ensures Reached(c, w) && w.jobs == {Draft(c, RootReq(root), 1)} && w.root.tenants == {0}
    ensures w.root.keys == map[1 := Row1(c, root, PreActivation)] && ProviderReady(w, Row1(c, root, PreActivation))
  {
    var w0 := RootAnnounced(c, root, kek, tek, leaf);
    ProviderBound(w0, Row1(c, root, PreActivation));
    ReachStep(c, w0, CreateProviderStep(KeyIdentifier(1, 0), SPEC, "key", NO_FAULTS));
    w := CreateProvider(w0, KeyIdentifier(1, 0), SPEC, "key", NO_FAULTS);
  }

  ghost predicate Two(c: Config, w: World, root: Name, kek: Name, life1: LifeCycle, life2: LifeCycle) {
    w.root.keys.Keys == {1, 2} && w.root.keys[1] == Row1(c, root, life1) && w.root.keys[2] == Row2(c, kek, life2)
  }

  ghost predicate Three(c: Config, w: World, root: Name, kek: Name, tek: Name, leaf: Name, labels: Labels,
                        life1: LifeCycle, life2: LifeCycle) {
    && w.root.keys.Keys == {1, 2, 3}
    && w.root.keys[1] == Row1(c, root, life1) && w.root.keys[2] == Row2(c, kek, life2)
    && w.root.keys[3] == Row3(c, tek, leaf, labels)
  }

  lemma SecondFresh(c: Config, w: World, root: Name, kek: Name, tek: Name, leaf: Name)
    requires ThreeKinds(c, root, kek, tek, leaf) && 0 in w.root.tenants && w.jobs == {Draft(c, RootReq(root), 1)}
    requires w.root.keys == map[1 := Row1(c, root, PreActivation)]
    ensures Fresh(c, w, KekReq(kek), 2)
  {
    ThreeFit(c, root, kek, tek, leaf, w.root, 2, map[]);
    NameFree(w, 0, kek);
  }

  lemma TwoAnnounced(c: Config, root: Name, kek: Name, tek: Name, leaf: Name) returns (w: World)
    requires Deployed(c) && ThreeKinds(c, root, kek, tek, leaf)
    ensures Reached(c, w) && 0 in w.root.tenants && ProviderReady(w, Row1(c, root, PreActivation))
    ensures w.jobs == {Draft(c, RootReq(root), 1), Draft(c, KekReq(kek), 2)}
    ensures Two(c, w, root, kek, PreActivation, PreActivation)
  {
    var w0 := RootBound(c, root, kek, tek, leaf);
    SecondFresh(c, w0, root, kek, tek, leaf);
    w := FirstRound(c, w0, KekReq(kek), 2);
    ProviderKept(w0, w, Row1(c, root, PreActivation));
    SecondAfter(c, w0, w, root, kek);
  }

  lemma SecondAfter(c: Config, w0: World, w: World, root: Name, kek: Name)
    requires w0.root.keys == map[1 := Row1(c, root, PreActivation)] && After(c, w0, w, KekReq(kek), 2)
    requires w0.jobs == {Draft(c, RootReq(root), 1)}
    ensures Two(c, w, root, kek, PreActivation, PreActivation) && w.jobs == {Draft(c, RootReq(root), 1), Draft(c, KekReq(kek), 2)}
  {
  }

  lemma ThirdFresh(c: Config, w: World, root: Name, kek: Name, tek: Name, leaf: Name, labels: Labels)
    requires ThreeKinds(c, root, kek, tek, leaf) && 0 in w.root.tenants && Two(c, w, root, kek, PreActivation, PreActivation)
    requires w.jobs == {Draft(c, RootReq(root), 1), Draft(c, KekReq(kek), 2)}
    ensures Fresh(c, w, TekReq(tek, leaf, labels), 3)
  {
    ThreeFit(c, root, kek, tek, leaf, w.root, 3, labels);
    NameFree(w, 0, tek);
  }

  /** The third key settled or, if its labels are refused, failed. */
  ghost predicate ThirdIn(c: Config, w: World, root: Name, kek: Name, tek: Name, leaf: Name, labels: Labels) {
    && w.root.keys.Keys == {1, 2, 3} && (forall p | p in w.jobs :: p.id != 4)
    && w.root.keys[1] == Row1(c, root, PreActivation) && w.root.keys[2] == Row2(c, kek, PreActivation)
    && w.root.keys[3] == Row3(c, tek, leaf, labels).(status := if HasReserved(labels) then Failed else Completed)
  }

  lemma ThirdAfter(c: Config, w0: World, w: World, root: Name, kek: Name, tek: Name, leaf: Name, labels: Labels)
    requires Two(c, w0, root, kek, PreActivation, PreActivation) && After(c, w0, w, TekReq(tek, leaf, labels), 3) && leaf != ""
    requires w0.jobs == {Draft(c, RootReq(root), 1), Draft(c, KekReq(kek), 2)}
    ensures ThirdIn(c, w, root, kek, tek, leaf, labels)
  {
  }

  lemma ThirdAnnounced(c: Config, root: Name, kek: Name, tek: Name, leaf: Name, labels: Labels) returns (w: World)
    requires Deployed(c) && ThreeKinds(c, root, kek, tek, leaf)
    ensures Reached(c, w) && 0 in w.root.tenants && ProviderReady(w, Row1(c, root, PreActivation))
    ensures ThirdIn(c, w, root, kek, tek, leaf, labels)
  {
    var w0 := TwoAnnounced(c, root, kek, tek, leaf);
    ThirdFresh(c, w0, root, kek, tek, leaf, labels);
    w := FirstRound(c, w0, TekReq(tek, leaf, labels), 3);
    ProviderKept(w0, w, Row1(c, root, PreActivation));
    ThirdAfter(c, w0, w, root, kek, tek, leaf, labels);
  }

  lemma ThirdAgain(c: Config, w: World, root: Name, kek: Name, tek: Name, leaf: Name, labels: Labels)
    requires ThreeKinds(c, root, kek, tek, leaf) && 0 in w.root.tenants && ThirdIn(c, w, root, kek, tek, leaf, labels)
    ensures Again(c, w, TekReq(tek, leaf, map[]), 4, 3)
  {
    ThreeFit(c, root, kek, tek, leaf, w.root, 4, map[]);
  }

  /** The three keys announced and settled, the last one with these labels stored. */
  lemma ThreeAnnounced(c: Config, root: Name, kek: Name, tek: Name, leaf: Name, labels: Labels) returns (w: World)
    requires Deployed(c) && ThreeKinds(c, root, kek, tek, leaf)
    ensures Reached(c, w) && 0 in w.root.tenants && ProviderReady(w, Row1(c, root, PreActivation))
    ensures Three(c, w, root, kek, tek, leaf, labels, PreActivation, PreActivation)
  {
    w := ThirdAnnounced(c, root, kek, tek, leaf, labels);
    if HasReserved(labels) {
      var w1 := w;
      ThirdAgain(c, w1, root, kek, tek, leaf, labels);
      w := SecondRound(c, w1, TekReq(tek, leaf, map[]), 4, 3);
      ProviderKept(w1, w, Row1(c, root, PreActivation));
      ThirdSettled(c, w1, w, root, kek, tek, leaf, labels);
    }
  }

  lemma ThirdSettled(c: Config, w: World, w2: World, root: Name, kek: Name, tek: Name, leaf: Name, labels: Labels)
    requires ThirdIn(c, w, root, kek, tek, leaf, labels) && w2.root == SetStates(w.root, 3, PreActivation, Completed)
    ensures Three(c, w2, root, kek, tek, leaf, labels, PreActivation, PreActivation)
  {
  }

  // ------------------------------------------------------------------ the runs

  /** The three keys are where their children look for them, and ready in turn. */
  lemma ThreeLines(c: Config, w: World, root: Name, kek: Name, tek: Name, leaf: Name, labels: Labels, life1: LifeCycle, life2: LifeCycle)
    requires ThreeKinds(c, root, kek, tek, leaf) && Three(c, w, root, kek, tek, leaf, labels, life1, life2)
    requires Managed(c, w) && WellFormed(c.hierarchy.specs, w.root)
    ensures LineShaped(c, w, 1)
    ensures life1 == Active ==> LineShaped(c, w, 2)
    ensures life1 == Active && life2 == Active ==> LineShaped(c, w, 3)
    ensures Equipped(c, w, 1) && (ProviderReady(w, Row1(c, root, PreActivation)) ==> Equipped(c, w, 2))
    ensures !HasReserved(labels) ==> Equipped(c, w, 3)
  {
    assert Housed(c, w, 1) && Housed(c, w, 2) && Housed(c, w, 3);
  }

  /** The first two keys active and settled. */
  lemma FirstActive(c: Config, root: Name, kek: Name, tek: Name, leaf: Name, labels: Labels) returns (w: World)
    requires Deployed(c) && ThreeKinds(c, root, kek, tek, leaf)
    ensures Reached(c, w) && 0 in w.root.tenants && ProviderReady(w, Row1(c, root, PreActivation))
    ensures Three(c, w, root, kek, tek, leaf, labels, Active, PreActivation)
  {
    var w0 := ThreeAnnounced(c, root, kek, tek, leaf, labels);
    ReachedKeeps(c, w0);
    ThreeLines(c, w0, root, kek, tek, leaf, labels, PreActivation, PreActivation);
    w := SettleAlone(c, w0, 1);
    OneUp(c, w0, w, root, kek, tek, leaf, labels, PreActivation, 1);
  }

  /** The rows after one of the first two keys was settled. */
  lemma OneUp(c: Config, w0: World, w: World, root: Name, kek: Name, tek: Name, leaf: Name, labels: Labels, life1: LifeCycle, i: Uuid)
    requires Three(c, w0, root, kek, tek, leaf, labels, life1, PreActivation) && (i == 1 || i == 2)
    requires w.root.keys == w0.root.keys[i := w0.root.keys[i].(life := Active, status := Completed)]
    requires ProvidersStay(w0, w) && ProviderReady(w0, Row1(c, root, PreActivation))
    ensures i == 1 ==> Three(c, w, root, kek, tek, leaf, labels, Active, PreActivation)
    ensures i == 2 ==> Three(c, w, root, kek, tek, leaf, labels, life1, Active)
    ensures ProviderReady(w, Row1(c, root, PreActivation))
  {
    assert ProviderReady(w0, w0.root.keys[1]);
    assert ProviderReady(w, w0.root.keys[1]);
  }

  lemma TwoActive(c: Config, root: Name, kek: Name, tek: Name, leaf: Name, labels: Labels) returns (w: World)
    requires Deployed(c) && ThreeKinds(c, root, kek, tek, leaf)
    ensures Reached(c, w) && 0 in w.root.tenants && Three(c, w, root, kek, tek, leaf, labels, Active, Active)
    ensures LineShaped(c, w, 3) && (!HasReserved(labels) ==> Equipped(c, w, 3))
  {
    var w0 := FirstActive(c, root, kek, tek, leaf, labels);
    ReachedKeeps(c, w0);
    ThreeLines(c, w0, root, kek, tek, leaf, labels, Active, PreActivation);
    w := SettleAlone(c, w0, 2);
    OneUp(c, w0, w, root, kek, tek, leaf, labels, Active, 2);
    ReachedKeeps(c, w);
    ThreeLines(c, w, root, kek, tek, leaf, labels, Active, Active);
  }

  /** The working deployment has a run that leaves a key of its agent active and settled, at root and
      agent, with a secret that resolves. */
  lemma AgentKeyGoesActive(root: Name, kek: Name, tek: Name, dek: Name, leaf: Name) returns (w: World, b: Uuid, secret: nat)
    requires SampleNames(root, kek, tek, dek, leaf)
    ensures var c, v := Working(root, kek, tek, dek, leaf), VersionId(0, b, 1, 1);
            && Reached(c, w) && Settled(w, b) && w.root.keys[b].managedBy == leaf && w.root.keys[b].kind == tek
            && b in w.agents[0].keys && w.agents[0].keys[b].life == Active && v in w.agents[0].versions
            && Serves(c, AtAgent(0), tek)
            && ResolveSecret(c, w, AtAgent(0), tek, w.agents[0].versions[v]) == Ok(Raw(secret))
  {
    var c := Working(root, kek, tek, dek, leaf);
    WorkingHasThree(root, kek, tek, dek, leaf);
    WorkingPlaces(root, kek, tek, dek, leaf);
    w, b, secret := BoundKindGoesActive(c, AtAgent(0), 2);
  }

  /** It also has a run that leaves a row stranded: its announce job is confirmed a second time while
      its activation is pending. */
  lemma StrandedReached(root: Name, kek: Name, tek: Name, dek: Name, leaf: Name) returns (w: World)
    requires SampleNames(root, kek, tek, dek, leaf)
    ensures Reached(Working(root, kek, tek, dek, leaf), w) && Stranded(w, 1)
  {
    var c := Working(root, kek, tek, dek, leaf);
    WorkingHasThree(root, kek, tek, dek, leaf);
    w := FirstStranded(c, root, kek, tek, leaf);
  }

  lemma FirstStranded(c: Config, root: Name, kek: Name, tek: Name, leaf: Name) returns (w: World)
    requires Deployed(c) && ThreeKinds(c, root, kek, tek, leaf)
    ensures Reached(c, w) && Stranded(w, 1)
  {
    var w0 := RootAnnounced(c, root, kek, tek, leaf);
    ReachedKeeps(c, w0);
    OneLine(c, w0, root);
    var w1 := WakeAlone(c, w0, 1);
    w := ConfirmReached(c, w1, Draft(c, RootReq(root), 1));
  }

  lemma OneLine(c: Config, w: World, root: Name)
    requires Managed(c, w) && WellFormed(c.hierarchy.specs, w.root) && 1 in w.root.keys && w.root.keys[1] == Row1(c, root, PreActivation)
    ensures LineShaped(c, w, 1)
  {
  }

  /** A delivery that is refused commits the version it resolved and fails the key. */
  lemma RefusedOutcome(c: Config, w: World, key: Key, f: TaskFaults)
    requires Sized(c, w) && key.id in w.root.keys && w.root.keys[key.id] == key && Smooth(f)
    requires var r := ResolveVersion(w.root, key, f);
             && r.Resolved? && key.id in r.tables.keys && r.tables.keys[key.id] == key
             && SealLocally(c, w, key, r.version, r.isNew, f) == LocalSeal(w, Done)
             && UpsertRemote(c, w, key, r.version, f).verdict.GiveUp?
    ensures var w2 := Process(c, w, key, f).world;
            && w2.root.versions == ResolveVersion(w.root, key, f).tables.versions
            && w2.root.keys == w.root.keys[key.id := key.(status := Failed)]
  {
  }

  lemma RefusedPush(c: Config, w: World, key: Key, kv: KeyVersion, f: TaskFaults)
    requires Sized(c, w) && key.managedBy != c.name && FindAgent(c.agents, key.managedBy).Some? && HasReserved(key.labels) && Smooth(f)
    ensures UpsertRemote(c, w, key, kv, f).verdict.GiveUp?
  {
  }

  /** A due key below a settled parent resolves to a version of its own. */
  lemma DueResolves(c: Config, w: World, key: Key)
    requires Running(c, w, key) && Delivered(c, w) && key.parent.Some? && Settled(w, key.parent.value)
    ensures var r := ResolveVersion(w.root, key, CALM);
            && r.Resolved? && r.version.id.keyId == key.id && r.version.id in r.tables.versions
            && r.tables.keys == w.root.keys
  {
    CalmIsSmooth();
    DerivedPin(c, w, key.id);
    SmoothResolves(c, w, key, CALM);
    ResolvedIsLatest(c, w, key, CALM);
    assert RowsKeyed(TablesAt(w, AtRoot));
    ResolvedIsStored(w.root, key, CALM);
  }

  lemma ResolvedIsStored(t: Tables, key: Key, f: TaskFaults)
    requires RowsKeyed(t) && ResolveVersion(t, key, f).Resolved?
    ensures ResolveVersion(t, key, f).version.id in ResolveVersion(t, key, f).tables.versions
  {
  }

  lemma NothingLocal(c: Config, w: World, key: Key, kv: KeyVersion, isNew: bool, f: TaskFaults)
    requires Sized(c, w) && key.managedBy != c.name && FindKeySpec(c.hierarchy.specs, key.kind).Some?
    ensures SealLocally(c, w, key, kv, isNew, f) == LocalSeal(w, Done)
  {
  }

  /** A due key of an agent, below a settled parent, that carries a reserved label. */
  lemma RefusedDue(c: Config, w: World, key: Key) returns (v: VersionId)
    requires Running(c, w, key) && Delivered(c, w) && key.managedBy != c.name && HasReserved(key.labels)
    requires key.parent.Some? && Settled(w, key.parent.value)
    ensures var w2 := Process(c, w, key, CALM).world;
            v.keyId == key.id && v in w2.root.versions && w2.root.keys == w.root.keys[key.id := key.(status := Failed)]
  {
    CalmIsSmooth();
    assert ManagerKnown(c, key) && Placed(c.hierarchy.specs, w.root, key.id);
    DueResolves(c, w, key);
    var r := ResolveVersion(w.root, key, CALM);
    NothingLocal(c, w, key, r.version, r.isNew, CALM);
    RefusedPush(c, w, key, r.version, CALM);
    RefusedOutcome(c, w, key, CALM);
    v := r.version.id;
  }

  lemma RefusedTask(c: Config, w: World, i: Uuid) returns (w2: World, v: VersionId)
    requires Deployed(c) && Reached(c, w) && i in w.root.keys && w.root.keys[i].life == Active && w.root.keys[i].status == Pending
    requires w.root.keys[i].managedBy != c.name && HasReserved(w.root.keys[i].labels) && w.root.keys[i].tenant in w.root.tenants
    requires w.root.keys[i].parent.Some? && Settled(w, w.root.keys[i].parent.value)
    ensures Reached(c, w2) && v.keyId == i && v in w2.root.versions
    ensures w2.root.keys == w.root.keys[i := w.root.keys[i].(status := Failed)]
  {
    ReachedKeeps(c, w);
    InvKeysById(c, w);
    var key := w.root.keys[i];
    v := RefusedDue(c, w, key);
    w2 := Process(c, w, key, CALM).world;
    ReachStep(c, w, TaskStep(Activate, Identify(key), CALM));
    TaskIsProcess(c, w, key);
  }

  lemma TaskIsProcess(c: Config, w: World, key: Key)
    requires Sized(c, w) && key.tenant in w.root.tenants && key.id in w.root.keys && w.root.keys[key.id] == key
    requires key.life == Active && key.status == Pending
    ensures Next(c, w, TaskStep(Activate, Identify(key), CALM)) == Process(c, w, key, CALM).world
  {
  }

  lemma ThirdRefused(c: Config, root: Name, kek: Name, tek: Name, leaf: Name, labels: Labels) returns (w: World, v: VersionId)
    requires Deployed(c) && ThreeKinds(c, root, kek, tek, leaf) && HasReserved(labels)
    ensures Reached(c, w) && v.keyId == 3 && v in w.root.versions && 3 in w.root.keys
    ensures w.root.keys[3].managedBy == leaf && w.root.keys[3].life == Active && w.root.keys[3].status == Failed
    ensures v !in w.agents[0].versions && Slot(AtAgent(0), v) !in w.vaults
  {
    var w0 := TwoActive(c, root, kek, tek, leaf, labels);
    var w1 := WakeAlone(c, w0, 3);
    w, v := RefusedTask(c, w1, 3);
    ReachedKeeps(c, w);
    var n := ShippedIsStored(c, w, v);
  }

  /** And a run that commits a version of an agent's key without row or secret at the agent: the key was
      announced with a reserved label, which failed, and then again without one. */
  lemma RefusedVersionReached(root: Name, kek: Name, tek: Name, dek: Name, leaf: Name, labels: Labels) returns (w: World, v: VersionId)
    requires SampleNames(root, kek, tek, dek, leaf) && HasReserved(labels)
    ensures Reached(Working(root, kek, tek, dek, leaf), w) && v in w.root.versions && v.keyId == 3 && 3 in w.root.keys
    ensures w.root.keys[3].managedBy == leaf && w.root.keys[3].life == Active && w.root.keys[3].status == Failed
    ensures v !in w.agents[0].versions && Slot(AtAgent(0), v) !in w.vaults
  {
    WorkingHasThree(root, kek, tek, dek, leaf);
    w, v := ThirdRefused(Working(root, kek, tek, dek, leaf), root, kek, tek, leaf, labels);
  }

  lemma TwinPlaces(root: Name, kek: Name, tek: Name, dek: Name, left: Name, right: Name)
    requires Names([root, kek, tek, dek]) && Names(["root", left, right])
    ensures var c := Twins(root, kek, tek, dek, left, right);
            && InSegment(c.hierarchy.specs, c.agents[0].segment, 2) && InSegment(c.hierarchy.specs, c.agents[1].segment, 3)
            && ChainBound(c, AtAgent(0), 2) && Serves(c, AtAgent(1), dek) && ParentOf(c, AtAgent(1), dek) == ManagerAt(AtAgent(1))
  {
    var c := Twins(root, kek, tek, dek, left, right);
    var names := ["root", left, right];
    assert names[0] != names[1] && names[0] != names[2] && names[1] != "" && names[2] != "";
    WorkingPlaces(root, kek, tek, dek, left);
    var kinds := [root, kek, tek, dek];
    assert kinds[1] != kinds[2] && kinds[2] != kinds[3] && kinds[0] != kinds[1];
    assert FindAgent(c.agents, "root") == None;
    assert ChainBound(c, AtRoot, 1);
  }

  lemma TwinUnhoused(c: Config, dek: Name) returns (w: World, b: Uuid)
    requires Deployed(c) && |c.hierarchy.specs| == 4 && c.hierarchy.specs[3].kind == dek && |c.agents| == 2
    requires InSegment(c.hierarchy.specs, c.agents[0].segment, 2) && InSegment(c.hierarchy.specs, c.agents[1].segment, 3)
    requires ChainBound(c, AtAgent(0), 2) && Serves(c, AtAgent(1), dek) && ParentOf(c, AtAgent(1), dek) == ManagerAt(AtAgent(1))
    ensures Reached(c, w) && Managed(c, w) && WellFormed(c.hierarchy.specs, w.root)
    ensures b in w.root.keys && w.root.keys[b].life == PreActivation && w.root.keys[b].status == Completed && !Housed(c, w, b)
  {
    w, b := UnhousedReached(c, AtAgent(1), 3, AtAgent(0));
  }

  /** With two agents for the same kinds there is a run that announces a key at one of them below a
      parent at the other, and settles it, although its node does not find the parent. */
  lemma UnhousedKeyReached(root: Name, kek: Name, tek: Name, dek: Name, left: Name, right: Name) returns (w: World, b: Uuid)
    requires Names([root, kek, tek, dek]) && Names(["root", left, right])
    ensures var c := Twins(root, kek, tek, dek, left, right);
            && Deployed(c) && Reached(c, w) && Managed(c, w) && WellFormed(c.hierarchy.specs, w.root)
            && b in w.root.keys && w.root.keys[b].life == PreActivation && w.root.keys[b].status == Completed && !Housed(c, w, b)
  {
    TwinsAreDeployed(root, kek, tek, dek, left, right);
    TwinPlaces(root, kek, tek, dek, left, right);
    w, b := TwinUnhoused(Twins(root, kek, tek, dek, left, right), dek);
  }
}
