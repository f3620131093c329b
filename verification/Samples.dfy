/** Small deployments: one that works, one with two agents for the same kinds, and one that validation
    accepts although its agent can never seal. */
module Samples {
  import opened Model
  import opened Hierarchy
  import opened Topology
  import opened Worlds
  import opened Envelope
  import opened Sealing
  import opened Invariant

  /** An agent that manages a transport key and a data key, below whatever the root manages. */
  function Leaf(name: Name, tek: Name, dek: Name): (s: TopologySegment) {
    TopologySegment(name, Segment(tek, dek),
                    map[tek := KeyBinding(Some(7), true, true, Some("root")), dek := KeyBinding(None, true, true, None)])
  }

  /** The root manages a key-encryption key between its root key and the agent's keys. */
  function Working(root: Name, kek: Name, tek: Name, dek: Name, leaf: Name): (c: Config) {
    Config("root",
           KeyHierarchy("h", [KeySpec(root, RootRole, true), KeySpec(kek, Kek, true), KeySpec(tek, Tek, true), KeySpec(dek, Dek, true)]),
           Segment(root, kek), map[kek := KeyBinding(None, true, true, None)], [Leaf(leaf, tek, dek)])
  }

  /** Two agents that manage the same kinds. */
  function Twins(root: Name, kek: Name, tek: Name, dek: Name, left: Name, right: Name): (c: Config) {
    Working(root, kek, tek, dek, left).(agents := [Leaf(left, tek, dek), Leaf(right, tek, dek)])
  }

  /** The agent's keys come right below the root key. */
  function Stuck(root: Name, tek: Name, dek: Name, leaf: Name): (c: Config) {
    Config("root",
           KeyHierarchy("h", [KeySpec(root, RootRole, true), KeySpec(tek, Tek, true), KeySpec(dek, Dek, true)]),
           Segment(root, root), map[], [Leaf(leaf, tek, dek)])
  }

  lemma LeafSegment(specs: seq<KeySpec>, s: TopologySegment, i: nat)
    requires i + 2 == |specs| && DistinctKinds(specs) && specs[i].role == Tek && specs[i + 1].role == Dek
    requires s == Leaf(s.name, specs[i].kind, specs[i + 1].kind)
    ensures SegmentOk(specs, s.segment, s.bindings, false)
  {
    IndexAt(specs, i);
    IndexAt(specs, i + 1);
    assert specs[i].kind != specs[i + 1].kind;
  }

  lemma LeafOk(specs: seq<KeySpec>, s: TopologySegment, i: nat)
    requires i + 2 == |specs| && DistinctKinds(specs) && specs[i].role == Tek && specs[i + 1].role == Dek
    requires s == Leaf(s.name, specs[i].kind, specs[i + 1].kind)
    ensures AgentSegmentOk(specs, s.segment, s.bindings)
  {
    LeafSegment(specs, s, i);
    IndexAt(specs, i);
    IndexAt(specs, i + 1);
    assert specs[i].kind != specs[i + 1].kind;
  }

  /** Agents that all manage the last two kinds. */
  ghost predicate Leaves(c: Config, i: nat)
    requires i + 2 == |c.hierarchy.specs|
  {
    && DistinctNames(c.agents)
    && forall a | 0 <= a < |c.agents| ::
         && c.agents[a].name != "root" && c.agents[a].name != ""
         && c.agents[a] == Leaf(c.agents[a].name, c.hierarchy.specs[i].kind, c.hierarchy.specs[i + 1].kind)
  }

  /** An agent's start names the root, whose segment holds the kind before it. */
  lemma LeafProviders(c: Config, i: nat)
    requires 0 < i && i + 2 == |c.hierarchy.specs| && DistinctKinds(c.hierarchy.specs) && Leaves(c, i)
    requires InSegment(c.hierarchy.specs, c.segment, i - 1)
    ensures AgentProvidersOk(c)
  {
    IndexAt(c.hierarchy.specs, i - 1);
    IndexAt(c.hierarchy.specs, i);
    assert FindAgent(c.agents, "root") == None;
  }

  lemma LeafAccepted(c: Config, i: nat)
    requires 0 < i && i + 2 == |c.hierarchy.specs| && Valid(c.hierarchy) && c.hierarchy.specs[i].role == Tek && Leaves(c, i)
    requires InSegment(c.hierarchy.specs, c.segment, i - 1) && RootSegmentOk(c.hierarchy.specs, c.segment, c.bindings)
    requires ProvidersOk(c, c.bindings) && c.name == "root"
    ensures Deployed(c)
  {
    forall a | 0 <= a < |c.agents| ensures AgentSegmentOk(c.hierarchy.specs, c.agents[a].segment, c.agents[a].bindings) {
      LeafOk(c.hierarchy.specs, c.agents[a], i);
    }
    LeafProviders(c, i);
  }

  ghost predicate Names(names: seq<Name>) {
    (forall i | 0 <= i < |names| :: names[i] != "") && forall i, j | 0 <= i < j < |names| :: names[i] != names[j]
  }

  lemma WorkingRoot(c: Config, root: Name, kek: Name, tek: Name, dek: Name, leaf: Name)
    requires c == Working(root, kek, tek, dek, leaf) && Valid(c.hierarchy)
    ensures RootSegmentOk(c.hierarchy.specs, c.segment, c.bindings) && InSegment(c.hierarchy.specs, c.segment, 1)
    ensures ProvidersOk(c, c.bindings)
  {
    IndexAt(c.hierarchy.specs, 0);
    IndexAt(c.hierarchy.specs, 1);
    assert c.hierarchy.specs[1].kind == kek;
  }

  lemma WorkingHierarchy(root: Name, kek: Name, tek: Name, dek: Name, leaf: Name)
    requires Names([root, kek, tek, dek])
    ensures Valid(Working(root, kek, tek, dek, leaf).hierarchy)
  {
    var names, specs := [root, kek, tek, dek], Working(root, kek, tek, dek, leaf).hierarchy.specs;
    assert forall i | 0 <= i < 4 :: specs[i].kind == names[i];
  }

  /** Validation accepts the working deployment, and it reaches its root key locally. */
  lemma WorkingIsDeployed(root: Name, kek: Name, tek: Name, dek: Name, leaf: Name)
    requires Names([root, kek, tek, dek]) && leaf != "root" && leaf != ""
    ensures Deployed(Working(root, kek, tek, dek, leaf)) && RootKeyReachedLocally(Working(root, kek, tek, dek, leaf))
  {
    var c := Working(root, kek, tek, dek, leaf);
    WorkingHierarchy(root, kek, tek, dek, leaf);
    WorkingRoot(c, root, kek, tek, dek, leaf);
    LeafAccepted(c, 2);
    IndexAt(c.hierarchy.specs, 2);
  }

  /** Validation accepts the twins as well: segments may overlap. */
  lemma TwinsAreDeployed(root: Name, kek: Name, tek: Name, dek: Name, left: Name, right: Name)
    requires Names([root, kek, tek, dek]) && Names(["root", left, right])
    ensures Deployed(Twins(root, kek, tek, dek, left, right))
  {
    var c := Twins(root, kek, tek, dek, left, right);
    var names := ["root", left, right];
    assert names[0] != names[1] && names[0] != names[2] && names[1] != names[2] && names[1] != "" && names[2] != "";
    WorkingHierarchy(root, kek, tek, dek, left);
    WorkingRoot(Working(root, kek, tek, dek, left), root, kek, tek, dek, left);
    TwinRoot(c, root, kek, tek, dek, left, right);
    LeafAccepted(c, 2);
  }

  lemma TwinRoot(c: Config, root: Name, kek: Name, tek: Name, dek: Name, left: Name, right: Name)
    requires c == Twins(root, kek, tek, dek, left, right) && ProvidersOk(Working(root, kek, tek, dek, left), c.bindings)
    ensures ProvidersOk(c, c.bindings)
  {
    assert forall kind | kind in c.bindings :: c.bindings[kind].parentProvider == None;
  }

  lemma StuckHierarchy(root: Name, tek: Name, dek: Name, leaf: Name)
    requires Names([root, tek, dek])
    ensures Valid(Stuck(root, tek, dek, leaf).hierarchy)
  {
    var names, specs := [root, tek, dek], Stuck(root, tek, dek, leaf).hierarchy.specs;
    assert forall i | 0 <= i < 3 :: specs[i].kind == names[i];
  }

  /** Validation accepts the other one as well, although its agent can seal nothing. */
  lemma StuckIsDeployed(root: Name, tek: Name, dek: Name, leaf: Name)
    requires Names([root, tek, dek]) && leaf != "root" && leaf != ""
    ensures Deployed(Stuck(root, tek, dek, leaf))
    ensures forall w: World, kv: KeyVersion, d: Draw | Sized(Stuck(root, tek, dek, leaf), w) ::
              CreateSecret(Stuck(root, tek, dek, leaf), w, AtAgent(0), tek, kv, d).None?
  {
    var c := Stuck(root, tek, dek, leaf);
    StuckHierarchy(root, tek, dek, leaf);
    IndexAt(c.hierarchy.specs, 0);
    LeafAccepted(c, 1);
    IndexAt(c.hierarchy.specs, 1);
    AgentStartIsRemote(c, 0);
    forall w: World, kv: KeyVersion, d: Draw | Sized(c, w) ensures CreateSecret(c, w, AtAgent(0), tek, kv, d).None? {
      RemoteFirstKindNeverSeals(c, w, AtAgent(0), kv, d);
    }
  }
}
