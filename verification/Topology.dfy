/** Which node manages which kinds, and where each node finds the parent of a kind. */
module Topology {
  import opened Model
  import opened Hierarchy

  datatype Segment = Segment(start: Name, end: Name)

  /** `sealer` identifies the static secret of the transport sealer, if one is bound. */
  datatype KeyBinding = KeyBinding(sealer: Option<nat>, cryptor: bool, vault: bool, parentProvider: Option<Name>)
  {
    predicate HasRemoteParent() {
      parentProvider.Some? && parentProvider.value != ""
    }
  }

  type Bindings = map<Name, KeyBinding>

  datatype TopologySegment = TopologySegment(name: Name, segment: Segment, bindings: Bindings)

  datatype Config = Config(
    name: Name, hierarchy: KeyHierarchy, segment: Segment, bindings: Bindings, agents: seq<TopologySegment>)

  datatype TopologyError =
    | StartKindNotInHierarchy | EndKindNotInHierarchy | StartAfterEnd | BindingsMissing | BindingsExtra
    | RootStartNotFirst | RootEndIsTek | BindingMissingCryptor
    | AgentStartNotTek | AgentEndIsTek | AgentEndIsRoot | AgentContainsRoot
    | StartMissingParentKeyProvider | TekMissingSealer
    | DuplicateSegmentName | ProviderNotResolvable | ParentKindNotInProviderSegment
    | SegmentNameEmpty | SegmentKindEmpty | SegmentBindingsEmpty

  // ------------------------------------------------------- what acceptance means

  predicate InSegment(specs: seq<KeySpec>, seg: Segment, i: int) {
    && 0 <= i
    && 0 <= IndexOf(specs, seg.start) <= i <= IndexOf(specs, seg.end)
  }

  /** Membership of a kind in a segment. */
  predicate SegmentContains(specs: seq<KeySpec>, seg: Segment, kind: Name) {
    InSegment(specs, seg, IndexOf(specs, kind))
  }

  predicate SegmentOk(specs: seq<KeySpec>, seg: Segment, bs: Bindings, exemptRoot: bool) {
    && 0 <= IndexOf(specs, seg.start) <= IndexOf(specs, seg.end)
    && (forall i | IndexOf(specs, seg.start) <= i <= IndexOf(specs, seg.end) ::
          (exemptRoot && specs[i].role == RootRole) || specs[i].kind in bs)
    && (forall kind | kind in bs ::
          exists i | IndexOf(specs, seg.start) <= i <= IndexOf(specs, seg.end) :: specs[i].kind == kind)
  }

  predicate RootSegmentOk(specs: seq<KeySpec>, seg: Segment, bs: Bindings) {
    && SegmentOk(specs, seg, bs, true)
    && IndexOf(specs, seg.start) == 0
    && specs[IndexOf(specs, seg.end)].role != Tek
    && (forall i | 0 <= i <= IndexOf(specs, seg.end) && specs[i].role != RootRole ::
          specs[i].kind in bs && bs[specs[i].kind].cryptor)
  }

  predicate AgentSegmentOk(specs: seq<KeySpec>, seg: Segment, bs: Bindings) {
    && SegmentOk(specs, seg, bs, false)
    && specs[IndexOf(specs, seg.start)].role == Tek
    && (seg.start == seg.end || specs[IndexOf(specs, seg.end)].role !in {RootRole, Tek})
    && (forall i | IndexOf(specs, seg.start) <= i <= IndexOf(specs, seg.end) ::
          specs[i].role != RootRole && specs[i].kind in bs && bs[specs[i].kind].cryptor)
    && bs[specs[IndexOf(specs, seg.start)].kind].parentProvider.Some?
    && bs[specs[IndexOf(specs, seg.start)].kind].sealer.Some?
  }

  predicate DistinctNames(agents: seq<TopologySegment>) {
    forall i, j | 0 <= i < j < |agents| :: agents[i].name != agents[j].name
  }

  /** The segment a provider name stands for: an agent's, else the root's under the name "root". */
  function ProviderSegment(c: Config, name: Name): (r: Option<Segment>) {
    match FindAgent(c.agents, name)
    case Some(i) => Some(c.agents[i].segment)
    case None => if name == "root" then Some(c.segment) else None
  }

  /** The last segment of that name, as filling a map in order leaves it. */
  function FindAgent(agents: seq<TopologySegment>, name: Name): (r: Option<nat>)
    ensures r.Some? ==> r.value < |agents| && agents[r.value].name == name
    ensures r.None? ==> forall i | 0 <= i < |agents| :: agents[i].name != name
  {
    if agents == [] then None
    else if agents[|agents| - 1].name == name then Some(|agents| - 1)
    else FindAgent(agents[..|agents| - 1], name)
  }

  predicate ProviderOk(c: Config, kind: Name, b: KeyBinding) {
    b.parentProvider.Some? ==>
      var seg := ProviderSegment(c, b.parentProvider.value);
      && seg.Some?
      && var i := IndexOf(c.hierarchy.specs, kind);
         (i > 0
          && IndexOf(c.hierarchy.specs, seg.value.start) >= 0
          && IndexOf(c.hierarchy.specs, seg.value.end) >= 0)
         ==> InSegment(c.hierarchy.specs, seg.value, IndexOf(c.hierarchy.specs, c.hierarchy.specs[i - 1].kind))
  }

  predicate ProvidersOk(c: Config, bs: Bindings) {
    forall kind | kind in bs :: ProviderOk(c, kind, bs[kind])
  }

  predicate AgentSegmentsOk(specs: seq<KeySpec>, agents: seq<TopologySegment>) {
    forall i | 0 <= i < |agents| :: AgentSegmentOk(specs, agents[i].segment, agents[i].bindings)
  }

  predicate AgentProvidersOk(c: Config) {
    forall i | 0 <= i < |c.agents| :: ProvidersOk(c, c.agents[i].bindings)
  }

  predicate TopologyOk(c: Config) {
    && DistinctNames(c.agents)
    && AgentSegmentsOk(c.hierarchy.specs, c.agents)
    && ProvidersOk(c, c.bindings)
    && AgentProvidersOk(c)
  }

  predicate SegmentShapeOk(s: TopologySegment) {
    s.name != "" && s.segment.start != "" && s.segment.end != "" && s.bindings != map[]
  }

  ghost predicate Accepted(c: Config) {
    && Valid(c.hierarchy)
    && (forall i | 0 <= i < |c.agents| :: SegmentShapeOk(c.agents[i]))
    && RootSegmentOk(c.hierarchy.specs, c.segment, c.bindings)
    && TopologyOk(c)
  }

  // -------------------------------------------------------------- the validators

  method ValidateSegment(specs: seq<KeySpec>, seg: Segment, bs: Bindings, exemptRoot: bool)
    returns (err: Option<TopologyError>)
    ensures err.None? <==> SegmentOk(specs, seg, bs, exemptRoot)
  {
    var startIdx := IndexOf(specs, seg.start);
    if startIdx < 0 { return Some(StartKindNotInHierarchy); }
    var endIdx := IndexOf(specs, seg.end);
    if endIdx < 0 { return Some(EndKindNotInHierarchy); }
    if startIdx > endIdx { return Some(StartAfterEnd); }

    var rangeSet: set<Name> := {};
    var i := startIdx;
    while i <= endIdx
      invariant startIdx <= i <= endIdx + 1
      invariant forall kind :: kind in rangeSet <==> exists j | startIdx <= j < i :: specs[j].kind == kind
      invariant forall j | startIdx <= j < i :: (exemptRoot && specs[j].role == RootRole) || specs[j].kind in bs
    {
      rangeSet := rangeSet + {specs[i].kind};
      if !(exemptRoot && specs[i].role == RootRole) {
        if specs[i].kind !in bs { return Some(BindingsMissing); }
      }
      i := i + 1;
    }
    var extra := HasExtra(bs, rangeSet);
    return if extra then Some(BindingsExtra) else None;
  }

  /** Whether some kind is bound outside the range. */
  method HasExtra(bs: Bindings, rangeSet: set<Name>) returns (extra: bool)
    ensures extra <==> exists kind :: kind in bs && kind !in rangeSet
  {
    var rest := bs.Keys;
    while rest != {}
      invariant rest <= bs.Keys
      invariant forall kind | kind in bs && kind !in rest :: kind in rangeSet
      decreases rest
    {
      var kind :| kind in rest;
      if kind !in rangeSet { return true; }
      rest := rest - {kind};
    }
    return false;
  }

  method ValidateRootSegment(specs: seq<KeySpec>, seg: Segment, bs: Bindings) returns (err: Option<TopologyError>)
    ensures err.None? <==> RootSegmentOk(specs, seg, bs)
  {
    err := ValidateSegment(specs, seg, bs, true);
    if err.Some? { return; }
    if IndexOf(specs, seg.start) != 0 { return Some(RootStartNotFirst); }
    if specs[IndexOf(specs, seg.end)].role == Tek { return Some(RootEndIsTek); }
    var i := 0;
    while i <= IndexOf(specs, seg.end)
      invariant 0 <= i <= IndexOf(specs, seg.end) + 1
      invariant forall j | 0 <= j < i && specs[j].role != RootRole :: bs[specs[j].kind].cryptor
    {
      if specs[i].role != RootRole {
        if !bs[specs[i].kind].cryptor { return Some(BindingMissingCryptor); }
      }
      i := i + 1;
    }
  }

  method ValidateAgentSegment(specs: seq<KeySpec>, seg: Segment, bs: Bindings) returns (err: Option<TopologyError>)
    ensures err.None? <==> AgentSegmentOk(specs, seg, bs)
  {
    err := ValidateSegment(specs, seg, bs, false);
    if err.Some? { return; }
    var startIdx, endIdx := IndexOf(specs, seg.start), IndexOf(specs, seg.end);
    if specs[startIdx].role != Tek { return Some(AgentStartNotTek); }
    if seg.start != seg.end {
      if specs[endIdx].role == RootRole { return Some(AgentEndIsRoot); }
      if specs[endIdx].role == Tek { return Some(AgentEndIsTek); }
    }
    var i := startIdx;
    while i <= endIdx
      invariant startIdx <= i <= endIdx + 1
      invariant forall j | startIdx <= j < i :: specs[j].role != RootRole
    {
      if specs[i].role == RootRole { return Some(AgentContainsRoot); }
      i := i + 1;
    }
    if bs[seg.start].parentProvider.None? { return Some(StartMissingParentKeyProvider); }
    if bs[seg.start].sealer.None? { return Some(TekMissingSealer); }
    i := startIdx;
    while i <= endIdx
      invariant startIdx <= i <= endIdx + 1
      invariant forall j | startIdx <= j < i :: bs[specs[j].kind].cryptor
    {
      if !bs[specs[i].kind].cryptor { return Some(BindingMissingCryptor); }
      i := i + 1;
    }
  }

  /** The provider map the validator fills says the same as looking the name up. */
  method BuildProviders(c: Config) returns (providers: map<Name, Segment>)
    ensures forall n :: n in providers <==> ProviderSegment(c, n).Some?
    ensures forall n | n in providers :: ProviderSegment(c, n) == Some(providers[n])
  {
    providers := map["root" := c.segment];
    var i := 0;
    while i < |c.agents|
      invariant 0 <= i <= |c.agents|
      invariant forall n :: n in providers <==> ProviderSegment(c.(agents := c.agents[..i]), n).Some?
      invariant forall n | n in providers :: ProviderSegment(c.(agents := c.agents[..i]), n) == Some(providers[n])
    {
      providers := providers[c.agents[i].name := c.agents[i].segment];
      assert c.agents[..i + 1][..i] == c.agents[..i];
      i := i + 1;
    }
    assert c.agents[..i] == c.agents;
    assert c.(agents := c.agents[..i]) == c;
  }

  method ValidateProviders(c: Config, bs: Bindings, providers: map<Name, Segment>) returns (err: Option<TopologyError>)
    requires forall n :: n in providers <==> ProviderSegment(c, n).Some?
    requires forall n | n in providers :: ProviderSegment(c, n) == Some(providers[n])
    ensures err.None? <==> ProvidersOk(c, bs)
  {
    var specs := c.hierarchy.specs;
    var rest := bs.Keys;
    while rest != {}
      invariant rest <= bs.Keys
      invariant forall kind | kind in bs && kind !in rest :: ProviderOk(c, kind, bs[kind])
      decreases |rest|
    {
      var kind :| kind in rest;
      rest := rest - {kind};
      if bs[kind].parentProvider.Some? {
        var name := bs[kind].parentProvider.value;
        if name !in providers {
          assert !ProviderOk(c, kind, bs[kind]);
          return Some(ProviderNotResolvable);
        }
        var kindIdx := IndexOf(specs, kind);
        if kindIdx > 0 {
          var parentIdx := IndexOf(specs, specs[kindIdx - 1].kind);
          var startIdx, endIdx := IndexOf(specs, providers[name].start), IndexOf(specs, providers[name].end);
          if startIdx >= 0 && endIdx >= 0 {
            if parentIdx < startIdx || parentIdx > endIdx {
              assert !ProviderOk(c, kind, bs[kind]);
              return Some(ParentKindNotInProviderSegment);
            }
          }
        }
      }
    }
    return None;
  }

  method ValidateNames(agents: seq<TopologySegment>) returns (ok: bool)
    ensures ok <==> DistinctNames(agents)
  {
    var uniq: set<Name> := {};
    var i := 0;
    while i < |agents|
      invariant 0 <= i <= |agents|
      invariant forall j | 0 <= j < i :: agents[j].name in uniq
      invariant forall n | n in uniq :: exists j | 0 <= j < i :: agents[j].name == n
      invariant forall j, k | 0 <= j < k < i :: agents[j].name != agents[k].name
    {
      if agents[i].name in uniq { return false; }
      uniq := uniq + {agents[i].name};
      i := i + 1;
    }
    return true;
  }

  method ValidateAgentSegments(specs: seq<KeySpec>, agents: seq<TopologySegment>) returns (err: Option<TopologyError>)
    ensures err.None? <==> AgentSegmentsOk(specs, agents)
  {
    err := None;
    for i := 0 to |agents|
      invariant err.None?
      invariant forall j | 0 <= j < i :: AgentSegmentOk(specs, agents[j].segment, agents[j].bindings)
    {
      err := ValidateAgentSegment(specs, agents[i].segment, agents[i].bindings);
      if err.Some? { return; }
    }
  }

  method ValidateAgentProviders(c: Config, providers: map<Name, Segment>) returns (err: Option<TopologyError>)
    requires forall n :: n in providers <==> ProviderSegment(c, n).Some?
    requires forall n | n in providers :: ProviderSegment(c, n) == Some(providers[n])
    ensures err.None? <==> AgentProvidersOk(c)
  {
    err := None;
    for i := 0 to |c.agents|
      invariant err.None?
      invariant forall j | 0 <= j < i :: ProvidersOk(c, c.agents[j].bindings)
    {
      err := ValidateProviders(c, c.agents[i].bindings, providers);
      if err.Some? { return; }
    }
  }

  method ValidateTopology(c: Config) returns (err: Option<TopologyError>)
    ensures err.None? <==> TopologyOk(c)
  {
    var distinct := ValidateNames(c.agents);
    if !distinct { return Some(DuplicateSegmentName); }
    err := ValidateAgentSegments(c.hierarchy.specs, c.agents);
    if err.Some? { return; }
    var providers := BuildProviders(c);
    err := ValidateProviders(c, c.bindings, providers);
    if err.Some? { return; }
    err := ValidateAgentProviders(c, providers);
  }

  // ------------------------------------------------------------ parent resolution

  datatype Node = AtRoot | AtAgent(index: nat)

  predicate IsNode(c: Config, n: Node) {
    n.AtAgent? ==> n.index < |c.agents|
  }

  function NodeSegment(c: Config, n: Node): (seg: Segment)
    requires IsNode(c, n)
  {
    match n
    case AtRoot => c.segment
    case AtAgent(i) => c.agents[i].segment
  }

  function NodeBindings(c: Config, n: Node): (bs: Bindings)
    requires IsNode(c, n)
  {
    match n
    case AtRoot => c.bindings
    case AtAgent(i) => c.agents[i].bindings
  }

  /** The node a connection name reaches. */
  function NodeNamed(c: Config, name: Name): (r: Option<Node>)
    ensures r.Some? ==> IsNode(c, r.value)
  {
    match FindAgent(c.agents, name)
    case Some(i) => Some(AtAgent(i))
    case None => if name == "root" then Some(AtRoot) else None
  }

  /** The node's manager has a processor for the kind: bound, and not the root kind. */
  predicate Serves(c: Config, n: Node, kind: Name)
    requires IsNode(c, n)
  {
    && kind in NodeBindings(c, n)
    && var s := FindKeySpec(c.hierarchy.specs, kind);
       s.Some? && s.value.role != RootRole
  }

  /** The sealer a processor is given for its parent: a manager, local or behind a connection, or
      the root provider, which only the root node has. */
  datatype Parent = ManagerAt(node: Node) | RootProvider | Unresolved

  function ParentOf(c: Config, n: Node, kind: Name): (p: Parent)
    requires IsNode(c, n) && kind in NodeBindings(c, n)
    ensures p.ManagerAt? ==> IsNode(c, p.node)
  {
    var b := NodeBindings(c, n)[kind];
    if b.HasRemoteParent() then
      match NodeNamed(c, b.parentProvider.value)
      case Some(m) => ManagerAt(m)
      case None => Unresolved
    else
      match FindParentKeySpec(c.hierarchy.specs, kind)
      case None => Unresolved
      case Some(s) =>
        if s.role != RootRole then ManagerAt(n)
        else if n.AtRoot? then RootProvider
        else Unresolved
  }

  /** What an accepted configuration gives each served kind: its place, and a parent whose segment
      contains the preceding kind. */
  ghost predicate WellPlaced(c: Config, n: Node, kind: Name)
    requires IsNode(c, n) && kind in NodeBindings(c, n)
  {
    var specs, i, p := c.hierarchy.specs, IndexOf(c.hierarchy.specs, kind), ParentOf(c, n, kind);
    && i >= 1
    && InSegment(specs, NodeSegment(c, n), i)
    && match p
       case Unresolved => false
       case RootProvider => n == AtRoot && i == 1
       case ManagerAt(m) => InSegment(specs, NodeSegment(c, m), i - 1)
  }

  lemma ServedInSegment(specs: seq<KeySpec>, seg: Segment, bs: Bindings, exempt: bool, kind: Name)
    requires DistinctKinds(specs) && SegmentOk(specs, seg, bs, exempt) && kind in bs
    ensures InSegment(specs, seg, IndexOf(specs, kind))
  {
    var i :| IndexOf(specs, seg.start) <= i <= IndexOf(specs, seg.end) && specs[i].kind == kind;
    IndexAt(specs, i);
  }

  /** A provider name is a node, and both of its segment's ends are in the hierarchy. */
  lemma NamedSegments(c: Config, name: Name)
    requires Accepted(c) && ProviderSegment(c, name).Some?
    ensures name != "" && NodeNamed(c, name).Some?
    ensures NodeSegment(c, NodeNamed(c, name).value) == ProviderSegment(c, name).value
    ensures IndexOf(c.hierarchy.specs, ProviderSegment(c, name).value.start) >= 0
    ensures IndexOf(c.hierarchy.specs, ProviderSegment(c, name).value.end) >= 0
  {
    match FindAgent(c.agents, name) {
      case Some(i) => assert SegmentShapeOk(c.agents[i]);
      case None =>
    }
  }

  lemma ProviderPlaced(c: Config, n: Node, kind: Name)
    requires Accepted(c) && IsNode(c, n) && Serves(c, n, kind)
    requires InSegment(c.hierarchy.specs, NodeSegment(c, n), IndexOf(c.hierarchy.specs, kind))
    requires NodeBindings(c, n)[kind].parentProvider.Some?
    requires ProviderOk(c, kind, NodeBindings(c, n)[kind])
    requires IndexOf(c.hierarchy.specs, kind) >= 1
    ensures WellPlaced(c, n, kind)
    ensures ParentOf(c, n, kind).ManagerAt?
  {
    NamedSegments(c, NodeBindings(c, n)[kind].parentProvider.value);
    IndexAt(c.hierarchy.specs, IndexOf(c.hierarchy.specs, kind) - 1);
  }

  /** The parent chosen for a served kind lies in a segment that contains the preceding kind. */
  lemma ParentInSegment(c: Config, n: Node, kind: Name)
    requires Accepted(c) && IsNode(c, n) && Serves(c, n, kind)
    ensures WellPlaced(c, n, kind)
  {
    var specs, b := c.hierarchy.specs, NodeBindings(c, n)[kind];
    ServedInSegment(specs, NodeSegment(c, n), NodeBindings(c, n), n.AtRoot?, kind);
    if b.parentProvider.Some? {
      ServedBelowRoot(c, n, kind);
      ProviderPlaced(c, n, kind);
    } else if n.AtAgent? {
      LocalParentAtAgent(c, n.index, kind);
    } else {
      LocalParentAtRoot(c, kind);
    }
  }

  lemma ServedBelowRoot(c: Config, n: Node, kind: Name)
    requires Valid(c.hierarchy) && TopologyOk(c) && IsNode(c, n) && Serves(c, n, kind)
    ensures IndexOf(c.hierarchy.specs, kind) >= 1 && ProviderOk(c, kind, NodeBindings(c, n)[kind])
  {
  }

  lemma LocalParentAtRoot(c: Config, kind: Name)
    requires Valid(c.hierarchy) && RootSegmentOk(c.hierarchy.specs, c.segment, c.bindings)
    requires Serves(c, AtRoot, kind) && c.bindings[kind].parentProvider.None?
    requires InSegment(c.hierarchy.specs, c.segment, IndexOf(c.hierarchy.specs, kind))
    ensures WellPlaced(c, AtRoot, kind)
  {
    var i := IndexOf(c.hierarchy.specs, kind);
    assert i >= 1 && (c.hierarchy.specs[i - 1].role == RootRole <==> i == 1);
  }

  lemma LocalParentAtAgent(c: Config, a: nat, kind: Name)
    requires a < |c.agents| && AgentSegmentOk(c.hierarchy.specs, c.agents[a].segment, c.agents[a].bindings)
    requires kind in c.agents[a].bindings && c.agents[a].bindings[kind].parentProvider.None?
    requires InSegment(c.hierarchy.specs, c.agents[a].segment, IndexOf(c.hierarchy.specs, kind))
    requires c.hierarchy.specs[0].role == RootRole
    ensures WellPlaced(c, AtAgent(a), kind)
  {
    InsideAgentSegment(c.hierarchy.specs, c.agents[a].segment, c.agents[a].bindings, kind);
  }

  /** A kind bound without a provider is not the segment's first, so the kind before it is inside too. */
  lemma InsideAgentSegment(specs: seq<KeySpec>, seg: Segment, bs: Bindings, kind: Name)
    requires AgentSegmentOk(specs, seg, bs) && kind in bs && bs[kind].parentProvider.None?
    requires InSegment(specs, seg, IndexOf(specs, kind)) && specs[0].role == RootRole
    ensures var i := IndexOf(specs, kind);
            i >= 1 && InSegment(specs, seg, i - 1) && specs[i - 1].role != RootRole
  {
    var i, start := IndexOf(specs, kind), IndexOf(specs, seg.start);
    assert specs[start].kind != specs[i].kind;
    assert start <= i - 1 && specs[i - 1].role != RootRole;
  }

  /** Every kind inside a node's segment except the root kind is served there. */
  lemma SegmentServed(c: Config, n: Node, i: nat)
    requires Accepted(c) && IsNode(c, n) && 1 <= i < |c.hierarchy.specs|
    requires InSegment(c.hierarchy.specs, NodeSegment(c, n), i)
    ensures Serves(c, n, c.hierarchy.specs[i].kind)
    ensures IndexOf(c.hierarchy.specs, c.hierarchy.specs[i].kind) == i
  {
    IndexAt(c.hierarchy.specs, i);
  }

  lemma OnlyRootHoldsRootKey(c: Config, n: Node)
    requires Accepted(c) && IsNode(c, n) && InSegment(c.hierarchy.specs, NodeSegment(c, n), 0)
    ensures n == AtRoot
  {
  }

  // -------------------------------------------------------------- whole chains

  /** Where following parents from the kind at position i of a node ends: at the root key, after some
      hops, the last of them made through the given sealer. */
  datatype Walk = ReachedRootKey(hops: nat, last: Parent) | Stuck

  function WalkUp(c: Config, n: Node, i: nat): (w: Walk)
    requires IsNode(c, n) && i < |c.hierarchy.specs|
    decreases i
  {
    if i == 0 then ReachedRootKey(0, ManagerAt(n))
    else if !Serves(c, n, c.hierarchy.specs[i].kind) then Stuck
    else
      match ParentOf(c, n, c.hierarchy.specs[i].kind)
      case Unresolved => Stuck
      case RootProvider => ReachedRootKey(1, RootProvider)
      case ManagerAt(m) =>
        match WalkUp(c, m, i - 1)
        case Stuck => Stuck
        case ReachedRootKey(h, last) => ReachedRootKey(h + 1, last)
  }

  /** One hop of a walk: the kind is served, and its parent's segment holds the preceding kind. */
  ghost predicate HopOk(c: Config, n: Node, i: nat)
    requires IsNode(c, n) && i < |c.hierarchy.specs|
  {
    if i == 0 then n == AtRoot
    else
      && Serves(c, n, c.hierarchy.specs[i].kind)
      && match ParentOf(c, n, c.hierarchy.specs[i].kind)
         case Unresolved => false
         case RootProvider => n == AtRoot && i == 1
         case ManagerAt(m) => InSegment(c.hierarchy.specs, NodeSegment(c, m), i - 1)
  }

  ghost predicate HopsOk(c: Config) {
    forall n: Node, i: nat {:trigger HopOk(c, n, i)} | IsNode(c, n) && i < |c.hierarchy.specs| ::
      InSegment(c.hierarchy.specs, NodeSegment(c, n), i) ==> HopOk(c, n, i)
  }

  lemma AcceptedHops(c: Config)
    requires Accepted(c)
    ensures HopsOk(c)
  {
    forall n: Node, i: nat | IsNode(c, n) && i < |c.hierarchy.specs|
                             && InSegment(c.hierarchy.specs, NodeSegment(c, n), i)
      ensures HopOk(c, n, i)
    {
      if i == 0 {
        OnlyRootHoldsRootKey(c, n);
      } else {
        SegmentServed(c, n, i);
        ParentInSegment(c, n, c.hierarchy.specs[i].kind);
      }
    }
  }

  lemma {:induction false} WalkHops(c: Config, n: Node, i: nat)
    requires HopsOk(c) && IsNode(c, n) && i < |c.hierarchy.specs|
    requires InSegment(c.hierarchy.specs, NodeSegment(c, n), i)
    ensures WalkUp(c, n, i).ReachedRootKey? && WalkUp(c, n, i).hops == i
    ensures WalkUp(c, n, i).last in {ManagerAt(AtRoot), RootProvider}
    decreases i
  {
    assert HopOk(c, n, i);
    if i > 0 {
      var p := ParentOf(c, n, c.hierarchy.specs[i].kind);
      if p.ManagerAt? {
        WalkHops(c, p.node, i - 1);
      }
    }
  }

  /** From every kind of a node's segment the walk reaches the root key in exactly as many hops as
      the kind's position, so no chain of parents has a cycle. */
  lemma WalkReachesRoot(c: Config, n: Node, i: nat)
    requires Accepted(c) && IsNode(c, n) && i < |c.hierarchy.specs|
    requires InSegment(c.hierarchy.specs, NodeSegment(c, n), i)
    ensures WalkUp(c, n, i).ReachedRootKey? && WalkUp(c, n, i).hops == i
    ensures WalkUp(c, n, i).last in {ManagerAt(AtRoot), RootProvider}
  {
    AcceptedHops(c);
    WalkHops(c, n, i);
  }

  /** The chain a sealing climbs: every kind on the way is served with a vault, and the last hop is
      the root provider. */
  predicate ChainBound(c: Config, n: Node, i: nat)
    requires IsNode(c, n) && i < |c.hierarchy.specs|
    decreases i
  {
    && i > 0 && Serves(c, n, c.hierarchy.specs[i].kind) && NodeBindings(c, n)[c.hierarchy.specs[i].kind].vault
    && match ParentOf(c, n, c.hierarchy.specs[i].kind)
       case Unresolved => false
       case RootProvider => true
       case ManagerAt(m) => ChainBound(c, m, i - 1)
  }

  /** Every processor has a vault; validation does not ask for one. */
  predicate VaultsBound(c: Config) {
    VaultsAt(c, AtRoot) && forall a | 0 <= a < |c.agents| :: VaultsAt(c, AtAgent(a))
  }

  predicate VaultsAt(c: Config, n: Node)
    requires IsNode(c, n)
  {
    forall kind | kind in NodeBindings(c, n) && Serves(c, n, kind) :: NodeBindings(c, n)[kind].vault
  }

  /** No agent's segment starts right below the root key, and the root binds that kind locally. */
  predicate RootKeyReachedLocally(c: Config) {
    && (forall a | 0 <= a < |c.agents| :: IndexOf(c.hierarchy.specs, c.agents[a].segment.start) != 1)
    && (1 < |c.hierarchy.specs| && c.hierarchy.specs[1].kind in c.bindings
        ==> !c.bindings[c.hierarchy.specs[1].kind].HasRemoteParent())
  }

  lemma LocalAtFirstKind(c: Config, n: Node)
    requires Accepted(c) && IsNode(c, n) && 1 < |c.hierarchy.specs| && RootKeyReachedLocally(c)
    requires InSegment(c.hierarchy.specs, NodeSegment(c, n), 1)
    ensures Serves(c, n, c.hierarchy.specs[1].kind) && ParentOf(c, n, c.hierarchy.specs[1].kind) == RootProvider
  {
    SegmentServed(c, n, 1);
  }

  /** The first kind below the root key is bound at the root only, to the root provider. */
  ghost predicate FirstKindLocal(c: Config) {
    forall n: Node | IsNode(c, n) && 1 < |c.hierarchy.specs| ::
      InSegment(c.hierarchy.specs, NodeSegment(c, n), 1) ==>
        Serves(c, n, c.hierarchy.specs[1].kind) && ParentOf(c, n, c.hierarchy.specs[1].kind) == RootProvider
  }

  lemma {:induction false} LocalChainBound(c: Config, n: Node, i: nat)
    requires HopsOk(c) && FirstKindLocal(c) && VaultsBound(c)
    requires IsNode(c, n) && 1 <= i < |c.hierarchy.specs|
    requires InSegment(c.hierarchy.specs, NodeSegment(c, n), i)
    ensures ChainBound(c, n, i)
    decreases i
  {
    assert HopOk(c, n, i);
    var p := ParentOf(c, n, c.hierarchy.specs[i].kind);
    if i > 1 && p.ManagerAt? {
      LocalChainBound(c, p.node, i - 1);
    }
  }

  /** The chains of an accepted configuration are bound exactly when the root key is reached locally
      and every binding names a vault: acceptance asks for neither. */
  lemma ChainsBoundIff(c: Config)
    requires Accepted(c)
    ensures RootKeyReachedLocally(c) && VaultsBound(c) <==>
            forall n: Node, i: nat | IsNode(c, n) && 1 <= i < |c.hierarchy.specs|
                                     && InSegment(c.hierarchy.specs, NodeSegment(c, n), i) :: ChainBound(c, n, i)
  {
    if !RootKeyReachedLocally(c) {
      var n := BlockedNode(c);
    } else if !VaultsBound(c) {
      var n, i := VaultlessNode(c);
    } else {
      AcceptedHops(c);
      forall n: Node | IsNode(c, n) && 1 < |c.hierarchy.specs| && InSegment(c.hierarchy.specs, NodeSegment(c, n), 1)
        ensures Serves(c, n, c.hierarchy.specs[1].kind) && ParentOf(c, n, c.hierarchy.specs[1].kind) == RootProvider
      {
        LocalAtFirstKind(c, n);
      }
      forall n: Node, i: nat | IsNode(c, n) && 1 <= i < |c.hierarchy.specs|
                               && InSegment(c.hierarchy.specs, NodeSegment(c, n), i)
        ensures ChainBound(c, n, i)
      {
        LocalChainBound(c, n, i);
      }
    }
  }

  lemma VaultlessNode(c: Config) returns (n: Node, i: nat)
    requires Accepted(c) && !VaultsBound(c)
    ensures IsNode(c, n) && 1 <= i < |c.hierarchy.specs|
    ensures InSegment(c.hierarchy.specs, NodeSegment(c, n), i) && !ChainBound(c, n, i)
  {
    if !VaultsAt(c, AtRoot) {
      n := AtRoot;
    } else {
      var a :| 0 <= a < |c.agents| && !VaultsAt(c, AtAgent(a));
      n := AtAgent(a);
    }
    i := VaultlessKind(c, n);
  }

  lemma VaultlessKind(c: Config, n: Node) returns (i: nat)
    requires Accepted(c) && IsNode(c, n) && !VaultsAt(c, n)
    ensures 1 <= i < |c.hierarchy.specs| && InSegment(c.hierarchy.specs, NodeSegment(c, n), i) && !ChainBound(c, n, i)
  {
    var kind :| kind in NodeBindings(c, n) && Serves(c, n, kind) && !NodeBindings(c, n)[kind].vault;
    BoundBelowRoot(c, n, kind);
    i := IndexOf(c.hierarchy.specs, kind);
    VaultlessUnbound(c, n, i);
  }

  lemma BoundBelowRoot(c: Config, n: Node, kind: Name)
    requires Accepted(c) && IsNode(c, n) && Serves(c, n, kind)
    ensures IndexOf(c.hierarchy.specs, kind) >= 1
    ensures InSegment(c.hierarchy.specs, NodeSegment(c, n), IndexOf(c.hierarchy.specs, kind))
  {
    match n {
      case AtRoot => BoundAtRoot(c, kind);
      case AtAgent(a) => BoundAtAgent(c, a, kind);
    }
  }

  lemma VaultlessUnbound(c: Config, n: Node, i: nat)
    requires IsNode(c, n) && i < |c.hierarchy.specs| && c.hierarchy.specs[i].kind in NodeBindings(c, n)
    requires !NodeBindings(c, n)[c.hierarchy.specs[i].kind].vault
    ensures !ChainBound(c, n, i)
  {
  }

  lemma BoundAtRoot(c: Config, kind: Name)
    requires Accepted(c) && Serves(c, AtRoot, kind)
    ensures IndexOf(c.hierarchy.specs, kind) >= 1
    ensures InSegment(c.hierarchy.specs, c.segment, IndexOf(c.hierarchy.specs, kind))
  {
    ServedInSegment(c.hierarchy.specs, c.segment, c.bindings, true, kind);
  }

  lemma BoundAtAgent(c: Config, a: nat, kind: Name)
    requires Accepted(c) && a < |c.agents| && kind in c.agents[a].bindings
    ensures IndexOf(c.hierarchy.specs, kind) >= 1
    ensures InSegment(c.hierarchy.specs, c.agents[a].segment, IndexOf(c.hierarchy.specs, kind))
  {
    assert AgentSegmentOk(c.hierarchy.specs, c.agents[a].segment, c.agents[a].bindings);
    ServedInSegment(c.hierarchy.specs, c.agents[a].segment, c.agents[a].bindings, false, kind);
    assert c.hierarchy.specs[0].role == RootRole;
  }

  lemma RemoteFirstKindUnbound(c: Config, n: Node)
    requires IsNode(c, n) && 1 < |c.hierarchy.specs|
    requires Serves(c, n, c.hierarchy.specs[1].kind)
    requires NodeBindings(c, n)[c.hierarchy.specs[1].kind].HasRemoteParent()
    ensures !ChainBound(c, n, 1)
  {
  }

  lemma BlockedNode(c: Config) returns (n: Node)
    requires Accepted(c) && !RootKeyReachedLocally(c)
    ensures IsNode(c, n) && 1 < |c.hierarchy.specs|
    ensures InSegment(c.hierarchy.specs, NodeSegment(c, n), 1) && !ChainBound(c, n, 1)
  {
    if a :| 0 <= a < |c.agents| && IndexOf(c.hierarchy.specs, c.agents[a].segment.start) == 1 {
      n := AtAgent(a);
      BlockedAgent(c, a);
    } else {
      n := AtRoot;
      BlockedRoot(c);
    }
  }

  lemma BlockedRoot(c: Config)
    requires Accepted(c) && 1 < |c.hierarchy.specs| && c.hierarchy.specs[1].kind in c.bindings
    requires c.bindings[c.hierarchy.specs[1].kind].HasRemoteParent()
    ensures InSegment(c.hierarchy.specs, c.segment, 1) && !ChainBound(c, AtRoot, 1)
  {
    FirstKindAtRoot(c);
    RemoteFirstKindUnbound(c, AtRoot);
  }

  lemma BlockedAgent(c: Config, a: nat)
    requires Accepted(c) && a < |c.agents| && IndexOf(c.hierarchy.specs, c.agents[a].segment.start) == 1
    ensures InSegment(c.hierarchy.specs, c.agents[a].segment, 1) && !ChainBound(c, AtAgent(a), 1)
  {
    AgentStartIsRemote(c, a);
    RemoteFirstKindUnbound(c, AtAgent(a));
  }

  lemma FirstKindAtRoot(c: Config)
    requires Accepted(c) && 1 < |c.hierarchy.specs| && c.hierarchy.specs[1].kind in c.bindings
    ensures Serves(c, AtRoot, c.hierarchy.specs[1].kind) && InSegment(c.hierarchy.specs, c.segment, 1)
  {
    IndexAt(c.hierarchy.specs, 1);
    ServedInSegment(c.hierarchy.specs, c.segment, c.bindings, true, c.hierarchy.specs[1].kind);
  }

  lemma AgentStartIsRemote(c: Config, a: nat)
    requires Accepted(c) && a < |c.agents| && IndexOf(c.hierarchy.specs, c.agents[a].segment.start) == 1
    ensures Serves(c, AtAgent(a), c.hierarchy.specs[1].kind)
    ensures InSegment(c.hierarchy.specs, c.agents[a].segment, 1)
    ensures c.agents[a].bindings[c.hierarchy.specs[1].kind].HasRemoteParent()
  {
    var specs := c.hierarchy.specs;
    assert AgentSegmentOk(specs, c.agents[a].segment, c.agents[a].bindings);
    var b := c.agents[a].bindings[specs[1].kind];
    assert ProviderOk(c, specs[1].kind, b);
    NamedSegments(c, b.parentProvider.value);
    IndexAt(specs, 1);
  }
}
