/** Every chain that can seal does so in some run: a key of each kind on the way is announced where the
    next one looks for it, and activated. */
module Chains {
  import opened Model
  import opened Store
  import opened Hierarchy
  import opened Topology
  import opened Lifecycle
  import opened Worlds
  import opened Envelope
  import opened Protocol
  import opened Forest
  import opened Steps
  import opened Invariant
  import opened Preservation
  import opened Material
  import opened Progress
  import opened Availability
  import opened Cascade
  import opened Sealing
  import opened Runs

  // ------------------------------------------------------------------ a key of a kind at a node

  lemma {:induction false} Above(ids: set<Uuid>) returns (b: Uuid)
    ensures forall x | x in ids :: x < b
  {
    if ids == {} {
      b := 0;
    } else {
      var x :| x in ids;
      var rest := Above(ids - {x});
      b := if x < rest then rest else x + 1;
      assert forall y | y in ids :: y == x || y in ids - {x};
    }
  }

  lemma FreshId(w: World) returns (b: Uuid)
    ensures b !in w.root.keys && forall p | p in w.jobs :: p.id != b
  {
    var used := set p | p in w.jobs :: p.id;
    b := Above(w.root.keys.Keys + used);
    assert forall p | p in w.jobs :: p.id in used;
  }

  function KindReq(c: Config, n: Node, i: nat, parent: Option<Uuid>): (r: AnnounceRequest)
    requires IsNode(c, n) && i < |c.hierarchy.specs|
  {
    var kind := c.hierarchy.specs[i].kind;
    AnnounceRequest(0, kind, kind, parent, if n.AtRoot? then "" else c.agents[n.index].name, map[])
  }

  /** The keys of a world are named after the first kinds. */
  ghost predicate NamesUpTo(c: Config, w: World, i: nat) {
    forall j | j in w.root.keys :: IndexOf(c.hierarchy.specs, w.root.keys[j].name) <= i
  }

  /** A key of the kind at position i, managed at the node, with a ready line. */
  ghost predicate StandsAt(c: Config, w: World, n: Node, i: nat, id: Uuid)
    requires IsNode(c, n) && i < |c.hierarchy.specs|
  {
    && LineShaped(c, w, id) && w.root.keys[id].kind == c.hierarchy.specs[i].kind && w.root.keys[id].tenant == 0
    && NodeOf(c, w.root.keys[id]) == n
  }

  lemma KindFresh(c: Config, w: World, n: Node, i: nat, parent: Option<Uuid>, b: Uuid)
    requires Deployed(c) && IsNode(c, n) && i < |c.hierarchy.specs| && InSegment(c.hierarchy.specs, NodeSegment(c, n), i)
    requires 0 in w.root.tenants && b !in w.root.keys && (forall p | p in w.jobs :: p.id != b)
    requires i == 0 ==> n == AtRoot && parent == None && w.root.keys == map[]
    requires i > 0 ==> NamesUpTo(c, w, i - 1) && parent.Some? && parent.value in w.root.keys
                       && w.root.keys[parent.value].tenant == 0 && w.root.keys[parent.value].kind == c.hierarchy.specs[i - 1].kind
    ensures Fresh(c, w, KindReq(c, n, i, parent), b)
  {
    var specs, kind := c.hierarchy.specs, c.hierarchy.specs[i].kind;
    IndexAt(specs, i);
    BelowRoot(c, kind);
    if i > 0 { IndexAt(specs, i - 1); }
    if n.AtAgent? {
      NamedAgents(c, n.index);
      FoundByName(c, n.index);
    }
    NameFree(w, 0, kind);
  }

  // ------------------------------------------------------------------ one hop

  /** Later rows keep a line ready. */
  lemma {:induction false} LineKept(c: Config, w: World, w2: World, i: Uuid)
    requires LineShaped(c, w, i) && Managed(c, w2) && WellFormed(c.hierarchy.specs, w2.root)
    requires forall j | j in w.root.keys :: j in w2.root.keys && w2.root.keys[j].IsSame(w.root.keys[j]) && (Settled(w, j) ==> Settled(w2, j))
    ensures LineShaped(c, w2, i)
    decreases IndexOf(c.hierarchy.specs, w.root.keys[i].kind)
  {
    assert Placed(c.hierarchy.specs, w.root, i);
    if w.root.keys[i].parent.Some? { LineKept(c, w, w2, w.root.keys[i].parent.value); }
  }

  /** What the node at position i needs of the key above. */
  ghost predicate ParentStands(c: Config, w: World, n: Node, i: nat, p: Uuid)
    requires IsNode(c, n) && 0 < i < |c.hierarchy.specs|
  {
    && LineShaped(c, w, p) && Settled(w, p) && w.root.keys[p].tenant == 0
    && w.root.keys[p].kind == c.hierarchy.specs[i - 1].kind
    && Serves(c, n, c.hierarchy.specs[i].kind) && NodeBindings(c, n)[c.hierarchy.specs[i].kind].vault
    && match ParentOf(c, n, c.hierarchy.specs[i].kind)
       case Unresolved => false
       case RootProvider => i == 1 && ProviderReady(w, w.root.keys[p])
       case ManagerAt(m) => i > 1 && NodeOf(c, w.root.keys[p]) == m
  }

  lemma ManagedAt(c: Config, n: Node, i: nat, parent: Option<Uuid>, b: Uuid)
    requires Deployed(c) && IsNode(c, n) && i < |c.hierarchy.specs| && (n.AtRoot? || IndexOf(c.hierarchy.specs, c.hierarchy.specs[i].kind) > 0)
    ensures var k := Draft(c, KindReq(c, n, i, parent), b); ManagerKnown(c, k) && NodeOf(c, k) == n
  {
    if n.AtAgent? {
      NamedAgents(c, n.index);
      FoundByName(c, n.index);
    }
  }

  /** A row below a key that stands is in line and equipped. */
  lemma BelowStanding(c: Config, w: World, n: Node, i: nat, p: Uuid, b: Uuid)
    requires IsNode(c, n) && 0 < i < |c.hierarchy.specs| && ParentStands(c, w, n, i, p) && b in w.root.keys
    requires IndexOf(c.hierarchy.specs, c.hierarchy.specs[i].kind) == i
    requires var k := w.root.keys[b];
             && k.parent == Some(p) && k.kind == c.hierarchy.specs[i].kind && k.tenant == 0 && !HasReserved(k.labels)
             && NodeOf(c, k) == n
    requires i == 1 ==> ParentOf(c, n, c.hierarchy.specs[i].kind).RootProvider?
    ensures StandsAt(c, w, n, i, b) && Equipped(c, w, b)
  {
    assert Housed(c, w, b);
  }

  lemma ParentStillStands(c: Config, w: World, w1: World, n: Node, i: nat, p: Uuid, b: Uuid)
    requires IsNode(c, n) && 0 < i < |c.hierarchy.specs| && ParentStands(c, w, n, i, p) && b !in w.root.keys
    requires Managed(c, w1) && WellFormed(c.hierarchy.specs, w1.root) && After(c, w, w1, KindReq(c, n, i, Some(p)), b)
    ensures ParentStands(c, w1, n, i, p)
  {
    LineKept(c, w, w1, p);
    if ProviderReady(w, w.root.keys[p]) { ProviderKept(w, w1, w.root.keys[p]); }
  }

  /** The announced key is in line and equipped. */
  lemma AnnouncedStands(c: Config, w: World, w1: World, n: Node, i: nat, p: Uuid, b: Uuid)
    requires Deployed(c) && IsNode(c, n) && 0 < i < |c.hierarchy.specs| && ParentStands(c, w, n, i, p) && b !in w.root.keys
    requires Managed(c, w1) && WellFormed(c.hierarchy.specs, w1.root) && After(c, w, w1, KindReq(c, n, i, Some(p)), b)
    ensures StandsAt(c, w1, n, i, b) && Equipped(c, w1, b)
  {
    IndexAt(c.hierarchy.specs, i);
    ManagedAt(c, n, i, Some(p), b);
    ParentStillStands(c, w, w1, n, i, p, b);
    BelowStanding(c, w1, n, i, p, b);
  }

  /** One hop down: the kind at position i, announced at the node below a key that stands. */
  lemma Hop(c: Config, w: World, n: Node, i: nat, p: Uuid) returns (w1: World, b: Uuid)
    requires Deployed(c) && IsNode(c, n) && 0 < i < |c.hierarchy.specs| && InSegment(c.hierarchy.specs, NodeSegment(c, n), i)
    requires Reached(c, w) && 0 in w.root.tenants && NamesUpTo(c, w, i - 1) && ParentStands(c, w, n, i, p)
    ensures Reached(c, w1) && 0 in w1.root.tenants && NamesUpTo(c, w1, i)
    ensures StandsAt(c, w1, n, i, b) && Equipped(c, w1, b)
    ensures w1.root.keys[b].life == PreActivation && w1.root.keys[b].status == Completed && w1.root.keys[b].parent == Some(p)
  {
    b := FreshId(w);
    KindFresh(c, w, n, i, Some(p), b);
    w1 := FirstRound(c, w, KindReq(c, n, i, Some(p)), b);
    ReachedKeeps(c, w1);
    AnnouncedStands(c, w, w1, n, i, p, b);
    NamesAfter(c, w, w1, n, i, Some(p), b);
  }

  lemma NamesAfter(c: Config, w: World, w1: World, n: Node, i: nat, parent: Option<Uuid>, b: Uuid)
    requires IsNode(c, n) && i < |c.hierarchy.specs| && After(c, w, w1, KindReq(c, n, i, parent), b) && DistinctKinds(c.hierarchy.specs)
    requires forall j | j in w.root.keys :: IndexOf(c.hierarchy.specs, w.root.keys[j].name) <= i
    ensures NamesUpTo(c, w1, i) && b in w1.root.keys && w1.root.keys[b].parent == parent
    ensures w1.root.keys[b].life == PreActivation && w1.root.keys[b].status == Completed && w1.root.tenants == w.root.tenants
  {
    IndexAt(c.hierarchy.specs, i);
  }

  /** ... and activated. */
  lemma KeyUp(c: Config, w: World, n: Node, i: nat, b: Uuid) returns (w2: World)
    requires Deployed(c) && IsNode(c, n) && i < |c.hierarchy.specs|
    requires Reached(c, w) && 0 in w.root.tenants && NamesUpTo(c, w, i) && StandsAt(c, w, n, i, b) && Equipped(c, w, b)
    requires w.root.keys[b].life == PreActivation && w.root.keys[b].status == Completed
    ensures Reached(c, w2) && 0 in w2.root.tenants && NamesUpTo(c, w2, i) && StandsAt(c, w2, n, i, b) && Settled(w2, b)
    ensures ProvidersStay(w, w2) && w2.root.keys[b].IsSame(w.root.keys[b])
  {
    w2 := SettleAlone(c, w, b);
    ReachedKeeps(c, w2);
    StandsLater(c, w, w2, n, i, b);
  }

  lemma StandsLater(c: Config, w: World, w2: World, n: Node, i: nat, b: Uuid)
    requires IsNode(c, n) && i < |c.hierarchy.specs| && NamesUpTo(c, w, i) && StandsAt(c, w, n, i, b)
    requires Managed(c, w2) && WellFormed(c.hierarchy.specs, w2.root)
    requires w2.root.keys == w.root.keys[b := w.root.keys[b].(life := Active, status := Completed)]
    ensures NamesUpTo(c, w2, i) && StandsAt(c, w2, n, i, b) && Settled(w2, b)
  {
    LineKept(c, w, w2, b);
  }

  // ------------------------------------------------------------------ the whole chain

  /** The root key, announced, bound to a provider and activated. */
  lemma RootUp(c: Config) returns (w: World, r: Uuid)
    requires Deployed(c)
    ensures c.hierarchy.specs != [] && Reached(c, w) && 0 in w.root.tenants && NamesUpTo(c, w, 0)
    ensures StandsAt(c, w, AtRoot, 0, r) && Settled(w, r) && ProviderReady(w, w.root.keys[r])
    ensures w.root.keys[r].IsSame(Draft(c, KindReq(c, AtRoot, 0, None), r))
  {
    var w0 := Start(c);
    r := 1;
    RootSegment(c);
    KindFresh(c, w0, AtRoot, 0, None, r);
    var w1 := FirstRound(c, w0, KindReq(c, AtRoot, 0, None), r);
    NamesAfter(c, w0, w1, AtRoot, 0, None, r);
    var w2 := RootBinds(c, w0, w1, r);
    w := KeyUp(c, w2, AtRoot, 0, r);
    ReadySince(w2, w, r);
  }

  lemma RootSegment(c: Config)
    requires Deployed(c)
    ensures c.hierarchy.specs != [] && DistinctKinds(c.hierarchy.specs) && InSegment(c.hierarchy.specs, c.segment, 0)
    ensures IndexOf(c.hierarchy.specs, c.hierarchy.specs[0].kind) == 0
  {
    IndexAt(c.hierarchy.specs, 0);
  }

  lemma RootBinds(c: Config, w0: World, w: World, r: Uuid) returns (w2: World)
    requires Deployed(c) && c.hierarchy.specs != [] && IndexOf(c.hierarchy.specs, c.hierarchy.specs[0].kind) == 0
    requires w0.root == Tables({0}, map[], map[]) && w0.vaults == map[] && After(c, w0, w, KindReq(c, AtRoot, 0, None), r)
    requires Reached(c, w) && NamesUpTo(c, w, 0)
    ensures Reached(c, w2) && 0 in w2.root.tenants && NamesUpTo(c, w2, 0) && StandsAt(c, w2, AtRoot, 0, r) && Equipped(c, w2, r)
    ensures ProviderReady(w2, w2.root.keys[r]) && w2.root.keys[r].life == PreActivation && w2.root.keys[r].status == Completed
    ensures w2.root.keys[r].IsSame(Draft(c, KindReq(c, AtRoot, 0, None), r))
  {
    var k := w.root.keys[r];
    ProviderBound(w, k);
    ReachStep(c, w, CreateProviderStep(KeyIdentifier(r, 0), SPEC, "key", NO_FAULTS));
    w2 := CreateProvider(w, KeyIdentifier(r, 0), SPEC, "key", NO_FAULTS);
    ReachedKeeps(c, w2);
    RootStands(c, w2, r, None);
  }

  lemma RootStands(c: Config, w: World, r: Uuid, parent: Option<Uuid>)
    requires c.hierarchy.specs != [] && IndexOf(c.hierarchy.specs, c.hierarchy.specs[0].kind) == 0
    requires Managed(c, w) && WellFormed(c.hierarchy.specs, w.root) && r in w.root.keys && parent == None
    requires w.root.keys[r] == Draft(c, KindReq(c, AtRoot, 0, parent), r).(status := Completed)
    ensures StandsAt(c, w, AtRoot, 0, r) && Equipped(c, w, r)
  {
  }

  lemma ReadySince(w: World, w2: World, r: Uuid)
    requires ProvidersStay(w, w2) && r in w.root.keys && r in w2.root.keys && ProviderReady(w, w.root.keys[r])
    requires w2.root.keys[r].id == w.root.keys[r].id && w2.root.keys[r].tenant == w.root.keys[r].tenant
    ensures ProviderReady(w2, w2.root.keys[r])
  {
    assert ProviderReady(w2, w.root.keys[r]);
  }

  /** Everything above a bound kind can be brought up, each key where the next one looks for it. */
  lemma {:induction false} ChainUp(c: Config, n: Node, i: nat) returns (w: World, p: Uuid)
    requires Deployed(c) && IsNode(c, n) && 0 < i < |c.hierarchy.specs| && InSegment(c.hierarchy.specs, NodeSegment(c, n), i)
    requires ChainBound(c, n, i)
    ensures Reached(c, w) && 0 in w.root.tenants && NamesUpTo(c, w, i - 1) && ParentStands(c, w, n, i, p)
    decreases i
  {
    HopAbove(c, n, i);
    match ParentOf(c, n, c.hierarchy.specs[i].kind) {
      case RootProvider => w, p := RootUp(c);
      case ManagerAt(m) =>
        var w0, p0 := ChainUp(c, m, i - 1);
        var w1, b := Hop(c, w0, m, i - 1, p0);
        p := b;
        w := KeyUp(c, w1, m, i - 1, b);
    }
  }

  lemma HopAbove(c: Config, n: Node, i: nat)
    requires Deployed(c) && IsNode(c, n) && 0 < i < |c.hierarchy.specs| && ChainBound(c, n, i)
    ensures match ParentOf(c, n, c.hierarchy.specs[i].kind)
            case Unresolved => false
            case RootProvider => i == 1
            case ManagerAt(m) => i > 1 && IsNode(c, m) && ChainBound(c, m, i - 1) && InSegment(c.hierarchy.specs, NodeSegment(c, m), i - 1)
  {
    IndexAt(c.hierarchy.specs, i);
    ParentInSegment(c, n, c.hierarchy.specs[i].kind);
  }

  /** A reached world in which the kind is sealed at the node. */
  ghost predicate SealsInARun(c: Config, n: Node, i: nat)
    requires IsNode(c, n) && i < |c.hierarchy.specs|
  {
    exists w: World, kv: KeyVersion, d: Draw :: Reached(c, w) && Seals(c, w, n, i, kv, d)
  }

  lemma PinsOneAbove(c: Config, w: World, n: Node, v: VersionId, m: Node)
    requires Inv(c, w) && IsNode(c, n) && IsNode(c, m) && v in TablesAt(w, n).versions && v.keyId in TablesAt(w, n).keys
    ensures PinAbove(c, w, n, v, m)
  {
    RowsFollowRoot(c, w, n, v);
    assert Placed(c.hierarchy.specs, w.root, v.keyId);
    var p := TablesAt(w, n).versions[v].parentKey;
    if p.Some? && p.value in TablesAt(w, m).keys { OneKind(c, w, m, p.value); }
  }

  lemma InvOneAbove(c: Config, w: World)
    requires Inv(c, w)
    ensures OneAbove(c, w)
  {
    forall n: Node, v: VersionId, m: Node
      | IsNode(c, n) && IsNode(c, m) && v in TablesAt(w, n).versions && v.keyId in TablesAt(w, n).keys
      ensures PinAbove(c, w, n, v, m)
    {
      PinsOneAbove(c, w, n, v, m);
    }
  }

  lemma FirstPinnedBelow(c: Config, w: World, b: Uuid, kv: KeyVersion, m: Node)
    requires Inv(c, w) && IsNode(c, m) && b in w.root.keys && kv.parentKey == w.root.keys[b].parent
    ensures PinnedBelow(c, w, kv, IndexOf(c.hierarchy.specs, w.root.keys[b].kind), m)
  {
    assert Placed(c.hierarchy.specs, w.root, b);
    if kv.parentKey.Some? && kv.parentKey.value in TablesAt(w, m).keys { OneKind(c, w, m, kv.parentKey.value); }
  }

  lemma SealableSeals(c: Config, w: World, n: Node, i: nat, b: Uuid, kv: KeyVersion)
    requires Inv(c, w) && IsNode(c, n) && i < |c.hierarchy.specs| && b in w.root.keys && kv.parentKey == w.root.keys[b].parent
    requires IndexOf(c.hierarchy.specs, w.root.keys[b].kind) == i && Sealable(c, w, n, c.hierarchy.specs[i].kind, kv)
    ensures Seals(c, w, n, i, kv, Draw(0, 0, 0))
  {
    InvOneAbove(c, w);
    forall m: Node | IsNode(c, m) ensures PinnedBelow(c, w, kv, i, m) { FirstPinnedBelow(c, w, b, kv, m); }
    DrawsSeal(c, w, n, c.hierarchy.specs[i].kind, kv);
  }

  lemma DrawsSeal(c: Config, w: World, n: Node, kind: Name, kv: KeyVersion)
    requires Sized(c, w) && IsNode(c, n) && Sealable(c, w, n, kind, kv)
    ensures CreateSecret(c, w, n, kind, kv, Draw(0, 0, 0)).Some?
  {
  }

  /** The first version of a key that stands is sealed. */
  lemma StandingSeals(c: Config, w: World, n: Node, i: nat, b: Uuid)
    requires Deployed(c) && Reached(c, w) && IsNode(c, n) && 0 < i < |c.hierarchy.specs|
    requires StandsAt(c, w, n, i, b) && Equipped(c, w, b) && w.root.keys[b].parent.Some?
    ensures SealsInARun(c, n, i)
  {
    ReachedKeeps(c, w);
    LineSeals(c, w, b);
    IndexAt(c.hierarchy.specs, i);
    var k := w.root.keys[b];
    var kv := FirstVersion(k, Some(Newest(w.root, k.tenant, k.parent.value, LATEST_ACTIVE).value.id.version));
    SealableSeals(c, w, n, i, b, kv);
  }

  /** A kind of a deployment is sealed at a node in some run if and only if its chain is bound to vaults
      and ends at the root provider. */
  lemma SealsInARunIff(c: Config, n: Node, i: nat)
    requires Deployed(c) && IsNode(c, n) && 0 < i < |c.hierarchy.specs| && InSegment(c.hierarchy.specs, NodeSegment(c, n), i)
    ensures SealsInARun(c, n, i) <==> ChainBound(c, n, i)
  {
    CanSealIff(c, n, i);
    if ChainBound(c, n, i) {
      var w, p := ChainUp(c, n, i);
      var w1, b := Hop(c, w, n, i, p);
      StandingSeals(c, w1, n, i, b);
    }
  }

  /** Then a key of that kind gets active and settled at the node, with a secret that resolves. */
  lemma BoundKindGoesActive(c: Config, n: Node, i: nat) returns (w: World, b: Uuid, secret: nat)
    requires Deployed(c) && IsNode(c, n) && 0 < i < |c.hierarchy.specs| && InSegment(c.hierarchy.specs, NodeSegment(c, n), i)
    requires ChainBound(c, n, i)
    ensures Reached(c, w) && StandsAt(c, w, n, i, b) && Settled(w, b)
    ensures var kind, v := c.hierarchy.specs[i].kind, VersionId(0, b, 1, 1);
            && b in TablesAt(w, n).keys && TablesAt(w, n).keys[b].life == Active
            && Serves(c, n, kind) && v in TablesAt(w, n).versions
            && ResolveSecret(c, w, n, kind, TablesAt(w, n).versions[v]) == Ok(Raw(secret))
  {
    var w0, p := ChainUp(c, n, i);
    var w1, k := Hop(c, w0, n, i, p);
    b := k;
    w := KeyUp(c, w1, n, i, b);
    secret := StandingResolves(c, w, n, i, b);
  }

  lemma StandingResolves(c: Config, w: World, n: Node, i: nat, b: Uuid) returns (secret: nat)
    requires Deployed(c) && Reached(c, w) && IsNode(c, n) && 0 < i < |c.hierarchy.specs| && StandsAt(c, w, n, i, b) && Settled(w, b)
    ensures var kind, v := c.hierarchy.specs[i].kind, VersionId(0, b, 1, 1);
            && b in TablesAt(w, n).keys && TablesAt(w, n).keys[b].life == Active
            && Serves(c, n, kind) && v in TablesAt(w, n).versions
            && ResolveSecret(c, w, n, kind, TablesAt(w, n).versions[v]) == Ok(Raw(secret))
  {
    ReachedKeeps(c, w);
    IndexAt(c.hierarchy.specs, i);
    SettledIsUsable(c, w, b);
    secret := Available(c, w, n, VersionId(0, b, 1, 1));
  }

  // ------------------------------------------------------------------ what goes wrong in some run

  /** Every deployment has a run in which an announce takes an active, settled key back to
      pre-activation, where the table does not lead. */
  lemma ResetReached(c: Config) returns (w: World, s: Step, r: Uuid)
    requires Deployed(c)
    ensures Reached(c, w) && Settled(w, r) && Enabled(c, w, s) && !Legal(Active, PreActivation)
    ensures var w2 := Next(c, w, s); Reached(c, w2) && r in w2.root.keys && w2.root.keys[r].life == PreActivation
  {
    var w0, r0 := RootUp(c);
    w, r := w0, r0;
    var b := FreshId(w);
    var req := KindReq(c, AtRoot, 0, None);
    RootAgain(c, w, r, b);
    UpsertRoot(c, w, r, b);
    s := AnnounceStep(req, b, 0, CLEAN);
    ReachStep(c, w, s);
    AnnounceIsUpsert(c, w, req, b, SetStates(w.root, r, PreActivation, Pending), r);
  }

  /** The root key can be announced again. */
  lemma RootAgain(c: Config, w: World, r: Uuid, b: Uuid)
    requires Deployed(c) && c.hierarchy.specs != [] && StandsAt(c, w, AtRoot, 0, r) && 0 in w.root.tenants
    ensures var req := KindReq(c, AtRoot, 0, None);
            ValidAnnounce(c, req) && req.tenant in w.root.tenants && FitsHierarchy(c.hierarchy.specs, w.root, Draft(c, req, b))
  {
    RootSegment(c);
    BelowRoot(c, c.hierarchy.specs[0].kind);
  }

  lemma UpsertRoot(c: Config, w: World, r: Uuid, b: Uuid)
    requires Deployed(c) && c.hierarchy.specs != [] && Reached(c, w) && r in w.root.keys
    requires w.root.keys[r].IsSame(Draft(c, KindReq(c, AtRoot, 0, None), r))
    ensures UpsertKey(w.root, Draft(c, KindReq(c, AtRoot, 0, None), b)) == Upserted(SetStates(w.root, r, PreActivation, Pending), r)
  {
    ReachedKeeps(c, w);
    UpsertAgain(w.root, Draft(c, KindReq(c, AtRoot, 0, None), b), r);
  }

  lemma AnnounceIsUpsert(c: Config, w: World, req: AnnounceRequest, id: Uuid, t: Tables, at: Uuid)
    requires Sized(c, w) && ValidAnnounce(c, req) && req.tenant in w.root.tenants && FitsHierarchy(c.hierarchy.specs, w.root, Draft(c, req, id))
    requires UpsertKey(w.root, Draft(c, req, id)) == Upserted(t, at)
    ensures Next(c, w, AnnounceStep(req, id, 0, CLEAN)) == Announced(c, w, req, t, at)
  {
  }

  /** Where two nodes serve a kind, a key of the next kind can be announced at the one below a parent at
      the other: it is announced and settled, but not housed. */
  lemma UnhousedReached(c: Config, n: Node, i: nat, m: Node) returns (w: World, b: Uuid)
    requires Deployed(c) && IsNode(c, n) && IsNode(c, m) && 1 < i < |c.hierarchy.specs|
    requires InSegment(c.hierarchy.specs, NodeSegment(c, n), i) && Serves(c, n, c.hierarchy.specs[i].kind)
    requires InSegment(c.hierarchy.specs, NodeSegment(c, m), i - 1) && ChainBound(c, m, i - 1)
    requires ParentOf(c, n, c.hierarchy.specs[i].kind) != ManagerAt(m)
    ensures Reached(c, w) && Managed(c, w) && WellFormed(c.hierarchy.specs, w.root)
    ensures b in w.root.keys && w.root.keys[b].life == PreActivation && w.root.keys[b].status == Completed && !Housed(c, w, b)
  {
    var w0, p := ChainUp(c, m, i - 1);
    var w1, k := Hop(c, w0, m, i - 1, p);
    b := FreshId(w1);
    KindFresh(c, w1, n, i, Some(k), b);
    w := FirstRound(c, w1, KindReq(c, n, i, Some(k)), b);
    ReachedKeeps(c, w);
    NotFoundThere(c, w1, w, n, i, m, k, b);
  }

  lemma NotFoundThere(c: Config, w: World, w1: World, n: Node, i: nat, m: Node, k: Uuid, b: Uuid)
    requires Deployed(c) && IsNode(c, n) && IsNode(c, m) && 1 < i < |c.hierarchy.specs| && StandsAt(c, w, m, i - 1, k) && b !in w.root.keys
    requires Managed(c, w1) && WellFormed(c.hierarchy.specs, w1.root) && After(c, w, w1, KindReq(c, n, i, Some(k)), b)
    requires Serves(c, n, c.hierarchy.specs[i].kind) && ParentOf(c, n, c.hierarchy.specs[i].kind) != ManagerAt(m)
    ensures b in w1.root.keys && w1.root.keys[b].life == PreActivation && w1.root.keys[b].status == Completed && !Housed(c, w1, b)
  {
    IndexAt(c.hierarchy.specs, i);
    ManagedAt(c, n, i, Some(k), b);
  }
}
