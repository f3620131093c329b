/** Building runs: announcing a key, binding a provider and activating a key, each as the steps of a run
    that leaves provider bindings in place. */
module Runs {
  import opened Model
  import opened Store
  import opened Hierarchy
  import opened Topology
  import opened Worlds
  import opened Envelope
  import opened Agent
  import opened Protocol
  import opened Forest
  import opened KeyAction
  import opened Steps
  import opened Invariant
  import opened Progress
  import opened Availability
  import opened Cascade

  // ------------------------------------------------------------------ deliveries without faults

  const CLEAN := AnnounceFaults(false, true, false, false)
  const CALM_KEY := KeyFaults(false, false, false, false, false)
  const CALM_SEAL := SealFaults(false, false, Draw(0, 0, 0))
  const CALM_ANNOUNCE :=
    AnnounceTaskFaults(false, false, Call(true, true, TenantFaults(false, false)), false, Call(true, true, CALM_KEY), false, false)
  const CALM :=
    TaskFaults(false, false, false, false, false, false, false, false, CALM_SEAL, Call(true, true, CALM_KEY),
               Call(true, true, VersionFaults(false, false, false, false, CALM_SEAL, false)), false, false, false)

  lemma CalmIsSmooth()
    ensures Smooth(CALM) && SmoothAnnounce(CALM_ANNOUNCE)
  {
  }

  // ------------------------------------------------------------------ announcing

  function Draft(c: Config, req: AnnounceRequest, at: Uuid): (p: Key) {
    NewKey(c, req, at, 0)
  }

  /** An announce with a fresh id that the root accepts and stores under some id. */
  ghost predicate Announceable(c: Config, w: World, req: AnnounceRequest, id: Uuid, t: Tables, at: Uuid) {
    && Reached(c, w) && id !in w.root.keys && (forall p | p in w.jobs :: p.id != id)
    && ValidAnnounce(c, req) && req.tenant in w.root.tenants && FitsHierarchy(c.hierarchy.specs, w.root, Draft(c, req, id))
    && UpsertKey(w.root, Draft(c, req, id)) == Upserted(t, at)
  }

  ghost function Announced(c: Config, w: World, req: AnnounceRequest, t: Tables, at: Uuid): (w1: World) {
    w.(root := t, jobs := w.jobs + {Draft(c, req, at)})
  }

  lemma AnnounceReached(c: Config, w: World, req: AnnounceRequest, id: Uuid, t: Tables, at: Uuid)
    requires Deployed(c) && Announceable(c, w, req, id, t, at)
    ensures Reached(c, Announced(c, w, req, t, at))
  {
    ReachStep(c, w, AnnounceStep(req, id, 0, CLEAN));
  }

  lemma NamedTarget(c: Config, req: AnnounceRequest)
    requires Deployed(c) && ValidAnnounce(c, req)
    ensures Draft(c, req, 0).managedBy == c.name <==> req.target == ""
  {
  }

  lemma ConfirmReached(c: Config, w: World, p: Key) returns (w2: World)
    requires Deployed(c) && Reached(c, w) && p in w.jobs && p.id in w.root.keys && w.root.keys[p.id].tenant == p.tenant
    requires w.root.keys[p.id].status == Pending
    ensures Reached(c, w2) && w2 == w.(root := SetStates(w.root, p.id, w.root.keys[p.id].life, InProgress))
  {
    ReachStep(c, w, ConfirmStep(p, false));
    w2 := ConfirmAnnounce(w, p, false);
  }

  lemma TaskReached(c: Config, w: World, p: Key) returns (w2: World)
    requires Deployed(c) && Reached(c, w) && p in w.jobs && p.tenant in w.root.tenants && p.id in w.root.keys
    requires w.root.keys[p.id].tenant == p.tenant && w.root.keys[p.id].life == PreActivation && w.root.keys[p.id].status == InProgress
    requires p.kind != "" && p.name != ""
    ensures Reached(c, w2) && w2.jobs == w.jobs && w2.vaults == w.vaults
    ensures w2.root == SetStates(w.root, p.id, PreActivation, if p.managedBy == c.name || !HasReserved(p.labels) then Completed else Failed)
  {
    ReachedKeeps(c, w);
    w2 := HandleAnnounce(c, w, p, CALM_ANNOUNCE).world;
    ReachStep(c, w, AnnounceTaskStep(p, CALM_ANNOUNCE));
    CalmIsSmooth();
    SmoothAnnounceSettles(c, w, p, CALM_ANNOUNCE);
    AnnounceTaskLeavesJobs(c, w, p, CALM_ANNOUNCE);
  }

  lemma AnnounceTaskLeavesJobs(c: Config, w: World, p: Key, f: AnnounceTaskFaults)
    requires Sized(c, w)
    ensures var w2 := HandleAnnounce(c, w, p, f).world; w2.jobs == w.jobs && w2.vaults == w.vaults
  {
    var pt := PushTenant(c, w, p, f);
    assert pt.world.jobs == w.jobs && pt.world.vaults == w.vaults && Sized(c, pt.world);
    var pk := PushKey(c, pt.world, p, f);
    assert pk.world.jobs == w.jobs && pk.world.vaults == w.vaults;
  }

  lemma SetTwice(t: Tables, i: Uuid, life: LifeCycle, first: Status, second: Status)
    requires i in t.keys
    ensures SetStates(SetStates(t, i, life, first), i, life, second) == SetStates(t, i, life, second)
  {
    assert SetStates(SetStates(t, i, life, first), i, life, second).keys == SetStates(t, i, life, second).keys;
  }

  lemma InsertThenSet(t: Tables, k: Key, status: Status)
    ensures SetStates(t.(keys := t.keys[k.id := k]), k.id, k.life, status) == t.(keys := t.keys[k.id := k.(status := status)])
  {
    assert SetStates(t.(keys := t.keys[k.id := k]), k.id, k.life, status).keys == t.keys[k.id := k.(status := status)];
  }

  lemma UpsertAgain(t: Tables, k: Key, at: Uuid)
    requires NamesUnique(t) && at in t.keys && t.keys[at].tenant == k.tenant && t.keys[at].name == k.name && t.keys[at].IsSame(k)
    ensures UpsertKey(t, k) == Upserted(SetStates(t, at, k.life, k.status), at)
  {
    assert NameTaken(t, k.tenant, k.name) && IdByName(t, k.tenant, k.name) == at;
  }

  /** Confirmation and announce task of a pending job. */
  lemma JobDone(c: Config, w: World, p: Key) returns (w2: World)
    requires Deployed(c) && Reached(c, w) && p in w.jobs && p.tenant in w.root.tenants && p.id in w.root.keys
    requires w.root.keys[p.id].tenant == p.tenant && w.root.keys[p.id].life == PreActivation && w.root.keys[p.id].status == Pending
    requires p.kind != "" && p.name != ""
    ensures Reached(c, w2) && w2.jobs == w.jobs && w2.vaults == w.vaults
    ensures w2.root == SetStates(w.root, p.id, PreActivation, if p.managedBy == c.name || !HasReserved(p.labels) then Completed else Failed)
  {
    var w1 := ConfirmReached(c, w, p);
    w2 := TaskReached(c, w1, p);
    SetTwice(w.root, p.id, PreActivation, InProgress, w2.root.keys[p.id].status);
  }

  /** What a round of announce, confirmation and announce task leaves. */
  lemma Round(c: Config, w: World, req: AnnounceRequest, id: Uuid, t: Tables, at: Uuid) returns (w3: World)
    requires Deployed(c) && Announceable(c, w, req, id, t, at)
    requires at in t.keys && t.keys[at].tenant == req.tenant && t.keys[at].life == PreActivation && t.keys[at].status == Pending
    requires t.tenants == w.root.tenants
    ensures Reached(c, w3) && w3.jobs == w.jobs + {Draft(c, req, at)} && w3.vaults == w.vaults
    ensures w3.root == SetStates(t, at, PreActivation, if req.target == "" || !HasReserved(req.labels) then Completed else Failed)
  {
    AnnounceReached(c, w, req, id, t, at);
    NamedTarget(c, req);
    w3 := JobDone(c, Announced(c, w, req, t, at), Draft(c, req, at));
  }

  /** A request that will be stored under its fresh id. */
  ghost predicate Fresh(c: Config, w: World, req: AnnounceRequest, id: Uuid) {
    && id !in w.root.keys && (forall p | p in w.jobs :: p.id != id)
    && ValidAnnounce(c, req) && req.tenant in w.root.tenants && FitsHierarchy(c.hierarchy.specs, w.root, Draft(c, req, id))
    && !NameTaken(w.root, req.tenant, req.name)
  }

  ghost predicate After(c: Config, w: World, w3: World, req: AnnounceRequest, id: Uuid) {
    && w3.jobs == w.jobs + {Draft(c, req, id)} && w3.vaults == w.vaults
    && var status := if req.target == "" || !HasReserved(req.labels) then Completed else Failed;
       w3.root == w.root.(keys := w.root.keys[id := Draft(c, req, id).(status := status)])
  }

  /** A key announced for the first time. */
  lemma FirstRound(c: Config, w: World, req: AnnounceRequest, id: Uuid) returns (w3: World)
    requires Deployed(c) && Reached(c, w) && Fresh(c, w, req, id)
    ensures Reached(c, w3) && After(c, w, w3, req, id)
  {
    w3 := Round(c, w, req, id, w.root.(keys := w.root.keys[id := Draft(c, req, id)]), id);
    InsertThenSet(w.root, Draft(c, req, id), w3.root.keys[id].status);
  }

  /** A request for a key that is stored already, without the labels it was refused for. */
  ghost predicate Again(c: Config, w: World, req: AnnounceRequest, id: Uuid, at: Uuid) {
    && id !in w.root.keys && (forall p | p in w.jobs :: p.id != id)
    && ValidAnnounce(c, req) && req.tenant in w.root.tenants && FitsHierarchy(c.hierarchy.specs, w.root, Draft(c, req, id))
    && at in w.root.keys && w.root.keys[at].tenant == req.tenant && w.root.keys[at].name == req.name
    && w.root.keys[at].IsSame(Draft(c, req, id)) && req.labels == map[]
  }

  /** The same key announced again. */
  lemma SecondRound(c: Config, w: World, req: AnnounceRequest, id: Uuid, at: Uuid) returns (w3: World)
    requires Deployed(c) && Reached(c, w) && Again(c, w, req, id, at)
    ensures Reached(c, w3) && w3.vaults == w.vaults
    ensures w3.root == SetStates(w.root, at, PreActivation, Completed)
  {
    ReachedKeeps(c, w);
    UpsertAgain(w.root, Draft(c, req, id), at);
    w3 := Round(c, w, req, id, SetStates(w.root, at, PreActivation, Pending), at);
    SetTwice(w.root, at, PreActivation, Pending, Completed);
  }

  // ------------------------------------------------------------------ activating one key

  ghost predicate LineShaped(c: Config, w: World, i: Uuid) {
    Managed(c, w) && WellFormed(c.hierarchy.specs, w.root) && i in w.root.keys && LineReady(c, w, i)
  }

  /** A ready line is what activation asks of the ancestors. */
  lemma {:induction false} LineAllows(c: Config, w: World, i: Uuid)
    requires LineShaped(c, w, i)
    ensures ParentsReady(c.hierarchy.specs, w.root, i)
    ensures forall k | k in Ancestors(c.hierarchy.specs, w.root, i) :: k.id in w.root.keys && Housed(c, w, k.id)
    decreases IndexOf(c.hierarchy.specs, w.root.keys[i].kind)
  {
    assert Placed(c.hierarchy.specs, w.root, i);
    var chain := Ancestors(c.hierarchy.specs, w.root, i);
    if w.root.keys[i].parent.Some? {
      var p := w.root.keys[i].parent.value;
      var above := Ancestors(c.hierarchy.specs, w.root, p);
      LineAllows(c, w, p);
      AncestorsAreAChain(c.hierarchy.specs, w.root, p);
      assert chain == above + [w.root.keys[i]];
    }
  }

  function Alone(w: World, i: Uuid): (tree: KeyTree)
    requires i in w.root.keys
  {
    [[w.root.keys[i]]]
  }

  lemma WokenAlone(w: World, i: Uuid)
    requires i in w.root.keys && KeysById(w.root) && Eligible(Active, w.root.keys[i])
    ensures Snapshot(w.root, Alone(w, i)) && Woken(w, Alone(w, i)) == w.(root := SetStates(w.root, i, Active, Pending))
  {
    var tree: KeyTree := Alone(w, i);
    assert tree[0][0].id == i;
    assert forall j :: InWork(Active, tree, j) <==> j == i;
    assert Moved(w.root, Active, tree).keys == SetStates(w.root, i, Active, Pending).keys;
  }

  lemma MayWake(c: Config, w: World, i: Uuid)
    requires LineShaped(c, w, i) && w.root.keys[i].life == PreActivation && w.root.keys[i].status == Completed
    requires w.root.keys[i].tenant in w.root.tenants
    ensures ActionAllowed(c, w, Activate, Identify(w.root.keys[i]), false, Alone(w, i))
  {
    LineAllows(c, w, i);
    var req := Request(Activate, Identify(w.root.keys[i]), false);
    assert req.filters[2] == KeyFilter(Some(PreActivation), {Completed}) && req.filters[2] in req.filters;
  }

  /** An announced key with a ready line can be moved to (active, pending). */
  lemma WakeAlone(c: Config, w: World, i: Uuid) returns (w1: World)
    requires Deployed(c) && Reached(c, w) && LineShaped(c, w, i)
    requires w.root.keys[i].life == PreActivation && w.root.keys[i].status == Completed && w.root.keys[i].tenant in w.root.tenants
    ensures Reached(c, w1) && w1 == w.(root := SetStates(w.root, i, Active, Pending))
    ensures LineShaped(c, w1, i)
  {
    ReachedKeeps(c, w);
    MayWake(c, w, i);
    WokenAlone(w, i);
    WakeReached(c, w, Identify(w.root.keys[i]), false, Alone(w, i));
    w1 := w.(root := SetStates(w.root, i, Active, Pending));
    ReachedKeeps(c, w1);
    LineAllows(c, w, i);
    AboveStart(c, w, Alone(w, i), {}, i);
    LineComes(c, w1, w1, {}, i);
  }

  /** And then, if it is equipped, to (active, completed). */
  lemma SettleAlone(c: Config, w: World, i: Uuid) returns (w2: World)
    requires Deployed(c) && Reached(c, w) && LineShaped(c, w, i) && Equipped(c, w, i)
    requires w.root.keys[i].life == PreActivation && w.root.keys[i].status == Completed && w.root.keys[i].tenant in w.root.tenants
    ensures Reached(c, w2) && w.root.tenants <= w2.root.tenants
    ensures w2.root.keys == w.root.keys[i := w.root.keys[i].(life := Active, status := Completed)]
    ensures ProvidersStay(w, w2)
  {
    var w1 := WakeAlone(c, w, i);
    var kid := Identify(w.root.keys[i]);
    ReachedKeeps(c, w1);
    assert w1.root.keys[i].id == i;
    assert Restated(w, w1);
    RestatedEquipped(c, w, w1, i);
    CalmIsSmooth();
    StepSettles(c, w1, kid, CALM);
    w2 := AfterTask(c, w1, Activate, kid, CALM);
    AloneDone(c, w, w1, w2, i);
  }

  lemma AloneDone(c: Config, w: World, w1: World, w2: World, i: Uuid)
    requires i in w.root.keys && w1 == w.(root := SetStates(w.root, i, Active, Pending)) && Standing(c, w1, w2, {i})
    ensures w.root.tenants <= w2.root.tenants && ProvidersStay(w, w2)
    ensures w2.root.keys == w.root.keys[i := w.root.keys[i].(life := Active, status := Completed)]
  {
    forall j | j in w.root.keys && ProviderReady(w, w.root.keys[j]) ensures ProviderReady(w2, w.root.keys[j]) {
      NewestElsewhere(w.root, w1.root, w.root.keys[j].tenant, w.root.keys[j].id, LATEST);
      assert ProviderReady(w1, w1.root.keys[j]);
      assert ProviderReady(w2, w1.root.keys[j]);
    }
  }

  // ------------------------------------------------------------------ the first steps

  lemma Start(c: Config) returns (w: World)
    requires Deployed(c)
    ensures Reached(c, w) && w.root == Tables({0}, map[], map[]) && w.vaults == map[] && w.jobs == {}
  {
    var empty := Tables({}, map[], map[]);
    var w0 := World(empty, seq(|c.agents|, (_) => empty), map[], {});
    ReachStart(c, w0);
    ReachStep(c, w0, CreateTenantStep(0));
    w := w0.(root := Tables({0}, map[], map[]));
    assert w == Next(c, w0, CreateTenantStep(0));
  }

  const SPEC := ProviderSpec(0, "hsm", 0)
  const NO_FAULTS := ProviderFaults(false, false, false, false, false)

  lemma ProviderBound(w: World, k: Key)
    requires k.id in w.root.keys && w.root.keys[k.id] == k && k.life == PreActivation && k.status == Completed
    requires k.tenant in w.root.tenants && w.root.versions == map[]
    ensures var w2 := CreateProvider(w, KeyIdentifier(k.id, k.tenant), SPEC, "key", NO_FAULTS);
            && w2.root == w.root.(versions := w2.root.versions) && w2.jobs == w.jobs && ProviderReady(w2, k)
  {
    var w2 := CreateProvider(w, KeyIdentifier(k.id, k.tenant), SPEC, "key", NO_FAULTS);
    var v := VersionId(k.tenant, k.id, 1, 1);
    assert IsNewest(w2.root, k.tenant, k.id, LATEST, v);
    NewestIs(w2.root, k.tenant, k.id, LATEST, v);
  }

  lemma ProviderKept(w: World, w2: World, k: Key)
    requires w2.root.versions == w.root.versions && w2.root.tenants == w.root.tenants && w2.vaults == w.vaults && ProviderReady(w, k)
    ensures ProviderReady(w2, k)
  {
    NewestElsewhere(w.root, w2.root, k.tenant, k.id, LATEST);
  }

  lemma NameFree(w: World, tenant: Uuid, name: Name)
    requires forall i | i in w.root.keys :: w.root.keys[i].name != name
    ensures !NameTaken(w.root, tenant, name)
  {
  }
}
