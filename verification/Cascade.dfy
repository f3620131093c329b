/** A cascading activation whose tasks are delivered in order and without faults settles its tree. */
module Cascade {
  import opened Model
  import opened Store
  import opened Hierarchy
  import opened Topology
  import opened Worlds
  import opened Envelope
  import opened Protocol
  import opened Forest
  import opened KeyAction
  import opened Steps
  import opened Invariant
  import opened Preservation
  import opened Stability
  import opened Material
  import opened Progress
  import opened Histories
  import opened Availability

  // ------------------------------------------------------------------ one delivery

  predicate IsDue(w: World, a: Action, kid: KeyIdentifier) {
    && kid.tenant in w.root.tenants && kid.id in w.root.keys && w.root.keys[kid.id].tenant == kid.tenant
    && w.root.keys[kid.id].life == Target(a) && w.root.keys[kid.id].status == Pending
  }

  ghost function AfterTask(c: Config, w: World, a: Action, kid: KeyIdentifier, f: TaskFaults): (w2: World)
    requires Sized(c, w)
  {
    Next(c, w, TaskStep(a, kid, f))
  }

  /** A due key with a ready line is settled, and no other row of the root's keys is touched. */
  lemma OneSettles(c: Config, w: World, kid: KeyIdentifier, f: TaskFaults)
    requires Deployed(c) && Reached(c, w) && Managed(c, w) && WellFormed(c.hierarchy.specs, w.root)
    requires IsDue(w, Activate, kid) && LineReady(c, w, kid.id) && Equipped(c, w, kid.id) && Smooth(f)
    ensures HandleTask(c, w, Active, kid, f).disposition == Complete
    ensures var w2 := AfterTask(c, w, Activate, kid, f);
            && Reached(c, w2) && w2.root.keys == w.root.keys[kid.id := w.root.keys[kid.id].(status := Completed)]
  {
    ReachStep(c, w, TaskStep(Activate, kid, f));
    ReachedKeeps(c, w);
    InvKeysById(c, w);
    var key := w.root.keys[kid.id];
    LineSettles(c, w, key);
    SmoothDeliverySettlesIff(c, w, key, f);
    DispositionMatchesStore(c, w, Active, kid, f);
  }

  /** A settled delivery commits what version resolution prepared. */
  lemma VersionsAfter(c: Config, w: World, key: Key, f: TaskFaults)
    requires Sized(c, w) && key.id in w.root.keys && w.root.keys[key.id] == key
    requires Process(c, w, key, f).disposition == Complete
    ensures ResolveVersion(w.root, key, f).Resolved?
    ensures Process(c, w, key, f).world.root.versions == ResolveVersion(w.root, key, f).tables.versions
  {
  }

  lemma LatestResolved(c: Config, w: World, key: Key, f: TaskFaults, r: Uuid, tenant: Uuid)
    requires Running(c, w, key) && RowsKeyed(w.root) && ResolveVersion(w.root, key, f).Resolved?
    requires Newest(w.root, tenant, r, LATEST).Some? && (r == key.id ==> tenant == key.tenant)
    ensures var l2 := Newest(ResolveVersion(w.root, key, f).tables, tenant, r, LATEST);
            l2.Some? && l2.value.providerKey == Newest(w.root, tenant, r, LATEST).value.providerKey
  {
    if r == key.id {
      ResolvedIsLatest(c, w, key, f);
    } else {
      OwnIds(w.root, key);
      NewestElsewhere(w.root, ResolveVersion(w.root, key, f).tables, tenant, r, LATEST);
    }
  }

  lemma OwnIds(t: Tables, key: Key)
    requires RowsKeyed(t)
    ensures var own := Newest(t, key.tenant, key.id, LATEST); own.Some? ==> own.value.id.keyId == key.id
  {
  }

  /** It leaves the latest version of every key that has one as it was, up to its state. */
  lemma LatestAfter(c: Config, w: World, key: Key, f: TaskFaults, r: Uuid, tenant: Uuid)
    requires Running(c, w, key) && Process(c, w, key, f).disposition == Complete
    requires Newest(w.root, tenant, r, LATEST).Some? && (r == key.id ==> tenant == key.tenant)
    ensures var l2 := Newest(Process(c, w, key, f).world.root, tenant, r, LATEST);
            l2.Some? && l2.value.providerKey == Newest(w.root, tenant, r, LATEST).value.providerKey
  {
    VersionsAfter(c, w, key, f);
    assert RowsKeyed(TablesAt(w, AtRoot));
    LatestResolved(c, w, key, f, r, tenant);
    NewestElsewhere(ResolveVersion(w.root, key, f).tables, Process(c, w, key, f).world.root, tenant, r, LATEST);
  }

  /** A usable provider stays usable. */
  lemma ProviderStays(c: Config, w: World, kid: KeyIdentifier, f: TaskFaults, r: Key)
    requires Deployed(c) && Inv(c, w) && IsDue(w, Activate, kid) && HandleTask(c, w, Active, kid, f).disposition == Complete
    requires Smooth(f) && ProviderReady(w, r) && (r.id == kid.id ==> r.tenant == kid.tenant)
    ensures ProviderReady(AfterTask(c, w, Activate, kid, f), r)
  {
    InvKeysById(c, w);
    LatestAfter(c, w, w.root.keys[kid.id], f, r.id, r.tenant);
    StepGrows(c, w, TaskStep(Activate, kid, f));
    StaysReady(c, w, AfterTask(c, w, Activate, kid, f), r);
  }

  lemma StaysReady(c: Config, w: World, w2: World, r: Key)
    requires Grows(c, w, w2) && ProviderReady(w, r)
    requires var l2 := Newest(w2.root, r.tenant, r.id, LATEST);
             l2.Some? && l2.value.providerKey == Newest(w.root, r.tenant, r.id, LATEST).value.providerKey
    ensures ProviderReady(w2, r)
  {
    assert KeepsRows(TablesAt(w, AtRoot), TablesAt(w2, AtRoot));
  }

  // ------------------------------------------------------------------ deliveries in order

  /** The worlds of deliveries made one after the other, none of them meeting a fault. */
  ghost predicate Deliveries(c: Config, a: Action, ws: seq<World>, order: seq<KeyIdentifier>, fs: seq<TaskFaults>) {
    && |ws| == |order| + 1 && |fs| == |order|
    && forall b {:trigger Handed(c, a, ws, order, fs, b)} | 0 <= b < |order| :: Handed(c, a, ws, order, fs, b)
  }

  ghost predicate Handed(c: Config, a: Action, ws: seq<World>, order: seq<KeyIdentifier>, fs: seq<TaskFaults>, b: nat)
    requires b < |order| && |ws| == |order| + 1 && |fs| == |order|
  {
    Smooth(fs[b]) && Sized(c, ws[b]) && ws[b + 1] == AfterTask(c, ws[b], a, order[b], fs[b])
  }

  function IdsOf(order: seq<KeyIdentifier>): (ids: set<Uuid>) {
    set b | 0 <= b < |order| :: order[b].id
  }

  /** The rows after some deliveries: those delivered are settled, all others as before. */
  ghost predicate Advanced(t: Tables, t2: Tables, done: set<Uuid>) {
    && t2.keys.Keys == t.keys.Keys
    && forall i | i in t.keys :: t2.keys[i] == if i in done then t.keys[i].(status := Completed) else t.keys[i]
  }

  /** Every key above is settled already or will be by then. */
  ghost predicate LineWill(c: Config, w: World, done: set<Uuid>, i: Uuid)
    requires Managed(c, w) && WellFormed(c.hierarchy.specs, w.root) && i in w.root.keys
    decreases IndexOf(c.hierarchy.specs, w.root.keys[i].kind)
  {
    assert Placed(c.hierarchy.specs, w.root, i);
    && Housed(c, w, i)
    && (w.root.keys[i].parent.Some? ==>
          var p := w.root.keys[i].parent.value;
          (Settled(w, p) || (p in done && w.root.keys[p].life == Active)) && LineWill(c, w, done, p))
  }

  lemma {:induction false} LineWillGrows(c: Config, w: World, done: set<Uuid>, more: set<Uuid>, i: Uuid)
    requires Managed(c, w) && WellFormed(c.hierarchy.specs, w.root) && i in w.root.keys
    requires LineWill(c, w, done, i) && done <= more
    ensures LineWill(c, w, more, i)
    decreases IndexOf(c.hierarchy.specs, w.root.keys[i].kind)
  {
    assert Placed(c.hierarchy.specs, w.root, i);
    if w.root.keys[i].parent.Some? { LineWillGrows(c, w, done, more, w.root.keys[i].parent.value); }
  }

  lemma {:induction false} LineComes(c: Config, w: World, w2: World, done: set<Uuid>, i: Uuid)
    requires Managed(c, w) && WellFormed(c.hierarchy.specs, w.root) && i in w.root.keys
    requires Managed(c, w2) && WellFormed(c.hierarchy.specs, w2.root)
    requires Advanced(w.root, w2.root, done) && LineWill(c, w, done, i)
    ensures LineReady(c, w2, i)
    decreases IndexOf(c.hierarchy.specs, w.root.keys[i].kind)
  {
    assert Placed(c.hierarchy.specs, w.root, i);
    if w.root.keys[i].parent.Some? { LineComes(c, w, w2, done, w.root.keys[i].parent.value); }
  }

  ghost predicate ProvidersStay(w: World, w2: World) {
    forall i | i in w.root.keys && ProviderReady(w, w.root.keys[i]) :: ProviderReady(w2, w.root.keys[i])
  }

  lemma EquippedStays(c: Config, w: World, w2: World, done: set<Uuid>, i: Uuid)
    requires Managed(c, w) && WellFormed(c.hierarchy.specs, w.root) && i in w.root.keys
    requires Managed(c, w2) && WellFormed(c.hierarchy.specs, w2.root)
    requires Advanced(w.root, w2.root, done) && ProvidersStay(w, w2) && Equipped(c, w, i)
    ensures Equipped(c, w2, i)
  {
    assert Placed(c.hierarchy.specs, w.root, i);
  }

  /** Due keys, none twice, each with what it needs once the ones before it are settled. */
  ghost predicate Lined(c: Config, w: World, order: seq<KeyIdentifier>) {
    && Managed(c, w) && WellFormed(c.hierarchy.specs, w.root)
    && (forall a, b | 0 <= a < b < |order| :: order[a].id != order[b].id)
    && forall b {:trigger LinedAt(c, w, order, b)} | 0 <= b < |order| :: LinedAt(c, w, order, b)
  }

  ghost predicate LinedAt(c: Config, w: World, order: seq<KeyIdentifier>, b: nat)
    requires Managed(c, w) && WellFormed(c.hierarchy.specs, w.root) && b < |order|
  {
    IsDue(w, Activate, order[b]) && LineWill(c, w, IdsOf(order[..b]), order[b].id) && Equipped(c, w, order[b].id)
  }

  lemma TenantsStay(c: Config, w: World, a: Action, kid: KeyIdentifier, f: TaskFaults)
    requires Deployed(c) && Inv(c, w)
    ensures w.root.tenants <= AfterTask(c, w, a, kid, f).root.tenants
  {
    StepGrows(c, w, TaskStep(a, kid, f));
    assert KeepsRows(TablesAt(w, AtRoot), TablesAt(AfterTask(c, w, a, kid, f), AtRoot));
  }

  lemma AllProvidersStay(c: Config, w: World, kid: KeyIdentifier, f: TaskFaults)
    requires Deployed(c) && Inv(c, w) && IsDue(w, Activate, kid) && HandleTask(c, w, Active, kid, f).disposition == Complete && Smooth(f)
    ensures ProvidersStay(w, AfterTask(c, w, Activate, kid, f))
  {
    InvKeysById(c, w);
    forall i | i in w.root.keys && ProviderReady(w, w.root.keys[i]) ensures ProviderReady(AfterTask(c, w, Activate, kid, f), w.root.keys[i]) {
      ProviderStays(c, w, kid, f, w.root.keys[i]);
    }
  }

  /** Where things stand after the deliveries of some identifiers. */
  ghost predicate Standing(c: Config, w: World, w2: World, done: set<Uuid>) {
    && Reached(c, w2) && Advanced(w.root, w2.root, done) && w.root.tenants <= w2.root.tenants && ProvidersStay(w, w2)
  }

  lemma StepSettles(c: Config, w: World, kid: KeyIdentifier, f: TaskFaults)
    requires Deployed(c) && Reached(c, w) && Managed(c, w) && WellFormed(c.hierarchy.specs, w.root)
    requires IsDue(w, Activate, kid) && LineReady(c, w, kid.id) && Equipped(c, w, kid.id) && Smooth(f)
    ensures Standing(c, w, AfterTask(c, w, Activate, kid, f), {kid.id})
  {
    OneSettles(c, w, kid, f);
    ReachedKeeps(c, w);
    TenantsStay(c, w, Activate, kid, f);
    AllProvidersStay(c, w, kid, f);
  }

  lemma StandingFurther(c: Config, w: World, w2: World, w3: World, done: set<Uuid>, i: Uuid)
    requires Standing(c, w, w2, done) && Standing(c, w2, w3, {i}) && KeysById(w.root)
    ensures Standing(c, w, w3, done + {i})
  {
    forall j | j in w.root.keys && ProviderReady(w, w.root.keys[j]) ensures ProviderReady(w3, w.root.keys[j]) {
      assert ProviderReady(w2, w.root.keys[j]);
      assert ProviderReady(w2, w2.root.keys[j]);
      assert ProviderReady(w3, w2.root.keys[j]);
    }
  }

  /** The next key in line is due, with a ready line and all it needs. */
  lemma NextInLine(c: Config, w: World, w2: World, order: seq<KeyIdentifier>, b: nat)
    requires Deployed(c) && Lined(c, w, order) && b < |order|
    requires Standing(c, w, w2, IdsOf(order[..b]))
    ensures Managed(c, w2) && WellFormed(c.hierarchy.specs, w2.root)
    ensures IsDue(w2, Activate, order[b]) && LineReady(c, w2, order[b].id) && Equipped(c, w2, order[b].id)
  {
    var done, kid := IdsOf(order[..b]), order[b];
    assert LinedAt(c, w, order, b);
    ReachedKeeps(c, w2);
    assert kid.id !in done;
    LineComes(c, w, w2, done, kid.id);
    EquippedStays(c, w, w2, done, kid.id);
  }

  ghost predicate StandingAt(c: Config, ws: seq<World>, order: seq<KeyIdentifier>, b: nat)
    requires b <= |order| < |ws|
  {
    Standing(c, ws[0], ws[b], IdsOf(order[..b]))
  }

  lemma NextStanding(c: Config, ws: seq<World>, order: seq<KeyIdentifier>, fs: seq<TaskFaults>, b: nat)
    requires Deployed(c) && Deliveries(c, Activate, ws, order, fs) && Lined(c, ws[0], order) && b < |order| && StandingAt(c, ws, order, b)
    ensures StandingAt(c, ws, order, b + 1)
  {
    assert Handed(c, Activate, ws, order, fs, b);
    NextInLine(c, ws[0], ws[b], order, b);
    StepSettles(c, ws[b], order[b], fs[b]);
    StandingFurther(c, ws[0], ws[b], ws[b + 1], IdsOf(order[..b]), order[b].id);
    OneMoreId(order, b);
  }

  lemma OneMoreId(order: seq<KeyIdentifier>, b: nat)
    requires b < |order|
    ensures IdsOf(order[..b + 1]) == IdsOf(order[..b]) + {order[b].id}
  {
    assert order[..b + 1] == order[..b] + [order[b]];
    forall i | i in IdsOf(order[..b]) + {order[b].id} ensures i in IdsOf(order[..b + 1]) {
      if i == order[b].id {
        assert order[..b + 1][b].id == i;
      } else {
        var x :| 0 <= x < b && order[..b][x].id == i;
        assert order[..b + 1][x].id == i;
      }
    }
  }

  lemma {:induction false} AllStanding(c: Config, ws: seq<World>, order: seq<KeyIdentifier>, fs: seq<TaskFaults>, b: nat)
    requires Deployed(c) && Deliveries(c, Activate, ws, order, fs) && Reached(c, ws[0]) && Lined(c, ws[0], order) && b <= |order|
    ensures StandingAt(c, ws, order, b)
  {
    if b > 0 {
      AllStanding(c, ws, order, fs, b - 1);
      NextStanding(c, ws, order, fs, b - 1);
    }
  }

  // ------------------------------------------------------------------ the tasks of an action

  /** The tasks of the jobs, in order. */
  function TasksOf(jobs: seq<Job>): (r: seq<KeyIdentifier>) {
    if jobs == [] then [] else TasksOf(jobs[..|jobs| - 1]) + jobs[|jobs| - 1].ids
  }

  /** The work of the layers, in order. */
  function WorkOf(target: LifeCycle, layers: KeyTree): (r: seq<KeyIdentifier>) {
    if layers == [] then [] else WorkOf(target, layers[..|layers| - 1]) + Ids(target, layers[|layers| - 1])
  }

  lemma {:induction false} TasksAreTheWorkInOrder(target: LifeCycle, layers: KeyTree)
    ensures TasksOf(JobsOf(target, layers)) == WorkOf(target, layers)
  {
    if layers != [] {
      var n := |layers| - 1;
      TasksAreTheWorkInOrder(target, layers[..n]);
      var js := JobsOf(target, layers);
      if Ids(target, layers[n]) == [] {
        assert js == JobsOf(target, layers[..n]);
      } else {
        assert js[..|js| - 1] == JobsOf(target, layers[..n]);
      }
    }
  }

  /** Where in the tree a task stands; the work of all layers above comes before it. */
  lemma {:induction false} WorkAt(target: LifeCycle, layers: KeyTree, b: nat) returns (d: nat, e: nat)
    requires b < |WorkOf(target, layers)|
    ensures d < |layers| && e < |layers[d]| && WorkOf(target, layers)[b] == Identify(layers[d][e]) && Eligible(target, layers[d][e])
    ensures WorkOf(target, layers[..d]) <= WorkOf(target, layers)[..b]
  {
    var n := |layers| - 1;
    var above := WorkOf(target, layers[..n]);
    if b < |above| {
      d, e := WorkAt(target, layers[..n], b);
      assert layers[..n][..d] == layers[..d];
      assert WorkOf(target, layers)[..b] == above[..b];
    } else {
      d := n;
      IdsExact(target, layers[n], WorkOf(target, layers)[b]);
      e :| 0 <= e < |layers[n]| && Identify(layers[n][e]) == WorkOf(target, layers)[b] && Eligible(target, layers[n][e]);
    }
  }

  lemma {:induction false} InWorkOf(target: LifeCycle, layers: KeyTree, d: nat, e: nat)
    requires d < |layers| && e < |layers[d]| && Eligible(target, layers[d][e])
    ensures Identify(layers[d][e]) in WorkOf(target, layers)
  {
    var n := |layers| - 1;
    if d < n { InWorkOf(target, layers[..n], d, e); } else { IdsExact(target, layers[d], Identify(layers[d][e])); }
  }

  lemma {:induction false} WorkDistinct(t: Tables, target: LifeCycle, layers: KeyTree, a: nat, b: nat)
    requires Snapshot(t, layers) && a < b < |WorkOf(target, layers)|
    ensures WorkOf(target, layers)[a].id != WorkOf(target, layers)[b].id
  {
    var n := |layers| - 1;
    var above := WorkOf(target, layers[..n]);
    if b < |above| {
      WorkDistinct(t, target, layers[..n], a, b);
    } else if a < |above| {
      var d, e := WorkAt(target, layers[..n], a);
      IdsExact(target, layers[n], WorkOf(target, layers)[b]);
      var g :| 0 <= g < |layers[n]| && Identify(layers[n][g]) == WorkOf(target, layers)[b] && Eligible(target, layers[n][g]);
      assert layers[..n][d][e] == layers[d][e];
    } else {
      LayerDistinct(t, target, layers, a - |above|, b - |above|);
    }
  }

  lemma LayerDistinct(t: Tables, target: LifeCycle, layers: KeyTree, a: nat, b: nat)
    requires Snapshot(t, layers) && layers != [] && a < b < |Ids(target, layers[|layers| - 1])|
    ensures var ids := Ids(target, layers[|layers| - 1]); ids[a].id != ids[b].id
  {
    var layer := layers[|layers| - 1];
    var ids := Ids(target, layer);
    IdsDistinct(target, layer);
    IdsExact(target, layer, ids[a]);
    IdsExact(target, layer, ids[b]);
  }

  // ------------------------------------------------------------------ the tree of an activation

  /** The same world up to the states of the root's keys. */
  ghost predicate Restated(w: World, w1: World) {
    && w1 == w.(root := w.root.(keys := w1.root.keys)) && w1.root.keys.Keys == w.root.keys.Keys
    && forall j | j in w.root.keys :: w1.root.keys[j] == w.root.keys[j].(life := w1.root.keys[j].life, status := w1.root.keys[j].status)
  }

  ghost function Woken(w: World, tree: KeyTree): (w1: World) {
    w.(root := Moved(w.root, Active, tree))
  }

  lemma WokenRestates(w: World, tree: KeyTree)
    ensures Restated(w, Woken(w, tree))
  {
  }

  lemma RestatedShape(c: Config, w: World, w1: World)
    requires Restated(w, w1) && Managed(c, w) && WellFormed(c.hierarchy.specs, w.root)
    ensures Managed(c, w1) && WellFormed(c.hierarchy.specs, w1.root)
  {
    forall j | j in w1.root.keys ensures Placed(c.hierarchy.specs, w1.root, j) && ManagerKnown(c, w1.root.keys[j]) {
      assert Placed(c.hierarchy.specs, w.root, j) && ManagerKnown(c, w.root.keys[j]);
    }
  }

  lemma RestatedHoused(c: Config, w: World, w1: World, i: Uuid)
    requires Restated(w, w1) && Managed(c, w) && WellFormed(c.hierarchy.specs, w.root)
    requires Managed(c, w1) && WellFormed(c.hierarchy.specs, w1.root) && i in w.root.keys && Housed(c, w, i)
    ensures Housed(c, w1, i)
  {
    assert Placed(c.hierarchy.specs, w.root, i);
  }

  lemma RestatedEquipped(c: Config, w: World, w1: World, i: Uuid)
    requires Restated(w, w1) && Managed(c, w) && WellFormed(c.hierarchy.specs, w.root)
    requires Managed(c, w1) && WellFormed(c.hierarchy.specs, w1.root) && i in w.root.keys && Equipped(c, w, i)
    ensures Equipped(c, w1, i)
  {
    assert Placed(c.hierarchy.specs, w.root, i);
    var k := w.root.keys[i];
    if k.parent.Some? {
      var p := k.parent.value;
      NewestElsewhere(w.root, w1.root, w.root.keys[p].tenant, p, LATEST);
    }
  }

  /** A settled row is not moved. */
  lemma SettledStays(w: World, tree: KeyTree, p: Uuid)
    requires Snapshot(w.root, tree) && Settled(w, p)
    ensures Settled(Woken(w, tree), p)
  {
  }

  /** Above the start everything is settled. */
  lemma {:induction false} AboveStart(c: Config, w: World, tree: KeyTree, done: set<Uuid>, i: Uuid)
    requires Managed(c, w) && WellFormed(c.hierarchy.specs, w.root) && i in w.root.keys && Snapshot(w.root, tree)
    requires Managed(c, Woken(w, tree)) && WellFormed(c.hierarchy.specs, Woken(w, tree).root)
    requires ParentsReady(c.hierarchy.specs, w.root, i)
    requires forall k | k in Ancestors(c.hierarchy.specs, w.root, i) :: k.id in w.root.keys && Housed(c, w, k.id)
    ensures LineWill(c, Woken(w, tree), done, i)
    decreases IndexOf(c.hierarchy.specs, w.root.keys[i].kind)
  {
    var chain := Ancestors(c.hierarchy.specs, w.root, i);
    assert Placed(c.hierarchy.specs, w.root, i);
    assert chain[|chain| - 1] == w.root.keys[i] && chain[|chain| - 1] in chain;
    WokenRestates(w, tree);
    RestatedHoused(c, w, Woken(w, tree), i);
    if w.root.keys[i].parent.Some? {
      var p := w.root.keys[i].parent.value;
      var above := Ancestors(c.hierarchy.specs, w.root, p);
      assert chain == above + [w.root.keys[i]] && above[|above| - 1] == w.root.keys[p];
      assert forall d | 0 <= d < |above| :: chain[d] == above[d];
      assert chain[|above| - 1] == w.root.keys[p];
      SettledStays(w, tree, p);
      AboveStart(c, w, tree, done, p);
    }
  }

  /** What an activation needs: every key of its tree equipped, and these and the keys above the start
      where their children look for them. */
  ghost predicate Prepared(c: Config, w: World, kid: KeyIdentifier, tree: KeyTree) {
    && Managed(c, w) && WellFormed(c.hierarchy.specs, w.root) && Snapshot(w.root, tree) && kid.id in w.root.keys
    && (forall k | k in Ancestors(c.hierarchy.specs, w.root, kid.id) :: k.id in w.root.keys && Housed(c, w, k.id))
    && forall d, e | 0 <= d < |tree| && 0 <= e < |tree[d]| :: Housed(c, w, tree[d][e].id) && Equipped(c, w, tree[d][e].id)
  }

  /** The parent of a key below the first layer is in the layer above. */
  lemma ParentAbove(w: World, kid: KeyIdentifier, cascading: bool, tree: KeyTree, d: nat, e: nat) returns (e2: nat)
    requires Fetched(w.root, Request(Activate, kid, cascading), tree) && 0 < d < |tree| && e < |tree[d]|
    ensures e2 < |tree[d - 1]| && tree[d][e].parent == Some(tree[d - 1][e2].id)
  {
    var fs := Filters(Activate);
    assert Lists(w.root, Layer(w.root, fs, kid.id, kid.tenant, d), tree[d]);
    assert Lists(w.root, Layer(w.root, fs, kid.id, kid.tenant, d - 1), tree[d - 1]);
    var p := tree[d][e].parent.value;
    assert p in Layer(w.root, fs, kid.id, kid.tenant, d - 1);
    e2 :| 0 <= e2 < |tree[d - 1]| && tree[d - 1][e2].id == p;
  }

  lemma FirstLayer(w: World, kid: KeyIdentifier, cascading: bool, tree: KeyTree, e: nat)
    requires Fetched(w.root, Request(Activate, kid, cascading), tree) && KeysById(w.root) && 0 < |tree| && e < |tree[0]|
    ensures tree[0][e].id == kid.id
  {
    if cascading { assert Lists(w.root, Layer(w.root, Filters(Activate), kid.id, kid.tenant, 0), tree[0]); }
  }

  /** A key of the tree is settled before, or is among the work. */
  lemma InTree(w: World, tree: KeyTree, d: nat, e: nat)
    requires Snapshot(w.root, tree) && d < |tree| && e < |tree[d]|
    ensures var i := tree[d][e].id;
            && i in w.root.keys && Woken(w, tree).root.keys[i].life == Active
            && if Eligible(Active, tree[d][e]) then
                 Woken(w, tree).root.keys[i] == w.root.keys[i].(life := Active, status := Pending)
               else Settled(Woken(w, tree), i)
  {
    var i := tree[d][e].id;
    if Eligible(Active, tree[d][e]) {
      assert InWork(Active, tree, i);
    } else {
      SettledStays(w, tree, i);
    }
  }

  lemma StartLine(c: Config, w: World, kid: KeyIdentifier, cascading: bool, tree: KeyTree, e: nat)
    requires Prepared(c, w, kid, tree) && ActionAllowed(c, w, Activate, kid, cascading, tree) && 0 < |tree| && e < |tree[0]|
    requires Managed(c, Woken(w, tree)) && WellFormed(c.hierarchy.specs, Woken(w, tree).root)
    ensures tree[0][e].id in Woken(w, tree).root.keys
    ensures LineWill(c, Woken(w, tree), IdsOf(WorkOf(Active, tree[..0])), tree[0][e].id)
  {
    FirstLayer(w, kid, cascading, tree, e);
    AboveStart(c, w, tree, IdsOf(WorkOf(Active, tree[..0])), kid.id);
  }

  /** The key's parent is in the layer above. */
  ghost predicate Hangs(tree: KeyTree, d: nat, e: nat)
    requires 0 < d < |tree| && e < |tree[d]|
  {
    exists k | k in tree[d - 1] :: tree[d][e].parent == Some(k.id)
  }

  ghost predicate StartLined(c: Config, w: World, tree: KeyTree, e: nat)
    requires Managed(c, Woken(w, tree)) && WellFormed(c.hierarchy.specs, Woken(w, tree).root) && 0 < |tree| && e < |tree[0]|
  {
    && tree[0][e].id in Woken(w, tree).root.keys
    && LineWill(c, Woken(w, tree), IdsOf(WorkOf(Active, tree[..0])), tree[0][e].id)
  }

  lemma {:induction false} LinesDown(c: Config, w: World, kid: KeyIdentifier, tree: KeyTree, d: nat, e: nat)
    requires Prepared(c, w, kid, tree) && d < |tree| && e < |tree[d]|
    requires Managed(c, Woken(w, tree)) && WellFormed(c.hierarchy.specs, Woken(w, tree).root)
    requires forall g: nat {:trigger StartLined(c, w, tree, g)} | g < |tree[0]| :: StartLined(c, w, tree, g)
    requires forall h: nat, g: nat {:trigger Hangs(tree, h, g)} | 0 < h < |tree| && g < |tree[h]| :: Hangs(tree, h, g)
    ensures tree[d][e].id in Woken(w, tree).root.keys
    ensures LineWill(c, Woken(w, tree), IdsOf(WorkOf(Active, tree[..d])), tree[d][e].id)
    decreases d
  {
    if d == 0 {
      assert StartLined(c, w, tree, e);
    } else {
      assert Hangs(tree, d, e);
      var k :| k in tree[d - 1] && tree[d][e].parent == Some(k.id);
      var e2: nat :| e2 < |tree[d - 1]| && tree[d - 1][e2] == k;
      LinesDown(c, w, kid, tree, d - 1, e2);
      PreparedBelow(c, w, kid, tree, d, e, e2);
    }
  }

  lemma TreeLines(c: Config, w: World, kid: KeyIdentifier, cascading: bool, tree: KeyTree, d: nat, e: nat)
    requires Prepared(c, w, kid, tree) && ActionAllowed(c, w, Activate, kid, cascading, tree) && d < |tree| && e < |tree[d]|
    requires Managed(c, Woken(w, tree)) && WellFormed(c.hierarchy.specs, Woken(w, tree).root)
    ensures tree[d][e].id in Woken(w, tree).root.keys
    ensures LineWill(c, Woken(w, tree), IdsOf(WorkOf(Active, tree[..d])), tree[d][e].id)
  {
    forall g: nat | g < |tree[0]| ensures StartLined(c, w, tree, g) { StartLine(c, w, kid, cascading, tree, g); }
    forall h: nat, g: nat | 0 < h < |tree| && g < |tree[h]| ensures Hangs(tree, h, g) {
      var e2 := ParentAbove(w, kid, cascading, tree, h, g);
      assert tree[h - 1][e2] in tree[h - 1];
    }
    LinesDown(c, w, kid, tree, d, e);
  }

  lemma PreparedBelow(c: Config, w: World, kid: KeyIdentifier, tree: KeyTree, d: nat, e: nat, e2: nat)
    requires Prepared(c, w, kid, tree)
    requires 0 < d < |tree| && e < |tree[d]| && e2 < |tree[d - 1]| && tree[d][e].parent == Some(tree[d - 1][e2].id)
    requires Managed(c, Woken(w, tree)) && WellFormed(c.hierarchy.specs, Woken(w, tree).root)
    requires tree[d - 1][e2].id in Woken(w, tree).root.keys
    requires LineWill(c, Woken(w, tree), IdsOf(WorkOf(Active, tree[..d - 1])), tree[d - 1][e2].id)
    ensures tree[d][e].id in Woken(w, tree).root.keys
    ensures LineWill(c, Woken(w, tree), IdsOf(WorkOf(Active, tree[..d])), tree[d][e].id)
  {
    LineBelow(c, w, tree, d, e, e2);
  }

  lemma LineBelow(c: Config, w: World, tree: KeyTree, d: nat, e: nat, e2: nat)
    requires Managed(c, w) && WellFormed(c.hierarchy.specs, w.root) && Snapshot(w.root, tree)
    requires 0 < d < |tree| && e < |tree[d]| && e2 < |tree[d - 1]| && tree[d][e].parent == Some(tree[d - 1][e2].id)
    requires Housed(c, w, tree[d][e].id)
    requires Managed(c, Woken(w, tree)) && WellFormed(c.hierarchy.specs, Woken(w, tree).root)
    requires tree[d - 1][e2].id in Woken(w, tree).root.keys
    requires LineWill(c, Woken(w, tree), IdsOf(WorkOf(Active, tree[..d - 1])), tree[d - 1][e2].id)
    ensures tree[d][e].id in Woken(w, tree).root.keys
    ensures LineWill(c, Woken(w, tree), IdsOf(WorkOf(Active, tree[..d])), tree[d][e].id)
  {
    var w1, done := Woken(w, tree), IdsOf(WorkOf(Active, tree[..d]));
    var i, p := tree[d][e].id, tree[d - 1][e2].id;
    WorkGrowsDown(tree, d);
    LineWillGrows(c, w1, IdsOf(WorkOf(Active, tree[..d - 1])), done, p);
    WokenRestates(w, tree);
    RestatedHoused(c, w, w1, i);
    InTree(w, tree, d, e);
    InTree(w, tree, d - 1, e2);
    if Eligible(Active, tree[d - 1][e2]) { WorkIds(tree, d, e2); }
  }

  lemma WorkGrowsDown(tree: KeyTree, d: nat)
    requires 0 < d <= |tree|
    ensures IdsOf(WorkOf(Active, tree[..d - 1])) <= IdsOf(WorkOf(Active, tree[..d]))
  {
    assert tree[..d][..d - 1] == tree[..d - 1];
    PrefixIds(WorkOf(Active, tree[..d - 1]), WorkOf(Active, tree[..d]));
  }

  lemma PrefixIds(a: seq<KeyIdentifier>, b: seq<KeyIdentifier>)
    requires a <= b
    ensures IdsOf(a) <= IdsOf(b)
  {
    forall i | i in IdsOf(a) ensures i in IdsOf(b) {
      var x :| 0 <= x < |a| && a[x].id == i;
      assert b[x] == a[x];
    }
  }

  lemma WorkIds(tree: KeyTree, d: nat, e: nat)
    requires 0 < d <= |tree| && e < |tree[d - 1]| && Eligible(Active, tree[d - 1][e])
    ensures tree[d - 1][e].id in IdsOf(WorkOf(Active, tree[..d]))
  {
    InWorkOf(Active, tree[..d], d - 1, e);
    var b :| 0 <= b < |WorkOf(Active, tree[..d])| && WorkOf(Active, tree[..d])[b] == Identify(tree[d - 1][e]);
    assert WorkOf(Active, tree[..d])[b].id == tree[d - 1][e].id;
  }

  lemma TenantOfTree(w: World, a: Action, kid: KeyIdentifier, cascading: bool, tree: KeyTree, d: nat, e: nat)
    requires Fetched(w.root, Request(a, kid, cascading), tree) && d < |tree| && e < |tree[d]|
    ensures tree[d][e].tenant == kid.tenant
  {
    if cascading { assert Lists(w.root, Layer(w.root, Filters(a), kid.id, kid.tenant, d), tree[d]); }
  }

  lemma TaskLined(c: Config, w: World, kid: KeyIdentifier, cascading: bool, tree: KeyTree, b: nat)
    requires Prepared(c, w, kid, tree) && ActionAllowed(c, w, Activate, kid, cascading, tree) && b < |WorkOf(Active, tree)|
    requires Managed(c, Woken(w, tree)) && WellFormed(c.hierarchy.specs, Woken(w, tree).root)
    ensures LinedAt(c, Woken(w, tree), WorkOf(Active, tree), b)
  {
    var w1, order := Woken(w, tree), WorkOf(Active, tree);
    var d, e := WorkAt(Active, tree, b);
    TenantOfTree(w, Activate, kid, cascading, tree, d, e);
    TreeLines(c, w, kid, cascading, tree, d, e);
    PrefixIds(WorkOf(Active, tree[..d]), order[..b]);
    LineWillGrows(c, w1, IdsOf(WorkOf(Active, tree[..d])), IdsOf(order[..b]), tree[d][e].id);
    InTree(w, tree, d, e);
    WokenRestates(w, tree);
    RestatedEquipped(c, w, w1, tree[d][e].id);
  }

  lemma TreeIsLined(c: Config, w: World, kid: KeyIdentifier, cascading: bool, tree: KeyTree)
    requires Prepared(c, w, kid, tree) && ActionAllowed(c, w, Activate, kid, cascading, tree)
    ensures Lined(c, Woken(w, tree), WorkOf(Active, tree))
  {
    WokenRestates(w, tree);
    RestatedShape(c, w, Woken(w, tree));
    var order := WorkOf(Active, tree);
    forall a, b | 0 <= a < b < |order| ensures order[a].id != order[b].id { WorkDistinct(w.root, Active, tree, a, b); }
    forall b: nat | b < |order| ensures LinedAt(c, Woken(w, tree), order, b) { TaskLined(c, w, kid, cascading, tree, b); }
  }

  lemma DoneIsSettled(c: Config, w: World, w2: World, tree: KeyTree, d: nat, e: nat)
    requires Snapshot(w.root, tree) && d < |tree| && e < |tree[d]|
    requires Advanced(Woken(w, tree).root, w2.root, IdsOf(WorkOf(Active, tree)))
    ensures Settled(w2, tree[d][e].id)
  {
    InTree(w, tree, d, e);
    if Eligible(Active, tree[d][e]) {
      InWorkOf(Active, tree, d, e);
      var b :| 0 <= b < |WorkOf(Active, tree)| && WorkOf(Active, tree)[b] == Identify(tree[d][e]);
      assert WorkOf(Active, tree)[b].id == tree[d][e].id;
    }
  }

  lemma WakeReached(c: Config, w: World, kid: KeyIdentifier, cascading: bool, tree: KeyTree)
    requires Deployed(c) && Reached(c, w) && ActionAllowed(c, w, Activate, kid, cascading, tree)
    ensures Reached(c, Woken(w, tree))
  {
    ReachStep(c, w, ActionStep(Activate, kid, cascading, tree));
  }

  lemma CascadeStanding(c: Config, w: World, kid: KeyIdentifier, cascading: bool, tree: KeyTree,
                        ws: seq<World>, fs: seq<TaskFaults>)
    requires Deployed(c) && Reached(c, w) && Prepared(c, w, kid, tree)
    requires ActionAllowed(c, w, Activate, kid, cascading, tree)
    requires Deliveries(c, Activate, ws, WorkOf(Active, tree), fs) && ws[0] == Woken(w, tree)
    ensures Standing(c, Woken(w, tree), ws[|ws| - 1], IdsOf(WorkOf(Active, tree)))
  {
    var order := WorkOf(Active, tree);
    WakeReached(c, w, kid, cascading, tree);
    TreeIsLined(c, w, kid, cascading, tree);
    AllStanding(c, ws, order, fs, |order|);
    LastStanding(c, ws, order);
  }

  lemma LastStanding(c: Config, ws: seq<World>, order: seq<KeyIdentifier>)
    requires |ws| == |order| + 1 && StandingAt(c, ws, order, |order|)
    ensures Standing(c, ws[0], ws[|order|], IdsOf(order))
  {
    assert order[..|order|] == order;
  }

  /** In every reachable world: if an activation's tree is prepared, delivering the tasks of its jobs in
      order, without faults, settles every key of the tree. No child ends for want of a parent version. */
  lemma CascadeSettles(c: Config, w: World, kid: KeyIdentifier, cascading: bool, tree: KeyTree,
                       ws: seq<World>, fs: seq<TaskFaults>)
    requires Deployed(c) && Reached(c, w) && Prepared(c, w, kid, tree)
    requires ActionAllowed(c, w, Activate, kid, cascading, tree)
    requires Deliveries(c, Activate, ws, TasksOf(JobsOf(Active, tree)), fs) && ws[0] == Woken(w, tree)
    ensures Reached(c, ws[|ws| - 1])
    ensures forall d, e | 0 <= d < |tree| && 0 <= e < |tree[d]| :: Settled(ws[|ws| - 1], tree[d][e].id)
  {
    TasksAreTheWorkInOrder(Active, tree);
    CascadeStanding(c, w, kid, cascading, tree, ws, fs);
    forall d, e | 0 <= d < |tree| && 0 <= e < |tree[d]| ensures Settled(ws[|ws| - 1], tree[d][e].id) {
      DoneIsSettled(c, w, ws[|ws| - 1], tree, d, e);
    }
  }
}
