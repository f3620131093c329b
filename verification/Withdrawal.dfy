/** Suspending and deactivating: a delivery without faults settles such a key whatever the state of the
    keys above it, so the cascade settles its tree in any order. */
module Withdrawal {
  import opened Model
  import opened Store
  import opened Topology
  import opened Worlds
  import opened Envelope
  import opened Agent
  import opened Protocol
  import opened Forest
  import opened KeyAction
  import opened Steps
  import opened Invariant
  import opened Preservation
  import opened Material
  import opened Delivery
  import opened Theorems
  import opened Progress
  import opened Histories
  import opened Availability
  import opened Cascade

  // ------------------------------------------------------------------ withdrawn keys have a version

  /** The key has a version, which its agent holds. */
  ghost predicate Versioned(c: Config, w: World, i: Uuid)
    requires i in w.root.keys
  {
    && Newest(w.root, w.root.keys[i].tenant, i, LATEST).Some?
    && (w.root.keys[i].managedBy != c.name ==> !HasReserved(w.root.keys[i].labels))
  }

  ghost predicate Ripe(c: Config, w: World, i: Uuid)
    requires i in w.root.keys
  {
    w.root.keys[i].life in {Suspended, Deactivated} ==> Versioned(c, w, i)
  }

  ghost predicate AllRipe(c: Config, w: World) {
    forall i {:trigger Ripe(c, w, i)} | i in w.root.keys :: Ripe(c, w, i)
  }

  ghost predicate Good(c: Config, w: World) {
    Inv(c, w) && Delivered(c, w) && AllRipe(c, w)
  }

  /** A settled key past pre-activation has one. */
  lemma SettledIsVersioned(c: Config, w: World, i: Uuid)
    requires Inv(c, w) && Delivered(c, w) && i in w.root.keys
    requires w.root.keys[i].status == Completed && w.root.keys[i].life != PreActivation
    ensures Versioned(c, w, i)
  {
    var k := w.root.keys[i];
    assert LatestFollows(w.root, i) && RowsKeyed(TablesAt(w, AtRoot));
    LatestBounds(w.root, i);
    if k.managedBy != c.name {
      assert Agrees(c, w, i);
      assert Received(c, w, FindAgent(c.agents, k.managedBy).value, Newest(w.root, k.tenant, i, LATEST).value.id);
    }
  }

  lemma VersionedStays(c: Config, w: World, w2: World, i: Uuid)
    requires i in w.root.keys && Versioned(c, w, i) && KeepsRows(w.root, w2.root)
    requires w2.root.keys[i].labels == w.root.keys[i].labels
    ensures Versioned(c, w2, i)
  {
    var t, tenant := w.root, w.root.keys[i].tenant;
    var v :| IsNewest(t, tenant, i, LATEST, v);
    assert Listed(w2.root, tenant, i, LATEST, v);
    NewestExists(w2.root, tenant, i, LATEST);
  }

  /** Suspending and deactivating start from settled active keys, or from keys withdrawn already. */
  lemma WithdrawnFrom(a: Action, k: Key)
    requires a != Activate && (Passes(Filters(a), k) || PassesAlone(Filters(a), k))
    ensures k.life in {Suspended, Deactivated} || (k.life == Active && k.status == Completed)
  {
    var fs := Filters(a);
    assert Constrains(fs[0]);
    assert forall f | f in fs :: Constrains(f);
  }

  lemma WorkIsVersioned(c: Config, w: World, a: Action, kid: KeyIdentifier, cascading: bool, tree: KeyTree, i: Uuid)
    requires Good(c, w) && a != Activate && ActionAllowed(c, w, a, kid, cascading, tree)
    requires i in w.root.keys && InWork(Target(a), tree, i)
    ensures Versioned(c, w, i)
  {
    InvKeysById(c, w);
    WorkPasses(w.root, Request(a, kid, cascading), tree, i);
    WithdrawnFrom(a, w.root.keys[i]);
    assert Ripe(c, w, i);
    if w.root.keys[i].life == Active { SettledIsVersioned(c, w, i); }
  }

  lemma RipeAfter(c: Config, w: World, w2: World, s: Step, i: Uuid)
    requires i in w.root.keys && i in w2.root.keys && RowMoves(c, w, s, i, w2.root.keys[i]) && KeepsRows(w.root, w2.root) && Ripe(c, w, i)
    requires s.ActionStep? && InWork(Target(s.action), s.tree, i) && s.action != Activate ==> Versioned(c, w, i)
    ensures Ripe(c, w2, i)
  {
    if Versioned(c, w, i) { VersionedStays(c, w, w2, i); }
  }

  lemma RowKeepsRipe(c: Config, w: World, s: Step, i: Uuid)
    requires Deployed(c) && Good(c, w) && Enabled(c, w, s) && i in w.root.keys
    ensures i in Next(c, w, s).root.keys && Ripe(c, Next(c, w, s), i)
  {
    var w2 := Next(c, w, s);
    InvKeysById(c, w);
    RowStep(c, w, s, i);
    StepKeeps(c, w, s);
    assert Ripe(c, w, i) && KeepsRows(TablesAt(w, AtRoot), TablesAt(w2, AtRoot));
    if s.ActionStep? && InWork(Target(s.action), s.tree, i) && s.action != Activate {
      WorkIsVersioned(c, w, s.action, s.kid, s.cascading, s.tree, i);
    }
    RipeAfter(c, w, w2, s, i);
  }

  lemma StepKeepsRipe(c: Config, w: World, s: Step)
    requires Deployed(c) && Good(c, w) && Enabled(c, w, s)
    ensures AllRipe(c, Next(c, w, s))
  {
    InvKeysById(c, w);
    forall i | i in Next(c, w, s).root.keys ensures Ripe(c, Next(c, w, s), i) {
      if i in w.root.keys { RowKeepsRipe(c, w, s, i); } else { NewRowsArePreActivation(c, w, s, i); }
    }
  }

  lemma StepKeepsGood(c: Config, w: World, s: Step)
    requires Deployed(c) && Good(c, w) && Enabled(c, w, s)
    ensures Good(c, Next(c, w, s))
  {
    StepKeepsInv(c, w, s);
    StepKeepsDelivered(c, w, s);
    StepKeepsRipe(c, w, s);
  }

  /** In every run a suspended or deactivated key has a version, and no label its agent refuses. */
  lemma {:induction false} RunGood(c: Config, ws: seq<World>, steps: seq<Step>, i: nat)
    requires Deployed(c) && Run(c, ws, steps) && Initial(c, ws[0]) && i < |ws|
    ensures Good(c, ws[i])
  {
    if i == 0 {
      RunKeepsInv(c, ws, steps, 0);
      RunDelivered(c, ws, steps, 0);
    } else {
      RunGood(c, ws, steps, i - 1);
      assert Taken(c, ws, steps, i - 1);
      StepKeepsGood(c, ws[i - 1], steps[i - 1]);
    }
  }

  // ------------------------------------------------------------------ one delivery

  lemma VersionedAtRoot(c: Config, w: World, key: Key)
    requires Sized(c, w) && key.managedBy == c.name && Newest(w.root, key.tenant, key.id, LATEST).Some?
    ensures Settleable(c, w, key)
  {
  }

  lemma VersionedAtAgent(c: Config, w: World, key: Key, a: nat)
    requires Sized(c, w) && key.managedBy != c.name && FindAgent(c.agents, key.managedBy) == Some(a)
    requires Acceptable(key) && key.tenant in w.agents[a].tenants
    requires var own := Newest(w.root, key.tenant, key.id, LATEST); own.Some? && own.value.id in w.agents[a].versions
    ensures Settleable(c, w, key)
  {
  }

  lemma WithdrawnCanSettle(c: Config, w: World, key: Key)
    requires Good(c, w) && key.id in w.root.keys && w.root.keys[key.id] == key && key.life in {Suspended, Deactivated}
    ensures Settleable(c, w, key)
  {
    assert Ripe(c, w, key.id) && ManagerKnown(c, key);
    if key.managedBy == c.name {
      VersionedAtRoot(c, w, key);
    } else {
      var a := FindAgent(c.agents, key.managedBy).value;
      AgentTakes(c, w, key, a);
      HeldOrFirst(c, w, key, a);
      VersionedAtAgent(c, w, key, a);
    }
  }

  /** A delivery without faults of a key that is to be suspended or deactivated settles it. */
  lemma WithdrawnSettles(c: Config, w: World, a: Action, kid: KeyIdentifier, f: TaskFaults)
    requires Deployed(c) && Good(c, w) && a != Activate && IsDue(w, a, kid) && Smooth(f)
    ensures HandleTask(c, w, Target(a), kid, f).disposition == Complete
    ensures var w2 := AfterTask(c, w, a, kid, f);
            && Good(c, w2) && w2.root.keys == w.root.keys[kid.id := w.root.keys[kid.id].(status := Completed)]
  {
    StepKeepsGood(c, w, TaskStep(a, kid, f));
    InvKeysById(c, w);
    var key := w.root.keys[kid.id];
    WithdrawnCanSettle(c, w, key);
    SmoothDeliverySettlesIff(c, w, key, f);
    DispositionMatchesStore(c, w, Target(a), kid, f);
  }

  // ------------------------------------------------------------------ any order

  /** Due keys, none twice. */
  ghost predicate AllDue(w: World, a: Action, order: seq<KeyIdentifier>) {
    && (forall x, y | 0 <= x < y < |order| :: order[x].id != order[y].id)
    && forall b | 0 <= b < |order| :: IsDue(w, a, order[b])
  }

  ghost predicate Withdrawn(c: Config, w: World, w2: World, done: set<Uuid>) {
    Good(c, w2) && Advanced(w.root, w2.root, done) && w.root.tenants <= w2.root.tenants
  }

  ghost predicate WithdrawnAt(c: Config, ws: seq<World>, order: seq<KeyIdentifier>, b: nat)
    requires b <= |order| < |ws|
  {
    Withdrawn(c, ws[0], ws[b], IdsOf(order[..b]))
  }

  lemma StillDue(w: World, w2: World, a: Action, order: seq<KeyIdentifier>, b: nat)
    requires AllDue(w, a, order) && b < |order| && Advanced(w.root, w2.root, IdsOf(order[..b])) && w.root.tenants <= w2.root.tenants
    ensures IsDue(w2, a, order[b])
  {
    assert IsDue(w, a, order[b]) && order[b].id !in IdsOf(order[..b]);
  }

  lemma OneFurther(w: World, w2: World, w3: World, order: seq<KeyIdentifier>, b: nat)
    requires b < |order| && order[b].id in w2.root.keys && order[b].id !in IdsOf(order[..b]) && Advanced(w.root, w2.root, IdsOf(order[..b]))
    requires w3.root.keys == w2.root.keys[order[b].id := w2.root.keys[order[b].id].(status := Completed)]
    ensures Advanced(w.root, w3.root, IdsOf(order[..b + 1]))
  {
    OneMoreId(order, b);
  }

  lemma NextWithdrawn(c: Config, a: Action, ws: seq<World>, order: seq<KeyIdentifier>, fs: seq<TaskFaults>, b: nat)
    requires Deployed(c) && a != Activate && Deliveries(c, a, ws, order, fs) && AllDue(ws[0], a, order) && b < |order|
    requires WithdrawnAt(c, ws, order, b)
    ensures WithdrawnAt(c, ws, order, b + 1)
  {
    assert Handed(c, a, ws, order, fs, b);
    StillDue(ws[0], ws[b], a, order, b);
    WithdrawnSettles(c, ws[b], a, order[b], fs[b]);
    TenantsStay(c, ws[b], a, order[b], fs[b]);
    assert order[b].id !in IdsOf(order[..b]);
    OneFurther(ws[0], ws[b], ws[b + 1], order, b);
  }

  /** Deliveries without faults settle any due keys, in whatever order they come. */
  lemma {:induction false} AnyOrderSettles(c: Config, a: Action, ws: seq<World>, order: seq<KeyIdentifier>, fs: seq<TaskFaults>, b: nat)
    requires Deployed(c) && a != Activate && Deliveries(c, a, ws, order, fs) && Good(c, ws[0]) && AllDue(ws[0], a, order) && b <= |order|
    ensures WithdrawnAt(c, ws, order, b)
  {
    if b > 0 {
      AnyOrderSettles(c, a, ws, order, fs, b - 1);
      NextWithdrawn(c, a, ws, order, fs, b - 1);
    }
  }

  // ------------------------------------------------------------------ the tree

  ghost function MovedBy(w: World, a: Action, tree: KeyTree): (w1: World) {
    w.(root := Moved(w.root, Target(a), tree))
  }

  /** The tasks of an action, in the order of its jobs: bottom-up unless it activates. */
  function TasksInOrder(a: Action, kid: KeyIdentifier, cascading: bool, tree: KeyTree): (r: seq<KeyIdentifier>) {
    TasksOf(JobsOf(Target(a), Order(Request(a, kid, cascading), tree)))
  }

  lemma WorkIsDue(c: Config, w: World, a: Action, kid: KeyIdentifier, cascading: bool, tree: KeyTree, b: nat)
    requires a != Activate && ActionAllowed(c, w, a, kid, cascading, tree) && Snapshot(w.root, tree)
    requires b < |WorkOf(Target(a), Reversed(tree))|
    ensures IsDue(MovedBy(w, a, tree), a, WorkOf(Target(a), Reversed(tree))[b])
  {
    var r := Reversed(tree);
    var d, e := WorkAt(Target(a), r, b);
    var x := |tree| - 1 - d;
    assert tree[x] == r[d];
    TenantOfTree(w, a, kid, cascading, tree, x, e);
    assert InWork(Target(a), tree, tree[x][e].id);
  }

  lemma TreeIsDue(c: Config, w: World, a: Action, kid: KeyIdentifier, cascading: bool, tree: KeyTree)
    requires a != Activate && ActionAllowed(c, w, a, kid, cascading, tree)
    ensures Snapshot(w.root, tree) && AllDue(MovedBy(w, a, tree), a, WorkOf(Target(a), Reversed(tree)))
  {
    FetchedIsSnapshot(c.hierarchy.specs, w.root, Request(a, kid, cascading), tree);
    ReversedSnapshot(w.root, Target(a), tree);
    var order := WorkOf(Target(a), Reversed(tree));
    forall x, y | 0 <= x < y < |order| ensures order[x].id != order[y].id { WorkDistinct(w.root, Target(a), Reversed(tree), x, y); }
    forall b | 0 <= b < |order| ensures IsDue(MovedBy(w, a, tree), a, order[b]) { WorkIsDue(c, w, a, kid, cascading, tree, b); }
  }

  lemma TreeKeyDone(w: World, w2: World, a: Action, tree: KeyTree, d: nat, e: nat)
    requires Snapshot(w.root, tree) && d < |tree| && e < |tree[d]|
    requires Advanced(MovedBy(w, a, tree).root, w2.root, IdsOf(WorkOf(Target(a), Reversed(tree))))
    ensures var i := tree[d][e].id; i in w2.root.keys && w2.root.keys[i].life == Target(a) && w2.root.keys[i].status == Completed
  {
    var i, r := tree[d][e].id, Reversed(tree);
    if Eligible(Target(a), tree[d][e]) {
      assert r[|tree| - 1 - d] == tree[d] && InWork(Target(a), tree, i);
      InWorkOf(Target(a), r, |tree| - 1 - d, e);
      var b :| 0 <= b < |WorkOf(Target(a), r)| && WorkOf(Target(a), r)[b] == Identify(tree[d][e]);
      assert WorkOf(Target(a), r)[b].id == i;
    } else {
      assert !InWork(Target(a), tree, i);
    }
  }

  lemma TreeWithdrawn(c: Config, w: World, a: Action, kid: KeyIdentifier, cascading: bool, tree: KeyTree,
                      ws: seq<World>, fs: seq<TaskFaults>)
    requires Deployed(c) && Good(c, w) && a != Activate && ActionAllowed(c, w, a, kid, cascading, tree)
    requires Deliveries(c, a, ws, WorkOf(Target(a), Reversed(tree)), fs) && ws[0] == MovedBy(w, a, tree)
    ensures Withdrawn(c, ws[0], ws[|ws| - 1], IdsOf(WorkOf(Target(a), Reversed(tree))))
  {
    var order := WorkOf(Target(a), Reversed(tree));
    StepKeepsGood(c, w, ActionStep(a, kid, cascading, tree));
    TreeIsDue(c, w, a, kid, cascading, tree);
    AnyOrderSettles(c, a, ws, order, fs, |order|);
    assert order[..|order|] == order;
  }

  /** In every reachable world: delivering the tasks of a suspension's or deactivation's jobs in order,
      without faults, settles every key of the tree in the target state. */
  lemma WithdrawalSettles(c: Config, w: World, a: Action, kid: KeyIdentifier, cascading: bool, tree: KeyTree,
                          ws: seq<World>, fs: seq<TaskFaults>)
    requires Deployed(c) && Good(c, w) && a != Activate && ActionAllowed(c, w, a, kid, cascading, tree)
    requires Deliveries(c, a, ws, TasksInOrder(a, kid, cascading, tree), fs) && ws[0] == MovedBy(w, a, tree)
    ensures Good(c, ws[|ws| - 1])
    ensures forall d, e | 0 <= d < |tree| && 0 <= e < |tree[d]| ::
              var i, w2 := tree[d][e].id, ws[|ws| - 1];
              i in w2.root.keys && w2.root.keys[i].life == Target(a) && w2.root.keys[i].status == Completed
  {
    TasksAreTheWorkInOrder(Target(a), Reversed(tree));
    TreeWithdrawn(c, w, a, kid, cascading, tree, ws, fs);
    TreeIsDue(c, w, a, kid, cascading, tree);
    forall d, e | 0 <= d < |tree| && 0 <= e < |tree[d]|
      ensures var i, w2 := tree[d][e].id, ws[|ws| - 1];
              i in w2.root.keys && w2.root.keys[i].life == Target(a) && w2.root.keys[i].status == Completed
    {
      TreeKeyDone(w, ws[|ws| - 1], a, tree, d, e);
    }
  }
}
