/** An admin action on a key tree: move every key that needs it to (target, pending), and cut the
    tree into one job per layer. */
module KeyAction {
  import opened Model
  import opened Hierarchy
  import opened Forest
  import opened Protocol
  import opened Transactions
  import Store

  datatype Job = Job(target: LifeCycle, ids: seq<KeyIdentifier>)

  datatype ActionError = NoKeysFound | NoEligibleKeys | StoreError

  datatype ActionResult = Jobs(jobs: seq<Job>) | Refused(error: ActionError)

  predicate Eligible(target: LifeCycle, k: Key) {
    !(k.life == target && k.status == Completed)
  }

  function Identify(k: Key): (kid: KeyIdentifier) {
    KeyIdentifier(k.id, k.tenant)
  }

  /** The identifiers of a layer's keys that need work, in order. */
  function Ids(target: LifeCycle, layer: seq<Key>): (r: seq<KeyIdentifier>) {
    if layer == [] then []
    else
      var k := layer[|layer| - 1];
      Ids(target, layer[..|layer| - 1]) + if Eligible(target, k) then [Identify(k)] else []
  }

  /** One job per layer that has any. */
  function JobsOf(target: LifeCycle, layers: KeyTree): (r: seq<Job>) {
    if layers == [] then []
    else
      var ids := Ids(target, layers[|layers| - 1]);
      JobsOf(target, layers[..|layers| - 1]) + if ids == [] then [] else [Job(target, ids)]
  }

  function Reversed(tree: KeyTree): (r: KeyTree)
    ensures |r| == |tree| && forall d | 0 <= d < |tree| :: r[d] == tree[|tree| - 1 - d]
  {
    if tree == [] then [] else [tree[|tree| - 1]] + Reversed(tree[..|tree| - 1])
  }

  /** The tree's rows are the stored ones, no row twice. */
  ghost predicate Snapshot(t: Tables, tree: KeyTree) {
    && (forall d, e | 0 <= d < |tree| && 0 <= e < |tree[d]| ::
          tree[d][e].id in t.keys && t.keys[tree[d][e].id] == tree[d][e])
    && (forall d, e, d2, e2 | 0 <= d < |tree| && 0 <= e < |tree[d]| && 0 <= d2 < |tree| && 0 <= e2 < |tree[d2]|
                              && tree[d][e].id == tree[d2][e2].id :: d == d2 && e == e2)
  }

  /** A key of the tree that needs work. */
  ghost predicate InWork(target: LifeCycle, tree: KeyTree, i: Uuid) {
    exists d, e :: 0 <= d < |tree| && 0 <= e < |tree[d]| && tree[d][e].id == i && Eligible(target, tree[d][e])
  }

  /** The tables after the action: the rows of the work at (target, pending), every other row as it was. */
  ghost function Moved(t: Tables, target: LifeCycle, tree: KeyTree): (r: Tables) {
    t.(keys := map i | i in t.keys ::
                 if InWork(target, tree, i) then t.keys[i].(life := target, status := Pending) else t.keys[i])
  }

  // ------------------------------------------------------------------ what the jobs hold

  lemma {:induction false} IdsExact(target: LifeCycle, layer: seq<Key>, kid: KeyIdentifier)
    ensures kid in Ids(target, layer) <==>
            exists e :: 0 <= e < |layer| && Identify(layer[e]) == kid && Eligible(target, layer[e])
  {
    if layer != [] {
      var n := |layer| - 1;
      IdsExact(target, layer[..n], kid);
      assert forall e | 0 <= e < n :: layer[..n][e] == layer[e];
      if kid in Ids(target, layer) && kid !in Ids(target, layer[..n]) {
        assert Identify(layer[n]) == kid;
      }
    }
  }

  lemma {:induction false} IdsDistinct(target: LifeCycle, layer: seq<Key>)
    requires forall e, g | 0 <= e < g < |layer| :: layer[e].id != layer[g].id
    ensures forall a, b | 0 <= a < b < |Ids(target, layer)| :: Ids(target, layer)[a] != Ids(target, layer)[b]
  {
    if layer != [] {
      var n := |layer| - 1;
      IdsDistinct(target, layer[..n]);
      IdsExact(target, layer[..n], Identify(layer[n]));
    }
  }

  /** The layer a job was cut from. */
  function LayerOfJob(target: LifeCycle, layers: KeyTree, a: nat): (l: nat)
    requires a < |JobsOf(target, layers)|
    ensures l < |layers| && JobsOf(target, layers)[a] == Job(target, Ids(target, layers[l]))
  {
    var n := |layers| - 1;
    if a < |JobsOf(target, layers[..n])| then LayerOfJob(target, layers[..n], a) else n
  }

  lemma {:induction false} JobsKeepOrder(target: LifeCycle, layers: KeyTree, a: nat, b: nat)
    requires a < b < |JobsOf(target, layers)|
    ensures LayerOfJob(target, layers, a) < LayerOfJob(target, layers, b)
  {
    var n := |layers| - 1;
    if b < |JobsOf(target, layers[..n])| {
      JobsKeepOrder(target, layers[..n], a, b);
    }
  }

  lemma EarlierLayerEarlierJob(target: LifeCycle, layers: KeyTree, a: nat, b: nat)
    requires a < |JobsOf(target, layers)| && b < |JobsOf(target, layers)|
    requires LayerOfJob(target, layers, a) < LayerOfJob(target, layers, b)
    ensures a < b
  {
    if b < a { JobsKeepOrder(target, layers, b, a); }
  }

  /** Every layer with work has its job. */
  lemma {:induction false} JobForLayer(target: LifeCycle, layers: KeyTree, l: nat) returns (a: nat)
    requires l < |layers| && Ids(target, layers[l]) != []
    ensures a < |JobsOf(target, layers)| && LayerOfJob(target, layers, a) == l
  {
    var n := |layers| - 1;
    if l < n {
      a := JobForLayer(target, layers[..n], l);
    } else {
      a := |JobsOf(target, layers)| - 1;
    }
  }

  /** The task of a key: the job and the place in it. */
  ghost predicate TaskAt(jobs: seq<Job>, a: nat, b: nat, kid: KeyIdentifier) {
    a < |jobs| && b < |jobs[a].ids| && jobs[a].ids[b] == kid
  }

  lemma TaskInLayer(t: Tables, target: LifeCycle, layers: KeyTree, a: nat, b: nat, kid: KeyIdentifier)
    returns (d: nat, e: nat)
    requires Snapshot(t, layers) && TaskAt(JobsOf(target, layers), a, b, kid)
    ensures d < |layers| && e < |layers[d]| && Identify(layers[d][e]) == kid && Eligible(target, layers[d][e])
    ensures LayerOfJob(target, layers, a) == d
  {
    d := LayerOfJob(target, layers, a);
    IdsExact(target, layers[d], kid);
    e :| 0 <= e < |layers[d]| && Identify(layers[d][e]) == kid && Eligible(target, layers[d][e]);
  }

  /** Work is conserved: the tasks are exactly the keys of the tree that need work. */
  lemma TasksAreTheWork(t: Tables, target: LifeCycle, layers: KeyTree, kid: KeyIdentifier)
    requires Snapshot(t, layers)
    ensures (exists a: nat, b: nat :: TaskAt(JobsOf(target, layers), a, b, kid)) <==>
            (kid.id in t.keys && t.keys[kid.id].tenant == kid.tenant && InWork(target, layers, kid.id))
  {
    if a: nat, b: nat :| TaskAt(JobsOf(target, layers), a, b, kid) {
      var d, e := TaskInLayer(t, target, layers, a, b, kid);
    }
    if kid.id in t.keys && t.keys[kid.id].tenant == kid.tenant && InWork(target, layers, kid.id) {
      var d, e :| 0 <= d < |layers| && 0 <= e < |layers[d]| && layers[d][e].id == kid.id && Eligible(target, layers[d][e]);
      IdsExact(target, layers[d], kid);
      var a := JobForLayer(target, layers, d);
      var b :| 0 <= b < |JobsOf(target, layers)[a].ids| && JobsOf(target, layers)[a].ids[b] == kid;
      assert TaskAt(JobsOf(target, layers), a, b, kid);
    }
  }

  /** ... and each of them once. */
  lemma TasksUnique(t: Tables, target: LifeCycle, layers: KeyTree, a: nat, b: nat, a2: nat, b2: nat, kid: KeyIdentifier)
    requires Snapshot(t, layers)
    requires TaskAt(JobsOf(target, layers), a, b, kid) && TaskAt(JobsOf(target, layers), a2, b2, kid)
    ensures a == a2 && b == b2
  {
    var d, e := TaskInLayer(t, target, layers, a, b, kid);
    var d2, e2 := TaskInLayer(t, target, layers, a2, b2, kid);
    assert d == d2;
    if a < a2 { JobsKeepOrder(target, layers, a, a2); }
    if a2 < a { JobsKeepOrder(target, layers, a2, a); }
    IdsDistinct(target, layers[d]);
  }

  // ------------------------------------------------------------------ the action itself

  datatype ActionRequest = ActionRequest(
    tenant: Uuid, keyId: Uuid, filters: seq<KeyFilter>, cascading: bool, bottomUp: bool, target: LifeCycle)

  /** A single key is matched against filters that name a state. */
  predicate PassesAlone(fs: seq<KeyFilter>, k: Key) {
    exists f | f in fs :: f.life == Some(k.life) && (f.statuses == {} || k.status in f.statuses)
  }

  ghost predicate Selected(t: Tables, req: ActionRequest) {
    if req.cascading then Layer(t, req.filters, req.keyId, req.tenant, 0) != {}
    else GetsAlone(t, req)
  }

  predicate GetsAlone(t: Tables, req: ActionRequest) {
    var k := Store.GetKey(t, req.keyId, req.tenant);
    k.Some? && PassesAlone(req.filters, k.value)
  }

  /** The tree an action works on. */
  ghost predicate Fetched(t: Tables, req: ActionRequest, tree: KeyTree) {
    && Selected(t, req)
    && if req.cascading then IsTree(t, req.filters, req.keyId, req.tenant, tree)
       else tree == [[t.keys[req.keyId]]]
  }

  /** Some filter constrains, and whatever a filter without a state admits, some filter that names the
      state admits too. */
  ghost predicate Aligned(fs: seq<KeyFilter>) {
    && (exists f | f in fs :: Constrains(f))
    && (forall f, life, st | f in fs && f.life.None? && st in f.statuses :: Named(fs, life, st))
  }

  predicate Named(fs: seq<KeyFilter>, life: LifeCycle, st: Status) {
    exists g | g in fs :: g.life == Some(life) && (g.statuses == {} || st in g.statuses)
  }

  ghost predicate FetchesAgree(fs: seq<KeyFilter>) {
    forall k: Key :: Passes(fs, k) <==> PassesAlone(fs, k)
  }

  function KeyIn(life: LifeCycle, st: Status): (k: Key) {
    Key(0, "", 0, "", None, "", map[], life, st, 0)
  }

  /** A single action and a cascade judge every key alike if and only if the filters are aligned. */
  lemma FetchesAgreeIff(fs: seq<KeyFilter>)
    ensures FetchesAgree(fs) <==> Aligned(fs)
  {
    if Aligned(fs) {
      forall k: Key ensures Passes(fs, k) <==> PassesAlone(fs, k) { AlignedAgree(fs, k); }
    } else if forall f | f in fs :: !Constrains(f) {
      var k := KeyIn(Active, Completed);
      assert Passes(fs, k) && !PassesAlone(fs, k);
    } else {
      var f, life, st :| f in fs && f.life.None? && st in f.statuses && !Named(fs, life, st);
      var k := KeyIn(life, st);
      assert Constrains(f) && Satisfies(f, k);
      assert Passes(fs, k) && !PassesAlone(fs, k);
    }
  }

  lemma AlignedAgree(fs: seq<KeyFilter>, k: Key)
    requires Aligned(fs)
    ensures Passes(fs, k) <==> PassesAlone(fs, k)
  {
    if Passes(fs, k) {
      var f :| f in fs && Constrains(f) && Satisfies(f, k);
      if f.life.None? { assert Named(fs, k.life, k.status); }
    }
    if PassesAlone(fs, k) {
      var g :| g in fs && g.life == Some(k.life) && (g.statuses == {} || k.status in g.statuses);
      assert Constrains(g) && Satisfies(g, k);
    }
  }

  /** Then both ways of fetching select the addressed key alike; otherwise some key, put in its place,
      is selected by the cascade alone. */
  lemma SingleVersusCascade(t: Tables, req: ActionRequest)
    ensures Aligned(req.filters) ==> (Selected(t, req.(cascading := true)) <==> Selected(t, req.(cascading := false)))
    ensures !Aligned(req.filters) ==>
              exists k: Key :: k.tenant == req.tenant && Passes(req.filters, k) && !PassesAlone(req.filters, k)
  {
    if Aligned(req.filters) {
      if req.keyId in t.keys { AlignedAgree(req.filters, t.keys[req.keyId]); }
    } else {
      FetchesAgreeIff(req.filters);
      var k: Key :| Passes(req.filters, k) != PassesAlone(req.filters, k);
      var k2 := k.(tenant := req.tenant);
      assert Passes(req.filters, k2) == Passes(req.filters, k) && PassesAlone(req.filters, k2) == PassesAlone(req.filters, k);
      if PassesAlone(req.filters, k2) { AloneIsNarrower(req.filters, k2); }
    }
  }

  lemma AloneIsNarrower(fs: seq<KeyFilter>, k: Key)
    requires PassesAlone(fs, k)
    ensures Passes(fs, k)
  {
    var g :| g in fs && g.life == Some(k.life) && (g.statuses == {} || k.status in g.statuses);
    assert Constrains(g) && Satisfies(g, k);
  }

  method FetchKeyTree(specs: seq<KeySpec>, t: Tables, req: ActionRequest) returns (r: Option<KeyTree>)
    requires WellFormed(specs, t)
    ensures r.None? <==> !Selected(t, req)
    ensures r.Some? ==> Fetched(t, req, r.value)
  {
    if req.cascading {
      r := GetDescendantKeys(specs, t, req.keyId, req.tenant, req.filters);
    } else {
      var k := Store.GetKey(t, req.keyId, req.tenant);
      if k.None? { return None; }
      for i := 0 to |req.filters|
        invariant forall j | 0 <= j < i ::
                    !(req.filters[j].life == Some(k.value.life)
                      && (req.filters[j].statuses == {} || k.value.status in req.filters[j].statuses))
      {
        var f := req.filters[i];
        if f.life == Some(k.value.life) && (f.statuses == {} || k.value.status in f.statuses) {
          assert f in req.filters;
          return Some([[k.value]]);
        }
      }
      return None;
    }
  }

  /** Every fetched tree lists stored rows, none twice. */
  lemma FetchedIsSnapshot(specs: seq<KeySpec>, t: Tables, req: ActionRequest, tree: KeyTree)
    requires WellFormed(specs, t) && Fetched(t, req, tree)
    ensures Snapshot(t, tree)
  {
    if req.cascading {
      forall d, e, d2, e2 | 0 <= d < |tree| && 0 <= e < |tree[d]| && 0 <= d2 < |tree| && 0 <= e2 < |tree[d2]|
                            && tree[d][e].id == tree[d2][e2].id
        ensures d == d2 && e == e2
      {
        assert Lists(t, Layer(t, req.filters, req.keyId, req.tenant, d), tree[d]);
        assert Lists(t, Layer(t, req.filters, req.keyId, req.tenant, d2), tree[d2]);
        LayersDisjoint(specs, t, req.filters, req.keyId, req.tenant, d, d2, tree[d][e].id);
      }
      forall d, e | 0 <= d < |tree| && 0 <= e < |tree[d]|
        ensures tree[d][e].id in t.keys && t.keys[tree[d][e].id] == tree[d][e]
      {
        assert Lists(t, Layer(t, req.filters, req.keyId, req.tenant, d), tree[d]);
      }
    }
  }

  /** The rows an action moves pass its filters. */
  lemma WorkPasses(t: Tables, req: ActionRequest, tree: KeyTree, i: Uuid)
    requires i in t.keys && Fetched(t, req, tree) && InWork(req.target, tree, i) && Store.KeysById(t)
    ensures Passes(req.filters, t.keys[i]) || PassesAlone(req.filters, t.keys[i])
  {
    var d, e :| 0 <= d < |tree| && 0 <= e < |tree[d]| && tree[d][e].id == i && Eligible(req.target, tree[d][e]);
    if req.cascading { assert Lists(t, Layer(t, req.filters, req.keyId, req.tenant, d), tree[d]); }
  }

  lemma WorkOfReversed(target: LifeCycle, tree: KeyTree)
    ensures forall i :: InWork(target, Reversed(tree), i) <==> InWork(target, tree, i)
  {
    var r, n := Reversed(tree), |tree| - 1;
    forall i ensures InWork(target, r, i) <==> InWork(target, tree, i) {
      if InWork(target, r, i) {
        var d, e :| 0 <= d < |r| && 0 <= e < |r[d]| && r[d][e].id == i && Eligible(target, r[d][e]);
        assert tree[n - d][e] == r[d][e];
      }
      if InWork(target, tree, i) {
        var d, e :| 0 <= d < |tree| && 0 <= e < |tree[d]| && tree[d][e].id == i && Eligible(target, tree[d][e]);
        assert r[n - d][e] == tree[d][e];
      }
    }
  }

  lemma ReversedSnapshot(t: Tables, target: LifeCycle, tree: KeyTree)
    requires Snapshot(t, tree)
    ensures Snapshot(t, Reversed(tree))
    ensures Moved(t, target, Reversed(tree)) == Moved(t, target, tree)
  {
    var r: KeyTree, n := Reversed(tree), |tree| - 1;
    forall d, e | 0 <= d < |r| && 0 <= e < |r[d]|
      ensures r[d][e].id in t.keys && t.keys[r[d][e].id] == r[d][e]
    {
      assert r[d] == tree[n - d];
    }
    forall d, e, d2, e2 | 0 <= d < |r| && 0 <= e < |r[d]| && 0 <= d2 < |r| && 0 <= e2 < |r[d2]|
                          && r[d][e].id == r[d2][e2].id
      ensures d == d2 && e == e2
    {
      assert r[d] == tree[n - d] && r[d2] == tree[n - d2];
    }
    WorkOfReversed(target, tree);
  }

  /** The part of a tree processed when the first l layers and e keys of the next are done. */
  function Done(layers: KeyTree, l: nat, e: nat): (r: KeyTree)
    requires l < |layers| && e <= |layers[l]|
  {
    layers[..l] + [layers[l][..e]]
  }

  lemma WorkGrows(t: Tables, target: LifeCycle, layers: KeyTree, l: nat, e: nat, i: Uuid)
    requires Snapshot(t, layers) && l < |layers| && e < |layers[l]|
    ensures InWork(target, Done(layers, l, e + 1), i) <==>
            InWork(target, Done(layers, l, e), i) || (i == layers[l][e].id && Eligible(target, layers[l][e]))
    ensures !InWork(target, Done(layers, l, e), layers[l][e].id)
  {
    var p, q := Done(layers, l, e), Done(layers, l, e + 1);
    assert forall d | 0 <= d < l :: p[d] == q[d] == layers[d];
    assert forall g | 0 <= g < e :: p[l][g] == q[l][g] == layers[l][g];
    assert q[l][e] == layers[l][e];
    if InWork(target, p, i) {
      var d, g :| 0 <= d < |p| && 0 <= g < |p[d]| && p[d][g].id == i && Eligible(target, p[d][g]);
      assert q[d][g] == p[d][g];
    }
  }

  lemma MovedStep(t: Tables, target: LifeCycle, layers: KeyTree, l: nat, e: nat)
    requires Snapshot(t, layers) && l < |layers| && e < |layers[l]|
    ensures var k, before := layers[l][e], Moved(t, target, Done(layers, l, e));
            && k.id in before.keys && before.keys[k.id] == k
            && Moved(t, target, Done(layers, l, e + 1))
               == if Eligible(target, k) then Store.SetStates(before, k.id, target, Pending) else before
  {
    forall i ensures InWork(target, Done(layers, l, e + 1), i) <==>
                     InWork(target, Done(layers, l, e), i) || (i == layers[l][e].id && Eligible(target, layers[l][e]))
    {
      WorkGrows(t, target, layers, l, e, i);
    }
    WorkGrows(t, target, layers, l, e, layers[l][e].id);
  }

  lemma SameWork(t: Tables, target: LifeCycle, a: KeyTree, b: KeyTree)
    requires b == a + [[]]
    ensures Moved(t, target, a) == Moved(t, target, b)
  {
    forall i ensures InWork(target, a, i) <==> InWork(target, b, i) {
      if InWork(target, a, i) {
        var d, e :| 0 <= d < |a| && 0 <= e < |a[d]| && a[d][e].id == i && Eligible(target, a[d][e]);
        assert b[d][e] == a[d][e];
      }
    }
  }

  /** Process one layer: move its keys and collect their identifiers. */
  method MoveLayer(tx: Tx, target: LifeCycle, layers: KeyTree, l: nat, broken: set<Uuid>, ghost t0: Tables)
    returns (r: Option<seq<KeyIdentifier>>)
    requires l < |layers| && Snapshot(t0, layers) && tx.tables == Moved(t0, target, layers[..l])
    modifies tx
    ensures r.Some? ==> r.value == Ids(target, layers[l]) && tx.tables == Moved(t0, target, layers[..l + 1])
    ensures r.None? ==> exists i :: i in broken && InWork(target, layers, i)
  {
    var ids: seq<KeyIdentifier> := [];
    var layer := layers[l];
    SameWork(t0, target, layers[..l], Done(layers, l, 0));
    var e := 0;
    while e < |layer|
      invariant 0 <= e <= |layer|
      invariant ids == Ids(target, layer[..e])
      invariant tx.tables == Moved(t0, target, Done(layers, l, e))
    {
      var key := layer[e];
      MovedStep(t0, target, layers, l, e);
      assert layer[..e + 1][..e] == layer[..e];
      if Eligible(target, key) {
        if key.id in broken {
          assert InWork(target, layers, key.id);
          return None;
        }
        var matched := tx.UpdateKeyStates(key.id, key.tenant, {key.life}, {key.status}, target, Pending);
        ids := ids + [Identify(key)];
      }
      e := e + 1;
    }
    assert layer[..e] == layer;
    assert Done(layers, l, e) == layers[..l + 1];
    return Some(ids);
  }

  method MoveTree(tx: Tx, target: LifeCycle, layers: KeyTree, broken: set<Uuid>) returns (r: Option<seq<Job>>)
    requires Snapshot(tx.tables, layers)
    modifies tx
    ensures r.Some? ==> r.value == JobsOf(target, layers) && tx.tables == Moved(old(tx.tables), target, layers)
    ensures r.None? ==> exists i :: i in broken && InWork(target, layers, i)
  {
    ghost var t0 := tx.tables;
    var jobs: seq<Job> := [];
    var l := 0;
    assert Moved(t0, target, layers[..0]).keys == t0.keys;
    while l < |layers|
      invariant 0 <= l <= |layers|
      invariant jobs == JobsOf(target, layers[..l])
      invariant tx.tables == Moved(t0, target, layers[..l])
    {
      var ids := MoveLayer(tx, target, layers, l, broken, t0);
      if ids.None? { return None; }
      assert layers[..l + 1][..l] == layers[..l];
      if ids.value != [] {
        jobs := jobs + [Job(target, ids.value)];
      }
      l := l + 1;
    }
    assert layers[..l] == layers;
    return Some(jobs);
  }

  /** Move the whole tree and cut it into jobs. A key whose update statement fails aborts the action,
      and with it the enclosing transaction. */
  method ApplyKeyAction(specs: seq<KeySpec>, tx: Tx, req: ActionRequest, broken: set<Uuid>)
    returns (r: ActionResult, ghost tree: KeyTree)
    requires WellFormed(specs, tx.tables)
    modifies tx
    ensures r == Refused(NoKeysFound) <==> !Selected(old(tx.tables), req)
    ensures Selected(old(tx.tables), req) ==>
              Fetched(old(tx.tables), req, tree) && Snapshot(old(tx.tables), tree)
    ensures r.Jobs? ==>
              && tx.tables == Moved(old(tx.tables), req.target, tree)
              && r.jobs == JobsOf(req.target, Order(req, tree))
              && r.jobs != []
    ensures r == Refused(NoEligibleKeys) ==>
              tx.tables == old(tx.tables) && forall i :: !InWork(req.target, tree, i)
    ensures r == Refused(StoreError) ==> exists i :: i in broken && InWork(req.target, tree, i)
  {
    var kt := FetchKeyTree(specs, tx.tables, req);
    tree := [];
    if kt.None? { return Refused(NoKeysFound), tree; }
    tree := kt.value;
    FetchedIsSnapshot(specs, tx.tables, req, tree);
    ReversedSnapshot(tx.tables, req.target, tree);
    WorkOfReversed(req.target, tree);
    var layers := Order(req, kt.value);
    var jobs := MoveTree(tx, req.target, layers, broken);
    if jobs.None? { return Refused(StoreError), tree; }
    if jobs.value == [] {
      NoJobsNoWork(req.target, layers);
      assert tx.tables.keys == old(tx.tables).keys;
      return Refused(NoEligibleKeys), tree;
    }
    return Jobs(jobs.value), tree;
  }

  lemma NoJobsNoWork(target: LifeCycle, layers: KeyTree)
    requires JobsOf(target, layers) == []
    ensures forall i :: !InWork(target, layers, i)
  {
    forall i ensures !InWork(target, layers, i) {
      if InWork(target, layers, i) {
        var d, e :| 0 <= d < |layers| && 0 <= e < |layers[d]| && layers[d][e].id == i && Eligible(target, layers[d][e]);
        IdsExact(target, layers[d], Identify(layers[d][e]));
        var a := JobForLayer(target, layers, d);
      }
    }
  }

  /** Where in the tree the key of a task stands. */
  lemma TaskInTree(t: Tables, req: ActionRequest, tree: KeyTree, a: nat, b: nat, i: Uuid) returns (d: nat, e: nat)
    requires Snapshot(t, tree) && i in t.keys
    requires TaskAt(JobsOf(req.target, Order(req, tree)), a, b, Identify(t.keys[i]))
    ensures d < |tree| && e < |tree[d]| && tree[d][e].id == t.keys[i].id
    ensures LayerOfJob(req.target, Order(req, tree), a) == if req.bottomUp then |tree| - 1 - d else d
  {
    ReversedSnapshot(t, req.target, tree);
    d, e := TaskInLayer(t, req.target, Order(req, tree), a, b, Identify(t.keys[i]));
    if req.bottomUp { d := |tree| - 1 - d; }
  }

  function Order(req: ActionRequest, tree: KeyTree): (r: KeyTree) {
    if req.bottomUp then Reversed(tree) else tree
  }

  /** Order: top-down puts a parent's job before its child's, bottom-up after it. */
  lemma ParentsOrdered(specs: seq<KeySpec>, t: Tables, req: ActionRequest, tree: KeyTree,
                       child: Uuid, a: nat, b: nat, a2: nat, b2: nat)
    requires WellFormed(specs, t) && Fetched(t, req, tree) && req.cascading
    requires child in t.keys && t.keys[child].parent.Some? && t.keys[child].parent.value in t.keys
    requires TaskAt(JobsOf(req.target, Order(req, tree)), a, b, Identify(t.keys[t.keys[child].parent.value]))
    requires TaskAt(JobsOf(req.target, Order(req, tree)), a2, b2, Identify(t.keys[child]))
    ensures if req.bottomUp then a2 < a else a < a2
  {
    FetchedIsSnapshot(specs, t, req, tree);
    var p, e := TaskInTree(t, req, tree, a, b, t.keys[child].parent.value);
    var c, e2 := TaskInTree(t, req, tree, a2, b2, child);
    ChildOneBelow(specs, t, req, tree, child, p, e, c, e2);
    if req.bottomUp {
      EarlierLayerEarlierJob(req.target, Order(req, tree), a2, a);
    } else {
      EarlierLayerEarlierJob(req.target, Order(req, tree), a, a2);
    }
  }

  lemma ChildOneBelow(specs: seq<KeySpec>, t: Tables, req: ActionRequest, tree: KeyTree,
                      child: Uuid, p: nat, e: nat, c: nat, e2: nat)
    requires WellFormed(specs, t) && Fetched(t, req, tree) && req.cascading
    requires child in t.keys && t.keys[child].parent.Some? && t.keys[child].parent.value in t.keys
    requires p < |tree| && e < |tree[p]| && tree[p][e].id == t.keys[t.keys[child].parent.value].id
    requires c < |tree| && e2 < |tree[c]| && tree[c][e2].id == t.keys[child].id
    ensures c == p + 1
  {
    var parent := t.keys[child].parent.value;
    assert Placed(specs, t, child);
    assert Lists(t, Layer(t, req.filters, req.keyId, req.tenant, p), tree[p]);
    assert Lists(t, Layer(t, req.filters, req.keyId, req.tenant, c), tree[c]);
    LayerRank(specs, t, req.filters, req.keyId, req.tenant, p, parent);
    LayerRank(specs, t, req.filters, req.keyId, req.tenant, c, child);
  }

  // ------------------------------------------------------------------ fan-out

  /** One task per identifier, in order; a job without identifiers is cancelled. */
  method ResolveTasks(job: Job) returns (tasks: Option<seq<KeyIdentifier>>)
    ensures tasks.None? <==> job.ids == []
    ensures tasks.Some? ==> tasks.value == job.ids
  {
    if job.ids == [] { return None; }
    var infos: seq<KeyIdentifier> := [];
    for i := 0 to |job.ids|
      invariant infos == job.ids[..i]
    {
      infos := infos + [job.ids[i]];
    }
    return Some(infos);
  }
}
