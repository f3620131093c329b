/** The key forest: parents up, filtered descendants down. */
module Forest {
  import opened Model
  import opened Store
  import opened Hierarchy

  // ------------------------------------------------------------------ well-formedness

  /** A key's place: the root kind has no parent, every other kind a parent one position above it,
      of the same tenant. */
  ghost predicate Placed(specs: seq<KeySpec>, t: Tables, i: Uuid)
    requires i in t.keys
  {
    var k := t.keys[i];
    && IndexOf(specs, k.kind) >= 0
    && match k.parent
       case None => IndexOf(specs, k.kind) == 0
       case Some(p) =>
         && IndexOf(specs, k.kind) > 0 && p in t.keys && t.keys[p].tenant == k.tenant
         && IndexOf(specs, t.keys[p].kind) == IndexOf(specs, k.kind) - 1
  }

  ghost predicate WellFormed(specs: seq<KeySpec>, t: Tables) {
    && KeysById(t)
    && (forall i {:trigger Placed(specs, t, i)} | i in t.keys :: Placed(specs, t, i))
  }

  function Rank(specs: seq<KeySpec>, t: Tables, i: Uuid): (r: int)
    requires i in t.keys
  {
    IndexOf(specs, t.keys[i].kind)
  }

  // ------------------------------------------------------------------ ancestors

  /** The key and all its ancestors, root first. */
  ghost function Ancestors(specs: seq<KeySpec>, t: Tables, i: Uuid): (r: seq<Key>)
    requires WellFormed(specs, t) && i in t.keys
    decreases Rank(specs, t, i)
  {
    assert Placed(specs, t, i);
    match t.keys[i].parent
    case None => [t.keys[i]]
    case Some(p) => Ancestors(specs, t, p) + [t.keys[i]]
  }

  /** The chain has one key per position, from the root kind down to the key itself, each the parent
      of the next. */
  lemma {:induction false} AncestorsAreAChain(specs: seq<KeySpec>, t: Tables, i: Uuid)
    requires WellFormed(specs, t) && i in t.keys
    ensures var a := Ancestors(specs, t, i);
            && |a| == Rank(specs, t, i) + 1
            && a[|a| - 1] == t.keys[i]
            && a[0].parent == None
            && (forall d | 0 <= d < |a| :: IndexOf(specs, a[d].kind) == d && a[d].tenant == t.keys[i].tenant)
            && (forall d | 0 <= d < |a| :: a[d].id in t.keys && t.keys[a[d].id] == a[d])
            && (forall d | 1 <= d < |a| :: a[d].parent == Some(a[d - 1].id))
    decreases Rank(specs, t, i)
  {
    assert Placed(specs, t, i);
    match t.keys[i].parent {
      case None =>
      case Some(p) => AncestorsAreAChain(specs, t, p);
    }
  }

  /** No key occurs twice among its ancestors. */
  lemma AncestorsDistinct(specs: seq<KeySpec>, t: Tables, i: Uuid, d: nat, e: nat)
    requires WellFormed(specs, t) && i in t.keys
    requires d < e < |Ancestors(specs, t, i)|
    ensures Ancestors(specs, t, i)[d].id != Ancestors(specs, t, i)[e].id
  {
    AncestorsAreAChain(specs, t, i);
    var a := Ancestors(specs, t, i);
    assert IndexOf(specs, a[d].kind) == d && IndexOf(specs, a[e].kind) == e;
  }

  method GetParentKeys(specs: seq<KeySpec>, t: Tables, id: Uuid, tenant: Uuid) returns (r: Option<seq<Key>>)
    requires WellFormed(specs, t)
    ensures r.None? <==> GetKey(t, id, tenant).None?
    ensures r.Some? ==> r.value == Ancestors(specs, t, id)
  {
    if id !in t.keys || t.keys[id].tenant != tenant { return None; }
    var chain, i, more := [t.keys[id]], id, t.keys[id].parent.Some?;
    assert Placed(specs, t, id);
    while more
      invariant i in t.keys && Placed(specs, t, i)
      invariant more <==> t.keys[i].parent.Some?
      invariant chain != [] && chain[0] == t.keys[i]
      invariant Ancestors(specs, t, id) == Ancestors(specs, t, i) + chain[1..]
      decreases Rank(specs, t, i), more
    {
      ghost var old_i := i;
      i := t.keys[i].parent.value;
      assert Placed(specs, t, i);
      assert Ancestors(specs, t, old_i) + chain[1..] == Ancestors(specs, t, i) + chain;
      chain := [t.keys[i]] + chain;
      more := t.keys[i].parent.Some?;
    }
    assert Ancestors(specs, t, i) + chain[1..] == chain;
    return Some(chain);
  }

  // ------------------------------------------------------------------ descendants

  /** An unset state and an empty list leave a column unconstrained. */
  datatype KeyFilter = KeyFilter(life: Option<LifeCycle>, statuses: set<Status>)

  predicate Constrains(f: KeyFilter) {
    f.life.Some? || f.statuses != {}
  }

  predicate Satisfies(f: KeyFilter, k: Key) {
    (f.life.None? || k.life == f.life.value) && (f.statuses == {} || k.status in f.statuses)
  }

  /** Filters that constrain nothing are dropped; with none left every key passes. */
  predicate Passes(fs: seq<KeyFilter>, k: Key) {
    (forall f | f in fs :: !Constrains(f)) || exists f | f in fs :: Constrains(f) && Satisfies(f, k)
  }

  /** The keys d parent steps below the start whose whole path passes the filters. */
  function Layer(t: Tables, fs: seq<KeyFilter>, start: Uuid, tenant: Uuid, d: nat): (s: set<Uuid>)
    ensures forall i | i in s :: i in t.keys && t.keys[i].tenant == tenant && Passes(fs, t.keys[i])
  {
    if d == 0 then
      if start in t.keys && t.keys[start].tenant == tenant && Passes(fs, t.keys[start]) then {start} else {}
    else
      Children(t, fs, tenant, Layer(t, fs, start, tenant, d - 1))
  }

  /** The recursive branch of the query: rows joined to the rows found before. */
  function Children(t: Tables, fs: seq<KeyFilter>, tenant: Uuid, above: set<Uuid>): (s: set<Uuid>) {
    set i | i in t.keys && t.keys[i].tenant == tenant && Passes(fs, t.keys[i])
            && t.keys[i].parent.Some? && t.keys[i].parent.value in above
  }

  /** The kind position grows by one per layer, so a layer holds one kind only. */
  lemma {:induction false} LayerRank(specs: seq<KeySpec>, t: Tables, fs: seq<KeyFilter>, start: Uuid, tenant: Uuid, d: nat, i: Uuid)
    requires WellFormed(specs, t) && i in Layer(t, fs, start, tenant, d)
    ensures start in t.keys && Rank(specs, t, i) == Rank(specs, t, start) + d
    ensures Rank(specs, t, i) < |specs|
  {
    if d > 0 {
      assert Placed(specs, t, i);
      LayerRank(specs, t, fs, start, tenant, d - 1, t.keys[i].parent.value);
    }
  }

  /** A key is found at one depth only. */
  lemma LayersDisjoint(specs: seq<KeySpec>, t: Tables, fs: seq<KeyFilter>, start: Uuid, tenant: Uuid, d: nat, e: nat, i: Uuid)
    requires WellFormed(specs, t)
    requires i in Layer(t, fs, start, tenant, d) && i in Layer(t, fs, start, tenant, e)
    ensures d == e
  {
    LayerRank(specs, t, fs, start, tenant, d, i);
    LayerRank(specs, t, fs, start, tenant, e, i);
  }

  /** A path down from the start: each key the parent of the next, every key passing. */
  ghost predicate PassingPath(t: Tables, fs: seq<KeyFilter>, tenant: Uuid, p: seq<Uuid>) {
    && p != []
    && (forall e | 0 <= e < |p| :: p[e] in t.keys && t.keys[p[e]].tenant == tenant && Passes(fs, t.keys[p[e]]))
    && (forall e | 1 <= e < |p| :: t.keys[p[e]].parent == Some(p[e - 1]))
  }

  /** Layer d is exactly filtered reachability in d steps. */
  lemma {:induction false} LayerIsReachability(t: Tables, fs: seq<KeyFilter>, start: Uuid, tenant: Uuid, d: nat, i: Uuid)
    ensures i in Layer(t, fs, start, tenant, d) <==>
            exists p: seq<Uuid> :: PassingPath(t, fs, tenant, p) && |p| == d + 1 && p[0] == start && p[d] == i
  {
    if i in Layer(t, fs, start, tenant, d) {
      var p := PathTo(t, fs, start, tenant, d, i);
    }
    forall p: seq<Uuid> | PassingPath(t, fs, tenant, p) && |p| == d + 1 && p[0] == start && p[d] == i
      ensures i in Layer(t, fs, start, tenant, d)
    {
      PathInLayers(t, fs, tenant, p, d);
    }
  }

  lemma {:induction false} PathTo(t: Tables, fs: seq<KeyFilter>, start: Uuid, tenant: Uuid, d: nat, i: Uuid)
    returns (p: seq<Uuid>)
    requires i in Layer(t, fs, start, tenant, d)
    ensures PassingPath(t, fs, tenant, p) && |p| == d + 1 && p[0] == start && p[d] == i
  {
    if d == 0 {
      p := [i];
    } else {
      var q := PathTo(t, fs, start, tenant, d - 1, t.keys[i].parent.value);
      p := q + [i];
    }
  }

  lemma {:induction false} PathInLayers(t: Tables, fs: seq<KeyFilter>, tenant: Uuid, p: seq<Uuid>, d: nat)
    requires PassingPath(t, fs, tenant, p) && d < |p|
    ensures p[d] in Layer(t, fs, p[0], tenant, d)
  {
    if d > 0 { PathInLayers(t, fs, tenant, p, d - 1); }
  }

  // ------------------------------------------------------------------ the tree as returned

  type KeyTree = seq<seq<Key>>

  /** A layer listed once per key, oldest first, each entry the row as stored. */
  ghost predicate Lists(t: Tables, ids: set<Uuid>, layer: seq<Key>) {
    && (forall e | 0 <= e < |layer| :: layer[e].id in ids && layer[e].id in t.keys && layer[e] == t.keys[layer[e].id])
    && (forall i | i in ids :: exists e | 0 <= e < |layer| :: layer[e].id == i)
    && (forall e, g | 0 <= e < g < |layer| :: layer[e].id != layer[g].id && layer[e].createdAt <= layer[g].createdAt)
  }

  /** A tree: non-empty layers, all of them, in order. */
  ghost predicate IsTree(t: Tables, fs: seq<KeyFilter>, start: Uuid, tenant: Uuid, tree: KeyTree) {
    && (forall d | 0 <= d < |tree| :: Lists(t, Layer(t, fs, start, tenant, d), tree[d]) && tree[d] != [])
    && (forall d: nat | d >= |tree| :: Layer(t, fs, start, tenant, d) == {})
  }

  lemma ListsSnoc(t: Tables, ids: set<Uuid>, layer: seq<Key>, i: Uuid)
    requires Lists(t, ids, layer) && i in t.keys && t.keys[i].id == i && i !in ids
    requires forall e | 0 <= e < |layer| :: layer[e].createdAt <= t.keys[i].createdAt
    ensures Lists(t, ids + {i}, layer + [t.keys[i]])
  {
    var longer := layer + [t.keys[i]];
    forall x | x in ids + {i} ensures exists e | 0 <= e < |longer| :: longer[e].id == x {
      if x == i {
        assert longer[|layer|].id == i;
      } else {
        var e :| 0 <= e < |layer| && layer[e].id == x;
        assert longer[e].id == x;
      }
    }
  }

  /** `ORDER BY created_at` on one layer. */
  method ListLayer(t: Tables, ids: set<Uuid>) returns (layer: seq<Key>)
    requires forall i | i in ids :: i in t.keys && t.keys[i].id == i
    ensures Lists(t, ids, layer)
  {
    layer := [];
    var rest := ids;
    while rest != {}
      invariant rest <= ids
      invariant Lists(t, ids - rest, layer)
      invariant forall e, i | 0 <= e < |layer| && i in rest :: layer[e].createdAt <= t.keys[i].createdAt
      decreases |rest|
    {
      var i := Oldest(t, rest);
      ListsSnoc(t, ids - rest, layer, i);
      assert ids - (rest - {i}) == (ids - rest) + {i};
      layer := layer + [t.keys[i]];
      rest := rest - {i};
    }
    assert ids - rest == ids;
  }

  method Oldest(t: Tables, ids: set<Uuid>) returns (m: Uuid)
    requires ids != {} && forall i | i in ids :: i in t.keys
    ensures m in ids && forall i | i in ids :: t.keys[m].createdAt <= t.keys[i].createdAt
  {
    m :| m in ids;
    var rest := ids - {m};
    while rest != {}
      invariant m in ids && rest <= ids
      invariant forall i | i in ids && i !in rest :: t.keys[m].createdAt <= t.keys[i].createdAt
      decreases |rest|
    {
      var i :| i in rest;
      if t.keys[i].createdAt < t.keys[m].createdAt { m := i; }
      rest := rest - {i};
    }
  }

  lemma {:induction false} EmptyBelow(t: Tables, fs: seq<KeyFilter>, start: Uuid, tenant: Uuid, d: nat, e: nat)
    requires Layer(t, fs, start, tenant, d) == {} && d <= e
    ensures Layer(t, fs, start, tenant, e) == {}
  {
    if d < e { EmptyBelow(t, fs, start, tenant, d, e - 1); }
  }

  lemma DepthBounded(specs: seq<KeySpec>, t: Tables, fs: seq<KeyFilter>, start: Uuid, tenant: Uuid, d: nat)
    requires WellFormed(specs, t) && Layer(t, fs, start, tenant, d) != {}
    ensures d < |specs|
  {
    var i :| i in Layer(t, fs, start, tenant, d);
    LayerRank(specs, t, fs, start, tenant, d, i);
    assert Placed(specs, t, start);
  }

  ghost predicate ListsLayers(t: Tables, fs: seq<KeyFilter>, start: Uuid, tenant: Uuid, layers: KeyTree) {
    forall d | 0 <= d < |layers| :: Lists(t, Layer(t, fs, start, tenant, d), layers[d]) && layers[d] != []
  }

  lemma AllLayersListed(t: Tables, fs: seq<KeyFilter>, start: Uuid, tenant: Uuid, layers: KeyTree)
    requires ListsLayers(t, fs, start, tenant, layers) && Layer(t, fs, start, tenant, |layers|) == {}
    ensures IsTree(t, fs, start, tenant, layers)
  {
    forall d: nat | d >= |layers| ensures Layer(t, fs, start, tenant, d) == {} {
      EmptyBelow(t, fs, start, tenant, |layers|, d);
    }
  }

  /** The recursive query followed by the grouping of its rows: every non-empty layer, in order. The
      walk ends because a layer's kind position is bounded by the hierarchy. */
  method GetDescendantKeys(specs: seq<KeySpec>, t: Tables, start: Uuid, tenant: Uuid, fs: seq<KeyFilter>)
    returns (r: Option<KeyTree>)
    requires WellFormed(specs, t)
    ensures r.None? <==> Layer(t, fs, start, tenant, 0) == {}
    ensures r.Some? ==> IsTree(t, fs, start, tenant, r.value) && 0 < |r.value| <= |specs|
  {
    var frontier := Layer(t, fs, start, tenant, 0);
    if frontier == {} { return None; }
    var layers: KeyTree := [];
    while frontier != {}
      invariant frontier == Layer(t, fs, start, tenant, |layers|)
      invariant ListsLayers(t, fs, start, tenant, layers)
      invariant |layers| <= |specs|
      invariant frontier != {} || layers != []
      decreases |specs| - |layers|
    {
      DepthBounded(specs, t, fs, start, tenant, |layers|);
      var layer := ListLayer(t, frontier);
      frontier := Children(t, fs, tenant, frontier);
      layers := layers + [layer];
    }
    AllLayersListed(t, fs, start, tenant, layers);
    return Some(layers);
  }

  /** Taking the first key's kind for a whole layer is right: all its keys have that kind. */
  lemma LayerHasOneKind(specs: seq<KeySpec>, t: Tables, fs: seq<KeyFilter>, start: Uuid, tenant: Uuid, tree: KeyTree, d: nat, e: nat)
    requires WellFormed(specs, t) && DistinctKinds(specs)
    requires IsTree(t, fs, start, tenant, tree) && d < |tree| && e < |tree[d]|
    ensures tree[d][e].kind == tree[d][0].kind
    ensures IndexOf(specs, tree[d][0].kind) == IndexOf(specs, tree[0][0].kind) + d
  {
    LayerRank(specs, t, fs, start, tenant, d, tree[d][e].id);
    LayerRank(specs, t, fs, start, tenant, d, tree[d][0].id);
    LayerRank(specs, t, fs, start, tenant, 0, tree[0][0].id);
  }
}
