/** Listing keys page by page: a page ends at a row, and the next one starts after that row's place in
    the order, whatever has happened to the table in between. */
module Paging {
  import opened Model
  import opened Store
  import opened Like

  /** Empty strings and `None` leave a column unconstrained. */
  datatype ListQuery = ListQuery(
    tenant: Uuid, kind: Name, life: Option<LifeCycle>, name: string, managedBy: Name, labels: Labels, ascending: bool, limit: int)

  predicate Selects(q: ListQuery, fold: char -> char, k: Key) {
    && k.tenant == q.tenant
    && (q.kind == "" || k.kind == q.kind)
    && (q.life.None? || k.life == q.life.value)
    && (q.name == "" || ILike(fold, "%" + Escape(q.name) + "%", k.name))
    && (q.managedBy == "" || k.managedBy == q.managedBy)
    && forall l | l in q.labels :: l in k.labels && k.labels[l] == q.labels[l]
  }

  /** A row's place in the order: the content of a cursor. */
  datatype Mark = Mark(at: int, id: Uuid)

  function MarkOf(k: Key): (m: Mark) {
    Mark(k.createdAt, k.id)
  }

  predicate Less(a: Mark, b: Mark) {
    a.at < b.at || (a.at == b.at && a.id < b.id)
  }

  predicate Precedes(ascending: bool, a: Mark, b: Mark) {
    if ascending then Less(a, b) else Less(b, a)
  }

  predicate Beyond(ascending: bool, cursor: Option<Mark>, m: Mark) {
    cursor.None? || Precedes(ascending, cursor.value, m)
  }

  /** The rows the where clause leaves. */
  function Candidates(t: Tables, q: ListQuery, fold: char -> char, cursor: Option<Mark>): (s: set<Uuid>) {
    set i | i in t.keys && Selects(q, fold, t.keys[i]) && Beyond(q.ascending, cursor, MarkOf(t.keys[i]))
  }

  ghost predicate InOrder(ascending: bool, rows: seq<Key>) {
    forall d, e | 0 <= d < e < |rows| :: Precedes(ascending, MarkOf(rows[d]), MarkOf(rows[e]))
  }

  /** The first rows of the candidates in order, as many as the limit allows. */
  ghost predicate IsHead(t: Tables, ids: set<Uuid>, ascending: bool, rows: seq<Key>) {
    && InOrder(ascending, rows)
    && (forall e | 0 <= e < |rows| :: rows[e].id in ids && rows[e].id in t.keys && t.keys[rows[e].id] == rows[e])
    && (forall i | i in ids && i in t.keys && t.keys[i] !in rows ::
          forall e | 0 <= e < |rows| :: Precedes(ascending, MarkOf(rows[e]), MarkOf(t.keys[i])))
  }

  // ------------------------------------------------------------------ one page

  method First(t: Tables, ids: set<Uuid>, ascending: bool) returns (m: Uuid)
    requires ids != {} && KeysById(t) && forall i | i in ids :: i in t.keys
    ensures m in ids && forall i | i in ids && i != m :: Precedes(ascending, MarkOf(t.keys[m]), MarkOf(t.keys[i]))
  {
    m :| m in ids;
    var rest := ids - {m};
    while rest != {}
      invariant m in ids && rest <= ids && m !in rest
      invariant forall i | i in ids && i !in rest && i != m :: Precedes(ascending, MarkOf(t.keys[m]), MarkOf(t.keys[i]))
      decreases |rest|
    {
      var i :| i in rest;
      rest := rest - {i};
      if Precedes(ascending, MarkOf(t.keys[i]), MarkOf(t.keys[m])) { m := i; }
    }
  }

  /** Order and limit, as the database applies them. */
  method Head(t: Tables, ids: set<Uuid>, ascending: bool, limit: nat) returns (rows: seq<Key>)
    requires KeysById(t) && forall i | i in ids :: i in t.keys
    ensures IsHead(t, ids, ascending, rows) && |rows| <= limit
    ensures |rows| < limit ==> forall i | i in ids :: t.keys[i] in rows
  {
    rows := [];
    var rest := ids;
    while rest != {} && |rows| < limit
      invariant rest <= ids && |rows| <= limit && InOrder(ascending, rows)
      invariant forall e | 0 <= e < |rows| :: rows[e].id in ids && rows[e].id !in rest && t.keys[rows[e].id] == rows[e]
      invariant forall i | i in ids && i !in rest :: t.keys[i] in rows
      invariant forall i, e | i in rest && 0 <= e < |rows| :: Precedes(ascending, MarkOf(rows[e]), MarkOf(t.keys[i]))
      decreases |rest|
    {
      var m := First(t, rest, ascending);
      rest := rest - {m};
      rows := rows + [t.keys[m]];
    }
  }

  function PageSize(q: ListQuery): (n: nat)
    ensures n > 0
  {
    if q.limit <= 0 then 50 else q.limit
  }

  datatype Page = Page(keys: seq<Key>, next: Option<Mark>)

  /** A page: the first rows after the cursor, full if it names a next cursor, and complete if not. */
  ghost predicate IsPage(t: Tables, q: ListQuery, fold: char -> char, cursor: Option<Mark>, p: Page) {
    var ids := Candidates(t, q, fold, cursor);
    && IsHead(t, ids, q.ascending, p.keys)
    && match p.next
       case None => |p.keys| <= PageSize(q) && forall i | i in ids :: t.keys[i] in p.keys
       case Some(m) => |p.keys| == PageSize(q) && m == MarkOf(p.keys[|p.keys| - 1]) && exists i :: i in ids && t.keys[i] !in p.keys
  }

  /** The listing statement and what is made of its rows; no row at all is reported as not found. */
  method ListKeys(t: Tables, q: ListQuery, fold: char -> char, cursor: Option<Mark>) returns (r: Option<Page>)
    requires KeysById(t)
    ensures r.None? <==> Candidates(t, q, fold, cursor) == {}
    ensures IsPage(t, q, fold, cursor, if r.None? then Page([], None) else r.value)
    ensures r.Some? ==> r.value.keys != []
  {
    var pageSize := if q.limit <= 0 then 50 else q.limit;
    var ids := Candidates(t, q, fold, cursor);
    var keys := Head(t, ids, q.ascending, pageSize + 1);
    var next: Option<Mark> := None;
    if |keys| == pageSize + 1 {
      next := Some(MarkOf(keys[pageSize - 1]));
      ghost var extra := keys[pageSize];
      assert extra !in keys[..pageSize];
      keys := keys[..pageSize];
      assert t.keys[extra.id] !in keys;
    }
    if keys == [] { return None; }
    assert keys[0].id in ids;
    return Some(Page(keys, next));
  }

  // ------------------------------------------------------------------ following the cursors

  /** Where the page with a number starts: after the last row of the page before. */
  ghost function CursorAt(pages: seq<Page>, i: nat): (m: Option<Mark>)
    requires i <= |pages|
  {
    if i == 0 then None else pages[i - 1].next
  }

  /** Pages fetched one after the other, each from the table of its moment, until one names no next
      cursor or, its rows gone, nothing is found. */
  ghost predicate Walk(ts: seq<Tables>, q: ListQuery, fold: char -> char, pages: seq<Page>) {
    && |ts| == |pages| > 0
    && (forall i {:trigger Fetched(ts, q, fold, pages, i)} | 0 <= i < |pages| :: Fetched(ts, q, fold, pages, i))
  }

  ghost predicate Fetched(ts: seq<Tables>, q: ListQuery, fold: char -> char, pages: seq<Page>, i: nat)
    requires i < |pages| == |ts|
  {
    && KeysById(ts[i]) && IsPage(ts[i], q, fold, CursorAt(pages, i), pages[i])
    && (pages[i].next.None? <==> i == |pages| - 1)
  }

  /** Every row of a page lies beyond the cursor it started from, and not beyond the one it names. */
  lemma PageBounds(t: Tables, q: ListQuery, fold: char -> char, cursor: Option<Mark>, p: Page, e: nat)
    requires IsPage(t, q, fold, cursor, p) && e < |p.keys|
    ensures Beyond(q.ascending, cursor, MarkOf(p.keys[e]))
    ensures p.next.Some? ==> !Precedes(q.ascending, p.next.value, MarkOf(p.keys[e]))
  {
    if p.next.Some? && e < |p.keys| - 1 {
      assert Precedes(q.ascending, MarkOf(p.keys[e]), MarkOf(p.keys[|p.keys| - 1]));
    }
  }

  /** Cursors move on in the order. */
  lemma {:induction false} CursorsMoveOn(ts: seq<Tables>, q: ListQuery, fold: char -> char, pages: seq<Page>, i: nat, j: nat)
    requires Walk(ts, q, fold, pages) && i < j < |pages|
    ensures pages[i].next.Some? && pages[j - 1].next.Some?
    ensures pages[i].next == pages[j - 1].next || Precedes(q.ascending, pages[i].next.value, pages[j - 1].next.value)
    decreases j
  {
    assert Fetched(ts, q, fold, pages, i) && Fetched(ts, q, fold, pages, j - 1);
    if i < j - 1 {
      CursorsMoveOn(ts, q, fold, pages, i, j - 1);
      var p := pages[j - 1];
      PageBounds(ts[j - 1], q, fold, pages[j - 2].next, p, |p.keys| - 1);
    }
  }

  /** Whatever happens to the table meanwhile, the rows of all pages together come in strict order, so
      none comes twice. */
  lemma PagesInOrder(ts: seq<Tables>, q: ListQuery, fold: char -> char, pages: seq<Page>, i: nat, d: nat, j: nat, e: nat)
    requires Walk(ts, q, fold, pages) && i < |pages| && d < |pages[i].keys| && j < |pages| && e < |pages[j].keys|
    requires i < j || (i == j && d < e)
    ensures Precedes(q.ascending, MarkOf(pages[i].keys[d]), MarkOf(pages[j].keys[e]))
  {
    assert Fetched(ts, q, fold, pages, i) && Fetched(ts, q, fold, pages, j);
    if i < j {
      CursorsMoveOn(ts, q, fold, pages, i, j);
      PageBounds(ts[i], q, fold, CursorAt(pages, i), pages[i], d);
      PageBounds(ts[j], q, fold, CursorAt(pages, j), pages[j], e);
    }
  }

  /** A row that is in the table and selected whenever a page is fetched, wherever else it changes. */
  ghost predicate Throughout(ts: seq<Tables>, q: ListQuery, fold: char -> char, m: Mark) {
    forall i {:trigger ts[i]} | 0 <= i < |ts| ::
      m.id in ts[i].keys && MarkOf(ts[i].keys[m.id]) == m && Selects(q, fold, ts[i].keys[m.id])
  }

  predicate OnPage(p: Page, m: Mark, e: nat) {
    e < |p.keys| && MarkOf(p.keys[e]) == m
  }

  predicate FoundAt(pages: seq<Page>, m: Mark, i: nat, e: nat) {
    i < |pages| && OnPage(pages[i], m, e)
  }

  /** Up to any page, such a row has been seen or still lies ahead. */
  lemma {:induction false} SeenOrAhead(ts: seq<Tables>, q: ListQuery, fold: char -> char, pages: seq<Page>, m: Mark, i: nat)
    requires Walk(ts, q, fold, pages) && Throughout(ts, q, fold, m) && i < |pages|
    ensures (exists j: nat, e: nat :: j < i && FoundAt(pages, m, j, e)) || Beyond(q.ascending, CursorAt(pages, i), m)
  {
    if i > 0 {
      SeenOrAhead(ts, q, fold, pages, m, i - 1);
      assert Fetched(ts, q, fold, pages, i - 1);
      if Beyond(q.ascending, CursorAt(pages, i - 1), m) {
        SeenOnPageOrAhead(ts[i - 1], q, fold, CursorAt(pages, i - 1), pages[i - 1], m);
        var p := pages[i - 1];
        if e: nat :| OnPage(p, m, e) {
          assert FoundAt(pages, m, i - 1, e);
        }
      }
    }
  }

  lemma SeenOnPageOrAhead(t: Tables, q: ListQuery, fold: char -> char, cursor: Option<Mark>, p: Page, m: Mark)
    requires IsPage(t, q, fold, cursor, p) && Beyond(q.ascending, cursor, m)
    requires m.id in t.keys && MarkOf(t.keys[m.id]) == m && Selects(q, fold, t.keys[m.id])
    ensures (exists e: nat :: OnPage(p, m, e))
            || (p.next.Some? && Precedes(q.ascending, p.next.value, m))
  {
    assert m.id in Candidates(t, q, fold, cursor);
    if t.keys[m.id] in p.keys {
      var e :| 0 <= e < |p.keys| && p.keys[e] == t.keys[m.id];
      assert OnPage(p, m, e);
    }
  }

  /** Complete: every row that matched throughout is returned, exactly once, while other rows are
      inserted, changed or removed. */
  lemma EachRowOnce(ts: seq<Tables>, q: ListQuery, fold: char -> char, pages: seq<Page>, m: Mark)
    requires Walk(ts, q, fold, pages) && Throughout(ts, q, fold, m)
    ensures exists i: nat, e: nat :: FoundAt(pages, m, i, e)
    ensures forall i: nat, e: nat, j: nat, d: nat | FoundAt(pages, m, i, e) && FoundAt(pages, m, j, d) :: i == j && e == d
  {
    var last := |pages| - 1;
    SeenOrAhead(ts, q, fold, pages, m, last);
    assert Fetched(ts, q, fold, pages, last);
    if Beyond(q.ascending, CursorAt(pages, last), m) {
      SeenOnPageOrAhead(ts[last], q, fold, CursorAt(pages, last), pages[last], m);
      var e: nat :| OnPage(pages[last], m, e);
      assert FoundAt(pages, m, last, e);
    }
    forall i: nat, e: nat, j: nat, d: nat | FoundAt(pages, m, i, e) && FoundAt(pages, m, j, d) ensures i == j && e == d {
      if i < j || (i == j && e < d) {
        PagesInOrder(ts, q, fold, pages, i, e, j, d);
      } else if j < i || (i == j && d < e) {
        PagesInOrder(ts, q, fold, pages, j, d, i, e);
      }
    }
  }

  /** Every page but the last is full. */
  lemma FullPages(ts: seq<Tables>, q: ListQuery, fold: char -> char, pages: seq<Page>, i: nat)
    requires Walk(ts, q, fold, pages) && i < |pages| - 1
    ensures |pages[i].keys| == PageSize(q)
  {
    assert Fetched(ts, q, fold, pages, i);
  }

  /** Rows are only added, or change without moving or leaving the selection. */
  ghost predicate OnlyAdded(t: Tables, t2: Tables, q: ListQuery, fold: char -> char) {
    forall i | i in t.keys && Selects(q, fold, t.keys[i]) ::
      i in t2.keys && MarkOf(t2.keys[i]) == MarkOf(t.keys[i]) && Selects(q, fold, t2.keys[i])
  }

  /** Then a next cursor is never followed in vain. */
  lemma NextPageNotEmpty(t: Tables, t2: Tables, q: ListQuery, fold: char -> char, cursor: Option<Mark>, p: Page)
    requires IsPage(t, q, fold, cursor, p) && p.next.Some? && OnlyAdded(t, t2, q, fold)
    ensures Candidates(t2, q, fold, p.next) != {}
  {
    var i :| i in Candidates(t, q, fold, cursor) && t.keys[i] !in p.keys;
    assert Precedes(q.ascending, MarkOf(p.keys[|p.keys| - 1]), MarkOf(t.keys[i]));
    assert i in Candidates(t2, q, fold, p.next);
  }

  // ------------------------------------------------------------------ a table that stands still

  function Concat(pages: seq<Page>): (rows: seq<Key>) {
    if pages == [] then [] else Concat(pages[..|pages| - 1]) + pages[|pages| - 1].keys
  }

  /** The selected rows of one table, sorted. */
  ghost predicate IsListing(t: Tables, q: ListQuery, fold: char -> char, rows: seq<Key>) {
    && InOrder(q.ascending, rows)
    && forall k :: k in rows <==> k.id in t.keys && t.keys[k.id] == k && Selects(q, fold, k)
  }

  /** There is only one such list. */
  lemma {:induction false} ListingUnique(ascending: bool, a: seq<Key>, b: seq<Key>)
    requires InOrder(ascending, a) && InOrder(ascending, b) && forall k :: k in a <==> k in b
    ensures a == b
  {
    assert a != [] ==> a[0] in a;
    assert b != [] ==> b[0] in b;
    if a != [] && b != [] {
      var i :| 0 <= i < |a| && a[i] == b[0];
      var j :| 0 <= j < |b| && b[j] == a[0];
      assert i > 0 ==> Precedes(ascending, MarkOf(a[0]), MarkOf(a[i]));
      assert j > 0 ==> Precedes(ascending, MarkOf(b[0]), MarkOf(b[j]));
      assert a[0] == b[0];
      forall k ensures k in a[1..] <==> k in b[1..] {
        SameTails(ascending, a, b, k);
        SameTails(ascending, b, a, k);
      }
      ListingUnique(ascending, a[1..], b[1..]);
      assert a == [a[0]] + a[1..] && b == [b[0]] + b[1..];
    }
  }

  lemma SameTails(ascending: bool, a: seq<Key>, b: seq<Key>, k: Key)
    requires InOrder(ascending, a) && a != [] && b != [] && a[0] == b[0] && (k in a ==> k in b)
    ensures k in a[1..] ==> k in b[1..]
  {
    if k in a[1..] {
      var i :| 0 <= i < |a| - 1 && a[1..][i] == k;
      assert Precedes(ascending, MarkOf(a[0]), MarkOf(a[i + 1]));
      assert k in b && k != b[0];
      assert b == [b[0]] + b[1..];
    }
  }

  /** A position in the concatenation is a position on a page. */
  lemma {:induction false} PageOf(pages: seq<Page>, d: nat) returns (i: nat, e: nat)
    requires d < |Concat(pages)|
    ensures i < |pages| && e < |pages[i].keys| && Concat(pages)[d] == pages[i].keys[e]
    ensures d == |Concat(pages[..i])| + e
  {
    var front, last := pages[..|pages| - 1], pages[|pages| - 1].keys;
    if d < |Concat(front)| {
      i, e := PageOf(front, d);
      assert pages[..i] == front[..i];
    } else {
      i, e := |pages| - 1, d - |Concat(front)|;
    }
  }

  lemma {:induction false} ConcatGrows(pages: seq<Page>, i: nat, j: nat)
    requires i < j <= |pages|
    ensures |Concat(pages[..i])| + |pages[i].keys| <= |Concat(pages[..j])|
  {
    assert pages[..j][..j - 1] == pages[..j - 1];
    if i < j - 1 { ConcatGrows(pages, i, j - 1); }
  }

  lemma OrderOfPlaces(pages: seq<Page>, d: nat, i: nat, e: nat, d2: nat, i2: nat, e2: nat)
    requires i < |pages| && e < |pages[i].keys| && d == |Concat(pages[..i])| + e
    requires i2 < |pages| && e2 < |pages[i2].keys| && d2 == |Concat(pages[..i2])| + e2 && d < d2
    ensures i < i2 || (i == i2 && e < e2)
  {
    if i2 < i { ConcatGrows(pages, i2, i); }
  }

  lemma ConcatInOrder(ts: seq<Tables>, q: ListQuery, fold: char -> char, pages: seq<Page>)
    requires Walk(ts, q, fold, pages)
    ensures InOrder(q.ascending, Concat(pages))
  {
    var all := Concat(pages);
    forall d, d2 | 0 <= d < d2 < |all| ensures Precedes(q.ascending, MarkOf(all[d]), MarkOf(all[d2])) {
      var i, e := PageOf(pages, d);
      var i2, e2 := PageOf(pages, d2);
      OrderOfPlaces(pages, d, i, e, d2, i2, e2);
      PagesInOrder(ts, q, fold, pages, i, e, i2, e2);
    }
  }

  lemma {:induction false} OnPageInConcat(pages: seq<Page>, i: nat, e: nat)
    requires i < |pages| && e < |pages[i].keys|
    ensures pages[i].keys[e] in Concat(pages)
  {
    if i < |pages| - 1 { OnPageInConcat(pages[..|pages| - 1], i, e); }
  }

  lemma ListedIsSelected(ts: seq<Tables>, q: ListQuery, fold: char -> char, pages: seq<Page>, i: nat, e: nat)
    requires Walk(ts, q, fold, pages) && i < |pages| && e < |pages[i].keys|
    ensures var k := pages[i].keys[e]; k.id in ts[i].keys && ts[i].keys[k.id] == k && Selects(q, fold, k)
  {
    assert Fetched(ts, q, fold, pages, i);
    assert pages[i].keys[e].id in Candidates(ts[i], q, fold, CursorAt(pages, i));
  }

  lemma SelectedIsListed(t: Tables, ts: seq<Tables>, q: ListQuery, fold: char -> char, pages: seq<Page>, k: Key)
    requires Walk(ts, q, fold, pages) && forall i | 0 <= i < |ts| :: ts[i] == t
    requires k.id in t.keys && t.keys[k.id] == k && Selects(q, fold, k)
    ensures k in Concat(pages)
  {
    EachRowOnce(ts, q, fold, pages, MarkOf(k));
    var i: nat, e: nat :| FoundAt(pages, MarkOf(k), i, e);
    ListedIsSelected(ts, q, fold, pages, i, e);
    OnPageInConcat(pages, i, e);
  }

  /** On a table that does not change, the pages put together are the sorted list of the selected rows. */
  lemma FixedTable(t: Tables, ts: seq<Tables>, q: ListQuery, fold: char -> char, pages: seq<Page>)
    requires Walk(ts, q, fold, pages) && forall i | 0 <= i < |ts| :: ts[i] == t
    ensures IsListing(t, q, fold, Concat(pages))
    ensures forall rows | IsListing(t, q, fold, rows) :: Concat(pages) == rows
  {
    var all := Concat(pages);
    ConcatInOrder(ts, q, fold, pages);
    forall k ensures k in all <==> k.id in t.keys && t.keys[k.id] == k && Selects(q, fold, k) {
      if k in all {
        var d :| 0 <= d < |all| && all[d] == k;
        var i, e := PageOf(pages, d);
        ListedIsSelected(ts, q, fold, pages, i, e);
      } else if k.id in t.keys && t.keys[k.id] == k && Selects(q, fold, k) {
        SelectedIsListed(t, ts, q, fold, pages, k);
      }
    }
    forall rows | IsListing(t, q, fold, rows) ensures all == rows {
      ListingUnique(q.ascending, all, rows);
    }
  }
}
