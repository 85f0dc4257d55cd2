/** Keyset pagination (cappy_common/pagination.py and `page` in
    booking/repository.py): pages cut from whatever the table holds when each is
    read, and the walk that follows their cursors to the end. */
module Pagination {
  import opened Wrappers

  const DEFAULT_LIMIT := 20
  const MAX_LIMIT := 100

  /** A row's place in the listing: when it was created, and its id. */
  datatype Key = Key(at: int, id: nat)

  predicate Below(a: Key, b: Key) { a.at < b.at || (a.at == b.at && a.id < b.id) }

  /** The rows a query past a cursor may return. */
  function Past(rows: set<Key>, cursor: Option<Key>): set<Key> {
    set k | k in rows && (cursor.Some? ==> Below(k, cursor.value))
  }

  ghost predicate Descends(items: seq<Key>) {
    forall i, j :: 0 <= i < j < |items| ==> Below(items[j], items[i])
  }

  function ClampLimit(limit: Option<int>): int {
    if limit.None? then DEFAULT_LIMIT
    else
      var capped := if limit.value <= MAX_LIMIT then limit.value else MAX_LIMIT;
      if capped >= 1 then capped else 1
  }

  function Distance(a: int, b: int): nat { if a < b then b - a else a - b }

  /** Always a limit a page can have; of those, the nearest to the one asked for. */
  lemma NearestLimit(limit: Option<int>, other: int)
    requires 1 <= other <= 100
    ensures 1 <= ClampLimit(limit) <= 100 && (limit.None? ==> ClampLimit(limit) == 20)
    ensures limit.Some? ==> Distance(limit.value, ClampLimit(limit)) <= Distance(limit.value, other)
  {}

  // --- one page ------------------------------------------------------------------------------

  /** The newest `limit` of the rows past the cursor, newest first; and a cursor
      exactly when there are more. */
  ghost predicate IsPage(rows: set<Key>, cursor: Option<Key>, limit: nat, items: seq<Key>, next: Option<Key>) {
    && Descends(items) && |items| <= limit
    && (forall k :: k in items ==> k in Past(rows, cursor))
    && (next.None? ==> forall k :: k in Past(rows, cursor) ==> k in items)
    && (next.Some? ==>
      && |items| == limit > 0 && next.value == items[limit - 1]
      && (forall k :: k in Past(rows, cursor) && !(k in items) ==> Below(k, next.value))
      && exists k :: k in Past(rows, cursor) && k !in items)
  }

  lemma SomeNewest(rows: set<Key>) returns (k: Key)
    requires rows != {}
    ensures k in rows && forall o :: o in rows && o != k ==> Below(o, k)
  {
    var first :| first in rows;
    k := first;
    if o :| o in rows && o != first {
      assert o in rows - {first};
      var other := SomeNewest(rows - {first});
      if Below(first, other) { k := other; }
      forall o | o in rows && o != k ensures Below(o, k) {
        if o != first { assert o in rows - {first}; }
      }
    }
  }

  /** `order_by(created_at.desc(), id.desc()).limit(n)`. */
  method Newest(rows: set<Key>, n: nat) returns (items: seq<Key>)
    ensures Descends(items) && |items| <= n && (forall k :: k in items ==> k in rows)
    ensures |items| < n ==> forall k :: k in rows ==> k in items
    ensures forall k, i :: k in rows && k !in items && 0 <= i < |items| ==> Below(k, items[i])
  {
    var left := rows;
    items := [];
    while left != {} && |items| < n
      invariant Descends(items) && |items| <= n
      invariant forall k :: k in rows <==> k in left || k in items
      invariant forall k :: k in items ==> k !in left
      invariant forall k, i :: k in left && 0 <= i < |items| ==> Below(k, items[i])
      decreases left
    {
      ghost var first := SomeNewest(left);
      var k :| k in left && forall o :: o in left && o != k ==> Below(o, k);
      left, items := left - {k}, items + [k];
    }
  }

  /** `page`: one row more than asked for tells whether there is another page. */
  method Page(rows: set<Key>, cursor: Option<Key>, limit: nat) returns (items: seq<Key>, next: Option<Key>)
    requires limit >= 1
    ensures IsPage(rows, cursor, limit, items, next)
    ensures forall i, j :: 0 <= i < j < |items| ==> items[j].at < items[i].at || (items[j].at == items[i].at && items[j].id < items[i].id)
    ensures cursor.Some? ==> forall k :: k in items ==>
      k in rows && (k.at < cursor.value.at || (k.at == cursor.value.at && k.id < cursor.value.id))
  {
    var found := Newest(Past(rows, cursor), limit + 1);
    var more := |found| > limit;
    items := if more then found[..limit] else found;
    next := if more then Some(items[limit - 1]) else None;
    if more {
      assert found[limit] in found && found[limit] !in items;
      forall k | k in Past(rows, cursor) && k !in items ensures Below(k, next.value) {
        if k in found { assert k == found[limit]; }
      }
    }
  }

  // --- following the cursors ----------------------------------------------------------------------

  /** Pages read one after the other, each from the table as it was by then:
      `cursors[i]` is what page i was asked with and `cursors[i + 1]` what it answered. */
  ghost predicate Walk(tables: seq<set<Key>>, limit: nat, pages: seq<seq<Key>>, cursors: seq<Option<Key>>) {
    && |tables| == |pages| == |cursors| - 1 && |pages| > 0
    && cursors[0] == None
    && (forall i :: 0 < i < |pages| ==> cursors[i].Some?)
    && forall i :: 0 <= i < |pages| ==> IsPage(tables[i], cursors[i], limit, pages[i], cursors[i + 1])
  }

  function Joined(pages: seq<seq<Key>>): seq<Key> {
    if pages == [] then [] else Joined(pages[..|pages| - 1]) + pages[|pages| - 1]
  }

  lemma WalkPrefix(tables: seq<set<Key>>, limit: nat, pages: seq<seq<Key>>, cursors: seq<Option<Key>>, n: nat)
    requires Walk(tables, limit, pages, cursors) && 0 < n <= |pages|
    ensures Walk(tables[..n], limit, pages[..n], cursors[..n + 1])
  {
    forall i | 0 <= i < n ensures IsPage(tables[..n][i], cursors[..n + 1][i], limit, pages[..n][i], cursors[..n + 1][i + 1]) {
      assert IsPage(tables[i], cursors[i], limit, pages[i], cursors[i + 1]);
    }
  }

  /** All pages together run strictly downward, and end at the last cursor. */
  lemma {:induction false} NeverTwice(tables: seq<set<Key>>, limit: nat, pages: seq<seq<Key>>, cursors: seq<Option<Key>>)
    requires Walk(tables, limit, pages, cursors)
    ensures Descends(Joined(pages))
    ensures cursors[|pages|].Some? ==> Joined(pages) != [] && Joined(pages)[|Joined(pages)| - 1] == cursors[|pages|].value
  {
    var n := |pages| - 1;
    assert IsPage(tables[n], cursors[n], limit, pages[n], cursors[n + 1]);
    if n == 0 {
      assert Joined(pages[..0]) == [];
      assert Joined(pages) == pages[0];
    } else {
      WalkPrefix(tables, limit, pages, cursors, n);
      NeverTwice(tables[..n], limit, pages[..n], cursors[..n + 1]);
      var before, items := Joined(pages[..n]), pages[n];
      assert cursors[..n + 1][n] == cursors[n];
      forall i, j | 0 <= i < j < |before + items| ensures Below((before + items)[j], (before + items)[i]) {
        if i < |before| <= j {
          var k := items[j - |before|];
          assert k in items && Below(k, cursors[n].value);
          if i < |before| - 1 { assert Below(before[|before| - 1], before[i]); }
        }
      }
    }
  }

  /** What a row passed over by some page lies below: so far, every row there
      throughout is on a page or below the cursor. */
  lemma {:induction false} SeenOrAhead(
    tables: seq<set<Key>>, limit: nat, pages: seq<seq<Key>>, cursors: seq<Option<Key>>, k: Key)
    requires Walk(tables, limit, pages, cursors) && forall i :: 0 <= i < |tables| ==> k in tables[i]
    ensures k in Joined(pages) || (cursors[|pages|].Some? && Below(k, cursors[|pages|].value))
  {
    var n := |pages| - 1;
    assert IsPage(tables[n], cursors[n], limit, pages[n], cursors[n + 1]) && k in tables[n];
    if n > 0 {
      WalkPrefix(tables, limit, pages, cursors, n);
      SeenOrAhead(tables[..n], limit, pages[..n], cursors[..n + 1], k);
      assert cursors[..n + 1][n] == cursors[n];
    }
    assert k in pages[n] ==> k in Joined(pages);
  }

  function Times(items: seq<Key>, k: Key): nat { multiset(items)[k] }

  lemma {:induction false} DescendsOnce(items: seq<Key>, k: Key)
    requires Descends(items)
    ensures Times(items, k) == if k in items then 1 else 0
  {
    if items != [] {
      var init, last := items[..|items| - 1], items[|items| - 1];
      assert items == init + [last];
      DescendsOnce(init, k);
      assert last !in init;
    }
  }

  /** Whatever is inserted, changed or hidden between pages: a walk to the end
      shows every row that was there throughout exactly once, and any other at
      most once, strictly newest first. */
  lemma EveryRowOnce(tables: seq<set<Key>>, limit: nat, pages: seq<seq<Key>>, cursors: seq<Option<Key>>, k: Key)
    requires Walk(tables, limit, pages, cursors) && cursors[|pages|].None?
    ensures Descends(Joined(pages)) && Times(Joined(pages), k) <= 1
    ensures (forall i :: 0 <= i < |tables| ==> k in tables[i]) ==> Times(Joined(pages), k) == 1
  {
    NeverTwice(tables, limit, pages, cursors);
    DescendsOnce(Joined(pages), k);
    if forall i :: 0 <= i < |tables| ==> k in tables[i] {
      SeenOrAhead(tables, limit, pages, cursors, k);
    }
  }

  /** Every row any page could have been cut from. */
  function Union(tables: seq<set<Key>>): set<Key> {
    if tables == [] then {} else Union(tables[..|tables| - 1]) + tables[|tables| - 1]
  }

  /** Every page followed by another is full. */
  lemma {:induction false} PagesAreFull(tables: seq<set<Key>>, limit: nat, pages: seq<seq<Key>>, cursors: seq<Option<Key>>)
    requires Walk(tables, limit, pages, cursors)
    ensures (|pages| - 1) * limit <= |Joined(pages)| && forall k :: k in Joined(pages) ==> k in Union(tables)
    ensures cursors[|pages|].Some? ==> |pages| * limit <= |Joined(pages)|
  {
    var n := |pages| - 1;
    assert IsPage(tables[n], cursors[n], limit, pages[n], cursors[n + 1]);
    if n == 0 {
      assert Joined(pages[..0]) == [];
      assert Joined(pages) == pages[0];
    } else {
      WalkPrefix(tables, limit, pages, cursors, n);
      PagesAreFull(tables[..n], limit, pages[..n], cursors[..n + 1]);
      assert cursors[..n + 1][n] == cursors[n];
      OneMore(n, limit);
    }
  }

  lemma OneMore(n: nat, limit: nat)
    ensures (n + 1) * limit == n * limit + limit
  {}

  /** Whatever happens to the table between pages, the walk has no more pages than
      the rows there were at any of them can fill, and one: it ends unless new rows
      keep coming in below the cursor. */
  lemma WalkIsBounded(tables: seq<set<Key>>, limit: nat, pages: seq<seq<Key>>, cursors: seq<Option<Key>>)
    requires Walk(tables, limit, pages, cursors)
    ensures (|pages| - 1) * limit <= |Union(tables)|
  {
    PagesAreFull(tables, limit, pages, cursors);
    NeverTwice(tables, limit, pages, cursors);
    ShownCount(Joined(pages));
    SubsetCount((set k | k in Joined(pages)), Union(tables));
  }

  /** New rows come in above the cursor only: below it, rows may go, not come. */
  ghost predicate OnlyNewerRows(tables: seq<set<Key>>, cursors: seq<Option<Key>>) {
    && |cursors| == |tables| + 1
    && forall i :: 0 <= i < |tables| - 1 ==> Past(tables[i + 1], cursors[i + 1]) <= Past(tables[i], cursors[i + 1])
  }

  lemma PastShrinks(rows: set<Key>, cursor: Option<Key>, limit: nat, items: seq<Key>, next: Option<Key>)
    requires IsPage(rows, cursor, limit, items, next) && next.Some?
    ensures |Past(rows, next)| + limit <= |Past(rows, cursor)|
  {
    var shown := set k | k in items;
    forall i | 0 <= i < |items| ensures !Below(items[i], next.value) {
      if i < limit - 1 { assert Below(items[limit - 1], items[i]); }
    }
    ShownCount(items);
    assert next.value in items;
    assert Past(rows, next) !! shown && Past(rows, next) + shown <= Past(rows, cursor) by {
      forall k | k in Past(rows, next) ensures k in Past(rows, cursor) && k !in shown {}
    }
    SubsetCount(Past(rows, next) + shown, Past(rows, cursor));
  }

  lemma {:induction false} ShownCount(items: seq<Key>)
    requires Descends(items)
    ensures |set k | k in items| == |items|
  {
    if items != [] {
      var init, last := items[..|items| - 1], items[|items| - 1];
      ShownCount(init);
      assert items == init + [last];
      assert (set k | k in items) == (set k | k in init) + {last};
      assert last !in init;
    }
  }

  /** While that holds the rows at the start are bound enough. */
  lemma {:induction false} WalkEnds(tables: seq<set<Key>>, limit: nat, pages: seq<seq<Key>>, cursors: seq<Option<Key>>)
    requires Walk(tables, limit, pages, cursors) && OnlyNewerRows(tables, cursors)
    ensures (|pages| - 1) * limit + |Past(tables[|pages| - 1], cursors[|pages| - 1])| <= |tables[0]|
  {
    var n := |pages| - 1;
    if n == 0 {
      SubsetCount(Past(tables[0], cursors[0]), tables[0]);
    } else {
      WalkPrefix(tables, limit, pages, cursors, n);
      assert OnlyNewerRows(tables[..n], cursors[..n + 1]) by {
        forall i | 0 <= i < n - 1
          ensures Past(tables[..n][i + 1], cursors[..n + 1][i + 1]) <= Past(tables[..n][i], cursors[..n + 1][i + 1])
        {
          assert Past(tables[i + 1], cursors[i + 1]) <= Past(tables[i], cursors[i + 1]);
        }
      }
      WalkEnds(tables[..n], limit, pages[..n], cursors[..n + 1]);
      assert IsPage(tables[n - 1], cursors[n - 1], limit, pages[n - 1], cursors[n]);
      PastShrinks(tables[n - 1], cursors[n - 1], limit, pages[n - 1], cursors[n]);
      assert Past(tables[n - 1 + 1], cursors[n - 1 + 1]) <= Past(tables[n - 1], cursors[n - 1 + 1]);
      SubsetCount(Past(tables[n], cursors[n]), Past(tables[n - 1], cursors[n]));
    }
  }
}
