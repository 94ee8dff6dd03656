/**
 Keyset pagination: each page asks for the rows strictly after the last one seen, in (sort, id) order,
 and one more than the limit to learn whether there is a next page.
 */
module Keyset {
  import opened Options

  /** A row as pagination sees it; the sort key never changes once the row exists. */
  datatype Row = Row(sort: int, id: nat)

  /** The row-value comparison, ascending. */
  predicate Less(a: Row, b: Row)
  {
    a.sort < b.sort || (a.sort == b.sort && a.id < b.id)
  }

  /** `a` comes strictly before `b` in the page order; the id follows the direction of the sort. */
  predicate Before(descending: bool, a: Row, b: Row)
  {
    if descending then Less(b, a) else Less(a, b)
  }

  predicate Ordered(descending: bool, rows: seq<Row>)
  {
    forall i, j | 0 <= i < j < |rows| :: Before(descending, rows[i], rows[j])
  }

  /** `rows` is the table in page order: what ORDER BY returns. */
  ghost predicate Lists(descending: bool, rows: seq<Row>, table: set<Row>)
  {
    Ordered(descending, rows) && forall r :: r in rows <==> r in table
  }

  lemma {:induction false} FirstExists(descending: bool, table: set<Row>) returns (first: Row)
    requires table != {}
    ensures first in table && forall r | r in table && r != first :: Before(descending, first, r)
  {
    var r :| r in table;
    if table == {r} {
      first := r;
    } else {
      assert table - {r} != {} by {
        assert table == {r} + (table - {r});
      }
      var other := FirstExists(descending, table - {r});
      first := if Before(descending, r, other) then r else other;
      assert forall x | x in table :: x == r || x in table - {r};
    }
  }

  /** ORDER BY. */
  ghost function Listing(descending: bool, table: set<Row>): (rows: seq<Row>)
    ensures Lists(descending, rows, table) && |rows| == |table|
  {
    if table == {} then []
    else
      assert exists f :: f in table && forall r | r in table && r != f :: Before(descending, f, r) by {
        var f := FirstExists(descending, table);
      }
      var first :| first in table && forall r | r in table && r != first :: Before(descending, first, r);
      ListsOneMore(descending, first, Listing(descending, table - {first}), table);
      [first] + Listing(descending, table - {first})
  }

  lemma ListsOneMore(descending: bool, first: Row, rest: seq<Row>, table: set<Row>)
    requires first in table && (forall r | r in table && r != first :: Before(descending, first, r))
    requires Lists(descending, rest, table - {first})
    ensures Lists(descending, [first] + rest, table)
  {
    var rows := [first] + rest;
    forall i, j | 0 <= i < j < |rows| ensures Before(descending, rows[i], rows[j]) {
      assert rows[j] == rest[j - 1] && rest[j - 1] in rest;
      assert i > 0 ==> rows[i] == rest[i - 1];
    }
  }

  lemma FirstIsFirst(descending: bool, rows: seq<Row>, i: nat)
    requires Ordered(descending, rows) && i < |rows|
    ensures rows[i] == rows[0] || Before(descending, rows[0], rows[i])
  {
  }

  lemma HasMember(rows: seq<Row>)
    requires rows != []
    ensures exists r :: r in rows
  {
    assert rows[0] in rows;
  }

  /** There is only one way to list a table. */
  lemma {:induction false} ListingUnique(descending: bool, a: seq<Row>, b: seq<Row>)
    requires Ordered(descending, a) && Ordered(descending, b) && forall r :: r in a <==> r in b
    ensures a == b
    decreases |a|
  {
    if a == [] {
      if b != [] {
        HasMember(b);
      }
    } else {
      assert a[0] in b;
      assert b[0] in a;
      var i :| 0 <= i < |b| && b[i] == a[0];
      var j :| 0 <= j < |a| && a[j] == b[0];
      FirstIsFirst(descending, a, j);
      FirstIsFirst(descending, b, i);
      assert a[0] == b[0];
      forall r ensures r in a[1..] <==> r in b[1..] {
        TailMembers(descending, a, r);
        TailMembers(descending, b, r);
      }
      ListingUnique(descending, a[1..], b[1..]);
    }
  }

  lemma TailMembers(descending: bool, a: seq<Row>, r: Row)
    requires a != [] && Ordered(descending, a)
    ensures r in a[1..] <==> r in a && r != a[0]
  {
    if r in a && r != a[0] {
      var i :| 0 <= i < |a| && a[i] == r;
      assert a[1..][i - 1] == r;
    }
    if r in a[1..] {
      var i :| 0 <= i < |a[1..]| && a[1..][i] == r;
      assert Before(descending, a[0], a[i + 1]);
    }
  }

  // ---------------------------------------------------------------- one page

  predicate Past(descending: bool, cursor: Option<Row>, r: Row)
  {
    cursor.None? || Before(descending, cursor.value, r)
  }

  function Rest(descending: bool, table: set<Row>, cursor: Option<Row>): set<Row>
  {
    set r | r in table && Past(descending, cursor, r)
  }

  datatype Page = Page(items: seq<Row>, next: Option<Row>)

  /** Trim the probe row; a cursor only if it was there. */
  function BuildPage(fetched: seq<Row>, limit: nat): Page
  {
    var kept := if |fetched| > limit then fetched[..limit] else fetched;
    Page(kept, if |fetched| > limit && kept != [] then Some(kept[|kept| - 1]) else None)
  }

  /** The query with its LIMIT n + 1, and the page built from it. */
  ghost function Fetch(descending: bool, table: set<Row>, cursor: Option<Row>, limit: nat): Page
  {
    var rows := Listing(descending, Rest(descending, table, cursor));
    BuildPage(if |rows| > limit + 1 then rows[..limit + 1] else rows, limit)
  }

  /** A page is the first `limit` rows past the cursor, and points on exactly when more remain. */
  lemma FetchIsPrefix(descending: bool, table: set<Row>, cursor: Option<Row>, limit: nat)
    requires limit > 0
    ensures var rows := Listing(descending, Rest(descending, table, cursor));
            var page := Fetch(descending, table, cursor, limit);
            if |rows| <= limit then page == Page(rows, None)
            else page.items == rows[..limit] && page.next == Some(rows[limit - 1])
  {
    hide Listing, Lists, Rest;
    var rows := Listing(descending, Rest(descending, table, cursor));
    if |rows| > limit {
      assert rows[..limit + 1][..limit] == rows[..limit];
    }
  }

  /** What remains past a row of the listing is what follows it in the listing. */
  lemma RestOfListing(descending: bool, table: set<Row>, cursor: Option<Row>, n: nat)
    requires var rows := Listing(descending, Rest(descending, table, cursor)); 0 < n <= |rows|
    ensures var rows := Listing(descending, Rest(descending, table, cursor));
            Listing(descending, Rest(descending, table, Some(rows[n - 1]))) == rows[n..]
  {
    var rows := Listing(descending, Rest(descending, table, cursor));
    var later := Listing(descending, Rest(descending, table, Some(rows[n - 1])));
    forall r ensures r in later <==> r in rows[n..] {
      if r in rows[n..] {
        var i :| 0 <= i < |rows[n..]| && rows[n..][i] == r;
        assert rows[n + i] == r && Before(descending, rows[n - 1], rows[n + i]);
        assert r in rows;
      }
      if r in later {
        PastMembers(descending, table, cursor, n, r);
      }
    }
    ListingUnique(descending, later, rows[n..]);
  }

  lemma LaterIndex(descending: bool, rows: seq<Row>, m: nat, i: nat)
    requires Ordered(descending, rows) && m < |rows| && i < |rows| && Before(descending, rows[m], rows[i])
    ensures m < i
  {
  }

  lemma PastMembers(descending: bool, table: set<Row>, cursor: Option<Row>, n: nat, r: Row)
    requires var rows := Listing(descending, Rest(descending, table, cursor));
             0 < n <= |rows| && r in table && Before(descending, rows[n - 1], r)
    ensures r in Listing(descending, Rest(descending, table, cursor))[n..]
  {
    var rows := Listing(descending, Rest(descending, table, cursor));
    assert rows[n - 1] in Rest(descending, table, cursor);
    assert r in Rest(descending, table, cursor);
    assert r in rows;
    var i :| 0 <= i < |rows| && rows[i] == r;
    LaterIndex(descending, rows, n - 1, i);
    assert rows[n..][i - n] == r;
  }

  // ---------------------------------------------------------------- the walk over a fixed table

  /** Follow `next` to the end; terminates because what remains shrinks. */
  ghost function Walk(descending: bool, table: set<Row>, cursor: Option<Row>, limit: nat): seq<Row>
    requires limit > 0
    decreases |Listing(descending, Rest(descending, table, cursor))|
  {
    var page := Fetch(descending, table, cursor, limit);
    FetchIsPrefix(descending, table, cursor, limit);
    if page.next.None? then page.items
    else
      RestOfListing(descending, table, cursor, limit);
      page.items + Walk(descending, table, page.next, limit)
  }

  lemma {:induction false} WalkFrom(descending: bool, table: set<Row>, cursor: Option<Row>, limit: nat)
    requires limit > 0
    ensures Walk(descending, table, cursor, limit) == Listing(descending, Rest(descending, table, cursor))
    decreases |Listing(descending, Rest(descending, table, cursor))|
  {
    hide Listing, Fetch, Lists;
    var rows := Listing(descending, Rest(descending, table, cursor));
    FetchIsPrefix(descending, table, cursor, limit);
    if |rows| > limit {
      RestOfListing(descending, table, cursor, limit);
      WalkFrom(descending, table, Some(rows[limit - 1]), limit);
    }
  }

  /** Over a fixed table the pages concatenate to exactly the sorted table, ties and all. */
  lemma WalkIsTheSortedTable(descending: bool, table: set<Row>, limit: nat)
    requires limit > 0
    ensures Walk(descending, table, None, limit) == Listing(descending, table)
  {
    WalkFrom(descending, table, None, limit);
    assert Rest(descending, table, None) == table;
  }

  // ---------------------------------------------------------------- the walk over a changing table

  datatype Visit = Visit(items: seq<Row>, ended: bool)

  /** The same walk when page `i` sees the table as `tables[i]`; `ended` once a page has no next. */
  ghost function Roam(descending: bool, tables: seq<set<Row>>, cursor: Option<Row>, limit: nat): Visit
    requires limit > 0
    decreases |tables|
  {
    if tables == [] then Visit([], false)
    else
      var page := Fetch(descending, tables[0], cursor, limit);
      if page.next.None? then Visit(page.items, true)
      else
        var later := Roam(descending, tables[1..], page.next, limit);
        Visit(page.items + later.items, later.ended)
  }

  /** Every row of a page is past the cursor and not past the next one. */
  lemma PageRows(descending: bool, table: set<Row>, cursor: Option<Row>, limit: nat)
    requires limit > 0
    ensures var page := Fetch(descending, table, cursor, limit);
            && Ordered(descending, page.items)
            && (forall i | 0 <= i < |page.items| :: Past(descending, cursor, page.items[i]) && page.items[i] in table)
            && (page.next.Some? ==> forall i | 0 <= i < |page.items| ::
                page.items[i] == page.next.value
                || Before(descending, page.items[i], page.next.value))
            && (page.next.Some? ==> Past(descending, cursor, page.next.value))
  {
    hide Listing, Fetch;
    var rows := Listing(descending, Rest(descending, table, cursor));
    FetchIsPrefix(descending, table, cursor, limit);
    forall i | 0 <= i < |rows| ensures Past(descending, cursor, rows[i]) && rows[i] in table {
      assert rows[i] in Rest(descending, table, cursor);
    }
    hide Lists;
  }

  lemma Transitive(descending: bool, a: Row, b: Row, c: Row)
    requires (a == b || Before(descending, a, b)) && Before(descending, b, c)
    ensures Before(descending, a, c)
  {
  }

  lemma {:induction false} RoamIsOrdered(descending: bool, tables: seq<set<Row>>, cursor: Option<Row>, limit: nat)
    requires limit > 0
    ensures var items := Roam(descending, tables, cursor, limit).items;
            Ordered(descending, items) && forall i | 0 <= i < |items| :: Past(descending, cursor, items[i])
    decreases |tables|
  {
    if tables != [] {
      var page := Fetch(descending, tables[0], cursor, limit);
      PageRows(descending, tables[0], cursor, limit);
      if page.next.Some? {
        RoamIsOrdered(descending, tables[1..], page.next, limit);
        var later := Roam(descending, tables[1..], page.next, limit).items;
        JoinOrdered(descending, page.items, later, cursor, page.next.value);
      }
    }
  }

  lemma JoinOrdered(descending: bool, a: seq<Row>, b: seq<Row>, cursor: Option<Row>, next: Row)
    requires Ordered(descending, a) && Ordered(descending, b) && Past(descending, cursor, next)
    requires forall i | 0 <= i < |a| :: Past(descending, cursor, a[i])
               && (a[i] == next || Before(descending, a[i], next))
    requires forall i | 0 <= i < |b| :: Past(descending, Some(next), b[i])
    ensures Ordered(descending, a + b) && forall i | 0 <= i < |a + b| :: Past(descending, cursor, (a + b)[i])
  {
    forall i, j | 0 <= i < |a| && 0 <= j < |b| ensures Before(descending, a[i], b[j]) {
      Transitive(descending, a[i], next, b[j]);
    }
    forall j | 0 <= j < |b| ensures Past(descending, cursor, b[j]) {
      if cursor.Some? {
        Transitive(descending, cursor.value, next, b[j]);
      }
    }
    var c := a + b;
    forall i, j | 0 <= i < j < |c| ensures Before(descending, c[i], c[j]) {
      if i < |a| && |a| <= j {
        assert c[i] == a[i] && c[j] == b[j - |a|];
      }
    }
  }

  lemma {:induction false} RoamIsComplete(descending: bool, tables: seq<set<Row>>, cursor: Option<Row>, limit: nat,
      r: Row)
    requires limit > 0 && Roam(descending, tables, cursor, limit).ended && Past(descending, cursor, r)
    requires forall i | 0 <= i < |tables| :: r in tables[i]
    ensures r in Roam(descending, tables, cursor, limit).items
    decreases |tables|
  {
    hide Listing, Fetch;
    var rows := Listing(descending, Rest(descending, tables[0], cursor));
    var page := Fetch(descending, tables[0], cursor, limit);
    FetchIsPrefix(descending, tables[0], cursor, limit);
    assert r in rows;
    if page.next.Some? {
      var i :| 0 <= i < |rows| && rows[i] == r;
      if i < limit {
        assert rows[..limit][i] == r;
        assert r in page.items;
      } else {
        assert Before(descending, rows[limit - 1], rows[i]);
        RoamIsComplete(descending, tables[1..], page.next, limit, r);
      }
    }
  }

  /**
   With rows inserted and deleted between pages, whatever the ties: the rows come out in strict order,
   so none twice; and once the walk ends, every row that was there throughout came out.
   */
  lemma RoamIsSound(descending: bool, tables: seq<set<Row>>, limit: nat)
    requires limit > 0
    ensures var visit := Roam(descending, tables, None, limit);
            && (forall i, j | 0 <= i < j < |visit.items| :: visit.items[i] != visit.items[j])
            && Ordered(descending, visit.items)
            && (visit.ended ==> forall r | (forall i | 0 <= i < |tables| :: r in tables[i]) && tables != [] ::
                r in visit.items)
  {
    RoamIsOrdered(descending, tables, None, limit);
    var visit := Roam(descending, tables, None, limit);
    forall i, j | 0 <= i < j < |visit.items| ensures visit.items[i] != visit.items[j] {
      assert Before(descending, visit.items[i], visit.items[j]);
    }
    if visit.ended && tables != [] {
      forall r | (forall i | 0 <= i < |tables| :: r in tables[i]) ensures r in visit.items {
        RoamIsComplete(descending, tables, None, limit, r);
      }
    }
  }
}
