/**
 The inventory ledger: one stock row per SKU, one active reservation per order line.

 A reservation row that was released owns no stock and never blocks a new hold (the
 uniqueness guard covers only `held` and `committed`), so the ledger keeps the active
 rows only: releasing a row removes it.
 */
module Inventory {
  import opened Options

  type OrderId = nat

  /** SKUs are compared only for equality and for the collation order the batch reserve sorts by. */
  type Sku = nat

  type Line = (Sku, int)
  type Key = (OrderId, Sku)

  datatype Stock = Stock(onHand: int, reserved: int, version: int)

  datatype HoldStatus = Held | Committed

  datatype Hold = Hold(qty: int, status: HoldStatus)

  datatype Ledger = Ledger(stock: map<Sku, Stock>, holds: map<Key, Hold>)

  // ---------------------------------------------------------------- quantities

  /** Units of `sku` named by the rows of `h`. */
  ghost function Qty(h: map<Key, Hold>, sku: Sku): int
    decreases |h|
  {
    if h == map[] then 0
    else
      var k :| k in h;
      (if k.1 == sku then h[k].qty else 0) + Qty(h - {k}, sku)
  }

  /** Rows of `h` in a given status. */
  function InStatus(h: map<Key, Hold>, st: HoldStatus): map<Key, Hold>
  {
    map k | k in h && h[k].status == st :: h[k]
  }

  function Restrict(h: map<Key, Hold>, ks: set<Key>): map<Key, Hold>
  {
    map k | k in h && k in ks :: h[k]
  }

  function OrderKeys(h: map<Key, Hold>, o: OrderId, st: HoldStatus): set<Key>
  {
    set k | k in h && k.0 == o && h[k].status == st
  }

  lemma {:induction false} QtyRemove(h: map<Key, Hold>, k: Key, sku: Sku)
    requires k in h
    ensures Qty(h, sku) == (if k.1 == sku then h[k].qty else 0) + Qty(h - {k}, sku)
    decreases |h|
  {
    var j :| j in h && Qty(h, sku) == (if j.1 == sku then h[j].qty else 0) + Qty(h - {j}, sku);
    if j != k {
      QtyRemove(h - {j}, k, sku);
      QtyRemove(h - {k}, j, sku);
      assert h - {j} - {k} == h - {k} - {j};
    }
  }

  lemma SplitRemove(h: map<Key, Hold>, ks: set<Key>, k: Key)
    requires k in h
    ensures k in ks ==> Restrict(h, ks) - {k} == Restrict(h - {k}, ks) && h - ks == (h - {k}) - ks
    ensures k !in ks ==> Restrict(h, ks) == Restrict(h - {k}, ks) && (h - ks) - {k} == (h - {k}) - ks
  {
  }

  lemma {:induction false} QtySplit(h: map<Key, Hold>, ks: set<Key>, sku: Sku)
    ensures Qty(h, sku) == Qty(Restrict(h, ks), sku) + Qty(h - ks, sku)
    decreases |h|
  {
    if h == map[] {
      assert Restrict(h, ks) == map[] && h - ks == map[];
    } else {
      var k :| k in h;
      QtyRemove(h, k, sku);
      SplitRemove(h, ks, k);
      QtySplit(h - {k}, ks, sku);
      QtyRemove(if k in ks then Restrict(h, ks) else h - ks, k, sku);
    }
  }

  lemma QtyUnion(a: map<Key, Hold>, b: map<Key, Hold>, sku: Sku)
    requires a.Keys !! b.Keys
    ensures Qty(a + b, sku) == Qty(a, sku) + Qty(b, sku)
  {
    QtySplit(a + b, a.Keys, sku);
    assert Restrict(a + b, a.Keys) == a && (a + b) - a.Keys == b;
  }

  lemma {:induction false} QtyNonNegative(h: map<Key, Hold>, sku: Sku)
    requires forall k | k in h :: h[k].qty > 0
    ensures Qty(h, sku) >= 0
    decreases |h|
  {
    if h != map[] {
      var k :| k in h;
      QtyRemove(h, k, sku);
      QtyNonNegative(h - {k}, sku);
    }
  }

  /** Quantities depend on which rows are there and how many units they name, not on their status. */
  lemma {:induction false} QtyIgnoresStatus(a: map<Key, Hold>, b: map<Key, Hold>, sku: Sku)
    requires a.Keys == b.Keys
    requires forall k | k in a :: a[k].qty == b[k].qty
    ensures Qty(a, sku) == Qty(b, sku)
    decreases |a|
  {
    if a == map[] {
      assert b == map[];
    } else {
      var k :| k in a;
      QtyRemove(a, k, sku);
      QtyRemove(b, k, sku);
      QtyIgnoresStatus(a - {k}, b - {k}, sku);
    }
  }

  // ---------------------------------------------------------------- the ledger invariant

  /** `reserved` is exactly what the held rows name, and never more than what is on the shelf. */
  ghost predicate Valid(l: Ledger)
  {
    && (forall k | k in l.holds :: k.1 in l.stock && l.holds[k].qty > 0)
    && (forall s | s in l.stock ::
          0 <= l.stock[s].reserved <= l.stock[s].onHand
          && l.stock[s].reserved == Qty(InStatus(l.holds, Held), s))
  }

  /** Units of `sku` on the shelf; a SKU without a stock row has none. */
  function OnHand(l: Ledger, sku: Sku): int
  {
    if sku in l.stock then l.stock[sku].onHand else 0
  }

  /** Units of `sku` the business owns or has sold: on the shelf plus consumed by orders. */
  ghost function Accounted(l: Ledger, sku: Sku): int
  {
    OnHand(l, sku) + Qty(InStatus(l.holds, Committed), sku)
  }

  /** A row that changed at all carries a newer version. */
  ghost predicate VersionsAdvance(l: Ledger, l': Ledger)
  {
    && l.stock.Keys <= l'.stock.Keys
    && forall s | s in l.stock :: l'.stock[s] == l.stock[s] || l.stock[s].version < l'.stock[s].version
  }

  // ---------------------------------------------------------------- transitions

  /** How many of the rows `ks` stand on `sku`. */
  function Touches(ks: set<Key>, sku: Sku): nat
  {
    |set k | k in ks && k.1 == sku|
  }

  /** The four guarded stock updates: take a hold, give it back, consume it, put consumed units back. */
  datatype Move = Take | Unhold | Sell | Unsell

  /** A stock row after a move of `q` units in `n` updates. */
  function Shift(r: Stock, m: Move, q: int, n: int): Stock
  {
    match m
    case Take => Stock(r.onHand, r.reserved + q, r.version + n)
    case Unhold => Stock(r.onHand, r.reserved - q, r.version + n)
    case Sell => Stock(r.onHand - q, r.reserved - q, r.version + n)
    case Unsell => Stock(r.onHand + q, r.reserved, r.version + n)
  }

  /** The stock rows after each row of `h` made the move. */
  ghost function Moved(stock: map<Sku, Stock>, h: map<Key, Hold>, m: Move): map<Sku, Stock>
  {
    map s | s in stock :: Shift(stock[s], m, Qty(h, s), Touches(h.Keys, s))
  }

  function WithStatus(h: map<Key, Hold>, ks: set<Key>, st: HoldStatus): map<Key, Hold>
  {
    map k | k in h :: if k in ks then Hold(h[k].qty, st) else h[k]
  }

  /** Held rows leave the ledger and give their reserved units back. */
  ghost function Release(l: Ledger, ks: set<Key>): Ledger
  {
    Ledger(Moved(l.stock, Restrict(l.holds, ks), Unhold), l.holds - ks)
  }

  /** Held rows become real deductions. */
  ghost function Consume(l: Ledger, ks: set<Key>): Ledger
  {
    Ledger(Moved(l.stock, Restrict(l.holds, ks), Sell), WithStatus(l.holds, ks, Committed))
  }

  /** Consumed rows leave the ledger and their units go back on the shelf. */
  ghost function Restock(l: Ledger, ks: set<Key>): Ledger
  {
    Ledger(Moved(l.stock, Restrict(l.holds, ks), Unsell), l.holds - ks)
  }

  /** New held rows appear and their units are reserved. */
  ghost function Place(l: Ledger, added: map<Key, Hold>): Ledger
  {
    Ledger(Moved(l.stock, added, Take), l.holds + added)
  }

  // ---------------------------------------------------------------- batch reserve

  predicate DistinctSkus(lines: seq<Line>)
  {
    forall i, j | 0 <= i < j < |lines| :: lines[i].0 != lines[j].0
  }

  /** What the service accepts before it asks the repository. */
  predicate WellFormed(lines: seq<Line>)
  {
    DistinctSkus(lines) && forall i | 0 <= i < |lines| :: lines[i].1 > 0
  }

  predicate Covered(l: Ledger, o: OrderId, line: Line)
  {
    if (o, line.0) in l.holds then l.holds[(o, line.0)].qty == line.1
    else line.0 in l.stock && l.stock[line.0].onHand - l.stock[line.0].reserved >= line.1
  }

  predicate Accepts(l: Ledger, o: OrderId, lines: seq<Line>)
  {
    WellFormed(lines) && forall i | 0 <= i < |lines| :: Covered(l, o, lines[i])
  }

  /** The rows a batch adds: one per line the order does not hold yet. */
  function Fresh(l: Ledger, o: OrderId, lines: seq<Line>): map<Key, Hold>
  {
    if lines == [] then map[]
    else
      var last := lines[|lines| - 1];
      var before := Fresh(l, o, lines[..|lines| - 1]);
      if (o, last.0) in l.holds then before else before[(o, last.0) := Hold(last.1, Held)]
  }

  /** The batch reserve as one transaction: every line, or nothing. */
  ghost function Reserve(l: Ledger, o: OrderId, lines: seq<Line>): Ledger
  {
    if Accepts(l, o, lines) then Place(l, Fresh(l, o, lines)) else l
  }

  /** A line in its place among lines already in SKU order. */
  function InsertLine(x: Line, ordered: seq<Line>): seq<Line>
  {
    if ordered == [] || x.0 <= ordered[0].0 then [x] + ordered
    else [ordered[0]] + InsertLine(x, ordered[1..])
  }

  /** The lines in SKU order, which is the order a batch works them in. */
  function BySku(lines: seq<Line>): seq<Line>
  {
    if lines == [] then [] else InsertLine(lines[0], BySku(lines[1..]))
  }

  /** How many leading lines the ledger can serve. */
  function Served(l: Ledger, o: OrderId, ordered: seq<Line>): nat
  {
    if ordered == [] || !Covered(l, o, ordered[0]) then 0 else 1 + Served(l, o, ordered[1..])
  }

  /** A line the order does not hold, for a SKU without a stock row. */
  predicate Unstocked(l: Ledger, o: OrderId, line: Line)
  {
    (o, line.0) !in l.holds && line.0 !in l.stock
  }

  /** The lines a batch gets through before the first it cannot serve. */
  function Leading(l: Ledger, o: OrderId, lines: seq<Line>): seq<Line>
  {
    ServedIs(l, o, BySku(lines));
    BySku(lines)[..Served(l, o, BySku(lines))]
  }

  /** The batch stops at a line whose SKU has no stock row. */
  predicate StopsUnstocked(l: Ledger, o: OrderId, lines: seq<Line>)
  {
    var ordered := BySku(lines);
    var n := Served(l, o, ordered);
    WellFormed(lines) && n < |ordered| && Unstocked(l, o, ordered[n])
  }

  /**
   What the adapter makes of a batch. A short line, a contradiction and a race raise through the attempt's
   savepoint and unwind it; a missing stock row returns through it. `keeps` says whether that return keeps
   the lines placed before it.
   */
  ghost function Attempted(l: Ledger, o: OrderId, lines: seq<Line>, keeps: bool): Ledger
  {
    if keeps && StopsUnstocked(l, o, lines) then Reserve(l, o, Leading(l, o, lines)) else Reserve(l, o, lines)
  }

  /** The batch commit as one transaction: consume every held row of the order, or nothing. */
  ghost function Commit(l: Ledger, o: OrderId, expected: int): Ledger
  {
    var held := OrderKeys(l.holds, o, Held);
    if |OrderKeys(l.holds, o, Committed)| + |held| < expected then l else Consume(l, held)
  }

  // ---------------------------------------------------------------- what each transition keeps

  /** Which rows each transition leaves in each status. */
  lemma RowsLeave(h: map<Key, Hold>, ks: set<Key>, st: HoldStatus, other: HoldStatus)
    requires st != other
    requires forall k | k in ks :: k in h && h[k].status == st
    ensures InStatus(h - ks, st) == InStatus(h, st) - ks
    ensures InStatus(h - ks, other) == InStatus(h, other)
    ensures Restrict(InStatus(h, st), ks) == Restrict(h, ks)
  {
  }

  lemma RowsTurn(h: map<Key, Hold>, ks: set<Key>)
    requires forall k | k in ks :: k in h && h[k].status == Held
    ensures var h' := WithStatus(h, ks, Committed);
            var turned := WithStatus(Restrict(h, ks), ks, Committed);
            && InStatus(h', Held) == InStatus(h, Held) - ks
            && InStatus(h', Committed) == InStatus(h, Committed) + turned
            && turned.Keys !! InStatus(h, Committed).Keys
    ensures Restrict(InStatus(h, Held), ks) == Restrict(h, ks)
  {
  }

  lemma RowsArrive(h: map<Key, Hold>, added: map<Key, Hold>)
    requires added.Keys !! h.Keys
    requires forall k | k in added :: added[k].status == Held
    ensures InStatus(h + added, Held) == InStatus(h, Held) + added
    ensures InStatus(h + added, Committed) == InStatus(h, Committed)
  {
  }

  lemma ReleaseKeepsValid(l: Ledger, ks: set<Key>)
    requires Valid(l)
    requires forall k | k in ks :: k in l.holds && l.holds[k].status == Held
    ensures Valid(Release(l, ks)) && VersionsAdvance(l, Release(l, ks))
    ensures forall s | s in l.stock :: Accounted(Release(l, ks), s) == Accounted(l, s)
  {
    var l' := Release(l, ks);
    RowsLeave(l.holds, ks, Held, Committed);
    forall s | s in l.stock
      ensures 0 <= l'.stock[s].reserved <= l'.stock[s].onHand
      ensures l'.stock[s].reserved == Qty(InStatus(l'.holds, Held), s)
    {
      QtySplit(InStatus(l.holds, Held), ks, s);
      QtyNonNegative(Restrict(l.holds, ks), s);
      QtyNonNegative(InStatus(l'.holds, Held), s);
    }
    MovedAdvances(l.stock, Restrict(l.holds, ks), Unhold);
  }

  lemma RestockKeepsValid(l: Ledger, ks: set<Key>)
    requires Valid(l)
    requires forall k | k in ks :: k in l.holds && l.holds[k].status == Committed
    ensures Valid(Restock(l, ks)) && VersionsAdvance(l, Restock(l, ks))
    ensures forall s | s in l.stock :: Accounted(Restock(l, ks), s) == Accounted(l, s)
  {
    var l' := Restock(l, ks);
    RowsLeave(l.holds, ks, Committed, Held);
    forall s | s in l.stock
      ensures 0 <= l'.stock[s].reserved <= l'.stock[s].onHand
      ensures Accounted(l', s) == Accounted(l, s)
    {
      QtySplit(InStatus(l.holds, Committed), ks, s);
      QtyNonNegative(Restrict(l.holds, ks), s);
    }
    MovedAdvances(l.stock, Restrict(l.holds, ks), Unsell);
  }

  lemma ConsumeKeepsValid(l: Ledger, ks: set<Key>)
    requires Valid(l)
    requires forall k | k in ks :: k in l.holds && l.holds[k].status == Held
    ensures Valid(Consume(l, ks)) && VersionsAdvance(l, Consume(l, ks))
    ensures forall s | s in l.stock :: Accounted(Consume(l, ks), s) == Accounted(l, s)
  {
    var l' := Consume(l, ks);
    RowsTurn(l.holds, ks);
    forall s | s in l.stock
      ensures 0 <= l'.stock[s].reserved <= l'.stock[s].onHand
      ensures l'.stock[s].reserved == Qty(InStatus(l'.holds, Held), s)
      ensures Accounted(l', s) == Accounted(l, s)
    {
      ConsumeQty(l.holds, ks, s);
      QtyNonNegative(Restrict(l.holds, ks), s);
      QtyNonNegative(InStatus(l'.holds, Held), s);
    }
    MovedAdvances(l.stock, Restrict(l.holds, ks), Sell);
  }

  lemma ConsumeQty(h: map<Key, Hold>, ks: set<Key>, s: Sku)
    requires forall k | k in ks :: k in h && h[k].status == Held
    ensures var h' := WithStatus(h, ks, Committed);
            && Qty(InStatus(h', Held), s) == Qty(InStatus(h, Held), s) - Qty(Restrict(h, ks), s)
            && Qty(InStatus(h', Committed), s) == Qty(InStatus(h, Committed), s) + Qty(Restrict(h, ks), s)
  {
    var turned := WithStatus(Restrict(h, ks), ks, Committed);
    RowsTurn(h, ks);
    QtySplit(InStatus(h, Held), ks, s);
    QtyUnion(InStatus(h, Committed), turned, s);
    QtyIgnoresStatus(Restrict(h, ks), turned, s);
  }

  /** What placing rows does to one SKU. */
  lemma PlaceAt(l: Ledger, added: map<Key, Hold>, s: Sku)
    requires Valid(l) && added.Keys !! l.holds.Keys && s in l.stock
    requires forall k | k in added :: added[k].status == Held && added[k].qty > 0
    requires l.stock[s].reserved + Qty(added, s) <= l.stock[s].onHand
    ensures 0 <= l.stock[s].reserved + Qty(added, s)
    ensures l.stock[s].reserved + Qty(added, s) == Qty(InStatus(l.holds + added, Held), s)
    ensures Qty(InStatus(l.holds + added, Committed), s) == Qty(InStatus(l.holds, Committed), s)
  {
    RowsArrive(l.holds, added);
    QtyUnion(InStatus(l.holds, Held), added, s);
    QtyNonNegative(added, s);
  }

  lemma PlaceKeepsValid(l: Ledger, added: map<Key, Hold>)
    requires Valid(l) && added.Keys !! l.holds.Keys
    requires forall k | k in added :: added[k].status == Held && added[k].qty > 0 && k.1 in l.stock
    requires forall s | s in l.stock :: l.stock[s].reserved + Qty(added, s) <= l.stock[s].onHand
    ensures Valid(Place(l, added)) && VersionsAdvance(l, Place(l, added))
    ensures forall s | s in l.stock :: Accounted(Place(l, added), s) == Accounted(l, s)
  {
    hide Qty, InStatus;
    var l' := Place(l, added);
    MovedAdvances(l.stock, added, Take);
    forall s | s in l'.stock
      ensures 0 <= l'.stock[s].reserved <= l'.stock[s].onHand
      ensures l'.stock[s].reserved == Qty(InStatus(l'.holds, Held), s)
      ensures Accounted(l', s) == Accounted(l, s)
    {
      PlaceAt(l, added, s);
    }
  }

  lemma {:induction false} NothingTouched(h: map<Key, Hold>, sku: Sku)
    requires Touches(h.Keys, sku) == 0
    ensures Qty(h, sku) == 0
    decreases |h|
  {
    assert (set k | k in h.Keys && k.1 == sku) == {};
    if h != map[] {
      var k :| k in h;
      QtyRemove(h, k, sku);
      assert k !in (set j | j in h.Keys && j.1 == sku);
      assert (set j | j in (h - {k}).Keys && j.1 == sku) <= (set j | j in h.Keys && j.1 == sku);
      NothingTouched(h - {k}, sku);
    }
  }

  lemma MovedAdvances(stock: map<Sku, Stock>, h: map<Key, Hold>, m: Move)
    ensures var stock' := Moved(stock, h, m);
            forall s | s in stock :: stock'[s] == stock[s] || stock[s].version < stock'[s].version
  {
    forall s | s in stock && Touches(h.Keys, s) == 0
      ensures Moved(stock, h, m)[s] == stock[s]
    {
      NothingTouched(h, s);
    }
  }

  lemma {:induction false} FreshRows(l: Ledger, o: OrderId, lines: seq<Line>)
    ensures forall k | k in Fresh(l, o, lines) ::
              k.0 == o && k !in l.holds && exists i | 0 <= i < |lines| ::
                  lines[i].0 == k.1
                  && Fresh(l, o, lines)[k] == Hold(lines[i].1, Held)
    ensures forall i | 0 <= i < |lines| && (o, lines[i].0) !in l.holds :: (o, lines[i].0) in Fresh(l, o, lines)
  {
    if lines != [] {
      var n := |lines| - 1;
      FreshRows(l, o, lines[..n]);
      forall k | k in Fresh(l, o, lines)
        ensures k.0 == o && k !in l.holds
        ensures exists i | 0 <= i < |lines| :: lines[i].0 == k.1 && Fresh(l, o, lines)[k] == Hold(lines[i].1, Held)
      {
        if k == (o, lines[n].0) && k !in l.holds {
          assert Fresh(l, o, lines)[k] == Hold(lines[n].1, Held);
        } else {
          var i :| 0 <= i < n && lines[..n][i].0 == k.1 && Fresh(l, o, lines[..n])[k] == Hold(lines[..n][i].1, Held);
          assert lines[i].0 == k.1;
        }
      }
      forall i | 0 <= i < |lines| && (o, lines[i].0) !in l.holds
        ensures (o, lines[i].0) in Fresh(l, o, lines)
      {
        if i < n {
          assert lines[..n][i] == lines[i];
        }
      }
    }
  }

  /** A batch adds at most one row per SKU. */
  lemma FreshQty(l: Ledger, o: OrderId, lines: seq<Line>, s: Sku)
    ensures var f := Fresh(l, o, lines);
            Qty(f, s) == if (o, s) in f then f[(o, s)].qty else 0
  {
    FreshRows(l, o, lines);
    OneOrderQty(Fresh(l, o, lines), o, s);
  }

  lemma OneOrderQty(f: map<Key, Hold>, o: OrderId, s: Sku)
    requires forall k | k in f :: k.0 == o
    ensures Qty(f, s) == if (o, s) in f then f[(o, s)].qty else 0
  {
    if (o, s) in f {
      QtyRemove(f, (o, s), s);
      assert (set k | k in (f - {(o, s)}).Keys && k.1 == s) == {};
      NothingTouched(f - {(o, s)}, s);
    } else {
      assert (set k | k in f.Keys && k.1 == s) == {};
      NothingTouched(f, s);
    }
  }

  lemma FreshFits(l: Ledger, o: OrderId, lines: seq<Line>)
    requires Valid(l) && Accepts(l, o, lines)
    ensures var f := Fresh(l, o, lines);
            && f.Keys !! l.holds.Keys
            && (forall k | k in f :: f[k].status == Held && f[k].qty > 0 && k.1 in l.stock)
            && (forall s | s in l.stock :: l.stock[s].reserved + Qty(f, s) <= l.stock[s].onHand)
  {
    var f := Fresh(l, o, lines);
    FreshRows(l, o, lines);
    forall k | k in f
      ensures f[k].qty > 0 && k.1 in l.stock && l.stock[k.1].onHand - l.stock[k.1].reserved >= f[k].qty
    {
      var i :| 0 <= i < |lines| && lines[i].0 == k.1 && f[k] == Hold(lines[i].1, Held);
      assert Covered(l, o, lines[i]);
    }
    forall s | s in l.stock
      ensures l.stock[s].reserved + Qty(f, s) <= l.stock[s].onHand
    {
      FreshQty(l, o, lines, s);
    }
  }

  lemma ReserveKeepsValid(l: Ledger, o: OrderId, lines: seq<Line>)
    requires Valid(l)
    ensures Valid(Reserve(l, o, lines)) && VersionsAdvance(l, Reserve(l, o, lines))
    ensures forall s | s in l.stock :: Accounted(Reserve(l, o, lines), s) == Accounted(l, s)
  {
    if Accepts(l, o, lines) {
      FreshFits(l, o, lines);
      PlaceKeepsValid(l, Fresh(l, o, lines));
    }
  }

  /** All or nothing: an accepted batch leaves the order holding every line at its quantity. */
  lemma ReserveHoldsEveryLine(l: Ledger, o: OrderId, lines: seq<Line>)
    ensures var l' := Reserve(l, o, lines);
            if Accepts(l, o, lines)
            then forall i | 0 <= i < |lines| ::
                   (o, lines[i].0) in l'.holds && l'.holds[(o, lines[i].0)].qty == lines[i].1
            else l' == l
  {
    if Accepts(l, o, lines) {
      var f := Fresh(l, o, lines);
      FreshRows(l, o, lines);
      forall i | 0 <= i < |lines| && (o, lines[i].0) !in l.holds
        ensures (o, lines[i].0) in f && f[(o, lines[i].0)].qty == lines[i].1
      {
        var j :| 0 <= j < |lines| && lines[j].0 == lines[i].0 && f[(o, lines[i].0)] == Hold(lines[j].1, Held);
        assert i == j;
      }
      assert forall i | 0 <= i < |lines| :: Covered(l, o, lines[i]);
    }
  }

  // ---------------------------------------------------------------- batches in SKU order

  predicate Ascending(lines: seq<Line>)
  {
    forall i, j | 0 <= i < j < |lines| :: lines[i].0 <= lines[j].0
  }

  lemma {:induction false} InsertKeepsLines(x: Line, ordered: seq<Line>)
    ensures multiset(InsertLine(x, ordered)) == multiset(ordered) + multiset{x}
    ensures forall y | y in InsertLine(x, ordered) :: y == x || y in ordered
  {
    if ordered != [] && ordered[0].0 < x.0 {
      InsertKeepsLines(x, ordered[1..]);
      assert ordered == [ordered[0]] + ordered[1..];
    }
  }

  lemma {:induction false} InsertSorts(x: Line, ordered: seq<Line>)
    requires Ascending(ordered)
    ensures Ascending(InsertLine(x, ordered))
  {
    if ordered != [] && ordered[0].0 < x.0 {
      var rest := ordered[1..];
      InsertSorts(x, rest);
      InsertKeepsLines(x, rest);
      PrependSorts(ordered[0], InsertLine(x, rest));
    }
  }

  lemma PrependSorts(x: Line, ordered: seq<Line>)
    requires Ascending(ordered) && forall y | y in ordered :: x.0 <= y.0
    ensures Ascending([x] + ordered)
  {
  }

  lemma SameLines(a: seq<Line>, b: seq<Line>)
    requires multiset(a) == multiset(b)
    ensures |a| == |b| && forall x :: x in a <==> x in b
  {
    assert |multiset(a)| == |multiset(b)|;
    forall x ensures x in a <==> x in b {
      assert x in a <==> x in multiset(a);
      assert x in b <==> x in multiset(b);
    }
  }

  /** The working order is the batch itself, sorted. */
  lemma {:induction false} BySkuSorts(lines: seq<Line>)
    ensures Ascending(BySku(lines)) && multiset(BySku(lines)) == multiset(lines) && |BySku(lines)| == |lines|
    ensures forall x :: x in BySku(lines) <==> x in lines
  {
    if lines != [] {
      var rest := BySku(lines[1..]);
      BySkuSorts(lines[1..]);
      InsertSorts(lines[0], rest);
      InsertKeepsLines(lines[0], rest);
      hide Ascending, InsertLine;
      assert lines == [lines[0]] + lines[1..];
    }
    SameLines(BySku(lines), lines);
  }

  lemma {:induction false} InsertKeepsDistinct(x: Line, ordered: seq<Line>)
    requires DistinctSkus(ordered) && forall y | y in ordered :: y.0 != x.0
    ensures DistinctSkus(InsertLine(x, ordered))
    ensures forall y :: y in InsertLine(x, ordered) <==> y == x || y in ordered
  {
    if ordered != [] && ordered[0].0 < x.0 {
      var rest := ordered[1..];
      assert ordered == [ordered[0]] + rest;
      InsertKeepsDistinct(x, rest);
      forall y | y in InsertLine(x, rest) ensures y.0 != ordered[0].0 {
        if y != x {
          var i :| 0 <= i < |rest| && rest[i] == y;
          assert ordered[i + 1] == y;
        }
      }
    }
  }

  lemma {:induction false} BySkuKeepsDistinct(lines: seq<Line>)
    requires DistinctSkus(lines)
    ensures DistinctSkus(BySku(lines))
  {
    if lines != [] {
      BySkuKeepsDistinct(lines[1..]);
      BySkuSorts(lines[1..]);
      forall y | y in BySku(lines[1..]) ensures y.0 != lines[0].0 {
        var i :| 0 <= i < |lines[1..]| && lines[1..][i] == y;
        assert lines[i + 1] == y;
      }
      InsertKeepsDistinct(lines[0], BySku(lines[1..]));
    }
  }

  lemma BySkuKeepsWellFormed(lines: seq<Line>)
    requires WellFormed(lines)
    ensures WellFormed(BySku(lines))
  {
    BySkuKeepsDistinct(lines);
    BySkuSorts(lines);
    forall i | 0 <= i < |BySku(lines)| ensures BySku(lines)[i].1 > 0 {
      assert BySku(lines)[i] in lines;
    }
  }

  lemma {:induction false} ServedIs(l: Ledger, o: OrderId, ordered: seq<Line>)
    ensures Served(l, o, ordered) <= |ordered|
    ensures forall i | 0 <= i < Served(l, o, ordered) :: Covered(l, o, ordered[i])
    ensures Served(l, o, ordered) < |ordered| ==> !Covered(l, o, ordered[Served(l, o, ordered)])
  {
    if ordered != [] && Covered(l, o, ordered[0]) {
      ServedIs(l, o, ordered[1..]);
      forall i | 0 <= i < Served(l, o, ordered) ensures Covered(l, o, ordered[i]) {
        assert i > 0 ==> ordered[i] == ordered[1..][i - 1];
      }
    }
  }

  /** Nothing about a batch depends on the order of its lines, except which line refuses it. */
  lemma AcceptsInAnyOrder(l: Ledger, o: OrderId, lines: seq<Line>)
    requires WellFormed(lines)
    ensures Accepts(l, o, BySku(lines)) <==> Accepts(l, o, lines)
    ensures Accepts(l, o, lines) <==> Served(l, o, BySku(lines)) == |lines|
  {
    var ordered := BySku(lines);
    BySkuKeepsWellFormed(lines);
    BySkuSorts(lines);
    ServedIs(l, o, ordered);
    hide Covered, WellFormed, BySku, Served;
    assert forall i | 0 <= i < |ordered| :: ordered[i] in lines;
    assert forall i | 0 <= i < |lines| :: lines[i] in ordered;
  }

  lemma WellFormedIsDistinct(lines: seq<Line>)
    requires WellFormed(lines)
    ensures DistinctSkus(lines)
  {
  }

  lemma FreshInAnyOrder(l: Ledger, o: OrderId, lines: seq<Line>)
    requires WellFormed(lines)
    ensures Fresh(l, o, BySku(lines)) == Fresh(l, o, lines)
  {
    var ordered := BySku(lines);
    WellFormedIsDistinct(lines);
    BySkuKeepsDistinct(lines);
    BySkuSorts(lines);
    hide Fresh, BySku, DistinctSkus, Ascending, WellFormed;
    var a, b := Fresh(l, o, ordered), Fresh(l, o, lines);
    forall k | k in a ensures k in b && b[k] == a[k] {
      SameRow(l, o, ordered, lines, k);
    }
    forall k | k in b ensures k in a {
      SameRow(l, o, lines, ordered, k);
    }
  }

  lemma SameRow(l: Ledger, o: OrderId, a: seq<Line>, b: seq<Line>, k: Key)
    requires DistinctSkus(b) && (forall x | x in a :: x in b) && k in Fresh(l, o, a)
    ensures k in Fresh(l, o, b) && Fresh(l, o, b)[k] == Fresh(l, o, a)[k]
  {
    FreshRows(l, o, a);
    FreshRows(l, o, b);
    hide Fresh;
    var i :| 0 <= i < |a| && a[i].0 == k.1 && Fresh(l, o, a)[k] == Hold(a[i].1, Held);
    assert a[i] in b;
    var j :| 0 <= j < |b| && b[j] == a[i];
    assert k == (o, b[j].0);
    var n :| 0 <= n < |b| && b[n].0 == k.1 && Fresh(l, o, b)[k] == Hold(b[n].1, Held);
    assert n == j;
  }

  lemma PrefixWellFormed(lines: seq<Line>, n: nat)
    requires WellFormed(lines) && n <= |lines|
    ensures WellFormed(lines[..n])
  {
  }

  /** The lines before the refused one are a batch the ledger accepts. */
  lemma LeadingIsAccepted(l: Ledger, o: OrderId, lines: seq<Line>)
    requires WellFormed(lines)
    ensures Accepts(l, o, Leading(l, o, lines))
  {
    var ordered := BySku(lines);
    BySkuKeepsWellFormed(lines);
    ServedIs(l, o, ordered);
    PrefixWellFormed(ordered, Served(l, o, ordered));
    hide Covered, BySku, Served, WellFormed;
  }

  lemma AttemptedKeepsValid(l: Ledger, o: OrderId, lines: seq<Line>, keeps: bool)
    requires Valid(l)
    ensures Valid(Attempted(l, o, lines, keeps)) && VersionsAdvance(l, Attempted(l, o, lines, keeps))
    ensures forall s | s in l.stock :: Accounted(Attempted(l, o, lines, keeps), s) == Accounted(l, s)
  {
    hide Valid, Accounted, VersionsAdvance, Reserve;
    ReserveKeepsValid(l, o, lines);
    ReserveKeepsValid(l, o, Leading(l, o, lines));
  }

  lemma RowsAdded(l: Ledger, o: OrderId, lines: seq<Line>)
    requires Accepts(l, o, lines)
    ensures Reserve(l, o, lines) == l <==> forall i | 0 <= i < |lines| :: (o, lines[i].0) in l.holds
  {
    var f := Fresh(l, o, lines);
    FreshRows(l, o, lines);
    hide Fresh, Accepts;
    if forall i | 0 <= i < |lines| :: (o, lines[i].0) in l.holds {
      assert f == map[];
      NothingPlaced(l);
    } else {
      var i :| 0 <= i < |lines| && (o, lines[i].0) !in l.holds;
      assert (o, lines[i].0) in Place(l, f).holds;
    }
  }

  lemma NothingPlaced(l: Ledger)
    ensures Place(l, map[]) == l
  {
    var none: map<Key, Hold> := map[];
    assert l.holds + none == l.holds;
    forall s | s in l.stock ensures Moved(l.stock, none, Take)[s] == l.stock[s] {
      assert (set k | k in none.Keys && k.1 == s) == {};
    }
    assert Moved(l.stock, none, Take) == l.stock;
  }

  /**
   All or nothing, exactly when: if returning through the savepoint keeps what was placed, a refused
   well-formed batch leaves the ledger unchanged if and only if the line that refuses it, first in SKU
   order, has a stock row or is held at another quantity, or every line before it was held already.
   */
  lemma RefusedBatchChangesNothingIff(l: Ledger, o: OrderId, lines: seq<Line>)
    requires WellFormed(lines) && !Accepts(l, o, lines)
    ensures var ordered := BySku(lines);
            var n := Served(l, o, ordered);
            && n < |ordered|
            && (Attempted(l, o, lines, true) == l <==>
                  || ordered[n].0 in l.stock
                  || (o, ordered[n].0) in l.holds
                  || forall i | 0 <= i < n :: (o, ordered[i].0) in l.holds)
    ensures Attempted(l, o, lines, false) == l
  {
    var ordered := BySku(lines);
    AcceptsInAnyOrder(l, o, lines);
    BySkuSorts(lines);
    ServedIs(l, o, ordered);
    LeadingIsAccepted(l, o, lines);
    RowsAdded(l, o, Leading(l, o, lines));
    hide Accepts, BySku, Served, WellFormed, Place;
    var n := Served(l, o, ordered);
    assert forall i | 0 <= i < n :: Leading(l, o, lines)[i] == ordered[i];
  }

  /**
   The smallest such batch: a stocked SKU, then one without a stock row. The call is refused and the
   first hold stays.
   */
  lemma RefusedBatchCanKeepALine(o: OrderId, a: Sku, b: Sku, onHand: int, version: int)
    requires a < b && onHand >= 1
    ensures var l := Ledger(map[a := Stock(onHand, 0, version)], map[]);
            var after := Attempted(l, o, [(a, 1), (b, 1)], true);
            && Valid(l) && !Accepts(l, o, [(a, 1), (b, 1)])
            && after.holds == map[(o, a) := Hold(1, Held)] && after.stock[a].reserved == 1
  {
    var l := Ledger(map[a := Stock(onHand, 0, version)], map[]);
    var first, second := (a, 1), (b, 1);
    var lines: seq<Line> := [first, second];
    assert InStatus(l.holds, Held) == map[];
    assert lines[1..] == [second] && lines[1..][1..] == [] && BySku([]) == [];
    assert BySku([second]) == [second] && BySku(lines) == lines;
    assert !Covered(l, o, second) && Covered(l, o, first);
    assert Served(l, o, [second]) == 0 && Served(l, o, lines) == 1;
    assert lines[..1] == [first] && Leading(l, o, lines) == [first];
    OneLinePlaced(l, o, first);
    assert Accepts(l, o, [first]);
  }

  lemma OneLinePlaced(l: Ledger, o: OrderId, line: Line)
    requires l.holds == map[] && line.0 in l.stock
    ensures Place(l, Fresh(l, o, [line])).holds == map[(o, line.0) := Hold(line.1, Held)]
    ensures Place(l, Fresh(l, o, [line])).stock[line.0].reserved == l.stock[line.0].reserved + line.1
  {
    assert [line][..0] == [] && Fresh(l, o, []) == map[];
    assert Fresh(l, o, [line]) == map[(o, line.0) := Hold(line.1, Held)];
    FreshQty(l, o, [line], line.0);
  }

  lemma CommitKeepsValid(l: Ledger, o: OrderId, expected: int)
    requires Valid(l)
    ensures Valid(Commit(l, o, expected)) && VersionsAdvance(l, Commit(l, o, expected))
    ensures forall s | s in l.stock :: Accounted(Commit(l, o, expected), s) == Accounted(l, s)
  {
    ConsumeKeepsValid(l, OrderKeys(l.holds, o, Held));
  }

  // ---------------------------------------------------------------- the merchant's upsert

  predicate UpsertApplies(l: Ledger, sku: Sku, onHand: int, expected: Option<int>)
  {
    && onHand >= 0
    && (if sku in l.stock
        then l.stock[sku].reserved <= onHand && (expected.None? || expected.value == l.stock[sku].version)
        else expected.None?)
  }

  function Upsert(l: Ledger, sku: Sku, onHand: int, expected: Option<int>): Ledger
  {
    if !UpsertApplies(l, sku, onHand, expected) then l
    else if sku !in l.stock then l.(stock := l.stock[sku := Stock(onHand, 0, 1)])
    else
      var r := l.stock[sku];
      l.(stock := l.stock[sku := Stock(onHand, r.reserved, if r.onHand == onHand then r.version else r.version + 1)])
  }

  lemma UpsertKeepsValid(l: Ledger, sku: Sku, onHand: int, expected: Option<int>)
    requires Valid(l)
    ensures var l' := Upsert(l, sku, onHand, expected);
            && Valid(l') && VersionsAdvance(l, l')
            && (forall s | s != sku :: Accounted(l', s) == Accounted(l, s))
            && Accounted(l', sku) - Accounted(l, sku)
               == if UpsertApplies(l, sku, onHand, expected) then onHand - OnHand(l, sku) else 0
  {
    if sku !in l.stock {
      assert (set k | k in InStatus(l.holds, Held).Keys && k.1 == sku) == {};
      NothingTouched(InStatus(l.holds, Held), sku);
    }
  }

  // ---------------------------------------------------------------- runs

  datatype Op =
    | OpReserve(o: OrderId, lines: seq<Line>, keeps: bool)
    | OpRelease(o: OrderId)
    | OpCommit(o: OrderId, expected: int)
    | OpRestock(o: OrderId)
    | OpExpire(due: set<Key>)
    | OpUpsert(sku: Sku, onHand: int, ifMatch: Option<int>)

  ghost function Apply(l: Ledger, op: Op): Ledger
  {
    match op
    case OpReserve(o, lines, keeps) => Attempted(l, o, lines, keeps)
    case OpRelease(o) => Release(l, OrderKeys(l.holds, o, Held))
    case OpCommit(o, expected) => Commit(l, o, expected)
    case OpRestock(o) => Restock(l, OrderKeys(l.holds, o, Committed))
    case OpExpire(due) => Release(l, set k | k in due && k in l.holds && l.holds[k].status == Held)
    case OpUpsert(sku, onHand, ifMatch) => Upsert(l, sku, onHand, ifMatch)
  }

  ghost function Run(l: Ledger, ops: seq<Op>): Ledger
    decreases |ops|
  {
    if ops == [] then l else Run(Apply(l, ops[0]), ops[1..])
  }

  /** The units an operation adds to what the business accounts for: only a merchant's upsert does. */
  ghost function Injected(l: Ledger, op: Op, s: Sku): int
  {
    if op.OpUpsert? && op.sku == s && UpsertApplies(l, op.sku, op.onHand, op.ifMatch)
    then op.onHand - OnHand(l, s) else 0
  }

  ghost function InjectedBy(l: Ledger, ops: seq<Op>, s: Sku): int
    decreases |ops|
  {
    if ops == [] then 0 else Injected(l, ops[0], s) + InjectedBy(Apply(l, ops[0]), ops[1..], s)
  }

  /** A SKU without a stock row has no reservation rows either: its books are empty. */
  lemma NoStockRowNoBooks(l: Ledger, s: Sku)
    requires Valid(l) && s !in l.stock
    ensures Accounted(l, s) == 0
  {
    assert (set k | k in InStatus(l.holds, Committed).Keys && k.1 == s) == {};
    NothingTouched(InStatus(l.holds, Committed), s);
  }

  /** Only a merchant's upsert adds a stock row. */
  lemma StockRowsStay(l: Ledger, op: Op)
    ensures !op.OpUpsert? ==> Apply(l, op).stock.Keys == l.stock.Keys
  {
    hide Accepts, StopsUnstocked, Leading, Fresh, Touches, Qty, OrderKeys;
  }

  lemma ApplyKeepsStocked(l: Ledger, op: Op)
    requires Valid(l)
    ensures Valid(Apply(l, op)) && VersionsAdvance(l, Apply(l, op))
    ensures forall s | s in l.stock :: Accounted(Apply(l, op), s) == Accounted(l, s) + Injected(l, op, s)
    ensures op.OpUpsert? ==> forall s :: Accounted(Apply(l, op), s) == Accounted(l, s) + Injected(l, op, s)
  {
    match op
    case OpReserve(o, lines, keeps) => AttemptedKeepsValid(l, o, lines, keeps);
    case OpRelease(o) => ReleaseKeepsValid(l, OrderKeys(l.holds, o, Held));
    case OpCommit(o, expected) => CommitKeepsValid(l, o, expected);
    case OpRestock(o) => RestockKeepsValid(l, OrderKeys(l.holds, o, Committed));
    case OpExpire(due) => ReleaseKeepsValid(l, set k | k in due && k in l.holds && l.holds[k].status == Held);
    case OpUpsert(sku, onHand, ifMatch) => UpsertKeepsValid(l, sku, onHand, ifMatch);
  }

  /** One operation: the ledger stays valid, and every SKU's books move by exactly what was injected. */
  lemma ApplyKeepsValid(l: Ledger, op: Op)
    requires Valid(l)
    ensures Valid(Apply(l, op)) && VersionsAdvance(l, Apply(l, op))
    ensures forall s :: Accounted(Apply(l, op), s) == Accounted(l, s) + Injected(l, op, s)
  {
    ApplyKeepsStocked(l, op);
    StockRowsStay(l, op);
    hide Valid, Apply, Accounted, VersionsAdvance;
    forall s ensures Accounted(Apply(l, op), s) == Accounted(l, s) + Injected(l, op, s) {
      if s !in l.stock && !op.OpUpsert? {
        NoStockRowNoBooks(l, s);
        NoStockRowNoBooks(Apply(l, op), s);
      }
    }
  }

  /**
   The stock ledger over every run: `reserved` stays the sum of the held rows, between zero and
   `onHand`; what any SKU accounts for, first stocked before the run or during it, changes by exactly what
   its upserts injected; and a row whose version did not move did not change at any point of the run.
   */
  lemma {:induction false} StockLedger(l: Ledger, ops: seq<Op>)
    requires Valid(l)
    ensures Valid(Run(l, ops)) && VersionsAdvance(l, Run(l, ops))
    ensures forall s :: Accounted(Run(l, ops), s) == Accounted(l, s) + InjectedBy(l, ops, s)
    decreases |ops|
  {
    if ops != [] {
      ApplyKeepsValid(l, ops[0]);
      StockLedger(Apply(l, ops[0]), ops[1..]);
    }
  }
}
