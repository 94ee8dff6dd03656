/**
 The reservation lifecycle as the service runs it: guarded row-by-row stock moves inside one
 transaction, each method proved against the ledger transition it stands for.
 */
module InventoryService {
  import opened Options
  import opened Inventory

  datatype ReserveResult =
    | Placed
    | Invalid(sku: Sku)
    | Conflict(sku: Sku)
    | Rejected(sku: Sku)

  /**
   How one attempt of the batch ended. A race, a contradiction and a short line raise through its savepoint;
   a missing stock row returns through it, with the lines placed so far.
   */
  datatype Attempt =
    | Clean(ledger: Ledger)
    | Raced
    | Contradicted(at: nat)
    | Short(at: nat)
    | NoStockRow(at: nat, ledger: Ledger)

  /** Line `at` is the first the ledger cannot serve. */
  predicate FirstRefused(l: Ledger, o: OrderId, lines: seq<Line>, at: nat)
  {
    at < |lines| && !Covered(l, o, lines[at]) && forall j | 0 <= j < at :: Covered(l, o, lines[j])
  }

  /** The SKU whose line, first in SKU order, refuses the batch. */
  predicate Refuser(l: Ledger, o: OrderId, lines: seq<Line>, sku: Sku)
  {
    var ordered := BySku(lines);
    Served(l, o, ordered) < |ordered| && ordered[Served(l, o, ordered)].0 == sku
  }

  /** There is one first refused line. */
  lemma FirstRefusedIsServed(l: Ledger, o: OrderId, ordered: seq<Line>, at: nat)
    requires FirstRefused(l, o, ordered, at)
    ensures at == Served(l, o, ordered)
  {
    ServedIs(l, o, ordered);
    hide Served;
  }

  // ---------------------------------------------------------------- one more row

  lemma MovedOneMore(stock: map<Sku, Stock>, h: map<Key, Hold>, k: Key, row: Hold, m: Move)
    requires k !in h && k.1 in stock
    ensures var before := Moved(stock, h, m);
            Moved(stock, h[k := row], m) == before[k.1 := Shift(before[k.1], m, row.qty, 1)]
  {
    forall s | s in stock
      ensures Qty(h[k := row], s) == Qty(h, s) + if s == k.1 then row.qty else 0
      ensures Touches(h[k := row].Keys, s) == Touches(h.Keys, s) + if s == k.1 then 1 else 0
    {
      RowOneMore(h, k, row, s);
    }
  }

  lemma RowOneMore(h: map<Key, Hold>, k: Key, row: Hold, s: Sku)
    requires k !in h
    ensures Qty(h[k := row], s) == Qty(h, s) + if s == k.1 then row.qty else 0
    ensures Touches(h[k := row].Keys, s) == Touches(h.Keys, s) + if s == k.1 then 1 else 0
  {
    QtyRemove(h[k := row], k, s);
    assert h[k := row] - {k} == h;
    TouchesOneMore(h.Keys, k, s);
    assert h[k := row].Keys == h.Keys + {k};
  }

  lemma TouchesOneMore(ks: set<Key>, k: Key, s: Sku)
    requires k !in ks
    ensures Touches(ks + {k}, s) == Touches(ks, s) + if s == k.1 then 1 else 0
  {
    var on := set j | j in ks && j.1 == s;
    assert (set j | j in ks + {k} && j.1 == s) == if s == k.1 then on + {k} else on;
  }

  /** The held rows still to be worked always fit under `reserved`, so the guarded update matches its row. */
  lemma HeldCovers(l: Ledger, ks: set<Key>, k: Key)
    requires Valid(l) && k !in ks && k in l.holds
    requires forall j | j in ks + {k} :: j in l.holds && l.holds[j].status == Held
    ensures Qty(Restrict(l.holds, ks), k.1) + l.holds[k].qty <= l.stock[k.1].reserved
  {
    var held := InStatus(l.holds, Held);
    QtySplit(held, ks + {k}, k.1);
    QtyNonNegative(held - (ks + {k}), k.1);
    assert Restrict(held, ks + {k}) == Restrict(l.holds, ks + {k});
    QtyRemove(Restrict(l.holds, ks + {k}), k, k.1);
    assert Restrict(l.holds, ks + {k}) - {k} == Restrict(l.holds, ks);
  }

  lemma FreshOneMore(l: Ledger, o: OrderId, lines: seq<Line>, i: int)
    requires DistinctSkus(lines) && 0 <= i < |lines|
    ensures var before := Fresh(l, o, lines[..i]);
            var k := (o, lines[i].0);
            && k !in before
            && Fresh(l, o, lines[..i + 1]) == if k in l.holds then before else before[k := Hold(lines[i].1, Held)]
  {
    assert lines[..i + 1][..i] == lines[..i];
    FreshRows(l, o, lines[..i]);
  }

  /** One more row of a guarded batch: the guard matches, and the stock rows advance by that row. */
  lemma MoveStep(l: Ledger, done: set<Key>, k: Key, m: Move)
    requires Valid(l) && k !in done && done + {k} <= l.holds.Keys && !m.Take?
    requires !m.Unsell? ==> forall j | j in done + {k} :: l.holds[j].status == Held
    ensures var st := Moved(l.stock, Restrict(l.holds, done), m);
            && k.1 in st
            && (!m.Unsell? ==> l.holds[k].qty <= st[k.1].reserved)
            && (m.Sell? ==> l.holds[k].qty <= st[k.1].onHand)
            && Moved(l.stock, Restrict(l.holds, done + {k}), m) == st[k.1 := Shift(st[k.1], m, l.holds[k].qty, 1)]
  {
    hide Qty;
    if !m.Unsell? {
      HeldCovers(l, done, k);
    }
    MovedOneMore(l.stock, Restrict(l.holds, done), k, l.holds[k], m);
    assert Restrict(l.holds, done)[k := l.holds[k]] == Restrict(l.holds, done + {k});
  }

  /** One more line of a batch: what the line finds, and what placing it adds. */
  lemma PlaceStep(l: Ledger, o: OrderId, lines: seq<Line>, i: int)
    requires DistinctSkus(lines) && 0 <= i < |lines|
    ensures var f, k := Fresh(l, o, lines[..i]), (o, lines[i].0);
            var st := Moved(l.stock, f, Take);
            && st.Keys == l.stock.Keys
            && (k in l.holds ==> Fresh(l, o, lines[..i + 1]) == f)
            && (k !in l.holds && k.1 in l.stock ==>
                  && st[k.1].onHand == l.stock[k.1].onHand && st[k.1].reserved == l.stock[k.1].reserved
                  && Moved(l.stock, Fresh(l, o, lines[..i + 1]), Take) == st[k.1 := Shift(st[k.1], Take, lines[i].1, 1)]
                  && l.holds + Fresh(l, o, lines[..i + 1]) == (l.holds + f)[k := Hold(lines[i].1, Held)])
  {
    hide Qty;
    var f, k := Fresh(l, o, lines[..i]), (o, lines[i].0);
    FreshOneMore(l, o, lines, i);
    FreshQty(l, o, lines[..i], k.1);
    if k !in l.holds && k.1 in l.stock {
      MovedOneMore(l.stock, f, k, Hold(lines[i].1, Held), Take);
    }
  }

  lemma NoLinesNoRows(l: Ledger, o: OrderId)
    ensures Fresh(l, o, []) == map[]
  {
  }

  lemma NothingMoves(l: Ledger, m: Move)
    ensures Restrict(l.holds, {}) == map[] && Moved(l.stock, map[], m) == l.stock
    ensures l.holds - {} == l.holds && WithStatus(l.holds, {}, Committed) == l.holds
  {
  }

  lemma InvalidChangesNothing(l: Ledger, o: OrderId, lines: seq<Line>, keeps: bool)
    requires !WellFormed(lines)
    ensures Attempted(l, o, lines, keeps) == l && !Accepts(l, o, lines)
  {
  }

  /** What an attempt over the sorted lines makes of the batch. */
  lemma SettleAttempt(l: Ledger, o: OrderId, lines: seq<Line>, a: Attempt, keeps: bool)
    requires WellFormed(lines) && !a.Raced?
    requires a.Clean? ==> Accepts(l, o, BySku(lines)) && a.ledger == Place(l, Fresh(l, o, BySku(lines)))
    requires !a.Clean? ==> FirstRefused(l, o, BySku(lines), a.at)
    requires a.Contradicted? ==> (o, BySku(lines)[a.at].0) in l.holds
    requires a.Short? ==> BySku(lines)[a.at].0 in l.stock
    requires a.NoStockRow? ==> Unstocked(l, o, BySku(lines)[a.at])
    requires a.NoStockRow? ==> a.ledger == Place(l, Fresh(l, o, BySku(lines)[..a.at]))
    ensures !a.Clean? ==> a.at < |BySku(lines)|
    ensures a.Clean? <==> Accepts(l, o, lines)
    ensures Attempted(l, o, lines, keeps) == if a.Clean? || (a.NoStockRow? && keeps) then a.ledger else l
    ensures !a.Clean? ==> Refuser(l, o, lines, BySku(lines)[a.at].0)
  {
    hide Fresh, Place, WellFormed, BySku, Covered, Served;
    AcceptsInAnyOrder(l, o, lines);
    BySkuSorts(lines);
    ServedIs(l, o, BySku(lines));
    if a.Clean? {
      FreshInAnyOrder(l, o, lines);
    } else {
      FirstRefusedIsServed(l, o, BySku(lines), a.at);
      LeadingIsAccepted(l, o, lines);
    }
  }

  // ---------------------------------------------------------------- the service

  class Service {
    var stock: map<Sku, Stock>
    var holds: map<Key, Hold>

    ghost function Db(): Ledger
      reads this
    {
      Ledger(stock, holds)
    }

    constructor ()
      ensures Db() == Ledger(map[], map[]) && Valid(Db())
    {
      stock := map[];
      holds := map[];
    }

    /** The service's gate: every quantity positive, every SKU once; the first offender is named. */
    method Validate(lines: seq<Line>) returns (bad: Option<Sku>)
      ensures bad.None? <==> WellFormed(lines)
    {
      var seen: set<Sku> := {};
      for i := 0 to |lines|
        invariant seen == set j | 0 <= j < i :: lines[j].0
        invariant WellFormed(lines[..i])
      {
        if lines[i].1 <= 0 || lines[i].0 in seen {
          return Some(lines[i].0);
        }
        seen := seen + {lines[i].0};
        assert lines[..i + 1] == lines[..i] + [lines[i]];
      }
      assert lines[..|lines|] == lines;
      bad := None;
    }

    /**
     One attempt over the lines, on copies (the attempt's savepoint). Without the look-up the first
     line the order already holds unwinds it; with the look-up such a line is taken as it stands,
     unless its quantity contradicts the request.
     */
    method TryBatch(lines: seq<Line>, o: OrderId, lookUp: bool) returns (a: Attempt)
      requires Valid(Db()) && WellFormed(lines)
      ensures a.Clean? ==> Accepts(Db(), o, lines) && a.ledger == Place(Db(), Fresh(Db(), o, lines))
      ensures a.Raced? ==> !lookUp
      ensures a.Contradicted? || a.Short? || a.NoStockRow? ==> FirstRefused(Db(), o, lines, a.at)
      ensures a.Contradicted? ==> (o, lines[a.at].0) in holds
      ensures a.Short? ==> (o, lines[a.at].0) !in holds && lines[a.at].0 in stock
      ensures a.NoStockRow? ==> Unstocked(Db(), o, lines[a.at])
      ensures a.NoStockRow? ==> a.ledger == Place(Db(), Fresh(Db(), o, lines[..a.at]))
    {
      hide Qty, Moved, Fresh;
      var st, hs := stock, holds;
      ghost var l := Db();
      NothingMoves(l, Take);
      NoLinesNoRows(l, o);
      for i := 0 to |lines|
        invariant st == Moved(l.stock, Fresh(l, o, lines[..i]), Take)
        invariant hs == l.holds + Fresh(l, o, lines[..i])
        invariant forall j | 0 <= j < i :: Covered(l, o, lines[j])
      {
        var sku, qty := lines[i].0, lines[i].1;
        PlaceStep(l, o, lines, i);
        if (o, sku) in holds {
          if !lookUp {
            return Raced;
          }
          if holds[(o, sku)].qty != qty {
            return Contradicted(i);
          }
        } else {
          if sku !in st {
            return NoStockRow(i, Ledger(st, hs));
          }
          if st[sku].onHand - st[sku].reserved < qty {
            return Short(i);
          }
          st := st[sku := Shift(st[sku], Take, qty, 1)];
          hs := hs[(o, sku) := Hold(qty, Held)];
        }
      }
      assert lines[..|lines|] == lines;
      a := Clean(Ledger(st, hs));
    }

    /**
     Hold every line for the order, worked in SKU order. A refusal names the first line the ledger cannot
     serve: held at another quantity, unstocked, or short of free units. It leaves nothing behind, unless
     the SKU has no stock row and returning through the savepoint keeps what was placed (`keeps`).
     */
    method ReserveMany(lines: seq<Line>, o: OrderId, keeps: bool) returns (r: ReserveResult)
      requires Valid(Db())
      modifies this
      ensures Db() == Attempted(old(Db()), o, lines, keeps) && Valid(Db())
      ensures r.Placed? <==> Accepts(old(Db()), o, lines)
      ensures r.Invalid? <==> !WellFormed(lines)
      ensures r.Conflict? || r.Rejected? ==> Refuser(old(Db()), o, lines, r.sku)
      ensures r.Conflict? ==> (o, r.sku) in old(holds)
      ensures r.Rejected? ==> (o, r.sku) !in old(holds)
    {
      hide Attempted, Accepts, WellFormed, Valid, Refuser, FirstRefused, BySku;
      var bad := Validate(lines);
      if bad.Some? {
        InvalidChangesNothing(Db(), o, lines, keeps);
        return Invalid(bad.value);
      }
      var ordered := BySku(lines);
      BySkuKeepsWellFormed(lines);
      AttemptedKeepsValid(Db(), o, lines, keeps);
      var a := TryBatch(ordered, o, false);
      if a.Raced? {
        a := TryBatch(ordered, o, true);
      }
      SettleAttempt(Db(), o, lines, a, keeps);
      match a {
        case Clean(l) =>
          stock, holds := l.stock, l.holds;
          r := Placed;
        case Contradicted(at) => r := Conflict(ordered[at].0);
        case Short(at) => r := Rejected(ordered[at].0);
        case NoStockRow(at, l) =>
          if keeps {
            stock, holds := l.stock, l.holds;
          }
          r := Rejected(ordered[at].0);
      }
    }

    /** Apply one guarded stock update per row; a row the guard refuses would raise and unwind. */
    method MoveStock(ks: set<Key>, m: Move) returns (ok: bool)
      requires Valid(Db()) && ks <= holds.Keys && !m.Take?
      requires !m.Unsell? ==> forall k | k in ks :: holds[k].status == Held
      modifies this`stock
      ensures ok && stock == Moved(old(stock), Restrict(holds, ks), m)
    {
      hide Qty, Moved, Restrict;
      ghost var l := Db();
      var todo, done: set<Key> := ks, {};
      var st := stock;
      NothingMoves(l, m);
      while todo != {}
        invariant todo !! done && todo + done == ks
        invariant st == Moved(l.stock, Restrict(l.holds, done), m)
        decreases |todo|
      {
        var k :| k in todo;
        var row := holds[k];
        MoveStep(l, done, k, m);
        if (!m.Unsell? && st[k.1].reserved < row.qty) || (m.Sell? && st[k.1].onHand < row.qty) {
          return false;
        }
        st := st[k.1 := Shift(st[k.1], m, row.qty, 1)];
        todo, done := todo - {k}, done + {k};
      }
      assert done == ks;
      stock := st;
      ok := true;
    }

    method ReleaseForOrder(o: OrderId) returns (n: nat)
      requires Valid(Db())
      modifies this
      ensures Db() == Release(old(Db()), OrderKeys(old(holds), o, Held)) && Valid(Db())
      ensures n == |OrderKeys(old(holds), o, Held)|
      ensures OrderKeys(holds, o, Held) == {}
      ensures n == 0 ==> Db() == old(Db())
    {
      n := ReleaseRows(OrderKeys(holds, o, Held));
    }

    /** The reaper's pass: at most `batch` of the held rows past their deadline. */
    method ReleaseExpired(due: set<Key>, batch: nat) returns (n: nat, claimed: set<Key>)
      requires Valid(Db())
      modifies this
      ensures n == |claimed| <= batch
      ensures claimed <= due && forall k | k in claimed :: k in old(holds) && old(holds)[k].status == Held
      ensures n < batch ==> forall k | k in due && k in holds :: holds[k].status == Committed
      ensures Db() == Release(old(Db()), claimed) && Valid(Db())
    {
      hide Valid, Moved;
      var rest := set k | k in due && k in holds && holds[k].status == Held;
      claimed := {};
      while |claimed| < batch && rest != {}
        invariant claimed !! rest && |claimed| <= batch
        invariant claimed + rest == set k | k in due && k in holds && holds[k].status == Held
        decreases |rest|
      {
        var k :| k in rest;
        claimed, rest := claimed + {k}, rest - {k};
      }
      n := ReleaseRows(claimed);
    }

    method ReleaseRows(ks: set<Key>) returns (n: nat)
      requires Valid(Db())
      requires forall k | k in ks :: k in holds && holds[k].status == Held
      modifies this
      ensures n == |ks| && Db() == Release(old(Db()), ks) && Valid(Db())
      ensures n == 0 ==> Db() == old(Db())
    {
      hide Qty, Moved;
      ReleaseKeepsValid(Db(), ks);
      if ks == {} {
        NothingMoves(Db(), Unhold);
        return 0;
      }
      var ok := MoveStock(ks, Unhold);
      holds := holds - ks;
      n := |ks|;
    }

    method RestockForOrder(o: OrderId) returns (n: nat)
      requires Valid(Db())
      modifies this
      ensures Db() == Restock(old(Db()), OrderKeys(old(holds), o, Committed)) && Valid(Db())
      ensures n == |OrderKeys(old(holds), o, Committed)|
      ensures OrderKeys(holds, o, Committed) == {}
    {
      var ks := OrderKeys(holds, o, Committed);
      RestockKeepsValid(Db(), ks);
      var ok := MoveStock(ks, Unsell);
      holds := holds - ks;
      n := |ks|;
    }

    /**
     Consume the order's held rows, all or nothing. The answer is the order's committed total after
     the call, so repeating the call gives the same answer and changes nothing.
     */
    method CommitForOrder(o: OrderId, expected: int) returns (n: nat)
      requires Valid(Db())
      modifies this
      ensures Db() == Commit(old(Db()), o, expected) && Valid(Db())
      ensures n == |OrderKeys(holds, o, Committed)|
      ensures n >= expected ==> OrderKeys(holds, o, Held) == {} || OrderKeys(old(holds), o, Held) == {}
      ensures n < expected ==> Db() == old(Db())
    {
      hide Valid, Moved;
      ghost var l := Db();
      CommitKeepsValid(l, o, expected);
      var held := OrderKeys(holds, o, Held);
      var already := |OrderKeys(holds, o, Committed)|;
      if held == {} {
        NothingMoves(l, Sell);
        return already;
      }
      if already + |held| < expected {
        return already;
      }
      var ok := MoveStock(held, Sell);
      holds := WithStatus(holds, held, Committed);
      assert OrderKeys(holds, o, Committed) == OrderKeys(l.holds, o, Committed) + held;
      n := already + |held|;
    }

    /** Seed or re-point a SKU's shelf count; refused when live holds exceed it or the version moved on. */
    method UpsertStock(sku: Sku, onHand: int, ifMatch: Option<int>) returns (applied: bool)
      requires Valid(Db())
      modifies this
      ensures applied <==> UpsertApplies(old(Db()), sku, onHand, ifMatch)
      ensures Db() == Upsert(old(Db()), sku, onHand, ifMatch) && Valid(Db())
    {
      UpsertKeepsValid(Db(), sku, onHand, ifMatch);
      if onHand < 0 {
        return false;
      }
      if sku !in stock {
        if ifMatch.Some? {
          return false;
        }
        stock := stock[sku := Stock(onHand, 0, 1)];
        return true;
      }
      var r := stock[sku];
      if r.reserved > onHand || (ifMatch.Some? && ifMatch.value != r.version) {
        return false;
      }
      stock := stock[sku := Stock(onHand, r.reserved, if r.onHand == onHand then r.version else r.version + 1)];
      applied := true;
    }
  }
}
