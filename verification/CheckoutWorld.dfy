/**
 Every order of the shop over one stock ledger. The per-order protocol and the ledger are each proved
 on their own; here their rows are the same rows, so what holds of one order and what holds of the
 shelf hold together, over every run of every actor on every order.
 */
module CheckoutWorld {
  import opened Options
  import opened Inventory
  import opened Checkout
  import P = Payments
  import Safety = CheckoutSafety

  datatype World = World(ledger: Ledger, orders: map<OrderId, State>)

  datatype Event =
    | Create(order: State)                                       // a checkout inserts its pending order
    | Act(o: OrderId, action: Action)                            // any actor's step on one order
    | Expire(due: set<Key>)                                      // one reaper batch, across orders
    | Stocktake(sku: Sku, onHand: int, ifMatch: Option<int>)     // a merchant's upsert

  /** The ledger's rows of one order. */
  function RowsOf(h: map<Key, Hold>, o: OrderId): map<Key, Hold>
  {
    map k | k in h && k.0 == o :: h[k]
  }

  /** The inventory service's side of a write. */
  ghost function LedgerAfter(l: Ledger, s: State, w: Write): Ledger
  {
    match w
    case Place => Apply(l, OpReserve(s.id, s.lines, false))
    case PlaceFirst(_) => Apply(l, OpReserve(s.id, s.lines, true))
    case Release => Apply(l, OpRelease(s.id))
    case CommitHolds => Apply(l, OpCommit(s.id, |s.lines|))
    case RestockHolds => Apply(l, OpRestock(s.id))
    case UserCancel => if s.status == Pending then Apply(l, OpRelease(s.id)) else l
    case _ => l
  }

  /** The rows a write places are the rows the shelves let the batch place. */
  ghost predicate ShelvesAgree(l: Ledger, s: State, w: Write)
  {
    match w
    case Place => Accepts(l, s.id, s.lines)
    case PlaceFirst(n) => StopsUnstocked(l, s.id, s.lines) && n == Served(l, s.id, BySku(s.lines))
    case _ => true
  }

  /**
   An action on an order is possible as before, and a reservation lands only if the shelves accept it; a
   refused one keeps lines only when it stops at a SKU without a stock row.
   */
  ghost predicate Possible(w: World, e: Event)
  {
    match e
    case Create(s) => Init(s) && s.id !in w.orders
    case Act(o, a) =>
      && o in w.orders && Enabled(w.orders[o], a) && !WriteOf(w.orders[o], a).Reap?
      && ShelvesAgree(w.ledger, w.orders[o], WriteOf(w.orders[o], a))
    case _ => true
  }

  ghost function Happen(w: World, e: Event): World
    requires Possible(w, e)
  {
    match e
    case Create(s) => w.(orders := w.orders[s.id := s])
    case Act(o, a) =>
      World(LedgerAfter(w.ledger, w.orders[o], WriteOf(w.orders[o], a)), w.orders[o := Do(w.orders[o], a)])
    case Expire(due) =>
      World(Apply(w.ledger, OpExpire(due)), map o | o in w.orders :: After(w.orders[o], Reap(due)))
    case Stocktake(sku, onHand, ifMatch) => w.(ledger := Apply(w.ledger, OpUpsert(sku, onHand, ifMatch)))
  }

  ghost predicate Plausible(w: World, run: seq<Event>)
    decreases |run|
  {
    run == [] || (Possible(w, run[0]) && Plausible(Happen(w, run[0]), run[1..]))
  }

  ghost function End(w: World, run: seq<Event>): World
    requires Plausible(w, run)
    decreases |run|
  {
    if run == [] then w else End(Happen(w, run[0]), run[1..])
  }

  ghost function StockedBy(w: World, e: Event, sku: Sku): int
  {
    if e.Stocktake? then Injected(w.ledger, OpUpsert(e.sku, e.onHand, e.ifMatch), sku) else 0
  }

  /** Units merchants added to (or took off) a SKU's books over a run. */
  ghost function Stocked(w: World, run: seq<Event>, sku: Sku): int
    requires Plausible(w, run)
    decreases |run|
  {
    if run == [] then 0 else StockedBy(w, run[0], sku) + Stocked(Happen(w, run[0]), run[1..], sku)
  }

  // ---------------------------------------------------------------- the invariant

  ghost predicate Linked(l: Ledger, o: OrderId, s: State)
  {
    s.id == o && s.holds == RowsOf(l.holds, o)
  }

  ghost predicate WorldInv(w: World)
  {
    && Valid(w.ledger)
    && (forall k | k in w.ledger.holds :: k.0 in w.orders)
    && (forall o | o in w.orders :: Linked(w.ledger, o, w.orders[o]) && Safety.Inv(w.orders[o]))
  }

  lemma {:induction false} FreshIsLocal(a: Ledger, b: Ledger, o: OrderId, lines: seq<Line>)
    requires forall k: Key | k.0 == o :: k in a.holds <==> k in b.holds
    ensures Fresh(a, o, lines) == Fresh(b, o, lines)
  {
    if lines != [] {
      FreshIsLocal(a, b, o, lines[..|lines| - 1]);
    }
  }

  lemma KeysAreLocal(l: Ledger, o: OrderId, st: HoldStatus)
    ensures OrderKeys(RowsOf(l.holds, o), o, st) == OrderKeys(l.holds, o, st)
  {
  }

  lemma DropIsLocal(h: map<Key, Hold>, o: OrderId, ks: set<Key>)
    ensures RowsOf(h - ks, o) == RowsOf(h, o) - ks
    ensures (forall k | k in ks :: k.0 != o) ==> RowsOf(h - ks, o) == RowsOf(h, o)
  {
  }

  lemma TurnIsLocal(h: map<Key, Hold>, o: OrderId, ks: set<Key>)
    ensures RowsOf(WithStatus(h, ks, Committed), o) == WithStatus(RowsOf(h, o), ks, Committed)
    ensures (forall k | k in ks :: k.0 != o) ==> RowsOf(WithStatus(h, ks, Committed), o) == RowsOf(h, o)
  {
  }

  lemma AddIsLocal(h: map<Key, Hold>, o: OrderId, added: map<Key, Hold>)
    ensures (forall k | k in added :: k.0 == o) ==> RowsOf(h + added, o) == RowsOf(h, o) + added
    ensures (forall k | k in added :: k.0 != o) ==> RowsOf(h + added, o) == RowsOf(h, o)
  {
  }

  /** A write moves the order's rows alike on both sides, and nobody else's. */
  lemma PlacedFollows(l: Ledger, s: State, lines: seq<Line>)
    requires Linked(l, s.id, s) && Accepts(l, s.id, lines)
    ensures RowsOf(Reserve(l, s.id, lines).holds, s.id) == Placed(s, lines)
    ensures forall o | o != s.id :: RowsOf(Reserve(l, s.id, lines).holds, o) == RowsOf(l.holds, o)
  {
    hide Fresh, Moved, RowsOf, Accepts;
    var f := Fresh(l, s.id, lines);
    FreshRows(l, s.id, lines);
    SameMembership(l, s.id);
    FreshIsLocal(l, Ledger(map[], s.holds), s.id, lines);
    AddIsLocal(l.holds, s.id, f);
    forall o | o != s.id ensures RowsOf(l.holds + f, o) == RowsOf(l.holds, o) {
      AddIsLocal(l.holds, o, f);
    }
  }

  lemma PlaceFollows(l: Ledger, s: State, w: Write)
    requires Linked(l, s.id, s) && (w == Place || w.PlaceFirst?) && ShelvesAgree(l, s, w)
    ensures Linked(LedgerAfter(l, s, w), s.id, After(s, w))
    ensures forall o | o != s.id :: RowsOf(LedgerAfter(l, s, w).holds, o) == RowsOf(l.holds, o)
  {
    hide Fresh, RowsOf, Accepts, Reserve, Placed, BySku, Served;
    if w == Place {
      PlacedFollows(l, s, s.lines);
    } else {
      ServedIs(l, s.id, BySku(s.lines));
      LeadingIsAccepted(l, s.id, s.lines);
      PlacedFollows(l, s, Leading(l, s.id, s.lines));
    }
  }

  lemma SameMembership(l: Ledger, o: OrderId)
    ensures forall k: Key | k.0 == o :: k in l.holds <==> k in RowsOf(l.holds, o)
  {
  }

  lemma ReleaseFollows(l: Ledger, s: State)
    requires Linked(l, s.id, s)
    ensures RowsOf(Apply(l, OpRelease(s.id)).holds, s.id) == s.holds - HeldKeys(s)
    ensures forall o | o != s.id :: RowsOf(Apply(l, OpRelease(s.id)).holds, o) == RowsOf(l.holds, o)
  {
    hide Moved, RowsOf;
    var ks := OrderKeys(l.holds, s.id, Held);
    KeysAreLocal(l, s.id, Held);
    DropIsLocal(l.holds, s.id, ks);
    forall o | o != s.id ensures RowsOf(l.holds - ks, o) == RowsOf(l.holds, o) {
      DropIsLocal(l.holds, o, ks);
    }
  }

  lemma RestockFollows(l: Ledger, s: State)
    requires Linked(l, s.id, s)
    ensures Linked(LedgerAfter(l, s, RestockHolds), s.id, After(s, RestockHolds))
    ensures forall o | o != s.id :: RowsOf(LedgerAfter(l, s, RestockHolds).holds, o) == RowsOf(l.holds, o)
  {
    hide Moved, RowsOf;
    var ks := OrderKeys(l.holds, s.id, Committed);
    KeysAreLocal(l, s.id, Committed);
    DropIsLocal(l.holds, s.id, ks);
    forall o | o != s.id ensures RowsOf(l.holds - ks, o) == RowsOf(l.holds, o) {
      DropIsLocal(l.holds, o, ks);
    }
  }

  lemma CommitFollows(l: Ledger, s: State)
    requires Linked(l, s.id, s)
    ensures Linked(LedgerAfter(l, s, CommitHolds), s.id, After(s, CommitHolds))
    ensures forall o | o != s.id :: RowsOf(LedgerAfter(l, s, CommitHolds).holds, o) == RowsOf(l.holds, o)
  {
    hide Moved, RowsOf, WithStatus;
    var ks := OrderKeys(l.holds, s.id, Held);
    KeysAreLocal(l, s.id, Held);
    KeysAreLocal(l, s.id, Committed);
    TurnIsLocal(l.holds, s.id, ks);
    forall o | o != s.id ensures RowsOf(WithStatus(l.holds, ks, Committed), o) == RowsOf(l.holds, o) {
      TurnIsLocal(l.holds, o, ks);
    }
  }

  lemma UserCancelFollows(l: Ledger, s: State)
    requires Linked(l, s.id, s)
    ensures Linked(LedgerAfter(l, s, UserCancel), s.id, After(s, UserCancel))
    ensures forall o | o != s.id :: RowsOf(LedgerAfter(l, s, UserCancel).holds, o) == RowsOf(l.holds, o)
  {
    hide Apply, RowsOf, HasRefundMarker, OrderKeys;
    ReleaseFollows(l, s);
  }

  lemma WriteFollows(l: Ledger, s: State, w: Write)
    requires Linked(l, s.id, s) && !w.Reap? && ShelvesAgree(l, s, w)
    ensures Linked(LedgerAfter(l, s, w), s.id, After(s, w))
    ensures forall o | o != s.id :: RowsOf(LedgerAfter(l, s, w).holds, o) == RowsOf(l.holds, o)
  {
    hide Apply, RowsOf, HasRefundMarker, OrderKeys, Accepts, P.Next, ShelvesAgree, Placed, FirstLines;
    match w
    case Place => PlaceFollows(l, s, w);
    case PlaceFirst(_) => PlaceFollows(l, s, w);
    case Release => ReleaseFollows(l, s);
    case CommitHolds => CommitFollows(l, s);
    case RestockHolds => RestockFollows(l, s);
    case UserCancel => UserCancelFollows(l, s);
    case _ =>
  }

  /** The ledger's invariant and its books survive every write. */
  lemma WriteKeepsBooks(l: Ledger, s: State, w: Write)
    requires Valid(l)
    ensures var l' := LedgerAfter(l, s, w);
            Valid(l') && l.stock.Keys <= l'.stock.Keys && forall k :: Accounted(l', k) == Accounted(l, k)
  {
    hide Apply, Valid, Accounted;
    match w
    case Place => ApplyKeepsValid(l, OpReserve(s.id, s.lines, false));
    case PlaceFirst(_) => ApplyKeepsValid(l, OpReserve(s.id, s.lines, true));
    case Release => ApplyKeepsValid(l, OpRelease(s.id));
    case CommitHolds => ApplyKeepsValid(l, OpCommit(s.id, |s.lines|));
    case RestockHolds => ApplyKeepsValid(l, OpRestock(s.id));
    case UserCancel => ApplyKeepsValid(l, OpRelease(s.id));
    case _ =>
  }

  lemma DoWrites(s: State, a: Action)
    requires Enabled(s, a)
    ensures Do(s, a) == After(s, WriteOf(s, a)).(frames := Do(s, a).frames)
  {
    assert After(s, Nothing) == s;
    hide Step, After, Handler, MayStart, EnvMay, ChoiceOk;
  }

  lemma DoKeepsIdentity(s: State, a: Action)
    requires Safety.Inv(s) && Enabled(s, a)
    ensures Safety.Inv(Do(s, a)) && Do(s, a).id == s.id && Do(s, a).holds == After(s, WriteOf(s, a)).holds
  {
    hide Safety.Inv, Enabled, Do, After, WriteOf;
    Safety.DoKeepsInv(s, a);
    DoWrites(s, a);
    Safety.SameOrder(s, WriteOf(s, a));
  }

  /** Rows that appear in the ledger belong to some order. */
  lemma OwnersKnown(l: Ledger, l': Ledger, o: OrderId, orders: set<OrderId>)
    requires forall k | k in l.holds :: k.0 in orders
    requires o in orders && forall p | p != o :: RowsOf(l'.holds, p) == RowsOf(l.holds, p)
    ensures forall k | k in l'.holds :: k.0 in orders
  {
    forall k | k in l'.holds ensures k.0 in orders {
      if k.0 != o {
        assert k in RowsOf(l'.holds, k.0);
        assert k in RowsOf(l.holds, k.0);
      }
    }
  }

  lemma ActKeepsWorld(w: World, o: OrderId, a: Action)
    requires WorldInv(w) && Possible(w, Act(o, a))
    ensures WorldInv(Happen(w, Act(o, a)))
  {
    hide Do, Enabled, WriteOf, LedgerAfter, After, Valid, Safety.Inv, RowsOf, ShelvesAgree;
    var s := w.orders[o];
    var write := WriteOf(s, a);
    WriteFollows(w.ledger, s, write);
    WriteKeepsBooks(w.ledger, s, write);
    DoKeepsIdentity(s, a);
    OwnersKnown(w.ledger, LedgerAfter(w.ledger, s, write), o, w.orders.Keys);
  }

  lemma ExpireIsLocal(h: map<Key, Hold>, o: OrderId, due: set<Key>)
    ensures RowsOf(h - (set k | k in due && k in h && h[k].status == Held), o)
         == RowsOf(h, o) - (due * OrderKeys(RowsOf(h, o), o, Held))
  {
  }

  lemma ExpireKeepsWorld(w: World, due: set<Key>)
    requires WorldInv(w)
    ensures WorldInv(Happen(w, Expire(due)))
  {
    hide Valid, Safety.Inv, RowsOf, Moved;
    var w' := Happen(w, Expire(due));
    ApplyKeepsValid(w.ledger, OpExpire(due));
    forall o | o in w'.orders ensures Linked(w'.ledger, o, w'.orders[o]) && Safety.Inv(w'.orders[o]) {
      ExpireIsLocal(w.ledger.holds, o, due);
      ReapKeepsInv(w.orders[o], due);
    }
  }

  lemma ReapKeepsInv(s: State, due: set<Key>)
    requires Safety.Inv(s)
    ensures Safety.Inv(After(s, Reap(due)))
  {
    hide Safety.Inv;
    Safety.WriteKeepsInv(s, Reap(due));
  }

  lemma CreateKeepsWorld(w: World, s: State)
    requires WorldInv(w) && Possible(w, Create(s))
    ensures WorldInv(Happen(w, Create(s)))
  {
    hide Valid, Safety.Inv;
    Safety.InitOk(s);
    assert RowsOf(w.ledger.holds, s.id) == map[];
  }

  lemma StocktakeKeepsWorld(w: World, sku: Sku, onHand: int, ifMatch: Option<int>)
    requires WorldInv(w)
    ensures WorldInv(Happen(w, Stocktake(sku, onHand, ifMatch)))
  {
    hide Valid, Safety.Inv, RowsOf;
    ApplyKeepsValid(w.ledger, OpUpsert(sku, onHand, ifMatch));
  }

  lemma HappenKeepsWorld(w: World, e: Event)
    requires WorldInv(w) && Possible(w, e)
    ensures WorldInv(Happen(w, e))
  {
    hide WorldInv, Apply, Do, After, LedgerAfter;
    match e
    case Create(s) => CreateKeepsWorld(w, s);
    case Act(o, a) => ActKeepsWorld(w, o, a);
    case Expire(due) => ExpireKeepsWorld(w, due);
    case Stocktake(sku, onHand, ifMatch) => StocktakeKeepsWorld(w, sku, onHand, ifMatch);
  }

  /** Only a merchant's stocktake changes what a SKU's books account for. */
  lemma HappenKeepsBooks(w: World, e: Event)
    requires Valid(w.ledger) && Possible(w, e)
    ensures w.ledger.stock.Keys <= Happen(w, e).ledger.stock.Keys
    ensures forall k :: Accounted(Happen(w, e).ledger, k) == Accounted(w.ledger, k) + StockedBy(w, e, k)
  {
    hide Valid, Accounted, Apply, After, Do, LedgerAfter;
    match e
    case Create(s) =>
    case Act(o, a) => WriteKeepsBooks(w.ledger, w.orders[o], WriteOf(w.orders[o], a));
    case Expire(due) => ApplyKeepsValid(w.ledger, OpExpire(due));
    case Stocktake(sku, onHand, ifMatch) => ApplyKeepsValid(w.ledger, OpUpsert(sku, onHand, ifMatch));
  }

  lemma {:induction false} WorldRun(w: World, run: seq<Event>)
    requires WorldInv(w) && Plausible(w, run)
    ensures WorldInv(End(w, run)) && w.ledger.stock.Keys <= End(w, run).ledger.stock.Keys
    ensures forall k :: Accounted(End(w, run).ledger, k) == Accounted(w.ledger, k) + Stocked(w, run, k)
    decreases |run|
  {
    hide Possible, Happen, Accounted, Linked, Valid, Safety.Inv, StockedBy;
    if run != [] {
      HappenKeepsWorld(w, run[0]);
      HappenKeepsBooks(w, run[0]);
      WorldRun(Happen(w, run[0]), run[1..]);
    }
  }

  // ---------------------------------------------------------------- what the shop relies on

  /** Ledger rows that belong to paid orders. */
  function PaidRows(w: World): map<Key, Hold>
  {
    map k | k in w.ledger.holds && k.0 in w.orders && w.orders[k.0].status == Paid :: w.ledger.holds[k]
  }

  /** Units of `sku` that paid orders own. */
  ghost function Sold(w: World, sku: Sku): int
  {
    Qty(PaidRows(w), sku)
  }

  predicate OpenForBusiness(w: World)
  {
    w.orders == map[] && w.ledger.holds == map[] && forall k | k in w.ledger.stock ::
        w.ledger.stock[k].reserved == 0 && w.ledger.stock[k].onHand >= 0
  }

  lemma OpenIsInv(w: World)
    requires OpenForBusiness(w)
    ensures WorldInv(w)
  {
    assert InStatus(w.ledger.holds, Held) == map[];
  }

  lemma PaidRowsCommitted(w: World)
    requires WorldInv(w)
    ensures forall k | k in PaidRows(w) :: w.ledger.holds[k].status == Committed
  {
    hide Valid;
    forall k | k in PaidRows(w) ensures w.ledger.holds[k].status == Committed {
      var s := w.orders[k.0];
      assert Linked(w.ledger, k.0, s);
      assert k in s.holds && s.holds[k] == w.ledger.holds[k];
      PaidRowCommitted(s, k);
    }
  }

  lemma PaidRowCommitted(s: State, k: Key)
    requires Safety.Inv(s) && s.status == Paid && k in s.holds
    ensures s.holds[k].status == Committed
  {
    hide Safety.MarkersTrue, P.Inv, Safety.FrameOk;
    Safety.AllCommittedHoldsNothing(s);
    assert s.holds[k].status == Held ==> k in HeldKeys(s);
  }

  lemma SoldIsAccounted(w: World, sku: Sku)
    requires WorldInv(w)
    ensures Sold(w, sku) <= Qty(InStatus(w.ledger.holds, Committed), sku)
  {
    var c := InStatus(w.ledger.holds, Committed);
    PaidRowsCommitted(w);
    hide Safety.Inv, Linked;
    PaidRowsOfCommitted(w);
    QtySplit(c, PaidRows(w).Keys, sku);
    QtyNonNegative(c - PaidRows(w).Keys, sku);
  }

  lemma PaidRowsOfCommitted(w: World)
    requires forall k | k in PaidRows(w) :: w.ledger.holds[k].status == Committed
    ensures Restrict(InStatus(w.ledger.holds, Committed), PaidRows(w).Keys) == PaidRows(w)
  {
  }

  /**
   Never oversold, over every run of the shop and for every SKU, stocked before it opened or first stocked
   on the way: what paid orders own plus what is on the shelf never exceeds what merchants put on the
   books; no stock row vanishes; the shelf never goes below what is reserved; and every line
   of every paid order is a consumed ledger row at its own quantity.
   */
  lemma NeverOversold(w: World, run: seq<Event>)
    requires OpenForBusiness(w) && Plausible(w, run)
    ensures var e := End(w, run);
            && (forall k :: OnHand(e.ledger, k) + Sold(e, k) <= OnHand(w.ledger, k) + Stocked(w, run, k))
            && w.ledger.stock.Keys <= e.ledger.stock.Keys
            && (forall k | k in e.ledger.stock :: 0 <= e.ledger.stock[k].reserved <= e.ledger.stock[k].onHand)
            && (forall o | o in e.orders && e.orders[o].status == Paid ::
                  forall i | 0 <= i < |e.orders[o].lines| ::
                    var line := e.orders[o].lines[i];
                    (o, line.0) in e.ledger.holds && e.ledger.holds[(o, line.0)] == Hold(line.1, Committed))
  {
    hide Plausible, End, Stocked;
    OpenIsInv(w);
    WorldRun(w, run);
    var e := End(w, run);
    OpenBooks(w);
    WorldBooks(e);
    hide WorldInv;
    forall o | o in e.orders && e.orders[o].status == Paid
      ensures forall i | 0 <= i < |e.orders[o].lines| ::
                var line := e.orders[o].lines[i];
                (o, line.0) in e.ledger.holds && e.ledger.holds[(o, line.0)] == Hold(line.1, Committed)
    {
      PaidOrderOwnsItsLines(e, o);
    }
  }

  lemma OpenBooks(w: World)
    requires OpenForBusiness(w)
    ensures forall k :: Accounted(w.ledger, k) == OnHand(w.ledger, k)
  {
    assert InStatus(w.ledger.holds, Committed) == map[];
  }

  lemma WorldBooks(w: World)
    requires WorldInv(w)
    ensures forall k :: OnHand(w.ledger, k) + Sold(w, k) <= Accounted(w.ledger, k)
    ensures forall k | k in w.ledger.stock :: 0 <= w.ledger.stock[k].reserved <= w.ledger.stock[k].onHand
  {
    hide Safety.Inv, Linked, Sold, Qty;
    forall k ensures OnHand(w.ledger, k) + Sold(w, k) <= Accounted(w.ledger, k) {
      SoldIsAccounted(w, k);
    }
  }

  lemma PaidOrderOwnsItsLines(w: World, o: OrderId)
    requires WorldInv(w) && o in w.orders && w.orders[o].status == Paid
    ensures forall i | 0 <= i < |w.orders[o].lines| ::
              var line := w.orders[o].lines[i];
              (o, line.0) in w.ledger.holds && w.ledger.holds[(o, line.0)] == Hold(line.1, Committed)
  {
    hide Valid, P.Inv, Safety.HoldsOk, Safety.FrameOk, Safety.MarkersTrue;
    var s := w.orders[o];
    assert Linked(w.ledger, o, s) && Safety.Inv(s);
    assert AllCommitted(s);
  }
}
