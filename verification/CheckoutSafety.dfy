/**
 What every reachable state of an order satisfies, whatever the interleaving of drives, cancels,
 pollers, webhooks, reconcilers, reapers, faults and crashes.
 */
module CheckoutSafety {
  import opened Options
  import opened Inventory
  import opened Checkout
  import P = Payments

  // ---------------------------------------------------------------- the invariant

  /** The order's active rows are its lines, and either none of them or all of them are consumed. */
  ghost predicate HoldsOk(s: State)
  {
    && s.lines != []
    && (forall k | k in s.holds ::
          k.0 == s.id && exists i | 0 <= i < |s.lines| :: s.lines[i].0 == k.1 && s.lines[i].1 == s.holds[k].qty)
    && (NoneCommitted(s) || AllCommitted(s))
    && (s.holds != map[] ==> WellFormed(s.lines))
  }

  /** The refund markers tell the truth about the provider. */
  predicate MarkersTrue(s: State)
  {
    && (Journaled(s, OfRefund, Requested) ==> Took(s))
    && (Journaled(s, OfRefund, Completed) ==> s.account.row == P.Refunded)
    && (Journaled(s, OfRefund, Refused) ==> s.account.refund == P.Refused)
    && (forall i | 0 <= i < |s.journal| && s.journal[i].topic == OfRefund ::
          s.journal[i].note == Requested || s.journal[i].note == Completed || s.journal[i].note == Refused)
  }

  ghost predicate Core(s: State)
  {
    && HoldsOk(s)
    && P.Inv(s.account) && (s.account.row != P.NoRow ==> s.account.amount == s.total)
    && s.placed == (if s.status == Paid then 1 else 0)
    && (s.status == Paid ==> AllCommitted(s) && Took(s))
    && (s.status == Cancelled && s.account.row == P.Succeeded ==> HasRefundMarker(s))
    && MarkersTrue(s)
  }

  predicate Consumed(s: State)
  {
    AllCommitted(s) || s.status == Cancelled
  }

  predicate OutcomeKnown(s: State, d: P.Charge)
  {
    s.account.row != P.NoRow && (d == P.Captured || d == P.Declined ==> s.account.charge == d)
  }

  /** What a frame at a given point relies on; every clause is stable under everyone else's steps. */
  predicate FrameOk(s: State, f: Frame)
  {
    match f
    case DGateway => s.account.row != P.NoRow
    case DApply(d) => OutcomeKnown(s, d)
    case DReRead => s.account.row != P.NoRow
    case DLogOutcome(n, _) =>
      (n == Completed ==> Took(s)) && (n == Completed || n == Failed || n == Unknown || n == Reversed)
    case DLogCommit => Took(s)
    case DCommit => Took(s)
    case DCommitAgain => Took(s)
    case DCommitCheck => Took(s)
    case DLogShortfall => Took(s)
    case DShortStatus => Took(s)
    case DLogCommitted => Took(s) && Consumed(s)
    case DLogMarkPaid => Took(s) && Consumed(s)
    case DFlip => Took(s) && Consumed(s)
    case DReadSettled => Took(s) && s.status != Pending
    case OLogRequested => Took(s) && s.status == Cancelled
    case OReadStatus(_) => Took(s) && s.status == Cancelled
    case ORestock(_) => Took(s) && s.status == Cancelled
    case FRead(who) => Took(s) && (who != Settling ==> s.status == Cancelled)
    case FGateway(who) => Took(s) && (who != Settling ==> s.status == Cancelled)
    case FFlip(who) => Took(s) && s.account.refund == P.Returned && (who != Settling ==> s.status == Cancelled)
    case FReRead(who) => s.account.row == P.Refunded
    case FLogCompleted(_) => s.account.row == P.Refunded
    case FLogRefused(_) => s.account.refund == P.Refused
    case SCommit => Took(s)
    case SLogCommitted => Took(s) && Consumed(s)
    case SLogMarkPaid => Took(s) && Consumed(s)
    case SFlip => Took(s) && Consumed(s)
    case SReadStatus => Took(s)
    case QReadStatus => s.status == Cancelled
    case QRestock => s.status == Cancelled
    case QReadPayment => s.status == Cancelled
    case RLookup => s.account.row != P.NoRow
    case RApply(d) => OutcomeKnown(s, d) && (d == P.Captured || d == P.Declined)
    case RAbandon => s.account.row != P.NoRow
    case _ => true
  }

  ghost predicate Inv(s: State)
  {
    Core(s) && forall id | id in s.frames :: FrameOk(s, s.frames[id])
  }

  // ---------------------------------------------------------------- progress

  /** What no step ever takes back. */
  predicate Progress(s: State, t: State)
  {
    && t.id == s.id && t.lines == s.lines && t.total == s.total
    && (s.status != Pending ==> t.status == s.status)
    && (Took(s) ==> Took(t))
    && (s.account.row == P.Refunded ==> t.account.row == P.Refunded)
    && (s.account.row != P.NoRow ==> t.account.row != P.NoRow)
    && (s.account.charge == P.Captured || s.account.charge == P.Declined ==> t.account.charge == s.account.charge)
    && (s.account.refund != P.NotAsked ==> t.account.refund == s.account.refund)
    && (Consumed(s) ==> Consumed(t))
  }

  lemma FrameOkStable(s: State, t: State, f: Frame)
    requires FrameOk(s, f) && Progress(s, t)
    ensures FrameOk(t, f)
  {
    hide AllCommitted;
  }

  // ---------------------------------------------------------------- writes

  /** What a frame must know before it performs a write. */
  predicate WriteOk(s: State, w: Write)
  {
    match w
    case Log(t, n) =>
      t == OfRefund ==>
        (match n
         case Requested => Took(s)
         case Completed => s.account.row == P.Refunded
         case Refused => s.account.refund == P.Refused
         case _ => false)
    case Place => WellFormed(s.lines)
    case PlaceFirst(_) => WellFormed(s.lines)
    case RestockHolds => s.status == Cancelled
    case Pay(act) => P.Enabled(s.account, act) && !act.ApplySuccess? && (act.Create? ==> act.amount == s.total)
    case PaySucceeded(withRef) => s.account.charge == P.Captured
    case MarkPaid => Took(s) && Consumed(s)
    case _ => true
  }

  lemma RowsAreLines(s: State)
    requires HoldsOk(s)
    ensures s.holds.Keys <= LineKeys(s)
  {
    hide NoneCommitted, AllCommitted, WellFormed;
    forall k | k in s.holds ensures k in LineKeys(s) {
      var i :| 0 <= i < |s.lines| && s.lines[i].0 == k.1 && s.lines[i].1 == s.holds[k].qty;
      assert k == (s.id, s.lines[i].0);
    }
  }

  lemma HeldOrCommitted(h: map<Key, Hold>, o: OrderId)
    requires forall k | k in h :: k.0 == o
    ensures |OrderKeys(h, o, Held)| + |OrderKeys(h, o, Committed)| == |h.Keys|
  {
    assert OrderKeys(h, o, Held) + OrderKeys(h, o, Committed) == h.Keys;
  }

  lemma {:induction false} FewKeys(id: OrderId, lines: seq<Line>)
    ensures |set i | 0 <= i < |lines| :: (id, lines[i].0)| <= |lines|
  {
    if lines != [] {
      var n := |lines| - 1;
      FewKeys(id, lines[..n]);
      var before := set i | 0 <= i < n :: (id, lines[..n][i].0);
      assert (set i | 0 <= i < |lines| :: (id, lines[i].0)) == before + {(id, lines[n].0)} by {
        assert forall i | 0 <= i < n :: lines[..n][i] == lines[i];
      }
    }
  }

  lemma SubsetSize(a: set<Key>, b: set<Key>)
    requires a <= b
    ensures |a| <= |b|
    ensures |a| == |b| ==> a == b
  {
    assert b == a + (b - a);
  }

  lemma FittingRowsAreAllLines(s: State)
    requires HoldsOk(s) && CommitFits(s)
    ensures s.holds.Keys == LineKeys(s)
  {
    hide NoneCommitted, AllCommitted, WellFormed;
    RowsAreLines(s);
    HeldOrCommitted(s.holds, s.id);
    FewKeys(s.id, s.lines);
    SubsetSize(s.holds.Keys, LineKeys(s));
  }

  lemma RowOfLine(s: State, i: nat)
    requires HoldsOk(s) && i < |s.lines| && (s.id, s.lines[i].0) in s.holds
    ensures s.holds[(s.id, s.lines[i].0)].qty == s.lines[i].1
  {
    hide NoneCommitted, AllCommitted;
    var k := (s.id, s.lines[i].0);
    var j :| 0 <= j < |s.lines| && s.lines[j].0 == k.1 && s.lines[j].1 == s.holds[k].qty;
    assert i == j;
  }

  lemma CommittedRow(s: State, i: nat)
    requires HoldsOk(s) && CommitFits(s) && i < |s.lines|
    ensures var h := After(s, CommitHolds).holds;
            (s.id, s.lines[i].0) in h && h[(s.id, s.lines[i].0)] == Hold(s.lines[i].1, Committed)
  {
    var k := (s.id, s.lines[i].0);
    FittingRowsAreAllLines(s);
    hide HoldsOk, CommitFits;
    assert k in LineKeys(s);
    RowOfLine(s, i);
    assert k in HeldKeys(s) || s.holds[k].status == Committed;
  }

  /** A commit that fits consumes every line. */
  lemma CommitConsumesAll(s: State)
    requires HoldsOk(s) && CommitFits(s)
    ensures AllCommitted(After(s, CommitHolds))
  {
    hide HoldsOk, CommitFits;
    forall i | 0 <= i < |s.lines|
      ensures var h := After(s, CommitHolds).holds;
              (s.id, s.lines[i].0) in h && h[(s.id, s.lines[i].0)] == Hold(s.lines[i].1, Committed)
    {
      CommittedRow(s, i);
    }
  }

  predicate SomeLines(s: State, part: seq<Line>)
  {
    forall i | 0 <= i < |part| :: part[i] in s.lines
  }

  lemma PlaceKeepsRows(s: State, part: seq<Line>)
    requires HoldsOk(s) && SomeLines(s, part)
    ensures var h := Placed(s, part);
            forall k | k in h ::
              k.0 == s.id && exists i | 0 <= i < |s.lines| :: s.lines[i].0 == k.1 && s.lines[i].1 == h[k].qty
  {
    hide Fresh, WellFormed, AllCommitted, NoneCommitted;
    FreshRows(Ledger(map[], s.holds), s.id, part);
    var h := Placed(s, part);
    forall k | k in h && k !in s.holds
      ensures exists i | 0 <= i < |s.lines| :: s.lines[i].0 == k.1 && s.lines[i].1 == h[k].qty
    {
      var j :| 0 <= j < |part| && part[j].0 == k.1 && h[k] == Hold(part[j].1, Held);
      assert part[j] in s.lines;
      var i :| 0 <= i < |s.lines| && s.lines[i] == part[j];
    }
  }

  lemma PlaceOnCommitted(s: State, part: seq<Line>)
    requires AllCommitted(s) && SomeLines(s, part)
    ensures Placed(s, part) == s.holds
  {
    var l := Ledger(map[], s.holds);
    FreshRows(l, s.id, part);
    hide Fresh;
    forall j | 0 <= j < |part| ensures (s.id, part[j].0) in s.holds {
      assert part[j] in s.lines;
      var i :| 0 <= i < |s.lines| && s.lines[i] == part[j];
    }
    assert Fresh(l, s.id, part) == map[];
  }

  lemma PlaceOnHeld(s: State, part: seq<Line>)
    requires NoneCommitted(s)
    ensures NoneCommitted(s.(holds := Placed(s, part)))
  {
    FreshRows(Ledger(map[], s.holds), s.id, part);
    hide Fresh;
  }

  /** Placing some of the order's lines, all of them or the first few. */
  lemma PlacedKeepsHolds(s: State, part: seq<Line>)
    requires HoldsOk(s) && WellFormed(s.lines) && SomeLines(s, part)
    ensures var t := s.(holds := Placed(s, part)); HoldsOk(t) && (AllCommitted(s) ==> AllCommitted(t))
  {
    hide AllCommitted, NoneCommitted, WellFormed, Placed, SomeLines;
    var t := s.(holds := Placed(s, part));
    PlaceKeepsRows(s, part);
    if AllCommitted(s) {
      PlaceOnCommitted(s, part);
      SameRows(s, t);
    } else {
      PlaceOnHeld(s, part);
    }
  }

  lemma FirstLinesAreLines(s: State, n: nat)
    ensures SomeLines(s, FirstLines(s, n))
  {
    BySkuSorts(s.lines);
    hide BySku;
    assert forall i | 0 <= i < |BySku(s.lines)| :: BySku(s.lines)[i] in s.lines;
  }

  lemma PlaceKeepsHolds(s: State)
    requires HoldsOk(s) && WellFormed(s.lines)
    ensures HoldsOk(After(s, Place)) && (AllCommitted(s) ==> AllCommitted(After(s, Place)))
  {
    hide HoldsOk, AllCommitted, WellFormed, Placed;
    PlacedKeepsHolds(s, s.lines);
  }

  lemma DropOnCommitted(s: State, gone: set<Key>)
    requires AllCommitted(s) && gone <= HeldKeys(s)
    ensures AllCommitted(s.(holds := s.holds - gone))
  {
    forall i | 0 <= i < |s.lines| ensures (s.id, s.lines[i].0) !in gone {
      assert s.holds[(s.id, s.lines[i].0)].status == Committed;
    }
  }

  lemma DropHeldKeepsHolds(s: State, gone: set<Key>)
    requires HoldsOk(s) && gone <= HeldKeys(s)
    ensures var t := s.(holds := s.holds - gone); HoldsOk(t) && (AllCommitted(s) ==> AllCommitted(t))
  {
    var t := s.(holds := s.holds - gone);
    assert NoneCommitted(s) ==> NoneCommitted(t);
    hide AllCommitted, NoneCommitted, WellFormed;
    if AllCommitted(s) {
      DropOnCommitted(s, gone);
    }
  }

  lemma RestockKeepsHolds(s: State)
    requires HoldsOk(s)
    ensures HoldsOk(After(s, RestockHolds)) && NoneCommitted(After(s, RestockHolds))
  {
  }

  lemma StatusKeepsRows(s: State)
    requires HoldsOk(s) && AllCommitted(After(s, CommitHolds))
    ensures HoldsOk(After(s, CommitHolds))
  {
    hide AllCommitted, NoneCommitted, WellFormed, CommitFits;
    var t := After(s, CommitHolds);
    assert t.holds == s.holds || (t.holds.Keys == s.holds.Keys && forall k | k in s.holds ::
             t.holds[k].qty == s.holds[k].qty);
  }

  lemma CommitKeepsHolds(s: State)
    requires HoldsOk(s)
    ensures HoldsOk(After(s, CommitHolds)) && (AllCommitted(s) ==> AllCommitted(After(s, CommitHolds)))
  {
    hide HoldsOk, AllCommitted, CommitFits;
    if CommitFits(s) {
      CommitConsumesAll(s);
      StatusKeepsRows(s);
    }
  }

  /** Reservation rows: whatever the write, the order's rows stay its lines, all or none consumed. */
  lemma WriteKeepsHolds(s: State, w: Write)
    requires HoldsOk(s) && WriteOk(s, w)
    ensures HoldsOk(After(s, w))
    ensures AllCommitted(s) && !w.RestockHolds? ==> AllCommitted(After(s, w))
  {
    hide HoldsOk, AllCommitted, CommitFits, HasRefundMarker, WellFormed, P.Next, Placed, FirstLines, SomeLines;
    match w
    case Place => PlaceKeepsHolds(s);
    case PlaceFirst(n) =>
      FirstLinesAreLines(s, n);
      PlacedKeepsHolds(s, FirstLines(s, n));
    case Release => DropHeldKeepsHolds(s, HeldKeys(s));
    case CommitHolds => CommitKeepsHolds(s);
    case RestockHolds => RestockKeepsHolds(s);
    case Reap(keys) => DropHeldKeepsHolds(s, keys * HeldKeys(s));
    case UserCancel =>
      DropHeldKeepsHolds(s, HeldKeys(s));
      SameRows(After(s, w), if s.status == Pending then s.(holds := s.holds - HeldKeys(s)) else s);
    case _ => SameRows(s, After(s, w));
  }

  lemma LogKeepsMarkers(s: State, e: Entry)
    requires MarkersTrue(s) && WriteOk(s, Log(e.topic, e.note))
    ensures MarkersTrue(s.(journal := s.journal + [e]))
    ensures HasRefundMarker(s) || e.topic == OfRefund ==> HasRefundMarker(s.(journal := s.journal + [e]))
  {
    var t := s.(journal := s.journal + [e]);
    assert forall x :: x in t.journal <==> x in s.journal || x == e;
    if HasRefundMarker(s) {
      var i :| 0 <= i < |s.journal| && s.journal[i].topic == OfRefund;
      assert t.journal[i].topic == OfRefund;
    }
    if e.topic == OfRefund {
      assert t.journal[|s.journal|].topic == OfRefund;
    }
  }

  lemma RequestKeepsMarkers(s: State)
    requires MarkersTrue(s) && Took(s)
    ensures MarkersTrue(RequestRefundOnce(s)) && HasRefundMarker(RequestRefundOnce(s))
  {
    LogKeepsMarkers(s, Entry(OfRefund, Requested));
  }

  /** A payment step: the account keeps its own invariant, and nothing decided is undone. */
  lemma PayKeepsCore(s: State, act: P.Act)
    requires Core(s) && P.Enabled(s.account, act)
    requires act.Create? ==> act.amount == s.total
    ensures var t := s.(account := P.Next(s.account, act));
            && P.Inv(t.account) && (t.account.row != P.NoRow ==> t.account.amount == t.total)
            && MarkersTrue(t) && Progress(s, t)
            && (t.account.row == P.Succeeded && s.account.row != P.Succeeded ==> act.ApplySuccess?)
  {
    hide HoldsOk, P.HistoryInv;
    P.NextKeepsInv(s.account, act);
  }

  lemma WriteKeepsCore(s: State, w: Write)
    requires Core(s) && WriteOk(s, w)
    ensures Core(After(s, w)) && Progress(s, After(s, w)) && After(s, w).frames == s.frames
  {
    hide HoldsOk, AllCommitted, MarkersTrue, HasRefundMarker, P.Inv;
    WriteKeepsHolds(s, w);
    match w
    case Log(t, n) =>
      LogKeepsMarkers(s, Entry(t, n));
      LogOnly(s, Entry(t, n));
    case Pay(act) => PayOnly(s, act);
    case PaySucceeded(withRef) => SuccessOnly(s, withRef);
    case CancelOrder => CancelOnly(s);
    case UserCancel =>
      if s.status == Pending {
        CancelOnly(s);
        UserCancelOnly(s);
      }
    case MarkPaid => PaidOnly(s);
    case _ => HoldsOnly(s, After(s, w).holds);
  }

  /** A write that only touches reservation rows. */
  lemma HoldsOnly(s: State, h: map<Key, Hold>)
    requires Core(s) && HoldsOk(s.(holds := h))
    requires AllCommitted(s) ==> AllCommitted(s.(holds := h)) || s.status == Cancelled
    ensures Core(s.(holds := h)) && Progress(s, s.(holds := h))
  {
    hide HoldsOk, AllCommitted, P.Inv;
  }

  lemma SameRows(s: State, t: State)
    requires t.id == s.id && t.lines == s.lines && t.holds == s.holds
    ensures AllCommitted(t) == AllCommitted(s) && HoldsOk(t) == HoldsOk(s)
  {
  }

  lemma SameOrder(s: State, w: Write)
    ensures var t := After(s, w); t.id == s.id && t.lines == s.lines && t.total == s.total
  {
    hide HasRefundMarker, CommitFits;
  }

  lemma LogOnly(s: State, e: Entry)
    requires Core(s) && MarkersTrue(s.(journal := s.journal + [e]))
    requires HasRefundMarker(s) ==> HasRefundMarker(s.(journal := s.journal + [e]))
    ensures Core(s.(journal := s.journal + [e])) && Progress(s, s.(journal := s.journal + [e]))
  {
    hide HoldsOk, AllCommitted, P.Inv, MarkersTrue, HasRefundMarker;
    SameRows(s, s.(journal := s.journal + [e]));
  }

  lemma PayOnly(s: State, act: P.Act)
    requires Core(s) && WriteOk(s, Pay(act))
    ensures Core(After(s, Pay(act))) && Progress(s, After(s, Pay(act)))
  {
    hide HoldsOk, AllCommitted, P.Inv, MarkersTrue;
    var t := After(s, Pay(act));
    PayKeepsCore(s, act);
    SameRows(s, t);
    assert HasRefundMarker(t) == HasRefundMarker(s);
  }

  lemma SuccessOnly(s: State, withRef: bool)
    requires Core(s) && s.account.charge == P.Captured
    ensures Core(After(s, PaySucceeded(withRef))) && Progress(s, After(s, PaySucceeded(withRef)))
  {
    hide HoldsOk, AllCommitted, P.Inv, MarkersTrue;
    var paid := s.(account := P.Next(s.account, P.ApplySuccess(withRef)));
    PayKeepsCore(s, P.ApplySuccess(withRef));
    assert HasRefundMarker(paid) == HasRefundMarker(s);
    if s.account.row == P.Pending && s.status == Cancelled {
      RequestKeepsMarkers(paid);
    }
    SameRows(s, After(s, PaySucceeded(withRef)));
  }

  lemma CancelOnly(s: State)
    requires Core(s)
    ensures Core(Cancel(s)) && Progress(s, Cancel(s))
    ensures s.status == Pending ==> Cancel(s).status == Cancelled
  {
    hide HoldsOk, AllCommitted, P.Inv, MarkersTrue;
    SameRows(s, Cancel(s));
    var c := s.(status := Cancelled);
    assert MarkersTrue(s) ==> MarkersTrue(c) by { MarkersIgnoreStatus(s); }
    if s.status == Pending && s.account.row == P.Succeeded {
      RequestKeepsMarkers(c);
    }
  }

  lemma MarkersIgnoreStatus(s: State)
    requires MarkersTrue(s)
    ensures MarkersTrue(s.(status := Cancelled)) && MarkersTrue(s.(status := Paid, placed := s.placed + 1))
  {
  }

  lemma UserCancelOnly(s: State)
    requires Core(s) && s.status == Pending && HoldsOk(After(s, UserCancel))
    requires Core(Cancel(s)) && Progress(s, Cancel(s)) && Cancel(s).status == Cancelled
    ensures Core(After(s, UserCancel)) && Progress(s, After(s, UserCancel))
  {
    hide HoldsOk, AllCommitted, P.Inv, MarkersTrue, HasRefundMarker;
    var c := Cancel(s);
    var r := ReleaseAll(c);
    SameRows(After(s, UserCancel), r);
    HoldsOnly(c, r.holds);
    LogKeepsMarkers(r, Entry(OfCancel, Completed));
    LogOnly(r, Entry(OfCancel, Completed));
  }

  lemma PaidOnly(s: State)
    requires Core(s) && WriteOk(s, MarkPaid)
    ensures Core(After(s, MarkPaid)) && Progress(s, After(s, MarkPaid))
  {
    hide HoldsOk, AllCommitted, P.Inv, MarkersTrue;
    if s.status == Pending {
      MarkersIgnoreStatus(s);
      SameRows(s, After(s, MarkPaid));
    }
  }

  // ---------------------------------------------------------------- frame steps

  lemma DriverStepWriteOk(s: State, f: Frame, c: Choice)
    requires PartOf(f) == Driver
    requires P.Inv(s.account) && FrameOk(s, f) && ChoiceOk(s, f, c)
    ensures WriteOk(s, Step(s, f, c).0)
  {
    hide AllCommitted, CommitFits, P.HistoryInv, WellFormed, Latest, RefundStep, SettleStep;
  }

  lemma RefunderStepWriteOk(s: State, f: Frame, c: Choice)
    requires PartOf(f) == Refunder
    requires P.Inv(s.account) && FrameOk(s, f) && ChoiceOk(s, f, c)
    ensures WriteOk(s, Step(s, f, c).0)
  {
    hide AllCommitted, CommitFits, P.HistoryInv, WellFormed, Latest, DriveStep, SettleStep;
  }

  lemma SettlerStepWriteOk(s: State, f: Frame, c: Choice)
    requires PartOf(f) == Settler
    requires P.Inv(s.account) && FrameOk(s, f) && ChoiceOk(s, f, c)
    ensures WriteOk(s, Step(s, f, c).0)
  {
    hide AllCommitted, CommitFits, P.HistoryInv, WellFormed, Latest, DriveStep, RefundStep;
  }

  /** A frame that knows what it should knows enough for its next write. */
  lemma StepWriteOk(s: State, f: Frame, c: Choice)
    requires P.Inv(s.account) && FrameOk(s, f) && ChoiceOk(s, f, c)
    ensures WriteOk(s, Step(s, f, c).0)
  {
    hide Step, PartOf, FrameOk, P.Inv, WriteOk, ChoiceOk;
    match PartOf(f)
    case Driver => DriverStepWriteOk(s, f, c);
    case Refunder => RefunderStepWriteOk(s, f, c);
    case Settler => SettlerStepWriteOk(s, f, c);
  }

  /** What a drive learns from its payment call and its commit. */
  lemma DriveStepOk(s: State, f: Frame, c: Choice)
    requires Core(s) && FrameOk(s, f) && (f.DCreatePayment? || f.DGateway? || f.DApply? || f.DReRead?
               || f.DCommitCheck? || f.SCommit?)
    requires Step(s, f, c).1.Some?
    ensures FrameOk(After(s, Step(s, f, c).0), Step(s, f, c).1.value)
  {
    hide HoldsOk, AllCommitted, MarkersTrue, HasRefundMarker, P.HistoryInv, CommitFits;
    if (f.DCommitCheck? || f.SCommit?) && CommitFits(s) {
      CommitConsumesAll(s);
    }
  }

  lemma RefundStepOk(s: State, f: Frame, c: Choice)
    requires P.Inv(s.account) && FrameOk(s, f) && (f.FRead? || f.FGateway? || f.FFlip? || f.FReRead?)
    requires Step(s, f, c).1.Some?
    ensures FrameOk(After(s, Step(s, f, c).0), Step(s, f, c).1.value)
  {
    hide AllCommitted, P.HistoryInv;
  }

  lemma DriverPlainStepOk(s: State, f: Frame, c: Choice)
    requires PartOf(f) == Driver
    requires P.MoneyInv(s.account) && FrameOk(s, f)
    requires !(f.DCreatePayment? || f.DGateway? || f.DApply? || f.DReRead? || f.DCommitCheck? || f.SCommit?)
    requires !(f.FRead? || f.FGateway? || f.FFlip? || f.FReRead?)
    requires Step(s, f, c).1.Some?
    ensures FrameOk(s, Step(s, f, c).1.value)
  {
    hide AllCommitted, CommitFits, Latest, P.Next, AfterCharge, AfterRefund, RefundStep, SettleStep;
  }

  lemma RefunderPlainStepOk(s: State, f: Frame, c: Choice)
    requires PartOf(f) == Refunder
    requires P.MoneyInv(s.account) && FrameOk(s, f)
    requires !(f.DCreatePayment? || f.DGateway? || f.DApply? || f.DReRead? || f.DCommitCheck? || f.SCommit?)
    requires !(f.FRead? || f.FGateway? || f.FFlip? || f.FReRead?)
    requires Step(s, f, c).1.Some?
    ensures FrameOk(s, Step(s, f, c).1.value)
  {
    hide AllCommitted, CommitFits, Latest, P.Next, AfterCharge, AfterRefund, DriveStep, SettleStep;
  }

  lemma SettlerPlainStepOk(s: State, f: Frame, c: Choice)
    requires PartOf(f) == Settler
    requires P.MoneyInv(s.account) && FrameOk(s, f)
    requires !(f.DCreatePayment? || f.DGateway? || f.DApply? || f.DReRead? || f.DCommitCheck? || f.SCommit?)
    requires !(f.FRead? || f.FGateway? || f.FFlip? || f.FReRead?)
    requires Step(s, f, c).1.Some?
    ensures FrameOk(s, Step(s, f, c).1.value)
  {
    hide AllCommitted, CommitFits, Latest, P.Next, AfterCharge, AfterRefund, DriveStep, RefundStep;
  }

  /** Steps that only read the order or write its rows: what the next frame relies on is true already. */
  lemma PlainStepOk(s: State, f: Frame, c: Choice)
    requires P.MoneyInv(s.account) && FrameOk(s, f)
    requires !(f.DCreatePayment? || f.DGateway? || f.DApply? || f.DReRead? || f.DCommitCheck? || f.SCommit?)
    requires !(f.FRead? || f.FGateway? || f.FFlip? || f.FReRead?)
    requires Step(s, f, c).1.Some?
    ensures FrameOk(s, Step(s, f, c).1.value)
  {
    hide Step, PartOf, FrameOk, P.MoneyInv;
    match PartOf(f)
    case Driver => DriverPlainStepOk(s, f, c);
    case Refunder => RefunderPlainStepOk(s, f, c);
    case Settler => SettlerPlainStepOk(s, f, c);
  }

  /** ... and enough for the frame it becomes. */
  lemma StepFrameOk(s: State, f: Frame, c: Choice)
    requires Core(s) && FrameOk(s, f) && ChoiceOk(s, f, c)
    requires Progress(s, After(s, Step(s, f, c).0)) && Step(s, f, c).1.Some?
    ensures FrameOk(After(s, Step(s, f, c).0), Step(s, f, c).1.value)
  {
    hide Step, After, FrameOk, Progress, Core;
    if f.DCreatePayment? || f.DGateway? || f.DApply? || f.DReRead? || f.DCommitCheck? || f.SCommit? {
      DriveStepOk(s, f, c);
    } else if f.FRead? || f.FGateway? || f.FFlip? || f.FReRead? {
      CoreHasAccount(s);
      RefundStepOk(s, f, c);
    } else {
      CoreHasAccount(s);
      PlainStepOk(s, f, c);
      FrameOkStable(s, After(s, Step(s, f, c).0), Step(s, f, c).1.value);
    }
  }

  lemma HandlerOk(s: State, f: Frame, silent: bool)
    requires FrameOk(s, f) && Handler(f, silent).Some?
    ensures FrameOk(s, Handler(f, silent).value)
  {
    hide AllCommitted;
  }

  // ---------------------------------------------------------------- whole runs

  lemma EnvWriteOk(s: State, w: Write)
    requires EnvMay(s, w)
    ensures WriteOk(s, w)
  {
  }

  /** One write, made on behalf of a frame, keeps every other frame's footing. */
  lemma WriteKeepsInv(s: State, w: Write)
    requires Inv(s) && WriteOk(s, w)
    ensures Inv(After(s, w)) && Progress(s, After(s, w)) && After(s, w).frames == s.frames
  {
    hide Core, FrameOk, Progress, After, WriteOk;
    WriteKeepsCore(s, w);
    forall id | id in s.frames ensures FrameOk(After(s, w), s.frames[id]) {
      FrameOkStable(s, After(s, w), s.frames[id]);
    }
  }

  lemma FramesOnly(s: State, id: nat, f: Option<Frame>)
    requires Inv(s) && (f.Some? ==> FrameOk(s, f.value))
    ensures Inv(WithFrame(s, id, f))
  {
    hide FrameOk, HoldsOk, P.Inv, Took, HasRefundMarker, AllCommitted, MarkersTrue;
    var t := WithFrame(s, id, f);
    FramesDoNotMatter(s, t);
    forall j | j in t.frames ensures FrameOk(t, t.frames[j]) {
      SameFooting(s, t, t.frames[j]);
    }
  }

  lemma FramesDoNotMatter(s: State, t: State)
    requires t == s.(frames := t.frames)
    ensures Core(t) == Core(s)
  {
    hide P.Inv;
    SameRows(s, t);
  }

  lemma SameFooting(s: State, t: State, f: Frame)
    requires t == s.(frames := t.frames)
    ensures FrameOk(t, f) == FrameOk(s, f)
  {
  }

  lemma StartOk(s: State, f: Frame)
    requires MayStart(s, f)
    ensures FrameOk(s, f)
  {
  }

  lemma RunStepKeepsInv(s: State, id: nat, c: Choice)
    requires Inv(s) && Enabled(s, Run(id, c))
    ensures Inv(Do(s, Run(id, c)))
  {
    hide Core, FrameOk, Progress, After, WriteOk, Step, ChoiceOk;
    var f := s.frames[id];
    CoreHasAccount(s);
    StepWriteOk(s, f, c);
    var (w, next) := Step(s, f, c);
    WriteKeepsInv(s, w);
    if next.Some? {
      StepFrameOk(s, f, c);
    }
    FramesOnly(After(s, w), id, next);
  }

  lemma CoreHasAccount(s: State)
    requires Core(s)
    ensures P.Inv(s.account)
  {
  }

  lemma FailKeepsInv(s: State, id: nat, c: Choice, landed: bool, silent: bool)
    requires Inv(s) && Enabled(s, Fail(id, c, landed, silent))
    ensures Inv(Do(s, Fail(id, c, landed, silent)))
  {
    hide Core, FrameOk, Progress, After, WriteOk, Step, ChoiceOk, Handler;
    var f := s.frames[id];
    CoreHasAccount(s);
    StepWriteOk(s, f, c);
    NothingIsOk(s);
    var w := if landed then Step(s, f, c).0 else Nothing;
    WriteKeepsInv(s, w);
    var next := Handler(f, silent);
    if next.Some? {
      HandlerOk(After(s, w), f, silent);
    }
    FramesOnly(After(s, w), id, next);
  }

  lemma NothingIsOk(s: State)
    ensures WriteOk(s, Nothing)
  {
  }

  lemma DoKeepsInv(s: State, a: Action)
    requires Inv(s) && Enabled(s, a)
    ensures Inv(Do(s, a))
  {
    hide Inv, MayStart, EnvMay, After, Step;
    match a
    case Spawn(id, f) =>
      StartOk(s, f);
      FramesOnly(s, id, Some(f));
    case Run(id, c) => RunStepKeepsInv(s, id, c);
    case Fail(id, c, landed, silent) => FailKeepsInv(s, id, c, landed, silent);
    case Crash(id) => FramesOnly(s, id, None);
    case Env(w) =>
      EnvWriteOk(s, w);
      WriteKeepsInv(s, w);
  }

  lemma InitOk(s: State)
    requires Init(s)
    ensures Inv(s)
  {
    assert P.Announced(P.NEW);
  }

  lemma {:induction false} RunKeepsInv(s: State, run: seq<Action>)
    requires Inv(s) && Legal(s, run)
    ensures Inv(Final(s, run))
    decreases |run|
  {
    hide Inv, Enabled, Do;
    if run != [] {
      DoKeepsInv(s, run[0]);
      RunKeepsInv(Do(s, run[0]), run[1..]);
    }
  }

  // ---------------------------------------------------------------- what the shop relies on

  /**
   Captured money always has an owner: a succeeded payment on a cancelled order has a refund marker in
   the journal, either an intent the poller will claim or the provider's definitive no.
   */
  lemma MoneyHasOwner(s: State, run: seq<Action>)
    requires Init(s) && Legal(s, run)
    ensures var t := Final(s, run);
            t.status == Cancelled && t.account.row == P.Succeeded ==>
              Journaled(t, OfRefund, Requested) || Journaled(t, OfRefund, Refused)
  {
    hide HoldsOk, P.Inv, AllCommitted, Final, Legal;
    InitOk(s);
    RunKeepsInv(s, run);
    var t := Final(s, run);
    if t.status == Cancelled && t.account.row == P.Succeeded {
      var i :| 0 <= i < |t.journal| && t.journal[i].topic == OfRefund;
      assert t.journal[i] == Entry(OfRefund, t.journal[i].note);
    }
  }

  /**
   A paid order consumed every line it sells and its payment reached `succeeded`; every order has
   consumed all of its lines or none of them; and `OrderPlaced` was written once for a paid order and
   never for any other.
   */
  lemma PaidImpliesConsumed(s: State, run: seq<Action>)
    requires Init(s) && Legal(s, run)
    ensures var t := Final(s, run);
            && (t.status == Paid ==>
                AllCommitted(t) && HeldKeys(t) == {} && Took(t)
                && P.Succeeded in t.account.history)
            && (AllCommitted(t) || NoneCommitted(t))
            && t.placed == (if t.status == Paid then 1 else 0)
  {
    hide MarkersTrue, HasRefundMarker, Final, Legal, P.MoneyInv;
    InitOk(s);
    RunKeepsInv(s, run);
    var t := Final(s, run);
    if t.status == Paid {
      AllCommittedHoldsNothing(t);
      TookWentThroughSucceeded(t.account);
    }
  }

  lemma AllCommittedHoldsNothing(s: State)
    requires HoldsOk(s) && AllCommitted(s)
    ensures HeldKeys(s) == {}
  {
    forall k | k in s.holds ensures s.holds[k].status == Committed {
      var i :| 0 <= i < |s.lines| && s.lines[i].0 == k.1 && s.lines[i].1 == s.holds[k].qty;
      assert k == (s.id, s.lines[i].0);
    }
  }

  lemma TookWentThroughSucceeded(a: P.Account)
    requires P.HistoryInv(a) && (a.row == P.Succeeded || a.row == P.Refunded)
    ensures P.Succeeded in a.history
  {
    assert a.history[1] == P.Succeeded;
  }

  /**
   The refund journal tells the truth: `completed` means the row is refunded and the provider holds
   nothing; `refused` means the provider said no and still holds it all, so the two never meet; and an
   intent is only ever opened for money that was taken.
   */
  lemma RefundJournalIsTrue(s: State, run: seq<Action>)
    requires Init(s) && Legal(s, run)
    ensures var t := Final(s, run);
            && (Journaled(t, OfRefund, Completed) ==> t.account.row == P.Refunded && P.Net(t.account) == 0)
            && (Journaled(t, OfRefund, Refused) ==> t.account.row == P.Succeeded && P.Net(t.account) == t.total)
            && !(Journaled(t, OfRefund, Completed) && Journaled(t, OfRefund, Refused))
            && (Journaled(t, OfRefund, Requested) ==> t.account.charge == P.Captured)
  {
    hide HoldsOk, AllCommitted, HasRefundMarker, Final, Legal, P.HistoryInv;
    InitOk(s);
    RunKeepsInv(s, run);
  }
}
