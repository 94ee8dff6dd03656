/**
 The poller as the service runs it: order rows updated one unit of work at a time, and a pass that
 loops over its two claims and counts what became of each order.
 */
module RecoveryPoller {
  import opened Inventory
  import opened Checkout
  import opened Recovery
  import P = Payments
  import Safety = CheckoutSafety

  datatype Counts = Counts(completed: nat, compensated: nat, deferred: nat, refunded: nat, refundFailed: nat)

  function Bump(c: Counts, o: Outcome): Counts
  {
    match o
    case WasCompleted => c.(completed := c.completed + 1)
    case WasCompensated => c.(compensated := c.compensated + 1)
    case WasDeferred => c.(deferred := c.deferred + 1)
    case WasRefunded => c.(refunded := c.refunded + 1)
    case WasRefundFailed => c.(refundFailed := c.refundFailed + 1)
  }

  function CountOf(c: Counts, o: Outcome): nat
  {
    match o
    case WasCompleted => c.completed
    case WasCompensated => c.compensated
    case WasDeferred => c.deferred
    case WasRefunded => c.refunded
    case WasRefundFailed => c.refundFailed
  }

  /** Counters after a list of outcomes. */
  function Counted(c: Counts, report: seq<Outcome>): Counts
  {
    if report == [] then c else Bump(Counted(c, report[..|report| - 1]), report[|report| - 1])
  }

  /** Each counter moves by exactly the number of its outcomes. */
  lemma {:induction false} CountedCounts(c: Counts, report: seq<Outcome>, k: Outcome)
    ensures CountOf(Counted(c, report), k) == CountOf(c, k) + multiset(report)[k]
  {
    if report != [] {
      var n := |report| - 1;
      CountedCounts(c, report[..n], k);
      assert report == report[..n] + [report[n]];
    }
  }

  /** The outcome a refund retry reports. */
  function RetriedOutcome(s: State, grants: bool): Outcome
  {
    if !Took(s) then WasDeferred
    else if Retried(s, grants).account.row == P.Refunded then WasRefunded else WasRefundFailed
  }

  /** A claimed order whose journal shows fresh activity (`busy`) is left to the drive behind it. */
  function Claimed(s: State, busy: bool, grants: bool): State
  {
    if busy then s else Settled(s, grants)
  }

  function ClaimedOutcome(s: State, busy: bool): Outcome
  {
    if busy then WasDeferred else SettledOutcome(s)
  }

  predicate AllIn(ids: seq<OrderId>, orders: map<OrderId, State>)
  {
    forall i | 0 <= i < |ids| :: ids[i] in orders
  }

  predicate Distinct(ids: seq<OrderId>)
  {
    forall i, j | 0 <= i < j < |ids| :: ids[i] != ids[j]
  }

  function SettlingReport(orders: map<OrderId, State>, stuck: seq<OrderId>, busy: set<OrderId>): (r: seq<Outcome>)
    requires AllIn(stuck, orders)
    ensures |r| == |stuck|
  {
    seq(|stuck|, i requires 0 <= i < |stuck| => ClaimedOutcome(orders[stuck[i]], stuck[i] in busy))
  }

  function RetryingReport(orders: map<OrderId, State>, due: seq<OrderId>, granting: set<OrderId>): (r: seq<Outcome>)
    requires AllIn(due, orders)
    ensures |r| == |due|
  {
    seq(|due|, i requires 0 <= i < |due| => RetriedOutcome(orders[due[i]], due[i] in granting))
  }

  lemma LogKeepsAccount(s: State, n: Note)
    ensures After(s, Log(OfRefund, n)).account == s.account
  {
  }

  lemma {:induction false} NotAmongEarlier(ids: seq<OrderId>, n: nat)
    requires Distinct(ids) && n < |ids|
    ensures ids[n] !in ids[..n] && ids[..n + 1] == ids[..n] + [ids[n]]
  {
    assert forall i | 0 <= i < n :: ids[..n][i] == ids[i];
  }

  /** The table once the orders in `ids` were settled. */
  function SettledAll(orders: map<OrderId, State>, ids: seq<OrderId>, busy: set<OrderId>,
      granting: set<OrderId>): map<OrderId, State>
  {
    map o | o in orders :: if o in ids then Claimed(orders[o], o in busy, o in granting) else orders[o]
  }

  /** ... and once the refund intents of the orders in `ids` were retried. */
  function RetriedAll(orders: map<OrderId, State>, ids: seq<OrderId>, granting: set<OrderId>): map<OrderId, State>
  {
    map o | o in orders :: if o in ids then Retried(orders[o], o in granting) else orders[o]
  }

  lemma SettledOneMore(orders: map<OrderId, State>, ids: seq<OrderId>, o: OrderId, busy: set<OrderId>,
      granting: set<OrderId>)
    requires o in orders && o !in ids
    ensures var now := SettledAll(orders, ids, busy, granting);
            && now.Keys == orders.Keys && now[o] == orders[o]
            && now[o := Claimed(orders[o], o in busy, o in granting)] == SettledAll(orders, ids + [o], busy, granting)
  {
    hide Claimed;
  }

  lemma RetriedOneMore(orders: map<OrderId, State>, ids: seq<OrderId>, o: OrderId, granting: set<OrderId>)
    requires o in orders && o !in ids
    ensures var now := RetriedAll(orders, ids, granting);
            && now.Keys == orders.Keys && now[o] == orders[o]
            && now[o := Retried(orders[o], o in granting)] == RetriedAll(orders, ids + [o], granting)
  {
    hide Retried;
  }

  lemma NothingYet(orders: map<OrderId, State>, ids: seq<OrderId>, busy: set<OrderId>, granting: set<OrderId>)
    requires ids == []
    ensures SettledAll(orders, ids, busy, granting) == orders && RetriedAll(orders, ids, granting) == orders
  {
  }

  lemma NothingCounted(start: Counts, report: seq<Outcome>)
    requires report == []
    ensures Counted(start, report) == start
  {
  }

  lemma CountedOneMore(start: Counts, report: seq<Outcome>, n: nat)
    requires n < |report|
    ensures Counted(start, report[..n + 1]) == Bump(Counted(start, report[..n]), report[n])
  {
    assert report[..n + 1][..n] == report[..n];
  }

  // ---------------------------------------------------------------- what the pass leaves behind

  /** Every order is one the protocol can reach. */
  ghost predicate Sound(orders: map<OrderId, State>)
  {
    forall o | o in orders :: Safety.Inv(orders[o])
  }

  /** One claimed stuck order: left alone while a drive is behind it, settled as its payment row demands if not. */
  ghost predicate ClaimRight(s: State, t: State, busy: bool, grants: bool)
  {
    if busy then t == s
    else
      && SettledRight(s, t)
      && (s.account.row == P.Succeeded && s.holds.Keys != LineKeys(s) ==>
            (t.account.row == P.Refunded <==> GivesBack(s.account, grants)))
  }

  /** One claimed refund intent. */
  predicate RetryRight(s: State, t: State, grants: bool)
  {
    IntentClosed(t) && (t.account.row == P.Refunded <==> GivesBack(s.account, grants))
  }

  /** The claimed orders that are in this status now. */
  function Ended(orders: map<OrderId, State>, ids: seq<OrderId>, status: Status): set<OrderId>
  {
    set o | o in ids && o in orders && orders[o].status == status
  }

  /** The claimed intents whose row is refunded now. */
  function GotBack(orders: map<OrderId, State>, ids: seq<OrderId>): set<OrderId>
  {
    set o | o in ids && o in orders && orders[o].account.row == P.Refunded
  }

  /** The claimed intents whose journal says the provider refused. */
  function TurnedDown(orders: map<OrderId, State>, ids: seq<OrderId>): set<OrderId>
  {
    set o | o in ids && o in orders && Journaled(orders[o], OfRefund, Refused)
  }

  lemma ClaimIsRight(s: State, busy: bool, grants: bool)
    requires Safety.Inv(s) && Stuck(s)
    ensures ClaimRight(s, Claimed(s, busy, grants), busy, grants)
    ensures ClaimedOutcome(s, busy) == WasCompleted <==> Claimed(s, busy, grants).status == Paid
    ensures ClaimedOutcome(s, busy) == WasCompensated <==> Claimed(s, busy, grants).status == Cancelled
    ensures ClaimedOutcome(s, busy) == WasDeferred <==> Claimed(s, busy, grants).status == Pending
  {
    hide Safety.Inv, Settled, SettledOutcome, SettledRight;
    if !busy {
      SettlementIsRight(s, grants);
    }
  }

  lemma RetryLogsOnce(s: State, grants: bool)
    requires Took(s) && P.MoneyInv(s.account)
    ensures var t := Retried(s, grants); t.journal == s.journal + [Entry(OfRefund, RefundNote(t))]
  {
    hide OrderKeys;
  }

  /** A retry reports a refund exactly when the row ends refunded, a failure exactly when the refusal is journaled. */
  lemma RetryIsRight(s: State, grants: bool)
    requires Safety.Inv(s) && RefundDue(s)
    ensures RetryRight(s, Retried(s, grants), grants)
    ensures RetriedOutcome(s, grants) == WasRefunded <==> Retried(s, grants).account.row == P.Refunded
    ensures RetriedOutcome(s, grants) == WasRefundFailed <==> Journaled(Retried(s, grants), OfRefund, Refused)
    ensures RetriedOutcome(s, grants) == WasRefunded || RetriedOutcome(s, grants) == WasRefundFailed
  {
    IntentMeansTaken(s);
    RetryClosesIntent(s, grants);
    assert P.MoneyInv(s.account);
    RetryLogsOnce(s, grants);
    hide Safety.Inv, Retried, IntentClosed;
    assert !Journaled(s, OfRefund, Refused);
  }

  /** How often an outcome occurs in a report is how many of the distinct orders it was reported for. */
  lemma {:induction false} OccursPerOrder(ids: seq<OrderId>, report: seq<Outcome>, k: Outcome, them: set<OrderId>)
    requires Distinct(ids) && |report| == |ids|
    requires forall o | o in them :: o in ids
    requires forall i | 0 <= i < |ids| :: ids[i] in them <==> report[i] == k
    ensures multiset(report)[k] == |them|
    decreases |ids|
  {
    if ids == [] {
      assert them == {};
    } else {
      var n := |ids| - 1;
      NotAmongEarlier(ids, n);
      assert ids[..n + 1] == ids;
      assert report == report[..n] + [report[n]];
      assert forall i | 0 <= i < n :: ids[..n][i] == ids[i];
      OccursPerOrder(ids[..n], report[..n], k, them - {ids[n]});
    }
  }

  lemma SettlingCounted(orders: map<OrderId, State>, stuck: seq<OrderId>, busy: set<OrderId>, granting: set<OrderId>,
      start: Counts, k: Outcome, status: Status)
    requires Sound(orders) && AllIn(stuck, orders) && Distinct(stuck)
    requires forall i | 0 <= i < |stuck| :: Stuck(orders[stuck[i]])
    requires (k == WasCompleted && status == Paid) || (k == WasCompensated && status == Cancelled)
               || (k == WasDeferred && status == Pending)
    ensures CountOf(Counted(start, SettlingReport(orders, stuck, busy)), k)
         == CountOf(start, k) + |Ended(SettledAll(orders, stuck, busy, granting), stuck, status)|
  {
    hide Claimed, ClaimedOutcome, Counted, CountOf, Safety.Inv, Stuck, Distinct, ClaimRight;
    var report := SettlingReport(orders, stuck, busy);
    CountedCounts(start, report, k);
    forall i | 0 <= i < |stuck|
      ensures stuck[i] in Ended(SettledAll(orders, stuck, busy, granting), stuck, status) <==> report[i] == k
    {
      ClaimIsRight(orders[stuck[i]], stuck[i] in busy, stuck[i] in granting);
    }
    OccursPerOrder(stuck, report, k, Ended(SettledAll(orders, stuck, busy, granting), stuck, status));
  }

  /** The settling report has no refunds in it, and the retrying report nothing else. */
  lemma SettlingCountsNoRefund(orders: map<OrderId, State>, stuck: seq<OrderId>, busy: set<OrderId>,
      start: Counts, k: Outcome)
    requires AllIn(stuck, orders) && (k == WasRefunded || k == WasRefundFailed)
    ensures CountOf(Counted(start, SettlingReport(orders, stuck, busy)), k) == CountOf(start, k)
  {
    hide Counted, CountOf, CommitFits;
    CountedCounts(start, SettlingReport(orders, stuck, busy), k);
    assert k !in SettlingReport(orders, stuck, busy);
  }

  lemma RetryingCounted(orders: map<OrderId, State>, due: seq<OrderId>, granting: set<OrderId>, start: Counts)
    requires Sound(orders) && AllIn(due, orders) && Distinct(due)
    requires forall i | 0 <= i < |due| :: RefundDue(orders[due[i]])
    ensures var counts := Counted(start, RetryingReport(orders, due, granting));
            var now := RetriedAll(orders, due, granting);
            && counts.refunded == start.refunded + |GotBack(now, due)|
            && counts.refundFailed == start.refundFailed + |TurnedDown(now, due)|
            && counts.completed == start.completed && counts.compensated == start.compensated
            && counts.deferred == start.deferred
  {
    hide Retried, RetriedOutcome, Counted, Safety.Inv, RefundDue, Distinct, RetryRight, Journaled;
    var report := RetryingReport(orders, due, granting);
    var now := RetriedAll(orders, due, granting);
    forall i | 0 <= i < |due|
      ensures due[i] in GotBack(now, due) <==> report[i] == WasRefunded
      ensures due[i] in TurnedDown(now, due) <==> report[i] == WasRefundFailed
      ensures report[i] == WasRefunded || report[i] == WasRefundFailed
    {
      RetryIsRight(orders[due[i]], due[i] in granting);
    }
    forall k ensures CountOf(Counted(start, report), k) == CountOf(start, k) + multiset(report)[k] {
      CountedCounts(start, report, k);
    }
    OccursPerOrder(due, report, WasRefunded, GotBack(now, due));
    OccursPerOrder(due, report, WasRefundFailed, TurnedDown(now, due));
    assert WasCompleted !in report && WasCompensated !in report && WasDeferred !in report;
    assert CountOf(Counted(start, report), WasCompleted) == start.completed;
    assert CountOf(Counted(start, report), WasCompensated) == start.compensated;
    assert CountOf(Counted(start, report), WasDeferred) == start.deferred;
    assert CountOf(Counted(start, report), WasRefunded) == start.refunded + |GotBack(now, due)|;
    assert CountOf(Counted(start, report), WasRefundFailed) == start.refundFailed + |TurnedDown(now, due)|;
  }

  lemma AllSettledRight(orders: map<OrderId, State>, stuck: seq<OrderId>, busy: set<OrderId>, granting: set<OrderId>,
      start: Counts)
    requires Sound(orders) && AllIn(stuck, orders) && Distinct(stuck)
    requires forall i | 0 <= i < |stuck| :: Stuck(orders[stuck[i]])
    ensures var now := SettledAll(orders, stuck, busy, granting);
            var counts := Counted(start, SettlingReport(orders, stuck, busy));
            && now.Keys == orders.Keys && (forall o | o in orders && o !in stuck :: now[o] == orders[o])
            && (forall o | o in stuck :: ClaimRight(orders[o], now[o], o in busy, o in granting))
            && counts.completed == start.completed + |Ended(now, stuck, Paid)|
            && counts.compensated == start.compensated + |Ended(now, stuck, Cancelled)|
            && counts.deferred == start.deferred + |Ended(now, stuck, Pending)|
            && counts.refunded == start.refunded && counts.refundFailed == start.refundFailed
  {
    hide Claimed, ClaimedOutcome, Counted, Safety.Inv, Stuck, Distinct, ClaimRight, Ended, SettlingReport;
    forall o | o in stuck
      ensures ClaimRight(orders[o], SettledAll(orders, stuck, busy, granting)[o], o in busy, o in granting)
    {
      var i :| 0 <= i < |stuck| && stuck[i] == o;
      ClaimIsRight(orders[stuck[i]], o in busy, o in granting);
    }
    SettlingCounted(orders, stuck, busy, granting, start, WasCompleted, Paid);
    SettlingCounted(orders, stuck, busy, granting, start, WasCompensated, Cancelled);
    SettlingCounted(orders, stuck, busy, granting, start, WasDeferred, Pending);
    SettlingCountsNoRefund(orders, stuck, busy, start, WasRefunded);
    SettlingCountsNoRefund(orders, stuck, busy, start, WasRefundFailed);
  }

  lemma AllRetriedRight(orders: map<OrderId, State>, due: seq<OrderId>, granting: set<OrderId>)
    requires Sound(orders) && AllIn(due, orders)
    requires forall i | 0 <= i < |due| :: RefundDue(orders[due[i]])
    ensures var now := RetriedAll(orders, due, granting);
            && now.Keys == orders.Keys && (forall o | o in orders && o !in due :: now[o] == orders[o])
            && (forall o | o in due :: RetryRight(orders[o], now[o], o in granting))
  {
    hide Retried, Safety.Inv, RefundDue, RetryRight;
    forall o | o in due ensures RetryRight(orders[o], RetriedAll(orders, due, granting)[o], o in granting) {
      var i :| 0 <= i < |due| && due[i] == o;
      RetryIsRight(orders[due[i]], o in granting);
    }
  }

  class Poller {
    var orders: map<OrderId, State>

    constructor (orders: map<OrderId, State>)
      ensures this.orders == orders
    {
      this.orders := orders;
    }

    /** One unit of work on one order. */
    method Commit(o: OrderId, w: Write)
      requires o in orders
      modifies this
      ensures orders == old(orders)[o := After(old(orders)[o], w)]
    {
      orders := orders[o := After(orders[o], w)];
    }

    method Refund(o: OrderId, grants: bool) returns (ok: bool)
      requires o in orders
      modifies this
      ensures orders == old(orders)[o := AskRefund(old(orders)[o], grants)]
      ensures ok == (orders[o].account.row == P.Refunded)
    {
      hide After, P.Next;
      if orders[o].account.row == P.Succeeded {
        Commit(o, Pay(P.RefundAtProvider(grants)));
        if orders[o].account.refund == P.Returned {
          Commit(o, Pay(P.ApplyRefund));
        }
      }
      ok := orders[o].account.row == P.Refunded;
    }

    method Compensate(o: OrderId)
      requires o in orders
      modifies this
      ensures orders == old(orders)[o := Compensated(old(orders)[o])]
    {
      hide After;
      Commit(o, Log(OfCompensate, Started));
      Commit(o, Release);
      Commit(o, CancelOrder);
      Commit(o, Log(OfCompensate, Completed));
    }

    method SettleCrashed(o: OrderId, grants: bool) returns (outcome: Outcome)
      requires o in orders && Stuck(orders[o])
      modifies this
      ensures orders == old(orders)[o := Settled(old(orders)[o], grants)]
      ensures outcome == SettledOutcome(old(orders)[o])
    {
      hide After, CommitFits, AskRefund, Compensated;
      var row := orders[o].account.row;
      if row == P.Succeeded {
        var fits := CommitFits(orders[o]);
        Commit(o, CommitHolds);
        if !fits {
          var ok := Refund(o, grants);
          Commit(o, Log(OfRefund, if ok then Completed else Refused));
          Compensate(o);
          return WasCompensated;
        }
        Commit(o, Log(OfCommit, Completed));
        Commit(o, Log(OfMarkPaid, Started));
        Commit(o, MarkPaid);
        Commit(o, Log(OfMarkPaid, Completed));
        return WasCompleted;
      }
      if row == P.Refunded || row == P.NoRow || row == P.Failed {
        Compensate(o);
        return WasCompensated;
      }
      return WasDeferred;
    }

    method RetryJournaledRefund(o: OrderId, grants: bool) returns (outcome: Outcome)
      requires o in orders
      modifies this
      ensures orders == old(orders)[o := Retried(old(orders)[o], grants)]
      ensures outcome == RetriedOutcome(old(orders)[o], grants)
    {
      RestockTouchesRowsOnly(orders[o]);
      hide After, P.Next;
      if orders[o].status == Cancelled {
        Commit(o, RestockHolds);
      }
      if orders[o].account.row == P.Refunded {
        LogKeepsAccount(orders[o], Completed);
        Commit(o, Log(OfRefund, Completed));
        return WasRefunded;
      }
      if orders[o].account.row == P.Succeeded {
        var ok := Refund(o, grants);
        LogKeepsAccount(orders[o], if ok then Completed else Refused);
        Commit(o, Log(OfRefund, if ok then Completed else Refused));
        return if ok then WasRefunded else WasRefundFailed;
      }
      return WasDeferred;
    }

    /** The first claim: settle every stuck order whose journal is quiet. */
    method SettleClaimed(stuck: seq<OrderId>, busy: set<OrderId>, granting: set<OrderId>, start: Counts)
      returns (counts: Counts)
      requires AllIn(stuck, orders) && Distinct(stuck)
      requires Sound(orders) && forall i | 0 <= i < |stuck| :: Stuck(orders[stuck[i]])
      modifies this
      ensures orders == SettledAll(old(orders), stuck, busy, granting)
      ensures orders.Keys == old(orders).Keys
      ensures forall o | o in stuck :: ClaimRight(old(orders)[o], orders[o], o in busy, o in granting)
      ensures forall o | o in orders && o !in stuck :: orders[o] == old(orders)[o]
      ensures counts.completed == start.completed + |Ended(orders, stuck, Paid)|
      ensures counts.compensated == start.compensated + |Ended(orders, stuck, Cancelled)|
      ensures counts.deferred == start.deferred + |Ended(orders, stuck, Pending)|
      ensures counts.refunded == start.refunded && counts.refundFailed == start.refundFailed
    {
      hide Settled, SettledOutcome, Stuck, SettledAll, Distinct, Counted, Bump, Sound, ClaimRight, Ended;
      counts := start;
      var n := 0;
      ghost var before := orders;
      ghost var report := SettlingReport(before, stuck, busy);
      NothingYet(before, stuck[..0], busy, granting);
      assert Counted(start, report[..0]) == start by { NothingCounted(start, report[..0]); }
      while n < |stuck|
        invariant 0 <= n <= |stuck|
        invariant orders == SettledAll(before, stuck[..n], busy, granting)
        invariant counts == Counted(start, report[..n])
      {
        var o := stuck[n];
        NotAmongEarlier(stuck, n);
        SettledOneMore(before, stuck[..n], o, busy, granting);
        CountedOneMore(start, report, n);
        assert stuck[..n + 1] == stuck[..n] + [o];
        if o in busy {
          counts := Bump(counts, WasDeferred);
          assert orders[o := orders[o]] == orders;
        } else {
          var outcome := SettleCrashed(o, o in granting);
          counts := Bump(counts, outcome);
        }
        n := n + 1;
      }
      assert stuck[..n] == stuck && report[..n] == report;
      AllSettledRight(before, stuck, busy, granting, start);
    }

    /** The second claim: retry every open refund intent. */
    method RetryClaimed(due: seq<OrderId>, granting: set<OrderId>, start: Counts) returns (counts: Counts)
      requires AllIn(due, orders) && Distinct(due)
      modifies this
      ensures orders == RetriedAll(old(orders), due, granting)
      ensures counts == Counted(start, RetryingReport(old(orders), due, granting))
    {
      hide Retried, RetriedOutcome, RetriedAll, Distinct, Counted, Bump;
      counts := start;
      var n := 0;
      ghost var before := orders;
      ghost var report := RetryingReport(before, due, granting);
      NothingYet(before, due[..0], {}, granting);
      assert Counted(start, report[..0]) == start by { NothingCounted(start, report[..0]); }
      while n < |due|
        invariant 0 <= n <= |due|
        invariant orders == RetriedAll(before, due[..n], granting)
        invariant counts == Counted(start, report[..n])
      {
        var o := due[n];
        NotAmongEarlier(due, n);
        RetriedOneMore(before, due[..n], o, granting);
        CountedOneMore(start, report, n);
        assert due[..n + 1] == due[..n] + [o];
        var outcome := RetryJournaledRefund(o, o in granting);
        counts := Bump(counts, outcome);
        n := n + 1;
      }
      assert due[..n] == due && report[..n] == report;
    }

    /**
     One pass. A stuck order with a live drive behind it is left exactly as it was; every other stuck order
     is settled as its payment row demands; every refund intent due is closed; no other order is touched;
     and each counter is the number of orders that ended so.
     */
    method RecoverStuck(stuck: seq<OrderId>, busy: set<OrderId>, due: seq<OrderId>, granting: set<OrderId>)
      returns (counts: Counts)
      requires AllIn(stuck, orders) && Distinct(stuck) && AllIn(due, orders) && Distinct(due) && Sound(orders)
      requires forall i | 0 <= i < |stuck| :: Stuck(orders[stuck[i]])
      requires forall i | 0 <= i < |due| :: RefundDue(orders[due[i]])
      modifies this
      ensures orders.Keys == old(orders).Keys
      ensures forall o | o in stuck && o in busy :: orders[o] == old(orders)[o]
      ensures forall o | o in stuck && o !in busy :: SettledRight(old(orders)[o], orders[o])
      ensures forall o | o in stuck && o !in busy && old(orders)[o].account.row == P.Succeeded
                         && old(orders)[o].holds.Keys != LineKeys(old(orders)[o]) ::
                (orders[o].account.row == P.Refunded <==> GivesBack(old(orders)[o].account, o in granting))
      ensures forall o | o in due :: IntentClosed(orders[o])
      ensures forall o | o in due ::
                (orders[o].account.row == P.Refunded <==> GivesBack(old(orders)[o].account, o in granting))
      ensures forall o | o in orders && o !in stuck && o !in due :: orders[o] == old(orders)[o]
      ensures counts.completed == |Ended(orders, stuck, Paid)|
      ensures counts.compensated == |Ended(orders, stuck, Cancelled)|
      ensures counts.deferred == |Ended(orders, stuck, Pending)|
      ensures counts.refunded == |GotBack(orders, due)|
      ensures counts.refundFailed == |TurnedDown(orders, due)|
    {
      hide Settled, Retried, SettledOutcome, RetriedOutcome, Counted, SettledAll, RetriedAll, SettledRight, GivesBack,
          IntentClosed, Journaled, Safety.Inv, GotBack, TurnedDown, LineKeys;
      ghost var before := orders;
      assert forall i | 0 <= i < |due| :: due[i] !in stuck;
      counts := SettleClaimed(stuck, busy, granting, Counts(0, 0, 0, 0, 0));
      ghost var middle, soFar := orders, counts;
      counts := RetryClaimed(due, granting, counts);
      RetryAfterSettling(before, middle, stuck, due, granting, soFar);
    }
  }

  /** The two claims are disjoint, so what the first left is what the second finds. */
  lemma RetryAfterSettling(before: map<OrderId, State>, middle: map<OrderId, State>, stuck: seq<OrderId>,
      due: seq<OrderId>, granting: set<OrderId>, soFar: Counts)
    requires Sound(before) && AllIn(due, before) && Distinct(due) && AllIn(stuck, before)
    requires forall i | 0 <= i < |due| :: due[i] !in stuck && RefundDue(before[due[i]])
    requires middle.Keys == before.Keys && forall o | o in before && o !in stuck :: middle[o] == before[o]
    ensures var now := RetriedAll(middle, due, granting);
            var counts := Counted(soFar, RetryingReport(middle, due, granting));
            && now.Keys == before.Keys
            && (forall o | o in stuck :: now[o] == middle[o])
            && (forall o | o in before && o !in stuck && o !in due :: now[o] == before[o])
            && (forall o | o in due :: RetryRight(before[o], now[o], o in granting))
            && (forall status :: Ended(now, stuck, status) == Ended(middle, stuck, status))
            && counts.refunded == soFar.refunded + |GotBack(now, due)|
            && counts.refundFailed == soFar.refundFailed + |TurnedDown(now, due)|
            && counts.completed == soFar.completed && counts.compensated == soFar.compensated
            && counts.deferred == soFar.deferred
  {
    hide Retried, RetriedOutcome, Counted, Safety.Inv, RefundDue, Distinct, RetryRight, Journaled;
    var others := map o | o in before && o !in stuck :: before[o];
    var now := RetriedAll(middle, due, granting);
    var ofOthers := RetriedAll(others, due, granting);
    AllRetriedRight(others, due, granting);
    RetryingCounted(others, due, granting, soFar);
    assert RetryingReport(others, due, granting) == RetryingReport(middle, due, granting);
    assert forall o | o in due :: o in ofOthers && now[o] == ofOthers[o];
    assert GotBack(now, due) == GotBack(ofOthers, due);
    assert TurnedDown(now, due) == TurnedDown(ofOthers, due);
    assert forall o | o in stuck :: o !in due;
  }
}
