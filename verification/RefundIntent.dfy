/**
 Why a cancellation with its payment guard, and a payment success with its cancelled-order hook, may each
 be taken as one step. Under read-committed isolation every statement sees only committed data, and a
 row written or locked by one transaction makes others wait until it ends. Any number of cancellations,
 payment flips and paid flips of one order interleave statement by statement.
 */
module RefundIntent {
  import opened Options

  datatype Status = Pending | Cancelled | Paid

  /** A transaction between two statements. */
  datatype Txn =
    // cancel: flip the order, look for a captured payment, journal the intent
    | CancelFlip
    | CancelLook                        // order row locked and flipped
    | CancelJournal(captured: bool)     // knows whether the payment had committed as captured
    | CancelCommit(adds: bool)          // about to commit, with or without a new intent row
    // payment success: flip the payment, lock and read the order, journal the intent
    | PayFlip
    | PayLook                           // payment row locked and flipped
    | PayJournal(cancelled: bool)       // order row locked and read
    | PayCommit(adds: bool)
    // mark paid
    | MarkFlip
    | MarkCommit                        // order row locked and flipped

  /** Committed rows, and who holds which row lock. */
  datatype State = State(
    status: Status, captured: bool, intents: nat,
    orderLock: Option<nat>, payLock: Option<nat>, txns: map<nat, Txn>)

  predicate HoldsOrder(t: Txn)
  {
    t.CancelLook? || t.CancelJournal? || t.CancelCommit? || t.PayJournal? || t.PayCommit? || t.MarkCommit?
  }

  predicate HoldsPayment(t: Txn)
  {
    t.PayLook? || t.PayJournal? || t.PayCommit?
  }

  datatype Action = Begin(id: nat, txn: Txn) | Statement(id: nat) | Rollback(id: nat)

  /** A statement that needs a row lock waits while another transaction holds it. */
  predicate Ready(s: State, t: Txn)
  {
    match t
    case CancelFlip => s.orderLock.None?
    case MarkFlip => s.orderLock.None?
    case PayFlip => s.payLock.None?
    case PayLook => s.orderLock.None?
    case _ => true
  }

  predicate Enabled(s: State, a: Action)
  {
    match a
    case Begin(id, t) => id !in s.txns && (t == CancelFlip || t == PayFlip || t == MarkFlip)
    case Statement(id) => id in s.txns && Ready(s, s.txns[id])
    case Rollback(id) => id in s.txns
  }

  function Ended(s: State, id: nat): State
  {
    s.(txns := s.txns - {id},
       orderLock := if s.orderLock == Some(id) then None else s.orderLock,
       payLock := if s.payLock == Some(id) then None else s.payLock)
  }

  function Now(s: State, id: nat, t: Txn): State
  {
    s.(txns := s.txns[id := t])
  }

  function Run(s: State, id: nat): State
    requires id in s.txns
  {
    match s.txns[id]
    case CancelFlip => if s.status == Pending then Now(s, id, CancelLook).(orderLock := Some(id)) else Ended(s, id)
    case CancelLook => Now(s, id, CancelJournal(s.captured))
    case CancelJournal(captured) => Now(s, id, CancelCommit(captured && s.intents == 0))
    case CancelCommit(adds) => Ended(s.(status := Cancelled, intents := s.intents + if adds then 1 else 0), id)
    case PayFlip => if !s.captured then Now(s, id, PayLook).(payLock := Some(id)) else Ended(s, id)
    case PayLook => Now(s, id, PayJournal(s.status == Cancelled)).(orderLock := Some(id))
    case PayJournal(cancelled) => Now(s, id, PayCommit(cancelled && s.intents == 0))
    case PayCommit(adds) => Ended(s.(captured := true, intents := s.intents + if adds then 1 else 0), id)
    case MarkFlip => if s.status == Pending then Now(s, id, MarkCommit).(orderLock := Some(id)) else Ended(s, id)
    case MarkCommit => Ended(s.(status := Paid), id)
  }

  function Do(s: State, a: Action): State
    requires Enabled(s, a)
  {
    match a
    case Begin(id, t) => Now(s, id, t)
    case Statement(id) => Run(s, id)
    case Rollback(id) => Ended(s, id)
  }

  const START := State(Pending, false, 0, None, None, map[])

  predicate Legal(s: State, run: seq<Action>)
    decreases |run|
  {
    run == [] || (Enabled(s, run[0]) && Legal(Do(s, run[0]), run[1..]))
  }

  function Final(s: State, run: seq<Action>): State
    requires Legal(s, run)
    decreases |run|
  {
    if run == [] then s else Final(Do(s, run[0]), run[1..])
  }

  // ---------------------------------------------------------------- the invariant

  /** Locks and program points agree. */
  predicate OrderLockOk(s: State)
  {
    && (forall id | id in s.txns :: HoldsOrder(s.txns[id]) <==> s.orderLock == Some(id))
    && (s.orderLock.Some? ==> s.orderLock.value in s.txns)
  }

  predicate PayLockOk(s: State)
  {
    && (forall id | id in s.txns :: HoldsPayment(s.txns[id]) <==> s.payLock == Some(id))
    && (s.payLock.Some? ==> s.payLock.value in s.txns)
  }

  /** What the lock holder read is still what is committed. */
  predicate ReadsOk(s: State, t: Txn)
  {
    match t
    case CancelLook => s.status == Pending
    case CancelJournal(captured) => s.status == Pending && captured == s.captured
    case CancelCommit(adds) => s.status == Pending && adds == (s.captured && s.intents == 0)
    case PayLook => !s.captured
    case PayJournal(cancelled) => !s.captured && cancelled == (s.status == Cancelled)
    case PayCommit(adds) => !s.captured && adds == (s.status == Cancelled && s.intents == 0)
    case MarkCommit => s.status == Pending
    case _ => true
  }

  predicate Inv(s: State)
  {
    && OrderLockOk(s) && PayLockOk(s) && (forall id | id in s.txns :: ReadsOk(s, s.txns[id]))
    && s.intents <= 1 && (s.status == Cancelled && s.captured ==> s.intents == 1)
    && (s.intents == 1 ==> s.status == Cancelled && s.captured)
  }

  lemma OrderLockKept(s: State, a: Action)
    requires OrderLockOk(s) && Enabled(s, a)
    ensures OrderLockOk(Do(s, a))
  {
  }

  lemma PayLockKept(s: State, a: Action)
    requires PayLockOk(s) && Enabled(s, a)
    ensures PayLockOk(Do(s, a))
  {
  }

  /** Committed rows change only at a commit, and then nobody else has read them under a lock. */
  lemma OthersReads(s: State, a: Action, other: nat)
    requires Inv(s) && Enabled(s, a) && other in s.txns && other != a.id
    ensures ReadsOk(Do(s, a), s.txns[other])
  {
    assert ReadsOk(s, s.txns[other]);
    if a.Statement? {
      assert ReadsOk(s, s.txns[a.id]);
      assert HoldsOrder(s.txns[a.id]) ==> !HoldsOrder(s.txns[other]);
      assert HoldsPayment(s.txns[a.id]) ==> !HoldsPayment(s.txns[other]);
    }
  }

  lemma OwnReads(s: State, a: Action)
    requires Inv(s) && Enabled(s, a) && a.id in Do(s, a).txns
    ensures ReadsOk(Do(s, a), Do(s, a).txns[a.id])
  {
    if a.Statement? {
      assert ReadsOk(s, s.txns[a.id]);
    }
  }

  lemma CommittedKept(s: State, a: Action)
    requires Inv(s) && Enabled(s, a)
    ensures var t := Do(s, a);
            t.intents <= 1 && (t.status == Cancelled && t.captured ==> t.intents == 1)
                && (t.intents == 1 ==> t.status == Cancelled && t.captured)
  {
    hide OrderLockOk, PayLockOk;
    if a.Statement? {
      assert ReadsOk(s, s.txns[a.id]);
    }
  }

  lemma OthersStay(s: State, a: Action)
    requires Enabled(s, a)
    ensures forall id | id in Do(s, a).txns && id != a.id :: id in s.txns && Do(s, a).txns[id] == s.txns[id]
  {
  }

  lemma DoKeepsInv(s: State, a: Action)
    requires Inv(s) && Enabled(s, a)
    ensures Inv(Do(s, a))
  {
    OrderLockKept(s, a);
    PayLockKept(s, a);
    CommittedKept(s, a);
    var t := Do(s, a);
    OthersStay(s, a);
    hide Do, Enabled, ReadsOk, OrderLockOk, PayLockOk;
    forall id | id in t.txns ensures ReadsOk(t, t.txns[id]) {
      if id == a.id {
        OwnReads(s, a);
      } else {
        OthersReads(s, a, id);
      }
    }
  }

  lemma {:induction false} RunKeepsInv(s: State, run: seq<Action>)
    requires Inv(s) && Legal(s, run)
    ensures Inv(Final(s, run))
    decreases |run|
  {
    hide Inv, Enabled, Do;
    if run != [] {
      DoKeepsInv(s, run[0]);
      RunKeepsInv(Do(s, run[0]), run[1..]);
    }
  }

  /**
   Whatever the interleaving of statements, commits and rollbacks: the journal holds exactly one refund
   intent if the order is cancelled and its payment captured, and none otherwise.
   */
  lemma IntentExactlyWhenOrphaned(run: seq<Action>)
    requires Legal(START, run)
    ensures var s := Final(START, run); s.intents == if s.status == Cancelled && s.captured then 1 else 0
  {
    hide Legal, Final;
    RunKeepsInv(START, run);
  }

  /** No deadlock: as long as a transaction is open, one of them can go on. */
  lemma SomeoneCanGoOn(run: seq<Action>) returns (id: nat)
    requires Legal(START, run) && Final(START, run).txns != map[]
    ensures Enabled(Final(START, run), Statement(id))
  {
    hide Legal, Final;
    RunKeepsInv(START, run);
    var s := Final(START, run);
    if s.orderLock.Some? {
      id := s.orderLock.value;
      assert HoldsOrder(s.txns[id]);
    } else if s.payLock.Some? {
      id := s.payLock.value;
      assert HoldsPayment(s.txns[id]);
    } else {
      id :| id in s.txns;
      assert !HoldsOrder(s.txns[id]) && !HoldsPayment(s.txns[id]);
    }
  }

  // ---------------------------------------------------------------- what a transaction commits

  /** Where a transaction that begins as `first` and is not rolled back must leave the committed rows. */
  predicate Committed(s: State, t: State, first: Txn)
  {
    match first
    case CancelFlip => t.captured == s.captured && t.status == if s.status == Pending then Cancelled else s.status
    case PayFlip => t.captured && t.status == s.status
    case _ => t.captured == s.captured && t.status == if s.status == Pending then Paid else s.status
  }

  /** Which transaction a point belongs to. */
  function FirstOf(t: Txn): Txn
  {
    if t.CancelFlip? || t.CancelLook? || t.CancelJournal? || t.CancelCommit? then CancelFlip
    else if t.MarkFlip? || t.MarkCommit? then MarkFlip else PayFlip
  }

  function StatementsLeft(t: Txn): nat
  {
    if t.CancelFlip? || t.PayFlip? then 4
    else if t.CancelLook? || t.PayLook? then 3
    else if t.CancelJournal? || t.PayJournal? || t.MarkFlip? then 2 else 1
  }

  predicate OnlyStatements(run: seq<Action>, id: nat)
  {
    forall i | 0 <= i < |run| :: run[i] == Statement(id)
  }

  lemma NothingLeft(s: State, run: seq<Action>, id: nat)
    requires id !in s.txns && Legal(s, run) && OnlyStatements(run, id)
    ensures run == []
  {
  }

  lemma StatementLeads(s: State, id: nat)
    requires id in s.txns && Enabled(s, Statement(id)) && ReadsOk(s, s.txns[id])
    ensures var t := Do(s, Statement(id));
            if id in t.txns then
              && t.status == s.status && t.captured == s.captured
              && FirstOf(t.txns[id]) == FirstOf(s.txns[id]) && StatementsLeft(t.txns[id]) < StatementsLeft(s.txns[id])
            else Committed(s, t, FirstOf(s.txns[id]))
  {
  }

  lemma SameRows(s: State, t: State, u: State, first: Txn)
    requires t.status == s.status && t.captured == s.captured && Committed(t, u, first)
    ensures Committed(s, u, first)
  {
  }

  /**
   A transaction whose statements nobody else's come between commits what it is for, within four
   statements: the cancel cancels a pending order, the payment is captured, the paid flip pays a pending
   order; and neither touches the other's row.
   */
  lemma {:induction false} TransactionLands(s: State, id: nat, run: seq<Action>)
    requires Inv(s) && id in s.txns && Legal(s, run) && OnlyStatements(run, id)
    ensures |run| <= StatementsLeft(s.txns[id])
    ensures id in Final(s, run).txns ==> |run| < StatementsLeft(s.txns[id])
    ensures id !in Final(s, run).txns ==> Committed(s, Final(s, run), FirstOf(s.txns[id]))
    decreases |run|
  {
    assert StatementsLeft(s.txns[id]) > 0;
    hide Committed, FirstOf, StatementsLeft;
    if run != [] {
      var t := Do(s, run[0]);
      DoKeepsInv(s, run[0]);
      StatementLeads(s, id) by { assert ReadsOk(s, s.txns[id]); }
      assert OnlyStatements(run[1..], id);
      hide Inv, Do;
      if id in t.txns {
        TransactionLands(t, id, run[1..]);
        if id !in Final(s, run).txns {
          SameRows(s, t, Final(s, run), FirstOf(s.txns[id]));
        }
      } else {
        NothingLeft(t, run[1..], id);
        assert Final(s, run) == t;
      }
    }
  }
}
