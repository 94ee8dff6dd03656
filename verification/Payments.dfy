/**
 One payment attempt per idempotency key: our row, the provider's record of the same key, and the
 steps any number of charge retries, webhooks, reconcilers and refund retries can interleave.

 The provider decides a key once and answers every replay alike; it is only ever trusted for what it
 decided, so the steps that apply an outcome ask for that (stable) decision and nothing else.
 */
module Payments {

  datatype RowStatus = NoRow | Pending | Succeeded | Failed | Refunded

  /** The provider's record of the charge. */
  datatype Charge = Unseen | Processing | Captured | Declined

  /** The provider's record of the refund leg. */
  datatype RefundLeg = NotAsked | Returned | Refused

  datatype Event = PaymentSucceeded | PaymentFailed | PaymentRefunded

  /**
   `abandoned` marks a `Failed` row the reconciler gave up on; `hasRef` says the row kept the
   provider's charge reference. `history` and `events` record what the row and its outbox went through.
   */
  datatype Account = Account(
    amount: nat, row: RowStatus, abandoned: bool, hasRef: bool,
    charge: Charge, captured: nat, refund: RefundLeg, returned: nat,
    history: seq<RowStatus>, events: seq<Event>)

  const NEW := Account(0, NoRow, false, false, Unseen, 0, NotAsked, 0, [], [])

  /** What the provider still holds of the customer's money. */
  function Net(a: Account): int
  {
    a.captured - a.returned
  }

  datatype Act =
    | Create(amount: nat)                    // insert the pending row, once per key
    | ChargeAtProvider(decision: Charge)     // the provider sees the charge; only its first sight decides
    | ProviderSettles(decision: Charge)      // a processing charge gets decided
    | ApplySuccess(withRef: bool)            // guarded pending -> succeeded
    | ApplyFailure                           // guarded pending -> failed
    | Abandon                                // guarded pending -> failed, on a "never saw it" look-up
    | RefundAtProvider(grant: bool)          // the provider sees the refund; only its first sight decides
    | ApplyRefund                            // guarded succeeded -> refunded

  /** What the actor taking the step must already know; every condition is stable once true. */
  predicate Enabled(a: Account, act: Act)
  {
    match act
    case Create(_) => true
    case ChargeAtProvider(d) => a.row != NoRow && d != Unseen
    case ProviderSettles(d) => d.Captured? || d.Declined?
    case ApplySuccess(_) => a.charge == Captured
    case ApplyFailure => a.charge == Declined
    case Abandon => a.row != NoRow
    case RefundAtProvider(_) => a.row == Succeeded || a.row == Refunded
    case ApplyRefund => a.refund == Returned
  }

  function Decide(a: Account, d: Charge): Account
  {
    a.(charge := d, captured := if d == Captured then a.amount else a.captured)
  }

  /** A row flip and its announcement, one transaction. */
  function Flip(a: Account, to: RowStatus, e: Event): Account
  {
    a.(row := to, history := a.history + [to], events := a.events + [e])
  }

  function Next(a: Account, act: Act): Account
  {
    match act
    case Create(amount) =>
      if a.row == NoRow then a.(row := Pending, amount := amount, history := a.history + [Pending]) else a
    case ChargeAtProvider(d) => if a.charge == Unseen then Decide(a, d) else a
    case ProviderSettles(d) => if a.charge == Processing then Decide(a, d) else a
    case ApplySuccess(withRef) =>
      if a.row == Pending then Flip(a, Succeeded, PaymentSucceeded).(hasRef := withRef) else a
    case ApplyFailure => if a.row == Pending then Flip(a, Failed, PaymentFailed) else a
    case Abandon => if a.row == Pending then Flip(a, Failed, PaymentFailed).(abandoned := true) else a
    case RefundAtProvider(grant) =>
      if a.refund != NotAsked then a
      else if grant && a.hasRef then a.(refund := Returned, returned := a.amount)
      else a.(refund := Refused)
    case ApplyRefund => if a.row == Succeeded then Flip(a, Refunded, PaymentRefunded) else a
  }

  // ---------------------------------------------------------------- what holds in every reachable account

  /** The three lives a row can lead. */
  predicate Lifecycle(h: seq<RowStatus>)
  {
    h <= [Pending, Failed] || h <= [Pending, Succeeded, Refunded]
  }

  function EventFor(to: RowStatus): Event
  {
    match to
    case Refunded => PaymentRefunded
    case Succeeded => PaymentSucceeded
    case _ => PaymentFailed
  }

  /** Exactly one event per flip, in flip order, each naming the status that landed. */
  predicate Announced(a: Account)
  {
    && |a.events| == (if a.history == [] then 0 else |a.history| - 1)
    && forall i | 0 <= i < |a.events| :: a.events[i] == EventFor(a.history[i + 1])
  }

  predicate HistoryInv(a: Account)
  {
    && Lifecycle(a.history) && Announced(a)
    && a.row == (if a.history == [] then NoRow else a.history[|a.history| - 1])
  }

  predicate MoneyInv(a: Account)
  {
    && a.captured == (if a.charge == Captured then a.amount else 0)
    && a.returned == (if a.refund == Returned then a.amount else 0)
    && (a.charge != Unseen ==> a.row != NoRow)
    && (a.row == Succeeded || a.row == Refunded ==> a.charge == Captured)
    && (a.row == Failed && !a.abandoned ==> a.charge == Declined)
    && (a.abandoned ==> a.row == Failed)
    && (a.refund != NotAsked ==> a.row == Succeeded || a.row == Refunded)
    && (a.row == Refunded ==> a.refund == Returned)
  }

  predicate Inv(a: Account)
  {
    HistoryInv(a) && MoneyInv(a)
  }

  lemma HistoryGrows(h: seq<RowStatus>, to: RowStatus)
    requires Lifecycle(h)
    requires h == [] ==> to == Pending
    requires h != [] ==> if h[|h| - 1] == Pending then to == Failed || to == Succeeded
               else h[|h| - 1] == Succeeded && to == Refunded
    ensures Lifecycle(h + [to])
  {
    if h == [] {
      assert h + [to] == [Pending];
    } else if h[|h| - 1] == Pending {
      assert |h| == 1;
      assert h + [to] == [Pending, to];
    } else {
      assert |h| == 2;
      assert h + [to] == [Pending, Succeeded, Refunded];
    }
  }

  lemma FlipKeepsHistory(a: Account, to: RowStatus)
    requires HistoryInv(a)
    requires if a.row == Pending then to == Failed || to == Succeeded else a.row == Succeeded && to == Refunded
    ensures HistoryInv(Flip(a, to, EventFor(to)))
  {
    hide Lifecycle;
    LifecycleBasics(a.history);
    HistoryGrows(a.history, to);
  }

  lemma NextKeepsHistory(a: Account, act: Act)
    requires HistoryInv(a)
    ensures HistoryInv(Next(a, act))
  {
    match act
    case Create(_) => LifecycleBasics(a.history);
    case ApplySuccess(_) => if a.row == Pending { FlipKeepsHistory(a, Succeeded); }
    case ApplyFailure => if a.row == Pending { FlipKeepsHistory(a, Failed); }
    case Abandon => if a.row == Pending { FlipKeepsHistory(a, Failed); }
    case ApplyRefund => if a.row == Succeeded { FlipKeepsHistory(a, Refunded); }
    case _ =>
  }

  lemma NextKeepsInv(a: Account, act: Act)
    requires Inv(a) && Enabled(a, act)
    ensures Inv(Next(a, act))
  {
    hide HistoryInv;
    NextKeepsHistory(a, act);
  }

  lemma LifecycleBasics(h: seq<RowStatus>)
    requires Lifecycle(h)
    ensures h != [] ==> h[|h| - 1] != NoRow
  {
  }

  predicate Legal(a: Account, acts: seq<Act>)
    decreases |acts|
  {
    acts == [] || (Enabled(a, acts[0]) && Legal(Next(a, acts[0]), acts[1..]))
  }

  function Run(a: Account, acts: seq<Act>): Account
    decreases |acts|
  {
    if acts == [] then a else Run(Next(a, acts[0]), acts[1..])
  }

  lemma {:induction false} RunKeepsInv(a: Account, acts: seq<Act>)
    requires Inv(a) && Legal(a, acts)
    ensures Inv(Run(a, acts))
    decreases |acts|
  {
    if acts != [] {
      NextKeepsInv(a, acts[0]);
      RunKeepsInv(Next(a, acts[0]), acts[1..]);
    }
  }

  /**
   The payment ledger over every interleaving: the row led one of the three lives with one event per
   flip; the provider holds nothing or the amount, never more and never less; a refunded row means the
   money is back; a succeeded row means it was taken; and a row the provider declined never took any.
   */
  lemma PaymentLedger(acts: seq<Act>)
    requires Legal(NEW, acts)
    ensures var a := Run(NEW, acts);
            && Lifecycle(a.history) && Announced(a)
            && (Net(a) == 0 || Net(a) == a.amount)
            && (a.row == Refunded ==> Net(a) == 0)
            && (a.row == Succeeded && a.refund != Returned ==> Net(a) == a.amount)
            && (a.row == Failed && !a.abandoned ==> Net(a) == 0)
            && (a.row == NoRow ==> Net(a) == 0)
  {
    assert Announced(NEW);
    RunKeepsInv(NEW, acts);
  }

  /** One step can move the row at most once, and a decided row moves only to refunded. */
  lemma DecidedOnce(a: Account, acts: seq<Act>)
    requires Inv(a) && Legal(a, acts)
    ensures a.row == Failed || a.row == Refunded ==> Run(a, acts).row == a.row
    ensures a.row == Succeeded ==> Run(a, acts).row == Succeeded || Run(a, acts).row == Refunded
    ensures a.charge == Captured || a.charge == Declined ==> Run(a, acts).charge == a.charge
    ensures a.refund != NotAsked ==> Run(a, acts).refund == a.refund
    decreases |acts|
  {
    if acts != [] {
      NextKeepsInv(a, acts[0]);
      DecidedOnce(Next(a, acts[0]), acts[1..]);
    }
  }

  lemma {:induction false} AmountStays(a: Account, acts: seq<Act>)
    requires Inv(a) && a.row != NoRow && Legal(a, acts)
    ensures Run(a, acts).amount == a.amount && Inv(Run(a, acts))
    decreases |acts|
  {
    if acts != [] {
      NextKeepsInv(a, acts[0]);
      hide Inv, Enabled;
      AmountStep(a, acts[0]);
      AmountStays(Next(a, acts[0]), acts[1..]);
    }
  }

  lemma AmountStep(a: Account, act: Act)
    requires a.row != NoRow
    ensures Next(a, act).amount == a.amount && Next(a, act).row != NoRow
  {
  }

  /** The one step by which an undecided charge is captured behind a failed row. */
  function LateCapture(a: Account): seq<Act>
  {
    match a.charge
    case Unseen => [ChargeAtProvider(Captured)]
    case Processing => [ProviderSettles(Captured)]
    case _ => []
  }

  lemma LateCaptureTakes(a: Account)
    requires Inv(a) && a.row == Failed && a.charge != Declined
    ensures Legal(a, LateCapture(a)) && Net(Run(a, LateCapture(a))) == a.amount
  {
    var acts := LateCapture(a);
    hide HistoryInv;
    if acts != [] {
      var b := Next(a, acts[0]);
      assert acts[1..] == [];
      assert Legal(b, acts[1..]) && Run(b, acts[1..]) == b;
    }
  }

  /**
   When a failed row is final for the money too: no continuation ever leaves anything at the provider, if
   and only if the provider declined the charge, or there was nothing to take.
   */
  lemma FailedRowTakesNothingIff(a: Account)
    requires Inv(a) && a.row == Failed
    ensures (forall acts | Legal(a, acts) :: Net(Run(a, acts)) == 0) <==> (a.charge == Declined || a.amount == 0)
  {
    if a.charge == Declined || a.amount == 0 {
      forall acts | Legal(a, acts) ensures Net(Run(a, acts)) == 0 {
        DecidedOnce(a, acts);
        AmountStays(a, acts);
      }
    } else {
      LateCaptureTakes(a);
    }
  }

  /**
   The reconciler's abandonment leads there: a charge whose caller stalled past the maximum age is given
   up as never seen, and can still be captured afterwards.
   */
  lemma AbandonedChargeCanStillBeCaptured(amount: nat)
    ensures var acts := [Create(amount), Abandon, ChargeAtProvider(Captured)];
            && Legal(NEW, acts)
            && Run(NEW, acts).row == Failed && Run(NEW, acts).abandoned && Net(Run(NEW, acts)) == amount
  {
    var acts := [Create(amount), Abandon, ChargeAtProvider(Captured)];
    var a1 := Next(NEW, acts[0]);
    var a2 := Next(a1, acts[1]);
    var a3 := Next(a2, acts[2]);
    assert acts[1..] == [acts[1], acts[2]] && acts[1..][1..] == [acts[2]] && acts[1..][1..][1..] == [];
    assert Run(a2, acts[1..][1..]) == a3;
    assert Legal(a2, acts[1..][1..]);
    assert Run(a1, acts[1..]) == a3;
  }
}
