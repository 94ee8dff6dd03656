/**
 One order's checkout as a protocol. Every actor that can touch the order is a frame with a program
 counter: drives (the first request and any same-key retry), the recovery poller's settlement and
 refund retry, the user's cancel, the payment reconciler. A frame step is one unit of work on the
 database (`Write`) or one provider call; between any two steps any other actor may run, the process
 may die (`Crash`), or the step may raise, with or without its write having landed (`Fail`).
 */
module Checkout {
  import opened Options
  import opened Inventory
  import P = Payments

  datatype Status = Pending | Paid | Cancelled

  datatype Topic = OfCreate | OfReserve | OfCharge | OfCommit | OfMarkPaid | OfCompensate | OfRefund | OfCancel

  datatype Note = Started | Completed | Failed | Unknown | Reversed | Shortfall | Requested | Refused

  /** One saga journal row. */
  datatype Entry = Entry(topic: Topic, note: Note)

  /** Who asked the payments service for a refund, and what that caller knows. */
  datatype Caller =
    | Orphan(intent: bool, restocked: bool)  // the undo of a charge whose order died
    | Settling                               // the poller, holding a succeeded charge and too few holds
    | Retrying                               // the poller, on an open refund intent

  /** What a frame is about to do. */
  datatype Frame =
    // the drive: reserve, charge, commit, mark paid
    | DLogReserve | DReserve | DLogReserved | DLogCharge | DReadLive
    | DCreatePayment | DGateway | DApply(outcome: P.Charge) | DReRead | DUncertain
    | DLogOutcome(note: Note, uncertain: bool)
    | DLogCommit | DCommit | DCommitAgain | DCommitCheck | DLogShortfall | DShortStatus
    | DLogCommitted | DLogMarkPaid | DFlip | DReadSettled | DLogPaid
    // the undo of an orphaned charge
    | OLogRequested | OReadStatus(intent: bool) | ORestock(intent: bool)
    // the payments service's refund
    | FRead(who: Caller) | FGateway(who: Caller) | FFlip(who: Caller) | FReRead(who: Caller)
    | FLogCompleted(who: Caller) | FLogRefused(who: Caller)
    // compensation
    | KLog | KRelease | KCancel | KLogDone
    // the poller settling a crashed order
    | SReadPayment | SCommit | SLogCommitted | SLogMarkPaid | SFlip | SReadStatus | SLogPaid
    // the poller retrying an open refund intent
    | QReadStatus | QRestock | QReadPayment
    // the user's cancel
    | URead | UReadCharge | UCancel | URelease
    // the payment reconciler
    | RLookup | RApply(outcome: P.Charge) | RAbandon

  datatype State = State(
    id: OrderId, lines: seq<Line>, total: nat,
    status: Status, account: P.Account, holds: map<Key, Hold>,
    journal: seq<Entry>, placed: nat, frames: map<nat, Frame>)

  // ---------------------------------------------------------------- reading the state

  predicate Journaled(s: State, t: Topic, n: Note)
  {
    Entry(t, n) in s.journal
  }

  predicate HasRefundMarker(s: State)
  {
    exists i | 0 <= i < |s.journal| :: s.journal[i].topic == OfRefund
  }

  /** The most recent journal status of one topic. */
  function Latest(j: seq<Entry>, t: Topic): Option<Note>
  {
    if j == [] then None
    else if j[|j| - 1].topic == t then Some(j[|j| - 1].note)
    else Latest(j[..|j| - 1], t)
  }

  /** The charge landed at some point: the row reached `succeeded`. */
  predicate Took(s: State)
  {
    s.account.row == P.Succeeded || s.account.row == P.Refunded
  }

  function LineKeys(s: State): set<Key>
  {
    set i | 0 <= i < |s.lines| :: (s.id, s.lines[i].0)
  }

  predicate AllCommitted(s: State)
  {
    forall i | 0 <= i < |s.lines| ::
      (s.id, s.lines[i].0) in s.holds && s.holds[(s.id, s.lines[i].0)] == Hold(s.lines[i].1, Committed)
  }

  predicate NoneCommitted(s: State)
  {
    forall k | k in s.holds :: s.holds[k].status == Held
  }

  function CommittedCount(s: State): nat
  {
    |OrderKeys(s.holds, s.id, Committed)|
  }

  function HeldKeys(s: State): set<Key>
  {
    OrderKeys(s.holds, s.id, Held)
  }

  /** `commit_for_order` consumes only when every line is accounted for. */
  predicate CommitFits(s: State)
  {
    CommittedCount(s) + |HeldKeys(s)| >= |s.lines|
  }

  // ---------------------------------------------------------------- units of work

  datatype Write =
    | Nothing
    | Log(topic: Topic, note: Note)
    | Place                        // reserve_many landed
    | PlaceFirst(n: nat)           // reserve_many was refused and kept its first `n` lines in SKU order
    | Release                      // release_for_order
    | CommitHolds                  // commit_for_order
    | RestockHolds                 // restock_for_order
    | Reap(keys: set<Key>)         // the reaper released some of the held rows
    | Pay(act: P.Act)              // a payment step with no effect on the order
    | PaySucceeded(withRef: bool)  // the guarded success flip with its cancelled-order hook
    | CancelOrder                  // the guarded pending -> cancelled flip with its payment guard
    | MarkPaid                     // the guarded pending -> paid flip with its OrderPlaced row
    | UserCancel                   // the user's cancel: flip, release and journal row together

  /** Journal the refund intent unless the journal already speaks of a refund. */
  function RequestRefundOnce(s: State): State
  {
    if HasRefundMarker(s) then s else s.(journal := s.journal + [Entry(OfRefund, Requested)])
  }

  function Cancel(s: State): State
  {
    if s.status != Pending then s
    else
      var c := s.(status := Cancelled);
      if s.account.row == P.Succeeded then RequestRefundOnce(c) else c
  }

  function ReleaseAll(s: State): State
  {
    s.(holds := s.holds - HeldKeys(s))
  }

  /** The order's rows once each of `lines` it did not hold was placed. */
  function Placed(s: State, lines: seq<Line>): map<Key, Hold>
  {
    s.holds + Fresh(Ledger(map[], s.holds), s.id, lines)
  }

  function FirstLines(s: State, n: nat): seq<Line>
  {
    var ordered := BySku(s.lines);
    if n <= |ordered| then ordered[..n] else ordered
  }

  function After(s: State, w: Write): State
  {
    match w
    case Nothing => s
    case Log(t, n) => s.(journal := s.journal + [Entry(t, n)])
    case Place => s.(holds := Placed(s, s.lines))
    case PlaceFirst(n) => s.(holds := Placed(s, FirstLines(s, n)))
    case Release => ReleaseAll(s)
    case CommitHolds => if CommitFits(s) then s.(holds := WithStatus(s.holds, HeldKeys(s), Committed)) else s
    case RestockHolds => s.(holds := s.holds - OrderKeys(s.holds, s.id, Committed))
    case Reap(keys) => s.(holds := s.holds - (keys * HeldKeys(s)))
    case Pay(act) => s.(account := P.Next(s.account, act))
    case PaySucceeded(withRef) =>
      var paid := s.(account := P.Next(s.account, P.ApplySuccess(withRef)));
      if s.account.row == P.Pending && s.status == Cancelled then RequestRefundOnce(paid) else paid
    case CancelOrder => Cancel(s)
    case MarkPaid => if s.status == Pending then s.(status := Paid, placed := s.placed + 1) else s
    case UserCancel =>
      if s.status != Pending then s
      else
        var c := ReleaseAll(Cancel(s));
        c.(journal := c.journal + [Entry(OfCancel, Completed)])
  }

  // ---------------------------------------------------------------- frame steps

  /** What the environment decides at a step: stock, or the provider. */
  datatype Choice =
    | Go
    | Accepted
    | Turned
    | TurnedAfter(n: nat)          // a reservation refused at a SKU without a stock row, `n` lines kept
    | Sees(decision: P.Charge)
    | Grants(yes: bool)

  /** Where a drive goes once it knows the payment row. */
  function AfterCharge(r: P.RowStatus): Frame
  {
    match r
    case Succeeded => DLogOutcome(Completed, false)
    case Failed => DLogOutcome(Failed, false)
    case Refunded => DLogOutcome(Reversed, false)
    case _ => DLogOutcome(Unknown, false)
  }

  /** Where a refund's caller goes once the answer is known; `None` ends the frame. */
  function AfterRefund(who: Caller, returned: bool): Option<Frame>
  {
    match who
    case Orphan(intent, restocked) =>
      if returned then (if restocked then Some(FLogCompleted(who)) else None)
      else (if intent then Some(FLogRefused(who)) else None)
    case _ => Some(if returned then FLogCompleted(who) else FLogRefused(who))
  }

  /** A drive's steps: reserve, charge, commit, mark paid. */
  function DriveStep(s: State, f: Frame, c: Choice): (Write, Option<Frame>)
  {
    match f
    case DLogReserve => (Log(OfReserve, Started), Some(DReserve))
    case DReserve =>
      if c == Accepted then (Place, Some(DLogReserved))
      else (if c.TurnedAfter? then PlaceFirst(c.n) else Nothing, Some(KLog))
    case DLogReserved => (Log(OfReserve, Completed), Some(DLogCharge))
    case DLogCharge => (Log(OfCharge, Started), Some(DReadLive))
    case DReadLive => (Nothing, if s.status == Pending then Some(DCreatePayment) else None)
    case DCreatePayment =>
      (Pay(P.Create(s.total)),
       if s.account.row == P.NoRow then Some(DGateway)
       else if s.account.amount != s.total then Some(KLog)
       else if s.account.row == P.Pending then Some(DGateway)
       else Some(AfterCharge(s.account.row)))
    case DGateway =>
      var act := P.ChargeAtProvider(if c.Sees? then c.decision else P.Processing);
      (Pay(act), Some(DApply(P.Next(s.account, act).charge)))
    case DApply(d) =>
      (match d
       case Captured =>
         (PaySucceeded(true), Some(if s.account.row == P.Pending then AfterCharge(P.Succeeded) else DReRead))
       case Declined =>
         (Pay(P.ApplyFailure), Some(if s.account.row == P.Pending then AfterCharge(P.Failed) else DReRead))
       case _ => (Nothing, Some(DReRead)))
    case DReRead => (Nothing, Some(AfterCharge(s.account.row)))
    case DUncertain => (Nothing, Some(DLogOutcome(if s.account.row == P.Failed then Failed else Unknown, true)))
    case DLogOutcome(n, _) =>
      (Log(OfCharge, n), if n == Completed then Some(DLogCommit) else if n == Unknown then None else Some(KLog))
    case DLogCommit => (Log(OfCommit, Started), Some(DCommit))
    case DCommit => (CommitHolds, Some(DCommitCheck))
    case DCommitAgain => (CommitHolds, Some(DCommitCheck))
    case DCommitCheck => (CommitHolds, Some(if CommitFits(s) then DLogCommitted else DLogShortfall))
    case DLogShortfall => (Log(OfCommit, Shortfall), Some(DShortStatus))
    case DShortStatus => (Nothing, if s.status == Cancelled then Some(OLogRequested) else None)
    case DLogCommitted => (Log(OfCommit, Completed), Some(DLogMarkPaid))
    case DLogMarkPaid => (Log(OfMarkPaid, Started), Some(DFlip))
    case DFlip => (MarkPaid, Some(if s.status == Pending then DLogPaid else DReadSettled))
    case DReadSettled => (Nothing, if s.status == Paid then None else Some(OLogRequested))
    case DLogPaid => (Log(OfMarkPaid, Completed), None)
    case _ => (Nothing, None)
  }

  /** Undoing a charge: the refund intent, the restock, the payments service's refund. */
  function RefundStep(s: State, f: Frame, c: Choice): (Write, Option<Frame>)
  {
    match f
    case OLogRequested => (Log(OfRefund, Requested), Some(OReadStatus(true)))
    case OReadStatus(i) => (Nothing, Some(if s.status == Cancelled then ORestock(i) else FRead(Orphan(i, true))))
    case ORestock(i) => (RestockHolds, Some(FRead(Orphan(i, true))))
    case FRead(who) =>
      (Nothing, if s.account.row == P.Succeeded then Some(FGateway(who))
          else AfterRefund(who, s.account.row == P.Refunded))
    case FGateway(who) =>
      var act := P.RefundAtProvider(c == Grants(true));
      (Pay(act), if P.Next(s.account, act).refund == P.Returned then Some(FFlip(who)) else AfterRefund(who, false))
    case FFlip(who) =>
      (Pay(P.ApplyRefund), if s.account.row == P.Succeeded then AfterRefund(who, true) else Some(FReRead(who)))
    case FReRead(who) => (Nothing, AfterRefund(who, s.account.row == P.Refunded))
    case FLogCompleted(who) => (Log(OfRefund, Completed), if who == Settling then Some(KLog) else None)
    case FLogRefused(who) => (Log(OfRefund, Refused), if who == Settling then Some(KLog) else None)
    case _ => (Nothing, None)
  }

  /** Compensation, the poller, the user's cancel and the reconciler. */
  function SettleStep(s: State, f: Frame, c: Choice): (Write, Option<Frame>)
  {
    match f
    case KLog => (Log(OfCompensate, Started), Some(KRelease))
    case KRelease => (Release, Some(KCancel))
    case KCancel => (CancelOrder, Some(KLogDone))
    case KLogDone => (Log(OfCompensate, Completed), None)
    case SReadPayment =>
      (Nothing, if s.account.row == P.Succeeded then Some(SCommit) else if s.account.row == P.Pending then None
          else Some(KLog))
    case SCommit => (CommitHolds, Some(if CommitFits(s) then SLogCommitted else FRead(Settling)))
    case SLogCommitted => (Log(OfCommit, Completed), Some(SLogMarkPaid))
    case SLogMarkPaid => (Log(OfMarkPaid, Started), Some(SFlip))
    case SFlip => (MarkPaid, Some(if s.status == Pending then SLogPaid else SReadStatus))
    case SReadStatus => (Nothing, if s.status == Cancelled then Some(OLogRequested) else None)
    case SLogPaid => (Log(OfMarkPaid, Completed), None)
    case QReadStatus => (Nothing, Some(if s.status == Cancelled then QRestock else QReadPayment))
    case QRestock => (RestockHolds, Some(QReadPayment))
    case QReadPayment =>
      (Nothing, if s.account.row == P.Refunded then Some(FLogCompleted(Retrying))
                else if s.account.row == P.Succeeded then Some(FRead(Retrying)) else None)
    case URead =>
      (Nothing, match s.status
                case Cancelled => Some(URelease)
                case Paid => None
                case Pending => Some(UReadCharge))
    case UReadCharge =>
      var charge := Latest(s.journal, OfCharge);
      (Nothing, if charge == Some(Started) || charge == Some(Completed) || charge == Some(Unknown) then None
          else Some(UCancel))
    case UCancel => (UserCancel, None)
    case URelease => (Release, None)
    case RLookup =>
      (Nothing, match s.account.charge
                case Unseen => if c == Turned then Some(RAbandon) else None
                case Processing => None
                case _ => Some(RApply(s.account.charge)))
    case RApply(d) => (if d == P.Captured then PaySucceeded(true) else Pay(P.ApplyFailure), None)
    case RAbandon => (Pay(P.Abandon), None)
    case _ => (Nothing, None)
  }

  datatype Part = Driver | Refunder | Settler

  function PartOf(f: Frame): Part
  {
    match f
    case OLogRequested => Refunder
    case OReadStatus(_) => Refunder
    case ORestock(_) => Refunder
    case FRead(_) => Refunder
    case FGateway(_) => Refunder
    case FFlip(_) => Refunder
    case FReRead(_) => Refunder
    case FLogCompleted(_) => Refunder
    case FLogRefused(_) => Refunder
    case KLog => Settler
    case KRelease => Settler
    case KCancel => Settler
    case KLogDone => Settler
    case SReadPayment => Settler
    case SCommit => Settler
    case SLogCommitted => Settler
    case SLogMarkPaid => Settler
    case SFlip => Settler
    case SReadStatus => Settler
    case SLogPaid => Settler
    case QReadStatus => Settler
    case QRestock => Settler
    case QReadPayment => Settler
    case URead => Settler
    case UReadCharge => Settler
    case UCancel => Settler
    case URelease => Settler
    case RLookup => Settler
    case RApply(_) => Settler
    case RAbandon => Settler
    case _ => Driver
  }

  /** The unit of work a frame performs next, and the frame it becomes. */
  function Step(s: State, f: Frame, c: Choice): (Write, Option<Frame>)
  {
    match PartOf(f)
    case Driver => DriveStep(s, f, c)
    case Refunder => RefundStep(s, f, c)
    case Settler => SettleStep(s, f, c)
  }

  /**
   Where a frame lands when its step raises. `silent` tells a timeout or an unavailable dependency
   (the step may have landed) from any other exception. Before money moved a drive compensates;
   once charged, or unsure, it leaves the order to the poller. A drive whose compensation raises
   compensates again; the poller's does not.
   */
  function Handler(f: Frame, silent: bool): Option<Frame>
  {
    match f
    case DLogReserve => Some(KLog)
    case DReserve => Some(KLog)
    case DLogReserved => Some(KLog)
    case DLogCharge => Some(KLog)
    case DReadLive => Some(KLog)
    case DCreatePayment => Some(if silent then DUncertain else KLog)
    case DGateway => Some(if silent then DUncertain else KLog)
    case DApply(_) => Some(if silent then DUncertain else KLog)
    case DReRead => Some(if silent then DUncertain else KLog)
    case DUncertain => Some(DLogOutcome(Unknown, true))
    case DLogOutcome(n, uncertain) => if n == Completed || uncertain then None else Some(KLog)
    case DCommit => if silent then Some(DCommitAgain) else None
    case OLogRequested => Some(OReadStatus(false))
    case OReadStatus(i) => Some(FRead(Orphan(i, false)))
    case ORestock(i) => Some(FRead(Orphan(i, false)))
    case KLog => if silent then Some(KLog) else None
    case KRelease => if silent then Some(KLog) else None
    case KCancel => if silent then Some(KLog) else None
    case KLogDone => if silent then Some(KLog) else None
    case _ => None
  }

  // ---------------------------------------------------------------- actions

  datatype Action =
    | Spawn(id: nat, frame: Frame)
    | Run(id: nat, choice: Choice)
    | Fail(id: nat, choice: Choice, landed: bool, silent: bool)
    | Crash(id: nat)
    | Env(write: Write)

  /** When each actor may start. */
  predicate MayStart(s: State, f: Frame)
  {
    match f
    case DLogReserve => s.status == Pending
    case SReadPayment => s.status == Pending
    case QReadStatus =>
      s.status == Cancelled && Journaled(s, OfRefund, Requested)
      && !Journaled(s, OfRefund, Completed) && !Journaled(s, OfRefund, Refused)
    case URead => true
    case RLookup => s.account.row == P.Pending
    case _ => false
  }

  /** What happens to the order from outside: verified webhooks, the provider, the reaper. */
  predicate EnvMay(s: State, w: Write)
  {
    match w
    case PaySucceeded(_) => s.account.row != P.NoRow && s.account.charge == P.Captured
    case Pay(act) =>
      match act {
        case ApplyFailure => s.account.row != P.NoRow && s.account.charge == P.Declined
        case ProviderSettles(d) => d.Captured? || d.Declined?
        case _ => false
      }
    case Reap(_) => true
    case _ => false
  }

  /** A reservation places lines only for a well-formed basket; a provider decides something when it sees a charge. */
  predicate ChoiceOk(s: State, f: Frame, c: Choice)
  {
    && (f.DReserve? && (c == Accepted || c.TurnedAfter?) ==> WellFormed(s.lines))
    && (c.Sees? ==> c.decision != P.Unseen)
  }

  predicate Enabled(s: State, a: Action)
  {
    match a
    case Spawn(id, f) => id !in s.frames && MayStart(s, f)
    case Run(id, c) => id in s.frames && ChoiceOk(s, s.frames[id], c)
    case Fail(id, c, _, _) => id in s.frames && ChoiceOk(s, s.frames[id], c)
    case Crash(id) => id in s.frames
    case Env(w) => EnvMay(s, w)
  }

  function WithFrame(s: State, id: nat, f: Option<Frame>): State
  {
    s.(frames := if f.Some? then s.frames[id := f.value] else s.frames - {id})
  }

  function Do(s: State, a: Action): State
    requires Enabled(s, a)
  {
    match a
    case Spawn(id, f) => WithFrame(s, id, Some(f))
    case Run(id, c) =>
      var (w, next) := Step(s, s.frames[id], c);
      WithFrame(After(s, w), id, next)
    case Fail(id, c, landed, silent) =>
      var w := if landed then Step(s, s.frames[id], c).0 else Nothing;
      WithFrame(After(s, w), id, Handler(s.frames[id], silent))
    case Crash(id) => WithFrame(s, id, None)
    case Env(w) => After(s, w)
  }

  /** The write an action performs. */
  function WriteOf(s: State, a: Action): Write
    requires Enabled(s, a)
  {
    match a
    case Run(id, c) => Step(s, s.frames[id], c).0
    case Fail(id, c, landed, _) => if landed then Step(s, s.frames[id], c).0 else Nothing
    case Env(w) => w
    case _ => Nothing
  }

  /** The order as its creating transaction leaves it. */
  predicate Init(s: State)
  {
    && s.lines != [] && s.status == Pending && s.account == P.NEW && s.holds == map[]
    && s.journal == [Entry(OfCreate, Completed)] && s.placed == 0 && s.frames == map[]
  }

  predicate Legal(s: State, run: seq<Action>)
    decreases |run|
  {
    run == [] || (Enabled(s, run[0]) && Legal(Do(s, run[0]), run[1..]))
  }

  function Final(s: State, run: seq<Action>): State
    requires Legal(s, run)
    decreases |run|
  {
    if run == [] then s else Final(Do(s, run[0]), run[1..])
  }
}
