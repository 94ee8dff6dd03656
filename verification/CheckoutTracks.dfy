/**
 What each actor, undisturbed, has achieved at every point of its program, and where it must leave the order:
 the drive, the undo of an orphaned charge, the poller's settlement and refund retry, the user's cancel and
 the reconciler. A track says what holds when the frame is about to take a step; each actor's step lemma
 leads from there to the next point of the track or to the end.
 */
module CheckoutTracks {
  import opened Options
  import opened Inventory
  import opened Checkout
  import opened CheckoutSolo
  import opened Recovery
  import P = Payments
  import Safety = CheckoutSafety
  import Money = CheckoutMoney

  // ---------------------------------------------------------------- the drive

  /** What the journal must say of a charge that left the row so. */
  function NoteFor(r: P.RowStatus): Note
  {
    match r
    case Succeeded => Completed
    case Failed => Failed
    case Refunded => Reversed
    case _ => Unknown
  }

  predicate Undecided(a: P.Account)
  {
    a.row == P.NoRow || a.row == P.Pending
  }

  /** The row says what the provider decided; a row decided before is as it was. */
  predicate RowAgrees(a: P.Account, b: P.Account)
  {
    if Undecided(a) then
      && (b.row == P.Succeeded || b.row == P.Failed || b.row == P.Pending)
      && (b.row == P.Succeeded <==> b.charge == P.Captured)
      && (b.row == P.Failed <==> b.charge == P.Declined)
      && (b.row == P.Pending <==> b.charge == P.Processing)
      && (a.charge != P.Unseen ==> b.charge == a.charge)
    else b == a
  }

  /** Every line has its row now, and the rows that were there are as they were. */
  predicate EveryLineHeld(s: State, t: State)
  {
    && t.holds.Keys == LineKeys(s)
    && forall k | k in s.holds :: k in t.holds && t.holds[k] == s.holds[k]
  }

  /** Where a drive that started at `s` must leave the order. */
  predicate DriveEnded(s: State, t: State, accepted: bool)
  {
    if !accepted then t.status == Cancelled && HeldKeys(t) == {} && t.account == s.account
    else
      && RowAgrees(s.account, t.account) && Latest(t.journal, OfCharge) == Some(NoteFor(t.account.row))
      && match t.account.row
         case NoRow => false
         case Pending => t.status == Pending && t.placed == s.placed && EveryLineHeld(s, t)
         case Succeeded => t.status == Paid && AllCommitted(t) && HeldKeys(t) == {} && t.placed == s.placed + 1
         case _ => t.status == Cancelled && HeldKeys(t) == {} && t.placed == s.placed
  }

  /** The reservation landed and nothing else but the journal and the payment moved. */
  predicate Reserved(s: State, x: State)
  {
    && s.status == Pending && WellFormed(s.lines)
    && x == s.(journal := x.journal, holds := Placed(s, s.lines), account := x.account)
  }

  predicate AtGateway(s: State, x: State, d: P.Charge)
  {
    && Reserved(s, x) && Undecided(s.account) && x.account.row == P.Pending && x.account.charge == d
    && (s.account.charge != P.Unseen ==> d == s.account.charge)
  }

  predicate ChargeKnown(s: State, x: State)
  {
    && RowAgrees(s.account, x.account) && x.account.row != P.NoRow
    && Latest(x.journal, OfCharge) == Some(NoteFor(x.account.row))
  }

  predicate Paying(s: State, x: State)
  {
    && x.status == Pending && x.placed == s.placed && ChargeKnown(s, x) && x.account.row == P.Succeeded
    && AllCommitted(x)
  }

  predicate Folding(s: State, x: State, accepted: bool)
  {
    if accepted then
      && x.placed == s.placed && ChargeKnown(s, x)
      && (x.account.row == P.Failed || x.account.row == P.Refunded)
    else x.account == s.account
  }

  predicate DriveTrack(s: State, x: State, f: Frame, accepted: bool)
  {
    match f
    case DLogReserved => accepted && Reserved(s, x) && x.account == s.account
    case DLogCharge => accepted && Reserved(s, x) && x.account == s.account
    case DReadLive => accepted && Reserved(s, x) && x.account == s.account
    case DCreatePayment => accepted && Reserved(s, x) && x.account == s.account
    case DGateway => accepted && AtGateway(s, x, x.account.charge) && x.account.charge == s.account.charge
    case DApply(d) => accepted && AtGateway(s, x, d) && d != P.Unseen
    case DReRead => accepted && AtGateway(s, x, P.Processing)
    case DLogOutcome(n, uncertain) =>
      && accepted && !uncertain && Reserved(s, x) && RowAgrees(s.account, x.account) && x.account.row != P.NoRow
      && n == NoteFor(x.account.row)
    case DLogCommit => accepted && Reserved(s, x) && ChargeKnown(s, x) && x.account.row == P.Succeeded
    case DCommit => accepted && Reserved(s, x) && ChargeKnown(s, x) && x.account.row == P.Succeeded
    case DCommitCheck => accepted && Paying(s, x) && CommitFits(x)
    case DLogCommitted => accepted && Paying(s, x)
    case DLogMarkPaid => accepted && Paying(s, x)
    case DFlip => accepted && Paying(s, x)
    case DLogPaid =>
      accepted && x.status == Paid && x.placed == s.placed + 1 && ChargeKnown(s, x)
      && x.account.row == P.Succeeded && AllCommitted(x)
    case KLog => x.status == Pending && Folding(s, x, accepted)
    case KRelease => x.status == Pending && Folding(s, x, accepted)
    case KCancel => x.status == Pending && Folding(s, x, accepted) && HeldKeys(x) == {}
    case KLogDone => x.status == Cancelled && Folding(s, x, accepted) && HeldKeys(x) == {}
    case _ => false
  }

  /** The reservation decides: hold on, or give up. */
  lemma DriveReserves(s: State, x: State, c: Choice)
    requires s.status == Pending && x == s.(journal := x.journal) && ChoiceOk(x, DReserve, c)
    ensures var (w, next) := Step(x, DReserve, c);
            next.Some? && DriveTrack(s, After(x, w), next.value, c == Accepted)
  {
    hide WellFormed, Fresh, RefundStep, SettleStep, Latest, CommitFits;
  }

  /** From the reservation to the payment row. */
  lemma DriveOpens(s: State, x: State, f: Frame, c: Choice, accepted: bool)
    requires f.DLogReserved? || f.DLogCharge? || f.DReadLive? || f.DCreatePayment?
    requires Safety.Core(x) && DriveTrack(s, x, f, accepted) && ChoiceOk(x, f, c)
    ensures var (w, next) := Step(x, f, c); next.Some? && DriveTrack(s, After(x, w), next.value, accepted)
  {
    hide Safety.HoldsOk, Safety.MarkersTrue, AllCommitted, CommitFits, P.HistoryInv, WellFormed, Fresh, OrderKeys,
        RefundStep, SettleStep, HasRefundMarker, Latest, LineKeys, Placed;
  }

  /** From the provider to the outcome to journal. */
  lemma DriveCharges(s: State, x: State, f: Frame, c: Choice, accepted: bool)
    requires f.DGateway? || f.DApply? || f.DReRead?
    requires Safety.Core(x) && DriveTrack(s, x, f, accepted) && ChoiceOk(x, f, c)
    ensures var (w, next) := Step(x, f, c); next.Some? && DriveTrack(s, After(x, w), next.value, accepted)
  {
    hide Safety.HoldsOk, Safety.MarkersTrue, AllCommitted, CommitFits, P.HistoryInv, WellFormed, Fresh, OrderKeys,
        RefundStep, SettleStep, HasRefundMarker, Latest, LineKeys, Placed;
  }

  lemma PlacedHoldsEveryLine(s: State, x: State)
    requires Safety.HoldsOk(s) && Reserved(s, x)
    ensures EveryLineHeld(s, x)
  {
    hide Safety.HoldsOk, WellFormed, Fresh;
    FreshRows(Ledger(map[], s.holds), s.id, s.lines);
    Money.EveryLinePlaced(s);
    Safety.PlaceKeepsHolds(s);
    Safety.RowsAreLines(After(s, Place));
  }

  /** The outcome decides: commit, compensate, or leave a charge still open to the poller. */
  lemma DriveOutcome(s: State, x: State, f: Frame, c: Choice, accepted: bool)
    requires f.DLogOutcome? && Safety.HoldsOk(s)
    requires DriveTrack(s, x, f, accepted)
    ensures var (w, next) := Step(x, f, c);
            if next.Some? then DriveTrack(s, After(x, w), next.value, accepted)
            else DriveEnded(s, After(x, w), accepted)
  {
    hide Safety.HoldsOk, AllCommitted, CommitFits, WellFormed, Fresh, OrderKeys, RefundStep, SettleStep, Latest,
        LineKeys, Placed, EveryLineHeld;
    LatestGrows(x.journal, Entry(OfCharge, f.note), OfCharge);
    PlacedHoldsEveryLine(s, After(x, Step(x, f, c).0));
  }

  lemma DriveCommits(s: State, x: State)
    requires Safety.HoldsOk(s) && Safety.HoldsOk(x) && DriveTrack(s, x, DCommit, true)
    ensures var y := After(x, CommitHolds); Paying(s, y) && CommitFits(y)
  {
    hide Safety.HoldsOk, AllCommitted, CommitFits, WellFormed, Fresh, OrderKeys, Latest, LineKeys, WithStatus;
    Money.PlacedFits(s);
    Money.CommitLooksAtRows(x, After(s, Place));
    Safety.CommitConsumesAll(x);
    Money.FitsAgain(x);
  }

  /** The commit, its check and the flip. */
  lemma DrivePays(s: State, x: State, f: Frame, c: Choice, accepted: bool)
    requires f.DCommit? || f.DCommitCheck? || f.DFlip?
    requires Safety.HoldsOk(s) && Safety.HoldsOk(x) && DriveTrack(s, x, f, accepted)
    ensures var (w, next) := Step(x, f, c); next.Some? && DriveTrack(s, After(x, w), next.value, accepted)
  {
    hide Safety.HoldsOk, AllCommitted, CommitFits, WellFormed, Fresh, OrderKeys, RefundStep, SettleStep, Latest,
        LineKeys, Placed, WithStatus, RowAgrees;
    if f.DCommit? {
      DriveCommits(s, x);
    } else if f.DCommitCheck? {
      Safety.CommitKeepsHolds(x);
    } else {
      Safety.SameRows(x, After(x, MarkPaid));
    }
  }

  /** The journal rows in between. */
  lemma DriveLogs(s: State, x: State, f: Frame, c: Choice, accepted: bool)
    requires f.DLogCommit? || f.DLogCommitted? || f.DLogMarkPaid? || f.DLogPaid?
    requires Safety.HoldsOk(x) && DriveTrack(s, x, f, accepted)
    ensures var (w, next) := Step(x, f, c);
            if next.Some? then DriveTrack(s, After(x, w), next.value, accepted)
            else DriveEnded(s, After(x, w), accepted)
  {
    hide Safety.HoldsOk, AllCommitted, CommitFits, WellFormed, OrderKeys, RefundStep, SettleStep, Latest, LineKeys,
        Placed, RowAgrees, After;
    var w := Step(x, f, c).0;
    LogKeepsRest(x, Entry(w.topic, w.note));
    LatestGrows(x.journal, Entry(w.topic, w.note), OfCharge);
    Safety.SameRows(x, After(x, w));
    if f.DLogPaid? {
      Safety.AllCommittedHoldsNothing(After(x, w));
    }
  }

  lemma CompensationSteps(x: State, c: Choice)
    ensures Step(x, KLog, c) == (Log(OfCompensate, Started), Some(KRelease))
    ensures Step(x, KRelease, c) == (Release, Some(KCancel)) && Step(x, KCancel, c) == (CancelOrder, Some(KLogDone))
    ensures Step(x, KLogDone, c) == (Log(OfCompensate, Completed), None)
  {
    hide DriveStep, RefundStep, CommitFits;
  }

  /** Compensation. */
  lemma DriveFolds(s: State, x: State, f: Frame, c: Choice, accepted: bool)
    requires f.KLog? || f.KRelease? || f.KCancel? || f.KLogDone?
    requires DriveTrack(s, x, f, accepted)
    ensures var (w, next) := Step(x, f, c);
            if next.Some? then DriveTrack(s, After(x, w), next.value, accepted)
            else DriveEnded(s, After(x, w), accepted)
  {
    hide AllCommitted, CommitFits, WellFormed, Fresh, Step, Latest, LineKeys, Placed, WithStatus, RowAgrees,
        HasRefundMarker, EveryLineHeld;
    CompensationSteps(x, c);
    var y := After(x, Step(x, f, c).0);
    NothingHeldAfterRelease(x);
    hide OrderKeys;
    if f.KLog? || f.KLogDone? {
      LatestGrows(x.journal, y.journal[|x.journal|], OfCharge);
    }
  }

  lemma DriveOn(s: State, x: State, f: Frame, c: Choice, accepted: bool)
    requires Safety.Core(s) && Safety.Core(x) && DriveTrack(s, x, f, accepted) && ChoiceOk(x, f, c)
    ensures var (w, next) := Step(x, f, c);
            if next.Some? then DriveTrack(s, After(x, w), next.value, accepted)
            else DriveEnded(s, After(x, w), accepted)
  {
    assert Safety.HoldsOk(s) && Safety.HoldsOk(x);
    assert DriveTrack(s, x, f, accepted) ==>
        || f.DLogReserved? || f.DLogCharge? || f.DReadLive? || f.DCreatePayment? || f.DGateway? || f.DApply?
        || f.DReRead? || f.DLogOutcome? || f.DLogCommit? || f.DCommit? || f.DCommitCheck? || f.DLogCommitted?
        || f.DLogMarkPaid? || f.DFlip? || f.DLogPaid? || f.KLog? || f.KRelease? || f.KCancel? || f.KLogDone?;
    hide DriveTrack, DriveEnded, Step, After, Safety.Core, ChoiceOk;
    if f.DLogReserved? || f.DLogCharge? || f.DReadLive? || f.DCreatePayment? {
      DriveOpens(s, x, f, c, accepted);
    } else if f.DGateway? || f.DApply? || f.DReRead? {
      DriveCharges(s, x, f, c, accepted);
    } else if f.DLogOutcome? {
      DriveOutcome(s, x, f, c, accepted);
    } else if f.KLog? || f.KRelease? || f.KCancel? || f.KLogDone? {
      DriveFolds(s, x, f, c, accepted);
    } else if f.DCommit? || f.DCommitCheck? || f.DFlip? {
      DrivePays(s, x, f, c, accepted);
    } else {
      DriveLogs(s, x, f, c, accepted);
    }
  }

  // ---------------------------------------------------------------- refunds

  predicate Clear(x: State)
  {
    OrderKeys(x.holds, x.id, Committed) == {}
  }

  /** A refund under way, as far as the payment row and the provider have come. */
  predicate Asking(x: State, f: Frame)
  {
    match f
    case FRead(_) => Took(x)
    case FGateway(_) => x.account.row == P.Succeeded
    case FFlip(_) => x.account.row == P.Succeeded && x.account.refund == P.Returned
    case FLogCompleted(_) => x.account.row == P.Refunded
    case FLogRefused(_) => x.account.row == P.Succeeded && x.account.refund == P.Refused
    case _ => false
  }

  function CallerOf(f: Frame): Caller
    requires f.FRead? || f.FGateway? || f.FFlip? || f.FLogCompleted? || f.FLogRefused?
  {
    f.who
  }

  lemma RestockClears(x: State)
    ensures var y := After(x, RestockHolds); Clear(y) && y == x.(holds := y.holds)
  {
  }

  /** The caller journals whatever the refund answers. */
  predicate Whole(who: Caller)
  {
    who == Orphan(true, true) || who == Settling || who == Retrying
  }

  lemma RefundSteps(x: State, who: Caller, c: Choice)
    requires P.MoneyInv(x.account) && Whole(who)
    ensures Took(x) ==>
              Step(x, FRead(who), c)
              == (Nothing, Some(if x.account.row == P.Succeeded then FGateway(who) else FLogCompleted(who)))
    ensures var act := P.RefundAtProvider(c == Grants(true));
            Step(x, FGateway(who), c)
            == (Pay(act), Some(if P.Next(x.account, act).refund == P.Returned then FFlip(who) else FLogRefused(who)))
    ensures x.account.row == P.Succeeded ==>
              Step(x, FFlip(who), c) == (Pay(P.ApplyRefund), Some(FLogCompleted(who)))
  {
    hide P.Next, DriveStep, SettleStep;
  }

  /** The refund goes on, for the same caller, and touches nothing but the account. */
  lemma RefundOn(x: State, f: Frame, c: Choice)
    requires f.FRead? || f.FGateway? || f.FFlip?
    requires P.MoneyInv(x.account) && Asking(x, f)
    requires Whole(CallerOf(f))
    ensures var (w, next) := Step(x, f, c);
            && next.Some? && Asking(After(x, w), next.value) && CallerOf(next.value) == CallerOf(f)
            && After(x, w) == x.(account := After(x, w).account)
  {
    hide Step, After, PartOf, AfterRefund, CommitFits;
    RefundSteps(x, CallerOf(f), c);
    PayTouchesTheAccount(x, P.RefundAtProvider(c == Grants(true)));
    PayTouchesTheAccount(x, P.ApplyRefund);
  }

  /** Its answer is journaled, and the money is settled. */
  lemma RefundJournaled(x: State, f: Frame, c: Choice)
    requires f.FLogCompleted? || f.FLogRefused?
    requires P.MoneyInv(x.account) && Asking(x, f)
    ensures var (w, next) := Step(x, f, c);
            && MoneySettled(After(x, w)) && After(x, w) == x.(journal := After(x, w).journal)
            && next == if CallerOf(f) == Settling then Some(KLog) else None
  {
    hide DriveStep, SettleStep;
    var y := After(x, Step(x, f, c).0);
    assert y.journal[|x.journal|] in y.journal;
  }

  /** A charged drive on an order that was cancelled meanwhile. */
  predicate UndoTrack(x: State, f: Frame)
  {
    && x.status == Cancelled
    && match f
       case DApply(d) => d == P.Captured && (x.account.row == P.Pending || x.account.row == P.Succeeded)
       case DReRead => x.account.row == P.Succeeded
       case DLogOutcome(n, _) => n == Completed && Took(x)
       case DLogCommit => Took(x)
       case DCommit => Took(x)
       case DCommitAgain => Took(x)
       case DCommitCheck => Took(x)
       case DLogShortfall => Took(x)
       case DShortStatus => Took(x)
       case DLogCommitted => Took(x)
       case DLogMarkPaid => Took(x)
       case DFlip => Took(x)
       case DReadSettled => Took(x)
       case OLogRequested => Took(x)
       case OReadStatus(intent) => intent && Took(x)
       case ORestock(intent) => intent && Took(x)
       case FRead(who) => who == Orphan(true, true) && Clear(x) && Asking(x, f)
       case FGateway(who) => who == Orphan(true, true) && Clear(x) && Asking(x, f)
       case FFlip(who) => who == Orphan(true, true) && Clear(x) && Asking(x, f)
       case FLogCompleted(who) => who == Orphan(true, true) && Clear(x) && Asking(x, f)
       case FLogRefused(who) => who == Orphan(true, true) && Clear(x) && Asking(x, f)
       case _ => false
  }

  /** The money is back or refused, journaled so, and the order keeps no stock it had consumed. */
  predicate UndoEnded(t: State)
  {
    t.status == Cancelled && Clear(t) && MoneySettled(t)
  }

  lemma UndoDrives(x: State, f: Frame, c: Choice)
    requires PartOf(f) == Driver && UndoTrack(x, f)
    ensures var (w, next) := Step(x, f, c); next.Some? && UndoTrack(After(x, w), next.value)
  {
    hide CommitFits, OrderKeys, WithStatus, RefundStep, SettleStep, HasRefundMarker;
  }

  lemma UndoUnwinds(x: State, f: Frame, c: Choice)
    requires f.OLogRequested? || f.OReadStatus? || f.ORestock?
    requires UndoTrack(x, f)
    ensures var (w, next) := Step(x, f, c); next.Some? && UndoTrack(After(x, w), next.value)
  {
    hide OrderKeys, DriveStep, SettleStep, P.Next, Clear;
    RestockClears(x);
  }

  lemma UndoOn(x: State, f: Frame, c: Choice)
    requires P.MoneyInv(x.account) && UndoTrack(x, f)
    ensures var (w, next) := Step(x, f, c);
            if next.Some? then UndoTrack(After(x, w), next.value) else UndoEnded(After(x, w))
  {
    hide Step, After, OrderKeys, P.MoneyInv, MoneySettled;
    if f.FRead? || f.FGateway? || f.FFlip? {
      RefundOn(x, f, c);
    } else if f.FLogCompleted? || f.FLogRefused? {
      RefundJournaled(x, f, c);
    } else if f.OLogRequested? || f.OReadStatus? || f.ORestock? {
      hide UndoTrack;
      UndoUnwinds(x, f, c);
    } else {
      assert PartOf(f) == Driver;
      hide UndoTrack;
      UndoDrives(x, f, c);
    }
  }

  // ---------------------------------------------------------------- the poller

  /** The charge stands and a line has lost its row. */
  predicate Short(s: State)
  {
    s.account.row == P.Succeeded && s.holds.Keys != LineKeys(s)
  }

  predicate Full(s: State)
  {
    s.account.row == P.Succeeded && s.holds.Keys == LineKeys(s)
  }

  predicate CallingOff(s: State, x: State)
  {
    if Short(s) then Clear(x) && MoneySettled(x)
    else s.account.row != P.Pending && s.account.row != P.Succeeded && x.account == s.account
  }

  predicate SettleRefunds(s: State, x: State, f: Frame)
    requires f.FRead? || f.FGateway? || f.FFlip? || f.FLogCompleted? || f.FLogRefused?
  {
    CallerOf(f) == Settling && Short(s) && x.status == Pending && Clear(x) && Asking(x, f)
  }

  predicate SettlePays(s: State, x: State)
  {
    Full(s) && x.status == Pending && x.account == s.account && x.placed == s.placed && AllCommitted(x)
  }

  ghost predicate SettleTrack(s: State, x: State, f: Frame)
  {
    match f
    case SReadPayment => x == s && s.status == Pending
    case SCommit => x == s && s.status == Pending && s.account.row == P.Succeeded
    case SLogCommitted => SettlePays(s, x)
    case SLogMarkPaid => SettlePays(s, x)
    case SFlip => SettlePays(s, x)
    case SLogPaid => Full(s) && PaidInFull(s, x)
    case FRead(_) => SettleRefunds(s, x, f)
    case FGateway(_) => SettleRefunds(s, x, f)
    case FFlip(_) => SettleRefunds(s, x, f)
    case FLogCompleted(_) => SettleRefunds(s, x, f)
    case FLogRefused(_) => SettleRefunds(s, x, f)
    case KLog => x.status == Pending && CallingOff(s, x)
    case KRelease => x.status == Pending && CallingOff(s, x)
    case KCancel => x.status == Pending && CallingOff(s, x) && HeldKeys(x) == {}
    case KLogDone => x.status == Cancelled && CallingOff(s, x) && HeldKeys(x) == {}
    case _ => false
  }

  lemma SettleSteps(x: State, c: Choice)
    ensures Step(x, SReadPayment, c) == (Nothing, match x.account.row
                                                  case Succeeded => Some(SCommit)
                                                  case Pending => None
                                                  case _ => Some(KLog))
    ensures Step(x, SCommit, c) == (CommitHolds, Some(if CommitFits(x) then SLogCommitted else FRead(Settling)))
  {
    hide CommitFits, DriveStep, RefundStep;
  }

  lemma PayingSteps(x: State, c: Choice)
    ensures Step(x, SLogCommitted, c) == (Log(OfCommit, Completed), Some(SLogMarkPaid))
    ensures Step(x, SLogMarkPaid, c) == (Log(OfMarkPaid, Started), Some(SFlip))
    ensures x.status == Pending ==> Step(x, SFlip, c) == (MarkPaid, Some(SLogPaid))
    ensures Step(x, SLogPaid, c) == (Log(OfMarkPaid, Completed), None)
  {
    hide CommitFits, DriveStep, RefundStep;
  }

  lemma SettleCommits(s: State, c: Choice)
    requires Safety.HoldsOk(s) && s.status == Pending && s.account.row == P.Succeeded
    ensures var (w, next) := Step(s, SCommit, c); next.Some? && SettleTrack(s, After(s, w), next.value)
  {
    hide Step, LineKeys, WellFormed;
    SettleSteps(s, c);
    FitsIffEveryLineOwned(s);
    if CommitFits(s) {
      Safety.CommitConsumesAll(s);
    } else {
      ShortMeansNoneCommitted(s);
      assert Clear(s);
    }
    hide CommitFits, OrderKeys, AllCommitted, Safety.HoldsOk;
  }

  lemma SettleReads(s: State, c: Choice)
    requires s.status == Pending
    ensures var (w, next) := Step(s, SReadPayment, c);
            if next.Some? then SettleTrack(s, After(s, w), next.value) else SettledRight(s, After(s, w))
  {
    hide Step, LineKeys, OrderKeys, MoneySettled, PaidInFull, CalledOff, CommitFits;
    SettleSteps(s, c);
  }

  lemma SettlePaysOn(s: State, x: State, f: Frame, c: Choice)
    requires f.SLogCommitted? || f.SLogMarkPaid? || f.SFlip? || f.SLogPaid?
    requires SettleTrack(s, x, f) && Safety.HoldsOk(x)
    ensures var (w, next) := Step(x, f, c);
            if next.Some? then SettleTrack(s, After(x, w), next.value) else SettledRight(s, After(x, w))
  {
    hide Step, LineKeys, AllCommitted, OrderKeys, Safety.HoldsOk, CommitFits;
    PayingSteps(x, c);
    Safety.SameRows(x, After(x, Step(x, f, c).0));
    Safety.AllCommittedHoldsNothing(x);
  }

  lemma JournalKeepsSettled(x: State, y: State)
    requires x.journal <= y.journal && y.account == x.account && MoneySettled(x)
    ensures MoneySettled(y)
  {
    assert forall e | e in x.journal :: e in y.journal;
  }

  lemma SettleFolds(s: State, x: State, f: Frame, c: Choice)
    requires f.KLog? || f.KRelease? || f.KCancel? || f.KLogDone?
    requires SettleTrack(s, x, f)
    ensures var (w, next) := Step(x, f, c);
            if next.Some? then SettleTrack(s, After(x, w), next.value) else SettledRight(s, After(x, w))
  {
    hide Step, LineKeys, AllCommitted, MoneySettled, HasRefundMarker, CommitFits;
    CompensationSteps(x, c);
    var y := After(x, Step(x, f, c).0);
    NothingHeldAfterRelease(x);
    hide OrderKeys;
    if MoneySettled(x) {
      JournalKeepsSettled(x, y);
    }
  }

  lemma SettleRefundsOn(s: State, x: State, f: Frame, c: Choice)
    requires f.FRead? || f.FGateway? || f.FFlip? || f.FLogCompleted? || f.FLogRefused?
    requires P.MoneyInv(x.account) && SettleTrack(s, x, f)
    ensures var (w, next) := Step(x, f, c); next.Some? && SettleTrack(s, After(x, w), next.value)
  {
    hide Step, After, OrderKeys, P.MoneyInv, MoneySettled, LineKeys, AllCommitted, Took;
    if f.FRead? || f.FGateway? || f.FFlip? {
      RefundOn(x, f, c);
    } else {
      RefundJournaled(x, f, c);
    }
  }

  lemma SettleOn(s: State, x: State, f: Frame, c: Choice)
    requires Safety.Core(s) && Safety.Core(x) && SettleTrack(s, x, f)
    ensures var (w, next) := Step(x, f, c);
            if next.Some? then SettleTrack(s, After(x, w), next.value) else SettledRight(s, After(x, w))
  {
    assert Safety.HoldsOk(s) && Safety.HoldsOk(x) && P.MoneyInv(x.account);
    SettleFrames(s, x, f);
    hide Step, After, P.MoneyInv, SettledRight, Safety.Core, SettleTrack;
    if f.FRead? || f.FGateway? || f.FFlip? || f.FLogCompleted? || f.FLogRefused? {
      SettleRefundsOn(s, x, f, c);
    } else if f.SCommit? {
      SettleCommits(s, c);
    } else if f.KLog? || f.KRelease? || f.KCancel? || f.KLogDone? {
      SettleFolds(s, x, f, c);
    } else if f.SReadPayment? {
      SettleReads(s, c);
    } else {
      SettlePaysOn(s, x, f, c);
    }
  }

  lemma SettleFrames(s: State, x: State, f: Frame)
    requires SettleTrack(s, x, f)
    ensures || f.FRead? || f.FGateway? || f.FFlip? || f.FLogCompleted? || f.FLogRefused?
            || f.KLog? || f.KRelease? || f.KCancel? || f.KLogDone?
            || f.SReadPayment? || f.SCommit? || f.SLogCommitted? || f.SLogMarkPaid? || f.SFlip? || f.SLogPaid?
    ensures f.SReadPayment? ==> x == s && s.status == Pending
    ensures f.SCommit? ==> x == s && s.status == Pending && s.account.row == P.Succeeded
  {
    hide OrderKeys, LineKeys, AllCommitted, MoneySettled;
  }

  predicate RetryTrack(x: State, f: Frame)
  {
    && x.status == Cancelled && Took(x)
    && match f
       case QReadStatus => true
       case QRestock => true
       case QReadPayment => Clear(x)
       case FRead(who) => who == Retrying && Clear(x) && Asking(x, f)
       case FGateway(who) => who == Retrying && Clear(x) && Asking(x, f)
       case FFlip(who) => who == Retrying && Clear(x) && Asking(x, f)
       case FLogCompleted(who) => who == Retrying && Clear(x) && Asking(x, f)
       case FLogRefused(who) => who == Retrying && Clear(x) && Asking(x, f)
       case _ => false
  }

  lemma RetrySteps(x: State, c: Choice)
    requires x.status == Cancelled && Took(x)
    ensures Step(x, QReadStatus, c) == (Nothing, Some(QRestock))
    ensures Step(x, QRestock, c) == (RestockHolds, Some(QReadPayment))
    ensures Step(x, QReadPayment, c)
         == (Nothing, Some(if x.account.row == P.Refunded then FLogCompleted(Retrying) else FRead(Retrying)))
  {
    hide DriveStep, RefundStep, CommitFits;
  }

  lemma RetryOpens(x: State, f: Frame, c: Choice)
    requires f.QReadStatus? || f.QRestock? || f.QReadPayment?
    requires RetryTrack(x, f)
    ensures var (w, next) := Step(x, f, c); next.Some? && RetryTrack(After(x, w), next.value)
  {
    hide OrderKeys, Step, P.Next, Clear, After;
    RetrySteps(x, c);
    RestockClears(x);
    PayTouchesTheAccount(x, P.ApplyRefund);
  }

  lemma RetryOn(x: State, f: Frame, c: Choice)
    requires P.MoneyInv(x.account) && RetryTrack(x, f)
    ensures var (w, next) := Step(x, f, c);
            if next.Some? then RetryTrack(After(x, w), next.value) else IntentClosed(After(x, w))
  {
    hide Step, After, OrderKeys, P.MoneyInv;
    if f.FRead? || f.FGateway? || f.FFlip? {
      RefundOn(x, f, c);
    } else if f.FLogCompleted? || f.FLogRefused? {
      RefundJournaled(x, f, c);
    } else {
      RetryOpens(x, f, c);
    }
  }

  // ---------------------------------------------------------------- the user and the reconciler

  /** The latest charge entry says a charge is out, or landed. */
  predicate ChargeMayStand(s: State)
  {
    Latest(s.journal, OfCharge) in {Some(Started), Some(Completed), Some(Unknown)}
  }

  /** Where a user's cancel must leave the order. */
  predicate CancelEnded(s: State, t: State)
  {
    match s.status
    case Paid => t == s
    case Cancelled => t == s.(holds := t.holds) && HeldKeys(t) == {} && SameCommitted(s, t)
    case Pending =>
      if ChargeMayStand(s) then t == s
      else
        && t.status == Cancelled && HeldKeys(t) == {} && SameCommitted(s, t) && t.account == s.account
        && Journaled(t, OfCancel, Completed)
  }

  predicate SameCommitted(s: State, t: State)
  {
    OrderKeys(t.holds, t.id, Committed) == OrderKeys(s.holds, s.id, Committed)
  }

  predicate CancelTrack(s: State, x: State, f: Frame)
  {
    && x == s
    && match f
       case URead => true
       case UReadCharge => s.status == Pending
       case UCancel => s.status == Pending && !ChargeMayStand(s)
       case URelease => s.status == Cancelled
       case _ => false
  }

  lemma CancelOn(s: State, x: State, f: Frame, c: Choice)
    requires CancelTrack(s, x, f)
    ensures var (w, next) := Step(x, f, c);
            if next.Some? then CancelTrack(s, After(x, w), next.value) else CancelEnded(s, After(x, w))
  {
    NothingHeldAfterRelease(s);
    hide DriveStep, RefundStep, HasRefundMarker, OrderKeys, Latest, CommitFits;
    var y := After(x, Step(x, f, c).0);
    if f.UCancel? {
      assert y.journal[|y.journal| - 1] == Entry(OfCancel, Completed);
    }
  }

  /** Where the reconciler must leave a pending row. */
  predicate ReconcileEnded(s: State, t: State, stale: bool)
  {
    && t.status == s.status && t.holds == s.holds && t.account.charge == s.account.charge
    && match s.account.charge
       case Captured => t.account.row == P.Succeeded && t.account.hasRef
       case Declined => t.account.row == P.Failed && !t.account.abandoned
       case Processing => t == s
       case Unseen => if stale then t.account.row == P.Failed && t.account.abandoned else t == s
  }

  predicate ReconcileTrack(s: State, x: State, f: Frame, stale: bool)
  {
    && x == s && s.account.row == P.Pending
    && match f
       case RApply(d) => d == s.account.charge && (d == P.Captured || d == P.Declined)
       case RAbandon => s.account.charge == P.Unseen && stale
       case _ => false
  }

  lemma ReconcileLooks(s: State, c: Choice)
    requires s.account.row == P.Pending
    ensures var (w, next) := Step(s, RLookup, c);
            && w == Nothing
            && if next.Some? then ReconcileTrack(s, s, next.value, c == Turned)
               else ReconcileEnded(s, s, c == Turned)
  {
    hide DriveStep, RefundStep, CommitFits, Latest;
  }

  lemma ReconcileOn(s: State, x: State, f: Frame, c: Choice, stale: bool)
    requires P.MoneyInv(x.account) && ReconcileTrack(s, x, f, stale)
    ensures var (w, next) := Step(x, f, c); next.None? && ReconcileEnded(s, After(x, w), stale)
  {
    hide DriveStep, RefundStep, CommitFits, Latest, HasRefundMarker;
  }
}
