/**
 Where a drive that raised must end: before its charge it compensates; unsure of its charge it looks, and
 waits unless the row says failed; charged, it tries its commit once more and otherwise leaves the order to
 the poller; an undo that could not restock keeps its refund intent open, and one that could not journal its
 intent goes through all the same.
 */
module CheckoutFaults {
  import opened Options
  import opened Inventory
  import opened Checkout
  import opened CheckoutSolo
  import opened CheckoutTracks
  import opened Recovery
  import P = Payments
  import Safety = CheckoutSafety
  import Money = CheckoutMoney

  // ---------------------------------------------------------------- compensation

  /** Compensated: no longer pending, nothing held, money and consumed stock untouched. */
  predicate FoldEnded(s: State, t: State)
  {
    && t.status == (if s.status == Pending then Cancelled else s.status)
    && HeldKeys(t) == {} && SameCommitted(s, t) && t.account == s.account
  }

  predicate FoldTrack(s: State, x: State, f: Frame)
  {
    && x.account == s.account && SameCommitted(s, x)
    && match f
       case KLog => x.status == s.status
       case KRelease => x.status == s.status
       case KCancel => x.status == s.status && HeldKeys(x) == {}
       case KLogDone => FoldEnded(s, x)
       case _ => false
  }

  lemma FoldOn(s: State, x: State, f: Frame, c: Choice)
    requires FoldTrack(s, x, f)
    ensures var (w, next) := Step(x, f, c);
            if next.Some? then FoldTrack(s, After(x, w), next.value) else FoldEnded(s, After(x, w))
  {
    hide Step, HasRefundMarker, CommitFits;
    CompensationSteps(x, c);
    NothingHeldAfterRelease(x);
    hide OrderKeys;
  }

  // ---------------------------------------------------------------- an uncertain charge

  /** Looked up as failed, the order is compensated; otherwise the doubt is journaled and nothing else moves. */
  predicate UnsureEnded(s: State, t: State, looked: bool)
  {
    if looked && s.account.row == P.Failed then FoldEnded(s, t)
    else t == s.(journal := s.journal + [Entry(OfCharge, Unknown)])
  }

  predicate UnsureTrack(s: State, x: State, f: Frame, looked: bool)
  {
    match f
    case DUncertain => x == s && looked
    case DLogOutcome(n, uncertain) =>
      x == s && uncertain && n == if looked && s.account.row == P.Failed then Failed else Unknown
    case _ => looked && s.account.row == P.Failed && FoldTrack(s, x, f)
  }

  lemma UnsureOn(s: State, x: State, f: Frame, c: Choice, looked: bool)
    requires UnsureTrack(s, x, f, looked)
    ensures var (w, next) := Step(x, f, c);
            if next.Some? then UnsureTrack(s, After(x, w), next.value, looked)
            else UnsureEnded(s, After(x, w), looked)
  {
    hide OrderKeys, RefundStep, SettleStep, CommitFits;
    if f.DUncertain? || f.DLogOutcome? {
      UnsureLooks(s, f, c, looked);
    } else {
      FoldOn(s, x, f, c);
      FoldStaysFold(x, f, c);
    }
  }

  lemma UnsureLooks(s: State, f: Frame, c: Choice, looked: bool)
    requires (f.DUncertain? || f.DLogOutcome?) && UnsureTrack(s, s, f, looked)
    ensures var (w, next) := Step(s, f, c);
            if next.Some? then UnsureTrack(s, After(s, w), next.value, looked)
            else UnsureEnded(s, After(s, w), looked)
  {
    hide OrderKeys, RefundStep, SettleStep, CommitFits, P.Next;
  }

  lemma FoldStaysFold(x: State, f: Frame, c: Choice)
    requires f.KLog? || f.KRelease? || f.KCancel? || f.KLogDone?
    ensures Step(x, f, c).1.Some? ==> !Step(x, f, c).1.value.DUncertain? && !Step(x, f, c).1.value.DLogOutcome?
  {
    hide Step;
    CompensationSteps(x, c);
  }

  // ---------------------------------------------------------------- a charged drive on a pending order

  /** Paid if every line still has its row; otherwise the shortfall is journaled and all is left to the poller. */
  predicate FinishEnded(s: State, t: State)
  {
    && t.account == s.account
    && if s.holds.Keys == LineKeys(s) then
         t.status == Paid && AllCommitted(t) && HeldKeys(t) == {} && t.placed == s.placed + 1
       else t == s.(journal := t.journal) && Journaled(t, OfCommit, Shortfall)
  }

  predicate Finishing(s: State, x: State)
  {
    && x.status == Pending && x.account == s.account && x.placed == s.placed && s.holds.Keys == LineKeys(s)
    && AllCommitted(x)
  }

  predicate FinishTrack(s: State, x: State, f: Frame)
  {
    && s.status == Pending
    && match f
       case DLogOutcome(n, _) => n == Completed && x == s.(journal := x.journal)
       case DLogCommit => x == s.(journal := x.journal)
       case DCommit => x == s.(journal := x.journal)
       case DCommitAgain => x == s.(journal := x.journal)
       case DCommitCheck =>
         if s.holds.Keys == LineKeys(s) then
           x.status == Pending && x.account == s.account && x.placed == s.placed && CommitFits(x)
         else x == s.(journal := x.journal)
       case DLogShortfall => s.holds.Keys != LineKeys(s) && x == s.(journal := x.journal)
       case DShortStatus =>
         s.holds.Keys != LineKeys(s) && x == s.(journal := x.journal) && Journaled(x, OfCommit, Shortfall)
       case DLogCommitted => Finishing(s, x)
       case DLogMarkPaid => Finishing(s, x)
       case DFlip => Finishing(s, x)
       case DLogPaid =>
         && s.holds.Keys == LineKeys(s) && x.status == Paid && x.account == s.account && x.placed == s.placed + 1
         && AllCommitted(x)
       case _ => false
  }

  lemma CommitSteps(x: State, c: Choice)
    ensures Step(x, DCommit, c) == (CommitHolds, Some(DCommitCheck))
    ensures Step(x, DCommitAgain, c) == (CommitHolds, Some(DCommitCheck))
    ensures Step(x, DCommitCheck, c) == (CommitHolds, Some(if CommitFits(x) then DLogCommitted else DLogShortfall))
  {
    hide CommitFits, RefundStep, SettleStep;
  }

  lemma CommitAsWas(s: State, x: State)
    requires Safety.HoldsOk(s) && x == s.(journal := x.journal)
    ensures CommitFits(x) <==> s.holds.Keys == LineKeys(s)
  {
    hide Safety.HoldsOk, LineKeys, CommitFits;
    FitsIffEveryLineOwned(s);
    Money.CommitLooksAtRows(s, x);
  }

  lemma CommitDoes(x: State)
    requires Safety.HoldsOk(x)
    ensures var y := After(x, CommitHolds);
            if CommitFits(x) then y == x.(holds := y.holds) && AllCommitted(y) && CommitFits(y) else y == x
  {
    hide Safety.HoldsOk, CommitFits, AllCommitted, WithStatus, OrderKeys;
    if CommitFits(x) {
      Safety.CommitConsumesAll(x);
      Money.FitsAgain(x);
    }
  }

  lemma FinishCommits(s: State, x: State, f: Frame, c: Choice)
    requires Safety.HoldsOk(s) && Safety.HoldsOk(x) && FinishTrack(s, x, f)
    requires f.DCommit? || f.DCommitAgain? || f.DCommitCheck?
    ensures var (w, next) := Step(x, f, c); next.Some? && FinishTrack(s, After(x, w), next.value)
  {
    hide Safety.HoldsOk, AllCommitted, LineKeys, Step, After, CommitFits;
    CommitSteps(x, c);
    CommitDoes(x);
    if x == s.(journal := x.journal) {
      CommitAsWas(s, x);
    }
  }

  lemma FinishLogs(s: State, x: State, f: Frame, c: Choice)
    requires Safety.HoldsOk(x) && FinishTrack(s, x, f)
    requires f.DLogOutcome? || f.DLogCommit? || f.DLogShortfall? || f.DLogCommitted? || f.DLogMarkPaid? || f.DLogPaid?
    ensures var (w, next) := Step(x, f, c);
            if next.Some? then FinishTrack(s, After(x, w), next.value) else FinishEnded(s, After(x, w))
  {
    hide Safety.HoldsOk, AllCommitted, LineKeys, OrderKeys, RefundStep, SettleStep, CommitFits, After, Journaled;
    var w := Step(x, f, c).0;
    LogKeepsRest(x, Entry(w.topic, w.note));
    JournaledNow(x, Entry(w.topic, w.note));
    Safety.SameRows(x, After(x, w));
    if f.DLogPaid? {
      Safety.AllCommittedHoldsNothing(After(x, w));
    }
  }

  lemma JournaledNow(x: State, e: Entry)
    ensures Journaled(x.(journal := x.journal + [e]), e.topic, e.note)
  {
    assert (x.journal + [e])[|x.journal|] == e;
  }

  lemma FinishFlips(s: State, x: State, f: Frame, c: Choice)
    requires FinishTrack(s, x, f) && (f.DShortStatus? || f.DFlip?)
    ensures var (w, next) := Step(x, f, c);
            if next.Some? then FinishTrack(s, After(x, w), next.value) else FinishEnded(s, After(x, w))
  {
    hide AllCommitted, LineKeys, OrderKeys, RefundStep, SettleStep, CommitFits, Journaled;
    SameCommit(x, After(x, MarkPaid));
  }

  lemma SameCommit(x: State, y: State)
    requires y.id == x.id && y.lines == x.lines && y.holds == x.holds
    ensures AllCommitted(y) == AllCommitted(x)
  {
  }

  lemma FinishOn(s: State, x: State, f: Frame, c: Choice)
    requires Safety.Core(s) && Safety.Core(x) && FinishTrack(s, x, f)
    ensures var (w, next) := Step(x, f, c);
            if next.Some? then FinishTrack(s, After(x, w), next.value) else FinishEnded(s, After(x, w))
  {
    assert Safety.HoldsOk(s) && Safety.HoldsOk(x);
    assert FinishTrack(s, x, f) ==>
        || f.DLogOutcome? || f.DLogCommit? || f.DCommit? || f.DCommitAgain? || f.DCommitCheck? || f.DLogShortfall?
        || f.DShortStatus? || f.DLogCommitted? || f.DLogMarkPaid? || f.DFlip? || f.DLogPaid?;
    hide FinishTrack, FinishEnded, Step, After, Safety.Core;
    if f.DCommit? || f.DCommitAgain? || f.DCommitCheck? {
      FinishCommits(s, x, f, c);
    } else if f.DShortStatus? || f.DFlip? {
      FinishFlips(s, x, f, c);
    } else {
      FinishLogs(s, x, f, c);
    }
  }

  // ---------------------------------------------------------------- an undo that could not restock

  /** A returned charge is not journaled as closed, so that the poller restocks; a refusal is, if there is an intent. */
  predicate HalfUndoEnded(s: State, t: State, intent: bool)
  {
    && t.status == s.status && t.holds == s.holds
    && if t.account.row == P.Refunded then t.journal == s.journal
       else
         && t.account.row == P.Succeeded && t.account.refund == P.Refused
         && t.journal == if intent then s.journal + [Entry(OfRefund, Refused)] else s.journal
  }

  predicate HalfUndoTrack(s: State, x: State, f: Frame, intent: bool)
  {
    && x == s.(account := x.account)
    && match f
       case FRead(who) => who == Orphan(intent, false) && Asking(x, f)
       case FGateway(who) => who == Orphan(intent, false) && Asking(x, f)
       case FFlip(who) => who == Orphan(intent, false) && Asking(x, f)
       case FLogRefused(who) => who == Orphan(intent, false) && intent && Asking(x, f)
       case _ => false
  }

  lemma HalfUndoSteps(x: State, intent: bool, c: Choice)
    requires P.MoneyInv(x.account)
    ensures var who := Orphan(intent, false);
            var act := P.RefundAtProvider(c == Grants(true));
            && (Took(x) ==>
                  Step(x, FRead(who), c)
                  == (Nothing, if x.account.row == P.Succeeded then Some(FGateway(who)) else None))
            && Step(x, FGateway(who), c)
               == (Pay(act), if P.Next(x.account, act).refund == P.Returned then Some(FFlip(who))
                             else if intent then Some(FLogRefused(who)) else None)
            && (x.account.row == P.Succeeded ==> Step(x, FFlip(who), c) == (Pay(P.ApplyRefund), None))
            && Step(x, FLogRefused(who), c) == (Log(OfRefund, Refused), None)
  {
    hide P.Next, DriveStep, SettleStep;
  }

  lemma HalfUndoOn(s: State, x: State, f: Frame, c: Choice, intent: bool)
    requires P.MoneyInv(x.account) && HalfUndoTrack(s, x, f, intent)
    ensures var (w, next) := Step(x, f, c);
            if next.Some? then HalfUndoTrack(s, After(x, w), next.value, intent)
            else HalfUndoEnded(s, After(x, w), intent)
  {
    hide Step, After;
    HalfUndoSteps(x, intent, c);
    PayTouchesTheAccount(x, P.RefundAtProvider(c == Grants(true)));
    PayTouchesTheAccount(x, P.ApplyRefund);
    LogKeepsRest(x, Entry(OfRefund, Refused));
  }

  // ---------------------------------------------------------------- an undo that could not journal its intent

  /** The undo goes through all the same; only a refusal then stays out of the journal. */
  predicate BareUndoEnded(t: State)
  {
    && t.status == Cancelled && Clear(t)
    && (MoneySettled(t)
        || (t.account.row == P.Succeeded && t.account.refund == P.Refused && P.Net(t.account) == t.account.amount))
  }

  predicate BareUndoTrack(x: State, f: Frame)
  {
    && x.status == Cancelled && Took(x)
    && match f
       case OReadStatus(intent) => !intent
       case ORestock(intent) => !intent
       case FRead(who) => who == Orphan(false, true) && Clear(x) && Asking(x, f)
       case FGateway(who) => who == Orphan(false, true) && Clear(x) && Asking(x, f)
       case FFlip(who) => who == Orphan(false, true) && Clear(x) && Asking(x, f)
       case FLogCompleted(who) => who == Orphan(false, true) && Clear(x) && Asking(x, f)
       case _ => false
  }

  lemma BareRefundOn(x: State, f: Frame, c: Choice)
    requires P.MoneyInv(x.account) && BareUndoTrack(x, f) && (f.FRead? || f.FGateway? || f.FFlip?)
    ensures var (w, next) := Step(x, f, c);
            if next.Some? then BareUndoTrack(After(x, w), next.value) else BareUndoEnded(After(x, w))
  {
    hide DriveStep, SettleStep, OrderKeys;
  }

  lemma BareUnwinds(x: State, f: Frame, c: Choice)
    requires BareUndoTrack(x, f) && (f.OReadStatus? || f.ORestock?)
    ensures var (w, next) := Step(x, f, c); next.Some? && BareUndoTrack(After(x, w), next.value)
  {
    hide OrderKeys, DriveStep, SettleStep, P.Next, Clear;
    RestockClears(x);
  }

  lemma BareUndoOn(x: State, f: Frame, c: Choice)
    requires P.MoneyInv(x.account) && BareUndoTrack(x, f)
    ensures var (w, next) := Step(x, f, c);
            if next.Some? then BareUndoTrack(After(x, w), next.value) else BareUndoEnded(After(x, w))
  {
    hide Step, After, OrderKeys, P.MoneyInv, MoneySettled;
    if f.FRead? || f.FGateway? || f.FFlip? {
      BareRefundOn(x, f, c);
    } else if f.FLogCompleted? {
      RefundJournaled(x, f, c);
    } else {
      BareUnwinds(x, f, c);
    }
  }
}
