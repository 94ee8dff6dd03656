/**
 The recovery poller, undisturbed: what one pass makes of each order, that it is a run of the checkout
 protocol, and that a second pass changes nothing.
 */
module Recovery {
  import opened Options
  import opened FrameIds
  import opened Inventory
  import opened Checkout
  import opened CheckoutExclusion
  import opened CheckoutMoney
  import P = Payments
  import Safety = CheckoutSafety

  datatype Outcome = WasCompleted | WasCompensated | WasDeferred | WasRefunded | WasRefundFailed

  // ---------------------------------------------------------------- what a pass makes of one order

  /** The payments service's refund; afterwards the row says whether the money went back. */
  function AskRefund(s: State, grants: bool): State
  {
    if s.account.row != P.Succeeded then s
    else
      var asked := After(s, Pay(P.RefundAtProvider(grants)));
      if asked.account.refund == P.Returned then After(asked, Pay(P.ApplyRefund)) else asked
  }

  /** The money goes back: it went back before, or the provider, asked for the first time, grants it. */
  predicate GivesBack(a: P.Account, grants: bool)
  {
    a.refund == P.Returned || (a.refund == P.NotAsked && grants && a.hasRef)
  }

  function RefundNote(s: State): Note
  {
    if s.account.row == P.Refunded then Completed else Refused
  }

  function Compensated(s: State): State
  {
    var released := After(After(s, Log(OfCompensate, Started)), Release);
    After(After(released, CancelOrder), Log(OfCompensate, Completed))
  }

  function MarkedPaid(s: State): State
  {
    var logged := After(After(s, Log(OfCommit, Completed)), Log(OfMarkPaid, Started));
    After(After(logged, MarkPaid), Log(OfMarkPaid, Completed))
  }

  /** The payment row decides: pay, refund and cancel, cancel, or wait. */
  function Settled(s: State, grants: bool): State
  {
    match s.account.row
    case Pending => s
    case Succeeded =>
      if CommitFits(s) then MarkedPaid(After(s, CommitHolds))
      else
        var asked := AskRefund(After(s, CommitHolds), grants);
        Compensated(After(asked, Log(OfRefund, RefundNote(asked))))
    case _ => Compensated(s)
  }

  function SettledOutcome(s: State): Outcome
  {
    match s.account.row
    case Pending => WasDeferred
    case Succeeded => if CommitFits(s) then WasCompleted else WasCompensated
    case _ => WasCompensated
  }

  /** An open refund intent: restock, then ask again, then close the journal. */
  function Retried(s: State, grants: bool): State
  {
    var restocked := if s.status == Cancelled then After(s, RestockHolds) else s;
    var asked := AskRefund(restocked, grants);
    if Took(s) then After(asked, Log(OfRefund, RefundNote(asked))) else asked
  }

  /** The poller's two claims. */
  predicate Stuck(s: State)
  {
    s.status == Pending
  }

  predicate RefundDue(s: State)
  {
    MayStart(s, QReadStatus)
  }

  function Passed(s: State, grants: bool): State
  {
    var settled := if Stuck(s) then Settled(s, grants) else s;
    if RefundDue(settled) then Retried(settled, grants) else settled
  }

  // ---------------------------------------------------------------- every pass is a run of the protocol

  /** The protocol got from `s` to `t` while frame `id` came to `f`; nobody else moved. */
  ghost predicate Came(s: State, t: State, id: nat, f: Frame)
  {
    id !in s.frames && t.frames == s.frames && Reaches(s, t.(frames := s.frames[id := f]), true)
  }

  lemma FramesInvisible(t: State, frames: map<nat, Frame>, f: Frame, c: Choice)
    ensures Step(t.(frames := frames), f, c) == Step(t, f, c)
    ensures var w := Step(t, f, c).0; After(t.(frames := frames), w) == After(t, w).(frames := frames)
    ensures After(t, Step(t, f, c).0).frames == t.frames
  {
    StepIgnoresFrames(t, frames, f, c);
    hide Step;
    AfterIgnoresFrames(t, frames, Step(t, f, c).0);
  }

  lemma DriverStepIgnoresFrames(t: State, frames: map<nat, Frame>, f: Frame, c: Choice)
    requires PartOf(f) == Driver
    ensures Step(t.(frames := frames), f, c) == Step(t, f, c)
  {
    hide P.Next, Latest, RefundStep, SettleStep;
    assert CommitFits(t.(frames := frames)) == CommitFits(t);
    hide CommitFits;
  }

  lemma RefunderStepIgnoresFrames(t: State, frames: map<nat, Frame>, f: Frame, c: Choice)
    requires PartOf(f) == Refunder
    ensures Step(t.(frames := frames), f, c) == Step(t, f, c)
  {
    hide P.Next, Latest, DriveStep, SettleStep;
    assert CommitFits(t.(frames := frames)) == CommitFits(t);
    hide CommitFits;
  }

  lemma SettlerStepIgnoresFrames(t: State, frames: map<nat, Frame>, f: Frame, c: Choice)
    requires PartOf(f) == Settler
    ensures Step(t.(frames := frames), f, c) == Step(t, f, c)
  {
    hide P.Next, Latest, DriveStep, RefundStep;
    assert CommitFits(t.(frames := frames)) == CommitFits(t);
    hide CommitFits;
  }

  lemma StepIgnoresFrames(t: State, frames: map<nat, Frame>, f: Frame, c: Choice)
    ensures Step(t.(frames := frames), f, c) == Step(t, f, c)
  {
    hide Step, PartOf;
    match PartOf(f)
    case Driver => DriverStepIgnoresFrames(t, frames, f, c);
    case Refunder => RefunderStepIgnoresFrames(t, frames, f, c);
    case Settler => SettlerStepIgnoresFrames(t, frames, f, c);
  }

  lemma AfterIgnoresFrames(t: State, frames: map<nat, Frame>, w: Write)
    ensures After(t.(frames := frames), w) == After(t, w).(frames := frames)
    ensures After(t, w).frames == t.frames
  {
    hide P.Next, Fresh, OrderKeys, WithStatus;
    assert CommitFits(t.(frames := frames)) == CommitFits(t);
    assert HasRefundMarker(t.(frames := frames)) == HasRefundMarker(t);
    hide CommitFits, HasRefundMarker;
  }

  lemma Goes(s: State, t: State, id: nat, f: Frame, c: Choice)
    requires Came(s, t, id, f) && ChoiceOk(t, f, c) && Step(t, f, c).1.Some?
    ensures Came(s, After(t, Step(t, f, c).0), id, Step(t, f, c).1.value)
  {
    hide Reaches, Step, After;
    var x := t.(frames := s.frames[id := f]);
    FramesInvisible(t, x.frames, f, c);
    Then(s, x, Run(id, c), true);
    assert Do(x, Run(id, c)).frames == s.frames[id := Step(t, f, c).1.value];
    assert Do(x, Run(id, c)) == After(t, Step(t, f, c).0).(frames := s.frames[id := Step(t, f, c).1.value]);
  }

  lemma Ends(s: State, t: State, id: nat, f: Frame, c: Choice)
    requires Came(s, t, id, f) && ChoiceOk(t, f, c) && Step(t, f, c).1.None?
    ensures Reaches(s, After(t, Step(t, f, c).0), true)
  {
    hide Reaches, Step, After;
    var x := t.(frames := s.frames[id := f]);
    FramesInvisible(t, x.frames, f, c);
    Then(s, x, Run(id, c), true);
    assert Do(x, Run(id, c)).frames == s.frames;
    assert Do(x, Run(id, c)) == After(t, Step(t, f, c).0);
  }

  lemma Begins(s: State, id: nat, f: Frame)
    requires id !in s.frames && MayStart(s, f) && Apart(s, Spawn(id, f))
    ensures Came(s, s, id, f)
  {
    hide Reaches, Apart, MayStart;
    Here(s, true);
    Then(s, s, Spawn(id, f), true);
    assert Do(s, Spawn(id, f)) == s.(frames := s.frames[id := f]);
  }

  lemma CompensationRuns(s: State, t: State, id: nat)
    requires Came(s, t, id, KLog)
    ensures Reaches(s, Compensated(t), true)
  {
    hide Reaches, Came, After;
    Goes(s, t, id, KLog, Go);
    var u := After(t, Log(OfCompensate, Started));
    Goes(s, u, id, KRelease, Go);
    Goes(s, After(u, Release), id, KCancel, Go);
    Ends(s, After(After(u, Release), CancelOrder), id, KLogDone, Go);
  }

  lemma RefundRuns(s: State, t: State, id: nat, who: Caller, grants: bool)
    requires Came(s, t, id, FRead(who)) && Took(t) && P.MoneyInv(t.account) && (who == Settling || who == Retrying)
    ensures var asked := AskRefund(t, grants);
            Came(s, asked, id, if asked.account.row == P.Refunded then FLogCompleted(who) else FLogRefused(who))
  {
    hide Reaches, Came, DriveStep, SettleStep;
    Goes(s, t, id, FRead(who), Go);
    if t.account.row == P.Succeeded {
      Goes(s, t, id, FGateway(who), Grants(grants));
      var asked := After(t, Pay(P.RefundAtProvider(grants)));
      if asked.account.refund == P.Returned {
        Goes(s, asked, id, FFlip(who), Go);
      }
    }
  }

  lemma PayingRuns(s: State, t: State, id: nat)
    requires Came(s, t, id, SLogCommitted) && t.status == Pending
    ensures Reaches(s, MarkedPaid(t), true)
  {
    hide Reaches, Came;
    Goes(s, t, id, SLogCommitted, Go);
    var u := After(t, Log(OfCommit, Completed));
    Goes(s, u, id, SLogMarkPaid, Go);
    var v := After(u, Log(OfMarkPaid, Started));
    Goes(s, v, id, SFlip, Go);
    Ends(s, After(v, MarkPaid), id, SLogPaid, Go);
  }

  lemma ShortfallRuns(s: State, t: State, id: nat, grants: bool)
    requires Came(s, t, id, FRead(Settling)) && Took(t) && P.MoneyInv(t.account)
    ensures var asked := AskRefund(t, grants);
            Reaches(s, Compensated(After(asked, Log(OfRefund, RefundNote(asked)))), true)
  {
    hide Reaches, Came, After, AskRefund, Compensated;
    RefundRuns(s, t, id, Settling, grants);
    var asked := AskRefund(t, grants);
    if asked.account.row == P.Refunded {
      Goes(s, asked, id, FLogCompleted(Settling), Go);
    } else {
      Goes(s, asked, id, FLogRefused(Settling), Go);
    }
    CompensationRuns(s, After(asked, Log(OfRefund, RefundNote(asked))), id);
  }

  lemma SettlementReads(s: State, id: nat)
    requires Stuck(s) && id !in s.frames && NoneSettles(s) && NoneDrives(s)
    ensures s.account.row == P.Pending ==> Reaches(s, s, true)
    ensures s.account.row == P.Succeeded ==> Came(s, s, id, SCommit)
    ensures s.account.row != P.Pending && s.account.row != P.Succeeded ==> Came(s, s, id, KLog)
  {
    hide Reaches, Came, NoneSettles, NoneDrives;
    Begins(s, id, SReadPayment);
    if s.account.row == P.Pending {
      Ends(s, s, id, SReadPayment, Go);
    } else {
      Goes(s, s, id, SReadPayment, Go);
    }
  }

  lemma CommitStep(s: State, id: nat)
    requires Came(s, s, id, SCommit)
    ensures Came(s, After(s, CommitHolds), id, if CommitFits(s) then SLogCommitted else FRead(Settling))
  {
    hide Reaches, Came, CommitFits, After;
    Goes(s, s, id, SCommit, Go);
  }

  lemma CommitTouchesRowsOnly(s: State)
    ensures var t := After(s, CommitHolds); t.status == s.status && t.account == s.account
  {
    hide CommitFits;
  }

  lemma SettlementRuns(s: State, id: nat, grants: bool)
    requires Safety.Inv(s) && Stuck(s) && id !in s.frames && NoneSettles(s) && NoneDrives(s)
    ensures Reaches(s, Settled(s, grants), true)
  {
    hide Reaches, Came, NoneSettles, NoneDrives, CommitFits, After, AskRefund, Compensated, MarkedPaid, Safety.Inv,
        P.MoneyInv;
    AccountMoney(s);
    SettlementReads(s, id);
    CommitTouchesRowsOnly(s);
    match s.account.row {
      case Pending =>
      case Succeeded =>
        CommitStep(s, id);
        if CommitFits(s) {
          PayingRuns(s, After(s, CommitHolds), id);
        } else {
          ShortfallRuns(s, After(s, CommitHolds), id, grants);
        }
      case _ => CompensationRuns(s, s, id);
    }
  }

  lemma RetryStarts(s: State, id: nat)
    requires RefundDue(s) && id !in s.frames && Took(s)
    ensures Came(s, After(s, RestockHolds), id, if s.account.row == P.Refunded then FLogCompleted(Retrying)
              else FRead(Retrying))
  {
    hide Reaches, Came, OrderKeys, DriveStep, RefundStep;
    Begins(s, id, QReadStatus);
    Goes(s, s, id, QReadStatus, Go);
    Goes(s, s, id, QRestock, Go);
    Goes(s, After(s, RestockHolds), id, QReadPayment, Go);
  }

  lemma RetryEnds(s: State, t: State, id: nat)
    requires Came(s, t, id, if t.account.row == P.Refunded then FLogCompleted(Retrying) else FLogRefused(Retrying))
    ensures Reaches(s, After(t, Log(OfRefund, RefundNote(t))), true)
  {
    hide Reaches, Came, After, DriveStep, SettleStep;
    if t.account.row == P.Refunded {
      Ends(s, t, id, FLogCompleted(Retrying), Go);
    } else {
      Ends(s, t, id, FLogRefused(Retrying), Go);
    }
  }

  lemma RetryCloses(s: State, t: State, id: nat, grants: bool)
    requires Took(t) && P.MoneyInv(t.account)
    requires Came(s, t, id, if t.account.row == P.Refunded then FLogCompleted(Retrying) else FRead(Retrying))
    ensures var asked := AskRefund(t, grants); Reaches(s, After(asked, Log(OfRefund, RefundNote(asked))), true)
  {
    var asked := AskRefund(t, grants);
    assert t.account.row == P.Refunded ==> asked == t;
    hide Reaches, Came, After, AskRefund;
    if t.account.row != P.Refunded {
      RefundRuns(s, t, id, Retrying, grants);
    }
    RetryEnds(s, asked, id);
  }

  lemma IntentMeansTaken(s: State)
    requires Safety.Inv(s) && RefundDue(s)
    ensures Took(s)
  {
    assert Safety.MarkersTrue(s);
  }

  lemma RestockTouchesRowsOnly(s: State)
    ensures var t := After(s, RestockHolds); t.status == s.status && t.account == s.account && t.journal == s.journal
  {
  }

  lemma RetryRuns(s: State, id: nat, grants: bool)
    requires Safety.Inv(s) && RefundDue(s) && id !in s.frames
    ensures Reaches(s, Retried(s, grants), true)
  {
    IntentMeansTaken(s);
    AccountMoney(s);
    hide Reaches, Came, After, AskRefund, Safety.Inv, P.MoneyInv;
    RetryStarts(s, id);
    RestockTouchesRowsOnly(s);
    RetryCloses(s, After(s, RestockHolds), id, grants);
  }

  lemma PassKeepsFrames(s: State, grants: bool)
    ensures Settled(s, grants).frames == s.frames
  {
    forall t: State, w: Write ensures After(t, w).frames == t.frames {
      AfterIgnoresFrames(t, t.frames, w);
    }
    hide After, CommitFits;
  }

  /** One undisturbed pass over an order is a run of the protocol, so all that holds of runs holds of it. */
  lemma PassRuns(s: State, id: nat, grants: bool)
    requires Safety.Inv(s) && id !in s.frames && NoneSettles(s) && NoneDrives(s)
    ensures Reaches(s, Passed(s, grants), true) && Safety.Inv(Passed(s, grants))
  {
    hide Reaches, Came, Settled, Retried, RefundDue, Safety.Inv, NoneSettles, NoneDrives;
    var settled := if Stuck(s) then Settled(s, grants) else s;
    Here(s, true);
    if Stuck(s) {
      SettlementRuns(s, id, grants);
      PassKeepsFrames(s, grants);
    }
    ReachesKeepsInv(s, settled, true);
    if RefundDue(settled) {
      RetryRuns(settled, id, grants);
      Join(s, settled, Retried(settled, grants), true);
    }
    ReachesKeepsInv(s, Passed(s, grants), true);
  }

  // ---------------------------------------------------------------- what a pass achieves

  /** `commit_for_order` finds enough rows exactly when every line still has its own. */
  lemma FitsIffEveryLineOwned(s: State)
    requires Safety.HoldsOk(s)
    ensures CommitFits(s) <==> s.holds.Keys == LineKeys(s)
  {
    hide WellFormed;
    if CommitFits(s) {
      Safety.FittingRowsAreAllLines(s);
    } else if s.holds.Keys == LineKeys(s) {
      assert (s.id, s.lines[0].0) in LineKeys(s);
      KeysOfLines(s.id, s.lines);
      Safety.HeldOrCommitted(s.holds, s.id);
    }
  }

  lemma ShortMeansNoneCommitted(s: State)
    requires Safety.HoldsOk(s) && !CommitFits(s)
    ensures NoneCommitted(s)
  {
    FitsIffEveryLineOwned(s);
    Safety.RowsAreLines(s);
    hide CommitFits, WellFormed;
    assert AllCommitted(s) ==> LineKeys(s) <= s.holds.Keys;
  }

  lemma NothingHeldAfterRelease(s: State)
    ensures HeldKeys(ReleaseAll(s)) == {}
    ensures OrderKeys(ReleaseAll(s).holds, s.id, Committed) == OrderKeys(s.holds, s.id, Committed)
  {
  }

  /** Compensating a pending order ends it, leaves nothing held, and touches no money. */
  lemma CompensationEnds(s: State)
    requires s.status == Pending
    ensures var t := Compensated(s);
            t.status == Cancelled && HeldKeys(t) == {} && t.account == s.account && t.id == s.id
            && (forall e | e in s.journal :: e in t.journal)
            && OrderKeys(t.holds, t.id, Committed) == OrderKeys(s.holds, s.id, Committed)
  {
    NothingHeldAfterRelease(s);
    hide HasRefundMarker, OrderKeys;
  }

  lemma PayingEnds(s: State)
    requires s.status == Pending
    ensures var t := MarkedPaid(s);
            t.status == Paid && t.holds == s.holds && t.account == s.account && t.id == s.id && t.lines == s.lines
            && t.placed == s.placed + 1
  {
  }

  lemma RefundEnds(s: State, grants: bool)
    requires Took(s) && P.MoneyInv(s.account)
    ensures var t := AskRefund(s, grants);
            && t == s.(account := t.account) && P.MoneyInv(t.account)
            && ((t.account.row == P.Refunded && P.Net(t.account) == 0)
                || (t.account.row == P.Succeeded && t.account.refund == P.Refused
                    && P.Net(t.account) == t.account.amount))
            && (t.account.row == P.Refunded <==> GivesBack(s.account, grants))
  {
  }

  /**
   A drive refused at its reservation, with some lines kept or none, compensates: undisturbed, the order
   ends cancelled with nothing held and its payment untouched.
   */
  lemma RefusedDriveCleansUp(s: State, id: nat, n: nat)
    requires Stuck(s) && id !in s.frames && NoneSettles(s) && WellFormed(s.lines)
    ensures var t := Compensated(After(After(s, Log(OfReserve, Started)), PlaceFirst(n)));
            Reaches(s, t, true) && t.status == Cancelled && HeldKeys(t) == {} && t.account == s.account
  {
    hide Reaches, Came, NoneSettles, WellFormed, Placed, Compensated, OrderKeys;
    var logged := After(s, Log(OfReserve, Started));
    Begins(s, id, DLogReserve);
    Goes(s, s, id, DLogReserve, Go);
    Goes(s, logged, id, DReserve, TurnedAfter(n));
    CompensationRuns(s, After(logged, PlaceFirst(n)), id);
    CompensationEnds(After(logged, PlaceFirst(n)));
  }

  ghost predicate PaidInFull(s: State, t: State)
  {
    t.status == Paid && AllCommitted(t) && HeldKeys(t) == {} && t.account == s.account && t.placed == s.placed + 1
  }

  /** The money is back and journaled so, or the provider refused and that is journaled. */
  predicate MoneySettled(t: State)
  {
    || (t.account.row == P.Refunded && P.Net(t.account) == 0 && Journaled(t, OfRefund, Completed))
    || (t.account.row == P.Succeeded && P.Net(t.account) == t.account.amount && Journaled(t, OfRefund, Refused))
  }

  /** Cancelled with no stock, and the money back or refused and journaled so. */
  predicate CalledOff(t: State)
  {
    && t.status == Cancelled && HeldKeys(t) == {} && OrderKeys(t.holds, t.id, Committed) == {}
    && MoneySettled(t)
  }

  lemma FullHoldsPay(s: State, grants: bool)
    requires Safety.Inv(s) && Stuck(s) && s.account.row == P.Succeeded && CommitFits(s)
    ensures PaidInFull(s, Settled(s, grants)) && SettledOutcome(s) == WasCompleted
  {
    hide Safety.FrameOk, Safety.MarkersTrue, P.Inv, CommitFits, AllCommitted, WithStatus, OrderKeys, Safety.HoldsOk;
    var c := After(s, CommitHolds);
    Safety.CommitConsumesAll(s);
    Safety.CommitKeepsHolds(s);
    Safety.AllCommittedHoldsNothing(c);
    Safety.SameOrder(s, CommitHolds);
    CommitTouchesRowsOnly(s);
    assert c.placed == s.placed;
    hide After;
    PayingEnds(c);
    Safety.SameRows(c, MarkedPaid(c));
  }

  lemma ShortfallCallsOff(s: State, grants: bool)
    requires Safety.Inv(s) && Stuck(s) && s.account.row == P.Succeeded && !CommitFits(s)
    ensures CalledOff(Settled(s, grants)) && SettledOutcome(s) == WasCompensated
    ensures Settled(s, grants).account.row == P.Refunded <==> GivesBack(s.account, grants)
  {
    AccountMoney(s);
    ShortMeansNoneCommitted(s);
    hide Safety.Inv, CommitFits, AllCommitted, WithStatus, P.MoneyInv;
    RefundEnds(s, grants);
    var asked := AskRefund(s, grants);
    var logged := After(asked, Log(OfRefund, RefundNote(asked)));
    assert Entry(OfRefund, RefundNote(asked)) in logged.journal;
    assert OrderKeys(s.holds, s.id, Committed) == {};
    assert After(s, CommitHolds) == s;
    hide After, OrderKeys, AskRefund, Compensated;
    LogKeepsRest(asked, Entry(OfRefund, RefundNote(asked)));
    CompensationEnds(logged);
  }

  lemma LogKeepsRest(s: State, e: Entry)
    ensures After(s, Log(e.topic, e.note)) == s.(journal := s.journal + [e])
  {
  }

  /**
   A pending order settled as its payment row demands: full holds are paid; a shortfall is cancelled with
   the money back (or the refusal journaled) and no stock kept; anything else decided is cancelled with
   nothing held and its money untouched; an undecided one is left alone.
   */
  ghost predicate SettledRight(s: State, t: State)
  {
    match s.account.row
    case Pending => t == s
    case Succeeded => if s.holds.Keys == LineKeys(s) then PaidInFull(s, t) else CalledOff(t)
    case _ => t.status == Cancelled && HeldKeys(t) == {} && t.account == s.account
  }

  /** An open refund intent is closed: the money back or refused, journaled so, and no stock kept. */
  predicate IntentClosed(t: State)
  {
    MoneySettled(t) && t.status == Cancelled && OrderKeys(t.holds, t.id, Committed) == {} && !RefundDue(t)
  }

  /** What one undisturbed settlement makes of a pending order, and the outcome it reports. */
  lemma SettlementIsRight(s: State, grants: bool)
    requires Safety.Inv(s) && Stuck(s)
    ensures var t := Settled(s, grants);
            && SettledRight(s, t)
            && (SettledOutcome(s) == WasCompleted <==> t.status == Paid)
            && (SettledOutcome(s) == WasCompensated <==> t.status == Cancelled)
            && (SettledOutcome(s) == WasDeferred <==> t.status == Pending)
            && (s.account.row == P.Succeeded && s.holds.Keys != LineKeys(s) ==>
                  (t.account.row == P.Refunded <==> GivesBack(s.account, grants)))
  {
    hide CommitFits, OrderKeys, AllCommitted, MoneySettled, AskRefund, Compensated, MarkedPaid, After, Safety.FrameOk,
        Safety.MarkersTrue, Safety.HoldsOk, LineKeys, P.Inv;
    FitsIffEveryLineOwned(s);
    match s.account.row {
      case Pending =>
      case Succeeded =>
        if CommitFits(s) {
          FullHoldsPay(s, grants);
        } else {
          ShortfallCallsOff(s, grants);
        }
      case _ => CompensationEnds(s);
    }
  }

  /** Retrying a refund intent closes it for good. */
  lemma RetryClosesIntent(s: State, grants: bool)
    requires Safety.Inv(s) && RefundDue(s)
    ensures IntentClosed(Retried(s, grants))
    ensures Retried(s, grants).account.row == P.Refunded <==> GivesBack(s.account, grants)
  {
    IntentMeansTaken(s);
    AccountMoney(s);
    var r := After(s, RestockHolds);
    assert OrderKeys(r.holds, r.id, Committed) == {};
    RestockTouchesRowsOnly(s);
    hide Safety.Inv, OrderKeys, After, P.MoneyInv;
    RefundEnds(r, grants);
    hide AskRefund;
    var asked := AskRefund(r, grants);
    LogKeepsRest(asked, Entry(OfRefund, RefundNote(asked)));
    assert Entry(OfRefund, RefundNote(asked)) in After(asked, Log(OfRefund, RefundNote(asked))).journal;
  }

  lemma SettledKeepsInv(s: State, grants: bool)
    requires Safety.Inv(s) && NoneSettles(s) && NoneDrives(s)
    ensures Safety.Inv(if Stuck(s) then Settled(s, grants) else s)
  {
    hide Safety.Inv, Settled, Reaches, NoneSettles, NoneDrives;
    if Stuck(s) {
      var id := FreeId(s.frames.Keys);
      SettlementRuns(s, id, grants);
      ReachesKeepsInv(s, Settled(s, grants), true);
    }
  }

  /** A settlement either left the order alone or ended it, owing no refund unless it was cancelled. */
  lemma SettlementDecides(s: State, grants: bool)
    requires Safety.Inv(s) && Stuck(s)
    ensures var t := Settled(s, grants);
            if s.account.row == P.Pending then t == s else !Stuck(t)
    ensures s.account.row == P.Pending ==> !RefundDue(s) && forall later :: Settled(s, later) == s
  {
    hide Safety.Inv;
    SettlementIsRight(s, grants);
    hide Settled, CommitFits;
  }

  /** A second pass changes nothing, whatever the provider would say to it. */
  lemma PassIsIdempotent(s: State, grants: bool, later: bool)
    requires Safety.Inv(s) && NoneSettles(s) && NoneDrives(s)
    ensures Passed(Passed(s, grants), later) == Passed(s, grants)
  {
    hide Safety.Inv, NoneSettles, NoneDrives, Settled, Retried, RefundDue;
    var settled := if Stuck(s) then Settled(s, grants) else s;
    if Stuck(s) {
      SettlementDecides(s, grants);
    }
    if RefundDue(settled) {
      assert Safety.Inv(settled) by { SettledKeepsInv(s, grants); }
      RetryClosesIntent(settled, grants);
    }
  }
}
