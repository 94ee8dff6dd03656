/**
 What needs the poller's settlement kept apart from live drives. The source closes that window only by
 a check-then-act read of the journal, so the exclusion is a hypothesis on runs here, and a run without
 it shows why it is needed.
 */
module CheckoutExclusion {
  import opened Options
  import opened Inventory
  import opened Checkout
  import P = Payments
  import Safety = CheckoutSafety

  /** A drive that can still mark the order paid. */
  predicate Driving(f: Frame)
  {
    match f
    case DLogReserve => true
    case DReserve => true
    case DLogReserved => true
    case DLogCharge => true
    case DReadLive => true
    case DCreatePayment => true
    case DGateway => true
    case DApply(_) => true
    case DReRead => true
    case DLogOutcome(n, _) => n == Completed
    case DLogCommit => true
    case DCommit => true
    case DCommitAgain => true
    case DCommitCheck => true
    case DLogCommitted => true
    case DLogMarkPaid => true
    case DFlip => true
    case _ => false
  }

  /** The poller, still before its flip, or refunding a shortfall. */
  predicate Settles(f: Frame)
  {
    match f
    case SReadPayment => true
    case SCommit => true
    case SLogCommitted => true
    case SLogMarkPaid => true
    case SFlip => true
    case FRead(who) => who == Settling
    case FGateway(who) => who == Settling
    case FFlip(who) => who == Settling
    case FReRead(who) => who == Settling
    case _ => false
  }

  /** A frame that saw the charge succeed and is on its way to mark the order paid. */
  predicate TrustsCharge(f: Frame)
  {
    match f
    case DLogOutcome(n, _) => n == Completed
    case DLogCommit => true
    case DCommit => true
    case DCommitAgain => true
    case DCommitCheck => true
    case DLogCommitted => true
    case DLogMarkPaid => true
    case DFlip => true
    case SCommit => true
    case SLogCommitted => true
    case SLogMarkPaid => true
    case SFlip => true
    case _ => false
  }

  predicate NoneSettles(s: State)
  {
    forall id | id in s.frames :: !Settles(s.frames[id])
  }

  predicate NoneDrives(s: State)
  {
    forall id | id in s.frames :: !Driving(s.frames[id])
  }

  /** A drive starts only while nobody settles; a settlement only while nobody drives or settles. */
  predicate Apart(s: State, a: Action)
  {
    a.Spawn? ==>
      && (a.frame == DLogReserve ==> NoneSettles(s))
      && (a.frame == SReadPayment ==> NoneSettles(s) && NoneDrives(s))
  }

  predicate Exclusive(s: State, run: seq<Action>)
    requires Legal(s, run)
    decreases |run|
  {
    run == [] || (Apart(s, run[0]) && Exclusive(Do(s, run[0]), run[1..]))
  }

  // ---------------------------------------------------------------- the invariant

  /** A settling frame is alone among the frames that can still pay or settle. */
  predicate Alone(s: State)
  {
    forall i, j | i in s.frames && j in s.frames && i != j && Settles(s.frames[i]) ::
      !Settles(s.frames[j]) && !Driving(s.frames[j])
  }

  predicate UnpaidWhileSettling(s: State)
  {
    s.status == Paid ==> NoneSettles(s)
  }

  predicate RefundedIsDead(s: State)
  {
    s.account.row == P.Refunded ==>
      s.status != Paid && (s.status == Cancelled || forall id | id in s.frames :: !TrustsCharge(s.frames[id]))
  }

  predicate Excl(s: State)
  {
    Alone(s) && UnpaidWhileSettling(s) && RefundedIsDead(s)
  }

  // ---------------------------------------------------------------- one step

  lemma DriverSuccessor(s: State, f: Frame, c: Choice)
    requires PartOf(f) == Driver && Step(s, f, c).1.Some?
    ensures var g := Step(s, f, c).1.value; !Settles(g) && (Driving(g) ==> Driving(f))
  {
    hide CommitFits, P.Next, RefundStep, SettleStep;
  }

  lemma RefunderSuccessor(s: State, f: Frame, c: Choice)
    requires PartOf(f) == Refunder && Step(s, f, c).1.Some?
    ensures var g := Step(s, f, c).1.value; !Driving(g) && !TrustsCharge(g) && (Settles(g) ==> Settles(f))
  {
    hide P.Next, DriveStep, SettleStep;
  }

  lemma SettlerSuccessor(s: State, f: Frame, c: Choice)
    requires PartOf(f) == Settler && Step(s, f, c).1.Some?
    ensures var g := Step(s, f, c).1.value; !Driving(g) && (Settles(g) ==> Settles(f))
  {
    hide CommitFits, Latest, DriveStep, RefundStep;
  }

  /** A frame that settles was settling; a frame that drives was driving. */
  lemma Successor(s: State, f: Frame, c: Choice)
    requires Step(s, f, c).1.Some?
    ensures var g := Step(s, f, c).1.value; (Settles(g) ==> Settles(f)) && (Driving(g) ==> Driving(f))
  {
    hide Step, PartOf, Settles, Driving, TrustsCharge;
    match PartOf(f)
    case Driver => DriverSuccessor(s, f, c);
    case Refunder => RefunderSuccessor(s, f, c);
    case Settler => SettlerSuccessor(s, f, c);
  }

  lemma DriverTrustIsEarned(s: State, f: Frame, c: Choice)
    requires PartOf(f) == Driver
    requires Step(s, f, c).1.Some? && TrustsCharge(Step(s, f, c).1.value) && !TrustsCharge(f)
    ensures s.account.row == P.Succeeded || (s.account.row == P.Pending && Step(s, f, c).0.PaySucceeded?)
  {
    hide CommitFits, P.Next, RefundStep, SettleStep;
  }

  lemma SettlerTrustIsEarned(s: State, f: Frame, c: Choice)
    requires PartOf(f) == Settler
    requires Step(s, f, c).1.Some? && TrustsCharge(Step(s, f, c).1.value) && !TrustsCharge(f)
    ensures s.account.row == P.Succeeded
  {
    hide CommitFits, Latest, DriveStep, RefundStep;
  }

  /** ... and a frame comes to trust the charge only by seeing the row say `succeeded`, or by making it so. */
  lemma TrustIsEarned(s: State, f: Frame, c: Choice)
    requires Step(s, f, c).1.Some? && TrustsCharge(Step(s, f, c).1.value) && !TrustsCharge(f)
    ensures s.account.row == P.Succeeded || (s.account.row == P.Pending && Step(s, f, c).0.PaySucceeded?)
  {
    hide Step, PartOf, TrustsCharge, Settles, Driving;
    match PartOf(f)
    case Driver => DriverTrustIsEarned(s, f, c);
    case Refunder => RefunderSuccessor(s, f, c);
    case Settler => SettlerTrustIsEarned(s, f, c);
  }

  lemma HandlerSuccessor(f: Frame, silent: bool)
    requires Handler(f, silent).Some?
    ensures var g := Handler(f, silent).value;
            && !Settles(g) && (Driving(g) ==> Driving(f)) && (TrustsCharge(g) ==> TrustsCharge(f))
  {
  }

  /** Only a drive or the poller marks paid, and neither does so before seeing the charge succeed. */
  lemma WhoPays(s: State, f: Frame, c: Choice)
    requires Step(s, f, c).0 == MarkPaid
    ensures TrustsCharge(f) && (Driving(f) || Settles(f))
    ensures Step(s, f, c).1.Some? ==> !Settles(Step(s, f, c).1.value)
  {
  }

  predicate MovesMoneyBack(w: Write)
  {
    w.Pay? && (w.act.RefundAtProvider? || w.act.ApplyRefund?)
  }

  lemma DriverNeverRefunds(s: State, f: Frame, c: Choice)
    requires PartOf(f) == Driver
    ensures !MovesMoneyBack(Step(s, f, c).0)
  {
    hide CommitFits, P.Next, RefundStep, SettleStep, AfterCharge;
  }

  lemma SettlerNeverRefunds(s: State, f: Frame, c: Choice)
    requires PartOf(f) == Settler
    ensures !MovesMoneyBack(Step(s, f, c).0)
  {
    hide CommitFits, Latest, DriveStep, RefundStep;
  }

  /** Only the refund leg itself moves money back. */
  lemma OnlyRefunderRefunds(s: State, f: Frame, c: Choice)
    requires MovesMoneyBack(Step(s, f, c).0)
    ensures PartOf(f) == Refunder
  {
    hide Step, PartOf, MovesMoneyBack;
    match PartOf(f)
    case Driver => DriverNeverRefunds(s, f, c);
    case Refunder =>
    case Settler => SettlerNeverRefunds(s, f, c);
  }

  lemma RefundFlips(s: State, f: Frame, c: Choice)
    requires PartOf(f) == Refunder && Step(s, f, c).0 == Pay(P.ApplyRefund) && Safety.FrameOk(s, f)
    ensures Settles(f) || s.status == Cancelled
  {
    hide DriveStep, SettleStep, P.Next;
  }

  /** The row's refund flip is the settling poller's, or the order is already cancelled. */
  lemma WhoRefunds(s: State, f: Frame, c: Choice)
    requires Step(s, f, c).0 == Pay(P.ApplyRefund) && Safety.FrameOk(s, f)
    ensures Settles(f) || s.status == Cancelled
    ensures Step(s, f, c).1.Some? ==> !TrustsCharge(Step(s, f, c).1.value)
  {
    hide Step, PartOf, TrustsCharge, Settles, Driving, Safety.FrameOk;
    OnlyRefunderRefunds(s, f, c);
    RefundFlips(s, f, c);
    if Step(s, f, c).1.Some? {
      RefunderSuccessor(s, f, c);
    }
  }

  /** What a write does to the two facts the exclusion is about. */
  lemma WriteEffect(s: State, w: Write)
    ensures After(s, w).status == Paid ==> s.status == Paid || (w == MarkPaid && s.status == Pending)
    ensures s.status == Cancelled ==> After(s, w).status == Cancelled
    ensures After(s, w).account.row == P.Refunded ==> s.account.row == P.Refunded || w == Pay(P.ApplyRefund)
    ensures After(s, w).frames == s.frames
    ensures s.account.row == P.Refunded ==> After(s, w).account.row == P.Refunded
    ensures w.PaySucceeded? && s.account.row == P.Pending ==> After(s, w).account.row == P.Succeeded
  {
    hide HasRefundMarker, CommitFits;
  }

  /** A frame replaced by one that settles or drives only if the old one did keeps everyone apart. */
  lemma AloneKept(s: State, t: State, id: nat, next: Option<Frame>)
    requires Alone(s) && id in s.frames && t.frames == WithFrame(s, id, next).frames
    requires next.Some? ==>
               (Settles(next.value) ==> Settles(s.frames[id]))
               && (Driving(next.value) ==> Driving(s.frames[id]))
    ensures Alone(t)
  {
    forall i, j | i in t.frames && j in t.frames && i != j && Settles(t.frames[i])
      ensures !Settles(t.frames[j]) && !Driving(t.frames[j])
    {
      assert i in s.frames && j in s.frames && Settles(s.frames[i]);
    }
  }

  /** When nobody else drives or settles, nobody else trusts the charge. */
  lemma OthersDoNotTrust(s: State, id: nat)
    requires Alone(s) && id in s.frames && Settles(s.frames[id])
    ensures forall j | j in s.frames && j != id :: !TrustsCharge(s.frames[j]) && !Settles(s.frames[j])
  {
    forall j | j in s.frames && j != id ensures !TrustsCharge(s.frames[j]) && !Settles(s.frames[j]) {
      assert !Settles(s.frames[j]) && !Driving(s.frames[j]);
    }
  }

  /** The core step: some write by frame `id`, which then becomes `next`. */
  lemma MoveKeepsExcl(s: State, id: nat, w: Write, next: Option<Frame>)
    requires Excl(s) && id in s.frames
    requires next.Some? ==>
      && (Settles(next.value) ==> Settles(s.frames[id])) && (Driving(next.value) ==> Driving(s.frames[id]))
      && (TrustsCharge(next.value) && !TrustsCharge(s.frames[id]) ==>
            s.account.row == P.Succeeded || (s.account.row == P.Pending && w.PaySucceeded?))
    requires w == MarkPaid ==> TrustsCharge(s.frames[id]) && (Driving(s.frames[id]) || Settles(s.frames[id]))
    requires w == MarkPaid && next.Some? ==> !Settles(next.value)
    requires w == Pay(P.ApplyRefund) ==>
      (Settles(s.frames[id]) || s.status == Cancelled) && (next.Some? ==> !TrustsCharge(next.value))
    ensures Excl(WithFrame(After(s, w), id, next))
  {
    var f := s.frames[id];
    var t := WithFrame(After(s, w), id, next);
    hide After, Driving, Settles, TrustsCharge;
    WriteEffect(s, w);
    AloneKept(s, t, id, next);
    PaidKept(s, id, w, next);
    RefundedKept(s, id, w, next);
  }

  lemma PaidKept(s: State, id: nat, w: Write, next: Option<Frame>)
    requires Alone(s) && UnpaidWhileSettling(s) && id in s.frames
    requires next.Some? && Settles(next.value) ==> Settles(s.frames[id])
    requires w == MarkPaid ==> Driving(s.frames[id]) || Settles(s.frames[id])
    requires w == MarkPaid && next.Some? ==> !Settles(next.value)
    ensures UnpaidWhileSettling(WithFrame(After(s, w), id, next))
  {
    hide After, Driving, Settles;
    WriteEffect(s, w);
    var t := WithFrame(After(s, w), id, next);
    if t.status == Paid {
      forall j | j in t.frames ensures !Settles(t.frames[j]) {
        if s.status == Paid {
          assert !Settles(s.frames[id]);
        } else if j != id {
          assert j in s.frames;
        }
      }
    }
  }

  lemma RefundedKept(s: State, id: nat, w: Write, next: Option<Frame>)
    requires Excl(s) && id in s.frames
    requires next.Some? && TrustsCharge(next.value) && !TrustsCharge(s.frames[id]) ==>
      s.account.row == P.Succeeded || (s.account.row == P.Pending && w.PaySucceeded?)
    requires w == MarkPaid ==> TrustsCharge(s.frames[id])
    requires w == Pay(P.ApplyRefund) ==>
      (Settles(s.frames[id]) || s.status == Cancelled) && (next.Some? ==> !TrustsCharge(next.value))
    ensures RefundedIsDead(WithFrame(After(s, w), id, next))
  {
    hide After, Driving, Settles, TrustsCharge;
    WriteEffect(s, w);
    var t := WithFrame(After(s, w), id, next);
    if t.account.row == P.Refunded && t.status != Cancelled {
      if s.account.row == P.Refunded {
        assert !TrustsCharge(s.frames[id]);
        assert forall j | j in t.frames :: !TrustsCharge(t.frames[j]);
      } else {
        OthersDoNotTrust(s, id);
        assert s.status != Paid;
        assert forall j | j in t.frames :: !TrustsCharge(t.frames[j]);
      }
    }
  }

  lemma RunKeepsExcl(s: State, id: nat, c: Choice)
    requires Safety.Inv(s) && Excl(s) && Enabled(s, Run(id, c))
    ensures Excl(Do(s, Run(id, c)))
  {
    hide Safety.Core, Safety.FrameOk, After, Driving, Settles, TrustsCharge, Step, Excl, ChoiceOk;
    var f := s.frames[id];
    var (w, next) := Step(s, f, c);
    if next.Some? {
      Successor(s, f, c);
      if TrustsCharge(next.value) && !TrustsCharge(f) {
        TrustIsEarned(s, f, c);
      }
    }
    if w == MarkPaid {
      WhoPays(s, f, c);
    }
    if w == Pay(P.ApplyRefund) {
      WhoRefunds(s, f, c);
    }
    MoveKeepsExcl(s, id, w, next);
  }

  lemma FailKeepsExcl(s: State, id: nat, c: Choice, landed: bool, silent: bool)
    requires Safety.Inv(s) && Excl(s) && Enabled(s, Fail(id, c, landed, silent))
    ensures Excl(Do(s, Fail(id, c, landed, silent)))
  {
    hide Safety.Core, Safety.FrameOk, After, Driving, Settles, TrustsCharge, Step, Excl, ChoiceOk, Handler;
    var f := s.frames[id];
    var w := if landed then Step(s, f, c).0 else Nothing;
    var next := Handler(f, silent);
    if next.Some? {
      HandlerSuccessor(f, silent);
    }
    if w == MarkPaid {
      WhoPays(s, f, c);
    }
    if w == Pay(P.ApplyRefund) {
      WhoRefunds(s, f, c);
      FailedRefund(s, f, c, silent);
    }
    MoveKeepsExcl(s, id, w, next);
  }

  lemma FailedRefund(s: State, f: Frame, c: Choice, silent: bool)
    requires Step(s, f, c).0 == Pay(P.ApplyRefund)
    ensures Handler(f, silent).Some? ==> !TrustsCharge(Handler(f, silent).value)
  {
    OnlyRefunderRefunds(s, f, c);
    hide Step;
  }

  lemma EnvKeepsExcl(s: State, w: Write)
    requires Excl(s) && EnvMay(s, w)
    ensures Excl(After(s, w))
  {
    hide After, Driving, Settles, TrustsCharge;
    WriteEffect(s, w);
  }

  lemma SpawnKeepsExcl(s: State, id: nat, f: Frame)
    requires Excl(s) && Enabled(s, Spawn(id, f)) && Apart(s, Spawn(id, f))
    ensures Excl(Do(s, Spawn(id, f)))
  {
    assert !TrustsCharge(f) && (Driving(f) ==> f == DLogReserve) && (Settles(f) ==> f == SReadPayment);
    hide Driving, Settles, TrustsCharge, MayStart;
    var t := Do(s, Spawn(id, f));
    assert t.frames == s.frames[id := f];
    assert UnpaidWhileSettling(t) by {
      if s.status == Paid {
        SettleStartsPending(s, f);
      }
    }
  }

  lemma SettleStartsPending(s: State, f: Frame)
    requires MayStart(s, f)
    ensures Settles(f) ==> s.status == Pending
  {
  }

  lemma DoKeepsExcl(s: State, a: Action)
    requires Safety.Inv(s) && Excl(s) && Enabled(s, a) && Apart(s, a)
    ensures Excl(Do(s, a))
  {
    hide Safety.Inv, Excl, After, Step, Apart, MayStart, EnvMay;
    match a
    case Spawn(id, f) => SpawnKeepsExcl(s, id, f);
    case Run(id, c) => RunKeepsExcl(s, id, c);
    case Fail(id, c, landed, silent) => FailKeepsExcl(s, id, c, landed, silent);
    case Crash(id) => CrashKeepsExcl(s, id);
    case Env(w) => EnvKeepsExcl(s, w);
  }

  lemma CrashKeepsExcl(s: State, id: nat)
    requires Excl(s) && id in s.frames
    ensures Excl(WithFrame(s, id, None))
  {
    hide Driving, Settles, TrustsCharge;
    MoveKeepsExcl(s, id, Nothing, None);
  }

  lemma {:induction false} RunsKeepExcl(s: State, run: seq<Action>)
    requires Safety.Inv(s) && Excl(s) && Legal(s, run) && Exclusive(s, run)
    ensures Excl(Final(s, run))
    decreases |run|
  {
    hide Safety.Inv, Excl, Enabled, Do, Apart;
    if run != [] {
      Safety.DoKeepsInv(s, run[0]);
      DoKeepsExcl(s, run[0]);
      RunsKeepExcl(Do(s, run[0]), run[1..]);
    }
  }

  /** With settlement kept apart from live drives, no order is ever both paid and refunded. */
  lemma PaidIsNeverRefunded(s: State, run: seq<Action>)
    requires Init(s) && Legal(s, run) && Exclusive(s, run)
    ensures !(Final(s, run).status == Paid && Final(s, run).account.row == P.Refunded)
  {
    hide Legal, Exclusive, Final;
    Safety.InitOk(s);
    RunsKeepExcl(s, run);
  }
}
