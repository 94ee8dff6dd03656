/**
 Runs in which one frame takes every step: what the provider's record is at their end, and that they end.
 */
module CheckoutSolo {
  import opened Options
  import opened Inventory
  import opened Checkout
  import P = Payments
  import Safety = CheckoutSafety
  import Guards = CheckoutGuards


  /** Nobody but frame `id` moves. */
  predicate Solo(run: seq<Action>, id: nat)
  {
    forall i | 0 <= i < |run| :: run[i].Run? && run[i].id == id
  }

  lemma GoneIsDone(u: State, run: seq<Action>, id: nat)
    requires id !in u.frames && Solo(run, id) && Legal(u, run)
    ensures run == []
  {
  }

  lemma PayTouchesTheAccount(x: State, act: P.Act)
    ensures After(x, Pay(act)) == x.(account := P.Next(x.account, act)) && After(x, Nothing) == x
  {
  }

  lemma LatestGrows(j: seq<Entry>, e: Entry, t: Topic)
    ensures Latest(j + [e], t) == if e.topic == t then Some(e.note) else Latest(j, t)
  {
    assert (j + [e])[..|j|] == j;
  }

  // ---------------------------------------------------------------- what the provider said

  function AnswerOf(c: Choice): P.Charge
  {
    if c.Sees? then c.decision else P.Processing
  }

  /** The provider's answer to the charge the frame made along the run, if it made one. */
  function ChargeAnswer(s: State, run: seq<Action>, id: nat): Option<P.Charge>
    requires Legal(s, run)
    decreases |run|
  {
    if run == [] then None
    else if run[0].Run? && run[0].id == id && s.frames[id] == DGateway then Some(AnswerOf(run[0].choice))
    else ChargeAnswer(Do(s, run[0]), run[1..], id)
  }

  /** The provider's answer to the refund the frame asked for along the run, if it did. */
  function RefundAnswer(s: State, run: seq<Action>, id: nat): Option<bool>
    requires Legal(s, run)
    decreases |run|
  {
    if run == [] then None
    else if run[0].Run? && run[0].id == id && s.frames[id].FGateway? then Some(run[0].choice == Grants(true))
    else RefundAnswer(Do(s, run[0]), run[1..], id)
  }

  /** What a write does to the provider's record. */
  lemma WriteAsksProvider(s: State, w: Write)
    ensures var t := After(s, w);
            && (t.account.charge != s.account.charge ==> w.Pay? && (w.act.ChargeAtProvider? || w.act.ProviderSettles?))
            && (t.account.refund != s.account.refund ==> w.Pay? && w.act.RefundAtProvider?)
            && (Took(s) ==> Took(t) && t.account.hasRef == s.account.hasRef)
  {
    hide HasRefundMarker, CommitFits, Placed, FirstLines, OrderKeys, WithStatus;
  }

  lemma DriverAsks(s: State, f: Frame, c: Choice)
    requires PartOf(f) == Driver
    ensures var w := Step(s, f, c).0;
            && (f == DGateway ==> w == Pay(P.ChargeAtProvider(AnswerOf(c))))
            && (f != DGateway ==> w.Pay? ==> !w.act.ChargeAtProvider? && !w.act.ProviderSettles?)
            && (w.Pay? ==> !w.act.RefundAtProvider?)
  {
    hide RefundStep, SettleStep, CommitFits, P.Next;
  }

  lemma RefunderAsks(s: State, f: Frame, c: Choice)
    requires PartOf(f) == Refunder
    ensures var w := Step(s, f, c).0;
            && (w.Pay? ==> !w.act.ChargeAtProvider? && !w.act.ProviderSettles?)
            && (f.FGateway? ==> w == Pay(P.RefundAtProvider(c == Grants(true))))
            && (!f.FGateway? ==> w.Pay? ==> !w.act.RefundAtProvider?)
  {
    hide DriveStep, SettleStep, P.Next;
  }

  lemma SettlerAsks(s: State, f: Frame, c: Choice)
    requires PartOf(f) == Settler
    ensures var w := Step(s, f, c).0;
            w.Pay? ==> !w.act.ChargeAtProvider? && !w.act.ProviderSettles? && !w.act.RefundAtProvider?
  {
    hide DriveStep, RefundStep, CommitFits, Latest;
  }

  /** A step moves the provider's record of the charge only at the gateway, and then to its answer. */
  lemma ChargeMoves(s: State, f: Frame, c: Choice)
    ensures After(s, Step(s, f, c).0).account.charge
         == if f == DGateway && s.account.charge == P.Unseen then AnswerOf(c) else s.account.charge
  {
    hide Step, After;
    WriteAsksProvider(s, Step(s, f, c).0);
    PayTouchesTheAccount(s, P.ChargeAtProvider(AnswerOf(c)));
    match PartOf(f)
    case Driver => DriverAsks(s, f, c);
    case Refunder => RefunderAsks(s, f, c);
    case Settler => SettlerAsks(s, f, c);
  }

  lemma RefundMoves(s: State, f: Frame, c: Choice)
    ensures var t := After(s, Step(s, f, c).0);
            && t.account.refund == (if !f.FGateway? || s.account.refund != P.NotAsked then s.account.refund
                                    else if c == Grants(true) && s.account.hasRef then P.Returned else P.Refused)
            && (Took(s) ==> Took(t) && t.account.hasRef == s.account.hasRef)
  {
    hide Step, After;
    WriteAsksProvider(s, Step(s, f, c).0);
    PayTouchesTheAccount(s, P.RefundAtProvider(c == Grants(true)));
    match PartOf(f)
    case Driver => DriverAsks(s, f, c);
    case Refunder => RefunderAsks(s, f, c);
    case Settler => SettlerAsks(s, f, c);
  }

  lemma DoIsTheStep(s: State, id: nat, c: Choice)
    requires Enabled(s, Run(id, c))
    ensures Do(s, Run(id, c)).account == After(s, Step(s, s.frames[id], c).0).account
  {
    hide Step, After;
  }

  lemma AnswersDecide(s: State, id: nat, c: Choice)
    requires Enabled(s, Run(id, c))
    ensures AnswerOf(c) != P.Unseen
  {
    hide WellFormed;
  }

  /**
   Whoever runs undisturbed leaves the provider's record of the charge at the answer it got, or as it was
   if the charge had been seen before or none was made.
   */
  lemma {:induction false} ChargeIsTheAnswer(s: State, run: seq<Action>, id: nat)
    requires Legal(s, run) && Solo(run, id)
    ensures Final(s, run).account.charge
         == if s.account.charge == P.Unseen && ChargeAnswer(s, run, id).Some? then ChargeAnswer(s, run, id).value
            else s.account.charge
    decreases |run|
  {
    hide Enabled, Do;
    if run != [] {
      assert run[0] == Run(id, run[0].choice) && id in s.frames by { RunsItself(s, run, id); }
      DoIsTheStep(s, id, run[0].choice);
      AnswersDecide(s, id, run[0].choice);
      ChargeMoves(s, s.frames[id], run[0].choice);
      ChargeIsTheAnswer(Do(s, run[0]), run[1..], id);
    }
  }

  lemma RunsItself(s: State, run: seq<Action>, id: nat)
    requires Legal(s, run) && Solo(run, id) && run != []
    ensures run[0] == Run(id, run[0].choice) && id in s.frames
  {
  }

  lemma {:induction false} TookStays(s: State, run: seq<Action>, id: nat)
    requires Legal(s, run) && Solo(run, id) && Took(s) && s.account.refund != P.NotAsked
    ensures Final(s, run).account.hasRef == s.account.hasRef
    ensures Final(s, run).account.refund == s.account.refund
    decreases |run|
  {
    hide Enabled, Do, Took;
    if run != [] {
      RunsItself(s, run, id);
      DoIsTheStep(s, id, run[0].choice);
      RefundMoves(s, s.frames[id], run[0].choice);
      SameTook(Do(s, run[0]), After(s, Step(s, s.frames[id], run[0].choice).0));
      TookStays(Do(s, run[0]), run[1..], id);
    }
  }

  lemma SameTook(s: State, t: State)
    requires s.account == t.account
    ensures Took(s) == Took(t)
  {
  }

  /** The same for a refund: the money goes back exactly if the provider granted it and the charge has a reference. */
  lemma {:induction false} RefundIsTheAnswer(s: State, run: seq<Action>, id: nat)
    requires Safety.Inv(s) && Legal(s, run) && Solo(run, id) && s.account.refund == P.NotAsked
    ensures var t := Final(s, run);
            match RefundAnswer(s, run, id)
            case None => t.account.refund == P.NotAsked
            case Some(granted) => t.account.refund == if granted && t.account.hasRef then P.Returned else P.Refused
    decreases |run|
  {
    hide Enabled, Do, Safety.Inv, Took;
    if run != [] {
      RunsItself(s, run, id);
      var c := run[0].choice;
      var f := s.frames[id];
      Safety.DoKeepsInv(s, run[0]);
      DoIsTheStep(s, id, c);
      RefundMoves(s, f, c);
      SameTook(Do(s, run[0]), After(s, Step(s, f, c).0));
      if f.FGateway? {
        GatewayMeansTaken(s, id);
        TookStays(Do(s, run[0]), run[1..], id);
      } else {
        RefundIsTheAnswer(Do(s, run[0]), run[1..], id);
      }
    }
  }

  lemma GatewayMeansTaken(s: State, id: nat)
    requires Safety.Inv(s) && id in s.frames && s.frames[id].FGateway?
    ensures Took(s)
  {
    hide Safety.Core;
    assert Safety.FrameOk(s, s.frames[id]);
  }

  // ---------------------------------------------------------------- and every one of them ends

  /** How many steps a frame has left, at most. */
  function Rank(f: Frame): nat
  {
    match f
    case DLogReserve => 29
    case DReserve => 28
    case DLogReserved => 27
    case DLogCharge => 26
    case DReadLive => 25
    case DCreatePayment => 24
    case DGateway => 23
    case DApply(_) => 22
    case DReRead => 21
    case DUncertain => 21
    case DLogOutcome(_, _) => 20
    case DLogCommit => 19
    case DCommit => 18
    case DCommitAgain => 18
    case DCommitCheck => 17
    case DLogShortfall => 14
    case DShortStatus => 13
    case DLogCommitted => 16
    case DLogMarkPaid => 15
    case DFlip => 14
    case DReadSettled => 13
    case DLogPaid => 1
    case OLogRequested => 12
    case OReadStatus(_) => 11
    case ORestock(_) => 10
    case FRead(_) => 9
    case FGateway(_) => 8
    case FFlip(_) => 7
    case FReRead(_) => 6
    case FLogCompleted(_) => 5
    case FLogRefused(_) => 5
    case KLog => 4
    case KRelease => 3
    case KCancel => 2
    case KLogDone => 1
    case SReadPayment => 18
    case SCommit => 17
    case SLogCommitted => 16
    case SLogMarkPaid => 15
    case SFlip => 14
    case SReadStatus => 13
    case SLogPaid => 1
    case QReadStatus => 12
    case QRestock => 11
    case QReadPayment => 10
    case URead => 3
    case UReadCharge => 2
    case UCancel => 1
    case URelease => 1
    case RLookup => 2
    case RApply(_) => 1
    case RAbandon => 1
  }

  lemma DriverDescends(s: State, f: Frame, c: Choice)
    requires PartOf(f) == Driver && Step(s, f, c).1.Some?
    ensures Rank(Step(s, f, c).1.value) < Rank(f)
  {
    hide RefundStep, SettleStep, CommitFits, P.Next;
  }

  lemma RefunderDescends(s: State, f: Frame, c: Choice)
    requires PartOf(f) == Refunder && Step(s, f, c).1.Some?
    ensures Rank(Step(s, f, c).1.value) < Rank(f)
  {
    hide DriveStep, SettleStep, P.Next;
  }

  predicate Compensation(f: Frame)
  {
    f.KLog? || f.KRelease? || f.KCancel? || f.KLogDone?
  }

  predicate Settlement(f: Frame)
  {
    || f.SReadPayment? || f.SCommit? || f.SLogCommitted? || f.SLogMarkPaid? || f.SFlip? || f.SReadStatus?
    || f.SLogPaid?
  }

  lemma CompensationDescends(s: State, f: Frame, c: Choice)
    requires Compensation(f) && Step(s, f, c).1.Some?
    ensures Rank(Step(s, f, c).1.value) < Rank(f)
  {
    hide DriveStep, RefundStep, CommitFits, Latest;
  }

  lemma SettlementDescends(s: State, f: Frame, c: Choice)
    requires Settlement(f) && Step(s, f, c).1.Some?
    ensures Rank(Step(s, f, c).1.value) < Rank(f)
  {
    hide DriveStep, RefundStep, CommitFits, Latest;
  }

  lemma OthersDescend(s: State, f: Frame, c: Choice)
    requires PartOf(f) == Settler && !Compensation(f) && !Settlement(f) && Step(s, f, c).1.Some?
    ensures Rank(Step(s, f, c).1.value) < Rank(f)
  {
    hide DriveStep, RefundStep, CommitFits, Latest;
  }

  lemma StepDescends(s: State, id: nat, c: Choice)
    requires Enabled(s, Run(id, c)) && id in Do(s, Run(id, c)).frames
    ensures Rank(Do(s, Run(id, c)).frames[id]) < Rank(s.frames[id])
  {
    hide Step, After, Rank, PartOf, Compensation, Settlement;
    var f := s.frames[id];
    Guards.FramesAfter(s, Step(s, f, c).0);
    assert Do(s, Run(id, c)).frames[id] == Step(s, f, c).1.value;
    match PartOf(f)
    case Driver => DriverDescends(s, f, c);
    case Refunder => RefunderDescends(s, f, c);
    case Settler =>
      if Compensation(f) {
        CompensationDescends(s, f, c);
      } else if Settlement(f) {
        SettlementDescends(s, f, c);
      } else {
        OthersDescend(s, f, c);
      }
  }

  /**
   An undisturbed frame is never stuck and never loops: while it is there its next step is enabled, and it
   is gone after at most as many steps as its rank, 29 for a whole drive.
   */
  lemma {:induction false} EveryFrameEnds(s: State, run: seq<Action>, id: nat)
    requires id in s.frames && Legal(s, run) && Solo(run, id)
    ensures |run| <= Rank(s.frames[id])
    ensures id in Final(s, run).frames ==> |run| < Rank(s.frames[id]) && Enabled(Final(s, run), Run(id, Go))
    decreases |run|
  {
    if run == [] {
      assert Rank(s.frames[id]) > 0;
    } else {
      RunsItself(s, run, id);
      var t := Do(s, run[0]);
      assert Rank(s.frames[id]) > 0;
      hide Do, Rank;
      if id in t.frames {
        StepDescends(s, id, run[0].choice);
        EveryFrameEnds(t, run[1..], id);
      } else {
        GoneIsDone(t, run[1..], id);
        assert Final(s, run) == t;
      }
    }
  }
}
