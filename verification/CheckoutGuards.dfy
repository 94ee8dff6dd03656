/**
 Two rules about unwinding an order: a drive that knows its charge landed never compensates, and a
 user's cancel is turned away for as long as a charge may stand behind the order.
 */
module CheckoutGuards {
  import opened Options
  import opened Inventory
  import opened Checkout
  import P = Payments
  import Safety = CheckoutSafety

  // ---------------------------------------------------------------- once charged, never unwound

  /** A drive past a successful charge, with the undo it may turn into. */
  predicate Charged(f: Frame)
  {
    match f
    case DLogOutcome(n, _) => n == Completed
    case DLogCommit => true
    case DCommit => true
    case DCommitAgain => true
    case DCommitCheck => true
    case DLogShortfall => true
    case DShortStatus => true
    case DLogCommitted => true
    case DLogMarkPaid => true
    case DFlip => true
    case DReadSettled => true
    case DLogPaid => true
    case OLogRequested => true
    case OReadStatus(_) => true
    case ORestock(_) => true
    case FRead(who) => who.Orphan?
    case FGateway(who) => who.Orphan?
    case FFlip(who) => who.Orphan?
    case FReRead(who) => who.Orphan?
    case FLogCompleted(who) => who.Orphan?
    case FLogRefused(who) => who.Orphan?
    case _ => false
  }

  /** Giving held stock back, or cancelling. */
  predicate Unwinds(w: Write)
  {
    w.Release? || w.CancelOrder? || w.UserCancel?
  }

  lemma ChargedDriverStays(s: State, f: Frame, c: Choice)
    requires PartOf(f) == Driver && Charged(f)
    ensures !Unwinds(Step(s, f, c).0) && (Step(s, f, c).1.Some? ==> Charged(Step(s, f, c).1.value))
  {
    hide CommitFits, RefundStep, SettleStep, P.Next;
  }

  lemma ChargedRefunderStays(s: State, f: Frame, c: Choice)
    requires PartOf(f) == Refunder && Charged(f)
    ensures !Unwinds(Step(s, f, c).0) && (Step(s, f, c).1.Some? ==> Charged(Step(s, f, c).1.value))
  {
    hide DriveStep, SettleStep, P.Next;
  }

  /** Neither its next step nor any fault of it makes a charged drive unwind. */
  lemma ChargedStays(s: State, f: Frame, c: Choice, silent: bool)
    requires Charged(f)
    ensures !Unwinds(Step(s, f, c).0) && (Step(s, f, c).1.Some? ==> Charged(Step(s, f, c).1.value))
    ensures Handler(f, silent).Some? ==> Charged(Handler(f, silent).value)
  {
    assert PartOf(f) != Settler;
    hide Step;
    if PartOf(f) == Driver {
      ChargedDriverStays(s, f, c);
    } else {
      ChargedRefunderStays(s, f, c);
    }
  }

  /** The action is a step of frame `id`, whether it returns or raises. */
  predicate StepOf(a: Action, id: nat)
  {
    (a.Run? || a.Fail?) && a.id == id
  }

  /** No write that frame `id` makes along the run releases stock or cancels. */
  predicate NeverUnwinds(s: State, run: seq<Action>, id: nat)
    requires Legal(s, run)
    decreases |run|
  {
    run == []
    || ((StepOf(run[0], id) ==> !Unwinds(WriteOf(s, run[0]))) && NeverUnwinds(Do(s, run[0]), run[1..], id))
  }

  /**
   Once a drive knows its charge landed it goes on to pay or to refund, in every run and under every
   fault: it stays charged for as long as it lives, and no write it makes releases stock or cancels.
   */
  lemma {:induction false} ChargedForGood(s: State, run: seq<Action>, id: nat)
    requires Legal(s, run) && id in s.frames && Charged(s.frames[id])
    requires forall i | 0 <= i < |run| :: !(run[i].Spawn? && run[i].id == id)
    ensures NeverUnwinds(s, run, id)
    ensures id in Final(s, run).frames ==> Charged(Final(s, run).frames[id])
    decreases |run|
  {
    if run != [] {
      var t := Do(s, run[0]);
      OneStepCharged(s, run[0], id);
      hide Do, Enabled, Charged, WriteOf, Unwinds;
      if id in t.frames {
        ChargedForGood(t, run[1..], id);
      } else {
        GoneForGood(t, run[1..], id);
      }
    }
  }

  lemma OneStepCharged(s: State, a: Action, id: nat)
    requires Enabled(s, a) && id in s.frames && Charged(s.frames[id])
    ensures id in Do(s, a).frames ==> Charged(Do(s, a).frames[id])
    ensures StepOf(a, id) ==> !Unwinds(WriteOf(s, a))
  {
    match a
    case Run(j, c) =>
      if j == id {
        ChargedStays(s, s.frames[id], c, false);
      }
      hide Step, Charged, Handler, ChoiceOk;
      FramesAfter(s, Step(s, s.frames[j], c).0);
      hide After;
    case Fail(j, c, landed, silent) =>
      if j == id {
        ChargedStays(s, s.frames[id], c, silent);
      }
      hide Step, Charged, Handler, ChoiceOk;
      FramesAfter(s, Step(s, s.frames[j], c).0);
      FramesAfter(s, Nothing);
      hide After;
    case Env(w) =>
      hide Charged, EnvMay;
      FramesAfter(s, w);
      hide After;
    case _ => hide Charged, MayStart;
  }

  lemma FramesAfter(s: State, w: Write)
    ensures After(s, w).frames == s.frames
  {
    hide HasRefundMarker, CommitFits;
  }

  lemma {:induction false} GoneForGood(s: State, run: seq<Action>, id: nat)
    requires Legal(s, run) && id !in s.frames
    requires forall i | 0 <= i < |run| :: !(run[i].Spawn? && run[i].id == id)
    ensures id !in Final(s, run).frames && NeverUnwinds(s, run, id)
    decreases |run|
  {
    if run != [] {
      assert !StepOf(run[0], id);
      assert id !in Do(s, run[0]).frames by {
        match run[0] {
          case Run(j, c) => FramesAfter(s, Step(s, s.frames[j], c).0);
          case Fail(j, c, landed, silent) =>
            FramesAfter(s, Step(s, s.frames[j], c).0);
            FramesAfter(s, Nothing);
          case Env(w) => FramesAfter(s, w);
          case _ =>
        }
        hide After, Step, Handler;
      }
      hide Do, Enabled;
      GoneForGood(Do(s, run[0]), run[1..], id);
    }
  }

  // ---------------------------------------------------------------- the cancel guard

  /** What the charge entries of the journal say about the payment row. */
  predicate ChargeJournalOk(s: State)
  {
    && (Journaled(s, OfCharge, Failed) ==> s.account.row == P.Failed)
    && (Journaled(s, OfCharge, Reversed) ==> s.account.row == P.Refunded)
    && (s.account.row != P.NoRow ==> Journaled(s, OfCharge, Started))
    && forall i | 0 <= i < |s.journal| && s.journal[i].topic == OfCharge ::
         s.journal[i].note in {Started, Completed, Failed, Unknown, Reversed}
  }

  predicate KnowsCharge(s: State, f: Frame)
  {
    match f
    case DReadLive => Journaled(s, OfCharge, Started)
    case DCreatePayment => Journaled(s, OfCharge, Started)
    case DLogOutcome(n, _) =>
      && n in {Completed, Failed, Unknown, Reversed}
      && (n == Failed ==> s.account.row == P.Failed) && (n == Reversed ==> s.account.row == P.Refunded)
    case _ => true
  }

  predicate GuardInv(s: State)
  {
    ChargeJournalOk(s) && forall id | id in s.frames :: KnowsCharge(s, s.frames[id])
  }

  /** The journal only grows, and a failed or refunded row stays so. */
  predicate Later(s: State, t: State)
  {
    && s.journal <= t.journal
    && (s.account.row == P.Failed || s.account.row == P.Refunded ==> t.account.row == s.account.row)
  }

  lemma WriteIsLater(s: State, w: Write)
    ensures Later(s, After(s, w))
  {
    hide HasRefundMarker, CommitFits;
  }

  lemma KnowledgeKept(s: State, t: State, f: Frame)
    requires Later(s, t) && KnowsCharge(s, f)
    ensures KnowsCharge(t, f)
  {
    if Journaled(s, OfCharge, Started) {
      var i :| 0 <= i < |s.journal| && s.journal[i] == Entry(OfCharge, Started);
      assert t.journal[i] == s.journal[i];
    }
  }

  /** What a write must bring along to keep the charge journal true. */
  predicate ChargeWriteOk(s: State, w: Write)
  {
    && (w.Log? && w.topic == OfCharge ==>
          && w.note in {Started, Completed, Failed, Unknown, Reversed}
          && (w.note == Failed ==> s.account.row == P.Failed) && (w.note == Reversed ==> s.account.row == P.Refunded))
    && (w.Pay? && w.act.Create? ==> Journaled(s, OfCharge, Started))
  }

  /** What a write adds to the journal: at most two rows, none about the charge unless it is that log. */
  lemma NewEntries(s: State, w: Write, e: Entry)
    requires e in After(s, w).journal && e !in s.journal
    ensures e.topic == OfRefund || e.topic == OfCancel || w == Log(e.topic, e.note)
  {
    hide HasRefundMarker, CommitFits, P.Next;
  }

  lemma RowAfter(s: State, w: Write)
    ensures After(s, w).account.row != P.NoRow ==> s.account.row != P.NoRow || (w.Pay? && w.act.Create?)
  {
    hide HasRefundMarker, CommitFits;
  }

  lemma JournalKept(s: State, w: Write)
    requires ChargeJournalOk(s) && ChargeWriteOk(s, w)
    ensures ChargeJournalOk(After(s, w))
  {
    var t := After(s, w);
    WriteIsLater(s, w);
    RowAfter(s, w);
    forall e | e in t.journal && e !in s.journal ensures e.topic == OfRefund || e.topic == OfCancel
        || w == Log(e.topic, e.note) {
      NewEntries(s, w, e);
    }
    hide After;
    assert forall e | e in s.journal :: e in t.journal;
    forall i | 0 <= i < |t.journal| && t.journal[i].topic == OfCharge
      ensures t.journal[i].note in {Started, Completed, Failed, Unknown, Reversed}
    {
      var e := t.journal[i];
      if e in s.journal {
        var j :| 0 <= j < |s.journal| && s.journal[j] == e;
      }
    }
  }

  lemma DriverChargeWrite(s: State, f: Frame, c: Choice)
    requires PartOf(f) == Driver && KnowsCharge(s, f)
    ensures ChargeWriteOk(s, Step(s, f, c).0)
  {
    hide CommitFits, RefundStep, SettleStep, P.Next, AfterCharge;
  }

  lemma DriverChargeNext(s: State, f: Frame, c: Choice)
    requires PartOf(f) == Driver && KnowsCharge(s, f) && Step(s, f, c).1.Some?
    ensures KnowsCharge(After(s, Step(s, f, c).0), Step(s, f, c).1.value)
  {
    hide CommitFits, RefundStep, SettleStep, HasRefundMarker, Fresh, OrderKeys, WithStatus;
  }

  lemma RefunderChargeStep(s: State, f: Frame, c: Choice)
    requires PartOf(f) == Refunder
    ensures ChargeWriteOk(s, Step(s, f, c).0)
    ensures Step(s, f, c).1.Some? ==>
              !Step(s, f, c).1.value.DReadLive? && !Step(s, f, c).1.value.DCreatePayment?
              && !Step(s, f, c).1.value.DLogOutcome?
  {
    hide DriveStep, SettleStep, P.Next;
  }

  lemma SettlerChargeStep(s: State, f: Frame, c: Choice)
    requires PartOf(f) == Settler
    ensures ChargeWriteOk(s, Step(s, f, c).0)
    ensures Step(s, f, c).1.Some? ==>
              !Step(s, f, c).1.value.DReadLive? && !Step(s, f, c).1.value.DCreatePayment?
              && !Step(s, f, c).1.value.DLogOutcome?
  {
    hide DriveStep, RefundStep, CommitFits, Latest;
  }

  lemma ChargeStep(s: State, f: Frame, c: Choice)
    requires KnowsCharge(s, f) && ChargeJournalOk(s)
    ensures ChargeWriteOk(s, Step(s, f, c).0)
    ensures Step(s, f, c).1.Some? ==> KnowsCharge(After(s, Step(s, f, c).0), Step(s, f, c).1.value)
  {
    hide Step, PartOf, After, ChargeJournalOk, ChargeWriteOk;
    match PartOf(f)
    case Driver =>
      DriverChargeWrite(s, f, c);
      if Step(s, f, c).1.Some? {
        DriverChargeNext(s, f, c);
      }
    case Refunder => RefunderChargeStep(s, f, c);
    case Settler => SettlerChargeStep(s, f, c);
  }

  lemma ChargeHandler(s: State, f: Frame, silent: bool)
    requires Handler(f, silent).Some?
    ensures KnowsCharge(s, Handler(f, silent).value)
  {
  }

  /** Any write on behalf of a frame, which then becomes `next`. */
  lemma MoveKeepsGuard(s: State, id: nat, w: Write, next: Option<Frame>)
    requires GuardInv(s) && ChargeWriteOk(s, w) && (next.Some? ==> KnowsCharge(After(s, w), next.value))
    ensures GuardInv(WithFrame(After(s, w), id, next))
  {
    hide ChargeJournalOk, ChargeWriteOk, KnowsCharge, After;
    var u := After(s, w);
    var t := WithFrame(u, id, next);
    JournalKept(s, w);
    FramesAfter(s, w);
    WriteIsLater(s, w);
    FramesDoNotSpeak(u, t);
    forall j | j in t.frames ensures KnowsCharge(t, t.frames[j]) {
      if j == id && next.Some? {
        SameKnowledge(u, t, next.value);
      } else {
        KnowledgeKept(s, t, s.frames[j]);
      }
    }
  }

  lemma FramesDoNotSpeak(u: State, t: State)
    requires t == u.(frames := t.frames)
    ensures ChargeJournalOk(t) == ChargeJournalOk(u)
  {
  }

  lemma SameKnowledge(u: State, t: State, f: Frame)
    requires t == u.(frames := t.frames)
    ensures KnowsCharge(t, f) == KnowsCharge(u, f)
  {
  }

  lemma NothingCharges(s: State)
    ensures ChargeWriteOk(s, Nothing) && After(s, Nothing) == s
  {
  }

  lemma EnvCharges(s: State, w: Write)
    requires EnvMay(s, w)
    ensures ChargeWriteOk(s, w)
  {
  }

  lemma DoKeepsGuard(s: State, a: Action)
    requires GuardInv(s) && Enabled(s, a)
    ensures GuardInv(Do(s, a))
  {
    hide ChargeJournalOk, ChargeWriteOk, After, Step, Handler, ChoiceOk, EnvMay;
    NothingCharges(s);
    match a
    case Spawn(id, f) =>
      assert KnowsCharge(s, f);
      MoveKeepsGuard(s, id, Nothing, Some(f));
    case Run(id, c) =>
      hide KnowsCharge;
      ChargeStep(s, s.frames[id], c);
      MoveKeepsGuard(s, id, Step(s, s.frames[id], c).0, Step(s, s.frames[id], c).1);
    case Fail(id, c, landed, silent) =>
      hide KnowsCharge;
      ChargeStep(s, s.frames[id], c);
      var w := if landed then Step(s, s.frames[id], c).0 else Nothing;
      if Handler(s.frames[id], silent).Some? {
        ChargeHandler(After(s, w), s.frames[id], silent);
      }
      MoveKeepsGuard(s, id, w, Handler(s.frames[id], silent));
    case Crash(id) =>
      hide KnowsCharge;
      MoveKeepsGuard(s, id, Nothing, None);
    case Env(w) =>
      hide KnowsCharge;
      EnvCharges(s, w);
      EnvKeepsGuard(s, w);
  }

  lemma EnvKeepsGuard(s: State, w: Write)
    requires GuardInv(s) && ChargeWriteOk(s, w)
    ensures GuardInv(After(s, w))
  {
    hide ChargeJournalOk, ChargeWriteOk, KnowsCharge, After;
    JournalKept(s, w);
    FramesAfter(s, w);
    WriteIsLater(s, w);
    forall j | j in s.frames ensures KnowsCharge(After(s, w), s.frames[j]) {
      KnowledgeKept(s, After(s, w), s.frames[j]);
    }
  }

  lemma {:induction false} RunKeepsGuard(s: State, run: seq<Action>)
    requires GuardInv(s) && Legal(s, run)
    ensures GuardInv(Final(s, run))
    decreases |run|
  {
    hide GuardInv, Enabled, Do;
    if run != [] {
      DoKeepsGuard(s, run[0]);
      RunKeepsGuard(Do(s, run[0]), run[1..]);
    }
  }

  lemma {:induction false} LatestIsThere(j: seq<Entry>, t: Topic)
    requires exists i :: 0 <= i < |j| && j[i].topic == t
    ensures Latest(j, t).Some? && Entry(t, Latest(j, t).value) in j
  {
    var n := |j| - 1;
    if j[n].topic != t {
      var i :| 0 <= i < |j| && j[i].topic == t;
      assert j[..n][i] == j[i];
      LatestIsThere(j[..n], t);
    } else {
      assert j[n] == Entry(t, j[n].note);
    }
  }

  /** A pending or captured charge shows in the latest charge entry. */
  lemma ChargeShows(s: State)
    requires ChargeJournalOk(s) && (s.account.row == P.Pending || s.account.row == P.Succeeded)
    ensures Latest(s.journal, OfCharge) in {Some(Started), Some(Completed), Some(Unknown)}
  {
    var i :| 0 <= i < |s.journal| && s.journal[i] == Entry(OfCharge, Started);
    LatestIsThere(s.journal, OfCharge);
    hide Latest;
    var e := Entry(OfCharge, Latest(s.journal, OfCharge).value);
    var k :| 0 <= k < |s.journal| && s.journal[k] == e;
  }

  /**
   Wherever a cancelling user looks, if a charge is pending or stands captured behind the order, the
   journal turns the cancel away; so a cancel proceeds only where no row exists or the row has failed or
   been refunded.
   */
  lemma CancelTurnedAwayWhileChargeStands(s: State, run: seq<Action>, c: Choice)
    requires Init(s) && Legal(s, run)
    ensures var t := Final(s, run);
            Step(t, UReadCharge, c).1.Some? ==>
                t.account.row == P.NoRow || t.account.row == P.Failed
                || t.account.row == P.Refunded
  {
    hide Legal, Final, Latest;
    assert GuardInv(s);
    RunKeepsGuard(s, run);
    var t := Final(s, run);
    assert ChargeJournalOk(t);
    hide GuardInv, ChargeJournalOk;
    if t.account.row == P.Pending || t.account.row == P.Succeeded {
      ChargeShows(t);
    }
  }
}
