/**
 Every actor, left undisturbed, does its whole job. The runs here are those in which one frame takes every
 step until it is gone, whatever stock, the payment row and the provider answer on the way: a drive pays,
 compensates or waits as its charge came out; a charged drive that finds its order cancelled undoes the
 charge; a drive whose step raised is caught where it must be; the poller's settlement and refund retry, the
 user's cancel and the reconciler each end where the order's rows say they must.
 */
module CheckoutAlone {
  import opened Options
  import opened Inventory
  import opened Checkout
  import opened CheckoutSolo
  import opened CheckoutTracks
  import opened CheckoutFaults
  import opened Recovery
  import P = Payments
  import Safety = CheckoutSafety
  import Guards = CheckoutGuards

  datatype Job =
    | Drive(accepted: bool) | Undo | Settle | Retry | UserCancels | Reconcile(stale: bool)
    | Fold | Unsure(looked: bool) | Finish | HalfUndo(intent: bool) | BareUndo

  ghost predicate Track(job: Job, s: State, x: State, f: Frame)
  {
    match job
    case Drive(accepted) => DriveTrack(s, x, f, accepted)
    case Undo => UndoTrack(x, f)
    case Settle => SettleTrack(s, x, f)
    case Retry => RetryTrack(x, f)
    case UserCancels => CancelTrack(s, x, f)
    case Reconcile(stale) => ReconcileTrack(s, x, f, stale)
    case Fold => FoldTrack(s, x, f)
    case Unsure(looked) => UnsureTrack(s, x, f, looked)
    case Finish => FinishTrack(s, x, f)
    case HalfUndo(intent) => HalfUndoTrack(s, x, f, intent)
    case BareUndo => BareUndoTrack(x, f)
  }

  ghost predicate Done(job: Job, s: State, t: State)
  {
    match job
    case Drive(accepted) => DriveEnded(s, t, accepted)
    case Undo => UndoEnded(t)
    case Settle => SettledRight(s, t)
    case Retry => IntentClosed(t)
    case UserCancels => CancelEnded(s, t)
    case Reconcile(stale) => ReconcileEnded(s, t, stale)
    case Fold => FoldEnded(s, t)
    case Unsure(looked) => UnsureEnded(s, t, looked)
    case Finish => FinishEnded(s, t)
    case HalfUndo(intent) => HalfUndoEnded(s, t, intent)
    case BareUndo => BareUndoEnded(t)
  }

  lemma JobOn(job: Job, s: State, x: State, f: Frame, c: Choice)
    requires Safety.Core(s) && Safety.Core(x) && Track(job, s, x, f) && ChoiceOk(x, f, c)
    ensures var (w, next) := Step(x, f, c);
            if next.Some? then Track(job, s, After(x, w), next.value) else Done(job, s, After(x, w))
  {
    assert P.MoneyInv(x.account);
    hide DriveTrack, UndoTrack, SettleTrack, RetryTrack, CancelTrack, ReconcileTrack, DriveEnded, UndoEnded,
        SettledRight, IntentClosed, CancelEnded, ReconcileEnded, FoldTrack, FoldEnded, UnsureTrack, UnsureEnded,
        FinishTrack, FinishEnded, HalfUndoTrack, HalfUndoEnded, BareUndoTrack, BareUndoEnded, Safety.Core, Step, After,
        ChoiceOk, P.MoneyInv;
    match job
    case Drive(accepted) => DriveOn(s, x, f, c, accepted);
    case Undo => UndoOn(x, f, c);
    case Settle => SettleOn(s, x, f, c);
    case Retry => RetryOn(x, f, c);
    case UserCancels => CancelOn(s, x, f, c);
    case Reconcile(stale) => ReconcileOn(s, x, f, c, stale);
    case Fold => FoldOn(s, x, f, c);
    case Unsure(looked) => UnsureOn(s, x, f, c, looked);
    case Finish => FinishOn(s, x, f, c);
    case HalfUndo(intent) => HalfUndoOn(s, x, f, c, intent);
    case BareUndo => BareUndoOn(x, f, c);
  }

  /** The order as `x` has it, the others where `s` has them, and frame `id` at `f`. */
  function With(s: State, x: State, id: nat, f: Frame): State
  {
    x.(frames := s.frames[id := f])
  }

  /** `run` is all that frame `id`, now at `f`, still has to do. */
  ghost predicate Ahead(s: State, x: State, id: nat, f: Frame, run: seq<Action>)
  {
    && id !in s.frames && x.frames == s.frames && Safety.Core(x) && Safety.FrameOk(x, f)
    && Solo(run, id) && Legal(With(s, x, id, f), run) && id !in Final(With(s, x, id, f), run).frames
  }

  lemma StepKeeps(x: State, f: Frame, c: Choice)
    requires Safety.Core(x) && Safety.FrameOk(x, f) && ChoiceOk(x, f, c)
    ensures var (w, next) := Step(x, f, c);
            Safety.Core(After(x, w)) && After(x, w).frames == x.frames
            && (next.Some? ==> Safety.FrameOk(After(x, w), next.value))
  {
    hide Safety.Core, Safety.FrameOk, Safety.WriteOk, Safety.Progress, Step, After, ChoiceOk;
    Safety.CoreHasAccount(x);
    Safety.StepWriteOk(x, f, c);
    Safety.WriteKeepsCore(x, Step(x, f, c).0);
    if Step(x, f, c).1.Some? {
      Safety.StepFrameOk(x, f, c);
    }
  }

  lemma ChoiceIgnoresFrames(x: State, frames: map<nat, Frame>, f: Frame, c: Choice)
    requires ChoiceOk(x.(frames := frames), f, c)
    ensures ChoiceOk(x, f, c)
  {
  }

  /** The first of the steps ahead, and what is ahead then. */
  lemma Advance(s: State, x: State, id: nat, f: Frame, run: seq<Action>)
    requires Ahead(s, x, id, f, run)
    ensures run != [] && run[0].Run? && ChoiceOk(x, f, run[0].choice)
    ensures var (w, next) := Step(x, f, run[0].choice);
            var y := After(x, w);
            var t := With(s, x, id, f);
            && y.frames == s.frames && Safety.Core(y)
            && if next.Some? then
                 Ahead(s, y, id, next.value, run[1..])
                 && Final(t, run) == Final(With(s, y, id, next.value), run[1..])
               else run[1..] == [] && Final(t, run) == y
  {
    hide Safety.Core, Safety.FrameOk, Step, After, ChoiceOk, MayStart, EnvMay;
    var t := With(s, x, id, f);
    assert run != [];
    var c := run[0].choice;
    assert run[0] == Run(id, c) && t.frames[id] == f;
    ChoiceIgnoresFrames(x, t.frames, f, c);
    StepKeeps(x, f, c);
    FramesInvisible(x, t.frames, f, c);
    var (w, next) := Step(x, f, c);
    var y := After(x, w);
    var u := Do(t, run[0]);
    assert Solo(run[1..], id);
    if next.Some? {
      assert u.frames == s.frames[id := next.value];
      assert u == With(s, y, id, next.value);
    } else {
      assert u.frames == s.frames;
      assert u == y;
      GoneIsDone(u, run[1..], id);
    }
  }

  /** Once on its track, an undisturbed frame ends where its job demands, and everyone else is where they were. */
  lemma {:induction false} Onward(job: Job, s: State, x: State, id: nat, f: Frame, run: seq<Action>)
    requires Safety.Core(s) && Ahead(s, x, id, f, run) && Track(job, s, x, f)
    ensures var t := Final(With(s, x, id, f), run); Done(job, s, t) && t.frames == s.frames
    decreases |run|
  {
    hide Safety.Core, Step, After, ChoiceOk, Track, Done, Final, Legal;
    assert Safety.Core(x);
    hide Ahead;
    Advance(s, x, id, f, run);
    JobOn(job, s, x, f, run[0].choice);
    var (w, next) := Step(x, f, run[0].choice);
    if next.Some? {
      Onward(job, s, After(x, w), id, next.value, run[1..]);
    }
  }

  /** A frame that has just started, with nothing but its own steps to come. */
  predicate StartsAlone(s: State, id: nat, f: Frame, run: seq<Action>)
  {
    && run != [] && run[0] == Spawn(id, f) && Solo(run[1..], id) && Legal(s, run)
    && id !in Final(s, run).frames
  }

  lemma Starts(s: State, id: nat, f: Frame, run: seq<Action>)
    requires Safety.Inv(s) && StartsAlone(s, id, f, run)
    ensures MayStart(s, f) && Safety.Core(s) && Ahead(s, s, id, f, run[1..])
    ensures Final(s, run) == Final(With(s, s, id, f), run[1..])
  {
    hide Safety.Core, Safety.FrameOk, MayStart;
    Safety.StartOk(s, f);
    assert Do(s, run[0]) == With(s, s, id, f);
  }

  /**
   The drive, undisturbed: refused a reservation, it ends cancelled with nothing held and the payment as it
   was. Otherwise the payment row says what the provider decided, and the order follows the row: paid with
   every line consumed and announced once, cancelled with nothing held, or left pending with every line
   held for whoever settles the charge.
   */
  lemma DriveIsRight(s: State, id: nat, run: seq<Action>)
    requires Safety.Inv(s) && StartsAlone(s, id, DLogReserve, run)
    ensures |run| > 2 && run[2].Run?
    ensures Final(s, run).frames == s.frames
    ensures DriveEnded(s, Final(s, run), run[2].choice == Accepted)
    ensures run[2].choice == Accepted && Undecided(s.account) && s.account.charge == P.Unseen ==>
              ChargeAnswer(s, run, id) == Some(Final(s, run).account.charge)
  {
    hide Safety.Inv, Ahead, DriveEnded, Final, Legal, Step, After, ChoiceOk, DriveTrack, Safety.Core;
    Starts(s, id, DLogReserve, run);
    var first := run[1..];
    Advance(s, s, id, DLogReserve, first);
    FirstDriveStep(s, first[0].choice);
    var x := After(s, Log(OfReserve, Started));
    var second := first[1..];
    Advance(s, x, id, DReserve, second);
    var c := second[0].choice;
    assert c == run[2].choice;
    LogKeepsRest(s, Entry(OfReserve, Started));
    DriveReserves(s, x, c);
    var (w, next) := Step(x, DReserve, c);
    Onward(Drive(c == Accepted), s, After(x, w), id, next.value, second[1..]);
    if c == Accepted && Undecided(s.account) && s.account.charge == P.Unseen {
      DriveHeard(s, id, run, true);
    }
  }

  lemma DriveHeard(s: State, id: nat, run: seq<Action>, accepted: bool)
    requires StartsAlone(s, id, DLogReserve, run) && DriveEnded(s, Final(s, run), accepted)
    requires accepted && Undecided(s.account) && s.account.charge == P.Unseen
    ensures ChargeAnswer(s, run, id) == Some(Final(s, run).account.charge)
  {
    hide EveryLineHeld, AllCommitted, OrderKeys, Latest, Step, After;
    ChargeIsTheAnswer(Do(s, run[0]), run[1..], id);
  }

  lemma FirstDriveStep(s: State, c: Choice)
    ensures Step(s, DLogReserve, c) == (Log(OfReserve, Started), Some(DReserve))
  {
  }

  /** The frame is a drive's, and its charge landed. */
  predicate ChargeLanded(s: State, f: Frame)
  {
    || (f == DApply(P.Captured) && (s.account.row == P.Pending || s.account.row == P.Succeeded))
    || (f == DReRead && s.account.row == P.Succeeded)
    || (Guards.Charged(f) && !f.DLogPaid? && (PartOf(f) == Driver || f == OLogRequested))
  }

  /**
   A drive whose charge landed on an order that was cancelled meanwhile undoes the charge, from wherever it
   is: the money is back or refused, journaled so, and no consumed row is kept.
   */
  lemma UndoIsRight(s: State, id: nat, run: seq<Action>)
    requires Safety.Inv(s) && id in s.frames && s.status == Cancelled && ChargeLanded(s, s.frames[id])
    requires Solo(run, id) && Legal(s, run) && id !in Final(s, run).frames
    ensures UndoEnded(Final(s, run)) && Final(s, run).frames == s.frames - {id}
  {
    hide Safety.Core, Safety.FrameOk, UndoTrack, UndoEnded, Final, Legal, ChargeLanded;
    var f := s.frames[id];
    var others := s.(frames := s.frames - {id});
    Safety.FramesDoNotMatter(s, others);
    Safety.SameFooting(s, others, f);
    assert With(others, others, id, f) == s by { assert others.frames[id := f] == s.frames; }
    LandedIsUndone(others, f) by { assert ChargeLanded(others, f) by { LandedIgnoresFrames(s, others, f); } }
    Onward(Undo, others, others, id, f, run);
  }

  lemma LandedIgnoresFrames(s: State, t: State, f: Frame)
    requires t == s.(frames := t.frames) && ChargeLanded(s, f)
    ensures ChargeLanded(t, f)
  {
    hide Guards.Charged;
  }

  lemma LandedIsUndone(s: State, f: Frame)
    requires ChargeLanded(s, f) && Safety.FrameOk(s, f) && s.status == Cancelled
    ensures UndoTrack(s, f)
  {
    hide AllCommitted;
  }

  /** The poller's settlement, undisturbed. */
  lemma SettlementAloneIsRight(s: State, id: nat, run: seq<Action>)
    requires Safety.Inv(s) && StartsAlone(s, id, SReadPayment, run)
    ensures SettledRight(s, Final(s, run))
  {
    hide Safety.Inv, Ahead, SettledRight, Final, Legal, Safety.Core;
    Starts(s, id, SReadPayment, run);
    Onward(Settle, s, s, id, SReadPayment, run[1..]);
  }

  /** The poller's refund retry, undisturbed. */
  lemma RetryAloneClosesIntent(s: State, id: nat, run: seq<Action>)
    requires Safety.Inv(s) && StartsAlone(s, id, QReadStatus, run)
    ensures IntentClosed(Final(s, run))
  {
    hide Safety.Inv, Ahead, IntentClosed, Final, Legal, Safety.Core;
    Starts(s, id, QReadStatus, run);
    IntentMeansTaken(s);
    Onward(Retry, s, s, id, QReadStatus, run[1..]);
  }

  /** The user's cancel, undisturbed. */
  lemma CancelIsRight(s: State, id: nat, run: seq<Action>)
    requires Safety.Inv(s) && StartsAlone(s, id, URead, run)
    ensures CancelEnded(s, Final(s, run))
  {
    hide Safety.Inv, Ahead, CancelEnded, Final, Legal, Safety.Core;
    Starts(s, id, URead, run);
    Onward(UserCancels, s, s, id, URead, run[1..]);
  }

  /** The reconciler, undisturbed; `Turned` is its look-up's word that an unseen charge is past its age. */
  lemma ReconcileIsRight(s: State, id: nat, run: seq<Action>)
    requires Safety.Inv(s) && StartsAlone(s, id, RLookup, run)
    ensures |run| > 1 && run[1].Run? && ReconcileEnded(s, Final(s, run), run[1].choice == Turned)
  {
    hide Safety.Inv, Ahead, ReconcileEnded, ReconcileTrack, Final, Legal, Step, ChoiceOk, Safety.Core;
    Starts(s, id, RLookup, run);
    var first := run[1..];
    Advance(s, s, id, RLookup, first);
    var c := first[0].choice;
    ReconcileLooks(s, c);
    var next := Step(s, RLookup, c).1;
    if next.Some? {
      Onward(Reconcile(c == Turned), s, s, id, next.value, first[1..]);
    }
  }

  // ---------------------------------------------------------------- a drive whose step raises

  /** Before the payment call. */
  predicate BeforePayment(f: Frame)
  {
    f.DLogReserve? || f.DReserve? || f.DLogReserved? || f.DLogCharge? || f.DReadLive?
  }

  /** In the payment call. */
  predicate InPayment(f: Frame)
  {
    f.DCreatePayment? || f.DGateway? || f.DApply? || f.DReRead?
  }

  /** Where a step that raised at `f` in a state that is then `u` must end. */
  predicate FaultEnded(u: State, f: Frame, silent: bool, t: State)
  {
    match f
    case DUncertain => UnsureEnded(u, t, false)
    case DLogOutcome(n, uncertain) => if n == Completed || uncertain then t == u else FoldEnded(u, t)
    case DCommit =>
      if !silent then t == u
      else (match u.status
            case Pending => FinishEnded(u, t)
            case Cancelled => UndoEnded(t)
            case Paid => t.status == Paid)
    case OLogRequested => BareUndoEnded(t)
    case OReadStatus(intent) => HalfUndoEnded(u, t, intent)
    case ORestock(intent) => HalfUndoEnded(u, t, intent)
    case KLog => if silent then FoldEnded(u, t) else t == u
    case KRelease => if silent then FoldEnded(u, t) else t == u
    case KCancel => if silent then FoldEnded(u, t) else t == u
    case KLogDone => if silent then FoldEnded(u, t) else t == u
    case _ =>
      if BeforePayment(f) || (InPayment(f) && !silent) then FoldEnded(u, t)
      else if InPayment(f) then UnsureEnded(u, t, true)
      else t == u
  }

  /** The order once the step that raised had landed, or not, and its frame is out of the way. */
  function Struck(s: State, a: Action): State
    requires a.Fail? && a.id in s.frames
  {
    After(s, if a.landed then Step(s, s.frames[a.id], a.choice).0 else Nothing).(frames := s.frames - {a.id})
  }

  function JobAfter(u: State, f: Frame, silent: bool): Job
  {
    match f
    case DUncertain => Unsure(false)
    case DCommit => if u.status == Pending then Finish else Undo
    case OLogRequested => BareUndo
    case OReadStatus(intent) => HalfUndo(intent)
    case ORestock(intent) => HalfUndo(intent)
    case _ => if InPayment(f) && silent then Unsure(true) else Fold
  }

  lemma HandlerOnTrack(u: State, f: Frame, silent: bool)
    requires Handler(f, silent).Some? && !(f.DCommit? && u.status == Paid)
    requires Safety.FrameOk(u, Handler(f, silent).value)
    ensures Track(JobAfter(u, f, silent), u, u, Handler(f, silent).value)
  {
    hide OrderKeys, AllCommitted;
  }

  lemma DoneMeansHandled(u: State, f: Frame, silent: bool, t: State)
    requires Handler(f, silent).Some? && !(f.DCommit? && u.status == Paid)
    requires Done(JobAfter(u, f, silent), u, t)
    ensures FaultEnded(u, f, silent, t)
  {
    hide UndoEnded, FoldEnded, UnsureEnded, FinishEnded, HalfUndoEnded, BareUndoEnded;
  }

  lemma UnhandledEnds(u: State, f: Frame, silent: bool)
    requires Handler(f, silent).None?
    ensures FaultEnded(u, f, silent, u)
  {
    hide UndoEnded, FoldEnded, UnsureEnded, FinishEnded, HalfUndoEnded, BareUndoEnded;
  }

  lemma StruckIsSound(s: State, a: Action)
    requires Safety.Inv(s) && a.Fail? && Enabled(s, a)
    ensures var u := Struck(s, a);
            var next := Handler(s.frames[a.id], a.silent);
            && Safety.Core(u) && u.frames == s.frames - {a.id}
            && Do(s, a) == (if next.Some? then With(u, u, a.id, next.value) else u)
            && (next.Some? ==> Safety.FrameOk(u, next.value))
  {
    var u := Struck(s, a);
    var next := Handler(s.frames[a.id], a.silent);
    var w := if a.landed then Step(s, s.frames[a.id], a.choice).0 else Nothing;
    hide Safety.Core, Safety.FrameOk, Step, After, Handler, ChoiceOk;
    AfterIgnoresFrames(s, s.frames, w);
    Safety.DoKeepsInv(s, a);
    var t := Do(s, a);
    assert t.frames == if next.Some? then s.frames[a.id := next.value] else s.frames - {a.id};
    assert next.Some? ==> u.frames[a.id := next.value] == t.frames;
    assert u == t.(frames := u.frames);
    Safety.FramesDoNotMatter(t, u);
    if next.Some? {
      assert Safety.FrameOk(t, t.frames[a.id]);
      Safety.SameFooting(t, u, next.value);
    }
  }

  /**
   A step that raises, whether it had landed or not, and nobody else about: a drive that had not called the
   payments service compensates; one that timed out in the call compensates only if the row says failed, and
   otherwise leaves the order as it is; a timed-out commit is tried again and the drive goes on; any other
   charged drive, the poller, the user and the reconciler leave the order as the step left it.
   */
  lemma FaultIsHandled(s: State, id: nat, run: seq<Action>)
    requires Safety.Inv(s) && id in s.frames && Legal(s, run) && run != []
    requires run[0].Fail? && run[0].id == id && Solo(run[1..], id) && id !in Final(s, run).frames
    ensures FaultEnded(Struck(s, run[0]), s.frames[id], run[0].silent, Final(s, run))
  {
    hide Safety.Inv, Safety.Core, Safety.FrameOk, Step, After, Handler, ChoiceOk, FaultEnded, Struck, Track, Done,
        JobAfter;
    var a := run[0];
    var f := s.frames[id];
    var u := Struck(s, a);
    StruckIsSound(s, a);
    var next := Handler(f, a.silent);
    if next.None? {
      GoneIsDone(u, run[1..], id);
      UnhandledEnds(u, f, a.silent);
    } else if f.DCommit? && u.status == Paid {
      PaidStaysPaid(With(u, u, id, next.value), run[1..]);
      PaidIsHandled(u, f, a.silent, Final(s, run));
    } else {
      HandlerOnTrack(u, f, a.silent);
      Onward(JobAfter(u, f, a.silent), u, u, id, next.value, run[1..]);
      DoneMeansHandled(u, f, a.silent, Final(s, run));
    }
  }

  /**
   An undo whose restock raised keeps the consumed stock for now. Whether anyone comes back for it turns on
   the provider: the open refund intent stays due, and the poller restocks, if and only if the money went
   back; a refusal closes the intent with the stock still consumed.
   */
  lemma RestockRetriedIffRefunded(s: State, id: nat, run: seq<Action>)
    requires Safety.Inv(s) && id in s.frames && s.frames[id] == ORestock(true) && Legal(s, run) && run != []
    requires run[0].Fail? && run[0].id == id && Solo(run[1..], id) && id !in Final(s, run).frames
    requires !run[0].landed && RefundDue(s)
    ensures var t := Final(s, run);
            t.holds == s.holds && (RefundDue(t) <==> t.account.row == P.Refunded)
  {
    hide Safety.Inv, Final, Legal, Step;
    FaultIsHandled(s, id, run);
    var t, u := Final(s, run), Struck(s, run[0]);
    assert u == s.(frames := u.frames);
    if t.account.row != P.Refunded {
      JournaledNow(u, Entry(OfRefund, Refused));
    }
  }

  lemma PaidIsHandled(u: State, f: Frame, silent: bool, t: State)
    requires f.DCommit? && Handler(f, silent).Some? && u.status == Paid && t.status == Paid
    ensures FaultEnded(u, f, silent, t)
  {
  }

  lemma {:induction false} PaidStaysPaid(s: State, run: seq<Action>)
    requires s.status == Paid && Legal(s, run)
    ensures Final(s, run).status == Paid
    decreases |run|
  {
    if run != [] {
      assert Do(s, run[0]).status == Paid by { PaidStep(s, run[0]); }
      hide Do, Enabled;
      PaidStaysPaid(Do(s, run[0]), run[1..]);
    }
  }

  lemma PaidStep(s: State, a: Action)
    requires s.status == Paid && Enabled(s, a)
    ensures Do(s, a).status == Paid
  {
    forall w: Write ensures After(s, w).status == Paid {
      PaidWrite(s, w);
    }
    hide After, Step, Handler, MayStart, EnvMay, ChoiceOk;
  }

  lemma PaidWrite(s: State, w: Write)
    requires s.status == Paid
    ensures After(s, w).status == Paid
  {
    hide HasRefundMarker, CommitFits;
  }
}
