/**
 When the money behind a paid order still stands. Two things can go wrong, and runs show both: the
 poller refunds a shortfall while a retry re-reserves and pays; and the poller dies between the
 provider's refund and our row's flip, after which a retry pays against a row that still says
 `succeeded`. Without either, a paid order's money is at the provider in full.
 */
module CheckoutMoney {
  import opened Options
  import opened Inventory
  import opened Checkout
  import opened CheckoutExclusion
  import P = Payments
  import Safety = CheckoutSafety

  // ---------------------------------------------------------------- the refund gap

  /** The action cuts the poller off between the provider's refund and the row's flip. */
  predicate CutsRefund(s: State, a: Action)
    requires Enabled(s, a)
  {
    match a
    case Fail(id, c, landed, _) =>
      (s.frames[id] == FGateway(Settling) && landed && c == Grants(true))
          || (s.frames[id] == FFlip(Settling) && !landed)
    case Crash(id) => s.frames[id] == FFlip(Settling)
    case _ => false
  }

  predicate Uncut(s: State, run: seq<Action>)
    requires Legal(s, run)
    decreases |run|
  {
    run == [] || (!CutsRefund(s, run[0]) && Uncut(Do(s, run[0]), run[1..]))
  }

  predicate RefundUnderWay(s: State)
  {
    exists id :: id in s.frames && s.frames[id] == FFlip(Settling)
  }

  /** The provider gave the money back, our row does not know, and no poller is about to tell it. */
  predicate Stranded(s: State)
  {
    && s.account.row == P.Succeeded && s.account.refund == P.Returned && s.status != Cancelled
    && !RefundUnderWay(s)
  }

  lemma WriteReturns(s: State, w: Write)
    requires P.MoneyInv(s.account) && Safety.WriteOk(s, w)
    ensures After(s, w).account.refund == P.Returned ==>
              s.account.refund == P.Returned || w == Pay(P.RefundAtProvider(true))
    ensures After(s, w).account.row == P.Succeeded && s.account.refund == P.Returned ==>
              s.account.row == P.Succeeded && w != Pay(P.ApplyRefund)
    ensures s.status == Cancelled ==> After(s, w).status == Cancelled
    ensures After(s, w).frames == s.frames
  {
    hide HasRefundMarker, CommitFits, WellFormed;
  }

  lemma RefundCall(s: State, f: Frame, c: Choice)
    requires PartOf(f) == Refunder && Safety.FrameOk(s, f) && Step(s, f, c).0 == Pay(P.RefundAtProvider(true))
    ensures s.status == Cancelled || (f == FGateway(Settling) && c == Grants(true))
    ensures P.Next(s.account, P.RefundAtProvider(true)).refund == P.Returned && f == FGateway(Settling) ==>
              Step(s, f, c).1 == Some(FFlip(Settling))
  {
    hide DriveStep, SettleStep;
  }

  lemma WhoReturns(s: State, f: Frame, c: Choice)
    requires Safety.FrameOk(s, f) && Step(s, f, c).0 == Pay(P.RefundAtProvider(true))
    ensures s.status == Cancelled || (f == FGateway(Settling) && c == Grants(true))
    ensures P.Next(s.account, P.RefundAtProvider(true)).refund == P.Returned && f == FGateway(Settling) ==>
              Step(s, f, c).1 == Some(FFlip(Settling))
  {
    hide Step, PartOf, Safety.FrameOk, P.Next;
    OnlyRefunderRefunds(s, f, c);
    RefundCall(s, f, c);
  }

  lemma FlipIsRefund(s: State, f: Frame, c: Choice)
    ensures f == FFlip(Settling) ==> Step(s, f, c).0 == Pay(P.ApplyRefund)
  {
    assert Step(s, FFlip(Settling), c).0 == Pay(P.ApplyRefund);
    hide Step;
  }

  lemma AccountMoney(s: State)
    requires Safety.Inv(s)
    ensures P.MoneyInv(s.account)
  {
    assert P.Inv(s.account);
  }

  lemma OtherRefundsStay(s: State, t: State, id: nat)
    requires forall j | j in s.frames && j != id :: j in t.frames && t.frames[j] == s.frames[j]
    requires id in s.frames ==> s.frames[id] != FFlip(Settling)
    requires RefundUnderWay(s)
    ensures RefundUnderWay(t)
  {
    var j :| j in s.frames && s.frames[j] == FFlip(Settling);
    assert j in t.frames;
  }

  /** Any write on behalf of a frame that does not leave a refund behind. */
  lemma MoveStaysUnstranded(s: State, id: nat, w: Write, next: Option<Frame>)
    requires P.MoneyInv(s.account) && Safety.WriteOk(s, w) && !Stranded(s) && id in s.frames
    requires w == Pay(P.RefundAtProvider(true)) ==>
      s.status == Cancelled || P.Next(s.account, w.act).refund != P.Returned || next == Some(FFlip(Settling))
    requires s.frames[id] == FFlip(Settling) ==> w == Pay(P.ApplyRefund)
    ensures !Stranded(WithFrame(After(s, w), id, next))
  {
    hide P.MoneyInv, Safety.WriteOk, After, P.Next;
    var t := WithFrame(After(s, w), id, next);
    WriteReturns(s, w);
    if w == Pay(P.RefundAtProvider(true)) {
      AfterPay(s, w.act);
    }
    if next == Some(FFlip(Settling)) {
      assert t.frames[id] == FFlip(Settling);
    }
    if s.frames[id] != FFlip(Settling) && RefundUnderWay(s) {
      OtherRefundsStay(s, t, id);
    }
  }

  lemma StepStaysUnstranded(s: State, id: nat, c: Choice)
    requires Safety.Inv(s) && !Stranded(s) && Enabled(s, Run(id, c))
    ensures !Stranded(Do(s, Run(id, c)))
  {
    AccountMoney(s);
    StepIsOk(s, id, c);
    hide Safety.Inv, Safety.FrameOk, Safety.WriteOk, P.MoneyInv, ChoiceOk, After, Step, P.Next, Stranded;
    var f := s.frames[id];
    var (w, next) := Step(s, f, c);
    if w == Pay(P.RefundAtProvider(true)) {
      WhoReturns(s, f, c);
    }
    FlipIsRefund(s, f, c);
    MoveStaysUnstranded(s, id, w, next);
  }

  lemma StepIsOk(s: State, id: nat, c: Choice)
    requires Safety.Inv(s) && id in s.frames && ChoiceOk(s, s.frames[id], c)
    ensures Safety.FrameOk(s, s.frames[id])
    ensures Safety.WriteOk(s, Step(s, s.frames[id], c).0) && Safety.WriteOk(s, Nothing)
  {
    hide Safety.Core, Safety.FrameOk, Safety.WriteOk, Step, ChoiceOk;
    Safety.CoreHasAccount(s);
    Safety.StepWriteOk(s, s.frames[id], c);
    Safety.NothingIsOk(s);
  }

  lemma AfterPay(s: State, act: P.Act)
    ensures After(s, Pay(act)).account == P.Next(s.account, act)
  {
  }

  lemma FailStaysUnstranded(s: State, id: nat, c: Choice, landed: bool, silent: bool)
    requires Safety.Inv(s) && !Stranded(s) && Enabled(s, Fail(id, c, landed, silent))
    requires !CutsRefund(s, Fail(id, c, landed, silent))
    ensures !Stranded(Do(s, Fail(id, c, landed, silent)))
  {
    AccountMoney(s);
    StepIsOk(s, id, c);
    hide Safety.Inv, Safety.FrameOk, Safety.WriteOk, P.MoneyInv, ChoiceOk, After, Step, Handler, P.Next, Stranded;
    var f := s.frames[id];
    var w := if landed then Step(s, f, c).0 else Nothing;
    if w == Pay(P.RefundAtProvider(true)) {
      WhoReturns(s, f, c);
    }
    FlipIsRefund(s, f, c);
    MoveStaysUnstranded(s, id, w, Handler(f, silent));
  }

  lemma EnvStaysUnstranded(s: State, w: Write)
    requires Safety.Inv(s) && !Stranded(s) && EnvMay(s, w)
    ensures !Stranded(After(s, w))
  {
    AccountMoney(s);
    Safety.EnvWriteOk(s, w);
    assert w != Pay(P.RefundAtProvider(true));
    hide Safety.Core, Safety.FrameOk, Safety.WriteOk, P.MoneyInv, After, EnvMay;
    WriteReturns(s, w);
  }

  lemma DoStaysUnstranded(s: State, a: Action)
    requires Safety.Inv(s) && !Stranded(s) && Enabled(s, a) && !CutsRefund(s, a)
    ensures !Stranded(Do(s, a))
  {
    hide Safety.Inv, MayStart, EnvMay, After, Step, ChoiceOk;
    match a
    case Spawn(id, f) =>
      if RefundUnderWay(s) {
        OtherRefundsStay(s, Do(s, a), id);
      }
    case Run(id, c) => StepStaysUnstranded(s, id, c);
    case Fail(id, c, landed, silent) => FailStaysUnstranded(s, id, c, landed, silent);
    case Crash(id) =>
      if RefundUnderWay(s) {
        OtherRefundsStay(s, Do(s, a), id);
      }
    case Env(w) => EnvStaysUnstranded(s, w);
  }

  lemma {:induction false} RunsStayUnstranded(s: State, run: seq<Action>)
    requires Safety.Inv(s) && !Stranded(s) && Legal(s, run) && Uncut(s, run)
    ensures !Stranded(Final(s, run)) && Safety.Inv(Final(s, run))
    decreases |run|
  {
    hide Safety.Inv, Stranded, Enabled, Do, CutsRefund;
    if run != [] {
      Safety.DoKeepsInv(s, run[0]);
      DoStaysUnstranded(s, run[0]);
      RunsStayUnstranded(Do(s, run[0]), run[1..]);
    }
  }

  /**
   The money behind a paid order stands, in full: settlement kept apart from live drives, and the
   poller never cut off between the provider's refund and the row's flip.
   */
  lemma PaidMoneyStands(s: State, run: seq<Action>)
    requires Init(s) && Legal(s, run) && Exclusive(s, run) && Uncut(s, run)
    ensures var t := Final(s, run); t.status == Paid ==> t.account.row == P.Succeeded && P.Net(t.account) == t.total
  {
    hide Legal, Exclusive, Uncut, Final;
    Safety.InitOk(s);
    RunsStayUnstranded(s, run);
    PaidIsNeverRefunded(s, run);
    RunsKeepExcl(s, run);
    var t := Final(s, run);
    if t.status == Paid {
      AccountMoney(t);
      PaidFacts(t);
      NoRefundWhilePaid(t);
    }
  }

  lemma NoRefundWhilePaid(s: State)
    requires s.status == Paid && UnpaidWhileSettling(s)
    ensures !RefundUnderWay(s)
  {
    assert forall id | id in s.frames && s.frames[id] == FFlip(Settling) :: Settles(s.frames[id]);
  }

  lemma PaidFacts(s: State)
    requires Safety.Inv(s) && s.status == Paid
    ensures Took(s) && s.account.amount == s.total
  {
  }

  // ---------------------------------------------------------------- reachability

  /** Some run leads from `s` to `t`; an apart one keeps settlement and drives exclusive. */
  ghost predicate Reaches(s: State, t: State, apart: bool)
  {
    exists run :: Legal(s, run) && (apart ==> Exclusive(s, run)) && Final(s, run) == t
  }

  lemma {:induction false} OneMore(s: State, run: seq<Action>, a: Action)
    requires Legal(s, run) && Enabled(Final(s, run), a)
    ensures Legal(s, run + [a]) && Final(s, run + [a]) == Do(Final(s, run), a)
    ensures Exclusive(s, run) && Apart(Final(s, run), a) ==> Exclusive(s, run + [a])
    decreases |run|
  {
    hide Enabled, Do, Apart;
    if run == [] {
      assert run + [a] == [a] && [a][1..] == [];
      assert Legal(Do(s, a), []);
    } else {
      OneMore(Do(s, run[0]), run[1..], a);
      assert (run + [a])[1..] == run[1..] + [a];
    }
  }

  lemma Then(s: State, t: State, a: Action, apart: bool)
    requires Reaches(s, t, apart) && Enabled(t, a) && (apart ==> Apart(t, a))
    ensures Reaches(s, Do(t, a), apart)
  {
    hide Enabled, Do, Apart, Legal, Exclusive, Final;
    var run :| Legal(s, run) && (apart ==> Exclusive(s, run)) && Final(s, run) == t;
    OneMore(s, run, a);
  }

  lemma Here(s: State, apart: bool)
    ensures Reaches(s, s, apart)
  {
    assert Legal(s, []) && Exclusive(s, []) && Final(s, []) == s;
  }

  /** `t` is reached from `s`, with everyone else where they were, the money as it was, and frame `id` at `f`. */
  ghost predicate At(s: State, t: State, id: nat, f: Frame, apart: bool)
  {
    && Reaches(s, t, apart) && t.frames == s.frames[id := f] && t.status == s.status && t.account == s.account
    && t.id == s.id && t.lines == s.lines && t.total == s.total
  }

  lemma Tick(s: State, t: State, id: nat, c: Choice, apart: bool) returns (u: State)
    requires id in t.frames && At(s, t, id, t.frames[id], apart) && ChoiceOk(t, t.frames[id], c)
    requires Step(t, t.frames[id], c).1.Some?
    requires var x := After(t, Step(t, t.frames[id], c).0);
             x.status == t.status && x.account == t.account && x.id == t.id && x.lines == t.lines
                 && x.total == t.total && x.frames == t.frames
    ensures At(s, u, id, Step(t, t.frames[id], c).1.value, apart)
    ensures u.holds == After(t, Step(t, t.frames[id], c).0).holds
  {
    hide Step, After, ChoiceOk, Reaches, MayStart, EnvMay;
    u := Do(t, Run(id, c));
    Then(s, t, Run(id, c), apart);
  }

  // ---------------------------------------------------------------- a retry that pays

  /** A step that only writes a journal row. */
  lemma LogTick(s: State, t: State, id: nat, f: Frame, g: Frame, apart: bool) returns (u: State)
    requires At(s, t, id, f, apart) && Step(t, f, Go).0.Log? && Step(t, f, Go).1 == Some(g)
    ensures At(s, u, id, g, apart) && u.holds == t.holds
  {
    hide Step, Reaches;
    assert t.frames[id] == f;
    u := Tick(s, t, id, Go, apart);
  }

  lemma RetryPlaces(s: State, id: nat, apart: bool) returns (t: State)
    requires s.status == Pending && WellFormed(s.lines) && id !in s.frames && (apart ==> NoneSettles(s))
    ensures At(s, t, id, DLogReserved, apart) && t.holds == After(s, Place).holds
  {
    hide Reaches, WellFormed, Fresh, NoneSettles;
    Here(s, apart);
    Then(s, s, Spawn(id, DLogReserve), apart);
    t := Do(s, Spawn(id, DLogReserve));
    t := LogTick(s, t, id, DLogReserve, DReserve, apart);
    t := Tick(s, t, id, Accepted, apart);
  }

  lemma RetryReadsCharge(s: State, u: State, id: nat, apart: bool) returns (t: State)
    requires s.status == Pending && s.account.row == P.Succeeded && s.account.amount == s.total
    requires At(s, u, id, DReadLive, apart)
    ensures At(s, t, id, DLogOutcome(Completed, false), apart) && t.holds == u.holds
  {
    hide Reaches;
    t := Tick(s, u, id, Go, apart);
    t := Tick(s, t, id, Go, apart);
  }

  lemma RetryCommits(s: State, u: State, id: nat, apart: bool) returns (t: State)
    requires At(s, u, id, DCommit, apart)
    ensures At(s, t, id, DCommitCheck, apart) && t.holds == After(u, CommitHolds).holds
  {
    hide Reaches, CommitFits;
    t := Tick(s, u, id, Go, apart);
  }

  /** A retry that runs undisturbed up to its commit. */
  lemma RetryReserves(s: State, id: nat, apart: bool) returns (t: State)
    requires s.status == Pending && s.account.row == P.Succeeded && s.account.amount == s.total && WellFormed(s.lines)
    requires id !in s.frames && (apart ==> NoneSettles(s))
    ensures At(s, t, id, DCommitCheck, apart) && t.holds == After(After(s, Place), CommitHolds).holds
  {
    hide Reaches, CommitFits, WellFormed, Fresh, NoneSettles, After;
    t := RetryPlaces(s, id, apart);
    t := LogTick(s, t, id, DLogReserved, DLogCharge, apart);
    t := LogTick(s, t, id, DLogCharge, DReadLive, apart);
    t := RetryReadsCharge(s, t, id, apart);
    t := LogTick(s, t, id, DLogOutcome(Completed, false), DLogCommit, apart);
    t := LogTick(s, t, id, DLogCommit, DCommit, apart);
    Safety.SameOrder(s, Place);
    CommitLooksAtRows(t, After(s, Place));
    t := RetryCommits(s, t, id, apart);
  }

  lemma RetryFlips(s: State, u: State, id: nat, apart: bool) returns (t: State)
    requires At(s, u, id, DFlip, apart) && s.status == Pending
    ensures Reaches(s, t, apart) && t.status == Paid && t.account == s.account && t.total == s.total
    ensures t.frames == s.frames[id := DLogPaid]
  {
    hide Reaches;
    Then(s, u, Run(id, Go), apart);
    t := Do(u, Run(id, Go));
  }

  lemma RetryChecks(s: State, u: State, id: nat, apart: bool) returns (t: State)
    requires At(s, u, id, DCommitCheck, apart) && CommitFits(u)
    ensures At(s, t, id, DLogCommitted, apart)
  {
    hide Reaches, CommitFits, WithStatus;
    t := Tick(s, u, id, Go, apart);
  }

  lemma CommitLooksAtRows(s: State, t: State)
    requires s.id == t.id && s.lines == t.lines && s.holds == t.holds
    ensures CommitFits(s) == CommitFits(t) && After(s, CommitHolds).holds == After(t, CommitHolds).holds
  {
  }

  /** A reservation leaves enough rows to commit. */
  lemma PlacedFits(s: State)
    requires Safety.HoldsOk(s) && WellFormed(s.lines)
    ensures CommitFits(After(s, Place))
  {
    hide Safety.HoldsOk, After, Fresh, WellFormed;
    var t := After(s, Place);
    Safety.PlaceKeepsHolds(s);
    Safety.SameOrder(s, Place);
    Safety.RowsAreLines(t);
    EveryLinePlaced(s);
    assert t.holds.Keys == LineKeys(t);
    KeysOfLines(s.id, s.lines);
    OneOwner(t);
    Safety.HeldOrCommitted(t.holds, t.id);
  }

  lemma OneOwner(s: State)
    requires Safety.HoldsOk(s)
    ensures forall k | k in s.holds :: k.0 == s.id
  {
  }

  lemma EveryLinePlaced(s: State)
    ensures LineKeys(s) <= After(s, Place).holds.Keys
  {
    FreshRows(Ledger(map[], s.holds), s.id, s.lines);
  }

  lemma {:induction false} KeysOfLines(id: OrderId, lines: seq<Line>)
    requires WellFormed(lines)
    ensures |set i | 0 <= i < |lines| :: (id, lines[i].0)| == |lines|
  {
    if lines != [] {
      var n := |lines| - 1;
      assert WellFormed(lines[..n]);
      KeysOfLines(id, lines[..n]);
      var before := set i | 0 <= i < n :: (id, lines[..n][i].0);
      assert (set i | 0 <= i < |lines| :: (id, lines[i].0)) == before + {(id, lines[n].0)} by {
        assert forall i | 0 <= i < n :: lines[..n][i] == lines[i];
      }
    }
  }

  lemma CommitKeepsKeys(s: State)
    ensures After(s, CommitHolds).holds.Keys == s.holds.Keys
  {
    hide CommitFits;
  }

  /** A commit that fitted fits again. */
  lemma FitsAgain(s: State)
    requires Safety.HoldsOk(s) && CommitFits(s)
    ensures CommitFits(After(s, CommitHolds))
  {
    hide Safety.HoldsOk, After;
    var t := After(s, CommitHolds);
    Safety.CommitKeepsHolds(s);
    Safety.SameOrder(s, CommitHolds);
    OneOwner(s);
    OneOwner(t);
    Safety.HeldOrCommitted(s.holds, s.id);
    Safety.HeldOrCommitted(t.holds, t.id);
    CommitKeepsKeys(s);
  }

  lemma RetryFits(s: State)
    requires Safety.HoldsOk(s) && WellFormed(s.lines)
    ensures CommitFits(After(After(s, Place), CommitHolds))
  {
    hide Safety.HoldsOk, After, CommitFits, WellFormed;
    Safety.PlaceKeepsHolds(s);
    PlacedFits(s);
    FitsAgain(After(s, Place));
  }

  /**
   From any state whose order is pending behind a `succeeded` row, an undisturbed same-key retry pays
   the order; what the provider then holds is what it held before.
   */
  lemma RetryPays(s: State, id: nat, apart: bool) returns (t: State)
    requires Safety.Inv(s) && s.status == Pending && s.account.row == P.Succeeded && WellFormed(s.lines)
    requires id !in s.frames && (apart ==> NoneSettles(s))
    ensures Reaches(s, t, apart) && t.status == Paid && t.account == s.account && t.total == s.total
    ensures t.frames == s.frames[id := DLogPaid]
  {
    hide Safety.Inv, Reaches, CommitFits, WellFormed, Fresh, NoneSettles, Safety.HoldsOk, After;
    PendingFacts(s);
    RetryFits(s);
    t := RetryReserves(s, id, apart);
    Safety.SameOrder(s, Place);
    Safety.SameOrder(After(s, Place), CommitHolds);
    CommitLooksAtRows(t, After(After(s, Place), CommitHolds));
    t := RetryChecks(s, t, id, apart);
    t := LogTick(s, t, id, DLogCommitted, DLogMarkPaid, apart);
    t := LogTick(s, t, id, DLogMarkPaid, DFlip, apart);
    t := RetryFlips(s, t, id, apart);
  }

  lemma PendingFacts(s: State)
    requires Safety.Inv(s) && s.account.row == P.Succeeded
    ensures s.account.amount == s.total && Safety.HoldsOk(s)
  {
  }

  /**
   The refund gap is real: whenever a pending order's refund is stranded and nobody settles it, a
   same-key retry marks it paid with nothing left at the provider. Keeping drives and settlement apart
   does not help.
   */
  lemma StrandedRefundIsPaidFor(s: State, id: nat) returns (t: State)
    requires Safety.Inv(s) && Stranded(s) && s.status == Pending && NoneSettles(s) && WellFormed(s.lines)
               && id !in s.frames
    ensures Reaches(s, t, true) && t.status == Paid && P.Net(t.account) == 0
  {
    AccountMoney(s);
    t := RetryPays(s, id, true);
  }

  // ---------------------------------------------------------------- two runs from the start

  /** A first drive charges and dies; the reaper takes its holds. */
  lemma ChargedThenReaped(s: State) returns (t: State)
    requires Init(s) && WellFormed(s.lines)
    ensures Reaches(s, t, true) && t.frames == map[] && t.status == Pending && t.holds == map[]
    ensures t.lines == s.lines && t.id == s.id && t.total == s.total
    ensures t.account.row == P.Succeeded && t.account.hasRef && t.account.refund == P.NotAsked
  {
    hide Reaches, WellFormed, Fresh, CommitFits, P.Inv, HasRefundMarker;
    Here(s, true);
    Then(s, s, Spawn(0, DLogReserve), true);
    t := Do(s, Spawn(0, DLogReserve));
    t := Tick(s, t, 0, Go, true);
    FirstRows(t);
    t := Tick(s, t, 0, Accepted, true);
    t := Tick(s, t, 0, Go, true);
    t := Tick(s, t, 0, Go, true);
    t := Tick(s, t, 0, Go, true);
    t := ChargeAndDie(s, t);
  }

  lemma FirstRows(s: State)
    requires s.holds == map[]
    ensures var h := After(s, Place).holds; forall k | k in h :: k.0 == s.id && h[k].status == Held
  {
    FreshRows(Ledger(map[], s.holds), s.id, s.lines);
  }

  lemma ChargeAndDie(s: State, u: State) returns (t: State)
    requires s.lines != [] && s.status == Pending && s.account == P.NEW && s.frames == map[]
    requires At(s, u, 0, DCreatePayment, true) && (forall k | k in u.holds :: k.0 == s.id && u.holds[k].status == Held)
    ensures Reaches(s, t, true) && t.frames == map[] && t.status == Pending && t.holds == map[]
    ensures t.lines == s.lines && t.id == s.id && t.total == s.total
    ensures t.account.row == P.Succeeded && t.account.hasRef && t.account.refund == P.NotAsked
  {
    hide Reaches, WellFormed, Fresh, CommitFits, HasRefundMarker;
    t := u;
    Then(s, t, Run(0, Go), true);
    t := Do(t, Run(0, Go));
    Then(s, t, Run(0, Sees(P.Captured)), true);
    t := Do(t, Run(0, Sees(P.Captured)));
    Then(s, t, Run(0, Go), true);
    t := Do(t, Run(0, Go));
    Then(s, t, Crash(0), true);
    t := Do(t, Crash(0));
    Then(s, t, Env(Reap(t.holds.Keys)), true);
    t := Do(t, Env(Reap(t.holds.Keys)));
  }

  /** The poller finds the shortfall and the provider gives the money back; the row is not flipped yet. */
  lemma ShortfallReturned(s: State, u: State) returns (t: State)
    requires Reaches(s, u, true) && u.frames == map[] && u.status == Pending && u.holds == map[] && u.lines != []
    requires u.account.row == P.Succeeded && u.account.hasRef && u.account.refund == P.NotAsked
    ensures Reaches(s, t, true) && t.frames == map[0 := FFlip(Settling)] && t.status == Pending
    ensures t.lines == u.lines && t.account.row == P.Succeeded && t.account.refund == P.Returned
  {
    hide Reaches, WellFormed, Fresh, HasRefundMarker, CommitFits;
    EmptyDoesNotFit(u);
    Then(s, u, Spawn(0, SReadPayment), true);
    t := Do(u, Spawn(0, SReadPayment));
    Then(s, t, Run(0, Go), true);
    t := Do(t, Run(0, Go));
    CommitLooksAtRows(t, u);
    Then(s, t, Run(0, Go), true);
    t := Do(t, Run(0, Go));
    Then(s, t, Run(0, Go), true);
    t := Do(t, Run(0, Go));
    Then(s, t, Run(0, Grants(true)), true);
    t := Do(t, Run(0, Grants(true)));
  }

  lemma EmptyDoesNotFit(s: State)
    requires s.holds == map[] && s.lines != []
    ensures !CommitFits(s)
  {
  }

  lemma Join(s: State, t: State, u: State, apart: bool)
    requires Reaches(s, t, apart) && Reaches(t, u, apart)
    ensures Reaches(s, u, apart)
  {
    var run :| Legal(t, run) && (apart ==> Exclusive(t, run)) && Final(t, run) == u;
    JoinRun(s, t, run, apart);
  }

  lemma {:induction false} JoinRun(s: State, t: State, run: seq<Action>, apart: bool)
    requires Reaches(s, t, apart) && Legal(t, run) && (apart ==> Exclusive(t, run))
    ensures Reaches(s, Final(t, run), apart)
    decreases |run|
  {
    hide Reaches, Enabled, Do, Apart;
    if run != [] {
      Then(s, t, run[0], apart);
      JoinRun(s, Do(t, run[0]), run[1..], apart);
    }
  }

  lemma ReachesKeepsInv(s: State, t: State, apart: bool)
    requires Safety.Inv(s) && Reaches(s, t, apart)
    ensures Safety.Inv(t)
  {
    hide Safety.Inv, Legal, Exclusive, Final;
    var run :| Legal(s, run) && (apart ==> Exclusive(s, run)) && Final(s, run) == t;
    Safety.RunKeepsInv(s, run);
  }

  /**
   The exclusion is needed: without it every order with a well-formed basket has a run that leaves it
   paid and refunded at once. The poller refunds a shortfall while a retry re-reserves and pays.
   */
  lemma PaidAndRefundedWithoutExclusion(s: State) returns (t: State)
    requires Init(s) && WellFormed(s.lines)
    ensures Reaches(s, t, false) && t.status == Paid && t.account.row == P.Refunded
  {
    hide Safety.Inv, Reaches, WellFormed;
    var u := RefundPending(s);
    Loosen(s, u);
    t := RetryPays(u, 1, false);
    Join(s, u, t, false);
    Then(s, t, Run(0, Go), false);
    t := Do(t, Run(0, Go));
  }

  lemma RefundPending(s: State) returns (t: State)
    requires Init(s) && WellFormed(s.lines)
    ensures Reaches(s, t, true) && Safety.Inv(t) && t.frames == map[0 := FFlip(Settling)] && t.status == Pending
    ensures t.lines == s.lines && t.account.row == P.Succeeded && t.account.refund == P.Returned
  {
    hide Safety.Inv, Reaches, WellFormed;
    t := ChargedThenReaped(s);
    t := ShortfallReturned(s, t);
    Safety.InitOk(s);
    ReachesKeepsInv(s, t, true);
  }

  lemma Loosen(s: State, t: State)
    requires Reaches(s, t, true)
    ensures Reaches(s, t, false)
  {
  }

  /** And the refund gap is reachable from every such order even with the exclusion. */
  lemma PaidForNothingDespiteExclusion(s: State) returns (t: State)
    requires Init(s) && WellFormed(s.lines)
    ensures Reaches(s, t, true) && t.status == Paid && P.Net(t.account) == 0
  {
    hide Safety.Inv, Reaches, WellFormed;
    var u := RefundPending(s);
    Safety.FramesOnly(u, 0, None);
    Then(s, u, Crash(0), true);
    u := Do(u, Crash(0));
    t := StrandedRefundIsPaidFor(u, 0);
    Join(s, u, t, true);
  }
}
