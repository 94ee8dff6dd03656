/**
 The circuit breaker and the calls it brackets: every admitted call records exactly one outcome, at any
 later moment and in any order. The breaker never wedges; how many probes it can have in flight depends
 on its probe counter, which a straggler can push below zero.
 */
module CircuitBreaker {
  import opened Options
  import opened FrameIds

  datatype Phase = Closed | HalfOpen | Open

  datatype Breaker = Breaker(phase: Phase, failures: nat, openedAt: int, probes: int)

  const FRESH := Breaker(Closed, 0, 0, 0)

  datatype Settings = Settings(threshold: nat, window: int)

  datatype Gate = Gate(admits: bool, breaker: Breaker)

  function Allow(b: Breaker, c: Settings, now: int): Gate
  {
    if b.phase == Closed then Gate(true, b)
    else if b.phase == Open && now - b.openedAt < c.window then Gate(false, b)
    else
      var half := b.(phase := HalfOpen);
      if half.probes >= 1 then Gate(false, half) else Gate(true, half.(probes := half.probes + 1))
  }

  datatype Outcome = Answered | Faulted | Abandoned

  function Tripped(b: Breaker, now: int): Breaker
  {
    b.(phase := Open, failures := 0, openedAt := now)
  }

  function Record(b: Breaker, c: Settings, o: Outcome, now: int): Breaker
  {
    match o
    case Answered =>
      if b.phase == Open then b
      else if b.phase == HalfOpen then Breaker(Closed, 0, b.openedAt, b.probes - 1)
      else b.(failures := 0)
    case Faulted =>
      if b.phase == Open then b
      else if b.phase == HalfOpen then Tripped(b.(probes := b.probes - 1), now)
      else if b.failures + 1 >= c.threshold then Tripped(b, now)
      else b.(failures := b.failures + 1)
    case Abandoned =>
      if b.phase == HalfOpen then b.(probes := if b.probes - 1 > 0 then b.probes - 1 else 0) else b
  }

  // ---------------------------------------------------------------- calls in flight

  /** A call remembers the half-open epoch that admitted it as a probe; `None` if the breaker was closed. */
  datatype State = State(breaker: Breaker, epoch: nat, calls: map<nat, Option<nat>>)

  datatype Action = Begin(id: nat, now: int) | Finish(id: nat, outcome: Outcome, now: int)

  predicate Enabled(s: State, a: Action)
  {
    match a
    case Begin(id, _) => id !in s.calls
    case Finish(id, _, _) => id in s.calls
  }

  function Do(s: State, c: Settings, a: Action): State
    requires Enabled(s, a)
  {
    match a
    case Begin(id, now) =>
      var gate := Allow(s.breaker, c, now);
      var epoch := if s.breaker.phase == Open && gate.breaker.phase == HalfOpen then s.epoch + 1 else s.epoch;
      var calls := if !gate.admits then s.calls
          else s.calls[id := if gate.breaker.phase == Closed then None else Some(epoch)];
      State(gate.breaker, epoch, calls)
    case Finish(id, outcome, now) => State(Record(s.breaker, c, outcome, now), s.epoch, s.calls - {id})
  }

  predicate Legal(s: State, c: Settings, run: seq<Action>)
    decreases |run|
  {
    run == [] || (Enabled(s, run[0]) && Legal(Do(s, c, run[0]), c, run[1..]))
  }

  function Final(s: State, c: Settings, run: seq<Action>): State
    requires Legal(s, c, run)
    decreases |run|
  {
    if run == [] then s else Final(Do(s, c, run[0]), c, run[1..])
  }

  const START := State(FRESH, 0, map[])

  /** The probes the current half-open epoch has in flight. */
  function Probes(s: State): set<nat>
  {
    set id | id in s.calls && s.calls[id] == Some(s.epoch)
  }

  // ---------------------------------------------------------------- never wedged

  predicate Inv(s: State)
  {
    && (forall id | id in s.calls && s.calls[id].Some? :: s.calls[id].value <= s.epoch)
    && (if s.breaker.phase == HalfOpen then 0 <= s.breaker.probes <= 1 && s.breaker.probes <= |Probes(s)|
        else -1 <= s.breaker.probes <= 0)
  }

  lemma ProbesAfterBegin(s: State, c: Settings, id: nat, now: int)
    requires Inv(s) && id !in s.calls
    ensures var t := Do(s, c, Begin(id, now));
            && (t.epoch == s.epoch && Allow(s.breaker, c, now).admits && t.breaker.phase == HalfOpen ==>
                |Probes(t)| == |Probes(s)| + 1)
            && (t.epoch == s.epoch && !Allow(s.breaker, c, now).admits ==> Probes(t) == Probes(s))
            && (t.epoch == s.epoch + 1 && Allow(s.breaker, c, now).admits ==> |Probes(t)| == 1)
            && (t.epoch == s.epoch + 1 && !Allow(s.breaker, c, now).admits ==> |Probes(t)| == 0)
  {
    var t := Do(s, c, Begin(id, now));
    if t.epoch == s.epoch && Allow(s.breaker, c, now).admits && t.breaker.phase == HalfOpen {
      assert Probes(t) == Probes(s) + {id};
    }
    if t.epoch == s.epoch + 1 {
      assert Probes(t) == if Allow(s.breaker, c, now).admits then {id} else {};
    }
  }

  lemma ProbesAfterFinish(s: State, c: Settings, id: nat, o: Outcome, now: int)
    requires id in s.calls
    ensures var t := Do(s, c, Finish(id, o, now));
            |Probes(t)| == |Probes(s)| - (if s.calls[id] == Some(s.epoch) then 1 else 0)
  {
    var t := Do(s, c, Finish(id, o, now));
    if s.calls[id] == Some(s.epoch) {
      assert Probes(t) == Probes(s) - {id};
    } else {
      assert Probes(t) == Probes(s);
    }
  }

  lemma DoKeepsInv(s: State, c: Settings, a: Action)
    requires Inv(s) && Enabled(s, a)
    ensures Inv(Do(s, c, a))
  {
    match a
    case Begin(id, now) => ProbesAfterBegin(s, c, id, now);
    case Finish(id, o, now) => ProbesAfterFinish(s, c, id, o, now);
  }

  lemma {:induction false} RunKeepsInv(s: State, c: Settings, run: seq<Action>)
    requires Inv(s) && Legal(s, c, run)
    ensures Inv(Final(s, c, run))
    decreases |run|
  {
    hide Inv, Enabled, Do;
    if run != [] {
      DoKeepsInv(s, c, run[0]);
      RunKeepsInv(Do(s, c, run[0]), c, run[1..]);
    }
  }

  /**
   Never wedged: in every reachable state the counter is at most one and at most the probes in flight,
   so once the window has elapsed a breaker with no probe in flight admits the next call.
   */
  lemma NeverWedges(c: Settings, run: seq<Action>, now: int)
    requires Legal(START, c, run)
    ensures var s := Final(START, c, run);
            && s.breaker.probes <= 1
            && (s.breaker.phase == HalfOpen ==> s.breaker.probes <= |Probes(s)|)
            && (s.breaker.phase == Closed ==> Allow(s.breaker, c, now).admits)
            && (s.breaker.phase == Open && now - s.breaker.openedAt >= c.window ==> Allow(s.breaker, c, now).admits)
            && (s.breaker.phase == HalfOpen && Probes(s) == {} ==> Allow(s.breaker, c, now).admits)
  {
    hide Legal, Final;
    RunKeepsInv(START, c, run);
  }

  // ---------------------------------------------------------------- when it opens, and for how long

  /** The outcomes a run records that say something about the dependency, in order. */
  function Recorded(run: seq<Action>): seq<Outcome>
  {
    if run == [] then []
    else if run[0].Finish? && run[0].outcome != Abandoned then [run[0].outcome] + Recorded(run[1..])
    else Recorded(run[1..])
  }

  /** Nowhere are there `n` faults in a row. */
  predicate NoStreak(outcomes: seq<Outcome>, n: nat)
  {
    forall k | n <= k <= |outcomes| :: !StreakTo(outcomes, k, n)
  }

  /** The `n` outcomes up to `k` are faults. */
  predicate StreakTo(outcomes: seq<Outcome>, k: nat, n: nat)
    requires n <= k <= |outcomes|
  {
    forall i | k - n <= i < k :: outcomes[i] == Faulted
  }

  function Bound(c: Settings): nat
  {
    if c.threshold > 1 then c.threshold else 1
  }

  predicate StaysClosed(s: State, c: Settings, run: seq<Action>)
    requires Legal(s, c, run)
    decreases |run|
  {
    s.breaker.phase == Closed && (run == [] || StaysClosed(Do(s, c, run[0]), c, run[1..]))
  }

  function Faults(n: nat): seq<Outcome>
  {
    seq(n, _ => Faulted)
  }

  /** An answer ends whatever streak was under way. */
  lemma AnswerForgets(m: nat, rest: seq<Outcome>, n: nat)
    requires m < n
    ensures NoStreak(Faults(m) + [Answered] + rest, n) <==> NoStreak(rest, n)
  {
    var all := Faults(m) + [Answered] + rest;
    if NoStreak(all, n) {
      forall k | n <= k <= |rest| ensures !StreakTo(rest, k, n) {
        assert !StreakTo(all, k + m + 1, n);
        var i :| k + m + 1 - n <= i < k + m + 1 && all[i] != Faulted;
        assert rest[i - m - 1] == all[i];
      }
    }
    if NoStreak(rest, n) {
      forall k | n <= k <= |all| ensures !StreakTo(all, k, n) {
        if k >= m + 1 + n {
          assert !StreakTo(rest, k - m - 1, n);
          var i :| k - m - 1 - n <= i < k - m - 1 && rest[i] != Faulted;
          assert all[i + m + 1] == rest[i];
        } else {
          assert all[m] == Answered;
        }
      }
    }
  }

  lemma StreakReached(m: nat, rest: seq<Outcome>, n: nat)
    requires m + 1 == n
    ensures !NoStreak(Faults(m) + [Faulted] + rest, n)
  {
    var all := Faults(m) + [Faulted] + rest;
    assert StreakTo(all, n, n);
  }

  lemma TooFewFaults(m: nat, n: nat)
    requires m < n
    ensures NoStreak(Faults(m) + [], n)
  {
  }

  lemma {:induction false} StreakOpens(s: State, c: Settings, run: seq<Action>)
    requires Legal(s, c, run) && s.breaker.phase == Closed && s.breaker.failures < Bound(c)
    ensures StaysClosed(s, c, run) <==> NoStreak(Faults(s.breaker.failures) + Recorded(run), Bound(c))
    decreases |run|
  {
    hide NoStreak;
    var m, n := s.breaker.failures, Bound(c);
    if run == [] {
      TooFewFaults(m, n);
    } else {
      var a, t, rest := run[0], Do(s, c, run[0]), Recorded(run[1..]);
      if a.Begin? || a.outcome == Abandoned {
        StreakOpens(t, c, run[1..]);
      } else if a.outcome == Answered {
        StreakOpens(t, c, run[1..]);
        AnswerForgets(m, rest, n);
        assert Faults(0) + rest == rest;
        assert Faults(m) + ([Answered] + rest) == Faults(m) + [Answered] + rest;
      } else if m + 1 < n {
        StreakOpens(t, c, run[1..]);
        assert Faults(m) + ([Faulted] + rest) == Faults(m + 1) + rest;
      } else {
        StreakReached(m, rest, n);
        assert Faults(m) + ([Faulted] + rest) == Faults(m) + [Faulted] + rest;
        assert t.breaker.phase == Open;
      }
    }
  }

  /**
   A breaker that has just closed leaves that state exactly when `threshold` faults are recorded in a row:
   answers in between break the row, cancelled calls and admissions do not count.
   */
  lemma OpensExactlyOnAStreak(s: State, c: Settings, run: seq<Action>)
    requires Legal(s, c, run) && s.breaker.phase == Closed && s.breaker.failures == 0
    ensures StaysClosed(s, c, run) <==> NoStreak(Recorded(run), Bound(c))
  {
    hide NoStreak;
    StreakOpens(s, c, run);
    assert Faults(0) + Recorded(run) == Recorded(run);
  }

  /** Once open it refuses every call for a whole window, whatever stragglers still record. */
  lemma {:induction false} OpenForAWindow(s: State, c: Settings, run: seq<Action>)
    requires Legal(s, c, run) && s.breaker.phase == Open
    requires forall i | 0 <= i < |run| && run[i].Begin? :: run[i].now - s.breaker.openedAt < c.window
    ensures Final(s, c, run).breaker == s.breaker && Final(s, c, run).calls.Keys <= s.calls.Keys
    decreases |run|
  {
    if run != [] {
      OpenForAWindow(Do(s, c, run[0]), c, run[1..]);
    }
  }

  /** A breaker is only ever closed with no streak behind it, or on a streak still short of the threshold. */
  predicate StreakOk(b: Breaker, c: Settings)
  {
    b.failures < Bound(c) && (b.phase != Closed ==> b.failures == 0)
  }

  lemma {:induction false} StreaksStayShort(s: State, c: Settings, run: seq<Action>)
    requires Legal(s, c, run) && StreakOk(s.breaker, c)
    ensures StreakOk(Final(s, c, run).breaker, c)
    decreases |run|
  {
    if run != [] {
      StreaksStayShort(Do(s, c, run[0]), c, run[1..]);
    }
  }

  // ---------------------------------------------------------------- how many probes

  /** The action is no straggler's: while half-open, only this epoch's probes record an outcome. */
  predicate Clean(s: State, a: Action)
    requires Enabled(s, a)
  {
    a.Finish? && s.breaker.phase == HalfOpen ==> s.calls[a.id] == Some(s.epoch)
  }

  predicate AllClean(s: State, c: Settings, run: seq<Action>)
    requires Legal(s, c, run)
    decreases |run|
  {
    run == [] || (Clean(s, run[0]) && AllClean(Do(s, c, run[0]), c, run[1..]))
  }

  /** With no straggler so far the counter is exact. */
  predicate Exact(s: State)
  {
    && Inv(s)
    && (s.breaker.phase == HalfOpen ==> s.breaker.probes == |Probes(s)|)
    && (s.breaker.phase != HalfOpen ==> s.breaker.probes == 0)
  }

  lemma CleanKeepsExact(s: State, c: Settings, a: Action)
    requires Exact(s) && Enabled(s, a) && Clean(s, a)
    ensures Exact(Do(s, c, a))
  {
    DoKeepsInv(s, c, a);
    match a
    case Begin(id, now) => ProbesAfterBegin(s, c, id, now);
    case Finish(id, o, now) => ProbesAfterFinish(s, c, id, o, now);
  }

  lemma {:induction false} CleanRunIsExact(s: State, c: Settings, run: seq<Action>)
    requires Exact(s) && Legal(s, c, run) && AllClean(s, c, run)
    ensures Exact(Final(s, c, run))
    decreases |run|
  {
    hide Exact, Enabled, Do, Clean;
    if run != [] {
      CleanKeepsExact(s, c, run[0]);
      CleanRunIsExact(Do(s, c, run[0]), c, run[1..]);
    }
  }

  /** If no straggler ever records into a half-open breaker, at most one probe is in flight. */
  lemma OneProbeWithoutStragglers(c: Settings, run: seq<Action>)
    requires Legal(START, c, run) && AllClean(START, c, run)
    ensures var s := Final(START, c, run); s.breaker.phase == HalfOpen ==> |Probes(s)| <= 1
  {
    hide Legal, Final, AllClean;
    assert Probes(START) == {};
    CleanRunIsExact(START, c, run);
  }

  // ---------------------------------------------------------------- how many probes an epoch can hold

  predicate StaysHalfOpen(s: State, c: Settings, run: seq<Action>)
    requires Legal(s, c, run)
    decreases |run|
  {
    s.breaker.phase == HalfOpen && (run == [] || StaysHalfOpen(Do(s, c, run[0]), c, run[1..]))
  }

  /** Without stragglers, an epoch entered with the counter at `p` keeps its probes within `1 - p`. */
  predicate Within(s: State, p: int)
  {
    Inv(s) && (s.breaker.phase == HalfOpen ==> |Probes(s)| <= s.breaker.probes - p)
  }

  /** The call that finds the window elapsed opens the epoch as its first probe. */
  lemma EpochOpens(s: State, c: Settings, id: nat, now: int)
    requires Inv(s) && id !in s.calls && s.breaker.phase == Open && now - s.breaker.openedAt >= c.window
    ensures var t := Do(s, c, Begin(id, now));
            t.breaker.phase == HalfOpen && t.epoch == s.epoch + 1 && |Probes(t)| == 1 && Within(t, s.breaker.probes)
  {
    DoKeepsInv(s, c, Begin(id, now));
    ProbesAfterBegin(s, c, id, now);
  }

  lemma {:induction false} EpochStaysWithin(s: State, c: Settings, p: int, run: seq<Action>)
    requires -1 <= p <= 0 && Within(s, p) && Legal(s, c, run) && AllClean(s, c, run) && StaysHalfOpen(s, c, run)
    ensures |Probes(Final(s, c, run))| <= 1 - p
    decreases |run|
  {
    if run != [] {
      var t := Do(s, c, run[0]);
      DoKeepsInv(s, c, run[0]);
      match run[0] {
        case Begin(id, now) => ProbesAfterBegin(s, c, id, now);
        case Finish(id, o, now) => ProbesAfterFinish(s, c, id, o, now);
      }
      EpochStaysWithin(t, c, p, run[1..]);
    }
  }

  /** `t` is reached within the epoch that call `id` opens at `now`, with no straggler recording into it. */
  ghost predicate InEpoch(s: State, c: Settings, id: nat, now: int, t: State)
    requires Enabled(s, Begin(id, now))
  {
    var half := Do(s, c, Begin(id, now));
    exists run :: Legal(half, c, run) && AllClean(half, c, run) && StaysHalfOpen(half, c, run)
        && Final(half, c, run) == t
  }

  /** An epoch entered with the counter at `p` has at most `1 - p` probes in flight, whatever its calls do. */
  lemma EpochBound(s: State, c: Settings, id: nat, now: int, t: State)
    requires Inv(s) && id !in s.calls && s.breaker.phase == Open && now - s.breaker.openedAt >= c.window
    requires InEpoch(s, c, id, now, t)
    ensures |Probes(t)| <= 1 - s.breaker.probes
  {
    EpochOpens(s, c, id, now);
    hide Within, Do, AllClean, StaysHalfOpen, Legal;
    var half := Do(s, c, Begin(id, now));
    var run :| Legal(half, c, run) && AllClean(half, c, run) && StaysHalfOpen(half, c, run) && Final(half, c, run) == t;
    EpochStaysWithin(half, c, s.breaker.probes, run);
  }

  /** With the counter below zero the very next call joins the first as a second probe. */
  lemma SecondProbeJoins(s: State, c: Settings, id: nat, other: nat, now: int) returns (t: State)
    requires Inv(s) && s.breaker.phase == Open && now - s.breaker.openedAt >= c.window && s.breaker.probes < 0
    requires id !in s.calls && other !in s.calls && id != other
    ensures InEpoch(s, c, id, now, t) && |Probes(t)| == 2
  {
    EpochOpens(s, c, id, now);
    var half := Do(s, c, Begin(id, now));
    var next := Begin(other, now);
    ProbesAfterBegin(half, c, other, now);
    t := Do(half, c, next);
    var run := [next];
    assert run[1..] == [];
    assert Legal(t, c, run[1..]) && AllClean(t, c, run[1..]) && StaysHalfOpen(t, c, run[1..]);
    assert Legal(half, c, run) && Final(half, c, run) == t;
    assert AllClean(half, c, run) && StaysHalfOpen(half, c, run);
  }

  /**
   It is not enough that no straggler is outstanding now: what one did to the counter in an earlier epoch
   stays. In every reachable open breaker whose window has elapsed, a half-open epoch free of stragglers
   can hold two probes if and only if the counter stood at minus one on entry.
   */
  lemma TwoProbesIffCounterBelowZero(c: Settings, s: State, now: int)
    requires Reached(c, s) && s.breaker.phase == Open && now - s.breaker.openedAt >= c.window
    ensures (exists id, t | id !in s.calls && InEpoch(s, c, id, now, t) :: |Probes(t)| >= 2) <==> s.breaker.probes == -1
  {
    ReachedKeepsInv(c, s);
    hide Reached, InEpoch;
    if s.breaker.probes == -1 {
      var id := FreeId(s.calls.Keys);
      var t := SecondProbeJoins(s, c, id, id + 1, now);
    } else {
      assert s.breaker.probes == 0;
      forall id, t | id !in s.calls && InEpoch(s, c, id, now, t) ensures |Probes(t)| < 2 {
        EpochBound(s, c, id, now, t);
      }
    }
  }

  // ---------------------------------------------------------------- a run with two probes

  ghost predicate Reached(c: Settings, s: State)
  {
    exists run :: Legal(START, c, run) && Final(START, c, run) == s
  }

  lemma ReachedKeepsInv(c: Settings, s: State)
    requires Reached(c, s)
    ensures Inv(s)
  {
    hide Legal, Final, Inv;
    var run :| Legal(START, c, run) && Final(START, c, run) == s;
    assert Inv(START) by { StartOk(); }
    RunKeepsInv(START, c, run);
  }

  lemma StartOk()
    ensures Inv(START)
  {
  }

  lemma {:induction false} OneMore(s: State, c: Settings, run: seq<Action>, a: Action)
    requires Legal(s, c, run) && Enabled(Final(s, c, run), a)
    ensures Legal(s, c, run + [a]) && Final(s, c, run + [a]) == Do(Final(s, c, run), c, a)
    decreases |run|
  {
    hide Enabled, Do;
    if run == [] {
      assert run + [a] == [a] && [a][1..] == [];
      assert Legal(Do(s, c, a), c, []);
    } else {
      OneMore(Do(s, c, run[0]), c, run[1..], a);
      assert (run + [a])[1..] == run[1..] + [a];
    }
  }

  lemma Then(c: Settings, s: State, a: Action)
    requires Reached(c, s) && Enabled(s, a)
    ensures Reached(c, Do(s, c, a))
  {
    hide Enabled, Do, Legal, Final;
    var run :| Legal(START, c, run) && Final(START, c, run) == s;
    OneMore(START, c, run, a);
  }

  lemma CounterBelowZero(c: Settings) returns (s: State)
    requires c == Settings(1, 10)
    ensures Reached(c, s) && s == State(Breaker(Closed, 0, 0, -1), 1, map[])
  {
    assert Legal(START, c, []) && Final(START, c, []) == START;
    hide Reached;
    s := START;
    Then(c, s, Begin(0, 0));
    s := Do(s, c, Begin(0, 0));
    Then(c, s, Begin(1, 0));
    s := Do(s, c, Begin(1, 0));
    Then(c, s, Finish(1, Faulted, 0));
    s := Do(s, c, Finish(1, Faulted, 0));
    assert s == State(Breaker(Open, 0, 0, 0), 0, map[0 := None]);
    Then(c, s, Begin(2, 10));
    s := Do(s, c, Begin(2, 10));
    Then(c, s, Finish(2, Abandoned, 10));
    s := Do(s, c, Finish(2, Abandoned, 10));
    assert s == State(Breaker(HalfOpen, 0, 0, 0), 1, map[0 := None]);
    Then(c, s, Finish(0, Answered, 10));
    s := Do(s, c, Finish(0, Answered, 10));
  }

  /**
   A straggler that answers into an epoch whose probe was abandoned leaves the counter at minus one. The
   next epoch then runs two probes at once although every call in flight belongs to it.
   */
  lemma TwoProbesAfterAStraggler() returns (c: Settings, s: State)
    ensures Reached(c, s) && s.breaker.phase == HalfOpen && |Probes(s)| == 2
    ensures forall id | id in s.calls :: s.calls[id] == Some(s.epoch)
  {
    hide Reached;
    c := Settings(1, 10);
    s := CounterBelowZero(c);
    Then(c, s, Begin(3, 10));
    s := Do(s, c, Begin(3, 10));
    Then(c, s, Finish(3, Faulted, 10));
    s := Do(s, c, Finish(3, Faulted, 10));
    assert s == State(Breaker(Open, 0, 10, -1), 1, map[]);
    Then(c, s, Begin(4, 20));
    s := Do(s, c, Begin(4, 20));
    Then(c, s, Begin(5, 20));
    s := Do(s, c, Begin(5, 20));
    assert Probes(s) == {4, 5};
  }
}
