/**
 Callers that lose the election for the fill lock, in time. Each entry into the wait sets a fresh deadline;
 a caller that sees the lock gone stands for election again, and may lose again. Calls take no time;
 sleeps do, and no sleep outlasts the poll interval. A caller served from the cache may leave at any poll.
 */
module ProductFillWait {
  import opened Options

  datatype Settings = Settings(ttl: nat, pollEvery: nat, maxWait: nat)

  /** `since` is when the caller first stood for election, `lost` how often it lost. */
  datatype Caller =
    | Electing(since: int, lost: nat)                                // about to try the lock
    | Waiting(since: int, lost: nat, deadline: int, polled: int)     // lost: asleep between polls

  /** The lock key's lapse, and the callers that neither filled nor were served yet. */
  datatype State = State(now: int, until: Option<int>, callers: map<nat, Caller>)

  datatype Action =
    | Passes(time: nat)
    | Arrive(c: nat)
    | Elect(c: nat)      // set the lock if absent: the winner fills, the loser waits
    | Poll(c: nat)       // lock gone: stand again; past the deadline: read the row oneself; else sleep on
    | Serve(c: nat)      // the poll finds a usable value
    | Evict(c: nat)      // the poll finds one that does not decode: evict it and stand again, lock or no lock
    | Renew              // the holder extends the lock
    | Free               // the holder releases, or an invalidation deletes the lock

  predicate Held(s: State)
  {
    s.until.Some? && s.now < s.until.value
  }

  /** Nobody sleeps past a poll, and nobody dawdles between a poll and the election. */
  predicate Punctual(s: State, c: Settings, time: nat)
  {
    forall i | i in s.callers ::
      match s.callers[i]
      case Electing(_, _) => time == 0
      case Waiting(_, _, _, polled) => s.now + time <= polled + c.pollEvery
  }

  predicate Enabled(s: State, c: Settings, a: Action)
  {
    match a
    case Passes(time) => Punctual(s, c, time)
    case Arrive(i) => i !in s.callers
    case Elect(i) => i in s.callers && s.callers[i].Electing?
    case Poll(i) => i in s.callers && s.callers[i].Waiting?
    case Serve(i) => i in s.callers
    case Evict(i) => i in s.callers && s.callers[i].Waiting?
    case _ => true
  }

  function Elected(s: State, c: Settings, i: nat): State
    requires i in s.callers
  {
    var x := s.callers[i];
    if Held(s) then s.(callers := s.callers[i := Waiting(x.since, x.lost + 1, s.now + c.maxWait, s.now)])
    else s.(until := Some(s.now + c.ttl), callers := s.callers - {i})
  }

  function Polled(s: State, i: nat): State
    requires i in s.callers && s.callers[i].Waiting?
  {
    var x := s.callers[i];
    if !Held(s) then s.(callers := s.callers[i := Electing(x.since, x.lost)])
    else if s.now >= x.deadline then s.(callers := s.callers - {i})
    else s.(callers := s.callers[i := x.(polled := s.now)])
  }

  function Do(s: State, c: Settings, a: Action): State
    requires Enabled(s, c, a)
  {
    match a
    case Passes(time) => s.(now := s.now + time)
    case Arrive(i) => s.(callers := s.callers[i := Electing(s.now, 0)])
    case Elect(i) => Elected(s, c, i)
    case Poll(i) => Polled(s, i)
    case Serve(i) => s.(callers := s.callers - {i})
    case Evict(i) => s.(callers := s.callers[i := Electing(s.callers[i].since, s.callers[i].lost)])
    case Renew => if Held(s) then s.(until := Some(s.now + c.ttl)) else s
    case Free => s.(until := None)
  }

  predicate Legal(s: State, c: Settings, run: seq<Action>)
    decreases |run|
  {
    run == [] || (Enabled(s, c, run[0]) && Legal(Do(s, c, run[0]), c, run[1..]))
  }

  function Final(s: State, c: Settings, run: seq<Action>): State
    requires Legal(s, c, run)
    decreases |run|
  {
    if run == [] then s else Final(Do(s, c, run[0]), c, run[1..])
  }

  // ---------------------------------------------------------------- one wait for every lost election

  /** The longest one entry into the wait can take. */
  function OneWait(c: Settings): nat
  {
    c.maxWait + c.pollEvery
  }

  predicate CallerOk(s: State, c: Settings, x: Caller)
  {
    match x
    case Electing(since, lost) => s.now <= since + lost * OneWait(c)
    case Waiting(since, lost, deadline, polled) =>
      && lost >= 1 && deadline - c.maxWait <= since + (lost - 1) * OneWait(c)
      && polled <= deadline && polled <= s.now <= polled + c.pollEvery
  }

  predicate Inv(s: State, c: Settings)
  {
    forall i | i in s.callers :: CallerOk(s, c, s.callers[i])
  }

  lemma OneMoreWait(c: Settings, lost: nat)
    ensures (lost + 1) * OneWait(c) == lost * OneWait(c) + OneWait(c)
  {
  }

  /** A waiting caller is within the waits it has begun. */
  lemma WaitingIsBounded(s: State, c: Settings, x: Caller)
    requires CallerOk(s, c, x)
    ensures s.now - x.since <= x.lost * OneWait(c)
  {
    if x.Waiting? {
      OneMoreWait(c, x.lost - 1);
    }
  }

  lemma DoKeepsInv(s: State, c: Settings, a: Action)
    requires Inv(s, c) && Enabled(s, c, a)
    ensures Inv(Do(s, c, a), c)
  {
    hide OneWait;
    match a
    case Poll(i) => WaitingIsBounded(s, c, s.callers[i]);
    case Evict(i) => WaitingIsBounded(s, c, s.callers[i]);
    case _ =>
  }

  lemma {:induction false} RunKeepsInv(s: State, c: Settings, run: seq<Action>)
    requires Inv(s, c) && Legal(s, c, run)
    ensures Inv(Final(s, c, run), c)
    decreases |run|
  {
    hide Inv, Enabled, Do;
    if run != [] {
      DoKeepsInv(s, c, run[0]);
      RunKeepsInv(Do(s, c, run[0]), c, run[1..]);
    }
  }

  /** In every run, a caller has waited at most one deadline and one poll for every election it lost. */
  lemma WaitBoundedByLostElections(s: State, c: Settings, run: seq<Action>, i: nat)
    requires s.callers == map[] && Legal(s, c, run) && i in Final(s, c, run).callers
    ensures var t := Final(s, c, run); t.now - t.callers[i].since <= t.callers[i].lost * OneWait(c)
  {
    hide Legal, Final;
    RunKeepsInv(s, c, run);
    var t := Final(s, c, run);
    assert CallerOk(t, c, t.callers[i]);
    WaitingIsBounded(t, c, t.callers[i]);
  }

  // ---------------------------------------------------------------- who loses again

  predicate NobodyElects(run: seq<Action>)
  {
    forall j | 0 <= j < |run| :: !run[j].Elect?
  }

  /** A lock that is gone stays gone until somebody wins an election. */
  lemma {:induction false} FreeUntilElected(s: State, c: Settings, run: seq<Action>)
    requires Legal(s, c, run) && !Held(s) && NobodyElects(run)
    ensures !Held(Final(s, c, run))
    decreases |run|
  {
    if run != [] {
      assert !run[0].Elect?;
      assert !Held(Do(s, c, run[0]));
      FreeUntilElected(Do(s, c, run[0]), c, run[1..]);
    }
  }

  /** The caller that saw the lock gone wins its next election unless a rival stood before it. */
  lemma NoRivalNoLoss(s: State, c: Settings, run: seq<Action>, i: nat)
    requires Legal(s, c, run) && !Held(s) && NobodyElects(run)
    requires var t := Final(s, c, run); i in t.callers && t.callers[i].Electing?
    ensures i !in Elected(Final(s, c, run), c, i).callers
  {
    FreeUntilElected(s, c, run);
  }

  // ---------------------------------------------------------------- as long as that

  ghost predicate Reaches(c: Settings, s: State, t: State)
  {
    exists run :: Legal(s, c, run) && Final(s, c, run) == t
  }

  lemma {:induction false} OneMore(s: State, c: Settings, run: seq<Action>, a: Action)
    requires Legal(s, c, run) && Enabled(Final(s, c, run), c, a)
    ensures Legal(s, c, run + [a]) && Final(s, c, run + [a]) == Do(Final(s, c, run), c, a)
    decreases |run|
  {
    hide Enabled, Do;
    if run == [] {
      assert run + [a] == [a] && [a][1..] == [];
      assert Legal(Do(s, c, a), c, []);
    } else {
      OneMore(Do(s, c, run[0]), c, run[1..], a);
      assert (run + [a])[1..] == run[1..] + [a];
    }
  }

  lemma Then(c: Settings, s: State, t: State, a: Action)
    requires Reaches(c, s, t) && Enabled(t, c, a)
    ensures Reaches(c, s, Do(t, c, a))
  {
    hide Enabled, Do, Legal, Final;
    var run :| Legal(s, c, run) && Final(s, c, run) == t;
    OneMore(s, c, run, a);
  }

  lemma Here(c: Settings, s: State)
    ensures Reaches(c, s, s)
  {
    assert Legal(s, c, []) && Final(s, c, []) == s;
  }

  /** Caller 0 alone, asleep for `n` polls since it last lost, the lock kept alive by its holder. */
  function Asleep(c: Settings, start: int, since: int, lost: nat, n: nat): State
  {
    var now := start + n * c.pollEvery;
    State(now, Some(now + c.ttl), map[0 := Waiting(since, lost, start + c.maxWait, now)])
  }

  lemma SleepsOn(c: Settings, s: State, start: int, since: int, lost: nat, n: nat)
    requires c.pollEvery < c.ttl && (n + 1) * c.pollEvery < c.maxWait && Reaches(c, s, Asleep(c, start, since, lost, n))
    ensures Reaches(c, s, Asleep(c, start, since, lost, n + 1))
  {
    hide Reaches;
    var t := Asleep(c, start, since, lost, n);
    assert (n + 1) * c.pollEvery == n * c.pollEvery + c.pollEvery;
    Then(c, s, t, Passes(c.pollEvery));
    t := Do(t, c, Passes(c.pollEvery));
    Then(c, s, t, Renew);
    t := Do(t, c, Renew);
    Then(c, s, t, Poll(0));
    t := Do(t, c, Poll(0));
    assert t == Asleep(c, start, since, lost, n + 1);
  }

  lemma {:induction false} SleepsFor(c: Settings, s: State, start: int, since: int, lost: nat, n: nat)
    requires c.pollEvery < c.ttl && (n == 0 || n * c.pollEvery < c.maxWait)
    requires Reaches(c, s, Asleep(c, start, since, lost, 0))
    ensures Reaches(c, s, Asleep(c, start, since, lost, n))
  {
    hide Reaches;
    if n > 0 {
      assert n * c.pollEvery == (n - 1) * c.pollEvery + c.pollEvery;
      SleepsFor(c, s, start, since, lost, n - 1);
      SleepsOn(c, s, start, since, lost, n - 1);
    }
  }

  /** Caller 0 about to stand, nobody else there, the lock free. */
  function Standing(now: int, since: int, lost: nat): State
  {
    State(now, None, map[0 := Electing(since, lost)])
  }

  /** The poll at which a caller finds its deadline past. */
  predicate LastOf(c: Settings, m: nat)
  {
    m > 0 && (m - 1) * c.pollEvery < c.maxWait <= (m - 1) * c.pollEvery + c.pollEvery
  }

  /** A rival stands first and wins; caller 0 waits out its whole deadline, and then the lock goes. */
  lemma LosesARound(c: Settings, s: State, start: int, since: int, lost: nat, m: nat)
    requires 0 < c.pollEvery < c.ttl && LastOf(c, m) && Reaches(c, s, Standing(start, since, lost))
    ensures Reaches(c, s, Standing(start + m * c.pollEvery, since, lost + 1))
  {
    hide Reaches;
    var t := Standing(start, since, lost);
    Then(c, s, t, Arrive(1));
    t := Do(t, c, Arrive(1));
    Then(c, s, t, Elect(1));
    t := Do(t, c, Elect(1));
    assert t.callers == map[0 := Electing(since, lost)];
    Then(c, s, t, Elect(0));
    t := Do(t, c, Elect(0));
    assert t == Asleep(c, start, since, lost + 1, 0);
    SleepsFor(c, s, start, since, lost + 1, m - 1);
    LastPoll(c, s, start, since, lost + 1, m);
  }

  lemma LastPoll(c: Settings, s: State, start: int, since: int, lost: nat, m: nat)
    requires m > 0 && Reaches(c, s, Asleep(c, start, since, lost, m - 1))
    ensures Reaches(c, s, Standing(start + m * c.pollEvery, since, lost))
  {
    hide Reaches;
    assert m * c.pollEvery == (m - 1) * c.pollEvery + c.pollEvery;
    var t := Asleep(c, start, since, lost, m - 1);
    Then(c, s, t, Passes(c.pollEvery));
    t := Do(t, c, Passes(c.pollEvery));
    Then(c, s, t, Free);
    t := Do(t, c, Free);
    Then(c, s, t, Poll(0));
    t := Do(t, c, Poll(0));
    assert t == Standing(start + m * c.pollEvery, since, lost);
  }

  const EMPTY := State(0, None, map[])

  /**
   The cap on one wait is no cap on the total: for every number of elections there is a run in which a
   caller loses that many, each time to a rival that took the freed lock first, and waits out every
   deadline in full.
   */
  lemma {:induction false} EveryLossCanCostADeadline(c: Settings, m: nat, lost: nat)
    requires 0 < c.pollEvery < c.ttl && LastOf(c, m)
    ensures Reaches(c, EMPTY, Standing(lost * (m * c.pollEvery), 0, lost)) && m * c.pollEvery >= c.maxWait
  {
    hide Reaches;
    assert m * c.pollEvery == (m - 1) * c.pollEvery + c.pollEvery;
    if lost == 0 {
      Here(c, EMPTY);
      Then(c, EMPTY, EMPTY, Arrive(0));
      assert Do(EMPTY, c, Arrive(0)) == Standing(0, 0, 0);
    } else {
      EveryLossCanCostADeadline(c, m, lost - 1);
      LosesARound(c, EMPTY, (lost - 1) * (m * c.pollEvery), 0, lost - 1, m);
      assert (lost - 1) * (m * c.pollEvery) + m * c.pollEvery == lost * (m * c.pollEvery);
    }
  }

  lemma {:induction false} LastExists(c: Settings, n: nat) returns (m: nat)
    requires 0 < c.pollEvery && 0 < c.maxWait <= n * c.pollEvery
    ensures LastOf(c, m)
  {
    assert n > 0 && n * c.pollEvery == (n - 1) * c.pollEvery + c.pollEvery;
    if (n - 1) * c.pollEvery < c.maxWait {
      m := n;
    } else {
      m := LastExists(c, n - 1);
    }
  }

  /** No caller that has lost at most `k` elections ever waits longer than one deadline and one poll. */
  ghost predicate Capped(c: Settings, k: nat)
  {
    forall t, i | Reaches(c, EMPTY, t) && i in t.callers && t.callers[i].lost <= k ::
      t.now - t.callers[i].since <= OneWait(c)
  }

  /**
   When one wait caps the total: for callers that lose at most one election, and for no others. A caller
   that saw the lock gone loses again only to a rival that stood first (`NoRivalNoLoss`).
   */
  lemma TotalWaitCappedIff(c: Settings, k: nat)
    requires 0 < c.pollEvery < c.maxWait && c.pollEvery < c.ttl
    ensures Capped(c, k) <==> k <= 1
  {
    if k <= 1 {
      forall t, i | Reaches(c, EMPTY, t) && i in t.callers && t.callers[i].lost <= k
        ensures t.now - t.callers[i].since <= OneWait(c)
      {
        var run :| Legal(EMPTY, c, run) && Final(EMPTY, c, run) == t;
        WaitBoundedByLostElections(EMPTY, c, run, i);
      }
    } else {
      assert c.maxWait <= c.maxWait * c.pollEvery;
      var m := LastExists(c, c.maxWait);
      EveryLossCanCostADeadline(c, m, 2);
      TwoDeadlines(c, m);
      var t := Standing(2 * (m * c.pollEvery), 0, 2);
      hide Reaches;
      assert 0 in t.callers && t.callers[0].lost <= k;
    }
  }

  lemma TwoDeadlines(c: Settings, m: nat)
    requires 0 < c.pollEvery < c.maxWait && LastOf(c, m)
    ensures 2 * (m * c.pollEvery) > OneWait(c)
  {
    assert m * c.pollEvery == (m - 1) * c.pollEvery + c.pollEvery;
  }
}
