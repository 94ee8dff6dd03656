/**
 The fill lock in time: it lapses one lifetime after it was taken or last renewed, and an invalidation
 deletes it. Any number of callers want to fill; each that wins reads the database until it is done. Reads
 without the lock (a waiter past its deadline, a caller whose cache is down) store nothing and are not fillers.
 */
module ProductFillLock {
  import opened Options

  type Token = nat

  /** The lock key: whose it is, and when it lapses. */
  datatype Lock = Lock(token: Token, until: int)

  /** A caller that won the lock and reads the database; `renewed` is when it last took or extended the lock. */
  datatype Filler = Filler(token: Token, renewed: int)

  datatype State = State(now: int, lock: Option<Lock>, nextToken: Token, fillers: map<nat, Filler>, struck: set<Token>)

  datatype Action =
    | Passes(time: nat)
    | Acquire(f: nat)
    | Renew(f: nat)
    | Finish(f: nat)      // the read is over: release if still the owner
    | Stop(f: nat)        // the caller dies; its lock stays until it lapses
    | Invalidate

  predicate Live(s: State)
  {
    s.lock.Some? && s.now < s.lock.value.until
  }

  predicate OwnedBy(s: State, token: Token)
  {
    Live(s) && s.lock.value.token == token
  }

  predicate Enabled(s: State, a: Action)
  {
    match a
    case Acquire(f) => f !in s.fillers
    case Renew(f) => f in s.fillers
    case Finish(f) => f in s.fillers
    case Stop(f) => f in s.fillers
    case _ => true
  }

  function Do(s: State, ttl: nat, a: Action): State
    requires Enabled(s, a)
  {
    match a
    case Passes(time) => s.(now := s.now + time)
    case Acquire(f) =>
      if Live(s) then s
      else
        s.(lock := Some(Lock(s.nextToken, s.now + ttl)), nextToken := s.nextToken + 1,
           fillers := s.fillers[f := Filler(s.nextToken, s.now)])
    case Renew(f) =>
      var token := s.fillers[f].token;
      if !OwnedBy(s, token) then s
      else s.(lock := Some(Lock(token, s.now + ttl)), fillers := s.fillers[f := Filler(token, s.now)])
    case Finish(f) =>
      s.(lock := if OwnedBy(s, s.fillers[f].token) then None else s.lock, fillers := s.fillers - {f})
    case Stop(f) => s.(fillers := s.fillers - {f})
    case Invalidate => s.(lock := None, struck := if s.lock.Some? then s.struck + {s.lock.value.token} else s.struck)
  }

  predicate Init(s: State)
  {
    s.lock.None? && s.fillers == map[] && s.struck == {}
  }

  predicate Legal(s: State, ttl: nat, run: seq<Action>)
    decreases |run|
  {
    run == [] || (Enabled(s, run[0]) && Legal(Do(s, ttl, run[0]), ttl, run[1..]))
  }

  function Final(s: State, ttl: nat, run: seq<Action>): State
    requires Legal(s, ttl, run)
    decreases |run|
  {
    if run == [] then s else Final(Do(s, ttl, run[0]), ttl, run[1..])
  }

  // ---------------------------------------------------------------- one filler

  /** A whole lifetime went by since the caller last renewed. */
  predicate Overdue(s: State, ttl: nat, f: Filler)
  {
    s.now >= f.renewed + ttl
  }

  /** A filler still has the lock, or was struck by an invalidation, or let the lock lapse. */
  predicate FillerOk(s: State, ttl: nat, f: Filler)
  {
    && f.token < s.nextToken
    && (s.lock.Some? && s.lock.value.token == f.token ==> s.lock.value.until == f.renewed + ttl)
    && (s.lock == Some(Lock(f.token, f.renewed + ttl)) || f.token in s.struck || Overdue(s, ttl, f))
  }

  predicate Inv(s: State, ttl: nat)
  {
    && (s.lock.Some? ==> s.lock.value.token < s.nextToken)
    && (forall t | t in s.struck :: t < s.nextToken)
    && (forall f | f in s.fillers :: FillerOk(s, ttl, s.fillers[f]))
    && (forall f, g | f in s.fillers && g in s.fillers && f != g :: s.fillers[f].token != s.fillers[g].token)
  }

  lemma DoKeepsInv(s: State, ttl: nat, a: Action)
    requires Inv(s, ttl) && Enabled(s, a)
    ensures Inv(Do(s, ttl, a), ttl)
  {
  }

  lemma {:induction false} RunKeepsInv(s: State, ttl: nat, run: seq<Action>)
    requires Inv(s, ttl) && Legal(s, ttl, run)
    ensures Inv(Final(s, ttl, run), ttl)
    decreases |run|
  {
    hide Inv, Enabled, Do;
    if run != [] {
      DoKeepsInv(s, ttl, run[0]);
      RunKeepsInv(Do(s, ttl, run[0]), ttl, run[1..]);
    }
  }

  /** The fillers that renewed in time and that no invalidation struck. */
  function Prompt(s: State, ttl: nat): set<nat>
  {
    set f | f in s.fillers && s.fillers[f].token !in s.struck && !Overdue(s, ttl, s.fillers[f])
  }

  /**
   No stampede: of all fillers at any moment of any run, at most one renewed in time and was not struck by
   an invalidation.
   */
  lemma OnePromptFiller(s: State, ttl: nat, run: seq<Action>)
    requires Init(s) && Legal(s, ttl, run)
    ensures |Prompt(Final(s, ttl, run), ttl)| <= 1
  {
    hide Legal, Final;
    RunKeepsInv(s, ttl, run);
    var t := Final(s, ttl, run);
    var prompt := Prompt(t, ttl);
    if prompt != {} {
      var f :| f in prompt;
      assert forall g | g in prompt :: g == f;
      assert prompt == {f};
    }
  }

  /** While the lock still carries a filler's token, a second filler is let in exactly when that one is overdue. */
  lemma SecondFillerIff(s: State, ttl: nat, run: seq<Action>, f: nat, g: nat)
    requires Init(s) && Legal(s, ttl, run)
    requires var t := Final(s, ttl, run);
             f in t.fillers && g !in t.fillers && t.lock.Some? && t.lock.value.token == t.fillers[f].token
    ensures var t := Final(s, ttl, run);
            g in Do(t, ttl, Acquire(g)).fillers <==> Overdue(t, ttl, t.fillers[f])
  {
    hide Legal, Final;
    RunKeepsInv(s, ttl, run);
    assert FillerOk(Final(s, ttl, run), ttl, Final(s, ttl, run).fillers[f]);
  }

  /** A live lock is somebody's who is still filling and whom no invalidation struck. */
  predicate HolderOk(s: State)
  {
    Live(s) ==>
      s.lock.value.token !in s.struck && exists f :: f in s.fillers && s.fillers[f].token == s.lock.value.token
  }

  predicate NobodyStops(run: seq<Action>)
  {
    forall i | 0 <= i < |run| :: !run[i].Stop?
  }

  lemma HolderKept(s: State, ttl: nat, a: Action)
    requires Inv(s, ttl) && HolderOk(s) && Enabled(s, a) && !a.Stop?
    ensures HolderOk(Do(s, ttl, a))
  {
    var t := Do(s, ttl, a);
    if Live(t) {
      if a.Acquire? && !Live(s) {
        assert t.fillers[a.f].token == t.lock.value.token;
      } else {
        var f :| f in s.fillers && s.fillers[f].token == s.lock.value.token;
        assert f in t.fillers && t.fillers[f].token == t.lock.value.token;
      }
    }
  }

  lemma {:induction false} HolderStaysOk(s: State, ttl: nat, run: seq<Action>)
    requires Inv(s, ttl) && HolderOk(s) && Legal(s, ttl, run) && NobodyStops(run)
    ensures HolderOk(Final(s, ttl, run))
    decreases |run|
  {
    hide Inv, HolderOk, Enabled, Do;
    if run != [] {
      DoKeepsInv(s, ttl, run[0]);
      HolderKept(s, ttl, run[0]);
      HolderStaysOk(Do(s, ttl, run[0]), ttl, run[1..]);
    }
  }

  /**
   Nobody is locked out for nothing: unless a caller died with the lock, an election is lost only to one that
   is filling at that moment, and never after it finished or an invalidation struck.
   */
  lemma LostOnlyToAFiller(s: State, ttl: nat, run: seq<Action>, g: nat)
    requires Init(s) && Legal(s, ttl, run) && NobodyStops(run) && g !in Final(s, ttl, run).fillers
    ensures var t := Final(s, ttl, run);
            g !in Do(t, ttl, Acquire(g)).fillers ==>
              exists f :: f in t.fillers && OwnedBy(t, t.fillers[f].token) && t.fillers[f].token !in t.struck
  {
    hide Legal, Final;
    HolderStaysOk(s, ttl, run);
  }

  // ---------------------------------------------------------------- renewing in time

  /** The service's cadence for a lifetime of whole seconds, in milliseconds: half of it, at least half a second. */
  function RenewEvery(seconds: nat): (every: nat)
    ensures every >= 500 && (seconds >= 1 ==> 2 * every == seconds * 1000)
  {
    if seconds * 500 < 500 then 500 else seconds * 500
  }

  /** Time never passes further than `every` from a caller's last renewal: each renews when its wait times out. */
  predicate Paced(s: State, every: nat, a: Action)
  {
    a.Passes? ==> forall f | f in s.fillers && s.fillers[f].token !in s.struck ::
        s.now + a.time <= s.fillers[f].renewed + every
  }

  predicate AllPaced(s: State, ttl: nat, every: nat, run: seq<Action>)
    requires Legal(s, ttl, run)
    decreases |run|
  {
    run == [] || (Paced(s, every, run[0]) && AllPaced(Do(s, ttl, run[0]), ttl, every, run[1..]))
  }

  predicate InTime(s: State, every: nat)
  {
    forall f | f in s.fillers && s.fillers[f].token !in s.struck :: s.now <= s.fillers[f].renewed + every
  }

  lemma PacedStaysInTime(s: State, ttl: nat, every: nat, a: Action)
    requires Inv(s, ttl) && InTime(s, every) && Enabled(s, a) && Paced(s, every, a)
    ensures InTime(Do(s, ttl, a), every)
  {
  }

  lemma {:induction false} PacedRunInTime(s: State, ttl: nat, every: nat, run: seq<Action>)
    requires Inv(s, ttl) && InTime(s, every) && Legal(s, ttl, run) && AllPaced(s, ttl, every, run)
    ensures InTime(Final(s, ttl, run), every) && Inv(Final(s, ttl, run), ttl)
    decreases |run|
  {
    hide Inv, InTime, Enabled, Do, Paced;
    if run != [] {
      DoKeepsInv(s, ttl, run[0]);
      PacedStaysInTime(s, ttl, every, run[0]);
      PacedRunInTime(Do(s, ttl, run[0]), ttl, every, run[1..]);
    }
  }

  /**
   With the service's own cadence the lock never lapses under an active filler: however long the loads
   take, at most one filler was not struck by an invalidation, for every lifetime of a second or more.
   */
  lemma OneFillerAtTheServicePace(s: State, seconds: nat, run: seq<Action>)
    requires Init(s) && seconds >= 1 && Legal(s, seconds * 1000, run)
    requires AllPaced(s, seconds * 1000, RenewEvery(seconds), run)
    ensures var t := Final(s, seconds * 1000, run); |set f | f in t.fillers && t.fillers[f].token !in t.struck| <= 1
  {
    hide Legal, Final, AllPaced;
    var ttl := seconds * 1000;
    PacedRunInTime(s, ttl, RenewEvery(seconds), run);
    OnePromptFiller(s, ttl, run);
    var t := Final(s, ttl, run);
    assert (set f | f in t.fillers && t.fillers[f].token !in t.struck) == Prompt(t, ttl);
  }

  /** The pace is what does it: a caller that waits out the lifetime lets a second filler in. */
  lemma LateRenewalLetsASecondIn(ttl: nat)
    ensures var s := State(0, None, 0, map[], {});
            var run := [Acquire(0), Passes(ttl), Acquire(1)];
            && Init(s) && Legal(s, ttl, run) && Final(s, ttl, run).struck == {}
            && Final(s, ttl, run).fillers == map[0 := Filler(0, 0), 1 := Filler(1, ttl)]
  {
    var s := State(0, None, 0, map[], {});
    var run := [Acquire(0), Passes(ttl), Acquire(1)];
    var a, b, c := run[0], run[1], run[2];
    var s1 := Do(s, ttl, a);
    var s2 := Do(s1, ttl, b);
    var s3 := Do(s2, ttl, c);
    assert run[1..] == [b, c] && run[1..][1..] == [c] && run[1..][1..][1..] == [];
    assert Legal(s3, ttl, []) && Final(s3, ttl, []) == s3;
    assert Legal(s2, ttl, [c]) && Final(s2, ttl, [c]) == s3;
    assert Legal(s1, ttl, [b, c]) && Final(s1, ttl, [b, c]) == s3;
  }
}
