/**
 The fleet-wide concurrency budget: permits with an expiry stamped by the caller's clock, reaped by
 whoever acquires next, in a key that itself expires one lifetime after the last acquire.

 Caller clocks read true time plus an offset anywhere in an interval of width `d`.
 */
module ConcurrencyBudget {

  type Permit = nat

  datatype Settings = Settings(limit: nat, ttl: int, low: int, d: int)

  /** The sorted set, and the moment the key would expire. */
  datatype Store = Store(permits: map<Permit, int>, keyDies: int)

  /** `granted` remembers when each call still in flight got its permit. */
  datatype State = State(now: int, store: Store, granted: map<Permit, int>, nextPermit: Permit)

  /** Drop every permit whose stamp is not later than the caller's clock. */
  function Reaped(permits: map<Permit, int>, clock: int): map<Permit, int>
  {
    map p | p in permits && permits[p] > clock :: permits[p]
  }

  datatype Answer = Answer(granted: bool, store: Store)

  /** The acquire script; `at` is the server's own time, which dates the key. */
  function Acquire(s: Store, c: Settings, p: Permit, clock: int, at: int): Answer
  {
    var live := Reaped(s.permits, clock);
    if |live| >= c.limit then Answer(false, Store(live, s.keyDies))
    else Answer(true, Store(live[p := clock + c.ttl], at + c.ttl))
  }

  datatype Action =
    | Passes(time: nat)       // time goes by
    | Asks(offset: int)       // a caller whose clock is off by `offset` asks for a permit
    | Returns(p: Permit)      // a call ends and its permit is released
    | Loses(p: Permit)        // a call ends and its release is lost
    | KeyExpires

  predicate Enabled(s: State, c: Settings, a: Action)
  {
    match a
    case Passes(_) => true
    case Asks(offset) => c.low <= offset <= c.low + c.d
    case Returns(p) => p in s.granted
    case Loses(p) => p in s.granted
    case KeyExpires => s.now >= s.store.keyDies
  }

  function Do(s: State, c: Settings, a: Action): State
    requires Enabled(s, c, a)
  {
    match a
    case Passes(time) => s.(now := s.now + time)
    case Asks(offset) =>
      var answer := Acquire(s.store, c, s.nextPermit, s.now + offset, s.now);
      s.(store := answer.store, nextPermit := s.nextPermit + 1,
         granted := if answer.granted then s.granted[s.nextPermit := s.now] else s.granted)
    case Returns(p) => s.(store := s.store.(permits := s.store.permits - {p}), granted := s.granted - {p})
    case Loses(p) => s.(granted := s.granted - {p})
    case KeyExpires => s.(store := s.store.(permits := map[]))
  }

  predicate Legal(s: State, c: Settings, run: seq<Action>)
    decreases |run|
  {
    run == [] || (Enabled(s, c, run[0]) && Legal(Do(s, c, run[0]), c, run[1..]))
  }

  function Final(s: State, c: Settings, run: seq<Action>): State
    requires Legal(s, c, run)
    decreases |run|
  {
    if run == [] then s else Final(Do(s, c, run[0]), c, run[1..])
  }

  predicate Init(s: State)
  {
    s.store.permits == map[] && s.granted == map[]
  }

  /** The calls in flight that have run for less than a permit's lifetime less the clock spread. */
  function Young(s: State, c: Settings): set<Permit>
  {
    set p | p in s.granted && s.now - s.granted[p] < c.ttl - c.d
  }

  // ---------------------------------------------------------------- the bound

  /** A call's permit, while the call is young. */
  predicate CallOk(s: State, c: Settings, p: Permit)
    requires p in s.granted
  {
    && p < s.nextPermit && s.granted[p] <= s.now && s.granted[p] + c.ttl <= s.store.keyDies
    && (s.now - s.granted[p] < c.ttl - c.d ==>
        p in s.store.permits
        && s.store.permits[p] >= s.granted[p] + c.low + c.ttl)
  }

  predicate Inv(s: State, c: Settings)
  {
    && c.d >= 0 && |s.store.permits| <= c.limit
    && (forall p | p in s.store.permits :: p < s.nextPermit)
    && forall p | p in s.granted :: CallOk(s, c, p)
  }

  lemma {:induction false} FewerPermits(a: map<Permit, int>, b: map<Permit, int>)
    requires a.Keys <= b.Keys
    ensures |a| <= |b|
  {
    assert b.Keys == a.Keys + (b.Keys - a.Keys);
    assert |a.Keys| + |b.Keys - a.Keys| == |b.Keys|;
  }

  lemma AcquireBounded(s: State, c: Settings, p: Permit, clock: int)
    requires |s.store.permits| <= c.limit && p !in s.store.permits
    ensures |Acquire(s.store, c, p, clock, s.now).store.permits| <= c.limit
  {
    var live := Reaped(s.store.permits, clock);
    FewerPermits(live, s.store.permits);
    assert p !in live;
    if |live| < c.limit {
      assert live[p := clock + c.ttl].Keys == live.Keys + {p};
      assert |live[p := clock + c.ttl].Keys| == |live.Keys| + 1;
    }
  }

  /** Neither the reaping nor the overwriting of the key's deadline costs a young call its permit. */
  lemma AskKeepsCalls(s: State, c: Settings, offset: int)
    requires Inv(s, c) && Enabled(s, c, Asks(offset))
    ensures var t := Do(s, c, Asks(offset)); forall p | p in t.granted :: CallOk(t, c, p)
  {
  }

  lemma DoKeepsInv(s: State, c: Settings, a: Action)
    requires Inv(s, c) && Enabled(s, c, a)
    ensures Inv(Do(s, c, a), c)
  {
    match a
    case Asks(offset) =>
      AskKeepsCalls(s, c, offset);
      AcquireBounded(s, c, s.nextPermit, s.now + offset);
    case Returns(p) => FewerPermits(s.store.permits - {p}, s.store.permits);
    case _ =>
  }

  lemma {:induction false} RunKeepsInv(s: State, c: Settings, run: seq<Action>)
    requires Inv(s, c) && Legal(s, c, run)
    ensures Inv(Final(s, c, run), c)
    decreases |run|
  {
    hide Inv, Enabled, Do;
    if run != [] {
      DoKeepsInv(s, c, run[0]);
      RunKeepsInv(Do(s, c, run[0]), c, run[1..]);
    }
  }

  /**
   The fleet-wide bound: at every moment of every run each young call still holds its permit, and there
   are at most `limit` of them.
   */
  lemma AtMostLimitInFlight(s: State, c: Settings, run: seq<Action>)
    requires Init(s) && c.d >= 0 && Legal(s, c, run)
    ensures var t := Final(s, c, run); Young(t, c) <= t.store.permits.Keys && |Young(t, c)| <= c.limit
  {
    hide Legal, Final;
    RunKeepsInv(s, c, run);
    var t := Final(s, c, run);
    var young := Young(t, c);
    assert forall p | p in young :: CallOk(t, c, p);
    assert t.store.permits.Keys == young + (t.store.permits.Keys - young);
  }

  /** No step takes a young call's permit away, except its own return. */
  lemma YoungKeepsPermit(s: State, c: Settings, a: Action, p: Permit)
    requires Inv(s, c) && Enabled(s, c, a) && p in s.granted && a != Returns(p) && a != Loses(p)
    requires var t := Do(s, c, a); p in t.granted && p in Young(t, c)
    ensures p in Do(s, c, a).store.permits
  {
    DoKeepsInv(s, c, a);
    assert CallOk(Do(s, c, a), c, p);
  }

  // ---------------------------------------------------------------- no call is refused for nothing

  predicate NothingLost(run: seq<Action>)
  {
    forall i | 0 <= i < |run| :: !run[i].Loses?
  }

  lemma {:induction false} PermitsAreCalls(s: State, c: Settings, run: seq<Action>)
    requires Legal(s, c, run) && NothingLost(run) && s.store.permits.Keys <= s.granted.Keys
    ensures Final(s, c, run).store.permits.Keys <= Final(s, c, run).granted.Keys
    decreases |run|
  {
    if run != [] {
      PermitsAreCalls(Do(s, c, run[0]), c, run[1..]);
    }
  }

  /** If no release is ever lost, a caller is refused only while `limit` calls or more are in flight. */
  lemma RefusedOnlyWhenFull(s: State, c: Settings, run: seq<Action>, offset: int)
    requires Init(s) && Legal(s, c, run) && NothingLost(run)
    ensures var t := Final(s, c, run);
            !Acquire(t.store, c, t.nextPermit, t.now + offset, t.now).granted ==> |t.granted| >= c.limit
  {
    PermitsAreCalls(s, c, run);
    var t := Final(s, c, run);
    FewerPermits(Reaped(t.store.permits, t.now + offset), t.granted);
  }

  /** No permit is stamped later than the fastest clock would stamp it now. */
  predicate StampsOk(s: State, c: Settings)
  {
    forall p | p in s.store.permits :: s.store.permits[p] <= s.now + c.low + c.d + c.ttl
  }

  lemma {:induction false} StampsStayOk(s: State, c: Settings, run: seq<Action>)
    requires Legal(s, c, run) && StampsOk(s, c)
    ensures StampsOk(Final(s, c, run), c)
    decreases |run|
  {
    if run != [] {
      StampsStayOk(Do(s, c, run[0]), c, run[1..]);
    }
  }

  /**
   The budget heals itself: whatever releases were lost, once a lifetime and the clock spread have gone by
   with nobody asking, the next caller is admitted.
   */
  lemma HealsItself(s: State, c: Settings, run: seq<Action>, wait: nat, offset: int)
    requires Init(s) && Legal(s, c, run) && c.limit >= 1 && wait >= c.ttl + c.d && c.low <= offset <= c.low + c.d
    ensures var t := Do(Final(s, c, run), c, Passes(wait));
            Acquire(t.store, c, t.nextPermit, t.now + offset, t.now).granted
  {
    StampsStayOk(s, c, run);
    var t := Do(Final(s, c, run), c, Passes(wait));
    assert Reaped(t.store.permits, t.now + offset) == map[];
  }

  // ---------------------------------------------------------------- past that age

  const EMPTY := State(0, Store(map[], 0), map[], 0)

  /** `n` callers with the slowest clock ask at the same moment. */
  function Asking(c: Settings, n: nat): seq<Action>
  {
    seq(n, _ => Asks(c.low))
  }

  /** The first `n` permits, all with the same entry. */
  function First(n: nat, entry: int): map<Permit, int>
  {
    if n == 0 then map[] else First(n - 1, entry)[n - 1 := entry]
  }

  lemma {:induction false} FirstIs(n: nat, entry: int)
    ensures |First(n, entry)| == n
    ensures forall p: Permit :: p in First(n, entry) <==> p < n
    ensures forall p | p in First(n, entry) :: First(n, entry)[p] == entry
  {
    if n > 0 {
      FirstIs(n - 1, entry);
      var before := First(n - 1, entry);
      assert First(n, entry).Keys == before.Keys + {n - 1};
      assert |First(n, entry).Keys| == |before.Keys| + 1;
    }
  }

  /** The budget after they did: every one of them was granted. */
  function Spent(c: Settings, n: nat): State
  {
    State(0, Store(First(n, c.low + c.ttl), if n == 0 then 0 else c.ttl), First(n, 0), n)
  }

  lemma SpentOneMore(c: Settings, n: nat)
    requires n < c.limit && 0 <= c.d && 0 < c.ttl
    ensures Do(Spent(c, n), c, Asks(c.low)) == Spent(c, n + 1)
  {
    var s := Spent(c, n);
    FirstIs(n, c.low + c.ttl);
    hide First;
    assert Reaped(s.store.permits, c.low) == s.store.permits;
    assert First(n + 1, c.low + c.ttl) == s.store.permits[n := c.low + c.ttl] by { FirstStep(n, c.low + c.ttl); }
    assert First(n + 1, 0) == s.granted[n := 0] by { FirstStep(n, 0); }
  }

  lemma FirstStep(n: nat, entry: int)
    ensures First(n + 1, entry) == First(n, entry)[n := entry]
  {
  }

  lemma {:induction false} SpendAll(c: Settings, n: nat, k: nat, rest: seq<Action>)
    requires k <= n <= c.limit && 0 <= c.d && 0 < c.ttl && Legal(Spent(c, n), c, rest)
    ensures var run := Asking(c, n - k) + rest;
            Legal(Spent(c, k), c, run) && Final(Spent(c, k), c, run) == Final(Spent(c, n), c, rest)
    decreases n - k
  {
    hide Do, Spent;
    var run := Asking(c, n - k) + rest;
    if k == n {
      assert run == rest;
    } else {
      SpentOneMore(c, k);
      SpendAll(c, n, k + 1, rest);
      assert run[0] == Asks(c.low) && run[1..] == Asking(c, n - k - 1) + rest;
    }
  }

  /**
   The spread has to be paid for, whatever the limit: when every permit is out, a caller with the fastest
   clock reaps them all at age `ttl - d` and is admitted beside the calls still running.
   */
  lemma OldCallsCanLoseTheirPermits(c: Settings)
    requires c.limit >= 1 && 0 <= c.d <= c.ttl && 0 < c.ttl
    ensures var run := Asking(c, c.limit) + [Passes(c.ttl - c.d), Asks(c.low + c.d)];
            Init(EMPTY) && Legal(EMPTY, c, run) && |Final(EMPTY, c, run).granted| == c.limit + 1
  {
    var full := Spent(c, c.limit);
    var wait, ask := Passes(c.ttl - c.d), Asks(c.low + c.d);
    var later := Do(full, c, wait);
    FirstIs(c.limit, c.low + c.ttl);
    FirstIs(c.limit, 0);
    assert Spent(c, 0) == EMPTY;
    hide First;
    assert Reaped(later.store.permits, later.now + c.low + c.d) == map[];
    var last := Do(later, c, ask);
    assert last.granted == full.granted[c.limit := c.ttl - c.d];
    assert last.granted.Keys == full.granted.Keys + {c.limit};
    assert |last.granted.Keys| == |full.granted.Keys| + 1;
    assert [wait, ask][1..] == [ask] && [ask][1..] == [];
    assert Legal(last, c, []) && Final(last, c, []) == last;
    assert Legal(later, c, [ask]) && Final(later, c, [ask]) == last;
    assert Legal(full, c, [wait, ask]) && Final(full, c, [wait, ask]) == last;
    SpendAll(c, c.limit, 0, [wait, ask]);
  }
}
