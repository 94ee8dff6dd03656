/**
 One product's read cache beside its database row. Writes commit with their invalidation in flight;
 invalidations arrive in any order, any number of times and arbitrarily late; fillers take the lock,
 read the row, and store only while they still own the lock; lock and value may expire at any time.
 */
module ProductCache {
  import opened Options

  type Token = nat

  /** Index into the row's history. */
  type Version = nat

  /** Updates and deletes are announced to the cache; a creation is not. */
  datatype Kind = Created | Updated | Deleted

  /** What the row says, and how it came to say it. */
  datatype Row = Row(kind: Kind, product: Option<nat>)

  /** A cached entry: the row as some filler read it, or a payload that no longer decodes. */
  datatype Entry = Fill(version: Version) | Junk

  /** A filler between two calls. */
  datatype Filler =
    | Locked(token: Token)                      // won the lock, about to read the row
    | Loaded(token: Token, version: Version)    // read it, about to store
    | Stored(token: Token)                      // about to release

  datatype State = State(
    history: seq<Row>, delivered: set<Version>,
    value: Option<Entry>, lock: Option<Token>,
    nextToken: Token, fillers: map<nat, Filler>)

  function Current(s: State): int
  {
    |s.history| - 1
  }

  predicate Invalidates(s: State, j: Version)
  {
    j < |s.history| && s.history[j].kind != Created
  }

  datatype Action =
    | Write(row: Row)              // a merchant's commit, its event in flight from here on
    | Deliver(version: Version)    // the invalidation of one write arrives (again)
    | Acquire(f: nat)
    | Load(f: nat)
    | Store(f: nat)
    | Release(f: nat)
    | Stop(f: nat)                 // a filler dies or gives up
    | LockExpires
    | ValueExpires
    | Rot                          // the cached payload stops decoding
    | Evict(expected: Entry)       // compare-and-delete of exactly what a reader saw

  /** A row is created only when absent, and updated or deleted only when present. */
  predicate Follows(prev: Row, next: Row)
  {
    match next.kind
    case Created => prev.product.None? && next.product.Some?
    case Updated => prev.product.Some? && next.product.Some?
    case Deleted => prev.product.Some? && next.product.None?
  }

  predicate Enabled(s: State, a: Action)
  {
    match a
    case Write(row) => s.history != [] && Follows(s.history[|s.history| - 1], row)
    case Deliver(j) => Invalidates(s, j)
    case Acquire(f) => f !in s.fillers
    case Load(f) => f in s.fillers && s.fillers[f].Locked? && s.history != []
    case Store(f) => f in s.fillers && s.fillers[f].Loaded?
    case Release(f) => f in s.fillers
    case Stop(f) => f in s.fillers
    case LockExpires => true
    case ValueExpires => true
    case Rot => s.value.Some?
    case Evict(_) => true
  }

  function Do(s: State, a: Action): State
    requires Enabled(s, a)
  {
    match a
    case Write(row) => s.(history := s.history + [row])
    case Deliver(j) => s.(value := None, lock := None, delivered := s.delivered + {j})
    case Acquire(f) =>
      if s.lock.Some? then s
      else s.(lock := Some(s.nextToken), nextToken := s.nextToken + 1, fillers := s.fillers[f := Locked(s.nextToken)])
    case Load(f) => s.(fillers := s.fillers[f := Loaded(s.fillers[f].token, |s.history| - 1)])
    case Store(f) =>
      var t := s.fillers[f].token;
      s.(value := if s.lock == Some(t) then Some(Fill(s.fillers[f].version)) else s.value,
         fillers := s.fillers[f := Stored(t)])
    case Release(f) =>
      s.(lock := if s.lock == Some(s.fillers[f].token) then None else s.lock, fillers := s.fillers - {f})
    case Stop(f) => s.(fillers := s.fillers - {f})
    case LockExpires => s.(lock := None)
    case ValueExpires => s.(value := None)
    case Rot => s.(value := Some(Junk))
    case Evict(expected) => if s.value == Some(expected) then s.(value := None) else s
  }

  predicate Init(s: State)
  {
    |s.history| == 1 && s.delivered == {} && s.value.None? && s.lock.None? && s.fillers == map[]
  }

  predicate Legal(s: State, run: seq<Action>)
    decreases |run|
  {
    run == [] || (Enabled(s, run[0]) && Legal(Do(s, run[0]), run[1..]))
  }

  function Final(s: State, run: seq<Action>): State
    requires Legal(s, run)
    decreases |run|
  {
    if run == [] then s else Final(Do(s, run[0]), run[1..])
  }

  // ---------------------------------------------------------------- coherence

  /** No write after version `v` has been announced to the cache yet. */
  predicate Unannounced(s: State, v: Version)
  {
    v < |s.history| && forall j | j in s.delivered :: j <= v
  }

  predicate FillerOk(s: State, f: Filler)
  {
    f.token < s.nextToken && (f.Loaded? && s.lock == Some(f.token) ==> Unannounced(s, f.version))
  }

  /** Tokens are never reissued, so a lost lock stays lost. */
  predicate TokensOk(s: State)
  {
    && (s.lock.Some? ==> s.lock.value < s.nextToken)
    && forall f, g | f in s.fillers && g in s.fillers && f != g :: s.fillers[f].token != s.fillers[g].token
  }

  predicate HistoryOk(s: State)
  {
    && s.history != [] && (forall j | j in s.delivered :: j < |s.history|)
    && forall i | 0 < i < |s.history| :: Follows(s.history[i - 1], s.history[i])
  }

  predicate Inv(s: State)
  {
    && HistoryOk(s) && TokensOk(s)
    && (s.value.Some? && s.value.value.Fill? ==> Unannounced(s, s.value.value.version))
    && forall f | f in s.fillers :: FillerOk(s, s.fillers[f])
  }

  lemma HistoryKept(s: State, a: Action)
    requires Inv(s) && Enabled(s, a)
    ensures HistoryOk(Do(s, a))
  {
    hide Unannounced, FillerOk, TokensOk, Follows;
  }

  lemma RestKept(s: State, a: Action)
    requires Inv(s) && Enabled(s, a)
    ensures TokensOk(Do(s, a))
    ensures forall f | f in Do(s, a).fillers :: FillerOk(Do(s, a), Do(s, a).fillers[f])
  {
    hide Follows;
  }

  lemma ValueKept(s: State, a: Action)
    requires Inv(s) && Enabled(s, a)
    ensures var t := Do(s, a); t.value.Some? && t.value.value.Fill? ==> Unannounced(t, t.value.value.version)
  {
    hide Follows, TokensOk;
  }

  lemma DoKeepsInv(s: State, a: Action)
    requires Inv(s) && Enabled(s, a)
    ensures Inv(Do(s, a))
  {
    HistoryKept(s, a);
    RestKept(s, a);
    ValueKept(s, a);
    hide HistoryOk, TokensOk, Unannounced, FillerOk, Enabled, Do;
  }

  lemma {:induction false} RunKeepsInv(s: State, run: seq<Action>)
    requires Inv(s) && Legal(s, run)
    ensures Inv(Final(s, run))
    decreases |run|
  {
    hide Inv, Enabled, Do;
    if run != [] {
      DoKeepsInv(s, run[0]);
      RunKeepsInv(Do(s, run[0]), run[1..]);
    }
  }

  /** Only creations came after `v`: then at most one did, and `v` found no product. */
  lemma OnlyCreationsAfter(s: State, v: Version)
    requires HistoryOk(s) && v < |s.history| && forall j | v < j < |s.history| :: s.history[j].kind == Created
    ensures v == Current(s) || (v + 1 == Current(s) && s.history[v].product.None?)
  {
    assert v + 1 < |s.history| ==> Follows(s.history[v], s.history[v + 1]);
    assert v + 2 < |s.history| ==> Follows(s.history[v + 1], s.history[v + 2]);
  }

  /** Some update or delete after `v` is still on its way to the cache. */
  predicate NewerInFlight(s: State, v: Version)
  {
    exists j :: v < j < |s.history| && Invalidates(s, j) && j !in s.delivered
  }

  /** What a hit is worth: current, or about to be invalidated, or a miss remembered from before the creation. */
  predicate Coherent(s: State, v: Version)
  {
    || v == Current(s)
    || NewerInFlight(s, v)
    || (v + 1 == Current(s) && s.history[v].product.None? && s.history[v + 1].kind == Created)
  }

  lemma UnannouncedIsCoherent(s: State, v: Version)
    requires HistoryOk(s) && Unannounced(s, v)
    ensures Coherent(s, v)
  {
    if !NewerInFlight(s, v) {
      forall j | v < j < |s.history| ensures s.history[j].kind == Created {
        assert j !in s.delivered;
        assert !Invalidates(s, j);
      }
      OnlyCreationsAfter(s, v);
    }
  }

  /**
   Coherence over every run: what the cache holds, and what a filler that still owns the lock holds, is
   the current row, or an update or delete newer than it has not been delivered once.
   */
  lemma CacheCoherence(s: State, run: seq<Action>)
    requires Init(s) && Legal(s, run)
    ensures var t := Final(s, run);
            && (t.value.Some? && t.value.value.Fill? ==> Coherent(t, t.value.value.version))
            && (forall f | f in t.fillers && t.fillers[f].Loaded? && t.lock == Some(t.fillers[f].token) ::
                  Coherent(t, t.fillers[f].version))
  {
    hide Legal, Final, Coherent;
    RunKeepsInv(s, run);
    var t := Final(s, run);
    if t.value.Some? && t.value.value.Fill? {
      UnannouncedIsCoherent(t, t.value.value.version);
    }
    forall f | f in t.fillers && t.fillers[f].Loaded? && t.lock == Some(t.fillers[f].token)
      ensures Coherent(t, t.fillers[f].version)
    {
      assert FillerOk(t, t.fillers[f]);
      UnannouncedIsCoherent(t, t.fillers[f].version);
    }
  }

  /** Once every invalidation has arrived, a hit on a product that existed at the fill is what the database says. */
  lemma QuiescentHitIsCurrent(s: State, run: seq<Action>)
    requires Init(s) && Legal(s, run)
    requires var t := Final(s, run);
             t.value.Some? && t.value.value.Fill? && forall j | Invalidates(t, j) && j > 0 :: j in t.delivered
    ensures var t := Final(s, run);
            var v := t.value.value.version;
            v < |t.history| && (t.history[v].product == t.history[|t.history| - 1].product
                                || (t.history[v].product.None? && t.history[|t.history| - 1].kind == Created))
  {
    hide Legal, Final;
    RunKeepsInv(s, run);
    var t := Final(s, run);
    UnannouncedIsCoherent(t, t.value.value.version);
  }

  /** The creation exception is real: a remembered miss outlives the creation, with nothing in flight. */
  lemma MissOutlivesCreation(product: nat)
    ensures var s := State([Row(Deleted, None)], {}, None, None, 0, map[]);
            var run := [Acquire(0), Load(0), Store(0), Write(Row(Created, Some(product)))];
            && Init(s) && Legal(s, run)
            && Final(s, run).value == Some(Fill(0)) && !NewerInFlight(Final(s, run), 0)
            && Final(s, run).history == [Row(Deleted, None), Row(Created, Some(product))]
  {
    var s := State([Row(Deleted, None)], {}, None, None, 0, map[]);
    var run := [Acquire(0), Load(0), Store(0), Write(Row(Created, Some(product)))];
    var a, b, c, d := run[0], run[1], run[2], run[3];
    var s1 := Do(s, a);
    var s2 := Do(s1, b);
    var s3 := Do(s2, c);
    var s4 := Do(s3, d);
    assert run[1..] == [b, c, d] && run[1..][1..] == [c, d] && run[1..][1..][1..] == [d]
             && run[1..][1..][1..][1..] == [];
    assert Legal(s4, []) && Final(s4, []) == s4;
    assert Legal(s3, [d]) && Final(s3, [d]) == s4;
    assert Legal(s2, [c, d]) && Final(s2, [c, d]) == s4;
    assert Legal(s1, [b, c, d]) && Final(s1, [b, c, d]) == s4;
  }

  /**
   A fill that nobody disturbs, from any state with the lock free, caches the row as it stands and leaves
   the lock free.
   */
  lemma UndisturbedFillIsCurrent(s: State, f: nat)
    requires s.history != [] && s.lock.None? && f !in s.fillers
    ensures var run := [Acquire(f), Load(f), Store(f), Release(f)];
            && Legal(s, run)
            && var t := Final(s, run);
               t.value == Some(Fill(|s.history| - 1)) && t.lock.None? && t.fillers == s.fillers
               && t.history == s.history
  {
    var run := [Acquire(f), Load(f), Store(f), Release(f)];
    var a, b, c, d := run[0], run[1], run[2], run[3];
    var s1 := Do(s, a);
    var s2 := Do(s1, b);
    var s3 := Do(s2, c);
    var s4 := Do(s3, d);
    assert run[1..] == [b, c, d] && run[1..][1..] == [c, d] && run[1..][1..][1..] == [d]
             && run[1..][1..][1..][1..] == [];
    assert Legal(s4, []) && Final(s4, []) == s4;
    assert Legal(s3, [d]) && Final(s3, [d]) == s4;
    assert Legal(s2, [c, d]) && Final(s2, [c, d]) == s4;
    assert Legal(s1, [b, c, d]) && Final(s1, [b, c, d]) == s4;
  }

  /**
   Who may take a cached entry or the lock away: an entry goes only by a delivered invalidation, its own
   expiry or rot, an owner's store, or the eviction of exactly that entry; the lock only by a delivered
   invalidation, its expiry or its owner's release.
   */
  lemma OnlyTheirOwn(s: State, a: Action)
    requires Enabled(s, a)
    ensures var t := Do(s, a);
            && (s.value.Some? && t.value != s.value ==>
                  || a.Deliver? || a == ValueExpires || a == Rot || a == Evict(s.value.value)
                  || (a.Store? && s.lock == Some(s.fillers[a.f].token)))
            && (s.lock.Some? && t.lock != s.lock ==>
                  a.Deliver? || a == LockExpires || (a.Release? && s.lock == Some(s.fillers[a.f].token)))
            && (a.Deliver? ==> t.value.None? && t.lock.None?)
            && (s.value.Some? && a == Evict(s.value.value) ==> t.value.None?)
            && (a == ValueExpires ==> t.value.None?) && (a == LockExpires ==> t.lock.None?)
  {
  }
}
