/**
 The cache's atomic scripts over its two keys, and the read path that drives them: look, elect one
 filler, load while renewing, store only while still the owner, always release; a caller that loses the
 election waits for the fill, a bounded time for every election it loses. Times are in milliseconds.
 */
module ProductCacheReader {
  import opened Options
  import opened ProductFillLock

  /** What the value key can hold: a product, the remembered 404, or bytes that do not decode. */
  datatype Payload = Json(product: nat) | Tombstone | Corrupt(bytes: nat)

  /** What a reader makes of a payload; `None` when it does not decode. */
  function Decode(p: Payload): Option<Option<nat>>
  {
    match p
    case Json(x) => Some(Some(x))
    case Tombstone => Some(None)
    case Corrupt(_) => None
  }

  function Encode(row: Option<nat>): Payload
  {
    match row
    case Some(x) => Json(x)
    case None => Tombstone
  }

  /** A stored row, a remembered 404 included, reads back as itself. */
  lemma RoundTrip(row: Option<nat>)
    ensures Decode(Encode(row)) == Some(row)
  {
  }

  /** What a look at the value key answers. */
  function Hit(value: Option<Payload>): Option<Option<nat>>
  {
    if value.Some? then Decode(value.value) else None
  }

  /** What another caller, or an invalidation, does to the two keys. */
  datatype Event =
    | Quiet
    | Stores(row: Option<nat>)    // the holder stores what it read
    | Renews
    | Releases
    | Takes                       // somebody wins the lock, if it is free
    | Invalidates

  /** What the others do between the polls of one wait, and between its end and the next election. */
  datatype Round = Round(polls: seq<Event>, gap: seq<Event>)

  /** How many times a rival takes the lock just before an election. */
  function Rivals(rounds: seq<Round>): nat
  {
    if rounds == [] then 0 else (if Takes in rounds[0].gap then 1 else 0) + Rivals(rounds[1..])
  }

  predicate StoredIn(rounds: seq<Round>, row: Option<nat>)
  {
    exists i | 0 <= i < |rounds| :: Stores(row) in rounds[i].polls || Stores(row) in rounds[i].gap
  }

  /** Where an answer comes from. */
  datatype Origin = FromCache | OwnFill | PastDeadline | Uncached

  /** From the cache comes what was there, or was stored there, meanwhile; any other answer is the row itself. */
  predicate MayAnswer(row: Option<nat>, value: Option<Payload>, gap: seq<Event>, rounds: seq<Round>,
      answer: Option<nat>, how: Origin)
  {
    if how == FromCache then Hit(value) == Some(answer) || Stores(answer) in gap || StoredIn(rounds, answer)
    else answer == row
  }

  /** An invalidation arrives before a load of the given length is over. */
  predicate Strikes(strike: Option<nat>, duration: nat)
  {
    strike.Some? && strike.value < duration
  }

  class Cache {
    var now: nat
    var value: Option<Payload>
    var lock: Option<Lock>
    var nextToken: Token
    const ttl: nat
    const renewEvery: nat
    const pollEvery: nat
    const maxWait: nat

    ghost predicate Valid()
      reads this
    {
      pollEvery > 0 && renewEvery > 0 && (lock.Some? ==> lock.value.token < nextToken)
    }

    predicate LockHeld()
      reads this
    {
      lock.Some? && now < lock.value.until
    }

    predicate Owner(token: Token)
      reads this
    {
      LockHeld() && lock.value.token == token
    }

    /** The settings as the service derives them: whole seconds of lifetime, renewed at half of it. */
    constructor (seconds: nat, pollEvery: nat, maxWait: nat)
      requires seconds >= 1 && pollEvery > 0
      ensures Valid() && value == None && lock == None && now == 0
      ensures ttl == seconds * 1000 && renewEvery == RenewEvery(seconds) && renewEvery < ttl
      ensures this.pollEvery == pollEvery && this.maxWait == maxWait
    {
      now, value, lock, nextToken := 0, None, None, 0;
      ttl, renewEvery := seconds * 1000, RenewEvery(seconds);
      this.pollEvery, this.maxWait := pollEvery, maxWait;
    }

    method AcquireFillLock(token: Token) returns (won: bool)
      requires Valid() && token < nextToken
      modifies this`lock
      ensures Valid() && won == !old(LockHeld()) && lock == if won then Some(Lock(token, now + ttl)) else old(lock)
    {
      won := !LockHeld();
      if won {
        lock := Some(Lock(token, now + ttl));
      }
    }

    /** Compare-and-extend: a full lifetime from now if the lock is still ours, else nothing. */
    method RenewFillLock(token: Token) returns (ours: bool)
      requires Valid()
      modifies this`lock
      ensures Valid() && ours == old(Owner(token)) && lock == if ours then Some(Lock(token, now + ttl)) else old(lock)
    {
      ours := Owner(token);
      if ours {
        lock := Some(Lock(token, now + ttl));
      }
    }

    method ReleaseFillLock(token: Token)
      requires Valid()
      modifies this`lock
      ensures Valid() && lock == if old(Owner(token)) then None else old(lock)
    {
      if Owner(token) {
        lock := None;
      }
    }

    method StoreIfOwner(payload: Payload, token: Token) returns (stored: bool)
      modifies this`value
      ensures stored == Owner(token) && value == if stored then Some(payload) else old(value)
    {
      stored := Owner(token);
      if stored {
        value := Some(payload);
      }
    }

    method Invalidate()
      modifies this`value, this`lock
      ensures value == None && lock == None
    {
      lock := None;
      value := None;
    }

    /** Drops exactly the payload that was read as corrupt, and never the lock. */
    method EvictValue(expected: Payload)
      modifies this`value
      ensures value == if old(value) == Some(expected) then None else old(value)
    {
      if value == Some(expected) {
        value := None;
      }
    }

    /** One look: a usable answer, or nothing after evicting what does not decode. */
    method Look() returns (hit: Option<Option<nat>>)
      modifies this`value
      ensures hit == Hit(old(value))
      ensures value == if hit.Some? then old(value) else None
    {
      if value.None? {
        return None;
      }
      hit := Decode(value.value);
      if hit.None? {
        EvictValue(value.value);
      }
    }

    /**
     The filler's load of `row`, which takes `duration`, with a renewal whenever `every` goes by first; an
     invalidation may strike on the way. Unless one does, the row is stored exactly when the renewals come
     within the lock's lifetime or the load does not outlast it.
     */
    method FillHoldingLock(row: Option<nat>, token: Token, duration: nat, every: nat, strike: Option<nat>)
      returns (answer: Option<nat>)
      requires Valid() && lock == Some(Lock(token, now + ttl)) && every > 0
      modifies this`now, this`value, this`lock
      ensures Valid() && answer == row && now == old(now) + duration
      ensures lock.Some? ==> lock.value.token == token
      ensures Strikes(strike, duration) ==> value == None && lock == None
      ensures !Strikes(strike, duration) && (every < ttl || duration < ttl) ==>
                Owner(token) && value == Some(Encode(row))
      ensures !Strikes(strike, duration) && every >= ttl && duration >= ttl ==> !Owner(token) && value == old(value)
    {
      var elapsed := 0;
      ghost var renewed := now;
      while elapsed < duration
        invariant 0 <= elapsed <= duration && now == old(now) + elapsed && Valid()
        invariant old(now) <= renewed <= now
        invariant Strikes(strike, elapsed) ==> lock == None && value == None
        invariant !Strikes(strike, elapsed) ==> value == old(value) && lock == Some(Lock(token, renewed + ttl))
        invariant !Strikes(strike, elapsed) && every < ttl ==>
                    now < renewed + ttl && (elapsed < duration ==> renewed == now)
        invariant every >= ttl ==> renewed == old(now) && (elapsed == 0 || elapsed == duration || elapsed >= ttl)
      {
        var step := if every < duration - elapsed then every else duration - elapsed;
        if strike.Some? && elapsed <= strike.value < elapsed + step {
          Invalidate();
        }
        now := now + step;
        elapsed := elapsed + step;
        if elapsed < duration {
          var ours := RenewFillLock(token);
          if ours {
            renewed := now;
          }
        }
      }
      answer := row;
      var stored := StoreIfOwner(Encode(row), token);
    }

    /** A caller that won the lock: look again, else load and store; the lock is never left behind. */
    method Fill(row: Option<nat>, token: Token, duration: nat, strike: Option<nat>)
      returns (answer: Option<nat>, how: Origin)
      requires Valid() && lock == Some(Lock(token, now + ttl))
      modifies this`now, this`value, this`lock
      ensures Valid() && !LockHeld() && old(now) <= now <= old(now) + duration
      ensures Hit(old(value)).Some? ==> how == FromCache && Some(answer) == Hit(old(value)) && value == old(value)
      ensures Hit(old(value)).None? ==> how == OwnFill && answer == row
      ensures Hit(old(value)).None? && !Strikes(strike, duration) && renewEvery < ttl ==> Hit(value) == Some(row)
    {
      var hit := Look();
      if hit.Some? {
        ReleaseFillLock(token);
        return hit.value, FromCache;
      }
      how := OwnFill;
      answer := FillHoldingLock(row, token, duration, renewEvery, strike);
      ReleaseFillLock(token);
    }

    /** One thing somebody else does; whoever stores or renews must hold the lock. */
    method Happen(e: Event)
      requires Valid()
      modifies this`value, this`lock, this`nextToken
      ensures Valid() && nextToken >= old(nextToken)
      ensures value == if e == Invalidates then None
                       else if e.Stores? && old(LockHeld()) then Some(Encode(e.row)) else old(value)
      ensures lock == if e == Invalidates || e == Releases then None
                      else if e == Renews && old(LockHeld()) then Some(Lock(old(lock).value.token, now + ttl))
                      else if e == Takes && !old(LockHeld()) then Some(Lock(old(nextToken), now + ttl)) else old(lock)
      ensures value == old(value) || value == None || (e.Stores? && value == Some(Encode(e.row)))
      ensures LockHeld() ==> old(LockHeld()) || e == Takes
      ensures value.Some? && Hit(value).None? ==> value == old(value)
    {
      match e {
        case Quiet =>
        case Stores(row) =>
          if LockHeld() {
            value := Some(Encode(row));
          }
        case Renews =>
          if LockHeld() {
            lock := Some(Lock(lock.value.token, now + ttl));
          }
        case Releases => lock := None;
        case Takes =>
          if !LockHeld() {
            lock := Some(Lock(nextToken, now + ttl));
            nextToken := nextToken + 1;
          }
        case Invalidates => Invalidate();
      }
    }

    /** What happens between this caller's last look and its election. */
    method Pass(gap: seq<Event>)
      requires Valid()
      modifies this`value, this`lock, this`nextToken
      ensures Valid() && nextToken >= old(nextToken)
      ensures value == old(value) || value == None || exists x :: Stores(x) in gap && value == Some(Encode(x))
      ensures LockHeld() ==> old(LockHeld()) || Takes in gap
      ensures value.Some? && Hit(value).None? ==> value == old(value)
      ensures gap == [] ==> value == old(value) && lock == old(lock)
    {
      for n := 0 to |gap|
        invariant Valid() && nextToken >= old(nextToken)
        invariant value == old(value) || value == None || exists x :: Stores(x) in gap && value == Some(Encode(x))
        invariant LockHeld() ==> old(LockHeld()) || Takes in gap
        invariant value.Some? && Hit(value).None? ==> value == old(value)
        invariant n == 0 ==> value == old(value) && lock == old(lock)
      {
        assert gap[n] in gap;
        Happen(gap[n]);
      }
    }

    /**
     A caller that lost the election: wait while the lock is held, serve what the fill leaves, read the row
     itself past the deadline, and stand again once the lock is gone without a usable value, or once a
     payload that does not decode was evicted. The row itself is answered only past the deadline, or after
     an election won, which leaves the lock free and, unless an invalidation strikes, the row in the cache.
     This wait ends within its deadline and one poll; `again` counts the elections lost after it, each of
     which sets a fresh deadline.
     */
    method AwaitFill(row: Option<nat>, rounds: seq<Round>, duration: nat, strike: Option<nat>)
      returns (answer: Option<nat>, again: nat, how: Origin)
      requires Valid()
      modifies this
      ensures Valid() && MayAnswer(row, old(value), [], rounds, answer, how) && how != Uncached
      ensures how == PastDeadline ==> now >= old(now) + maxWait
      ensures how == OwnFill ==> !LockHeld()
      ensures how == OwnFill && !Strikes(strike, duration) && renewEvery < ttl ==> Hit(value) == Some(row)
      ensures old(now) <= now <= old(now) + (again + 1) * (maxWait + pollEvery) + duration
      ensures again <= Rivals(rounds) + if Rotten(old(value)) then 1 else 0
      decreases |rounds|, if LockHeld() && Rotten(value) then 3 else 1
    {
      hide MayAnswer, Encode, Decode;
      var deadline := now + maxWait;
      var polls := 0;
      var round := if rounds == [] then Round([], []) else rounds[0];
      while LockHeld()
        invariant Valid() && now == old(now) + polls * pollEvery && now <= deadline + pollEvery
        invariant polls == 0 ==> lock == old(lock) && value == old(value)
        invariant polls > 0 ==> !Rotten(value)
        invariant value == old(value) || value == None
                  || exists x :: Stores(x) in round.polls && value == Some(Encode(x))
        decreases deadline + pollEvery - now
      {
        MeanwhileAnswers(row, old(value), rounds, round, value);
        var there := value.Some?;
        var hit := Look();
        if hit.Some? {
          return hit.value, 0, FromCache;
        }
        if there {
          break;
        }
        if now >= deadline {
          RowAnswers(row, old(value), [], rounds, PastDeadline);
          return row, 0, PastDeadline;
        }
        now := now + pollEvery;
        Happen(if polls < |round.polls| then round.polls[polls] else Quiet);
        polls := polls + 1;
      }
      MeanwhileAnswers(row, old(value), rounds, round, value);
      var hit := Look();
      if hit.Some? {
        return hit.value, 0, FromCache;
      }
      var rest := if rounds == [] then [] else rounds[1..];
      answer, again, how := ReadThrough(row, round.gap, rest, duration, strike);
      WaitsAddUp(again, maxWait + pollEvery);
      LaterAnswers(row, old(value), rounds, answer, how);
    }

    /**
     A caller that finds nothing usable: the one that wins the lock fills, the others wait. It waits at
     most one deadline and one poll for every election it loses, and loses one for a lock that was held,
     one for every rival that takes a freed lock first, and one for a payload it had to evict.
     */
    method ReadThrough(row: Option<nat>, gap: seq<Event>, rounds: seq<Round>, duration: nat, strike: Option<nat>)
      returns (answer: Option<nat>, lost: nat, how: Origin)
      requires Valid()
      modifies this
      ensures Valid() && MayAnswer(row, old(value), gap, rounds, answer, how) && how != Uncached
      ensures how == PastDeadline ==> lost > 0 && now >= old(now) + maxWait
      ensures how == OwnFill ==> !LockHeld()
      ensures how == OwnFill && !Strikes(strike, duration) && renewEvery < ttl ==> Hit(value) == Some(row)
      ensures old(now) <= now <= old(now) + lost * (maxWait + pollEvery) + duration
      ensures lost <= Rivals(rounds) + (if old(LockHeld()) || Takes in gap then 1 else 0)
                      + (if Rotten(old(value)) then 1 else 0)
      ensures !old(LockHeld()) && Takes !in gap ==> lost == 0
      ensures !old(LockHeld()) && gap == [] ==> !LockHeld()
      ensures !old(LockHeld()) && gap == [] ==>
                Some(answer) == if Hit(old(value)).Some? then Hit(old(value)) else Some(row)
      ensures !old(LockHeld()) && gap == [] && Hit(old(value)).None? && !Strikes(strike, duration)
                && renewEvery < ttl ==>
                Hit(value) == Some(row)
      decreases |rounds|,
                if !LockHeld() && Takes !in gap then 0 else if Rotten(value) || gap != [] then 4 else 2
    {
      hide MayAnswer, Encode;
      Pass(gap);
      var token := nextToken;
      nextToken := nextToken + 1;
      var won := AcquireFillLock(token);
      GapAnswers(row, old(value), gap, rounds, value);
      if won {
        answer, how := Fill(row, token, duration, strike);
        lost := 0;
        RowAnswers(row, old(value), gap, rounds, OwnFill);
      } else {
        ghost var seen := value;
        var again;
        answer, again, how := AwaitFill(row, rounds, duration, strike);
        lost := again + 1;
        WaitedAnswers(row, old(value), seen, gap, rounds, answer, how);
      }
    }

    /**
     The cache-aside read always answers: with a usable entry, or with the row, or with what a concurrent
     fill left; a cache fault costs nothing but the cache. Its time is its own load plus one wait for every
     election it loses, so a single wait bounds it when no rival takes a freed lock before it.
     */
    method GetProduct(
        row: Option<nat>, cacheDown: bool, gap: seq<Event>, rounds: seq<Round>, duration: nat, strike: Option<nat>)
      returns (answer: Option<nat>, lost: nat, how: Origin)
      requires Valid()
      modifies this
      ensures Valid() && MayAnswer(row, old(value), gap, rounds, answer, how) && (how == Uncached <==> cacheDown)
      ensures how == PastDeadline ==> lost > 0 && now >= old(now) + maxWait
      ensures how == OwnFill ==> !LockHeld()
      ensures how == OwnFill && !Strikes(strike, duration) && renewEvery < ttl ==> Hit(value) == Some(row)
      ensures now <= old(now) + lost * (maxWait + pollEvery) + duration
      ensures lost <= Rivals(rounds) + if old(LockHeld()) || Takes in gap then 1 else 0
      ensures Rivals(rounds) == 0 ==> now <= old(now) + maxWait + pollEvery + duration
      ensures cacheDown ==> answer == row && value == old(value) && lock == old(lock)
      ensures !cacheDown && Hit(old(value)).Some? ==>
                Some(answer) == Hit(old(value)) && value == old(value) && lock == old(lock)
      ensures !cacheDown && Hit(old(value)).None? && !old(LockHeld()) && gap == [] ==> answer == row
      ensures !cacheDown && Hit(old(value)).None? && !old(LockHeld()) && gap == [] && !Strikes(strike, duration)
              && renewEvery < ttl ==>
                !LockHeld() && Hit(value) == Some(row)
    {
      if cacheDown {
        return row, 0, Uncached;
      }
      var hit := Look();
      if hit.Some? {
        return hit.value, 0, FromCache;
      }
      answer, lost, how := ReadThrough(row, gap, rounds, duration, strike);
      if lost <= 1 {
        WaitsAddUp(0, maxWait + pollEvery);
      }
    }
  }

  /** A payload that is there and does not decode. */
  predicate Rotten(value: Option<Payload>)
  {
    value.Some? && Hit(value).None?
  }

  lemma WaitsAddUp(n: nat, wait: nat)
    ensures (n + 1) * wait == n * wait + wait
  {
  }

  lemma RowAnswers(row: Option<nat>, value: Option<Payload>, gap: seq<Event>, rounds: seq<Round>, how: Origin)
    requires how != FromCache
    ensures MayAnswer(row, value, gap, rounds, row, how)
  {
  }

  /** What a waiter sees between its polls is an answer it may give. */
  lemma MeanwhileAnswers(row: Option<nat>, value: Option<Payload>, rounds: seq<Round>, round: Round,
      now: Option<Payload>)
    requires round == if rounds == [] then Round([], []) else rounds[0]
    requires now == value || now == None || exists x :: Stores(x) in round.polls && now == Some(Encode(x))
    ensures Hit(now).Some? ==> MayAnswer(row, value, [], rounds, Hit(now).value, FromCache)
  {
    if now != value && now != None {
      var x :| Stores(x) in round.polls && now == Some(Encode(x));
      RoundTrip(x);
      assert StoredIn(rounds, x);
    }
  }

  /** What happened before the election is an answer it may give, too. */
  lemma GapAnswers(row: Option<nat>, value: Option<Payload>, gap: seq<Event>, rounds: seq<Round>, now: Option<Payload>)
    requires now == value || now == None || exists x :: Stores(x) in gap && now == Some(Encode(x))
    ensures Hit(now).Some? ==> MayAnswer(row, value, gap, rounds, Hit(now).value, FromCache)
  {
  }

  lemma WaitedAnswers(
      row: Option<nat>, value: Option<Payload>, seen: Option<Payload>, gap: seq<Event>, rounds: seq<Round>,
      answer: Option<nat>, how: Origin)
    requires MayAnswer(row, seen, [], rounds, answer, how)
    requires Hit(seen).Some? ==> MayAnswer(row, value, gap, rounds, Hit(seen).value, FromCache)
    ensures MayAnswer(row, value, gap, rounds, answer, how)
  {
  }

  /** ... and so is what happens in a later round. */
  lemma LaterAnswers(row: Option<nat>, value: Option<Payload>, rounds: seq<Round>, answer: Option<nat>,
      how: Origin)
    requires rounds == [] ==> MayAnswer(row, None, [], [], answer, how)
    requires rounds != [] ==> MayAnswer(row, None, rounds[0].gap, rounds[1..], answer, how)
    ensures MayAnswer(row, value, [], rounds, answer, how)
  {
    if rounds != [] && how == FromCache && Stores(answer) !in rounds[0].gap {
      var i :| 0 <= i < |rounds[1..]| && (Stores(answer) in rounds[1..][i].polls
          || Stores(answer) in rounds[1..][i].gap);
      assert rounds[i + 1] == rounds[1..][i];
    }
  }
}
