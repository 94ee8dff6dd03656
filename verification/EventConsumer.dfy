/**
 One subscription's consumer as it polls: the marker store with its owner-checked scripts, and the
 batch loop that deletes what was handled and counts it.
 */
module EventConsumer {
  import opened EventPipeline

  datatype Verdict = Ack | Leave | Raise

  /** What the world does to one message while it is handled. */
  datatype Fate = Fate(raises: bool, lapses: bool, deleteFails: bool)

  class Consumer {
    var queue: map<MsgId, EventId>
    var markers: map<EventId, Marker>
    var completed: set<EventId>
    var nextToken: Token

    /** A completion marker means some handler run completed; no live token is reissued. */
    ghost predicate Valid()
      reads this
    {
      forall e | e in markers :: if markers[e].Done? then e in completed else markers[e].token < nextToken
    }

    constructor (queue: map<MsgId, EventId>)
      ensures Valid() && this.queue == queue && completed == {} && markers == map[]
    {
      this.queue, markers, completed, nextToken := queue, map[], {}, 0;
    }

    /** Upgrade our lease to the completion marker, only if it is still ours. */
    method CompleteIfOwner(e: EventId, token: Token) returns (done: bool)
      requires Valid() && e in completed
      modifies this`markers
      ensures Valid() && done == (e in old(markers) && old(markers)[e] == Lease(token))
      ensures markers == if done then old(markers)[e := Done] else old(markers)
    {
      done := e in markers && markers[e] == Lease(token);
      if done {
        markers := markers[e := Done];
      }
    }

    /** Drop our lease, only if it is still ours. */
    method ReleaseIfOwner(e: EventId, token: Token)
      requires Valid()
      modifies this`markers
      ensures Valid()
      ensures markers == if e in old(markers) && old(markers)[e] == Lease(token) then old(markers) - {e}
                else old(markers)
    {
      if e in markers && markers[e] == Lease(token) {
        markers := markers - {e};
      }
    }

    /**
     One message: a completed event is acknowledged without handling; one leased elsewhere is left; a
     fresh one is handled exactly once here, and acknowledged only if the lease survived the handler.
     */
    method Process(e: EventId, fate: Fate) returns (v: Verdict)
      requires Valid()
      modifies this`markers, this`completed, this`nextToken
      ensures Valid()
      ensures e in old(markers) ==>
                markers == old(markers) && completed == old(completed)
                && v == (if old(markers)[e].Done? then Ack else Leave)
      ensures e !in old(markers) && fate.raises ==> markers == old(markers) && completed == old(completed) && v == Raise
      ensures e !in old(markers) && !fate.raises ==>
                && completed == old(completed) + {e}
                && (if fate.lapses then markers == old(markers) && v == Leave
                    else markers == old(markers)[e := Done] && v == Ack)
    {
      if e in markers && markers[e] == Done {
        return Ack;
      }
      var token := nextToken;
      nextToken := nextToken + 1;
      if e in markers {
        return if markers[e] == Done then Ack else Leave;
      }
      markers := markers[e := Lease(token)];
      if fate.raises {
        if fate.lapses {
          markers := markers - {e};
        }
        ReleaseIfOwner(e, token);
        return Raise;
      }
      completed := completed + {e};
      if fate.lapses {
        markers := markers - {e};
      }
      var done := CompleteIfOwner(e, token);
      return if done then Ack else Leave;
    }

    /** Answers whether the message was deleted: exactly when its event is done here and the delete works. */
    method ProcessAndAck(m: MsgId, fate: Fate) returns (deleted: bool)
      requires Valid() && m in queue
      modifies this
      ensures Valid() && old(completed) <= completed
      ensures deleted <==> !fate.deleteFails && Acknowledged(old(markers), old(queue)[m], fate)
      ensures queue == if deleted then old(queue) - {m} else old(queue)
      ensures Acknowledged(old(markers), old(queue)[m], fate) ==> old(queue)[m] in completed
      ensures completed == if old(queue)[m] !in old(markers) && !fate.raises then old(completed) + {old(queue)[m]}
                           else old(completed)
      ensures forall e | e != old(queue)[m] :: SameMarker(old(markers), markers, e)
      ensures old(queue)[m] in old(markers) ==> markers == old(markers)
      ensures forall e | e in markers && e !in old(markers) :: markers[e] == Done
    {
      var v := Process(queue[m], fate);
      if v != Ack || fate.deleteFails {
        return false;
      }
      queue := queue - {m};
      return true;
    }

    /**
     A batch: `handled` is exactly the number of messages gone from the queue, each of them for an event
     whose handler completed; and what should go does: every message of an event already done whose delete
     works, and every faultless message of an event nobody else in the batch carries. The rest, and all
     outside the batch, is still there to be redelivered.
     */
    method PollOnce(batch: seq<MsgId>, fates: seq<Fate>) returns (handled: nat)
      requires Valid() && |fates| == |batch|
      requires forall i | 0 <= i < |batch| :: batch[i] in queue
      requires forall i, j | 0 <= i < j < |batch| :: batch[i] != batch[j]
      modifies this
      ensures Valid() && old(completed) <= completed
      ensures queue.Keys <= old(queue).Keys && (forall m | m in queue :: queue[m] == old(queue)[m])
      ensures |old(queue)| == |queue| + handled
      ensures forall m | m in old(queue) && m !in queue :: m in batch && old(queue)[m] in completed
      ensures forall i | 0 <= i < |batch| ::
                AsItShould(old(queue), old(markers), batch, fates, i, batch[i] in queue)
    {
      hide RightlyThere, Undisturbed, Acknowledged, SameMarker;
      handled := 0;
      var n := 0;
      ghost var before, marked := queue, markers;
      NothingDisturbed(before, batch, marked);
      while n < |batch|
        invariant 0 <= n <= |batch| && Valid() && old(completed) <= completed
        invariant queue.Keys <= before.Keys && (forall m | m in queue :: queue[m] == before[m])
        invariant |before| == |queue| + handled
        invariant forall i | n <= i < |batch| :: batch[i] in queue
        invariant forall m | m in before && m !in queue :: m in batch && before[m] in completed
        invariant Undisturbed(before, batch, n, marked, markers)
        invariant forall i | 0 <= i < n :: RightlyThere(before, marked, batch, fates, i, batch[i] in queue)
      {
        ghost var now, was := queue, markers;
        var ok := ProcessAndAck(batch[n], fates[n]);
        StillUndisturbed(before, batch, n, marked, was, markers);
        RightlyDecided(before, marked, was, batch, fates, n, !ok);
        if ok {
          OneLess(now, batch[n]);
          handled := handled + 1;
        }
        n := n + 1;
      }
      forall i | 0 <= i < |batch| ensures AsItShould(before, marked, batch, fates, i, batch[i] in queue) {
        RightlyMeans(before, marked, batch, fates, i, batch[i] in queue);
      }
    }
  }

  predicate WasDone(markers: map<EventId, Marker>, e: EventId)
  {
    e in markers && markers[e] == Done
  }

  predicate IsLeased(markers: map<EventId, Marker>, e: EventId)
  {
    e in markers && markers[e].Lease?
  }

  predicate SameMarker(a: map<EventId, Marker>, b: map<EventId, Marker>, e: EventId)
  {
    (e in a <==> e in b) && (e in a ==> a[e] == b[e])
  }

  /** The message may be acknowledged: done before, or handled now without a raise or a lost lease. */
  predicate Acknowledged(markers: map<EventId, Marker>, e: EventId, fate: Fate)
  {
    if e in markers then markers[e] == Done else !fate.raises && !fate.lapses
  }

  /** No other message of the batch carries the event. */
  predicate Alone(queue: map<MsgId, EventId>, batch: seq<MsgId>, i: nat)
    requires i < |batch| && forall j | 0 <= j < |batch| :: batch[j] in queue
  {
    forall j | 0 <= j < |batch| && j != i :: queue[batch[j]] != queue[batch[i]]
  }

  /**
   Whether message `i` is still there, as it should be: of an event done before, exactly if the delete fails;
   of a fresh event nobody else in the batch carries, exactly if something goes wrong; of one leased
   elsewhere, always.
   */
  predicate AsItShould(
      queue: map<MsgId, EventId>, markers: map<EventId, Marker>, batch: seq<MsgId>, fates: seq<Fate>, i: nat,
      there: bool)
    requires |fates| == |batch| && i < |batch| && forall j | 0 <= j < |batch| :: batch[j] in queue
  {
    var e := queue[batch[i]];
    && (WasDone(markers, e) ==> (there <==> fates[i].deleteFails))
    && (Alone(queue, batch, i) && e !in markers ==>
          (there <==> fates[i].raises || fates[i].lapses || fates[i].deleteFails))
    && (Alone(queue, batch, i) && IsLeased(markers, e) ==> there)
  }

  /** The same, with the marker that decides it. */
  predicate RightlyThere(
      queue: map<MsgId, EventId>, markers: map<EventId, Marker>, batch: seq<MsgId>, fates: seq<Fate>, i: nat,
      there: bool)
    requires |fates| == |batch| && i < |batch| && forall j | 0 <= j < |batch| :: batch[j] in queue
  {
    WasDone(markers, queue[batch[i]]) || Alone(queue, batch, i) ==>
      (there <==> fates[i].deleteFails || !Acknowledged(markers, queue[batch[i]], fates[i]))
  }

  lemma RightlyMeans(
      queue: map<MsgId, EventId>, markers: map<EventId, Marker>, batch: seq<MsgId>, fates: seq<Fate>, i: nat,
      there: bool)
    requires |fates| == |batch| && i < |batch| && (forall j | 0 <= j < |batch| :: batch[j] in queue)
    requires RightlyThere(queue, markers, batch, fates, i, there)
    ensures AsItShould(queue, markers, batch, fates, i, there)
  {
  }

  /** What the first `n` messages may have changed: only markers of events they carry, and none that was done. */
  ghost predicate Undisturbed(
      queue: map<MsgId, EventId>, batch: seq<MsgId>, n: nat, was: map<EventId, Marker>, now: map<EventId, Marker>)
    requires n <= |batch| && forall j | 0 <= j < |batch| :: batch[j] in queue
  {
    && (forall e | WasDone(was, e) :: WasDone(now, e))
    && (forall e | !Carried(queue, batch, n, e) :: SameMarker(was, now, e))
  }

  predicate Carried(queue: map<MsgId, EventId>, batch: seq<MsgId>, n: nat, e: EventId)
    requires n <= |batch| && forall j | 0 <= j < |batch| :: batch[j] in queue
  {
    exists j | 0 <= j < n :: queue[batch[j]] == e
  }

  lemma NothingDisturbed(queue: map<MsgId, EventId>, batch: seq<MsgId>, markers: map<EventId, Marker>)
    requires forall j | 0 <= j < |batch| :: batch[j] in queue
    ensures Undisturbed(queue, batch, 0, markers, markers)
  {
  }

  lemma StillUndisturbed(
      queue: map<MsgId, EventId>, batch: seq<MsgId>, n: nat,
      first: map<EventId, Marker>, was: map<EventId, Marker>, now: map<EventId, Marker>)
    requires n < |batch| && (forall j | 0 <= j < |batch| :: batch[j] in queue)
    requires Undisturbed(queue, batch, n, first, was)
    requires forall e | e != queue[batch[n]] :: SameMarker(was, now, e)
    requires queue[batch[n]] in was ==> now == was
    ensures Undisturbed(queue, batch, n + 1, first, now)
  {
    forall e | !Carried(queue, batch, n + 1, e) ensures SameMarker(first, now, e) {
      assert e != queue[batch[n]];
      assert !Carried(queue, batch, n, e);
      assert SameMarker(first, was, e) && SameMarker(was, now, e);
    }
    forall e | WasDone(first, e) ensures WasDone(now, e) {
      assert WasDone(was, e);
      if e != queue[batch[n]] {
        assert SameMarker(was, now, e);
      }
    }
  }

  lemma RightlyDecided(
      queue: map<MsgId, EventId>, first: map<EventId, Marker>, was: map<EventId, Marker>, batch: seq<MsgId>,
      fates: seq<Fate>, n: nat, there: bool)
    requires |fates| == |batch| && n < |batch| && (forall j | 0 <= j < |batch| :: batch[j] in queue)
    requires Undisturbed(queue, batch, n, first, was)
    requires there <==> fates[n].deleteFails || !Acknowledged(was, queue[batch[n]], fates[n])
    ensures RightlyThere(queue, first, batch, fates, n, there)
  {
    var e := queue[batch[n]];
    if Alone(queue, batch, n) {
      assert !Carried(queue, batch, n, e);
      assert SameMarker(first, was, e);
    }
  }

  lemma OneLess(q: map<MsgId, EventId>, m: MsgId)
    requires m in q
    ensures |q - {m}| + 1 == |q|
  {
    assert (q - {m}).Keys == q.Keys - {m};
    assert |(q - {m}).Keys| == |q.Keys| - 1;
  }
}
