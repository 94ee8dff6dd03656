/**
 The pipeline's actors, undisturbed: a relay that is not refused gets every claimed row out to every
 subscription and stamps it; a worker whose calls succeed handles a fresh event, marks it done and deletes
 its message; one whose handler raises leaves everything as it found it; a replay moves its message.
 */
module EventDelivery {
  import opened Options
  import opened EventPipeline

  // ---------------------------------------------------------------- a worker

  /** Worker `w` takes every step, and its handler and its delete succeed, or all fail. */
  predicate OnlyWorks(run: seq<Action>, w: nat, ok: bool)
  {
    forall i | 0 <= i < |run| :: run[i] == Works(w, ok)
  }

  predicate LeasedAway(s: State, at: Spot)
  {
    at in s.markers && s.markers[at].Lease?
  }

  /** Where a worker that received `m` for `at` must leave the subscription. */
  predicate WorkEnded(s: State, t: State, m: MsgId, at: Spot, ok: bool)
  {
    if LeasedAway(s, at) || !ok then
      t.messages == s.messages && t.markers == s.markers && t.completed == s.completed
    else
      && t.messages == s.messages - {m} && t.markers == s.markers[at := Done]
      && t.completed == s.completed + {at}
  }

  /** Nothing moved yet. */
  predicate Still(s: State, x: State)
  {
    x.messages == s.messages && x.markers == s.markers && x.completed == s.completed
  }

  predicate Leased(s: State, x: State, at: Spot, token: Token)
  {
    at !in s.markers && x.messages == s.messages && x.markers == s.markers[at := Lease(token)]
  }

  predicate WorkTrack(s: State, x: State, f: Worker, ok: bool)
  {
    match f
    case Checking(_, at) => Still(s, x)
    case Claiming(_, at) => Still(s, x) && !IsDone(s, at)
    case Rechecking(_, at) => Still(s, x) && LeasedAway(s, at)
    case Handling(_, at, t) => Leased(s, x, at, t) && x.completed == s.completed
    case Upgrading(_, at, t) => Leased(s, x, at, t) && x.completed == s.completed + {at} && ok
    case Releasing(_, at, t) => Leased(s, x, at, t) && x.completed == s.completed && !ok
    case Acking(_, at) =>
      && x.messages == s.messages && x.completed == s.completed + {at} && x.markers == s.markers[at := Done]
      && (ok || IsDone(s, at)) && !LeasedAway(s, at)
  }

  /** A received message is on its queue, and a completion marker means it was handled. */
  predicate Sound(s: State, m: MsgId, at: Spot)
  {
    && m in s.messages && s.messages[m] == Msg(at, Queued)
    && (IsDone(s, at) ==> at in s.completed)
  }

  lemma WorkOn(s: State, x: State, w: nat, ok: bool)
    requires w in x.workers
    requires var f := x.workers[w]; WorkTrack(s, x, f, ok) && Sound(s, f.msg, f.at)
    ensures var f := x.workers[w];
            var y := Do(x, Works(w, ok));
            if w in y.workers then
              WorkTrack(s, y, y.workers[w], ok) && y.workers[w].msg == f.msg && y.workers[w].at == f.at
              && CallsLeft(y.workers[w]) < CallsLeft(f)
            else WorkEnded(s, y, f.msg, f.at, ok)
  {
    var f := x.workers[w];
    var y := Do(x, Works(w, ok));
    match f
    case Checking(_, at) =>
      if IsDone(s, at) {
        assert s.markers[at := Done] == s.markers && s.completed + {at} == s.completed;
      }
    case Releasing(_, at, t) => assert y.markers == s.markers;
    case Upgrading(_, at, t) => assert y.markers == s.markers[at := Done];
    case Acking(_, at) =>
      if !ok {
        assert s.markers[at := Done] == s.markers && s.completed + {at} == s.completed;
      }
    case _ =>
  }

  function CallsLeft(f: Worker): nat
  {
    match f
    case Checking(_, _) => 5
    case Claiming(_, _) => 4
    case Rechecking(_, _) => 2
    case Handling(_, _, _) => 3
    case Upgrading(_, _, _) => 2
    case Releasing(_, _, _) => 1
    case Acking(_, _) => 1
  }

  lemma {:induction false} WorkRuns(s: State, x: State, w: nat, ok: bool, run: seq<Action>)
    requires w in x.workers && Legal(x, run) && OnlyWorks(run, w, ok)
    requires var f := x.workers[w]; WorkTrack(s, x, f, ok) && Sound(s, f.msg, f.at)
    ensures |run| <= CallsLeft(x.workers[w])
    ensures w in Final(x, run).workers ==> |run| < CallsLeft(x.workers[w])
    ensures w !in Final(x, run).workers ==> WorkEnded(s, Final(x, run), x.workers[w].msg, x.workers[w].at, ok)
    decreases |run|
  {
    hide WorkTrack, WorkEnded, Sound;
    if run != [] {
      WorkOn(s, x, w, ok);
      var y := Do(x, run[0]);
      assert CallsLeft(x.workers[w]) > 0;
      assert OnlyWorks(run[1..], w, ok);
      hide CallsLeft, Do;
      if w in y.workers {
        WorkRuns(s, y, w, ok, run[1..]);
      } else {
        GoneIsDone(y, run[1..], w, ok);
        assert Final(x, run) == y;
      }
    } else {
      assert CallsLeft(x.workers[w]) > 0;
    }
  }

  lemma GoneIsDone(y: State, run: seq<Action>, w: nat, ok: bool)
    requires w !in y.workers && Legal(y, run) && OnlyWorks(run, w, ok)
    ensures run == []
  {
  }

  /**
   One delivery, undisturbed, in any state of any run: within five calls the worker is done. An event leased
   elsewhere is left alone; with calls that succeed a fresh event is handled, marked done and its message
   gone, and one already done loses its message only; with calls that fail everything is as it was, lease
   included.
   */
  lemma DeliveryIsRight(s: State, w: nat, m: MsgId, ok: bool, run: seq<Action>)
    requires Inv(s) && Enabled(s, Receive(w, m)) && OnlyWorks(run, w, ok)
    requires Legal(Do(s, Receive(w, m)), run)
    ensures var t := Final(Do(s, Receive(w, m)), run);
            && |run| <= 5
            && (w in t.workers ==> |run| < 5)
            && (w !in t.workers ==> WorkEnded(s, t, m, s.messages[m].at, ok))
  {
    hide WorkEnded, Final, Legal;
    WorkRuns(s, Do(s, Receive(w, m)), w, ok, run);
  }

  // ---------------------------------------------------------------- a relay

  /** Relay `r` takes every step, and no publish is refused. */
  predicate OnlyShips(run: seq<Action>, r: nat)
  {
    forall i | 0 <= i < |run| :: run[i] == Stamp(r) || (run[i].Publish? && run[i].r == r)
  }

  /** A message sent since `s` waits there. */
  predicate Sent(s: State, x: State, at: Spot)
  {
    exists m :: m in x.messages && m >= s.nextMsg && x.messages[m] == Msg(at, Queued)
  }

  predicate OldMessagesStay(s: State, x: State)
  {
    forall m | m in s.messages :: m in x.messages && x.messages[m] == s.messages[m]
  }

  /** Every claimed row is stamped, no other is, and each reached every subscription. */
  predicate ShipEnded(s: State, t: State, rows: set<EventId>)
  {
    && t.outbox.Keys == s.outbox.Keys && (forall e | e in s.outbox :: t.outbox[e] == (s.outbox[e] || e in rows))
    && (forall k, e | k in s.subs && e in rows :: Sent(s, t, (k, e)))
    && OldMessagesStay(s, t)
  }

  predicate ShipTrack(s: State, x: State, r: nat, rows: set<EventId>)
  {
    && IdsOk(s) && x.subs == s.subs && x.outbox == s.outbox && x.nextMsg >= s.nextMsg && OldMessagesStay(s, x)
    && r in x.relays && x.relays[r].rows == rows
    && (forall m | m in x.messages :: m < x.nextMsg)
    && forall at | at in Deliveries(s, rows) :: at in x.relays[r].left || Sent(s, x, at)
  }

  lemma ShipOn(s: State, x: State, r: nat, rows: set<EventId>, a: Action)
    requires ShipTrack(s, x, r, rows) && Enabled(x, a) && (a == Stamp(r) || (a.Publish? && a.r == r))
    ensures a == Stamp(r) ==> ShipEnded(s, Do(x, a), rows) && r !in Do(x, a).relays
    ensures a.Publish? ==> ShipTrack(s, Do(x, a), r, rows) && Do(x, a).relays[r].left < x.relays[r].left
  {
    var y := Do(x, a);
    if a.Publish? {
      assert y.messages[x.nextMsg] == Msg(a.at, Queued);
      forall at | at in Deliveries(s, rows) ensures at in y.relays[r].left || Sent(s, y, at) {
        if at != a.at && at !in x.relays[r].left {
          var m :| m in x.messages && m >= s.nextMsg && x.messages[m] == Msg(at, Queued);
          assert y.messages[m] == Msg(at, Queued);
        }
      }
    } else {
      forall k, e | k in s.subs && e in rows ensures Sent(s, y, (k, e)) {
        assert (k, e) in Deliveries(s, rows);
        assert Sent(s, x, (k, e));
      }
    }
  }

  lemma {:induction false} ShipRuns(s: State, x: State, r: nat, rows: set<EventId>, run: seq<Action>)
    requires ShipTrack(s, x, r, rows) && Legal(x, run) && OnlyShips(run, r)
    ensures |run| <= |x.relays[r].left| + 1
    ensures r in Final(x, run).relays ==> |run| <= |x.relays[r].left|
    ensures r !in Final(x, run).relays ==> ShipEnded(s, Final(x, run), rows)
    decreases |run|
  {
    hide ShipTrack, ShipEnded;
    if run == [] {
      assert r in x.relays by { StillShips(s, x, r, rows); }
    } else {
      ShipOn(s, x, r, rows, run[0]) by { StillShips(s, x, r, rows); }
      var y := Do(x, run[0]);
      assert OnlyShips(run[1..], r);
      if run[0] == Stamp(r) {
        NoRelayNoSteps(y, run[1..], r);
        assert Final(x, run) == y;
      } else {
        StillShips(s, x, r, rows);
        Smaller(y.relays[r].left, x.relays[r].left);
        hide Do;
        ShipRuns(s, y, r, rows, run[1..]);
      }
    }
  }

  lemma StillShips(s: State, x: State, r: nat, rows: set<EventId>)
    requires ShipTrack(s, x, r, rows)
    ensures r in x.relays
  {
  }

  lemma NoRelayNoSteps(y: State, run: seq<Action>, r: nat)
    requires r !in y.relays && Legal(y, run) && OnlyShips(run, r)
    ensures run == []
  {
  }

  lemma Smaller(a: set<Spot>, b: set<Spot>)
    requires a < b
    ensures |a| < |b|
  {
    assert b == a + (b - a);
  }

  /**
   One relay batch, no publish refused, in any state of any run: after at most one step per delivery and
   one for the stamp it is done, every claimed row is stamped and no other, and each of them waits, newly
   sent, at every subscription.
   */
  lemma BatchIsShipped(s: State, r: nat, rows: set<EventId>, run: seq<Action>)
    requires Inv(s) && Enabled(s, Claim(r, rows)) && OnlyShips(run, r) && Legal(Do(s, Claim(r, rows)), run)
    ensures var t := Final(Do(s, Claim(r, rows)), run);
            && |run| <= |Deliveries(s, rows)| + 1
            && (r in t.relays ==> |run| <= |Deliveries(s, rows)|)
            && (r !in t.relays ==> ShipEnded(s, t, rows))
  {
    hide ShipEnded, Final, Legal;
    var x := Do(s, Claim(r, rows));
    assert ShipTrack(s, x, r, rows);
    ShipRuns(s, x, r, rows, run);
  }

  // ---------------------------------------------------------------- a replay

  /** A replay, undisturbed, moves its message: the dead one is gone, one queued copy is new, the rest is as it was. */
  lemma ReplayMoves(s: State, p: nat, m: MsgId)
    requires Inv(s) && Enabled(s, Resend(p, m))
    ensures var x := Do(s, Resend(p, m));
            && Enabled(x, Discard(p))
            && var t := Do(x, Discard(p));
               && m !in t.messages && s.nextMsg in t.messages && t.messages[s.nextMsg] == Msg(s.messages[m].at, Queued)
               && t.messages.Keys == s.messages.Keys - {m} + {s.nextMsg}
               && (forall n | n in s.messages && n != m :: t.messages[n] == s.messages[n])
               && t.replays == s.replays
  {
  }
}
