/**
 Events at least once: outbox rows claimed and stamped by relays, fanned out to one queue per
 subscription, consumed under a tokenised lease with a completion marker, redriven to a dead-letter
 queue and replayed from it. Any relay, worker or replayer may stop between any two of its steps, any
 publish may fail after reaching some queues, and any marker may expire at any time.
 */
module EventPipeline {
  import opened Options

  type EventId = nat
  type Sub = nat
  type MsgId = nat
  type Token = nat

  /** One event at one subscription: what a marker key names. */
  type Spot = (Sub, EventId)

  datatype Place = Queued | Dead

  datatype Msg = Msg(at: Spot, place: Place)

  datatype Marker = Lease(token: Token) | Done

  /** A consumer between two calls; it keeps the received message. */
  datatype Worker =
    | Checking(msg: MsgId, at: Spot)                  // about to look for the completion marker
    | Claiming(msg: MsgId, at: Spot)                  // about to set the lease if absent
    | Rechecking(msg: MsgId, at: Spot)                // lost the claim: about to look again
    | Handling(msg: MsgId, at: Spot, token: Token)    // running the handler
    | Upgrading(msg: MsgId, at: Spot, token: Token)   // handler done: about to complete if owner
    | Releasing(msg: MsgId, at: Spot, token: Token)   // handler raised: about to release if owner
    | Acking(msg: MsgId, at: Spot)                    // about to delete the message

  /** A relay's open transaction: the rows it locked, and the deliveries its publishes still owe. */
  datatype Relay = Relay(rows: set<EventId>, left: set<Spot>)

  /** A replayer that sent the copy and is about to delete the original. */
  datatype Replay = Replay(msg: MsgId, at: Spot)

  datatype State = State(
    subs: set<Sub>,
    outbox: map<EventId, bool>,
    messages: map<MsgId, Msg>, nextMsg: nat,
    markers: map<Spot, Marker>, nextToken: Token, lapsed: set<Token>,
    completed: set<Spot>,
    relays: map<nat, Relay>, workers: map<nat, Worker>, replays: map<nat, Replay>)

  // ---------------------------------------------------------------- steps

  /** A publish is accepted for every subscription of its event, or it raises. */
  function Deliveries(s: State, rows: set<EventId>): set<Spot>
  {
    set k, e | k in s.subs && e in rows :: (k, e)
  }

  function Delivered(s: State, at: Spot): State
  {
    s.(messages := s.messages[s.nextMsg := Msg(at, Queued)], nextMsg := s.nextMsg + 1)
  }

  predicate Owns(s: State, at: Spot, t: Token)
  {
    at in s.markers && s.markers[at] == Lease(t)
  }

  predicate IsDone(s: State, at: Spot)
  {
    at in s.markers && s.markers[at] == Done
  }

  /** Where a consumer goes after its call; `ok` is what the handler or the delete does. */
  function NextCall(s: State, f: Worker, ok: bool): Option<Worker>
  {
    match f
    case Checking(m, at) => Some(if IsDone(s, at) then Acking(m, at) else Claiming(m, at))
    case Claiming(m, at) => Some(if at in s.markers then Rechecking(m, at) else Handling(m, at, s.nextToken))
    case Rechecking(m, at) => if IsDone(s, at) then Some(Acking(m, at)) else None
    case Handling(m, at, t) => Some(if ok then Upgrading(m, at, t) else Releasing(m, at, t))
    case Upgrading(m, at, t) => if Owns(s, at, t) then Some(Acking(m, at)) else None
    case Releasing(m, at, t) => None
    case Acking(m, at) => None
  }

  /** What the call does to the marker store: set-if-absent, complete-if-owner, release-if-owner. */
  function MarkersAfter(s: State, f: Worker): map<Spot, Marker>
  {
    match f
    case Claiming(_, at) => if at in s.markers then s.markers else s.markers[at := Lease(s.nextToken)]
    case Upgrading(_, at, t) => if Owns(s, at, t) then s.markers[at := Done] else s.markers
    case Releasing(_, at, t) => if Owns(s, at, t) then s.markers - {at} else s.markers
    case _ => s.markers
  }

  /** A delete reaches only a message still on its queue. */
  function MessagesAfter(s: State, f: Worker, ok: bool): map<MsgId, Msg>
  {
    if f.Acking? && ok && f.msg in s.messages && s.messages[f.msg].place == Queued then s.messages - {f.msg}
        else s.messages
  }

  function WithWorker(s: State, w: nat, next: Option<Worker>): map<nat, Worker>
  {
    if next.Some? then s.workers[w := next.value] else s.workers - {w}
  }

  /** One call of a consumer. */
  function Work(s: State, w: nat, ok: bool): State
    requires w in s.workers
  {
    var f := s.workers[w];
    s.(workers := WithWorker(s, w, NextCall(s, f, ok)),
       markers := MarkersAfter(s, f),
       nextToken := s.nextToken + 1,
       completed := if f.Handling? && ok then s.completed + {f.at} else s.completed,
       messages := MessagesAfter(s, f, ok))
  }

  datatype Action =
    | Commit(e: EventId)                                // a service commits an outbox row
    | Claim(r: nat, rows: set<EventId>)                 // a relay locks unpublished rows
    | Publish(r: nat, at: Spot)                         // an accepted publish reaches one of its queues
    | PublishFails(r: nat)                              // a publish raises; the batch rolls back
    | Stamp(r: nat)                                     // marks the batch published and commits
    | RelayStops(r: nat)
    | Receive(w: nat, m: MsgId)
    | Works(w: nat, ok: bool)
    | WorkerStops(w: nat)
    | Expires(at: Spot)                                 // a lease or a completion marker runs out
    | Redrive(m: MsgId)
    | Resend(p: nat, m: MsgId)                          // replay: send the copy first
    | Discard(p: nat)                                   // then delete the original
    | ReplayStops(p: nat)

  predicate Locked(s: State, e: EventId)
  {
    exists r | r in s.relays :: e in s.relays[r].rows
  }

  predicate Enabled(s: State, a: Action)
  {
    match a
    case Commit(e) => e !in s.outbox
    case Claim(r, rows) => r !in s.relays && forall e | e in rows :: e in s.outbox && !s.outbox[e] && !Locked(s, e)
    case Publish(r, at) => r in s.relays && at in s.relays[r].left
    case PublishFails(r) => r in s.relays && s.relays[r].left != {}
    case Stamp(r) => r in s.relays && s.relays[r].left == {}
    case RelayStops(r) => r in s.relays
    case Receive(w, m) => w !in s.workers && m in s.messages && s.messages[m].place == Queued
    case Works(w, _) => w in s.workers
    case WorkerStops(w) => w in s.workers
    case Expires(at) => at in s.markers
    case Redrive(m) => m in s.messages
    case Resend(p, m) => p !in s.replays && m in s.messages && s.messages[m].place == Dead
    case Discard(p) => p in s.replays
    case ReplayStops(p) => p in s.replays
  }

  function Do(s: State, a: Action): State
    requires Enabled(s, a)
  {
    match a
    case Commit(e) => s.(outbox := s.outbox[e := false])
    case Claim(r, rows) => s.(relays := s.relays[r := Relay(rows, Deliveries(s, rows))])
    case Publish(r, at) =>
      Delivered(s, at).(relays := s.relays[r := s.relays[r].(left := s.relays[r].left - {at})])
    case PublishFails(r) => s.(relays := s.relays - {r})
    case Stamp(r) =>
      s.(outbox := map e | e in s.outbox :: s.outbox[e] || e in s.relays[r].rows, relays := s.relays - {r})
    case RelayStops(r) => s.(relays := s.relays - {r})
    case Receive(w, m) => s.(workers := WithWorker(s, w, Some(Checking(m, s.messages[m].at))))
    case Works(w, ok) => Work(s, w, ok)
    case WorkerStops(w) => s.(workers := WithWorker(s, w, None))
    case Expires(at) =>
      s.(markers := s.markers - {at},
         lapsed := if s.markers[at].Lease? then s.lapsed + {s.markers[at].token} else s.lapsed)
    case Redrive(m) => s.(messages := s.messages[m := s.messages[m].(place := Dead)])
    case Resend(p, m) =>
      s.(messages := s.messages[s.nextMsg := s.messages[m].(place := Queued)], nextMsg := s.nextMsg + 1,
         replays := s.replays[p := Replay(m, s.messages[m].at)])
    case Discard(p) => s.(messages := s.messages - {s.replays[p].msg}, replays := s.replays - {p})
    case ReplayStops(p) => s.(replays := s.replays - {p})
  }

  predicate Init(s: State)
  {
    && s.outbox == map[] && s.messages == map[] && s.markers == map[] && s.lapsed == {} && s.completed == {}
    && s.relays == map[] && s.workers == map[] && s.replays == map[]
  }

  predicate Legal(s: State, run: seq<Action>)
    decreases |run|
  {
    run == [] || (Enabled(s, run[0]) && Legal(Do(s, run[0]), run[1..]))
  }

  function Final(s: State, run: seq<Action>): State
    requires Legal(s, run)
    decreases |run|
  {
    if run == [] then s else Final(Do(s, run[0]), run[1..])
  }

  // ---------------------------------------------------------------- nothing is lost

  /** Handled there, or a message younger than `above` still carries it. */
  predicate Covered(s: State, at: Spot, above: int)
  {
    at in s.completed || exists m :: m in s.messages && m > above && s.messages[m].at == at
  }

  /** A message id the holder read as `at`: still that, or gone. */
  predicate Carries(s: State, m: MsgId, at: Spot)
  {
    m < s.nextMsg && (m in s.messages ==> s.messages[m].at == at)
  }

  predicate IdsOk(s: State)
  {
    forall m | m in s.messages :: m < s.nextMsg
  }

  predicate ReplaysOk(s: State)
  {
    forall p | p in s.replays ::
      Carries(s, s.replays[p].msg, s.replays[p].at) && Covered(s, s.replays[p].at, s.replays[p].msg)
  }

  predicate WorkerOk(s: State, w: Worker)
  {
    Carries(s, w.msg, w.at) && (w.Acking? || w.Upgrading? ==> w.at in s.completed)
  }

  predicate WorkersOk(s: State)
  {
    forall w | w in s.workers :: WorkerOk(s, s.workers[w])
  }

  predicate MarkersOk(s: State)
  {
    forall at | at in s.markers && s.markers[at] == Done :: at in s.completed
  }

  predicate RelayOk(s: State, r: Relay)
  {
    forall k, e | k in s.subs && e in r.rows && (k, e) !in r.left :: Covered(s, (k, e), -1)
  }

  predicate OutboxOk(s: State)
  {
    && (forall k, e | k in s.subs && e in s.outbox && s.outbox[e] :: Covered(s, (k, e), -1))
    && (forall r | r in s.relays :: RelayOk(s, s.relays[r]))
  }

  predicate Inv(s: State)
  {
    IdsOk(s) && ReplaysOk(s) && WorkersOk(s) && MarkersOk(s) && OutboxOk(s)
  }

  /** What no step takes back: what was covered stays covered, and a message id keeps its meaning. */
  predicate Keeps(s: State, t: State)
  {
    && t.subs == s.subs && s.completed <= t.completed && s.nextMsg <= t.nextMsg
    && (forall m | m in s.messages && m !in t.messages :: Covered(t, s.messages[m].at, m))
    && (forall m | m in t.messages && m < s.nextMsg :: m in s.messages && t.messages[m].at == s.messages[m].at)
    && IdsOk(t)
  }

  lemma CoverKept(s: State, t: State, at: Spot, above: int)
    requires IdsOk(s) && Keeps(s, t) && Covered(s, at, above)
    ensures Covered(t, at, above)
  {
    if at !in s.completed {
      var m :| m in s.messages && m > above && s.messages[m].at == at;
      if m !in t.messages {
        assert Covered(t, at, m);
        if at !in t.completed {
          var n :| n in t.messages && n > m && t.messages[n].at == at;
          assert n > above;
        }
      }
    }
  }

  lemma CarryKept(s: State, t: State, m: MsgId, at: Spot)
    requires Keeps(s, t) && Carries(s, m, at)
    ensures Carries(t, m, at)
  {
  }

  /** A step that touches no message and forgets no completion. */
  lemma SameMessages(s: State, t: State)
    requires IdsOk(s) && t.messages == s.messages && t.nextMsg == s.nextMsg && t.subs == s.subs
               && s.completed <= t.completed
    ensures Keeps(s, t)
  {
  }

  lemma OneMessageMore(s: State, t: State, msg: Msg)
    requires IdsOk(s) && t.messages == s.messages[s.nextMsg := msg] && t.nextMsg == s.nextMsg + 1
    requires t.subs == s.subs && s.completed <= t.completed
    ensures Keeps(s, t)
  {
  }

  lemma OneMessageLess(s: State, t: State, m: MsgId)
    requires IdsOk(s) && m in s.messages && t.messages == s.messages - {m} && t.nextMsg == s.nextMsg
    requires t.subs == s.subs && s.completed == t.completed && Covered(s, s.messages[m].at, m)
    ensures Keeps(s, t)
  {
    var at := s.messages[m].at;
    if at !in s.completed {
      var n :| n in s.messages && n > m && s.messages[n].at == at;
      assert n in t.messages;
    }
    assert Covered(t, at, m);
  }

  lemma OneMessageMoved(s: State, t: State, m: MsgId, place: Place)
    requires IdsOk(s) && m in s.messages && t.messages == s.messages[m := s.messages[m].(place := place)]
    requires t.nextMsg == s.nextMsg && t.subs == s.subs && s.completed == t.completed
    ensures Keeps(s, t)
  {
  }

  /** A consumer touches messages, markers and its own progress, nothing else. */
  lemma WorkFrame(s: State, w: nat, ok: bool)
    requires w in s.workers
    ensures var t := Work(s, w, ok);
            && t.subs == s.subs && t.outbox == s.outbox && t.relays == s.relays && t.replays == s.replays
            && t.nextMsg == s.nextMsg && s.completed <= t.completed
            && (t.messages == s.messages
                || (s.workers[w].Acking? && s.workers[w].msg in s.messages
                    && t.messages == s.messages - {s.workers[w].msg} && t.completed == s.completed))
  {
    hide NextCall, MarkersAfter, WithWorker;
  }

  lemma WorkKeeps(s: State, w: nat, ok: bool)
    requires Inv(s) && w in s.workers
    ensures Keeps(s, Work(s, w, ok))
  {
    var at, m := s.workers[w].at, s.workers[w].msg;
    assert WorkerOk(s, s.workers[w]);
    hide Keeps, OutboxOk, MarkersOk, ReplaysOk, IdsOk, Work, WorkersOk;
    WorkFrame(s, w, ok);
    var t := Work(s, w, ok);
    if t.messages == s.messages {
      SameMessages(s, t);
    } else {
      OneMessageLess(s, t, m);
    }
  }

  lemma StepKeeps(s: State, a: Action)
    requires Inv(s) && Enabled(s, a)
    ensures Keeps(s, Do(s, a))
  {
    hide Keeps, OutboxOk, MarkersOk, WorkersOk, IdsOk, Covered, Work;
    var t := Do(s, a);
    match a
    case Publish(r, at) => OneMessageMore(s, t, Msg(at, Queued));
    case Works(w, ok) => WorkKeeps(s, w, ok);
    case Redrive(m) => OneMessageMoved(s, t, m, Dead);
    case Resend(p, m) => OneMessageMore(s, t, s.messages[m].(place := Queued));
    case Discard(p) =>
      if s.replays[p].msg in s.messages {
        OneMessageLess(s, t, s.replays[p].msg);
      } else {
        assert t.messages == s.messages;
        SameMessages(s, t);
      }
    case _ => SameMessages(s, t);
  }

  // ---------------------------------------------------------------- each part of the invariant

  lemma RelayKept(s: State, t: State, r: Relay)
    requires IdsOk(s) && Keeps(s, t) && RelayOk(s, r)
    ensures RelayOk(t, r)
  {
    forall k, e | k in t.subs && e in r.rows && (k, e) !in r.left ensures Covered(t, (k, e), -1) {
      CoverKept(s, t, (k, e), -1);
    }
  }

  lemma PublishPays(s: State, r: nat, at: Spot)
    requires Inv(s) && Enabled(s, Publish(r, at)) && Keeps(s, Do(s, Publish(r, at)))
    ensures RelayOk(Do(s, Publish(r, at)), Do(s, Publish(r, at)).relays[r])
  {
    hide Keeps;
    var t := Do(s, Publish(r, at));
    RelayKept(s, t, s.relays[r]);
    assert t.messages[s.nextMsg].at == at;
  }

  lemma RelaysKept(s: State, a: Action)
    requires Inv(s) && Enabled(s, a) && Keeps(s, Do(s, a))
    ensures forall r | r in Do(s, a).relays :: RelayOk(Do(s, a), Do(s, a).relays[r])
  {
    hide Keeps, RelayOk, Covered, ReplaysOk, WorkersOk, MarkersOk, IdsOk, Work, Deliveries, Locked;
    var t := Do(s, a);
    forall r | r in s.relays ensures RelayOk(t, s.relays[r]) {
      RelayKept(s, t, s.relays[r]);
    }
    if a.Works? {
      WorkFrame(s, a.w, a.ok);
    }
    if a.Publish? {
      PublishPays(s, a.r, a.at);
    }
    if a.Claim? {
      OwesEverything(s, t, a.rows);
    }
  }

  lemma OwesEverything(s: State, t: State, rows: set<EventId>)
    requires t.subs == s.subs
    ensures RelayOk(t, Relay(rows, Deliveries(s, rows)))
  {
  }

  lemma StampedReached(s: State, r: nat)
    requires Inv(s) && Enabled(s, Stamp(r))
    ensures forall k, e | k in s.subs && e in s.relays[r].rows :: Covered(s, (k, e), -1)
  {
    assert RelayOk(s, s.relays[r]);
  }

  lemma OutboxKept(s: State, a: Action)
    requires Inv(s) && Enabled(s, a) && Keeps(s, Do(s, a))
    ensures OutboxOk(Do(s, a))
  {
    hide ReplaysOk, WorkersOk, MarkersOk, Covered, Work, RelayOk, Locked, Deliveries;
    RelaysKept(s, a);
    var t := Do(s, a);
    if a.Works? {
      WorkFrame(s, a.w, a.ok);
    }
    if a.Stamp? {
      StampedReached(s, a.r);
    }
    forall k, e | k in t.subs && e in t.outbox && t.outbox[e] ensures Covered(t, (k, e), -1) {
      CoverKept(s, t, (k, e), -1);
    }
  }

  lemma ReplayKept(s: State, t: State, r: Replay)
    requires IdsOk(s) && Keeps(s, t) && Carries(s, r.msg, r.at) && Covered(s, r.at, r.msg)
    ensures Carries(t, r.msg, r.at) && Covered(t, r.at, r.msg)
  {
    CoverKept(s, t, r.at, r.msg);
    CarryKept(s, t, r.msg, r.at);
  }

  lemma ReplaysKept(s: State, a: Action)
    requires Inv(s) && Enabled(s, a) && Keeps(s, Do(s, a))
    ensures ReplaysOk(Do(s, a))
  {
    hide OutboxOk, WorkersOk, MarkersOk, Covered, Carries, Work, IdsOk, Keeps;
    var t := Do(s, a);
    if a.Works? {
      WorkFrame(s, a.w, a.ok);
    }
    forall p | p in s.replays
      ensures Carries(t, s.replays[p].msg, s.replays[p].at) && Covered(t, s.replays[p].at, s.replays[p].msg)
    {
      ReplayKept(s, t, s.replays[p]);
    }
    if a.Resend? {
      ResendCovers(s, a.p, a.m);
    }
  }

  lemma ResendCovers(s: State, p: nat, m: MsgId)
    requires IdsOk(s) && Enabled(s, Resend(p, m))
    ensures var t := Do(s, Resend(p, m)); Carries(t, m, s.messages[m].at) && Covered(t, s.messages[m].at, m)
  {
    var t := Do(s, Resend(p, m));
    assert t.messages[s.nextMsg].at == s.messages[m].at;
  }

  lemma WorkerKept(s: State, t: State, w: Worker)
    requires Keeps(s, t) && WorkerOk(s, w)
    ensures WorkerOk(t, w)
  {
  }

  lemma MarkersAfterWork(s: State, w: nat, ok: bool)
    requires MarkersOk(s) && w in s.workers && WorkerOk(s, s.workers[w])
    ensures MarkersOk(Work(s, w, ok))
  {
    hide Carries, NextCall, MessagesAfter, WithWorker;
  }

  lemma WorkerAfterWork(s: State, w: nat, ok: bool)
    requires MarkersOk(s) && w in s.workers && WorkerOk(s, s.workers[w])
    requires Carries(Work(s, w, ok), s.workers[w].msg, s.workers[w].at)
    ensures var t := Work(s, w, ok); w in t.workers ==> WorkerOk(t, t.workers[w])
    ensures var t := Work(s, w, ok); forall v | v in t.workers && v != w ::
              v in s.workers
              && t.workers[v] == s.workers[v]
  {
    hide Carries, MessagesAfter, MarkersAfter;
  }

  lemma WorkOk(s: State, w: nat, ok: bool)
    requires Inv(s) && w in s.workers && Keeps(s, Work(s, w, ok))
    ensures MarkersOk(Work(s, w, ok))
    ensures var t := Work(s, w, ok); w in t.workers ==> WorkerOk(t, t.workers[w])
    ensures var t := Work(s, w, ok); forall v | v in t.workers && v != w ::
              v in s.workers
              && t.workers[v] == s.workers[v]
  {
    hide OutboxOk, ReplaysOk, Work, IdsOk, Keeps, MarkersOk;
    assert WorkerOk(s, s.workers[w]);
    CarryKept(s, Work(s, w, ok), s.workers[w].msg, s.workers[w].at);
    MarkersAfterWork(s, w, ok);
    WorkerAfterWork(s, w, ok);
  }

  lemma WorkersKept(s: State, a: Action)
    requires Inv(s) && Enabled(s, a) && Keeps(s, Do(s, a))
    ensures WorkersOk(Do(s, a)) && MarkersOk(Do(s, a))
  {
    var t := Do(s, a);
    forall w | w in s.workers ensures WorkerOk(t, s.workers[w]) {
      WorkerKept(s, t, s.workers[w]);
    }
    if a.Works? {
      WorkOk(s, a.w, a.ok);
    }
    if a.Receive? {
      assert WorkerOk(t, Checking(a.m, s.messages[a.m].at));
    }
    hide OutboxOk, ReplaysOk, Keeps, WorkerOk, IdsOk, Work;
  }

  lemma DoKeepsInv(s: State, a: Action)
    requires Inv(s) && Enabled(s, a)
    ensures Inv(Do(s, a)) && Do(s, a).subs == s.subs
  {
    StepKeeps(s, a);
    assert IdsOk(Do(s, a));
    hide OutboxOk, ReplaysOk, WorkersOk, MarkersOk, IdsOk, Enabled, Do;
    OutboxKept(s, a);
    ReplaysKept(s, a);
    WorkersKept(s, a);
  }

  lemma {:induction false} RunKeepsInv(s: State, run: seq<Action>)
    requires Inv(s) && Legal(s, run)
    ensures Inv(Final(s, run)) && Final(s, run).subs == s.subs
    decreases |run|
  {
    hide Inv, Enabled, Do;
    if run != [] {
      DoKeepsInv(s, run[0]);
      RunKeepsInv(Do(s, run[0]), run[1..]);
    }
  }

  /** Every committed event, at every subscription: unpublished, queued, dead-lettered, or handled there. */
  lemma NoEventLost(s: State, run: seq<Action>, e: EventId, k: Sub)
    requires Init(s) && Legal(s, run) && e in Final(s, run).outbox && k in s.subs
    ensures var t := Final(s, run);
            || !t.outbox[e]
            || (exists m :: m in t.messages && t.messages[m] == Msg((k, e), Queued))
            || (exists m :: m in t.messages && t.messages[m] == Msg((k, e), Dead))
            || (k, e) in t.completed
  {
    hide Legal, Final;
    RunKeepsInv(s, run);
    var t := Final(s, run);
    if t.outbox[e] && (k, e) !in t.completed {
      assert Covered(t, (k, e), -1);
      var m :| m in t.messages && t.messages[m].at == (k, e);
      assert t.messages[m] == if t.messages[m].place == Queued then Msg((k, e), Queued) else Msg((k, e), Dead);
    }
  }
}
