/**
 Checkout idempotency: the orders table decides, under one unique row per (user, key); the record store
 in front of it is a cache that may lose, refuse or never receive any record.
 */
module Idempotency {

  /** A user and the Idempotency-Key they sent. */
  type Spot = (nat, nat)

  datatype Status = Pending | Paid | Cancelled

  datatype Order = Order(id: nat, bodyHash: nat, lines: seq<nat>, status: Status)

  /** What the cache keeps: the body hash that pinned the key, and the stored response. */
  datatype Record = Record(bodyHash: nat, response: Order)

  datatype Request = Request(spot: Spot, bodyHash: nat)

  datatype Answer =
    | Mismatch               // same key, different body
    | Replayed(order: Order)
    | Resumes(order: Order)  // a crashed checkout is driven home
    | Dead                   // the checkout under this key was cancelled
    | New                    // nothing under this key yet

  /** A frame driving an order, with the body hash of the request behind it. */
  datatype Driver = Driver(spot: Spot, bodyHash: nat)

  datatype State = State(
    orders: map<Spot, Order>, records: map<Spot, Record>, nextId: nat,
    drivers: map<nat, Driver>,
    answers: seq<(Request, Answer)>, created: seq<(Spot, nat)>)

  /** The database path: replay, resume or refuse what stands under the key. */
  function FromTable(s: State, r: Request): Answer
  {
    if r.spot !in s.orders then New
    else
      var o := s.orders[r.spot];
      if o.bodyHash != r.bodyHash then Mismatch
      else match o.status
           case Paid => Replayed(o)
           case Pending => Resumes(o)
           case Cancelled => Dead
  }

  /** The fast path first; `hits` is false when the store is down or has lost the record. */
  function Consult(s: State, r: Request, hits: bool): Answer
  {
    if hits && r.spot in s.records then
      if s.records[r.spot].bodyHash != r.bodyHash then Mismatch else Replayed(s.records[r.spot].response)
    else FromTable(s, r)
  }

  datatype Action =
    | Ask(r: Request, hits: bool, writes: bool, frame: nat)        // a checkout call meets the key
    | Insert(r: Request, lines: seq<nat>, frame: nat)               // a call that found nothing inserts its order
    | Settle(spot: Spot, status: Status)                            // a drive, a cancel or the poller ends the order
    | Remember(frame: nat, writes: bool)                            // a drive that reads `paid` stores the answer
    | Leave(frame: nat)
    | Forget(spots: set<Spot>)                                      // eviction, expiry, an outage

  predicate Enabled(s: State, a: Action)
  {
    match a
    case Ask(_, _, _, frame) => frame !in s.drivers
    case Insert(_, _, frame) => frame !in s.drivers
    case Settle(spot, status) => spot in s.orders && s.orders[spot].status == Pending && status != Pending
    case Remember(frame, _) =>
      frame in s.drivers && s.drivers[frame].spot in s.orders && s.orders[s.drivers[frame].spot].status == Paid
    case Leave(frame) => frame in s.drivers
    case Forget(_) => true
  }

  function Stored(s: State, spot: Spot, record: Record, writes: bool): map<Spot, Record>
  {
    if writes then s.records[spot := record] else s.records
  }

  /** A call that resumes becomes a driver of the order. */
  function Joined(s: State, r: Request, a: Answer, frame: nat): map<nat, Driver>
  {
    if a.Resumes? then s.drivers[frame := Driver(r.spot, r.bodyHash)] else s.drivers
  }

  function Do(s: State, a: Action): State
    requires Enabled(s, a)
  {
    match a
    case Ask(r, hits, writes, frame) =>
      var answer := Consult(s, r, hits);
      s.(answers := s.answers + [(r, answer)], drivers := Joined(s, r, answer, frame),
         records := if answer.Replayed? then Stored(s, r.spot, Record(r.bodyHash, answer.order), writes) else s.records)
    case Insert(r, lines, frame) =>
      if r.spot in s.orders then
        // lost the create race: the winner's row is the truth
        s.(answers := s.answers + [(r, FromTable(s, r))], drivers := Joined(s, r, FromTable(s, r), frame))
      else
        s.(orders := s.orders[r.spot := Order(s.nextId, r.bodyHash, lines, Pending)], nextId := s.nextId + 1,
           created := s.created + [(r.spot, s.nextId)], drivers := s.drivers[frame := Driver(r.spot, r.bodyHash)])
    case Settle(spot, status) => s.(orders := s.orders[spot := s.orders[spot].(status := status)])
    case Remember(frame, writes) =>
      var d := s.drivers[frame];
      s.(records := Stored(s, d.spot, Record(d.bodyHash, s.orders[d.spot]), writes), drivers := s.drivers - {frame})
    case Leave(frame) => s.(drivers := s.drivers - {frame})
    case Forget(spots) => s.(records := s.records - spots)
  }

  const START := State(map[], map[], 0, map[], [], [])

  predicate Legal(s: State, run: seq<Action>)
    decreases |run|
  {
    run == [] || (Enabled(s, run[0]) && Legal(Do(s, run[0]), run[1..]))
  }

  function Final(s: State, run: seq<Action>): State
    requires Legal(s, run)
    decreases |run|
  {
    if run == [] then s else Final(Do(s, run[0]), run[1..])
  }

  // ---------------------------------------------------------------- the invariant

  /** Every record restates a paid order. */
  predicate RecordsTrue(s: State)
  {
    forall k | k in s.records ::
      k in s.orders && s.orders[k].status == Paid && s.records[k] == Record(s.orders[k].bodyHash, s.orders[k])
  }

  predicate DriversTrue(s: State)
  {
    forall f | f in s.drivers :: s.drivers[f].spot in s.orders
        && s.orders[s.drivers[f].spot].bodyHash == s.drivers[f].bodyHash
  }

  /** The orders created are the orders standing, one per key, ids in creation order. */
  predicate CreatedOnce(s: State)
  {
    && (forall i | 0 <= i < |s.created| ::
        s.created[i].1 < s.nextId && s.created[i].0 in s.orders
        && s.orders[s.created[i].0].id == s.created[i].1)
    && (forall i, j | 0 <= i < j < |s.created| :: s.created[i].1 < s.created[j].1)
  }

  predicate Inv(s: State)
  {
    RecordsTrue(s) && DriversTrue(s) && CreatedOnce(s)
  }

  /** The fast path and the table answer alike, for every request. */
  lemma FastPathAgrees(s: State, r: Request, hits: bool)
    requires RecordsTrue(s)
    ensures Consult(s, r, hits) == FromTable(s, r)
  {
  }

  lemma RecordsKept(s: State, a: Action)
    requires Inv(s) && Enabled(s, a)
    ensures RecordsTrue(Do(s, a))
  {
    if a.Ask? {
      FastPathAgrees(s, a.r, a.hits);
      hide Consult;
    }
    hide CreatedOnce;
  }

  lemma DriversKept(s: State, a: Action)
    requires Inv(s) && Enabled(s, a)
    ensures DriversTrue(Do(s, a))
  {
    if a.Ask? {
      FastPathAgrees(s, a.r, a.hits);
    }
    hide Consult, CreatedOnce, RecordsTrue, Stored;
  }

  lemma CreatedKept(s: State, a: Action)
    requires Inv(s) && Enabled(s, a)
    ensures CreatedOnce(Do(s, a))
  {
    hide Consult, FromTable, DriversTrue, RecordsTrue, Stored, Joined;
  }

  lemma DoKeepsInv(s: State, a: Action)
    requires Inv(s) && Enabled(s, a)
    ensures Inv(Do(s, a))
  {
    RecordsKept(s, a);
    DriversKept(s, a);
    CreatedKept(s, a);
  }

  lemma {:induction false} RunKeepsInv(s: State, run: seq<Action>)
    requires Inv(s) && Legal(s, run)
    ensures Inv(Final(s, run))
    decreases |run|
  {
    hide Inv, Enabled, Do;
    if run != [] {
      DoKeepsInv(s, run[0]);
      RunKeepsInv(Do(s, run[0]), run[1..]);
    }
  }

  // ---------------------------------------------------------------- the cache is invisible

  /** The same action in a world whose record store never answers and never keeps anything. */
  function Blind(a: Action): Action
  {
    match a
    case Ask(r, _, _, frame) => Ask(r, false, false, frame)
    case Remember(frame, _) => Remember(frame, false)
    case _ => a
  }

  function Blinded(run: seq<Action>): seq<Action>
  {
    if run == [] then [] else [Blind(run[0])] + Blinded(run[1..])
  }

  /** Equal but for the records. */
  predicate Same(s: State, t: State)
  {
    t == s.(records := t.records)
  }

  lemma StepsAgree(s: State, t: State, a: Action)
    requires RecordsTrue(s) && Same(s, t) && t.records == map[] && Enabled(s, a)
    ensures Enabled(t, Blind(a)) && Same(Do(s, a), Do(t, Blind(a))) && Do(t, Blind(a)).records == map[]
  {
    if a.Ask? {
      FastPathAgrees(s, a.r, a.hits);
    }
  }

  lemma {:induction false} RunsAgree(s: State, t: State, run: seq<Action>)
    requires Inv(s) && Same(s, t) && t.records == map[] && Legal(s, run)
    ensures Legal(t, Blinded(run)) && Same(Final(s, run), Final(t, Blinded(run)))
    decreases |run|
  {
    hide Inv, Enabled, Do, Blind;
    if run != [] {
      DoKeepsInv(s, run[0]);
      assert RecordsTrue(s) by { InvRecords(s); }
      StepsAgree(s, t, run[0]);
      RunsAgree(Do(s, run[0]), Do(t, Blind(run[0])), run[1..]);
      assert Blinded(run)[1..] == Blinded(run[1..]);
    }
  }

  lemma InvRecords(s: State)
    requires Inv(s)
    ensures RecordsTrue(s)
  {
  }

  /**
   The fast path refines the database path: whatever records are kept, lost, evicted or unreadable along
   a run, every answer and every order is the one the store-less run gives.
   */
  lemma CacheIsInvisible(run: seq<Action>)
    requires Legal(START, run)
    ensures Legal(START, Blinded(run))
    ensures Final(START, run).answers == Final(START, Blinded(run)).answers
    ensures Final(START, run).orders == Final(START, Blinded(run)).orders
    ensures Final(START, run).created == Final(START, Blinded(run)).created
  {
    hide Legal, Final;
    RunsAgree(START, START, run);
  }

  /** One (user, key) never yields two orders, and every record kept restates a paid one. */
  lemma OneOrderPerKey(run: seq<Action>)
    requires Legal(START, run)
    ensures var s := Final(START, run);
            && (forall i, j | 0 <= i < |s.created| && 0 <= j < |s.created| && s.created[i].0 == s.created[j].0 ::
                i == j)
            && RecordsTrue(s)
  {
    hide Legal, Final;
    RunKeepsInv(START, run);
  }

  // ---------------------------------------------------------------- every answer given is right

  /** What an answer promised, read off the table as it stands later. */
  predicate AnswerTrue(s: State, r: Request, a: Answer)
  {
    match a
    case New => true
    case Mismatch => r.spot in s.orders && s.orders[r.spot].bodyHash != r.bodyHash
    case Replayed(o) => r.spot in s.orders && s.orders[r.spot] == o && o.status == Paid && o.bodyHash == r.bodyHash
    case Resumes(o) =>
      && r.spot in s.orders && o.status == Pending && o.bodyHash == r.bodyHash
      && o == s.orders[r.spot].(status := Pending)
    case Dead => r.spot in s.orders && s.orders[r.spot].status == Cancelled && s.orders[r.spot].bodyHash == r.bodyHash
  }

  predicate AnswersTrue(s: State)
  {
    forall i | 0 <= i < |s.answers| :: AnswerTrue(s, s.answers[i].0, s.answers[i].1)
  }

  /** Orders keep their key, id, hash and lines, and once ended their status. */
  predicate OrdersStand(s: State, t: State)
  {
    forall k | k in s.orders ::
      && k in t.orders && t.orders[k] == s.orders[k].(status := t.orders[k].status)
      && (s.orders[k].status != Pending ==> t.orders[k] == s.orders[k])
  }

  lemma StepStands(s: State, a: Action)
    requires Enabled(s, a)
    ensures OrdersStand(s, Do(s, a))
  {
    hide Consult, FromTable, Stored, Joined;
  }

  lemma AnswerStands(s: State, t: State, r: Request, a: Answer)
    requires OrdersStand(s, t) && AnswerTrue(s, r, a)
    ensures AnswerTrue(t, r, a)
  {
  }

  /** What a call is told, in every state whose records are true and whether or not the store answers. */
  lemma AskIsRight(s: State, r: Request, hits: bool)
    requires RecordsTrue(s)
    ensures var a := Consult(s, r, hits);
            && (a == New <==> r.spot !in s.orders)
            && (r.spot in s.orders ==>
                  var o := s.orders[r.spot];
                  && (a == Mismatch <==> o.bodyHash != r.bodyHash)
                  && (a == Resumes(o) <==> o.bodyHash == r.bodyHash && o.status == Pending)
                  && (a == Replayed(o) <==> o.bodyHash == r.bodyHash && o.status == Paid)
                  && (a == Dead <==> o.bodyHash == r.bodyHash && o.status == Cancelled)
                  && a in {Mismatch, Resumes(o), Replayed(o), Dead})
            && AnswerTrue(s, r, a)
  {
  }

  lemma AnswersKept(s: State, a: Action)
    requires Inv(s) && AnswersTrue(s) && Enabled(s, a)
    ensures AnswersTrue(Do(s, a))
  {
    var t := Do(s, a);
    StepStands(s, a);
    forall i | 0 <= i < |s.answers| ensures AnswerTrue(t, s.answers[i].0, s.answers[i].1) {
      AnswerStands(s, t, s.answers[i].0, s.answers[i].1);
    }
    if a.Ask? {
      AskIsRight(s, a.r, a.hits);
      AnswerStands(s, t, a.r, Consult(s, a.r, a.hits));
    }
    if a.Insert? {
      AskIsRight(s, a.r, false);
      AnswerStands(s, t, a.r, FromTable(s, a.r));
    }
    hide Consult, FromTable, AnswerTrue, OrdersStand, Stored, Joined, Inv;
  }

  lemma {:induction false} AnswersStayTrue(s: State, run: seq<Action>)
    requires Inv(s) && AnswersTrue(s) && Legal(s, run)
    ensures AnswersTrue(Final(s, run)) && Inv(Final(s, run))
    decreases |run|
  {
    hide Inv, AnswersTrue, Enabled, Do;
    if run != [] {
      DoKeepsInv(s, run[0]);
      AnswersKept(s, run[0]);
      AnswersStayTrue(Do(s, run[0]), run[1..]);
    }
  }

  /**
   Every answer given along any run stays right to its end: a replay is the paid order still standing, a
   resumed order was pending and is the one under that key, a refusal means that order was cancelled, and
   a mismatch that its hash differs.
   */
  lemma EveryAnswerIsRight(run: seq<Action>)
    requires Legal(START, run)
    ensures AnswersTrue(Final(START, run))
  {
    hide Legal, Final;
    AnswersStayTrue(START, run);
  }

  /** A crashed checkout is driven home: a same-body call on a pending order resumes it, whatever the store does. */
  lemma PendingIsResumed(run: seq<Action>, r: Request, hits: bool, writes: bool, frame: nat)
    requires Legal(START, run) && Enabled(Final(START, run), Ask(r, hits, writes, frame))
    requires var s := Final(START, run);
             r.spot in s.orders && s.orders[r.spot].status == Pending && s.orders[r.spot].bodyHash == r.bodyHash
    ensures var s := Final(START, run);
            var t := Do(s, Ask(r, hits, writes, frame));
            && t.answers == s.answers + [(r, Resumes(s.orders[r.spot]))]
            && frame in t.drivers && t.drivers[frame] == Driver(r.spot, r.bodyHash) && t.orders == s.orders
  {
    hide Legal, Final;
    RunKeepsInv(START, run);
    AskIsRight(Final(START, run), r, hits);
  }

  /** A new key gets its order: pending, under the caller's hash and lines, with the caller driving it. */
  lemma NewKeyGetsItsOrder(run: seq<Action>, r: Request, lines: seq<nat>, frame: nat)
    requires Legal(START, run) && Enabled(Final(START, run), Insert(r, lines, frame))
    requires Consult(Final(START, run), r, false) == New
    ensures var s := Final(START, run);
            var t := Do(s, Insert(r, lines, frame));
            && r.spot in t.orders && t.orders[r.spot].status == Pending
            && t.orders[r.spot].bodyHash == r.bodyHash && t.orders[r.spot].lines == lines
            && t.orders.Keys == s.orders.Keys + {r.spot} && |t.created| == |s.created| + 1
            && frame in t.drivers && t.drivers[frame].spot == r.spot
            && (forall k | k in s.orders ::
                  k != r.spot && t.orders[k] == s.orders[k] && s.orders[k].id != t.orders[r.spot].id)
  {
    hide Legal, Final;
    RunKeepsInv(START, run);
    IdsStayBelow(START, run);
    AskIsRight(Final(START, run), r, false);
  }

  /** Whoever loses the create race gets the winner's row as its answer, and no second order is made. */
  lemma RaceLoserIsAnswered(run: seq<Action>, r: Request, lines: seq<nat>, frame: nat)
    requires Legal(START, run) && Enabled(Final(START, run), Insert(r, lines, frame))
    requires r.spot in Final(START, run).orders
    ensures var s := Final(START, run);
            var t := Do(s, Insert(r, lines, frame));
            && t.orders == s.orders && t.created == s.created && |t.answers| == |s.answers| + 1
            && t.answers[|s.answers|].0 == r && t.answers[|s.answers|].1 != New
            && AnswerTrue(s, r, t.answers[|s.answers|].1)
            && (t.answers[|s.answers|].1.Resumes? <==> frame in t.drivers && frame !in s.drivers)
  {
    hide Legal, Final;
    RunKeepsInv(START, run);
    AskIsRight(Final(START, run), r, false);
  }

  predicate IdsBelow(s: State)
  {
    forall k | k in s.orders :: s.orders[k].id < s.nextId
  }

  /** Ids are never reused. */
  lemma {:induction false} IdsStayBelow(s: State, run: seq<Action>)
    requires Legal(s, run) && IdsBelow(s)
    ensures IdsBelow(Final(s, run))
    decreases |run|
  {
    if run != [] {
      assert IdsBelow(Do(s, run[0]));
      hide IdsBelow, Do, Enabled;
      IdsStayBelow(Do(s, run[0]), run[1..]);
    }
  }

  /** A frame starts driving only an order that is pending at that moment, under its own hash. */
  lemma DriversJoinPendingOrders(run: seq<Action>, a: Action, frame: nat)
    requires Legal(START, run) && Enabled(Final(START, run), a)
    requires frame in Do(Final(START, run), a).drivers && frame !in Final(START, run).drivers
    ensures var t := Do(Final(START, run), a);
            var d := t.drivers[frame];
            d.spot in t.orders && t.orders[d.spot].status == Pending && t.orders[d.spot].bodyHash == d.bodyHash
  {
    hide Legal, Final;
    RunKeepsInv(START, run);
    var s := Final(START, run);
    if a.Ask? {
      AskIsRight(s, a.r, a.hits);
    }
    if a.Insert? {
      AskIsRight(s, a.r, false);
    }
    hide Inv, Consult, Stored;
  }

  lemma {:induction false} Ended(s: State, run: seq<Action>, spot: Spot)
    requires Legal(s, run) && spot in Final(s, run).orders && Final(s, run).orders[spot].status != Pending
    requires spot in s.orders ==> s.orders[spot].status == Pending
    ensures Settle(spot, Final(s, run).orders[spot].status) in run
    decreases |run|
  {
    if run != [] {
      var t := Do(s, run[0]);
      if spot in t.orders && t.orders[spot].status != Pending {
        assert run[0] == Settle(spot, t.orders[spot].status);
        EndedStays(t, run[1..], spot);
      } else {
        Ended(t, run[1..], spot);
        assert forall a | a in run[1..] :: a in run;
      }
    }
  }

  lemma {:induction false} EndedStays(s: State, run: seq<Action>, spot: Spot)
    requires Legal(s, run) && spot in s.orders && s.orders[spot].status != Pending
    ensures spot in Final(s, run).orders && Final(s, run).orders[spot] == s.orders[spot]
    decreases |run|
  {
    if run != [] {
      StepStands(s, run[0]);
      EndedStays(Do(s, run[0]), run[1..], spot);
    }
  }

  /** A call is refused as dead, or answered with a replay, only after the run cancelled, or paid, that key's order. */
  lemma TerminalAnswersWereSettled(run: seq<Action>, r: Request, hits: bool)
    requires Legal(START, run)
    ensures var a := Consult(Final(START, run), r, hits);
            && (a == Dead ==> Settle(r.spot, Cancelled) in run)
            && (a.Replayed? ==> Settle(r.spot, Paid) in run)
  {
    hide Legal, Final;
    RunKeepsInv(START, run);
    var s := Final(START, run);
    AskIsRight(s, r, hits);
    if r.spot in s.orders && s.orders[r.spot].status != Pending {
      Ended(START, run, r.spot);
    }
  }
}
