/**
 Replaying dead-letter queues: send each message back to its source queue first, delete it second.
 */
module DeadLetters {

  type Message = nat
  type Queue = nat

  /** The most one receive may return. */
  const BATCH: nat := 10

  function Min(a: nat, b: nat): nat
  {
    if a < b then a else b
  }

  datatype Pair = Pair(source: seq<Message>, dead: seq<Message>)

  /** Nothing appears and nothing disappears: `n` messages changed sides, oldest first. */
  predicate Moved(before: Pair, after: Pair, n: nat)
  {
    n <= |before.dead| && after == Pair(before.source + before.dead[..n], before.dead[n..])
  }

  lemma MovedConserves(before: Pair, after: Pair, n: nat)
    requires Moved(before, after, n)
    ensures multiset(after.source) + multiset(after.dead) == multiset(before.source) + multiset(before.dead)
    ensures |after.source| == |before.source| + n
  {
    assert before.dead == before.dead[..n] + before.dead[n..];
  }

  lemma MovedOneMore(before: Pair, now: Pair, n: nat)
    requires Moved(before, now, n) && now.dead != []
    ensures Moved(before, Pair(now.source + [now.dead[0]], now.dead[1..]), n + 1)
  {
    assert before.dead[..n + 1] == before.dead[..n] + [before.dead[n]];
    assert now.dead[0] == before.dead[n];
  }

  /** No receive comes back empty before its time. */
  predicate NeverEmpty(offers: seq<nat>)
  {
    forall i | 0 <= i < |offers| :: offers[i] > 0
  }

  function OffersOf(offers: map<Queue, seq<nat>>, q: Queue): seq<nat>
  {
    if q in offers then offers[q] else []
  }

  class Replayer {
    var queues: map<Queue, Pair>

    constructor (queues: map<Queue, Pair>)
      ensures this.queues == queues
    {
      this.queues := queues;
    }

    /** One received batch; each message is sent before it is deleted. */
    method MoveBatch(queue: Queue, count: nat)
      requires queue in queues && count <= |queues[queue].dead|
      modifies this
      ensures queue in queues && queues == old(queues)[queue := queues[queue]]
      ensures Moved(old(queues)[queue], queues[queue], count)
    {
      var n := 0;
      ghost var before := queues[queue];
      assert before.dead[..0] == [];
      while n < count
        invariant 0 <= n <= count && queue in queues && queues == old(queues)[queue := queues[queue]]
        invariant Moved(before, queues[queue], n)
      {
        var pair := queues[queue];
        MovedOneMore(before, pair, n);
        var message := pair.dead[0];
        queues := queues[queue := Pair(pair.source + [message], pair.dead)];
        queues := queues[queue := Pair(pair.source + [message], pair.dead[1..])];
        n := n + 1;
      }
    }

    /**
     Moves at most `limit` messages. `offers` is how many the queue would return at each receive; past
     it, as many as asked. An empty answer ends the pass, so short of one it moves all it may.
     */
    method ReplayQueue(queue: Queue, limit: nat, offers: seq<nat>) returns (moved: nat)
      modifies this
      ensures queue !in old(queues) ==> moved == 0 && queues == old(queues)
      ensures queue in old(queues) ==>
                && queue in queues && queues == old(queues)[queue := queues[queue]]
                && moved <= Min(limit, |old(queues)[queue].dead|)
                && (NeverEmpty(offers) ==> moved == Min(limit, |old(queues)[queue].dead|))
                && Moved(old(queues)[queue], queues[queue], moved)
    {
      if queue !in queues {
        return 0;
      }
      moved := 0;
      var round := 0;
      ghost var before := queues[queue];
      assert Moved(before, before, 0);
      while moved < limit
        invariant 0 <= moved <= limit && queue in queues && queues == old(queues)[queue := queues[queue]]
        invariant Moved(before, queues[queue], moved)
        decreases limit - moved
      {
        var asked := Min(BATCH, limit - moved);
        var there := |queues[queue].dead|;
        var offered := if round < |offers| then offers[round] else asked;
        var count := Min(Min(asked, offered), there);
        if count == 0 {
          break;
        }
        ghost var now := queues[queue];
        MoveBatch(queue, count);
        MovedJoin(before, now, queues[queue], moved, count);
        moved := moved + count;
        round := round + 1;
      }
    }

    /** Every queue in turn, each with its own receives; the report has one entry per queue. */
    method ReplayAll(names: seq<Queue>, limit: nat, offers: map<Queue, seq<nat>>) returns (report: map<Queue, nat>)
      requires forall i, j | 0 <= i < j < |names| :: names[i] != names[j]
      modifies this
      ensures queues.Keys == old(queues).Keys
      ensures forall q :: q in report <==> q in names
      ensures forall q | q in names && q !in old(queues) :: report[q] == 0
      ensures forall q | q in queues && q in names ::
                && report[q] <= Min(limit, |old(queues)[q].dead|) && Moved(old(queues)[q], queues[q], report[q])
                && (NeverEmpty(OffersOf(offers, q)) ==> report[q] == Min(limit, |old(queues)[q].dead|))
      ensures forall q | q in queues && q !in names :: queues[q] == old(queues)[q]
    {
      report := map[];
      var n := 0;
      while n < |names|
        invariant 0 <= n <= |names| && queues.Keys == old(queues).Keys
        invariant forall q :: q in report <==> q in names[..n]
        invariant forall q | q in names[..n] && q !in old(queues) :: report[q] == 0
        invariant forall q | q in queues && q in names[..n] ::
                    && report[q] <= Min(limit, |old(queues)[q].dead|) && Moved(old(queues)[q], queues[q], report[q])
                    && (NeverEmpty(OffersOf(offers, q)) ==> report[q] == Min(limit, |old(queues)[q].dead|))
        invariant forall q | q in queues && q !in names[..n] :: queues[q] == old(queues)[q]
      {
        hide Moved, NeverEmpty;
        var queue := names[n];
        assert names[..n + 1] == names[..n] + [queue];
        assert queue !in names[..n];
        var moved := ReplayQueue(queue, limit, OffersOf(offers, queue));
        report := report[queue := moved];
        n := n + 1;
      }
      assert names[..n] == names;
    }
  }

  lemma MovedJoin(a: Pair, b: Pair, c: Pair, m: nat, n: nat)
    requires Moved(a, b, m) && Moved(b, c, n)
    ensures Moved(a, c, m + n)
  {
    assert a.dead[..m + n] == a.dead[..m] + a.dead[m..][..n];
    assert a.dead[m..][n..] == a.dead[m + n..];
  }
}
