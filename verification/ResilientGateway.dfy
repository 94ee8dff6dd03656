/**
 One logical gateway call: breaker gate, budget permit, bounded retries, one recorded outcome, permit
 always returned.
 */
module ResilientGateway {
  import opened CircuitBreaker

  /** How one attempt at the provider ends. */
  datatype Attempt = Succeeds | Transient | Definitive | Cancelled

  /** What the caller sees. */
  datatype Reply = Value | CircuitOpen | Shed | Unavailable | Refused | Stopped

  /** How asking for the permit goes. */
  datatype Asking = Grants | Sheds | CancelledAsking

  /** The last attempt the retry loop makes: the first that is not transient, or the last allowed. */
  function LastAttempt(tries: seq<Attempt>, attempts: nat): nat
    requires attempts > 0
  {
    if attempts == 1 || tries == [] || tries[0] != Transient then 0
    else 1 + LastAttempt(tries[1..], attempts - 1)
  }

  function Ending(tries: seq<Attempt>, n: nat): Attempt
  {
    if n < |tries| then tries[n] else Succeeds
  }

  /** Bounded: never more attempts than allowed, and everything before the last one was transient. */
  lemma {:induction false} RetriesAreBounded(tries: seq<Attempt>, attempts: nat)
    requires attempts > 0
    ensures LastAttempt(tries, attempts) < attempts && LastAttempt(tries, attempts) <= |tries|
    ensures forall i | 0 <= i < LastAttempt(tries, attempts) :: tries[i] == Transient
    ensures Ending(tries, LastAttempt(tries, attempts)) == Transient ==> LastAttempt(tries, attempts) == attempts - 1
  {
    if !(attempts == 1 || tries == [] || tries[0] != Transient) {
      RetriesAreBounded(tries[1..], attempts - 1);
      var n := LastAttempt(tries[1..], attempts - 1);
      forall i | 0 <= i < n + 1 ensures tries[i] == Transient {
        assert i > 0 ==> tries[i] == tries[1..][i - 1];
      }
    }
  }

  function ReplyOf(a: Attempt): Reply
  {
    match a
    case Succeeds => Value
    case Transient => Unavailable
    case Definitive => Refused
    case Cancelled => Stopped
  }

  class Gateway {
    var phase: Phase
    var failures: nat
    var openedAt: int
    var probes: int
    var inFlight: set<nat>
    var nextPermit: nat
    const settings: Settings
    const attempts: nat

    ghost function Snapshot(): Breaker
      reads this
    {
      Breaker(phase, failures, openedAt, probes)
    }

    ghost predicate Valid()
      reads this
    {
      attempts > 0 && forall p | p in inFlight :: p < nextPermit
    }

    constructor (settings: Settings, attempts: nat)
      requires attempts > 0
      ensures Valid() && Snapshot() == FRESH && inFlight == {}
      ensures this.settings == settings && this.attempts == attempts
    {
      phase, failures, openedAt, probes := Closed, 0, 0, 0;
      inFlight, nextPermit := {}, 0;
      this.settings, this.attempts := settings, attempts;
    }

    method AllowCall(now: int) returns (admits: bool)
      modifies this`phase, this`probes
      ensures Snapshot() == Allow(old(Snapshot()), settings, now).breaker
      ensures admits == Allow(old(Snapshot()), settings, now).admits
    {
      if phase == Closed {
        return true;
      }
      if phase == Open {
        if now - openedAt < settings.window {
          return false;
        }
        phase := HalfOpen;
      }
      if probes >= 1 {
        return false;
      }
      probes := probes + 1;
      return true;
    }

    method Trip(now: int)
      modifies this`phase, this`failures, this`openedAt
      ensures Snapshot() == Tripped(old(Snapshot()), now)
    {
      failures, openedAt, phase := 0, now, Open;
    }

    method RecordOutcome(o: Outcome, now: int)
      modifies this`phase, this`failures, this`openedAt, this`probes
      ensures Snapshot() == Record(old(Snapshot()), settings, o, now)
    {
      if o == Abandoned {
        if phase == HalfOpen {
          probes := if probes - 1 > 0 then probes - 1 else 0;
        }
        return;
      }
      if phase == Open {
        return;
      }
      if o == Answered {
        if phase == HalfOpen {
          probes := probes - 1;
          phase := Closed;
        }
        failures := 0;
      } else if phase == HalfOpen {
        probes := probes - 1;
        Trip(now);
      } else {
        failures := failures + 1;
        if failures >= settings.threshold {
          Trip(now);
        }
      }
    }

    /** The retry loop, under a permit: stop at the first answer that is not transient, or when the attempts run out. */
    method RetryTransient(tries: seq<Attempt>, permit: nat) returns (last: Attempt, made: nat)
      requires attempts > 0 && permit in inFlight
      ensures last == Ending(tries, LastAttempt(tries, attempts)) && made == LastAttempt(tries, attempts) + 1
    {
      made := 1;
      while true
        invariant 1 <= made <= attempts && made - 1 <= |tries|
        invariant LastAttempt(tries, attempts) == made - 1 + LastAttempt(tries[made - 1..], attempts - (made - 1))
        decreases attempts - made
      {
        last := Ending(tries, made - 1);
        if last != Transient || made == attempts {
          return;
        }
        assert tries[made - 1..][1..] == tries[made..];
        made := made + 1;
      }
    }

    /**
     The bracket: a refused gate touches nothing else; an admitted call records exactly one outcome, the
     one its reply stands for; and every permit taken is given back.
     */
    method Resilient(asking: Asking, tries: seq<Attempt>, now: int, later: int) returns (reply: Reply)
      requires Valid()
      modifies this
      ensures Valid() && inFlight == old(inFlight)
      ensures nextPermit == old(nextPermit) + if reply != CircuitOpen && asking == Grants then 1 else 0
      ensures var gate := Allow(old(Snapshot()), settings, now);
              && (reply == CircuitOpen <==> !gate.admits)
              && (reply == CircuitOpen ==> Snapshot() == gate.breaker)
              && (reply == Value || reply == Refused ==> Snapshot() == Record(gate.breaker, settings, Answered, later))
              && (reply == Unavailable ==> Snapshot() == Record(gate.breaker, settings, Faulted, later))
              && (reply == Shed || reply == Stopped ==>
                    Snapshot() == Record(gate.breaker, settings, Abandoned, later))
      ensures reply != CircuitOpen ==> (reply == Shed <==> asking == Sheds)
      ensures reply != CircuitOpen && asking == CancelledAsking ==> reply == Stopped
      ensures reply != CircuitOpen && asking == Grants ==>
                var last := Ending(tries, LastAttempt(tries, attempts));
                && (reply == Value <==> last == Succeeds)
                && (reply == Unavailable <==> last == Transient)
                && (reply == Refused <==> last == Definitive)
                && (reply == Stopped <==> last == Cancelled)
    {
      hide Allow, Record, LastAttempt;
      var admitted := AllowCall(now);
      if !admitted {
        return CircuitOpen;
      }
      if asking == CancelledAsking {
        RecordOutcome(Abandoned, later);
        return Stopped;
      }
      if asking == Sheds {
        RecordOutcome(Abandoned, later);
        return Shed;
      }
      var permit := nextPermit;
      nextPermit := nextPermit + 1;
      inFlight := inFlight + {permit};
      var last, made := RetryTransient(tries, permit);
      reply := ReplyOf(last);
      match last {
        case Succeeds => RecordOutcome(Answered, later);
        case Definitive => RecordOutcome(Answered, later);
        case Transient => RecordOutcome(Faulted, later);
        case Cancelled => RecordOutcome(Abandoned, later);
      }
      inFlight := inFlight - {permit};
    }
  }
}
