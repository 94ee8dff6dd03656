/**
 The consumer's lease: who may touch a marker, when two handler runs may overlap, and what a deleted
 message means.
 */
module EventLeases {
  import opened Options
  import opened EventPipeline

  /** A worker past its claim carries the token it claimed with. */
  predicate HasToken(w: Worker)
  {
    w.Handling? || w.Upgrading? || w.Releasing?
  }

  predicate TokensFresh(s: State)
  {
    && (forall at | at in s.markers && s.markers[at].Lease? :: s.markers[at].token < s.nextToken)
    && (forall w | w in s.workers && HasToken(s.workers[w]) :: s.workers[w].token < s.nextToken)
  }

  predicate TokensUnique(s: State)
  {
    forall v, w | v in s.workers && w in s.workers && v != w && HasToken(s.workers[v]) && HasToken(s.workers[w]) ::
      s.workers[v].token != s.workers[w].token
  }

  /** A token still in hand is still in the marker, unless its lease ran out. */
  predicate HeldOrLapsed(s: State)
  {
    forall w | w in s.workers && HasToken(s.workers[w]) ::
      Owns(s, s.workers[w].at, s.workers[w].token) || s.workers[w].token in s.lapsed
  }

  /** The marker names the latest claim of its spot. */
  predicate LatestOwns(s: State)
  {
    forall w | w in s.workers && HasToken(s.workers[w]) && s.workers[w].at in s.markers
        && s.markers[s.workers[w].at].Lease? ::
      s.workers[w].token <= s.markers[s.workers[w].at].token
  }

  predicate LeaseInv(s: State)
  {
    TokensFresh(s) && TokensUnique(s) && HeldOrLapsed(s) && LatestOwns(s)
  }

  // ---------------------------------------------------------------- who touches a marker

  /** Every change of a marker by a consumer, read off its call. */
  lemma MarkerChange(s: State, f: Worker, at: Spot)
    ensures var m := MarkersAfter(s, f);
            (if at in m then Some(m[at]) else None) == (if at in s.markers then Some(s.markers[at]) else None)
            || (at == f.at && ((f.Claiming? && at !in s.markers && at in m && m[at] == Lease(s.nextToken))
                || (f.Upgrading? && Owns(s, at, f.token) && at in m && m[at] == Done)
                || (f.Releasing? && Owns(s, at, f.token) && at !in m)))
  {
  }

  /**
   No worker overwrites or removes another's token: a lease leaves its marker only by running out, or
   by the very worker that claimed it completing or releasing.
   */
  lemma OnlyOwnerTouches(s: State, a: Action, at: Spot, t: Token)
    requires Enabled(s, a) && Owns(s, at, t) && !Owns(Do(s, a), at, t)
    ensures a == Expires(at)
            || (a.Works? && HasToken(s.workers[a.w]) && s.workers[a.w].token == t && s.workers[a.w].at == at)
  {
    if a.Works? {
      MarkerChange(s, s.workers[a.w], at);
    }
    hide MarkersAfter, MessagesAfter, NextCall, WithWorker, Deliveries, Locked;
  }

  /** A completion marker is only ever lost by running out. */
  lemma DoneOnlyExpires(s: State, a: Action, at: Spot)
    requires Enabled(s, a) && IsDone(s, at) && !IsDone(Do(s, a), at)
    ensures a == Expires(at)
  {
    if a.Works? {
      MarkerChange(s, s.workers[a.w], at);
    }
    hide MarkersAfter, MessagesAfter, NextCall, WithWorker, Deliveries, Locked;
  }

  /** A message is deleted only after a handler completed its event there, or once a younger copy stands in. */
  lemma DeletedMeansHandled(s: State, a: Action, m: MsgId)
    requires Inv(s) && Enabled(s, a) && m in s.messages && m !in Do(s, a).messages
    ensures (a.Works? && s.messages[m].at in s.completed) || (a.Discard? && Covered(Do(s, a), s.messages[m].at, m))
  {
    StepKeeps(s, a);
    if a.Works? {
      assert WorkerOk(s, s.workers[a.w]);
    }
    hide OutboxOk, ReplaysOk, WorkersOk, MarkersOk, Covered, NextCall, MarkersAfter, WithWorker, Locked, Deliveries;
  }

  // ---------------------------------------------------------------- the invariant

  /** How a consumer's call moves its token. */
  lemma TokenChange(s: State, w: nat, ok: bool)
    requires w in s.workers
    ensures var t := Work(s, w, ok);
            && (forall v | v in t.workers && v != w :: v in s.workers && t.workers[v] == s.workers[v])
            && (w in t.workers && HasToken(t.workers[w]) ==>
                  t.workers[w].at == s.workers[w].at
                  && (if HasToken(s.workers[w])
                      then t.workers[w].token == s.workers[w].token && t.markers == s.markers
                      else t.workers[w].token == s.nextToken && s.workers[w].Claiming?
                           && s.workers[w].at !in s.markers
                               && t.markers == s.markers[s.workers[w].at := Lease(s.nextToken)]))
  {
    hide MessagesAfter;
  }

  lemma FreshKept(s: State, w: nat, ok: bool)
    requires LeaseInv(s) && w in s.workers
    ensures TokensFresh(Work(s, w, ok)) && TokensUnique(Work(s, w, ok))
  {
    TokenChange(s, w, ok);
    forall at ensures var m := MarkersAfter(s, s.workers[w]); at in m && m[at].Lease? ==>
        m[at].token < s.nextToken + 1 {
      MarkerChange(s, s.workers[w], at);
    }
    hide MarkersAfter, MessagesAfter, NextCall, WithWorker, HeldOrLapsed, LatestOwns;
  }

  /** A worker other than the one that just acted keeps its claim. */
  lemma BystanderKept(s: State, w: nat, ok: bool, v: nat)
    requires LeaseInv(s) && w in s.workers && v in s.workers && v != w && HasToken(s.workers[v])
    ensures var t := Work(s, w, ok);
            var f := s.workers[v];
            && (Owns(t, f.at, f.token) || f.token in t.lapsed)
            && (f.at in t.markers && t.markers[f.at].Lease? ==> f.token <= t.markers[f.at].token)
  {
    MarkerChange(s, s.workers[w], s.workers[v].at);
    hide MarkersAfter, MessagesAfter, NextCall, WithWorker;
  }

  lemma ActorKept(s: State, w: nat, ok: bool)
    requires LeaseInv(s) && w in s.workers
    ensures var t := Work(s, w, ok);
            w in t.workers && HasToken(t.workers[w]) ==>
              var f := t.workers[w];
              && (Owns(t, f.at, f.token) || f.token in t.lapsed)
              && (f.at in t.markers && t.markers[f.at].Lease? ==> f.token <= t.markers[f.at].token)
  {
    TokenChange(s, w, ok);
    hide MarkersAfter, MessagesAfter, NextCall, WithWorker, TokensUnique, TokensFresh;
  }

  lemma WorkKeepsLeases(s: State, w: nat, ok: bool)
    requires LeaseInv(s) && w in s.workers
    ensures LeaseInv(Work(s, w, ok))
  {
    FreshKept(s, w, ok);
    TokenChange(s, w, ok);
    ActorKept(s, w, ok);
    var t := Work(s, w, ok);
    hide Work, TokensFresh, TokensUnique, Owns;
    forall v | v in t.workers && v != w && HasToken(t.workers[v])
      ensures Owns(t, t.workers[v].at, t.workers[v].token) || t.workers[v].token in t.lapsed
      ensures t.workers[v].at in t.markers && t.markers[t.workers[v].at].Lease? ==>
                t.workers[v].token <= t.markers[t.workers[v].at].token
    {
      BystanderKept(s, w, ok, v);
    }
  }

  lemma QuietKeepsLeases(s: State, t: State)
    requires LeaseInv(s) && t.markers == s.markers && t.nextToken == s.nextToken && t.lapsed == s.lapsed
    requires forall w | w in t.workers && HasToken(t.workers[w]) :: w in s.workers && t.workers[w] == s.workers[w]
    ensures LeaseInv(t)
  {
  }

  lemma ExpiryKeepsLeases(s: State, at: Spot)
    requires LeaseInv(s) && at in s.markers
    ensures LeaseInv(Do(s, Expires(at)))
  {
  }

  lemma DoKeepsLeases(s: State, a: Action)
    requires LeaseInv(s) && Enabled(s, a)
    ensures LeaseInv(Do(s, a))
  {
    hide LeaseInv, Work, Deliveries, Locked;
    match a
    case Works(w, ok) => WorkKeepsLeases(s, w, ok);
    case Expires(at) => ExpiryKeepsLeases(s, at);
    case _ => QuietKeepsLeases(s, Do(s, a));
  }

  lemma {:induction false} RunKeepsLeases(s: State, run: seq<Action>)
    requires LeaseInv(s) && Legal(s, run)
    ensures LeaseInv(Final(s, run))
    decreases |run|
  {
    hide LeaseInv, Enabled, Do;
    if run != [] {
      DoKeepsLeases(s, run[0]);
      RunKeepsLeases(Do(s, run[0]), run[1..]);
    }
  }

  /**
   Two handler runs for one event at one subscription overlap only if the earlier one's lease had run
   out: in every reachable state they hold different tokens, and the smaller token has lapsed.
   */
  lemma OverlapNeedsExpiry(s: State, run: seq<Action>, v: nat, w: nat)
    requires Init(s) && Legal(s, run)
    requires var t := Final(s, run);
             v in t.workers && w in t.workers && v != w && t.workers[v].Handling? && t.workers[w].Handling?
                 && t.workers[v].at == t.workers[w].at
    ensures var t := Final(s, run);
            && t.workers[v].token != t.workers[w].token
            && (if t.workers[v].token < t.workers[w].token then t.workers[v].token else t.workers[w].token) in t.lapsed
  {
    hide Legal, Final;
    RunKeepsLeases(s, run);
  }

  /** So while no lease has run out, at most one worker handles an event at a subscription. */
  lemma AtMostOneHandler(s: State, run: seq<Action>, v: nat, w: nat)
    requires Init(s) && Legal(s, run) && Final(s, run).lapsed == {}
    requires var t := Final(s, run);
             v in t.workers && w in t.workers && t.workers[v].Handling? && t.workers[w].Handling?
                 && t.workers[v].at == t.workers[w].at
    ensures v == w
  {
    hide Legal, Final;
    RunKeepsLeases(s, run);
  }
}
