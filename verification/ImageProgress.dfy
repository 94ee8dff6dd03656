/**
 The image workers, undisturbed: an awaited upload goes live with every rendition in place and what it
 replaces queued; an upload nobody waits for is queued for reclaim; and a drained image's files are gone.
 */
module ImageProgress {
  import opened Options
  import opened ImageKeys
  import opened ImageLifecycle

  /** Frame `f` takes every step. */
  predicate OnlyWorks(run: seq<Action>, f: nat)
  {
    forall i | 0 <= i < |run| :: run[i] == Works(f)
  }

  /** Where a worker that got the upload event for `i` must leave the product. */
  predicate UploadEnded(s: State, t: State, i: Image)
  {
    if Awaited(s, i) then
      && Current(t, i.product) == Some(i) && !Awaited(t, i) && Present(t, i, |Files(i)|)
      && t.queue == Retire(s.queue, s.products[i.product].image, i)
    else
      && t.products == s.products
      && t.queue == if Current(s, i.product) == Some(i) then s.queue else s.queue + {i}
  }

  /** Where a drainer must leave an image that is not served: off the queue, with no file left. */
  predicate DrainEnded(s: State, t: State, i: Image)
  {
    t.products == s.products && t.queue == s.queue - {i} && forall r | r in Files(i) :: r !in t.objects
  }

  predicate Track(s: State, x: State, f: Frame)
  {
    && x.products == s.products && x.queue == s.queue
    && match f
       case Writing(i, n) => n <= |Files(i)| && Present(x, i, n)
       case Stale(i) => !Awaited(s, i)
       case Scheduling(i) => !Awaited(s, i) && Current(s, i.product) != Some(i)
       case Draining(i) => Current(s, i.product) != Some(i)
       case Deleting(i, n) =>
         Current(s, i.product) != Some(i) && n <= |Files(i)| && forall k | 0 <= k < n :: Files(i)[k] !in x.objects
  }

  predicate Ended(s: State, t: State, f: Frame)
  {
    match f
    case Draining(i) => DrainEnded(s, t, i)
    case Deleting(i, _) => DrainEnded(s, t, i)
    case _ => UploadEnded(s, t, f.image)
  }

  predicate SameErrand(f: Frame, g: Frame)
  {
    f.image == g.image && ((f.Draining? || f.Deleting?) <==> (g.Draining? || g.Deleting?))
  }

  function StepsLeft(f: Frame): nat
  {
    match f
    case Writing(i, n) => (if n <= |Files(i)| then |Files(i)| - n else 0) + 3
    case Stale(_) => 2
    case Scheduling(_) => 1
    case Draining(i) => |Files(i)| + 2
    case Deleting(i, n) => (if n <= |Files(i)| then |Files(i)| - n else 0) + 1
  }

  lemma WriteOn(s: State, x: State, f: nat)
    requires f in x.frames && x.frames[f].Writing? && Track(s, x, x.frames[f])
    ensures var y := Do(x, Works(f));
            if f in y.frames then
              Track(s, y, y.frames[f]) && SameErrand(x.frames[f], y.frames[f])
              && StepsLeft(y.frames[f]) < StepsLeft(x.frames[f])
            else Ended(s, y, x.frames[f])
  {
    hide Files;
  }

  lemma DrainOn(s: State, x: State, f: nat)
    requires f in x.frames && !x.frames[f].Writing? && Track(s, x, x.frames[f])
    ensures var y := Do(x, Works(f));
            if f in y.frames then
              Track(s, y, y.frames[f]) && SameErrand(x.frames[f], y.frames[f])
              && StepsLeft(y.frames[f]) < StepsLeft(x.frames[f])
            else Ended(s, y, x.frames[f])
  {
    hide Files;
  }

  lemma {:induction false} Onwards(s: State, x: State, f: nat, run: seq<Action>)
    requires f in x.frames && Track(s, x, x.frames[f]) && Legal(x, run) && OnlyWorks(run, f)
    ensures |run| <= StepsLeft(x.frames[f])
    ensures f in Final(x, run).frames ==> |run| < StepsLeft(x.frames[f])
    ensures f !in Final(x, run).frames ==> Ended(s, Final(x, run), x.frames[f])
    decreases |run|
  {
    assert StepsLeft(x.frames[f]) > 0;
    hide Track, Ended, StepsLeft;
    if run != [] {
      if x.frames[f].Writing? {
        WriteOn(s, x, f);
      } else {
        DrainOn(s, x, f);
      }
      var y := Do(x, run[0]);
      assert OnlyWorks(run[1..], f);
      hide Do;
      if f in y.frames {
        Onwards(s, y, f, run[1..]);
        if f !in Final(y, run[1..]).frames {
          SameEnd(s, Final(x, run), x.frames[f], y.frames[f]);
        }
      } else {
        GoneIsDone(y, run[1..], f);
        assert Final(x, run) == y;
      }
    }
  }

  lemma SameEnd(s: State, t: State, f: Frame, g: Frame)
    requires SameErrand(f, g) && Ended(s, t, g)
    ensures Ended(s, t, f)
  {
    hide UploadEnded, DrainEnded;
  }

  lemma GoneIsDone(y: State, run: seq<Action>, f: nat)
    requires f !in y.frames && Legal(y, run) && OnlyWorks(run, f)
    ensures run == []
  {
  }

  /**
   An upload event, handled undisturbed: the awaited image goes live with all its renditions and replaces the
   one before, which is queued; any other leaves the product alone and is queued unless it is the one served.
   The worker takes one step per rendition and at most three more.
   */
  lemma UploadGoesLive(s: State, f: nat, i: Image, run: seq<Action>)
    requires Enabled(s, Deliver(f, i)) && OnlyWorks(run, f) && Legal(Do(s, Deliver(f, i)), run)
    ensures var t := Final(Do(s, Deliver(f, i)), run);
            && |run| <= |Files(i)| + 3
            && (f !in t.frames ==> UploadEnded(s, t, i))
  {
    hide UploadEnded, Final, Legal, Files;
    Onwards(s, Do(s, Deliver(f, i)), f, run);
  }

  /** A claimed reclaim, drained undisturbed: the image's files are gone and so is the task. */
  lemma DrainedIsGone(s: State, f: nat, i: Image, run: seq<Action>)
    requires Inv(s) && Enabled(s, Claim(f, i)) && OnlyWorks(run, f) && Legal(Do(s, Claim(f, i)), run)
    ensures var t := Final(Do(s, Claim(f, i)), run);
            && |run| <= |Files(i)| + 2
            && (f !in t.frames ==> DrainEnded(s, t, i))
  {
    hide DrainEnded, Final, Legal, Files;
    assert Spent(s, i);
    Onwards(s, Do(s, Claim(f, i)), f, run);
  }

  // ---------------------------------------------------------------- how a wait ends

  /** The action ends this very upload, or the product. */
  predicate EndsWait(s: State, a: Action, i: Image)
    requires Enabled(s, a)
  {
    || a == Fail(i.product, i.token) || a == Expire(i.product, i.token) || a == Delete(i.product)
    || (a.Presign? && a.product == i.product)
    || (a.Works? && s.frames[a.f].Writing? && s.frames[a.f].image.product == i.product
        && s.frames[a.f].image.token == i.token)
  }

  /**
   A product waits for its upload until that upload goes live, fails or expires, or is superseded, or the
   product is deleted: no other upload's end takes the wait away. A failure or an expiry of its own ends it
   and leaves what is served as it was.
   */
  lemma WaitEndsOnlyByItsOwn(s: State, a: Action, i: Image)
    requires Enabled(s, a) && Awaited(s, i)
    ensures !EndsWait(s, a, i) ==> Awaited(Do(s, a), i)
    ensures a == Fail(i.product, i.token) || a == Expire(i.product, i.token) ==>
              !Awaited(Do(s, a), i) && Current(Do(s, a), i.product) == Current(s, i.product)
    ensures a == Delete(i.product) || (a.Presign? && a.product == i.product && a.token != i.token) ==>
              !Awaited(Do(s, a), i)
  {
    hide Files;
  }
}
