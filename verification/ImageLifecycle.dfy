/**
 A product image from presign to reclaim: workers write renditions and then flip the row under a
 token-and-pending guard; what a flip replaces, what a stale flip wrote, and what a deleted product
 leaves are queued and drained later. Any worker may stop between any two steps, and any upload event
 may be delivered again, or replayed with other bytes, at any time.
 */
module ImageLifecycle {
  import opened Options
  import opened ImageKeys
  import opened Text

  /** One upload's content: a product, the upload token, and the content version of the bytes. */
  datatype Image = Image(product: string, token: string, version: string)

  datatype Product = Product(token: Option<string>, pending: bool, image: Option<Image>, deleted: bool)

  datatype Frame =
    | Writing(image: Image, n: nat)   // put `n` of the renditions; after the last, about to flip
    | Stale(image: Image)             // the flip did not apply: about to compare with the live image
    | Scheduling(image: Image)        // about to queue what it wrote
    | Draining(image: Image)          // claimed a reclaim: about to compare with the live image
    | Deleting(image: Image, n: nat)  // deleted `n` of the renditions

  datatype State = State(
    products: map<string, Product>, issued: set<(string, string)>,
    objects: set<string>, queue: set<Image>, frames: map<nat, Frame>)

  function Files(i: Image): seq<string>
  {
    Renditions(MainKey(i.product, i.token, i.version))
  }

  /** The image a live product serves. */
  function Current(s: State, product: string): Option<Image>
  {
    if product in s.products && !s.products[product].deleted then s.products[product].image else None
  }

  /** The guard of the flip: the product is live and waiting for exactly this upload. */
  predicate Awaited(s: State, i: Image)
  {
    && i.product in s.products && !s.products[i.product].deleted
    && s.products[i.product].pending && s.products[i.product].token == Some(i.token)
  }

  function Retire(queue: set<Image>, previous: Option<Image>, next: Image): set<Image>
  {
    if previous.Some? && previous.value != next then queue + {previous.value} else queue
  }

  function WithFrame(s: State, f: nat, next: Option<Frame>): map<nat, Frame>
  {
    if next.Some? then s.frames[f := next.value] else s.frames - {f}
  }

  function Flip(s: State, f: nat, i: Image): State
    requires i.product in s.products
  {
    var p := s.products[i.product];
    s.(products := s.products[i.product := p.(image := Some(i), pending := false)],
       queue := Retire(s.queue, p.image, i), frames := WithFrame(s, f, None))
  }

  function Work(s: State, f: nat): State
    requires f in s.frames
  {
    match s.frames[f]
    case Writing(i, n) =>
      if n < |Files(i)| then s.(objects := s.objects + {Files(i)[n]},
          frames := WithFrame(s, f, Some(Writing(i, n + 1))))
      else if Awaited(s, i) then Flip(s, f, i)
      else s.(frames := WithFrame(s, f, Some(Stale(i))))
    case Stale(i) =>
      s.(frames := WithFrame(s, f, if Current(s, i.product) == Some(i) then None else Some(Scheduling(i))))
    case Scheduling(i) => s.(queue := s.queue + {i}, frames := WithFrame(s, f, None))
    case Draining(i) =>
      if Current(s, i.product) == Some(i) then s.(queue := s.queue - {i}, frames := WithFrame(s, f, None))
      else s.(frames := WithFrame(s, f, Some(Deleting(i, 0))))
    case Deleting(i, n) =>
      if n < |Files(i)| then s.(objects := s.objects - {Files(i)[n]},
          frames := WithFrame(s, f, Some(Deleting(i, n + 1))))
      else s.(queue := s.queue - {i}, frames := WithFrame(s, f, None))
  }

  datatype Action =
    | Create(product: string)
    | Presign(product: string, token: string)   // a fresh token, and the product waits for it
    | Deliver(f: nat, image: Image)             // an upload event, first, repeated or replayed
    | Works(f: nat)
    | Stops(f: nat)
    | Fail(product: string, token: string)      // the upload was rejected
    | Expire(product: string, token: string)    // nothing was uploaded in time
    | Delete(product: string)
    | Claim(f: nat, image: Image)               // a drainer leases a reclaim

  predicate Waits(s: State, product: string, token: string)
  {
    Awaited(s, Image(product, token, ""))
  }

  predicate Enabled(s: State, a: Action)
  {
    match a
    case Create(p) => p !in s.products && ProductId(p)
    case Presign(p, t) => p in s.products && !s.products[p].deleted && Hex(t) && (p, t) !in s.issued
    case Deliver(f, i) => f !in s.frames && (i.product, i.token) in s.issued && Hex(i.version)
    case Works(f) => f in s.frames
    case Stops(f) => f in s.frames
    case Fail(p, t) => p in s.products
    case Expire(p, t) => p in s.products
    case Delete(p) => p in s.products && !s.products[p].deleted
    case Claim(f, i) => f !in s.frames && i in s.queue
  }

  function Do(s: State, a: Action): State
    requires Enabled(s, a)
  {
    match a
    case Create(p) => s.(products := s.products[p := Product(None, false, None, false)])
    case Presign(p, t) =>
      s.(products := s.products[p := s.products[p].(token := Some(t), pending := true)], issued := s.issued + {(p, t)})
    case Deliver(f, i) => s.(frames := s.frames[f := Writing(i, 0)])
    case Works(f) => Work(s, f)
    case Stops(f) => s.(frames := s.frames - {f})
    case Fail(p, t) => if Waits(s, p, t) then s.(products := s.products[p := s.products[p].(pending := false)]) else s
    case Expire(p, t) =>
      if Waits(s, p, t) then s.(products := s.products[p := s.products[p].(pending := false, token := None)]) else s
    case Delete(p) =>
      var row := s.products[p];
      s.(products := s.products[p := row.(deleted := true)],
         queue := if row.image.Some? then s.queue + {row.image.value} else s.queue)
    case Claim(f, i) => s.(frames := s.frames[f := Draining(i)])
  }

  predicate Init(s: State)
  {
    s.products == map[] && s.issued == {} && s.queue == {} && s.frames == map[]
  }

  predicate Legal(s: State, run: seq<Action>)
    decreases |run|
  {
    run == [] || (Enabled(s, run[0]) && Legal(Do(s, run[0]), run[1..]))
  }

  function Final(s: State, run: seq<Action>): State
    requires Legal(s, run)
    decreases |run|
  {
    if run == [] then s else Final(Do(s, run[0]), run[1..])
  }

  // ---------------------------------------------------------------- the invariant

  predicate Known(s: State, i: Image)
  {
    && i.product in s.products && ProductId(i.product) && Hex(i.token) && Hex(i.version)
    && (i.product, i.token) in s.issued
  }

  /** Not served now, and its upload is over: it can never be served again. */
  predicate Spent(s: State, i: Image)
  {
    Known(s, i) && Current(s, i.product) != Some(i) && !Awaited(s, i)
  }

  predicate Present(s: State, i: Image, n: nat)
  {
    forall k | 0 <= k < n && k < |Files(i)| :: Files(i)[k] in s.objects
  }

  predicate Served(s: State, i: Image)
  {
    Known(s, i) && !Awaited(s, i) && Present(s, i, |Files(i)|)
  }

  predicate FrameOk(s: State, f: Frame)
  {
    match f
    case Writing(i, n) => Known(s, i) && (Awaited(s, i) ==> Present(s, i, n))
    case Stale(i) => Known(s, i) && !Awaited(s, i)
    case Scheduling(i) => Spent(s, i)
    case Draining(i) => Spent(s, i)
    case Deleting(i, _) => Spent(s, i)
  }

  predicate IssuedOk(s: State)
  {
    forall x | x in s.issued :: x.0 in s.products && ProductId(x.0) && Hex(x.1)
  }

  predicate ProductsOk(s: State)
  {
    forall p | p in s.products ::
      && ProductId(p) && (s.products[p].token.Some? ==> (p, s.products[p].token.value) in s.issued)
      && (Current(s, p).Some? ==> Current(s, p).value.product == p && Served(s, Current(s, p).value))
  }

  predicate Inv(s: State)
  {
    && IssuedOk(s) && ProductsOk(s)
    && (forall i | i in s.queue :: Spent(s, i))
    && forall f | f in s.frames :: FrameOk(s, s.frames[f])
  }

  // ---------------------------------------------------------------- how a step may change the world

  /** Nothing becomes awaited again, and only an awaited image becomes served. */
  ghost predicate Onward(s: State, t: State)
  {
    && s.products.Keys <= t.products.Keys && s.issued <= t.issued
    && (forall i: Image | Known(s, i) && !Awaited(s, i) :: !Awaited(t, i))
    && (forall i: Image | Known(s, i) && Current(t, i.product) == Some(i) ::
        Current(s, i.product) == Some(i)
        || Awaited(s, i))
  }

  /** Objects that went away belonged to a spent image. */
  ghost predicate OnlySpentLost(s: State, t: State)
  {
    forall r | r in s.objects && r !in t.objects :: exists j: Image :: Spent(s, j) && r in Files(j)
  }

  lemma KnownKept(s: State, t: State, i: Image)
    requires Onward(s, t) && Known(s, i)
    ensures Known(t, i)
  {
  }

  lemma SpentKept(s: State, t: State, i: Image)
    requires Onward(s, t) && Spent(s, i)
    ensures Spent(t, i)
  {
    KnownKept(s, t, i);
  }

  lemma DifferentFiles(s: State, i: Image, j: Image, r: string)
    requires Known(s, i) && Known(s, j) && r in Files(i) && r in Files(j)
    ensures i == j
  {
    RenditionsDisjoint(i.product, i.token, i.version, j.product, j.token, j.version, r);
  }

  /** An image that is not spent loses no file. */
  lemma PresentKept(s: State, t: State, i: Image, n: nat)
    requires Known(s, i) && !Spent(s, i) && OnlySpentLost(s, t) && Present(s, i, n)
    ensures Present(t, i, n)
  {
    forall k | 0 <= k < n && k < |Files(i)| ensures Files(i)[k] in t.objects {
      var r := Files(i)[k];
      if r !in t.objects {
        var j: Image :| Spent(s, j) && r in Files(j);
        DifferentFiles(s, i, j, r);
      }
    }
  }

  lemma FrameKept(s: State, t: State, f: Frame)
    requires Onward(s, t) && OnlySpentLost(s, t) && FrameOk(s, f)
    ensures FrameOk(t, f)
  {
    KnownKept(s, t, f.image);
    match f
    case Writing(i, n) =>
      if Awaited(t, i) {
        PresentKept(s, t, i, n);
      }
    case Stale(i) =>
    case Scheduling(i) => SpentKept(s, t, i);
    case Draining(i) => SpentKept(s, t, i);
    case Deleting(i, _) => SpentKept(s, t, i);
  }

  lemma ServedKept(s: State, t: State, p: string)
    requires Inv(s) && Onward(s, t) && OnlySpentLost(s, t)
    requires p in s.products && p in t.products && Current(t, p).Some? && Current(t, p) == Current(s, p)
    ensures Served(t, Current(t, p).value) && Current(t, p).value.product == p
  {
    hide FrameOk, IssuedOk;
    var i := Current(s, p).value;
    KnownKept(s, t, i);
    PresentKept(s, t, i, |Files(i)|);
  }

  // ---------------------------------------------------------------- every step

  /** A change to one product that serves nothing new and waits for nothing old. */
  lemma RowOnward(s: State, t: State, p: string, row: Product)
    requires t.products == s.products[p := row] && s.issued <= t.issued
    requires row.pending && !row.deleted && row.token.Some? ==>
      (p, row.token.value) !in s.issued || (p in s.products && s.products[p].token == row.token
          && s.products[p].pending && !s.products[p].deleted)
    requires !row.deleted && row.image.Some? ==>
      !Known(s, row.image.value) || row.image.value.product != p || Current(s, p) == row.image
          || Awaited(s, row.image.value)
    ensures Onward(s, t)
  {
    forall i: Image | Known(s, i) && !Awaited(s, i) ensures !Awaited(t, i) {
    }
    forall i: Image | Known(s, i) && Current(t, i.product) == Some(i)
      ensures Current(s, i.product) == Some(i) || Awaited(s, i)
    {
    }
  }

  lemma SameRowsOnward(s: State, t: State)
    requires t.products == s.products && t.issued == s.issued
    ensures Onward(s, t)
  {
  }

  lemma WorkOnward(s: State, f: nat)
    requires Inv(s) && f in s.frames
    ensures Onward(s, Work(s, f))
  {
    hide Files, WithFrame, IssuedOk, ProductsOk, Retire;
    assert FrameOk(s, s.frames[f]);
    match s.frames[f]
    case Writing(i, n) =>
      if n >= |Files(i)| && Awaited(s, i) {
        RowOnward(s, Work(s, f), i.product, s.products[i.product].(image := Some(i), pending := false));
      } else {
        SameRowsOnward(s, Work(s, f));
      }
    case _ => SameRowsOnward(s, Work(s, f));
  }

  lemma DoOnward(s: State, a: Action)
    requires Inv(s) && Enabled(s, a)
    ensures Onward(s, Do(s, a))
  {
    var t := Do(s, a);
    hide Files, WithFrame, FrameOk, Onward, Spent, Served, Work, Retire;
    match a
    case Create(p) => RowOnward(s, t, p, Product(None, false, None, false));
    case Presign(p, k) => RowOnward(s, t, p, s.products[p].(token := Some(k), pending := true));
    case Works(f) => WorkOnward(s, f);
    case Fail(p, k) => RowOnward(s, t, p, t.products[p]);
    case Expire(p, k) => RowOnward(s, t, p, t.products[p]);
    case Delete(p) => RowOnward(s, t, p, s.products[p].(deleted := true));
    case _ => SameRowsOnward(s, t);
  }

  lemma WorkLoses(s: State, f: nat)
    requires Inv(s) && f in s.frames
    ensures OnlySpentLost(s, Work(s, f))
  {
    assert FrameOk(s, s.frames[f]);
    hide Files, WithFrame, IssuedOk, ProductsOk, Spent, Present, Retire, Awaited;
  }

  lemma DoLoses(s: State, a: Action)
    requires Inv(s) && Enabled(s, a)
    ensures OnlySpentLost(s, Do(s, a))
  {
    hide Files, WithFrame, FrameOk, IssuedOk, ProductsOk, Spent, Retire, Awaited, Work;
    if a.Works? {
      WorkLoses(s, a.f);
    }
  }

  lemma IssuedKept(s: State, a: Action)
    requires Inv(s) && Enabled(s, a) && Onward(s, Do(s, a))
    ensures IssuedOk(Do(s, a))
  {
    assert a.Works? ==> Do(s, a).issued == s.issued;
    hide Files, WithFrame, FrameOk, Served, Spent, Retire, Awaited, Work, ProductId, Hex;
  }

  /** What a step serves is what it served before, or what a flip just attached. */
  lemma NewlyServed(s: State, a: Action, p: string)
    requires Inv(s) && Enabled(s, a) && Onward(s, Do(s, a)) && OnlySpentLost(s, Do(s, a))
    requires p in Do(s, a).products && Current(Do(s, a), p).Some?
               && (p !in s.products || Current(Do(s, a), p) != Current(s, p))
    ensures Served(Do(s, a), Current(Do(s, a), p).value) && Current(Do(s, a), p).value.product == p
  {
    hide IssuedOk, ProductsOk, Files, WithFrame, Retire, Spent;
    assert a.Works? && s.frames[a.f].Writing?;
    var f := s.frames[a.f];
    assert FrameOk(s, f);
    var t := Do(s, a);
    assert t.objects == s.objects && f.n >= |Files(f.image)| && f.image.product == p;
    assert Present(t, f.image, |Files(f.image)|);
  }

  lemma TokensKept(s: State, a: Action)
    requires Inv(s) && Enabled(s, a)
    ensures forall p | p in Do(s, a).products ::
              ProductId(p) && (Do(s, a).products[p].token.Some? ==>
                  (p, Do(s, a).products[p].token.value) in Do(s, a).issued)
  {
    hide IssuedOk, FrameOk, Files, WithFrame, Retire, Spent, Served, ProductId;
  }

  lemma ProductsKept(s: State, a: Action)
    requires Inv(s) && Enabled(s, a) && Onward(s, Do(s, a)) && OnlySpentLost(s, Do(s, a))
    ensures ProductsOk(Do(s, a))
  {
    TokensKept(s, a);
    var t := Do(s, a);
    hide Inv, Do, Enabled, Onward, OnlySpentLost, Served;
    forall p | p in t.products && Current(t, p).Some?
      ensures Current(t, p).value.product == p && Served(t, Current(t, p).value)
    {
      if p in s.products && Current(t, p) == Current(s, p) {
        ServedKept(s, t, p);
      } else {
        NewlyServed(s, a, p);
      }
    }
  }

  /** What a step adds to the queue is spent. */
  lemma NewlyQueued(s: State, a: Action, i: Image)
    requires Inv(s) && Enabled(s, a) && Onward(s, Do(s, a)) && i in Do(s, a).queue && i !in s.queue
    ensures Spent(Do(s, a), i)
  {
    var t := Do(s, a);
    if a.Works? {
      FlipQueues(s, a.f, i);
    } else {
      hide Onward, FrameOk, Files, IssuedOk, WithFrame;
      assert a.Delete? && Current(s, a.product) == Some(i);
    }
  }

  lemma FlipQueues(s: State, f: nat, i: Image)
    requires Inv(s) && f in s.frames && Onward(s, Work(s, f)) && i in Work(s, f).queue && i !in s.queue
    ensures Spent(Work(s, f), i)
  {
    assert FrameOk(s, s.frames[f]);
    match s.frames[f]
    case Writing(next, n) =>
      hide Files, Onward, IssuedOk, WithFrame, Present;
      assert Current(s, next.product) == Some(i);
    case Scheduling(j) =>
      hide Files, IssuedOk, ProductsOk, WithFrame;
      SpentKept(s, Work(s, f), j);
    case _ => hide Files, Onward, IssuedOk, ProductsOk, WithFrame;
  }

  lemma QueueKept(s: State, a: Action)
    requires Inv(s) && Enabled(s, a) && Onward(s, Do(s, a))
    ensures forall i | i in Do(s, a).queue :: Spent(Do(s, a), i)
  {
    var t := Do(s, a);
    forall i | i in t.queue ensures Spent(t, i) {
      if i in s.queue {
        hide Onward, FrameOk, ProductsOk, IssuedOk, Do, Enabled, Spent;
        SpentKept(s, t, i);
      } else {
        hide Inv, Onward, Do, Enabled, Spent;
        NewlyQueued(s, a, i);
      }
    }
  }

  /** The frame that just worked knows what its next step needs. */
  lemma WorkerKept(s: State, f: nat)
    requires Inv(s) && f in s.frames && Onward(s, Work(s, f)) && OnlySpentLost(s, Work(s, f)) && f in Work(s, f).frames
    ensures FrameOk(Work(s, f), Work(s, f).frames[f])
  {
    var t := Work(s, f);
    assert FrameOk(s, s.frames[f]);
    FrameKept(s, t, s.frames[f]);
    hide Onward, OnlySpentLost, IssuedOk, ProductsOk, Known, Files;
    match s.frames[f]
    case Writing(i, n) =>
      if n < |Files(i)| && Awaited(t, i) {
        assert Present(t, i, n + 1);
      }
    case _ =>
  }

  lemma OthersUntouched(s: State, f: nat)
    requires f in s.frames
    ensures forall g | g in Work(s, f).frames && g != f :: g in s.frames && Work(s, f).frames[g] == s.frames[g]
  {
    hide Files, Awaited, Retire, Current;
  }

  lemma FramesKept(s: State, a: Action)
    requires Inv(s) && Enabled(s, a) && Onward(s, Do(s, a)) && OnlySpentLost(s, Do(s, a))
    ensures forall g | g in Do(s, a).frames :: FrameOk(Do(s, a), Do(s, a).frames[g])
  {
    var t := Do(s, a);
    forall g | g in s.frames ensures FrameOk(t, s.frames[g]) {
      FrameKept(s, t, s.frames[g]);
    }
    match a
    case Works(f) =>
      OthersUntouched(s, f);
      if f in t.frames {
        WorkerKept(s, f);
      }
      hide Work, FrameOk, Onward, OnlySpentLost;
    case Deliver(f, i) =>
      assert Known(t, i) && Present(t, i, 0);
      hide ProductsOk, Onward, OnlySpentLost;
    case Claim(f, i) =>
      SpentKept(s, t, i);
      hide ProductsOk, Onward, OnlySpentLost, Spent;
    case _ => hide Inv, FrameOk, Onward, OnlySpentLost, Waits, Awaited;
  }

  lemma DoKeepsInv(s: State, a: Action)
    requires Inv(s) && Enabled(s, a)
    ensures Inv(Do(s, a)) && Onward(s, Do(s, a))
  {
    hide Do, Enabled, Onward, OnlySpentLost, IssuedOk, ProductsOk, Spent, FrameOk;
    DoOnward(s, a);
    DoLoses(s, a);
    IssuedKept(s, a);
    ProductsKept(s, a);
    QueueKept(s, a);
    FramesKept(s, a);
  }

  lemma {:induction false} RunKeepsInv(s: State, run: seq<Action>)
    requires Inv(s) && Legal(s, run)
    ensures Inv(Final(s, run))
    ensures forall i: Image | Spent(s, i) :: Spent(Final(s, run), i)
    decreases |run|
  {
    hide Inv, Enabled, Do, Spent, Onward;
    if run != [] {
      var t := Do(s, run[0]);
      DoKeepsInv(s, run[0]);
      RunKeepsInv(t, run[1..]);
      forall i: Image | Spent(s, i) ensures Spent(Final(s, run), i) {
        SpentKept(s, t, i);
      }
    }
  }

  /** In every run, every rendition of every live product's current image exists. */
  lemma LiveImageNeverReclaimed(s: State, run: seq<Action>, p: string, r: string)
    requires Init(s) && Legal(s, run)
    requires var t := Final(s, run); Current(t, p).Some? && r in Files(Current(t, p).value)
    ensures r in Final(s, run).objects
  {
    hide Legal, Final, Files;
    RunKeepsInv(s, run);
    var t := Final(s, run);
    var i := Current(t, p).value;
    assert Served(t, i);
    var k :| 0 <= k < |Files(i)| && Files(i)[k] == r;
  }

  /** A retired image never comes back: once queued for reclaim, no continuation ever serves it again. */
  lemma RetiredNeverServedAgain(s: State, run: seq<Action>, more: seq<Action>, i: Image)
    requires Init(s) && Legal(s, run) && i in Final(s, run).queue && Legal(Final(s, run), more)
    ensures Current(Final(Final(s, run), more), i.product) != Some(i)
  {
    hide Legal, Final;
    RunKeepsInv(s, run);
    RunKeepsInv(Final(s, run), more);
  }
}
