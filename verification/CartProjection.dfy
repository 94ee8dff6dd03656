/**
 The cart's view of a product, folded over its events in whatever order and however often they arrive.
 A versioned update applies only when strictly newer; a version-less one only while nothing versioned is
 known; a deletion always wins and stays.
 */
module CartProjection {
  import opened Options

  /** `product_version` on the wire, and the name and price it carries. */
  datatype Update = Update(version: Option<int>, payload: nat)

  datatype Event = Updated(update: Update) | Deleted

  datatype View = Unknown | Known(update: Update) | Tombstone

  predicate ShouldApply(stored: Option<int>, incoming: Option<int>)
  {
    match incoming
    case None => stored.None?
    case Some(v) => stored.None? || v > stored.value
  }

  /** What the projection script does, test by test. */
  function Project(view: View, u: Update): View
  {
    match view
    case Tombstone => Tombstone
    case Unknown => Known(u)
    case Known(was) =>
      if u.version.None? && was.version.Some? then view
      else if u.version.Some? && was.version.Some? && u.version.value <= was.version.value then view
      else Known(u)
  }

  function Apply(view: View, e: Event): View
  {
    match e
    case Deleted => Tombstone
    case Updated(u) => Project(view, u)
  }

  function Fold(view: View, events: seq<Event>): View
    decreases |events|
  {
    if events == [] then view else Fold(Apply(view, events[0]), events[1..])
  }

  function Stored(view: View): Option<int>
  {
    if view.Known? then view.update.version else None
  }

  /** The script and the domain predicate are the same gate. */
  lemma ScriptIsTheGate(view: View, u: Update)
    requires view != Tombstone
    ensures Project(view, u) == if ShouldApply(Stored(view), u.version) then Known(u) else view
  {
  }

  // ---------------------------------------------------------------- convergence

  predicate Versioned(e: Event)
  {
    e.Updated? && e.update.version.Some?
  }

  /** A version names one payload. */
  predicate Consistent(events: seq<Event>)
  {
    forall i, j | 0 <= i < |events| && 0 <= j < |events| && Versioned(events[i]) && Versioned(events[j])
        && events[i].update.version == events[j].update.version ::
      events[i].update.payload == events[j].update.payload
  }

  predicate NoDeletion(events: seq<Event>)
  {
    forall i | 0 <= i < |events| :: events[i].Updated?
  }

  /** No versioned event among `events`, and none behind `view`, is newer than `v`. */
  predicate Tops(v: int, view: View, events: seq<Event>)
  {
    && (Stored(view).Some? ==> Stored(view).value <= v)
    && forall i | 0 <= i < |events| && Versioned(events[i]) :: events[i].update.version.value <= v
  }

  /** The newest versioned update wins, whatever came between, before or after it. */
  lemma {:induction false} NewestWins(view: View, events: seq<Event>, top: Update)
    requires view != Tombstone && NoDeletion(events) && Consistent(events) && top.version.Some?
    requires Tops(top.version.value, view, events)
    requires Updated(top) in events || view == Known(top)
    requires Stored(view) == top.version ==> view == Known(top)
    ensures Fold(view, events) == Known(top)
    decreases |events|
  {
    if events != [] {
      var next := Apply(view, events[0]);
      ScriptIsTheGate(view, events[0].update);
      if Updated(top) in events && Updated(top) !in events[1..] {
        assert events[0] == Updated(top);
      }
      if Stored(next) == top.version && next != view {
        assert Versioned(events[0]);
        if Updated(top) in events {
          var j :| 0 <= j < |events| && events[j] == Updated(top);
          assert events[0].update.payload == events[j].update.payload;
        }
      }
      NewestWins(next, events[1..], top);
    }
  }

  /** A tombstone absorbs everything after it. */
  lemma {:induction false} TombstoneStays(events: seq<Event>)
    ensures Fold(Tombstone, events) == Tombstone
    decreases |events|
  {
    if events != [] {
      TombstoneStays(events[1..]);
    }
  }

  lemma {:induction false} DeletionWins(view: View, events: seq<Event>)
    requires Deleted in events
    ensures Fold(view, events) == Tombstone
    decreases |events|
  {
    if events[0] == Deleted {
      TombstoneStays(events[1..]);
    } else {
      DeletionWins(Apply(view, events[0]), events[1..]);
    }
  }

  predicate SameEvents(a: seq<Event>, b: seq<Event>)
  {
    (forall e | e in a :: e in b) && (forall e | e in b :: e in a)
  }

  /** Some versioned event is newest. */
  lemma {:induction false} HasNewest(events: seq<Event>) returns (top: Update)
    requires exists i | 0 <= i < |events| :: Versioned(events[i])
    ensures top.version.Some? && Updated(top) in events
    ensures forall i | 0 <= i < |events| && Versioned(events[i]) :: events[i].update.version.value <= top.version.value
  {
    var n := |events| - 1;
    if exists i | 0 <= i < n :: Versioned(events[..n][i]) {
      top := HasNewest(events[..n]);
      assert forall i | 0 <= i < n :: events[..n][i] == events[i];
      if Versioned(events[n]) && events[n].update.version.value > top.version.value {
        top := events[n].update;
        assert events[n] == Updated(top);
      }
    } else {
      assert forall i | 0 <= i < n :: events[..n][i] == events[i];
      top := events[n].update;
      assert events[n] == Updated(top);
    }
  }

  /**
   Convergence: two carts that saw the same events, in any order and any multiplicity, at least one of
   them versioned or a deletion, end with the same view.
   */
  lemma Converges(a: seq<Event>, b: seq<Event>)
    requires SameEvents(a, b) && Consistent(a)
    requires Deleted in a || exists i | 0 <= i < |a| :: Versioned(a[i])
    ensures Fold(Unknown, a) == Fold(Unknown, b)
  {
    if Deleted in a {
      DeletionWins(Unknown, a);
      DeletionWins(Unknown, b);
    } else {
      var top := HasNewest(a);
      SameShape(a, b, top);
      NewestWins(Unknown, a, top);
      NewestWins(Unknown, b, top);
    }
  }

  lemma SameShape(a: seq<Event>, b: seq<Event>, top: Update)
    requires SameEvents(a, b) && Consistent(a) && Deleted !in a && top.version.Some? && Updated(top) in a
    requires forall i | 0 <= i < |a| && Versioned(a[i]) :: a[i].update.version.value <= top.version.value
    ensures NoDeletion(a) && NoDeletion(b) && Consistent(b) && Updated(top) in b
    ensures Tops(top.version.value, Unknown, a) && Tops(top.version.value, Unknown, b)
  {
    forall e | e in b ensures e in a && e.Updated? {
      assert e in a;
    }
    forall i, j | 0 <= i < |b| && 0 <= j < |b| && Versioned(b[i]) && Versioned(b[j])
        && b[i].update.version == b[j].update.version
      ensures b[i].update.payload == b[j].update.payload
    {
      var x :| 0 <= x < |a| && a[x] == b[i];
      var y :| 0 <= y < |a| && a[y] == b[j];
    }
    forall i | 0 <= i < |b| && Versioned(b[i]) ensures b[i].update.version.value <= top.version.value {
      var x :| 0 <= x < |a| && a[x] == b[i];
    }
  }

  /** Version-less events alone: the last one delivered wins, so only then does the order show. */
  lemma {:induction false} LastVersionlessWins(view: View, events: seq<Event>)
    requires view != Tombstone && Stored(view).None? && events != []
    requires forall i | 0 <= i < |events| :: events[i].Updated? && !Versioned(events[i])
    ensures Fold(view, events) == Known(events[|events| - 1].update)
    decreases |events|
  {
    if |events| > 1 {
      LastVersionlessWins(Apply(view, events[0]), events[1..]);
    } else {
      assert Fold(Apply(view, events[0]), events[1..]) == Apply(view, events[0]);
    }
  }

  /** ... and it does show. */
  lemma VersionlessDoNotConverge(x: nat, y: nat)
    requires x != y
    ensures var a := [Updated(Update(None, x)), Updated(Update(None, y))];
            var b := [Updated(Update(None, y)), Updated(Update(None, x))];
            SameEvents(a, b) && Fold(Unknown, a) == Known(Update(None, y)) && Fold(Unknown, b) == Known(Update(None, x))
  {
    var p, q := Updated(Update(None, x)), Updated(Update(None, y));
    assert [p, q][1..] == [q] && [q, p][1..] == [p];
    assert Fold(Known(Update(None, x)), [q]) == Known(Update(None, y));
    assert Fold(Known(Update(None, y)), [p]) == Known(Update(None, x));
  }
}
