/**
 The relay's pass over its outbox tables. A table is its rows in the order they occurred; a pass claims
 the oldest unpublished rows of each schema, publishes them, and stamps them only if all went out.
 */
module OutboxRelay {

  type RowId = nat
  type Schema = nat

  datatype Row = Row(id: RowId, published: bool)

  datatype Result = Ok(count: nat) | Raised

  /** The oldest unpublished rows, at most `n`. */
  function Claim(rows: seq<Row>, n: nat): seq<RowId>
  {
    if n == 0 || rows == [] then []
    else if rows[0].published then Claim(rows[1..], n)
    else [rows[0].id] + Claim(rows[1..], n - 1)
  }

  function Stamp(rows: seq<Row>, ids: seq<RowId>): seq<Row>
  {
    seq(|rows|, i requires 0 <= i < |rows| => Row(rows[i].id, rows[i].published || rows[i].id in ids))
  }

  function Unpublished(rows: seq<Row>): nat
  {
    if rows == [] then 0 else (if rows[0].published then 0 else 1) + Unpublished(rows[1..])
  }

  predicate Distinct(rows: seq<Row>)
  {
    forall i, j | 0 <= i < j < |rows| :: rows[i].id != rows[j].id
  }

  predicate Refuses(ids: seq<RowId>, refused: set<RowId>)
  {
    exists i | 0 <= i < |ids| :: ids[i] in refused
  }

  /** What a pass makes of one table when the topic refuses the rows in `refused`. */
  function Drained(rows: seq<Row>, batch: nat, refused: set<RowId>): seq<Row>
  {
    var ids := Claim(rows, batch);
    if Refuses(ids, refused) then rows else Stamp(rows, ids)
  }

  function Shipped(rows: seq<Row>, batch: nat, refused: set<RowId>): nat
  {
    var ids := Claim(rows, batch);
    if Refuses(ids, refused) then 0 else |ids|
  }

  /** Every row a drain stamps was sent. */
  predicate AllOut(rows: seq<Row>, batch: nat, refused: set<RowId>, sent: seq<RowId>)
  {
    Refuses(Claim(rows, batch), refused) || forall id | id in Claim(rows, batch) :: id in sent
  }

  lemma AllStillOut(rows: seq<Row>, batch: nat, refused: set<RowId>, sent: seq<RowId>, more: seq<RowId>)
    requires AllOut(rows, batch, refused, sent) && sent <= more
    ensures AllOut(rows, batch, refused, more)
  {
    hide Claim, Refuses;
    forall id | id in sent ensures id in more {
      var i :| 0 <= i < |sent| && sent[i] == id;
      assert more[i] == id;
    }
  }

  lemma {:induction false} ClaimedAreUnpublished(rows: seq<Row>, n: nat)
    ensures |Claim(rows, n)| <= n
    ensures forall i | 0 <= i < |Claim(rows, n)| ::
              exists j | 0 <= j < |rows| :: rows[j].id == Claim(rows, n)[i] && !rows[j].published
  {
    if n > 0 && rows != [] {
      var rest := if rows[0].published then Claim(rows[1..], n) else Claim(rows[1..], n - 1);
      ClaimedAreUnpublished(rows[1..], if rows[0].published then n else n - 1);
      forall i | 0 <= i < |rest| ensures exists j | 0 <= j < |rows| :: rows[j].id == rest[i] && !rows[j].published {
        var j :| 0 <= j < |rows[1..]| && rows[1..][j].id == rest[i] && !rows[1..][j].published;
        assert rows[j + 1].id == rest[i];
      }
    }
  }

  /** Oldest first: a claimed row is never younger than an unpublished row left behind. */
  lemma {:induction false} ClaimIsOldest(rows: seq<Row>, n: nat, i: nat, j: nat)
    requires Distinct(rows) && i < j < |rows| && !rows[i].published && rows[j].id in Claim(rows, n)
    ensures rows[i].id in Claim(rows, n)
  {
    if n > 0 {
      var m := if rows[0].published then n else n - 1;
      ClaimComesFrom(rows[1..], m);
      if i > 0 {
        assert Distinct(rows[1..]);
        assert rows[1..][i - 1] == rows[i] && rows[1..][j - 1] == rows[j];
        ClaimIsOldest(rows[1..], m, i - 1, j - 1);
      }
    }
  }

  lemma {:induction false} ClaimComesFrom(rows: seq<Row>, n: nat)
    ensures forall id | id in Claim(rows, n) :: exists j | 0 <= j < |rows| :: rows[j].id == id
  {
    ClaimedAreUnpublished(rows, n);
  }

  /** A pass that nothing refuses ships exactly `batch` rows, or all that are left. */
  lemma {:induction false} DrainProgress(rows: seq<Row>, n: nat)
    requires Distinct(rows)
    ensures |Claim(rows, n)| == (if Unpublished(rows) < n then Unpublished(rows) else n)
    ensures Unpublished(Stamp(rows, Claim(rows, n))) == Unpublished(rows) - |Claim(rows, n)|
  {
    if n == 0 || rows == [] {
      assert Stamp(rows, []) == rows;
    } else {
      var tail := rows[1..];
      var m := if rows[0].published then n else n - 1;
      assert Distinct(tail);
      DrainProgress(tail, m);
      ClaimComesFrom(tail, m);
      var ids := Claim(tail, m);
      assert rows[0].id !in ids;
      var stamped := Stamp(rows, Claim(rows, n));
      assert stamped[1..] == Stamp(tail, ids) by {
        if !rows[0].published {
          assert forall i | 0 <= i < |tail| :: tail[i].id in [rows[0].id] + ids <==> tail[i].id in ids;
        }
      }
      assert stamped[0].published == (rows[0].published || !rows[0].published);
    }
  }

  /**
   One table after its drain: the rows are the same, oldest first; those newly stamped are the claimed ones,
   all of them and all of them sent, unless one was refused, and then none is.
   */
  predicate DrainedRight(rows: seq<Row>, now: seq<Row>, batch: nat, refused: set<RowId>, sent: seq<RowId>)
  {
    && |now| == |rows| && (forall i | 0 <= i < |rows| :: now[i].id == rows[i].id)
    && (forall i | 0 <= i < |rows| && rows[i].published :: now[i].published)
    && (forall i | 0 <= i < |rows| && !rows[i].published ::
          now[i].published <==> rows[i].id in Claim(rows, batch) && !Refuses(Claim(rows, batch), refused))
    && (forall i | 0 <= i < |rows| && !rows[i].published && now[i].published :: now[i].id in sent)
  }

  lemma DrainIsRight(rows: seq<Row>, batch: nat, refused: set<RowId>, sent: seq<RowId>)
    requires AllOut(rows, batch, refused, sent)
    ensures DrainedRight(rows, Drained(rows, batch, refused), batch, refused, sent)
    ensures Distinct(rows) ==>
              Unpublished(Drained(rows, batch, refused)) == Unpublished(rows) - Shipped(rows, batch, refused)
  {
    if Distinct(rows) {
      DrainProgress(rows, batch);
    }
    hide Claim, Unpublished;
  }

  /** What is still to be shipped from the named tables. */
  function Backlog(tables: map<Schema, seq<Row>>, schemas: seq<Schema>): nat
    requires forall i | 0 <= i < |schemas| :: schemas[i] in tables
  {
    if schemas == [] then 0
    else Backlog(tables, schemas[..|schemas| - 1]) + Unpublished(tables[schemas[|schemas| - 1]])
  }

  lemma {:induction false} BacklogShrinks(before: map<Schema, seq<Row>>, now: map<Schema, seq<Row>>,
      schemas: seq<Schema>, batch: nat, refused: set<RowId>)
    requires forall i | 0 <= i < |schemas| :: schemas[i] in before && schemas[i] in now
    requires forall i | 0 <= i < |schemas| ::
      now[schemas[i]] == Drained(before[schemas[i]], batch, refused) && Distinct(before[schemas[i]])
    ensures Backlog(now, schemas) == Backlog(before, schemas) - TotalShipped(before, schemas, batch, refused)
    decreases |schemas|
  {
    hide Drained, Unpublished, Distinct, Shipped;
    if schemas != [] {
      var n := |schemas| - 1;
      assert forall i | 0 <= i < n :: schemas[..n][i] == schemas[i];
      BacklogShrinks(before, now, schemas[..n], batch, refused);
      ShippedLeaves(before[schemas[n]], batch, refused);
    }
  }

  lemma ShippedLeaves(rows: seq<Row>, batch: nat, refused: set<RowId>)
    requires Distinct(rows)
    ensures Unpublished(Drained(rows, batch, refused)) == Unpublished(rows) - Shipped(rows, batch, refused)
  {
    DrainProgress(rows, batch);
    hide Claim, Unpublished;
  }

  class Relay {
    var tables: map<Schema, seq<Row>>
    var sent: seq<RowId>
    const batch: nat

    constructor (tables: map<Schema, seq<Row>>, batch: nat)
      ensures this.tables == tables && this.batch == batch && sent == []
    {
      this.tables, this.batch, sent := tables, batch, [];
    }

    /** Publishes a batch; the first refusal cancels the rest. */
    method PublishAll(ids: seq<RowId>, refused: set<RowId>) returns (ok: bool)
      modifies this`sent
      ensures ok == !Refuses(ids, refused)
      ensures ok ==> sent == old(sent) + ids
      ensures old(sent) <= sent
    {
      var n := 0;
      while n < |ids|
        invariant 0 <= n <= |ids|
        invariant forall i | 0 <= i < n :: ids[i] !in refused
        invariant sent == old(sent) + ids[..n]
      {
        if ids[n] in refused {
          return false;
        }
        sent := sent + [ids[n]];
        n := n + 1;
      }
      return true;
    }

    /** One schema's transaction: every claimed row out and stamped, or no row stamped. */
    method DrainSchema(schema: Schema, refused: set<RowId>) returns (r: Result)
      requires schema in tables
      modifies this
      ensures tables == old(tables)[schema := Drained(old(tables)[schema], batch, refused)]
      ensures r == if Refuses(Claim(old(tables)[schema], batch), refused) then Raised
                else Ok(Shipped(old(tables)[schema], batch, refused))
      ensures old(sent) <= sent
      ensures AllOut(old(tables)[schema], batch, refused, sent)
      ensures DrainedRight(old(tables)[schema], tables[schema], batch, refused, sent)
      ensures forall k | k in tables && k != schema :: tables[k] == old(tables)[k]
    {
      hide Claim, Refuses, DrainedRight;
      var rows := tables[schema];
      var ids := Claim(rows, batch);
      if ids == [] {
        assert Stamp(rows, ids) == rows;
        NothingRefused(ids, refused);
        DrainIsRight(rows, batch, refused, sent);
        return Ok(0);
      }
      var ok := PublishAll(ids, refused);
      DrainIsRight(rows, batch, refused, sent);
      if !ok {
        return Raised;
      }
      tables := tables[schema := Stamp(rows, ids)];
      return Ok(|ids|);
    }

    /**
     One pass: each schema drains or fails on its own; the pass raises exactly when some schema failed
     and nothing at all was shipped; and every row it stamped was sent.
     */
    method DrainOnce(schemas: seq<Schema>, refused: set<RowId>) returns (r: Result)
      requires forall i | 0 <= i < |schemas| :: schemas[i] in tables
      requires forall i, j | 0 <= i < j < |schemas| :: schemas[i] != schemas[j]
      modifies this
      ensures tables == DrainedAll(old(tables), schemas, batch, refused)
      ensures var total := TotalShipped(old(tables), schemas, batch, refused);
              r == if total == 0 && AnyRefused(old(tables), schemas, batch, refused) then Raised else Ok(total)
      ensures old(sent) <= sent
      ensures forall i | 0 <= i < |schemas| :: AllOut(old(tables)[schemas[i]], batch, refused, sent)
      ensures tables.Keys == old(tables).Keys
      ensures forall k | k in schemas :: DrainedRight(old(tables)[k], tables[k], batch, refused, sent)
      ensures forall k | k in tables && k !in schemas :: tables[k] == old(tables)[k]
      ensures (forall k | k in schemas :: Distinct(old(tables)[k])) ==>
                Backlog(tables, schemas) == Backlog(old(tables), schemas) - if r.Ok? then r.count else 0
    {
      hide Claim, Drained, Stamp, Refuses, AllOut, AnyRefused, TotalShipped, Shipped, DrainedAll, DrainedRight,
          Distinct;
      var published, failures := 0, 0;
      var n := 0;
      ghost var before := tables;
      NothingYet(before, schemas[..0], batch, refused);
      while n < |schemas|
        invariant 0 <= n <= |schemas|
        invariant tables == DrainedAll(before, schemas[..n], batch, refused)
        invariant published == TotalShipped(before, schemas[..n], batch, refused)
        invariant failures > 0 <==> AnyRefused(before, schemas[..n], batch, refused)
        invariant old(sent) <= sent
        invariant forall i | 0 <= i < n :: AllOut(before[schemas[i]], batch, refused, sent)
      {
        var schema := schemas[n];
        assert schemas[..n + 1] == schemas[..n] + [schema];
        assert schema !in schemas[..n];
        AnyOneMore(before, schemas[..n], schema, batch, refused);
        TotalOneMore(before, schemas[..n], schema, batch, refused);
        DrainedOneMore(before, schemas[..n], schema, batch, refused);
        ghost var gone := sent;
        var one := DrainSchema(schema, refused);
        forall i | 0 <= i < n ensures AllOut(before[schemas[i]], batch, refused, sent) {
          AllStillOut(before[schemas[i]], batch, refused, gone, sent);
        }
        if one.Ok? {
          published := published + one.count;
        } else {
          failures := failures + 1;
        }
        n := n + 1;
      }
      assert schemas[..n] == schemas;
      AllRight(before, schemas, batch, refused, sent);
      r := if failures > 0 && published == 0 then Raised else Ok(published);
    }
  }

  function TotalShipped(tables: map<Schema, seq<Row>>, schemas: seq<Schema>, batch: nat, refused: set<RowId>): nat
    requires forall i | 0 <= i < |schemas| :: schemas[i] in tables
  {
    if schemas == [] then 0
    else
      TotalShipped(tables, schemas[..|schemas| - 1], batch, refused)
      + Shipped(tables[schemas[|schemas| - 1]], batch, refused)
  }

  predicate AnyRefused(tables: map<Schema, seq<Row>>, schemas: seq<Schema>, batch: nat, refused: set<RowId>)
    requires forall i | 0 <= i < |schemas| :: schemas[i] in tables
  {
    exists i | 0 <= i < |schemas| :: Refuses(Claim(tables[schemas[i]], batch), refused)
  }

  /** Every named table drained, or left alone, on its own. */
  function DrainedAll(tables: map<Schema, seq<Row>>, schemas: seq<Schema>, batch: nat,
      refused: set<RowId>): map<Schema, seq<Row>>
  {
    map k | k in tables :: if k in schemas then Drained(tables[k], batch, refused) else tables[k]
  }

  lemma AllRight(tables: map<Schema, seq<Row>>, schemas: seq<Schema>, batch: nat, refused: set<RowId>,
      sent: seq<RowId>)
    requires forall i | 0 <= i < |schemas| :: schemas[i] in tables
    requires forall i | 0 <= i < |schemas| :: AllOut(tables[schemas[i]], batch, refused, sent)
    ensures var now := DrainedAll(tables, schemas, batch, refused);
            && now.Keys == tables.Keys
            && (forall k | k in schemas :: DrainedRight(tables[k], now[k], batch, refused, sent))
            && (forall k | k in tables && k !in schemas :: now[k] == tables[k])
            && ((forall k | k in schemas :: Distinct(tables[k])) ==>
                  Backlog(now, schemas) == Backlog(tables, schemas) - TotalShipped(tables, schemas, batch, refused))
  {
    hide Drained, DrainedRight, AllOut, Distinct, Backlog, TotalShipped;
    var now := DrainedAll(tables, schemas, batch, refused);
    forall k | k in schemas ensures DrainedRight(tables[k], now[k], batch, refused, sent) {
      var i :| 0 <= i < |schemas| && schemas[i] == k;
      DrainIsRight(tables[schemas[i]], batch, refused, sent);
    }
    if forall k | k in schemas :: Distinct(tables[k]) {
      BacklogShrinks(tables, now, schemas, batch, refused);
    }
  }

  lemma NothingRefused(ids: seq<RowId>, refused: set<RowId>)
    requires ids == []
    ensures !Refuses(ids, refused)
  {
  }

  lemma DrainedOneMore(tables: map<Schema, seq<Row>>, schemas: seq<Schema>, last: Schema, batch: nat,
      refused: set<RowId>)
    requires last in tables && last !in schemas
    ensures var now := DrainedAll(tables, schemas, batch, refused);
            && now.Keys == tables.Keys && now[last] == tables[last]
            && now[last := Drained(tables[last], batch, refused)]
               == DrainedAll(tables, schemas + [last], batch, refused)
  {
    hide Drained;
  }

  lemma NothingYet(tables: map<Schema, seq<Row>>, schemas: seq<Schema>, batch: nat, refused: set<RowId>)
    requires schemas == []
    ensures TotalShipped(tables, schemas, batch, refused) == 0 && !AnyRefused(tables, schemas, batch, refused)
    ensures DrainedAll(tables, schemas, batch, refused) == tables
  {
  }

  lemma TotalOneMore(tables: map<Schema, seq<Row>>, schemas: seq<Schema>, last: Schema, batch: nat, refused: set<RowId>)
    requires last in tables && forall i | 0 <= i < |schemas| :: schemas[i] in tables
    ensures TotalShipped(tables, schemas + [last], batch, refused)
         == TotalShipped(tables, schemas, batch, refused) + Shipped(tables[last], batch, refused)
    ensures Refuses(Claim(tables[last], batch), refused) ==> Shipped(tables[last], batch, refused) == 0
  {
    assert (schemas + [last])[..|schemas|] == schemas;
  }

  lemma AnyOneMore(tables: map<Schema, seq<Row>>, schemas: seq<Schema>, last: Schema, batch: nat, refused: set<RowId>)
    requires last in tables && forall i | 0 <= i < |schemas| :: schemas[i] in tables
    ensures AnyRefused(tables, schemas + [last], batch, refused)
         <==> AnyRefused(tables, schemas, batch, refused) || Refuses(Claim(tables[last], batch), refused)
  {
    var more := schemas + [last];
    assert forall i | 0 <= i < |schemas| :: more[i] == schemas[i];
    assert more[|schemas|] == last;
  }
}
