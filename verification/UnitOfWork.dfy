/**
 Nested units of work over one session. A use-case is a tree of writes, raises, caught failures and
 `transaction()` blocks. Execution shares one depth counter and a stack of savepoints; its meaning needs
 neither: a block that raises contributes no writes, and the outermost block lands them all or none.
 */
module UnitOfWork {

  type Key = nat
  type Value = nat
  type Rows = map<Key, Value>

  datatype Update = Update(key: Key, value: Value)

  datatype Prog =
    | Skip
    | Write(update: Update)
    | Raise
    | Seq(first: Prog, rest: Prog)
    | Attempt(body: Prog)        // try: body, except: carry on
    | Transaction(body: Prog)    // async with uow.transaction(): body

  // ---------------------------------------------------------------- meaning

  function Apply(rows: Rows, updates: seq<Update>): Rows
  {
    if updates == [] then rows
    else
      var last := updates[|updates| - 1];
      Apply(rows, updates[..|updates| - 1])[last.key := last.value]
  }

  datatype Meaning = Meaning(raised: bool, writes: seq<Update>)

  /** What a piece of a use-case contributes to the transaction around it. */
  function Inside(p: Prog): Meaning
  {
    match p
    case Skip => Meaning(false, [])
    case Write(u) => Meaning(false, [u])
    case Raise => Meaning(true, [])
    case Seq(a, b) =>
      var x := Inside(a);
      if x.raised then x else Meaning(Inside(b).raised, x.writes + Inside(b).writes)
    case Attempt(b) => Meaning(false, Inside(b).writes)
    case Transaction(b) => if Inside(b).raised then Meaning(true, []) else Inside(b)
  }

  /** The database with the writes a session made outside any block, which the next block decides. */
  datatype Db = Db(committed: Rows, open: seq<Update>)

  function View(db: Db): Rows
  {
    Apply(db.committed, db.open)
  }

  datatype Result = Result(raised: bool, db: Db)

  /** A use-case at the top: its outermost blocks commit everything open, or drop everything open. */
  function Outside(p: Prog, db: Db): Result
  {
    match p
    case Skip => Result(false, db)
    case Write(u) => Result(false, Db(db.committed, db.open + [u]))
    case Raise => Result(true, db)
    case Seq(a, b) =>
      var x := Outside(a, db);
      if x.raised then x else Outside(b, x.db)
    case Attempt(b) => Result(false, Outside(b, db).db)
    case Transaction(b) =>
      if Inside(b).raised then Result(true, Db(db.committed, []))
      else Result(false, Db(Apply(db.committed, db.open + Inside(b).writes), []))
  }

  lemma {:induction false} ApplyJoin(rows: Rows, a: seq<Update>, b: seq<Update>)
    ensures Apply(rows, a + b) == Apply(Apply(rows, a), b)
  {
    if b == [] {
      assert a + b == a;
    } else {
      var n := |b| - 1;
      ApplyJoin(rows, a, b[..n]);
      assert (a + b)[..|a| + n] == a + b[..n];
    }
  }

  /** A key reads as its last write says. */
  lemma {:induction false} LastWriteReads(rows: Rows, updates: seq<Update>, i: nat)
    requires i < |updates| && forall j | i < j < |updates| :: updates[j].key != updates[i].key
    ensures updates[i].key in Apply(rows, updates) && Apply(rows, updates)[updates[i].key] == updates[i].value
  {
    var n := |updates| - 1;
    if i < n {
      LastWriteReads(rows, updates[..n], i);
    }
  }

  /** A key nobody wrote reads as before. */
  lemma {:induction false} OthersReadAsBefore(rows: Rows, updates: seq<Update>, k: Key)
    requires forall i | 0 <= i < |updates| :: updates[i].key != k
    ensures k in Apply(rows, updates) <==> k in rows
    ensures k in rows ==> Apply(rows, updates)[k] == rows[k]
  {
    if updates != [] {
      OthersReadAsBefore(rows, updates[..|updates| - 1], k);
    }
  }

  // ---------------------------------------------------------------- execution

  class Session {
    var committed: Rows
    var working: Rows
    var depth: nat
    var savepoints: seq<Rows>

    /** Inside `depth` blocks there is a savepoint for every block but the outermost. */
    ghost predicate Valid()
      reads this
    {
      |savepoints| == if depth == 0 then 0 else depth - 1
    }

    constructor (rows: Rows)
      ensures Valid() && depth == 0 && committed == rows && working == rows
    {
      committed, working, depth, savepoints := rows, rows, 0, [];
    }

    method Commit()
      modifies this`committed
      ensures committed == working
    {
      committed := working;
    }

    method Rollback()
      modifies this`working, this`savepoints
      ensures working == committed && savepoints == []
    {
      working := committed;
      savepoints := [];
    }

    /**
     Runs a use-case. Inside a block it adds exactly what the piece means and commits nothing; at the
     top it leaves the database as the meaning says; the depth and the savepoints are always restored.
     */
    method Exec(p: Prog, ghost db: Db) returns (raised: bool)
      requires Valid()
      requires depth == 0 ==> db.committed == committed && View(db) == working
      modifies this
      ensures Valid() && depth == old(depth) && savepoints == old(savepoints)
      ensures old(depth) > 0 ==>
                raised == Inside(p).raised && committed == old(committed)
                    && working == Apply(old(working), Inside(p).writes)
      ensures old(depth) == 0 ==>
                var r := Outside(p, db); raised == r.raised && committed == r.db.committed && working == View(r.db)
      decreases p, 0
    {
      match p
      case Skip => raised := false;
      case Write(u) =>
        working := working[u.key := u.value];
        raised := false;
        assert (db.open + [u])[..|db.open|] == db.open;
      case Raise => raised := true;
      case Seq(a, b) =>
        ghost var x := Inside(a);
        raised := Exec(a, db);
        if !raised {
          ApplyJoin(old(working), x.writes, Inside(b).writes);
          raised := Exec(b, Outside(a, db).db);
        }
      case Attempt(b) =>
        var ignored := Exec(b, db);
        raised := false;
      case Transaction(b) => raised := Block(b, db);
    }

    /** One `transaction()` block: the outermost commits or rolls back, a deeper one is a savepoint. */
    method Block(b: Prog, ghost db: Db) returns (raised: bool)
      requires Valid()
      requires depth == 0 ==> db.committed == committed && View(db) == working
      modifies this
      ensures Valid() && depth == old(depth) && savepoints == old(savepoints)
      ensures old(depth) > 0 ==>
                var m := Inside(Transaction(b));
                raised == m.raised && committed == old(committed) && working == Apply(old(working), m.writes)
      ensures old(depth) == 0 ==>
                var r := Outside(Transaction(b), db);
                    raised == r.raised && committed == r.db.committed
                    && working == View(r.db)
      decreases b, 1
    {
      var before := depth;
      depth := before + 1;
      if before > 0 {
        savepoints := savepoints + [working];
        raised := Exec(b, db);
        var top := |savepoints| - 1;
        if raised {
          working := savepoints[top];
        }
        savepoints := savepoints[..top];
      } else {
        raised := Exec(b, db);
        if raised {
          Rollback();
        } else {
          Commit();
        }
        ApplyJoin(db.committed, db.open, Inside(b).writes);
      }
      depth := before;
    }
  }

  // ---------------------------------------------------------------- what the meaning promises

  /** A raise inside an inner block, caught outside it, costs only that block's own writes. */
  lemma FailedBlockDropsOnlyItsOwn(before: Prog, inner: Prog, after: Prog)
    requires Inside(inner).raised && !Inside(before).raised
    ensures Inside(Seq(before, Seq(Attempt(Transaction(inner)), after)))
         == Meaning(Inside(after).raised, Inside(before).writes + Inside(after).writes)
  {
    hide Inside;
    CaughtThen(inner, after);
    SeqMeans(before, Seq(Attempt(Transaction(inner)), after));
  }

  lemma CaughtThen(inner: Prog, after: Prog)
    requires Inside(inner).raised
    ensures Inside(Seq(Attempt(Transaction(inner)), after)) == Inside(after)
  {
    hide Inside;
    CaughtBlock(inner);
    SeqMeans(Attempt(Transaction(inner)), after);
    NothingBefore(Inside(after).writes);
  }

  lemma NothingBefore(writes: seq<Update>)
    ensures [] + writes == writes
  {
  }

  lemma CaughtBlock(inner: Prog)
    requires Inside(inner).raised
    ensures Inside(Attempt(Transaction(inner))) == Meaning(false, [])
  {
    assert Inside(Transaction(inner)) == Meaning(true, []);
  }

  lemma SeqMeans(a: Prog, b: Prog)
    requires !Inside(a).raised
    ensures Inside(Seq(a, b)) == Meaning(Inside(b).raised, Inside(a).writes + Inside(b).writes)
  {
  }

  /** No raise anywhere: then nesting blocks changes nothing. */
  predicate Calm(p: Prog)
  {
    match p
    case Raise => false
    case Seq(a, b) => Calm(a) && Calm(b)
    case Attempt(b) => Calm(b)
    case Transaction(b) => Calm(b)
    case _ => true
  }

  /** The use-case with its inner blocks dissolved. */
  function Flat(p: Prog): Prog
  {
    match p
    case Seq(a, b) => Seq(Flat(a), Flat(b))
    case Attempt(b) => Attempt(Flat(b))
    case Transaction(b) => Flat(b)
    case _ => p
  }

  /** Every write a use-case names, in the order it names them. */
  function AllWrites(p: Prog): seq<Update>
  {
    match p
    case Write(u) => [u]
    case Seq(a, b) => AllWrites(a) + AllWrites(b)
    case Attempt(b) => AllWrites(b)
    case Transaction(b) => AllWrites(b)
    case _ => []
  }

  lemma {:induction false} CalmWritesAll(p: Prog)
    requires Calm(p)
    ensures Inside(p) == Meaning(false, AllWrites(p))
  {
    match p
    case Seq(a, b) =>
      CalmWritesAll(a);
      CalmWritesAll(b);
    case Attempt(b) => CalmWritesAll(b);
    case Transaction(b) => CalmWritesAll(b);
    case _ =>
  }

  /** Without a raise, one block commits every write named in it: each key reads as the last of them says. */
  lemma CalmBlockLandsEverything(b: Prog, rows: Rows, i: nat)
    requires Calm(b) && i < |AllWrites(b)| && forall j | i < j < |AllWrites(b)| ::
               AllWrites(b)[j].key != AllWrites(b)[i].key
    ensures var r := Outside(Transaction(b), Db(rows, []));
            var u := AllWrites(b)[i];
            !r.raised && u.key in r.db.committed && r.db.committed[u.key] == u.value
  {
    CalmWritesAll(b);
    OutermostIsAllOrNothing(b, rows);
    LastWriteReads(rows, AllWrites(b), i);
  }

  lemma {:induction false} NestingIsInvisible(p: Prog)
    requires Calm(p)
    ensures Inside(Flat(p)) == Inside(p) && !Inside(p).raised
  {
    match p
    case Seq(a, b) =>
      NestingIsInvisible(a);
      NestingIsInvisible(b);
    case Attempt(b) => NestingIsInvisible(b);
    case Transaction(b) => NestingIsInvisible(b);
    case _ =>
  }

  /** A use-case that is one block: the database sees all of its writes or none of them. */
  lemma OutermostIsAllOrNothing(b: Prog, rows: Rows)
    ensures var r := Outside(Transaction(b), Db(rows, []));
            && r.db.open == []
            && (r.raised ==> r.db.committed == rows)
            && (!r.raised ==> r.db.committed == Apply(rows, Inside(b).writes))
  {
    assert [] + Inside(b).writes == Inside(b).writes;
  }

  /** Outside any block writes only accumulate: nothing commits without a block. */
  lemma {:induction false} CommittedOnlyByBlocks(p: Prog, db: Db)
    requires NoBlock(p)
    ensures Outside(p, db).db.committed == db.committed && Outside(p, db).raised == Inside(p).raised
    ensures Outside(p, db).db.open == db.open + Inside(p).writes
  {
    match p
    case Seq(a, b) =>
      CommittedOnlyByBlocks(a, db);
      CommittedOnlyByBlocks(b, Outside(a, db).db);
    case Attempt(b) => CommittedOnlyByBlocks(b, db);
    case _ =>
  }

  predicate NoBlock(p: Prog)
  {
    match p
    case Seq(a, b) => NoBlock(a) && NoBlock(b)
    case Attempt(b) => NoBlock(b)
    case Transaction(_) => false
    case _ => true
  }
}
