/**
 The payments service over its table: charge, refund, webhook and the reconciliation pass. Every change
 of a row is a legal run of the payment protocol, so the ledger's laws hold of every row the service
 leaves behind.
 */
module PaymentsService {
  import opened P = Payments

  type PayKey = nat
  type OrderRef = nat

  datatype Row = Row(order: OrderRef, account: Account)

  datatype Reply = Status(row: RowStatus) | Conflict | UnknownRef

  /** A row's account is what a legal run of payment steps makes of another. */
  ghost predicate Follows(a: Account, b: Account)
  {
    exists acts :: Legal(a, acts) && Run(a, acts) == b
  }

  lemma Unmoved(a: Account)
    ensures Follows(a, a)
  {
    assert Legal(a, []) && Run(a, []) == a;
  }

  lemma {:induction false} RunMore(a: Account, acts: seq<Act>, act: Act)
    requires Legal(a, acts) && Enabled(Run(a, acts), act)
    ensures Legal(a, acts + [act]) && Run(a, acts + [act]) == Next(Run(a, acts), act)
    decreases |acts|
  {
    hide Enabled, Next;
    if acts == [] {
      assert acts + [act] == [act] && [act][1..] == [];
      assert Legal(Next(a, act), []);
    } else {
      RunMore(Next(a, acts[0]), acts[1..], act);
      assert (acts + [act])[1..] == acts[1..] + [act];
    }
  }

  lemma Followed(a: Account, b: Account, act: Act)
    requires Follows(a, b) && Enabled(b, act)
    ensures Follows(a, Next(b, act))
  {
    hide Enabled, Next, Legal, Run;
    var acts :| Legal(a, acts) && Run(a, acts) == b;
    RunMore(a, acts, act);
  }

  lemma FollowsKeepsInv(a: Account, b: Account)
    requires Inv(a) && Follows(a, b)
    ensures Inv(b)
  {
    hide Inv, Legal, Run;
    var acts :| Legal(a, acts) && Run(a, acts) == b;
    RunKeepsInv(a, acts);
  }

  /** What one charge call makes of a row that is still undecided. */
  function Charged(a: Account, decision: Charge): Account
  {
    var seen := Next(a, ChargeAtProvider(decision));
    match seen.charge
    case Captured => Next(seen, ApplySuccess(true))
    case Declined => Next(seen, ApplyFailure)
    case _ => seen
  }

  lemma ChargedFollows(a: Account, b: Account, decision: Charge)
    requires Follows(a, b) && b.row != NoRow && decision != Unseen
    ensures Follows(a, Charged(b, decision))
    ensures b.charge != Unseen ==> Charged(b, decision).captured == b.captured
    ensures Charged(b, decision).amount == b.amount && Charged(b, decision).row != NoRow
    ensures b.row == Pending && Charged(b, decision).row == Pending ==> Charged(b, decision).charge == Processing
  {
    hide Follows;
    var seen := Next(b, ChargeAtProvider(decision));
    Followed(a, b, ChargeAtProvider(decision));
    match seen.charge
    case Captured => Followed(a, seen, ApplySuccess(true));
    case Declined => Followed(a, seen, ApplyFailure);
    case _ =>
  }

  /** The row a provider's decision leads to. */
  predicate RowFits(row: RowStatus, charge: Charge)
  {
    && (row == Succeeded <==> charge == Captured)
    && (row == Failed <==> charge == Declined)
    && (row == Pending <==> charge == Processing)
  }

  /** The provider's word decides: its first answer if it had none, else the one it gave before. */
  lemma ChargedObeysProvider(a: Account, decision: Charge)
    requires MoneyInv(a) && a.row == Pending && decision != Unseen
    ensures var b := Charged(a, decision);
            && b.charge == (if a.charge == Unseen then decision else a.charge)
            && RowFits(b.row, b.charge)
            && b.captured == (if b.row == Succeeded then b.amount else 0)
  {
  }

  /** A refund asked for the first time, with the charge's reference in hand, does what the provider grants. */
  lemma RefundObeysProvider(a: Account, grants: bool)
    requires MoneyInv(a) && a.row == Succeeded
    ensures var b := RefundAsked(a, grants);
            && (a.refund == NotAsked && a.hasRef ==> (b.row == Refunded <==> grants))
            && (a.refund == NotAsked && !a.hasRef ==> b.row == Succeeded && b.refund == Refused)
            && (a.refund == Returned ==> b.row == Refunded)
            && (a.refund == Refused ==> b == a)
  {
  }

  function RefundAsked(a: Account, grants: bool): Account
  {
    if a.row != Succeeded then a
    else
      var asked := Next(a, RefundAtProvider(grants));
      if asked.refund == Returned then Next(asked, ApplyRefund) else asked
  }

  lemma RefundFollows(a: Account, grants: bool)
    requires MoneyInv(a)
    ensures Follows(a, RefundAsked(a, grants))
    ensures RefundAsked(a, grants).row == Refunded ==> Net(RefundAsked(a, grants)) == 0
    ensures a.row == Succeeded && RefundAsked(a, grants).row != Refunded ==>
              RefundAsked(a, grants).row == Succeeded && Net(RefundAsked(a, grants)) == a.amount
  {
    hide Follows;
    Unmoved(a);
    if a.row == Succeeded {
      var asked := Next(a, RefundAtProvider(grants));
      Followed(a, a, RefundAtProvider(grants));
      if asked.refund == Returned {
        Followed(a, asked, ApplyRefund);
      }
    }
  }

  /** What a reconciliation look-up makes of a row; `stale` rows are past the maximum age. */
  function LookedUp(a: Account, stale: bool): Account
  {
    match a.charge
    case Captured => Next(a, ApplySuccess(true))
    case Declined => Next(a, ApplyFailure)
    case Processing => a
    case Unseen => if stale then Next(a, Abandon) else a
  }

  lemma LookedUpFollows(a: Account, stale: bool)
    requires a.row != NoRow
    ensures Follows(a, LookedUp(a, stale)) && LookedUp(a, stale).row != NoRow
    ensures a.row != Pending ==> LookedUp(a, stale).row != Pending
  {
    hide Follows;
    Unmoved(a);
    match a.charge
    case Captured => Followed(a, a, ApplySuccess(true));
    case Declined => Followed(a, a, ApplyFailure);
    case Processing =>
    case Unseen => Followed(a, a, Abandon);
  }

  lemma LookedUpFacts(a: Account, stale: bool)
    requires a.row == Pending ==> !a.abandoned
    ensures a.row != Pending ==> LookedUp(a, stale).row != Pending
    ensures a.row != Pending ==> LookedUp(a, stale) == a
    ensures LookedUp(a, stale).charge == a.charge
    ensures a.row == Pending && a.charge == Captured ==> LookedUp(a, stale).row == Succeeded
    ensures a.row == Pending && a.charge == Declined ==>
              LookedUp(a, stale).row == Failed && !LookedUp(a, stale).abandoned
    ensures a.row == Pending && a.charge == Unseen && stale ==>
              LookedUp(a, stale).row == Failed && LookedUp(a, stale).abandoned
    ensures a.charge == Processing || (a.charge == Unseen && !stale) ==> LookedUp(a, stale) == a
  {
  }

  /** The provider's decision a notification speaks of. */
  function Told(succeeded: bool): Charge
  {
    if succeeded then Captured else Declined
  }

  /** A pending row after a notification was applied to it. */
  function Notified(a: Account, succeeded: bool, withRef: bool): Account
  {
    Next(a, if succeeded then ApplySuccess(withRef) else ApplyFailure)
  }

  /** One flip with one event; the ledger's laws survive it exactly when the notification tells the truth. */
  lemma NotifiedTrueIff(a: Account, succeeded: bool, withRef: bool)
    requires Inv(a) && a.row == Pending
    ensures var b := Notified(a, succeeded, withRef);
            && b.row == (if succeeded then Succeeded else Failed) && |b.events| == |a.events| + 1
            && (Inv(b) <==> a.charge == Told(succeeded))
  {
    if a.charge == Told(succeeded) {
      NextKeepsInv(a, if succeeded then ApplySuccess(withRef) else ApplyFailure);
    }
    hide HistoryInv;
  }

  /** The keys whose pending row was decided between two versions of the table. */
  function Decided(before: map<PayKey, Row>, now: map<PayKey, Row>): set<PayKey>
  {
    set k | k in before && k in now && before[k].account.row == Pending && now[k].account.row != Pending
  }

  ghost predicate TableOk(rows: map<PayKey, Row>)
  {
    forall k | k in rows :: Inv(rows[k].account) && rows[k].account.row != NoRow
  }

  lemma OneRowDecides(rows: map<PayKey, Row>, key: PayKey, row: Row)
    requires TableOk(rows)
    ensures TableOk(rows[key := row]) <==> Inv(row.account) && row.account.row != NoRow
  {
    hide Inv;
    var now := rows[key := row];
    assert now[key] == row && forall k | k in now && k != key :: now[k] == rows[k];
  }

  /** Two sweeps decide disjoint rows. */
  lemma DecidedInTwo(a: map<PayKey, Row>, b: map<PayKey, Row>, c: map<PayKey, Row>)
    requires a.Keys == b.Keys == c.Keys
    requires forall k | k in a && a[k].account.row != Pending :: b[k].account.row != Pending
    requires forall k | k in b && b[k].account.row != Pending :: c[k].account.row != Pending
    ensures |Decided(a, c)| == |Decided(a, b)| + |Decided(b, c)|
  {
    assert Decided(a, c) == Decided(a, b) + Decided(b, c);
    assert Decided(a, b) !! Decided(b, c);
  }

  class Service {
    var rows: map<PayKey, Row>

    ghost predicate Valid()
      reads this
    {
      TableOk(rows)
    }

    constructor ()
      ensures Valid() && rows == map[]
    {
      rows := map[];
    }

    /**
     Idempotent on the key: a fresh key opens a row and charges; a decided row answers as it is; an
     undecided one resumes; a key reused for another order or amount is refused with nothing changed.
     */
    method ChargeFor(key: PayKey, order: OrderRef, amount: nat, decision: Charge) returns (reply: Reply)
      requires Valid() && decision != Unseen
      modifies this
      ensures Valid()
      ensures reply == Conflict <==>
                key in old(rows)
                && (old(rows)[key].order != order || old(rows)[key].account.amount != amount)
      ensures reply == Conflict ==> rows == old(rows)
      ensures reply != Conflict ==>
                key in rows && rows == old(rows)[key := rows[key]]
                && reply == Status(rows[key].account.row)
      ensures reply != Conflict ==> rows[key].order == order && rows[key].account.amount == amount
      ensures reply != Conflict ==> Follows(if key in old(rows) then old(rows)[key].account else NEW, rows[key].account)
      ensures key in old(rows) && old(rows)[key].account.row != Pending ==> rows == old(rows)
      ensures key in old(rows) && old(rows)[key].account.charge != Unseen ==>
                rows[key].account.captured == old(rows)[key].account.captured
      ensures key !in old(rows) ==> rows[key].account.charge == decision && RowFits(rows[key].account.row, decision)
      ensures key in old(rows) && reply != Conflict && old(rows)[key].account.row == Pending ==>
                var was := old(rows)[key].account.charge;
                && rows[key].account.charge == (if was == Unseen then decision else was)
                && RowFits(rows[key].account.row, rows[key].account.charge)
      ensures reply != Conflict && (key !in old(rows) || old(rows)[key].account.row == Pending) ==>
                rows[key].account.captured == if reply == Status(Succeeded) then amount else 0
    {
      hide Inv, MoneyInv, Legal, Run, Follows, Charged;
      ghost var before := if key in rows then rows[key].account else NEW;
      NewIsOk();
      Unmoved(before);
      if key in rows {
        var row := rows[key];
        if row.order != order || row.account.amount != amount {
          return Conflict;
        }
        if row.account.row != Pending {
          return Status(row.account.row);
        }
      } else {
        Followed(before, before, Create(amount));
        rows := rows[key := Row(order, Next(NEW, Create(amount)))];
      }
      var account := Charged(rows[key].account, decision);
      ChargedFollows(before, rows[key].account, decision);
      FollowsKeepsInv(before, rows[key].account);
      InvIsMoney(rows[key].account);
      ChargedObeysProvider(rows[key].account, decision);
      FollowsKeepsInv(before, account);
      rows := rows[key := Row(order, account)];
      reply := Status(account.row);
    }

    /** Answers `true` exactly when the money is confirmed back. */
    method Refund(key: PayKey, grants: bool) returns (ok: bool)
      requires Valid()
      modifies this
      ensures Valid()
      ensures key !in old(rows) ==> rows == old(rows) && !ok
      ensures key in old(rows) ==>
                key in rows && rows == old(rows)[key := rows[key]]
                && ok == (rows[key].account.row == Refunded)
      ensures key in old(rows) ==> Follows(old(rows)[key].account, rows[key].account)
      ensures ok ==> Net(rows[key].account) == 0
      ensures key in old(rows) && old(rows)[key].account.row == Succeeded && !ok ==>
                rows[key].account.row == Succeeded && Net(rows[key].account) == rows[key].account.amount
      ensures key in old(rows) && old(rows)[key].account.row != Succeeded ==> rows == old(rows)
      ensures key in old(rows) && old(rows)[key].account.row == Succeeded ==>
                var was := old(rows)[key].account;
                match was.refund {
                  case NotAsked => ok <==> grants && was.hasRef
                  case Returned => ok
                  case Refused => !ok
                }
    {
      if key !in rows {
        return false;
      }
      var a := rows[key].account;
      assert MoneyInv(a) by { assert Inv(a); }
      RefundFollows(a, grants);
      if a.row == Succeeded {
        RefundObeysProvider(a, grants);
      }
      hide Inv, Legal, Run, Follows;
      FollowsKeepsInv(a, RefundAsked(a, grants));
      RefundKeepsAmount(a, grants);
      rows := rows[key := rows[key].(account := RefundAsked(a, grants))];
      ok := rows[key].account.row == Refunded;
    }

    /**
     A verified notification: applied once, ignored when late or repeated, refused for an unknown key. The
     service believes it; the table stays true exactly when what it applied is what the provider decided.
     */
    method HandleWebhook(key: PayKey, succeeded: bool, withRef: bool) returns (known: bool, changed: bool)
      requires Valid()
      modifies this
      ensures known == (key in old(rows))
      ensures changed <==> known && old(rows)[key].account.row == Pending
      ensures !changed ==> rows == old(rows)
      ensures changed ==>
                var row := old(rows)[key];
                rows == old(rows)[key := row.(account := Notified(row.account, succeeded, withRef))]
      ensures Valid() <==> (changed ==> old(rows)[key].account.charge == Told(succeeded))
    {
      if key !in rows {
        return false, false;
      }
      var a := rows[key].account;
      if a.row != Pending {
        return true, false;
      }
      NotifiedTrueIff(a, succeeded, withRef);
      OneRowDecides(rows, key, rows[key].(account := Notified(a, succeeded, withRef)));
      hide Inv, Notified;
      rows := rows[key := rows[key].(account := Notified(a, succeeded, withRef))];
      return true, true;
    }

    /** One leg of the reconciliation pass; a look-up that raises (`down`) postpones its row. */
    method Sweep(keys: seq<PayKey>, stale: bool, down: set<PayKey>) returns (resolved: nat)
      requires Valid()
      requires forall i | 0 <= i < |keys| :: keys[i] in rows
      requires forall i, j | 0 <= i < j < |keys| :: keys[i] != keys[j]
      modifies this
      ensures Valid() && rows.Keys == old(rows).Keys
      ensures forall k | k in rows ::
                rows[k] == if k in keys && k !in down
                    then old(rows)[k].(account := LookedUp(old(rows)[k].account, stale)) else old(rows)[k]
      ensures resolved == |Decided(old(rows), rows)|
    {
      hide Inv, LookedUp, Follows;
      resolved := 0;
      var n := 0;
      ghost var before := rows;
      assert Decided(before, before) == {};
      while n < |keys|
        invariant 0 <= n <= |keys|
        invariant Valid() && rows.Keys == before.Keys
        invariant forall k | k in rows ::
                    rows[k] == if k in keys[..n] && k !in down
                        then before[k].(account := LookedUp(before[k].account, stale)) else before[k]
        invariant resolved == |Decided(before, rows)|
      {
        var key := keys[n];
        assert keys[..n + 1] == keys[..n] + [key];
        assert key !in keys[..n];
        if key !in down {
          var a := rows[key].account;
          LookedUpFollows(a, stale);
          FollowsKeepsInv(a, LookedUp(a, stale));
          ghost var was := rows;
          rows := rows[key := rows[key].(account := LookedUp(a, stale))];
          OneMoreDecided(before, was, key, rows[key]);
          if a.row == Pending && rows[key].account.row != Pending {
            resolved := resolved + 1;
          }
        }
        n := n + 1;
      }
      assert keys[..n] == keys;
    }

    /**
     A pass over the rows in the window and the rows past it. Rows the provider decided are decided; a
     row it never saw is given up only when past the window; nothing else changes, and `resolved` is
     exactly the number of rows that left `pending`.
     */
    method Reconcile(due: seq<PayKey>, stale: seq<PayKey>, down: set<PayKey>) returns (resolved: nat)
      requires Valid()
      requires forall i | 0 <= i < |due| :: due[i] in rows
      requires forall i, j | 0 <= i < j < |due| :: due[i] != due[j]
      requires forall i | 0 <= i < |stale| :: stale[i] in rows
      requires forall i, j | 0 <= i < j < |stale| :: stale[i] != stale[j]
      modifies this
      ensures Valid() && rows.Keys == old(rows).Keys
      ensures resolved == |Decided(old(rows), rows)|
      ensures forall k | k in rows && (k in down || (k !in due && k !in stale)) :: rows[k] == old(rows)[k]
      ensures forall k | k in rows && old(rows)[k].account.row != Pending :: rows[k] == old(rows)[k]
      ensures forall k | k in rows && k !in down && (k in due || k in stale) && old(rows)[k].account.row == Pending ::
                match old(rows)[k].account.charge {
                  case Captured => rows[k].account.row == Succeeded
                  case Declined => rows[k].account.row == Failed && !rows[k].account.abandoned
                  case Processing => rows[k] == old(rows)[k]
                  case Unseen =>
                    if k in stale then rows[k].account.row == Failed && rows[k].account.abandoned
                    else rows[k] == old(rows)[k]
                }
    {
      hide Inv, LookedUp, Decided;
      PendingNotAbandoned(rows);
      forall x: Account, late: bool | x.row == Pending ==> !x.abandoned
        ensures x.row != Pending ==> LookedUp(x, late) == x
        ensures LookedUp(x, late).charge == x.charge
        ensures x.row == Pending && x.charge == Captured ==> LookedUp(x, late).row == Succeeded
        ensures x.row == Pending && x.charge == Declined ==>
                  LookedUp(x, late).row == Failed && !LookedUp(x, late).abandoned
        ensures x.row == Pending && x.charge == Unseen && late ==>
                  LookedUp(x, late).row == Failed && LookedUp(x, late).abandoned
        ensures x.charge == Processing || (x.charge == Unseen && !late) ==> LookedUp(x, late) == x
      {
        LookedUpFacts(x, late);
      }
      ghost var a := rows;
      var first := Sweep(due, false, down);
      ghost var b := rows;
      var second := Sweep(stale, true, down);
      DecidedInTwo(a, b, rows);
      resolved := first + second;
    }
  }

  lemma PendingNotAbandoned(rows: map<PayKey, Row>)
    requires TableOk(rows)
    ensures forall k | k in rows && rows[k].account.row == Pending :: !rows[k].account.abandoned
  {
    forall k | k in rows ensures MoneyInv(rows[k].account) {
      InvIsMoney(rows[k].account);
    }
  }

  lemma InvIsMoney(a: Account)
    requires Inv(a)
    ensures MoneyInv(a)
  {
  }

  lemma NewIsOk()
    ensures Inv(NEW)
  {
    assert Announced(NEW);
  }

  lemma RefundKeepsAmount(a: Account, grants: bool)
    ensures RefundAsked(a, grants).amount == a.amount && (a.row != NoRow ==> RefundAsked(a, grants).row != NoRow)
  {
  }

  lemma OneMoreDecided(before: map<PayKey, Row>, was: map<PayKey, Row>, key: PayKey, now: Row)
    requires key in before && was.Keys == before.Keys && was[key] == before[key]
    requires before[key].account.row != Pending ==> now.account.row != Pending
    ensures |Decided(before, was[key := now])|
         == |Decided(before, was)| + (if before[key].account.row == Pending && now.account.row != Pending then 1 else 0)
  {
    if before[key].account.row == Pending && now.account.row != Pending {
      assert Decided(before, was[key := now]) == Decided(before, was) + {key};
    } else {
      assert Decided(before, was[key := now]) == Decided(before, was);
    }
  }
}
