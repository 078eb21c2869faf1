/** The payment database as its repositories update it. */
module PaymentStore {
  import opened Messages
  import opened Batches
  import opened PaymentTables
  import opened P = PaymentSteps

  /** An active transaction past its deadline. */
  predicate Overdue(row: Txn, now: int) {
    IsActive(row.status) && Due(row, now)
  }

  function OverdueSet(txns: map<nat, Txn>, now: int): set<nat> {
    set x | x in txns && Overdue(txns[x], now)
  }

  function Listed(rows: seq<Seen>): set<nat> {
    set i | 0 <= i < |rows| :: rows[i].txn
  }

  predicate Distinct(rows: seq<Seen>) {
    forall i, j :: 0 <= i < j < |rows| ==> rows[i].txn != rows[j].txn
  }

  predicate NoLater(a: Txn, b: Txn) {
    a.expiresAt.Some? && b.expiresAt.Some? && a.expiresAt.value <= b.expiresAt.value
  }

  /** The query of ListActiveExpired: overdue rows, each once, earliest deadlines first, at most
      limit of them, and none left out that is due before one that is listed. */
  ghost predicate EarliestOverdue(txns: map<nat, Txn>, now: int, limit: nat, rows: seq<Seen>) {
    && Current(txns, rows) && Distinct(rows)
    && Listed(rows) <= OverdueSet(txns, now)
    && |rows| <= limit
    && (|rows| < limit ==> Listed(rows) == OverdueSet(txns, now))
    && (forall i, j :: 0 <= i < j < |rows| ==> NoLater(rows[i].snap, rows[j].snap))
    && (forall i, x :: 0 <= i < |rows| && x in OverdueSet(txns, now) - Listed(rows) ==> NoLater(rows[i].snap, txns[x]))
  }

  lemma {:induction false} ListedSize(rows: seq<Seen>)
    requires Distinct(rows)
    ensures |Listed(rows)| == |rows|
  {
    if rows == [] {
      assert Listed(rows) == {};
    } else {
      var init, last := rows[..|rows| - 1], rows[|rows| - 1];
      ListedSize(init);
      ListedMore(init, last);
      assert rows == init + [last];
    }
  }

  lemma ListedMore(rows: seq<Seen>, row: Seen)
    ensures Listed(rows + [row]) == Listed(rows) + {row.txn}
  {
    var more := rows + [row];
    forall x | x in Listed(rows) ensures x in Listed(more) {
      var i :| 0 <= i < |rows| && rows[i].txn == x;
      assert more[i].txn == x;
    }
    assert more[|rows|].txn == row.txn;
  }

  lemma OverdueMeans(txns: map<nat, Txn>, now: int)
    ensures forall x :: x in OverdueSet(txns, now) <==>
      && x in txns && (txns[x].status.Initiated? || txns[x].status.Pending?)
      && txns[x].expiresAt.Some? && txns[x].expiresAt.value <= now
  {
  }

  /** What a listing says of the rows: those listed are initiated or pending and past their deadline, in the
      order of their deadlines; such a row that is not listed was cut off by the limit, and is due no
      earlier than any listed one. */
  lemma ListingMeans(txns: map<nat, Txn>, now: int, limit: nat, rows: seq<Seen>)
    requires EarliestOverdue(txns, now, limit, rows)
    ensures |rows| <= limit
    ensures forall i :: 0 <= i < |rows| ==>
      var row := rows[i].snap;
      && rows[i].txn in txns && txns[rows[i].txn] == row
      && (row.status.Initiated? || row.status.Pending?) && row.expiresAt.Some? && row.expiresAt.value <= now
    ensures forall i, j :: 0 <= i < j < |rows| ==>
      rows[i].txn != rows[j].txn && rows[i].snap.expiresAt.value <= rows[j].snap.expiresAt.value
    ensures forall x :: x in txns && !IsListed(rows, x) ==>
      || (!txns[x].status.Initiated? && !txns[x].status.Pending?)
      || txns[x].expiresAt.None? || txns[x].expiresAt.value > now
      || (|rows| == limit &&
          forall i :: 0 <= i < |rows| ==> rows[i].snap.expiresAt.value <= txns[x].expiresAt.value)
  {
    OverdueMeans(txns, now);
    forall i | 0 <= i < |rows| ensures rows[i].txn in OverdueSet(txns, now) {
      assert rows[i].txn in Listed(rows);
    }
    forall x | x in OverdueSet(txns, now) && !IsListed(rows, x)
      ensures |rows| == limit && forall i :: 0 <= i < |rows| ==> rows[i].snap.expiresAt.value <= txns[x].expiresAt.value
    {
      assert x !in Listed(rows);
      forall i | 0 <= i < |rows| ensures NoLater(rows[i].snap, txns[x]) {
      }
    }
  }

  predicate IsListed(rows: seq<Seen>, x: nat) {
    exists i :: 0 <= i < |rows| && rows[i].txn == x
  }

  /** A full listing is as long as the limit allows. */
  lemma ListingSize(txns: map<nat, Txn>, now: int, limit: nat, rows: seq<Seen>)
    requires EarliestOverdue(txns, now, limit, rows)
    ensures |rows| == if |OverdueSet(txns, now)| <= limit then |OverdueSet(txns, now)| else limit
  {
    ListedSize(rows);
    SubsetSize(Listed(rows), OverdueSet(txns, now));
  }

  class PaymentDb {
    var txns: map<nat, Txn>
    var refunds: map<RefundKey, Refund>
    var outbox: seq<OutboxRow>

    /** booking_id is unique. */
    ghost predicate Valid()
      reads this
    {
      forall x, y :: x in txns && y in txns && txns[x].booking == txns[y].booking ==> x == y
    }

    constructor ()
      ensures Valid() && txns == map[] && refunds == map[] && outbox == []
    {
      txns, refunds, outbox := map[], map[], [];
    }

    method FindByBookingID(booking: nat) returns (found: Option<Seen>)
      ensures found.Some? ==>
        found.value.txn in txns && txns[found.value.txn] == found.value.snap && found.value.snap.booking == booking
      ensures found.None? ==> forall x :: x in txns ==> txns[x].booking != booking
    {
      var todo := txns.Keys;
      while todo != {}
        invariant todo <= txns.Keys
        invariant forall x :: x in txns && x !in todo ==> txns[x].booking != booking
      {
        var x :| x in todo;
        if txns[x].booking == booking {
          return Some(Seen(x, txns[x]));
        }
        todo := todo - {x};
      }
      found := None;
    }

    /** INSERT; refused, without effect, on a second row for the booking. */
    method Create(x: nat, row: Txn) returns (ok: bool)
      requires Valid() && x !in txns
      modifies `txns
      ensures Valid()
      ensures ok <==> forall y :: y in old(txns) ==> old(txns)[y].booking != row.booking
      ensures txns == if ok then old(txns)[x := row] else old(txns)
    {
      var found := FindByBookingID(row.booking);
      ok := found.None?;
      if ok {
        txns := txns[x := row];
      }
    }

    method TransitionIfActive(x: nat, to: TxnStatus, ref: SessionRef) returns (applied: bool)
      requires Valid()
      modifies `txns
      ensures Valid() && (applied <==> x in old(txns) && IsActive(old(txns)[x].status))
      ensures txns ==
        if x in old(txns) then old(txns)[x := PaymentTables.TransitionIfActive(old(txns)[x], to, ref)] else old(txns)
    {
      applied := x in txns && IsActive(txns[x].status);
      if applied {
        txns := txns[x := txns[x].(status := to, ref := ref)];
      }
    }

    method TransitionIfInitiated(x: nat, to: TxnStatus, ref: SessionRef) returns (applied: bool)
      requires Valid()
      modifies `txns
      ensures Valid() && (applied <==> x in old(txns) && old(txns)[x].status.Initiated?)
      ensures txns ==
        if x in old(txns) then old(txns)[x := PaymentTables.TransitionIfInitiated(old(txns)[x], to, ref)] else old(txns)
    {
      applied := x in txns && txns[x].status.Initiated?;
      if applied {
        txns := txns[x := txns[x].(status := to, ref := ref)];
      }
    }

    method UpdateSession(x: nat, ref: SessionRef)
      requires Valid()
      modifies `txns
      ensures Valid() && txns == if x in old(txns) then old(txns)[x := old(txns)[x].(ref := ref)] else old(txns)
    {
      if x in txns {
        txns := txns[x := txns[x].(ref := ref)];
      }
    }

    method MarkRefundPending(x: nat)
      requires Valid()
      modifies `txns
      ensures Valid() && txns ==
        if x in old(txns) then old(txns)[x := old(txns)[x].(refund := RefundPending)] else old(txns)
    {
      if x in txns {
        txns := txns[x := txns[x].(refund := RefundPending)];
      }
    }

    /** Insert-or-nothing on the idempotency key. */
    method CreateRefund(key: RefundKey, r: Refund)
      modifies `refunds
      ensures refunds == InsertRefund(old(refunds), key, r)
    {
      if key !in refunds {
        refunds := refunds[key := r];
      }
    }

    method Post(m: Message)
      modifies `outbox
      ensures outbox == Insert(old(outbox), m)
    {
      outbox := Insert(outbox, m);
    }

    /** The row with the earliest deadline among some overdue ones. */
    method Earliest(some: set<nat>, now: int) returns (x: nat)
      requires some != {} && some <= OverdueSet(txns, now)
      ensures x in some && forall y :: y in some ==> NoLater(txns[x], txns[y])
    {
      x :| x in some;
      var todo := some - {x};
      while todo != {}
        invariant x in some && todo <= some
        invariant forall y :: y in some - todo ==> NoLater(txns[x], txns[y])
      {
        var y :| y in todo;
        if txns[y].expiresAt.value < txns[x].expiresAt.value {
          x := y;
        }
        todo := todo - {y};
      }
    }

    method ListActiveExpired(now: int, limit: nat) returns (rows: seq<Seen>)
      ensures EarliestOverdue(txns, now, limit, rows)
    {
      rows := [];
      var left := OverdueSet(txns, now);
      while |rows| < limit && left != {}
        invariant |rows| <= limit
        invariant Current(txns, rows) && Distinct(rows)
        invariant left <= OverdueSet(txns, now) && Listed(rows) == OverdueSet(txns, now) - left
        invariant forall i, j :: 0 <= i < j < |rows| ==> NoLater(rows[i].snap, rows[j].snap)
        invariant forall i, x :: 0 <= i < |rows| && x in left ==> NoLater(rows[i].snap, txns[x])
      {
        var x := Earliest(left, now);
        ListedMore(rows, Seen(x, txns[x]));
        assert forall i :: 0 <= i < |rows| ==> rows[i].txn in Listed(rows);
        rows := rows + [Seen(x, txns[x])];
        left := left - {x};
      }
    }

    /** Every transaction of the event once. */
    method ListByEventID(e: nat) returns (rows: seq<Seen>)
      ensures Current(txns, rows) && Distinct(rows)
      ensures Listed(rows) == set x | x in txns && txns[x].event == e
    {
      rows := [];
      var todo := txns.Keys;
      while todo != {}
        invariant todo <= txns.Keys && Current(txns, rows) && Distinct(rows)
        invariant Listed(rows) == set x | x in txns && x !in todo && txns[x].event == e
      {
        var x :| x in todo;
        todo := todo - {x};
        if txns[x].event == e {
          assert forall i :: 0 <= i < |rows| ==> rows[i].txn in Listed(rows);
          ListedMore(rows, Seen(x, txns[x]));
          rows := rows + [Seen(x, txns[x])];
        }
      }
    }
  }
}
