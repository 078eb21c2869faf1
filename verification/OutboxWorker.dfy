/** The outbox worker: polls in batches, publishes, marks rows delivered. */
module OutboxWorker {
  import opened Messages
  import opened Batches

  const BATCH := 100

  /** A message the broker accepted, with the outbox row it came from. */
  datatype Sent = Sent(row: nat, message: Message)

  function Undelivered(rows: seq<OutboxRow>): set<nat> {
    set i | 0 <= i < |rows| && !rows[i].delivered
  }

  function Members(batch: seq<nat>): set<nat> {
    set k | 0 <= k < |batch| :: batch[k]
  }

  /** WHERE delivered = false ORDER BY id LIMIT 100. */
  ghost predicate FirstUndelivered(rows: seq<OutboxRow>, batch: seq<nat>) {
    && Members(batch) <= Undelivered(rows)
    && (forall j, k :: 0 <= j < k < |batch| ==> batch[j] < batch[k])
    && |batch| <= 100
    && (|batch| < 100 ==> Members(batch) == Undelivered(rows))
    && (forall k, i :: 0 <= k < |batch| && i in Undelivered(rows) - Members(batch) ==> batch[k] < i)
  }

  function Marked(rows: seq<OutboxRow>, xs: set<nat>): seq<OutboxRow> {
    seq(|rows|, i requires 0 <= i < |rows| => if i in xs then rows[i].(delivered := true) else rows[i])
  }

  /** Sent rows are exactly those of a set, each once, each with its own message. */
  ghost predicate SendsOnce(rows: seq<OutboxRow>, sent: seq<Sent>, xs: set<nat>) {
    && (forall k :: 0 <= k < |sent| ==>
          sent[k].row in xs && sent[k].row < |rows| && sent[k].message == rows[sent[k].row].message)
    && (forall j, k :: 0 <= j < k < |sent| ==> sent[j].row != sent[k].row)
    && (forall i :: i in xs ==> WasSent(sent, i))
  }

  predicate WasSent(sent: seq<Sent>, i: nat) {
    exists k :: 0 <= k < |sent| && sent[k].row == i
  }

  lemma SendMore(rows: seq<OutboxRow>, sent: seq<Sent>, xs: set<nat>, i: nat)
    requires SendsOnce(rows, sent, xs) && i !in xs && i < |rows|
    ensures SendsOnce(rows, sent + [Sent(i, rows[i].message)], xs + {i})
  {
    var more := sent + [Sent(i, rows[i].message)];
    assert more[|sent|].row == i;
    SentStays(sent, [Sent(i, rows[i].message)]);
  }

  /** Row i done on top of the rows done so far. */
  lemma OneMore(
    rows: seq<OutboxRow>, sent: seq<Sent>, done: set<nat>, i: nat, unpublished: set<nat>, unmarked: set<nat>)
    requires SendsOnce(rows, sent, done - unpublished) && i !in done && i < |rows|
    ensures |Marked(rows, done - unpublished - unmarked)| == |rows|
    ensures Marked(rows, done - unpublished - unmarked)[i] == rows[i]
    ensures
      var before := Marked(rows, done - unpublished - unmarked);
      Marked(rows, done + {i} - unpublished - unmarked) ==
        if i in unpublished || i in unmarked then before else before[i := rows[i].(delivered := true)]
    ensures
      var more := if i in unpublished then sent else sent + [Sent(i, rows[i].message)];
      SendsOnce(rows, more, done + {i} - unpublished)
  {
    if i in unpublished {
      assert done + {i} - unpublished == done - unpublished;
    } else {
      assert done + {i} - unpublished == done - unpublished + {i};
      SendMore(rows, sent, done - unpublished, i);
    }
  }

  lemma SentStays(sent: seq<Sent>, more: seq<Sent>)
    ensures forall i :: WasSent(sent, i) ==> WasSent(sent + more, i)
    ensures forall i :: WasSent(more, i) ==> WasSent(sent + more, i)
  {
    forall i | WasSent(sent, i) ensures WasSent(sent + more, i) {
      var k :| 0 <= k < |sent| && sent[k].row == i;
      assert (sent + more)[k].row == i;
    }
    forall i | WasSent(more, i) ensures WasSent(sent + more, i) {
      var k :| 0 <= k < |more| && more[k].row == i;
      assert (sent + more)[|sent| + k].row == i;
    }
  }

  lemma {:induction false} BatchSize(batch: seq<nat>)
    requires forall j, k :: 0 <= j < k < |batch| ==> batch[j] < batch[k]
    ensures |Members(batch)| == |batch|
  {
    if batch == [] {
      assert Members(batch) == {};
    } else {
      var init, last := batch[..|batch| - 1], batch[|batch| - 1];
      BatchSize(init);
      MembersMore(init, last);
      assert batch == init + [last];
      assert last !in Members(init);
    }
  }

  lemma MembersMore(batch: seq<nat>, i: nat)
    ensures Members(batch + [i]) == Members(batch) + {i}
  {
    var more := batch + [i];
    forall x | x in Members(batch) ensures x in Members(more) {
      var k :| 0 <= k < |batch| && batch[k] == x;
      assert more[k] == x;
    }
    assert more[|batch|] == i;
  }

  lemma MembersAre(batch: seq<nat>, i: nat)
    ensures i in Members(batch) <==> i in batch
  {
  }

  /** What a batch says of the rows: those in it are undelivered, in the order of their ids; an undelivered
      row outside it was cut off by the limit, and comes after all of them. */
  lemma BatchMeans(rows: seq<OutboxRow>, batch: seq<nat>)
    requires FirstUndelivered(rows, batch)
    ensures |batch| <= 100
    ensures forall k :: 0 <= k < |batch| ==> batch[k] < |rows| && !rows[batch[k]].delivered
    ensures forall j, k :: 0 <= j < k < |batch| ==> batch[j] < batch[k]
    ensures forall i :: 0 <= i < |rows| && !rows[i].delivered && i !in batch ==>
      |batch| == 100 && forall k :: 0 <= k < |batch| ==> batch[k] < i
  {
    assert forall k :: 0 <= k < |batch| ==> batch[k] in Members(batch);
    forall i | 0 <= i < |rows| && !rows[i].delivered && i !in batch
      ensures |batch| == 100 && forall k :: 0 <= k < |batch| ==> batch[k] < i
    {
      MembersAre(batch, i);
      assert i in Undelivered(rows) - Members(batch);
      forall k | 0 <= k < |batch| ensures batch[k] < i {
      }
    }
  }

  /** After an error-free poll a full batch is off the list of undelivered rows. */
  lemma PollClears(rows: seq<OutboxRow>, batch: seq<nat>)
    requires FirstUndelivered(rows, batch)
    ensures
      var n := |Undelivered(rows)|;
      |Undelivered(Marked(rows, Members(batch)))| == if n <= 100 then 0 else n - 100
  {
    assert Undelivered(Marked(rows, Members(batch))) == Undelivered(rows) - Members(batch);
    SubsetSize(Members(batch), Undelivered(rows));
    BatchSize(batch);
  }

  class Worker {
    var rows: seq<OutboxRow>
    var published: seq<Sent>

    /** A row marked delivered was published, and every published message is that of its row. */
    ghost predicate Valid()
      reads this
    {
      && (forall i :: 0 <= i < |rows| && rows[i].delivered ==> WasSent(published, i))
      && (forall k :: 0 <= k < |published| ==>
            published[k].row < |rows| && published[k].message == rows[published[k].row].message)
    }

    constructor ()
      ensures Valid() && rows == [] && published == []
    {
      rows, published := [], [];
    }

    method Insert(m: Message)
      requires Valid()
      modifies `rows
      ensures Valid() && rows == Messages.Insert(old(rows), m)
    {
      rows := rows + [OutboxRow(m, false)];
    }

    method SelectBatch() returns (batch: seq<nat>)
      ensures FirstUndelivered(rows, batch)
    {
      batch := [];
      var i := 0;
      while i < |rows| && |batch| < BATCH
        invariant i <= |rows| && |batch| <= BATCH
        invariant forall j, k :: 0 <= j < k < |batch| ==> batch[j] < batch[k]
        invariant forall x :: x in Members(batch) <==> x in Undelivered(rows) && x < i
        invariant forall k :: 0 <= k < |batch| ==> batch[k] < i
      {
        if !rows[i].delivered {
          MembersMore(batch, i);
          batch := batch + [i];
        }
        i := i + 1;
      }
    }

    /** One poll. The worker pool takes the jobs in any order; unpublished: rows the broker refuses,
        unmarked: rows whose update fails after they were published. */
    method ProcessBatch(unpublished: set<nat>, unmarked: set<nat>)
      returns (ghost batch: seq<nat>, ghost sent: seq<Sent>)
      requires Valid()
      modifies this
      ensures Valid() && FirstUndelivered(old(rows), batch)
      ensures rows == Marked(old(rows), Members(batch) - unpublished - unmarked)
      ensures published == old(published) + sent && SendsOnce(old(rows), sent, Members(batch) - unpublished)
    {
      var jobs := SelectBatch();
      batch := jobs;
      sent := Publish(Members(jobs), unpublished, unmarked);
    }

    /** The jobs, one after the other in any order. */
    method Publish(jobs: set<nat>, unpublished: set<nat>, unmarked: set<nat>) returns (ghost sent: seq<Sent>)
      requires Valid() && forall i :: i in jobs ==> i < |rows|
      modifies this
      ensures Valid() && rows == Marked(old(rows), jobs - unpublished - unmarked)
      ensures published == old(published) + sent && SendsOnce(old(rows), sent, jobs - unpublished)
    {
      var todo := jobs;
      sent := [];
      ghost var rows0, done: set<nat> := rows, {};
      assert rows == Marked(rows0, {} - unpublished - unmarked);
      assert SendsOnce(rows0, [], {} - unpublished);
      hide Marked, SendsOnce;
      while todo != {}
        invariant done !! todo && done + todo == jobs
        invariant Valid() && rows == Marked(rows0, done - unpublished - unmarked)
        invariant published == old(published) + sent && SendsOnce(rows0, sent, done - unpublished)
      {
        var i :| i in todo;
        OneMore(rows0, sent, done, i, unpublished, unmarked);
        if i !in unpublished {
          PublishRow(i, i !in unmarked);
          sent := sent + [Sent(i, rows0[i].message)];
        }
        todo, done := todo - {i}, done + {i};
      }
      assert done == jobs;
    }

    /** Publish a row and, if its update works, mark it. */
    method PublishRow(i: nat, mark: bool)
      requires Valid() && i < |rows|
      modifies this
      ensures Valid() && published == old(published) + [Sent(i, old(rows)[i].message)]
      ensures rows == if mark then old(rows)[i := old(rows)[i].(delivered := true)] else old(rows)
    {
      SentStays(published, [Sent(i, rows[i].message)]);
      published := published + [Sent(i, rows[i].message)];
      assert WasSent(published, i) by {
        assert published[|published| - 1].row == i;
      }
      if mark {
        rows := rows[i := rows[i].(delivered := true)];
      }
    }

    /** Error-free polls: each clears a full batch, until nothing is left. */
    method Drain(polls: nat)
      requires Valid()
      modifies this
      ensures Valid() && |Undelivered(rows)| == Left(old(|Undelivered(rows)|), 100, polls)
      ensures old(|Undelivered(rows)|) <= 100 * polls ==> forall i :: 0 <= i < |rows| ==> rows[i].delivered
    {
      ghost var n := |Undelivered(rows)|;
      for p := 0 to polls
        invariant Valid() && |Undelivered(rows)| == Left(n, BATCH, p)
      {
        ghost var before := rows;
        ghost var batch, _ := ProcessBatch({}, {});
        assert Members(batch) - {} - {} == Members(batch);
        PollClears(before, batch);
        OnePassMore(n, BATCH, p, |Undelivered(before)| - |Undelivered(rows)|);
      }
      assert forall i :: 0 <= i < |rows| && !rows[i].delivered ==> i in Undelivered(rows);
    }
  }
}
