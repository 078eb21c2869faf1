/** A handler that nobody disturbs: the steps of TicketingSteps, taken one after the other, do
    what the handler functions of Handlers say. */
module Undisturbed {
  import opened TicketingTables
  import T = TicketingSteps
  import TS = TicketingShape
  import H = Handlers
  import B = BookingService

  function TablesOf(s: T.State): H.Tables {
    H.Tables(s.events, s.types, s.bookings)
  }

  /** Read the booking, read the event, then the guarded update. */
  function ConfirmRun(s: T.State, h: nat, id: nat): seq<T.Action>
    requires id in s.bookings
  {
    [T.ByDesk(T.StartConfirm(h, id)), T.ByDesk(T.ReadEvent(h)),
     T.ByDesk(if T.IsPublished(s, s.bookings[id].event) then T.ConfirmBooking(h) else T.CancelDead(h))]
  }

  lemma ConfirmAlone(s: T.State, h: nat, id: nat)
    requires h !in s.handlers && T.StillPending(s, id)
    ensures T.Runs(s, ConfirmRun(s, h, id))
    ensures TablesOf(T.End(s, ConfirmRun(s, h, id))) == H.Confirm(TablesOf(s), id)
    ensures T.End(s, ConfirmRun(s, h, id)).handlers ==
      if T.IsPublished(s, s.bookings[id].event) then s.handlers[h := T.Issuing(id, s.bookings[id], 0)] else s.handlers
  {
    var run := ConfirmRun(s, h, id);
    var s1 := T.ApplyDesk(s, T.StartConfirm(h, id));
    assert s1.handlers[h] == T.Confirming(id, s.bookings[id]);
    var s2 := T.ApplyDesk(s1, T.ReadEvent(h));
    hide T.ApplyDesk;
    ConfirmHandlers(s, s1, s2, h, id);
    ConfirmTables(s, s1, s2, h, id);
    ThreeSteps(s, s1, s2, run);
  }

  lemma ConfirmTables(s: T.State, s1: T.State, s2: T.State, h: nat, id: nat)
    requires h !in s.handlers && T.StillPending(s, id)
    requires s1 == T.ApplyDesk(s, T.StartConfirm(h, id))
    requires T.DeskEnabled(s1, T.ReadEvent(h)) && s2 == T.ApplyDesk(s1, T.ReadEvent(h))
    ensures var live := T.IsPublished(s, s.bookings[id].event);
      && T.DeskEnabled(s2, if live then T.ConfirmBooking(h) else T.CancelDead(h))
      && TablesOf(T.ApplyDesk(s2, if live then T.ConfirmBooking(h) else T.CancelDead(h))) == H.Confirm(TablesOf(s), id)
  {
    hide ReleaseAll;
    StillThere(s, s1, s2, h, id);
  }

  lemma ConfirmHandlers(s: T.State, s1: T.State, s2: T.State, h: nat, id: nat)
    requires h !in s.handlers && T.StillPending(s, id)
    requires s1 == T.ApplyDesk(s, T.StartConfirm(h, id))
    requires T.DeskEnabled(s1, T.ReadEvent(h)) && s2 == T.ApplyDesk(s1, T.ReadEvent(h))
    ensures var live := T.IsPublished(s, s.bookings[id].event);
      && T.DeskEnabled(s2, if live then T.ConfirmBooking(h) else T.CancelDead(h))
      && T.ApplyDesk(s2, if live then T.ConfirmBooking(h) else T.CancelDead(h)).handlers ==
           if live then s.handlers[h := T.Issuing(id, s.bookings[id], 0)] else s.handlers
  {
    TS.DeskMoves(s, T.StartConfirm(h, id));
    TS.DeskMoves(s1, T.ReadEvent(h));
    StillThere(s, s1, s2, h, id);
    hide T.ApplyDesk;
    var live := T.IsPublished(s, s.bookings[id].event);
    var d := if live then T.ConfirmBooking(h) else T.CancelDead(h);
    TS.DeskMoves(s2, d);
    assert s2.handlers == s.handlers[h := s2.handlers[h]];
    if live {
      assert T.ApplyDesk(s2, d).handlers == s.handlers[h := T.Issuing(id, s.bookings[id], 0)];
    } else {
      assert T.ApplyDesk(s2, d).handlers == s.handlers;
    }
  }

  lemma StillThere(s: T.State, s1: T.State, s2: T.State, h: nat, id: nat)
    requires h !in s.handlers && T.StillPending(s, id)
    requires s1 == T.ApplyDesk(s, T.StartConfirm(h, id))
    requires T.DeskEnabled(s1, T.ReadEvent(h)) && s2 == T.ApplyDesk(s1, T.ReadEvent(h))
    ensures s1.events == s2.events == s.events && s1.bookings == s2.bookings == s.bookings
  {
  }

  lemma ThreeSteps(s: T.State, s1: T.State, s2: T.State, run: seq<T.Action>)
    requires |run| == 3
    requires T.Enabled(s, run[0]) && s1 == T.Apply(s, run[0])
    requires T.Enabled(s1, run[1]) && s2 == T.Apply(s1, run[1])
    requires T.Enabled(s2, run[2])
    ensures T.Runs(s, run) && T.End(s, run) == T.Apply(s2, run[2])
  {
    hide T.Enabled, T.Apply;
    T.Extend(s, [], run[0]);
    T.Extend(s, [run[0]], run[1]);
    T.Extend(s, [run[0], run[1]], run[2]);
    assert [] + [run[0]] == [run[0]] && [run[0]] + [run[1]] == [run[0], run[1]] && [run[0], run[1]] + [run[2]] == run;
  }

  /** A Confirm or expiry handler starts exactly where its code finds the booking pending. */
  lemma StartsExactlyWhenPending(s: T.State, h: nat, id: nat)
    requires h !in s.handlers
    ensures T.DeskEnabled(s, T.StartConfirm(h, id)) <==> H.IsPending(TablesOf(s), id)
    ensures T.DeskEnabled(s, T.StartExpire(h, id)) <==> H.IsPending(TablesOf(s), id)
  {
  }

  /** One ticket per item from the first to the n-th, but for the inserts that are lost. */
  function IssueRun(h: nat, lost: set<nat>, n: nat): seq<T.Action> {
    if n == 0 then []
    else IssueRun(h, lost, n - 1) + [T.ByDesk(if n - 1 in lost then T.IssueFails(h) else T.IssueOne(h))]
  }

  lemma IssueStep(u: T.State, h: nat, id: nat, b: Booking, lost: set<nat>, n: nat)
    requires h in u.handlers && u.handlers[h] == T.Issuing(id, b, n) && n < |b.items|
    ensures var a := if n in lost then T.IssueFails(h) else T.IssueOne(h);
      && T.DeskEnabled(u, a)
      && var v := T.ApplyDesk(u, a);
      && TablesOf(v) == TablesOf(u) && v.handlers == u.handlers[h := T.Issuing(id, b, n + 1)]
      && B.Tickets(id, b, lost, n) + v.outbox[|u.outbox|..] == B.Tickets(id, b, lost, n + 1)
      && u.outbox == v.outbox[..|u.outbox|]
  {
  }

  lemma {:induction false} IssueAlone(
    s: T.State, run0: seq<T.Action>, h: nat, id: nat, b: Booking, lost: set<nat>, n: nat)
    requires T.Runs(s, run0) && n <= |b.items|
    requires h in T.End(s, run0).handlers && T.End(s, run0).handlers[h] == T.Issuing(id, b, 0)
    ensures T.Runs(s, run0 + IssueRun(h, lost, n))
    ensures var u, v := T.End(s, run0), T.End(s, run0 + IssueRun(h, lost, n));
      && TablesOf(v) == TablesOf(u) && v.handlers == u.handlers[h := T.Issuing(id, b, n)]
      && v.outbox == u.outbox + B.Tickets(id, b, lost, n)
  {
    hide T.Runs, T.End;
    if n == 0 {
      assert run0 + [] == run0;
    } else {
      IssueAlone(s, run0, h, id, b, lost, n - 1);
      var run := run0 + IssueRun(h, lost, n - 1);
      var d := if n - 1 in lost then T.IssueFails(h) else T.IssueOne(h);
      IssueStep(T.End(s, run), h, id, b, lost, n - 1);
      hide T.ApplyDesk, T.DeskEnabled, B.Tickets;
      T.Extend(s, run, T.ByDesk(d));
      assert run + [T.ByDesk(d)] == run0 + IssueRun(h, lost, n);
      var u, v, w := T.End(s, run0), T.End(s, run), T.ApplyDesk(T.End(s, run), d);
      assert w.outbox == w.outbox[..|v.outbox|] + w.outbox[|v.outbox|..];
    }
  }

  /** The whole of an undisturbed Confirm, tickets included, whichever outbox inserts are lost: the tables
      change by the handler function, and the outbox gains what the code of Confirm adds to it. */
  lemma ConfirmAndIssueAlone(s: T.State, h: nat, id: nat, lost: set<nat>)
    requires h !in s.handlers && T.StillPending(s, id)
    ensures var b := s.bookings[id];
      var live := T.IsPublished(s, b.event);
      var run := ConfirmRun(s, h, id) + if live then IssueRun(h, lost, |b.items|) else [];
      && T.Runs(s, run)
      && TablesOf(T.End(s, run)) == H.Confirm(TablesOf(s), id)
      && T.End(s, run).outbox == s.outbox + if live then B.Tickets(id, b, lost, |b.items|) else []
  {
    ConfirmAlone(s, h, id);
    ConfirmPostsNothing(s, h, id);
    hide T.Runs, T.End, ConfirmRun, B.Tickets, H.Confirm;
    if T.IsPublished(s, s.bookings[id].event) {
      IssueAlone(s, ConfirmRun(s, h, id), h, id, s.bookings[id], lost, |s.bookings[id].items|);
    } else {
      assert ConfirmRun(s, h, id) + [] == ConfirmRun(s, h, id);
    }
  }

  lemma ConfirmPostsNothing(s: T.State, h: nat, id: nat)
    requires h !in s.handlers && T.StillPending(s, id)
    ensures T.Runs(s, ConfirmRun(s, h, id)) && T.End(s, ConfirmRun(s, h, id)).outbox == s.outbox
  {
    var run := ConfirmRun(s, h, id);
    var s1 := T.ApplyDesk(s, T.StartConfirm(h, id));
    assert s1.handlers[h] == T.Confirming(id, s.bookings[id]);
    var s2 := T.ApplyDesk(s1, T.ReadEvent(h));
    TS.DeskMoves(s, T.StartConfirm(h, id));
    TS.DeskMoves(s1, T.ReadEvent(h));
    hide T.ApplyDesk;
    ConfirmHandlers(s, s1, s2, h, id);
    TS.DeskMoves(s2, run[2].d);
    ThreeSteps(s, s1, s2, run);
  }

  function ExpireRun(h: nat, id: nat): seq<T.Action> {
    [T.ByDesk(T.StartExpire(h, id)), T.ByDesk(T.ExpireBooking(h))]
  }

  lemma ExpireAlone(s: T.State, h: nat, id: nat)
    requires h !in s.handlers && T.StillPending(s, id)
    ensures T.Runs(s, ExpireRun(h, id))
    ensures TablesOf(T.End(s, ExpireRun(h, id))) == H.Expire(TablesOf(s), id)
    ensures T.End(s, ExpireRun(h, id)).handlers == s.handlers
  {
    hide ReleaseAll;
    var run := ExpireRun(h, id);
    T.Extend(s, [], run[0]);
    T.Extend(s, [run[0]], run[1]);
    assert [] + [run[0]] == [run[0]] && [run[0]] + [run[1]] == run;
    assert T.End(s, run).handlers == s.handlers;
  }

  /** List the bookings, then one guarded transition per row. */
  function CancelRun(h: nat, e: nat, rows: seq<SeenBooking>, n: nat): seq<T.Action> {
    [T.ByDesk(T.StartCancel(h, e, rows))] + seq(n, i => T.ByDesk(T.CancelOne(h)))
  }

  lemma CancelStarts(s: T.State, h: nat, e: nat, rows: seq<SeenBooking>)
    requires h !in s.handlers && H.Lists(s.bookings, e, rows)
    ensures T.Runs(s, CancelRun(h, e, rows, 0))
    ensures
      var u := T.End(s, CancelRun(h, e, rows, 0));
      TablesOf(u) == TablesOf(s) && u.handlers == s.handlers[h := T.Cancelling(rows)]
  {
    var a := T.ByDesk(T.StartCancel(h, e, rows));
    T.Extend(s, [], a);
    assert [] + [a] == CancelRun(h, e, rows, 0);
  }

  lemma {:induction false} CancelPartWay(s: T.State, h: nat, e: nat, rows: seq<SeenBooking>, n: nat)
    requires h !in s.handlers && H.Lists(s.bookings, e, rows) && n <= |rows|
    ensures T.Runs(s, CancelRun(h, e, rows, n))
    ensures
      var u := T.End(s, CancelRun(h, e, rows, n));
      TablesOf(u) == H.CancelListed(TablesOf(s), rows[..n]) && u.handlers == s.handlers[h := T.Cancelling(rows[n..])]
  {
    hide H.Lists, H.CancelSeen, T.ApplyDesk, T.Runs, T.End;
    if n == 0 {
      CancelStarts(s, h, e, rows);
      assert rows[0..] == rows;
    } else {
      CancelPartWay(s, h, e, rows, n - 1);
      var run := CancelRun(h, e, rows, n - 1);
      var a := T.ByDesk(T.CancelOne(h));
      T.Extend(s, run, a);
      assert run + [a] == CancelRun(h, e, rows, n);
      CancelOneStep(T.End(s, run), h, rows[n - 1..]);
      assert rows[n - 1..][1..] == rows[n..];
      assert rows[..n][..n - 1] == rows[..n - 1];
    }
  }

  lemma CancelOneStep(u: T.State, h: nat, rows: seq<SeenBooking>)
    requires h in u.handlers && u.handlers[h] == T.Cancelling(rows) && rows != []
    ensures
      var v := T.ApplyDesk(u, T.CancelOne(h));
      TablesOf(v) == H.CancelSeen(TablesOf(u), rows[0]) && v.handlers == u.handlers[h := T.Cancelling(rows[1..])]
  {
    hide ReleaseAll;
  }

  lemma CancelAlone(s: T.State, h: nat, e: nat, rows: seq<SeenBooking>)
    requires h !in s.handlers && H.Lists(s.bookings, e, rows) && H.Capped(s.types)
    ensures T.Runs(s, CancelRun(h, e, rows, |rows|))
    ensures TablesOf(T.End(s, CancelRun(h, e, rows, |rows|))) == H.CancelBookings(TablesOf(s), e)
    ensures T.End(s, CancelRun(h, e, rows, |rows|)).handlers == s.handlers[h := T.Cancelling([])]
  {
    CancelPartWay(s, h, e, rows, |rows|);
    assert rows[..|rows|] == rows && rows[|rows|..] == [];
    H.CancelListedCancelsAll(TablesOf(s), e, rows);
  }
}

/** The same for the payment service. */
module UndisturbedPayment {
  import opened Messages
  import opened PaymentTables
  import opened P = PaymentSteps
  import opened PaymentStore
  import opened PaymentService

  function BooksOf(s: P.State): Books {
    Books(s.txns, s.refunds, s.outbox)
  }

  /** Read, guarded update, then the message or the late refund, with their dropped errors. */
  function WebhookRun(s: P.State, pid: nat, kind: WebhookKind, sid: SessionRef, x: nat, f: WebhookFaults): seq<P.Action>
    requires x in s.txns
  {
    [ByGateway(Receive(pid, kind, sid, x)), ByGateway(Settle(pid))] +
    if IsActive(s.txns[x].status) then [LastPost(pid, f)]
    else if kind.SessionCompleted? && s.txns[x].status.Expired? then LateSteps(pid, f)
    else []
  }

  function LastPost(pid: nat, f: WebhookFaults): P.Action {
    ByGateway(if f.post then AnnounceFails(pid) else Announce(pid))
  }

  function LateSteps(pid: nat, f: WebhookFaults): seq<P.Action> {
    if f.refund then [ByGateway(LateRefundFails(pid))]
    else [ByGateway(RequestLateRefund(pid)),
      ByGateway(if f.mark then MarkLateRefundFails(pid) else MarkLateRefund(pid))]
  }

  lemma WebhookAlone(s: P.State, pid: nat, kind: WebhookKind, sid: SessionRef, x: nat, f: WebhookFaults)
    requires pid !in s.procs && x in s.txns && (sid.NoSession? || sid == s.txns[x].ref)
    ensures P.Runs(s, WebhookRun(s, pid, kind, sid, x, f))
    ensures BooksOf(P.End(s, WebhookRun(s, pid, kind, sid, x, f))) == AfterWebhook(BooksOf(s), x, kind, f)
  {
    var row := s.txns[x];
    var a, b := ByGateway(Receive(pid, kind, sid, x)), ByGateway(Settle(pid));
    var s1 := P.Apply(s, a);
    assert s1.procs[pid] == Webhook(kind, sid, x, row) && BooksOf(s1) == BooksOf(s);
    assert P.Enabled(s1, b);
    var s2 := P.Apply(s1, b);
    P.Extend(s, [], a);
    P.Extend(s, [a], b);
    assert [] + [a] == [a] && [a] + [b] == [a, b];
    if IsActive(row.status) {
      AnnounceAlone(s, [a, b], s2, pid, f);
    } else if kind.SessionCompleted? && row.status.Expired? {
      LateRefundAlone(s, [a, b], s2, pid, f);
    } else {
      assert [a, b] == WebhookRun(s, pid, kind, sid, x, f);
    }
  }

  lemma AnnounceAlone(s: P.State, run: seq<P.Action>, u: P.State, pid: nat, f: WebhookFaults)
    requires P.Runs(s, run) && P.End(s, run) == u && pid in u.procs && u.procs[pid].Announcing?
    ensures P.Runs(s, run + [LastPost(pid, f)])
    ensures BooksOf(P.End(s, run + [LastPost(pid, f)])) ==
      BooksOf(u).(outbox := PostUnlessLost(u.outbox, u.procs[pid].message, f.post))
  {
    P.Extend(s, run, LastPost(pid, f));
  }

  lemma LateRefundAlone(s: P.State, run: seq<P.Action>, u: P.State, pid: nat, f: WebhookFaults)
    requires P.Runs(s, run) && P.End(s, run) == u && pid in u.procs && u.procs[pid].LateRefund?
    requires u.procs[pid].txn in u.txns && u.txns[u.procs[pid].txn] == u.procs[pid].snap
    ensures P.Runs(s, run + LateSteps(pid, f))
    ensures BooksOf(P.End(s, run + LateSteps(pid, f))) == LateRefunded(BooksOf(u), u.procs[pid].txn, f)
  {
    hide InsertRefund;
    var steps := LateSteps(pid, f);
    P.Extend(s, run, steps[0]);
    if f.refund {
      assert run + [steps[0]] == run + steps;
    } else {
      P.Extend(s, run + [steps[0]], steps[1]);
      assert run + [steps[0]] + [steps[1]] == run + steps;
    }
  }

  /** The steps of a poller pass for one row. */
  function RowSteps(pid: nat, x: nat, failing: set<nat>, lost: set<nat>): seq<P.Action> {
    if x in failing then [ByPoller(SkipOne(pid))]
    else [ByPoller(ExpireOne(pid)), ByPoller(if x in lost then AnnounceExpiryFails(pid) else AnnounceExpiry(pid))]
  }

  /** List, then an update and a message per row, as far as the statements work. */
  function PollRun(pid: nat, rows: seq<Seen>, failing: set<nat>, lost: set<nat>, n: nat): seq<P.Action>
    requires n <= |rows|
  {
    if n == 0 then [ByPoller(StartPoll(pid, rows))]
    else PollRun(pid, rows, failing, lost, n - 1) + RowSteps(pid, rows[n - 1].txn, failing, lost)
  }

  ghost predicate PolledTo(
    s: P.State, pid: nat, rows: seq<Seen>, failing: set<nat>, lost: set<nat>, n: nat, u: P.State)
    requires n <= |rows|
  {
    && BooksOf(u) ==
         Books(ExpireSet(s.txns, Listed(rows[..n]) - failing), s.refunds, s.outbox + Expiries(rows[..n], failing, lost))
    && pid in u.procs && u.procs[pid] == Poll(rows[n..])
  }

  /** A listing as the poller may have it. */
  ghost predicate PollListing(s: P.State, rows: seq<Seen>) {
    Current(s.txns, rows) && Distinct(rows) && Listed(rows) <= OverdueSet(s.txns, s.now)
  }

  lemma PollFailingRow(
    s: P.State, pid: nat, rows: seq<Seen>, failing: set<nat>, lost: set<nat>, n: nat, u: P.State)
    requires n < |rows| && PollListing(s, rows) && PolledTo(s, pid, rows, failing, lost, n, u) && rows[n].txn in failing
    ensures P.Enabled(u, ByPoller(SkipOne(pid)))
    ensures PolledTo(s, pid, rows, failing, lost, n + 1, P.Apply(u, ByPoller(SkipOne(pid))))
  {
    PassOn(s.txns, s.now, rows, n, failing);
    assert rows[..n + 1][..n] == rows[..n];
    assert rows[n..][1..] == rows[n + 1..];
    hide ExpireSet, Listed, PollListing;
  }

  lemma PollWorkingRow(
    s: P.State, pid: nat, rows: seq<Seen>, failing: set<nat>, lost: set<nat>, n: nat, u: P.State)
    requires n < |rows| && rows[n].txn !in failing
    requires PollListing(s, rows) && PolledTo(s, pid, rows, failing, lost, n, u)
    ensures P.Enabled(u, ByPoller(ExpireOne(pid)))
    ensures
      var v := P.Apply(u, ByPoller(ExpireOne(pid)));
      var b := ByPoller(if rows[n].txn in lost then AnnounceExpiryFails(pid) else AnnounceExpiry(pid));
      P.Enabled(v, b) && PolledTo(s, pid, rows, failing, lost, n + 1, P.Apply(v, b))
  {
    PassOn(s.txns, s.now, rows, n, failing);
    assert rows[..n + 1][..n] == rows[..n];
    assert rows[n..][1..] == rows[n + 1..];
    hide ExpireSet, Listed, PollListing;
    var v := P.ApplyPoller(u, ExpireOne(pid));
    assert v.procs[pid] == PollAnnouncing(rows[n].txn,
      ExpiredMessage(rows[n].txn, rows[n].snap, InternalExpiryFallback), rows[n + 1..]);
  }

  lemma {:induction false} PollPartWay(
    s: P.State, pid: nat, rows: seq<Seen>, failing: set<nat>, lost: set<nat>, n: nat)
    requires pid !in s.procs && n <= |rows| && PollListing(s, rows)
    ensures P.Runs(s, PollRun(pid, rows, failing, lost, n))
    ensures PolledTo(s, pid, rows, failing, lost, n, P.End(s, PollRun(pid, rows, failing, lost, n)))
  {
    hide PolledTo, PollListing, P.Apply, P.Enabled, P.Runs, P.End;
    if n == 0 {
      PollStarts(s, pid, rows, failing, lost);
    } else {
      PollPartWay(s, pid, rows, failing, lost, n - 1);
      var run, x := PollRun(pid, rows, failing, lost, n - 1), rows[n - 1].txn;
      var steps := RowSteps(pid, x, failing, lost);
      if x in failing {
        PollFailingRow(s, pid, rows, failing, lost, n - 1, P.End(s, run));
        P.Extend(s, run, steps[0]);
        assert run + [steps[0]] == run + steps;
      } else {
        PollWorkingRow(s, pid, rows, failing, lost, n - 1, P.End(s, run));
        P.Extend(s, run, steps[0]);
        P.Extend(s, run + [steps[0]], steps[1]);
        assert run + [steps[0]] + [steps[1]] == run + steps;
      }
    }
  }

  lemma PollStarts(s: P.State, pid: nat, rows: seq<Seen>, failing: set<nat>, lost: set<nat>)
    requires pid !in s.procs && PollListing(s, rows)
    ensures P.Runs(s, PollRun(pid, rows, failing, lost, 0))
    ensures PolledTo(s, pid, rows, failing, lost, 0, P.End(s, PollRun(pid, rows, failing, lost, 0)))
  {
    var a := ByPoller(StartPoll(pid, rows));
    assert forall i :: 0 <= i < |rows| ==> rows[i].txn in Listed(rows);
    assert P.Enabled(s, a);
    P.Extend(s, [], a);
    assert [] + [a] == PollRun(pid, rows, failing, lost, 0);
    assert rows[..0] == [] && rows[0..] == rows;
    assert ExpireSet(s.txns, Listed([]) - failing) == s.txns;
  }

  /** A poller pass that nobody disturbs, whatever fails in it. */
  lemma PollAlone(s: P.State, pid: nat, limit: nat, rows: seq<Seen>, failing: set<nat>, lost: set<nat>)
    requires pid !in s.procs && EarliestOverdue(s.txns, s.now, limit, rows)
    ensures P.Runs(s, PollRun(pid, rows, failing, lost, |rows|))
    ensures BooksOf(P.End(s, PollRun(pid, rows, failing, lost, |rows|))) ==
      Books(ExpireSet(s.txns, Listed(rows) - failing), s.refunds, s.outbox + Expiries(rows, failing, lost))
  {
    PollPartWay(s, pid, rows, failing, lost, |rows|);
    assert rows[..|rows|] == rows;
  }

  /** A row may stand in a listing of the poller exactly when the query selects it. */
  lemma PolledExactlyWhenOverdue(s: P.State, pid: nat, x: nat)
    requires pid !in s.procs && x in s.txns
    ensures P.Enabled(s, ByPoller(StartPoll(pid, [Seen(x, s.txns[x])]))) <==> x in OverdueSet(s.txns, s.now)
  {
    var rows := [Seen(x, s.txns[x])];
    assert Current(s.txns, rows);
    if P.Enabled(s, ByPoller(StartPoll(pid, rows))) {
      assert IsActive(rows[0].snap.status) && Due(rows[0].snap, s.now);
    }
  }

  /** A webhook is taken up by the step system exactly when its code looks at it, and ignored exactly when
      its code ignores it. */
  lemma HeardExactlyWhenReceived(
    s: P.State, pid: nat, x: nat, kind: WebhookKind, paymentSession: SessionRef, id: SessionRef)
    requires pid !in s.procs && x in s.txns
    ensures var ref, sid := s.txns[x].ref, SessionId(paymentSession, id);
      var heard := if paymentSession.Session? then paymentSession == ref else id.NoSession? || id == ref;
      && (P.Enabled(s, ByGateway(Receive(pid, kind, sid, x))) <==> heard)
      && (P.Enabled(s, ByGateway(Ignore(pid, kind, sid, x))) <==> !heard)
  {
  }

  /*** ProcessPayment and InitiateTxnForBooking ***/

  /** The first step of a payment is enabled exactly when the checks of its code pass. */
  lemma CheckedExactlyWhenPayable(s: P.State, pid: nat, x: nat, user: nat)
    requires pid !in s.procs
    ensures P.Enabled(s, ByPayer(CheckPayment(pid, x, user))) <==>
      && x in s.txns && s.txns[x].status.Initiated? && s.txns[x].user == user
      && s.txns[x].expiresAt.Some? && s.txns[x].expiresAt.value - s.now >= 60
  {
  }

  /** An undisturbed payment call stores its session and moves the transaction to pending. */
  lemma PaymentAlone(s: P.State, pid: nat, x: nat, user: nat, ref: SessionRef)
    requires P.Enabled(s, ByPayer(CheckPayment(pid, x, user)))
    ensures var run := [ByPayer(CheckPayment(pid, x, user)), ByPayer(OpenSession(pid, ref)), ByPayer(Claim(pid)),
                        ByPayer(StoreSession(pid))];
      && P.Runs(s, run)
      && BooksOf(P.End(s, run)) == BooksOf(s).(txns := s.txns[x := s.txns[x].(status := Pending, ref := ref)])
  {
    var a, b, c, d := ByPayer(CheckPayment(pid, x, user)), ByPayer(OpenSession(pid, ref)), ByPayer(Claim(pid)),
      ByPayer(StoreSession(pid));
    var s1 := P.ApplyPayer(s, a.y);
    assert s1 == s.(procs := s.procs[pid := Paying(x, s.txns[x], s.now)]);
    var s2 := P.ApplyPayer(s1, b.y);
    assert s2 == s1.(procs := s1.procs[pid := PayingWith(x, s.now, ref)]);
    ClaimAndStore(s2, pid, x, ref);
    hide P.Apply, P.Enabled;
    P.Extend(s, [], a);
    P.Extend(s, [a], b);
    P.Extend(s, [a, b], c);
    assert [] + [a] == [a] && [a] + [b] == [a, b] && [a, b] + [c] == [a, b, c];
    P.Extend(s, [a, b, c], d);
    assert [a, b, c] + [d] == [a, b, c, d];
  }

  lemma ClaimAndStore(u: P.State, pid: nat, x: nat, ref: SessionRef)
    requires pid in u.procs && u.procs[pid].PayingWith? && u.procs[pid].txn == x && u.procs[pid].ref == ref
    requires x in u.txns && u.txns[x].status.Initiated?
    ensures P.Enabled(u, ByPayer(Claim(pid)))
    ensures var v := P.Apply(u, ByPayer(Claim(pid)));
      && P.Enabled(v, ByPayer(StoreSession(pid)))
      && BooksOf(P.Apply(v, ByPayer(StoreSession(pid)))) ==
           BooksOf(u).(txns := u.txns[x := u.txns[x].(status := Pending, ref := ref)])
  {
  }

  /** Creating a transaction is enabled exactly when the booking has none, and stores the request as it is. */
  lemma InitiateAlone(s: P.State, x: nat, booking: nat, event: nat, user: nat, amount: nat, expiresAt: int)
    requires x !in s.txns && amount > 0
    ensures var a := P.Initiate(x, booking, event, user, amount, expiresAt);
      && (P.Enabled(s, a) <==> forall y :: y in s.txns ==> s.txns[y].booking != booking)
      && (P.Enabled(s, a) ==>
            BooksOf(P.Apply(s, a)) == BooksOf(s).(txns := s.txns[x :=
              Txn(booking, event, user, amount, Initiated, NoSession, NotRefunded, Some(expiresAt))]))
  {
  }

  /** List, then a refund and a mark per completed row. */
  function PassRun(pid: nat, e: nat, rows: seq<Seen>, n: nat): seq<P.Action>
    requires n <= |rows|
  {
    if n == 0 then [ByCanceller(StartPass(pid, e, rows))]
    else
      PassRun(pid, e, rows, n - 1) + [ByCanceller(RefundOne(pid))] +
      if rows[n - 1].snap.status.Completed? then [ByCanceller(MarkOne(pid))] else []
  }

  ghost predicate PassedTo(s: P.State, pid: nat, rows: seq<Seen>, n: nat, u: P.State)
    requires n <= |rows|
  {
    && CompletedIn(rows[..n]) <= s.txns.Keys
    && BooksOf(u) == RefundSet(BooksOf(s), CompletedIn(rows[..n]))
    && pid in u.procs && u.procs[pid] == Pass(CompletedIn(rows), rows[n..])
  }

  lemma PassCompletedRow(s: P.State, pid: nat, rows: seq<Seen>, n: nat, u: P.State)
    requires n < |rows| && rows[n].snap.status.Completed? && rows[n].txn in s.txns &&
      s.txns[rows[n].txn] == rows[n].snap
    requires PassedTo(s, pid, rows, n, u)
    ensures P.Enabled(u, ByCanceller(RefundOne(pid)))
    ensures
      var v := P.Apply(u, ByCanceller(RefundOne(pid)));
      P.Enabled(v, ByCanceller(MarkOne(pid))) && PassedTo(s, pid, rows, n + 1, P.Apply(v, ByCanceller(MarkOne(pid))))
  {
    hide RefundSet, CompletedIn, InsertRefund;
    CompletedMore(rows, n);
    RefundOneMore(BooksOf(s), CompletedIn(rows[..n]), rows[n].txn);
    assert rows[n..][1..] == rows[n + 1..];
    RefundAndMark(u, pid, CompletedIn(rows), rows[n..]);
  }

  lemma RefundAndMark(u: P.State, pid: nat, listed: set<nat>, todo: seq<Seen>)
    requires pid in u.procs && u.procs[pid] == Pass(listed, todo) && todo != [] && todo[0].snap.status.Completed?
    requires todo[0].txn in u.txns
    ensures P.Enabled(u, ByCanceller(RefundOne(pid)))
    ensures
      var v, x := P.Apply(u, ByCanceller(RefundOne(pid))), todo[0].txn;
      && P.Enabled(v, ByCanceller(MarkOne(pid)))
      && var w := P.Apply(v, ByCanceller(MarkOne(pid)));
      && BooksOf(w) == BooksOf(u).(
           txns := u.txns[x := u.txns[x].(refund := RefundPending)],
           refunds := InsertRefund(u.refunds, RefundKey(CancelledEvent, x), RefundOf(todo[0].snap)))
      && pid in w.procs && w.procs[pid] == Pass(listed, todo[1..])
  {
    hide InsertRefund;
  }

  lemma PassOtherRow(s: P.State, pid: nat, rows: seq<Seen>, n: nat, u: P.State)
    requires n < |rows| && !rows[n].snap.status.Completed?
    requires PassedTo(s, pid, rows, n, u)
    ensures P.Enabled(u, ByCanceller(RefundOne(pid)))
    ensures PassedTo(s, pid, rows, n + 1, P.Apply(u, ByCanceller(RefundOne(pid))))
  {
    CompletedMore(rows, n);
    assert rows[n..][1..] == rows[n + 1..];
    hide RefundSet, CompletedIn;
  }

  ghost predicate PassListing(txns: map<nat, Txn>, e: nat, rows: seq<Seen>) {
    Current(txns, rows) && Listed(rows) == set x | x in txns && txns[x].event == e
  }

  lemma ListedIsCurrent(txns: map<nat, Txn>, e: nat, rows: seq<Seen>, n: nat)
    requires PassListing(txns, e, rows) && n < |rows|
    ensures rows[n].txn in txns && txns[rows[n].txn] == rows[n].snap
  {
  }

  lemma {:induction false} PassPartWay(s: P.State, pid: nat, e: nat, rows: seq<Seen>, n: nat)
    requires pid !in s.procs && n <= |rows| && PassListing(s.txns, e, rows)
    ensures P.Runs(s, PassRun(pid, e, rows, n)) && PassedTo(s, pid, rows, n, P.End(s, PassRun(pid, e, rows, n)))
  {
    hide PassedTo, PassListing, P.Apply, P.Enabled, P.Runs, P.End;
    if n == 0 {
      PassStarts(s, pid, e, rows);
    } else {
      PassPartWay(s, pid, e, rows, n - 1);
      var run, a, b := PassRun(pid, e, rows, n - 1), ByCanceller(RefundOne(pid)), ByCanceller(MarkOne(pid));
      ListedIsCurrent(s.txns, e, rows, n - 1);
      if rows[n - 1].snap.status.Completed? {
        PassCompletedRow(s, pid, rows, n - 1, P.End(s, run));
        P.Extend(s, run, a);
        P.Extend(s, run + [a], b);
        assert run + [a] + [b] == PassRun(pid, e, rows, n);
      } else {
        PassOtherRow(s, pid, rows, n - 1, P.End(s, run));
        P.Extend(s, run, a);
        assert run + [a] == PassRun(pid, e, rows, n);
      }
    }
  }

  lemma PassStarts(s: P.State, pid: nat, e: nat, rows: seq<Seen>)
    requires pid !in s.procs && PassListing(s.txns, e, rows)
    ensures P.Runs(s, PassRun(pid, e, rows, 0)) && PassedTo(s, pid, rows, 0, P.End(s, PassRun(pid, e, rows, 0)))
  {
    var a := ByCanceller(StartPass(pid, e, rows));
    assert forall i :: 0 <= i < |rows| ==> rows[i].txn in Listed(rows);
    forall x | x in s.txns && s.txns[x].event == e ensures Seen(x, s.txns[x]) in rows {
      assert x in Listed(rows);
      var i :| 0 <= i < |rows| && rows[i].txn == x;
      assert rows[i] == Seen(x, s.txns[x]);
    }
    assert P.Enabled(s, a);
    P.Extend(s, [], a);
    assert [] + [a] == PassRun(pid, e, rows, 0);
    assert rows[0..] == rows;
    RefundNone(BooksOf(s), rows);
  }

  /** A refund pass that nobody disturbs. */
  lemma PassAlone(s: P.State, pid: nat, e: nat, rows: seq<Seen>)
    requires pid !in s.procs && PassListing(s.txns, e, rows)
    ensures P.Runs(s, PassRun(pid, e, rows, |rows|))
    ensures BooksOf(P.End(s, PassRun(pid, e, rows, |rows|))) == RefundSet(BooksOf(s), OwedSet(s.txns, e))
  {
    PassPartWay(s, pid, e, rows, |rows|);
    AllOwed(s.txns, e, rows);
  }
}
