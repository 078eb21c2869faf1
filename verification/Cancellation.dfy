/** Once an event is called off, its bookings stay unconfirmed: for every continuation of a
    run, with the exact condition on the handlers still in flight. */
module Cancellation {
  import opened Messages
  import opened TicketingTables
  import opened TicketingSteps
  import opened TicketingShape
  import opened TicketingProofs

  /** A Confirm handler for a pending booking of event e that saw the event published. */
  ghost predicate SawPublished(s: State, e: nat, h: nat) {
    && h in s.handlers && s.handlers[h].ConfirmLive?
    && s.handlers[h].snap.event == e && StillPending(s, s.handlers[h].booking)
  }

  ghost predicate IsCalledOff(s: State, e: nat) {
    e in s.events && s.events[e].status.CalledOff?
  }

  ghost predicate Sealed(s: State, e: nat) {
    IsCalledOff(s, e) && forall h :: !SawPublished(s, e, h)
  }

  /** Every confirmed booking of e in u was confirmed in s already. */
  ghost predicate NoNewConfirmed(s: State, u: State, e: nat) {
    forall id :: id in u.bookings && u.bookings[id].event == e && u.bookings[id].status.Confirmed? ==>
      id in s.bookings && s.bookings[id].status.Confirmed?
  }

  lemma AdminLeavesCalledOff(s: State, m: Admin, e: nat)
    requires IsCalledOff(s, e) && AdminEnabled(s, m)
    ensures IsCalledOff(ApplyAdmin(s, m), e)
  {
  }

  lemma CalledOffStays(s: State, a: Action, e: nat)
    requires IsCalledOff(s, e) && Enabled(s, a)
    ensures IsCalledOff(Apply(s, a), e)
  {
    hide ApplyBuyer, ApplyDesk, ApplyAdmin, BuyerEnabled, DeskEnabled, AdminEnabled;
    match a
    case ByBuyer(b) => BuyerFrame(s, b);
    case ByDesk(d) => DeskFrame(s, d);
    case ByAdmin(m) => AdminLeavesCalledOff(s, m, e);
    case MarkDelivered(_) =>
  }

  lemma PendingWasPending(s: State, u: State, id: nat)
    requires Grows(s, u) && id in s.used && StillPending(u, id)
    ensures StillPending(s, id)
  {
  }

  /** A handler enters the confirming branch only by reading the event as published. */
  lemma NewConfirmLive(s: State, d: Desk, h: nat)
    requires DeskEnabled(s, d)
    requires h in ApplyDesk(s, d).handlers && ApplyDesk(s, d).handlers[h].ConfirmLive?
    ensures (h in s.handlers && s.handlers[h] == ApplyDesk(s, d).handlers[h]) ||
      IsPublished(s, ApplyDesk(s, d).handlers[h].snap.event)
  {
    hide ApplyDesk, DeskEnabled;
    DeskMovesOneHandler(s, d);
    OwnHandler(s, d);
  }

  lemma OwnHandler(s: State, d: Desk)
    requires DeskEnabled(s, d)
    ensures d.h in ApplyDesk(s, d).handlers && ApplyDesk(s, d).handlers[d.h].ConfirmLive? ==>
      IsPublished(s, ApplyDesk(s, d).handlers[d.h].snap.event)
  {
    hide ApplyDesk;
    DeskMoves(s, d);
  }

  lemma DeskMovesOneHandler(s: State, d: Desk)
    requires DeskEnabled(s, d)
    ensures OtherHandlersWait(s, ApplyDesk(s, d), d.h)
  {
    hide ApplyDesk, NextHandler;
    DeskMoves(s, d);
  }

  lemma DeskKeepsSeal(s: State, d: Desk, e: nat)
    requires Shape(s) && Sealed(s, e) && DeskEnabled(s, d)
    ensures forall h :: !SawPublished(ApplyDesk(s, d), e, h)
  {
    hide ApplyDesk, DeskEnabled;
    var u := ApplyDesk(s, d);
    DeskKeepsShape(s, d);
    forall h ensures !SawPublished(u, e, h) {
      assert !SawPublished(s, e, h);
      if SawPublished(u, e, h) {
        NewConfirmLive(s, d, h);
        assert HandlerOk(s, s.handlers[h]);
        PendingWasPending(s, u, s.handlers[h].booking);
      }
    }
  }

  lemma OthersKeepSeal(s: State, u: State, e: nat)
    requires Shape(s) && Grows(s, u) && u.handlers == s.handlers && Sealed(s, e)
    ensures forall h :: !SawPublished(u, e, h)
  {
    forall h ensures !SawPublished(u, e, h) {
      assert !SawPublished(s, e, h);
      if SawPublished(u, e, h) {
        assert HandlerOk(s, s.handlers[h]);
        PendingWasPending(s, u, s.handlers[h].booking);
      }
    }
  }

  lemma SealStays(s: State, a: Action, e: nat)
    requires Shape(s) && Sealed(s, e) && Enabled(s, a)
    ensures Sealed(Apply(s, a), e)
  {
    hide ApplyBuyer, ApplyDesk, ApplyAdmin, BuyerEnabled, DeskEnabled, AdminEnabled, Shape, Grows;
    CalledOffStays(s, a, e);
    ShapeIsInductive(s, a);
    match a
    case ByDesk(d) => DeskKeepsSeal(s, d, e);
    case ByBuyer(b) => BuyerFrame(s, b); OthersKeepSeal(s, Apply(s, a), e);
    case ByAdmin(m) => AdminIssuesNothing(s, m); OthersKeepSeal(s, Apply(s, a), e);
    case MarkDelivered(_) => OthersKeepSeal(s, Apply(s, a), e);
  }

  /** Transitions with release never confirm. */
  lemma TransitionConfirmsNothing(s: State, id: nat, snap: Booking, to: BookingStatus, e: nat)
    requires !to.Confirmed?
    ensures NoNewConfirmed(s, Transition(s, id, snap, to), e)
  {
    hide ReleaseAll;
  }

  lemma SealedConfirmsNothing(s: State, h: nat, e: nat)
    requires Shape(s) && Sealed(s, e) && DeskEnabled(s, ConfirmBooking(h))
    ensures NoNewConfirmed(s, ConfirmStep(s, h, s.handlers[h]), e)
  {
    assert HandlerOk(s, s.handlers[h]);
    assert !SawPublished(s, e, h);
  }

  lemma DeskConfirmsNothing(s: State, d: Desk, e: nat)
    requires Shape(s) && Sealed(s, e) && DeskEnabled(s, d)
    ensures NoNewConfirmed(s, ApplyDesk(s, d), e)
  {
    hide ReleaseAll;
    match d
    case ConfirmBooking(h) => SealedConfirmsNothing(s, h, e);
    case CancelDead(h) => TransitionConfirmsNothing(s, s.handlers[h].booking, s.handlers[h].snap, Cancelled, e);
    case ExpireBooking(h) => TransitionConfirmsNothing(s, s.handlers[h].booking, s.handlers[h].snap, Expired, e);
    case CancelOne(h) =>
      var row := s.handlers[h].todo[0];
      TransitionConfirmsNothing(s, row.booking, row.snap, Cancelled, e);
    case _ =>
      DeskReads(s, d);
      hide ApplyDesk;
  }

  lemma BuyerConfirmsNothing(s: State, b: Buyer, e: nat)
    requires BuyerEnabled(s, b)
    ensures NoNewConfirmed(s, ApplyBuyer(s, b), e)
  {
    if !b.CreateBooking? && !b.DeleteBooking? {
      BuyerCounts(s, b);
      hide ApplyBuyer;
    }
  }

  lemma StepConfirmsNothing(s: State, a: Action, e: nat)
    requires Shape(s) && Sealed(s, e) && Enabled(s, a)
    ensures NoNewConfirmed(s, Apply(s, a), e)
  {
    hide ApplyBuyer, ApplyDesk, ApplyAdmin, BuyerEnabled, DeskEnabled, AdminEnabled, Shape;
    match a
    case ByBuyer(b) => BuyerConfirmsNothing(s, b, e);
    case ByDesk(d) => DeskConfirmsNothing(s, d, e);
    case ByAdmin(m) => AdminKeepsBookings(s, m);
    case MarkDelivered(_) =>
  }

  lemma AdminKeepsBookings(s: State, m: Admin)
    requires AdminEnabled(s, m)
    ensures ApplyAdmin(s, m).bookings == s.bookings
  {
  }

  /** Once an event is called off and no handler in flight saw it published, no continuation of
      the run confirms a booking of it. */
  lemma {:induction false} CancellationIsFinal(s: State, run: seq<Action>, e: nat)
    requires Inv(s) && Sealed(s, e) && Runs(s, run)
    ensures Sealed(End(s, run), e) && NoNewConfirmed(s, End(s, run), e)
    decreases |run|
  {
    hide Inv, Sealed, NoNewConfirmed, Apply, Enabled, Grows;
    if run == [] {
      NoneNewReflexive(s, e);
    } else {
      var u := Apply(s, run[0]);
      InvIsInductive(s, run[0]);
      InvHasShape(s);
      SealStays(s, run[0], e);
      StepConfirmsNothing(s, run[0], e);
      CancellationIsFinal(u, run[1..], e);
      BookingsKeepEvents(u, run[1..]);
      NoneNewCompose(s, u, End(s, run), e);
    }
  }

  lemma InvHasShape(s: State)
    requires Inv(s)
    ensures Shape(s)
  {
  }

  lemma NoneNewReflexive(s: State, e: nat)
    ensures NoNewConfirmed(s, s, e)
  {
  }

  ghost predicate EventsKept(s: State, u: State) {
    forall id :: id in s.bookings && id in u.bookings ==> s.bookings[id].event == u.bookings[id].event
  }

  lemma BookingsKeepEvents(s: State, run: seq<Action>)
    requires Inv(s) && Runs(s, run)
    ensures EventsKept(s, End(s, run))
  {
    forall id | id in s.bookings && id in End(s, run).bookings
      ensures s.bookings[id].event == End(s, run).bookings[id].event
    {
      BookingsFollowTheGraph(s, run, id);
    }
  }

  lemma NoneNewCompose(s: State, u: State, v: State, e: nat)
    requires NoNewConfirmed(s, u, e) && NoNewConfirmed(u, v, e) && EventsKept(u, v)
    ensures NoNewConfirmed(s, v, e)
  {
  }

  /** The condition is exact: a called-off event can still get a confirmed booking in some
      continuation if and only if a handler in flight saw it published and its booking is pending. */
  lemma CancellationIsFinalExactly(s: State, e: nat)
    requires Inv(s) && IsCalledOff(s, e)
    ensures (forall h :: !SawPublished(s, e, h)) <==> (forall run :: Runs(s, run) ==> NoNewConfirmed(s, End(s, run), e))
  {
    if h :| SawPublished(s, e, h) {
      LateConfirm(s, e, h);
    } else {
      forall run | Runs(s, run) ensures NoNewConfirmed(s, End(s, run), e) {
        CancellationIsFinal(s, run, e);
      }
    }
  }

  lemma ConfirmIsNew(s: State, e: nat, h: nat)
    requires Shape(s) && SawPublished(s, e, h)
    ensures !NoNewConfirmed(s, ConfirmStep(s, h, s.handlers[h]), e)
  {
    assert HandlerOk(s, s.handlers[h]);
    var u, id := ConfirmStep(s, h, s.handlers[h]), s.handlers[h].booking;
    assert id in u.bookings && u.bookings[id].event == e && u.bookings[id].status.Confirmed?;
  }

  lemma OneStepRun(s: State, a: Action)
    requires Enabled(s, a)
    ensures Runs(s, [a]) && End(s, [a]) == Apply(s, a)
  {
    hide Apply, Enabled;
    assert [a][1..] == [];
  }

  lemma LateConfirm(s: State, e: nat, h: nat)
    requires Inv(s) && SawPublished(s, e, h)
    ensures exists run :: Runs(s, run) && !NoNewConfirmed(s, End(s, run), e)
  {
    hide Inv, NoNewConfirmed, ConfirmStep, Runs, End;
    var a := ByDesk(ConfirmBooking(h));
    InvHasShape(s);
    ConfirmIsNew(s, e, h);
    OneStepRun(s, a);
    assert Runs(s, [a]);
  }

  /*** Tickets ***/

  /** No handler is still issuing tickets for event e. */
  ghost predicate NotIssuing(s: State, e: nat) {
    forall h :: !IsIssuing(s, e, h)
  }

  predicate IsIssuing(s: State, e: nat, h: nat) {
    && h in s.handlers && s.handlers[h].Issuing?
    && s.handlers[h].snap.event == e && s.handlers[h].next < |s.handlers[h].snap.items|
  }

  /** The outbox only grew, and by no ticket of event e. */
  ghost predicate NoNewTicket(s: State, u: State, e: nat) {
    && |s.outbox| <= |u.outbox|
    && (forall i :: |s.outbox| <= i < |u.outbox| && u.outbox[i].message.TicketIssued? ==>
          u.outbox[i].message.event != e)
  }

  lemma DeskIssuesNothing(s: State, d: Desk, e: nat)
    requires Shape(s) && Sealed(s, e) && NotIssuing(s, e) && DeskEnabled(s, d)
    ensures NotIssuing(ApplyDesk(s, d), e) && NoNewTicket(s, ApplyDesk(s, d), e)
  {
    var u := ApplyDesk(s, d);
    DeskMoves(s, d);
    assert !IsIssuing(s, e, d.h);
    if d.ConfirmBooking? {
      assert HandlerOk(s, s.handlers[d.h]);
      assert !SawPublished(s, e, d.h);
    }
    hide Transition, Shape, Sealed;
    forall h ensures !IsIssuing(u, e, h) {
      assert !IsIssuing(s, e, h);
    }
  }

  lemma SameHandlersDoNotIssue(s: State, u: State, e: nat)
    requires NotIssuing(s, e) && u.handlers == s.handlers
    ensures NotIssuing(u, e)
  {
    forall h ensures !IsIssuing(u, e, h) {
      assert !IsIssuing(s, e, h);
    }
  }

  lemma StepIssuesNothing(s: State, a: Action, e: nat)
    requires Shape(s) && Sealed(s, e) && NotIssuing(s, e) && Enabled(s, a)
    ensures NotIssuing(Apply(s, a), e) && NoNewTicket(s, Apply(s, a), e)
  {
    hide ApplyBuyer, ApplyDesk, ApplyAdmin, BuyerEnabled, DeskEnabled, AdminEnabled, Shape, Sealed, NotIssuing;
    if !a.ByDesk? {
      HandlersWait(s, a);
      SameHandlersDoNotIssue(s, Apply(s, a), e);
    }
    match a
    case ByBuyer(b) => BuyerFrame(s, b);
    case ByDesk(d) => DeskIssuesNothing(s, d, e);
    case ByAdmin(m) => AdminIssuesNothing(s, m);
    case MarkDelivered(_) =>
  }

  lemma HandlersWait(s: State, a: Action)
    requires Enabled(s, a) && !a.ByDesk?
    ensures Apply(s, a).handlers == s.handlers
  {
    hide ApplyBuyer, ApplyAdmin, BuyerEnabled, AdminEnabled;
    match a
    case ByBuyer(b) => BuyerFrame(s, b);
    case ByAdmin(m) => AdminIssuesNothing(s, m);
    case MarkDelivered(_) =>
  }

  lemma AdminIssuesNothing(s: State, m: Admin)
    requires AdminEnabled(s, m)
    ensures var u := ApplyAdmin(s, m);
      u.handlers == s.handlers && (u.outbox == s.outbox || exists e :: u.outbox == Insert(s.outbox, EventCancelled(e)))
  {
  }

  /** ... and no continuation issues a ticket for it either, once no handler is issuing. */
  lemma {:induction false} NoTicketAfterCancellation(s: State, run: seq<Action>, e: nat)
    requires Inv(s) && Sealed(s, e) && NotIssuing(s, e) && Runs(s, run)
    ensures NoNewTicket(s, End(s, run), e)
    decreases |run|
  {
    hide Inv, Sealed, NotIssuing, NoNewTicket, Apply, Enabled, Grows;
    if run == [] {
      NoTicketReflexive(s, e);
    } else {
      var u := Apply(s, run[0]);
      InvIsInductive(s, run[0]);
      InvHasShape(s);
      SealStays(s, run[0], e);
      StepIssuesNothing(s, run[0], e);
      NoTicketAfterCancellation(u, run[1..], e);
      MessagesStay(u, run[1..]);
      NoTicketCompose(s, u, End(s, run), e);
    }
  }

  lemma NoTicketReflexive(s: State, e: nat)
    ensures NoNewTicket(s, s, e)
  {
  }

  /** Outbox rows keep their place and their message. */
  ghost predicate MessagesKept(s: State, u: State) {
    |s.outbox| <= |u.outbox| && forall i :: 0 <= i < |s.outbox| ==> u.outbox[i].message == s.outbox[i].message
  }

  lemma DeskKeepsMessages(s: State, d: Desk)
    requires DeskEnabled(s, d)
    ensures MessagesKept(s, ApplyDesk(s, d))
  {
    hide ReleaseAll;
  }

  lemma StepKeepsMessages(s: State, a: Action)
    requires Enabled(s, a)
    ensures MessagesKept(s, Apply(s, a))
  {
    hide ApplyBuyer, ApplyDesk, ApplyAdmin, BuyerEnabled, DeskEnabled, AdminEnabled;
    match a
    case ByBuyer(b) => BuyerFrame(s, b);
    case ByDesk(d) => DeskKeepsMessages(s, d);
    case ByAdmin(m) => AdminIssuesNothing(s, m);
    case MarkDelivered(_) =>
  }

  lemma {:induction false} MessagesStay(s: State, run: seq<Action>)
    requires Runs(s, run)
    ensures MessagesKept(s, End(s, run))
    decreases |run|
  {
    hide Apply, Enabled;
    if run != [] {
      StepKeepsMessages(s, run[0]);
      MessagesStay(Apply(s, run[0]), run[1..]);
    }
  }

  lemma NoTicketCompose(s: State, u: State, v: State, e: nat)
    requires NoNewTicket(s, u, e) && NoNewTicket(u, v, e) && MessagesKept(u, v)
    ensures NoNewTicket(s, v, e)
  {
  }

  /** The condition is exact: a called-off event gets no ticket in any continuation if and only if no
      handler in flight saw it published with its booking pending, and none is issuing for it. */
  lemma NoTicketAfterCancellationExactly(s: State, e: nat)
    requires Inv(s) && IsCalledOff(s, e)
    ensures (forall h :: !SawPublished(s, e, h)) && NotIssuing(s, e)
      <==> (forall run :: Runs(s, run) ==> NoNewTicket(s, End(s, run), e))
  {
    hide Inv, IsIssuing, SawPublished, NoNewTicket, Runs, End;
    if h :| IsIssuing(s, e, h) {
      var run := NextTicket(s, e, h);
      assert Runs(s, run);
    } else if h :| SawPublished(s, e, h) {
      var run := LateTicket(s, e, h);
      assert Runs(s, run);
    } else {
      assert Sealed(s, e);
      forall run | Runs(s, run) ensures NoNewTicket(s, End(s, run), e) {
        NoTicketAfterCancellation(s, run, e);
      }
    }
  }

  lemma IssueIsNew(s: State, e: nat, h: nat)
    requires IsIssuing(s, e, h)
    ensures DeskEnabled(s, IssueOne(h)) && !NoNewTicket(s, ApplyDesk(s, IssueOne(h)), e)
  {
    assert ApplyDesk(s, IssueOne(h)).outbox[|s.outbox|].message.TicketIssued?;
  }

  lemma NextTicket(s: State, e: nat, h: nat) returns (run: seq<Action>)
    requires IsIssuing(s, e, h)
    ensures Runs(s, run) && !NoNewTicket(s, End(s, run), e)
  {
    hide Runs, End, NoNewTicket, ApplyDesk;
    run := [ByDesk(IssueOne(h))];
    IssueIsNew(s, e, h);
    OneStepRun(s, run[0]);
  }

  /** Confirm, then issue. */
  lemma LateTicket(s: State, e: nat, h: nat) returns (run: seq<Action>)
    requires Inv(s) && SawPublished(s, e, h)
    ensures Runs(s, run) && !NoNewTicket(s, End(s, run), e)
  {
    hide Inv, Shape, ApplyDesk, DeskEnabled, Runs, End, NoNewTicket, SawPublished;
    var a, b := ByDesk(ConfirmBooking(h)), ByDesk(IssueOne(h));
    InvHasShape(s);
    LateConfirmIssues(s, e, h);
    var u := ApplyDesk(s, ConfirmBooking(h));
    IssueIsNew(u, e, h);
    OneStepRun(s, a);
    Extend(s, [a], b);
    run := [a] + [b];
    SameOutboxSameTickets(s, u, ApplyDesk(u, IssueOne(h)), e);
  }

  lemma LateConfirmIssues(s: State, e: nat, h: nat)
    requires Shape(s) && SawPublished(s, e, h)
    ensures DeskEnabled(s, ConfirmBooking(h))
    ensures var u := ApplyDesk(s, ConfirmBooking(h));
      u.outbox == s.outbox && IsIssuing(u, e, h)
  {
    assert HandlerOk(s, s.handlers[h]);
    assert s.bookings[s.handlers[h].booking].items != [];
  }

  lemma SameOutboxSameTickets(s: State, u: State, v: State, e: nat)
    requires u.outbox == s.outbox && !NoNewTicket(u, v, e)
    ensures !NoNewTicket(s, v, e)
  {
  }
}
