/** What every process of the ticketing service may rely on: the structural invariant. */
module TicketingShape {
  import opened Messages
  import opened TicketingTables
  import opened TicketingSteps

  /** The event's seat counters have been initialised. */
  predicate EventOpen(events: map<nat, Event>, e: nat) {
    e in events && (events[e].status.Published? || events[e].status.CalledOff?)
  }

  predicate TypeOpen(s: State, t: nat) {
    t in s.types && EventOpen(s.events, s.types[t].event)
  }

  ghost predicate AllOpen(s: State, items: seq<Item>) {
    forall i :: 0 <= i < |items| ==> TypeOpen(s, items[i].ticketType)
  }

  ghost predicate Positive(items: seq<Item>) {
    forall i :: 0 <= i < |items| ==> items[i].quantity > 0
  }

  /** The allowed moves of a booking: pending to anything, confirmed to cancelled. */
  predicate Moves(a: BookingStatus, b: BookingStatus) {
    a == b || a.Pending? || (a.Confirmed? && b.Cancelled?)
  }

  predicate Past(a: Booking, b: Booking) {
    a.user == b.user && a.event == b.event && a.items == b.items && Moves(a.status, b.status)
  }

  /** A snapshot of a booking: the row, if it is still there, has only moved on from it. */
  ghost predicate Known(s: State, id: nat, snap: Booking) {
    && id in s.used
    && AllOpen(s, snap.items)
    && (id in s.bookings ==> Past(snap, s.bookings[id]))
  }

  ghost predicate PhaseOk(s: State, p: Phase) {
    match p
    case Taking(_, _, items, taken, _) => items != [] && Positive(items) && taken <= |items| &&
      AllOpen(s, items[..taken])
    case Undoing(items, failed, undone) => undone <= failed < |items| && AllOpen(s, items[..failed])
    case Created(id, items) =>
      items != [] && id in s.used && AllOpen(s, items) && (id in s.bookings ==> s.bookings[id].items == items)
    case Deleting(id, items) =>
      items != [] && id in s.used && AllOpen(s, items) && (id in s.bookings ==> s.bookings[id].items == items)
    case Returning(items, returned, _) => returned <= |items| && AllOpen(s, items)
    case Done => true
  }

  ghost predicate ReserveOk(s: State, r: Reserve) {
    PhaseOk(s, r.phase) && AllOpen(s, r.leaked) && AllOpen(s, r.extra)
  }

  ghost predicate HandlerOk(s: State, x: Handler) {
    match x
    case Confirming(id, snap) => Known(s, id, snap) && snap.status.Pending?
    case ConfirmLive(id, snap) => Known(s, id, snap) && snap.status.Pending?
    case ConfirmDead(id, snap) => Known(s, id, snap) && snap.status.Pending?
    case Issuing(id, snap, next) => Known(s, id, snap) && id in s.everConfirmed && next <= |snap.items|
    case Expiring(id, snap) => Known(s, id, snap) && snap.status.Pending?
    case Cancelling(todo) => forall i :: 0 <= i < |todo| ==> Known(s, todo[i].booking, todo[i].snap)
  }

  ghost predicate RowsOk(s: State) {
    && (forall id :: id in s.bookings ==>
          id in s.used && AllOpen(s, s.bookings[id].items) && s.bookings[id].items != [])
    && (forall t :: t in s.types ==>
          Sound(s.types[t]) && s.types[t].event in s.events && (!TypeOpen(s, t) ==> s.types[t].available == 0))
    && (forall id :: id in s.everConfirmed ==>
          id in s.bookings && (s.bookings[id].status.Confirmed? || s.bookings[id].status.Cancelled?))
  }

  ghost predicate ReservesOk(s: State) {
    forall r :: r in s.reserves ==> ReserveOk(s, s.reserves[r])
  }

  ghost predicate HandlersOk(s: State) {
    forall h :: h in s.handlers ==> HandlerOk(s, s.handlers[h])
  }

  ghost predicate Shape(s: State) {
    RowsOk(s) && ReservesOk(s) && HandlersOk(s)
  }

  /** How the database changes in a step. */
  ghost predicate Grows(s: State, u: State) {
    && (forall e :: EventOpen(s.events, e) ==> EventOpen(u.events, e))
    && (forall t :: t in s.types ==>
          t in u.types && u.types[t].event == s.types[t].event && u.types[t].quantity == s.types[t].quantity)
    && s.used <= u.used
    && s.everConfirmed <= u.everConfirmed
    && (forall id :: id in s.bookings && id in u.bookings ==> Past(s.bookings[id], u.bookings[id]))
    && (forall id :: id in s.bookings && id !in u.bookings ==> s.bookings[id].status.Pending?)
    && (forall id :: id in u.bookings && id !in s.bookings ==> id !in s.used)
  }

  lemma AllOpenStays(s: State, u: State, items: seq<Item>)
    requires AllOpen(s, items) && Grows(s, u)
    ensures AllOpen(u, items)
  {
    forall i | 0 <= i < |items| ensures TypeOpen(u, items[i].ticketType) {
      assert TypeOpen(s, items[i].ticketType);
    }
  }

  lemma KnownStays(s: State, u: State, id: nat, snap: Booking)
    requires Known(s, id, snap) && Grows(s, u)
    ensures Known(u, id, snap)
  {
    AllOpenStays(s, u, snap.items);
  }

  lemma ReserveOkStays(s: State, u: State, r: Reserve)
    requires ReserveOk(s, r) && Grows(s, u)
    ensures ReserveOk(u, r)
  {
    AllOpenStays(s, u, r.leaked);
    AllOpenStays(s, u, r.extra);
    match r.phase
    case Taking(_, _, items, taken, _) => AllOpenStays(s, u, items[..taken]);
    case Undoing(items, failed, _) => AllOpenStays(s, u, items[..failed]);
    case Created(_, items) => AllOpenStays(s, u, items);
    case Deleting(_, items) => AllOpenStays(s, u, items);
    case Returning(items, _, _) => AllOpenStays(s, u, items);
    case Done =>
  }

  lemma HandlerOkStays(s: State, u: State, x: Handler)
    requires HandlerOk(s, x) && Grows(s, u)
    ensures HandlerOk(u, x)
  {
    match x
    case Cancelling(todo) =>
      forall i | 0 <= i < |todo| ensures Known(u, todo[i].booking, todo[i].snap) {
        KnownStays(s, u, todo[i].booking, todo[i].snap);
      }
    case _ => KnownStays(s, u, x.booking, x.snap);
  }

  ghost predicate OtherReservesWait(s: State, u: State, r: nat) {
    forall q :: q != r ==>
      (q in u.reserves <==> q in s.reserves) && (q in u.reserves ==> u.reserves[q] == s.reserves[q])
  }

  ghost predicate OtherHandlersWait(s: State, u: State, h: nat) {
    forall q :: q != h ==>
      (q in u.handlers <==> q in s.handlers) && (q in u.handlers ==> u.handlers[q] == s.handlers[q])
  }

  /** What becomes of the handler that takes a step: None when it is over. */
  function NextHandler(s: State, d: Desk): Option<Handler>
    requires DeskEnabled(s, d)
  {
    match d
    case StartConfirm(_, id) => Some(Confirming(id, s.bookings[id]))
    case StartExpire(_, id) => Some(Expiring(id, s.bookings[id]))
    case StartCancel(_, _, todo) => Some(Cancelling(todo))
    case ReadEvent(h) =>
      var x := s.handlers[h];
      Some(if IsPublished(s, x.snap.event) then ConfirmLive(x.booking, x.snap) else ConfirmDead(x.booking, x.snap))
    case ConfirmBooking(h) =>
      var x := s.handlers[h];
      if StillPending(s, x.booking) then Some(Issuing(x.booking, x.snap, 0)) else None
    case IssueOne(h) => Some(s.handlers[h].(next := s.handlers[h].next + 1))
    case IssueFails(h) => Some(s.handlers[h].(next := s.handlers[h].next + 1))
    case CancelOne(h) => Some(Cancelling(s.handlers[h].todo[1..]))
    case _ => None
  }

  function Moved(handlers: map<nat, Handler>, h: nat, next: Option<Handler>): map<nat, Handler> {
    if next.Some? then handlers[h := next.value] else handlers - {h}
  }

  lemma TransitionLeavesDesk(s: State, id: nat, snap: Booking, to: BookingStatus)
    ensures
      var u := Transition(s, id, snap, to);
      u.handlers == s.handlers && u.outbox == s.outbox && u.everConfirmed == s.everConfirmed && u.events == s.events
  {
    hide ReleaseAll;
  }

  /** Steps of handlers that only read or issue touch no table but the outbox. */
  lemma DeskReads(s: State, d: Desk)
    requires DeskEnabled(s, d) && !d.ConfirmBooking? && !d.CancelDead? && !d.ExpireBooking? && !d.CancelOne?
    ensures
      var u := ApplyDesk(s, d);
      u == s.(handlers := u.handlers, outbox := u.outbox)
  {
    hide Transition, ConfirmStep;
  }

  /** What DeskMoves says of a step. */
  ghost predicate MovesAlone(s: State, d: Desk, u: State)
    requires DeskEnabled(s, d)
  {
    && u.handlers == Moved(s.handlers, d.h, NextHandler(s, d))
    && (!d.IssueOne? ==> u.outbox == s.outbox)
    && (!d.ConfirmBooking? ==> u.everConfirmed == s.everConfirmed)
  }

  lemma SettlingMoves(s: State, d: Desk)
    requires DeskEnabled(s, d) && (d.CancelDead? || d.ExpireBooking? || d.CancelOne?)
    ensures MovesAlone(s, d, ApplyDesk(s, d))
  {
    hide Transition;
    match d
    case CancelDead(h) => TransitionLeavesDesk(s, s.handlers[h].booking, s.handlers[h].snap, Cancelled);
    case ExpireBooking(h) => TransitionLeavesDesk(s, s.handlers[h].booking, s.handlers[h].snap, Expired);
    case CancelOne(h) => TransitionLeavesDesk(s, s.handlers[h].todo[0].booking, s.handlers[h].todo[0].snap, Cancelled);
  }

  lemma ReadingMoves(s: State, d: Desk)
    requires DeskEnabled(s, d) && !d.CancelDead? && !d.ExpireBooking? && !d.CancelOne?
    ensures MovesAlone(s, d, ApplyDesk(s, d))
  {
    hide Transition;
  }

  /** A step of a handler moves that handler alone and posts nothing but tickets. */
  lemma DeskMoves(s: State, d: Desk)
    requires DeskEnabled(s, d)
    ensures MovesAlone(s, d, ApplyDesk(s, d))
  {
    hide MovesAlone, ApplyDesk;
    if d.CancelDead? || d.ExpireBooking? || d.CancelOne? {
      SettlingMoves(s, d);
    } else {
      ReadingMoves(s, d);
    }
  }

  /** All steps of Reserve but two touch only the counters. */
  lemma BuyerCounts(s: State, b: Buyer)
    requires BuyerEnabled(s, b) && !b.CreateBooking? && !b.DeleteBooking?
    ensures
      var u := ApplyBuyer(s, b);
      u == s.(types := u.types, reserves := u.reserves) && u.types.Keys == s.types.Keys
  {
    hide Take, Release, CanTake, CreateStep, DeleteStep;
  }

  /** A step of a Reserve call. */
  lemma ReserveStepKeepsShape(s: State, u: State, r: nat)
    requires Shape(s) && Grows(s, u) && OtherReservesWait(s, u, r) && u.handlers == s.handlers
    requires r in u.reserves ==> ReserveOk(u, u.reserves[r])
    requires RowsOk(u)
    ensures Shape(u)
  {
    forall q | q in u.reserves ensures ReserveOk(u, u.reserves[q]) {
      if q != r { ReserveOkStays(s, u, s.reserves[q]); }
    }
    forall q | q in u.handlers ensures HandlerOk(u, u.handlers[q]) { HandlerOkStays(s, u, s.handlers[q]); }
  }

  /** A step of a handler. */
  lemma HandlerStepKeepsShape(s: State, u: State, h: nat)
    requires Shape(s) && Grows(s, u) && OtherHandlersWait(s, u, h) && u.reserves == s.reserves
    requires h in u.handlers ==> HandlerOk(u, u.handlers[h])
    requires RowsOk(u)
    ensures Shape(u)
  {
    forall q | q in u.reserves ensures ReserveOk(u, u.reserves[q]) { ReserveOkStays(s, u, s.reserves[q]); }
    forall q | q in u.handlers ensures HandlerOk(u, u.handlers[q]) {
      if q != h { HandlerOkStays(s, u, s.handlers[q]); }
    }
  }

  /** Releasing seats of open types leaves the type rows sound. */
  lemma ReleaseKeepsRows(s: State, u: State, items: seq<Item>)
    requires RowsOk(s) && AllOpen(s, items)
    requires u.types == ReleaseAll(s.types, items) && u.events == s.events
    requires u.bookings == s.bookings && u.used == s.used && u.everConfirmed == s.everConfirmed
    ensures RowsOk(u) && Grows(s, u)
  {
    hide ReleaseAll, Seats;
    ReleaseAllAdds(s.types, items);
    forall t | t in u.types && !TypeOpen(u, t) ensures u.types[t].available == 0 {
      NoSeatsOfClosedType(s, items, t);
    }
    forall id | id in u.bookings ensures AllOpen(u, u.bookings[id].items) { AllOpenStays(s, u, u.bookings[id].items); }
  }

  lemma {:induction false} NoSeatsOfClosedType(s: State, items: seq<Item>, t: nat)
    requires AllOpen(s, items) && !TypeOpen(s, t)
    ensures Seats(items, t) == 0
    decreases |items|
  {
    if items != [] {
      assert TypeOpen(s, items[|items| - 1].ticketType);
      NoSeatsOfClosedType(s, items[..|items| - 1], t);
    }
  }

  /** Steps that change no table but the outbox. */
  ghost predicate SameRows(s: State, u: State) {
    && u.events == s.events && u.types == s.types && u.bookings == s.bookings
    && u.used == s.used && u.everConfirmed == s.everConfirmed
  }

  lemma SameRowsKeepShape(s: State, u: State)
    requires RowsOk(s) && SameRows(s, u)
    ensures RowsOk(u) && Grows(s, u)
  {
    forall id | id in u.bookings ensures AllOpen(u, u.bookings[id].items) {
      assert AllOpen(s, s.bookings[id].items);
    }
  }

  lemma PaperworkKeepsShape(s: State, u: State, r: nat)
    requires Shape(s) && SameRows(s, u) && OtherReservesWait(s, u, r) && u.handlers == s.handlers
    requires r in u.reserves ==> ReserveOk(u, u.reserves[r])
    ensures Shape(u) && Grows(s, u)
  {
    SameRowsKeepShape(s, u);
    ReserveStepKeepsShape(s, u, r);
  }

  lemma DeskworkKeepsShape(s: State, u: State, h: nat)
    requires Shape(s) && SameRows(s, u) && OtherHandlersWait(s, u, h) && u.reserves == s.reserves
    requires h in u.handlers ==> HandlerOk(u, u.handlers[h])
    ensures Shape(u) && Grows(s, u)
  {
    SameRowsKeepShape(s, u);
    HandlerStepKeepsShape(s, u, h);
  }

  lemma AllOpenSlice(s: State, items: seq<Item>, lo: nat, hi: nat)
    requires lo <= hi <= |items| && AllOpen(s, items[..hi])
    ensures AllOpen(s, items[lo..hi])
  {
    forall i | 0 <= i < |items[lo..hi]| ensures TypeOpen(s, items[lo..hi][i].ticketType) {
      assert items[lo..hi][i] == items[..hi][lo + i];
    }
  }

  /** A step that changes nothing but its own Reserve call; the tables read the same after it. */
  lemma PaperworkStays(s: State, u: State, r: nat)
    requires Shape(s) && SameRows(s, u) && r in s.reserves
    ensures ReserveOk(u, s.reserves[r])
  {
    assert ReserveOk(s, s.reserves[r]);
    SameRowsKeepShape(s, u);
    ReserveOkStays(s, u, s.reserves[r]);
  }

  lemma StartOrPriceStep(s: State, b: Buyer)
    requires Shape(s) && BuyerEnabled(s, b)
    requires b.StartReserve? || b.PriceOk? || b.PriceFails? || b.SeatsFail?
    ensures Shape(ApplyBuyer(s, b)) && Grows(s, ApplyBuyer(s, b))
  {
    var u := ApplyBuyer(s, b);
    if !b.StartReserve? { PaperworkStays(s, u, b.r); }
    PaperworkKeepsShape(s, u, b.r);
  }

  lemma UndoPaperworkStep(s: State, b: Buyer)
    requires Shape(s) && BuyerEnabled(s, b) && (b.UndoFails? || b.UndoStops?)
    ensures Shape(ApplyBuyer(s, b)) && Grows(s, ApplyBuyer(s, b))
  {
    var u, p := ApplyBuyer(s, b), s.reserves[b.r].phase;
    PaperworkStays(s, u, b.r);
    assert ReserveOk(u, s.reserves[b.r]);
    AllOpenSlice(u, p.items, p.undone, p.failed);
    if b.UndoFails? { assert p.items[p.undone..p.failed][0] == p.items[p.undone]; }
    PaperworkKeepsShape(s, u, b.r);
  }

  lemma OutcomeStep(s: State, b: Buyer)
    requires Shape(s) && BuyerEnabled(s, b)
    requires b.PaymentOk? || b.PaymentFails? || b.DeleteFails?
    ensures Shape(ApplyBuyer(s, b)) && Grows(s, ApplyBuyer(s, b))
  {
    var u := ApplyBuyer(s, b);
    PaperworkStays(s, u, b.r);
    PaperworkKeepsShape(s, u, b.r);
  }

  lemma CreateFailsStep(s: State, r: nat)
    requires Shape(s) && BuyerEnabled(s, CreateFails(r))
    ensures Shape(ApplyBuyer(s, CreateFails(r))) && Grows(s, ApplyBuyer(s, CreateFails(r)))
  {
    var u, p := ApplyBuyer(s, CreateFails(r)), s.reserves[r].phase;
    PaperworkStays(s, u, r);
    assert p.items[..|p.items|] == p.items;
    PaperworkKeepsShape(s, u, r);
  }

  lemma FailedReturnStep(s: State, r: nat)
    requires Shape(s) && BuyerEnabled(s, ReturnFails(r))
    ensures Shape(ReturnFailsStep(s, r, s.reserves[r].phase)) && Grows(s, ReturnFailsStep(s, r, s.reserves[r].phase))
  {
    var x, u := s.reserves[r], ReturnFailsStep(s, r, s.reserves[r].phase);
    PaperworkStays(s, u, r);
    assert ReserveOk(u, x);
    AllOpenConcat(u, x.leaked, x.phase.items[x.phase.returned]);
    PaperworkKeepsShape(s, u, r);
  }

  lemma TakeKeepsRows(s: State, u: State, item: Item)
    requires RowsOk(s) && CanTake(s.types, item.ticketType, item.quantity) && item.quantity > 0
    requires u.types == Take(s.types, item.ticketType, item.quantity) && u.events == s.events
    requires u.bookings == s.bookings && u.used == s.used && u.everConfirmed == s.everConfirmed
    ensures RowsOk(u) && Grows(s, u) && TypeOpen(s, item.ticketType)
  {
    forall id | id in u.bookings ensures AllOpen(u, u.bookings[id].items) { AllOpenStays(s, u, u.bookings[id].items); }
  }

  lemma TakeSeatsStep(s: State, r: nat)
    requires Shape(s) && BuyerEnabled(s, TakeSeats(r))
    ensures Shape(TakeStep(s, r, s.reserves[r].phase)) && Grows(s, TakeStep(s, r, s.reserves[r].phase))
  {
    var p := s.reserves[r].phase;
    var u, item := TakeStep(s, r, p), p.items[p.taken];
    assert ReserveOk(s, s.reserves[r]);
    TakeKeepsRows(s, u, item);
    ReserveOkStays(s, u, s.reserves[r]);
    AllOpenConcat(u, p.items[..p.taken], item);
    assert p.items[..p.taken + 1] == p.items[..p.taken] + [item];
    ReserveStepKeepsShape(s, u, r);
  }

  /** Giving back the seats of one item. */
  lemma GiveStep(s: State, u: State, item: Item)
    requires Shape(s) && TypeOpen(s, item.ticketType)
    requires u.types == Release(s.types, item.ticketType, item.quantity) && u.events == s.events
    requires u.bookings == s.bookings && u.used == s.used && u.everConfirmed == s.everConfirmed
    ensures RowsOk(u) && Grows(s, u)
  {
    assert [item][..0] == [];
    assert ReleaseAll(s.types, [item]) == Release(s.types, item.ticketType, item.quantity);
    ReleaseKeepsRows(s, u, [item]);
  }

  lemma UndoOneStep(s: State, r: nat)
    requires Shape(s) && BuyerEnabled(s, UndoOne(r))
    ensures Shape(ApplyBuyer(s, UndoOne(r))) && Grows(s, ApplyBuyer(s, UndoOne(r)))
  {
    var u, p := ApplyBuyer(s, UndoOne(r)), s.reserves[r].phase;
    assert ReserveOk(s, s.reserves[r]);
    assert p.items[..p.failed][p.undone] == p.items[p.undone];
    GiveStep(s, u, p.items[p.undone]);
    ReserveOkStays(s, u, s.reserves[r]);
    ReserveStepKeepsShape(s, u, r);
  }

  lemma ReturnOneStep(s: State, r: nat)
    requires Shape(s) && BuyerEnabled(s, ReturnOne(r))
    ensures Shape(ReturnStep(s, r, s.reserves[r].phase)) && Grows(s, ReturnStep(s, r, s.reserves[r].phase))
  {
    var x, u := s.reserves[r], ReturnStep(s, r, s.reserves[r].phase);
    assert ReserveOk(s, x);
    var item := x.phase.items[x.phase.returned];
    GiveStep(s, u, item);
    ReserveOkStays(s, u, x);
    AllOpenConcat(u, x.extra, item);
    ReserveStepKeepsShape(s, u, r);
  }

  lemma AllOpenConcat(s: State, items: seq<Item>, item: Item)
    requires AllOpen(s, items) && TypeOpen(s, item.ticketType)
    ensures AllOpen(s, items + [item])
  {
  }

  lemma CreateBookingStep(s: State, r: nat, id: nat)
    requires Shape(s) && BuyerEnabled(s, CreateBooking(r, id))
    ensures Shape(CreateStep(s, r, s.reserves[r].phase, id)) && Grows(s, CreateStep(s, r, s.reserves[r].phase, id))
  {
    var p := s.reserves[r].phase;
    var u := CreateStep(s, r, p, id);
    assert ReserveOk(s, s.reserves[r]);
    assert p.items[..|p.items|] == p.items;
    assert Grows(s, u);
    AllOpenStays(s, u, p.items);
    forall k | k in s.bookings ensures AllOpen(u, s.bookings[k].items) { AllOpenStays(s, u, s.bookings[k].items); }
    ReserveOkStays(s, u, s.reserves[r]);
    ReserveStepKeepsShape(s, u, r);
  }

  lemma DeleteBookingStep(s: State, r: nat)
    requires Shape(s) && BuyerEnabled(s, DeleteBooking(r))
    ensures Shape(DeleteStep(s, r, s.reserves[r].phase)) && Grows(s, DeleteStep(s, r, s.reserves[r].phase))
  {
    var u, id := DeleteStep(s, r, s.reserves[r].phase), s.reserves[r].phase.booking;
    if Deletable(s, id) {
      DeletedStep(s, r);
    } else {
      PaperworkStays(s, u, r);
      PaperworkKeepsShape(s, u, r);
    }
  }

  lemma DeletedStep(s: State, r: nat)
    requires Shape(s) && BuyerEnabled(s, DeleteBooking(r)) && Deletable(s, s.reserves[r].phase.booking)
    ensures Shape(DeleteStep(s, r, s.reserves[r].phase)) && Grows(s, DeleteStep(s, r, s.reserves[r].phase))
  {
    var u := DeleteStep(s, r, s.reserves[r].phase);
    assert ReserveOk(s, s.reserves[r]);
    RemovalKeepsRows(s, u, s.reserves[r].phase.booking);
    ReserveOkStays(s, u, s.reserves[r]);
    ReserveStepKeepsShape(s, u, r);
  }

  lemma RemovalKeepsRows(s: State, u: State, id: nat)
    requires RowsOk(s) && StillPending(s, id)
    requires u.types == s.types && u.events == s.events && u.used == s.used && u.everConfirmed == s.everConfirmed
    requires u.bookings == s.bookings - {id}
    ensures RowsOk(u) && Grows(s, u)
  {
    forall k | k in u.bookings ensures AllOpen(u, u.bookings[k].items) { AllOpenStays(s, u, s.bookings[k].items); }
  }

  lemma BuyerKeepsShape(s: State, b: Buyer)
    requires Shape(s) && BuyerEnabled(s, b)
    ensures Shape(ApplyBuyer(s, b)) && Grows(s, ApplyBuyer(s, b))
  {
    match b
    case TakeSeats(r) => TakeSeatsStep(s, r);
    case UndoOne(r) => UndoOneStep(s, r);
    case CreateBooking(r, id) => CreateBookingStep(s, r, id);
    case DeleteBooking(r) => DeleteBookingStep(s, r);
    case ReturnOne(r) => ReturnOneStep(s, r);
    case StartReserve(_, _, _, _) => StartOrPriceStep(s, b);
    case PriceOk(_) => StartOrPriceStep(s, b);
    case PriceFails(_) => StartOrPriceStep(s, b);
    case SeatsFail(_) => StartOrPriceStep(s, b);
    case UndoFails(_) => UndoPaperworkStep(s, b);
    case UndoStops(_) => UndoPaperworkStep(s, b);
    case CreateFails(r) => CreateFailsStep(s, r);
    case ReturnFails(r) => FailedReturnStep(s, r);
    case _ => OutcomeStep(s, b);
  }

  /*** Handlers ***/

  /** A row moved along the allowed graph without being confirmed. */
  lemma MoveKeepsRows(s: State, u: State, id: nat, to: BookingStatus)
    requires RowsOk(s) && id in s.bookings && Moves(s.bookings[id].status, to)
    requires to.Cancelled? || (to.Expired? && s.bookings[id].status.Pending?)
    requires u.types == s.types && u.events == s.events && u.used == s.used && u.everConfirmed == s.everConfirmed
    requires u.bookings == s.bookings[id := s.bookings[id].(status := to)]
    ensures RowsOk(u) && Grows(s, u)
  {
    forall k | k in u.bookings ensures AllOpen(u, u.bookings[k].items) { AllOpenStays(s, u, s.bookings[k].items); }
  }

  lemma TransitionKeepsRows(s: State, id: nat, snap: Booking, to: BookingStatus)
    requires Shape(s) && Known(s, id, snap) && OwnsSeats(snap.status) &&
      (to.Cancelled? || (to.Expired? && snap.status.Pending?))
    ensures var u := Transition(s, id, snap, to);
      RowsOk(u) && Grows(s, u) && u.reserves == s.reserves && u.handlers == s.handlers
  {
    var u := Transition(s, id, snap, to);
    if id in s.bookings && s.bookings[id].status == snap.status {
      var v := s.(types := ReleaseAll(s.types, snap.items));
      ReleaseKeepsRows(s, v, snap.items);
      MoveKeepsRows(v, u, id, to);
    } else {
      SameRowsKeepShape(s, u);
    }
  }

  lemma StartHandlerStep(s: State, d: Desk)
    requires Shape(s) && DeskEnabled(s, d) && (d.StartConfirm? || d.StartExpire? || d.StartCancel? || d.Quit?)
    ensures Shape(ApplyDesk(s, d)) && Grows(s, ApplyDesk(s, d))
  {
    var u := ApplyDesk(s, d);
    SameRowsKeepShape(s, u);
    DeskworkKeepsShape(s, u, d.h);
  }

  lemma ReadOrIssueStep(s: State, d: Desk)
    requires Shape(s) && DeskEnabled(s, d) && (d.ReadEvent? || d.IssueOne? || d.IssueFails?)
    ensures Shape(ApplyDesk(s, d)) && Grows(s, ApplyDesk(s, d))
  {
    var u := ApplyDesk(s, d);
    SameRowsKeepShape(s, u);
    HandlerOkStays(s, u, s.handlers[d.h]);
    DeskworkKeepsShape(s, u, d.h);
  }

  lemma ConfirmedStep(s: State, h: nat)
    requires Shape(s) && DeskEnabled(s, ConfirmBooking(h)) && StillPending(s, s.handlers[h].booking)
    ensures Shape(ConfirmStep(s, h, s.handlers[h])) && Grows(s, ConfirmStep(s, h, s.handlers[h]))
  {
    var u, x := ConfirmStep(s, h, s.handlers[h]), s.handlers[h];
    assert HandlerOk(s, x);
    ConfirmKeepsRows(s, u, x.booking);
    HandlerOkStays(s, u, x);
    HandlerStepKeepsShape(s, u, h);
  }

  lemma ConfirmBookingStep(s: State, h: nat)
    requires Shape(s) && DeskEnabled(s, ConfirmBooking(h))
    ensures Shape(ConfirmStep(s, h, s.handlers[h])) && Grows(s, ConfirmStep(s, h, s.handlers[h]))
  {
    if StillPending(s, s.handlers[h].booking) {
      ConfirmedStep(s, h);
    } else {
      DeskworkKeepsShape(s, ConfirmStep(s, h, s.handlers[h]), h);
    }
  }

  lemma ConfirmKeepsRows(s: State, u: State, id: nat)
    requires RowsOk(s) && StillPending(s, id)
    requires u.types == s.types && u.events == s.events && u.used == s.used
    requires u.bookings == s.bookings[id := s.bookings[id].(status := Confirmed)]
    requires u.everConfirmed == s.everConfirmed + {id}
    ensures RowsOk(u) && Grows(s, u)
  {
    forall k | k in u.bookings ensures AllOpen(u, u.bookings[k].items) { AllOpenStays(s, u, s.bookings[k].items); }
  }

  /** A handler that ends with a guarded transition. */
  lemma LastTransitionStep(s: State, d: Desk)
    requires Shape(s) && DeskEnabled(s, d) && (d.CancelDead? || d.ExpireBooking?)
    ensures Shape(ApplyDesk(s, d)) && Grows(s, ApplyDesk(s, d))
  {
    var u, x := ApplyDesk(s, d), s.handlers[d.h];
    assert HandlerOk(s, x);
    var v := Transition(s, x.booking, x.snap, if d.CancelDead? then Cancelled else Expired);
    TransitionKeepsRows(s, x.booking, x.snap, if d.CancelDead? then Cancelled else Expired);
    SameRowsKeepShape(v, u);
    HandlerStepKeepsShape(s, u, d.h);
  }

  lemma CancelOneStep(s: State, h: nat)
    requires Shape(s) && DeskEnabled(s, CancelOne(h))
    ensures Shape(ApplyDesk(s, CancelOne(h))) && Grows(s, ApplyDesk(s, CancelOne(h)))
  {
    var u, x := ApplyDesk(s, CancelOne(h)), s.handlers[h];
    var SeenBooking(id, snap) := x.todo[0];
    assert HandlerOk(s, x) && Known(s, id, snap);
    if OwnsSeats(snap.status) {
      var v := Transition(s, id, snap, Cancelled);
      TransitionKeepsRows(s, id, snap, Cancelled);
      SameRowsKeepShape(v, u);
      HandlerOkStays(s, u, x);
      HandlerStepKeepsShape(s, u, h);
    } else {
      SameRowsKeepShape(s, u);
      HandlerOkStays(s, u, x);
      DeskworkKeepsShape(s, u, h);
    }
  }

  lemma DeskKeepsShape(s: State, d: Desk)
    requires Shape(s) && DeskEnabled(s, d)
    ensures Shape(ApplyDesk(s, d)) && Grows(s, ApplyDesk(s, d))
  {
    match d
    case StartConfirm(_, _) => StartHandlerStep(s, d);
    case StartExpire(_, _) => StartHandlerStep(s, d);
    case StartCancel(_, _, _) => StartHandlerStep(s, d);
    case Quit(_) => StartHandlerStep(s, d);
    case ReadEvent(_) => ReadOrIssueStep(s, d);
    case IssueOne(_) => ReadOrIssueStep(s, d);
    case IssueFails(_) => ReadOrIssueStep(s, d);
    case ConfirmBooking(h) => ConfirmBookingStep(s, h);
    case CancelDead(_) => LastTransitionStep(s, d);
    case ExpireBooking(_) => LastTransitionStep(s, d);
    case CancelOne(h) => CancelOneStep(s, h);
  }

  /*** Event lifecycle ***/

  lemma ProcessesSurvive(s: State, u: State)
    requires Shape(s) && Grows(s, u) && RowsOk(u) && u.reserves == s.reserves && u.handlers == s.handlers
    ensures Shape(u)
  {
    forall q | q in u.reserves ensures ReserveOk(u, u.reserves[q]) { ReserveOkStays(s, u, s.reserves[q]); }
    forall q | q in u.handlers ensures HandlerOk(u, u.handlers[q]) { HandlerOkStays(s, u, s.handlers[q]); }
  }

  lemma CreateEventKeepsShape(s: State, m: Admin)
    requires Shape(s) && AdminEnabled(s, m) && m.CreateEvent?
    ensures Shape(ApplyAdmin(s, m)) && Grows(s, ApplyAdmin(s, m))
  {
    var u := ApplyAdmin(s, m);
    forall id | id in u.bookings ensures AllOpen(u, u.bookings[id].items) { AllOpenStays(s, u, s.bookings[id].items); }
    ProcessesSurvive(s, u);
  }

  lemma ApproveKeepsShape(s: State, e: nat)
    requires Shape(s) && AdminEnabled(s, Approve(e))
    ensures Shape(ApplyAdmin(s, Approve(e))) && Grows(s, ApplyAdmin(s, Approve(e)))
  {
    var u := ApplyAdmin(s, Approve(e));
    forall id | id in u.bookings ensures AllOpen(u, u.bookings[id].items) { AllOpenStays(s, u, s.bookings[id].items); }
    ProcessesSurvive(s, u);
  }

  lemma AdminKeepsShape(s: State, m: Admin)
    requires Shape(s) && AdminEnabled(s, m)
    ensures Shape(ApplyAdmin(s, m)) && Grows(s, ApplyAdmin(s, m))
  {
    match m
    case CreateEvent(_, _, _, _) => CreateEventKeepsShape(s, m);
    case Approve(e) => ApproveKeepsShape(s, e);
    case _ => StatusKeepsShape(s, m);
  }

  lemma StatusKeepsShape(s: State, m: Admin)
    requires Shape(s) && AdminEnabled(s, m) && !m.CreateEvent? && !m.Approve?
    ensures Shape(ApplyAdmin(s, m)) && Grows(s, ApplyAdmin(s, m))
  {
    var u := ApplyAdmin(s, m);
    forall id | id in u.bookings ensures AllOpen(u, u.bookings[id].items) { AllOpenStays(s, u, s.bookings[id].items); }
    ProcessesSurvive(s, u);
  }

  lemma MarkDeliveredKeepsShape(s: State, row: nat)
    requires Shape(s) && row < |s.outbox|
    ensures var u := s.(outbox := s.outbox[row := s.outbox[row].(delivered := true)]); Shape(u) && Grows(s, u)
  {
    var u := s.(outbox := s.outbox[row := s.outbox[row].(delivered := true)]);
    SameRowsKeepShape(s, u);
    ProcessesSurvive(s, u);
  }

  lemma ShapeIsInductive(s: State, a: Action)
    requires Shape(s) && Enabled(s, a)
    ensures Shape(Apply(s, a)) && Grows(s, Apply(s, a))
  {
    match a
    case ByBuyer(b) => BuyerKeepsShape(s, b);
    case ByDesk(d) => DeskKeepsShape(s, d);
    case ByAdmin(m) => AdminKeepsShape(s, m);
    case MarkDelivered(row) => MarkDeliveredKeepsShape(s, row);
  }
}
