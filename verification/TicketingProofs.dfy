/** Theorems about the ticketing service over every run: the seat ledger and the venue bound,
    once-only release and issue. */
module TicketingProofs {
  import opened Messages
  import opened Sums
  import opened TicketingTables
  import opened TicketingSteps
  import opened TicketingShape
  import opened SeatLedger

  /*** Tickets are issued once, seats are returned once ***/

  predicate IsTicket(row: OutboxRow) {
    row.message.TicketIssued?
  }

  /** A ticket row is for an item of a booking that was confirmed. */
  ghost predicate TicketFits(s: State, m: Message)
    requires m.TicketIssued?
  {
    && m.booking in s.everConfirmed && m.booking in s.bookings
    && m.event == s.bookings[m.booking].event && m.user == s.bookings[m.booking].user
    && m.ticket < |s.bookings[m.booking].items|
    && m.ticketType == s.bookings[m.booking].items[m.ticket].ticketType
  }

  ghost predicate TicketsOk(s: State) {
    && (forall i :: 0 <= i < |s.outbox| && IsTicket(s.outbox[i]) ==> TicketFits(s, s.outbox[i].message))
    && (forall i, j :: 0 <= i < j < |s.outbox| && IsTicket(s.outbox[i]) && IsTicket(s.outbox[j]) ==>
          s.outbox[i].message.booking != s.outbox[j].message.booking ||
          s.outbox[i].message.ticket != s.outbox[j].message.ticket)
    && (forall h, i :: h in s.handlers && s.handlers[h].Issuing? && 0 <= i < |s.outbox| && IsTicket(s.outbox[i]) ==>
          s.outbox[i].message.booking != s.handlers[h].booking || s.outbox[i].message.ticket < s.handlers[h].next)
    && (forall g, h :: g in s.handlers && h in s.handlers && s.handlers[g].Issuing? && s.handlers[h].Issuing? ==>
          g == h || s.handlers[g].booking != s.handlers[h].booking)
  }

  /** A transition has returned the seats of a booking exactly when the booking is over. */
  ghost predicate ReleasesOk(s: State) {
    && (forall id :: id in s.released ==> id in s.bookings && s.released[id] == 1 && !OwnsSeats(s.bookings[id].status))
    && (forall id :: id in s.bookings && !OwnsSeats(s.bookings[id].status) ==> id in s.released)
  }

  /** The payment service is asked for the price of the booking. */
  ghost predicate RequestsOk(s: State) {
    && s.requests.Keys == s.used
    && (forall id :: id in s.bookings ==>
          && id in s.requests
          && s.requests[id] == Request(s.bookings[id].event, s.bookings[id].user, Price(s.bookings[id].items)))
  }

  ghost predicate DeskInv(s: State) {
    TicketsOk(s) && ReleasesOk(s) && RequestsOk(s)
  }

  ghost predicate SameMessages(s: State, u: State) {
    |u.outbox| == |s.outbox| && forall i :: 0 <= i < |s.outbox| ==> u.outbox[i].message == s.outbox[i].message
  }

  /** The part of Grows that tickets rely on. */
  ghost predicate ConfirmedStay(s: State, u: State) {
    && s.everConfirmed <= u.everConfirmed
    && forall id :: id in s.everConfirmed && id in s.bookings ==>
       id in u.bookings && Past(s.bookings[id], u.bookings[id])
  }

  lemma TicketsQuiet(s: State, u: State, h: nat)
    requires TicketsOk(s) && ConfirmedStay(s, u) && SameMessages(s, u) && OtherHandlersWait(s, u, h)
    requires h in u.handlers && u.handlers[h].Issuing? ==>
      h in s.handlers && s.handlers[h].Issuing? && s.handlers[h].booking == u.handlers[h].booking &&
        s.handlers[h].next <= u.handlers[h].next
    ensures TicketsOk(u)
  {
    forall i | 0 <= i < |u.outbox| && IsTicket(u.outbox[i]) ensures TicketFits(u, u.outbox[i].message) {
      assert IsTicket(s.outbox[i]) && TicketFits(s, s.outbox[i].message);
    }
  }

  lemma TicketsOnConfirm(s: State, h: nat)
    requires TicketsOk(s) && Shape(s) && DeskEnabled(s, ConfirmBooking(h)) && StillPending(s, s.handlers[h].booking)
    ensures TicketsOk(ConfirmStep(s, h, s.handlers[h]))
  {
    var u, x := ConfirmStep(s, h, s.handlers[h]), s.handlers[h];
    assert x.booking !in s.everConfirmed;
    forall i | 0 <= i < |u.outbox| && IsTicket(u.outbox[i])
      ensures TicketFits(u, u.outbox[i].message) && u.outbox[i].message.booking != x.booking
    {
      assert IsTicket(s.outbox[i]) && TicketFits(s, s.outbox[i].message);
    }
    forall g | g in s.handlers && s.handlers[g].Issuing? ensures s.handlers[g].booking != x.booking {
      assert HandlerOk(s, s.handlers[g]);
    }
  }

  lemma TicketsOnIssue(s: State, h: nat)
    requires TicketsOk(s) && Shape(s) && DeskEnabled(s, IssueOne(h))
    ensures TicketsOk(ApplyDesk(s, IssueOne(h)))
  {
    var u, x, n := ApplyDesk(s, IssueOne(h)), s.handlers[h], |s.outbox|;
    assert HandlerOk(s, x) && x.booking in s.bookings;
    assert TicketFits(u, u.outbox[n].message);
    forall i | 0 <= i < n && IsTicket(u.outbox[i])
      ensures TicketFits(u, u.outbox[i].message)
      ensures u.outbox[i].message.booking == x.booking ==> u.outbox[i].message.ticket < x.next
    {
      assert u.outbox[i] == s.outbox[i] && IsTicket(s.outbox[i]) && TicketFits(s, s.outbox[i].message);
    }
  }

  lemma ConfirmedStayAfter(s: State, u: State)
    requires Shape(s) && Grows(s, u)
    ensures ConfirmedStay(s, u)
  {
  }

  lemma TicketsOnQuietDesk(s: State, d: Desk)
    requires TicketsOk(s) && DeskEnabled(s, d) && ConfirmedStay(s, ApplyDesk(s, d))
    requires !d.IssueOne? && (d.ConfirmBooking? ==> !StillPending(s, s.handlers[d.h].booking))
    ensures TicketsOk(ApplyDesk(s, d))
  {
    hide ApplyDesk, TicketsOk, ConfirmedStay;
    DeskMoves(s, d);
    TicketsQuiet(s, ApplyDesk(s, d), d.h);
  }

  lemma TicketsOnDesk(s: State, d: Desk)
    requires TicketsOk(s) && Shape(s) && DeskEnabled(s, d)
    ensures TicketsOk(ApplyDesk(s, d))
  {
    hide TicketsOk, Shape, Grows, ConfirmedStay;
    DeskKeepsShape(s, d);
    ConfirmedStayAfter(s, ApplyDesk(s, d));
    if d.IssueOne? {
      TicketsOnIssue(s, d.h);
    } else if d.ConfirmBooking? && StillPending(s, s.handlers[d.h].booking) {
      TicketsOnConfirm(s, d.h);
    } else {
      hide ApplyDesk;
      TicketsOnQuietDesk(s, d);
    }
  }

  lemma TicketsOnOther(s: State, u: State)
    requires TicketsOk(s) && Shape(s) && Grows(s, u) && u.handlers == s.handlers
    requires SameMessages(s, u) || (exists m: Message :: !m.TicketIssued? && u.outbox == Insert(s.outbox, m))
    ensures TicketsOk(u)
  {
    ConfirmedStayAfter(s, u);
    forall i | 0 <= i < |u.outbox| && IsTicket(u.outbox[i])
      ensures TicketFits(u, u.outbox[i].message) && i < |s.outbox| && u.outbox[i].message == s.outbox[i].message
    {
      assert IsTicket(s.outbox[i]) && TicketFits(s, s.outbox[i].message);
    }
  }

  lemma ReleasesOnTransition(s: State, id: nat, snap: Booking, to: BookingStatus)
    requires ReleasesOk(s) && OwnsSeats(snap.status) && !OwnsSeats(to)
    ensures ReleasesOk(Transition(s, id, snap, to))
  {
    hide ReleaseAll, Price;
  }

  lemma ReleasesOnLastTransition(s: State, d: Desk)
    requires ReleasesOk(s) && HandlersOk(s) && DeskEnabled(s, d) && (d.CancelDead? || d.ExpireBooking?)
    ensures ReleasesOk(ApplyDesk(s, d))
  {
    hide ReleaseAll, Price;
    assert HandlerOk(s, s.handlers[d.h]);
    var to := if d.CancelDead? then Cancelled else Expired;
    ReleasesOnTransition(s, s.handlers[d.h].booking, s.handlers[d.h].snap, to);
  }

  lemma ReleasesOnCancelOne(s: State, h: nat)
    requires ReleasesOk(s) && DeskEnabled(s, CancelOne(h))
    ensures ReleasesOk(ApplyDesk(s, CancelOne(h)))
  {
    hide ReleaseAll, Price;
    var SeenBooking(id, snap) := s.handlers[h].todo[0];
    if OwnsSeats(snap.status) { ReleasesOnTransition(s, id, snap, Cancelled); }
  }

  lemma ReleasesOnConfirm(s: State, h: nat)
    requires ReleasesOk(s) && DeskEnabled(s, ConfirmBooking(h))
    ensures ReleasesOk(ApplyDesk(s, ConfirmBooking(h)))
  {
    hide ApplyDesk, DeskEnabled, ConfirmStep;
    ConfirmIsStep(s, h);
    ConfirmKeepsOwners(s, h);
  }

  lemma ConfirmKeepsOwners(s: State, h: nat)
    requires h in s.handlers && s.handlers[h].ConfirmLive?
    ensures var u := ConfirmStep(s, h, s.handlers[h]);
      && u.released == s.released && u.bookings.Keys == s.bookings.Keys
      && (forall id :: id in s.bookings ==> (OwnsSeats(u.bookings[id].status) <==> OwnsSeats(s.bookings[id].status)))
  {
  }

  lemma ConfirmIsStep(s: State, h: nat)
    requires DeskEnabled(s, ConfirmBooking(h))
    ensures h in s.handlers && s.handlers[h].ConfirmLive?
    ensures ApplyDesk(s, ConfirmBooking(h)) == ConfirmStep(s, h, s.handlers[h])
  {
  }

  lemma ReleasesOnDesk(s: State, d: Desk)
    requires ReleasesOk(s) && HandlersOk(s) && DeskEnabled(s, d)
    ensures ReleasesOk(ApplyDesk(s, d))
  {
    hide ApplyDesk, DeskEnabled, HandlersOk;
    match d
    case CancelDead(_) => ReleasesOnLastTransition(s, d);
    case ExpireBooking(_) => ReleasesOnLastTransition(s, d);
    case CancelOne(h) => ReleasesOnCancelOne(s, h);
    case ConfirmBooking(h) => ReleasesOnConfirm(s, h);
    case _ => DeskReads(s, d);
  }

  /** Handlers touch bookings, counters, the outbox and their own table, and add no row to the first two. */
  ghost predicate DeskLeaves(s: State, u: State) {
    && u == s.(bookings := u.bookings, types := u.types, outbox := u.outbox, handlers := u.handlers,
               everConfirmed := u.everConfirmed, released := u.released)
    && u.bookings.Keys == s.bookings.Keys && u.types.Keys == s.types.Keys
  }

  lemma TransitionFrame(s: State, id: nat, snap: Booking, to: BookingStatus)
    ensures DeskLeaves(s, Transition(s, id, snap, to))
  {
    hide ReleaseAll;
  }

  lemma SettlingFrame(s: State, d: Desk)
    requires DeskEnabled(s, d) && (d.CancelDead? || d.ExpireBooking? || d.CancelOne?)
    ensures DeskLeaves(s, ApplyDesk(s, d))
  {
    hide Transition;
    match d
    case CancelDead(h) => TransitionFrame(s, s.handlers[h].booking, s.handlers[h].snap, Cancelled);
    case ExpireBooking(h) => TransitionFrame(s, s.handlers[h].booking, s.handlers[h].snap, Expired);
    case CancelOne(h) => TransitionFrame(s, s.handlers[h].todo[0].booking, s.handlers[h].todo[0].snap, Cancelled);
  }

  lemma ConfirmFrame(s: State, d: Desk)
    requires DeskEnabled(s, d) && d.ConfirmBooking?
    ensures DeskLeaves(s, ApplyDesk(s, d))
  {
  }

  lemma DeskFrame(s: State, d: Desk)
    requires DeskEnabled(s, d)
    ensures DeskLeaves(s, ApplyDesk(s, d))
  {
    hide ApplyDesk, DeskEnabled;
    if d.CancelDead? || d.ExpireBooking? || d.CancelOne? {
      SettlingFrame(s, d);
    } else if d.ConfirmBooking? {
      ConfirmFrame(s, d);
    } else {
      DeskReads(s, d);
    }
  }

  /** Reserve calls touch counters, bookings and their own table. */
  ghost predicate BuyerLeaves(s: State, u: State) {
    && u == s.(bookings := u.bookings, types := u.types, reserves := u.reserves, used := u.used, requests := u.requests)
    && u.types.Keys == s.types.Keys
  }

  ghost predicate NoNewBooking(s: State, u: State) {
    u.requests == s.requests && u.used == s.used && u.bookings.Keys <= s.bookings.Keys
  }

  lemma CreateFrame(s: State, b: Buyer)
    requires BuyerEnabled(s, b) && b.CreateBooking?
    ensures BuyerLeaves(s, ApplyBuyer(s, b))
    ensures ApplyBuyer(s, b).bookings.Keys == s.bookings.Keys + {b.booking} &&
      ApplyBuyer(s, b).bookings[b.booking].status.Pending?
    ensures forall id :: id in s.bookings && id != b.booking ==> ApplyBuyer(s, b).bookings[id] == s.bookings[id]
  {
    hide Price;
  }

  lemma DeleteFrame(s: State, b: Buyer)
    requires BuyerEnabled(s, b) && b.DeleteBooking?
    ensures BuyerLeaves(s, ApplyBuyer(s, b)) && NoNewBooking(s, ApplyBuyer(s, b))
    ensures forall id :: id in s.bookings && !s.bookings[id].status.Pending? ==> id in ApplyBuyer(s, b).bookings
    ensures forall id :: id in ApplyBuyer(s, b).bookings ==> ApplyBuyer(s, b).bookings[id] == s.bookings[id]
  {
    DeleteIsStep(s, b.r);
    hide ApplyBuyer, BuyerEnabled;
  }

  lemma DeleteIsStep(s: State, r: nat)
    requires BuyerEnabled(s, DeleteBooking(r))
    ensures s.reserves[r].phase.Deleting?
    ensures ApplyBuyer(s, DeleteBooking(r)) == DeleteStep(s, r, s.reserves[r].phase)
  {
  }

  lemma BuyerFrame(s: State, b: Buyer)
    requires BuyerEnabled(s, b)
    ensures BuyerLeaves(s, ApplyBuyer(s, b))
  {
    hide ApplyBuyer, BuyerEnabled;
    if b.CreateBooking? {
      CreateFrame(s, b);
    } else if b.DeleteBooking? {
      DeleteFrame(s, b);
    } else {
      BuyerCounts(s, b);
    }
  }

  lemma BuyerCreatesOnlyInCreate(s: State, b: Buyer)
    requires BuyerEnabled(s, b) && !b.CreateBooking?
    ensures NoNewBooking(s, ApplyBuyer(s, b))
  {
    hide ApplyBuyer, BuyerEnabled;
    if b.DeleteBooking? {
      DeleteFrame(s, b);
    } else {
      BuyerCounts(s, b);
    }
  }

  lemma ReleasesOnBuyer(s: State, b: Buyer)
    requires ReleasesOk(s) && RowsOk(s) && BuyerEnabled(s, b)
    ensures ReleasesOk(ApplyBuyer(s, b))
  {
    assert b.CreateBooking? ==> b.booking !in s.bookings;
    hide ApplyBuyer, BuyerEnabled, RowsOk;
    BuyerFrame(s, b);
    if b.CreateBooking? {
      CreateFrame(s, b);
    } else if b.DeleteBooking? {
      DeleteFrame(s, b);
    } else {
      BuyerCounts(s, b);
    }
  }

  lemma RequestsStay(s: State, u: State)
    requires RequestsOk(s) && Grows(s, u) && NoNewBooking(s, u)
    ensures RequestsOk(u)
  {
  }

  lemma RequestsOnBuyer(s: State, b: Buyer)
    requires RequestsOk(s) && Shape(s) && BuyerEnabled(s, b)
    ensures RequestsOk(ApplyBuyer(s, b))
  {
    if b.CreateBooking? {
      RequestsOnCreate(s, b.r, b.booking);
    } else {
      BuyerKeepsShape(s, b);
      BuyerCreatesOnlyInCreate(s, b);
      RequestsStay(s, ApplyBuyer(s, b));
    }
  }

  lemma RequestsOnCreate(s: State, r: nat, id: nat)
    requires RequestsOk(s) && BuyerEnabled(s, CreateBooking(r, id))
    ensures RequestsOk(CreateStep(s, r, s.reserves[r].phase, id))
  {
  }

  lemma DeskInvOnBuyer(s: State, b: Buyer)
    requires Shape(s) && DeskInv(s) && BuyerEnabled(s, b)
    ensures DeskInv(ApplyBuyer(s, b))
  {
    BuyerKeepsShape(s, b);
    BuyerFrame(s, b);
    TicketsOnOther(s, ApplyBuyer(s, b));
    ReleasesOnBuyer(s, b);
    RequestsOnBuyer(s, b);
  }

  lemma DeskInvOnDesk(s: State, d: Desk)
    requires Shape(s) && DeskInv(s) && DeskEnabled(s, d)
    ensures DeskInv(ApplyDesk(s, d))
  {
    DeskKeepsShape(s, d);
    DeskFrame(s, d);
    TicketsOnDesk(s, d);
    ReleasesOnDesk(s, d);
    RequestsStay(s, ApplyDesk(s, d));
  }

  lemma DeskInvOnAdmin(s: State, m: Admin)
    requires Shape(s) && DeskInv(s) && AdminEnabled(s, m)
    ensures DeskInv(ApplyAdmin(s, m))
  {
    AdminKeepsShape(s, m);
    TicketsOnOther(s, ApplyAdmin(s, m));
    RequestsStay(s, ApplyAdmin(s, m));
  }

  lemma DeskInvIsInductive(s: State, a: Action)
    requires Shape(s) && DeskInv(s) && Enabled(s, a)
    ensures DeskInv(Apply(s, a))
  {
    match a
    case ByBuyer(b) => DeskInvOnBuyer(s, b);
    case ByDesk(d) => DeskInvOnDesk(s, d);
    case ByAdmin(m) => DeskInvOnAdmin(s, m);
    case MarkDelivered(row) =>
      MarkDeliveredKeepsShape(s, row);
      TicketsOnOther(s, Apply(s, a));
      RequestsStay(s, Apply(s, a));
  }

  /*** The venue bound ***/

  function TypesOf(types: map<nat, TicketType>, e: nat): map<nat, TicketType> {
    map t | t in types && types[t].event == e :: types[t]
  }

  /** An event's ticket types together fit the venue, as checked when it was created. */
  ghost predicate VenueOk(s: State) {
    forall e :: e in s.events ==> Quantities(TypesOf(s.types, e)) <= s.events[e].capacity
  }

  lemma SameQuantities(a: map<nat, TicketType>, b: map<nat, TicketType>)
    requires a.Keys == b.Keys && forall t :: t in a ==> a[t].quantity == b[t].quantity
    ensures Quantities(a) == Quantities(b)
  {
    SumMonotone(a, QuantityOf(), b, QuantityOf());
    SumMonotone(b, QuantityOf(), a, QuantityOf());
  }

  lemma VenueStays(s: State, u: State)
    requires VenueOk(s) && Grows(s, u) && SameVenues(s, u)
    ensures VenueOk(u)
  {
    forall e | e in u.events ensures Quantities(TypesOf(u.types, e)) <= u.events[e].capacity {
      SameQuantities(TypesOf(s.types, e), TypesOf(u.types, e));
    }
  }

  lemma VenueOnCreate(s: State, m: Admin)
    requires Shape(s) && VenueOk(s) && AdminEnabled(s, m) && m.CreateEvent?
    ensures VenueOk(ApplyAdmin(s, m))
  {
    var u := ApplyAdmin(s, m);
    forall e | e in u.events ensures Quantities(TypesOf(u.types, e)) <= u.events[e].capacity {
      SameQuantities(if e == m.event then m.types else TypesOf(s.types, e), TypesOf(u.types, e));
    }
  }

  /** The ticket types of a state are fixed outside CreateEvent. */
  ghost predicate SameVenues(s: State, u: State) {
    && u.types.Keys == s.types.Keys && u.events.Keys == s.events.Keys
    && forall e :: e in s.events ==> u.events[e].capacity == s.events[e].capacity
  }

  lemma AdminKeepsVenues(s: State, m: Admin)
    requires AdminEnabled(s, m) && !m.CreateEvent?
    ensures SameVenues(s, ApplyAdmin(s, m))
  {
  }

  lemma VenuesStay(s: State, a: Action)
    requires Shape(s) && Enabled(s, a) && !(a.ByAdmin? && a.m.CreateEvent?)
    ensures SameVenues(s, Apply(s, a))
  {
    match a
    case ByBuyer(b) => BuyerFrame(s, b);
    case ByDesk(d) => DeskFrame(s, d);
    case ByAdmin(m) => AdminKeepsVenues(s, m);
    case MarkDelivered(_) =>
  }

  lemma VenueIsInductive(s: State, a: Action)
    requires Shape(s) && VenueOk(s) && Enabled(s, a)
    ensures VenueOk(Apply(s, a))
  {
    if a.ByAdmin? && a.m.CreateEvent? {
      VenueOnCreate(s, a.m);
    } else {
      ShapeIsInductive(s, a);
      VenuesStay(s, a);
      VenueStays(s, Apply(s, a));
    }
  }

  /*** Whole runs ***/

  ghost predicate Inv(s: State) {
    Shape(s) && Ledger(s) && DeskInv(s) && VenueOk(s)
  }

  lemma InvIsInductive(s: State, a: Action)
    requires Inv(s) && Enabled(s, a)
    ensures Inv(Apply(s, a)) && Grows(s, Apply(s, a))
  {
    ShapeIsInductive(s, a);
    LedgerIsInductive(s, a);
    DeskInvIsInductive(s, a);
    VenueIsInductive(s, a);
  }

  lemma InitialInv(cascade: bool)
    ensures Inv(Init(cascade))
  {
  }

  lemma {:induction false} RunKeepsInv(s: State, run: seq<Action>)
    requires Inv(s) && Runs(s, run)
    ensures Inv(End(s, run))
    decreases |run|
  {
    if run != [] {
      InvIsInductive(s, run[0]);
      RunKeepsInv(Apply(s, run[0]), run[1..]);
    }
  }

  /** The seats of type t are exactly where they should be, and the next release of seats that
      somebody owns or holds does not run into the cap. */
  ghost predicate ExactAt(s: State, t: nat)
    requires t in s.types
  {
    && s.types[t].available + Owned(s, t) + InFlight(s, t) + Leaked(s, t) == s.types[t].quantity
    && Owned(s, t) <= s.types[t].quantity
    && (forall id :: id in s.bookings && OwnsSeats(s.bookings[id].status) ==>
          s.types[t].available + Seats(s.bookings[id].items, t) <= s.types[t].quantity)
    && (forall r :: r in s.reserves ==>
          s.types[t].available + Seats(Held(s.reserves[r].phase), t) <= s.types[t].quantity)
  }

  /** In every run, for every ticket type of an approved event: the counter stays within its
      CHECK constraint; seats sold exceed the quantity by at most the seats that rollbacks
      returned while the booking row survived; and without such a rollback the ledger is exact. */
  lemma SeatsAreAccountedFor(cascade: bool, run: seq<Action>)
    requires Runs(Init(cascade), run)
    ensures var s := End(Init(cascade), run);
      forall t :: t in s.types ==>
        && 0 <= s.types[t].available <= s.types[t].quantity
        && Owned(s, t) <= s.types[t].quantity + Unbacked(s, t)
        && (TypeOpen(s, t) && Unbacked(s, t) == 0 ==> ExactAt(s, t))
  {
    InitialInv(cascade);
    RunKeepsInv(Init(cascade), run);
    var s := End(Init(cascade), run);
    forall t | t in s.types
      ensures 0 <= s.types[t].available <= s.types[t].quantity
      ensures Owned(s, t) <= s.types[t].quantity + Unbacked(s, t)
      ensures TypeOpen(s, t) && Unbacked(s, t) == 0 ==> ExactAt(s, t)
    {
      assert Balanced(s, t);
      SumsAreNatural(s, t);
    }
  }

  /** Seats sold on the ticket types of one event. */
  ghost function Sold(s: State, e: nat): int {
    Sum(map t | t in TypesOf(s.types, e) :: Owned(s, t), Itself())
  }

  ghost function Itself(): int -> int {
    (n: int) => n
  }

  lemma OwnedWithinQuantity(s: State, t: nat)
    requires Ledger(s) && RowsOk(s) && t in s.types && Unbacked(s, t) == 0
    ensures Owned(s, t) <= s.types[t].quantity
  {
    assert Balanced(s, t);
    SumsAreNatural(s, t);
  }

  lemma SoldFitsVenue(s: State, e: nat)
    requires Ledger(s) && RowsOk(s) && VenueOk(s) && e in s.events
    requires forall t :: t in TypesOf(s.types, e) ==> Unbacked(s, t) == 0
    ensures Sold(s, e) <= s.events[e].capacity
  {
    hide Owned, Unbacked, Ledger, RowsOk;
    var types := TypesOf(s.types, e);
    var owned := map t | t in types :: Owned(s, t);
    forall t | t in owned ensures Itself()(owned[t]) <= QuantityOf()(types[t]) {
      OwnedWithinQuantity(s, t);
    }
    SumMonotone(owned, Itself(), types, QuantityOf());
  }

  /** In every run, the seats owned on all ticket types of an event fit its venue, as long as
      no rollback of those types was unbacked. */
  lemma VenueIsNeverExceeded(cascade: bool, run: seq<Action>, e: nat)
    requires Runs(Init(cascade), run) && e in End(Init(cascade), run).events
    requires forall t :: t in TypesOf(End(Init(cascade), run).types, e) ==> Unbacked(End(Init(cascade), run), t) == 0
    ensures Sold(End(Init(cascade), run), e) <= End(Init(cascade), run).events[e].capacity
  {
    InitialInv(cascade);
    RunKeepsInv(Init(cascade), run);
    SoldFitsVenue(End(Init(cascade), run), e);
  }

  /** In every run: a booking's seats are given back by a transition at most once, and exactly
      when it is over; a ticket row is for an item of a booking that was confirmed, carries
      that booking's event, user and ticket type, and no item gets two. */
  lemma ReleasedAndIssuedOnce(cascade: bool, run: seq<Action>)
    requires Runs(Init(cascade), run)
    ensures var s := End(Init(cascade), run);
      && (forall id :: id in s.released ==> s.released[id] == 1)
      && (forall id :: id in s.bookings ==> (id in s.released <==> !OwnsSeats(s.bookings[id].status)))
      && (forall i :: 0 <= i < |s.outbox| && s.outbox[i].message.TicketIssued? ==> TicketFits(s, s.outbox[i].message))
      && (forall i, j :: 0 <= i < j < |s.outbox| && IsTicket(s.outbox[i]) && IsTicket(s.outbox[j]) ==>
            s.outbox[i].message.booking != s.outbox[j].message.booking ||
            s.outbox[i].message.ticket != s.outbox[j].message.ticket)
  {
    InitialInv(cascade);
    RunKeepsInv(Init(cascade), run);
    var s := End(Init(cascade), run);
    forall i | 0 <= i < |s.outbox| && s.outbox[i].message.TicketIssued? ensures IsTicket(s.outbox[i]) {
    }
  }

  /** What became of booking id between two states. */
  ghost predicate MovedOn(s: State, u: State, id: nat) {
    && id in u.used
    && (id in u.bookings ==> id in s.bookings && Past(s.bookings[id], u.bookings[id]))
    && (id in s.bookings && !s.bookings[id].status.Pending? ==> id in u.bookings)
  }

  lemma MovedOnCompose(s: State, u: State, v: State, id: nat)
    requires MovedOn(s, u, id) && MovedOn(u, v, id)
    ensures MovedOn(s, v, id)
  {
  }

  /** However a run goes on, a booking only moves along the allowed graph, keeps its user, event
      and items, and disappears only while pending; its id is never used again. */
  lemma {:induction false} BookingsFollowTheGraph(s: State, run: seq<Action>, id: nat)
    requires Inv(s) && Runs(s, run) && id in s.used
    ensures MovedOn(s, End(s, run), id)
    decreases |run|
  {
    if run != [] {
      var u := Apply(s, run[0]);
      InvIsInductive(s, run[0]);
      assert MovedOn(s, u, id);
      BookingsFollowTheGraph(u, run[1..], id);
      MovedOnCompose(s, u, End(s, run), id);
    }
  }
}
