/** A run of the shipped schema in which one seat is sold twice, and a run of a cascading schema in
    which a rollback creates a seat. */
module Oversell {
  import opened Sums
  import opened TicketingTables
  import opened TicketingSteps
  import opened SeatLedger
  import opened TicketingProofs

  /** One event, one ticket type, one seat at 100 rupiah. */
  function Seat(available: int): TicketType { TicketType(1, 100, 1, available) }

  function Order(): seq<Item> { [Item(5, 1, 100)] }

  function Reserved(): Booking { Booking(7, 1, Pending, Order()) }

  function Shop(available: int): State {
    Init(false).(events := map[1 := Event(9, 1, Published)], types := map[5 := Seat(available)])
  }

  /** A step that the two services together allow at any time: it waits for no message. */
  predicate Free(a: Action) {
    (a.ByBuyer? && !a.b.PaymentOk?) || a.ByAdmin?
  }

  /** A run of such steps from the empty database. */
  ghost predicate Plan(cascade: bool, run: seq<Action>) {
    Runs(Init(cascade), run) && forall i :: 0 <= i < |run| ==> Free(run[i])
  }

  lemma Go(cascade: bool, run: seq<Action>, a: Action) returns (longer: seq<Action>)
    requires Plan(cascade, run) && Enabled(End(Init(cascade), run), a) && Free(a)
    ensures Plan(cascade, longer) && End(Init(cascade), longer) == Apply(End(Init(cascade), run), a)
  {
    hide Enabled, Apply;
    Extend(Init(cascade), run, a);
    longer := run + [a];
  }

  lemma OpenShop() returns (run: seq<Action>)
    ensures Plan(false, run) && End(Init(false), run) == Shop(1)
  {
    assert map[5 := Seat(0)] == map[][5 := Seat(0)];
    SumUpdate(map[], QuantityOf(), 5, Seat(0));
    run := Go(false, [], ByAdmin(CreateEvent(1, 9, 1, map[5 := Seat(0)])));
    run := Go(false, run, ByAdmin(Approve(1)));
    assert End(Init(false), run).types == map[5 := Seat(1)];
    assert End(Init(false), run).events == map[1 := Event(9, 1, Published)];
  }

  function Buying(taken: nat, priced: bool): Reserve { Reserve(Taking(1, 7, Order(), taken, priced), [], []) }

  lemma SeatPriced() returns (run: seq<Action>)
    ensures Plan(false, run) && End(Init(false), run) == Shop(1).(reserves := map[0 := Buying(0, true)])
  {
    run := OpenShop();
    run := Go(false, run, ByBuyer(StartReserve(0, 1, 7, Order())));
    run := Go(false, run, ByBuyer(PriceOk(0)));
    assert End(Init(false), run).reserves == map[0 := Buying(0, true)];
  }

  /** The first customer holds the seat. */
  lemma SeatTaken() returns (run: seq<Action>)
    ensures Plan(false, run) && End(Init(false), run) == Shop(0).(reserves := map[0 := Buying(1, false)])
  {
    run := SeatPriced();
    run := Go(false, run, ByBuyer(TakeSeats(0)));
    assert End(Init(false), run).types == map[5 := Seat(0)];
    assert End(Init(false), run).reserves == map[0 := Buying(1, false)];
  }

  /** The shop after the first customer's booking row was written. */
  function Booked(available: int, x: Reserve): State {
    Shop(available).(reserves := map[0 := x], bookings := map[20 := Reserved()], used := {20},
                     requests := map[20 := Request(1, 7, Price(Order()))])
  }

  lemma FirstCustomer() returns (run: seq<Action>)
    ensures Plan(false, run) && End(Init(false), run) == Booked(0, Reserve(Created(20, Order()), [], []))
  {
    hide Price;
    run := SeatTaken();
    run := Go(false, run, ByBuyer(CreateBooking(0, 20)));
    var s := End(Init(false), run);
    assert s.reserves == map[0 := Reserve(Created(20, Order()), [], [])] && s.bookings == map[20 := Reserved()];
    assert s.requests == map[20 := Request(1, 7, Price(Order()))];
  }

  /** The payment call fails, ... */
  lemma FailedCall() returns (run: seq<Action>)
    ensures Plan(false, run) && End(Init(false), run) == Booked(0, Reserve(Deleting(20, Order()), [], []))
  {
    hide Price;
    run := FirstCustomer();
    run := Go(false, run, ByBuyer(PaymentFails(0)));
    assert End(Init(false), run).reserves == map[0 := Reserve(Deleting(20, Order()), [], [])];
  }

  /** ... the row cannot be deleted, ... */
  lemma FailedDelete() returns (run: seq<Action>)
    ensures Plan(false, run) && End(Init(false), run) == Booked(0, Reserve(Returning(Order(), 0, false), [], []))
  {
    hide Price;
    run := FailedCall();
    run := Go(false, run, ByBuyer(DeleteBooking(0)));
    assert End(Init(false), run).reserves == map[0 := Reserve(Returning(Order(), 0, false), [], [])];
  }

  /** ... but the seat is given back. */
  lemma FailedPayment() returns (run: seq<Action>)
    ensures Plan(false, run) && End(Init(false), run) ==
      Booked(1, Reserve(Returning(Order(), 1, false), [], Order()))
  {
    hide Price;
    run := FailedDelete();
    run := Go(false, run, ByBuyer(ReturnOne(0)));
    var s := End(Init(false), run);
    assert [] + [Order()[0]] == Order();
    assert s.reserves == map[0 := Reserve(Returning(Order(), 1, false), [], Order())];
    assert s.types == map[5 := Seat(1)];
  }

  /** The shop with the first customer's Reserve call over and the second one's under way. */
  function Again(available: int, taken: nat, priced: bool): State {
    Booked(available, Reserve(Done, [], [])).(reserves := map[
      0 := Reserve(Returning(Order(), 1, false), [], Order()),
      1 := Reserve(Taking(1, 7, Order(), taken, priced), [], [])])
  }

  lemma SecondStarts() returns (run: seq<Action>)
    ensures Plan(false, run) && End(Init(false), run) == Again(1, 0, true)
  {
    hide Price;
    run := SecondArrives();
    run := Go(false, run, ByBuyer(PriceOk(1)));
    assert End(Init(false), run).reserves == Again(1, 0, true).reserves;
  }

  lemma SecondArrives() returns (run: seq<Action>)
    ensures Plan(false, run) && End(Init(false), run) == Again(1, 0, false)
  {
    hide Price;
    run := FailedPayment();
    run := Go(false, run, ByBuyer(StartReserve(1, 1, 7, Order())));
    assert End(Init(false), run).reserves == Again(1, 0, false).reserves;
  }

  /** A second customer takes the same seat. */
  lemma SeatTakenAgain() returns (run: seq<Action>)
    ensures Plan(false, run) && End(Init(false), run) == Again(0, 1, false)
  {
    hide Price;
    run := SecondStarts();
    run := Go(false, run, ByBuyer(TakeSeats(1)));
    assert End(Init(false), run).types == map[5 := Seat(0)];
    assert End(Init(false), run).reserves == Again(0, 1, false).reserves;
  }

  lemma SecondCustomer() returns (run: seq<Action>)
    ensures Plan(false, run)
    ensures End(Init(false), run).types == map[5 := Seat(0)]
    ensures End(Init(false), run).bookings == map[20 := Reserved(), 21 := Reserved()]
    ensures End(Init(false), run).events == map[1 := Event(9, 1, Published)]
  {
    hide Price;
    run := SeatTakenAgain();
    run := Go(false, run, ByBuyer(CreateBooking(1, 21)));
    assert End(Init(false), run).bookings == map[20 := Reserved(), 21 := Reserved()];
  }

  /** Two pending bookings own two seats of a type that has one, at a venue that has one. */
  lemma SoldTwice(s: State)
    requires s.types == map[5 := Seat(0)] && s.bookings == map[20 := Reserved(), 21 := Reserved()]
    requires s.events == map[1 := Event(9, 1, Published)]
    ensures OverSold(s, 5, 1)
  {
    assert Owned(s, 5) == 2 by { TwoOwned(s); }
    OneTypeSold(s);
  }

  lemma PriceOfOrder()
    ensures Price(Order()) == 100
  {
    assert Order()[..0] == [];
  }

  lemma TwoOwned(s: State)
    requires s.bookings == map[20 := Reserved(), 21 := Reserved()]
    ensures Owned(s, 5) == 2
  {
    var one := map[20 := Reserved()];
    assert s.bookings == one[21 := Reserved()] && one == map[][20 := Reserved()];
    SumUpdate(map[], OwnedBy(5), 20, Reserved());
    SumUpdate(one, OwnedBy(5), 21, Reserved());
    assert Order()[..0] == [];
    assert Seats(Order(), 5) == 1;
  }

  lemma OneTypeSold(s: State)
    requires s.types == map[5 := Seat(0)]
    ensures Sold(s, 1) == Owned(s, 5)
  {
    hide Owned;
    var owned := map t | t in TypesOf(s.types, 1) :: Owned(s, t);
    assert owned == map[][5 := Owned(s, 5)];
    SumUpdate(map[], Itself(), 5, Owned(s, 5));
  }

  /** More seats of type t are owned than it has, and more of event e than its venue has. */
  ghost predicate OverSold(s: State, t: nat, e: nat) {
    && t in s.types && Owned(s, t) > s.types[t].quantity
    && e in s.events && Sold(s, e) > s.events[e].capacity
  }

  /*** A cascading schema is no cure ***/

  function Pair(available: int): TicketType { TicketType(1, 100, 2, available) }

  /** A shop with two seats, whose schema cascades. */
  function BigShop(available: int): State {
    Init(true).(events := map[1 := Event(9, 2, Published)], types := map[5 := Pair(available)])
  }

  lemma OpenBigShop() returns (run: seq<Action>)
    ensures Plan(true, run) && End(Init(true), run) == BigShop(2)
  {
    assert map[5 := Pair(0)] == map[][5 := Pair(0)];
    SumUpdate(map[], QuantityOf(), 5, Pair(0));
    run := Go(true, [], ByAdmin(CreateEvent(1, 9, 2, map[5 := Pair(0)])));
    run := Go(true, run, ByAdmin(Approve(1)));
    assert End(Init(true), run).types == map[5 := Pair(2)];
    assert End(Init(true), run).events == map[1 := Event(9, 2, Published)];
  }

  /** One customer holds a seat and is slow, another one takes the other seat. */
  lemma BothTaken() returns (run: seq<Action>)
    ensures Plan(true, run)
    ensures End(Init(true), run) == BigShop(0).(reserves := map[0 := Buying(1, false), 1 := Buying(1, false)])
  {
    run := OneTaken();
    run := Go(true, run, ByBuyer(StartReserve(1, 1, 7, Order())));
    run := Go(true, run, ByBuyer(PriceOk(1)));
    run := Go(true, run, ByBuyer(TakeSeats(1)));
    assert End(Init(true), run).types == map[5 := Pair(0)];
    assert End(Init(true), run).reserves == map[0 := Buying(1, false), 1 := Buying(1, false)];
  }

  lemma OneTaken() returns (run: seq<Action>)
    ensures Plan(true, run) && End(Init(true), run) == BigShop(1).(reserves := map[0 := Buying(1, false)])
  {
    run := OpenBigShop();
    run := Go(true, run, ByBuyer(StartReserve(0, 1, 7, Order())));
    run := Go(true, run, ByBuyer(PriceOk(0)));
    run := Go(true, run, ByBuyer(TakeSeats(0)));
    assert End(Init(true), run).types == map[5 := Pair(1)];
    assert End(Init(true), run).reserves == map[0 := Buying(1, false)];
  }

  /** The second customer's booking, after the payment call failed with a transaction created. */
  function Doomed(available: int, status: BookingStatus, x: Reserve): State {
    BigShop(available).(
      reserves := map[0 := Buying(1, false), 1 := x],
      bookings := map[21 := Reserved().(status := status)],
      used := {21},
      requests := map[21 := Request(1, 7, Price(Order()))])
  }

  lemma CallFailed() returns (run: seq<Action>)
    ensures Plan(true, run)
    ensures End(Init(true), run) == Doomed(0, Pending, Reserve(Deleting(21, Order()), [], []))
  {
    hide Price;
    run := RowWritten();
    run := Go(true, run, ByBuyer(PaymentFails(1)));
    assert End(Init(true), run).reserves == map[0 := Buying(1, false), 1 := Reserve(Deleting(21, Order()), [], [])];
  }

  lemma RowWritten() returns (run: seq<Action>)
    ensures Plan(true, run)
    ensures End(Init(true), run) == Doomed(0, Pending, Reserve(Created(21, Order()), [], []))
  {
    hide Price;
    run := BothTaken();
    run := Go(true, run, ByBuyer(CreateBooking(1, 21)));
    assert End(Init(true), run).reserves == map[0 := Buying(1, false), 1 := Reserve(Created(21, Order()), [], [])];
    assert End(Init(true), run).bookings == map[21 := Reserved()];
    assert End(Init(true), run).requests == map[21 := Request(1, 7, Price(Order()))];
  }

  /** More seats are on sale and owned than there are. */
  ghost predicate SeatCreated(s: State, t: nat) {
    t in s.types && s.types[t].available + Owned(s, t) > s.types[t].quantity
  }

  /** The other customer books too. */
  lemma OneMoreOwned(s: State)
    requires s.types == map[5 := Pair(2)]
    requires s.bookings == map[21 := Reserved().(status := Expired)][20 := Reserved()]
    ensures SeatCreated(s, 5)
  {
    var over := map[21 := Reserved().(status := Expired)];
    assert over == map[][21 := Reserved().(status := Expired)];
    SumUpdate(map[], OwnedBy(5), 21, Reserved().(status := Expired));
    SumUpdate(over, OwnedBy(5), 20, Reserved());
    assert Order()[..0] == [];
    assert Seats(Order(), 5) == 1;
  }

  /** The booking of the second customer once its expiry was handled: the seat is back. */
  function Expired21(): State {
    Doomed(1, Expired, Reserve(Deleting(21, Order()), [], [])).(released := map[21 := 1])
  }

  /** The expiry, handled between the failed payment call and the delete. */
  lemma ExpiredBeforeDelete()
    ensures var s := Doomed(0, Pending, Reserve(Deleting(21, Order()), [], []));
      && DeskEnabled(s, StartExpire(0, 21)) && DeskEnabled(ApplyDesk(s, StartExpire(0, 21)), ExpireBooking(0))
      && ApplyDesk(ApplyDesk(s, StartExpire(0, 21)), ExpireBooking(0)) == Expired21()
  {
    hide Price;
    var s := Doomed(0, Pending, Reserve(Deleting(21, Order()), [], []));
    var v := ApplyDesk(s, StartExpire(0, 21));
    var u := ApplyDesk(v, ExpireBooking(0));
    assert Order()[..0] == [] && ReleaseAll(map[5 := Pair(0)], []) == map[5 := Pair(0)];
    assert u.types == map[5 := Pair(1)];
    assert u.bookings == map[21 := Reserved().(status := Expired)];
    assert u.handlers == map[] && u.released == map[21 := 1];
  }

  /** Then the delete finds no pending row and reports no error, the rollback returns the seat a second
      time, and the first customer books. */
  lemma ReturnedTwice() returns (run: seq<Action>)
    ensures Runs(Expired21(), run) && (forall i :: 0 <= i < |run| ==> Free(run[i]))
    ensures SeatCreated(End(Expired21(), run), 5)
  {
    hide ApplyBuyer, BuyerEnabled, SeatCreated, Expired21;
    var a, b, c := ByBuyer(DeleteBooking(1)), ByBuyer(ReturnOne(1)), ByBuyer(CreateBooking(0, 20));
    var s := Expired21();
    SeatReturnedAgain();
    OneMoreBooks(ApplyBuyer(ApplyBuyer(s, DeleteBooking(1)), ReturnOne(1)));
    run := [a, b, c];
    Extend(s, [], a);
    Extend(s, [a], b);
    Extend(s, [a, b], c);
    assert [] + [a] == [a] && [a] + [b] == [a, b] && [a, b] + [c] == run;
  }

  lemma SeatReturnedAgain()
    ensures var s := Expired21();
      && BuyerEnabled(s, DeleteBooking(1)) && BuyerEnabled(ApplyBuyer(s, DeleteBooking(1)), ReturnOne(1))
      && var u := ApplyBuyer(ApplyBuyer(s, DeleteBooking(1)), ReturnOne(1));
      && u.types == map[5 := Pair(2)] && u.bookings == map[21 := Reserved().(status := Expired)]
      && u.used == {21} && 1 in u.events && 0 in u.reserves && u.reserves[0] == Buying(1, false)
  {
    hide Price;
    var s := Expired21();
    var v := ApplyBuyer(s, DeleteBooking(1));
    assert v == s.(reserves := s.reserves[1 := Reserve(Returning(Order(), 0, false), [], [])]);
  }

  lemma OneMoreBooks(s: State)
    requires s.types == map[5 := Pair(2)] && s.bookings == map[21 := Reserved().(status := Expired)]
    requires s.used == {21} && 1 in s.events && 0 in s.reserves && s.reserves[0] == Buying(1, false)
    ensures BuyerEnabled(s, CreateBooking(0, 20)) && SeatCreated(ApplyBuyer(s, CreateBooking(0, 20)), 5)
  {
    hide Price;
    OneMoreOwned(ApplyBuyer(s, CreateBooking(0, 20)));
  }

  /*** The cap swallows a seat ***/

  /** The next release of call r follows a removed or never written row, and yet it loses seats. */
  ghost predicate Swallows(s: State, r: nat) {
    && BuyerEnabled(s, ReturnOne(r)) && s.reserves[r].phase.backed
    && var t := s.reserves[r].phase.items[s.reserves[r].phase.returned].ticketType;
    && var u := ReturnStep(s, r, s.reserves[r].phase);
    && t in s.types && t in u.types && Accounted(u, t) < Accounted(s, t)
  }

  /** The shop while the second customer's seat is about to be returned, its row never written. */
  function TurnedAway(available: int, status: BookingStatus): State {
    Again(available, 0, false).(
      bookings := map[20 := Reserved().(status := status)],
      reserves := map[
        0 := Reserve(Returning(Order(), 1, false), [], Order()),
        1 := Reserve(Returning(Order(), 0, true), [], [])])
  }

  lemma SecondTurnedAway() returns (run: seq<Action>)
    ensures Plan(false, run) && End(Init(false), run) == TurnedAway(0, Pending)
  {
    hide Price;
    run := SeatTakenAgain();
    run := Go(false, run, ByBuyer(CreateFails(1)));
    assert End(Init(false), run).reserves == TurnedAway(0, Pending).reserves;
  }

  /** The payment of the first booking expires: its seat comes back. */
  lemma FirstExpires()
    ensures var s := TurnedAway(0, Pending);
      && DeskEnabled(s, StartExpire(0, 20)) && DeskEnabled(ApplyDesk(s, StartExpire(0, 20)), ExpireBooking(0))
      && ApplyDesk(ApplyDesk(s, StartExpire(0, 20)), ExpireBooking(0)) ==
           TurnedAway(1, Expired).(released := map[20 := 1])
  {
    hide Price;
    var s := TurnedAway(0, Pending);
    var v := ApplyDesk(s, StartExpire(0, 20));
    var u := ApplyDesk(v, ExpireBooking(0));
    assert Order()[..0] == [] && ReleaseAll(map[5 := Seat(0)], []) == map[5 := Seat(0)];
    assert u.types == map[5 := Seat(1)];
    assert u.bookings == map[20 := Reserved().(status := Expired)];
    assert u.handlers == map[] && u.released == map[20 := 1];
  }

  lemma FullCounterSwallows(s: State)
    requires s == TurnedAway(1, Expired).(released := map[20 := 1])
    ensures Swallows(s, 1)
  {
    hide Accounted, Price;
    assert CountersSound(s);
    ReturnChangesAccount(s, 1, Order()[0]);
  }
}

/** These runs with both services together: nothing in them needs a message that was not sent. */
module OversellTogether {
  import opened Messages
  import opened Protocol
  import T = TicketingSteps
  import P = PaymentSteps
  import PT = PaymentTables
  import O = Oversell

  function Lifted(run: seq<T.Action>): seq<Action> {
    seq(|run|, i requires 0 <= i < |run| => Ticketing(run[i]))
  }

  /** Free steps of the ticketing service can be taken in any state of both. */
  lemma {:induction false} Lift(s: State, run: seq<T.Action>)
    requires T.Runs(s.t, run) && forall i :: 0 <= i < |run| ==> O.Free(run[i])
    ensures Runs(s, Lifted(run)) && End(s, Lifted(run)) == s.(t := T.End(s.t, run))
    decreases |run|
  {
    hide T.Enabled, T.Apply;
    if run != [] {
      assert Lifted(run)[1..] == Lifted(run[1..]);
      Lift(s.(t := T.Apply(s.t, run[0])), run[1..]);
    }
  }

  lemma {:induction false} Concat(s: State, run: seq<Action>, more: seq<Action>)
    requires Runs(s, run) && Runs(End(s, run), more)
    ensures Runs(s, run + more) && End(s, run + more) == End(End(s, run), more)
    decreases |run|
  {
    hide Enabled, Apply;
    if run == [] {
      assert run + more == more;
    } else {
      assert (run + more)[1..] == run[1..] + more;
      Concat(Apply(s, run[0]), run[1..], more);
    }
  }

  lemma Go(cascade: bool, run: seq<Action>, a: Action) returns (longer: seq<Action>)
    requires Runs(Init(cascade, 0), run) && Enabled(End(Init(cascade, 0), run), a)
    ensures Runs(Init(cascade, 0), longer) && End(Init(cascade, 0), longer) == Apply(End(Init(cascade, 0), run), a)
  {
    hide Enabled, Apply;
    Extend(Init(cascade, 0), run, a);
    longer := run + [a];
  }

  /** A plan of the ticketing service, followed while the payment service does nothing. */
  lemma Follow(cascade: bool, plan: seq<T.Action>) returns (run: seq<Action>)
    requires O.Plan(cascade, plan)
    ensures Runs(Init(cascade, 0), run)
    ensures End(Init(cascade, 0), run) == Init(cascade, 0).(t := T.End(T.Init(cascade), plan))
  {
    Lift(Init(cascade, 0), plan);
    run := Lifted(plan);
  }

  /** One seat is sold twice, with the shipped schema. */
  lemma OneSeatIsSoldTwice()
    ensures exists run :: Runs(Init(false, 0), run) && O.OverSold(End(Init(false, 0), run).t, 5, 1)
  {
    var plan := O.SecondCustomer();
    O.SoldTwice(T.End(T.Init(false), plan));
    var run := Follow(false, plan);
    assert Runs(Init(false, 0), run);
  }

  /** The transaction of a booking that costs 100 rupiah. */
  function Row(id: nat, status: PT.TxnStatus): PT.Txn {
    PT.Txn(id, 1, 7, 100, status, PT.NoSession, PT.NotRefunded, Some(60))
  }

  function Expiry(id: nat): Message {
    PT.ExpiredMessage(0, Row(id, PT.Initiated), InternalExpiryFallback)
  }

  /** The payment service got a request, although its caller gave up; nobody pays, the poller expires
      the transaction, and the outbox worker publishes the message. */
  lemma PaymentExpires(cascade: bool, run0: seq<Action>, id: nat) returns (run: seq<Action>)
    requires Runs(Init(cascade, 0), run0)
    requires var s := End(Init(cascade, 0), run0);
      s == Init(cascade, 0).(t := s.t) && id in s.t.requests && s.t.requests[id] == T.Request(1, 7, 100)
    ensures Runs(Init(cascade, 0), run)
    ensures var s := End(Init(cascade, 0), run);
      s.t == End(Init(cascade, 0), run0).t && HeardExpired(s.log, id)
  {
    run := Polled(cascade, run0, id);
    run := Go(cascade, run, Payment(P.ByPoller(P.AnnounceExpiry(0))));
    assert End(Init(cascade, 0), run).p.outbox[0].message == Expiry(id);
    run := Go(cascade, run, PublishP(0));
    assert Expiry(id) in End(Init(cascade, 0), run).log;
  }

  lemma Polled(cascade: bool, run0: seq<Action>, id: nat) returns (run: seq<Action>)
    requires Runs(Init(cascade, 0), run0)
    requires var s := End(Init(cascade, 0), run0);
      s == Init(cascade, 0).(t := s.t) && id in s.t.requests && s.t.requests[id] == T.Request(1, 7, 100)
    ensures Runs(Init(cascade, 0), run)
    ensures var s := End(Init(cascade, 0), run);
      && s.t == End(Init(cascade, 0), run0).t && s.p.outbox == []
      && 0 in s.p.procs && s.p.procs[0] == P.PollAnnouncing(0, Expiry(id), [])
  {
    var row := Row(id, PT.Initiated);
    run := Overdue(cascade, run0, id);
    run := Go(cascade, run, Payment(P.ByPoller(P.StartPoll(0, [P.Seen(0, row)]))));
    run := Go(cascade, run, Payment(P.ByPoller(P.ExpireOne(0))));
    assert [P.Seen(0, row)][1..] == [];
  }

  lemma Overdue(cascade: bool, run0: seq<Action>, id: nat) returns (run: seq<Action>)
    requires Runs(Init(cascade, 0), run0)
    requires var s := End(Init(cascade, 0), run0);
      s == Init(cascade, 0).(t := s.t) && id in s.t.requests && s.t.requests[id] == T.Request(1, 7, 100)
    ensures Runs(Init(cascade, 0), run)
    ensures var s := End(Init(cascade, 0), run);
      s.t == End(Init(cascade, 0), run0).t && s.p == P.Init(60).(txns := map[0 := Row(id, PT.Initiated)])
  {
    run := Go(cascade, run0, Payment(P.Initiate(0, id, 1, 7, 100, 60)));
    run := Go(cascade, run, Payment(P.Tick(60)));
    assert End(Init(cascade, 0), run).p.txns == map[0 := Row(id, PT.Initiated)];
  }

  /** The expiry is handled. */
  lemma ExpiryHandled(cascade: bool, run0: seq<Action>, id: nat) returns (run: seq<Action>)
    requires Runs(Init(cascade, 0), run0)
    requires var s := End(Init(cascade, 0), run0);
      && HeardExpired(s.log, id) && T.DeskEnabled(s.t, T.StartExpire(0, id))
      && T.DeskEnabled(T.ApplyDesk(s.t, T.StartExpire(0, id)), T.ExpireBooking(0))
    ensures Runs(Init(cascade, 0), run)
    ensures var t := End(Init(cascade, 0), run0).t;
      End(Init(cascade, 0), run).t == T.ApplyDesk(T.ApplyDesk(t, T.StartExpire(0, id)), T.ExpireBooking(0))
  {
    hide T.ApplyDesk, T.DeskEnabled;
    run := Go(cascade, run0, Ticketing(T.ByDesk(T.StartExpire(0, id))));
    run := Go(cascade, run, Ticketing(T.ByDesk(T.ExpireBooking(0))));
  }

  /** Also with a cascading schema a rollback creates a seat, when the expiry of the payment is handled
      between the failed payment call and the delete: two seats are on sale, and a third is owned. */
  lemma CascadeIsNoCure()
    ensures exists run :: Runs(Init(true, 0), run) && O.SeatCreated(End(Init(true, 0), run).t, 5)
  {
    var plan := O.CallFailed();
    var run := Follow(true, plan);
    O.PriceOfOrder();
    run := PaymentExpires(true, run, 21);
    O.ExpiredBeforeDelete();
    run := ExpiryHandled(true, run, 21);
    var rest := O.ReturnedTwice();
    Lift(End(Init(true, 0), run), rest);
    Concat(Init(true, 0), run, Lifted(rest));
    assert Runs(Init(true, 0), run + Lifted(rest));
  }

  /** Once a rollback has created a seat, the cap may swallow one: a release after a row that was never
      written changes the account. */
  lemma CapSwallowsASeat()
    ensures exists run :: Runs(Init(false, 0), run) && O.Swallows(End(Init(false, 0), run).t, 1)
  {
    var plan := O.SecondTurnedAway();
    var run := Follow(false, plan);
    O.PriceOfOrder();
    run := PaymentExpires(false, run, 20);
    O.FirstExpires();
    run := ExpiryHandled(false, run, 20);
    O.FullCounterSwallows(End(Init(false, 0), run).t);
    assert Runs(Init(false, 0), run);
  }
}
