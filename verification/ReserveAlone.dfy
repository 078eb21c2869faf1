/** A Reserve call that nobody disturbs: for every outcome its code may have, and every pattern of
    outside failures, the steps of that call alone lead to it, with the same counters and bookings;
    and they leak and create exactly the seats that the outcome says. */
module ReserveAlone {
  import opened TicketingTables
  import opened T = TicketingSteps
  import H = Handlers
  import B = BookingService

  /** All steps of the run belong to call r. */
  predicate Mine(run: seq<T.Action>, r: nat) {
    forall i :: 0 <= i < |run| ==> run[i].ByBuyer? && run[i].b.r == r
  }

  lemma Go(s: State, r: nat, run: seq<T.Action>, b: Buyer) returns (longer: seq<T.Action>)
    requires Runs(s, run) && Mine(run, r) && BuyerEnabled(End(s, run), b) && b.r == r
    ensures Runs(s, longer) && Mine(longer, r) && End(s, longer) == ApplyBuyer(End(s, run), b)
  {
    hide ApplyBuyer, BuyerEnabled;
    Extend(s, run, ByBuyer(b));
    longer := run + [ByBuyer(b)];
  }

  /** The state with the given counters and the given state of call r. */
  function With(s: State, r: nat, types: map<nat, TicketType>, x: Reserve): State {
    s.(types := types, reserves := s.reserves[r := x])
  }

  lemma WithTwice(
    s: State, r: nat, types: map<nat, TicketType>, x: Reserve, types1: map<nat, TicketType>, y: Reserve)
    ensures With(With(s, r, types, x), r, types1, y) == With(s, r, types1, y)
  {
    assert s.reserves[r := x][r := y] == s.reserves[r := y];
  }

  /** From state u of the call x, step b leads to the given counters and state of the call. */
  predicate Leads(u: State, b: Buyer, types: map<nat, TicketType>, x: Reserve) {
    BuyerEnabled(u, b) && ApplyBuyer(u, b) == With(u, b.r, types, x)
  }

  /** The call is in this state. */
  predicate In(u: State, r: nat, x: Reserve) {
    r in u.reserves && u.reserves[r] == x
  }

  /** One step more, from the state s with call r changed. */
  lemma GoOn(
    s: State, base: State, r: nat, run: seq<T.Action>, types: map<nat, TicketType>, x: Reserve,
    b: Buyer, types1: map<nat, TicketType>, y: Reserve)
    returns (longer: seq<T.Action>)
    requires Runs(s, run) && Mine(run, r) && End(s, run) == With(base, r, types, x)
    requires b.r == r && Leads(With(base, r, types, x), b, types1, y)
    ensures Runs(s, longer) && Mine(longer, r) && End(s, longer) == With(base, r, types1, y)
  {
    longer := Go(s, r, run, b);
    WithTwice(base, r, types, x, types1, y);
  }

  /*** Single steps ***/

  function Trying(event: nat, user: nat, items: seq<Item>, n: nat, priced: bool): Reserve {
    Reserve(Taking(event, user, items, n, priced), [], [])
  }

  lemma PriceStep(u: State, r: nat, event: nat, user: nat, items: seq<Item>, k: nat)
    requires In(u, r, Trying(event, user, items, k, false)) && k < |items|
    ensures Leads(u, PriceFails(r), u.types, Reserve(Done, items[..k], []))
    ensures B.PriceHolds(u.types, items[k]) ==> Leads(u, PriceOk(r), u.types, Trying(event, user, items, k, true))
  {
    assert [] + items[..k] == items[..k];
  }

  lemma SeatsStep(u: State, r: nat, event: nat, user: nat, items: seq<Item>, k: nat)
    requires In(u, r, Trying(event, user, items, k, true)) && k < |items|
    ensures Leads(u, SeatsFail(r), u.types, Reserve(Undoing(items, k, 0), [], []))
    ensures var item := items[k];
      CanTake(u.types, item.ticketType, item.quantity) ==>
        Leads(u, TakeSeats(r), Take(u.types, item.ticketType, item.quantity), Trying(event, user, items, k + 1, false))
  {
    hide CanTake, Take;
  }

  lemma UndoStep(u: State, r: nat, items: seq<Item>, k: nat, j: nat, leaked: seq<Item>)
    requires In(u, r, Reserve(Undoing(items, k, j), leaked, [])) && j <= k < |items|
    ensures items[j].ticketType == items[k].ticketType ==>
      Leads(u, UndoStops(r), u.types, Reserve(Done, leaked + items[j..k], []))
    ensures items[j].ticketType != items[k].ticketType ==>
      && Leads(u, UndoOne(r), Release(u.types, items[j].ticketType, items[j].quantity),
               Reserve(Undoing(items, k, j + 1), leaked, []))
      && Leads(u, UndoFails(r), u.types, Reserve(Undoing(items, k, j + 1), leaked + [items[j]], []))
  {
    hide Release;
  }

  lemma CreateFailsStep(u: State, r: nat, event: nat, user: nat, items: seq<Item>)
    requires In(u, r, Trying(event, user, items, |items|, false))
    ensures Leads(u, CreateFails(r), u.types, Reserve(Returning(items, 0, true), [], []))
  {
  }

  lemma PaymentStep(u: State, r: nat, id: nat, items: seq<Item>)
    requires In(u, r, Reserve(Created(id, items), [], []))
    ensures Leads(u, PaymentOk(r), u.types, Reserve(Done, [], []))
    ensures Leads(u, PaymentFails(r), u.types, Reserve(Deleting(id, items), [], []))
  {
  }

  lemma DeleteStepAlone(u: State, r: nat, id: nat, items: seq<Item>)
    requires In(u, r, Reserve(Deleting(id, items), [], []))
    requires StillPending(u, id) && u.bookings[id].items == items && items != []
    ensures Leads(u, DeleteFails(r), u.types, Reserve(Returning(items, 0, false), [], []))
    ensures BuyerEnabled(u, DeleteBooking(r))
    ensures ApplyBuyer(u, DeleteBooking(r)) ==
      With(u.(bookings := if u.cascade then u.bookings - {id} else u.bookings), r, u.types,
           Reserve(Returning(items, 0, u.cascade), [], []))
  {
  }

  /** A call that has been through n items of rollbackSeats: with the booking row gone, failed
      releases leak seats; with the row in place, releases that work create some. */
  function GivenBack(items: seq<Item>, failing: set<nat>, backed: bool, n: nat): Reserve
    requires n <= |items|
  {
    Reserve(Returning(items, n, backed),
            if backed then B.Pick(items, failing, true, n) else [],
            if backed then [] else B.Pick(items, failing, false, n))
  }

  lemma ReturnStepAlone(u: State, r: nat, items: seq<Item>, failing: set<nat>, backed: bool, n: nat)
    requires n < |items| && In(u, r, GivenBack(items, failing, backed, n))
    ensures n !in failing ==>
      Leads(u, ReturnOne(r), Release(u.types, items[n].ticketType, items[n].quantity),
            GivenBack(items, failing, backed, n + 1))
    ensures n in failing ==> Leads(u, ReturnFails(r), u.types, GivenBack(items, failing, backed, n + 1))
  {
    hide Release;
  }

  /*** Taking seats ***/

  lemma TakeOne(s: State, r: nat, run0: seq<T.Action>, event: nat, user: nat, items: seq<Item>, n: nat, f: B.Faults)
    returns (run: seq<T.Action>)
    requires n < |items| && B.Passes(s.types, items, n, f) && Runs(s, run0) && Mine(run0, r)
    requires End(s, run0) == With(s, r, B.Minus(s.types, items[..n]), Trying(event, user, items, n, false))
    ensures Runs(s, run) && Mine(run, r)
    ensures End(s, run) == With(s, r, B.Minus(s.types, items[..n + 1]), Trying(event, user, items, n + 1, false))
  {
    hide Seats, Take, Runs, End, Mine, Leads;
    var types, more := B.Minus(s.types, items[..n]), B.Minus(s.types, items[..n + 1]);
    var x, y, z := Trying(event, user, items, n, false), Trying(event, user, items, n, true),
      Trying(event, user, items, n + 1, false);
    assert B.PriceHolds(types, items[n]) && CanTake(types, items[n].ticketType, items[n].quantity);
    B.TakeOneMore(s.types, items, n);
    hide B.Minus, B.Passes, CanTake;
    PriceStep(With(s, r, types, x), r, event, user, items, n);
    run := GoOn(s, s, r, run0, types, x, PriceOk(r), types, y);
    SeatsStep(With(s, r, types, y), r, event, user, items, n);
    run := GoOn(s, s, r, run, types, y, TakeSeats(r), more, z);
  }

  lemma {:induction false} TakeTo(s: State, r: nat, event: nat, user: nat, items: seq<Item>, n: nat, f: B.Faults)
    returns (run: seq<T.Action>)
    requires r !in s.reserves && items != [] && n <= |items| && B.PassTo(s.types, items, n, f)
    requires forall i :: 0 <= i < |items| ==> items[i].quantity > 0
    ensures Runs(s, run) && Mine(run, r)
    ensures End(s, run) == With(s, r, B.Minus(s.types, items[..n]), Trying(event, user, items, n, false))
  {
    if n == 0 {
      run := Go(s, r, [], StartReserve(r, event, user, items));
      assert items[..0] == [];
      assert B.Minus(s.types, []) == s.types;
    } else {
      hide B.Minus;
      run := TakeTo(s, r, event, user, items, n - 1, f);
      B.StepsPassed(s.types, items, f, n, n - 1);
      run := TakeOne(s, r, run, event, user, items, n - 1, f);
    }
  }

  lemma TakeAll(s: State, r: nat, event: nat, user: nat, items: seq<Item>, f: B.Faults)
    returns (run: seq<T.Action>)
    requires r !in s.reserves && items != [] && B.PassTo(s.types, items, |items|, f)
    requires forall i :: 0 <= i < |items| ==> items[i].quantity > 0
    ensures Runs(s, run) && Mine(run, r)
    ensures End(s, run) == With(s, r, B.Minus(s.types, items), Trying(event, user, items, |items|, false))
  {
    hide B.Minus, B.PassTo;
    run := TakeTo(s, r, event, user, items, |items|, f);
    assert items[..|items|] == items;
  }

  /*** Refusals ***/

  /** A price refused at item k: the seats of the items before it stay taken. */
  lemma PriceRefusedAlone(s: State, r: nat, event: nat, user: nat, items: seq<Item>, k: nat, f: B.Faults)
    returns (run: seq<T.Action>)
    requires r !in s.reserves && k < |items| && B.PassTo(s.types, items, k, f)
    requires forall i :: 0 <= i < |items| ==> items[i].quantity > 0
    ensures Runs(s, run) && Mine(run, r)
    ensures End(s, run) == With(s, r, B.Minus(s.types, items[..k]), Reserve(Done, items[..k], []))
  {
    hide B.Minus, B.PassTo, Runs, End, Mine, Leads;
    run := TakeTo(s, r, event, user, items, k, f);
    var types, x := B.Minus(s.types, items[..k]), Trying(event, user, items, k, false);
    PriceStep(With(s, r, types, x), r, event, user, items, k);
    run := GoOn(s, s, r, run, types, x, PriceFails(r), types, Reserve(Done, items[..k], []));
  }

  lemma SeatsFailAlone(s: State, r: nat, event: nat, user: nat, items: seq<Item>, k: nat, f: B.Faults)
    returns (run: seq<T.Action>)
    requires r !in s.reserves && k < |items| && B.PassTo(s.types, items, k, f) && B.Priceable(s.types, items, k, f)
    requires forall i :: 0 <= i < |items| ==> items[i].quantity > 0
    ensures Runs(s, run) && Mine(run, r)
    ensures End(s, run) == With(s, r, B.Minus(s.types, items[..k]), Reserve(Undoing(items, k, 0), [], []))
  {
    hide B.PassTo, Runs, End, Mine, Leads;
    run := TakeTo(s, r, event, user, items, k, f);
    var types, x, y := B.Minus(s.types, items[..k]), Trying(event, user, items, k, false),
      Trying(event, user, items, k, true);
    assert B.PriceHolds(types, items[k]);
    hide B.Minus, B.Priceable;
    PriceStep(With(s, r, types, x), r, event, user, items, k);
    run := GoOn(s, s, r, run, types, x, PriceOk(r), types, y);
    SeatsStep(With(s, r, types, y), r, event, user, items, k);
    run := GoOn(s, s, r, run, types, y, SeatsFail(r), types, Reserve(Undoing(items, k, 0), [], []));
  }

  lemma ReleaseOneMore(types: map<nat, TicketType>, items: seq<Item>, failing: set<nat>, n: nat)
    requires n < |items|
    ensures ReleaseAll(types, B.Pick(items, failing, false, n + 1)) ==
      var before := ReleaseAll(types, B.Pick(items, failing, false, n));
      if n in failing then before else Release(before, items[n].ticketType, items[n].quantity)
  {
    var given := B.Pick(items, failing, false, n);
    assert (given + [items[n]])[..|given|] == given;
  }

  /** The inner rollback loop, up to item n. */
  lemma {:induction false} UndoTo(
    s: State, r: nat, run0: seq<T.Action>, types: map<nat, TicketType>, items: seq<Item>, k: nat, n: nat,
    failing: set<nat>)
    returns (run: seq<T.Action>)
    requires k < |items| && n <= B.FirstOfType(items, k) && Runs(s, run0) && Mine(run0, r)
    requires End(s, run0) == With(s, r, types, Reserve(Undoing(items, k, 0), [], []))
    ensures Runs(s, run) && Mine(run, r)
    ensures End(s, run) == With(s, r, ReleaseAll(types, B.Pick(items, failing, false, n)),
                                Reserve(Undoing(items, k, n), B.Pick(items, failing, true, n), []))
  {
    hide B.Pick, ReleaseAll, Runs, End, Mine;
    if n == 0 {
      NothingGivenBack(types, items, failing, true);
      NothingUndone(items, failing);
      run := run0;
    } else {
      run := UndoTo(s, r, run0, types, items, k, n - 1, failing);
      run := UndoOneAlone(s, r, run, types, items, k, n - 1, failing);
    }
  }

  lemma NothingUndone(items: seq<Item>, failing: set<nat>)
    ensures B.Pick(items, failing, true, 0) == []
  {
  }

  lemma UndoOneAlone(
    s: State, r: nat, run0: seq<T.Action>, types: map<nat, TicketType>, items: seq<Item>, k: nat, n: nat,
    failing: set<nat>)
    returns (run: seq<T.Action>)
    requires k < |items| && n < B.FirstOfType(items, k) && Runs(s, run0) && Mine(run0, r)
    requires End(s, run0) == With(s, r, ReleaseAll(types, B.Pick(items, failing, false, n)),
                                  Reserve(Undoing(items, k, n), B.Pick(items, failing, true, n), []))
    ensures Runs(s, run) && Mine(run, r)
    ensures End(s, run) == With(s, r, ReleaseAll(types, B.Pick(items, failing, false, n + 1)),
                                Reserve(Undoing(items, k, n + 1), B.Pick(items, failing, true, n + 1), []))
  {
    hide ReleaseAll, Release, Leads, Runs, End, Mine;
    var before, x := ReleaseAll(types, B.Pick(items, failing, false, n)),
      Reserve(Undoing(items, k, n), B.Pick(items, failing, true, n), []);
    var after, y := ReleaseAll(types, B.Pick(items, failing, false, n + 1)),
      Reserve(Undoing(items, k, n + 1), B.Pick(items, failing, true, n + 1), []);
    ReleaseOneMore(types, items, failing, n);
    UndoStep(With(s, r, before, x), r, items, k, n, x.leaked);
    run := GoOn(s, s, r, run0, before, x, if n in failing then UndoFails(r) else UndoOne(r), after, y);
  }

  /** Item k sold out: the items before the first one of its type are given back, as far as their
      release works. */
  lemma SoldOutAlone(s: State, r: nat, event: nat, user: nat, items: seq<Item>, k: nat, f: B.Faults)
    returns (run: seq<T.Action>)
    requires r !in s.reserves && k < |items| && B.PassTo(s.types, items, k, f) && B.Priceable(s.types, items, k, f)
    requires forall i :: 0 <= i < |items| ==> items[i].quantity > 0
    requires forall t :: t in s.types ==> Sound(s.types[t])
    ensures Runs(s, run) && Mine(run, r)
    ensures var kept := B.Kept(items, f, B.SoldOut(k));
      End(s, run) == With(s, r, B.Minus(s.types, kept), Reserve(Done, kept, []))
  {
    var j, kept := B.FirstOfType(items, k), B.Kept(items, f, B.SoldOut(k));
    B.GiveBackFirst(s.types, items, f.release, k, j);
    hide B.Minus, ReleaseAll, B.PassTo, B.Priceable, B.Pick, Leads, Runs, End, Mine;
    var types, left := B.Minus(s.types, items[..k]), B.Minus(s.types, kept);
    run := SeatsFailAlone(s, r, event, user, items, k, f);
    run := UndoTo(s, r, run, types, items, k, j, f.release);
    var x := Reserve(Undoing(items, k, j), B.Pick(items, f.release, true, j), []);
    UndoStep(With(s, r, left, x), r, items, k, j, x.leaked);
    run := GoOn(s, s, r, run, left, x, UndoStops(r), left, Reserve(Done, kept, []));
  }

  /*** Failures after the seats were taken ***/

  /** rollbackSeats, up to item n. */
  lemma {:induction false} ReturnTo(
    s: State, base: State, r: nat, run0: seq<T.Action>, types: map<nat, TicketType>, items: seq<Item>,
    failing: set<nat>, backed: bool, n: nat)
    returns (run: seq<T.Action>)
    requires n <= |items| && Runs(s, run0) && Mine(run0, r)
    requires End(s, run0) == With(base, r, types, Reserve(Returning(items, 0, backed), [], []))
    ensures Runs(s, run) && Mine(run, r)
    ensures End(s, run) ==
      With(base, r, ReleaseAll(types, B.Pick(items, failing, false, n)), GivenBack(items, failing, backed, n))
  {
    hide B.Pick, ReleaseAll, GivenBack, Runs, End, Mine;
    if n == 0 {
      NothingGivenBack(types, items, failing, backed);
      run := run0;
    } else {
      run := ReturnTo(s, base, r, run0, types, items, failing, backed, n - 1);
      run := ReturnOneAlone(s, base, r, run, types, items, failing, backed, n - 1);
    }
  }

  lemma NothingGivenBack(types: map<nat, TicketType>, items: seq<Item>, failing: set<nat>, backed: bool)
    ensures ReleaseAll(types, B.Pick(items, failing, false, 0)) == types
    ensures GivenBack(items, failing, backed, 0) == Reserve(Returning(items, 0, backed), [], [])
  {
  }

  lemma ReturnOneAlone(
    s: State, base: State, r: nat, run0: seq<T.Action>, types: map<nat, TicketType>, items: seq<Item>,
    failing: set<nat>, backed: bool, n: nat)
    returns (run: seq<T.Action>)
    requires n < |items| && Runs(s, run0) && Mine(run0, r)
    requires End(s, run0) ==
      With(base, r, ReleaseAll(types, B.Pick(items, failing, false, n)), GivenBack(items, failing, backed, n))
    ensures Runs(s, run) && Mine(run, r)
    ensures End(s, run) ==
      With(base, r, ReleaseAll(types, B.Pick(items, failing, false, n + 1)), GivenBack(items, failing, backed, n + 1))
  {
    hide B.Pick, ReleaseAll, Release, Leads, Runs, End, Mine, GivenBack;
    var before, x := ReleaseAll(types, B.Pick(items, failing, false, n)), GivenBack(items, failing, backed, n);
    var after, y := ReleaseAll(types, B.Pick(items, failing, false, n + 1)), GivenBack(items, failing, backed, n + 1);
    ReleaseOneMore(types, items, failing, n);
    ReturnStepAlone(With(base, r, before, x), r, items, failing, backed, n);
    run := GoOn(s, base, r, run0, before, x, if n in failing then ReturnFails(r) else ReturnOne(r), after, y);
  }

  /** rollbackSeats, all of it, after all seats of the items were taken. */
  lemma ReturnAll(
    s: State, base: State, r: nat, run0: seq<T.Action>, types: map<nat, TicketType>, items: seq<Item>,
    failing: set<nat>, backed: bool)
    returns (run: seq<T.Action>)
    requires Runs(s, run0) && Mine(run0, r) && forall t :: t in types ==> Sound(types[t])
    requires End(s, run0) == With(base, r, B.Minus(types, items), Reserve(Returning(items, 0, backed), [], []))
    ensures Runs(s, run) && Mine(run, r)
    ensures End(s, run) ==
      With(base, r, B.Minus(types, B.Pick(items, failing, true, |items|)), GivenBack(items, failing, backed, |items|))
  {
    hide B.Minus, B.Pick, Runs, End, Mine;
    run := ReturnTo(s, base, r, run0, B.Minus(types, items), items, failing, backed, |items|);
    B.GiveBackAll(types, items, failing);
  }

  /** The booking row cannot be written. */
  lemma NotStoredAlone(s: State, r: nat, event: nat, user: nat, items: seq<Item>, f: B.Faults)
    returns (run: seq<T.Action>)
    requires r !in s.reserves && items != [] && B.PassTo(s.types, items, |items|, f)
    requires forall i :: 0 <= i < |items| ==> items[i].quantity > 0
    requires forall t :: t in s.types ==> Sound(s.types[t])
    ensures Runs(s, run) && Mine(run, r)
    ensures End(s, run) == With(s, r, B.Minus(s.types, B.Pick(items, f.release, true, |items|)),
                                GivenBack(items, f.release, true, |items|))
  {
    hide B.Minus, B.PassTo, B.Pick, Leads, Runs, End, Mine, GivenBack;
    var types, x := B.Minus(s.types, items), Trying(event, user, items, |items|, false);
    run := TakeAll(s, r, event, user, items, f);
    CreateFailsStep(With(s, r, types, x), r, event, user, items);
    run := GoOn(s, s, r, run, types, x, CreateFails(r), types, Reserve(Returning(items, 0, true), [], []));
    run := ReturnAll(s, s, r, run, s.types, items, f.release, true);
  }

  /** The booking row written for a call. */
  function Booked(s: State, id: nat, event: nat, user: nat, items: seq<Item>): State {
    s.(bookings := s.bookings[id := Booking(user, event, Pending, items)],
       used := s.used + {id},
       requests := s.requests[id := Request(event, user, Price(items))])
  }

  lemma CreateStepAlone(
    s: State, r: nat, id: nat, event: nat, user: nat, items: seq<Item>, types: map<nat, TicketType>)
    requires id !in s.used && event in s.events
    ensures var u := With(s, r, types, Trying(event, user, items, |items|, false));
      && BuyerEnabled(u, CreateBooking(r, id))
      && ApplyBuyer(u, CreateBooking(r, id)) ==
           With(Booked(s, id, event, user, items), r, types, Reserve(Created(id, items), [], []))
  {
    hide Price;
    var x, y := Trying(event, user, items, |items|, false), Reserve(Created(id, items), [], []);
    assert s.reserves[r := x][r := y] == s.reserves[r := y];
  }

  /** The booking row is written and the payment call answered. */
  lemma PaymentAlone(s: State, r: nat, id: nat, event: nat, user: nat, items: seq<Item>, f: B.Faults)
    returns (run: seq<T.Action>)
    requires r !in s.reserves && items != [] && B.PassTo(s.types, items, |items|, f)
    requires id !in s.used && event in s.events
    requires forall i :: 0 <= i < |items| ==> items[i].quantity > 0
    ensures Runs(s, run) && Mine(run, r)
    ensures End(s, run) == With(Booked(s, id, event, user, items), r, B.Minus(s.types, items),
                                Reserve(if f.payment then Deleting(id, items) else Done, [], []))
  {
    hide B.Minus, Price, B.PassTo, ApplyBuyer, BuyerEnabled, Runs, End, Mine, Leads;
    var types, x := B.Minus(s.types, items), Reserve(Created(id, items), [], []);
    var b := Booked(s, id, event, user, items);
    run := TakeAll(s, r, event, user, items, f);
    CreateStepAlone(s, r, id, event, user, items, types);
    run := Go(s, r, run, CreateBooking(r, id));
    PaymentStep(With(b, r, types, x), r, id, items);
    hide Booked;
    if f.payment {
      run := GoOn(s, b, r, run, types, x, PaymentFails(r), types, Reserve(Deleting(id, items), [], []));
    } else {
      run := GoOn(s, b, r, run, types, x, PaymentOk(r), types, Reserve(Done, [], []));
    }
  }

  /** The database after a failed payment call and the delete. */
  function Withdrawn(s: State, id: nat, event: nat, user: nat, items: seq<Item>, f: B.Faults): State {
    var b := Booked(s, id, event, user, items);
    if B.Deletes(s.cascade, f) then b.(bookings := s.bookings) else b
  }

  lemma DeletedAlone(s: State, r: nat, id: nat, event: nat, user: nat, items: seq<Item>, f: B.Faults)
    returns (run: seq<T.Action>)
    requires r !in s.reserves && items != [] && B.PassTo(s.types, items, |items|, f) && f.payment
    requires id !in s.used && id !in s.bookings && event in s.events
    requires forall i :: 0 <= i < |items| ==> items[i].quantity > 0
    ensures Runs(s, run) && Mine(run, r)
    ensures End(s, run) == With(Withdrawn(s, id, event, user, items, f), r, B.Minus(s.types, items),
                                Reserve(Returning(items, 0, B.Deletes(s.cascade, f)), [], []))
  {
    hide B.Minus, Price, B.PassTo, ApplyBuyer, BuyerEnabled, Runs, End, Mine;
    run := PaymentAlone(s, r, id, event, user, items, f);
    var b, c := Booked(s, id, event, user, items), Withdrawn(s, id, event, user, items, f);
    var types, x := B.Minus(s.types, items), Reserve(Deleting(id, items), [], []);
    var y := Reserve(Returning(items, 0, B.Deletes(s.cascade, f)), [], []);
    DeleteStepAlone(With(b, r, types, x), r, id, items);
    assert b.bookings - {id} == s.bookings;
    run := Go(s, r, run, if f.delete then DeleteFails(r) else DeleteBooking(r));
    WithTwice(c, r, types, x, types, y);
  }

  /** The payment call failed. */
  lemma NotPaidAlone(s: State, r: nat, id: nat, event: nat, user: nat, items: seq<Item>, f: B.Faults)
    returns (run: seq<T.Action>)
    requires r !in s.reserves && items != [] && B.PassTo(s.types, items, |items|, f) && f.payment
    requires id !in s.used && id !in s.bookings && event in s.events
    requires forall i :: 0 <= i < |items| ==> items[i].quantity > 0
    requires forall t :: t in s.types ==> Sound(s.types[t])
    ensures Runs(s, run) && Mine(run, r)
    ensures End(s, run) ==
      With(Withdrawn(s, id, event, user, items, f), r, B.Minus(s.types, B.Pick(items, f.release, true, |items|)),
           GivenBack(items, f.release, B.Deletes(s.cascade, f), |items|))
  {
    hide B.Minus, Price, B.PassTo, B.Pick, Runs, End, Mine, Sound, Withdrawn, GivenBack;
    run := DeletedAlone(s, r, id, event, user, items, f);
    var c, backed := Withdrawn(s, id, event, user, items, f), B.Deletes(s.cascade, f);
    run := ReturnAll(s, c, r, run, s.types, items, f.release, backed);
  }

  /*** All outcomes ***/

  /** The rollback of the call returned seats while its booking row stayed. */
  predicate Unbacked(cascade: bool, f: B.Faults, o: B.Outcome) {
    o.NotPaid? && !B.Deletes(cascade, f)
  }

  /** Call r has come to outcome o under faults f, having drawn booking id: counters and bookings are
      those of the contract of Reserve. A failing call leaks exactly the items it keeps, unless its row
      stayed: then it leaks nothing, and every release that worked created seats. */
  ghost predicate Matches(
    s: State, u: State, r: nat, id: nat, event: nat, user: nat, items: seq<Item>, f: B.Faults, o: B.Outcome)
  {
    && u.types == B.Minus(s.types, B.Kept(items, f, o))
    && u.bookings == B.BookingsAfter(s.bookings, s.cascade, f, id, Booking(user, event, Pending, items), o)
    && r in u.reserves
    && u.reserves[r].leaked == (if o.Reserved? || Unbacked(s.cascade, f, o) then [] else B.Kept(items, f, o))
    && u.reserves[r].extra == if Unbacked(s.cascade, f, o) then B.Pick(items, f.release, false, |items|) else []
  }

  /** Every outcome the contract of Reserve allows is reached by steps of one undisturbed call. */
  lemma EveryOutcomeIsARun(
    s: State, r: nat, id: nat, event: nat, user: nat, items: seq<Item>, f: B.Faults, o: B.Outcome)
    returns (run: seq<T.Action>)
    requires r !in s.reserves && id !in s.used && id !in s.bookings
    requires forall i :: 0 <= i < |items| ==> items[i].quantity > 0
    requires forall t :: t in s.types ==> Sound(s.types[t])
    requires B.Justified(H.Tables(s.events, s.types, s.bookings), event, items, f, o) && !o.NoItems?
    ensures Runs(s, run) && Mine(run, r) && Matches(s, End(s, run), r, id, event, user, items, f, o)
  {
    hide B.Minus, B.PassTo, B.Passes, Price, B.FirstOfType, B.Pick, Runs, End, Mine;
    match o
    case PriceRefused(k) => run := PriceRefusedAlone(s, r, event, user, items, k, f);
    case SoldOut(k) => run := SoldOutAlone(s, r, event, user, items, k, f);
    case NotStored => run := NotStoredAlone(s, r, event, user, items, f);
    case NotPaid => run := NotPaidAlone(s, r, id, event, user, items, f);
    case Reserved(_, _) => run := PaymentAlone(s, r, id, event, user, items, f);
  }

  /*** The converse: every undisturbed run comes to an outcome of the contract ***/

  const NO_FAULTS := B.Faults({}, {}, false, false, false, {})

  /** What the call asks for. */
  datatype Order = Order(r: nat, event: nat, user: nat, items: seq<Item>)

  ghost predicate Fine(s: State, c: Order) {
    && c.r !in s.reserves && c.items != [] && (forall i :: 0 <= i < |c.items| ==> c.items[i].quantity > 0)
    && (forall t :: t in s.types ==> Sound(s.types[t]))
    && (forall id :: id in s.bookings ==> id in s.used)
  }

  function TablesOf(s: State): H.Tables {
    H.Tables(s.events, s.types, s.bookings)
  }

  ghost predicate TakenTo(s: State, c: Order, u: State, k: nat, priced: bool) {
    && k <= |c.items| && B.PassTo(s.types, c.items, k, NO_FAULTS)
    && (priced ==> k < |c.items| && B.PriceHolds(s.types, c.items[k]))
    && u == With(s, c.r, B.Minus(s.types, c.items[..k]), Trying(c.event, c.user, c.items, k, priced))
  }

  ghost predicate UndoneTo(s: State, c: Order, u: State, k: nat, j: nat, f: B.Faults) {
    && j <= k < |c.items| && j <= B.FirstOfType(c.items, k)
    && B.PassTo(s.types, c.items, k, NO_FAULTS) && B.PriceHolds(s.types, c.items[k])
    && f == NO_FAULTS.(seats := {k}, release := f.release) && Below(f.release, j)
    && u == With(s, c.r, ReleaseAll(B.Minus(s.types, c.items[..k]), B.Pick(c.items, f.release, false, j)),
                 Reserve(Undoing(c.items, k, j), B.Pick(c.items, f.release, true, j), []))
  }

  ghost predicate StoredAs(s: State, c: Order, u: State, id: nat, p: Phase) {
    && Stored(s, c, id)
    && u == With(Booked(s, id, c.event, c.user, c.items), c.r, B.Minus(s.types, c.items), Reserve(p, [], []))
  }

  /** The database when the rollback starts. */
  function BeforeReturn(s: State, c: Order, f: B.Faults, id: nat): State {
    if f.create then s else Withdrawn(s, id, c.event, c.user, c.items, f)
  }

  ghost predicate ReturnedTo(s: State, c: Order, u: State, j: nat, backed: bool, f: B.Faults, id: nat) {
    && j <= |c.items| && B.PassTo(s.types, c.items, |c.items|, NO_FAULTS) && Below(f.release, j)
    && (f == NO_FAULTS.(create := true, release := f.release) ||
        (f == NO_FAULTS.(payment := true, delete := f.delete, release := f.release) && Stored(s, c, id)))
    && backed == (f.create || B.Deletes(s.cascade, f))
    && u == With(BeforeReturn(s, c, f, id), c.r,
                 ReleaseAll(B.Minus(s.types, c.items), B.Pick(c.items, f.release, false, j)),
                 GivenBack(c.items, f.release, backed, j))
  }

  /** Where the call stands, if it has met the faults f so far and drawn booking id. */
  ghost predicate Stands(s: State, c: Order, u: State, f: B.Faults, id: nat) {
    && c.r in u.reserves
    && match u.reserves[c.r].phase
       case Taking(_, _, _, k, priced) => f == NO_FAULTS && TakenTo(s, c, u, k, priced)
       case Undoing(_, k, j) => UndoneTo(s, c, u, k, j, f)
       case Created(_, _) => f == NO_FAULTS && StoredAs(s, c, u, id, Created(id, c.items))
       case Deleting(_, _) => f == NO_FAULTS.(payment := true) && StoredAs(s, c, u, id, Deleting(id, c.items))
       case Returning(_, j, backed) => ReturnedTo(s, c, u, j, backed, f, id)
       case Done =>
         Matches(s, u, c.r, id, c.event, c.user, c.items, f, B.OutcomeOf(TablesOf(s), c.event, c.items, f, id))
  }

  predicate Below(xs: set<nat>, n: nat) {
    forall x :: x in xs ==> x < n
  }

  /** All seats were taken and the row could be written. */
  ghost predicate Stored(s: State, c: Order, id: nat) {
    B.PassTo(s.types, c.items, |c.items|, NO_FAULTS) && id !in s.used && c.event in s.events
  }

  lemma {:induction false} PickSame(items: seq<Item>, xs: set<nat>, ys: set<nat>, hit: bool, n: nat)
    requires n <= |items| && forall i :: 0 <= i < n ==> (i in xs <==> i in ys)
    ensures B.Pick(items, xs, hit, n) == B.Pick(items, ys, hit, n)
  {
    if n > 0 {
      PickSame(items, xs, ys, hit, n - 1);
    }
  }

  /** Faults beyond the items that went through do not matter to them. */
  lemma PassUnder(types: map<nat, TicketType>, items: seq<Item>, n: nat, f: B.Faults)
    requires B.PassTo(types, items, n, NO_FAULTS)
    requires forall i :: (i in f.price ==> i >= n) && (i in f.seats ==> i >= n)
    ensures B.PassTo(types, items, n, f)
  {
    forall k | 0 <= k < n ensures B.Passes(types, items, k, f) {
      assert B.Passes(types, items, k, NO_FAULTS);
    }
  }

  /** An outcome justified by the faults is the one the call will come to. */
  lemma IsOutcome(s: State, c: Order, f: B.Faults, id: nat, o: B.Outcome)
    requires B.Justified(TablesOf(s), c.event, c.items, f, o) && (o.Reserved? ==> o.booking == id)
    ensures B.OutcomeOf(TablesOf(s), c.event, c.items, f, id) == o
  {
    B.OutcomeIsDetermined(TablesOf(s), c.event, c.items, f, o, B.OutcomeOf(TablesOf(s), c.event, c.items, f, id));
  }

  lemma PriceStands(s: State, c: Order, u: State, b: Buyer, f: B.Faults, id: nat) returns (g: B.Faults)
    requires Fine(s, c) && Stands(s, c, u, f, id) && BuyerEnabled(u, b) && b.r == c.r && (b.PriceOk? || b.PriceFails?)
    ensures Stands(s, c, ApplyBuyer(u, b), g, id)
  {
    hide Seats;
    var k := u.reserves[c.r].phase.taken;
    var types, x := B.Minus(s.types, c.items[..k]), Trying(c.event, c.user, c.items, k, false);
    PriceStep(u, c.r, c.event, c.user, c.items, k);
    if b.PriceOk? {
      g := f;
      WithTwice(s, c.r, types, x, types, Trying(c.event, c.user, c.items, k, true));
    } else {
      g := NO_FAULTS.(price := {k});
      WithTwice(s, c.r, types, x, types, Reserve(Done, c.items[..k], []));
      PassUnder(s.types, c.items, k, g);
      hide B.Minus, B.PassTo;
      IsOutcome(s, c, g, id, B.PriceRefused(k));
    }
  }

  lemma TakeStands(s: State, c: Order, u: State, f: B.Faults, id: nat)
    requires Fine(s, c) && Stands(s, c, u, f, id) && BuyerEnabled(u, TakeSeats(c.r))
    ensures Stands(s, c, ApplyBuyer(u, TakeSeats(c.r)), f, id)
  {
    hide Seats;
    var k := u.reserves[c.r].phase.taken;
    var types, x := B.Minus(s.types, c.items[..k]), Trying(c.event, c.user, c.items, k, true);
    SeatsStep(u, c.r, c.event, c.user, c.items, k);
    B.TakeOneMore(s.types, c.items, k);
    assert B.Passes(s.types, c.items, k, NO_FAULTS);
    WithTwice(s, c.r, types, x, B.Minus(s.types, c.items[..k + 1]), Trying(c.event, c.user, c.items, k + 1, false));
  }

  lemma SeatsFailStands(s: State, c: Order, u: State, f: B.Faults, id: nat) returns (g: B.Faults)
    requires Fine(s, c) && Stands(s, c, u, f, id) && BuyerEnabled(u, SeatsFail(c.r))
    ensures Stands(s, c, ApplyBuyer(u, SeatsFail(c.r)), g, id)
  {
    hide Seats, B.Minus;
    var k := u.reserves[c.r].phase.taken;
    var types, x := B.Minus(s.types, c.items[..k]), Trying(c.event, c.user, c.items, k, true);
    g := NO_FAULTS.(seats := {k});
    SeatsStep(u, c.r, c.event, c.user, c.items, k);
    WithTwice(s, c.r, types, x, types, Reserve(Undoing(c.items, k, 0), [], []));
  }

  lemma UndoGoesOn(s: State, c: Order, u: State, b: Buyer, k: nat, j: nat, f: B.Faults) returns (g: B.Faults)
    requires UndoneTo(s, c, u, k, j, f) && b.r == c.r && (b.UndoOne? || b.UndoFails?)
    requires TypesDiffer(c, k, j)
    ensures BuyerEnabled(u, b) && UndoneTo(s, c, ApplyBuyer(u, b), k, j + 1, g)
  {
    hide B.Minus, B.PassTo, B.PriceHolds, ApplyBuyer, BuyerEnabled;
    var items, types, x := c.items, u.types, u.reserves[c.r];
    var start := B.Minus(s.types, items[..k]);
    g := f.(release := if b.UndoFails? then f.release + {j} else f.release);
    UndoStep(u, c.r, items, k, j, x.leaked);
    PickSame(items, f.release, g.release, true, j);
    PickSame(items, f.release, g.release, false, j);
    ReleaseOneMore(start, items, g.release, j);
    hide ReleaseAll, Release;
    WithTwice(s, c.r, types, x, ReleaseAll(start, B.Pick(items, g.release, false, j + 1)),
              Reserve(Undoing(items, k, j + 1), B.Pick(items, g.release, true, j + 1), []));
  }

  predicate TypesDiffer(c: Order, k: nat, j: nat) {
    j < k < |c.items| && c.items[j].ticketType != c.items[k].ticketType
  }

  lemma UndoStands(s: State, c: Order, u: State, b: Buyer, f: B.Faults, id: nat) returns (g: B.Faults)
    requires Stands(s, c, u, f, id) && BuyerEnabled(u, b) && b.r == c.r && (b.UndoOne? || b.UndoFails?)
    ensures Stands(s, c, ApplyBuyer(u, b), g, id)
  {
    var Undoing(items, k, j) := u.reserves[c.r].phase;
    assert u.reserves[c.r].phase.items == c.items;
    hide ApplyBuyer, BuyerEnabled, B.Minus, B.PassTo, B.PriceHolds, B.Pick, ReleaseAll;
    g := UndoGoesOn(s, c, u, b, k, j, f);
  }

  lemma UndoStopsStands(s: State, c: Order, u: State, f: B.Faults, id: nat)
    requires Fine(s, c) && Stands(s, c, u, f, id) && BuyerEnabled(u, UndoStops(c.r))
    ensures Stands(s, c, ApplyBuyer(u, UndoStops(c.r)), f, id)
  {
    var Undoing(_, k, j) := u.reserves[c.r].phase;
    assert u.reserves[c.r].phase.items == c.items;
    hide ApplyBuyer, BuyerEnabled;
    SoldOutStands(s, c, u, k, j, f, id);
  }

  lemma SoldOutOutcome(s: State, c: Order, k: nat, f: B.Faults, id: nat)
    requires k < |c.items| && B.PassTo(s.types, c.items, k, NO_FAULTS) && B.PriceHolds(s.types, c.items[k])
    requires f == NO_FAULTS.(seats := {k}, release := f.release)
    ensures B.OutcomeOf(TablesOf(s), c.event, c.items, f, id) == B.SoldOut(k)
  {
    PassUnder(s.types, c.items, k, f);
    assert !B.Passes(s.types, c.items, k, f) && B.Priceable(s.types, c.items, k, f);
    IsOutcome(s, c, f, id, B.SoldOut(k));
  }

  lemma SoldOutStands(s: State, c: Order, u: State, k: nat, j: nat, f: B.Faults, id: nat)
    requires Fine(s, c) && UndoneTo(s, c, u, k, j, f) && c.items[j].ticketType == c.items[k].ticketType
    ensures BuyerEnabled(u, UndoStops(c.r)) && Stands(s, c, ApplyBuyer(u, UndoStops(c.r)), f, id)
  {
    hide ApplyBuyer, BuyerEnabled, B.Minus, B.PassTo, B.PriceHolds, ReleaseAll, B.Pick;
    var items, x := c.items, u.reserves[c.r];
    SoldOutOutcome(s, c, k, f, id);
    UndoStep(u, c.r, items, k, j, x.leaked);
    B.GiveBackFirst(s.types, items, f.release, k, j);
    hide Fine;
    WithTwice(s, c.r, u.types, x, u.types, Reserve(Done, x.leaked + items[j..k], []));
  }

  lemma CreateStands(s: State, c: Order, u: State, b: Buyer, f: B.Faults, id: nat) returns (g: B.Faults, id1: nat)
    requires Fine(s, c) && Stands(s, c, u, f, id) && BuyerEnabled(u, b) && b.r == c.r
    requires b.CreateBooking? || b.CreateFails?
    ensures Stands(s, c, ApplyBuyer(u, b), g, id1)
  {
    var items := c.items;
    assert items[..|items|] == items;
    hide B.Minus, B.PassTo, Price;
    var types, x := B.Minus(s.types, items), Trying(c.event, c.user, items, |items|, false);
    if b.CreateBooking? {
      g, id1 := f, b.booking;
      CreateStepAlone(s, c.r, id1, c.event, c.user, items, types);
    } else {
      g, id1 := NO_FAULTS.(create := true), id;
      CreateFailsStep(u, c.r, c.event, c.user, items);
      NothingGivenBack(types, items, {}, true);
      WithTwice(s, c.r, types, x, types, Reserve(Returning(items, 0, true), [], []));
    }
  }

  lemma PaymentStands(s: State, c: Order, u: State, b: Buyer, f: B.Faults, id: nat) returns (g: B.Faults)
    requires Fine(s, c) && Stands(s, c, u, f, id) && BuyerEnabled(u, b) && b.r == c.r
    requires b.PaymentOk? || b.PaymentFails?
    ensures Stands(s, c, ApplyBuyer(u, b), g, id)
  {
    hide B.Minus, B.PassTo, Price;
    var items, base := c.items, Booked(s, id, c.event, c.user, c.items);
    var types, x := B.Minus(s.types, items), Reserve(Created(id, items), [], []);
    PaymentStep(u, c.r, id, items);
    if b.PaymentFails? {
      g := NO_FAULTS.(payment := true);
      WithTwice(base, c.r, types, x, types, Reserve(Deleting(id, items), [], []));
    } else {
      g := f;
      WithTwice(base, c.r, types, x, types, Reserve(Done, [], []));
      IsOutcome(s, c, f, id, B.Reserved(id, Price(items)));
    }
  }

  lemma DeleteStands(s: State, c: Order, u: State, b: Buyer, f: B.Faults, id: nat) returns (g: B.Faults)
    requires Fine(s, c) && Stands(s, c, u, f, id) && BuyerEnabled(u, b) && b.r == c.r
    requires b.DeleteBooking? || b.DeleteFails?
    ensures Stands(s, c, ApplyBuyer(u, b), g, id)
  {
    assert u.reserves[c.r].phase.Deleting?;
    hide B.Minus, B.PassTo, Price, BuyerEnabled, ApplyBuyer;
    var items := c.items;
    g := f.(delete := b.DeleteFails?);
    var base, after := Booked(s, id, c.event, c.user, items), Withdrawn(s, id, c.event, c.user, items, g);
    var types, x := B.Minus(s.types, items), Reserve(Deleting(id, items), [], []);
    var y := Reserve(Returning(items, 0, B.Deletes(s.cascade, g)), [], []);
    DeleteStepAlone(u, c.r, id, items);
    assert base.bookings - {id} == s.bookings;
    NothingGivenBack(types, items, {}, B.Deletes(s.cascade, g));
    WithTwice(after, c.r, types, x, types, y);
  }

  lemma ReturnGoesOn(
    s: State, c: Order, u: State, b: Buyer, j: nat, backed: bool, f: B.Faults, id: nat)
    returns (g: B.Faults)
    requires ReturnedTo(s, c, u, j, backed, f, id) && j < |c.items| && b.r == c.r && (b.ReturnOne? || b.ReturnFails?)
    ensures BuyerEnabled(u, b) && ReturnedTo(s, c, ApplyBuyer(u, b), j + 1, backed, g, id)
    ensures c.r in ApplyBuyer(u, b).reserves
    ensures ApplyBuyer(u, b).reserves[c.r].phase == Returning(c.items, j + 1, backed)
  {
    hide B.Minus, B.PassTo, Price, ApplyBuyer, BuyerEnabled, Stored;
    var items := c.items;
    var start := B.Minus(s.types, items);
    g := f.(release := if b.ReturnFails? then f.release + {j} else f.release);
    PickSame(items, f.release, g.release, true, j);
    PickSame(items, f.release, g.release, false, j);
    ReturnStepAlone(u, c.r, items, g.release, backed, j);
    ReleaseOneMore(start, items, g.release, j);
    hide ReleaseAll, Release, B.Pick;
    WithTwice(BeforeReturn(s, c, f, id), c.r, u.types, u.reserves[c.r],
              ReleaseAll(start, B.Pick(items, g.release, false, j + 1)), GivenBack(items, g.release, backed, j + 1));
  }

  lemma ReturnStands(s: State, c: Order, u: State, b: Buyer, f: B.Faults, id: nat) returns (g: B.Faults)
    requires Stands(s, c, u, f, id) && BuyerEnabled(u, b) && b.r == c.r && (b.ReturnOne? || b.ReturnFails?)
    ensures Stands(s, c, ApplyBuyer(u, b), g, id)
  {
    ReturnEnabled(u, b);
    hide ApplyBuyer, BuyerEnabled, ReturnedTo;
    var Returning(_, j, backed) := u.reserves[c.r].phase;
    ReturnedItems(s, c, u, j, backed, f, id);
    g := ReturnGoesOn(s, c, u, b, j, backed, f, id);
  }

  lemma ReturnEnabled(u: State, b: Buyer)
    requires BuyerEnabled(u, b) && (b.ReturnOne? || b.ReturnFails?)
    ensures b.r in u.reserves
    ensures var p := u.reserves[b.r].phase;
      p.Returning? && p.returned < |p.items|
  {
  }

  lemma ReturnedItems(s: State, c: Order, u: State, j: nat, backed: bool, f: B.Faults, id: nat)
    requires ReturnedTo(s, c, u, j, backed, f, id)
    ensures c.r in u.reserves && u.reserves[c.r].phase == Returning(c.items, j, backed)
  {
    hide B.Minus, B.PassTo, B.Pick, ReleaseAll, Stored;
  }

  lemma StepStands(s: State, c: Order, u: State, b: Buyer, f: B.Faults, id: nat) returns (g: B.Faults, id1: nat)
    requires Fine(s, c) && Stands(s, c, u, f, id) && BuyerEnabled(u, b) && b.r == c.r
    ensures Stands(s, c, ApplyBuyer(u, b), g, id1)
  {
    assert c.r in u.reserves && !b.StartReserve?;
    hide Fine, Stands, ApplyBuyer, BuyerEnabled;
    g, id1 := f, id;
    match b
    case PriceOk(_) => g := PriceStands(s, c, u, b, f, id);
    case PriceFails(_) => g := PriceStands(s, c, u, b, f, id);
    case TakeSeats(_) => TakeStands(s, c, u, f, id);
    case SeatsFail(_) => g := SeatsFailStands(s, c, u, f, id);
    case UndoOne(_) => g := UndoStands(s, c, u, b, f, id);
    case UndoFails(_) => g := UndoStands(s, c, u, b, f, id);
    case UndoStops(_) => UndoStopsStands(s, c, u, f, id);
    case CreateBooking(_, _) => g, id1 := CreateStands(s, c, u, b, f, id);
    case CreateFails(_) => g, id1 := CreateStands(s, c, u, b, f, id);
    case PaymentOk(_) => g := PaymentStands(s, c, u, b, f, id);
    case PaymentFails(_) => g := PaymentStands(s, c, u, b, f, id);
    case DeleteBooking(_) => g := DeleteStands(s, c, u, b, f, id);
    case DeleteFails(_) => g := DeleteStands(s, c, u, b, f, id);
    case ReturnOne(_) => g := ReturnStands(s, c, u, b, f, id);
    case ReturnFails(_) => g := ReturnStands(s, c, u, b, f, id);
  }

  lemma {:induction false} RunStands(s: State, c: Order, u: State, run: seq<T.Action>, f: B.Faults, id: nat)
    returns (g: B.Faults, id1: nat)
    requires Fine(s, c) && Stands(s, c, u, f, id) && Runs(u, run) && Mine(run, c.r)
    ensures Stands(s, c, End(u, run), g, id1)
    decreases |run|
  {
    hide Fine, Stands, ApplyBuyer, BuyerEnabled;
    if run == [] {
      g, id1 := f, id;
    } else {
      g, id1 := StepStands(s, c, u, run[0].b, f, id);
      assert Mine(run[1..], c.r);
      g, id1 := RunStands(s, c, Apply(u, run[0]), run[1..], g, id1);
    }
  }

  /** The call has made its last step. */
  predicate IsOver(p: Phase) {
    p.Done? || (p.Returning? && p.returned == |p.items|)
  }

  lemma OverMatches(s: State, c: Order, u: State, f: B.Faults, id: nat)
    requires Fine(s, c) && Stands(s, c, u, f, id) && IsOver(u.reserves[c.r].phase)
    ensures Matches(s, u, c.r, id, c.event, c.user, c.items, f, B.OutcomeOf(TablesOf(s), c.event, c.items, f, id))
  {
    if u.reserves[c.r].phase.Returning? {
      B.GiveBackAll(s.types, c.items, f.release);
      PassUnder(s.types, c.items, |c.items|, f);
      hide B.PassTo, B.Minus, ReleaseAll, B.Pick, Price;
      IsOutcome(s, c, f, id, if f.create then B.NotStored else B.NotPaid);
    }
  }

  /** Every run in which one Reserve call starts, nobody else takes a step, and the call comes to its end,
      ends as the contract of Reserve says, for some pattern of outside failures. */
  lemma EveryRunIsAnOutcome(s: State, c: Order, run: seq<T.Action>) returns (f: B.Faults, id: nat)
    requires Fine(s, c) && Runs(s, [ByBuyer(StartReserve(c.r, c.event, c.user, c.items))] + run) && Mine(run, c.r)
    requires var u := End(s, [ByBuyer(StartReserve(c.r, c.event, c.user, c.items))] + run);
      c.r in u.reserves && IsOver(u.reserves[c.r].phase)
    ensures var u := End(s, [ByBuyer(StartReserve(c.r, c.event, c.user, c.items))] + run);
      Matches(s, u, c.r, id, c.event, c.user, c.items, f, B.OutcomeOf(TablesOf(s), c.event, c.items, f, id))
  {
    var start := ByBuyer(StartReserve(c.r, c.event, c.user, c.items));
    assert ([start] + run)[0] == start && ([start] + run)[1..] == run;
    var u := ApplyBuyer(s, start.b);
    StartStands(s, c);
    hide Fine, Stands, Matches, ApplyBuyer, BuyerEnabled;
    f, id := RunStands(s, c, u, run, NO_FAULTS, 0);
    OverMatches(s, c, End(u, run), f, id);
  }

  lemma StartStands(s: State, c: Order)
    requires Fine(s, c) && BuyerEnabled(s, StartReserve(c.r, c.event, c.user, c.items))
    ensures Stands(s, c, ApplyBuyer(s, StartReserve(c.r, c.event, c.user, c.items)), NO_FAULTS, 0)
  {
    assert c.items[..0] == [];
    assert B.Minus(s.types, []) == s.types;
  }
}
