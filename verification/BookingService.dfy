/** Reserve and the message handlers of the booking service, as code over the ticketing database. */
module BookingService {
  import opened Messages
  import opened TicketingTables
  import opened TicketingStore
  import H = Handlers

  /** What may go wrong outside: the price query or the seat update of the i-th item, the insert of
      the booking, the payment call, the delete of the booking, and the release of the i-th item in
      a rollback. The errors of the last two are dropped. */
  datatype Faults = Faults(
    price: set<nat>,
    seats: set<nat>,
    create: bool,
    payment: bool,
    delete: bool,
    release: set<nat>)

  /** How Reserve ends; a refusal names the position of the item that caused it. */
  datatype Outcome =
    | Reserved(booking: nat, total: nat)
    | NoItems
    | PriceRefused(at: nat)
    | SoldOut(at: nat)
    | NotStored
    | NotPaid

  /** The counters less the seats of a list of items. */
  function Minus(types: map<nat, TicketType>, items: seq<Item>): map<nat, TicketType> {
    map t | t in types :: types[t].(available := types[t].available - Seats(items, t))
  }

  predicate PriceHolds(types: map<nat, TicketType>, item: Item) {
    item.ticketType in types && types[item.ticketType].price == item.unitPrice
  }

  /** The price check of item k. */
  predicate Priceable(types: map<nat, TicketType>, items: seq<Item>, k: nat, f: Faults) {
    k < |items| && k !in f.price && PriceHolds(types, items[k])
  }

  /** Item k goes through once the items before it have. */
  predicate Passes(types: map<nat, TicketType>, items: seq<Item>, k: nat, f: Faults) {
    && Priceable(types, items, k, f)
    && k !in f.seats
    && Seats(items[..k], items[k].ticketType) + items[k].quantity <= types[items[k].ticketType].available
  }

  predicate PassTo(types: map<nat, TicketType>, items: seq<Item>, n: nat, f: Faults) {
    forall k :: 0 <= k < n ==> Passes(types, items, k, f)
  }

  /** The first item with the ticket type of item k: where the rollback stops. */
  function FirstOfType(items: seq<Item>, k: nat): (i: nat)
    requires k < |items|
    ensures i <= k && items[i].ticketType == items[k].ticketType
    ensures forall j :: 0 <= j < i ==> items[j].ticketType != items[k].ticketType
  {
    FirstFrom(items, k, 0)
  }

  function FirstFrom(items: seq<Item>, k: nat, from: nat): (i: nat)
    requires from <= k < |items|
    ensures from <= i <= k && items[i].ticketType == items[k].ticketType
    ensures forall j :: from <= j < i ==> items[j].ticketType != items[k].ticketType
    decreases k - from
  {
    if items[from].ticketType == items[k].ticketType then from else FirstFrom(items, k, from + 1)
  }

  /** Of the first n items, those at positions in xs (hit) or those at other positions. */
  function Pick(items: seq<Item>, xs: set<nat>, hit: bool, n: nat): seq<Item>
    requires n <= |items|
  {
    if n == 0 then []
    else if (n - 1 in xs) == hit then Pick(items, xs, hit, n - 1) + [items[n - 1]]
    else Pick(items, xs, hit, n - 1)
  }

  /** The items whose seats a Reserve call leaves taken: what no rollback reached, and what a
      rollback failed to release. */
  function Kept(items: seq<Item>, f: Faults, r: Outcome): seq<Item> {
    match r
    case Reserved(_, _) => items
    case PriceRefused(k) => if k < |items| then items[..k] else []
    case SoldOut(k) =>
      if k < |items| then
        Pick(items, f.release, true, FirstOfType(items, k)) + items[FirstOfType(items, k)..k]
      else []
    case NoItems => []
    case _ => Pick(items, f.release, true, |items|)
  }

  /** Why Reserve ended as it did. */
  predicate Justified(d: H.Tables, event: nat, items: seq<Item>, f: Faults, r: Outcome) {
    match r
    case NoItems => items == []
    case PriceRefused(k) => k < |items| && PassTo(d.types, items, k, f) && !Priceable(d.types, items, k, f)
    case SoldOut(k) =>
      k < |items| && PassTo(d.types, items, k, f) && Priceable(d.types, items, k, f) && !Passes(d.types, items, k, f)
    case NotStored => items != [] && PassTo(d.types, items, |items|, f) && (f.create || event !in d.events)
    case NotPaid => items != [] && PassTo(d.types, items, |items|, f) && !f.create && event in d.events && f.payment
    case Reserved(_, total) =>
      && items != [] && PassTo(d.types, items, |items|, f) && !f.create && event in d.events && !f.payment
      && total == Price(items)
  }

  /** Whether the delete after a failed payment call removes the booking. */
  predicate Deletes(cascade: bool, f: Faults) {
    cascade && !f.delete
  }

  /** The bookings after Reserve: a row for a reservation, and a row left behind when the payment
      call failed and the row could not be deleted. */
  function BookingsAfter(bookings: map<nat, Booking>, cascade: bool, f: Faults, id: nat, row: Booking, r: Outcome)
    : map<nat, Booking>
  {
    if r.Reserved? || (r.NotPaid? && !Deletes(cascade, f)) then bookings[id := row] else bookings
  }

  /*** Properties of the outcomes ***/

  /** The contract of Reserve decides its outcome: two justified outcomes of the same call are equal
      but for the booking id drawn. */
  lemma OutcomeIsDetermined(d: H.Tables, event: nat, items: seq<Item>, f: Faults, a: Outcome, b: Outcome)
    requires Justified(d, event, items, f, a) && Justified(d, event, items, f, b)
    ensures a == b || (a.Reserved? && b.Reserved? && a.total == b.total)
  {
    SameStop(d.types, items, f, Passed(items, a), Passed(items, b));
  }

  /** How many items went through. */
  function Passed(items: seq<Item>, r: Outcome): nat {
    match r
    case NoItems => 0
    case PriceRefused(k) => k
    case SoldOut(k) => k
    case _ => |items|
  }

  lemma SameStop(types: map<nat, TicketType>, items: seq<Item>, f: Faults, n: nat, m: nat)
    requires n <= |items| && m <= |items| && PassTo(types, items, n, f) && PassTo(types, items, m, f)
    requires n < |items| ==> !Passes(types, items, n, f)
    requires m < |items| ==> !Passes(types, items, m, f)
    ensures n == m
  {
    if n < m {
      StepsPassed(types, items, f, m, n);
    } else if m < n {
      StepsPassed(types, items, f, n, m);
    }
  }

  lemma StepsPassed(types: map<nat, TicketType>, items: seq<Item>, f: Faults, n: nat, k: nat)
    requires PassTo(types, items, n, f) && k < n
    ensures Passes(types, items, k, f)
  {
  }

  lemma {:induction false} SeatsGrow(items: seq<Item>, n: nat, m: nat, t: nat)
    requires n <= m <= |items|
    ensures Seats(items[..n], t) <= Seats(items[..m], t)
    decreases m
  {
    if n < m {
      assert items[..m][..m - 1] == items[..m - 1];
      SeatsGrow(items, n, m - 1, t);
    }
  }

  /** All items together fit. */
  predicate TotalsFit(types: map<nat, TicketType>, items: seq<Item>) {
    forall t :: t in types ==> Seats(items, t) <= types[t].available
  }

  /** All items go through exactly when nothing fails outside, all prices match, and for every
      ticket type the seats asked for in all items together are available: order plays no part. */
  lemma PassExactlyWhenTotalsFit(types: map<nat, TicketType>, items: seq<Item>, f: Faults)
    requires forall t :: t in types ==> Sound(types[t])
    ensures PassTo(types, items, |items|, f) <==>
      (forall k :: 0 <= k < |items| ==> Priceable(types, items, k, f) && k !in f.seats) && TotalsFit(types, items)
  {
    assert items[..|items|] == items;
    if PassTo(types, items, |items|, f) {
      forall k | 0 <= k < |items| ensures Priceable(types, items, k, f) && k !in f.seats {
        StepsPassed(types, items, f, |items|, k);
      }
      forall t | t in types ensures Seats(items, t) <= types[t].available {
        PassedFit(types, items, f, |items|, t);
      }
    }
    if TotalsFit(types, items) {
      forall k | 0 <= k < |items| && Priceable(types, items, k, f) && k !in f.seats ensures Passes(types, items, k, f) {
        FittingPasses(types, items, f, k);
      }
    }
  }

  lemma FittingPasses(types: map<nat, TicketType>, items: seq<Item>, f: Faults, k: nat)
    requires Priceable(types, items, k, f) && k !in f.seats && TotalsFit(types, items)
    ensures Passes(types, items, k, f)
  {
    SeatsGrow(items, k + 1, |items|, items[k].ticketType);
    assert items[..|items|] == items;
    assert items[..k + 1][..k] == items[..k];
  }

  lemma {:induction false} PassedFit(types: map<nat, TicketType>, items: seq<Item>, f: Faults, n: nat, t: nat)
    requires n <= |items| && PassTo(types, items, n, f) && t in types && Sound(types[t])
    ensures Seats(items[..n], t) <= types[t].available
  {
    if n > 0 {
      PassedFit(types, items, f, n - 1, t);
      assert items[..n][..n - 1] == items[..n - 1];
      assert Passes(types, items, n - 1, f);
    }
  }

  lemma FirstItemHasSeats(items: seq<Item>)
    requires forall i :: 0 <= i < |items| ==> items[i].quantity > 0
    requires items != []
    ensures Seats(items, items[0].ticketType) > 0
  {
    SeatsFirst(items, items[0].ticketType);
  }

  lemma MinusRestoresExactly(types: map<nat, TicketType>, items: seq<Item>)
    requires forall i :: 0 <= i < |items| ==> items[i].quantity > 0 && items[i].ticketType in types
    ensures Minus(types, items) == types <==> items == []
  {
    if items != [] {
      var t := items[0].ticketType;
      FirstItemHasSeats(items);
      assert Minus(types, items)[t].available < types[t].available;
    } else {
      assert Minus(types, items) == types;
    }
  }

  predicate AllTaken(types: map<nat, TicketType>, items: seq<Item>) {
    forall i :: 0 <= i < |items| ==> items[i].quantity > 0 && items[i].ticketType in types
  }

  lemma PassedAreTaken(types: map<nat, TicketType>, items: seq<Item>, f: Faults, n: nat)
    requires n <= |items| && PassTo(types, items, n, f)
    requires forall i :: 0 <= i < |items| ==> items[i].quantity > 0
    ensures AllTaken(types, items[..n])
  {
    forall i | 0 <= i < n ensures items[i].ticketType in types {
      StepsPassed(types, items, f, n, i);
    }
  }

  lemma {:induction false} PickTaken(types: map<nat, TicketType>, items: seq<Item>, xs: set<nat>, hit: bool, n: nat)
    requires n <= |items| && AllTaken(types, items[..n])
    ensures AllTaken(types, Pick(items, xs, hit, n))
  {
    if n > 0 {
      assert items[..n][n - 1] == items[n - 1];
      assert items[..n - 1] == items[..n][..n - 1];
      PickTaken(types, items, xs, hit, n - 1);
    }
  }

  lemma {:induction false} PickNothing(items: seq<Item>, xs: set<nat>, n: nat)
    requires n <= |items|
    ensures Pick(items, xs, true, n) == [] <==> forall i :: 0 <= i < n ==> i !in xs
  {
    if n > 0 {
      PickNothing(items, xs, n - 1);
    }
  }

  /** The first item from position k on that does not go through; the number of items if all do. */
  function Stop(types: map<nat, TicketType>, items: seq<Item>, f: Faults, k: nat): (n: nat)
    requires k <= |items| && PassTo(types, items, k, f)
    ensures k <= n <= |items| && PassTo(types, items, n, f) && (n < |items| ==> !Passes(types, items, n, f))
    decreases |items| - k
  {
    if k == |items| || !Passes(types, items, k, f) then k else Stop(types, items, f, k + 1)
  }

  /** No release of the first n items fails. */
  predicate AllReleased(f: Faults, n: nat) {
    forall i :: 0 <= i < n ==> i !in f.release
  }

  /** What a call will come to, from the tables, the items and the faults. */
  function OutcomeOf(d: H.Tables, event: nat, items: seq<Item>, f: Faults, id: nat): (r: Outcome)
    ensures Justified(d, event, items, f, r)
  {
    var k := Stop(d.types, items, f, 0);
    if items == [] then NoItems
    else if k < |items| then (if Priceable(d.types, items, k, f) then SoldOut(k) else PriceRefused(k))
    else if f.create || event !in d.events then NotStored
    else if f.payment then NotPaid
    else Reserved(id, Price(items))
  }

  /** The condition for a failing call to restore everything, on what a caller can see. A refused price:
      it is the first item's. A sold-out item: no earlier item has its type, and no release fails.
      Later failures: no release fails; and after a failed payment call the row is deleted. */
  predicate Restores(d: H.Tables, cascade: bool, event: nat, items: seq<Item>, f: Faults) {
    items == [] ||
    var k := Stop(d.types, items, f, 0);
    if k == |items| then
      AllReleased(f, |items|) && (f.create || event !in d.events || Deletes(cascade, f))
    else if Priceable(d.types, items, k, f) then
      AllReleased(f, k) && forall i :: 0 <= i < k ==> items[i].ticketType != items[k].ticketType
    else k == 0
  }

  lemma KeptIsTaken(d: H.Tables, event: nat, items: seq<Item>, f: Faults, r: Outcome)
    requires Justified(d, event, items, f, r)
    requires forall i :: 0 <= i < |items| ==> items[i].quantity > 0
    ensures AllTaken(d.types, Kept(items, f, r))
  {
    if r.NoItems? {
    } else {
      var n := Passed(items, r);
      PassedAreTaken(d.types, items, f, n);
      if r.SoldOut? {
        var j := FirstOfType(items, r.at);
        assert items[..j] == items[..n][..j] && items[j..n] == items[..n][j..];
        PickTaken(d.types, items, f.release, true, j);
      } else {
        assert items[..|items|] == items;
        PickTaken(d.types, items, f.release, true, n);
      }
    }
  }

  lemma KeptNothingExactly(d: H.Tables, cascade: bool, event: nat, items: seq<Item>, f: Faults, r: Outcome)
    requires Justified(d, event, items, f, r) && !r.Reserved?
    requires r.NotPaid? ==> Deletes(cascade, f)
    ensures Kept(items, f, r) == [] <==> Restores(d, cascade, event, items, f)
  {
    if !r.NoItems? {
      SameStop(d.types, items, f, Passed(items, r), Stop(d.types, items, f, 0));
    }
    match r
    case SoldOut(k) => PickNothing(items, f.release, FirstOfType(items, k));
    case NotStored => PickNothing(items, f.release, |items|);
    case NotPaid => PickNothing(items, f.release, |items|);
    case _ =>
  }

  /** Exactly when a failing call leaves counters and bookings as they were. */
  lemma FailureRestoresExactly(
    d: H.Tables, cascade: bool, id: nat, row: Booking, event: nat, items: seq<Item>, f: Faults, r: Outcome)
    requires Justified(d, event, items, f, r) && !r.Reserved? && id !in d.bookings
    requires forall i :: 0 <= i < |items| ==> items[i].quantity > 0
    ensures Minus(d.types, Kept(items, f, r)) == d.types &&
      BookingsAfter(d.bookings, cascade, f, id, row, r) == d.bookings
      <==> Restores(d, cascade, event, items, f)
  {
    KeptIsTaken(d, event, items, f, r);
    MinusRestoresExactly(d.types, Kept(items, f, r));
    if r.NotPaid? && !Deletes(cascade, f) {
      assert id in d.bookings[id := row];
      SameStop(d.types, items, f, |items|, Stop(d.types, items, f, 0));
    } else {
      KeptNothingExactly(d, cascade, event, items, f, r);
    }
  }

  /** Restoring fails: the second of two items of the same type finds too few seats, and the first
      item's seats are not given back. */
  lemma RepeatedTypeLeaks(d: H.Tables, event: nat)
    requires d.types == map[1 := TicketType(0, 10, 3, 3)]
    ensures
      var items, f := [Item(1, 2, 10), Item(1, 2, 10)], Faults({}, {}, false, false, false, {});
      Justified(d, event, items, f, SoldOut(1)) && Minus(d.types, Kept(items, f, SoldOut(1)))[1].available == 1
  {
    var items := [Item(1, 2, 10), Item(1, 2, 10)];
    assert items[..1] == [Item(1, 2, 10)] && [Item(1, 2, 10)][..0] == [] && items[..0] == [];
    assert FirstOfType(items, 1) == 0;
    assert [] + items[0..1] == [Item(1, 2, 10)];
  }

  /** Restoring fails: the price of the second item is refused, and the first item's seats are not
      given back. */
  lemma LatePriceErrorLeaks(d: H.Tables, event: nat)
    requires d.types == map[1 := TicketType(0, 10, 3, 3)]
    ensures
      var items, f := [Item(1, 2, 10), Item(2, 1, 10)], Faults({}, {}, false, false, false, {});
      Justified(d, event, items, f, PriceRefused(1)) &&
        Minus(d.types, Kept(items, f, PriceRefused(1)))[1].available == 1
  {
    var items := [Item(1, 2, 10), Item(2, 1, 10)];
    assert items[..1] == [Item(1, 2, 10)] && [Item(1, 2, 10)][..0] == [] && items[..0] == [];
  }

  predicate DistinctTypes(items: seq<Item>) {
    forall i, j :: 0 <= i < j < |items| ==> items[i].ticketType != items[j].ticketType
  }

  /** All or nothing, for distinct ticket types and matching prices: if no statement of the rollback
      fails and the schema lets the row be deleted, every failing path leaves counters and bookings
      as they were. */
  lemma AllOrNothing(
    d: H.Tables, cascade: bool, id: nat, row: Booking, event: nat, items: seq<Item>, f: Faults, r: Outcome)
    requires Justified(d, event, items, f, r) && !r.Reserved? && id !in d.bookings
    requires forall i :: 0 <= i < |items| ==> items[i].quantity > 0 && Priceable(d.types, items, i, f)
    requires DistinctTypes(items) && f.release == {} && Deletes(cascade, f)
    ensures Minus(d.types, Kept(items, f, r)) == d.types
    ensures BookingsAfter(d.bookings, cascade, f, id, row, r) == d.bookings
  {
    FailureRestoresExactly(d, cascade, id, row, event, items, f, r);
    assert DistinctTypes(items) && AllReleased(f, |items|);
  }

  /** It fails without a repeated type or a late price, too: the second of two distinct items is sold
      out, and the release of the first fails. */
  lemma FailedReleaseLeaks(d: H.Tables, event: nat)
    requires d.types == map[1 := TicketType(0, 10, 3, 3), 2 := TicketType(0, 10, 1, 0)]
    ensures
      var items, f := [Item(1, 2, 10), Item(2, 1, 10)], Faults({}, {}, false, false, false, {0});
      Justified(d, event, items, f, SoldOut(1)) && Minus(d.types, Kept(items, f, SoldOut(1)))[1].available == 1
  {
    var items, f := [Item(1, 2, 10), Item(2, 1, 10)], Faults({}, {}, false, false, false, {0});
    assert items[..1] == [Item(1, 2, 10)] && [Item(1, 2, 10)][..0] == [] && items[..0] == [];
    assert FirstOfType(items, 1) == 1;
    assert Pick(items, f.release, true, 1) == [Item(1, 2, 10)];
    assert Kept(items, f, SoldOut(1)) == [Item(1, 2, 10)];
  }

  /*** The service ***/

  lemma TakeOneMore(types: map<nat, TicketType>, items: seq<Item>, k: nat)
    requires k < |items| && CanTake(Minus(types, items[..k]), items[k].ticketType, items[k].quantity)
    ensures Take(Minus(types, items[..k]), items[k].ticketType, items[k].quantity) == Minus(types, items[..k + 1])
  {
    assert items[..k + 1][..k] == items[..k];
  }

  lemma {:induction false} PickSplits(items: seq<Item>, xs: set<nat>, n: nat, t: nat)
    requires n <= |items|
    ensures Seats(items[..n], t) == Seats(Pick(items, xs, true, n), t) + Seats(Pick(items, xs, false, n), t)
  {
    if n == 0 {
      assert items[..0] == [];
    } else {
      hide Seats;
      var last := items[n - 1];
      PickSplits(items, xs, n - 1, t);
      SeatsUpTo(items, n, t);
      SeatsAppend(Pick(items, xs, n - 1 in xs, n - 1), last, t);
    }
  }

  lemma SeatsUpTo(items: seq<Item>, n: nat, t: nat)
    requires 0 < n <= |items|
    ensures Seats(items[..n], t) ==
      Seats(items[..n - 1], t) + if items[n - 1].ticketType == t then items[n - 1].quantity else 0
  {
    assert items[..n][..n - 1] == items[..n - 1];
  }

  /** Of k items taken, giving back those of the first j whose release works leaves the seats of the
      others missing. */
  lemma GiveBackFirst(types: map<nat, TicketType>, items: seq<Item>, xs: set<nat>, k: nat, j: nat)
    requires j <= k <= |items| && forall t :: t in types ==> Sound(types[t])
    ensures ReleaseAll(Minus(types, items[..k]), Pick(items, xs, false, j)) ==
      Minus(types, Pick(items, xs, true, j) + items[j..k])
  {
    var given, left := Pick(items, xs, false, j), Pick(items, xs, true, j);
    ReleaseAllAdds(Minus(types, items[..k]), given);
    assert items[..k] == items[..j] + items[j..k];
    forall t ensures Seats(items[..k], t) == Seats(given, t) + Seats(left + items[j..k], t) {
      SeatsConcat(items[..j], items[j..k], t);
      SeatsConcat(left, items[j..k], t);
      PickSplits(items, xs, j, t);
    }
    hide Seats, Pick;
    assert ReleaseAll(Minus(types, items[..k]), given) == Minus(types, left + items[j..k]);
  }

  lemma GiveBackAll(types: map<nat, TicketType>, items: seq<Item>, xs: set<nat>)
    requires forall t :: t in types ==> Sound(types[t])
    ensures ReleaseAll(Minus(types, items), Pick(items, xs, false, |items|)) ==
      Minus(types, Pick(items, xs, true, |items|))
  {
    GiveBackFirst(types, items, xs, |items|, |items|);
    assert items[..|items|] == items && items[|items|..|items|] == [];
    var left := Pick(items, xs, true, |items|);
    assert left + [] == left;
  }

  /** The ticket messages of a confirmed booking, but for the inserts that were lost. */
  function Tickets(id: nat, b: Booking, lost: set<nat>, n: nat): seq<OutboxRow>
    requires n <= |b.items|
  {
    if n == 0 then []
    else
      Tickets(id, b, lost, n - 1) +
      if n - 1 in lost then []
      else [OutboxRow(TicketIssued(n - 1, id, b.user, b.event, b.items[n - 1].ticketType), false)]
  }

  /** The row tells the booking's own user that item i of the booking got its ticket. */
  predicate IsTicketOf(row: OutboxRow, id: nat, b: Booking, i: nat) {
    && i < |b.items| && !row.delivered && row.message.TicketIssued?
    && row.message.ticket == i && row.message.booking == id
    && row.message.user == b.user && row.message.event == b.event
    && row.message.ticketType == b.items[i].ticketType
  }

  /** In item order, one ticket row for every item before the n-th whose insert was not lost, no others. */
  ghost predicate OneTicketEach(rows: seq<OutboxRow>, id: nat, b: Booking, lost: set<nat>, n: nat) {
    && (forall k :: 0 <= k < |rows| ==>
          && rows[k].message.TicketIssued? && IsTicketOf(rows[k], id, b, rows[k].message.ticket)
          && rows[k].message.ticket < n && rows[k].message.ticket !in lost)
    && (forall j, k :: 0 <= j < k < |rows| ==> rows[j].message.ticket < rows[k].message.ticket)
    && (forall i :: 0 <= i < n && i !in lost ==> HasTicket(rows, id, b, i))
  }

  lemma {:induction false} TicketsExactly(id: nat, b: Booking, lost: set<nat>, n: nat)
    requires n <= |b.items|
    ensures OneTicketEach(Tickets(id, b, lost, n), id, b, lost, n)
  {
    hide OneTicketEach, Tickets, IsTicketOf;
    if n == 0 {
      NoTickets(id, b, lost);
    } else {
      TicketsExactly(id, b, lost, n - 1);
      var row := NextTicket(id, b, lost, n - 1);
      if n - 1 in lost {
        NoMoreTickets(Tickets(id, b, lost, n - 1), id, b, lost, n - 1);
      } else {
        MoreTickets(Tickets(id, b, lost, n - 1), row, id, b, lost, n - 1);
      }
    }
  }

  lemma NoTickets(id: nat, b: Booking, lost: set<nat>)
    ensures OneTicketEach(Tickets(id, b, lost, 0), id, b, lost, 0)
  {
  }

  lemma NextTicket(id: nat, b: Booking, lost: set<nat>, n: nat) returns (row: OutboxRow)
    requires n < |b.items|
    ensures IsTicketOf(row, id, b, n)
    ensures Tickets(id, b, lost, n + 1) ==
      if n in lost then Tickets(id, b, lost, n) else Tickets(id, b, lost, n) + [row]
  {
    row := OutboxRow(TicketIssued(n, id, b.user, b.event, b.items[n].ticketType), false);
  }

  lemma NoMoreTickets(rows: seq<OutboxRow>, id: nat, b: Booking, lost: set<nat>, n: nat)
    requires OneTicketEach(rows, id, b, lost, n) && n in lost
    ensures OneTicketEach(rows, id, b, lost, n + 1)
  {
    hide IsTicketOf, HasTicket;
  }

  lemma MoreTickets(less: seq<OutboxRow>, row: OutboxRow, id: nat, b: Booking, lost: set<nat>, n: nat)
    requires OneTicketEach(less, id, b, lost, n) && IsTicketOf(row, id, b, n) && n !in lost
    ensures OneTicketEach(less + [row], id, b, lost, n + 1)
  {
    var rows := less + [row];
    assert row.message.TicketIssued? && row.message.ticket == n;
    hide IsTicketOf;
    forall i | 0 <= i < n + 1 && i !in lost ensures HasTicket(rows, id, b, i) {
      if i < n {
        var k :| 0 <= k < |less| && IsTicketOf(less[k], id, b, i);
        assert IsTicketOf(rows[k], id, b, i);
      } else {
        assert IsTicketOf(rows[|less|], id, b, i);
      }
    }
  }

  predicate HasTicket(rows: seq<OutboxRow>, id: nat, b: Booking, i: nat) {
    exists k :: 0 <= k < |rows| && IsTicketOf(rows[k], id, b, i)
  }

  class Service {
    const db: TicketingDb

    constructor (db: TicketingDb)
      ensures this.db == db
    {
      this.db := db;
    }

    method CalculateTotal(items: seq<Item>) returns (total: nat)
      ensures total == Price(items)
    {
      total := 0;
      assert items[..0] == [];
      for i := 0 to |items|
        invariant total == Price(items[..i])
      {
        assert items[..i + 1][..i] == items[..i];
        total := total + items[i].unitPrice * items[i].quantity;
      }
      assert items[..|items|] == items;
    }

    /** The price check and the seat update, item by item; stops at the first item that fails. */
    method TakeItems(items: seq<Item>, f: Faults) returns (refusal: Option<Outcome>)
      requires db.Valid()
      modifies db`types
      ensures db.Valid()
      ensures refusal.None? ==> PassTo(old(db.types), items, |items|, f) && db.types == Minus(old(db.types), items)
      ensures refusal.Some? ==> refusal.value.PriceRefused? || refusal.value.SoldOut?
      ensures refusal.Some? ==>
        var k := refusal.value.at;
        && k < |items| && PassTo(old(db.types), items, k, f) && !Passes(old(db.types), items, k, f)
        && (refusal.value.SoldOut? <==> Priceable(old(db.types), items, k, f))
        && db.types == Minus(old(db.types), items[..k])
    {
      ghost var types := db.types;
      assert Minus(types, items[..0]) == types;
      for i := 0 to |items|
        invariant db.Valid() && db.types == Minus(types, items[..i]) && PassTo(types, items, i, f)
      {
        var price := db.GetPrice(items[i].ticketType);
        if i in f.price || price.None? || items[i].unitPrice != price.value {
          return Some(PriceRefused(i));
        }
        var ok := false;
        if i !in f.seats {
          ok := db.ReserveSeats(items[i].ticketType, items[i].quantity);
        }
        if !ok {
          return Some(SoldOut(i));
        }
        TakeOneMore(types, items, i);
      }
      assert items[..|items|] == items;
      refusal := None;
    }

    /** The rollback after a sold-out item: up to the first item of the same ticket type. A release
        that fails is passed over. */
    method UndoBefore(items: seq<Item>, k: nat, failing: set<nat>)
      requires db.Valid() && k < |items|
      modifies db`types
      ensures db.Valid() && db.types == ReleaseAll(old(db.types), Pick(items, failing, false, FirstOfType(items, k)))
    {
      var j := 0;
      while j < |items| && items[j].ticketType != items[k].ticketType
        invariant j <= FirstOfType(items, k) && db.Valid()
        invariant db.types == ReleaseAll(old(db.types), Pick(items, failing, false, j))
      {
        if j !in failing {
          db.ReleaseSeats(items[j].ticketType, items[j].quantity);
          ghost var given := Pick(items, failing, false, j);
          assert (given + [items[j]])[..|given|] == given;
        }
        j := j + 1;
      }
    }

    /** rollbackSeats: every item; a release that fails is passed over. */
    method RollbackSeats(items: seq<Item>, failing: set<nat>)
      requires db.Valid()
      modifies db`types
      ensures db.Valid() && db.types == ReleaseAll(old(db.types), Pick(items, failing, false, |items|))
    {
      for j := 0 to |items|
        invariant db.Valid() && db.types == ReleaseAll(old(db.types), Pick(items, failing, false, j))
      {
        if j !in failing {
          db.ReleaseSeats(items[j].ticketType, items[j].quantity);
          ghost var given := Pick(items, failing, false, j);
          assert (given + [items[j]])[..|given|] == given;
        }
      }
    }

    /** Line totals, filled in item by item. */
    method PriceItems(items: seq<Item>) returns (priced: seq<Priced>)
      requires forall i :: 0 <= i < |items| ==> items[i].quantity > 0
      ensures Items(priced) == items && Exact(priced)
    {
      priced := [];
      for i := 0 to |items|
        invariant |priced| == i && Exact(priced)
        invariant forall j :: 0 <= j < i ==> priced[j].item == items[j]
      {
        priced := priced + [Priced(items[i], items[i].unitPrice * items[i].quantity)];
      }
    }

    /** Reserve: its outcome is the justified one, the counters lose exactly the seats of the items it
        keeps, and a booking row stands for them (or is left behind, see BookingsAfter). */
    method Reserve(id: nat, user: nat, event: nat, items: seq<Item>, f: Faults) returns (r: Outcome)
      requires db.Valid() && id !in db.rows
      requires forall i :: 0 <= i < |items| ==> items[i].quantity > 0
      modifies db`types, db`rows, db`lines
      ensures db.Valid()
      ensures Justified(old(db.View()), event, items, f, r) && (r.Reserved? ==> r.booking == id)
      ensures db.types == Minus(old(db.types), Kept(items, f, r))
      ensures db.View().bookings ==
        BookingsAfter(old(db.View()).bookings, db.cascade, f, id, Booking(user, event, Pending, items), r)
    {
      ghost var types := db.types;
      assert Minus(types, []) == types;
      if |items| == 0 {
        return NoItems;
      }
      var refusal := TakeItems(items, f);
      if refusal.Some? {
        r := refusal.value;
        if r.SoldOut? {
          UndoBefore(items, r.at, f.release);
          GiveBackFirst(types, items, f.release, r.at, FirstOfType(items, r.at));
        }
        return;
      }
      GiveBackAll(types, items, f.release);
      r := Book(id, user, event, items, f);
    }

    /** Storing the booking and calling the payment service, all seats being taken. */
    method Book(id: nat, user: nat, event: nat, items: seq<Item>, f: Faults) returns (r: Outcome)
      requires db.Valid() && id !in db.rows && items != []
      requires forall i :: 0 <= i < |items| ==> items[i].quantity > 0
      modifies db`types, db`rows, db`lines
      ensures db.Valid()
      ensures r ==
        if f.create || event !in db.events then NotStored
        else if f.payment then NotPaid
        else Reserved(id, Price(items))
      ensures db.types ==
        if r.Reserved? then old(db.types) else ReleaseAll(old(db.types), Pick(items, f.release, false, |items|))
      ensures db.View().bookings ==
        BookingsAfter(old(db.View()).bookings, db.cascade, f, id, Booking(user, event, Pending, items), r)
    {
      ghost var bookings := db.View().bookings;
      hide Pick;
      var total := CalculateTotal(items);
      var stored := Store(id, user, event, items, f.create);
      if !stored {
        RollbackSeats(items, f.release);
        return NotStored;
      }
      if f.payment {
        WithdrawBooking(id, items, f);
        assert bookings[id := Booking(user, event, Pending, items)] - {id} == bookings;
        return NotPaid;
      }
      r := Reserved(id, total);
    }

    /** The booking row with its priced items. */
    method Store(id: nat, user: nat, event: nat, items: seq<Item>, fails: bool) returns (stored: bool)
      requires db.Valid() && id !in db.rows && items != []
      requires forall i :: 0 <= i < |items| ==> items[i].quantity > 0
      modifies db`rows, db`lines
      ensures db.Valid() && (stored <==> !fails && event in db.events)
      ensures db.View().bookings ==
        if stored then old(db.View()).bookings[id := Booking(user, event, Pending, items)] else old(db.View()).bookings
      ensures stored ==> !Unused(db.lines, id)
    {
      var priced := PriceItems(items);
      assert forall i :: 0 <= i < |items| ==> priced[i].item == Items(priced)[i];
      RowAdded(db.rows, db.lines, id, BookingRow(user, event, Pending), priced);
      stored := db.Create(id, user, event, priced, fails);
      assert stored ==> db.lines[|db.lines| - 1].booking == id;
    }

    /** The payment call failed: delete the booking, whether or not that works, and return its seats. */
    method WithdrawBooking(id: nat, items: seq<Item>, f: Faults)
      requires db.Valid() && H.IsPending(db.View(), id) && !Unused(db.lines, id)
      modifies db`types, db`rows, db`lines
      ensures db.Valid() && db.types == ReleaseAll(old(db.types), Pick(items, f.release, false, |items|))
      ensures db.View().bookings ==
        if Deletes(db.cascade, f) then old(db.View()).bookings - {id} else old(db.View()).bookings
    {
      var _ := db.Delete(id, f.delete);
      RollbackSeats(items, f.release);
    }

    method LoadPendingBooking(id: nat) returns (b: Option<Booking>)
      ensures b.Some? <==> H.IsPending(db.View(), id)
      ensures b.Some? ==> b.value == db.View().bookings[id]
    {
      var found := db.FindByID(id);
      if found.None? || !found.value.booking.status.Pending? {
        return None;
      }
      b := Some(found.value.booking);
    }

    method IsPublished(e: nat) returns (live: bool)
      ensures live == H.Live(db.events, e)
    {
      live := e in db.events && db.events[e].status.Published?;
    }

    /** Confirm, with the outbox inserts that are lost. */
    method Confirm(id: nat, lost: set<nat>)
      requires db.Valid()
      modifies db`types, db`rows, db`outbox
      ensures db.Valid() && db.View() == H.Confirm(old(db.View()), id)
      ensures
        var d := old(db.View());
        db.outbox == old(db.outbox) +
          if H.IsPending(d, id) && H.Live(d.events, d.bookings[id].event)
          then Tickets(id, d.bookings[id], lost, |d.bookings[id].items|) else []
      ensures
        var d, added := old(db.View()), db.outbox[|old(db.outbox)|..];
        if H.IsPending(d, id) && H.Live(d.events, d.bookings[id].event)
        then OneTicketEach(added, id, d.bookings[id], lost, |d.bookings[id].items|) else added == []
    {
      var b := LoadPendingBooking(id);
      if b.None? {
        return;
      }
      var live := IsPublished(b.value.event);
      if !live {
        var _ := db.TransitionAndReleaseSeats(id, b.value, Cancelled);
        return;
      }
      var applied := db.UpdateStatusIfPending(id, Confirmed);
      if applied {
        IssueTickets(id, b.value, lost);
        TicketsExactly(id, b.value, lost, |b.value.items|);
      }
    }

    /** One ticket message per item. */
    method IssueTickets(id: nat, b: Booking, lost: set<nat>)
      modifies db`outbox
      ensures db.outbox == old(db.outbox) + Tickets(id, b, lost, |b.items|)
    {
      for i := 0 to |b.items|
        invariant db.outbox == old(db.outbox) + Tickets(id, b, lost, i)
      {
        if i !in lost {
          db.outbox := Insert(db.outbox, TicketIssued(i, id, b.user, b.event, b.items[i].ticketType));
        }
      }
    }

    method ExpireOnPaymentExpired(id: nat)
      requires db.Valid()
      modifies db`types, db`rows
      ensures db.Valid() && db.View() == H.Expire(old(db.View()), id)
    {
      var b := LoadPendingBooking(id);
      if b.Some? {
        var _ := db.TransitionAndReleaseSeats(id, b.value, Expired);
      }
    }

    method CancelBookings(e: nat)
      requires db.Valid()
      modifies db`types, db`rows
      ensures db.Valid() && db.View() == H.CancelBookings(old(db.View()), e)
    {
      ghost var d := db.View();
      var listing := db.ListByEventID(e);
      assert listing[..0] == [];
      for i := 0 to |listing|
        invariant db.Valid() && db.View() == H.CancelListed(d, listing[..i])
      {
        assert listing[..i + 1][..i] == listing[..i];
        var row := listing[i];
        if row.snap.status.Confirmed? || row.snap.status.Pending? {
          var _ := db.TransitionAndReleaseSeats(row.booking, row.snap, Cancelled);
        }
      }
      assert listing[..|listing|] == listing;
      H.CancelListedCancelsAll(d, e, listing);
    }
  }
}
