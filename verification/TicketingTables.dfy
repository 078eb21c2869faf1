/** Rows of the ticketing database and the effect of each SQL statement. */
module TicketingTables {
  import opened Sums

  datatype EventStatus = Draft | InReview | Published | Rejected | CalledOff

  datatype Event = Event(organizer: nat, capacity: nat, status: EventStatus)

  /** A row of ticket_types; available is the available_seat column. */
  datatype TicketType = TicketType(event: nat, price: nat, quantity: nat, available: int)

  /** A line of a reservation. */
  datatype Item = Item(ticketType: nat, quantity: nat, unitPrice: nat)

  datatype BookingStatus = Pending | Confirmed | Expired | Cancelled

  datatype Booking = Booking(user: nat, event: nat, status: BookingStatus, items: seq<Item>)

  /** One row of a query result: the booking as it was when the query ran. */
  datatype SeenBooking = SeenBooking(booking: nat, snap: Booking)

  /** Bookings in these statuses own their seats. */
  predicate OwnsSeats(b: BookingStatus) {
    b.Pending? || b.Confirmed?
  }

  function Min(a: int, b: int): int {
    if a <= b then a else b
  }

  /** UPDATE ... SET available_seat = available_seat - n WHERE id = t AND available_seat >= n:
      does it change a row? */
  predicate CanTake(types: map<nat, TicketType>, t: nat, n: nat) {
    t in types && types[t].available >= n
  }

  function Take(types: map<nat, TicketType>, t: nat, n: nat): (r: map<nat, TicketType>)
    ensures r.Keys == types.Keys
  {
    if CanTake(types, t, n) then types[t := types[t].(available := types[t].available - n)] else types
  }

  /** UPDATE ... SET available_seat = LEAST(quantity, available_seat + n) WHERE id = t. */
  function Release(types: map<nat, TicketType>, t: nat, n: nat): (r: map<nat, TicketType>)
    ensures r.Keys == types.Keys
  {
    if t in types then types[t := types[t].(available := Min(types[t].quantity, types[t].available + n))] else types
  }

  /** One release per item, in order. */
  function ReleaseAll(types: map<nat, TicketType>, items: seq<Item>): (r: map<nat, TicketType>)
    ensures r.Keys == types.Keys
  {
    if items == [] then types
    else
      var last := items[|items| - 1];
      Release(ReleaseAll(types, items[..|items| - 1]), last.ticketType, last.quantity)
  }

  /** The seats of type t in a list of items. */
  function Seats(items: seq<Item>, t: nat): nat {
    if items == [] then 0
    else
      var last := items[|items| - 1];
      Seats(items[..|items| - 1], t) + if last.ticketType == t then last.quantity else 0
  }

  ghost function OwnedBy(t: nat): Booking -> int {
    (b: Booking) => if OwnsSeats(b.status) then Seats(b.items, t) else 0
  }

  /** Seats of type t of the pending and confirmed bookings. */
  ghost function OwnedSeats(bookings: map<nat, Booking>, t: nat): int {
    Sum(bookings, OwnedBy(t))
  }

  /** Price of a list of items. */
  function Price(items: seq<Item>): nat {
    if items == [] then 0
    else
      var last := items[|items| - 1];
      Price(items[..|items| - 1]) + last.unitPrice * last.quantity
  }

  /** The counters respect the table's CHECK constraint. */
  predicate Sound(row: TicketType) {
    0 <= row.available <= row.quantity
  }

  lemma {:induction false} SeatsConcat(a: seq<Item>, b: seq<Item>, t: nat)
    ensures Seats(a + b, t) == Seats(a, t) + Seats(b, t)
    decreases |b|
  {
    if b == [] {
      assert a + b == a;
    } else {
      assert (a + b)[..|a + b| - 1] == a + b[..|b| - 1];
      SeatsConcat(a, b[..|b| - 1], t);
    }
  }

  lemma SeatsAppend(items: seq<Item>, item: Item, t: nat)
    ensures Seats(items + [item], t) == Seats(items, t) + if item.ticketType == t then item.quantity else 0
  {
    assert (items + [item])[..|items|] == items;
  }

  /** Seats of a list, taking its first item apart. */
  lemma SeatsFirst(items: seq<Item>, t: nat)
    requires items != []
    ensures Seats(items, t) == Seats(items[1..], t) + if items[0].ticketType == t then items[0].quantity else 0
  {
    assert items == [items[0]] + items[1..];
    SeatsConcat([items[0]], items[1..], t);
    assert [items[0]][..0] == [];
  }

  /** Releasing a list of items adds its seats to every counter, up to the quantity. */
  lemma {:induction false} ReleaseAllAdds(types: map<nat, TicketType>, items: seq<Item>)
    requires forall t :: t in types ==> types[t].available <= types[t].quantity
    ensures forall t :: t in types ==>
      ReleaseAll(types, items)[t] ==
        types[t].(available := Min(types[t].quantity, types[t].available + Seats(items, t)))
    decreases |items|
  {
    if items != [] {
      ReleaseAllAdds(types, items[..|items| - 1]);
    }
  }
}
