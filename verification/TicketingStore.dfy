/** The ticketing database as the repositories update it: tables in memory, one method per
    repository call, each tied to the value-level effect of its SQL. */
module TicketingStore {
  import opened Messages
  import opened TicketingTables
  import H = Handlers

  /** A row of bookings. */
  datatype BookingRow = BookingRow(user: nat, event: nat, status: BookingStatus)

  /** A row of booking_items: it keeps the line total, not the unit price. */
  datatype Line = Line(booking: nat, ticketType: nat, quantity: nat, total: nat)

  /** An item handed to Create, with the line total the caller computed (0 if it did not). */
  datatype Priced = Priced(item: Item, total: nat)

  function LineOf(id: nat, p: Priced): Line {
    Line(id, p.item.ticketType, p.item.quantity, if p.total == 0 then p.item.unitPrice * p.item.quantity else p.total)
  }

  /** The lines of a booking in the order of its items. */
  function LinesOf(id: nat, items: seq<Priced>): seq<Line> {
    seq(|items|, i requires 0 <= i < |items| => LineOf(id, items[i]))
  }

  function ItemOf(line: Line): Item {
    Item(line.ticketType, line.quantity, if line.quantity > 0 then line.total / line.quantity else 0)
  }

  /** SELECT ... FROM booking_items WHERE booking_id = id, turned back into items. */
  function LoadItems(lines: seq<Line>, id: nat): seq<Item> {
    if lines == [] then []
    else
      var last := lines[|lines| - 1];
      LoadItems(lines[..|lines| - 1], id) + if last.booking == id then [ItemOf(last)] else []
  }

  function LoadTotal(lines: seq<Line>, id: nat): nat {
    if lines == [] then 0
    else
      var last := lines[|lines| - 1];
      LoadTotal(lines[..|lines| - 1], id) + if last.booking == id then last.total else 0
  }

  function Without(lines: seq<Line>, id: nat): seq<Line> {
    if lines == [] then []
    else
      var last := lines[|lines| - 1];
      Without(lines[..|lines| - 1], id) + if last.booking == id then [] else [last]
  }

  /** No line of the booking. */
  predicate Unused(lines: seq<Line>, id: nat) {
    forall i :: 0 <= i < |lines| ==> lines[i].booking != id
  }

  function Bookings(rows: map<nat, BookingRow>, lines: seq<Line>): map<nat, Booking> {
    map id | id in rows :: Booking(rows[id].user, rows[id].event, rows[id].status, LoadItems(lines, id))
  }

  lemma {:induction false} LoadUnused(lines: seq<Line>, id: nat)
    requires Unused(lines, id)
    ensures LoadItems(lines, id) == [] && LoadTotal(lines, id) == 0
  {
    if lines != [] {
      LoadUnused(lines[..|lines| - 1], id);
    }
  }

  lemma {:induction false} LoadConcat(a: seq<Line>, b: seq<Line>, id: nat)
    ensures LoadItems(a + b, id) == LoadItems(a, id) + LoadItems(b, id)
    ensures LoadTotal(a + b, id) == LoadTotal(a, id) + LoadTotal(b, id)
    decreases |b|
  {
    if b == [] {
      assert a + b == a;
    } else {
      assert (a + b)[..|a + b| - 1] == a + b[..|b| - 1];
      LoadConcat(a, b[..|b| - 1], id);
    }
  }

  lemma {:induction false} LoadWithout(lines: seq<Line>, id: nat, other: nat)
    requires other != id
    ensures LoadItems(Without(lines, id), other) == LoadItems(lines, other)
  {
    if lines != [] {
      var init, last := lines[..|lines| - 1], lines[|lines| - 1];
      LoadWithout(init, id, other);
      if last.booking == id {
        assert Without(lines, id) == Without(init, id);
      } else {
        assert Without(lines, id) == Without(init, id) + [last];
        assert Without(lines, id)[..|Without(init, id)|] == Without(init, id);
      }
    }
  }

  lemma {:induction false} WithoutKeepsOthers(lines: seq<Line>, id: nat)
    ensures Unused(Without(lines, id), id)
    ensures forall i :: 0 <= i < |Without(lines, id)| ==> Without(lines, id)[i] in lines
  {
    if lines != [] {
      WithoutKeepsOthers(lines[..|lines| - 1], id);
    }
  }

  /** The items a caller priced: quantity positive, total left open or the exact line total. */
  predicate Exact(items: seq<Priced>) {
    forall i :: 0 <= i < |items| ==>
      && items[i].item.quantity > 0
      && (items[i].total == 0 || items[i].total == items[i].item.unitPrice * items[i].item.quantity)
  }

  function Items(items: seq<Priced>): seq<Item> {
    seq(|items|, i requires 0 <= i < |items| => items[i].item)
  }

  lemma Scaled(d: int, n: nat)
    ensures d >= 1 ==> d * n >= n
    ensures d <= -1 ==> d * n + n <= 0
  {
  }

  lemma ExactDivision(unit: nat, n: nat)
    requires n > 0
    ensures unit * n / n == unit
  {
    var product := unit * n;
    var q, r := product / n, product % n;
    assert product == q * n + r;
    assert (unit - q) * n == r;
    Scaled(unit - q, n);
  }

  /** Storing then loading gives back every item, unit price included, and the total price. */
  lemma {:induction false} StoreLoadRoundTrip(lines: seq<Line>, id: nat, items: seq<Priced>)
    requires Unused(lines, id) && Exact(items)
    ensures LoadItems(lines + LinesOf(id, items), id) == Items(items)
    ensures LoadTotal(lines + LinesOf(id, items), id) == Price(Items(items))
    decreases |items|
  {
    LoadUnused(lines, id);
    if items == [] {
      assert lines + LinesOf(id, items) == lines;
    } else {
      var init, last := items[..|items| - 1], items[|items| - 1];
      var all := lines + LinesOf(id, items);
      StoreLoadRoundTrip(lines, id, init);
      assert all[..|all| - 1] == lines + LinesOf(id, init);
      assert all[|all| - 1] == LineOf(id, last);
      ExactDivision(last.item.unitPrice, last.item.quantity);
      assert ItemOf(LineOf(id, last)) == last.item;
      assert Items(items) == Items(init) + [last.item];
      assert Items(items)[..|items| - 1] == Items(init);
    }
  }

  /** Lines of one booking do not show in another. */
  lemma LinesOfOthers(lines: seq<Line>, id: nat, items: seq<Priced>, other: nat)
    requires other != id
    ensures LoadItems(lines + LinesOf(id, items), other) == LoadItems(lines, other)
  {
    LoadConcat(lines, LinesOf(id, items), other);
    LoadUnused(LinesOf(id, items), other);
  }

  datatype Found = Found(booking: Booking, total: nat)

  class TicketingDb {
    /** Whether deleting a booking may delete its items; false in the shipped schema. */
    const cascade: bool
    var events: map<nat, Event>
    var types: map<nat, TicketType>
    var rows: map<nat, BookingRow>
    var lines: seq<Line>
    var outbox: seq<OutboxRow>

    /** The tables, with every booking as FindByID loads it. */
    ghost function View(): H.Tables
      reads this
    {
      H.Tables(events, types, Bookings(rows, lines))
    }

    /** The table constraints: counters within bounds, no line without its booking. */
    ghost predicate Valid()
      reads this
    {
      && (forall t :: t in types ==> Sound(types[t]))
      && (forall i :: 0 <= i < |lines| ==> lines[i].booking in rows)
    }

    constructor (cascade: bool)
      ensures this.cascade == cascade && Valid()
      ensures View() == H.Tables(map[], map[], map[]) && outbox == []
    {
      this.cascade := cascade;
      events, types, rows, lines, outbox := map[], map[], map[], [], [];
    }

    /*** SeatCounter ***/

    method GetPrice(t: nat) returns (price: Option<nat>)
      ensures price.Some? <==> t in types
      ensures price.Some? ==> price.value == types[t].price
    {
      price := if t in types then Some(types[t].price) else None;
    }

    /** The guarded decrement; ok when a row was changed. */
    method ReserveSeats(t: nat, n: nat) returns (ok: bool)
      requires Valid()
      modifies `types
      ensures Valid() && ok == CanTake(old(types), t, n) && types == Take(old(types), t, n)
    {
      ok := t in types && types[t].available >= n;
      if ok {
        types := types[t := types[t].(available := types[t].available - n)];
      }
    }

    /** The capped increment. */
    method ReleaseSeats(t: nat, n: nat)
      requires Valid()
      modifies `types
      ensures Valid() && types == Release(old(types), t, n)
    {
      if t in types {
        types := types[t := types[t].(available := Min(types[t].quantity, types[t].available + n))];
      }
    }

    /** One release per item, in order. */
    method ReleaseItems(items: seq<Item>)
      requires Valid()
      modifies `types
      ensures Valid() && types == ReleaseAll(old(types), items)
    {
      assert items[..0] == [];
      for i := 0 to |items|
        invariant Valid() && types == ReleaseAll(old(types), items[..i])
      {
        ReleaseSeats(items[i].ticketType, items[i].quantity);
        assert items[..i + 1][..i] == items[..i];
      }
      assert items[..|items|] == items;
    }

    /*** BookingRepo ***/

    /** Insert a booking and its items in one transaction: all of it or nothing. */
    method Create(id: nat, user: nat, event: nat, items: seq<Priced>, fails: bool) returns (ok: bool)
      requires Valid()
      modifies `rows, `lines
      ensures Valid()
      ensures ok <==>
        && !fails && id !in old(rows) && event in events
        && forall i :: 0 <= i < |items| ==> items[i].item.quantity > 0
      ensures ok ==>
        rows == old(rows)[id := BookingRow(user, event, Pending)] && lines == old(lines) + LinesOf(id, items)
      ensures !ok ==> rows == old(rows) && lines == old(lines)
    {
      if fails || id in rows || event !in events {
        return false;
      }
      var added: seq<Line> := [];
      for i := 0 to |items|
        invariant added == LinesOf(id, items[..i])
        invariant forall j :: 0 <= j < i ==> items[j].item.quantity > 0
      {
        if items[i].item.quantity == 0 {
          return false;
        }
        var total := items[i].total;
        if total == 0 {
          total := items[i].item.unitPrice * items[i].item.quantity;
        }
        added := added + [Line(id, items[i].item.ticketType, items[i].item.quantity, total)];
      }
      assert items[..|items|] == items;
      rows, lines := rows[id := BookingRow(user, event, Pending)], lines + added;
      ok := true;
    }

    method FindByID(id: nat) returns (found: Option<Found>)
      ensures found.Some? <==> id in rows
      ensures found.Some? ==> found.value == Found(View().bookings[id], LoadTotal(lines, id))
    {
      if id !in rows {
        return None;
      }
      var items, total := LoadLines(id);
      found := Some(Found(Booking(rows[id].user, rows[id].event, rows[id].status, items), total));
    }

    /** The loop over the lines of a booking. */
    method LoadLines(id: nat) returns (items: seq<Item>, total: nat)
      ensures items == LoadItems(lines, id) && total == LoadTotal(lines, id)
    {
      items, total := [], 0;
      assert lines[..0] == [];
      for i := 0 to |lines|
        invariant items == LoadItems(lines[..i], id) && total == LoadTotal(lines[..i], id)
      {
        assert lines[..i + 1][..i] == lines[..i];
        if lines[i].booking == id {
          var unit := 0;
          if lines[i].quantity > 0 {
            unit := lines[i].total / lines[i].quantity;
          }
          total := total + lines[i].total;
          items := items + [Item(lines[i].ticketType, lines[i].quantity, unit)];
        }
      }
      assert lines[..|lines|] == lines;
    }

    method UpdateStatusIfPending(id: nat, to: BookingStatus) returns (applied: bool)
      requires Valid()
      modifies `rows
      ensures Valid() && applied == H.IsPending(old(View()), id)
      ensures View() == if applied then H.WithStatus(old(View()), id, to) else old(View())
    {
      applied := id in rows && rows[id].status.Pending?;
      if applied {
        rows := rows[id := rows[id].(status := to)];
      }
    }

    /** The guarded transition and the release of the seats, in one transaction. */
    method TransitionAndReleaseSeats(id: nat, snap: Booking, to: BookingStatus) returns (applied: bool)
      requires Valid()
      modifies `rows, `types
      ensures Valid() && View() == H.Transition(old(View()), id, snap, to)
      ensures applied <==> id in old(rows) && old(rows[id].status) == snap.status
    {
      applied := id in rows && rows[id].status == snap.status;
      if applied {
        rows := rows[id := rows[id].(status := to)];
        ReleaseItems(snap.items);
      }
    }

    /** DELETE of a pending booking; it fails, without effect, when the statement does (fails), or
        when items still refer to the row and the schema does not cascade. */
    method Delete(id: nat, fails: bool) returns (ok: bool)
      requires Valid()
      modifies `rows, `lines
      ensures Valid()
      ensures ok <==> !fails && (!H.IsPending(old(View()), id) || cascade || Unused(old(lines), id))
      ensures View().bookings ==
        if ok && H.IsPending(old(View()), id) then old(View()).bookings - {id} else old(View()).bookings
    {
      if fails {
        return false;
      }
      if id !in rows || !rows[id].status.Pending? {
        return true;
      }
      var left := DropLines(id);
      DroppedSome(lines, id);
      if !cascade && |left| != |lines| {
        return false;
      }
      RowGone(rows, lines, id);
      WithoutKeepsOthers(lines, id);
      rows, lines := rows - {id}, left;
      ok := true;
    }

    /** The lines that remain when the lines of a booking go. */
    method DropLines(id: nat) returns (left: seq<Line>)
      ensures left == Without(lines, id)
    {
      left := [];
      assert lines[..0] == [];
      for i := 0 to |lines|
        invariant left == Without(lines[..i], id)
      {
        assert lines[..i + 1][..i] == lines[..i];
        if lines[i].booking != id {
          left := left + [lines[i]];
        }
      }
      assert lines[..|lines|] == lines;
    }

    /** Every booking of the event once, with its items. */
    method ListByEventID(e: nat) returns (listing: seq<SeenBooking>)
      ensures H.Lists(View().bookings, e, listing)
    {
      listing := [];
      var todo := rows.Keys;
      while todo != {}
        invariant todo <= rows.Keys
        invariant forall i :: 0 <= i < |listing| ==>
          && listing[i].booking in rows && listing[i].booking !in todo
          && listing[i].snap == View().bookings[listing[i].booking] && listing[i].snap.event == e
        invariant forall i, j :: 0 <= i < j < |listing| ==> listing[i].booking != listing[j].booking
        invariant forall id :: id in rows && rows[id].event == e && id !in todo ==> H.InListing(listing, id)
      {
        var id :| id in todo;
        todo := todo - {id};
        if rows[id].event == e {
          var items, _ := LoadLines(id);
          ghost var shorter := listing;
          listing := listing + [SeenBooking(id, Booking(rows[id].user, rows[id].event, rows[id].status, items))];
          ListingExtends(shorter, listing[|shorter|]);
        }
      }
    }
  }

  /** A stored booking loads as the items it was reserved with; other bookings load as before. */
  lemma RowAdded(rows: map<nat, BookingRow>, lines: seq<Line>, id: nat, row: BookingRow, items: seq<Priced>)
    requires Unused(lines, id) && Exact(items)
    ensures Bookings(rows[id := row], lines + LinesOf(id, items)) ==
      Bookings(rows, lines)[id := Booking(row.user, row.event, row.status, Items(items))]
  {
    StoreLoadRoundTrip(lines, id, items);
    forall other | other in rows && other != id
      ensures LoadItems(lines + LinesOf(id, items), other) == LoadItems(lines, other)
    {
      LinesOfOthers(lines, id, items, other);
    }
  }

  lemma RowGone(rows: map<nat, BookingRow>, lines: seq<Line>, id: nat)
    ensures Bookings(rows - {id}, Without(lines, id)) == Bookings(rows, lines) - {id}
  {
    forall other | other in rows && other != id
      ensures LoadItems(Without(lines, id), other) == LoadItems(lines, other)
    {
      LoadWithout(lines, id, other);
    }
  }

  lemma ListingExtends(listing: seq<SeenBooking>, row: SeenBooking)
    ensures H.InListing(listing + [row], row.booking)
    ensures forall id :: H.InListing(listing, id) ==> H.InListing(listing + [row], id)
  {
    assert (listing + [row])[|listing|] == row;
    forall id | H.InListing(listing, id) ensures H.InListing(listing + [row], id) {
      var i :| 0 <= i < |listing| && listing[i].booking == id;
      assert (listing + [row])[i].booking == id;
    }
  }

  lemma {:induction false} DroppedSome(lines: seq<Line>, id: nat)
    ensures |Without(lines, id)| <= |lines|
    ensures |Without(lines, id)| == |lines| <==> Unused(lines, id)
  {
    if lines != [] {
      DroppedSome(lines[..|lines| - 1], id);
      assert Unused(lines, id) <==> Unused(lines[..|lines| - 1], id) && lines[|lines| - 1].booking != id;
    }
  }
}
