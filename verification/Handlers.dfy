/** The message handlers of the ticketing service, each run undisturbed from start to end, and
    what a sequence of messages does to the seat counters. */
module Handlers {
  import opened Messages
  import opened Sums
  import opened TicketingTables

  datatype Tables = Tables(events: map<nat, Event>, types: map<nat, TicketType>, bookings: map<nat, Booking>)

  predicate Live(events: map<nat, Event>, e: nat) {
    e in events && events[e].status.Published?
  }

  predicate IsPending(d: Tables, id: nat) {
    id in d.bookings && d.bookings[id].status.Pending?
  }

  function WithStatus(d: Tables, id: nat, to: BookingStatus): Tables
    requires id in d.bookings
  {
    d.(bookings := d.bookings[id := d.bookings[id].(status := to)])
  }

  /** TransitionAndReleaseSeats on a row just read. */
  function Settle(d: Tables, id: nat, to: BookingStatus): Tables
    requires id in d.bookings
  {
    WithStatus(d, id, to).(types := ReleaseAll(d.types, d.bookings[id].items))
  }

  /** Confirm: a dead event turns a confirmation into a cancellation. */
  function Confirm(d: Tables, id: nat): Tables {
    if !IsPending(d, id) then d
    else if Live(d.events, d.bookings[id].event) then WithStatus(d, id, Confirmed)
    else Settle(d, id, Cancelled)
  }

  /** ExpireOnPaymentExpired. */
  function Expire(d: Tables, id: nat): Tables {
    if IsPending(d, id) then Settle(d, id, Expired) else d
  }

  function CancelOne(b: Booking, e: nat): Booking {
    if b.event == e && OwnsSeats(b.status) then b.(status := Cancelled) else b
  }

  function CancelRows(bookings: map<nat, Booking>, e: nat): map<nat, Booking> {
    map id | id in bookings :: CancelOne(bookings[id], e)
  }

  /** The counters after bookings went from before to after: seats no longer owned come back. */
  ghost function Returned(types: map<nat, TicketType>, before: map<nat, Booking>, after: map<nat, Booking>)
    : map<nat, TicketType>
  {
    map t | t in types :: types[t].(
      available := Min(types[t].quantity, types[t].available + OwnedSeats(before, t) - OwnedSeats(after, t)))
  }

  /** CancelBookings: every booking of the event that owns seats is cancelled, its seats come back. */
  ghost function CancelBookings(d: Tables, e: nat): Tables {
    var rows := CancelRows(d.bookings, e);
    d.(bookings := rows, types := Returned(d.types, d.bookings, rows))
  }

  ghost function Handle(d: Tables, m: Message): Tables {
    match m
    case PaymentCompleted(_, id, _, _) => Confirm(d, id)
    case PaymentExpired(_, id, _, _, _) => Expire(d, id)
    case EventCancelled(e) => CancelBookings(d, e)
    case TicketIssued(_, _, _, _, _) => d
  }

  ghost function HandleAll(d: Tables, ms: seq<Message>): Tables
    decreases |ms|
  {
    if ms == [] then d else HandleAll(Handle(d, ms[0]), ms[1..])
  }

  /** What a message does to the status of booking id of event e. */
  function React(b: BookingStatus, live: bool, id: nat, e: nat, m: Message): BookingStatus {
    match m
    case PaymentCompleted(_, x, _, _) => if x == id && b.Pending? then (if live then Confirmed else Cancelled) else b
    case PaymentExpired(_, x, _, _, _) => if x == id && b.Pending? then Expired else b
    case EventCancelled(x) => if x == e && OwnsSeats(b) then Cancelled else b
    case TicketIssued(_, _, _, _, _) => b
  }

  function ReactAll(b: BookingStatus, live: bool, id: nat, e: nat, ms: seq<Message>): BookingStatus
    decreases |ms|
  {
    if ms == [] then b else ReactAll(React(b, live, id, e, ms[0]), live, id, e, ms[1..])
  }

  /** Everything but the counters and the statuses is the same. */
  ghost predicate SameRows(d: Tables, u: Tables) {
    && u.events == d.events
    && u.bookings.Keys == d.bookings.Keys
    && (forall id :: id in d.bookings ==> u.bookings[id] == d.bookings[id].(status := u.bookings[id].status))
  }

  /** The CHECK constraint of the counters, upper half. */
  predicate Capped(types: map<nat, TicketType>) {
    forall t :: t in types ==> types[t].available <= types[t].quantity
  }

  /** From d to u seats were only given back, and every seat given back reached its counter. */
  ghost predicate GivesBack(d: Tables, u: Tables) {
    && SameRows(d, u)
    && u.types == Returned(d.types, d.bookings, u.bookings)
    && (forall t :: OwnedSeats(u.bookings, t) <= OwnedSeats(d.bookings, t))
  }

  lemma GivesBackNothing(d: Tables)
    requires Capped(d.types)
    ensures GivesBack(d, d)
  {
    assert Returned(d.types, d.bookings, d.bookings) == d.types;
  }

  lemma SameRowsTwice(d: Tables, u: Tables, v: Tables)
    requires SameRows(d, u) && SameRows(u, v)
    ensures SameRows(d, v)
  {
  }

  lemma GivesBackTwice(d: Tables, u: Tables, v: Tables)
    requires Capped(d.types) && GivesBack(d, u) && GivesBack(u, v)
    ensures GivesBack(d, v)
  {
    hide OwnedSeats, SameRows;
    assert SameRows(d, v) by { SameRowsTwice(d, u, v); }
    assert v.types == Returned(d.types, d.bookings, v.bookings);
  }

  lemma ReturnedIsCapped(types: map<nat, TicketType>, before: map<nat, Booking>, after: map<nat, Booking>)
    ensures Capped(Returned(types, before, after))
  {
  }

  lemma {:induction false} SettleGivesBack(d: Tables, id: nat, to: BookingStatus)
    requires Capped(d.types) && id in d.bookings && OwnsSeats(d.bookings[id].status) && !OwnsSeats(to)
    ensures GivesBack(d, Settle(d, id, to))
  {
    var u := Settle(d, id, to);
    forall t ensures OwnedSeats(u.bookings, t) == OwnedSeats(d.bookings, t) - Seats(d.bookings[id].items, t) {
      SumUpdate(d.bookings, OwnedBy(t), id, u.bookings[id]);
    }
    ReleaseAllAdds(d.types, d.bookings[id].items);
    assert u.types == Returned(d.types, d.bookings, u.bookings);
  }

  /** A change of status that gives up no seats. */
  lemma StatusGivesBack(d: Tables, id: nat, to: BookingStatus)
    requires Capped(d.types) && id in d.bookings && OwnsSeats(d.bookings[id].status) && OwnsSeats(to)
    ensures GivesBack(d, WithStatus(d, id, to))
  {
    var u := WithStatus(d, id, to);
    forall t ensures OwnedSeats(u.bookings, t) == OwnedSeats(d.bookings, t) {
      SumUpdate(d.bookings, OwnedBy(t), id, u.bookings[id]);
    }
    assert Returned(d.types, d.bookings, u.bookings) == d.types;
  }

  lemma ConfirmGivesBack(d: Tables, id: nat)
    requires Capped(d.types)
    ensures GivesBack(d, Confirm(d, id))
  {
    GivesBackNothing(d);
    if IsPending(d, id) {
      if Live(d.events, d.bookings[id].event) {
        StatusGivesBack(d, id, Confirmed);
      } else {
        SettleGivesBack(d, id, Cancelled);
      }
    }
  }

  lemma CancelGivesBack(d: Tables, e: nat)
    ensures GivesBack(d, CancelBookings(d, e))
  {
    var rows := CancelRows(d.bookings, e);
    forall t ensures OwnedSeats(rows, t) <= OwnedSeats(d.bookings, t) {
      SumMonotone(rows, OwnedBy(t), d.bookings, OwnedBy(t));
    }
  }

  /** One message: seats are only given back, all of them reach their counters, and every booking
      reacts to the message by itself. */
  lemma HandleGivesBack(d: Tables, m: Message)
    requires Capped(d.types)
    ensures GivesBack(d, Handle(d, m)) && Capped(Handle(d, m).types)
    ensures forall id :: id in d.bookings ==>
      var b := d.bookings[id];
      Handle(d, m).bookings[id].status == React(b.status, Live(d.events, b.event), id, b.event, m)
  {
    hide Returned, OwnedSeats, ReleaseAll, Capped;
    match m {
      case PaymentCompleted(_, id, _, _) => ConfirmGivesBack(d, id);
      case PaymentExpired(_, id, _, _, _) =>
        GivesBackNothing(d);
        if IsPending(d, id) {
          SettleGivesBack(d, id, Expired);
        }
      case EventCancelled(e) => CancelGivesBack(d, e);
      case TicketIssued(_, _, _, _, _) => GivesBackNothing(d);
    }
    var u := Handle(d, m);
    ReturnedIsCapped(d.types, d.bookings, u.bookings);
  }

  /** Any sequence of messages. */
  lemma {:induction false} HandleAllGivesBack(d: Tables, ms: seq<Message>)
    requires Capped(d.types)
    ensures GivesBack(d, HandleAll(d, ms))
    ensures forall id :: id in d.bookings ==>
      var b := d.bookings[id];
      HandleAll(d, ms).bookings[id].status == ReactAll(b.status, Live(d.events, b.event), id, b.event, ms)
    decreases |ms|
  {
    if ms == [] {
      GivesBackNothing(d);
    } else {
      var u := Handle(d, ms[0]);
      HandleGivesBack(d, ms[0]);
      HandleAllGivesBack(u, ms[1..]);

      assert GivesBack(d, HandleAll(u, ms[1..])) by {
        GivesBackTwice(d, u, HandleAll(u, ms[1..]));
      }
      forall id | id in d.bookings
        ensures
          var b := d.bookings[id];
          HandleAll(d, ms).bookings[id].status == ReactAll(b.status, Live(d.events, b.event), id, b.event, ms)
      {
        var b := d.bookings[id];
        assert u.bookings[id].event == b.event;
      }
    }
  }

  /*** The loop of CancelBookings, row by row ***/

  /** TransitionAndReleaseSeats: guarded by the status seen, atomic with the seat release. */
  function Transition(d: Tables, id: nat, snap: Booking, to: BookingStatus): Tables {
    if id in d.bookings && d.bookings[id].status == snap.status then
      WithStatus(d, id, to).(types := ReleaseAll(d.types, snap.items))
    else d
  }

  function CancelSeen(d: Tables, row: SeenBooking): Tables {
    if OwnsSeats(row.snap.status) then Transition(d, row.booking, row.snap, Cancelled) else d
  }

  /** The rows of a listing, one after the other. */
  function CancelListed(d: Tables, rows: seq<SeenBooking>): Tables {
    if rows == [] then d else CancelSeen(CancelListed(d, rows[..|rows| - 1]), rows[|rows| - 1])
  }

  /** ListByEventID: every booking of the event once, as it is now. */
  ghost predicate Lists(bookings: map<nat, Booking>, e: nat, rows: seq<SeenBooking>) {
    && (forall i :: 0 <= i < |rows| ==>
          rows[i].booking in bookings && bookings[rows[i].booking] == rows[i].snap && rows[i].snap.event == e)
    && (forall i, j :: 0 <= i < j < |rows| ==> rows[i].booking != rows[j].booking)
    && (forall id :: id in bookings && bookings[id].event == e ==> InListing(rows, id))
  }

  predicate InListing(rows: seq<SeenBooking>, id: nat) {
    exists i :: 0 <= i < |rows| && rows[i].booking == id
  }

  /** Part of the way through the listing: the rows so far are cancelled, the others untouched. */
  ghost predicate PartWay(d: Tables, e: nat, rows: seq<SeenBooking>, n: nat, u: Tables)
    requires n <= |rows|
  {
    && GivesBack(d, u)
    && (forall id :: id in d.bookings ==>
          u.bookings[id] == if InListing(rows[..n], id) then CancelOne(d.bookings[id], e) else d.bookings[id])
  }

  lemma CancelSeenPartWay(d: Tables, e: nat, rows: seq<SeenBooking>, n: nat, u: Tables)
    requires Capped(d.types) && Lists(d.bookings, e, rows) && n < |rows| && PartWay(d, e, rows, n, u)
    ensures PartWay(d, e, rows, n + 1, CancelSeen(u, rows[n]))
  {
    var id := rows[n].booking;
    var v := CancelSeen(u, rows[n]);
    assert !InListing(rows[..n], id);
    assert forall j :: InListing(rows[..n + 1], j) <==> InListing(rows[..n], j) || j == id by {
      ListingGrows(rows, n);
    }
    assert u.bookings[id] == rows[n].snap;
    ReturnedIsCapped(d.types, d.bookings, u.bookings);
    hide Returned, OwnedSeats, InListing, Lists;
    CancelSeenGivesBack(u, rows[n]);
    GivesBackTwice(d, u, v);
  }

  lemma ListingGrows(rows: seq<SeenBooking>, n: nat)
    requires n < |rows|
    ensures forall j :: InListing(rows[..n + 1], j) <==> InListing(rows[..n], j) || j == rows[n].booking
  {
    forall j ensures InListing(rows[..n + 1], j) <==> InListing(rows[..n], j) || j == rows[n].booking {
      if InListing(rows[..n], j) {
        var i :| 0 <= i < n && rows[..n][i].booking == j;
        assert rows[..n + 1][i].booking == j;
      }
      assert rows[..n + 1][n].booking == rows[n].booking;
      if InListing(rows[..n + 1], j) {
        var i :| 0 <= i < n + 1 && rows[..n + 1][i].booking == j;
        if i < n {
          assert rows[..n][i].booking == j;
        }
      }
    }
  }

  lemma CancelSeenGivesBack(u: Tables, row: SeenBooking)
    requires Capped(u.types) && row.booking in u.bookings && u.bookings[row.booking] == row.snap
    ensures GivesBack(u, CancelSeen(u, row))
  {
    if OwnsSeats(row.snap.status) {
      SettleGivesBack(u, row.booking, Cancelled);
    } else {
      GivesBackNothing(u);
    }
  }

  lemma {:induction false} CancelListedPartWay(d: Tables, e: nat, rows: seq<SeenBooking>, n: nat)
    requires Capped(d.types) && Lists(d.bookings, e, rows) && n <= |rows|
    ensures PartWay(d, e, rows, n, CancelListed(d, rows[..n]))
  {
    if n == 0 {
      GivesBackNothing(d);
    } else {
      CancelListedPartWay(d, e, rows, n - 1);
      assert rows[..n][..n - 1] == rows[..n - 1];
      CancelSeenPartWay(d, e, rows, n - 1, CancelListed(d, rows[..n - 1]));
    }
  }

  /** The loop, in whatever order the rows are listed, cancels all bookings of the event that own
      seats, returns exactly their seats and touches nothing else. */
  lemma CancelListedCancelsAll(d: Tables, e: nat, rows: seq<SeenBooking>)
    requires Capped(d.types) && Lists(d.bookings, e, rows)
    ensures CancelListed(d, rows) == CancelBookings(d, e)
  {
    CancelListedPartWay(d, e, rows, |rows|);
    assert rows[..|rows|] == rows;
    assert CancelListed(d, rows).bookings == CancelRows(d.bookings, e);
  }

  /** After a pass no booking of the event owns seats, and a second pass changes nothing. */
  lemma CancelConverges(d: Tables, e: nat)
    requires Capped(d.types)
    ensures
      var u := CancelBookings(d, e);
      && (forall id :: id in u.bookings && u.bookings[id].event == e ==> !OwnsSeats(u.bookings[id].status))
      && CancelBookings(u, e) == u
  {
    var u := CancelBookings(d, e);
    assert CancelRows(u.bookings, e) == u.bookings;
    ReturnedIsCapped(d.types, d.bookings, u.bookings);
    GivesBackNothing(u);
  }
}
