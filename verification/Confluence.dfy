/** What messages do to the bookings and counters, read off the set of messages; and what two orders of
    contesting messages do. Interleaving shows when order and interleaving do not matter. */
module Confluence {
  import opened Messages
  import opened Sums
  import opened TicketingTables
  import opened Handlers

  predicate Completes(ms: seq<Message>, id: nat) {
    exists i :: 0 <= i < |ms| && ms[i].PaymentCompleted? && ms[i].booking == id
  }

  predicate Expires(ms: seq<Message>, id: nat) {
    exists i :: 0 <= i < |ms| && ms[i].PaymentExpired? && ms[i].booking == id
  }

  predicate Cancels(ms: seq<Message>, e: nat) {
    exists i :: 0 <= i < |ms| && ms[i] == Message.EventCancelled(e)
  }

  /** The same messages, in any order and multiplicity. */
  ghost predicate SameNews(ms: seq<Message>, ns: seq<Message>) {
    && (forall id :: Completes(ms, id) <==> Completes(ns, id))
    && (forall id :: Expires(ms, id) <==> Expires(ns, id))
    && (forall e :: Cancels(ms, e) <==> Cancels(ns, e))
  }

  /** A booking whose fate depends on which message comes first. */
  predicate Contested(d: Tables, ms: seq<Message>, id: nat) {
    && IsPending(d, id)
    && Live(d.events, d.bookings[id].event)
    && Completes(ms, id) && Expires(ms, id)
    && !Cancels(ms, d.bookings[id].event)
  }

  /** Does a booking still own its seats after the messages? Said of the set of messages only. */
  predicate KeepsSeats(b: BookingStatus, live: bool, id: nat, e: nat, ms: seq<Message>) {
    && OwnsSeats(b)
    && !Cancels(ms, e)
    && (b.Pending? ==> !Expires(ms, id) && (Completes(ms, id) ==> live))
  }

  /** Splitting off the first message. */
  lemma FirstNews(ms: seq<Message>, id: nat, e: nat)
    requires ms != []
    ensures Completes(ms, id) <==> (ms[0].PaymentCompleted? && ms[0].booking == id) || Completes(ms[1..], id)
    ensures Expires(ms, id) <==> (ms[0].PaymentExpired? && ms[0].booking == id) || Expires(ms[1..], id)
    ensures Cancels(ms, e) <==> ms[0] == Message.EventCancelled(e) || Cancels(ms[1..], e)
  {
    assert forall i :: 0 < i < |ms| ==> ms[i] == ms[1..][i - 1];
    assert forall i :: 0 <= i < |ms| - 1 ==> ms[1..][i] == ms[i + 1];
  }

  /** A settled booking never owns seats again. */
  lemma {:induction false} SettledForGood(b: BookingStatus, live: bool, id: nat, e: nat, ms: seq<Message>)
    requires !OwnsSeats(b)
    ensures ReactAll(b, live, id, e, ms) == b
    decreases |ms|
  {
    if ms != [] {
      SettledForGood(b, live, id, e, ms[1..]);
    }
  }

  /** A confirmed booking owns its seats until its event is cancelled. */
  lemma {:induction false} ConfirmedKeeps(live: bool, id: nat, e: nat, ms: seq<Message>)
    ensures ReactAll(Confirmed, live, id, e, ms) == if Cancels(ms, e) then Cancelled else Confirmed
    decreases |ms|
  {
    if ms != [] {
      FirstNews(ms, id, e);
      if ms[0] == Message.EventCancelled(e) {
        SettledForGood(Cancelled, live, id, e, ms[1..]);
      } else {
        ConfirmedKeeps(live, id, e, ms[1..]);
      }
    }
  }

  /** Bookings that own the same seats add up to the same seats. */
  lemma SameOwners(a: map<nat, Booking>, b: map<nat, Booking>, t: nat)
    requires a.Keys == b.Keys
    requires forall id :: id in a ==>
      a[id].items == b[id].items && (OwnsSeats(a[id].status) <==> OwnsSeats(b[id].status))
    ensures OwnedSeats(a, t) == OwnedSeats(b, t)
  {
    SumMonotone(a, OwnedBy(t), b, OwnedBy(t));
    SumMonotone(b, OwnedBy(t), a, OwnedBy(t));
  }

  lemma SameOwnersSameCounters(d: Tables, u: Tables, v: Tables)
    requires GivesBack(d, u) && GivesBack(d, v)
    requires forall id :: id in d.bookings ==> (OwnsSeats(u.bookings[id].status) <==> OwnsSeats(v.bookings[id].status))
    ensures u.types == v.types
  {
    hide OwnedSeats, Returned;
    forall t ensures OwnedSeats(u.bookings, t) == OwnedSeats(v.bookings, t) {
      SameOwners(u.bookings, v.bookings, t);
    }
    SameOwnedSameReturned(d.types, d.bookings, u.bookings, v.bookings);
  }

  lemma SameOwnedSameReturned(
    types: map<nat, TicketType>, before: map<nat, Booking>, a: map<nat, Booking>, b: map<nat, Booking>)
    requires forall t :: OwnedSeats(a, t) == OwnedSeats(b, t)
    ensures Returned(types, before, a) == Returned(types, before, b)
  {
    hide OwnedSeats;
  }

  /** No counter is near its cap: the seats of every booking fit back. */
  ghost predicate Roomy(d: Tables) {
    forall t :: t in d.types ==> d.types[t].available + OwnedSeats(d.bookings, t) <= d.types[t].quantity
  }

  /** Every booking owns at least one seat of a known type. */
  predicate Weighty(d: Tables) {
    forall id :: id in d.bookings ==>
      var items := d.bookings[id].items;
      |items| > 0 && items[0].quantity > 0 && items[0].ticketType in d.types
  }

  /** A message put in front of messages that already say the same is no news. */
  lemma NoNews(ms: seq<Message>, m: Message)
    requires m.PaymentCompleted? ==> Completes(ms, m.booking)
    requires m.PaymentExpired? ==> Expires(ms, m.booking)
    requires !m.EventCancelled?
    ensures SameNews(ms, [m] + ms)
  {
    assert ([m] + ms)[1..] == ms;
    forall id ensures Completes(ms, id) <==> Completes([m] + ms, id) { FirstNews([m] + ms, id, 0); }
    forall id ensures Expires(ms, id) <==> Expires([m] + ms, id) { FirstNews([m] + ms, id, 0); }
    forall e ensures Cancels(ms, e) <==> Cancels([m] + ms, e) { FirstNews([m] + ms, 0, e); }
  }

  /** Deliver a contested booking's completed message first, or its expired message first:
      the two orders leave different counters. */
  lemma ContestChangesCounters(d: Tables, ms: seq<Message>, id: nat, c: Message, x: Message)
    requires Capped(d.types) && Roomy(d) && Weighty(d) && Contested(d, ms, id)
    requires c.PaymentCompleted? && c.booking == id && x.PaymentExpired? && x.booking == id
    ensures HandleAll(d, [c] + ms).types != HandleAll(d, [x] + ms).types
  {
    hide Capped, Roomy, Weighty;
    var u, v := HandleAll(d, [c] + ms), HandleAll(d, [x] + ms);
    ContestSplits(d, ms, id, c, x);
    assert GivesBack(d, u) && GivesBack(d, v) by {
      HandleAllGivesBack(d, [c] + ms);
      HandleAllGivesBack(d, [x] + ms);
    }
    hide HandleAll, GivesBack, Contested;
    SplitOwnersSplitCounters(d, u, v, id);
  }

  lemma ContestSplits(d: Tables, ms: seq<Message>, id: nat, c: Message, x: Message)
    requires Capped(d.types) && Contested(d, ms, id)
    requires c.PaymentCompleted? && c.booking == id && x.PaymentExpired? && x.booking == id
    ensures Split(d, HandleAll(d, [c] + ms), HandleAll(d, [x] + ms), id)
  {
    hide HandleAll, Capped, Completes, Expires, Cancels;
    var row := d.bookings[id];
    var live := Live(d.events, row.event);
    assert ([c] + ms)[1..] == ms && ([x] + ms)[1..] == ms;
    assert SameRows(d, HandleAll(d, [c] + ms)) && SameRows(d, HandleAll(d, [x] + ms)) by {
      HandleAllGivesBack(d, [c] + ms);
      HandleAllGivesBack(d, [x] + ms);
    }
    HandleAllGivesBack(d, [c] + ms);
    HandleAllGivesBack(d, [x] + ms);
    ConfirmedKeeps(live, id, row.event, ms);
    SettledForGood(Expired, live, id, row.event, ms);
  }

  /** u and v differ in one booking: it owns its seats in u and not in v. */
  ghost predicate Split(d: Tables, u: Tables, v: Tables, id: nat) {
    && SameRows(d, u) && SameRows(d, v) && id in d.bookings
    && OwnsSeats(u.bookings[id].status) && !OwnsSeats(v.bookings[id].status)
    && (forall j :: j in d.bookings && j != id ==> u.bookings[j].status == v.bookings[j].status)
  }

  lemma SplitOwnersSplitCounters(d: Tables, u: Tables, v: Tables, id: nat)
    requires GivesBack(d, u) && GivesBack(d, v) && Split(d, u, v, id)
    requires Roomy(d) && Weighty(d)
    ensures u.types != v.types
  {
    hide Returned, Seats, Sum;
    var items := d.bookings[id].items;
    var t := items[0].ticketType;
    OwnersDiffer(d, u, v, id, t);
    SeatsFirst(items, t);
    SumBoundsTerm(v.bookings, OwnedBy(t));
    hide Split, SameRows, OwnedBy, Weighty;
    FewerOwnedMoreReturned(d, u, v, t);
  }

  lemma FewerOwnedMoreReturned(d: Tables, u: Tables, v: Tables, t: nat)
    requires u.types == Returned(d.types, d.bookings, u.bookings) &&
      v.types == Returned(d.types, d.bookings, v.bookings)
    requires Roomy(d) && t in d.types
    requires 0 <= OwnedSeats(v.bookings, t) < OwnedSeats(u.bookings, t)
    ensures u.types != v.types
  {
    hide OwnedSeats;
    assert u.types[t].available < v.types[t].available;
  }

  lemma OwnersDiffer(d: Tables, u: Tables, v: Tables, id: nat, t: nat)
    requires Split(d, u, v, id)
    ensures OwnedSeats(u.bookings, t) == OwnedSeats(v.bookings, t) + Seats(d.bookings[id].items, t)
  {
    SumUpdate(v.bookings, OwnedBy(t), id, u.bookings[id]);
    assert v.bookings[id := u.bookings[id]] == u.bookings;
  }
}
