/** The event lifecycle as code over the ticketing database. */
module EventService {
  import opened Messages
  import opened Sums
  import opened TicketingTables
  import opened TicketingStore
  import T = TicketingSteps
  import H = Handlers

  /** A ticket type as the organizer submits it. */
  datatype NewType = NewType(price: nat, quantity: nat)

  datatype Answer =
    | Accepted
    | NoTicketTypes
    | CapacityExceeded
    | TypeRefused(at: nat)
    | EventNotFound
    | NotApprovable
    | NotCancellable
    | NotCancelled
    | NotOwner

  function Total(kinds: seq<NewType>): nat {
    if kinds == [] then 0 else Total(kinds[..|kinds| - 1]) + kinds[|kinds| - 1].quantity
  }

  /** The ticket_types rows of a new event: no seats are available before its approval. */
  function NewRows(e: nat, kinds: seq<NewType>, ids: seq<nat>): map<nat, TicketType>
    requires |ids| == |kinds|
  {
    if kinds == [] then map[]
    else
      var n := |kinds| - 1;
      NewRows(e, kinds[..n], ids[..n])[ids[n] := TicketType(e, kinds[n].price, kinds[n].quantity, 0)]
  }

  /** The row of a submitted type: no seat is available before the approval. */
  predicate IsRowOf(row: TicketType, e: nat, kind: NewType) {
    row.event == e && row.price == kind.price && row.quantity == kind.quantity && row.available == 0
  }

  predicate AllDistinct(ids: seq<nat>) {
    forall i, j :: 0 <= i < j < |ids| ==> ids[i] != ids[j]
  }

  lemma {:induction false} NewRowsOnly(e: nat, kinds: seq<NewType>, ids: seq<nat>)
    requires |ids| == |kinds|
    ensures forall t :: t in NewRows(e, kinds, ids) ==>
      t in ids && NewRows(e, kinds, ids)[t].event == e && NewRows(e, kinds, ids)[t].available == 0
  {
    if kinds != [] {
      NewRowsOnly(e, kinds[..|kinds| - 1], ids[..|kinds| - 1]);
    }
  }

  /** Every submitted type has its row, with its own price and quantity. */
  lemma {:induction false} NewRowsHave(e: nat, kinds: seq<NewType>, ids: seq<nat>, i: nat)
    requires |ids| == |kinds| && AllDistinct(ids) && i < |kinds|
    ensures ids[i] in NewRows(e, kinds, ids)
    ensures IsRowOf(NewRows(e, kinds, ids)[ids[i]], e, kinds[i])
    decreases |kinds|
  {
    var n := |kinds| - 1;
    if i < n {
      NewRowsHave(e, kinds[..n], ids[..n], i);
    }
  }

  /** The rows hold exactly the quantity that was added up and compared with the capacity. */
  lemma {:induction false} NewRowsHoldTotal(e: nat, kinds: seq<NewType>, ids: seq<nat>)
    requires |ids| == |kinds| && AllDistinct(ids)
    ensures T.Quantities(NewRows(e, kinds, ids)) == Total(kinds)
  {
    if kinds == [] {
      assert NewRows(e, kinds, ids) == map[];
    } else {
      var n := |kinds| - 1;
      NewRowsHoldTotal(e, kinds[..n], ids[..n]);
      NewRowsOnly(e, kinds[..n], ids[..n]);
      assert ids[n] !in ids[..n];
      var row := TicketType(e, kinds[n].price, kinds[n].quantity, 0);
      SumUpdate(NewRows(e, kinds[..n], ids[..n]), T.QuantityOf(), ids[n], row);
    }
  }

  lemma OneRowMore(types: map<nat, TicketType>, e: nat, kinds: seq<NewType>, ids: seq<nat>, i: nat)
    requires |ids| == |kinds| && i < |kinds|
    ensures (types + NewRows(e, kinds[..i], ids[..i]))[ids[i] := TicketType(e, kinds[i].price, kinds[i].quantity, 0)] ==
      types + NewRows(e, kinds[..i + 1], ids[..i + 1])
  {
    assert kinds[..i + 1][..i] == kinds[..i] && ids[..i + 1][..i] == ids[..i];
  }

  lemma {:induction false} TotalGrows(kinds: seq<NewType>, n: nat)
    requires n <= |kinds|
    ensures Total(kinds[..n]) <= Total(kinds)
    decreases |kinds|
  {
    if n == |kinds| {
      assert kinds[..n] == kinds;
    } else {
      var init := kinds[..|kinds| - 1];
      TotalGrows(init, n);
      assert init[..n] == kinds[..n];
    }
  }

  class Service {
    const db: TicketingDb

    constructor (db: TicketingDb)
      ensures this.db == db
    {
      this.db := db;
    }

    method AddUp(kinds: seq<NewType>) returns (total: nat)
      ensures total == Total(kinds)
    {
      total := 0;
      assert kinds[..0] == [];
      for i := 0 to |kinds|
        invariant total == Total(kinds[..i])
      {
        assert kinds[..i + 1][..i] == kinds[..i];
        total := total + kinds[i].quantity;
      }
      assert kinds[..|kinds|] == kinds;
    }

    /** One insert per type, not in a transaction: a refused row leaves the rows before it. */
    method CreateTicketTypes(e: nat, kinds: seq<NewType>, ids: seq<nat>) returns (inserted: nat)
      requires db.Valid() && |ids| == |kinds| && forall i :: 0 <= i < |ids| ==> ids[i] !in db.types
      requires AllDistinct(ids)
      modifies db`types
      ensures db.Valid() && inserted <= |kinds|
      ensures db.types == old(db.types) + NewRows(e, kinds[..inserted], ids[..inserted])
      ensures forall i :: 0 <= i < inserted ==> kinds[i].quantity > 0
      ensures inserted < |kinds| ==> kinds[inserted].quantity == 0
    {
      inserted := 0;
      assert db.types == db.types + NewRows(e, kinds[..0], ids[..0]);
      while inserted < |kinds| && kinds[inserted].quantity > 0
        invariant inserted <= |kinds| && db.Valid()
        invariant db.types == old(db.types) + NewRows(e, kinds[..inserted], ids[..inserted])
        invariant forall i :: 0 <= i < inserted ==> kinds[i].quantity > 0
      {
        var i := inserted;
        OneRowMore(old(db.types), e, kinds, ids, i);
        hide NewRows;
        db.types := db.types[ids[i] := TicketType(e, kinds[i].price, kinds[i].quantity, 0)];
        inserted := i + 1;
      }
    }

    /** Whatever is stored of the event, its ticket types fit the venue. */
    method CreateEvent(e: nat, organizer: nat, capacity: nat, kinds: seq<NewType>, ids: seq<nat>) returns (r: Answer)
      requires db.Valid() && e !in db.events && |ids| == |kinds| && AllDistinct(ids)
      requires forall i :: 0 <= i < |ids| ==> ids[i] !in db.types
      modifies db`events, db`types
      ensures db.Valid()
      ensures r.NoTicketTypes? <==> kinds == []
      ensures r.CapacityExceeded? <==> Total(kinds) > capacity
      ensures r.NoTicketTypes? || r.CapacityExceeded? || r.Accepted? || (r.TypeRefused? && r.at < |kinds|)
      ensures r.NoTicketTypes? || r.CapacityExceeded? ==> db.events == old(db.events) && db.types == old(db.types)
      ensures r.Accepted? || r.TypeRefused? ==>
        var n := if r.Accepted? then |kinds| else r.at;
        var rows := NewRows(e, kinds[..n], ids[..n]);
        && db.events == old(db.events)[e := Event(organizer, capacity, InReview)]
        && db.types == old(db.types) + rows && rows.Keys !! old(db.types).Keys
        && T.Quantities(rows) <= capacity
        && (forall i :: 0 <= i < n ==> ids[i] in db.types && IsRowOf(db.types[ids[i]], e, kinds[i]))
    {
      if |kinds| == 0 {
        return NoTicketTypes;
      }
      var total := AddUp(kinds);
      if total > capacity {
        return CapacityExceeded;
      }
      db.events := db.events[e := Event(organizer, capacity, InReview)];
      var n := CreateTicketTypes(e, kinds, ids);
      NewRowsOnly(e, kinds[..n], ids[..n]);
      NewRowsHoldTotal(e, kinds[..n], ids[..n]);
      TotalGrows(kinds, n);
      forall i | 0 <= i < n ensures ids[i] in db.types && IsRowOf(db.types[ids[i]], e, kinds[i]) {
        NewRowsHave(e, kinds[..n], ids[..n], i);
        assert ids[..n][i] == ids[i] && kinds[..n][i] == kinds[i];
      }
      r := if n == |kinds| then Accepted else TypeRefused(n);
    }

    /** Publishing an event opens the counters of exactly its own ticket types. */
    method ApproveEvent(e: nat) returns (r: Answer)
      requires db.Valid()
      modifies db`events, db`types
      ensures db.Valid()
      ensures r.EventNotFound? <==> e !in old(db.events)
      ensures r.NotApprovable? <==> e in old(db.events) && !old(db.events)[e].status.InReview?
      ensures r.EventNotFound? || r.NotApprovable? || r.Accepted?
      ensures !r.Accepted? ==> db.events == old(db.events) && db.types == old(db.types)
      ensures r.Accepted? ==>
        db.events == old(db.events)[e := old(db.events)[e].(status := Published)] &&
          db.types == T.Open(old(db.types), e)
    {
      if e !in db.events {
        return EventNotFound;
      }
      if !db.events[e].status.InReview? {
        return NotApprovable;
      }
      db.events := db.events[e := db.events[e].(status := Published)];
      OpenTypes(e);
      r := Accepted;
    }

    /** Init and SetPrice for every ticket type of the event; the price is written back as it is. */
    method OpenTypes(e: nat)
      requires db.Valid()
      modifies db`types
      ensures db.Valid() && db.types == T.Open(old(db.types), e)
    {
      var types := db.types;
      var todo := types.Keys;
      while todo != {}
        invariant todo <= types.Keys && db.Valid() && db.types.Keys == types.Keys
        invariant forall t :: t in types ==> db.types[t] == if t in todo then types[t] else T.Open(types, e)[t]
      {
        var t :| t in todo;
        if types[t].event == e {
          db.types := db.types[t := db.types[t].(available := types[t].quantity)];
          db.types := db.types[t := db.types[t].(price := types[t].price)];
        }
        todo := todo - {t};
      }
    }

    method RejectEvent(e: nat) returns (r: Answer)
      requires db.Valid()
      modifies db`events
      ensures db.Valid()
      ensures r.EventNotFound? <==> e !in old(db.events)
      ensures r.Accepted? <==> e in old(db.events) && old(db.events)[e].status.InReview?
      ensures r.EventNotFound? || r.Accepted? || r.NotApprovable?
      ensures db.events ==
        if r.Accepted? then old(db.events)[e := old(db.events)[e].(status := Rejected)] else old(db.events)
    {
      if e !in db.events {
        return EventNotFound;
      }
      if !db.events[e].status.InReview? {
        return NotApprovable;
      }
      db.events := db.events[e := db.events[e].(status := Rejected)];
      r := Accepted;
    }

    /** Only the owner of a published event; lost: the insert of the message fails unnoticed. */
    method CancelEvent(e: nat, user: nat, lost: bool) returns (r: Answer)
      requires db.Valid()
      modifies db`events, db`outbox
      ensures db.Valid()
      ensures r.EventNotFound? <==> e !in old(db.events)
      ensures r.NotCancellable? <==> e in old(db.events) && !old(db.events)[e].status.Published?
      ensures r.NotOwner? <==>
        e in old(db.events) && old(db.events)[e].status.Published? && old(db.events)[e].organizer != user
      ensures r.EventNotFound? || r.NotCancellable? || r.NotOwner? || r.Accepted?
      ensures !r.Accepted? ==> db.events == old(db.events) && db.outbox == old(db.outbox)
      ensures r.Accepted? ==>
        && db.events == old(db.events)[e := old(db.events)[e].(status := CalledOff)] && !H.Live(db.events, e)
        && db.outbox == if lost then old(db.outbox) else Insert(old(db.outbox), Message.EventCancelled(e))
    {
      if e !in db.events {
        return EventNotFound;
      }
      if !db.events[e].status.Published? {
        return NotCancellable;
      }
      if db.events[e].organizer != user {
        return NotOwner;
      }
      db.events := db.events[e := db.events[e].(status := CalledOff)];
      if !lost {
        db.outbox := Insert(db.outbox, Message.EventCancelled(e));
      }
      r := Accepted;
    }

    /** Posts the message again; owner: Some for the organizer's call, None for the admin's. */
    method ReprocessCancellation(e: nat, owner: Option<nat>, lost: bool) returns (r: Answer)
      modifies db`outbox
      ensures r.EventNotFound? <==> e !in db.events
      ensures r.NotCancelled? <==> e in db.events && !db.events[e].status.CalledOff?
      ensures r.NotOwner? <==>
        e in db.events && db.events[e].status.CalledOff? && owner.Some? && owner.value != db.events[e].organizer
      ensures r.EventNotFound? || r.NotCancelled? || r.NotOwner? || r.Accepted?
      ensures db.outbox ==
        if r.Accepted? && !lost then Insert(old(db.outbox), Message.EventCancelled(e)) else old(db.outbox)
    {
      if e !in db.events {
        return EventNotFound;
      }
      if !db.events[e].status.CalledOff? {
        return NotCancelled;
      }
      if owner.Some? && owner.value != db.events[e].organizer {
        return NotOwner;
      }
      if !lost {
        db.outbox := Insert(db.outbox, Message.EventCancelled(e));
      }
      r := Accepted;
    }
  }
}

/** The lifecycle steps of the step system are enabled exactly where the code accepts, and change the
    tables as the code does. */
module UndisturbedEvents {
  import opened Messages
  import opened TicketingTables
  import T = TicketingSteps
  import E = EventService

  lemma CreateAlone(
    s: T.State, e: nat, organizer: nat, capacity: nat, kinds: seq<E.NewType>, ids: seq<nat>)
    requires e !in s.events && |ids| == |kinds| && E.AllDistinct(ids)
    requires forall i :: 0 <= i < |ids| ==> ids[i] !in s.types && kinds[i].quantity > 0
    ensures var a := T.CreateEvent(e, organizer, capacity, E.NewRows(e, kinds, ids));
      && (T.AdminEnabled(s, a) <==> E.Total(kinds) <= capacity)
      && (T.AdminEnabled(s, a) ==>
            T.ApplyAdmin(s, a) == s.(
              events := s.events[e := Event(organizer, capacity, InReview)],
              types := s.types + E.NewRows(e, kinds, ids)))
  {
    var rows := E.NewRows(e, kinds, ids);
    E.NewRowsOnly(e, kinds, ids);
    E.NewRowsHoldTotal(e, kinds, ids);
    hide T.Quantities;
    forall t | t in rows ensures t !in s.types && rows[t].quantity > 0 {
      var i :| 0 <= i < |ids| && ids[i] == t;
      E.NewRowsHave(e, kinds, ids, i);
    }
  }

  lemma ApproveAlone(s: T.State, e: nat)
    ensures T.AdminEnabled(s, T.Approve(e)) <==> e in s.events && s.events[e].status.InReview?
    ensures T.AdminEnabled(s, T.Approve(e)) ==>
      T.ApplyAdmin(s, T.Approve(e)) == s.(
        events := s.events[e := s.events[e].(status := Published)], types := T.Open(s.types, e))
  {
  }

  lemma RejectAlone(s: T.State, e: nat)
    ensures T.AdminEnabled(s, T.Reject(e)) <==> e in s.events && s.events[e].status.InReview?
    ensures T.AdminEnabled(s, T.Reject(e)) ==>
      T.ApplyAdmin(s, T.Reject(e)) == s.(events := s.events[e := s.events[e].(status := Rejected)])
  {
  }

  /** Cancelling is two steps: the status, then the message, unless its insert is lost. */
  lemma CancelAlone(s: T.State, e: nat, user: nat)
    ensures T.AdminEnabled(s, T.CallOff(e, user)) <==>
      e in s.events && s.events[e].status.Published? && s.events[e].organizer == user
    ensures T.AdminEnabled(s, T.CallOff(e, user)) ==>
      var u := T.ApplyAdmin(s, T.CallOff(e, user));
      && u == s.(events := s.events[e := s.events[e].(status := CalledOff)])
      && T.AdminEnabled(u, T.PostCancelled(e))
      && T.ApplyAdmin(u, T.PostCancelled(e)) == u.(outbox := Insert(s.outbox, Message.EventCancelled(e)))
  {
  }

  /** Posting again is enabled exactly for a cancelled event. */
  lemma ReprocessAlone(s: T.State, e: nat)
    ensures T.AdminEnabled(s, T.PostCancelled(e)) <==> e in s.events && s.events[e].status.CalledOff?
  {
  }
}
