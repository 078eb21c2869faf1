/** The seat ledger: where the seats of a ticket type are, in every interleaving. */
module SeatLedger {
  import opened Sums
  import opened TicketingTables
  import opened TicketingSteps
  import opened TicketingShape

  /** The items whose seats a Reserve call has taken and is still answerable for. */
  function Held(p: Phase): seq<Item> {
    match p
    case Taking(_, _, items, taken, _) => if taken <= |items| then items[..taken] else []
    case Undoing(items, failed, undone) => if undone <= failed <= |items| then items[undone..failed] else []
    case Returning(items, returned, backed) => if backed && returned <= |items| then items[returned..] else []
    case _ => []
  }

  ghost function HeldBy(t: nat): Reserve -> int {
    (r: Reserve) => Seats(Held(r.phase), t)
  }

  ghost function LeakedBy(t: nat): Reserve -> int {
    (r: Reserve) => Seats(r.leaked, t)
  }

  ghost function ExtraBy(t: nat): Reserve -> int {
    (r: Reserve) => Seats(r.extra, t)
  }

  /** Seats of pending and confirmed bookings. */
  ghost function Owned(s: State, t: nat): int { OwnedSeats(s.bookings, t) }

  /** Seats held by Reserve calls in flight. */
  ghost function InFlight(s: State, t: nat): int { Sum(s.reserves, HeldBy(t)) }

  /** Seats taken by Reserve calls that ended without giving them back. */
  ghost function Leaked(s: State, t: nat): int { Sum(s.reserves, LeakedBy(t)) }

  /** Seats given back by a rollback although the booking row was not removed. */
  ghost function Unbacked(s: State, t: nat): int { Sum(s.reserves, ExtraBy(t)) }

  /** The seats a type has to give: none before its event is approved. */
  function Supply(s: State, t: nat): nat
    requires t in s.types
  {
    if TypeOpen(s, t) then s.types[t].quantity else 0
  }

  ghost function Accounted(s: State, t: nat): int
    requires t in s.types
  {
    s.types[t].available + Owned(s, t) + InFlight(s, t) + Leaked(s, t)
  }

  /** The seats that have vanished: those to give and those created by unbacked rollbacks, less those
      accounted for. */
  ghost function Gap(s: State, t: nat): int
    requires t in s.types
  {
    Supply(s, t) + Unbacked(s, t) - Accounted(s, t)
  }

  /** Seats vanish only where an unbacked rollback has created some. */
  ghost predicate Balanced(s: State, t: nat)
    requires t in s.types
  {
    Gap(s, t) >= 0 && (Unbacked(s, t) == 0 ==> Gap(s, t) == 0)
  }

  ghost predicate Ledger(s: State) {
    forall t :: t in s.types ==> Balanced(s, t)
  }

  /** Of n seats given back to a counter, those that LEAST cuts off. */
  function Over(row: TicketType, n: nat): nat {
    if row.available + n > row.quantity then row.available + n - row.quantity else 0
  }

  /** From s to u, where the seats of some items were given back, exactly those seats vanish that
      LEAST cuts off. */
  ghost predicate Cuts(s: State, u: State, items: seq<Item>) {
    && u.types.Keys == s.types.Keys
    && forall t :: t in s.types ==> Gap(u, t) == Gap(s, t) + Over(s.types[t], Seats(items, t))
  }

  ghost predicate CountersSound(s: State) {
    forall t :: t in s.types ==> Sound(s.types[t])
  }

  lemma SumsAreNatural(s: State, t: nat)
    ensures Owned(s, t) >= 0 && InFlight(s, t) >= 0 && Leaked(s, t) >= 0 && Unbacked(s, t) >= 0
    ensures forall r :: r in s.reserves ==> Seats(Held(s.reserves[r].phase), t) <= InFlight(s, t)
    ensures forall id :: id in s.bookings && OwnsSeats(s.bookings[id].status) ==>
      Seats(s.bookings[id].items, t) <= Owned(s, t)
  {
    SumBoundsTerm(s.bookings, OwnedBy(t));
    SumBoundsTerm(s.reserves, HeldBy(t));
    SumBoundsTerm(s.reserves, LeakedBy(t));
    SumBoundsTerm(s.reserves, ExtraBy(t));
    forall r | r in s.reserves ensures Seats(Held(s.reserves[r].phase), t) <= InFlight(s, t) {
      assert HeldBy(t)(s.reserves[r]) <= Sum(s.reserves, HeldBy(t));
    }
    forall id | id in s.bookings && OwnsSeats(s.bookings[id].status)
      ensures Seats(s.bookings[id].items, t) <= Owned(s, t)
    {
      assert OwnedBy(t)(s.bookings[id]) <= Sum(s.bookings, OwnedBy(t));
    }
  }

  /** The effect on the sums of changing one Reserve call. */
  lemma ReserveDelta(s: State, u: State, r: nat, x: Reserve, t: nat)
    requires r in s.reserves && u.reserves == s.reserves[r := x]
    ensures InFlight(u, t) == InFlight(s, t) + Seats(Held(x.phase), t) - Seats(Held(s.reserves[r].phase), t)
    ensures Leaked(u, t) == Leaked(s, t) + Seats(x.leaked, t) - Seats(s.reserves[r].leaked, t)
    ensures Unbacked(u, t) == Unbacked(s, t) + Seats(x.extra, t) - Seats(s.reserves[r].extra, t)
  {
    SumUpdate(s.reserves, HeldBy(t), r, x);
    SumUpdate(s.reserves, LeakedBy(t), r, x);
    SumUpdate(s.reserves, ExtraBy(t), r, x);
  }

  /** The effect on the sums of changing one booking row. */
  lemma BookingDelta(s: State, u: State, id: nat, row: Booking, t: nat)
    requires u.bookings == s.bookings[id := row]
    ensures Owned(u, t) == Owned(s, t) + OwnedBy(t)(row) - (if id in s.bookings then OwnedBy(t)(s.bookings[id]) else 0)
  {
    SumUpdate(s.bookings, OwnedBy(t), id, row);
  }

  /** Seats of one type in one item. */
  function Of(item: Item, t: nat): nat {
    if item.ticketType == t then item.quantity else 0
  }

  lemma SeatsOfOne(item: Item, t: nat)
    ensures Seats([item], t) == Of(item, t)
  {
    assert [item][..0] == [];
  }

  /** Moving seats between a Reserve call's hold and its leak, or nowhere. */
  lemma ShuffleCutsNothing(s: State, u: State, r: nat)
    requires CountersSound(s) && r in s.reserves && r in u.reserves
    requires u.reserves == s.reserves[r := u.reserves[r]] && u.bookings == s.bookings
    requires u.types == s.types && u.events == s.events
    requires u.reserves[r].extra == s.reserves[r].extra
    requires forall t :: t in s.types ==>
      Seats(Held(u.reserves[r].phase), t) + Seats(u.reserves[r].leaked, t) ==
      Seats(Held(s.reserves[r].phase), t) + Seats(s.reserves[r].leaked, t)
    ensures Cuts(s, u, [])
  {
    forall t | t in u.types ensures Gap(u, t) == Gap(s, t) {
      ReserveDelta(s, u, r, u.reserves[r], t);
    }
  }

  /** Taking seats for an item. */
  lemma TakeCutsNothing(s: State, u: State, r: nat, item: Item)
    requires CountersSound(s) && r in s.reserves && r in u.reserves
    requires CanTake(s.types, item.ticketType, item.quantity)
    requires u.reserves == s.reserves[r := u.reserves[r]] && u.bookings == s.bookings && u.events == s.events
    requires u.types == Take(s.types, item.ticketType, item.quantity)
    requires u.reserves[r].extra == s.reserves[r].extra && u.reserves[r].leaked == s.reserves[r].leaked
    requires forall t :: t in s.types ==>
      Seats(Held(u.reserves[r].phase), t) == Seats(Held(s.reserves[r].phase), t) + Of(item, t)
    ensures Cuts(s, u, [])
  {
    forall t | t in u.types ensures Gap(u, t) == Gap(s, t) {
      ReserveDelta(s, u, r, u.reserves[r], t);
    }
  }

  /** Giving back the seats of an item, which the call holds, or which a surviving booking row
      stands for. */
  lemma GiveCuts(s: State, u: State, r: nat, item: Item)
    requires CountersSound(s) && r in s.reserves && r in u.reserves
    requires u.reserves == s.reserves[r := u.reserves[r]] && u.bookings == s.bookings && u.events == s.events
    requires u.types == Release(s.types, item.ticketType, item.quantity)
    requires u.reserves[r].leaked == s.reserves[r].leaked
    requires forall t :: t in s.types ==>
      Seats(Held(s.reserves[r].phase), t) - Seats(Held(u.reserves[r].phase), t) +
      Seats(u.reserves[r].extra, t) - Seats(s.reserves[r].extra, t) == Of(item, t)
    ensures Cuts(s, u, [item])
  {
    forall t | t in u.types ensures Gap(u, t) == Gap(s, t) + Over(s.types[t], Seats([item], t)) {
      SeatsOfOne(item, t);
      ReserveDelta(s, u, r, u.reserves[r], t);
    }
  }

  /** A transition to a final status gives back exactly the seats the booking owned. */
  lemma TransitionCuts(s: State, id: nat, snap: Booking, to: BookingStatus)
    requires CountersSound(s) && Known(s, id, snap) && OwnsSeats(snap.status) && !OwnsSeats(to)
    ensures Cuts(s, Transition(s, id, snap, to), Settled(s, id, snap))
  {
    var u := Transition(s, id, snap, to);
    if id in s.bookings && s.bookings[id].status == snap.status {
      ReleaseAllAdds(s.types, snap.items);
      forall t | t in u.types ensures Gap(u, t) == Gap(s, t) + Over(s.types[t], Seats(snap.items, t)) {
        BookingDelta(s, u, id, u.bookings[id], t);
      }
    }
  }

  /** The items whose seats a transition gives back. */
  function Settled(s: State, id: nat, snap: Booking): seq<Item> {
    if id in s.bookings && s.bookings[id].status == snap.status then snap.items else []
  }

  lemma SameSeatsCutNothing(s: State, u: State)
    requires CountersSound(s) && u.bookings == s.bookings && u.reserves == s.reserves
    requires u.types == s.types && u.events == s.events
    ensures Cuts(s, u, [])
  {
  }

  lemma SameTotals(s: State, u: State, v: State, items: seq<Item>)
    requires Cuts(s, u, items) && v.bookings == u.bookings && v.reserves == u.reserves
    requires v.types == u.types && v.events == u.events
    ensures Cuts(s, v, items)
  {
  }

  lemma StartReserveCutsNothing(s: State, u: State, r: nat, x: Reserve)
    requires CountersSound(s) && r !in s.reserves && u == s.(reserves := s.reserves[r := x])
    requires Held(x.phase) == [] && x.leaked == [] && x.extra == []
    ensures Cuts(s, u, [])
  {
    forall t | t in u.types ensures Gap(u, t) == Gap(s, t) {
      SumUpdate(s.reserves, HeldBy(t), r, x);
      SumUpdate(s.reserves, LeakedBy(t), r, x);
      SumUpdate(s.reserves, ExtraBy(t), r, x);
    }
  }

  /** Seats of a slice, taking its first item apart. */
  lemma SliceFirst(items: seq<Item>, lo: nat, hi: nat, t: nat)
    requires lo < hi <= |items|
    ensures Seats(items[lo..hi], t) == Seats(items[lo + 1..hi], t) + Of(items[lo], t)
  {
    var slice := items[lo..hi];
    assert slice[1..] == items[lo + 1..hi];
    SeatsFirst(slice, t);
  }

  /*** Steps of Reserve ***/

  /** Steps that move a Reserve call along without touching a counter or a booking. */
  lemma PaperworkCutsNothing(s: State, b: Buyer)
    requires CountersSound(s) && BuyerEnabled(s, b) && b.r in s.reserves && PhaseOk(s, s.reserves[b.r].phase)
    requires b.PriceOk? || b.SeatsFail? || b.CreateFails? || b.PaymentOk? || b.PaymentFails? || b.DeleteFails?
    ensures Cuts(s, ApplyBuyer(s, b), [])
  {
    hide Seats;
    var u, p := ApplyBuyer(s, b), s.reserves[b.r].phase;
    if b.SeatsFail? { assert p.items[0..p.taken] == p.items[..p.taken]; }
    if b.CreateFails? { assert p.items[0..] == p.items[..|p.items|]; }
    assert Held(u.reserves[b.r].phase) == Held(p);
    ShuffleCutsNothing(s, u, b.r);
  }

  lemma PriceFailsCutsNothing(s: State, r: nat)
    requires CountersSound(s) && BuyerEnabled(s, PriceFails(r))
    ensures Cuts(s, ApplyBuyer(s, PriceFails(r)), [])
  {
    var u, x := ApplyBuyer(s, PriceFails(r)), s.reserves[r];
    forall t ensures Seats(u.reserves[r].leaked, t) == Seats(x.leaked, t) + Seats(Held(x.phase), t) {
      SeatsConcat(x.leaked, Held(x.phase), t);
    }
    ShuffleCutsNothing(s, u, r);
  }

  lemma UndoStopsCutsNothing(s: State, r: nat)
    requires CountersSound(s) && BuyerEnabled(s, UndoStops(r))
    ensures Cuts(s, ApplyBuyer(s, UndoStops(r)), [])
  {
    var u, x := ApplyBuyer(s, UndoStops(r)), s.reserves[r];
    forall t ensures Seats(u.reserves[r].leaked, t) == Seats(x.leaked, t) + Seats(Held(x.phase), t) {
      SeatsConcat(x.leaked, Held(x.phase), t);
    }
    ShuffleCutsNothing(s, u, r);
  }

  lemma UndoShrinksHeld(p: Phase, t: nat)
    requires p.Undoing? && p.undone < p.failed <= |p.items|
    ensures Seats(Held(p), t) == Seats(Held(p.(undone := p.undone + 1)), t) + Of(p.items[p.undone], t)
  {
    SliceFirst(p.items, p.undone, p.failed, t);
  }

  lemma UndoFailsCutsNothing(s: State, r: nat)
    requires CountersSound(s) && BuyerEnabled(s, UndoFails(r))
    ensures Cuts(s, ApplyBuyer(s, UndoFails(r)), [])
  {
    hide Seats, Held;
    var u, x := ApplyBuyer(s, UndoFails(r)), s.reserves[r];
    forall t
      ensures Seats(Held(u.reserves[r].phase), t) + Seats(u.reserves[r].leaked, t) ==
        Seats(Held(x.phase), t) + Seats(x.leaked, t)
    {
      UndoShrinksHeld(x.phase, t);
      SeatsAppend(x.leaked, x.phase.items[x.phase.undone], t);
    }
    ShuffleCutsNothing(s, u, r);
  }

  lemma UndoOneCuts(s: State, r: nat)
    requires CountersSound(s) && BuyerEnabled(s, UndoOne(r))
    ensures Cuts(s, ApplyBuyer(s, UndoOne(r)), [s.reserves[r].phase.items[s.reserves[r].phase.undone]])
  {
    hide Seats, Held;
    var p := s.reserves[r].phase;
    forall t
      ensures Seats(Held(p), t) == Seats(Held(p.(undone := p.undone + 1)), t) + Of(p.items[p.undone], t)
    {
      UndoShrinksHeld(p, t);
    }
    GiveCuts(s, ApplyBuyer(s, UndoOne(r)), r, p.items[p.undone]);
  }

  lemma TakeExtendsHeld(p: Phase, t: nat)
    requires p.Taking? && p.taken < |p.items|
    ensures Seats(Held(p.(taken := p.taken + 1, priced := false)), t) == Seats(Held(p), t) + Of(p.items[p.taken], t)
  {
    assert p.items[..p.taken + 1] == p.items[..p.taken] + [p.items[p.taken]];
    SeatsAppend(p.items[..p.taken], p.items[p.taken], t);
  }

  lemma TakeStepCutsNothing(s: State, r: nat)
    requires CountersSound(s) && BuyerEnabled(s, TakeSeats(r))
    ensures Cuts(s, TakeStep(s, r, s.reserves[r].phase), [])
  {
    hide Seats, Held;
    var p := s.reserves[r].phase;
    forall t
      ensures Seats(Held(p.(taken := p.taken + 1, priced := false)), t) == Seats(Held(p), t) + Of(p.items[p.taken], t)
    {
      TakeExtendsHeld(p, t);
    }
    TakeCutsNothing(s, TakeStep(s, r, p), r, p.items[p.taken]);
  }

  /** Creating the booking row hands the seats from the call to the row. */
  lemma CreateCutsNothing(s: State, r: nat, id: nat)
    requires CountersSound(s) && BuyerEnabled(s, CreateBooking(r, id)) && id !in s.bookings
    ensures Cuts(s, CreateStep(s, r, s.reserves[r].phase, id), [])
  {
    var p := s.reserves[r].phase;
    var u := CreateStep(s, r, p, id);
    assert Held(p) == p.items;
    var x := u.reserves[r];
    assert Held(x.phase) == [] && x.leaked == s.reserves[r].leaked && x.extra == s.reserves[r].extra;
    forall t | t in u.types ensures Gap(u, t) == Gap(s, t) {
      ReserveDelta(s, u, r, x, t);
      BookingDelta(s, u, id, u.bookings[id], t);
    }
  }

  /** Deleting the booking row hands them back. */
  lemma DeletedCutsNothing(s: State, r: nat)
    requires CountersSound(s) && BuyerEnabled(s, DeleteBooking(r)) && PhaseOk(s, s.reserves[r].phase)
    requires Deletable(s, s.reserves[r].phase.booking)
    ensures Cuts(s, DeleteStep(s, r, s.reserves[r].phase), [])
  {
    var p := s.reserves[r].phase;
    var u := DeleteStep(s, r, p);
    var x := u.reserves[r];
    assert p.items[0..] == p.items;
    assert Held(x.phase) == p.items && x.leaked == s.reserves[r].leaked && x.extra == s.reserves[r].extra;
    forall t | t in u.types ensures Gap(u, t) == Gap(s, t) {
      ReserveDelta(s, u, r, x, t);
      SumRemove(s.bookings, OwnedBy(t), p.booking);
    }
  }

  lemma DeleteCutsNothing(s: State, r: nat)
    requires CountersSound(s) && BuyerEnabled(s, DeleteBooking(r)) && PhaseOk(s, s.reserves[r].phase)
    ensures Cuts(s, DeleteStep(s, r, s.reserves[r].phase), [])
  {
    if Deletable(s, s.reserves[r].phase.booking) {
      DeletedCutsNothing(s, r);
    } else {
      ShuffleCutsNothing(s, DeleteStep(s, r, s.reserves[r].phase), r);
    }
  }

  lemma ReturnShrinksHeld(p: Phase, t: nat)
    requires p.Returning? && p.backed && p.returned < |p.items|
    ensures Seats(Held(p), t) == Seats(Held(p.(returned := p.returned + 1)), t) + Of(p.items[p.returned], t)
  {
    var n := |p.items|;
    SliceFirst(p.items, p.returned, n, t);
    assert p.items[p.returned..n] == p.items[p.returned..] && p.items[p.returned + 1..n] == p.items[p.returned + 1..];
  }

  lemma ReturnMovesSeats(s: State, r: nat, t: nat)
    requires BuyerEnabled(s, ReturnOne(r))
    ensures var x, y := s.reserves[r], ReturnStep(s, r, s.reserves[r].phase).reserves[r];
      Seats(Held(x.phase), t) - Seats(Held(y.phase), t) + Seats(y.extra, t) - Seats(x.extra, t) ==
        Of(x.phase.items[x.phase.returned], t)
  {
    hide Seats;
    var x := s.reserves[r];
    if x.phase.backed {
      ReturnShrinksHeld(x.phase, t);
    } else {
      SeatsAppend(x.extra, x.phase.items[x.phase.returned], t);
    }
  }

  lemma ReturnOneCuts(s: State, r: nat)
    requires CountersSound(s) && BuyerEnabled(s, ReturnOne(r))
    ensures Cuts(s, ReturnStep(s, r, s.reserves[r].phase), [s.reserves[r].phase.items[s.reserves[r].phase.returned]])
  {
    hide Seats, Held;
    var p := s.reserves[r].phase;
    var u := ReturnStep(s, r, p);
    forall t | t in s.types
      ensures var x, y := s.reserves[r], u.reserves[r];
        Seats(Held(x.phase), t) - Seats(Held(y.phase), t) + Seats(y.extra, t) - Seats(x.extra, t) ==
          Of(p.items[p.returned], t)
    {
      ReturnMovesSeats(s, r, t);
    }
    GiveCuts(s, u, r, p.items[p.returned]);
  }

  lemma ReturnChangesAccount(s: State, r: nat, item: Item)
    requires CountersSound(s) && BuyerEnabled(s, ReturnOne(r)) && item.ticketType in s.types
    requires item == s.reserves[r].phase.items[s.reserves[r].phase.returned]
    ensures var u, t := ReturnStep(s, r, s.reserves[r].phase), item.ticketType;
      && t in u.types
      && Accounted(u, t) - Accounted(s, t) ==
           (if s.reserves[r].phase.backed then 0 else item.quantity) - Over(s.types[t], item.quantity)
  {
    hide Seats, Held;
    var u, t := ReturnStep(s, r, s.reserves[r].phase), item.ticketType;
    ReturnOneCuts(s, r);
    SeatsOfOne(item, t);
    ReserveDelta(s, u, r, u.reserves[r], t);
    SeatsAppend(s.reserves[r].extra, item, t);
  }

  lemma FailedReturnMovesSeats(s: State, r: nat, t: nat)
    requires BuyerEnabled(s, ReturnFails(r))
    ensures var x, y := s.reserves[r], ReturnFailsStep(s, r, s.reserves[r].phase).reserves[r];
      Seats(Held(y.phase), t) + Seats(y.leaked, t) == Seats(Held(x.phase), t) + Seats(x.leaked, t)
  {
    hide Seats;
    var x := s.reserves[r];
    if x.phase.backed {
      ReturnShrinksHeld(x.phase, t);
      SeatsAppend(x.leaked, x.phase.items[x.phase.returned], t);
    }
  }

  lemma FailedReturnCutsNothing(s: State, r: nat)
    requires CountersSound(s) && BuyerEnabled(s, ReturnFails(r))
    ensures Cuts(s, ReturnFailsStep(s, r, s.reserves[r].phase), [])
  {
    hide Seats, Held;
    forall t | t in s.types
      ensures var x, y := s.reserves[r], ReturnFailsStep(s, r, s.reserves[r].phase).reserves[r];
        Seats(Held(y.phase), t) + Seats(y.leaked, t) == Seats(Held(x.phase), t) + Seats(x.leaked, t)
    {
      FailedReturnMovesSeats(s, r, t);
    }
    ShuffleCutsNothing(s, ReturnFailsStep(s, r, s.reserves[r].phase), r);
  }

  /** The items whose seats a step of Reserve gives back. */
  function GivenByBuyer(s: State, b: Buyer): seq<Item>
    requires BuyerEnabled(s, b)
  {
    match b
    case UndoOne(r) => [s.reserves[r].phase.items[s.reserves[r].phase.undone]]
    case ReturnOne(r) => [s.reserves[r].phase.items[s.reserves[r].phase.returned]]
    case _ => []
  }

  lemma BuyerPhaseOk(s: State, b: Buyer)
    requires Shape(s) && BuyerEnabled(s, b) && !b.StartReserve?
    ensures PhaseOk(s, s.reserves[b.r].phase) && RowsOk(s) && ReserveOk(s, s.reserves[b.r])
  {
  }

  lemma ShapeIsSound(s: State)
    requires Shape(s)
    ensures CountersSound(s)
  {
  }

  /** Steps that take or give back seats. */
  lemma CountingCuts(s: State, b: Buyer)
    requires CountersSound(s) && BuyerEnabled(s, b)
    requires b.TakeSeats? || b.UndoOne? || b.ReturnOne? || b.ReturnFails?
    ensures Cuts(s, ApplyBuyer(s, b), GivenByBuyer(s, b))
  {
    hide Cuts, CountersSound, Take, Release, CanTake;
    match b
    case TakeSeats(r) => TakeStepCutsNothing(s, r);
    case UndoOne(r) => UndoOneCuts(s, r);
    case ReturnOne(r) => ReturnOneCuts(s, r);
    case ReturnFails(r) => FailedReturnCutsNothing(s, r);
  }

  /** Steps that give up on seats, or write or delete the booking row. */
  lemma RowworkCutsNothing(s: State, b: Buyer)
    requires CountersSound(s) && Shape(s) && BuyerEnabled(s, b)
    requires b.PriceFails? || b.UndoFails? || b.UndoStops? || b.CreateBooking? || b.DeleteBooking?
    ensures Cuts(s, ApplyBuyer(s, b), [])
  {
    BuyerPhaseOk(s, b);
    hide Cuts, CountersSound, PhaseOk, Price;
    match b
    case PriceFails(r) => PriceFailsCutsNothing(s, r);
    case UndoFails(r) => UndoFailsCutsNothing(s, r);
    case UndoStops(r) => UndoStopsCutsNothing(s, r);
    case CreateBooking(r, id) => CreateCutsNothing(s, r, id);
    case DeleteBooking(r) => DeleteCutsNothing(s, r);
  }

  lemma OtherworkCutsNothing(s: State, b: Buyer)
    requires CountersSound(s) && Shape(s) && BuyerEnabled(s, b)
    requires b.PriceOk? || b.SeatsFail? || b.CreateFails? || b.PaymentOk? || b.PaymentFails? || b.DeleteFails?
    ensures Cuts(s, ApplyBuyer(s, b), [])
  {
    hide Cuts, CountersSound, ApplyBuyer;
    BuyerPhaseOk(s, b);
    PaperworkCutsNothing(s, b);
  }

  lemma BuyerCuts(s: State, b: Buyer)
    requires Shape(s) && BuyerEnabled(s, b)
    ensures Cuts(s, ApplyBuyer(s, b), GivenByBuyer(s, b))
  {
    ShapeIsSound(s);
    if b.StartReserve? {
      StartReserveCutsNothing(s, ApplyBuyer(s, b), b.r, ApplyBuyer(s, b).reserves[b.r]);
    } else {
      hide ApplyBuyer, BuyerEnabled, Cuts, Shape, CountersSound;
      if b.TakeSeats? || b.UndoOne? || b.ReturnOne? || b.ReturnFails? {
        CountingCuts(s, b);
      } else if b.PriceFails? || b.UndoFails? || b.UndoStops? || b.CreateBooking? || b.DeleteBooking? {
        RowworkCutsNothing(s, b);
      } else {
        OtherworkCutsNothing(s, b);
      }
    }
  }

  /*** Steps of handlers ***/

  /** The items whose seats a step of a handler gives back. */
  function GivenByDesk(s: State, d: Desk): seq<Item>
    requires DeskEnabled(s, d)
  {
    match d
    case CancelDead(h) => Settled(s, s.handlers[h].booking, s.handlers[h].snap)
    case ExpireBooking(h) => Settled(s, s.handlers[h].booking, s.handlers[h].snap)
    case CancelOne(h) =>
      var row := s.handlers[h].todo[0];
      if OwnsSeats(row.snap.status) then Settled(s, row.booking, row.snap) else []
    case _ => []
  }

  lemma ConfirmCutsNothing(s: State, h: nat)
    requires CountersSound(s) && h in s.handlers && s.handlers[h].ConfirmLive?
    ensures Cuts(s, ConfirmStep(s, h, s.handlers[h]), [])
  {
    var u, x := ConfirmStep(s, h, s.handlers[h]), s.handlers[h];
    if StillPending(s, x.booking) {
      forall t | t in u.types ensures Gap(u, t) == Gap(s, t) {
        BookingDelta(s, u, x.booking, u.bookings[x.booking], t);
      }
    } else {
      SameSeatsCutNothing(s, u);
    }
  }

  lemma SettlingCuts(s: State, d: Desk)
    requires CountersSound(s) && HandlersOk(s) && DeskEnabled(s, d)
    requires d.CancelDead? || d.ExpireBooking? || d.CancelOne?
    ensures Cuts(s, ApplyDesk(s, d), GivenByDesk(s, d))
  {
    var u, x := ApplyDesk(s, d), s.handlers[d.h];
    assert HandlerOk(s, x);
    hide Cuts, Transition, CountersSound, Known;
    match d
    case CancelDead(h) =>
      TransitionCuts(s, x.booking, x.snap, Cancelled);
      SameTotals(s, Transition(s, x.booking, x.snap, Cancelled), u, GivenByDesk(s, d));
    case ExpireBooking(h) =>
      TransitionCuts(s, x.booking, x.snap, Expired);
      SameTotals(s, Transition(s, x.booking, x.snap, Expired), u, GivenByDesk(s, d));
    case CancelOne(h) =>
      var SeenBooking(id, snap) := x.todo[0];
      if OwnsSeats(snap.status) {
        TransitionCuts(s, id, snap, Cancelled);
        SameTotals(s, Transition(s, id, snap, Cancelled), u, GivenByDesk(s, d));
      } else {
        SameSeatsCutNothing(s, u);
      }
  }

  lemma DeskCuts(s: State, d: Desk)
    requires Shape(s) && DeskEnabled(s, d)
    ensures Cuts(s, ApplyDesk(s, d), GivenByDesk(s, d))
  {
    ShapeIsSound(s);
    hide Cuts, CountersSound;
    if d.CancelDead? || d.ExpireBooking? || d.CancelOne? {
      SettlingCuts(s, d);
    } else if d.ConfirmBooking? {
      ConfirmCutsNothing(s, d.h);
    } else {
      DeskReads(s, d);
      hide ApplyDesk;
      SameSeatsCutNothing(s, ApplyDesk(s, d));
    }
  }

  /*** Lifecycle calls ***/

  lemma ReserveHasNoClosedSeats(s: State, x: Reserve, t: nat)
    requires ReserveOk(s, x) && !TypeOpen(s, t)
    ensures Seats(Held(x.phase), t) == 0 && Seats(x.leaked, t) == 0 && Seats(x.extra, t) == 0
  {
    NoSeatsOfClosedType(s, x.leaked, t);
    NoSeatsOfClosedType(s, x.extra, t);
    if x.phase.Undoing? { AllOpenSlice(s, x.phase.items, x.phase.undone, x.phase.failed); }
    NoSeatsOfClosedType(s, Held(x.phase), t);
  }

  /** Before its event is created, a ticket type has no seats anywhere. */
  lemma NewTypeHasNoGap(s: State, u: State, t: nat)
    requires Shape(s) && t !in s.types && t in u.types && u.types[t].available == 0 && !TypeOpen(u, t)
    requires u.bookings == s.bookings && u.reserves == s.reserves
    ensures Gap(u, t) == 0 && Unbacked(u, t) == 0
  {
    forall id | id in u.bookings ensures OwnedBy(t)(u.bookings[id]) == 0 {
      NoSeatsOfClosedType(s, u.bookings[id].items, t);
    }
    forall r | r in u.reserves
      ensures HeldBy(t)(u.reserves[r]) == 0 && LeakedBy(t)(u.reserves[r]) == 0 && ExtraBy(t)(u.reserves[r]) == 0
    {
      ReserveHasNoClosedSeats(s, s.reserves[r], t);
    }
    SumOfZeros(u.bookings, OwnedBy(t));
    SumOfZeros(u.reserves, HeldBy(t));
    SumOfZeros(u.reserves, LeakedBy(t));
    SumOfZeros(u.reserves, ExtraBy(t));
  }

  lemma AdminKeepsGaps(s: State, m: Admin)
    requires Shape(s) && AdminEnabled(s, m)
    ensures var u := ApplyAdmin(s, m);
      forall t :: t in u.types ==>
        if t in s.types then Gap(u, t) == Gap(s, t) && Unbacked(u, t) == Unbacked(s, t)
        else Gap(u, t) == 0 && Unbacked(u, t) == 0
  {
    var u := ApplyAdmin(s, m);
    forall t | t in u.types
      ensures
        if t in s.types then Gap(u, t) == Gap(s, t) && Unbacked(u, t) == Unbacked(s, t)
        else Gap(u, t) == 0 && Unbacked(u, t) == 0
    {
      AdminLeavesTotals(s, m);
      if t in s.types {
        AdminKeepsOldGap(s, m, t);
      } else {
        AdminAddsClosed(s, m, t);
        hide ApplyAdmin;
        NewTypeHasNoGap(s, u, t);
      }
    }
  }

  lemma AdminLeavesTotals(s: State, m: Admin)
    requires AdminEnabled(s, m)
    ensures ApplyAdmin(s, m).bookings == s.bookings && ApplyAdmin(s, m).reserves == s.reserves
  {
  }

  lemma AdminAddsClosed(s: State, m: Admin, t: nat)
    requires AdminEnabled(s, m) && t in ApplyAdmin(s, m).types && t !in s.types
    ensures ApplyAdmin(s, m).types[t].available == 0 && !TypeOpen(ApplyAdmin(s, m), t)
  {
  }

  lemma AdminKeepsOldGap(s: State, m: Admin, t: nat)
    requires Shape(s) && AdminEnabled(s, m) && t in s.types
    ensures t in ApplyAdmin(s, m).types
    ensures Gap(ApplyAdmin(s, m), t) == Gap(s, t) && Unbacked(ApplyAdmin(s, m), t) == Unbacked(s, t)
  {
    hide Sum, Seats;
  }

  /*** All steps ***/

  /** The items whose seats a step gives back. */
  ghost function Given(s: State, a: Action): seq<Item>
    requires Enabled(s, a)
  {
    match a
    case ByBuyer(b) => GivenByBuyer(s, b)
    case ByDesk(d) => GivenByDesk(s, d)
    case _ => []
  }

  /** The seats of type t that LEAST cuts off in a step. */
  ghost function CutAt(s: State, a: Action, t: nat): nat
    requires Enabled(s, a)
  {
    if t in s.types then Over(s.types[t], Seats(Given(s, a), t)) else 0
  }

  /** What a step does to the gap of a type; a new type starts without one. */
  lemma StepCuts(s: State, a: Action, t: nat)
    requires Shape(s) && Enabled(s, a) && t in Apply(s, a).types
    ensures Gap(Apply(s, a), t) == (if t in s.types then Gap(s, t) else 0) + CutAt(s, a, t)
  {
    ShapeIsSound(s);
    hide ApplyBuyer, ApplyDesk, ApplyAdmin, BuyerEnabled, DeskEnabled, AdminEnabled, Gap, Shape;
    match a
    case ByBuyer(b) => BuyerCuts(s, b);
    case ByDesk(d) => DeskCuts(s, d);
    case ByAdmin(m) => AdminKeepsGaps(s, m);
    case MarkDelivered(_) => SameSeatsCutNothing(s, Apply(s, a));
  }

  lemma UnbackedGrows(s: State, a: Action, t: nat)
    requires Shape(s) && Enabled(s, a) && t in Apply(s, a).types
    ensures t in s.types ==> Unbacked(s, t) <= Unbacked(Apply(s, a), t)
    ensures t !in s.types ==> Unbacked(Apply(s, a), t) == 0
  {
    match a
    case ByBuyer(b) => BuyerUnbacks(s, b, t);
    case ByDesk(d) => hide ApplyDesk; DeskLeavesReserves(s, d);
    case ByAdmin(m) => hide ApplyAdmin; AdminKeepsGaps(s, m);
    case MarkDelivered(_) =>
  }

  ghost predicate LeavesReserves(s: State, u: State) {
    u.reserves == s.reserves && u.types.Keys == s.types.Keys
  }

  lemma TransitionLeavesReserves(s: State, id: nat, snap: Booking, to: BookingStatus)
    ensures LeavesReserves(s, Transition(s, id, snap, to))
  {
    hide ReleaseAll;
  }

  lemma SettlingLeavesReserves(s: State, d: Desk)
    requires DeskEnabled(s, d) && (d.CancelDead? || d.ExpireBooking? || d.CancelOne?)
    ensures LeavesReserves(s, ApplyDesk(s, d))
  {
    hide Transition;
    match d
    case CancelDead(h) => TransitionLeavesReserves(s, s.handlers[h].booking, s.handlers[h].snap, Cancelled);
    case ExpireBooking(h) => TransitionLeavesReserves(s, s.handlers[h].booking, s.handlers[h].snap, Expired);
    case CancelOne(h) =>
      TransitionLeavesReserves(s, s.handlers[h].todo[0].booking, s.handlers[h].todo[0].snap, Cancelled);
  }

  lemma ConfirmLeavesReserves(s: State, h: nat)
    requires DeskEnabled(s, ConfirmBooking(h))
    ensures LeavesReserves(s, ApplyDesk(s, ConfirmBooking(h)))
  {
  }

  lemma DeskLeavesReserves(s: State, d: Desk)
    requires DeskEnabled(s, d)
    ensures LeavesReserves(s, ApplyDesk(s, d))
  {
    hide ApplyDesk, DeskEnabled;
    if d.CancelDead? || d.ExpireBooking? || d.CancelOne? {
      SettlingLeavesReserves(s, d);
    } else if d.ConfirmBooking? {
      ConfirmLeavesReserves(s, d.h);
    } else {
      DeskReads(s, d);
    }
  }

  lemma BuyerUnbacks(s: State, b: Buyer, t: nat)
    requires BuyerEnabled(s, b)
    ensures ApplyBuyer(s, b).types.Keys == s.types.Keys
    ensures Unbacked(s, t) <= Unbacked(ApplyBuyer(s, b), t)
  {
    hide Seats, Take, Release, CanTake, Price;
    var u := ApplyBuyer(s, b);
    if b.StartReserve? {
      SumUpdate(s.reserves, ExtraBy(t), b.r, u.reserves[b.r]);
    } else {
      var x := s.reserves[b.r];
      ExtraOnlyGrows(s, b);
      hide ApplyBuyer;
      ReserveDelta(s, u, b.r, u.reserves[b.r], t);
      if u.reserves[b.r].extra != x.extra {
        SeatsAppend(x.extra, x.phase.items[x.phase.returned], t);
      }
    }
  }

  ghost predicate ExtraGrows(s: State, u: State, r: nat)
    requires r in s.reserves
  {
    var x := s.reserves[r];
    && u.types.Keys == s.types.Keys
    && r in u.reserves && u.reserves == s.reserves[r := u.reserves[r]]
    && (u.reserves[r].extra == x.extra ||
        (x.phase.Returning? && x.phase.returned < |x.phase.items| &&
         u.reserves[r].extra == x.extra + [x.phase.items[x.phase.returned]]))
  }

  lemma TakingLeavesExtra(s: State, b: Buyer)
    requires BuyerEnabled(s, b)
    requires b.PriceOk? || b.PriceFails? || b.TakeSeats? || b.SeatsFail? || b.UndoOne? || b.UndoFails? || b.UndoStops?
    ensures ExtraGrows(s, ApplyBuyer(s, b), b.r)
  {
    hide Take, Release, CanTake;
  }

  lemma BookingLeavesExtra(s: State, b: Buyer)
    requires BuyerEnabled(s, b)
    requires b.CreateBooking? || b.CreateFails? || b.PaymentOk? || b.PaymentFails? || b.DeleteFails?
    ensures ExtraGrows(s, ApplyBuyer(s, b), b.r)
  {
    hide Price;
  }

  lemma DeletingLeavesExtra(s: State, b: Buyer)
    requires BuyerEnabled(s, b) && b.DeleteBooking?
    ensures ExtraGrows(s, ApplyBuyer(s, b), b.r)
  {
  }

  lemma ReturningGrowsExtra(s: State, b: Buyer)
    requires BuyerEnabled(s, b) && (b.ReturnOne? || b.ReturnFails?)
    ensures ExtraGrows(s, ApplyBuyer(s, b), b.r)
  {
    hide Release;
  }

  lemma ExtraOnlyGrows(s: State, b: Buyer)
    requires BuyerEnabled(s, b) && !b.StartReserve?
    ensures b.r in s.reserves && ExtraGrows(s, ApplyBuyer(s, b), b.r)
  {
    assert b.r in s.reserves;
    hide ApplyBuyer, BuyerEnabled, ExtraGrows;
    if b.ReturnOne? || b.ReturnFails? {
      ReturningGrowsExtra(s, b);
    } else if b.CreateBooking? || b.CreateFails? || b.PaymentOk? || b.PaymentFails? || b.DeleteFails? {
      BookingLeavesExtra(s, b);
    } else if b.DeleteBooking? {
      DeletingLeavesExtra(s, b);
    } else {
      TakingLeavesExtra(s, b);
    }
  }

  /** Seats given back were owned or held, or are created. */
  lemma BuyerGivesHeld(s: State, b: Buyer, t: nat)
    requires BuyerEnabled(s, b)
    ensures Seats(GivenByBuyer(s, b), t) <= InFlight(s, t) + Unbacked(ApplyBuyer(s, b), t) - Unbacked(s, t)
  {
    BuyerUnbacks(s, b, t);
    SumsAreNatural(s, t);
    if b.UndoOne? {
      UndoGivesHeld(s, b.r, t);
    } else if b.ReturnOne? {
      ReturnGivesHeld(s, b.r, t);
    }
  }

  lemma UndoGivesHeld(s: State, r: nat, t: nat)
    requires BuyerEnabled(s, UndoOne(r))
    ensures Seats(GivenByBuyer(s, UndoOne(r)), t) <= InFlight(s, t)
    ensures Unbacked(ApplyBuyer(s, UndoOne(r)), t) == Unbacked(s, t)
  {
    var p, u := s.reserves[r].phase, ApplyBuyer(s, UndoOne(r));
    hide Held;
    SeatsOfOne(p.items[p.undone], t);
    UndoShrinksHeld(p, t);
    SumsAreNatural(s, t);
    ReserveDelta(s, u, r, u.reserves[r], t);
  }

  lemma ReturnGivesHeld(s: State, r: nat, t: nat)
    requires BuyerEnabled(s, ReturnOne(r))
    ensures Seats(GivenByBuyer(s, ReturnOne(r)), t) <=
      InFlight(s, t) + Unbacked(ApplyBuyer(s, ReturnOne(r)), t) - Unbacked(s, t)
  {
    var p, u := s.reserves[r].phase, ReturnStep(s, r, s.reserves[r].phase);
    hide Held;
    SeatsOfOne(p.items[p.returned], t);
    ReturnMovesSeats(s, r, t);
    SumsAreNatural(s, t);
    ReserveDelta(s, u, r, u.reserves[r], t);
  }

  lemma DeskGivesOwned(s: State, d: Desk, t: nat)
    requires HandlersOk(s) && DeskEnabled(s, d)
    ensures Seats(GivenByDesk(s, d), t) <= Owned(s, t)
  {
    SumsAreNatural(s, t);
    if d.CancelDead? || d.ExpireBooking? || d.CancelOne? {
      assert HandlerOk(s, s.handlers[d.h]);
    }
  }

  lemma AdminLeavesReserves(s: State, m: Admin)
    requires AdminEnabled(s, m)
    ensures ApplyAdmin(s, m).reserves == s.reserves
  {
  }

  lemma GivenWasSomewhere(s: State, a: Action, t: nat)
    requires Shape(s) && Enabled(s, a)
    ensures Seats(Given(s, a), t) <= Owned(s, t) + InFlight(s, t) + Unbacked(Apply(s, a), t) - Unbacked(s, t)
  {
    ShapeHasHandlers(s);
    hide ApplyBuyer, ApplyDesk, ApplyAdmin, BuyerEnabled, DeskEnabled, AdminEnabled, Shape, GivenByBuyer, GivenByDesk;
    SumsAreNatural(s, t);
    match a
    case ByBuyer(b) => BuyerGivesHeld(s, b, t);
    case ByDesk(d) => DeskGivesOwned(s, d, t); DeskLeavesReserves(s, d);
    case ByAdmin(m) => AdminLeavesReserves(s, m);
    case MarkDelivered(_) =>
  }

  lemma ShapeHasHandlers(s: State)
    requires Shape(s)
    ensures HandlersOk(s)
  {
  }

  /** Seats are cut off only where an unbacked rollback has created some. */
  lemma CutNeedsUnbacked(s: State, a: Action, t: nat)
    requires Shape(s) && Enabled(s, a) && t in s.types && t in Apply(s, a).types
    requires Balanced(s, t) && Unbacked(Apply(s, a), t) == 0
    ensures CutAt(s, a, t) == 0
  {
    UnbackedGrows(s, a, t);
    SumsAreNatural(s, t);
    GivenWasSomewhere(s, a, t);
    hide Apply, Enabled, Shape, Given;
  }

  lemma LedgerIsInductive(s: State, a: Action)
    requires Ledger(s) && Shape(s) && Enabled(s, a)
    ensures Ledger(Apply(s, a))
  {
    hide Apply, Enabled, Shape, Gap, Unbacked, CutAt;
    forall t | t in Apply(s, a).types ensures Balanced(Apply(s, a), t) {
      StepCuts(s, a, t);
      UnbackedGrows(s, a, t);
      if t in s.types {
        assert Balanced(s, t);
        UnbackedIsNatural(s, t);
        if Unbacked(Apply(s, a), t) == 0 {
          CutNeedsUnbacked(s, a, t);
        }
      } else {
        NewIsUncut(s, a, t);
      }
    }
  }

  lemma UnbackedIsNatural(s: State, t: nat)
    ensures Unbacked(s, t) >= 0
  {
    SumsAreNatural(s, t);
  }

  lemma NewIsUncut(s: State, a: Action, t: nat)
    requires Enabled(s, a) && t !in s.types
    ensures CutAt(s, a, t) == 0
  {
  }
}
