/** The ticketing service as a step system.

    Every step is one SQL statement or one SQL transaction. Reserve calls and message
    handlers in flight are processes; handlers carry the booking row they read earlier.
    Any number of them run at once, in any order, and may stop for good at any point.
    Handlers may be started for any booking and any event, any number of times.
 */
module TicketingSteps {
  import opened Messages
  import opened TicketingTables
  import Sums

  datatype Phase =
      // taking the seats of items[taken]; priced: its price has been checked
    | Taking(event: nat, user: nat, items: seq<Item>, taken: nat, priced: bool)
      // items[failed] got no seats: giving back the items before it
    | Undoing(items: seq<Item>, failed: nat, undone: nat)
      // the booking row exists, the payment service is being called
    | Created(booking: nat, items: seq<Item>)
      // the payment call failed: deleting the booking row
    | Deleting(booking: nat, items: seq<Item>)
      // rollbackSeats; backed: no booking row stands for these seats
    | Returning(items: seq<Item>, returned: nat, backed: bool)
    | Done

  /** A Reserve call. History: leaked lists items whose seats it took and will never give back;
      extra lists items it gave back although a booking row stood for them. */
  datatype Reserve = Reserve(phase: Phase, leaked: seq<Item>, extra: seq<Item>)

  datatype Handler =
    | Confirming(booking: nat, snap: Booking)
    | ConfirmLive(booking: nat, snap: Booking)
    | ConfirmDead(booking: nat, snap: Booking)
    | Issuing(booking: nat, snap: Booking, next: nat)
    | Expiring(booking: nat, snap: Booking)
    | Cancelling(todo: seq<SeenBooking>)

  /** What Reserve asks of the payment service. */
  datatype Request = Request(event: nat, user: nat, amount: nat)

  /** cascade says whether deleting a booking may also delete its items. In the shipped schema
      it may not, and since every booking has items, the delete then always fails.
      History: used booking ids, payment requests, bookings ever confirmed, and how many
      times a status transition gave back the seats of a booking. */
  datatype State = State(
    cascade: bool,
    events: map<nat, Event>,
    types: map<nat, TicketType>,
    bookings: map<nat, Booking>,
    outbox: seq<OutboxRow>,
    reserves: map<nat, Reserve>,
    handlers: map<nat, Handler>,
    used: set<nat>,
    requests: map<nat, Request>,
    everConfirmed: set<nat>,
    released: map<nat, nat>)

  function Init(cascade: bool): State {
    State(cascade, map[], map[], map[], [], map[], map[], {}, map[], {}, map[])
  }

  /** Steps of Reserve. */
  datatype Buyer =
    | StartReserve(r: nat, event: nat, user: nat, items: seq<Item>)
    | PriceOk(r: nat)
    | PriceFails(r: nat)
    | TakeSeats(r: nat)
    | SeatsFail(r: nat)
    | UndoOne(r: nat)
    | UndoFails(r: nat)
    | UndoStops(r: nat)
    | CreateBooking(r: nat, booking: nat)
    | CreateFails(r: nat)
    | PaymentOk(r: nat)
    | PaymentFails(r: nat)
    | DeleteBooking(r: nat)
    | DeleteFails(r: nat)
    | ReturnOne(r: nat)
    | ReturnFails(r: nat)

  /** Steps of Confirm, ExpireOnPaymentExpired and CancelBookings. */
  datatype Desk =
    | StartConfirm(h: nat, booking: nat)
    | ReadEvent(h: nat)
    | ConfirmBooking(h: nat)
    | CancelDead(h: nat)
    | IssueOne(h: nat)
    | IssueFails(h: nat)
    | StartExpire(h: nat, booking: nat)
    | ExpireBooking(h: nat)
    | StartCancel(h: nat, event: nat, todo: seq<SeenBooking>)
    | CancelOne(h: nat)
    | Quit(h: nat)

  /** Event lifecycle calls. */
  datatype Admin =
    | CreateEvent(event: nat, organizer: nat, capacity: nat, types: map<nat, TicketType>)
    | Approve(event: nat)
    | Reject(event: nat)
    | CallOff(event: nat, user: nat)
    | PostCancelled(event: nat)

  datatype Action =
    | ByBuyer(b: Buyer)
    | ByDesk(d: Desk)
    | ByAdmin(m: Admin)
    | MarkDelivered(row: nat)

  predicate BuyerEnabled(s: State, b: Buyer) {
    if b.StartReserve? then
      b.r !in s.reserves && b.items != [] && forall i :: 0 <= i < |b.items| ==> b.items[i].quantity > 0
    else
      b.r in s.reserves &&
      var p := s.reserves[b.r].phase;
      match b
      case PriceOk(_) =>
        && p.Taking? && p.taken < |p.items| && !p.priced
        && p.items[p.taken].ticketType in s.types
        && s.types[p.items[p.taken].ticketType].price == p.items[p.taken].unitPrice
      case PriceFails(_) => p.Taking? && p.taken < |p.items| && !p.priced
      case TakeSeats(_) =>
        p.Taking? && p.taken < |p.items| && p.priced &&
          CanTake(s.types, p.items[p.taken].ticketType, p.items[p.taken].quantity)
      case SeatsFail(_) => p.Taking? && p.taken < |p.items| && p.priced
      case UndoOne(_) => p.Undoing? && p.undone < p.failed < |p.items| &&
        p.items[p.undone].ticketType != p.items[p.failed].ticketType
      case UndoFails(_) => p.Undoing? && p.undone < p.failed < |p.items| &&
        p.items[p.undone].ticketType != p.items[p.failed].ticketType
      case UndoStops(_) => p.Undoing? && p.undone <= p.failed < |p.items| &&
        p.items[p.undone].ticketType == p.items[p.failed].ticketType
      case CreateBooking(_, id) => p.Taking? && p.taken == |p.items| && id !in s.used && p.event in s.events
      case CreateFails(_) => p.Taking? && p.taken == |p.items|
      case PaymentOk(_) => p.Created?
      case PaymentFails(_) => p.Created?
      case DeleteBooking(_) => p.Deleting?
      case DeleteFails(_) => p.Deleting?
      case ReturnOne(_) => p.Returning? && p.returned < |p.items|
      case ReturnFails(_) => p.Returning? && p.returned < |p.items|
  }

  /** DELETE FROM bookings WHERE id AND status = 'pending' removes the row. */
  predicate Deletable(s: State, id: nat) {
    id in s.bookings && s.bookings[id].status.Pending? && (s.cascade || s.bookings[id].items == [])
  }

  function Put(s: State, r: nat, p: Phase): State
    requires r in s.reserves
  {
    s.(reserves := s.reserves[r := s.reserves[r].(phase := p)])
  }

  function Leak(s: State, r: nat, p: Phase, items: seq<Item>): State
    requires r in s.reserves
  {
    s.(reserves := s.reserves[r := s.reserves[r].(phase := p, leaked := s.reserves[r].leaked + items)])
  }

  function Give(s: State, item: Item): State {
    s.(types := Release(s.types, item.ticketType, item.quantity))
  }

  /** SeatCounter.Reserve for the next item. */
  function TakeStep(s: State, r: nat, p: Phase): State
    requires r in s.reserves && p.Taking? && p.taken < |p.items|
  {
    Put(s.(types := Take(s.types, p.items[p.taken].ticketType, p.items[p.taken].quantity)), r,
        p.(taken := p.taken + 1, priced := false))
  }

  /** BookingRepo.Create: the booking and its items in one transaction. */
  function CreateStep(s: State, r: nat, p: Phase, id: nat): State
    requires r in s.reserves && p.Taking?
  {
    Put(s, r, Created(id, p.items)).(
      bookings := s.bookings[id := Booking(p.user, p.event, Pending, p.items)],
      used := s.used + {id},
      requests := s.requests[id := Request(p.event, p.user, Price(p.items))])
  }

  /** BookingRepo.Delete; whatever it did, the seats are given back next. */
  function DeleteStep(s: State, r: nat, p: Phase): State
    requires r in s.reserves && p.Deleting?
  {
    if Deletable(s, p.booking) then
      Put(s, r, Returning(p.items, 0, true)).(bookings := s.bookings - {p.booking})
    else
      Put(s, r, Returning(p.items, 0, false))
  }

  /** One release of rollbackSeats. */
  function ReturnStep(s: State, r: nat, p: Phase): State
    requires r in s.reserves && p.Returning? && p.returned < |p.items|
  {
    var x, item := s.reserves[r], p.items[p.returned];
    Give(s, item).(reserves := s.reserves[r := Reserve(
      p.(returned := p.returned + 1), x.leaked, if p.backed then x.extra else x.extra + [item])])
  }

  /** A release of rollbackSeats that fails; its error is ignored. */
  function ReturnFailsStep(s: State, r: nat, p: Phase): State
    requires r in s.reserves && p.Returning? && p.returned < |p.items|
  {
    var x, item := s.reserves[r], p.items[p.returned];
    s.(reserves := s.reserves[r := Reserve(
      p.(returned := p.returned + 1), if p.backed then x.leaked + [item] else x.leaked, x.extra)])
  }

  function ApplyBuyer(s: State, b: Buyer): State
    requires BuyerEnabled(s, b)
  {
    if b.StartReserve? then
      s.(reserves := s.reserves[b.r := Reserve(Taking(b.event, b.user, b.items, 0, false), [], [])])
    else
      var p := s.reserves[b.r].phase;
      match b
      case PriceOk(r) => Put(s, r, p.(priced := true))
      case PriceFails(r) => Leak(s, r, Done, p.items[..p.taken])
      case TakeSeats(r) => TakeStep(s, r, p)
      case SeatsFail(r) => Put(s, r, Undoing(p.items, p.taken, 0))
      case UndoOne(r) => Put(Give(s, p.items[p.undone]), r, p.(undone := p.undone + 1))
      case UndoFails(r) => Leak(s, r, p.(undone := p.undone + 1), [p.items[p.undone]])
      case UndoStops(r) => Leak(s, r, Done, p.items[p.undone..p.failed])
      case CreateBooking(r, id) => CreateStep(s, r, p, id)
      case CreateFails(r) => Put(s, r, Returning(p.items, 0, true))
      case PaymentOk(r) => Put(s, r, Done)
      case PaymentFails(r) => Put(s, r, Deleting(p.booking, p.items))
      case DeleteBooking(r) => DeleteStep(s, r, p)
      case DeleteFails(r) => Put(s, r, Returning(p.items, 0, false))
      case ReturnOne(r) => ReturnStep(s, r, p)
      case ReturnFails(r) => ReturnFailsStep(s, r, p)
  }

  predicate DeskEnabled(s: State, d: Desk) {
    match d
    case StartConfirm(h, id) => h !in s.handlers && id in s.bookings && s.bookings[id].status.Pending?
    case ReadEvent(h) => h in s.handlers && s.handlers[h].Confirming?
    case ConfirmBooking(h) => h in s.handlers && s.handlers[h].ConfirmLive?
    case CancelDead(h) => h in s.handlers && s.handlers[h].ConfirmDead?
    case IssueOne(h) => h in s.handlers && s.handlers[h].Issuing? && s.handlers[h].next < |s.handlers[h].snap.items|
    case IssueFails(h) => h in s.handlers && s.handlers[h].Issuing? && s.handlers[h].next < |s.handlers[h].snap.items|
    case StartExpire(h, id) => h !in s.handlers && id in s.bookings && s.bookings[id].status.Pending?
    case ExpireBooking(h) => h in s.handlers && s.handlers[h].Expiring?
    case StartCancel(h, e, todo) =>
      && h !in s.handlers
      && forall i :: 0 <= i < |todo| ==>
           && todo[i].booking in s.bookings && s.bookings[todo[i].booking] == todo[i].snap
           && todo[i].snap.event == e
    case CancelOne(h) => h in s.handlers && s.handlers[h].Cancelling? && s.handlers[h].todo != []
    case Quit(h) => h in s.handlers
  }

  /** UpdateStatusIfPending applies. */
  predicate StillPending(s: State, id: nat) {
    id in s.bookings && s.bookings[id].status.Pending?
  }

  /** TransitionAndReleaseSeats: guarded by the status seen, atomic with the seat release. */
  function Transition(s: State, id: nat, snap: Booking, to: BookingStatus): State {
    if id in s.bookings && s.bookings[id].status == snap.status then
      s.(bookings := s.bookings[id := s.bookings[id].(status := to)],
         types := ReleaseAll(s.types, snap.items),
         released := s.released[id := (if id in s.released then s.released[id] else 0) + 1])
    else s
  }

  function Assign(s: State, h: nat, x: Handler): State {
    s.(handlers := s.handlers[h := x])
  }

  function Dismiss(s: State, h: nat): State {
    s.(handlers := s.handlers - {h})
  }

  function IsPublished(s: State, e: nat): bool {
    e in s.events && s.events[e].status.Published?
  }

  /** UpdateStatusIfPending to 'confirmed', and the branch taken on its outcome. */
  function ConfirmStep(s: State, h: nat, x: Handler): State
    requires x.ConfirmLive?
  {
    if StillPending(s, x.booking) then
      Assign(s, h, Issuing(x.booking, x.snap, 0)).(
        bookings := s.bookings[x.booking := s.bookings[x.booking].(status := Confirmed)],
        everConfirmed := s.everConfirmed + {x.booking})
    else Dismiss(s, h)
  }

  function ApplyDesk(s: State, d: Desk): State
    requires DeskEnabled(s, d)
  {
    match d
    case StartConfirm(h, id) => Assign(s, h, Confirming(id, s.bookings[id]))
    case ReadEvent(h) =>
      var x := s.handlers[h];
      var live := IsPublished(s, x.snap.event);
      Assign(s, h, if live then ConfirmLive(x.booking, x.snap) else ConfirmDead(x.booking, x.snap))
    case ConfirmBooking(h) => ConfirmStep(s, h, s.handlers[h])
    case CancelDead(h) =>
      var x := s.handlers[h];
      Dismiss(Transition(s, x.booking, x.snap, Cancelled), h)
    case IssueOne(h) =>
      var x := s.handlers[h];
      Assign(s, h, x.(next := x.next + 1)).(outbox := Insert(s.outbox,
        TicketIssued(x.next, x.booking, x.snap.user, x.snap.event, x.snap.items[x.next].ticketType)))
    case IssueFails(h) =>
      var x := s.handlers[h];
      Assign(s, h, x.(next := x.next + 1))
    case StartExpire(h, id) => Assign(s, h, Expiring(id, s.bookings[id]))
    case ExpireBooking(h) =>
      var x := s.handlers[h];
      Dismiss(Transition(s, x.booking, x.snap, Expired), h)
    case StartCancel(h, _, todo) => Assign(s, h, Cancelling(todo))
    case CancelOne(h) =>
      var SeenBooking(id, snap) := s.handlers[h].todo[0];
      var s1 := if OwnsSeats(snap.status) then Transition(s, id, snap, Cancelled) else s;
      Assign(s1, h, Cancelling(s.handlers[h].todo[1..]))
    case Quit(h) => Dismiss(s, h)
  }

  /** Total quantity of a set of ticket types, as CreateEvent adds it up. */
  ghost function Quantities(types: map<nat, TicketType>): int {
    Sums.Sum(types, QuantityOf())
  }

  ghost function QuantityOf(): TicketType -> int {
    (row: TicketType) => row.quantity
  }

  ghost predicate AdminEnabled(s: State, m: Admin) {
    match m
    case CreateEvent(e, _, capacity, types) =>
      && e !in s.events
      && types.Keys !! s.types.Keys
      && (forall t :: t in types ==> types[t].event == e && types[t].quantity > 0 && types[t].available == 0)
      && Quantities(types) <= capacity
    case Approve(e) => e in s.events && s.events[e].status.InReview?
    case Reject(e) => e in s.events && s.events[e].status.InReview?
    case CallOff(e, user) => e in s.events && s.events[e].status.Published? && s.events[e].organizer == user
    case PostCancelled(e) => e in s.events && s.events[e].status.CalledOff?
  }

  /** SeatCounter.Init for every ticket type of an event. */
  function Open(types: map<nat, TicketType>, e: nat): map<nat, TicketType> {
    map t | t in types :: if types[t].event == e then types[t].(available := types[t].quantity) else types[t]
  }

  ghost function ApplyAdmin(s: State, m: Admin): State
    requires AdminEnabled(s, m)
  {
    match m
    case CreateEvent(e, organizer, capacity, types) =>
      s.(events := s.events[e := Event(organizer, capacity, InReview)], types := s.types + types)
    case Approve(e) =>
      s.(events := s.events[e := s.events[e].(status := Published)], types := Open(s.types, e))
    case Reject(e) => s.(events := s.events[e := s.events[e].(status := Rejected)])
    case CallOff(e, _) => s.(events := s.events[e := s.events[e].(status := CalledOff)])
    case PostCancelled(e) => s.(outbox := Insert(s.outbox, Message.EventCancelled(e)))
  }

  ghost predicate Enabled(s: State, a: Action) {
    match a
    case ByBuyer(b) => BuyerEnabled(s, b)
    case ByDesk(d) => DeskEnabled(s, d)
    case ByAdmin(m) => AdminEnabled(s, m)
    case MarkDelivered(row) => row < |s.outbox|
  }

  ghost function Apply(s: State, a: Action): State
    requires Enabled(s, a)
  {
    match a
    case ByBuyer(b) => ApplyBuyer(s, b)
    case ByDesk(d) => ApplyDesk(s, d)
    case ByAdmin(m) => ApplyAdmin(s, m)
    case MarkDelivered(row) => s.(outbox := s.outbox[row := s.outbox[row].(delivered := true)])
  }

  /** A run: a sequence of actions, each enabled where it is taken. */
  ghost predicate Runs(s: State, run: seq<Action>)
    decreases |run|
  {
    run == [] || (Enabled(s, run[0]) && Runs(Apply(s, run[0]), run[1..]))
  }

  /** The state a run ends in. */
  ghost function End(s: State, run: seq<Action>): State
    requires Runs(s, run)
    decreases |run|
  {
    if run == [] then s else End(Apply(s, run[0]), run[1..])
  }

  /** A run can be extended at its end. */
  lemma {:induction false} Extend(s: State, run: seq<Action>, a: Action)
    requires Runs(s, run) && Enabled(End(s, run), a)
    ensures Runs(s, run + [a]) && End(s, run + [a]) == Apply(End(s, run), a)
    decreases |run|
  {
    hide Enabled, Apply;
    if run == [] {
      assert (run + [a])[1..] == [];
    } else {
      assert (run + [a])[1..] == run[1..] + [a];
      Extend(Apply(s, run[0]), run[1..], a);
    }
  }
}
