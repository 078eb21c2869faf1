/** Handlers that interleave: a pool of workers handles messages at the same time, each handler step
    by step and with the rows it read earlier. What decides the seat counters in the end? */
module Interleaving {
  import opened Messages
  import opened TicketingTables
  import opened T = TicketingSteps
  import opened TicketingShape
  import opened Confluence
  import opened Undisturbed
  import H = Handlers

  /*** What a step of a handler does to the tables ***/

  datatype Change = Stay | To(id: nat, status: BookingStatus)

  predicate Guard(s: State, id: nat, snap: Booking) {
    id in s.bookings && s.bookings[id].status == snap.status
  }

  function ChangeOf(s: State, d: Desk): Change
    requires DeskEnabled(s, d)
  {
    match d
    case ConfirmBooking(h) =>
      if StillPending(s, s.handlers[h].booking) then To(s.handlers[h].booking, Confirmed) else Stay
    case CancelDead(h) =>
      if Guard(s, s.handlers[h].booking, s.handlers[h].snap) then To(s.handlers[h].booking, Cancelled) else Stay
    case ExpireBooking(h) =>
      if Guard(s, s.handlers[h].booking, s.handlers[h].snap) then To(s.handlers[h].booking, Expired) else Stay
    case CancelOne(h) =>
      var row := s.handlers[h].todo[0];
      if OwnsSeats(row.snap.status) && Guard(s, row.booking, row.snap) then To(row.booking, Cancelled) else Stay
    case _ => Stay
  }

  ghost predicate Changed(s: State, u: State, c: Change) {
    match c
    case Stay => TablesOf(u) == TablesOf(s)
    case To(id, to) =>
      && id in s.bookings && OwnsSeats(s.bookings[id].status)
      && (to.Confirmed? ==> s.bookings[id].status.Pending? && TablesOf(u) == H.WithStatus(TablesOf(s), id, to))
      && (!to.Confirmed? ==> !OwnsSeats(to) && TablesOf(u) == H.Settle(TablesOf(s), id, to))
  }

  lemma TransitionChanges(s: State, id: nat, snap: Booking, to: BookingStatus)
    requires Known(s, id, snap) && OwnsSeats(snap.status) && !OwnsSeats(to)
    ensures Changed(s, Transition(s, id, snap, to), if Guard(s, id, snap) then To(id, to) else Stay)
  {
    hide ReleaseAll;
  }

  lemma DeskChanges(s: State, d: Desk)
    requires HandlersOk(s) && DeskEnabled(s, d)
    ensures Changed(s, ApplyDesk(s, d), ChangeOf(s, d))
  {
    if d.CancelDead? || d.ExpireBooking? || d.CancelOne? {
      SettlingChanges(s, d);
    } else if d.ConfirmBooking? {
      ConfirmChanges(s, d.h);
    } else {
      hide ApplyDesk;
      DeskReads(s, d);
    }
  }

  lemma ConfirmChanges(s: State, h: nat)
    requires DeskEnabled(s, ConfirmBooking(h))
    ensures Changed(s, ApplyDesk(s, ConfirmBooking(h)), ChangeOf(s, ConfirmBooking(h)))
  {
  }

  lemma SettlingChanges(s: State, d: Desk)
    requires HandlersOk(s) && DeskEnabled(s, d) && (d.CancelDead? || d.ExpireBooking? || d.CancelOne?)
    ensures Changed(s, ApplyDesk(s, d), ChangeOf(s, d))
  {
    var x := s.handlers[d.h];
    assert HandlerOk(s, x);
    hide Transition, Known, Changed;
    match d
    case CancelDead(_) =>
      TransitionChanges(s, x.booking, x.snap, Cancelled);
      SameTables(s, ApplyDesk(s, d), Transition(s, x.booking, x.snap, Cancelled), ChangeOf(s, d));
    case ExpireBooking(_) =>
      TransitionChanges(s, x.booking, x.snap, Expired);
      SameTables(s, ApplyDesk(s, d), Transition(s, x.booking, x.snap, Expired), ChangeOf(s, d));
    case CancelOne(_) =>
      var row := x.todo[0];
      if OwnsSeats(row.snap.status) {
        TransitionChanges(s, row.booking, row.snap, Cancelled);
        SameTables(s, ApplyDesk(s, d), Transition(s, row.booking, row.snap, Cancelled), ChangeOf(s, d));
      } else {
        SameTables(s, ApplyDesk(s, d), s, Stay);
      }
  }

  lemma SameTables(s: State, u: State, v: State, c: Change)
    requires TablesOf(u) == TablesOf(v) && ((v == s && c.Stay?) || Changed(s, v, c))
    ensures Changed(s, u, c)
  {
  }

  /** Seats are only given back, and all of them reach their counters. */
  lemma ChangeGivesBack(s: State, u: State, c: Change)
    requires H.Capped(s.types) && Changed(s, u, c)
    ensures H.GivesBack(TablesOf(s), TablesOf(u)) && H.Capped(u.types)
  {
    var a, b := TablesOf(s), TablesOf(u);
    if c.Stay? {
      H.GivesBackNothing(a);
    } else if c.status.Confirmed? {
      H.StatusGivesBack(a, c.id, Confirmed);
    } else {
      H.SettleGivesBack(a, c.id, c.status);
    }
    H.ReturnedIsCapped(a.types, a.bookings, b.bookings);
  }

  /*** Handling a set of messages ***/

  /** The handler has made its last guarded update. */
  predicate Spent(x: Handler) {
    x.Issuing? || (x.Cancelling? && x.todo == [])
  }

  /** A step of a worker that handles the messages ms: a handler starts only on one of them, a
      cancellation pass lists every booking of its event, and no handler stops before its last
      guarded update. */
  ghost predicate Fair(s: State, a: Action, ms: seq<Message>) {
    && a.ByDesk?
    && (a.d.StartConfirm? ==> Completes(ms, a.d.booking))
    && (a.d.StartExpire? ==> Expires(ms, a.d.booking))
    && (a.d.StartCancel? ==> Cancels(ms, a.d.event) && H.Lists(s.bookings, a.d.event, a.d.todo))
    && (a.d.Quit? ==> a.d.h in s.handlers && Spent(s.handlers[a.d.h]))
  }

  ghost predicate AllFair(s: State, run: seq<Action>, ms: seq<Message>)
    requires Runs(s, run)
    decreases |run|
  {
    run == [] || (Fair(s, run[0], ms) && AllFair(Apply(s, run[0]), run[1..], ms))
  }

  predicate StartsConfirm(run: seq<Action>, id: nat) {
    exists i :: 0 <= i < |run| && run[i].ByDesk? && run[i].d.StartConfirm? && run[i].d.booking == id
  }

  predicate StartsExpire(run: seq<Action>, id: nat) {
    exists i :: 0 <= i < |run| && run[i].ByDesk? && run[i].d.StartExpire? && run[i].d.booking == id
  }

  predicate StartsCancel(run: seq<Action>, e: nat) {
    exists i :: 0 <= i < |run| && run[i].ByDesk? && run[i].d.StartCancel? && run[i].d.event == e
  }

  /** The run handles exactly the messages ms, each at least once, in any order and interleaving:
      a payment message that started no handler found its booking not pending. */
  ghost predicate Handles(s: State, run: seq<Action>, ms: seq<Message>) {
    && Runs(s, run) && AllFair(s, run, ms)
    && var u := End(s, run);
    && (forall h :: h in u.handlers ==> Spent(u.handlers[h]))
    && (forall id :: Completes(ms, id) ==> StartsConfirm(run, id) || !StillPending(u, id))
    && (forall id :: Expires(ms, id) ==> StartsExpire(run, id) || !StillPending(u, id))
    && (forall e :: Cancels(ms, e) ==> StartsCancel(run, e))
  }

  /*** Soundness: every change is explained by a message ***/

  ghost predicate HandlerTold(events: map<nat, Event>, x: Handler, ms: seq<Message>) {
    match x
    case Confirming(id, _) => Completes(ms, id)
    case ConfirmLive(id, snap) => Completes(ms, id) && H.Live(events, snap.event)
    case ConfirmDead(id, snap) => Completes(ms, id) && !H.Live(events, snap.event)
    case Issuing(_, _, _) => true
    case Expiring(id, _) => Expires(ms, id)
    case Cancelling(todo) => forall i :: 0 <= i < |todo| ==> Cancels(ms, todo[i].snap.event)
  }

  /** From status a to status b of booking id of event e. */
  predicate Explained(a: BookingStatus, b: BookingStatus, live: bool, id: nat, e: nat, ms: seq<Message>) {
    || b == a
    || (a.Pending? && b.Confirmed? && live && Completes(ms, id))
    || (a.Pending? && !OwnsSeats(b) && (Expires(ms, id) || (Completes(ms, id) && !live)))
    || (OwnsSeats(a) && b.Cancelled? && Cancels(ms, e))
  }

  ghost predicate HandlersTold(u: State, ms: seq<Message>) {
    forall h :: h in u.handlers ==> HandlerTold(u.events, u.handlers[h], ms)
  }

  ghost predicate RowsTold(s: State, u: State, ms: seq<Message>) {
    && u.events == s.events && u.bookings.Keys == s.bookings.Keys
    && forall id :: id in s.bookings ==>
         var b := s.bookings[id];
         u.bookings[id] == b.(status := u.bookings[id].status) &&
         Explained(b.status, u.bookings[id].status, H.Live(s.events, b.event), id, b.event, ms)
  }

  ghost predicate Told(s: State, u: State, ms: seq<Message>) {
    && Shape(u) && HandlersTold(u, ms) && RowsTold(s, u, ms)
    && H.GivesBack(TablesOf(s), TablesOf(u))
  }

  lemma NextIsTold(u: State, d: Desk, ms: seq<Message>)
    requires HandlersTold(u, ms) && DeskEnabled(u, d) && Fair(u, ByDesk(d), ms) && NextHandler(u, d).Some?
    ensures HandlerTold(u.events, NextHandler(u, d).value, ms)
  {
    hide Completes, Expires, Cancels;
    if d.h in u.handlers {
      assert HandlerTold(u.events, u.handlers[d.h], ms);
    }
  }

  lemma HandlersStayTold(u: State, d: Desk, ms: seq<Message>)
    requires HandlersTold(u, ms) && DeskEnabled(u, d) && Fair(u, ByDesk(d), ms)
    requires ApplyDesk(u, d).events == u.events
    ensures HandlersTold(ApplyDesk(u, d), ms)
  {
    DeskMoves(u, d);
    hide ApplyDesk, DeskEnabled, Fair, HandlerTold;
    if NextHandler(u, d).Some? {
      NextIsTold(u, d, ms);
    }
  }

  /** A message explains the change. */
  ghost predicate ChangeTold(u: State, c: Change, ms: seq<Message>) {
    c.To? ==>
      && c.id in u.bookings && !c.status.Pending?
      && var e, b := u.bookings[c.id].event, u.bookings[c.id].status;
      && (c.status.Confirmed? ==> b.Pending? && H.Live(u.events, e) && Completes(ms, c.id))
      && (c.status.Expired? ==> b.Pending? && Expires(ms, c.id))
      && (c.status.Cancelled? ==>
            (b.Pending? && Completes(ms, c.id) && !H.Live(u.events, e)) || (OwnsSeats(b) && Cancels(ms, e)))
  }

  /** The handler whose step changes a booking was told of such a message. */
  lemma ChangeIsTold(u: State, d: Desk, ms: seq<Message>)
    requires HandlersOk(u) && HandlersTold(u, ms) && DeskEnabled(u, d)
    ensures ChangeTold(u, ChangeOf(u, d), ms)
  {
    hide Completes, Expires, Cancels;
    if ChangeOf(u, d).To? {
      assert HandlerOk(u, u.handlers[d.h]) && HandlerTold(u.events, u.handlers[d.h], ms);
    }
  }

  lemma ExplainedStep(
    a: BookingStatus, b: BookingStatus, c: BookingStatus, live: bool, id: nat, e: nat, ms: seq<Message>)
    requires Explained(a, b, live, id, e, ms)
    requires c.Confirmed? ==> b.Pending? && live && Completes(ms, id)
    requires c.Expired? ==> b.Pending? && Expires(ms, id)
    requires c.Cancelled? ==> (b.Pending? && Completes(ms, id) && !live) || (OwnsSeats(b) && Cancels(ms, e))
    requires !c.Pending?
    ensures Explained(a, c, live, id, e, ms)
  {
    hide Completes, Expires, Cancels;
  }

  /** What a change means for the bookings alone. */
  lemma OneRowChanges(u: State, v: State, c: Change)
    requires Changed(u, v, c)
    ensures v.events == u.events && v.bookings.Keys == u.bookings.Keys
    ensures forall id :: id in u.bookings ==>
      v.bookings[id] == if c.To? && c.id == id then u.bookings[id].(status := c.status) else u.bookings[id]
  {
    hide ReleaseAll;
  }

  lemma RowStaysTold(s: State, u: State, v: State, c: Change, ms: seq<Message>, id: nat)
    requires RowsTold(s, u, ms) && ChangeTold(u, c, ms) && id in s.bookings && id in v.bookings
    requires v.bookings[id] == if c.To? && c.id == id then u.bookings[id].(status := c.status) else u.bookings[id]
    ensures v.bookings[id] == s.bookings[id].(status := v.bookings[id].status)
    ensures Explained(s.bookings[id].status, v.bookings[id].status, H.Live(s.events, s.bookings[id].event), id,
                      s.bookings[id].event, ms)
  {
    hide Completes, Expires, Cancels, H.Live, Explained;
    if c.To? && c.id == id {
      var e := s.bookings[id].event;
      ExplainedStep(s.bookings[id].status, u.bookings[id].status, c.status, H.Live(s.events, e), id, e, ms);
    }
  }

  lemma RowsStayTold(s: State, u: State, d: Desk, ms: seq<Message>)
    requires RowsTold(s, u, ms) && HandlersOk(u) && HandlersTold(u, ms) && DeskEnabled(u, d)
    ensures RowsTold(s, ApplyDesk(u, d), ms)
  {
    hide ApplyDesk, ChangeOf, DeskEnabled, HandlersOk, HandlersTold, Explained, Changed, ChangeTold;
    var v, c := ApplyDesk(u, d), ChangeOf(u, d);
    DeskChanges(u, d);
    OneRowChanges(u, v, c);
    ChangeIsTold(u, d, ms);
    forall id | id in s.bookings
      ensures v.bookings[id] == s.bookings[id].(status := v.bookings[id].status)
      ensures Explained(s.bookings[id].status, v.bookings[id].status, H.Live(s.events, s.bookings[id].event), id,
                        s.bookings[id].event, ms)
    {
      RowStaysTold(s, u, v, c, ms, id);
    }
  }

  lemma ShapeIsCapped(s: State)
    requires Shape(s)
    ensures H.Capped(s.types)
  {
  }

  lemma DeskKeepsEvents(s: State, d: Desk)
    requires HandlersOk(s) && DeskEnabled(s, d)
    ensures ApplyDesk(s, d).events == s.events
  {
    DeskChanges(s, d);
    hide ApplyDesk, ChangeOf, ReleaseAll;
  }

  lemma StepStaysTold(s: State, u: State, a: Action, ms: seq<Message>)
    requires Shape(s) && Told(s, u, ms) && Enabled(u, a) && Fair(u, a, ms)
    ensures Told(s, Apply(u, a), ms)
  {
    var d := a.d;
    hide HandlersTold, RowsTold, Fair, ApplyDesk, DeskEnabled, H.GivesBack, ChangeOf;
    ShapeIsCapped(s);
    ShapeIsCapped(u);
    DeskKeepsShape(u, d);
    DeskKeepsEvents(u, d);
    HandlersStayTold(u, d, ms);
    RowsStayTold(s, u, d, ms);
    DeskChanges(u, d);
    ChangeGivesBack(u, ApplyDesk(u, d), ChangeOf(u, d));
    H.GivesBackTwice(TablesOf(s), TablesOf(u), TablesOf(ApplyDesk(u, d)));
  }

  lemma {:induction false} RunStaysTold(s: State, u: State, run: seq<Action>, ms: seq<Message>)
    requires Shape(s) && Told(s, u, ms) && Runs(u, run) && AllFair(u, run, ms)
    ensures Told(s, End(u, run), ms)
    decreases |run|
  {
    hide Shape, Told, Apply, Enabled, Fair;
    if run != [] {
      StepStaysTold(s, u, run[0], ms);
      RunStaysTold(s, Apply(u, run[0]), run[1..], ms);
    }
  }

  lemma StartIsTold(s: State, ms: seq<Message>)
    requires Shape(s) && s.handlers == map[]
    ensures Told(s, s, ms)
  {
    H.GivesBackNothing(TablesOf(s));
  }

  /*** Completeness: every message takes effect ***/

  /** A handler that will settle booking id, one way or the other. */
  predicate Attends(x: Handler, id: nat) {
    (x.Confirming? || x.ConfirmLive? || x.ConfirmDead? || x.Expiring?) && x.booking == id
  }

  ghost predicate Engaged(u: State, id: nat) {
    !StillPending(u, id) || exists h :: h in u.handlers && Attends(u.handlers[h], id)
  }

  predicate HasRow(todo: seq<SeenBooking>, id: nat, b: BookingStatus) {
    exists i :: 0 <= i < |todo| && todo[i].booking == id && todo[i].snap.status == b
  }

  /** A cancellation pass that will cancel booking id as it is now. */
  predicate WillCancel(x: Handler, id: nat, b: BookingStatus) {
    x.Cancelling? && HasRow(x.todo, id, b)
  }

  ghost predicate Pledged(u: State, id: nat) {
    id !in u.bookings || !OwnsSeats(u.bookings[id].status) ||
    exists h :: h in u.handlers && WillCancel(u.handlers[h], id, u.bookings[id].status)
  }

  lemma EngagedStays(u: State, d: Desk, id: nat, ms: seq<Message>)
    requires HandlersOk(u) && DeskEnabled(u, d) && Fair(u, ByDesk(d), ms) && Engaged(u, id)
    ensures Engaged(ApplyDesk(u, d), id)
  {
    var v := ApplyDesk(u, d);
    DeskMoves(u, d);
    DeskChanges(u, d);
    OneRowChanges(u, v, ChangeOf(u, d));
    hide ApplyDesk, Changed;
    ChangeEndsPending(u, d);
    if StillPending(v, id) {
      assert StillPending(u, id);
      var h :| h in u.handlers && Attends(u.handlers[h], id);
      if h == d.h {
        assert HandlerOk(u, u.handlers[h]);
        AttendantGoesOn(u, d, id, ms);
      }
      assert h in v.handlers && Attends(v.handlers[h], id);
    }
  }

  lemma ChangeEndsPending(u: State, d: Desk)
    requires DeskEnabled(u, d)
    ensures ChangeOf(u, d).To? ==> !ChangeOf(u, d).status.Pending?
  {
  }

  /** Taking a step, an attendant of a pending booking attends on or settles it. */
  lemma AttendantGoesOn(u: State, d: Desk, id: nat, ms: seq<Message>)
    requires DeskEnabled(u, d) && Fair(u, ByDesk(d), ms) && StillPending(u, id)
    requires d.h in u.handlers && Attends(u.handlers[d.h], id) && HandlerOk(u, u.handlers[d.h])
    ensures (NextHandler(u, d).Some? && Attends(NextHandler(u, d).value, id))
      || (ChangeOf(u, d).To? && ChangeOf(u, d).id == id)
  {
  }

  predicate Begins(a: Action, id: nat) {
    a.ByDesk? && (a.d.StartConfirm? || a.d.StartExpire?) && a.d.booking == id
  }

  lemma StepEngages(s: State, u: State, a: Action, id: nat, ms: seq<Message>)
    requires Told(s, u, ms) && Enabled(u, a) && Fair(u, a, ms) && (Engaged(u, id) || Begins(a, id))
    ensures Engaged(Apply(u, a), id)
  {
    if Engaged(u, id) {
      hide Engaged, ApplyDesk, DeskEnabled, Fair;
      EngagedStays(u, a.d, id, ms);
    } else {
      StartEngages(u, a.d, id);
    }
  }

  lemma StartEngages(u: State, d: Desk, id: nat)
    requires DeskEnabled(u, d) && Begins(ByDesk(d), id)
    ensures Engaged(ApplyDesk(u, d), id)
  {
    assert Attends(ApplyDesk(u, d).handlers[d.h], id);
  }

  lemma {:induction false} RunEngages(s: State, u: State, run: seq<Action>, id: nat, ms: seq<Message>)
    requires Shape(s) && Told(s, u, ms) && Runs(u, run) && AllFair(u, run, ms)
    requires Engaged(u, id) || StartsConfirm(run, id) || StartsExpire(run, id)
    ensures Engaged(End(u, run), id)
    decreases |run|
  {
    hide Apply, Enabled, Told, Engaged, Fair, Shape;
    if run == [] {
      assert !StartsConfirm(run, id) && !StartsExpire(run, id);
    } else {
      hide StartsConfirm, StartsExpire;
      StartsLater(run, id, 0);
      StepStaysTold(s, u, run[0], ms);
      if Engaged(u, id) || Begins(run[0], id) {
        StepEngages(s, u, run[0], id, ms);
      }
      RunEngages(s, Apply(u, run[0]), run[1..], id, ms);
    }
  }

  lemma StartsLater(run: seq<Action>, id: nat, e: nat)
    requires run != []
    ensures StartsConfirm(run, id) ==>
      (run[0].ByDesk? && run[0].d.StartConfirm? && run[0].d.booking == id) || StartsConfirm(run[1..], id)
    ensures StartsExpire(run, id) ==>
      (run[0].ByDesk? && run[0].d.StartExpire? && run[0].d.booking == id) || StartsExpire(run[1..], id)
    ensures StartsCancel(run, e) ==>
      (run[0].ByDesk? && run[0].d.StartCancel? && run[0].d.event == e) || StartsCancel(run[1..], e)
  {
    assert forall i :: 0 < i < |run| ==> run[i] == run[1..][i - 1];
  }

  /** No message lets booking id of event e be confirmed from here. */
  predicate Unconfirmable(s: State, id: nat, e: nat, ms: seq<Message>) {
    && id in s.bookings && s.bookings[id].event == e
    && !(s.bookings[id].status.Pending? && H.Live(s.events, e) && Completes(ms, id))
  }

  /** For such a booking, a step leaves the status or gives up the seats. */
  lemma KeepsStatusOrSeats(s: State, u: State, d: Desk, id: nat, e: nat, ms: seq<Message>)
    requires RowsTold(s, u, ms) && HandlersOk(u) && HandlersTold(u, ms) && DeskEnabled(u, d)
    requires Unconfirmable(s, id, e, ms)
    ensures var v := ApplyDesk(u, d);
      && id in u.bookings && id in v.bookings
      && (v.bookings[id].status == u.bookings[id].status || !OwnsSeats(v.bookings[id].status))
      && (ChangeOf(u, d).To? && ChangeOf(u, d).id == id ==> !OwnsSeats(v.bookings[id].status))
  {
    DeskChanges(u, d);
    OneRowChanges(u, ApplyDesk(u, d), ChangeOf(u, d));
    ChangeIsTold(u, d, ms);
    hide ApplyDesk, ChangeOf, Changed, HandlersOk, HandlersTold, H.Live, Completes, Expires, Cancels;
    assert Explained(s.bookings[id].status, u.bookings[id].status, H.Live(s.events, e), id, e, ms);
  }

  lemma TailHasRow(todo: seq<SeenBooking>, id: nat, b: BookingStatus)
    requires HasRow(todo, id, b)
    ensures todo != [] && ((todo[0].booking == id && todo[0].snap.status == b) || HasRow(todo[1..], id, b))
  {
    var i :| 0 <= i < |todo| && todo[i].booking == id && todo[i].snap.status == b;
    if i > 0 {
      assert todo[1..][i - 1] == todo[i];
    }
  }

  /** Taking a step, a pass that will cancel the booking goes on or cancels it. */
  lemma PassGoesOn(u: State, d: Desk, id: nat, ms: seq<Message>)
    requires DeskEnabled(u, d) && Fair(u, ByDesk(d), ms) && id in u.bookings && OwnsSeats(u.bookings[id].status)
    requires d.h in u.handlers && WillCancel(u.handlers[d.h], id, u.bookings[id].status)
    ensures (NextHandler(u, d).Some? && WillCancel(NextHandler(u, d).value, id, u.bookings[id].status))
      || (ChangeOf(u, d).To? && ChangeOf(u, d).id == id)
  {
    TailHasRow(u.handlers[d.h].todo, id, u.bookings[id].status);
    hide HasRow;
  }

  lemma PledgedStays(s: State, u: State, d: Desk, id: nat, e: nat, ms: seq<Message>)
    requires RowsTold(s, u, ms) && HandlersOk(u) && HandlersTold(u, ms) && DeskEnabled(u, d)
    requires Fair(u, ByDesk(d), ms) && Unconfirmable(s, id, e, ms) && Pledged(u, id)
    ensures Pledged(ApplyDesk(u, d), id)
  {
    var v := ApplyDesk(u, d);
    DeskMoves(u, d);
    KeepsStatusOrSeats(s, u, d, id, e, ms);
    hide ApplyDesk, HandlersOk, HandlersTold, HasRow, RowsTold, Unconfirmable;
    if OwnsSeats(v.bookings[id].status) {
      var b := u.bookings[id].status;
      var h :| h in u.handlers && WillCancel(u.handlers[h], id, b);
      if h == d.h {
        PassGoesOn(u, d, id, ms);
      }
      assert h in v.handlers && WillCancel(v.handlers[h], id, b);
    }
  }

  lemma StartPledges(u: State, d: Desk, id: nat, ms: seq<Message>)
    requires DeskEnabled(u, d) && d.StartCancel? && Fair(u, ByDesk(d), ms)
    requires id in u.bookings && u.bookings[id].event == d.event
    ensures Pledged(ApplyDesk(u, d), id)
  {
    assert H.InListing(d.todo, id);
    var i :| 0 <= i < |d.todo| && d.todo[i].booking == id;
    assert HasRow(d.todo, id, u.bookings[id].status);
    assert WillCancel(ApplyDesk(u, d).handlers[d.h], id, u.bookings[id].status);
  }

  lemma StepPledges(s: State, u: State, a: Action, id: nat, e: nat, ms: seq<Message>)
    requires Told(s, u, ms) && Enabled(u, a) && Fair(u, a, ms) && Unconfirmable(s, id, e, ms)
    requires Pledged(u, id) || (a.d.StartCancel? && a.d.event == e)
    ensures Pledged(Apply(u, a), id)
  {
    if Pledged(u, id) {
      hide Pledged, ApplyDesk, DeskEnabled, Fair, RowsTold, Unconfirmable;
      PledgedStays(s, u, a.d, id, e, ms);
    } else {
      hide Pledged;
      assert id in u.bookings && u.bookings[id].event == e;
      StartPledges(u, a.d, id, ms);
    }
  }

  lemma {:induction false} RunPledges(s: State, u: State, run: seq<Action>, id: nat, e: nat, ms: seq<Message>)
    requires Shape(s) && Told(s, u, ms) && Runs(u, run) && AllFair(u, run, ms) && Unconfirmable(s, id, e, ms)
    requires Pledged(u, id) || StartsCancel(run, e)
    ensures Pledged(End(u, run), id)
    decreases |run|
  {
    hide Apply, Enabled, Told, Pledged, Fair, Shape, Unconfirmable;
    if run == [] {
      assert !StartsCancel(run, e);
    } else {
      hide StartsCancel;
      StartsLater(run, id, e);
      StepStaysTold(s, u, run[0], ms);
      if Pledged(u, id) || (run[0].ByDesk? && run[0].d.StartCancel? && run[0].d.event == e) {
        FairIsDesk(u, run[0], ms);
        StepPledges(s, u, run[0], id, e, ms);
      }
      RunPledges(s, Apply(u, run[0]), run[1..], id, e, ms);
    }
  }

  lemma FairIsDesk(u: State, a: Action, ms: seq<Message>)
    requires Fair(u, a, ms)
    ensures a.ByDesk?
  {
  }

  /*** The theorems ***/

  /** A live booking whose completed message races an expired or a cancelled one. */
  predicate Racy(s: State, ms: seq<Message>, id: nat) {
    && StillPending(s, id) && H.Live(s.events, s.bookings[id].event) && Completes(ms, id)
    && (Expires(ms, id) || Cancels(ms, s.bookings[id].event))
  }

  lemma SpentSettle(u: State, id: nat)
    requires forall h :: h in u.handlers ==> Spent(u.handlers[h])
    ensures Engaged(u, id) ==> !StillPending(u, id)
    ensures Pledged(u, id) && id in u.bookings ==> !OwnsSeats(u.bookings[id].status)
  {
    forall h | h in u.handlers ensures !Attends(u.handlers[h], id) {
    }
    if id in u.bookings {
      forall h | h in u.handlers ensures !WillCancel(u.handlers[h], id, u.bookings[id].status) {
        assert Spent(u.handlers[h]);
      }
    }
  }

  /** What a booking owns in the end is decided by the messages, whatever the interleaving. */
  lemma FinalOwner(s: State, run: seq<Action>, ms: seq<Message>, id: nat)
    requires Shape(s) && s.handlers == map[] && Handles(s, run, ms) && id in s.bookings && !Racy(s, ms, id)
    ensures Told(s, End(s, run), ms)
    ensures var b := s.bookings[id];
      OwnsSeats(End(s, run).bookings[id].status) <==> KeepsSeats(b.status, H.Live(s.events, b.event), id, b.event, ms)
  {
    var e, u := s.bookings[id].event, End(s, run);
    StartIsTold(s, ms);
    RunStaysTold(s, s, run, ms);
    SpentSettle(u, id);
    if Completes(ms, id) || Expires(ms, id) {
      if StartsConfirm(run, id) || StartsExpire(run, id) {
        RunEngages(s, s, run, id, ms);
      }
    }
    if Cancels(ms, e) {
      RunPledges(s, s, run, id, e, ms);
    }
    hide Shape, HandlersTold, H.GivesBack, Runs, End, AllFair, Engaged, Pledged, StartsConfirm, StartsExpire,
      StartsCancel;
    hide Completes, Expires, Cancels, H.Live;
    assert Explained(s.bookings[id].status, u.bookings[id].status, H.Live(s.events, e), id, e, ms);
  }

  /** Two pools of workers that handle the same messages from the same state, each in its own order,
      multiplicity and interleaving, leave the same counters, if no live booking gets a completed
      message and also an expired one or its event's cancellation. */
  lemma InterleavingsAgree(s: State, run: seq<Action>, other: seq<Action>, ms: seq<Message>)
    requires Shape(s) && s.handlers == map[]
    requires Handles(s, run, ms) && Handles(s, other, ms)
    requires forall id :: id in s.bookings ==> !Racy(s, ms, id)
    ensures End(s, run).types == End(s, other).types
  {
    StartIsTold(s, ms);
    RunStaysTold(s, s, run, ms);
    RunStaysTold(s, s, other, ms);
    hide Handles, Racy, Shape, Runs, End, HandlersTold, RowsTold, H.Returned, KeepsSeats;
    var u, v := End(s, run), End(s, other);
    forall id | id in s.bookings
      ensures OwnsSeats(u.bookings[id].status) <==> OwnsSeats(v.bookings[id].status)
    {
      FinalOwner(s, run, ms, id);
      FinalOwner(s, other, ms, id);
    }
    SameOwnersSameCounters(TablesOf(s), TablesOf(u), TablesOf(v));
  }

  /** In particular, handling all messages a second time changes no counter. */
  lemma RedeliveryChangesNothing(s: State, run: seq<Action>, again: seq<Action>, ms: seq<Message>)
    requires Shape(s) && s.handlers == map[] && Handles(s, run, ms) && Handles(s, run + again, ms)
    requires forall id :: id in s.bookings ==> !Racy(s, ms, id)
    ensures End(s, run + again).types == End(s, run).types
  {
    hide Handles, Racy, Shape, Runs, End;
    InterleavingsAgree(s, run + again, run, ms);
  }

  /*** The condition is exact ***/

  lemma {:induction false} Append(s: State, run: seq<Action>, more: seq<Action>, ms: seq<Message>)
    requires Runs(s, run) && AllFair(s, run, ms) && Runs(End(s, run), more) && AllFair(End(s, run), more, ms)
    ensures Runs(s, run + more) && AllFair(s, run + more, ms) && End(s, run + more) == End(End(s, run), more)
    decreases |run|
  {
    hide Apply, Enabled, Fair;
    if run == [] {
      assert run + more == more;
    } else {
      assert (run + more)[1..] == run[1..] + more;
      Append(Apply(s, run[0]), run[1..], more, ms);
    }
  }

  lemma AppendStep(s: State, run: seq<Action>, a: Action, ms: seq<Message>)
    requires Runs(s, run) && AllFair(s, run, ms) && Enabled(End(s, run), a) && Fair(End(s, run), a, ms)
    ensures Runs(s, run + [a]) && AllFair(s, run + [a], ms) && End(s, run + [a]) == Apply(End(s, run), a)
  {
    hide Apply, Enabled, Fair;
    var u := End(s, run);
    assert [a][1..] == [];
    assert Runs(u, [a]) && AllFair(u, [a], ms) && End(u, [a]) == Apply(u, a);
    Append(s, run, [a], ms);
  }

  /** The run handled a message alone: the tables are as the handler function says, no handler is
      left, and the message has taken effect. */
  ghost predicate HandledAlone(s: State, run: seq<Action>, m: Message, ms: seq<Message>) {
    && Runs(s, run) && AllFair(s, run, ms)
    && var u := End(s, run);
    && TablesOf(u) == H.Handle(TablesOf(s), m) && u.handlers == map[]
    && (m.PaymentCompleted? || m.PaymentExpired? ==> !StillPending(u, m.booking))
    && (m.EventCancelled? ==> StartsCancel(run, m.event))
  }

  /** A message that ms contains, by its meaning. */
  predicate InNews(m: Message, ms: seq<Message>) {
    match m
    case PaymentCompleted(_, id, _, _) => Completes(ms, id)
    case PaymentExpired(_, id, _, _, _) => Expires(ms, id)
    case EventCancelled(e) => Cancels(ms, e)
    case TicketIssued(_, _, _, _, _) => true
  }

  /** A handler that is done can go. */
  lemma QuitAlone(s: State, run: seq<Action>, h: nat, ms: seq<Message>) returns (longer: seq<Action>)
    requires Runs(s, run) && AllFair(s, run, ms) && End(s, run).handlers.Keys == {h} && Spent(End(s, run).handlers[h])
    ensures longer == run + [ByDesk(Quit(h))] && Runs(s, longer) && AllFair(s, longer, ms)
    ensures TablesOf(End(s, longer)) == TablesOf(End(s, run)) && End(s, longer).handlers == map[]
  {
    hide Runs, End, AllFair;
    AppendStep(s, run, ByDesk(Quit(h)), ms);
    longer := run + [ByDesk(Quit(h))];
  }

  lemma ConfirmRunIsFair(s: State, h: nat, id: nat, ms: seq<Message>)
    requires h !in s.handlers && StillPending(s, id) && Completes(ms, id)
    ensures Runs(s, ConfirmRun(s, h, id)) && AllFair(s, ConfirmRun(s, h, id), ms)
  {
    hide Completes, ReleaseAll, Transition;
    var run := ConfirmRun(s, h, id);
    var s1 := ApplyDesk(s, StartConfirm(h, id));
    var s2 := ApplyDesk(s1, ReadEvent(h));
    assert Runs(s, []) && AllFair(s, [], ms) && End(s, []) == s;
    AppendStep(s, [], run[0], ms);
    assert [] + [run[0]] == [run[0]];
    AppendStep(s, [run[0]], run[1], ms);
    assert [run[0]] + [run[1]] == [run[0], run[1]];
    AppendStep(s, [run[0], run[1]], run[2], ms);
    assert [run[0], run[1]] + [run[2]] == run;
  }

  lemma ConfirmHandled(s: State, m: Message, ms: seq<Message>) returns (run: seq<Action>)
    requires s.handlers == map[] && m.PaymentCompleted? && InNews(m, ms)
    ensures HandledAlone(s, run, m, ms)
  {
    var id := m.booking;
    if StillPending(s, id) {
      run := ConfirmRun(s, 0, id);
      ConfirmRunIsFair(s, 0, id, ms);
      ConfirmAlone(s, 0, id);
      hide ConfirmRun, Runs, End, AllFair;
      if IsPublished(s, s.bookings[id].event) {
        run := QuitAlone(s, run, 0, ms);
      }
    } else {
      run := [];
    }
  }

  lemma ExpireHandled(s: State, m: Message, ms: seq<Message>) returns (run: seq<Action>)
    requires s.handlers == map[] && m.PaymentExpired? && InNews(m, ms)
    ensures HandledAlone(s, run, m, ms)
  {
    var id := m.booking;
    if StillPending(s, id) {
      run := ExpireRun(0, id);
      ExpireRunIsFair(s, id, ms);
      ExpireAlone(s, 0, id);
      hide ExpireRun, Runs, End, AllFair;
    } else {
      run := [];
    }
  }

  lemma ExpireRunIsFair(s: State, id: nat, ms: seq<Message>)
    requires s.handlers == map[] && StillPending(s, id) && Expires(ms, id)
    ensures Runs(s, ExpireRun(0, id)) && AllFair(s, ExpireRun(0, id), ms)
  {
    hide Expires, ReleaseAll, Transition;
    var run := ExpireRun(0, id);
    assert Runs(s, []) && AllFair(s, [], ms) && End(s, []) == s;
    AppendStep(s, [], run[0], ms);
    assert [] + [run[0]] == [run[0]];
    AppendStep(s, [run[0]], run[1], ms);
    assert [run[0]] + [run[1]] == run;
  }

  lemma {:induction false} CancelRunIsFair(s: State, e: nat, rows: seq<SeenBooking>, n: nat, ms: seq<Message>)
    requires s.handlers == map[] && H.Lists(s.bookings, e, rows) && Cancels(ms, e) && n <= |rows|
    ensures Runs(s, CancelRun(0, e, rows, n)) && AllFair(s, CancelRun(0, e, rows, n), ms)
  {
    hide Cancels, ReleaseAll, Transition;
    if n == 0 {
      var a := ByDesk(StartCancel(0, e, rows));
      assert Runs(s, []) && AllFair(s, [], ms) && End(s, []) == s;
      AppendStep(s, [], a, ms);
      assert [] + [a] == CancelRun(0, e, rows, 0);
    } else {
      CancelRunIsFair(s, e, rows, n - 1, ms);
      CancelPartWay(s, 0, e, rows, n - 1);
      var run, a := CancelRun(0, e, rows, n - 1), ByDesk(CancelOne(0));
      AppendStep(s, run, a, ms);
      assert run + [a] == CancelRun(0, e, rows, n);
    }
  }

  lemma {:induction false} SomeListing(bookings: map<nat, Booking>, e: nat, keys: set<nat>)
    returns (rows: seq<SeenBooking>)
    requires keys <= bookings.Keys
    ensures forall i :: 0 <= i < |rows| ==>
      rows[i].booking in keys && bookings[rows[i].booking] == rows[i].snap && rows[i].snap.event == e
    ensures forall i, j :: 0 <= i < j < |rows| ==> rows[i].booking != rows[j].booking
    ensures forall id :: id in keys && bookings[id].event == e ==> H.InListing(rows, id)
    decreases |keys|
  {
    if keys == {} {
      rows := [];
    } else {
      var id :| id in keys;
      var rest := SomeListing(bookings, e, keys - {id});
      if bookings[id].event == e {
        rows := rest + [SeenBooking(id, bookings[id])];
        assert rows[|rest|].booking == id;
        forall j | H.InListing(rest, j) ensures H.InListing(rows, j) {
          var i :| 0 <= i < |rest| && rest[i].booking == j;
          assert rows[i].booking == j;
        }
      } else {
        rows := rest;
      }
    }
  }

  lemma CancelHandled(s: State, m: Message, ms: seq<Message>) returns (run: seq<Action>)
    requires s.handlers == map[] && H.Capped(s.types) && m.EventCancelled? && InNews(m, ms)
    ensures HandledAlone(s, run, m, ms)
  {
    var rows := SomeListing(s.bookings, m.event, s.bookings.Keys);
    run := CancelRun(0, m.event, rows, |rows|);
    CancelRunIsFair(s, m.event, rows, |rows|, ms);
    CancelAlone(s, 0, m.event, rows);
    assert run[0].d.StartCancel? && run[0].d.event == m.event;
    hide CancelRun, Runs, End, AllFair;
    ghost var first := run[0];
    run := QuitAlone(s, run, 0, ms);
    assert run[0] == first;
  }

  lemma OneHandled(s: State, m: Message, ms: seq<Message>) returns (run: seq<Action>)
    requires Shape(s) && s.handlers == map[] && InNews(m, ms)
    ensures HandledAlone(s, run, m, ms)
  {
    ShapeIsCapped(s);
    hide Shape, HandledAlone, H.Capped;
    match m
    case PaymentCompleted(_, _, _, _) => run := ConfirmHandled(s, m, ms);
    case PaymentExpired(_, _, _, _, _) => run := ExpireHandled(s, m, ms);
    case EventCancelled(_) => run := CancelHandled(s, m, ms);
    case TicketIssued(_, _, _, _, _) => run := NothingHandled(s, m, ms);
  }

  lemma NothingHandled(s: State, m: Message, ms: seq<Message>) returns (run: seq<Action>)
    requires s.handlers == map[] && m.TicketIssued?
    ensures HandledAlone(s, run, m, ms)
  {
    run := [];
  }

  /** Messages handled one after the other. */
  ghost predicate HandledInOrder(s: State, run: seq<Action>, ns: seq<Message>, ms: seq<Message>) {
    && Runs(s, run) && AllFair(s, run, ms)
    && var u := End(s, run);
    && TablesOf(u) == H.HandleAll(TablesOf(s), ns) && u.handlers == map[]
    && (forall id :: Completes(ns, id) || Expires(ns, id) ==> !StillPending(u, id))
    && (forall e :: Cancels(ns, e) ==> StartsCancel(run, e))
  }

  lemma SettledStays(s: State, u: State, id: nat, ms: seq<Message>)
    requires Told(s, u, ms) && !StillPending(s, id)
    ensures !StillPending(u, id)
  {
    hide Shape, HandlersTold, H.GivesBack, Completes, Expires, Cancels, H.Live;
  }

  lemma {:induction false} AllHandled(s: State, ns: seq<Message>, ms: seq<Message>) returns (run: seq<Action>)
    requires Shape(s) && s.handlers == map[] && forall i :: 0 <= i < |ns| ==> InNews(ns[i], ms)
    ensures HandledInOrder(s, run, ns, ms)
    decreases |ns|
  {
    if ns == [] {
      run := [];
      assert H.HandleAll(TablesOf(s), ns) == TablesOf(s);
    } else {
      hide Shape;
      var first := OneHandled(s, ns[0], ms);
      var u := End(s, first);
      StartIsTold(s, ms);
      RunStaysTold(s, s, first, ms);
      ToldHasShape(s, u, ms);
      var rest := AllHandled(u, ns[1..], ms);
      run := first + rest;
      JoinHandled(s, first, rest, ns, ms);
    }
  }

  lemma ToldHasShape(s: State, u: State, ms: seq<Message>)
    requires Told(s, u, ms)
    ensures Shape(u)
  {
  }

  lemma JoinHandled(s: State, first: seq<Action>, rest: seq<Action>, ns: seq<Message>, ms: seq<Message>)
    requires Shape(s) && s.handlers == map[] && ns != []
    requires HandledAlone(s, first, ns[0], ms) && Shape(End(s, first)) &&
      HandledInOrder(End(s, first), rest, ns[1..], ms)
    ensures HandledInOrder(s, first + rest, ns, ms)
  {
    var u, run := End(s, first), first + rest;
    Append(s, first, rest, ms);
    StartIsTold(u, ms);
    RunStaysTold(u, u, rest, ms);
    hide Shape, Runs, End, AllFair, Told;
    forall id | Completes(ns, id) || Expires(ns, id) ensures !StillPending(End(s, run), id) {
      FirstNews(ns, id, 0);
      if !StillPending(u, id) {
        SettledStays(u, End(u, rest), id, ms);
      }
    }
    forall e | Cancels(ns, e) ensures StartsCancel(run, e) {
      FirstNews(ns, 0, e);
      StartsEither(first, rest, e);
    }
  }

  lemma StartsEither(a: seq<Action>, b: seq<Action>, e: nat)
    requires StartsCancel(a, e) || StartsCancel(b, e)
    ensures StartsCancel(a + b, e)
  {
    var run := a + b;
    if StartsCancel(a, e) {
      var i :| 0 <= i < |a| && a[i].ByDesk? && a[i].d.StartCancel? && a[i].d.event == e;
      assert run[i] == a[i];
    } else {
      var i :| 0 <= i < |b| && b[i].ByDesk? && b[i].d.StartCancel? && b[i].d.event == e;
      assert run[|a| + i] == b[i];
    }
  }

  lemma OwnNews(ms: seq<Message>)
    ensures forall i :: 0 <= i < |ms| ==> InNews(ms[i], ms)
  {
  }

  /** A delivery of the same messages, one after the other, is one way to handle them. */
  lemma InOrderHandles(s: State, run: seq<Action>, ns: seq<Message>, ms: seq<Message>)
    requires HandledInOrder(s, run, ns, ms) && SameNews(ms, ns)
    ensures Handles(s, run, ms)
  {
    hide Runs, End, AllFair, Completes, Expires, Cancels, StartsCancel, StartsConfirm, StartsExpire;
  }

  lemma DeliveredFirst(s: State, m: Message, ms: seq<Message>) returns (run: seq<Action>)
    requires Shape(s) && s.handlers == map[] && InNews(m, ms) && !m.EventCancelled?
    ensures Handles(s, run, ms) && TablesOf(End(s, run)) == H.HandleAll(TablesOf(s), [m] + ms)
  {
    hide Shape, H.HandleAll, Completes, Expires, Cancels;
    OwnNews(ms);
    run := AllHandled(s, [m] + ms, ms);
    NoNews(ms, m);
    hide SameNews;
    InOrderHandles(s, run, [m] + ms, ms);
  }

  ghost predicate SameCounters(s: State, run: seq<Action>, other: seq<Action>, ms: seq<Message>) {
    Handles(s, run, ms) && Handles(s, other, ms) ==> End(s, run).types == End(s, other).types
  }

  /*** The race of a confirmation with a cancellation pass ***/

  /** The listing was made while booking id was pending; then id was confirmed. Its row fails the guard
      of the pass, all other rows are cancelled. */
  lemma {:induction false} StaleListing(d: H.Tables, e: nat, rows: seq<SeenBooking>, id: nat, n: nat)
    requires H.Lists(d.bookings, e, rows) && n <= |rows|
    requires id in d.bookings && d.bookings[id].event == e && d.bookings[id].status.Pending?
    ensures var u := H.CancelListed(H.WithStatus(d, id, Confirmed), rows[..n]);
      && u.bookings.Keys == d.bookings.Keys
      && u.bookings[id].status.Confirmed?
      && forall j :: j in d.bookings && j != id ==>
           u.bookings[j] == if H.InListing(rows[..n], j) then H.CancelOne(d.bookings[j], e) else d.bookings[j]
  {
    hide ReleaseAll;
    if n == 0 {
      assert rows[..0] == [];
    } else {
      StaleListing(d, e, rows, id, n - 1);
      assert rows[..n][..n - 1] == rows[..n - 1];
      assert !H.InListing(rows[..n - 1], rows[n - 1].booking);
      H.ListingGrows(rows, n - 1);
    }
  }

  /** The pass goes on from a state in which it has been started. */
  lemma {:induction false} PassSteps(s: State, run0: seq<Action>, rows: seq<SeenBooking>, n: nat, ms: seq<Message>)
    returns (run: seq<Action>)
    requires Runs(s, run0) && AllFair(s, run0, ms) && n <= |rows|
    requires 0 in End(s, run0).handlers && End(s, run0).handlers[0] == Cancelling(rows)
    ensures Runs(s, run) && AllFair(s, run, ms) && run0 <= run
    ensures var u := End(s, run0);
      && TablesOf(End(s, run)) == H.CancelListed(TablesOf(u), rows[..n])
      && End(s, run).handlers == u.handlers[0 := Cancelling(rows[n..])]
  {
    hide Runs, End, AllFair, ApplyDesk, H.CancelSeen;
    if n == 0 {
      run := run0;
      assert rows[..0] == [] && rows[0..] == rows;
    } else {
      run := PassSteps(s, run0, rows, n - 1, ms);
      Undisturbed.CancelOneStep(End(s, run), 0, rows[n - 1..]);
      AppendStep(s, run, ByDesk(CancelOne(0)), ms);
      run := run + [ByDesk(CancelOne(0))];
      assert rows[n - 1..][1..] == rows[n..];
      assert rows[..n][..n - 1] == rows[..n - 1];
    }
  }

  /** The pass is started, then the booking confirmed by another handler. */
  lemma ListedThenConfirmed(s: State, e: nat, rows: seq<SeenBooking>, id: nat, ms: seq<Message>)
    returns (run: seq<Action>)
    requires s.handlers == map[] && H.Lists(s.bookings, e, rows) && Cancels(ms, e) && Completes(ms, id)
    requires StillPending(s, id) && IsPublished(s, s.bookings[id].event)
    ensures Runs(s, run) && AllFair(s, run, ms) && StartsCancel(run, e)
    ensures TablesOf(End(s, run)) == H.WithStatus(TablesOf(s), id, Confirmed)
    ensures End(s, run).handlers == map[0 := Cancelling(rows)]
  {
    hide Cancels, Completes, H.Lists;
    run := [ByDesk(StartCancel(0, e, rows))];
    assert H.Lists(s.bookings, e, rows);
    StartedPass(s, e, rows, ms);
    var u := End(s, run);
    assert StartsCancel(run, e) by { assert run[0].d.StartCancel? && run[0].d.event == e; }
    hide Runs, End, AllFair, StartsCancel;
    var confirm := ConfirmedBeside(u, id, ms);
    Append(s, run, confirm, ms);
    StartsEither(run, confirm, e);
    run := run + confirm;
  }

  lemma StartedPass(s: State, e: nat, rows: seq<SeenBooking>, ms: seq<Message>)
    requires s.handlers == map[] && H.Lists(s.bookings, e, rows) && Cancels(ms, e)
    ensures var run := [ByDesk(StartCancel(0, e, rows))];
      && Runs(s, run) && AllFair(s, run, ms)
      && TablesOf(End(s, run)) == TablesOf(s) && End(s, run).handlers == map[0 := Cancelling(rows)]
  {
    hide Cancels;
    var a := ByDesk(StartCancel(0, e, rows));
    assert Runs(s, []) && AllFair(s, [], ms) && End(s, []) == s;
    AppendStep(s, [], a, ms);
    assert [] + [a] == [a];
  }

  /** A Confirm handler beside a handler that waits. */
  lemma ConfirmedBeside(s: State, id: nat, ms: seq<Message>) returns (run: seq<Action>)
    requires s.handlers.Keys == {0} && StillPending(s, id) && IsPublished(s, s.bookings[id].event) && Completes(ms, id)
    ensures Runs(s, run) && AllFair(s, run, ms)
    ensures TablesOf(End(s, run)) == H.WithStatus(TablesOf(s), id, Confirmed) && End(s, run).handlers == s.handlers
  {
    ConfirmRunIsFair(s, 1, id, ms);
    ConfirmAlone(s, 1, id);
    hide Completes, Runs, End, AllFair, ConfirmRun;
    var confirm := ConfirmRun(s, 1, id);
    var u := End(s, confirm);
    assert Enabled(u, ByDesk(Quit(1))) && Fair(u, ByDesk(Quit(1)), ms);
    AppendStep(s, confirm, ByDesk(Quit(1)), ms);
    run := confirm + [ByDesk(Quit(1))];
    assert s.handlers[1 := Issuing(id, s.bookings[id], 0)] - {1} == s.handlers;
  }

  /** After the pass, with or without the race, no handler is left; everything but the raced booking is
      the same. */
  ghost predicate PassedWith(s: State, run: seq<Action>, e: nat, id: nat, b: BookingStatus, ms: seq<Message>) {
    && Runs(s, run) && AllFair(s, run, ms) && StartsCancel(run, e) && End(s, run).handlers == map[]
    && RowsPassed(s, End(s, run), e, id, b)
  }

  ghost predicate RowsPassed(s: State, u: State, e: nat, id: nat, b: BookingStatus) {
    && u.events == s.events && u.bookings.Keys == s.bookings.Keys && id in s.bookings && u.bookings[id].status == b
    && forall j :: j in s.bookings && j != id ==> u.bookings[j] == H.CancelOne(s.bookings[j], e)
  }

  lemma RacedRun(s: State, id: nat, rows: seq<SeenBooking>, ms: seq<Message>) returns (run: seq<Action>)
    requires s.handlers == map[] && Racy(s, ms, id) && Cancels(ms, s.bookings[id].event)
    requires H.Lists(s.bookings, s.bookings[id].event, rows)
    ensures Runs(s, run) && AllFair(s, run, ms) && StartsCancel(run, s.bookings[id].event)
    ensures TablesOf(End(s, run)) == H.CancelListed(H.WithStatus(TablesOf(s), id, Confirmed), rows)
    ensures End(s, run).handlers == map[]
  {
    hide Runs, End, AllFair, Completes, Expires, Cancels, H.CancelListed, H.Lists, StartsCancel;
    var e := s.bookings[id].event;
    var first := ListedThenConfirmed(s, e, rows, id, ms);
    var whole := PassSteps(s, first, rows, |rows|, ms);
    assert rows[..|rows|] == rows && rows[|rows|..] == [];
    StillStarts(first, whole, e);
    run := QuitAlone(s, whole, 0, ms);
    StillStarts(whole, run, e);
  }

  lemma RacedPass(s: State, id: nat, ms: seq<Message>) returns (run: seq<Action>)
    requires s.handlers == map[] && Racy(s, ms, id) && Cancels(ms, s.bookings[id].event)
    ensures PassedWith(s, run, s.bookings[id].event, id, Confirmed, ms)
  {
    var e := s.bookings[id].event;
    var rows := SomeListing(s.bookings, e, s.bookings.Keys);
    assert H.Lists(s.bookings, e, rows);
    NotListedIsUncancelled(s.bookings, e, rows);
    StaleListing(TablesOf(s), e, rows, id, |rows|);
    assert rows[..|rows|] == rows;
    hide Runs, End, AllFair, Completes, Expires, Cancels, H.CancelListed, H.Lists, H.InListing, StartsCancel;
    CancelListedKeepsEvents(H.WithStatus(TablesOf(s), id, Confirmed), rows);
    run := RacedRun(s, id, rows, ms);
  }

  lemma {:induction false} CancelListedKeepsEvents(d: H.Tables, rows: seq<SeenBooking>)
    ensures H.CancelListed(d, rows).events == d.events
  {
    hide ReleaseAll;
    if rows != [] {
      CancelListedKeepsEvents(d, rows[..|rows| - 1]);
    }
  }

  lemma StillStarts(run: seq<Action>, more: seq<Action>, e: nat)
    requires run <= more && StartsCancel(run, e)
    ensures StartsCancel(more, e)
  {
    var i :| 0 <= i < |run| && run[i].ByDesk? && run[i].d.StartCancel? && run[i].d.event == e;
    assert more[i] == run[i];
  }

  lemma NotListedIsUncancelled(bookings: map<nat, Booking>, e: nat, rows: seq<SeenBooking>)
    requires H.Lists(bookings, e, rows)
    ensures forall j :: j in bookings && !H.InListing(rows, j) ==> H.CancelOne(bookings[j], e) == bookings[j]
  {
  }

  lemma PlainPass(s: State, id: nat, ms: seq<Message>) returns (run: seq<Action>)
    requires s.handlers == map[] && H.Capped(s.types) && Racy(s, ms, id) && Cancels(ms, s.bookings[id].event)
    ensures PassedWith(s, run, s.bookings[id].event, id, Cancelled, ms)
  {
    var m := Message.EventCancelled(s.bookings[id].event);
    run := CancelHandled(s, m, ms);
    hide Runs, End, AllFair, Completes, Expires, Cancels, StartsCancel, H.Returned;
  }

  /** The messages but for the cancellation of one event. */
  function But(ms: seq<Message>, e: nat): seq<Message> {
    if ms == [] then []
    else if ms[0] == Message.EventCancelled(e) then But(ms[1..], e)
    else [ms[0]] + But(ms[1..], e)
  }

  lemma {:induction false} ButNews(ms: seq<Message>, e: nat, id: nat, other: nat)
    ensures Completes(But(ms, e), id) <==> Completes(ms, id)
    ensures Expires(But(ms, e), id) <==> Expires(ms, id)
    ensures Cancels(But(ms, e), other) <==> other != e && Cancels(ms, other)
  {
    if ms != [] {
      ButNews(ms[1..], e, id, other);
      FirstNews(ms, id, other);
      if ms[0] != Message.EventCancelled(e) {
        FirstNews(But(ms, e), id, other);
        assert But(ms, e)[1..] == But(ms[1..], e);
      }
    }
  }

  lemma ButInNews(ms: seq<Message>, e: nat)
    ensures forall i :: 0 <= i < |But(ms, e)| ==> InNews(But(ms, e)[i], ms)
  {
    var ns := But(ms, e);
    OwnNews(ns);
    forall i | 0 <= i < |ns| ensures InNews(ns[i], ms) {
      match ns[i]
      case PaymentCompleted(_, id, _, _) => ButNews(ms, e, id, 0);
      case PaymentExpired(_, id, _, _, _) => ButNews(ms, e, id, 0);
      case EventCancelled(x) => ButNews(ms, e, 0, x);
      case TicketIssued(_, _, _, _, _) =>
    }
  }

  /** After the pass, the other messages one after the other. */
  lemma PassThenRest(s: State, first: seq<Action>, e: nat, id: nat, b: BookingStatus, ms: seq<Message>)
    returns (run: seq<Action>)
    requires Shape(s) && s.handlers == map[] && PassedWith(s, first, e, id, b, ms)
    ensures Handles(s, run, ms)
    ensures TablesOf(End(s, run)) == H.HandleAll(TablesOf(End(s, first)), But(ms, e))
    ensures Told(s, End(s, run), ms) && Told(s, End(s, first), ms) && H.Capped(End(s, first).types)
  {
    var u, ns := End(s, first), But(ms, e);
    StartIsTold(s, ms);
    RunStaysTold(s, s, first, ms);
    ToldHasShape(s, u, ms);
    ShapeIsCapped(u);
    ButInNews(ms, e);
    hide Shape, Told, H.Capped;
    var rest := AllHandled(u, ns, ms);
    run := first + rest;
    Append(s, first, rest, ms);
    StartIsTold(s, ms);
    RunStaysTold(s, s, run, ms);
    hide Runs, End, AllFair, H.HandleAll;
    assert run == first + rest;
    forall j | Completes(ms, j) || Expires(ms, j) ensures !StillPending(End(s, run), j) {
      ButNews(ms, e, j, 0);
    }
    forall x | Cancels(ms, x) ensures StartsCancel(run, x) {
      ButNews(ms, e, 0, x);
      StartsEither(first, rest, x);
    }
  }

  /** The raced booking keeps its seats, in the plain run it loses them, and all others react alike. */
  lemma RacedRunsSplit(s: State, id: nat, u: State, v: State, ms: seq<Message>)
    requires id in s.bookings && u.events == s.events && v.events == s.events
    requires u.bookings.Keys == s.bookings.Keys && v.bookings.Keys == s.bookings.Keys
    requires H.Capped(u.types) && H.Capped(v.types)
    requires u.bookings[id].status.Confirmed? && v.bookings[id].status.Cancelled?
    requires u.bookings[id].event == s.bookings[id].event && v.bookings[id].event == s.bookings[id].event
    requires forall j :: j in s.bookings && j != id ==> u.bookings[j] == v.bookings[j]
    requires !Cancels(ms, s.bookings[id].event)
    ensures var a, b := H.HandleAll(TablesOf(u), ms), H.HandleAll(TablesOf(v), ms);
      && a.bookings.Keys == s.bookings.Keys && b.bookings.Keys == s.bookings.Keys
      && OwnsSeats(a.bookings[id].status) && !OwnsSeats(b.bookings[id].status)
      && forall j :: j in s.bookings && j != id ==> a.bookings[j].status == b.bookings[j].status
  {
    hide H.HandleAll, H.GivesBack, Cancels;
    var e := s.bookings[id].event;
    H.HandleAllGivesBack(TablesOf(u), ms);
    H.HandleAllGivesBack(TablesOf(v), ms);
    KeepsRows(TablesOf(u), H.HandleAll(TablesOf(u), ms));
    KeepsRows(TablesOf(v), H.HandleAll(TablesOf(v), ms));
    ConfirmedKeeps(H.Live(s.events, e), id, e, ms);
    SettledForGood(Cancelled, H.Live(s.events, e), id, e, ms);
  }

  lemma KeepsRows(d: H.Tables, u: H.Tables)
    requires H.GivesBack(d, u)
    ensures H.SameRows(d, u)
  {
  }

  /** A confirmation that races a cancellation pass: with and without the race the counters differ. */
  lemma RaceChangesCounters(s: State, id: nat, ms: seq<Message>) returns (run: seq<Action>, other: seq<Action>)
    requires Shape(s) && s.handlers == map[] && Roomy(TablesOf(s)) && Weighty(TablesOf(s))
    requires Racy(s, ms, id) && Cancels(ms, s.bookings[id].event)
    ensures Handles(s, run, ms) && Handles(s, other, ms) && End(s, run).types != End(s, other).types
  {
    var e := s.bookings[id].event;
    ShapeIsCapped(s);
    hide Shape, Roomy, Weighty, H.Capped, Told, H.HandleAll, Completes, Expires, H.Live, RowsPassed;
    hide Runs, End, AllFair, StartsCancel, StartsConfirm, StartsExpire, StillPending;
    var one := RacedPass(s, id, ms);
    var two := PlainPass(s, id, ms);
    run := PassThenRest(s, one, e, id, Confirmed, ms);
    other := PassThenRest(s, two, e, id, Cancelled, ms);
    SplitCounters(s, id, e, End(s, one), End(s, two), End(s, run), End(s, other), ms);
  }

  lemma SplitCounters(s: State, id: nat, e: nat, u: State, v: State, a: State, b: State, ms: seq<Message>)
    requires Roomy(TablesOf(s)) && Weighty(TablesOf(s)) && id in s.bookings && e == s.bookings[id].event
    requires RowsPassed(s, u, e, id, Confirmed) && RowsPassed(s, v, e, id, Cancelled)
    requires H.Capped(u.types) && H.Capped(v.types)
    requires TablesOf(a) == H.HandleAll(TablesOf(u), But(ms, e)) && TablesOf(b) == H.HandleAll(TablesOf(v), But(ms, e))
    requires Told(s, u, ms) && Told(s, v, ms) && Told(s, a, ms) && Told(s, b, ms)
    ensures a.types != b.types
  {
    hide H.HandleAll, Roomy, Weighty, H.Capped, Told, H.GivesBack, Cancels;
    ButNews(ms, e, 0, e);
    ToldRows(s, u, ms);
    ToldRows(s, v, ms);
    RacedRunsSplit(s, id, u, v, But(ms, e));
    ToldRows(s, a, ms);
    ToldRows(s, b, ms);
    SplitOwnersSplitCounters(TablesOf(s), TablesOf(a), TablesOf(b), id);
  }

  lemma ToldRows(s: State, u: State, ms: seq<Message>)
    requires Told(s, u, ms)
    ensures H.SameRows(TablesOf(s), TablesOf(u)) && H.GivesBack(TablesOf(s), TablesOf(u))
  {
  }

  /** Exactly when order, multiplicity and interleaving do not matter: all ways to handle the same
      messages leave the same counters if and only if no live booking gets a completed message and
      also an expired one or its event's cancellation. */
  lemma InterleavingIsIrrelevantExactly(s: State, ms: seq<Message>)
    requires Shape(s) && s.handlers == map[] && Roomy(TablesOf(s)) && Weighty(TablesOf(s))
    ensures (forall run, other :: SameCounters(s, run, other, ms))
      <==> (forall id :: id in s.bookings ==> !Racy(s, ms, id))
  {
    if id :| id in s.bookings && Racy(s, ms, id) {
      if Cancels(ms, s.bookings[id].event) {
        hide Shape, Roomy, Weighty, Handles, Racy;
        var run, other := RaceChangesCounters(s, id, ms);
        assert !SameCounters(s, run, other, ms);
      } else {
        var run, other := ContestedRuns(s, id, ms);
        assert !SameCounters(s, run, other, ms);
      }
    } else {
      hide Shape, Roomy, Weighty, Handles, Racy;
      forall run, other ensures SameCounters(s, run, other, ms) {
        if Handles(s, run, ms) && Handles(s, other, ms) {
          InterleavingsAgree(s, run, other, ms);
        }
      }
    }
  }

  lemma ContestedRuns(s: State, id: nat, ms: seq<Message>) returns (run: seq<Action>, other: seq<Action>)
    requires Shape(s) && s.handlers == map[] && Roomy(TablesOf(s)) && Weighty(TablesOf(s))
    requires Racy(s, ms, id) && !Cancels(ms, s.bookings[id].event)
    ensures Handles(s, run, ms) && Handles(s, other, ms) && End(s, run).types != End(s, other).types
  {
    var c := Message.PaymentCompleted(0, id, 0, 0);
    var x := Message.PaymentExpired(0, id, 0, 0, GatewayExpired);
    ShapeIsCapped(s);
    ContestChangesCounters(TablesOf(s), ms, id, c, x);
    hide Shape, Roomy, Weighty, H.HandleAll, Handles, Completes, Expires, Cancels;
    run := DeliveredFirst(s, c, ms);
    other := DeliveredFirst(s, x, ms);
  }
}

/** In a run of both services: the payment service never sends both payment messages for a booking
    and only cancelled events are announced as cancelled, so however the messages of the log are
    delivered and handled, the counters end the same. */
module Deliveries {
  import opened Messages
  import opened Confluence
  import opened Interleaving
  import T = TicketingSteps
  import TP = TicketingProofs
  import Protocol
  import Agreement
  import C = Cancellation

  lemma LogNeverContests(s: Protocol.State, ms: seq<Message>, id: nat)
    requires Agreement.Inv(s)
    requires forall i :: 0 <= i < |ms| ==> ms[i] in s.log
    ensures !(Completes(ms, id) && Expires(ms, id))
  {
    if Completes(ms, id) && Expires(ms, id) {
      var i :| 0 <= i < |ms| && ms[i].PaymentCompleted? && ms[i].booking == id;
      var j :| 0 <= j < |ms| && ms[j].PaymentExpired? && ms[j].booking == id;
      Agreement.LogOneWay(s, ms[i], ms[j]);
      assert false;
    }
  }

  lemma LogCancelsDead(s: Protocol.State, ms: seq<Message>)
    requires Agreement.Inv(s)
    requires forall i :: 0 <= i < |ms| ==> ms[i] in s.log
    ensures forall e :: Cancels(ms, e) ==> C.IsCalledOff(s.t, e)
  {
    hide Agreement.Inv;
    forall e | Cancels(ms, e) ensures C.IsCalledOff(s.t, e) {
      var i :| 0 <= i < |ms| && ms[i] == Message.EventCancelled(e);
      Agreement.LogIsCalledOff(s, e);
    }
  }

  /** Take any run of both services that leaves no handler in flight, and any messages from its log.
      Let two pools of workers handle them from there, each in its own order, multiplicity and
      interleaving: the counters end the same. */
  lemma DeliveriesAgree(
    cascade: bool, now: int, run: seq<Protocol.Action>, ms: seq<Message>, one: seq<T.Action>, other: seq<T.Action>)
    requires Protocol.Runs(Protocol.Init(cascade, now), run)
    requires var s := Protocol.End(Protocol.Init(cascade, now), run);
      && s.t.handlers == map[]
      && (forall i :: 0 <= i < |ms| ==> ms[i] in s.log)
      && Handles(s.t, one, ms) && Handles(s.t, other, ms)
    ensures var s := Protocol.End(Protocol.Init(cascade, now), run);
      T.End(s.t, one).types == T.End(s.t, other).types
  {
    hide Agreement.Inv, TP.Inv, Protocol.Runs, Protocol.End, T.Runs, T.End, AllFair, Completes, Expires, Cancels;
    var s := Protocol.End(Protocol.Init(cascade, now), run);
    Agreement.InitialInv(cascade, now);
    Agreement.RunKeepsInv(Protocol.Init(cascade, now), run);
    LogCancelsDead(s, ms);
    forall id | id in s.t.bookings ensures !Racy(s.t, ms, id) {
      LogNeverContests(s, ms, id);
    }
    Agreement.InvHasTicketing(s);
    C.InvHasShape(s.t);
    hide Handles, Racy;
    InterleavingsAgree(s.t, one, other, ms);
  }
}
