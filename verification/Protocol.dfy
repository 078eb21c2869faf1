/** The two services together: their databases share no transaction and meet only in the
    payment call of Reserve and in the message log. A message in the log may be handled any
    number of times, in any order, or never. */
module Protocol {
  import opened Messages
  import T = TicketingSteps
  import P = PaymentSteps

  /** log: every message ever published. sentT, sentP: the outbox rows published so far. */
  datatype State = State(t: T.State, p: P.State, log: set<Message>, sentT: set<nat>, sentP: set<nat>)

  datatype Action =
    | Ticketing(a: T.Action)
    | Payment(b: P.Action)
    | PublishT(row: nat)
    | PublishP(row: nat)

  function Init(cascade: bool, now: int): State {
    State(T.Init(cascade), P.Init(now), {}, {}, {})
  }

  ghost predicate HeardCompleted(log: set<Message>, booking: nat) {
    exists m :: m in log && m.PaymentCompleted? && m.booking == booking
  }

  ghost predicate HeardExpired(log: set<Message>, booking: nat) {
    exists m :: m in log && m.PaymentExpired? && m.booking == booking
  }

  ghost predicate HasTxn(p: P.State, booking: nat) {
    exists x :: x in p.txns && p.txns[x].booking == booking
  }

  /** Handlers start on a message; the payment call succeeds only if the transaction exists. */
  ghost predicate TicketingAllowed(s: State, a: T.Action) {
    match a
    case ByDesk(d) =>
      && (d.StartConfirm? ==> HeardCompleted(s.log, d.booking))
      && (d.StartExpire? ==> HeardExpired(s.log, d.booking))
      && (d.StartCancel? ==> EventCancelled(d.event) in s.log)
    case ByBuyer(b) =>
      b.PaymentOk? && b.r in s.t.reserves && s.t.reserves[b.r].phase.Created? ==>
        HasTxn(s.p, s.t.reserves[b.r].phase.booking)
    case ByAdmin(_) => true
    case MarkDelivered(row) => row in s.sentT
  }

  /** A transaction is created only on a request of Reserve, with that request's data; a request
      may arrive late, even after the caller gave up on it. */
  ghost predicate PaymentAllowed(s: State, a: P.Action) {
    match a
    case Initiate(_, booking, event, user, amount, _) =>
      booking in s.t.requests && s.t.requests[booking] == T.Request(event, user, amount)
    case ByCanceller(c) => c.StartPass? ==> EventCancelled(c.event) in s.log
    case MarkDelivered(row) => row in s.sentP
    case _ => true
  }

  ghost predicate Enabled(s: State, a: Action) {
    match a
    case Ticketing(a) => T.Enabled(s.t, a) && TicketingAllowed(s, a)
    case Payment(b) => P.Enabled(s.p, b) && PaymentAllowed(s, b)
    case PublishT(row) => row < |s.t.outbox|
    case PublishP(row) => row < |s.p.outbox|
  }

  ghost function Apply(s: State, a: Action): State
    requires Enabled(s, a)
  {
    match a
    case Ticketing(a) => s.(t := T.Apply(s.t, a))
    case Payment(b) => s.(p := P.Apply(s.p, b))
    case PublishT(row) => s.(log := s.log + {s.t.outbox[row].message}, sentT := s.sentT + {row})
    case PublishP(row) => s.(log := s.log + {s.p.outbox[row].message}, sentP := s.sentP + {row})
  }

  ghost predicate Runs(s: State, run: seq<Action>)
    decreases |run|
  {
    run == [] || (Enabled(s, run[0]) && Runs(Apply(s, run[0]), run[1..]))
  }

  ghost function End(s: State, run: seq<Action>): State
    requires Runs(s, run)
    decreases |run|
  {
    if run == [] then s else End(Apply(s, run[0]), run[1..])
  }

  /** A run can be extended at its end. */
  lemma {:induction false} Extend(s: State, run: seq<Action>, a: Action)
    requires Runs(s, run) && Enabled(End(s, run), a)
    ensures Runs(s, run + [a]) && End(s, run + [a]) == Apply(End(s, run), a)
    decreases |run|
  {
    hide Enabled, Apply;
    if run == [] {
      assert (run + [a])[1..] == [];
    } else {
      assert (run + [a])[1..] == run[1..] + [a];
      Extend(Apply(s, run[0]), run[1..], a);
    }
  }
}

/** Agreement between the two databases over every interleaved run. */
module Agreement {
  import opened Messages
  import opened Protocol
  import T = TicketingSteps
  import TT = TicketingTables
  import TS = TicketingShape
  import TP = TicketingProofs
  import C = Cancellation
  import SL = SeatLedger
  import P = PaymentSteps
  import PT = PaymentTables
  import PP = PaymentProofs

  /** The booking's transaction ended in the given status. */
  ghost predicate SettledAs(p: P.State, booking: nat, status: PT.TxnStatus) {
    exists x :: x in p.txns && p.txns[x].booking == booking && p.txns[x].status == status
  }

  lemma SettledStays(p: P.State, q: P.State, booking: nat, status: PT.TxnStatus)
    requires SettledAs(p, booking, status) && !PT.IsActive(status) && PP.Grows(p, q)
    ensures SettledAs(q, booking, status)
  {
    var x :| x in p.txns && p.txns[x].booking == booking && p.txns[x].status == status;
    assert x in q.txns && q.txns[x].booking == booking && q.txns[x].status == status;
  }

  /** A payment is settled one way only. */
  lemma SettledOneWay(p: P.State, booking: nat)
    requires PP.Inv(p)
    ensures !(SettledAs(p, booking, PT.Completed) && SettledAs(p, booking, PT.Expired))
  {
  }

  ghost predicate HandlerAgrees(p: P.State, x: T.Handler) {
    match x
    case Cancelling(_) => true
    case Expiring(id, _) => SettledAs(p, id, PT.Expired)
    case _ => SettledAs(p, x.booking, PT.Completed)
  }

  ghost predicate HandlersAgree(t: T.State, p: P.State) {
    forall h :: h in t.handlers ==> HandlerAgrees(p, t.handlers[h])
  }

  ghost predicate BookingAgrees(t: T.State, p: P.State, id: nat)
    requires id in t.bookings
  {
    && (t.bookings[id].status.Confirmed? ==> SettledAs(p, id, PT.Completed))
    && (t.bookings[id].status.Expired? ==> SettledAs(p, id, PT.Expired))
  }

  ghost predicate BookingsAgree(t: T.State, p: P.State) {
    && (forall id :: id in t.bookings ==> BookingAgrees(t, p, id))
    && (forall id :: id in t.everConfirmed ==> SettledAs(p, id, PT.Completed))
  }

  /** Every transaction was asked for by a Reserve call. */
  ghost predicate RequestsAgree(t: T.State, p: P.State) {
    forall x :: x in p.txns ==>
      && p.txns[x].booking in t.requests
      && t.requests[p.txns[x].booking] == T.Request(p.txns[x].event, p.txns[x].user, p.txns[x].amount)
  }

  ghost predicate MessageAgrees(t: T.State, p: P.State, m: Message) {
    match m
    case PaymentCompleted(_, id, _, _) => SettledAs(p, id, PT.Completed)
    case PaymentExpired(_, id, _, _, _) => SettledAs(p, id, PT.Expired)
    case EventCancelled(e) => C.IsCalledOff(t, e)
    case TicketIssued(_, id, _, _, _) => id in t.everConfirmed
  }

  ghost predicate LogAgrees(t: T.State, p: P.State, log: set<Message>) {
    forall m :: m in log ==> MessageAgrees(t, p, m)
  }

  ghost predicate CancellationsPosted(t: T.State) {
    forall i :: 0 <= i < |t.outbox| ==>
      match t.outbox[i].message
      case EventCancelled(e) => C.IsCalledOff(t, e)
      case TicketIssued(_, _, _, _, _) => true
      case _ => false
  }

  /** Published rows are in the log, and only published rows are marked delivered. */
  ghost predicate RowsSent(outbox: seq<OutboxRow>, sent: set<nat>, log: set<Message>) {
    && (forall i :: i in sent ==> i < |outbox| && outbox[i].message in log)
    && (forall i :: 0 <= i < |outbox| && outbox[i].delivered ==> i in sent)
  }

  ghost predicate FromRow(m: Message, outbox: seq<OutboxRow>) {
    exists i :: 0 <= i < |outbox| && outbox[i].message == m
  }

  ghost predicate LogFromRows(s: State) {
    forall m :: m in s.log ==> FromRow(m, s.t.outbox) || FromRow(m, s.p.outbox)
  }

  ghost predicate Meet(s: State) {
    HandlersAgree(s.t, s.p) && BookingsAgree(s.t, s.p) && RequestsAgree(s.t, s.p)
  }

  ghost predicate Sent(s: State) {
    && LogAgrees(s.t, s.p, s.log) && CancellationsPosted(s.t) && LogFromRows(s)
    && RowsSent(s.t.outbox, s.sentT, s.log) && RowsSent(s.p.outbox, s.sentP, s.log)
  }

  ghost predicate Inv(s: State) {
    TP.Inv(s.t) && PP.Inv(s.p) && Meet(s) && Sent(s)
  }

  /*** Steps of the payment service ***/

  lemma HandlerAgreesStays(p: P.State, q: P.State, x: T.Handler)
    requires HandlerAgrees(p, x) && PP.Grows(p, q)
    ensures HandlerAgrees(q, x)
  {
    hide SettledAs, PP.Grows;
    match x
    case Cancelling(_) =>
    case Expiring(id, _) => SettledStays(p, q, id, PT.Expired);
    case _ => SettledStays(p, q, x.booking, PT.Completed);
  }

  lemma PaymentKeepsMeeting(t: T.State, p: P.State, q: P.State)
    requires HandlersAgree(t, p) && BookingsAgree(t, p) && PP.Grows(p, q)
    ensures HandlersAgree(t, q) && BookingsAgree(t, q)
  {
    hide SettledAs, PP.Grows, HandlerAgrees;
    forall h | h in t.handlers ensures HandlerAgrees(q, t.handlers[h]) { HandlerAgreesStays(p, q, t.handlers[h]); }
    forall id | id in t.bookings ensures BookingAgrees(t, q, id) {
      assert BookingAgrees(t, p, id);
      if t.bookings[id].status.Confirmed? { SettledStays(p, q, id, PT.Completed); }
      if t.bookings[id].status.Expired? { SettledStays(p, q, id, PT.Expired); }
    }
    forall id | id in t.everConfirmed ensures SettledAs(q, id, PT.Completed) { SettledStays(p, q, id, PT.Completed); }
  }

  lemma PaymentKeepsLog(t: T.State, p: P.State, q: P.State, log: set<Message>)
    requires LogAgrees(t, p, log) && PP.Grows(p, q)
    ensures LogAgrees(t, q, log)
  {
    hide SettledAs, PP.Grows;
    forall m | m in log ensures MessageAgrees(t, q, m) {
      assert MessageAgrees(t, p, m);
      match m
      case PaymentCompleted(_, id, _, _) => SettledStays(p, q, id, PT.Completed);
      case PaymentExpired(_, id, _, _, _) => SettledStays(p, q, id, PT.Expired);
      case _ =>
    }
  }

  /** A transaction row is new only when it was just initiated. */
  lemma NewTxnWasInitiated(p: P.State, b: P.Action)
    requires P.Enabled(p, b)
    ensures var q := P.Apply(p, b);
      forall x :: x in q.txns && x !in p.txns ==>
        b.Initiate? && q.txns[x].booking == b.booking && q.txns[x].event == b.event && q.txns[x].user == b.user &&
          q.txns[x].amount == b.amount
  {
  }

  lemma PaymentKeepsRequests(s: State, b: P.Action)
    requires RequestsAgree(s.t, s.p) && P.Enabled(s.p, b) && PaymentAllowed(s, b)
    ensures RequestsAgree(s.t, P.Apply(s.p, b))
  {
    hide P.Apply, P.Enabled;
    PP.StepGrows(s.p, b);
    NewTxnWasInitiated(s.p, b);
  }

  /** How an outbox may change in a step: rows keep their place and message, new rows are
      undelivered, and at most the row named is marked delivered. */
  ghost predicate OutboxStep(a: seq<OutboxRow>, b: seq<OutboxRow>, marked: Option<nat>) {
    && |a| <= |b|
    && (forall i :: 0 <= i < |a| ==>
          b[i].message == a[i].message && (b[i].delivered ==> a[i].delivered || marked == Some(i)))
    && (forall i :: |a| <= i < |b| ==> !b[i].delivered)
  }

  function MarkedP(b: P.Action): Option<nat> {
    if b.MarkDelivered? then Some(b.row) else None
  }

  lemma PaymentOutboxStep(p: P.State, b: P.Action)
    requires P.Enabled(p, b)
    ensures OutboxStep(p.outbox, P.Apply(p, b).outbox, MarkedP(b))
  {
    hide P.ApplyGateway, P.ApplyPoller, P.ApplyCanceller, P.ApplyPayer;
    match b
    case ByGateway(g) => GatewayOutboxStep(p, g);
    case ByPoller(l) => PollerOutboxStep(p, l);
    case ByCanceller(c) => CancellerOutboxStep(p, c);
    case ByPayer(y) => PayerOutboxStep(p, y);
    case _ =>
  }

  lemma GatewayOutboxStep(p: P.State, g: P.Gateway)
    requires P.GatewayEnabled(p, g)
    ensures OutboxStep(p.outbox, P.ApplyGateway(p, g).outbox, None)
  {
  }

  lemma PollerOutboxStep(p: P.State, l: P.Poller)
    requires P.PollerEnabled(p, l)
    ensures OutboxStep(p.outbox, P.ApplyPoller(p, l).outbox, None)
  {
  }

  lemma CancellerOutboxStep(p: P.State, c: P.Canceller)
    requires P.CancellerEnabled(p, c)
    ensures OutboxStep(p.outbox, P.ApplyCanceller(p, c).outbox, None)
  {
  }

  lemma PayerOutboxStep(p: P.State, y: P.Payer)
    requires P.PayerEnabled(p, y)
    ensures OutboxStep(p.outbox, P.ApplyPayer(p, y).outbox, None)
  {
  }

  lemma RowsSentStay(a: seq<OutboxRow>, b: seq<OutboxRow>, marked: Option<nat>, sent: set<nat>, log: set<Message>)
    requires OutboxStep(a, b, marked) && RowsSent(a, sent, log) && (marked.Some? ==> marked.value in sent)
    ensures RowsSent(b, sent, log)
  {
  }

  lemma FromRowStays(a: seq<OutboxRow>, b: seq<OutboxRow>, marked: Option<nat>, m: Message)
    requires OutboxStep(a, b, marked) && FromRow(m, a)
    ensures FromRow(m, b)
  {
    var i :| 0 <= i < |a| && a[i].message == m;
    assert b[i].message == m;
  }

  lemma LogStaysFromRows(s: State, u: State, mt: Option<nat>, mp: Option<nat>)
    requires LogFromRows(s) && u.log == s.log
    requires OutboxStep(s.t.outbox, u.t.outbox, mt) && OutboxStep(s.p.outbox, u.p.outbox, mp)
    ensures LogFromRows(u)
  {
    hide OutboxStep, FromRow;
    forall m | m in u.log ensures FromRow(m, u.t.outbox) || FromRow(m, u.p.outbox) {
      if FromRow(m, s.t.outbox) { FromRowStays(s.t.outbox, u.t.outbox, mt, m); }
      if FromRow(m, s.p.outbox) { FromRowStays(s.p.outbox, u.p.outbox, mp, m); }
    }
  }

  lemma SameOutbox(a: seq<OutboxRow>)
    ensures OutboxStep(a, a, None)
  {
  }

  lemma PaymentStep(s: State, b: P.Action)
    requires Inv(s) && P.Enabled(s.p, b) && PaymentAllowed(s, b)
    ensures Inv(s.(p := P.Apply(s.p, b)))
  {
    hide P.Apply, P.Enabled, TP.Inv, PP.Inv, PP.Grows, HandlersAgree, BookingsAgree, RequestsAgree, LogAgrees,
      LogFromRows, CancellationsPosted, RowsSent, OutboxStep;
    var q := P.Apply(s.p, b);
    PP.InvIsInductive(s.p, b);
    PP.StepGrows(s.p, b);
    PaymentKeepsMeeting(s.t, s.p, q);
    PaymentKeepsRequests(s, b);
    PaymentKeepsLog(s.t, s.p, q, s.log);
    PaymentOutboxStep(s.p, b);
    SameOutbox(s.t.outbox);
    LogStaysFromRows(s, s.(p := q), None, MarkedP(b));
    RowsSentStay(s.p.outbox, q.outbox, MarkedP(b), s.sentP, s.log);
  }

  /*** Steps of the ticketing service ***/

  function MarkedT(a: T.Action): Option<nat> {
    if a.MarkDelivered? then Some(a.row) else None
  }

  lemma DeskOutboxStep(t: T.State, d: T.Desk)
    requires T.DeskEnabled(t, d)
    ensures OutboxStep(t.outbox, T.ApplyDesk(t, d).outbox, None)
  {
    TS.DeskMoves(t, d);
    hide TT.ReleaseAll, T.Transition, TS.NextHandler, TS.Moved;
    if !d.IssueOne? {
      hide T.ApplyDesk;
      SameOutbox(t.outbox);
    }
  }

  lemma AdminOutboxStep(t: T.State, m: T.Admin)
    requires T.AdminEnabled(t, m)
    ensures OutboxStep(t.outbox, T.ApplyAdmin(t, m).outbox, None)
  {
  }

  lemma TicketingOutboxStep(t: T.State, a: T.Action)
    requires T.Enabled(t, a)
    ensures OutboxStep(t.outbox, T.Apply(t, a).outbox, MarkedT(a))
  {
    hide T.ApplyBuyer, T.ApplyDesk, T.ApplyAdmin, T.BuyerEnabled, T.DeskEnabled, T.AdminEnabled;
    match a
    case ByBuyer(b) => TP.BuyerFrame(t, b);
    case ByDesk(d) => DeskOutboxStep(t, d);
    case ByAdmin(m) => AdminOutboxStep(t, m);
    case MarkDelivered(_) =>
  }

  /** A handler keeps acting for the booking it was started for. */
  ghost predicate SameErrand(t: T.State, d: T.Desk, x: T.Handler) {
    match x
    case Cancelling(_) => true
    case Expiring(id, _) => d.StartExpire? && id == d.booking
    case _ =>
      || (d.StartConfirm? && x.booking == d.booking)
      || (d.h in t.handlers && !t.handlers[d.h].Cancelling? && !t.handlers[d.h].Expiring? &&
            x.booking == t.handlers[d.h].booking)
  }

  lemma DeskOwnHandler(t: T.State, d: T.Desk)
    requires T.DeskEnabled(t, d) && d.h in T.ApplyDesk(t, d).handlers
    ensures SameErrand(t, d, T.ApplyDesk(t, d).handlers[d.h])
  {
    if d.StartConfirm? || d.StartExpire? || d.StartCancel? || d.CancelOne? || d.Quit? {
      NewErrand(t, d);
    } else {
      OngoingErrand(t, d);
    }
  }

  lemma NewErrand(t: T.State, d: T.Desk)
    requires T.DeskEnabled(t, d) && d.h in T.ApplyDesk(t, d).handlers
    requires d.StartConfirm? || d.StartExpire? || d.StartCancel? || d.CancelOne? || d.Quit?
    ensures SameErrand(t, d, T.ApplyDesk(t, d).handlers[d.h])
  {
    hide T.ApplyDesk;
    TS.DeskMoves(t, d);
  }

  lemma OngoingErrand(t: T.State, d: T.Desk)
    requires T.DeskEnabled(t, d) && d.h in T.ApplyDesk(t, d).handlers
    requires d.ReadEvent? || d.ConfirmBooking? || d.CancelDead? || d.IssueOne? || d.IssueFails? || d.ExpireBooking?
    ensures SameErrand(t, d, T.ApplyDesk(t, d).handlers[d.h])
  {
    hide T.ApplyDesk;
    TS.DeskMoves(t, d);
  }

  lemma DeskKeepsHandlers(s: State, d: T.Desk)
    requires HandlersAgree(s.t, s.p) && LogAgrees(s.t, s.p, s.log) && T.DeskEnabled(s.t, d) &&
      TicketingAllowed(s, T.ByDesk(d))
    ensures HandlersAgree(T.ApplyDesk(s.t, d), s.p)
  {
    hide T.ApplyDesk, T.DeskEnabled, SettledAs;
    var u := T.ApplyDesk(s.t, d);
    C.DeskMovesOneHandler(s.t, d);
    forall h | h in u.handlers ensures HandlerAgrees(s.p, u.handlers[h]) {
      if h != d.h {
        assert HandlerAgrees(s.p, s.t.handlers[h]);
      } else {
        DeskOwnHandler(s.t, d);
        if d.StartConfirm? {
          var m :| m in s.log && m.PaymentCompleted? && m.booking == d.booking;
          assert MessageAgrees(s.t, s.p, m);
        } else if d.StartExpire? {
          var m :| m in s.log && m.PaymentExpired? && m.booking == d.booking;
          assert MessageAgrees(s.t, s.p, m);
        } else if d.h in s.t.handlers {
          assert HandlerAgrees(s.p, s.t.handlers[d.h]);
        }
      }
    }
  }

  /** Who may have confirmed or expired a booking in this step. */
  ghost predicate StatusFromHandler(t: T.State, u: T.State, d: T.Desk, id: nat)
    requires id in u.bookings
  {
    || (id in t.bookings && u.bookings[id].status == t.bookings[id].status)
    || u.bookings[id].status.Cancelled?
    || (u.bookings[id].status.Confirmed? && d.h in t.handlers && t.handlers[d.h].ConfirmLive? &&
          t.handlers[d.h].booking == id)
    || (u.bookings[id].status.Expired? && d.h in t.handlers && t.handlers[d.h].Expiring? &&
          t.handlers[d.h].booking == id)
  }

  lemma DeskStatuses(t: T.State, d: T.Desk)
    requires T.DeskEnabled(t, d)
    ensures forall id :: id in T.ApplyDesk(t, d).bookings ==> StatusFromHandler(t, T.ApplyDesk(t, d), d, id)
  {
    hide TT.ReleaseAll;
  }

  lemma DeskConfirmations(t: T.State, d: T.Desk)
    requires T.DeskEnabled(t, d)
    ensures forall id :: id in T.ApplyDesk(t, d).everConfirmed && id !in t.everConfirmed ==>
      d.h in t.handlers && t.handlers[d.h].ConfirmLive? && t.handlers[d.h].booking == id
  {
    hide TT.ReleaseAll;
  }

  lemma DeskKeepsBookings(t: T.State, p: P.State, d: T.Desk)
    requires HandlersAgree(t, p) && BookingsAgree(t, p) && T.DeskEnabled(t, d)
    ensures BookingsAgree(T.ApplyDesk(t, d), p)
  {
    hide T.ApplyDesk, T.DeskEnabled, SettledAs;
    var u := T.ApplyDesk(t, d);
    DeskStatuses(t, d);
    DeskConfirmations(t, d);
    if d.h in t.handlers { assert HandlerAgrees(p, t.handlers[d.h]); }
    forall id | id in u.bookings ensures BookingAgrees(u, p, id) {
      assert StatusFromHandler(t, u, d, id);
      if id in t.bookings { assert BookingAgrees(t, p, id); }
    }
  }

  lemma BuyerKeepsBookings(t: T.State, p: P.State, b: T.Buyer)
    requires BookingsAgree(t, p) && T.BuyerEnabled(t, b)
    ensures BookingsAgree(T.ApplyBuyer(t, b), p)
  {
    hide T.ApplyBuyer, T.BuyerEnabled, SettledAs;
    var u := T.ApplyBuyer(t, b);
    TP.BuyerFrame(t, b);
    BuyerStatuses(t, b);
    forall id | id in u.bookings ensures BookingAgrees(u, p, id) {
      if id in t.bookings { assert BookingAgrees(t, p, id); }
    }
  }

  lemma BuyerStatuses(t: T.State, b: T.Buyer)
    requires T.BuyerEnabled(t, b)
    ensures var u := T.ApplyBuyer(t, b);
      forall id :: id in u.bookings ==>
        (id in t.bookings && u.bookings[id] == t.bookings[id]) || u.bookings[id].status.Pending?
  {
    hide TT.Price;
  }

  /** The part of a ticketing step that the log and the transactions rely on. */
  ghost predicate Forward(t: T.State, u: T.State) {
    && (forall e :: C.IsCalledOff(t, e) ==> C.IsCalledOff(u, e))
    && t.everConfirmed <= u.everConfirmed
    && RequestsKept(t, u)
  }

  lemma BuyerKeepsRequests(t: T.State, b: T.Buyer)
    requires TP.RequestsOk(t) && T.BuyerEnabled(t, b)
    ensures var u := T.ApplyBuyer(t, b);
      forall id :: id in t.requests ==> id in u.requests && u.requests[id] == t.requests[id]
  {
    hide TT.Price;
    if !b.CreateBooking? { TP.BuyerCreatesOnlyInCreate(t, b); }
  }

  ghost predicate RequestsKept(t: T.State, u: T.State) {
    forall id :: id in t.requests ==> id in u.requests && u.requests[id] == t.requests[id]
  }

  lemma AdminLeavesRequests(t: T.State, m: T.Admin)
    requires T.AdminEnabled(t, m)
    ensures T.ApplyAdmin(t, m).requests == t.requests
  {
  }

  lemma TicketingKeepsRequests(t: T.State, a: T.Action)
    requires TP.RequestsOk(t) && T.Enabled(t, a)
    ensures RequestsKept(t, T.Apply(t, a))
  {
    hide T.ApplyBuyer, T.ApplyDesk, T.ApplyAdmin, T.BuyerEnabled, T.DeskEnabled, T.AdminEnabled, TP.RequestsOk;
    match a
    case ByBuyer(b) => BuyerKeepsRequests(t, b);
    case ByDesk(d) => TP.DeskFrame(t, d);
    case ByAdmin(m) => AdminLeavesRequests(t, m);
    case MarkDelivered(_) =>
  }

  lemma TicketingGoesForward(t: T.State, a: T.Action)
    requires TP.Inv(t) && T.Enabled(t, a)
    ensures Forward(t, T.Apply(t, a))
  {
    hide T.Apply, T.Enabled, TP.Inv, C.IsCalledOff;
    var u := T.Apply(t, a);
    forall e | C.IsCalledOff(t, e) ensures C.IsCalledOff(u, e) { C.CalledOffStays(t, a, e); }
    TP.InvIsInductive(t, a);
    InvHasRequests(t);
    TicketingKeepsRequests(t, a);
  }

  lemma InvHasRequests(t: T.State)
    requires TP.Inv(t)
    ensures TP.RequestsOk(t)
  {
  }

  lemma LogStays(t: T.State, u: T.State, p: P.State, log: set<Message>)
    requires LogAgrees(t, p, log) && Forward(t, u)
    ensures LogAgrees(u, p, log)
  {
    hide SettledAs, C.IsCalledOff;
    forall m | m in log ensures MessageAgrees(u, p, m) { assert MessageAgrees(t, p, m); }
  }

  lemma RequestsStay(t: T.State, u: T.State, p: P.State)
    requires RequestsAgree(t, p) && Forward(t, u)
    ensures RequestsAgree(u, p)
  {
    hide C.IsCalledOff;
  }

  lemma DeskKeepsPosts(t: T.State, u: T.State)
    requires CancellationsPosted(t) && Forward(t, u)
    requires u.outbox == t.outbox || exists m: Message :: m.TicketIssued? && u.outbox == Insert(t.outbox, m)
    ensures CancellationsPosted(u)
  {
    hide C.IsCalledOff;
  }

  ghost predicate PostsOnlyTickets(a: seq<OutboxRow>, b: seq<OutboxRow>) {
    b == a || exists m: Message :: m.TicketIssued? && b == Insert(a, m)
  }

  lemma DeskPosts(t: T.State, d: T.Desk)
    requires T.DeskEnabled(t, d)
    ensures PostsOnlyTickets(t.outbox, T.ApplyDesk(t, d).outbox)
  {
    if d.IssueOne? {
      var x := t.handlers[d.h];
      var m := TicketIssued(x.next, x.booking, x.snap.user, x.snap.event, x.snap.items[x.next].ticketType);
      IssuePosts(t, d.h, m);
    }
    hide T.ApplyDesk, TS.NextHandler;
    TS.DeskMoves(t, d);
  }

  lemma IssuePosts(t: T.State, h: nat, m: Message)
    requires T.DeskEnabled(t, T.IssueOne(h))
    requires
      var x := t.handlers[h];
      m == TicketIssued(x.next, x.booking, x.snap.user, x.snap.event, x.snap.items[x.next].ticketType)
    ensures T.ApplyDesk(t, T.IssueOne(h)).outbox == Insert(t.outbox, m)
  {
  }

  lemma AdminKeepsPosts(t: T.State, m: T.Admin)
    requires CancellationsPosted(t) && T.AdminEnabled(t, m) && Forward(t, T.ApplyAdmin(t, m))
    ensures CancellationsPosted(T.ApplyAdmin(t, m))
  {
    hide RequestsKept;
  }

  lemma TicketingKeepsPosts(t: T.State, a: T.Action)
    requires CancellationsPosted(t) && T.Enabled(t, a) && Forward(t, T.Apply(t, a))
    ensures CancellationsPosted(T.Apply(t, a))
  {
    hide T.ApplyBuyer, T.ApplyDesk, T.ApplyAdmin, T.BuyerEnabled, T.DeskEnabled, T.AdminEnabled, C.IsCalledOff,
      RequestsKept;
    match a
    case ByBuyer(b) => TP.BuyerFrame(t, b); DeskKeepsPosts(t, T.Apply(t, a));
    case ByDesk(d) => DeskPosts(t, d); DeskKeepsPosts(t, T.Apply(t, a));
    case ByAdmin(m) => AdminKeepsPosts(t, m);
    case MarkDelivered(_) =>
  }

  lemma AdminLeavesBookings(t: T.State, m: T.Admin)
    requires T.AdminEnabled(t, m)
    ensures var u := T.ApplyAdmin(t, m);
      u.bookings == t.bookings && u.everConfirmed == t.everConfirmed && u.handlers == t.handlers
  {
  }

  lemma TicketingKeepsMeeting(s: State, a: T.Action)
    requires HandlersAgree(s.t, s.p) && BookingsAgree(s.t, s.p) && LogAgrees(s.t, s.p, s.log)
    requires T.Enabled(s.t, a) && TicketingAllowed(s, a)
    ensures HandlersAgree(T.Apply(s.t, a), s.p) && BookingsAgree(T.Apply(s.t, a), s.p)
  {
    hide T.ApplyBuyer, T.ApplyDesk, T.ApplyAdmin, T.BuyerEnabled, T.DeskEnabled, T.AdminEnabled, HandlerAgrees,
      BookingAgrees, SettledAs, LogAgrees;
    match a
    case ByBuyer(b) => TP.BuyerFrame(s.t, b); BuyerKeepsBookings(s.t, s.p, b);
    case ByDesk(d) => DeskKeepsHandlers(s, d); DeskKeepsBookings(s.t, s.p, d);
    case ByAdmin(m) => AdminLeavesBookings(s.t, m); SameBookingsAgree(s.t, T.Apply(s.t, a), s.p);
    case MarkDelivered(_) => SameBookingsAgree(s.t, T.Apply(s.t, a), s.p);
  }

  lemma SameBookingsAgree(t: T.State, u: T.State, p: P.State)
    requires BookingsAgree(t, p) && u.bookings == t.bookings && u.everConfirmed == t.everConfirmed
    ensures BookingsAgree(u, p)
  {
    hide SettledAs;
    forall id | id in u.bookings ensures BookingAgrees(u, p, id) { assert BookingAgrees(t, p, id); }
  }

  lemma TicketingStep(s: State, a: T.Action)
    requires Inv(s) && T.Enabled(s.t, a) && TicketingAllowed(s, a)
    ensures Inv(s.(t := T.Apply(s.t, a)))
  {
    hide T.Apply, T.Enabled, TP.Inv, PP.Inv, HandlersAgree, BookingsAgree, RequestsAgree, LogAgrees, LogFromRows,
      CancellationsPosted, RowsSent, OutboxStep, Forward;
    var u := T.Apply(s.t, a);
    TP.InvIsInductive(s.t, a);
    TicketingGoesForward(s.t, a);
    TicketingKeepsMeeting(s, a);
    RequestsStay(s.t, u, s.p);
    LogStays(s.t, u, s.p, s.log);
    TicketingKeepsPosts(s.t, a);
    TicketingOutboxStep(s.t, a);
    SameOutbox(s.p.outbox);
    LogStaysFromRows(s, s.(t := u), MarkedT(a), None);
    RowsSentStay(s.t.outbox, u.outbox, MarkedT(a), s.sentT, s.log);
  }

  /*** Publishing ***/

  lemma PaymentRowAgrees(t: T.State, p: P.State, row: nat)
    requires PP.Announced(p) && row < |p.outbox|
    ensures MessageAgrees(t, p, p.outbox[row].message)
  {
    var m := p.outbox[row].message;
    assert m.txn in p.txns && PP.Fits(m, m.txn, p.txns[m.txn]);
    assert p.txns[m.txn].booking == m.booking;
  }

  lemma TicketingRowAgrees(t: T.State, p: P.State, row: nat)
    requires TP.TicketsOk(t) && CancellationsPosted(t) && row < |t.outbox|
    ensures MessageAgrees(t, p, t.outbox[row].message)
  {
    if t.outbox[row].message.TicketIssued? { assert TP.IsTicket(t.outbox[row]); }
  }

  lemma LogGrows(t: T.State, p: P.State, log: set<Message>, m: Message)
    requires LogAgrees(t, p, log) && MessageAgrees(t, p, m)
    ensures LogAgrees(t, p, log + {m})
  {
  }

  lemma SendRow(
    outbox: seq<OutboxRow>, other: seq<OutboxRow>, sent: set<nat>, sentOther: set<nat>, log: set<Message>, row: nat)
    requires RowsSent(outbox, sent, log) && RowsSent(other, sentOther, log) && row < |outbox|
    ensures RowsSent(outbox, sent + {row}, log + {outbox[row].message}) &&
      RowsSent(other, sentOther, log + {outbox[row].message})
  {
  }

  lemma PublishStep(s: State, a: Action)
    requires Inv(s) && Enabled(s, a) && (a.PublishT? || a.PublishP?)
    ensures Inv(Apply(s, a))
  {
    hide TS.Shape, SL.Ledger, TP.VenueOk, TP.ReleasesOk, TP.RequestsOk, TP.TicketsOk;
    hide PP.ProcsOk, PP.Announced, PP.RefundsOk, PP.OneTxnPerBooking, PP.HistoryOk;
    hide HandlersAgree, BookingsAgree, RequestsAgree, LogAgrees, CancellationsPosted, RowsSent, MessageAgrees;
    if a.PublishT? {
      var m := s.t.outbox[a.row].message;
      TicketingRowAgrees(s.t, s.p, a.row);
      LogGrows(s.t, s.p, s.log, m);
      SendRow(s.t.outbox, s.p.outbox, s.sentT, s.sentP, s.log, a.row);
      assert FromRow(m, s.t.outbox);
    } else {
      var m := s.p.outbox[a.row].message;
      PaymentRowAgrees(s.t, s.p, a.row);
      LogGrows(s.t, s.p, s.log, m);
      SendRow(s.p.outbox, s.t.outbox, s.sentP, s.sentT, s.log, a.row);
      assert FromRow(m, s.p.outbox);
    }
  }

  lemma InvIsInductive(s: State, a: Action)
    requires Inv(s) && Enabled(s, a)
    ensures Inv(Apply(s, a))
  {
    hide T.Apply, T.Enabled, P.Apply, P.Enabled, TP.Inv, PP.Inv, Meet, Sent;
    match a
    case Ticketing(a) => TicketingStep(s, a);
    case Payment(b) => PaymentStep(s, b);
    case PublishT(_) => PublishStep(s, a);
    case PublishP(_) => PublishStep(s, a);
  }

  lemma InitialInv(cascade: bool, now: int)
    ensures Inv(Init(cascade, now))
  {
    TP.InitialInv(cascade);
  }

  lemma {:induction false} RunKeepsInv(s: State, run: seq<Action>)
    requires Inv(s) && Runs(s, run)
    ensures Inv(End(s, run))
    decreases |run|
  {
    hide Inv, Apply, Enabled;
    if run != [] {
      InvIsInductive(s, run[0]);
      RunKeepsInv(Apply(s, run[0]), run[1..]);
    }
  }

  /*** The theorems ***/

  /** In every interleaved run, with messages duplicated, reordered or lost: a booking that is or
      ever was confirmed has a completed transaction, an expired booking has an expired one, a
      ticket is issued only for a completed one, and no booking has both. */
  lemma CrossServiceAgreement(cascade: bool, now: int, run: seq<Action>)
    requires Runs(Init(cascade, now), run)
    ensures var s := End(Init(cascade, now), run);
      && (forall id :: id in s.t.bookings && s.t.bookings[id].status.Confirmed? ==> SettledAs(s.p, id, PT.Completed))
      && (forall id :: id in s.t.everConfirmed ==> SettledAs(s.p, id, PT.Completed))
      && (forall id :: id in s.t.bookings && s.t.bookings[id].status.Expired? ==> SettledAs(s.p, id, PT.Expired))
      && (forall i :: 0 <= i < |s.t.outbox| && s.t.outbox[i].message.TicketIssued? ==>
            SettledAs(s.p, s.t.outbox[i].message.booking, PT.Completed))
      && (forall id :: !(SettledAs(s.p, id, PT.Completed) && SettledAs(s.p, id, PT.Expired)))
  {
    InitialInv(cascade, now);
    RunKeepsInv(Init(cascade, now), run);
    var s := End(Init(cascade, now), run);
    InvGivesAgreement(s);
  }

  lemma InvGivesAgreement(s: State)
    requires Inv(s)
    ensures forall id :: id in s.t.bookings && s.t.bookings[id].status.Confirmed? ==> SettledAs(s.p, id, PT.Completed)
    ensures forall id :: id in s.t.everConfirmed ==> SettledAs(s.p, id, PT.Completed)
    ensures forall id :: id in s.t.bookings && s.t.bookings[id].status.Expired? ==> SettledAs(s.p, id, PT.Expired)
    ensures forall i :: 0 <= i < |s.t.outbox| && s.t.outbox[i].message.TicketIssued? ==>
      SettledAs(s.p, s.t.outbox[i].message.booking, PT.Completed)
    ensures forall id :: !(SettledAs(s.p, id, PT.Completed) && SettledAs(s.p, id, PT.Expired))
  {
    hide TS.Shape, SL.Ledger, TP.VenueOk, TP.ReleasesOk, TP.RequestsOk, SettledAs, PP.Inv, Sent, HandlersAgree;
    forall id | id in s.t.bookings ensures BookingAgrees(s.t, s.p, id) {
    }
    forall i | 0 <= i < |s.t.outbox| && s.t.outbox[i].message.TicketIssued?
      ensures SettledAs(s.p, s.t.outbox[i].message.booking, PT.Completed)
    {
      assert TP.IsTicket(s.t.outbox[i]);
    }
    forall id ensures !(SettledAs(s.p, id, PT.Completed) && SettledAs(s.p, id, PT.Expired)) { SettledOneWay(s.p, id); }
  }

  /** In every interleaved run the money agrees: a transaction carries the event, user and exact
      price of the booking it was created for, and a refund the amount of its transaction. */
  lemma MoneyAgrees(cascade: bool, now: int, run: seq<Action>)
    requires Runs(Init(cascade, now), run)
    ensures var s := End(Init(cascade, now), run);
      && (forall x :: x in s.p.txns && s.p.txns[x].booking in s.t.bookings ==>
            var row := s.t.bookings[s.p.txns[x].booking];
            s.p.txns[x].amount == TT.Price(row.items) && s.p.txns[x].event == row.event && s.p.txns[x].user == row.user)
      && (forall k :: k in s.p.refunds && k.txn in s.p.txns && s.p.txns[k.txn].booking in s.t.bookings ==>
            s.p.refunds[k].amount == TT.Price(s.t.bookings[s.p.txns[k.txn].booking].items))
      && (forall k :: k in s.p.refunds ==> k.txn in s.p.txns)
  {
    hide TT.Price;
    InitialInv(cascade, now);
    RunKeepsInv(Init(cascade, now), run);
    InvHasRequests(End(Init(cascade, now), run).t);
    PP.InvHasRefundsOk(End(Init(cascade, now), run).p);
    hide TP.Inv, PP.Inv, Sent, HandlersAgree, BookingsAgree;
  }

  /** In every interleaved run: a row marked delivered was itself published, with its own message, and
      every published message comes from a row of an outbox. */
  lemma DeliveredWasPublished(cascade: bool, now: int, run: seq<Action>)
    requires Runs(Init(cascade, now), run)
    ensures var s := End(Init(cascade, now), run);
      && (forall i :: 0 <= i < |s.t.outbox| && s.t.outbox[i].delivered ==> i in s.sentT)
      && (forall i :: 0 <= i < |s.p.outbox| && s.p.outbox[i].delivered ==> i in s.sentP)
      && (forall i :: i in s.sentT ==> i < |s.t.outbox| && s.t.outbox[i].message in s.log)
      && (forall i :: i in s.sentP ==> i < |s.p.outbox| && s.p.outbox[i].message in s.log)
      && (forall m :: m in s.log ==> FromRow(m, s.t.outbox) || FromRow(m, s.p.outbox))
  {
    InitialInv(cascade, now);
    RunKeepsInv(Init(cascade, now), run);
    hide TP.Inv, PP.Inv, Meet, LogAgrees, CancellationsPosted, FromRow;
  }

  /** The log never holds both payment messages of a booking. */
  lemma LogOneWay(s: State, c: Message, x: Message)
    requires Inv(s) && c in s.log && x in s.log && c.PaymentCompleted? && x.PaymentExpired?
    ensures c.booking != x.booking
  {
    hide TP.Inv, PP.Inv, Meet, RowsSent, LogFromRows, CancellationsPosted, SettledAs;
    assert MessageAgrees(s.t, s.p, c) && MessageAgrees(s.t, s.p, x);
    SettledOneWay(s.p, c.booking);
  }

  /** A cancellation in the log is that of a cancelled event. */
  lemma LogIsCalledOff(s: State, e: nat)
    requires Inv(s) && Message.EventCancelled(e) in s.log
    ensures C.IsCalledOff(s.t, e)
  {
    hide TP.Inv, PP.Inv, Meet, RowsSent, LogFromRows, CancellationsPosted, SettledAs;
    assert MessageAgrees(s.t, s.p, Message.EventCancelled(e));
  }

  lemma InvHasTicketing(s: State)
    requires Inv(s)
    ensures TP.Inv(s.t)
  {
  }
}
