/** The handlers of the payment service as code over its database, each run undisturbed. */
module PaymentService {
  import opened Messages
  import opened Batches
  import opened PaymentTables
  import opened P = PaymentSteps
  import opened PaymentStore

  datatype Books = Books(txns: map<nat, Txn>, refunds: map<RefundKey, Refund>, outbox: seq<OutboxRow>)

  /** The session id of a webhook: payment_session_id, or id if that is empty. */
  function SessionId(paymentSession: SessionRef, id: SessionRef): SessionRef {
    if paymentSession.Session? then paymentSession else id
  }

  /** The statements of a webhook whose errors are dropped: the outbox insert, the insert of the
      late-payment refund and the refund mark. */
  datatype WebhookFaults = WebhookFaults(post: bool, refund: bool, mark: bool)

  const NO_FAULTS := WebhookFaults(false, false, false)

  function PostUnlessLost(outbox: seq<OutboxRow>, m: Message, lost: bool): seq<OutboxRow> {
    if lost then outbox else Insert(outbox, m)
  }

  /** requestLatePaymentRefund: no refund, no mark. */
  function LateRefunded(d: Books, x: nat, f: WebhookFaults): Books
    requires x in d.txns
  {
    if f.refund then d
    else
      d.(txns := if f.mark then d.txns else d.txns[x := d.txns[x].(refund := RefundPending)],
         refunds := InsertRefund(d.refunds, RefundKey(LatePayment, x), RefundOf(d.txns[x])))
  }

  /** A matching webhook for transaction x. */
  function AfterWebhook(d: Books, x: nat, kind: WebhookKind, f: WebhookFaults): (r: Books)
    requires x in d.txns
    ensures r.txns.Keys == d.txns.Keys
  {
    var row := d.txns[x];
    match kind
    case SessionCompleted =>
      if IsActive(row.status) then
        d.(txns := d.txns[x := row.(status := Completed)],
          outbox := PostUnlessLost(d.outbox, CompletedMessage(x, row), f.post))
      else if row.status.Expired? then LateRefunded(d, x, f)
      else d
    case SessionExpired =>
      if IsActive(row.status) then
        d.(txns := d.txns[x := row.(status := Expired)],
           outbox := PostUnlessLost(d.outbox, ExpiredMessage(x, row, GatewayExpired), f.post))
      else d
  }

  /** A delivery and the faults it meets. */
  datatype Delivery = Delivery(kind: WebhookKind, f: WebhookFaults)

  /** A sequence of deliveries for the same transaction. */
  function AfterWebhooks(d: Books, x: nat, ds: seq<Delivery>): Books
    requires x in d.txns
    decreases |ds|
  {
    if ds == [] then d else AfterWebhooks(AfterWebhook(d, x, ds[0].kind, ds[0].f), x, ds[1..])
  }

  /** A duplicate delivery changes nothing, in any state. */
  lemma DuplicateChangesNothing(d: Books, x: nat, kind: WebhookKind, f: WebhookFaults)
    requires x in d.txns
    ensures
      var u := AfterWebhook(d, x, kind, NO_FAULTS);
      AfterWebhook(u, x, kind, f) == u
  {
    var u := AfterWebhook(d, x, kind, NO_FAULTS);
    assert AfterWebhook(u, x, kind, f).txns == u.txns;
  }

  lemma {:induction false} CompletedForGood(d: Books, x: nat, ds: seq<Delivery>)
    requires x in d.txns && d.txns[x].status.Completed?
    ensures AfterWebhooks(d, x, ds) == d
    decreases |ds|
  {
    if ds != [] {
      CompletedForGood(d, x, ds[1..]);
    }
  }

  /** A delivery that says paid and whose refund insert works, and whose mark works too. */
  predicate MakesRefund(e: Delivery) {
    e.kind.SessionCompleted? && !e.f.refund
  }

  predicate MakesMark(e: Delivery) {
    MakesRefund(e) && !e.f.mark
  }

  /** What deliveries for an expired transaction come to: one refund, if one of them gets that far, and
      a mark, if one of them gets that far. */
  function LateResult(d: Books, x: nat, ds: seq<Delivery>): Books
    requires x in d.txns
  {
    var row := d.txns[x];
    d.(txns := if AnyMark(ds) then d.txns[x := row.(refund := RefundPending)] else d.txns,
       refunds := if AnyRefund(ds) then InsertRefund(d.refunds, RefundKey(LatePayment, x), RefundOf(row))
                  else d.refunds)
  }

  predicate AnyRefund(ds: seq<Delivery>) {
    exists i :: 0 <= i < |ds| && MakesRefund(ds[i])
  }

  predicate AnyMark(ds: seq<Delivery>) {
    exists i :: 0 <= i < |ds| && MakesMark(ds[i])
  }

  lemma AnyOf(ds: seq<Delivery>)
    requires ds != []
    ensures AnyRefund(ds) <==> MakesRefund(ds[0]) || AnyRefund(ds[1..])
    ensures AnyMark(ds) <==> MakesMark(ds[0]) || AnyMark(ds[1..])
  {
    assert forall i :: 0 < i < |ds| ==> ds[i] == ds[1..][i - 1];
    assert forall i :: 0 <= i < |ds| - 1 ==> ds[1..][i] == ds[i + 1];
  }

  lemma LateResultStep(d: Books, x: nat, ds: seq<Delivery>)
    requires x in d.txns && d.txns[x].status.Expired? && ds != []
    ensures LateResult(AfterWebhook(d, x, ds[0].kind, ds[0].f), x, ds[1..]) == LateResult(d, x, ds)
  {
    AnyOf(ds);
    hide AnyRefund, AnyMark;
    var u := AfterWebhook(d, x, ds[0].kind, ds[0].f);
    var a, b := LateResult(u, x, ds[1..]), LateResult(d, x, ds);
    assert a.txns == b.txns;
    assert a.refunds == b.refunds;
  }

  lemma {:induction false} ExpiredThenPaid(d: Books, x: nat, ds: seq<Delivery>)
    requires x in d.txns && d.txns[x].status.Expired?
    ensures AfterWebhooks(d, x, ds) == LateResult(d, x, ds)
    decreases |ds|
  {
    if ds != [] {
      LateResultStep(d, x, ds);
      ExpiredThenPaid(AfterWebhook(d, x, ds[0].kind, ds[0].f), x, ds[1..]);
    }
  }

  /** Of any deliveries for an active transaction, whatever fails in them, the first one decides; the
      others add nothing but one late-payment refund and its mark when the money came after the
      expiry and the statements for them worked once. */
  lemma FirstDeliveryDecides(d: Books, x: nat, ds: seq<Delivery>)
    requires x in d.txns && IsActive(d.txns[x].status) && ds != []
    ensures
      var first := AfterWebhook(d, x, ds[0].kind, ds[0].f);
      AfterWebhooks(d, x, ds) == if ds[0].kind.SessionCompleted? then first else LateResult(first, x, ds[1..])
  {
    var first := AfterWebhook(d, x, ds[0].kind, ds[0].f);
    if ds[0].kind.SessionCompleted? {
      CompletedForGood(first, x, ds[1..]);
    } else {
      ExpiredThenPaid(first, x, ds[1..]);
    }
  }

  /*** The expiry poller ***/

  function ExpireSet(txns: map<nat, Txn>, xs: set<nat>): map<nat, Txn> {
    map x | x in txns :: if x in xs then txns[x].(status := Expired) else txns[x]
  }

  /** The messages of a pass, row by row; nothing for rows whose update or insert fails. */
  function Expiries(rows: seq<Seen>, failing: set<nat>, lost: set<nat>): seq<OutboxRow> {
    if rows == [] then []
    else
      var last := rows[|rows| - 1];
      Expiries(rows[..|rows| - 1], failing, lost) +
      if last.txn in failing || last.txn in lost then []
      else [OutboxRow(ExpiredMessage(last.txn, last.snap, InternalExpiryFallback), false)]
  }

  lemma ExpiredAreNotOverdue(txns: map<nat, Txn>, xs: set<nat>, now: int)
    requires xs <= OverdueSet(txns, now)
    ensures OverdueSet(ExpireSet(txns, xs), now) == OverdueSet(txns, now) - xs
    ensures |OverdueSet(ExpireSet(txns, xs), now)| == |OverdueSet(txns, now)| - |xs|
  {
    assert OverdueSet(ExpireSet(txns, xs), now) == OverdueSet(txns, now) - xs;
    SubsetSize(xs, OverdueSet(txns, now));
  }

  /*** The refund pass ***/

  /** The refund pays this transaction back: its booking, event, amount and gateway session. */
  predicate Refunds(r: Refund, row: Txn) {
    r.booking == row.booking && r.event == row.event && r.amount == row.amount && r.ref == row.ref
  }

  predicate Owed(row: Txn, e: nat) {
    row.event == e && row.status.Completed?
  }

  function OwedSet(txns: map<nat, Txn>, e: nat): set<nat> {
    set x | x in txns && Owed(txns[x], e)
  }

  function PassKeys(xs: set<nat>): set<RefundKey> {
    set x | x in xs :: RefundKey(CancelledEvent, x)
  }

  /** A refund row and a pending mark for every transaction of a set; rows already there stay. */
  function RefundSet(d: Books, xs: set<nat>): Books
    requires xs <= d.txns.Keys
  {
    d.(txns := map x | x in d.txns :: if x in xs then d.txns[x].(refund := RefundPending) else d.txns[x],
       refunds := map k | k in d.refunds.Keys + PassKeys(xs) ::
         if k in d.refunds then d.refunds[k] else RefundOf(d.txns[k.txn]))
  }

  lemma RefundOneMore(d: Books, xs: set<nat>, x: nat)
    requires xs <= d.txns.Keys && x in d.txns
    ensures
      var u := RefundSet(d, xs);
      x in u.txns && RefundSet(d, xs + {x}) == u.(
        txns := u.txns[x := u.txns[x].(refund := RefundPending)],
        refunds := InsertRefund(u.refunds, RefundKey(CancelledEvent, x), RefundOf(d.txns[x])))
  {
    var u, v := RefundSet(d, xs), RefundSet(d, xs + {x});
    var key := RefundKey(CancelledEvent, x);
    assert PassKeys(xs + {x}) == PassKeys(xs) + {key};
    assert v.txns == u.txns[x := u.txns[x].(refund := RefundPending)];
    assert v.refunds == InsertRefund(u.refunds, key, RefundOf(d.txns[x]));
  }

  /** A pass gives every completed transaction of the event a refund and a pending mark, changes no
      other transaction and no refund that was there, and a second pass changes nothing. */
  lemma PassConverges(d: Books, e: nat)
    ensures
      var u := RefundSet(d, OwedSet(d.txns, e));
      && (forall x :: x in d.txns && d.txns[x].event == e && d.txns[x].status.Completed? ==>
            && u.txns[x] == d.txns[x].(refund := RefundPending)
            && RefundKey(CancelledEvent, x) in u.refunds
            && (RefundKey(CancelledEvent, x) !in d.refunds ==>
                  Refunds(u.refunds[RefundKey(CancelledEvent, x)], d.txns[x])))
      && (forall x :: x in d.txns && !(d.txns[x].event == e && d.txns[x].status.Completed?) ==> u.txns[x] == d.txns[x])
      && (forall k :: k in u.refunds && k !in d.refunds ==>
            k.reason.CancelledEvent? && k.txn in d.txns && d.txns[k.txn].event == e && d.txns[k.txn].status.Completed?)
      && (forall k :: k in d.refunds ==> k in u.refunds && u.refunds[k] == d.refunds[k])
      && OwedSet(u.txns, e) == OwedSet(d.txns, e)
      && RefundSet(u, OwedSet(u.txns, e)) == u
  {
    var xs := OwedSet(d.txns, e);
    var u := RefundSet(d, xs);
    forall x | x in d.txns && Owed(d.txns[x], e)
      ensures RefundKey(CancelledEvent, x) in u.refunds && x in xs
    {
      assert RefundKey(CancelledEvent, x) in PassKeys(xs);
    }
    assert OwedSet(u.txns, e) == xs;
    assert RefundSet(u, xs).txns == u.txns;
    assert RefundSet(u, xs).refunds == u.refunds;
  }

  /** The expiry asked of the gateway: the buffer before the deadline, but ten minutes from now at
      the least, so that the session outlives the hold when less than ten minutes remain. */
  function GatewayExpiry(expiresAt: int, buffer: nat, now: int): (r: int)
    ensures r >= now + 600 && r >= expiresAt - buffer * 60
    ensures r == now + 600 || r == expiresAt - buffer * 60
    ensures r > expiresAt <==> expiresAt < now + 600
  {
    if expiresAt - buffer * MINUTE < now + 10 * MINUTE then now + 10 * MINUTE else expiresAt - buffer * MINUTE
  }

  datatype Check = Payable(txn: nat, gatewayExpiry: int) | NotFound | AlreadyProcessed | TooLate

  predicate TooClose(row: Txn, now: int) {
    row.expiresAt.None? || row.expiresAt.value <= now || row.expiresAt.value - now < MINUTE
  }

  class Service {
    const db: PaymentDb

    constructor (db: PaymentDb)
      ensures this.db == db
    {
      this.db := db;
    }

    ghost function View(): Books
      reads db
    {
      Books(db.txns, db.refunds, db.outbox)
    }

    /** Idempotent per booking: the transaction created, or the one that is there already. */
    method InitiateTxnForBooking(x: nat, booking: nat, event: nat, user: nat, amount: nat, expiresAt: int)
      returns (txn: nat)
      requires db.Valid() && x !in db.txns
      modifies db`txns
      ensures db.Valid() && txn in db.txns && db.txns[txn].booking == booking
      ensures txn != x ==> txn in old(db.txns) && db.txns == old(db.txns)
      ensures txn == x ==>
        && (forall y :: y in old(db.txns) ==> old(db.txns)[y].booking != booking)
        && db.txns == old(db.txns)[x :=
             Txn(booking, event, user, amount, Initiated, NoSession, NotRefunded, Some(expiresAt))]
    {
      var ok := db.Create(x, Txn(booking, event, user, amount, Initiated, NoSession, NotRefunded, Some(expiresAt)));
      if ok {
        return x;
      }
      var existing := db.FindByBookingID(booking);
      txn := existing.value.txn;
    }

    /** The checks of ProcessPayment, before the gateway is called. */
    method CheckPayment(booking: nat, user: nat, now: int, buffer: nat) returns (r: Check)
      ensures (forall x :: x in db.txns ==> db.txns[x].booking != booking) ==> r.NotFound?
      ensures db.Valid() ==> forall x :: x in db.txns && db.txns[x].booking == booking ==>
        var row := db.txns[x];
        && (r.AlreadyProcessed? <==> !row.status.Initiated?)
        && (r.TooLate? <==>
              row.status.Initiated? && (row.expiresAt.None? || row.expiresAt.value - now < 60))
        && (r.NotFound? <==>
              row.status.Initiated? && row.expiresAt.Some? && row.expiresAt.value - now >= 60 && row.user != user)
        && (r.Payable? ==> r.txn == x && r.gatewayExpiry == GatewayExpiry(row.expiresAt.value, buffer, now))
    {
      var found := db.FindByBookingID(booking);
      if found.None? {
        return NotFound;
      }
      var row := found.value.snap;
      if !row.status.Initiated? {
        return AlreadyProcessed;
      }
      if TooClose(row, now) {
        return TooLate;
      }
      if row.user != user {
        return NotFound;
      }
      r := Payable(found.value.txn, GatewayExpiry(row.expiresAt.value, buffer, now));
    }

    /** The guarded update of ProcessPayment once the gateway has answered, whatever happened since
        the checks: the session is stored only if the transaction is still initiated. */
    method ClaimSession(x: nat, ref: SessionRef) returns (won: bool)
      requires db.Valid()
      modifies db`txns
      ensures db.Valid() && (won <==> x in old(db.txns) && old(db.txns)[x].status.Initiated?)
      ensures db.txns ==
        if won then old(db.txns)[x := old(db.txns)[x].(status := Pending, ref := ref)] else old(db.txns)
    {
      won := db.TransitionIfInitiated(x, Pending, ref);
      if won {
        db.UpdateSession(x, ref);
      }
    }

    /** booking: the reference_id, if any; kind: None for an event the service does not know. */
    method HandleSessionWebhook(
      booking: Option<nat>, kind: Option<WebhookKind>, paymentSession: SessionRef, id: SessionRef, f: WebhookFaults)
      returns (ok: bool)
      requires db.Valid()
      modifies db
      ensures db.Valid()
      ensures ok <==> booking.Some? && exists x :: x in old(db.txns) && old(db.txns)[x].booking == booking.value
      ensures !ok ==> View() == old(View())
      ensures ok ==> forall x :: x in old(db.txns) && old(db.txns)[x].booking == booking.value ==>
        var ref := old(db.txns)[x].ref;
        var heard := if paymentSession.Session? then paymentSession == ref else id.NoSession? || id == ref;
        View() == if kind.Some? && heard
                  then AfterWebhook(old(View()), x, kind.value, f) else old(View())
    {
      if booking.None? {
        return false;
      }
      var found := db.FindByBookingID(booking.value);
      if found.None? {
        return false;
      }
      ok := true;
      var Seen(x, row) := found.value;
      var sid := SessionId(paymentSession, id);
      if kind.None? || (sid.Session? && sid != row.ref) {
        return;
      }
      match kind.value
      case SessionCompleted => Complete(x, row, f);
      case SessionExpired => ExpireByGateway(x, row, f.post);
    }

    method Complete(x: nat, row: Txn, f: WebhookFaults)
      requires db.Valid() && x in db.txns && db.txns[x] == row
      modifies db
      ensures db.Valid() && View() == AfterWebhook(old(View()), x, SessionCompleted, f)
    {
      var applied := db.TransitionIfActive(x, Completed, row.ref);
      if applied {
        if !f.post {
          db.Post(CompletedMessage(x, row));
        }
        return;
      }
      if row.status.Expired? {
        RequestLatePaymentRefund(x, row, f);
      }
    }

    method RequestLatePaymentRefund(x: nat, row: Txn, f: WebhookFaults)
      requires db.Valid() && x in db.txns && db.txns[x] == row
      modifies db`txns, db`refunds
      ensures db.Valid() && View() == LateRefunded(old(View()), x, f)
      ensures !f.refund && RefundKey(LatePayment, x) !in old(db.refunds) ==>
        RefundKey(LatePayment, x) in db.refunds && Refunds(db.refunds[RefundKey(LatePayment, x)], row)
    {
      if f.refund {
        return;
      }
      db.CreateRefund(RefundKey(LatePayment, x), RefundOf(row));
      if !f.mark {
        db.MarkRefundPending(x);
      }
    }

    method ExpireByGateway(x: nat, row: Txn, lost: bool)
      requires db.Valid() && x in db.txns && db.txns[x] == row
      modifies db
      ensures db.Valid() && View() == AfterWebhook(old(View()), x, SessionExpired, NO_FAULTS.(post := lost))
    {
      var applied := db.TransitionIfActive(x, Expired, row.ref);
      if applied && !lost {
        db.Post(ExpiredMessage(x, row, GatewayExpired));
      }
    }

    /** One pass of the poller: the earliest overdue rows expire, but for those whose update fails;
        nothing else is touched. */
    method ProcessExpired(now: int, limit: nat, failing: set<nat>, lost: set<nat>) returns (ghost rows: seq<Seen>)
      requires db.Valid()
      modifies db`txns, db`outbox
      ensures db.Valid() && EarliestOverdue(old(db.txns), now, limit, rows)
      ensures db.txns == ExpireSet(old(db.txns), Listed(rows) - failing)
      ensures db.outbox == old(db.outbox) + Expiries(rows, failing, lost)
    {
      var todo := db.ListActiveExpired(now, limit);
      rows := todo;
      ghost var txns := db.txns;
      assert rows[..0] == [] && ExpireSet(txns, Listed([]) - failing) == txns;
      for i := 0 to |todo|
        invariant rows == todo && db.Valid() && db.txns == ExpireSet(txns, Listed(rows[..i]) - failing)
        invariant db.outbox == old(db.outbox) + Expiries(rows[..i], failing, lost)
      {
        var Seen(x, snap) := todo[i];
        PassOn(txns, now, rows, i, failing);
        hide ExpireSet, Listed, OverdueSet;
        var applied := false;
        if x !in failing {
          applied := db.TransitionIfActive(x, Expired, snap.ref);
        }
        if applied && x !in lost {
          db.Post(ExpiredMessage(x, snap, InternalExpiryFallback));
        }
        assert rows[..i + 1][..i] == rows[..i];
      }
      assert rows[..|rows|] == rows;
    }

    /** Error-free passes at one point in time: every pass clears a full batch, until none is left. */
    method Drain(now: int, limit: nat, passes: nat)
      requires db.Valid()
      modifies db`txns, db`outbox
      ensures db.Valid() && |OverdueSet(db.txns, now)| == Left(old(|OverdueSet(db.txns, now)|), limit, passes)
      ensures old(|OverdueSet(db.txns, now)|) <= passes * limit ==>
        forall x :: x in db.txns && (db.txns[x].status.Initiated? || db.txns[x].status.Pending?) ==>
          db.txns[x].expiresAt.None? || db.txns[x].expiresAt.value > now
    {
      ghost var n := |OverdueSet(db.txns, now)|;
      for i := 0 to passes
        invariant db.Valid() && |OverdueSet(db.txns, now)| == Left(n, limit, i)
      {
        ghost var txns := db.txns;
        ghost var rows := ProcessExpired(now, limit, {}, {});
        assert Listed(rows) - {} == Listed(rows);
        ListingSize(txns, now, limit, rows);
        ListedSize(rows);
        ExpiredAreNotOverdue(txns, Listed(rows), now);
        OnePassMore(n, limit, i, |rows|);
      }
      OverdueMeans(db.txns, now);
    }

    /** The refund pass for a cancelled event. */
    method HandleEventCancelled(e: nat)
      requires db.Valid()
      modifies db`txns, db`refunds
      ensures db.Valid() && View() == RefundSet(old(View()), OwedSet(old(db.txns), e))
    {
      var rows := db.ListByEventID(e);
      ghost var d := View();
      RefundNone(d, rows);
      hide RefundSet, CompletedIn;
      for i := 0 to |rows|
        invariant db.Valid() && CompletedIn(rows[..i]) <= d.txns.Keys
        invariant View() == RefundSet(d, CompletedIn(rows[..i]))
      {
        CompletedMore(rows, i);
        if rows[i].snap.status.Completed? {
          RefundOneMore(d, CompletedIn(rows[..i]), rows[i].txn);
          RequestRefund(rows[i].txn, rows[i].snap);
        }
      }
      AllOwed(d.txns, e, rows);
    }

    /** The refund row, then the mark on the transaction. */
    method RequestRefund(x: nat, snap: Txn)
      requires db.Valid() && x in db.txns
      modifies db`txns, db`refunds
      ensures db.Valid()
      ensures View() == old(View()).(
        txns := old(db.txns)[x := old(db.txns)[x].(refund := RefundPending)],
        refunds := InsertRefund(old(db.refunds), RefundKey(CancelledEvent, x), RefundOf(snap)))
    {
      db.CreateRefund(RefundKey(CancelledEvent, x), RefundOf(snap));
      db.MarkRefundPending(x);
    }
  }

  lemma RefundNone(d: Books, rows: seq<Seen>)
    ensures CompletedIn(rows[..0]) == {} && RefundSet(d, {}) == d
  {
    assert RefundSet(d, {}).txns == d.txns && RefundSet(d, {}).refunds == d.refunds;
  }

  lemma PassOn(txns: map<nat, Txn>, now: int, rows: seq<Seen>, i: nat, failing: set<nat>)
    requires i < |rows| && Current(txns, rows) && Distinct(rows) && Listed(rows) <= OverdueSet(txns, now)
    ensures
      var x := rows[i].txn;
      var part := ExpireSet(txns, Listed(rows[..i]) - failing);
      && x in part && part[x] == rows[i].snap && IsActive(part[x].status)
      && ExpireSet(txns, Listed(rows[..i + 1]) - failing) ==
           if x in failing then part else part[x := TransitionIfActive(part[x], Expired, rows[i].snap.ref)]
  {
    var x := rows[i].txn;
    assert rows[..i + 1] == rows[..i] + [rows[i]];
    ListedMore(rows[..i], rows[i]);
    assert x !in Listed(rows[..i]);
    assert x in Listed(rows);
    var before, after := ExpireSet(txns, Listed(rows[..i]) - failing), ExpireSet(txns, Listed(rows[..i + 1]) - failing);
    if x in failing {
      assert Listed(rows[..i + 1]) - failing == Listed(rows[..i]) - failing;
    } else {
      assert Listed(rows[..i + 1]) - failing == Listed(rows[..i]) - failing + {x};
      assert after == before[x := TransitionIfActive(before[x], Expired, rows[i].snap.ref)];
    }
  }

  lemma CompletedMore(rows: seq<Seen>, i: nat)
    requires i < |rows|
    ensures CompletedIn(rows[..i + 1]) ==
      if rows[i].snap.status.Completed? then CompletedIn(rows[..i]) + {rows[i].txn} else CompletedIn(rows[..i])
  {
    var less, more := rows[..i], rows[..i + 1];
    forall x | x in CompletedIn(less) ensures x in CompletedIn(more) {
      var j :| 0 <= j < i && less[j].snap.status.Completed? && less[j].txn == x;
      assert more[j].txn == x;
    }
    assert more[i] == rows[i];
    forall x | x in CompletedIn(more) && x != rows[i].txn ensures x in CompletedIn(less) {
      var j :| 0 <= j < i + 1 && more[j].snap.status.Completed? && more[j].txn == x;
      assert less[j].txn == x;
    }
  }

  lemma AllOwed(txns: map<nat, Txn>, e: nat, rows: seq<Seen>)
    requires Current(txns, rows) && Listed(rows) == set x | x in txns && txns[x].event == e
    ensures CompletedIn(rows[..|rows|]) == OwedSet(txns, e)
  {
    assert rows[..|rows|] == rows;
    forall x | x in CompletedIn(rows) ensures x in OwedSet(txns, e) {
      var i :| 0 <= i < |rows| && rows[i].snap.status.Completed? && rows[i].txn == x;
      assert x in Listed(rows);
    }
    forall x | x in OwedSet(txns, e) ensures x in CompletedIn(rows) {
      assert x in Listed(rows);
      var i :| 0 <= i < |rows| && rows[i].txn == x;
    }
  }
}
