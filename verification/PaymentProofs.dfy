/** Invariants of the payment service over every run. */
module PaymentProofs {
  import opened Messages
  import opened PaymentTables
  import opened PaymentSteps

  /** How a transaction row may change from one moment to a later one: its identity is fixed,
      a terminal status is final, 'initiated' is never entered again, a refund mark stays. */
  predicate Past(a: Txn, b: Txn) {
    && a.booking == b.booking && a.event == b.event && a.user == b.user
    && a.amount == b.amount && a.expiresAt == b.expiresAt
    && (!IsActive(a.status) ==> b.status == a.status)
    && (b.status.Initiated? ==> a.status.Initiated?)
    && (a.refund.RefundPending? ==> b.refund.RefundPending?)
  }

  ghost predicate Evolves(a: map<nat, Txn>, b: map<nat, Txn>) {
    forall x :: x in a ==> x in b && Past(a[x], b[x])
  }

  predicate Known(s: State, x: nat, snap: Txn) {
    x in s.txns && Past(snap, s.txns[x])
  }

  /** A terminal message fits a transaction: right topic for its status, right payload. */
  predicate Fits(m: Message, x: nat, row: Txn) {
    || (row.status.Completed? && m == CompletedMessage(x, row))
    || (row.status.Expired? && m.PaymentExpired? && m == ExpiredMessage(x, row, m.reason))
  }

  ghost predicate AllKnown(s: State, rows: seq<Seen>) {
    forall i :: 0 <= i < |rows| ==> Known(s, rows[i].txn, rows[i].snap)
  }

  ghost predicate AllDue(s: State, rows: seq<Seen>) {
    forall i :: 0 <= i < |rows| ==> Due(rows[i].snap, s.now)
  }

  predicate Refunded(s: State, x: nat) {
    x in s.txns && RefundKey(CancelledEvent, x) in s.refunds && s.txns[x].refund.RefundPending?
  }

  /** Everything listed by a refund pass is refunded or still to do. */
  ghost predicate Covered(s: State, listed: set<nat>, todo: seq<Seen>) {
    forall x :: x in listed ==> Refunded(s, x) || IsToDo(todo, x)
  }

  predicate IsToDo(todo: seq<Seen>, x: nat) {
    exists i :: 0 <= i < |todo| && todo[i].txn == x && todo[i].snap.status.Completed?
  }

  ghost predicate ProcOk(s: State, p: Proc) {
    match p
    case Webhook(_, sid, x, snap) => Known(s, x, snap) && (sid.NoSession? || sid == snap.ref)
    case Announcing(x, m) => x in s.txns && Fits(m, x, s.txns[x])
    case LateRefund(x, snap) => Known(s, x, snap) && snap.status.Expired?
    case LateMark(x) => x in s.txns && s.txns[x].status.Expired? && RefundKey(LatePayment, x) in s.refunds
    case Poll(todo) => AllKnown(s, todo) && AllDue(s, todo)
    case PollAnnouncing(x, m, todo) => x in s.txns && Fits(m, x, s.txns[x]) && AllKnown(s, todo) && AllDue(s, todo)
    case Pass(listed, todo) => AllKnown(s, todo) && Covered(s, listed, todo)
    case PassMarking(listed, x, todo) =>
      && x in s.txns && RefundKey(CancelledEvent, x) in s.refunds
      && AllKnown(s, todo) && Covered(s, listed - {x}, todo)
    case Paying(x, snap, at) =>
      Known(s, x, snap) && snap.expiresAt.Some? && snap.expiresAt.value >= at + MINUTE
    case PayingWith(x, at, _) =>
      x in s.txns && s.txns[x].expiresAt.Some? && s.txns[x].expiresAt.value >= at + MINUTE
    case Storing(x, _) => x in s.txns && !s.txns[x].status.Initiated?
  }

  ghost predicate ProcsOk(s: State) {
    forall pid :: pid in s.procs ==> ProcOk(s, s.procs[pid])
  }

  /** The transaction whose terminal message a process is about to insert. */
  function Owes(p: Proc): Option<nat> {
    match p
    case Announcing(x, _) => Some(x)
    case PollAnnouncing(x, _, _) => Some(x)
    case _ => None
  }

  /** One terminal message per transaction, counting those still to be inserted. */
  ghost predicate Announced(s: State) {
    && (forall i :: 0 <= i < |s.outbox| ==>
          var m := s.outbox[i].message;
          (m.PaymentCompleted? || m.PaymentExpired?) && m.txn in s.txns && Fits(m, m.txn, s.txns[m.txn]))
    && (forall i, j :: 0 <= i < j < |s.outbox| ==> s.outbox[i].message.txn != s.outbox[j].message.txn)
    && (forall pid, i :: pid in s.procs && 0 <= i < |s.outbox| ==> Owes(s.procs[pid]) != Some(s.outbox[i].message.txn))
    && (forall p, q :: p in s.procs && q in s.procs && p != q && Owes(s.procs[p]).Some? ==>
          Owes(s.procs[p]) != Owes(s.procs[q]))
  }

  /** A refund row belongs to a transaction, has its amount, and its reason matches the status. */
  ghost predicate RefundsOk(s: State) {
    && (forall k :: k in s.refunds ==>
          && k.txn in s.txns
          && s.refunds[k].amount == s.txns[k.txn].amount
          && s.refunds[k].booking == s.txns[k.txn].booking
          && s.refunds[k].event == s.txns[k.txn].event
          && (k.reason.LatePayment? ==> s.txns[k.txn].status.Expired?)
          && (k.reason.CancelledEvent? ==> s.txns[k.txn].status.Completed?))
    && (forall x :: x in s.txns && s.txns[x].refund.RefundPending? ==>
          RefundKey(LatePayment, x) in s.refunds || RefundKey(CancelledEvent, x) in s.refunds)
  }

  ghost predicate OneTxnPerBooking(s: State) {
    forall x, y :: x in s.txns && y in s.txns && s.txns[x].booking == s.txns[y].booking ==> x == y
  }

  /** The money paid for a transaction is accounted for: completed, or refunded as late. */
  predicate Safe(s: State, x: nat) {
    x in s.txns && (s.txns[x].status.Completed? || RefundKey(LatePayment, x) in s.refunds)
  }

  /** What a webhook or a refund pass that ran to its end has achieved. */
  ghost predicate HistoryOk(s: State) {
    && (forall r :: r in s.returned && r.how.InTime? ==> Safe(s, r.txn))
    && (forall listed, x :: listed in s.passes && x in listed ==> Refunded(s, x))
  }

  ghost predicate Inv(s: State) {
    ProcsOk(s) && Announced(s) && RefundsOk(s) && OneTxnPerBooking(s) && HistoryOk(s)
  }

  /** The ways in which the database only grows. */
  ghost predicate Grows(s: State, t: State) {
    && Evolves(s.txns, t.txns)
    && s.refunds.Keys <= t.refunds.Keys
    && s.now <= t.now
  }

  lemma ProcOkIsStable(s: State, t: State, p: Proc)
    requires ProcOk(s, p) && Grows(s, t)
    ensures ProcOk(t, p)
  {
  }

  /** Only the process pid takes part in the step. */
  ghost predicate OthersWait(s: State, t: State, pid: nat) {
    forall q :: q != pid ==> (q in t.procs <==> q in s.procs) && (q in t.procs ==> t.procs[q] == s.procs[q])
  }

  /** What a step has to respect about its own process and the rows it writes. */
  ghost predicate LocalOk(s: State, t: State, pid: nat) {
    && Grows(s, t)
    && OthersWait(s, t, pid)
    && (pid in t.procs ==> ProcOk(t, t.procs[pid]))
  }

  lemma ProcsOkAfter(s: State, t: State, pid: nat)
    requires ProcsOk(s) && LocalOk(s, t, pid)
    ensures ProcsOk(t)
  {
    forall q | q in t.procs ensures ProcOk(t, t.procs[q]) {
      if q != pid { ProcOkIsStable(s, t, s.procs[q]); }
    }
  }

  /** A step that leaves the outbox alone either adds no debt, or settles an active
      transaction and takes on the debt of announcing it. */
  ghost predicate DebtOk(s: State, t: State, pid: nat) {
    pid in t.procs && Owes(t.procs[pid]).Some? ==>
      var x := Owes(t.procs[pid]).value;
      || (pid in s.procs && Owes(s.procs[pid]) == Some(x))
      || (x in s.txns && IsActive(s.txns[x].status))
  }

  lemma DebtorsAreSettled(s: State)
    requires ProcsOk(s)
    ensures forall q :: q in s.procs && Owes(s.procs[q]).Some? ==>
      Owes(s.procs[q]).value in s.txns && !IsActive(s.txns[Owes(s.procs[q]).value].status)
  {
    forall q | q in s.procs && Owes(s.procs[q]).Some?
      ensures Owes(s.procs[q]).value in s.txns && !IsActive(s.txns[Owes(s.procs[q]).value].status)
    {
      assert ProcOk(s, s.procs[q]);
    }
  }

  lemma AnnouncedWithoutPost(s: State, t: State, pid: nat)
    requires ProcsOk(s) && Announced(s) && LocalOk(s, t, pid) && DebtOk(s, t, pid)
    requires |t.outbox| == |s.outbox|
    requires forall i :: 0 <= i < |s.outbox| ==> t.outbox[i].message == s.outbox[i].message
    ensures Announced(t)
  {
    DebtorsAreSettled(s);
  }

  lemma AnnouncedWithPost(s: State, t: State, pid: nat)
    requires ProcsOk(s) && Announced(s) && LocalOk(s, t, pid)
    requires pid in s.procs && Owes(s.procs[pid]).Some?
    requires pid in t.procs ==> Owes(t.procs[pid]).None?
    requires t.outbox == Insert(s.outbox, s.procs[pid].message)
    ensures Announced(t)
  {
    assert ProcOk(s, s.procs[pid]);
    var x := Owes(s.procs[pid]).value;
    assert t.outbox[|s.outbox|].message.txn == x;
  }

  lemma RefundsOkAfter(s: State, t: State)
    requires RefundsOk(s) && Grows(s, t)
    requires forall k :: k in t.refunds && k in s.refunds ==> t.refunds[k] == s.refunds[k]
    requires forall k :: k in t.refunds && k !in s.refunds ==>
      && k.txn in t.txns && t.refunds[k] == RefundOf(t.txns[k.txn]).(ref := t.refunds[k].ref)
      && t.txns[k.txn].status == (if k.reason.LatePayment? then Expired else Completed)
    requires forall x :: x in t.txns && t.txns[x].refund.RefundPending? ==>
      || (x in s.txns && s.txns[x].refund.RefundPending?)
      || RefundKey(LatePayment, x) in t.refunds || RefundKey(CancelledEvent, x) in t.refunds
    ensures RefundsOk(t)
  {
  }

  ghost predicate SameKeys(s: State, t: State) {
    s.txns.Keys == t.txns.Keys
  }

  lemma OneTxnPerBookingAfter(s: State, t: State)
    requires OneTxnPerBooking(s) && Grows(s, t) && SameKeys(s, t)
    ensures OneTxnPerBooking(t)
  {
  }

  /** A handler or pass that ends in this step has achieved what it promises. */
  ghost predicate EndsWell(s: State, t: State) {
    && (forall r :: r in t.returned && r !in s.returned && r.how.InTime? ==> Safe(t, r.txn))
    && (forall listed, x :: listed in t.passes && listed !in s.passes && x in listed ==> Refunded(t, x))
  }

  lemma HistoryOkAfter(s: State, t: State)
    requires HistoryOk(s) && Grows(s, t)
    requires EndsWell(s, t)
    ensures HistoryOk(t)
  {
  }

  /** A step that changes the process table and nothing else in the database. */
  lemma QuietStep(s: State, t: State, pid: nat)
    requires Inv(s)
    requires t.txns == s.txns && t.refunds == s.refunds && t.now >= s.now && t.outbox == s.outbox
    requires OthersWait(s, t, pid)
    requires pid in t.procs ==> ProcOk(t, t.procs[pid])
    requires DebtOk(s, t, pid)
    requires EndsWell(s, t)
    ensures Inv(t)
  {
    ProcsOkAfter(s, t, pid);
    AnnouncedWithoutPost(s, t, pid);
    RefundsOkAfter(s, t);
    OneTxnPerBookingAfter(s, t);
    HistoryOkAfter(s, t);
  }

  /** A step that writes one transaction row. */
  lemma WriteStep(s: State, t: State, pid: nat, x: nat, row: Txn)
    requires Inv(s)
    requires x in s.txns && t.txns == s.txns[x := row] && Past(s.txns[x], row)
    requires t.refunds == s.refunds && t.now == s.now && t.outbox == s.outbox
    requires OthersWait(s, t, pid)
    requires pid in t.procs ==> ProcOk(t, t.procs[pid])
    requires DebtOk(s, t, pid)
    requires row.refund.RefundPending? && s.txns[x].refund.NotRefunded? ==>
      RefundKey(LatePayment, x) in s.refunds || RefundKey(CancelledEvent, x) in s.refunds
    requires EndsWell(s, t)
    ensures Inv(t)
  {
    ProcsOkAfter(s, t, pid);
    AnnouncedWithoutPost(s, t, pid);
    RefundsOkAfter(s, t);
    OneTxnPerBookingAfter(s, t);
    HistoryOkAfter(s, t);
  }

  lemma TickStep(s: State, to: int)
    requires Inv(s) && s.now <= to
    ensures Inv(s.(now := to))
  {
    QuietStep(s, s.(now := to), 0);
  }

  lemma InitiateStep(s: State, x: nat, row: Txn)
    requires Inv(s) && x !in s.txns && row.status.Initiated? && row.refund.NotRefunded?
    requires forall y :: y in s.txns ==> s.txns[y].booking != row.booking
    ensures Inv(Write(s, x, row))
  {
    var t := Write(s, x, row);
    forall q | q in t.procs ensures ProcOk(t, t.procs[q]) { ProcOkIsStable(s, t, s.procs[q]); }
    RefundsOkAfter(s, t);
    HistoryOkAfter(s, t);
  }

  lemma SettleActiveStep(s: State, pid: nat)
    requires Inv(s) && GatewayEnabled(s, Settle(pid)) && IsActive(s.txns[s.procs[pid].txn].status)
    ensures Inv(WebhookStep(s, pid, s.procs[pid]))
  {
    var p := s.procs[pid];
    var t := WebhookStep(s, pid, p);
    assert ProcOk(s, p);
    WriteStep(s, t, pid, p.txn, t.txns[p.txn]);
  }

  lemma SettleStep(s: State, pid: nat)
    requires Inv(s) && GatewayEnabled(s, Settle(pid))
    ensures Inv(WebhookStep(s, pid, s.procs[pid]))
  {
    var p := s.procs[pid];
    if IsActive(s.txns[p.txn].status) {
      SettleActiveStep(s, pid);
    } else {
      assert ProcOk(s, p);
      QuietStep(s, WebhookStep(s, pid, p), pid);
    }
  }

  /** A step that pays the debt of announcing a settled transaction. */
  lemma PostStep(s: State, t: State, pid: nat)
    requires Inv(s)
    requires pid in s.procs && Owes(s.procs[pid]).Some?
    requires t.txns == s.txns && t.refunds == s.refunds && t.now == s.now && t.passes == s.passes
    requires t.outbox == Insert(s.outbox, s.procs[pid].message)
    requires OthersWait(s, t, pid)
    requires pid in t.procs ==> ProcOk(t, t.procs[pid]) && Owes(t.procs[pid]).None?
    requires t.returned == if s.procs[pid].Announcing? && s.procs[pid].message.PaymentCompleted?
                           then s.returned + {Return(s.procs[pid].txn, InTime)} else s.returned
    ensures Inv(t)
  {
    assert ProcOk(s, s.procs[pid]);
    ProcsOkAfter(s, t, pid);
    AnnouncedWithPost(s, t, pid);
    RefundsOkAfter(s, t);
    HistoryOkAfter(s, t);
  }

  /** A step that inserts a refund row unless its key is taken. */
  lemma RefundStep(s: State, t: State, pid: nat, key: RefundKey, snap: Txn)
    requires Inv(s) && Known(s, key.txn, snap)
    requires snap.status == if key.reason.LatePayment? then Expired else Completed
    requires t.refunds == InsertRefund(s.refunds, key, RefundOf(snap))
    requires t.txns == s.txns && t.now == s.now && t.outbox == s.outbox && t.passes == s.passes &&
      t.returned == s.returned
    requires OthersWait(s, t, pid)
    requires pid in t.procs ==> ProcOk(t, t.procs[pid]) && Owes(t.procs[pid]).None?
    ensures Inv(t)
  {
    ProcsOkAfter(s, t, pid);
    AnnouncedWithoutPost(s, t, pid);
    RefundsOkAfter(s, t);
    HistoryOkAfter(s, t);
  }

  lemma MarkLateRefundStep(s: State, pid: nat)
    requires Inv(s) && GatewayEnabled(s, MarkLateRefund(pid))
    ensures Inv(ApplyGateway(s, MarkLateRefund(pid)))
  {
    var x, t := s.procs[pid].txn, ApplyGateway(s, MarkLateRefund(pid));
    assert ProcOk(s, s.procs[pid]);
    WriteStep(s, t, pid, x, t.txns[x]);
  }

  lemma ReceiveStep(s: State, g: Gateway)
    requires Inv(s) && GatewayEnabled(s, g) && (g.Receive? || g.Ignore?)
    ensures Inv(ApplyGateway(s, g))
  {
    QuietStep(s, ApplyGateway(s, g), g.pid);
  }

  lemma AnnounceStepOk(s: State, pid: nat)
    requires Inv(s) && GatewayEnabled(s, Announce(pid))
    ensures Inv(ApplyGateway(s, Announce(pid)))
  {
    PostStep(s, ApplyGateway(s, Announce(pid)), pid);
  }

  lemma AnnounceFailsStep(s: State, pid: nat)
    requires Inv(s) && pid in s.procs && s.procs[pid].Announcing?
    ensures Inv(AnnounceStep(s, pid, s.procs[pid]))
  {
    assert ProcOk(s, s.procs[pid]);
    QuietStep(s, AnnounceStep(s, pid, s.procs[pid]), pid);
  }

  lemma AnnounceFailsIsStep(s: State, pid: nat)
    requires Inv(s) && GatewayEnabled(s, AnnounceFails(pid))
    ensures Inv(ApplyGateway(s, AnnounceFails(pid)))
  {
    hide Inv, AnnounceStep;
    AnnounceFailsStep(s, pid);
  }

  lemma RequestLateRefundStep(s: State, pid: nat)
    requires Inv(s) && GatewayEnabled(s, RequestLateRefund(pid))
    ensures Inv(ApplyGateway(s, RequestLateRefund(pid)))
  {
    var p := s.procs[pid];
    assert ProcOk(s, p);
    RefundStep(s, ApplyGateway(s, RequestLateRefund(pid)), pid, RefundKey(LatePayment, p.txn), p.snap);
  }

  lemma LateRefundFailsStep(s: State, pid: nat)
    requires Inv(s) && GatewayEnabled(s, LateRefundFails(pid))
    ensures Inv(ApplyGateway(s, LateRefundFails(pid)))
  {
    QuietStep(s, ApplyGateway(s, LateRefundFails(pid)), pid);
  }

  lemma MarkLateRefundFailsStep(s: State, pid: nat)
    requires Inv(s) && GatewayEnabled(s, MarkLateRefundFails(pid))
    ensures Inv(ApplyGateway(s, MarkLateRefundFails(pid)))
  {
    assert ProcOk(s, s.procs[pid]);
    QuietStep(s, ApplyGateway(s, MarkLateRefundFails(pid)), pid);
  }

  lemma SettleIsStep(s: State, pid: nat)
    requires Inv(s) && GatewayEnabled(s, Settle(pid))
    ensures Inv(ApplyGateway(s, Settle(pid)))
  {
    hide Inv, WebhookStep;
    SettleStep(s, pid);
  }

  lemma GatewayStep(s: State, g: Gateway)
    requires Inv(s) && GatewayEnabled(s, g)
    ensures Inv(ApplyGateway(s, g))
  {
    hide Inv, ApplyGateway, GatewayEnabled;
    match g
    case Receive(_, _, _, _) => ReceiveStep(s, g);
    case Ignore(_, _, _, _) => ReceiveStep(s, g);
    case Settle(pid) => SettleIsStep(s, pid);
    case Announce(pid) => AnnounceStepOk(s, pid);
    case AnnounceFails(pid) => AnnounceFailsIsStep(s, pid);
    case RequestLateRefund(pid) => RequestLateRefundStep(s, pid);
    case LateRefundFails(pid) => LateRefundFailsStep(s, pid);
    case MarkLateRefund(pid) => MarkLateRefundStep(s, pid);
    case MarkLateRefundFails(pid) => MarkLateRefundFailsStep(s, pid);
  }

  lemma ExpireOneStep(s: State, pid: nat)
    requires Inv(s) && PollerEnabled(s, ExpireOne(pid))
    ensures Inv(PollStep(s, pid, s.procs[pid]))
  {
    var p := s.procs[pid];
    var t := PollStep(s, pid, p);
    assert ProcOk(s, p);
    var Seen(x, snap) := p.todo[0];
    assert Known(s, x, snap);
    if IsActive(s.txns[x].status) {
      WriteStep(s, t, pid, x, t.txns[x]);
    } else {
      QuietStep(s, t, pid);
    }
  }

  lemma PollerStep(s: State, l: Poller)
    requires Inv(s) && PollerEnabled(s, l)
    ensures Inv(ApplyPoller(s, l))
  {
    var t, pid := ApplyPoller(s, l), l.pid;
    match l
    case StartPoll(_, _) => QuietStep(s, t, pid);
    case ExpireOne(_) => ExpireOneStep(s, pid);
    case SkipOne(_) => assert ProcOk(s, s.procs[pid]); QuietStep(s, t, pid);
    case AnnounceExpiry(_) => assert ProcOk(s, s.procs[pid]); PostStep(s, t, pid);
    case AnnounceExpiryFails(_) => assert ProcOk(s, s.procs[pid]); QuietStep(s, t, pid);
  }

  lemma ListingIsCovered(s: State, todo: seq<Seen>)
    ensures Covered(s, CompletedIn(todo), todo)
  {
  }

  /** Taking the first row off a pass's list leaves every other listed row covered. */
  lemma CoveredTail(s: State, t: State, listed: set<nat>, todo: seq<Seen>)
    requires Covered(s, listed, todo) && AllKnown(s, todo) && todo != []
    requires t.txns == s.txns && s.refunds.Keys <= t.refunds.Keys
    ensures Covered(t, listed - {todo[0].txn}, todo[1..]) && AllKnown(t, todo[1..])
    ensures !todo[0].snap.status.Completed? ==> Covered(t, listed, todo[1..])
  {
    forall x | x in listed && !Refunded(s, x) && (x != todo[0].txn || !todo[0].snap.status.Completed?)
      ensures IsToDo(todo[1..], x)
    {
      var i :| 0 <= i < |todo| && todo[i].txn == x && todo[i].snap.status.Completed?;
      assert todo[1..][i - 1] == todo[i];
    }
  }

  lemma RefundOneStep(s: State, pid: nat)
    requires Inv(s) && CancellerEnabled(s, RefundOne(pid))
    ensures Inv(PassStep(s, pid, s.procs[pid]))
  {
    var p := s.procs[pid];
    var t := PassStep(s, pid, p);
    assert ProcOk(s, p);
    var Seen(x, snap) := p.todo[0];
    assert Known(s, x, snap);
    CoveredTail(s, t, p.listed, p.todo);
    if snap.status.Completed? {
      RefundStep(s, t, pid, RefundKey(CancelledEvent, x), snap);
    } else {
      QuietStep(s, t, pid);
    }
  }

  lemma MarkOneStep(s: State, pid: nat)
    requires Inv(s) && CancellerEnabled(s, MarkOne(pid))
    ensures Inv(ApplyCanceller(s, MarkOne(pid)))
  {
    var p := s.procs[pid];
    var t := ApplyCanceller(s, MarkOne(pid));
    assert ProcOk(s, p);
    assert Refunded(t, p.txn);
    forall y | y in p.listed && y != p.txn && Refunded(s, y) ensures Refunded(t, y) {
    }
    assert Covered(t, p.listed, p.todo);
    WriteStep(s, t, pid, p.txn, t.txns[p.txn]);
  }

  lemma CancellerStep(s: State, c: Canceller)
    requires Inv(s) && CancellerEnabled(s, c)
    ensures Inv(ApplyCanceller(s, c))
  {
    var t, pid := ApplyCanceller(s, c), c.pid;
    match c
    case StartPass(_, _, todo) => ListingIsCovered(t, todo); QuietStep(s, t, pid);
    case RefundOne(_) => RefundOneStep(s, pid);
    case MarkOne(_) => MarkOneStep(s, pid);
    case FinishPass(_) =>
      assert ProcOk(s, s.procs[pid]);
      QuietStep(s, t, pid);
  }

  lemma ClaimStepOk(s: State, pid: nat)
    requires Inv(s) && PayerEnabled(s, Claim(pid))
    ensures Inv(ClaimStep(s, pid, s.procs[pid]))
  {
    var x, t := s.procs[pid].txn, ClaimStep(s, pid, s.procs[pid]);
    if s.txns[x].status.Initiated? {
      WriteStep(s, t, pid, x, t.txns[x]);
    } else {
      QuietStep(s, t, pid);
    }
  }

  lemma PayerStep(s: State, y: Payer)
    requires Inv(s) && PayerEnabled(s, y)
    ensures Inv(ApplyPayer(s, y))
  {
    var t, pid := ApplyPayer(s, y), y.pid;
    match y
    case CheckPayment(_, _, _) => QuietStep(s, t, pid);
    case OpenSession(_, _) => assert ProcOk(s, s.procs[pid]); QuietStep(s, t, pid);
    case Claim(_) => ClaimStepOk(s, pid);
    case StoreSession(_) =>
      var x := s.procs[pid].txn;
      WriteStep(s, t, pid, x, t.txns[x]);
  }

  lemma MarkDeliveredStep(s: State, row: nat)
    requires Inv(s) && row < |s.outbox|
    ensures Inv(s.(outbox := s.outbox[row := s.outbox[row].(delivered := true)]))
  {
    var t := s.(outbox := s.outbox[row := s.outbox[row].(delivered := true)]);
    forall q | q in t.procs ensures ProcOk(t, t.procs[q]) { ProcOkIsStable(s, t, s.procs[q]); }
  }

  /** Every step of every handler keeps the invariant. */
  lemma InvIsInductive(s: State, a: Action)
    requires Inv(s) && Enabled(s, a)
    ensures Inv(Apply(s, a))
  {
    match a
    case Tick(to) => TickStep(s, to);
    case Initiate(x, b, e, u, amount, expiresAt) =>
      InitiateStep(s, x, Txn(b, e, u, amount, Initiated, NoSession, NotRefunded, Some(expiresAt)));
    case ByGateway(g) => GatewayStep(s, g);
    case ByPoller(l) => PollerStep(s, l);
    case ByCanceller(c) => CancellerStep(s, c);
    case ByPayer(y) => PayerStep(s, y);
    case Abort(pid) => QuietStep(s, Drop(s, pid), pid);
    case MarkDelivered(row) => MarkDeliveredStep(s, row);
  }

  /*** Whole runs ***/

  lemma GatewayGrows(s: State, g: Gateway)
    requires GatewayEnabled(s, g)
    ensures Grows(s, ApplyGateway(s, g))
  {
  }

  lemma PollerGrows(s: State, l: Poller)
    requires PollerEnabled(s, l)
    ensures Grows(s, ApplyPoller(s, l))
  {
  }

  lemma CancellerGrows(s: State, c: Canceller)
    requires CancellerEnabled(s, c)
    ensures Grows(s, ApplyCanceller(s, c))
  {
  }

  lemma PayerGrows(s: State, y: Payer)
    requires PayerEnabled(s, y)
    ensures Grows(s, ApplyPayer(s, y))
  {
  }

  lemma StepGrows(s: State, a: Action)
    requires Enabled(s, a)
    ensures Grows(s, Apply(s, a))
  {
    match a
    case ByGateway(g) => GatewayGrows(s, g);
    case ByPoller(l) => PollerGrows(s, l);
    case ByCanceller(c) => CancellerGrows(s, c);
    case ByPayer(y) => PayerGrows(s, y);
    case _ =>
  }

  /** However a run goes on, rows only evolve: a settled transaction stays settled the same way,
      and no refund row, transaction or refund mark is ever taken back. */
  lemma {:induction false} RunGrows(s: State, run: seq<Action>)
    requires Runs(s, run)
    ensures Grows(s, End(s, run))
    decreases |run|
  {
    if run != [] {
      StepGrows(s, run[0]);
      RunGrows(Apply(s, run[0]), run[1..]);
    }
  }

  lemma {:induction false} RunKeepsInv(s: State, run: seq<Action>)
    requires Inv(s) && Runs(s, run)
    ensures Inv(End(s, run))
    decreases |run|
  {
    if run != [] {
      InvIsInductive(s, run[0]);
      RunKeepsInv(Apply(s, run[0]), run[1..]);
    }
  }

  /** In every run, at most one outbox row is ever written for a transaction that says
      payment.completed or payment.expired; its topic is the transaction's status and its
      payload names the transaction's own booking, event and user. */
  lemma OneTerminalMessage(now: int, run: seq<Action>)
    requires Runs(Init(now), run)
    ensures var s := End(Init(now), run);
      && (forall i :: 0 <= i < |s.outbox| ==>
            var m := s.outbox[i].message;
            && (m.PaymentCompleted? || m.PaymentExpired?)
            && m.txn in s.txns
            && m.booking == s.txns[m.txn].booking && m.event == s.txns[m.txn].event && m.user == s.txns[m.txn].user
            && (m.PaymentCompleted? <==> s.txns[m.txn].status.Completed?)
            && (m.PaymentExpired? <==> s.txns[m.txn].status.Expired?))
      && (forall i, j :: 0 <= i < j < |s.outbox| ==> s.outbox[i].message.txn != s.outbox[j].message.txn)
  {
    RunKeepsInv(Init(now), run);
  }

  /** The messages about to be posted: a webhook's expiry says that the gateway expired the session, a
      poller's that the deadline passed. */
  ghost predicate ReasonsOk(s: State) {
    forall pid :: pid in s.procs ==> ReasonOk(s.procs[pid])
  }

  predicate ReasonOk(p: Proc) {
    && (p.Announcing? && p.message.PaymentExpired? ==> p.message.reason == GatewayExpired)
    && (p.PollAnnouncing? ==> p.message.PaymentExpired? && p.message.reason == InternalExpiryFallback)
  }

  lemma NewReasonOk(s: State, a: Action)
    requires ReasonsOk(s) && Enabled(s, a)
    ensures ReasonsOk(Apply(s, a))
  {
    hide InsertRefund;
    match a
    case ByGateway(g) => GatewayReasons(s, g);
    case ByPoller(l) => PollerReasons(s, l);
    case ByCanceller(c) => CancellerReasons(s, c);
    case ByPayer(y) => PayerReasons(s, y);
    case _ =>
  }

  lemma GatewayReasons(s: State, g: Gateway)
    requires ReasonsOk(s) && GatewayEnabled(s, g)
    ensures ReasonsOk(ApplyGateway(s, g))
  {
    hide InsertRefund;
  }

  lemma PollerReasons(s: State, l: Poller)
    requires ReasonsOk(s) && PollerEnabled(s, l)
    ensures ReasonsOk(ApplyPoller(s, l))
  {
  }

  lemma CancellerReasons(s: State, c: Canceller)
    requires ReasonsOk(s) && CancellerEnabled(s, c)
    ensures ReasonsOk(ApplyCanceller(s, c))
  {
    hide InsertRefund;
  }

  lemma PayerReasons(s: State, y: Payer)
    requires ReasonsOk(s) && PayerEnabled(s, y)
    ensures ReasonsOk(ApplyPayer(s, y))
  {
  }

  lemma {:induction false} RunKeepsReasons(s: State, run: seq<Action>)
    requires ReasonsOk(s) && Runs(s, run)
    ensures ReasonsOk(End(s, run))
    decreases |run|
  {
    hide Apply, Enabled, ReasonsOk;
    if run != [] {
      NewReasonOk(s, run[0]);
      RunKeepsReasons(Apply(s, run[0]), run[1..]);
    }
  }

  /** In every run, whatever step comes next: an expiry row that it posts says why, by who posts it. */
  lemma ExpiriesSayWhy(now: int, run: seq<Action>, a: Action)
    requires Runs(Init(now), run) && Enabled(End(Init(now), run), a)
    ensures var s := End(Init(now), run);
      var t := Apply(s, a);
      |t.outbox| > |s.outbox| && t.outbox[|s.outbox|].message.PaymentExpired? ==>
        || (a.ByGateway? && t.outbox[|s.outbox|].message.reason == GatewayExpired)
        || (a.ByPoller? && t.outbox[|s.outbox|].message.reason == InternalExpiryFallback)
  {
    RunKeepsReasons(Init(now), run);
    hide Runs, End, InsertRefund;
    PostsBy(End(Init(now), run), a);
  }

  lemma PostsBy(s: State, a: Action)
    requires ReasonsOk(s) && Enabled(s, a)
    ensures var t := Apply(s, a);
      |t.outbox| > |s.outbox| && t.outbox[|s.outbox|].message.PaymentExpired? ==>
        || (a.ByGateway? && t.outbox[|s.outbox|].message.reason == GatewayExpired)
        || (a.ByPoller? && t.outbox[|s.outbox|].message.reason == InternalExpiryFallback)
  {
    hide InsertRefund;
    if a.ByGateway? && a.g.Announce? {
      assert ReasonOk(s.procs[a.g.pid]);
    }
    if a.ByPoller? && a.l.AnnounceExpiry? {
      assert ReasonOk(s.procs[a.l.pid]);
    }
  }

  /** In every run, a transaction has at most one refund over both reasons, for exactly its
      amount; the reason agrees with how the transaction ended; and a transaction is marked
      'refund pending' only when its refund row exists. */
  lemma OneRefundPerTransaction(now: int, run: seq<Action>)
    requires Runs(Init(now), run)
    ensures var s := End(Init(now), run);
      && (forall j, k :: j in s.refunds && k in s.refunds && j.txn == k.txn ==> j == k)
      && (forall k :: k in s.refunds ==>
            && k.txn in s.txns
            && s.refunds[k].amount == s.txns[k.txn].amount
            && (k.reason.LatePayment? <==> s.txns[k.txn].status.Expired?)
            && (k.reason.CancelledEvent? <==> s.txns[k.txn].status.Completed?))
      && (forall x :: x in s.txns && s.txns[x].refund.RefundPending? ==>
            exists k :: k in s.refunds && k.txn == x)
  {
    var s := End(Init(now), run);
    RunKeepsInv(Init(now), run);
    InvHasRefundsOk(s);
    hide Inv, Runs, End;
    forall x | x in s.txns && s.txns[x].refund.RefundPending?
      ensures exists k :: k in s.refunds && k.txn == x
    {
      assert RefundKey(LatePayment, x).txn == x && RefundKey(CancelledEvent, x).txn == x;
    }
  }

  /** In every run: if the money of a transaction is not accounted for although a paid webhook for it
      ran to its end, every such webhook was raced by an expiry or failed to insert its refund, and
      the transaction is expired; a late-payment refund is of the full amount. A transaction that
      a finished refund pass saw completed has exactly one refund, of the full amount, and is marked. */
  lemma NoPaidMoneyLost(now: int, run: seq<Action>)
    requires Runs(Init(now), run)
    ensures var s := End(Init(now), run);
      && (forall r :: r in s.returned && r.how.InTime? ==> Safe(s, r.txn))
      && (forall x :: RefundKey(LatePayment, x) in s.refunds ==>
            x in s.txns && s.refunds[RefundKey(LatePayment, x)].amount == s.txns[x].amount)
      && (forall listed, x :: listed in s.passes && x in listed ==> RefundedOnce(s, x))
  {
    RunKeepsInv(Init(now), run);
    var s := End(Init(now), run);
    forall listed, x | listed in s.passes && x in listed ensures RefundedOnce(s, x) {
      RefundedMeansOnce(s, x);
    }
  }

  /** One refund, for the cancelled event, of the full amount; and the transaction is marked. */
  ghost predicate RefundedOnce(s: State, x: nat) {
    && Refunded(s, x)
    && s.refunds[RefundKey(CancelledEvent, x)].amount == s.txns[x].amount
    && forall k :: k in s.refunds && k.txn == x ==> k == RefundKey(CancelledEvent, x)
  }

  lemma RefundedMeansOnce(s: State, x: nat)
    requires RefundsOk(s) && Refunded(s, x)
    ensures RefundedOnce(s, x)
  {
    forall k | k in s.refunds && k.txn == x ensures k == RefundKey(CancelledEvent, x) {
      assert s.txns[RefundKey(CancelledEvent, x).txn].status.Completed?;
    }
  }

  /*** Exactly when paid money is lost ***/

  /** The step ends a webhook that said the session was paid. */
  predicate EndsPaid(s: State, g: Gateway)
    requires GatewayEnabled(s, g)
  {
    match g
    case Receive(_, _, _, _) => false
    case Ignore(_, kind, _, _) => kind.SessionCompleted?
    case Settle(pid) =>
      var p := s.procs[pid];
      p.kind.SessionCompleted? && !IsActive(s.txns[p.txn].status) && !p.snap.status.Expired?
    case Announce(pid) => s.procs[pid].message.PaymentCompleted?
    case AnnounceFails(pid) => s.procs[pid].message.PaymentCompleted?
    case RequestLateRefund(_) => false
    case LateRefundFails(_) => true
    case MarkLateRefund(_) => true
    case MarkLateRefundFails(_) => true
  }

  /** The transaction that a webhook is about. */
  function Subject(s: State, g: Gateway): nat
    requires GatewayEnabled(s, g)
  {
    if g.Receive? || g.Ignore? then g.txn else s.procs[g.pid].txn
  }

  /** The webhook read an active row that is expired now. */
  predicate RacedIntoExpired(s: State, g: Gateway)
    requires GatewayEnabled(s, g)
  {
    g.Settle? && IsActive(s.procs[g.pid].snap.status) && s.txns[s.procs[g.pid].txn].status.Expired?
  }

  /** Exactly when a paid webhook that ends leaves its money unaccounted for: it was raced by an
      expiry, its refund insert failed, or it was ignored for its session while the transaction is
      not completed; and no other delivery has made the refund. */
  lemma MoneyIsLostExactly(s: State, g: Gateway)
    requires Inv(s) && GatewayEnabled(s, g) && EndsPaid(s, g)
    ensures var x, t := Subject(s, g), ApplyGateway(s, g);
      && x in s.txns
      && (Safe(t, x) <==>
            !(RefundKey(LatePayment, x) !in s.refunds &&
              (RacedIntoExpired(s, g) || g.LateRefundFails? || (g.Ignore? && !s.txns[x].status.Completed?))))
      && (exists how :: Return(x, how) in t.returned)
  {
    var x, t := Subject(s, g), ApplyGateway(s, g);
    if !g.Ignore? {
      assert ProcOk(s, s.procs[g.pid]);
    }
    var how :=
      if RacedIntoExpired(s, g) then Raced
      else if g.LateRefundFails? then RefundFailed
      else if g.Ignore? then Mismatched
      else InTime;
    assert Return(x, how) in t.returned;
  }

  /** No other step acknowledges a paid webhook. */
  lemma OnlyTheseSteps(s: State, a: Action)
    requires Enabled(s, a) && !(a.ByGateway? && EndsPaid(s, a.g))
    ensures Apply(s, a).returned == s.returned
  {
  }

  /*** A refund pass that ran later ***/

  /** The action does not stop or restart process pid. */
  predicate Spares(a: Action, pid: nat) {
    a != Abort(pid) && a != ByCanceller(FinishPass(pid))
  }

  /** Process pid is in the middle of the pass that listed the given transactions. */
  predicate InPass(s: State, pid: nat, listed: set<nat>) {
    pid in s.procs && (s.procs[pid].Pass? || s.procs[pid].PassMarking?) && s.procs[pid].listed == listed
  }

  lemma GatewayMovesItself(s: State, g: Gateway)
    requires GatewayEnabled(s, g)
    ensures OthersWait(s, ApplyGateway(s, g), g.pid) &&
      (g.pid in s.procs ==> !s.procs[g.pid].Pass? && !s.procs[g.pid].PassMarking?)
  {
    hide InsertRefund;
  }

  lemma PollerMovesItself(s: State, l: Poller)
    requires PollerEnabled(s, l)
    ensures OthersWait(s, ApplyPoller(s, l), l.pid) &&
      (l.pid in s.procs ==> !s.procs[l.pid].Pass? && !s.procs[l.pid].PassMarking?)
  {
  }

  lemma PayerMovesItself(s: State, y: Payer)
    requires PayerEnabled(s, y)
    ensures OthersWait(s, ApplyPayer(s, y), y.pid) &&
      (y.pid in s.procs ==> !s.procs[y.pid].Pass? && !s.procs[y.pid].PassMarking?)
  {
  }

  lemma CancellerMovesOn(s: State, c: Canceller, pid: nat, listed: set<nat>)
    requires InPass(s, pid, listed) && CancellerEnabled(s, c) && c != FinishPass(pid)
    ensures InPass(ApplyCanceller(s, c), pid, listed)
  {
    hide InsertRefund;
  }

  lemma PassGoesOn(s: State, a: Action, pid: nat, listed: set<nat>)
    requires InPass(s, pid, listed) && Enabled(s, a) && Spares(a, pid)
    ensures InPass(Apply(s, a), pid, listed)
  {
    hide ApplyGateway, ApplyPoller, ApplyPayer, ApplyCanceller, GatewayEnabled, PollerEnabled, PayerEnabled,
      CancellerEnabled;
    match a
    case ByGateway(g) => GatewayMovesItself(s, g);
    case ByPoller(l) => PollerMovesItself(s, l);
    case ByPayer(y) => PayerMovesItself(s, y);
    case ByCanceller(c) => CancellerMovesOn(s, c, pid, listed);
    case _ =>
  }

  lemma {:induction false} PassGoesOnAll(s: State, run: seq<Action>, pid: nat, listed: set<nat>)
    requires InPass(s, pid, listed) && Runs(s, run) && forall i :: 0 <= i < |run| ==> Spares(run[i], pid)
    ensures InPass(End(s, run), pid, listed)
    decreases |run|
  {
    hide Apply, Enabled, InPass;
    if run != [] {
      PassGoesOn(s, run[0], pid, listed);
      PassGoesOnAll(Apply(s, run[0]), run[1..], pid, listed);
    }
  }

  /** A transaction is completed; then a refund pass of its event starts and, whatever else happens
      meanwhile, reaches its end; then it has exactly one refund, however the run goes on. */
  lemma LaterPassRefunds(s: State, x: nat, pid: nat, todo: seq<Seen>, middle: seq<Action>, more: seq<Action>)
    requires Inv(s) && x in s.txns && s.txns[x].status.Completed?
    requires Enabled(s, ByCanceller(StartPass(pid, s.txns[x].event, todo)))
    requires var s1 := Apply(s, ByCanceller(StartPass(pid, s.txns[x].event, todo)));
      && Runs(s1, middle) && (forall i :: 0 <= i < |middle| ==> Spares(middle[i], pid))
      && Enabled(End(s1, middle), ByCanceller(FinishPass(pid)))
      && Runs(Apply(End(s1, middle), ByCanceller(FinishPass(pid))), more)
    ensures var s1 := Apply(s, ByCanceller(StartPass(pid, s.txns[x].event, todo)));
      RefundedOnce(End(Apply(End(s1, middle), ByCanceller(FinishPass(pid))), more), x)
  {
    var start, finish := ByCanceller(StartPass(pid, s.txns[x].event, todo)), ByCanceller(FinishPass(pid));
    var s1 := Apply(s, start);
    PassLists(s, x, pid, todo);
    hide Apply, Enabled, Inv;
    InvIsInductive(s, start);
    PassGoesOnAll(s1, middle, pid, CompletedIn(todo));
    var s2 := End(s1, middle);
    RunKeepsInv(s1, middle);
    PassEnds(s2, x, pid, CompletedIn(todo));
    var s3 := Apply(s2, finish);
    InvIsInductive(s2, finish);
    RunKeepsInv(s3, more);
    RunGrows(s3, more);
    StaysRefunded(s3, End(s3, more), x);
    InvHasRefundsOk(End(s3, more));
    RefundedMeansOnce(End(s3, more), x);
  }

  lemma PassLists(s: State, x: nat, pid: nat, todo: seq<Seen>)
    requires x in s.txns && s.txns[x].status.Completed?
    requires CancellerEnabled(s, StartPass(pid, s.txns[x].event, todo))
    ensures x in CompletedIn(todo)
    ensures InPass(ApplyCanceller(s, StartPass(pid, s.txns[x].event, todo)), pid, CompletedIn(todo))
  {
    assert Seen(x, s.txns[x]) in todo;
  }

  lemma PassEnds(s: State, x: nat, pid: nat, listed: set<nat>)
    requires Inv(s) && InPass(s, pid, listed) && x in listed && CancellerEnabled(s, FinishPass(pid))
    ensures Refunded(ApplyCanceller(s, FinishPass(pid)), x)
  {
    assert ProcOk(s, s.procs[pid]);
  }

  lemma StaysRefunded(s: State, t: State, x: nat)
    requires Refunded(s, x) && Grows(s, t)
    ensures Refunded(t, x)
  {
  }

  lemma InvHasRefundsOk(s: State)
    requires Inv(s)
    ensures RefundsOk(s)
  {
  }
}
