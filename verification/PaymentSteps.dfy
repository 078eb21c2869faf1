/** The payment service as a step system.

    Every step is one SQL statement (or one read). A handler in flight is a process that
    carries the row it read earlier; any number of handlers run at once, may be
    interleaved in any order, and may stop for good at any point (Abort).
 */
module PaymentSteps {
  import opened Messages
  import opened PaymentTables

  /** One row of a query result: the row as it was when the query ran. */
  datatype Seen = Seen(txn: nat, snap: Txn)

  datatype WebhookKind = SessionCompleted | SessionExpired

  datatype Proc =
    | Webhook(kind: WebhookKind, sid: SessionRef, txn: nat, snap: Txn)
    | Announcing(txn: nat, message: Message)
    | LateRefund(txn: nat, snap: Txn)
    | LateMark(txn: nat)
    | Poll(todo: seq<Seen>)
    | PollAnnouncing(txn: nat, message: Message, todo: seq<Seen>)
    | Pass(listed: set<nat>, todo: seq<Seen>)
    | PassMarking(listed: set<nat>, txn: nat, todo: seq<Seen>)
    | Paying(txn: nat, snap: Txn, checkedAt: int)
    | PayingWith(txn: nat, checkedAt: int, ref: SessionRef)
    | Storing(txn: nat, ref: SessionRef)

  /** How a completed-payment webhook ended. Raced: the transaction was active when the handler
      read it and expired before the handler's update. RefundFailed: the insert of the late-payment
      refund failed; the error is logged and the webhook acknowledged. Mismatched: its session is not
      the one stored on the transaction; the webhook is acknowledged and ignored. */
  datatype Ending = InTime | Raced | RefundFailed | Mismatched

  datatype Return = Return(txn: nat, how: Ending)

  /** The database, the processes in flight, and four history variables:
      - returned: completed-payment webhooks that ran to their end,
      - passes: for each finished refund pass, the transactions it saw completed,
      - won: the session reference stored by the ProcessPayment call that won,
      - loose: transactions for which a webhook carried no session id, or the winning
        ProcessPayment took a minute or more.
      A webhook that is aborted is not acknowledged and does not count as returned. */
  datatype State = State(
    now: int,
    txns: map<nat, Txn>,
    refunds: map<RefundKey, Refund>,
    outbox: seq<OutboxRow>,
    procs: map<nat, Proc>,
    returned: set<Return>,
    passes: set<set<nat>>,
    won: map<nat, SessionRef>,
    loose: set<nat>)

  const MINUTE := 60

  /** Steps of HandleSessionWebhook. */
  datatype Gateway =
    | Receive(pid: nat, kind: WebhookKind, sid: SessionRef, txn: nat)
    | Ignore(pid: nat, kind: WebhookKind, sid: SessionRef, txn: nat)
    | Settle(pid: nat)
    | Announce(pid: nat)
    | AnnounceFails(pid: nat)
    | RequestLateRefund(pid: nat)
    | LateRefundFails(pid: nat)
    | MarkLateRefund(pid: nat)
    | MarkLateRefundFails(pid: nat)

  /** Steps of ProcessExpired. */
  datatype Poller =
    | StartPoll(pid: nat, todo: seq<Seen>)
    | ExpireOne(pid: nat)
    | SkipOne(pid: nat)
    | AnnounceExpiry(pid: nat)
    | AnnounceExpiryFails(pid: nat)

  /** Steps of HandleEventCancelled. */
  datatype Canceller =
    | StartPass(pid: nat, event: nat, todo: seq<Seen>)
    | RefundOne(pid: nat)
    | MarkOne(pid: nat)
    | FinishPass(pid: nat)

  /** Steps of ProcessPayment. */
  datatype Payer =
    | CheckPayment(pid: nat, txn: nat, user: nat)
    | OpenSession(pid: nat, ref: SessionRef)
    | Claim(pid: nat)
    | StoreSession(pid: nat)

  datatype Action =
    | Tick(to: int)
    | Initiate(txn: nat, booking: nat, event: nat, user: nat, amount: nat, expiresAt: int)
    | ByGateway(g: Gateway)
    | ByPoller(l: Poller)
    | ByCanceller(c: Canceller)
    | ByPayer(y: Payer)
    | Abort(pid: nat)
    | MarkDelivered(row: nat)

  function Init(now: int): State {
    State(now, map[], map[], [], map[], {}, {}, map[], {})
  }

  /** Every row of a query result is a row of the table right now. */
  predicate Current(txns: map<nat, Txn>, rows: seq<Seen>) {
    forall i :: 0 <= i < |rows| ==> rows[i].txn in txns && txns[rows[i].txn] == rows[i].snap
  }

  predicate Due(row: Txn, now: int) {
    row.expiresAt.Some? && row.expiresAt.value <= now
  }

  predicate GatewayEnabled(s: State, g: Gateway) {
    match g
    case Receive(pid, _, sid, x) =>
      pid !in s.procs && x in s.txns && (sid.NoSession? || sid == s.txns[x].ref)
    case Ignore(pid, _, sid, x) => pid !in s.procs && x in s.txns && sid.Session? && sid != s.txns[x].ref
    case Settle(pid) => pid in s.procs && s.procs[pid].Webhook? && s.procs[pid].txn in s.txns
    case Announce(pid) => pid in s.procs && s.procs[pid].Announcing?
    case AnnounceFails(pid) => pid in s.procs && s.procs[pid].Announcing?
    case RequestLateRefund(pid) => pid in s.procs && s.procs[pid].LateRefund?
    case LateRefundFails(pid) => pid in s.procs && s.procs[pid].LateRefund?
    case MarkLateRefund(pid) => pid in s.procs && s.procs[pid].LateMark? && s.procs[pid].txn in s.txns
    case MarkLateRefundFails(pid) => pid in s.procs && s.procs[pid].LateMark?
  }

  predicate PollerEnabled(s: State, l: Poller) {
    match l
    case StartPoll(pid, todo) =>
      && pid !in s.procs
      && Current(s.txns, todo)
      && forall i :: 0 <= i < |todo| ==> IsActive(todo[i].snap.status) && Due(todo[i].snap, s.now)
    case ExpireOne(pid) =>
      pid in s.procs && s.procs[pid].Poll? && s.procs[pid].todo != [] && s.procs[pid].todo[0].txn in s.txns
    case SkipOne(pid) => pid in s.procs && s.procs[pid].Poll? && s.procs[pid].todo != []
    case AnnounceExpiry(pid) => pid in s.procs && s.procs[pid].PollAnnouncing?
    case AnnounceExpiryFails(pid) => pid in s.procs && s.procs[pid].PollAnnouncing?
  }

  predicate CancellerEnabled(s: State, c: Canceller) {
    match c
    case StartPass(pid, e, todo) =>
      && pid !in s.procs
      && Current(s.txns, todo)
      && (forall i :: 0 <= i < |todo| ==> todo[i].snap.event == e)
      && (forall x :: x in s.txns && s.txns[x].event == e ==> Seen(x, s.txns[x]) in todo)
    case RefundOne(pid) => pid in s.procs && s.procs[pid].Pass? && s.procs[pid].todo != []
    case MarkOne(pid) => pid in s.procs && s.procs[pid].PassMarking? && s.procs[pid].txn in s.txns
    case FinishPass(pid) => pid in s.procs && s.procs[pid].Pass? && s.procs[pid].todo == []
  }

  predicate PayerEnabled(s: State, y: Payer) {
    match y
    case CheckPayment(pid, x, user) =>
      && pid !in s.procs && x in s.txns
      && s.txns[x].status.Initiated?
      && s.txns[x].expiresAt.Some?
      && s.txns[x].expiresAt.value > s.now
      && s.txns[x].expiresAt.value - s.now >= MINUTE
      && s.txns[x].user == user
    case OpenSession(pid, _) => pid in s.procs && s.procs[pid].Paying?
    case Claim(pid) => pid in s.procs && s.procs[pid].PayingWith? && s.procs[pid].txn in s.txns
    case StoreSession(pid) => pid in s.procs && s.procs[pid].Storing? && s.procs[pid].txn in s.txns
  }

  predicate Enabled(s: State, a: Action) {
    match a
    case Tick(to) => s.now <= to
    case Initiate(x, b, _, _, amount, _) =>
      x !in s.txns && amount > 0 && forall y :: y in s.txns ==> s.txns[y].booking != b
    case ByGateway(g) => GatewayEnabled(s, g)
    case ByPoller(l) => PollerEnabled(s, l)
    case ByCanceller(c) => CancellerEnabled(s, c)
    case ByPayer(y) => PayerEnabled(s, y)
    case Abort(pid) => pid in s.procs
    case MarkDelivered(row) => row < |s.outbox|
  }

  function Put(s: State, pid: nat, p: Proc): State {
    s.(procs := s.procs[pid := p])
  }

  function Drop(s: State, pid: nat): State {
    s.(procs := s.procs - {pid})
  }

  function Write(s: State, x: nat, row: Txn): State {
    s.(txns := s.txns[x := row])
  }

  function Post(s: State, m: Message): State {
    s.(outbox := Insert(s.outbox, m))
  }

  function Returned(s: State, x: nat, how: Ending): State {
    s.(returned := s.returned + {Return(x, how)})
  }

  /** The guarded update of HandleSessionWebhook, and the branch taken on its outcome. */
  function WebhookStep(s: State, pid: nat, p: Proc): State
    requires p.Webhook? && p.txn in s.txns
  {
    var row := s.txns[p.txn];
    match p.kind
    case SessionCompleted =>
      if IsActive(row.status) then
        Put(Write(s, p.txn, TransitionIfActive(row, Completed, p.snap.ref)), pid,
            Announcing(p.txn, CompletedMessage(p.txn, p.snap)))
      else if p.snap.status.Expired? then
        Put(s, pid, LateRefund(p.txn, p.snap))
      else
        Drop(Returned(s, p.txn, if IsActive(p.snap.status) && row.status.Expired? then Raced else InTime), pid)
    case SessionExpired =>
      if IsActive(row.status) then
        Put(Write(s, p.txn, TransitionIfActive(row, Expired, p.snap.ref)), pid,
            Announcing(p.txn, ExpiredMessage(p.txn, p.snap, GatewayExpired)))
      else
        Drop(s, pid)
  }

  /** The webhook ends after its outbox insert, whether or not that worked. */
  function AnnounceStep(s: State, pid: nat, p: Proc): State
    requires p.Announcing?
  {
    if p.message.PaymentCompleted? then Drop(Returned(s, p.txn, InTime), pid) else Drop(s, pid)
  }

  /** One iteration of the expiry poller up to its guarded update. */
  function PollStep(s: State, pid: nat, p: Proc): State
    requires p.Poll? && p.todo != [] && p.todo[0].txn in s.txns
  {
    var Seen(x, snap) := p.todo[0];
    if IsActive(s.txns[x].status) then
      Put(Write(s, x, TransitionIfActive(s.txns[x], Expired, snap.ref)), pid,
          PollAnnouncing(x, ExpiredMessage(x, snap, InternalExpiryFallback), p.todo[1..]))
    else
      Put(s, pid, Poll(p.todo[1..]))
  }

  /** One iteration of the refund pass up to its refund insert. */
  function PassStep(s: State, pid: nat, p: Proc): State
    requires p.Pass? && p.todo != []
  {
    var Seen(x, snap) := p.todo[0];
    if snap.status.Completed? then
      Put(s.(refunds := InsertRefund(s.refunds, RefundKey(CancelledEvent, x), RefundOf(snap))), pid,
          PassMarking(p.listed, x, p.todo[1..]))
    else
      Put(s, pid, Pass(p.listed, p.todo[1..]))
  }

  /** The guarded update of ProcessPayment. */
  function ClaimStep(s: State, pid: nat, p: Proc): State
    requires p.PayingWith? && p.txn in s.txns
  {
    var row := s.txns[p.txn];
    if row.status.Initiated? then
      var s1 := Put(Write(s, p.txn, TransitionIfInitiated(row, Pending, p.ref)), pid, Storing(p.txn, p.ref));
      s1.(won := s.won[p.txn := p.ref],
          loose := if s.now >= p.checkedAt + MINUTE then s.loose + {p.txn} else s.loose)
    else
      Drop(s, pid)
  }

  function CompletedIn(rows: seq<Seen>): set<nat> {
    set i | 0 <= i < |rows| && rows[i].snap.status.Completed? :: rows[i].txn
  }

  function ApplyGateway(s: State, g: Gateway): State
    requires GatewayEnabled(s, g)
  {
    match g
    case Receive(pid, kind, sid, x) =>
      Put(s, pid, Webhook(kind, sid, x, s.txns[x])).(loose := if sid.NoSession? then s.loose + {x} else s.loose)
    case Ignore(_, kind, _, x) => if kind.SessionCompleted? then Returned(s, x, Mismatched) else s
    case Settle(pid) => WebhookStep(s, pid, s.procs[pid])
    case Announce(pid) => AnnounceStep(Post(s, s.procs[pid].message), pid, s.procs[pid])
    case AnnounceFails(pid) => AnnounceStep(s, pid, s.procs[pid])
    case RequestLateRefund(pid) =>
      var p := s.procs[pid];
      Put(s.(refunds := InsertRefund(s.refunds, RefundKey(LatePayment, p.txn), RefundOf(p.snap))), pid, LateMark(p.txn))
    case LateRefundFails(pid) => Drop(Returned(s, s.procs[pid].txn, RefundFailed), pid)
    case MarkLateRefund(pid) =>
      var x := s.procs[pid].txn;
      Drop(Returned(Write(s, x, s.txns[x].(refund := RefundPending)), x, InTime), pid)
    case MarkLateRefundFails(pid) => Drop(Returned(s, s.procs[pid].txn, InTime), pid)
  }

  function ApplyPoller(s: State, l: Poller): State
    requires PollerEnabled(s, l)
  {
    match l
    case StartPoll(pid, todo) => Put(s, pid, Poll(todo))
    case ExpireOne(pid) => PollStep(s, pid, s.procs[pid])
    case SkipOne(pid) => Put(s, pid, Poll(s.procs[pid].todo[1..]))
    case AnnounceExpiry(pid) => Put(Post(s, s.procs[pid].message), pid, Poll(s.procs[pid].todo))
    case AnnounceExpiryFails(pid) => Put(s, pid, Poll(s.procs[pid].todo))
  }

  function ApplyCanceller(s: State, c: Canceller): State
    requires CancellerEnabled(s, c)
  {
    match c
    case StartPass(pid, _, todo) => Put(s, pid, Pass(CompletedIn(todo), todo))
    case RefundOne(pid) => PassStep(s, pid, s.procs[pid])
    case MarkOne(pid) =>
      var p := s.procs[pid];
      Put(Write(s, p.txn, s.txns[p.txn].(refund := RefundPending)), pid, Pass(p.listed, p.todo))
    case FinishPass(pid) => Drop(s, pid).(passes := s.passes + {s.procs[pid].listed})
  }

  function ApplyPayer(s: State, y: Payer): State
    requires PayerEnabled(s, y)
  {
    match y
    case CheckPayment(pid, x, _) => Put(s, pid, Paying(x, s.txns[x], s.now))
    case OpenSession(pid, ref) =>
      var p := s.procs[pid];
      Put(s, pid, PayingWith(p.txn, p.checkedAt, ref))
    case Claim(pid) => ClaimStep(s, pid, s.procs[pid])
    case StoreSession(pid) =>
      var p := s.procs[pid];
      Drop(Write(s, p.txn, s.txns[p.txn].(ref := p.ref)), pid)
  }

  function Apply(s: State, a: Action): State
    requires Enabled(s, a)
  {
    match a
    case Tick(to) => s.(now := to)
    case Initiate(x, b, e, u, amount, expiresAt) =>
      Write(s, x, Txn(b, e, u, amount, Initiated, NoSession, NotRefunded, Some(expiresAt)))
    case ByGateway(g) => ApplyGateway(s, g)
    case ByPoller(l) => ApplyPoller(s, l)
    case ByCanceller(c) => ApplyCanceller(s, c)
    case ByPayer(y) => ApplyPayer(s, y)
    case Abort(pid) => Drop(s, pid)
    case MarkDelivered(row) => s.(outbox := s.outbox[row := s.outbox[row].(delivered := true)])
  }

  /** A run: a sequence of actions, each enabled where it is taken. */
  predicate Runs(s: State, run: seq<Action>)
    decreases |run|
  {
    run == [] || (Enabled(s, run[0]) && Runs(Apply(s, run[0]), run[1..]))
  }

  /** The state a run ends in. */
  function End(s: State, run: seq<Action>): State
    requires Runs(s, run)
    decreases |run|
  {
    if run == [] then s else End(Apply(s, run[0]), run[1..])
  }

  /** A run can be extended at its end. */
  lemma {:induction false} Extend(s: State, run: seq<Action>, a: Action)
    requires Runs(s, run) && Enabled(End(s, run), a)
    ensures Runs(s, run + [a]) && End(s, run + [a]) == Apply(End(s, run), a)
    decreases |run|
  {
    if run == [] {
      assert (run + [a])[1..] == [];
    } else {
      assert (run + [a])[1..] == run[1..] + [a];
      Extend(Apply(s, run[0]), run[1..], a);
    }
  }
}
