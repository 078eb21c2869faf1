/** The session reference of a transaction is written once: a timed argument over the
    one-minute floor of ProcessPayment, the poller's due test and the references that
    webhooks and the poller write back from their snapshots. */
module PaymentSessions {
  import opened Messages
  import opened PaymentTables
  import opened PaymentSteps
  import opened PaymentProofs

  /** The stored reference is the winner's, or still empty. */
  ghost predicate RefsOk(s: State) {
    && (forall x :: x in s.won ==> x in s.txns && !s.txns[x].status.Initiated?)
    && (forall x :: x in s.txns && x !in s.loose ==>
          if x in s.won then s.txns[x].ref == s.won[x]
          else s.txns[x].ref.NoSession?)
  }

  ghost predicate SeenFresh(s: State, rows: seq<Seen>) {
    forall i :: 0 <= i < |rows| && rows[i].txn !in s.loose ==>
      rows[i].txn in s.txns && rows[i].snap.ref == s.txns[rows[i].txn].ref
  }

  /** The reference a process may write back is the one in the row. */
  ghost predicate RefProcOk(s: State, p: Proc) {
    match p
    case Webhook(_, _, x, snap) => x !in s.loose ==> x in s.won && snap.ref == s.won[x]
    case Poll(todo) => SeenFresh(s, todo)
    case PollAnnouncing(_, _, todo) => SeenFresh(s, todo)
    case Storing(x, ref) => x !in s.loose ==> x in s.won && s.won[x] == ref
    case _ => true
  }

  ghost predicate RefInv(s: State) {
    RefsOk(s) && forall pid :: pid in s.procs ==> RefProcOk(s, s.procs[pid])
  }

  /** Every step that does not claim a session leaves the references of tight transactions alone. */
  ghost predicate KeepsRefs(s: State, t: State) {
    && t.won == s.won
    && s.loose <= t.loose
    && s.txns.Keys == t.txns.Keys
    && (forall x :: x in s.txns && x !in t.loose ==> t.txns[x].ref == s.txns[x].ref)
    && (forall x :: x in s.txns && t.txns[x].status.Initiated? ==> s.txns[x].status.Initiated?)
  }

  lemma RefInvAfter(s: State, t: State, pid: nat)
    requires RefInv(s) && KeepsRefs(s, t) && OthersWait(s, t, pid)
    requires pid in t.procs ==> RefProcOk(t, t.procs[pid])
    ensures RefInv(t)
  {
    forall q | q in t.procs ensures RefProcOk(t, t.procs[q]) {
      if q != pid { assert RefProcOk(s, s.procs[q]); }
    }
  }

  lemma SettleKeepsRefs(s: State, pid: nat)
    requires RefInv(s) && GatewayEnabled(s, Settle(pid))
    ensures RefInv(WebhookStep(s, pid, s.procs[pid]))
  {
    assert RefProcOk(s, s.procs[pid]);
    RefInvAfter(s, WebhookStep(s, pid, s.procs[pid]), pid);
  }

  lemma GatewayKeepsRefs(s: State, g: Gateway)
    requires RefInv(s) && GatewayEnabled(s, g)
    ensures RefInv(ApplyGateway(s, g))
  {
    if g.Settle? {
      SettleKeepsRefs(s, g.pid);
    } else {
      RefInvAfter(s, ApplyGateway(s, g), g.pid);
    }
  }

  lemma PollerKeepsRefs(s: State, l: Poller)
    requires RefInv(s) && PollerEnabled(s, l)
    ensures RefInv(ApplyPoller(s, l))
  {
    if !l.StartPoll? { assert RefProcOk(s, s.procs[l.pid]); }
    RefInvAfter(s, ApplyPoller(s, l), l.pid);
  }

  lemma CancellerKeepsRefs(s: State, c: Canceller)
    requires RefInv(s) && CancellerEnabled(s, c)
    ensures RefInv(ApplyCanceller(s, c))
  {
    RefInvAfter(s, ApplyCanceller(s, c), c.pid);
  }

  /** A claim in time comes before the deadline, and every row a poller has seen is past its
      deadline: so no poller holds a snapshot of the claimed row. */
  lemma NoPollerHoldsAClaimedRow(s: State, pid: nat, q: nat)
    requires Inv(s) && PayerEnabled(s, Claim(pid)) && s.now < s.procs[pid].checkedAt + MINUTE
    requires q in s.procs && (s.procs[q].Poll? || s.procs[q].PollAnnouncing?)
    ensures forall i :: 0 <= i < |s.procs[q].todo| ==> s.procs[q].todo[i].txn != s.procs[pid].txn
  {
    assert ProcOk(s, s.procs[pid]);
    assert ProcOk(s, s.procs[q]);
    forall i | 0 <= i < |s.procs[q].todo| ensures s.procs[q].todo[i].txn != s.procs[pid].txn {
      assert Known(s, s.procs[q].todo[i].txn, s.procs[q].todo[i].snap);
    }
  }

  lemma ClaimKeepsRefs(s: State, pid: nat)
    requires Inv(s) && RefInv(s) && PayerEnabled(s, Claim(pid)) && s.txns[s.procs[pid].txn].status.Initiated?
    ensures RefInv(ClaimStep(s, pid, s.procs[pid]))
  {
    var p, t := s.procs[pid], ClaimStep(s, pid, s.procs[pid]);
    assert p.txn !in s.won;
    forall q | q in t.procs ensures RefProcOk(t, t.procs[q]) {
      if q != pid {
        assert RefProcOk(s, s.procs[q]);
        if p.txn !in t.loose && (s.procs[q].Poll? || s.procs[q].PollAnnouncing?) {
          NoPollerHoldsAClaimedRow(s, pid, q);
        }
      }
    }
  }

  lemma PayerKeepsRefs(s: State, y: Payer)
    requires Inv(s) && RefInv(s) && PayerEnabled(s, y)
    ensures RefInv(ApplyPayer(s, y))
  {
    if y.Claim? && s.txns[s.procs[y.pid].txn].status.Initiated? {
      ClaimKeepsRefs(s, y.pid);
    } else {
      if y.StoreSession? { assert RefProcOk(s, s.procs[y.pid]); }
      RefInvAfter(s, ApplyPayer(s, y), y.pid);
    }
  }

  lemma InitiateKeepsRefs(s: State, x: nat, row: Txn)
    requires RefInv(s) && x !in s.txns && row.ref.NoSession?
    ensures RefInv(Write(s, x, row))
  {
    var t := Write(s, x, row);
    forall q | q in t.procs ensures RefProcOk(t, t.procs[q]) { assert RefProcOk(s, s.procs[q]); }
  }

  lemma RefInvIsInductive(s: State, a: Action)
    requires Inv(s) && RefInv(s) && Enabled(s, a)
    ensures RefInv(Apply(s, a))
  {
    match a
    case Tick(to) => RefInvAfter(s, s.(now := to), 0) by {
      if 0 in s.procs { assert RefProcOk(s, s.procs[0]); }
    }
    case Initiate(x, b, e, u, amount, expiresAt) =>
      InitiateKeepsRefs(s, x, Txn(b, e, u, amount, Initiated, NoSession, NotRefunded, Some(expiresAt)));
    case ByGateway(g) => GatewayKeepsRefs(s, g);
    case ByPoller(l) => PollerKeepsRefs(s, l);
    case ByCanceller(c) => CancellerKeepsRefs(s, c);
    case ByPayer(y) => PayerKeepsRefs(s, y);
    case Abort(pid) => RefInvAfter(s, Drop(s, pid), pid);
    case MarkDelivered(row) =>
      var t := Apply(s, a);
      forall q | q in t.procs ensures RefProcOk(t, t.procs[q]) { assert RefProcOk(s, s.procs[q]); }
  }

  /** A second ProcessPayment never wins, and nothing unsettles the winner. */
  lemma WinnerStays(s: State, a: Action)
    requires RefInv(s) && Enabled(s, a)
    ensures forall x :: x in s.won ==> x in Apply(s, a).won && Apply(s, a).won[x] == s.won[x]
    ensures s.loose <= Apply(s, a).loose
    ensures a.ByPayer? && a.y.Claim? && s.procs[a.y.pid].txn in s.won ==>
      Apply(s, a) == Drop(s, a.y.pid)
  {
  }

  lemma {:induction false} RunKeepsRefs(s: State, run: seq<Action>)
    requires Inv(s) && RefInv(s) && Runs(s, run)
    ensures Inv(End(s, run)) && RefInv(End(s, run))
    ensures forall x :: x in s.won ==> x in End(s, run).won && End(s, run).won[x] == s.won[x]
    ensures s.loose <= End(s, run).loose
    decreases |run|
  {
    if run != [] {
      var t := Apply(s, run[0]);
      InvIsInductive(s, run[0]);
      RefInvIsInductive(s, run[0]);
      WinnerStays(s, run[0]);
      RunKeepsRefs(t, run[1..]);
    }
  }

  /** Write-once: take any run and any continuation of it. If a ProcessPayment has won
      transaction x with reference ref by the end of the first part, then at the end of the
      continuation the row of x still carries ref, unless some webhook for x came without a
      session id, or the winner took a minute or more. */
  lemma SessionReferenceIsWriteOnce(now: int, run: seq<Action>, more: seq<Action>, x: nat)
    requires Runs(Init(now), run) && Runs(End(Init(now), run), more)
    requires x in End(Init(now), run).won
    requires x !in End(End(Init(now), run), more).loose
    ensures var s, t := End(Init(now), run), End(End(Init(now), run), more);
      && x in s.txns && x in t.txns
      && s.txns[x].ref == s.won[x]
      && t.txns[x].ref == s.won[x]
      && x in t.won && t.won[x] == s.won[x]
  {
    RunKeepsRefs(Init(now), run);
    RunKeepsRefs(End(Init(now), run), more);
  }

  /** A webhook of the session that won is never ignored, in any run, as long as no webhook of the
      transaction came without a session id and the winner took under a minute. */
  lemma WinnerIsHeard(now: int, run: seq<Action>, x: nat, pid: nat, kind: WebhookKind)
    requires Runs(Init(now), run) && x in End(Init(now), run).won && x !in End(Init(now), run).loose
    ensures var s := End(Init(now), run);
      && !Enabled(s, ByGateway(Ignore(pid, kind, s.won[x], x)))
      && (pid !in s.procs ==> Enabled(s, ByGateway(Receive(pid, kind, s.won[x], x))))
  {
    SessionReferenceIsWriteOnce(now, run, [], x);
  }

  /*** The session on a refund ***/

  /** The rows of a refund pass that are completed carry the reference of the table. */
  ghost predicate PaidRowsFresh(s: State, rows: seq<Seen>) {
    forall i :: 0 <= i < |rows| && rows[i].snap.status.Completed? && rows[i].txn !in s.loose ==>
      rows[i].txn in s.txns && rows[i].snap.ref == s.txns[rows[i].txn].ref
  }

  ghost predicate PayerKnown(s: State, p: Proc) {
    match p
    case LateRefund(x, snap) => x !in s.loose ==> x in s.txns && snap.ref == s.txns[x].ref
    case Pass(_, todo) => PaidRowsFresh(s, todo)
    case PassMarking(_, _, todo) => PaidRowsFresh(s, todo)
    case _ => true
  }

  /** Refunds made and about to be made name the session stored on their transaction. */
  ghost predicate RefundRefs(s: State) {
    && (forall k :: k in s.refunds && k.txn !in s.loose ==>
          k.txn in s.txns && s.refunds[k].ref == s.txns[k.txn].ref)
    && (forall pid :: pid in s.procs ==> PayerKnown(s, s.procs[pid]))
  }

  /** References of transactions that are no longer initiated stay. */
  ghost predicate SettledRefsStay(s: State, t: State) {
    && s.loose <= t.loose
    && forall x :: x in s.txns && x !in t.loose && !s.txns[x].status.Initiated? ==>
         x in t.txns && t.txns[x].ref == s.txns[x].ref
  }

  lemma NewWinnerWasInitiated(s: State, a: Action)
    requires Enabled(s, a)
    ensures forall x :: x in Apply(s, a).won && x !in s.won ==> x in s.txns && s.txns[x].status.Initiated?
  {
    hide InsertRefund;
  }

  lemma StepKeepsSettledRefs(s: State, a: Action)
    requires Inv(s) && RefInv(s) && Enabled(s, a)
    ensures SettledRefsStay(s, Apply(s, a))
  {
    RefInvIsInductive(s, a);
    WinnerStays(s, a);
    NewWinnerWasInitiated(s, a);
    StepGrows(s, a);
    hide Apply, Enabled, Inv, RefProcOk;
  }

  lemma PayerKnownStays(s: State, t: State, p: Proc)
    requires ProcOk(s, p) && PayerKnown(s, p) && SettledRefsStay(s, t)
    ensures PayerKnown(t, p)
  {
    if p.Pass? || p.PassMarking? {
      forall i | 0 <= i < |p.todo| && p.todo[i].snap.status.Completed?
        ensures Known(s, p.todo[i].txn, p.todo[i].snap)
      {
      }
    }
  }

  /** The process that takes the step knows its payers, and a refund it makes names its session. */
  ghost predicate RefundsWell(s: State, t: State, pid: nat) {
    && (pid in t.procs ==> PayerKnown(t, t.procs[pid]))
    && (forall k :: k in t.refunds && k in s.refunds ==> t.refunds[k] == s.refunds[k])
    && (forall k :: k in t.refunds && k !in s.refunds && k.txn !in t.loose ==>
          k.txn in t.txns && t.refunds[k].ref == t.txns[k.txn].ref)
  }

  lemma RefundRefsAfter(s: State, t: State, pid: nat)
    requires Inv(s) && RefundRefs(s) && SettledRefsStay(s, t) && OthersWait(s, t, pid) && RefundsWell(s, t, pid)
    ensures RefundRefs(t)
  {
    forall q | q in t.procs ensures PayerKnown(t, t.procs[q]) {
      if q != pid {
        PayerKnownStays(s, t, s.procs[q]);
      }
    }
    hide PayerKnown;
    InvHasRefundsOk(s);
  }

  lemma SettleRefundsWell(s: State, pid: nat)
    requires Inv(s) && RefInv(s) && GatewayEnabled(s, Settle(pid))
    ensures RefundsWell(s, WebhookStep(s, pid, s.procs[pid]), pid)
  {
    assert ProcOk(s, s.procs[pid]) && RefProcOk(s, s.procs[pid]);
    hide Announced, RefundsOk, HistoryOk, OneTxnPerBooking;
  }

  lemma LateRefundRefundsWell(s: State, pid: nat)
    requires RefundRefs(s) && ProcsOk(s) && GatewayEnabled(s, RequestLateRefund(pid))
    ensures RefundsWell(s, ApplyGateway(s, RequestLateRefund(pid)), pid)
  {
    assert ProcOk(s, s.procs[pid]) && PayerKnown(s, s.procs[pid]);
  }

  lemma OtherGatewayRefundsWell(s: State, g: Gateway)
    requires GatewayEnabled(s, g) && !g.Settle? && !g.RequestLateRefund?
    requires g.pid in s.procs ==> PayerKnown(s, s.procs[g.pid])
    ensures RefundsWell(s, ApplyGateway(s, g), g.pid)
  {
    hide WebhookStep, InsertRefund;
  }

  lemma GatewayRefundsWell(s: State, g: Gateway)
    requires Inv(s) && RefInv(s) && RefundRefs(s) && GatewayEnabled(s, g)
    ensures RefundsWell(s, ApplyGateway(s, g), g.pid) && OthersWait(s, ApplyGateway(s, g), g.pid)
  {
    GatewayMovesItself(s, g);
    hide RefundsWell, OthersWait, WebhookStep, RefInv;
    if g.Settle? {
      SettleRefundsWell(s, g.pid);
    } else if g.RequestLateRefund? {
      LateRefundRefundsWell(s, g.pid);
    } else {
      OtherGatewayRefundsWell(s, g);
    }
  }

  lemma PaidTail(s: State, t: State, rows: seq<Seen>)
    requires PaidRowsFresh(s, rows) && rows != [] && t.txns == s.txns && t.loose == s.loose
    ensures PaidRowsFresh(t, rows[1..])
  {
  }

  lemma RefundOneRefundsWell(s: State, pid: nat)
    requires RefundRefs(s) && CancellerEnabled(s, RefundOne(pid))
    ensures RefundsWell(s, PassStep(s, pid, s.procs[pid]), pid)
  {
    var p := s.procs[pid];
    assert PayerKnown(s, p);
    PaidTail(s, PassStep(s, pid, p), p.todo);
  }

  lemma OtherCancellerRefundsWell(s: State, c: Canceller)
    requires RefundRefs(s) && CancellerEnabled(s, c) && !c.RefundOne?
    ensures RefundsWell(s, ApplyCanceller(s, c), c.pid)
  {
    hide PassStep;
    if c.pid in s.procs {
      assert PayerKnown(s, s.procs[c.pid]);
    }
  }

  lemma CancellerMovesItself(s: State, c: Canceller)
    requires CancellerEnabled(s, c)
    ensures OthersWait(s, ApplyCanceller(s, c), c.pid)
  {
    hide InsertRefund;
  }

  lemma CancellerRefundsWell(s: State, c: Canceller)
    requires RefundRefs(s) && CancellerEnabled(s, c)
    ensures RefundsWell(s, ApplyCanceller(s, c), c.pid) && OthersWait(s, ApplyCanceller(s, c), c.pid)
  {
    CancellerMovesItself(s, c);
    hide RefundsWell, OthersWait, PassStep, RefundRefs;
    if c.RefundOne? {
      RefundOneRefundsWell(s, c.pid);
    } else {
      OtherCancellerRefundsWell(s, c);
    }
  }

  lemma PollerRefundsWell(s: State, l: Poller)
    requires PollerEnabled(s, l)
    ensures RefundsWell(s, ApplyPoller(s, l), l.pid) && OthersWait(s, ApplyPoller(s, l), l.pid)
  {
  }

  lemma PayerRefundsWell(s: State, y: Payer)
    requires PayerEnabled(s, y)
    ensures RefundsWell(s, ApplyPayer(s, y), y.pid) && OthersWait(s, ApplyPayer(s, y), y.pid)
  {
  }

  lemma RefundRefsIsInductive(s: State, a: Action)
    requires Inv(s) && RefInv(s) && RefundRefs(s) && Enabled(s, a)
    ensures RefundRefs(Apply(s, a))
  {
    StepKeepsSettledRefs(s, a);
    hide ApplyGateway, ApplyPoller, ApplyPayer, ApplyCanceller, RefInv, Inv, SettledRefsStay, RefundRefs;
    hide GatewayEnabled, PollerEnabled, PayerEnabled, CancellerEnabled, RefundsWell, OthersWait;
    match a
    case ByGateway(g) => GatewayRefundsWell(s, g); RefundRefsAfter(s, Apply(s, a), g.pid);
    case ByPoller(l) => PollerRefundsWell(s, l); RefundRefsAfter(s, Apply(s, a), l.pid);
    case ByCanceller(c) => CancellerRefundsWell(s, c); RefundRefsAfter(s, Apply(s, a), c.pid);
    case ByPayer(y) => PayerRefundsWell(s, y); RefundRefsAfter(s, Apply(s, a), y.pid);
    case Abort(pid) => DroppedRefundsWell(s, Drop(s, pid), pid); RefundRefsAfter(s, Apply(s, a), pid);
    case _ => QuietRefundRefs(s, Apply(s, a));
  }

  lemma DroppedRefundsWell(s: State, t: State, pid: nat)
    requires t == Drop(s, pid)
    ensures RefundsWell(s, t, pid) && OthersWait(s, t, pid)
  {
  }

  lemma QuietRefundRefs(s: State, t: State)
    requires Inv(s) && RefundRefs(s) && SettledRefsStay(s, t) && t.procs == s.procs && t.refunds == s.refunds
    ensures RefundRefs(t)
  {
    forall q | q in t.procs ensures PayerKnown(t, t.procs[q]) {
      PayerKnownStays(s, t, s.procs[q]);
    }
    hide PayerKnown;
    InvHasRefundsOk(s);
  }

  lemma {:induction false} RunKeepsRefundRefs(s: State, run: seq<Action>)
    requires Inv(s) && RefInv(s) && RefundRefs(s) && Runs(s, run)
    ensures RefundRefs(End(s, run))
    decreases |run|
  {
    hide Apply, Enabled, Inv, RefInv, RefundRefs;
    if run != [] {
      InvIsInductive(s, run[0]);
      RefInvIsInductive(s, run[0]);
      RefundRefsIsInductive(s, run[0]);
      RunKeepsRefundRefs(Apply(s, run[0]), run[1..]);
    }
  }

  /** In every run, under the premises of write-once, a refund names the gateway session that its
      transaction was paid with: the one of the payment call that won. */
  lemma RefundNamesTheSession(now: int, run: seq<Action>, k: RefundKey)
    requires Runs(Init(now), run) && k in End(Init(now), run).refunds
    requires k.txn in End(Init(now), run).won && k.txn !in End(Init(now), run).loose
    ensures var s := End(Init(now), run);
      s.refunds[k].ref == s.won[k.txn]
  {
    hide Runs, End, RefProcOk, PayerKnown, ProcOk;
    RunKeepsRefs(Init(now), run);
    RunKeepsRefundRefs(Init(now), run);
  }

  /*** Exactly when the reference stays ***/

  /** A row among those a poller has still to expire carries another reference for x. */
  predicate StaleRow(rows: seq<Seen>, x: nat, ref: SessionRef) {
    exists i :: 0 <= i < |rows| && rows[i].txn == x && rows[i].snap.ref != ref
  }

  /** The process will write another reference into the row of x if it gets the chance. */
  predicate Overwrites(s: State, x: nat, p: Proc)
    requires x in s.txns
  {
    var row := s.txns[x];
    match p
    case Storing(y, ref) => y == x && ref != row.ref
    case Webhook(_, _, y, snap) => y == x && IsActive(row.status) && snap.ref != row.ref
    case Poll(todo) => IsActive(row.status) && StaleRow(todo, x, row.ref)
    case PollAnnouncing(_, _, todo) => IsActive(row.status) && StaleRow(todo, x, row.ref)
    case _ => false
  }

  /** x carries ref, is claimed or settled, and nobody in flight is about to overwrite it. */
  ghost predicate Guarded(s: State, x: nat, ref: SessionRef) {
    && x in s.txns && !s.txns[x].status.Initiated? && s.txns[x].ref == ref
    && forall pid :: pid in s.procs ==> !Overwrites(s, x, s.procs[pid])
  }

  /** Only pid moves, the row of x keeps its reference, and pid does not become an overwriter. */
  lemma GuardedAfter(s: State, t: State, x: nat, ref: SessionRef, pid: nat)
    requires Guarded(s, x, ref) && OthersWait(s, t, pid)
    requires x in t.txns && !t.txns[x].status.Initiated? && t.txns[x].ref == ref
    requires IsActive(t.txns[x].status) ==> IsActive(s.txns[x].status)
    requires pid in t.procs ==> !Overwrites(t, x, t.procs[pid])
    ensures Guarded(t, x, ref)
  {
    forall q | q in t.procs ensures !Overwrites(t, x, t.procs[q]) {
      if q != pid {
        assert !Overwrites(s, x, s.procs[q]);
      }
    }
  }

  lemma StaleTail(rows: seq<Seen>, x: nat, ref: SessionRef)
    requires rows != [] && StaleRow(rows[1..], x, ref)
    ensures StaleRow(rows, x, ref)
  {
    var i :| 0 <= i < |rows[1..]| && rows[1..][i].txn == x && rows[1..][i].snap.ref != ref;
    assert rows[i + 1].txn == x && rows[i + 1].snap.ref != ref;
  }

  lemma GatewayGuards(s: State, g: Gateway, x: nat, ref: SessionRef)
    requires Guarded(s, x, ref) && GatewayEnabled(s, g)
    ensures Guarded(ApplyGateway(s, g), x, ref)
  {
    hide InsertRefund;
    if !g.Receive? && !g.Ignore? {
      assert !Overwrites(s, x, s.procs[g.pid]);
    }
    GuardedAfter(s, ApplyGateway(s, g), x, ref, g.pid);
  }

  lemma PollerGuards(s: State, l: Poller, x: nat, ref: SessionRef)
    requires Guarded(s, x, ref) && PollerEnabled(s, l)
    ensures Guarded(ApplyPoller(s, l), x, ref)
  {
    var t := ApplyPoller(s, l);
    if l.StartPoll? {
      assert !StaleRow(l.todo, x, ref);
    } else {
      assert !Overwrites(s, x, s.procs[l.pid]);
      if l.ExpireOne? || l.SkipOne? {
        var todo := s.procs[l.pid].todo;
        if StaleRow(todo[1..], x, ref) {
          StaleTail(todo, x, ref);
        }
        assert todo[0].txn == x && todo[0].snap.ref != ref ==> StaleRow(todo, x, ref);
      }
    }
    hide StaleRow;
    GuardedAfter(s, t, x, ref, l.pid);
  }

  lemma CancellerGuards(s: State, c: Canceller, x: nat, ref: SessionRef)
    requires Guarded(s, x, ref) && CancellerEnabled(s, c)
    ensures Guarded(ApplyCanceller(s, c), x, ref)
  {
    hide InsertRefund;
    GuardedAfter(s, ApplyCanceller(s, c), x, ref, c.pid);
  }

  lemma PayerGuards(s: State, y: Payer, x: nat, ref: SessionRef)
    requires Guarded(s, x, ref) && PayerEnabled(s, y)
    ensures Guarded(ApplyPayer(s, y), x, ref)
  {
    if y.StoreSession? {
      assert !Overwrites(s, x, s.procs[y.pid]);
    }
    GuardedAfter(s, ApplyPayer(s, y), x, ref, y.pid);
  }

  lemma StepGuards(s: State, a: Action, x: nat, ref: SessionRef)
    requires Guarded(s, x, ref) && Enabled(s, a)
    ensures Guarded(Apply(s, a), x, ref)
  {
    hide ApplyGateway, ApplyPoller, ApplyPayer, ApplyCanceller, StaleRow;
    hide GatewayEnabled, PollerEnabled, PayerEnabled, CancellerEnabled;
    match a
    case ByGateway(g) => GatewayGuards(s, g, x, ref);
    case ByPoller(l) => PollerGuards(s, l, x, ref);
    case ByCanceller(c) => CancellerGuards(s, c, x, ref);
    case ByPayer(y) => PayerGuards(s, y, x, ref);
    case Abort(pid) => GuardedAfter(s, Drop(s, pid), x, ref, pid);
    case _ => SameProcsGuard(s, Apply(s, a), x, ref);
  }

  lemma SameProcsGuard(s: State, t: State, x: nat, ref: SessionRef)
    requires Guarded(s, x, ref) && t.procs == s.procs && x in t.txns && t.txns[x] == s.txns[x]
    ensures Guarded(t, x, ref)
  {
    forall q | q in t.procs ensures !Overwrites(t, x, t.procs[q]) {
      assert !Overwrites(s, x, s.procs[q]);
    }
  }

  lemma {:induction false} RunGuards(s: State, run: seq<Action>, x: nat, ref: SessionRef)
    requires Guarded(s, x, ref) && Runs(s, run)
    ensures Guarded(End(s, run), x, ref)
    decreases |run|
  {
    hide Guarded, Apply, Enabled;
    if run != [] {
      StepGuards(s, run[0], x, ref);
      RunGuards(Apply(s, run[0]), run[1..], x, ref);
    }
  }

  lemma OneStep(s: State, a: Action)
    requires Enabled(s, a)
    ensures Runs(s, [a]) && End(s, [a]) == Apply(s, a)
  {
    hide Enabled, Apply;
    Extend(s, [], a);
    assert [] + [a] == [a];
  }

  lemma FrontStep(s: State, a: Action, run: seq<Action>)
    requires Enabled(s, a) && Runs(Apply(s, a), run)
    ensures Runs(s, [a] + run) && End(s, [a] + run) == End(Apply(s, a), run)
  {
    hide Enabled, Apply;
    assert ([a] + run)[1..] == run;
  }

  /** A poller pass with a stale row skips to it and writes it. */
  lemma {:induction false} PollerOverwrites(s: State, x: nat, pid: nat, i: nat) returns (run: seq<Action>)
    requires x in s.txns && IsActive(s.txns[x].status) && pid in s.procs && s.procs[pid].Poll?
    requires i < |s.procs[pid].todo| && s.procs[pid].todo[i].txn == x && s.procs[pid].todo[i].snap.ref != s.txns[x].ref
    ensures Runs(s, run) && x in End(s, run).txns && End(s, run).txns[x].ref != s.txns[x].ref
    decreases i
  {
    if i == 0 {
      var a := ByPoller(ExpireOne(pid));
      OneStep(s, a);
      run := [a];
    } else {
      var a := ByPoller(SkipOne(pid));
      run := PollerOverwrites(Apply(s, a), x, pid, i - 1);
      FrontStep(s, a, run);
      run := [a] + run;
    }
  }

  lemma OverwriterOverwrites(s: State, x: nat, pid: nat) returns (run: seq<Action>)
    requires x in s.txns && pid in s.procs && Overwrites(s, x, s.procs[pid])
    ensures Runs(s, run) && x in End(s, run).txns && End(s, run).txns[x].ref != s.txns[x].ref
  {
    match s.procs[pid]
    case Storing(_, _) =>
      run := [ByPayer(StoreSession(pid))];
      OneStep(s, run[0]);
    case Webhook(_, _, _, _) =>
      run := [ByGateway(Settle(pid))];
      OneStep(s, run[0]);
    case Poll(todo) =>
      var i :| 0 <= i < |todo| && todo[i].txn == x && todo[i].snap.ref != s.txns[x].ref;
      run := PollerOverwrites(s, x, pid, i);
    case PollAnnouncing(_, _, todo) =>
      var i :| 0 <= i < |todo| && todo[i].txn == x && todo[i].snap.ref != s.txns[x].ref;
      var a := ByPoller(AnnounceExpiryFails(pid));
      run := PollerOverwrites(Apply(s, a), x, pid, i);
      FrontStep(s, a, run);
      run := [a] + run;
  }

  /** The row of x carries ref at the end of the run. */
  ghost predicate StillCarries(s: State, run: seq<Action>, x: nat, ref: SessionRef) {
    Runs(s, run) ==> x in End(s, run).txns && End(s, run).txns[x].ref == ref
  }

  /** Write-once, exactly: the reference of a claimed or settled transaction stays in every
      continuation of the run if and only if no process in flight holds another reference for it. */
  lemma ReferenceStaysExactly(s: State, x: nat)
    requires x in s.txns && !s.txns[x].status.Initiated?
    ensures (forall run :: StillCarries(s, run, x, s.txns[x].ref))
      <==> (forall pid :: pid in s.procs ==> !Overwrites(s, x, s.procs[pid]))
  {
    hide Apply, Enabled, Overwrites;
    if pid :| pid in s.procs && Overwrites(s, x, s.procs[pid]) {
      var run := OverwriterOverwrites(s, x, pid);
      assert !StillCarries(s, run, x, s.txns[x].ref);
    } else {
      forall run ensures StillCarries(s, run, x, s.txns[x].ref) {
        if Runs(s, run) {
          RunGuards(s, run, x, s.txns[x].ref);
        }
      }
    }
  }

  /** In particular for the reference of every payment call that has won, in every run. */
  lemma WonReferenceStaysExactly(now: int, run: seq<Action>, x: nat)
    requires Runs(Init(now), run) && x in End(Init(now), run).won
    ensures var s := End(Init(now), run);
      && x in s.txns && !s.txns[x].status.Initiated?
      && ((forall more :: StillCarries(s, more, x, s.txns[x].ref))
            <==> (forall pid :: pid in s.procs ==> !Overwrites(s, x, s.procs[pid])))
  {
    hide Apply, Enabled, Overwrites, StillCarries;
    RunKeepsRefs(Init(now), run);
    ReferenceStaysExactly(End(Init(now), run), x);
  }
}
