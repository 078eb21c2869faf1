/** Runs of the payment service in which a promise fails, one for each premise that the
    theorems about sessions and paid money name. */
module PaymentRaces {
  import opened Messages
  import opened PaymentTables
  import opened PaymentSteps

  /** The state of transaction 0 (100 rupiah, deadline 60) and nothing else. */
  function Solo(now: int, status: TxnStatus, ref: SessionRef): State {
    Init(now).(txns := map[0 := Row(status, ref)])
  }

  function Row(status: TxnStatus, ref: SessionRef): Txn {
    Txn(1, 2, 3, 100, status, ref, NotRefunded, Some(60))
  }

  /** A ProcessPayment call won x with a real session and has stored it for good, and the row no
      longer names it. */
  ghost predicate Clobbered(s: State, x: nat) {
    && x in s.won && s.won[x].Session? && x in s.txns && s.txns[x].ref.NoSession?
    && forall pid :: pid in s.procs && s.procs[pid].Storing? ==> s.procs[pid].txn != x
  }

  /** A paid webhook for x was acknowledged, x is expired, and x has no refund and none on its way. */
  ghost predicate Lost(s: State, x: nat, how: Ending) {
    && Return(x, how) in s.returned
    && x in s.txns && s.txns[x].status.Expired?
    && RefundKey(LatePayment, x) !in s.refunds && RefundKey(CancelledEvent, x) !in s.refunds
    && forall pid :: pid in s.procs ==> !s.procs[pid].LateRefund?
  }

  /** One more step of a run that starts from the empty database at time 0. */
  lemma Go(run: seq<Action>, a: Action) returns (longer: seq<Action>)
    requires Runs(Init(0), run) && Enabled(End(Init(0), run), a)
    ensures Runs(Init(0), longer) && End(Init(0), longer) == Apply(End(Init(0), run), a)
  {
    Extend(Init(0), run, a);
    longer := run + [a];
  }

  /** ProcessPayment has checked the deadline and opened session 7, but not yet stored it. */
  lemma OpenedSession() returns (run: seq<Action>)
    ensures Runs(Init(0), run)
    ensures End(Init(0), run) == Solo(0, Initiated, NoSession).(procs := map[0 := PayingWith(0, 0, Session(7))])
  {
    run := Go([], Initiate(0, 1, 2, 3, 100, 60));
    run := Go(run, ByPayer(CheckPayment(0, 0, 3)));
    run := Go(run, ByPayer(OpenSession(0, Session(7))));
    assert End(Init(0), run).procs == map[0 := PayingWith(0, 0, Session(7))];
  }

  /** A webhook without a session id clobbers the reference: it read the row before the
      session was stored and writes that empty reference back. */
  lemma AnonymousWebhookClobbers()
    ensures exists run :: Runs(Init(0), run) && Clobbered(End(Init(0), run), 0)
  {
    var run := OpenedSession();
    run := Go(run, ByGateway(Receive(1, SessionCompleted, NoSession, 0)));
    run := Go(run, ByPayer(Claim(0)));
    run := Go(run, ByPayer(StoreSession(0)));
    run := Go(run, ByGateway(Settle(1)));
    assert Runs(Init(0), run);
  }

  /** A session takes a minute to open; the poller has read the row at the deadline and writes its
      empty reference back when the session is stored. */
  lemma StoredTooLate() returns (run: seq<Action>)
    ensures Runs(Init(0), run)
    ensures var s := End(Init(0), run);
      && s.txns == map[0 := Row(Expired, NoSession)] && s.refunds == map[] && s.won == map[0 := Session(7)]
      && s.procs.Keys == {1} && s.procs[1].PollAnnouncing?
  {
    run := ReadTooEarly();
    run := Go(run, ByPayer(Claim(0)));
    run := Go(run, ByPayer(StoreSession(0)));
    run := Go(run, ByPoller(ExpireOne(1)));
    assert End(Init(0), run).txns == map[0 := Row(Expired, NoSession)];
    assert End(Init(0), run).won == map[0 := Session(7)];
  }

  lemma ReadTooEarly() returns (run: seq<Action>)
    ensures Runs(Init(0), run)
    ensures End(Init(0), run) == Solo(60, Initiated, NoSession).(
        procs := map[0 := PayingWith(0, 0, Session(7)), 1 := Poll([Seen(0, Row(Initiated, NoSession))])])
  {
    run := OpenedSession();
    run := Go(run, Tick(60));
    run := Go(run, ByPoller(StartPoll(1, [Seen(0, Row(Initiated, NoSession))])));
    assert End(Init(0), run).procs ==
      map[0 := PayingWith(0, 0, Session(7)), 1 := Poll([Seen(0, Row(Initiated, NoSession))])];
  }

  lemma SlowSessionClobbered()
    ensures exists run :: Runs(Init(0), run) && Clobbered(End(Init(0), run), 0)
  {
    var run := StoredTooLate();
    assert Runs(Init(0), run);
  }

  /** The customer pays that session: its webhook no longer matches the row and is ignored. */
  lemma MismatchedPaymentIsLost()
    ensures exists run :: Runs(Init(0), run) && Lost(End(Init(0), run), 0, Mismatched)
  {
    var run := StoredTooLate();
    run := Go(run, ByGateway(Ignore(2, SessionCompleted, Session(7), 0)));
    assert Runs(Init(0), run);
  }

  /** The customer has paid session 7: its webhook has read the pending transaction. */
  lemma PaidWebhookHasRead() returns (run: seq<Action>)
    ensures Runs(Init(0), run)
    ensures End(Init(0), run) == Solo(0, Pending, Session(7)).(
        won := map[0 := Session(7)],
        procs := map[0 := Storing(0, Session(7)),
          1 := Webhook(SessionCompleted, Session(7), 0, Row(Pending, Session(7)))])
  {
    run := OpenedSession();
    run := Go(run, ByPayer(Claim(0)));
    run := Go(run, ByGateway(Receive(1, SessionCompleted, Session(7), 0)));
    assert End(Init(0), run).txns == map[0 := Row(Pending, Session(7))];
    assert End(Init(0), run).procs ==
      map[0 := Storing(0, Session(7)), 1 := Webhook(SessionCompleted, Session(7), 0, Row(Pending, Session(7)))];
  }

  /** The poller expires the transaction meanwhile. */
  lemma ExpiredMeanwhile() returns (run: seq<Action>)
    ensures Runs(Init(0), run)
    ensures var s := End(Init(0), run);
      && s.txns == map[0 := Row(Expired, Session(7))] && s.refunds == map[] && s.procs.Keys == {0, 1, 2}
      && s.procs[0].Storing? && s.procs[2].PollAnnouncing?
      && s.procs[1] == Webhook(SessionCompleted, Session(7), 0, Row(Pending, Session(7)))
  {
    run := PaidWebhookHasRead();
    run := Go(run, Tick(60));
    run := Go(run, ByPoller(StartPoll(2, [Seen(0, Row(Pending, Session(7)))])));
    run := Go(run, ByPoller(ExpireOne(2)));
    assert End(Init(0), run).txns == map[0 := Row(Expired, Session(7))];
  }

  /** The poller expires the transaction between a paid webhook's read and its update: the
      webhook ends normally, the transaction is expired, and no refund is on its way. */
  lemma RacedPaymentIsLost()
    ensures exists run :: Runs(Init(0), run) && Lost(End(Init(0), run), 0, Raced)
  {
    var run := ExpiredMeanwhile();
    run := Go(run, ByGateway(Settle(1)));
    assert Runs(Init(0), run);
  }

  /** The poller has expired a pending transaction, whose session 7 is paid now. */
  lemma ExpiredBeforePaid() returns (run: seq<Action>)
    ensures Runs(Init(0), run)
    ensures End(Init(0), run).txns == map[0 := Row(Expired, Session(7))] && End(Init(0), run).refunds == map[]
    ensures End(Init(0), run).procs.Keys == {0, 2}
    ensures !End(Init(0), run).procs[0].LateRefund? && !End(Init(0), run).procs[2].LateRefund?
  {
    run := OpenedSession();
    run := Go(run, ByPayer(Claim(0)));
    run := Go(run, Tick(60));
    run := Go(run, ByPoller(StartPoll(2, [Seen(0, Row(Pending, Session(7)))])));
    run := Go(run, ByPoller(ExpireOne(2)));
    assert End(Init(0), run).txns == map[0 := Row(Expired, Session(7))];
  }

  /** Nobody races: the webhook reads the expired transaction, but the insert of its refund fails,
      the error is dropped and the webhook acknowledged. */
  lemma FailedRefundIsLost()
    ensures exists run :: Runs(Init(0), run) && Lost(End(Init(0), run), 0, RefundFailed)
  {
    var run := ExpiredBeforePaid();
    run := Go(run, ByGateway(Receive(1, SessionCompleted, Session(7), 0)));
    run := Go(run, ByGateway(Settle(1)));
    run := Go(run, ByGateway(LateRefundFails(1)));
    assert Runs(Init(0), run);
  }
}
