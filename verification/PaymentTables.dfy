/** Rows of the payment database and the effect of each SQL statement on a row. */
module PaymentTables {
  import opened Messages

  datatype TxnStatus = Initiated | Pending | Completed | Expired

  /** The non-terminal statuses. */
  predicate IsActive(s: TxnStatus) {
    s.Initiated? || s.Pending?
  }

  /** The provider_ref column; the empty string is NoSession. */
  datatype SessionRef = NoSession | Session(id: nat)

  /** The refund_status column; the code writes only 'none' and 'pending'. */
  datatype RefundMark = NotRefunded | RefundPending

  /** A row of transactions, without its id. */
  datatype Txn = Txn(
    booking: nat,
    event: nat,
    user: nat,
    amount: nat,
    status: TxnStatus,
    ref: SessionRef,
    refund: RefundMark,
    expiresAt: Option<int>)

  datatype RefundReason = LatePayment | CancelledEvent

  /** The idempotency key: a prefix for the reason, then the transaction id. */
  datatype RefundKey = RefundKey(reason: RefundReason, txn: nat)

  datatype Refund = Refund(booking: nat, event: nat, amount: nat, ref: SessionRef)

  /** UPDATE ... SET status, provider_ref WHERE id AND status IN (active). */
  function TransitionIfActive(row: Txn, to: TxnStatus, ref: SessionRef): Txn {
    if IsActive(row.status) then row.(status := to, ref := ref) else row
  }

  /** UPDATE ... SET status, provider_ref WHERE id AND status = 'initiated'. */
  function TransitionIfInitiated(row: Txn, to: TxnStatus, ref: SessionRef): Txn {
    if row.status.Initiated? then row.(status := to, ref := ref) else row
  }

  /** INSERT ... ON CONFLICT (idempotency_key) DO NOTHING. */
  function InsertRefund(refunds: map<RefundKey, Refund>, key: RefundKey, r: Refund): map<RefundKey, Refund> {
    if key in refunds then refunds else refunds[key := r]
  }

  function RefundOf(row: Txn): Refund {
    Refund(row.booking, row.event, row.amount, row.ref)
  }

  function CompletedMessage(x: nat, row: Txn): Message {
    Message.PaymentCompleted(x, row.booking, row.event, row.user)
  }

  function ExpiredMessage(x: nat, row: Txn, why: ExpiryReason): Message {
    Message.PaymentExpired(x, row.booking, row.event, row.user, why)
  }
}
