/** Shared value types: optional values and the messages that travel between the services. */
module Messages {

  datatype Option<+T> = None | Some(value: T)

  /** Why a payment.expired message was sent. */
  datatype ExpiryReason = GatewayExpired | InternalExpiryFallback

  /** A message is its topic (the constructor) with its payload; identifiers (UUIDs) are naturals. */
  datatype Message =
    | PaymentCompleted(txn: nat, booking: nat, event: nat, user: nat)
    | PaymentExpired(txn: nat, booking: nat, event: nat, user: nat, reason: ExpiryReason)
    | EventCancelled(event: nat)
    | TicketIssued(ticket: nat, booking: nat, user: nat, event: nat, ticketType: nat)

  /** A row of the outbox table; the row's id is its position. */
  datatype OutboxRow = OutboxRow(message: Message, delivered: bool)

  /** Inserting into the outbox: a fresh, undelivered row at the end of the table. */
  function Insert(outbox: seq<OutboxRow>, m: Message): (r: seq<OutboxRow>) {
    outbox + [OutboxRow(m, false)]
  }
}

/** Sums over the rows of a finite table. */
module Sums {

  ghost function Sum<V>(m: map<nat, V>, f: V -> int): int
    decreases |m|
  {
    if m == map[] then 0
    else
      var k :| k in m;
      f(m[k]) + Sum(m - {k}, f)
  }

  lemma {:induction false} SumRemove<V>(m: map<nat, V>, f: V -> int, k: nat)
    requires k in m
    ensures Sum(m, f) == f(m[k]) + Sum(m - {k}, f)
    decreases |m|
  {
    var j :| j in m && Sum(m, f) == f(m[j]) + Sum(m - {j}, f);
    if j != k {
      SumRemove(m - {j}, f, k);
      SumRemove(m - {k}, f, j);
      assert m - {j} - {k} == m - {k} - {j};
    }
  }

  lemma SumUpdate<V>(m: map<nat, V>, f: V -> int, k: nat, v: V)
    ensures Sum(m[k := v], f) == Sum(m, f) + f(v) - (if k in m then f(m[k]) else 0)
  {
    SumRemove(m[k := v], f, k);
    assert m[k := v] - {k} == m - {k};
    if k in m {
      SumRemove(m, f, k);
    } else {
      assert m - {k} == m;
    }
  }

  /** Termwise comparison of two sums over the same keys. */
  lemma {:induction false} SumMonotone<V, W>(m: map<nat, V>, f: V -> int, n: map<nat, W>, g: W -> int)
    requires m.Keys == n.Keys
    requires forall k :: k in m ==> f(m[k]) <= g(n[k])
    ensures Sum(m, f) <= Sum(n, g)
    decreases |m|
  {
    if m == map[] {
      assert n == map[];
    } else {
      var k :| k in m;
      SumRemove(m, f, k);
      SumRemove(n, g, k);
      SumMonotone(m - {k}, f, n - {k}, g);
    }
  }

  /** A sum of non-negative terms bounds each of its terms. */
  lemma {:induction false} SumBoundsTerm<V>(m: map<nat, V>, f: V -> int)
    requires forall k :: k in m ==> f(m[k]) >= 0
    ensures Sum(m, f) >= 0
    ensures forall k :: k in m ==> f(m[k]) <= Sum(m, f)
    decreases |m|
  {
    forall k | k in m ensures f(m[k]) <= Sum(m, f) {
      SumRemove(m, f, k);
      SumBoundsTerm(m - {k}, f);
    }
  }

  lemma {:induction false} SumOfZeros<V>(m: map<nat, V>, f: V -> int)
    requires forall k :: k in m ==> f(m[k]) == 0
    ensures Sum(m, f) == 0
    decreases |m|
  {
    if m != map[] {
      var k :| k in m;
      SumRemove(m, f, k);
      SumOfZeros(m - {k}, f);
    }
  }
}

/** Work done in batches of bounded size. */
module Batches {

  /** What is left of n after so many full batches. */
  function Left(n: nat, limit: nat, passes: nat): nat {
    if n <= passes * limit then 0 else n - passes * limit
  }

  lemma OnePassMore(n: nat, limit: nat, passes: nat, cleared: nat)
    requires cleared == if Left(n, limit, passes) <= limit then Left(n, limit, passes) else limit
    ensures Left(n, limit, passes) - cleared == Left(n, limit, passes + 1)
  {
    assert (passes + 1) * limit == passes * limit + limit;
  }

  /** Nothing is left after exactly ceil(n / limit) passes, and not before. */
  lemma LeftExactly(n: nat, limit: nat, passes: nat)
    requires limit > 0
    ensures Left(n, limit, passes) == 0 <==> (n + limit - 1) / limit <= passes
  {
    var total := n + limit - 1;
    var q, r := total / limit, total % limit;
    assert total == q * limit + r;
    assert (passes - q) * limit == passes * limit - q * limit;
    Times(passes - q, limit);
  }

  lemma Times(d: int, k: nat)
    requires k > 0
    ensures d >= 0 ==> d * k >= 0
    ensures d <= -1 ==> d * k <= 0 - k
  {
  }

  lemma SubsetSize<T>(a: set<T>, b: set<T>)
    requires a <= b
    ensures |b - a| == |b| - |a|
  {
    assert b == a + (b - a);
  }
}
