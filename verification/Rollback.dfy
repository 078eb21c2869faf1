/** What becomes of the seat ledger when the payment call of a Reserve fails.

    Reserve then deletes the booking row, ignores whether that worked, and gives the seats
    back. Where the row was not removed this creates seats, and later releases may then run into
    the cap: the exact account of both, per step and over every run. */
module Rollback {
  import opened Sums
  import opened TicketingTables
  import opened TicketingSteps
  import opened TicketingShape
  import opened SeatLedger
  import opened TicketingProofs

  /** No Reserve call has come past a failed payment call. */
  ghost predicate Clean(s: State) {
    forall r :: r in s.reserves ==>
      s.reserves[r].extra == [] && !s.reserves[r].phase.Deleting? &&
        (s.reserves[r].phase.Returning? ==> s.reserves[r].phase.backed)
  }

  lemma BuyerStaysClean(s: State, b: Buyer)
    requires Clean(s) && BuyerEnabled(s, b) && !b.PaymentFails?
    ensures Clean(ApplyBuyer(s, b))
  {
    hide Price;
  }

  predicate IsPaymentFailure(a: Action) {
    a.ByBuyer? && a.b.PaymentFails?
  }

  lemma StepStaysClean(s: State, a: Action)
    requires Clean(s) && Enabled(s, a) && !IsPaymentFailure(a)
    ensures Clean(Apply(s, a))
  {
    hide ApplyBuyer, ApplyDesk, ApplyAdmin, BuyerEnabled, DeskEnabled, AdminEnabled;
    match a
    case ByBuyer(b) => BuyerStaysClean(s, b);
    case ByDesk(d) => DeskFrame(s, d);
    case ByAdmin(m) => AdminLeavesReserves(s, m);
    case MarkDelivered(_) =>
  }

  lemma {:induction false} RunStaysClean(s: State, run: seq<Action>)
    requires Clean(s) && Runs(s, run) && forall i :: 0 <= i < |run| ==> !IsPaymentFailure(run[i])
    ensures Clean(End(s, run))
    decreases |run|
  {
    hide Enabled, Apply, Clean;
    if run != [] {
      StepStaysClean(s, run[0]);
      RunStaysClean(Apply(s, run[0]), run[1..]);
    }
  }

  lemma CleanMeansBacked(s: State, t: nat)
    requires Clean(s)
    ensures Unbacked(s, t) == 0
  {
    forall r | r in s.reserves ensures ExtraBy(t)(s.reserves[r]) == 0 {
    }
    SumOfZeros(s.reserves, ExtraBy(t));
  }

  /** In every run without a failed payment call, whatever else fails: for every ticket type of
      an approved event, available seats plus seats of live bookings plus seats held by Reserve
      calls in flight plus leaked seats make up the quantity; so no seat is sold twice. */
  lemma ExactWithoutPaymentFailure(cascade: bool, run: seq<Action>)
    requires Runs(Init(cascade), run) && forall i :: 0 <= i < |run| ==> !IsPaymentFailure(run[i])
    ensures var s := End(Init(cascade), run);
      forall t :: t in s.types && TypeOpen(s, t) ==> ExactAt(s, t)
  {
    hide ExactAt, Unbacked, Owned;
    RunStaysClean(Init(cascade), run);
    SeatsAreAccountedFor(cascade, run);
    var s := End(Init(cascade), run);
    forall t | t in s.types && TypeOpen(s, t) ensures ExactAt(s, t) {
      CleanMeansBacked(s, t);
    }
  }

  /** The delete removes the row exactly when the row is still pending and the schema allows it;
      with the shipped schema it never does. */
  lemma DeleteIsBackedExactlyWhenRemoved(s: State, r: nat)
    requires Shape(s) && BuyerEnabled(s, DeleteBooking(r))
    ensures var p := s.reserves[r].phase;
      var u := DeleteStep(s, r, p);
      && u.reserves[r].phase == Returning(p.items, 0, s.cascade && StillPending(s, p.booking))
      && (s.cascade && StillPending(s, p.booking) <==> p.booking in s.bookings && p.booking !in u.bookings)
  {
    assert ReserveOk(s, s.reserves[r]);
  }

  /** The item that the next release of a rollback gives back. */
  function NextItem(s: State, r: nat): Item
    requires BuyerEnabled(s, ReturnOne(r))
  {
    s.reserves[r].phase.items[s.reserves[r].phase.returned]
  }

  /** What one release of a rollback does to the account of its type, exactly: with the booking row in
      place it creates the seats that fit under the cap, with the row gone it loses those that do not. */
  lemma ReleaseChangesAccount(s: State, r: nat)
    requires Shape(s) && BuyerEnabled(s, ReturnOne(r))
    ensures var u, item := ReturnStep(s, r, s.reserves[r].phase), NextItem(s, r);
      var t := item.ticketType;
      && t in s.types && t in u.types
      && Accounted(u, t) - Accounted(s, t) ==
           (if s.reserves[r].phase.backed then 0 else item.quantity) - Over(s.types[t], item.quantity)
  {
    assert ReserveOk(s, s.reserves[r]) && TypeOpen(s, NextItem(s, r).ticketType);
    ShapeIsSound(s);
    ReturnChangesAccount(s, r, NextItem(s, r));
  }

  /** One release of a rollback leaves the account of its ticket type as it was if and only if: with
      the booking row gone, the seats fit back under the cap; with the row in place, the counter is
      full already. */
  lemma ReleaseIsExactIff(s: State, r: nat)
    requires Shape(s) && BuyerEnabled(s, ReturnOne(r)) && NextItem(s, r).quantity > 0
    ensures var u, item := ReturnStep(s, r, s.reserves[r].phase), NextItem(s, r);
      var t := item.ticketType;
      && t in s.types && t in u.types
      && (Accounted(u, t) == Accounted(s, t) <==>
            if s.reserves[r].phase.backed then s.types[t].available + item.quantity <= s.types[t].quantity
            else s.types[t].available == s.types[t].quantity)
  {
    ReleaseChangesAccount(s, r);
    ShapeIsSound(s);
    hide Accounted, ReturnStep, Shape;
  }

  /*** The ledger, to the last seat ***/

  /** The seats of type t that LEAST cuts off in a run. */
  ghost function CutOff(s: State, run: seq<Action>, t: nat): nat
    requires Runs(s, run)
    decreases |run|
  {
    if run == [] then 0 else CutAt(s, run[0], t) + CutOff(Apply(s, run[0]), run[1..], t)
  }

  lemma {:induction false} RunCuts(s: State, run: seq<Action>, t: nat)
    requires Inv(s) && Runs(s, run) && t in End(s, run).types
    ensures Gap(End(s, run), t) == (if t in s.types then Gap(s, t) else 0) + CutOff(s, run, t)
    decreases |run|
  {
    hide Inv, Gap, CutAt, Apply, Enabled, Shape;
    if run != [] {
      var u := Apply(s, run[0]);
      InvIsInductive(s, run[0]);
      InvHasItsShape(s);
      RunCuts(u, run[1..], t);
      if t in s.types {
        TypesStay(s, run[0], t);
      }
      if t in u.types {
        StepCuts(s, run[0], t);
      } else {
        NewIsUncut(s, run[0], t);
      }
    }
  }

  lemma InvHasItsShape(s: State)
    requires Inv(s)
    ensures Shape(s)
  {
  }

  lemma TypesStay(s: State, a: Action, t: nat)
    requires Shape(s) && Enabled(s, a) && t in s.types
    ensures t in Apply(s, a).types
  {
    hide Shape, Grows;
    ShapeIsInductive(s, a);
    GrowsKeepsTypes(s, Apply(s, a), t);
  }

  lemma GrowsKeepsTypes(s: State, u: State, t: nat)
    requires Grows(s, u) && t in s.types
    ensures t in u.types
  {
  }

  /** In every run, for every ticket type: the seats available, owned, held and leaked, together with
      those cut off by LEAST, are exactly those the type has to give and those created by unbacked
      rollbacks. So a type is oversold if and only if unbacked rollbacks created more seats than are
      available, held, leaked or cut off. */
  lemma EverySeatIsAccountedFor(cascade: bool, run: seq<Action>, t: nat)
    requires Runs(Init(cascade), run) && t in End(Init(cascade), run).types
    ensures var s := End(Init(cascade), run);
      && Accounted(s, t) + CutOff(Init(cascade), run, t) == Supply(s, t) + Unbacked(s, t)
      && (TypeOpen(s, t) ==>
            (Owned(s, t) > s.types[t].quantity <==>
             Unbacked(s, t) > s.types[t].available + InFlight(s, t) + Leaked(s, t) + CutOff(Init(cascade), run, t)))
  {
    hide Owned, InFlight, Leaked, Unbacked, CutOff, Runs, End;
    InitialInv(cascade);
    RunCuts(Init(cascade), run, t);
  }
}
