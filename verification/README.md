# Reservations, payments and cancellations: a verified model

Ticketbus sells tickets with two services that share no database. The ticketing service takes seats
from counters, writes a pending booking and asks the payment service for a transaction; webhooks,
an expiry poller and event cancellations then race to settle both sides, and the services tell each
other what happened through outbox tables and a message broker. This project models that protocol
in Dafny and proves what the design promises of it, over every interleaving, and, where the code
breaks a promise, exactly when it does.

## How the model is laid out

*Tables.* `TicketingTables` and `PaymentTables` hold the rows and the effect of each guarded SQL
statement; `Messages`, `Sums` and `Batches` (in `Common.dfy`) hold what both services share.
Identifiers (UUIDs) are naturals, an empty provider reference is `NoSession`, a refund's idempotency
key is the pair of its reason prefix and transaction, a ticket id is the position of its item.

*Step systems.* `TicketingSteps` and `PaymentSteps` take one SQL statement or one SQL transaction per
step. A Reserve call, webhook, poller pass, refund pass, payment or message handler in flight is a
process that carries the rows it read earlier, however stale; any number of them interleave in any
order, any statement may fail where the code goes on after the error, and a process may stop for good
at any point. `Protocol` puts the two systems together with the message log, whose entries may be
handled any number of times, in any order, or never. Properties are proved of the end of *every* run
by inductive invariants: `TicketingShape`, `SeatLedger`, `TicketingProofs`, `Cancellation`, `Rollback`,
`PaymentProofs`, `PaymentSessions`, `Agreement`. `PaymentRaces`, `Oversell` and `OversellTogether` contain
concrete runs in which a promise fails.

*Code.* `TicketingStore`, `BookingService`, `EventService`, `PaymentStore`, `PaymentService` and
`OutboxWorker` are the repositories and services as classes whose methods update tables in place, loops
included, each proved against a specification function. Outside failures (the payment call, a price or
seat statement, and the statements whose errors the code drops: releases and the delete of a rollback,
outbox inserts, the late-payment refund and its mark) are parameters. `Handlers` and `PaymentService` hold
the specification functions. `Undisturbed`, `UndisturbedPayment`, `UndisturbedEvents` and `ReserveAlone` prove that
the steps of a handler or call nobody disturbs are enabled where its code goes ahead and add up to the same
functions and outcomes, which ties the code layer to the step systems.

*Messages.* `Confluence` says what a set of messages means for a booking; `Interleaving` proves, for a pool of
workers whose handlers interleave step by step, as the consumer runs them, exactly when order, multiplicity
and interleaving do not matter to the counters; `Deliveries` applies that to the message log of any run.

## Where the code and its promises part

- *Oversell.* Deleting the booking after a failed payment call is meant to come before its seats are
  returned. The items table refers to the booking without a delete cascade, every booking has items,
  and the error of the delete is dropped: with the shipped schema the row always survives, pending,
  while its seats are sold again, beyond the capacity of the venue (`OversellTogether.OneSeatIsSoldTwice`).
  The flag `cascade` of the model tells the shipped schema (false) from one that cascades. A cascade alone is
  no cure: if the expiry of the payment is handled before the delete, the delete finds no pending row, reports
  no error, and the seats come back twice (`CascadeIsNoCure`). Once seats were created, LEAST may swallow some
  that are given back rightly (`CapSwallowsASeat`). `EverySeatIsAccountedFor` balances all of this in every
  run: available, owned, held, leaked and cut-off seats together are exactly the seats to give and the seats
  created, so a type is oversold if and only if more seats were created than are available, held, leaked or
  cut off. `ReleaseIsExactIff` says exactly when one release of a rollback leaves the account as it was.
- *Leaks.* The rollback of a sold-out item stops at the first item of the same ticket type, a price error on a
  later item rolls nothing back, and both rollback loops drop the error of a release. `FailureRestoresExactly`
  says exactly when a failing Reserve leaves counters and bookings as they were; `RepeatedTypeLeaks`,
  `LatePriceErrorLeaks` and `FailedReleaseLeaks` are inputs for which it does not.
- *Late payments.* The late-payment branch tests the status read before the guarded update, the error of its
  refund insert is only logged, and a webhook whose session is not the stored one is acknowledged and ignored.
  So paid money is lost when the poller expires the row between the read and the update of a paid webhook
  (`RacedPaymentIsLost`), when the refund insert fails (`FailedRefundIsLost`), and when the stored reference was
  overwritten (`MismatchedPaymentIsLost`). `MoneyIsLostExactly` says that a paid webhook that is acknowledged
  leaves its money unaccounted for in these cases and no other, unless another delivery made the refund; and
  `WinnerIsHeard` says that a webhook of the session that won is never ignored under the premises of the next
  point.
- *Session references.* A webhook or the poller writes back the reference it read. `SessionReferenceIsWriteOnce`
  names two premises (webhooks carry a session id, opening and storing a session takes under a minute), and
  `AnonymousWebhookClobbers` and `SlowSessionClobbered` drop one each; that references are not empty turns out
  not to be needed. `ReferenceStaysExactly` says exactly when a stored reference stays: if and only if no
  process in flight holds another one for the row.
- *Cancellation.* A Confirm that read "published" before the event was cancelled still confirms and issues.
  `CancellationIsFinalExactly` and `NoTicketAfterCancellationExactly` say exactly when nothing more happens.
- *Order of messages.* The counters depend on order and interleaving if and only if a live booking gets its
  completed message and also an expired one or its event's cancellation (`InterleavingIsIrrelevantExactly`).
  The payment service never sends both payment messages and only cancelled events are announced as cancelled,
  so the log of a run never does that (`DeliveriesAgree`).
- The README of the repository says that an event is written to the outbox in the same transaction as the
  business data. In the code the insert is a separate statement whose error is dropped, so a settled
  transaction has *at most* one message; the model follows the code.

## Model

| member | source | states |
|---|---|---|
| `Agreement.CrossServiceAgreement` | service/ticketing/internal/application/booking/transitions_service.go:11-86 | in every interleaved run of both services, with messages duplicated, reordered or lost: a booking that is or ever was confirmed has a completed transaction, an expired booking an expired one, a ticket.issued row exists only for a completed one, and no booking has both |
| `Agreement.MoneyAgrees` | service/payment/internal/application/transactions.go:18-49 | in every interleaved run a transaction carries the event, user and exact price of its booking, and every refund that price |
| `Agreement.DeliveredWasPublished` | pkg/outbox/worker.go:79-127 | in every interleaved run a row marked delivered was itself published, with its own message, and every published message comes from a row of an outbox |
| `Agreement.LogOneWay` | service/payment/internal/postgres/transaction_repo.go:69-77 | the message log of a run never holds both a completed and an expired message of one booking |
| `Agreement.InvIsInductive` | service/payment/internal/application/webhook.go:72-120 | the invariant that carries agreement through transaction rows, outboxes, log and handlers in flight is kept by every step of the joint system |
| `TicketingProofs.SeatsAreAccountedFor` | service/ticketing/internal/postgres/seat_counter.go:25-56 | in every run and for every ticket type: the counter respects its CHECK constraint, seats sold exceed the quantity by at most the seats returned while their booking row survived, and without such a return available + owned + in flight + leaked is exactly the quantity and no release meets the cap |
| `Rollback.EverySeatIsAccountedFor` | service/ticketing/internal/postgres/seat_counter.go:25-56 | in every run and for every ticket type: available + owned + in flight + leaked + cut off by LEAST is exactly the quantity + created by unbacked rollbacks; an approved type is oversold if and only if more seats were created than are available, in flight, leaked or cut off |
| `SeatLedger.LedgerIsInductive` | service/ticketing/internal/postgres/booking_repo.go:139-174 | every single step of any Reserve call, handler or lifecycle call keeps the seat ledger balanced |
| `SeatLedger.StepCuts` | service/ticketing/internal/postgres/booking_repo.go:154-161 | the seats that vanish in a step are exactly those that LEAST cuts off in it |
| `TicketingProofs.VenueIsNeverExceeded` | service/ticketing/internal/application/event/event_service.go:44-79 | in every run the seats owned on all ticket types of an event never exceed the venue capacity checked at creation, if no release on those types was unbacked |
| `TicketingProofs.ReleasedAndIssuedOnce` | service/ticketing/internal/postgres/booking_repo.go:127-167 | in every run a transition gives back the seats of a booking at most once and exactly when the booking is over, and each item of a confirmed booking gets at most one ticket row, with the right event, user and type |
| `TicketingProofs.BookingsFollowTheGraph` | service/ticketing/internal/application/booking/transitions_service.go:40-57 | whatever races, a booking moves only along pending to confirmed, expired or cancelled and confirmed to cancelled, keeps user, event and items, and disappears only while pending |
| `TicketingProofs.InvIsInductive` | service/ticketing/internal/application/booking/transitions_service.go:11-138 | the joint invariant of the ticketing service is kept by every step |
| `TicketingShape.ShapeIsInductive` | service/ticketing/internal/application/booking/reserve_service.go:25-102 | stale snapshots and rollback positions stay consistent with the tables under every step |
| `Rollback.ExactWithoutPaymentFailure` | service/ticketing/internal/application/booking/reserve_service.go:82-99 | in every run without a failed payment call, whatever else fails, the ledger of every approved type is exact, so no seat is sold twice |
| `Rollback.DeleteIsBackedExactlyWhenRemoved` | service/ticketing/internal/postgres/booking_repo.go:169-174 | the delete removes the booking if and only if the row is still pending and the schema cascades |
| `Rollback.ReleaseIsExactIff` | service/ticketing/internal/application/booking/reserve_service.go:95-114 | a release of a rollback leaves the account of its type as it was if and only if, with the booking row gone, the seats fit back under the cap, or, with the row in place, the counter is full |
| `Rollback.ReleaseChangesAccount` | service/ticketing/internal/postgres/seat_counter.go:49-56 | otherwise it creates exactly the seats that fit under the cap, or loses exactly those that do not |
| `OversellTogether.OneSeatIsSoldTwice` | migrations/ticketing/004_create_booking_items.up.sql:3-3 | there is a run of both services with the shipped schema at whose end two bookings own the one seat of a type, at a venue with one seat |
| `OversellTogether.CascadeIsNoCure` | service/ticketing/internal/application/booking/reserve_service.go:95-99 | there is a run of both services with a cascading schema, message by message, at whose end more seats are on sale and owned than the type has |
| `OversellTogether.CapSwallowsASeat` | service/ticketing/internal/postgres/seat_counter.go:49-56 | there is a run of both services with the shipped schema in which a release after a row that was never written loses a seat to the cap |
| `Cancellation.CancellationIsFinal` | service/ticketing/internal/application/event/lifecycle.go:72-137 | once an event is cancelled and no handler in flight saw it published, no continuation of the run confirms a booking of it |
| `Cancellation.CancellationIsFinalExactly` | service/ticketing/internal/application/booking/transitions_service.go:20-47 | a cancelled event gets no new confirmed booking in any continuation if and only if no handler that read "published" holds a booking still pending |
| `Cancellation.NoTicketAfterCancellation` | service/ticketing/internal/application/booking/transitions_service.go:49-57 | and no continuation writes a ticket row for it, once no handler is issuing |
| `Cancellation.NoTicketAfterCancellationExactly` | service/ticketing/internal/application/booking/transitions_service.go:40-57 | a cancelled event gets no ticket row in any continuation if and only if no handler that read "published" holds a booking still pending and none is issuing for it |
| `PaymentProofs.OneTerminalMessage` | service/payment/internal/application/webhook.go:73-120 | in every run at most one payment.completed or payment.expired row is ever written for a transaction; its topic is the final status and its payload names the transaction's own booking, event and user |
| `PaymentProofs.ExpiriesSayWhy` | service/payment/internal/application/expiry.go:39-46 | in every run, an expiry posted by a webhook says the gateway expired the session, one posted by the poller says the internal fallback did |
| `PaymentProofs.OneRefundPerTransaction` | service/payment/internal/application/webhook.go:130-150 | in every run a transaction has at most one refund over both reasons, for exactly its amount; late payment if and only if expired, cancelled event if and only if completed; a pending mark implies the row |
| `PaymentProofs.NoPaidMoneyLost` | service/payment/internal/application/webhook.go:62-98 | in every run, a paid webhook that ended leaves its transaction completed or refunded as late, unless it was raced by an expiry, its refund insert failed or its session did not match; late refunds are of the full amount; a transaction that a finished refund pass saw completed has exactly one refund |
| `PaymentProofs.MoneyIsLostExactly` | service/payment/internal/application/webhook.go:62-98 | at every step that ends a paid webhook, ignored ones and dropped errors included: the money is accounted for (completed, or late refund there) if and only if the refund was there already or the webhook was not raced into an expiry, its refund insert did not fail, and it was not ignored for its session on a transaction that is not completed |
| `PaymentProofs.OnlyTheseSteps` | service/payment/internal/application/webhook.go:42-126 | no other step acknowledges a paid webhook |
| `PaymentProofs.LaterPassRefunds` | service/payment/internal/application/event_handlers.go:15-70 | a transaction is completed, then a refund pass of its event starts and, whatever interleaves, reaches its end: then it has exactly one refund, of the full amount, in every continuation |
| `PaymentProofs.RunGrows` | service/payment/internal/postgres/transaction_repo.go:69-90 | over every run a terminal status never changes, and booking, event, user and amount of a transaction never do |
| `PaymentProofs.InvIsInductive` | service/payment/internal/application/expiry.go:14-50 | the invariant of the payment service is kept by every step of webhooks, pollers, refund passes and payments |
| `PaymentRaces.RacedPaymentIsLost` | service/payment/internal/application/expiry.go:26-31 | there is a run in which the poller expires a transaction between a paid webhook's read and its update and no refund is made |
| `PaymentRaces.FailedRefundIsLost` | service/payment/internal/application/webhook.go:144-147 | there is a run in which nobody races, the refund insert fails, and the paid webhook is acknowledged without a refund |
| `PaymentRaces.MismatchedPaymentIsLost` | service/payment/internal/application/webhook.go:59-70 | there is a run in which the reference of a paid session was overwritten and its webhook is ignored, without a refund |
| `PaymentSessions.SessionReferenceIsWriteOnce` | service/payment/internal/application/transactions.go:93-148 | in every continuation of every run the reference stored by the winning payment call stays, unless a webhook came without session id or the winner took a minute or more |
| `PaymentSessions.ReferenceStaysExactly` | service/payment/internal/postgres/transaction_repo.go:69-106 | the reference of a transaction that is no longer initiated stays in every continuation if and only if no process in flight holds another reference that it may still write |
| `PaymentSessions.WonReferenceStaysExactly` | service/payment/internal/application/transactions.go:127-148 | the same for the reference of every payment call that has won, at the end of every run |
| `PaymentSessions.WinnerIsHeard` | service/payment/internal/application/webhook.go:59-70 | in every run, a webhook of the session that won is not ignored, if no webhook came without session id and the winner took under a minute |
| `PaymentSessions.RefundNamesTheSession` | service/payment/internal/application/event_handlers.go:25-37 | in every run, under the same premises, a refund names the gateway session of the payment call that won |
| `PaymentSessions.WinnerStays` | service/payment/internal/postgres/transaction_repo.go:82-106 | at most one payment call ever wins a transaction; a later one changes nothing |
| `PaymentSessions.NoPollerHoldsAClaimedRow` | service/payment/internal/application/expiry.go:15-31 | the timed argument: when a payment call that took under a minute claims a row, no poller pass in flight holds that row |
| `PaymentRaces.AnonymousWebhookClobbers` | service/payment/internal/application/webhook.go:62-79 | there is a run in which a webhook without session id overwrites the reference, after the winner has stored it for good, with an empty one |
| `PaymentRaces.SlowSessionClobbered` | service/payment/internal/application/transactions.go:96-99 | there is a run in which a session that took a minute, stored for good, loses its reference to the poller |
| `Confluence.ContestChangesCounters` | service/ticketing/internal/application/booking/transitions_service.go:63-86 | for such a booking, completed first and expired first leave different counters |
| `Interleaving.InterleavingsAgree` | service/ticketing/internal/application/booking/transitions_service.go:11-114 | from any reachable shape without handlers in flight, two runs of interleaved handler steps that handle the same messages, in any order and multiplicity, leave the same counters, if no live pending booking gets its completed message and also an expired one or its event's cancellation |
| `Interleaving.InterleavingIsIrrelevantExactly` | service/ticketing/internal/application/booking/transitions_service.go:11-138 | and, when the seats of all bookings fit back, if and only if no such booking does |
| `Interleaving.RaceChangesCounters` | service/ticketing/internal/application/booking/transitions_service.go:91-114 | for a live booking that gets a completed message and its event's cancellation: a confirmation between the listing of the pass and its update keeps the seats, and the counters differ from those without the race |
| `Interleaving.RedeliveryChangesNothing` | service/ticketing/internal/application/booking/transitions_service.go:117-138 | handling all messages a second time, interleaved in any way, changes no counter |
| `Interleaving.FinalOwner` | service/ticketing/internal/postgres/booking_repo.go:127-167 | whatever interleaves, a booking owns its seats in the end if and only if the set of messages says so |
| `Deliveries.DeliveriesAgree` | pkg/kafka/kafka.go:122-146 | at the end of any run of both services without handlers in flight, take any messages of its log: all interleavings of handlers that handle them leave the same counters |
| `Handlers.HandleAllGivesBack` | service/ticketing/internal/postgres/booking_repo.go:139-167 | any sequence of handled messages returns to each counter exactly the seats no longer owned, up to the quantity, and every booking reacts by itself |
| `Handlers.CancelListedCancelsAll` | service/ticketing/internal/application/booking/transitions_service.go:99-112 | the cancel loop, in whatever order rows are listed, cancels all pending and confirmed bookings of the event, returns exactly their seats and touches nothing else |
| `Handlers.CancelConverges` | service/ticketing/internal/application/booking/transitions_service.go:88-114 | after a pass no booking of the event owns seats, and a second pass changes nothing |
| `Undisturbed.ConfirmAlone` | service/ticketing/internal/application/booking/transitions_service.go:11-48 | the steps of an undisturbed Confirm add up to the handler function |
| `Undisturbed.ConfirmAndIssueAlone` | service/ticketing/internal/application/booking/transitions_service.go:11-59 | the whole of an undisturbed Confirm, tickets included, for every pattern of lost inserts: tables and outbox end as those of the code |
| `Undisturbed.StartsExactlyWhenPending` | service/ticketing/internal/application/booking/transitions_service.go:118-138 | a handler starts if and only if its code finds the booking pending |
| `Undisturbed.ExpireAlone` | service/ticketing/internal/application/booking/transitions_service.go:63-86 | the same for the expiry handler |
| `Undisturbed.CancelAlone` | service/ticketing/internal/application/booking/transitions_service.go:91-114 | the same for a cancellation pass of any length |
| `ReserveAlone.EveryOutcomeIsARun` | service/ticketing/internal/application/booking/reserve_service.go:16-114 | every outcome that contract allows, under every pattern of failures, is reached by steps of one undisturbed Reserve call in the step system, with the same counters and bookings; a failing call leaks exactly the items it keeps, and one whose row stayed creates exactly the seats it released |
| `ReserveAlone.EveryRunIsAnOutcome` | service/ticketing/internal/application/booking/reserve_service.go:16-114 | conversely, every run in which one Reserve call starts, nobody else takes a step and the call comes to its end, ends in the outcome of the contract for some pattern of failures, with those counters, bookings, leaks and created seats |
| `UndisturbedPayment.WebhookAlone` | service/payment/internal/application/webhook.go:54-150 | the steps of an undisturbed webhook add up to the webhook function, under every pattern of dropped errors |
| `UndisturbedPayment.HeardExactlyWhenReceived` | service/payment/internal/application/webhook.go:30-70 | a webhook is taken up by the step system if and only if its code looks at it, and ignored if and only if its code ignores it: payment_session_id decides when it is set, id otherwise |
| `UndisturbedPayment.PollAlone` | service/payment/internal/application/expiry.go:15-48 | the steps of an undisturbed poller pass, whatever updates and inserts fail in it, expire exactly the listed rows whose update works and post exactly their messages whose insert works |
| `UndisturbedPayment.PolledExactlyWhenOverdue` | service/payment/internal/postgres/transaction_repo.go:135-144 | a row may stand in a listing of the poller if and only if the query selects it |
| `UndisturbedPayment.PassAlone` | service/payment/internal/application/event_handlers.go:16-68 | the steps of an undisturbed refund pass refund and mark exactly the completed transactions of the event |
| `UndisturbedPayment.CheckedExactlyWhenPayable` | service/payment/internal/application/transactions.go:89-102 | the first step of a payment is enabled if and only if the transaction is initiated, at least 60 seconds of its hold remain and the user is its own |
| `UndisturbedPayment.PaymentAlone` | service/payment/internal/application/transactions.go:85-156 | an undisturbed payment call stores its session and moves the transaction to pending |
| `UndisturbedPayment.InitiateAlone` | service/payment/internal/application/transactions.go:24-48 | creating a transaction is enabled if and only if the booking has none, and stores the request as it is, deadline included |
| `BookingService.Service.Reserve` | service/ticketing/internal/application/booking/reserve_service.go:16-102 | for every item list and every pattern of outside failures, dropped ones included: the outcome is the justified one, each counter drops by exactly the seats of the items kept, and the bookings change by one pending row on success (or on a failed payment call whose row is not deleted) and not at all otherwise |
| `BookingService.OutcomeIsDetermined` | service/ticketing/internal/application/booking/reserve_service.go:25-55 | that contract decides the outcome: two justified outcomes of one call are equal |
| `BookingService.OutcomeOf` | service/ticketing/internal/application/booking/reserve_service.go:21-101 | there always is one: it is computed from the tables, the items and the failures |
| `BookingService.PassExactlyWhenTotalsFit` | service/ticketing/internal/postgres/seat_counter.go:33-46 | all items go through if and only if nothing fails outside, all prices match and for every type the seats of all items together are available |
| `BookingService.FailureRestoresExactly` | service/ticketing/internal/application/booking/reserve_service.go:25-114 | a failing Reserve leaves counters and bookings as they were if and only if a condition on tables, items and failures holds: the first item that does not go through is the very first one with a refused price, or is sold out with no earlier item of its type and no failing release before it, or all go through, no release fails, and the row was not written or can be deleted |
| `BookingService.AllOrNothing` | service/ticketing/internal/application/booking/reserve_service.go:25-114 | for distinct ticket types and matching prices, with a rollback whose statements work and a schema that cascades, every failing path leaves counters and bookings as they were |
| `BookingService.RepeatedTypeLeaks` | service/ticketing/internal/application/booking/reserve_service.go:47-52 | a two-item order of one type whose failure leaves two seats missing |
| `BookingService.LatePriceErrorLeaks` | service/ticketing/internal/application/booking/reserve_service.go:27-38 | an order whose second price is refused and whose first item's seats stay missing |
| `BookingService.FailedReleaseLeaks` | service/ticketing/internal/application/booking/reserve_service.go:51-51 | an order of two distinct types whose second item is sold out and whose first item's release fails, so that its seats stay missing |
| `BookingService.Service.TakeItems` | service/ticketing/internal/application/booking/reserve_service.go:25-45 | the loop stops at the first item that fails, with exactly the seats of the items before it taken |
| `BookingService.Service.UndoBefore` | service/ticketing/internal/application/booking/reserve_service.go:46-53 | the inner loop gives back exactly those items before the first one of the failing type whose release works |
| `BookingService.Service.RollbackSeats` | service/ticketing/internal/application/booking/reserve_service.go:106-114 | the rollback loop gives back exactly the items whose release works |
| `BookingService.FirstOfType` | service/ticketing/internal/application/booking/reserve_service.go:47-50 | where that loop stops: the first item with the failing item's type |
| `BookingService.Service.CalculateTotal` | service/ticketing/internal/application/booking/reserve_service.go:117-123 | the total is the price of all items |
| `BookingService.Service.PriceItems` | service/ticketing/internal/application/booking/reserve_service.go:68-72 | every item keeps its fields and gets its exact line total |
| `BookingService.Service.Book` | service/ticketing/internal/application/booking/reserve_service.go:57-101 | with all seats taken: stored and paid, or all seats given back whose release works |
| `BookingService.Service.WithdrawBooking` | service/ticketing/internal/application/booking/reserve_service.go:95-99 | after a failed payment call all seats are given back whose release works, and the booking is gone if and only if the delete works and the schema cascades |
| `BookingService.Service.Confirm` | service/ticketing/internal/application/booking/transitions_service.go:11-59 | the tables change by the confirm function; if a live pending booking was confirmed, the outbox gains, in item order, exactly one row per item whose insert was not lost, with the ticket of that item, the booking's id, user and event and the item's type; otherwise nothing |
| `BookingService.TicketsExactly` | service/ticketing/internal/application/booking/transitions_service.go:49-57 | the rows the loop writes are those, field by field |
| `BookingService.Service.ExpireOnPaymentExpired` | service/ticketing/internal/application/booking/transitions_service.go:63-86 | the tables change by the expire function |
| `BookingService.Service.CancelBookings` | service/ticketing/internal/application/booking/transitions_service.go:91-114 | the loop over the event's bookings has the closed-form effect of the whole pass |
| `BookingService.Service.LoadPendingBooking` | service/ticketing/internal/application/booking/transitions_service.go:118-138 | a booking is returned if and only if it exists and is pending |
| `BookingService.Service.IsPublished` | service/ticketing/internal/postgres/event_status_repo.go:19-29 | true if and only if the event exists and is published |
| `TicketingStore.StoreLoadRoundTrip` | service/ticketing/internal/postgres/booking_repo.go:36-79 | storing then loading a booking gives back every item, unit price included by exact division, and the loaded total is the price of the items |
| `TicketingStore.TicketingDb.Create` | service/ticketing/internal/postgres/booking_repo.go:21-51 | the booking and all its lines are inserted, or nothing is; success if and only if no constraint fails |
| `TicketingStore.TicketingDb.FindByID` | service/ticketing/internal/postgres/booking_repo.go:54-80 | found if and only if the row exists, with the items and total its lines stand for |
| `TicketingStore.TicketingDb.LoadLines` | service/ticketing/internal/postgres/booking_repo.go:177-196 | the loop over the lines collects exactly the booking's items and total |
| `TicketingStore.TicketingDb.UpdateStatusIfPending` | service/ticketing/internal/postgres/booking_repo.go:127-133 | applied if and only if the booking is pending; nothing else changes |
| `TicketingStore.TicketingDb.TransitionAndReleaseSeats` | service/ticketing/internal/postgres/booking_repo.go:139-167 | status and counters change together, if and only if the status is still the one seen |
| `TicketingStore.TicketingDb.Delete` | service/ticketing/internal/postgres/booking_repo.go:171-174 | the booking disappears if and only if the statement works, the row is pending and its lines may go with it; all other bookings load as before |
| `TicketingStore.TicketingDb.ListByEventID` | service/ticketing/internal/postgres/booking_repo.go:199-238 | every booking of the event exactly once, with its items |
| `TicketingStore.TicketingDb.ReserveSeats` | service/ticketing/internal/postgres/seat_counter.go:33-46 | the guarded decrement succeeds if and only if enough seats are available, and keeps the CHECK constraint |
| `TicketingStore.TicketingDb.ReleaseSeats` | service/ticketing/internal/postgres/seat_counter.go:49-56 | the capped increment keeps the CHECK constraint |
| `TicketingStore.TicketingDb.ReleaseItems` | service/ticketing/internal/postgres/booking_repo.go:154-161 | inside the transition's transaction: one capped release per item, in order |
| `TicketingTables.ReleaseAllAdds` | service/ticketing/internal/postgres/booking_repo.go:154-161 | a list of capped releases adds the seats of the list to every counter, up to its quantity |
| `TicketingStore.TicketingDb.GetPrice` | service/ticketing/internal/postgres/seat_counter.go:84-95 | the stored price, if the type exists |
| `EventService.Service.CreateEvent` | service/ticketing/internal/application/event/event_service.go:37-82 | refused if and only if there are no types or they exceed the capacity; whatever is stored, also after a refused row, fits the venue and has the submitted price and quantity, with no seat available |
| `EventService.NewRowsHoldTotal` | service/ticketing/internal/application/event/event_service.go:47-53 | the stored rows hold exactly the quantity that was added up and compared |
| `EventService.Service.CreateTicketTypes` | service/ticketing/internal/postgres/event_repo.go:243-260 | inserts row by row up to the first refused one and leaves those before it |
| `EventService.Service.ApproveEvent` | service/ticketing/internal/application/event/lifecycle.go:12-46 | only an event in review; opens the counters of exactly its own types to their quantity |
| `EventService.Service.RejectEvent` | service/ticketing/internal/application/event/lifecycle.go:49-69 | only an event in review is rejected |
| `EventService.Service.CancelEvent` | service/ticketing/internal/application/event/lifecycle.go:72-96 | only the owner of a published event; afterwards it is not live, and one message is posted unless the insert is lost |
| `EventService.Service.ReprocessCancellation` | service/ticketing/internal/application/event/lifecycle.go:98-137 | only for a cancelled event, by its owner or an admin; posts the message again and changes no event |
| `UndisturbedEvents.CreateAlone` | service/ticketing/internal/application/event/event_service.go:44-79 | the creation step is enabled if and only if the submitted types fit the capacity, and stores what the code stores |
| `UndisturbedEvents.ApproveAlone` | service/ticketing/internal/application/event/lifecycle.go:12-46 | the approval step is enabled and changes the tables as the code does |
| `UndisturbedEvents.RejectAlone` | service/ticketing/internal/application/event/lifecycle.go:49-69 | the same for a rejection |
| `UndisturbedEvents.CancelAlone` | service/ticketing/internal/application/event/lifecycle.go:72-96 | the same for a cancellation: owner of a published event only, the status first, then the message |
| `UndisturbedEvents.ReprocessAlone` | service/ticketing/internal/application/event/lifecycle.go:117-137 | posting again is enabled if and only if the event is cancelled |
| `PaymentService.Service.HandleSessionWebhook` | service/payment/internal/application/webhook.go:42-126 | an error if and only if no transaction matches; unknown events change nothing, nor does a payment_session_id that is not the stored reference or, when it is empty, an id that is set and not the stored reference; otherwise the webhook function, with the statements whose errors are dropped |
| `PaymentService.FirstDeliveryDecides` | service/payment/internal/application/webhook.go:37-41 | of any deliveries for an active transaction, whatever statements fail in them, the first decides; the others add nothing but one late-payment refund and its mark, if the money came after the expiry and the statements for them worked once |
| `PaymentService.DuplicateChangesNothing` | service/payment/internal/application/webhook.go:94-98 | a duplicate webhook changes nothing, in any state |
| `PaymentService.Service.Complete` | service/payment/internal/application/webhook.go:73-98 | completes and announces an active transaction, refunds an expired one, as far as the statements work |
| `PaymentService.Service.RequestLatePaymentRefund` | service/payment/internal/application/webhook.go:130-150 | a new refund has the booking, event, amount and gateway session of the transaction; no mark without a refund: a failed insert changes nothing, a failed mark leaves the refund |
| `PaymentService.Service.ExpireByGateway` | service/payment/internal/application/webhook.go:100-120 | expires and announces an active transaction, nothing else |
| `PaymentService.Service.ProcessExpired` | service/payment/internal/application/expiry.go:14-50 | exactly the overdue transactions with the earliest deadlines, at most limit of them and none that fails, expire; one message each in order; nothing else is touched |
| `PaymentService.Service.Drain` | service/payment/internal/application/expiry.go:53-69 | after k error-free passes max(0, n - k * limit) of n overdue rows are left; from k * limit >= n on, no initiated or pending transaction has a deadline that has passed |
| `Batches.LeftExactly` | service/payment/internal/application/expiry.go:63-63 | none is left if and only if k is at least ceil(n / limit) |
| `PaymentStore.PaymentDb.ListActiveExpired` | service/payment/internal/postgres/transaction_repo.go:135-144 | a listing of the earliest overdue rows (see ListingMeans) |
| `PaymentStore.ListingMeans` | service/payment/internal/postgres/transaction_repo.go:135-144 | listed rows are initiated or pending with a deadline that has passed, each once, sorted by deadline, at most limit; every such row that is not listed was cut off by the limit and is due no earlier than a listed one |
| `PaymentStore.ListingSize` | service/payment/internal/postgres/transaction_repo.go:135-144 | such a listing has exactly min(n, limit) rows |
| `PaymentService.Service.HandleEventCancelled` | service/payment/internal/application/event_handlers.go:15-70 | the loop has the closed-form effect of the whole pass: a refund and a pending mark for exactly the completed transactions of the event |
| `PaymentService.PassConverges` | service/payment/internal/application/event_handlers.go:11-70 | every completed transaction of the event ends marked and with a refund, a new one having its booking, event, amount and gateway session; no other transaction, no earlier refund and no refund of another transaction changes; and a second pass changes nothing |
| `PaymentService.Service.InitiateTxnForBooking` | service/payment/internal/application/transactions.go:18-49 | one transaction per booking: a new one if there was none, otherwise the one that is there, unchanged |
| `PaymentService.Service.CheckPayment` | service/payment/internal/application/transactions.go:89-109 | each refusal if and only if its check is the first that fails: not initiated; no deadline or less than 60 seconds to it; another user |
| `PaymentService.GatewayExpiry` | service/payment/internal/application/transactions.go:104-109 | the later of the deadline less the buffer and ten minutes from now; so beyond the deadline of the hold if and only if less than ten minutes of it remain |
| `PaymentService.Service.ClaimSession` | service/payment/internal/application/transactions.go:127-148 | wins if and only if the transaction is still initiated, whatever happened since the checks; a loser changes nothing |
| `PaymentStore.PaymentDb.TransitionIfActive` | service/payment/internal/postgres/transaction_repo.go:69-77 | applied if and only if the row is active; no other row changes |
| `PaymentStore.PaymentDb.TransitionIfInitiated` | service/payment/internal/postgres/transaction_repo.go:82-90 | applied if and only if the row is initiated; no other row changes |
| `PaymentStore.PaymentDb.UpdateSession` | service/payment/internal/postgres/transaction_repo.go:101-106 | writes the reference of one row |
| `PaymentStore.PaymentDb.MarkRefundPending` | service/payment/internal/postgres/transaction_repo.go:109-112 | marks one row |
| `PaymentStore.PaymentDb.CreateRefund` | service/payment/internal/postgres/refund_repo.go:22-30 | insert or nothing on the idempotency key |
| `PaymentStore.PaymentDb.Create` | migrations/payment/001_create_transactions.up.sql:4-4 | refused if and only if the booking has a transaction already |
| `OutboxWorker.Worker.ProcessBatch` | pkg/outbox/worker.go:79-127 | selects the first undelivered rows, at most 100; publishes each of them that the broker accepts exactly once with its own message, in any order; marks exactly those whose update works; keeps "delivered implies published" |
| `OutboxWorker.Worker.SelectBatch` | pkg/outbox/worker.go:80-96 | the first undelivered rows (see BatchMeans) |
| `OutboxWorker.BatchMeans` | pkg/outbox/worker.go:80-81 | a batch has at most 100 rows, undelivered, in the order of their ids; an undelivered row outside it was cut off by the limit and comes after all of them |
| `OutboxWorker.Worker.Drain` | pkg/outbox/worker.go:65-77 | after k error-free polls max(0, n - 100 k) of n undelivered rows are left; from 100 k >= n on, every row is delivered |
| `OutboxWorker.PollClears` | pkg/outbox/worker.go:80-81 | an error-free poll takes exactly min(n, 100) rows off the list |
| `OutboxWorker.Worker.Insert` | pkg/outbox/outbox.go:33-51 | appends one undelivered row and keeps "delivered implies published" |

## Left out

- Auth service, HTTP handlers, request parsing, callback tokens: plumbing and opaque cryptography; quantities of at least one and positive amounts, which the handlers check, are premises.
- The gateway client, the payment client and the broker: modelled as outcomes chosen by the environment; cancelling a session at the gateway has no effect in the model.
- Tracing, metrics, logging, the trace_context and payment_link_url columns, event titles, descriptions and dates: no effect on the protocol (UpdateEvent changes nothing else).
- List and pagination queries, the unguarded UpdateStatus of the transaction repository (never called), the string built by statusInClause.
- Liveness through the broker: handler errors are only printed there, so the code does not guarantee that a message is ever handled.
- Event lifecycle calls are one atomic step each in the step system, although the code reads the event and writes it back without a guard; two lifecycle calls on the same event at the same time are not modelled.
- The expires_at column of bookings and the reservation's time to live: no handler of the ticketing service reads it; the transaction's deadline is arbitrary.
- Integer widths: prices, quantities and counters are unbounded.
- Database errors in the middle of a handler are steps of the step systems (the handler stops, or goes on where the code goes on); the code layer has the failures that are parameters of its methods and runs each handler undisturbed.
- The query implementations of the code layer visit rows in an arbitrary order where the SQL orders by creation time.
- The refusals of Reserve, CreateEvent and the payment checks carry no message text.
- A process that stops before its end (a crash, or an error the code returns) is a step of its own; an acknowledged webhook is one that reached its end.
- PaymentProofs.OneTerminalMessage: at most one message; that there is one needs the insert to succeed and the handler not to stop, which the code does not guarantee.
- TicketingProofs.VenueIsNeverExceeded: for runs without an unbacked release on the event's types, because OneSeatIsSoldTwice refutes it otherwise.
- Interleaving.InterleavingsAgree: starts without handlers in flight and lets no handler stop before its last guarded update, because a handler that stops has not handled its message.
- BookingService.AllOrNothing: under the premises that the exact condition FailureRestoresExactly shows to be needed.
- PaymentService.Service.CheckPayment: the two halves of a payment call are two methods, so that anything may happen while the gateway answers.
