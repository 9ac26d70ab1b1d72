# EventPay ticket ledger in Dafny

EventPay sells event tickets paid over the Lightning network, either at once or in up
to three installments. The core of the system is a ticket ledger written inline inside
the Express handlers. A reservation inserts a ticket row. An invoice request inserts a
pending payment row (the LNbits invoice). The LNbits webhook marks that payment paid
and credits the ticket. At the gate, an organizer turns a `paid` ticket into `used`.
Three variants of the same ledger live in other files: a router that prices tickets at
the event's price and recomputes the paid amount from a `SUM` of payments
(`home.route.js`), an older reservation handler (`payments.route.js`), and two small
stand-alone ledgers, on orders (`backend/routes/payments.js`) and on uuid-keyed tickets
found again through the invoice memo (`index.js`). Two input guards complete the core:
the middleware in `middleware/validation.js` and the event-creation checks in
`events.route.js`.

How the model is built:

- **Tables** (`schema.dfy`) holds the shared SQLite tables as sequences; the row id is
  the 1-based position.
- Lookups return the first matching row, as `db.get` does. Nothing assumes that a
  reference or a payment hash is unique, because the code never enforces it.
- Three invariants are stated over the tables:
  - `WellFormed`: every foreign key names an existing row.
  - `Reconciled`: every ticket's `amount_paid_sats` is the sum of its paid payment rows.
  - `WithinQuota`: no plan holds more tickets than its quantity.
- **Store.Database** (`store.dfy`) is the same tables as an object whose fields the
  handlers update in place. Each of its methods is a single INSERT or UPDATE.
- Each handler appears twice. A pure function `...Step` maps the tables to a reply and
  new tables, and its contract carries the properties. A method performs the handler's
  statements on a `Store.Database`, and its `ensures` ties the result to the function.
- `Ledger.Run` feeds any sequence of requests to the shared-database handlers, and
  `Ledger.RunKeepsConsistent` proves the three invariants are kept.
- JavaScript conventions are written out:
  - An absent string is `""`, an absent id is `0`, and an absent or NULL count or
    minimum is `0`, so `x || default` becomes an explicit test.
  - `Math.ceil` is `Sats.CeilDiv`. It is written for Dafny's Euclidean division and
    is correct for negative prices too.
  - `toUpperCase`/`toLowerCase` are the ASCII mappings of `Text`.
- The code does not have the following properties, and the model does not assume them:
  - A full-payment ticket is never clamped, and several pending invoices can be paid,
    so `amount_paid <= total` is not an invariant.
  - The number of installments is `min(3, max_installments || 3)`. The buyer does not
    choose it.
  - Payment hashes are not unique.
  - Statuses are `reserved`, `pending`, `partial`, `paid` and `used`. There is no
    `cancelled`.
  - `used` is reached only from `paid` at the gate, but it is not final. A later
    confirmation in tickets.route.js takes a ticket out of `used` (first finding), and
    so does a payment recorded through home.route.js, which refuses only `paid` tickets
    (fourth finding).
  - What a ticket has paid can decrease. Neither home.route.js nor tickets.route.js
    refuses a negative amount (fifth and sixth findings).

## Model

| member | source | states |
|---|---|---|
| Sats.CeilDiv | backend/src/routes/tickets.route.js:161 | `Math.ceil(n / d)` for d > 0: the least q with n <= d*q, so d*(q-1) < n <= d*q |
| Schema.SoldCount | backend/src/routes/tickets.route.js:137-140 | the `COUNT(*)` of tickets bound to a plan, at most the number of tickets |
| Schema.SoldCountAppend | backend/src/routes/tickets.route.js:137-140 | inserting a ticket raises a plan's count by one exactly when the ticket is bound to it |
| Schema.SoldCountUpdate | backend/src/routes/tickets.route.js:137-140 | rewriting one ticket changes a plan's count only by that row's old and new binding |
| Schema.SumPaidAppend | backend/src/routes/home.route.js:133-139 | the `SUM` over paid payments grows by the new row's amount when it is paid and belongs to the ticket |
| Schema.SumPaidUpdate | backend/src/routes/tickets.route.js:436-439 | rewriting one payment row changes a ticket's sum only by that row's old and new credit |
| Schema.SumPaidUnreferenced | backend/src/routes/home.route.js:133-139 | a ticket no payment row references has a sum of 0 (`SUM(...) \|\| 0`) |
| Schema.TicketWithReference | backend/src/routes/tickets.route.js:511-518 | the first ticket with the reference, and None exactly when no ticket has it |
| Schema.PaymentWithHash | backend/src/routes/tickets.route.js:413-416 | the first payment with the hash, and None exactly when no payment has it |
| Schema.TicketWithReferenceUpdate | backend/src/routes/tickets.route.js:546-549 | rewriting a ticket while keeping its reference does not change which ticket a reference finds |
| Schema.PaymentWithHashUpdate | backend/src/routes/tickets.route.js:436-439 | marking a payment paid does not change which payment a hash finds |
| Schema.AppendTicketKeepsLedger | backend/src/routes/tickets.route.js:176-190 | inserting a ticket with valid links and nothing paid keeps the tables well formed and reconciled |
| Store.Database.constructor | backend/src/routes/tickets.route.js:6 | a new database has empty tables |
| Store.Database.InsertEvent | backend/src/routes/events.route.js:103-110 | appends the event row and returns its `lastID` |
| Store.Database.InsertPlan | backend/src/routes/events.route.js:113-119 | appends a plan of an existing event and returns its id |
| Store.Database.InsertTicket | backend/src/routes/tickets.route.js:176-190 | appends a ticket whose event and plan exist and returns its `lastID` |
| Store.Database.UpdateTicket | backend/src/routes/tickets.route.js:468-473 | replaces one ticket row, keeping its links valid, and nothing else |
| Store.Database.InsertPayment | backend/src/routes/tickets.route.js:361-372 | appends a payment row of an existing ticket |
| Store.Database.UpdatePayment | backend/src/routes/tickets.route.js:436-439 | replaces one payment row and nothing else |
| Store.Database.InsertInvoice | backend/src/routes/home.route.js:208-218 | appends an invoice row of an existing ticket |
| Tickets.ReferenceShape | backend/src/routes/tickets.route.js:171 | a reference is `TKT-` and then the uuid's first eight hex digits in upper case, 12 characters in all |
| Tickets.InstallmentCount | backend/src/routes/tickets.route.js:160 | `min(3, max_installments \|\| 3)` lies in 1..3, never exceeds a non-zero maximum, and is 3 or that maximum |
| Tickets.PlanInstallments | backend/src/routes/tickets.route.js:160-169 | 1..3 installments whose sum covers the price, one sat less each would not, none made yet, the next due a week from now |
| Tickets.ReserveStep | backend/src/routes/tickets.route.js:103-217 | succeeds exactly when the ids are given, the event is upcoming, the plan belongs to it, seats remain and an installment request is allowed. MISSING_FIELDS, EVENT_NOT_FOUND, INVALID_PLAN, SOLD_OUT and INSTALLMENT_NOT_ALLOWED are each answered exactly when the checks before it pass and it fails. On success it appends one `reserved` ticket priced at the plan with nothing paid, its reference, and an installment plan exactly when one was asked for. Any error leaves the tables unchanged |
| Tickets.ReserveKeepsLedger | backend/src/routes/tickets.route.js:137-190 | after a reservation no plan holds more tickets than its quantity, and every ticket's paid amount still equals its paid payments |
| Tickets.Reserve | backend/src/routes/tickets.route.js:103-217 | the handler's statements on the database produce exactly the reply and tables of `ReserveStep` |
| Tickets.PlanFeatures | backend/src/routes/tickets.route.js:278-285 | the feature list of standard, vip and premium plans; any other type gets only event access |
| Tickets.OffersAmong | backend/src/routes/tickets.route.js:249-275 | among the first n plans: every offer is a plan of the event with seats left, each such plan is offered, and none twice |
| Tickets.AvailablePlans | backend/src/routes/tickets.route.js:249-275 | exactly the event's plans with seats left, each once, with `remaining = quantity - sold` (positive) and its features |
| Tickets.InvoiceAmount | backend/src/routes/tickets.route.js:317-341 | ALREADY_PAID exactly when nothing remains. Without an installment plan the requested amount is kept. With one, the amount is the least of request, installment and remaining, and it is refused exactly when any of the three is below the minimum (default 1000) |
| Tickets.InvoiceStep | backend/src/routes/tickets.route.js:288-396 | INVALID_AMOUNT exactly for a missing or zero amount, TICKET_NOT_FOUND exactly for a ticket not the user's or without a plan. Past those checks, ALREADY_PAID or MIN_INSTALLMENT is answered exactly when the sizing of `InvoiceAmount` refuses. The request succeeds exactly when the sizing accepts and LNbits mints a hash. On success the sized amount and the gateway's hash are stored as one pending payment, and nothing else changes |
| Tickets.InvoiceKeepsReconciled | backend/src/routes/tickets.route.js:361-372 | a pending invoice pays nothing, so the ledger stays reconciled |
| Tickets.NegativeInvoiceLowersPaid | backend/src/routes/tickets.route.js:293-326 | from a consistent database: an invoice of -5 sats on a ticket without installments is stored, and confirming it lowers the ticket's paid amount to -5 |
| Tickets.NegativeInvoiceStored | backend/src/routes/tickets.route.js:293-372 | from a consistent database, an invoice of -5 sats on a ticket without installments, given a hash, is stored as a pending -5 payment row |
| Tickets.NegativeInvoiceCredited | backend/src/routes/tickets.route.js:436-473 | confirming that -5 row sets the ticket's paid amount to -5 and changes nothing else in it |
| Tickets.CheckedInvoiceStep | backend/src/routes/tickets.route.js:288-396 | the intended handler: INVALID_AMOUNT exactly when the amount is missing or not positive, and the handler as written otherwise. An accepted invoice is positive, so no negative payment row is ever inserted |
| Tickets.CreateInvoice | backend/src/routes/tickets.route.js:288-396 | the handler's statements produce exactly the reply and tables of `InvoiceStep` |
| Tickets.ConfirmedTicket | backend/src/routes/tickets.route.js:447-473 | paid grows by exactly the payment. The status becomes `paid` when paid >= total, `partial` when 0 < paid < total, and is unchanged otherwise. The installment counter moves exactly on a partial payment that leaves it below the total count, and nothing else changes |
| Tickets.WebhookStep | backend/src/routes/tickets.route.js:399-496 | MISSING_HASH, PAYMENT_NOT_FOUND and already_processed exactly in their cases, with no change. Otherwise the first payment with the hash is marked paid and its ticket confirmed, and the reply carries the new paid amount, status and remainder |
| Tickets.WebhookIdempotent | backend/src/routes/tickets.route.js:427-434 | delivering the same confirmation twice changes nothing the second time: each payment is credited once |
| Tickets.WebhookKeepsReconciled | backend/src/routes/tickets.route.js:436-473 | crediting the ticket and marking its payment paid keep every paid amount equal to its paid payments |
| Tickets.WebhookNeverLowersPaid | backend/src/routes/tickets.route.js:447 | with no negative payment rows, no ticket's paid amount decreases |
| Tickets.WebhookKeepsQuotaAndUse | backend/src/routes/tickets.route.js:447-473 | a confirmation keeps every plan within quota and never makes a ticket `used` |
| Tickets.NineThousandInThreeInstallments | backend/src/routes/tickets.route.js:447-464 | 9000 sats in three payments of 3000 go partial, partial, paid, and the stored counter stops at 2 |
| Tickets.WebhookReopensUsedTicket | backend/src/routes/tickets.route.js:448-453 | from a consistent database: a used ticket whose second invoice is confirmed becomes `paid` and is admitted again |
| Tickets.GuardedConfirmedTicket | backend/src/routes/tickets.route.js:447-453 | the intended confirmation: a used ticket is credited and stays used, any other is confirmed as written |
| Tickets.GuardedWebhookStep | backend/src/routes/tickets.route.js:399-496 | the intended webhook: the same replies, payment rows and paid amounts as written, and a ticket is `used` after it exactly when it was before |
| Tickets.GuardedWebhookKeepsLedger | backend/src/routes/tickets.route.js:436-473 | the intended webhook keeps the ledger reconciled and within quota |
| Tickets.GuardedWebhookKeepsGateView | backend/src/routes/tickets.route.js:511-518 | the intended webhook changes neither which ticket a reference finds nor the events |
| Tickets.UsedTicketRefused | backend/src/routes/tickets.route.js:537-544 | an organizer presenting their own used ticket gets `valid: false` with 'Ticket annulé' |
| Tickets.GuardedValidateOnce | backend/src/routes/tickets.route.js:537-549 | with the intended webhook, a ticket admitted once is refused later even if a payment is confirmed in between |
| Tickets.OnWebhook | backend/src/routes/tickets.route.js:399-496 | the handler's two UPDATEs of the ticket and one of the payment produce exactly the tables and reply of `WebhookStep` |
| Tickets.ValidateStep | backend/src/routes/tickets.route.js:499-573 | ACCESS_DENIED exactly for non-organizers and TICKET_NOT_FOUND exactly for unknown references. NOT_AUTHORIZED is answered exactly when the ticket's event belongs to another organizer. A ticket is admitted exactly when the user organizes its event and it is `paid`. It is refused, with the reason its status gives and no change, exactly when the user organizes its event and it is not `paid`. The only row that changes goes from `paid` to `used` with `used_at` |
| Tickets.ValidateOnce | backend/src/routes/tickets.route.js:537-549 | presenting an admitted reference again is refused with 'Ticket annulé' and changes nothing |
| Tickets.ValidateKeepsLedger | backend/src/routes/tickets.route.js:546-549 | consuming a ticket keeps the ledger reconciled and within quota |
| Tickets.ValidateTicket | backend/src/routes/tickets.route.js:499-573 | the handler's statements produce exactly the reply and tables of `ValidateStep` |
| Home.ReserveStep | backend/src/routes/home.route.js:59-103 | succeeds exactly for an upcoming event. It then appends one `pending` ticket at the event's price with no plan, the requested or 'standard' type and nothing paid, and offers installments of ceil(price/3) |
| Home.ReserveKeepsLedger | backend/src/routes/home.route.js:75-80 | a reservation keeps the ledger reconciled and within quota |
| Home.Reserve | backend/src/routes/home.route.js:59-103 | the handler's statements produce exactly the reply and tables of `ReserveStep` |
| Home.DerivedStatus | backend/src/routes/home.route.js:139-145 | `paid` exactly when the total reaches the price, `partial` exactly when it is positive and short, `pending` otherwise |
| Home.RecordPaymentStep | backend/src/routes/home.route.js:106-173 | refuses a ticket not the user's, and a `paid` ticket, with no change. It succeeds exactly for the user's own ticket that is not `paid`, and then it adds a paid payment row, and the ticket's paid amount becomes the SUM of its paid payments, with the status derived from it against the event's price. Every other row is unchanged |
| Home.RecordPaymentKeepsLedger | backend/src/routes/home.route.js:126-154 | the ledger stays reconciled and within quota, and from a reconciled ledger the new total is the old paid amount plus the payment |
| Home.RecordPaymentReopensUsedTicket | backend/src/routes/home.route.js:120-122 | only `paid` is refused, so a payment on a used ticket succeeds and takes it out of `used` |
| Home.NegativePaymentLowersPaid | backend/src/routes/home.route.js:109-154 | on a reconciled ledger, a payment of -5 sats is recorded as paid and lowers the ticket's paid amount from 500 to 495 |
| Home.GuardedRecordPaymentStep | backend/src/routes/home.route.js:106-173 | the intended handler: refuses an amount that is not positive, and refuses a `used` ticket like a `paid` one. Otherwise it is the handler as written, and a used ticket stays used |
| Home.GuardedRecordPaymentKeepsLedger | backend/src/routes/home.route.js:126-154 | the intended handler keeps the ledger reconciled and within quota, inserts no negative payment, lowers no ticket's paid amount, and a recorded payment raises it |
| Home.RecordPayment | backend/src/routes/home.route.js:106-173 | the INSERT, the SUM and the UPDATE produce exactly the reply and tables of `RecordPaymentStep` |
| Home.InvoiceStep | backend/src/routes/home.route.js:176-237 | refused exactly when the ticket is not the user's, or the amount exceeds what remains (reporting it). Past those checks it fails with GatewayFailed exactly when LNbits mints no invoice, and otherwise succeeds, adding one pending invoice row. It never touches tickets or payments |
| Home.CreateInvoice | backend/src/routes/home.route.js:176-237 | the handler's statements produce exactly the reply and tables of `InvoiceStep` |
| Home.ValidateStep | backend/src/routes/home.route.js:240-293 | the same decisions as tickets.route.js: each refusal, including the non-owner refusal of line 262, exactly in its case, with `paid` becoming `used` and no timestamp |
| Home.FreshReservationRefused | backend/src/routes/home.route.js:266-272 | a ticket just reserved here is `pending`, so its own organizer's gate refuses it with 'Paiement incomplet' |
| Home.ValidateKeepsLedger | backend/src/routes/home.route.js:274-277 | consuming a ticket keeps the ledger reconciled and within quota |
| Home.ValidateTicket | backend/src/routes/home.route.js:240-293 | the handler's statements produce exactly the reply and tables of `ValidateStep` |
| PlanReservation.ReserveStep | backend/src/routes/payments.route.js:12-82 | succeeds exactly when the plan belongs to the event and an installment request is allowed, appending one `reserved` ticket at the plan's price with the same installment plan as tickets.route.js. Seats and date are not checked |
| PlanReservation.ReserveKeepsReconciled | backend/src/routes/payments.route.js:46-60 | the inserted ticket has nothing paid, so the ledger stays reconciled |
| PlanReservation.ReservationOversells | backend/src/routes/payments.route.js:17-60 | a one-seat plan already taken is sold again, leaving the plan over quota |
| PlanReservation.CheckedReserveStep | backend/src/routes/payments.route.js:12-82 | the handler with the sold-out check: it succeeds only while seats remain, then as written, and it keeps every plan within quota |
| PlanReservation.Reserve | backend/src/routes/payments.route.js:12-82 | the handler's statements produce exactly the reply and tables of `ReserveStep` |
| Orders.CreditedOrder | backend/routes/payments.js:16-29 | paid grows by exactly the reported amount. The order is paid exactly when it is now covered or already was, and nothing else changes |
| Orders.PartialPaymentStep | backend/routes/payments.js:7-34 | an unpaid invoice changes nothing. A paid one credits the existing order and reports `total - paid` after the increment, and an unknown order changes nothing |
| Orders.ReplayCreditsTwice | backend/routes/payments.js:16-18 | the same paid report sent twice credits the order twice |
| Orders.PaidOrderStaysPaid | backend/routes/payments.js:27-29 | a paid order is never marked otherwise |
| Orders.OrderBook.constructor | backend/routes/payments.js:3 | an empty order table |
| Orders.OrderBook.RecordPartialPayment | backend/routes/payments.js:7-34 | the in-place increment and the conditional status write produce exactly the orders and reply of `PartialPaymentStep` |
| MemoLedger.FirstMatch | index.js:63 | the leftmost position from i where `Ticket #` is followed by a non-line-terminator, and None exactly when there is none |
| MemoLedger.LineEnd | index.js:63 | where the greedy `.+` stops: the first line terminator from i, or the end |
| MemoLedger.ParseTicketId | index.js:63-67 | the capture `match[1]`: non-empty, free of line terminators, and None exactly when the pattern matches nowhere |
| MemoLedger.DepositMemoRoundTrip | index.js:30 | the id read back from the deposit memo `Acompte Ticket #<id>` is that id |
| MemoLedger.Settled | index.js:76-83 | as written: paid grows by the amount, and `statut` is 'validé' exactly when covered, otherwise written as undefined |
| MemoLedger.IntendedSettled | index.js:76-83 | as intended: paid grows by the amount, and the status becomes 'validé' when covered and stays as it was otherwise |
| MemoLedger.DepositErasesStatut | index.js:70-81 | a 1000-sat deposit on a 3000-sat 'réservé' ticket erases its status as written, and keeps it as intended |
| MemoLedger.IntendedSettledOnlyValidates | index.js:76-81 | under the intended update the status moves only to 'validé' and is never erased |
| MemoLedger.CreateStep | index.js:15-51 | the row is stored with nothing paid and 'réservé' whether or not the deposit invoice is issued, and no other row changes |
| MemoLedger.WebhookStep | index.js:54-100 | no memo, no id in the memo and an unknown id each leave the table unchanged. Otherwise that one row is settled with the amount |
| MemoLedger.CreateThenDeposit | index.js:15-100 | the deposit notification for a new ticket credits exactly that ticket, validating it exactly when the amount covers it |
| MemoLedger.TicketTable.constructor | index.js:12 | an empty ticket table |
| MemoLedger.TicketTable.CreateTicket | index.js:15-51 | the INSERT produces exactly the table and reply of `CreateStep` |
| MemoLedger.TicketTable.OnWebhook | index.js:54-100 | the read-modify-write produces exactly the table and reply of `WebhookStep` |
| Validation.CheckInvoiceCreation | middleware/validation.js:1-26 | passes the request on unchanged exactly when 0 < amount <= 1,000,000 and the expiry is absent or in 60..86400, and names the first failing check otherwise |
| Validation.CheckPayment | middleware/validation.js:28-46 | rejects a missing bolt11, and passes a present one on unchanged when it is accepted |
| Validation.StartsWithIgnoringCaseSpelled | middleware/validation.js:38 | lowering then comparing with a lower-case prefix is accepting either case of each of its letters |
| Validation.CheckPaymentAcceptsLightningPrefixes | middleware/validation.js:38-44 | a bolt11 is accepted exactly when present and opening with `lnbc` or `lntb` in any case, the BOLT #11 mainnet and testnet prefixes |
| Events.PlansValid | backend/src/routes/events.route.js:72-78 | true exactly when every plan has a type, a numeric price and a numeric quantity |
| Events.ValidateEventInput | backend/src/routes/events.route.js:56-81 | the body passes unchanged exactly when name, date and location are present, there is at least one plan, and every plan is valid. The first failing check is named |
| Events.EventStatus | backend/src/routes/events.route.js:179 | 'À venir' exactly when the date is after now, 'Terminé' otherwise |
| Events.CreateEventStep | backend/src/routes/events.route.js:84-156 | validation first, then the organizer check. On success one event owned by the user and one plan per requested plan are appended, plans bound to the new event and allowing no installments, and tickets and payments are unchanged |
| Events.SoldCountUnreferenced | backend/src/routes/events.route.js:113-119 | a plan no ticket is bound to has sold 0 |
| Events.CreateEventKeepsLedger | backend/src/routes/events.route.js:103-119 | new plans hold no tickets, so the ledger stays reconciled and within quota |
| Events.CreateEvent | backend/src/routes/events.route.js:84-156 | the event INSERT and the loop of plan INSERTs produce exactly the reply and tables of `CreateEventStep` |
| Ledger.Apply | backend/src/routes/tickets.route.js:103-573 | every request to a shared-database handler keeps the foreign keys valid and never removes a ticket |
| Ledger.ApplyKeepsConsistent | backend/src/routes/tickets.route.js:103-573 | every such request keeps the tables well formed, reconciled and within quota |
| Ledger.RunKeepsConsistent | backend/src/routes/tickets.route.js:103-573 | any sequence of requests from a consistent database keeps it consistent |
| Ledger.EmptyIsConsistent | backend/src/routes/tickets.route.js:6 | the empty database is consistent |
| Ledger.ApplyKeepsUsed | backend/src/routes/tickets.route.js:546-549 | with the corrected handlers, no request takes a ticket out of `used` |
| Ledger.RunKeepsUsed | backend/src/routes/tickets.route.js:546-549 | in any sequence of requests a used ticket stays used |
| Ledger.ApplyNeverLowersPaid | backend/src/routes/tickets.route.js:447 | on a consistent ledger with no negative payment, no request lowers a ticket's paid amount or inserts a negative payment |
| Ledger.RunNeverLowersPaid | backend/src/routes/tickets.route.js:447 | over any sequence of requests from such a ledger, no ticket's paid amount ever decreases |

## Left out

- HTTP and authentication: routing, the token lookup, response shaping and status codes. Each reply is a datatype, and the authenticated user is a parameter.
- LNbits: creating an invoice is a parameter `minted: Option<string>` (the new payment hash, or None when the call fails). Checking an invoice is a parameter `invoicePaid`. The QR-code URLs, the returned `payment_request` and the `expires_at` timestamps are not modelled.
- Clocks: `now` is a parameter. Dates are integers, so `date > datetime('now')` and `new Date(event.date) > now` are comparisons of integers.
- Transactions: `BEGIN`/`COMMIT`/`ROLLBACK` are not modelled, and every handler is one atomic step. Concurrency and lost updates are out of scope.
- Tickets.WebhookStep: models the webhook with `FOR UPDATE` accepted. SQLite rejects `FOR UPDATE` (tickets.route.js:414 and :443), so as written every request with a non-empty hash fails with WEBHOOK_PROCESSING_ERROR before line 448. Its `transaction` variable (:400) is never assigned, so the `catch` at :488 never rolls back. The BEGIN of :411 is left open, and later BEGINs on that connection (:174, :411) fail. The first finding below can occur only once :414 and :443 are fixed.
- home.route.js rollbacks: `dbHelper.rollback` rejects when no transaction is open (home.route.js:29-31). The `catch` blocks at :100 and :170 call it for refusals raised before any BEGIN, so those refusals get no response. The model gives them their reply. In tickets.route.js the rollback always resolves (:57-61), and the catch blocks call it only when `transaction` is set, which it never is.
- Type coercion: an amount is an integer. Fractional amounts (`parseInt`), numeric strings and amounts that JavaScript would concatenate instead of add are not modelled. A missing string is `""`, and a missing number or id is `0`.
- Joins with `users`: the gate and home handlers join the ticket's user, and the model assumes that user exists. Attendee names and emails are not output.
- `updated_at`, `created_at`, `paid_at` and `used_at` are opaque values at most (`Some(now)`), and the `next_payment_due` timestamp is `now + Week`.
- Tickets.PlanFeatures: plan types that are names of `Object.prototype` properties (`constructor`, `toString`) look up a function, not a list. Only ordinary strings are modelled.
- Validation.CheckPayment: a `bolt11` that is not a string (`toLowerCase` throws) is not modelled. The case mapping is ASCII, which is exact for the letters of `lnbc` and `lntb`.
- Events.CreateEventStep: the description, category, time, image, `multi_plans` and partners columns are not modelled, and neither are partner inserts (they touch only the `partners` table). The event's `price_sats` is not set by this handler, and the model stores 0, which is what JavaScript compares a NULL as.
- PlanReservation.ReserveStep: payments.route.js:5 reaches its database through `../dbHelper`, which is not part of this model. Putting its reservations into the same ledger as tickets.route.js, home.route.js and events.route.js (which all open eventpay.db) is an assumption.
- Orders.CreditedOrder: a missing `amount_sats` binds NULL at backend/routes/payments.js:16-18, and `paid_amount_sats + NULL` sets the paid amount to NULL. The model takes the amount as an integer and does not capture this.
- Orders.OrderBook.RecordPartialPayment: when the order does not exist, the source reads a field of `undefined` inside the callback, so the process fails. The model answers `OrderMissing` and changes nothing.
- MemoLedger.TicketTable.CreateTicket: requires that the uuid is not already a key, because uuidv4 is taken to be fresh. The INSERT is not awaited, and its failure is not modelled.
- MemoLedger.WebhookStep: a `memo` that is absent makes `memo.match` throw (reply `MemoUnreadable`). An `amount` that is not a number is not modelled.
- The user's ticket list (`GET /my`) and the signed-ticket service are not part of this model. There is no code that verifies a signed ticket.
- The Ledger theorems use `PlanReservation.CheckedReserveStep`, `Tickets.CheckedInvoiceStep`, `Tickets.GuardedWebhookStep` and `Home.GuardedRecordPaymentStep`, the corrected forms of the findings below. The methods perform the handlers as written.

## Findings

| source | as written | input that shows it | evidently intended | confidence | as-written member | corrected member |
|---|---|---|---|---|---|---|
| backend/src/routes/tickets.route.js:448-453 | the status after a confirmation depends only on the amount, so a `used` ticket becomes `paid` again | a paid ticket with a second pending invoice is used at the gate, then that invoice is paid: the gate admits it again | `used` is final: the payment is credited and the ticket stays used (reachable only once the `FOR UPDATE` of lines 414 and 443 is removed) | not executed | Tickets.WebhookReopensUsedTicket | Tickets.GuardedWebhookStep |
| backend/src/routes/payments.route.js:17-60 | no count of the tickets already bound to the plan | a plan of quantity 1 with one ticket accepts a second reservation | reservations stop at the plan's quantity, as in tickets.route.js | not executed | PlanReservation.ReservationOversells | PlanReservation.CheckedReserveStep |
| index.js:70-83 | `statut` is not selected, so a payment that does not cover the ticket writes an undefined status | a 1000-sat deposit on a 3000-sat 'réservé' ticket | the status is kept until the ticket is covered | not executed | MemoLedger.DepositErasesStatut | MemoLedger.IntendedSettled |
| backend/src/routes/home.route.js:120-122 | only a `paid` ticket is refused, so a payment recorded on a `used` ticket sets it to pending, partial or paid again | a ticket used at the gate, then any payment recorded on it | a used ticket takes no further payment | not executed | Home.RecordPaymentReopensUsedTicket | Home.GuardedRecordPaymentStep |
| backend/src/routes/home.route.js:109-131 | `amount_sats` is inserted as a paid payment without any check | a payment of -5 sats on a ticket with 500 paid: the paid amount becomes 495 | a payment amount is positive, and what a ticket has paid never decreases | not executed | Home.NegativePaymentLowersPaid | Home.GuardedRecordPaymentStep |
| backend/src/routes/tickets.route.js:293-326 | `!amount \|\| isNaN(amount)` lets a negative amount through, and without an installment plan it is kept | an invoice of -5 sats on a full-payment ticket, then its confirmation: paid becomes -5 (reachable only if LNbits mints an invoice for -5 sats at lines 343-358, and once the `FOR UPDATE` of lines 414 and 443 is removed) | an invoice amount is positive | not executed | Tickets.NegativeInvoiceLowersPaid | Tickets.CheckedInvoiceStep |
