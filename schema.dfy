/** The tables of the ticketing database (eventpay.db) as values, and the queries the
 *  route handlers run over them. A row's id is its position plus one, which is what
 *  SQLite's AUTOINCREMENT assigns when rows are never deleted; no handler deletes. */
module Schema {

  datatype Option<+T> = None | Some(value: T)

  datatype Result<+T, +E> = Ok(value: T) | Err(error: E)

  /** `users.role`: every role other than 'organizer' behaves alike in the ledger. */
  datatype Role = Organizer | Attendee

  /** The authenticated caller, as the `authenticate` middleware leaves it in `req.user`. */
  datatype User = User(id: nat, role: Role)

  /** The values the route handlers write into `tickets.status`. */
  datatype TicketStatus = Reserved | Pending | Partial | Paid | Used

  /** `payments.status`: 'pending' or 'paid'. */
  datatype PaymentStatus = PaymentPending | PaymentPaid

  /** An `events` row. Every instant (`date`, `datetime('now')`, `Date.now()`) is one integer
   *  clock. `priceSats` is the column home.route.js reads; a NULL there reads as 0, which is
   *  how JavaScript's `>=` and `/` treat null. */
  datatype Event = Event(ownerId: nat, name: string, date: int, location: string, priceSats: int)

  /** A `ticket_plans` row. A NULL `max_installments` or `min_installment_amount` is 0: the
   *  handlers read both only through `||`, which treats NULL and 0 alike. */
  datatype TicketPlan = TicketPlan(eventId: nat, planType: string, priceSats: int, quantity: int,
                                   installmentAllowed: bool, maxInstallments: nat,
                                   minInstallmentAmount: nat)

  /** The JSON object stored in `tickets.installment_plan`. */
  datatype InstallmentPlan = InstallmentPlan(totalInstallments: int, installmentAmount: int,
                                             paymentsMade: int, nextPaymentDue: int)

  /** A `tickets` row. A NULL `amount_paid_sats` is read through `|| 0` and is 0 here; a NULL
   *  `plan_id` is None, a NULL `ticket_type` is "". */
  datatype Ticket = Ticket(userId: nat, eventId: nat, planId: Option<nat>, ticketType: string,
                           reference: string, totalAmountSats: int, amountPaidSats: int,
                           status: TicketStatus, installmentPlan: Option<InstallmentPlan>,
                           usedAt: Option<int>)

  /** A `payments` row. */
  datatype Payment = Payment(ticketId: nat, paymentHash: string, amountSats: int,
                             status: PaymentStatus, paidAt: Option<int>)

  /** An `invoices` row (written by home.route.js only; its status is always 'pending'). */
  datatype Invoice = Invoice(ticketId: nat, paymentHash: string, amountSats: int)

  datatype Tables = Tables(events: seq<Event>, plans: seq<TicketPlan>, tickets: seq<Ticket>,
                           payments: seq<Payment>, invoices: seq<Invoice>)

  /** What a handler answers, and the tables it leaves behind. */
  datatype Step<+R> = Step(reply: R, after: Tables)

  /** A ticket's event exists, and so does its plan when it has one. */
  predicate TicketLinks(t: Tables, tk: Ticket) {
    1 <= tk.eventId <= |t.events| && (tk.planId.Some? ==> 1 <= tk.planId.value <= |t.plans|)
  }

  /** Referential integrity: every foreign key names an existing row. */
  predicate WellFormed(t: Tables) {
    && (forall i :: 0 <= i < |t.plans| ==> 1 <= t.plans[i].eventId <= |t.events|)
    && (forall i :: 0 <= i < |t.tickets| ==> TicketLinks(t, t.tickets[i]))
    && (forall i :: 0 <= i < |t.payments| ==> 1 <= t.payments[i].ticketId <= |t.tickets|)
    && (forall i :: 0 <= i < |t.invoices| ==> 1 <= t.invoices[i].ticketId <= |t.tickets|)
  }

  // ---------------------------------------------------------------------------
  // SELECT COUNT(*) FROM tickets WHERE plan_id = ?

  function Sold(tk: Ticket, planId: nat): nat {
    if tk.planId == Some(planId) then 1 else 0
  }

  function SoldCount(ts: seq<Ticket>, planId: nat): (n: nat)
    ensures n <= |ts|
  {
    if ts == [] then 0 else SoldCount(ts[..|ts| - 1], planId) + Sold(ts[|ts| - 1], planId)
  }

  lemma SoldCountAppend(ts: seq<Ticket>, tk: Ticket, planId: nat)
    ensures SoldCount(ts + [tk], planId) == SoldCount(ts, planId) + Sold(tk, planId)
  {
    assert (ts + [tk])[..|ts|] == ts;
  }

  lemma {:induction false} SoldCountUpdate(ts: seq<Ticket>, k: nat, tk: Ticket, planId: nat)
    requires k < |ts|
    ensures SoldCount(ts[k := tk], planId) == SoldCount(ts, planId) - Sold(ts[k], planId) + Sold(tk, planId)
  {
    var n := |ts| - 1;
    if k == n {
      assert ts[k := tk][..n] == ts[..n];
    } else {
      SoldCountUpdate(ts[..n], k, tk, planId);
      assert ts[k := tk][..n] == ts[..n][k := tk];
    }
  }

  /** No plan holds more tickets than its quantity (a plan whose quantity is zero or
   *  negative holds none). */
  predicate WithinQuota(t: Tables) {
    forall p :: 1 <= p <= |t.plans| ==>
      SoldCount(t.tickets, p) == 0 || SoldCount(t.tickets, p) <= t.plans[p - 1].quantity
  }

  // ---------------------------------------------------------------------------
  // SELECT SUM(amount_sats) FROM payments WHERE ticket_id = ? AND status = 'paid'  (|| 0)

  function Credit(p: Payment, ticketId: nat): int {
    if p.ticketId == ticketId && p.status == PaymentPaid then p.amountSats else 0
  }

  function SumPaid(ps: seq<Payment>, ticketId: nat): int {
    if ps == [] then 0 else SumPaid(ps[..|ps| - 1], ticketId) + Credit(ps[|ps| - 1], ticketId)
  }

  lemma SumPaidAppend(ps: seq<Payment>, p: Payment, ticketId: nat)
    ensures SumPaid(ps + [p], ticketId) == SumPaid(ps, ticketId) + Credit(p, ticketId)
  {
    assert (ps + [p])[..|ps|] == ps;
  }

  lemma {:induction false} SumPaidUpdate(ps: seq<Payment>, k: nat, p: Payment, ticketId: nat)
    requires k < |ps|
    ensures SumPaid(ps[k := p], ticketId) == SumPaid(ps, ticketId) - Credit(ps[k], ticketId) + Credit(p, ticketId)
  {
    var n := |ps| - 1;
    if k == n {
      assert ps[k := p][..n] == ps[..n];
    } else {
      SumPaidUpdate(ps[..n], k, p, ticketId);
      assert ps[k := p][..n] == ps[..n][k := p];
    }
  }

  lemma {:induction false} SumPaidUnreferenced(ps: seq<Payment>, ticketId: nat)
    requires forall j :: 0 <= j < |ps| ==> ps[j].ticketId != ticketId
    ensures SumPaid(ps, ticketId) == 0
  {
    if ps != [] {
      SumPaidUnreferenced(ps[..|ps| - 1], ticketId);
    }
  }

  /** Every ticket's `amount_paid_sats` equals the sum of its paid payment rows. */
  predicate Reconciled(t: Tables) {
    forall i :: 0 <= i < |t.tickets| ==> t.tickets[i].amountPaidSats == SumPaid(t.payments, i + 1)
  }

  /** No payment row carries a negative amount. */
  predicate NonNegativePayments(t: Tables) {
    forall j :: 0 <= j < |t.payments| ==> t.payments[j].amountSats >= 0
  }

  /** Every ticket of `t` is still there in `t'`, with at least as much paid. */
  predicate PaidNotLowered(t: Tables, t': Tables) {
    |t.tickets| <= |t'.tickets|
    && forall i :: 0 <= i < |t.tickets| ==> t.tickets[i].amountPaidSats <= t'.tickets[i].amountPaidSats
  }

  // ---------------------------------------------------------------------------
  // Row lookups: `db.get` returns the first row the WHERE clause selects.

  /** SELECT ... FROM tickets WHERE reference = ? */
  function TicketWithReference(ts: seq<Ticket>, reference: string): (r: Option<nat>)
    ensures r.Some? ==> 1 <= r.value <= |ts| && ts[r.value - 1].reference == reference
    ensures r.Some? ==> forall j :: 0 <= j < r.value - 1 ==> ts[j].reference != reference
    ensures r.None? ==> forall j :: 0 <= j < |ts| ==> ts[j].reference != reference
  {
    if ts == [] then None
    else if ts[0].reference == reference then Some(1)
    else match TicketWithReference(ts[1..], reference)
      case None => None
      case Some(k) => Some(k + 1)
  }

  /** The lookup only depends on the references. */
  lemma TicketWithReferenceUpdate(ts: seq<Ticket>, k: nat, tk: Ticket, reference: string)
    requires k < |ts| && tk.reference == ts[k].reference
    ensures TicketWithReference(ts[k := tk], reference) == TicketWithReference(ts, reference)
  {
    var a, b := TicketWithReference(ts, reference), TicketWithReference(ts[k := tk], reference);
    if a.Some? { assert ts[k := tk][a.value - 1].reference == reference; }
    if b.Some? { assert ts[b.value - 1].reference == reference; }
  }

  /** SELECT * FROM payments WHERE payment_hash = ? */
  function PaymentWithHash(ps: seq<Payment>, hash: string): (r: Option<nat>)
    ensures r.Some? ==> 1 <= r.value <= |ps| && ps[r.value - 1].paymentHash == hash
    ensures r.Some? ==> forall j :: 0 <= j < r.value - 1 ==> ps[j].paymentHash != hash
    ensures r.None? ==> forall j :: 0 <= j < |ps| ==> ps[j].paymentHash != hash
  {
    if ps == [] then None
    else if ps[0].paymentHash == hash then Some(1)
    else match PaymentWithHash(ps[1..], hash)
      case None => None
      case Some(k) => Some(k + 1)
  }

  lemma PaymentWithHashUpdate(ps: seq<Payment>, k: nat, p: Payment, hash: string)
    requires k < |ps| && p.paymentHash == ps[k].paymentHash
    ensures PaymentWithHash(ps[k := p], hash) == PaymentWithHash(ps, hash)
  {
    var a, b := PaymentWithHash(ps, hash), PaymentWithHash(ps[k := p], hash);
    if a.Some? { assert ps[k := p][a.value - 1].paymentHash == hash; }
    if b.Some? { assert ps[b.value - 1].paymentHash == hash; }
  }

  /** SELECT ... FROM events WHERE id = ? AND date > datetime('now') */
  predicate IsUpcomingEvent(t: Tables, eventId: nat, now: int) {
    1 <= eventId <= |t.events| && t.events[eventId - 1].date > now
  }

  /** SELECT * FROM ticket_plans WHERE id = ? AND event_id = ? */
  predicate IsPlanOf(t: Tables, planId: nat, eventId: nat) {
    1 <= planId <= |t.plans| && t.plans[planId - 1].eventId == eventId
  }

  /** SELECT ... FROM tickets WHERE id = ? AND user_id = ? */
  predicate IsOwnTicket(t: Tables, ticketId: nat, userId: nat) {
    1 <= ticketId <= |t.tickets| && t.tickets[ticketId - 1].userId == userId
  }

  /** Appending a ticket with valid links keeps the tables well formed,
   *  and the new ticket has no payment yet. */
  lemma AppendTicketKeepsLedger(t: Tables, tk: Ticket)
    requires WellFormed(t) && Reconciled(t) && TicketLinks(t, tk) && tk.amountPaidSats == 0
    ensures WellFormed(t.(tickets := t.tickets + [tk]))
    ensures Reconciled(t.(tickets := t.tickets + [tk]))
  {
    var t' := t.(tickets := t.tickets + [tk]);
    SumPaidUnreferenced(t.payments, |t.tickets| + 1);
    assert forall i :: 0 <= i < |t'.tickets| ==> t'.tickets[i].amountPaidSats == SumPaid(t'.payments, i + 1) by {
      forall i | 0 <= i < |t'.tickets| ensures t'.tickets[i].amountPaidSats == SumPaid(t'.payments, i + 1) {
        if i < |t.tickets| { assert t'.tickets[i] == t.tickets[i]; }
      }
    }
  }
}
