/** tickets.route.js, home.route.js and events.route.js open the same eventpay.db, and
 *  payments.route.js is taken to use it too. Any sequence of their requests keeps
 *  the ledger consistent: foreign keys resolve, every ticket's paid amount is the sum of
 *  its paid payments, and no plan is sold beyond its quantity. */
module Ledger {
  import opened Schema
  import Tickets
  import Home
  import PlanReservation
  import Events

  predicate Consistent(t: Tables) {
    WellFormed(t) && Reconciled(t) && WithinQuota(t)
  }

  /** One request to a handler that changes the database. A reservation through
   *  payments.route.js, an invoice and a confirmation through tickets.route.js, and a
   *  payment recorded through home.route.js are taken with their corrected definitions. */
  datatype Request =
    | CreateEvent(user: User, input: Events.EventInput)
    | Reserve(user: User, eventId: nat, planId: nat, paymentMethod: Tickets.PaymentMethod, uuid: string, now: int)
    | ReservePlan(user: User, eventId: nat, planId: nat, paymentMethod: Tickets.PaymentMethod, uuid: string, now: int)
    | RequestInvoice(user: User, ticketId: nat, requested: Option<int>, memo: string, minted: Option<string>)
    | ConfirmPayment(hash: string, now: int)
    | Validate(user: User, reference: string, now: int)
    | HomeReserve(user: User, eventId: nat, ticketType: Option<string>, uuid: string, now: int)
    | HomeRecordPayment(user: User, ticketId: nat, amount: int, hash: string)
    | HomeInvoice(user: User, ticketId: nat, amount: int, minted: Option<string>)
    | HomeValidate(user: User, reference: string)

  function Apply(t: Tables, r: Request): (t': Tables)
    requires WellFormed(t)
    ensures WellFormed(t')
    ensures |t'.tickets| >= |t.tickets|
  {
    match r
    case CreateEvent(u, input) => Events.CreateEventStep(t, u, input).after
    case Reserve(u, e, p, m, id, now) => Tickets.ReserveStep(t, u, e, p, m, id, now).after
    case ReservePlan(u, e, p, m, id, now) => PlanReservation.CheckedReserveStep(t, u, e, p, m, id, now).after
    case RequestInvoice(u, k, a, memo, minted) => Tickets.CheckedInvoiceStep(t, u, k, a, memo, minted).after
    case ConfirmPayment(h, now) => Tickets.GuardedWebhookStep(t, h, now).after
    case Validate(u, ref, now) => Tickets.ValidateStep(t, u, ref, now).after
    case HomeReserve(u, e, kind, id, now) => Home.ReserveStep(t, u, e, kind, id, now).after
    case HomeRecordPayment(u, k, a, h) => Home.GuardedRecordPaymentStep(t, u, k, a, h).after
    case HomeInvoice(u, k, a, minted) => Home.InvoiceStep(t, u, k, a, minted).after
    case HomeValidate(u, ref) => Home.ValidateStep(t, u, ref).after
  }

  function Run(t: Tables, rs: seq<Request>): (t': Tables)
    requires WellFormed(t)
    ensures WellFormed(t')
    ensures |t'.tickets| >= |t.tickets|
    decreases |rs|
  {
    if rs == [] then t else Run(Apply(t, rs[0]), rs[1..])
  }

  lemma ApplyKeepsConsistent(t: Tables, r: Request)
    requires Consistent(t)
    ensures Consistent(Apply(t, r))
  {
    match r
    case CreateEvent(u, input) => Events.CreateEventKeepsLedger(t, u, input);
    case Reserve(u, e, p, m, id, now) =>
      Tickets.ReserveKeepsLedger(t, u, e, p, m, id, now);
    case ReservePlan(u, e, p, m, id, now) =>
      PlanReservation.ReserveKeepsReconciled(t, u, e, p, m, id, now);
    case RequestInvoice(u, k, a, memo, minted) =>
      Tickets.InvoiceKeepsReconciled(t, u, k, a, memo, minted);
    case ConfirmPayment(h, now) => Tickets.GuardedWebhookKeepsLedger(t, h, now);
    case Validate(u, ref, now) => Tickets.ValidateKeepsLedger(t, u, ref, now);
    case HomeReserve(u, e, kind, id, now) => Home.ReserveKeepsLedger(t, u, e, kind, id, now);
    case HomeRecordPayment(u, k, a, h) => Home.GuardedRecordPaymentKeepsLedger(t, u, k, a, h);
    case HomeInvoice(u, k, a, minted) =>
    case HomeValidate(u, ref) => Home.ValidateKeepsLedger(t, u, ref);
  }

  /** From any consistent database, and in particular the empty one, every sequence of
   *  requests leaves it consistent. */
  lemma {:induction false} RunKeepsConsistent(t: Tables, rs: seq<Request>)
    requires Consistent(t)
    ensures Consistent(Run(t, rs))
    decreases |rs|
  {
    if rs != [] {
      ApplyKeepsConsistent(t, rs[0]);
      RunKeepsConsistent(Apply(t, rs[0]), rs[1..]);
    }
  }

  lemma EmptyIsConsistent()
    ensures Consistent(Tables([], [], [], [], []))
  {
    assert SoldCount([], 1) == 0;
  }

  /** Used at the gate is final for every handler. */
  predicate UsedIsFinal(t: Tables, t': Tables) {
    |t.tickets| <= |t'.tickets|
    && forall i :: 0 <= i < |t.tickets| && t.tickets[i].status == Used ==> t'.tickets[i].status == Used
  }

  lemma ApplyKeepsUsed(t: Tables, r: Request)
    requires WellFormed(t)
    ensures UsedIsFinal(t, Apply(t, r))
  {
  }

  lemma {:induction false} RunKeepsUsed(t: Tables, rs: seq<Request>)
    requires WellFormed(t)
    ensures UsedIsFinal(t, Run(t, rs))
    decreases |rs|
  {
    if rs != [] {
      ApplyKeepsUsed(t, rs[0]);
      RunKeepsUsed(Apply(t, rs[0]), rs[1..]);
    }
  }

  /** No request lowers what a ticket has paid, and none inserts a negative payment. On
   *  a ledger that is not reconciled, recomputing the SUM in home.route.js could lower
   *  it, so the ledger is required to be consistent. */
  lemma ApplyNeverLowersPaid(t: Tables, r: Request)
    requires Consistent(t) && NonNegativePayments(t)
    ensures NonNegativePayments(Apply(t, r)) && PaidNotLowered(t, Apply(t, r))
  {
    match r
    case CreateEvent(u, input) =>
    case Reserve(u, e, p, m, id, now) =>
    case ReservePlan(u, e, p, m, id, now) =>
    case RequestInvoice(u, k, a, memo, minted) =>
    case ConfirmPayment(h, now) =>
      Tickets.WebhookNeverLowersPaid(t, h, now);
      var s := Tickets.WebhookStep(t, h, now);
      if s.reply.Applied? {
        var k := PaymentWithHash(t.payments, h).value;
        assert s.after.payments == t.payments[k - 1 := t.payments[k - 1].(status := PaymentPaid, paidAt := Some(now))];
      }
    case Validate(u, ref, now) =>
    case HomeReserve(u, e, kind, id, now) =>
    case HomeRecordPayment(u, k, a, h) =>
      Home.GuardedRecordPaymentKeepsLedger(t, u, k, a, h);
    case HomeInvoice(u, k, a, minted) =>
    case HomeValidate(u, ref) =>
  }

  /** Over any sequence of requests from a consistent ledger with no negative payment, no
   *  ticket's paid amount ever decreases. */
  lemma {:induction false} RunNeverLowersPaid(t: Tables, rs: seq<Request>)
    requires Consistent(t) && NonNegativePayments(t)
    ensures NonNegativePayments(Run(t, rs)) && PaidNotLowered(t, Run(t, rs))
    decreases |rs|
  {
    if rs != [] {
      var t1 := Apply(t, rs[0]);
      ApplyNeverLowersPaid(t, rs[0]);
      ApplyKeepsConsistent(t, rs[0]);
      RunNeverLowersPaid(t1, rs[1..]);
    }
  }
}
