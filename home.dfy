/** backend/src/routes/home.route.js: the event-priced ledger. A ticket is reserved at the
 *  event's price, and payments reported by the client are recorded as paid, the ticket's
 *  paid amount being recomputed as the SUM of its paid payments. */
module Home {
  import opened Schema
  import opened Sats
  import Tickets
  import Store

  /** `ticket_type = 'standard'` when the request names none. */
  const DefaultTicketType: string := "standard"

  datatype Refusal = EventNotFound | NoSuchTicket | AlreadyPaid | ExceedsRemaining(remaining: int) | GatewayFailed
                 | InvalidAmount

  datatype PaymentOptions = PaymentOptions(full: int, installment: int)

  datatype Booking = Booking(ticketId: nat, eventId: nat, reference: string, amountDue: int,
                             options: PaymentOptions)

  // ===========================================================================
  // Reservation (lines 59-103)

  function ReserveStep(t: Tables, user: User, eventId: nat, ticketType: Option<string>,
                       uuid: string, now: int)
    : (s: Step<Result<Booking, Refusal>>)
    requires WellFormed(t)
    ensures WellFormed(s.after)
    ensures s.reply.Ok? <==> IsUpcomingEvent(t, eventId, now)
    ensures s.reply.Err? ==> s.after == t && s.reply.error == EventNotFound
    ensures s.reply.Ok? ==>
      |s.after.tickets| == |t.tickets| + 1 &&
      var tk := s.after.tickets[|t.tickets|];
      var price := t.events[eventId - 1].priceSats;
      && s.after == t.(tickets := t.tickets + [tk])
      && s.reply.value.ticketId == |t.tickets| + 1 && s.reply.value.eventId == eventId
      && tk.status == Pending && tk.amountPaidSats == 0
      && tk.planId.None? && tk.installmentPlan.None? && tk.usedAt.None?
      && tk.userId == user.id && tk.eventId == eventId && tk.totalAmountSats == price
      && tk.ticketType == (if ticketType.Some? then ticketType.value else DefaultTicketType)
      && tk.reference == Tickets.TicketReference(uuid) == s.reply.value.reference
      && s.reply.value.amountDue == price == s.reply.value.options.full
      && 3 * (s.reply.value.options.installment - 1) < price <= 3 * s.reply.value.options.installment
  {
    if !IsUpcomingEvent(t, eventId, now) then Step(Err(EventNotFound), t)
    else
      var price := t.events[eventId - 1].priceSats;
      var kind := match ticketType case Some(k) => k case None => DefaultTicketType;
      var tk := Ticket(user.id, eventId, None, kind, Tickets.TicketReference(uuid), price, 0, Pending, None, None);
      Step(Ok(Booking(|t.tickets| + 1, eventId, tk.reference, price, PaymentOptions(price, CeilDiv(price, 3)))),
           t.(tickets := t.tickets + [tk]))
  }

  lemma ReserveKeepsLedger(t: Tables, user: User, eventId: nat, ticketType: Option<string>, uuid: string, now: int)
    requires WellFormed(t) && Reconciled(t) && WithinQuota(t)
    ensures Reconciled(ReserveStep(t, user, eventId, ticketType, uuid, now).after)
    ensures WithinQuota(ReserveStep(t, user, eventId, ticketType, uuid, now).after)
  {
    var s := ReserveStep(t, user, eventId, ticketType, uuid, now);
    if s.reply.Ok? {
      var tk := s.after.tickets[|t.tickets|];
      AppendTicketKeepsLedger(t, tk);
      forall p | 1 <= p <= |t.plans| ensures SoldCount(s.after.tickets, p) == SoldCount(t.tickets, p) {
        SoldCountAppend(t.tickets, tk, p);
      }
    }
  }

  method Reserve(db: Store.Database, user: User, eventId: nat, ticketType: Option<string>, uuid: string, now: int)
    returns (r: Result<Booking, Refusal>)
    requires db.Valid()
    modifies db
    ensures db.Valid()
    ensures Step(r, db.Snapshot()) == ReserveStep(old(db.Snapshot()), user, eventId, ticketType, uuid, now)
  {
    if !IsUpcomingEvent(db.Snapshot(), eventId, now) {
      return Err(EventNotFound);
    }
    var price := db.events[eventId - 1].priceSats;
    var kind := DefaultTicketType;
    if ticketType.Some? {
      kind := ticketType.value;
    }
    var reference := Tickets.TicketReference(uuid);
    var id := db.InsertTicket(Ticket(user.id, eventId, None, kind, reference, price, 0, Pending, None, None));
    r := Ok(Booking(id, eventId, reference, price, PaymentOptions(price, CeilDiv(price, 3))));
  }

  // ===========================================================================
  // Recording a payment (lines 106-173)

  datatype Receipt = Receipt(ticketId: nat, amount: int, totalPaid: int, status: TicketStatus, remaining: int)

  /** Lines 139-145: the status follows from what has been paid against the event's price. */
  function DerivedStatus(totalPaid: int, price: int): (st: TicketStatus)
    ensures st == Paid <==> totalPaid >= price
    ensures st == Partial <==> 0 < totalPaid < price
    ensures st == Pending <==> (totalPaid <= 0 && totalPaid < price)
  {
    if totalPaid >= price then Paid else if totalPaid > 0 then Partial else Pending
  }

  /** `e.price_sats as total_price`: the current price of the ticket's event. */
  function EventPrice(t: Tables, ticketId: nat): int
    requires WellFormed(t) && 1 <= ticketId <= |t.tickets|
  {
    assert TicketLinks(t, t.tickets[ticketId - 1]);
    t.events[t.tickets[ticketId - 1].eventId - 1].priceSats
  }

  /** The payment is inserted already `'paid'`; the ticket's paid amount becomes the sum of
   *  its paid rows and its status is derived from that sum and the event's price. */
  function RecordPaymentStep(t: Tables, user: User, ticketId: nat, amount: int, hash: string)
    : (s: Step<Result<Receipt, Refusal>>)
    requires WellFormed(t)
    ensures WellFormed(s.after)
    ensures s.reply.Err? ==> s.after == t
    ensures s.reply == Err(NoSuchTicket) <==> !IsOwnTicket(t, ticketId, user.id)
    ensures s.reply == Err(AlreadyPaid) <==> IsOwnTicket(t, ticketId, user.id) && t.tickets[ticketId - 1].status == Paid
    ensures s.reply.Ok? <==> IsOwnTicket(t, ticketId, user.id) && t.tickets[ticketId - 1].status != Paid
    ensures s.reply.Ok? ==>
      && IsOwnTicket(t, ticketId, user.id)
      && s.after.payments == t.payments + [Payment(ticketId, hash, amount, PaymentPaid, None)]
      && |s.after.tickets| == |t.tickets|
      && s.after.events == t.events && s.after.plans == t.plans && s.after.invoices == t.invoices
      && (forall i :: 0 <= i < |t.tickets| && i != ticketId - 1 ==> s.after.tickets[i] == t.tickets[i])
      && var tk := s.after.tickets[ticketId - 1];
         && tk == t.tickets[ticketId - 1].(amountPaidSats := tk.amountPaidSats, status := tk.status)
         && tk.amountPaidSats == SumPaid(s.after.payments, ticketId) == s.reply.value.totalPaid
         && tk.status == DerivedStatus(tk.amountPaidSats, EventPrice(t, ticketId)) == s.reply.value.status
         && s.reply.value.remaining == EventPrice(t, ticketId) - tk.amountPaidSats
         && s.reply.value.amount == amount && s.reply.value.ticketId == ticketId
  {
    if !IsOwnTicket(t, ticketId, user.id) then Step(Err(NoSuchTicket), t)
    else if t.tickets[ticketId - 1].status == Paid then Step(Err(AlreadyPaid), t)
    else
      var payments := t.payments + [Payment(ticketId, hash, amount, PaymentPaid, None)];
      var total := SumPaid(payments, ticketId);
      var price := EventPrice(t, ticketId);
      var status := DerivedStatus(total, price);
      var tk := t.tickets[ticketId - 1].(amountPaidSats := total, status := status);
      Step(Ok(Receipt(ticketId, amount, total, status, price - total)),
           t.(payments := payments, tickets := t.tickets[ticketId - 1 := tk]))
  }

  /** Recomputing the SUM credits exactly the new payment when the ledger was reconciled,
   *  and keeps it reconciled. */
  lemma RecordPaymentKeepsLedger(t: Tables, user: User, ticketId: nat, amount: int, hash: string)
    requires WellFormed(t) && Reconciled(t) && WithinQuota(t)
    ensures var s := RecordPaymentStep(t, user, ticketId, amount, hash);
            && Reconciled(s.after) && WithinQuota(s.after)
            && (s.reply.Ok? ==> s.reply.value.totalPaid == t.tickets[ticketId - 1].amountPaidSats + amount)
  {
    var s := RecordPaymentStep(t, user, ticketId, amount, hash);
    if s.reply.Ok? {
      var p := Payment(ticketId, hash, amount, PaymentPaid, None);
      forall i | 0 <= i < |s.after.tickets|
        ensures s.after.tickets[i].amountPaidSats == SumPaid(s.after.payments, i + 1)
      {
        SumPaidAppend(t.payments, p, i + 1);
      }
      SumPaidAppend(t.payments, p, ticketId);
      forall q | 1 <= q <= |t.plans| ensures SoldCount(s.after.tickets, q) == SoldCount(t.tickets, q) {
        SoldCountUpdate(t.tickets, ticketId - 1, s.after.tickets[ticketId - 1], q);
      }
    }
  }

  /** Only a 'paid' ticket is refused, so a payment recorded against a ticket already used
   *  at the gate takes it out of 'used' again. */
  lemma RecordPaymentReopensUsedTicket(t: Tables, user: User, ticketId: nat, amount: int, hash: string)
    requires WellFormed(t) && IsOwnTicket(t, ticketId, user.id) && t.tickets[ticketId - 1].status == Used
    ensures var s := RecordPaymentStep(t, user, ticketId, amount, hash);
            s.reply.Ok? && s.after.tickets[ticketId - 1].status != Used
  {
  }

  /** Lines 109 and 126-131 record `amount_sats` exactly as the request gives it: a negative
   *  amount is inserted as a paid payment and lowers what a reconciled ticket has paid. */
  lemma NegativePaymentLowersPaid()
    ensures var t := Tables([Event(7, "Concert", 100, "Dakar", 1000)], [],
                            [Ticket(1, 1, None, "standard", "TKT-0000ABCD", 1000, 500, Partial, None, None)],
                            [Payment(1, "h1", 500, PaymentPaid, None)], []);
            && WellFormed(t) && Reconciled(t) && WithinQuota(t)
            && var s := RecordPaymentStep(t, User(1, Attendee), 1, -5, "h2");
               s.reply.Ok? && s.after.tickets[0].amountPaidSats == 495 && !PaidNotLowered(t, s.after)
  {
    var t := Tables([Event(7, "Concert", 100, "Dakar", 1000)], [],
                    [Ticket(1, 1, None, "standard", "TKT-0000ABCD", 1000, 500, Partial, None, None)],
                    [Payment(1, "h1", 500, PaymentPaid, None)], []);
    assert SumPaid(t.payments, 1) == 500 by {
      assert t.payments[..0] == [];
    }
    var s := RecordPaymentStep(t, User(1, Attendee), 1, -5, "h2");
    assert s.after.payments == t.payments + [Payment(1, "h2", -5, PaymentPaid, None)];
    SumPaidAppend(t.payments, Payment(1, "h2", -5, PaymentPaid, None), 1);
  }

  /** Lines 106-173 as evidently intended: a payment must be of a positive amount, and a
   *  ticket used at the gate is refused like a paid one. */
  function GuardedRecordPaymentStep(t: Tables, user: User, ticketId: nat, amount: int, hash: string)
    : (s: Step<Result<Receipt, Refusal>>)
    requires WellFormed(t)
    ensures WellFormed(s.after)
    ensures s.reply.Err? ==> s.after == t
    ensures s.reply == Err(InvalidAmount) <==> amount <= 0
    ensures s.reply == Err(AlreadyPaid) <==>
      amount > 0 && IsOwnTicket(t, ticketId, user.id)
      && (t.tickets[ticketId - 1].status == Paid || t.tickets[ticketId - 1].status == Used)
    ensures amount > 0 && !(IsOwnTicket(t, ticketId, user.id) && t.tickets[ticketId - 1].status == Used) ==>
      s == RecordPaymentStep(t, user, ticketId, amount, hash)
    ensures |s.after.tickets| == |t.tickets|
    ensures forall i :: 0 <= i < |t.tickets| && t.tickets[i].status == Used ==> s.after.tickets[i].status == Used
  {
    if amount <= 0 then Step(Err(InvalidAmount), t)
    else if IsOwnTicket(t, ticketId, user.id) && t.tickets[ticketId - 1].status == Used then Step(Err(AlreadyPaid), t)
    else RecordPaymentStep(t, user, ticketId, amount, hash)
  }

  /** The intended handler keeps the ledger reconciled and within quota, inserts no
   *  negative payment, and a recorded payment raises what the ticket has paid. */
  lemma GuardedRecordPaymentKeepsLedger(t: Tables, user: User, ticketId: nat, amount: int, hash: string)
    requires WellFormed(t) && Reconciled(t) && WithinQuota(t)
    ensures var s := GuardedRecordPaymentStep(t, user, ticketId, amount, hash);
            && Reconciled(s.after) && WithinQuota(s.after)
            && (NonNegativePayments(t) ==> NonNegativePayments(s.after))
            && PaidNotLowered(t, s.after)
            && (s.reply.Ok? ==> s.after.tickets[ticketId - 1].amountPaidSats > t.tickets[ticketId - 1].amountPaidSats)
  {
    var s := GuardedRecordPaymentStep(t, user, ticketId, amount, hash);
    if s.reply.Ok? {
      RecordPaymentKeepsLedger(t, user, ticketId, amount, hash);
    }
  }

  method RecordPayment(db: Store.Database, user: User, ticketId: nat, amount: int, hash: string)
    returns (r: Result<Receipt, Refusal>)
    requires db.Valid()
    modifies db
    ensures db.Valid()
    ensures Step(r, db.Snapshot()) == RecordPaymentStep(old(db.Snapshot()), user, ticketId, amount, hash)
  {
    if !IsOwnTicket(db.Snapshot(), ticketId, user.id) {
      return Err(NoSuchTicket);
    }
    var tk := db.tickets[ticketId - 1];
    if tk.status == Paid {
      return Err(AlreadyPaid);
    }
    var price := EventPrice(db.Snapshot(), ticketId);
    db.InsertPayment(Payment(ticketId, hash, amount, PaymentPaid, None));
    var total := SumPaid(db.payments, ticketId);
    var status := DerivedStatus(total, price);
    assert TicketLinks(db.Snapshot(), tk);
    db.UpdateTicket(ticketId, tk.(amountPaidSats := total, status := status));
    r := Ok(Receipt(ticketId, amount, total, status, price - total));
  }

  // ===========================================================================
  // Invoices (lines 176-237)

  datatype HomeInvoice = HomeInvoice(paymentHash: string, amountSats: int)

  /** `minted` is the payment_hash LNbits returns, None when the call fails. The invoice is
   *  kept in the `invoices` table, which no handler of this router reads back. */
  function InvoiceStep(t: Tables, user: User, ticketId: nat, amount: int, minted: Option<string>)
    : (s: Step<Result<HomeInvoice, Refusal>>)
    requires WellFormed(t)
    ensures WellFormed(s.after)
    ensures s.reply.Err? ==> s.after == t
    ensures s.after.events == t.events && s.after.plans == t.plans
    ensures s.after.tickets == t.tickets && s.after.payments == t.payments
    ensures s.reply == Err(NoSuchTicket) <==> !IsOwnTicket(t, ticketId, user.id)
    ensures s.reply.Err? && s.reply.error.ExceedsRemaining? <==>
      IsOwnTicket(t, ticketId, user.id) && amount > Tickets.Remaining(t.tickets[ticketId - 1])
    ensures s.reply.Err? && s.reply.error.ExceedsRemaining? ==>
      s.reply.error.remaining == Tickets.Remaining(t.tickets[ticketId - 1])
    ensures s.reply == Err(GatewayFailed) <==>
      IsOwnTicket(t, ticketId, user.id) && amount <= Tickets.Remaining(t.tickets[ticketId - 1]) && minted.None?
    ensures s.reply.Ok? <==> IsOwnTicket(t, ticketId, user.id) && amount <= Tickets.Remaining(t.tickets[ticketId - 1]) && minted.Some?
    ensures s.reply.Ok? ==>
      && s.reply.value == HomeInvoice(minted.value, amount)
      && s.after.invoices == t.invoices + [Invoice(ticketId, minted.value, amount)]
  {
    if !IsOwnTicket(t, ticketId, user.id) then Step(Err(NoSuchTicket), t)
    else
      var remaining := Tickets.Remaining(t.tickets[ticketId - 1]);
      if amount > remaining then Step(Err(ExceedsRemaining(remaining)), t)
      else match minted
        case None => Step(Err(GatewayFailed), t)
        case Some(hash) =>
          Step(Ok(HomeInvoice(hash, amount)), t.(invoices := t.invoices + [Invoice(ticketId, hash, amount)]))
  }

  method CreateInvoice(db: Store.Database, user: User, ticketId: nat, amount: int, minted: Option<string>)
    returns (r: Result<HomeInvoice, Refusal>)
    requires db.Valid()
    modifies db
    ensures db.Valid()
    ensures Step(r, db.Snapshot()) == InvoiceStep(old(db.Snapshot()), user, ticketId, amount, minted)
  {
    if !IsOwnTicket(db.Snapshot(), ticketId, user.id) {
      return Err(NoSuchTicket);
    }
    var tk := db.tickets[ticketId - 1];
    var remaining := tk.totalAmountSats - tk.amountPaidSats;
    if amount > remaining {
      return Err(ExceedsRemaining(remaining));
    }
    if minted.None? {
      return Err(GatewayFailed);
    }
    db.InsertInvoice(Invoice(ticketId, minted.value, amount));
    r := Ok(HomeInvoice(minted.value, amount));
  }

  // ===========================================================================
  // Gate validation (lines 240-293): as in tickets.route.js, without `used_at`.

  function ValidateStep(t: Tables, user: User, reference: string): (s: Step<Tickets.GateReply>)
    requires WellFormed(t)
    ensures WellFormed(s.after)
    ensures !s.reply.Admitted? ==> s.after == t
    ensures s.reply == Tickets.AccessDenied <==> user.role != Organizer
    ensures s.reply == Tickets.TicketNotFound <==> user.role == Organizer && TicketWithReference(t.tickets, reference).None?
    ensures s.reply.Admitted? <==>
      && user.role == Organizer && TicketWithReference(t.tickets, reference).Some?
      && Tickets.OrganizerOf(t, TicketWithReference(t.tickets, reference).value) == user.id
      && t.tickets[TicketWithReference(t.tickets, reference).value - 1].status == Paid
    ensures s.reply == Tickets.NotAuthorized <==>
      && user.role == Organizer && TicketWithReference(t.tickets, reference).Some?
      && Tickets.OrganizerOf(t, TicketWithReference(t.tickets, reference).value) != user.id
    ensures s.reply.Refused? <==>
      && user.role == Organizer && TicketWithReference(t.tickets, reference).Some?
      && Tickets.OrganizerOf(t, TicketWithReference(t.tickets, reference).value) == user.id
      && t.tickets[TicketWithReference(t.tickets, reference).value - 1].status != Paid
    ensures s.reply.Refused? ==>
      && TicketWithReference(t.tickets, reference).Some?
      && var tk := t.tickets[TicketWithReference(t.tickets, reference).value - 1];
         s.reply.reason == Tickets.RefusalReason(tk.status)
    ensures s.reply.Admitted? ==>
      && Some(s.reply.ticketId) == TicketWithReference(t.tickets, reference)
      && s.after == t.(tickets := t.tickets[s.reply.ticketId - 1 := t.tickets[s.reply.ticketId - 1].(status := Used)])
    ensures forall i :: 0 <= i < |t.tickets| && s.after.tickets[i] != t.tickets[i] ==>
      t.tickets[i].status == Paid && s.after.tickets[i].status == Used
  {
    if user.role != Organizer then Step(Tickets.AccessDenied, t)
    else match TicketWithReference(t.tickets, reference)
      case None => Step(Tickets.TicketNotFound, t)
      case Some(k) =>
        var tk := t.tickets[k - 1];
        if Tickets.OrganizerOf(t, k) != user.id then Step(Tickets.NotAuthorized, t)
        else if tk.status != Paid then Step(Tickets.Refused(Tickets.RefusalReason(tk.status)), t)
        else Step(Tickets.Admitted(k), t.(tickets := t.tickets[k - 1 := tk.(status := Used)]))
  }

  /** A reservation made here is 'pending' until paid, so the gate turns it away with
   *  'Paiement incomplet'. */
  lemma FreshReservationRefused(t: Tables, user: User, eventId: nat, ticketType: Option<string>,
                                uuid: string, now: int, organizer: User)
    requires WellFormed(t)
    requires ReserveStep(t, user, eventId, ticketType, uuid, now).reply.Ok?
    requires organizer.role == Organizer && organizer.id == t.events[eventId - 1].ownerId
    requires forall j :: 0 <= j < |t.tickets| ==> t.tickets[j].reference != Tickets.TicketReference(uuid)
    ensures var s := ReserveStep(t, user, eventId, ticketType, uuid, now);
            ValidateStep(s.after, organizer, Tickets.TicketReference(uuid)).reply == Tickets.Refused("Paiement incomplet")
  {
    var s := ReserveStep(t, user, eventId, ticketType, uuid, now);
    var r := TicketWithReference(s.after.tickets, Tickets.TicketReference(uuid));
    assert s.after.tickets[|t.tickets|].reference == Tickets.TicketReference(uuid);
    assert r == Some(|t.tickets| + 1);
  }

  lemma ValidateKeepsLedger(t: Tables, user: User, reference: string)
    requires WellFormed(t) && Reconciled(t) && WithinQuota(t)
    ensures Reconciled(ValidateStep(t, user, reference).after)
    ensures WithinQuota(ValidateStep(t, user, reference).after)
  {
    var s := ValidateStep(t, user, reference);
    if s.reply.Admitted? {
      var i := s.reply.ticketId - 1;
      forall p | 1 <= p <= |t.plans| ensures SoldCount(s.after.tickets, p) == SoldCount(t.tickets, p) {
        SoldCountUpdate(t.tickets, i, s.after.tickets[i], p);
      }
    }
  }

  method ValidateTicket(db: Store.Database, user: User, reference: string) returns (r: Tickets.GateReply)
    requires db.Valid()
    modifies db
    ensures db.Valid()
    ensures Step(r, db.Snapshot()) == ValidateStep(old(db.Snapshot()), user, reference)
  {
    if user.role != Organizer {
      return Tickets.AccessDenied;
    }
    var found := TicketWithReference(db.tickets, reference);
    if found.None? {
      return Tickets.TicketNotFound;
    }
    var k := found.value;
    var tk := db.tickets[k - 1];
    if Tickets.OrganizerOf(db.Snapshot(), k) != user.id {
      return Tickets.NotAuthorized;
    }
    if tk.status != Paid {
      return Tickets.Refused(Tickets.RefusalReason(tk.status));
    }
    assert TicketLinks(db.Snapshot(), tk);
    db.UpdateTicket(k, tk.(status := Used));
    r := Tickets.Admitted(k);
  }
}
