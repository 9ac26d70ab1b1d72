/** backend/src/routes/tickets.route.js: reservation against a ticket plan, the plan
 *  listing, invoice sizing, the LNbits webhook that reconciles payments, and gate
 *  validation. Each handler is a function from the tables to a reply and new tables
 *  (`...Step`), and a method that performs the same statements on a `Store.Database`. */
module Tickets {
  import opened Schema
  import opened Sats
  import Text
  import Store

  /** `Math.min(3, ...)`: the most installments a plan can be split into. */
  const MaxInstallments: int := 3

  /** `ticket.min_installment_amount || 1000` */
  const DefaultMinInstallment: int := 1000

  /** `expiry: 3600`, the lifetime of every invoice requested from LNbits. */
  const InvoiceExpiry: int := 3600

  /** `payment_method`: every value other than 'installment' (the default is 'full') pays in full. */
  datatype PaymentMethod = FullPayment | InstallmentPayment

  // ===========================================================================
  // Reservation (lines 103-217)

  /** `TKT-${uuidv4().substr(0, 8).toUpperCase()}` */
  function TicketReference(uuid: string): string {
    "TKT-" + Text.ToUpper(uuid[..Min(8, |uuid|)])
  }

  /** A uuid starts with eight lower-case hex digits, so a reference is `TKT-` and eight
   *  upper-case hex digits. */
  lemma ReferenceShape(uuid: string)
    requires |uuid| >= 8 && forall i :: 0 <= i < 8 ==> Text.IsLowerHexDigit(uuid[i])
    ensures |TicketReference(uuid)| == 12 && Text.StartsWith(TicketReference(uuid), "TKT-")
    ensures forall i :: 4 <= i < 12 ==> Text.IsUpperHexDigit(TicketReference(uuid)[i])
  {
    var u := Text.ToUpper(uuid[..8]);
    var r := TicketReference(uuid);
    assert r == "TKT-" + u;
    forall i | 4 <= i < 12
      ensures Text.IsUpperHexDigit(r[i])
    {
      assert r[i] == u[i - 4] == Text.UpperChar(uuid[i - 4]);
    }
    assert r[..4] == "TKT-";
  }

  /** `Math.min(3, plan.max_installments || 3)` */
  function InstallmentCount(maxInstallments: nat): (n: int)
    ensures 1 <= n <= MaxInstallments
    ensures maxInstallments != 0 ==> n <= maxInstallments
    ensures n == MaxInstallments || n == maxInstallments
  {
    Min(MaxInstallments, if maxInstallments == 0 then MaxInstallments else maxInstallments)
  }

  /** The installment plan attached to a ticket reserved with `payment_method = 'installment'`:
   *  the installments cover the price, and one sat less per installment would not. */
  function PlanInstallments(plan: TicketPlan, now: int): (ip: InstallmentPlan)
    ensures 1 <= ip.totalInstallments <= MaxInstallments
    ensures plan.maxInstallments != 0 ==> ip.totalInstallments <= plan.maxInstallments
    ensures plan.priceSats <= ip.totalInstallments * ip.installmentAmount
    ensures ip.totalInstallments * (ip.installmentAmount - 1) < plan.priceSats
    ensures ip.paymentsMade == 0 && ip.nextPaymentDue == now + Week
  {
    var n := InstallmentCount(plan.maxInstallments);
    InstallmentPlan(n, CeilDiv(plan.priceSats, n), 0, now + Week)
  }

  datatype ReserveError = MissingFields | EventNotFound | InvalidPlan | SoldOut | InstallmentNotAllowed

  datatype Reservation = Reservation(ticketId: nat, reference: string, totalAmount: int,
                                     paymentMethod: PaymentMethod,
                                     installmentPlan: Option<InstallmentPlan>)

  /** Every check of the handler passes. */
  predicate MayReserve(t: Tables, eventId: nat, planId: nat, paymentMethod: PaymentMethod, now: int) {
    && eventId != 0 && planId != 0
    && IsUpcomingEvent(t, eventId, now)
    && IsPlanOf(t, planId, eventId)
    && SoldCount(t.tickets, planId) < t.plans[planId - 1].quantity
    && (paymentMethod == InstallmentPayment ==> t.plans[planId - 1].installmentAllowed)
  }

  function ReservedTicket(user: User, eventId: nat, planId: nat, plan: TicketPlan,
                          paymentMethod: PaymentMethod, uuid: string, now: int): Ticket
  {
    Ticket(user.id, eventId, Some(planId), "", TicketReference(uuid), plan.priceSats, 0, Reserved,
           if paymentMethod == InstallmentPayment then Some(PlanInstallments(plan, now)) else None,
           None)
  }

  function ReserveStep(t: Tables, user: User, eventId: nat, planId: nat,
                       paymentMethod: PaymentMethod, uuid: string, now: int)
    : (s: Step<Result<Reservation, ReserveError>>)
    requires WellFormed(t)
    ensures WellFormed(s.after)
    ensures s.reply.Ok? <==> MayReserve(t, eventId, planId, paymentMethod, now)
    ensures s.reply.Err? ==> s.after == t
    ensures s.reply == Err(MissingFields) <==> (eventId == 0 || planId == 0)
    ensures s.reply == Err(EventNotFound) <==>
      eventId != 0 && planId != 0 && !IsUpcomingEvent(t, eventId, now)
    ensures s.reply == Err(InvalidPlan) <==>
      eventId != 0 && planId != 0 && IsUpcomingEvent(t, eventId, now) && !IsPlanOf(t, planId, eventId)
    ensures s.reply == Err(SoldOut) <==>
      && eventId != 0 && planId != 0 && IsUpcomingEvent(t, eventId, now) && IsPlanOf(t, planId, eventId)
      && SoldCount(t.tickets, planId) >= t.plans[planId - 1].quantity
    ensures s.reply == Err(InstallmentNotAllowed) <==>
      && eventId != 0 && planId != 0 && IsUpcomingEvent(t, eventId, now) && IsPlanOf(t, planId, eventId)
      && SoldCount(t.tickets, planId) < t.plans[planId - 1].quantity
      && paymentMethod == InstallmentPayment && !t.plans[planId - 1].installmentAllowed
    ensures s.reply.Ok? ==>
      |s.after.tickets| == |t.tickets| + 1 &&
      var tk := s.after.tickets[|t.tickets|];
      && s.after == t.(tickets := t.tickets + [tk])
      && s.reply.value.ticketId == |t.tickets| + 1
      && tk.status == Reserved && tk.amountPaidSats == 0
      && tk.userId == user.id && tk.eventId == eventId && tk.planId == Some(planId)
      && tk.totalAmountSats == t.plans[planId - 1].priceSats == s.reply.value.totalAmount
      && tk.reference == TicketReference(uuid) == s.reply.value.reference
      && tk.installmentPlan == s.reply.value.installmentPlan
      && (tk.installmentPlan.Some? <==> paymentMethod == InstallmentPayment)
      && (tk.installmentPlan.Some? ==> tk.installmentPlan.value == PlanInstallments(t.plans[planId - 1], now))
  {
    if eventId == 0 || planId == 0 then Step(Err(MissingFields), t)
    else if !IsUpcomingEvent(t, eventId, now) then Step(Err(EventNotFound), t)
    else if !IsPlanOf(t, planId, eventId) then Step(Err(InvalidPlan), t)
    else
      var plan := t.plans[planId - 1];
      if SoldCount(t.tickets, planId) >= plan.quantity then Step(Err(SoldOut), t)
      else if paymentMethod == InstallmentPayment && !plan.installmentAllowed then
        Step(Err(InstallmentNotAllowed), t)
      else
        var tk := ReservedTicket(user, eventId, planId, plan, paymentMethod, uuid, now);
        Step(Ok(Reservation(|t.tickets| + 1, tk.reference, tk.totalAmountSats, paymentMethod,
                            tk.installmentPlan)),
             t.(tickets := t.tickets + [tk]))
  }

  /** A successful reservation keeps every plan within its quantity. */
  lemma ReserveKeepsLedger(t: Tables, user: User, eventId: nat, planId: nat,
                           paymentMethod: PaymentMethod, uuid: string, now: int)
    requires WellFormed(t) && Reconciled(t) && WithinQuota(t)
    ensures Reconciled(ReserveStep(t, user, eventId, planId, paymentMethod, uuid, now).after)
    ensures WithinQuota(ReserveStep(t, user, eventId, planId, paymentMethod, uuid, now).after)
  {
    var s := ReserveStep(t, user, eventId, planId, paymentMethod, uuid, now);
    if s.reply.Ok? {
      var tk := s.after.tickets[|t.tickets|];
      AppendTicketKeepsLedger(t, tk);
      forall p | 1 <= p <= |s.after.plans|
        ensures SoldCount(s.after.tickets, p) == 0 || SoldCount(s.after.tickets, p) <= s.after.plans[p - 1].quantity
      {
        SoldCountAppend(t.tickets, tk, p);
      }
    }
  }

  method Reserve(db: Store.Database, user: User, eventId: nat, planId: nat,
                 paymentMethod: PaymentMethod, uuid: string, now: int)
    returns (r: Result<Reservation, ReserveError>)
    requires db.Valid()
    modifies db
    ensures db.Valid()
    ensures Step(r, db.Snapshot()) == ReserveStep(old(db.Snapshot()), user, eventId, planId, paymentMethod, uuid, now)
  {
    if eventId == 0 || planId == 0 {
      return Err(MissingFields);
    }
    if !IsUpcomingEvent(db.Snapshot(), eventId, now) {
      return Err(EventNotFound);
    }
    if !IsPlanOf(db.Snapshot(), planId, eventId) {
      return Err(InvalidPlan);
    }
    var plan := db.plans[planId - 1];
    if SoldCount(db.tickets, planId) >= plan.quantity {
      return Err(SoldOut);
    }
    var installmentPlan: Option<InstallmentPlan> := None;
    if paymentMethod == InstallmentPayment {
      if !plan.installmentAllowed {
        return Err(InstallmentNotAllowed);
      }
      installmentPlan := Some(PlanInstallments(plan, now));
    }
    var reference := TicketReference(uuid);
    var id := db.InsertTicket(Ticket(user.id, eventId, Some(planId), "", reference, plan.priceSats, 0,
                                     Reserved, installmentPlan, None));
    r := Ok(Reservation(id, reference, plan.priceSats, paymentMethod, installmentPlan));
  }

  // ===========================================================================
  // Plans still on sale for an event (lines 249-275) and their features (278-285)

  const DefaultFeatures: seq<string> := ["Accès à l'événement"]

  /** `featuresMap[planType] || ['Accès à l\'événement']` */
  function PlanFeatures(planType: string): (fs: seq<string>)
    ensures |fs| >= 1
    ensures planType == "standard" ==> fs == ["Accès à l'événement", "Place standard", "Goodies de base"]
    ensures planType == "vip" ==> fs == ["Accès VIP", "Place privilégiée", "Rencontre artistes", "Goodies premium"]
    ensures planType == "premium" ==> fs == ["Accès backstage", "Photo avec artistes", "Cadeau exclusif"]
    ensures planType != "standard" && planType != "vip" && planType != "premium" ==> fs == DefaultFeatures
  {
    if planType == "standard" then ["Accès à l'événement", "Place standard", "Goodies de base"]
    else if planType == "vip" then ["Accès VIP", "Place privilégiée", "Rencontre artistes", "Goodies premium"]
    else if planType == "premium" then ["Accès backstage", "Photo avec artistes", "Cadeau exclusif"]
    else DefaultFeatures
  }

  datatype PlanOffer = PlanOffer(planId: nat, name: string, priceSats: int, installmentAllowed: bool,
                                 minInstallmentAmount: nat, maxInstallments: nat, quantity: int,
                                 remaining: int, features: seq<string>)

  /** `event_id = ? AND quantity > (SELECT COUNT(*) FROM tickets WHERE plan_id = ticket_plans.id)` */
  predicate OnSale(t: Tables, eventId: nat, planId: nat) {
    1 <= planId <= |t.plans| && t.plans[planId - 1].eventId == eventId
    && t.plans[planId - 1].quantity > SoldCount(t.tickets, planId)
  }

  function Offer(t: Tables, planId: nat): PlanOffer
    requires 1 <= planId <= |t.plans|
  {
    var p := t.plans[planId - 1];
    PlanOffer(planId, p.planType, p.priceSats, p.installmentAllowed, p.minInstallmentAmount,
              p.maxInstallments, p.quantity, p.quantity - SoldCount(t.tickets, planId),
              PlanFeatures(p.planType))
  }

  /** The offers among the first n plans. */
  function OffersAmong(t: Tables, eventId: nat, n: nat): (os: seq<PlanOffer>)
    requires n <= |t.plans|
    ensures forall o :: o in os ==> 1 <= o.planId <= n && OnSale(t, eventId, o.planId) && o == Offer(t, o.planId)
    ensures forall p :: 1 <= p <= n && OnSale(t, eventId, p) ==> Offer(t, p) in os
    ensures forall i, j :: 0 <= i < j < |os| ==> os[i].planId != os[j].planId
  {
    if n == 0 then []
    else
      var before := OffersAmong(t, eventId, n - 1);
      assert forall i :: 0 <= i < |before| ==> before[i] in before;
      before + (if OnSale(t, eventId, n) then [Offer(t, n)] else [])
  }

  /** GET /events/:id/plans: exactly the event's plans with tickets left, each once, with
   *  `remaining = quantity - sold` (always positive) and its features. */
  function AvailablePlans(t: Tables, eventId: nat): (os: seq<PlanOffer>)
    ensures forall o :: o in os ==> OnSale(t, eventId, o.planId) && o == Offer(t, o.planId) && o.remaining > 0
    ensures forall p :: OnSale(t, eventId, p) ==> Offer(t, p) in os
    ensures forall i, j :: 0 <= i < j < |os| ==> os[i].planId != os[j].planId
  {
    OffersAmong(t, eventId, |t.plans|)
  }

  // ===========================================================================
  // Invoice sizing (lines 288-396)

  datatype InvoiceError = InvalidAmount | NoSuchTicket | AlreadyPaid | BelowMinInstallment | GatewayFailed

  datatype LightningInvoice = LightningInvoice(paymentHash: string, amountSats: int,
                                               expiresIn: int, memo: string)

  /** `total_amount_sats - (amount_paid_sats || 0)` */
  function Remaining(tk: Ticket): int {
    tk.totalAmountSats - tk.amountPaidSats
  }

  function MinInstallment(plan: TicketPlan): int {
    if plan.minInstallmentAmount == 0 then DefaultMinInstallment else plan.minInstallmentAmount
  }

  /** Lines 317-341: the amount that is invoiced. A ticket with an installment plan is
   *  clamped to its installment and to what remains, and must reach the plan's minimum;
   *  a ticket without one is invoiced what was asked, whatever remains. */
  function InvoiceAmount(tk: Ticket, plan: TicketPlan, requested: int): (r: Result<int, InvoiceError>)
    ensures r == Err(AlreadyPaid) <==> Remaining(tk) <= 0
    ensures r.Err? ==> r.error == AlreadyPaid || r.error == BelowMinInstallment
    ensures Remaining(tk) > 0 && tk.installmentPlan.None? ==> r == Ok(requested)
    ensures Remaining(tk) > 0 && tk.installmentPlan.Some? ==>
      var cap := tk.installmentPlan.value.installmentAmount;
      && (r.Ok? <==> requested >= MinInstallment(plan) && cap >= MinInstallment(plan)
                     && Remaining(tk) >= MinInstallment(plan))
      && (r.Ok? ==> r.value <= requested && r.value <= cap && r.value <= Remaining(tk)
                    && (r.value == requested || r.value == cap || r.value == Remaining(tk)))
  {
    var remaining := Remaining(tk);
    if remaining <= 0 then Err(AlreadyPaid)
    else match tk.installmentPlan
      case None => Ok(requested)
      case Some(ip) =>
        var amount := Min(Min(requested, ip.installmentAmount), remaining);
        if amount < MinInstallment(plan) then Err(BelowMinInstallment) else Ok(amount)
  }

  /** The ticket `id = ? AND user_id = ?`, joined with its plan. */
  predicate HasPlannedTicket(t: Tables, ticketId: nat, userId: nat) {
    IsOwnTicket(t, ticketId, userId) && t.tickets[ticketId - 1].planId.Some?
  }

  function PlanOfTicket(t: Tables, ticketId: nat): TicketPlan
    requires WellFormed(t) && 1 <= ticketId <= |t.tickets| && t.tickets[ticketId - 1].planId.Some?
  {
    assert TicketLinks(t, t.tickets[ticketId - 1]);
    t.plans[t.tickets[ticketId - 1].planId.value - 1]
  }

  /** `memo || \`Paiement pour ticket ${ticket.reference}\`` */
  function InvoiceMemo(memo: string, reference: string): string {
    if memo == "" then "Paiement pour ticket " + reference else memo
  }

  /** `amount` is the request's amount when it is a number (None when it is missing or not
   *  numeric); `minted` is the payment_hash LNbits returns for the new invoice, None when
   *  the call fails. */
  function InvoiceStep(t: Tables, user: User, ticketId: nat, amount: Option<int>, memo: string,
                       minted: Option<string>)
    : (s: Step<Result<LightningInvoice, InvoiceError>>)
    requires WellFormed(t)
    ensures WellFormed(s.after)
    ensures s.reply.Err? ==> s.after == t
    ensures s.reply == Err(InvalidAmount) <==> (amount.None? || amount.value == 0)
    ensures s.reply == Err(NoSuchTicket) <==>
      (amount.Some? && amount.value != 0 && !HasPlannedTicket(t, ticketId, user.id))
    ensures s.reply.Ok? <==>
      && amount.Some? && amount.value != 0 && HasPlannedTicket(t, ticketId, user.id)
      && InvoiceAmount(t.tickets[ticketId - 1], PlanOfTicket(t, ticketId), amount.value).Ok?
      && minted.Some?
    ensures amount.Some? && amount.value != 0 && HasPlannedTicket(t, ticketId, user.id) ==>
      var sized := InvoiceAmount(t.tickets[ticketId - 1], PlanOfTicket(t, ticketId), amount.value);
      && (sized.Err? ==> s.reply == Err(sized.error))
      && (sized.Ok? && minted.None? ==> s.reply == Err(GatewayFailed))
    ensures s.reply == Err(GatewayFailed) ==> minted.None?
    ensures s.reply.Ok? ==>
      && amount.Some? && HasPlannedTicket(t, ticketId, user.id)
      && InvoiceAmount(t.tickets[ticketId - 1], PlanOfTicket(t, ticketId), amount.value) == Ok(s.reply.value.amountSats)
      && minted == Some(s.reply.value.paymentHash)
      && s.reply.value.memo == InvoiceMemo(memo, t.tickets[ticketId - 1].reference)
      && s.after == t.(payments := t.payments + [Payment(ticketId, s.reply.value.paymentHash,
                                                         s.reply.value.amountSats, PaymentPending, None)])
  {
    if amount.None? || amount.value == 0 then Step(Err(InvalidAmount), t)
    else if !HasPlannedTicket(t, ticketId, user.id) then Step(Err(NoSuchTicket), t)
    else
      var tk := t.tickets[ticketId - 1];
      match InvoiceAmount(tk, PlanOfTicket(t, ticketId), amount.value)
      case Err(e) => Step(Err(e), t)
      case Ok(a) =>
        match minted
        case None => Step(Err(GatewayFailed), t)
        case Some(hash) =>
          Step(Ok(LightningInvoice(hash, a, InvoiceExpiry, InvoiceMemo(memo, tk.reference))),
               t.(payments := t.payments + [Payment(ticketId, hash, a, PaymentPending, None)]))
  }

  /** A new invoice is a pending payment row, which pays nothing yet. */
  lemma InvoiceKeepsReconciled(t: Tables, user: User, ticketId: nat, amount: Option<int>, memo: string,
                               minted: Option<string>)
    requires WellFormed(t) && Reconciled(t)
    ensures Reconciled(InvoiceStep(t, user, ticketId, amount, memo, minted).after)
  {
    var s := InvoiceStep(t, user, ticketId, amount, memo, minted);
    if s.reply.Ok? {
      var p := s.after.payments[|t.payments|];
      forall i | 0 <= i < |t.tickets| {
        SumPaidAppend(t.payments, p, i + 1);
      }
    }
  }

  /** A full-payment ticket of 1000 sats with nothing paid, and no payment rows. */
  function UnpaidTicketTables(): Tables {
    Tables([Event(7, "Concert", 100, "Dakar", 0)],
           [TicketPlan(1, "standard", 1000, 10, false, 0, 0)],
           [Ticket(5, 1, Some(1), "", "TKT-0000ABCD", 1000, 0, Reserved, None, None)],
           [], [])
  }

  lemma NegativeInvoiceStored()
    ensures var t := UnpaidTicketTables();
            && WellFormed(t) && Reconciled(t) && WithinQuota(t)
            && var s := InvoiceStep(t, User(5, Attendee), 1, Some(-5), "", Some("h1"));
               s.reply.Ok? && s.after == t.(payments := [Payment(1, "h1", -5, PaymentPending, None)])
  {
    var t := UnpaidTicketTables();
    assert SoldCount(t.tickets, 1) == 1 by {
      assert t.tickets[..0] == [];
    }
    assert HasPlannedTicket(t, 1, 5) && PlanOfTicket(t, 1) == t.plans[0];
    assert InvoiceAmount(t.tickets[0], t.plans[0], -5) == Ok(-5);
  }

  lemma NegativeInvoiceCredited()
    ensures var t1 := UnpaidTicketTables().(payments := [Payment(1, "h1", -5, PaymentPending, None)]);
            && WellFormed(t1)
            && var s := WebhookStep(t1, "h1", 60);
               s.reply.Applied? && s.after.tickets == [t1.tickets[0].(amountPaidSats := -5)]
  {
    var t1 := UnpaidTicketTables().(payments := [Payment(1, "h1", -5, PaymentPending, None)]);
    assert PaymentWithHash(t1.payments, "h1") == Some(1);
    assert ConfirmedTicket(t1.tickets[0], -5, 60) == t1.tickets[0].(amountPaidSats := -5);
  }

  /** Line 293 refuses only a missing, zero or non-numeric amount, and without an
   *  installment plan line 326 keeps the requested amount as it is: a negative invoice is
   *  stored, and once confirmed it lowers what the ticket has paid. */
  lemma NegativeInvoiceLowersPaid()
    ensures var t := UnpaidTicketTables();
            && WellFormed(t) && Reconciled(t) && WithinQuota(t)
            && var s1 := InvoiceStep(t, User(5, Attendee), 1, Some(-5), "", Some("h1"));
               && s1.reply.Ok? && s1.after.payments == [Payment(1, "h1", -5, PaymentPending, None)]
               && var s2 := WebhookStep(s1.after, "h1", 60);
                  s2.reply.Applied? && s2.after.tickets[0].amountPaidSats == -5 && !PaidNotLowered(t, s2.after)
  {
    NegativeInvoiceStored();
    NegativeInvoiceCredited();
  }

  /** Line 293 as evidently intended: the amount of an invoice must be positive. */
  function CheckedInvoiceStep(t: Tables, user: User, ticketId: nat, amount: Option<int>, memo: string,
                              minted: Option<string>)
    : (s: Step<Result<LightningInvoice, InvoiceError>>)
    requires WellFormed(t)
    ensures WellFormed(s.after)
    ensures s.reply == Err(InvalidAmount) <==> (amount.None? || amount.value <= 0)
    ensures amount.Some? && amount.value > 0 ==> s == InvoiceStep(t, user, ticketId, amount, memo, minted)
    ensures s.after.tickets == t.tickets
    ensures s.reply.Ok? ==> s.reply.value.amountSats > 0
    ensures NonNegativePayments(t) ==> NonNegativePayments(s.after)
  {
    if amount.Some? && amount.value < 0 then Step(Err(InvalidAmount), t)
    else InvoiceStep(t, user, ticketId, amount, memo, minted)
  }

  method CreateInvoice(db: Store.Database, user: User, ticketId: nat, amount: Option<int>, memo: string,
                       minted: Option<string>)
    returns (r: Result<LightningInvoice, InvoiceError>)
    requires db.Valid()
    modifies db
    ensures db.Valid()
    ensures Step(r, db.Snapshot()) == InvoiceStep(old(db.Snapshot()), user, ticketId, amount, memo, minted)
  {
    if amount.None? || amount.value == 0 {
      return Err(InvalidAmount);
    }
    if !HasPlannedTicket(db.Snapshot(), ticketId, user.id) {
      return Err(NoSuchTicket);
    }
    var tk := db.tickets[ticketId - 1];
    var sized := InvoiceAmount(tk, PlanOfTicket(db.Snapshot(), ticketId), amount.value);
    if sized.Err? {
      return Err(sized.error);
    }
    if minted.None? {
      return Err(GatewayFailed);
    }
    db.InsertPayment(Payment(ticketId, minted.value, sized.value, PaymentPending, None));
    r := Ok(LightningInvoice(minted.value, sized.value, InvoiceExpiry, InvoiceMemo(memo, tk.reference)));
  }

  // ===========================================================================
  // Webhook reconciliation (lines 399-496)

  datatype WebhookReply =
    | MissingHash
    | PaymentNotFound
    | AlreadyProcessed(paymentId: nat)
    | Applied(ticketId: nat, newStatus: TicketStatus, amountPaid: int, remaining: int)

  /** The installment plan after one more partial payment: counted and re-dated, or left as
   *  it was once the count would reach the total (lines 454-464). */
  function AdvancedPlan(ip: InstallmentPlan, now: int): InstallmentPlan {
    ip.(paymentsMade := ip.paymentsMade + 1, nextPaymentDue := now + Week)
  }

  /** Lines 447-473: the ticket row after a payment of `amount` is confirmed. */
  function ConfirmedTicket(tk: Ticket, amount: int, now: int): (r: Ticket)
    ensures r.amountPaidSats == tk.amountPaidSats + amount
    ensures r.amountPaidSats >= tk.totalAmountSats ==> r.status == Paid
    ensures 0 < r.amountPaidSats < tk.totalAmountSats ==> r.status == Partial
    ensures r.amountPaidSats <= 0 && r.amountPaidSats < tk.totalAmountSats ==> r.status == tk.status
    ensures r.installmentPlan != tk.installmentPlan <==>
      && 0 < r.amountPaidSats < tk.totalAmountSats && tk.installmentPlan.Some?
      && tk.installmentPlan.value.paymentsMade + 1 < tk.installmentPlan.value.totalInstallments
    ensures r.installmentPlan != tk.installmentPlan ==>
      r.installmentPlan == Some(AdvancedPlan(tk.installmentPlan.value, now))
    ensures r.(amountPaidSats := tk.amountPaidSats, status := tk.status, installmentPlan := tk.installmentPlan) == tk
  {
    var paid := tk.amountPaidSats + amount;
    if paid >= tk.totalAmountSats then tk.(amountPaidSats := paid, status := Paid)
    else if paid > 0 then
      var plan :=
        match tk.installmentPlan
        case Some(ip) =>
          if ip.paymentsMade + 1 < ip.totalInstallments then Some(AdvancedPlan(ip, now)) else tk.installmentPlan
        case None => None;
      tk.(amountPaidSats := paid, status := Partial, installmentPlan := plan)
    else tk.(amountPaidSats := paid)
  }

  /** Payment row k is marked paid, and its ticket credited with its amount. */
  function ApplyPayment(t: Tables, k: nat, now: int): Tables
    requires WellFormed(t) && 1 <= k <= |t.payments|
  {
    var p := t.payments[k - 1];
    var i := p.ticketId - 1;
    t.(payments := t.payments[k - 1 := p.(status := PaymentPaid, paidAt := Some(now))],
       tickets := t.tickets[i := ConfirmedTicket(t.tickets[i], p.amountSats, now)])
  }

  function WebhookStep(t: Tables, hash: string, now: int): (s: Step<WebhookReply>)
    requires WellFormed(t)
    ensures WellFormed(s.after)
    ensures !s.reply.Applied? ==> s.after == t
    ensures s.reply == MissingHash <==> hash == ""
    ensures s.reply == PaymentNotFound <==> hash != "" && PaymentWithHash(t.payments, hash).None?
    ensures s.reply.AlreadyProcessed? ==>
      && PaymentWithHash(t.payments, hash) == Some(s.reply.paymentId)
      && t.payments[s.reply.paymentId - 1].status == PaymentPaid
    ensures s.reply.Applied? ==>
      && hash != "" && PaymentWithHash(t.payments, hash).Some?
      && var k := PaymentWithHash(t.payments, hash).value;
         var p := t.payments[k - 1];
         && p.status == PaymentPending && s.reply.ticketId == p.ticketId
         && s.after == ApplyPayment(t, k, now)
         && s.reply.amountPaid == t.tickets[p.ticketId - 1].amountPaidSats + p.amountSats
         && s.reply.amountPaid == s.after.tickets[p.ticketId - 1].amountPaidSats
         && s.reply.newStatus == s.after.tickets[p.ticketId - 1].status
         && s.reply.remaining == t.tickets[p.ticketId - 1].totalAmountSats - s.reply.amountPaid
  {
    if hash == "" then Step(MissingHash, t)
    else match PaymentWithHash(t.payments, hash)
      case None => Step(PaymentNotFound, t)
      case Some(k) =>
        var p := t.payments[k - 1];
        if p.status == PaymentPaid then Step(AlreadyProcessed(k), t)
        else
          var tk := t.tickets[p.ticketId - 1];
          var tk' := ConfirmedTicket(tk, p.amountSats, now);
          Step(Applied(p.ticketId, tk'.status, tk'.amountPaidSats, tk.totalAmountSats - tk'.amountPaidSats),
               ApplyPayment(t, k, now))
  }

  /** A repeated delivery of the same confirmation is answered `already_processed` and
   *  changes nothing: each payment is credited at most once. */
  lemma WebhookIdempotent(t: Tables, hash: string, now1: int, now2: int)
    requires WellFormed(t)
    ensures var s1 := WebhookStep(t, hash, now1);
            var s2 := WebhookStep(s1.after, hash, now2);
            s2.after == s1.after && !s2.reply.Applied?
  {
    var s1 := WebhookStep(t, hash, now1);
    if s1.reply.Applied? {
      var k := PaymentWithHash(t.payments, hash).value;
      var p := t.payments[k - 1];
      PaymentWithHashUpdate(t.payments, k - 1, p.(status := PaymentPaid, paidAt := Some(now1)), hash);
      assert s1.after.payments[k - 1].status == PaymentPaid;
    }
  }

  /** Crediting a payment keeps every ticket's paid amount equal to the sum of its paid
   *  payment rows. */
  lemma WebhookKeepsReconciled(t: Tables, hash: string, now: int)
    requires WellFormed(t) && Reconciled(t)
    ensures Reconciled(WebhookStep(t, hash, now).after)
  {
    var s := WebhookStep(t, hash, now);
    if s.reply.Applied? {
      var k := PaymentWithHash(t.payments, hash).value;
      var p := t.payments[k - 1];
      var p' := p.(status := PaymentPaid, paidAt := Some(now));
      forall i | 0 <= i < |s.after.tickets|
        ensures s.after.tickets[i].amountPaidSats == SumPaid(s.after.payments, i + 1)
      {
        SumPaidUpdate(t.payments, k - 1, p', i + 1);
      }
    }
  }

  /** With no negative payment rows, confirmations never lower what a ticket has paid. */
  lemma WebhookNeverLowersPaid(t: Tables, hash: string, now: int)
    requires WellFormed(t) && NonNegativePayments(t)
    ensures var s := WebhookStep(t, hash, now);
            forall i :: 0 <= i < |t.tickets| ==> s.after.tickets[i].amountPaidSats >= t.tickets[i].amountPaidSats
  {
  }

  /** A confirmation never marks a ticket used, and leaves a plan's ticket count alone. */
  lemma WebhookKeepsQuotaAndUse(t: Tables, hash: string, now: int)
    requires WellFormed(t) && WithinQuota(t)
    ensures var s := WebhookStep(t, hash, now);
            && WithinQuota(s.after)
            && forall i :: 0 <= i < |t.tickets| && s.after.tickets[i].status == Used ==> t.tickets[i].status == Used
  {
    var s := WebhookStep(t, hash, now);
    if s.reply.Applied? {
      var k := PaymentWithHash(t.payments, hash).value;
      var i := t.payments[k - 1].ticketId - 1;
      forall p | 1 <= p <= |t.plans| ensures SoldCount(s.after.tickets, p) == SoldCount(t.tickets, p) {
        SoldCountUpdate(t.tickets, i, s.after.tickets[i], p);
      }
    }
  }

  /** The worked example of an installment ticket: price 9000 in three payments of 3000
   *  moves reserved -> partial -> partial -> paid and reaches exactly 9000; the stored
   *  installment counter stops at 2, because the last payment takes the paid branch. */
  lemma NineThousandInThreeInstallments(plan: TicketPlan, tk: Ticket, now: int)
    requires plan.priceSats == 9000 && plan.maxInstallments == 3
    requires tk.status == Reserved && tk.amountPaidSats == 0 && tk.totalAmountSats == 9000
    requires tk.installmentPlan == Some(PlanInstallments(plan, now))
    ensures PlanInstallments(plan, now).totalInstallments == 3
    ensures PlanInstallments(plan, now).installmentAmount == 3000
    ensures var t1 := ConfirmedTicket(tk, 3000, now);
            var t2 := ConfirmedTicket(t1, 3000, now);
            var t3 := ConfirmedTicket(t2, 3000, now);
            && t1.status == Partial && t2.status == Partial && t3.status == Paid
            && t3.amountPaidSats == 9000
            && t3.installmentPlan.value.paymentsMade == 2
  {
    var ip := PlanInstallments(plan, now);
    assert ip.totalInstallments == 3;
    assert 3 * (ip.installmentAmount - 1) < 9000 <= 3 * ip.installmentAmount;
  }

  /** A ticket paid in full, used at the gate, then credited by a second invoice created
   *  before it was used: the confirmation makes it 'paid' again and the gate admits it a
   *  second time. */
  lemma WebhookReopensUsedTicket()
    ensures var t := Tables([Event(7, "Concert", 100, "Dakar", 0)],
                            [TicketPlan(1, "standard", 1000, 10, false, 0, 0)],
                            [Ticket(5, 1, Some(1), "", "TKT-0000ABCD", 1000, 1000, Paid, None, None)],
                            [Payment(1, "h1", 1000, PaymentPaid, Some(50)), Payment(1, "h2", 1000, PaymentPending, None)],
                            []);
            var gate := User(7, Organizer);
            && WellFormed(t) && Reconciled(t) && WithinQuota(t)
            && var s1 := ValidateStep(t, gate, "TKT-0000ABCD", 60);
               var s2 := WebhookStep(s1.after, "h2", 70);
               var s3 := ValidateStep(s2.after, gate, "TKT-0000ABCD", 80);
               s1.reply == Admitted(1) && s2.reply.Applied? && s3.reply == Admitted(1)
  {
    var t := Tables([Event(7, "Concert", 100, "Dakar", 0)],
                    [TicketPlan(1, "standard", 1000, 10, false, 0, 0)],
                    [Ticket(5, 1, Some(1), "", "TKT-0000ABCD", 1000, 1000, Paid, None, None)],
                    [Payment(1, "h1", 1000, PaymentPaid, Some(50)), Payment(1, "h2", 1000, PaymentPending, None)],
                    []);
    assert SumPaid(t.payments, 1) == 1000 by {
      assert t.payments[..1][..0] == [];
      assert t.payments[..1] == [t.payments[0]];
    }
    assert SoldCount(t.tickets, 1) == 1 by {
      assert t.tickets[..0] == [];
    }
    var gate := User(7, Organizer);
    var s1 := ValidateStep(t, gate, "TKT-0000ABCD", 60);
    assert s1.reply == Admitted(1);
    assert PaymentWithHash(s1.after.payments, "h2") == Some(2) by {
      assert s1.after.payments[0].paymentHash != "h2";
    }
    var s2 := WebhookStep(s1.after, "h2", 70);
    assert s2.after.tickets[0].status == Paid;
  }

  /** Lines 447-473 as evidently intended: a confirmation still credits a ticket that was
   *  already used at the gate, and leaves it used. */
  function GuardedConfirmedTicket(tk: Ticket, amount: int, now: int): (r: Ticket)
    ensures r.amountPaidSats == tk.amountPaidSats + amount
    ensures tk.status == Used ==> r == tk.(amountPaidSats := r.amountPaidSats)
    ensures tk.status != Used ==> r == ConfirmedTicket(tk, amount, now)
  {
    if tk.status == Used then tk.(amountPaidSats := tk.amountPaidSats + amount)
    else ConfirmedTicket(tk, amount, now)
  }

  /** The webhook with the intended status update: same replies, same payment rows, same
   *  credited amounts, but a used ticket stays used. */
  function GuardedWebhookStep(t: Tables, hash: string, now: int): (s: Step<WebhookReply>)
    requires WellFormed(t)
    ensures WellFormed(s.after)
    ensures !s.reply.Applied? ==> s == WebhookStep(t, hash, now)
    ensures s.reply.Applied? <==> WebhookStep(t, hash, now).reply.Applied?
    ensures s.after.payments == WebhookStep(t, hash, now).after.payments
    ensures s.after.(tickets := t.tickets) == t.(payments := s.after.payments)
    ensures |s.after.tickets| == |t.tickets|
    ensures forall i :: 0 <= i < |t.tickets| ==>
      && s.after.tickets[i].amountPaidSats == WebhookStep(t, hash, now).after.tickets[i].amountPaidSats
      && s.after.tickets[i].planId == t.tickets[i].planId
      && s.after.tickets[i].eventId == t.tickets[i].eventId
      && s.after.tickets[i].reference == t.tickets[i].reference
      && (t.tickets[i].status == Used ==> s.after.tickets[i].status == Used)
      && (s.after.tickets[i].status == Used ==> t.tickets[i].status == Used)
  {
    var s := WebhookStep(t, hash, now);
    if !s.reply.Applied? then s
    else
      var k := PaymentWithHash(t.payments, hash).value;
      var p := t.payments[k - 1];
      var i := p.ticketId - 1;
      var tk := GuardedConfirmedTicket(t.tickets[i], p.amountSats, now);
      Step(s.reply.(newStatus := tk.status), s.after.(tickets := t.tickets[i := tk]))
  }

  lemma GuardedWebhookKeepsLedger(t: Tables, hash: string, now: int)
    requires WellFormed(t) && Reconciled(t) && WithinQuota(t)
    ensures Reconciled(GuardedWebhookStep(t, hash, now).after)
    ensures WithinQuota(GuardedWebhookStep(t, hash, now).after)
  {
    var s := GuardedWebhookStep(t, hash, now);
    WebhookKeepsReconciled(t, hash, now);
    if s.reply.Applied? {
      var k := PaymentWithHash(t.payments, hash).value;
      var i := t.payments[k - 1].ticketId - 1;
      assert s.after.tickets == t.tickets[i := s.after.tickets[i]];
      forall p | 1 <= p <= |t.plans| ensures SoldCount(s.after.tickets, p) == SoldCount(t.tickets, p) {
        SoldCountUpdate(t.tickets, i, s.after.tickets[i], p);
      }
    }
  }

  /** The guarded webhook leaves what the gate looks at in place: the ticket found by a
   *  reference, its event and a used status. */
  lemma GuardedWebhookKeepsGateView(t: Tables, hash: string, now: int, reference: string)
    requires WellFormed(t)
    ensures var t2 := GuardedWebhookStep(t, hash, now).after;
            && TicketWithReference(t2.tickets, reference) == TicketWithReference(t.tickets, reference)
            && t2.events == t.events
  {
    var s := GuardedWebhookStep(t, hash, now);
    if s.reply.Applied? {
      var j := PaymentWithHash(t.payments, hash).value;
      var i := t.payments[j - 1].ticketId - 1;
      assert s.after.tickets == t.tickets[i := s.after.tickets[i]];
      TicketWithReferenceUpdate(t.tickets, i, s.after.tickets[i], reference);
    }
  }

  lemma UsedTicketRefused(t: Tables, user: User, reference: string, now: int)
    requires WellFormed(t) && user.role == Organizer
    requires TicketWithReference(t.tickets, reference).Some?
    requires OrganizerOf(t, TicketWithReference(t.tickets, reference).value) == user.id
    requires t.tickets[TicketWithReference(t.tickets, reference).value - 1].status == Used
    ensures ValidateStep(t, user, reference, now).reply == Refused("Ticket annulé")
  {
  }

  /** With the intended update, a ticket admitted once is refused afterwards even when a
   *  further payment is confirmed in between. */
  lemma GuardedValidateOnce(t: Tables, user: User, reference: string, hash: string, now1: int, now2: int, now3: int)
    requires WellFormed(t)
    requires ValidateStep(t, user, reference, now1).reply.Admitted?
    ensures var s1 := ValidateStep(t, user, reference, now1);
            var s2 := GuardedWebhookStep(s1.after, hash, now2);
            ValidateStep(s2.after, user, reference, now3).reply == Refused("Ticket annulé")
  {
    var s1 := ValidateStep(t, user, reference, now1);
    var k := s1.reply.ticketId;
    TicketWithReferenceUpdate(t.tickets, k - 1, s1.after.tickets[k - 1], reference);
    var t1 := s1.after;
    assert TicketWithReference(t1.tickets, reference) == Some(k);
    assert OrganizerOf(t1, k) == user.id;
    var t2 := GuardedWebhookStep(t1, hash, now2).after;
    GuardedWebhookKeepsGateView(t1, hash, now2, reference);
    assert t2.tickets[k - 1].status == Used;
    assert OrganizerOf(t2, k) == user.id;
    UsedTicketRefused(t2, user, reference, now3);
  }

  method OnWebhook(db: Store.Database, hash: string, now: int) returns (r: WebhookReply)
    requires db.Valid()
    modifies db
    ensures db.Valid()
    ensures Step(r, db.Snapshot()) == WebhookStep(old(db.Snapshot()), hash, now)
  {
    if hash == "" {
      return MissingHash;
    }
    var found := PaymentWithHash(db.payments, hash);
    if found.None? {
      return PaymentNotFound;
    }
    var k := found.value;
    var p := db.payments[k - 1];
    if p.status == PaymentPaid {
      return AlreadyProcessed(k);
    }
    db.UpdatePayment(k, p.(status := PaymentPaid, paidAt := Some(now)));
    var tk := db.tickets[p.ticketId - 1];
    assert TicketLinks(db.Snapshot(), tk);
    var paid := tk.amountPaidSats + p.amountSats;
    var status := tk.status;
    if paid >= tk.totalAmountSats {
      status := Paid;
    } else if paid > 0 {
      status := Partial;
      if tk.installmentPlan.Some? {
        var plan := tk.installmentPlan.value;
        plan := plan.(paymentsMade := plan.paymentsMade + 1);
        if plan.paymentsMade < plan.totalInstallments {
          plan := plan.(nextPaymentDue := now + Week);
          db.UpdateTicket(p.ticketId, tk.(installmentPlan := Some(plan)));
        }
      }
    }
    var row := db.tickets[p.ticketId - 1];
    db.UpdateTicket(p.ticketId, row.(amountPaidSats := paid, status := status));
    r := Applied(p.ticketId, status, paid, tk.totalAmountSats - paid);
  }

  // ===========================================================================
  // Gate validation (lines 499-573)

  datatype GateReply = AccessDenied | TicketNotFound | NotAuthorized | Refused(reason: string) | Admitted(ticketId: nat)

  /** `ticket.status === 'pending' ? 'Paiement incomplet' : 'Ticket annulé'` */
  function RefusalReason(status: TicketStatus): string {
    if status == Pending then "Paiement incomplet" else "Ticket annulé"
  }

  /** `e.user_id as organizer_id` for a ticket. */
  function OrganizerOf(t: Tables, ticketId: nat): nat
    requires WellFormed(t) && 1 <= ticketId <= |t.tickets|
  {
    assert TicketLinks(t, t.tickets[ticketId - 1]);
    t.events[t.tickets[ticketId - 1].eventId - 1].ownerId
  }

  function ValidateStep(t: Tables, user: User, reference: string, now: int): (s: Step<GateReply>)
    requires WellFormed(t)
    ensures WellFormed(s.after)
    ensures !s.reply.Admitted? ==> s.after == t
    ensures s.reply == AccessDenied <==> user.role != Organizer
    ensures s.reply == TicketNotFound <==> user.role == Organizer && TicketWithReference(t.tickets, reference).None?
    ensures s.reply.Admitted? <==>
      && user.role == Organizer && TicketWithReference(t.tickets, reference).Some?
      && OrganizerOf(t, TicketWithReference(t.tickets, reference).value) == user.id
      && t.tickets[TicketWithReference(t.tickets, reference).value - 1].status == Paid
    ensures s.reply == NotAuthorized <==>
      && user.role == Organizer && TicketWithReference(t.tickets, reference).Some?
      && OrganizerOf(t, TicketWithReference(t.tickets, reference).value) != user.id
    ensures s.reply.Refused? <==>
      && user.role == Organizer && TicketWithReference(t.tickets, reference).Some?
      && OrganizerOf(t, TicketWithReference(t.tickets, reference).value) == user.id
      && t.tickets[TicketWithReference(t.tickets, reference).value - 1].status != Paid
    ensures s.reply.Refused? ==>
      && TicketWithReference(t.tickets, reference).Some?
      && var tk := t.tickets[TicketWithReference(t.tickets, reference).value - 1];
         s.reply.reason == RefusalReason(tk.status)
    ensures s.reply.Admitted? ==>
      && Some(s.reply.ticketId) == TicketWithReference(t.tickets, reference)
      && var tk := t.tickets[s.reply.ticketId - 1];
         s.after == t.(tickets := t.tickets[s.reply.ticketId - 1 := tk.(status := Used, usedAt := Some(now))])
    ensures forall i :: 0 <= i < |t.tickets| && s.after.tickets[i] != t.tickets[i] ==>
      t.tickets[i].status == Paid && s.after.tickets[i].status == Used
  {
    if user.role != Organizer then Step(AccessDenied, t)
    else match TicketWithReference(t.tickets, reference)
      case None => Step(TicketNotFound, t)
      case Some(k) =>
        var tk := t.tickets[k - 1];
        if OrganizerOf(t, k) != user.id then Step(NotAuthorized, t)
        else if tk.status != Paid then Step(Refused(RefusalReason(tk.status)), t)
        else Step(Admitted(k), t.(tickets := t.tickets[k - 1 := tk.(status := Used, usedAt := Some(now))]))
  }

  /** A ticket is admitted once: presenting the same reference again is refused, with the
   *  reason 'Ticket annulé', and changes nothing. */
  lemma ValidateOnce(t: Tables, user: User, reference: string, now1: int, now2: int)
    requires WellFormed(t)
    requires ValidateStep(t, user, reference, now1).reply.Admitted?
    ensures var s1 := ValidateStep(t, user, reference, now1);
            ValidateStep(s1.after, user, reference, now2) == Step(Refused("Ticket annulé"), s1.after)
  {
    var s1 := ValidateStep(t, user, reference, now1);
    var k := s1.reply.ticketId;
    TicketWithReferenceUpdate(t.tickets, k - 1, s1.after.tickets[k - 1], reference);
  }

  lemma ValidateKeepsLedger(t: Tables, user: User, reference: string, now: int)
    requires WellFormed(t) && Reconciled(t) && WithinQuota(t)
    ensures Reconciled(ValidateStep(t, user, reference, now).after)
    ensures WithinQuota(ValidateStep(t, user, reference, now).after)
  {
    var s := ValidateStep(t, user, reference, now);
    if s.reply.Admitted? {
      var i := s.reply.ticketId - 1;
      forall p | 1 <= p <= |t.plans| ensures SoldCount(s.after.tickets, p) == SoldCount(t.tickets, p) {
        SoldCountUpdate(t.tickets, i, s.after.tickets[i], p);
      }
    }
  }

  method ValidateTicket(db: Store.Database, user: User, reference: string, now: int) returns (r: GateReply)
    requires db.Valid()
    modifies db
    ensures db.Valid()
    ensures Step(r, db.Snapshot()) == ValidateStep(old(db.Snapshot()), user, reference, now)
  {
    if user.role != Organizer {
      return AccessDenied;
    }
    var found := TicketWithReference(db.tickets, reference);
    if found.None? {
      return TicketNotFound;
    }
    var k := found.value;
    var tk := db.tickets[k - 1];
    if OrganizerOf(db.Snapshot(), k) != user.id {
      return NotAuthorized;
    }
    if tk.status != Paid {
      return Refused(RefusalReason(tk.status));
    }
    assert TicketLinks(db.Snapshot(), tk);
    db.UpdateTicket(k, tk.(status := Used, usedAt := Some(now)));
    r := Admitted(k);
  }
}
