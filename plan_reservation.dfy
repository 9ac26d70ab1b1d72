/** backend/src/routes/payments.route.js: the earlier reservation handler. It looks the plan
 *  up by id and event and attaches the same installment plan as tickets.route.js, but it
 *  neither counts the tickets already sold nor checks that the event is still ahead. */
module PlanReservation {
  import opened Schema
  import Tickets
  import Store

  datatype Refusal = InvalidPlan | InstallmentNotAllowed

  /** Lines 12-82 as written. */
  function ReserveStep(t: Tables, user: User, eventId: nat, planId: nat,
                       paymentMethod: Tickets.PaymentMethod, uuid: string, now: int)
    : (s: Step<Result<Tickets.Reservation, Refusal>>)
    requires WellFormed(t)
    ensures WellFormed(s.after)
    ensures s.reply.Err? ==> s.after == t
    ensures s.reply == Err(InvalidPlan) <==> !IsPlanOf(t, planId, eventId)
    ensures s.reply.Ok? <==>
      IsPlanOf(t, planId, eventId)
      && (paymentMethod == Tickets.InstallmentPayment ==> t.plans[planId - 1].installmentAllowed)
    ensures s.reply.Ok? ==>
      |s.after.tickets| == |t.tickets| + 1 &&
      var tk := s.after.tickets[|t.tickets|];
      && s.after == t.(tickets := t.tickets + [tk])
      && s.reply.value.ticketId == |t.tickets| + 1
      && tk.status == Reserved && tk.amountPaidSats == 0
      && tk.userId == user.id && tk.eventId == eventId && tk.planId == Some(planId)
      && tk.totalAmountSats == t.plans[planId - 1].priceSats == s.reply.value.totalAmount
      && tk.reference == Tickets.TicketReference(uuid) == s.reply.value.reference
      && s.reply.value.paymentMethod == paymentMethod
      && tk.installmentPlan == s.reply.value.installmentPlan
      && (tk.installmentPlan.Some? <==> paymentMethod == Tickets.InstallmentPayment)
      && (tk.installmentPlan.Some? ==> tk.installmentPlan.value == Tickets.PlanInstallments(t.plans[planId - 1], now))
  {
    if !IsPlanOf(t, planId, eventId) then Step(Err(InvalidPlan), t)
    else
      var plan := t.plans[planId - 1];
      if paymentMethod == Tickets.InstallmentPayment && !plan.installmentAllowed then
        Step(Err(InstallmentNotAllowed), t)
      else
        var tk := Tickets.ReservedTicket(user, eventId, planId, plan, paymentMethod, uuid, now);
        Step(Ok(Tickets.Reservation(|t.tickets| + 1, tk.reference, tk.totalAmountSats, paymentMethod,
                                    tk.installmentPlan)),
             t.(tickets := t.tickets + [tk]))
  }

  lemma ReserveKeepsReconciled(t: Tables, user: User, eventId: nat, planId: nat,
                               paymentMethod: Tickets.PaymentMethod, uuid: string, now: int)
    requires WellFormed(t) && Reconciled(t)
    ensures Reconciled(ReserveStep(t, user, eventId, planId, paymentMethod, uuid, now).after)
  {
    var s := ReserveStep(t, user, eventId, planId, paymentMethod, uuid, now);
    if s.reply.Ok? {
      AppendTicketKeepsLedger(t, s.after.tickets[|t.tickets|]);
    }
  }

  /** A plan with one seat, already taken, is sold a second time. */
  lemma ReservationOversells()
    ensures var t := Tables([Event(7, "Concert", 100, "Dakar", 0)],
                            [TicketPlan(1, "standard", 1000, 1, false, 0, 0)],
                            [Ticket(2, 1, Some(1), "", "TKT-0000AAAA", 1000, 0, Reserved, None, None)],
                            [], []);
            && WellFormed(t) && WithinQuota(t)
            && var s := ReserveStep(t, User(3, Attendee), 1, 1, Tickets.FullPayment, "0000bbbb", 0);
               s.reply.Ok? && SoldCount(s.after.tickets, 1) == 2 && !WithinQuota(s.after)
  {
    var t := Tables([Event(7, "Concert", 100, "Dakar", 0)],
                    [TicketPlan(1, "standard", 1000, 1, false, 0, 0)],
                    [Ticket(2, 1, Some(1), "", "TKT-0000AAAA", 1000, 0, Reserved, None, None)],
                    [], []);
    assert SoldCount(t.tickets, 1) == 1 by {
      assert t.tickets[..0] == [];
    }
    var s := ReserveStep(t, User(3, Attendee), 1, 1, Tickets.FullPayment, "0000bbbb", 0);
    assert s.after.tickets[..1] == t.tickets;
  }

  /** The handler with the sold-out check of tickets.route.js (lines 137-148). */
  function CheckedReserveStep(t: Tables, user: User, eventId: nat, planId: nat,
                              paymentMethod: Tickets.PaymentMethod, uuid: string, now: int)
    : (s: Step<Result<Tickets.Reservation, Tickets.ReserveError>>)
    requires WellFormed(t)
    ensures WellFormed(s.after)
    ensures s.reply.Err? ==> s.after == t
    ensures s.reply.Ok? ==> IsPlanOf(t, planId, eventId) && SoldCount(t.tickets, planId) < t.plans[planId - 1].quantity
    ensures WithinQuota(t) ==> WithinQuota(s.after)
    ensures s.reply.Ok? <==>
      IsPlanOf(t, planId, eventId) && SoldCount(t.tickets, planId) < t.plans[planId - 1].quantity
      && (paymentMethod == Tickets.InstallmentPayment ==> t.plans[planId - 1].installmentAllowed)
    ensures s.reply.Ok? ==> s == (var r := ReserveStep(t, user, eventId, planId, paymentMethod, uuid, now);
                                  Step(Ok(r.reply.value), r.after))
  {
    if !IsPlanOf(t, planId, eventId) then Step(Err(Tickets.InvalidPlan), t)
    else if SoldCount(t.tickets, planId) >= t.plans[planId - 1].quantity then Step(Err(Tickets.SoldOut), t)
    else
      var s := ReserveStep(t, user, eventId, planId, paymentMethod, uuid, now);
      match s.reply
      case Err(_) => Step(Err(Tickets.InstallmentNotAllowed), t)
      case Ok(r) =>
        assert WithinQuota(t) ==> WithinQuota(s.after) by {
          if WithinQuota(t) {
            var tk := s.after.tickets[|t.tickets|];
            forall p | 1 <= p <= |s.after.plans|
              ensures SoldCount(s.after.tickets, p) == 0 || SoldCount(s.after.tickets, p) <= s.after.plans[p - 1].quantity
            {
              SoldCountAppend(t.tickets, tk, p);
            }
          }
        }
        Step(Ok(r), s.after)
  }

  method Reserve(db: Store.Database, user: User, eventId: nat, planId: nat,
                 paymentMethod: Tickets.PaymentMethod, uuid: string, now: int)
    returns (r: Result<Tickets.Reservation, Refusal>)
    requires db.Valid()
    modifies db
    ensures db.Valid()
    ensures Step(r, db.Snapshot()) == ReserveStep(old(db.Snapshot()), user, eventId, planId, paymentMethod, uuid, now)
  {
    if !IsPlanOf(db.Snapshot(), planId, eventId) {
      return Err(InvalidPlan);
    }
    var plan := db.plans[planId - 1];
    if paymentMethod == Tickets.InstallmentPayment && !plan.installmentAllowed {
      return Err(InstallmentNotAllowed);
    }
    var reference := Tickets.TicketReference(uuid);
    var installmentPlan: Option<InstallmentPlan> := None;
    if paymentMethod == Tickets.InstallmentPayment {
      installmentPlan := Some(Tickets.PlanInstallments(plan, now));
    }
    var id := db.InsertTicket(Ticket(user.id, eventId, Some(planId), "", reference, plan.priceSats, 0,
                                     Reserved, installmentPlan, None));
    r := Ok(Tickets.Reservation(id, reference, plan.priceSats, paymentMethod, installmentPlan));
  }
}
