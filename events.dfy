/** backend/src/routes/events.route.js: the validation middleware for a new event, event
 *  creation with its ticket plans, and the status shown on the organizer's event list. */
module Events {
  import opened Schema
  import Store

  /** A plan of the request body. `isNaN` coerces its argument to a number; None stands
   *  for a value that becomes NaN, Some(n) for one that becomes n. */
  datatype PlanInput = PlanInput(planType: string, priceSats: Option<int>, quantity: Option<int>)

  /** The request body; a missing string is "", a missing date None, a missing
   *  `ticket_plans` the empty sequence. */
  datatype EventInput = EventInput(name: string, date: Option<int>, location: string,
                                   ticketPlans: seq<PlanInput>)

  datatype EventRejection = MissingFields | NoTicketPlans | InvalidTicketPlan | NotOrganizer

  /** `plan.type && !isNaN(plan.price_sats) && !isNaN(plan.quantity)` */
  predicate ValidPlan(p: PlanInput) {
    p.planType != "" && p.priceSats.Some? && p.quantity.Some?
  }

  /** The loop at lines 72-78, which returns at the first invalid plan. */
  function PlansValid(ps: seq<PlanInput>): (ok: bool)
    ensures ok <==> forall j :: 0 <= j < |ps| ==> ValidPlan(ps[j])
  {
    if ps == [] then true
    else if !ValidPlan(ps[0]) then false
    else
      var rest := PlansValid(ps[1..]);
      assert forall j :: 1 <= j < |ps| ==> ps[j] == ps[1..][j - 1];
      rest
  }

  predicate HasRequiredFields(input: EventInput) {
    input.name != "" && input.date.Some? && input.location != ""
  }

  /** `validateEventInput` (lines 56-81): the body reaches the handler unchanged exactly
   *  when it names the event, its date and place, and at least one plan, every plan
   *  having a type, a numeric price and a numeric quantity. */
  function ValidateEventInput(input: EventInput): (r: Result<EventInput, EventRejection>)
    ensures r.Ok? ==> r.value == input
    ensures r == Err(MissingFields) <==> !HasRequiredFields(input)
    ensures r == Err(NoTicketPlans) <==> HasRequiredFields(input) && |input.ticketPlans| == 0
    ensures r.Ok? <==>
      HasRequiredFields(input) && |input.ticketPlans| > 0
      && forall j :: 0 <= j < |input.ticketPlans| ==> ValidPlan(input.ticketPlans[j])
    ensures r.Err? ==> r.error != NotOrganizer
  {
    if !HasRequiredFields(input) then Err(MissingFields)
    else if |input.ticketPlans| == 0 then Err(NoTicketPlans)
    else if !PlansValid(input.ticketPlans) then Err(InvalidTicketPlan)
    else Ok(input)
  }

  /** Line 179: `new Date(event.date) > now ? 'À venir' : 'Terminé'` */
  function EventStatus(date: int, now: int): (s: string)
    ensures s == "À venir" <==> date > now
    ensures s == "À venir" || s == "Terminé"
  {
    if date > now then "À venir" else "Terminé"
  }

  /** Lines 113-119: only type, price and quantity are inserted, so a new plan allows no
   *  installments and has no installment bounds. */
  function NewPlan(eventId: nat, p: PlanInput): TicketPlan
    requires ValidPlan(p)
  {
    TicketPlan(eventId, p.planType, p.priceSats.value, p.quantity.value, false, 0, 0)
  }

  function NewPlans(eventId: nat, ps: seq<PlanInput>): seq<TicketPlan>
    requires forall j :: 0 <= j < |ps| ==> ValidPlan(ps[j])
  {
    seq(|ps|, j requires 0 <= j < |ps| => NewPlan(eventId, ps[j]))
  }

  /** POST /events: validation, then the organizer check (lines 88-90), then the event row
   *  (lines 103-108, where no price is given, which JavaScript compares as 0) and one plan
   *  row per requested plan. */
  function CreateEventStep(t: Tables, user: User, input: EventInput): (s: Step<Result<nat, EventRejection>>)
    requires WellFormed(t)
    ensures WellFormed(s.after)
    ensures s.reply.Err? ==> s.after == t
    ensures s.reply.Err? && s.reply.error != NotOrganizer ==> ValidateEventInput(input) == Err(s.reply.error)
    ensures s.reply == Err(NotOrganizer) <==> ValidateEventInput(input).Ok? && user.role != Organizer
    ensures s.reply.Ok? <==> ValidateEventInput(input).Ok? && user.role == Organizer
    ensures s.reply.Ok? ==>
      && s.reply.value == |t.events| + 1
      && s.after.events == t.events + [Event(user.id, input.name, input.date.value, input.location, 0)]
      && |s.after.plans| == |t.plans| + |input.ticketPlans| && s.after.plans[..|t.plans|] == t.plans
      && (forall j :: 0 <= j < |input.ticketPlans| ==>
            var p := s.after.plans[|t.plans| + j];
            && p.eventId == s.reply.value && p.planType == input.ticketPlans[j].planType
            && Some(p.priceSats) == input.ticketPlans[j].priceSats
            && Some(p.quantity) == input.ticketPlans[j].quantity
            && !p.installmentAllowed)
      && s.after.tickets == t.tickets && s.after.payments == t.payments && s.after.invoices == t.invoices
  {
    match ValidateEventInput(input)
    case Err(e) => Step(Err(e), t)
    case Ok(_) =>
      if user.role != Organizer then Step(Err(NotOrganizer), t)
      else
        var eventId := |t.events| + 1;
        var after := t.(events := t.events + [Event(user.id, input.name, input.date.value, input.location, 0)],
                        plans := t.plans + NewPlans(eventId, input.ticketPlans));
        assert after.plans[..|t.plans|] == t.plans;
        Step(Ok(eventId), after)
  }

  lemma {:induction false} SoldCountUnreferenced(ts: seq<Ticket>, planId: nat)
    requires forall j :: 0 <= j < |ts| ==> ts[j].planId != Some(planId)
    ensures SoldCount(ts, planId) == 0
  {
    if ts != [] {
      SoldCountUnreferenced(ts[..|ts| - 1], planId);
    }
  }

  /** A new event's plans hold no tickets, so the ledger invariants survive its creation. */
  lemma CreateEventKeepsLedger(t: Tables, user: User, input: EventInput)
    requires WellFormed(t) && Reconciled(t) && WithinQuota(t)
    ensures Reconciled(CreateEventStep(t, user, input).after)
    ensures WithinQuota(CreateEventStep(t, user, input).after)
  {
    var s := CreateEventStep(t, user, input);
    if s.reply.Ok? {
      forall p | |t.plans| < p <= |s.after.plans|
        ensures SoldCount(s.after.tickets, p) == 0
      {
        forall j | 0 <= j < |t.tickets| ensures t.tickets[j].planId != Some(p) {
          assert TicketLinks(t, t.tickets[j]);
        }
        SoldCountUnreferenced(t.tickets, p);
      }
      forall i | 0 <= i < |t.plans| ensures s.after.plans[i] == t.plans[i] {
        assert s.after.plans[..|t.plans|][i] == s.after.plans[i];
      }
    }
  }

  method CreateEvent(db: Store.Database, user: User, input: EventInput) returns (r: Result<nat, EventRejection>)
    requires db.Valid()
    modifies db
    ensures db.Valid()
    ensures Step(r, db.Snapshot()) == CreateEventStep(old(db.Snapshot()), user, input)
  {
    var checked := ValidateEventInput(input);
    if checked.Err? {
      return Err(checked.error);
    }
    if user.role != Organizer {
      return Err(NotOrganizer);
    }
    var eventId := db.InsertEvent(Event(user.id, input.name, input.date.value, input.location, 0));
    var plans := input.ticketPlans;
    for i := 0 to |plans|
      invariant db.Valid() && 1 <= eventId <= |db.events|
      invariant db.Snapshot() == old(db.Snapshot()).(
                  events := old(db.events) + [Event(user.id, input.name, input.date.value, input.location, 0)],
                  plans := old(db.plans) + NewPlans(eventId, plans[..i]))
    {
      var plan := plans[i];
      var planId := db.InsertPlan(TicketPlan(eventId, plan.planType, plan.priceSats.value, plan.quantity.value,
                                             false, 0, 0));
      assert NewPlans(eventId, plans[..i + 1]) == NewPlans(eventId, plans[..i]) + [NewPlan(eventId, plan)];
    }
    assert plans[..|plans|] == plans;
    r := Ok(eventId);
  }
}
