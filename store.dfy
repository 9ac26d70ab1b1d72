/** The SQLite database the route files share, as one object whose tables the
 *  handlers change in place. Each method below is one INSERT or UPDATE statement. */
module Store {
  import opened Schema

  class Database {
    var events: seq<Event>
    var plans: seq<TicketPlan>
    var tickets: seq<Ticket>
    var payments: seq<Payment>
    var invoices: seq<Invoice>

    /** The tables as a value. */
    function Snapshot(): Tables
      reads this
    {
      Tables(events, plans, tickets, payments, invoices)
    }

    predicate Valid()
      reads this
    {
      WellFormed(Snapshot())
    }

    constructor ()
      ensures Valid() && Snapshot() == Tables([], [], [], [], [])
    {
      events, plans, tickets, payments, invoices := [], [], [], [], [];
    }

    /** INSERT INTO events ...; returns `lastID`. */
    method InsertEvent(e: Event) returns (id: nat)
      requires Valid()
      modifies this
      ensures Valid()
      ensures id == |old(events)| + 1
      ensures Snapshot() == old(Snapshot()).(events := old(events) + [e])
    {
      events := events + [e];
      id := |events|;
    }

    /** INSERT INTO ticket_plans ...; the plan's event must exist. */
    method InsertPlan(p: TicketPlan) returns (id: nat)
      requires Valid() && 1 <= p.eventId <= |events|
      modifies this
      ensures Valid()
      ensures id == |old(plans)| + 1
      ensures Snapshot() == old(Snapshot()).(plans := old(plans) + [p])
    {
      plans := plans + [p];
      id := |plans|;
    }

    /** INSERT INTO tickets ...; returns `lastID`. */
    method InsertTicket(tk: Ticket) returns (id: nat)
      requires Valid() && TicketLinks(Snapshot(), tk)
      modifies this
      ensures Valid()
      ensures id == |old(tickets)| + 1
      ensures Snapshot() == old(Snapshot()).(tickets := old(tickets) + [tk])
    {
      tickets := tickets + [tk];
      id := |tickets|;
    }

    /** UPDATE tickets SET ... WHERE id = ? */
    method UpdateTicket(id: nat, tk: Ticket)
      requires Valid() && 1 <= id <= |tickets| && TicketLinks(Snapshot(), tk)
      modifies this
      ensures Valid()
      ensures Snapshot() == old(Snapshot()).(tickets := old(tickets)[id - 1 := tk])
    {
      tickets := tickets[id - 1 := tk];
    }

    /** INSERT INTO payments ...; the payment's ticket must exist. */
    method InsertPayment(p: Payment)
      requires Valid() && 1 <= p.ticketId <= |tickets|
      modifies this
      ensures Valid()
      ensures Snapshot() == old(Snapshot()).(payments := old(payments) + [p])
    {
      payments := payments + [p];
    }

    /** UPDATE payments SET ... WHERE id = ? */
    method UpdatePayment(id: nat, p: Payment)
      requires Valid() && 1 <= id <= |payments| && 1 <= p.ticketId <= |tickets|
      modifies this
      ensures Valid()
      ensures Snapshot() == old(Snapshot()).(payments := old(payments)[id - 1 := p])
    {
      payments := payments[id - 1 := p];
    }

    /** INSERT INTO invoices ...; the invoice's ticket must exist. */
    method InsertInvoice(inv: Invoice)
      requires Valid() && 1 <= inv.ticketId <= |tickets|
      modifies this
      ensures Valid()
      ensures Snapshot() == old(Snapshot()).(invoices := old(invoices) + [inv])
    {
      invoices := invoices + [inv];
    }
  }
}
