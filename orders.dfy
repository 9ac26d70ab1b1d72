/** backend/routes/payments.js: partial payments against an order. The order row's
 *  `paid_amount_sats` is incremented in place with the amount the client reports, once
 *  LNbits says the invoice is paid, and the order is marked paid when it is covered. */
module Orders {

  /** `status TEXT DEFAULT 'pending'`; the handler only ever writes `"paid"`. */
  datatype OrderStatus = OrderPending | OrderPaid

  datatype Order = Order(ticketId: nat, userId: nat, totalSats: int, paidAmountSats: int, status: OrderStatus)

  datatype PartialReply = NotReceived | OrderMissing | RemainingSats(remaining: int)

  /** Lines 16-29: the order after `amount` more sats are reported. */
  function CreditedOrder(o: Order, amount: int): (r: Order)
    ensures r.paidAmountSats == o.paidAmountSats + amount
    ensures r.status == OrderPaid <==> (r.paidAmountSats >= o.totalSats || o.status == OrderPaid)
    ensures r.(paidAmountSats := o.paidAmountSats, status := o.status) == o
  {
    var paid := o.paidAmountSats + amount;
    o.(paidAmountSats := paid, status := if paid >= o.totalSats then OrderPaid else o.status)
  }

  /** The handler on the `orders` table; `invoicePaid` is LNbits' answer for the hash. */
  function PartialPaymentStep(orders: map<nat, Order>, orderId: nat, amount: int, invoicePaid: bool)
    : (r: (PartialReply, map<nat, Order>))
    ensures !invoicePaid ==> r == (NotReceived, orders)
    ensures r.0 == OrderMissing <==> invoicePaid && orderId !in orders
    ensures r.0.RemainingSats? <==> invoicePaid && orderId in orders
    ensures r.0.RemainingSats? ==>
      && r.1 == orders[orderId := CreditedOrder(orders[orderId], amount)]
      && r.0.remaining == orders[orderId].totalSats - r.1[orderId].paidAmountSats
    ensures !r.0.RemainingSats? ==> r.1 == orders
  {
    if !invoicePaid then (NotReceived, orders)
    else if orderId !in orders then (OrderMissing, orders)
    else
      var o := CreditedOrder(orders[orderId], amount);
      (RemainingSats(o.totalSats - o.paidAmountSats), orders[orderId := o])
  }

  /** Nothing ties a report to its invoice: the same paid hash reported twice is credited
   *  twice. */
  lemma ReplayCreditsTwice(orders: map<nat, Order>, orderId: nat, amount: int)
    requires orderId in orders
    ensures var once := PartialPaymentStep(orders, orderId, amount, true).1;
            var twice := PartialPaymentStep(once, orderId, amount, true).1;
            twice[orderId].paidAmountSats == orders[orderId].paidAmountSats + 2 * amount
  {
  }

  /** A paid order stays paid, whatever is reported afterwards. */
  lemma PaidOrderStaysPaid(orders: map<nat, Order>, orderId: nat, amount: int, invoicePaid: bool, id: nat)
    requires id in orders && orders[id].status == OrderPaid
    ensures var after := PartialPaymentStep(orders, orderId, amount, invoicePaid).1;
            id in after && after[id].status == OrderPaid
  {
  }

  class OrderBook {
    var orders: map<nat, Order>

    constructor ()
      ensures orders == map[]
    {
      orders := map[];
    }

    method RecordPartialPayment(orderId: nat, amount: int, invoicePaid: bool) returns (r: PartialReply)
      modifies this
      ensures (r, orders) == PartialPaymentStep(old(orders), orderId, amount, invoicePaid)
    {
      if !invoicePaid {
        return NotReceived;
      }
      if orderId !in orders {
        return OrderMissing;
      }
      ghost var credited := CreditedOrder(orders[orderId], amount);
      // UPDATE orders SET paid_amount_sats = paid_amount_sats + ? WHERE id = ?
      orders := orders[orderId := orders[orderId].(paidAmountSats := orders[orderId].paidAmountSats + amount)];
      var order := orders[orderId];
      if order.paidAmountSats >= order.totalSats {
        orders := orders[orderId := order.(status := OrderPaid)];
      }
      assert orders == old(orders)[orderId := credited];
      r := RemainingSats(order.totalSats - order.paidAmountSats);
    }
  }
}
