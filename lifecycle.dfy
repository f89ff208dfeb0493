/** An order's path through the record transforms of the other modules:
    drafted by the checkout route, confirmed by the checkout-completed
    webhook, stamped by the batch shipment, marked delivered and activated. */
module Lifecycle {
  import opened Base
  import opened Store
  import Cart
  import CheckoutRoute
  import Webhook
  import Batching
  import Orders
  import Activation

  /** Along the whole path the order keeps its session id and order date,
      gains each stamp once, and when it reaches the activation route it
      passes the route's guard (given a non-empty session id). */
  lemma OrderLifecycle(orderNumber: string, userId: string, item: Cart.CartItem, address: Address,
                       phone: Option<string>, sessionId: string, today: Date,
                       s: Webhook.CompletedSession, subscriptionId: string, batchId: string, batchNumber: string,
                       tOrdered: nat, tConfirmed: nat, tShipped: nat, tDelivered: nat, tActivated: nat,
                       orders: map<string, Order>)
    requires s.id == sessionId && sessionId != "" && subscriptionId != ""
    ensures
      var draft := CheckoutRoute.DraftOrder(orderNumber, userId, item, address, phone, sessionId, tOrdered, today);
      var confirmed := Webhook.ConfirmedOrder(draft, s, subscriptionId, tConfirmed);
      var staged := Batching.ShipmentStamp(confirmed, batchId, batchNumber, tShipped);
      var delivered := Orders.DeliveredOrder(staged, tDelivered);
      var activated := ActivatedOrder(delivered, tActivated);
      && Activation.Rejection(orders[sessionId := delivered], Some(sessionId)).None?
      && activated.status == Activated
      && activated.stripe.checkoutSessionId == sessionId
      && activated.stripe.subscriptionId == Some(subscriptionId)
      && activated.timeline == Timeline(tOrdered, Some(tConfirmed), None, Some(tDelivered), Some(tActivated), Some(tShipped))
      && activated.batch == Some(BatchLink(batchId, batchNumber))
      && activated.updatedAt == Some(tDelivered)
  {
    var draft := CheckoutRoute.DraftOrder(orderNumber, userId, item, address, phone, sessionId, tOrdered, today);
    var confirmed := Webhook.ConfirmedOrder(draft, s, subscriptionId, tConfirmed);
    var staged := Batching.ShipmentStamp(confirmed, batchId, batchNumber, tShipped);
    Orders.DeliveredPassesActivationGuard(orders[sessionId := staged], sessionId, tDelivered);
    assert orders[sessionId := staged][sessionId := Orders.DeliveredOrder(staged, tDelivered)]
        == orders[sessionId := Orders.DeliveredOrder(staged, tDelivered)];
  }
}
