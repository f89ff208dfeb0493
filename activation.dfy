/** The delivery-activation route: it checks, in order, that an order id was
    sent, that the order exists, that it has a gateway subscription and that
    it is delivered; only then does it end the gateway trial, mark the order
    activated and mark the subscription record active. */
module Activation {
  import opened Base
  import opened Store
  import Gateway

  /** The text of the route's 500 answer when the error has no message. */
  const FailureText := "Failed to activate subscription"

  /** The first guard that rejects the request, or `None` when the order may
      be activated. */
  function Rejection(orders: map<string, Order>, orderId: Option<string>): (r: Option<Response>)
    ensures r.None? <==>
      Truthy(orderId) && orderId.value in orders
      && Truthy(orders[orderId.value].stripe.subscriptionId)
      && orders[orderId.value].status == Delivered
    ensures !Truthy(orderId) ==> r == Some(Response(400, ErrorBody("Order ID required")))
    ensures Truthy(orderId) && orderId.value !in orders ==> r == Some(Response(404, ErrorBody("Order not found")))
    ensures Truthy(orderId) && orderId.value in orders && !Truthy(orders[orderId.value].stripe.subscriptionId) ==>
      r == Some(Response(400, ErrorBody("No subscription found for this order")))
    ensures (Truthy(orderId) && orderId.value in orders && Truthy(orders[orderId.value].stripe.subscriptionId)
             && orders[orderId.value].status != Delivered) ==>
      r == Some(Response(400, ErrorBody("Order must be delivered before activating subscription")))
  {
    if !Truthy(orderId) then Some(Response(400, ErrorBody("Order ID required")))
    else if orderId.value !in orders then Some(Response(404, ErrorBody("Order not found")))
    else if !Truthy(orders[orderId.value].stripe.subscriptionId) then Some(Response(400, ErrorBody("No subscription found for this order")))
    else if orders[orderId.value].status != Delivered then
      Some(Response(400, ErrorBody("Order must be delivered before activating subscription")))
    else None
  }

  /** The subscription check comes before the delivery check: an order with
      neither is rejected for its missing subscription. */
  lemma SubscriptionCheckedFirst(orders: map<string, Order>, orderId: string)
    requires orderId != "" && orderId in orders
    requires !Truthy(orders[orderId].stripe.subscriptionId) && orders[orderId].status != Delivered
    ensures Rejection(orders, Some(orderId)).value.body == ErrorBody("No subscription found for this order")
  {
  }

  /** The fields the route writes on the subscription record. */
  function ActivatedRecord(s: Subscription, now: nat): (r: Subscription)
    ensures r.status == Active && r.actualDate == Some(now) && r.activationMethod == DeliveryWebhook
    ensures r.(status := s.status, actualDate := s.actualDate, activationMethod := s.activationMethod) == s
  {
    s.(status := Active, actualDate := Some(now), activationMethod := DeliveryWebhook)
  }

  /** `POST /api/orders/activate-subscription`. `periodEnd` is the period end
      the gateway reports once the trial is over. */
  method ActivateSubscription(db: Db, gw: Gateway.Gateway, orderId: Option<string>, now: nat, periodEnd: nat)
    returns (resp: Response)
    modifies db, gw
    ensures Rejection(old(db.orders), orderId).Some? ==>
      resp == Rejection(old(db.orders), orderId).value && unchanged(db) && unchanged(gw)
    ensures Rejection(old(db.orders), orderId).None? ==>
      var id := orderId.value;
      var subId := old(db.orders)[id].stripe.subscriptionId.value;
      if subId !in old(gw.subscriptions) then
        // the gateway call throws first: nothing is written
        resp == ServerError("No such subscription: " + subId, FailureText) && unchanged(db) && unchanged(gw)
      else
        && gw.subscriptions == old(gw.subscriptions)[subId :=
             old(gw.subscriptions)[subId].(trialEnd := Gateway.TrialEndsNow, currentPeriodEnd := periodEnd)]
        && gw.customers == old(gw.customers) && gw.prices == old(gw.prices) && gw.sessions == old(gw.sessions)
        && db.orders == old(db.orders)[id := ActivatedOrder(old(db.orders)[id], now)]
        && (if subId in old(db.subscriptions) then
              resp == Response(200, ActivationSucceeded)
              && db.subscriptions == old(db.subscriptions)[subId := ActivatedRecord(old(db.subscriptions)[subId], now)]
            else
              // the order stays activated although the route answers 500
              resp == ServerError(NoDocument("smarteenSubscriptions", subId), FailureText)
              && db.subscriptions == old(db.subscriptions))
        && db.batches == old(db.batches) && db.users == old(db.users)
        && db.childDocs == old(db.childDocs) && db.adminNotifications == old(db.adminNotifications)
  {
    var rejected := Rejection(db.orders, orderId);
    if rejected.Some? {
      return rejected.value;
    }
    var id := orderId.value;
    var order := db.orders[id];
    var subId := order.stripe.subscriptionId.value;
    var ended := Gateway.ActivateSubscriptionOnDelivery(gw, subId, periodEnd);
    if ended.Failed? {
      return ServerError(ended.error, FailureText);
    }
    db.orders := db.orders[id := ActivatedOrder(order, now)];
    if subId !in db.subscriptions {
      return ServerError(NoDocument("smarteenSubscriptions", subId), FailureText);
    }
    db.subscriptions := db.subscriptions[subId := ActivatedRecord(db.subscriptions[subId], now)];
    return Response(200, ActivationSucceeded);
  }
}
