/** Order reads and status changes: `getOrder`, `updateOrderStatus` with its
    per-status timeline stamps, and the delivery simulation that marks an
    order delivered and then calls the activation route. */
module Orders {
  import opened Base
  import opened Store
  import Gateway
  import Activation

  /** An order document together with its id. */
  datatype OrderRecord = OrderRecord(id: string, order: Order)

  /** `getOrder`: `null` for a missing id. */
  function GetOrder(orders: map<string, Order>, orderId: string): (r: Option<OrderRecord>)
    ensures r.None? <==> orderId !in orders
    ensures r.Some? ==> r.value.id == orderId && r.value.order == orders[orderId]
  {
    if orderId in orders then Some(OrderRecord(orderId, orders[orderId])) else None
  }

  /** The update object `updateOrderStatus` sends: `status` and `updatedAt`
      always, each timeline field only when it is stamped. */
  datatype StatusUpdate = StatusUpdate(
    status: OrderStatus,
    updatedAt: nat,
    shipped: Option<nat>,
    delivered: Option<nat>,
    subscriptionActivated: Option<nat>)

  function Stamps(u: StatusUpdate): nat
  {
    (if u.shipped.Some? then 1 else 0) + (if u.delivered.Some? then 1 else 0)
      + (if u.subscriptionActivated.Some? then 1 else 0)
  }

  /** The update for `status` at server time `now`: the shipped, delivered
      and activation stamps are written exactly for their own status, so at
      most one timeline field is written. */
  function StatusUpdateFor(status: OrderStatus, now: nat): (u: StatusUpdate)
    ensures u.status == status && u.updatedAt == now
    ensures u.shipped.Some? <==> status == Shipped
    ensures u.delivered.Some? <==> status == Delivered
    ensures u.subscriptionActivated.Some? <==> status == Activated
    ensures u.shipped.Some? ==> u.shipped.value == now
    ensures u.delivered.Some? ==> u.delivered.value == now
    ensures u.subscriptionActivated.Some? ==> u.subscriptionActivated.value == now
    ensures Stamps(u) <= 1
    ensures status in {OrderStatus.Pending, Confirmed, PreparingShipment} ==> Stamps(u) == 0
  {
    match status
    case Shipped => StatusUpdate(status, now, Some(now), None, None)
    case Delivered => StatusUpdate(status, now, None, Some(now), None)
    case Activated => StatusUpdate(status, now, None, None, Some(now))
    case _ => StatusUpdate(status, now, None, None, None)
  }

  function Stamped(field: Option<nat>, update: Option<nat>): Option<nat>
  {
    if update.Some? then update else field
  }

  /** `updateDoc` with a status update: the written keys change, no other. */
  function ApplyStatusUpdate(o: Order, u: StatusUpdate): (r: Order)
    ensures r.status == u.status && r.updatedAt == Some(u.updatedAt)
    ensures r.(status := o.status, updatedAt := o.updatedAt, timeline := o.timeline) == o
    ensures r.timeline.ordered == o.timeline.ordered && r.timeline.confirmed == o.timeline.confirmed
    ensures r.timeline.batchShipped == o.timeline.batchShipped
    ensures u.shipped.None? ==> r.timeline.shipped == o.timeline.shipped
    ensures u.delivered.None? ==> r.timeline.delivered == o.timeline.delivered
    ensures u.subscriptionActivated.None? ==> r.timeline.subscriptionActivated == o.timeline.subscriptionActivated
    ensures u.shipped.Some? ==> r.timeline.shipped == u.shipped
    ensures u.delivered.Some? ==> r.timeline.delivered == u.delivered
    ensures u.subscriptionActivated.Some? ==> r.timeline.subscriptionActivated == u.subscriptionActivated
  {
    o.(status := u.status,
       updatedAt := Some(u.updatedAt),
       timeline := o.timeline.(
         shipped := Stamped(o.timeline.shipped, u.shipped),
         delivered := Stamped(o.timeline.delivered, u.delivered),
         subscriptionActivated := Stamped(o.timeline.subscriptionActivated, u.subscriptionActivated)))
  }

  /** Setting the status to `activated` writes what the activation route
      writes, plus `updatedAt`. */
  lemma StatusActivatedMatchesRoute(o: Order, now: nat)
    ensures ApplyStatusUpdate(o, StatusUpdateFor(Activated, now)) == ActivatedOrder(o, now).(updatedAt := Some(now))
  {
  }

  /** A status change keeps every earlier timeline stamp it does not
      rewrite, so stamps accumulate along a delivery. */
  lemma StampsAccumulate(o: Order, now1: nat, now2: nat)
    ensures var d := ApplyStatusUpdate(ApplyStatusUpdate(o, StatusUpdateFor(Shipped, now1)), StatusUpdateFor(Delivered, now2));
      d.status == Delivered && d.timeline.shipped == Some(now1) && d.timeline.delivered == Some(now2)
      && d.timeline.ordered == o.timeline.ordered && d.timeline.confirmed == o.timeline.confirmed
  {
  }

  /** `updateOrderStatus`: a missing order makes `updateDoc` throw. */
  method UpdateOrderStatus(db: Db, orderId: string, status: OrderStatus, now: nat) returns (r: Outcome)
    modifies db
    ensures orderId !in old(db.orders) ==> r == Failed(NoDocument("smarteenOrders", orderId)) && unchanged(db)
    ensures orderId in old(db.orders) ==>
      r == Done && db.orders == old(db.orders)[orderId := ApplyStatusUpdate(old(db.orders)[orderId], StatusUpdateFor(status, now))]
    ensures db.batches == old(db.batches) && db.subscriptions == old(db.subscriptions) && db.users == old(db.users)
    ensures db.childDocs == old(db.childDocs) && db.adminNotifications == old(db.adminNotifications)
  {
    if orderId !in db.orders {
      return Failed(NoDocument("smarteenOrders", orderId));
    }
    db.orders := db.orders[orderId := ApplyStatusUpdate(db.orders[orderId], StatusUpdateFor(status, now))];
    return Done;
  }

  /** The order the simulation hands to the activation route. */
  function DeliveredOrder(o: Order, now: nat): (r: Order)
    ensures r.status == Delivered && r.timeline.delivered == Some(now)
  {
    ApplyStatusUpdate(o, StatusUpdateFor(Delivered, now))
  }

  /** Once the simulation has marked the order delivered, the activation
      route rejects it only for an empty id or a missing subscription id. */
  lemma DeliveredPassesActivationGuard(orders: map<string, Order>, orderId: string, now: nat)
    requires orderId in orders
    ensures var marked := orders[orderId := DeliveredOrder(orders[orderId], now)];
      Activation.Rejection(marked, Some(orderId)).None? <==>
        orderId != "" && Truthy(orders[orderId].stripe.subscriptionId)
  {
    var marked := orders[orderId := DeliveredOrder(orders[orderId], now)];
    assert marked[orderId].stripe == orders[orderId].stripe;
  }

  /** `simulateDelivery`: fail on a missing order before any write, mark
      it delivered, then request activation and fail on a non-ok answer. */
  method SimulateDelivery(db: Db, gw: Gateway.Gateway, orderId: string, now: nat, periodEnd: nat) returns (r: Outcome)
    modifies db, gw
    ensures orderId !in old(db.orders) ==> r == Failed("Commande non trouvée") && unchanged(db) && unchanged(gw)
    ensures orderId in old(db.orders) ==>
      var delivered := DeliveredOrder(old(db.orders)[orderId], now);
      var sub := old(db.orders)[orderId].stripe.subscriptionId;
      if orderId != "" && Truthy(sub) && sub.value in old(gw.subscriptions) then
        && db.orders == old(db.orders)[orderId := ActivatedOrder(delivered, now)]
        && gw.subscriptions == old(gw.subscriptions)[sub.value :=
             old(gw.subscriptions)[sub.value].(trialEnd := Gateway.TrialEndsNow, currentPeriodEnd := periodEnd)]
        && r == (if sub.value in old(db.subscriptions) then Done else Failed("Erreur activation abonnement"))
        && db.subscriptions == (if sub.value in old(db.subscriptions)
             then old(db.subscriptions)[sub.value := Activation.ActivatedRecord(old(db.subscriptions)[sub.value], now)]
             else old(db.subscriptions))
      else
        // the order stays delivered and activation is refused
        r == Failed("Erreur activation abonnement") && db.orders == old(db.orders)[orderId := delivered]
        && db.subscriptions == old(db.subscriptions) && gw.subscriptions == old(gw.subscriptions)
    ensures gw.customers == old(gw.customers) && gw.prices == old(gw.prices) && gw.sessions == old(gw.sessions)
    ensures db.batches == old(db.batches) && db.users == old(db.users)
    ensures db.childDocs == old(db.childDocs) && db.adminNotifications == old(db.adminNotifications)
  {
    var found := GetOrder(db.orders, orderId);
    if found.None? {
      return Failed("Commande non trouvée");
    }
    var marked := UpdateOrderStatus(db, orderId, Delivered, now);
    DeliveredPassesActivationGuard(old(db.orders), orderId, now);
    var resp := Activation.ActivateSubscription(db, gw, Some(orderId), now, periodEnd);
    if resp.status != 200 {
      return Failed("Erreur activation abonnement");
    }
    return Done;
  }
}
