/** The payment gateway's webhook: a signature gate, then one handler per
    event type, each a guarded sequence of record updates. A handler that
    throws makes the route answer 500; the writes it made before throwing
    stay. The effect of each handler is stated once, as a two-state
    predicate, and shared by the handler and the dispatcher. */
module Webhook {
  import opened Base
  import opened Store
  import Gateway
  import Users

  datatype GatewayAddress = GatewayAddress(
    line1: Option<string>,
    city: Option<string>,
    postalCode: Option<string>,
    country: Option<string>)

  datatype ShippingDetails = ShippingDetails(address: Option<GatewayAddress>)

  /** The completed checkout session the event carries. */
  datatype CompletedSession = CompletedSession(
    id: string,
    customer: string,
    paymentIntent: Option<string>,
    shippingDetails: Option<ShippingDetails>,
    customerPhone: Option<string>,
    metadataUserId: Option<string>)

  datatype GatewayStatus = Active | Trialing | PastDue | Canceled | Unpaid | Incomplete | IncompleteExpired | Paused

  /** The subscription object the subscription events carry;
      `pauseCollection` is `None` when it is `null`. */
  datatype SubscriptionObject = SubscriptionObject(
    id: string,
    pauseCollection: Option<string>,
    status: GatewayStatus,
    currentPeriodEnd: nat,
    metadataOrderId: Option<string>)

  datatype Event =
    | CheckoutSessionCompleted(session: CompletedSession)
    | SubscriptionUpdated(subscription: SubscriptionObject)
    | InvoicePaymentSucceeded(invoiceSubscription: Option<string>)
    | SubscriptionDeleted(deleted: SubscriptionObject)
    | Unhandled(eventType: string)

  // ------------------------------------------------ checkout.session.completed

  /** The address built from the event's shipping details; missing parts
      become empty, a missing country becomes `FR`. */
  function OrderAddressFrom(a: Option<GatewayAddress>): (r: Address)
    ensures r.country != ""
    ensures a.None? ==> r == Address("", "", "", "FR")
    ensures a.Some? ==>
      r.street == OrElse(a.value.line1, "") && r.city == OrElse(a.value.city, "")
      && r.postalCode == OrElse(a.value.postalCode, "")
    ensures a.Some? && Truthy(a.value.country) ==> r.country == a.value.country.value
    ensures a.Some? && !Truthy(a.value.country) ==> r.country == "FR"
  {
    match a
    case None => Address("", "", "", "FR")
    case Some(g) => Address(OrElse(g.line1, ""), OrElse(g.city, ""), OrElse(g.postalCode, ""), OrElse(g.country, "FR"))
  }

  /** The order after the completion update: confirmed, linked to the
      customer, subscription and payment, shipped to the event's address when
      it has shipping details and else to the stored one. */
  function ConfirmedOrder(o: Order, s: CompletedSession, subscriptionId: string, now: nat): (r: Order)
    ensures r.status == Confirmed
    ensures r.stripe == o.stripe.(customerId := Some(s.customer), subscriptionId := Some(subscriptionId),
                                  paymentIntentId := s.paymentIntent)
    ensures s.shippingDetails.None? ==> r.shippingAddress == o.shippingAddress
    ensures s.shippingDetails.Some? ==> r.shippingAddress == OrderAddressFrom(s.shippingDetails.value.address)
    ensures r.shippingPhone == Some(OrElse(s.customerPhone, ""))
    ensures r.timeline == o.timeline.(confirmed := Some(now))
    ensures r.(status := o.status, stripe := o.stripe, shippingAddress := o.shippingAddress,
               shippingPhone := o.shippingPhone, timeline := o.timeline) == o
  {
    o.(status := Confirmed,
       stripe := o.stripe.(customerId := Some(s.customer), subscriptionId := Some(subscriptionId),
                           paymentIntentId := s.paymentIntent),
       shippingAddress := if s.shippingDetails.Some? then OrderAddressFrom(s.shippingDetails.value.address)
                          else o.shippingAddress,
       shippingPhone := Some(OrElse(s.customerPhone, "")),
       timeline := o.timeline.(confirmed := Some(now)))
  }

  /** The profile update sent when the session has shipping details. */
  function ProfileUpdateFrom(details: ShippingDetails, phone: Option<string>): (u: Users.ProfileUpdate)
    ensures u.firstName.None? && u.lastName.None? && u.phone == Defined(phone)
    ensures u.address.Some? <==> details.address.Some?
    ensures u.address.Some? ==> u.address.value == OrderAddressFrom(details.address)
  {
    Users.ProfileUpdate(None, None, Defined(phone),
      if details.address.Some? then Some(OrderAddressFrom(details.address)) else None)
  }

  /** The shipping address the profile ends with equals the one stamped on
      the order, fallbacks included. */
  lemma ProfileAddressMatchesOrder(u: User, details: ShippingDetails, phone: Option<string>, now: nat,
                                   o: Order, s: CompletedSession, subscriptionId: string)
    requires details.address.Some? && s.shippingDetails == Some(details)
    ensures var p := Users.ApplyProfileWrite(u, Users.ProfileWriteFor(ProfileUpdateFrom(details, phone), now));
      p.profile.address == Some(ConfirmedOrder(o, s, subscriptionId, now).shippingAddress)
  {
  }

  /** The subscription record `setDoc` writes (it replaces any earlier one). */
  function PendingRecord(s: CompletedSession, subscriptionId: string): (r: Subscription)
    ensures r.status == SubscriptionStatus.Pending && r.activationMethod == DeliveryWebhook
    ensures r.orderId == s.id && r.stripeSubscriptionId == subscriptionId && r.userId == OrElse(s.metadataUserId, "")
    ensures r.amountCents == 999 && r.actualDate.None? && r.cancelledDate.None? && r.nextBilling.None?
  {
    Subscription(OrElse(s.metadataUserId, ""), s.id, subscriptionId, SubscriptionStatus.Pending, DeliveryWebhook,
                 None, None, Gateway.SubscriptionPriceCents, None)
  }

  /** Whether the completion handler updates the user profile. */
  predicate UpdatesProfile(s: CompletedSession)
  {
    s.shippingDetails.Some? && Truthy(s.metadataUserId)
  }

  /** The completion handler's effect; `ok` is false when it threw. */
  twostate predicate CheckoutCompletedEffect(db: Db, gw: Gateway.Gateway, s: CompletedSession, now: nat,
                                             freshPriceId: string, freshSubscriptionId: string, ok: bool)
    reads db, gw
  {
    if s.id !in old(db.orders) then
      // unknown session: acknowledged, nothing written
      ok && unchanged(db) && unchanged(gw)
    else
      var created := if Gateway.IsCustomer(old(gw.customers), s.customer) then Ok(freshSubscriptionId)
                     else Err("No such customer: " + s.customer);
      && Gateway.SubscriptionCreated(gw, s.customer, s.id, now, freshPriceId, freshSubscriptionId, created)
      && db.batches == old(db.batches) && db.childDocs == old(db.childDocs)
      && db.adminNotifications == old(db.adminNotifications)
      && if created.Err? then
           !ok && unchanged(db)
         else
           && db.orders == old(db.orders)[s.id := ConfirmedOrder(old(db.orders)[s.id], s, freshSubscriptionId, now)]
           && if UpdatesProfile(s) && s.metadataUserId.value !in old(db.users) then
                // the profile update throws: no subscription record
                !ok && db.users == old(db.users) && db.subscriptions == old(db.subscriptions)
              else
                && ok
                && db.users == (if UpdatesProfile(s) then
                                  old(db.users)[s.metadataUserId.value := Users.ApplyProfileWrite(
                                    old(db.users)[s.metadataUserId.value],
                                    Users.ProfileWriteFor(ProfileUpdateFrom(s.shippingDetails.value, s.customerPhone), now))]
                                else old(db.users))
                && db.subscriptions == old(db.subscriptions)[freshSubscriptionId := PendingRecord(s, freshSubscriptionId)]
  }

  method HandleCheckoutCompleted(db: Db, gw: Gateway.Gateway, s: CompletedSession, now: nat,
                                 freshPriceId: string, freshSubscriptionId: string) returns (r: Outcome)
    requires freshSubscriptionId !in gw.subscriptions
    modifies db, gw
    ensures CheckoutCompletedEffect(db, gw, s, now, freshPriceId, freshSubscriptionId, r.Done?)
  {
    if s.id !in db.orders {
      return Done;
    }
    var order := db.orders[s.id];
    var created := Gateway.CreateSubscriptionForOrder(gw, s.customer, s.id, now, freshPriceId, freshSubscriptionId);
    if created.Err? {
      return Failed(created.error);
    }
    var subId := created.value;
    db.orders := db.orders[s.id := ConfirmedOrder(order, s, subId, now)];
    if UpdatesProfile(s) {
      var updated := Users.UpdateUserProfile(db, s.metadataUserId.value,
                                             ProfileUpdateFrom(s.shippingDetails.value, s.customerPhone), now);
      if updated.Failed? {
        return updated;
      }
    }
    db.subscriptions := db.subscriptions[subId := PendingRecord(s, subId)];
    return Done;
  }

  // ----------------------------------------------- customer.subscription.updated

  /** The handler acts only on a running subscription that is not paused. */
  predicate ActivatesOnUpdate(sub: SubscriptionObject)
  {
    sub.pauseCollection.None? && sub.status == GatewayStatus.Active
  }

  /** The record after the update handler: active since `now`, next billing
      at the period end (seconds, converted to milliseconds). */
  function RunningRecord(s: Subscription, now: nat, periodEndSeconds: nat): (r: Subscription)
    ensures r.status == SubscriptionStatus.Active && r.actualDate == Some(now)
    ensures r.nextBilling == Some(periodEndSeconds * 1000)
    ensures r.(status := s.status, actualDate := s.actualDate, nextBilling := s.nextBilling) == s
  {
    s.(status := SubscriptionStatus.Active, actualDate := Some(now), nextBilling := Some(periodEndSeconds * 1000))
  }

  twostate predicate SubscriptionUpdatedEffect(db: Db, sub: SubscriptionObject, now: nat, ok: bool)
    reads db
  {
    if !ActivatesOnUpdate(sub) then
      ok && unchanged(db)
    else if sub.id !in old(db.subscriptions) then
      !ok && unchanged(db)
    else
      && db.subscriptions == old(db.subscriptions)[sub.id := RunningRecord(old(db.subscriptions)[sub.id], now, sub.currentPeriodEnd)]
      && db.batches == old(db.batches) && db.users == old(db.users) && db.childDocs == old(db.childDocs)
      && db.adminNotifications == old(db.adminNotifications)
      && if !Truthy(sub.metadataOrderId) then
           ok && db.orders == old(db.orders)
         else if sub.metadataOrderId.value !in old(db.orders) then
           !ok && db.orders == old(db.orders)
         else
           // the order is activated whatever its status: no delivery check here
           ok && db.orders == old(db.orders)[sub.metadataOrderId.value :=
                   ActivatedOrder(old(db.orders)[sub.metadataOrderId.value], now)]
  }

  method HandleSubscriptionUpdated(db: Db, sub: SubscriptionObject, now: nat) returns (r: Outcome)
    modifies db
    ensures SubscriptionUpdatedEffect(db, sub, now, r.Done?)
  {
    if !ActivatesOnUpdate(sub) {
      return Done;
    }
    if sub.id !in db.subscriptions {
      return Failed(NoDocument("smarteenSubscriptions", sub.id));
    }
    db.subscriptions := db.subscriptions[sub.id := RunningRecord(db.subscriptions[sub.id], now, sub.currentPeriodEnd)];
    var orderId := sub.metadataOrderId;
    if Truthy(orderId) {
      if orderId.value !in db.orders {
        return Failed(NoDocument("smarteenOrders", orderId.value));
      }
      db.orders := db.orders[orderId.value := ActivatedOrder(db.orders[orderId.value], now)];
    }
    return Done;
  }

  // ------------------------------------------------- invoice.payment_succeeded

  twostate predicate InvoicePaidEffect(db: Db, gw: Gateway.Gateway, invoiceSubscription: Option<string>, ok: bool)
    reads db, gw
  {
    if !Truthy(invoiceSubscription) then
      ok && unchanged(db)
    else
      var id := invoiceSubscription.value;
      if id !in gw.subscriptions || id !in old(db.subscriptions) then
        // the gateway lookup or the record update throws
        !ok && unchanged(db)
      else
        // only the next billing date changes, never the status
        ok && db.subscriptions == old(db.subscriptions)[id :=
                old(db.subscriptions)[id].(nextBilling := Some(gw.subscriptions[id].currentPeriodEnd * 1000))]
        && db.orders == old(db.orders) && db.batches == old(db.batches) && db.users == old(db.users)
        && db.childDocs == old(db.childDocs) && db.adminNotifications == old(db.adminNotifications)
  }

  method HandleInvoicePaid(db: Db, gw: Gateway.Gateway, invoiceSubscription: Option<string>) returns (r: Outcome)
    modifies db
    ensures InvoicePaidEffect(db, gw, invoiceSubscription, r.Done?)
  {
    if !Truthy(invoiceSubscription) {
      return Done;
    }
    var id := invoiceSubscription.value;
    if id !in gw.subscriptions {
      return Failed("No such subscription: " + id);
    }
    var retrieved := gw.subscriptions[id];
    if id !in db.subscriptions {
      return Failed(NoDocument("smarteenSubscriptions", id));
    }
    db.subscriptions := db.subscriptions[id := db.subscriptions[id].(nextBilling := Some(retrieved.currentPeriodEnd * 1000))];
    return Done;
  }

  // ---------------------------------------------- customer.subscription.deleted

  function CancelledRecord(s: Subscription, now: nat): (r: Subscription)
    ensures r.status == Cancelled && r.cancelledDate == Some(now)
    ensures r.(status := s.status, cancelledDate := s.cancelledDate) == s
  {
    s.(status := Cancelled, cancelledDate := Some(now))
  }

  twostate predicate SubscriptionDeletedEffect(db: Db, sub: SubscriptionObject, now: nat, ok: bool)
    reads db
  {
    if sub.id !in old(db.subscriptions) then
      !ok && unchanged(db)
    else
      // no order is written
      ok && db.subscriptions == old(db.subscriptions)[sub.id := CancelledRecord(old(db.subscriptions)[sub.id], now)]
      && db.orders == old(db.orders) && db.batches == old(db.batches) && db.users == old(db.users)
      && db.childDocs == old(db.childDocs) && db.adminNotifications == old(db.adminNotifications)
  }

  method HandleSubscriptionDeleted(db: Db, sub: SubscriptionObject, now: nat) returns (r: Outcome)
    modifies db
    ensures SubscriptionDeletedEffect(db, sub, now, r.Done?)
  {
    if sub.id !in db.subscriptions {
      return Failed(NoDocument("smarteenSubscriptions", sub.id));
    }
    db.subscriptions := db.subscriptions[sub.id := CancelledRecord(db.subscriptions[sub.id], now)];
    return Done;
  }

  // ---------------------------------------------------------------- dispatcher

  twostate predicate EventEffect(db: Db, gw: Gateway.Gateway, e: Event, now: nat,
                                 freshPriceId: string, freshSubscriptionId: string, ok: bool)
    reads db, gw
  {
    match e
    case CheckoutSessionCompleted(s) => CheckoutCompletedEffect(db, gw, s, now, freshPriceId, freshSubscriptionId, ok)
    case SubscriptionUpdated(sub) => SubscriptionUpdatedEffect(db, sub, now, ok) && unchanged(gw)
    case InvoicePaymentSucceeded(inv) => InvoicePaidEffect(db, gw, inv, ok) && unchanged(gw)
    case SubscriptionDeleted(sub) => SubscriptionDeletedEffect(db, sub, now, ok) && unchanged(gw)
    case Unhandled(_) => ok && unchanged(db) && unchanged(gw)
  }

  /** `POST /api/stripe/webhook`. `signature` is the signature header and
      `verified` what signature verification yields: the event, or the
      error it throws. */
  method HandleWebhook(db: Db, gw: Gateway.Gateway, signature: Option<string>, verified: Result<Event>, now: nat,
                       freshPriceId: string, freshSubscriptionId: string) returns (resp: Response)
    requires freshSubscriptionId !in gw.subscriptions
    modifies db, gw
    ensures !Truthy(signature) ==>
      resp == Response(400, ErrorBody("Missing stripe signature")) && unchanged(db) && unchanged(gw)
    ensures Truthy(signature) && verified.Err? ==>
      resp == Response(400, ErrorBody("Webhook Error: " + verified.error)) && unchanged(db) && unchanged(gw)
    ensures Truthy(signature) && verified.Ok? ==>
      && (resp == Response(200, Received) || resp == Response(500, ErrorBody("Webhook handler failed")))
      && EventEffect(db, gw, verified.value, now, freshPriceId, freshSubscriptionId, resp.status == 200)
  {
    if !Truthy(signature) {
      return Response(400, ErrorBody("Missing stripe signature"));
    }
    if verified.Err? {
      return Response(400, ErrorBody("Webhook Error: " + verified.error));
    }
    var r: Outcome;
    match verified.value {
    case CheckoutSessionCompleted(s) =>
      r := HandleCheckoutCompleted(db, gw, s, now, freshPriceId, freshSubscriptionId);
    case SubscriptionUpdated(sub) =>
      r := HandleSubscriptionUpdated(db, sub, now);
    case InvoicePaymentSucceeded(inv) =>
      r := HandleInvoicePaid(db, gw, inv);
    case SubscriptionDeleted(sub) =>
      r := HandleSubscriptionDeleted(db, sub, now);
    case Unhandled(_) =>
      r := Done;
    }
    if r.Failed? {
      return Response(500, ErrorBody("Webhook handler failed"));
    }
    return Response(200, Received);
  }
}
