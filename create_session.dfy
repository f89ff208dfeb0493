/** The checkout route: validate the cart items, open a gateway checkout
    session for the first item, and store a draft order under the session's
    id. */
module CheckoutRoute {
  import opened Base
  import opened Store
  import Gateway
  import Cart
  import Age

  const SubscriptionPriceCents := 999
  const DevicePriceEuros := 289

  /** The draft order stored under the session id: pending, with the fixed
      product snapshot, the child's age as a plain difference of years and
      only the session id on the gateway side. */
  function DraftOrder(orderNumber: string, userId: string, item: Cart.CartItem, address: Address,
                      phone: Option<string>, sessionId: string, now: nat, today: Date): (o: Order)
    ensures o.status == OrderStatus.Pending && o.orderNumber == orderNumber && o.userId == userId
    ensures o.product == Product("SmarTeen Phone", 289, 999)
    ensures o.child == ChildSnapshot(item.childConfig.firstName, today.year - item.childConfig.birthDate.year,
                                     item.childConfig.protectionLevel)
    ensures o.shippingAddress == address && o.shippingPhone == phone
    ensures o.stripe == StripeLink(sessionId, None, None, None)
    ensures o.timeline == Timeline(now, None, None, None, None, None)
    ensures o.batch.None? && o.updatedAt.None?
  {
    Order(orderNumber, userId, OrderStatus.Pending, Product("SmarTeen Phone", DevicePriceEuros, SubscriptionPriceCents),
          ChildSnapshot(item.childConfig.firstName, today.year - item.childConfig.birthDate.year,
                        item.childConfig.protectionLevel),
          address, phone, StripeLink(sessionId, None, None, None), Timeline(now, None, None, None, None, None),
          None, None)
  }

  /** The draft's age ignores month and day: it is one more than the age the
      children page shows while the birthday is still to come this year. */
  lemma DraftAgeVersusBirthdayAge(orderNumber: string, userId: string, item: Cart.CartItem, address: Address,
                                  phone: Option<string>, sessionId: string, now: nat, today: Date)
    ensures var birth := item.childConfig.birthDate;
      var draft := DraftOrder(orderNumber, userId, item, address, phone, sessionId, now, today).child.age;
      draft == Age.AgeOn(today, birth) + (if Age.BirthdayAhead(today, birth) then 1 else 0)
  {
  }

  /** The text of the route's 500 answer when the error has no message. */
  const FailureText := "Erreur serveur"

  /** The data `createCheckoutSession` receives: the phone is not passed on. */
  function CheckoutDataFor(userId: string, userEmail: string, item: Cart.CartItem,
                           shippingAddress: Option<Address>): (d: Gateway.CheckoutData)
    ensures d.phone.None? && d.child == item.childConfig && d.shippingAddress == shippingAddress
  {
    Gateway.CheckoutData(userId, userEmail, item.childConfig, shippingAddress, None)
  }

  /** `POST /api/checkout/create-session`. `items` is `None` when the body
      has none; `orderNumber` is the generated order number. */
  method CreateSession(db: Db, gw: Gateway.Gateway, items: Option<seq<Cart.CartItem>>,
                       shippingAddress: Option<Address>, phone: Option<string>, userId: string, userEmail: string,
                       now: nat, today: Date, orderNumber: string, freshCustomerId: string, freshSessionId: string)
    returns (resp: Response)
    requires !Gateway.IsCustomer(gw.customers, freshCustomerId)
    requires freshSessionId !in gw.sessions
    modifies db, gw
    ensures items.None? || items.value == [] ==>
      resp == Response(400, ErrorBody("Aucun article dans le panier")) && unchanged(db) && unchanged(gw)
    ensures items.Some? && items.value != [] ==>
      var data := CheckoutDataFor(userId, userEmail, items.value[0], shippingAddress);
      && Gateway.SessionOpened(gw, data, freshCustomerId, freshSessionId,
           Gateway.SessionAnswer(old(gw.customers), data, freshCustomerId, freshSessionId))
      && match shippingAddress
         case None =>
           resp == ServerError(Gateway.NoStreetError, FailureText) && unchanged(db)
         case Some(a) =>
           && resp == Response(200, SessionCreated(freshSessionId))
           && db.orders == old(db.orders)[freshSessionId :=
                DraftOrder(orderNumber, userId, items.value[0], a, phone, freshSessionId, now, today)]
           && db.batches == old(db.batches) && db.subscriptions == old(db.subscriptions) && db.users == old(db.users)
           && db.childDocs == old(db.childDocs) && db.adminNotifications == old(db.adminNotifications)
  {
    if items.None? || items.value == [] {
      return Response(400, ErrorBody("Aucun article dans le panier"));
    }
    var item := items.value[0];
    var session := Gateway.CreateCheckoutSession(gw, CheckoutDataFor(userId, userEmail, item, shippingAddress),
                                                 freshCustomerId, freshSessionId);
    if session.Err? {
      return ServerError(session.error, FailureText);
    }
    var s := session.value;
    db.orders := db.orders[s.id := DraftOrder(orderNumber, userId, item, shippingAddress.value, phone, s.id, now, today)];
    return Response(200, SessionCreated(s.id));
  }
}
