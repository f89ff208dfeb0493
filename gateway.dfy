/** The payment gateway side of checkout: reuse or create the gateway
    customer, open the hosted checkout session with its fixed parameters,
    resolve the monthly price and create the dormant subscription, and end the
    trial on delivery. The gateway is an object whose listings and records
    these calls read and change; ids it generates are passed in and are fresh. */
module Gateway {
  import opened Base
  import opened Store

  /** The product the subscription price belongs to (the configured default). */
  const ServicesProductId := "prod_SO4qCqWfPF6gYh"
  const DevicePriceCents := 28900
  const SubscriptionPriceCents := 999
  /** 365 days, in seconds. */
  const TrialSeconds := 365 * 24 * 60 * 60
  const AllowedCountries := ["FR", "BE", "CH", "LU"]

  datatype CustomerAddress = CustomerAddress(line1: string, city: string, postalCode: string, country: string)

  datatype Customer = Customer(
    id: string,
    email: string,
    phone: Option<string>,
    address: Option<CustomerAddress>,
    userId: Option<string>)

  /** The parameters of `customers.update`; `None` leaves a field as it is. */
  datatype CustomerChange = CustomerChange(phone: Option<string>, address: Option<CustomerAddress>)

  datatype Interval = Day | Week | Month | Year

  /** A catalog price; `interval` is `None` for a one-time price. */
  datatype Price = Price(id: string, product: string, unitAmount: Option<int>, interval: Option<Interval>, active: bool)

  datatype TrialEnd = TrialEndsAt(seconds: int) | TrialEndsNow

  datatype GatewaySubscription = GatewaySubscription(
    customerId: string,
    priceId: string,
    orderId: string,
    activationType: string,
    trialEnd: TrialEnd,
    currentPeriodEnd: nat)

  datatype LineItem = LineItem(currency: string, productName: string, unitAmount: int, quantity: int)
  datatype ShippingRate = ShippingRate(amount: int, currency: string, displayName: string)
  datatype SessionMetadata = SessionMetadata(
    userId: string,
    childFirstName: string,
    childBirthDate: Date,
    protectionLevel: ProtectionLevel)

  datatype SessionParams = SessionParams(
    mode: string,
    customerId: string,
    lineItems: seq<LineItem>,
    shippingOptions: seq<ShippingRate>,
    allowedCountries: seq<string>,
    phoneNumberCollection: bool,
    metadata: SessionMetadata)

  datatype Session = Session(id: string, params: SessionParams)

  /** What `createCheckoutSession` receives; `shippingAddress` is `None` when
      the caller sent none. */
  datatype CheckoutData = CheckoutData(
    userId: string,
    userEmail: string,
    child: ChildConfig,
    shippingAddress: Option<Address>,
    phone: Option<string>)

  /** The gateway's state as far as these calls see it; listings are in the
      order the gateway lists them (newest first). */
  class Gateway {
    var customers: seq<Customer>
    var prices: seq<Price>
    var subscriptions: map<string, GatewaySubscription>
    var sessions: map<string, Session>

    constructor (customers: seq<Customer>, prices: seq<Price>)
      ensures this.customers == customers && this.prices == prices
      ensures subscriptions == map[] && sessions == map[]
    {
      this.customers, this.prices := customers, prices;
      subscriptions, sessions := map[], map[];
    }
  }

  // ------------------------------------------------ customer decision rules

  function HasEmail(email: string): Customer -> bool
  {
    (c: Customer) => c.email == email
  }

  function HasId(id: string): Customer -> bool
  {
    (c: Customer) => c.id == id
  }

  predicate IsCustomer(customers: seq<Customer>, id: string)
  {
    exists i :: 0 <= i < |customers| && customers[i].id == id
  }

  /** The customer address sent to the gateway: only when a street is given. */
  function CustomerAddressFor(a: Address): (r: Option<CustomerAddress>)
    ensures r.Some? <==> a.street != ""
    ensures r.Some? ==> r.value == CustomerAddress(a.street, a.city, a.postalCode, a.country)
  {
    if a.street != "" then Some(CustomerAddress(a.street, a.city, a.postalCode, a.country)) else None
  }

  /** The update sent for a reused customer: only when a phone or a street
      is supplied. */
  function CustomerChangeFor(phone: Option<string>, a: Address): (r: Option<CustomerChange>)
    ensures r.Some? <==> Truthy(phone) || a.street != ""
    ensures r.Some? ==> r.value.phone == Defined(phone) && r.value.address == CustomerAddressFor(a)
  {
    if Truthy(phone) || a.street != "" then Some(CustomerChange(Defined(phone), CustomerAddressFor(a))) else None
  }

  /** `customers.update` on one customer record. */
  function ApplyCustomerChange(c: Customer, change: CustomerChange): (r: Customer)
    ensures r.id == c.id && r.email == c.email && r.userId == c.userId
    ensures r.phone == (if change.phone.Some? then change.phone else c.phone)
    ensures r.address == (if change.address.Some? then change.address else c.address)
  {
    c.(phone := if change.phone.Some? then change.phone else c.phone,
       address := if change.address.Some? then change.address else c.address)
  }

  /** The customer `customers.create` makes. */
  function NewCustomer(id: string, data: CheckoutData, a: Address): Customer
  {
    Customer(id, data.userEmail, Defined(data.phone), CustomerAddressFor(a), Some(data.userId))
  }

  /** The fixed parameters of the checkout session. */
  function SessionParamsFor(customerId: string, data: CheckoutData): SessionParams
  {
    SessionParams(
      "payment",
      customerId,
      [LineItem("eur", "SmarTeen Phone", DevicePriceCents, 1)],
      [ShippingRate(0, "eur", "Livraison gratuite")],
      AllowedCountries,
      true,
      SessionMetadata(data.userId, data.child.firstName, data.child.birthDate, data.child.protectionLevel))
  }

  /** The session charges one device at 289 euros, ships for free, collects a
      phone number and only ships to France, Belgium, Switzerland and
      Luxembourg. */
  lemma SessionParamsAreFixed(customerId: string, data: CheckoutData)
    ensures var p := SessionParamsFor(customerId, data);
      && p.mode == "payment" && p.customerId == customerId
      && |p.lineItems| == 1
      && p.lineItems[0].unitAmount == 28900 && p.lineItems[0].quantity == 1 && p.lineItems[0].currency == "eur"
      && |p.shippingOptions| == 1 && p.shippingOptions[0].amount == 0
      && p.phoneNumberCollection
      && (forall c :: c in p.allowedCountries <==> c in {"FR", "BE", "CH", "LU"})
      && p.metadata.userId == data.userId && p.metadata.childFirstName == data.child.firstName
  {
  }

  /** The customer the session is opened for: the first one listed for
      the email, else the one created under the fresh id. */
  function CustomerIdFor(customers: seq<Customer>, email: string, freshCustomerId: string): string
  {
    var listed := FirstWhere(customers, HasEmail(email));
    if listed.Some? then customers[listed.value].id else freshCustomerId
  }

  /** What `createCheckoutSession` answers. */
  function SessionAnswer(customers: seq<Customer>, data: CheckoutData, freshCustomerId: string,
                         freshSessionId: string): (r: Result<Session>)
    ensures r.Ok? <==> data.shippingAddress.Some?
    ensures r.Ok? ==> r.value.id == freshSessionId && r.value.params.customerId == CustomerIdFor(customers, data.userEmail, freshCustomerId)
  {
    if data.shippingAddress.None? then Err(NoStreetError)
    else Ok(Session(freshSessionId, SessionParamsFor(CustomerIdFor(customers, data.userEmail, freshCustomerId), data)))
  }

  /** What `createCheckoutSession` does: reuse the first customer listed for
      the email (updating it when a phone or street is supplied) or create
      one, then open the session. Reading the street of a missing address
      throws before anything is written. */
  twostate predicate SessionOpened(gw: Gateway, data: CheckoutData, freshCustomerId: string, freshSessionId: string,
                                   new r: Result<Session>)
    reads gw
  {
    && r == SessionAnswer(old(gw.customers), data, freshCustomerId, freshSessionId)
    && gw.prices == old(gw.prices) && gw.subscriptions == old(gw.subscriptions)
    && match data.shippingAddress
       case None =>
         unchanged(gw)
       case Some(a) =>
         var listed := FirstWhere(old(gw.customers), HasEmail(data.userEmail));
         && gw.sessions == old(gw.sessions)[freshSessionId := r.value]
         && gw.customers == (match listed
              case None => [NewCustomer(freshCustomerId, data, a)] + old(gw.customers)
              case Some(i) =>
                match CustomerChangeFor(data.phone, a)
                case None => old(gw.customers)
                case Some(change) => old(gw.customers)[i := ApplyCustomerChange(old(gw.customers)[i], change)])
  }

  const NoStreetError := "Cannot read properties of undefined (reading 'street')"

  /** `createCheckoutSession`. */
  method CreateCheckoutSession(gw: Gateway, data: CheckoutData, freshCustomerId: string, freshSessionId: string)
    returns (r: Result<Session>)
    requires !IsCustomer(gw.customers, freshCustomerId)
    requires freshSessionId !in gw.sessions
    modifies gw
    ensures SessionOpened(gw, data, freshCustomerId, freshSessionId, r)
  {
    var listed := FirstWhere(gw.customers, HasEmail(data.userEmail));
    if data.shippingAddress.None? {
      return Err(NoStreetError);
    }
    var a := data.shippingAddress.value;
    var customerId: string;
    if listed.Some? {
      var i := listed.value;
      customerId := gw.customers[i].id;
      var change := CustomerChangeFor(data.phone, a);
      if change.Some? {
        gw.customers := gw.customers[i := ApplyCustomerChange(gw.customers[i], change.value)];
      }
    } else {
      gw.customers := [NewCustomer(freshCustomerId, data, a)] + gw.customers;
      customerId := freshCustomerId;
    }
    var session := Session(freshSessionId, SessionParamsFor(customerId, data));
    gw.sessions := gw.sessions[freshSessionId := session];
    return Ok(session);
  }

  /** The first customer listed for an email is the one reused; a customer
      is created only when none is listed. */
  lemma CustomerReuseRule(customers: seq<Customer>, email: string)
    ensures var listed := FirstWhere(customers, HasEmail(email));
      && (listed.None? <==> forall i :: 0 <= i < |customers| ==> customers[i].email != email)
      && (listed.Some? ==>
            customers[listed.value].email == email
            && forall j :: 0 <= j < listed.value ==> customers[j].email != email)
  {
    var listed := FirstWhere(customers, HasEmail(email));
    forall i | 0 <= i < |customers|
      ensures HasEmail(email)(customers[i]) == (customers[i].email == email)
    {
    }
  }

  // --------------------------------------------------- price decision rules

  /** The listing `prices.list({product, type: 'recurring', active: true})`. */
  function ListedRecurring(product: string): Price -> bool
  {
    (p: Price) => p.product == product && p.interval.Some? && p.active
  }

  datatype PriceChoice = ReuseExisting(priceId: string) | CreateMonthly

  /** The listed price is reused exactly when it is a 999-cent monthly price. */
  function PriceChoiceFor(prices: seq<Price>): (d: PriceChoice)
    ensures var listed := FirstWhere(prices, ListedRecurring(ServicesProductId));
      && (d.ReuseExisting? <==>
            listed.Some? && prices[listed.value].unitAmount == Some(999) && prices[listed.value].interval == Some(Month))
      && (d.ReuseExisting? ==> d.priceId == prices[listed.value].id)
  {
    var listed := FirstWhere(prices, ListedRecurring(ServicesProductId));
    if listed.Some? && prices[listed.value].unitAmount == Some(SubscriptionPriceCents) && prices[listed.value].interval == Some(Month)
    then ReuseExisting(prices[listed.value].id)
    else CreateMonthly
  }

  /** `Math.floor(nowMs / 1000) + 365 * 24 * 60 * 60`. */
  function TrialEndSeconds(nowMs: nat): (t: int)
    ensures 1000 * (t - TrialSeconds) <= nowMs < 1000 * (t - TrialSeconds + 1)
  {
    nowMs / 1000 + TrialSeconds
  }

  /** The dormant subscription: tagged with the order id, trial one year
      ahead; during the trial its billing period ends with the trial. */
  function DormantSubscription(customerId: string, priceId: string, orderId: string, nowMs: nat): GatewaySubscription
  {
    var t := TrialEndSeconds(nowMs);
    GatewaySubscription(customerId, priceId, orderId, "delivery_triggered", TrialEndsAt(t), if t >= 0 then t else 0)
  }

  /** What `createSubscriptionForOrder` does to the gateway and answers:
      the price is reused or a new monthly one is created; then the
      subscription is created for a known customer, while an unknown customer
      makes the gateway throw after the price step. */
  twostate predicate SubscriptionCreated(gw: Gateway, customerId: string, orderId: string, nowMs: nat,
                                         freshPriceId: string, freshSubscriptionId: string, new r: Result<string>)
    reads gw
  {
    var choice := PriceChoiceFor(old(gw.prices));
    var priceId := if choice.ReuseExisting? then choice.priceId else freshPriceId;
    && gw.prices == (if choice.ReuseExisting? then old(gw.prices)
                     else [Price(freshPriceId, ServicesProductId, Some(999), Some(Month), true)] + old(gw.prices))
    && (if IsCustomer(old(gw.customers), customerId) then
          r == Ok(freshSubscriptionId)
          && gw.subscriptions == old(gw.subscriptions)[freshSubscriptionId := DormantSubscription(customerId, priceId, orderId, nowMs)]
        else
          r == Err("No such customer: " + customerId) && gw.subscriptions == old(gw.subscriptions))
    && gw.customers == old(gw.customers) && gw.sessions == old(gw.sessions)
  }

  /** `createSubscriptionForOrder`. */
  method CreateSubscriptionForOrder(gw: Gateway, customerId: string, orderId: string, nowMs: nat,
                                    freshPriceId: string, freshSubscriptionId: string)
    returns (r: Result<string>)
    requires freshSubscriptionId !in gw.subscriptions
    modifies gw
    ensures SubscriptionCreated(gw, customerId, orderId, nowMs, freshPriceId, freshSubscriptionId, r)
  {
    var choice := PriceChoiceFor(gw.prices);
    var priceId: string;
    if choice.ReuseExisting? {
      priceId := choice.priceId;
    } else {
      gw.prices := [Price(freshPriceId, ServicesProductId, Some(SubscriptionPriceCents), Some(Month), true)] + gw.prices;
      priceId := freshPriceId;
    }
    var known := FirstWhere(gw.customers, HasId(customerId));
    if known.None? {
      assert !IsCustomer(gw.customers, customerId) by {
        forall i | 0 <= i < |gw.customers| ensures gw.customers[i].id != customerId {
          assert !HasId(customerId)(gw.customers[i]);
        }
      }
      return Err("No such customer: " + customerId);
    }
    assert HasId(customerId)(gw.customers[known.value]);
    gw.subscriptions := gw.subscriptions[freshSubscriptionId := DormantSubscription(customerId, priceId, orderId, nowMs)];
    return Ok(freshSubscriptionId);
  }

  /** The subscription carries the order id and the delivery-triggered tag,
      and its trial ends a year after the (floored) creation second. */
  lemma DormantSubscriptionShape(customerId: string, priceId: string, orderId: string, nowMs: nat)
    ensures var s := DormantSubscription(customerId, priceId, orderId, nowMs);
      && s.orderId == orderId && s.activationType == "delivery_triggered" && s.customerId == customerId
      && s.trialEnd == TrialEndsAt(nowMs / 1000 + 31536000)
  {
  }

  /** `activateSubscriptionOnDelivery`: end the trial now. The gateway answers
      with the new period end; an unknown subscription makes it throw, and the
      error is re-thrown. */
  method ActivateSubscriptionOnDelivery(gw: Gateway, subscriptionId: string, periodEnd: nat) returns (r: Outcome)
    modifies gw
    ensures subscriptionId !in old(gw.subscriptions) ==> r == Failed("No such subscription: " + subscriptionId) && unchanged(gw)
    ensures subscriptionId in old(gw.subscriptions) ==>
      && r == Done
      && gw.subscriptions == old(gw.subscriptions)[subscriptionId :=
           old(gw.subscriptions)[subscriptionId].(trialEnd := TrialEndsNow, currentPeriodEnd := periodEnd)]
      && gw.customers == old(gw.customers) && gw.prices == old(gw.prices) && gw.sessions == old(gw.sessions)
  {
    if subscriptionId !in gw.subscriptions {
      return Failed("No such subscription: " + subscriptionId);
    }
    var s := gw.subscriptions[subscriptionId];
    gw.subscriptions := gw.subscriptions[subscriptionId := s.(trialEnd := TrialEndsNow, currentPeriodEnd := periodEnd)];
    return Done;
  }
}
