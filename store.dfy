/** The persisted records of the shop's document database and the database
    itself, as one map per collection (`smarteenOrders`, `orderBatches`,
    `smarteenSubscriptions`, `smarteenUsers` with its `children`
    sub-collection, `adminNotifications`). Record fields follow the documents
    the code writes; a field the code has not written is `None`. */
module Store {
  import opened Base

  // ---------------------------------------------------------------- orders

  datatype OrderStatus = Pending | Confirmed | PreparingShipment | Shipped | Delivered | Activated

  datatype ProtectionLevel = Strict | Moderate

  datatype Address = Address(street: string, city: string, postalCode: string, country: string)

  /** The product snapshot; 289 euros and 9.99 euros, the latter in cents. */
  datatype Product = Product(name: string, devicePriceEuros: int, subscriptionPriceCents: int)

  datatype ChildSnapshot = ChildSnapshot(firstName: string, age: int, protectionLevel: ProtectionLevel)

  datatype StripeLink = StripeLink(
    checkoutSessionId: string,
    customerId: Option<string>,
    subscriptionId: Option<string>,
    paymentIntentId: Option<string>)

  datatype Timeline = Timeline(
    ordered: nat,
    confirmed: Option<nat>,
    shipped: Option<nat>,
    delivered: Option<nat>,
    subscriptionActivated: Option<nat>,
    batchShipped: Option<nat>)

  datatype BatchLink = BatchLink(id: string, number: string)

  /** A `smarteenOrders` document, keyed by its checkout session id. */
  datatype Order = Order(
    orderNumber: string,
    userId: string,
    status: OrderStatus,
    product: Product,
    child: ChildSnapshot,
    shippingAddress: Address,
    shippingPhone: Option<string>,
    stripe: StripeLink,
    timeline: Timeline,
    batch: Option<BatchLink>,
    updatedAt: Option<nat>)

  /** The fields both the activation route and the subscription-updated
      webhook write on an order: status `activated` and its timeline stamp. */
  function ActivatedOrder(o: Order, now: nat): (r: Order)
    ensures r.status == Activated && r.timeline.subscriptionActivated == Some(now)
    ensures r.(status := o.status, timeline := o.timeline) == o
    ensures r.timeline.(subscriptionActivated := o.timeline.subscriptionActivated) == o.timeline
  {
    o.(status := Activated, timeline := o.timeline.(subscriptionActivated := Some(now)))
  }

  // --------------------------------------------------------------- batches

  datatype BatchStatus = Collecting | ReadyToShip | Shipping | Completed

  /** An `orderBatches` document, keyed by its generated id. */
  datatype Batch = Batch(
    batchNumber: string,
    status: BatchStatus,
    orders: seq<string>,
    targetCount: int,
    currentCount: int,
    createdAt: nat,
    estimatedShipDate: Option<nat>,
    actualShipDate: Option<nat>)

  /** An `adminNotifications` document of type `batch_ready` (unread). */
  datatype AdminNotification = BatchReady(batchId: string, createdAt: nat)

  // --------------------------------------------------------- subscriptions

  datatype SubscriptionStatus = Pending | Active | Cancelled

  datatype ActivationMethod = DeliveryWebhook | Manual | AutoTimeout

  /** A `smarteenSubscriptions` document, keyed by the gateway subscription id;
      the monthly amount 9.99 euros is kept in cents. */
  datatype Subscription = Subscription(
    userId: string,
    orderId: string,
    stripeSubscriptionId: string,
    status: SubscriptionStatus,
    activationMethod: ActivationMethod,
    actualDate: Option<nat>,
    cancelledDate: Option<nat>,
    amountCents: int,
    nextBilling: Option<nat>)

  // ----------------------------------------------------------------- users

  datatype Profile = Profile(
    firstName: Option<string>,
    lastName: Option<string>,
    phone: Option<string>,
    address: Option<Address>)

  datatype Child = Child(id: string, firstName: string, birthDate: Date, hasSmartteen: bool)

  /** A `smarteenUsers` document, keyed by the user id. */
  datatype User = User(
    uid: string,
    email: Option<string>,
    profile: Profile,
    children: seq<Child>,
    totalOrders: int,
    activeSubscriptions: int,
    createdAt: nat,
    updatedAt: nat)

  /** A document of a user's `children` sub-collection. Its `id` field is a
      second generated id, not the document's own id. */
  datatype ChildDoc = ChildDoc(
    id: string,
    firstName: string,
    birthDate: Date,
    hasSmartteen: bool,
    createdAt: nat,
    updatedAt: Option<nat>)

  /** The child configuration a cart item carries. */
  datatype ChildConfig = ChildConfig(firstName: string, birthDate: Date, protectionLevel: ProtectionLevel)

  // -------------------------------------------------------------- database

  /** The message `updateDoc` throws for a missing document. */
  function NoDocument(collection: string, id: string): string
  {
    "No document to update: " + collection + "/" + id
  }

  /** The shop project's document database. */
  class Db {
    var orders: map<string, Order>
    var batches: map<string, Batch>
    var subscriptions: map<string, Subscription>
    var users: map<string, User>
    /** The `children` sub-collections, keyed by (user id, child document id). */
    var childDocs: map<(string, string), ChildDoc>
    var adminNotifications: seq<AdminNotification>

    constructor ()
      ensures orders == map[] && batches == map[] && subscriptions == map[]
      ensures users == map[] && childDocs == map[] && adminNotifications == []
    {
      orders, batches, subscriptions := map[], map[], map[];
      users, childDocs, adminNotifications := map[], map[], [];
    }
  }
}
