# SmarTeen Phone order fulfilment, modelled in Dafny

SmarTeen Phone is an online store that sells one child-safe phone. The phone costs 289 euros and comes with a 9.99 euro monthly services subscription. That subscription must stay dormant until the phone is delivered. This project models, in Dafny, the path an order takes through the store:

- the cart;
- the checkout route, which opens a Stripe checkout session and stores a draft order;
- the Stripe webhook, which confirms the order, creates the dormant Stripe subscription and records it;
- delivery batching, which groups confirmed orders into shipments of 1000;
- delivery and activation, which end the subscription's trial.

It also models the client stores beside that path: toasts, authentication, the user and child records, and the age shown for a child.

Firestore is a class `Store.Db`. It holds one map per collection: orders, batches, subscriptions, users and the children sub-collection, plus the administrator notifications. Updating a missing document fails with Firestore's "No document to update" error and writes nothing. The one exception is the new batch of `addOrderToBatch`: it is written as a creation (see "## Left out"). Stripe is a second class, `Gateway.Gateway`. It holds customers (newest first), prices, subscriptions and checkout sessions.

Several inputs come from outside the model and are passed in as parameters:

- the clock (`now`, plus the calendar date `today` where the source reads one);
- fresh identifiers;
- the order number;
- the result of the webhook's signature check;
- the outcome of each authentication call.

Every route and library call is a method over these two classes. Each method's contract states the whole new state, the response, and each error path the source's own code takes. The record transforms each call applies are pure functions, with lemmas relating them to each other.

Modules, one per source unit: `Base` (results, responses, dates, decimal text), `Store` (the Firestore entities), `Batching`, `Gateway` (the Stripe helpers), `Activation`, `Orders`, `Webhook`, `CheckoutRoute`, `Users`, `Keyed` (filtering and updating a list by id), `Cart`, `Toasts`, `Auth`, `Age` and `Lifecycle` (one order's whole path).

## Model

| member | source | states |
|---|---|---|
| Store.ActivatedOrder | app/api/orders/activate-subscription/route.ts:50-53 | the activated order has status `activated` and a subscription-activated stamp, and nothing else about it changes |
| Batching.GetCurrentBatch | lib/batch-orders.ts:26-47 | the answer is the id of a collecting batch; it is none exactly when no batch is collecting or the query throws (a query error is swallowed) |
| Batching.MarkBatchReadyToShip | lib/batch-orders.ts:88-100 | a known batch becomes `ready_to_ship`, with an estimated ship date three days ahead, and one administrator notification is appended; a missing batch fails with Firestore's error and nothing is written |
| Batching.AddOrderToBatch | lib/batch-orders.ts:50-85 | the order joins the batch `getCurrentBatch` answered, or a new batch under the fresh id; the batch is marked ready (with a notification) exactly when it is full; the returned copy is the batch before the readiness step |
| Batching.AdmissionCreatesBatch | lib/batch-orders.ts:53-67 | with nothing collecting, admission adds exactly one batch: collecting, target 1000, holding only the order, counted once; the other batches are untouched |
| Batching.AdmissionAppends | lib/batch-orders.ts:68-77 | with a collecting batch, the order is appended last and the count goes up by one; every other batch is untouched |
| Batching.AdmissionKeepsCounts | lib/batch-orders.ts:53-77 | every batch's count equals the length of its order list before admission, and also after it |
| Batching.AdmissionReadiness | lib/batch-orders.ts:80-82 | the admitted batch is marked ready exactly when its count reaches its target |
| Batching.AdmissionKeepsOneCollecting | lib/batch-orders.ts:26-67 | when the query succeeds, at most one collecting batch exists before admission, and also after it |
| Batching.FailedQueryOpensSecondBatch | lib/batch-orders.ts:43-46 | when the query fails while a batch is collecting, admission opens a second collecting batch |
| Batching.RoundedPercent | lib/batch-orders.ts:120-126 | the percentage of the target reached, rounded half up exactly, stated by its rounding bounds; none for a zero target |
| Batching.RoundingBounds | lib/batch-orders.ts:120-126 | the integer quotient behind the percentage lies within one divisor below the dividend: q*b <= a < q*b + b |
| Batching.GetOrderWaitStatus | lib/batch-orders.ts:103-138 | "not in a batch" exactly when no batch lists the order; otherwise the batch's id, counts, percentage and the message for its status |
| Batching.WaitStatusOfMember | lib/batch-orders.ts:111-137 | for a member order: the remaining count is the target minus the count, the progress is the rounded percentage, and the message is the remaining-orders text exactly while collecting and the ships-in-three-days text exactly when ready to ship |
| Batching.TwoOfThree | lib/batch-orders.ts:118-126 | a collecting batch with 2 of 3 orders reports 67 percent and 1 order remaining |
| Batching.StageShipment | lib/batch-orders.ts:158-168 | the write batch sets every listed order to `preparing_shipment`, with the batch-shipped stamp and the batch link, and leaves all other orders alone; it reports the first listed order that does not exist, if any |
| Batching.ShipBatch | lib/batch-orders.ts:141-174 | a missing batch fails with "Batch non trouvé"; otherwise the batch becomes `shipping` with its ship date; then either every listed order is stamped, or the commit fails with Firestore's error for the first missing member and no order is written |
| Gateway.CustomerAddressFor | lib/stripe/checkout.ts:36-53 | a customer address is sent exactly when the street is non-empty, and it carries the four address fields |
| Gateway.CustomerChangeFor | lib/stripe/checkout.ts:33-43 | a reused customer is updated exactly when a phone or a street is supplied |
| Gateway.ApplyCustomerChange | lib/stripe/checkout.ts:34-42 | the update overwrites only the fields that were sent; the id, email and user metadata are kept |
| Gateway.SessionParamsAreFixed | lib/stripe/checkout.ts:60-106 | payment mode; one device at 28900 cents; free shipping; phone collection; shipping to FR, BE, CH and LU only; and the child's metadata |
| Gateway.SessionAnswer | lib/stripe/checkout.ts:21-129 | a session is answered exactly when a shipping address is given; it is opened for the first customer listed for the email, else for the new one |
| Gateway.CreateCheckoutSession | lib/stripe/checkout.ts:21-129 | reuses the first listed customer (updated when a phone or street is given) or creates one first; then opens the session; with no address it throws and nothing is written |
| Gateway.CustomerReuseRule | lib/stripe/checkout.ts:25-31 | the listed customer is the first one with the email; none is listed exactly when no customer has it |
| Gateway.PriceChoiceFor | lib/stripe/checkout.ts:141-166 | the first listed recurring price is reused exactly when it is 999 cents per month; otherwise a new monthly 999-cent price is created |
| Gateway.TrialEndSeconds | lib/stripe/checkout.ts:177 | the trial ends 365 days after the creation time, floored to whole seconds |
| Gateway.DormantSubscriptionShape | lib/stripe/checkout.ts:169-178 | the subscription carries the order id and the `delivery_triggered` tag, and its trial ends one year out |
| Gateway.CreateSubscriptionForOrder | lib/stripe/checkout.ts:131-185 | the price step, then a dormant subscription for a known customer; an unknown customer throws after the price step |
| Gateway.ActivateSubscriptionOnDelivery | lib/stripe/checkout.ts:187-201 | ends the trial now and records the new period end; an unknown subscription throws and nothing changes |
| Activation.Rejection | app/api/orders/activate-subscription/route.ts:10-44 | the four guards, in order: 400 with no id, 404 for an unknown order, 400 with no subscription id, 400 unless delivered; no rejection exactly when all four pass |
| Activation.SubscriptionCheckedFirst | app/api/orders/activate-subscription/route.ts:31-44 | an order with neither a subscription id nor a delivery is rejected for the missing subscription |
| Activation.ActivatedRecord | app/api/orders/activate-subscription/route.ts:56-63 | the subscription record becomes active, dated now and tagged `delivery_webhook`, and nothing else changes |
| Activation.ActivateSubscription | app/api/orders/activate-subscription/route.ts:6-76 | a rejected request changes nothing; a gateway failure gives 500 and changes nothing; otherwise the trial ends and the order is activated, then the record is updated with 200, or 500 when the record is missing |
| Orders.GetOrder | lib/firebase/orders.ts:17-28 | none exactly when the order does not exist; otherwise the order with its id |
| Orders.StatusUpdateFor | lib/firebase/orders.ts:76-92 | the update sets the status and `updatedAt`; a shipped, delivered or activated stamp is written exactly for that status, and at most one stamp |
| Orders.ApplyStatusUpdate | lib/firebase/orders.ts:94 | the status and `updatedAt` are written; each stamp sent is written with its value, each stamp not sent is kept, and nothing else changes |
| Orders.StatusActivatedMatchesRoute | lib/firebase/orders.ts:89-90 | setting the status to `activated` writes the record the activation route writes, plus `updatedAt` |
| Orders.StampsAccumulate | lib/firebase/orders.ts:82-94 | shipping and then delivering keeps both stamps |
| Orders.UpdateOrderStatus | lib/firebase/orders.ts:71-99 | a known order gets the status update; a missing one fails with Firestore's error and nothing is written |
| Orders.DeliveredOrder | lib/firebase/orders.ts:109 | status `delivered`, with a delivery stamp |
| Orders.DeliveredPassesActivationGuard | lib/firebase/orders.ts:105-116 | after marking delivered, the activation route accepts the order exactly when the id is non-empty and the order has a subscription id |
| Orders.SimulateDelivery | lib/firebase/orders.ts:102-127 | an unknown order fails with "Commande non trouvée" and nothing is written; otherwise it marks the order delivered, then calls the activation route; a refused activation, or a missing subscription record after the gateway write, fails with "Erreur activation abonnement" |
| Webhook.OrderAddressFrom | app/api/stripe/webhook/route.ts:67-72 | missing address parts become empty; a missing or empty country becomes FR, a given one is kept; the country is never empty |
| Webhook.ConfirmedOrder | app/api/stripe/webhook/route.ts:62-74 | confirmed, linked to the customer, subscription and payment, stamped with a confirmation date; the address comes from the event or is the stored one; nothing else changes |
| Webhook.ProfileUpdateFrom | app/api/stripe/webhook/route.ts:78-87 | only the phone and the address are sent; the address is sent exactly when the event has one |
| Webhook.ProfileAddressMatchesOrder | app/api/stripe/webhook/route.ts:67-87 | the profile's new address equals the address stamped on the order |
| Webhook.PendingRecord | app/api/stripe/webhook/route.ts:91-102 | a pending record tagged `delivery_webhook`, holding the session id, the subscription id and 999 cents |
| Webhook.HandleCheckoutCompleted | app/api/stripe/webhook/route.ts:38-105 | an unknown session writes nothing; otherwise: create the subscription, confirm the order, update the profile when it has shipping details and a user, write the pending record; each failure stops the later writes |
| Webhook.RunningRecord | app/api/stripe/webhook/route.ts:115-122 | active since now, next billing at the period end in milliseconds, and nothing else changes |
| Webhook.HandleSubscriptionUpdated | app/api/stripe/webhook/route.ts:107-137 | only a running subscription that is not paused acts: its record is updated, then the tagged order is activated; a missing document fails |
| Webhook.HandleInvoicePaid | app/api/stripe/webhook/route.ts:139-156 | with a subscription id, only the next billing date is rewritten, from the gateway's period end |
| Webhook.CancelledRecord | app/api/stripe/webhook/route.ts:162-168 | cancelled, with a cancellation date, and nothing else changes |
| Webhook.HandleSubscriptionDeleted | app/api/stripe/webhook/route.ts:158-170 | the record is cancelled and no order is written; a missing record fails |
| Webhook.HandleWebhook | app/api/stripe/webhook/route.ts:9-183 | 400 without a signature or when verification fails, and nothing written; otherwise the event's handler runs: 200 when it succeeds, 500 "Webhook handler failed" when it throws |
| CheckoutRoute.DraftOrder | app/api/checkout/create-session/route.ts:38-62 | a pending draft order with the fixed product snapshot and only the session id on the gateway side |
| CheckoutRoute.DraftAgeVersusBirthdayAge | app/api/checkout/create-session/route.ts:49 | the draft's age is a plain difference of years: one more than the children page's age while the birthday is still ahead |
| CheckoutRoute.CheckoutDataFor | app/api/checkout/create-session/route.ts:24-35 | the session is opened for the first item's child; the phone is not passed on |
| CheckoutRoute.CreateSession | app/api/checkout/create-session/route.ts:8-74 | no items: 400 and nothing written; otherwise a session is opened; with no address, 500 and no order; else 200 and the draft stored under the session id |
| Users.NewUserDoc | lib/firebase/users.ts:33-43 | the given uid, no children, zero counters, created and updated now |
| Users.CreateUserIgnoresDataUid | lib/firebase/users.ts:33-36 | a uid inside the data is overridden by the document's id |
| Users.CreateUser | lib/firebase/users.ts:31-51 | the new document is stored under the uid, replacing any earlier one |
| Users.ProfileWriteFor | lib/firebase/users.ts:60-72 | only the given profile fields are written, plus `updatedAt`; an address gets FR for an empty country |
| Users.BuildProfileWrite | lib/firebase/users.ts:60-72 | the step-by-step construction of the write produces exactly that write |
| Users.ApplyProfileWrite | lib/firebase/users.ts:74 | the write overwrites only the fields sent, plus `updatedAt` |
| Users.ProfileUpdateIdempotent | lib/firebase/users.ts:60-74 | applying the same profile update twice equals applying it once |
| Users.EmptyProfileUpdate | lib/firebase/users.ts:60-74 | an empty update only touches `updatedAt` |
| Users.UpdateUserProfile | lib/firebase/users.ts:54-79 | a known user gets the write; an unknown one fails and nothing is written |
| Users.MergeChild | lib/firebase/users.ts:141 | the update's fields replace the child's; the rest are kept |
| Users.AppendChild | lib/firebase/users.ts:103-106 | the new child goes last, under the sub-document's id |
| Users.MergedChildren | lib/firebase/users.ts:140-142 | children with the id are merged; the others are kept in place |
| Users.RemainingChildren | lib/firebase/users.ts:164 | every child with the id goes; each other child stays as often as it occurs, in order (it is `Keyed.Without` of the children) |
| Users.DeleteUndoesAdd | lib/firebase/users.ts:103-164 | deleting a just-added child (fresh id) gives back the earlier list |
| Users.DeleteChildIdempotent | lib/firebase/users.ts:164 | deleting twice equals deleting once |
| Users.AddChild | lib/firebase/users.ts:82-119 | the sub-document is created; when the user exists, the child is appended to its list; the id is returned |
| Users.UpdatedChildDoc | lib/firebase/users.ts:129-135 | each of the four fields sent (id, first name, birth date, SmarTeen flag) replaces the stored one; `updatedAt` is now; `createdAt` is kept |
| Users.UpdateChild | lib/firebase/users.ts:122-153 | a missing sub-document fails before any write; otherwise the sub-document and the user's list are both updated |
| Users.DeleteChild | lib/firebase/users.ts:156-175 | the sub-document is removed and the child is filtered out of the user's list |
| Keyed.Without | stores/cartStore.ts:36 | every element with the id goes; each other element stays exactly as often as it occurs; a one-element list is kept or emptied, so with `Keyed.WithoutAppend` the order is kept |
| Keyed.WithoutAppend | stores/cartStore.ts:36 | filtering distributes over concatenation |
| Keyed.WithoutAbsent | stores/cartStore.ts:36 | with no element under the id, the filter changes nothing |
| Keyed.WithoutIdempotent | stores/cartStore.ts:36 | filtering a second time by the same id changes nothing more |
| Keyed.Replace | stores/cartStore.ts:42-44 | the elements with the id are transformed; the rest stay in place |
| Keyed.ReplaceAbsent | stores/cartStore.ts:42-44 | with no element under the id, the map changes nothing |
| Cart.AddItem | stores/cartStore.ts:26-32 | the item is appended under the given id, and the cart opens |
| Cart.RemoveItem | stores/cartStore.ts:34-38 | every item with the id goes; each other item stays as often as it occurs, in order (it is `Keyed.Without` of the items); the drawer flag is kept |
| Cart.UpdateItem | stores/cartStore.ts:40-46 | the items with the id are merged with the update; the others are unchanged |
| Cart.ClearCart | stores/cartStore.ts:48-50 | empty and closed |
| Cart.ToggleCart | stores/cartStore.ts:52-54 | the open flag flips; the items are kept |
| Cart.ToggleTwice | stores/cartStore.ts:52-54 | toggling twice restores the cart |
| Cart.GetItemsCount | stores/cartStore.ts:60-62 | the number of items; zero exactly for an empty cart |
| Cart.Total | stores/cartStore.ts:57 | the sum of the prices: zero for no items, the price for one |
| Cart.GetTotal | stores/cartStore.ts:56-58 | zero for an empty cart, the price for a one-item cart, never negative when no price is |
| Cart.TotalAppend | stores/cartStore.ts:56-58 | the total is additive over concatenation |
| Cart.TotalBounds | stores/cartStore.ts:56-58 | with every price between two bounds, the total lies between the item count times each bound |
| Cart.TotalNonNegative | stores/cartStore.ts:56-58 | with no negative price, the total is not negative |
| Cart.AddItemRaisesTotals | stores/cartStore.ts:26-62 | adding an item raises the total by its price and the count by one |
| Cart.RemoveUndoesAdd | stores/cartStore.ts:26-38 | removing an item just added under a fresh id restores the items |
| Cart.RemoveAbsent | stores/cartStore.ts:34-38 | removing an absent id changes nothing |
| Cart.UpdateKeepsTotal | stores/cartStore.ts:40-58 | an update without a price keeps the total |
| Toasts.Reduce | components/ui/use-toast.tsx:19-31 | adding appends the toast; removing drops every toast with the id and keeps each other toast as often as it occurs, in order (it is `Keyed.Without` of the list) |
| Toasts.RemoveAbsentToast | components/ui/use-toast.tsx:26-30 | removing an absent id changes nothing |
| Toasts.RemoveUndoesAdd | components/ui/use-toast.tsx:21-30 | removing a toast just added under a fresh id restores the list |
| Toasts.ToastStore.Dispatch | components/ui/use-toast.tsx:19-36 | the list is reduced; then each listener, in order, is called once with the new list |
| Toasts.ToastStore.Show | components/ui/use-toast.tsx:53-61 | the toast's id is the current time in decimal; it is appended and every listener is told |
| Toasts.ToastStore.Dismiss | components/ui/use-toast.tsx:62-64 | the removal action for the id |
| Base.MessageOr | stores/authStore.ts:44 | the error's message, or the fallback text when the message is empty; the auth store keeps it as its error, and the activation and checkout routes answer it with a 500 |
| Base.Decimal | lib/batch-orders.ts:57 | `n.toString()`: a non-empty digit text with no leading zero whose value is `n`; it is the clock reading in the batch number `BATCH-<time>` and, in components/ui/use-toast.tsx:54, the toast id |
| Base.FirstWhere | lib/stripe/checkout.ts:25-31 | the index of the first matching element; none exactly when no element matches (the lookups with limit 1: the customer by email, the recurring price at lib/stripe/checkout.ts:141-146) |
| Auth.AuthStore.constructor | stores/authStore.ts:23-29 | signed out, not loading, no error |
| Auth.AuthStore.SignInWith | stores/authStore.ts:31-69 | on success: the account and both flags, and no error; on failure: the account is kept, the message is stored and the error re-thrown; never left loading |
| Auth.AuthStore.Login | stores/authStore.ts:31-49 | sign-in, with fallback "Erreur de connexion" |
| Auth.AuthStore.Register | stores/authStore.ts:51-69 | sign-up, with fallback "Erreur d'inscription" |
| Auth.AuthStore.Logout | stores/authStore.ts:71-89 | on success, everything is reset; on failure, the message is stored and nothing is re-thrown |
| Auth.AuthStore.SetUser | stores/authStore.ts:105-111 | authenticated exactly when an account is given; the shop flag is set as given |
| Auth.AuthStore.SetSmartteenUser | stores/authStore.ts:113-115 | only the shop user record changes |
| Auth.AuthStore.ClearError | stores/authStore.ts:117 | only the error is cleared |
| Age.AgeOn | app/account/children/page.tsx:82-91 | the difference of the years, one less exactly while this year's birthday is still ahead |
| Age.AgeCountsCompletedYears | app/account/children/page.tsx:82-91 | the age-th anniversary is not after today, and the next one is |
| Age.CompletedYearsUnique | app/account/children/page.tsx:82-91 | only that count of years has that property |
| Age.CalculateAge | app/account/children/page.tsx:82-91 | the step-by-step computation equals the age |
| Lifecycle.OrderLifecycle | app/api/orders/activate-subscription/route.ts:31-53 | draft, confirmed, shipped in a batch, delivered: the activation guard passes, and the activated order keeps its session id and gains each stamp once |

## Left out

- Signature verification of webhook events is an input: the verified event or the error it throws. The Stripe client's cryptography is not part of this model.
- Concurrency and atomicity between requests are not modelled. Each call runs alone against the two stores. Races between two `addOrderToBatch` calls are not captured.
- Amounts are integer cents. The source's 9.99 and 289 floating-point values are the integers 999 and 289.
- Dates are natural-number timestamps in milliseconds. `new Date(...)` parsing, time zones and the calendar arithmetic of `Date` are not modelled. The children page's `today` is passed as a calendar date beside `now`.
- `generateOrderNumber`, the Firestore auto-ids, the Stripe object ids and the toast clock are parameters.
- Batching.AddOrderToBatch: the new batch at lib/batch-orders.ts:65 is modelled as a creation, although the code writes it with `updateDoc` on a fresh document reference, which Firestore rejects because the document does not exist yet. The model follows the evident intent: a batch is created.
- Batching.AddOrderToBatch: the batch it returns keeps the status `collecting` even when the readiness step has marked the stored batch ready. The code does this; the model follows it.
- Batching.ShipBatch: when the commit fails, the batch stays `shipping` with no order written. The code does this; the model follows it.
- Batching.RoundedPercent: halves are rounded up exactly. The code divides and multiplies in floating point before `Math.round`, so a product just below a half rounds down there: 145 of 1000 gives 14 in the code (the product is 14.499999999999998) and 15 here.
- Batching.GetCurrentBatch: a failed query is treated as "no batch", so a second collecting batch can be opened (see Batching.FailedQueryOpensSecondBatch). The one-collecting-batch invariant is therefore proved only for successful queries.
- `notifyBatchCustomers` only logs to the console and is not modelled. `createAdminNotification` is modelled as an appended notification.
- Activation.ActivateSubscription: when the subscription record is missing, the order has already been activated but the response is 500. The code does this; the model follows it.
- Webhook.HandleCheckoutCompleted: when the profile update throws, the order is already confirmed, the response is 500 and no subscription record is written. Each replay of the event creates another gateway subscription. The code does both; the model follows it.
- Webhook.HandleSubscriptionUpdated: activates the tagged order without checking that it was delivered. This is the code's behaviour.
- The checkout route is not wired to batching in the source, and the model keeps them apart. `addOrderToBatch` is a separate operation.
- CheckoutRoute.CreateSession: the phone number from the request is stored on the draft order but not passed to the gateway. The code does this; the model follows it.
- Stripe and Firestore calls fail only for an unknown id, a missing address or a missing document. Network, permission and validation rejections are not modelled, nor the 500 the routes answer for them: a rejected customer or session call in app/api/checkout/create-session/route.ts:30-35 (answered at 67-72), a failing price lookup or creation in lib/stripe/checkout.ts:141-165, a rejected `setDoc` or `addDoc`.
- Firestore's rejection of `undefined` field values is not modelled: an absent optional field is simply not written.
- The override of the services product id through an environment variable is not modelled: the constant is the code's fallback.
- `getUser`, `getUserOrders`, `getUserSubscriptions`, `resetUserPassword`, `updateUserPassword` and `updateUserEmail` are reads or authentication-service calls outside the fulfilment path, and are not modelled.
- The toast timers (`setTimeout` removal) and listener registration from React effects are not modelled. The listeners are a fixed sequence given to the store.
- The cart's cookie persistence is not modelled.
