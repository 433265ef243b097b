# T-shirt storefront: cart, checkout endpoint and payment form

This project models the sequential logic of a small storefront in Dafny and
proves its properties. It covers three pieces:

- **The cart store** (`CartContext`). This is an ordered list of line items
  that the provider replaces on every add, remove and clear. Adding an id that
  is already in the cart raises that line's quantity by `quantity || 1`. Adding
  a new id appends one line. Removing filters out an id. The count is the sum
  of the quantities. The class `CartProvider` holds the `items` state. The pure
  functions `AddedTo`, `RemovedFrom` and `SumQuantities` specify it. The store's
  invariant is that at most one line has any given id; every operation keeps it.
- **The checkout endpoint** (`CheckoutRoute`). The POST handler runs its
  early-return checks in order: processor configured, body parsed, `items` a
  non-empty array, each item's price and quantity a nonzero number. It then
  computes the amount in cents: each price is rounded to cents, multiplied by
  the quantity, and the lines are summed. Last it asks the processor for a
  payment intent. The catch block turns a thrown value into a 400 when its
  `type` starts with "Stripe", and into a 500 otherwise. The invalid-item error
  has no `type`, so an invalid item gives a 500, not a 400. `Prepare` covers
  everything before the processor call. `Post` adds the processor's outcome.
  The class `CheckoutServer` holds the module-level processor handle, which is
  set once at load.
- **The payment form** (`Payment`). It has four state variables: `isLoading`,
  `errorMessage`, `clientSecret` and `isInitializing`. They change in four
  places: the initialization effect and its reply handler, the
  configuration-error effect, and the submit handler, which is split at its
  `await` into `BeginPayment` and `FinishPayment`. The class `PaymentForm`
  changes the fields step by step, as the source does. The value-level
  functions (`StartInit`, `InitReplied`, `ConfigChecked`, `BeginSubmit`,
  `CompleteSubmit`, `Submit`) specify these steps, and the methods are proved
  equal to them. Some lemmas run a cart through the endpoint and back into the
  form.

External results are parameters:
- The parsed request body.
- The processor's create-intent outcome.
- The presence of the processor toolkit, its elements and the card element.
- The confirm-payment outcome.
- The fetch reply.

An operation that calls the processor returns the arguments of that call (an
`IntentRequest` or a `ConfirmCall`). A call that is never made shows up as
`None` or as a `Done` stage.

Behaviour of the code that a reader might not expect:
- An invalid item gives 500 "Server error processing payment", not 400. The
  `Error` thrown at route.ts:71 has no `type`, so the catch block at
  route.ts:97 does not classify it as a processor error.
- A JSON `null` body makes the destructuring at route.ts:51 throw a
  `TypeError`. That error has no `type` either, so the result is a 500.
- When the intent has no client secret, route.ts:94 answers 200 with
  `clientSecret: null` (`NullSecretLeavesFormSilent`). On a form that holds
  no earlier secret, the message is then left as it was and the pay button
  stays disabled.
- The form's reply handler does not read the HTTP status. The fallback in
  `data.error || 'Failed to initialize…'` can never be taken, because that
  branch is entered only when `data.error` is truthy.
- `handleSubmit` does not test `isLoading`. Only the disabled button stops a
  second submission while one is in flight (`BeginSubmit` proves that the
  button is disabled while the confirm call is outstanding).

## Model

| member | source | states |
|---|---|---|
| `CartContext.AddedQuantity` | tshirt-website/src/app/context/CartContext.tsx:38-42 | `quantity \|\| 1`: an absent or zero quantity adds 1, and any other quantity adds itself. The result is never 0, and it is at least 1 when the quantity is absent or non-negative. |
| `CartContext.NewLine` | tshirt-website/src/app/context/CartContext.tsx:42 | The appended line copies the product's id, name, price and image. Its quantity is `quantity \|\| 1`, so it is never 0. |
| `CartContext.IndexOf` | tshirt-website/src/app/context/CartContext.tsx:31-33 | `findIndex`: -1 exactly when no line has the id. Otherwise it gives a position holding the id with no earlier line holding it. |
| `CartContext.SumQuantities` | tshirt-website/src/app/context/CartContext.tsx:55-57 | The count fold is 0 for the empty cart, and at least the number of lines when every quantity is at least 1. |
| `CartContext.SumAppend` | tshirt-website/src/app/context/CartContext.tsx:55-57 | The count of a concatenation is the sum of the two counts. |
| `CartContext.SumUpdate` | tshirt-website/src/app/context/CartContext.tsx:55-57 | Replacing one line changes the count by the difference of the quantities. |
| `CartContext.SumRemoveAt` | tshirt-website/src/app/context/CartContext.tsx:55-57 | Dropping the line at k lowers the count by that line's quantity. |
| `CartContext.AddedTo` | tshirt-website/src/app/context/CartContext.tsx:29-44 | Existing id: same length, only that line's quantity rises by the added quantity, and every other line is unchanged. New id: exactly one line is appended, and the earlier lines keep their values and order. In both cases the id is present afterwards. The count grows by the added quantity. Unique ids stay unique. |
| `CartContext.AddSameTwice` | tshirt-website/src/app/context/CartContext.tsx:31-43 | For nonzero quantities q1 and q2, adding a new product with quantity q1 and then q2 gives one line for it, at the end, with quantity q1 + q2. A zero quantity adds 1 instead (see `AddedQuantity`). |
| `CartContext.RemovedFrom` | tshirt-website/src/app/context/CartContext.tsx:47-49 | `filter`: an item is in the result iff it was in the cart and its id differs. The id is absent afterwards. An absent id leaves the cart unchanged. |
| `CartContext.RemoveConcat` | tshirt-website/src/app/context/CartContext.tsx:48 | On any cart, unique ids or not, filtering a concatenation filters each part and joins the results, so the kept lines stay in their original relative order. |
| `CartContext.UniqueCons` | tshirt-website/src/app/context/CartContext.tsx:47-49 | A line put in front of lines with unique, different ids keeps the ids unique. |
| `CartContext.RemovePreservesUnique` | tshirt-website/src/app/context/CartContext.tsx:47-49 | Removal keeps the ids unique. |
| `CartContext.UniqueTail` | tshirt-website/src/app/context/CartContext.tsx:47-49 | The tail of a cart with unique ids has unique ids, none of them equal to the head's id. |
| `CartContext.RemoveAt` | tshirt-website/src/app/context/CartContext.tsx:47-49 | With unique ids, removing the id at position k yields exactly `items[..k] + items[k+1..]`: that line is dropped and the others keep their relative order. |
| `CartContext.RemoveCount` | tshirt-website/src/app/context/CartContext.tsx:47-57 | With unique ids, removing a present id lowers the count by that line's quantity. |
| `CartContext.AddRemoveNew` | tshirt-website/src/app/context/CartContext.tsx:29-49 | For a cart with unique ids and a product whose id is not in it, removing that id after adding the product gives back the original cart. |
| `CartContext.CartProvider.constructor` | tshirt-website/src/app/context/CartContext.tsx:24 | The cart starts empty, so its ids are unique. |
| `CartContext.CartProvider.AddToCart` | tshirt-website/src/app/context/CartContext.tsx:26-45 | The new items are `AddedTo(old items, p)`, computed by an in-place update of the found line or an append. Unique ids stay unique. The count grows by the added quantity. |
| `CartContext.CartProvider.RemoveFromCart` | tshirt-website/src/app/context/CartContext.tsx:47-49 | The new items are the filtered items. Unique ids stay unique. An absent id changes nothing. |
| `CartContext.CartProvider.ClearCart` | tshirt-website/src/app/context/CartContext.tsx:51-53 | The cart is empty and its count is 0, whatever it held before. A second clear therefore changes nothing. |
| `CartContext.CartProvider.GetCartCount` | tshirt-website/src/app/context/CartContext.tsx:55-57 | The count is 0 for the empty cart, and at least the number of lines when every quantity is at least 1. |
| `CartContext.UseCart` | tshirt-website/src/app/context/CartContext.tsx:68-73 | Reading the context outside a provider is a precondition violation (the source throws). Inside one, it gives the provider's value. |
| `CheckoutRoute.Round` | tshirt-website/src/app/api/checkout/route.ts:73 | `Math.round` over reals: the result is within half a unit of x, and halves round up. |
| `CheckoutRoute.Accepted` | tshirt-website/src/app/api/checkout/route.ts:64-69 | A field passes the guard exactly when `!x \|\| typeof x !== 'number'` is false: it is not falsy (absent, NaN or 0) and it is a number. Such a field holds a number. |
| `CheckoutRoute.ItemGuard` | tshirt-website/src/app/api/checkout/route.ts:64-71 | An item is rejected (the callback throws) exactly when the price or the quantity is falsy or not a number. |
| `CheckoutRoute.LineAmount` | tshirt-website/src/app/api/checkout/route.ts:73 | One unit of an item costs its price in cents, rounded. A nonzero price under half a cent passes the guard but adds 0 to the amount. |
| `CheckoutRoute.ItemsPresent` | tshirt-website/src/app/api/checkout/route.ts:54 | The items check fails exactly when `items` is falsy, not an array, or an empty array. |
| `CheckoutRoute.AmountFrom` | tshirt-website/src/app/api/checkout/route.ts:63-74 | The reduce throws exactly when some item's price or quantity is falsy or not a number. Otherwise its value is the start total plus the sum of round(price·100)·quantity over the items. |
| `CheckoutRoute.Classify` | tshirt-website/src/app/api/checkout/route.ts:95-108 | 400 iff the thrown value's `type` starts with "Stripe", with the body "Stripe error: " + message. Every other thrown value gives 500 "Server error processing payment". |
| `CheckoutRoute.Prepare` | tshirt-website/src/app/api/checkout/route.ts:26-91 | The checks in their order. Unconfigured: 500 with the configuration message, whatever the body. Unparseable body: 400 "Invalid request data". `null` body: 500. Missing, non-array or empty items: 400 "Invalid items data". Any rejected item: 500 "Server error processing payment". The processor is called iff every check passed, with amount = the per-item-rounded sum, currency "usd", receipt email = `customerEmail` and automatic payment methods enabled. |
| `CheckoutRoute.Post` | tshirt-website/src/app/api/checkout/route.ts:26-110 | The status is 200, 400 or 500. The body is a client-secret body (its secret may be null) iff the status is 200. The status is 200 iff the processor was called and created an intent, and the secret is the one it returned. An early response is returned unchanged. A processor error goes through the catch classification. |
| `CheckoutRoute.WholeQuantitiesWholeAmount` | tshirt-website/src/app/api/checkout/route.ts:63-74 | When every quantity is a whole number, the amount is a whole number of cents. |
| `CheckoutRoute.PerItemRounding` | tshirt-website/src/app/api/checkout/route.ts:73 | Rounding happens per item, before the multiply and the sum. Over exact reals, items 19.999×1 and 5.005×2 give 3002 cents, while rounding the unrounded sum would give 3001. In IEEE doubles 19.999·100 is 1999.8999999999999 and 5.005·100 is exactly 500.5, so the program computes 3002 for this cart too. |
| `CheckoutRoute.NegativeValuesAccepted` | tshirt-website/src/app/api/checkout/route.ts:64-73 | A negative price passes the item check and enters the amount: -5.00 × 2 requests an intent of -1000. |
| `CheckoutRoute.CheckoutServer.Load` | tshirt-website/src/app/api/checkout/route.ts:8-24 | The handle is set exactly when the secret key is a non-empty string and the client constructor does not throw. |
| `CheckoutRoute.CheckoutServer.HandlePost` | tshirt-website/src/app/api/checkout/route.ts:26-110 | The handler reads the module-level handle. Without a handle the result is the configuration 500. In every case the response is `Post` of the handle's state. |
| `Payment.ToRouteItems` | tshirt-website/src/app/components/PaymentForm.tsx:50-53 | The request carries one entry per cart line, in order, with the line's price and quantity. |
| `Payment.CheckoutBody` | tshirt-website/src/app/components/PaymentForm.tsx:47-53 | The request body is an object whose `items` is an array with one entry per cart line, carrying that line's price and quantity, and whose `customerEmail` is the form's email. The endpoint's items check passes exactly when the cart is non-empty. |
| `Payment.ReplyOf` | tshirt-website/src/app/components/PaymentForm.tsx:55-58 | The parsed reply is never a fetch failure. A secret body gives that secret and no error; an error body gives that error and no secret. The status code is not looked at. |
| `Payment.StartInit` | tshirt-website/src/app/components/PaymentForm.tsx:43-54 | A request is sent iff the cart has at least one item. The request carries the items and the email, and `isInitializing` is set. Otherwise nothing changes. |
| `Payment.InitReplied` | tshirt-website/src/app/components/PaymentForm.tsx:59-75 | `isInitializing` ends false on every path, and `isLoading` is untouched. A truthy secret is stored and the error cleared. Otherwise a truthy error is shown and the secret kept. A reply with neither changes nothing else. A failed fetch shows "Failed to initialize payment. Please try again.". |
| `Payment.ConfigChecked` | tshirt-website/src/app/components/PaymentForm.tsx:88-94 | Once initializing is over, a missing processor or missing elements sets the configuration message. Otherwise nothing changes. |
| `Payment.BeginSubmit` | tshirt-website/src/app/components/PaymentForm.tsx:96-130 | The confirm call is made iff the processor, elements, a truthy secret and the card element are all present, and it carries that secret and the email. A failed readiness guard sets "Payment system not fully loaded…" and leaves `isLoading` untouched. A missing card sets "Card information is required" with `isLoading` false. After the call is made the form is loading, the error is cleared and the pay button is disabled. The secret is kept on every path. |
| `Payment.IsSuccess` | tshirt-website/src/app/components/PaymentForm.tsx:134-137 | The success branch is taken for exactly one outcome: no error and the status "succeeded". |
| `Payment.PayEnabled` | tshirt-website/src/app/components/PaymentForm.tsx:181 | The pay button is disabled exactly when there is no processor, no truthy secret, a payment in flight, or initialization still running. |
| `Payment.CompleteSubmit` | tshirt-website/src/app/components/PaymentForm.tsx:119-148 | `isLoading` is false afterwards and the secret is kept. onSuccess is signalled iff there is no error and the status is "succeeded". A confirm error shows its message, or "An error occurred with your payment" when that is empty. Another status shows "Payment status: <status>". A throw shows "An unexpected error occurred. Please try again.". |
| `Payment.Submit` | tshirt-website/src/app/components/PaymentForm.tsx:96-149 | One submit signals onSuccess (once) iff every guard passed and the payment succeeded. The form is not left loading unless it already was and the readiness guard failed. The secret is kept. |
| `Payment.ResubmitAfterFailure` | tshirt-website/src/app/components/PaymentForm.tsx:134-148 | From an enabled pay button, a submit whose confirmation fails keeps the secret and ends with the button enabled again, so a retry needs no re-initialization. |
| `Payment.RouteAmountOfCart` | tshirt-website/src/app/api/checkout/route.ts:63-74 | For a cart request whose lines all have a nonzero price and quantity, the endpoint's reduce gives the cart's amount in cents. |
| `Payment.LineSumOfCart` | tshirt-website/src/app/api/checkout/route.ts:63-74 | Such a cart's entries all pass the item check, and their line sum is the cart's amount in cents. |
| `Payment.CartCheckoutReady` | tshirt-website/src/app/components/PaymentForm.tsx:41-70 | A valid non-empty cart is sent, reaches the processor with the customer's email, and a non-empty secret in the reply is stored with no error. When the form was not loading and the processor toolkit is present, the pay button is then enabled. |
| `Payment.UnconfiguredServerShown` | tshirt-website/src/app/api/checkout/route.ts:29-37 | Without a processor on the server, the form shows the server's configuration message and keeps its secret. |
| `Payment.InvalidLineShownAsServerError` | tshirt-website/src/app/api/checkout/route.ts:64-108 | A cart line with a zero price or quantity makes the endpoint return 500 "Server error processing payment", and the form shows that message. |
| `Payment.NullSecretLeavesFormSilent` | tshirt-website/src/app/api/checkout/route.ts:84-94 | An intent without a client secret gives 200 with a null secret. On a form that holds no secret yet, the reply only stops initializing: the message is left as it was and the button stays disabled. A form that kept a secret from an earlier initialization (PaymentForm.tsx:44 does not clear it) keeps that secret. By `InitReplied`, its button is enabled again once initializing ends, provided the toolkit is present and no payment is in flight. |
| `Payment.SingleTeeAmount` | tshirt-website/src/app/api/checkout/route.ts:73 | One Classic Black Tee at 29.99 is an intent of 2999 cents. Shipping is not part of the amount. |
| `Payment.PaymentForm.constructor` | tshirt-website/src/app/components/PaymentForm.tsx:18-21 | The form starts not loading, with no error, no secret, and initializing. |
| `Payment.PaymentForm.InitializePayment` | tshirt-website/src/app/components/PaymentForm.tsx:43-54 | The fields and the request sent are those of `StartInit`. |
| `Payment.PaymentForm.ReceiveInitReply` | tshirt-website/src/app/components/PaymentForm.tsx:59-75 | The fields become those of `InitReplied`. |
| `Payment.PaymentForm.CheckConfiguration` | tshirt-website/src/app/components/PaymentForm.tsx:88-94 | The fields become those of `ConfigChecked`. |
| `Payment.PaymentForm.BeginPayment` | tshirt-website/src/app/components/PaymentForm.tsx:96-130 | The fields and the confirm call made are those of `BeginSubmit`. Once the call is made, the pay button is disabled. |
| `Payment.PaymentForm.FinishPayment` | tshirt-website/src/app/components/PaymentForm.tsx:132-148 | The fields, and whether onSuccess is called, are those of `CompleteSubmit`. |
| `Payment.PaymentForm.SubmitEnabled` | tshirt-website/src/app/components/PaymentForm.tsx:181 | The button's `disabled` expression is false exactly when the processor is present, the secret is truthy and the form is neither loading nor initializing. |

## Left out

- Payment-processor SDK calls (client construction, intent creation, `loadStripe`, card confirmation) are not modelled. Their results are parameters.
- HTTP, `fetch`, `request.json()` and the JSON responses are not modelled. The request is a parsed `RequestBody`, and the response is a status with a body.
- Floating-point money is not modelled. Prices are reals and `Math.round` is ⌊x + ½⌋ over the reals, which is not IEEE-double exact: with doubles, 1.005·100 is 100.49999999999999 and rounds to 100, while over the reals it is 100.5 and rounds to 101. The displayed totals, the 5.99 shipping and `toFixed` are not modelled.
- JSON entries are simplified: a `null` or primitive entry in `items` behaves like an item with missing price and quantity (both throw an untyped error and give a 500), so it is not modelled separately. A non-string `type` on a thrown value is not modelled.
- React effect scheduling, re-runs on `[items, email]` and races between overlapping fetches are not modelled. This is framework behaviour and concurrency. Each handler is modelled as one atomic step.
- Logging (`console.*`) is not modelled.
- The client-side processor handle caching in StripeProvider.tsx is not part of this model. It is a thin wrapper over `loadStripe`.
- Presentation is not modelled: the checkout page, hero, navbar, home page and Next.js config.
- `CartContext.CartProvider.AddToCart`: the source bumps the quantity on the existing item object, which it shares with the previous state array. The model updates a value and does not capture that sharing.
- The mount and state-change logging effects in PaymentForm.tsx (lines 29-39 and 80-85) only log, so they are not modelled.
