/**
 * The checkout endpoint: a fixed order of early-return checks on the
 * request, the order amount in minor units (each item's price is rounded
 * to cents before it is multiplied by the quantity and summed), the
 * payment-intent request, and the classification of what was thrown.
 */
module CheckoutRoute {
  import opened Wrappers

  /** A JSON member where the route expects a number. */
  datatype NumberField = Missing | NotNumber | NaN | Number(value: real)

  /** One entry of `items`; members other than price and quantity are not read. */
  datatype Item = Item(price: NumberField, quantity: NumberField)

  /** The `items` member: falsy (absent, null, ...), truthy but not an array, or an array. */
  datatype ItemsField = Falsy | NotArray | Array(entries: seq<Item>)

  /** What `request.json()` gives: a parse failure, `null`, or an object. */
  datatype RequestBody = Unparseable | Null | Object(items: ItemsField, customerEmail: Option<string>)

  /** A thrown value as the catch block sees it: its `type` and `message`. */
  datatype Thrown = Thrown(errorType: Option<string>, message: string)

  /** What the processor's create-intent call returns or throws. */
  datatype IntentOutcome = Created(clientSecret: Option<string>) | Failed(error: Thrown)

  /** The arguments of the create-intent call. */
  datatype IntentRequest = IntentRequest(
    amount: real, currency: string, receiptEmail: Option<string>, automaticPaymentMethods: bool)

  datatype ResponseBody = SecretBody(clientSecret: Option<string>) | ErrorBody(error: string)

  datatype Response = Response(status: int, body: ResponseBody)

  /** How far the handler gets without the processor: a response, or a create-intent call. */
  datatype Stage = Done(response: Response) | CreateIntent(request: IntentRequest)

  const NotConfiguredMessage := "Stripe is not configured properly. Please check server logs."
  const InvalidRequestMessage := "Invalid request data"
  const InvalidItemsMessage := "Invalid items data"
  const InvalidItemMessage := "Invalid item data"
  const ServerErrorMessage := "Server error processing payment"
  const StripeErrorPrefix := "Stripe error: "

  /** The plain Error thrown by the amount reduce: it has no `type`. */
  const InvalidItemError := Thrown(None, InvalidItemMessage)

  /** The TypeError of destructuring a `null` body: it has no `type` either. */
  const NullBodyError := Thrown(None, "Cannot destructure property 'items' of 'requestData' as it is null.")

  /** JavaScript falsiness of a field: absent, NaN or 0. */
  predicate Falsy(f: NumberField)
  {
    f.Missing? || f.NaN? || (f.Number? && f.value == 0.0)
  }

  /** `typeof x === 'number'`: NaN is a number too. */
  predicate IsNumberType(f: NumberField)
  {
    f.NaN? || f.Number?
  }

  /** A field passes the guard: a number other than 0 and NaN. */
  predicate Accepted(f: NumberField)
    ensures Accepted(f) <==> !(Falsy(f) || !IsNumberType(f))
    ensures Accepted(f) ==> f.Number?
  {
    f.Number? && f.value != 0.0
  }

  /** The guard of the reduce callback is false for this item. */
  predicate ItemAccepted(item: Item)
  {
    Accepted(item.price) && Accepted(item.quantity)
  }

  /** The reduce callback throws for an item exactly when its guard holds. */
  lemma ItemGuard(item: Item)
    ensures !ItemAccepted(item) <==>
      Falsy(item.price) || !IsNumberType(item.price) || Falsy(item.quantity) || !IsNumberType(item.quantity)
  {
  }

  /** Math.round: the nearest integer, halves rounded up. */
  function Round(x: real): (n: int)
    ensures n as real - 0.5 <= x < n as real + 0.5
  {
    (x + 0.5).Floor
  }

  /** One item's share of the amount: its price in cents, rounded, times its quantity. */
  function LineAmount(item: Item): (a: real)
    requires ItemAccepted(item)
    ensures item.quantity.value == 1.0 ==> a == Round(item.price.value * 100.0) as real
    // a nonzero price under half a cent passes the guard but adds nothing
    ensures -0.005 <= item.price.value < 0.005 ==> a == 0.0
  {
    Round(item.price.value * 100.0) as real * item.quantity.value
  }

  /** The reference total: the sum of the line amounts. */
  function LineSum(entries: seq<Item>): real
    requires forall i :: 0 <= i < |entries| ==> ItemAccepted(entries[i])
  {
    if entries == [] then 0.0 else LineAmount(entries[0]) + LineSum(entries[1..])
  }

  /**
   * The `items.reduce(..., 0)` of the handler, started from `total`: it adds
   * the line amounts left to right and throws (None) at the first item
   * whose price or quantity is not accepted.
   */
  function AmountFrom(total: real, entries: seq<Item>): (r: Option<real>)
    ensures r.Some? <==> forall i :: 0 <= i < |entries| ==> ItemAccepted(entries[i])
    ensures r.Some? ==> r.value == total + LineSum(entries)
    decreases |entries|
  {
    if entries == [] then Some(total)
    else if !ItemAccepted(entries[0]) then None
    else
      assert forall i :: 1 <= i < |entries| ==> entries[1..][i - 1] == entries[i];
      AmountFrom(total + LineAmount(entries[0]), entries[1..])
  }

  /** The catch block: a `type` starting with "Stripe" is a 400, anything else a 500. */
  function Classify(e: Thrown): (r: Response)
    ensures r.status == 400 <==> e.errorType.Some? && StripePrefix <= e.errorType.value
    ensures r.status == 400 ==> r.body == ErrorBody(StripeErrorPrefix + e.message)
    ensures r.status != 400 ==> r == Response(500, ErrorBody(ServerErrorMessage))
  {
    if IsNonEmpty(e.errorType) && StripePrefix <= e.errorType.value then
      Response(400, ErrorBody(StripeErrorPrefix + e.message))
    else
      Response(500, ErrorBody(ServerErrorMessage))
  }

  const StripePrefix := "Stripe"

  /** `!items || !Array.isArray(items) || items.length === 0` is false. */
  predicate ItemsPresent(items: ItemsField)
    ensures !ItemsPresent(items) <==> items.Falsy? || items.NotArray? || |items.entries| == 0
  {
    items.Array? && |items.entries| > 0
  }

  /** Everything the handler does before it calls the processor, in its order. */
  function Prepare(configured: bool, body: RequestBody): (r: Stage)
    // the configuration is checked before the body is read
    ensures !configured ==> r == Done(Response(500, ErrorBody(NotConfiguredMessage)))
    ensures configured && body.Unparseable? ==> r == Done(Response(400, ErrorBody(InvalidRequestMessage)))
    ensures configured && body.Null? ==> r == Done(Response(500, ErrorBody(ServerErrorMessage)))
    ensures configured && body.Object? && !ItemsPresent(body.items) ==>
      r == Done(Response(400, ErrorBody(InvalidItemsMessage)))
    // an item with a falsy or non-number price or quantity is a 500, not a 400
    ensures (configured && body.Object? && ItemsPresent(body.items) &&
             exists i :: 0 <= i < |body.items.entries| && !ItemAccepted(body.items.entries[i])) ==>
      r == Done(Response(500, ErrorBody(ServerErrorMessage)))
    // the processor is called exactly when every check passed
    ensures r.CreateIntent? <==>
      configured && body.Object? && ItemsPresent(body.items) &&
      forall i :: 0 <= i < |body.items.entries| ==> ItemAccepted(body.items.entries[i])
    ensures r.CreateIntent? ==>
      r.request == IntentRequest(LineSum(body.items.entries), "usd", body.customerEmail, true)
  {
    if !configured then Done(Response(500, ErrorBody(NotConfiguredMessage)))
    else match body
      case Unparseable => Done(Response(400, ErrorBody(InvalidRequestMessage)))
      case Null => Done(Classify(NullBodyError))
      case Object(items, customerEmail) =>
        if !items.Array? || |items.entries| == 0 then Done(Response(400, ErrorBody(InvalidItemsMessage)))
        else match AmountFrom(0.0, items.entries)
          case None => Done(Classify(InvalidItemError))
          case Some(amount) => CreateIntent(IntentRequest(amount, "usd", customerEmail, true))
  }

  /** The whole handler, given what the processor returns if it is called. */
  function Post(configured: bool, body: RequestBody, processor: IntentOutcome): (r: Response)
    ensures r.status == 200 || r.status == 400 || r.status == 500
    ensures r.body.SecretBody? <==> r.status == 200
    ensures r.status == 200 <==> Prepare(configured, body).CreateIntent? && processor.Created?
    ensures r.status == 200 ==> r.body.clientSecret == processor.clientSecret
    ensures Prepare(configured, body).Done? ==> r == Prepare(configured, body).response
    ensures Prepare(configured, body).CreateIntent? && processor.Failed? ==> r == Classify(processor.error)
  {
    match Prepare(configured, body)
      case Done(response) => response
      case CreateIntent(_) =>
        match processor
          case Created(secret) => Response(200, SecretBody(secret))
          case Failed(e) => Classify(e)
  }

  /** An amount built from whole quantities is a whole number of cents. */
  lemma {:induction false} WholeQuantitiesWholeAmount(entries: seq<Item>)
    requires forall i :: 0 <= i < |entries| ==>
      ItemAccepted(entries[i]) && entries[i].quantity.value == entries[i].quantity.value.Floor as real
    ensures LineSum(entries) == LineSum(entries).Floor as real
  {
    if entries != [] {
      var e := entries[0];
      var c := Round(e.price.value * 100.0);
      var q := e.quantity.value.Floor;
      assert LineAmount(e) == (c * q) as real;
      assert forall i :: 1 <= i < |entries| ==> entries[1..][i - 1] == entries[i];
      WholeQuantitiesWholeAmount(entries[1..]);
      var rest := LineSum(entries[1..]).Floor;
      assert LineSum(entries) == (c * q + rest) as real;
    }
  }

  /**
   * Rounding each item before multiplying and summing is not rounding the
   * sum: 19.999 x 1 and 5.005 x 2 give 2000 + 2 * 501 = 3002 cents, while
   * rounding the unrounded total 3000.9 gives 3001.
   */
  lemma PerItemRounding()
    ensures var entries := [Item(Number(19.999), Number(1.0)), Item(Number(5.005), Number(2.0))];
      AmountFrom(0.0, entries) == Some(3002.0) &&
      Round(19.999 * 100.0 * 1.0 + 5.005 * 100.0 * 2.0) == 3001
  {
    var entries := [Item(Number(19.999), Number(1.0)), Item(Number(5.005), Number(2.0))];
    assert Round(1999.9) == 2000;
    assert Round(500.5) == 501;
    assert LineSum(entries[1..][1..]) == 0.0;
    assert LineSum(entries) == 2000.0 + 1002.0;
    assert Round(3000.9) == 3001;
  }

  /** Negative prices and quantities pass the item check and enter the sum. */
  lemma NegativeValuesAccepted(email: Option<string>)
    ensures Prepare(true, Object(Array([Item(Number(-5.0), Number(2.0))]), email))
         == CreateIntent(IntentRequest(-1000.0, "usd", email, true))
  {
    var entries := [Item(Number(-5.0), Number(2.0))];
    assert Round(-500.0) == -500;
    assert LineSum(entries[1..]) == 0.0;
  }

  /** The module-level processor handle, set once when the module loads. */
  class CheckoutServer {
    var stripeConfigured: bool

    /** `if (stripeSecretKey)` creates the client; a throwing constructor leaves it null. */
    constructor Load(secretKey: Option<string>, clientConstructorThrows: bool)
      ensures stripeConfigured == (IsNonEmpty(secretKey) && !clientConstructorThrows)
    {
      stripeConfigured := false;
      if IsNonEmpty(secretKey) {
        if !clientConstructorThrows {
          stripeConfigured := true;
        }
      }
    }

    method HandlePost(body: RequestBody, processor: IntentOutcome) returns (r: Response)
      ensures !stripeConfigured ==> r == Response(500, ErrorBody(NotConfiguredMessage))
      ensures r == Post(stripeConfigured, body, processor)
    {
      var stage := Prepare(stripeConfigured, body);
      match stage {
        case Done(response) =>
          r := response;
        case CreateIntent(_) =>
          match processor {
            case Created(secret) => r := Response(200, SecretBody(secret));
            case Failed(e) => r := Classify(e);
          }
      }
    }
  }
}
