/**
 * The payment form: it asks the checkout endpoint for a client secret when
 * the cart is not empty, shows what came back, and on submit asks the
 * processor to confirm the card payment, reporting each outcome with its
 * own message and signalling success to its owner.
 */
module Payment {
  import opened Wrappers
  import CartContext
  import CheckoutRoute

  /** The form's four state variables. */
  datatype FormState = FormState(
    isLoading: bool, errorMessage: Option<string>, clientSecret: Option<string>, isInitializing: bool)

  const Initial := FormState(false, None, None, true)

  const InitFailedMessage := "Failed to initialize payment. Please try again."
  const NotConfiguredMessage := "Payment system is not properly configured. Please try again later."
  const NotLoadedMessage := "Payment system not fully loaded. Please refresh and try again."
  const CardRequiredMessage := "Card information is required"
  const PaymentErrorFallback := "An error occurred with your payment"
  const UnexpectedMessage := "An unexpected error occurred. Please try again."
  const StatusPrefix := "Payment status: "
  const Succeeded := "succeeded"

  /** The parsed reply of the checkout request, or a failed fetch or parse. */
  datatype InitReply = Reply(clientSecret: Option<string>, error: Option<string>) | FetchFailed

  /** The arguments of the confirm call: the client secret and the billing email. */
  datatype ConfirmCall = ConfirmCall(clientSecret: string, billingEmail: string)

  /** What the confirm call returns (an error's message, or the intent's status) or that it threw. */
  datatype ConfirmOutcome = Returned(error: Option<string>, status: string) | Threw

  datatype Started = Started(state: FormState, request: Option<CheckoutRoute.RequestBody>)
  datatype Begun = Begun(state: FormState, call: Option<ConfirmCall>)
  datatype Completed = Completed(state: FormState, signalSuccess: bool)

  /** A cart line as the request body carries it. */
  function ToRouteItem(item: CartContext.CartItem): CheckoutRoute.Item
  {
    CheckoutRoute.Item(CheckoutRoute.Number(item.price), CheckoutRoute.Number(item.quantity as real))
  }

  function ToRouteItems(items: seq<CartContext.CartItem>): (r: seq<CheckoutRoute.Item>)
    ensures |r| == |items|
    ensures forall i :: 0 <= i < |items| ==> r[i] == ToRouteItem(items[i])
  {
    if items == [] then [] else [ToRouteItem(items[0])] + ToRouteItems(items[1..])
  }

  /** `JSON.stringify({ items, customerEmail: email })`. */
  function CheckoutBody(items: seq<CartContext.CartItem>, email: string): (b: CheckoutRoute.RequestBody)
    ensures b.Object? && b.items.Array? && b.customerEmail == Some(email)
    ensures |b.items.entries| == |items|
    ensures forall i :: 0 <= i < |items| ==>
      b.items.entries[i].price == CheckoutRoute.Number(items[i].price) &&
      b.items.entries[i].quantity == CheckoutRoute.Number(items[i].quantity as real)
    // the endpoint's items check passes exactly for a non-empty cart
    ensures CheckoutRoute.ItemsPresent(b.items) <==> |items| > 0
  {
    CheckoutRoute.Object(CheckoutRoute.Array(ToRouteItems(items)), Some(email))
  }

  /** `res.json()` of the endpoint's response. The status code is not looked at. */
  function ReplyOf(r: CheckoutRoute.Response): (reply: InitReply)
    ensures reply.Reply?
    ensures r.body.SecretBody? ==> reply == Reply(r.body.clientSecret, None)
    ensures r.body.ErrorBody? ==> reply == Reply(None, Some(r.body.error))
  {
    match r.body
      case SecretBody(secret) => Reply(secret, None)
      case ErrorBody(e) => Reply(None, Some(e))
  }

  /** The initialization effect: a request is sent only for a non-empty cart. */
  function StartInit(s: FormState, items: seq<CartContext.CartItem>, email: string): (r: Started)
    ensures r.request.Some? <==> |items| > 0
    ensures r.request.Some? ==> r.request.value == CheckoutBody(items, email) && r.state == s.(isInitializing := true)
    ensures r.request.None? ==> r.state == s
  {
    if |items| > 0 then Started(s.(isInitializing := true), Some(CheckoutBody(items, email)))
    else Started(s, None)
  }

  /** The handling of the checkout reply; initializing ends on every path. */
  function InitReplied(s: FormState, reply: InitReply): (t: FormState)
    ensures !t.isInitializing && t.isLoading == s.isLoading
    ensures reply.Reply? && IsNonEmpty(reply.clientSecret) ==>
      t.clientSecret == reply.clientSecret && t.errorMessage == None
    ensures reply.Reply? && !IsNonEmpty(reply.clientSecret) && IsNonEmpty(reply.error) ==>
      t.errorMessage == reply.error && t.clientSecret == s.clientSecret
    ensures reply.Reply? && !IsNonEmpty(reply.clientSecret) && !IsNonEmpty(reply.error) ==>
      t == s.(isInitializing := false)
    ensures reply.FetchFailed? ==>
      t.errorMessage == Some(InitFailedMessage) && t.clientSecret == s.clientSecret
  {
    match reply
      case Reply(secret, error) =>
        var s1 :=
          if IsNonEmpty(secret) then s.(clientSecret := secret, errorMessage := None)
          else if IsNonEmpty(error) then s.(errorMessage := error)
          else s;
        s1.(isInitializing := false)
      case FetchFailed =>
        s.(errorMessage := Some(InitFailedMessage), isInitializing := false)
  }

  /** The configuration effect: once initializing is over, a missing processor or elements is reported. */
  function ConfigChecked(s: FormState, stripe: bool, elements: bool): (t: FormState)
    ensures !s.isInitializing && !(stripe && elements) ==> t == s.(errorMessage := Some(NotConfiguredMessage))
    ensures s.isInitializing || (stripe && elements) ==> t == s
  {
    if !s.isInitializing && (!stripe || !elements) then s.(errorMessage := Some(NotConfiguredMessage)) else s
  }

  /** The submit button is enabled: `!stripe || !clientSecret || isLoading || isInitializing` is false. */
  predicate PayEnabled(s: FormState, stripe: bool)
    ensures !PayEnabled(s, stripe) <==> !stripe || !IsNonEmpty(s.clientSecret) || s.isLoading || s.isInitializing
  {
    stripe && IsNonEmpty(s.clientSecret) && !s.isLoading && !s.isInitializing
  }

  /** handleSubmit up to the confirm call. */
  function BeginSubmit(s: FormState, stripe: bool, elements: bool, cardElement: bool, email: string): (r: Begun)
    // the confirm call is made exactly when every guard passed
    ensures r.call.Some? <==> stripe && elements && IsNonEmpty(s.clientSecret) && cardElement
    ensures !(stripe && elements && IsNonEmpty(s.clientSecret)) ==>
      r.state == s.(errorMessage := Some(NotLoadedMessage))
    ensures stripe && elements && IsNonEmpty(s.clientSecret) && !cardElement ==>
      r.state == s.(isLoading := false, errorMessage := Some(CardRequiredMessage))
    ensures r.call.Some? ==>
      r.call.value == ConfirmCall(s.clientSecret.value, email) &&
      r.state == s.(isLoading := true, errorMessage := None)
    // while the confirm call is outstanding the button is disabled
    ensures r.call.Some? ==> !PayEnabled(r.state, stripe)
    ensures r.state.clientSecret == s.clientSecret && r.state.isInitializing == s.isInitializing
  {
    if !stripe || !elements || !IsNonEmpty(s.clientSecret) then
      Begun(s.(errorMessage := Some(NotLoadedMessage)), None)
    else
      var loading := s.(isLoading := true, errorMessage := None);
      if !cardElement then
        Begun(loading.(errorMessage := Some(CardRequiredMessage), isLoading := false), None)
      else
        Begun(loading, Some(ConfirmCall(s.clientSecret.value, email)))
  }

  /** `!error` and `paymentIntent.status === 'succeeded'`. */
  predicate IsSuccess(outcome: ConfirmOutcome)
    ensures IsSuccess(outcome) <==> outcome == Returned(None, Succeeded)
  {
    outcome.Returned? && outcome.error.None? && outcome.status == Succeeded
  }

  /** handleSubmit after the confirm call returned or threw. */
  function CompleteSubmit(s: FormState, outcome: ConfirmOutcome): (r: Completed)
    ensures !r.state.isLoading
    ensures r.state.clientSecret == s.clientSecret && r.state.isInitializing == s.isInitializing
    // onSuccess is called on the success branch and on no other
    ensures r.signalSuccess <==> IsSuccess(outcome)
    ensures IsSuccess(outcome) ==> r.state == s.(isLoading := false)
    ensures outcome.Returned? && outcome.error.Some? ==>
      r.state.errorMessage == Some(if outcome.error.value != "" then outcome.error.value else PaymentErrorFallback)
    ensures outcome.Returned? && outcome.error.None? && outcome.status != Succeeded ==>
      r.state.errorMessage == Some(StatusPrefix + outcome.status)
    ensures outcome.Threw? ==> r.state.errorMessage == Some(UnexpectedMessage)
  {
    match outcome
      case Returned(error, status) =>
        var s1 := s.(isLoading := false);
        if error.Some? then
          Completed(s1.(errorMessage := Some(if error.value != "" then error.value else PaymentErrorFallback)), false)
        else if status == Succeeded then
          Completed(s1, true)
        else
          Completed(s1.(errorMessage := Some(StatusPrefix + status)), false)
      case Threw =>
        Completed(s.(errorMessage := Some(UnexpectedMessage), isLoading := false), false)
  }

  /**
   * One whole submit: the guards, then, when the confirm call was made, its
   * outcome. onSuccess is called once exactly when every guard passed and
   * the payment succeeded, and the form is never left loading.
   */
  function Submit(s: FormState, stripe: bool, elements: bool, cardElement: bool, email: string,
                  outcome: ConfirmOutcome): (r: Completed)
    ensures r.signalSuccess <==>
      stripe && elements && IsNonEmpty(s.clientSecret) && cardElement && IsSuccess(outcome)
    ensures !r.state.isLoading || (s.isLoading && !(stripe && elements && IsNonEmpty(s.clientSecret)))
    ensures r.state.clientSecret == s.clientSecret
  {
    var b := BeginSubmit(s, stripe, elements, cardElement, email);
    if b.call.Some? then CompleteSubmit(b.state, outcome) else Completed(b.state, false)
  }

  /**
   * A failed payment leaves the form ready for another attempt with the same
   * client secret: from an enabled button, a submit whose confirmation fails
   * ends with the button enabled again, and no re-initialization.
   */
  lemma ResubmitAfterFailure(s: FormState, email: string, outcome: ConfirmOutcome)
    requires PayEnabled(s, true)
    requires !IsSuccess(outcome)
    ensures var b := BeginSubmit(s, true, true, true, email);
      b.call.Some? &&
      var c := CompleteSubmit(b.state, outcome);
      !c.signalSuccess && c.state.clientSecret == s.clientSecret && PayEnabled(c.state, true)
  {
  }

  /** The whole initialization round trip against the endpoint. */
  function Initialized(s: FormState, items: seq<CartContext.CartItem>, email: string, configured: bool,
                       processor: CheckoutRoute.IntentOutcome): FormState
    requires |items| > 0
  {
    InitReplied(s.(isInitializing := true),
                ReplyOf(CheckoutRoute.Post(configured, CheckoutBody(items, email), processor)))
  }

  /** The amount in cents for a cart: each line's price rounded to cents, times its quantity. */
  function CartAmount(items: seq<CartContext.CartItem>): int
  {
    if items == [] then 0
    else CheckoutRoute.Round(items[0].price * 100.0) * items[0].quantity + CartAmount(items[1..])
  }

  /** The endpoint's total for a cart's request body is the cart's amount in cents. */
  lemma {:induction false} RouteAmountOfCart(items: seq<CartContext.CartItem>)
    requires forall i :: 0 <= i < |items| ==> items[i].price != 0.0 && items[i].quantity != 0
    ensures CheckoutRoute.AmountFrom(0.0, ToRouteItems(items)) == Some(CartAmount(items) as real)
  {
    var r := ToRouteItems(items);
    assert forall i :: 0 <= i < |r| ==> CheckoutRoute.ItemAccepted(r[i]);
    LineSumOfCart(items);
  }

  lemma {:induction false} LineSumOfCart(items: seq<CartContext.CartItem>)
    requires forall i :: 0 <= i < |items| ==> items[i].price != 0.0 && items[i].quantity != 0
    ensures forall i :: 0 <= i < |items| ==> CheckoutRoute.ItemAccepted(ToRouteItems(items)[i])
    ensures CheckoutRoute.LineSum(ToRouteItems(items)) == CartAmount(items) as real
  {
    if items != [] {
      var r := ToRouteItems(items);
      assert r[1..] == ToRouteItems(items[1..]);
      LineSumOfCart(items[1..]);
      var c := CheckoutRoute.Round(items[0].price * 100.0);
      assert CheckoutRoute.LineAmount(r[0]) == (c * items[0].quantity) as real;
    }
  }

  /**
   * A cart whose lines all have a nonzero price and quantity reaches the
   * processor (with the amount of RouteAmountOfCart and the customer's
   * email); a client secret in the reply enables the pay button.
   */
  lemma CartCheckoutReady(s: FormState, items: seq<CartContext.CartItem>, email: string, secret: string)
    requires |items| > 0
    requires forall i :: 0 <= i < |items| ==> items[i].price != 0.0 && items[i].quantity != 0
    requires secret != "" && !s.isLoading
    ensures StartInit(s, items, email) == Started(s.(isInitializing := true), Some(CheckoutBody(items, email)))
    ensures CheckoutRoute.Prepare(true, CheckoutBody(items, email)).CreateIntent?
    ensures CheckoutRoute.Prepare(true, CheckoutBody(items, email)).request.receiptEmail == Some(email)
    ensures var t := Initialized(s, items, email, true, CheckoutRoute.Created(Some(secret)));
      t.clientSecret == Some(secret) && t.errorMessage == None && PayEnabled(t, true)
  {
    var entries := ToRouteItems(items);
    assert forall i :: 0 <= i < |entries| ==> CheckoutRoute.ItemAccepted(entries[i]);
  }

  /** Without a processor on the server, the form shows the server's configuration message. */
  lemma UnconfiguredServerShown(s: FormState, items: seq<CartContext.CartItem>, email: string,
                                processor: CheckoutRoute.IntentOutcome)
    requires |items| > 0
    ensures var st := StartInit(s, items, email);
      st.request.Some? &&
      var t := InitReplied(st.state, ReplyOf(CheckoutRoute.Post(false, st.request.value, processor)));
      t.errorMessage == Some(CheckoutRoute.NotConfiguredMessage) && t.clientSecret == s.clientSecret &&
      !t.isInitializing
  {
  }

  /**
   * A cart line with a zero price or quantity makes the endpoint throw its
   * untyped item error, and the form shows the generic server error.
   */
  lemma InvalidLineShownAsServerError(s: FormState, items: seq<CartContext.CartItem>, email: string,
                                      processor: CheckoutRoute.IntentOutcome, k: nat)
    requires k < |items|
    requires items[k].price == 0.0 || items[k].quantity == 0
    ensures var st := StartInit(s, items, email);
      st.request.Some? &&
      CheckoutRoute.Post(true, st.request.value, processor)
        == CheckoutRoute.Response(500, CheckoutRoute.ErrorBody(CheckoutRoute.ServerErrorMessage)) &&
      var t := InitReplied(st.state, ReplyOf(CheckoutRoute.Post(true, st.request.value, processor)));
      t.errorMessage == Some(CheckoutRoute.ServerErrorMessage) && t.clientSecret == s.clientSecret
  {
    assert !CheckoutRoute.ItemAccepted(ToRouteItems(items)[k]);
  }

  /**
   * The endpoint answers 200 with a null client secret when the processor
   * gives none; a form holding no earlier secret then leaves its message as it
   * was and keeps the button disabled.
   */
  lemma NullSecretLeavesFormSilent(s: FormState, items: seq<CartContext.CartItem>, email: string)
    requires |items| > 0 && s.clientSecret == None
    requires forall i :: 0 <= i < |items| ==> items[i].price != 0.0 && items[i].quantity != 0
    ensures CheckoutRoute.Post(true, CheckoutBody(items, email), CheckoutRoute.Created(None))
         == CheckoutRoute.Response(200, CheckoutRoute.SecretBody(None))
    ensures var t := Initialized(s, items, email, true, CheckoutRoute.Created(None));
      t == s.(isInitializing := false) && !PayEnabled(t, true)
  {
    var entries := ToRouteItems(items);
    assert forall i :: 0 <= i < |entries| ==> CheckoutRoute.ItemAccepted(entries[i]);
  }

  /** One Classic Black Tee at 29.99 is an intent of 2999 cents; shipping is not charged. */
  lemma SingleTeeAmount()
    ensures CartAmount([CartContext.CartItem("ts1", "Classic Black Tee", 29.99, "/images/black_tee.jpg", 1)]) == 2999
  {
    assert CheckoutRoute.Round(2999.0) == 2999;
  }

  /** The form component: its state variables and its handlers. */
  class PaymentForm {
    const email: string
    var isLoading: bool
    var errorMessage: Option<string>
    var clientSecret: Option<string>
    var isInitializing: bool

    function State(): FormState
      reads this
    {
      FormState(isLoading, errorMessage, clientSecret, isInitializing)
    }

    constructor (email: string)
      ensures this.email == email && State() == Initial
    {
      this.email := email;
      isLoading := false;
      errorMessage := None;
      clientSecret := None;
      isInitializing := true;
    }

    /** The second effect, up to the fetch; it returns the body sent, if any. */
    method InitializePayment(items: seq<CartContext.CartItem>) returns (request: Option<CheckoutRoute.RequestBody>)
      modifies this
      ensures Started(State(), request) == StartInit(old(State()), items, email)
    {
      request := None;
      if |items| > 0 {
        isInitializing := true;
        request := Some(CheckoutBody(items, email));
      }
    }

    /** The fetch continuations: the reply callback or the catch callback. */
    method ReceiveInitReply(reply: InitReply)
      modifies this
      ensures State() == InitReplied(old(State()), reply)
    {
      match reply {
        case Reply(secret, error) =>
          if IsNonEmpty(secret) {
            clientSecret := secret;
            errorMessage := None;
          } else if IsNonEmpty(error) {
            errorMessage := error;
          }
          isInitializing := false;
        case FetchFailed =>
          errorMessage := Some(InitFailedMessage);
          isInitializing := false;
      }
    }

    /** The effect that reports a missing processor or elements. */
    method CheckConfiguration(stripe: bool, elements: bool)
      modifies this
      ensures State() == ConfigChecked(old(State()), stripe, elements)
    {
      if !isInitializing && (!stripe || !elements) {
        errorMessage := Some(NotConfiguredMessage);
      }
    }

    /** handleSubmit up to the awaited confirm call; it returns that call, if made. */
    method BeginPayment(stripe: bool, elements: bool, cardElement: bool) returns (call: Option<ConfirmCall>)
      modifies this
      ensures Begun(State(), call) == BeginSubmit(old(State()), stripe, elements, cardElement, email)
      ensures call.Some? ==> !SubmitEnabled(stripe)
    {
      if !stripe || !elements || !IsNonEmpty(clientSecret) {
        errorMessage := Some(NotLoadedMessage);
        return None;
      }
      isLoading := true;
      errorMessage := None;
      if !cardElement {
        errorMessage := Some(CardRequiredMessage);
        isLoading := false;
        return None;
      }
      call := Some(ConfirmCall(clientSecret.value, email));
    }

    /** handleSubmit after the await; it returns whether onSuccess is called. */
    method FinishPayment(outcome: ConfirmOutcome) returns (signalSuccess: bool)
      modifies this
      ensures Completed(State(), signalSuccess) == CompleteSubmit(old(State()), outcome)
    {
      signalSuccess := false;
      match outcome {
        case Returned(error, status) =>
          isLoading := false;
          if error.Some? {
            errorMessage := Some(if error.value != "" then error.value else PaymentErrorFallback);
          } else if status == Succeeded {
            signalSuccess := true;
          } else {
            errorMessage := Some(StatusPrefix + status);
          }
        case Threw =>
          errorMessage := Some(UnexpectedMessage);
          isLoading := false;
      }
    }

    /** The pay button's `disabled` attribute is false. */
    predicate SubmitEnabled(stripe: bool)
      reads this
      ensures SubmitEnabled(stripe) <==> stripe && IsNonEmpty(clientSecret) && !isLoading && !isInitializing
    {
      PayEnabled(State(), stripe)
    }
  }
}
