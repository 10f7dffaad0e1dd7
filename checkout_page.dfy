/**
 * The checkout page: the shipping form, its validation, and "Place order", which either
 * starts a hosted Stripe checkout (card) or posts a cash-on-delivery order.
 *
 * The browser's side effects (the two requests, clearing the stored cart, the redirect,
 * router navigation and toasts, and the `loading` flag) are recorded in order as a trace
 * of effects.  What `loadStripe` and the server answer are parameters of the call.
 */
module CheckoutPage {
  import opened Wrappers
  import opened Shop
  import opened ClientPricing
  import opened OrdersRoute
  import opened StripeCheckout

  /** The seven fields `validateForm` requires; country is not among them. */
  predicate ValidateForm(si: ShippingInfo) {
    si.fullName != "" && si.email != "" && si.phone != "" && si.address != ""
    && si.city != "" && si.state != "" && si.zipCode != ""
  }

  /** Whatever country is chosen, including none, the verdict is the same. */
  lemma CountryNeverChecked(si: ShippingInfo, country: string)
    ensures ValidateForm(si.(country := country)) == ValidateForm(si)
  {
  }

  /** The form the page starts with: name and email from the session user, country "USA". */
  function InitialForm(user: Option<(string, string)>): ShippingInfo {
    var (name, email) := if user.Some? then user.value else ("", "");
    ShippingInfo(name, email, "", "", "", "", "", "USA")
  }

  /** The untouched form never validates: the phone and address fields start empty. */
  lemma InitialFormInvalid(user: Option<(string, string)>)
    ensures !ValidateForm(InitialForm(user))
  {
  }

  datatype PaymentChoice = Card | Cod

  /** What the page does that is visible outside its own state. */
  datatype Effect =
    | LoadingOn
    | LoadingOff
    | PostStripeCheckout(checkout: CheckoutBody)
    | PostOrder(order: OrderBody)
    | ClearStoredCart
    | RedirectTo(url: string)
    | NavigateTo(path: string)
    | ToastError(message: string)
    | ToastSuccess(message: string)

  /** The server's answer: `response.ok` and the JSON fields the page reads. */
  datatype Response = Response(ok: bool, error: string, url: string, orderId: string)

  const FormError := "Please fill in all shipping information"

  /** The body posted to `/api/stripe/checkout`: the cart, the form and the displayed amounts. */
  function CardBody(cart: seq<CartItem>, si: ShippingInfo): CheckoutBody {
    var q := QuoteFor(cart);
    CheckoutBody(Items(cart), Some(si), Some(q.subtotal), Some(q.tax), Some(q.shipping), Some(q.total))
  }

  /** The body posted to `/api/orders`. */
  function CodBody(cart: seq<CartItem>, si: ShippingInfo): OrderBody {
    var q := QuoteFor(cart);
    OrderBody(Items(cart), Some(si), "cod", q.subtotal, q.tax, q.shipping, q.total, "pending", "pending")
  }

  /** The effects of the `try` block, including the toast its `catch` shows. */
  function AttemptEffects(cart: seq<CartItem>, si: ShippingInfo, pm: PaymentChoice, stripeLoads: bool, reply: Response)
    : seq<Effect>
  {
    match pm
    case Card =>
      if !stripeLoads then [ToastError("Failed to load Stripe")]
      else if !reply.ok then
        [PostStripeCheckout(CardBody(cart, si)),
         ToastError(if reply.error != "" then reply.error else "Failed to create checkout session")]
      else if reply.url != "" then [PostStripeCheckout(CardBody(cart, si)), ClearStoredCart, RedirectTo(reply.url)]
      else [PostStripeCheckout(CardBody(cart, si)), ClearStoredCart, ToastError("No checkout URL received")]
    case Cod =>
      if !reply.ok then [PostOrder(CodBody(cart, si)), ToastError("Failed to create order")]
      else [PostOrder(CodBody(cart, si)), ClearStoredCart, ToastSuccess("Order placed successfully!"),
            NavigateTo("/orders?success=true&orderId=" + (if reply.orderId != "" then reply.orderId else "new"))]
  }

  /** Everything one press of "Place order" does. */
  function PlaceOrderEffects(cart: seq<CartItem>, si: ShippingInfo, pm: PaymentChoice, stripeLoads: bool, reply: Response)
    : seq<Effect>
  {
    if !ValidateForm(si) then [ToastError(FormError)]
    else [LoadingOn] + AttemptEffects(cart, si, pm, stripeLoads, reply) + [LoadingOff]
  }

  /** An incomplete form sends nothing, touches no storage and never sets `loading`. */
  lemma InvalidFormSendsNothing(cart: seq<CartItem>, si: ShippingInfo, pm: PaymentChoice, stripeLoads: bool, reply: Response)
    requires !ValidateForm(si)
    ensures forall e :: e in PlaceOrderEffects(cart, si, pm, stripeLoads, reply) ==> e.ToastError?
  {
  }

  /** A valid form sets `loading` first and clears it last, whatever happens in between. */
  lemma LoadingAlwaysCleared(cart: seq<CartItem>, si: ShippingInfo, pm: PaymentChoice, stripeLoads: bool, reply: Response)
    requires ValidateForm(si)
    ensures var fx := PlaceOrderEffects(cart, si, pm, stripeLoads, reply);
      |fx| >= 2 && fx[0] == LoadingOn && fx[|fx| - 1] == LoadingOff
      && forall k :: 0 < k < |fx| - 1 ==> fx[k] != LoadingOn && fx[k] != LoadingOff
  {
  }

  /**
   * The stored cart is cleared exactly when the form is valid, Stripe loaded (for a card),
   * and the server answered with success; every failure leaves it in place.
   */
  lemma CartClearedOnlyOnSuccess(cart: seq<CartItem>, si: ShippingInfo, pm: PaymentChoice, stripeLoads: bool, reply: Response)
    ensures ClearStoredCart in PlaceOrderEffects(cart, si, pm, stripeLoads, reply)
            <==> ValidateForm(si) && reply.ok && (pm == Card ==> stripeLoads)
  {
    var fx := PlaceOrderEffects(cart, si, pm, stripeLoads, reply);
    if ValidateForm(si) {
      var inner := AttemptEffects(cart, si, pm, stripeLoads, reply);
      assert fx == [LoadingOn] + inner + [LoadingOff];
      assert ClearStoredCart in fx <==> ClearStoredCart in inner;
    }
  }

  /**
   * A cash-on-delivery order from a non-empty cart and a valid form, by a signed-in user, is
   * accepted by the orders route and stored as pending with the amounts the page displayed.
   */
  lemma CodOrderStoredAsDisplayed(cart: seq<CartItem>, si: ShippingInfo, reply: Response, user: SessionUser)
    requires ValidateForm(si) && |cart| > 0 && user.id != ""
    ensures var fx := PlaceOrderEffects(cart, si, Cod, true, reply);
      && fx[1] == PostOrder(CodBody(cart, si))
      && var r := PostDecision(Some(user), CodBody(cart, si));
      && r.Created?
      && r.record.status == "pending" && r.record.paymentStatus == "pending"
      && r.record.itemsPrice == QuoteFor(cart).subtotal && r.record.taxPrice == QuoteFor(cart).tax
      && r.record.shippingPrice == QuoteFor(cart).shipping && r.record.totalPrice == QuoteFor(cart).total
  {
  }

  /** The page's state. */
  class CheckoutView {
    var cartItems: seq<CartItem>
    var shippingInfo: ShippingInfo
    var paymentMethod: PaymentChoice
    var loading: bool
    /** Whether localStorage still holds the 'cart' entry. */
    var cartStored: bool
    var trace: seq<Effect>

    /** The page after loading the stored cart and pre-filling the form; card is preselected. */
    constructor (storedCart: seq<CartItem>, user: Option<(string, string)>)
      ensures cartItems == storedCart && shippingInfo == InitialForm(user) && paymentMethod == Card
      ensures !loading && cartStored && trace == []
    {
      cartItems := storedCart;
      shippingInfo := InitialForm(user);
      paymentMethod := Card;
      loading := false;
      cartStored := true;
      trace := [];
    }

    /** `handlePlaceOrder`: `stripeLoads` is what `loadStripe` gives, `reply` the server's answer. */
    method PlaceOrder(stripeLoads: bool, reply: Response)
      modifies this
      ensures trace == old(trace) + PlaceOrderEffects(cartItems, shippingInfo, paymentMethod, stripeLoads, reply)
      ensures cartStored == (old(cartStored) && ClearStoredCart !in PlaceOrderEffects(cartItems, shippingInfo, paymentMethod, stripeLoads, reply))
      ensures loading == (old(loading) && !ValidateForm(shippingInfo))
      ensures cartItems == old(cartItems) && shippingInfo == old(shippingInfo) && paymentMethod == old(paymentMethod)
    {
      if !ValidateForm(shippingInfo) {
        trace := trace + [ToastError(FormError)];
        return;
      }
      ghost var before := trace;
      loading := true;
      trace := trace + [LoadingOn];
      Attempt(stripeLoads, reply);
      loading := false;
      trace := trace + [LoadingOff];
      ghost var inner := AttemptEffects(cartItems, shippingInfo, paymentMethod, stripeLoads, reply);
      assert trace == before + ([LoadingOn] + inner + [LoadingOff]);
      assert ClearStoredCart in [LoadingOn] + inner + [LoadingOff] <==> ClearStoredCart in inner;
    }

    /** The `try` block of `handlePlaceOrder` and its `catch`, with `loading` already set. */
    method Attempt(stripeLoads: bool, reply: Response)
      modifies this
      ensures trace == old(trace) + AttemptEffects(cartItems, shippingInfo, paymentMethod, stripeLoads, reply)
      ensures cartStored == (old(cartStored) && ClearStoredCart !in AttemptEffects(cartItems, shippingInfo, paymentMethod, stripeLoads, reply))
      ensures loading == old(loading)
      ensures cartItems == old(cartItems) && shippingInfo == old(shippingInfo) && paymentMethod == old(paymentMethod)
    {
      var out: seq<Effect> := [];
      var failure: Option<string> := None;
      if paymentMethod == Card {
        if !stripeLoads {
          failure := Some("Failed to load Stripe");
        } else {
          out := [PostStripeCheckout(CardBody(cartItems, shippingInfo))];
          if !reply.ok {
            failure := Some(if reply.error != "" then reply.error else "Failed to create checkout session");
          } else {
            cartStored := false;
            out := out + [ClearStoredCart];
            if reply.url != "" {
              out := out + [RedirectTo(reply.url)];
            } else {
              failure := Some("No checkout URL received");
            }
          }
        }
      } else {
        out := [PostOrder(CodBody(cartItems, shippingInfo))];
        if !reply.ok {
          failure := Some("Failed to create order");
        } else {
          cartStored := false;
          out := out + [ClearStoredCart, ToastSuccess("Order placed successfully!"),
                        NavigateTo("/orders?success=true&orderId=" + (if reply.orderId != "" then reply.orderId else "new"))];
        }
      }
      if failure.Some? {
        out := out + [ToastError(failure.value)];
      }
      assert out == AttemptEffects(cartItems, shippingInfo, paymentMethod, stripeLoads, reply);
      trace := trace + out;
    }
  }
}
