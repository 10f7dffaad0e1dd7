/**
 * `/api/stripe/checkout`: turns the posted cart into the line items of a hosted Stripe
 * checkout session and packs the whole order into the session's metadata, for the webhook
 * to unpack later.  It writes no order itself.
 *
 * The payment provider's `checkout.sessions.create` is a parameter: it receives the request
 * the route builds and answers with the new session's id and url, or fails.  Metadata values
 * are kept as JSON value trees: `JSON.stringify` and `Number.prototype.toString` on one side
 * and `JSON.parse` and `parseFloat` on the other are taken to invert each other exactly.
 */
module StripeCheckout {
  import opened Wrappers
  import opened JsString
  import opened JsNumber
  import opened Json
  import opened Shop
  import opened ClientPricing

  /** One entry of `line_items`: `price_data.{currency, product_data.{name, images}, unit_amount}` and `quantity`. */
  datatype LineItem = LineItem(name: string, images: seq<string>, currency: string, unitAmount: int, quantity: int)

  /**
   * The product image sent to Stripe: none for an empty image, the image itself when it
   * starts with "http", and otherwise the image appended to the site's base URL.
   */
  function ImagesFor(image: string, baseUrl: string): (images: seq<string>)
    ensures image == "" <==> images == []
    ensures image != "" && StartsWith(image, "http") ==> images == [image]
    ensures image != "" && !StartsWith(image, "http") ==> images == [baseUrl + image]
  {
    if image == "" then []
    else if StartsWith(image, "http") then [image]
    else [baseUrl + image]
  }

  /** With an absolute base URL, every image Stripe receives is an absolute URL. */
  lemma AbsoluteImages(image: string, baseUrl: string)
    requires StartsWith(baseUrl, "http")
    ensures forall u :: u in ImagesFor(image, baseUrl) ==> StartsWith(u, "http")
  {
    if image != "" && !StartsWith(image, "http") {
      assert (baseUrl + image)[..4] == baseUrl[..4];
    }
  }

  /** The line for one cart item: price in cents by `Math.round(price * 100)`, quantity as is. */
  function ItemLine(item: CartItem, baseUrl: string): LineItem {
    LineItem(item.name, ImagesFor(item.image, baseUrl), "usd", MathRound(item.price * 100.0), item.quantity)
  }

  /** `items.map(...)`: one line per cart item, in cart order. */
  function ItemLines(items: seq<CartItem>, baseUrl: string): seq<LineItem> {
    seq(|items|, k requires 0 <= k < |items| => ItemLine(items[k], baseUrl))
  }

  /** The extra "Shipping" or "Tax" line: no image, quantity 1. */
  function FeeLine(name: string, amount: real): LineItem {
    LineItem(name, [], "usd", MathRound(amount * 100.0), 1)
  }

  /** The list handed to Stripe: the item lines, then Shipping if shipping > 0, then Tax if tax > 0. */
  function LineItemsFor(items: seq<CartItem>, shipping: real, tax: real, baseUrl: string): (lines: seq<LineItem>)
    ensures |lines| == |items| + (if shipping > 0.0 then 1 else 0) + (if tax > 0.0 then 1 else 0)
    ensures forall k :: 0 <= k < |items| ==> lines[k] == ItemLine(items[k], baseUrl)
    ensures shipping > 0.0 ==> lines[|items|] == FeeLine("Shipping", shipping)
    ensures tax > 0.0 ==> lines[|lines| - 1] == FeeLine("Tax", tax)
    ensures forall k :: |items| <= k < |lines| ==> lines[k].quantity == 1 && lines[k].images == []
  {
    ItemLines(items, baseUrl)
      + (if shipping > 0.0 then [FeeLine("Shipping", shipping)] else [])
      + (if tax > 0.0 then [FeeLine("Tax", tax)] else [])
  }

  /** The route's construction: map the items, then push the fee lines one at a time. */
  method BuildLineItems(items: seq<CartItem>, shipping: real, tax: real, baseUrl: string)
    returns (lines: seq<LineItem>)
    ensures lines == LineItemsFor(items, shipping, tax, baseUrl)
  {
    lines := ItemLines(items, baseUrl);
    if shipping > 0.0 {
      lines := lines + [FeeLine("Shipping", shipping)];
    }
    if tax > 0.0 {
      lines := lines + [FeeLine("Tax", tax)];
    }
  }

  /** What Stripe charges for a list of lines, in cents. */
  function ChargedCents(lines: seq<LineItem>): int
    decreases |lines|
  {
    if lines == [] then 0
    else ChargedCents(lines[..|lines| - 1]) + lines[|lines| - 1].unitAmount * lines[|lines| - 1].quantity
  }

  lemma {:induction false} ChargedCentsAppend(a: seq<LineItem>, b: seq<LineItem>)
    ensures ChargedCents(a + b) == ChargedCents(a) + ChargedCents(b)
    decreases |b|
  {
    if b == [] {
      assert a + b == a;
    } else {
      ChargedCentsAppend(a, b[..|b| - 1]);
      assert (a + b)[..|a + b| - 1] == a + b[..|b| - 1];
    }
  }

  /** Every cart price is a whole number of cents. */
  predicate PricesInCents(items: seq<CartItem>) {
    forall x :: x in items ==> IsCents(x.price)
  }

  /** On a price in whole cents, one item line charges exactly 100 × its line total. */
  lemma ItemLineCharge(item: CartItem, baseUrl: string)
    requires IsCents(item.price)
    ensures (ItemLine(item, baseUrl).unitAmount * item.quantity) as real == 100.0 * LineTotal(item)
  {
    var c := (item.price * 100.0).Floor;
    var q := item.quantity as real;
    assert c as real == item.price * 100.0;
    assert MathRound(item.price * 100.0) == c;
    assert (c * item.quantity) as real == c as real * q;
    assert (item.price * 100.0) * q == 100.0 * (item.price * q);
  }

  /** On prices in whole cents, the item lines charge exactly 100 × the subtotal the page shows. */
  lemma {:induction false} ItemLinesChargeSubtotal(items: seq<CartItem>, baseUrl: string)
    requires PricesInCents(items)
    ensures ChargedCents(ItemLines(items, baseUrl)) as real == 100.0 * Subtotal(items)
    decreases |items|
  {
    if items != [] {
      var init := items[..|items| - 1];
      var last := items[|items| - 1];
      assert last in items;
      assert forall x :: x in init ==> x in items;
      ItemLinesChargeSubtotal(init, baseUrl);
      var lines := ItemLines(items, baseUrl);
      assert lines[..|lines| - 1] == ItemLines(init, baseUrl);
      assert lines[|lines| - 1] == ItemLine(last, baseUrl);
      ItemLineCharge(last, baseUrl);
    }
  }

  /**
   * For a cart priced in whole cents and not negative, with the amounts the page computes,
   * Stripe charges the displayed total to within half a cent (only the tax is rounded).
   */
  lemma ChargedMatchesQuote(items: seq<CartItem>, baseUrl: string)
    requires PricesInCents(items)
    requires forall x :: x in items ==> x.price >= 0.0 && x.quantity >= 0
    ensures var q := QuoteFor(items);
      var cents := ChargedCents(LineItemsFor(items, q.shipping, q.tax, baseUrl)) as real;
      cents - 100.0 * q.total <= 0.5 && 100.0 * q.total - cents <= 0.5
  {
    var q := QuoteFor(items);
    SubtotalNonNegative(items);
    ItemLinesChargeSubtotal(items, baseUrl);
    var fees := (if q.shipping > 0.0 then [FeeLine("Shipping", q.shipping)] else [])
      + (if q.tax > 0.0 then [FeeLine("Tax", q.tax)] else []);
    assert LineItemsFor(items, q.shipping, q.tax, baseUrl) == ItemLines(items, baseUrl) + fees;
    ChargedCentsAppend(ItemLines(items, baseUrl), fees);
    if q.shipping > 0.0 {
      assert MathRound(q.shipping * 100.0) == 999;
    }
    if q.shipping > 0.0 && q.tax > 0.0 {
      assert fees[..1] == [FeeLine("Shipping", q.shipping)];
    }
  }

  /** The request body: the fields the route destructures; an absent amount is `None`. */
  datatype CheckoutBody = CheckoutBody(
    items: ItemsField, shippingInfo: Option<ShippingInfo>,
    subtotal: Option<real>, tax: Option<real>, shipping: Option<real>, total: Option<real>)

  /** All four amounts are present, so their `toString()` calls in the metadata do not throw. */
  predicate HasAmounts(body: CheckoutBody) {
    body.subtotal.Some? && body.tax.Some? && body.shipping.Some? && body.total.Some?
  }

  /** The session metadata: key to value, with stringified objects kept as JSON trees. */
  type Metadata = map<string, Value>

  function EncodeShipping(si: ShippingInfo): Value {
    Obj(map[
      "fullName" := Str(si.fullName), "email" := Str(si.email), "phone" := Str(si.phone),
      "address" := Str(si.address), "city" := Str(si.city), "state" := Str(si.state),
      "zipCode" := Str(si.zipCode), "country" := Str(si.country)])
  }

  function EncodeItem(item: CartItem): Value {
    Obj(map[
      "id" := Str(item.id), "name" := Str(item.name), "price" := Num(item.price),
      "quantity" := Num(item.quantity as real), "image" := Str(item.image)])
  }

  /** `JSON.stringify(items)`. */
  function EncodeItems(items: seq<CartItem>): (v: Value)
    ensures v.Arr? && |v.elems| == |items|
    ensures forall k :: 0 <= k < |items| ==> v.elems[k] == EncodeItem(items[k])
  {
    Arr(seq(|items|, k requires 0 <= k < |items| => EncodeItem(items[k])))
  }

  /** The metadata the route attaches to the session. */
  function EncodeMetadata(userId: string, si: ShippingInfo, items: seq<CartItem>, q: Quote): (m: Metadata)
    ensures m.Keys == {"userId", "shippingInfo", "items", "subtotal", "tax", "shipping", "total"}
  {
    map[
      "userId" := Str(userId), "shippingInfo" := EncodeShipping(si), "items" := EncodeItems(items),
      "subtotal" := Num(q.subtotal), "tax" := Num(q.tax), "shipping" := Num(q.shipping), "total" := Num(q.total)]
  }

  /** The `sessions.create` parameters that depend on the request. */
  datatype SessionRequest = SessionRequest(
    lineItems: seq<LineItem>, customerEmail: string, metadata: Metadata,
    successUrl: string, cancelUrl: string)

  /** What the provider answers: the new session, or a failure. */
  datatype ProviderSession = ProviderSession(id: string, url: string)

  /** The route's reply: an error status, or the session id and url (status 200). */
  datatype CheckoutReply = Refused(code: int) | Redirect(sessionId: string, url: string)

  /** The request the route sends to the provider for a signed-in user and an accepted body. */
  function RequestFor(uid: string, body: CheckoutBody, baseUrl: string): SessionRequest
    requires body.items.Items? && body.shippingInfo.Some? && HasAmounts(body)
  {
    SessionRequest(
      LineItemsFor(body.items.items, body.shipping.value, body.tax.value, baseUrl),
      body.shippingInfo.value.email,
      EncodeMetadata(uid, body.shippingInfo.value, body.items.items,
                     Quote(body.subtotal.value, body.tax.value, body.shipping.value, body.total.value)),
      baseUrl + "/orders?success=true&session_id={CHECKOUT_SESSION_ID}",
      baseUrl + "/checkout?canceled=true")
  }

  /**
   * POST /api/stripe/checkout.  `create` stands for `stripe.checkout.sessions.create`;
   * `sent` is the request passed to it, if the guards let the route get that far.  A missing
   * amount throws in its `toString()` while the request is built, before it is sent: 500.
   */
  method CreateCheckoutSession(
    session: Option<SessionUser>, body: CheckoutBody, baseUrl: string,
    create: SessionRequest -> Option<ProviderSession>)
    returns (reply: CheckoutReply, sent: Option<SessionRequest>)
    ensures SignedInId(session).None? ==> reply == Refused(401) && sent.None?
    ensures SignedInId(session).Some? && !HasItems(body.items) ==> reply == Refused(400) && sent.None?
    ensures SignedInId(session).Some? && HasItems(body.items) && body.shippingInfo.None?
            ==> reply == Refused(400) && sent.None?
    ensures SignedInId(session).Some? && HasItems(body.items) && body.shippingInfo.Some? && !HasAmounts(body)
            ==> reply == Refused(500) && sent.None?
    ensures sent.Some? <==> SignedInId(session).Some? && HasItems(body.items) && body.shippingInfo.Some? && HasAmounts(body)
    ensures sent.Some? ==> sent.value == RequestFor(session.value.id, body, baseUrl)
    ensures sent.Some? && create(sent.value).None? ==> reply == Refused(500)
    ensures sent.Some? && create(sent.value).Some?
            ==> reply == Redirect(create(sent.value).value.id, create(sent.value).value.url)
  {
    var uid := SignedInId(session);
    if uid.None? {
      return Refused(401), None;
    }
    if !HasItems(body.items) {
      return Refused(400), None;
    }
    if body.shippingInfo.None? {
      return Refused(400), None;
    }
    if !HasAmounts(body) {
      return Refused(500), None;
    }
    var lines := BuildLineItems(body.items.items, body.shipping.value, body.tax.value, baseUrl);
    var request := SessionRequest(
      lines, body.shippingInfo.value.email,
      EncodeMetadata(uid.value, body.shippingInfo.value, body.items.items,
                     Quote(body.subtotal.value, body.tax.value, body.shipping.value, body.total.value)),
      baseUrl + "/orders?success=true&session_id={CHECKOUT_SESSION_ID}",
      baseUrl + "/checkout?canceled=true");
    sent := Some(request);
    match create(request)
    case None =>
      reply := Refused(500);
    case Some(created) =>
      reply := Redirect(created.id, created.url);
  }
}
