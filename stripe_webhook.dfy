/**
 * `/api/stripe/webhook`: Stripe's call-back after a hosted checkout.  It verifies the
 * signature, ignores every event but `checkout.session.completed`, unpacks the order the
 * checkout route packed into the session metadata, and inserts it as a paid card order.
 *
 * `stripe.webhooks.constructEvent` (the signature check and event parse) and
 * `stripe.checkout.sessions.retrieve` are parameters: the first maps the raw body and the
 * signature header to the event, or fails; the second says whether the lookup succeeded
 * (its answer is not otherwise used by the route).
 */
module StripeWebhook {
  import opened Wrappers
  import opened Json
  import opened Shop
  import opened ClientPricing
  import opened OrdersRoute
  import opened StripeCheckout

  /** `event.data.object` for a checkout event: the fields the route reads. */
  datatype CheckoutSession = CheckoutSession(id: string, metadata: Option<Metadata>, paymentIntent: string)

  datatype Event = Event(kind: string, session: CheckoutSession)

  const CompletedEvent := "checkout.session.completed"

  /* ---------- metadata decoding: JSON.parse and parseFloat ---------- */

  function StrField(fields: map<string, Value>, key: string): Option<string> {
    if key in fields && fields[key].Str? then Some(fields[key].s) else None
  }

  function NumField(fields: map<string, Value>, key: string): Option<real> {
    if key in fields && fields[key].Num? then Some(fields[key].n) else None
  }

  /** `item.quantity`: a number that is a whole number. */
  function IntField(fields: map<string, Value>, key: string): Option<int> {
    match NumField(fields, key)
    case Some(n) => if n.Floor as real == n then Some(n.Floor) else None
    case None => None
  }

  function DecodeItem(v: Value): Option<CartItem> {
    if !v.Obj? then None
    else
      var f := v.fields;
      if StrField(f, "id").None? || StrField(f, "name").None? || NumField(f, "price").None?
         || IntField(f, "quantity").None? || StrField(f, "image").None? then None
      else Some(CartItem(StrField(f, "id").value, StrField(f, "name").value, NumField(f, "price").value,
                         IntField(f, "quantity").value, StrField(f, "image").value))
  }

  function DecodeItemList(elems: seq<Value>): (r: Option<seq<CartItem>>)
    ensures r.Some? ==> |r.value| == |elems|
  {
    if elems == [] then Some([])
    else match (DecodeItem(elems[0]), DecodeItemList(elems[1..]))
      case (Some(item), Some(rest)) => Some([item] + rest)
      case _ => None
  }

  function DecodeShipping(v: Value): Option<ShippingInfo> {
    if !v.Obj? then None
    else
      var f := v.fields;
      if StrField(f, "fullName").None? || StrField(f, "email").None? || StrField(f, "phone").None?
         || StrField(f, "address").None? || StrField(f, "city").None? || StrField(f, "state").None?
         || StrField(f, "zipCode").None? || StrField(f, "country").None? then None
      else Some(ShippingInfo(
        StrField(f, "fullName").value, StrField(f, "email").value, StrField(f, "phone").value,
        StrField(f, "address").value, StrField(f, "city").value, StrField(f, "state").value,
        StrField(f, "zipCode").value, StrField(f, "country").value))
  }

  /** What the webhook recovers from the metadata. */
  datatype Decoded = Decoded(userId: string, shippingInfo: ShippingInfo, items: seq<CartItem>, amounts: Quote)

  function DecodeMetadata(m: Metadata): Option<Decoded> {
    var uid := StrField(m, "userId");
    var si := if "shippingInfo" in m then DecodeShipping(m["shippingInfo"]) else None;
    var items := if "items" in m && m["items"].Arr? then DecodeItemList(m["items"].elems) else None;
    var st := NumField(m, "subtotal");
    var tax := NumField(m, "tax");
    var sh := NumField(m, "shipping");
    var tot := NumField(m, "total");
    if uid.None? || si.None? || items.None? || st.None? || tax.None? || sh.None? || tot.None? then None
    else Some(Decoded(uid.value, si.value, items.value, Quote(st.value, tax.value, sh.value, tot.value)))
  }

  lemma DecodeEncodedItem(item: CartItem)
    ensures DecodeItem(EncodeItem(item)) == Some(item)
  {
    assert (item.quantity as real).Floor == item.quantity;
  }

  /** Parsing the items the checkout route stringified gives back the same cart, in order. */
  lemma {:induction false} DecodeEncodedItems(items: seq<CartItem>)
    ensures DecodeItemList(EncodeItems(items).elems) == Some(items)
  {
    if items != [] {
      DecodeEncodedItem(items[0]);
      assert EncodeItems(items).elems[1..] == EncodeItems(items[1..]).elems;
      DecodeEncodedItems(items[1..]);
      assert [items[0]] + items[1..] == items;
    }
  }

  lemma DecodeEncodedShipping(si: ShippingInfo)
    ensures DecodeShipping(EncodeShipping(si)) == Some(si)
  {
    var f := EncodeShipping(si).fields;
    assert StrField(f, "fullName") == Some(si.fullName) && StrField(f, "email") == Some(si.email);
    assert StrField(f, "phone") == Some(si.phone) && StrField(f, "address") == Some(si.address);
    assert StrField(f, "city") == Some(si.city) && StrField(f, "state") == Some(si.state);
    assert StrField(f, "zipCode") == Some(si.zipCode) && StrField(f, "country") == Some(si.country);
  }

  /** Decoding after encoding is the identity: the webhook sees what the checkout route saw. */
  lemma MetadataRoundTrip(userId: string, si: ShippingInfo, items: seq<CartItem>, q: Quote)
    ensures DecodeMetadata(EncodeMetadata(userId, si, items, q)) == Some(Decoded(userId, si, items, q))
  {
    var m := EncodeMetadata(userId, si, items, q);
    assert m["userId"] == Str(userId);
    assert m["shippingInfo"] == EncodeShipping(si);
    assert m["items"] == EncodeItems(items);
    assert m["subtotal"] == Num(q.subtotal) && m["tax"] == Num(q.tax);
    assert m["shipping"] == Num(q.shipping) && m["total"] == Num(q.total);
    DecodeEncodedItems(items);
    DecodeEncodedShipping(si);
  }

  /* ---------- the handler ---------- */

  /** The handler's outcome: an error status, a plain acknowledgement, or one record to insert. */
  datatype Outcome = Reject(code: int) | Acknowledge | Insert(record: OrderRecord)

  /** The record the handler inserts for a decoded session. */
  function PaidCardOrder(d: Decoded, paymentIntent: string): OrderRecord {
    OrderRecord(d.userId, ToLines(d.items), ToAddress(d.shippingInfo), "card", "paid", Some(paymentIntent),
                d.amounts.subtotal, d.amounts.tax, d.amounts.shipping, d.amounts.total, "processing")
  }

  /** The guard cascade: signature present, signature valid, event type, retrieve, metadata. */
  function WebhookDecision(
    body: string, signature: Option<string>,
    constructEvent: (string, string) -> Option<Event>, retrieve: string -> bool): (r: Outcome)
    ensures (signature.None? || signature == Some("")) ==> r == Reject(400)
    ensures signature.Some? && constructEvent(body, signature.value).None? ==> r == Reject(400)
    ensures r.Insert? ==>
              && signature.Some? && constructEvent(body, signature.value).Some?
              && var ev := constructEvent(body, signature.value).value;
              && ev.kind == CompletedEvent && ev.session.metadata.Some?
              && DecodeMetadata(ev.session.metadata.value).Some?
              && r.record == PaidCardOrder(DecodeMetadata(ev.session.metadata.value).value, ev.session.paymentIntent)
    ensures r == Acknowledge <==>
              && signature.Some? && signature.value != ""
              && constructEvent(body, signature.value).Some?
              && constructEvent(body, signature.value).value.kind != CompletedEvent
    ensures signature.Some? && signature.value != "" && constructEvent(body, signature.value).Some?
            && constructEvent(body, signature.value).value.kind == CompletedEvent ==>
              var s := constructEvent(body, signature.value).value.session;
              && (!retrieve(s.id) ==> r == Reject(500))
              && (retrieve(s.id) && s.metadata.None? ==> r == Reject(400))
              && (retrieve(s.id) && s.metadata.Some? ==>
                    && (r.Insert? <==> DecodeMetadata(s.metadata.value).Some?)
                    && (DecodeMetadata(s.metadata.value).None? ==> r == Reject(500)))
  {
    if signature.None? || signature.value == "" then Reject(400)
    else match constructEvent(body, signature.value)
      case None => Reject(400)
      case Some(ev) =>
        if ev.kind != CompletedEvent then Acknowledge
        else if !retrieve(ev.session.id) then Reject(500)
        else if ev.session.metadata.None? then Reject(400)
        else match DecodeMetadata(ev.session.metadata.value)
          case None => Reject(500)
          case Some(d) => Insert(PaidCardOrder(d, ev.session.paymentIntent))
  }

  /**
   * A completed session whose metadata the checkout route wrote yields the order that route
   * described: same owner, the same lines mapped as the cash-on-delivery route maps them,
   * the same address, and the four amounts the page displayed.
   */
  lemma InsertedOrderMatchesCheckout(
    body: string, sig: string, constructEvent: (string, string) -> Option<Event>, retrieve: string -> bool,
    userId: string, si: ShippingInfo, items: seq<CartItem>, q: Quote, id: string, paymentIntent: string)
    requires sig != ""
    requires constructEvent(body, sig)
             == Some(Event(CompletedEvent, CheckoutSession(id, Some(EncodeMetadata(userId, si, items, q)), paymentIntent)))
    requires retrieve(id)
    ensures WebhookDecision(body, Some(sig), constructEvent, retrieve)
            == Insert(OrderRecord(userId, ToLines(items), ToAddress(si), "card", "paid", Some(paymentIntent),
                                  q.subtotal, q.tax, q.shipping, q.total, "processing"))
  {
    MetadataRoundTrip(userId, si, items, q);
  }

  /** The store after one delivery, as written: every Insert outcome appends. */
  function Deliver(orders: seq<OrderRecord>, r: Outcome): seq<OrderRecord> {
    if r.Insert? then orders + [r.record] else orders
  }

  /** The HTTP status of an outcome: `{ received: true }` is a 200. */
  function StatusOf(r: Outcome): int {
    if r.Reject? then r.code else 200
  }

  /** POST /api/stripe/webhook, as written. */
  method HandleWebhook(
    store: OrderStore, body: string, signature: Option<string>,
    constructEvent: (string, string) -> Option<Event>, retrieve: string -> bool)
    returns (code: int)
    modifies store
    ensures store.orders == Deliver(old(store.orders), WebhookDecision(body, signature, constructEvent, retrieve))
    ensures code == StatusOf(WebhookDecision(body, signature, constructEvent, retrieve))
  {
    var outcome := WebhookDecision(body, signature, constructEvent, retrieve);
    if outcome.Insert? {
      var _ := store.Insert(outcome.record);
    }
    code := StatusOf(outcome);
  }

  /** How many stored orders carry the payment reference `pi`. */
  function PaidFor(orders: seq<OrderRecord>, pi: string): nat
    decreases |orders|
  {
    if orders == [] then 0
    else PaidFor(orders[..|orders| - 1], pi) + (if orders[|orders| - 1].paymentIntentId == Some(pi) then 1 else 0)
  }

  lemma PaidForAppend(orders: seq<OrderRecord>, r: OrderRecord, pi: string)
    ensures PaidFor(orders + [r], pi) == PaidFor(orders, pi) + (if r.paymentIntentId == Some(pi) then 1 else 0)
  {
    assert (orders + [r])[..|orders|] == orders;
  }

  /** A second delivery of the same completed session stores a second order for the same payment. */
  lemma RedeliveryDuplicates(orders: seq<OrderRecord>, r: Outcome, pi: string)
    requires r.Insert? && r.record.paymentIntentId == Some(pi)
    ensures PaidFor(Deliver(Deliver(orders, r), r), pi) == PaidFor(orders, pi) + 2
  {
    PaidForAppend(orders, r.record, pi);
    PaidForAppend(orders + [r.record], r.record, pi);
  }

  /** Some stored order already carries the payment reference of `rec`. */
  predicate AlreadyRecorded(orders: seq<OrderRecord>, rec: OrderRecord) {
    exists k :: 0 <= k < |orders| && orders[k].paymentIntentId == rec.paymentIntentId
  }

  /** The store after one delivery when an order already recorded for the payment is a no-op. */
  function DeliverOnce(orders: seq<OrderRecord>, r: Outcome): (after: seq<OrderRecord>)
    ensures r.Insert? && !AlreadyRecorded(orders, r.record) ==> after == orders + [r.record]
    ensures !r.Insert? || AlreadyRecorded(orders, r.record) ==> after == orders
  {
    if r.Insert? && !AlreadyRecorded(orders, r.record) then orders + [r.record] else orders
  }

  /** Delivering the same event twice leaves the store as delivering it once. */
  lemma DeliverOnceIdempotent(orders: seq<OrderRecord>, r: Outcome)
    ensures DeliverOnce(DeliverOnce(orders, r), r) == DeliverOnce(orders, r)
  {
    if r.Insert? && !AlreadyRecorded(orders, r.record) {
      var after := orders + [r.record];
      assert after[|orders|].paymentIntentId == r.record.paymentIntentId;
    }
  }

  /** With the check in place, no payment is ever recorded twice. */
  lemma DeliverOnceAtMostOne(orders: seq<OrderRecord>, r: Outcome, pi: string)
    requires PaidFor(orders, pi) <= 1
    ensures PaidFor(DeliverOnce(orders, r), pi) <= 1
  {
    if r.Insert? && !AlreadyRecorded(orders, r.record) {
      PaidForAppend(orders, r.record, pi);
      if r.record.paymentIntentId == Some(pi) {
        PaidForZero(orders, pi, r.record);
      }
    }
  }

  lemma {:induction false} PaidForZero(orders: seq<OrderRecord>, pi: string, rec: OrderRecord)
    requires rec.paymentIntentId == Some(pi) && !AlreadyRecorded(orders, rec)
    ensures PaidFor(orders, pi) == 0
    decreases |orders|
  {
    if orders != [] {
      var init := orders[..|orders| - 1];
      assert !AlreadyRecorded(init, rec) by {
        forall k | 0 <= k < |init| ensures init[k].paymentIntentId != rec.paymentIntentId {
          assert init[k] == orders[k];
        }
      }
      PaidForZero(init, pi, rec);
      assert orders[|orders| - 1].paymentIntentId != Some(pi);
    }
  }

  /** POST /api/stripe/webhook with the duplicate check: a redelivery is acknowledged and inserts nothing. */
  method HandleWebhookOnce(
    store: OrderStore, body: string, signature: Option<string>,
    constructEvent: (string, string) -> Option<Event>, retrieve: string -> bool)
    returns (code: int)
    modifies store
    ensures store.orders == DeliverOnce(old(store.orders), WebhookDecision(body, signature, constructEvent, retrieve))
    ensures code == StatusOf(WebhookDecision(body, signature, constructEvent, retrieve))
  {
    var outcome := WebhookDecision(body, signature, constructEvent, retrieve);
    if outcome.Insert? && !AlreadyRecorded(store.orders, outcome.record) {
      var _ := store.Insert(outcome.record);
    }
    code := StatusOf(outcome);
  }
}
