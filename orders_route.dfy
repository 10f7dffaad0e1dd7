/**
 * `/api/orders`: the cash-on-delivery order creator (POST) and the order history (GET), over
 * an order store modelled as the sequence of inserted records.  A record's position in the
 * sequence is its id and stands for its `createdAt` time, so "newest first" is
 * "highest position first".
 */
module OrdersRoute {
  import opened Wrappers
  import opened Shop

  /** A line of a stored order. */
  datatype OrderLine = OrderLine(productId: string, name: string, price: real, quantity: int, image: string)

  /** The stored shipping address. */
  datatype Address = Address(
    fullName: string, email: string, phone: string, address: string,
    city: string, state: string, postalCode: string, country: string)

  /** The document the routes write (the route's own field names, not the schema's). */
  datatype OrderRecord = OrderRecord(
    userId: string,
    items: seq<OrderLine>,
    shippingAddress: Address,
    paymentMethod: string,
    paymentStatus: string,
    paymentIntentId: Option<string>,
    itemsPrice: real,
    taxPrice: real,
    shippingPrice: real,
    totalPrice: real,
    status: string)

  /** `item => ({ productId: item.id, name, price, quantity, image })`. */
  function ToLine(item: CartItem): OrderLine {
    OrderLine(item.id, item.name, item.price, item.quantity, item.image)
  }

  function ToLines(items: seq<CartItem>): (lines: seq<OrderLine>)
    ensures |lines| == |items|
    ensures forall k :: 0 <= k < |items| ==> lines[k] == ToLine(items[k])
  {
    if items == [] then [] else [ToLine(items[0])] + ToLines(items[1..])
  }

  /** The shipping form as stored: zipCode becomes postalCode, the rest is copied. */
  function ToAddress(si: ShippingInfo): Address {
    Address(si.fullName, si.email, si.phone, si.address, si.city, si.state, si.zipCode, si.country)
  }

  /** The inverse of the line mapping: a stored line gives back the cart line it came from. */
  function FromLine(line: OrderLine): CartItem {
    CartItem(line.productId, line.name, line.price, line.quantity, line.image)
  }

  /** Nothing of a cart line is lost in the stored order, and nothing is reordered. */
  lemma LinesRoundTrip(items: seq<CartItem>)
    ensures seq(|items|, k requires 0 <= k < |items| => FromLine(ToLines(items)[k])) == items
  {
  }

  /** The POST body fields the route destructures (plus the two it ignores). */
  datatype OrderBody = OrderBody(
    items: ItemsField,
    shippingInfo: Option<ShippingInfo>,
    paymentMethod: string,
    subtotal: real,
    tax: real,
    shipping: real,
    total: real,
    status: string,
    paymentStatus: string)

  /** The outcome of a POST: an error status, or the record to insert. */
  datatype PostResult = Rejected(code: int) | Created(record: OrderRecord)

  /** `paymentMethod === 'cod' ? 'pending' : 'paid'`. */
  function PaymentStatusFor(paymentMethod: string): (s: string)
    ensures s == "pending" <==> paymentMethod == "cod"
    ensures s != "pending" ==> s == "paid"
  {
    if paymentMethod == "cod" then "pending" else "paid"
  }

  /** The POST decision: 401, then the items check, then shipping and method, then the record. */
  function PostDecision(session: Option<SessionUser>, body: OrderBody): (r: PostResult)
    ensures SignedInId(session).None? ==> r == Rejected(401)
    ensures SignedInId(session).Some? && !HasItems(body.items) ==> r == Rejected(400)
    ensures (SignedInId(session).Some? && HasItems(body.items)
             && (body.shippingInfo.None? || body.paymentMethod == "")) ==> r == Rejected(400)
    ensures r.Created? <==>
            SignedInId(session).Some? && HasItems(body.items)
            && body.shippingInfo.Some? && body.paymentMethod != ""
    ensures r.Created? ==>
            && r.record.userId == session.value.id
            && r.record.items == ToLines(body.items.items)
            && r.record.shippingAddress == ToAddress(body.shippingInfo.value)
            && r.record.paymentMethod == body.paymentMethod
            && r.record.paymentStatus == PaymentStatusFor(body.paymentMethod)
            && r.record.status == "pending"
            && r.record.paymentIntentId.None?
            && r.record.itemsPrice == body.subtotal && r.record.taxPrice == body.tax
            && r.record.shippingPrice == body.shipping && r.record.totalPrice == body.total
  {
    match SignedInId(session)
    case None => Rejected(401)
    case Some(uid) =>
      if !HasItems(body.items) then Rejected(400)
      else if body.shippingInfo.None? || body.paymentMethod == "" then Rejected(400)
      else Created(OrderRecord(
        uid, ToLines(body.items.items), ToAddress(body.shippingInfo.value),
        body.paymentMethod, PaymentStatusFor(body.paymentMethod), None,
        body.subtotal, body.tax, body.shipping, body.total, "pending"))
  }

  /** The status and paymentStatus a client puts in the body have no effect on the record. */
  lemma ClientStatusIgnored(session: Option<SessionUser>, body: OrderBody, status: string, paymentStatus: string)
    ensures PostDecision(session, body) == PostDecision(session, body.(status := status, paymentStatus := paymentStatus))
  {
  }

  /** The ids of the orders of `uid` among the first `n` records, highest id first. */
  function OwnIdsNewestFirst(orders: seq<OrderRecord>, uid: string, n: nat): (ids: seq<nat>)
    requires n <= |orders|
    ensures forall k :: 0 <= k < |ids| ==> ids[k] < n && orders[ids[k]].userId == uid
    ensures forall k, l :: 0 <= k < l < |ids| ==> ids[k] > ids[l]
    ensures forall i :: 0 <= i < n && orders[i].userId == uid ==> i in ids
  {
    if n == 0 then []
    else if orders[n - 1].userId == uid then [n - 1] + OwnIdsNewestFirst(orders, uid, n - 1)
    else OwnIdsNewestFirst(orders, uid, n - 1)
  }

  const HistoryLimit: nat := 50

  /** GET: `Order.find({ userId }).sort({ createdAt: -1 }).limit(50)`, as record ids. */
  function History(orders: seq<OrderRecord>, uid: string): (ids: seq<nat>)
    ensures |ids| <= HistoryLimit
    ensures forall k :: 0 <= k < |ids| ==> ids[k] < |orders| && orders[ids[k]].userId == uid
    ensures forall k, l :: 0 <= k < l < |ids| ==> ids[k] > ids[l]
    ensures forall i :: 0 <= i < |orders| && orders[i].userId == uid && i !in ids ==>
              |ids| == HistoryLimit && forall k :: 0 <= k < |ids| ==> i < ids[k]
  {
    var all := OwnIdsNewestFirst(orders, uid, |orders|);
    if |all| <= HistoryLimit then all
    else
      var ids := all[..HistoryLimit];
      forall i | 0 <= i < |orders| && orders[i].userId == uid && i !in ids
        ensures forall k :: 0 <= k < |ids| ==> i < ids[k]
      {
        var j :| 0 <= j < |all| && all[j] == i;
        assert j >= HistoryLimit;
      }
      ids
  }

  /** The order store: every record ever inserted, oldest first. */
  class OrderStore {
    var orders: seq<OrderRecord>

    constructor ()
      ensures orders == []
    {
      orders := [];
    }

    /** Inserts one record and returns its id. */
    method Insert(record: OrderRecord) returns (id: nat)
      modifies this
      ensures orders == old(orders) + [record]
      ensures id == |old(orders)|
    {
      id := |orders|;
      orders := orders + [record];
    }

    /** POST /api/orders: the guard cascade, then one insert; the response carries the new id. */
    method Post(session: Option<SessionUser>, body: OrderBody) returns (code: int, orderId: Option<nat>)
      modifies this
      ensures PostDecision(session, body).Rejected? ==>
                orders == old(orders) && orderId.None? && code == PostDecision(session, body).code
      ensures PostDecision(session, body).Created? ==>
                && orders == old(orders) + [PostDecision(session, body).record]
                && code == 200 && orderId == Some(|old(orders)|)
    {
      var uid := SignedInId(session);
      if uid.None? {
        return 401, None;
      }
      if !HasItems(body.items) {
        return 400, None;
      }
      if body.shippingInfo.None? || body.paymentMethod == "" {
        return 400, None;
      }
      var record := OrderRecord(
        uid.value, ToLines(body.items.items), ToAddress(body.shippingInfo.value),
        body.paymentMethod, PaymentStatusFor(body.paymentMethod), None,
        body.subtotal, body.tax, body.shipping, body.total, "pending");
      var id := Insert(record);
      return 200, Some(id);
    }

    /** GET /api/orders: the caller's 50 newest orders, newest first. */
    function Get(session: Option<SessionUser>): (r: Option<seq<OrderRecord>>)
      reads this
      ensures r.None? <==> SignedInId(session).None?
      ensures r.Some? ==> |r.value| <= HistoryLimit
      ensures r.Some? ==> forall k :: 0 <= k < |r.value| ==> r.value[k].userId == session.value.id
      ensures r.Some? ==>
                var ids := History(orders, session.value.id);
                |r.value| == |ids| && forall k :: 0 <= k < |ids| ==> r.value[k] == orders[ids[k]]
    {
      match SignedInId(session)
      case None => None
      case Some(uid) =>
        var ids := History(orders, uid);
        var all := orders;
        var page := seq(|ids|, k requires 0 <= k < |ids| => all[ids[k]]);
        assert forall k :: 0 <= k < |page| ==> page[k] == all[ids[k]];
        Some(page)
    }
  }
}
