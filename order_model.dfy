/**
 * The Order schema (`models/Order.ts`): field constraints, defaults, and the `pre('save')`
 * hook that recomputes the four amounts from the order's own items: 10 % tax rounded to
 * cents, shipping free strictly above 100 and otherwise 10, and the total rounded to cents.
 *
 * The schema's field names (`user`, `orderItems`, `qty`, ...) are kept; the routes write
 * other names, and whether the database accepts their documents is not modelled.
 */
module OrderModel {
  import opened JsNumber
  import opened Shop
  import opened ClientPricing

  /** An entry of `orderItems`. */
  datatype OrderItem = OrderItem(name: string, qty: int, image: string, price: real, product: string)

  datatype ShippingAddress = ShippingAddress(address: string, city: string, postalCode: string, country: string)

  /** `required` on a string rejects the empty string; `min` bounds the numbers. */
  predicate ValidItem(item: OrderItem) {
    item.name != "" && item.image != "" && item.product != "" && item.qty >= 1 && item.price >= 0.0
  }

  predicate ValidAddress(a: ShippingAddress) {
    a.address != "" && a.city != "" && a.postalCode != "" && a.country != ""
  }

  const PaymentMethods: set<string> := {"stripe", "paypal", "razorpay", "cod"}
  const OrderStatuses: set<string> := {"pending", "processing", "shipped", "delivered", "cancelled"}

  const HookTaxRate: real := 0.1
  const HookFreeShippingOver: real := 100.0
  const HookFlatShipping: real := 10.0

  /** `orderItems.reduce((acc, item) => acc + item.price * item.qty, 0)`. */
  function ItemsPrice(items: seq<OrderItem>): real
    decreases |items|
  {
    if items == [] then 0.0
    else ItemsPrice(items[..|items| - 1]) + items[|items| - 1].price * items[|items| - 1].qty as real
  }

  /** Valid items, priced at zero or more with a quantity of one or more, never sum below zero. */
  lemma {:induction false} ItemsPriceNonNegative(items: seq<OrderItem>)
    requires forall k :: 0 <= k < |items| ==> ValidItem(items[k])
    ensures ItemsPrice(items) >= 0.0
    decreases |items|
  {
    if items != [] {
      var last := items[|items| - 1];
      assert ValidItem(last);
      ItemsPriceNonNegative(items[..|items| - 1]);
      assert last.price * last.qty as real >= 0.0;
    }
  }

  /** The four amounts the hook writes. */
  datatype Amounts = Amounts(itemsPrice: real, shippingPrice: real, taxPrice: real, totalPrice: real)

  /** The hook's result for a list of items: the rules the hook's comments promise. */
  function HookAmounts(items: seq<OrderItem>): (a: Amounts)
    ensures a.itemsPrice == ItemsPrice(items)
    ensures a.shippingPrice == 0.0 <==> a.itemsPrice > HookFreeShippingOver
    ensures a.shippingPrice != 0.0 ==> a.shippingPrice == HookFlatShipping
    ensures IsCents(a.taxPrice) && IsCents(a.totalPrice)
    ensures a.taxPrice - HookTaxRate * a.itemsPrice <= 0.005 && HookTaxRate * a.itemsPrice - a.taxPrice <= 0.005
    ensures var sum := a.itemsPrice + a.shippingPrice + a.taxPrice;
      a.totalPrice - sum <= 0.005 && sum - a.totalPrice <= 0.005
  {
    var itemsPrice := ItemsPrice(items);
    var shipping := if itemsPrice > 100.0 then 0.0 else 10.0;
    var tax := ToFixed2(itemsPrice * 0.1);
    Amounts(itemsPrice, shipping, tax, ToFixed2(itemsPrice + shipping + tax))
  }

  /** For valid items none of the four amounts is negative. */
  lemma HookAmountsNonNegative(items: seq<OrderItem>)
    requires forall k :: 0 <= k < |items| ==> ValidItem(items[k])
    ensures var a := HookAmounts(items);
      a.itemsPrice >= 0.0 && a.shippingPrice >= 0.0 && a.taxPrice >= 0.0 && a.totalPrice >= 0.0
  {
    ItemsPriceNonNegative(items);
  }

  /** When the items already sum to whole cents, the total is exact: nothing is lost to rounding. */
  lemma HookTotalExactOnCents(items: seq<OrderItem>)
    requires IsCents(ItemsPrice(items))
    ensures var a := HookAmounts(items);
      a.totalPrice == a.itemsPrice + a.shippingPrice + a.taxPrice
  {
    var a := HookAmounts(items);
    assert a.totalPrice == ToFixed2(a.itemsPrice + a.shippingPrice + a.taxPrice);
    assert IsCents(a.shippingPrice) by {
      if a.shippingPrice == 0.0 {
        assert (a.shippingPrice * 100.0).Floor == 0;
      } else {
        assert (a.shippingPrice * 100.0).Floor == 1000;
      }
    }
    CentsSumExact(a.itemsPrice, a.shippingPrice, a.taxPrice);
  }

  /**
   * The hook and the pages price the same goods differently: two items at 50.00 are 117.99
   * on the cart and checkout pages and 120.00 after the hook.
   */
  lemma HookDisagreesWithPages()
    ensures QuoteFor([CartItem("p", "Item", 50.0, 2, "img")]).total == 117.99
    ensures HookAmounts([OrderItem("Item", 2, "img", 50.0, "p")]).totalPrice == 120.0
  {
    assert [CartItem("p", "Item", 50.0, 2, "img")][..0] == [];
    assert [OrderItem("Item", 2, "img", 50.0, "p")][..0] == [];
    assert ItemsPrice([OrderItem("Item", 2, "img", 50.0, "p")]) == 100.0;
    assert MathRound(1000.0) == 1000;
    assert ToFixed2(10.0) == 10.0;
    assert MathRound(12000.0) == 12000;
  }

  /** An order document: the schema's fields, updated in place by the hook. */
  class OrderDocument {
    var user: string
    var orderItems: seq<OrderItem>
    var shippingAddress: ShippingAddress
    var paymentMethod: string
    var itemsPrice: real
    var taxPrice: real
    var shippingPrice: real
    var totalPrice: real
    var isPaid: bool
    var isDelivered: bool
    var status: string

    /** A new document: the four amounts default to 0, the flags to false, status to 'pending'. */
    constructor (user: string, items: seq<OrderItem>, address: ShippingAddress, paymentMethod: string)
      ensures this.user == user && orderItems == items && shippingAddress == address
      ensures this.paymentMethod == paymentMethod
      ensures itemsPrice == 0.0 && taxPrice == 0.0 && shippingPrice == 0.0 && totalPrice == 0.0
      ensures !isPaid && !isDelivered && status == "pending"
    {
      this.user := user;
      orderItems := items;
      shippingAddress := address;
      this.paymentMethod := paymentMethod;
      itemsPrice := 0.0;
      taxPrice := 0.0;
      shippingPrice := 0.0;
      totalPrice := 0.0;
      isPaid := false;
      isDelivered := false;
      status := "pending";
    }

    /** The schema's validators: required fields, minimums and enums. */
    predicate Valid()
      reads this
    {
      && user != ""
      && (forall k :: 0 <= k < |orderItems| ==> ValidItem(orderItems[k]))
      && ValidAddress(shippingAddress)
      && paymentMethod in PaymentMethods
      && status in OrderStatuses
    }

    /** The four amounts as they stand. */
    function CurrentAmounts(): Amounts
      reads this
    {
      Amounts(itemsPrice, shippingPrice, taxPrice, totalPrice)
    }

    /**
     * `pre('save')`: overwrites the four amounts in order (items, shipping, tax, total), each
     * later one reading the fields just written; whatever amounts were supplied are discarded.
     */
    method PreSave()
      modifies this
      ensures CurrentAmounts() == HookAmounts(orderItems)
      ensures orderItems == old(orderItems) && user == old(user) && shippingAddress == old(shippingAddress)
      ensures paymentMethod == old(paymentMethod) && isPaid == old(isPaid) && isDelivered == old(isDelivered)
      ensures status == old(status)
      ensures Valid() <==> old(Valid())
    {
      itemsPrice := ItemsPrice(orderItems);
      shippingPrice := if itemsPrice > 100.0 then 0.0 else 10.0;
      taxPrice := ToFixed2(itemsPrice * 0.1);
      totalPrice := ToFixed2(itemsPrice + shippingPrice + taxPrice);
    }
  }
}
