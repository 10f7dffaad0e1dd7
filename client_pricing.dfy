/**
 * The order summary the cart page and the checkout page both compute in the browser:
 * a left-to-right sum of price × quantity, 8 % tax on it with no rounding, shipping free
 * strictly above 100 and 9.99 otherwise, and the total as a plain sum.
 */
module ClientPricing {
  import opened Shop

  const TaxRate: real := 0.08
  const FreeShippingOver: real := 100.0
  const FlatShipping: real := 9.99

  function LineTotal(item: CartItem): real {
    item.price * item.quantity as real
  }

  /** `cartItems.reduce((total, item) => total + item.price * item.quantity, 0)`. */
  function Subtotal(items: seq<CartItem>): real
    decreases |items|
  {
    if items == [] then 0.0
    else Subtotal(items[..|items| - 1]) + LineTotal(items[|items| - 1])
  }

  /** The sum splits over a concatenation, so appending one item adds exactly its line total. */
  lemma {:induction false} SubtotalAppend(a: seq<CartItem>, b: seq<CartItem>)
    ensures Subtotal(a + b) == Subtotal(a) + Subtotal(b)
    decreases |b|
  {
    if b == [] {
      assert a + b == a;
    } else {
      var c := b[..|b| - 1];
      SubtotalAppend(a, c);
      assert (a + b)[..|a + b| - 1] == a + c;
    }
  }

  /** Prices and quantities that are never negative give a subtotal that is never negative. */
  lemma {:induction false} SubtotalNonNegative(items: seq<CartItem>)
    requires forall x :: x in items ==> x.price >= 0.0 && x.quantity >= 0
    ensures Subtotal(items) >= 0.0
    decreases |items|
  {
    if items != [] {
      var last := items[|items| - 1];
      assert last in items;
      assert forall x :: x in items[..|items| - 1] ==> x in items;
      SubtotalNonNegative(items[..|items| - 1]);
      assert LineTotal(last) >= 0.0;
    }
  }

  /** `subtotal > 100 ? 0 : 9.99`. */
  function ShippingFor(subtotal: real): (fee: real)
    ensures fee == 0.0 <==> subtotal > FreeShippingOver
    ensures fee != 0.0 ==> fee == FlatShipping
  {
    if subtotal > FreeShippingOver then 0.0 else FlatShipping
  }

  /** The four amounts the pages display and post. */
  datatype Quote = Quote(subtotal: real, tax: real, shipping: real, total: real)

  function QuoteFor(items: seq<CartItem>): (q: Quote)
    ensures q.subtotal == Subtotal(items)
    ensures q.tax == TaxRate * q.subtotal
    ensures q.shipping == 0.0 <==> q.subtotal > FreeShippingOver
    ensures q.shipping != 0.0 ==> q.shipping == FlatShipping
    ensures q.total == q.subtotal + q.tax + q.shipping
  {
    var subtotal := Subtotal(items);
    var tax := subtotal * TaxRate;
    var shipping := ShippingFor(subtotal);
    Quote(subtotal, tax, shipping, subtotal + tax + shipping)
  }

  /** For a cart that is not negative, the total lies between 1.08 × subtotal and that plus 9.99. */
  lemma QuoteBounds(items: seq<CartItem>)
    requires forall x :: x in items ==> x.price >= 0.0 && x.quantity >= 0
    ensures var q := QuoteFor(items);
      && q.subtotal >= 0.0 && q.tax >= 0.0
      && 1.08 * q.subtotal <= q.total <= 1.08 * q.subtotal + FlatShipping
  {
    SubtotalNonNegative(items);
  }

  /** A subtotal of exactly 100 still pays shipping: two 50.00 items cost 117.99 in all. */
  lemma BoundaryExample()
    ensures QuoteFor([CartItem("p", "Item", 50.0, 2, "")]) == Quote(100.0, 8.0, 9.99, 117.99)
  {
    assert [CartItem("p", "Item", 50.0, 2, "")][..0] == [];
  }

  /** The total is not monotone in the cart: one more cent of goods lowers the total. */
  lemma MoreGoodsCanCostLess()
    ensures QuoteFor([CartItem("p", "Item", 100.01, 1, "")]).total
          < QuoteFor([CartItem("p", "Item", 100.0, 1, "")]).total
  {
    assert [CartItem("p", "Item", 100.01, 1, "")][..0] == [];
    assert [CartItem("p", "Item", 100.0, 1, "")][..0] == [];
  }
}
