/**
 * The cart page: a list of cart lines held in component state, changed by the quantity
 * buttons and the remove button, and the order summary with its free-shipping hint.
 */
module CartPage {
  import opened Wrappers
  import opened Shop
  import opened ClientPricing

  /** `prev.map(item => item.id === id ? { ...item, quantity: q } : item)`. */
  function WithQuantity(items: seq<CartItem>, id: string, q: int): (r: seq<CartItem>)
    ensures |r| == |items|
    ensures forall k :: 0 <= k < |items| && items[k].id != id ==> r[k] == items[k]
    ensures forall k :: 0 <= k < |items| && items[k].id == id ==> r[k] == items[k].(quantity := q)
  {
    if items == [] then []
    else
      var head := if items[0].id == id then items[0].(quantity := q) else items[0];
      var rest := WithQuantity(items[1..], id, q);
      assert forall k :: 1 <= k < |items| ==> ([head] + rest)[k] == rest[k - 1];
      [head] + rest
  }

  /** Every line has a quantity of at least one. */
  predicate AllPositive(items: seq<CartItem>) {
    forall x :: x in items ==> x.quantity >= 1
  }

  /** The two ways the page changes the list. */
  datatype CartOp = SetQuantity(id: string, q: int) | Remove(id: string)

  /** The list after one call of `updateQuantity` or `removeItem`. */
  function Apply(items: seq<CartItem>, op: CartOp): seq<CartItem> {
    match op
    case Remove(id) => WithoutId(items, id)
    case SetQuantity(id, q) => if q <= 0 then WithoutId(items, id) else WithQuantity(items, id, q)
  }

  function ApplyAll(items: seq<CartItem>, ops: seq<CartOp>): seq<CartItem>
    decreases |ops|
  {
    if ops == [] then items else ApplyAll(Apply(items, ops[0]), ops[1..])
  }

  /** One call keeps every quantity at least one. */
  lemma ApplyKeepsPositive(items: seq<CartItem>, op: CartOp)
    requires AllPositive(items)
    ensures AllPositive(Apply(items, op))
  {
    WithoutIdMembers(items, op.id);
    if op.SetQuantity? && op.q > 0 {
      var r := WithQuantity(items, op.id, op.q);
      forall x | x in r ensures x.quantity >= 1 {
        var k :| 0 <= k < |r| && r[k] == x;
        assert items[k] in items;
      }
    }
  }

  /** If every quantity starts at one or more, it stays so after any sequence of calls. */
  lemma {:induction false} ApplyAllKeepsPositive(items: seq<CartItem>, ops: seq<CartOp>)
    requires AllPositive(items)
    ensures AllPositive(ApplyAll(items, ops))
    decreases |ops|
  {
    if ops != [] {
      ApplyKeepsPositive(items, ops[0]);
      ApplyAllKeepsPositive(Apply(items, ops[0]), ops[1..]);
    }
  }

  /** Pressing "−" on a line whose quantity is 1 removes every line with that id. */
  lemma DecrementFromOneRemoves(items: seq<CartItem>, k: nat)
    requires k < |items| && items[k].quantity == 1
    ensures Apply(items, SetQuantity(items[k].id, items[k].quantity - 1)) == WithoutId(items, items[k].id)
  {
  }

  /**
   * The hint under the summary: `subtotal < 100 && 'Add $(100 - subtotal) more'`.  It is shown
   * exactly below 100, so a subtotal of exactly 100 gets no hint yet still pays shipping.
   */
  function FreeShippingHint(subtotal: real): (gap: Option<real>)
    ensures gap.Some? <==> subtotal < FreeShippingOver
    ensures gap.Some? ==> gap.value > 0.0 && subtotal + gap.value == FreeShippingOver
  {
    if subtotal < FreeShippingOver then Some(FreeShippingOver - subtotal) else None
  }

  /** Whenever the hint is shown, shipping is charged; the converse fails only at exactly 100. */
  lemma HintMeansShippingCharged(subtotal: real)
    ensures FreeShippingHint(subtotal).Some? ==> ShippingFor(subtotal) == FlatShipping
    ensures ShippingFor(subtotal) == FlatShipping && FreeShippingHint(subtotal).None?
            <==> subtotal == FreeShippingOver
  {
  }

  /** The page's state: the list of lines. */
  class CartView {
    var items: seq<CartItem>

    constructor (initial: seq<CartItem>)
      ensures items == initial
    {
      items := initial;
    }

    /** `removeItem(id)`. */
    method RemoveItem(id: string)
      modifies this
      ensures items == WithoutId(old(items), id)
      ensures items == Apply(old(items), Remove(id))
    {
      items := WithoutId(items, id);
    }

    /** `updateQuantity(id, q)`: a quantity of zero or less removes the line instead. */
    method UpdateQuantity(id: string, q: int)
      modifies this
      ensures q <= 0 ==> items == WithoutId(old(items), id)
      ensures q > 0 ==> items == WithQuantity(old(items), id, q)
      ensures items == Apply(old(items), SetQuantity(id, q))
    {
      if q <= 0 {
        RemoveItem(id);
        return;
      }
      items := WithQuantity(items, id, q);
    }

    /** The summary card: the same amounts the checkout page computes. */
    function Summary(): (q: Quote)
      reads this
      ensures q == QuoteFor(items)
    {
      var subtotal := Subtotal(items);
      var tax := subtotal * 0.08;
      var shipping := if subtotal > 100.0 then 0.0 else 9.99;
      Quote(subtotal, tax, shipping, subtotal + tax + shipping)
    }
  }
}
