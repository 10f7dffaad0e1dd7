/**
 * The product listing page: the category filter over the loaded products, the page's own
 * wishlist set (toggled by the heart button), and "Buy Now", which rewrites the cart in
 * localStorage so that the product is its single, last entry.
 */
module ProductsPage {
  import opened Wrappers
  import opened Shop
  import JsSet

  /** The product fields the page uses. */
  datatype Product = Product(
    id: string, name: string, description: string, price: real,
    discount: Option<real>, images: seq<string>, category: string)

  /** `products.filter(p => p.category === category)`. */
  function WithCategory(products: seq<Product>, category: string): (r: seq<Product>)
    ensures |r| <= |products|
    ensures forall p :: p in r <==> p in products && p.category == category
  {
    if products == [] then []
    else
      var rest := WithCategory(products[1..], category);
      assert forall p :: p in products <==> p == products[0] || p in products[1..];
      (if products[0].category == category then [products[0]] else []) + rest
  }

  /** The filter keeps relative order: filtering a concatenation filters each part. */
  lemma {:induction false} WithCategoryAppend(a: seq<Product>, b: seq<Product>, category: string)
    ensures WithCategory(a + b, category) == WithCategory(a, category) + WithCategory(b, category)
  {
    if a == [] {
      assert a + b == b;
    } else {
      assert (a + b)[0] == a[0] && (a + b)[1..] == a[1..] + b;
      WithCategoryAppend(a[1..], b, category);
    }
  }

  /** `visible`: every product when no category is chosen, else those of that category. */
  function Visible(products: seq<Product>, category: string): (r: seq<Product>)
    ensures category == "" ==> r == products
    ensures category != "" ==> forall p :: p in r <==> p in products && p.category == category
  {
    if category == "" then products else WithCategory(products, category)
  }

  /** The localStorage 'cart' entry as `handleBuyNow` finds it. */
  datatype StoredCart = NoCart | Unparsable | NotAnArray | CartArray(items: seq<CartItem>)

  /** The line Buy Now adds: quantity 1, and the first image or the site icon when there is none. */
  function BuyNowItem(p: Product): (item: CartItem)
    ensures item.id == p.id && item.quantity == 1
    ensures |p.images| > 0 && p.images[0] != "" ==> item.image == p.images[0]
    ensures (|p.images| == 0 || p.images[0] == "") ==> item.image == "/icon.svg"
  {
    CartItem(p.id, p.name, p.price, 1, if |p.images| > 0 && p.images[0] != "" then p.images[0] else "/icon.svg")
  }

  /**
   * The stored cart after Buy Now: a missing entry parses as `[]`, an array loses every entry
   * with the product's id and gains the new line at the end, anything else becomes the single
   * new line, and text that does not parse throws before the write, leaving the entry alone.
   */
  function BuyNowCart(stored: StoredCart, p: Product): StoredCart {
    match stored
    case NoCart => CartArray([BuyNowItem(p)])
    case Unparsable => Unparsable
    case NotAnArray => CartArray([BuyNowItem(p)])
    case CartArray(items) => CartArray(WithoutId(items, p.id) + [BuyNowItem(p)])
  }

  /**
   * After Buy Now the cart holds exactly one entry with the product's id, last and with
   * quantity 1, and the other entries keep their relative order.
   */
  lemma BuyNowSingleLastEntry(items: seq<CartItem>, p: Product)
    ensures var r := BuyNowCart(CartArray(items), p).items;
      && |r| >= 1 && r[|r| - 1] == BuyNowItem(p)
      && (forall k :: 0 <= k < |r| - 1 ==> r[k].id != p.id)
      && r[..|r| - 1] == WithoutId(items, p.id)
  {
    var r := BuyNowCart(CartArray(items), p).items;
    WithoutIdMembers(items, p.id);
    assert r[..|r| - 1] == WithoutId(items, p.id);
    forall k | 0 <= k < |r| - 1 ensures r[k].id != p.id {
      assert r[k] in WithoutId(items, p.id);
    }
  }

  /** A product not yet in the cart is simply appended. */
  lemma BuyNowAppendsNew(items: seq<CartItem>, p: Product)
    requires forall x :: x in items ==> x.id != p.id
    ensures BuyNowCart(CartArray(items), p) == CartArray(items + [BuyNowItem(p)])
  {
    WithoutIdKeepsOthers(items, p.id);
  }

  /** Buying the same product twice leaves the same cart as buying it once. */
  lemma BuyNowIdempotent(stored: StoredCart, p: Product)
    ensures BuyNowCart(BuyNowCart(stored, p), p) == BuyNowCart(stored, p)
  {
    if stored.Unparsable? {
      return;
    }
    var item := BuyNowItem(p);
    var rest := if stored.CartArray? then WithoutId(stored.items, p.id) else [];
    assert BuyNowCart(stored, p) == CartArray(rest + [item]) by {
      if !stored.CartArray? {
        assert rest + [item] == [item];
      }
    }
    assert forall x :: x in rest ==> x.id != p.id by {
      if stored.CartArray? {
        WithoutIdMembers(stored.items, p.id);
      }
    }
    WithoutIdKeepsOthers(rest, p.id);
    WithoutIdAppend(rest, [item], p.id);
    assert WithoutId([item], p.id) == [] by {
      assert [item][1..] == [];
    }
    assert WithoutId(rest + [item], p.id) == rest + [];
    assert rest + [] == rest;
  }

  /** The page's state. */
  class ProductsView {
    var category: string
    var products: seq<Product>
    /** The wishlist Set, in insertion order. */
    var wishlist: seq<string>
    var storedCart: StoredCart
    /** The route the router was last sent to, if any. */
    var navigatedTo: Option<string>

    /** The page after loading: the saved wishlist array becomes a Set, dropping repeats. */
    constructor (products: seq<Product>, savedWishlist: seq<string>, storedCart: StoredCart)
      ensures this.products == products && category == ""
      ensures JsSet.NoDups(wishlist) && JsSet.Elements(wishlist) == JsSet.Elements(savedWishlist)
      ensures this.storedCart == storedCart && navigatedTo.None?
    {
      this.products := products;
      category := "";
      wishlist := JsSet.FromArray(savedWishlist);
      this.storedCart := storedCart;
      navigatedTo := None;
    }

    /** The products the grid shows. */
    function Shown(): (r: seq<Product>)
      reads this
      ensures r == Visible(products, category)
      ensures forall p :: p in r ==> p in products
      ensures category != "" ==> forall p :: p in r ==> p.category == category
    {
      Visible(products, category)
    }

    /** `toggleWishlist`: copy the Set, then delete the id if present or add it if not. */
    method ToggleWishlist(productId: string)
      modifies this
      ensures wishlist == JsSet.Toggle(old(wishlist), productId)
      ensures JsSet.NoDups(old(wishlist)) ==> JsSet.NoDups(wishlist)
      ensures productId in wishlist <==> productId !in old(wishlist)
      ensures forall y :: y != productId ==> (y in wishlist <==> y in old(wishlist))
      ensures category == old(category) && products == old(products) && storedCart == old(storedCart)
      ensures navigatedTo == old(navigatedTo)
    {
      var copy := wishlist;
      if productId in copy {
        copy := JsSet.Delete(copy, productId);
      } else {
        copy := JsSet.Add(copy, productId);
      }
      wishlist := copy;
    }

    /** `handleBuyNow`: rewrite the stored cart, then go to the cart page in every case. */
    method BuyNow(p: Product)
      modifies this
      ensures storedCart == BuyNowCart(old(storedCart), p)
      ensures navigatedTo == Some("/cart")
      ensures category == old(category) && products == old(products) && wishlist == old(wishlist)
    {
      match storedCart {
        case Unparsable =>
        case NoCart =>
          storedCart := CartArray([BuyNowItem(p)]);
        case NotAnArray =>
          storedCart := CartArray([BuyNowItem(p)]);
        case CartArray(existing) =>
          storedCart := CartArray(WithoutId(existing, p.id) + [BuyNowItem(p)]);
      }
      navigatedTo := Some("/cart");
    }
  }
}
