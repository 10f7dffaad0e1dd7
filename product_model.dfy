/**
 * The Product schema (`models/Product.ts`): the setters and defaults applied when a document
 * is built, the validators checked when it is saved, and the `priceAfterDiscount` virtual.
 */
module ProductModel {
  import opened Wrappers
  import opened JsString
  import opened JsNumber

  const Categories: set<string> := {"Dresses", "Mobiles", "Shoes", "Accessories"}

  /** A stored product. */
  datatype ProductDoc = ProductDoc(
    name: string, slug: string, description: string, price: real, images: seq<string>,
    category: string, brand: Option<string>, rating: real, numReviews: int,
    countInStock: int, isFeatured: bool, discount: real)

  /** What a creator may send; absent optional fields take the schema defaults. */
  datatype ProductInput = ProductInput(
    name: string, description: string, price: Option<real>, images: seq<string>,
    category: string, brand: Option<string>, rating: Option<real>, numReviews: Option<int>,
    countInStock: Option<int>, isFeatured: Option<bool>, discount: Option<real>)

  /**
   * `new Product({ ...input, slug })`: the `trim` setters on name, description and brand,
   * `lowercase` and `trim` on the slug, and the defaults (rating, numReviews, countInStock and
   * discount 0, isFeatured false).
   */
  function NewProduct(input: ProductInput, slug: string): (d: ProductDoc)
    requires input.price.Some?
    ensures d.name == Trim(input.name) && d.description == Trim(input.description)
    ensures d.slug == Trim(Lower(slug))
    ensures Trimmed(d.name) && Trimmed(d.description) && Trimmed(d.slug)
    ensures forall i :: 0 <= i < |d.slug| ==> !IsUpper(d.slug[i])
    ensures d.brand == if input.brand.Some? then Some(Trim(input.brand.value)) else None
    ensures d.rating == if input.rating.Some? then input.rating.value else 0.0
    ensures d.numReviews == if input.numReviews.Some? then input.numReviews.value else 0
    ensures d.countInStock == if input.countInStock.Some? then input.countInStock.value else 0
    ensures d.isFeatured == (input.isFeatured.Some? && input.isFeatured.value)
    ensures d.discount == if input.discount.Some? then input.discount.value else 0.0
    ensures d.price == input.price.value && d.category == input.category && d.images == input.images
  {
    var slugOut := Trim(Lower(slug));
    TrimKeepsNoUpper(Lower(slug));
    ProductDoc(
      Trim(input.name), slugOut, Trim(input.description), input.price.value, input.images,
      input.category, if input.brand.Some? then Some(Trim(input.brand.value)) else None,
      input.rating.GetOr(0.0), input.numReviews.GetOr(0), input.countInStock.GetOr(0),
      input.isFeatured.GetOr(false), input.discount.GetOr(0.0))
  }

  /** The validators run on save: required strings non-empty, minimums, maximums and the enum. */
  predicate Valid(d: ProductDoc) {
    && d.name != "" && d.slug != "" && d.description != ""
    && d.price >= 0.0
    && (forall k :: 0 <= k < |d.images| ==> d.images[k] != "")
    && d.category in Categories
    && 0.0 <= d.rating <= 5.0
    && d.countInStock >= 0
    && 0.0 <= d.discount <= 100.0
  }

  /** A product with no rating, stock or discount given passes those three checks by its defaults. */
  lemma DefaultsAreValid(input: ProductInput, slug: string)
    requires input.price.Some? && input.rating.None? && input.countInStock.None? && input.discount.None?
    ensures var d := NewProduct(input, slug);
      0.0 <= d.rating <= 5.0 && d.countInStock >= 0 && 0.0 <= d.discount <= 100.0
  {
  }

  /**
   * `priceAfterDiscount`: `discount && discount > 0 ? price - price * (discount / 100) : price`.
   * An absent or zero discount leaves the price.
   */
  function PriceAfterDiscount(price: real, discount: Option<real>): (r: real)
    ensures discount.None? || discount.value <= 0.0 ==> r == price
    ensures discount.Some? && discount.value > 0.0 ==> r == price * (100.0 - discount.value) / 100.0
  {
    if discount.Some? && discount.value > 0.0 then
      price - price * (discount.value / 100.0)
    else price
  }

  /** Within the schema's bounds the discounted price lies between 0 and the price. */
  lemma DiscountWithinPrice(price: real, discount: real)
    requires price >= 0.0 && 0.0 <= discount <= 100.0
    ensures 0.0 <= PriceAfterDiscount(price, Some(discount)) <= price
  {
    if discount > 0.0 {
      MulLe(0.0, 100.0 - discount, price);
      MulLe(100.0 - discount, 100.0, price);
    }
  }

  /** A 100 % discount makes the product free. */
  lemma FullDiscountIsFree(price: real)
    ensures PriceAfterDiscount(price, Some(100.0)) == 0.0
  {
  }

  /** A larger discount never gives a higher price. */
  lemma DiscountMonotone(price: real, d1: real, d2: real)
    requires price >= 0.0 && 0.0 <= d1 <= d2
    ensures PriceAfterDiscount(price, Some(d2)) <= PriceAfterDiscount(price, Some(d1))
  {
    MulLe(100.0 - d2, 100.0 - d1, price);
  }
}
