/**
 * The records the storefront's pages keep on the client and post to its routes: cart lines,
 * the shipping form, and the signed-in identity that NextAuth supplies to every route
 * (modelled as an explicit parameter instead of `getServerSession`).
 */
module Shop {
  import opened Wrappers

  /** A cart line, as kept in localStorage under 'cart' and posted to the routes. */
  datatype CartItem = CartItem(id: string, name: string, price: real, quantity: int, image: string)

  /** The checkout form. */
  datatype ShippingInfo = ShippingInfo(
    fullName: string, email: string, phone: string, address: string,
    city: string, state: string, zipCode: string, country: string)

  /** `session.user`: the fields the routes read. */
  datatype SessionUser = SessionUser(id: string, role: string)

  /** The user id a route acts for; `!session?.user?.id` (absent or empty) means none. */
  function SignedInId(session: Option<SessionUser>): (uid: Option<string>)
    ensures uid.Some? <==> session.Some? && session.value.id != ""
    ensures uid.Some? ==> uid.value == session.value.id
  {
    if session.Some? && session.value.id != "" then Some(session.value.id) else None
  }

  /** A request body's `items` field as the routes test it: absent, not an array, or an array. */
  datatype ItemsField = Missing | NotAnArray | Items(items: seq<CartItem>)

  /** The routes' guard `!items || !Array.isArray(items) || items.length === 0` fails. */
  predicate HasItems(f: ItemsField) {
    f.Items? && |f.items| > 0
  }

  /** `items.filter(x => x.id !== id)`. */
  function WithoutId(items: seq<CartItem>, id: string): (r: seq<CartItem>)
    ensures |r| <= |items|
  {
    if items == [] then []
    else (if items[0].id == id then [] else [items[0]]) + WithoutId(items[1..], id)
  }

  /** The filter keeps exactly the items whose id differs. */
  lemma {:induction false} WithoutIdMembers(items: seq<CartItem>, id: string)
    ensures forall x :: x in WithoutId(items, id) <==> x in items && x.id != id
  {
    if items != [] {
      WithoutIdMembers(items[1..], id);
      assert forall x :: x in items <==> x == items[0] || x in items[1..];
    }
  }

  /** The filter keeps order: filtering a concatenation filters each part. */
  lemma {:induction false} WithoutIdAppend(a: seq<CartItem>, b: seq<CartItem>, id: string)
    ensures WithoutId(a + b, id) == WithoutId(a, id) + WithoutId(b, id)
  {
    if a == [] {
      assert a + b == b;
    } else {
      var head := if a[0].id == id then [] else [a[0]];
      assert (a + b)[0] == a[0] && (a + b)[1..] == a[1..] + b;
      calc {
        WithoutId(a + b, id);
        head + WithoutId(a[1..] + b, id);
        { WithoutIdAppend(a[1..], b, id); }
        head + (WithoutId(a[1..], id) + WithoutId(b, id));
        (head + WithoutId(a[1..], id)) + WithoutId(b, id);
        WithoutId(a, id) + WithoutId(b, id);
      }
    }
  }

  /** Items with other ids pass the filter unchanged and in order. */
  lemma {:induction false} WithoutIdKeepsOthers(items: seq<CartItem>, id: string)
    requires forall x :: x in items ==> x.id != id
    ensures WithoutId(items, id) == items
  {
    if items != [] {
      WithoutIdKeepsOthers(items[1..], id);
      assert items == [items[0]] + items[1..];
    }
  }
}
