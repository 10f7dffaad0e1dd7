/**
 * `useWishlist`: the shared wishlist as a Set of product ids held in component state,
 * persisted to localStorage, synced to `/api/users/me` and announced to other components
 * with a `wishlistUpdated` event.  Whether the storage write succeeds is a parameter; the
 * sync request is fire-and-forget, so only the bodies sent are recorded.
 */
module WishlistHook {
  import opened Wrappers
  import opened JsSet

  class Wishlist {
    /** The Set in state, in insertion order. */
    var items: seq<string>
    /** The array localStorage holds under 'wishlist', if any: what mounting found, until the hook writes. */
    var stored: Option<seq<string>>
    /** The `{ wishlist }` bodies of the PATCH requests sent, oldest first. */
    var synced: seq<seq<string>>
    /** The `detail.wishlist` arrays of the events dispatched, oldest first. */
    var events: seq<seq<string>>

    /** The hook's invariant: the Set has no repeats. */
    predicate Valid()
      reads this
    {
      NoDups(items)
    }

    /** Mounting: the saved array, if any, becomes a Set (repeats dropped); nothing is written or sent. */
    constructor (saved: Option<seq<string>>)
      ensures Valid()
      ensures saved.Some? ==> Elements(items) == Elements(saved.value)
      ensures saved.None? ==> items == []
      ensures stored == saved
      ensures synced == [] && events == []
    {
      items := if saved.Some? then FromArray(saved.value) else [];
      stored := saved;
      synced := [];
      events := [];
    }

    /**
     * The steps after the state update: write storage; on failure stop there; otherwise send
     * the PATCH body and dispatch the event, both carrying the same array.
     */
    method Persist(storageOk: bool)
      requires Valid()
      modifies this
      ensures Valid()
      ensures items == old(items)
      ensures storageOk ==> stored == Some(items) && synced == old(synced) + [items] && events == old(events) + [items]
      ensures !storageOk ==> stored == old(stored) && synced == old(synced) && events == old(events)
    {
      if !storageOk {
        return;
      }
      var wishlistArray := items;
      stored := Some(wishlistArray);
      synced := synced + [wishlistArray];
      events := events + [wishlistArray];
    }

    /** `addToWishlist`: the new Set is the old one plus the id. */
    method AddToWishlist(productId: string, storageOk: bool)
      requires Valid()
      modifies this
      ensures Valid()
      ensures items == Add(old(items), productId)
      ensures Elements(items) == Elements(old(items)) + {productId}
      ensures storageOk ==> stored == Some(items) && synced == old(synced) + [items] && events == old(events) + [items]
      ensures !storageOk ==> stored == old(stored) && synced == old(synced) && events == old(events)
    {
      var next := Add(items, productId);
      items := next;
      Persist(storageOk);
    }

    /** `removeFromWishlist`: the new Set is the old one without the id. */
    method RemoveFromWishlist(productId: string, storageOk: bool)
      requires Valid()
      modifies this
      ensures Valid()
      ensures items == Delete(old(items), productId)
      ensures Elements(items) == Elements(old(items)) - {productId}
      ensures storageOk ==> stored == Some(items) && synced == old(synced) + [items] && events == old(events) + [items]
      ensures !storageOk ==> stored == old(stored) && synced == old(synced) && events == old(events)
    {
      var next := Delete(items, productId);
      items := next;
      Persist(storageOk);
    }

    /** `toggleWishlist`: remove when present, add when absent. */
    method ToggleWishlist(productId: string, storageOk: bool)
      requires Valid()
      modifies this
      ensures Valid()
      ensures items == Toggle(old(items), productId)
      ensures productId in items <==> productId !in old(items)
      ensures forall y :: y != productId ==> (y in items <==> y in old(items))
      ensures storageOk ==> stored == Some(items) && synced == old(synced) + [items] && events == old(events) + [items]
      ensures !storageOk ==> stored == old(stored) && synced == old(synced) && events == old(events)
    {
      if IsInWishlist(productId) {
        RemoveFromWishlist(productId, storageOk);
      } else {
        AddToWishlist(productId, storageOk);
      }
    }

    /** `isInWishlist`: Set membership. */
    function IsInWishlist(productId: string): (r: bool)
      reads this
      ensures r <==> productId in Elements(items)
    {
      productId in items
    }

    /** `getWishlistArray`: `Array.from(set)`, the elements in insertion order, each once. */
    function GetWishlistArray(): (r: seq<string>)
      reads this
      requires Valid()
      ensures NoDups(r) && Elements(r) == Elements(items)
      ensures FromArray(r) == items
    {
      FromArrayOfDistinct(items);
      items
    }
  }
}
