/**
 * The per-user wishlist: adding is idempotent, removing filters the id out.
 */
module WishlistController {
  import opened Common
  import opened Lists

  /** The product ids after `addToWishlist(productId)` on an existing wishlist. */
  function WithProduct(products: seq<Id>, productId: Id): (r: seq<Id>)
    ensures productId in r
  {
    if productId in products then products else products + [productId]
  }

  /** The product ids after `removeFromWishlist(productId)`. */
  function WithoutProduct(products: seq<Id>, productId: Id): (r: seq<Id>)
    ensures productId !in r
  {
    Filter(products, (p: Id) => p != productId)
  }

  /**
   * Adding a product already present changes nothing; adding a new one
   * appends it at the end; either way the list keeps having no duplicates.
   */
  lemma WithProductEffect(products: seq<Id>, productId: Id)
    ensures productId in products ==> WithProduct(products, productId) == products
    ensures productId !in products ==> WithProduct(products, productId) == products + [productId]
    ensures NoDuplicates(products) ==> NoDuplicates(WithProduct(products, productId))
    ensures WithProduct(WithProduct(products, productId), productId) == WithProduct(products, productId)
  {
  }

  /**
   * Removing drops every occurrence of the id and keeps the other ids in
   * their order; it keeps the no-duplicates invariant.
   */
  lemma WithoutProductEffect(products: seq<Id>, more: seq<Id>, productId: Id, other: Id)
    requires other != productId
    ensures WithoutProduct(products + more, productId) == WithoutProduct(products, productId) + WithoutProduct(more, productId)
    ensures multiset(WithoutProduct(products, productId))[other] == multiset(products)[other]
    ensures productId !in products ==> WithoutProduct(products, productId) == products
    ensures NoDuplicates(products) ==> NoDuplicates(WithoutProduct(products, productId))
  {
    var p := (x: Id) => x != productId;
    FilterAppend(products, more, p);
    FilterMultiset(products, p, other);
    if productId !in products {
      FilterAll(products, p);
    }
    if NoDuplicates(products) {
      FilterKeepsNoDuplicates(products, p);
    }
  }

  lemma {:induction false} FilterKeepsNoDuplicates(s: seq<Id>, p: Id -> bool)
    requires NoDuplicates(s)
    ensures NoDuplicates(Filter(s, p))
    decreases |s|
  {
    if |s| > 0 {
      FilterKeepsNoDuplicates(s[1..], p);
      assert s[0] !in s[1..];
    }
  }

  /** Adding and then removing the same id leaves it absent, and restores a list that lacked it. */
  lemma AddThenRemove(products: seq<Id>, productId: Id)
    ensures productId !in WithoutProduct(WithProduct(products, productId), productId)
    ensures productId !in products ==> WithoutProduct(WithProduct(products, productId), productId) == products
  {
    var p := (x: Id) => x != productId;
    if productId !in products {
      FilterAppend(products, [productId], p);
      FilterAll(products, p);
    }
  }

  /** The wishlists collection, one per user, updated in place by the handlers. */
  class WishlistCollection {
    var lists: map<Id, seq<Id>>

    constructor (initial: map<Id, seq<Id>>)
      ensures lists == initial
    {
      lists := initial;
    }

    /**
     * `addToWishlist`: a user without a wishlist gets one holding just the
     * product; otherwise the product is appended unless already present.
     */
    method AddToWishlist(user: Id, productId: Id) returns (r: Response<seq<Id>>)
      modifies this
      ensures user !in old(lists) ==> lists == old(lists)[user := [productId]]
      ensures user in old(lists) ==> lists == old(lists)[user := WithProduct(old(lists)[user], productId)]
      ensures r == Reply(200, lists[user])
    {
      if user !in lists {
        lists := lists[user := [productId]];
      } else {
        var products := lists[user];
        if productId !in products {
          products := products + [productId];
        }
        lists := lists[user := products];
      }
      r := Reply(200, lists[user]);
    }

    /**
     * `removeFromWishlist`: drops the id from the user's wishlist. A user
     * without a wishlist makes `wishlist.products` throw, which nothing catches.
     */
    method RemoveFromWishlist(user: Id, productId: Id) returns (r: Response<seq<Id>>)
      modifies this
      ensures user !in old(lists) ==> r == Unhandled(ReadOfNull("products")) && lists == old(lists)
      ensures user in old(lists) ==>
                lists == old(lists)[user := WithoutProduct(old(lists)[user], productId)] && r == Reply(200, lists[user])
    {
      if user !in lists {
        return Unhandled(ReadOfNull("products"));
      }
      lists := lists[user := WithoutProduct(lists[user], productId)];
      r := Reply(200, lists[user]);
    }
  }
}
