/**
 * The storefront page: which products it shows for a search and a
 * category, which category buttons it offers, and how the heart button
 * toggles a product in the wishlist it keeps.
 */
module HomePage {
  import opened Common
  import opened Lists
  import opened Strings
  import opened ProductModel
  import WishlistController

  /**
   * Whether a product passes the search and the category choice. `q` is
   * already lowered; `selected` is None for "all products" (a falsy choice).
   */
  predicate Matches(p: Product, q: string, selected: Option<string>) {
    (q == "" || Contains(Lower(p.name), q) || Contains(Lower(p.description), q))
    && (selected.None? || selected.value == "" || p.category == selected.value)
  }

  /** `visible`: the products that pass, in catalogue order (`q` is the raw `?q=` parameter, "" when absent). */
  function Visible(products: seq<Product>, q: string, selected: Option<string>): (r: seq<Product>)
    ensures forall i :: 0 <= i < |r| ==> r[i] in products && Matches(r[i], Lower(q), selected)
    ensures forall i :: 0 <= i < |products| && Matches(products[i], Lower(q), selected) ==> products[i] in r
  {
    var ql := Lower(q);
    Filter(products, (p: Product) => Matches(p, ql, selected))
  }

  /** With no search and no category every product is shown, in order. */
  lemma VisibleAll(products: seq<Product>)
    ensures Visible(products, "", None) == products
  {
    FilterAll(products, (p: Product) => Matches(p, Lower(""), None));
  }

  /**
   * The search ignores ASCII case: a query and its lowered form show the
   * same products; and a query occurring in a name shows that product
   * whatever the name's case.
   */
  lemma VisibleCaseInsensitive(products: seq<Product>, q: string, selected: Option<string>)
    ensures Visible(products, Lower(q), selected) == Visible(products, q, selected)
  {
    LowerIdempotent(q);
  }

  /** Choosing a category narrows the search results to that category, keeping their order. */
  lemma CategoryNarrows(products: seq<Product>, q: string, c: string)
    ensures Visible(products, q, Some(c))
         == Filter(Visible(products, q, None), (p: Product) => c == "" || p.category == c)
  {
    var ql := Lower(q);
    FilterBoth(products, (p: Product) => Matches(p, ql, None), (p: Product) => c == "" || p.category == c,
               (p: Product) => Matches(p, ql, Some(c)));
  }

  /** The category of every product, missing ones ("") dropped. */
  function CategoryList(products: seq<Product>): (r: seq<string>)
    ensures forall i :: 0 <= i < |r| ==> r[i] != ""
  {
    Filter(Map(products, (p: Product) => p.category), (c: string) => c != "")
  }

  /** `categories`: the distinct non-empty categories, in order of first appearance. */
  function Categories(products: seq<Product>): (r: seq<string>)
    ensures NoDuplicates(r)
    ensures forall i :: 0 <= i < |r| ==> r[i] != "" && exists j :: 0 <= j < |products| && products[j].category == r[i]
    ensures forall j :: 0 <= j < |products| && products[j].category != "" ==> products[j].category in r
  {
    var all := CategoryList(products);
    var r := Distinct(all);
    assert forall j :: 0 <= j < |products| && products[j].category != "" ==> products[j].category in all by {
      forall j | 0 <= j < |products| && products[j].category != ""
        ensures products[j].category in all
      {
        assert Map(products, (p: Product) => p.category)[j] == products[j].category;
      }
    }
    r
  }

  /**
   * A product added to the catalogue adds a category button at the end
   * exactly when its category is new and not empty.
   */
  lemma CategoriesExtend(products: seq<Product>, p: Product)
    ensures Categories(products + [p])
         == if p.category == "" || p.category in Categories(products) then Categories(products)
            else Categories(products) + [p.category]
  {
    var f := (x: Product) => x.category;
    var nonEmpty := (c: string) => c != "";
    assert Map(products + [p], f) == Map(products, f) + [p.category];
    FilterAppend(Map(products, f), [p.category], nonEmpty);
    var all := CategoryList(products);
    if p.category == "" {
      assert CategoryList(products + [p]) == all;
    } else {
      assert CategoryList(products + [p]) == all + [p.category];
      DistinctAppend(all, p.category);
      assert p.category in all <==> p.category in Distinct(all);
    }
  }

  /** The set after the heart button: a product in the set leaves it, any other joins it. */
  function Toggled(ids: set<Id>, id: Id): (r: set<Id>)
    ensures id in r <==> id !in ids
    ensures forall x :: x != id ==> (x in r <==> x in ids)
  {
    if id in ids then ids - {id} else ids + {id}
  }

  /** Toggling twice restores the set. */
  lemma ToggleTwice(ids: set<Id>, id: Id)
    ensures Toggled(Toggled(ids, id), id) == ids
  {
  }

  /** The ids a wishlist holds. */
  function Members(products: seq<Id>): set<Id> {
    set x | x in products
  }

  /**
   * The page's set follows the server: when it held the ids of the stored
   * wishlist, the toggled set holds the ids of the wishlist the server keeps
   * after the call the page makes (remove for a member, add otherwise).
   */
  lemma ToggleMatchesServer(stored: seq<Id>, id: Id)
    ensures id in Members(stored) ==>
              Toggled(Members(stored), id) == Members(WishlistController.WithoutProduct(stored, id))
    ensures id !in Members(stored) ==>
              Toggled(Members(stored), id) == Members(WishlistController.WithProduct(stored, id))
  {
    var without := WishlistController.WithoutProduct(stored, id);
    forall x | x != id
      ensures x in Members(stored) <==> x in Members(without)
    {
      FilterMultiset(stored, (y: Id) => y != id, x);
    }
  }

  /** The request the heart button sends. */
  datatype WishlistCall = RemoveCall(id: Id) | AddCall(id: Id)

  /** What the heart button led to. */
  datatype ToggleResult = ToLogin | Updated(call: WishlistCall) | Alerted(call: WishlistCall, message: string)

  /** The storefront's wishlist state. */
  class Home {
    var wishlistIds: set<Id>

    constructor (initial: set<Id>)
      ensures wishlistIds == initial
    {
      wishlistIds := initial;
    }

    /**
     * `toggleWishlist`: without a stored token the page goes to the login
     * page; otherwise it removes a member or adds a non-member on the
     * server, and changes its own set only when the server call succeeds.
     * `succeeds` is that call's outcome.
     */
    method ToggleWishlist(id: Id, token: Option<string>, succeeds: bool) returns (r: ToggleResult)
      modifies this
      ensures token.None? || token.value == "" ==> r == ToLogin && wishlistIds == old(wishlistIds)
      ensures token.Some? && token.value != "" ==>
                (r.Updated? || r.Alerted?)
                && r.call == (if id in old(wishlistIds) then RemoveCall(id) else AddCall(id))
                && (succeeds ==> r.Updated? && wishlistIds == Toggled(old(wishlistIds), id))
                && (!succeeds ==> r == Alerted(r.call, "Wishlist update failed") && wishlistIds == old(wishlistIds))
    {
      if token.None? || token.value == "" {
        return ToLogin;
      }
      var next := wishlistIds;
      var call := if id in next then RemoveCall(id) else AddCall(id);
      if !succeeds {
        return Alerted(call, "Wishlist update failed");
      }
      if id in next {
        next := next - {id};
      } else {
        next := next + {id};
      }
      wishlistIds := next;
      r := Updated(call);
    }
  }
}
