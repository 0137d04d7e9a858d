/**
 * The per-user cart: adding a product accumulates its quantity on the
 * existing line or appends a new line; removing a product filters out its
 * lines.
 */
module CartController {
  import opened Common
  import opened Lists

  datatype CartLine = CartLine(product: Id, quantity: int)

  /** `cart.items.findIndex(i => i.product.toString() === productId)` */
  function FindLine(items: seq<CartLine>, productId: Id): (k: int)
    ensures -1 <= k < |items|
    ensures k >= 0 ==> items[k].product == productId
    ensures k == -1 <==> forall j :: 0 <= j < |items| ==> items[j].product != productId
  {
    IndexWhere(items, (l: CartLine) => l.product == productId)
  }

  /** The cart lines after `addToCart(productId, quantity)`. */
  function Added(items: seq<CartLine>, productId: Id, quantity: int): (r: seq<CartLine>)
    ensures FindLine(r, productId) >= 0
    ensures |r| == |items| || |r| == |items| + 1
  {
    var k := FindLine(items, productId);
    if k >= 0 then
      var r := items[k := items[k].(quantity := items[k].quantity + quantity)];
      assert r[k].product == productId;
      r
    else
      var r := items + [CartLine(productId, quantity)];
      assert r[|items|].product == productId;
      r
  }

  /** The cart lines after `removeFromCart(productId)`. */
  function Removed(items: seq<CartLine>, productId: Id): (r: seq<CartLine>)
    ensures FindLine(r, productId) == -1
    ensures |r| <= |items|
  {
    Filter(items, (l: CartLine) => l.product != productId)
  }

  /** At most one line per product. */
  predicate OneLinePerProduct(items: seq<CartLine>) {
    forall i, j :: 0 <= i < j < |items| ==> items[i].product != items[j].product
  }

  /** Every line holds at least one unit. */
  predicate PositiveQuantities(items: seq<CartLine>) {
    forall i :: 0 <= i < |items| ==> items[i].quantity >= 1
  }

  /** The total quantity of a product over all its lines. */
  function QuantityOf(items: seq<CartLine>, productId: Id): int
    decreases |items|
  {
    if |items| == 0 then 0
    else (if items[0].product == productId then items[0].quantity else 0) + QuantityOf(items[1..], productId)
  }

  function LineQuantity(l: CartLine, productId: Id): int {
    if l.product == productId then l.quantity else 0
  }

  lemma {:induction false} QuantityOfUpdate(items: seq<CartLine>, k: nat, x: CartLine, productId: Id)
    requires k < |items|
    ensures QuantityOf(items[k := x], productId)
         == QuantityOf(items, productId) - LineQuantity(items[k], productId) + LineQuantity(x, productId)
    decreases |items|
  {
    if k > 0 {
      assert items[k := x][1..] == items[1..][k - 1 := x];
      QuantityOfUpdate(items[1..], k - 1, x, productId);
    } else {
      assert items[k := x][1..] == items[1..];
    }
  }

  lemma {:induction false} QuantityOfAppend(items: seq<CartLine>, x: CartLine, productId: Id)
    ensures QuantityOf(items + [x], productId) == QuantityOf(items, productId) + LineQuantity(x, productId)
    decreases |items|
  {
    if |items| == 0 {
      assert items + [x] == [x];
    } else {
      assert (items + [x])[1..] == items[1..] + [x];
      QuantityOfAppend(items[1..], x, productId);
    }
  }

  /**
   * Adding raises the product's total quantity by exactly the given amount
   * and leaves every other product's total as it was.
   */
  lemma AddedQuantities(items: seq<CartLine>, productId: Id, quantity: int, other: Id)
    requires other != productId
    ensures QuantityOf(Added(items, productId, quantity), productId) == QuantityOf(items, productId) + quantity
    ensures QuantityOf(Added(items, productId, quantity), other) == QuantityOf(items, other)
  {
    var k := FindLine(items, productId);
    if k >= 0 {
      var x := items[k].(quantity := items[k].quantity + quantity);
      assert Added(items, productId, quantity) == items[k := x];
      QuantityOfUpdate(items, k, x, productId);
      QuantityOfUpdate(items, k, x, other);
    } else {
      var x := CartLine(productId, quantity);
      assert Added(items, productId, quantity) == items + [x];
      QuantityOfAppend(items, x, productId);
      QuantityOfAppend(items, x, other);
    }
  }

  /**
   * The shape of an add: a product already present gets its line's
   * quantity raised and no line is added; a new product gets one line at
   * the end. Every line of another product stays where it was, unchanged.
   */
  lemma AddedShape(items: seq<CartLine>, productId: Id, quantity: int)
    ensures var r := Added(items, productId, quantity);
            && ((exists j :: 0 <= j < |items| && items[j].product == productId) ==>
                  |r| == |items| &&
                  exists k :: 0 <= k < |items| && items[k].product == productId
                    && r[k] == CartLine(productId, items[k].quantity + quantity))
            && ((forall j :: 0 <= j < |items| ==> items[j].product != productId) ==>
                  r == items + [CartLine(productId, quantity)])
            && |r| >= |items|
            && forall j :: 0 <= j < |items| && items[j].product != productId ==> r[j] == items[j]
  {
  }

  /** Adding keeps at most one line per product, and keeps quantities positive when the amount is. */
  lemma AddedKeepsInvariants(items: seq<CartLine>, productId: Id, quantity: int)
    requires OneLinePerProduct(items)
    ensures OneLinePerProduct(Added(items, productId, quantity))
    ensures PositiveQuantities(items) && quantity >= 1 ==> PositiveQuantities(Added(items, productId, quantity))
  {
    var k := FindLine(items, productId);
    if k >= 0 {
      assert Added(items, productId, quantity) == items[k := items[k].(quantity := items[k].quantity + quantity)];
    } else {
      var r := items + [CartLine(productId, quantity)];
      assert Added(items, productId, quantity) == r;
      assert forall j :: 0 <= j < |items| ==> r[j] == items[j] && r[j].product != productId;
    }
  }

  /**
   * Adding the same product twice to a cart without it leaves exactly one
   * line for it, holding the sum of the two amounts.
   */
  lemma AddTwice(items: seq<CartLine>, productId: Id, a: int, b: int)
    requires forall j :: 0 <= j < |items| ==> items[j].product != productId
    ensures Added(Added(items, productId, a), productId, b) == items + [CartLine(productId, a + b)]
  {
    var once := items + [CartLine(productId, a)];
    assert forall j :: 0 <= j < |items| ==> once[j] == items[j];
    assert once[|items|].product == productId;
    assert FindLine(once, productId) == |items|;
  }

  /**
   * Removing deletes every line of the product and keeps the other lines in
   * their order; a product that is not in the cart leaves it unchanged.
   */
  lemma RemovedEffect(items: seq<CartLine>, productId: Id, more: seq<CartLine>)
    ensures forall j :: 0 <= j < |Removed(items, productId)| ==> Removed(items, productId)[j].product != productId
    ensures QuantityOf(Removed(items, productId), productId) == 0
    ensures Removed(items + more, productId) == Removed(items, productId) + Removed(more, productId)
    ensures (forall j :: 0 <= j < |items| ==> items[j].product != productId) ==> Removed(items, productId) == items
  {
    var p := (l: CartLine) => l.product != productId;
    FilterAppend(items, more, p);
    QuantityZero(Removed(items, productId), productId);
    if forall j :: 0 <= j < |items| ==> items[j].product != productId {
      FilterAll(items, p);
    }
  }

  lemma {:induction false} QuantityZero(items: seq<CartLine>, productId: Id)
    requires forall j :: 0 <= j < |items| ==> items[j].product != productId
    ensures QuantityOf(items, productId) == 0
    decreases |items|
  {
    if |items| > 0 {
      QuantityZero(items[1..], productId);
    }
  }

  /** Removing a product just added to a cart that did not hold it restores the cart. */
  lemma RemoveUndoesNewAdd(items: seq<CartLine>, productId: Id, quantity: int)
    requires forall j :: 0 <= j < |items| ==> items[j].product != productId
    ensures Removed(Added(items, productId, quantity), productId) == items
  {
    var p := (l: CartLine) => l.product != productId;
    FilterAppend(items, [CartLine(productId, quantity)], p);
    FilterAll(items, p);
  }

  /** The carts collection, one cart per user, updated in place by the handlers. */
  class CartCollection {
    var carts: map<Id, seq<CartLine>>

    constructor (initial: map<Id, seq<CartLine>>)
      ensures carts == initial
    {
      carts := initial;
    }

    /** The user's cart lines, or none when the user has no cart yet. */
    function ItemsOf(user: Id): seq<CartLine>
      reads this
    {
      if user in carts then carts[user] else []
    }

    /**
     * `addToCart`: creates an empty cart for a user who has none, then
     * raises the quantity of the product's line or appends a line for it.
     * No other user's cart changes.
     */
    method AddToCart(user: Id, productId: Id, quantity: int) returns (r: Response<seq<CartLine>>)
      modifies this
      ensures carts == old(carts)[user := Added(old(ItemsOf(user)), productId, quantity)]
      ensures r == Reply(200, carts[user])
    {
      if user !in carts {
        carts := carts[user := []];
      }
      var items := carts[user];
      var k := FindLine(items, productId);
      if k > -1 {
        items := items[k := items[k].(quantity := items[k].quantity + quantity)];
      } else {
        items := items + [CartLine(productId, quantity)];
      }
      carts := carts[user := items];
      r := Reply(200, items);
    }

    /**
     * `removeFromCart`: drops the product's lines from the user's cart. A
     * user without a cart makes `cart.items` throw, which nothing catches.
     */
    method RemoveFromCart(user: Id, productId: Id) returns (r: Response<seq<CartLine>>)
      modifies this
      ensures user !in old(carts) ==> r == Unhandled(ReadOfNull("items")) && carts == old(carts)
      ensures user in old(carts) ==>
                carts == old(carts)[user := Removed(old(carts)[user], productId)] && r == Reply(200, carts[user])
    {
      if user !in carts {
        return Unhandled(ReadOfNull("items"));
      }
      carts := carts[user := Removed(carts[user], productId)];
      r := Reply(200, carts[user]);
    }
  }
}
