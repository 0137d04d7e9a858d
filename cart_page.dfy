/**
 * The cart page: what it shows after loading the cart, the total it
 * computes, how removing a line changes it, and the checkout payload it
 * hands to the payment page, which forwards it to order creation.
 */
module CartPage {
  import opened Common
  import opened Lists
  import opened ProductModel
  import opened OrderModel
  import CartController
  import OrderController

  /** A cart line as the page receives it, its product populated. */
  datatype ShownLine = ShownLine(product: Product, quantity: int)

  /** `it.product.price * it.quantity` */
  function LineTotal(l: ShownLine): int {
    l.product.price * l.quantity
  }

  /** `items.reduce((sum, it) => sum + price * quantity, 0)`, folded from the left. */
  function Total(lines: seq<ShownLine>): (t: int)
    ensures (forall i :: 0 <= i < |lines| ==> lines[i].product.price >= 0 && lines[i].quantity >= 0) ==> t >= 0
    decreases |lines|
  {
    if |lines| == 0 then 0
    else Total(lines[..|lines| - 1]) + LineTotal(lines[|lines| - 1])
  }

  /** The total of two runs of lines is the sum of their totals. */
  lemma {:induction false} TotalAppend(a: seq<ShownLine>, b: seq<ShownLine>)
    ensures Total(a + b) == Total(a) + Total(b)
    decreases |b|
  {
    if |b| == 0 {
      assert a + b == a;
    } else {
      assert (a + b)[..|a + b| - 1] == a + b[..|b| - 1];
      TotalAppend(a, b[..|b| - 1]);
    }
  }

  /**
   * An empty cart totals 0; a cart whose prices and quantities are not
   * negative totals at least 0; and the total is the sum of the lines'
   * totals, whatever their order (a line moved to the front adds the same).
   */
  lemma {:induction false} TotalLaws(lines: seq<ShownLine>, l: ShownLine)
    ensures Total([]) == 0
    ensures Total([l] + lines) == LineTotal(l) + Total(lines)
    ensures Total(lines + [l]) == Total(lines) + LineTotal(l)
    ensures (forall i :: 0 <= i < |lines| ==> lines[i].product.price >= 0 && lines[i].quantity >= 0) ==> Total(lines) >= 0
    decreases |lines|
  {
    assert Total([l]) == LineTotal(l) by { assert [l][..0] == []; }
    TotalAppend([l], lines);
    TotalAppend(lines, [l]);
  }

  /**
   * The total splits along any predicate: the lines that pass and the lines
   * that do not add up to the whole cart.
   */
  lemma {:induction false} TotalSplits(lines: seq<ShownLine>, p: ShownLine -> bool)
    ensures Total(lines) == Total(Filter(lines, p)) + Total(Filter(lines, (l: ShownLine) => !p(l)))
    decreases |lines|
  {
    if |lines| > 0 {
      var notP := (l: ShownLine) => !p(l);
      TotalSplits(lines[1..], p);
      TotalLaws(lines[1..], lines[0]);
      assert lines == [lines[0]] + lines[1..];
      if p(lines[0]) {
        assert Filter(lines, p) == [lines[0]] + Filter(lines[1..], p);
        TotalLaws(Filter(lines[1..], p), lines[0]);
      } else {
        assert Filter(lines, notP) == [lines[0]] + Filter(lines[1..], notP);
        TotalLaws(Filter(lines[1..], notP), lines[0]);
      }
    }
  }

  /** The lines after a removal succeeds: `prev.items.filter(it => it.product._id !== productId)`. */
  function AfterRemove(lines: seq<ShownLine>, productId: Id): (r: seq<ShownLine>)
    ensures forall i :: 0 <= i < |r| ==> r[i].product.id != productId && r[i] in lines
    ensures forall i :: 0 <= i < |lines| && lines[i].product.id != productId ==> lines[i] in r
  {
    Filter(lines, (l: ShownLine) => l.product.id != productId)
  }

  /** The stored cart line behind a shown one. */
  function Stored(l: ShownLine): CartController.CartLine {
    CartController.CartLine(l.product.id, l.quantity)
  }

  /** After a removal the page shows exactly the lines the server keeps, in the same order. */
  lemma AfterRemoveMatchesServer(lines: seq<ShownLine>, productId: Id)
    ensures Map(AfterRemove(lines, productId), Stored)
         == CartController.Removed(Map(lines, Stored), productId)
  {
    FilterMap(lines, Stored, (c: CartController.CartLine) => c.product != productId,
              (l: ShownLine) => l.product.id != productId);
  }

  /** A removal lowers the total by exactly the total of the removed product's lines. */
  lemma AfterRemoveTotal(lines: seq<ShownLine>, productId: Id)
    ensures Total(AfterRemove(lines, productId))
         == Total(lines) - Total(Filter(lines, (l: ShownLine) => l.product.id == productId))
  {
    var keep := (l: ShownLine) => l.product.id != productId;
    TotalSplits(lines, keep);
    FilterAgree(lines, (l: ShownLine) => !keep(l), (l: ShownLine) => l.product.id == productId);
  }

  /** One entry of the checkout payload: `{ product: it.product, quantity: it.quantity }`. */
  datatype CheckoutLine = CheckoutLine(product: Product, quantity: int)

  /** The state handed to the payment page. */
  datatype Checkout = Checkout(products: seq<CheckoutLine>, total: int)

  /** `handleBuy`: the lines, as product and quantity, and their total. */
  function HandleBuy(lines: seq<ShownLine>): (c: Checkout)
    ensures |c.products| == |lines|
    ensures forall i :: 0 <= i < |lines| ==>
              c.products[i].product == lines[i].product && c.products[i].quantity == lines[i].quantity
    ensures c.total == Total(lines)
  {
    Checkout(Map(lines, (l: ShownLine) => CheckoutLine(l.product, l.quantity)), Total(lines))
  }

  /**
   * The body `processPayment` posts for a checkout: each product is sent
   * whole, so the server reads its `_id`; `state.total || 0` is the total
   * (0 stays 0).
   */
  function PaymentRequest(c: Checkout, paymentMethod: string, address: OrderController.DeliveryAddress): (req: OrderController.OrderRequest)
    ensures req.products.Lines? && |req.products.lines| == |c.products|
    ensures forall i :: 0 <= i < |c.products| ==>
              req.products.lines[i] == OrderController.RequestLine(Some(c.products[i].product.id), c.products[i].quantity)
    ensures req.total == Some(c.total) && req.paymentMethod == paymentMethod
  {
    OrderController.OrderRequest(
      OrderController.Lines(Map(c.products, (l: CheckoutLine) => OrderController.RequestLine(Some(l.product.id), l.quantity))),
      Some(c.total),
      paymentMethod,
      Some(address))
  }

  /** What an order's items add up to: price times quantity over its items. */
  function ItemsTotal(items: seq<LineItem>): int
    decreases |items|
  {
    if |items| == 0 then 0
    else ItemsTotal(items[..|items| - 1]) + items[|items| - 1].price * items[|items| - 1].qty
  }

  /** Two runs of items with the same prices and quantities as two runs of lines total alike. */
  lemma {:induction false} ItemsTotalFollows(items: seq<LineItem>, lines: seq<ShownLine>)
    requires |items| == |lines|
    requires forall i :: 0 <= i < |lines| ==> items[i].price == lines[i].product.price && items[i].qty == lines[i].quantity
    ensures ItemsTotal(items) == Total(lines)
    decreases |lines|
  {
    if |lines| > 0 {
      ItemsTotalFollows(items[..|items| - 1], lines[..|lines| - 1]);
    }
  }

  /**
   * Checking out a non-empty cart whose products are all in the catalogue
   * (ids unique) with a payment method creates an order: one item per cart
   * line, same product, price and quantity, and a total price equal to the
   * cart total, which is also what its items add up to.
   */
  lemma CheckoutCreatesOrder(catalog: seq<Product>, lines: seq<ShownLine>, caller: Id, paymentMethod: string,
                             address: OrderController.DeliveryAddress, newId: Id, now: Time)
    requires |lines| > 0 && caller != "" && paymentMethod != ""
    requires UniqueProductIds(catalog)
    requires forall i :: 0 <= i < |lines| ==> lines[i].product in catalog
    ensures var r := OrderController.CreateOrder(catalog, caller, PaymentRequest(HandleBuy(lines), paymentMethod, address), newId, now);
            && r.Reply? && r.code == 201
            && r.body.totalPrice == Some(Total(lines))
            && |r.body.orderItems| == |lines|
            && (forall i :: 0 <= i < |lines| ==>
                  r.body.orderItems[i].product == lines[i].product.id
                  && r.body.orderItems[i].price == lines[i].product.price
                  && r.body.orderItems[i].qty == lines[i].quantity)
            && ItemsTotal(r.body.orderItems) == Total(lines)
  {
    var req := PaymentRequest(HandleBuy(lines), paymentMethod, address);
    CheckoutItems(catalog, lines, req.products.lines);
    OrderController.CreateOrderSucceeds(catalog, caller, req, newId, now);
    ItemsTotalFollows(OrderController.BuildItems(catalog, req.products.lines).items, lines);
  }

  /** The server snapshots, line by line, exactly the products and quantities the cart showed. */
  lemma CheckoutItems(catalog: seq<Product>, lines: seq<ShownLine>, reqLines: seq<OrderController.RequestLine>)
    requires UniqueProductIds(catalog)
    requires forall i :: 0 <= i < |lines| ==> lines[i].product in catalog
    requires |reqLines| == |lines|
    requires forall i :: 0 <= i < |lines| ==>
               reqLines[i] == OrderController.RequestLine(Some(lines[i].product.id), lines[i].quantity)
    ensures OrderController.AllNamed(reqLines) && OrderController.AllStored(catalog, reqLines)
    ensures var b := OrderController.BuildItems(catalog, reqLines);
            && b.Items? && |b.items| == |lines|
            && forall i :: 0 <= i < |lines| ==>
                 b.items[i].product == lines[i].product.id && b.items[i].price == lines[i].product.price
                 && b.items[i].qty == lines[i].quantity
  {
    CheckoutLinesStored(catalog, lines, reqLines);
  }

  /** Every line the checkout posts names, by id, the very product the cart showed, and the catalogue holds it. */
  lemma CheckoutLinesStored(catalog: seq<Product>, lines: seq<ShownLine>, reqLines: seq<OrderController.RequestLine>)
    requires UniqueProductIds(catalog)
    requires forall i :: 0 <= i < |lines| ==> lines[i].product in catalog
    requires |reqLines| == |lines|
    requires forall i :: 0 <= i < |lines| ==> reqLines[i].product == Some(lines[i].product.id)
    ensures OrderController.AllNamed(reqLines) && OrderController.AllStored(catalog, reqLines)
    ensures forall i :: 0 <= i < |lines| ==> catalog[FindProduct(catalog, reqLines[i].product.value)] == lines[i].product
  {
    forall i | 0 <= i < |lines|
      ensures FindProduct(catalog, reqLines[i].product.value) >= 0
      ensures catalog[FindProduct(catalog, reqLines[i].product.value)] == lines[i].product
    {
      var j :| 0 <= j < |catalog| && catalog[j] == lines[i].product;
      var k := FindProduct(catalog, lines[i].product.id);
      assert k >= 0 by { assert catalog[j].id == lines[i].product.id; }
      assert catalog[k].id == catalog[j].id;
      assert k == j;
    }
  }

  /** The cart document `getCart` resolves with: null, or an object with `items` (None when missing). */
  datatype CartDoc = CartDoc(items: Option<seq<ShownLine>>)

  /** How the `getCart` request settled: with the document, or rejected with a message ("" when falsy). */
  datatype CartFetch = CartResolved(cart: Option<CartDoc>) | CartRejected(message: string)

  /** The error state: the login prompt, or a message. */
  datatype PageError = AuthError | Message(text: string)

  /** What the page renders. */
  datatype View =
    | Loading
    | AccessDenied
    | ErrorView(text: string)
    | EmptyCart
    | Lines(lines: seq<ShownLine>, total: int)

  /** The page's rendering, in the order the component checks its state. */
  function Render(loading: bool, error: Option<PageError>, cart: Option<CartDoc>): (v: View)
    ensures v.Lines? ==> !loading && error.None? && cart.Some? && cart.value.items.Some?
                         && |v.lines| > 0 && v.total == Total(v.lines)
    ensures !loading && error.None? && cart.Some? && cart.value.items.Some? && |cart.value.items.value| > 0
            ==> v == Lines(cart.value.items.value, Total(cart.value.items.value))
    ensures !loading && error == Some(AuthError) <==> v == AccessDenied
  {
    if loading then Loading
    else if error.Some? then
      (match error.value
       case AuthError => AccessDenied
       case Message(t) => ErrorView(t))
    else if cart.None? || cart.value.items.None? || |cart.value.items.value| == 0 then EmptyCart
    else Lines(cart.value.items.value, Total(cart.value.items.value))
  }

  /** The page's state: the cart it holds, its error and whether it is loading. */
  datatype CartState = CartState(cart: Option<CartDoc>, error: Option<PageError>, loading: bool)

  /** The state the page mounts with. */
  const Initial := CartState(None, None, true)

  /** The load effect's outcome: the state it leaves and whether it asked the server for the cart. */
  datatype Loaded = Loaded(state: CartState, fetched: bool)

  /**
   * The load effect: without a stored token the page shows the login
   * prompt and asks for nothing; otherwise it asks for the cart and keeps
   * it, or the error message, `'Failed'` when the message is falsy.
   * `outcome` is how that request settles.
   */
  function Load(token: Option<string>, outcome: CartFetch): (r: Loaded)
    ensures !r.state.loading
    ensures r.fetched <==> token.Some? && token.value != ""
    ensures !r.fetched ==> r.state.error == Some(AuthError) && r.state.cart.None?
    ensures r.fetched ==> (r.state.cart.Some? ==> outcome.CartResolved?) && (r.state.error.Some? <==> outcome.CartRejected?)
    ensures r.state.error.Some? && r.state.error.value.Message? ==> r.state.error.value.text != ""
  {
    if token.None? || token.value == "" then Loaded(CartState(None, Some(AuthError), false), false)
    else match outcome
      case CartResolved(c) => Loaded(CartState(c, None, false), true)
      case CartRejected(m) => Loaded(CartState(None, Some(Message(if m != "" then m else "Failed")), false), true)
  }

  /**
   * What the page shows once loaded: the login prompt without a token, the
   * error when the request failed, "Cart is empty" for a missing cart or an
   * empty item list, and otherwise the lines with their total.
   */
  lemma LoadThenRender(token: Option<string>, outcome: CartFetch)
    ensures var s := Load(token, outcome).state;
            var v := Render(s.loading, s.error, s.cart);
            && (token.None? || token.value == "" <==> v == AccessDenied)
            && (token.Some? && token.value != "" && outcome.CartRejected? ==>
                  v == ErrorView(if outcome.message != "" then outcome.message else "Failed"))
            && (token.Some? && token.value != "" && outcome.CartResolved? ==>
                  (v == EmptyCart <==> outcome.cart.None? || outcome.cart.value.items.None? || |outcome.cart.value.items.value| == 0))
            && (v.Lines? ==> v.lines == outcome.cart.value.items.value && v.total == Total(v.lines))
  {
  }

  /** How a removal request settled: done, or rejected with a message ("" when falsy). */
  datatype RemoveOutcome = RemoveDone | RemoveRejected(message: string)

  /**
   * `removeFromCart`, offered on a shown line: on success the page drops
   * every line of that product; on failure it keeps the cart and shows the
   * message, `'Failed to remove item'` when it is falsy.
   */
  function RemoveLine(s: CartState, productId: Id, outcome: RemoveOutcome): (r: CartState)
    requires s.cart.Some? && s.cart.value.items.Some?
    ensures r.loading == s.loading
    ensures outcome.RemoveDone? ==>
              (r.error == s.error && r.cart.Some? && r.cart.value.items.Some?
               && Map(r.cart.value.items.value, Stored)
                  == CartController.Removed(Map(s.cart.value.items.value, Stored), productId))
    ensures outcome.RemoveRejected? ==> r.cart == s.cart && r.error.Some? && r.error.value.Message? && r.error.value.text != ""
  {
    match outcome
    case RemoveDone =>
      AfterRemoveMatchesServer(s.cart.value.items.value, productId);
      CartState(Some(CartDoc(Some(AfterRemove(s.cart.value.items.value, productId)))), s.error, s.loading)
    case RemoveRejected(m) =>
      CartState(s.cart, Some(Message(if m != "" then m else "Failed to remove item")), s.loading)
  }

  /**
   * After a successful removal the page shows the remaining lines and their
   * total, or "Cart is empty" when none remain; the removed product is gone.
   */
  lemma RemoveThenRender(s: CartState, productId: Id)
    requires s.cart.Some? && s.cart.value.items.Some? && !s.loading && s.error.None?
    ensures var v := Render(false, None, RemoveLine(s, productId, RemoveDone).cart);
            var rest := AfterRemove(s.cart.value.items.value, productId);
            && (v == EmptyCart <==> |rest| == 0)
            && (v.Lines? ==> v.lines == rest
                             && (forall i :: 0 <= i < |v.lines| ==> v.lines[i].product.id != productId)
                             && v.total == Total(s.cart.value.items.value)
                                           - Total(Filter(s.cart.value.items.value, (l: ShownLine) => l.product.id == productId)))
  {
    AfterRemoveTotal(s.cart.value.items.value, productId);
  }
}
