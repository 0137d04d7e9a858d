/**
 * Order creation and the buyer's order listing. Creation validates the
 * request, snapshots every requested product from the catalogue in request
 * order, and builds one order whose payment flags follow the payment method
 * and whose price fields copy the total the client sent.
 */
module OrderController {
  import opened Common
  import opened Lists
  import opened ProductModel
  import opened OrderModel

  /** One requested line: `item.product._id` (None when `item.product` is missing) and `item.quantity`. */
  datatype RequestLine = RequestLine(product: Option<Id>, quantity: int)

  /** The `products` field of the request body. */
  datatype ProductsField =
    | Falsy                        // missing, null, "" ... (`!products`)
    | NotAnArray                   // truthy but not an array
    | Lines(lines: seq<RequestLine>)

  datatype DeliveryAddress = DeliveryAddress(address: string, city: string, pincode: string)

  datatype OrderRequest = OrderRequest(
    products: ProductsField,
    total: Option<int>,
    paymentMethod: string,                    // "" when missing
    deliveryAddress: Option<DeliveryAddress>)

  const InvalidProducts := "Invalid products"
  const PaymentMethodRequired := "Order validation failed: paymentMethod: Path `paymentMethod` is required."

  /** The request is rejected before anything else when `products` is not a non-empty array. */
  predicate ValidProducts(p: ProductsField) {
    p.Lines? && |p.lines| > 0
  }

  /** `product.images?.[0]?.url || product.images?.[0] || ""` */
  function PickImage(images: seq<ImageRef>): (r: ItemImage)
    ensures |images| == 0 ==> r == ImageText("")
    ensures r.ImageEntry? ==> |images| > 0 && r.entry == images[0] == Hosted("")
    ensures |images| > 0 && images[0].Hosted? && images[0].url != "" ==> r == ImageText(images[0].url)
    ensures |images| > 0 && images[0] == Hosted("") ==> r == ImageEntry(images[0])
    ensures |images| > 0 && images[0].Plain? ==> r == ImageText(images[0].path)
  {
    if |images| == 0 then ImageText("")
    else match images[0]
      case Hosted(u) => if u != "" then ImageText(u) else ImageEntry(images[0])
      case Plain(p) => ImageText(p)
  }

  /** The line item snapshotted from a stored product for a requested quantity. */
  function Snapshot(p: Product, qty: int): (item: LineItem)
    ensures item.name == p.name && item.price == p.price && item.product == p.id && item.qty == qty
    ensures item.image == PickImage(p.images)
    ensures FreshLineItem(item)
  {
    NewLineItem(p.name, qty, PickImage(p.images), p.price, p.id)
  }

  /** Every requested line names a product (`item.product` is present). */
  predicate AllNamed(lines: seq<RequestLine>) {
    forall i :: 0 <= i < |lines| ==> lines[i].product.Some?
  }

  /** Every requested product is in the catalogue. */
  predicate AllStored(catalog: seq<Product>, lines: seq<RequestLine>)
    requires AllNamed(lines)
  {
    forall i :: 0 <= i < |lines| ==> FindProduct(catalog, lines[i].product.value) >= 0
  }

  /**
   * The `Promise.all(products.map(...))` step: one snapshot per line in
   * request order, or the error that rejects it. A line without `product`
   * throws a TypeError when the map runs, before any lookup settles; a
   * missing product throws "Product <id> not found".
   */
  function BuildItems(catalog: seq<Product>, lines: seq<RequestLine>): (r: Result)
    ensures r.Items? <==> AllNamed(lines) && AllStored(catalog, lines)
    ensures r.Items? ==> |r.items| == |lines|
    ensures r.Items? ==> forall i :: 0 <= i < |lines| ==>
              r.items[i] == Snapshot(catalog[FindProduct(catalog, lines[i].product.value)], lines[i].quantity)
    ensures r.Failed? && !AllNamed(lines) ==> r.message == ReadOfUndefined("_id")
    ensures r.Failed? && AllNamed(lines) ==>
              exists i :: 0 <= i < |lines| && r.message == NotFound(lines[i].product.value)
                       && FindProduct(catalog, lines[i].product.value) == -1
  {
    if !AllNamed(lines) then Failed(ReadOfUndefined("_id"))
    else SnapshotAll(catalog, lines)
  }

  datatype Result = Items(items: seq<LineItem>) | Failed(message: string)

  function NotFound(id: Id): string {
    "Product " + id + " not found"
  }

  /** Snapshots the named lines in order; the first missing product decides the error. */
  function SnapshotAll(catalog: seq<Product>, lines: seq<RequestLine>): (r: Result)
    requires AllNamed(lines)
    ensures r.Items? <==> AllStored(catalog, lines)
    ensures r.Items? ==> |r.items| == |lines|
    ensures r.Items? ==> forall i :: 0 <= i < |lines| ==>
              r.items[i] == Snapshot(catalog[FindProduct(catalog, lines[i].product.value)], lines[i].quantity)
    ensures r.Failed? ==>
              exists i :: 0 <= i < |lines| && r.message == NotFound(lines[i].product.value)
                       && FindProduct(catalog, lines[i].product.value) == -1
    decreases |lines|
  {
    if |lines| == 0 then Items([])
    else
      var id := lines[0].product.value;
      var k := FindProduct(catalog, id);
      if k == -1 then Failed(NotFound(id))
      else
        match SnapshotAll(catalog, lines[1..])
        case Failed(m) => Failed(m)
        case Items(rest) => Items([Snapshot(catalog[k], lines[0].quantity)] + rest)
  }

  /** `isPaid`: every method except cash on delivery is taken as paid. */
  predicate PaidOnCreation(paymentMethod: string) {
    paymentMethod != "cod"
  }

  /**
   * `createOrder`: 400 for an invalid `products` field, 500 when building
   * the items or the order fails, otherwise 201 with the new order. The id
   * and creation time the database assigns, and the current time, are inputs.
   */
  function CreateOrder(catalog: seq<Product>, caller: Id, req: OrderRequest, newId: Id, now: Time): (r: Response<Order>)
    ensures r.Error? ==> r.code == 400 || r.code == 500
    ensures r.Reply? ==>
              && ValidProducts(req.products) && r.code == 201
              && r.body.id == newId && r.body.user == caller
              && |r.body.orderItems| == |req.products.lines|
              && HasRequiredFields(r.body)
  {
    if !ValidProducts(req.products) then Error(400, InvalidProducts)
    else
      match BuildItems(catalog, req.products.lines)
      case Failed(m) => Error(500, m)
      case Items(items) =>
        if req.deliveryAddress.None? then Error(500, ReadOfUndefined("address"))
        else
          var d := req.deliveryAddress.value;
          var order := Order(
            id := newId,
            user := caller,
            orderItems := items,
            shippingAddress := ShippingAddress(d.address, d.city, d.pincode, "India"),
            paymentMethod := req.paymentMethod,
            itemsPrice := req.total,
            taxPrice := Some(0),
            shippingPrice := Some(0),
            totalPrice := req.total,
            isPaid := PaidOnCreation(req.paymentMethod),
            paidAt := if PaidOnCreation(req.paymentMethod) then Some(now) else None,
            status := DefaultStatus,
            isDelivered := false,
            deliveredAt := None,
            createdAt := now,
            updatedAt := now);
          if !HasRequiredFields(order) then Error(500, PaymentMethodRequired)
          else Reply(201, order)
  }

  /** An invalid `products` field is answered 400 "Invalid products", whatever else the request holds. */
  lemma CreateOrderRejectsInvalidProducts(catalog: seq<Product>, caller: Id, req: OrderRequest, newId: Id, now: Time)
    ensures CreateOrder(catalog, caller, req, newId, now) == Error(400, InvalidProducts)
        <==> !ValidProducts(req.products)
  {
  }

  /**
   * A created order holds exactly one snapshot per requested line, in
   * request order: name, price, image and product id from the stored
   * product, quantity from the request.
   */
  lemma CreatedItemsFollowRequest(catalog: seq<Product>, caller: Id, req: OrderRequest, newId: Id, now: Time, i: int)
    requires CreateOrder(catalog, caller, req, newId, now).Reply?
    requires 0 <= i < |req.products.lines|
    ensures var o := CreateOrder(catalog, caller, req, newId, now).body;
            var line := req.products.lines[i];
            && |o.orderItems| == |req.products.lines|
            && line.product.Some?
            && exists k :: 0 <= k < |catalog| && catalog[k].id == line.product.value
                 && o.orderItems[i].name == catalog[k].name
                 && o.orderItems[i].price == catalog[k].price
                 && o.orderItems[i].product == line.product.value
                 && o.orderItems[i].image == PickImage(catalog[k].images)
                 && o.orderItems[i].qty == line.quantity
  {
    var k := FindProduct(catalog, req.products.lines[i].product.value);
    assert 0 <= k;
  }

  /**
   * The other direction: a valid request whose products are all named and
   * stored, with a delivery address, a caller and a payment method, creates
   * an order holding the built items and the client's total.
   */
  lemma CreateOrderSucceeds(catalog: seq<Product>, caller: Id, req: OrderRequest, newId: Id, now: Time)
    requires ValidProducts(req.products) && AllNamed(req.products.lines) && AllStored(catalog, req.products.lines)
    requires req.deliveryAddress.Some? && caller != "" && req.paymentMethod != ""
    ensures var r := CreateOrder(catalog, caller, req, newId, now);
            && r.Reply? && r.code == 201
            && r.body.orderItems == BuildItems(catalog, req.products.lines).items
            && r.body.totalPrice == req.total
  {
    assert BuildItems(catalog, req.products.lines).Items?;
  }

  /** A missing product fails the whole request with 500, so no order is produced. */
  lemma MissingProductFailsCreation(catalog: seq<Product>, caller: Id, req: OrderRequest, newId: Id, now: Time, i: int)
    requires ValidProducts(req.products) && 0 <= i < |req.products.lines|
    requires req.products.lines[i].product.Some?
    requires forall p :: p in catalog ==> p.id != req.products.lines[i].product.value
    ensures CreateOrder(catalog, caller, req, newId, now).Error?
    ensures CreateOrder(catalog, caller, req, newId, now).code == 500
  {
    var lines := req.products.lines;
    assert FindProduct(catalog, lines[i].product.value) == -1;
    if AllNamed(lines) {
      assert !AllStored(catalog, lines);
    }
  }

  /**
   * The payment flags and price fields of a created order: paid exactly when
   * the method is not "cod", with `paidAt` stamped exactly then; items and
   * total price are the client's total, tax and shipping are 0; the address
   * comes from the delivery address with country "India"; the owner is the
   * caller; every status is at its default.
   */
  lemma CreatedOrderFields(catalog: seq<Product>, caller: Id, req: OrderRequest, newId: Id, now: Time)
    requires CreateOrder(catalog, caller, req, newId, now).Reply?
    ensures var r := CreateOrder(catalog, caller, req, newId, now);
            var o := r.body;
            && r.code == 201
            && (o.isPaid <==> req.paymentMethod != "cod")
            && (o.paidAt.Some? <==> req.paymentMethod != "cod")
            && (o.paidAt.Some? ==> o.paidAt.value == now)
            && o.itemsPrice == req.total && o.totalPrice == req.total
            && o.taxPrice == Some(0) && o.shippingPrice == Some(0)
            && req.deliveryAddress.Some?
            && o.shippingAddress.postalCode == req.deliveryAddress.value.pincode
            && o.shippingAddress.address == req.deliveryAddress.value.address
            && o.shippingAddress.city == req.deliveryAddress.value.city
            && o.shippingAddress.country == "India"
            && o.user == caller
            && o.paymentMethod == req.paymentMethod
            && HasRequiredFields(o)
            && FreshOrder(o)
  {
    var items := BuildItems(catalog, req.products.lines).items;
    assert forall i :: 0 <= i < |items| ==> FreshLineItem(items[i]);
  }

  /** An empty payment method fails the schema's `required` check and nothing is created. */
  lemma MissingPaymentMethodFails(catalog: seq<Product>, caller: Id, req: OrderRequest, newId: Id, now: Time)
    requires req.paymentMethod == ""
    ensures CreateOrder(catalog, caller, req, newId, now).Error?
  {
  }

  /** `getMyOrders`: the caller's orders, in stored order. */
  function MyOrders(orders: seq<Order>, caller: Id): (r: seq<Order>)
    ensures forall i :: 0 <= i < |r| ==> r[i].user == caller && r[i] in orders
    ensures forall i :: 0 <= i < |orders| && orders[i].user == caller ==> orders[i] in r
  {
    Filter(orders, (o: Order) => o.user == caller)
  }

  /** A new order shows up at the end of its owner's listing and in no other user's. */
  lemma MyOrdersAfterCreate(orders: seq<Order>, o: Order, caller: Id)
    ensures MyOrders(orders + [o], caller)
         == MyOrders(orders, caller) + (if o.user == caller then [o] else [])
  {
    FilterAppend(orders, [o], (x: Order) => x.user == caller);
  }
}
