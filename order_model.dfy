/**
 * The order document: its line items, the shipping snapshot, the payment
 * fields, and the five-valued status shared by line items and orders.
 */
module OrderModel {
  import opened Common
  import opened Lists
  import opened ProductModel

  /** The status enum of both a line item and an order. */
  datatype Status = Pending | Confirmed | Shipped | Delivered | Cancelled

  /** The status both the line item and the order start in. */
  const DefaultStatus: Status := Pending

  /** The string the schema stores for a status. */
  function StatusName(s: Status): string {
    match s
    case Pending => "pending"
    case Confirmed => "confirmed"
    case Shipped => "shipped"
    case Delivered => "delivered"
    case Cancelled => "cancelled"
  }

  /** Enum validation: the status a stored string names, if it is one of the five. */
  function ParseStatus(name: string): Option<Status> {
    if name == "pending" then Some(Pending)
    else if name == "confirmed" then Some(Confirmed)
    else if name == "shipped" then Some(Shipped)
    else if name == "delivered" then Some(Delivered)
    else if name == "cancelled" then Some(Cancelled)
    else None
  }

  /** The enum accepts exactly the five names, and each names one status. */
  lemma StatusNamesRoundTrip(s: Status, name: string)
    ensures ParseStatus(StatusName(s)) == Some(s)
    ensures ParseStatus(name) == Some(s) <==> name == StatusName(s)
  {
  }

  /** What the order records as the line item's picture. */
  datatype ItemImage =
    | ImageText(text: string)     // a url or a bare image string ("" when there is none)
    | ImageEntry(entry: ImageRef) // a whole image entry whose url is missing

  datatype LineItem = LineItem(
    name: string,
    qty: int,
    image: ItemImage,
    price: int,
    product: Id,
    seller: Option<Id>,
    status: Status,
    confirmedAt: Option<Time>,
    shippedAt: Option<Time>)

  datatype ShippingAddress = ShippingAddress(
    address: string,
    city: string,
    postalCode: string,
    country: string)

  datatype Order = Order(
    id: Id,
    user: Id,
    orderItems: seq<LineItem>,
    shippingAddress: ShippingAddress,
    paymentMethod: string,
    itemsPrice: Option<int>,
    taxPrice: Option<int>,
    shippingPrice: Option<int>,
    totalPrice: Option<int>,
    isPaid: bool,
    paidAt: Option<Time>,
    status: Status,
    isDelivered: bool,
    deliveredAt: Option<Time>,
    createdAt: Time,
    updatedAt: Time)

  /** A line item as the schema creates it: no seller, status pending, no timestamps. */
  function NewLineItem(name: string, qty: int, image: ItemImage, price: int, product: Id): (item: LineItem) {
    LineItem(name, qty, image, price, product, None, DefaultStatus, None, None)
  }

  /** A line item exactly as the schema defaults leave it. */
  predicate FreshLineItem(item: LineItem) {
    item.seller.None? && item.status == Pending && item.confirmedAt.None? && item.shippedAt.None?
  }

  /** The schema's required fields are present (an empty string fails `required`). */
  predicate HasRequiredFields(o: Order) {
    o.user != "" && o.paymentMethod != ""
  }

  /** An order exactly as the schema defaults leave it before any fulfilment. */
  predicate FreshOrder(o: Order) {
    && o.status == Pending
    && !o.isDelivered
    && o.deliveredAt.None?
    && forall i :: 0 <= i < |o.orderItems| ==> FreshLineItem(o.orderItems[i])
  }

  /** The position of the order with id `id`, or -1 (`findById`). */
  function FindOrder(orders: seq<Order>, id: Id): (k: int)
    ensures -1 <= k < |orders|
    ensures k >= 0 ==> orders[k].id == id
    ensures k == -1 <==> forall j :: 0 <= j < |orders| ==> orders[j].id != id
  {
    IndexWhere(orders, (o: Order) => o.id == id)
  }
}
