/**
 * The seller notification document: its type enum, its required references
 * and its read flag.
 */
module NotificationModel {
  import opened Common

  datatype NotificationType = OrderPlaced | OrderConfirmed | OrderShipped | OrderCancelled

  /** The type a notification gets when none is given. */
  const DefaultType: NotificationType := OrderPlaced

  function TypeName(t: NotificationType): string {
    match t
    case OrderPlaced => "order_placed"
    case OrderConfirmed => "order_confirmed"
    case OrderShipped => "order_shipped"
    case OrderCancelled => "order_cancelled"
  }

  /** Enum validation: the type a string names, if it is one of the four. */
  function ParseType(name: string): Option<NotificationType> {
    if name == "order_placed" then Some(OrderPlaced)
    else if name == "order_confirmed" then Some(OrderConfirmed)
    else if name == "order_shipped" then Some(OrderShipped)
    else if name == "order_cancelled" then Some(OrderCancelled)
    else None
  }

  /** The enum accepts exactly the four names, and each names one type. */
  lemma TypeNamesRoundTrip(t: NotificationType, name: string)
    ensures ParseType(TypeName(t)) == Some(t)
    ensures ParseType(name) == Some(t) <==> name == TypeName(t)
  {
  }

  datatype Notification = Notification(
    id: Id,
    seller: Id,
    orderId: Id,
    kind: NotificationType,
    message: string,
    productNames: seq<string>,
    customerName: string,
    customerEmail: Option<string>,
    isRead: bool,
    readAt: Option<Time>,
    createdAt: Time)

  /** The schema's required references are present. */
  predicate HasRequiredFields(n: Notification) {
    n.seller != "" && n.orderId != ""
  }

  /** A notification as the schema's defaults leave it: unread, never read. */
  predicate Unread(n: Notification) {
    !n.isRead && n.readAt.None?
  }
}
