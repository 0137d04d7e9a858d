/**
 * Seller notifications: building one from an order's line items, listing
 * and counting a seller's notifications, and marking them read.
 */
module NotificationController {
  import opened Common
  import opened Strings
  import opened Lists
  import opened OrderModel
  import opened NotificationModel

  /** The populated `order.user`: its name ("" when missing) and email. */
  datatype Customer = Customer(name: string, email: Option<string>)

  /** The line items that belong to `seller`. */
  function SellerItems(items: seq<LineItem>, seller: Id): seq<LineItem> {
    Filter(items, (it: LineItem) => it.seller == Some(seller))
  }

  /** `.map(item => item.name)` */
  function Names(items: seq<LineItem>): (r: seq<string>)
    ensures |r| == |items| && forall i :: 0 <= i < |items| ==> r[i] == items[i].name
  {
    seq(|items|, i requires 0 <= i < |items| => items[i].name)
  }

  /** Every line item carries a seller (otherwise `item.seller.toString()` throws). */
  predicate AllAssigned(items: seq<LineItem>) {
    forall i :: 0 <= i < |items| ==> items[i].seller.Some?
  }

  function PlacedMessage(count: nat): string {
    "New order placed with " + NatToString(count) + " product(s)"
  }

  function StatusMessage(kind: string): string {
    "Order status updated to " + ReplaceAll(kind, '_', ' ')
  }

  const PlacedName := "order_placed"

  /**
   * `createNotification(seller, order, orderItems, type = "order_placed")`.
   * None stands for the `undefined` it returns after logging an error: an
   * item without a seller, a type outside the enum, or a missing required
   * reference. The id and creation time the database assigns are inputs.
   */
  function CreateNotification(seller: Id, orderId: Id, customer: Customer, items: seq<LineItem>,
                              typeArg: Option<string>, newId: Id, now: Time): (r: Option<Notification>)
    ensures r.Some? <==> AllAssigned(items) && ParseType(typeArg.GetOr(PlacedName)).Some? && seller != "" && orderId != ""
    ensures !AllAssigned(items) ==> r.None?
    ensures r.Some? ==> r.value.id == newId && r.value.seller == seller && r.value.orderId == orderId
    ensures r.Some? ==> Unread(r.value) && r.value.createdAt == now
  {
    var kindName := typeArg.GetOr(PlacedName);
    if !AllAssigned(items) then None
    else
      var names := Names(SellerItems(items, seller));
      match ParseType(kindName)
      case None => None
      case Some(kind) =>
        var n := Notification(
          id := newId,
          seller := seller,
          orderId := orderId,
          kind := kind,
          message := if kindName == PlacedName then PlacedMessage(|names|) else StatusMessage(kindName),
          productNames := names,
          customerName := if customer.name != "" then customer.name else "Customer",
          customerEmail := customer.email,
          isRead := false,
          readAt := None,
          createdAt := now);
        if NotificationModel.HasRequiredFields(n) then Some(n) else None
  }

  /**
   * The product names of one seller: one name per item of that seller,
   * each the name of such an item, in item order (the names for a longer
   * item list extend the names for its prefix).
   */
  lemma {:induction false} SellerNamesScoped(items: seq<LineItem>, more: seq<LineItem>, seller: Id)
    ensures var names := Names(SellerItems(items, seller));
            && |names| == Count(items, (it: LineItem) => it.seller == Some(seller))
            && (forall k :: 0 <= k < |names| ==>
                  exists i :: 0 <= i < |items| && items[i].seller == Some(seller) && items[i].name == names[k])
            && Names(SellerItems(items + more, seller)) == names + Names(SellerItems(more, seller))
  {
    var p := (it: LineItem) => it.seller == Some(seller);
    var own := SellerItems(items, seller);
    var names := Names(own);
    CountIsFilterLength(items, p);
    FilterAppend(items, more, p);
    assert SellerItems(items + more, seller) == own + SellerItems(more, seller);
    NamesAppend(own, SellerItems(more, seller));
    forall k | 0 <= k < |names|
      ensures exists i :: 0 <= i < |items| && items[i].seller == Some(seller) && items[i].name == names[k]
    {
      assert names[k] == own[k].name;
      assert own[k] in items && p(own[k]);
      var i :| 0 <= i < |items| && items[i] == own[k];
      assert items[i].seller == Some(seller) && items[i].name == names[k];
    }
  }

  /** The names of two runs of items are the names of each, one after the other. */
  lemma NamesAppend(a: seq<LineItem>, b: seq<LineItem>)
    ensures Names(a + b) == Names(a) + Names(b)
  {
    assert forall i :: 0 <= i < |a + b| ==> Names(a + b)[i] == (Names(a) + Names(b))[i];
  }

  /** A created notification goes to the given seller and lists that seller's product names. */
  lemma NotificationScopedToSeller(seller: Id, orderId: Id, customer: Customer,
      items: seq<LineItem>, typeArg: Option<string>, newId: Id, now: Time)
    requires CreateNotification(seller, orderId, customer, items, typeArg, newId, now).Some?
    ensures var n := CreateNotification(seller, orderId, customer, items, typeArg, newId, now).value;
            && n.seller == seller
            && n.orderId == orderId
            && n.productNames == Names(SellerItems(items, seller))
  {
  }

  /**
   * The message: for "order_placed" the count of the seller's products in
   * decimal (it reads back as that count); for any other type the type with
   * every "_" turned into a space.
   */
  lemma NotificationMessage(seller: Id, orderId: Id, customer: Customer, items: seq<LineItem>,
                            typeArg: Option<string>, newId: Id, now: Time)
    requires CreateNotification(seller, orderId, customer, items, typeArg, newId, now).Some?
    ensures var n := CreateNotification(seller, orderId, customer, items, typeArg, newId, now).value;
            var kindName := typeArg.GetOr(PlacedName);
            && (kindName == PlacedName ==>
                  exists digits :: n.message == "New order placed with " + digits + " product(s)"
                    && (forall i :: 0 <= i < |digits| ==> '0' <= digits[i] <= '9')
                    && ParseDecimal(digits) == |n.productNames|)
            && (kindName != PlacedName ==>
                  exists spaced :: n.message == "Order status updated to " + spaced
                    && |spaced| == |kindName| && '_' !in spaced
                    && forall i :: 0 <= i < |kindName| && kindName[i] != '_' ==> spaced[i] == kindName[i])
            && n.kind == ParseType(kindName).value
  {
    var n := CreateNotification(seller, orderId, customer, items, typeArg, newId, now).value;
    var kindName := typeArg.GetOr(PlacedName);
    CreatedMessage(seller, orderId, customer, items, typeArg, newId, now);
    MessageShape(n, kindName);
  }

  /** The shape of a message built for the type named `kindName`. */
  lemma MessageShape(n: Notification, kindName: string)
    requires n.message == (if kindName == PlacedName then PlacedMessage(|n.productNames|) else StatusMessage(kindName))
    ensures kindName == PlacedName ==>
              exists digits :: n.message == "New order placed with " + digits + " product(s)"
                && (forall i :: 0 <= i < |digits| ==> '0' <= digits[i] <= '9')
                && ParseDecimal(digits) == |n.productNames|
    ensures kindName != PlacedName ==>
              exists spaced :: n.message == "Order status updated to " + spaced
                && |spaced| == |kindName| && '_' !in spaced
                && forall i :: 0 <= i < |kindName| && kindName[i] != '_' ==> spaced[i] == kindName[i]
  {
    if kindName == PlacedName {
      PlacedMessageDigits(|n.productNames|);
    } else {
      StatusMessageSpaced(kindName);
    }
  }

  /** The message and kind a created notification carries, for the type given or defaulted. */
  lemma CreatedMessage(seller: Id, orderId: Id, customer: Customer, items: seq<LineItem>,
                       typeArg: Option<string>, newId: Id, now: Time)
    requires CreateNotification(seller, orderId, customer, items, typeArg, newId, now).Some?
    ensures var n := CreateNotification(seller, orderId, customer, items, typeArg, newId, now).value;
            var kindName := typeArg.GetOr(PlacedName);
            && n.message == (if kindName == PlacedName then PlacedMessage(|n.productNames|) else StatusMessage(kindName))
            && n.kind == ParseType(kindName).value
  {
  }

  /** The "order_placed" message carries the count as decimal digits that read back as it. */
  lemma PlacedMessageDigits(count: nat)
    ensures exists digits :: PlacedMessage(count) == "New order placed with " + digits + " product(s)"
              && (forall i :: 0 <= i < |digits| ==> '0' <= digits[i] <= '9')
              && ParseDecimal(digits) == count
  {
    var digits := NatToString(count);
    NatToStringRoundTrip(count);
    assert PlacedMessage(count) == "New order placed with " + digits + " product(s)";
  }

  /** A status message carries the type with its underscores turned into spaces. */
  lemma StatusMessageSpaced(kind: string)
    ensures exists spaced :: StatusMessage(kind) == "Order status updated to " + spaced
              && |spaced| == |kind| && '_' !in spaced
              && forall i :: 0 <= i < |kind| && kind[i] != '_' ==> spaced[i] == kind[i]
  {
    var spaced := ReplaceAll(kind, '_', ' ');
    assert StatusMessage(kind) == "Order status updated to " + spaced;
    assert '_' !in spaced by {
      forall i | 0 <= i < |spaced| ensures spaced[i] != '_' { }
    }
  }

  /**
   * The defaults: without a type the notification is an "order_placed" one;
   * a customer without a name is called "Customer"; a new notification is unread.
   */
  lemma NotificationDefaults(seller: Id, orderId: Id, customer: Customer, items: seq<LineItem>,
                             typeArg: Option<string>, newId: Id, now: Time)
    requires CreateNotification(seller, orderId, customer, items, typeArg, newId, now).Some?
    ensures var n := CreateNotification(seller, orderId, customer, items, typeArg, newId, now).value;
            && (typeArg.None? ==> n.kind == OrderPlaced)
            && (customer.name == "" ==> n.customerName == "Customer")
            && (customer.name != "" ==> n.customerName == customer.name)
            && n.customerEmail == customer.email
            && Unread(n)
            && NotificationModel.HasRequiredFields(n)
  {
  }

  /**
   * The items `createOrder` builds carry no seller, so a notification built
   * from a non-empty list of them fails (the filter throws) and yields nothing.
   */
  lemma NotificationFromUnassignedItemsFails(seller: Id, orderId: Id, customer: Customer,
      items: seq<LineItem>, typeArg: Option<string>, newId: Id, now: Time)
    requires |items| > 0 && forall i :: 0 <= i < |items| ==> FreshLineItem(items[i])
    ensures CreateNotification(seller, orderId, customer, items, typeArg, newId, now).None?
  {
    assert items[0].seller.None?;
  }

  /** `getUnreadCount`: the caller's notifications that are not read. */
  function UnreadCount(records: seq<Notification>, seller: Id): (c: nat)
    ensures c <= |records|
    ensures c == 0 <==> forall i :: 0 <= i < |records| ==> records[i].seller != seller || records[i].isRead
  {
    Count(records, (n: Notification) => n.seller == seller && !n.isRead)
  }

  /** `getSellerNotifications`: the caller's notifications, newest first. */
  function SellerNotifications(records: seq<Notification>, seller: Id): (r: seq<Notification>)
    ensures forall i :: 0 <= i < |r| ==> r[i].seller == seller
    ensures SortedDesc(r, (n: Notification) => n.createdAt)
    ensures multiset(r) == multiset(Filter(records, (n: Notification) => n.seller == seller))
  {
    var own := Filter(records, (n: Notification) => n.seller == seller);
    var r := SortDesc(own, (n: Notification) => n.createdAt);
    assert forall i :: 0 <= i < |r| ==> r[i] in multiset(own);
    r
  }

  /** A listing holds every notification of the caller, as often as it is stored, and no other. */
  lemma SellerNotificationsComplete(records: seq<Notification>, seller: Id, n: Notification)
    ensures multiset(SellerNotifications(records, seller))[n]
         == if n.seller == seller then multiset(records)[n] else 0
  {
    FilterMultiset(records, (x: Notification) => x.seller == seller, n);
  }

  /** A notification marked read at `now`. */
  function MarkRead(n: Notification, now: Time): Notification {
    n.(isRead := true, readAt := Some(now))
  }

  /** The position of the notification with id `id`, or -1 (`findById`). */
  function FindNotification(records: seq<Notification>, id: Id): (k: int)
    ensures -1 <= k < |records|
    ensures k >= 0 ==> records[k].id == id
    ensures k == -1 <==> forall j :: 0 <= j < |records| ==> records[j].id != id
  {
    IndexWhere(records, (n: Notification) => n.id == id)
  }

  /** The `updateMany({ seller, isRead: false }, { isRead: true, readAt })` effect. */
  function MarkAll(records: seq<Notification>, seller: Id, now: Time): (r: seq<Notification>)
    ensures |r| == |records|
    ensures forall i :: 0 <= i < |r| && r[i].seller == seller ==> r[i].isRead
    ensures forall i :: 0 <= i < |records| && (records[i].seller != seller || records[i].isRead) ==> r[i] == records[i]
    ensures forall i :: 0 <= i < |records| && records[i].seller == seller && !records[i].isRead ==>
              r[i] == records[i].(isRead := true, readAt := Some(now))
  {
    seq(|records|, i requires 0 <= i < |records| =>
      if records[i].seller == seller && !records[i].isRead then MarkRead(records[i], now) else records[i])
  }

  /**
   * Marking all read leaves the caller with no unread notification, stamps
   * only the ones that were unread, and leaves other sellers' notifications
   * exactly as they were.
   */
  lemma MarkAllEffect(records: seq<Notification>, seller: Id, now: Time)
    ensures UnreadCount(MarkAll(records, seller, now), seller) == 0
    ensures forall i :: 0 <= i < |records| && records[i].seller != seller ==>
              MarkAll(records, seller, now)[i] == records[i]
    ensures forall i :: 0 <= i < |records| && records[i].isRead ==>
              MarkAll(records, seller, now)[i] == records[i]
    ensures forall s :: s != seller ==> UnreadCount(MarkAll(records, seller, now), s) == UnreadCount(records, s)
  {
    var r := MarkAll(records, seller, now);
    forall s | s != seller ensures UnreadCount(r, s) == UnreadCount(records, s) {
      CountSameOutside(records, r, seller, s);
    }
  }

  lemma {:induction false} CountSameOutside(a: seq<Notification>, b: seq<Notification>, seller: Id, s: Id)
    requires |a| == |b| && s != seller
    requires forall i :: 0 <= i < |a| ==> a[i] == b[i] || (a[i].seller == seller && b[i].seller == seller)
    ensures UnreadCount(a, s) == UnreadCount(b, s)
    decreases |a|
  {
    if |a| > 0 {
      CountSameOutside(a[1..], b[1..], seller, s);
    }
  }

  /** Marking one unread notification read lowers its owner's unread count by one. */
  lemma MarkOneLowersCount(records: seq<Notification>, k: nat, now: Time)
    requires k < |records| && !records[k].isRead
    ensures UnreadCount(records[k := MarkRead(records[k], now)], records[k].seller)
         == UnreadCount(records, records[k].seller) - 1
  {
    var s := records[k].seller;
    CountUpdate(records, k, MarkRead(records[k], now), (n: Notification) => n.seller == s && !n.isRead);
  }

  /** The notification collection; its handlers update documents in place. */
  class NotificationCollection {
    var records: seq<Notification>

    constructor (initial: seq<Notification>)
      ensures records == initial
    {
      records := initial;
    }

    /**
     * `markAsRead`: 404 for an unknown id and 403 when the caller does not own
     * the notification, both leaving every notification unchanged; otherwise
     * the notification is read and stamped with `now`, and nothing else changes.
     */
    method MarkAsRead(caller: Id, id: Id, now: Time) returns (r: Response<Notification>)
      modifies this
      ensures var k := FindNotification(old(records), id);
              && (k == -1 ==> r == Error(404, "Notification not found") && records == old(records))
              && (k >= 0 && old(records)[k].seller != caller ==>
                    r == Error(403, "Not authorized") && records == old(records))
              && (k >= 0 && old(records)[k].seller == caller ==>
                    && records == old(records)[k := MarkRead(old(records)[k], now)]
                    && r == Reply(200, records[k]))
    {
      var k := FindNotification(records, id);
      if k == -1 {
        return Error(404, "Notification not found");
      }
      var n := records[k];
      if n.seller != caller {
        return Error(403, "Not authorized");
      }
      n := n.(isRead := true);
      n := n.(readAt := Some(now));
      records := records[k := n];
      r := Reply(200, n);
    }

    /** `markAllAsRead`: the caller's unread notifications become read, stamped with `now`. */
    method MarkAllAsRead(caller: Id, now: Time) returns (r: Response<string>)
      modifies this
      ensures records == MarkAll(old(records), caller, now)
      ensures r == Reply(200, "All notifications marked as read")
    {
      records := MarkAll(records, caller, now);
      r := Reply(200, "All notifications marked as read");
    }

  }
}
