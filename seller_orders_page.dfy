/**
 * The seller's order page: who may open it, which items of each order it
 * shows a seller, which action each item offers, the key that tracks an
 * action in flight, and how an order is replaced once an action succeeds.
 */
module SellerOrdersPage {
  import opened Common
  import opened Lists
  import opened Strings
  import opened OrderModel

  /** The user the browser keeps: `_id` and `role`, "" when missing. */
  datatype StoredUser = StoredUser(id: string, role: string)

  const SellersOnly := "Only sellers can access this page"
  const FetchFailed := "Failed to fetch orders"

  /** The mount check: a logged-in seller may fetch, anyone else is refused. */
  predicate MayFetch(user: StoredUser) {
    user.id != "" && user.role == "seller"
  }

  /** Whether an item is one of the seller's own: `item.seller?._id === user._id`. */
  predicate OwnItem(item: LineItem, me: Id) {
    item.seller == Some(me)
  }

  /**
   * The positions, in the order's full item list, of the seller's own
   * items, in increasing order. The page sends `indexOf(item)`, the
   * position of the item object itself in `orderItems`, which is its
   * position there and not in the filtered list.
   */
  function OwnPositions(items: seq<LineItem>, me: Id): (r: seq<nat>)
    ensures forall k :: 0 <= k < |r| ==> r[k] < |items| && OwnItem(items[r[k]], me)
    ensures forall k, l :: 0 <= k < l < |r| ==> r[k] < r[l]
    ensures forall i :: 0 <= i < |items| && OwnItem(items[i], me) ==> i in r
    decreases |items|
  {
    if |items| == 0 then []
    else
      var n := |items| - 1;
      var front := OwnPositions(items[..n], me);
      assert forall k :: 0 <= k < |front| ==> items[..n][front[k]] == items[front[k]];
      front + (if OwnItem(items[n], me) then [n] else [])
  }

  /** The items at the given positions, in that order. */
  function ItemsAt(items: seq<LineItem>, ps: seq<nat>): (r: seq<LineItem>)
    requires forall k :: 0 <= k < |ps| ==> ps[k] < |items|
    ensures |r| == |ps| && forall k :: 0 <= k < |ps| ==> r[k] == items[ps[k]]
  {
    seq(|ps|, k requires 0 <= k < |ps| => items[ps[k]])
  }

  /**
   * The items the page lists for a seller are exactly the items at those
   * positions: the filtered list, in order.
   */
  lemma {:induction false} OwnPositionsListed(items: seq<LineItem>, me: Id)
    ensures ItemsAt(items, OwnPositions(items, me)) == Filter(items, (it: LineItem) => OwnItem(it, me))
    decreases |items|
  {
    if |items| > 0 {
      OwnPositionsListed(items[..|items| - 1], me);
      ItemsAtSnoc(items, me);
      FilterSnoc(items, (it: LineItem) => OwnItem(it, me));
    }
  }

  /** Picking the own positions of a longer list: those of its prefix, then the last item when it is own. */
  lemma ItemsAtSnoc(items: seq<LineItem>, me: Id)
    requires |items| > 0
    ensures var n := |items| - 1;
            ItemsAt(items, OwnPositions(items, me))
              == ItemsAt(items[..n], OwnPositions(items[..n], me))
                 + (if OwnItem(items[n], me) then [items[n]] else [])
  {
    var n := |items| - 1;
    var front := OwnPositions(items[..n], me);
    var tail: seq<nat> := if OwnItem(items[n], me) then [n] else [];
    assert OwnPositions(items, me) == front + tail;
    ItemsAtExtend(items, front, tail);
  }

  /** Filtering a list: the filtered prefix, then the last element when it passes. */
  lemma FilterSnoc(items: seq<LineItem>, p: LineItem -> bool)
    requires |items| > 0
    ensures var n := |items| - 1;
            Filter(items, p) == Filter(items[..n], p) + (if p(items[n]) then [items[n]] else [])
  {
    var n := |items| - 1;
    var x := items[n];
    assert Filter([x], p) == if p(x) then [x] else [] by {
      assert [x][1..] == [];
    }
    assert items[..n] + [x] == items;
    FilterAppend(items[..n], [x], p);
  }

  /** Positions into a prefix pick the same items from the whole list, and picking distributes over appending. */
  lemma ItemsAtExtend(items: seq<LineItem>, front: seq<nat>, tail: seq<nat>)
    requires |items| > 0
    requires forall k :: 0 <= k < |front| ==> front[k] < |items| - 1
    requires forall k :: 0 <= k < |tail| ==> tail[k] < |items|
    ensures ItemsAt(items, front + tail) == ItemsAt(items[..|items| - 1], front) + ItemsAt(items, tail)
  {
  }

  /** What an item's action area offers. */
  datatype Action = ConfirmButton | ShipButton | ShippedNote | DeliveredNote | NoAction

  /** The action area for an item's status. */
  function ActionFor(s: Status): (a: Action)
    ensures a == ConfirmButton <==> s == Pending
    ensures a == ShipButton <==> s == Confirmed
  {
    match s
    case Pending => ConfirmButton
    case Confirmed => ShipButton
    case Shipped => ShippedNote
    case Delivered => DeliveredNote
    case Cancelled => NoAction
  }

  /** The delivery address is shown for confirmed and shipped items. */
  predicate ShowsAddress(s: Status) {
    s == Confirmed || s == Shipped
  }

  /**
   * Confirm is offered exactly for pending items and Ship exactly for
   * confirmed ones; shipped and delivered items show a note and no button;
   * a cancelled item offers nothing. The address is shown exactly while a
   * Ship button or a shipped note is shown.
   */
  lemma ActionLaws(s: Status)
    ensures ActionFor(s) == ConfirmButton <==> s == Pending
    ensures ActionFor(s) == ShipButton <==> s == Confirmed
    ensures ActionFor(s) == ShippedNote <==> s == Shipped
    ensures ActionFor(s) == DeliveredNote <==> s == Delivered
    ensures ActionFor(s) == NoAction <==> s == Cancelled
    ensures ShowsAddress(s) <==> ActionFor(s) in {ShipButton, ShippedNote}
  {
  }

  /** One item card: the position sent with an action, the action area and whether the address shows. */
  datatype ItemCard = ItemCard(position: nat, action: Action, address: bool)

  /** One order card: the order's id and the seller's own item cards. */
  datatype OrderCard = OrderCard(orderId: Id, items: seq<ItemCard>)

  function ItemCards(o: Order, me: Id): (r: seq<ItemCard>)
    ensures |r| == |OwnPositions(o.orderItems, me)|
    ensures forall k :: 0 <= k < |r| ==>
              && r[k].position < |o.orderItems|
              && OwnItem(o.orderItems[r[k].position], me)
              && r[k].action == ActionFor(o.orderItems[r[k].position].status)
              && r[k].address == ShowsAddress(o.orderItems[r[k].position].status)
  {
    var ps := OwnPositions(o.orderItems, me);
    seq(|ps|, k requires 0 <= k < |ps| =>
      ItemCard(ps[k], ActionFor(o.orderItems[ps[k]].status), ShowsAddress(o.orderItems[ps[k]].status)))
  }

  /** The orders list: one card per order, in the order received, each with the seller's own items. */
  function Cards(orders: seq<Order>, me: Id): (r: seq<OrderCard>)
    ensures |r| == |orders|
    ensures forall i :: 0 <= i < |orders| ==> r[i] == OrderCard(orders[i].id, ItemCards(orders[i], me))
  {
    seq(|orders|, i requires 0 <= i < |orders| => OrderCard(orders[i].id, ItemCards(orders[i], me)))
  }

  /**
   * Every item the seller owns gets exactly one card, and an action on it
   * names that item's position in its order and is the one its status
   * calls for.
   */
  lemma EveryOwnItemHasACard(orders: seq<Order>, me: Id, i: nat, j: nat)
    requires i < |orders| && j < |orders[i].orderItems| && OwnItem(orders[i].orderItems[j], me)
    ensures exists k :: 0 <= k < |Cards(orders, me)[i].items|
              && Cards(orders, me)[i].items[k].position == j
              && Cards(orders, me)[i].items[k].action == ActionFor(orders[i].orderItems[j].status)
    ensures forall k, l :: 0 <= k < l < |Cards(orders, me)[i].items| ==>
              Cards(orders, me)[i].items[k].position != Cards(orders, me)[i].items[l].position
  {
    var ps := OwnPositions(orders[i].orderItems, me);
    var k :| 0 <= k < |ps| && ps[k] == j;
    assert Cards(orders, me)[i].items[k].position == j;
  }

  /** `prevOrders.map(o => o._id === orderId ? response.order : o)` */
  function ReplaceOrder(orders: seq<Order>, id: Id, updated: Order): (r: seq<Order>)
    ensures |r| == |orders|
    ensures forall i :: 0 <= i < |orders| ==> r[i] == if orders[i].id == id then updated else orders[i]
  {
    Map(orders, (o: Order) => if o.id == id then updated else o)
  }

  /**
   * Replacing touches only the orders with the id: a list without it is
   * unchanged; replacing twice with the same order is replacing once; and
   * when the new order keeps its id, the list keeps its ids in order.
   */
  lemma ReplaceOrderLaws(orders: seq<Order>, id: Id, updated: Order)
    ensures (forall i :: 0 <= i < |orders| ==> orders[i].id != id) ==> ReplaceOrder(orders, id, updated) == orders
    ensures ReplaceOrder(ReplaceOrder(orders, id, updated), id, updated) == ReplaceOrder(orders, id, updated)
    ensures updated.id == id ==>
              forall i :: 0 <= i < |orders| ==> ReplaceOrder(orders, id, updated)[i].id == orders[i].id
  {
  }

  /** The two item actions. */
  datatype ActionKind = Confirm | Ship

  function KindName(kind: ActionKind): string {
    match kind
    case Confirm => "confirm"
    case Ship => "ship"
  }

  function ActionFailed(kind: ActionKind): string {
    match kind
    case Confirm => "Failed to confirm item"
    case Ship => "Failed to ship item"
  }

  /** The `actionLoading` key: `` `${kind}-${orderId}-${itemIndex}` ``. */
  function ActionKey(kind: ActionKind, orderId: Id, index: nat): (key: string)
    ensures StartsWith(key, KindName(kind) + "-")
    ensures |key| == |KindName(kind)| + |orderId| + |NatToString(index)| + 2
  {
    KindName(kind) + "-" + orderId + "-" + NatToString(index)
  }

  /** A key splits at '-' back into its kind, order id and index, for an id without '-'. */
  lemma KeyFields(kind: ActionKind, orderId: Id, index: nat)
    requires '-' !in orderId
    ensures Split(ActionKey(kind, orderId, index), '-') == [KindName(kind), orderId, NatToString(index)]
  {
    var k := KindName(kind);
    var d := NatToString(index);
    var rest := orderId + ['-'] + d;
    KeyPiecesWithoutDash(kind, index);
    SplitWithoutSeparator(d, '-');
    SplitAround(orderId, d, '-');
    KeyRegrouped(kind, orderId, index);
    SplitAround(k, rest, '-');
  }

  /** Neither the kind's name nor the printed index holds a '-'. */
  lemma KeyPiecesWithoutDash(kind: ActionKind, index: nat)
    ensures '-' !in KindName(kind) && '-' !in NatToString(index)
  {
    var d := NatToString(index);
    forall i | 0 <= i < |d| ensures d[i] != '-' { }
  }

  /** The key is the kind's name, a '-', and the rest of the key. */
  lemma KeyRegrouped(kind: ActionKind, orderId: Id, index: nat)
    ensures ActionKey(kind, orderId, index) == KindName(kind) + ['-'] + (orderId + ['-'] + NatToString(index))
  {
  }

  /**
   * Two actions in flight never share a key while order ids have no '-'
   * (database ids are hexadecimal): equal keys mean the same action on the
   * same item of the same order.
   */
  lemma ActionKeyInjective(k1: ActionKind, id1: Id, i1: nat, k2: ActionKind, id2: Id, i2: nat)
    requires '-' !in id1 && '-' !in id2
    requires ActionKey(k1, id1, i1) == ActionKey(k2, id2, i2)
    ensures k1 == k2 && id1 == id2 && i1 == i2
  {
    KeyFields(k1, id1, i1);
    KeyFields(k2, id2, i2);
    assert KindName(k1) == KindName(k2);
    assert KindName(Confirm)[0] != KindName(Ship)[0];
    NatToStringInjective(i1, i2);
  }

  /** How the orders request settled: with the data (None for a null body), or rejected with a message. */
  datatype OrdersFetch = OrdersResolved(data: Option<seq<Order>>) | OrdersRejected(message: string)

  /** How an item action settled: with the updated order, or rejected with a message ("" when falsy). */
  datatype ActionOutcome = Done(order: Order) | ActionRejected(message: string)

  /** The seller order page's state. */
  class SellerOrders {
    var orders: seq<Order>
    var error: Option<string>
    var loading: bool
    var actionLoading: map<string, bool>

    constructor ()
      ensures orders == [] && error.None? && loading && actionLoading == map[]
    {
      orders := [];
      error := None;
      loading := true;
      actionLoading := map[];
    }

    /**
     * The mount effect: anyone but a logged-in seller gets the error and no
     * request is made; a seller's request fills the list (`data || []`) or
     * sets the error message, `'Failed to fetch orders'` when it is falsy.
     */
    method Mount(user: StoredUser, outcome: OrdersFetch) returns (fetched: bool)
      modifies this
      ensures fetched <==> MayFetch(user)
      ensures !loading && actionLoading == old(actionLoading)
      ensures !fetched ==> error == Some(SellersOnly) && orders == old(orders)
      ensures fetched && outcome.OrdersResolved? ==>
                error.None? && orders == (if outcome.data.Some? then outcome.data.value else [])
      ensures fetched && outcome.OrdersRejected? ==>
                orders == old(orders) && error == Some(if outcome.message != "" then outcome.message else FetchFailed)
    {
      if !MayFetch(user) {
        error := Some(SellersOnly);
        loading := false;
        return false;
      }
      fetched := true;
      loading := true;
      error := None;
      match outcome {
        case OrdersResolved(data) =>
          orders := if data.Some? then data.value else [];
        case OrdersRejected(m) =>
          error := Some(if m != "" then m else FetchFailed);
      }
      loading := false;
    }

    /**
     * `handleConfirmItem` / `handleShipItem`: marks the action's key busy,
     * asks the server, replaces the order with the returned one on success
     * or alerts the message (a default per action when falsy), and clears
     * the key again either way.
     */
    method HandleAction(kind: ActionKind, orderId: Id, index: nat, outcome: ActionOutcome) returns (alert: Option<string>)
      modifies this
      ensures actionLoading == old(actionLoading)[ActionKey(kind, orderId, index) := false]
      ensures outcome.Done? ==> alert.None? && orders == ReplaceOrder(old(orders), orderId, outcome.order)
      ensures outcome.ActionRejected? ==>
                orders == old(orders)
                && alert == Some(if outcome.message != "" then outcome.message else ActionFailed(kind))
      ensures error == old(error) && loading == old(loading)
    {
      var key := ActionKey(kind, orderId, index);
      actionLoading := actionLoading[key := true];
      match outcome {
        case Done(o) =>
          orders := ReplaceOrder(orders, orderId, o);
          alert := None;
        case ActionRejected(m) =>
          alert := Some(if m != "" then m else ActionFailed(kind));
      }
      actionLoading := actionLoading[key := false];
    }
  }

  /**
   * An action leaves every other key as it was, so the busy flags of other
   * items, and of the other action on the same item, are untouched.
   */
  lemma ActionKeysSeparate(busy: map<string, bool>, kind: ActionKind, orderId: Id, index: nat,
                           other: ActionKind, otherId: Id, otherIndex: nat)
    requires '-' !in orderId && '-' !in otherId
    requires (kind, orderId, index) != (other, otherId, otherIndex)
    requires ActionKey(other, otherId, otherIndex) in busy
    ensures var after := busy[ActionKey(kind, orderId, index) := false];
            ActionKey(other, otherId, otherIndex) in after
            && after[ActionKey(other, otherId, otherIndex)] == busy[ActionKey(other, otherId, otherIndex)]
  {
    if ActionKey(kind, orderId, index) == ActionKey(other, otherId, otherIndex) {
      ActionKeyInjective(kind, orderId, index, other, otherId, otherIndex);
    }
  }
}
