/**
 * The admin dashboard handlers: the newest-first listings, the revenue
 * total, the payment status update and the two deletions. Each handler is
 * a function from the stored collection to its reply and the collection
 * it leaves.
 */
module AdminController {
  import opened Common
  import opened Lists
  import opened ProductModel
  import opened OrderModel
  import opened UserController

  /** A handler's reply together with the collection it leaves behind. */
  datatype Outcome<T, S> = Outcome(reply: Response<T>, after: seq<S>)

  /** `getAllOrders`: every order, newest first. */
  function AdminOrders(orders: seq<Order>): (r: seq<Order>)
    ensures SortedDesc(r, (o: Order) => o.createdAt)
    ensures multiset(r) == multiset(orders)
  {
    SortDesc(orders, (o: Order) => o.createdAt)
  }

  /** `getAllProducts`: every product, newest first. */
  function AdminProducts(products: seq<Product>): (r: seq<Product>)
    ensures SortedDesc(r, (p: Product) => p.createdAt)
    ensures multiset(r) == multiset(products)
  {
    SortDesc(products, (p: Product) => p.createdAt)
  }

  /** `getAllUsers`: every user without the password, newest first. */
  function AdminUsers(users: seq<User>): (r: seq<PublicUser>)
    ensures SortedDesc(r, (v: PublicUser) => v.createdAt)
    ensures multiset(r) == multiset(seq(|users|, i requires 0 <= i < |users| => Public(users[i])))
    ensures |r| == |users|
  {
    var views := seq(|users|, i requires 0 <= i < |users| => Public(users[i]));
    var r := SortDesc(views, (v: PublicUser) => v.createdAt);
    assert |r| == |multiset(r)| == |multiset(views)| == |views|;
    r
  }

  /** What one order adds to the revenue: `order.totalPrice || 0`. */
  function OrderRevenue(o: Order): int {
    o.totalPrice.GetOr(0)
  }

  /** `orders.reduce((sum, order) => sum + (order.totalPrice || 0), 0)`, folded from the left. */
  function Revenue(orders: seq<Order>): (r: int)
    ensures (forall i :: 0 <= i < |orders| ==> OrderRevenue(orders[i]) >= 0) ==> r >= 0
    decreases |orders|
  {
    if |orders| == 0 then 0
    else Revenue(orders[..|orders| - 1]) + OrderRevenue(orders[|orders| - 1])
  }

  /** The revenue of two runs of orders is the sum of their revenues. */
  lemma {:induction false} RevenueAppend(a: seq<Order>, b: seq<Order>)
    ensures Revenue(a + b) == Revenue(a) + Revenue(b)
    decreases |b|
  {
    if |b| == 0 {
      assert a + b == a;
    } else {
      var init := b[..|b| - 1];
      assert (a + b)[..|a + b| - 1] == a + init;
      assert (a + b)[|a + b| - 1] == b[|b| - 1];
      RevenueAppend(a, init);
    }
  }

  /**
   * The revenue of no orders is 0; one more order, wherever it stands,
   * adds exactly its total price, an order without one adding nothing; and
   * when no total is negative neither is the revenue.
   */
  lemma {:induction false} RevenueLaws(orders: seq<Order>, o: Order)
    ensures Revenue([]) == 0
    ensures Revenue(orders + [o]) == Revenue(orders) + OrderRevenue(o)
    ensures Revenue([o] + orders) == OrderRevenue(o) + Revenue(orders)
    ensures o.totalPrice.None? ==> Revenue(orders + [o]) == Revenue(orders)
    ensures (forall i :: 0 <= i < |orders| ==> OrderRevenue(orders[i]) >= 0) ==> Revenue(orders) >= 0
  {
    RevenueAppend(orders, [o]);
    RevenueAppend([o], orders);
    assert Revenue([o]) == Revenue([]) + OrderRevenue(o);
  }

  /** The reply of `getDashboardStats`. */
  datatype Stats = Stats(totalOrders: nat, totalRevenue: int, totalUsers: nat, totalProducts: nat)

  /** `getDashboardStats`: the three collection sizes and the revenue. */
  function DashboardStats(orders: seq<Order>, users: seq<User>, products: seq<Product>): (s: Stats)
    ensures s.totalOrders == |orders| && s.totalUsers == |users| && s.totalProducts == |products|
    ensures s.totalRevenue == Revenue(orders)
  {
    Stats(|orders|, Revenue(orders), |users|, |products|)
  }

  /**
   * A new order raises the order count by one and the revenue by its
   * total; the user and product counts stay.
   */
  lemma DashboardAfterOrder(orders: seq<Order>, users: seq<User>, products: seq<Product>, o: Order)
    ensures var before := DashboardStats(orders, users, products);
            var after := DashboardStats(orders + [o], users, products);
            && after.totalOrders == before.totalOrders + 1
            && after.totalRevenue == before.totalRevenue + OrderRevenue(o)
            && after.totalUsers == before.totalUsers && after.totalProducts == before.totalProducts
  {
    RevenueLaws(orders, o);
  }

  /**
   * `updateOrderStatus`: 404 for an unknown id; otherwise the order is
   * answered with its update time stamped. The order schema has no
   * `paymentStatus` path, so the schema's strict mode strips it from the
   * update and the requested value is never stored or returned.
   */
  function UpdateOrderStatus(orders: seq<Order>, id: Id, paymentStatus: Option<string>, now: Time): (r: Outcome<Order, Order>)
    ensures FindOrder(orders, id) == -1 <==> r.reply == Error(404, "Order not found")
    ensures FindOrder(orders, id) == -1 ==> r.after == orders
    ensures |r.after| == |orders|
    ensures forall i :: 0 <= i < |orders| ==> r.after[i].(updatedAt := orders[i].updatedAt) == orders[i]
    ensures forall i :: 0 <= i < |orders| && i != FindOrder(orders, id) ==> r.after[i] == orders[i]
    ensures r.reply.Reply? ==>
              var k := FindOrder(orders, id);
              && r.reply == Reply(200, r.after[k])
              && r.after[k].updatedAt == now
  {
    var k := FindOrder(orders, id);
    if k == -1 then Outcome(Error(404, "Order not found"), orders)
    else
      var o := orders[k].(updatedAt := now);
      Outcome(Reply(200, o), orders[k := o])
  }

  /** The requested payment status makes no difference: the stored orders and the reply are the same whatever it is. */
  lemma UpdateOrderStatusIgnoresPayment(orders: seq<Order>, id: Id, p: Option<string>, q: Option<string>, now: Time)
    ensures UpdateOrderStatus(orders, id, p, now) == UpdateOrderStatus(orders, id, q, now)
  {
  }

  /** `deleteUser` (admin): 404 for an unknown id; otherwise the user is removed. */
  function DeleteUser(users: seq<User>, id: Id): (r: Outcome<string, User>)
    ensures FindUser(users, id) == -1 <==> r.reply == Error(404, UserNotFound)
    ensures FindUser(users, id) == -1 ==> r.after == users
    ensures r.reply.Reply? ==> r.reply == Reply(200, "User deleted successfully")
    ensures r.reply.Reply? ==>
              (|r.after| == |users| - 1 && multiset(r.after) == multiset(users) - multiset{users[FindUser(users, id)]})
    ensures UniqueUserIds(users) ==> FindUser(r.after, id) == -1 && UniqueUserIds(r.after)
  {
    var k := FindUser(users, id);
    if k == -1 then Outcome(Error(404, UserNotFound), users)
    else
      var after := RemoveAt(users, k);
      assert UniqueUserIds(users) ==> FindUser(after, id) == -1 && UniqueUserIds(after) by {
        if UniqueUserIds(users) {
          RemoveAtUnique(users, k, (u: User) => u.id);
        }
      }
      Outcome(Reply(200, "User deleted successfully"), after)
  }

  /** `deleteProduct` (admin): 404 for an unknown id; otherwise the product is removed, whoever sells it. */
  function DeleteProduct(products: seq<Product>, id: Id): (r: Outcome<string, Product>)
    ensures FindProduct(products, id) == -1 <==> r.reply == Error(404, "Product not found")
    ensures FindProduct(products, id) == -1 ==> r.after == products
    ensures r.reply.Reply? ==> r.reply == Reply(200, "Product deleted successfully")
    ensures r.reply.Reply? ==>
              (|r.after| == |products| - 1 && multiset(r.after) == multiset(products) - multiset{products[FindProduct(products, id)]})
    ensures UniqueProductIds(products) ==> FindProduct(r.after, id) == -1 && UniqueProductIds(r.after)
  {
    var k := FindProduct(products, id);
    if k == -1 then Outcome(Error(404, "Product not found"), products)
    else
      var after := RemoveAt(products, k);
      assert UniqueProductIds(products) ==> FindProduct(after, id) == -1 && UniqueProductIds(after) by {
        if UniqueProductIds(products) {
          RemoveAtUnique(products, k, (p: Product) => p.id);
        }
      }
      Outcome(Reply(200, "Product deleted successfully"), after)
  }
}
