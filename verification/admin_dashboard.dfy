/**
 * The admin dashboard's figures: the revenue summed over every order and the
 * three status counters, computed from GET /api/orders/admin.
 */
module AdminDashboard {
  import opened Base
  import opened OrderModel
  import OrderRoutes

  const LoadFailedMessage := "Không thể tải dữ liệu dashboard"

  /**
   * The gross amount of one order: price times quantity, added left to right,
   * without discounts; never negative for non-negative prices and quantities.
   */
  function ItemsGross(items: seq<Item>): (g: real)
    ensures (forall k :: 0 <= k < |items| ==> items[k].price >= 0.0 && items[k].quantity >= 0) ==> g >= 0.0
  {
    if items == [] then 0.0
    else ItemsGross(items[..|items| - 1]) + items[|items| - 1].price * items[|items| - 1].quantity as real
  }

  /**
   * The revenue card: the gross amounts of all listed orders, whatever their
   * status; with non-negative prices and quantities it is never negative.
   */
  function Revenue(orders: seq<OrderRoutes.ListedOrder>): (r: real)
    ensures (forall i, k :: 0 <= i < |orders| && 0 <= k < |orders[i].order.items| ==>
               orders[i].order.items[k].price >= 0.0 && orders[i].order.items[k].quantity >= 0) ==> r >= 0.0
  {
    if orders == [] then 0.0
    else
      Revenue(orders[..|orders| - 1]) + ItemsGross(orders[|orders| - 1].order.items)
  }

  /** The revenue of two lists put together is the sum of their revenues. */
  lemma {:induction false} RevenueAppend(a: seq<OrderRoutes.ListedOrder>, b: seq<OrderRoutes.ListedOrder>)
    ensures Revenue(a + b) == Revenue(a) + Revenue(b)
    decreases |b|
  {
    if b == [] {
      assert a + b == a;
    } else {
      RevenueAppend(a, b[..|b| - 1]);
      assert (a + b)[..|a + b| - 1] == a + b[..|b| - 1];
    }
  }

  /** A status counter: the number of listed orders whose status, as sent in JSON, is `status`. */
  function CountStatus(orders: seq<OrderRoutes.ListedOrder>, status: string): (n: nat)
    ensures n <= |orders|
  {
    |Filter(orders, (o: OrderRoutes.ListedOrder) => Label(o.order.status) == status)|
  }

  /** The counter for a word that is not a stored status label is always zero. */
  lemma UnlabelledStatusCountsZero(orders: seq<OrderRoutes.ListedOrder>, status: string)
    requires forall st: OrderStatus :: Label(st) != status
    ensures CountStatus(orders, status) == 0
  {
    FilterDropsAll(orders, (o: OrderRoutes.ListedOrder) => Label(o.order.status) == status);
  }

  /**
   * The dashboard's three counters look for "pending", "processing" and
   * "shipped", none of which the order schema stores, so all three show zero.
   */
  lemma DashboardCountersAlwaysZero(orders: seq<OrderRoutes.ListedOrder>)
    ensures CountStatus(orders, "pending") == 0
    ensures CountStatus(orders, "processing") == 0
    ensures CountStatus(orders, "shipped") == 0
  {
    UnlabelledStatusCountsZero(orders, "pending");
    UnlabelledStatusCountsZero(orders, "processing");
    UnlabelledStatusCountsZero(orders, "shipped");
  }

  /** Counters for different words never count an order twice. */
  lemma {:induction false} CountersDisjoint(orders: seq<OrderRoutes.ListedOrder>, s1: string, s2: string, s3: string)
    requires s1 != s2 && s1 != s3 && s2 != s3
    ensures CountStatus(orders, s1) + CountStatus(orders, s2) + CountStatus(orders, s3) <= |orders|
    decreases |orders|
  {
    if orders != [] {
      CountersDisjoint(orders[1..], s1, s2, s3);
    }
  }
}
