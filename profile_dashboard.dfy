/** The account dashboard (`app/profile/page.tsx`): the figures it derives from the
    order repository.  It reads every stored order, whoever placed it. */
module ProfileDashboard {
  import opened Orders
  import Seqs

  /** `orders.slice(0, 3)`: the first three orders in stored order. */
  function RecentOrders(orders: seq<Order>): (r: seq<Order>)
    ensures |r| == if |orders| < 3 then |orders| else 3
    ensures r == orders[..|r|]
  {
    Seqs.Take(orders, 3)
  }

  /** `orders.length`: bounds the recent list and the pending count. */
  function TotalOrders(orders: seq<Order>): (n: nat)
    ensures n == |orders|
    ensures |RecentOrders(orders)| <= n && PendingOrders(orders) <= n
  {
    |orders|
  }

  /** `orders.reduce((sum, order) => sum + order.total, 0)` */
  function TotalSpent(orders: seq<Order>): int {
    if orders == [] then 0 else orders[0].total + TotalSpent(orders[1..])
  }

  /** A new order adds its total, whichever user placed it. */
  lemma {:induction false} TotalSpentAppend(orders: seq<Order>, o: Order)
    ensures TotalSpent(orders + [o]) == TotalSpent(orders) + o.total
  {
    if orders == [] {
      assert orders + [o] == [o];
    } else {
      assert (orders + [o])[1..] == orders[1..] + [o];
      TotalSpentAppend(orders[1..], o);
    }
  }

  /** A newly created order raises the order count by one and the amount spent by
      its total. */
  lemma NewOrderCounted(orders: seq<Order>, o: Order)
    ensures TotalOrders(orders + [o]) == TotalOrders(orders) + 1
    ensures TotalSpent(orders + [o]) == TotalSpent(orders) + o.total
  {
    TotalSpentAppend(orders, o);
  }

  /** The seeded history adds up to 79.89 € + 192.88 €. */
  lemma SeedTotalSpent()
    ensures TotalSpent(MockOrders) == 27277
  {
    var m := MockOrders;
    assert m[1..][1..] == [];
    assert TotalSpent(m[1..]) == m[1].total + TotalSpent(m[1..][1..]);
    assert TotalSpent(m) == m[0].total + TotalSpent(m[1..]);
  }

  /** `orders.filter(order => order.status === "processing").length` */
  function PendingOrders(orders: seq<Order>): nat {
    |Seqs.Where(orders, (o: Order) => StatusName(o.status) == "processing")|
  }

  /** No order status is stored as "processing", so the pending count is always 0. */
  lemma PendingIsAlwaysZero(orders: seq<Order>)
    ensures PendingOrders(orders) == 0
  {
    Seqs.WhereNone(orders, (o: Order) => StatusName(o.status) == "processing");
  }
}
