/** The order repository (`stores/order-store.ts`): an append-only list of orders
    with lookups by id and by user, and a status update.  Money is integer cents. */
module Orders {
  import opened Wrappers
  import opened Text
  import Seqs

  datatype OrderItem = OrderItem(id: string, name: string, price: int, quantity: int, image: string, brand: string)

  /** `'pending' | 'confirmed' | 'shipped' | 'delivered' | 'cancelled'` */
  datatype Status = Pending | Confirmed | Shipped | Delivered | Cancelled

  /** The string each status is stored as. */
  function StatusName(s: Status): (name: string)
    ensures name in {"pending", "confirmed", "shipped", "delivered", "cancelled"}
  {
    match s
    case Pending => "pending"
    case Confirmed => "confirmed"
    case Shipped => "shipped"
    case Delivered => "delivered"
    case Cancelled => "cancelled"
  }

  lemma StatusNameInjective(a: Status, b: Status)
    ensures StatusName(a) == StatusName(b) <==> a == b
  {
  }

  datatype ShippingAddress = ShippingAddress(
    firstName: string, lastName: string, street: string, city: string,
    postalCode: string, country: string, phone: string)

  datatype Order = Order(
    id: string,
    userId: string,
    items: seq<OrderItem>,
    subtotal: int,
    shipping: int,
    total: int,
    status: Status,
    shippingAddress: ShippingAddress,
    paymentMethod: string,
    createdAt: string,
    estimatedDelivery: Option<string>)

  /** `Omit<Order, 'id' | 'createdAt'>`: what `createOrder` is given. */
  datatype OrderData = OrderData(
    userId: string,
    items: seq<OrderItem>,
    subtotal: int,
    shipping: int,
    total: int,
    status: Status,
    shippingAddress: ShippingAddress,
    paymentMethod: string,
    estimatedDelivery: Option<string>)

  /** `{ ...orderData, id, createdAt }` */
  function Stamp(d: OrderData, id: string, createdAt: string): Order {
    Order(id, d.userId, d.items, d.subtotal, d.shipping, d.total, d.status,
          d.shippingAddress, d.paymentMethod, createdAt, d.estimatedDelivery)
  }

  /** The stored order carries the given fields verbatim: nothing is recomputed. */
  lemma StampKeepsData(d: OrderData, id: string, createdAt: string)
    ensures var o := Stamp(d, id, createdAt);
      && o.id == id && o.createdAt == createdAt
      && OrderData(o.userId, o.items, o.subtotal, o.shipping, o.total, o.status,
                   o.shippingAddress, o.paymentMethod, o.estimatedDelivery) == d
  {
  }

  /** `s.slice(-n)`: the last `n` characters, or all of them when fewer. */
  function LastChars(s: string, n: nat): (r: string)
    ensures |r| == if |s| < n then |s| else n
    ensures r == s[|s| - |r|..]
  {
    if |s| <= n then s else s[|s| - n..]
  }

  /** `ORD-<year>-<last three digits of Date.now()>` */
  function OrderIdFor(year: nat, nowMillis: nat): string {
    "ORD-" + NatToString(year) + "-" + LastChars(NatToString(nowMillis), 3)
  }

  /** From 100 ms on, the last three characters of the clock reading are its
      hundreds, tens and units digits. */
  lemma LastThreeDigits(n: nat)
    requires n >= 100
    ensures LastChars(NatToString(n), 3) ==
      [DigitChar(n / 100 % 10), DigitChar(n / 10 % 10), DigitChar(n % 10)]
  {
    var q1 := n / 10;
    var q2 := q1 / 10;
    DivHundred(n, q2, (q1 % 10) * 10 + n % 10);
    var a := NatToString(q2);
    assert a[|a| - 1] == DigitChar(q2 % 10);
    assert NatToString(q1) == a + [DigitChar(q1 % 10)];
    var s := NatToString(n);
    assert s == a + [DigitChar(q1 % 10)] + [DigitChar(n % 10)];
    assert s[|s| - 3..] == [a[|a| - 1], DigitChar(q1 % 10), DigitChar(n % 10)];
  }

  /** `a == q * 10 + r` with a digit `r` pins down the quotient and the remainder. */
  lemma DivTen(a: int, q: int, r: int)
    requires 0 <= r < 10 && a == q * 10 + r
    ensures a / 10 == q && a % 10 == r
  {
  }

  /** The same for a hundred. */
  lemma DivHundred(a: int, q: int, r: int)
    requires 0 <= r < 100 && a == q * 100 + r
    ensures a / 100 == q && a % 100 == r
  {
  }

  /** Adding a whole second leaves the hundreds, tens and units digits alone. */
  lemma SameLowDigits(n: nat)
    ensures (n + 1000) / 100 % 10 == n / 100 % 10
    ensures (n + 1000) / 10 % 10 == n / 10 % 10
    ensures (n + 1000) % 10 == n % 10
  {
    DivHundred(n + 1000, n / 100 + 10, n % 100);
    DivTen(n / 100 + 10, n / 100 / 10 + 1, n / 100 % 10);
    DivTen(n + 1000, n / 10 + 100, n % 10);
    DivTen(n / 10 + 100, n / 10 / 10 + 10, n / 10 % 10);
  }

  /** Two orders placed a whole second apart in the same year get the same id. */
  lemma OrderIdsCollide(year: nat, nowMillis: nat)
    requires nowMillis >= 100
    ensures OrderIdFor(year, nowMillis) == OrderIdFor(year, nowMillis + 1000)
  {
    LastThreeDigits(nowMillis);
    LastThreeDigits(nowMillis + 1000);
    SameLowDigits(nowMillis);
  }

  /** The position of the first order with that id, or -1. */
  function IndexOfOrder(orders: seq<Order>, id: string): int {
    Seqs.FindIndex(orders, (o: Order) => o.id == id)
  }

  /** `orders.find(o => o.id === id) || null`: the first order with that id. */
  function FindOrder(orders: seq<Order>, id: string): (r: Option<Order>)
    ensures r.None? <==> forall i :: 0 <= i < |orders| ==> orders[i].id != id
    ensures r.Some? ==> (r.value.id == id &&
      exists i :: 0 <= i < |orders| && orders[i] == r.value && forall j :: 0 <= j < i ==> orders[j].id != id)
  {
    var k := IndexOfOrder(orders, id);
    if k < 0 then None else Some(orders[k])
  }

  /** `orders.filter(o => o.userId === userId)` */
  function OrdersOfUser(orders: seq<Order>, userId: string): (r: seq<Order>)
    ensures forall i :: 0 <= i < |r| ==> r[i].userId == userId && r[i] in orders
    ensures forall i :: 0 <= i < |orders| && orders[i].userId == userId ==> orders[i] in r
    ensures forall o :: multiset(r)[o] == if o.userId == userId then multiset(orders)[o] else 0
  {
    var mine := (o: Order) => o.userId == userId;
    Seqs.WhereMultiset(orders, mine);
    Seqs.Where(orders, mine)
  }

  lemma OrdersOfUserInOrder(orders: seq<Order>, userId: string)
    ensures Seqs.IsSubseq(OrdersOfUser(orders, userId), orders)
  {
    Seqs.WhereIsSubseq(orders, (o: Order) => o.userId == userId);
  }

  /** `orders.map(o => o.id === id ? { ...o, status } : o)` */
  function WithStatus(orders: seq<Order>, id: string, status: Status): (r: seq<Order>)
    ensures |r| == |orders|
  {
    if orders == [] then []
    else
      var head := if orders[0].id == id then orders[0].(status := status) else orders[0];
      [head] + WithStatus(orders[1..], id, status)
  }

  /** Only the status of the orders with that id changes; every other field of every
      order, and the length and order of the list, stay. */
  lemma {:induction false} WithStatusAt(orders: seq<Order>, id: string, status: Status)
    ensures forall i :: 0 <= i < |orders| ==>
      WithStatus(orders, id, status)[i] ==
        if orders[i].id == id then orders[i].(status := status) else orders[i]
  {
    if orders != [] {
      WithStatusAt(orders[1..], id, status);
      var r := WithStatus(orders, id, status);
      forall i | 0 <= i < |orders|
        ensures r[i] == if orders[i].id == id then orders[i].(status := status) else orders[i]
      {
        if i > 0 {
          assert r[i] == WithStatus(orders[1..], id, status)[i - 1];
          assert orders[1..][i - 1] == orders[i];
        }
      }
    }
  }

  /** An unknown id changes nothing. */
  lemma UnknownIdUnchanged(orders: seq<Order>, id: string, status: Status)
    requires forall i :: 0 <= i < |orders| ==> orders[i].id != id
    ensures WithStatus(orders, id, status) == orders
  {
    WithStatusAt(orders, id, status);
  }

  /** After an update, looking the id up gives the old order with the new status,
      whichever status it had: there is no terminal state. */
  lemma FindAfterUpdate(orders: seq<Order>, id: string, status: Status)
    ensures FindOrder(WithStatus(orders, id, status), id) ==
      match FindOrder(orders, id)
      case None => None
      case Some(o) => Some(o.(status := status))
  {
    WithStatusAt(orders, id, status);
    var r := WithStatus(orders, id, status);
    match FindOrder(orders, id)
    case None =>
      assert forall i :: 0 <= i < |r| ==> r[i].id != id;
    case Some(o) =>
      var i :| 0 <= i < |orders| && orders[i] == o && forall j :: 0 <= j < i ==> orders[j].id != id;
      FirstMatch(r, id, i);
  }

  lemma FirstMatch(orders: seq<Order>, id: string, i: nat)
    requires i < |orders| && orders[i].id == id
    requires forall j :: 0 <= j < i ==> orders[j].id != id
    ensures FindOrder(orders, id) == Some(orders[i])
  {
    Seqs.FirstIndex(orders, (o: Order) => o.id == id, i);
  }

  /** A delivered order can be moved back to pending. */
  lemma DeliveredIsNotFinal(o: Order)
    requires o.status == Delivered
    ensures WithStatus([o], o.id, Pending) == [o.(status := Pending)]
  {
  }

  /** After appending an order, looking up its id finds it, unless an earlier order
      already had that id, in which case the earlier one is found. */
  lemma FindAfterAppend(orders: seq<Order>, o: Order)
    ensures FindOrder(orders + [o], o.id) ==
      if FindOrder(orders, o.id).Some? then FindOrder(orders, o.id) else Some(o)
  {
    var s := orders + [o];
    match FindOrder(orders, o.id)
    case None =>
      FirstMatch(s, o.id, |orders|);
    case Some(e) =>
      var i :| 0 <= i < |orders| && orders[i] == e && forall j :: 0 <= j < i ==> orders[j].id != o.id;
      FirstMatch(s, o.id, i);
  }

  /** Σ price × quantity over the lines. */
  function ItemsSubtotal(items: seq<OrderItem>): int {
    if items == [] then 0 else items[0].price * items[0].quantity + ItemsSubtotal(items[1..])
  }

  /** subtotal = Σ price × quantity and total = subtotal + shipping. */
  predicate Consistent(o: Order) {
    o.subtotal == ItemsSubtotal(o.items) && o.total == o.subtotal + o.shipping
  }

  const JeanDupont: ShippingAddress :=
    ShippingAddress("Jean", "Dupont", "123 Rue de la Paix", "Paris", "75001", "France", "06 12 34 56 78")

  /** `mockOrders`, in cents. */
  const MockOrders: seq<Order> := [
    Order("ORD-2024-001", "1",
          [OrderItem("1", "Plaquettes de frein avant", 4599, 1, "/images/brake-pads.jpg", "Bosch"),
           OrderItem("2", "Filtre à huile", 1250, 2, "/images/oil-filter.jpg", "Mann")],
          7099, 890, 7989, Delivered, JeanDupont, "Carte bancaire",
          "2024-01-20T14:30:00Z", Some("2024-01-25T00:00:00Z")),
    Order("ORD-2024-002", "1",
          [OrderItem("3", "Amortisseur arrière", 8999, 2, "/images/shock-absorber.jpg", "Monroe")],
          17998, 1290, 19288, Shipped, JeanDupont, "PayPal",
          "2024-02-01T09:15:00Z", Some("2024-02-05T00:00:00Z"))
  ]

  lemma MockOrdersConsistent()
    ensures forall i :: 0 <= i < |MockOrders| ==> Consistent(MockOrders[i])
  {
    assert ItemsSubtotal(MockOrders[0].items) == 7099;
    assert ItemsSubtotal(MockOrders[1].items) == 17998;
  }

  /** A stored order need not be consistent: `createOrder` checks no total. */
  lemma CreateChecksNothing(d: OrderData, id: string, createdAt: string)
    requires d.items == [] && d.subtotal == 1
    ensures !Consistent(Stamp(d, id, createdAt))
  {
  }

  class OrderStore {
    var orders: seq<Order>
    var currentOrder: Option<Order>

    constructor ()
      ensures orders == MockOrders && currentOrder == None
    {
      orders := MockOrders;
      currentOrder := None;
    }

    /** `createOrder`: the id comes from the year and the millisecond clock, both
        given; the new order goes at the end and becomes the current one. */
    method CreateOrder(data: OrderData, year: nat, nowMillis: nat, createdAt: string) returns (orderId: string)
      modifies this
      ensures orderId == OrderIdFor(year, nowMillis)
      ensures orders == old(orders) + [Stamp(data, orderId, createdAt)]
      ensures currentOrder == Some(Stamp(data, orderId, createdAt))
    {
      orderId := OrderIdFor(year, nowMillis);
      var order := Stamp(data, orderId, createdAt);
      orders := orders + [order];
      currentOrder := Some(order);
    }

    method GetOrdersByUserId(userId: string) returns (r: seq<Order>)
      ensures r == OrdersOfUser(orders, userId)
    {
      r := OrdersOfUser(orders, userId);
    }

    method GetOrderById(orderId: string) returns (r: Option<Order>)
      ensures r == FindOrder(orders, orderId)
    {
      r := FindOrder(orders, orderId);
    }

    /** `updateOrderStatus`: any status may replace any other. */
    method UpdateOrderStatus(orderId: string, status: Status)
      modifies this
      ensures orders == WithStatus(old(orders), orderId, status)
      ensures currentOrder == old(currentOrder)
    {
      orders := WithStatus(orders, orderId, status);
    }
  }
}
