/** The order history page (`app/profile/orders/page.tsx`): the status filter,
    the status labels, the shortened item preview and the details toggle. */
module ProfileOrders {
  import opened Wrappers
  import opened Text
  import opened Orders
  import Seqs

  /** `filterStatus === "all" ? orders : orders.filter(o => o.status === filterStatus)` */
  function FilteredOrders(orders: seq<Order>, filterStatus: string): (r: seq<Order>)
    ensures filterStatus == "all" ==> r == orders
    ensures filterStatus != "all" ==>
      && (forall i :: 0 <= i < |r| ==> StatusName(r[i].status) == filterStatus && r[i] in orders)
      && (forall i :: 0 <= i < |orders| && StatusName(orders[i].status) == filterStatus ==> orders[i] in r)
      && (forall o :: multiset(r)[o] == if StatusName(o.status) == filterStatus then multiset(orders)[o] else 0)
  {
    if filterStatus == "all" then orders
    else
      var tab := (o: Order) => StatusName(o.status) == filterStatus;
      Seqs.WhereMultiset(orders, tab);
      Seqs.Where(orders, tab)
  }

  /** Filtering keeps the stored order. */
  lemma FilteredInOrder(orders: seq<Order>, filterStatus: string)
    ensures Seqs.IsSubseq(FilteredOrders(orders, filterStatus), orders)
  {
    if filterStatus != "all" {
      Seqs.WhereIsSubseq(orders, (o: Order) => StatusName(o.status) == filterStatus);
    } else {
      Seqs.IsSubseqRefl(orders);
    }
  }

  /** The "processing" tab is always empty. */
  lemma ProcessingTabEmpty(orders: seq<Order>)
    ensures FilteredOrders(orders, "processing") == []
  {
    Seqs.WhereNone(orders, (o: Order) => StatusName(o.status) == "processing");
  }

  /** `getStatusText` */
  function GetStatusText(status: string): (t: string)
    ensures status == "processing" ==> t == "En cours de traitement"
    ensures status == "shipped" ==> t == "Expédiée"
    ensures status == "delivered" ==> t == "Livrée"
    ensures status == "cancelled" ==> t == "Annulée"
    ensures status !in {"processing", "shipped", "delivered", "cancelled"} ==> t == "En attente"
  {
    if status == "processing" then "En cours de traitement"
    else if status == "shipped" then "Expédiée"
    else if status == "delivered" then "Livrée"
    else if status == "cancelled" then "Annulée"
    else "En attente"
  }

  /** For the stored statuses: pending and confirmed share the label "En attente",
      the others have their own, and "En cours de traitement" never shows. */
  lemma StatusLabels(s: Status)
    ensures GetStatusText(StatusName(s)) == "En attente" <==> s == Pending || s == Confirmed
    ensures GetStatusText(StatusName(s)) != "En cours de traitement"
  {
  }

  /** `order.items.slice(0, 3)` */
  function PreviewItems(items: seq<OrderItem>): (r: seq<OrderItem>)
    ensures |r| == if |items| < 3 then |items| else 3
    ensures r == items[..|r|]
  {
    Seqs.Take(items, 3)
  }

  /** The "+N autres" badge, present only beyond three items. */
  function MoreBadge(items: seq<OrderItem>): (b: Option<string>)
    ensures b.Some? <==> |items| > 3
    ensures b.Some? ==> b.value == "+" + NatToString(|items| - 3) + " autres"
  {
    if |items| > 3 then Some("+" + NatToString(|items| - 3) + " autres") else None
  }

  /** The preview and the badge together account for every item. */
  lemma PreviewAccountsForAll(items: seq<OrderItem>)
    ensures |PreviewItems(items)| + (if MoreBadge(items).Some? then |items| - 3 else 0) == |items|
  {
  }

  /** `item.price * item.quantity` */
  function LineTotal(item: OrderItem): int {
    item.price * item.quantity
  }

  /** The seeded first order would show lines of 45.99 € and 25.00 €, which add up to
      its subtotal. */
  lemma SeedLineTotals()
    ensures LineTotal(MockOrders[0].items[0]) == 4599
    ensures LineTotal(MockOrders[0].items[1]) == 2500
    ensures LineTotal(MockOrders[0].items[0]) + LineTotal(MockOrders[0].items[1]) == MockOrders[0].subtotal
  {
  }

  /** `setSelectedOrder(selectedOrder === order.id ? null : order.id)` */
  function ToggleSelected(selected: Option<string>, orderId: string): (r: Option<string>)
    ensures selected == Some(orderId) ==> r == None
    ensures selected != Some(orderId) ==> r == Some(orderId)
  {
    if selected == Some(orderId) then None else Some(orderId)
  }

  /** Clicking the same order twice restores the selection when it was that order or
      nothing; at most one order is ever expanded. */
  lemma ToggleTwice(selected: Option<string>, orderId: string)
    ensures selected == None || selected == Some(orderId) ==>
      ToggleSelected(ToggleSelected(selected, orderId), orderId) == selected
    ensures ToggleSelected(selected, orderId) == None || ToggleSelected(selected, orderId) == Some(orderId)
  {
  }
}
