/** The catalogue card (`components/catalog/product-card.tsx`): the stock
    classification shown on each card and the guarded quick add to the cart. */
module ProductCard {
  import opened Wrappers
  import opened Text
  import opened Catalog

  datatype StockLevel = Out | Low | Medium | High

  /** The record `getStockStatus` returns; `restockDate` is present only when out of stock. */
  datatype StockStatus = StockStatus(
    isInStock: bool,
    isLowStock: bool,
    isOutOfStock: bool,
    restockDate: Option<string>,
    level: StockLevel,
    message: string)

  /** A restock date counts only when it is a non-empty string (JavaScript truthiness). */
  predicate HasRestockDate(d: Option<string>) {
    d.Some? && d.value != ""
  }

  /** The out-of-stock message; the stored date text stands for its `fr-FR` rendering. */
  function OutMessage(restockDate: Option<string>): (m: string)
    ensures HasRestockDate(restockDate) ==> m == "Retour en stock le " + restockDate.value
    ensures !HasRestockDate(restockDate) ==> m == "Rupture de stock"
  {
    if HasRestockDate(restockDate) then "Retour en stock le " + restockDate.value else "Rupture de stock"
  }

  /** `getStockStatus` of the card. */
  function GetStockStatus(p: Product): (r: StockStatus)
    ensures r.isOutOfStock <==> p.stock == 0
    ensures r.isOutOfStock ==> !r.isInStock && r.level == Out && r.restockDate == p.restockDate
    ensures r.isLowStock <==> p.stock != 0 && p.stock <= p.lowStockThreshold
    ensures r.isLowStock ==> r.isInStock && r.level == Low
    ensures !r.isOutOfStock && !r.isLowStock ==>
      r.isInStock && r.restockDate == None &&
      (r.level == High <==> p.stock > 2 * p.lowStockThreshold) &&
      (r.level == High || r.level == Medium)
    ensures r.isInStock != r.isOutOfStock
  {
    if p.stock == 0 then
      StockStatus(false, false, true, p.restockDate, Out, OutMessage(p.restockDate))
    else if p.stock <= p.lowStockThreshold then
      StockStatus(true, true, false, None, Low, "Plus que " + IntToString(p.stock) + " en stock !")
    else
      StockStatus(true, false, false, None,
                  if p.stock > p.lowStockThreshold * 2 then High else Medium,
                  IntToString(p.stock) + " en stock")
  }

  /** The level alone determines the three flags. */
  lemma LevelDeterminesFlags(p: Product)
    ensures var r := GetStockStatus(p);
      && (r.isOutOfStock <==> r.level == Out)
      && (r.isLowStock <==> r.level == Low)
      && (r.isInStock <==> r.level != Out)
  {
  }

  /** The levels in terms of the stock alone, for a non-negative threshold:
      out at 0, low up to the threshold, medium up to twice it, high beyond. */
  lemma LevelBands(p: Product)
    requires p.stock >= 0 && p.lowStockThreshold >= 0
    ensures GetStockStatus(p).level ==
      if p.stock == 0 then Out
      else if p.stock <= p.lowStockThreshold then Low
      else if p.stock <= 2 * p.lowStockThreshold then Medium
      else High
  {
  }

  /** A negative stock is not "out": it is classified low and addable. */
  lemma NegativeStockIsLow(p: Product)
    requires p.stock < 0 && p.lowStockThreshold >= 0
    ensures GetStockStatus(p).isInStock && GetStockStatus(p).level == Low
  {
  }

  /** `handleAddToCart`: one unit of the base product without alternative, only when
      in stock; the click does not reach the card (no quick view opens). */
  method HandleAddToCart(store: CatalogStore, product: Product)
    requires store.Valid()
    modifies store
    ensures store.Valid()
    ensures GetStockStatus(product).isInStock ==> store.cart == CartWithAdded(old(store.cart), product, 1, None)
    ensures !GetStockStatus(product).isInStock ==> store.cart == old(store.cart)
    ensures store.selectedProduct == old(store.selectedProduct)
    ensures store.products == old(store.products) && store.filteredProducts == old(store.filteredProducts)
    ensures store.filters == old(store.filters)
  {
    if GetStockStatus(product).isInStock {
      store.AddToCart(product, 1, None);
    }
  }
}
