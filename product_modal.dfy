/** The product detail modal (`components/catalog/product-modal.tsx`): its own copy
    of the stock classification, the choice between the base product and an
    alternative, the quantity stepper, the add-to-cart action and the star row. */
module ProductModal {
  import opened Wrappers
  import opened Text
  import opened Catalog
  import Card = ProductCard

  /** `getStockStatus` of the modal: the card's classification with longer messages
      (the colours and icons it also returns are presentation). */
  function GetStockStatus(p: Product): (r: Card.StockStatus)
    ensures r.isOutOfStock <==> p.stock == 0
    ensures r.isLowStock <==> p.stock != 0 && p.stock <= p.lowStockThreshold
    ensures r.isInStock != r.isOutOfStock
  {
    if p.stock == 0 then
      Card.StockStatus(false, false, true, p.restockDate, Card.Out, Card.OutMessage(p.restockDate))
    else if p.stock <= p.lowStockThreshold then
      Card.StockStatus(true, true, false, None, Card.Low,
                       "Attention : Plus que " + IntToString(p.stock) + " en stock !")
    else
      Card.StockStatus(true, false, false, None,
                       if p.stock > p.lowStockThreshold * 2 then Card.High else Card.Medium,
                       "En stock (" + IntToString(p.stock) + " disponibles)")
  }

  /** The two copies agree on every flag, the level and the restock date for every
      product; in stock, only the message text differs. */
  lemma AgreesWithCard(p: Product)
    ensures var m := GetStockStatus(p); var c := Card.GetStockStatus(p);
      && m.isInStock == c.isInStock && m.isLowStock == c.isLowStock
      && m.isOutOfStock == c.isOutOfStock && m.level == c.level
      && m.restockDate == c.restockDate
      && (p.stock == 0 <==> m.message == c.message)
  {
    var m := GetStockStatus(p);
    var c := Card.GetStockStatus(p);
    if p.stock != 0 && p.stock <= p.lowStockThreshold {
      assert m.message[0] == 'A' != c.message[0];
    } else if p.stock != 0 {
      assert m.message[0] == 'E' != c.message[0];
    }
  }

  /** `selectedAlternative || selectedProduct`: what the modal shows and classifies. */
  function CurrentProduct(selected: Product, alternative: Option<Product>): (r: Product)
    ensures alternative.Some? ==> r == alternative.value
    ensures alternative.None? ==> r == selected
  {
    alternative.GetOr(selected)
  }

  /** Stock status and price come from the alternative when one is chosen. */
  lemma AlternativeDrivesStatus(selected: Product, alt: Product)
    ensures GetStockStatus(CurrentProduct(selected, Some(alt))) == GetStockStatus(alt)
    ensures CurrentProduct(selected, Some(alt)).price == alt.price
  {
  }

  /** The minus button: one less, but never below 1. */
  function Decrement(q: int): (r: int)
    ensures r >= 1
    ensures r == q - 1 || (r == 1 && q <= 2)
  {
    if q - 1 > 1 then q - 1 else 1
  }

  /** The plus button: one more, but never above the shown product's stock. */
  function Increment(q: int, stock: int): (r: int)
    ensures r <= stock && r <= q + 1
    ensures r == q + 1 || r == stock
  {
    if stock < q + 1 then stock else q + 1
  }

  /** Within the bounds, minus undoes plus and plus undoes minus. */
  lemma StepperInverse(q: int, stock: int)
    ensures 1 <= q < stock ==> Decrement(Increment(q, stock)) == q
    ensures 2 <= q <= stock ==> Increment(Decrement(q), stock) == q
  {
  }

  /** Starting from 1, any sequence of presses on a product with stock stays in 1..stock. */
  lemma StepperStaysInRange(q: int, stock: int)
    requires 1 <= q <= stock
    ensures 1 <= Decrement(q) <= stock
    ensures 1 <= Increment(q, stock) <= stock
  {
  }

  /** Star `star` (1 to 5) is drawn filled iff `star <= rating`. */
  predicate StarFilled(star: int, rating: real) {
    star as real <= rating
  }

  /** The five stars of a rating. */
  function Stars(rating: real): (r: seq<bool>)
    ensures |r| == 5
    ensures forall i :: 0 <= i < 5 ==> (r[i] <==> (i + 1) as real <= rating)
  {
    seq(5, i requires 0 <= i < 5 => StarFilled(i + 1, rating))
  }

  /** The filled stars are always a prefix of the row, and a fractional rating
      rounds down: 4.5 fills four stars. */
  lemma StarsArePrefix(rating: real)
    ensures forall i, j :: 0 <= i <= j < 5 && Stars(rating)[j] ==> Stars(rating)[i]
    ensures Stars(4.5) == [true, true, true, true, false]
  {
  }

  class ModalState {
    /** `useState<Product | null>(null)` */
    var selectedAlternative: Option<Product>
    /** `useState(1)` */
    var quantity: int

    constructor ()
      ensures selectedAlternative == None && quantity == 1
    {
      selectedAlternative := None;
      quantity := 1;
    }

    /** The base-product button (`null`) and each alternative's button; the quantity
        is kept as it is. */
    method SelectAlternative(alt: Option<Product>)
      modifies this
      ensures selectedAlternative == alt && quantity == old(quantity)
    {
      selectedAlternative := alt;
    }

    method Minus()
      modifies this
      ensures quantity == Decrement(old(quantity)) && quantity >= 1
      ensures selectedAlternative == old(selectedAlternative)
    {
      quantity := Decrement(quantity);
    }

    /** The stepper is only shown while the current product is in stock. */
    method Plus(selected: Product)
      requires GetStockStatus(CurrentProduct(selected, selectedAlternative)).isInStock
      modifies this
      ensures quantity == Increment(old(quantity), CurrentProduct(selected, selectedAlternative).stock)
      ensures quantity <= CurrentProduct(selected, selectedAlternative).stock
      ensures selectedAlternative == old(selectedAlternative)
    {
      quantity := Increment(quantity, CurrentProduct(selected, selectedAlternative).stock);
    }

    /** `handleAddToCart`: only when the shown product is in stock, add the base
        product with the chosen quantity and alternative, then close the modal. */
    method HandleAddToCart(store: CatalogStore)
      requires store.Valid() && store.selectedProduct.Some?
      modifies store
      ensures store.Valid()
      ensures var inStock := GetStockStatus(CurrentProduct(old(store.selectedProduct).value, selectedAlternative)).isInStock;
        && (inStock ==> store.cart == CartWithAdded(old(store.cart), old(store.selectedProduct).value, quantity, selectedAlternative)
                        && store.selectedProduct == None)
        && (!inStock ==> store.cart == old(store.cart) && store.selectedProduct == old(store.selectedProduct))
      ensures store.products == old(store.products) && store.filteredProducts == old(store.filteredProducts)
      ensures store.filters == old(store.filters)
    {
      var selected := store.selectedProduct.value;
      if GetStockStatus(CurrentProduct(selected, selectedAlternative)).isInStock {
        store.AddToCart(selected, quantity, selectedAlternative);
        store.SelectProduct(None);
      }
    }
  }
}
