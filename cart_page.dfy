/** The cart page (`app/cart/page.tsx`): the order summary (subtotal, shipping,
    total, free-shipping hint, article count), the per-line price display and the
    quantity handler.  Amounts are integer cents: 100 € is 10000. */
module CartPage {
  import opened Wrappers
  import opened Catalog

  const FreeShippingOver: int := 10000
  const StandardShipping: int := 599

  /** A line at the base product's price: what the subtotal adds up. */
  function BaseLineTotal(item: CartItem): int {
    item.product.price * item.quantity
  }

  /** `cart.reduce((sum, item) => sum + item.product.price * item.quantity, 0)`:
      the base price, even for a line with an alternative selected. */
  function Subtotal(cart: seq<CartItem>): int {
    if cart == [] then 0 else BaseLineTotal(cart[0]) + Subtotal(cart[1..])
  }

  lemma {:induction false} SubtotalAppend(a: seq<CartItem>, b: seq<CartItem>)
    ensures Subtotal(a + b) == Subtotal(a) + Subtotal(b)
  {
    if a == [] {
      assert a + b == b;
    } else {
      assert (a + b)[1..] == a[1..] + b;
      SubtotalAppend(a[1..], b);
    }
  }

  /** Replacing one line changes the subtotal by the difference of the two lines. */
  lemma {:induction false} SubtotalReplace(cart: seq<CartItem>, k: nat, item: CartItem)
    requires k < |cart|
    ensures Subtotal(cart[k := item]) == Subtotal(cart) - BaseLineTotal(cart[k]) + BaseLineTotal(item)
  {
    if k > 0 {
      assert cart[k := item][1..] == cart[1..][k - 1 := item];
      SubtotalReplace(cart[1..], k - 1, item);
    } else {
      assert cart[k := item][1..] == cart[1..];
    }
  }

  lemma BumpLineTotal(item: CartItem, q: int)
    ensures BaseLineTotal(item.(quantity := item.quantity + q)) == BaseLineTotal(item) + item.product.price * q
  {
    var p, n := item.product.price, item.quantity;
    assert p * (n + q) == p * n + p * q;
  }

  lemma SubtotalBumpAt(cart: seq<CartItem>, k: nat, q: int)
    requires k < |cart|
    ensures Subtotal(cart[k := cart[k].(quantity := cart[k].quantity + q)]) == Subtotal(cart) + cart[k].product.price * q
  {
    SubtotalReplace(cart, k, cart[k].(quantity := cart[k].quantity + q));
    BumpLineTotal(cart[k], q);
  }

  /** Adding to an existing line raises the subtotal by that line's base price times
      the quantity added. */
  lemma AddExistingSubtotal(cart: seq<CartItem>, product: Product, quantity: int,
                            alternative: Option<Product>, k: nat)
    requires UniqueKeys(cart) && k < |cart| && Key(cart[k]) == (product.id, AltId(alternative))
    ensures Subtotal(CartWithAdded(cart, product, quantity, alternative))
         == Subtotal(cart) + cart[k].product.price * quantity
  {
    AddToExistingLine(cart, product, quantity, alternative, k);
    SubtotalBumpAt(cart, k, quantity);
  }

  /** Adding a new line raises the subtotal by the base price times the quantity. */
  lemma AddNewSubtotal(cart: seq<CartItem>, product: Product, quantity: int, alternative: Option<Product>)
    requires !HasLine(cart, (product.id, AltId(alternative)))
    ensures Subtotal(CartWithAdded(cart, product, quantity, alternative)) == Subtotal(cart) + product.price * quantity
  {
    AddNewLine(cart, product, quantity, alternative);
    SubtotalAppend(cart, [CartItem(product, quantity, alternative)]);
  }

  /** `subtotal > 100 ? 0 : 5.99` */
  function Shipping(subtotal: int): (s: int)
    ensures s == 0 <==> subtotal > FreeShippingOver
    ensures s != 0 ==> s == StandardShipping
  {
    if subtotal > FreeShippingOver then 0 else StandardShipping
  }

  function Total(cart: seq<CartItem>): (t: int)
    ensures t == Subtotal(cart) + Shipping(Subtotal(cart))
    ensures t >= Subtotal(cart)
  {
    Subtotal(cart) + Shipping(Subtotal(cart))
  }

  /** The "add X € for free shipping" banner: shown below 100 €, with the amount missing. */
  function FreeShippingHint(subtotal: int): (h: Option<int>)
    ensures h.Some? <==> subtotal < FreeShippingOver
    ensures h.Some? ==> h.value > 0 && subtotal + h.value == FreeShippingOver
  {
    if subtotal < FreeShippingOver then Some(FreeShippingOver - subtotal) else None
  }

  /** When a hint shows, following it exactly still costs shipping: the hint asks
      to reach 100 € and free shipping starts above it. */
  lemma HintIsOneCentShort(subtotal: int)
    ensures FreeShippingHint(subtotal).None? && Shipping(subtotal) != 0 <==> subtotal == FreeShippingOver
    ensures FreeShippingHint(subtotal).Some? ==>
      Shipping(subtotal + FreeShippingHint(subtotal).value) == StandardShipping
  {
  }

  /** The title's "(N articles)": the number of lines, not of units, so it never
      exceeds the navbar badge while every line has a unit. */
  function ArticleCount(cart: seq<CartItem>): (n: nat)
    ensures n == |cart|
    ensures PositiveQuantities(cart) ==> n <= CartCount(cart)
  {
    LinesAtMostUnits(cart);
    |cart|
  }

  lemma {:induction false} LinesAtMostUnits(cart: seq<CartItem>)
    ensures PositiveQuantities(cart) ==> |cart| <= CartCount(cart)
  {
    if cart != [] && PositiveQuantities(cart) {
      assert PositiveQuantities(cart[1..]) by {
        forall i | 0 <= i < |cart[1..]| ensures cart[1..][i].quantity >= 1 {
          assert cart[1..][i] == cart[i + 1];
        }
      }
      LinesAtMostUnits(cart[1..]);
    }
  }

  /** Two units of one product count as one article, while the navbar badge shows 2. */
  lemma ArticlesAreLines(p: Product)
    ensures ArticleCount([CartItem(p, 2, None)]) == 1
    ensures CartCount([CartItem(p, 2, None)]) == 2
  {
  }

  /** `item.selectedAlternative || item.product`: the product a line shows. */
  function ShownProduct(item: CartItem): Product {
    item.selectedAlternative.GetOr(item.product)
  }

  /** The price shown on a line: the alternative's, when one is selected. */
  function DisplayedLineTotal(item: CartItem): (t: int)
    ensures item.selectedAlternative.None? ==> t == BaseLineTotal(item)
  {
    ShownProduct(item).price * item.quantity
  }

  function DisplayedSum(cart: seq<CartItem>): int {
    if cart == [] then 0 else DisplayedLineTotal(cart[0]) + DisplayedSum(cart[1..])
  }

  /** When every line shows the price it is charged at, the subtotal is the sum of the
      shown lines. */
  lemma {:induction false} SubtotalMatchesDisplay(cart: seq<CartItem>)
    requires forall i :: 0 <= i < |cart| ==> ShownProduct(cart[i]).price == cart[i].product.price
    ensures Subtotal(cart) == DisplayedSum(cart)
  {
    if cart != [] {
      assert forall i :: 0 <= i < |cart[1..]| ==> cart[1..][i] == cart[i + 1];
      SubtotalMatchesDisplay(cart[1..]);
    }
  }

  /** With an alternative selected at another price, the summary and the line disagree. */
  lemma SubtotalIgnoresAlternative(p: Product, alt: Product, quantity: int)
    requires quantity != 0 && alt.price != p.price
    ensures Subtotal([CartItem(p, quantity, Some(alt))]) != DisplayedSum([CartItem(p, quantity, Some(alt))])
  {
    var item := CartItem(p, quantity, Some(alt));
    assert Subtotal([item]) == p.price * quantity;
    assert DisplayedSum([item]) == alt.price * quantity;
    assert (p.price - alt.price) * quantity != 0;
  }

  /** Every line has at least one unit. */
  predicate PositiveQuantities(cart: seq<CartItem>) {
    forall i :: 0 <= i < |cart| ==> cart[i].quantity >= 1
  }

  /** `handleQuantityChange(id, q)`: 0 or less removes the product's lines, otherwise
      they all take the new quantity; positive quantities stay positive. */
  method HandleQuantityChange(store: CatalogStore, productId: string, newQuantity: int)
    requires store.Valid()
    modifies store
    ensures store.Valid()
    ensures newQuantity <= 0 ==> store.cart == CartWithout(old(store.cart), productId)
    ensures newQuantity > 0 ==> store.cart == CartWithQuantity(old(store.cart), productId, newQuantity)
    ensures PositiveQuantities(old(store.cart)) ==> PositiveQuantities(store.cart)
    ensures store.products == old(store.products) && store.filteredProducts == old(store.filteredProducts)
    ensures store.filters == old(store.filters) && store.selectedProduct == old(store.selectedProduct)
  {
    if newQuantity <= 0 {
      store.RemoveFromCart(productId);
    } else {
      QuantityUpdated(store.cart, productId, newQuantity);
      store.UpdateCartQuantity(productId, newQuantity);
    }
  }
}
