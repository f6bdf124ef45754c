/** The checkout wizard (`app/checkout/page.tsx`): the totals with a choice of
    standard or express delivery, the three-step counter, the form, the order the
    page submits and the redirects guarding the page.  Amounts are integer cents. */
module CheckoutPage {
  import opened Wrappers
  import opened Catalog
  import Cart = CartPage

  const ExpressShipping: int := 999

  /** `shippingMethod === "express" ? 9.99 : subtotal > 100 ? 0 : 5.99` */
  function Shipping(subtotal: int, shippingMethod: string): (s: int)
    ensures shippingMethod == "express" ==> s == ExpressShipping
    ensures shippingMethod != "express" ==> s == Cart.Shipping(subtotal)
  {
    if shippingMethod == "express" then ExpressShipping else Cart.Shipping(subtotal)
  }

  /** The checkout subtotal is the cart page's: base prices times quantities. */
  function Total(cart: seq<CartItem>, shippingMethod: string): (t: int)
    ensures t == Cart.Subtotal(cart) + Shipping(Cart.Subtotal(cart), shippingMethod)
  {
    var subtotal := Cart.Subtotal(cart);
    subtotal + Shipping(subtotal, shippingMethod)
  }

  /** With standard delivery the checkout total is the cart page's total; express
      costs 9.99 € whatever the subtotal, even above the free-shipping threshold. */
  lemma TotalsAgree(cart: seq<CartItem>)
    ensures Total(cart, "standard") == Cart.Total(cart)
    ensures Total(cart, "express") == Cart.Subtotal(cart) + ExpressShipping
    ensures Cart.Subtotal(cart) > Cart.FreeShippingOver ==> Total(cart, "express") > Cart.Total(cart)
  {
  }

  /** `handleNextStep`: forward, but not past step 3. */
  function NextStep(step: int): (r: int)
    ensures step < 3 ==> r == step + 1
    ensures step >= 3 ==> r == step
  {
    if step < 3 then step + 1 else step
  }

  /** `handlePrevStep`: back, but not before step 1. */
  function PrevStep(step: int): (r: int)
    ensures step > 1 ==> r == step - 1
    ensures step <= 1 ==> r == step
  {
    if step > 1 then step - 1 else step
  }

  /** Both moves keep the step in 1..3, and inside the range each undoes the other. */
  lemma StepsStayInRange(step: int)
    requires 1 <= step <= 3
    ensures 1 <= NextStep(step) <= 3 && 1 <= PrevStep(step) <= 3
    ensures step < 3 ==> PrevStep(NextStep(step)) == step
    ensures step > 1 ==> NextStep(PrevStep(step)) == step
  {
  }

  /** Two presses of "next" from the start reach the payment step, and further
      presses stay there. */
  lemma NextReachesPayment()
    ensures NextStep(NextStep(1)) == 3 && NextStep(3) == 3
  {
  }

  /** The form's initial values, by input name. */
  const InitialForm: map<string, string> := map[
    "firstName" := "", "lastName" := "", "street" := "", "city" := "",
    "postalCode" := "", "country" := "France", "phone" := "",
    "shippingMethod" := "standard",
    "cardNumber" := "", "expiryDate" := "", "cvv" := "", "cardName" := ""]

  /** A form field's value; a name the form never had reads as empty. */
  function Field(form: map<string, string>, name: string): string {
    if name in form then form[name] else ""
  }

  /** `setFormData(prev => ({ ...prev, [name]: value }))` */
  function WithField(form: map<string, string>, name: string, value: string): (r: map<string, string>)
    ensures Field(r, name) == value
    ensures forall other :: other in form && other != name ==> other in r && r[other] == form[other]
    ensures r.Keys == form.Keys + {name}
  {
    form[name := value]
  }

  /** Choosing the express radio button switches the charge to 9.99 €. */
  lemma ChooseExpress(form: map<string, string>, cart: seq<CartItem>)
    ensures Total(cart, Field(WithField(form, "shippingMethod", "express"), "shippingMethod"))
         == Cart.Subtotal(cart) + ExpressShipping
  {
  }

  /** One line of the submitted order. */
  datatype OrderLine = OrderLine(product: Product, quantity: int, price: int)

  datatype OrderAddress = OrderAddress(street: string, city: string, postalCode: string, country: string)

  /** The object the page hands to `addOrder`. */
  datatype OrderPayload = OrderPayload(status: string, items: seq<OrderLine>, total: int, shippingAddress: OrderAddress)

  /** `cart.map(...)`: one line per cart line, in cart order, at the shown product. */
  function OrderLines(cart: seq<CartItem>): (r: seq<OrderLine>)
    ensures |r| == |cart|
    ensures forall i :: 0 <= i < |cart| ==>
      && r[i].product == Cart.ShownProduct(cart[i])
      && r[i].quantity == cart[i].quantity
      && r[i].price == Cart.ShownProduct(cart[i]).price
  {
    seq(|cart|, i requires 0 <= i < |cart| =>
      OrderLine(Cart.ShownProduct(cart[i]), cart[i].quantity, Cart.ShownProduct(cart[i]).price))
  }

  function LinesSum(lines: seq<OrderLine>): int {
    if lines == [] then 0 else lines[0].price * lines[0].quantity + LinesSum(lines[1..])
  }

  /** Each submitted line is charged as the cart page displays it, so the lines add up
      to the displayed sum, not to the subtotal the total is built from. */
  lemma {:induction false} LinesSumIsDisplayedSum(cart: seq<CartItem>)
    ensures LinesSum(OrderLines(cart)) == Cart.DisplayedSum(cart)
  {
    if cart != [] {
      LinesSumIsDisplayedSum(cart[1..]);
      assert OrderLines(cart)[1..] == OrderLines(cart[1..]);
    }
  }

  /** The order `handleSubmitOrder` builds from the cart and the form. */
  function SubmittedOrder(cart: seq<CartItem>, form: map<string, string>): (o: OrderPayload)
    ensures o.status == "processing"
    ensures o.items == OrderLines(cart)
    ensures o.total == Total(cart, Field(form, "shippingMethod"))
    ensures o.shippingAddress == OrderAddress(Field(form, "street"), Field(form, "city"),
                                              Field(form, "postalCode"), Field(form, "country"))
  {
    OrderPayload("processing", OrderLines(cart), Total(cart, Field(form, "shippingMethod")),
                 OrderAddress(Field(form, "street"), Field(form, "city"),
                              Field(form, "postalCode"), Field(form, "country")))
  }

  /** What the page does before rendering. */
  datatype View = RedirectToCart | RedirectToLogin | Render

  /** An empty cart sends to the cart first; otherwise an anonymous visitor is sent
      to the login page. */
  function CheckoutView(cart: seq<CartItem>, isAuthenticated: bool): (v: View)
    ensures v == Render <==> |cart| > 0 && isAuthenticated
    ensures |cart| == 0 ==> v == RedirectToCart
    ensures |cart| > 0 && !isAuthenticated ==> v == RedirectToLogin
  {
    if |cart| == 0 then RedirectToCart else if !isAuthenticated then RedirectToLogin else Render
  }

  class CheckoutState {
    var currentStep: int
    var isProcessing: bool
    var formData: map<string, string>

    ghost predicate Valid()
      reads this
    {
      1 <= currentStep <= 3
    }

    constructor ()
      ensures Valid()
      ensures currentStep == 1 && !isProcessing && formData == InitialForm
    {
      currentStep := 1;
      isProcessing := false;
      formData := InitialForm;
    }

    method HandleInputChange(name: string, value: string)
      requires Valid()
      modifies this
      ensures Valid()
      ensures formData == WithField(old(formData), name, value)
      ensures currentStep == old(currentStep) && isProcessing == old(isProcessing)
    {
      formData := WithField(formData, name, value);
    }

    method HandleNextStep()
      requires Valid()
      modifies this
      ensures Valid()
      ensures currentStep == NextStep(old(currentStep))
      ensures formData == old(formData) && isProcessing == old(isProcessing)
    {
      if currentStep < 3 {
        currentStep := currentStep + 1;
      }
    }

    method HandlePrevStep()
      requires Valid()
      modifies this
      ensures Valid()
      ensures currentStep == PrevStep(old(currentStep))
      ensures formData == old(formData) && isProcessing == old(isProcessing)
    {
      if currentStep > 1 {
        currentStep := currentStep - 1;
      }
    }

    /** `handleSubmitOrder` (offered on the payment step, disabled while processing):
        the order built from the cart as it was, then an emptied cart. */
    method HandleSubmitOrder(store: CatalogStore) returns (order: OrderPayload)
      requires Valid() && store.Valid()
      requires currentStep == 3 && !isProcessing
      modifies this, store
      ensures Valid() && store.Valid()
      ensures order == SubmittedOrder(old(store.cart), formData)
      ensures store.cart == []
      ensures isProcessing
      ensures currentStep == old(currentStep) && formData == old(formData)
      ensures store.products == old(store.products) && store.filteredProducts == old(store.filteredProducts)
      ensures store.filters == old(store.filters) && store.selectedProduct == old(store.selectedProduct)
    {
      isProcessing := true;
      order := SubmittedOrder(store.cart, formData);
      store.ClearCart();
    }

    /** `handleSubmitOrder` as the page is written: `addOrder` is not a member of the
        order store, so the call throws right after the processing flag is set; no
        order is placed, the cart is kept and the flag stays set. */
    method HandleSubmitOrderAsWritten(store: CatalogStore)
      requires Valid() && store.Valid()
      requires currentStep == 3 && !isProcessing
      modifies this
      ensures Valid() && isProcessing
      ensures store.cart == old(store.cart)
      ensures currentStep == old(currentStep) && formData == old(formData)
    {
      isProcessing := true;
    }
  }
}
