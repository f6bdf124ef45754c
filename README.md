# SOS-Auto storefront core, in Dafny

SOS-Auto is a French car-parts web shop built with Next.js and zustand. This project models the logic behind it:

- **The three stores:**
  - the catalogue and cart store (`Catalog`);
  - the order repository (`Orders`);
  - the authentication and user directory (`Auth`).
- **The pure helpers and handler guards of the pages built on the stores:**
  - the stock classification of the product card and of the product modal, with its quantity stepper;
  - the cart and checkout totals;
  - the checkout and expert-consultation wizards;
  - the account dashboard, order history and personal-details form;
  - the catalogue search bar;
  - the account sidebar.

All prices and totals are integer cents: 100 € is `10000`, the 5.99 € shipping fee is `599`, and the slider range 0 to 1000 € is `(0, 100000)`.

The module layout is as follows:

- **State a zustand store or a React component updates in place:** a `class` whose methods carry `modifies` clauses. The classes are `Catalog.CatalogStore`, `Orders.OrderStore`, `Auth.AuthStore`, `ProductModal.ModalState`, `CheckoutPage.CheckoutState`, `ExpertPage.ExpertState`, `ProfileDetails.DetailsState` and `SearchBar.SearchBarState`.
- **The `filter`/`map`/`reduce` computations:** functions on sequences, with lemmas relating them.
- **Shared modules:**
  - `Wrappers` (`Option`);
  - `Seqs` (`filter`, `find`, `findIndex`, `slice(0, n)`);
  - `Text` (ASCII `toLowerCase`, `includes`, `startsWith`, `split`, `parseInt`, number-to-string).

Clocks, ids and the product data module are parameters:

- The `year` and millisecond clock reading for an order id.
- The user id and `createdAt` given to `register`.
- The product list given to the catalogue store's constructor.

## Model

| member | source | states |
|---|---|---|
| Catalog.MergeEmpty | stores/catalog-store.ts:60-63 | an empty partial leaves the filters as they are |
| Catalog.MergeFull | stores/catalog-store.ts:60-63 | a partial naming every field replaces the whole filter state |
| Catalog.MergeTwice | stores/catalog-store.ts:60-63 | applying the same partial twice is the same as once |
| Catalog.MergeFilters | stores/catalog-store.ts:60-63 | `{ ...state.filters, ...newFilters }`: each field the partial names replaces the stored one (its laws are the three merge lemmas above) |
| Catalog.SearchTerms | stores/catalog-store.ts:147-150 | the search terms are non-empty and contain no space |
| Catalog.SearchTermsWord | stores/catalog-store.ts:147-150 | a single word without spaces is exactly one term, the lower-cased word |
| Catalog.SearchTermsAppend | stores/catalog-store.ts:147-150 | the terms of `a + " " + b` are the terms of `a` followed by those of `b`, so the terms are the lower-cased space-separated words in order |
| Catalog.Matches | stores/catalog-store.ts:146-186 | the conjunction of the eight step conditions, each guarded by whether its filter is set (equated with the nested filters by `PassesAllSteps`) |
| Catalog.FilterProducts | stores/catalog-store.ts:142-188 | the eight nested `filter` steps of `applyFilters` (shown equal to one filter by `Matches` in `FilterProductsIsOneFilter`) |
| Catalog.PassesAllSteps | stores/catalog-store.ts:142-186 | passing the eight steps in sequence is the conjunction of the eight step conditions, a skipped step imposing nothing |
| Catalog.RunStepsIsOneFilter | stores/catalog-store.ts:143-186 | the first k nested `filter` steps equal one `filter` by the conjunction of their conditions |
| Catalog.FilterProductsIsOneFilter | stores/catalog-store.ts:142-188 | `applyFilters` is one filter of `products` by `Matches` (search terms all contained, exact brand/category/subCategory, parsed year contained in the compatible years, some compatible model containing the text, inclusive price range, stock > 0 when asked) |
| Catalog.FilterProductsMembers | stores/catalog-store.ts:142-188 | a product is shown iff it is in `products` and matches the filters |
| Catalog.FilterProductsIsSubseq | stores/catalog-store.ts:142-188 | the shown list is an order-preserving subsequence of `products` |
| Catalog.FilterProductsIdempotent | stores/catalog-store.ts:142-188 | filtering the filtered list again changes nothing |
| Catalog.InvertedPriceRangeIsEmpty | stores/catalog-store.ts:182 | a minimum above the maximum shows no product at all |
| Catalog.InitialFiltersKeepAll | stores/catalog-store.ts:39-48 | the initial filters show every product priced within 0 to 1000 € |
| Catalog.BlankQueryHasNoTerms | stores/catalog-store.ts:146-150 | a query of spaces only yields no term, so it keeps every product |
| Catalog.NameHitMatches | stores/catalog-store.ts:151-155 | a product whose lower-cased name contains every term passes the search step |
| Catalog.PartNumberMatches | stores/catalog-store.ts:82-86 | exactly the products of the full list whose lower-cased part number contains the lower-cased query are kept, each as many times as it occurs in the list |
| Catalog.Bump | stores/catalog-store.ts:100-104 | the `map` keeps the length and every line's key |
| Catalog.CartWithout | stores/catalog-store.ts:121-125 | the lines left are exactly the cart's lines with another base product id, whatever their alternative |
| Catalog.CartWithQuantity | stores/catalog-store.ts:127-131 | the `map` keeps the length and every key |
| Catalog.CartCountAppend | components/layout/navbar.tsx:17 | the badge count of two carts put together is the sum of their counts |
| Catalog.CartCount | components/layout/navbar.tsx:17 | the badge: the sum of the line quantities; how it changes is stated per operation by `AddToCartCount` (add), `RemoveCartCount` (remove), `QuantityCartCount` (update) and `CatalogStore.ClearCart` (clear: 0) |
| Catalog.BumpElsewhere | stores/catalog-store.ts:100-104 | bumping a key the cart does not have changes nothing |
| Catalog.BumpAt | stores/catalog-store.ts:100-104 | with unique keys, only the matching line's quantity grows, and the badge grows by the quantity |
| Catalog.AddToExistingLine | stores/catalog-store.ts:94-105 | when a line has the same product id and alternative id (two absent alternatives being equal), only its quantity grows by `quantity`; the length is unchanged |
| Catalog.AddNewLine | stores/catalog-store.ts:108-117 | otherwise exactly one new line is appended at the end, and the badge grows by the quantity |
| Catalog.CartWithAdded | stores/catalog-store.ts:92-119 | `addToCart` on the cart value: bump the line with the same (product id, alternative id) key if there is one, else append a line (its effect is stated by `AddToExistingLine` and `AddNewLine`) |
| Catalog.AddToCartCount | stores/catalog-store.ts:92-119 | every `addToCart` raises the navbar badge by the quantity added |
| Catalog.AddKeepsUniqueKeys | stores/catalog-store.ts:92-119 | adding never creates a second line for a (product, alternative) pair |
| Catalog.WhereKeepsUniqueKeys | stores/catalog-store.ts:123 | dropping lines keeps keys unique |
| Catalog.RemoveKeepsUniqueKeys | stores/catalog-store.ts:121-125 | removal keeps keys unique |
| Catalog.RemoveIsSubseq | stores/catalog-store.ts:121-125 | removal keeps the remaining lines in order |
| Catalog.QuantityUpdated | stores/catalog-store.ts:127-131 | every line of that base product gets the quantity, unvalidated, and every other line is unchanged |
| Catalog.ProductUnits | stores/catalog-store.ts:121-125 | the units on the lines of one base product, whatever their alternative |
| Catalog.ProductLines | stores/catalog-store.ts:127-131 | the number of lines of one base product |
| Catalog.RemoveCartCount | stores/catalog-store.ts:121-125 | removal lowers the badge by exactly that product's units and leaves no line of it |
| Catalog.QuantityCartCount | stores/catalog-store.ts:127-131 | the badge loses that product's units and gains the new quantity once per line of it |
| Catalog.QuantityKeepsUniqueKeys | stores/catalog-store.ts:127-131 | setting quantities keeps keys unique |
| Catalog.CatalogStore.constructor | stores/catalog-store.ts:53-58 | initial state: all products shown, initial filters, nothing selected, empty cart |
| Catalog.CatalogStore.ApplyFilters | stores/catalog-store.ts:137-190 | the shown list becomes the filter of `products` by the current filters; nothing else changes |
| Catalog.CatalogStore.SetFilters | stores/catalog-store.ts:60-65 | the partial's fields overwrite the filters, the others stay, and the list is re-filtered |
| Catalog.CatalogStore.SearchProducts | stores/catalog-store.ts:67-80 | the query is stored and the list re-filtered |
| Catalog.CatalogStore.SearchByPartNumber | stores/catalog-store.ts:82-86 | the shown list becomes the part-number matches of all products; the filters are untouched |
| Catalog.CatalogStore.SelectProduct | stores/catalog-store.ts:88-90 | only the selected product changes |
| Catalog.CatalogStore.AddToCart | stores/catalog-store.ts:92-119 | the cart becomes the merge-or-append result and its badge grows by the quantity; the keys stay unique |
| Catalog.CatalogStore.RemoveFromCart | stores/catalog-store.ts:121-125 | the cart loses every line of that base product, and the badge drops by its units |
| Catalog.CatalogStore.UpdateCartQuantity | stores/catalog-store.ts:127-131 | every line of that base product takes the quantity, and the badge changes accordingly |
| Catalog.CatalogStore.ClearCart | stores/catalog-store.ts:133-135 | the cart is empty and the badge 0; nothing else changes |
| Orders.StatusName | stores/order-store.ts:22 | each status is stored as one of the five literals |
| Orders.StatusNameInjective | stores/order-store.ts:22 | distinct statuses have distinct literals |
| Orders.StampKeepsData | stores/order-store.ts:126-130 | the stored order carries the given fields verbatim plus the id and `createdAt` |
| Orders.Stamp | stores/order-store.ts:126-130 | `{ ...orderData, id, createdAt }` (its content is stated by `StampKeepsData`) |
| Orders.LastChars | stores/order-store.ts:125 | `slice(-n)` keeps the last n characters, or all of them when fewer |
| Orders.LastThreeDigits | stores/order-store.ts:125 | from 100 ms on, the id suffix is the clock's hundreds, tens and units digits |
| Orders.OrderIdsCollide | stores/order-store.ts:125 | two orders a whole second apart in the same year get the same id |
| Orders.OrderIdFor | stores/order-store.ts:125 | `ORD-<year>-<last three characters of the clock reading>` (collisions stated by `OrderIdsCollide`) |
| Orders.FindOrder | stores/order-store.ts:144-146 | null iff no order has the id; otherwise the first order with it |
| Orders.OrdersOfUser | stores/order-store.ts:140-142 | exactly the orders with that `userId`, each as many times as it is stored |
| Orders.OrdersOfUserInOrder | stores/order-store.ts:140-142 | in stored order |
| Orders.WithStatus | stores/order-store.ts:148-154 | the list length is kept |
| Orders.WithStatusAt | stores/order-store.ts:148-154 | orders with the id get the new status and nothing else changes; the other orders are untouched |
| Orders.UnknownIdUnchanged | stores/order-store.ts:148-154 | an unknown id changes nothing |
| Orders.FindAfterUpdate | stores/order-store.ts:144-154 | looking the id up after an update gives the old order with the new status, whatever it was before |
| Orders.FirstMatch | stores/order-store.ts:145 | the first order with the id is the one found |
| Orders.DeliveredIsNotFinal | stores/order-store.ts:148-154 | a delivered order can be set back to pending |
| Orders.FindAfterAppend | stores/order-store.ts:132-146 | after `createOrder`, the new id finds the new order unless an earlier order already had that id |
| Orders.MockOrdersConsistent | stores/order-store.ts:47-116 | each seed order's subtotal is the sum of price × quantity and its total is subtotal + shipping |
| Orders.ItemsSubtotal | stores/order-store.ts:47-116 | the sum of price × quantity over an order's items, against which the seed subtotals are checked |
| Orders.CreateChecksNothing | stores/order-store.ts:124-131 | an order with inconsistent amounts is stored as given |
| Orders.OrderStore.constructor | stores/order-store.ts:121-122 | starts with the seed orders and no current order |
| Orders.OrderStore.CreateOrder | stores/order-store.ts:124-138 | returns the clock-based id, appends exactly one stamped order at the end and makes it current |
| Orders.OrderStore.GetOrdersByUserId | stores/order-store.ts:140-142 | returns the user's orders, changing nothing |
| Orders.OrderStore.GetOrderById | stores/order-store.ts:144-146 | returns the first order with the id or null, changing nothing |
| Orders.OrderStore.UpdateOrderStatus | stores/order-store.ts:148-154 | rewrites the statuses of the matching orders, with no transition restriction |
| Auth.MockUsersDistinct | stores/auth-store.ts:32-57 | the seed users have distinct e-mails |
| Auth.FindByEmail | stores/auth-store.ts:70 | null iff no user has the e-mail; otherwise the first user with it |
| Auth.FindByEmailUnique | stores/auth-store.ts:70 | with distinct e-mails, the user with that e-mail is found |
| Auth.SeedClientFound | stores/auth-store.ts:32-47 | `client@test.com` finds the first seed user |
| Auth.Merge | stores/auth-store.ts:109 | a partial naming `address` replaces it wholesale; otherwise it stays |
| Auth.MergeEmpty | stores/auth-store.ts:109 | an empty partial changes nothing |
| Auth.MergeTwice | stores/auth-store.ts:109 | merging the same partial twice is the same as once |
| Auth.MergeReplacesAddress | stores/auth-store.ts:109 | the merge is shallow: the new address object replaces the old one |
| Auth.MergeFull | stores/auth-store.ts:109 | a partial naming every field replaces the user |
| Auth.ReplaceById | stores/auth-store.ts:113-116 | the directory length is kept |
| Auth.ReplaceByIdAt | stores/auth-store.ts:113-116 | only the first entry with that id is replaced; an unknown id changes nothing |
| Auth.RegisterKeepsDistinct | stores/auth-store.ts:84-97 | appending a user whose e-mail is absent keeps e-mails distinct |
| Auth.NewUser | stores/auth-store.ts:91-96 | the registered fields plus the given id and `createdAt` (used by `AuthStore.Register`, whose contract states the appended user) |
| Auth.UpdateCanDuplicateEmail | stores/auth-store.ts:106-118 | an update can give the user another entry's e-mail |
| Auth.AuthStore.constructor | stores/auth-store.ts:32-63 | logged out, directory = seed users |
| Auth.AuthStore.Login | stores/auth-store.ts:65-78 | succeeds iff some user has exactly that e-mail, whatever the password; on success logs in as the first match, on failure changes nothing |
| Auth.AuthStore.Register | stores/auth-store.ts:80-100 | fails and changes nothing iff the e-mail is taken; otherwise appends exactly one user and logs in as it; distinct e-mails are preserved |
| Auth.AuthStore.Logout | stores/auth-store.ts:102-104 | logged out, directory unchanged |
| Auth.AuthStore.UpdateUser | stores/auth-store.ts:106-118 | no effect without a user; otherwise the user becomes the merge and the directory entry with its id is replaced by it; the session flag still matches the user |
| ProductCard.OutMessage | components/catalog/product-card.tsx:24-26 | a restock message iff a non-empty date is set, "Rupture de stock" otherwise |
| ProductCard.GetStockStatus | components/catalog/product-card.tsx:14-45 | out iff stock is 0; low iff stock is non-zero and at most the threshold; otherwise high iff above twice the threshold, else medium; exactly one of in stock / out of stock; low implies in stock |
| ProductCard.LevelDeterminesFlags | components/catalog/product-card.tsx:14-45 | the three flags follow from the level |
| ProductCard.LevelBands | components/catalog/product-card.tsx:17-43 | for non-negative values: out at 0, low up to the threshold, medium up to twice it, high beyond |
| ProductCard.NegativeStockIsLow | components/catalog/product-card.tsx:17-35 | a negative stock is classified low and in stock |
| ProductCard.HandleAddToCart | components/catalog/product-card.tsx:56-61 | adds one unit of the product, without alternative, iff in stock; the selected product is unchanged |
| ProductModal.GetStockStatus | components/catalog/product-modal.tsx:45-85 | the same flag rules as the card |
| ProductModal.AgreesWithCard | components/catalog/product-modal.tsx:45-85 | flags, level and restock date equal the card's for every product; the messages agree only when out of stock |
| ProductModal.CurrentProduct | components/catalog/product-modal.tsx:101 | the alternative if one is selected, else the base product |
| ProductModal.AlternativeDrivesStatus | components/catalog/product-modal.tsx:101-102 | status and price come from the selected alternative |
| ProductModal.Decrement | components/catalog/product-modal.tsx:323 | max(1, q − 1): never below 1 |
| ProductModal.Increment | components/catalog/product-modal.tsx:330 | min(stock, q + 1): never above the shown product's stock |
| ProductModal.StepperInverse | components/catalog/product-modal.tsx:323-330 | within the bounds, minus undoes plus and plus undoes minus |
| ProductModal.StepperStaysInRange | components/catalog/product-modal.tsx:323-330 | from 1..stock, both buttons stay in 1..stock |
| ProductModal.Stars | components/catalog/product-modal.tsx:132-145 | star i (1 to 5) is filled iff i ≤ rating |
| ProductModal.StarsArePrefix | components/catalog/product-modal.tsx:132-145 | filled stars form a prefix; 4.5 fills four |
| ProductModal.ModalState.constructor | components/catalog/product-modal.tsx:89-90 | no alternative, quantity 1 |
| ProductModal.ModalState.SelectAlternative | components/catalog/product-modal.tsx:193-206 | the selection changes, the quantity stays |
| ProductModal.ModalState.Minus | components/catalog/product-modal.tsx:323 | quantity becomes max(1, q − 1) |
| ProductModal.ModalState.Plus | components/catalog/product-modal.tsx:330 | quantity becomes min(stock, q + 1) of the shown product |
| ProductModal.ModalState.HandleAddToCart | components/catalog/product-modal.tsx:105-110 | when the shown product is in stock, adds the base product with the chosen quantity and alternative and deselects; otherwise nothing |
| CartPage.SubtotalAppend | app/cart/page.tsx:15 | the subtotal of two carts put together is the sum of the two |
| CartPage.Subtotal | app/cart/page.tsx:15 | the sum of base price × quantity over the lines (its growth under `addToCart` is stated by `AddExistingSubtotal` and `AddNewSubtotal`) |
| CartPage.SubtotalReplace | app/cart/page.tsx:15 | replacing one line changes the subtotal by the difference of the lines |
| CartPage.BumpLineTotal | app/cart/page.tsx:15 | raising a line's quantity raises its base total by price × added quantity |
| CartPage.SubtotalBumpAt | app/cart/page.tsx:15 | the same, for the whole cart |
| CartPage.AddExistingSubtotal | app/cart/page.tsx:15 | adding to an existing line raises the subtotal by that line's base price × quantity |
| CartPage.AddNewSubtotal | app/cart/page.tsx:15 | adding a new line raises it by base price × quantity |
| CartPage.Shipping | app/cart/page.tsx:16 | 0 iff the subtotal exceeds 100 €, 5.99 € otherwise |
| CartPage.Total | app/cart/page.tsx:17 | subtotal + shipping, never below the subtotal |
| CartPage.FreeShippingHint | app/cart/page.tsx:198-203 | shown iff the subtotal is below 100 €, with the positive amount that reaches 100 € exactly |
| CartPage.HintIsOneCentShort | app/cart/page.tsx:198-203 | at exactly 100 € there is no hint yet shipping is charged; topping up by the hint still pays shipping |
| CartPage.ArticleCount | app/cart/page.tsx:77 | the number of lines, not of units: while every line holds at least one unit it never exceeds the navbar badge |
| CartPage.ArticlesAreLines | app/cart/page.tsx:77 | two units of one product are one article but a badge of 2 |
| CartPage.DisplayedLineTotal | app/cart/page.tsx:152 | without alternative, the shown line total is the base line total |
| CartPage.ShownProduct | app/cart/page.tsx:152 | the product a line shows: its selected alternative if any, else its base product |
| CartPage.DisplayedSum | app/cart/page.tsx:150-153 | the sum of the shown line totals (compared with the subtotal by `SubtotalMatchesDisplay` and `SubtotalIgnoresAlternative`) |
| CartPage.SubtotalMatchesDisplay | app/cart/page.tsx:15 | when every shown price is the base price, the subtotal is the sum of the shown lines |
| CartPage.SubtotalIgnoresAlternative | app/cart/page.tsx:152 | with an alternative at another price, the subtotal and the shown line disagree |
| CartPage.HandleQuantityChange | app/cart/page.tsx:19-25 | ≤ 0 removes the product's lines, otherwise sets their quantity; positive quantities stay positive |
| CheckoutPage.Shipping | app/checkout/page.tsx:41 | express is always 9.99 €; standard follows the cart rule |
| CheckoutPage.Total | app/checkout/page.tsx:40-42 | base-price subtotal + shipping |
| CheckoutPage.TotalsAgree | app/checkout/page.tsx:40-42 | standard equals the cart page total; express costs more above the threshold |
| CheckoutPage.NextStep | app/checkout/page.tsx:55-59 | increments only below 3 |
| CheckoutPage.PrevStep | app/checkout/page.tsx:61-65 | decrements only above 1 |
| CheckoutPage.StepsStayInRange | app/checkout/page.tsx:55-65 | the step stays in 1..3, and inside the range each move undoes the other |
| CheckoutPage.NextReachesPayment | app/checkout/page.tsx:55-59 | two presses from 1 reach 3, which is a fixed point |
| CheckoutPage.WithField | app/checkout/page.tsx:50-53 | the named field takes the value; every other field stays |
| CheckoutPage.ChooseExpress | app/checkout/page.tsx:41 | choosing express makes the total subtotal + 9.99 € |
| CheckoutPage.OrderLines | app/checkout/page.tsx:76-80 | one line per cart line, in order, with the shown product, its price and the quantity |
| CheckoutPage.LinesSumIsDisplayedSum | app/checkout/page.tsx:76-80 | the submitted lines add up to the displayed sum, not to the subtotal |
| CheckoutPage.LinesSum | app/checkout/page.tsx:76-80 | the sum of price × quantity over the submitted lines (equated with the displayed sum by `LinesSumIsDisplayedSum`) |
| CheckoutPage.SubmittedOrder | app/checkout/page.tsx:74-88 | status "processing", the mapped lines, the page total and the form's address |
| CheckoutPage.CheckoutView | app/checkout/page.tsx:97-105 | renders iff the cart is non-empty and the user is logged in; an empty cart redirects to the cart first |
| CheckoutPage.CheckoutState.constructor | app/checkout/page.tsx:13-33 | step 1, not processing, the initial form |
| CheckoutPage.CheckoutState.HandleInputChange | app/checkout/page.tsx:50-53 | the form gets the field |
| CheckoutPage.CheckoutState.HandleNextStep | app/checkout/page.tsx:55-59 | the step becomes its next step |
| CheckoutPage.CheckoutState.HandlePrevStep | app/checkout/page.tsx:61-65 | the step becomes its previous step |
| CheckoutPage.CheckoutState.HandleSubmitOrder | app/checkout/page.tsx:67-95 | builds the order from the cart as it was, then empties the cart; processing stays set |
| CheckoutPage.CheckoutState.HandleSubmitOrderAsWritten | app/checkout/page.tsx:67-74 | the handler as written: the processing flag is set, then the call to the missing `addOrder` throws, so no order is built and the cart is kept |
| ExpertPage.ContactMethodName | app/conseil-expert/page.tsx:401 | every contact method is a non-empty string |
| ExpertPage.InitialConsultation | app/conseil-expert/page.tsx:31-47 | blank vehicle, `requestedPart` = the `name` parameter or "", medium urgency, phone contact |
| ExpertPage.WithVehicleFieldGet | app/conseil-expert/page.tsx:67-72 | setting a vehicle field changes that field only |
| ExpertPage.WithVehicleFieldSame | app/conseil-expert/page.tsx:67-72 | writing back a field's own value changes nothing |
| ExpertPage.WithVehicleField | app/conseil-expert/page.tsx:67-72 | `{ ...prev.vehicleInfo, [field]: value }` (stated by `WithVehicleFieldGet` and `WithVehicleFieldSame`) |
| ExpertPage.CanProceedToStep2 | app/conseil-expert/page.tsx:85-86 | brand, model and year all non-empty |
| ExpertPage.CanProceedToStep3 | app/conseil-expert/page.tsx:87 | requested part and description both non-empty |
| ExpertPage.CanSubmit | app/conseil-expert/page.tsx:88 | contact details and contact method both non-empty (reduced to the contact details by `CanSubmitIffContactInfo`) |
| ExpertPage.CanSubmitIffContactInfo | app/conseil-expert/page.tsx:88 | submittable iff contact details are filled |
| ExpertPage.OptionalFieldsDoNotGate | app/conseil-expert/page.tsx:85-86 | engine and VIN never affect step 2 |
| ExpertPage.NamedProductNeedsDescription | app/conseil-expert/page.tsx:87 | arriving with a product name, step 3 needs only a description |
| ExpertPage.YearOptions | app/conseil-expert/page.tsx:243 | 25 values, the i-th being 2024 − i |
| ExpertPage.YearOptionsRange | app/conseil-expert/page.tsx:243 | from 2024 down to 2000, strictly decreasing, every year in between |
| ExpertPage.ExpertState.constructor | app/conseil-expert/page.tsx:33-50 | step 1, the initial consultation, not submitting or submitted |
| ExpertPage.ExpertState.HandleVehicleInfoChange | app/conseil-expert/page.tsx:67-72 | only `vehicleInfo[f]` changes |
| ExpertPage.ExpertState.SetRequestedPart | app/conseil-expert/page.tsx:313 | only `requestedPart` changes |
| ExpertPage.ExpertState.SetDescription | app/conseil-expert/page.tsx:325 | only `description` changes |
| ExpertPage.ExpertState.SetUrgency | app/conseil-expert/page.tsx:342 | only `urgency` changes |
| ExpertPage.ExpertState.SetContactMethod | app/conseil-expert/page.tsx:401 | only `contactMethod` changes |
| ExpertPage.ExpertState.SetContactInfo | app/conseil-expert/page.tsx:429-438 | only `contactInfo` changes |
| ExpertPage.ExpertState.ProceedToStep2 | app/conseil-expert/page.tsx:85-86 | offered on step 1 only: step 2 iff brand, model and year are filled, else no change |
| ExpertPage.ExpertState.ProceedToStep3 | app/conseil-expert/page.tsx:87 | offered on step 2 only: step 3 iff part and description are filled, else no change |
| ExpertPage.ExpertState.BackTo | app/conseil-expert/page.tsx:359-478 | from step 2 back to 1 or from step 3 back to 2, nothing cleared |
| ExpertPage.ExpertState.HandleSubmit | app/conseil-expert/page.tsx:74-79 | when submittable and not already submitting, ends submitted; otherwise nothing |
| ProfileDashboard.RecentOrders | app/profile/page.tsx:31 | the first min(3, n) orders in stored order |
| ProfileDashboard.TotalOrders | app/profile/page.tsx:32 | the number of orders, never below the recent list's length or the pending count |
| ProfileDashboard.NewOrderCounted | app/profile/page.tsx:32-33 | a new order raises the order count by one and the amount spent by its total |
| ProfileDashboard.TotalSpent | app/profile/page.tsx:33 | the sum of the stored orders' totals (stated by `TotalSpentAppend` and `SeedTotalSpent`) |
| ProfileDashboard.PendingOrders | app/profile/page.tsx:34 | the number of orders whose status is "processing" (always 0, by `PendingIsAlwaysZero`) |
| ProfileDashboard.TotalSpentAppend | app/profile/page.tsx:33 | every stored order adds its total, whoever placed it |
| ProfileDashboard.SeedTotalSpent | app/profile/page.tsx:33 | the seed history totals 272.77 € |
| ProfileDashboard.PendingIsAlwaysZero | app/profile/page.tsx:34 | no stored status is "processing", so the count is 0 |
| ProfileOrders.FilteredOrders | app/profile/orders/page.tsx:78-80 | "all" gives the orders unchanged; otherwise exactly the orders with that status, each as many times as it is stored |
| ProfileOrders.FilteredInOrder | app/profile/orders/page.tsx:78-80 | in stored order |
| ProfileOrders.ProcessingTabEmpty | app/profile/orders/page.tsx:78-80 | the "processing" tab is always empty |
| ProfileOrders.GetStatusText | app/profile/orders/page.tsx:63-76 | the four fixed labels, "En attente" for anything else |
| ProfileOrders.StatusLabels | app/profile/orders/page.tsx:63-76 | stored statuses: pending and confirmed show "En attente"; "En cours de traitement" never shows |
| ProfileOrders.PreviewItems | app/profile/orders/page.tsx:156 | the first min(3, n) items |
| ProfileOrders.MoreBadge | app/profile/orders/page.tsx:171-177 | "+(n − 3) autres" iff n > 3 |
| ProfileOrders.PreviewAccountsForAll | app/profile/orders/page.tsx:156-177 | preview and badge account for every item |
| ProfileOrders.SeedLineTotals | app/profile/orders/page.tsx:238 | the seed order's line totals would be 45.99 € and 25.00 €, adding up to its subtotal |
| ProfileOrders.LineTotal | app/profile/orders/page.tsx:238 | price × quantity of one item (evaluated on the seed order by `SeedLineTotals`) |
| ProfileOrders.ToggleSelected | app/profile/orders/page.tsx:194 | clicking the open order closes it; any other is opened |
| ProfileOrders.ToggleTwice | app/profile/orders/page.tsx:194 | a second click restores the selection; at most one order is open |
| ProfileDetails.InitForm | app/profile/details/page.tsx:33-44 | the user's fields with "" defaults; the address fields from the user's address, country defaulting to "France" |
| ProfileDetails.BlankUserGetsDefaultForm | app/profile/details/page.tsx:16-44 | a blank user gets exactly the initial form |
| ProfileDetails.EmptyCountryShowsFrance | app/profile/details/page.tsx:42 | an empty country shows "France" |
| ProfileDetails.AddressNameSplits | app/profile/details/page.tsx:59-60 | an `address.` name splits into at least two pieces |
| ProfileDetails.SplitAtSep | app/profile/details/page.tsx:60 | a separator gives at least two pieces |
| ProfileDetails.AddressFieldName | app/profile/details/page.tsx:59-60 | `address.X` selects X when X has no dot |
| Text.SplitNoSep | app/profile/details/page.tsx:60 | a string without the separator is one piece |
| ProfileDetails.SplitPrefix | app/profile/details/page.tsx:60 | a dot-free prefix is the first piece |
| ProfileDetails.AddressInputChangesOneField | app/profile/details/page.tsx:59-67 | `address.X` updates only `address.X` |
| ProfileDetails.TopLevelInputChangesOneField | app/profile/details/page.tsx:68-73 | any other name updates only that top-level field |
| ProfileDetails.WithInput | app/profile/details/page.tsx:56-74 | `handleInputChange` on the form value (its effect is stated by `AddressInputChangesOneField` and `TopLevelInputChangesOneField`) |
| ProfileDetails.InputsKeepShape | app/profile/details/page.tsx:59-73 | the eight rendered inputs keep the form's keys |
| ProfileDetails.DetailsState.constructor | app/profile/details/page.tsx:14-27 | not editing, the initial form |
| ProfileDetails.DetailsState.LoadUser | app/profile/details/page.tsx:29-46 | the form built from the user |
| ProfileDetails.DetailsState.StartEditing | app/profile/details/page.tsx:125 | edit mode on, form unchanged |
| ProfileDetails.DetailsState.HandleInputChange | app/profile/details/page.tsx:56-74 | the form gets the dotted-path update |
| ProfileDetails.DetailsState.HandleCancel | app/profile/details/page.tsx:87-102 | exactly the form built from the user, edit mode off |
| SearchBar.ClearRestoresInitial | components/catalog/search-bar.tsx:25-35 | the cleared filters equal `initialFilters`, from any state |
| SearchBar.SliderCents | components/catalog/search-bar.tsx:173-185 | the parsed slider value, in cents, is euros × 100 |
| SearchBar.ControlChangesOneField | components/catalog/search-bar.tsx:99-199 | each control changes its own field only; the min slider only the lower bound, the max slider only the upper |
| SearchBar.SlidersCanCross | components/catalog/search-bar.tsx:171-189 | nothing orders the bounds: a min above the max empties the list |
| SearchBar.PartNumberSearchFires | components/catalog/search-bar.tsx:19-23 | the part-number search runs only for more than three characters |
| SearchBar.ControlPatch | components/catalog/search-bar.tsx:99-199 | the partial each control passes to `setFilters` (stated by `ControlChangesOneField`) |
| SearchBar.SearchBarState.constructor | components/catalog/search-bar.tsx:10-11 | empty query, panel closed |
| SearchBar.SearchBarState.SetSearchQuery | components/catalog/search-bar.tsx:48 | the local query changes |
| SearchBar.SearchBarState.ToggleAdvanced | components/catalog/search-bar.tsx:61 | the panel flag flips |
| SearchBar.SearchBarState.HandleSearch | components/catalog/search-bar.tsx:14-17 | the store's query becomes the local one and the list is re-filtered |
| SearchBar.SearchBarState.HandlePartNumberSearch | components/catalog/search-bar.tsx:19-23 | more than 3 characters shows the part-number matches; shorter input changes nothing |
| SearchBar.SearchBarState.HandleControl | components/catalog/search-bar.tsx:99-199 | the control's partial is merged and the list re-filtered |
| SearchBar.SearchBarState.ClearFilters | components/catalog/search-bar.tsx:25-37 | the store is back at the initial filters, re-filtered, and the local query is empty |
| ProfileSidebar.ExactImpliesPrefix | components/layout/profile-sidebar.tsx:33-38 | an active item's href is a prefix of the path |
| ProfileSidebar.IsActive | components/layout/profile-sidebar.tsx:33-38 | exact items match the whole path, the others any path starting with their href (stated by the three lemmas beside it) |
| ProfileSidebar.PrefixActiveOnExtension | components/layout/profile-sidebar.tsx:37 | extending the path keeps a prefix item active, with no segment boundary |
| ProfileSidebar.NoSegmentBoundary | components/layout/profile-sidebar.tsx:25-37 | "/profile/detailsX" activates the details item |
| ProfileSidebar.OrdersPagesHighlightOrders | components/layout/profile-sidebar.tsx:12-38 | the dashboard is active exactly at "/profile"; under "/profile/orders…" the orders item is active and the dashboard is not |
| Text.Lower | stores/catalog-store.ts:148 | `toLowerCase` on ASCII: same length, each letter lowered, no upper-case letter left |
| Text.LowerKeepsSpaces | stores/catalog-store.ts:148-149 | lowering neither creates nor removes a space |
| Text.Split | stores/catalog-store.ts:149 | `split(sep)`: at least one piece (its inverse is `SplitJoin`) |
| Text.SplitJoin | stores/catalog-store.ts:149 | joining the pieces with the separator gives back the string |
| Text.SplitPiecesFree | stores/catalog-store.ts:149 | no piece contains the separator |
| Text.SplitAround | stores/catalog-store.ts:149 | splitting `a + sep + b` gives the pieces of `a` followed by those of `b` |
| Text.Contains | stores/catalog-store.ts:154 | `includes`: some suffix starts with the text (characterised by `ContainsIff`) |
| Text.ContainsIff | stores/catalog-store.ts:154 | `includes` holds iff the text occurs at some offset |
| Text.ParseInt | stores/catalog-store.ts:172 | `Number.parseInt` in base ten: leading ECMAScript white space and line terminators, an optional sign, then the leading digits; none means `NaN` |
| Text.ParseIntSkipsSpace | stores/catalog-store.ts:172 | a leading white space character does not change the result |
| Text.ParseIntSkipsNoBreakSpace | stores/catalog-store.ts:172 | a leading no-break space is skipped: U+00A0 then "2020" reads as 2020 |
| Text.ParseIntSkipsMarkAndIdeographicSpace | stores/catalog-store.ts:172 | a byte order mark and an ideographic space before "-7" are skipped, giving -7 |
| Text.ParseIntStopsAtZeroWidthSpace | stores/catalog-store.ts:172 | a zero-width space is not white space, so U+200B then "1" is `NaN` |
| Text.ParseIntToString | stores/catalog-store.ts:172 | the decimal text of any integer parses back to it |

## Left out

- Persistence:
  - zustand `persist` and `localStorage` are not modelled.
  - In the source, the module-level `mockUsers` is reset on reload while a persisted session is not. `Auth.AuthStore.Valid` assumes the logged-in user is in the directory.
- Timers and asynchrony:
  - the 300 ms debounce and the `setTimeout` in `applyFilters`;
  - the simulated delays of login, register, checkout and the expert form;
  - the `isLoading` flag.

  Each such action is modelled as completing at once. The expert page's `isSubmitting` true-then-false sequence is collapsed.
- Clocks and random ids: `Date.now`, `new Date().getFullYear()` and `toISOString` are parameters. No id is proved fresh.
- Restock dates: `toLocaleDateString("fr-FR")` is not modelled. The restock message carries the stored date text.
- Number formatting: IEEE-754 arithmetic and `toFixed(2)` are replaced by integer cents.
- Lower-casing: `toLowerCase` is ASCII-only here. "Citroën" and "É" are left as they are.
- Text.ParseInt: base ten only. The white space it skips is ECMAScript's StrWhiteSpaceChar set as of Unicode's fixed list of "Zs" characters (U+0020, U+00A0, U+1680, U+2000-U+200A, U+202F, U+205F, U+3000), not the live Unicode database. A `0x` prefix reads as the digit 0, where JavaScript would read a hexadecimal number. As in JavaScript, whatever follows the leading digits is ignored.
- Product data: the `@/data/products` module is not part of this model. The product list is a constructor parameter.
- UI: JSX rendering, colours, icons and the stock-status colour and icon fields are not modelled. `router.push` navigation appears only as `CheckoutPage.View`.
- CheckoutPage.CheckoutState.HandleSubmitOrder: states what the handler intends (the payload is built and the cart emptied), not what it does as written. The page destructures `addOrder` (app/checkout/page.tsx:37), but the order store exports `createOrder` (stores/order-store.ts:40). So the call at app/checkout/page.tsx:74 throws once the processing flag is set: no order is placed, the cart is kept, the flag stays set and there is no redirect. `CheckoutPage.CheckoutState.HandleSubmitOrderAsWritten` models that behaviour. The payload also lacks the `Order` fields the store requires, and its status "processing" is outside the status union; the two contracts are not reconciled.
- Details `handleSave`: it calls `updateProfile`, which the auth store does not have, and so is not modelled. `Auth.AuthStore.UpdateUser` models the store's own `updateUser`.
- Details `handleInputChange`: an input named exactly "address", without a dot, would replace the address object with a string. The model has no such input (the page renders none) and keeps top-level fields in a map.
- ProfileOrders.PreviewItems: the preview also shows `item.product.brand.charAt(0)` (app/profile/orders/page.tsx:160). `OrderItem` (stores/order-store.ts:6-13) has no `product`, so rendering any stored item throws. The expanded details read `item.product.name` (app/profile/orders/page.tsx:229) before the line total, so they throw too. `PreviewItems`, `MoreBadge` and `LineTotal` describe what the page would show if the items carried a product.
- Pages not modelled: app/order-confirmation/page.tsx, the landing and showcase components, contact forms, legal pages, layout, the theme hook and the rest of the navbar. From the navbar, only the cart badge sum (`Catalog.CartCount`) is modelled.
- Subtotal: the cart and checkout subtotals use the base product's price even when an alternative is selected, because that is what the code does. The per-line display and the submitted order lines use the alternative's price. `CartPage.SubtotalIgnoresAlternative` and `CheckoutPage.LinesSumIsDisplayedSum` state the gap.
- Order status transitions: `updateOrderStatus` has no transition check, so a delivered or cancelled order can take any status (`Orders.DeliveredIsNotFinal`).
