/** The catalog store (`stores/catalog-store.ts`): the product list, the filter
    pipeline, the part-number lookup and the cart.  Prices are integer cents. */
module Catalog {
  import opened Wrappers
  import opened Text
  import Seqs

  // ================================================================ data

  datatype Compatibility = Compatibility(brands: seq<string>, models: seq<string>, years: seq<int>)

  /** A catalog entry.  `price` and `originalPrice` are cents; the optional
      `isPopular` and `alternatives` keep their optionality. */
  datatype Product = Product(
    id: string,
    name: string,
    brand: string,
    category: string,
    subCategory: string,
    partNumber: string,
    price: int,
    originalPrice: Option<int>,
    description: string,
    specifications: map<string, string>,
    compatibility: Compatibility,
    images: seq<string>,
    stock: int,
    lowStockThreshold: int,
    restockDate: Option<string>,
    rating: real,
    reviewCount: int,
    isPopular: Option<bool>,
    alternatives: Option<seq<Product>>)

  /** The filter state; `priceRange` is (min, max) in cents. */
  datatype Filters = Filters(
    brand: string,
    category: string,
    subCategory: string,
    year: string,
    model: string,
    priceRange: (int, int),
    inStock: bool,
    searchQuery: string)

  /** `initialFilters`: nothing selected, prices 0 to 1000 euros, stock ignored. */
  const InitialFilters: Filters := Filters("", "", "", "", "", (0, 100000), false, "")

  /** `Partial<FilterState>`: `None` is a field the partial does not mention. */
  datatype FilterPatch = FilterPatch(
    brand: Option<string>,
    category: Option<string>,
    subCategory: Option<string>,
    year: Option<string>,
    model: Option<string>,
    priceRange: Option<(int, int)>,
    inStock: Option<bool>,
    searchQuery: Option<string>)

  const EmptyPatch: FilterPatch := FilterPatch(None, None, None, None, None, None, None, None)

  /** `{ ...filters, ...patch }` */
  function MergeFilters(f: Filters, p: FilterPatch): Filters {
    Filters(
      p.brand.GetOr(f.brand),
      p.category.GetOr(f.category),
      p.subCategory.GetOr(f.subCategory),
      p.year.GetOr(f.year),
      p.model.GetOr(f.model),
      p.priceRange.GetOr(f.priceRange),
      p.inStock.GetOr(f.inStock),
      p.searchQuery.GetOr(f.searchQuery))
  }

  /** The patch that mentions every field, with the values of `f`. */
  function PatchOf(f: Filters): FilterPatch {
    FilterPatch(Some(f.brand), Some(f.category), Some(f.subCategory), Some(f.year),
                Some(f.model), Some(f.priceRange), Some(f.inStock), Some(f.searchQuery))
  }

  lemma MergeEmpty(f: Filters)
    ensures MergeFilters(f, EmptyPatch) == f
  {
  }

  /** A patch naming every field overwrites the whole state. */
  lemma MergeFull(f: Filters, g: Filters)
    ensures MergeFilters(f, PatchOf(g)) == g
  {
  }

  lemma MergeTwice(f: Filters, p: FilterPatch)
    ensures MergeFilters(MergeFilters(f, p), p) == MergeFilters(f, p)
  {
  }

  // ================================================================ filter pipeline

  /** `term.length > 0` */
  predicate NonEmptyTerm(t: string) {
    |t| > 0
  }

  /** The lower-cased query split on single spaces with the empty pieces dropped. */
  function SearchTerms(query: string): (terms: seq<string>)
    ensures forall k :: 0 <= k < |terms| ==> terms[k] != "" && ' ' !in terms[k]
  {
    var pieces := Split(Lower(query), ' ');
    SplitPiecesFree(Lower(query), ' ');
    Seqs.Where(pieces, NonEmptyTerm)
  }

  /** A single word is one term: the word, lower-cased. */
  lemma SearchTermsWord(w: string)
    requires w != [] && ' ' !in w
    ensures SearchTerms(w) == [Lower(w)]
  {
    LowerKeepsSpaces(w);
    SplitNoSep(Lower(w), ' ');
    assert [Lower(w)][1..] == [];
  }

  /** Words separated by a space contribute their terms in order, so the terms of a
      query are the lower-cased words of its space-separated pieces. */
  lemma SearchTermsAppend(a: string, b: string)
    ensures SearchTerms(a + " " + b) == SearchTerms(a) + SearchTerms(b)
  {
    LowerAppend(a + " ", b);
    LowerAppend(a, " ");
    assert Lower(" ") == [' '];
    assert Lower(a + " " + b) == Lower(a) + [' '] + Lower(b);
    SplitAround(Lower(a), Lower(b), ' ');
    Seqs.WhereAppend(Split(Lower(a), ' '), Split(Lower(b), ' '), NonEmptyTerm);
  }

  /** The lower-cased "name brand partNumber description". */
  function SearchableText(p: Product): string {
    Lower(p.name + " " + p.brand + " " + p.partNumber + " " + p.description)
  }

  predicate MatchesSearch(terms: seq<string>, p: Product) {
    forall k :: 0 <= k < |terms| ==> Contains(SearchableText(p), terms[k])
  }

  /** `compatibility.years.includes(parseInt(year))`; a `NaN` year matches nothing. */
  predicate MatchesYear(year: string, p: Product) {
    match ParseInt(year)
    case None => false
    case Some(y) => y in p.compatibility.years
  }

  predicate MatchesModel(model: string, p: Product) {
    exists m :: m in p.compatibility.models && Contains(Lower(m), Lower(model))
  }

  predicate InPriceRange(range: (int, int), p: Product) {
    range.0 <= p.price && p.price <= range.1
  }

  /** One step of the pipeline: `if (active) filtered = filtered.filter(keep)`. */
  function Narrow(s: seq<Product>, active: bool, keep: Product -> bool): seq<Product> {
    if active then Seqs.Where(s, keep) else s
  }

  /** Step `k` of `applyFilters`, in source order (search, brand, category,
      subCategory, year, model, price, in stock): whether it runs, and what it keeps. */
  function Step(k: nat, f: Filters): (bool, Product -> bool)
    requires k < 8
  {
    match k
    case 0 => (f.searchQuery != "", (p: Product) => MatchesSearch(SearchTerms(f.searchQuery), p))
    case 1 => (f.brand != "", (p: Product) => p.brand == f.brand)
    case 2 => (f.category != "", (p: Product) => p.category == f.category)
    case 3 => (f.subCategory != "", (p: Product) => p.subCategory == f.subCategory)
    case 4 => (f.year != "", (p: Product) => MatchesYear(f.year, p))
    case 5 => (f.model != "", (p: Product) => MatchesModel(f.model, p))
    case 6 => (true, (p: Product) => InPriceRange(f.priceRange, p))
    case _ => (f.inStock, (p: Product) => p.stock > 0)
  }

  /** The list after the first `k` steps, each narrowing the previous one's output. */
  function RunSteps(products: seq<Product>, f: Filters, k: nat): seq<Product>
    requires k <= 8
  {
    if k == 0 then products
    else Narrow(RunSteps(products, f, k - 1), Step(k - 1, f).0, Step(k - 1, f).1)
  }

  /** `applyFilters`: all eight steps, always starting again from `products`. */
  function FilterProducts(products: seq<Product>, f: Filters): seq<Product> {
    RunSteps(products, f, 8)
  }

  /** `p` passes the first `k` steps. */
  predicate PassesSteps(f: Filters, p: Product, k: nat)
    requires k <= 8
  {
    k == 0 || (PassesSteps(f, p, k - 1) && (Step(k - 1, f).0 ==> Step(k - 1, f).1(p)))
  }

  /** What a product must satisfy to survive the pipeline: each step's condition,
      the skipped steps (empty field, unchecked box) imposing nothing. */
  predicate Matches(f: Filters, p: Product) {
    && (f.searchQuery != "" ==> MatchesSearch(SearchTerms(f.searchQuery), p))
    && (f.brand != "" ==> p.brand == f.brand)
    && (f.category != "" ==> p.category == f.category)
    && (f.subCategory != "" ==> p.subCategory == f.subCategory)
    && (f.year != "" ==> MatchesYear(f.year, p))
    && (f.model != "" ==> MatchesModel(f.model, p))
    && InPriceRange(f.priceRange, p)
    && (f.inStock ==> p.stock > 0)
  }

  lemma PassesAllSteps(f: Filters, p: Product)
    ensures PassesSteps(f, p, 8) == Matches(f, p)
  {
    assert PassesSteps(f, p, 1) == (f.searchQuery != "" ==> MatchesSearch(SearchTerms(f.searchQuery), p));
    assert PassesSteps(f, p, 2) == (PassesSteps(f, p, 1) && (f.brand != "" ==> p.brand == f.brand));
    assert PassesSteps(f, p, 3) == (PassesSteps(f, p, 2) && (f.category != "" ==> p.category == f.category));
    assert PassesSteps(f, p, 4) == (PassesSteps(f, p, 3) && (f.subCategory != "" ==> p.subCategory == f.subCategory));
    assert PassesSteps(f, p, 5) == (PassesSteps(f, p, 4) && (f.year != "" ==> MatchesYear(f.year, p)));
    assert PassesSteps(f, p, 6) == (PassesSteps(f, p, 5) && (f.model != "" ==> MatchesModel(f.model, p)));
    assert PassesSteps(f, p, 7) == (PassesSteps(f, p, 6) && InPriceRange(f.priceRange, p));
    assert PassesSteps(f, p, 8) == (PassesSteps(f, p, 7) && (f.inStock ==> p.stock > 0));
  }

  lemma NarrowStep(xs: seq<Product>, acc: Product -> bool, active: bool, keep: Product -> bool,
                   acc': Product -> bool)
    requires forall p :: acc'(p) == (acc(p) && (active ==> keep(p)))
    ensures Narrow(Seqs.Where(xs, acc), active, keep) == Seqs.Where(xs, acc')
  {
    if active {
      Seqs.WhereWhere(xs, acc, keep, acc');
    } else {
      Seqs.WhereCongruent(xs, acc, acc');
    }
  }

  /** The first `k` steps together are a single filter by "passes the first `k` steps". */
  lemma {:induction false} RunStepsIsOneFilter(products: seq<Product>, f: Filters, k: nat)
    requires k <= 8
    ensures RunSteps(products, f, k) == Seqs.Where(products, (p: Product) => PassesSteps(f, p, k))
  {
    if k == 0 {
      Seqs.WhereAll(products, (p: Product) => PassesSteps(f, p, 0));
    } else {
      RunStepsIsOneFilter(products, f, k - 1);
      NarrowStep(products, (p: Product) => PassesSteps(f, p, k - 1), Step(k - 1, f).0, Step(k - 1, f).1,
                 (p: Product) => PassesSteps(f, p, k));
    }
  }

  /** The pipeline is a single filter of `products` by `Matches`. */
  lemma FilterProductsIsOneFilter(products: seq<Product>, f: Filters)
    ensures FilterProducts(products, f) == Seqs.Where(products, (p: Product) => Matches(f, p))
  {
    RunStepsIsOneFilter(products, f, 8);
    forall p ensures PassesSteps(f, p, 8) == Matches(f, p) {
      PassesAllSteps(f, p);
    }
    Seqs.WhereCongruent(products, (p: Product) => PassesSteps(f, p, 8), (p: Product) => Matches(f, p));
  }

  /** A product is in the result iff it is in `products` and passes every step. */
  lemma FilterProductsMembers(products: seq<Product>, f: Filters)
    ensures forall p :: p in FilterProducts(products, f) <==> p in products && Matches(f, p)
  {
    FilterProductsIsOneFilter(products, f);
    var r := Seqs.Where(products, (p: Product) => Matches(f, p));
    forall p | p in r ensures p in products && Matches(f, p) {
      var i :| 0 <= i < |r| && r[i] == p;
    }
    forall p | p in products && Matches(f, p) ensures p in r {
      var i :| 0 <= i < |products| && products[i] == p;
    }
  }

  /** The result keeps the surviving products in their catalog order. */
  lemma FilterProductsIsSubseq(products: seq<Product>, f: Filters)
    ensures Seqs.IsSubseq(FilterProducts(products, f), products)
  {
    FilterProductsIsOneFilter(products, f);
    Seqs.WhereIsSubseq(products, (p: Product) => Matches(f, p));
  }

  /** Re-filtering the filtered list with the same filters changes nothing. */
  lemma FilterProductsIdempotent(products: seq<Product>, f: Filters)
    ensures FilterProducts(FilterProducts(products, f), f) == FilterProducts(products, f)
  {
    FilterProductsIsOneFilter(products, f);
    FilterProductsIsOneFilter(FilterProducts(products, f), f);
    Seqs.WhereIdempotent(products, (p: Product) => Matches(f, p));
  }

  /** The price range is applied at both ends inclusively, so an inverted range
      leaves nothing. */
  lemma InvertedPriceRangeIsEmpty(products: seq<Product>, f: Filters)
    requires f.priceRange.0 > f.priceRange.1
    ensures FilterProducts(products, f) == []
  {
    FilterProductsIsOneFilter(products, f);
    Seqs.WhereNone(products, (p: Product) => Matches(f, p));
  }

  /** With the initial filters every product priced within 0..1000 euros is kept. */
  lemma InitialFiltersKeepAll(products: seq<Product>)
    requires forall i :: 0 <= i < |products| ==> 0 <= products[i].price <= 100000
    ensures FilterProducts(products, InitialFilters) == products
  {
    FilterProductsIsOneFilter(products, InitialFilters);
    Seqs.WhereAll(products, (p: Product) => Matches(InitialFilters, p));
  }

  /** `n` spaces. */
  function Spaces(n: nat): string {
    if n == 0 then "" else " " + Spaces(n - 1)
  }

  /** A query of spaces only has no terms, so the search step keeps everything. */
  lemma BlankQueryHasNoTerms(n: nat)
    ensures SearchTerms(Spaces(n)) == []
  {
    LowerSpaces(n);
    BlankSplit(n);
    Seqs.WhereNone(Split(Spaces(n), ' '), NonEmptyTerm);
  }

  lemma {:induction false} LowerSpaces(n: nat)
    ensures Lower(Spaces(n)) == Spaces(n)
  {
    if n > 0 {
      LowerSpaces(n - 1);
      LowerAppend(" ", Spaces(n - 1));
    }
  }

  lemma {:induction false} BlankSplit(n: nat)
    ensures forall k :: 0 <= k < |Split(Spaces(n), ' ')| ==> Split(Spaces(n), ' ')[k] == ""
  {
    if n > 0 {
      assert Spaces(n)[1..] == Spaces(n - 1);
      BlankSplit(n - 1);
    }
  }

  /** Every term of the query found in the lower-cased name makes the product match. */
  lemma NameHitMatches(terms: seq<string>, p: Product)
    requires forall k :: 0 <= k < |terms| ==> Contains(Lower(p.name), terms[k])
    ensures MatchesSearch(terms, p)
  {
    var rest := " " + p.brand + " " + p.partNumber + " " + p.description;
    assert p.name + " " + p.brand + " " + p.partNumber + " " + p.description == p.name + rest;
    LowerAppend(p.name, rest);
    forall k | 0 <= k < |terms| ensures Contains(SearchableText(p), terms[k]) {
      ContainsWithin("", Lower(p.name), Lower(rest), terms[k]);
      assert "" + Lower(p.name) + Lower(rest) == Lower(p.name) + Lower(rest);
    }
  }

  /** `searchByPartNumber`: every product of the catalog whose part number contains
      the query, ignoring ASCII case and the current filters. */
  function PartNumberMatches(products: seq<Product>, query: string): (r: seq<Product>)
    ensures forall i :: 0 <= i < |r| ==> r[i] in products && Contains(Lower(r[i].partNumber), Lower(query))
    ensures forall i :: 0 <= i < |products| && Contains(Lower(products[i].partNumber), Lower(query)) ==> products[i] in r
    ensures forall p ::
      multiset(r)[p] == if Contains(Lower(p.partNumber), Lower(query)) then multiset(products)[p] else 0
  {
    var hit := (p: Product) => Contains(Lower(p.partNumber), Lower(query));
    Seqs.WhereMultiset(products, hit);
    Seqs.Where(products, hit)
  }

  // ================================================================ cart

  datatype CartItem = CartItem(product: Product, quantity: int, selectedAlternative: Option<Product>)

  /** `alternative?.id` */
  function AltId(a: Option<Product>): Option<string> {
    match a
    case None => None
    case Some(p) => Some(p.id)
  }

  /** The key `addToCart` looks lines up by: base product id and alternative id. */
  function Key(item: CartItem): (string, Option<string>) {
    (item.product.id, AltId(item.selectedAlternative))
  }

  /** No two lines share a key. */
  ghost predicate UniqueKeys(cart: seq<CartItem>) {
    forall i, j :: 0 <= i < j < |cart| ==> Key(cart[i]) != Key(cart[j])
  }

  predicate HasLine(cart: seq<CartItem>, key: (string, Option<string>)) {
    exists i :: 0 <= i < |cart| && Key(cart[i]) == key
  }

  /** `cart.map(item => same key ? { ...item, quantity: item.quantity + q } : item)` */
  function Bump(cart: seq<CartItem>, key: (string, Option<string>), q: int): (r: seq<CartItem>)
    ensures |r| == |cart|
    ensures forall i :: 0 <= i < |r| ==> Key(r[i]) == Key(cart[i])
  {
    if cart == [] then []
    else
      var head := if Key(cart[0]) == key then cart[0].(quantity := cart[0].quantity + q) else cart[0];
      [head] + Bump(cart[1..], key, q)
  }

  /** `addToCart(product, quantity, alternative)` on the cart value. */
  function CartWithAdded(cart: seq<CartItem>, product: Product, quantity: int, alternative: Option<Product>): seq<CartItem> {
    var key := (product.id, AltId(alternative));
    if HasLine(cart, key) then Bump(cart, key, quantity)
    else cart + [CartItem(product, quantity, alternative)]
  }

  /** `removeFromCart(id)`: every line whose base product is `id` goes. */
  function CartWithout(cart: seq<CartItem>, productId: string): (r: seq<CartItem>)
    ensures forall i :: 0 <= i < |r| ==> r[i].product.id != productId && r[i] in cart
    ensures forall i :: 0 <= i < |cart| && cart[i].product.id != productId ==> cart[i] in r
  {
    Seqs.Where(cart, (item: CartItem) => item.product.id != productId)
  }

  /** `updateCartQuantity(id, q)`: every line of base product `id` gets quantity `q`. */
  function CartWithQuantity(cart: seq<CartItem>, productId: string, quantity: int): (r: seq<CartItem>)
    ensures |r| == |cart|
    ensures forall i :: 0 <= i < |r| ==> Key(r[i]) == Key(cart[i])
  {
    if cart == [] then []
    else
      var head := if cart[0].product.id == productId then cart[0].(quantity := quantity) else cart[0];
      [head] + CartWithQuantity(cart[1..], productId, quantity)
  }

  /** The navbar badge: the sum of the quantities. */
  function CartCount(cart: seq<CartItem>): int {
    if cart == [] then 0 else cart[0].quantity + CartCount(cart[1..])
  }

  lemma {:induction false} CartCountAppend(a: seq<CartItem>, b: seq<CartItem>)
    ensures CartCount(a + b) == CartCount(a) + CartCount(b)
  {
    if a == [] {
      assert a + b == b;
    } else {
      assert (a + b)[1..] == a[1..] + b;
      CartCountAppend(a[1..], b);
    }
  }

  lemma {:induction false} BumpElsewhere(cart: seq<CartItem>, key: (string, Option<string>), q: int)
    requires !HasLine(cart, key)
    ensures Bump(cart, key, q) == cart
  {
    if cart != [] {
      assert !HasLine(cart[1..], key);
      BumpElsewhere(cart[1..], key, q);
      assert Key(cart[0]) != key;
    }
  }

  /** Dropping the first line keeps the keys unique. */
  lemma UniqueKeysTail(cart: seq<CartItem>)
    requires UniqueKeys(cart) && cart != []
    ensures UniqueKeys(cart[1..])
  {
    var tail := cart[1..];
    forall i, j | 0 <= i < j < |tail| ensures Key(tail[i]) != Key(tail[j]) {
      assert Key(cart[i + 1]) != Key(cart[j + 1]);
    }
  }

  /** Raising one line's quantity by `q` raises the badge count by `q`. */
  lemma {:induction false} CartCountBump(cart: seq<CartItem>, k: nat, q: int)
    requires k < |cart|
    ensures CartCount(cart[k := cart[k].(quantity := cart[k].quantity + q)]) == CartCount(cart) + q
  {
    var r := cart[k := cart[k].(quantity := cart[k].quantity + q)];
    if k > 0 {
      assert r[1..] == cart[1..][k - 1 := cart[1..][k - 1].(quantity := cart[1..][k - 1].quantity + q)];
      CartCountBump(cart[1..], k - 1, q);
    } else {
      assert r[1..] == cart[1..];
    }
  }

  /** With unique keys, bumping the line at `k` changes that line's quantity only. */
  lemma {:induction false} BumpAtLine(cart: seq<CartItem>, key: (string, Option<string>), q: int, k: nat)
    requires UniqueKeys(cart) && k < |cart| && Key(cart[k]) == key
    ensures Bump(cart, key, q) == cart[k := cart[k].(quantity := cart[k].quantity + q)]
  {
    var r := Bump(cart, key, q);
    var bumped := cart[k].(quantity := cart[k].quantity + q);
    if k == 0 {
      assert !HasLine(cart[1..], key) by {
        forall i | 0 <= i < |cart[1..]| ensures Key(cart[1..][i]) != key {
          assert Key(cart[0]) != Key(cart[i + 1]);
        }
      }
      BumpElsewhere(cart[1..], key, q);
      assert r == [bumped] + cart[1..];
      assert [bumped] + cart[1..] == cart[k := bumped];
    } else {
      UniqueKeysTail(cart);
      assert Key(cart[0]) != key by { assert Key(cart[0]) != Key(cart[k]); }
      assert cart[1..][k - 1] == cart[k];
      BumpAtLine(cart[1..], key, q, k - 1);
      assert r == [cart[0]] + cart[1..][k - 1 := bumped];
      assert [cart[0]] + cart[1..][k - 1 := bumped] == cart[k := bumped];
    }
  }

  lemma BumpAt(cart: seq<CartItem>, key: (string, Option<string>), q: int, k: nat)
    requires UniqueKeys(cart) && k < |cart| && Key(cart[k]) == key
    ensures Bump(cart, key, q) == cart[k := cart[k].(quantity := cart[k].quantity + q)]
    ensures CartCount(Bump(cart, key, q)) == CartCount(cart) + q
  {
    BumpAtLine(cart, key, q, k);
    CartCountBump(cart, k, q);
  }

  /** Adding to an existing line (same product, same alternative): the length is
      unchanged, that line grows by `quantity` and no other line changes. */
  lemma AddToExistingLine(cart: seq<CartItem>, product: Product, quantity: int,
                          alternative: Option<Product>, k: nat)
    requires UniqueKeys(cart) && k < |cart| && Key(cart[k]) == (product.id, AltId(alternative))
    ensures CartWithAdded(cart, product, quantity, alternative)
         == cart[k := cart[k].(quantity := cart[k].quantity + quantity)]
    ensures CartCount(CartWithAdded(cart, product, quantity, alternative)) == CartCount(cart) + quantity
  {
    BumpAt(cart, (product.id, AltId(alternative)), quantity, k);
  }

  /** Adding a new key appends exactly one line at the end. */
  lemma AddNewLine(cart: seq<CartItem>, product: Product, quantity: int, alternative: Option<Product>)
    requires !HasLine(cart, (product.id, AltId(alternative)))
    ensures CartWithAdded(cart, product, quantity, alternative) == cart + [CartItem(product, quantity, alternative)]
    ensures CartCount(CartWithAdded(cart, product, quantity, alternative)) == CartCount(cart) + quantity
  {
    CartCountAppend(cart, [CartItem(product, quantity, alternative)]);
    assert CartCount([CartItem(product, quantity, alternative)]) == quantity;
  }

  /** Either way the badge count grows by exactly the quantity added. */
  lemma AddToCartCount(cart: seq<CartItem>, product: Product, quantity: int, alternative: Option<Product>)
    requires UniqueKeys(cart)
    ensures CartCount(CartWithAdded(cart, product, quantity, alternative)) == CartCount(cart) + quantity
  {
    var key := (product.id, AltId(alternative));
    if HasLine(cart, key) {
      var k :| 0 <= k < |cart| && Key(cart[k]) == key;
      AddToExistingLine(cart, product, quantity, alternative, k);
    } else {
      AddNewLine(cart, product, quantity, alternative);
    }
  }

  lemma AddKeepsUniqueKeys(cart: seq<CartItem>, product: Product, quantity: int, alternative: Option<Product>)
    requires UniqueKeys(cart)
    ensures UniqueKeys(CartWithAdded(cart, product, quantity, alternative))
  {
  }

  lemma {:induction false} WhereKeepsUniqueKeys(cart: seq<CartItem>, keep: CartItem -> bool)
    requires UniqueKeys(cart)
    ensures UniqueKeys(Seqs.Where(cart, keep))
  {
    if cart != [] {
      var tail := cart[1..];
      UniqueKeysTail(cart);
      WhereKeepsUniqueKeys(tail, keep);
      if keep(cart[0]) {
        var w := Seqs.Where(tail, keep);
        forall j | 0 <= j < |w| ensures Key(cart[0]) != Key(w[j]) {
          var m :| 0 <= m < |tail| && tail[m] == w[j];
          assert Key(cart[0]) != Key(cart[m + 1]);
        }
        assert Seqs.Where(cart, keep) == [cart[0]] + w;
      }
    }
  }

  lemma RemoveKeepsUniqueKeys(cart: seq<CartItem>, productId: string)
    requires UniqueKeys(cart)
    ensures UniqueKeys(CartWithout(cart, productId))
  {
    WhereKeepsUniqueKeys(cart, (item: CartItem) => item.product.id != productId);
  }

  /** Removing keeps the other lines in their order. */
  lemma RemoveIsSubseq(cart: seq<CartItem>, productId: string)
    ensures Seqs.IsSubseq(CartWithout(cart, productId), cart)
  {
    Seqs.WhereIsSubseq(cart, (item: CartItem) => item.product.id != productId);
  }

  /** `updateCartQuantity` sets `quantity` on every line of that product, whatever its
      alternative, and leaves the other lines as they were. */
  lemma {:induction false} QuantityUpdated(cart: seq<CartItem>, productId: string, quantity: int)
    ensures forall i :: 0 <= i < |cart| ==>
      CartWithQuantity(cart, productId, quantity)[i] ==
        if cart[i].product.id == productId then cart[i].(quantity := quantity) else cart[i]
  {
    if cart != [] {
      QuantityUpdated(cart[1..], productId, quantity);
      var r := CartWithQuantity(cart, productId, quantity);
      forall i | 0 <= i < |cart|
        ensures r[i] == if cart[i].product.id == productId then cart[i].(quantity := quantity) else cart[i]
      {
        if i > 0 {
          assert r[i] == CartWithQuantity(cart[1..], productId, quantity)[i - 1];
          assert cart[1..][i - 1] == cart[i];
        }
      }
    }
  }

  lemma QuantityKeepsUniqueKeys(cart: seq<CartItem>, productId: string, quantity: int)
    requires UniqueKeys(cart)
    ensures UniqueKeys(CartWithQuantity(cart, productId, quantity))
  {
  }

  /** The units on the lines of base product `productId`, whatever their alternative. */
  function ProductUnits(cart: seq<CartItem>, productId: string): int {
    if cart == [] then 0
    else (if cart[0].product.id == productId then cart[0].quantity else 0) + ProductUnits(cart[1..], productId)
  }

  /** How many lines carry base product `productId`. */
  function ProductLines(cart: seq<CartItem>, productId: string): nat {
    if cart == [] then 0
    else (if cart[0].product.id == productId then 1 else 0) + ProductLines(cart[1..], productId)
  }

  /** `removeFromCart` lowers the badge by exactly the units of that product, and none
      of them is left. */
  lemma {:induction false} RemoveCartCount(cart: seq<CartItem>, productId: string)
    ensures CartCount(CartWithout(cart, productId)) == CartCount(cart) - ProductUnits(cart, productId)
    ensures ProductLines(CartWithout(cart, productId), productId) == 0
  {
    if cart != [] {
      RemoveCartCount(cart[1..], productId);
      var keep := (item: CartItem) => item.product.id != productId;
      assert CartWithout(cart[1..], productId) == Seqs.Where(cart[1..], keep);
      if keep(cart[0]) {
        assert CartWithout(cart, productId) == [cart[0]] + CartWithout(cart[1..], productId);
      } else {
        assert CartWithout(cart, productId) == CartWithout(cart[1..], productId);
      }
    }
  }

  /** `updateCartQuantity` replaces that product's units by the new quantity on each of
      its lines. */
  lemma {:induction false} QuantityCartCount(cart: seq<CartItem>, productId: string, quantity: int)
    ensures CartCount(CartWithQuantity(cart, productId, quantity))
      == CartCount(cart) - ProductUnits(cart, productId) + quantity * ProductLines(cart, productId)
  {
    if cart != [] {
      QuantityCartCount(cart[1..], productId, quantity);
    }
  }

  /** The zustand store.  `filteredProducts` is what the catalog page shows. */
  class CatalogStore {
    var products: seq<Product>
    var filteredProducts: seq<Product>
    var filters: Filters
    var selectedProduct: Option<Product>
    var cart: seq<CartItem>

    /** The cart never holds two lines for the same product and alternative. */
    ghost predicate Valid()
      reads this
    {
      UniqueKeys(cart)
    }

    /** The initial state over the (externally supplied) product list. */
    constructor (catalog: seq<Product>)
      ensures Valid()
      ensures products == catalog && filteredProducts == catalog
      ensures filters == InitialFilters && selectedProduct == None && cart == []
    {
      products := catalog;
      filteredProducts := catalog;
      filters := InitialFilters;
      selectedProduct := None;
      cart := [];
    }

    /** `applyFilters` (the deferred `setTimeout` run at once). */
    method ApplyFilters()
      requires Valid()
      modifies this
      ensures Valid()
      ensures filteredProducts == FilterProducts(products, filters)
      ensures products == old(products) && filters == old(filters)
      ensures selectedProduct == old(selectedProduct) && cart == old(cart)
    {
      filteredProducts := FilterProducts(products, filters);
    }

    /** `setFilters(patch)`: merge the partial, then re-filter. */
    method SetFilters(patch: FilterPatch)
      requires Valid()
      modifies this
      ensures Valid()
      ensures filters == MergeFilters(old(filters), patch)
      ensures filteredProducts == FilterProducts(products, filters)
      ensures products == old(products) && selectedProduct == old(selectedProduct) && cart == old(cart)
    {
      filters := MergeFilters(filters, patch);
      ApplyFilters();
    }

    /** `searchProducts(query)`: set the query, then re-filter (the debounce collapsed). */
    method SearchProducts(query: string)
      requires Valid()
      modifies this
      ensures Valid()
      ensures filters == old(filters).(searchQuery := query)
      ensures filteredProducts == FilterProducts(products, filters)
      ensures products == old(products) && selectedProduct == old(selectedProduct) && cart == old(cart)
    {
      filters := filters.(searchQuery := query);
      ApplyFilters();
    }

    /** `searchByPartNumber(query)`: replaces the shown list, ignoring the filters. */
    method SearchByPartNumber(query: string)
      requires Valid()
      modifies this
      ensures Valid()
      ensures filteredProducts == PartNumberMatches(products, query)
      ensures products == old(products) && filters == old(filters)
      ensures selectedProduct == old(selectedProduct) && cart == old(cart)
    {
      filteredProducts := PartNumberMatches(products, query);
    }

    method SelectProduct(p: Option<Product>)
      requires Valid()
      modifies this
      ensures Valid()
      ensures selectedProduct == p
      ensures products == old(products) && filteredProducts == old(filteredProducts)
      ensures filters == old(filters) && cart == old(cart)
    {
      selectedProduct := p;
    }

    method AddToCart(product: Product, quantity: int, alternative: Option<Product>)
      requires Valid()
      modifies this
      ensures Valid()
      ensures cart == CartWithAdded(old(cart), product, quantity, alternative)
      ensures CartCount(cart) == CartCount(old(cart)) + quantity
      ensures products == old(products) && filteredProducts == old(filteredProducts)
      ensures filters == old(filters) && selectedProduct == old(selectedProduct)
    {
      AddKeepsUniqueKeys(cart, product, quantity, alternative);
      AddToCartCount(cart, product, quantity, alternative);
      cart := CartWithAdded(cart, product, quantity, alternative);
    }

    method RemoveFromCart(productId: string)
      requires Valid()
      modifies this
      ensures Valid()
      ensures cart == CartWithout(old(cart), productId)
      ensures CartCount(cart) == CartCount(old(cart)) - ProductUnits(old(cart), productId)
      ensures products == old(products) && filteredProducts == old(filteredProducts)
      ensures filters == old(filters) && selectedProduct == old(selectedProduct)
    {
      RemoveKeepsUniqueKeys(cart, productId);
      RemoveCartCount(cart, productId);
      cart := CartWithout(cart, productId);
    }

    method UpdateCartQuantity(productId: string, quantity: int)
      requires Valid()
      modifies this
      ensures Valid()
      ensures cart == CartWithQuantity(old(cart), productId, quantity)
      ensures CartCount(cart)
        == CartCount(old(cart)) - ProductUnits(old(cart), productId) + quantity * ProductLines(old(cart), productId)
      ensures products == old(products) && filteredProducts == old(filteredProducts)
      ensures filters == old(filters) && selectedProduct == old(selectedProduct)
    {
      QuantityKeepsUniqueKeys(cart, productId, quantity);
      QuantityCartCount(cart, productId, quantity);
      cart := CartWithQuantity(cart, productId, quantity);
    }

    method ClearCart()
      requires Valid()
      modifies this
      ensures Valid()
      ensures cart == [] && CartCount(cart) == 0
      ensures products == old(products) && filteredProducts == old(filteredProducts)
      ensures filters == old(filters) && selectedProduct == old(selectedProduct)
    {
      cart := [];
    }
  }
}
