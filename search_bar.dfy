/** The catalogue search bar (`components/catalog/search-bar.tsx`): the free-text
    query, the part-number lookup, the advanced filter controls and the reset. */
module SearchBar {
  import opened Wrappers
  import opened Text
  import opened Catalog

  /** The part-number input triggers a lookup only beyond three characters. */
  predicate PartNumberSearchFires(partNumber: string) {
    |partNumber| > 3
  }

  /** The patch `clearFilters` sends: the slider range 0 to 1000 euros is in cents here. */
  const ClearPatch: FilterPatch :=
    FilterPatch(Some(""), Some(""), Some(""), Some(""), Some(""), Some((0, 100000)), Some(false), Some(""))

  /** `clearFilters` restores the store's initial filters from any state. */
  lemma ClearRestoresInitial(f: Filters)
    ensures MergeFilters(f, ClearPatch) == InitialFilters
  {
  }

  /** One control of the advanced panel and the value it reports.  The sliders
      report a whole number of euros between 0 and 1000. */
  datatype Control =
    | BrandSelect(brand: string)
    | CategorySelect(category: string)
    | YearSelect(year: string)
    | ModelInput(model: string)
    | MinPriceSlider(minEuros: nat)
    | MaxPriceSlider(maxEuros: nat)
    | InStockBox(checked: bool)

  /** `Number.parseInt(e.target.value)` of a slider, converted to cents. */
  function SliderCents(euros: nat): (c: int)
    ensures c == euros * 100
  {
    ParseNatToString(euros);
    ParseInt(NatToString(euros)).value * 100
  }

  /** The single-field partial a control passes to `setFilters`; a slider sends the
      whole range with the other bound copied from the current filters. */
  function ControlPatch(f: Filters, c: Control): FilterPatch {
    match c
    case BrandSelect(v) => EmptyPatch.(brand := Some(v))
    case CategorySelect(v) => EmptyPatch.(category := Some(v))
    case YearSelect(v) => EmptyPatch.(year := Some(v))
    case ModelInput(v) => EmptyPatch.(model := Some(v))
    case MinPriceSlider(e) => EmptyPatch.(priceRange := Some((SliderCents(e), f.priceRange.1)))
    case MaxPriceSlider(e) => EmptyPatch.(priceRange := Some((f.priceRange.0, SliderCents(e))))
    case InStockBox(b) => EmptyPatch.(inStock := Some(b))
  }

  /** Each control changes its own field and nothing else; the min slider moves only
      the lower bound and the max slider only the upper one. */
  lemma ControlChangesOneField(f: Filters, c: Control)
    ensures MergeFilters(f, ControlPatch(f, c)) ==
      match c
      case BrandSelect(v) => f.(brand := v)
      case CategorySelect(v) => f.(category := v)
      case YearSelect(v) => f.(year := v)
      case ModelInput(v) => f.(model := v)
      case MinPriceSlider(e) => f.(priceRange := (e * 100, f.priceRange.1))
      case MaxPriceSlider(e) => f.(priceRange := (f.priceRange.0, e * 100))
      case InStockBox(b) => f.(inStock := b)
  {
  }

  /** Nothing keeps the bounds ordered: moving the min slider past the max empties
      the catalogue. */
  lemma SlidersCanCross(products: seq<Product>, f: Filters, e: nat)
    requires e * 100 > f.priceRange.1
    ensures FilterProducts(products, MergeFilters(f, ControlPatch(f, MinPriceSlider(e)))) == []
  {
    var g := MergeFilters(f, ControlPatch(f, MinPriceSlider(e)));
    InvertedPriceRangeIsEmpty(products, g);
  }

  class SearchBarState {
    /** The text of the main search box, local to the bar until submitted. */
    var searchQuery: string
    var isAdvancedOpen: bool

    constructor ()
      ensures searchQuery == "" && !isAdvancedOpen
    {
      searchQuery := "";
      isAdvancedOpen := false;
    }

    method SetSearchQuery(text: string)
      modifies this
      ensures searchQuery == text && isAdvancedOpen == old(isAdvancedOpen)
    {
      searchQuery := text;
    }

    method ToggleAdvanced()
      modifies this
      ensures isAdvancedOpen == !old(isAdvancedOpen) && searchQuery == old(searchQuery)
    {
      isAdvancedOpen := !isAdvancedOpen;
    }

    /** `handleSearch`: submit the local query to the store. */
    method HandleSearch(store: CatalogStore)
      requires store.Valid()
      modifies store
      ensures store.Valid()
      ensures store.filters == old(store.filters).(searchQuery := searchQuery)
      ensures store.filteredProducts == FilterProducts(store.products, store.filters)
      ensures store.products == old(store.products) && store.cart == old(store.cart)
      ensures store.selectedProduct == old(store.selectedProduct)
    {
      store.SearchProducts(searchQuery);
    }

    /** `handlePartNumberSearch`: inputs of three characters or fewer change nothing. */
    method HandlePartNumberSearch(store: CatalogStore, partNumber: string)
      requires store.Valid()
      modifies store
      ensures store.Valid()
      ensures PartNumberSearchFires(partNumber) ==> store.filteredProducts == PartNumberMatches(store.products, partNumber)
      ensures !PartNumberSearchFires(partNumber) ==> store.filteredProducts == old(store.filteredProducts)
      ensures store.products == old(store.products) && store.filters == old(store.filters)
      ensures store.cart == old(store.cart) && store.selectedProduct == old(store.selectedProduct)
    {
      if |partNumber| > 3 {
        store.SearchByPartNumber(partNumber);
      }
    }

    /** A change on one of the advanced controls. */
    method HandleControl(store: CatalogStore, c: Control)
      requires store.Valid()
      modifies store
      ensures store.Valid()
      ensures store.filters == MergeFilters(old(store.filters), ControlPatch(old(store.filters), c))
      ensures store.filteredProducts == FilterProducts(store.products, store.filters)
      ensures store.products == old(store.products) && store.cart == old(store.cart)
      ensures store.selectedProduct == old(store.selectedProduct)
    {
      store.SetFilters(ControlPatch(store.filters, c));
    }

    /** `clearFilters`: the store is back to its initial filters (re-filtered) and the
        local query is emptied. */
    method ClearFilters(store: CatalogStore)
      requires store.Valid()
      modifies this, store
      ensures store.Valid()
      ensures store.filters == InitialFilters
      ensures store.filteredProducts == FilterProducts(store.products, InitialFilters)
      ensures searchQuery == "" && isAdvancedOpen == old(isAdvancedOpen)
      ensures store.products == old(store.products) && store.cart == old(store.cart)
      ensures store.selectedProduct == old(store.selectedProduct)
    {
      ClearRestoresInitial(store.filters);
      store.SetFilters(ClearPatch);
      searchQuery := "";
    }
  }
}
