/** The product filter panel of the products page (the search page has the same
    handlers): category and material checkboxes, a price slider, the row of
    removable "active filter" badges that mirrors them, the product filter, and
    the two price orders. */
module Facets {
  import opened Common
  import opened Catalog

  datatype FacetKind = CategoryFacet | MaterialFacet | PriceFacet

  /** One removable badge, `{ type, value }`. */
  datatype ActiveFilter = ActiveFilter(kind: FacetKind, value: string)

  const DefaultLo: int := 0
  const DefaultHi: int := 100

  /** The price badge's text, `$lo - $hi`. */
  function PriceLabel(lo: int, hi: int): string
  {
    "$" + IntToString(lo) + " - $" + IntToString(hi)
  }

  function IsPriceEntry(f: ActiveFilter): bool
  {
    f.kind == PriceFacet
  }

  function NotPriceEntry(f: ActiveFilter): bool
  {
    f.kind != PriceFacet
  }

  /** The badges carrying this kind's values are exactly the selected values. */
  ghost predicate Mirrors(values: seq<string>, filters: seq<ActiveFilter>, kind: FacetKind)
  {
    forall v :: ActiveFilter(kind, v) in filters <==> v in values
  }

  /** Every price badge describes the current range, and without one the range
      is the default. */
  ghost predicate PriceAgrees(filters: seq<ActiveFilter>, lo: int, hi: int)
  {
    (forall f :: f in filters && f.kind == PriceFacet ==> f.value == PriceLabel(lo, hi))
    && ((forall f :: f in filters ==> f.kind != PriceFacet) ==> lo == DefaultLo && hi == DefaultHi)
  }

  /** A category or material checkbox's badges after toggling `v`: every badge
      for `v` is dropped, and one is appended when `v` was not selected. */
  function ToggledEntries(filters: seq<ActiveFilter>, kind: FacetKind, v: string, wasSelected: bool): seq<ActiveFilter>
  {
    var kept := Filter(filters, IsNot(ActiveFilter(kind, v)));
    if wasSelected then kept else kept + [ActiveFilter(kind, v)]
  }

  /** A toggle touches only the badge for the toggled value, and that badge is
      present afterwards exactly when the value was not selected before. */
  lemma ToggledEntriesChange(filters: seq<ActiveFilter>, kind: FacetKind, v: string, wasSelected: bool)
    requires NoDup(filters)
    ensures var r := ToggledEntries(filters, kind, v, wasSelected);
            NoDup(r)
            && (ActiveFilter(kind, v) in r <==> !wasSelected)
            && forall f :: f != ActiveFilter(kind, v) ==> (f in r <==> f in filters)
  {
    var e := ActiveFilter(kind, v);
    var kept := Filter(filters, IsNot(e));
    FilterKeepsNoDup(filters, IsNot(e));
    if !wasSelected {
      var r := kept + [e];
      forall i, j | 0 <= i < j < |r| ensures r[i] != r[j] {
        if j == |kept| {
          assert r[i] in kept;
        }
      }
    }
  }

  /** Selected values and badges stay in step under a checkbox toggle. */
  lemma ToggleKeepsMirror(values: seq<string>, filters: seq<ActiveFilter>, kind: FacetKind, v: string)
    requires NoDup(filters) && Mirrors(values, filters, kind)
    ensures Mirrors(Toggle(values, v), ToggledEntries(filters, kind, v, v in values), kind)
  {
    ToggledEntriesChange(filters, kind, v, v in values);
  }

  /** A price badge is unique: duplicate-free badges that all describe the same
      range hold at most one price badge. */
  lemma AtMostOnePriceEntry(filters: seq<ActiveFilter>, lo: int, hi: int)
    requires NoDup(filters) && PriceAgrees(filters, lo, hi)
    ensures |Filter(filters, IsPriceEntry)| <= 1
  {
    var r := Filter(filters, IsPriceEntry);
    FilterKeepsNoDup(filters, IsPriceEntry);
    var e := ActiveFilter(PriceFacet, PriceLabel(lo, hi));
    forall y | y in r ensures y == e {
    }
    FirstTwoEqual(r, e);
  }

  lemma FirstTwoEqual<T>(s: seq<T>, x: T)
    requires forall y :: y in s ==> y == x
    ensures |s| > 1 ==> s[0] == s[1]
  {
    if |s| > 1 {
      assert s[0] in s && s[1] in s;
    }
  }

  /** Replacing the price badge leaves exactly one price badge, the new one,
      and the other badges as they were. */
  lemma ReplacePriceEntry(filters: seq<ActiveFilter>, lo: int, hi: int)
    ensures var e := ActiveFilter(PriceFacet, PriceLabel(lo, hi));
            var r := Filter(filters, NotPriceEntry) + [e];
            Filter(r, IsPriceEntry) == [e] && Filter(r, NotPriceEntry) == Filter(filters, NotPriceEntry)
  {
    var e := ActiveFilter(PriceFacet, PriceLabel(lo, hi));
    var kept := Filter(filters, NotPriceEntry);
    FilterAppend(kept, [e], IsPriceEntry);
    FilterNone(kept, IsPriceEntry);
    FilterAppend(kept, [e], NotPriceEntry);
    FilterNarrows(filters, NotPriceEntry, NotPriceEntry);
    assert Filter([e], NotPriceEntry) == [];
  }

  lemma ReplacePriceKeepsValid(filters: seq<ActiveFilter>, categories: seq<string>, materials: seq<string>,
                               lo: int, hi: int)
    requires NoDup(filters)
    requires Mirrors(categories, filters, CategoryFacet) && Mirrors(materials, filters, MaterialFacet)
    ensures var r := Filter(filters, NotPriceEntry) + [ActiveFilter(PriceFacet, PriceLabel(lo, hi))];
            NoDup(r) && Mirrors(categories, r, CategoryFacet) && Mirrors(materials, r, MaterialFacet)
            && PriceAgrees(r, lo, hi)
  {
    var e := ActiveFilter(PriceFacet, PriceLabel(lo, hi));
    var kept := Filter(filters, NotPriceEntry);
    var r := kept + [e];
    FilterKeepsNoDup(filters, NotPriceEntry);
    forall i, j | 0 <= i < j < |r| ensures r[i] != r[j] {
      if j == |kept| {
        assert r[i] in kept;
      }
    }
    forall v ensures ActiveFilter(CategoryFacet, v) in r <==> ActiveFilter(CategoryFacet, v) in filters {
      assert ActiveFilter(CategoryFacet, v) in r <==> ActiveFilter(CategoryFacet, v) in kept;
    }
    forall v ensures ActiveFilter(MaterialFacet, v) in r <==> ActiveFilter(MaterialFacet, v) in filters {
      assert ActiveFilter(MaterialFacet, v) in r <==> ActiveFilter(MaterialFacet, v) in kept;
    }
    assert e in r;
  }

  /** The badges mirror the checkboxes and the slider, and nothing is listed twice. */
  ghost predicate PanelValid(categories: seq<string>, materials: seq<string>, filters: seq<ActiveFilter>,
                             lo: int, hi: int)
  {
    NoDup(categories) && NoDup(materials) && NoDup(filters)
    && Mirrors(categories, filters, CategoryFacet)
    && Mirrors(materials, filters, MaterialFacet)
    && PriceAgrees(filters, lo, hi)
  }

  /** A price change keeps a valid panel valid. */
  lemma SetPriceKeepsValid(filters: seq<ActiveFilter>, categories: seq<string>, materials: seq<string>,
                           oldLo: int, oldHi: int, lo: int, hi: int)
    requires PanelValid(categories, materials, filters, oldLo, oldHi)
    ensures PanelValid(categories, materials,
                       Filter(filters, NotPriceEntry) + [ActiveFilter(PriceFacet, PriceLabel(lo, hi))], lo, hi)
  {
    ReplacePriceKeepsValid(filters, categories, materials, lo, hi);
  }

  class FacetPanel {
    var categories: seq<string>
    var materials: seq<string>
    var priceLo: int
    var priceHi: int
    var activeFilters: seq<ActiveFilter>

    /** The badges mirror the checkboxes and the slider. */
    ghost predicate Valid()
      reads this
    {
      PanelValid(categories, materials, activeFilters, priceLo, priceHi)
    }

    constructor ()
      ensures categories == [] && materials == [] && activeFilters == []
      ensures priceLo == DefaultLo && priceHi == DefaultHi
      ensures Valid()
    {
      categories := [];
      materials := [];
      priceLo := DefaultLo;
      priceHi := DefaultHi;
      activeFilters := [];
    }

    /** `handleCategoryChange`. */
    method ToggleCategory(category: string)
      modifies this
      ensures categories == Toggle(old(categories), category)
      ensures activeFilters == ToggledEntries(old(activeFilters), CategoryFacet, category, category in old(categories))
      ensures materials == old(materials) && priceLo == old(priceLo) && priceHi == old(priceHi)
      ensures old(Valid()) ==> Valid()
    {
      var wasSelected := category in categories;
      ghost var before := activeFilters;
      var newActiveFilters := Filter(activeFilters, IsNot(ActiveFilter(CategoryFacet, category)));
      if !wasSelected {
        activeFilters := newActiveFilters + [ActiveFilter(CategoryFacet, category)];
      } else {
        activeFilters := newActiveFilters;
      }
      if old(Valid()) {
        ToggleKeepsMirror(categories, before, CategoryFacet, category);
        ToggledEntriesChange(before, CategoryFacet, category, wasSelected);
        ToggleKeepsNoDup(categories, category);
      }
      categories := Toggle(categories, category);
    }

    /** `handleMaterialChange`. */
    method ToggleMaterial(material: string)
      modifies this
      ensures materials == Toggle(old(materials), material)
      ensures activeFilters == ToggledEntries(old(activeFilters), MaterialFacet, material, material in old(materials))
      ensures categories == old(categories) && priceLo == old(priceLo) && priceHi == old(priceHi)
      ensures old(Valid()) ==> Valid()
    {
      var wasSelected := material in materials;
      ghost var before := activeFilters;
      var newActiveFilters := Filter(activeFilters, IsNot(ActiveFilter(MaterialFacet, material)));
      if !wasSelected {
        activeFilters := newActiveFilters + [ActiveFilter(MaterialFacet, material)];
      } else {
        activeFilters := newActiveFilters;
      }
      if old(Valid()) {
        ToggleKeepsMirror(materials, before, MaterialFacet, material);
        ToggledEntriesChange(before, MaterialFacet, material, wasSelected);
        ToggleKeepsNoDup(materials, material);
      }
      materials := Toggle(materials, material);
    }

    /** `handlePriceChange`: the range is replaced and the price badge with it;
        the other badges keep their order. */
    method SetPrice(lo: int, hi: int)
      modifies this
      ensures priceLo == lo && priceHi == hi
      ensures activeFilters == Filter(old(activeFilters), NotPriceEntry) + [ActiveFilter(PriceFacet, PriceLabel(lo, hi))]
      ensures Filter(activeFilters, IsPriceEntry) == [ActiveFilter(PriceFacet, PriceLabel(lo, hi))]
      ensures Filter(activeFilters, NotPriceEntry) == Filter(old(activeFilters), NotPriceEntry)
      ensures categories == old(categories) && materials == old(materials)
      ensures old(Valid()) ==> Valid()
    {
      var e := ActiveFilter(PriceFacet, PriceLabel(lo, hi));
      var kept := Filter(activeFilters, NotPriceEntry);
      ReplacePriceEntry(activeFilters, lo, hi);
      if Valid() {
        SetPriceKeepsValid(activeFilters, categories, materials, priceLo, priceHi, lo, hi);
      }
      priceLo, priceHi := lo, hi;
      activeFilters := kept + [e];
    }

    /** `removeFilter`: drop the badge and undo what it stands for; removing the
        price badge resets the range. */
    method RemoveFilter(filter: ActiveFilter)
      modifies this
      ensures activeFilters == Filter(old(activeFilters), IsNot(filter))
      ensures categories == (if filter.kind == CategoryFacet then Filter(old(categories), IsNot(filter.value)) else old(categories))
      ensures materials == (if filter.kind == MaterialFacet then Filter(old(materials), IsNot(filter.value)) else old(materials))
      ensures (priceLo, priceHi) == (if filter.kind == PriceFacet then (DefaultLo, DefaultHi) else (old(priceLo), old(priceHi)))
      ensures old(Valid()) && filter in old(activeFilters) ==> Valid()
    {
      var cats, mats, lo, hi := categories, materials, priceLo, priceHi;
      match filter.kind {
        case CategoryFacet =>
          cats := Filter(categories, IsNot(filter.value));
        case MaterialFacet =>
          mats := Filter(materials, IsNot(filter.value));
        case PriceFacet =>
          lo, hi := DefaultLo, DefaultHi;
      }
      var kept := Filter(activeFilters, IsNot(filter));
      ghost var wasValid := Valid() && filter in activeFilters;
      if wasValid {
        RemoveKeepsValid(activeFilters, filter, categories, materials, priceLo, priceHi);
      }
      activeFilters, categories, materials, priceLo, priceHi := kept, cats, mats, lo, hi;
      assert wasValid ==> Valid();
    }

    /** `clearAllFilters`. */
    method ClearAll()
      modifies this
      ensures categories == [] && materials == [] && activeFilters == []
      ensures priceLo == DefaultLo && priceHi == DefaultHi
      ensures Valid()
    {
      categories := [];
      materials := [];
      priceLo, priceHi := DefaultLo, DefaultHi;
      activeFilters := [];
    }

    /** The products the page shows before sorting. */
    function Shown(products: seq<Product>): seq<Product>
      reads this
    {
      FilteredProducts(products, categories, materials, priceLo, priceHi)
    }
  }

  /** Removing a present badge keeps badges and selections in step. */
  lemma RemoveKeepsValid(filters: seq<ActiveFilter>, filter: ActiveFilter, categories: seq<string>,
                         materials: seq<string>, lo: int, hi: int)
    requires filter in filters
    requires PanelValid(categories, materials, filters, lo, hi)
    ensures var r := Filter(filters, IsNot(filter));
            var cats := if filter.kind == CategoryFacet then Filter(categories, IsNot(filter.value)) else categories;
            var mats := if filter.kind == MaterialFacet then Filter(materials, IsNot(filter.value)) else materials;
            var range := if filter.kind == PriceFacet then (DefaultLo, DefaultHi) else (lo, hi);
            PanelValid(cats, mats, r, range.0, range.1)
  {
    var r := Filter(filters, IsNot(filter));
    FilterKeepsNoDup(filters, IsNot(filter));
    FilterKeepsNoDup(categories, IsNot(filter.value));
    FilterKeepsNoDup(materials, IsNot(filter.value));
    if filter.kind == PriceFacet {
      assert filter == ActiveFilter(PriceFacet, PriceLabel(lo, hi));
      forall f | f in r ensures f.kind != PriceFacet {
        assert f in filters && f != filter;
      }
    }
  }

  // ---------------------------------------------------------------------------
  // The product filter and the price orders

  /** A product passes: no category selected or its category selected, the same
      for materials, and its price within the range, ends included. */
  predicate ProductPasses(p: Product, categories: seq<string>, materials: seq<string>, lo: int, hi: int)
  {
    (|categories| == 0 || p.category in categories)
    && (|materials| == 0 || p.material in materials)
    && lo <= p.price <= hi
  }

  function PassesFacets(categories: seq<string>, materials: seq<string>, lo: int, hi: int): Product -> bool
  {
    (p: Product) => ProductPasses(p, categories, materials, lo, hi)
  }

  function FilteredProducts(products: seq<Product>, categories: seq<string>, materials: seq<string>, lo: int, hi: int)
    : (r: seq<Product>)
    ensures forall p :: p in r ==> p in products && ProductPasses(p, categories, materials, lo, hi)
    ensures forall p :: p in products && ProductPasses(p, categories, materials, lo, hi) ==> p in r
  {
    Filter(products, PassesFacets(categories, materials, lo, hi))
  }

  /** The shown products keep the catalogue's order, and with nothing selected
      and the default range every product priced in [0, 100] is shown. */
  lemma FilteredProductsOrder(products: seq<Product>, categories: seq<string>, materials: seq<string>, lo: int, hi: int)
    ensures Subseq(FilteredProducts(products, categories, materials, lo, hi), products)
    ensures (forall p :: p in products ==> DefaultLo <= p.price <= DefaultHi)
            ==> FilteredProducts(products, [], [], DefaultLo, DefaultHi) == products
  {
    FilterIsSubseq(products, PassesFacets(categories, materials, lo, hi));
    if forall p :: p in products ==> DefaultLo <= p.price <= DefaultHi {
      FilterAll(products, PassesFacets([], [], DefaultLo, DefaultHi));
    }
  }

  /** The sort key: `a.price - b.price` orders by price, `b.price - a.price` by
      its negation. */
  function Key(p: Product, ascending: bool): int
  {
    if ascending then p.price else -p.price
  }

  ghost predicate SortedByPrice(s: seq<Product>, ascending: bool)
  {
    forall i, j :: 0 <= i < j < |s| ==> Key(s[i], ascending) <= Key(s[j], ascending)
  }

  /** Insert `x` before the first product whose key is not smaller. */
  function InsertByPrice(x: Product, s: seq<Product>, ascending: bool): (r: seq<Product>)
    ensures |r| == |s| + 1
    ensures multiset(r) == multiset(s) + multiset{x}
    ensures forall y :: y in r ==> y == x || y in s
    decreases |s|
  {
    if s == [] || Key(x, ascending) <= Key(s[0], ascending) then [x] + s
    else
      assert s == [s[0]] + s[1..];
      [s[0]] + InsertByPrice(x, s[1..], ascending)
  }

  /** The stable price sort of a copy of the filtered list. */
  function SortByPrice(s: seq<Product>, ascending: bool): (r: seq<Product>)
    ensures multiset(r) == multiset(s)
    decreases |s|
  {
    if s == [] then []
    else
      assert s == [s[0]] + s[1..];
      InsertByPrice(s[0], SortByPrice(s[1..], ascending), ascending)
  }

  /** The tail of a sorted list is sorted and starts no lower than its head. */
  lemma SortedTail(s: seq<Product>, ascending: bool)
    requires s != [] && SortedByPrice(s, ascending)
    ensures SortedByPrice(s[1..], ascending)
    ensures forall y :: y in s[1..] ==> Key(s[0], ascending) <= Key(y, ascending)
  {
    forall i, j | 0 <= i < j < |s| - 1 ensures Key(s[1..][i], ascending) <= Key(s[1..][j], ascending) {
      assert s[1..][i] == s[i + 1] && s[1..][j] == s[j + 1];
    }
    forall y | y in s[1..] ensures Key(s[0], ascending) <= Key(y, ascending) {
      var m :| 0 <= m < |s| - 1 && s[1..][m] == y;
      assert s[1..][m] == s[m + 1];
    }
  }

  lemma {:induction false} InsertKeepsSorted(x: Product, s: seq<Product>, ascending: bool)
    requires SortedByPrice(s, ascending)
    ensures SortedByPrice(InsertByPrice(x, s, ascending), ascending)
    decreases |s|
  {
    if s != [] && Key(x, ascending) > Key(s[0], ascending) {
      var t := InsertByPrice(x, s[1..], ascending);
      SortedTail(s, ascending);
      InsertKeepsSorted(x, s[1..], ascending);
      var r := [s[0]] + t;
      assert forall k :: 0 <= k < |t| ==> Key(s[0], ascending) <= Key(t[k], ascending) by {
        forall k | 0 <= k < |t| ensures Key(s[0], ascending) <= Key(t[k], ascending) {
          assert t[k] in t;
        }
      }
      forall i, j | 0 <= i < j < |r| ensures Key(r[i], ascending) <= Key(r[j], ascending) {
        if i > 0 {
          assert r[i] == t[i - 1] && r[j] == t[j - 1];
        } else {
          assert r[j] == t[j - 1];
        }
      }
    } else {
      var r := [x] + s;
      assert InsertByPrice(x, s, ascending) == r;
      forall i, j | 0 <= i < j < |r| ensures Key(r[i], ascending) <= Key(r[j], ascending) {
        assert r[j] == s[j - 1];
        if i > 0 {
          assert r[i] == s[i - 1];
        } else if j > 1 {
          assert Key(s[0], ascending) <= Key(s[j - 1], ascending);
        }
      }
    }
  }

  /** "price-low" is non-decreasing and "price-high" non-increasing by price. */
  lemma {:induction false} SortIsSorted(s: seq<Product>, ascending: bool)
    ensures SortedByPrice(SortByPrice(s, ascending), ascending)
    ensures ascending ==> forall i, j :: 0 <= i < j < |s| ==>
                            SortByPrice(s, true)[i].price <= SortByPrice(s, true)[j].price
    ensures !ascending ==> forall i, j :: 0 <= i < j < |s| ==>
                             SortByPrice(s, false)[i].price >= SortByPrice(s, false)[j].price
    decreases |s|
  {
    if s != [] {
      SortIsSorted(s[1..], ascending);
      InsertKeepsSorted(s[0], SortByPrice(s[1..], ascending), ascending);
    }
    var r := SortByPrice(s, ascending);
    assert |r| == |s| by {
      assert |multiset(r)| == |multiset(s)|;
    }
  }

  function PriceIs(k: int): Product -> bool
  {
    (p: Product) => p.price == k
  }

  /** Two one-element filters commute when at most one of them keeps its element. */
  lemma SwapDisjointSingletons(a: Product, b: Product, p: Product -> bool, rest: seq<Product>)
    requires !(p(a) && p(b))
    ensures Filter([b], p) + (Filter([a], p) + rest) == Filter([a], p) + (Filter([b], p) + rest)
  {
    FilterSingleton(a, p);
    FilterSingleton(b, p);
  }

  lemma {:induction false} InsertIsStable(x: Product, s: seq<Product>, ascending: bool, k: int)
    ensures Filter(InsertByPrice(x, s, ascending), PriceIs(k))
            == Filter([x], PriceIs(k)) + Filter(s, PriceIs(k))
    decreases |s|
  {
    var p := PriceIs(k);
    if s == [] || Key(x, ascending) <= Key(s[0], ascending) {
      FilterAppend([x], s, p);
    } else {
      var inserted := InsertByPrice(x, s[1..], ascending);
      assert InsertByPrice(x, s, ascending) == [s[0]] + inserted;
      FilterAppend([s[0]], inserted, p);
      InsertIsStable(x, s[1..], ascending, k);
      assert s == [s[0]] + s[1..];
      FilterAppend([s[0]], s[1..], p);
      assert x.price != s[0].price;
      SwapDisjointSingletons(x, s[0], p, Filter(s[1..], p));
    }
  }

  /** The sort is stable: products of equal price keep their relative order. */
  lemma {:induction false} SortIsStable(s: seq<Product>, ascending: bool, k: int)
    ensures Filter(SortByPrice(s, ascending), PriceIs(k)) == Filter(s, PriceIs(k))
    decreases |s|
  {
    if s != [] {
      SortIsStable(s[1..], ascending, k);
      InsertIsStable(s[0], SortByPrice(s[1..], ascending), ascending, k);
      FilterAppend([s[0]], s[1..], PriceIs(k));
      assert s == [s[0]] + s[1..];
    }
  }
}
