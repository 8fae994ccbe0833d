/** The search page: the products page's filter panel plus a free-text term
    taken from the `q` query parameter and edited in a search box. */
module Search {
  import opened Common
  import opened Catalog
  import opened Facets

  /** The lower-cased term occurs in the lower-cased name, description or category. */
  predicate MatchesTerm(p: Product, term: string)
  {
    var t := Lower(term);
    Includes(Lower(p.name), t) || Includes(Lower(p.description), t) || Includes(Lower(p.category), t)
  }

  /** An empty term is falsy and restricts nothing. */
  predicate SearchPasses(p: Product, term: string, categories: seq<string>, materials: seq<string>, lo: int, hi: int)
  {
    (term == "" || MatchesTerm(p, term)) && ProductPasses(p, categories, materials, lo, hi)
  }

  function PassesSearch(term: string, categories: seq<string>, materials: seq<string>, lo: int, hi: int)
    : Product -> bool
  {
    (p: Product) => SearchPasses(p, term, categories, materials, lo, hi)
  }

  function SearchResults(products: seq<Product>, term: string, categories: seq<string>, materials: seq<string>,
                         lo: int, hi: int): (r: seq<Product>)
    ensures forall p :: p in r ==> p in products && SearchPasses(p, term, categories, materials, lo, hi)
    ensures forall p :: p in products && SearchPasses(p, term, categories, materials, lo, hi) ==> p in r
  {
    Filter(products, PassesSearch(term, categories, materials, lo, hi))
  }

  /** With an empty term the search page shows what the products page shows. */
  lemma EmptyTermIsProductFilter(products: seq<Product>, categories: seq<string>, materials: seq<string>,
                                 lo: int, hi: int)
    ensures SearchResults(products, "", categories, materials, lo, hi)
            == FilteredProducts(products, categories, materials, lo, hi)
  {
    FilterAgrees(products, PassesSearch("", categories, materials, lo, hi), PassesFacets(categories, materials, lo, hi));
  }

  /** A term only narrows: the results keep the catalogue's order and are a
      sub-list of what the panel alone would show. */
  lemma SearchNarrowsFacets(products: seq<Product>, term: string, categories: seq<string>, materials: seq<string>,
                            lo: int, hi: int)
    ensures Subseq(SearchResults(products, term, categories, materials, lo, hi),
                   FilteredProducts(products, categories, materials, lo, hi))
    ensures Subseq(SearchResults(products, term, categories, materials, lo, hi), products)
  {
    var facets := PassesFacets(categories, materials, lo, hi);
    var search := PassesSearch(term, categories, materials, lo, hi);
    FilterNarrows(products, facets, search);
    FilterIsSubseq(Filter(products, facets), search);
    FilterIsSubseq(products, search);
  }

  /** The term test is a substring test on the lower-cased fields. */
  lemma MatchesTermIsSubstring(p: Product, term: string)
    ensures MatchesTerm(p, term) <==>
              (exists i :: OccursAt(Lower(p.name), Lower(term), i))
              || (exists i :: OccursAt(Lower(p.description), Lower(term), i))
              || (exists i :: OccursAt(Lower(p.category), Lower(term), i))
  {
    IncludesIff(Lower(p.name), Lower(term));
    IncludesIff(Lower(p.description), Lower(term));
    IncludesIff(Lower(p.category), Lower(term));
  }

  /** The line above the results: "Searching..." exactly while loading, and
      otherwise a line that starts "Found " and ends " products". */
  function ResultLine(isLoading: bool, count: nat): (text: string)
    ensures text == "Searching..." <==> isLoading
    ensures !isLoading ==> |text| > 15 && text[..6] == "Found " && text[|text| - 9..] == " products"
  {
    if isLoading then "Searching..." else "Found " + NatToString(count) + " products"
  }

  /** Once loading is over, the line tells the exact number of results. */
  lemma ResultLineInjective(a: nat, b: nat)
    requires ResultLine(false, a) == ResultLine(false, b)
    ensures a == b
  {
    var ta, tb := ResultLine(false, a), ResultLine(false, b);
    assert |NatToString(a)| == |NatToString(b)|;
    assert NatToString(a) == ta[6..|ta| - 9];
    assert NatToString(b) == tb[6..|tb| - 9];
    NatToStringInjective(a, b);
  }

  class SearchPage {
    var searchTerm: string
    var isLoading: bool
    const panel: FacetPanel

    constructor (query: string, panel: FacetPanel)
      ensures searchTerm == query && isLoading && this.panel == panel
    {
      searchTerm := query;
      isLoading := true;
      this.panel := panel;
    }

    /** The products shown before sorting. */
    function Shown(products: seq<Product>): seq<Product>
      reads this, panel
    {
      SearchResults(products, searchTerm, panel.categories, panel.materials, panel.priceLo, panel.priceHi)
    }

    /** A new `q`: both effects run, the loading flag is raised and the box
        takes the query. */
    method QueryChanged(query: string)
      modifies this
      ensures searchTerm == query && isLoading
    {
      isLoading := true;
      searchTerm := query;
    }

    /** The simulated search delay has passed. */
    method LoadingDone()
      modifies this
      ensures !isLoading && searchTerm == old(searchTerm)
    {
      isLoading := false;
    }

    /** Typing in the box (the clear button types the empty string). */
    method SetSearchTerm(term: string)
      modifies this
      ensures searchTerm == term && isLoading == old(isLoading)
    {
      searchTerm := term;
    }
  }

  /** Clearing the box shows what the products page would show. */
  lemma ClearedSearchShowsPanel(products: seq<Product>, panel: FacetPanel)
    ensures SearchResults(products, "", panel.categories, panel.materials, panel.priceLo, panel.priceHi)
            == panel.Shown(products)
  {
    EmptyTermIsProductFilter(products, panel.categories, panel.materials, panel.priceLo, panel.priceHi);
  }
}
