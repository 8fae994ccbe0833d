/** The explore page: cat facts from the fact service (or six fixed fallback
    facts), filtered by a search term and a category, with a heart button that
    toggles a fact in the shared favourites keys. */
module Explore {
  import opened Common
  import opened Records
  import opened FavoriteLists

  // ---------------------------------------------------------------------------
  // The search and category filter

  /** The lower-cased term occurs in the lower-cased text, animal, name or breed. */
  predicate MatchesSearch(f: Fact, term: string)
  {
    var t := Lower(term);
    Includes(Lower(f.fact), t) || Includes(Lower(f.animal), t)
    || (f.name.Some? && Includes(Lower(f.name.value), t))
    || (f.breed.Some? && Includes(Lower(f.breed.value), t))
  }

  /** The category select: three adoption states, otherwise the fact's category. */
  predicate MatchesCategory(f: Fact, category: string)
  {
    if category == "Tersedia" then f.adoptionStatus == Some(Available)
    else if category == "Proses Adopsi" then f.adoptionStatus == Some(Pending)
    else if category == "Sudah Diadopsi" then f.adoptionStatus == Some(Adopted)
    else f.category == category
  }

  function SearchFilter(term: string): Fact -> bool
  {
    (f: Fact) => MatchesSearch(f, term)
  }

  function CategoryFilter(category: string): Fact -> bool
  {
    (f: Fact) => MatchesCategory(f, category)
  }

  /** A fact passes the page's filter: an empty term and "Semua" restrict nothing. */
  predicate Passes(f: Fact, term: string, category: string)
  {
    (term == "" || MatchesSearch(f, term)) && (category == "Semua" || MatchesCategory(f, category))
  }

  /** The filter effect: the search filter when a term is typed, then the
      category filter unless "Semua" is selected. */
  function FilteredFacts(facts: seq<Fact>, term: string, category: string): (r: seq<Fact>)
    ensures forall f :: f in r ==> f in facts && Passes(f, term, category)
    ensures forall f :: f in facts && Passes(f, term, category) ==> f in r
  {
    var searched := if term != "" then Filter(facts, SearchFilter(term)) else facts;
    if category != "Semua" then Filter(searched, CategoryFilter(category)) else searched
  }

  /** The filtered list keeps the loaded order. */
  lemma FilteredIsSubseq(facts: seq<Fact>, term: string, category: string)
    ensures Subseq(FilteredFacts(facts, term, category), facts)
  {
    var searched := if term != "" then Filter(facts, SearchFilter(term)) else facts;
    if term != "" {
      FilterIsSubseq(facts, SearchFilter(term));
    } else {
      SubseqRefl(facts);
    }
    if category != "Semua" {
      FilterIsSubseq(searched, CategoryFilter(category));
      SubseqTransitive(FilteredFacts(facts, term, category), searched, facts);
    }
  }

  /** With no term and "Semua" every loaded fact is shown. */
  lemma UnrestrictedShowsAll(facts: seq<Fact>)
    ensures FilteredFacts(facts, "", "Semua") == facts
  {
  }

  /** The search is a substring test on the lower-cased fields. */
  lemma SearchIsSubstring(f: Fact, term: string)
    ensures MatchesSearch(f, term) <==>
              (exists i :: OccursAt(Lower(f.fact), Lower(term), i))
              || (exists i :: OccursAt(Lower(f.animal), Lower(term), i))
              || (f.name.Some? && exists i :: OccursAt(Lower(f.name.value), Lower(term), i))
              || (f.breed.Some? && exists i :: OccursAt(Lower(f.breed.value), Lower(term), i))
  {
    IncludesIff(Lower(f.fact), Lower(term));
    IncludesIff(Lower(f.animal), Lower(term));
    if f.name.Some? { IncludesIff(Lower(f.name.value), Lower(term)); }
    if f.breed.Some? { IncludesIff(Lower(f.breed.value), Lower(term)); }
  }

  // ---------------------------------------------------------------------------
  // Loading facts

  datatype CatProfile = CatProfile(
    name: string, breed: string, age: string, location: string, personality: seq<string>,
    adoptionStatus: AdoptionStatus, specialNeeds: Option<string>, image: string)

  /** The profiles paired with the first six facts of the service. */
  const BaseCatData: seq<CatProfile> := [
    CatProfile("Luna", "Persian", "2 tahun", "Jakarta Selatan", ["Penyayang", "Tenang", "Ramah"], Available, None, "/images/luna.jpg"),
    CatProfile("Milo", "Maine Coon", "3 tahun", "Bandung", ["Aktif", "Sabar", "Cerdas"], Available, None, "/images/milo.jpg"),
    CatProfile("Bella", "Scottish Fold", "1 tahun", "Surabaya", ["Playful", "Energik", "Sosial"], Pending, None, "/images/bella.jpg"),
    CatProfile("Oscar", "British Shorthair", "4 tahun", "Yogyakarta", ["Mandiri", "Tenang", "Setia"], Available, None, "/images/oscar.jpg"),
    CatProfile("Coco", "Siamese", "2 tahun", "Medan", ["Vokal", "Cerdas", "Ekspresif"], Available,
               Some("Membutuhkan stimulasi mental yang tinggi"), "/images/coco.jpg"),
    CatProfile("Shadow", "Bombay", "3 tahun", "Semarang", ["Loyal", "Affectionate", "Mengikuti"], Adopted, None, "/images/shadow.jpg")
  ]

  /** `api-meow-<index>-<time>`. */
  function ApiFactId(i: nat, now: nat): string
  {
    "api-meow-" + NatToString(i) + "-" + NatToString(now)
  }

  /** The record made from the service's `i`-th fact: the `i`-th profile's
      fields, or the defaults past the sixth. */
  function ApiFact(text: string, i: nat, now: nat): (f: Fact)
    ensures f.id == ApiFactId(i, now) && f.fact == text
    ensures f.source == Some(Api) && f.category == "Mamalia"
  {
    if i < |BaseCatData| then
      var c := BaseCatData[i];
      Fact(ApiFactId(i, now), text, c.name, "Mamalia", c.image, Some(Api), Some(c.name), Some(c.breed),
           Some(c.age), Some(c.location), Some(c.personality), Some(c.adoptionStatus), c.specialNeeds)
    else
      Fact(ApiFactId(i, now), text, "Cat", "Mamalia", "/placeholder.svg?height=300&width=400", Some(Api),
           Some("Cat " + NatToString(i + 1)), Some("Mixed"), Some("Unknown"), Some("Unknown"),
           Some(["Friendly"]), Some(Available), None)
  }

  function ApiFacts(data: seq<string>, now: nat): (r: seq<Fact>)
    ensures |r| == |data|
    ensures forall i :: 0 <= i < |r| ==> r[i] == ApiFact(data[i], i, now)
  {
    seq(|data|, i requires 0 <= i < |data| => ApiFact(data[i], i, now))
  }

  function FallbackId(k: nat, now: nat): string
  {
    "fallback-cat-" + NatToString(k) + "-" + NatToString(now)
  }

  /** The texts of the six fixed facts used whenever the service fails. */
  const FallbackTexts: seq<string> := [
    "Kucing dapat tidur hingga 16 jam sehari.",
    "Kucing mengeong hanya untuk berkomunikasi dengan manusia.",
    "Kucing memiliki lebih dari 20 otot yang mengontrol telinga mereka.",
    "Kucing bisa melompat hingga enam kali panjang tubuhnya.",
    "Kucing mendengkur sebagai bentuk relaksasi atau saat sakit.",
    "Kucing domestik pertama kali dijinakkan di Timur Tengah sekitar 9.000 tahun lalu."
  ]

  const FallbackImages: seq<string> := [
    "/images/luna-persian.png", "/images/milo-mainecoon.png", "/images/bella-scottishfold.png",
    "/images/oscar-british.png", "/images/coco-siamese.png", "/images/shadow-bombay.png"
  ]

  /** The `k`-th fixed fact (from 0): the `k`-th profile with its own text and
      picture, named after the cat. */
  function FallbackFact(k: nat, now: nat): (f: Fact)
    requires k < 6
    ensures f.source == Some(Fallback) && f.category == "Mamalia"
    ensures f.fact == FallbackTexts[k] && f.name == Some(BaseCatData[k].name)
  {
    var c := BaseCatData[k];
    Fact(FallbackId(k + 1, now), FallbackTexts[k], c.name, "Mamalia", FallbackImages[k], Some(Fallback),
         Some(c.name), Some(c.breed), Some(c.age), Some(c.location), Some(c.personality),
         Some(c.adoptionStatus), c.specialNeeds)
  }

  /** The six fixed facts, in order. */
  function FallbackFacts(now: nat): (r: seq<Fact>)
    ensures |r| == 6 && forall k :: 0 <= k < 6 ==> r[k] == FallbackFact(k, now)
  {
    seq(6, k requires 0 <= k < 6 => FallbackFact(k, now))
  }

  /** What a finished request leaves: the service's facts when `data` is a
      non-empty array, the fallback facts otherwise. */
  function ExploreLoad(response: FactsResponse, now: nat): (r: (seq<Fact>, ApiStatus))
    ensures r.1 == Success <==> response.Received? && response.data.Some? && |response.data.value| > 0
    ensures r.1 != Success ==> r == (FallbackFacts(now), Error)
    ensures r.1 == Success ==> r.0 == ApiFacts(response.data.value, now)
  {
    if response.Received? && response.data.Some? && |response.data.value| > 0 then
      (ApiFacts(response.data.value, now), Success)
    else
      (FallbackFacts(now), Error)
  }

  /** A string of digits followed by a dash is determined by what precedes the dash. */
  lemma DigitsBeforeDash(a: string, b: string, s: string, t: string)
    requires forall i :: 0 <= i < |a| ==> '0' <= a[i] <= '9'
    requires forall i :: 0 <= i < |b| ==> '0' <= b[i] <= '9'
    requires s != [] && t != [] && s[0] == '-' && t[0] == '-'
    requires a + s == b + t
    ensures a == b
  {
    var k := if |a| < |b| then |a| else |b|;
    assert (a + s)[k] == (b + t)[k];
    assert |a| == |b|;
    assert a == (a + s)[..|a|] && b == (b + t)[..|b|];
  }

  /** Facts at different positions get different ids, whatever time stamps
      their ids carry. */
  lemma ApiFactIdsDistinct(i: nat, j: nat, t1: nat, t2: nat)
    requires i != j
    ensures ApiFactId(i, t1) != ApiFactId(j, t2)
  {
    var p := "api-meow-";
    var a, b := NatToString(i), NatToString(j);
    var s, t := "-" + NatToString(t1), "-" + NatToString(t2);
    assert ApiFactId(i, t1) == p + (a + s);
    assert ApiFactId(j, t2) == p + (b + t);
    if ApiFactId(i, t1) == ApiFactId(j, t2) {
      assert (p + (a + s))[|p|..] == a + s;
      assert (p + (b + t))[|p|..] == b + t;
      DigitsBeforeDash(a, b, s, t);
      NatToStringInjective(i, j);
    }
  }

  /** Every loaded list is tagged with its origin and every fact is a mammal. */
  lemma LoadedFactsShape(response: FactsResponse, now: nat)
    ensures var (facts, status) := ExploreLoad(response, now);
            (status == Success ==>
               |facts| == |response.data.value|
               && forall i :: 0 <= i < |facts| ==>
                    facts[i].source == Some(Api) && facts[i].fact == response.data.value[i])
            && (status == Error ==>
                  |facts| == 6 && forall i :: 0 <= i < |facts| ==> facts[i].source == Some(Fallback))
            && forall f :: f in facts ==> f.category == "Mamalia"
  {
  }

  /** Facts past the sixth get the default profile. */
  lemma ApiFactDefaults(text: string, i: nat, now: nat)
    requires i >= 6
    ensures var f := ApiFact(text, i, now);
            f.animal == "Cat" && f.name == Some("Cat " + NatToString(i + 1))
            && f.breed == Some("Mixed") && f.adoptionStatus == Some(Available) && f.specialNeeds.None?
  {
  }

  /** The connection badge text: each of the three texts appears exactly in its
      own state, so the badge tells the visitor which state the page is in. */
  function StatusText(loading: bool, apiStatus: ApiStatus): (text: string)
    ensures text == "Memuat API..." <==> loading
    ensures text == "API Terhubung" <==> !loading && apiStatus == Success
    ensures text == "Mode Offline" <==> !loading && apiStatus != Success
  {
    if loading then "Memuat API..." else if apiStatus == Success then "API Terhubung" else "Mode Offline"
  }

  // ---------------------------------------------------------------------------
  // The page

  /** The category select's items. */
  const Categories: seq<string> := ["Semua", "Mamalia", "Tersedia", "Proses Adopsi", "Sudah Diadopsi"]

  class ExplorePage {
    var facts: seq<Fact>
    var searchTerm: string
    var selectedCategory: string
    var loading: bool
    var apiStatus: ApiStatus
    var favorites: seq<string>
    const store: Store

    /** `filteredFacts`, which the filter effect recomputes whenever the facts,
        the term or the category change. */
    function Shown(): seq<Fact>
      reads this
    {
      FilteredFacts(facts, searchTerm, selectedCategory)
    }

    constructor (store: Store)
      ensures this.store == store && facts == [] && searchTerm == "" && selectedCategory == "Semua"
      ensures loading && apiStatus == Loading && favorites == []
    {
      this.store := store;
      facts := [];
      searchTerm := "";
      selectedCategory := "Semua";
      loading := true;
      apiStatus := Loading;
      favorites := [];
    }

    /** The mount effect: read the favourite ids; an unreadable value gives none. */
    method LoadFavorites()
      modifies this
      ensures FavoritesKey !in store.entries ==> favorites == old(favorites)
      ensures FavoritesKey in store.entries ==>
                favorites == (if store.entries[FavoritesKey].IdList? then store.entries[FavoritesKey].ids else [])
      ensures facts == old(facts) && searchTerm == old(searchTerm) && selectedCategory == old(selectedCategory)
      ensures loading == old(loading) && apiStatus == old(apiStatus)
    {
      if FavoritesKey in store.entries {
        var saved := store.entries[FavoritesKey];
        if saved.IdList? {
          favorites := saved.ids;
        } else {
          favorites := [];
        }
      }
    }

    method StartFetch()
      modifies this
      ensures loading && apiStatus == Loading
      ensures facts == old(facts) && favorites == old(favorites)
      ensures searchTerm == old(searchTerm) && selectedCategory == old(selectedCategory)
    {
      loading := true;
      apiStatus := Loading;
    }

    /** The request has finished (or failed) at time `now`. */
    method CompleteFetch(response: FactsResponse, now: nat)
      modifies this
      ensures (facts, apiStatus) == ExploreLoad(response, now) && !loading
      ensures favorites == old(favorites)
      ensures searchTerm == old(searchTerm) && selectedCategory == old(selectedCategory)
    {
      var loaded := ExploreLoad(response, now);
      facts := loaded.0;
      apiStatus := loaded.1;
      loading := false;
    }

    /** The search input's `onChange`. */
    method SetSearchTerm(t: string)
      modifies this
      ensures searchTerm == t
      ensures facts == old(facts) && selectedCategory == old(selectedCategory) && favorites == old(favorites)
      ensures loading == old(loading) && apiStatus == old(apiStatus)
      ensures Shown() == FilteredFacts(facts, t, selectedCategory)
    {
      searchTerm := t;
    }

    /** The category select's `onValueChange`, offering only its five items. */
    method SelectCategory(c: string)
      requires c in Categories
      modifies this
      ensures selectedCategory == c
      ensures facts == old(facts) && searchTerm == old(searchTerm) && favorites == old(favorites)
      ensures loading == old(loading) && apiStatus == old(apiStatus)
    {
      selectedCategory := c;
    }

    /** The "no results" reset button: the filters go back to their initial
        values, so every loaded fact is shown again. */
    method ResetFilters()
      modifies this
      ensures searchTerm == "" && selectedCategory == "Semua"
      ensures facts == old(facts) && favorites == old(favorites)
      ensures loading == old(loading) && apiStatus == old(apiStatus)
      ensures Shown() == facts
    {
      searchTerm := "";
      selectedCategory := "Semua";
      UnrestrictedShowsAll(facts);
    }

    /** The heart button; the page always passes a fact together with its own id. */
    method ToggleFavorite(factId: string, fact: Fact)
      requires factId == fact.id
      modifies this, store
      ensures favorites == Toggle(old(favorites), factId)
      ensures store.entries == old(store.entries)[FavoritesKey := IdList(favorites)]
                [FactsDataKey := FactList(ExploreFacts(StoredFactsOrEmpty(old(store.entries)), factId in old(favorites), fact))]
      ensures StoredIds(old(store.entries)) == Some(old(favorites))
              && Synced(old(favorites), StoredFactsOrEmpty(old(store.entries)))
              ==> Synced(favorites, StoredFactsOrEmpty(store.entries))
      ensures facts == old(facts) && searchTerm == old(searchTerm) && selectedCategory == old(selectedCategory)
    {
      var isCurrentlyFavorite := factId in favorites;
      favorites := Toggle(favorites, factId);
      store.SetItem(FavoritesKey, IdList(favorites));
      var factsData: seq<Fact> := [];
      if FactsDataKey in store.entries && store.entries[FactsDataKey].FactList? {
        factsData := store.entries[FactsDataKey].facts;
      }
      ghost var before := factsData;
      if !isCurrentlyFavorite {
        if !HasFactId(factsData, factId) {
          factsData := factsData + [fact];
        }
      } else {
        factsData := WithoutFact(factsData, factId);
      }
      store.SetItem(FactsDataKey, FactList(factsData));
      if Synced(old(favorites), before) {
        ExploreToggleKeepsSync(old(favorites), before, fact);
      }
    }
  }
}
