/** The live-data demo card: it loads facts from the fact service (or mock
    facts in demo mode, or fallback facts when the service fails), renders the
    first three, and toggles a rendered fact in the shared favourites keys under
    an id made from its position. */
module AxolotlDemo {
  import opened Common
  import opened Records
  import opened FavoriteLists

  const AxolotlIdPrefix: string := "axolotl-fact-"

  /** The favourite id of the fact rendered at `index`. */
  function AxolotlId(index: nat): (id: string)
    ensures |id| > |AxolotlIdPrefix| && id[..|AxolotlIdPrefix|] == AxolotlIdPrefix
  {
    AxolotlIdPrefix + NatToString(index)
  }

  /** Different positions get different ids. */
  lemma AxolotlIdInjective(i: nat, j: nat)
    requires AxolotlId(i) == AxolotlId(j)
    ensures i == j
  {
    var n := |AxolotlIdPrefix|;
    assert AxolotlId(i)[n..] == NatToString(i);
    assert AxolotlId(j)[n..] == NatToString(j);
    NatToStringInjective(i, j);
  }

  /** The record written for a favourited axolotl fact. */
  function NewFact(fact: string, index: nat): (f: Fact)
    ensures f.id == AxolotlId(index) && f.fact == fact && f.animal == "Axolotl" && f.category == "Amfibi"
    ensures f.source.None?
  {
    Fact(AxolotlId(index), fact, "Axolotl", "Amfibi", "/placeholder.svg?height=200&width=300&text=Axolotl",
         None, None, None, None, None, None, None, None)
  }

  const MockFacts: seq<string> := [
    "Axolotls are critically endangered in the wild but common in laboratories.",
    "Axolotls can regenerate their limbs, organs, and even parts of their brain.",
    "Axolotls remain aquatic and gilled throughout their lives."
  ]

  /** The fallback texts are the mock texts; only their (unrendered) images differ. */
  const FallbackFacts: seq<string> := MockFacts

  /** What a finished load leaves: mock facts in demo mode; otherwise the
      service's `data` whenever it is an array, even an empty one; otherwise
      the fallback facts. */
  function DemoLoad(isDemoMode: bool, response: FactsResponse): (r: (seq<string>, ApiStatus))
    ensures r.1 == Demo <==> isDemoMode
    ensures r.1 == Demo ==> r.0 == MockFacts
    ensures r.1 == Success <==> !isDemoMode && response.Received? && response.data.Some?
    ensures r.1 == Success ==> r.0 == response.data.value
    ensures r.1 != Demo && r.1 != Success ==> r == (FallbackFacts, Error)
  {
    if isDemoMode then (MockFacts, Demo)
    else if response.Received? && response.data.Some? then (response.data.value, Success)
    else (FallbackFacts, Error)
  }

  /** The rendered facts: at most the first three. */
  function Rendered(displayFacts: seq<string>): (r: seq<string>)
    ensures |r| == (if |displayFacts| < 3 then |displayFacts| else 3)
    ensures r == displayFacts[..|r|]
  {
    if |displayFacts| < 3 then displayFacts else displayFacts[..3]
  }

  /** The status badge text: each of the four texts appears exactly in its own
      state. */
  function BadgeText(loading: bool, apiStatus: ApiStatus): (text: string)
    ensures text == "Loading..." <==> loading
    ensures text == "API Connected" <==> !loading && apiStatus == Success
    ensures text == "Demo Mode" <==> !loading && apiStatus == Demo
    ensures text == "API Offline" <==> !loading && apiStatus != Success && apiStatus != Demo
  {
    if loading then "Loading..."
    else if apiStatus == Success then "API Connected"
    else if apiStatus == Demo then "Demo Mode"
    else "API Offline"
  }

  /** The "Source:" line. */
  function SourceText(isDemoMode: bool, apiStatus: ApiStatus): (text: string)
    ensures isDemoMode <==> text == "mock"
    ensures !isDemoMode && apiStatus == Success <==> text == "api"
    ensures !isDemoMode && apiStatus != Success <==> text == "fallback"
  {
    if isDemoMode then "mock" else if apiStatus == Success then "api" else "fallback"
  }

  /** What a heart toggle does to the stored records, and that it keeps
      records and ids in step. */
  lemma ToggleFavoriteFacts(ids: seq<string>, facts: seq<Fact>, wasFavorite: bool, newFact: Fact)
    requires wasFavorite == (newFact.id in ids)
    ensures var r := AxolotlFacts(facts, wasFavorite, newFact);
            (!wasFavorite ==> CountId(r, newFact.id) == 1 && r[|r| - 1] == newFact)
            && (wasFavorite ==> CountId(r, newFact.id) == 0)
            && (Synced(ids, facts) ==> Synced(Toggle(ids, newFact.id), r))
  {
    AxolotlToggleRecords(facts, wasFavorite, newFact);
    if Synced(ids, facts) {
      AxolotlToggleKeepsSync(ids, facts, newFact);
    }
  }

  class DemoCard {
    var loading: bool
    var apiStatus: ApiStatus
    var displayFacts: seq<string>
    var isDemoMode: bool
    var favorites: seq<string>
    const store: Store

    constructor (store: Store)
      ensures this.store == store && !loading && apiStatus == Loading
      ensures displayFacts == [] && !isDemoMode && favorites == []
    {
      this.store := store;
      loading := false;
      apiStatus := Loading;
      displayFacts := [];
      isDemoMode := false;
      favorites := [];
    }

    /** The mount effect: read the favourite ids; an unreadable value gives none. */
    method LoadFavorites()
      modifies this
      ensures FavoritesKey !in store.entries ==> favorites == old(favorites)
      ensures FavoritesKey in store.entries ==>
                favorites == (if store.entries[FavoritesKey].IdList? then store.entries[FavoritesKey].ids else [])
      ensures loading == old(loading) && apiStatus == old(apiStatus)
      ensures displayFacts == old(displayFacts) && isDemoMode == old(isDemoMode)
    {
      if FavoritesKey in store.entries {
        var saved := store.entries[FavoritesKey];
        favorites := if saved.IdList? then saved.ids else [];
      }
    }

    /** The mode button; the load effect then runs again. */
    method ToggleDemoMode()
      modifies this
      ensures isDemoMode == !old(isDemoMode)
      ensures loading == old(loading) && apiStatus == old(apiStatus)
      ensures displayFacts == old(displayFacts) && favorites == old(favorites)
    {
      isDemoMode := !isDemoMode;
    }

    method StartFetch()
      modifies this
      ensures loading && apiStatus == Loading
      ensures displayFacts == old(displayFacts) && isDemoMode == old(isDemoMode) && favorites == old(favorites)
    {
      loading := true;
      apiStatus := Loading;
    }

    /** The load has finished; `response` is ignored in demo mode. */
    method CompleteFetch(response: FactsResponse)
      modifies this
      ensures (displayFacts, apiStatus) == DemoLoad(isDemoMode, response) && !loading
      ensures isDemoMode == old(isDemoMode) && favorites == old(favorites)
    {
      if isDemoMode {
        displayFacts := MockFacts;
        apiStatus := Demo;
      } else if response.Received? && response.data.Some? {
        displayFacts := response.data.value;
        apiStatus := Success;
      } else {
        displayFacts := FallbackFacts;
        apiStatus := Error;
      }
      loading := false;
    }

    /** The heart button of the fact rendered at `index`. */
    method ToggleFavorite(fact: string, index: nat)
      modifies this, store
      ensures favorites == Toggle(old(favorites), AxolotlId(index))
      ensures var stored := AxolotlFacts(StoredFactsOrEmpty(old(store.entries)), AxolotlId(index) in old(favorites),
                                         NewFact(fact, index));
              store.entries == old(store.entries)[FavoritesKey := IdList(favorites)][FactsDataKey := FactList(stored)]
              && (AxolotlId(index) !in old(favorites) ==>
                    CountId(stored, AxolotlId(index)) == 1 && stored[|stored| - 1] == NewFact(fact, index))
              && (AxolotlId(index) in old(favorites) ==> CountId(stored, AxolotlId(index)) == 0)
      ensures StoredIds(old(store.entries)) == Some(old(favorites))
              && Synced(old(favorites), StoredFactsOrEmpty(old(store.entries)))
              ==> Synced(favorites, StoredFactsOrEmpty(store.entries))
      ensures loading == old(loading) && apiStatus == old(apiStatus)
      ensures displayFacts == old(displayFacts) && isDemoMode == old(isDemoMode)
    {
      var factId := AxolotlId(index);
      var wasFavorite := factId in favorites;
      var newFact := NewFact(fact, index);
      ghost var before := StoredFactsOrEmpty(store.entries);
      favorites := Toggle(favorites, factId);
      store.SetItem(FavoritesKey, IdList(favorites));
      var factsData := StoredFactsOrEmpty(store.entries);
      assert factsData == before;
      factsData := WithoutFact(factsData, factId);
      if !wasFavorite {
        factsData := factsData + [newFact];
      }
      assert factsData == AxolotlFacts(before, wasFavorite, newFact);
      store.SetItem(FactsDataKey, FactList(factsData));
      assert StoredFactsOrEmpty(store.entries) == factsData;
      ToggleFavoriteFacts(old(favorites), before, wasFavorite, newFact);
    }
  }

  /** The heart shown filled at `index` is exactly the one whose id the last
      toggle at that index added. */
  lemma ToggleFlipsHeart(favorites: seq<string>, index: nat)
    ensures AxolotlId(index) in Toggle(favorites, AxolotlId(index)) <==> AxolotlId(index) !in favorites
  {
  }

  /** Toggling one position never changes the heart of another. */
  lemma ToggleKeepsOtherHearts(favorites: seq<string>, i: nat, j: nat)
    requires i != j
    ensures AxolotlId(j) in Toggle(favorites, AxolotlId(i)) <==> AxolotlId(j) in favorites
  {
    if AxolotlId(i) == AxolotlId(j) {
      AxolotlIdInjective(i, j);
    }
  }
}
