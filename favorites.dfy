/** The favourites page: it reconciles the two favourites keys on mount, removes
    one favourite or all of them, shows three statistics over the shown records,
    and picks up to four inspiration facts from the fact service (or three
    fixed axolotl facts). */
module Favorites {
  import opened Common
  import opened Records
  import opened FavoriteLists

  // ---------------------------------------------------------------------------
  // Statistics

  function IsFromApi(f: Fact): bool
  {
    f.source == Some(Api)
  }

  /** "Dari Live API": the shown records that came from the service. */
  function ApiCount(facts: seq<Fact>): (n: nat)
    ensures n <= |facts|
    ensures n == |facts| <==> forall f :: f in facts ==> f.source == Some(Api)
  {
    var r := Filter(facts, IsFromApi);
    if |r| == |facts| then
      FilterAllKept(facts, IsFromApi);
      |r|
    else
      FilterDropped(facts, IsFromApi);
      |r|
  }

  /** `ApiCount` counts: nothing in the empty list, one for a single record
      exactly when it came from the service, and the counts of two parts add up. */
  lemma ApiCountBase(f: Fact)
    ensures ApiCount([]) == 0
    ensures ApiCount([f]) == (if f.source == Some(Api) then 1 else 0)
  {
    assert Filter([f], IsFromApi) == (if IsFromApi(f) then [f] else []) + Filter([f][1..], IsFromApi);
  }

  lemma ApiCountAdds(a: seq<Fact>, b: seq<Fact>)
    ensures ApiCount(a + b) == ApiCount(a) + ApiCount(b)
  {
    FilterAppend(a, b, IsFromApi);
  }

  /** The count after one more record: one more exactly when the record came
      from the service. */
  lemma ApiCountPush(facts: seq<Fact>, f: Fact)
    ensures ApiCount(facts + [f]) == ApiCount(facts) + (if f.source == Some(Api) then 1 else 0)
  {
    ApiCountAdds(facts, [f]);
    ApiCountBase(f);
  }

  /** A filter that keeps the full length keeps every element. */
  lemma {:induction false} FilterAllKept<T>(s: seq<T>, p: T -> bool)
    requires |Filter(s, p)| == |s|
    ensures forall x :: x in s ==> p(x)
    decreases |s|
  {
    if s != [] {
      if p(s[0]) {
        assert Filter(s, p) == [s[0]] + Filter(s[1..], p);
      } else {
        assert false;
      }
      FilterAllKept(s[1..], p);
      forall x | x in s ensures p(x) {
        if x != s[0] {
          assert x in s[1..];
        }
      }
    }
  }

  /** A filter that keeps fewer elements dropped one of them. */
  lemma FilterDropped<T>(s: seq<T>, p: T -> bool)
    requires |Filter(s, p)| < |s|
    ensures exists x :: x in s && !p(x)
  {
    if forall x :: x in s ==> p(x) {
      FilterAll(s, p);
      assert false;
    }
  }

  /** "Total Karakter": `reduce((total, fact) => total + fact.fact.length, acc)`. */
  function CharReduce(facts: seq<Fact>, acc: int): int
    decreases |facts|
  {
    if facts == [] then acc else CharReduce(facts[1..], acc + |facts[0].fact|)
  }

  /** All shown texts written one after another. */
  function Joined(facts: seq<Fact>): string
    decreases |facts|
  {
    if facts == [] then "" else facts[0].fact + Joined(facts[1..])
  }

  /** The character statistic is the length of all the texts together. */
  lemma {:induction false} CharReduceIsJoinedLength(facts: seq<Fact>, acc: int)
    ensures CharReduce(facts, acc) == acc + |Joined(facts)|
    decreases |facts|
  {
    if facts != [] {
      CharReduceIsJoinedLength(facts[1..], acc + |facts[0].fact|);
    }
  }

  // ---------------------------------------------------------------------------
  // Inspiration facts

  const FallbackAxolotlFacts: seq<string> := [
    "Axolotl dapat meregenerasi anggota tubuh mereka dengan sempurna!",
    "Axolotl adalah salamander yang tetap dalam bentuk larva seumur hidup.",
    "Axolotl memiliki kemampuan regenerasi yang luar biasa bahkan untuk organ internal."
  ]

  /** What a finished request leaves: the first four (or fewer) texts of a
      non-empty `data` array, otherwise the three fallback texts. */
  function InspirationFacts(response: FactsResponse): (r: (seq<string>, ApiStatus))
    ensures r.1 == Success <==> response.Received? && response.data.Some? && |response.data.value| > 0
    ensures r.1 == Success ==>
              0 < |r.0| <= 4 && |r.0| == (if |response.data.value| < 4 then |response.data.value| else 4)
              && r.0 == response.data.value[..|r.0|]
    ensures r.1 != Success ==> r == (FallbackAxolotlFacts, Error)
  {
    if response.Received? && response.data.Some? && |response.data.value| > 0 then
      var d := response.data.value;
      (if |d| < 4 then d else d[..4], Success)
    else
      (FallbackAxolotlFacts, Error)
  }

  // ---------------------------------------------------------------------------
  // The page

  class FavoritesPage {
    var favorites: seq<string>
    var favoriteFacts: seq<Fact>
    var displayFacts: seq<string>
    var apiLoading: bool
    var apiStatus: ApiStatus
    const store: Store

    constructor (store: Store)
      ensures this.store == store && favorites == [] && favoriteFacts == []
      ensures displayFacts == FallbackAxolotlFacts && !apiLoading && apiStatus == Loading
    {
      this.store := store;
      favorites := [];
      favoriteFacts := [];
      displayFacts := FallbackAxolotlFacts;
      apiLoading := false;
      apiStatus := Loading;
    }

    /** The mount effect. Nothing happens unless both keys exist; then the
        shown records are the stored ones whose id is still a favourite, and a
        value that cannot be read empties both lists. */
    method LoadFavorites()
      modifies this
      ensures !(FavoritesKey in store.entries && FactsDataKey in store.entries) ==>
                favorites == old(favorites) && favoriteFacts == old(favoriteFacts)
      ensures FavoritesKey in store.entries && FactsDataKey in store.entries ==>
                if store.entries[FavoritesKey].IdList? && store.entries[FactsDataKey].FactList? then
                  favorites == store.entries[FavoritesKey].ids
                  && favoriteFacts == Reconcile(store.entries[FactsDataKey].facts, favorites)
                else favorites == [] && favoriteFacts == []
      ensures displayFacts == old(displayFacts) && apiLoading == old(apiLoading) && apiStatus == old(apiStatus)
    {
      if FavoritesKey in store.entries && FactsDataKey in store.entries {
        var saved := store.entries[FavoritesKey];
        var savedFacts := store.entries[FactsDataKey];
        if saved.IdList? && savedFacts.FactList? {
          favorites := saved.ids;
          favoriteFacts := Reconcile(savedFacts.facts, saved.ids);
        } else {
          favorites := [];
          favoriteFacts := [];
        }
      }
    }

    /** The trash button: drop the id and every record with it from the page,
        rewrite the id key, and rewrite the records key when it holds records. */
    method RemoveFavorite(factId: string)
      modifies this, store
      ensures favorites == Filter(old(favorites), IsNot(factId))
      ensures favoriteFacts == WithoutFact(old(favoriteFacts), factId)
      ensures var e := old(store.entries)[FavoritesKey := IdList(favorites)];
              store.entries == (if FactsDataKey in old(store.entries) && old(store.entries)[FactsDataKey].FactList?
                                then e[FactsDataKey := FactList(WithoutFact(old(store.entries)[FactsDataKey].facts, factId))]
                                else e)
      ensures displayFacts == old(displayFacts) && apiLoading == old(apiLoading) && apiStatus == old(apiStatus)
    {
      var newFavorites := Filter(favorites, IsNot(factId));
      favorites := newFavorites;
      favoriteFacts := WithoutFact(favoriteFacts, factId);
      store.SetItem(FavoritesKey, IdList(newFavorites));
      if FactsDataKey in store.entries {
        var savedFacts := store.entries[FactsDataKey];
        if savedFacts.FactList? {
          store.SetItem(FactsDataKey, FactList(WithoutFact(savedFacts.facts, factId)));
        }
      }
    }

    /** "Hapus Semua": empty both lists and delete both keys. */
    method ClearAll()
      modifies this, store
      ensures favorites == [] && favoriteFacts == []
      ensures store.entries == old(store.entries) - {FavoritesKey} - {FactsDataKey}
      ensures displayFacts == old(displayFacts) && apiLoading == old(apiLoading) && apiStatus == old(apiStatus)
    {
      favorites := [];
      favoriteFacts := [];
      store.RemoveItem(FavoritesKey);
      store.RemoveItem(FactsDataKey);
    }

    method StartFetch()
      modifies this
      ensures apiLoading && apiStatus == Loading
      ensures favorites == old(favorites) && favoriteFacts == old(favoriteFacts) && displayFacts == old(displayFacts)
    {
      apiLoading := true;
      apiStatus := Loading;
    }

    method CompleteFetch(response: FactsResponse)
      modifies this
      ensures (displayFacts, apiStatus) == InspirationFacts(response) && !apiLoading
      ensures favorites == old(favorites) && favoriteFacts == old(favoriteFacts)
    {
      var picked := InspirationFacts(response);
      displayFacts := picked.0;
      apiStatus := picked.1;
      apiLoading := false;
    }
  }

  // ---------------------------------------------------------------------------
  // Lemmas

  /** Removing a favourite drops exactly that id and its records, and keeps the
      others in their order. */
  lemma RemoveFavoriteLists(ids: seq<string>, facts: seq<Fact>, id: string)
    ensures var ids' := Filter(ids, IsNot(id));
            Subseq(ids', ids) && forall x :: x in ids' <==> x in ids && x != id
    ensures var facts' := WithoutFact(facts, id);
            Subseq(facts', facts) && forall f :: f in facts' <==> f in facts && f.id != id
  {
    FilterIsSubseq(ids, IsNot(id));
    FilterIsSubseq(facts, FactIdIsNot(id));
  }

  /** Reconciling after a removal shows what removing from the shown records
      shows: the page and the keys tell the same story. */
  lemma ReconcileAfterRemove(facts: seq<Fact>, ids: seq<string>, id: string)
    ensures Reconcile(WithoutFact(facts, id), Filter(ids, IsNot(id)))
            == WithoutFact(Reconcile(facts, ids), id)
  {
    var p, q := FactIdIn(ids), FactIdIsNot(id);
    var pq := FactIdIn(Filter(ids, IsNot(id)));
    var w := Filter(facts, q);
    forall x | x in w ensures pq(x) == p(x) {
    }
    FilterAgrees(w, pq, p);
    FilterCommutes(facts, q, p);
  }
}
