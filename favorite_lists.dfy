/** The two favourites keys every fact page shares: the id list
    "animalFactFavorites" and the fact records "animalFactsData", which are meant
    to describe the same favourites. The toggles of the explore page and of the
    axolotl demo, and the reconciliation of the favourites page, are stated here
    as functions on the two lists. */
module FavoriteLists {
  import opened Common
  import opened Records

  function FactIdIsNot(id: string): Fact -> bool
  {
    (f: Fact) => f.id != id
  }

  function FactIdIn(ids: seq<string>): Fact -> bool
  {
    (f: Fact) => f.id in ids
  }

  /** Some record carries this id (`findIndex(...) !== -1`). */
  predicate HasFactId(facts: seq<Fact>, id: string)
  {
    exists i :: 0 <= i < |facts| && facts[i].id == id
  }

  /** The number of records carrying this id. */
  function CountId(facts: seq<Fact>, id: string): nat
    decreases |facts|
  {
    if facts == [] then 0 else (if facts[0].id == id then 1 else 0) + CountId(facts[1..], id)
  }

  /** The two keys are in step: no id is listed twice, every record belongs to
      a favourite id, and every favourite id has exactly one record. */
  ghost predicate Synced(ids: seq<string>, facts: seq<Fact>)
  {
    NoDup(ids)
    && (forall f :: f in facts ==> f.id in ids)
    && (forall id :: id in ids ==> CountId(facts, id) == 1)
  }

  function WithoutFact(facts: seq<Fact>, id: string): (r: seq<Fact>)
    ensures !HasFactId(r, id)
  {
    var r := Filter(facts, FactIdIsNot(id));
    assert forall i :: 0 <= i < |r| ==> r[i] in r;
    r
  }

  /** The stored records as a toggle reads them: an absent or unreadable value
      counts as no records. */
  function StoredFactsOrEmpty(entries: map<string, Value>): (r: seq<Fact>)
    ensures StoredFacts(entries).Some? ==> r == StoredFacts(entries).value
    ensures StoredFacts(entries).None? ==> r == []
  {
    match StoredFacts(entries)
    case Some(facts) => facts
    case None => []
  }

  /** What a toggle writes under the records key is what the next toggle reads
      back; writing any other key leaves that reading unchanged, and with no
      records key the reading is empty. */
  lemma StoredFactsRoundTrip(entries: map<string, Value>, facts: seq<Fact>, key: string, v: Value)
    ensures StoredFactsOrEmpty(entries[FactsDataKey := FactList(facts)]) == facts
    ensures key != FactsDataKey ==> StoredFactsOrEmpty(entries[key := v]) == StoredFactsOrEmpty(entries)
    ensures FactsDataKey !in entries ==> StoredFactsOrEmpty(entries) == []
  {
  }

  /** The explore page's records after toggling `fact`: on adding, push it unless
      a record with its id exists; on removing, drop every record with its id. */
  function ExploreFacts(facts: seq<Fact>, wasFavorite: bool, fact: Fact): seq<Fact>
  {
    if !wasFavorite then (if HasFactId(facts, fact.id) then facts else facts + [fact])
    else WithoutFact(facts, fact.id)
  }

  /** The axolotl demo's records after toggling `newFact`: on adding, drop any
      record with its id and push it; on removing, drop every record with its id. */
  function AxolotlFacts(facts: seq<Fact>, wasFavorite: bool, newFact: Fact): seq<Fact>
  {
    if !wasFavorite then WithoutFact(facts, newFact.id) + [newFact]
    else WithoutFact(facts, newFact.id)
  }

  // ---------------------------------------------------------------------------
  // Lemmas

  lemma {:induction false} CountIdAppend(a: seq<Fact>, b: seq<Fact>, id: string)
    ensures CountId(a + b, id) == CountId(a, id) + CountId(b, id)
    decreases |a|
  {
    if a == [] {
      assert a + b == b;
    } else {
      CountIdAppend(a[1..], b, id);
      assert (a + b)[1..] == a[1..] + b;
    }
  }

  lemma {:induction false} CountIdZero(facts: seq<Fact>, id: string)
    requires !HasFactId(facts, id)
    ensures CountId(facts, id) == 0
    decreases |facts|
  {
    if facts != [] {
      assert facts[0].id != id;
      assert !HasFactId(facts[1..], id) by {
        forall i | 0 <= i < |facts| - 1 ensures facts[1..][i].id != id {
          assert facts[1..][i] == facts[i + 1];
        }
      }
      CountIdZero(facts[1..], id);
    }
  }

  /** Toggling a fact whose id is in neither list on and then off restores both lists. */
  lemma ExploreToggleRoundTrip(ids: seq<string>, facts: seq<Fact>, fact: Fact)
    requires fact.id !in ids && !HasFactId(facts, fact.id)
    ensures Toggle(Toggle(ids, fact.id), fact.id) == ids
    ensures ExploreFacts(ExploreFacts(facts, false, fact), true, fact) == facts
  {
    ToggleRoundTrip(ids, fact.id);
    var p := FactIdIsNot(fact.id);
    FilterAppend(facts, [fact], p);
    assert forall x :: x in facts ==> p(x) by {
      forall x | x in facts ensures p(x) {
        var i :| 0 <= i < |facts| && facts[i] == x;
      }
    }
    FilterAll(facts, p);
    assert Filter([fact], p) == [];
  }

  /** The same round trip for the axolotl demo. */
  lemma AxolotlToggleRoundTrip(ids: seq<string>, facts: seq<Fact>, newFact: Fact)
    requires newFact.id !in ids && !HasFactId(facts, newFact.id)
    ensures Toggle(Toggle(ids, newFact.id), newFact.id) == ids
    ensures AxolotlFacts(AxolotlFacts(facts, false, newFact), true, newFact) == facts
  {
    ExploreToggleRoundTrip(ids, facts, newFact);
    var p := FactIdIsNot(newFact.id);
    assert forall x :: x in facts ==> p(x) by {
      forall x | x in facts ensures p(x) {
        var i :| 0 <= i < |facts| && facts[i] == x;
      }
    }
    FilterAll(facts, p);
  }

  /** After the axolotl demo adds a fact, exactly one record carries its id and
      it is the last; after removing, none does. Either way the other records
      keep their relative order. */
  lemma AxolotlToggleRecords(facts: seq<Fact>, wasFavorite: bool, newFact: Fact)
    ensures var r := AxolotlFacts(facts, wasFavorite, newFact);
            (!wasFavorite ==> CountId(r, newFact.id) == 1 && r[|r| - 1] == newFact)
            && (wasFavorite ==> CountId(r, newFact.id) == 0)
            && Filter(r, FactIdIsNot(newFact.id)) == Filter(facts, FactIdIsNot(newFact.id))
  {
    var id := newFact.id;
    var p := FactIdIsNot(id);
    var w := WithoutFact(facts, id);
    CountIdZero(w, id);
    FilterNarrows(facts, p, p);
    if !wasFavorite {
      CountIdAppend(w, [newFact], id);
      FilterAppend(w, [newFact], p);
      assert Filter([newFact], p) == [];
    }
  }

  /** The explore page's add never duplicates: a fact already recorded is not
      pushed again, so the record count for its id does not grow past what it was
      or one. */
  lemma ExploreAddRecords(facts: seq<Fact>, fact: Fact)
    ensures var r := ExploreFacts(facts, false, fact);
            HasFactId(r, fact.id)
            && CountId(r, fact.id) == (if HasFactId(facts, fact.id) then CountId(facts, fact.id) else 1)
  {
    if !HasFactId(facts, fact.id) {
      CountIdZero(facts, fact.id);
      CountIdAppend(facts, [fact], fact.id);
      var r := facts + [fact];
      assert r[|facts|].id == fact.id;
    }
  }

  lemma CountIdSingle(f: Fact, id: string)
    ensures CountId([f], id) == if f.id == id then 1 else 0
  {
    assert [f][1..] == [];
  }

  /** Dropping the records of `id` leaves no record of it and keeps the count of
      every other id. */
  lemma {:induction false} CountIdWithout(facts: seq<Fact>, id: string, x: string)
    ensures CountId(Filter(facts, FactIdIsNot(id)), x) == if x == id then 0 else CountId(facts, x)
    decreases |facts|
  {
    if facts != [] {
      var p := FactIdIsNot(id);
      var head := if p(facts[0]) then [facts[0]] else [];
      assert Filter(facts, p) == head + Filter(facts[1..], p);
      CountIdAppend(head, Filter(facts[1..], p), x);
      CountIdWithout(facts[1..], id, x);
      if head != [] {
        CountIdSingle(facts[0], x);
      }
    }
  }

  /** With every record's id a favourite, an id that is not a favourite has no record. */
  lemma NoRecordOutsideIds(ids: seq<string>, facts: seq<Fact>, id: string)
    requires forall f :: f in facts ==> f.id in ids
    requires id !in ids
    ensures !HasFactId(facts, id) && CountId(facts, id) == 0
  {
    CountIdZero(facts, id);
  }

  /** Removing an id from both keys keeps them in step. */
  lemma SyncedAfterRemove(ids: seq<string>, facts: seq<Fact>, id: string)
    requires Synced(ids, facts)
    ensures Synced(Filter(ids, IsNot(id)), WithoutFact(facts, id))
  {
    var ids' := Filter(ids, IsNot(id));
    var facts' := WithoutFact(facts, id);
    FilterKeepsNoDup(ids, IsNot(id));
    forall f | f in facts' ensures f.id in ids' {
      assert f.id in ids && f.id != id;
    }
    forall x | x in ids' ensures CountId(facts', x) == 1 {
      CountIdWithout(facts, id, x);
    }
  }

  /** The explore page's toggle keeps the two keys in step. */
  lemma ExploreToggleKeepsSync(ids: seq<string>, facts: seq<Fact>, fact: Fact)
    requires Synced(ids, facts)
    ensures Synced(Toggle(ids, fact.id), ExploreFacts(facts, fact.id in ids, fact))
  {
    var id := fact.id;
    ToggleKeepsNoDup(ids, id);
    if id in ids {
      SyncedAfterRemove(ids, facts, id);
    } else {
      NoRecordOutsideIds(ids, facts, id);
      var r := facts + [fact];
      var ids' := ids + [id];
      assert ExploreFacts(facts, false, fact) == r;
      forall x | x in ids' ensures CountId(r, x) == 1 {
        CountIdAppend(facts, [fact], x);
        CountIdSingle(fact, x);
      }
    }
  }

  /** The axolotl demo's toggle keeps the two keys in step. */
  lemma AxolotlToggleKeepsSync(ids: seq<string>, facts: seq<Fact>, newFact: Fact)
    requires Synced(ids, facts)
    ensures Synced(Toggle(ids, newFact.id), AxolotlFacts(facts, newFact.id in ids, newFact))
  {
    var id := newFact.id;
    ToggleKeepsNoDup(ids, id);
    if id in ids {
      SyncedAfterRemove(ids, facts, id);
    } else {
      var w := WithoutFact(facts, id);
      var r := w + [newFact];
      var ids' := ids + [id];
      forall f | f in r ensures f.id in ids' {
        if f != newFact {
          assert f in w;
        }
      }
      forall x | x in ids' ensures CountId(r, x) == 1 {
        CountIdAppend(w, [newFact], x);
        CountIdSingle(newFact, x);
        CountIdWithout(facts, id, x);
      }
    }
  }

  /** The favourites page shows the stored records whose id is still a favourite. */
  function Reconcile(facts: seq<Fact>, ids: seq<string>): (r: seq<Fact>)
    ensures forall f :: f in r ==> f in facts && f.id in ids
    ensures forall f :: f in facts && f.id in ids ==> f in r
  {
    var r := Filter(facts, FactIdIn(ids));
    assert forall f :: f in facts && f.id in ids ==> FactIdIn(ids)(f);
    r
  }

  /** Reconciling keeps the stored order, and keys that are in step show every record. */
  lemma ReconcileProperties(facts: seq<Fact>, ids: seq<string>)
    ensures Subseq(Reconcile(facts, ids), facts)
    ensures Synced(ids, facts) ==> Reconcile(facts, ids) == facts
  {
    FilterIsSubseq(facts, FactIdIn(ids));
    if Synced(ids, facts) {
      FilterAll(facts, FactIdIn(ids));
    }
  }
}
