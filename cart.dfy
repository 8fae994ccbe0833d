/** The persisted shopping-cart store: a list of product lines with quantities and
    a running `totalPrice` that every operation adjusts by a difference instead of
    recomputing it. */
module Cart {
  import opened Common
  import opened Catalog

  /** A cart line: the product's fields plus a quantity. */
  datatype Line = Line(product: Product, quantity: int)

  function Cost(l: Line): int
  {
    l.product.price * l.quantity
  }

  lemma CostChange(l: Line, q: int)
    ensures Cost(l.(quantity := q)) == Cost(l) + (q - l.quantity) * l.product.price
  {
    var p := l.product.price;
    assert p * q == p * l.quantity + (q - l.quantity) * p;
  }

  /** Σ price × quantity over the lines. */
  function Total(lines: seq<Line>): int
    decreases |lines|
  {
    if lines == [] then 0 else Cost(lines[0]) + Total(lines[1..])
  }

  ghost predicate UniqueIds(lines: seq<Line>)
  {
    forall i, j :: 0 <= i < j < |lines| ==> lines[i].product.id != lines[j].product.id
  }

  ghost predicate PositiveQuantities(lines: seq<Line>)
  {
    forall i :: 0 <= i < |lines| ==> lines[i].quantity >= 1
  }

  /** `items.find(item => item.id === id)`, as the index of the first match. */
  function Find(lines: seq<Line>, id: ProductId): (r: Option<nat>)
    ensures r.Some? ==> r.value < |lines| && lines[r.value].product.id == id
    ensures r.Some? ==> forall j :: 0 <= j < r.value ==> lines[j].product.id != id
    ensures r.None? ==> forall j :: 0 <= j < |lines| ==> lines[j].product.id != id
    decreases |lines|
  {
    if lines == [] then None
    else if lines[0].product.id == id then Some(0)
    else match Find(lines[1..], id)
      case None => None
      case Some(k) => Some(k + 1)
  }

  /** The `map` of `addItem`: every line with this id gets one more unit. */
  function Bump(lines: seq<Line>, id: ProductId): (r: seq<Line>)
    ensures |r| == |lines|
    ensures forall i :: 0 <= i < |lines| && lines[i].product.id == id ==>
              r[i] == lines[i].(quantity := lines[i].quantity + 1)
    ensures forall i :: 0 <= i < |lines| && lines[i].product.id != id ==> r[i] == lines[i]
    decreases |lines|
  {
    if lines == [] then []
    else [if lines[0].product.id == id then lines[0].(quantity := lines[0].quantity + 1) else lines[0]]
         + Bump(lines[1..], id)
  }

  /** The `map` of `updateQuantity`: every line with this id gets quantity `q`. */
  function SetQuantity(lines: seq<Line>, id: ProductId, q: int): (r: seq<Line>)
    ensures |r| == |lines|
    ensures forall i :: 0 <= i < |lines| && lines[i].product.id == id ==> r[i] == lines[i].(quantity := q)
    ensures forall i :: 0 <= i < |lines| && lines[i].product.id != id ==> r[i] == lines[i]
    decreases |lines|
  {
    if lines == [] then []
    else [if lines[0].product.id == id then lines[0].(quantity := q) else lines[0]]
         + SetQuantity(lines[1..], id, q)
  }

  function LineIdIsNot(id: ProductId): Line -> bool
  {
    (l: Line) => l.product.id != id
  }

  /** The `filter` of `removeItem`. */
  function WithoutId(lines: seq<Line>, id: ProductId): seq<Line>
  {
    Filter(lines, LineIdIsNot(id))
  }

  /** The lines `addItem(product)` leaves. */
  function AddLines(lines: seq<Line>, p: Product): (r: seq<Line>)
    ensures Find(lines, p.id).None? ==> r == lines + [Line(p, 1)]
    ensures Find(lines, p.id).Some? ==> |r| == |lines|
  {
    if Find(lines, p.id).Some? then Bump(lines, p.id) else lines + [Line(p, 1)]
  }

  /** Every stored line with the product's id has the product's current price. */
  ghost predicate PriceAgrees(lines: seq<Line>, p: Product)
  {
    forall i :: 0 <= i < |lines| && lines[i].product.id == p.id ==> lines[i].product.price == p.price
  }

  // ---------------------------------------------------------------------------
  // Lemmas about the line functions

  lemma {:induction false} TotalAppend(a: seq<Line>, b: seq<Line>)
    ensures Total(a + b) == Total(a) + Total(b)
    decreases |a|
  {
    if a == [] {
      assert a + b == b;
    } else {
      TotalAppend(a[1..], b);
      assert (a + b)[1..] == a[1..] + b;
    }
  }

  lemma {:induction false} TotalUpdate(lines: seq<Line>, k: nat, x: Line)
    requires k < |lines|
    ensures Total(lines[k := x]) == Total(lines) - Cost(lines[k]) + Cost(x)
    decreases k
  {
    if k == 0 {
      assert lines[k := x][1..] == lines[1..];
    } else {
      TotalUpdate(lines[1..], k - 1, x);
      assert lines[k := x][1..] == lines[1..][k - 1 := x];
    }
  }

  /** With unique ids the line at index `k` is the one `find` returns for its id. */
  lemma FindUnique(lines: seq<Line>, k: nat)
    requires UniqueIds(lines) && k < |lines|
    ensures Find(lines, lines[k].product.id) == Some(k)
  {
  }

  /** With unique ids, only the line at index `k` carries its id. */
  lemma OnlyLineWithId(lines: seq<Line>, k: nat)
    requires UniqueIds(lines) && k < |lines|
    ensures forall i :: 0 <= i < |lines| && i != k ==> lines[i].product.id != lines[k].product.id
  {
    forall i | 0 <= i < |lines| && i != k ensures lines[i].product.id != lines[k].product.id {
      if i < k { assert lines[i].product.id != lines[k].product.id; }
      else { assert lines[k].product.id != lines[i].product.id; }
    }
  }

  /** A quantity-setting `map` that matches one line is a point update. */
  lemma SetQuantityIsUpdate(lines: seq<Line>, k: nat, q: int)
    requires UniqueIds(lines) && k < |lines|
    ensures SetQuantity(lines, lines[k].product.id, q) == lines[k := lines[k].(quantity := q)]
  {
    OnlyLineWithId(lines, k);
  }

  lemma BumpIsUpdate(lines: seq<Line>, k: nat)
    requires UniqueIds(lines) && k < |lines|
    ensures Bump(lines, lines[k].product.id) == lines[k := lines[k].(quantity := lines[k].quantity + 1)]
  {
    OnlyLineWithId(lines, k);
  }

  /** Changing one line's quantity to `q` moves Σ price × quantity by the difference. */
  lemma TotalAfterSet(lines: seq<Line>, k: nat, q: int)
    requires k < |lines|
    ensures Total(lines[k := lines[k].(quantity := q)])
            == Total(lines) + (q - lines[k].quantity) * lines[k].product.price
  {
    TotalUpdate(lines, k, lines[k].(quantity := q));
    CostChange(lines[k], q);
  }

  lemma UpdateKeepsUnique(lines: seq<Line>, k: nat, x: Line)
    requires UniqueIds(lines) && k < |lines| && x.product.id == lines[k].product.id
    ensures UniqueIds(lines[k := x])
  {
    var r := lines[k := x];
    forall i, j | 0 <= i < j < |r| ensures r[i].product.id != r[j].product.id {
      assert r[i].product.id == lines[i].product.id && r[j].product.id == lines[j].product.id;
    }
  }

  /** With unique ids, removing by id deletes exactly the line at index `k`. */
  lemma WithoutIdIsDelete(lines: seq<Line>, k: nat)
    requires UniqueIds(lines) && k < |lines|
    ensures WithoutId(lines, lines[k].product.id) == lines[..k] + lines[k + 1..]
  {
    OnlyLineWithId(lines, k);
    FilterDropsOne(lines, LineIdIsNot(lines[k].product.id), k);
  }

  /** After `removeItem(id)` no line carries that id. */
  lemma WithoutIdRemovesId(lines: seq<Line>, id: ProductId)
    ensures Find(WithoutId(lines, id), id).None?
  {
    var r := WithoutId(lines, id);
    forall j | 0 <= j < |r| ensures r[j].product.id != id {
      assert r[j] in r;
    }
  }

  lemma {:induction false} AbsentIdChangesNothing(lines: seq<Line>, id: ProductId, q: int)
    requires Find(lines, id).None?
    ensures WithoutId(lines, id) == lines
    ensures SetQuantity(lines, id, q) == lines
    ensures Bump(lines, id) == lines
  {
    FilterAll(lines, LineIdIsNot(id));
  }

  lemma DeleteKeepsUnique(lines: seq<Line>, k: nat)
    requires UniqueIds(lines) && k < |lines|
    ensures UniqueIds(lines[..k] + lines[k + 1..])
  {
    var r := lines[..k] + lines[k + 1..];
    forall i, j | 0 <= i < j < |r| ensures r[i].product.id != r[j].product.id {
      var i' := if i < k then i else i + 1;
      var j' := if j < k then j else j + 1;
      assert r[i] == lines[i'] && r[j] == lines[j'];
    }
  }

  lemma DeleteTotal(lines: seq<Line>, k: nat)
    requires k < |lines|
    ensures Total(lines[..k] + lines[k + 1..]) == Total(lines) - Cost(lines[k])
  {
    var front, back := lines[..k], lines[k + 1..];
    var rest := [lines[k]] + back;
    assert lines == front + rest;
    TotalAppend(front, rest);
    assert rest[1..] == back;
    assert Total(rest) == Cost(lines[k]) + Total(back);
    TotalAppend(front, back);
  }

  /** `addItem` of a product already in the cart adds the STORED line's price to
      Σ price × quantity, while the running total grows by the passed product's price. */
  lemma AddExistingTotal(lines: seq<Line>, p: Product, k: nat)
    requires UniqueIds(lines) && Find(lines, p.id) == Some(k)
    ensures UniqueIds(AddLines(lines, p))
    ensures Total(AddLines(lines, p)) == Total(lines) + lines[k].product.price
  {
    var bumped := lines[k := lines[k].(quantity := lines[k].quantity + 1)];
    assert AddLines(lines, p) == bumped by {
      BumpIsUpdate(lines, k);
    }
    TotalAfterSet(lines, k, lines[k].quantity + 1);
    UpdateKeepsUnique(lines, k, lines[k].(quantity := lines[k].quantity + 1));
  }

  lemma AddNewTotal(lines: seq<Line>, p: Product)
    requires UniqueIds(lines) && Find(lines, p.id).None?
    ensures UniqueIds(AddLines(lines, p))
    ensures Total(AddLines(lines, p)) == Total(lines) + p.price
  {
    TotalAppend(lines, [Line(p, 1)]);
    var r := lines + [Line(p, 1)];
    forall i, j | 0 <= i < j < |r| ensures r[i].product.id != r[j].product.id {
      if j == |lines| { assert r[i] == lines[i]; }
    }
  }

  /** `addItem` keeps ids unique, and keeps the running total equal to Σ price ×
      quantity provided any line already holding the product has its current price. */
  lemma AddKeepsInvariant(lines: seq<Line>, p: Product)
    requires UniqueIds(lines) && PriceAgrees(lines, p)
    ensures UniqueIds(AddLines(lines, p))
    ensures Total(AddLines(lines, p)) == Total(lines) + p.price
  {
    match Find(lines, p.id)
    case Some(k) => AddExistingTotal(lines, p, k);
    case None => AddNewTotal(lines, p);
  }

  /** When the stored line's price differs from the product passed to `addItem`,
      the running total no longer equals Σ price × quantity. */
  lemma AddWithStalePriceDrifts(lines: seq<Line>, p: Product, k: nat)
    requires UniqueIds(lines) && Find(lines, p.id) == Some(k)
    ensures Total(AddLines(lines, p)) == Total(lines) + p.price <==> lines[k].product.price == p.price
  {
    AddExistingTotal(lines, p, k);
  }

  lemma RemoveKeepsInvariant(lines: seq<Line>, k: nat)
    requires UniqueIds(lines) && k < |lines|
    ensures UniqueIds(WithoutId(lines, lines[k].product.id))
    ensures Total(WithoutId(lines, lines[k].product.id)) == Total(lines) - Cost(lines[k])
  {
    WithoutIdIsDelete(lines, k);
    DeleteKeepsUnique(lines, k);
    DeleteTotal(lines, k);
  }

  lemma UpdateKeepsInvariant(lines: seq<Line>, k: nat, q: int)
    requires UniqueIds(lines) && k < |lines|
    ensures UniqueIds(SetQuantity(lines, lines[k].product.id, q))
    ensures Total(SetQuantity(lines, lines[k].product.id, q))
            == Total(lines) + (q - lines[k].quantity) * lines[k].product.price
  {
    SetQuantityIsUpdate(lines, k, q);
    TotalAfterSet(lines, k, q);
    UpdateKeepsUnique(lines, k, lines[k].(quantity := q));
  }

  /** Lines with other ids stay as they were and in the same order under `addItem`. */
  lemma {:induction false} BumpKeepsOthers(lines: seq<Line>, id: ProductId)
    ensures Filter(Bump(lines, id), LineIdIsNot(id)) == Filter(lines, LineIdIsNot(id))
    decreases |lines|
  {
    if lines != [] {
      BumpKeepsOthers(lines[1..], id);
      assert Bump(lines, id) == [Bump(lines, id)[0]] + Bump(lines[1..], id);
      FilterAppend([Bump(lines, id)[0]], Bump(lines[1..], id), LineIdIsNot(id));
    }
  }

  /** ... and under `updateQuantity`. */
  lemma {:induction false} SetQuantityKeepsOthers(lines: seq<Line>, id: ProductId, q: int)
    ensures Filter(SetQuantity(lines, id, q), LineIdIsNot(id)) == Filter(lines, LineIdIsNot(id))
    decreases |lines|
  {
    if lines != [] {
      SetQuantityKeepsOthers(lines[1..], id, q);
      assert SetQuantity(lines, id, q) == [SetQuantity(lines, id, q)[0]] + SetQuantity(lines[1..], id, q);
      FilterAppend([SetQuantity(lines, id, q)[0]], SetQuantity(lines[1..], id, q), LineIdIsNot(id));
    }
  }

  /** ... and under `removeItem`. */
  lemma RemoveKeepsOthers(lines: seq<Line>, id: ProductId)
    ensures Filter(WithoutId(lines, id), LineIdIsNot(id)) == Filter(lines, LineIdIsNot(id))
  {
    FilterNarrows(lines, LineIdIsNot(id), LineIdIsNot(id));
  }

  /** `addItem` twice on an empty cart leaves one line with quantity 2. */
  lemma AddTwiceOnEmpty(p: Product)
    ensures AddLines(AddLines([], p), p) == [Line(p, 2)]
  {
    assert AddLines([], p) == [Line(p, 1)];
    assert Find([Line(p, 1)], p.id) == Some(0);
  }

  // ---------------------------------------------------------------------------
  // The store

  class CartStore {
    var items: seq<Line>
    var totalPrice: int

    /** Ids are unique and the running total equals Σ price × quantity. */
    ghost predicate Valid()
      reads this
    {
      UniqueIds(items) && totalPrice == Total(items)
    }

    constructor ()
      ensures items == [] && totalPrice == 0 && Valid()
    {
      items := [];
      totalPrice := 0;
    }

    method AddItem(product: Product)
      modifies this
      ensures items == AddLines(old(items), product)
      ensures totalPrice == old(totalPrice) + product.price
      ensures old(Valid()) && PriceAgrees(old(items), product) ==> Valid()
    {
      ghost var wasValid := Valid();
      ghost var before := items;
      var existing := Find(items, product.id);
      if existing.Some? {
        items := Bump(items, product.id);
      } else {
        items := items + [Line(product, 1)];
      }
      totalPrice := totalPrice + product.price;
      if wasValid && PriceAgrees(before, product) {
        AddKeepsInvariant(before, product);
      }
    }

    method RemoveItem(id: ProductId)
      modifies this
      ensures Find(old(items), id).None? ==> items == old(items) && totalPrice == old(totalPrice)
      ensures Find(old(items), id).Some? ==>
                items == WithoutId(old(items), id)
                && totalPrice == old(totalPrice) - Cost(old(items)[Find(old(items), id).value])
      ensures old(Valid()) ==> Valid()
    {
      var found := Find(items, id);
      if found.Some? {
        var line := items[found.value];
        ghost var before := items;
        items := WithoutId(items, id);
        totalPrice := totalPrice - line.product.price * line.quantity;
        if UniqueIds(before) {
          RemoveKeepsInvariant(before, found.value);
        }
      }
    }

    method UpdateQuantity(id: ProductId, quantity: int)
      modifies this
      ensures Find(old(items), id).None? ==> items == old(items) && totalPrice == old(totalPrice)
      ensures Find(old(items), id).Some? ==>
                var line := old(items)[Find(old(items), id).value];
                items == SetQuantity(old(items), id, quantity)
                && totalPrice == old(totalPrice) + (quantity - line.quantity) * line.product.price
      ensures old(Valid()) ==> Valid()
    {
      var found := Find(items, id);
      if found.Some? {
        var line := items[found.value];
        var priceDifference := (quantity - line.quantity) * line.product.price;
        ghost var wasValid := Valid();
        ghost var before := items;
        items := SetQuantity(items, id, quantity);
        totalPrice := totalPrice + priceDifference;
        if wasValid {
          UpdateKeepsInvariant(before, found.value, quantity);
          assert Total(items) == Total(before) + priceDifference;
        }
      }
    }

    method ClearCart()
      modifies this
      ensures items == [] && totalPrice == 0 && Valid()
    {
      items := [];
      totalPrice := 0;
    }
  }
}
