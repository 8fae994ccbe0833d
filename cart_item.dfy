/** The quantity controls of one rendered cart line: remove, "+" and "−". The
    line shown is a snapshot of an entry of the cart store. */
module CartItemView {
  import opened Common
  import opened Catalog
  import opened Cart

  /** The lines the "−" button leaves: one unit fewer while more than one is
      left, otherwise the line is removed. */
  function DecreaseLines(lines: seq<Line>, item: Line): seq<Line>
  {
    if item.quantity > 1 then SetQuantity(lines, item.product.id, item.quantity - 1)
    else WithoutId(lines, item.product.id)
  }

  predicate HasId(lines: seq<Line>, id: ProductId)
  {
    Find(lines, id).Some?
  }

  /** "−" never produces a line with quantity below one: a line at one unit is
      removed instead, and the id stays in the cart exactly when more than one
      unit was there. */
  lemma DecreaseKeepsPositive(lines: seq<Line>, item: Line)
    requires UniqueIds(lines) && PositiveQuantities(lines) && item in lines
    ensures PositiveQuantities(DecreaseLines(lines, item))
    ensures HasId(DecreaseLines(lines, item), item.product.id) <==> item.quantity > 1
  {
    var id := item.product.id;
    var k :| 0 <= k < |lines| && lines[k] == item;
    if item.quantity > 1 {
      SetQuantityIsUpdate(lines, k, item.quantity - 1);
      assert DecreaseLines(lines, item)[k].product.id == id;
    } else {
      var r := DecreaseLines(lines, item);
      forall i | 0 <= i < |r| ensures r[i].quantity >= 1 {
        assert r[i] in r;
        var j :| 0 <= j < |lines| && lines[j] == r[i];
      }
      WithoutIdRemovesId(lines, id);
    }
  }

  /** "+" keeps every quantity positive and leaves the id in the cart. */
  lemma IncreaseKeepsPositive(lines: seq<Line>, item: Line)
    requires UniqueIds(lines) && PositiveQuantities(lines) && item in lines
    ensures PositiveQuantities(SetQuantity(lines, item.product.id, item.quantity + 1))
    ensures HasId(SetQuantity(lines, item.product.id, item.quantity + 1), item.product.id)
  {
    var k :| 0 <= k < |lines| && lines[k] == item;
    SetQuantityIsUpdate(lines, k, item.quantity + 1);
    assert SetQuantity(lines, item.product.id, item.quantity + 1)[k].product.id == item.product.id;
  }

  /** Pressing "+" and then "−" on the re-rendered line restores the cart's lines. */
  lemma {:induction false} IncreaseThenDecreaseRestores(lines: seq<Line>, item: Line)
    requires UniqueIds(lines) && item in lines && item.quantity >= 1
    ensures var bumped := SetQuantity(lines, item.product.id, item.quantity + 1);
            DecreaseLines(bumped, item.(quantity := item.quantity + 1)) == lines
  {
    var k :| 0 <= k < |lines| && lines[k] == item;
    var id := item.product.id;
    var up := item.(quantity := item.quantity + 1);
    var bumped := SetQuantity(lines, id, item.quantity + 1);
    SetQuantityIsUpdate(lines, k, item.quantity + 1);
    assert bumped == lines[k := up];
    UpdateKeepsUnique(lines, k, up);
    assert DecreaseLines(bumped, up) == SetQuantity(bumped, id, item.quantity);
    SetQuantityIsUpdate(bumped, k, item.quantity);
    assert bumped[k].(quantity := item.quantity) == item;
    assert lines[k := up][k := item] == lines;
  }

  method HandleRemove(cart: CartStore, item: Line)
    requires item in cart.items
    modifies cart
    ensures cart.items == WithoutId(old(cart.items), item.product.id)
    ensures !HasId(cart.items, item.product.id)
    ensures old(cart.Valid()) ==> cart.Valid()
  {
    cart.RemoveItem(item.product.id);
    WithoutIdRemovesId(old(cart.items), item.product.id);
  }

  method HandleIncreaseQuantity(cart: CartStore, item: Line)
    requires item in cart.items
    modifies cart
    ensures cart.items == SetQuantity(old(cart.items), item.product.id, item.quantity + 1)
    ensures old(cart.Valid()) ==> cart.Valid()
    ensures old(cart.Valid()) && old(PositiveQuantities(cart.items)) ==>
              PositiveQuantities(cart.items) && HasId(cart.items, item.product.id)
  {
    ghost var before := cart.items;
    cart.UpdateQuantity(item.product.id, item.quantity + 1);
    if UniqueIds(before) && PositiveQuantities(before) {
      IncreaseKeepsPositive(before, item);
    }
  }

  method HandleDecreaseQuantity(cart: CartStore, item: Line)
    requires item in cart.items
    modifies cart
    ensures cart.items == DecreaseLines(old(cart.items), item)
    ensures old(cart.Valid()) ==> cart.Valid()
    ensures old(cart.Valid()) && old(PositiveQuantities(cart.items)) ==>
              PositiveQuantities(cart.items)
              && (HasId(cart.items, item.product.id) <==> item.quantity > 1)
  {
    ghost var before := cart.items;
    if item.quantity > 1 {
      cart.UpdateQuantity(item.product.id, item.quantity - 1);
    } else {
      cart.RemoveItem(item.product.id);
    }
    if UniqueIds(before) && PositiveQuantities(before) {
      DecreaseKeepsPositive(before, item);
    }
  }
}
