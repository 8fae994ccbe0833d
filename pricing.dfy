/** The order summary shared by the checkout wizard, the three-step checkout and the
    confirmation page: subtotal by `reduce`, shipping by method, 11% tax (PPN) and
    the total, over the pages' built-in sample cart. Prices are whole rupiah; tax
    is an exact real because the pages never round it. */
module Pricing {

  /** A line of the pages' built-in cart. */
  datatype Item = Item(id: int, name: string, price: int, quantity: int)

  const StandardShipping: int := 59990
  const ExpressShipping: int := 129990

  /** The two sample lines every checkout page hard-codes. */
  const SampleCart: seq<Item> := [
    Item(1, "Set Keranjang Serat Kelapa", 299990, 1),
    Item(2, "Set Peralatan Makan Bambu", 199990, 2)
  ]

  /** `items.reduce((sum, item) => sum + item.price * item.quantity, acc)`. */
  function Reduce(items: seq<Item>, acc: int): int
    decreases |items|
  {
    if items == [] then acc else Reduce(items[1..], acc + items[0].price * items[0].quantity)
  }

  /** Σ price × quantity, summed from the last line backwards: the reference
      definition the left fold is compared with. */
  function SumCosts(items: seq<Item>): int
    decreases |items|
  {
    if items == [] then 0 else SumCosts(items[..|items| - 1]) + items[|items| - 1].price * items[|items| - 1].quantity
  }

  function Subtotal(items: seq<Item>): int
  {
    Reduce(items, 0)
  }

  lemma {:induction false} SumCostsCons(x: Item, items: seq<Item>)
    ensures SumCosts([x] + items) == x.price * x.quantity + SumCosts(items)
    decreases |items|
  {
    if items != [] {
      var xs := [x] + items;
      assert xs[..|xs| - 1] == [x] + items[..|items| - 1];
      SumCostsCons(x, items[..|items| - 1]);
    } else {
      assert ([x] + items)[..0] == [];
    }
  }

  /** The fold started from `acc` adds Σ price × quantity to `acc`. */
  lemma {:induction false} ReduceIsSum(items: seq<Item>, acc: int)
    ensures Reduce(items, acc) == acc + SumCosts(items)
    decreases |items|
  {
    if items != [] {
      ReduceIsSum(items[1..], acc + items[0].price * items[0].quantity);
      assert items == [items[0]] + items[1..];
      SumCostsCons(items[0], items[1..]);
    }
  }

  /** `shippingMethod === "express" ? 129990 : 59990`. */
  function ShippingCost(shippingMethod: string): (c: int)
    ensures c == ExpressShipping <==> shippingMethod == "express"
    ensures c == StandardShipping <==> shippingMethod != "express"
  {
    if shippingMethod == "express" then ExpressShipping else StandardShipping
  }

  /** The review step's shipping line, which tests for "standard" instead. */
  function ReviewShippingDisplay(shippingMethod: string): int
  {
    if shippingMethod == "standard" then StandardShipping else ExpressShipping
  }

  /** The charge and the review display agree exactly on the two methods the
      radio group offers. */
  lemma DisplayAgreesWithCharge(shippingMethod: string)
    ensures ReviewShippingDisplay(shippingMethod) == ShippingCost(shippingMethod)
            <==> shippingMethod == "standard" || shippingMethod == "express"
  {
  }

  datatype Summary = Summary(subtotal: int, shipping: int, tax: real, total: real)

  function SummaryFor(items: seq<Item>, shipping: int): (s: Summary)
    ensures s.subtotal == SumCosts(items)
    ensures s.shipping == shipping
    ensures s.tax * 100.0 == (s.subtotal * 11) as real
    ensures s.total == (s.subtotal + s.shipping) as real + s.tax
  {
    ReduceIsSum(items, 0);
    var subtotal := Subtotal(items);
    var tax := subtotal as real * 0.11;
    Summary(subtotal, shipping, tax, subtotal as real + shipping as real + tax)
  }

  /** The summary of the checkout wizard and of the three-step checkout. */
  function CheckoutSummary(items: seq<Item>, shippingMethod: string): (s: Summary)
    ensures s.shipping == ShippingCost(shippingMethod)
    ensures s == SummaryFor(items, s.shipping)
  {
    SummaryFor(items, ShippingCost(shippingMethod))
  }

  /** The confirmation page's summary: shipping is always the standard rate. */
  function ConfirmationSummary(items: seq<Item>): (s: Summary)
    ensures s.shipping == StandardShipping
  {
    SummaryFor(items, StandardShipping)
  }

  /** The built-in cart: subtotal 699 970, tax 76 996.7 (not rounded), and a
      total of 836 956.7 with standard shipping. */
  lemma SampleCartSummary()
    ensures Subtotal(SampleCart) == 699970
    ensures CheckoutSummary(SampleCart, "standard").tax == 76996.7
    ensures CheckoutSummary(SampleCart, "standard").total == 836956.7
  {
    ReduceIsSum(SampleCart, 0);
  }

  /** Switching to express changes only the shipping term, and the total by 70 000. */
  lemma ExpressOnlyChangesShipping(items: seq<Item>, other: string)
    requires other != "express"
    ensures var e := CheckoutSummary(items, "express");
            var s := CheckoutSummary(items, other);
            e.subtotal == s.subtotal && e.tax == s.tax
            && e.total == s.total + 70000 as real
  {
  }

  /** Whatever cart it shows, the confirmation page charges what the wizard
      charges for standard shipping. */
  lemma ConfirmationMatchesStandard(items: seq<Item>)
    ensures ConfirmationSummary(items) == CheckoutSummary(items, "standard")
  {
  }

  /** `Math.floor(100000 + Math.random() * 900000)` for the random draw `r`. */
  function OrderNumber(r: real): (n: int)
    requires 0.0 <= r < 1.0
    ensures 100000 <= n <= 999999
  {
    (100000.0 + r * 900000.0).Floor
  }
}
