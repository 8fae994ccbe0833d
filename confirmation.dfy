/** The order confirmation page: an order number drawn from the random source,
    the fixed-shipping summary (in `Pricing`), and the deletion of any saved
    checkout when the page mounts. */
module Confirmation {
  import opened Records
  import opened Pricing
  import Common

  /** The order number's label: `AC-` followed by the six digits of the number. */
  function OrderLabel(r: real): (text: string)
    requires 0.0 <= r < 1.0
    ensures |text| == 9 && text[..3] == "AC-"
    ensures forall i :: 3 <= i < 9 ==> '0' <= text[i] <= '9'
    ensures text[3..] == Common.NatToString(OrderNumber(r))
  {
    SixDigits(OrderNumber(r));
    "AC-" + Common.NatToString(OrderNumber(r))
  }

  /** Every number the draw can give is written with six digits. */
  lemma SixDigits(n: nat)
    requires 100000 <= n <= 999999
    ensures |Common.NatToString(n)| == 6
  {
    assert Common.NatToString(n) == Common.NatToString(n / 10) + [Common.DigitChar(n % 10)];
    assert Common.NatToString(n / 10) == Common.NatToString(n / 100) + [Common.DigitChar(n / 10 % 10)];
    assert Common.NatToString(n / 100) == Common.NatToString(n / 1000) + [Common.DigitChar(n / 100 % 10)];
    assert Common.NatToString(n / 1000) == Common.NatToString(n / 10000) + [Common.DigitChar(n / 1000 % 10)];
    assert Common.NatToString(n / 10000) == Common.NatToString(n / 100000) + [Common.DigitChar(n / 10000 % 10)];
    assert |Common.NatToString(n / 100000)| == 1;
  }

  /** The label determines the order number: two draws that show the same
      label drew the same number. */
  lemma OrderLabelInjective(r1: real, r2: real)
    requires 0.0 <= r1 < 1.0 && 0.0 <= r2 < 1.0
    requires OrderLabel(r1) == OrderLabel(r2)
    ensures OrderNumber(r1) == OrderNumber(r2)
  {
    assert OrderLabel(r1)[3..] == OrderLabel(r2)[3..];
    Common.NatToStringInjective(OrderNumber(r1), OrderNumber(r2));
  }

  class ConfirmationPage {
    const store: Store

    constructor (store: Store)
      ensures this.store == store
    {
      this.store := store;
    }

    /** The mount effect. */
    method OnMount()
      modifies store
      ensures store.entries == old(store.entries) - {SavedCheckoutKey}
      ensures SavedCheckoutKey !in store.entries
    {
      store.RemoveItem(SavedCheckoutKey);
    }

    /** Mounting twice (a re-render or a revisit) leaves what mounting once leaves. */
    method MountTwice()
      modifies store
      ensures store.entries == old(store.entries) - {SavedCheckoutKey}
    {
      OnMount();
      OnMount();
      assert store.entries == old(store.entries) - {SavedCheckoutKey} - {SavedCheckoutKey};
    }
  }

  /** Whatever the draw, the page's built-in order shows subtotal 699 970 and is
      charged the standard shipping. */
  lemma ConfirmationSample()
    ensures ConfirmationSummary(SampleCart).subtotal == 699970
    ensures ConfirmationSummary(SampleCart).total == 836956.7
  {
    SampleCartSummary();
  }
}
