/** The profile page's "unfinished checkout" card: shown for a fresh saved
    record, with its step label, a continue button that only navigates, and a
    clear button. */
module SavedCheckouts {
  import opened Common
  import opened Records

  /** The step label shown on the card. */
  function StepLabel(s: Step): (text: string)
    ensures s == Shipping <==> text == "Pengiriman"
    ensures s == Payment <==> text == "Pembayaran"
    ensures s == Review <==> text == "Ulasan"
    ensures s == Confirmation <==> text == "Konfirmasi"
  {
    assert "Pengiriman"[0] != "Konfirmasi"[0] && "Pembayaran"[1] != "Konfirmasi"[1];
    match s
    case Shipping => "Pengiriman"
    case Payment => "Pembayaran"
    case Review => "Ulasan"
    case _ => "Konfirmasi"
  }

  /** Distinct steps get distinct labels. */
  lemma StepLabelInjective(a: Step, b: Step)
    requires StepLabel(a) == StepLabel(b)
    ensures a == b
  {
  }

  const CheckoutRoute: string := "/checkout/process"

  class SavedCheckoutsCard {
    /** The record the card shows; `None` renders nothing. */
    var savedCheckout: Option<CheckoutRecord>
    const store: Store

    constructor (store: Store)
      ensures this.store == store && savedCheckout.None?
    {
      this.store := store;
      savedCheckout := None;
    }

    predicate Visible()
      reads this
    {
      savedCheckout.Some?
    }

    /** The mount effect: the same freshness rule as the checkout wizard's banner. */
    method CheckOnMount(now: int)
      modifies this, store
      ensures store.entries == AfterMountCheck(old(store.entries), now)
      ensures InspectSaved(old(store.entries), now).Resumable? ==>
                savedCheckout == Some(InspectSaved(old(store.entries), now).record)
      ensures !InspectSaved(old(store.entries), now).Resumable? ==> savedCheckout == old(savedCheckout)
    {
      match InspectSaved(store.entries, now)
      case Resumable(r) =>
        savedCheckout := Some(r);
      case Expired =>
        store.RemoveItem(SavedCheckoutKey);
      case _ =>
    }

    /** "Lanjutkan Checkout": go to the wizard; nothing is changed. */
    method Continue() returns (route: string)
      ensures route == CheckoutRoute
    {
      route := CheckoutRoute;
    }

    /** The card's "X": delete the record and stop showing the card. */
    method Clear()
      modifies this, store
      ensures store.entries == old(store.entries) - {SavedCheckoutKey}
      ensures !Visible()
    {
      store.RemoveItem(SavedCheckoutKey);
      savedCheckout := None;
    }
  }
}
