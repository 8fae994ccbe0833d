/** The four-step checkout wizard with save-and-resume: the step machine
    (shipping → payment → review → confirmation, with back buttons), the
    payment-processing flag, the "resume saved checkout" banner, and the one
    storage slot "savedCheckout" that save, resume, dismiss and the mount check
    act on. The two-second payment delay is split into a start and a completion
    event. */
module CheckoutProcess {
  import opened Common
  import opened Records

  /** The part of the wizard a saved record carries. */
  datatype Session = Session(
    activeStep: Step, shippingInfo: ShippingInfo, paymentMethod: string,
    shippingMethod: string, cardDetails: CardDetails)

  /** `saveCheckoutData`'s object, stamped with the save time. */
  function ToRecord(s: Session, now: int): (r: CheckoutRecord)
    ensures r.timestamp == now
  {
    CheckoutRecord(s.activeStep, s.shippingInfo, s.paymentMethod, s.shippingMethod, s.cardDetails, now)
  }

  /** The fields `loadCheckoutData` copies back from a record. */
  function FromRecord(r: CheckoutRecord): Session
  {
    Session(r.activeStep, r.shippingInfo, r.paymentMethod, r.shippingMethod, r.cardDetails)
  }

  /** Saving then reading back restores every field, whatever the time stamp. */
  lemma {:induction false} RecordRoundTrip(s: Session, now: int)
    ensures FromRecord(ToRecord(s, now)) == s
    ensures ToRecord(FromRecord(ToRecord(s, now)), now) == ToRecord(s, now)
  {
  }

  /** A record saved at `now` and inspected before a day has passed is offered
      for resumption, carrying the saved session. */
  lemma SavedIsResumable(entries: map<string, Value>, s: Session, savedAt: int, now: int)
    requires savedAt <= now < savedAt + DayMillis
    ensures var e := entries[SavedCheckoutKey := CheckoutValue(ToRecord(s, savedAt))];
            InspectSaved(e, now) == Resumable(ToRecord(s, savedAt))
            && FromRecord(InspectSaved(e, now).record) == s
  {
  }

  /** The ordinal of a step in the progress bar. */
  function StepIndex(s: Step): (i: nat)
    ensures i < 4
  {
    match s
    case Shipping => 0
    case Payment => 1
    case Review => 2
    case Confirmation => 3
  }

  /** Each position of the progress bar belongs to one step, so "one step
      forward" and "one step back" pin the step reached. */
  lemma StepIndexInjective(s: Step, t: Step)
    requires StepIndex(s) == StepIndex(t)
    ensures s == t
  {
  }

  const InitialShipping: ShippingInfo := ShippingInfo("", "", "", "", "", "", "", "", "Indonesia")
  const InitialCard: CardDetails := CardDetails("", "", "", "")

  /** The shipping form's inputs, by their `name` attribute. */
  datatype ShippingField = FirstName | LastName | Email | Phone | Address | City | State | ZipCode | Country

  function ShippingValue(i: ShippingInfo, field: ShippingField): string
  {
    match field
    case FirstName => i.firstName
    case LastName => i.lastName
    case Email => i.email
    case Phone => i.phone
    case Address => i.address
    case City => i.city
    case State => i.state
    case ZipCode => i.zipCode
    case Country => i.country
  }

  /** `handleInputChange`: the field reads back the value and every other field
      is kept. */
  function WithShipping(i: ShippingInfo, field: ShippingField, value: string): (j: ShippingInfo)
    ensures ShippingValue(j, field) == value
    ensures forall other :: other != field ==> ShippingValue(j, other) == ShippingValue(i, other)
  {
    match field
    case FirstName => i.(firstName := value)
    case LastName => i.(lastName := value)
    case Email => i.(email := value)
    case Phone => i.(phone := value)
    case Address => i.(address := value)
    case City => i.(city := value)
    case State => i.(state := value)
    case ZipCode => i.(zipCode := value)
    case Country => i.(country := value)
  }

  /** The card tab's inputs. */
  datatype CardField = CardNumber | CardName | Expiry | Cvc

  function CardValue(c: CardDetails, field: CardField): string
  {
    match field
    case CardNumber => c.cardNumber
    case CardName => c.cardName
    case Expiry => c.expiry
    case Cvc => c.cvc
  }

  /** `handleCardInputChange`: the field reads back the value and every other
      field is kept. */
  function WithCard(c: CardDetails, field: CardField, value: string): (d: CardDetails)
    ensures CardValue(d, field) == value
    ensures forall other :: other != field ==> CardValue(d, other) == CardValue(c, other)
  {
    match field
    case CardNumber => c.(cardNumber := value)
    case CardName => c.(cardName := value)
    case Expiry => c.(expiry := value)
    case Cvc => c.(cvc := value)
  }

  /** The browser's `required` check on the shipping form: every field is non-empty. */
  predicate ShippingFormComplete(i: ShippingInfo)
  {
    i.firstName != "" && i.lastName != "" && i.email != "" && i.phone != "" && i.address != ""
    && i.city != "" && i.state != "" && i.zipCode != "" && i.country != ""
  }

  /** The values of the payment tabs. */
  const PaymentTabs: seq<string> := ["credit-card", "bank-transfer", "e-wallet"]

  /** The `required` check on the payment form: only the card tab has required
      inputs, and they exist only while that tab is on screen. */
  predicate PaymentFormComplete(tab: string, c: CardDetails)
  {
    tab == "credit-card" ==>
      c.cardNumber != "" && c.cardName != "" && c.expiry != "" && c.cvc != ""
  }

  lemma InitialFormsIncomplete()
    ensures !ShippingFormComplete(InitialShipping)
    ensures !PaymentFormComplete("credit-card", InitialCard)
    ensures PaymentFormComplete("bank-transfer", InitialCard)
  {
  }

  class ProcessPage {
    var activeStep: Step
    var isProcessing: bool
    var hasSavedCheckout: bool
    var shippingInfo: ShippingInfo
    var paymentMethod: string
    var shippingMethod: string
    var cardDetails: CardDetails
    /** The payment tab on screen. The tabs keep their own state (`defaultValue`)
        and are mounted only on the payment step, so every entry into that step
        shows the card tab again, whatever `paymentMethod` holds. */
    var visibleTab: string
    const store: Store

    function Current(): Session
      reads this
    {
      Session(activeStep, shippingInfo, paymentMethod, shippingMethod, cardDetails)
    }

    constructor (store: Store)
      ensures this.store == store
      ensures activeStep == Shipping && !isProcessing && !hasSavedCheckout
      ensures shippingInfo == InitialShipping && cardDetails == InitialCard
      ensures paymentMethod == "credit-card" && shippingMethod == "standard" && visibleTab == "credit-card"
    {
      this.store := store;
      activeStep := Shipping;
      isProcessing := false;
      hasSavedCheckout := false;
      shippingInfo := InitialShipping;
      paymentMethod := "credit-card";
      shippingMethod := "standard";
      cardDetails := InitialCard;
      visibleTab := "credit-card";
    }

    /** The mount effect: show the banner for a fresh record, delete an expired
        one, ignore an unreadable one. */
    method CheckSavedOnMount(now: int)
      modifies this, store
      ensures store.entries == AfterMountCheck(old(store.entries), now)
      ensures hasSavedCheckout == (old(hasSavedCheckout) || InspectSaved(old(store.entries), now).Resumable?)
      ensures Current() == old(Current()) && isProcessing == old(isProcessing) && visibleTab == old(visibleTab)
    {
      match InspectSaved(store.entries, now)
      case Resumable(_) =>
        hasSavedCheckout := true;
      case Expired =>
        store.RemoveItem(SavedCheckoutKey);
      case _ =>
    }

    /** "Simpan & Lanjutkan Nanti", offered on the shipping, payment and review steps. */
    method Save(now: int)
      requires activeStep != Confirmation
      modifies store
      ensures store.entries == old(store.entries)[SavedCheckoutKey := CheckoutValue(ToRecord(Current(), now))]
    {
      var data := CheckoutValue(ToRecord(Current(), now));
      store.SetItem(SavedCheckoutKey, data);
    }

    /** "Lanjutkan": copy a stored record into the wizard, hide the banner and
        delete the record. An unreadable value changes nothing. */
    method Resume()
      modifies this, store
      ensures SavedCheckoutKey !in old(store.entries) || old(store.entries)[SavedCheckoutKey].Corrupt? ==>
                store.entries == old(store.entries) && Current() == old(Current())
                && hasSavedCheckout == old(hasSavedCheckout)
      ensures SavedCheckoutKey in old(store.entries) && old(store.entries)[SavedCheckoutKey].CheckoutValue? ==>
                Current() == FromRecord(old(store.entries)[SavedCheckoutKey].record)
      ensures SavedCheckoutKey in old(store.entries) && !old(store.entries)[SavedCheckoutKey].Corrupt? ==>
                store.entries == old(store.entries) - {SavedCheckoutKey} && !hasSavedCheckout
      ensures visibleTab == (if SavedCheckoutKey in old(store.entries) && old(store.entries)[SavedCheckoutKey].CheckoutValue?
                                && old(store.entries)[SavedCheckoutKey].record.activeStep == Payment
                                && old(activeStep) != Payment
                             then "credit-card" else old(visibleTab))
      ensures isProcessing == old(isProcessing)
    {
      if SavedCheckoutKey in store.entries {
        var saved := store.entries[SavedCheckoutKey];
        if !saved.Corrupt? {
          if saved.CheckoutValue? {
            var r := saved.record;
            if r.activeStep == Payment && activeStep != Payment {
              visibleTab := "credit-card";
            }
            activeStep := r.activeStep;
            shippingInfo := r.shippingInfo;
            paymentMethod := r.paymentMethod;
            shippingMethod := r.shippingMethod;
            cardDetails := r.cardDetails;
          }
          hasSavedCheckout := false;
          store.RemoveItem(SavedCheckoutKey);
        }
      }
    }

    /** Save immediately followed by resume: the wizard is exactly as it was, the
        slot is empty again and the banner is hidden. */
    method SaveThenResume(now: int)
      requires activeStep != Confirmation
      modifies this, store
      ensures Current() == old(Current()) && isProcessing == old(isProcessing) && visibleTab == old(visibleTab)
      ensures store.entries == old(store.entries) - {SavedCheckoutKey}
      ensures !hasSavedCheckout
    {
      Save(now);
      Resume();
      RecordRoundTrip(old(Current()), now);
    }

    /** The banner's "X": delete the record and hide the banner. */
    method Dismiss()
      modifies this, store
      ensures store.entries == old(store.entries) - {SavedCheckoutKey}
      ensures !hasSavedCheckout
      ensures Current() == old(Current()) && isProcessing == old(isProcessing) && visibleTab == old(visibleTab)
    {
      store.RemoveItem(SavedCheckoutKey);
      hasSavedCheckout := false;
    }

    /** The shipping form's submit: the browser blocks it while a field is empty.
        Entering the payment step shows the card tab. */
    method SubmitShipping()
      requires activeStep == Shipping
      modifies this
      ensures activeStep == (if ShippingFormComplete(shippingInfo) then Payment else Shipping)
      ensures visibleTab == (if ShippingFormComplete(shippingInfo) then "credit-card" else old(visibleTab))
      ensures StepIndex(activeStep) <= StepIndex(old(activeStep)) + 1
      ensures shippingInfo == old(shippingInfo) && paymentMethod == old(paymentMethod)
      ensures shippingMethod == old(shippingMethod) && cardDetails == old(cardDetails)
      ensures isProcessing == old(isProcessing) && hasSavedCheckout == old(hasSavedCheckout)
    {
      if ShippingFormComplete(shippingInfo) {
        activeStep := Payment;
        visibleTab := "credit-card";
      }
    }

    /** A shipping input. */
    method ShippingInput(field: ShippingField, value: string)
      requires activeStep == Shipping
      modifies this
      ensures Current() == old(Current()).(shippingInfo := WithShipping(old(shippingInfo), field, value))
      ensures isProcessing == old(isProcessing) && hasSavedCheckout == old(hasSavedCheckout)
      ensures visibleTab == old(visibleTab)
    {
      shippingInfo := WithShipping(shippingInfo, field, value);
    }

    /** The shipping-method radio group, whose two items are "standard" and "express". */
    method SelectShippingMethod(m: string)
      requires activeStep == Shipping && (m == "standard" || m == "express")
      modifies this
      ensures Current() == old(Current()).(shippingMethod := m)
      ensures isProcessing == old(isProcessing) && hasSavedCheckout == old(hasSavedCheckout)
      ensures visibleTab == old(visibleTab)
    {
      shippingMethod := m;
    }

    /** A card input; the inputs exist only while the card tab is on screen. */
    method CardInput(field: CardField, value: string)
      requires activeStep == Payment && visibleTab == "credit-card"
      modifies this
      ensures Current() == old(Current()).(cardDetails := WithCard(old(cardDetails), field, value))
      ensures isProcessing == old(isProcessing) && hasSavedCheckout == old(hasSavedCheckout)
      ensures visibleTab == old(visibleTab)
    {
      cardDetails := WithCard(cardDetails, field, value);
    }

    /** A payment tab chosen by the visitor (`onValueChange`): the tab on screen
        and the payment method both become that tab. */
    method SelectTab(tab: string)
      requires activeStep == Payment && tab in PaymentTabs
      modifies this
      ensures visibleTab == tab && paymentMethod == tab
      ensures Current() == old(Current()).(paymentMethod := tab)
      ensures isProcessing == old(isProcessing) && hasSavedCheckout == old(hasSavedCheckout)
    {
      visibleTab := tab;
      paymentMethod := tab;
    }

    /** The payment form's submit; the card fields are required while the card
        tab is on screen, whichever method was chosen before. */
    method SubmitPayment()
      requires activeStep == Payment
      modifies this
      ensures activeStep == (if PaymentFormComplete(visibleTab, cardDetails) then Review else Payment)
      ensures visibleTab == old(visibleTab)
      ensures shippingInfo == old(shippingInfo) && paymentMethod == old(paymentMethod)
      ensures shippingMethod == old(shippingMethod) && cardDetails == old(cardDetails)
      ensures isProcessing == old(isProcessing) && hasSavedCheckout == old(hasSavedCheckout)
    {
      if PaymentFormComplete(visibleTab, cardDetails) {
        activeStep := Review;
      }
    }

    /** "Kembali": payment → shipping. */
    method BackToShipping()
      requires activeStep == Payment
      modifies this
      ensures activeStep == Shipping && StepIndex(activeStep) + 1 == StepIndex(old(activeStep))
      ensures Current() == old(Current()).(activeStep := Shipping) && visibleTab == old(visibleTab)
      ensures isProcessing == old(isProcessing) && hasSavedCheckout == old(hasSavedCheckout)
    {
      activeStep := Shipping;
    }

    /** "Kembali ke Pembayaran": review → payment, showing the card tab again; the
        button stays enabled while a payment is processing. */
    method BackToPayment()
      requires activeStep == Review
      modifies this
      ensures activeStep == Payment && StepIndex(activeStep) + 1 == StepIndex(old(activeStep))
      ensures Current() == old(Current()).(activeStep := Payment) && visibleTab == "credit-card"
      ensures isProcessing == old(isProcessing) && hasSavedCheckout == old(hasSavedCheckout)
    {
      activeStep := Payment;
      visibleTab := "credit-card";
    }

    /** The review form's submit starts processing; the button is disabled while
        a payment is already processing. */
    method SubmitReview()
      requires activeStep == Review
      modifies this
      ensures isProcessing
      ensures Current() == old(Current()) && hasSavedCheckout == old(hasSavedCheckout) && visibleTab == old(visibleTab)
    {
      if !isProcessing {
        isProcessing := true;
      }
    }

    /** The end of the simulated payment delay: confirmation. The stored record
        is left in place. */
    method CompleteProcessing()
      requires isProcessing
      modifies this
      ensures !isProcessing && activeStep == Confirmation
      ensures Current() == old(Current()).(activeStep := Confirmation)
      ensures hasSavedCheckout == old(hasSavedCheckout) && visibleTab == old(visibleTab)
    {
      isProcessing := false;
      activeStep := Confirmation;
    }

    /** E-Wallet chosen, the review reached, and "Kembali ke Pembayaran"
        pressed: the card tab is back on screen, so with empty card fields the
        next submit is blocked although the order is still an E-Wallet order. */
    method ReentryDemandsCard()
      requires activeStep == Payment && cardDetails == InitialCard
      modifies this
      ensures activeStep == Payment && paymentMethod == "e-wallet" && visibleTab == "credit-card"
      ensures cardDetails == InitialCard && !PaymentFormComplete(visibleTab, cardDetails)
    {
      SelectTab("e-wallet");
      SubmitPayment();
      BackToPayment();
      SubmitPayment();
    }
  }
}
