/** The three-step checkout page (shipping → payment → review, then "place
    order", which returns to the home page), and the texts its review step shows. */
module CheckoutPage {
  import opened Common
  import Records
  import CheckoutProcess

  /** The page's steps; there is no confirmation step here. */
  datatype PageStep = Shipping | Payment | Review

  /** `value || fallback`: an empty string shows the fallback. */
  function DisplayOr(value: string, fallback: string): (r: string)
    ensures value != "" ==> r == value
    ensures value == "" ==> r == fallback
  {
    if value != "" then value else fallback
  }

  /** The address block of the review step, one string per rendered line. */
  function ReviewAddress(i: Records.ShippingInfo): (lines: seq<string>)
    ensures |lines| == 4 && lines[3] == i.country
  {
    [ DisplayOr(i.firstName, "John") + " " + DisplayOr(i.lastName, "Doe"),
      DisplayOr(i.address, "123 Eco Street"),
      DisplayOr(i.city, "Green Valley") + ", " + DisplayOr(i.state, "West Java") + " " + DisplayOr(i.zipCode, "12345"),
      i.country ]
  }

  /** The `required` check of this page's shipping form (the country is fixed text). */
  predicate ShippingFormComplete(i: Records.ShippingInfo)
  {
    i.firstName != "" && i.lastName != "" && i.email != "" && i.phone != ""
    && i.address != "" && i.city != "" && i.state != "" && i.zipCode != ""
  }

  /** A form that passed the shipping submit never shows a placeholder: the
      review lines are built from the entered values only. */
  lemma ReviewShowsEnteredValues(i: Records.ShippingInfo)
    requires ShippingFormComplete(i)
    ensures ReviewAddress(i) == [i.firstName + " " + i.lastName, i.address,
                                 i.city + ", " + i.state + " " + i.zipCode, i.country]
  {
  }

  /** The empty form shows every placeholder. */
  lemma EmptyFormShowsPlaceholders(country: string)
    ensures ReviewAddress(Records.ShippingInfo("", "", "", "", "", "", "", "", country))
            == ["John Doe", "123 Eco Street", "Green Valley, West Java 12345", country]
  {
    assert "John" + " " + "Doe" == "John Doe";
    assert "Green Valley" + ", " + "West Java" + " " + "12345" == "Green Valley, West Java 12345";
  }

  /** The payment-method line of the review step. */
  function PaymentLabel(paymentMethod: string): (text: string)
    ensures paymentMethod == "credit-card" <==> text == "Kartu Kredit / Debit"
    ensures paymentMethod == "bank-transfer" <==> text == "Transfer Bank"
    ensures paymentMethod != "credit-card" && paymentMethod != "bank-transfer" <==> text == "E-Wallet"
  {
    if paymentMethod == "credit-card" then "Kartu Kredit / Debit"
    else if paymentMethod == "bank-transfer" then "Transfer Bank"
    else "E-Wallet"
  }

  const HomeRoute: string := "/"

  class CheckoutPageState {
    var step: PageStep
    var isProcessing: bool
    var shippingInfo: Records.ShippingInfo
    var shippingMethod: string
    var paymentMethod: string

    constructor ()
      ensures step == Shipping && !isProcessing
      ensures shippingInfo == Records.ShippingInfo("", "", "", "", "", "", "", "", "Indonesia")
      ensures shippingMethod == "standard" && paymentMethod == "credit-card"
    {
      step := Shipping;
      isProcessing := false;
      shippingInfo := Records.ShippingInfo("", "", "", "", "", "", "", "", "Indonesia");
      shippingMethod := "standard";
      paymentMethod := "credit-card";
    }

    /** `handleInputChange` on one of the eight shipping inputs (the country is
        fixed text on this page). */
    method ShippingInput(field: CheckoutProcess.ShippingField, value: string)
      requires step == Shipping && field != CheckoutProcess.Country
      modifies this
      ensures CheckoutProcess.ShippingValue(shippingInfo, field) == value
      ensures forall other :: other != field ==>
                CheckoutProcess.ShippingValue(shippingInfo, other) == CheckoutProcess.ShippingValue(old(shippingInfo), other)
      ensures shippingInfo.country == old(shippingInfo.country)
      ensures step == old(step) && isProcessing == old(isProcessing)
      ensures shippingMethod == old(shippingMethod) && paymentMethod == old(paymentMethod)
    {
      shippingInfo := CheckoutProcess.WithShipping(shippingInfo, field, value);
    }

    /** The shipping-method radio group, whose items are "standard" and "express". */
    method SelectShippingMethod(m: string)
      requires step == Shipping && (m == "standard" || m == "express")
      modifies this
      ensures shippingMethod == m
      ensures step == old(step) && isProcessing == old(isProcessing)
      ensures shippingInfo == old(shippingInfo) && paymentMethod == old(paymentMethod)
    {
      shippingMethod := m;
    }

    /** The payment-method radio group, whose items are "credit-card",
        "bank-transfer" and "e-wallet". */
    method SelectPaymentMethod(m: string)
      requires step == Payment && (m == "credit-card" || m == "bank-transfer" || m == "e-wallet")
      modifies this
      ensures paymentMethod == m
      ensures step == old(step) && isProcessing == old(isProcessing)
      ensures shippingInfo == old(shippingInfo) && shippingMethod == old(shippingMethod)
    {
      paymentMethod := m;
    }

    /** The shipping form's submit, blocked by the browser while a field is empty. */
    method SubmitShipping()
      requires step == Shipping
      modifies this
      ensures step == (if ShippingFormComplete(shippingInfo) then Payment else Shipping)
      ensures isProcessing == old(isProcessing) && shippingInfo == old(shippingInfo)
      ensures shippingMethod == old(shippingMethod) && paymentMethod == old(paymentMethod)
    {
      if ShippingFormComplete(shippingInfo) {
        step := Payment;
      }
    }

    /** The payment form's submit. The card inputs keep no state of their own;
        `cardFieldsFilled` says whether the browser's `required` check passes
        for them, and they are rendered only for the card method. */
    method SubmitPayment(cardFieldsFilled: bool)
      requires step == Payment
      modifies this
      ensures step == (if paymentMethod != "credit-card" || cardFieldsFilled then Review else Payment)
      ensures isProcessing == old(isProcessing) && shippingInfo == old(shippingInfo)
      ensures shippingMethod == old(shippingMethod) && paymentMethod == old(paymentMethod)
    {
      if paymentMethod != "credit-card" || cardFieldsFilled {
        step := Review;
      }
    }

    method BackToShipping()
      requires step == Payment
      modifies this
      ensures step == Shipping
      ensures isProcessing == old(isProcessing) && shippingInfo == old(shippingInfo)
      ensures shippingMethod == old(shippingMethod) && paymentMethod == old(paymentMethod)
    {
      step := Shipping;
    }

    method BackToPayment()
      requires step == Review
      modifies this
      ensures step == Payment
      ensures isProcessing == old(isProcessing) && shippingInfo == old(shippingInfo)
      ensures shippingMethod == old(shippingMethod) && paymentMethod == old(paymentMethod)
    {
      step := Payment;
    }

    /** "Bayar Sekarang": start processing; disabled while processing. */
    method PlaceOrder()
      requires step == Review
      modifies this
      ensures isProcessing && step == old(step)
      ensures shippingInfo == old(shippingInfo)
      ensures shippingMethod == old(shippingMethod) && paymentMethod == old(paymentMethod)
    {
      if !isProcessing {
        isProcessing := true;
      }
    }

    /** The end of the simulated delay: processing stops and the page navigates home. */
    method CompletePlaceOrder() returns (route: string)
      requires isProcessing
      modifies this
      ensures !isProcessing && route == HomeRoute && step == old(step)
      ensures shippingInfo == old(shippingInfo)
      ensures shippingMethod == old(shippingMethod) && paymentMethod == old(paymentMethod)
    {
      isProcessing := false;
      route := HomeRoute;
    }

    /** Typing a non-empty value into each of the eight inputs and submitting
        reaches the payment step, where choosing a transfer lets the payment
        submit through to review. */
    method FillAndPayByTransfer(v: string)
      requires step == Shipping && v != ""
      modifies this
      ensures step == Review && paymentMethod == "bank-transfer"
      ensures ShippingFormComplete(shippingInfo) && shippingInfo.country == old(shippingInfo.country)
    {
      ShippingInput(CheckoutProcess.FirstName, v);
      ShippingInput(CheckoutProcess.LastName, v);
      ShippingInput(CheckoutProcess.Email, v);
      ShippingInput(CheckoutProcess.Phone, v);
      ShippingInput(CheckoutProcess.Address, v);
      ShippingInput(CheckoutProcess.City, v);
      ShippingInput(CheckoutProcess.State, v);
      ShippingInput(CheckoutProcess.ZipCode, v);
      SubmitShipping();
      SelectPaymentMethod("bank-transfer");
      SubmitPayment(false);
    }
  }
}
