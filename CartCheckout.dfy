/** The checkout wizard (`src/pages/CartCheckoutScreen.tsx`): the cart, the current
    step, the saved addresses and the two selections, changed by the screen's
    handlers and by the step buttons, each of which exists only on its own step. */
module CartCheckoutScreen {
  import opened Optional
  import opened Text
  import opened Addresses
  import opened Cart
  import opened DeliveryDetailsSection

  datatype Step = Summary | DeliveryStep | PaymentStep

  datatype PaymentType = Card | NetBanking | COD
  datatype PaymentMethod = PaymentMethod(id: string, kind: PaymentType, details: string)

  const InitialAddresses: seq<Address> := [
    Address("addr1", Home, "123 Main St", None, "Anytown", "CA", "90210", None),
    Address("addr2", Work, "456 Business Rd", None, "Busytown", "NY", "10001", None)
  ]

  const PaymentMethods: seq<PaymentMethod> := [
    PaymentMethod("pm1", Card, "Visa **** 1234"),
    PaymentMethod("pm2", COD, "Cash on Delivery")
  ]

  const PromoCode: string := "SAVE10"

  /** JavaScript truthiness of an optional id: `undefined` and `""` are both false. */
  predicate Truthy(id: Option<string>) {
    id.Some? && id.value != ""
  }

  /** The promo check: the typed code, upper-cased, is exactly "SAVE10". */
  predicate PromoAccepted(code: string) {
    Upper(code) == PromoCode
  }

  /** Accepted codes are exactly the six-letter spellings of "save10" in any mix of
      letter case. */
  lemma PromoAcceptedIff(code: string)
    ensures PromoAccepted(code) <==> Lower(code) == "save10"
  {
    UpperAgreesWithLower(code, PromoCode);
    assert Lower(PromoCode) == "save10";
    assert Upper(PromoCode) == PromoCode;
  }

  lemma PromoExamples()
    ensures PromoAccepted("save10") && PromoAccepted("Save10") && PromoAccepted("SAVE10")
    ensures !PromoAccepted("XYZ") && !PromoAccepted("SAVE1") && !PromoAccepted("SAVE10 ")
  {
    assert Upper("save10") == PromoCode;
    assert Upper("Save10") == PromoCode;
    assert Upper("SAVE10") == PromoCode;
    assert Upper("XYZ")[0] == 'X';
  }

  class CheckoutScreen {
    var cartItems: seq<CartLine>
    var promoCode: string
    var currentStep: Step
    var savedAddresses: seq<Address>
    var selectedAddressId: Option<string>
    const availablePaymentMethods: seq<PaymentMethod>
    var selectedPaymentMethodId: Option<string>
    /** The delivery step's address form. The section is mounted afresh, with its
        form hidden and empty, each time the wizard enters the delivery step. */
    var form: DeliveryForm

    /** Every cart line has a quantity of at least 1. */
    ghost predicate Valid()
      reads this
    {
      AllPositive(cartItems)
    }

    /** The screen's initial state: the two placeholder lines, the summary step, the
        two placeholder addresses with the first one selected, and the first payment
        method selected. */
    constructor ()
      ensures Valid()
      ensures cartItems == InitialCart && promoCode == "" && currentStep == Summary
      ensures savedAddresses == InitialAddresses && selectedAddressId == Some("addr1")
      ensures availablePaymentMethods == PaymentMethods && selectedPaymentMethodId == Some("pm1")
      ensures fresh(form) && form.IsReset()
    {
      cartItems := InitialCart;
      promoCode := "";
      currentStep := Summary;
      savedAddresses := InitialAddresses;
      selectedAddressId := Some(InitialAddresses[0].id);
      availablePaymentMethods := PaymentMethods;
      selectedPaymentMethodId := Some(PaymentMethods[0].id);
      form := new DeliveryForm();
    }

    /** The totals footer and the "Proceed to Delivery" button are rendered only for
        a non-empty cart; otherwise the summary reads "Your cart is empty." */
    predicate ShowsTotals()
      reads this
    {
      |cartItems| > 0
    }

    /** `handleQuantityChange`, reached only from the line controls, which the
        summary step alone renders: on the other steps the cart cannot change. */
    method QuantityChange(id: string, newQuantity: int)
      requires Valid()
      modifies this`cartItems
      ensures Valid()
      ensures cartItems == if currentStep == Summary then ChangeQuantity(old(cartItems), id, newQuantity) else old(cartItems)
    {
      if currentStep == Summary {
        cartItems := ChangeQuantity(cartItems, id, newQuantity);
      }
    }

    /** `handleRemoveItem`, reached only from the summary step's line controls. */
    method RemoveItem(id: string)
      requires Valid()
      modifies this`cartItems
      ensures Valid()
      ensures cartItems == if currentStep == Summary then RemoveLine(old(cartItems), id) else old(cartItems)
    {
      if currentStep == Summary {
        cartItems := RemoveLine(cartItems, id);
        assert forall i :: 0 <= i < |cartItems| ==> cartItems[i] in old(cartItems);
      }
    }

    /** The promo code input, part of the totals footer: it exists only on the
        summary step of a non-empty cart. */
    method TypePromoCode(code: string)
      modifies this`promoCode
      ensures promoCode == if currentStep == Summary && ShowsTotals() then code else old(promoCode)
    {
      if currentStep == Summary && ShowsTotals() {
        promoCode := code;
      }
    }

    /** `handleApplyPromo`: reports whether the code is accepted and changes nothing,
        so neither the cart nor any total moves. */
    method ApplyPromo() returns (applied: bool)
      ensures applied <==> Lower(promoCode) == "save10"
    {
      applied := Upper(promoCode) == PromoCode;
      PromoAcceptedIff(promoCode);
    }

    /** `handleAddNewAddress`, called only by the delivery section, so only on the
        delivery step: append the address under the id `addr` followed by the clock
        reading `stamp`, and select it. */
    method AddNewAddress(newAddress: NewAddress, stamp: string)
      modifies this`savedAddresses, this`selectedAddressId
      ensures savedAddresses == if currentStep == DeliveryStep
        then old(savedAddresses) + [WithId(newAddress, "addr" + stamp)] else old(savedAddresses)
      ensures selectedAddressId == if currentStep == DeliveryStep
        then Some("addr" + stamp) else old(selectedAddressId)
    {
      if currentStep == DeliveryStep {
        var withId := WithId(newAddress, "addr" + stamp);
        savedAddresses := savedAddresses + [withId];
        selectedAddressId := Some(withId.id);
      }
    }

    /** Submitting the delivery form, which exists only on the delivery step: an
        address the browser lets through is added and selected, and the form is
        cleared and hidden; a blocked submission changes nothing. */
    method SubmitAddressForm(stamp: string) returns (added: bool)
      modifies form, this`savedAddresses, this`selectedAddressId
      ensures added <==> currentStep == DeliveryStep && old(form.CanSubmit())
      ensures added ==>
        && savedAddresses == old(savedAddresses) + [WithId(NewAddress(Other, old(form.line1), old(form.city), old(form.state), old(form.zip)), "addr" + stamp)]
        && selectedAddressId == Some("addr" + stamp)
        && form.IsReset()
      ensures !added ==>
        && savedAddresses == old(savedAddresses) && selectedAddressId == old(selectedAddressId)
        && unchanged(form)
    {
      if currentStep != DeliveryStep {
        return false;
      }
      var emitted := form.Submit();
      added := emitted.Some?;
      if added {
        AddNewAddress(emitted.value, stamp);
      }
    }

    /** "Proceed to Delivery": only on the summary step and only for a non-empty cart;
        the delivery section then mounts with a fresh form. */
    method ProceedToDelivery() returns (moved: bool)
      modifies this`currentStep, this`form
      ensures moved <==> old(currentStep) == Summary && |cartItems| > 0
      ensures currentStep == if moved then DeliveryStep else old(currentStep)
      ensures moved ==> fresh(form) && form.IsReset()
      ensures !moved ==> form == old(form)
    {
      moved := currentStep == Summary && ShowsTotals();
      if moved {
        currentStep := DeliveryStep;
        form := new DeliveryForm();
      }
    }

    /** "Back to Cart": always allowed from the delivery step. */
    method BackToCart() returns (moved: bool)
      modifies this`currentStep
      ensures moved <==> old(currentStep) == DeliveryStep
      ensures currentStep == if moved then Summary else old(currentStep)
    {
      moved := currentStep == DeliveryStep;
      if moved {
        currentStep := Summary;
      }
    }

    /** "Proceed to Payment": only on the delivery step with an address id selected. */
    method ProceedToPayment() returns (moved: bool)
      modifies this`currentStep
      ensures moved <==> old(currentStep) == DeliveryStep && Truthy(selectedAddressId)
      ensures currentStep == if moved then PaymentStep else old(currentStep)
    {
      moved := currentStep == DeliveryStep && Truthy(selectedAddressId);
      if moved {
        currentStep := PaymentStep;
      }
    }

    /** "Back to Delivery": always allowed from the payment step; the delivery section
        mounts again with a fresh form. */
    method BackToDelivery() returns (moved: bool)
      modifies this`currentStep, this`form
      ensures moved <==> old(currentStep) == PaymentStep
      ensures currentStep == if moved then DeliveryStep else old(currentStep)
      ensures moved ==> fresh(form) && form.IsReset()
      ensures !moved ==> form == old(form)
    {
      moved := currentStep == PaymentStep;
      if moved {
        currentStep := DeliveryStep;
        form := new DeliveryForm();
      }
    }

    /** The payment step's radio group sets the selected method id; its options are
        the available methods, so the id is always one of theirs. */
    method SelectPaymentMethod(id: string)
      requires exists i :: 0 <= i < |availablePaymentMethods| && availablePaymentMethods[i].id == id
      modifies this`selectedPaymentMethodId
      ensures selectedPaymentMethodId == if currentStep == PaymentStep then Some(id) else old(selectedPaymentMethodId)
    {
      if currentStep == PaymentStep {
        selectedPaymentMethodId := Some(id);
      }
    }

    /** `handlePlaceOrder`, behind the "Place Order" button of the payment step: the
        cart empties and the wizard returns to the summary at once, without waiting
        for the simulated delay. Addresses and selections stay. */
    method PlaceOrder() returns (placed: bool)
      requires Valid()
      modifies this`cartItems, this`currentStep
      ensures Valid()
      ensures placed <==> old(currentStep) == PaymentStep && Truthy(selectedPaymentMethodId)
      ensures placed ==> cartItems == [] && currentStep == Summary
      ensures !placed ==> cartItems == old(cartItems) && currentStep == old(currentStep)
    {
      placed := currentStep == PaymentStep && Truthy(selectedPaymentMethodId);
      if placed {
        cartItems := [];
        currentStep := Summary;
      }
    }
  }

  /** A walk through the wizard from the initial screen: the cart cannot change away
      from the summary step, and once the order is placed the empty cart cannot
      proceed. */
  method Scenario()
  {
    var screen := new CheckoutScreen();
    InitialCartTotals();
    var moved := screen.ProceedToDelivery();
    assert moved && screen.currentStep == DeliveryStep;
    screen.RemoveItem("d1");
    assert screen.cartItems == InitialCart;
    moved := screen.ProceedToPayment();
    assert moved && screen.currentStep == PaymentStep;
    var placed := screen.PlaceOrder();
    assert placed && screen.cartItems == [] && screen.currentStep == Summary;
    moved := screen.ProceedToDelivery();
    assert !moved && screen.currentStep == Summary;
  }

  /** The delivery form on the screen: a filled-in address is added and selected, and
      text typed into the form afterwards is gone once the delivery step is left and
      entered again. */
  method FormScenario()
  {
    var screen := new CheckoutScreen();
    var moved := screen.ProceedToDelivery();
    var form := screen.form;
    form.ClickAddNewAddress();
    form.TypeLine1("1 Elm St");
    form.TypeCity("Springfield");
    form.TypeState("IL");
    form.TypeZip("62701");
    var added := screen.SubmitAddressForm("17");
    assert added && screen.selectedAddressId == Some("addr" + "17");
    form.ClickAddNewAddress();
    form.TypeCity("Draft");
    moved := screen.BackToCart();
    moved := screen.ProceedToDelivery();
    assert moved && screen.form.IsReset();
  }
}
