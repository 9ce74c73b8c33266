/** The checkout page (src/pages/Checkout.jsx): pricing derived from the
    cart's total, a four-step form machine with a required-field guard on each
    step's submit, generic Back/Continue buttons, and placing the order.
    `Date.now()` at the moment the order is placed is the parameter `now`. */
module Checkout {
  import opened Seqs
  import opened Text
  import opened Cart

  /** Shipping is free strictly above a subtotal of 50 and 9.99 otherwise. */
  function Shipping(subtotal: real): (r: real)
    ensures r == 0.0 <==> subtotal > 50.0
    ensures r == 0.0 || r == 9.99
  {
    if subtotal > 50.0 then 0.0 else 9.99
  }

  /** Tax at 8% of the subtotal. */
  function Tax(subtotal: real): (r: real)
    ensures subtotal >= 0.0 ==> 0.0 <= r <= subtotal
  {
    subtotal * 0.08
  }

  /** `subtotal + shipping + tax`. */
  function OrderTotal(subtotal: real): (r: real)
    ensures subtotal > 50.0 ==> r == 1.08 * subtotal
    ensures subtotal <= 50.0 ==> r == 1.08 * subtotal + 9.99
  {
    subtotal + Shipping(subtotal) + Tax(subtotal)
  }

  /** A subtotal of exactly 50 still pays shipping; one cent more does not. */
  lemma ShippingThreshold()
    ensures Shipping(50.0) == 9.99 && OrderTotal(50.0) == 63.99
    ensures Shipping(50.01) == 0.0
  {
  }

  /** The cart of lines (20 x 2) and (50 x 1) checks out at 90 + 0 + 7.20 = 97.20. */
  lemma ExampleCartTotal(a: CartItem, b: CartItem)
    requires a.price == Some(20.0) && a.quantity == 2
    requires b.price == Some(50.0) && b.quantity == 1
    ensures var subtotal := TotalPrice([a, b]);
      Shipping(subtotal) == 0.0 && Tax(subtotal) == 7.2 && OrderTotal(subtotal) == 97.2
  {
    TotalsExample(a, b);
  }

  datatype CustomerInfo = CustomerInfo(firstName: string, lastName: string, email: string, phone: string)
  datatype ShippingAddress = ShippingAddress(address: string, city: string, state: string, zipCode: string, country: string)
  datatype CardInfo = CardInfo(cardNumber: string, expiryDate: string, cvv: string, nameOnCard: string)

  const InitialCustomer: CustomerInfo := CustomerInfo("", "", "", "")
  const InitialAddress: ShippingAddress := ShippingAddress("", "", "", "", "United States")
  const InitialCard: CardInfo := CardInfo("", "", "", "")

  /** Step 1's guard: first name, last name and email are non-empty; the phone is optional. */
  predicate CustomerComplete(c: CustomerInfo)
  {
    c.firstName != "" && c.lastName != "" && c.email != ""
  }

  /** Step 2's guard: address, city, state and zip code are non-empty; the country is not checked. */
  predicate AddressComplete(a: ShippingAddress)
  {
    a.address != "" && a.city != "" && a.state != "" && a.zipCode != ""
  }

  /** Step 3's guard: with the 'card' method all four card fields are non-empty; any other method passes. */
  predicate PaymentComplete(paymentMethod: string, c: CardInfo)
  {
    paymentMethod == "card" ==> c.cardNumber != "" && c.expiryDate != "" && c.cvv != "" && c.nameOnCard != ""
  }

  /** `'ORD-' + Date.now().toString().slice(-6)`. */
  function OrderNumber(now: nat): string
  {
    "ORD-" + Last(NatToString(now), 6)
  }

  /** An order number is 'ORD-' followed by one to six decimal digits. */
  lemma OrderNumberFormat(now: nat)
    ensures var r := OrderNumber(now);
      && 5 <= |r| <= 10 && r[..4] == "ORD-"
      && forall i :: 4 <= i < |r| ==> '0' <= r[i] <= '9'
  {
    var s := NatToString(now);
    var d := Last(s, 6);
    assert 1 <= |d| <= 6;
    forall i | 0 <= i < |d| ensures '0' <= d[i] <= '9' {
      assert d[i] == s[|s| - |d| + i];
    }
    var r := "ORD-" + d;
    assert r[..4] == "ORD-";
    forall i | 4 <= i < |r| ensures '0' <= r[i] <= '9' {
      assert r[i] == d[i - 4];
    }
  }

  /** For a timestamp of six or more digits the order number is 'ORD-' and
      the timestamp's six lowest digits; so two such orders get the same
      number only when their timestamps agree modulo one million. */
  lemma OrderNumberDigits(now: nat, other: nat)
    requires now >= 100000 && other >= 100000
    ensures OrderNumber(now) == "ORD-" + LowDigits(now, 6) && |OrderNumber(now)| == 10
    ensures OrderNumber(now) == OrderNumber(other) ==> now % 1000000 == other % 1000000
  {
    assert Pow10(5) == 100000 && Pow10(6) == 1000000;
    LastOfNatToString(now, 6);
    LastOfNatToString(other, 6);
    if OrderNumber(now) == OrderNumber(other) {
      assert LowDigits(now, 6) == OrderNumber(now)[4..] && LowDigits(other, 6) == OrderNumber(other)[4..];
      LowDigitsDetermineRemainder(now, other, 6);
    }
  }

  /** What the page renders. */
  datatype Screen = EmptyCart | Confirmation(orderNumber: string) | StepForm(step: int)

  class CheckoutPage {
    var currentStep: int
    var orderPlaced: bool
    var orderNumber: string
    var customer: CustomerInfo
    var address: ShippingAddress
    var paymentMethod: string
    var card: CardInfo
    /** The items of the cart store. */
    var items: seq<CartItem>

    constructor(items: seq<CartItem>)
      ensures currentStep == 1 && !orderPlaced && orderNumber == ""
      ensures customer == InitialCustomer && address == InitialAddress
      ensures paymentMethod == "card" && card == InitialCard
      ensures this.items == items
      ensures Valid()
    {
      currentStep := 1;
      orderPlaced := false;
      orderNumber := "";
      customer := InitialCustomer;
      address := InitialAddress;
      paymentMethod := "card";
      card := InitialCard;
      this.items := items;
    }

    /** The step stays within 1..4. */
    ghost predicate Valid()
      reads this
    {
      1 <= currentStep <= 4
    }

    /** Nothing but the step changed. */
    twostate predicate OnlyStepChanged()
      reads this
    {
      && orderPlaced == old(orderPlaced) && orderNumber == old(orderNumber)
      && customer == old(customer) && address == old(address)
      && paymentMethod == old(paymentMethod) && card == old(card) && items == old(items)
    }

    function Subtotal(): real
      reads this
    {
      TotalPrice(items)
    }

    /** The empty-cart guard comes first, then the confirmation, then the step form. */
    function View(): (r: Screen)
      reads this
      ensures r == EmptyCart <==> |items| == 0 && !orderPlaced
      ensures r.Confirmation? <==> orderPlaced
      ensures r.StepForm? ==> r.step == currentStep && |items| > 0
    {
      if |items| == 0 && !orderPlaced then EmptyCart
      else if orderPlaced then Confirmation(orderNumber)
      else StepForm(currentStep)
    }

    /** `handleCustomerInfoSubmit`. */
    method SubmitCustomerInfo()
      requires Valid()
      modifies this
      ensures currentStep == if CustomerComplete(customer) then 2 else old(currentStep)
      ensures OnlyStepChanged() && Valid()
    {
      if CustomerComplete(customer) {
        currentStep := 2;
      }
    }

    /** `handleShippingSubmit`. */
    method SubmitShipping()
      requires Valid()
      modifies this
      ensures currentStep == if AddressComplete(address) then 3 else old(currentStep)
      ensures OnlyStepChanged() && Valid()
    {
      if AddressComplete(address) {
        currentStep := 3;
      }
    }

    /** `handlePaymentSubmit`. */
    method SubmitPayment()
      requires Valid()
      modifies this
      ensures currentStep == if PaymentComplete(paymentMethod, card) then 4 else old(currentStep)
      ensures paymentMethod != "card" ==> currentStep == 4
      ensures OnlyStepChanged() && Valid()
    {
      if paymentMethod == "card" {
        if card.cardNumber != "" && card.expiryDate != "" && card.cvv != "" && card.nameOnCard != "" {
          currentStep := 4;
        }
      } else {
        currentStep := 4;
      }
    }

    /** The Back button, rendered only after step 1. */
    method Back()
      requires Valid() && currentStep > 1
      modifies this
      ensures currentStep == old(currentStep) - 1
      ensures OnlyStepChanged() && Valid()
    {
      currentStep := currentStep - 1;
    }

    /** The Continue button, rendered on steps 2 and 3. */
    method Continue()
      requires Valid() && 1 < currentStep < 4
      modifies this
      ensures currentStep == old(currentStep) + 1
      ensures OnlyStepChanged() && Valid()
    {
      currentStep := currentStep + 1;
    }

    /** `handlePlaceOrder`, on the button rendered in place of Continue at step 4:
        the order number from the clock, the confirmation, and the cart's
        CLEAR_CART action. */
    method PlaceOrder(now: nat)
      requires Valid() && currentStep == 4
      modifies this
      ensures orderNumber == OrderNumber(now) && orderPlaced
      ensures items == []
      ensures View() == Confirmation(OrderNumber(now))
      ensures currentStep == old(currentStep) && customer == old(customer) && address == old(address)
      ensures paymentMethod == old(paymentMethod) && card == old(card)
      ensures Valid()
    {
      var cleared := Reduce(CartState(items, ()), ClearCart, now).items;
      items := cleared;
      orderPlaced := true;
      orderNumber := OrderNumber(now);
    }
  }
}
