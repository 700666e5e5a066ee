/**
 * The checkout page: a four-step wizard (1 delivery, 2 order review, 3 payment,
 * 4 confirmation) holding the delivery and payment records its steps hand up,
 * and the order completion that assigns an order id and drops the saved cart.
 */
module Checkout {
  import opened Wrappers
  import OrderIds
  import DeliveryInfo
  import PaymentForm

  /** The saved-cart key the completion removes. */
  const CART_KEY: string := "foodyzone_cart"

  /** `orderDetails`; an absent record stands for the initial `{}`. */
  datatype OrderDetails = OrderDetails(
    deliveryInfo: Option<DeliveryInfo.DeliveryRecord>, paymentInfo: Option<PaymentForm.PaymentInfo>, orderNotes: string)

  datatype CheckoutState = CheckoutState(
    currentStep: int, orderDetails: OrderDetails, orderCompleted: bool, orderId: Option<string>,
    storage: map<string, string>)

  /** The page's first render, over whatever is stored. */
  function Initial(storage: map<string, string>): CheckoutState {
    CheckoutState(1, OrderDetails(None, None, ""), false, None, storage)
  }

  /** `completeOrder(now)`: id from the clock, completed, step 4, saved cart removed. */
  function Complete(s: CheckoutState, now: nat): CheckoutState {
    s.(orderId := Some(OrderIds.OrderId(now)), orderCompleted := true, currentStep := 4,
       storage := s.storage - {CART_KEY})
  }

  /** `handleNextStep`: one step on below 4, the completion at 4. */
  function NextStep(s: CheckoutState, now: nat): CheckoutState {
    if s.currentStep < 4 then s.(currentStep := s.currentStep + 1) else Complete(s, now)
  }

  /** `handlePreviousStep`: one step back above 1. */
  function PreviousStep(s: CheckoutState): CheckoutState {
    if s.currentStep > 1 then s.(currentStep := s.currentStep - 1) else s
  }

  predicate InRange(s: CheckoutState) {
    1 <= s.currentStep <= 4
  }

  // ------------------------------------------------------- the step machine

  /** Steps stay in [1, 4] and move by exactly one, except that the completion lands on 4. */
  lemma StepRules(s: CheckoutState, now: nat)
    requires InRange(s)
    ensures InRange(NextStep(s, now)) && InRange(PreviousStep(s))
    ensures s.currentStep < 4 ==> NextStep(s, now) == s.(currentStep := s.currentStep + 1)
    ensures s.currentStep == 4 ==> NextStep(s, now) == Complete(s, now)
    ensures s.currentStep > 1 ==> PreviousStep(s).currentStep == s.currentStep - 1
    ensures s.currentStep == 1 ==> PreviousStep(s) == s
    ensures NextStep(s, now).orderDetails == s.orderDetails && PreviousStep(s).orderDetails == s.orderDetails
  {
  }

  /**
   * The completion's effects: completed, step 4, an id "ORD" + digits (eleven
   * characters for any current clock reading), the cart key gone, the other keys
   * and the order details kept.
   */
  lemma CompleteEffect(s: CheckoutState, now: nat)
    ensures var r := Complete(s, now);
      r.currentStep == 4 && r.orderCompleted && r.orderId.Some? && r.orderId.value[..3] == "ORD" &&
      (now >= 10000000 ==> |r.orderId.value| == 11) && CART_KEY !in r.storage &&
      (forall k :: k in s.storage && k != CART_KEY ==> k in r.storage && r.storage[k] == s.storage[k]) &&
      r.orderDetails == s.orderDetails
  {
    if now >= 10000000 {
      OrderIds.OrderIdShape(now);
    }
  }

  /** The controls the page renders, by the step whose content holds them. */
  datatype Control =
    | DeliveryContinue      // step 1: the delivery form's submit calls `onNext`
    | ReviewEditDelivery    // step 2: the review's edit button calls `onEditDelivery`
    | ReviewBack            // step 2: `onBack`
    | ReviewContinue        // step 2: `onNext`
    | PaymentBack           // step 3: `onBack`
    | PaymentPay            // step 3: the pay button's submit calls `onNext`

  predicate Rendered(step: int, c: Control) {
    match c
    case DeliveryContinue => step == 1
    case ReviewEditDelivery | ReviewBack | ReviewContinue => step == 2
    case PaymentBack | PaymentPay => step == 3
  }

  /** Pressing a control, as wired. */
  function Press(s: CheckoutState, c: Control, now: nat): CheckoutState {
    match c
    case DeliveryContinue | ReviewContinue | PaymentPay => NextStep(s, now)
    case ReviewBack | PaymentBack => PreviousStep(s)
    case ReviewEditDelivery => s.(currentStep := 1)
  }

  /** A session: each press at its clock reading; a control that is not rendered cannot be pressed. */
  function Run(s: CheckoutState, presses: seq<(Control, nat)>): CheckoutState
    decreases |presses|
  {
    if presses == [] then s
    else if Rendered(s.currentStep, presses[0].0) then Run(Press(s, presses[0].0, presses[0].1), presses[1..])
    else Run(s, presses[1..])
  }

  /**
   * No session completes the order: every control that calls `onNext` sits on a
   * step below 4, and the confirmation step renders none, so the order is never
   * marked completed, never gets an id, and the saved cart is never removed.
   */
  lemma {:induction false} NeverCompletes(s: CheckoutState, presses: seq<(Control, nat)>)
    requires InRange(s) && !s.orderCompleted && s.orderId.None?
    ensures var r := Run(s, presses);
      InRange(r) && !r.orderCompleted && r.orderId.None? && r.storage == s.storage
    decreases |presses|
  {
    if presses != [] {
      var c := presses[0].0;
      if Rendered(s.currentStep, c) {
        NeverCompletes(Press(s, c, presses[0].1), presses[1..]);
      } else {
        NeverCompletes(s, presses[1..]);
      }
    }
  }

  /** Continue, continue, pay: the confirmation step shows, with no order id and the cart still saved. */
  lemma ConfirmationWithoutOrder(storage: map<string, string>, t1: nat, t2: nat, t3: nat)
    ensures var r := Run(Initial(storage), [(DeliveryContinue, t1), (ReviewContinue, t2), (PaymentPay, t3)]);
      r.currentStep == 4 && !r.orderCompleted && r.orderId.None? && r.storage == storage
  {
    var presses := [(DeliveryContinue, t1), (ReviewContinue, t2), (PaymentPay, t3)];
    var s0 := Initial(storage);
    var s1 := Press(s0, DeliveryContinue, t1);
    var s2 := Press(s1, ReviewContinue, t2);
    var s3 := Press(s2, PaymentPay, t3);
    assert Run(s0, presses) == Run(s1, presses[1..]);
    assert Run(s1, presses[1..]) == Run(s2, presses[2..]);
    assert Run(s2, presses[2..]) == Run(s3, presses[3..]);
  }

  /** The intended wiring: paying (`onNext` on the payment step) completes the order. */
  function NextStepIntended(s: CheckoutState, now: nat): CheckoutState {
    if s.currentStep < 3 then s.(currentStep := s.currentStep + 1) else Complete(s, now)
  }

  function PressIntended(s: CheckoutState, c: Control, now: nat): CheckoutState {
    match c
    case DeliveryContinue | ReviewContinue | PaymentPay => NextStepIntended(s, now)
    case ReviewBack | PaymentBack => PreviousStep(s)
    case ReviewEditDelivery => s.(currentStep := 1)
  }

  function RunIntended(s: CheckoutState, presses: seq<(Control, nat)>): CheckoutState
    decreases |presses|
  {
    if presses == [] then s
    else if Rendered(s.currentStep, presses[0].0) then RunIntended(PressIntended(s, presses[0].0, presses[0].1), presses[1..])
    else RunIntended(s, presses[1..])
  }

  /** The confirmation step is showing exactly when the order is completed, with an id and the saved cart gone. */
  predicate Confirmed(s: CheckoutState) {
    s.currentStep == 4 <==> s.orderCompleted && s.orderId.Some? && CART_KEY !in s.storage
  }

  /** With the intended wiring, every session keeps the steps in range and `Confirmed`. */
  lemma {:induction false} IntendedConfirms(s: CheckoutState, presses: seq<(Control, nat)>)
    requires InRange(s) && Confirmed(s) && (s.currentStep < 4 ==> !s.orderCompleted)
    ensures var r := RunIntended(s, presses);
      InRange(r) && Confirmed(r) && (r.currentStep < 4 ==> !r.orderCompleted)
    decreases |presses|
  {
    if presses != [] {
      var c := presses[0].0;
      if Rendered(s.currentStep, c) {
        IntendedConfirms(PressIntended(s, c, presses[0].1), presses[1..]);
      } else {
        IntendedConfirms(s, presses[1..]);
      }
    }
  }

  /** With the intended wiring, continue, continue, pay completes the order at the given time. */
  lemma IntendedCompletes(storage: map<string, string>, t1: nat, t2: nat, t3: nat)
    ensures var r := RunIntended(Initial(storage), [(DeliveryContinue, t1), (ReviewContinue, t2), (PaymentPay, t3)]);
      r.currentStep == 4 && r.orderCompleted && r.orderId == Some(OrderIds.OrderId(t3)) && CART_KEY !in r.storage
  {
    var presses := [(DeliveryContinue, t1), (ReviewContinue, t2), (PaymentPay, t3)];
    var s0 := Initial(storage);
    var s1 := PressIntended(s0, DeliveryContinue, t1);
    var s2 := PressIntended(s1, ReviewContinue, t2);
    var s3 := PressIntended(s2, PaymentPay, t3);
    assert RunIntended(s0, presses) == RunIntended(s1, presses[1..]);
    assert RunIntended(s1, presses[1..]) == RunIntended(s2, presses[2..]);
    assert RunIntended(s2, presses[2..]) == RunIntended(s3, presses[3..]);
  }

  // ------------------------------------------------------------------ state

  class CheckoutPage {
    var currentStep: int
    var orderDetails: OrderDetails
    var orderCompleted: bool
    var orderId: Option<string>
    /** The browser's key-value storage, as far as this page touches it. */
    var storage: map<string, string>

    function View(): CheckoutState
      reads this
    {
      CheckoutState(currentStep, orderDetails, orderCompleted, orderId, storage)
    }

    ghost predicate Valid()
      reads this
    {
      InRange(View())
    }

    constructor (storage: map<string, string>)
      ensures View() == Initial(storage) && Valid()
    {
      currentStep := 1;
      orderDetails := OrderDetails(None, None, "");
      orderCompleted, orderId := false, None;
      this.storage := storage;
    }

    method HandleNextStep(now: nat)
      requires Valid()
      modifies this
      ensures View() == NextStep(old(View()), now) && Valid()
    {
      if currentStep < 4 {
        currentStep := currentStep + 1;
      } else {
        CompleteOrder(now);
      }
    }

    method HandlePreviousStep()
      requires Valid()
      modifies this
      ensures View() == PreviousStep(old(View())) && Valid()
    {
      if currentStep > 1 {
        currentStep := currentStep - 1;
      }
    }

    /** The review step's `onEditDelivery`: straight to step 1. */
    method EditDelivery()
      requires Valid()
      modifies this
      ensures View() == old(View()).(currentStep := 1) && Valid()
    {
      currentStep := 1;
    }

    method HandleDeliveryInfoUpdate(info: DeliveryInfo.DeliveryRecord)
      requires Valid()
      modifies this
      ensures View() == old(View()).(orderDetails := old(orderDetails).(deliveryInfo := Some(info))) && Valid()
    {
      orderDetails := orderDetails.(deliveryInfo := Some(info));
    }

    method HandlePaymentInfoUpdate(info: PaymentForm.PaymentInfo)
      requires Valid()
      modifies this
      ensures View() == old(View()).(orderDetails := old(orderDetails).(paymentInfo := Some(info))) && Valid()
    {
      orderDetails := orderDetails.(paymentInfo := Some(info));
    }

    method CompleteOrder(now: nat)
      modifies this
      ensures View() == Complete(old(View()), now) && Valid()
    {
      var newOrderId := OrderIds.OrderId(now);
      orderId := Some(newOrderId);
      orderCompleted := true;
      currentStep := 4;
      storage := storage - {CART_KEY};
    }
  }
}
