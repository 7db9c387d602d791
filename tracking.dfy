/**
 * The tracking screen: the delivery-progress counter and its three-second tick, the four
 * order steps and their status rules, the overall progress, and the fixed figures of the
 * order-details card and the downloadable receipt.
 */
module Tracking {
  import PS = ProductSelection

  const StartStep: int := 2
  const StartProgress: int := 75
  const ProgressCeiling: int := 95

  function Min(a: int, b: int): int
  {
    if a <= b then a else b
  }

  /** The progress after one tick: two more, but never past 95; at 100 or more it stays 100. */
  function NextProgress(p: int): (r: int)
    ensures p < 100 ==> r <= ProgressCeiling
    ensures p <= ProgressCeiling ==> p <= r
    ensures p < 100 ==> r <= p + 2
  {
    if p >= 100 then 100 else Min(p + 2, ProgressCeiling)
  }

  /** The progress after n ticks from p. */
  function ProgressAfter(p: int, n: nat): int
  {
    if n == 0 then p else NextProgress(ProgressAfter(p, n - 1))
  }

  /** From 75, the counter rises by two a tick until it rests at 95. */
  lemma {:induction false} ProgressFromStart(n: nat)
    ensures ProgressAfter(StartProgress, n) == Min(StartProgress + 2 * n, ProgressCeiling)
  {
    if n > 0 {
      ProgressFromStart(n - 1);
    }
  }

  /**
   * The counter never decreases and never reaches 100, so the branch that marks the last
   * step as current never runs.
   */
  lemma NeverComplete(n: nat)
    ensures StartProgress <= ProgressAfter(StartProgress, n) <= ProgressCeiling < 100
    ensures ProgressAfter(StartProgress, n) <= ProgressAfter(StartProgress, n + 1)
  {
    ProgressFromStart(n);
    ProgressFromStart(n + 1);
  }

  class Tracker {
    var currentStep: int
    var deliveryProgress: int

    /** The state every tick keeps: step 2, progress between 75 and 95. */
    ghost predicate Valid()
      reads this
    {
      currentStep == StartStep && StartProgress <= deliveryProgress <= ProgressCeiling
    }

    constructor ()
      ensures Valid()
      ensures currentStep == StartStep && deliveryProgress == StartProgress
    {
      currentStep := StartStep;
      deliveryProgress := StartProgress;
    }

    /** One firing of the three-second interval. */
    method Tick()
      modifies this
      ensures deliveryProgress == NextProgress(old(deliveryProgress))
      ensures currentStep == if old(deliveryProgress) >= 100 then 3 else old(currentStep)
      ensures old(Valid()) ==> Valid() && old(deliveryProgress) <= deliveryProgress
    {
      if deliveryProgress >= 100 {
        currentStep := 3;
        deliveryProgress := 100;
      } else {
        deliveryProgress := Min(deliveryProgress + 2, ProgressCeiling);
      }
    }
  }

  datatype OrderStep = OrderStep(id: string, completed: bool)

  const OrderSteps: seq<OrderStep> := [
    OrderStep("confirmed", true),
    OrderStep("prepared", true),
    OrderStep("dispatched", true),
    OrderStep("delivered", false)
  ]

  /** The overall bar: the share of steps up to and including the current one, in percent. */
  function OverallProgress(currentStep: int): (r: real)
    ensures 0 <= currentStep < |OrderSteps| ==> 25.0 <= r <= 100.0
    ensures r == 100.0 <==> currentStep == |OrderSteps| - 1
  {
    ((currentStep + 1) as real / |OrderSteps| as real) * 100.0
  }

  lemma OverallProgressOnScreen()
    ensures OverallProgress(StartStep) == 75.0
  {
  }

  predicate IsActive(index: int, currentStep: int)
  {
    index == currentStep
  }

  predicate IsCompleted(index: int, currentStep: int)
    requires 0 <= index < |OrderSteps|
  {
    index < currentStep || OrderSteps[index].completed
  }

  /** For any step on the list, exactly one step is highlighted as active. */
  lemma ExactlyOneActive(currentStep: int)
    requires 0 <= currentStep < |OrderSteps|
    ensures (set i | 0 <= i < |OrderSteps| && IsActive(i, currentStep)) == {currentStep}
  {
  }

  /** With step 2 current, the first three steps show as completed and the last does not. */
  lemma CompletedOnScreen(index: int)
    requires 0 <= index < |OrderSteps|
    ensures IsCompleted(index, StartStep) <==> index < 3
  {
  }

  /** The en-route bar shows under the active step when that step is the dispatch. */
  predicate EnRouteShown(index: int, currentStep: int)
    requires 0 <= index < |OrderSteps|
  {
    IsActive(index, currentStep) && OrderSteps[index].id == "dispatched"
  }

  lemma EnRouteOnlyWhenDispatched(currentStep: int)
    ensures (exists i :: 0 <= i < |OrderSteps| && EnRouteShown(i, currentStep)) <==> currentStep == 2
  {
    if currentStep == 2 {
      assert EnRouteShown(2, currentStep);
    }
  }

  // ---------------------------------------------------------------------------------------
  // Fixed figures

  datatype Charge = Charge(item: string, rupees: int)

  function SumCharges(cs: seq<Charge>): int
  {
    if cs == [] then 0 else cs[0].rupees + SumCharges(cs[1..])
  }

  const ReceiptItems: seq<Charge> := [
    Charge("Rice (2kg)", 50),
    Charge("Wheat (2kg)", 60),
    Charge("Dhal (1kg)", 80),
    Charge("Palm Oil (1L)", 120),
    Charge("Sugar (1kg)", 45)
  ]
  const ReceiptSubtotal: int := 355
  const ReceiptDelivery: int := 10
  const ReceiptTotal: int := 365

  /** The receipt's items add up to its subtotal, and subtotal plus delivery to its total. */
  lemma ReceiptAddsUp()
    ensures SumCharges(ReceiptItems) == ReceiptSubtotal
    ensures ReceiptSubtotal + ReceiptDelivery == ReceiptTotal
  {
  }

  /** The order-details card: rice 5 kg, oil 1 L and dhal 1 kg, and the total paid. */
  const OrderDetails: seq<PS.Entry> := [PS.Entry("rice", 5.0), PS.Entry("oil", 1.0), PS.Entry("dhal", 1.0)]
  const OrderDetailAmounts: seq<real> := [15.0, 25.0, 60.0]
  const TotalPaid: real := 100.0

  /**
   * Each line of the order-details card is its quantity at the catalogue price, and the lines
   * add up to the total paid (which leaves out the delivery charge).
   */
  lemma OrderDetailsAtCataloguePrices()
    ensures forall k :: 0 <= k < |OrderDetails| ==>
      PS.Amount(PS.Catalogue, OrderDetails[k]) == OrderDetailAmounts[k]
    ensures PS.Total(PS.Catalogue, OrderDetails) == TotalPaid
  {
  }

  /** The receipt's figures, unlike the card's, are not catalogue prices: 2 kg of rice is 6 rupees. */
  lemma ReceiptNotAtCataloguePrices()
    ensures PS.Amount(PS.Catalogue, PS.Entry("rice", 2.0)) == 6.0
    ensures ReceiptItems[0].rupees == 50
  {
  }
}
