/**
 * The order-confirmation screen: the per-line amounts of the incoming order, the flat
 * delivery fee, the time slots and payment choices, and the processing flag of the
 * confirm button.
 */
module OrderConfirmation {
  import opened Wrappers
  import PS = ProductSelection

  /** The confirmation screen's own product table (translation keys left out). */
  datatype Detail = Detail(unit: string, price: real)

  const ProductDetails: map<string, Detail> := map[
    "rice" := Detail("kg", 3.0),
    "wheat" := Detail("kg", 2.0),
    "sugar" := Detail("kg", 13.5),
    "oil" := Detail("litre", 25.0),
    "dhal" := Detail("kg", 60.0),
    "salt" := Detail("kg", 6.0)
  ]

  const DeliveryCharge: real := 10.0

  /** The two product tables name the same ids. */
  lemma DetailsNameCatalogue(id: string)
    ensures id in ProductDetails <==> PS.Find(id).Some?
  {
    if PS.Find(id).Some? {
      var k :| 0 <= k < |PS.Catalogue| && PS.Catalogue[k] == PS.Find(id).value;
    }
  }

  /** The confirmation screen charges the basket's price for every product. */
  lemma DetailsAgreeWithCatalogue(id: string)
    requires id in ProductDetails
    ensures PS.Find(id).Some? && PS.Find(id).value.pricePerUnit == ProductDetails[id].price
    ensures PS.Find(id).value.unit == ProductDetails[id].unit
  {
  }

  /** Every product of the product table agrees with the catalogue: same ids, same prices. */
  ghost predicate PricesAgree(details: map<string, Detail>, ps: seq<PS.Product>)
  {
    forall id :: (id in details <==> PS.FindIn(ps, id).Some?) &&
      (id in details ==> PS.FindIn(ps, id).value.pricePerUnit == details[id].price)
  }

  lemma DetailsAgree()
    ensures PricesAgree(ProductDetails, PS.Catalogue)
  {
    forall id: string
      ensures (id in ProductDetails <==> PS.FindIn(PS.Catalogue, id).Some?) &&
        (id in ProductDetails ==> PS.FindIn(PS.Catalogue, id).value.pricePerUnit == ProductDetails[id].price)
    {
      DetailsNameCatalogue(id);
      if id in ProductDetails {
        DetailsAgreeWithCatalogue(id);
      }
    }
  }

  /** One row of the order summary. */
  datatype Line = Line(id: string, quantity: real, amount: real)

  /** The row of a known item: its id and quantity, at quantity times the table price. */
  function Row(details: map<string, Detail>, item: PS.Entry): Line
    requires item.id in details
  {
    Line(item.id, item.quantity, item.quantity * details[item.id].price)
  }

  /**
   * The summary rows against a product table (the screen uses `ProductDetails`): one per item
   * whose id is in the table, in order, each priced at quantity times table price; items with
   * an unknown id produce no row.
   */
  function Lines(details: map<string, Detail>, items: seq<PS.Entry>): (r: seq<Line>)
    ensures |r| <= |items|
  {
    if items == [] then []
    else if items[0].id in details then
      [Row(details, items[0])]
        + Lines(details, items[1..])
    else Lines(details, items[1..])
  }

  /** When every id is known, row k is item k priced at the table price. */
  lemma {:induction false} LinesOfKnownItems(details: map<string, Detail>, items: seq<PS.Entry>)
    requires forall k :: 0 <= k < |items| ==> items[k].id in details
    ensures |Lines(details, items)| == |items|
    ensures forall k :: 0 <= k < |items| ==>
      Lines(details, items)[k] == Row(details, items[k])
  {
    if items != [] {
      LinesOfKnownItems(details, items[1..]);
      var r := Lines(details, items);
      assert r[1..] == Lines(details, items[1..]);
      forall k | 0 <= k < |items|
        ensures r[k] == Row(details, items[k])
      {
        if k > 0 {
          assert r[k] == Lines(details, items[1..])[k - 1] && items[k] == items[1..][k - 1];
        }
      }
    }
  }

  /** Items whose id is not in the table produce no row at all. */
  lemma {:induction false} LinesOfUnknownItems(details: map<string, Detail>, items: seq<PS.Entry>)
    requires forall k :: 0 <= k < |items| ==> items[k].id !in details
    ensures Lines(details, items) == []
  {
    if items != [] {
      assert items[0].id !in details;
      LinesOfUnknownItems(details, items[1..]);
    }
  }

  /** The items whose id is in the table, in order. */
  function KnownItems(details: map<string, Detail>, items: seq<PS.Entry>): (r: seq<PS.Entry>)
    ensures |r| <= |items|
    ensures forall k :: 0 <= k < |r| ==> r[k].id in details
  {
    if items == [] then []
    else (if items[0].id in details then [items[0]] else []) + KnownItems(details, items[1..])
  }

  /** The known items are exactly the items with an id in the table. */
  lemma {:induction false} KnownItemsMembers(details: map<string, Detail>, items: seq<PS.Entry>, e: PS.Entry)
    ensures e in KnownItems(details, items) <==> e in items && e.id in details
  {
    if items != [] {
      KnownItemsMembers(details, items[1..], e);
      assert items == [items[0]] + items[1..];
    }
  }

  /** Unknown ids drop out of the rows without changing them. */
  lemma {:induction false} LinesSkipUnknown(details: map<string, Detail>, items: seq<PS.Entry>)
    ensures Lines(details, items) == Lines(details, KnownItems(details, items))
  {
    if items != [] {
      var item, rest := items[0], items[1..];
      LinesSkipUnknown(details, rest);
      assert items == [item] + rest;
      if item.id in details {
        assert KnownItems(details, items) == [item] + KnownItems(details, rest);
        LinesOfKnownHead(details, item, rest);
        LinesOfKnownHead(details, item, KnownItems(details, rest));
      } else {
        assert KnownItems(details, items) == KnownItems(details, rest);
        LinesCons(details, items);
      }
    }
  }

  lemma LinesOfKnownHead(details: map<string, Detail>, item: PS.Entry, rest: seq<PS.Entry>)
    requires item.id in details
    ensures Lines(details, [item] + rest) == [Row(details, item)] + Lines(details, rest)
  {
    var x := [item] + rest;
    assert x[0] == item && x[1..] == rest;
    LinesCons(details, x);
  }

  /**
   * For any order: one row per item whose id is in the table, in order, row k being the k-th
   * such item at quantity times its table price.
   */
  lemma RowsOfOrder(details: map<string, Detail>, items: seq<PS.Entry>)
    ensures var known := KnownItems(details, items);
      |Lines(details, items)| == |known| &&
      forall k :: 0 <= k < |known| ==>
        Lines(details, items)[k] == Row(details, known[k])
  {
    var known := KnownItems(details, items);
    LinesSkipUnknown(details, items);
    assert Lines(details, items) == Lines(details, known);
    LinesOfKnownItems(details, known);
  }

  lemma LinesCons(details: map<string, Detail>, items: seq<PS.Entry>)
    requires items != []
    ensures Lines(details, items) ==
      if items[0].id in details then
        [Row(details, items[0])]
          + Lines(details, items[1..])
      else Lines(details, items[1..])
  {
  }

  function LinesSum(lines: seq<Line>): real
  {
    if lines == [] then 0.0 else lines[0].amount + LinesSum(lines[1..])
  }

  /** The basket's amount for an item is its row amount here, or nothing for an unknown id. */
  lemma BasketPricesItem(details: map<string, Detail>, ps: seq<PS.Product>, item: PS.Entry)
    requires PricesAgree(details, ps)
    ensures PS.Amount(ps, item) ==
      if item.id in details then item.quantity * details[item.id].price else 0.0
  {
    if item.id in details {
      var price := details[item.id].price;
      PS.AmountOfKnown(ps, item, PS.FindIn(ps, item.id).value);
      assert price * item.quantity == item.quantity * price;
    }
  }

  /**
   * The rows shown on this screen add up to the basket's total for the same items, whenever
   * the two tables agree: both price every product alike and both skip unknown ids.
   */
  lemma {:induction false} LinesAddUpToBasketTotal(details: map<string, Detail>, ps: seq<PS.Product>, items: seq<PS.Entry>)
    requires PricesAgree(details, ps)
    ensures LinesSum(Lines(details, items)) == PS.Total(ps, items)
  {
    if items != [] {
      var item, rest := items[0], items[1..];
      var amount := if item.id in details then item.quantity * details[item.id].price else 0.0;
      assert LinesSum(Lines(details, items)) == amount + LinesSum(Lines(details, rest)) by {
        LinesCons(details, items);
        if item.id in details {
          LinesSumCons(Row(details, item), Lines(details, rest));
        }
      }
      assert PS.Total(ps, items) == PS.Amount(ps, item) + PS.Total(ps, rest);
      BasketPricesItem(details, ps, item);
      LinesAddUpToBasketTotal(details, ps, rest);
    }
  }

  lemma LinesSumCons(line: Line, lines: seq<Line>)
    ensures LinesSum([line] + lines) == line.amount + LinesSum(lines)
  {
    assert ([line] + lines)[1..] == lines;
  }

  /** The amount to pay: the incoming total and the flat delivery fee of ten rupees. */
  function FinalAmount(totalAmount: real): (r: real)
    ensures r - DeliveryCharge == totalAmount
    ensures r > totalAmount
  {
    totalAmount + DeliveryCharge
  }

  /** For an order forwarded by the basket, the amount due is its rows plus ten rupees. */
  lemma FinalAmountOfOrder(items: seq<PS.Entry>)
    ensures FinalAmount(PS.Total(PS.Catalogue, items)) == LinesSum(Lines(ProductDetails, items)) + 10.0
    ensures PS.NonNegative(items) ==> FinalAmount(PS.Total(PS.Catalogue, items)) >= 10.0
  {
    DetailsAgree();
    LinesAddUpToBasketTotal(ProductDetails, PS.Catalogue, items);
    if PS.NonNegative(items) {
      PS.CataloguePricesNonNegative();
      PS.TotalNonNegative(PS.Catalogue, items);
    }
  }

  datatype Slot = Morning | Afternoon | Evening
  datatype SlotInfo = SlotInfo(slot: Slot, hours: string, available: bool)

  const TimeSlots: seq<SlotInfo> := [
    SlotInfo(Morning, "9:00 AM - 12:00 PM", true),
    SlotInfo(Afternoon, "2:00 PM - 5:00 PM", true),
    SlotInfo(Evening, "6:00 PM - 8:00 PM", false)
  ]

  /** Whether a slot's radio item is enabled, read off the slot table. */
  predicate SlotAvailable(s: Slot)
  {
    exists k :: 0 <= k < |TimeSlots| && TimeSlots[k].slot == s && TimeSlots[k].available
  }

  /** Only the morning and afternoon slots can be chosen. */
  lemma OnlyDaySlots(s: Slot)
    ensures SlotAvailable(s) <==> s != Evening
  {
    if s != Evening {
      assert TimeSlots[if s == Morning then 0 else 1].slot == s;
    }
  }

  datatype Payment = Upi | Card | Cash

  class ConfirmationForm {
    var paymentMethod: Payment
    var deliverySlot: Slot
    var processing: bool

    /** The chosen slot is always one whose radio item is enabled. */
    ghost predicate Valid()
      reads this
    {
      SlotAvailable(deliverySlot)
    }

    /** The screen opens on UPI and the afternoon slot, not processing. */
    constructor ()
      ensures Valid()
      ensures paymentMethod == Upi && deliverySlot == Afternoon && !processing
    {
      paymentMethod := Upi;
      deliverySlot := Afternoon;
      processing := false;
      new;
      OnlyDaySlots(Afternoon);
    }

    method SelectPayment(m: Payment)
      requires Valid()
      modifies this
      ensures Valid()
      ensures paymentMethod == m
      ensures deliverySlot == old(deliverySlot) && processing == old(processing)
    {
      paymentMethod := m;
    }

    /** A click on a slot; the disabled evening item does not react. */
    method SelectSlot(s: Slot)
      requires Valid()
      modifies this
      ensures Valid()
      ensures deliverySlot == if s != Evening then s else old(deliverySlot)
      ensures paymentMethod == old(paymentMethod) && processing == old(processing)
    {
      OnlyDaySlots(s);
      if SlotAvailable(s) {
        deliverySlot := s;
      }
    }

    /** The confirm button is disabled while processing. */
    predicate ConfirmEnabled()
      reads this
    {
      !processing
    }

    /** A press on the confirm button: starts processing unless it is already under way. */
    method PressConfirm() returns (started: bool)
      requires Valid()
      modifies this
      ensures Valid()
      ensures started == !old(processing)
      ensures processing
      ensures paymentMethod == old(paymentMethod) && deliverySlot == old(deliverySlot)
    {
      started := ConfirmEnabled();
      if started {
        processing := true;
      }
    }

    /**
     * The two-second timer started by a press: the parent's confirm callback fires (see
     * ScreenFlow) and processing is cleared.
     */
    method ConfirmTimerFires()
      requires Valid()
      requires processing
      modifies this
      ensures Valid()
      ensures !processing
      ensures paymentMethod == old(paymentMethod) && deliverySlot == old(deliverySlot)
    {
      processing := false;
    }
  }
}
