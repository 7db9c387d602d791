/**
 * The ration basket: the commodity catalogue, the per-family default (which is also the
 * cap), the initial selection, clamped quantity updates, the order summary and its total.
 *
 * Quantities, prices and amounts are exact reals: the catalogue has half-kilogram steps
 * and a price of 13.5, and reals keep every sum exact.
 */
module ProductSelection {
  import opened Wrappers

  /** One catalogue entry; the translation keys, descriptions and icons are presentation only. */
  datatype Product = Product(
    id: string,
    unit: string,
    allotment: real,
    consumed: real,
    defaultQuantity: real,
    pricePerUnit: real,
    available: bool)

  const Catalogue: seq<Product> := [
    Product("rice", "kg", 20.0, 12.0, 2.0, 3.0, true),
    Product("wheat", "kg", 5.0, 2.0, 2.0, 2.0, true),
    Product("sugar", "kg", 2.0, 0.5, 1.0, 13.5, true),
    Product("oil", "litre", 2.0, 1.0, 1.0, 25.0, true),
    Product("dhal", "kg", 3.0, 1.5, 1.0, 60.0, true),
    Product("salt", "kg", 1.0, 0.2, 1.0, 6.0, false)
  ]

  /** The first product of `ps` with the given id, as `Array.prototype.find` returns it. */
  function FindIn(ps: seq<Product>, id: string): (r: Option<Product>)
    ensures r.Some? ==> r.value in ps && r.value.id == id
    ensures r.None? <==> forall k :: 0 <= k < |ps| ==> ps[k].id != id
  {
    if ps == [] then None
    else if ps[0].id == id then Some(ps[0])
    else FindIn(ps[1..], id)
  }

  function Find(id: string): Option<Product>
  {
    FindIn(Catalogue, id)
  }

  /** The six catalogue ids are distinct, so a lookup by id names exactly one product. */
  lemma CatalogueIdsDistinct()
    ensures forall i, j :: 0 <= i < j < |Catalogue| ==> Catalogue[i].id != Catalogue[j].id
  {
  }

  /** Searching a prefix extended by one product. */
  lemma FindInSnoc(ps: seq<Product>, p: Product, id: string)
    ensures FindIn(ps + [p], id) ==
      if FindIn(ps, id).Some? then FindIn(ps, id)
      else if p.id == id then Some(p)
      else None
  {
    if ps != [] {
      assert (ps + [p])[1..] == ps[1..] + [p];
      FindInSnoc(ps[1..], p, id);
    }
  }

  /** Rice and wheat are the family-size dependent staples. */
  predicate IsStaple(id: string)
  {
    id == "rice" || id == "wheat"
  }

  /**
   * The default quantity of a product for a family, which is also the most that may be
   * ordered: for the staples, half a kilogram less than the family size for families of
   * two to five; the catalogue's own default for every other case.
   */
  function DefaultQuantity(familySize: int, p: Product): (q: real)
    ensures IsStaple(p.id) && 2 <= familySize <= 5 ==> q == familySize as real - 0.5
    ensures !IsStaple(p.id) || familySize < 2 || 5 < familySize ==> q == p.defaultQuantity
  {
    if IsStaple(p.id) then
      match familySize
      case 2 => 1.5
      case 3 => 2.5
      case 4 => 3.5
      case 5 => 4.5
      case _ => p.defaultQuantity
    else p.defaultQuantity
  }

  /** Every default is positive, so the cap admits at least one half-unit step. */
  lemma DefaultPositive(familySize: int, id: string)
    requires Find(id).Some?
    ensures DefaultQuantity(familySize, Find(id).value) > 0.0
  {
  }

  /** `Math.max(0, Math.min(quantity, cap))`. */
  function Clamp(quantity: real, cap: real): (r: real)
    ensures cap >= 0.0 ==> 0.0 <= r <= cap
    ensures 0.0 <= quantity <= cap ==> r == quantity
    ensures quantity > cap && cap >= 0.0 ==> r == cap
    ensures quantity < 0.0 ==> r == 0.0
  {
    var low := if quantity < cap then quantity else cap;
    if 0.0 < low then low else 0.0
  }

  // ---------------------------------------------------------------------------
  // The selected-quantities record, kept in insertion order like a JavaScript object.
  // ---------------------------------------------------------------------------

  datatype Entry = Entry(id: string, quantity: real)

  /** The value stored under `id`, if any. */
  function Lookup(entries: seq<Entry>, id: string): (r: Option<real>)
    ensures r.None? <==> forall k :: 0 <= k < |entries| ==> entries[k].id != id
  {
    if entries == [] then None
    else if entries[0].id == id then Some(entries[0].quantity)
    else Lookup(entries[1..], id)
  }

  function Ids(entries: seq<Entry>): (r: seq<string>)
    ensures |r| == |entries|
    ensures forall k :: 0 <= k < |entries| ==> r[k] == entries[k].id
  {
    if entries == [] then [] else [entries[0].id] + Ids(entries[1..])
  }

  ghost predicate UniqueIds(entries: seq<Entry>)
  {
    forall i, j :: 0 <= i < j < |entries| ==> entries[i].id != entries[j].id
  }

  /**
   * `record[id] = q`: an existing key keeps its position and takes the new value, a new
   * key goes to the end, and every other key keeps its value.
   */
  function Put(entries: seq<Entry>, id: string, q: real): (r: seq<Entry>)
    ensures Lookup(entries, id).None? ==> r == entries + [Entry(id, q)]
    ensures Lookup(entries, id).Some? ==> Ids(r) == Ids(entries)
    ensures forall x :: Lookup(r, x) == if x == id then Some(q) else Lookup(entries, x)
  {
    if entries == [] then [Entry(id, q)]
    else if entries[0].id == id then [Entry(id, q)] + entries[1..]
    else [entries[0]] + Put(entries[1..], id, q)
  }

  /** Writing a key keeps the keys distinct. */
  lemma PutKeepsUnique(entries: seq<Entry>, id: string, q: real)
    requires UniqueIds(entries)
    ensures UniqueIds(Put(entries, id, q))
  {
    var r := Put(entries, id, q);
    if Lookup(entries, id).Some? {
      assert Ids(r) == Ids(entries);
      forall i, j | 0 <= i < j < |r| ensures r[i].id != r[j].id {
        assert r[i].id == Ids(r)[i] && r[j].id == Ids(r)[j];
      }
    }
  }

  /** The products present in the initial selection, in catalogue order. */
  function AvailableIds(ps: seq<Product>): (r: seq<string>)
    ensures |r| <= |ps|
  {
    if ps == [] then []
    else (if ps[0].available then [ps[0].id] else []) + AvailableIds(ps[1..])
  }

  lemma AvailableIdsSnoc(ps: seq<Product>, p: Product)
    ensures AvailableIds(ps + [p]) == AvailableIds(ps) + (if p.available then [p.id] else [])
  {
    if ps != [] {
      assert (ps + [p])[1..] == ps[1..] + [p];
      AvailableIdsSnoc(ps[1..], p);
    }
  }

  /** What the initial selection holds under `id`, read off a list of products. */
  function InitialValue(familySize: int, ps: seq<Product>, id: string): Option<real>
  {
    match FindIn(ps, id)
    case Some(p) => if p.available then Some(DefaultQuantity(familySize, p)) else None
    case None => None
  }

  /** The state of the initial `forEach` after it has visited the products `ps`. */
  ghost predicate Initialised(familySize: int, ps: seq<Product>, entries: seq<Entry>)
  {
    && (forall id :: Lookup(entries, id) == InitialValue(familySize, ps, id))
    && Ids(entries) == AvailableIds(ps)
    && UniqueIds(entries)
  }

  /** One iteration of the initial `forEach`. */
  function Visit(familySize: int, entries: seq<Entry>, p: Product): seq<Entry>
  {
    if p.available then Put(entries, p.id, DefaultQuantity(familySize, p)) else entries
  }

  /** Visiting a product whose id was not seen before extends the initial state by it. */
  lemma VisitStep(familySize: int, ps: seq<Product>, p: Product, entries: seq<Entry>)
    requires Initialised(familySize, ps, entries)
    requires FindIn(ps, p.id).None?
    ensures Initialised(familySize, ps + [p], Visit(familySize, entries, p))
  {
    VisitLookup(familySize, ps, p, entries);
    VisitIds(familySize, ps, p, entries);
    if p.available {
      PutKeepsUnique(entries, p.id, DefaultQuantity(familySize, p));
    }
  }

  lemma VisitLookup(familySize: int, ps: seq<Product>, p: Product, entries: seq<Entry>)
    requires forall id :: Lookup(entries, id) == InitialValue(familySize, ps, id)
    requires FindIn(ps, p.id).None?
    ensures forall id :: Lookup(Visit(familySize, entries, p), id) == InitialValue(familySize, ps + [p], id)
  {
    forall id ensures Lookup(Visit(familySize, entries, p), id) == InitialValue(familySize, ps + [p], id) {
      FindInSnoc(ps, p, id);
    }
  }

  lemma VisitIds(familySize: int, ps: seq<Product>, p: Product, entries: seq<Entry>)
    requires Ids(entries) == AvailableIds(ps)
    requires Lookup(entries, p.id).None?
    ensures Ids(Visit(familySize, entries, p)) == AvailableIds(ps + [p])
  {
    AvailableIdsSnoc(ps, p);
    if p.available {
      IdsSnoc(entries, Entry(p.id, DefaultQuantity(familySize, p)));
    }
  }

  lemma IdsSnoc(entries: seq<Entry>, e: Entry)
    ensures Ids(entries + [e]) == Ids(entries) + [e.id]
  {
    var l, r := Ids(entries + [e]), Ids(entries) + [e.id];
    assert |l| == |r|;
    forall k | 0 <= k < |l| ensures l[k] == r[k] {
      assert (entries + [e])[k] == if k < |entries| then entries[k] else e;
    }
  }

  /**
   * One turn of the `forEach` over a product list with distinct ids: the state after the
   * first i products becomes the state after the first i + 1.
   */
  lemma PrefixStep(familySize: int, ps: seq<Product>, i: nat, entries: seq<Entry>)
    requires i < |ps|
    requires forall a, b :: 0 <= a < b < |ps| ==> ps[a].id != ps[b].id
    requires Initialised(familySize, ps[..i], entries)
    ensures Initialised(familySize, ps[..i + 1], Visit(familySize, entries, ps[i]))
  {
    assert ps[..i + 1] == ps[..i] + [ps[i]];
    forall k | 0 <= k < i
      ensures ps[..i][k].id != ps[i].id
    {
      assert ps[..i][k] == ps[k];
    }
    VisitStep(familySize, ps[..i], ps[i], entries);
  }

  /**
   * The lazy initial state of the selection: one pass over the catalogue that records every
   * available product at its default quantity.
   */
  method InitialQuantities(familySize: int) returns (entries: seq<Entry>)
    ensures forall id :: Lookup(entries, id) == InitialValue(familySize, Catalogue, id)
    ensures Ids(entries) == AvailableIds(Catalogue)
    ensures UniqueIds(entries)
  {
    CatalogueIdsDistinct();
    entries := [];
    var i := 0;
    while i < |Catalogue|
      invariant 0 <= i <= |Catalogue|
      invariant Initialised(familySize, Catalogue[..i], entries)
    {
      var product := Catalogue[i];
      PrefixStep(familySize, Catalogue, i, entries);
      if product.available {
        entries := Put(entries, product.id, DefaultQuantity(familySize, product));
      }
      i := i + 1;
    }
    assert Catalogue[..i] == Catalogue;
  }

  /** The initial selection holds the five available products, in catalogue order. */
  lemma InitialHoldsAvailable()
    ensures AvailableIds(Catalogue) == ["rice", "wheat", "sugar", "oil", "dhal"]
  {
  }

  /** Salt is out of stock, so it is absent from the initial selection. */
  lemma InitialLeavesOutSalt(familySize: int)
    ensures InitialValue(familySize, Catalogue, "salt") == None
  {
  }

  /** For families of two to five the staples start at their family-size default. */
  lemma InitialStaples(familySize: int)
    requires 2 <= familySize <= 5
    ensures InitialValue(familySize, Catalogue, "rice") == Some(familySize as real - 0.5)
    ensures InitialValue(familySize, Catalogue, "wheat") == Some(familySize as real - 0.5)
  {
  }

  // ---------------------------------------------------------------------------
  // Order summary and total.
  // ---------------------------------------------------------------------------

  /** The entries with a positive quantity, in record order. */
  function Summary(entries: seq<Entry>): (r: seq<Entry>)
    ensures |r| <= |entries|
    ensures forall k :: 0 <= k < |r| ==> r[k].quantity > 0.0
  {
    if entries == [] then []
    else (if entries[0].quantity > 0.0 then [entries[0]] else []) + Summary(entries[1..])
  }

  /** The summary holds exactly the entries with a positive quantity. */
  lemma {:induction false} SummaryMembers(entries: seq<Entry>, e: Entry)
    ensures e in Summary(entries) <==> e in entries && e.quantity > 0.0
  {
    if entries != [] {
      SummaryMembers(entries[1..], e);
      assert entries == [entries[0]] + entries[1..];
    }
  }

  /** With distinct keys, the summary holds exactly the positive values of the record. */
  lemma {:induction false} SummaryLookup(entries: seq<Entry>, id: string)
    requires UniqueIds(entries)
    ensures Lookup(Summary(entries), id) ==
      if Lookup(entries, id).Some? && Lookup(entries, id).value > 0.0 then Lookup(entries, id) else None
  {
    if entries != [] {
      var head, rest := entries[0], entries[1..];
      assert UniqueIds(rest);
      SummaryLookup(rest, id);
      if head.id == id {
        assert Lookup(rest, id).None? by {
          forall k | 0 <= k < |rest| ensures rest[k].id != id {
            assert rest[k] == entries[k + 1];
          }
        }
      }
      if head.quantity > 0.0 {
        var s := [head] + Summary(rest);
        assert Summary(entries) == s;
        assert s[0] == head && s[1..] == Summary(rest);
      } else {
        assert Summary(entries) == Summary(rest);
      }
    }
  }

  /** The price of one line: list price times quantity, nothing for an id the list lacks. */
  function Amount(ps: seq<Product>, e: Entry): real
  {
    match FindIn(ps, e.id)
    case Some(p) => p.pricePerUnit * e.quantity
    case None => 0.0
  }

  /**
   * The line price read off a known product. Stated for any product list so that the
   * solver need not unfold the catalogue itself.
   */
  lemma AmountOfKnown(ps: seq<Product>, e: Entry, p: Product)
    requires FindIn(ps, e.id) == Some(p)
    ensures Amount(ps, e) == p.pricePerUnit * e.quantity
  {
  }

  /**
   * The `reduce` over the summary: the sum of the line amounts. The screen prices against
   * the catalogue, `Total(Catalogue, items)`.
   */
  function Total(ps: seq<Product>, entries: seq<Entry>): real
  {
    if entries == [] then 0.0 else Amount(ps, entries[0]) + Total(ps, entries[1..])
  }

  predicate NonNegative(entries: seq<Entry>)
  {
    forall k :: 0 <= k < |entries| ==> entries[k].quantity >= 0.0
  }

  ghost predicate PricesNonNegative(ps: seq<Product>)
  {
    forall k :: 0 <= k < |ps| ==> ps[k].pricePerUnit >= 0.0
  }

  lemma CataloguePricesNonNegative()
    ensures PricesNonNegative(Catalogue)
  {
  }

  /** With non-negative prices, a total of non-negative quantities is non-negative. */
  lemma {:induction false} TotalNonNegative(ps: seq<Product>, entries: seq<Entry>)
    requires PricesNonNegative(ps) && NonNegative(entries)
    ensures Total(ps, entries) >= 0.0
  {
    if entries != [] {
      assert Amount(ps, entries[0]) >= 0.0;
      TotalNonNegative(ps, entries[1..]);
    }
  }

  /** The summary of a non-empty record: its first entry if positive, then the rest's summary. */
  lemma SummaryCons(entries: seq<Entry>)
    requires entries != []
    ensures Summary(entries) ==
      if entries[0].quantity > 0.0 then [entries[0]] + Summary(entries[1..]) else Summary(entries[1..])
  {
    if entries[0].quantity <= 0.0 {
      assert [] + Summary(entries[1..]) == Summary(entries[1..]);
    }
  }

  lemma TotalCons(ps: seq<Product>, e: Entry, rest: seq<Entry>)
    ensures Total(ps, [e] + rest) == Amount(ps, e) + Total(ps, rest)
  {
    assert ([e] + rest)[1..] == rest;
  }

  /** Dropping the zero lines does not change the total. */
  lemma {:induction false} SummaryKeepsTotal(ps: seq<Product>, entries: seq<Entry>)
    requires NonNegative(entries)
    ensures Total(ps, Summary(entries)) == Total(ps, entries)
  {
    if entries != [] {
      var head, rest := entries[0], entries[1..];
      assert NonNegative(rest);
      SummaryKeepsTotal(ps, rest);
      SummaryCons(entries);
      if head.quantity > 0.0 {
        TotalCons(ps, head, Summary(rest));
      } else {
        assert Amount(ps, head) == 0.0;
      }
    }
  }

  /** The total shown with the summary is never negative, whatever the record holds. */
  lemma SummaryTotalNonNegative(ps: seq<Product>, entries: seq<Entry>)
    requires PricesNonNegative(ps)
    ensures Total(ps, Summary(entries)) >= 0.0
  {
    TotalNonNegative(ps, Summary(entries));
  }

  /** The cap of a listed product for a family. */
  function CapIn(familySize: int, ps: seq<Product>, id: string): real
    requires FindIn(ps, id).Some?
  {
    DefaultQuantity(familySize, FindIn(ps, id).value)
  }

  /** The cap of a catalogue product for a family. */
  function Cap(familySize: int, id: string): real
    requires Find(id).Some?
  {
    CapIn(familySize, Catalogue, id)
  }

  /**
   * Every stored quantity is for a listed product and lies between zero and its cap; the
   * screen's list is the catalogue.
   */
  ghost predicate WithinCaps(familySize: int, ps: seq<Product>, entries: seq<Entry>)
  {
    forall k :: 0 <= k < |entries| ==>
      FindIn(ps, entries[k].id).Some? && 0.0 <= entries[k].quantity <= CapIn(familySize, ps, entries[k].id)
  }

  /** A listed product that is in stock, so the screen shows its quantity controls. */
  predicate OfferedIn(ps: seq<Product>, id: string)
  {
    FindIn(ps, id).Some? && FindIn(ps, id).value.available
  }

  /** Every stored key names a listed product that is in stock. */
  ghost predicate AllOffered(ps: seq<Product>, entries: seq<Entry>)
  {
    forall k :: 0 <= k < |entries| ==> OfferedIn(ps, entries[k].id)
  }

  /** The initial record holds only products in stock. */
  lemma InitialAllOffered(familySize: int, ps: seq<Product>, entries: seq<Entry>)
    requires forall id :: Lookup(entries, id) == InitialValue(familySize, ps, id)
    ensures AllOffered(ps, entries)
  {
    forall k | 0 <= k < |entries|
      ensures OfferedIn(ps, entries[k].id)
    {
      assert Lookup(entries, entries[k].id).Some?;
    }
  }

  /**
   * Writing under an id keeps every key in stock exactly when the id is in stock: a key
   * once written is never removed.
   */
  lemma PutOffered(ps: seq<Product>, entries: seq<Entry>, id: string, q: real)
    ensures AllOffered(ps, entries) && OfferedIn(ps, id) ==> AllOffered(ps, Put(entries, id, q))
    ensures !OfferedIn(ps, id) ==> !AllOffered(ps, Put(entries, id, q))
  {
    var r := Put(entries, id, q);
    if AllOffered(ps, entries) && OfferedIn(ps, id) {
      forall k | 0 <= k < |r|
        ensures OfferedIn(ps, r[k].id)
      {
        var x := r[k].id;
        if x != id {
          assert Lookup(r, x).Some?;
          assert Lookup(entries, x).Some?;
          var j :| 0 <= j < |entries| && entries[j].id == x;
        }
      }
    }
    if !OfferedIn(ps, id) {
      assert Lookup(r, id).Some?;
      var j :| 0 <= j < |r| && r[j].id == id;
    }
  }

  /** The product-selection screen: a family size and the selected-quantities record. */
  class Basket {
    const familySize: int
    var entries: seq<Entry>

    ghost predicate Valid()
      reads this
    {
      UniqueIds(entries) && WithinCaps(familySize, Catalogue, entries)
    }

    /** Every stored key is a product the screen offers, i.e. one shown with its controls. */
    ghost predicate Orderable()
      reads this
    {
      AllOffered(Catalogue, entries)
    }

    constructor (familySize: int)
      ensures Valid() && Orderable()
      ensures this.familySize == familySize
      ensures forall id :: Lookup(entries, id) == InitialValue(familySize, Catalogue, id)
      ensures Ids(entries) == AvailableIds(Catalogue)
    {
      this.familySize := familySize;
      var initial := InitialQuantities(familySize);
      entries := initial;
      new;
      CatalogueDefaultsPositive(familySize);
      InitialWithinCaps(familySize, Catalogue, entries);
      InitialAllOffered(familySize, Catalogue, entries);
    }

    /** `selectedQuantities[id] || 0`: the quantity shown for a product. */
    function Selected(id: string): real
      reads this
    {
      match Lookup(entries, id)
      case Some(q) => q
      case None => 0.0
    }

    /**
     * Store the quantity clamped into [0, cap] under a catalogue id; an unknown id changes
     * nothing, and no other key changes.
     */
    method UpdateQuantity(id: string, quantity: real)
      requires Valid()
      modifies this
      ensures Valid()
      ensures Find(id).None? ==> entries == old(entries)
      ensures Find(id).Some? ==>
        entries == Put(old(entries), id, Clamp(quantity, Cap(familySize, id)))
      ensures forall x :: x != id ==> Lookup(entries, x) == Lookup(old(entries), x)
      ensures Find(id).Some? ==>
        Lookup(entries, id) == Some(Clamp(quantity, Cap(familySize, id)))
      ensures old(Orderable()) && (Find(id).None? || OfferedIn(Catalogue, id)) ==> Orderable()
      ensures Find(id).Some? && !OfferedIn(Catalogue, id) ==> !Orderable()
    {
      var product := Find(id);
      if product.None? {
        return;
      }
      var cap := DefaultQuantity(familySize, product.value);
      DefaultPositive(familySize, id);
      var valid := Clamp(quantity, cap);
      PutKeepsUnique(entries, id, valid);
      PutWithinCaps(familySize, Catalogue, entries, id, valid);
      PutOffered(Catalogue, entries, id, valid);
      entries := Put(entries, id, valid);
    }

    /**
     * A change in a product's quantity input, shown only for an available product:
     * `parseFloat(value) || 0`, with None standing for a value that parses as NaN.
     */
    method EnterQuantity(id: string, parsed: Option<real>)
      requires Valid()
      requires OfferedIn(Catalogue, id)
      modifies this
      ensures Valid()
      ensures parsed.Some? ==> Lookup(entries, id) == Some(Clamp(parsed.value, Cap(familySize, id)))
      ensures parsed.None? ==> Lookup(entries, id) == Some(0.0)
      ensures forall x :: x != id ==> Lookup(entries, x) == Lookup(old(entries), x)
      ensures old(Orderable()) ==> Orderable()
    {
      DefaultPositive(familySize, id);
      UpdateQuantity(id, if parsed.Some? then parsed.value else 0.0);
    }

    /** The minus button is disabled at zero. */
    predicate MinusEnabled(id: string)
      reads this
    {
      !(Selected(id) <= 0.0)
    }

    /** The plus button is disabled at the cap. */
    predicate PlusEnabled(id: string)
      reads this
      requires Find(id).Some?
    {
      !(Selected(id) >= Cap(familySize, id))
    }

    /**
     * The minus button, shown only for an available product and enabled only above zero:
     * half a unit less, never below zero; no other key changes.
     */
    method StepDown(id: string)
      requires Valid()
      requires OfferedIn(Catalogue, id) && MinusEnabled(id)
      modifies this
      ensures Valid()
      ensures old(Selected(id)) >= 0.5 ==> Lookup(entries, id) == Some(old(Selected(id)) - 0.5)
      ensures old(Selected(id)) < 0.5 ==> Lookup(entries, id) == Some(0.0)
      ensures forall x :: x != id ==> Lookup(entries, x) == Lookup(old(entries), x)
      ensures old(Orderable()) ==> Orderable()
    {
      LookupWithinCaps(familySize, Catalogue, entries, id);
      DefaultPositive(familySize, id);
      UpdateQuantity(id, Selected(id) - 0.5);
    }

    /**
     * The plus button, shown only for an available product and enabled only below its cap:
     * half a unit more, never above the cap; no other key changes.
     */
    method StepUp(id: string)
      requires Valid()
      requires OfferedIn(Catalogue, id) && PlusEnabled(id)
      modifies this
      ensures Valid()
      ensures old(Orderable()) ==> Orderable()
      ensures Lookup(entries, id).Some?
      ensures old(Selected(id)) + 0.5 <= Cap(familySize, id) ==> Selected(id) == old(Selected(id)) + 0.5
      ensures old(Selected(id)) + 0.5 > Cap(familySize, id) ==> Selected(id) == Cap(familySize, id)
      ensures forall x :: x != id ==> Lookup(entries, x) == Lookup(old(entries), x)
    {
      var before, cap := Selected(id), Cap(familySize, id);
      LookupWithinCaps(familySize, Catalogue, entries, id);
      StepUpStores(before, cap);
      UpdateQuantity(id, before + 0.5);

    }

    /**
     * "Proceed to payment": the summary's (id, quantity) pairs and their total, forwarded
     * unchanged; every forwarded quantity is positive and within its cap.
     */
    method ProceedToPayment() returns (items: seq<Entry>, total: real)
      requires Valid()
      ensures items == Summary(entries) && total == Total(Catalogue, items)
      ensures total == Total(Catalogue, entries)
      ensures total >= 0.0
      ensures forall k :: 0 <= k < |items| ==>
        Find(items[k].id).Some? && 0.0 < items[k].quantity <= Cap(familySize, items[k].id)
      ensures Orderable() ==> forall k :: 0 <= k < |items| ==> OfferedIn(Catalogue, items[k].id)
    {
      items := Summary(entries);
      total := Total(Catalogue, items);
      assert NonNegative(entries);
      SummaryKeepsTotal(Catalogue, entries);
      CataloguePricesNonNegative();
      SummaryTotalNonNegative(Catalogue, entries);
      forall k | 0 <= k < |items|
        ensures Find(items[k].id).Some? && 0.0 < items[k].quantity <= Cap(familySize, items[k].id)
      {
        SummaryMembers(entries, items[k]);
      }
      if Orderable() {
        forall k | 0 <= k < |items|
          ensures OfferedIn(Catalogue, items[k].id)
        {
          SummaryMembers(entries, items[k]);
        }
      }
    }
  }

  /** Half a unit more than a value below the cap, clamped: that value, or the cap. */
  lemma StepUpStores(before: real, cap: real)
    requires 0.0 <= before < cap
    ensures before + 0.5 <= cap ==> Clamp(before + 0.5, cap) == before + 0.5
    ensures before + 0.5 > cap ==> Clamp(before + 0.5, cap) == cap
  {
  }

  /** The value found under an id is the one at its first position. */
  lemma LookupFirst(entries: seq<Entry>, k: nat)
    requires k < |entries|
    requires UniqueIds(entries)
    ensures Lookup(entries, entries[k].id) == Some(entries[k].quantity)
  {
    if k > 0 {
      assert entries[0].id != entries[k].id;
      assert UniqueIds(entries[1..]);
      assert entries[1..][k - 1] == entries[k];
      LookupFirst(entries[1..], k - 1);
    }
  }

  /** A stored value lies within the cap of its catalogue product. */
  lemma {:induction false} LookupWithinCaps(familySize: int, ps: seq<Product>, entries: seq<Entry>, id: string)
    requires WithinCaps(familySize, ps, entries)
    ensures Lookup(entries, id).Some? ==>
      FindIn(ps, id).Some? && 0.0 <= Lookup(entries, id).value <= CapIn(familySize, ps, id)
  {
    if entries != [] && entries[0].id != id {
      LookupWithinCaps(familySize, ps, entries[1..], id);
    }
  }

  /** Writing a clamped value under a catalogue id keeps every entry within its cap. */
  lemma {:induction false} PutWithinCaps(familySize: int, ps: seq<Product>, entries: seq<Entry>, id: string, q: real)
    requires WithinCaps(familySize, ps, entries)
    requires FindIn(ps, id).Some? && 0.0 <= q <= CapIn(familySize, ps, id)
    ensures WithinCaps(familySize, ps, Put(entries, id, q))
  {
    if entries != [] {
      var r := Put(entries, id, q);
      var rest := entries[1..];
      if entries[0].id == id {
        assert r == [Entry(id, q)] + rest;
        forall k | 1 <= k < |r|
          ensures r[k] == entries[k]
        {
        }
      } else {
        PutWithinCaps(familySize, ps, rest, id, q);
        assert r == [entries[0]] + Put(rest, id, q);
        forall k | 1 <= k < |r|
          ensures r[k] == Put(rest, id, q)[k - 1]
        {
        }
      }
    }
  }

  /** With non-negative defaults, the initial record lies within the caps of its list. */
  lemma InitialWithinCaps(familySize: int, ps: seq<Product>, entries: seq<Entry>)
    requires forall k :: 0 <= k < |ps| ==> DefaultQuantity(familySize, ps[k]) > 0.0
    requires forall id :: Lookup(entries, id) == InitialValue(familySize, ps, id)
    requires UniqueIds(entries)
    ensures WithinCaps(familySize, ps, entries)
  {
    forall k | 0 <= k < |entries|
      ensures FindIn(ps, entries[k].id).Some?
      ensures 0.0 <= entries[k].quantity <= CapIn(familySize, ps, entries[k].id)
    {
      LookupFirst(entries, k);
      assert InitialValue(familySize, ps, entries[k].id) == Some(entries[k].quantity);
      var p := FindIn(ps, entries[k].id).value;
      var j :| 0 <= j < |ps| && ps[j] == p;
      assert DefaultQuantity(familySize, ps[j]) > 0.0;
    }
  }

  lemma CatalogueDefaultsPositive(familySize: int)
    ensures forall k :: 0 <= k < |Catalogue| ==> DefaultQuantity(familySize, Catalogue[k]) > 0.0
  {
  }
}
