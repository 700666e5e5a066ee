/**
 * A menu card: a local quantity that never drops below 1, one chosen
 * customisation per option, the card's total (quantity × (price + the chosen
 * extras)), and the hand-off to the cart that resets the card.
 */
module MenuItem {
  import opened Wrappers
  import CartContext

  datatype Choice = Choice(id: string, name: string, price: real)

  datatype CustomOption = CustomOption(id: string, name: string, choices: seq<Choice>)

  /** The fields of a menu item the card computes with; `customizationOptions` may be absent. */
  datatype MenuProduct = MenuProduct(
    id: int, title: string, price: real, originalPrice: Option<real>, discount: real,
    customizationOptions: Option<seq<CustomOption>>)

  /** What is stored for a chosen customisation. */
  datatype Selection = Selection(optionName: string, choiceName: string, price: real)

  /** One key of the `customizations` object, in insertion order. */
  datatype Entry = Entry(optionId: string, selection: Selection)

  /** The object passed to `addToCart`: the item's fields plus the card's state and total. */
  datatype AddPayload = AddPayload(item: MenuProduct, quantity: int, customizations: seq<Entry>, totalPrice: real)

  /** `handleCustomizationChange` either stores the choice or fails on a missing option or choice. */
  datatype ChangeOutcome = Stored | TypeError

  predicate KeysDistinct(entries: seq<Entry>) {
    forall i, j :: 0 <= i < j < |entries| ==> entries[i].optionId != entries[j].optionId
  }

  /** `options.find(opt => opt.id === optionId)` */
  function FindOption(options: seq<CustomOption>, optionId: string): (r: Option<CustomOption>)
    ensures r.Some? <==> exists k :: 0 <= k < |options| && options[k].id == optionId
    ensures r.Some? ==> r.value in options && r.value.id == optionId
    ensures r.Some? ==>
      exists k :: 0 <= k < |options| && options[k] == r.value && (forall j :: 0 <= j < k ==> options[j].id != optionId)
  {
    if options == [] then None
    else if options[0].id == optionId then Some(options[0])
    else FindOption(options[1..], optionId)
  }

  /** `choices.find(ch => ch.id === choiceId)` */
  function FindChoice(choices: seq<Choice>, choiceId: string): (r: Option<Choice>)
    ensures r.Some? <==> exists k :: 0 <= k < |choices| && choices[k].id == choiceId
    ensures r.Some? ==> r.value in choices && r.value.id == choiceId
    ensures r.Some? ==>
      exists k :: 0 <= k < |choices| && choices[k] == r.value && (forall j :: 0 <= j < k ==> choices[j].id != choiceId)
  {
    if choices == [] then None
    else if choices[0].id == choiceId then Some(choices[0])
    else FindChoice(choices[1..], choiceId)
  }

  /**
   * The selection `handleCustomizationChange(optionId, choiceId)` would store, or
   * nothing when `option` or `choice` comes out undefined.
   */
  function ResolveChoice(item: MenuProduct, optionId: string, choiceId: string): Option<Selection> {
    if item.customizationOptions.None? then None
    else
      match FindOption(item.customizationOptions.value, optionId)
      case None => None
      case Some(option) =>
        match FindChoice(option.choices, choiceId)
        case None => None
        case Some(choice) => Some(Selection(option.name, choice.name, choice.price))
  }

  /** `customizations[optionId]` */
  function Get(entries: seq<Entry>, optionId: string): Option<Selection> {
    if entries == [] then None
    else if entries[0].optionId == optionId then Some(entries[0].selection)
    else Get(entries[1..], optionId)
  }

  /** `{...prev, [optionId]: selection}`: a present key keeps its place, a new one goes last. */
  function Put(entries: seq<Entry>, optionId: string, selection: Selection): seq<Entry> {
    if entries == [] then [Entry(optionId, selection)]
    else if entries[0].optionId == optionId then [Entry(optionId, selection)] + entries[1..]
    else [entries[0]] + Put(entries[1..], optionId, selection)
  }

  /** The sum of the chosen extras' prices, in insertion order. */
  function SelectionSum(entries: seq<Entry>): real {
    if entries == [] then 0.0 else SelectionSum(entries[..|entries| - 1]) + entries[|entries| - 1].selection.price
  }

  /** `itemInCart`: some cart entry has the item's id. */
  function ItemInCart(cart: seq<CartContext.Line>, id: int): (r: bool)
    ensures r <==> exists k :: 0 <= k < |cart| && cart[k].id == id
  {
    if cart == [] then false
    else cart[0].id == id || ItemInCart(cart[1..], id)
  }

  /** The struck-through layout is used when `originalPrice` is truthy and the discount positive. */
  predicate ShowsDiscount(item: MenuProduct) {
    item.originalPrice.Some? && item.originalPrice.value != 0.0 && item.discount > 0.0
  }

  /** The current price shown: the discounted price in the struck-through layout, else `price`. */
  function DisplayedPrice(item: MenuProduct): real {
    if ShowsDiscount(item) then item.price * (1.0 - item.discount / 100.0) else item.price
  }

  // ------------------------------------------------------------------ lemmas

  /**
   * After `Put`, the key maps to the new selection and every other key to what it
   * did before; keys stay distinct, so one choice is held per option; the entry
   * count grows only for a new key.
   */
  lemma {:induction false} PutEffect(entries: seq<Entry>, optionId: string, selection: Selection)
    requires KeysDistinct(entries)
    ensures var r := Put(entries, optionId, selection);
      KeysDistinct(r) && Get(r, optionId) == Some(selection) &&
      (forall other :: other != optionId ==> Get(r, other) == Get(entries, other)) &&
      |r| == (if Get(entries, optionId).Some? then |entries| else |entries| + 1)
  {
    if entries != [] && entries[0].optionId != optionId {
      PutEffect(entries[1..], optionId, selection);
      var rest := Put(entries[1..], optionId, selection);
      forall j | 0 <= j < |rest| ensures rest[j].optionId != entries[0].optionId {
        PutKeys(entries[1..], optionId, selection, j);
        if rest[j].optionId != optionId {
          var m :| 0 <= m < |entries[1..]| && entries[1..][m].optionId == rest[j].optionId;
          assert entries[m + 1].optionId == rest[j].optionId;
        }
      }
    }
  }

  lemma {:induction false} PutKeys(entries: seq<Entry>, optionId: string, selection: Selection, j: nat)
    requires j < |Put(entries, optionId, selection)|
    ensures var key := Put(entries, optionId, selection)[j].optionId;
      key == optionId || exists m :: 0 <= m < |entries| && entries[m].optionId == key
  {
    if entries != [] && entries[0].optionId != optionId && j > 0 {
      PutKeys(entries[1..], optionId, selection, j - 1);
      var key := Put(entries, optionId, selection)[j].optionId;
      if key != optionId {
        var m :| 0 <= m < |entries[1..]| && entries[1..][m].optionId == key;
        assert entries[m + 1].optionId == key;
      }
    } else if entries != [] && entries[0].optionId == optionId && j > 0 {
      assert Put(entries, optionId, selection)[j] == entries[j];
    }
  }

  /** Overwriting a key's choice replaces it: the earlier choice does not matter. */
  lemma {:induction false} PutOverwrites(entries: seq<Entry>, optionId: string, s1: Selection, s2: Selection)
    ensures Put(Put(entries, optionId, s1), optionId, s2) == Put(entries, optionId, s2)
  {
    if entries != [] && entries[0].optionId != optionId {
      PutOverwrites(entries[1..], optionId, s1, s2);
      assert Put(entries, optionId, s1)[1..] == Put(entries[1..], optionId, s1);
    }
  }

  /** On a well-formed item the handler stores exactly the chosen choice's name and price. */
  lemma ResolveChoiceFound(item: MenuProduct, option: CustomOption, choice: Choice)
    requires item.customizationOptions.Some?
    requires option in item.customizationOptions.value && choice in option.choices
    requires forall k :: 0 <= k < |item.customizationOptions.value| ==>
      item.customizationOptions.value[k].id == option.id ==> item.customizationOptions.value[k] == option
    requires forall k :: 0 <= k < |option.choices| ==> option.choices[k].id == choice.id ==> option.choices[k] == choice
    ensures ResolveChoice(item, option.id, choice.id) == Some(Selection(option.name, choice.name, choice.price))
  {
    var options := item.customizationOptions.value;
    var found := FindOption(options, option.id);
    var i :| 0 <= i < |options| && options[i] == option;
    assert found.Some?;
    var a :| 0 <= a < |options| && options[a] == found.value;
    var c :| 0 <= c < |option.choices| && option.choices[c] == choice;
    var chosen := FindChoice(option.choices, choice.id);
    assert chosen.Some?;
    var b :| 0 <= b < |option.choices| && option.choices[b] == chosen.value;
  }

  lemma {:induction false} SelectionSumAppend(entries: seq<Entry>, e: Entry)
    ensures SelectionSum(entries + [e]) == SelectionSum(entries) + e.selection.price
  {
    assert (entries + [e])[..|entries|] == entries;
  }

  /** `Put` on a present key changes the sum by the price difference, on a new key adds the price. */
  lemma {:induction false} PutSum(entries: seq<Entry>, optionId: string, selection: Selection)
    ensures Get(entries, optionId).None? ==> SelectionSum(Put(entries, optionId, selection)) == SelectionSum(entries) + selection.price
    ensures Get(entries, optionId).Some? ==>
      SelectionSum(Put(entries, optionId, selection)) == SelectionSum(entries) - Get(entries, optionId).value.price + selection.price
  {
    FrontSum(entries);
    FrontSum(Put(entries, optionId, selection));
    if entries != [] && entries[0].optionId != optionId {
      PutSum(entries[1..], optionId, selection);
    } else if entries != [] {
      assert Put(entries, optionId, selection)[1..] == entries[1..];
    }
  }

  /** The sum read from the front. */
  lemma {:induction false} FrontSum(entries: seq<Entry>)
    ensures entries != [] ==> SelectionSum(entries) == entries[0].selection.price + SelectionSum(entries[1..])
  {
    if |entries| > 1 {
      var last := entries[|entries| - 1];
      var init := entries[..|entries| - 1];
      FrontSum(init);
      assert init[1..] == entries[1..][..|entries[1..]| - 1];
      assert init[0] == entries[0];
    } else if |entries| == 1 {
      assert entries[..0] == [];
      assert entries[1..] == [];
    }
  }

  /** The struck-through price is the price less the discount share. */
  lemma DisplayedPriceRules(item: MenuProduct)
    ensures ShowsDiscount(item) ==> DisplayedPrice(item) == item.price - item.price * item.discount / 100.0
    ensures ShowsDiscount(item) && item.price > 0.0 && item.discount <= 100.0 ==>
      0.0 <= DisplayedPrice(item) < item.price
    ensures !ShowsDiscount(item) ==> DisplayedPrice(item) == item.price
  {
    if ShowsDiscount(item) && item.price > 0.0 && item.discount <= 100.0 {
      var f := 1.0 - item.discount / 100.0;
      assert 0.0 <= f < 1.0;
      assert item.price * f >= 0.0 by {
        MulNonNegative(item.price, f);
      }
      assert item.price * f < item.price * 1.0 by {
        MulStrict(item.price, f);
      }
    }
  }

  lemma MulNonNegative(x: real, y: real)
    requires x >= 0.0 && y >= 0.0
    ensures x * y >= 0.0
  {
  }

  lemma AddTimes(a: real, b: real, q: real)
    ensures (a + b) * q == a * q + b * q
    ensures q * (a + b) == a * q + b * q
  {
  }

  lemma MulStrict(x: real, y: real)
    requires x > 0.0 && y < 1.0
    ensures x * y < x
  {
    assert x * (1.0 - y) > 0.0;
  }

  // ------------------------------------------------------------------- state

  class Card {
    const item: MenuProduct
    var quantity: int
    var customizations: seq<Entry>

    ghost predicate Valid()
      reads this
    {
      quantity >= 1 && KeysDistinct(customizations)
    }

    constructor (item: MenuProduct)
      ensures this.item == item && quantity == 1 && customizations == [] && Valid()
    {
      this.item := item;
      quantity := 1;
      customizations := [];
    }

    /** `calculateTotalPrice`: starts from price × quantity and adds each extra × quantity. */
    method CalculateTotalPrice() returns (total: real)
      ensures total == quantity as real * (item.price + SelectionSum(customizations))
    {
      var q := quantity as real;
      total := item.price * q;
      var i := 0;
      while i < |customizations|
        invariant 0 <= i <= |customizations|
        invariant total == item.price * q + SelectionSum(customizations[..i]) * q
      {
        var e := customizations[i];
        assert customizations[..i + 1] == customizations[..i] + [e];
        SelectionSumAppend(customizations[..i], e);
        AddTimes(SelectionSum(customizations[..i]), e.selection.price, q);
        total := total + e.selection.price * q;
        i := i + 1;
      }
      assert customizations[..i] == customizations;
      AddTimes(item.price, SelectionSum(customizations), q);
    }

    /**
     * Stores the choice under its option's id; a missing option or choice makes
     * `option.name` or `choice.name` throw, and nothing is stored.
     */
    method HandleCustomizationChange(optionId: string, choiceId: string) returns (outcome: ChangeOutcome)
      requires Valid()
      modifies this
      ensures quantity == old(quantity)
      ensures ResolveChoice(item, optionId, choiceId).None? ==>
        outcome == TypeError && customizations == old(customizations)
      ensures ResolveChoice(item, optionId, choiceId).Some? ==>
        outcome == Stored && customizations == Put(old(customizations), optionId, ResolveChoice(item, optionId, choiceId).value)
      ensures Valid()
    {
      var selection := ResolveChoice(item, optionId, choiceId);
      if selection.None? {
        return TypeError;
      }
      PutEffect(customizations, optionId, selection.value);
      customizations := Put(customizations, optionId, selection.value);
      return Stored;
    }

    /** Hands the item, quantity, choices and total to the cart, then resets the card. */
    method HandleAddToCart() returns (payload: AddPayload)
      requires Valid()
      modifies this
      ensures payload == AddPayload(item, old(quantity), old(customizations),
        old(quantity) as real * (item.price + SelectionSum(old(customizations))))
      ensures quantity == 1 && customizations == [] && Valid()
    {
      var total := CalculateTotalPrice();
      payload := AddPayload(item, quantity, customizations, total);
      quantity := 1;
      customizations := [];
    }

    /** The selector's minus: never below 1. */
    method Minus()
      requires Valid()
      modifies this
      ensures quantity == if old(quantity) - 1 > 1 then old(quantity) - 1 else 1
      ensures customizations == old(customizations) && Valid()
    {
      quantity := if quantity - 1 > 1 then quantity - 1 else 1;
    }

    method Plus()
      requires Valid()
      modifies this
      ensures quantity == old(quantity) + 1
      ensures customizations == old(customizations) && Valid()
    {
      quantity := quantity + 1;
    }
  }
}
