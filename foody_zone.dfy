/**
 * The storefront page: its inline cart (entries carry a `finalPrice` fixed at
 * first add), its pricing getters (subtotal + delivery fee + tax, no discount),
 * and its four-step checkout (0 cart, 1 delivery, 2 payment, 3 confirmation).
 */
module FoodyZone {
  import opened Catalog
  import Constants
  import OrderIds

  /** A cart entry: the menu item spread, its quantity, and its price fixed at first add. */
  datatype ZoneLine = ZoneLine(product: Product, quantity: int, finalPrice: real)

  predicate HasId(cart: seq<ZoneLine>, id: int) {
    exists k :: 0 <= k < |cart| && cart[k].product.id == id
  }

  predicate DistinctIds(cart: seq<ZoneLine>) {
    forall i, j :: 0 <= i < j < |cart| ==> cart[i].product.id != cart[j].product.id
  }

  predicate AllPositive(cart: seq<ZoneLine>) {
    forall k :: 0 <= k < |cart| ==> cart[k].quantity >= 1
  }

  /** Every stored finalPrice is its item's price resolved at the time it was added. */
  predicate PricesResolved(cart: seq<ZoneLine>) {
    forall k :: 0 <= k < |cart| ==> cart[k].finalPrice == ResolvePrice(cart[k].product.price)
  }

  /** The page's cart invariant. */
  predicate WellFormed(cart: seq<ZoneLine>) {
    DistinctIds(cart) && AllPositive(cart) && PricesResolved(cart)
  }

  /** `addToCart(item)` */
  function AddedToCart(cart: seq<ZoneLine>, item: Product): seq<ZoneLine> {
    if HasId(cart, item.id) then
      seq(|cart|, k requires 0 <= k < |cart| =>
        if cart[k].product.id == item.id then cart[k].(quantity := cart[k].quantity + 1) else cart[k])
    else
      cart + [ZoneLine(item, 1, ResolvePrice(item.price))]
  }

  /** `removeFromCart(id)`: `cart.filter(item => item.id !== id)` */
  function RemovedFromCart(cart: seq<ZoneLine>, id: int): seq<ZoneLine> {
    if cart == [] then []
    else (if cart[0].product.id == id then [] else [cart[0]]) + RemovedFromCart(cart[1..], id)
  }

  /**
   * The array the `cart.map` in `updateQuantity(id, change)` builds: a matching
   * entry takes quantity + change, unless that is below 1, in which case the
   * callback asks for a removal and returns the entry as it was.
   */
  function MappedChange(cart: seq<ZoneLine>, id: int, change: int): seq<ZoneLine> {
    seq(|cart|, k requires 0 <= k < |cart| =>
      if cart[k].product.id == id && cart[k].quantity + change >= 1
      then cart[k].(quantity := cart[k].quantity + change) else cart[k])
  }

  /**
   * Whether the map callback calls `removeFromCart(id)`, i.e. queues
   * `setCart(cart.filter(...))` before the outer `setCart` runs.
   */
  predicate RemovalRequested(cart: seq<ZoneLine>, id: int, change: int) {
    exists k :: 0 <= k < |cart| && cart[k].product.id == id && cart[k].quantity + change < 1
  }

  /**
   * The cart `updateQuantity(id, change)` leaves, as written: both writes are plain
   * values computed from the same `cart`, and the later one, the mapped array,
   * replaces the queued removal.
   */
  function UpdateQuantityAsWritten(cart: seq<ZoneLine>, id: int, change: int): seq<ZoneLine> {
    MappedChange(cart, id, change)
  }

  /**
   * The intended `updateQuantity(id, change)`: the removal the callback asks for
   * takes effect instead of being overwritten by the mapped array.
   */
  function UpdateQuantityIntended(cart: seq<ZoneLine>, id: int, change: int): seq<ZoneLine> {
    if RemovalRequested(cart, id, change) then RemovedFromCart(cart, id) else MappedChange(cart, id, change)
  }

  /** `getSubtotal`: the sum of finalPrice × quantity. */
  function Subtotal(cart: seq<ZoneLine>): real {
    if cart == [] then 0.0 else cart[0].finalPrice * cart[0].quantity as real + Subtotal(cart[1..])
  }

  /** `getItemCount`: the sum of the quantities. */
  function ItemCount(cart: seq<ZoneLine>): int {
    if cart == [] then 0 else cart[0].quantity + ItemCount(cart[1..])
  }

  /** `getDeliveryFee`: free strictly above 25, otherwise 2.99. */
  function DeliveryFee(cart: seq<ZoneLine>): real {
    if Subtotal(cart) > 25.0 then 0.0 else 2.99
  }

  /** `getTax`: 8% of the subtotal. */
  function Tax(cart: seq<ZoneLine>): real {
    Subtotal(cart) * 0.08
  }

  /** `getTotal` before `toFixed(2)`: subtotal + delivery fee + tax; no discount term. */
  function Total(cart: seq<ZoneLine>): real {
    Subtotal(cart) + DeliveryFee(cart) + Tax(cart)
  }

  // -------------------------------------------------------------------- the cart

  /**
   * `addToCart` on a present id adds 1 to the matching entry and changes nothing
   * else, keeping its stored finalPrice even if the item's price differs now; a
   * new id is appended with quantity 1 and its price resolved once, here.
   */
  lemma AddToCartEffect(cart: seq<ZoneLine>, item: Product)
    ensures HasId(cart, item.id) ==>
      var r := AddedToCart(cart, item);
      |r| == |cart| &&
      (forall k :: 0 <= k < |cart| ==> r[k].finalPrice == cart[k].finalPrice && r[k].product == cart[k].product) &&
      (forall k :: 0 <= k < |cart| ==>
        r[k].quantity == if cart[k].product.id == item.id then cart[k].quantity + 1 else cart[k].quantity)
    ensures !HasId(cart, item.id) ==>
      AddedToCart(cart, item) == cart + [ZoneLine(item, 1, ResolvePrice(item.price))]
    ensures item.price.Sis50? && !HasId(cart, item.id) ==>
      AddedToCart(cart, item)[|cart|].finalPrice == item.price.originalPrice / 2.0
  {
  }

  /** `addToCart` keeps the page's cart invariant. */
  lemma AddToCartKeepsWellFormed(cart: seq<ZoneLine>, item: Product)
    requires WellFormed(cart)
    ensures WellFormed(AddedToCart(cart, item))
  {
    var r := AddedToCart(cart, item);
    if !HasId(cart, item.id) {
      forall i, j | 0 <= i < j < |r| ensures r[i].product.id != r[j].product.id {
        if j == |cart| {
          assert r[i] == cart[i];
        }
      }
    }
  }

  /** `removeFromCart` keeps exactly the entries with another id, in their order. */
  lemma {:induction false} RemoveFromCartEffect(cart: seq<ZoneLine>, id: int)
    ensures forall x :: x in RemovedFromCart(cart, id) <==> x in cart && x.product.id != id
    ensures !HasId(RemovedFromCart(cart, id), id)
    ensures !HasId(cart, id) ==> RemovedFromCart(cart, id) == cart
  {
    if cart != [] {
      RemoveFromCartEffect(cart[1..], id);
      assert cart == [cart[0]] + cart[1..];
      if !HasId(cart, id) {
        assert !HasId(cart[1..], id) by {
          forall k | 0 <= k < |cart[1..]| ensures cart[1..][k].product.id != id {
            assert cart[1..][k] == cart[k + 1];
          }
        }
      }
    }
  }

  lemma {:induction false} RemoveFromCartAppend(a: seq<ZoneLine>, b: seq<ZoneLine>, id: int)
    ensures RemovedFromCart(a + b, id) == RemovedFromCart(a, id) + RemovedFromCart(b, id)
  {
    if a != [] {
      assert (a + b)[1..] == a[1..] + b;
      RemoveFromCartAppend(a[1..], b, id);
    } else {
      assert a + b == b;
    }
  }

  /** `removeFromCart` keeps the page's cart invariant. */
  lemma RemoveFromCartKeepsWellFormed(cart: seq<ZoneLine>, id: int)
    requires WellFormed(cart)
    ensures WellFormed(RemovedFromCart(cart, id))
  {
    RemoveFromCartKeepsDistinct(cart, id);
    RemoveFromCartEffect(cart, id);
    var r := RemovedFromCart(cart, id);
    forall k | 0 <= k < |r|
      ensures r[k].quantity >= 1 && r[k].finalPrice == ResolvePrice(r[k].product.price)
    {
      assert r[k] in cart;
    }
  }

  lemma {:induction false} RemoveFromCartKeepsDistinct(cart: seq<ZoneLine>, id: int)
    requires DistinctIds(cart)
    ensures DistinctIds(RemovedFromCart(cart, id))
  {
    if cart != [] {
      RemoveFromCartKeepsDistinct(cart[1..], id);
      RemoveFromCartEffect(cart[1..], id);
      var rest := RemovedFromCart(cart[1..], id);
      if cart[0].product.id != id {
        forall j | 0 <= j < |rest| ensures rest[j].product.id != cart[0].product.id {
          assert rest[j] in cart[1..];
          var m :| 0 <= m < |cart[1..]| && cart[1..][m] == rest[j];
          assert cart[m + 1] == rest[j];
        }
      }
    }
  }

  /**
   * As written, `updateQuantity(id, change)` alters only matching entries, and
   * only when the new quantity stays at 1 or more; an entry that would drop below
   * 1 is left exactly as it was (the queued removal is overwritten). Either way
   * no entry ends below 1, and the invariant holds.
   */
  lemma UpdateQuantityAsWrittenEffect(cart: seq<ZoneLine>, id: int, change: int)
    ensures var r := UpdateQuantityAsWritten(cart, id, change);
      |r| == |cart| &&
      forall k :: 0 <= k < |cart| ==>
        r[k].product == cart[k].product && r[k].finalPrice == cart[k].finalPrice &&
        r[k].quantity == if cart[k].product.id == id && cart[k].quantity + change >= 1
                         then cart[k].quantity + change else cart[k].quantity
    ensures WellFormed(cart) ==> WellFormed(UpdateQuantityAsWritten(cart, id, change))
  {
  }

  /**
   * The minus button on an entry of quantity 1 leaves the cart as it was: the
   * entry is neither decremented nor removed. The intended version removes it.
   */
  lemma MinusAtOneIsNoOp(cart: seq<ZoneLine>, k: nat)
    requires WellFormed(cart) && k < |cart| && cart[k].quantity == 1
    ensures UpdateQuantityAsWritten(cart, cart[k].product.id, -1) == cart
    ensures !HasId(UpdateQuantityIntended(cart, cart[k].product.id, -1), cart[k].product.id)
  {
    var id := cart[k].product.id;
    var r := UpdateQuantityAsWritten(cart, id, -1);
    forall j | 0 <= j < |cart| ensures r[j] == cart[j] {
      if cart[j].product.id == id {
        assert j == k;
      }
    }
    UpdateQuantityIntendedEffect(cart, id, -1);
  }

  /**
   * The intended `updateQuantity` on a well-formed cart: the entry is gone exactly
   * when its quantity would drop below 1, and is otherwise moved by `change`;
   * other entries are kept; the invariant holds.
   */
  lemma UpdateQuantityIntendedEffect(cart: seq<ZoneLine>, id: int, change: int)
    requires WellFormed(cart)
    ensures var r := UpdateQuantityIntended(cart, id, change);
      WellFormed(r) &&
      (forall x :: x in r && x.product.id != id <==> x in cart && x.product.id != id) &&
      (forall k :: 0 <= k < |cart| && cart[k].product.id == id ==>
        if cart[k].quantity + change < 1 then !HasId(r, id)
        else r[k] == cart[k].(quantity := cart[k].quantity + change))
  {
    var r := UpdateQuantityIntended(cart, id, change);
    if RemovalRequested(cart, id, change) {
      RemoveFromCartEffect(cart, id);
      RemoveFromCartKeepsWellFormed(cart, id);
      forall k | 0 <= k < |cart| && cart[k].product.id == id ensures cart[k].quantity + change < 1 {
        var m :| 0 <= m < |cart| && cart[m].product.id == id && cart[m].quantity + change < 1;
        assert m == k;
      }
    } else {
      UpdateQuantityAsWrittenEffect(cart, id, change);
      forall x | x in cart && x.product.id != id ensures x in r {
        var k :| 0 <= k < |cart| && cart[k] == x;
        assert r[k] == x;
      }
    }
  }

  // ----------------------------------------------------------------- the pricing

  lemma {:induction false} SubtotalNonNegative(cart: seq<ZoneLine>)
    requires forall k :: 0 <= k < |cart| ==> cart[k].finalPrice >= 0.0 && cart[k].quantity >= 0
    ensures Subtotal(cart) >= 0.0
  {
    if cart != [] {
      SubtotalNonNegative(cart[1..]);
    }
  }

  /**
   * The fee is 0 exactly when the subtotal is strictly above 25 and 2.99
   * otherwise, so an empty cart is charged 2.99 and totals 2.99; tax is 8% of the
   * subtotal; the inline literals are the shared constants.
   */
  lemma PricingRules(cart: seq<ZoneLine>)
    ensures DeliveryFee(cart) == 0.0 <==> Subtotal(cart) > Constants.MIN_ORDER_FREE_DELIVERY
    ensures DeliveryFee(cart) != 0.0 ==> DeliveryFee(cart) == Constants.DELIVERY_FEE
    ensures Tax(cart) == Subtotal(cart) * Constants.TAX_RATE
    ensures Total(cart) == Subtotal(cart) + DeliveryFee(cart) + Tax(cart)
    ensures cart == [] ==> Subtotal(cart) == 0.0 && ItemCount(cart) == 0 && Total(cart) == 2.99
  {
  }

  /** With non-negative prices the total is at least the subtotal plus the fee. */
  lemma TotalAtLeastSubtotal(cart: seq<ZoneLine>)
    requires forall k :: 0 <= k < |cart| ==> cart[k].finalPrice >= 0.0 && cart[k].quantity >= 0
    ensures Total(cart) >= Subtotal(cart) + DeliveryFee(cart) >= 0.0
  {
    SubtotalNonNegative(cart);
  }

  /** A 14.99 item and an 8.99 item: subtotal 23.98, fee 2.99, tax 1.9184, total 28.8884. */
  lemma TwoItemExample(a: Product, b: Product)
    requires a.id != b.id && a.price == Num(14.99) && b.price == Num(8.99)
    ensures var cart := AddedToCart(AddedToCart([], a), b);
      Subtotal(cart) == 23.98 && DeliveryFee(cart) == 2.99 && Tax(cart) == 1.9184 && Total(cart) == 28.8884
  {
    var c1 := AddedToCart([], a);
    assert c1 == [ZoneLine(a, 1, 14.99)];
    assert !HasId(c1, b.id);
    var c2 := AddedToCart(c1, b);
    assert c2 == [ZoneLine(a, 1, 14.99), ZoneLine(b, 1, 8.99)];
    assert Subtotal(c2) == 14.99 + Subtotal(c2[1..]);
    assert Subtotal(c2[1..]) == 8.99 + Subtotal(c2[2..]);
  }

  // ------------------------------------------------------------ favourites

  /** `toggleFavorite(id)`: drop every copy of a present id, append an absent one. */
  function Toggled(favorites: seq<int>, id: int): seq<int> {
    if id in favorites then RemoveAll(favorites, id) else favorites + [id]
  }

  /** `favorites.filter(favId => favId !== id)` */
  function RemoveAll(favorites: seq<int>, id: int): (r: seq<int>)
    ensures forall x :: x in r <==> x in favorites && x != id
  {
    if favorites == [] then []
    else (if favorites[0] == id then [] else [favorites[0]]) + RemoveAll(favorites[1..], id)
  }

  lemma {:induction false} RemoveAllAbsent(favorites: seq<int>, id: int)
    requires id !in favorites
    ensures RemoveAll(favorites, id) == favorites
  {
    if favorites != [] {
      RemoveAllAbsent(favorites[1..], id);
      assert favorites == [favorites[0]] + favorites[1..];
    }
  }

  /**
   * A toggle flips whether the id is a favourite and leaves every other id's
   * membership alone; toggling a new id twice gives the list back.
   */
  lemma ToggleFavoriteEffect(favorites: seq<int>, id: int)
    ensures id in Toggled(favorites, id) <==> id !in favorites
    ensures forall x :: x != id ==> (x in Toggled(favorites, id) <==> x in favorites)
    ensures id !in favorites ==> Toggled(Toggled(favorites, id), id) == favorites
  {
    if id !in favorites {
      RemoveAllAppend(favorites, [id], id);
      RemoveAllAbsent(favorites, id);
    }
  }

  lemma {:induction false} RemoveAllAppend(a: seq<int>, b: seq<int>, id: int)
    ensures RemoveAll(a + b, id) == RemoveAll(a, id) + RemoveAll(b, id)
  {
    if a != [] {
      assert (a + b)[1..] == a[1..] + b;
      RemoveAllAppend(a[1..], b, id);
    } else {
      assert a + b == b;
    }
  }

  // -------------------------------------------------------- the page's state

  /** The delivery form's fields. */
  datatype DeliveryDraft = DeliveryDraft(name: string, phone: string, address: string, deliveryTime: string, instructions: string)

  datatype DraftField = Name | Phone | Address | DeliveryTime | Instructions

  /** `handleDeliveryInfoChange(field, value)`: only the named field changes. */
  function WithField(d: DeliveryDraft, f: DraftField, v: string): DeliveryDraft {
    match f
    case Name => d.(name := v)
    case Phone => d.(phone := v)
    case Address => d.(address := v)
    case DeliveryTime => d.(deliveryTime := v)
    case Instructions => d.(instructions := v)
  }

  /** The draft's value under a field name, `deliveryInfo[field]`. */
  function Field(d: DeliveryDraft, f: DraftField): string {
    match f
    case Name => d.name
    case Phone => d.phone
    case Address => d.address
    case DeliveryTime => d.deliveryTime
    case Instructions => d.instructions
  }

  /**
   * `{...prev, [field]: value}`: the named field reads back as the value, every
   * other field as before, and writing a field's own value changes nothing.
   */
  lemma WithFieldEffect(d: DeliveryDraft, f: DraftField, v: string, other: DraftField)
    ensures Field(WithField(d, f, v), f) == v
    ensures other != f ==> Field(WithField(d, f, v), other) == Field(d, other)
    ensures WithField(d, f, Field(d, f)) == d
  {
  }

  /** The gate of `handleDeliveryNext`: name, phone and address all non-empty. */
  predicate DeliveryComplete(d: DeliveryDraft) {
    d.name != "" && d.phone != "" && d.address != ""
  }

  /** The page's fields that the modelled handlers read or write. */
  datatype PageState = PageState(
    cart: seq<ZoneLine>, checkoutStep: int, deliveryInfo: DeliveryDraft,
    paymentMethod: string, orderCompleted: bool, orderId: string, favorites: seq<int>)

  class Storefront {
    var cart: seq<ZoneLine>
    var checkoutStep: int
    var deliveryInfo: DeliveryDraft
    var paymentMethod: string
    var orderCompleted: bool
    var orderId: string
    var favorites: seq<int>

    function View(): PageState
      reads this
    {
      PageState(cart, checkoutStep, deliveryInfo, paymentMethod, orderCompleted, orderId, favorites)
    }

    ghost predicate Valid()
      reads this
    {
      0 <= checkoutStep <= 3 && WellFormed(cart)
    }

    /** The `useState` initial values. */
    constructor ()
      ensures View() == PageState([], 0, DeliveryDraft("", "", "", "asap", ""), "card", false, "", [])
      ensures Valid()
    {
      cart, checkoutStep, favorites := [], 0, [];
      deliveryInfo := DeliveryDraft("", "", "", "asap", "");
      paymentMethod, orderCompleted, orderId := "card", false, "";
    }

    method AddToCart(item: Product)
      requires Valid()
      modifies this
      ensures View() == old(View()).(cart := AddedToCart(old(cart), item))
      ensures Valid()
    {
      AddToCartKeepsWellFormed(cart, item);
      cart := AddedToCart(cart, item);
    }

    method RemoveFromCart(id: int)
      requires Valid()
      modifies this
      ensures View() == old(View()).(cart := RemovedFromCart(old(cart), id))
      ensures Valid()
    {
      RemoveFromCartKeepsWellFormed(cart, id);
      cart := RemovedFromCart(cart, id);
    }

    /**
     * `updateQuantity(id, change)` as written: the removal the map callback queues
     * is overwritten by the later `setCart` of the mapped array, so an entry that
     * would fall below 1 is left as it was (`MinusAtOneIsNoOp`; the corrected rule
     * is `UpdateQuantityIntended`).
     */
    method UpdateQuantity(id: int, change: int)
      requires Valid()
      modifies this
      ensures View() == old(View()).(cart := UpdateQuantityAsWritten(old(cart), id, change))
      ensures Valid()
    {
      UpdateQuantityAsWrittenEffect(cart, id, change);
      cart := MappedChange(cart, id, change);
    }

    method HandleDeliveryInfoChange(field: DraftField, value: string)
      requires Valid()
      modifies this
      ensures View() == old(View()).(deliveryInfo := WithField(old(deliveryInfo), field, value))
      ensures Valid()
    {
      deliveryInfo := WithField(deliveryInfo, field, value);
    }

    /** A click on one of the payment-method tiles. */
    method SelectPaymentMethod(method_: string)
      requires Valid()
      modifies this
      ensures View() == old(View()).(paymentMethod := method_)
      ensures Valid()
    {
      paymentMethod := method_;
    }

    /** Step 0 to 1, refused on an empty cart. */
    method HandleProceedToCheckout()
      requires Valid()
      modifies this
      ensures View() == if |old(cart)| == 0 then old(View()) else old(View()).(checkoutStep := 1)
      ensures Valid()
    {
      if |cart| == 0 {
        return;
      }
      checkoutStep := 1;
    }

    /** Step 1 to 2, refused unless name, phone and address are all filled in. */
    method HandleDeliveryNext()
      requires Valid()
      modifies this
      ensures View() == if DeliveryComplete(old(deliveryInfo)) then old(View()).(checkoutStep := 2) else old(View())
      ensures Valid()
    {
      if deliveryInfo.name == "" || deliveryInfo.phone == "" || deliveryInfo.address == "" {
        return;
      }
      checkoutStep := 2;
    }

    /**
     * Step 2 to 3, refused when no payment method is selected; sets the order id
     * from the clock reading `now`.
     */
    method HandlePaymentNext(now: nat)
      requires Valid()
      modifies this
      ensures View() ==
        if old(paymentMethod) == "" then old(View())
        else old(View()).(checkoutStep := 3, orderId := OrderIds.OrderId(now))
      ensures Valid()
    {
      if paymentMethod == "" {
        return;
      }
      checkoutStep := 3;
      orderId := OrderIds.OrderId(now);
    }

    /** "Back to Cart" on the delivery step: back to step 0. */
    method HandleBackToCart()
      requires Valid()
      modifies this
      ensures View() == old(View()).(checkoutStep := 0)
      ensures Valid()
    {
      checkoutStep := 0;
    }

    method ToggleFavorite(id: int)
      requires Valid()
      modifies this
      ensures View() == old(View()).(favorites := Toggled(old(favorites), id))
      ensures Valid()
    {
      favorites := Toggled(favorites, id);
    }

    /** "Continue Shopping" on the confirmation step: back to step 0. */
    method ContinueShopping()
      requires Valid()
      modifies this
      ensures View() == old(View()).(checkoutStep := 0)
      ensures Valid()
    {
      checkoutStep := 0;
    }

    /** "Back to Delivery" and "Back" on the payment step: back to step 1. */
    method BackToDelivery()
      requires Valid()
      modifies this
      ensures View() == old(View()).(checkoutStep := 1)
      ensures Valid()
    {
      checkoutStep := 1;
    }
  }
}
