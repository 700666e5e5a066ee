/**
 * The checkout's order review: it loads the saved storefront cart once, fixes the
 * delivery fee at that moment, lets the buyer adjust quantities and apply a promo
 * code, and shows subtotal + fee + tax − discount.
 */
module OrderSummary {
  import opened Wrappers
  import opened Catalog
  import Constants
  import Promo
  import FoodyZone

  type ZoneLine = FoodyZone.ZoneLine

  /** The component's own code table. */
  const CODES: map<string, real> := map["WELCOME10" := 10.0, "FOODY25" := 25.0, "SIS50" := 50.0]

  /** `calculateSubtotal(items)`: each line's price resolved anew, times its quantity, summed. */
  function CalculateSubtotal(items: seq<ZoneLine>): real {
    if items == [] then 0.0
    else ResolvePrice(items[0].product.price) * items[0].quantity as real + CalculateSubtotal(items[1..])
  }

  /** `calculateTax(amount)`: 8%. */
  function CalculateTax(amount: real): real {
    amount * 0.08
  }

  /** `discountAmount`: the discount percentage of the undiscounted subtotal. */
  function DiscountAmount(subtotal: real, discount: real): real {
    subtotal * discount / 100.0
  }

  /** `total`: subtotal + delivery fee + tax − discount amount. */
  function Total(cart: seq<ZoneLine>, deliveryFee: real, discount: real): real {
    var subtotal := CalculateSubtotal(cart);
    subtotal + deliveryFee + CalculateTax(subtotal) - DiscountAmount(subtotal, discount)
  }

  /** The fee the mount effect leaves: 0 when the loaded subtotal is above 25, else the initial 2.99. */
  function MountFee(saved: seq<ZoneLine>): real {
    if CalculateSubtotal(saved) > 25.0 then 0.0 else 2.99
  }

  /** `applyPromoCode` on the discount: a truthy table entry replaces it, anything else leaves it. */
  function AppliedDiscount(current: real, typed: string): real {
    match Promo.Lookup(CODES, typed)
    case Some(p) => p
    case None => current
  }

  /**
   * `updateQuantity(id, change)`: a matching entry takes quantity + change, or is
   * dropped when that would be below 1 (`map` to null, then `filter`).
   */
  function Adjusted(cart: seq<ZoneLine>, id: int, change: int): seq<ZoneLine> {
    if cart == [] then []
    else
      var head :=
        if cart[0].product.id != id then [cart[0]]
        else if cart[0].quantity + change < 1 then []
        else [cart[0].(quantity := cart[0].quantity + change)];
      head + Adjusted(cart[1..], id, change)
  }

  // ------------------------------------------------------------------ lemmas

  /** The inline table and literals are the shared constants. */
  lemma InlineLiteralsMatchConstants(amount: real, saved: seq<ZoneLine>)
    ensures CODES == Constants.PROMO_CODES
    ensures CalculateTax(amount) == amount * Constants.TAX_RATE
    ensures MountFee(saved) == 0.0 <==> CalculateSubtotal(saved) > Constants.MIN_ORDER_FREE_DELIVERY
    ensures MountFee(saved) != 0.0 ==> MountFee(saved) == Constants.DELIVERY_FEE
  {
  }

  /**
   * A code that upper-cases to one of the three table codes sets the discount to
   * its percentage whatever it was before (no stacking); any other code leaves the
   * discount as it was.
   */
  lemma AppliedDiscountRules(current: real, typed: string)
    ensures Promo.ToUpper(typed) in CODES ==> AppliedDiscount(current, typed) == CODES[Promo.ToUpper(typed)]
    ensures Promo.ToUpper(typed) !in CODES ==> AppliedDiscount(current, typed) == current
    ensures AppliedDiscount(current, typed) == current || 0.0 < AppliedDiscount(current, typed) <= 100.0
  {
    Promo.LookupShippedTable(typed);
  }

  /** Last write wins: after a hit, earlier applications do not matter. */
  lemma AppliedDiscountLastWins(d1: real, d2: real, first: string, second: string)
    requires Promo.ToUpper(second) in CODES
    ensures AppliedDiscount(AppliedDiscount(d1, first), second) == AppliedDiscount(d2, second)
  {
    AppliedDiscountRules(AppliedDiscount(d1, first), second);
    AppliedDiscountRules(d2, second);
  }

  /**
   * The order review's subtotal agrees with the storefront's whenever every
   * stored `finalPrice` is the resolved price, which the storefront keeps.
   */
  lemma {:induction false} SubtotalsAgree(cart: seq<ZoneLine>)
    requires FoodyZone.PricesResolved(cart)
    ensures CalculateSubtotal(cart) == FoodyZone.Subtotal(cart)
  {
    if cart != [] {
      SubtotalsAgree(cart[1..]);
    }
  }

  lemma {:induction false} SubtotalNonNegative(cart: seq<ZoneLine>)
    requires forall k :: 0 <= k < |cart| ==> ResolvePrice(cart[k].product.price) >= 0.0 && cart[k].quantity >= 0
    ensures CalculateSubtotal(cart) >= 0.0
  {
    if cart != [] {
      SubtotalNonNegative(cart[1..]);
    }
  }

  /**
   * With non-negative prices and fee and a discount in [0, 100], the discount
   * never exceeds the subtotal, so the total is at least fee + tax, which is at
   * least 0.
   */
  lemma TotalBounds(cart: seq<ZoneLine>, deliveryFee: real, discount: real)
    requires forall k :: 0 <= k < |cart| ==> ResolvePrice(cart[k].product.price) >= 0.0 && cart[k].quantity >= 0
    requires deliveryFee >= 0.0 && 0.0 <= discount <= 100.0
    ensures 0.0 <= DiscountAmount(CalculateSubtotal(cart), discount) <= CalculateSubtotal(cart)
    ensures Total(cart, deliveryFee, discount) >= deliveryFee + CalculateTax(CalculateSubtotal(cart)) >= 0.0
  {
    SubtotalNonNegative(cart);
    DiscountWithinSubtotal(CalculateSubtotal(cart), discount);
  }

  lemma DiscountWithinSubtotal(s: real, d: real)
    requires s >= 0.0 && 0.0 <= d <= 100.0
    ensures 0.0 <= DiscountAmount(s, d) <= s
    ensures CalculateTax(s) >= 0.0
  {
    assert 0.0 <= s * d by {
      MulNonNegative(s, d);
    }
    assert s * d <= s * 100.0 by {
      MulNonNegative(s, 100.0 - d);
    }
  }

  lemma MulNonNegative(x: real, y: real)
    requires x >= 0.0 && y >= 0.0
    ensures x * y >= 0.0
  {
  }

  /** `updateQuantity` never touches an entry with another id, and keeps their order. */
  lemma {:induction false} AdjustedKeepsOthers(cart: seq<ZoneLine>, id: int, change: int)
    ensures FoodyZone.RemovedFromCart(Adjusted(cart, id, change), id) == FoodyZone.RemovedFromCart(cart, id)
  {
    if cart != [] {
      AdjustedKeepsOthers(cart[1..], id, change);
      var head :=
        if cart[0].product.id != id then [cart[0]]
        else if cart[0].quantity + change < 1 then []
        else [cart[0].(quantity := cart[0].quantity + change)];
      FoodyZone.RemoveFromCartAppend(head, Adjusted(cart[1..], id, change), id);
      assert FoodyZone.RemovedFromCart(head, id) == (if cart[0].product.id != id then [cart[0]] else []) by {
        if head != [] {
          assert head[1..] == [];
        }
      }
    }
  }

  /**
   * On a cart with distinct ids, the matching entry is dropped exactly when its
   * quantity + change is below 1, and otherwise stays where it was with the new
   * quantity; the storefront's cart invariant holds afterwards.
   */
  lemma {:induction false} AdjustedEffect(cart: seq<ZoneLine>, id: int, change: int, k: nat)
    requires FoodyZone.WellFormed(cart) && k < |cart| && cart[k].product.id == id
    ensures var r := Adjusted(cart, id, change);
      if cart[k].quantity + change < 1 then r == FoodyZone.RemovedFromCart(cart, id)
      else |r| == |cart| && r[k] == cart[k].(quantity := cart[k].quantity + change) &&
           forall j :: 0 <= j < |cart| && j != k ==> r[j] == cart[j]
  {
    var rest := Adjusted(cart[1..], id, change);
    if k == 0 {
      assert !FoodyZone.HasId(cart[1..], id) by {
        forall j | 0 <= j < |cart[1..]| ensures cart[1..][j].product.id != id {
          assert cart[1..][j] == cart[j + 1];
        }
      }
      AdjustedAbsent(cart[1..], id, change);
      FoodyZone.RemoveFromCartEffect(cart[1..], id);
    } else {
      assert cart[1..][k - 1] == cart[k];
      AdjustedEffect(cart[1..], id, change, k - 1);
    }
  }

  lemma {:induction false} AdjustedAbsent(cart: seq<ZoneLine>, id: int, change: int)
    requires !FoodyZone.HasId(cart, id)
    ensures Adjusted(cart, id, change) == cart
  {
    if cart != [] {
      assert !FoodyZone.HasId(cart[1..], id) by {
        forall j | 0 <= j < |cart[1..]| ensures cart[1..][j].product.id != id {
          assert cart[1..][j] == cart[j + 1];
        }
      }
      AdjustedAbsent(cart[1..], id, change);
      assert cart == [cart[0]] + cart[1..];
    }
  }

  /** No entry `updateQuantity` keeps or writes has quantity below 1, given none did before. */
  lemma {:induction false} AdjustedKeepsPositive(cart: seq<ZoneLine>, id: int, change: int)
    requires FoodyZone.AllPositive(cart)
    ensures FoodyZone.AllPositive(Adjusted(cart, id, change))
  {
    if cart != [] {
      AdjustedKeepsPositive(cart[1..], id, change);
    }
  }

  /**
   * The fee is fixed at mount: a saved cart of subtotal 26 gets free delivery,
   * and taking one item off, down to 13, keeps the fee at 0 although a fresh
   * mount would charge 2.99.
   */
  lemma FeeIsFixedAtMount(p: Product)
    requires p.price == Num(13.0)
    ensures var saved := [FoodyZone.ZoneLine(p, 2, 13.0)];
      MountFee(saved) == 0.0 &&
      CalculateSubtotal(Adjusted(saved, p.id, -1)) == 13.0 &&
      MountFee(Adjusted(saved, p.id, -1)) == 2.99
  {
    var saved := [FoodyZone.ZoneLine(p, 2, 13.0)];
    assert CalculateSubtotal(saved) == 26.0 + CalculateSubtotal(saved[1..]);
    assert Adjusted(saved, p.id, -1) == [FoodyZone.ZoneLine(p, 1, 13.0)];
  }

  /** A 14.99 and an 8.99 item with FOODY25: 23.98 + 2.99 + 1.9184 − 5.995 = 22.8934. */
  lemma PromoExample(a: Product, b: Product)
    requires a.price == Num(14.99) && b.price == Num(8.99)
    ensures var cart := [FoodyZone.ZoneLine(a, 1, 14.99), FoodyZone.ZoneLine(b, 1, 8.99)];
      MountFee(cart) == 2.99 && Total(cart, MountFee(cart), AppliedDiscount(0.0, "foody25")) == 22.8934
  {
    var cart := [FoodyZone.ZoneLine(a, 1, 14.99), FoodyZone.ZoneLine(b, 1, 8.99)];
    assert CalculateSubtotal(cart) == 14.99 + CalculateSubtotal(cart[1..]);
    assert CalculateSubtotal(cart[1..]) == 8.99 + CalculateSubtotal(cart[2..]);
    assert Promo.ToUpper("foody25") == "FOODY25";
  }

  // ------------------------------------------------------------------- state

  /** The component's state. */
  datatype SummaryState = SummaryState(cart: seq<ZoneLine>, promoCode: string, discount: real, deliveryFee: real)

  class Summary {
    var cart: seq<ZoneLine>
    var promoCode: string
    var discount: real
    var deliveryFee: real
    /** The value under the saved-cart key, as this component last wrote it. */
    var savedCart: seq<ZoneLine>

    function View(): SummaryState
      reads this
    {
      SummaryState(cart, promoCode, discount, deliveryFee)
    }

    /**
     * First render plus the mount effect: the saved cart (none parses to `[]`)
     * is loaded and the fee set from its subtotal.
     */
    constructor Mount(saved: Option<seq<ZoneLine>>)
      ensures View() == SummaryState(saved.GetOr([]), "", 0.0, MountFee(saved.GetOr([])))
      ensures savedCart == saved.GetOr([])
    {
      cart, promoCode, discount, deliveryFee := [], "", 0.0, 2.99;
      var loaded := saved.GetOr([]);
      cart := loaded;
      savedCart := loaded;
      if CalculateSubtotal(loaded) > 25.0 {
        deliveryFee := 0.0;
      }
    }

    method SetPromoCode(value: string)
      modifies this
      ensures View() == old(View()).(promoCode := value)
      ensures savedCart == old(savedCart)
    {
      promoCode := value;
    }

    /** The promo code field is kept; only the discount can change. */
    method ApplyPromoCode()
      modifies this
      ensures View() == old(View()).(discount := AppliedDiscount(old(discount), old(promoCode)))
      ensures savedCart == old(savedCart)
    {
      var hit := Promo.Lookup(CODES, promoCode);
      if hit.Some? {
        discount := hit.value;
      }
    }

    /** Adjusts the cart and saves it; the fee is not recomputed. */
    method UpdateQuantity(id: int, change: int)
      modifies this
      ensures View() == old(View()).(cart := Adjusted(old(cart), id, change))
      ensures savedCart == cart
    {
      cart := Adjusted(cart, id, change);
      savedCart := cart;
    }

    /** Removes the id and saves the cart; the fee is not recomputed. */
    method RemoveItem(id: int)
      modifies this
      ensures View() == old(View()).(cart := FoodyZone.RemovedFromCart(old(cart), id))
      ensures savedCart == cart
    {
      cart := FoodyZone.RemovedFromCart(cart, id);
      savedCart := cart;
    }
  }
}
