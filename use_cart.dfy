/**
 * The `useCart` hook: reductions over the context's entries, an emptiness flag,
 * and an `addToCart` that hands the item to the context's `addItem` and raises a
 * toast. `addItem` is not provided by the context shown; here it is an effect
 * the hook emits, with no behaviour of its own.
 */
module UseCart {
  import CartContext

  type Line = CartContext.Line

  /** What `addToCart(item)` sets off, in order. */
  datatype Effect = AddItem(item: Line) | Toast(message: string)

  /** `getTotal`: the sum of the raw `price` × quantity; no discount, fee or tax. */
  function GetTotal(cart: seq<Line>): real {
    if cart == [] then 0.0 else cart[0].price * cart[0].quantity as real + GetTotal(cart[1..])
  }

  /** `getItemCount`: the sum of the quantities. */
  function GetItemCount(cart: seq<Line>): int {
    if cart == [] then 0 else cart[0].quantity + GetItemCount(cart[1..])
  }

  /** `isEmpty`: the cart has no entries. */
  predicate IsEmpty(cart: seq<Line>) {
    |cart| == 0
  }

  /** `addToCart(item)`: `addItem(item)`, then the success toast. */
  function AddToCart(item: Line): seq<Effect> {
    [AddItem(item), Toast(item.title + " added to cart!")]
  }

  /** The item reaches `addItem` exactly once, unchanged, before the toast. */
  lemma AddToCartDelegates(item: Line)
    ensures forall k :: 0 <= k < |AddToCart(item)| && AddToCart(item)[k].AddItem? ==> k == 0
    ensures AddToCart(item)[0] == AddItem(item)
    ensures AddToCart(item)[|AddToCart(item)| - 1].Toast?
  {
  }

  /** The hook's item count is the provider's. */
  lemma {:induction false} ItemCountsAgree(cart: seq<Line>)
    ensures GetItemCount(cart) == CartContext.ItemCount(cart)
  {
    if cart != [] {
      ItemCountsAgree(cart[1..]);
    }
  }

  lemma {:induction false} ItemCountPositive(cart: seq<Line>)
    requires CartContext.AllPositive(cart)
    ensures GetItemCount(cart) >= |cart|
  {
    if cart != [] {
      ItemCountPositive(cart[1..]);
    }
  }

  /**
   * An empty cart counts and totals 0; with every quantity at least 1 (as the
   * provider keeps it), the cart is empty exactly when the count is 0.
   */
  lemma IsEmptyRules(cart: seq<Line>)
    ensures IsEmpty(cart) ==> GetItemCount(cart) == 0 && GetTotal(cart) == 0.0
    ensures CartContext.AllPositive(cart) ==> (IsEmpty(cart) <==> GetItemCount(cart) == 0)
  {
    if CartContext.AllPositive(cart) {
      ItemCountPositive(cart);
    }
  }

  /** Where every entry's price is its finalPrice, the hook's total is the provider's subtotal. */
  lemma {:induction false} TotalMatchesSubtotal(cart: seq<Line>)
    requires forall k :: 0 <= k < |cart| ==> cart[k].price == cart[k].finalPrice
    ensures GetTotal(cart) == CartContext.Subtotal(cart)
  {
    if cart != [] {
      TotalMatchesSubtotal(cart[1..]);
    }
  }

  /** What the raw price adds over the stored finalPrice: the sum of (price − finalPrice) × quantity. */
  function RawPriceGap(cart: seq<Line>): real {
    if cart == [] then 0.0
    else (cart[0].price - cart[0].finalPrice) * cart[0].quantity as real + RawPriceGap(cart[1..])
  }

  /**
   * The hook's total is the provider's subtotal plus the raw-price gap: an entry
   * whose finalPrice is below its price (a resolved deal) makes the hook's figure
   * exceed the provider's by that difference times its quantity.
   */
  lemma {:induction false} TotalUsesRawPrice(cart: seq<Line>)
    ensures GetTotal(cart) == CartContext.Subtotal(cart) + RawPriceGap(cart)
  {
    if cart != [] {
      TotalUsesRawPrice(cart[1..]);
      SplitPrice(cart[0].price, cart[0].finalPrice, cart[0].quantity as real);
    }
  }

  /** An entry the hook prices above the provider. */
  predicate MarkedDown(line: Line) {
    line.finalPrice < line.price
  }

  predicate AnyMarkedDown(cart: seq<Line>) {
    exists k :: 0 <= k < |cart| && MarkedDown(cart[k])
  }

  predicate PricesAtLeastFinal(cart: seq<Line>) {
    forall k :: 0 <= k < |cart| ==> cart[k].finalPrice <= cart[k].price
  }

  /**
   * With every finalPrice at most its price and quantities of at least 1, the
   * hook's total exceeds the provider's subtotal exactly when some entry's
   * finalPrice is strictly below its price.
   */
  lemma {:induction false} RawPriceGapPositive(cart: seq<Line>)
    requires CartContext.AllPositive(cart) && PricesAtLeastFinal(cart)
    ensures RawPriceGap(cart) >= 0.0
    ensures RawPriceGap(cart) > 0.0 <==> AnyMarkedDown(cart)
  {
    if cart != [] {
      TailFacts(cart);
      RawPriceGapPositive(cart[1..]);
      var d, q := cart[0].price - cart[0].finalPrice, cart[0].quantity as real;
      assert q >= 1.0 && d >= 0.0;
      MulSign(d, q);
      assert RawPriceGap(cart) == d * q + RawPriceGap(cart[1..]);
      assert d > 0.0 <==> MarkedDown(cart[0]);
    }
  }

  /** The hypotheses pass to the tail, and an entry is marked down iff the head or a tail entry is. */
  lemma TailFacts(cart: seq<Line>)
    requires cart != [] && CartContext.AllPositive(cart) && PricesAtLeastFinal(cart)
    ensures CartContext.AllPositive(cart[1..]) && PricesAtLeastFinal(cart[1..])
    ensures cart[0].quantity >= 1 && cart[0].finalPrice <= cart[0].price
    ensures AnyMarkedDown(cart) <==> MarkedDown(cart[0]) || AnyMarkedDown(cart[1..])
  {
    var t := cart[1..];
    forall k | 0 <= k < |t| ensures t[k].quantity >= 1 && t[k].finalPrice <= t[k].price {
      assert t[k] == cart[k + 1];
    }
    if AnyMarkedDown(cart) {
      var k :| 0 <= k < |cart| && MarkedDown(cart[k]);
      if k > 0 {
        assert t[k - 1] == cart[k];
      }
    }
    if AnyMarkedDown(t) {
      var k :| 0 <= k < |t| && MarkedDown(t[k]);
      assert cart[k + 1] == t[k];
    }
  }

  lemma SplitPrice(p: real, f: real, q: real)
    ensures p * q == f * q + (p - f) * q
  {
  }

  lemma MulSign(d: real, q: real)
    requires d >= 0.0 && q >= 1.0
    ensures d * q >= 0.0
    ensures d * q > 0.0 <==> d > 0.0
  {
    if d > 0.0 {
      assert d * q >= d * 1.0;
    }
  }
}
