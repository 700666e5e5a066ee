/**
 * The slide-out cart: it shows the shared cart context's entries, sends the
 * quantity buttons' absolute values to the context's `updateQuantity`, and
 * applies a promo code from its own table to the context's discount.
 */
module CartDrawer {
  import opened Wrappers
  import Constants
  import Promo
  import CartContext

  /** The drawer's own code table. */
  const CODES: map<string, real> := map["WELCOME10" := 10.0, "FOODY25" := 25.0, "SIS50" := 50.0]

  /** What `handleApplyPromo` does to the context: `applyDiscount` on a truthy entry only. */
  function AfterApply(s: CartContext.CartState, typed: string): CartContext.CartState {
    match Promo.Lookup(CODES, typed)
    case Some(p) => CartContext.Reduce(s, CartContext.ApplyDiscount(p))
    case None => s
  }

  /** The argument the minus button passes: the entry's quantity less one. */
  function MinusArgument(line: CartContext.Line): int {
    line.quantity - 1
  }

  /** The argument the plus button passes: the entry's quantity plus one. */
  function PlusArgument(line: CartContext.Line): int {
    line.quantity + 1
  }

  /** The discount row: shown only for a positive discount, with that share of the subtotal. */
  function DiscountRow(subtotal: real, discount: real): Option<real> {
    if discount > 0.0 then Some(subtotal * discount / 100.0) else None
  }

  /**
   * An apply attempt never touches the entries or the orders; a code that
   * upper-cases to a table code sets the discount to its percentage (in (0, 100]),
   * and any other code leaves the discount as it was.
   */
  lemma AfterApplyEffect(s: CartContext.CartState, typed: string)
    ensures AfterApply(s, typed).items == s.items && AfterApply(s, typed).orders == s.orders
    ensures Promo.ToUpper(typed) in CODES ==> AfterApply(s, typed).discount == CODES[Promo.ToUpper(typed)]
    ensures Promo.ToUpper(typed) !in CODES ==> AfterApply(s, typed) == s
    ensures AfterApply(s, typed) == s || 0.0 < AfterApply(s, typed).discount <= 100.0
  {
    assert CODES == Constants.PROMO_CODES;
    Promo.LookupShippedTable(typed);
  }

  /**
   * The minus button at quantity 1 passes 0, which the context's wrapper turns
   * into a removal; above 1 it lowers the entry by one; the plus button raises it
   * by one. Other entries are kept and the context's invariant holds.
   */
  lemma QuantityButtonsEffect(s: CartContext.CartState, k: nat)
    requires CartContext.DistinctIds(s.items) && CartContext.AllPositive(s.items) && k < |s.items|
    ensures var line := s.items[k];
      var r := CartContext.UpdateQuantityWrapper(s, line.id, MinusArgument(line));
      (line.quantity == 1 ==>
        !CartContext.HasId(r.items, line.id) && (forall x :: x in r.items <==> x in s.items && x.id != line.id)) &&
      (line.quantity > 1 ==> r.items[k].quantity == line.quantity - 1) &&
      CartContext.AllPositive(r.items) && CartContext.DistinctIds(r.items)
    ensures var line := s.items[k];
      CartContext.UpdateQuantityWrapper(s, line.id, PlusArgument(line)).items[k].quantity == line.quantity + 1
  {
    var line := s.items[k];
    CartContext.UpdateQuantityWrapperEffect(s, line.id, MinusArgument(line));
    CartContext.UpdateQuantityWrapperEffect(s, line.id, PlusArgument(line));
    CartContext.RemoveIdEffect(s.items, line.id);
  }

  /**
   * The row is shown exactly for a positive discount, and then the subtotal less
   * the row is the context's total.
   */
  lemma DiscountRowMatchesTotal(items: seq<CartContext.Line>, discount: real)
    ensures DiscountRow(CartContext.Subtotal(items), discount).Some? <==> discount > 0.0
    ensures discount > 0.0 ==>
      CartContext.Subtotal(items) - DiscountRow(CartContext.Subtotal(items), discount).value
        == CartContext.Total(items, discount)
    ensures discount == 0.0 ==> CartContext.Total(items, discount) == CartContext.Subtotal(items)
  {
  }

  class Drawer {
    var promoCode: string
    /** The cart context the drawer reads and dispatches to. */
    const cart: CartContext.CartProvider

    constructor (cart: CartContext.CartProvider)
      ensures this.cart == cart && promoCode == ""
    {
      this.cart := cart;
      promoCode := "";
    }

    method SetPromoCode(value: string)
      modifies this
      ensures promoCode == value
    {
      promoCode := value;
    }

    /** Looks the typed code up, dispatches a hit, and always empties the input. */
    method HandleApplyPromo()
      requires cart.Valid()
      modifies this, cart
      ensures cart.state == AfterApply(old(cart.state), old(promoCode))
      ensures promoCode == "" && cart.Valid()
    {
      var hit := Promo.Lookup(CODES, promoCode);
      if hit.Some? {
        cart.ApplyDiscount(hit.value);
      }
      promoCode := "";
    }

    /** The minus button of the k-th rendered entry. */
    method Minus(k: nat)
      requires cart.Valid() && k < |cart.state.items|
      modifies cart
      ensures cart.state == CartContext.UpdateQuantityWrapper(
        old(cart.state), old(cart.state.items[k].id), MinusArgument(old(cart.state.items[k])))
      ensures cart.Valid()
    {
      var line := cart.state.items[k];
      cart.UpdateQuantity(line.id, MinusArgument(line));
    }

    /** The plus button of the k-th rendered entry. */
    method Plus(k: nat)
      requires cart.Valid() && k < |cart.state.items|
      modifies cart
      ensures cart.state == CartContext.UpdateQuantityWrapper(
        old(cart.state), old(cart.state.items[k].id), PlusArgument(old(cart.state.items[k])))
      ensures cart.Valid()
    {
      var line := cart.state.items[k];
      cart.UpdateQuantity(line.id, PlusArgument(line));
    }

    /** The remove button of the k-th rendered entry. */
    method Remove(k: nat)
      requires cart.Valid() && k < |cart.state.items|
      modifies cart
      ensures cart.state == CartContext.Reduce(old(cart.state), CartContext.RemoveFromCart(old(cart.state.items[k].id)))
      ensures cart.Valid()
    {
      cart.RemoveFromCart(cart.state.items[k].id);
    }

    /** The "Clear Cart" button. */
    method Clear()
      requires cart.Valid()
      modifies cart
      ensures cart.state == CartContext.Reduce(old(cart.state), CartContext.ClearCart)
      ensures cart.Valid()
    {
      cart.ClearCart();
    }
  }
}
