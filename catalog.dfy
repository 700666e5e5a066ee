/**
 * The menu item record shared by the storefront page, the order summary and the
 * sorting helper, and the rule that turns the deal code "SIS50" into a number.
 */
module Catalog {
  import opened Wrappers

  /**
   * The `price` field of a menu item: either a number, or the deal code "SIS50",
   * which the catalogue always pairs with the item's `originalPrice`.
   */
  datatype Price = Num(amount: real) | Sis50(originalPrice: real)

  /** A menu item; `rating` may be absent (the deal item has none). */
  datatype Product = Product(id: int, title: string, price: Price, rating: Option<real>)

  /**
   * `price === "SIS50" ? originalPrice / 2 : price`: a deal-coded item costs half
   * its original price, every other item its own price.
   */
  function ResolvePrice(p: Price): (r: real)
    ensures p.Sis50? ==> 2.0 * r == p.originalPrice
    ensures p.Num? ==> r == p.amount
  {
    match p
    case Num(x) => x
    case Sis50(o) => o / 2.0
  }

  /** The catalogue's deal (29.99 originally) costs 14.995, kept exact. */
  lemma DealPrice()
    ensures ResolvePrice(Sis50(29.99)) == 14.995
  {
  }
}
