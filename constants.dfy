/** The storefront's shared constant tables. */
module Constants {

  /** A menu category (its icon is display-only and left out). */
  datatype Category = Category(id: string, name: string)

  /** An entry of the sort drop-down. */
  datatype SortOption = SortOption(id: string, name: string)

  const CATEGORIES: seq<Category> := [
    Category("all", "All Items"),
    Category("main", "Main Course"),
    Category("breakfast", "Breakfast"),
    Category("dessert", "Desserts"),
    Category("beverage", "Beverages"),
    Category("deal", "Special Deals"),
    Category("vegan", "Vegan"),
    Category("spicy", "Spicy")
  ]

  const SORT_OPTIONS: seq<SortOption> := [
    SortOption("default", "Default"),
    SortOption("price-low", "Price: Low to High"),
    SortOption("price-high", "Price: High to Low"),
    SortOption("rating", "Highest Rated"),
    SortOption("popular", "Most Popular")
  ]

  /** Promo code to discount percentage. */
  const PROMO_CODES: map<string, real> := map["WELCOME10" := 10.0, "FOODY25" := 25.0, "SIS50" := 50.0]

  const DELIVERY_FEE: real := 2.99
  const MIN_ORDER_FREE_DELIVERY: real := 25.0
  const TAX_RATE: real := 0.08

  /** The table holds exactly the three codes, each a percentage in (0, 100]. */
  lemma PromoCodesTable()
    ensures PROMO_CODES.Keys == {"WELCOME10", "FOODY25", "SIS50"}
    ensures PROMO_CODES["WELCOME10"] == 10.0 && PROMO_CODES["FOODY25"] == 25.0 && PROMO_CODES["SIS50"] == 50.0
    ensures forall c :: c in PROMO_CODES ==> 0.0 < PROMO_CODES[c] <= 100.0
  {
  }

  /** No two sort options share an id. */
  lemma SortOptionIdsDistinct()
    ensures forall i, j :: 0 <= i < j < |SORT_OPTIONS| ==> SORT_OPTIONS[i].id != SORT_OPTIONS[j].id
  {
  }

  /** No two categories share an id. */
  lemma CategoryIdsDistinct()
    ensures forall i, j :: 0 <= i < j < |CATEGORIES| ==> CATEGORIES[i].id != CATEGORIES[j].id
  {
  }
}
