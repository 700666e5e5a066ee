/**
 * `sortItems(items, sortBy)`: a sorted copy of the menu by price (either way)
 * or by rating, highest first, and the unchanged order for any other key. The
 * copy is a value here, so the input is never altered.
 */
module Helpers {
  import opened Wrappers
  import opened Catalog

  /** The comparators `sortItems` knows, each an ascending order on a number. */
  datatype SortKey = PriceLow | PriceHigh | Rating

  /** The `switch (sortBy)`: any other string leaves the order as it is. */
  function KeyFor(sortBy: string): Option<SortKey> {
    if sortBy == "price-low" then Some(PriceLow)
    else if sortBy == "price-high" then Some(PriceHigh)
    else if sortBy == "rating" then Some(Rating)
    else None
  }

  /** `getPrice`: the deal code resolved to half the original price. */
  function GetPrice(item: Product): real {
    ResolvePrice(item.price)
  }

  /** The number each comparator sorts ascending: price, minus price, minus `rating || 0`. */
  function Rank(key: SortKey, item: Product): real {
    match key
    case PriceLow => GetPrice(item)
    case PriceHigh => -GetPrice(item)
    case Rating => -item.rating.GetOr(0.0)
  }

  predicate SortedBy(key: SortKey, s: seq<Product>) {
    forall i, j :: 0 <= i < j < |s| ==> Rank(key, s[i]) <= Rank(key, s[j])
  }

  /** Puts `x` before the first element ranked at or above it. */
  function Insert(key: SortKey, x: Product, s: seq<Product>): (r: seq<Product>)
    ensures |r| == |s| + 1
  {
    if s == [] || Rank(key, x) <= Rank(key, s[0]) then [x] + s
    else [s[0]] + Insert(key, x, s[1..])
  }

  /** A stable sort by rank. */
  function Sort(key: SortKey, s: seq<Product>): (r: seq<Product>)
    ensures |r| == |s|
  {
    if s == [] then [] else Insert(key, s[0], Sort(key, s[1..]))
  }

  /** `sortItems(items, sortBy)` */
  function SortItems(items: seq<Product>, sortBy: string): seq<Product> {
    match KeyFor(sortBy)
    case Some(key) => Sort(key, items)
    case None => items
  }

  /** The elements of a given rank, in order. */
  function WithRank(key: SortKey, s: seq<Product>, r: real): seq<Product> {
    if s == [] then []
    else (if Rank(key, s[0]) == r then [s[0]] else []) + WithRank(key, s[1..], r)
  }

  // ------------------------------------------------------------------ lemmas

  lemma {:induction false} InsertPermutes(key: SortKey, x: Product, s: seq<Product>)
    ensures multiset(Insert(key, x, s)) == multiset(s) + multiset{x}
  {
    if s != [] && Rank(key, x) > Rank(key, s[0]) {
      InsertPermutes(key, x, s[1..]);
      assert s == [s[0]] + s[1..];
    }
  }

  lemma {:induction false} InsertSorted(key: SortKey, x: Product, s: seq<Product>)
    requires SortedBy(key, s)
    ensures SortedBy(key, Insert(key, x, s))
  {
    if s != [] && Rank(key, x) > Rank(key, s[0]) {
      InsertSorted(key, x, s[1..]);
      InsertAbove(key, x, s[1..], Rank(key, s[0]));
    }
  }

  /** A bound below `x` and every element of `s` is a bound below every element of the insertion. */
  lemma {:induction false} InsertAbove(key: SortKey, x: Product, s: seq<Product>, b: real)
    requires b <= Rank(key, x)
    requires forall i :: 0 <= i < |s| ==> b <= Rank(key, s[i])
    ensures forall j :: 0 <= j < |s| + 1 ==> b <= Rank(key, Insert(key, x, s)[j])
  {
    if s != [] && Rank(key, x) > Rank(key, s[0]) {
      InsertAbove(key, x, s[1..], b);
      var t := Insert(key, x, s[1..]);
      forall j | 0 <= j < |s| + 1 ensures b <= Rank(key, ([s[0]] + t)[j]) {
        if j > 0 {
          assert ([s[0]] + t)[j] == t[j - 1];
        }
      }
    } else {
      forall j | 0 <= j < |s| + 1 ensures b <= Rank(key, ([x] + s)[j]) {
        if j > 0 {
          assert ([x] + s)[j] == s[j - 1];
        }
      }
    }
  }

  /** The elements of any one rank keep their relative order through `Insert`. */
  lemma {:induction false} InsertStable(key: SortKey, x: Product, s: seq<Product>, r: real)
    ensures WithRank(key, Insert(key, x, s), r) ==
      (if Rank(key, x) == r then [x] else []) + WithRank(key, s, r)
  {
    if s != [] && Rank(key, x) > Rank(key, s[0]) {
      var t := Insert(key, x, s[1..]);
      InsertStable(key, x, s[1..], r);
      assert ([s[0]] + t)[1..] == t;
      if Rank(key, s[0]) == r {
        assert Rank(key, x) != r;
      } else {
        assert WithRank(key, s, r) == WithRank(key, s[1..], r);
      }
    } else {
      assert ([x] + s)[1..] == s;
    }
  }

  /** `Sort` is a permutation. */
  lemma {:induction false} SortPermutes(key: SortKey, s: seq<Product>)
    ensures multiset(Sort(key, s)) == multiset(s)
  {
    if s != [] {
      SortPermutes(key, s[1..]);
      InsertPermutes(key, s[0], Sort(key, s[1..]));
      assert s == [s[0]] + s[1..];
    }
  }

  /** `Sort` orders by rank. */
  lemma {:induction false} SortSorted(key: SortKey, s: seq<Product>)
    ensures SortedBy(key, Sort(key, s))
  {
    if s != [] {
      SortSorted(key, s[1..]);
      InsertSorted(key, s[0], Sort(key, s[1..]));
    }
  }

  /** `Sort` is stable: the elements of each rank appear in their original order. */
  lemma {:induction false} SortStable(key: SortKey, s: seq<Product>, r: real)
    ensures WithRank(key, Sort(key, s), r) == WithRank(key, s, r)
  {
    if s != [] {
      SortStable(key, s[1..], r);
      InsertStable(key, s[0], Sort(key, s[1..]), r);
    }
  }

  /**
   * For every key the result is a permutation of the input; "price-low" orders
   * by non-decreasing price, "price-high" by non-increasing price, "rating" by
   * non-increasing rating with a missing rating counted as 0; items that compare
   * equal keep their input order; every other key returns the input as it is.
   */
  lemma SortItemsCorrect(items: seq<Product>, sortBy: string)
    ensures multiset(SortItems(items, sortBy)) == multiset(items)
    ensures sortBy == "price-low" ==> forall i, j :: 0 <= i < j < |items| ==>
      GetPrice(SortItems(items, sortBy)[i]) <= GetPrice(SortItems(items, sortBy)[j])
    ensures sortBy == "price-high" ==> forall i, j :: 0 <= i < j < |items| ==>
      GetPrice(SortItems(items, sortBy)[i]) >= GetPrice(SortItems(items, sortBy)[j])
    ensures sortBy == "rating" ==> forall i, j :: 0 <= i < j < |items| ==>
      SortItems(items, sortBy)[i].rating.GetOr(0.0) >= SortItems(items, sortBy)[j].rating.GetOr(0.0)
    ensures KeyFor(sortBy).Some? ==>
      forall r :: WithRank(KeyFor(sortBy).value, SortItems(items, sortBy), r) == WithRank(KeyFor(sortBy).value, items, r)
    ensures KeyFor(sortBy).None? ==> SortItems(items, sortBy) == items
  {
    if KeyFor(sortBy).Some? {
      var key := KeyFor(sortBy).value;
      SortPermutes(key, items);
      SortSorted(key, items);
      forall r ensures WithRank(key, SortItems(items, sortBy), r) == WithRank(key, items, r) {
        SortStable(key, items, r);
      }
    }
  }

  /** The shipped "popular" and "default" keys leave the order as it is. */
  lemma UnsortedKeys(items: seq<Product>)
    ensures SortItems(items, "popular") == items && SortItems(items, "default") == items
  {
  }
}
