/**
 * The cart context: a reducer over `{items, orders, discount}` with six actions,
 * the provider that holds the state and exposes one wrapper per action, and the
 * provider's subtotal, total and item-count reductions.
 */
module CartContext {

  /** A cart entry: the added item's fields, spread, with its quantity. */
  datatype Line = Line(id: int, title: string, price: real, finalPrice: real, quantity: int)

  /** An order record passed to `addOrder`; its contents are the caller's. */
  datatype Order = Order(orderId: string, items: seq<Line>, total: real)

  datatype CartState = CartState(items: seq<Line>, orders: seq<Order>, discount: real)

  /** The reducer's actions; `Other` stands for any action type it does not know. */
  datatype Action =
    | AddToCart(item: Line)
    | RemoveFromCart(id: int)
    | UpdateQuantity(id: int, quantity: int)
    | ClearCart
    | ApplyDiscount(discount: real)
    | AddOrder(order: Order)
    | Other(tag: string)

  /** The state `useReducer` starts from. */
  const INITIAL_STATE: CartState := CartState([], [], 0.0)

  predicate HasId(items: seq<Line>, id: int) {
    exists k :: 0 <= k < |items| && items[k].id == id
  }

  predicate DistinctIds(items: seq<Line>) {
    forall i, j :: 0 <= i < j < |items| ==> items[i].id != items[j].id
  }

  predicate AllPositive(items: seq<Line>) {
    forall k :: 0 <= k < |items| ==> items[k].quantity >= 1
  }

  /** `items.map(item => item.id === id ? {...item, quantity: item.quantity + 1} : item)` */
  function IncrementId(items: seq<Line>, id: int): seq<Line> {
    seq(|items|, k requires 0 <= k < |items| =>
      if items[k].id == id then items[k].(quantity := items[k].quantity + 1) else items[k])
  }

  /** `items.map(item => item.id === id ? {...item, quantity} : item)` */
  function SetQuantity(items: seq<Line>, id: int, quantity: int): seq<Line> {
    seq(|items|, k requires 0 <= k < |items| =>
      if items[k].id == id then items[k].(quantity := quantity) else items[k])
  }

  /** `items.filter(item => item.id !== id)` */
  function RemoveId(items: seq<Line>, id: int): seq<Line> {
    if items == [] then []
    else (if items[0].id == id then [] else [items[0]]) + RemoveId(items[1..], id)
  }

  /** `cartReducer` */
  function Reduce(s: CartState, a: Action): CartState {
    match a
    case AddToCart(item) =>
      if HasId(s.items, item.id) then s.(items := IncrementId(s.items, item.id))
      else s.(items := s.items + [item.(quantity := 1)])
    case RemoveFromCart(id) => s.(items := RemoveId(s.items, id))
    case UpdateQuantity(id, q) => s.(items := SetQuantity(s.items, id, q))
    case ClearCart => s.(items := [])
    case ApplyDiscount(d) => s.(discount := d)
    case AddOrder(o) => s.(orders := [o] + s.orders, items := [])
    case Other(_) => s
  }

  /** The provider's `updateQuantity`: a quantity below 1 becomes a removal. */
  function UpdateQuantityWrapper(s: CartState, id: int, quantity: int): CartState {
    if quantity < 1 then Reduce(s, RemoveFromCart(id)) else Reduce(s, UpdateQuantity(id, quantity))
  }

  /** `getSubtotal`: the sum of finalPrice × quantity. */
  function Subtotal(items: seq<Line>): real {
    if items == [] then 0.0 else items[0].finalPrice * items[0].quantity as real + Subtotal(items[1..])
  }

  /** `getItemCount`: the sum of the quantities. */
  function ItemCount(items: seq<Line>): int {
    if items == [] then 0 else items[0].quantity + ItemCount(items[1..])
  }

  /** `getTotal`: the subtotal less the discount percentage; no fee, no tax. */
  function Total(items: seq<Line>, discount: real): real {
    Subtotal(items) - Subtotal(items) * discount / 100.0
  }

  /** How many entries carry `id`. */
  function CountId(items: seq<Line>, id: int): nat {
    if items == [] then 0 else (if items[0].id == id then 1 else 0) + CountId(items[1..], id)
  }

  /** The sum of the finalPrice of the entries carrying `id`. */
  function PriceOfId(items: seq<Line>, id: int): real {
    if items == [] then 0.0 else (if items[0].id == id then items[0].finalPrice else 0.0) + PriceOfId(items[1..], id)
  }

  // ---------------------------------------------------------------- ADD_TO_CART

  /**
   * ADD_TO_CART with a present id raises the matching entries' quantities by
   * exactly 1 whatever the payload's quantity, and adds nothing; with a new id it
   * appends the payload with quantity 1. Discount and orders are untouched.
   */
  lemma AddToCartEffect(s: CartState, item: Line)
    ensures Reduce(s, AddToCart(item)).discount == s.discount
    ensures Reduce(s, AddToCart(item)).orders == s.orders
    ensures HasId(s.items, item.id) ==>
      var r := Reduce(s, AddToCart(item)).items;
      |r| == |s.items| &&
      forall k :: 0 <= k < |r| ==>
        r[k] == if s.items[k].id == item.id then s.items[k].(quantity := s.items[k].quantity + 1) else s.items[k]
    ensures !HasId(s.items, item.id) ==>
      Reduce(s, AddToCart(item)).items == s.items + [item.(quantity := 1)]
  {
  }

  lemma {:induction false} IncrementIdSums(items: seq<Line>, id: int)
    ensures ItemCount(IncrementId(items, id)) == ItemCount(items) + CountId(items, id)
    ensures Subtotal(IncrementId(items, id)) == Subtotal(items) + PriceOfId(items, id)
  {
    if items != [] {
      IncrementIdSums(items[1..], id);
      assert IncrementId(items, id)[1..] == IncrementId(items[1..], id);
      var h := IncrementId(items, id)[0];
      if items[0].id == id {
        assert h.finalPrice * h.quantity as real == items[0].finalPrice * items[0].quantity as real + items[0].finalPrice;
      }
    }
  }

  lemma {:induction false} SumsAppend(a: seq<Line>, b: seq<Line>)
    ensures ItemCount(a + b) == ItemCount(a) + ItemCount(b)
    ensures Subtotal(a + b) == Subtotal(a) + Subtotal(b)
  {
    if a != [] {
      assert (a + b)[1..] == a[1..] + b;
      SumsAppend(a[1..], b);
    } else {
      assert a + b == b;
    }
  }

  /** With distinct ids, an id occurs at most once; at the entry that carries it, once. */
  lemma {:induction false} DistinctIdOccursOnce(items: seq<Line>, k: nat)
    requires DistinctIds(items) && k < |items|
    ensures CountId(items, items[k].id) == 1
    ensures PriceOfId(items, items[k].id) == items[k].finalPrice
  {
    if k == 0 {
      AbsentIdCounts(items[1..], items[0].id);
    } else {
      DistinctIdOccursOnce(items[1..], k - 1);
    }
  }

  lemma {:induction false} AbsentIdCounts(items: seq<Line>, id: int)
    requires forall k :: 0 <= k < |items| ==> items[k].id != id
    ensures CountId(items, id) == 0 && PriceOfId(items, id) == 0.0
  {
    if items != [] {
      AbsentIdCounts(items[1..], id);
    }
  }

  /**
   * In a cart with distinct ids, ADD_TO_CART raises the item count by exactly 1
   * and the subtotal by one unit of the entry's stored finalPrice (the payload's
   * when the id is new).
   */
  lemma AddToCartTotals(s: CartState, item: Line)
    requires DistinctIds(s.items)
    ensures ItemCount(Reduce(s, AddToCart(item)).items) == ItemCount(s.items) + 1
    ensures forall k :: 0 <= k < |s.items| && s.items[k].id == item.id ==>
      Subtotal(Reduce(s, AddToCart(item)).items) == Subtotal(s.items) + s.items[k].finalPrice
    ensures !HasId(s.items, item.id) ==>
      Subtotal(Reduce(s, AddToCart(item)).items) == Subtotal(s.items) + item.finalPrice
  {
    IncrementIdSums(s.items, item.id);
    SumsAppend(s.items, [item.(quantity := 1)]);
    if k :| 0 <= k < |s.items| && s.items[k].id == item.id {
      DistinctIdOccursOnce(s.items, k);
      forall j | 0 <= j < |s.items| && s.items[j].id == item.id
        ensures j == k
      {
      }
    }
  }

  // ------------------------------------------------------------ REMOVE_FROM_CART

  /**
   * REMOVE_FROM_CART keeps exactly the entries with another id, in their order:
   * filtering distributes over concatenation, and an absent id changes nothing.
   */
  lemma {:induction false} RemoveIdEffect(items: seq<Line>, id: int)
    ensures forall x :: x in RemoveId(items, id) <==> x in items && x.id != id
    ensures !HasId(RemoveId(items, id), id)
    ensures !HasId(items, id) ==> RemoveId(items, id) == items
    ensures |RemoveId(items, id)| + CountId(items, id) == |items|
  {
    if items != [] {
      RemoveIdEffect(items[1..], id);
      assert items == [items[0]] + items[1..];
      if !HasId(items, id) {
        assert !HasId(items[1..], id) by {
          forall k | 0 <= k < |items[1..]| ensures items[1..][k].id != id {
            assert items[1..][k] == items[k + 1];
          }
        }
      }
    }
  }

  lemma {:induction false} RemoveIdAppend(a: seq<Line>, b: seq<Line>, id: int)
    ensures RemoveId(a + b, id) == RemoveId(a, id) + RemoveId(b, id)
  {
    if a != [] {
      assert (a + b)[1..] == a[1..] + b;
      RemoveIdAppend(a[1..], b, id);
    } else {
      assert a + b == b;
    }
  }

  lemma {:induction false} RemoveIdKeepsDistinct(items: seq<Line>, id: int)
    requires DistinctIds(items)
    ensures DistinctIds(RemoveId(items, id))
  {
    if items != [] {
      TailDistinct(items);
      RemoveIdKeepsDistinct(items[1..], id);
      RemoveIdEffect(items[1..], id);
      var rest := RemoveId(items[1..], id);
      if items[0].id != id {
        forall j | 0 <= j < |rest| ensures rest[j].id != items[0].id {
          assert rest[j] in items[1..];
          var m :| 0 <= m < |items[1..]| && items[1..][m] == rest[j];
          assert items[m + 1] == rest[j];
        }
        ConsDistinct(items[0], rest);
      }
    }
  }

  lemma TailDistinct(items: seq<Line>)
    requires items != [] && DistinctIds(items)
    ensures DistinctIds(items[1..])
  {
    forall i, j | 0 <= i < j < |items[1..]| ensures items[1..][i].id != items[1..][j].id {
      assert items[1..][i] == items[i + 1] && items[1..][j] == items[j + 1];
    }
  }

  lemma ConsDistinct(x: Line, rest: seq<Line>)
    requires DistinctIds(rest)
    requires forall j :: 0 <= j < |rest| ==> rest[j].id != x.id
    ensures DistinctIds([x] + rest)
  {
    var t := [x] + rest;
    forall i, j | 0 <= i < j < |t| ensures t[i].id != t[j].id {
      assert t[j] == rest[j - 1];
      if i > 0 {
        assert t[i] == rest[i - 1];
      }
    }
  }

  lemma {:induction false} RemoveIdKeepsPositive(items: seq<Line>, id: int)
    requires AllPositive(items)
    ensures AllPositive(RemoveId(items, id))
  {
    RemoveIdEffect(items, id);
    var r := RemoveId(items, id);
    forall k | 0 <= k < |r| ensures r[k].quantity >= 1 {
      assert r[k] in items;
    }
  }

  // ---------------------------------------------- UPDATE_QUANTITY and its wrapper

  /**
   * UPDATE_QUANTITY sets exactly the matching entries' quantity, to the value given
   * (which may be below 1: the reducer itself does not guard).
   */
  lemma UpdateQuantityEffect(s: CartState, id: int, q: int)
    ensures var r := Reduce(s, UpdateQuantity(id, q));
      r.discount == s.discount && r.orders == s.orders && |r.items| == |s.items| &&
      forall k :: 0 <= k < |r.items| ==>
        r.items[k] == if s.items[k].id == id then s.items[k].(quantity := q) else s.items[k]
    ensures HasId(s.items, id) && q < 1 ==> !AllPositive(Reduce(s, UpdateQuantity(id, q)).items)
  {
  }

  /**
   * Through the provider's wrapper a quantity below 1 removes the id, any other
   * quantity is stored as given; so the wrapper never leaves an entry below 1,
   * and never breaks id distinctness.
   */
  lemma UpdateQuantityWrapperEffect(s: CartState, id: int, q: int)
    ensures q < 1 ==> !HasId(UpdateQuantityWrapper(s, id, q).items, id)
    ensures q >= 1 ==> forall k :: 0 <= k < |s.items| && s.items[k].id == id ==>
      UpdateQuantityWrapper(s, id, q).items[k].quantity == q
    ensures AllPositive(s.items) ==> AllPositive(UpdateQuantityWrapper(s, id, q).items)
    ensures DistinctIds(s.items) ==> DistinctIds(UpdateQuantityWrapper(s, id, q).items)
  {
    RemoveIdEffect(s.items, id);
    if AllPositive(s.items) {
      RemoveIdKeepsPositive(s.items, id);
    }
    if DistinctIds(s.items) {
      RemoveIdKeepsDistinct(s.items, id);
    }
  }

  // ------------------------------------------------------------ the other actions

  /**
   * CLEAR_CART empties items and keeps discount and orders; APPLY_DISCOUNT
   * replaces the discount outright, so the last one applied wins; ADD_ORDER puts
   * the order in front of the earlier ones and empties items; any other action
   * returns the state itself.
   */
  lemma OtherActionsEffect(s: CartState, d1: real, d2: real, o: Order, tag: string)
    ensures Reduce(s, ClearCart) == CartState([], s.orders, s.discount)
    ensures Reduce(Reduce(s, ApplyDiscount(d1)), ApplyDiscount(d2)) == Reduce(s, ApplyDiscount(d2))
    ensures Reduce(s, ApplyDiscount(d1)) == s.(discount := d1)
    ensures Reduce(s, AddOrder(o)) == CartState([], [o] + s.orders, s.discount)
    ensures Reduce(s, AddOrder(o)).orders[1..] == s.orders
    ensures Reduce(s, Other(tag)) == s
  {
  }

  /** Every action keeps the ids of a cart pairwise distinct. */
  lemma ReduceKeepsDistinct(s: CartState, a: Action)
    requires DistinctIds(s.items)
    ensures DistinctIds(Reduce(s, a).items)
  {
    match a
    case RemoveFromCart(id) => RemoveIdKeepsDistinct(s.items, id);
    case AddToCart(item) =>
      if !HasId(s.items, item.id) {
        var r := Reduce(s, a).items;
        forall i, j | 0 <= i < j < |r| ensures r[i].id != r[j].id {
          if j == |s.items| {
            assert r[i] == s.items[i];
          }
        }
      }
    case _ =>
  }

  // ------------------------------------------------------------- the reductions

  lemma {:induction false} SubtotalNonNegative(items: seq<Line>)
    requires forall k :: 0 <= k < |items| ==> items[k].finalPrice >= 0.0 && items[k].quantity >= 0
    ensures Subtotal(items) >= 0.0
  {
    if items != [] {
      SubtotalNonNegative(items[1..]);
    }
  }

  /**
   * For non-negative prices and quantities and a discount in [0, 100], the total
   * lies between 0 and the subtotal; an empty cart has subtotal, total and item
   * count 0.
   */
  lemma TotalBounds(items: seq<Line>, discount: real)
    requires forall k :: 0 <= k < |items| ==> items[k].finalPrice >= 0.0 && items[k].quantity >= 0
    requires 0.0 <= discount <= 100.0
    ensures 0.0 <= Total(items, discount) <= Subtotal(items)
    ensures Total([], discount) == 0.0 && Subtotal([]) == 0.0 && ItemCount([]) == 0
  {
    SubtotalNonNegative(items);
    var sub := Subtotal(items);
    assert sub * discount / 100.0 <= sub by {
      assert sub * discount <= sub * 100.0;
    }
    assert sub * discount / 100.0 >= 0.0;
  }

  // ---------------------------------------------------------------- the provider

  /** The provider: the reducer's held state, advanced by the exposed wrappers. */
  class CartProvider {
    var state: CartState

    /** What the wrappers maintain: distinct ids and no entry below quantity 1. */
    ghost predicate Valid()
      reads this
    {
      DistinctIds(state.items) && AllPositive(state.items)
    }

    constructor ()
      ensures state == INITIAL_STATE && Valid()
    {
      state := INITIAL_STATE;
    }

    method AddToCart(item: Line)
      requires Valid()
      modifies this
      ensures state == Reduce(old(state), Action.AddToCart(item)) && Valid()
    {
      ReduceKeepsDistinct(state, Action.AddToCart(item));
      state := Reduce(state, Action.AddToCart(item));
    }

    method RemoveFromCart(id: int)
      requires Valid()
      modifies this
      ensures state == Reduce(old(state), Action.RemoveFromCart(id)) && Valid()
    {
      RemoveIdKeepsDistinct(state.items, id);
      RemoveIdKeepsPositive(state.items, id);
      state := Reduce(state, Action.RemoveFromCart(id));
    }

    method UpdateQuantity(id: int, quantity: int)
      requires Valid()
      modifies this
      ensures state == UpdateQuantityWrapper(old(state), id, quantity) && Valid()
    {
      UpdateQuantityWrapperEffect(state, id, quantity);
      if quantity < 1 {
        RemoveFromCart(id);
        return;
      }
      state := Reduce(state, Action.UpdateQuantity(id, quantity));
    }

    method ClearCart()
      requires Valid()
      modifies this
      ensures state == Reduce(old(state), Action.ClearCart) && Valid()
    {
      state := Reduce(state, Action.ClearCart);
    }

    method ApplyDiscount(discount: real)
      requires Valid()
      modifies this
      ensures state == Reduce(old(state), Action.ApplyDiscount(discount)) && Valid()
    {
      state := Reduce(state, Action.ApplyDiscount(discount));
    }

    method AddOrder(order: Order)
      requires Valid()
      modifies this
      ensures state == Reduce(old(state), Action.AddOrder(order)) && Valid()
    {
      state := Reduce(state, Action.AddOrder(order));
    }
  }
}
