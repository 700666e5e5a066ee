/**
 * The store's cart slice: Immer-style reducers that change `items`, `loading`
 * and `error` in place, and the loading/error transitions of the cart fetch.
 */
module CartSlice {
  import opened Wrappers

  /** A cart entry: the payload's fields (`title` stands for the rest) and its quantity. */
  datatype Item = Item(id: int, title: string, quantity: int)

  predicate HasId(items: seq<Item>, id: int) {
    exists k :: 0 <= k < |items| && items[k].id == id
  }

  predicate DistinctIds(items: seq<Item>) {
    forall i, j :: 0 <= i < j < |items| ==> items[i].id != items[j].id
  }

  /** Where `items.find(item => item.id === id)` stops: the first entry with `id`, or `|items|`. */
  function FirstIndex(items: seq<Item>, id: int): (k: nat)
    ensures k <= |items|
    ensures forall j :: 0 <= j < k ==> items[j].id != id
    ensures k < |items| <==> HasId(items, id)
    ensures k < |items| ==> items[k].id == id
  {
    if items == [] then 0
    else if items[0].id == id then 0
    else
      var k := 1 + FirstIndex(items[1..], id);
      assert forall j :: 1 <= j < |items| ==> items[j] == items[1..][j - 1];
      k
  }

  /** The items after `addToCart(payload)`. */
  function Added(items: seq<Item>, payload: Item): seq<Item> {
    var k := FirstIndex(items, payload.id);
    if k < |items| then items[k := items[k].(quantity := items[k].quantity + 1)]
    else items + [payload.(quantity := 1)]
  }

  /** The items after `updateQuantity({id, quantity})`. */
  function Updated(items: seq<Item>, id: int, quantity: int): seq<Item> {
    var k := FirstIndex(items, id);
    if k < |items| then items[k := items[k].(quantity := quantity)] else items
  }

  /** `items.filter(item => item.id !== id)` */
  function Removed(items: seq<Item>, id: int): seq<Item> {
    if items == [] then []
    else (if items[0].id == id then [] else [items[0]]) + Removed(items[1..], id)
  }

  /**
   * `addToCart` changes only the first entry with the payload's id, by exactly +1
   * whatever the payload's quantity; a new id is pushed at the end with quantity 1.
   */
  lemma AddedEffect(items: seq<Item>, payload: Item)
    ensures HasId(items, payload.id) ==>
      var k := FirstIndex(items, payload.id);
      var r := Added(items, payload);
      |r| == |items| && r[k].quantity == items[k].quantity + 1 && r[k].id == items[k].id &&
      r[k].title == items[k].title &&
      forall j :: 0 <= j < |items| && j != k ==> r[j] == items[j]
    ensures !HasId(items, payload.id) ==> Added(items, payload) == items + [payload.(quantity := 1)]
    ensures forall id :: HasId(Added(items, payload), id) <==> HasId(items, id) || id == payload.id
  {
    var r := Added(items, payload);
    forall id ensures HasId(r, id) <==> HasId(items, id) || id == payload.id {
      if HasId(r, id) {
        var j :| 0 <= j < |r| && r[j].id == id;
        if j < |items| && r[j].id == items[j].id {
          assert items[j].id == id;
        }
      }
      if HasId(items, id) {
        var j :| 0 <= j < |items| && items[j].id == id;
        assert r[j].id == id;
      }
      if id == payload.id {
        var k := FirstIndex(items, payload.id);
        assert r[k].id == id;
      }
    }
  }

  /** Because it searches before pushing, `addToCart` keeps ids pairwise distinct. */
  lemma AddedKeepsDistinct(items: seq<Item>, payload: Item)
    requires DistinctIds(items)
    ensures DistinctIds(Added(items, payload))
  {
    var r := Added(items, payload);
    var k := FirstIndex(items, payload.id);
    if k == |items| {
      forall i, j | 0 <= i < j < |r| ensures r[i].id != r[j].id {
        if j == |items| {
          assert r[i] == items[i];
        }
      }
    }
  }

  /**
   * `updateQuantity` stores the payload's quantity as given, with no clamping and
   * no removal, in the first entry with that id; a missing id changes nothing.
   */
  lemma UpdatedEffect(items: seq<Item>, id: int, q: int)
    ensures !HasId(items, id) ==> Updated(items, id, q) == items
    ensures HasId(items, id) ==>
      var k := FirstIndex(items, id);
      var r := Updated(items, id, q);
      |r| == |items| && r[k] == items[k].(quantity := q) &&
      forall j :: 0 <= j < |items| && j != k ==> r[j] == items[j]
    ensures DistinctIds(items) ==> DistinctIds(Updated(items, id, q))
  {
  }

  /** `removeFromCart` drops every entry with the id and keeps the others in order. */
  lemma {:induction false} RemovedEffect(items: seq<Item>, id: int)
    ensures forall x :: x in Removed(items, id) <==> x in items && x.id != id
    ensures !HasId(Removed(items, id), id)
    ensures !HasId(items, id) ==> Removed(items, id) == items
  {
    if items != [] {
      RemovedEffect(items[1..], id);
      assert items == [items[0]] + items[1..];
      if !HasId(items, id) {
        assert !HasId(items[1..], id) by {
          forall k | 0 <= k < |items[1..]| ensures items[1..][k].id != id {
            assert items[1..][k] == items[k + 1];
          }
        }
      }
    }
  }

  /** Filtering distributes over concatenation: the kept entries stay in their order. */
  lemma {:induction false} RemovedAppend(a: seq<Item>, b: seq<Item>, id: int)
    ensures Removed(a + b, id) == Removed(a, id) + Removed(b, id)
  {
    if a != [] {
      assert (a + b)[1..] == a[1..] + b;
      RemovedAppend(a[1..], b, id);
    } else {
      assert a + b == b;
    }
  }

  lemma {:induction false} RemovedKeepsDistinct(items: seq<Item>, id: int)
    requires DistinctIds(items)
    ensures DistinctIds(Removed(items, id))
  {
    if items != [] {
      RemovedKeepsDistinct(items[1..], id);
      RemovedEffect(items[1..], id);
      var rest := Removed(items[1..], id);
      if items[0].id != id {
        forall j | 0 <= j < |rest| ensures rest[j].id != items[0].id {
          assert rest[j] in items[1..];
          var m :| 0 <= m < |items[1..]| && items[1..][m] == rest[j];
          assert items[m + 1] == rest[j];
        }
      }
    }
  }

  /** The slice state; the reducers below change it in place. */
  class Slice {
    var items: seq<Item>
    var loading: bool
    var error: Option<string>

    /** `initialState` */
    constructor ()
      ensures items == [] && !loading && error == None
    {
      items, loading, error := [], false, None;
    }

    method AddToCart(payload: Item)
      modifies this
      ensures items == Added(old(items), payload)
      ensures loading == old(loading) && error == old(error)
    {
      var k := FirstIndex(items, payload.id);
      if k < |items| {
        items := items[k := items[k].(quantity := items[k].quantity + 1)];
      } else {
        items := items + [payload.(quantity := 1)];
      }
    }

    method RemoveFromCart(id: int)
      modifies this
      ensures items == Removed(old(items), id)
      ensures loading == old(loading) && error == old(error)
    {
      items := Removed(items, id);
    }

    method UpdateQuantity(id: int, quantity: int)
      modifies this
      ensures items == Updated(old(items), id, quantity)
      ensures loading == old(loading) && error == old(error)
    {
      var k := FirstIndex(items, id);
      if k < |items| {
        items := items[k := items[k].(quantity := quantity)];
      }
    }

    /** `clearCart` empties items; `loading` and `error` stay. */
    method ClearCart()
      modifies this
      ensures items == [] && loading == old(loading) && error == old(error)
    {
      items := [];
    }

    /** The fetch started: only `loading` changes. */
    method FetchPending()
      modifies this
      ensures loading && items == old(items) && error == old(error)
    {
      loading := true;
    }

    /** The fetch delivered: items are replaced and loading ends; an earlier error stays. */
    method FetchFulfilled(payload: seq<Item>)
      modifies this
      ensures items == payload && !loading && error == old(error)
    {
      items := payload;
      loading := false;
    }

    /** The fetch failed: the message is stored, loading ends, items stay. */
    method FetchRejected(message: string)
      modifies this
      ensures error == Some(message) && !loading && items == old(items)
    {
      error := Some(message);
      loading := false;
    }
  }
}
