/**
 * The cart of the store: a sequence of (product id, count) records and the
 * four operations that rebuild it (js/store.js, addToCart, removeFromCart,
 * incrementAmountInCart, decrementAmountInCart), with the cart counter.
 */
module Cart {
  import opened Collections

  datatype CartItem = CartItem(id: int, count: int)

  /** `find(item => item.id === id)` succeeds: scanning from the front meets an item carrying `id`. */
  function HasItem(items: seq<CartItem>, id: int): (found: bool)
    ensures found <==> exists i :: 0 <= i < |items| && items[i].id == id
  {
    if items == [] then false
    else if items[0].id == id then true
    else
      assert forall i :: 1 <= i < |items| ==> items[i] == items[1..][i - 1];
      HasItem(items[1..], id)
  }

  /** At most one item per product id. */
  ghost predicate UniqueIds(items: seq<CartItem>) {
    forall i, j :: 0 <= i < j < |items| ==> items[i].id != items[j].id
  }

  /** Every count is at least one. */
  ghost predicate CountsPositive(items: seq<CartItem>) {
    forall i :: 0 <= i < |items| ==> items[i].count >= 1
  }

  /** `Math.max(count - 1, 1)`. */
  function DecrementedCount(count: int): (r: int)
    ensures r >= 1
    ensures r == count - 1 || r == 1
    ensures count > 1 ==> r == count - 1
  {
    if count - 1 >= 1 then count - 1 else 1
  }

  /** Each item with `id` gets its count raised by one; everything else stays. */
  function Incremented(items: seq<CartItem>, id: int): (r: seq<CartItem>)
    ensures |r| == |items|
    ensures forall i :: 0 <= i < |items| ==>
      r[i] == if items[i].id == id then items[i].(count := items[i].count + 1) else items[i]
  {
    if items == [] then []
    else
      var head := if items[0].id == id then items[0].(count := items[0].count + 1) else items[0];
      [head] + Incremented(items[1..], id)
  }

  /** Each item with `id` gets its count lowered by one, but not below one; everything else stays. */
  function Decremented(items: seq<CartItem>, id: int): (r: seq<CartItem>)
    ensures |r| == |items|
    ensures forall i :: 0 <= i < |items| ==>
      r[i] == if items[i].id == id then items[i].(count := DecrementedCount(items[i].count)) else items[i]
  {
    if items == [] then []
    else
      var head := if items[0].id == id then items[0].(count := DecrementedCount(items[0].count)) else items[0];
      [head] + Decremented(items[1..], id)
  }

  /** The items whose id is not `id`, in their original order. */
  function Removed(items: seq<CartItem>, id: int): (r: seq<CartItem>)
    ensures !HasItem(r, id)
    ensures forall item :: item in r <==> item in items && item.id != id
    ensures IsSubsequence(r, items)
    ensures !HasItem(items, id) ==> r == items
    ensures HasItem(items, id) ==> |r| < |items|
  {
    if items == [] then []
    else if items[0].id == id then Removed(items[1..], id)
    else [items[0]] + Removed(items[1..], id)
  }

  /** Removing keeps every item with another id as many times as the cart holds it. */
  lemma {:induction false} RemovedMultiplicity(items: seq<CartItem>, id: int, item: CartItem)
    requires item.id != id
    ensures multiset(Removed(items, id))[item] == multiset(items)[item]
  {
    if items != [] {
      RemovedMultiplicity(items[1..], id, item);
      assert items == [items[0]] + items[1..];
      if items[0].id != id {
        assert Removed(items, id) == [items[0]] + Removed(items[1..], id);
      }
    }
  }

  /** Bump the count of the item with `id`, or append a new item with count one. */
  function Added(items: seq<CartItem>, id: int): (r: seq<CartItem>)
    ensures HasItem(r, id)
  {
    if HasItem(items, id) then Incremented(items, id)
    else
      var r := items + [CartItem(id, 1)];
      assert r[|items|].id == id;
      r
  }

  /**
   * The cart counter: the sum of all counts. With counts of at least one it
   * is at least the number of items.
   */
  function CartCount(items: seq<CartItem>): (total: int)
    ensures CountsPositive(items) ==> total >= |items|
  {
    if items == [] then 0 else items[0].count + CartCount(items[1..])
  }

  // ---- addToCart, case by case ----

  /** Adding an id that is not in the cart appends it with count one and keeps the rest. */
  lemma AddedAbsent(items: seq<CartItem>, id: int)
    requires !HasItem(items, id)
    ensures |Added(items, id)| == |items| + 1
    ensures Added(items, id)[..|items|] == items
    ensures Added(items, id)[|items|] == CartItem(id, 1)
  {
  }

  /**
   * Adding an id that is in the cart raises that item's count by exactly one
   * and keeps length, order and every other item.
   */
  lemma AddedPresent(items: seq<CartItem>, id: int, k: int)
    requires 0 <= k < |items| && items[k].id == id
    requires UniqueIds(items)
    ensures |Added(items, id)| == |items|
    ensures Added(items, id)[k] == CartItem(id, items[k].count + 1)
    ensures forall i :: 0 <= i < |items| && i != k ==> Added(items, id)[i] == items[i]
  {
  }

  // ---- the invariants: unique ids and positive counts ----

  lemma IncrementedKeepsInvariants(items: seq<CartItem>, id: int)
    ensures UniqueIds(items) ==> UniqueIds(Incremented(items, id))
    ensures CountsPositive(items) ==> CountsPositive(Incremented(items, id))
  {
  }

  lemma DecrementedKeepsInvariants(items: seq<CartItem>, id: int)
    ensures UniqueIds(items) ==> UniqueIds(Decremented(items, id))
    ensures CountsPositive(items) ==> CountsPositive(Decremented(items, id))
  {
  }

  lemma AddedKeepsInvariants(items: seq<CartItem>, id: int)
    ensures UniqueIds(items) ==> UniqueIds(Added(items, id))
    ensures CountsPositive(items) ==> CountsPositive(Added(items, id))
  {
  }

  lemma RemovedKeepsInvariants(items: seq<CartItem>, id: int)
    ensures UniqueIds(items) ==> UniqueIds(Removed(items, id))
    ensures CountsPositive(items) ==> CountsPositive(Removed(items, id))
  {
    if UniqueIds(items) {
      RemovedKeepsUniqueIds(items, id);
    }
  }

  lemma {:induction false} RemovedKeepsUniqueIds(items: seq<CartItem>, id: int)
    requires UniqueIds(items)
    ensures UniqueIds(Removed(items, id))
  {
    if items != [] {
      var tail := items[1..];
      assert UniqueIds(tail) by {
        forall i, j | 0 <= i < j < |tail| ensures tail[i].id != tail[j].id {
          assert tail[i] == items[i + 1] && tail[j] == items[j + 1];
        }
      }
      RemovedKeepsUniqueIds(tail, id);
      if items[0].id != id {
        var rest, r := Removed(tail, id), Removed(items, id);
        assert r == [items[0]] + rest;
        forall i, j | 0 <= i < j < |r| ensures r[i].id != r[j].id {
          assert r[j] == rest[j - 1];
          if i == 0 {
            assert rest[j - 1] in tail;
            var k :| 0 <= k < |tail| && tail[k] == rest[j - 1];
            assert items[k + 1] == r[j];
          } else {
            assert r[i] == rest[i - 1];
          }
        }
      }
    }
  }

  // ---- no-ops ----

  /** Incrementing or decrementing an id that is not in the cart changes nothing. */
  lemma AbsentIsNoOp(items: seq<CartItem>, id: int)
    requires !HasItem(items, id)
    ensures Incremented(items, id) == items
    ensures Decremented(items, id) == items
  {
  }

  /** Decrementing an item whose count is one changes nothing. */
  lemma DecrementAtOneIsNoOp(items: seq<CartItem>, id: int)
    requires forall i :: 0 <= i < |items| && items[i].id == id ==> items[i].count == 1
    ensures Decremented(items, id) == items
  {
  }

  // ---- the cart counter ----

  lemma {:induction false} CartCountAppend(items: seq<CartItem>, item: CartItem)
    ensures CartCount(items + [item]) == CartCount(items) + item.count
  {
    if items != [] {
      assert (items + [item])[1..] == items[1..] + [item];
      CartCountAppend(items[1..], item);
    }
  }

  /** Incrementing a present id raises the cart counter by one (ids unique). */
  lemma {:induction false} CartCountIncremented(items: seq<CartItem>, id: int)
    requires UniqueIds(items)
    ensures CartCount(Incremented(items, id)) == CartCount(items) + if HasItem(items, id) then 1 else 0
  {
    if items != [] {
      var r := Incremented(items, id);
      assert r[1..] == Incremented(items[1..], id);
      CartCountIncremented(items[1..], id);
    }
  }

  /** Adding to the cart always raises the cart counter by one (ids unique). */
  lemma CartCountAdded(items: seq<CartItem>, id: int)
    requires UniqueIds(items)
    ensures CartCount(Added(items, id)) == CartCount(items) + 1
  {
    if HasItem(items, id) {
      CartCountIncremented(items, id);
    } else {
      CartCountAppend(items, CartItem(id, 1));
    }
  }

  /** Removing an id lowers the cart counter by exactly that item's count (ids unique). */
  lemma {:induction false} CartCountRemoved(items: seq<CartItem>, id: int, k: int)
    requires UniqueIds(items)
    requires 0 <= k < |items| && items[k].id == id
    ensures CartCount(Removed(items, id)) == CartCount(items) - items[k].count
  {
    if k == 0 {
      assert !HasItem(items[1..], id);
    } else {
      assert items[1..][k - 1] == items[k];
      CartCountRemoved(items[1..], id, k - 1);
    }
  }
}
