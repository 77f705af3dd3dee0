/**
 * The read-only product catalogue and what the store derives from it: the
 * cart lines (the cart joined with the catalogue), the cart total, the
 * per-line subtotal and the favourites view (js/store.js, getCartItems,
 * getCartTotal, renderCart, renderFavoriteItems).
 */
module Catalog {
  import opened Wrappers
  import opened Collections
  import opened Cart

  /** A catalogue entry; prices are whole non-negative amounts (for instance cents). */
  datatype Product = Product(id: int, price: nat)

  /** A cart item whose id resolved to a product. */
  datatype CartLine = CartLine(product: Product, count: int)

  /** `products.find(p => p.id === id)`: the first product carrying `id`, if any. */
  function FindProduct(products: seq<Product>, id: int): (r: Option<Product>)
    ensures r.None? <==> forall k :: 0 <= k < |products| ==> products[k].id != id
    ensures r.Some? ==> exists k :: 0 <= k < |products| && products[k] == r.value && r.value.id == id &&
                                    forall j :: 0 <= j < k ==> products[j].id != id
  {
    if products == [] then None
    else if products[0].id == id then Some(products[0])
    else
      var r := FindProduct(products[1..], id);
      assert r.Some? ==> exists k :: 0 <= k < |products| && products[k] == r.value && r.value.id == id &&
                                     forall j :: 0 <= j < k ==> products[j].id != id by {
        if r.Some? {
          var k :| 0 <= k < |products[1..]| && products[1..][k] == r.value && r.value.id == id &&
                   forall j :: 0 <= j < k ==> products[1..][j].id != id;
          assert products[k + 1] == r.value;
          assert forall j :: 0 <= j < k + 1 ==> products[j].id != id by {
            forall j | 0 <= j < k + 1 ensures products[j].id != id {
              if j > 0 { assert products[j] == products[1..][j - 1]; }
            }
          }
        }
      }
      r
  }

  /** The price a cart item is charged at: its product's price, or nothing when the id is dangling. */
  function PriceOf(products: seq<Product>, id: int): nat {
    match FindProduct(products, id)
    case Some(p) => p.price
    case None => 0
  }

  /** The cart items a sequence of lines stands for. */
  function LineItems(lines: seq<CartLine>): seq<CartItem> {
    if lines == [] then [] else [CartItem(lines[0].product.id, lines[0].count)] + LineItems(lines[1..])
  }

  /** getCartItems: each cart item joined with its product; items whose id does not resolve are dropped. */
  function CartLines(items: seq<CartItem>, products: seq<Product>): (r: seq<CartLine>)
    ensures |r| <= |items|
    ensures forall line :: line in r ==> FindProduct(products, line.product.id) == Some(line.product)
    ensures forall item :: item in LineItems(r) <==> item in items && FindProduct(products, item.id).Some?
    ensures IsSubsequence(LineItems(r), items)
  {
    if items == [] then []
    else
      var rest := CartLines(items[1..], products);
      match FindProduct(products, items[0].id)
      case Some(p) =>
        var r := [CartLine(p, items[0].count)] + rest;
        assert LineItems(r) == [items[0]] + LineItems(rest);
        r
      case None =>
        assert LineItems(rest) != [] ==> LineItems(rest)[0] != items[0] by {
          if LineItems(rest) != [] { assert LineItems(rest)[0] in LineItems(rest); }
        }
        rest
  }

  /**
   * `count * product.price`, the subtotal shown on a cart line: never negative
   * for a non-negative count, and at least the unit price once the count is one.
   */
  function Subtotal(line: CartLine): (r: int)
    ensures line.count >= 0 ==> r >= 0
    ensures line.count >= 1 ==> r >= line.product.price
  {
    line.product.price * line.count
  }

  /** Sum of the subtotals of the lines. */
  function LinesTotal(lines: seq<CartLine>): int {
    if lines == [] then 0 else Subtotal(lines[0]) + LinesTotal(lines[1..])
  }

  /**
   * getCartTotal: the sum of the subtotals of the cart lines. It is what the
   * reference definition charges, so dangling ids contribute zero.
   */
  function CartTotal(items: seq<CartItem>, products: seq<Product>): (total: int)
    ensures total == ItemsValue(items, products)
  {
    LinesTotalIsItemsValue(items, products);
    LinesTotal(CartLines(items, products))
  }

  /** Reference definition: every cart item charged at its price, dangling ids at zero. */
  function ItemsValue(items: seq<CartItem>, products: seq<Product>): int {
    if items == [] then 0 else PriceOf(products, items[0].id) * items[0].count + ItemsValue(items[1..], products)
  }

  /** The favourites view: the catalogue filtered to favourite ids, in catalogue order. */
  function FavoriteProducts(products: seq<Product>, favorites: seq<int>): (r: seq<Product>)
    ensures forall p :: p in r <==> p in products && p.id in favorites
    ensures forall p: Product :: p.id in favorites ==> multiset(r)[p] == multiset(products)[p]
    ensures IsSubsequence(r, products)
  {
    if products == [] then []
    else
      var rest := FavoriteProducts(products[1..], favorites);
      assert products == [products[0]] + products[1..];
      if products[0].id in favorites then [products[0]] + rest
      else
        assert rest != [] ==> rest[0] != products[0] by {
          if rest != [] { assert rest[0] in rest; }
        }
        rest
  }

  // ---- lemmas ----

  /** Summing the joined lines charges each resolved item its price and each dangling one zero. */
  lemma {:induction false} LinesTotalIsItemsValue(items: seq<CartItem>, products: seq<Product>)
    ensures LinesTotal(CartLines(items, products)) == ItemsValue(items, products)
  {
    if items != [] {
      LinesTotalIsItemsValue(items[1..], products);
    }
  }

  /**
   * The lines keep every resolving cart item as often as the cart holds it
   * (a stored cart may repeat an item) and none of the dangling ones.
   */
  lemma {:induction false} CartLinesMultiplicity(items: seq<CartItem>, products: seq<Product>, item: CartItem)
    ensures multiset(LineItems(CartLines(items, products)))[item]
         == if FindProduct(products, item.id).Some? then multiset(items)[item] else 0
  {
    if items != [] {
      CartLinesMultiplicity(items[1..], products, item);
      var lines, rest := CartLines(items, products), CartLines(items[1..], products);
      assert multiset(items) == multiset{items[0]} + multiset(items[1..]) by {
        assert items == [items[0]] + items[1..];
      }
      match FindProduct(products, items[0].id)
      case Some(p) =>
        assert lines == [CartLine(p, items[0].count)] + rest;
        assert LineItems(lines) == [items[0]] + LineItems(rest);
        assert multiset(LineItems(lines)) == multiset{items[0]} + multiset(LineItems(rest));
      case None =>
        assert lines == rest;
    }
  }

  /** When every id resolves, no item is dropped from the cart lines. */
  lemma {:induction false} AllResolvedKeepsAll(items: seq<CartItem>, products: seq<Product>)
    requires forall i :: 0 <= i < |items| ==> FindProduct(products, items[i].id).Some?
    ensures |CartLines(items, products)| == |items|
  {
    if items != [] {
      AllResolvedKeepsAll(items[1..], products);
    }
  }

  /** A cart whose ids are all dangling has no lines and totals zero. */
  lemma {:induction false} AllDanglingTotalsZero(items: seq<CartItem>, products: seq<Product>)
    requires forall i :: 0 <= i < |items| ==> FindProduct(products, items[i].id).None?
    ensures CartLines(items, products) == []
    ensures CartTotal(items, products) == 0
  {
  }

  lemma {:induction false} ItemsValueAppend(items: seq<CartItem>, item: CartItem, products: seq<Product>)
    ensures ItemsValue(items + [item], products) == ItemsValue(items, products) + PriceOf(products, item.id) * item.count
  {
    if items != [] {
      assert (items + [item])[1..] == items[1..] + [item];
      ItemsValueAppend(items[1..], item, products);
    }
  }

  /** Incrementing a present id raises the total by that product's price (ids unique). */
  lemma {:induction false} CartTotalIncremented(items: seq<CartItem>, id: int, products: seq<Product>)
    requires UniqueIds(items)
    ensures CartTotal(Incremented(items, id), products)
         == CartTotal(items, products) + if HasItem(items, id) then PriceOf(products, id) else 0
  {
    ItemsValueIncremented(items, id, products);
  }

  lemma {:induction false} ItemsValueIncremented(items: seq<CartItem>, id: int, products: seq<Product>)
    requires UniqueIds(items)
    ensures ItemsValue(Incremented(items, id), products)
         == ItemsValue(items, products) + if HasItem(items, id) then PriceOf(products, id) else 0
  {
    if items != [] {
      assert Incremented(items, id)[1..] == Incremented(items[1..], id);
      ItemsValueIncremented(items[1..], id, products);
    }
  }

  /** Adding to the cart raises the total by the added product's price (zero for a dangling id). */
  lemma CartTotalAdded(items: seq<CartItem>, id: int, products: seq<Product>)
    requires UniqueIds(items)
    ensures CartTotal(Added(items, id), products) == CartTotal(items, products) + PriceOf(products, id)
  {
    if HasItem(items, id) {
      CartTotalIncremented(items, id, products);
    } else {
      var added := items + [CartItem(id, 1)];
      assert Added(items, id) == added;
      ItemsValueAppend(items, CartItem(id, 1), products);
      assert PriceOf(products, id) * 1 == PriceOf(products, id);
    }
  }
}
