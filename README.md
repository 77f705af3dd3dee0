# Storefront cart and favourites store

A Dafny model of the state machine inside `initStore` (js/store.js) of a small
client-side storefront widget. The store keeps two pieces of state, the cart
items (`{id, count}` records) and the favourite product ids. It changes them
through five mutators reached from a click dispatcher and derives the cart
lines, the cart total, the two counters and the favourites view from them and
from the read-only product catalogue. After every click on an action element
the dispatcher persists the state. At start-up the state is restored from storage, or it
falls back to the empty state.

Modules, one per concern:

- `Wrappers` (wrappers.dfy): `Option`.
- `Collections` (collections.dfy): `NoDuplicates` and `IsSubsequence` ("these
  elements, in this order").
- `Favorites` (favorites.dfy): the favourites filter and toggle, with their
  lemmas.
- `Cart` (cart.dfy): the cart item record, the four cart rebuilds (add,
  remove, increment, decrement), the cart counter and the cart invariants
  (unique ids, counts of at least one).
- `Catalog` (catalog.dfy): products, the first-match product lookup, the
  join of the cart against the catalogue, the cart total and its reference
  definition, and the favourites view.
- `StoreState` (store.dfy): the persisted state, the action vocabulary, `Resolve`
  (the dispatcher's `switch`), `Step` and `Run` (one click, and a sequence of
  clicks), the storage fallback, and the `Store` class. The class holds the
  fields that the mutators overwrite, with one method per mutator and
  `Dispatch` for the click handler.

Each mutator in the source assigns `state.favorites` or `state.cartItems` a new
value built by `filter`, `map` or spread-append. The class methods do the same
with a pure function of the old value. The relational properties (membership
flip, count ±1 with a clamp, removal by filter, frame conditions and
invariants) are stated on those functions and proved as lemmas.

Ids are `int`. Prices are `nat` (whole amounts, such as cents). Counts are
`int`, because a stored state may hold any count; `Math.max(count - 1, 1)`
clamps any count to at least one.

The action names are those of the code's `ACTIONS` table (js/store.js:50-57);
`setAmountInCart` is declared there but no case of the dispatcher handles it.
The favourites are a sequence. Toggling a present id twice moves it to the
end (`Favorites.ToggleTwicePresent`); the exact sequence comes back only when
the id occurs once and is last (`Favorites.ToggleTwiceRestores`).

## Model

| member | source | states |
|---|---|---|
| `Favorites.Without` | js/store.js:123 | filtering an id out leaves no occurrence of it, keeps every other id with the same multiplicity and in the original order, and shortens the list by the number of occurrences |
| `Favorites.Toggle` | js/store.js:121-125 | toggling flips whether the id is a favourite and leaves every other id's membership alone; an absent id is appended at the end, and a present one is removed (the result is a shorter subsequence) |
| `Favorites.WithoutAbsent` | js/store.js:123 | filtering out an id that does not occur changes nothing |
| `Favorites.WithoutAppended` | js/store.js:122-124 | filtering out an id just appended gives the same as filtering it out before the append |
| `Favorites.ToggleTwiceMembership` | js/store.js:121-125 | two toggles of the same id restore which ids are favourites |
| `Favorites.ToggleTwiceAbsent` | js/store.js:121-125 | two toggles of an id that was not a favourite restore the exact sequence |
| `Favorites.ToggleTwicePresent` | js/store.js:122-124 | two toggles of a present id remove all its occurrences and append it once at the end |
| `Favorites.ToggleTwiceRestores` | js/store.js:122-124 | for a present id, two toggles restore the exact sequence if and only if the id occurs once and is last |
| `Favorites.RestoredOnlyWhenOnceAndLast` | js/store.js:122-124 | if filtering out a present id and appending it gives the list back, the id occurred once and was last |
| `Favorites.RestoredWhenOnceAndLast` | js/store.js:122-124 | if the id occurs once and is last, filtering it out and appending it gives the list back |
| `Favorites.ToggleTwiceReorders` | js/store.js:122-124 | an instance of the reordering: two toggles of 5 turn [5, 6] into [6, 5] |
| `Favorites.ToggleKeepsNoDuplicates` | js/store.js:121-125 | a duplicate-free favourites list stays duplicate-free after a toggle |
| `Favorites.ToggleCounter` | js/store.js:189 | on a duplicate-free list, the favourites counter (its length) goes down by one when the id was a favourite and up by one otherwise |
| `Cart.DecrementedCount` | js/store.js:148 | `Math.max(count - 1, 1)` is at least one, is `count - 1` when `count > 1`, and is 1 otherwise |
| `Cart.Incremented` | js/store.js:139-143 | same length; each item with the id has its count raised by one and every other item is unchanged |
| `Cart.Decremented` | js/store.js:145-151 | same length; each item with the id has its count set to the clamped decrement and every other item is unchanged |
| `Cart.Removed` | js/store.js:135-137 | no item with the id remains; exactly the items with other ids are kept, in cart order; a no-op when the id is absent; strictly shorter when it is present |
| `Cart.RemovedMultiplicity` | js/store.js:136 | every item with another id is kept as many times as the cart holds it |
| `Cart.Added` | js/store.js:127-133 | after adding, the cart holds an item with the id |
| `Cart.AddedAbsent` | js/store.js:132 | adding an absent id appends `{id, count: 1}` after the untouched existing items |
| `Cart.AddedPresent` | js/store.js:128-131 | adding a present id raises that item's count by exactly one and keeps length, order and every other item |
| `Cart.IncrementedKeepsInvariants` | js/store.js:139-143 | incrementing keeps ids unique and counts at least one |
| `Cart.DecrementedKeepsInvariants` | js/store.js:145-151 | decrementing keeps ids unique and counts at least one |
| `Cart.AddedKeepsInvariants` | js/store.js:127-133 | adding keeps ids unique and counts at least one |
| `Cart.RemovedKeepsInvariants` | js/store.js:135-137 | removing keeps ids unique and counts at least one |
| `Cart.RemovedKeepsUniqueIds` | js/store.js:136 | filtering a cart with unique ids leaves a cart with unique ids |
| `Cart.AbsentIsNoOp` | js/store.js:139-151 | incrementing or decrementing an id that is not in the cart changes nothing |
| `Cart.DecrementAtOneIsNoOp` | js/store.js:145-151 | decrementing an item whose count is one changes nothing |
| `Cart.HasItem` | js/store.js:128 | the `find` succeeds exactly when some item of the cart carries the id |
| `Cart.CartCount` | js/store.js:197-200 | the cart counter (sum of all counts, dangling ids included); with counts of at least one it is at least the number of items; how it moves is in `CartCountIncremented`, `CartCountAdded`, `CartCountRemoved` |
| `Cart.CartCountIncremented` | js/store.js:139-143 | with unique ids, incrementing raises the cart counter by one when the id is present and by nothing otherwise |
| `Cart.CartCountAdded` | js/store.js:127-133 | with unique ids, adding to the cart always raises the cart counter by exactly one |
| `Cart.CartCountRemoved` | js/store.js:135-137 | with unique ids, removing an id lowers the cart counter by exactly that item's count |
| `Catalog.FindProduct` | js/store.js:160-162 | the lookup finds nothing exactly when no product has the id; otherwise it returns the first product with that id |
| `Catalog.CartLines` | js/store.js:157-167 | the cart lines stand for the cart items whose id resolves and only those, in cart order, each paired with its resolved product; there are no more lines than items |
| `Catalog.CartLinesMultiplicity` | js/store.js:157-167 | each resolving cart item gives as many lines as the cart holds it, and a dangling one gives none |
| `Catalog.Subtotal` | js/store.js:295 | the line subtotal `count * price` is non-negative for a non-negative count and at least the unit price once the count is one |
| `Catalog.LinesTotalIsItemsValue` | js/store.js:169-174 | summing the subtotals of the joined lines equals the sum of price × count over the cart items, with dangling ids charged zero |
| `Catalog.CartTotal` | js/store.js:169-174 | getCartTotal equals the sum of price × count over the cart items, with dangling ids charged zero |
| `Catalog.AllResolvedKeepsAll` | js/store.js:157-167 | when every id resolves, no cart item is dropped from the lines |
| `Catalog.AllDanglingTotalsZero` | js/store.js:157-174 | a cart whose ids are all dangling has no lines and a total of zero |
| `Catalog.CartTotalIncremented` | js/store.js:139-143 | with unique ids, incrementing a present id raises the total by that product's price (zero when dangling), and incrementing an absent id leaves it unchanged |
| `Catalog.CartTotalAdded` | js/store.js:127-133 | with unique ids, adding to the cart raises the total by the added product's price (zero when dangling) |
| `Catalog.FavoriteProducts` | js/store.js:237-238 | the favourites view holds exactly the catalogue products whose id is a favourite, each as many times as the catalogue lists it, in catalogue order |
| `StoreState.Resolve` | js/store.js:96-114 | a name resolves to an action exactly when it is one of the five handled names; the action carries the argument, and its name is the name resolved |
| `StoreState.ResolveName` | js/store.js:50-57 | resolving an action's own name and argument gives the action back |
| `StoreState.Step` | js/store.js:96-114 | an unknown action changes nothing; only the toggle changes the favourites, and the toggle changes nothing in the cart |
| `StoreState.SetAmountInCartIgnored` | js/store.js:55 | `setAmountInCart` resolves to an unknown action and leaves the state unchanged |
| `StoreState.StepKeepsValid` | js/store.js:96-114 | every action keeps the cart ids unique, the counts at least one and the favourites duplicate-free |
| `StoreState.RunKeepsValid` | js/store.js:82-118 | any sequence of clicks keeps that invariant |
| `StoreState.FreshSessionValid` | js/store.js:67-70 | a session started from the empty state satisfies the invariant after any sequence of clicks |
| `StoreState.RunAppend` | js/store.js:82-118 | processing one more click after a sequence of clicks is one more step |
| `StoreState.OnlyRemoveDeletes` | js/store.js:121-151 | every action except removal keeps every cart id present and never shortens the cart |
| `StoreState.RemoveDeletes` | js/store.js:135-137 | removing a present id shortens the cart and leaves no item with that id |
| `StoreState.FavoritesScenario` | js/store.js:121-125 | toggling 5 on an empty list gives [5]; toggling it again gives [] |
| `StoreState.CartScenario` | js/store.js:127-174 | with catalogue [{id: 1, price: 10}]: add and increment give count 2 and total 20; two decrements give count 1 and total 10; removal empties the cart |
| `StoreState.ReadFromStorage` | js/store.js:431-437 | a missing or unreadable entry yields exactly the empty state `{cartItems: [], favorites: []}`; a readable one is used as is |
| `StoreState.Store.constructor` | js/store.js:67-70 | the store starts from the stored state, or from the empty state when storage gives nothing; it starts valid when storage gives nothing or a valid state |
| `StoreState.Store.ToggleFavorites` | js/store.js:121-125 | the favourites field becomes the toggled list; the cart is untouched; a duplicate-free list stays duplicate-free |
| `StoreState.Store.AddToCart` | js/store.js:127-133 | the cart field becomes the added-to cart; the favourites are untouched; the invariants are kept, and with unique ids the cart counter rises by one |
| `StoreState.Store.RemoveFromCart` | js/store.js:135-137 | the cart field becomes the filtered cart; the favourites are untouched; the invariants are kept |
| `StoreState.Store.IncrementAmountInCart` | js/store.js:139-143 | the cart field becomes the incremented cart; the favourites are untouched; the invariants are kept |
| `StoreState.Store.DecrementAmountInCart` | js/store.js:145-151 | the cart field becomes the decremented cart; the favourites are untouched; the invariants are kept |
| `StoreState.Store.Apply` | js/store.js:96-114 | the state becomes one step of the given action (none for an unknown action); the storage entry is untouched |
| `StoreState.Store.Dispatch` | js/store.js:82-118 | the state advances by one step of the resolved action (none for an unknown name); the state is then persisted, so reading storage back gives the current state; the invariant is kept |
| `StoreState.CartSession` | js/store.js:96-117 | a store started without stored state, driven by action names (including the unhandled `setAmountInCart`), ends with count 1, total 10 and the persisted state `{cartItems: [{id: 1, count: 1}], favorites: [5]}` |

## Left out

- DOM rendering is not modelled (`renderCatalogItems`, `renderFavoriteItems`, `renderCart`, `renderProductDetails`, `renderItem`, `queryEl`, js/store.js:176-425). It is template cloning and attribute binding over a host API. From it, the model keeps the favourites filter (js/store.js:237-238), the two counters (js/store.js:189, 197-200) and the per-line subtotal (js/store.js:295).
- The empty-cart control is not modelled (js/store.js:259-262). It only sets a DOM `disabled` flag.
- The `in-favorites` class on the toggle button is not modelled (js/store.js:399-403). It is a DOM class.
- Event wiring is not modelled: `addEventListener` and the `closest` search for the nearest ancestor carrying an action (js/store.js:82-87). `StoreState.Dispatch` starts from the resolved action name and argument.
- `JSON.parse` of the argument attribute and the `null` argument when that attribute is absent are not modelled (js/store.js:94). Arguments are taken to be product ids.
- Storage I/O and JSON are not modelled (`localStorage`, `JSON.parse`, `JSON.stringify`, js/store.js:427-437). The storage entry is the `StoreState.storage` field, of type `Option<AppState>`; `None` stands for a missing, unparseable or `null` entry. A payload that parses to something other than a state is not modelled.
- The page address read by the product details panel is not modelled (js/store.js:343-347). It is browser input.
- The `console.log` for an unknown action is not modelled (js/store.js:113). Otherwise an unknown action is ignored, as in the model.
- Product fields other than `id` and `price` are not modelled (title, description, image, discount price). They are only displayed.
- Floating-point prices are not modelled; prices are whole non-negative numbers.
- Ids are integers, so JavaScript's `===` between a number and a string id (which never matches) is not modelled.
