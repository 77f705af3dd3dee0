/**
 * The store state machine: the persisted state, the action vocabulary of
 * the click dispatcher, one dispatch step, the storage fallback, and the
 * `Store` object whose fields the mutators overwrite (js/store.js, initStore).
 */
module StoreState {
  import opened Wrappers
  import opened Collections
  import opened Favorites
  import opened Cart
  import opened Catalog

  /** The persisted state: cart items and favourite product ids. */
  datatype AppState = AppState(cartItems: seq<CartItem>, favorites: seq<int>)

  /** The fallback state used when storage holds nothing usable. */
  const EmptyState := AppState([], [])

  /** Unique cart ids, counts of at least one, and no favourite listed twice. */
  ghost predicate Valid(s: AppState) {
    UniqueIds(s.cartItems) && CountsPositive(s.cartItems) && NoDuplicates(s.favorites)
  }

  // ---- action names, as written into the action attribute of the markup ----

  const ToggleFavoriteName := "toggleFavorite"
  const AddToCartName := "addToCart"
  const RemoveFromCartName := "removeFromCart"
  const IncrementCountInCartName := "incrementCountInCart"
  const DecrementCountInCartName := "decrementCountInCart"
  /** Declared alongside the others, but no case of the dispatcher handles it. */
  const SetAmountInCartName := "setAmountInCart"

  const HandledNames := {ToggleFavoriteName, AddToCartName, RemoveFromCartName,
                         IncrementCountInCartName, DecrementCountInCartName}

  /** A resolved click: one of the five handled actions on a product id, or an unknown name. */
  datatype Action =
    | ToggleFavorite(id: int)
    | AddToCart(id: int)
    | RemoveFromCart(id: int)
    | IncrementCountInCart(id: int)
    | DecrementCountInCart(id: int)
    | Unknown(name: string)

  /** The action name an action is triggered by. */
  function Name(a: Action): string {
    match a
    case ToggleFavorite(_) => ToggleFavoriteName
    case AddToCart(_) => AddToCartName
    case RemoveFromCart(_) => RemoveFromCartName
    case IncrementCountInCart(_) => IncrementCountInCartName
    case DecrementCountInCart(_) => DecrementCountInCartName
    case Unknown(name) => name
  }

  /** The argument an action carries (unknown actions carry none that matters). */
  function Arg(a: Action): int {
    if a.Unknown? then 0 else a.id
  }

  /** The dispatcher's `switch`: map an action name and its argument to an action. */
  function Resolve(name: string, arg: int): (a: Action)
    ensures a.Unknown? <==> name !in HandledNames
    ensures Name(a) == name
    ensures !a.Unknown? ==> a.id == arg
  {
    if name == ToggleFavoriteName then ToggleFavorite(arg)
    else if name == AddToCartName then AddToCart(arg)
    else if name == RemoveFromCartName then RemoveFromCart(arg)
    else if name == IncrementCountInCartName then IncrementCountInCart(arg)
    else if name == DecrementCountInCartName then DecrementCountInCart(arg)
    else Unknown(name)
  }

  /** What one action does to the state. */
  function Step(s: AppState, a: Action): (t: AppState)
    ensures a.Unknown? ==> t == s
    ensures !a.ToggleFavorite? ==> t.favorites == s.favorites
    ensures a.ToggleFavorite? ==> t.cartItems == s.cartItems
  {
    match a
    case ToggleFavorite(id) => s.(favorites := Toggle(s.favorites, id))
    case AddToCart(id) => s.(cartItems := Added(s.cartItems, id))
    case RemoveFromCart(id) => s.(cartItems := Removed(s.cartItems, id))
    case IncrementCountInCart(id) => s.(cartItems := Incremented(s.cartItems, id))
    case DecrementCountInCart(id) => s.(cartItems := Decremented(s.cartItems, id))
    case Unknown(_) => s
  }

  /** A sequence of clicks, each processed completely before the next. */
  function Run(s: AppState, actions: seq<Action>): AppState
    decreases |actions|
  {
    if actions == [] then s else Run(Step(s, actions[0]), actions[1..])
  }

  /** readFromStorage: the stored state, or the empty default when the entry is missing or unreadable. */
  function ReadFromStorage(stored: Option<AppState>): (s: AppState)
    ensures stored.None? ==> s == EmptyState
    ensures stored.Some? ==> s == stored.value
  {
    match stored
    case Some(state) => state
    case None => EmptyState
  }

  // ---- lemmas ----

  /** Resolving an action's own name and argument gives the action back. */
  lemma ResolveName(a: Action)
    requires a.Unknown? ==> a.name !in HandledNames
    ensures Resolve(Name(a), Arg(a)) == a
  {
  }

  /** `setAmountInCart` is declared but falls through to the default case: the state is unchanged. */
  lemma SetAmountInCartIgnored(s: AppState, arg: int)
    ensures Resolve(SetAmountInCartName, arg) == Unknown(SetAmountInCartName)
    ensures Step(s, Resolve(SetAmountInCartName, arg)) == s
  {
  }

  /** Every action keeps the state invariant. */
  lemma StepKeepsValid(s: AppState, a: Action)
    requires Valid(s)
    ensures Valid(Step(s, a))
  {
    match a
    case ToggleFavorite(id) => ToggleKeepsNoDuplicates(s.favorites, id);
    case AddToCart(id) => AddedKeepsInvariants(s.cartItems, id);
    case RemoveFromCart(id) => RemovedKeepsInvariants(s.cartItems, id);
    case IncrementCountInCart(id) => IncrementedKeepsInvariants(s.cartItems, id);
    case DecrementCountInCart(id) => DecrementedKeepsInvariants(s.cartItems, id);
    case Unknown(_) =>
  }

  /** Any sequence of clicks keeps the state invariant. */
  lemma {:induction false} RunKeepsValid(s: AppState, actions: seq<Action>)
    requires Valid(s)
    ensures Valid(Run(s, actions))
    decreases |actions|
  {
    if actions != [] {
      StepKeepsValid(s, actions[0]);
      RunKeepsValid(Step(s, actions[0]), actions[1..]);
    }
  }

  /**
   * A session that starts from the empty state (nothing usable in storage)
   * never holds two cart items with one id, a count below one, or a
   * favourite twice, whatever the clicks.
   */
  lemma FreshSessionValid(actions: seq<Action>)
    ensures Valid(Run(EmptyState, actions))
  {
    RunKeepsValid(EmptyState, actions);
  }

  /**
   * Removing is the only action that makes a cart item disappear: after any
   * other action every id that was in the cart still is, and the cart is no shorter.
   */
  lemma OnlyRemoveDeletes(s: AppState, a: Action, id: int)
    requires !a.RemoveFromCart?
    requires HasItem(s.cartItems, id)
    ensures HasItem(Step(s, a).cartItems, id)
    ensures |Step(s, a).cartItems| >= |s.cartItems|
  {
    var t := Step(s, a);
    var i :| 0 <= i < |s.cartItems| && s.cartItems[i].id == id;
    match a
    case AddToCart(x) =>
      if !HasItem(s.cartItems, x) {
        assert t.cartItems[i] == s.cartItems[i];
      } else {
        assert t.cartItems[i].id == id;
      }
    case IncrementCountInCart(_) => assert t.cartItems[i].id == id;
    case DecrementCountInCart(_) => assert t.cartItems[i].id == id;
    case ToggleFavorite(_) =>
    case Unknown(_) =>
  }

  /** Removing an id that is in the cart makes the cart shorter and leaves no item with that id. */
  lemma RemoveDeletes(s: AppState, id: int)
    requires HasItem(s.cartItems, id)
    ensures |Step(s, RemoveFromCart(id)).cartItems| < |s.cartItems|
    ensures !HasItem(Step(s, RemoveFromCart(id)).cartItems, id)
  {
  }

  lemma RunSingle(s: AppState, a: Action)
    ensures Run(s, [a]) == Step(s, a)
  {
    assert [a][1..] == [];
  }

  /** Processing one more click after a sequence of clicks is one more step. */
  lemma {:induction false} RunAppend(s: AppState, actions: seq<Action>, a: Action)
    ensures Run(s, actions + [a]) == Step(Run(s, actions), a)
    decreases |actions|
  {
    if actions == [] {
      assert actions + [a] == [a];
      RunSingle(s, a);
    } else {
      assert (actions + [a])[1..] == actions[1..] + [a];
      RunAppend(Step(s, actions[0]), actions[1..], a);
    }
  }

  /** Toggling the favourite id 5 on an empty list adds it; toggling again removes it. */
  lemma FavoritesScenario()
    ensures Run(EmptyState, [ToggleFavorite(5)]).favorites == [5]
    ensures Run(EmptyState, [ToggleFavorite(5), ToggleFavorite(5)]).favorites == []
  {
  }

  /**
   * With the catalogue [{id: 1, price: 10}]: add 1 and increment 1 give a
   * count of 2 and a total of 20; decrementing twice clamps the count at 1
   * and the total at 10; removing 1 empties the cart.
   */
  lemma CartScenario()
    ensures var s := Run(EmptyState, [AddToCart(1)]);
      s.cartItems == [CartItem(1, 1)]
    ensures var s := Run(EmptyState, [AddToCart(1), IncrementCountInCart(1)]);
      s.cartItems == [CartItem(1, 2)] && CartTotal(s.cartItems, [Product(1, 10)]) == 20
    ensures var s := Run(EmptyState, [AddToCart(1), IncrementCountInCart(1),
                                      DecrementCountInCart(1), DecrementCountInCart(1)]);
      s.cartItems == [CartItem(1, 1)] && CartTotal(s.cartItems, [Product(1, 10)]) == 10
    ensures var s := Run(EmptyState, [AddToCart(1), IncrementCountInCart(1),
                                      DecrementCountInCart(1), DecrementCountInCart(1),
                                      RemoveFromCart(1)]);
      s.cartItems == []
  {
  }

  /**
   * The store object: the state fields the mutators overwrite, the catalogue
   * it was started with, and the storage entry the state is persisted to.
   */
  class Store {
    const products: seq<Product>
    var cartItems: seq<CartItem>
    var favorites: seq<int>
    /** The durable storage entry for the state; None when it is missing or unreadable. */
    var storage: Option<AppState>

    function State(): AppState
      reads this
    {
      AppState(cartItems, favorites)
    }

    /** initStore: restore the state from storage, falling back to the empty state. */
    constructor (products: seq<Product>, stored: Option<AppState>)
      ensures this.products == products && storage == stored
      ensures State() == ReadFromStorage(stored)
      ensures stored.None? ==> Valid(State())
      ensures stored.Some? && Valid(stored.value) ==> Valid(State())
    {
      this.products := products;
      var s := ReadFromStorage(stored);
      cartItems := s.cartItems;
      favorites := s.favorites;
      storage := stored;
    }

    method ToggleFavorites(id: int)
      modifies this
      ensures favorites == Toggle(old(favorites), id)
      ensures cartItems == old(cartItems) && storage == old(storage)
      ensures old(NoDuplicates(favorites)) ==> NoDuplicates(favorites)
    {
      if NoDuplicates(favorites) {
        ToggleKeepsNoDuplicates(favorites, id);
      }
      favorites := Toggle(favorites, id);
    }

    method AddToCart(id: int)
      modifies this
      ensures cartItems == Added(old(cartItems), id)
      ensures favorites == old(favorites) && storage == old(storage)
      ensures old(UniqueIds(cartItems)) ==> UniqueIds(cartItems) && CartCount(cartItems) == old(CartCount(cartItems)) + 1
      ensures old(CountsPositive(cartItems)) ==> CountsPositive(cartItems)
    {
      AddedKeepsInvariants(cartItems, id);
      if UniqueIds(cartItems) {
        CartCountAdded(cartItems, id);
      }
      cartItems := Added(cartItems, id);
    }

    method RemoveFromCart(id: int)
      modifies this
      ensures cartItems == Removed(old(cartItems), id)
      ensures favorites == old(favorites) && storage == old(storage)
      ensures old(UniqueIds(cartItems)) ==> UniqueIds(cartItems)
      ensures old(CountsPositive(cartItems)) ==> CountsPositive(cartItems)
    {
      RemovedKeepsInvariants(cartItems, id);
      cartItems := Removed(cartItems, id);
    }

    method IncrementAmountInCart(id: int)
      modifies this
      ensures cartItems == Incremented(old(cartItems), id)
      ensures favorites == old(favorites) && storage == old(storage)
      ensures old(UniqueIds(cartItems)) ==> UniqueIds(cartItems)
      ensures old(CountsPositive(cartItems)) ==> CountsPositive(cartItems)
    {
      IncrementedKeepsInvariants(cartItems, id);
      cartItems := Incremented(cartItems, id);
    }

    method DecrementAmountInCart(id: int)
      modifies this
      ensures cartItems == Decremented(old(cartItems), id)
      ensures favorites == old(favorites) && storage == old(storage)
      ensures old(UniqueIds(cartItems)) ==> UniqueIds(cartItems)
      ensures old(CountsPositive(cartItems)) ==> CountsPositive(cartItems)
    {
      DecrementedKeepsInvariants(cartItems, id);
      cartItems := Decremented(cartItems, id);
    }

    /** Run the mutator an action names; an unknown action changes nothing. */
    method Apply(action: Action)
      modifies this
      ensures State() == Step(old(State()), action)
      ensures storage == old(storage)
    {
      match action {
        case ToggleFavorite(id) => ToggleFavorites(id);
        case AddToCart(id) => AddToCart(id);
        case RemoveFromCart(id) => RemoveFromCart(id);
        case IncrementCountInCart(id) => IncrementAmountInCart(id);
        case DecrementCountInCart(id) => DecrementAmountInCart(id);
        case Unknown(_) =>
      }
    }

    /**
     * The click handler once the action element is found: run the matching
     * mutator (an unknown name changes nothing), then persist the state.
     */
    method Dispatch(name: string, arg: int)
      modifies this
      ensures State() == Step(old(State()), Resolve(name, arg))
      ensures storage == Some(State()) && ReadFromStorage(storage) == State()
      ensures old(Valid(State())) ==> Valid(State())
    {
      ghost var before := State();
      var action := Resolve(name, arg);
      Apply(action);
      if Valid(before) {
        StepKeepsValid(before, action);
      }
      storage := Some(State());
    }
  }

  /**
   * A page session: a store started with no stored state and the catalogue
   * [{id: 1, price: 10}], driven by the action names its markup carries.
   */
  method CartSession() returns (count: int, total: int, stored: Option<AppState>)
    ensures count == 1 && total == 10
    ensures stored == Some(AppState([CartItem(1, 1)], [5]))
  {
    var store := new Store([Product(1, 10)], None);
    store.Dispatch(AddToCartName, 1);
    store.Dispatch(IncrementCountInCartName, 1);
    store.Dispatch(ToggleFavoriteName, 5);
    store.Dispatch(SetAmountInCartName, 1);
    store.Dispatch(DecrementCountInCartName, 1);
    store.Dispatch(DecrementCountInCartName, 1);
    assert store.cartItems == [CartItem(1, 1)] by {
      assert HasItem([CartItem(1, 1)], 1) by { assert [CartItem(1, 1)][0].id == 1; }
    }
    assert CartLines(store.cartItems, store.products) == [CartLine(Product(1, 10), 1)] by {
      assert [CartItem(1, 1)][1..] == [];
    }
    count, total := CartCount(store.cartItems), CartTotal(store.cartItems, store.products);
    stored := store.storage;
  }
}
