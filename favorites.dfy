/**
 * The favourites list of the store: a sequence of product ids, toggled one
 * id at a time (js/store.js, toggleFavorites).
 */
module Favorites {
  import opened Collections

  /** The favourites with every occurrence of `id` filtered out, order kept. */
  function Without(favorites: seq<int>, id: int): (r: seq<int>)
    ensures id !in r
    ensures forall x :: x != id ==> multiset(r)[x] == multiset(favorites)[x]
    ensures forall x :: x != id ==> (x in r <==> x in favorites)
    ensures |r| == |favorites| - multiset(favorites)[id]
    ensures IsSubsequence(r, favorites)
  {
    if favorites == [] then []
    else
      assert favorites == [favorites[0]] + favorites[1..];
      if favorites[0] == id then Without(favorites[1..], id)
      else [favorites[0]] + Without(favorites[1..], id)
  }

  /**
   * Flip whether `id` is a favourite: drop all its occurrences when it is
   * one, append it at the end otherwise.
   */
  function Toggle(favorites: seq<int>, id: int): (r: seq<int>)
    ensures id in r <==> id !in favorites
    ensures forall x :: x != id ==> (x in r <==> x in favorites)
    ensures id !in favorites ==> |r| == |favorites| + 1 && r[..|favorites|] == favorites && r[|favorites|] == id
    ensures id in favorites ==> IsSubsequence(r, favorites) && |r| < |favorites|
  {
    if id in favorites then Without(favorites, id) else favorites + [id]
  }

  /** Filtering out an id that does not occur changes nothing. */
  lemma {:induction false} WithoutAbsent(favorites: seq<int>, id: int)
    requires id !in favorites
    ensures Without(favorites, id) == favorites
  {
    if favorites != [] {
      WithoutAbsent(favorites[1..], id);
    }
  }

  /** Filtering out `id` after appending `id` is the same as filtering it out before. */
  lemma {:induction false} WithoutAppended(favorites: seq<int>, id: int)
    ensures Without(favorites + [id], id) == Without(favorites, id)
  {
    if favorites == [] {
      assert [] + [id] == [id];
    } else {
      assert (favorites + [id])[1..] == favorites[1..] + [id];
      WithoutAppended(favorites[1..], id);
    }
  }

  /** Toggling the same id twice restores which ids are favourites. */
  lemma ToggleTwiceMembership(favorites: seq<int>, id: int)
    ensures forall x :: x in Toggle(Toggle(favorites, id), id) <==> x in favorites
  {
  }

  /** When `id` was not a favourite, toggling it twice restores the exact sequence. */
  lemma ToggleTwiceAbsent(favorites: seq<int>, id: int)
    requires id !in favorites
    ensures Toggle(Toggle(favorites, id), id) == favorites
  {
    WithoutAppended(favorites, id);
    WithoutAbsent(favorites, id);
  }

  /** When `id` was a favourite, toggling it twice moves it, once, to the end. */
  lemma ToggleTwicePresent(favorites: seq<int>, id: int)
    requires id in favorites
    ensures Toggle(Toggle(favorites, id), id) == Without(favorites, id) + [id]
  {
  }

  /**
   * When `id` was a favourite, two toggles restore the exact sequence only
   * when `id` occurred once and was last.
   */
  lemma ToggleTwiceRestores(favorites: seq<int>, id: int)
    requires id in favorites
    ensures Toggle(Toggle(favorites, id), id) == favorites
        <==> multiset(favorites)[id] == 1 && favorites[|favorites| - 1] == id
  {
    ToggleTwicePresent(favorites, id);
    if Without(favorites, id) + [id] == favorites {
      RestoredOnlyWhenOnceAndLast(favorites, id);
    }
    if multiset(favorites)[id] == 1 && favorites[|favorites| - 1] == id {
      RestoredWhenOnceAndLast(favorites, id);
    }
  }

  lemma RestoredOnlyWhenOnceAndLast(favorites: seq<int>, id: int)
    requires Without(favorites, id) + [id] == favorites
    ensures multiset(favorites)[id] == 1 && favorites[|favorites| - 1] == id
  {
    var w := Without(favorites, id);
    assert multiset(favorites) == multiset(w) + multiset{id};
    assert favorites[|favorites| - 1] == (w + [id])[|w|];
  }

  lemma RestoredWhenOnceAndLast(favorites: seq<int>, id: int)
    requires multiset(favorites)[id] == 1 && favorites[|favorites| - 1] == id
    ensures Without(favorites, id) + [id] == favorites
  {
    var init := favorites[..|favorites| - 1];
    assert favorites == init + [id];
    assert multiset(favorites) == multiset(init) + multiset{id};
    assert id !in init;
    WithoutAppended(init, id);
    WithoutAbsent(init, id);
  }

  /** An instance: toggling 5 twice in [5, 6] gives [6, 5]. */
  lemma ToggleTwiceReorders()
    ensures Toggle(Toggle([5, 6], 5), 5) == [6, 5]
  {
  }

  /** Toggling keeps a duplicate-free favourites list duplicate-free. */
  lemma ToggleKeepsNoDuplicates(favorites: seq<int>, id: int)
    requires NoDuplicates(favorites)
    ensures NoDuplicates(Toggle(favorites, id))
  {
  }

  /** The favourites counter moves by exactly one on each toggle of a duplicate-free list. */
  lemma ToggleCounter(favorites: seq<int>, id: int)
    requires NoDuplicates(favorites)
    ensures |Toggle(favorites, id)| == if id in favorites then |favorites| - 1 else |favorites| + 1
  {
  }
}
