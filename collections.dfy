/** Properties of sequences shared by the cart and the favourites list. */
module Collections {

  /** No value occurs twice in `s`. */
  ghost predicate NoDuplicates<T(!new)>(s: seq<T>) {
    forall x :: multiset(s)[x] <= 1
  }

  /**
   * `a` can be obtained from `b` by deleting elements: every element of `a`
   * comes from `b`, in the order `b` has them.
   */
  ghost predicate IsSubsequence<T>(a: seq<T>, b: seq<T>)
    decreases |b|
  {
    if a == [] then true
    else if b == [] then false
    else if a[0] == b[0] then IsSubsequence(a[1..], b[1..])
    else IsSubsequence(a, b[1..])
  }
}
