/** Small shared vocabulary: an optional value and occurrence counting over sequences. */
module Base {

  datatype Option<+T> = None | Some(value: T)

  /** Number of positions of `s` holding `x`. */
  function Count<T(==)>(s: seq<T>, x: T): nat
  {
    multiset(s)[x]
  }
}
