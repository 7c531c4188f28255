/** Optional values, standing for JavaScript's `null`/`undefined` and for
    operations that throw. */
module Wrappers {
  datatype Option<+T> = None | Some(value: T)

  /** No element occurs twice in `s`. */
  predicate NoDup<T(==)>(s: seq<T>) {
    forall i, j :: 0 <= i < j < |s| ==> s[i] != s[j]
  }
}
