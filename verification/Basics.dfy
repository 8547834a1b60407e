/** Optional values: the model's rendering of nullable pointers. */
module Options {
  datatype Option<+T> = None | Some(value: T)
}

/** Sequences as lists. */
module Sequences {
  import opened Options

  function Last<T>(list: seq<T>): Option<T> {
    if list == [] then None else Some(list[|list| - 1])
  }

  /** No two elements are equal. */
  predicate NoRepeats<T(==)>(list: seq<T>) {
    forall i, j :: 0 <= i < j < |list| ==> list[i] != list[j]
  }
}
