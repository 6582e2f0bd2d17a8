/** The two datatypes every module shares: a value that may be absent, and an answer that may be a failure. */
module Basics {
  datatype Option<+T> = None | Some(value: T)

  datatype Result<+T, +E> = Ok(value: T) | Err(error: E)

  /** No element stands twice. */
  ghost predicate NoRepeat<T(!new)>(m: multiset<T>) {
    forall x {:trigger m[x]} :: m[x] <= 1
  }

  lemma Regrouped<T>(a: seq<T>, b: seq<T>, c: seq<T>)
    ensures a + (b + c) == a + b + c
  {
  }
}
