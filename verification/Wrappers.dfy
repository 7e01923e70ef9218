/** Types and functions that several components share. */
module Wrappers {

  datatype Option<+T> = None | Some(value: T)

  /** What a push to an inbox answers. */
  datatype EnqueueResult = Success | UnblockedReader | QueueClosed

  function One(b: bool): nat
  {
    if b then 1 else 0
  }

  function Reversed<T>(s: seq<T>): seq<T>
  {
    if s == [] then [] else Reversed(s[1..]) + [s[0]]
  }

  predicate Distinct<T(==)>(s: seq<T>)
  {
    forall i, j :: 0 <= i < j < |s| ==> s[i] != s[j]
  }
}
