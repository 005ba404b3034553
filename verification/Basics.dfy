/** Shared vocabulary. */
module Basics {

  datatype Option<T> = None | Some(value: T)

  function One(b: bool): nat {
    if b then 1 else 0
  }

  /** No task, caller or state is listed twice. */
  predicate Unique(ids: seq<nat>) {
    forall i, j :: 0 <= i < j < |ids| ==> ids[i] != ids[j]
  }
}
