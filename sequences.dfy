/**
 * Searching a sequence front to back, the way Rust's `Iterator::position`
 * and `Iterator::find` do, shared by every lookup in the model.
 */
module Sequences {
  import opened Wrappers

  /** `Iterator::position`: the first index whose element satisfies `p`. */
  function Position<T>(s: seq<T>, p: T -> bool): (r: Option<nat>)
    ensures r.Some? ==> r.value < |s| && p(s[r.value])
    ensures r.Some? ==> forall j :: 0 <= j < r.value ==> !p(s[j])
    ensures r.None? <==> forall j :: 0 <= j < |s| ==> !p(s[j])
  {
    if s == [] then None
    else if p(s[0]) then Some(0)
    else match Position(s[1..], p)
      case None => None
      case Some(k) => Some(k + 1)
  }

  /** The first index satisfying `p` is what `Position` finds. */
  lemma PositionIs<T>(s: seq<T>, p: T -> bool, k: nat)
    requires k < |s| && p(s[k])
    requires forall j :: 0 <= j < k ==> !p(s[j])
    ensures Position(s, p) == Some(k)
  {
  }

  /** The loop that `iter().position(...)` runs. */
  method FindPosition<T>(s: seq<T>, p: T -> bool) returns (r: Option<nat>)
    ensures r == Position(s, p)
  {
    var i := 0;
    while i < |s|
      invariant 0 <= i <= |s|
      invariant forall j :: 0 <= j < i ==> !p(s[j])
    {
      if p(s[i]) {
        return Some(i);
      }
      i := i + 1;
    }
    return None;
  }
}
