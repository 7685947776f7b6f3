/**
 * JavaScript's `Array.prototype.find`: the first element, in array order, that
 * satisfies a predicate. Every lookup of the model (rating labels, logged cycle
 * days, cycle phases) is an instance of it. `IndexWhere` is the search step behind it.
 */
module SeqSearch {
  import opened Wrappers

  /** The search step of `find`: position of the first element satisfying `p`, or `|xs|` when none does. */
  function IndexWhere<T>(xs: seq<T>, p: T -> bool): (i: nat)
    ensures i <= |xs|
    ensures i < |xs| ==> p(xs[i])
    ensures forall j :: 0 <= j < i ==> !p(xs[j])
    decreases |xs|
  {
    if xs == [] then 0
    else if p(xs[0]) then 0
    else 1 + IndexWhere(xs[1..], p)
  }

  /** The first element satisfying `p`, `None` when no element does. */
  function Find<T>(xs: seq<T>, p: T -> bool): (r: Option<T>)
    ensures r.None? <==> forall j :: 0 <= j < |xs| ==> !p(xs[j])
    ensures r.Some? ==> exists i :: 0 <= i < |xs| && xs[i] == r.value && p(xs[i]) &&
                                    forall j :: 0 <= j < i ==> !p(xs[j])
  {
    var i := IndexWhere(xs, p);
    if i < |xs| then Some(xs[i])
    else
      None
  }
}
