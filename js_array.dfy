/**
 * The two `Array.prototype` searches the repository functions use:
 * `find` (the first element satisfying a predicate, or `undefined`) and
 * `filter` (every element satisfying it, in order).
 */
module JsArray {
  import opened Wrappers

  /** Index of the first element satisfying `p`, or `|xs|` when none does. */
  function FirstIndex<T>(xs: seq<T>, p: T -> bool): (i: nat)
    ensures i <= |xs|
    ensures forall j :: 0 <= j < i ==> !p(xs[j])
    ensures i < |xs| ==> p(xs[i])
  {
    if xs == [] then 0
    else if p(xs[0]) then 0
    else 1 + FirstIndex(xs[1..], p)
  }

  /** `xs.find(p)`: the first element satisfying `p`, `None` for `undefined`. */
  function Find<T>(xs: seq<T>, p: T -> bool): (r: Option<T>)
    ensures r.None? <==> forall j :: 0 <= j < |xs| ==> !p(xs[j])
    ensures r.Some? ==> exists i :: 0 <= i < |xs| && xs[i] == r.value && p(xs[i]) &&
                                   forall j :: 0 <= j < i ==> !p(xs[j])
  {
    var i := FirstIndex(xs, p);
    if i < |xs| then Some(xs[i]) else None
  }

  /** `xs.filter(p)`. */
  function Filter<T>(xs: seq<T>, p: T -> bool): (r: seq<T>)
    ensures |r| <= |xs|
    ensures forall k :: 0 <= k < |r| ==> r[k] in xs && p(r[k])
    ensures forall i :: 0 <= i < |xs| && p(xs[i]) ==> xs[i] in r
  {
    if xs == [] then []
    else if p(xs[0]) then [xs[0]] + Filter(xs[1..], p)
    else Filter(xs[1..], p)
  }

  /** The positions at or after `lo` whose elements satisfy `p`, increasing. */
  function KeptIndices<T>(xs: seq<T>, p: T -> bool, lo: nat): (ix: seq<nat>)
    requires lo <= |xs|
    ensures forall k :: 0 <= k < |ix| ==> lo <= ix[k] < |xs| && p(xs[ix[k]])
    ensures forall k, l :: 0 <= k < l < |ix| ==> ix[k] < ix[l]
    ensures forall i :: lo <= i < |xs| && p(xs[i]) ==> i in ix
    decreases |xs| - lo
  {
    if lo == |xs| then []
    else if p(xs[lo]) then [lo] + KeptIndices(xs, p, lo + 1)
    else KeptIndices(xs, p, lo + 1)
  }

  /**
   * `Filter(xs, p)` is the subsequence of `xs` at the positions `KeptIndices`
   * lists: order is preserved and every element satisfying `p` is kept once
   * per occurrence.
   */
  lemma {:induction false} FilterIsSubsequence<T>(xs: seq<T>, p: T -> bool, lo: nat)
    requires lo <= |xs|
    ensures |Filter(xs[lo..], p)| == |KeptIndices(xs, p, lo)|
    ensures forall k :: 0 <= k < |Filter(xs[lo..], p)| ==>
              Filter(xs[lo..], p)[k] == xs[KeptIndices(xs, p, lo)[k]]
    decreases |xs| - lo
  {
    if lo < |xs| {
      FilterIsSubsequence(xs, p, lo + 1);
      var tail, ix := Filter(xs[lo + 1..], p), KeptIndices(xs, p, lo + 1);
      assert xs[lo..][1..] == xs[lo + 1..];
      if p(xs[lo]) {
        assert Filter(xs[lo..], p) == [xs[lo]] + tail;
        assert KeptIndices(xs, p, lo) == [lo] + ix;
      } else {
        assert Filter(xs[lo..], p) == tail;
        assert KeptIndices(xs, p, lo) == ix;
      }
    }
  }
}
