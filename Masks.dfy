/** Selection of rows by a boolean mask, `frame[mask]` in pandas terms: the rows whose mask
    entry is true, in their original order. The catalogue filter is such a selection with a
    computed mask, and the checked rows of the quote are one with the checkbox values as mask. */
module Masks {

  /** The elements of `xs` whose mask entry is true, in order. */
  function Select<T>(xs: seq<T>, mask: seq<bool>): (r: seq<T>)
    requires |mask| == |xs|
    ensures |r| <= |xs|
    decreases |xs|
  {
    if xs == [] then []
    else Select(xs[..|xs| - 1], mask[..|xs| - 1]) + (if mask[|xs| - 1] then [xs[|xs| - 1]] else [])
  }

  /** The positions whose mask entry is true, in increasing order. */
  function TrueIndices(mask: seq<bool>): (idx: seq<nat>)
    ensures forall k :: 0 <= k < |idx| ==> idx[k] < |mask| && mask[idx[k]]
    ensures forall k, l :: 0 <= k < l < |idx| ==> idx[k] < idx[l]
    ensures forall i :: 0 <= i < |mask| && mask[i] ==> i in idx
    decreases |mask|
  {
    if mask == [] then []
    else TrueIndices(mask[..|mask| - 1]) + (if mask[|mask| - 1] then [|mask| - 1] else [])
  }

  /** Selecting by a mask picks exactly the elements at the mask's true positions, in
      increasing position order: the result keeps the original order and drops nothing else. */
  lemma {:induction false} SelectAtTrueIndices<T>(xs: seq<T>, mask: seq<bool>)
    requires |mask| == |xs|
    ensures |Select(xs, mask)| == |TrueIndices(mask)|
    ensures forall k :: 0 <= k < |TrueIndices(mask)| ==> Select(xs, mask)[k] == xs[TrueIndices(mask)[k]]
    decreases |xs|
  {
    if xs != [] {
      var n := |xs| - 1;
      SelectAtTrueIndices(xs[..n], mask[..n]);
    }
  }

  /** An element is selected exactly when it stands at some position whose mask entry is true. */
  lemma SelectMembership<T>(xs: seq<T>, mask: seq<bool>, x: T)
    requires |mask| == |xs|
    ensures x in Select(xs, mask) <==> exists i :: 0 <= i < |xs| && mask[i] && xs[i] == x
  {
    SelectAtTrueIndices(xs, mask);
    var idx := TrueIndices(mask);
    var r := Select(xs, mask);
    if x in r {
      var k :| 0 <= k < |r| && r[k] == x;
      assert mask[idx[k]] && xs[idx[k]] == x;
    }
    if i :| 0 <= i < |xs| && mask[i] && xs[i] == x {
      var k :| 0 <= k < |idx| && idx[k] == i;
      assert r[k] == x;
    }
  }

  /** Selection distributes over concatenation: rows of an earlier part come before rows of a later one. */
  lemma {:induction false} SelectAppend<T>(xs: seq<T>, ys: seq<T>, mx: seq<bool>, my: seq<bool>)
    requires |mx| == |xs| && |my| == |ys|
    ensures Select(xs + ys, mx + my) == Select(xs, mx) + Select(ys, my)
    decreases |ys|
  {
    if ys != [] {
      var n := |ys| - 1;
      SelectAppend(xs, ys[..n], mx, my[..n]);
      assert (xs + ys)[..|xs| + n] == xs + ys[..n];
      assert (mx + my)[..|xs| + n] == mx + my[..n];
    } else {
      assert xs + ys == xs && mx + my == mx;
    }
  }

  /** A mask that is true everywhere, the checkboxes' default. */
  function AllTrue(n: nat): (m: seq<bool>)
    ensures |m| == n && forall i :: 0 <= i < n ==> m[i]
  {
    seq(n, _ => true)
  }

  /** With every entry true, selection keeps everything. */
  lemma {:induction false} SelectAllTrue<T>(xs: seq<T>)
    ensures Select(xs, AllTrue(|xs|)) == xs
    decreases |xs|
  {
    if xs != [] {
      var n := |xs| - 1;
      SelectAllTrue(xs[..n]);
      assert AllTrue(|xs|)[..n] == AllTrue(n);
    }
  }

  /** With every entry false, selection keeps nothing. */
  lemma {:induction false} SelectAllFalse<T>(xs: seq<T>, mask: seq<bool>)
    requires |mask| == |xs| && forall i :: 0 <= i < |mask| ==> !mask[i]
    ensures Select(xs, mask) == []
    decreases |xs|
  {
    if xs != [] {
      SelectAllFalse(xs[..|xs| - 1], mask[..|xs| - 1]);
    }
  }

  /** Entry-wise implication between masks: every position selected by `m1` is selected by `m2`. */
  predicate SubMask(m1: seq<bool>, m2: seq<bool>) {
    |m1| == |m2| && forall i :: 0 <= i < |m1| && m1[i] ==> m2[i]
  }
}
