/** The array operations the pages use on their lists: `filter` with a test, `filter` on the
    index (removing one position), and `indexOf`. */
module Lists {

  /** `xs.filter(keep)`: the elements that pass, in their order. */
  function Filter<T>(xs: seq<T>, keep: T -> bool): (r: seq<T>)
    ensures |r| <= |xs|
    ensures forall k :: 0 <= k < |r| ==> r[k] in xs && keep(r[k])
    ensures forall k :: 0 <= k < |xs| && keep(xs[k]) ==> xs[k] in r
  {
    if xs == [] then []
    else
      var front := Filter(xs[..|xs| - 1], keep);
      var last := xs[|xs| - 1];
      assert forall k :: 0 <= k < |xs| - 1 ==> xs[k] == xs[..|xs| - 1][k];
      front + (if keep(last) then [last] else [])
  }

  /** Filtering works piece by piece, so the kept elements stay in their order. */
  lemma {:induction false} FilterAppend<T>(xs: seq<T>, ys: seq<T>, keep: T -> bool)
    ensures Filter(xs + ys, keep) == Filter(xs, keep) + Filter(ys, keep)
    decreases |ys|
  {
    if ys == [] {
      assert xs + ys == xs;
    } else {
      var zs := xs + ys;
      assert zs[..|zs| - 1] == xs + ys[..|ys| - 1];
      assert zs[|zs| - 1] == ys[|ys| - 1];
      FilterAppend(xs, ys[..|ys| - 1], keep);
    }
  }

  /** One more element is kept exactly when it passes. */
  lemma FilterSnoc<T>(xs: seq<T>, x: T, keep: T -> bool)
    ensures Filter(xs + [x], keep) == Filter(xs, keep) + (if keep(x) then [x] else [])
  {
    assert (xs + [x])[..|xs|] == xs;
  }

  /** A list whose every element passes is kept as it is. */
  lemma {:induction false} FilterAll<T>(xs: seq<T>, keep: T -> bool)
    requires forall k :: 0 <= k < |xs| ==> keep(xs[k])
    ensures Filter(xs, keep) == xs
    decreases |xs|
  {
    if xs != [] {
      FilterAll(xs[..|xs| - 1], keep);
      assert xs[..|xs| - 1] + [xs[|xs| - 1]] == xs;
    }
  }

  /** `xs.filter((_, i) => i !== index)`, built position by position. */
  function DropIndex<T>(xs: seq<T>, index: int): (r: seq<T>)
    ensures |r| == if 0 <= index < |xs| then |xs| - 1 else |xs|
  {
    if xs == [] then []
    else DropIndex(xs[..|xs| - 1], index) + (if |xs| - 1 != index then [xs[|xs| - 1]] else [])
  }

  /** Removing a position keeps everything before it and everything after it, in order; an
      index outside the list removes nothing. */
  lemma {:induction false} DropIndexSlices<T>(xs: seq<T>, index: int)
    ensures DropIndex(xs, index) == if 0 <= index < |xs| then xs[..index] + xs[index + 1..] else xs
    decreases |xs|
  {
    if xs != [] {
      var n := |xs| - 1;
      var front := xs[..n];
      DropIndexSlices(front, index);
      if 0 <= index < n {
        assert front[..index] == xs[..index];
        assert front[index + 1..] + [xs[n]] == xs[index + 1..];
      } else if index == n {
        assert front == xs[..index];
        assert xs[index + 1..] == [];
      } else {
        assert front + [xs[n]] == xs;
      }
    }
  }

  /** `xs.indexOf(x)`: the first position holding `x`, or -1. */
  function IndexOf<T(==)>(xs: seq<T>, x: T): (k: int)
    ensures -1 <= k < |xs|
    ensures k == -1 <==> x !in xs
    ensures k >= 0 ==> xs[k] == x && x !in xs[..k]
  {
    if xs == [] then -1
    else if xs[0] == x then 0
    else
      var k := IndexOf(xs[1..], x);
      if k == -1 then -1
      else
        assert xs[..k + 1] == [xs[0]] + xs[1..][..k];
        k + 1
  }
}
