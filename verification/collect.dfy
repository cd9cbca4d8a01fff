/** `iter().filter_map(f).collect::<HashSet<_>>()`: every element that `f`
    maps to `Some(y)` contributes `y`, the others are dropped, and equal
    values collapse into one set member. */
module Collect {
  import opened Types

  function FilterMapSet<T, U(==)>(xs: seq<T>, f: T -> Option<U>): (s: set<U>)
    ensures forall i :: 0 <= i < |xs| && f(xs[i]).Some? ==> f(xs[i]).value in s
    ensures forall y :: y in s ==> exists i :: 0 <= i < |xs| && f(xs[i]) == Some(y)
    ensures s == {} <==> forall i :: 0 <= i < |xs| ==> f(xs[i]).None?
    ensures |s| <= |xs|
    decreases |xs|
  {
    if xs == [] then
      {}
    else
      var rest := FilterMapSet(xs[1..], f);
      match f(xs[0])
      case None => rest
      case Some(y) => {y} + rest
  }

  /** Collecting a concatenation is the union of collecting both parts, so
      the position of an element in the input does not matter. */
  lemma {:induction false} FilterMapAppend<T, U>(a: seq<T>, b: seq<T>, f: T -> Option<U>)
    ensures FilterMapSet(a + b, f) == FilterMapSet(a, f) + FilterMapSet(b, f)
    decreases |a|
  {
    if a == [] {
      assert a + b == b;
    } else {
      assert (a + b)[1..] == a[1..] + b;
      FilterMapAppend(a[1..], b, f);
    }
  }

  /** An element that `f` rejects can be removed without changing the set. */
  lemma DropRejected<T, U>(xs: seq<T>, k: nat, f: T -> Option<U>)
    requires k < |xs| && f(xs[k]).None?
    ensures FilterMapSet(xs[..k] + xs[k + 1..], f) == FilterMapSet(xs, f)
  {
    var before, after := xs[..k], xs[k + 1..];
    assert xs == before + ([xs[k]] + after);
    assert FilterMapSet([xs[k]], f) == {};
    FilterMapAppend([xs[k]], after, f);
    FilterMapAppend(before, [xs[k]] + after, f);
    FilterMapAppend(before, after, f);
  }

  /** Two elements mapped to the same value yield one set member, so the
      set is strictly smaller than the input. */
  lemma {:induction false} DuplicatesCollapse<T, U>(xs: seq<T>, i: nat, j: nat, f: T -> Option<U>)
    requires i < |xs| && j < |xs| && i != j
    requires f(xs[i]).Some? && f(xs[i]) == f(xs[j])
    ensures |FilterMapSet(xs, f)| < |xs|
    decreases |xs|
  {
    var rest := FilterMapSet(xs[1..], f);
    if i == 0 {
      assert xs[1..][j - 1] == xs[j];
      assert f(xs[0]).value in rest;
    } else if j == 0 {
      assert xs[1..][i - 1] == xs[i];
      assert f(xs[0]).value in rest;
    } else {
      assert xs[1..][i - 1] == xs[i] && xs[1..][j - 1] == xs[j];
      DuplicatesCollapse(xs[1..], i - 1, j - 1, f);
    }
  }
}
