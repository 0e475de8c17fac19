/** Queries over a table kept as a sequence of rows in primary-key order. */
module Seqs {
  import opened Wrappers

  /** The first row satisfying `p`: what `.get(...)` or `.first()` returns
      (on a unique column the row is the only one). */
  function First<T>(xs: seq<T>, p: T -> bool): (r: Option<T>)
    ensures r.Some? ==> r.value in xs && p(r.value)
    ensures r.None? <==> forall x :: x in xs ==> !p(x)
  {
    if xs == [] then None else if p(xs[0]) then Some(xs[0]) else First(xs[1..], p)
  }

  /** The rows satisfying `p`, in table order: what `.filter(...)` returns. */
  function Filter<T(!new)>(xs: seq<T>, p: T -> bool): (r: seq<T>)
    ensures forall x :: x in r <==> x in xs && p(x)
    ensures |r| <= |xs|
  {
    if xs == [] then []
    else Filter(xs[..|xs| - 1], p) + (if p(xs[|xs| - 1]) then [xs[|xs| - 1]] else [])
  }

  /** The table after saving `x` over every row `same` picks (on a primary
      key, the one row with `x`'s key). */
  function Replace<T>(xs: seq<T>, same: T -> bool, x: T): (r: seq<T>)
    ensures |r| == |xs|
    ensures forall i :: 0 <= i < |r| ==> r[i] == if same(xs[i]) then x else xs[i]
  {
    if xs == [] then [] else [if same(xs[0]) then x else xs[0]] + Replace(xs[1..], same, x)
  }

  /** After `Replace`, every row `same` picks is the saved row. */
  lemma {:induction false} ReplacePicked<T>(xs: seq<T>, same: T -> bool, x: T)
    ensures forall y :: y in Replace(xs, same, x) && same(y) ==> y == x
  {
    var r := Replace(xs, same, x);
    forall y | y in r && same(y) ensures y == x {
      var i :| 0 <= i < |r| && r[i] == y;
    }
  }
}
