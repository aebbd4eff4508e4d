/** Row selection on a table held as a sequence of records: the model of
    pandas `.loc[label]` on a non-unique index, which keeps every row whose
    label matches, in table order. */
module Tables {

  /** The rows that satisfy `keep`, in their original order. */
  function Filter<T>(xs: seq<T>, keep: T -> bool): (r: seq<T>)
    ensures |r| <= |xs|
    ensures forall k :: 0 <= k < |r| ==> r[k] in xs && keep(r[k])
    ensures forall k :: 0 <= k < |xs| && keep(xs[k]) ==> xs[k] in r
  {
    if |xs| == 0 then []
    else
      var init := xs[..|xs| - 1];
      assert xs == init + [xs[|xs| - 1]];
      Filter(init, keep) + (if keep(xs[|xs| - 1]) then [xs[|xs| - 1]] else [])
  }

  /** Applies `f` to every row. */
  function MapSeq<T, U>(xs: seq<T>, f: T -> U): (r: seq<U>)
    ensures |r| == |xs|
    ensures forall k :: 0 <= k < |xs| ==> r[k] == f(xs[k])
  {
    seq(|xs|, k requires 0 <= k < |xs| => f(xs[k]))
  }

  /** Conjunction of two row predicates. */
  function Both<T>(p: T -> bool, q: T -> bool): T -> bool
  {
    x => p(x) && q(x)
  }

  /** Selection keeps table order: filtering a concatenation filters each
      part and concatenates the results in the same order. */
  lemma {:induction false} FilterConcat<T>(xs: seq<T>, ys: seq<T>, keep: T -> bool)
    ensures Filter(xs + ys, keep) == Filter(xs, keep) + Filter(ys, keep)
  {
    if |ys| > 0 {
      var init := ys[..|ys| - 1];
      var last := ys[|ys| - 1];
      var tail := if keep(last) then [last] else [];
      assert (xs + ys)[..|xs + ys| - 1] == xs + init;
      assert (xs + ys)[|xs + ys| - 1] == last;
      assert Filter(xs + ys, keep) == Filter(xs + init, keep) + tail;
      assert Filter(ys, keep) == Filter(init, keep) + tail;
      FilterConcat(xs, init, keep);
    } else {
      assert xs + ys == xs;
    }
  }

  /** A single row is kept or dropped according to `keep`. */
  lemma FilterSingleton<T>(x: T, keep: T -> bool)
    ensures Filter([x], keep) == if keep(x) then [x] else []
  {
    assert [x][..0] == [];
  }

  /** Selecting on `p` and then on `q` selects exactly the rows satisfying
      both, in table order. */
  lemma {:induction false} FilterFilter<T>(xs: seq<T>, p: T -> bool, q: T -> bool)
    ensures Filter(Filter(xs, p), q) == Filter(xs, Both(p, q))
  {
    if |xs| > 0 {
      var init := xs[..|xs| - 1];
      var last := xs[|xs| - 1];
      FilterFilter(init, p, q);
      var tail := if p(last) then [last] else [];
      FilterConcat(Filter(init, p), tail, q);
      if p(last) {
        FilterSingleton(last, q);
      }
    }
  }

  /** Applying `f` row by row commutes with concatenation. */
  lemma MapSeqConcat<T, U>(xs: seq<T>, ys: seq<T>, f: T -> U)
    ensures MapSeq(xs + ys, f) == MapSeq(xs, f) + MapSeq(ys, f)
  {
  }
}
