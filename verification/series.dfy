/** Integer series with missing values: the first difference that turns
    cumulative case counts into daily new cases (pandas `Series.diff()`),
    and its inverse, the running sum that recovers the cumulative counts. */
module Series {
  import opened Wrappers

  /** Sum of a sequence of integers, accumulated from the back. */
  function Sum(s: seq<int>): (r: int)
  {
    if |s| == 0 then 0 else Sum(s[..|s| - 1]) + s[|s| - 1]
  }

  /** The defined entries of a series, in order: the view of a window that
      pandas' NaN-skipping aggregations work on. */
  function Present(s: seq<Option<int>>): (r: seq<int>)
    ensures |r| <= |s|
    ensures |r| == |s| <==> forall k :: 0 <= k < |s| ==> s[k].Some?
  {
    if |s| == 0 then []
    else
      var init := s[..|s| - 1];
      assert forall k :: 0 <= k < |init| ==> init[k] == s[k];
      Present(init) + (if s[|s| - 1].Some? then [s[|s| - 1].value] else [])
  }

  /** First difference of a series: undefined at index 0, and at every later
      index the change from the previous sample. */
  function Diff(xs: seq<int>): (r: seq<Option<int>>)
    ensures |r| == |xs|
    ensures forall i :: 0 <= i < |r| ==> (r[i].Some? <==> i > 0)
  {
    seq(|xs|, i requires 0 <= i < |xs| => if i == 0 then None else Some(xs[i] - xs[i - 1]))
  }

  /** Running sum of the defined differences after index 0, started from a
      known first value. */
  function Undiff(first: int, d: seq<Option<int>>): (r: seq<int>)
    ensures |r| == |d|
    ensures |d| > 0 ==> r[0] == first
  {
    seq(|d|, k requires 0 <= k < |d| => first + Sum(Present(d[1..k + 1])))
  }

  /** Every sample is at least the one before it. */
  ghost predicate NonDecreasing(xs: seq<int>)
  {
    forall i :: 0 < i < |xs| ==> xs[i - 1] <= xs[i]
  }

  lemma SumSnoc(s: seq<int>, v: int)
    ensures Sum(s + [v]) == Sum(s) + v
  {
    assert (s + [v])[..|s|] == s;
  }

  /** Appending one more entry to a window appends its value, if defined. */
  lemma PresentSnoc(s: seq<Option<int>>, x: Option<int>)
    ensures Present(s + [x]) == Present(s) + (if x.Some? then [x.value] else [])
  {
    assert (s + [x])[..|s|] == s;
  }

  /** Telescoping: the defined differences over indices lo..hi-1 add up to
      the change of the cumulative series across that span. */
  lemma {:induction false} TelescopingSum(xs: seq<int>, lo: nat, hi: nat)
    requires 1 <= lo <= hi <= |xs|
    ensures Sum(Present(Diff(xs)[lo..hi])) == xs[hi - 1] - xs[lo - 1]
  {
    if hi > lo {
      TelescopingSum(xs, lo, hi - 1);
      var d := Diff(xs);
      assert d[lo..hi] == d[lo..hi - 1] + [d[hi - 1]];
      PresentSnoc(d[lo..hi - 1], d[hi - 1]);
      SumSnoc(Present(d[lo..hi - 1]), xs[hi - 1] - xs[hi - 2]);
    }
  }

  /** The first value plus the running sum of the differences recovers the
      cumulative series. */
  lemma UndiffDiff(xs: seq<int>)
    requires |xs| > 0
    ensures Undiff(xs[0], Diff(xs)) == xs
  {
    forall k | 0 <= k < |xs|
      ensures Undiff(xs[0], Diff(xs))[k] == xs[k]
    {
      TelescopingSum(xs, 1, k + 1);
    }
  }

  /** Conversely, differencing the running sum gives back any series of
      differences whose only undefined entry is the first. */
  lemma DiffUndiff(first: int, d: seq<Option<int>>)
    requires |d| > 0 && d[0] == None
    requires forall k :: 1 <= k < |d| ==> d[k].Some?
    ensures Diff(Undiff(first, d)) == d
  {
    var u := Undiff(first, d);
    forall k | 1 <= k < |d|
      ensures Diff(u)[k] == d[k]
    {
      assert d[1..k + 1] == d[1..k] + [d[k]];
      PresentSnoc(d[1..k], d[k]);
      SumSnoc(Present(d[1..k]), d[k].value);
    }
  }

  /** Given its first value, a cumulative series is determined by its
      differences. */
  lemma DiffInjective(xs: seq<int>, ys: seq<int>)
    requires |xs| > 0 && |ys| > 0 && xs[0] == ys[0]
    requires Diff(xs) == Diff(ys)
    ensures xs == ys
  {
    UndiffDiff(xs);
    UndiffDiff(ys);
  }

  /** A non-decreasing series has no negative difference. */
  lemma NonDecreasingDiff(xs: seq<int>)
    requires NonDecreasing(xs)
    ensures forall i :: 0 <= i < |xs| && Diff(xs)[i].Some? ==> Diff(xs)[i].value >= 0
  {
  }

  lemma {:induction false} SumNonNegative(s: seq<int>)
    requires forall k :: 0 <= k < |s| ==> s[k] >= 0
    ensures Sum(s) >= 0
  {
    if |s| > 0 {
      SumNonNegative(s[..|s| - 1]);
    }
  }

  /** The defined entries of a series whose defined values are non-negative
      are non-negative. */
  lemma {:induction false} PresentNonNegative(s: seq<Option<int>>)
    requires forall k :: 0 <= k < |s| && s[k].Some? ==> s[k].value >= 0
    ensures forall k :: 0 <= k < |Present(s)| ==> Present(s)[k] >= 0
  {
    if |s| > 0 {
      PresentNonNegative(s[..|s| - 1]);
    }
  }
}
