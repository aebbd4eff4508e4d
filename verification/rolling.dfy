/** Trailing-window mean of a series with missing values, as pandas computes
    `Series.rolling(w).mean()` with its default `min_periods = w`: the mean at
    index i is taken over the defined values among the (at most) w samples
    ending at i, and is defined only when at least w of them are defined. */
module Rolling {
  import opened Wrappers
  import opened Series

  /** The trailing window of at most w samples that ends at index i. */
  function Window(xs: seq<Option<int>>, w: nat, i: nat): (r: seq<Option<int>>)
    requires i < |xs|
    ensures |r| <= w && |r| <= i + 1
    ensures i + 1 >= w ==> r == xs[i + 1 - w..i + 1]
  {
    xs[if i + 1 >= w then i + 1 - w else 0..i + 1]
  }

  /** Mean over one window: the number of defined observations must reach
      `minPeriods` and be positive, otherwise the result is undefined. */
  function WindowMean(xs: seq<Option<int>>, w: nat, minPeriods: nat, i: nat): (r: Option<real>)
    requires i < |xs|
  {
    var obs := Present(Window(xs, w, i));
    if |obs| >= minPeriods && |obs| > 0 then Some(Sum(obs) as real / |obs| as real) else None
  }

  /** `rolling(w).mean()` with pandas' default minimum period count, which
      equals the window length. */
  function RollingMean(xs: seq<Option<int>>, w: nat): (r: seq<Option<real>>)
    ensures |r| == |xs|
    ensures forall i :: 0 <= i < |xs| && i + 1 < w ==> r[i] == None
  {
    seq(|xs|, i requires 0 <= i < |xs| => WindowMean(xs, w, w, i))
  }

  /** Every sample of the window ending at i, i.e. indices i+1-w..i, exists
      and is defined. */
  ghost predicate FullWindow(xs: seq<Option<int>>, w: nat, i: nat)
  {
    i + 1 >= w && i < |xs| && forall j :: i + 1 - w <= j <= i ==> xs[j].Some?
  }

  /** The rolling mean is defined exactly where its whole window is present:
      a single undefined sample anywhere in the window makes it undefined. */
  lemma RollingDefinedIff(xs: seq<Option<int>>, w: nat, i: nat)
    requires w > 0 && i < |xs|
    ensures RollingMean(xs, w)[i].Some? <==> FullWindow(xs, w, i)
  {
    var win := Window(xs, w, i);
    if i + 1 >= w {
      assert forall k :: 0 <= k < |win| ==> win[k] == xs[i + 1 - w + k];
      if FullWindow(xs, w, i) {
        assert forall k :: 0 <= k < |win| ==> win[k].Some?;
      }
      if RollingMean(xs, w)[i].Some? {
        forall j | i + 1 - w <= j <= i
          ensures xs[j].Some?
        {
          assert win[j - (i + 1 - w)] == xs[j];
        }
      }
    }
  }

  /** Where the rolling mean is defined it is the arithmetic mean of the w
      values in its window. */
  lemma RollingValue(xs: seq<Option<int>>, w: nat, i: nat)
    requires w > 0 && i < |xs|
    requires RollingMean(xs, w)[i].Some?
    ensures |Present(Window(xs, w, i))| == w
    ensures RollingMean(xs, w)[i].value == Sum(Present(Window(xs, w, i))) as real / w as real
  {
  }

  /** Averaging never produces a negative value out of non-negative ones. */
  lemma RollingNonNegative(xs: seq<Option<int>>, w: nat)
    requires forall k :: 0 <= k < |xs| && xs[k].Some? ==> xs[k].value >= 0
    ensures forall i :: 0 <= i < |xs| && RollingMean(xs, w)[i].Some? ==> RollingMean(xs, w)[i].value >= 0.0
  {
    forall i | 0 <= i < |xs| && RollingMean(xs, w)[i].Some?
      ensures RollingMean(xs, w)[i].value >= 0.0
    {
      var win := Window(xs, w, i);
      assert forall k :: 0 <= k < |win| ==> win[k] == xs[(if i + 1 >= w then i + 1 - w else 0) + k];
      PresentNonNegative(win);
      SumNonNegative(Present(win));
    }
  }
}
