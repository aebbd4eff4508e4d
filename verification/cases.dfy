/** The per-region derivation of cases.py: for every region of a fixed list,
    select the state's rows (and, when a county is named, the county's rows),
    then add the daily new cases (first difference of the cumulative count)
    and their trailing 14-sample mean. */
module Cases {
  import opened Wrappers
  import opened Series
  import opened Rolling
  import opened Tables

  /** A calendar date, kept as an ordinal day number: the derivation is
      positional and never looks inside a date. */
  type Date = int

  /** One row of the state-level table. */
  datatype StateRow = StateRow(state: string, date: Date, cases: int)

  /** One row of the county-level table. */
  datatype CountyRow = CountyRow(state: string, county: string, date: Date, cases: int)

  /** One sample of a region's series once it is indexed by date. */
  datatype Sample = Sample(date: Date, cases: int)

  /** A sample with the two derived columns added. */
  datatype DerivedRow = DerivedRow(date: Date, cases: int, newCases: Option<int>, rolling14day: Option<real>)

  /** A state with an optional county inside it. */
  datatype RegionKey = RegionKey(state: string, county: Option<string>)

  /** The derived series of one region; `county` is present exactly when the
      key names a county. */
  datatype RegionReport = RegionReport(state: seq<DerivedRow>, county: Option<seq<DerivedRow>>)

  /** `.loc[key]` with no matching row raises KeyError carrying the key. */
  datatype LookupError = KeyError(key: string)

  /** Length of the trailing window of the moving average. */
  const RollingWindow: nat := 14

  function StateIs(s: string): StateRow -> bool
  {
    (row: StateRow) => row.state == s
  }

  function CountyStateIs(s: string): CountyRow -> bool
  {
    (row: CountyRow) => row.state == s
  }

  function CountyIs(c: string): CountyRow -> bool
  {
    (row: CountyRow) => row.county == c
  }

  function StateSample(row: StateRow): Sample
  {
    Sample(row.date, row.cases)
  }

  function CountySample(row: CountyRow): Sample
  {
    Sample(row.date, row.cases)
  }

  /** The series of state s: every state row labelled s, in table order. */
  function StateSeries(byState: seq<StateRow>, s: string): (r: seq<Sample>)
  {
    MapSeq(Filter(byState, StateIs(s)), StateSample)
  }

  /** The series of county c of state s: every county row labelled with
      both, in table order. */
  function CountySeries(byCnty: seq<CountyRow>, s: string, c: string): (r: seq<Sample>)
  {
    MapSeq(Filter(byCnty, Both(CountyStateIs(s), CountyIs(c))), CountySample)
  }

  /** Slicing the state table keeps table order: the series of a table made
      of two parts is the series of the first part followed by that of the
      second, and a single row contributes its sample exactly when it is
      labelled with the state. */
  lemma StateSeriesInOrder(xs: seq<StateRow>, ys: seq<StateRow>, row: StateRow, s: string)
    ensures StateSeries(xs + ys, s) == StateSeries(xs, s) + StateSeries(ys, s)
    ensures StateSeries([row], s) == if row.state == s then [Sample(row.date, row.cases)] else []
  {
    FilterConcat(xs, ys, StateIs(s));
    MapSeqConcat(Filter(xs, StateIs(s)), Filter(ys, StateIs(s)), StateSample);
    FilterSingleton(row, StateIs(s));
  }

  /** Slicing the county table keeps table order, and a single row
      contributes its sample exactly when both its state and its county
      match. */
  lemma CountySeriesInOrder(xs: seq<CountyRow>, ys: seq<CountyRow>, row: CountyRow, s: string, c: string)
    ensures CountySeries(xs + ys, s, c) == CountySeries(xs, s, c) + CountySeries(ys, s, c)
    ensures CountySeries([row], s, c) ==
      if row.state == s && row.county == c then [Sample(row.date, row.cases)] else []
  {
    var keep := Both(CountyStateIs(s), CountyIs(c));
    FilterConcat(xs, ys, keep);
    MapSeqConcat(Filter(xs, keep), Filter(ys, keep), CountySample);
    FilterSingleton(row, keep);
  }

  ghost predicate HasState(byState: seq<StateRow>, s: string)
  {
    exists j :: 0 <= j < |byState| && byState[j].state == s
  }

  ghost predicate HasCountyState(byCnty: seq<CountyRow>, s: string)
  {
    exists j :: 0 <= j < |byCnty| && byCnty[j].state == s
  }

  ghost predicate HasCounty(byCnty: seq<CountyRow>, s: string, c: string)
  {
    exists j :: 0 <= j < |byCnty| && byCnty[j].state == s && byCnty[j].county == c
  }

  /** `byState.loc[s]`: the rows of state s, or KeyError(s) when there are none. */
  function SelectState(byState: seq<StateRow>, s: string): (r: Result<seq<Sample>, LookupError>)
    ensures r.Failure? <==> !HasState(byState, s)
    ensures r.Failure? ==> r.error == KeyError(s)
    ensures r.Success? ==> r.value == StateSeries(byState, s) && |r.value| > 0
  {
    var rows := Filter(byState, StateIs(s));
    if |rows| == 0 then
      Failure(KeyError(s))
    else
      assert StateIs(s)(rows[0]);
      Success(MapSeq(rows, StateSample))
  }

  /** `byCnty.loc[s]` followed by `.loc[c]` on the county column: KeyError(s)
      when the state has no county rows, KeyError(c) when the county is not
      among them, and otherwise the rows of that county in table order. */
  function SelectCounty(byCnty: seq<CountyRow>, s: string, c: string): (r: Result<seq<Sample>, LookupError>)
    ensures !HasCountyState(byCnty, s) ==> r == Failure(KeyError(s))
    ensures HasCountyState(byCnty, s) && !HasCounty(byCnty, s, c) ==> r == Failure(KeyError(c))
    ensures HasCounty(byCnty, s, c) ==> r == Success(CountySeries(byCnty, s, c)) && |r.value| > 0
  {
    var inState := Filter(byCnty, CountyStateIs(s));
    if |inState| == 0 then
      Failure(KeyError(s))
    else
      assert CountyStateIs(s)(inState[0]);
      var rows := Filter(inState, CountyIs(c));
      FilterFilter(byCnty, CountyStateIs(s), CountyIs(c));
      if |rows| == 0 then
        Failure(KeyError(c))
      else
        assert Both(CountyStateIs(s), CountyIs(c))(rows[0]);
        Success(MapSeq(rows, CountySample))
  }

  /** The 14-sample moving average of the daily new cases is defined exactly
      from index 14 on, and there it is the mean of the last 14 daily counts,
      which telescopes to the change of the cumulative count over 14 samples. */
  lemma Rolling14OfDiff(cases: seq<int>, i: nat)
    requires i < |cases|
    ensures RollingMean(Diff(cases), RollingWindow)[i].Some? <==> i >= RollingWindow
    ensures i >= RollingWindow ==>
      RollingMean(Diff(cases), RollingWindow)[i] == Some((cases[i] - cases[i - RollingWindow]) as real / RollingWindow as real)
  {
    var d := Diff(cases);
    RollingDefinedIff(d, RollingWindow, i);
    if i >= RollingWindow {
      assert FullWindow(d, RollingWindow, i);
      RollingValue(d, RollingWindow, i);
      TelescopingSum(cases, i - 13, i + 1);
    } else if i + 1 >= RollingWindow {
      assert !d[0].Some?;
    }
  }

  /** A series of at most 14 samples has no defined moving average. */
  lemma ShortSeriesUndefined(cases: seq<int>)
    requires |cases| <= RollingWindow
    ensures forall i :: 0 <= i < |cases| ==> RollingMean(Diff(cases), RollingWindow)[i] == None
  {
    forall i | 0 <= i < |cases|
      ensures RollingMean(Diff(cases), RollingWindow)[i] == None
    {
      Rolling14OfDiff(cases, i);
    }
  }

  /** While cumulative counts never decrease, neither the daily counts nor
      their moving average are ever negative. */
  lemma NonDecreasingNonNegative(cases: seq<int>)
    requires NonDecreasing(cases)
    ensures forall i :: 0 <= i < |cases| && Diff(cases)[i].Some? ==> Diff(cases)[i].value >= 0
    ensures forall i :: 0 <= i < |cases| && RollingMean(Diff(cases), RollingWindow)[i].Some? ==>
      RollingMean(Diff(cases), RollingWindow)[i].value >= 0.0
  {
    NonDecreasingDiff(cases);
    RollingNonNegative(Diff(cases), RollingWindow);
  }

  /** The cumulative counts of a region's series. */
  function CasesOf(samples: seq<Sample>): (r: seq<int>)
    ensures |r| == |samples|
    ensures forall i {:trigger r[i]} :: 0 <= i < |samples| ==> r[i] == samples[i].cases
  {
    seq(|samples|, i requires 0 <= i < |samples| => samples[i].cases)
  }

  /** Rolling14OfDiff at every index of a region's series, stated over its samples. */
  lemma Rolling14OfSamples(samples: seq<Sample>)
    ensures forall i :: 0 <= i < |samples| ==>
      (RollingMean(Diff(CasesOf(samples)), RollingWindow)[i].Some? <==> i >= RollingWindow)
    ensures forall i :: RollingWindow <= i < |samples| ==>
      RollingMean(Diff(CasesOf(samples)), RollingWindow)[i]
        == Some((samples[i].cases - samples[i - 14].cases) as real / RollingWindow as real)
  {
    var cases := CasesOf(samples);
    forall i | 0 <= i < |samples|
      ensures RollingMean(Diff(cases), RollingWindow)[i].Some? <==> i >= RollingWindow
      ensures i >= RollingWindow ==>
        RollingMean(Diff(cases), RollingWindow)[i] == Some((samples[i].cases - samples[i - 14].cases) as real / RollingWindow as real)
    {
      Rolling14OfDiff(cases, i);
    }
  }

  /** Adds `newCases = cases.diff()` and `rolling14day = newCases.rolling(14).mean()`
      to a region's series, leaving dates and counts untouched. */
  function Derive(samples: seq<Sample>): (r: seq<DerivedRow>)
    ensures |r| == |samples|
    ensures forall i {:trigger r[i]} :: 0 <= i < |r| ==> r[i].date == samples[i].date && r[i].cases == samples[i].cases
    ensures |r| > 0 ==> r[0].newCases == None
    ensures forall i {:trigger r[i]} :: 0 < i < |r| ==> r[i].newCases == Some(samples[i].cases - samples[i - 1].cases)
    ensures forall i :: 0 <= i < |r| ==> (r[i].rolling14day.Some? <==> i >= RollingWindow)
    ensures forall i :: RollingWindow <= i < |r| ==>
      r[i].rolling14day == Some((samples[i].cases - samples[i - 14].cases) as real / RollingWindow as real)
  {
    var cases := CasesOf(samples);
    var newCases := Diff(cases);
    var rolling := RollingMean(newCases, RollingWindow);
    Rolling14OfSamples(samples);
    seq(|samples|, i requires 0 <= i < |samples| =>
      DerivedRow(samples[i].date, samples[i].cases, newCases[i], rolling[i]))
  }

  /** The daily counts of a derived series. */
  function NewCasesOf(rows: seq<DerivedRow>): (r: seq<Option<int>>)
    ensures |r| == |rows|
    ensures forall i :: 0 <= i < |rows| ==> r[i] == rows[i].newCases
  {
    seq(|rows|, i requires 0 <= i < |rows| => rows[i].newCases)
  }

  /** The derivation loses nothing: the first count plus the running sum of
      the daily new cases gives back the cumulative series. */
  lemma DeriveRoundTrip(samples: seq<Sample>)
    requires |samples| > 0
    ensures Undiff(samples[0].cases, NewCasesOf(Derive(samples))) == CasesOf(samples)
  {
    assert NewCasesOf(Derive(samples)) == Diff(CasesOf(samples));
    UndiffDiff(CasesOf(samples));
  }

  /** One pass of the loop body: derive the state series and, when a county
      is named, the county series with the very same derivation. A region
      missing from a table raises KeyError in lookup order: the state in the
      state table, the state in the county table, then the county. */
  function AnalyzeRegion(byState: seq<StateRow>, byCnty: seq<CountyRow>, key: RegionKey): (r: Result<RegionReport, LookupError>)
    ensures !HasState(byState, key.state) ==> r == Failure(KeyError(key.state))
    ensures HasState(byState, key.state) && key.county.Some? && !HasCountyState(byCnty, key.state) ==>
      r == Failure(KeyError(key.state))
    ensures (HasState(byState, key.state) && key.county.Some? && HasCountyState(byCnty, key.state)
             && !HasCounty(byCnty, key.state, key.county.value)) ==> r == Failure(KeyError(key.county.value))
    ensures r.Success? <==>
      HasState(byState, key.state) && (key.county.Some? ==> HasCounty(byCnty, key.state, key.county.value))
    ensures r.Success? ==> r.value.state == Derive(StateSeries(byState, key.state))
    ensures r.Success? ==> (r.value.county.Some? <==> key.county.Some?)
    ensures r.Success? && key.county.Some? ==>
      r.value.county == Some(Derive(CountySeries(byCnty, key.state, key.county.value)))
  {
    match SelectState(byState, key.state)
    case Failure(e) => Failure(e)
    case Success(stateSeries) =>
      var state := Derive(stateSeries);
      match key.county
      case None => Success(RegionReport(state, None))
      case Some(c) =>
        match SelectCounty(byCnty, key.state, c)
        case Failure(e) => Failure(e)
        case Success(countySeries) => Success(RegionReport(state, Some(Derive(countySeries))))
  }

  /** Key k is the first of the list whose analysis fails, and it fails
      with error e. */
  ghost predicate FirstFailure<K, R, E>(keys: seq<K>, analyze: K -> Result<R, E>, k: int, e: E)
  {
    && 0 <= k < |keys|
    && (forall i :: 0 <= i < k ==> analyze(keys[i]).Success?)
    && analyze(keys[k]) == Failure(e)
  }

  /** Runs `analyze` on every key in list order; the first failure aborts
      the run, as an uncaught exception in a loop body does. */
  method RunInOrder<K, R, E>(keys: seq<K>, analyze: K -> Result<R, E>) returns (r: Result<seq<R>, E>)
    ensures r.Success? <==> forall i :: 0 <= i < |keys| ==> analyze(keys[i]).Success?
    ensures r.Success? ==> |r.value| == |keys|
    ensures r.Success? ==> forall i :: 0 <= i < |keys| ==> analyze(keys[i]) == Success(r.value[i])
    ensures r.Failure? ==> exists k :: FirstFailure(keys, analyze, k, r.error)
  {
    var results: seq<R> := [];
    var i := 0;
    while i < |keys|
      invariant 0 <= i <= |keys|
      invariant |results| == i
      invariant forall j :: 0 <= j < i ==> analyze(keys[j]) == Success(results[j])
    {
      var a := analyze(keys[i]);
      if a.Failure? {
        assert FirstFailure(keys, analyze, i, a.error);
        return Failure(a.error);
      }
      results := results + [a.value];
      i := i + 1;
    }
    return Success(results);
  }

  /** The loop body of the script as a function of the region key. */
  function Analyzer(byState: seq<StateRow>, byCnty: seq<CountyRow>): RegionKey -> Result<RegionReport, LookupError>
  {
    key => AnalyzeRegion(byState, byCnty, key)
  }

  /** The script's main loop: the regions are analysed in list order and the
      first KeyError aborts the whole run. */
  method RunRegions(byState: seq<StateRow>, byCnty: seq<CountyRow>, regions: seq<RegionKey>)
    returns (r: Result<seq<RegionReport>, LookupError>)
    ensures r.Success? <==> forall i :: 0 <= i < |regions| ==> AnalyzeRegion(byState, byCnty, regions[i]).Success?
    ensures r.Success? ==> |r.value| == |regions|
    ensures r.Success? ==> forall i :: 0 <= i < |regions| ==>
      AnalyzeRegion(byState, byCnty, regions[i]) == Success(r.value[i])
    ensures r.Failure? ==> exists k :: FirstFailure(regions, Analyzer(byState, byCnty), k, r.error)
  {
    r := RunInOrder(regions, Analyzer(byState, byCnty));
  }

  /** Five days of cumulative counts 10, 10, 12, 12, 15 give daily counts
      undefined, 0, 2, 0, 3 and no defined moving average. */
  lemma FiveDayScenario()
    ensures Diff([10, 10, 12, 12, 15]) == [None, Some(0), Some(2), Some(0), Some(3)]
    ensures forall i :: 0 <= i < 5 ==> RollingMean(Diff([10, 10, 12, 12, 15]), RollingWindow)[i] == None
  {
    ShortSeriesUndefined([10, 10, 12, 12, 15]);
  }
}
