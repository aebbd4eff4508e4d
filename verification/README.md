# Daily new cases and their 14-day moving average, per region

A Dafny model of the per-region derivation in `cases.py` of the covid19 chart
scripts. For each region of a fixed list (a state, optionally with one of its
counties) the script slices the state-level table of cumulative case counts,
and the county-level table when a county is named. It then adds two columns
to each slice:

- `newCases`, the first difference of the cumulative `cases` column
  (`cases.diff()`), undefined (NaN) at the first sample;
- `rolling14day`, the trailing mean of `newCases` over 14 samples
  (`rolling(14).mean()`), which uses pandas' default minimum period count of
  14 and so is undefined wherever the window is short or holds a NaN.

Counts are `int`, means are `real`, and a NaN cell is `Option.None`.

Modules:

- `Wrappers` (wrappers.dfy): `Option` for cells that may be NaN, `Result` for
  lookups that may raise.
- `Series` (series.dfy): `Diff` (pandas `diff()`), its inverse `Undiff` (a
  running sum from a known first value), `Sum` and `Present` (the defined
  values of a window). It also holds the telescoping and round-trip lemmas.
- `Rolling` (rolling.dfy): `RollingMean`, pandas `rolling(w).mean()` with
  `min_periods = w`. A window mean is defined when the window holds at least
  `min_periods` defined values, and at least one. It is then the sum of the
  defined values divided by their number.
- `Tables` (tables.dfy): `Filter`, the rows of a table that match a label, in
  table order (`.loc[label]` on a non-unique index). It also has `MapSeq` and
  the lemmas showing that selection keeps table order.
- `Cases` (cases.dfy): the two tables, state and county selection with
  `KeyError`, `Derive` (the two added columns), `AnalyzeRegion` (one pass of
  the loop body) and `RunRegions` (the loop over the region list).

The main results:

- Both derived columns have the length of the input.
- `newCases` is undefined exactly at index 0. Everywhere else it is the
  change from the previous sample.
- `rolling14day` is undefined exactly at indices 0 to 13: 14 leading
  undefined values, not 13. At every index i from 14 on it is
  `(cases[i] - cases[i-14]) / 14`.
- The first count plus the running sum of `newCases` gives back `cases`.
  Conversely, differencing a running sum gives back the differences.
- Non-decreasing counts never yield a negative daily count or average.
- The county series holds exactly the rows with the given state and county,
  in table order. It goes through the same `Derive` as the state series.

A 14-sample mean of a differenced series has 14 leading undefined values,
not 13. `diff()` leaves index 0 undefined, so the window ending at index 13
has only 13 observations, below the default minimum of 14.

## Model

| member | source | states |
|---|---|---|
| Series.Diff | cases.py:34 | `newCases` has the length of `cases` and is undefined exactly at index 0 |
| Series.TelescopingSum | cases.py:34-35 | the defined daily counts over indices lo..hi-1 add up to `cases[hi-1] - cases[lo-1]` |
| Series.UndiffDiff | cases.py:34 | round trip: `cases[0]` plus the running sum of `newCases` recovers `cases` exactly |
| Series.DiffUndiff | cases.py:34 | reverse round trip: a running sum, differenced again, gives back any difference series whose only undefined entry is the first |
| Series.DiffInjective | cases.py:34 | two cumulative series with the same first value and the same daily counts are equal |
| Series.NonDecreasingDiff | cases.py:34 | non-decreasing cumulative counts give no negative daily count |
| Rolling.RollingMean | cases.py:35 | the moving average has the length of its input and is undefined at every index whose window holds fewer than 14 samples |
| Rolling.RollingDefinedIff | cases.py:35 | the moving average at i is defined if and only if all w samples i+1-w..i exist and are defined |
| Rolling.RollingValue | cases.py:35 | where defined, the moving average is the sum of the w window values divided by w |
| Rolling.RollingNonNegative | cases.py:35 | averaging non-negative daily counts never gives a negative mean |
| Tables.Filter | cases.py:32 | `.loc[label]` keeps only rows that match the label and come from the table, and keeps every matching row |
| Tables.FilterConcat | cases.py:32 | selection keeps table order: selecting from a concatenation concatenates the selections |
| Tables.FilterFilter | cases.py:39-41 | selecting by state and then by county is the same as selecting rows that match both |
| Cases.SelectState | cases.py:32-33 | `byState.loc[s]` raises KeyError(s) exactly when no row has state s, and otherwise yields the non-empty state series |
| Cases.SelectCounty | cases.py:39-42 | KeyError(s) when the county table has no row of state s, KeyError(c) when that state has no county c, otherwise the rows with state s and county c in table order |
| Cases.StateSeriesInOrder | cases.py:32 | the state series of a concatenated table is the concatenation of the series; a single row contributes its date and count exactly when it is labelled s |
| Cases.CountySeriesInOrder | cases.py:39-42 | the same for the county series, where a row must match both state s and county c |
| Cases.Rolling14OfDiff | cases.py:34-35 | `rolling14day[i]` is defined if and only if i >= 14, and then equals `(cases[i] - cases[i-14]) / 14` |
| Cases.ShortSeriesUndefined | cases.py:35 | a series of at most 14 samples has an all-undefined `rolling14day` |
| Cases.NonDecreasingNonNegative | cases.py:34-35 | with non-decreasing counts, every defined `newCases` and `rolling14day` value is non-negative |
| Cases.Derive | cases.py:32-35 | derivation keeps length, dates and counts; `newCases` is undefined only at 0 and is the day-on-day change elsewhere; `rolling14day` is defined iff i >= 14 and then equals `(cases[i] - cases[i-14]) / 14` |
| Cases.DeriveRoundTrip | cases.py:34 | the derived `newCases` column and the first count determine the cumulative column |
| Cases.AnalyzeRegion | cases.py:31-44 | KeyError in lookup order (state table, county table's state, county); success iff every lookup finds rows; the state and county reports are the same `Derive` applied to the two slices; a county report exists iff a county is named |
| Cases.RunInOrder | cases.py:29 | the loop succeeds iff every iteration succeeds, then yields one result per key in order; otherwise it fails with the error of the first failing key |
| Cases.RunRegions | cases.py:29-44 | every region of the list gets its `AnalyzeRegion` report in list order, or the run stops at the first region that raises KeyError |
| Cases.FiveDayScenario | cases.py:34-35 | cumulative counts 10, 10, 12, 12, 15 give daily counts undefined, 0, 2, 0, 3 and an all-undefined moving average |

## Left out

- Loading the two tables with `pd.read_csv` from remote URLs (cases.py:13-17) is network I/O. The tables are inputs to the model.
- Figure construction, styling, legends and saving the image (cases.py:46-99) are presentation and file output with no invariants.
- The `us_state_abbrev` lookup (cases.py:10, cases.py:98) only names output files. The `us_state_abbrev` module is not part of this model.
- pandas index mechanics (`reset_index`, `set_index`) are not modelled. A region is a filtered sequence of (date, cases) samples.
- When `.loc` matches exactly one row, pandas returns a Series instead of a frame. Its `reset_index()` has only the columns `index` and the row's label, so the next `set_index('date')` (cases.py:33, cases.py:42) or `set_index('county')` (cases.py:40) raises KeyError and the script stops. The model deliberately differs here: `SelectState`, `SelectCounty` and `AnalyzeRegion` return `Success` for a one-row slice, as for any other non-empty slice.
- The tables' other columns (fips, deaths) are carried along by the script without change. They are not modelled.
- Dates are opaque ordinal day numbers. Neither the script nor the model sorts or checks the rows: `diff` and `rolling` work by position, in table order. That the rows come in ascending date order is a property of the input data, not something the model encodes.
- The fixed region list (cases.py:20-27) is not a constant of the model. `RunRegions` takes the list of regions as a parameter, and its contract holds for every list, that one included.
- Floating-point rounding of the mean and of the float-typed difference column is not modelled. The model uses exact `int` and `real`.
- Rolling.RollingMean: models only pandas' default `min_periods`, equal to the window length. That is the only setting the script uses.
