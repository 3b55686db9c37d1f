# Bitcoin dashboard: date filter and daily resampling

This project models the data pipeline of a one-page Streamlit dashboard for
hourly Bitcoin OHLCV bars (open, high, low, close, volume). On each
interaction the dashboard does four things:

- it keeps the rows whose calendar date lies in the slider's inclusive
  `[start_date, end_date]` range;
- when more than 10000 rows survive, it resamples them to one bar per day:
  first open, max high, min low, last close and summed volume;
- it shows three figures taken from the filtered rows: average close, total
  volume and maximum close;
- it bounds the candlestick chart's vertical axis by the lowest low and the
  highest high of the charted rows.

The slider's range runs from the date of the earliest index entry to the
date of the latest one, and starts out at that whole range.

Modules:

- `Bars`: bars, the calendar day of an hour timestamp and column reductions.
- `DateFilter`: the date mask and the slider bounds.
- `Aggregation`: the daily resampling as the dashboard charts it, one bar per
  day that holds data.
- `Bins`: the daily bins the resampler lays out, one for every day from the
  first to the last day of the data, including empty ones.
- `Metrics`: the summary figures.
- `Dashboard`: one render pass.

Timestamps are whole hours since an epoch. The day of a timestamp is that
number divided by 24, rounded down. Prices and volumes are exact reals. Where
pandas produces NaN (the mean, maximum or bounds of no rows, the prices of an
empty bin), the model yields `None`. The aggregation threshold is a
parameter; the dashboard's value is `Dashboard.DefaultThreshold` (10000).

The ordering results assume a time series: timestamps strictly increasing,
as the dataset's index is. That assumption is the predicate
`Bars.Increasing`, stated as a `requires` only on the lemmas that need it.
The operations themselves accept any sequence.

Daily bars and calendar bins. The model charts one bar per day that holds
data (`Aggregation.Resample`). `resample('1D')` at Bitcoin_Streamlit.py:40
also emits a row for every empty calendar day between the first and the last
day of the data, with NaN prices and zero volume. Those rows are modelled in
`Bins` (`Bins.DenseBins`), which proves how the two layouts agree:

- the non-empty bins are exactly the days of the daily bars;
- each non-empty bin holds the bars that its daily bar summarises;
- an empty bin shows no prices and zero volume.

Consequently the bound "never more daily rows than filtered rows" holds
only for the bars that hold data. The calendar bins can outnumber the rows
(`Bins.DenseCanOutnumberRows`).

## Model

| member | source | states |
|---|---|---|
| Bars.Day | Bitcoin_Streamlit.py:35 | the calendar day of an hour timestamp is the day whose 24 hours hold it (floor division) |
| Bars.DayMonotone | Bitcoin_Streamlit.py:35 | a later timestamp never lies on an earlier day |
| Bars.Max | Bitcoin_Streamlit.py:42 | the maximum of a non-empty column bounds every value and is one of them |
| Bars.Min | Bitcoin_Streamlit.py:43 | the minimum of a non-empty column is below every value and is one of them |
| Bars.MeanBetween | Bitcoin_Streamlit.py:56 | the mean of a non-empty column lies within any bounds of its values |
| Bars.TotalVolume | Bitcoin_Streamlit.py:58 | the volume sum; no contract of its own, stated by Bars.TotalVolumeConcat, Aggregation.ResampleVolume and Metrics.SummaryPresence (0 on no rows) |
| Bars.TotalVolumeConcat | Bitcoin_Streamlit.py:45 | summed volume adds up across a split of the series |
| DateFilter.InRange | Bitcoin_Streamlit.py:35 | the mask; no contract of its own, stated by DateFilter.InRangeHours as an hour range |
| DateFilter.Filter | Bitcoin_Streamlit.py:35-36 | a bar is kept exactly when it is in the input and its day lies in [start, end]; never more rows than the input |
| DateFilter.FilterIsSubsequence | Bitcoin_Streamlit.py:36 | the kept rows keep their original relative order |
| DateFilter.FilterExact | Bitcoin_Streamlit.py:35-36 | on a time series, the only ordered series holding exactly the in-range bars is the filter's result |
| DateFilter.FilterIncreasing | Bitcoin_Streamlit.py:36 | filtering a time series yields a time series |
| DateFilter.InRangeHours | Bitcoin_Streamlit.py:35 | a bar passes exactly when its hour lies in [24 * start, 24 * end + 24), so every hour of the end date is included |
| DateFilter.FilterConcat | Bitcoin_Streamlit.py:35 | the mask applies row by row: filtering a concatenation concatenates the filtered parts |
| DateFilter.FilterSplit | Bitcoin_Streamlit.py:35 | filtering a series cut at any point concatenates the filtered parts |
| DateFilter.FilterAllInRange | Bitcoin_Streamlit.py:35-36 | a series whose every bar is in range passes unchanged |
| DateFilter.FilterNoneInRange | Bitcoin_Streamlit.py:35-36 | a series with no bar in range filters to no rows |
| DateFilter.FilterMonotone | Bitcoin_Streamlit.py:35 | widening the range never drops a row: the narrower result is a subsequence of the wider one and no longer |
| DateFilter.MinTs | Bitcoin_Streamlit.py:23 | the index minimum is at most every timestamp and is one of them |
| DateFilter.MaxTs | Bitcoin_Streamlit.py:24 | the index maximum is at least every timestamp and is one of them |
| DateFilter.DateBounds | Bitcoin_Streamlit.py:23-24 | the slider's bounds exist exactly for a non-empty series; they are ordered, enclose every bar's day and are each some bar's day |
| DateFilter.DefaultRangeKeepsAll | Bitcoin_Streamlit.py:23-35 | with the slider at its default full range, the filter keeps every row, in order |
| Aggregation.SameDayRun | Bitcoin_Streamlit.py:40 | the leading bars counted all lie on the given day, and the next bar does not |
| Aggregation.FirstRun | Bitcoin_Streamlit.py:40 | the first day's leading run of a non-empty series holds at least one bar |
| Aggregation.Buckets | Bitcoin_Streamlit.py:40 | the day buckets are all non-empty and never outnumber the bars |
| Aggregation.BucketsFlatten | Bitcoin_Streamlit.py:40 | the buckets, concatenated, give back the series: no bar dropped, duplicated or reordered |
| Aggregation.RestOnLaterDays | Bitcoin_Streamlit.py:40 | on a time series every bar after the first day's run lies on a later day |
| Aggregation.FilterSkipsFirstRun | Bitcoin_Streamlit.py:40 | the first day's run holds no bar of any other day |
| Aggregation.FirstRunOnFirstDay | Bitcoin_Streamlit.py:40 | the first day's run lies wholly on the first day |
| Aggregation.RestOffFirstDay | Bitcoin_Streamlit.py:40 | on a time series no bar after the first day's run lies on the first day |
| Aggregation.FirstBucketIsDay | Bitcoin_Streamlit.py:40 | on a time series the first bucket is exactly the bars of the first day |
| Aggregation.LaterBucketIsDay | Bitcoin_Streamlit.py:40 | on a time series each later bucket is exactly the bars of its day |
| Aggregation.BucketIsDay | Bitcoin_Streamlit.py:40 | on a time series every bucket is exactly the bars of its day, in order |
| Aggregation.LaterBucketsLaterDays | Bitcoin_Streamlit.py:40 | on a time series every later bucket lies on a later day than the first |
| Aggregation.BucketDaysIncreasing | Bitcoin_Streamlit.py:40 | on a time series the buckets' days strictly increase |
| Aggregation.BucketOf | Bitcoin_Streamlit.py:40 | every bar's day is the day of some bucket |
| Aggregation.Resample | Bitcoin_Streamlit.py:40-46 | there are never more daily bars than input rows |
| Aggregation.AggregateBucket | Bitcoin_Streamlit.py:40-46 | the agg of one day; no contract of its own, stated by Aggregation.AggregateFields |
| Aggregation.AggregateAllVolume | Bitcoin_Streamlit.py:45 | summarising buckets keeps their total volume |
| Aggregation.ResampleVolume | Bitcoin_Streamlit.py:45 | resampling neither creates nor loses volume |
| Aggregation.AggregateFields | Bitcoin_Streamlit.py:40-46 | a bucket's bar is labelled at its day's midnight and has the first open, the last close, a high that bounds and is one of the highs, a low that bounds and is one of the lows, and the summed volume |
| Aggregation.ResampleBucket | Bitcoin_Streamlit.py:40-46 | on a time series each daily bar sits at its day's midnight, and its day's bars are non-empty; it has their first open, last close, attained max high, attained min low and summed volume |
| Aggregation.ResampleIncreasing | Bitcoin_Streamlit.py:40 | on a time series the daily bars are in strictly increasing day order |
| Aggregation.ResampleOnDataDays | Bitcoin_Streamlit.py:40 | on a time series every daily bar is labelled with the midnight of a day that holds data |
| Aggregation.ResampleCoversDays | Bitcoin_Streamlit.py:40 | every day that holds data has a daily bar labelled with its midnight |
| Bins.BinsFrom | Bitcoin_Streamlit.py:40 | a span of n days from a first day is laid out as exactly n bins; what each bin holds is stated by Bins.BinsFromDays |
| Bins.DenseBins | Bitcoin_Streamlit.py:40 | the library's layout of the data's days; no contract of its own, stated by Bins.DenseSpan, Bins.DenseGap, Bins.DenseHoldsResample and Bins.DenseFilledIsResampled |
| Bins.BinBar | Bitcoin_Streamlit.py:40-46 | the row a bin shows; no contract of its own, stated by Bins.GapRow for empty bins, and for a non-empty bin it is the summary bar described by Aggregation.AggregateFields |
| Bins.BinVolume | Bitcoin_Streamlit.py:45 | the volume a bin shows; no contract of its own, stated by Bins.GapRow (0 for an empty bin) |
| Bins.BinsFromDays | Bitcoin_Streamlit.py:40 | bin j of the layout is the day j days after the first, and a bar is in it exactly when it is a bar of the series falling on that day |
| Bins.BinGap | Bitcoin_Streamlit.py:40 | a bin is empty exactly when no bar falls on its day |
| Bins.ResampledDay | Bitcoin_Streamlit.py:40 | on a time series the day of every daily bar holds a bar of the series |
| Bins.DayWithinBounds | Bitcoin_Streamlit.py:23-24 | every bar's day lies within the slider's range of the series |
| Bins.DenseSpan | Bitcoin_Streamlit.py:40 | the bins exist exactly for a non-empty series, one per day from its first to its last day |
| Bins.DenseGap | Bitcoin_Streamlit.py:40 | bin j is the day j days after the first, and it is empty exactly when no bar falls on that day |
| Bins.DenseHoldsResample | Bitcoin_Streamlit.py:40-46 | on a time series the day of each daily bar lies within the bins, and its bin holds exactly the bars that the daily bar summarises |
| Bins.DenseFilledIsResampled | Bitcoin_Streamlit.py:40 | on a time series every non-empty bin is the day of some daily bar |
| Bins.GapRow | Bitcoin_Streamlit.py:40-46 | an empty bin shows no prices and zero volume |
| Bins.DenseCanOutnumberRows | Bitcoin_Streamlit.py:40 | the bins can outnumber the rows: two bars two days apart give three bins |
| Metrics.MeanClose | Bitcoin_Streamlit.py:56 | the mean close is absent exactly on no rows, and otherwise lies between the lowest and the highest close |
| Metrics.MaxClose | Bitcoin_Streamlit.py:60 | the max close is absent exactly on no rows, and otherwise is at least every close and is one of them |
| Metrics.Summarize | Bitcoin_Streamlit.py:56-60 | the three figures of a selection; no contract of its own, stated by Metrics.MeanClose, Metrics.MaxClose and Metrics.SummaryPresence |
| Metrics.SummaryPresence | Bitcoin_Streamlit.py:56-60 | on no rows the total volume is 0 and mean and max are absent; on some rows both are present |
| Dashboard.Process | Bitcoin_Streamlit.py:35-49 | a row is filtered in exactly when it is in range; aggregation happens exactly when the filtered rows exceed the threshold; otherwise the chart is the filtered rows; the chart is never longer and has the same total volume |
| Dashboard.ProcessOnTimeSeries | Bitcoin_Streamlit.py:35-49 | on a time series the filtered rows are the ordered filter result, both outputs are time series, and an aggregated chart is the daily resampling of the filtered rows |
| Dashboard.ThresholdBoundary | Bitcoin_Streamlit.py:39-49 | at exactly the threshold the chart is the filtered data; one row more and it is resampled |
| Dashboard.DefaultThresholdBoundary | Bitcoin_Streamlit.py:39-49 | with the dashboard's threshold, 10000 filtered rows are charted as they are and 10001 are charted as daily bars |
| Dashboard.YBounds | Bitcoin_Streamlit.py:68-69 | bounds are absent exactly for no chart rows; otherwise y_min is at most every low, y_max is at least every high, and each is attained |
| Dashboard.Render | Bitcoin_Streamlit.py:39-69 | the figures come from the filtered rows; the warning appears exactly when aggregating and reports the filtered row count; the candlestick bounds are those of the chart rows |
| Dashboard.MetricsIgnoreAggregation | Bitcoin_Streamlit.py:56-60 | the figures do not depend on the threshold, and the total volume shown equals the charted rows' volume |
| Dashboard.EmptySelection | Bitcoin_Streamlit.py:35-69 | a range holding no bar gives no rows, no aggregation, no warning, no bounds, no mean or max, and a volume of 0 |
| Dashboard.DefaultSelectionKeepsAll | Bitcoin_Streamlit.py:23-36 | with the slider at its default, all rows of a non-empty series are filtered in |

## Left out

- Data loading: reading the parquet file, the `@st.cache_data` memoisation and the error path around the load (Bitcoin_Streamlit.py:9-18) are file I/O and framework caching. The loaded series is a parameter.
- The user interface: page setup, headers, title, column layout and the metric and warning widgets (Bitcoin_Streamlit.py:6, 20-32, 47, 51-62). The slider's chosen dates are parameters. The warning is modelled only as its presence and its row count (`Dashboard.Render`).
- Charts: every Plotly figure and layout option (Bitcoin_Streamlit.py:71-147) is rendering through an external library. Only the y-bounds that feed the candlestick are modelled.
- Formatting: the currency and thousands formatting of the figures (Bitcoin_Streamlit.py:56-60) is presentation only.
- Metrics.MeanClose: computed exactly over reals. It does not model floating-point rounding of the mean or of the summed volume.
- Timezones and real calendar dates: timestamps are abstract whole hours, and a day is 24 of them.
- NaN: pandas' NaN results are modelled as `None`. No arithmetic on NaN is modelled.
- DateFilter.DateBounds: on an empty dataset it yields `None`. The source would fail building the slider from NaT bounds; that failure is not modelled.
- Aggregation.Resample: it cuts the series into runs of consecutive bars on one day. This agrees with the library's grouping by day only on a time series, which is what every lemma about it assumes. The result on unsorted input is not related to the library's behaviour.
- Dashboard.Process: it charts the sparse daily bars. The empty-day rows that the library actually emits are modelled separately in `Bins` and are not passed to `Dashboard.YBounds`. For the bounds this makes no difference, because pandas' min and max skip NaN.
