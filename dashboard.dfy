/**
  One render pass of the dashboard: filter the loaded series to the selected
  days, aggregate it to daily bars when too many rows remain, and derive the
  summary figures (from the filtered rows) and the candlestick chart's
  vertical bounds (from the chart rows).
 */
module Dashboard {
  import opened Wrappers
  import opened Bars
  import opened DateFilter
  import opened Aggregation
  import opened Metrics

  /** Above this many filtered rows the chart shows daily bars. */
  const DefaultThreshold: nat := 10000

  /** The rows of one pass: the filtered rows, the rows charted, and whether they were aggregated. */
  datatype Pipeline = Pipeline(filtered: seq<Bar>, chart: seq<Bar>, aggregated: bool)

  /**
    Filter, then aggregate if large. The filtered rows are the bars of the
    selected days; aggregation happens exactly when they outnumber the
    threshold; otherwise the chart shows the filtered rows themselves. The
    chart never has more rows than the filtered data, and the same total
    volume.
   */
  function Process(s: seq<Bar>, start: int, end: int, threshold: nat): (p: Pipeline)
    ensures forall b :: b in p.filtered <==> b in s && InRange(b, start, end)
    ensures p.aggregated <==> |p.filtered| > threshold
    ensures !p.aggregated ==> p.chart == p.filtered
    ensures |p.chart| <= |p.filtered|
    ensures TotalVolume(p.chart) == TotalVolume(p.filtered)
  {
    var filtered := Filter(s, start, end);
    if |filtered| > threshold then
      ResampleVolume(filtered);
      Pipeline(filtered, Resample(filtered), true)
    else
      Pipeline(filtered, filtered, false)
  }

  /**
    On a time series both outputs are time series, the filtered rows are
    exactly the filter's result, and when aggregated the chart is the daily
    resampling of the filtered rows.
   */
  lemma ProcessOnTimeSeries(s: seq<Bar>, start: int, end: int, threshold: nat)
    requires Increasing(s)
    ensures var p := Process(s, start, end, threshold);
      && p.filtered == Filter(s, start, end)
      && Increasing(p.filtered)
      && Increasing(p.chart)
      && (p.aggregated ==> p.chart == Resample(p.filtered))
  {
    var f := Filter(s, start, end);
    FilterIncreasing(s, start, end);
    if |f| > threshold {
      ResampleIncreasing(f);
    }
  }

  /** At exactly the threshold the chart is the filtered data; one row more and it is aggregated. */
  lemma ThresholdBoundary(s: seq<Bar>, start: int, end: int, threshold: nat)
    ensures |Filter(s, start, end)| == threshold ==>
      !Process(s, start, end, threshold).aggregated
      && Process(s, start, end, threshold).chart == Filter(s, start, end)
    ensures |Filter(s, start, end)| == threshold + 1 ==>
      Process(s, start, end, threshold).aggregated
      && Process(s, start, end, threshold).chart == Resample(Filter(s, start, end))
  {
  }

  /**
    The dashboard's own threshold: 10000 filtered rows are charted as they
    are, 10001 are charted as daily bars.
   */
  lemma DefaultThresholdBoundary(s: seq<Bar>, start: int, end: int)
    ensures |Filter(s, start, end)| == 10000 ==>
      !Process(s, start, end, DefaultThreshold).aggregated
      && Process(s, start, end, DefaultThreshold).chart == Filter(s, start, end)
    ensures |Filter(s, start, end)| == 10001 ==>
      Process(s, start, end, DefaultThreshold).aggregated
      && Process(s, start, end, DefaultThreshold).chart == Resample(Filter(s, start, end))
  {
    ThresholdBoundary(s, start, end, DefaultThreshold);
  }

  /** The candlestick's vertical range: lowest low to highest high of the chart rows, each attained. */
  function YBounds(chart: seq<Bar>): (r: Option<(real, real)>)
    ensures r.None? <==> chart == []
    ensures r.Some? ==> forall i :: 0 <= i < |chart| ==> r.value.0 <= chart[i].low && chart[i].high <= r.value.1
    ensures r.Some? ==> exists i :: 0 <= i < |chart| && chart[i].low == r.value.0
    ensures r.Some? ==> exists i :: 0 <= i < |chart| && chart[i].high == r.value.1
  {
    if chart == [] then None
    else
      var lo, hi := Min(Lows(chart)), Max(Highs(chart));
      assert forall i :: 0 <= i < |chart| ==> Lows(chart)[i] == chart[i].low && Highs(chart)[i] == chart[i].high;
      Some((lo, hi))
  }

  /** What one pass shows: the figures, the candlestick bounds, and the aggregation warning with its row count. */
  datatype View = View(summary: Summary, yBounds: Option<(real, real)>, warning: Option<nat>)

  /**
    One render pass. The figures come from the filtered rows whatever the
    threshold; the bounds come from the chart rows; the warning appears
    exactly when the chart is aggregated and reports the filtered row count.
   */
  function Render(s: seq<Bar>, start: int, end: int, threshold: nat): (v: View)
    ensures v.summary == Summarize(Filter(s, start, end))
    ensures v.warning.Some? <==> |Filter(s, start, end)| > threshold
    ensures v.warning.Some? ==> v.warning.value == |Filter(s, start, end)|
    ensures v.yBounds == YBounds(Process(s, start, end, threshold).chart)
  {
    var p := Process(s, start, end, threshold);
    View(Summarize(p.filtered), YBounds(p.chart), if p.aggregated then Some(|p.filtered|) else None)
  }

  /**
    The figures do not depend on whether the chart was aggregated, and the
    total volume shown equals the volume of the charted rows.
   */
  lemma MetricsIgnoreAggregation(s: seq<Bar>, start: int, end: int, t1: nat, t2: nat)
    ensures Render(s, start, end, t1).summary == Render(s, start, end, t2).summary
    ensures Render(s, start, end, t1).summary.totalVolume == TotalVolume(Process(s, start, end, t1).chart)
  {
  }

  /**
    A range holding no bar yields empty outputs, no aggregation, no warning,
    no bounds, absent mean and maximum, and a total volume of 0.
   */
  lemma EmptySelection(s: seq<Bar>, start: int, end: int, threshold: nat)
    requires forall i :: 0 <= i < |s| ==> !InRange(s[i], start, end)
    ensures Process(s, start, end, threshold) == Pipeline([], [], false)
    ensures Render(s, start, end, threshold) == View(Summary(None, 0.0, None), None, None)
  {
    FilterNoneInRange(s, start, end);
    SummaryPresence([]);
  }

  /** With the slider left at the full range of a non-empty series, every row is filtered in. */
  lemma DefaultSelectionKeepsAll(s: seq<Bar>, threshold: nat)
    requires s != []
    ensures Process(s, DateBounds(s).value.0, DateBounds(s).value.1, threshold).filtered == s
  {
    DefaultRangeKeepsAll(s);
  }
}
