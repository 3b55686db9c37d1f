/**
  The daily bins as the dataframe library lays them out: one bin for every
  calendar day from the first to the last day of the data, each holding that
  day's bars. A bin holding bars shows as its summary bar; an empty bin shows
  no prices and zero volume. The non-empty bins are exactly the days of the
  pipeline's sparse daily bars, and each holds the bars its daily bar
  summarises.
 */
module Bins {
  import opened Wrappers
  import opened Bars
  import opened DateFilter
  import opened Aggregation

  /** One daily bin: its day and the bars that fall on it. */
  datatype DayBin = DayBin(day: int, bars: seq<Bar>)

  /** The row a bin shows: the summary bar of its bars, and nothing (no prices) for an empty bin. */
  function BinBar(b: DayBin): Option<Bar> {
    if b.bars == [] then None else Some(AggregateBucket(b.bars))
  }

  /** The volume a bin shows: the total of its bars, 0 for an empty bin. */
  function BinVolume(b: DayBin): real {
    TotalVolume(b.bars)
  }

  /** `n` bins, one per day from `lo` on, in day order. */
  function BinsFrom(s: seq<Bar>, lo: int, n: nat): (bins: seq<DayBin>)
    ensures |bins| == n
  {
    seq(n, j requires 0 <= j < n => DayBin(lo + j, Filter(s, lo + j, lo + j)))
  }

  lemma BinAt(s: seq<Bar>, lo: int, n: nat, j: nat)
    requires j < n
    ensures BinsFrom(s, lo, n)[j] == DayBin(lo + j, Filter(s, lo + j, lo + j))
  {
  }

  /**
    What the laid-out bins hold: bin `j` is day `lo + j`, and a bar is in it
    exactly when it is a bar of `s` falling on that day.
   */
  lemma BinsFromDays(s: seq<Bar>, lo: int, n: nat)
    ensures forall j :: 0 <= j < n ==> BinsFrom(s, lo, n)[j].day == lo + j
    ensures forall j :: 0 <= j < n ==>
      forall b :: b in BinsFrom(s, lo, n)[j].bars <==> b in s && Day(b.ts) == lo + j
  {
    forall j | 0 <= j < n
      ensures BinsFrom(s, lo, n)[j].day == lo + j
      ensures forall b :: b in BinsFrom(s, lo, n)[j].bars <==> b in s && Day(b.ts) == lo + j
    {
      BinAt(s, lo, n, j);
    }
  }

  /** The bin of a day sits at that day's offset from `lo`. */
  lemma BinOfDay(s: seq<Bar>, lo: int, n: nat, d: int)
    requires lo <= d < lo + n
    ensures BinsFrom(s, lo, n)[d - lo] == DayBin(d, Filter(s, d, d))
  {
  }

  /** A bin is empty exactly when no bar of the series falls on its day. */
  lemma BinGap(s: seq<Bar>, lo: int, n: nat, j: nat)
    requires j < n
    ensures BinsFrom(s, lo, n)[j].day == lo + j
    ensures BinsFrom(s, lo, n)[j].bars == [] <==> forall i :: 0 <= i < |s| ==> Day(s[i].ts) != lo + j
  {
    BinAt(s, lo, n, j);
    FirstIsMember(Filter(s, lo + j, lo + j));
    assert forall i :: 0 <= i < |s| ==> s[i] in s;
  }

  /** On a time series the day of daily bar `k` holds bar `i` of the series. */
  lemma ResampledDay(s: seq<Bar>, k: nat) returns (i: nat)
    requires Increasing(s) && k < |Resample(s)|
    ensures i < |s| && Day(s[i].ts) == Day(Resample(s)[k].ts)
  {
    var bk := Buckets(s)[k];
    assert Resample(s)[k] == AggregateBucket(bk);
    DayOfMidnight(Day(bk[0].ts));
    BucketIsDay(s, k);
    assert bk[0] in bk;
    i :| 0 <= i < |s| && s[i] == bk[0];
  }

  // ----- the bins laid out from the first to the last day of the data -----

  /** One bin per day from the first to the last day of `s`. */
  function DenseBins(s: seq<Bar>): seq<DayBin> {
    if s == [] then [] else BinsFrom(s, DateBounds(s).value.0, DateBounds(s).value.1 - DateBounds(s).value.0 + 1)
  }

  /** A day holding a bar of `s` lies within the slider's range of `s`. */
  lemma DayWithinBounds(s: seq<Bar>, i: nat)
    requires i < |s|
    ensures DateBounds(s).Some?
    ensures DateBounds(s).value.0 <= Day(s[i].ts) <= DateBounds(s).value.1
  {
  }

  /**
    The bins of a non-empty series run from its first to its last day: there
    is one per day of the slider's range, and none for an empty series.
   */
  lemma DenseSpan(s: seq<Bar>)
    ensures s == [] <==> DenseBins(s) == []
    ensures s != [] ==> |DenseBins(s)| == DateBounds(s).value.1 - DateBounds(s).value.0 + 1
  {
  }

  /** Bin `j` of the data is day `j` after the first; it is empty exactly when no bar falls on that day. */
  lemma DenseGap(s: seq<Bar>, j: nat)
    requires j < |DenseBins(s)|
    ensures s != [] && DenseBins(s)[j].day == DateBounds(s).value.0 + j
    ensures DenseBins(s)[j].bars == [] <==> forall i :: 0 <= i < |s| ==> Day(s[i].ts) != DenseBins(s)[j].day
  {
    var lo, hi := DateBounds(s).value.0, DateBounds(s).value.1;
    BinGap(s, lo, hi - lo + 1, j);
  }

  /**
    On a time series the bin of the day of each daily bar lies within the
    bins and holds exactly the bars of that day, the bars the daily bar
    summarises.
   */
  lemma DenseHoldsResample(s: seq<Bar>, k: nat)
    requires Increasing(s) && k < |Resample(s)|
    ensures s != []
    ensures DateBounds(s).value.0 <= Day(Resample(s)[k].ts) <= DateBounds(s).value.1
    ensures DenseBins(s)[Day(Resample(s)[k].ts) - DateBounds(s).value.0]
      == DayBin(Day(Resample(s)[k].ts), Filter(s, Day(Resample(s)[k].ts), Day(Resample(s)[k].ts)))
  {
    var i := ResampledDay(s, k);
    DayWithinBounds(s, i);
    var lo, hi := DateBounds(s).value.0, DateBounds(s).value.1;
    assert DenseBins(s) == BinsFrom(s, lo, hi - lo + 1);
    BinOfDay(s, lo, hi - lo + 1, Day(Resample(s)[k].ts));
  }

  /** On a time series every non-empty bin is the day of one of the pipeline's daily bars. */
  lemma DenseFilledIsResampled(s: seq<Bar>, j: nat)
    requires Increasing(s) && j < |DenseBins(s)| && DenseBins(s)[j].bars != []
    ensures exists k :: 0 <= k < |Resample(s)| && Day(Resample(s)[k].ts) == DenseBins(s)[j].day
  {
    DenseGap(s, j);
    var i :| 0 <= i < |s| && Day(s[i].ts) == DenseBins(s)[j].day;
    var k := BucketOf(s, i);
    assert Resample(s)[k] == AggregateBucket(Buckets(s)[k]);
    DayOfMidnight(Day(Buckets(s)[k][0].ts));
  }

  /** An empty bin shows no prices and zero volume. */
  lemma GapRow(b: DayBin)
    requires b.bars == []
    ensures BinBar(b).None? && BinVolume(b) == 0.0
  {
    assert Volumes(b.bars) == [];
  }

  /**
    Unlike the sparse daily bars, the bins can outnumber the rows they
    summarise: two bars two days apart give three bins.
   */
  lemma DenseCanOutnumberRows()
    ensures var s := [Bar(0, 1.0, 1.0, 1.0, 1.0, 1.0), Bar(48, 1.0, 1.0, 1.0, 1.0, 1.0)];
      |DenseBins(s)| == 3 > |s|
  {
    var s := [Bar(0, 1.0, 1.0, 1.0, 1.0, 1.0), Bar(48, 1.0, 1.0, 1.0, 1.0, 1.0)];
    assert Day(s[0].ts) == 0 && Day(s[1].ts) == 2;
    var r := DateBounds(s);
    assert r.value.0 == 0 && r.value.1 == 2;
  }
}
