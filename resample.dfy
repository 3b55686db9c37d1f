/**
  Daily resampling of a time series: one bar per calendar day that holds
  data, with open = first open, high = max high, low = min low,
  close = last close and volume = total volume of that day's bars. The new
  bar is labelled with the first hour (midnight) of its day.
 */
module Aggregation {
  import opened Bars
  import opened DateFilter

  /** The number of leading bars of `s` that fall on day `d`. */
  function SameDayRun(s: seq<Bar>, d: int): (n: nat)
    ensures n <= |s|
    ensures forall i :: 0 <= i < n ==> Day(s[i].ts) == d
    ensures n < |s| ==> Day(s[n].ts) != d
  {
    if s == [] || Day(s[0].ts) != d then 0
    else
      var rest := SameDayRun(s[1..], d);
      assert forall i :: 1 <= i < |s| ==> s[i] == s[1..][i - 1];
      1 + rest
  }

  /** The length of the leading run of bars that share the first bar's day. */
  function FirstRun(s: seq<Bar>): (n: nat)
    requires s != []
    ensures 1 <= n <= |s|
  {
    SameDayRun(s, Day(s[0].ts))
  }

  /**
    The buckets of the resampling: `s` cut into its maximal runs of
    consecutive bars on one calendar day.
   */
  function Buckets(s: seq<Bar>): (bs: seq<seq<Bar>>)
    ensures |bs| <= |s|
    ensures forall k :: 0 <= k < |bs| ==> bs[k] != []
    decreases |s|
  {
    if s == [] then []
    else
      var n := FirstRun(s);
      [s[..n]] + Buckets(s[n..])
  }

  function Flatten(bs: seq<seq<Bar>>): seq<Bar> {
    if bs == [] then [] else bs[0] + Flatten(bs[1..])
  }

  /** The buckets cut `s` without dropping, duplicating or reordering a bar. */
  lemma {:induction false} BucketsFlatten(s: seq<Bar>)
    ensures Flatten(Buckets(s)) == s
    decreases |s|
  {
    if s != [] {
      var n := FirstRun(s);
      BucketsFlatten(s[n..]);
      assert Buckets(s)[1..] == Buckets(s[n..]);
      assert s == s[..n] + s[n..];
    }
  }

  /** On a time series, the bars after the first run lie on later days. */
  lemma RestOnLaterDays(s: seq<Bar>)
    requires Increasing(s) && s != []
    ensures forall b :: b in s[FirstRun(s)..] ==> Day(s[0].ts) < Day(b.ts)
  {
    var d, n := Day(s[0].ts), FirstRun(s);
    forall b | b in s[n..] ensures d < Day(b.ts) {
      var j :| 0 <= j < |s| - n && s[n..][j] == b;
      assert s[n + j] == b;
      DayMonotone(s[0].ts, s[n].ts);
      DayMonotone(s[n].ts, s[n + j].ts);
    }
  }

  /** The first run holds no bar of any other day. */
  lemma FilterSkipsFirstRun(s: seq<Bar>, d: int)
    requires s != [] && d != Day(s[0].ts)
    ensures Filter(s, d, d) == Filter(s[FirstRun(s)..], d, d)
  {
    var n := FirstRun(s);
    FilterSplit(s, n, d, d);
    FilterNoneInRange(s[..n], d, d);
    assert [] + Filter(s[n..], d, d) == Filter(s[n..], d, d);
  }

  lemma IncreasingSuffix(s: seq<Bar>, n: nat)
    requires Increasing(s) && n <= |s|
    ensures Increasing(s[n..])
  {
    forall i, j | 0 <= i < j < |s| - n ensures s[n..][i].ts < s[n..][j].ts {
      assert s[n..][i] == s[n + i] && s[n..][j] == s[n + j];
    }
  }

  /** The first run lies wholly on the first day. */
  lemma FirstRunOnFirstDay(s: seq<Bar>)
    requires s != []
    ensures Filter(s[..FirstRun(s)], Day(s[0].ts), Day(s[0].ts)) == s[..FirstRun(s)]
  {
    var d0, n := Day(s[0].ts), FirstRun(s);
    assert forall i :: 0 <= i < n ==> s[..n][i] == s[i];
    FilterAllInRange(s[..n], d0, d0);
  }

  /** On a time series no bar after the first run lies on the first day. */
  lemma RestOffFirstDay(s: seq<Bar>)
    requires Increasing(s) && s != []
    ensures Filter(s[FirstRun(s)..], Day(s[0].ts), Day(s[0].ts)) == []
  {
    var d0, rest := Day(s[0].ts), s[FirstRun(s)..];
    RestOnLaterDays(s);
    forall i | 0 <= i < |rest| ensures !InRange(rest[i], d0, d0) {
      assert rest[i] in rest;
    }
    FilterNoneInRange(rest, d0, d0);
  }

  /** On a time series, the first bucket holds every bar of the first day. */
  lemma FirstBucketIsDay(s: seq<Bar>)
    requires Increasing(s) && s != []
    ensures Buckets(s)[0] == Filter(s, Day(s[0].ts), Day(s[0].ts))
  {
    var d0, n := Day(s[0].ts), FirstRun(s);
    assert Buckets(s)[0] == s[..n];
    FilterSplit(s, n, d0, d0);
    FirstRunOnFirstDay(s);
    RestOffFirstDay(s);
    assert s[..n] + [] == s[..n];
  }

  /** A bucket after the first is a bucket of the later bars, and the bars of its day all lie after the first run. */
  lemma {:induction false} LaterBucketIsDay(s: seq<Bar>, k: nat)
    requires Increasing(s) && s != [] && 0 < k < |Buckets(s)|
    ensures Buckets(s)[k] == Filter(s, Day(Buckets(s)[k][0].ts), Day(Buckets(s)[k][0].ts))
    decreases |s|, 0
  {
    var rest := s[FirstRun(s)..];
    assert Buckets(s) == [s[..FirstRun(s)]] + Buckets(rest);
    var b := Buckets(rest)[k - 1];
    var d := Day(b[0].ts);
    assert b == Filter(rest, d, d) by {
      IncreasingSuffix(s, FirstRun(s));
      BucketIsDay(rest, k - 1);
    }
    assert Filter(s, d, d) == Filter(rest, d, d) by {
      assert b[0] in b;
      RestOnLaterDays(s);
      FilterSkipsFirstRun(s, d);
    }
  }

  /** On a time series, bucket k holds exactly the bars of its day, in order. */
  lemma {:induction false} BucketIsDay(s: seq<Bar>, k: nat)
    requires Increasing(s) && k < |Buckets(s)|
    ensures Buckets(s)[k] == Filter(s, Day(Buckets(s)[k][0].ts), Day(Buckets(s)[k][0].ts))
    decreases |s|, 1
  {
    if k == 0 {
      FirstBucketIsDay(s);
    } else {
      LaterBucketIsDay(s, k);
    }
  }

  /** On a time series, every later bucket lies on a later day than the first. */
  lemma LaterBucketsLaterDays(s: seq<Bar>, j: nat)
    requires Increasing(s) && s != [] && 0 < j < |Buckets(s)|
    ensures Day(Buckets(s)[0][0].ts) < Day(Buckets(s)[j][0].ts)
  {
    var n := FirstRun(s);
    var rest := s[n..];
    assert Buckets(s)[j] == Buckets(rest)[j - 1];
    IncreasingSuffix(s, n);
    BucketIsDay(rest, j - 1);
    var b := Buckets(rest)[j - 1];
    assert b[0] in b;
    RestOnLaterDays(s);
    assert b[0] in rest;
  }

  /** On a time series, the bucket days strictly increase. */
  lemma {:induction false} BucketDaysIncreasing(s: seq<Bar>)
    requires Increasing(s)
    ensures forall i, j :: 0 <= i < j < |Buckets(s)| ==> Day(Buckets(s)[i][0].ts) < Day(Buckets(s)[j][0].ts)
    decreases |s|
  {
    if s != [] {
      var n := FirstRun(s);
      var bs: seq<seq<Bar>>, rest: seq<Bar> := Buckets(s), s[n..];
      IncreasingSuffix(s, n);
      BucketDaysIncreasing(rest);
      forall i, j | 0 <= i < j < |bs| ensures Day(bs[i][0].ts) < Day(bs[j][0].ts) {
        if i == 0 {
          LaterBucketsLaterDays(s, j);
        } else {
          assert bs[i] == Buckets(rest)[i - 1];
          assert bs[j] == Buckets(rest)[j - 1];
        }
      }
    }
  }

  /** The index of the bucket that holds bar `i` of `s`. */
  function BucketOf(s: seq<Bar>, i: nat): (k: nat)
    requires i < |s|
    ensures k < |Buckets(s)|
    ensures Day(Buckets(s)[k][0].ts) == Day(s[i].ts)
    decreases |s|
  {
    var n := FirstRun(s);
    if i < n then 0
    else
      var k := BucketOf(s[n..], i - n);
      assert Buckets(s)[k + 1] == Buckets(s[n..])[k];
      assert s[n..][i - n] == s[i];
      k + 1
  }

  // ----- aggregation of the buckets -----

  /** The daily bar that summarises a non-empty bucket of bars. */
  function AggregateBucket(b: seq<Bar>): Bar
    requires b != []
  {
    Bar(Day(b[0].ts) * 24, b[0].open, Max(Highs(b)), Min(Lows(b)), b[|b| - 1].close, TotalVolume(b))
  }

  function AggregateAll(bs: seq<seq<Bar>>): (r: seq<Bar>)
    requires forall k :: 0 <= k < |bs| ==> bs[k] != []
  {
    seq(|bs|, k requires 0 <= k < |bs| => AggregateBucket(bs[k]))
  }

  /** The daily bars of `s`: one bar summarising each bucket. */
  function Resample(s: seq<Bar>): (r: seq<Bar>)
    ensures |r| <= |s|
  {
    AggregateAll(Buckets(s))
  }

  /** Aggregating the buckets keeps their total volume. */
  lemma {:induction false} AggregateAllVolume(bs: seq<seq<Bar>>)
    requires forall k :: 0 <= k < |bs| ==> bs[k] != []
    ensures TotalVolume(AggregateAll(bs)) == TotalVolume(Flatten(bs))
  {
    if bs != [] {
      AggregateAllVolume(bs[1..]);
      assert AggregateAll(bs) == [AggregateBucket(bs[0])] + AggregateAll(bs[1..]);
      TotalVolumeCons(AggregateBucket(bs[0]), AggregateAll(bs[1..]));
      TotalVolumeConcat(bs[0], Flatten(bs[1..]));
    }
  }

  /** Resampling neither creates nor loses volume. */
  lemma ResampleVolume(s: seq<Bar>)
    ensures TotalVolume(Resample(s)) == TotalVolume(s)
  {
    AggregateAllVolume(Buckets(s));
    BucketsFlatten(s);
  }

  /** The summary of a bucket: first open, last close, extreme high and low, total volume. */
  lemma AggregateFields(b: seq<Bar>)
    requires b != []
    ensures var r := AggregateBucket(b);
      && r.ts == Day(b[0].ts) * 24
      && r.open == b[0].open
      && r.close == b[|b| - 1].close
      && (forall i :: 0 <= i < |b| ==> b[i].high <= r.high)
      && (exists i :: 0 <= i < |b| && b[i].high == r.high)
      && (forall i :: 0 <= i < |b| ==> r.low <= b[i].low)
      && (exists i :: 0 <= i < |b| && b[i].low == r.low)
      && r.volume == TotalVolume(b)
  {
    assert forall i :: 0 <= i < |b| ==> Highs(b)[i] == b[i].high;
    assert forall i :: 0 <= i < |b| ==> Lows(b)[i] == b[i].low;
    assert Max(Highs(b)) in Highs(b);
    assert Min(Lows(b)) in Lows(b);
  }

  /**
    The fields of each daily bar: labelled with its day's midnight; open of the
    day's first bar; close of its last bar; the largest high and the smallest
    low of the day, each attained by one of its bars; the day's total volume.
   */
  lemma ResampleBucket(s: seq<Bar>, k: nat)
    requires Increasing(s) && k < |Resample(s)|
    ensures var r := Resample(s)[k];
      var b := Filter(s, Day(r.ts), Day(r.ts));
      && b != []
      && r.ts == Day(r.ts) * 24
      && r.open == b[0].open
      && r.close == b[|b| - 1].close
      && (forall i :: 0 <= i < |b| ==> b[i].high <= r.high)
      && (exists i :: 0 <= i < |b| && b[i].high == r.high)
      && (forall i :: 0 <= i < |b| ==> r.low <= b[i].low)
      && (exists i :: 0 <= i < |b| && b[i].low == r.low)
      && r.volume == TotalVolume(b)
  {
    var bk := Buckets(s)[k];
    var d := Day(bk[0].ts);
    assert Resample(s)[k] == AggregateBucket(bk);
    assert Day(Resample(s)[k].ts) == d by {
      DayOfMidnight(d);
    }
    assert Filter(s, d, d) == bk by {
      BucketIsDay(s, k);
    }
    AggregateFields(bk);
  }

  /** On a time series the daily bars form a time series: one bar per day, days increasing. */
  lemma ResampleIncreasing(s: seq<Bar>)
    requires Increasing(s)
    ensures Increasing(Resample(s))
  {
    var bs: seq<seq<Bar>>, r: seq<Bar> := Buckets(s), Resample(s);
    BucketDaysIncreasing(s);
    forall i, j | 0 <= i < j < |r| ensures r[i].ts < r[j].ts {
      assert r[i] == AggregateBucket(bs[i]);
      assert r[j] == AggregateBucket(bs[j]);
    }
  }

  /** On a time series every daily bar is labelled with the midnight of a day holding data. */
  lemma ResampleOnDataDays(s: seq<Bar>)
    requires Increasing(s)
    ensures forall k :: 0 <= k < |Resample(s)| ==>
      exists i :: 0 <= i < |s| && Resample(s)[k].ts == Day(s[i].ts) * 24
  {
    var bs: seq<seq<Bar>>, r: seq<Bar> := Buckets(s), Resample(s);
    forall k | 0 <= k < |r| ensures exists i :: 0 <= i < |s| && r[k].ts == Day(s[i].ts) * 24 {
      assert r[k] == AggregateBucket(bs[k]);
      BucketIsDay(s, k);
      assert bs[k][0] in bs[k];
    }
  }

  /** Every day holding data has a daily bar, labelled with that day's midnight. */
  lemma ResampleCoversDays(s: seq<Bar>)
    ensures forall i :: 0 <= i < |s| ==>
      exists k :: 0 <= k < |Resample(s)| && Resample(s)[k].ts == Day(s[i].ts) * 24
  {
    var bs: seq<seq<Bar>>, r: seq<Bar> := Buckets(s), Resample(s);
    forall i | 0 <= i < |s| ensures exists k :: 0 <= k < |r| && r[k].ts == Day(s[i].ts) * 24 {
      var k := BucketOf(s, i);
      assert r[k] == AggregateBucket(bs[k]);
    }
  }
}
