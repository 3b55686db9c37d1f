/** The absent value: pandas yields NaN where this model yields None. */
module Wrappers {
  datatype Option<+T> = None | Some(value: T)
}

/**
  The price series of the dashboard: hourly OHLCV bars, their calendar day,
  and the column reductions (sum, max, min) the dashboard applies to them.
 */
module Bars {

  /** One OHLCV observation. `ts` is the bar's timestamp in whole hours since an epoch. */
  datatype Bar = Bar(ts: int, open: real, high: real, low: real, close: real, volume: real)

  /** The calendar day of an hour timestamp: the day whose 24 hours contain it (floor division). */
  function Day(ts: int): (d: int)
    ensures d * 24 <= ts < d * 24 + 24
  {
    ts / 24
  }

  /** Later timestamps never fall on an earlier day. */
  lemma DayMonotone(t1: int, t2: int)
    requires t1 <= t2
    ensures Day(t1) <= Day(t2)
  {
    var d1, d2 := Day(t1), Day(t2);
    assert d1 * 24 <= t2 < d2 * 24 + 24;
  }

  /** The first hour of a day lies on that day. */
  lemma DayOfMidnight(d: int)
    ensures Day(d * 24) == d
  {
    var e := Day(d * 24);
    assert e * 24 <= d * 24 < e * 24 + 24;
  }

  /** A time series: timestamps strictly increasing, hence no duplicates. */
  ghost predicate Increasing(s: seq<Bar>) {
    forall i, j :: 0 <= i < j < |s| ==> s[i].ts < s[j].ts
  }

  /** `t` is obtained from `s` by deleting some of its elements, without reordering the rest. */
  ghost predicate IsSubsequence(t: seq<Bar>, s: seq<Bar>)
    decreases |s|
  {
    t == [] || (s != [] && ((t[0] == s[0] && IsSubsequence(t[1..], s[1..])) || IsSubsequence(t, s[1..])))
  }

  lemma {:induction false} SubsequenceShorter(t: seq<Bar>, s: seq<Bar>)
    requires IsSubsequence(t, s)
    ensures |t| <= |s|
    ensures forall b :: b in t ==> b in s
    decreases |s|
  {
    if t != [] {
      if t[0] == s[0] && IsSubsequence(t[1..], s[1..]) {
        SubsequenceShorter(t[1..], s[1..]);
        assert t == [t[0]] + t[1..];
        assert s == [s[0]] + s[1..];
      } else {
        SubsequenceShorter(t, s[1..]);
      }
    }
  }

  /** Deleting bars from a time series leaves a time series. */
  lemma {:induction false} SubsequenceIncreasing(t: seq<Bar>, s: seq<Bar>)
    requires IsSubsequence(t, s) && Increasing(s)
    ensures Increasing(t)
    decreases |s|
  {
    if t != [] {
      if t[0] == s[0] && IsSubsequence(t[1..], s[1..]) {
        SubsequenceIncreasing(t[1..], s[1..]);
        SubsequenceShorter(t[1..], s[1..]);
        forall j | 0 < j < |t| ensures t[0].ts < t[j].ts {
          assert t[j] in t[1..];
        }
      } else {
        SubsequenceIncreasing(t, s[1..]);
      }
    }
  }

  /** Two time series holding the same bars are the same series. */
  lemma {:induction false} IncreasingSameBars(t: seq<Bar>, u: seq<Bar>)
    requires Increasing(t) && Increasing(u)
    requires forall b :: b in t <==> b in u
    ensures t == u
    decreases |t|
  {
    if t == [] {
      FirstIsMember(u);
    } else {
      SameFirstBar(t, u);
      TailIncluded(t, u);
      TailIncluded(u, t);
      IncreasingSameBars(t[1..], u[1..]);
      assert t == [t[0]] + t[1..];
      assert u == [u[0]] + u[1..];
    }
  }

  lemma FirstIsMember(u: seq<Bar>)
    ensures u != [] ==> u[0] in u
  {
  }

  /** The earliest bar of a series is determined by its set of bars. */
  lemma SameFirstBar(t: seq<Bar>, u: seq<Bar>)
    requires Increasing(t) && Increasing(u) && t != []
    requires forall b :: b in t <==> b in u
    ensures u != [] && t[0] == u[0]
  {
    assert t[0] in t;
    var i :| 0 <= i < |u| && u[i] == t[0];
    assert u[0] in u;
    var j :| 0 <= j < |t| && t[j] == u[0];
    assert u[0].ts <= u[i].ts;
    assert t[0].ts <= t[j].ts;
    assert i == 0;
  }

  lemma TailIncluded(t: seq<Bar>, u: seq<Bar>)
    requires Increasing(t) && t != [] && u != [] && t[0] == u[0]
    requires forall b :: b in t ==> b in u
    ensures forall b :: b in t[1..] ==> b in u[1..]
  {
    forall b | b in t[1..] ensures b in u[1..] {
      var k :| 1 <= k < |t| && t[k] == b;
      assert t[0].ts < t[k].ts;
      assert b in u;
      var m :| 0 <= m < |u| && u[m] == b;
      assert m != 0;
      assert u[1..][m - 1] == b;
    }
  }

  // ----- reductions over a column -----

  function Sum(xs: seq<real>): real {
    if xs == [] then 0.0 else xs[0] + Sum(xs[1..])
  }

  lemma {:induction false} SumConcat(xs: seq<real>, ys: seq<real>)
    ensures Sum(xs + ys) == Sum(xs) + Sum(ys)
  {
    if xs == [] {
      assert xs + ys == ys;
    } else {
      assert (xs + ys)[1..] == xs[1..] + ys;
      SumConcat(xs[1..], ys);
    }
  }

  /** The largest value of a non-empty column: an upper bound that is one of its values. */
  function Max(xs: seq<real>): (m: real)
    requires xs != []
    ensures forall i :: 0 <= i < |xs| ==> xs[i] <= m
    ensures m in xs
  {
    if |xs| == 1 then xs[0]
    else
      var rest := Max(xs[1..]);
      assert forall i :: 1 <= i < |xs| ==> xs[i] == xs[1..][i - 1];
      if xs[0] >= rest then xs[0] else rest
  }

  /** The smallest value of a non-empty column: a lower bound that is one of its values. */
  function Min(xs: seq<real>): (m: real)
    requires xs != []
    ensures forall i :: 0 <= i < |xs| ==> m <= xs[i]
    ensures m in xs
  {
    if |xs| == 1 then xs[0]
    else
      var rest := Min(xs[1..]);
      assert forall i :: 1 <= i < |xs| ==> xs[i] == xs[1..][i - 1];
      if xs[0] <= rest then xs[0] else rest
  }

  /** A sum of n values within [lo, hi] lies within [n * lo, n * hi]. */
  lemma {:induction false} SumBetween(xs: seq<real>, lo: real, hi: real)
    requires forall i :: 0 <= i < |xs| ==> lo <= xs[i] <= hi
    ensures (|xs| as real) * lo <= Sum(xs) <= (|xs| as real) * hi
  {
    if xs != [] {
      assert forall i :: 0 <= i < |xs| - 1 ==> xs[1..][i] == xs[i + 1];
      SumBetween(xs[1..], lo, hi);
      assert (|xs| as real) * lo == (|xs[1..]| as real) * lo + lo;
      assert (|xs| as real) * hi == (|xs[1..]| as real) * hi + hi;
    }
  }

  /** Dividing by a positive count keeps a value that lies within [n * lo, n * hi] within [lo, hi]. */
  lemma QuotientBetween(total: real, n: real, lo: real, hi: real)
    requires n > 0.0 && n * lo <= total <= n * hi
    ensures lo <= total / n <= hi
  {
    var q := total / n;
    assert q * n == total;
  }

  /** The mean of a non-empty column lies within any bounds of its values. */
  lemma MeanBetween(xs: seq<real>, lo: real, hi: real)
    requires xs != []
    requires forall i :: 0 <= i < |xs| ==> lo <= xs[i] <= hi
    ensures lo <= Sum(xs) / (|xs| as real)
    ensures Sum(xs) / (|xs| as real) <= hi
  {
    SumBetween(xs, lo, hi);
    QuotientBetween(Sum(xs), |xs| as real, lo, hi);
  }

  // ----- the columns of a series -----

  function Highs(s: seq<Bar>): seq<real>
  {
    seq(|s|, i requires 0 <= i < |s| => s[i].high)
  }

  function Lows(s: seq<Bar>): seq<real>
  {
    seq(|s|, i requires 0 <= i < |s| => s[i].low)
  }

  function Closes(s: seq<Bar>): seq<real>
  {
    seq(|s|, i requires 0 <= i < |s| => s[i].close)
  }

  function Volumes(s: seq<Bar>): seq<real>
  {
    seq(|s|, i requires 0 <= i < |s| => s[i].volume)
  }

  /** The volume column's total, 0 for an empty series. */
  function TotalVolume(s: seq<Bar>): real {
    Sum(Volumes(s))
  }

  /** Volume adds up across a split of the series. */
  lemma TotalVolumeConcat(a: seq<Bar>, b: seq<Bar>)
    ensures TotalVolume(a + b) == TotalVolume(a) + TotalVolume(b)
  {
    assert Volumes(a + b) == Volumes(a) + Volumes(b);
    SumConcat(Volumes(a), Volumes(b));
  }

  lemma TotalVolumeCons(b: Bar, s: seq<Bar>)
    ensures TotalVolume([b] + s) == b.volume + TotalVolume(s)
  {
    TotalVolumeConcat([b], s);
    assert Volumes([b]) == [b.volume];
    assert Sum([b.volume]) == b.volume + Sum([]);
  }
}
