/**
  The date-range filter of the dashboard: the slider's bounds (the first and
  last calendar day of the loaded series) and the inclusive mask on calendar
  days that selects the rows shown.
 */
module DateFilter {
  import opened Wrappers
  import opened Bars

  /** The mask: the bar's calendar day lies in [start, end], both ends included. */
  predicate InRange(b: Bar, start: int, end: int) {
    start <= Day(b.ts) <= end
  }

  /** The rows of `s` kept by the mask, in their original order. */
  function Filter(s: seq<Bar>, start: int, end: int): (r: seq<Bar>)
    ensures |r| <= |s|
    ensures forall b :: b in r <==> b in s && InRange(b, start, end)
  {
    if s == [] then []
    else
      var rest := Filter(s[1..], start, end);
      assert s == [s[0]] + s[1..];
      if InRange(s[0], start, end) then [s[0]] + rest else rest
  }

  /** The filtered rows keep their original relative order. */
  lemma {:induction false} FilterIsSubsequence(s: seq<Bar>, start: int, end: int)
    ensures IsSubsequence(Filter(s, start, end), s)
  {
    if s != [] {
      FilterIsSubsequence(s[1..], start, end);
    }
  }

  /**
    The filtered rows of a time series are exactly its bars whose day lies in
    the range, in order: any time series with that set of bars is the filter's
    result.
   */
  lemma FilterExact(s: seq<Bar>, start: int, end: int, t: seq<Bar>)
    requires Increasing(s)
    requires Increasing(t)
    requires forall b :: b in t <==> b in s && InRange(b, start, end)
    ensures t == Filter(s, start, end)
  {
    FilterIncreasing(s, start, end);
    IncreasingSameBars(t, Filter(s, start, end));
  }

  /** Filtering a time series yields a time series. */
  lemma FilterIncreasing(s: seq<Bar>, start: int, end: int)
    requires Increasing(s)
    ensures Increasing(Filter(s, start, end))
  {
    FilterIsSubsequence(s, start, end);
    SubsequenceIncreasing(Filter(s, start, end), s);
  }

  /**
    In hours, the range runs from midnight of `start` up to and including the
    last hour of `end`: every hour of the end day is kept.
   */
  lemma InRangeHours(b: Bar, start: int, end: int)
    ensures InRange(b, start, end) <==> start * 24 <= b.ts < end * 24 + 24
  {
    var d := Day(b.ts);
    assert d * 24 <= b.ts < d * 24 + 24;
  }

  /** The filter applies row by row, so it distributes over concatenation. */
  lemma {:induction false} FilterConcat(a: seq<Bar>, b: seq<Bar>, start: int, end: int)
    ensures Filter(a + b, start, end) == Filter(a, start, end) + Filter(b, start, end)
  {
    if a == [] {
      assert a + b == b;
    } else {
      assert (a + b)[1..] == a[1..] + b;
      FilterConcat(a[1..], b, start, end);
    }
  }

  /** Filtering a series cut at `n` filters each part. */
  lemma FilterSplit(s: seq<Bar>, n: nat, start: int, end: int)
    requires n <= |s|
    ensures Filter(s, start, end) == Filter(s[..n], start, end) + Filter(s[n..], start, end)
  {
    assert s == s[..n] + s[n..];
    FilterConcat(s[..n], s[n..], start, end);
  }

  /** A series whose every bar lies in the range passes the filter unchanged. */
  lemma {:induction false} FilterAllInRange(s: seq<Bar>, start: int, end: int)
    requires forall i :: 0 <= i < |s| ==> InRange(s[i], start, end)
    ensures Filter(s, start, end) == s
  {
    if s != [] {
      FilterAllInRange(s[1..], start, end);
      assert s == [s[0]] + s[1..];
    }
  }

  /** A series with no bar in the range filters to the empty series. */
  lemma FilterNoneInRange(s: seq<Bar>, start: int, end: int)
    requires forall i :: 0 <= i < |s| ==> !InRange(s[i], start, end)
    ensures Filter(s, start, end) == []
  {
    FirstIsMember(Filter(s, start, end));
  }

  /**
    Widening the range never loses a row: the rows of the narrower range are
    a subsequence of those of the wider one, so there are never more of them.
   */
  lemma {:induction false} FilterMonotone(s: seq<Bar>, start1: int, end1: int, start2: int, end2: int)
    requires start2 <= start1 && end1 <= end2
    ensures IsSubsequence(Filter(s, start1, end1), Filter(s, start2, end2))
    ensures |Filter(s, start1, end1)| <= |Filter(s, start2, end2)|
  {
    if s != [] {
      FilterMonotone(s[1..], start1, end1, start2, end2);
    }
    SubsequenceShorter(Filter(s, start1, end1), Filter(s, start2, end2));
  }

  // ----- the slider's bounds -----

  /** The earliest timestamp of a non-empty series (the index minimum). */
  function MinTs(s: seq<Bar>): (m: int)
    requires s != []
    ensures forall i :: 0 <= i < |s| ==> m <= s[i].ts
    ensures exists i :: 0 <= i < |s| && s[i].ts == m
  {
    if |s| == 1 then s[0].ts
    else
      var rest := MinTs(s[1..]);
      assert forall i :: 1 <= i < |s| ==> s[i] == s[1..][i - 1];
      if s[0].ts <= rest then s[0].ts else rest
  }

  /** The latest timestamp of a non-empty series (the index maximum). */
  function MaxTs(s: seq<Bar>): (m: int)
    requires s != []
    ensures forall i :: 0 <= i < |s| ==> s[i].ts <= m
    ensures exists i :: 0 <= i < |s| && s[i].ts == m
  {
    if |s| == 1 then s[0].ts
    else
      var rest := MaxTs(s[1..]);
      assert forall i :: 1 <= i < |s| ==> s[i] == s[1..][i - 1];
      if s[0].ts >= rest then s[0].ts else rest
  }

  /**
    The slider's range: the calendar days of the earliest and the latest
    timestamp. An empty series has no range.
   */
  function DateBounds(s: seq<Bar>): (r: Option<(int, int)>)
    ensures r.None? <==> s == []
    ensures r.Some? ==> r.value.0 <= r.value.1
    ensures r.Some? ==> forall i :: 0 <= i < |s| ==> r.value.0 <= Day(s[i].ts) <= r.value.1
    ensures r.Some? ==> exists i :: 0 <= i < |s| && Day(s[i].ts) == r.value.0
    ensures r.Some? ==> exists i :: 0 <= i < |s| && Day(s[i].ts) == r.value.1
  {
    if s == [] then None
    else
      var lo, hi := MinTs(s), MaxTs(s);
      assert forall i :: 0 <= i < |s| ==> Day(lo) <= Day(s[i].ts) <= Day(hi) by {
        forall i | 0 <= i < |s| ensures Day(lo) <= Day(s[i].ts) <= Day(hi) {
          DayMonotone(lo, s[i].ts);
          DayMonotone(s[i].ts, hi);
        }
      }
      Some((Day(lo), Day(hi)))
  }

  /** With the slider left at its default, the full range, every row is kept. */
  lemma DefaultRangeKeepsAll(s: seq<Bar>)
    requires s != []
    ensures Filter(s, DateBounds(s).value.0, DateBounds(s).value.1) == s
  {
    FilterAllInRange(s, DateBounds(s).value.0, DateBounds(s).value.1);
  }
}
