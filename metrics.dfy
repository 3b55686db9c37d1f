/**
  The three summary figures of the dashboard (mean close, total volume,
  maximum close), always taken over the filtered rows.
 */
module Metrics {
  import opened Wrappers
  import opened Bars

  /** The figures shown; mean and maximum are absent on an empty selection (pandas: NaN). */
  datatype Summary = Summary(meanClose: Option<real>, totalVolume: real, maxClose: Option<real>)

  /**
    The average close price: absent on an empty selection, otherwise between
    the lowest and the highest close.
   */
  function MeanClose(s: seq<Bar>): (m: Option<real>)
    ensures m.None? <==> s == []
    ensures m.Some? ==> Min(Closes(s)) <= m.value
    ensures m.Some? ==> m.value <= Max(Closes(s))
  {
    if s == [] then None
    else
      MeanBetween(Closes(s), Min(Closes(s)), Max(Closes(s)));
      Some(Sum(Closes(s)) / (|s| as real))
  }

  /** The highest close price: at least every close, and one of them. */
  function MaxClose(s: seq<Bar>): (m: Option<real>)
    ensures m.None? <==> s == []
    ensures m.Some? ==> forall i :: 0 <= i < |s| ==> s[i].close <= m.value
    ensures m.Some? ==> exists i :: 0 <= i < |s| && s[i].close == m.value
  {
    if s == [] then None
    else
      var m := Max(Closes(s));
      assert forall i :: 0 <= i < |s| ==> Closes(s)[i] == s[i].close;
      Some(m)
  }

  function Summarize(filtered: seq<Bar>): Summary {
    Summary(MeanClose(filtered), TotalVolume(filtered), MaxClose(filtered))
  }

  /**
    On an empty selection the total volume is 0 and mean and maximum are absent;
    on a non-empty one both are present.
   */
  lemma SummaryPresence(filtered: seq<Bar>)
    ensures filtered == [] ==> Summarize(filtered) == Summary(None, 0.0, None)
    ensures filtered != [] ==> Summarize(filtered).meanClose.Some? && Summarize(filtered).maxClose.Some?
  {
    if filtered == [] {
      assert Volumes(filtered) == [];
    }
  }
}
