/** What the columns of a calibration say about the bars it was made from: every count is the number of
    bars it claims to count, and every statistic is fixed by how many observations lie below it. */
module CalibrationColumns {
  import opened Common
  import opened FxEngine
  import opened SpreadCalibration

  // ------------------------------------------------------------------ counts

  /** The bars of one hour, with an observed spread or without one. */
  function BarsOf(bars: seq<FxBar>, hour: int, observed: bool): set<nat> {
    set i: nat | i < |bars| && HourOf(bars[i]) == hour && bars[i].spread.Some? == observed
  }

  function AllBarsOf(bars: seq<FxBar>, observed: bool): set<nat> {
    set i: nat | i < |bars| && bars[i].spread.Some? == observed
  }

  lemma {:induction false} OneMoreBar(bars: seq<FxBar>, bar: FxBar, hour: int, observed: bool)
    ensures BarsOf(bars + [bar], hour, observed) ==
            BarsOf(bars, hour, observed) +
            if HourOf(bar) == hour && bar.spread.Some? == observed then {|bars|} else {}
    ensures AllBarsOf(bars + [bar], observed) ==
            AllBarsOf(bars, observed) + if bar.spread.Some? == observed then {|bars|} else {}
    ensures |bars| !in BarsOf(bars, hour, observed) && |bars| !in AllBarsOf(bars, observed)
  {
  }

  lemma {:induction false} CountsAreExact(bars: seq<FxBar>, hour: int)
    ensures |Observed(bars, hour)| == |BarsOf(bars, hour, true)| && Missing(bars, hour) == |BarsOf(bars, hour, false)|
    ensures |AllObserved(bars)| == |AllBarsOf(bars, true)|
  {
    if bars != [] {
      hide BarsOf, AllBarsOf, HourOf;
      var n := |bars| - 1;
      CountsAreExact(bars[..n], hour);
      assert bars == bars[..n] + [bars[n]];
      OneMoreBar(bars[..n], bars[n], hour, true);
      OneMoreBar(bars[..n], bars[n], hour, false);
    }
  }

  lemma {:induction false} ObservedAreBars(bars: seq<FxBar>, hour: int, v: int)
    ensures v in Observed(bars, hour) <==>
              exists i :: 0 <= i < |bars| && HourOf(bars[i]) == hour && bars[i].spread == Some(v)
  {
    if bars != [] {
      var n := |bars| - 1;
      ObservedAreBars(bars[..n], hour, v);
      assert forall i :: 0 <= i < n ==> bars[..n][i] == bars[i];
    }
  }

  /** The bars of one hour that were observed at no more than v. */
  function BarsUpTo(bars: seq<FxBar>, hour: int, v: int): set<nat> {
    set i: nat | i < |bars| && HourOf(bars[i]) == hour && bars[i].spread.Some? && bars[i].spread.value <= v
  }

  lemma {:induction false} OneMoreUpTo(bars: seq<FxBar>, bar: FxBar, hour: int, v: int)
    ensures BarsUpTo(bars + [bar], hour, v) ==
            BarsUpTo(bars, hour, v) +
            if HourOf(bar) == hour && bar.spread.Some? && bar.spread.value <= v then {|bars|} else {}
    ensures |bars| !in BarsUpTo(bars, hour, v)
  {
  }

  lemma {:induction false} CountIsBars(bars: seq<FxBar>, hour: int, v: int)
    ensures CountLe(Observed(bars, hour), v) == |BarsUpTo(bars, hour, v)|
  {
    if bars == [] {
      assert BarsUpTo([], hour, v) == {};
    } else {
      var n := |bars| - 1;
      var bar := bars[n];
      CountIsBars(bars[..n], hour, v);
      assert bars == bars[..n] + [bar];
      OneMoreUpTo(bars[..n], bar, hour, v);
      hide BarsUpTo, CountLe, HourOf;
      if HourOf(bar) == hour && bar.spread.Some? {
        CountLeAppend(Observed(bars[..n], hour), bar.spread.value, v);
      } else {
        assert Observed(bars, hour) == Observed(bars[..n], hour);
      }
    }
  }

  // ------------------------------------------------------------------ the median

  /** v stands at place k, counted from nought, when the values are put in order. */
  predicate StandsAt(s: seq<int>, k: nat, v: int) {
    v in s && CountLe(s, v - 1) <= k < CountLe(s, v)
  }

  lemma {:induction false} SortedStands(s: seq<int>, k: nat)
    requires k < |s|
    ensures |Sorted(s)| == |s| && StandsAt(s, k, Sorted(s)[k])
  {
    hide Sorted, CountLe;
    SortedIsSorted(s);
    var t := Sorted(s);
    var v := t[k];
    assert v in s by { assert v in multiset(t); }
    SortedCounts(s, v);
    SortedCounts(s, v - 1);
    CountIsRank(t, k + 1, v);
    CountIsRank(t, k, v - 1);
  }

  /** lo and hi are the values in the middle, one and the same for an odd number of them. */
  predicate InMiddle(values: seq<int>, lo: int, hi: int) {
    values != [] && StandsAt(values, (|values| - 1) / 2, lo) && StandsAt(values, |values| / 2, hi)
  }

  ghost predicate MedianIs(values: seq<int>, median: Option<real>) {
    exists lo, hi :: InMiddle(values, lo, hi) && median == Some((lo as real + hi as real) / 2.0)
  }

  /** The median is the value in the middle, or halfway between the two values in the middle. */
  lemma {:induction false} MedianIsMiddle(s: seq<int>)
    requires s != []
    ensures MedianIs(s, Median(Sorted(s)))
  {
    SortedStands(s, (|s| - 1) / 2);
    SortedStands(s, |s| / 2);
    hide Sorted, StandsAt;
    assert InMiddle(s, Sorted(s)[(|s| - 1) / 2], Sorted(s)[|s| / 2]);
  }

  /** Only one value stands at a place. */
  lemma {:induction false} OneStandsAt(s: seq<int>, k: nat, v: int, w: int)
    requires StandsAt(s, k, v) && StandsAt(s, k, w)
    ensures v == w
  {
    if v < w { CountGrows(s, v, w - 1); }
    if w < v { CountGrows(s, w, v - 1); }
  }

  lemma {:induction false} CountGrows(s: seq<int>, v: int, w: int)
    requires v <= w
    ensures CountLe(s, v) <= CountLe(s, w)
  {
    if s != [] { CountGrows(s[..|s| - 1], v, w); }
  }

  // ------------------------------------------------------------------ every column

  /** The row of an hour: its hour, the number of its bars with and without an observed spread, and, if there are
      enough of the former, their median and the least spread that 95 of 100 do not exceed. */
  ghost predicate RowOk(bars: seq<FxBar>, minimum: int, hour: int, row: SpreadBucket) {
    && row.hour == hour && row.observations == |BarsOf(bars, hour, true)| && row.missing == |BarsOf(bars, hour, false)|
    && (row.observations < minimum ==> row.median.None? && row.p95.None?)
    && (row.observations >= minimum ==>
          && MedianIs(Observed(bars, hour), row.median)
          && row.p95.Some? && IsLeastCovering(Observed(bars, hour), row.p95.value))
  }

  lemma {:induction false} ColumnsAreExact(bars: seq<FxBar>, dataset: string, minimum: int, c: Calibration, hour: int)
    requires IsCalibration(bars, dataset, minimum, c) && minimum >= 1 && 0 <= hour < 24
    ensures RowOk(bars, minimum, hour, c.buckets[hour])
    ensures c.observations == |AllBarsOf(bars, true)| && c.observations + c.missing == |bars|
    ensures if c.observations < minimum then c.p95.None?
            else c.p95.Some? && IsLeastCovering(AllObserved(bars), c.p95.value)
  {
    var values := Observed(bars, hour);
    CountsAreExact(bars, hour);
    ObservedAddUp(bars);
    EveryBarIsCounted(bars);
    hide Observed, Missing, AllObserved, Sorted, Quantile, Median, StandsAt, Reaches, CountLe, SumMissing, SumObserved;
    if |values| >= minimum {
      MedianIsMiddle(values);
      QuantileIsLeast(values, 95, 100);
    }
    if |AllObserved(bars)| >= minimum { QuantileIsLeast(AllObserved(bars), 95, 100); }
  }

  /** The observations of all hours are all the observations. */
  lemma {:induction false} ObservedAddUp(bars: seq<FxBar>)
    ensures SumObserved(bars, 24) == |AllObserved(bars)|
  {
    if bars == [] {
      NoBars(24);
    } else {
      var n := |bars| - 1;
      ObservedAddUp(bars[..n]);
      OneMoreObserved(bars, 24);
      HourInDay(bars[n]);
    }
  }

  lemma {:induction false} OneMoreObserved(bars: seq<FxBar>, hours: nat)
    requires bars != []
    ensures var init, bar := bars[..|bars| - 1], bars[|bars| - 1];
            SumObserved(bars, hours) ==
            SumObserved(init, hours) + if 0 <= HourOf(bar) < hours && bar.spread.Some? then 1 else 0
  {
    HourInDay(bars[|bars| - 1]);
    if hours > 0 { OneMoreObserved(bars, hours - 1); }
  }
}
