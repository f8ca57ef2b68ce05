/** Hourly spread calibration: nearest-rank quantiles of the observed spreads of each UTC hour, and the
    bars with their spreads replaced by the hour's 95th percentile. */
module SpreadCalibration {
  import opened Common
  import opened FxCosts
  import opened FxEngine

  // ------------------------------------------------------------------ sorting and counting

  predicate IsSorted(s: seq<int>) {
    forall i, j :: 0 <= i < j < |s| ==> s[i] <= s[j]
  }

  function Insert(v: int, s: seq<int>): seq<int> {
    if s == [] || s[|s| - 1] <= v then s + [v] else Insert(v, s[..|s| - 1]) + [s[|s| - 1]]
  }

  function Sorted(s: seq<int>): seq<int> {
    if s == [] then [] else Insert(s[|s| - 1], Sorted(s[..|s| - 1]))
  }

  function CountLe(s: seq<int>, v: int): nat {
    if s == [] then 0 else CountLe(s[..|s| - 1], v) + if s[|s| - 1] <= v then 1 else 0
  }

  lemma CountLeAppend(s: seq<int>, x: int, v: int)
    ensures CountLe(s + [x], v) == CountLe(s, v) + if x <= v then 1 else 0
  {
    assert (s + [x])[..|s|] == s;
  }

  lemma {:induction false} InsertPermutes(x: int, s: seq<int>)
    ensures multiset(Insert(x, s)) == multiset(s) + multiset{x}
  {
    if s != [] && s[|s| - 1] > x {
      InsertPermutes(x, s[..|s| - 1]);
      assert s == s[..|s| - 1] + [s[|s| - 1]];
    }
  }

  predicate AtMost(s: seq<int>, bound: int) {
    forall i :: 0 <= i < |s| ==> s[i] <= bound
  }

  lemma {:induction false} InsertAtMost(x: int, s: seq<int>, bound: int)
    requires AtMost(s, bound) && x <= bound
    ensures AtMost(Insert(x, s), bound)
  {
    if s != [] { InsertAtMost(x, s[..|s| - 1], bound); }
  }

  lemma SortedAppend(s: seq<int>, last: int)
    requires IsSorted(s) && AtMost(s, last)
    ensures IsSorted(s + [last])
  {
  }

  lemma {:induction false} InsertSorts(x: int, s: seq<int>)
    requires IsSorted(s)
    ensures IsSorted(Insert(x, s))
  {
    if s != [] && s[|s| - 1] > x {
      InsertSorts(x, s[..|s| - 1]);
      InsertAtMost(x, s[..|s| - 1], s[|s| - 1]);
      SortedAppend(Insert(x, s[..|s| - 1]), s[|s| - 1]);
    } else {
      SortedAppend(s, x);
    }
  }

  lemma {:induction false} SortedIsSorted(s: seq<int>)
    ensures IsSorted(Sorted(s)) && multiset(Sorted(s)) == multiset(s) && |Sorted(s)| == |s|
  {
    if s != [] {
      SortedIsSorted(s[..|s| - 1]);
      InsertSorts(s[|s| - 1], Sorted(s[..|s| - 1]));
      InsertPermutes(s[|s| - 1], Sorted(s[..|s| - 1]));
      assert s == s[..|s| - 1] + [s[|s| - 1]];
    }
    assert |multiset(Sorted(s))| == |Sorted(s)|;
  }

  lemma {:induction false} InsertCounts(x: int, s: seq<int>, v: int)
    ensures CountLe(Insert(x, s), v) == CountLe(s, v) + if x <= v then 1 else 0
  {
    if s == [] || s[|s| - 1] <= x {
      CountLeAppend(s, x, v);
    } else {
      InsertCounts(x, s[..|s| - 1], v);
      CountLeAppend(Insert(x, s[..|s| - 1]), s[|s| - 1], v);
    }
  }

  lemma {:induction false} SortedCounts(s: seq<int>, v: int)
    ensures CountLe(Sorted(s), v) == CountLe(s, v)
  {
    if s != [] {
      SortedCounts(s[..|s| - 1], v);
      InsertCounts(s[|s| - 1], Sorted(s[..|s| - 1]), v);
    }
  }

  /** In a sorted sequence the count is a position. */
  lemma {:induction false} CountIsRank(s: seq<int>, k: nat, v: int)
    requires IsSorted(s) && k <= |s|
    ensures (k > 0 && s[k - 1] <= v) ==> CountLe(s, v) >= k
    ensures (k < |s| && v < s[k]) ==> CountLe(s, v) <= k
    ensures CountLe(s, v) <= |s|
  {
    if s != [] {
      var init := s[..|s| - 1];
      CountIsRank(init, if k < |s| then k else |s| - 1, v);
    }
  }

  // ------------------------------------------------------------------ quantiles

  /** The nearest-rank quantile of sorted values. */
  function Quantile(values: seq<int>, numerator: nat, denominator: nat): Option<int>
    requires 0 < denominator && numerator <= denominator
  {
    if values == [] then None
    else
      RankInRange(|values|, numerator, denominator);
      Some(values[Rank(|values|, numerator, denominator)])
  }

  function Rank(n: nat, numerator: nat, denominator: nat): nat
    requires 0 < denominator
  {
    var k := (n * numerator + denominator - 1) / denominator - 1;
    if k < 0 then 0 else k
  }

  /** Rounding up: the least k with denominator * k at or above the product. */
  lemma CeilingIsLeast(a: nat, d: nat)
    requires 0 < d
    ensures var k := (a + d - 1) / d; d * k >= a && (k > 0 ==> d * (k - 1) < a)
  {
    var k, r := (a + d - 1) / d, (a + d - 1) % d;
    assert a + d - 1 == d * k + r;
    assert d * (k - 1) == d * k - d;
  }

  /** count of n is at least the share p/q. */
  predicate Reaches(count: nat, n: nat, p: nat, q: nat) {
    q * count >= p * n
  }

  lemma ReachesMono(a: nat, b: nat, n: nat, p: nat, q: nat)
    requires a <= b && Reaches(a, n, p, q)
    ensures Reaches(b, n, p, q)
  {
    assert q * a <= q * b;
  }

  lemma AllReach(n: nat, p: nat, q: nat)
    requires p <= q
    ensures Reaches(n, n, p, q)
  {
    assert p * n <= q * n;
  }

  lemma NoneReaches(n: nat, p: nat, q: nat)
    requires 0 < n && 0 < p
    ensures !Reaches(0, n, p, q)
  {
    assert p * n > 0;
    assert q * 0 == 0;
  }

  /** The rank, counted from one, is the least number that reaches the share. */
  lemma RankIsLeast(n: nat, p: nat, q: nat)
    requires 0 < q && p <= q && n > 0
    ensures var k := Rank(n, p, q); Reaches(k + 1, n, p, q) && (k > 0 ==> !Reaches(k, n, p, q))
  {
    CeilingIsLeast(n * p, q);
    assert n * p == p * n;
    var k := (n * p + q - 1) / q;
    if k == 0 { assert q * k == 0; }
    assert k == 0 ==> n * p == 0;
  }

  lemma RankInRange(n: nat, p: nat, q: nat)
    requires 0 < q && p <= q && n > 0
    ensures Rank(n, p, q) < n
  {
    RankIsLeast(n, p, q);
    AllReach(n, p, q);
    hide Reaches;
    var k := Rank(n, p, q);
    if n <= k { ReachesMono(n, k, n, p, q); }
  }

  /** The quantile is an observed value, and the least one that enough of the values do not exceed:
      at least the asked-for share is at or below it, and less than that is at or below any smaller one. */
  lemma QuantileIsLeast(s: seq<int>, p: nat, q: nat)
    requires 0 < p <= q && s != []
    ensures var v := Quantile(Sorted(s), p, q);
            && v.Some? && v.value in s && Reaches(CountLe(s, v.value), |s|, p, q)
            && forall w :: w < v.value ==> !Reaches(CountLe(s, w), |s|, p, q)
  {
    hide Reaches, Sorted, CountLe, Rank;
    SortedIsSorted(s);
    var t, n := Sorted(s), |s|;
    RankIsLeast(n, p, q);
    RankInRange(n, p, q);
    var k := Rank(n, p, q);
    assert t[k] in multiset(t);
    AtRank(s, t, k, p, q);
    forall w | w < t[k] ensures !Reaches(CountLe(s, w), n, p, q) { BelowRank(s, t, k, p, q, w); }
  }

  lemma AtRank(s: seq<int>, t: seq<int>, k: nat, p: nat, q: nat)
    requires t == Sorted(s) && IsSorted(t) && k < |t| && Reaches(k + 1, |s|, p, q)
    ensures Reaches(CountLe(s, t[k]), |s|, p, q)
  {
    hide Sorted, Reaches;
    CountIsRank(t, k + 1, t[k]);
    SortedCounts(s, t[k]);
    ReachesMono(k + 1, CountLe(s, t[k]), |s|, p, q);
  }

  lemma BelowRank(s: seq<int>, t: seq<int>, k: nat, p: nat, q: nat, w: int)
    requires t == Sorted(s) && IsSorted(t) && k < |t| == |s| && w < t[k] && 0 < p
    requires k > 0 ==> !Reaches(k, |s|, p, q)
    ensures !Reaches(CountLe(s, w), |s|, p, q)
  {
    hide Sorted, Reaches;
    CountIsRank(t, k, w);
    SortedCounts(s, w);
    NoneReaches(|s|, p, q);
    if Reaches(CountLe(s, w), |s|, p, q) { ReachesMono(CountLe(s, w), k, |s|, p, q); }
  }

  function Median(values: seq<int>): Option<real> {
    if values == [] then None
    else
      var middle := |values| / 2;
      if |values| % 2 == 1 then Some(values[middle] as real)
      else Some((values[middle - 1] as real + values[middle] as real) / 2.0)
  }

  /** The median splits the values: at least half lie at or below it, at most half strictly below. */
  lemma MedianSplits(s: seq<int>, below: int, above: int)
    requires s != [] && below as real < Median(Sorted(s)).value <= above as real
    ensures 2 * CountLe(s, above) >= |s| && 2 * CountLe(s, below) <= |s|
  {
    SortedIsSorted(s);
    SortedCounts(s, above);
    SortedCounts(s, below);
    hide Sorted, CountLe;
    MiddleSplits(Sorted(s), below, above);
    hide Median;
    HalfAtMost(Sorted(s), above);
    HalfBelow(Sorted(s), below);
  }

  lemma HalfAtMost(t: seq<int>, above: int)
    requires IsSorted(t) && t != [] && t[if |t| % 2 == 1 then |t| / 2 else |t| / 2 - 1] <= above
    ensures 2 * CountLe(t, above) >= |t|
  {
    CountIsRank(t, if |t| % 2 == 1 then |t| / 2 + 1 else |t| / 2, above);
    hide CountLe;
  }

  lemma HalfBelow(t: seq<int>, below: int)
    requires IsSorted(t) && t != [] && below < t[|t| / 2]
    ensures 2 * CountLe(t, below) <= |t|
  {
    CountIsRank(t, |t| / 2, below);
    hide CountLe;
  }

  /** The values in the middle of a sorted sequence lie on either side of its median. */
  lemma MiddleSplits(t: seq<int>, below: int, above: int)
    requires IsSorted(t) && t != [] && below as real < Median(t).value <= above as real
    ensures below < t[|t| / 2] && t[if |t| % 2 == 1 then |t| / 2 else |t| / 2 - 1] <= above
  {
    assert |t| % 2 == 0 ==> t[|t| / 2 - 1] <= t[|t| / 2];
  }

  // ------------------------------------------------------------------ hours

  function HourOf(bar: RawBar): int {
    bar.time % DAY / HOUR
  }

  /** The observed spreads of one hour, in order. */
  function Observed(bars: seq<FxBar>, hour: int): seq<int> {
    if bars == [] then []
    else
      var bar := bars[|bars| - 1];
      Observed(bars[..|bars| - 1], hour) + if HourOf(bar) == hour && bar.spread.Some? then [bar.spread.value] else []
  }

  function Missing(bars: seq<FxBar>, hour: int): nat {
    if bars == [] then 0
    else
      var bar := bars[|bars| - 1];
      Missing(bars[..|bars| - 1], hour) + if HourOf(bar) == hour && bar.spread.None? then 1 else 0
  }

  function AllObserved(bars: seq<FxBar>): seq<int> {
    if bars == [] then []
    else
      var bar := bars[|bars| - 1];
      AllObserved(bars[..|bars| - 1]) + if bar.spread.Some? then [bar.spread.value] else []
  }

  datatype SpreadBucket = SpreadBucket(hour: int, observations: nat, missing: nat, median: Option<real>,
                                       p95: Option<int>)

  datatype Calibration = Calibration(
    dataset: string, buckets: seq<SpreadBucket>, observations: nat, missing: nat, p95: Option<int>, minimum: int)

  datatype CalibrationError = BadMinimum | InsufficientHour(hour: int) | NegativeSpread

  /** Statistics of one hour, given only when there are enough observations. */
  function Bucket(hour: int, values: seq<int>, missing: nat, minimum: int): SpreadBucket {
    SpreadBucket(hour, |values|, missing, if |values| >= minimum then Median(Sorted(values)) else None,
                 if |values| >= minimum then Quantile(Sorted(values), 95, 100) else None)
  }

  predicate IsCalibration(bars: seq<FxBar>, dataset: string, minimum: int, c: Calibration) {
    && |c.buckets| == 24 && c.minimum == minimum && c.dataset == dataset
    && (forall h :: 0 <= h < 24 ==> c.buckets[h] == Bucket(h, Observed(bars, h), Missing(bars, h), minimum))
    && c.observations == |AllObserved(bars)| && c.missing == SumMissing(bars, 24)
    && c.p95 == (if |AllObserved(bars)| >= minimum then Quantile(Sorted(AllObserved(bars)), 95, 100) else None)
  }

  function SumMissing(bars: seq<FxBar>, hours: nat): nat {
    if hours == 0 then 0 else SumMissing(bars, hours - 1) + Missing(bars, hours - 1)
  }

  function SumObserved(bars: seq<FxBar>, hours: nat): nat {
    if hours == 0 then 0 else SumObserved(bars, hours - 1) + |Observed(bars, hours - 1)|
  }

  lemma HourInDay(bar: RawBar)
    ensures 0 <= HourOf(bar) < 24
  {
  }

  /** One more bar adds one to exactly one hour. */
  lemma {:induction false} OneBarOneHour(bars: seq<FxBar>, hours: nat)
    requires bars != [] && hours <= 24
    ensures var init, bar := bars[..|bars| - 1], bars[|bars| - 1];
            SumMissing(bars, hours) + SumObserved(bars, hours) ==
            SumMissing(init, hours) + SumObserved(init, hours) + if HourOf(bar) < hours then 1 else 0
  {
    HourInDay(bars[|bars| - 1]);
    if hours > 0 { OneBarOneHour(bars, hours - 1); }
  }

  /** Nothing is lost or counted twice: observations and missing values of all hours are all the bars. */
  lemma {:induction false} EveryBarIsCounted(bars: seq<FxBar>)
    ensures SumObserved(bars, 24) + SumMissing(bars, 24) == |bars|
  {
    if bars == [] {
      NoBars(24);
    } else {
      EveryBarIsCounted(bars[..|bars| - 1]);
      OneBarOneHour(bars, 24);
      HourInDay(bars[|bars| - 1]);
    }
  }

  lemma {:induction false} NoBars(hours: nat)
    ensures SumObserved([], hours) + SumMissing([], hours) == 0
  {
    if hours > 0 { NoBars(hours - 1); }
  }

  /** The pass over the bars: one list and one counter for each of the 24 hours. */
  method Collect(bars: seq<FxBar>) returns (values: seq<seq<int>>, missing: seq<nat>, allValues: seq<int>)
    ensures |values| == |missing| == 24 && allValues == AllObserved(bars)
    ensures forall h :: 0 <= h < 24 ==> values[h] == Observed(bars, h) && missing[h] == Missing(bars, h)
  {
    values, missing, allValues := seq(24, _ => []), seq(24, _ => 0), [];
    for i := 0 to |bars|
      invariant |values| == |missing| == 24 && allValues == AllObserved(bars[..i])
      invariant forall h :: 0 <= h < 24 ==> values[h] == Observed(bars[..i], h) && missing[h] == Missing(bars[..i], h)
    {
      assert bars[..i + 1][..i] == bars[..i];
      var hour := HourOf(bars[i]);
      HourInDay(bars[i]);
      match bars[i].spread
      case None => missing := missing[hour := missing[hour] + 1];
      case Some(points) =>
        values := values[hour := values[hour] + [points]];
        allValues := allValues + [points];
    }
    assert bars[..|bars|] == bars;
  }

  /** calibrate_spread_by_hour */
  method CalibrateSpreadByHour(bars: seq<FxBar>, dataset: string, minimum: int)
    returns (result: Result<Calibration, CalibrationError>)
    ensures result.Err? <==> minimum < 1
    ensures result.Ok? ==> IsCalibration(bars, dataset, minimum, result.value)
  {
    if minimum < 1 {
      return Err(BadMinimum);
    }
    var values, missing, allValues := Collect(bars);
    var buckets: seq<SpreadBucket>, totalMissing: nat := [], 0;
    for h := 0 to 24
      invariant |buckets| == h && totalMissing == SumMissing(bars, h)
      invariant forall k :: 0 <= k < h ==> buckets[k] == Bucket(k, Observed(bars, k), Missing(bars, k), minimum)
    {
      buckets := buckets + [Bucket(h, values[h], missing[h], minimum)];
      totalMissing := totalMissing + missing[h];
    }
    result := Ok(Calibration(dataset, buckets, |allValues|, totalMissing,
                             if |allValues| >= minimum then Quantile(Sorted(allValues), 95, 100) else None, minimum));
  }

  // ------------------------------------------------------------------ the transformed bars

  /** The P95 on file for an hour: of several buckets with that hour the last one counts. */
  function P95For(buckets: seq<SpreadBucket>, hour: int): Option<int> {
    if buckets == [] then None
    else if buckets[|buckets| - 1].hour == hour then buckets[|buckets| - 1].p95
    else P95For(buckets[..|buckets| - 1], hour)
  }

  predicate Usable(c: Calibration, bar: RawBar) {
    P95For(c.buckets, HourOf(bar)).Some? && P95For(c.buckets, HourOf(bar)).value >= 0
  }

  function Transformed(c: Calibration, bar: RawBar): RawBar {
    bar.(spread := P95For(c.buckets, HourOf(bar)))
  }

  /** Bar i is the first that cannot be given a spread. */
  predicate RefusedAt(bars: seq<FxBar>, c: Calibration, i: nat, error: CalibrationError)
    requires i < |bars|
  {
    var p95 := P95For(c.buckets, HourOf(bars[i]));
    && (forall k :: 0 <= k < i ==> Usable(c, bars[k]))
    && (if p95.None? then error == InsufficientHour(HourOf(bars[i])) else p95.value < 0 && error == NegativeSpread)
  }

  /** Bucket k is the last one with this hour. */
  predicate LastWithHour(buckets: seq<SpreadBucket>, hour: int, k: nat) {
    k < |buckets| && buckets[k].hour == hour && forall j :: k < j < |buckets| ==> buckets[j].hour != hour
  }

  /** The P95 for an hour is that of the last bucket with that hour. */
  lemma {:induction false} LastBucketCounts(buckets: seq<SpreadBucket>, hour: int, k: nat)
    requires LastWithHour(buckets, hour, k)
    ensures P95For(buckets, hour) == buckets[k].p95
  {
    if k < |buckets| - 1 { LastBucketCounts(buckets[..|buckets| - 1], hour, k); }
  }

  /** And there is none without such a bucket. */
  lemma {:induction false} NoBucketNoP95(buckets: seq<SpreadBucket>, hour: int)
    requires forall k :: 0 <= k < |buckets| ==> buckets[k].hour != hour
    ensures P95For(buckets, hour).None?
  {
    if buckets != [] { NoBucketNoP95(buckets[..|buckets| - 1], hour); }
  }

  /** apply_hourly_p95_spread: refuses the first bar whose hour has no P95. The dataset recorded in the
      calibration is not compared with anything. */
  method ApplyHourlyP95Spread(bars: seq<FxBar>, c: Calibration) returns (result: Result<seq<FxBar>, CalibrationError>)
    ensures result.Ok? <==> forall i :: 0 <= i < |bars| ==> Usable(c, bars[i])
    ensures result.Ok? ==>
              (|result.value| == |bars| && forall i :: 0 <= i < |bars| ==> result.value[i] == Transformed(c, bars[i]))
    ensures result.Err? ==> exists i :: 0 <= i < |bars| && RefusedAt(bars, c, i, result.error)
  {
    var values: map<int, Option<int>> := map[];
    for k := 0 to |c.buckets|
      invariant forall h :: (if h in values then values[h] else None) == P95For(c.buckets[..k], h)
    {
      assert c.buckets[..k + 1][..k] == c.buckets[..k];
      values := values[c.buckets[k].hour := c.buckets[k].p95];
    }
    assert c.buckets[..|c.buckets|] == c.buckets;
    var transformed: seq<FxBar> := [];
    for i := 0 to |bars|
      invariant |transformed| == i
      invariant forall k :: 0 <= k < i ==> Usable(c, bars[k]) && transformed[k] == Transformed(c, bars[k])
    {
      var spread := if HourOf(bars[i]) in values then values[HourOf(bars[i])] else None;
      if spread.None? {
        assert RefusedAt(bars, c, i, InsufficientHour(HourOf(bars[i])));
        return Err(InsufficientHour(HourOf(bars[i])));
      }
      if spread.value < 0 {
        assert RefusedAt(bars, c, i, NegativeSpread);
        return Err(NegativeSpread);
      }
      transformed := transformed + [bars[i].(spread := spread)];
    }
    result := Ok(transformed);
  }

  lemma {:induction false} CalibratedHour(buckets: seq<SpreadBucket>, hour: int)
    requires 0 <= hour < |buckets| && forall h :: 0 <= h < |buckets| ==> buckets[h].hour == h
    ensures P95For(buckets, hour) == buckets[hour].p95
  {
    if hour < |buckets| - 1 { CalibratedHour(buckets[..|buckets| - 1], hour); }
  }

  lemma {:induction false} ObservedIsNatural(bars: seq<FxBar>, hour: int)
    ensures forall k :: 0 <= k < |Observed(bars, hour)| ==> Observed(bars, hour)[k] >= 0
  {
    if bars != [] { ObservedIsNatural(bars[..|bars| - 1], hour); }
  }

  /** A calibration covers a bar of its own dataset exactly when that hour has enough observations. */
  lemma UsableExactlyWhen(bars: seq<FxBar>, dataset: string, minimum: int, c: Calibration, bar: FxBar)
    requires IsCalibration(bars, dataset, minimum, c) && minimum >= 1
    ensures Usable(c, bar) <==> |Observed(bars, HourOf(bar))| >= minimum
  {
    var h := HourOf(bar);
    HourInDay(bar);
    CalibratedHour(c.buckets, h);
    var values := Observed(bars, h);
    if |values| >= minimum {
      QuantileIsLeast(values, 95, 100);
      ObservedIsNatural(bars, h);
    }
  }

  /** How many bars of an hour were observed at no more than the spread they are given. */
  function Covered(bars: seq<FxBar>, out: seq<FxBar>, hour: int): nat
    requires |bars| == |out|
  {
    if bars == [] then 0
    else
      var k := |bars| - 1;
      Covered(bars[..k], out[..k], hour) +
      if HourOf(bars[k]) == hour && bars[k].spread.Some? && out[k].spread.Some? &&
        bars[k].spread.value <= out[k].spread.value
      then 1 else 0
  }

  lemma {:induction false} CoveredIsCount(bars: seq<FxBar>, out: seq<FxBar>, hour: int, v: int)
    requires |bars| == |out| && forall i :: 0 <= i < |bars| && HourOf(bars[i]) == hour ==> out[i].spread == Some(v)
    ensures Covered(bars, out, hour) == CountLe(Observed(bars, hour), v)
  {
    if bars != [] {
      var k := |bars| - 1;
      CoveredIsCount(bars[..k], out[..k], hour, v);
      assert Observed(bars[..k], hour) + [] == Observed(bars[..k], hour);
      if HourOf(bars[k]) == hour && bars[k].spread.Some? {
        CountLeAppend(Observed(bars[..k], hour), bars[k].spread.value, v);
      }
    }
  }

  ghost predicate IsLeastCovering(values: seq<int>, v: int) {
    && v in values && Reaches(CountLe(values, v), |values|, 95, 100)
    && forall w :: w < v ==> !Reaches(CountLe(values, w), |values|, 95, 100)
  }

  /** Coverage: a dataset charged its own P95 is charged, in every hour, no less than was observed in at
      least 95 of 100 observations, and in that hour no lower observed spread would do. */
  lemma TransformedCovers(bars: seq<FxBar>, dataset: string, minimum: int, c: Calibration, out: seq<FxBar>, hour: int)
    requires IsCalibration(bars, dataset, minimum, c) && minimum >= 1 && 0 <= hour < 24
    requires |out| == |bars| && forall i :: 0 <= i < |bars| ==> Usable(c, bars[i]) && out[i] == Transformed(c, bars[i])
    ensures 100 * Covered(bars, out, hour) >= 95 * |Observed(bars, hour)|
    ensures forall i :: 0 <= i < |bars| && HourOf(bars[i]) == hour ==>
              out[i].spread.Some? && IsLeastCovering(Observed(bars, hour), out[i].spread.value)
  {
    var values := Observed(bars, hour);
    CalibratedHour(c.buckets, hour);
    if exists i :: 0 <= i < |bars| && HourOf(bars[i]) == hour {
      var i :| 0 <= i < |bars| && HourOf(bars[i]) == hour;
      UsableExactlyWhen(bars, dataset, minimum, c, bars[i]);
      QuantileIsLeast(values, 95, 100);
      CoveredIsCount(bars, out, hour, c.buckets[hour].p95.value);
    } else {
      NoneObserved(bars, hour);
    }
  }

  lemma {:induction false} NoneObserved(bars: seq<FxBar>, hour: int)
    requires forall i :: 0 <= i < |bars| ==> HourOf(bars[i]) != hour
    ensures Observed(bars, hour) == []
  {
    if bars != [] { NoneObserved(bars[..|bars| - 1], hour); }
  }
}
