/** The failed-breakout strategy: a bar that closes beyond the range of the previous calendar day arms
    the strategy, and the next bar of the same day, if it closes back inside, starts a block of four
    targets. The streaming program is shown equal to a definition that has no state. */
module FailedBreakout {
  import opened Common
  import opened FxCosts
  import opened FxEngine

  const HOLDING_BARS := 4

  const LONG_VARIANT := "daily-range-failed-breakout-long"
  const SHORT_VARIANT := "daily-range-failed-breakout-short"
  const CONTROL_VARIANT := "control-flat"

  datatype StrategyError = UnknownVariant

  function Day(bar: RawBar): int {
    bar.time / DAY
  }

  predicate Chronological(bars: seq<FxBar>) {
    forall i, j :: 0 <= i < j < |bars| ==> bars[i].time <= bars[j].time
  }

  // ------------------------------------------------------------------ what the strategy means

  /** Bar k lies on the calendar day before bar i's. */
  predicate OnPriorDay(bars: seq<FxBar>, k: int, i: int)
    requires 0 <= i < |bars|
  {
    0 <= k < |bars| && Day(bars[k]) == Day(bars[i]) - 1
  }

  predicate HasPriorDay(bars: seq<FxBar>, i: int)
    requires 0 <= i < |bars|
  {
    exists k :: 0 <= k < |bars| && OnPriorDay(bars, k, i)
  }

  /** Bar i closes below every low, or for a short above every high, of the day before. */
  predicate Beyond(bars: seq<FxBar>, side: Side, i: int)
    requires 0 <= i < |bars|
  {
    && HasPriorDay(bars, i)
    && forall k :: 0 <= k < |bars| && OnPriorDay(bars, k, i) ==>
         if side == Long then bars[i].close < bars[k].low else bars[i].close > bars[k].high
  }

  /** Bar i closes above some low and below some high of the day before: strictly inside its range. */
  predicate Inside(bars: seq<FxBar>, i: int)
    requires 0 <= i < |bars|
  {
    && (exists k :: 0 <= k < |bars| && OnPriorDay(bars, k, i) && bars[k].low < bars[i].close)
    && (exists k :: 0 <= k < |bars| && OnPriorDay(bars, k, i) && bars[i].close < bars[k].high)
  }

  /** Bar i breaks out, and is neither held nor itself the confirmation of an earlier break. */
  predicate Armed(bars: seq<FxBar>, side: Side, i: nat)
    requires i < |bars|
    decreases i, 2
  {
    !Held(bars, side, i) && !Confirms(bars, side, i) && Beyond(bars, side, i)
  }

  /** Bar i is the one that decides on the break of the bar before, on the same day. */
  predicate Confirms(bars: seq<FxBar>, side: Side, i: nat)
    requires i < |bars|
    decreases i, 0
  {
    i > 0 && Day(bars[i - 1]) == Day(bars[i]) && Armed(bars, side, i - 1)
  }

  predicate Starts(bars: seq<FxBar>, side: Side, i: nat)
    requires i < |bars|
    decreases i, 1
  {
    Confirms(bars, side, i) && Inside(bars, i)
  }

  /** A block started at one of the three bars before i. */
  predicate Held(bars: seq<FxBar>, side: Side, i: nat)
    requires i < |bars|
    decreases i, 0
  {
    || (i >= 1 && Starts(bars, side, i - 1))
    || (i >= 2 && Starts(bars, side, i - 2))
    || (i >= 3 && Starts(bars, side, i - 3))
  }

  function Target(bars: seq<FxBar>, side: Side, i: nat): Side
    requires i < |bars|
  {
    if Starts(bars, side, i) || Held(bars, side, i) then side else Flat
  }

  // ------------------------------------------------------------------ the program, bar by bar

  datatype Range = Range(low: real, high: real)

  datatype Machine = Machine(
    day: Option<int>, range: Range, completed: map<int, Range>, pending: bool, held: nat, out: seq<Side>)

  const IDLE := Machine(None, Range(0.0, 0.0), map[], false, 0, [])

  /** The running range: a new day closes the old one's and forgets an unconfirmed break. */
  function Ranged(m: Machine, bar: FxBar): Machine {
    if m.day != Some(Day(bar)) then
      m.(completed := if m.day.Some? then m.completed[m.day.value := m.range] else m.completed,
         day := Some(Day(bar)), range := Range(bar.low, bar.high), pending := false)
    else
      m.(range := Range(if bar.low < m.range.low then bar.low else m.range.low,
                        if bar.high > m.range.high then bar.high else m.range.high))
  }

  function Decided(m: Machine, side: Side, bar: FxBar): Machine {
    if m.held > 0 then m.(out := m.out + [side], held := m.held - 1)
    else if Day(bar) - 1 !in m.completed then m.(out := m.out + [Flat])
    else
      var prior := m.completed[Day(bar) - 1];
      if m.pending then
        if prior.low < bar.close < prior.high
        then m.(pending := false, out := m.out + [side], held := HOLDING_BARS - 1)
        else m.(pending := false, out := m.out + [Flat])
      else
        m.(pending := if side == Long then bar.close < prior.low else bar.close > prior.high, out := m.out + [Flat])
  }

  function After(bars: seq<FxBar>, side: Side, n: nat): Machine
    requires n <= |bars|
  {
    if n == 0 then IDLE else Decided(Ranged(After(bars, side, n - 1), bars[n - 1]), side, bars[n - 1])
  }

  function Targets(bars: seq<FxBar>, side: Side): seq<Side> {
    After(bars, side, |bars|).out
  }

  /** daily_range_failed_breakout */
  method DailyRangeFailedBreakout(bars: seq<FxBar>, variantId: string)
    returns (result: Result<seq<Side>, StrategyError>)
    ensures result.Err? <==> variantId != LONG_VARIANT && variantId != SHORT_VARIANT && variantId != CONTROL_VARIANT
    ensures variantId == LONG_VARIANT ==> result == Ok(Targets(bars, Long))
    ensures variantId == SHORT_VARIANT ==> result == Ok(Targets(bars, Short))
    ensures variantId == CONTROL_VARIANT ==>
              result.Ok? && |result.value| == |bars| && forall i :: 0 <= i < |bars| ==> result.value[i] == Flat
  {
    if variantId != LONG_VARIANT && variantId != SHORT_VARIANT && variantId != CONTROL_VARIANT {
      return Err(UnknownVariant);
    }
    if variantId == CONTROL_VARIANT {
      return Ok(seq(|bars|, _ => Flat));
    }
    var side := if variantId == LONG_VARIANT then Long else Short;
    var out: seq<Side> := [];
    var completed: map<int, Range> := map[];
    var currentDay: Option<int>, range, pending := None, Range(0.0, 0.0), false;
    var held: nat := 0;
    for i := 0 to |bars|
      invariant Machine(currentDay, range, completed, pending, held, out) == After(bars, side, i)
    {
      var bar := bars[i];
      var day := Day(bar);
      if currentDay != Some(day) {
        if currentDay.Some? {
          completed := completed[currentDay.value := range];
        }
        currentDay, range := Some(day), Range(bar.low, bar.high);
        pending := false;
      } else {
        range := Range(if bar.low < range.low then bar.low else range.low,
                       if bar.high > range.high then bar.high else range.high);
      }
      if held > 0 {
        out := out + [side];
        held := held - 1;
        continue;
      }
      if day - 1 !in completed {
        out := out + [Flat];
        continue;
      }
      var prior := completed[day - 1];
      var inside := prior.low < bar.close < prior.high;
      if pending {
        pending := false;
        if inside {
          out := out + [side];
          held := HOLDING_BARS - 1;
        } else {
          out := out + [Flat];
        }
        continue;
      }
      pending := if side == Long then bar.close < prior.low else bar.close > prior.high;
      out := out + [Flat];
    }
    result := Ok(out);
  }

  // ------------------------------------------------------------------ the program means the definition

  predicate Seen(bars: seq<FxBar>, n: nat, day: int)
    requires n <= |bars|
  {
    exists k :: 0 <= k < n && Day(bars[k]) == day
  }

  /** r is the true low and high of a day among the first n bars. */
  predicate IsRange(bars: seq<FxBar>, n: nat, day: int, r: Range)
    requires n <= |bars|
  {
    && (exists k :: 0 <= k < n && Day(bars[k]) == day && bars[k].low == r.low)
    && (exists k :: 0 <= k < n && Day(bars[k]) == day && bars[k].high == r.high)
    && forall k :: 0 <= k < n && Day(bars[k]) == day ==> r.low <= bars[k].low && bars[k].high <= r.high
  }

  predicate CurrentOk(bars: seq<FxBar>, n: nat, day: Option<int>, range: Range)
    requires n <= |bars|
  {
    if n == 0 then day == None else day == Some(Day(bars[n - 1])) && IsRange(bars, n, Day(bars[n - 1]), range)
  }

  /** Every day seen before the current one has its true range on record, and no other day has. */
  ghost predicate CompletedOk(bars: seq<FxBar>, n: nat, completed: map<int, Range>)
    requires n <= |bars|
  {
    && (forall d :: d in completed <==> n > 0 && d != Day(bars[n - 1]) && Seen(bars, n, d))
    && (forall d :: d in completed ==> IsRange(bars, n, d, completed[d]))
  }

  ghost predicate RangesOk(bars: seq<FxBar>, n: nat, m: Machine)
    requires n <= |bars|
  {
    CurrentOk(bars, n, m.day, m.range) && CompletedOk(bars, n, m.completed)
  }

  lemma DaysRise(bars: seq<FxBar>, i: nat, j: nat)
    requires Chronological(bars) && i <= j < |bars|
    ensures Day(bars[i]) <= Day(bars[j])
  {
  }

  lemma SeenNext(bars: seq<FxBar>, n: nat, d: int)
    requires n < |bars|
    ensures Seen(bars, n + 1, d) <==> Seen(bars, n, d) || d == Day(bars[n])
  {
    if Seen(bars, n, d) { var k :| 0 <= k < n && Day(bars[k]) == d; }
    if d == Day(bars[n]) { assert 0 <= n < n + 1 && Day(bars[n]) == d; }
  }

  /** Days never come back: a day that is not the last one seen is new or over. */
  lemma NewDay(bars: seq<FxBar>, n: nat)
    requires n < |bars| && Chronological(bars) && (n > 0 ==> Day(bars[n - 1]) != Day(bars[n]))
    ensures !Seen(bars, n, Day(bars[n])) && IsRange(bars, n + 1, Day(bars[n]), Range(bars[n].low, bars[n].high))
  {
    forall k: nat | k < n ensures Day(bars[k]) < Day(bars[n]) {
      DaysRise(bars, k, n - 1);
      DaysRise(bars, n - 1, n);
    }
    assert 0 <= n < n + 1 && Day(bars[n]) == Day(bars[n]);
  }

  lemma SameDayCompleted(bars: seq<FxBar>, n: nat, completed: map<int, Range>)
    requires 0 < n < |bars| && Day(bars[n - 1]) == Day(bars[n]) && CompletedOk(bars, n, completed)
    ensures CompletedOk(bars, n + 1, completed)
  {
    hide Seen, IsRange;
    forall d ensures Seen(bars, n + 1, d) <==> Seen(bars, n, d) || d == Day(bars[n]) { SeenNext(bars, n, d); }
    forall d | d in completed ensures IsRange(bars, n + 1, d, completed[d]) { RangeStays(bars, n, d, completed[d]); }
  }

  lemma NewDayCompleted(bars: seq<FxBar>, n: nat, completed: map<int, Range>, range: Range)
    requires 0 < n < |bars| && Day(bars[n - 1]) != Day(bars[n]) && Chronological(bars)
    requires CompletedOk(bars, n, completed) && IsRange(bars, n, Day(bars[n - 1]), range)
    ensures CompletedOk(bars, n + 1, completed[Day(bars[n - 1]) := range])
  {
    NewDay(bars, n);
    SeenNext(bars, n - 1, Day(bars[n - 1]));
    hide Seen, IsRange, Chronological;
    var completed' := completed[Day(bars[n - 1]) := range];
    forall d ensures Seen(bars, n + 1, d) <==> Seen(bars, n, d) || d == Day(bars[n]) { SeenNext(bars, n, d); }
    forall d | d in completed' ensures IsRange(bars, n + 1, d, completed'[d]) { RangeStays(bars, n, d, completed'[d]); }
  }

  lemma FirstDayCompleted(bars: seq<FxBar>, completed: map<int, Range>)
    requires |bars| > 0 && CompletedOk(bars, 0, completed)
    ensures CompletedOk(bars, 1, completed)
  {
    forall d ensures Seen(bars, 1, d) <==> d == Day(bars[0]) { SeenNext(bars, 0, d); }
  }

  lemma RangedKeepsRanges(bars: seq<FxBar>, n: nat, m: Machine)
    requires n < |bars| && Chronological(bars) && RangesOk(bars, n, m)
    ensures RangesOk(bars, n + 1, Ranged(m, bars[n]))
  {
    var m' := Ranged(m, bars[n]);
    if m.day == Some(Day(bars[n])) {
      RangeGrows(bars, n, m.range, m'.range);
      SameDayCompleted(bars, n, m.completed);
    } else {
      NewDay(bars, n);
      if n == 0 { FirstDayCompleted(bars, m.completed); } else { NewDayCompleted(bars, n, m.completed, m.range); }
    }
  }

  lemma RangeStays(bars: seq<FxBar>, n: nat, d: int, r: Range)
    requires n < |bars| && d != Day(bars[n]) && IsRange(bars, n, d, r)
    ensures IsRange(bars, n + 1, d, r)
  {
    var k :| 0 <= k < n && Day(bars[k]) == d && bars[k].low == r.low;
    var l :| 0 <= l < n && Day(bars[l]) == d && bars[l].high == r.high;
    assert k < n + 1 && l < n + 1;
  }

  lemma RangeGrows(bars: seq<FxBar>, n: nat, r: Range, r': Range)
    requires n < |bars| && IsRange(bars, n, Day(bars[n]), r)
    requires r'.low == (if bars[n].low < r.low then bars[n].low else r.low)
    requires r'.high == (if bars[n].high > r.high then bars[n].high else r.high)
    ensures IsRange(bars, n + 1, Day(bars[n]), r')
  {
    var d := Day(bars[n]);
    var k :| 0 <= k < n && Day(bars[k]) == d && bars[k].low == r.low;
    var l :| 0 <= l < n && Day(bars[l]) == d && bars[l].high == r.high;
    assert k < n + 1 && l < n + 1;
    assert Day(bars[n]) == d && n < n + 1;
  }

  /** Bars of the day before are bars before. */
  lemma PriorIsEarlier(bars: seq<FxBar>, i: nat)
    requires i < |bars| && Chronological(bars)
    ensures forall k: nat :: k < |bars| && OnPriorDay(bars, k, i) ==> k < i
  {
    forall k: nat | k < |bars| && OnPriorDay(bars, k, i) ensures k < i {
      if k >= i { DaysRise(bars, i, k); }
    }
  }

  lemma PriorIsSeen(bars: seq<FxBar>, i: nat)
    requires i < |bars| && Chronological(bars)
    ensures Seen(bars, i + 1, Day(bars[i]) - 1) <==> HasPriorDay(bars, i)
  {
    PriorIsEarlier(bars, i);
    if Seen(bars, i + 1, Day(bars[i]) - 1) {
      var k :| 0 <= k < i + 1 && Day(bars[k]) == Day(bars[i]) - 1;
      assert OnPriorDay(bars, k, i);
    }
  }

  /** Beyond the range's end is beyond every bar of that day. */
  lemma RangeDecidesBeyond(bars: seq<FxBar>, side: Side, i: nat, r: Range)
    requires i < |bars| && Chronological(bars) && IsRange(bars, i + 1, Day(bars[i]) - 1, r)
    ensures Beyond(bars, side, i) <==> if side == Long then bars[i].close < r.low else bars[i].close > r.high
  {
    PriorIsEarlier(bars, i);
    var k :| 0 <= k < i + 1 && Day(bars[k]) == Day(bars[i]) - 1 && bars[k].low == r.low;
    var l :| 0 <= l < i + 1 && Day(bars[l]) == Day(bars[i]) - 1 && bars[l].high == r.high;
    assert OnPriorDay(bars, k, i) && OnPriorDay(bars, l, i);
    hide Chronological;
  }

  /** Inside the range is above some bar's low and below some bar's high. */
  lemma RangeDecidesInside(bars: seq<FxBar>, i: nat, r: Range)
    requires i < |bars| && Chronological(bars) && IsRange(bars, i + 1, Day(bars[i]) - 1, r)
    ensures Inside(bars, i) <==> r.low < bars[i].close < r.high
  {
    PriorIsEarlier(bars, i);
    var k :| 0 <= k < i + 1 && Day(bars[k]) == Day(bars[i]) - 1 && bars[k].low == r.low;
    var l :| 0 <= l < i + 1 && Day(bars[l]) == Day(bars[i]) - 1 && bars[l].high == r.high;
    assert OnPriorDay(bars, k, i) && OnPriorDay(bars, l, i);
    hide Chronological;
  }

  /** With the true range at hand, comparing with its ends is comparing with every bar of that day. */
  lemma RangeDecides(bars: seq<FxBar>, side: Side, i: nat, completed: map<int, Range>)
    requires i < |bars| && Chronological(bars) && CompletedOk(bars, i + 1, completed)
    ensures var d := Day(bars[i]) - 1;
            && (d in completed <==> HasPriorDay(bars, i)) &&
               (Beyond(bars, side, i) || Inside(bars, i) ==> d in completed)
            && (d in completed ==>
                  (&& (Beyond(bars, side, i) <==>
                         if side == Long then bars[i].close < completed[d].low else bars[i].close > completed[d].high)
                   && (Inside(bars, i) <==> completed[d].low < bars[i].close < completed[d].high)))
  {
    var d := Day(bars[i]) - 1;
    PriorIsSeen(bars, i);
    InsideHasPrior(bars, i);
    if d in completed {
      RangeDecidesBeyond(bars, side, i, completed[d]);
      RangeDecidesInside(bars, i, completed[d]);
    }
    hide Inside, IsRange, Seen, HasPriorDay, Chronological;
  }

  lemma InsideHasPrior(bars: seq<FxBar>, i: nat)
    requires i < |bars|
    ensures Inside(bars, i) ==> HasPriorDay(bars, i)
  {
  }

  /** A block starts only where nothing is held, and five bars apart at least. */
  lemma StartsFree(bars: seq<FxBar>, side: Side, i: nat)
    requires i < |bars| && Confirms(bars, side, i)
    ensures !Held(bars, side, i) && (i + 1 < |bars| ==> !Confirms(bars, side, i + 1))
    ensures forall j: nat :: i - HOLDING_BARS <= j < i ==> !Starts(bars, side, j)
  {
    assert Armed(bars, side, i - 1);
    forall j: nat | i - HOLDING_BARS <= j < i ensures !Starts(bars, side, j) {
      if Starts(bars, side, j) && j < i - 1 { assert Held(bars, side, i - 1); }
    }
  }

  /** The counter says where the block that holds bar n started. */
  predicate HeldOk(bars: seq<FxBar>, side: Side, n: nat, held: nat)
    requires n <= |bars|
  {
    && held < HOLDING_BARS && (held > 0 ==> n + held >= HOLDING_BARS && Starts(bars, side, n + held - HOLDING_BARS))
    && forall j: nat :: n - HOLDING_BARS < j < n && Starts(bars, side, j) ==> held > 0 && j == n + held - HOLDING_BARS
  }

  predicate FlagsOk(bars: seq<FxBar>, side: Side, n: nat, m: Machine)
    requires n <= |bars|
  {
    && HeldOk(bars, side, n, m.held) && (n > 0 ==> (m.pending <==> Armed(bars, side, n - 1)))
    && |m.out| == n && forall k :: 0 <= k < n ==> m.out[k] == Target(bars, side, k)
  }

  lemma HeldAgrees(bars: seq<FxBar>, side: Side, n: nat, held: nat)
    requires n < |bars| && HeldOk(bars, side, n, held)
    ensures Held(bars, side, n) <==> held > 0
  {
    assert n >= 1 && Starts(bars, side, n - 1) ==> held > 0;
    assert n >= 2 && Starts(bars, side, n - 2) ==> held > 0;
    assert n >= 3 && Starts(bars, side, n - 3) ==> held > 0;
  }

  lemma HeldAdvances(bars: seq<FxBar>, side: Side, n: nat, held: nat, held': nat)
    requires n < |bars| && HeldOk(bars, side, n, held)
    requires held' == if held > 0 then held - 1 else if Starts(bars, side, n) then HOLDING_BARS - 1 else 0
    ensures HeldOk(bars, side, n + 1, held')
  {
    if Starts(bars, side, n) { StartsFree(bars, side, n); }
    if held > 0 { assert !Starts(bars, side, n); }
  }

  lemma DecidedKeepsFlags(bars: seq<FxBar>, side: Side, n: nat, m: Machine)
    requires n < |bars| && Chronological(bars) && side != Flat
    requires CompletedOk(bars, n + 1, m.completed)
    requires HeldOk(bars, side, n, m.held) && (m.pending <==> Confirms(bars, side, n))
    requires |m.out| == n && forall k :: 0 <= k < n ==> m.out[k] == Target(bars, side, k)
    ensures FlagsOk(bars, side, n + 1, Decided(m, side, bars[n]))
  {
    hide CompletedOk, Inside, Beyond, HasPriorDay, Chronological;
    var m' := Decided(m, side, bars[n]);
    HeldAgrees(bars, side, n, m.held);
    RangeDecides(bars, side, n, m.completed);
    if m.pending {
      StartsFree(bars, side, n);
      SamePriorDay(bars, side, n);
    }
    HeldAdvances(bars, side, n, m.held, m'.held);
  }

  lemma SamePriorDay(bars: seq<FxBar>, side: Side, n: nat)
    requires n < |bars| && Confirms(bars, side, n)
    ensures HasPriorDay(bars, n)
  {
    var k :| 0 <= k < |bars| && OnPriorDay(bars, k, n - 1);
    assert OnPriorDay(bars, k, n);
  }

  lemma {:induction false} MachineIsRight(bars: seq<FxBar>, side: Side, n: nat)
    requires n <= |bars| && Chronological(bars) && side != Flat
    ensures var m := After(bars, side, n);
            RangesOk(bars, n, m) && FlagsOk(bars, side, n, m)
  {
    hide Decided, Ranged, IsRange, Seen;
    if n > 0 {
      MachineIsRight(bars, side, n - 1);
      var m := After(bars, side, n - 1);
      RangedKeepsRanges(bars, n - 1, m);
      RangedKeepsOut(m, bars[n - 1]);
      DecidedKeepsFlags(bars, side, n - 1, Ranged(m, bars[n - 1]));
      DecidedLeavesRanges(Ranged(m, bars[n - 1]), side, bars[n - 1]);
    }
  }

  lemma DecidedLeavesRanges(m: Machine, side: Side, bar: FxBar)
    ensures var m' := Decided(m, side, bar); m'.day == m.day && m'.range == m.range && m'.completed == m.completed
  {
  }

  /** For chronological bars the streaming program computes exactly the stateless definition. */
  lemma StreamingIsDefinition(bars: seq<FxBar>, side: Side)
    requires Chronological(bars) && side != Flat
    ensures |Targets(bars, side)| == |bars|
    ensures forall i :: 0 <= i < |bars| ==> Targets(bars, side)[i] == Target(bars, side, i)
  {
    MachineIsRight(bars, side, |bars|);
  }

  // ------------------------------------------------------------------ what follows

  /** A target that is wanted after a bar where none was. */
  predicate BlockStart(targets: seq<Side>, i: int)
    requires 0 <= i < |targets|
  {
    targets[i] != Flat && (i == 0 || targets[i - 1] == Flat)
  }

  lemma StartsExactlyWhen(bars: seq<FxBar>, side: Side, i: nat)
    requires side != Flat && i < |bars|
    ensures Starts(bars, side, i) <==>
            && i > 0 && Day(bars[i - 1]) == Day(bars[i])
            && Target(bars, side, i - 1) == Flat && !Confirms(bars, side, i - 1) && Beyond(bars, side, i - 1)
            && Inside(bars, i)
  {
    if i > 0 {
      assert Confirms(bars, side, i) <==> Day(bars[i - 1]) == Day(bars[i]) && Armed(bars, side, i - 1);
      assert Armed(bars, side, i - 1) <==>
             Target(bars, side, i - 1) == Flat && !Confirms(bars, side, i - 1) && Beyond(bars, side, i - 1);
    }
  }

  lemma StartsAreVisible(bars: seq<FxBar>, side: Side, i: nat)
    requires side != Flat && i < |bars|
    ensures Starts(bars, side, i) <==> Target(bars, side, i) != Flat && (i == 0 || Target(bars, side, i - 1) == Flat)
  {
    if Starts(bars, side, i) {
      StartsFree(bars, side, i);
      assert Armed(bars, side, i - 1);
    } else if Held(bars, side, i) {
      assert Starts(bars, side, i - 1) || Held(bars, side, i - 1);
    }
  }

  /** Blocks start exactly at the confirmations inside the prior range of a break on the bar before,
      a bar of the same day that was neither held nor a confirmation itself. */
  lemma BlocksStartAtConfirmations(bars: seq<FxBar>, side: Side, i: nat)
    requires Chronological(bars) && side != Flat && i < |bars|
    ensures |Targets(bars, side)| == |bars|
    ensures BlockStart(Targets(bars, side), i) <==> Starts(bars, side, i)
    ensures BlockStart(Targets(bars, side), i) <==>
            && i > 0 && Day(bars[i - 1]) == Day(bars[i])
            && Targets(bars, side)[i - 1] == Flat && !Confirms(bars, side, i - 1) && Beyond(bars, side, i - 1)
            && Inside(bars, i)
  {
    StreamingIsDefinition(bars, side);
    StartsExactlyWhen(bars, side, i);
    StartsAreVisible(bars, side, i);
    hide Starts, Targets, Target, Confirms, Beyond, Inside;
    assert Targets(bars, side)[i] == Target(bars, side, i);
    assert i > 0 ==> Targets(bars, side)[i - 1] == Target(bars, side, i - 1);
  }

  /** Every block is four targets of one side, then flat, unless the data end first. */
  predicate FourThenFlat(targets: seq<Side>, i: int)
    requires 0 <= i < |targets|
  {
    && (forall j :: i <= j < i + HOLDING_BARS && j < |targets| ==> targets[j] == targets[i])
    && (i + HOLDING_BARS < |targets| ==> targets[i + HOLDING_BARS] == Flat)
  }

  predicate Blocks(targets: seq<Side>) {
    forall i :: 0 <= i < |targets| && BlockStart(targets, i) ==> FourThenFlat(targets, i)
  }

  lemma TargetsAreBlocks(bars: seq<FxBar>, side: Side)
    requires Chronological(bars) && side != Flat
    ensures Blocks(Targets(bars, side))
  {
    StreamingIsDefinition(bars, side);
    var targets := Targets(bars, side);
    forall i | 0 <= i < |targets| && BlockStart(targets, i) ensures FourThenFlat(targets, i) {
      BlocksStartAtConfirmations(bars, side, i);
      forall j: nat | i < j < i + HOLDING_BARS && j < |targets| ensures targets[j] == side {
        assert Held(bars, side, j);
      }
      if i + HOLDING_BARS < |targets| { FlatAfterBlock(bars, side, i); }
    }
  }

  lemma FlatAfterBlock(bars: seq<FxBar>, side: Side, i: nat)
    requires i + HOLDING_BARS < |bars| && Starts(bars, side, i)
    ensures Target(bars, side, i + HOLDING_BARS) == Flat
  {
    forall j: nat | i < j <= i + HOLDING_BARS ensures !Starts(bars, side, j) {
      if Starts(bars, side, j) { StartsFree(bars, side, j); }
    }
    var end := i + HOLDING_BARS;
    assert !Starts(bars, side, end) && !Starts(bars, side, end - 1) && !Starts(bars, side, end - 2) &&
           !Starts(bars, side, end - 3);
  }

  /** Bars that come later never change a target already given. */
  lemma {:induction false} PrefixStable(bars: seq<FxBar>, more: seq<FxBar>, side: Side, n: nat)
    requires n <= |bars|
    ensures After(bars + more, side, n) == After(bars, side, n)
  {
    hide Decided, Ranged;
    if n > 0 { PrefixStable(bars, more, side, n - 1); }
  }

  lemma DecidedAppends(m: Machine, side: Side, bar: FxBar)
    ensures m.out <= Decided(m, side, bar).out
  {
  }

  lemma RangedKeepsOut(m: Machine, bar: FxBar)
    ensures var m' := Ranged(m, bar); m'.out == m.out && m'.held == m.held
    ensures Ranged(m, bar).pending <==> m.pending && m.day == Some(Day(bar))
  {
  }

  lemma {:induction false} OutGrows(bars: seq<FxBar>, side: Side, n: nat, m: nat)
    requires n <= m <= |bars|
    ensures After(bars, side, n).out <= After(bars, side, m).out
    decreases m - n
  {
    hide Decided, Ranged;
    if n < m {
      OutGrows(bars, side, n, m - 1);
      DecidedAppends(Ranged(After(bars, side, m - 1), bars[m - 1]), side, bars[m - 1]);
      RangedKeepsOut(After(bars, side, m - 1), bars[m - 1]);
    }
  }

  /** The strategy is causal: the targets of a longer history begin with those of the shorter one. */
  lemma {:induction false} TargetsAreCausal(bars: seq<FxBar>, more: seq<FxBar>, side: Side)
    ensures Targets(bars, side) <= Targets(bars + more, side)
  {
    PrefixStable(bars, more, side, |bars|);
    OutGrows(bars + more, side, |bars|, |bars + more|);
  }
}
