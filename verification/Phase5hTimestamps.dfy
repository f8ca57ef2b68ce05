/** What equal timestamps do to the trade records. Bars that never go back in time are traded correctly
    whatever their timestamps; the record checks find a trade's bars by time, and here is exactly when
    they refuse one, and when they accept one for other bars than its own. */
module Phase5hTimestamps {
  import opened Common
  import opened FxCosts
  import opened FxEngine
  import opened FxRuns
  import opened FxMonotone
  import opened FxAccounting
  import opened FailedBreakout
  import opened Phase5hTargets
  import opened Phase5hSchedule
  import opened Phase5hRun

  // ------------------------------------------------------------------ one run

  /** The record of block s is accepted: the bar before the last one with its entry time has a target. */
  predicate Accepted(bars: seq<FxBar>, targets: seq<Side>, s: nat)
    requires Chronological(bars) && |bars| == |targets| && s + 1 < |bars|
  {
    targets[EntryIndex(bars, s) - 1] != Flat
  }

  /** Every complete block's record is accepted. */
  predicate AllAccepted(bars: seq<FxBar>, targets: seq<Side>)
    requires Chronological(bars) && |bars| == |targets|
  {
    forall s: nat :: s + HOLDING_BARS + 1 < |bars| && BlockStart(targets, s) ==> Accepted(bars, targets, s)
  }

  /** A run that the stage could hand to the record checks. */
  predicate Answered(cfg: RawConfig, bars: seq<FxBar>, targets: seq<Side>) {
    |bars| == |targets| && |bars| >= 2 && AllComplete(targets) && RunResult(cfg, bars, targets).Ok?
  }

  predicate AllRecorded(cfg: RawConfig, bars: seq<FxBar>, targets: seq<Side>)
    requires Answered(cfg, bars, targets)
  {
    var r := RunResult(cfg, bars, targets).value;
    forall k :: 0 <= k < |r.trades| ==> RecordOf(r, bars, targets, r.trades[k]).Ok?
  }

  lemma TradeIsRecordedExactlyWhen(cfg: RawConfig, r: FxResult, bars: seq<FxBar>, targets: seq<Side>, t: Trade, s: nat)
    requires Chronological(bars) && |bars| == |targets| && TradeOf(bars, targets, t, s)
    requires Returned(cfg, bars, t)
    ensures RecordOf(r, bars, targets, t).Ok? <==> Accepted(bars, targets, s)
  {
    ReturnedBalances(cfg, bars, t);
    BlockIsRecordedExactlyWhen(r, bars, targets, t, s);
  }

  /** For every configuration, chronological bars and complete blocks: a run that is not stopped passes
      all record checks if and only if every block is accepted, which bars and targets alone decide. */
  lemma {:induction false} RunIsRecordedExactlyWhen(cfg: RawConfig, bars: seq<FxBar>, targets: seq<Side>)
    requires Answered(cfg, bars, targets) && Chronological(bars)
    requires RunResult(cfg, bars, targets).value.terminatedAt.None?
    ensures AllRecorded(cfg, bars, targets) <==> AllAccepted(bars, targets)
  {
    var r := RunResult(cfg, bars, targets).value;
    TradesAreScheduled(cfg, bars, targets);
    BlocksAreTraded(cfg, bars, targets);
    hide RunResult, RecordOf, Returned, Accepted, TradeOf, Chronological;
    forall k | 0 <= k < |r.trades| && AllAccepted(bars, targets) ensures RecordOf(r, bars, targets, r.trades[k]).Ok? {
      var s :| 0 <= s < |targets| && TradeOf(bars, targets, r.trades[k], s);
      TradeIsOfCompleteBlock(bars, targets, r.trades[k], s);
      TradeIsRecordedExactlyWhen(cfg, r, bars, targets, r.trades[k], s);
    }
    forall s: nat | AllRecorded(cfg, bars, targets) && s + HOLDING_BARS + 1 < |bars| && BlockStart(targets, s)
      ensures Accepted(bars, targets, s)
    {
      var k :| 0 <= k < |r.trades| && TradeOf(bars, targets, r.trades[k], s);
      TradeIsRecordedExactlyWhen(cfg, r, bars, targets, r.trades[k], s);
    }
  }

  lemma TradeIsOfCompleteBlock(bars: seq<FxBar>, targets: seq<Side>, t: Trade, s: nat)
    requires |bars| == |targets| && TradeOf(bars, targets, t, s)
    ensures s + HOLDING_BARS + 1 < |bars| && BlockStart(targets, s)
  {
  }

  lemma {:induction false} BlocksAreTraded(cfg: RawConfig, bars: seq<FxBar>, targets: seq<Side>)
    requires Answered(cfg, bars, targets) && RunResult(cfg, bars, targets).value.terminatedAt.None?
    ensures forall s: nat :: s + HOLDING_BARS + 1 < |bars| && BlockStart(targets, s) ==>
              Traded(bars, targets, RunResult(cfg, bars, targets).value.trades, s)
  {
    hide StepBar, Traded;
    NothingToLiquidate(cfg, bars, targets);
    EveryBlockIsTraded(cfg, bars, targets, |bars|);
  }

  // ------------------------------------------------------------------ the bars alone

  /** No run over these bars, whatever its configuration and its complete blocks, is ever refused. */
  ghost predicate AlwaysRecorded(bars: seq<FxBar>) {
    forall cfg, targets :: Answered(cfg, bars, targets) ==> AllRecorded(cfg, bars, targets)
  }

  /** What every configuration of the stage has in common; symbol metadata and swap rates are its own. */
  predicate StageShaped(cfg: RawConfig) {
    && ValidConfig(cfg) && cfg.lots == 0.01 && cfg.initialBalance == 100.0 && cfg.terminateOnInsolvency
    && cfg.commission == NoCommission && cfg.slippage == FixedPointsSlippage(1.0)
    && cfg.swap.SideAwareSwap? && cfg.swap.tripleSwapWeekday == Some(2) && cfg.rollover == Some({0})
  }

  /** One long block at s and nothing else. */
  function OneBlock(n: nat, s: nat): (targets: seq<Side>)
    ensures |targets| == n
  {
    seq(n, i => if s <= i < s + HOLDING_BARS then Long else Flat)
  }

  lemma OneBlockIsComplete(n: nat, s: nat)
    requires s + HOLDING_BARS + 1 < n
    ensures AllComplete(OneBlock(n, s)) && BlockStart(OneBlock(n, s), s)
  {
    var targets := OneBlock(n, s);
    forall i | 0 <= i < n && BlockStart(targets, i) ensures CompleteBlock(targets, i) {
      assert i == s;
    }
  }

  // ------------------------------------------------------------------ a stage that cannot go broke

  /** A stage's configuration with so small a contract that no price move matters. */
  function Frugal(bound: real): RawConfig
    requires bound >= 0.0
  {
    RawConfig(0.01, 1.0 / (bound + 1.0), 1.0, 0.01, 0.01, 0.01, None, None, 100.0, NoCommission,
              FixedPointsSlippage(1.0), SideAwareSwap(0.0, 0.0, Some(2)), Some({0}), true)
  }

  predicate BarBounded(b: RawBar, bound: real) {
    b.open <= bound && b.close <= bound && SpreadPoints(b.spread) <= bound
  }

  predicate Bounded(bars: seq<FxBar>, bound: real) {
    bound >= 0.0 && forall i :: 0 <= i < |bars| ==> BarBounded(bars[i], bound)
  }

  lemma {:induction false} SomeBound(bars: seq<FxBar>) returns (bound: real)
    ensures Bounded(bars, bound)
  {
    if bars == [] {
      bound := 0.0;
    } else {
      var last := bars[|bars| - 1];
      var rest := SomeBound(bars[..|bars| - 1]);
      bound := rest + last.open + last.close + SpreadPoints(last.spread);
      forall i | 0 <= i < |bars| - 1 ensures BarBounded(bars[i], bound) {
        assert bars[i] == bars[..|bars| - 1][i];
      }
    }
  }

  lemma FrugalIsStage(bound: real)
    requires bound >= 0.0
    ensures StageShaped(Frugal(bound)) && Runnable(Frugal(bound))
  {
    var cfg := Frugal(bound);
    assert cfg.contractSize > 0.0;
    assert (cfg.lots - cfg.volumeMin) / cfg.volumeStep == 0.0;
  }

  /** No loss reaches one unit of money. */
  lemma SmallLoss(bound: real, move: real)
    requires bound >= 0.0 && move >= -2.0 * (bound + 1.0)
    ensures MovePnl(move, Exposure(Frugal(bound))) >= -1.0
  {
    var exposure := Exposure(Frugal(bound));
    assert exposure == 0.01 * (1.0 / (bound + 1.0));
    assert (bound + 1.0) * (1.0 / (bound + 1.0)) == 1.0;
    assert exposure > 0.0 && (bound + 1.0) * exposure == 0.01;
    MoveMono(-2.0 * (bound + 1.0), move, exposure);
    assert MovePnl(-2.0 * (bound + 1.0), exposure) == -2.0 * ((bound + 1.0) * exposure);
  }

  lemma {:induction false} NoRatesNoCharges(side: Side, lots: real, crossings: seq<int>)
    ensures Charges(SideAwareSwap(0.0, 0.0, Some(2)), side, lots, crossings) == 0.0
  {
    if crossings != [] { NoRatesNoCharges(side, lots, crossings[..|crossings| - 1]); }
  }

  predicate HeldCheaply(st: LoopState, bound: real) {
    && st.balance == 100.0 && st.position.Some? && st.position.value.side == Long
    && st.position.value.entryPrice <= 2.0 * bound + 1.0
  }

  /** Where a frugal run over one block stands after n bars. */
  predicate Afloat(st: LoopState, s: nat, n: nat, bound: real) {
    && st.status.Running? && st.accrued == 0.0
    && (n <= s + 1 ==> st.position.None? && st.balance == 100.0)
    && (s + 1 < n <= s + HOLDING_BARS + 1 ==> HeldCheaply(st, bound))
    && (s + HOLDING_BARS + 1 < n ==> st.position.None? && st.balance >= 99.0)
  }

  lemma OpensCheaply(bound: real, bar: RawBar)
    requires bound >= 0.0 && BarBounded(bar, bound)
    ensures var p := OpenPosition(Frugal(bound), Long, bar);
            p.Ok? && p.value.side == Long && p.value.entryPrice <= 2.0 * bound + 1.0
  {
    assert InPrice(SpreadPoints(bar.spread), 1.0) == SpreadPoints(bar.spread) && InPrice(1.0, 1.0) == 1.0;
    FrugalIsStage(bound);
    hide InPrice;
  }

  lemma ClosesCheaply(bound: real, p: Position, bar: RawBar, held: int)
    requires bound >= 0.0 && p.side == Long && p.entryPrice <= 2.0 * bound + 1.0 && bar.open > 0.0
    ensures var t := ClosePosition(Frugal(bound), p, bar, held, 0.0); t.Ok? && t.value.netPnl >= -1.0
  {
    var cfg := Frugal(bound);
    var t := NetIsExecution(cfg, p, bar, held, 0.0);
    assert InPrice(1.0, 1.0) == 1.0;
    hide InPrice, MovePnl, Exposure;
    SmallLoss(bound, ComputeFill(cfg, Long, false, bar).price - p.entryPrice);
  }

  lemma MarksCheaply(bound: real, p: Position, bar: RawBar)
    requires bound >= 0.0 && p.side == Long && p.entryPrice <= 2.0 * bound + 1.0 && bar.close > 0.0
    ensures var u := UnrealizedPnl(Frugal(bound), p, bar); u.Ok? && u.value >= -1.0
  {
    SmallLoss(bound, bar.close - p.entryPrice);
    hide InPrice, MovePnl, Exposure;
  }

  lemma AfloatAccrues(bars: seq<FxBar>, s: nat, i: nat, st: LoopState, bound: real)
    requires Bounded(bars, bound) && Chronological(bars) && 0 < i < |bars| && Afloat(st, s, i, bound)
    ensures Accrue(Frugal(bound), bars, i, st) == st
  {
    if st.position.Some? {
      NoRatesNoCharges(Long, 0.01, Crossings({0}, bars[i - 1].time, bars[i].time));
    }
  }

  lemma AfloatRebalances(bars: seq<FxBar>, s: nat, i: nat, st: LoopState, bound: real)
    requires Bounded(bars, bound) && i < |bars| && s + HOLDING_BARS + 1 < |bars| && Afloat(st, s, i, bound)
    ensures Afloat(Rebalance(Frugal(bound), bars[i], TargetAt(OneBlock(|bars|, s), i), i, st), s, i + 1, bound)
  {
    assert BarBounded(bars[i], bound);
    OpensCheaply(bound, bars[i]);
    if st.position.Some? { ClosesCheaply(bound, st.position.value, bars[i], i - st.openIndex); }
    hide OpenPosition, ClosePosition, Frugal, BarBounded;
    assert Frugal(bound).terminateOnInsolvency by { FrugalIsStage(bound); }
  }

  lemma AfloatMarks(bar: FxBar, target: Side, s: nat, n: nat, st: LoopState, bound: real)
    requires bound >= 0.0 && Afloat(st, s, n, bound)
    ensures Afloat(Mark(Frugal(bound), bar, target, st), s, n, bound)
  {
    if st.position.Some? { MarksCheaply(bound, st.position.value, bar); }
    hide UnrealizedPnl;
  }

  lemma {:induction false} StaysAfloat(bars: seq<FxBar>, s: nat, n: nat, bound: real)
    requires Bounded(bars, bound) && Chronological(bars) && s + HOLDING_BARS + 1 < |bars| && n <= |bars|
    ensures Afloat(AfterBars(Frugal(bound), bars, OneBlock(|bars|, s), n), s, n, bound)
  {
    hide StepBar;
    if n > 0 {
      StaysAfloat(bars, s, n - 1, bound);
      AfloatStep(bars, s, n - 1, AfterBars(Frugal(bound), bars, OneBlock(|bars|, s), n - 1), bound);
    }
  }

  lemma AfloatStep(bars: seq<FxBar>, s: nat, i: nat, st: LoopState, bound: real)
    requires Bounded(bars, bound) && Chronological(bars) && s + HOLDING_BARS + 1 < |bars| && i < |bars|
    requires Afloat(st, s, i, bound)
    ensures Afloat(StepBar(Frugal(bound), bars, TargetAt(OneBlock(|bars|, s), i), i, st), s, i + 1, bound)
  {
    if i > 0 { AfloatAccrues(bars, s, i, st, bound); }
    hide Rebalance, Mark, Accrue, Frugal, TargetAt;
    var target := TargetAt(OneBlock(|bars|, s), i);
    AfloatRebalances(bars, s, i, st, bound);
    AfloatMarks(bars[i], target, s, i + 1, Rebalance(Frugal(bound), bars[i], target, i, st), bound);
  }

  /** A stage's run over one block, whatever the bars: it is not stopped, and trades the block. */
  lemma {:induction false} OneBlockIsTraded(bars: seq<FxBar>, s: nat, bound: real)
    requires Bounded(bars, bound) && Chronological(bars) && s + HOLDING_BARS + 1 < |bars|
    ensures Answered(Frugal(bound), bars, OneBlock(|bars|, s))
    ensures RunResult(Frugal(bound), bars, OneBlock(|bars|, s)).value.terminatedAt.None?
  {
    var cfg, targets := Frugal(bound), OneBlock(|bars|, s);
    OneBlockIsComplete(|bars|, s);
    StaysAfloat(bars, s, |bars|, bound);
    CurveGrows(cfg, bars, targets, |bars|);
    NothingToLiquidate(cfg, bars, targets);
    hide StepBar, AllComplete;
  }

  /** Where no time passes while a position is held, a stage can be refused. */
  lemma {:induction false} FrozenTradeIsRefused(bars: seq<FxBar>, s: nat) returns (cfg: RawConfig)
    requires Chronological(bars) && s + HOLDING_BARS + 1 < |bars| && !MovesOn(bars, s)
    ensures StageShaped(cfg) && Answered(cfg, bars, OneBlock(|bars|, s))
    ensures !AllRecorded(cfg, bars, OneBlock(|bars|, s))
  {
    var bound := SomeBound(bars);
    cfg := Frugal(bound);
    FrugalIsStage(bound);
    OneBlockIsTraded(bars, s, bound);
    RunIsRecordedExactlyWhen(cfg, bars, OneBlock(|bars|, s));
    EntryWithinHolding(bars, s);
    OneBlockIsComplete(|bars|, s);
    hide RunResult, Frugal, EntryIndex, AllComplete;
    assert !Accepted(bars, OneBlock(|bars|, s), s);
  }

  /** The exact condition on the bars. For chronological bars, no run of whatever configuration and
      complete blocks is ever refused a record if and only if time passes during every holding period;
      and where it does not, already a configuration of the stage is refused one. */
  lemma {:induction false} NeverRefusedExactlyWhen(bars: seq<FxBar>)
    requires Chronological(bars) && |bars| >= 2
    ensures ClockMoves(bars) <==> AlwaysRecorded(bars)
    ensures !ClockMoves(bars) ==>
              exists cfg, targets ::
                StageShaped(cfg) && Answered(cfg, bars, targets) && !AllRecorded(cfg, bars, targets)
  {
    if ClockMoves(bars) {
      forall cfg, targets | Answered(cfg, bars, targets) ensures AllRecorded(cfg, bars, targets) {
        EveryTradeHasRecord(cfg, bars, targets);
      }
    } else {
      var s: nat :| s < |bars| && !MovesOn(bars, s);
      var cfg := FrozenTradeIsRefused(bars, s);
    }
  }

  // ------------------------------------------------------------------ accepted for other bars

  /** An accepted record names the trade's own entry bar if and only if the next bar is later, and its
      own exit bar if and only if the next bar, if there is one, is later. */
  lemma RecordNamesItsBarsExactlyWhen(bars: seq<FxBar>, s: nat)
    requires Chronological(bars) && s + HOLDING_BARS + 1 < |bars|
    ensures EntryIndex(bars, s) == s + 1 <==> bars[s + 1].time < bars[s + 2].time
    ensures var exit := s + HOLDING_BARS + 1;
            ExitIndex(bars, s) == exit <==> exit + 1 == |bars| || bars[exit].time < bars[exit + 1].time
  {
    IndexIsLast(bars, |bars|, s + 1);
    IndexIsLast(bars, |bars|, s + HOLDING_BARS + 1);
    hide IndexOf;
    assert bars[s + 2].time <= bars[EntryIndex(bars, s)].time || EntryIndex(bars, s) == s + 1;
    var exit := s + HOLDING_BARS + 1;
    assert exit + 1 < |bars| ==> bars[exit + 1].time <= bars[ExitIndex(bars, s)].time || ExitIndex(bars, s) == exit;
  }

  /** The check can pass silently on the wrong bar: if only the bar after the entry shares its time, the
      record is accepted with that bar's open as the entry reference and the entry bar as the signal. */
  lemma WrongBarIsAccepted(r: FxResult, bars: seq<FxBar>, targets: seq<Side>, t: Trade, s: nat)
    requires Chronological(bars) && |bars| == |targets| && AllComplete(targets)
    requires TradeOf(bars, targets, t, s) && AccountingIdentity(t)
    requires bars[s + 1].time == bars[s + 2].time < bars[s + 3].time
    ensures var record := RecordOf(r, bars, targets, t);
            record.Ok? && record.value.entryReference == bars[s + 2].open && record.value.signalTime == bars[s + 1].time
  {
    assert CompleteBlock(targets, s);
    BlockIsRecordedExactlyWhen(r, bars, targets, t, s);
    IndexIsLast(bars, |bars|, s + 1);
    hide IndexOf, RecordOf;
    assert forall k :: s + 3 <= k < |bars| ==> bars[s + 3].time <= bars[k].time;
  }

  // ------------------------------------------------------------------ and with the strategy's own targets

  /** One bar of a day, and eight of the next that all carry the same time; the first of these breaks out. */
  const TWINS: seq<FxBar> := [CalmBar(0), BreakBar(), CalmBar(DAY), CalmBar(DAY), CalmBar(DAY), CalmBar(DAY),
                              CalmBar(DAY), CalmBar(DAY), CalmBar(DAY)]

  function CalmBar(time: int): FxBar {
    RawBar(time, 2.0, 3.0, 1.0, 2.0, None)
  }

  function BreakBar(): FxBar {
    RawBar(DAY, 1.0, 1.0, 0.5, 0.5, None)
  }

  lemma TwinDays(i: nat)
    requires i < |TWINS|
    ensures Day(TWINS[i]) == if i == 0 then 0 else 1
    ensures TWINS[i] == if i == 0 then CalmBar(0) else if i == 1 then BreakBar() else CalmBar(DAY)
  {
  }

  /** Only bar 1 breaks out of the range of the day before. */
  lemma TwinsBreak(i: nat)
    requires i < |TWINS|
    ensures Beyond(TWINS, Long, i) <==> i == 1
    ensures i == 2 ==> Inside(TWINS, i)
  {
    forall k: nat | k < |TWINS| ensures OnPriorDay(TWINS, k, i) <==> i > 0 && k == 0 {
      TwinDays(i);
      TwinDays(k);
    }
    TwinDays(i);
    TwinDays(0);
    assert i > 0 ==> OnPriorDay(TWINS, 0, i);
  }

  lemma TwinsStart(i: nat)
    requires i < |TWINS|
    ensures Starts(TWINS, Long, i) <==> i == 2
  {
    TwinsBreak(i);
    TwinDays(i);
    if i > 0 {
      TwinsBreak(i - 1);
      TwinDays(i - 1);
    }
    hide Beyond, Inside;
    assert Starts(TWINS, Long, i) ==> i > 0 && Confirms(TWINS, Long, i);
    assert i > 0 && Confirms(TWINS, Long, i) ==> Armed(TWINS, Long, i - 1);
    assert i > 0 && Armed(TWINS, Long, i - 1) ==> Beyond(TWINS, Long, i - 1);
    if i == 2 { TwinsArm(); }
  }

  lemma TwinsArm()
    ensures Confirms(TWINS, Long, 2)
  {
    TwinDays(0);
    TwinDays(1);
    TwinDays(2);
    TwinsBreak(1);
    hide Beyond;
    assert !Confirms(TWINS, Long, 1) && !Starts(TWINS, Long, 0);
    assert Armed(TWINS, Long, 1);
  }

  lemma TwinTarget(i: nat)
    requires i < |TWINS|
    ensures Target(TWINS, Long, i) == OneBlock(|TWINS|, 2)[i]
  {
    TwinsStart(i);
    if i >= 1 { TwinsStart(i - 1); }
    if i >= 2 { TwinsStart(i - 2); }
    if i >= 3 { TwinsStart(i - 3); }
    hide Starts;
  }

  function Cleaned(targets: seq<Side>): (output: seq<Side>)
    ensures IsCleaned(targets, output)
  {
    seq(|targets|, j requires 0 <= j < |targets| => if Masked(targets, j) then Flat else targets[j])
  }

  lemma TwinBlock(targets: seq<Side>)
    requires IsCleaned(Targets(TWINS, Long), targets)
    ensures Chronological(TWINS) && targets == OneBlock(|TWINS|, 2)
  {
    var raw := Targets(TWINS, Long);
    StreamingIsDefinition(TWINS, Long);
    hide Targets, Target;
    forall i | 0 <= i < |TWINS| ensures raw[i] == OneBlock(|TWINS|, 2)[i] { TwinTarget(i); }
    assert raw == OneBlock(|TWINS|, 2);
    forall i | 0 <= i < |raw| ensures !TailStart(raw, i) { assert BlockStart(raw, i) ==> i == 2; }
  }

  /** The strategy itself can meet such bars: its one event here is traded, and refused its record, under
      a configuration of the stage. */
  lemma {:induction false} EqualTimesAreRefused()
    ensures Chronological(TWINS) && |TWINS| >= 2
    ensures var targets := Cleaned(Targets(TWINS, Long));
            exists cfg :: StageShaped(cfg) && Answered(cfg, TWINS, targets) && !AllRecorded(cfg, TWINS, targets)
  {
    var targets := Cleaned(Targets(TWINS, Long));
    TwinBlock(targets);
    TwinDays(3);
    TwinDays(7);
    hide StageShaped, Answered, AllRecorded, Targets;
    var cfg := FrozenTradeIsRefused(TWINS, 2);
  }
}
