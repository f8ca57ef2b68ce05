/** What a run's trades and its equity curve are, said from the inputs alone: one trade for each block of
    the shifted signals, and at each bar the account's worth if its position were closed there. */
module FxEquity {
  import opened Common
  import opened FxCosts
  import opened FxEngine
  import opened FxAccounting
  import opened FxRuns
  import opened Segments

  /** The causal shift as a list: bar 0 is flat, every other bar wants the signal before it. */
  function Targets(signals: seq<Side>): seq<Side>
    requires |signals| > 0
  {
    [Flat] + signals[..|signals| - 1]
  }

  // ------------------------------------------------------------------ trades are blocks

  /** t holds the target of the block s from its first bar's open to the open of the bar after it. */
  predicate TradeOf(cfg: RawConfig, bars: seq<FxBar>, targets: seq<Side>, t: Trade, s: Segment) {
    s.until < |bars| == |targets| && s.from <= s.until && t.side == targets[s.from] &&
    RoundTrip(cfg, bars, t, s.from, s.until)
  }

  /** One trade for each block, in order. */
  ghost predicate TradesOf(cfg: RawConfig, bars: seq<FxBar>, targets: seq<Side>, trades: seq<Trade>,
                           segs: seq<Segment>) {
    |trades| == |segs| && forall k :: 0 <= k < |trades| ==> TradeOf(cfg, bars, targets, trades[k], segs[k])
  }

  /** The position is the one the target of bar n-1 asks for, opened where its block began. */
  ghost predicate HoldsTarget(targets: seq<Side>, st: LoopState, n: nat)
    requires n <= |targets|
  {
    if n == 0 then st.position.None?
    else Held(st) == targets[n - 1] && (st.position.Some? ==> st.openIndex == StartOf(targets, n))
  }

  ghost predicate Follows(cfg: RawConfig, bars: seq<FxBar>, targets: seq<Side>, st: LoopState, n: nat)
    requires n <= |bars| == |targets|
  {
    st.status.Failed? ||
    (&& |st.curve| <= n && TradesOf(cfg, bars, targets, st.trades, Segs(targets, Flat, |st.curve|))
     && (st.status.Running? ==> |st.curve| == n && HoldsTarget(targets, st, n)))
  }

  lemma {:induction false} OneMoreTradeOf(
    cfg: RawConfig, bars: seq<FxBar>, targets: seq<Side>, trades: seq<Trade>, segs: seq<Segment>, t: Trade, g: Segment)
    requires TradesOf(cfg, bars, targets, trades, segs) && TradeOf(cfg, bars, targets, t, g)
    ensures TradesOf(cfg, bars, targets, trades + [t], segs + [g])
  {
    hide TradeOf;
  }

  /** Closing the position a block holds makes that block's trade. */
  lemma {:induction false} ClosedIsTradeOf(
    cfg: RawConfig, bars: seq<FxBar>, targets: seq<Side>, st: LoopState, start: nat, n: nat, i: nat)
    requires start < n <= |bars| == |targets| && start <= i < |bars| && st.position.Some? && st.openIndex == start
    requires PositionOk(cfg, bars, st, n, bars[i].time) && targets[start] == st.position.value.side
    ensures var closed := ClosePosition(cfg, st.position.value, bars[i], i - st.openIndex, st.accrued);
            closed.Ok? ==> TradeOf(cfg, bars, targets, closed.value, Segment(start, i))
  {
    ClosedSide(cfg, st.position.value, bars[i], i - st.openIndex, st.accrued);
    hide ClosePosition, OpenPosition, SwapOver;
  }

  /** What closing leaves behind, if it succeeds. */
  lemma {:induction false} HeldIsClosed(cfg: RawConfig, bar: FxBar, i: nat, st: LoopState)
    requires st.status.Running?
    ensures var st' := CloseHeld(cfg, bar, i, st);
            st'.status.Failed? ||
            (&& st'.position.None?
             && (st.position.Some? ==>
                   var closed := ClosePosition(cfg, st.position.value, bar, i - st.openIndex, st.accrued);
                   closed.Ok? && st'.trades == st.trades + [closed.value])
             && (st.position.None? ==> st'.trades == st.trades)
             && (st'.status.Running? ==> st'.curve == st.curve)
             && (st'.status.Stopped? ==> st'.curve == st.curve + [EquityPoint(bar.time, st'.balance, Flat)]))
  {
    hide ClosePosition;
  }

  lemma {:induction false} CloseFollows(cfg: RawConfig, bars: seq<FxBar>, targets: seq<Side>, i: nat, st: LoopState)
    requires 0 < i < |bars| == |targets| && st.status.Running? && PositionOk(cfg, bars, st, i, bars[i].time)
    requires TradesOf(cfg, bars, targets, st.trades, Segs(targets, Flat, i)) && HoldsTarget(targets, st, i)
    requires Held(st) != targets[i]
    ensures var st' := CloseHeld(cfg, bars[i], i, st);
            st'.status.Failed? ||
            (&& TradesOf(cfg, bars, targets, st'.trades, Segs(targets, Flat, i + 1)) && st'.position.None?
             && (st'.status.Running? ==> st'.curve == st.curve)
             && (st'.status.Stopped? ==> st'.curve == st.curve + [EquityPoint(bars[i].time, st'.balance, Flat)]))
  {
    HeldIsClosed(cfg, bars[i], i, st);
    hide CloseHeld;
    if st.position.Some? {
      StartOfIsStart(targets, i);
      ClosedIsTradeOf(cfg, bars, targets, st, StartOf(targets, i), i, i);
      hide ClosePosition, PositionOk, TradeOf, TradesOf;
      var closed := ClosePosition(cfg, st.position.value, bars[i], i - st.openIndex, st.accrued);
      if closed.Ok? {
        OneMoreTradeOf(cfg, bars, targets, st.trades, Segs(targets, Flat, i), closed.value,
                       Segment(StartOf(targets, i), i));
      }
    }
  }

  lemma {:induction false} RebalanceFollows(cfg: RawConfig, bars: seq<FxBar>, targets: seq<Side>, i: nat, st: LoopState)
    requires i < |bars| == |targets| && st.status.Running? && |st.curve| == i && targets[0] == Flat
    requires i > 0 ==> PositionOk(cfg, bars, st, i, bars[i].time)
    requires TradesOf(cfg, bars, targets, st.trades, Segs(targets, Flat, i)) && HoldsTarget(targets, st, i)
    ensures var st' := Rebalance(cfg, bars[i], targets[i], i, st);
            st'.status.Failed? ||
            (&& TradesOf(cfg, bars, targets, st'.trades, Segs(targets, Flat, i + 1))
             && (st'.status.Running? ==> st'.curve == st.curve && HoldsTarget(targets, st', i + 1))
             && (st'.status.Stopped? ==> |st'.curve| == i + 1))
  {
    hide CloseHeld, TradesOf;
    if Held(st) != targets[i] {
      CloseFollows(cfg, bars, targets, i, st);
    }
  }

  lemma {:induction false} MarkedSide(cfg: RawConfig, bar: FxBar, target: Side, st: LoopState)
    ensures var st' := Mark(cfg, bar, target, st);
            st'.status.Failed? || (|st'.curve| == |st.curve| + 1 &&
                                   st'.curve[|st.curve|].side == if st.position.Some? then st.position.value.side
                                     else target)
  {
  }

  lemma {:induction false} StoppedWorth(cfg: RawConfig, bars: seq<FxBar>, st: LoopState, i: nat)
    requires i < |bars| && |st.curve| == i + 1 && st.curve[i].equity == st.balance && st.position.None?
    requires BooksBalance(cfg, st)
    ensures Worth(cfg, bars, st, i, st.curve[i].equity)
  {
  }

  lemma {:induction false} MarkOnCurve(cfg: RawConfig, bar: FxBar, target: Side, st: LoopState)
    ensures var st' := Mark(cfg, bar, target, st);
            && st' == st.(curve := st'.curve, status := st'.status)
            && (st'.status.Failed? || |st'.curve| == |st.curve| + 1)
  {
  }

  lemma {:induction false} StepFollows(cfg: RawConfig, bars: seq<FxBar>, targets: seq<Side>, i: nat, st: LoopState)
    requires i < |bars| == |targets| && targets[0] == Flat
    requires Accounted(cfg, bars, st, i) && Follows(cfg, bars, targets, st, i)
    ensures Follows(cfg, bars, targets, StepBar(cfg, bars, targets[i], i, st), i + 1)
  {
    if st.status.Running? {
      if i > 0 { AccrueKeeps(cfg, bars, i, st); }
      hide TradesOf, PositionOk, Rebalance, Mark;
      var accrued := if i == 0 then st else Accrue(cfg, bars, i, st);
      if accrued.status.Running? {
        RebalanceFollows(cfg, bars, targets, i, accrued);
        MarkOnCurve(cfg, bars[i], targets[i], Rebalance(cfg, bars[i], targets[i], i, accrued));
      }
    }
  }

  lemma {:induction false} RunFollows(cfg: RawConfig, bars: seq<FxBar>, signals: seq<Side>, n: nat)
    requires n <= |bars| == |signals| && |signals| > 0
    ensures Follows(cfg, bars, Targets(signals), AfterBars(cfg, bars, signals, n), n)
  {
    hide StepBar, Follows, Accounted;
    if n > 0 {
      RunFollows(cfg, bars, signals, n - 1);
      RunAccounted(cfg, bars, signals, n - 1);
      StepFollows(cfg, bars, Targets(signals), n - 1, AfterBars(cfg, bars, signals, n - 1));
    } else {
      StartFollows(cfg, bars, Targets(signals));
    }
  }

  lemma {:induction false} StartFollows(cfg: RawConfig, bars: seq<FxBar>, targets: seq<Side>)
    requires |bars| == |targets|
    ensures Follows(cfg, bars, targets, Start(cfg), 0)
  {
  }

  /** The block still open at the last bar: liquidation closes it at that bar's open. */
  ghost function LastBlock(targets: seq<Side>): seq<Segment>
    requires |targets| > 0
  {
    var n := |targets|;
    if targets[n - 1] == Flat then [] else [Segment(StartOf(targets, n), n - 1)]
  }

  lemma {:induction false} LiquidationFollows(cfg: RawConfig, bars: seq<FxBar>, targets: seq<Side>, st: LoopState)
    requires 0 < |st.curve| == |bars| == |targets| && st.status.Running?
    requires PositionOk(cfg, bars, st, |bars|, bars[|bars| - 1].time) && HoldsTarget(targets, st, |bars|)
    requires TradesOf(cfg, bars, targets, st.trades, Segs(targets, Flat, |bars|))
    ensures var end := Liquidated(cfg, bars, st);
            end.status.Failed? ||
            (end.status.Running? && |end.curve| == |bars| &&
             TradesOf(cfg, bars, targets, end.trades, Segs(targets, Flat, |bars|) + LastBlock(targets)))
  {
    var n, last := |bars|, |bars| - 1;
    if st.position.Some? {
      StartOfIsStart(targets, n);
      ClosedIsTradeOf(cfg, bars, targets, st, StartOf(targets, n), n, last);
      hide ClosePosition, PositionOk, TradeOf, TradesOf;
      var closed := ClosePosition(cfg, st.position.value, bars[last], last - st.openIndex, st.accrued);
      if closed.Ok? {
        OneMoreTradeOf(cfg, bars, targets, st.trades, Segs(targets, Flat, n), closed.value,
                       Segment(StartOf(targets, n), last));
      }
    } else {
      assert Segs(targets, Flat, n) + LastBlock(targets) == Segs(targets, Flat, n);
    }
  }

  /** A run trades what the shifted signals say and nothing else: one trade for each block that ended
      while it ran, in order, and, if it was not terminated, one for the block at the end of the data. */
  lemma {:induction false} TradesAreBlocks(cfg: RawConfig, bars: seq<FxBar>, signals: seq<Side>)
    requires RunResult(cfg, bars, signals).Ok?
    ensures var r, targets := RunResult(cfg, bars, signals).value, Targets(signals);
            && 0 < |r.curve| <= |bars| && (r.terminatedAt.None? ==> |r.curve| == |bars|)
            && TradesOf(cfg, bars, targets, r.trades,
                        Segs(targets, Flat, |r.curve|) + if r.terminatedAt.None? then LastBlock(targets) else [])
  {
    var n, targets := |bars|, Targets(signals);
    var st := AfterBars(cfg, bars, signals, n);
    RunFollows(cfg, bars, signals, n);
    RunAccounted(cfg, bars, signals, n);
    CurveGrows(cfg, bars, signals, n);
    hide StepBar, TradesOf, Accounted;
    if st.status.Running? {
      PositionAccounted(cfg, bars, st);
      LiquidationFollows(cfg, bars, targets, st);
    } else {
      assert Segs(targets, Flat, |st.curve|) + [] == Segs(targets, Flat, |st.curve|);
    }
  }

  lemma {:induction false} PositionAccounted(cfg: RawConfig, bars: seq<FxBar>, st: LoopState)
    requires |bars| > 0 && st.status.Running? && Accounted(cfg, bars, st, |bars|)
    ensures PositionOk(cfg, bars, st, |bars|, bars[|bars| - 1].time)
  {
  }

  // ------------------------------------------------------------------ the curve

  /** What closing the position opened at bar i at the close of bar k would book, with the financing of the
      whole time between, before the exit slippage and the commissions. */
  function OpenWorth(cfg: RawConfig, bars: seq<FxBar>, p: Position, i: nat, k: nat): real
    requires i < |bars| && k < |bars| && SameCurrency(cfg)
  {
    ClosePosition(cfg, p, bars[k].(open := bars[k].close), k - i,
                  SwapOver(cfg, p.side, bars[i].time, bars[k].time)).value.netPnl
    + MovePnl(InPrice(SlippagePoints(cfg.slippage), cfg.point), Exposure(cfg))
    + CostForSide(cfg.commission, cfg.lots) + CostForSide(cfg.commission, cfg.lots)
  }

  /** The last point is the account's worth at that bar: the initial balance, what the trades made, and what the
      open position is worth. */
  predicate Worth(cfg: RawConfig, bars: seq<FxBar>, st: LoopState, k: nat, equity: real)
    requires k < |bars|
  {
    match st.position
    case None => equity == cfg.initialBalance + SumNet(st.trades)
    case Some(p) =>
      && SameCurrency(cfg) && st.openIndex <= k && OpenedAt(cfg, bars, p, st.openIndex)
      && equity == cfg.initialBalance + SumNet(st.trades) + OpenWorth(cfg, bars, p, st.openIndex, k)
  }

  lemma {:induction false} MarkIsWorth(cfg: RawConfig, bars: seq<FxBar>, target: Side, i: nat, st: LoopState)
    requires i < |bars| && st.status.Running? && |st.curve| == i && BooksBalance(cfg, st)
    requires PositionOk(cfg, bars, st, i + 1, bars[i].time)
    ensures var st' := Mark(cfg, bars[i], target, st);
            st'.status.Failed? || Worth(cfg, bars, st', i, st'.curve[i].equity)
  {
    if st.position.Some? {
      MarkedEquity(cfg, bars[i], target, st);
      if SameCurrency(cfg) {
        MarkIsLiquidationValue(cfg, st.position.value, bars[i], i - st.openIndex, st.accrued);
      }
    }
    hide ClosePosition, OpenPosition, UnrealizedPnl, SwapOver, MovePnl;
  }

  lemma {:induction false} MarkedEquity(cfg: RawConfig, bar: FxBar, target: Side, st: LoopState)
    requires st.position.Some?
    ensures var st' := Mark(cfg, bar, target, st);
            st'.status.Failed? ||
            (&& SameCurrency(cfg) && |st'.curve| == |st.curve| + 1
             && st'.curve[|st.curve|].side == st.position.value.side
             && var pnl := UnrealizedPnl(cfg, st.position.value, bar).value;
                st'.curve[|st.curve|].equity == st.balance + pnl - st.accrued)
  {
  }

  /** What the last point of a bar says, whether the run goes on or was stopped by it. */
  ghost predicate PointOk(cfg: RawConfig, bars: seq<FxBar>, targets: seq<Side>, st: LoopState, i: nat)
    requires i < |bars| == |targets|
  {
    && |st.curve| == i + 1 && Worth(cfg, bars, st, i, st.curve[i].equity)
    && st.curve[i].time == bars[i].time
    && (st.status.Running? ==> st.curve[i].side == targets[i])
    && (st.status.Running? || st.position.Some? ==> HoldsTarget(targets, st, i + 1))
  }

  lemma {:induction false} RebalancedWorth(cfg: RawConfig, bars: seq<FxBar>, targets: seq<Side>, i: nat, st: LoopState)
    requires i < |bars| == |targets| && st.status.Running? && |st.curve| == i && targets[0] == Flat
    requires PositionOk(cfg, bars, st, i, bars[i].time) && BooksBalance(cfg, st)
    requires TradesFromBars(cfg, bars, st.trades, i)
    requires TradesOf(cfg, bars, targets, st.trades, Segs(targets, Flat, i)) && HoldsTarget(targets, st, i)
    ensures var balanced := Rebalance(cfg, bars[i], targets[i], i, st);
            var st' := if balanced.status.Running? then Mark(cfg, bars[i], targets[i], balanced) else balanced;
            st'.status.Failed? || PointOk(cfg, bars, targets, st', i)
  {
    RebalanceFollows(cfg, bars, targets, i, st);
    RebalanceKeeps(cfg, bars, targets[i], i, st);
    RebalanceOnCurve(cfg, bars[i], targets[i], i, st);
    hide TradesOf, PositionOk, Rebalance, Mark, Worth, TradesFromBars;
    var balanced := Rebalance(cfg, bars[i], targets[i], i, st);
    if balanced.status.Running? {
      MarkIsWorth(cfg, bars, targets[i], i, balanced);
      MarkedSide(cfg, bars[i], targets[i], balanced);
    } else if balanced.status.Stopped? {
      StoppedWorth(cfg, bars, balanced, i);
    }
  }

  lemma {:induction false} StepWorth(cfg: RawConfig, bars: seq<FxBar>, targets: seq<Side>, i: nat, st: LoopState)
    requires i < |bars| == |targets| && targets[0] == Flat && st.status.Running?
    requires Accounted(cfg, bars, st, i) && Follows(cfg, bars, targets, st, i)
    ensures var st' := StepBar(cfg, bars, targets[i], i, st);
            st'.status.Failed? || PointOk(cfg, bars, targets, st', i)
  {
    if i > 0 { AccrueKeeps(cfg, bars, i, st); }
    var accrued := if i == 0 then st else Accrue(cfg, bars, i, st);
    hide TradesOf, Rebalance, Mark, TradesFromBars, AccrueSwap, PointOk;
    if accrued.status.Running? {
      RebalancedWorth(cfg, bars, targets, i, accrued);
    }
  }

  /** What the account is worth at bar k, from the inputs and the trades booked by then: while the target is
      flat, the balance; else the balance and the position opened where the block began, closed here. */
  ghost predicate WorthAt(cfg: RawConfig, bars: seq<FxBar>, targets: seq<Side>, trades: seq<Trade>, k: nat,
                          equity: real)
    requires k < |bars| == |targets|
  {
    var closed := |Segs(targets, Flat, k + 1)|;
    && closed <= |trades|
    && (targets[k] == Flat ==> equity == cfg.initialBalance + SumNet(trades[..closed]))
    && (targets[k] != Flat ==>
          var i := StartOf(targets, k + 1);
          var position := OpenPosition(cfg, targets[k], bars[i]);
          position.Ok? && SameCurrency(cfg) &&
          equity == cfg.initialBalance + SumNet(trades[..closed]) + OpenWorth(cfg, bars, position.value, i, k))
  }

  lemma {:induction false} WorthFromInputs(
    cfg: RawConfig, bars: seq<FxBar>, targets: seq<Side>, st: LoopState, trades: seq<Trade>, k: nat)
    requires k < |bars| == |targets| && PointOk(cfg, bars, targets, st, k) && HoldsTarget(targets, st, k + 1)
    requires TradesOf(cfg, bars, targets, st.trades, Segs(targets, Flat, k + 1)) && st.trades <= trades
    ensures WorthAt(cfg, bars, targets, trades, k, st.curve[k].equity)
  {
    hide OpenWorth, OpenPosition;
    assert trades[..|st.trades|] == st.trades;
  }

  /** What the state after the last bar has to do with the result. */
  lemma {:induction false} ResultOfRun(cfg: RawConfig, bars: seq<FxBar>, signals: seq<Side>)
    requires RunResult(cfg, bars, signals).Ok?
    ensures var st, r := AfterBars(cfg, bars, signals, |bars|), RunResult(cfg, bars, signals).value;
            && !st.status.Failed? && |r.curve| == |st.curve| && (r.terminatedAt.Some? <==> st.status.Stopped?)
            && (st.status.Stopped? ==> r.trades == st.trades && r.position == st.position && r.curve == st.curve)
  {
    hide StepBar, ClosePosition;
    CurveGrows(cfg, bars, signals, |bars|);
    LiquidationOnCurve(cfg, bars, AfterBars(cfg, bars, signals, |bars|));
  }

  /** The engine runs on until its last point. */
  lemma {:induction false} PointOfRun(cfg: RawConfig, bars: seq<FxBar>, signals: seq<Side>, k: nat)
    requires k < |bars| == |signals| && AfterBars(cfg, bars, signals, k).status.Running?
    ensures var st := AfterBars(cfg, bars, signals, k + 1);
            st.status.Failed? || PointOk(cfg, bars, Targets(signals), st, k)
  {
    hide PointOk, StepBar, Accounted, Follows;
    RunFollows(cfg, bars, signals, k);
    RunAccounted(cfg, bars, signals, k);
    StepWorth(cfg, bars, Targets(signals), k, AfterBars(cfg, bars, signals, k));
  }

  lemma {:induction false} RunsBefore(cfg: RawConfig, bars: seq<FxBar>, signals: seq<Side>, n: nat)
    requires RunResult(cfg, bars, signals).Ok? && n < |RunResult(cfg, bars, signals).value.curve|
    ensures n < |bars| == |signals| && AfterBars(cfg, bars, signals, n).status.Running?
  {
    hide StepBar;
    ResultOfRun(cfg, bars, signals);
    CurveGrows(cfg, bars, signals, |bars|);
    if !AfterBars(cfg, bars, signals, n).status.Running? {
      Sticky(cfg, bars, signals, n, |bars|);
      CurveGrows(cfg, bars, signals, n);
    }
  }

  lemma {:induction false} InnerPoint(cfg: RawConfig, bars: seq<FxBar>, signals: seq<Side>, k: nat)
    requires RunResult(cfg, bars, signals).Ok? && k + 1 < |RunResult(cfg, bars, signals).value.curve|
    ensures var r, targets := RunResult(cfg, bars, signals).value, Targets(signals);
            && k < |bars| == |targets| && r.curve[k].time == bars[k].time && r.curve[k].side == targets[k]
            && WorthAt(cfg, bars, targets, r.trades, k, r.curve[k].equity)
  {
    hide WorthAt, TradesOf, StepBar;
    RunsBefore(cfg, bars, signals, k);
    RunsBefore(cfg, bars, signals, k + 1);
    var r, targets := RunResult(cfg, bars, signals).value, Targets(signals);
    RecordedIsReturned(cfg, bars, signals, k + 1);
    RunFollows(cfg, bars, signals, k + 1);
    PointOfRun(cfg, bars, signals, k);
    WorthFromInputs(cfg, bars, targets, AfterBars(cfg, bars, signals, k + 1), r.trades, k);
  }

  /** The checks of the swap accrual: a position was never carried backwards in time, nor, without a rollover
      schedule but with a swap model, over midnight. */
  lemma {:induction false} CarriedInOrder(cfg: RawConfig, bars: seq<FxBar>, signals: seq<Side>, k: nat)
    requires RunResult(cfg, bars, signals).Ok? && 0 < k < |RunResult(cfg, bars, signals).value.curve|
    requires |bars| == |signals| > k && Targets(signals)[k - 1] != Flat
    ensures cfg.rollover.Some? ==> bars[k - 1].time <= bars[k].time
    ensures cfg.rollover.None? && !cfg.swap.NoSwap? ==> bars[k].time / DAY == bars[k - 1].time / DAY
  {
    hide Rebalance, Mark, TradesOf, Finish;
    RunsBefore(cfg, bars, signals, k);
    RunFollows(cfg, bars, signals, k);
    NeverFailed(cfg, bars, signals, k + 1);
  }

  lemma {:induction false} NeverFailed(cfg: RawConfig, bars: seq<FxBar>, signals: seq<Side>, n: nat)
    requires RunResult(cfg, bars, signals).Ok? && |bars| == |signals| && n <= |bars|
    ensures !AfterBars(cfg, bars, signals, n).status.Failed?
  {
    hide StepBar;
    ResultOfRun(cfg, bars, signals);
    if AfterBars(cfg, bars, signals, n).status.Failed? { Sticky(cfg, bars, signals, n, |bars|); }
  }

  lemma {:induction false} LastOfStopped(cfg: RawConfig, bars: seq<FxBar>, signals: seq<Side>)
    requires RunResult(cfg, bars, signals).Ok? && RunResult(cfg, bars, signals).value.terminatedAt.Some?
    ensures var r, targets := RunResult(cfg, bars, signals).value, Targets(signals);
            var k := |r.curve| - 1;
            && 0 <= k < |bars| == |targets|
            && (r.position.None? ==> r.curve[k].equity == cfg.initialBalance + SumNet(r.trades))
            && (r.position.Some? ==>
                  && WorthAt(cfg, bars, targets, r.trades, k, r.curve[k].equity)
                  && OpenPosition(cfg, targets[k], bars[StartOf(targets, k + 1)]) == Ok(r.position.value))
  {
    hide WorthAt, TradesOf, StepBar;
    var n, targets := |bars|, Targets(signals);
    ResultOfRun(cfg, bars, signals);
    StoppedAtLastPoint(cfg, bars, signals, n);
    var st := AfterBars(cfg, bars, signals, n);
    PointOfRun(cfg, bars, signals, |st.curve| - 1);
    RunFollows(cfg, bars, signals, n);
    if st.position.Some? { WorthFromInputs(cfg, bars, targets, st, st.trades, |st.curve| - 1); }
  }

  /** The equity curve of a run, from the inputs: each point carries its bar's time and target and the account's
      worth at that bar's close, accrued financing included. Only the last point may differ: at the end of the
      data or after an insolvent close it is the balance. */
  lemma {:induction false} CurveIsWorth(cfg: RawConfig, bars: seq<FxBar>, signals: seq<Side>, k: nat)
    requires RunResult(cfg, bars, signals).Ok? && k < |RunResult(cfg, bars, signals).value.curve|
    ensures var r, targets := RunResult(cfg, bars, signals).value, Targets(signals);
            && |r.curve| <= |bars| == |targets|
            && (k + 1 < |r.curve| ==>
                  && r.curve[k].time == bars[k].time && r.curve[k].side == targets[k]
                  && WorthAt(cfg, bars, targets, r.trades, k, r.curve[k].equity))
            && (k + 1 == |r.curve| ==>
                  && r.equity == r.curve[k].equity
                  && (r.position.Some? ==>
                        OpenPosition(cfg, targets[k], bars[StartOf(targets, k + 1)]) == Ok(r.position.value))
                  && (r.position.None? ==> r.curve[k].equity == cfg.initialBalance + SumNet(r.trades))
                  && (r.position.Some? ==> WorthAt(cfg, bars, targets, r.trades, k, r.curve[k].equity)))
  {
    var r, targets := RunResult(cfg, bars, signals).value, Targets(signals);
    TradesAreBlocks(cfg, bars, signals);
    hide TradesOf, WorthAt;
    if k + 1 < |r.curve| {
      InnerPoint(cfg, bars, signals, k);
    } else if r.terminatedAt.None? {
      RunConserves(cfg, bars, signals);
    } else {
      LastOfStopped(cfg, bars, signals);
    }
  }
}
