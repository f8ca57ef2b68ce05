/** The engine's bar loop as it is written, with its local variables and early exits, proved to return
    what the state function says. */
module FxLoop {
  import opened Common
  import opened FxCosts
  import opened FxEngine
  import opened FxRuns

  /** The swap loop of one bar: one charge per crossing. */
  method ChargeAll(model: SwapModel, side: Side, lots: real, crossings: seq<int>, accrued: real) returns (total: real)
    ensures total == accrued + Charges(model, side, lots, crossings)
  {
    hide ChargeForCrossing;
    total := accrued;
    for k := 0 to |crossings|
      invariant total == accrued + Charges(model, side, lots, crossings[..k])
    {
      assert crossings[..k + 1][..k] == crossings[..k];
      total := total + ChargeForCrossing(model, side, lots, crossings[k]);
    }
    assert crossings[..|crossings|] == crossings;
  }

  /** What the position owes after one more bar. */
  method AccruedSwap(cfg: RawConfig, p: Position, accrued: real, prev: int, now: int)
    returns (result: Result<real, FxError>)
    ensures result == AccrueSwap(cfg, p, accrued, prev, now)
  {
    if cfg.rollover.Some? {
      var crossings := CrossingsBetween(cfg.rollover.value, prev, now);
      if crossings.None? {
        return Err(BarsOutOfOrder);
      }
      var total := ChargeAll(cfg.swap, p.side, cfg.lots, crossings.value, accrued);
      return Ok(total);
    }
    if !cfg.swap.NoSwap? && now / DAY != prev / DAY {
      return Err(SwapRequired);
    }
    result := Ok(accrued);
  }

  /** The engine object of one run: the locals of the loop are its fields. */
  class FxBacktest {
    const cfg: FxConfig
    var balance: real
    var realized: real
    var position: Option<Position>
    var accruedSwap: real
    var trades: seq<Trade>
    var curve: seq<EquityPoint>
    var openBarIndex: int
    var status: Status

    constructor (cfg: FxConfig)
      ensures this.cfg == cfg && View() == Start(cfg)
    {
      this.cfg := cfg;
      balance, realized, position, accruedSwap := cfg.initialBalance, 0.0, None, 0.0;
      trades, curve, openBarIndex, status := [], [], 0, Running;
    }

    function View(): LoopState
      reads this
    {
      LoopState(balance, realized, position, accruedSwap, trades, curve, openBarIndex, status)
    }

    /** Swap accrual at the start of a bar. */
    method Accrue(bars: seq<FxBar>, i: nat)
      requires 0 < i < |bars| && status.Running?
      modifies this
      ensures View() == FxEngine.Accrue(cfg, bars, i, old(View()))
    {
      if position.Some? {
        var result := AccruedSwap(cfg, position.value, accruedSwap, bars[i - 1].time, bars[i].time);
        if result.Err? {
          status := Failed(result.error);
        } else {
          accruedSwap := result.value;
        }
      }
    }

    /** Realize the held position; stop if that leaves nothing and the policy says so. */
    method CloseHeld(bar: FxBar, i: nat)
      requires status.Running?
      modifies this
      ensures View() == FxEngine.CloseHeld(cfg, bar, i, old(View()))
    {
      if position.Some? {
        var result := ClosePosition(cfg, position.value, bar, i - openBarIndex, accruedSwap);
        if result.Err? {
          status := Failed(result.error);
          return;
        }
        var trade := result.value;
        trades := trades + [trade];
        balance := balance + trade.netPnl;
        realized := realized + trade.netPnl;
        position := None;
        accruedSwap := 0.0;
        if cfg.terminateOnInsolvency && balance <= 0.0 {
          curve := curve + [EquityPoint(bar.time, balance, Flat)];
          status := Stopped(bar.time);
        }
      }
    }

    /** Bring the position to the target: close, then open. */
    method Rebalance(bar: FxBar, target: Side, i: nat)
      requires status.Running?
      modifies this
      ensures View() == FxEngine.Rebalance(cfg, bar, target, i, old(View()))
    {
      var current := if position.Some? then position.value.side else Flat;
      if current != target {
        CloseHeld(bar, i);
        if status.Running? && target != Flat {
          var result := OpenPosition(cfg, target, bar);
          if result.Err? {
            status := Failed(result.error);
          } else {
            position := Some(result.value);
            openBarIndex := i;
          }
        }
      }
    }

    /** Mark to market at the close; stop if the account is insolvent and the policy says so. */
    method Mark(bar: FxBar, target: Side)
      requires status.Running?
      modifies this
      ensures View() == FxEngine.Mark(cfg, bar, target, old(View()))
    {
      var equity, side := balance, target;
      if position.Some? {
        var pnl := UnrealizedPnl(cfg, position.value, bar);
        if pnl.Err? {
          status := Failed(pnl.error);
          return;
        }
        equity := balance + pnl.value - accruedSwap;
        side := position.value.side;
      }
      curve := curve + [EquityPoint(bar.time, equity, side)];
      if cfg.terminateOnInsolvency && equity <= 0.0 {
        status := Stopped(bar.time);
      }
    }

    /** One iteration of the loop. */
    method ProcessBar(bars: seq<FxBar>, target: Side, i: nat)
      requires i < |bars| && status.Running?
      modifies this
      ensures View() == StepBar(cfg, bars, target, i, old(View()))
    {
      if i > 0 {
        Accrue(bars, i);
      }
      if status.Running? {
        Rebalance(bars[i], target, i);
      }
      if status.Running? {
        Mark(bars[i], target);
      }
    }

    /** FxBacktestEngine.run: shift the signals, walk the bars, liquidate, report. */
    method Run(bars: seq<FxBar>, signals: seq<Side>) returns (result: Result<FxResult, FxError>)
      requires View() == Start(cfg)
      modifies this
      ensures result == RunResult(cfg, bars, signals)
      ensures |bars| != |signals| ==> result == Err(LengthMismatch)
      ensures |bars| == |signals| < 2 ==> result == Err(TooFewBars)
    {
      hide StepBar, FxEngine.Report;
      if |bars| != |signals| {
        return Err(LengthMismatch);
      }
      if |bars| < 2 {
        return Err(TooFewBars);
      }
      var shifted := [Flat] + signals[..|signals| - 1];
      var i := 0;
      while i < |bars| && status.Running?
        invariant 0 <= i <= |bars| && View() == AfterBars(cfg, bars, signals, i)
      {
        assert shifted[i] == TargetAt(signals, i);
        ProcessBar(bars, shifted[i], i);
        i := i + 1;
      }
      if !status.Running? {
        Sticky(cfg, bars, signals, i, |bars|);
      }
      CurveGrows(cfg, bars, signals, |bars|);
      if !status.Failed? {
        Liquidate(bars);
      }
      result := Reported();
    }

    method Reported() returns (result: Result<FxResult, FxError>)
      requires status.Failed? || |curve| > 0
      ensures result == FxEngine.Report(View())
    {
      if status.Failed? {
        return Err(status.error);
      }
      result := Ok(FxResult(trades, balance, realized, position, curve[|curve| - 1].equity, curve,
                            if status.Stopped? then Some(status.at) else None));
    }

    /** End-of-data liquidation at the last bar's OPEN. */
    method Liquidate(bars: seq<FxBar>)
      requires |bars| > 0 && |curve| > 0 && !status.Failed?
      modifies this
      ensures View() == Liquidated(cfg, bars, old(View()))
    {
      if position.Some? && status.Running? {
        var last := |bars| - 1;
        var closed := ClosePosition(cfg, position.value, bars[last], last - openBarIndex, accruedSwap);
        if closed.Err? {
          status := Failed(closed.error);
          return;
        }
        trades := trades + [closed.value];
        balance := balance + closed.value.netPnl;
        realized := realized + closed.value.netPnl;
        position := None;
        accruedSwap := 0.0;
        curve := curve[|curve| - 1 := EquityPoint(bars[last].time, balance, Flat)];
      }
    }
  }
}
