/** What the engine does with complete blocks of targets: each one becomes at most one trade, opened on
    the bar after the block starts and held for four bars, and nothing is left to liquidate. */
module Phase5hSchedule {
  import opened Common
  import opened FxCosts
  import opened FxEngine
  import opened FxRuns
  import opened FailedBreakout
  import opened Phase5hTargets

  /** The trade of block s. */
  predicate TradeOf(bars: seq<FxBar>, signals: seq<Side>, t: Trade, s: nat)
    requires |bars| == |signals|
  {
    && s + HOLDING_BARS + 1 < |bars| && BlockStart(signals, s) && t.side == signals[s]
    && t.openTime == bars[s + 1].time && t.closeTime == bars[s + HOLDING_BARS + 1].time && t.barsHeld == HOLDING_BARS
  }

  predicate Scheduled(bars: seq<FxBar>, signals: seq<Side>, t: Trade)
    requires |bars| == |signals|
  {
    exists s :: 0 <= s < |signals| && TradeOf(bars, signals, t, s)
  }

  predicate AllScheduled(bars: seq<FxBar>, signals: seq<Side>, trades: seq<Trade>)
    requires |bars| == |signals|
  {
    forall k :: 0 <= k < |trades| ==> Scheduled(bars, signals, trades[k])
  }

  /** After n bars the open position, if any, is the one of the block that wants it. */
  predicate OnSchedule(bars: seq<FxBar>, signals: seq<Side>, st: LoopState, n: nat)
    requires n <= |bars| == |signals|
  {
    if st.position.None? then n == 0 || TargetAt(signals, n - 1) == Flat
    else
      var s := st.openIndex - 1;
      && 0 <= s && s + 1 < n <= s + HOLDING_BARS + 1 && BlockStart(signals, s)
      && st.position.value.side == signals[s] && st.position.value.openTime == bars[s + 1].time
  }

  lemma ClosedTrade(cfg: RawConfig, p: Position, bar: RawBar, held: int, swap: real)
    requires SameCurrency(cfg)
    ensures var t := ClosePosition(cfg, p, bar, held, swap);
            t.Ok? && t.value.side == p.side && t.value.openTime == p.openTime && t.value.closeTime == bar.time &&
            t.value.barsHeld == (if held < 1 then 1 else held)
  {
  }

  /** A held position is wanted until its block is over, and is then closed after exactly four bars. */
  lemma WantedWhileInBlock(bars: seq<FxBar>, signals: seq<Side>, st: LoopState, i: nat)
    requires 0 < i < |bars| == |signals| && AllComplete(signals) && OnSchedule(bars, signals, st, i)
    requires st.position.Some?
    ensures var s := st.openIndex - 1;
            TargetAt(signals, i) == if i == s + HOLDING_BARS + 1 then Flat else st.position.value.side
  {
    assert CompleteBlock(signals, st.openIndex - 1);
  }

  lemma RebalanceOnSchedule(cfg: RawConfig, bars: seq<FxBar>, signals: seq<Side>, i: nat, st: LoopState)
    requires i < |bars| == |signals| && AllComplete(signals) && st.status.Running?
    requires OnSchedule(bars, signals, st, i) && AllScheduled(bars, signals, st.trades)
    ensures var st' := Rebalance(cfg, bars[i], TargetAt(signals, i), i, st);
            && AllScheduled(bars, signals, st'.trades)
            && (st'.status.Running? ==> OnSchedule(bars, signals, st', i + 1))
  {
    if st.position.Some? {
      WantedWhileInBlock(bars, signals, st, i);
      var s, p := st.openIndex - 1, st.position.value;
      assert CompleteBlock(signals, s);
      if i == s + HOLDING_BARS + 1 && SameCurrency(cfg) {
        var t := ClosePosition(cfg, p, bars[i], i - st.openIndex, st.accrued);
        ClosedTrade(cfg, p, bars[i], i - st.openIndex, st.accrued);
        assert TradeOf(bars, signals, t.value, s);
        assert Scheduled(bars, signals, t.value);
      }
    }
  }

  lemma StepOnSchedule(cfg: RawConfig, bars: seq<FxBar>, signals: seq<Side>, i: nat, st: LoopState)
    requires i < |bars| == |signals| && AllComplete(signals)
    requires AllScheduled(bars, signals, st.trades) && (st.status.Running? ==> OnSchedule(bars, signals, st, i))
    ensures var st' := StepBar(cfg, bars, TargetAt(signals, i), i, st);
            AllScheduled(bars, signals, st'.trades) && (st'.status.Running? ==> OnSchedule(bars, signals, st', i + 1))
  {
    hide OnSchedule, AllScheduled, Rebalance, Mark, Accrue;
    if st.status.Running? {
      var accrued := if i == 0 then st else Accrue(cfg, bars, i, st);
      if i > 0 { AccrueOnSchedule(cfg, bars, signals, i, st); }
      if accrued.status.Running? {
        RebalanceOnSchedule(cfg, bars, signals, i, accrued);
        MarkOnSchedule(cfg, bars, signals, bars[i], i + 1, Rebalance(cfg, bars[i], TargetAt(signals, i), i, accrued));
      }
    }
  }

  lemma AccrueOnSchedule(cfg: RawConfig, bars: seq<FxBar>, signals: seq<Side>, i: nat, st: LoopState)
    requires 0 < i < |bars| == |signals| && OnSchedule(bars, signals, st, i) && AllScheduled(bars, signals, st.trades)
    ensures var st' := Accrue(cfg, bars, i, st);
            OnSchedule(bars, signals, st', i) && AllScheduled(bars, signals, st'.trades)
  {
  }

  lemma MarkOnSchedule(cfg: RawConfig, bars: seq<FxBar>, signals: seq<Side>, bar: FxBar, n: nat, st: LoopState)
    requires n <= |bars| == |signals| && AllScheduled(bars, signals, st.trades)
    ensures forall target :: AllScheduled(bars, signals, Mark(cfg, bar, target, st).trades)
    ensures OnSchedule(bars, signals, st, n) ==>
              forall target :: OnSchedule(bars, signals, Mark(cfg, bar, target, st), n)
  {
  }

  lemma {:induction false} RunOnSchedule(cfg: RawConfig, bars: seq<FxBar>, signals: seq<Side>, n: nat)
    requires n <= |bars| == |signals| && AllComplete(signals)
    ensures var st := AfterBars(cfg, bars, signals, n);
            AllScheduled(bars, signals, st.trades) && (st.status.Running? ==> OnSchedule(bars, signals, st, n))
  {
    hide StepBar;
    if n > 0 {
      RunOnSchedule(cfg, bars, signals, n - 1);
      StepOnSchedule(cfg, bars, signals, n - 1, AfterBars(cfg, bars, signals, n - 1));
    }
  }

  /** Nothing is held after the last bar, so the liquidation at the end of the data does nothing. */
  lemma {:induction false} NothingToLiquidate(cfg: RawConfig, bars: seq<FxBar>, signals: seq<Side>)
    requires |bars| == |signals| >= 2 && AllComplete(signals)
    ensures AfterBars(cfg, bars, signals, |bars|).status.Running? ==>
              AfterBars(cfg, bars, signals, |bars|).position.None?
    ensures Finish(cfg, bars, signals) == AfterBars(cfg, bars, signals, |bars|)
  {
    hide StepBar;
    var n := |bars|;
    var st := AfterBars(cfg, bars, signals, n);
    RunOnSchedule(cfg, bars, signals, n);
    CurveGrows(cfg, bars, signals, n);
    if st.status.Running? {
      LastBlockIsOver(bars, signals, st);
    }
  }

  lemma LastBlockIsOver(bars: seq<FxBar>, signals: seq<Side>, st: LoopState)
    requires |bars| == |signals| && AllComplete(signals) && OnSchedule(bars, signals, st, |bars|)
    ensures st.position.None?
  {
  }

  // ------------------------------------------------------------------ no event is lost

  predicate Traded(bars: seq<FxBar>, signals: seq<Side>, trades: seq<Trade>, s: nat)
    requires |bars| == |signals|
  {
    exists k :: 0 <= k < |trades| && TradeOf(bars, signals, trades[k], s)
  }

  /** Every block over before bar n has its trade. */
  predicate AllTraded(bars: seq<FxBar>, signals: seq<Side>, trades: seq<Trade>, n: nat)
    requires |bars| == |signals|
  {
    forall s: nat :: s < |signals| && BlockStart(signals, s) && s + HOLDING_BARS + 1 < n ==>
      Traded(bars, signals, trades, s)
  }

  /** The position held when a block ends is that block's. */
  lemma HeldForBlock(bars: seq<FxBar>, signals: seq<Side>, st: LoopState, s: nat)
    requires |bars| == |signals| && AllComplete(signals) && s + HOLDING_BARS + 1 < |bars| && BlockStart(signals, s)
    requires OnSchedule(bars, signals, st, s + HOLDING_BARS + 1)
    ensures st.position.Some? && st.openIndex == s + 1
  {
    assert CompleteBlock(signals, s);
    assert st.position.Some?;
    var other := st.openIndex - 1;
    assert CompleteBlock(signals, other);
  }

  lemma TradedStays(bars: seq<FxBar>, signals: seq<Side>, trades: seq<Trade>, trades': seq<Trade>, s: nat)
    requires |bars| == |signals| && trades <= trades' && Traded(bars, signals, trades, s)
    ensures Traded(bars, signals, trades', s)
  {
    var k :| 0 <= k < |trades| && TradeOf(bars, signals, trades[k], s);
    assert trades'[k] == trades[k];
  }

  lemma RebalanceTrades(cfg: RawConfig, bars: seq<FxBar>, signals: seq<Side>, i: nat, st: LoopState)
    requires i < |bars| == |signals| && AllComplete(signals) && st.status.Running?
    requires OnSchedule(bars, signals, st, i) && AllTraded(bars, signals, st.trades, i)
    ensures var st' := Rebalance(cfg, bars[i], TargetAt(signals, i), i, st);
            st'.status.Failed? || AllTraded(bars, signals, st'.trades, i + 1)
  {
    var st' := Rebalance(cfg, bars[i], TargetAt(signals, i), i, st);
    RebalanceGrows(cfg, bars[i], TargetAt(signals, i), i, st);
    if !st'.status.Failed? {
      forall s: nat | s < |signals| && BlockStart(signals, s) && s + HOLDING_BARS + 1 < i + 1
        ensures Traded(bars, signals, st'.trades, s)
      {
        if s + HOLDING_BARS + 1 < i {
          TradedStays(bars, signals, st.trades, st'.trades, s);
        } else {
          HeldForBlock(bars, signals, st, s);
          WantedWhileInBlock(bars, signals, st, i);
          BlockIsBooked(cfg, bars, signals, s, st);
        }
      }
    }
  }

  lemma BlockIsBooked(cfg: RawConfig, bars: seq<FxBar>, signals: seq<Side>, s: nat, st: LoopState)
    requires |bars| == |signals| && s + HOLDING_BARS + 1 < |bars| && BlockStart(signals, s) && st.status.Running?
    requires OnSchedule(bars, signals, st, s + HOLDING_BARS + 1) && st.position.Some? && st.openIndex == s + 1
    requires TargetAt(signals, s + HOLDING_BARS + 1) == Flat
    ensures var st' := Rebalance(cfg, bars[s + HOLDING_BARS + 1], Flat, s + HOLDING_BARS + 1, st);
            st'.status.Failed? || Traded(bars, signals, st'.trades, s)
  {
    var i, p := s + HOLDING_BARS + 1, st.position.value;
    if SameCurrency(cfg) {
      var t := ClosePosition(cfg, p, bars[i], i - st.openIndex, st.accrued);
      ClosedTrade(cfg, p, bars[i], i - st.openIndex, st.accrued);
      assert TradeOf(bars, signals, t.value, s);
      var trades := Rebalance(cfg, bars[i], Flat, i, st).trades;
      assert trades[|st.trades|] == t.value;
    }
  }

  lemma StepTrades(cfg: RawConfig, bars: seq<FxBar>, signals: seq<Side>, i: nat, st: LoopState)
    requires i < |bars| == |signals| && AllComplete(signals) && st.status.Running?
    requires OnSchedule(bars, signals, st, i) && AllScheduled(bars, signals, st.trades)
    requires AllTraded(bars, signals, st.trades, i)
    ensures var st' := StepBar(cfg, bars, TargetAt(signals, i), i, st);
            st'.status.Failed? || AllTraded(bars, signals, st'.trades, i + 1)
  {
    if i > 0 { AccrueOnSchedule(cfg, bars, signals, i, st); }
    var accrued := if i == 0 then st else Accrue(cfg, bars, i, st);
    assert accrued.trades == st.trades;
    hide OnSchedule, AllTraded, AllComplete, Rebalance, Accrue;
    if accrued.status.Running? {
      RebalanceTrades(cfg, bars, signals, i, accrued);
    }
  }

  /** As long as a run goes on, every complete block that is over has been traded. */
  lemma {:induction false} EveryBlockIsTraded(cfg: RawConfig, bars: seq<FxBar>, signals: seq<Side>, n: nat)
    requires n <= |bars| == |signals| && AllComplete(signals) && AfterBars(cfg, bars, signals, n).status.Running?
    ensures AllTraded(bars, signals, AfterBars(cfg, bars, signals, n).trades, n)
  {
    hide StepBar, OnSchedule, AllComplete;
    if n > 0 {
      if !AfterBars(cfg, bars, signals, n - 1).status.Running? { Sticky(cfg, bars, signals, n - 1, n); }
      EveryBlockIsTraded(cfg, bars, signals, n - 1);
      RunOnSchedule(cfg, bars, signals, n - 1);
      StepTrades(cfg, bars, signals, n - 1, AfterBars(cfg, bars, signals, n - 1));
    }
  }

  // ------------------------------------------------------------------ the engine does not fail

  /** What the engine needs to never raise: symbol metadata, one currency, a rollover schedule. */
  predicate Runnable(cfg: RawConfig) {
    SameCurrency(cfg) && cfg.point > 0.0 && cfg.contractSize > 0.0 && cfg.rollover.Some?
  }

  lemma StepSucceeds(cfg: RawConfig, bars: seq<FxBar>, target: Side, i: nat, st: LoopState)
    requires i < |bars| && Runnable(cfg) && !st.status.Failed? && (i > 0 ==> bars[i - 1].time <= bars[i].time)
    ensures !StepBar(cfg, bars, target, i, st).status.Failed?
  {
    hide Rebalance, Mark, Accrue;
    if st.status.Running? {
      if i > 0 { AccrueSucceeds(cfg, bars, i, st); }
      var accrued := if i == 0 then st else Accrue(cfg, bars, i, st);
      RebalanceSucceeds(cfg, bars[i], target, i, accrued);
      MarkSucceeds(cfg, bars[i], target, Rebalance(cfg, bars[i], target, i, accrued));
    }
  }

  lemma AccrueSucceeds(cfg: RawConfig, bars: seq<FxBar>, i: nat, st: LoopState)
    requires 0 < i < |bars| && Runnable(cfg) && st.status.Running? && bars[i - 1].time <= bars[i].time
    ensures Accrue(cfg, bars, i, st).status.Running?
  {
  }

  lemma RebalanceSucceeds(cfg: RawConfig, bar: FxBar, target: Side, i: nat, st: LoopState)
    requires Runnable(cfg) && st.status.Running?
    ensures !Rebalance(cfg, bar, target, i, st).status.Failed?
  {
  }

  lemma MarkSucceeds(cfg: RawConfig, bar: FxBar, target: Side, st: LoopState)
    requires Runnable(cfg) && !st.status.Failed?
    ensures !Mark(cfg, bar, target, st).status.Failed?
  {
  }

  lemma {:induction false} EngineSucceeds(cfg: RawConfig, bars: seq<FxBar>, signals: seq<Side>, n: nat)
    requires n <= |bars| == |signals| && Runnable(cfg) && Chronological(bars)
    ensures !AfterBars(cfg, bars, signals, n).status.Failed?
  {
    hide StepBar;
    if n > 0 {
      EngineSucceeds(cfg, bars, signals, n - 1);
      StepSucceeds(cfg, bars, TargetAt(signals, n - 1), n - 1, AfterBars(cfg, bars, signals, n - 1));
    }
  }
}
