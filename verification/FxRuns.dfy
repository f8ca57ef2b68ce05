/** Properties of whole FX runs that relate bars to each other: what stops a run and what cannot happen
    after that, and that no bar knows a later one. */
module FxRuns {
  import opened Common
  import opened FxCosts
  import opened FxEngine

  // ------------------------------------------------------------------ termination

  /** A run that has stopped or failed never moves again. */
  lemma {:induction false} Sticky(cfg: RawConfig, bars: seq<FxBar>, signals: seq<Side>, n: nat, m: nat)
    requires n <= m <= |bars| == |signals| && !AfterBars(cfg, bars, signals, n).status.Running?
    ensures AfterBars(cfg, bars, signals, m) == AfterBars(cfg, bars, signals, n)
    decreases m - n
  {
    if n < m { Sticky(cfg, bars, signals, n, m - 1); }
  }

  predicate Solvent(curve: seq<EquityPoint>, n: int) {
    forall k :: 0 <= k < n && k < |curve| ==> curve[k].equity > 0.0
  }

  /** With the insolvency policy on, a running account is solvent at every bar so far, and a stopped
      one at every bar but its last. */
  predicate PolicyKept(st: LoopState) {
    && (st.status.Running? ==> Solvent(st.curve, |st.curve|))
    && (st.status.Stopped? ==> |st.curve| > 0 && Solvent(st.curve, |st.curve| - 1) &&
                               st.curve[|st.curve| - 1].equity <= 0.0 && st.curve[|st.curve| - 1].time == st.status.at)
  }

  lemma PointedKeepsPolicy(cfg: RawConfig, st: LoopState, point: EquityPoint)
    requires cfg.terminateOnInsolvency && st.status.Running? && Solvent(st.curve, |st.curve|)
    ensures PolicyKept(Pointed(cfg, st, point))
  {
  }

  lemma StepKeepsPolicy(cfg: RawConfig, bars: seq<FxBar>, target: Side, i: nat, st: LoopState)
    requires i < |bars| && cfg.terminateOnInsolvency && PolicyKept(st)
    ensures PolicyKept(StepBar(cfg, bars, target, i, st))
  {
    if st.status.Running? {
      var accrued := if i == 0 then st else Accrue(cfg, bars, i, st);
      if accrued.status.Running? {
        RebalanceOnCurve(cfg, bars[i], target, i, accrued);
        var balanced := Rebalance(cfg, bars[i], target, i, accrued);
        if balanced.status.Stopped? {
          assert balanced.status.at == bars[i].time;
        }
        if balanced.status.Running? {
          MarkKeepsPolicy(cfg, bars[i], target, balanced);
        }
      }
    }
  }

  lemma MarkKeepsPolicy(cfg: RawConfig, bar: FxBar, target: Side, st: LoopState)
    requires cfg.terminateOnInsolvency && st.status.Running? && Solvent(st.curve, |st.curve|)
    ensures PolicyKept(Mark(cfg, bar, target, st))
  {
    match st.position
    case None => PointedKeepsPolicy(cfg, st, EquityPoint(bar.time, st.balance, target));
    case Some(p) =>
      var pnl := UnrealizedPnl(cfg, p, bar);
      if pnl.Ok? { PointedKeepsPolicy(cfg, st, EquityPoint(bar.time, st.balance + pnl.value - st.accrued, p.side)); }
  }

  lemma {:induction false} RunKeepsPolicy(cfg: RawConfig, bars: seq<FxBar>, signals: seq<Side>, n: nat)
    requires n <= |bars| == |signals| && cfg.terminateOnInsolvency
    ensures PolicyKept(AfterBars(cfg, bars, signals, n))
  {
    if n > 0 {
      RunKeepsPolicy(cfg, bars, signals, n - 1);
      StepKeepsPolicy(cfg, bars, TargetAt(signals, n - 1), n - 1, AfterBars(cfg, bars, signals, n - 1));
    }
  }

  /** A stopped run stopped on the bar of its last point, and is still what it was then. */
  lemma {:induction false} StoppedAtLastPoint(cfg: RawConfig, bars: seq<FxBar>, signals: seq<Side>, n: nat)
    requires n <= |bars| == |signals| && AfterBars(cfg, bars, signals, n).status.Stopped?
    ensures var k := |AfterBars(cfg, bars, signals, n).curve|;
            && 0 < k <= n && AfterBars(cfg, bars, signals, k - 1).status.Running?
            && AfterBars(cfg, bars, signals, k) == AfterBars(cfg, bars, signals, n)
  {
    hide StepBar;
    var before := AfterBars(cfg, bars, signals, n - 1);
    if before.status.Running? {
      CurveGrows(cfg, bars, signals, n - 1);
      StepOnCurve(cfg, bars, TargetAt(signals, n - 1), n - 1, before);
    } else {
      Sticky(cfg, bars, signals, n - 1, n);
      StoppedAtLastPoint(cfg, bars, signals, n - 1);
    }
  }

  /** Without the policy no run is ever stopped. */
  lemma {:induction false} StopsOnlyIfAsked(cfg: RawConfig, bars: seq<FxBar>, signals: seq<Side>, n: nat)
    requires n <= |bars| == |signals| && AfterBars(cfg, bars, signals, n).status.Stopped?
    ensures cfg.terminateOnInsolvency
  {
    hide Rebalance, Mark, Accrue;
    if n > 0 && !AfterBars(cfg, bars, signals, n - 1).status.Stopped? {
      var st := AfterBars(cfg, bars, signals, n - 1);
      var accrued := if n == 1 then st else Accrue(cfg, bars, n - 1, st);
      if n > 1 { AccrueNeverStops(cfg, bars, n - 1, st); }
      RebalanceOnCurve(cfg, bars[n - 1], TargetAt(signals, n - 1), n - 1, accrued);
      var balanced := Rebalance(cfg, bars[n - 1], TargetAt(signals, n - 1), n - 1, accrued);
      if balanced.status.Running? { MarkStopsIfAsked(cfg, bars[n - 1], TargetAt(signals, n - 1), balanced); }
    } else if n > 0 {
      StopsOnlyIfAsked(cfg, bars, signals, n - 1);
    }
  }

  lemma AccrueNeverStops(cfg: RawConfig, bars: seq<FxBar>, i: nat, st: LoopState)
    requires 0 < i < |bars| && st.status.Running?
    ensures !Accrue(cfg, bars, i, st).status.Stopped?
  {
  }

  lemma MarkStopsIfAsked(cfg: RawConfig, bar: FxBar, target: Side, st: LoopState)
    requires st.status.Running? && Mark(cfg, bar, target, st).status.Stopped?
    ensures cfg.terminateOnInsolvency
  {
  }

  /** With the insolvency policy on: every equity point before the last is strictly positive, and the
      curve has exactly one point per processed bar. A terminated run ends with a point at or below zero
      at the moment it reports, and nothing happens to it afterwards: trades, position and balance are
      those of the bar that stopped it, whether its close or its mark did. */
  lemma {:induction false} InsolvencyPolicy(cfg: RawConfig, bars: seq<FxBar>, signals: seq<Side>)
    requires cfg.terminateOnInsolvency && RunResult(cfg, bars, signals).Ok?
    ensures var r := RunResult(cfg, bars, signals).value;
            && 0 < |r.curve| <= |bars| && (r.terminatedAt.None? ==> |r.curve| == |bars|)
            && (forall k :: 0 <= k < |r.curve| ==> r.curve[k].time == bars[k].time)
            && (forall k :: 0 <= k < |r.curve| - 1 ==> r.curve[k].equity > 0.0)
            && (r.terminatedAt.Some? ==>
                  (var stopped := AfterBars(cfg, bars, signals, |r.curve|);
                   && r.equity <= 0.0 && r.curve[|r.curve| - 1].time == r.terminatedAt.value
                   && AfterBars(cfg, bars, signals, |r.curve| - 1).status.Running? && stopped.status.Stopped?
                   && r.trades == stopped.trades && r.position == stopped.position && r.balance == stopped.balance))
  {
    hide StepBar;
    var n := |bars|;
    CurveGrows(cfg, bars, signals, n);
    RunKeepsPolicy(cfg, bars, signals, n);
    var st := AfterBars(cfg, bars, signals, n);
    LiquidationOnCurve(cfg, bars, st);
    if st.status.Stopped? { StoppedAtLastPoint(cfg, bars, signals, n); }
  }

  lemma LiquidationOnCurve(cfg: RawConfig, bars: seq<FxBar>, st: LoopState)
    requires |bars| > 0 && |st.curve| > 0
    ensures var end := Liquidated(cfg, bars, st);
            && (st.status.Running? || end == st)
            && (st.status.Running? && !end.status.Failed? ==> end.status.Running?)
            && (!end.status.Failed? ==>
                  && |end.curve| == |st.curve| && end.curve[..|st.curve| - 1] == st.curve[..|st.curve| - 1]
                  && (end.curve == st.curve || end.curve[|st.curve| - 1].time == bars[|bars| - 1].time))
  {
  }

  /** A flip whose close leaves nothing never opens its second leg: whenever closing the held
      position brings the balance to zero or below, the run stops flat at that bar, and neither a
      position nor a trade is added afterwards. */
  lemma {:induction false} BrokenFlipOpensNothing(cfg: RawConfig, bars: seq<FxBar>, signals: seq<Side>, i: nat)
    requires 0 < i < |bars| == |signals| && cfg.terminateOnInsolvency
    requires var st := Accrue(cfg, bars, i, AfterBars(cfg, bars, signals, i));
             && AfterBars(cfg, bars, signals, i).status.Running? && st.status.Running? && st.position.Some?
             && Held(st) != TargetAt(signals, i)
             && CloseHeld(cfg, bars[i], i, st).balance <= 0.0 && !CloseHeld(cfg, bars[i], i, st).status.Failed?
    ensures var st := AfterBars(cfg, bars, signals, i);
            var end := Finish(cfg, bars, signals);
            && end.status == Stopped(bars[i].time) && end.position.None?
            && |end.trades| == |st.trades| + 1 &&
               end.curve[|end.curve| - 1] == EquityPoint(bars[i].time, end.balance, Flat)
  {
    Sticky(cfg, bars, signals, i + 1, |bars|);
    CurveGrows(cfg, bars, signals, |bars|);
  }

  // ------------------------------------------------------------------ causality

  /** One iteration looks at its own bar and the one before, nothing else. */
  lemma StepIsLocal(cfg: RawConfig, bars: seq<FxBar>, bars': seq<FxBar>, target: Side, i: nat, st: LoopState)
    requires i < |bars| && i < |bars'| && bars[i] == bars'[i] && (i > 0 ==> bars[i - 1] == bars'[i - 1])
    ensures StepBar(cfg, bars, target, i, st) == StepBar(cfg, bars', target, i, st)
  {
  }

  /** Both data sets start with the same n bars and the same n-1 signals. */
  predicate SamePast(bars: seq<FxBar>, signals: seq<Side>, bars': seq<FxBar>, signals': seq<Side>, n: nat) {
    && n <= |bars| == |signals| && n <= |bars'| == |signals'|
    && (forall k :: 0 <= k < n ==> bars[k] == bars'[k])
    && (forall k :: 0 <= k < n - 1 ==> signals[k] == signals'[k])
  }

  /** No lookahead: bars that agree through i and signals that agree through i-1 give the same state
      after bar i, whatever the two futures hold. */
  lemma {:induction false} NoLookahead(
    cfg: RawConfig, bars: seq<FxBar>, signals: seq<Side>, bars': seq<FxBar>, signals': seq<Side>, n: nat)
    requires SamePast(bars, signals, bars', signals', n)
    ensures AfterBars(cfg, bars, signals, n) == AfterBars(cfg, bars', signals', n)
  {
    if n > 0 {
      NoLookahead(cfg, bars, signals, bars', signals', n - 1);
      var st := AfterBars(cfg, bars, signals, n - 1);
      StepIsLocal(cfg, bars, bars', TargetAt(signals, n - 1), n - 1, st);
    }
  }

  /** st' has recorded everything st had recorded. */
  predicate Extends(st: LoopState, st': LoopState) {
    st.curve <= st'.curve && st.trades <= st'.trades
  }

  lemma ExtendsTransitive(a: LoopState, b: LoopState, c: LoopState)
    requires Extends(a, b) && Extends(b, c)
    ensures Extends(a, c)
  {
  }

  lemma RebalanceGrows(cfg: RawConfig, bar: FxBar, target: Side, i: nat, st: LoopState)
    ensures st.trades <= Rebalance(cfg, bar, target, i, st).trades
  {
    assert st.trades <= CloseHeld(cfg, bar, i, st).trades;
  }

  lemma StepGrows(cfg: RawConfig, bars: seq<FxBar>, target: Side, i: nat, st: LoopState)
    requires i < |bars|
    ensures var st' := StepBar(cfg, bars, target, i, st);
            st'.status.Failed? || Extends(st, st')
  {
    if st.status.Running? {
      StepOnCurve(cfg, bars, target, i, st);
      var accrued := if i == 0 then st else Accrue(cfg, bars, i, st);
      assert accrued.trades == st.trades;
      if accrued.status.Running? {
        RebalanceGrows(cfg, bars[i], target, i, accrued);
        var balanced := Rebalance(cfg, bars[i], target, i, accrued);
        assert Mark(cfg, bars[i], target, balanced).trades == balanced.trades;
      }
    }
  }

  lemma {:induction false} RunGrows(cfg: RawConfig, bars: seq<FxBar>, signals: seq<Side>, n: nat, m: nat)
    requires n <= m <= |bars| == |signals| && !AfterBars(cfg, bars, signals, m).status.Failed?
    ensures var st, st' := AfterBars(cfg, bars, signals, n), AfterBars(cfg, bars, signals, m);
            !st.status.Failed? && Extends(st, st')
    decreases m - n
  {
    hide StepBar;
    if n < m {
      var st, before := AfterBars(cfg, bars, signals, n), AfterBars(cfg, bars, signals, m - 1);
      if !before.status.Running? { Sticky(cfg, bars, signals, m - 1, m); }
      RunGrows(cfg, bars, signals, n, m - 1);
      StepGrows(cfg, bars, TargetAt(signals, m - 1), m - 1, before);
      ExtendsTransitive(st, before, AfterBars(cfg, bars, signals, m));
    }
  }

  /** What a run has recorded before its last bar is part of its result: liquidation at the end of
      the data touches only the last point and adds only a last trade. */
  lemma {:induction false} RecordedIsReturned(cfg: RawConfig, bars: seq<FxBar>, signals: seq<Side>, n: nat)
    requires n < |bars| && RunResult(cfg, bars, signals).Ok?
    ensures var st, r := AfterBars(cfg, bars, signals, n), RunResult(cfg, bars, signals).value;
            st.curve <= r.curve && st.trades <= r.trades
  {
    var m := |bars|;
    RunGrows(cfg, bars, signals, n, m);
    CurveGrows(cfg, bars, signals, n);
    CurveGrows(cfg, bars, signals, m);
    var st, end := AfterBars(cfg, bars, signals, n), AfterBars(cfg, bars, signals, m);
    LiquidationOnCurve(cfg, bars, end);
    LiquidationOnTrades(cfg, bars, end);
    if end.status.Running? {
      assert |st.curve| <= |end.curve| - 1;
      assert st.curve <= end.curve[..|end.curve| - 1];
    }
  }

  lemma LiquidationOnTrades(cfg: RawConfig, bars: seq<FxBar>, st: LoopState)
    requires |bars| > 0 && |st.curve| > 0
    ensures var end := Liquidated(cfg, bars, st); end.status.Failed? || st.trades <= end.trades
  {
  }

  /** No lookahead in results: two runs with the same past agree on every equity point, every trade
      and the open position of that past; their futures, and liquidation at their ends, come after. */
  lemma {:induction false} SamePastSameRecord(
    cfg: RawConfig, bars: seq<FxBar>, signals: seq<Side>, bars': seq<FxBar>, signals': seq<Side>, n: nat)
    requires SamePast(bars, signals, bars', signals', n) && n < |bars| && n < |bars'|
    requires RunResult(cfg, bars, signals).Ok? && RunResult(cfg, bars', signals').Ok?
    ensures var st := AfterBars(cfg, bars, signals, n);
            var r, r' := RunResult(cfg, bars, signals).value, RunResult(cfg, bars', signals').value;
            && st == AfterBars(cfg, bars', signals', n) && (st.status.Running? ==> |st.curve| == n)
            && st.curve <= r.curve && st.curve <= r'.curve && st.trades <= r.trades && st.trades <= r'.trades
  {
    NoLookahead(cfg, bars, signals, bars', signals', n);
    RecordedIsReturned(cfg, bars, signals, n);
    RecordedIsReturned(cfg, bars', signals', n);
    CurveGrows(cfg, bars, signals, n);
  }
}
