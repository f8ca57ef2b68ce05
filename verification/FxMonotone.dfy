/** Costs only hurt: two runs over the same prices and signals that differ in slippage, commission
    and spreads, the second never cheaper than the first. */
module FxMonotone {
  import opened Common
  import opened FxCosts
  import opened FxEngine
  import opened FxRuns

  /** Same configuration except for slippage and commission, which do not decrease. */
  predicate CostlierConfig(c: RawConfig, d: RawConfig) {
    && d == c.(slippage := d.slippage, commission := d.commission) && c.lots > 0.0
    && SlippagePoints(c.slippage) <= SlippagePoints(d.slippage)
    && CostForSide(c.commission, c.lots) <= CostForSide(d.commission, c.lots)
  }

  predicate CostlierBar(b: RawBar, d: RawBar) {
    d == b.(spread := d.spread) && SpreadPoints(b.spread) <= SpreadPoints(d.spread)
  }

  /** Same bars except for spreads, which do not decrease. */
  predicate CostlierBars(bars: seq<FxBar>, dear: seq<FxBar>) {
    |bars| == |dear| && forall i :: 0 <= i < |bars| ==> CostlierBar(bars[i], dear[i])
  }

  // ------------------------------------------------------------------ one position, two price tags

  predicate DearerPosition(p: Position, q: Position) {
    && p.side == q.side && p.side != Flat && p.openTime == q.openTime && p.entryBid == q.entryBid
    && (p.side == Long ==> p.entryPrice <= q.entryPrice)
    && (p.side == Short ==> p.entryPrice >= q.entryPrice)
  }

  /** The same trade on the schedule, with a net PnL that is not better. */
  predicate DearerTrade(t: Trade, u: Trade) {
    && t.side == u.side && t.openTime == u.openTime && t.closeTime == u.closeTime && t.barsHeld == u.barsHeld
    && t.grossPnl == u.grossPnl && t.swapCost == u.swapCost && t.netPnl >= u.netPnl
  }

  lemma PointsMono(a: real, b: real, point: real)
    requires a <= b && point >= 0.0
    ensures InPrice(a, point) <= InPrice(b, point)
  {
  }

  lemma MoveMono(a: real, b: real, exposure: real)
    requires a <= b && exposure >= 0.0
    ensures MovePnl(a, exposure) <= MovePnl(b, exposure)
  {
  }

  lemma ExposureAlike(c: RawConfig, d: RawConfig)
    requires CostlierConfig(c, d) && c.contractSize > 0.0
    ensures 0.0 <= Exposure(c) == Exposure(d)
  {
  }

  /** A buy is never cheaper and a sell never better with more spread and more slippage. */
  lemma FillsGetWorse(c: RawConfig, d: RawConfig, side: Side, opening: bool, b: RawBar, e: RawBar)
    requires CostlierConfig(c, d) && CostlierBar(b, e) && c.point >= 0.0
    ensures var f, g := ComputeFill(c, side, opening, b), ComputeFill(d, side, opening, e);
            f.bid == g.bid && if IsBuyDirection(side, opening) then f.price <= g.price else f.price >= g.price
  {
    PointsMono(SpreadPoints(b.spread), SpreadPoints(e.spread), c.point);
    PointsMono(SlippagePoints(c.slippage), SlippagePoints(d.slippage), c.point);
    hide InPrice;
  }

  lemma OpensAlike(c: RawConfig, d: RawConfig, side: Side, b: RawBar, e: RawBar)
    requires CostlierConfig(c, d) && CostlierBar(b, e) && side != Flat
    ensures var p, q := OpenPosition(c, side, b), OpenPosition(d, side, e);
            if p.Ok? then q.Ok? && DearerPosition(p.value, q.value) && c.point > 0.0 && c.contractSize > 0.0 else p == q
  {
    if c.point > 0.0 { FillsGetWorse(c, d, side, true, b, e); }
  }

  function ExecutionPnl(c: RawConfig, p: Position, b: RawBar): real {
    GrossPnl(c, p.side, p.entryPrice, ComputeFill(c, p.side, false, b).price)
  }

  lemma ExecutionGetsWorse(c: RawConfig, d: RawConfig, p: Position, q: Position, b: RawBar, e: RawBar)
    requires CostlierConfig(c, d) && CostlierBar(b, e) && DearerPosition(p, q) && c.point > 0.0 && c.contractSize > 0.0
    ensures ExecutionPnl(c, p, b) >= ExecutionPnl(d, q, e)
  {
    FillsGetWorse(c, d, p.side, false, b, e);
    var f, g := ComputeFill(c, p.side, false, b).price, ComputeFill(d, p.side, false, e).price;
    ExposureAlike(c, d);
    if p.side == Long {
      MoveMono(g - q.entryPrice, f - p.entryPrice, Exposure(c));
    } else {
      MoveMono(q.entryPrice - g, p.entryPrice - f, Exposure(c));
    }
    hide MovePnl, Exposure, ComputeFill;
  }

  /** The trade that closing p at b books, with execution PnL x. */
  predicate BookedAs(c: RawConfig, p: Position, b: RawBar, held: int, swap: real, x: real, t: Trade) {
    && t.netPnl == x - (CostForSide(c.commission, c.lots) + CostForSide(c.commission, c.lots)) - swap
    && t.side == p.side && t.openTime == p.openTime && t.closeTime == b.time && t.swapCost == swap
    && t.grossPnl == GrossPnl(c, p.side, p.entryBid, b.open) && t.barsHeld == (if held < 1 then 1 else held)
  }

  /** net PnL = execution PnL - commission - financing: the reference terms cancel. */
  lemma NetIsExecution(c: RawConfig, p: Position, b: RawBar, held: int, swap: real) returns (t: Trade)
    requires SameCurrency(c)
    ensures ClosePosition(c, p, b, held, swap) == Ok(t) && BookedAs(c, p, b, held, swap, ExecutionPnl(c, p, b), t)
  {
    hide MovePnl, Exposure, InPrice;
    t := ClosePosition(c, p, b, held, swap).value;
  }

  lemma BooksCompare(c: RawConfig, d: RawConfig, p: Position, q: Position, b: RawBar, e: RawBar, held: int, swap: real)
    returns (x: real, y: real, t: Trade, u: Trade)
    requires CostlierConfig(c, d) && CostlierBar(b, e) && DearerPosition(p, q) && c.point > 0.0 && c.contractSize > 0.0
    requires SameCurrency(c)
    ensures x >= y && BookedAs(c, p, b, held, swap, x, t) && BookedAs(d, q, e, held, swap, y, u)
    ensures ClosePosition(c, p, b, held, swap) == Ok(t) && ClosePosition(d, q, e, held, swap) == Ok(u)
  {
    ExecutionGetsWorse(c, d, p, q, b, e);
    x, y := ExecutionPnl(c, p, b), ExecutionPnl(d, q, e);
    t := NetIsExecution(c, p, b, held, swap);
    u := NetIsExecution(d, q, e, held, swap);
  }

  lemma ClosesAlike(c: RawConfig, d: RawConfig, p: Position, q: Position, b: RawBar, e: RawBar, held: int, swap: real)
    requires CostlierConfig(c, d) && CostlierBar(b, e) && DearerPosition(p, q) && c.point > 0.0 && c.contractSize > 0.0
    ensures var t, u := ClosePosition(c, p, b, held, swap), ClosePosition(d, q, e, held, swap);
            if t.Ok? then u.Ok? && DearerTrade(t.value, u.value) else t == u
  {
    ExposureAlike(c, d);
    hide MovePnl, Exposure, InPrice, ComputeFill, ReconstructBidAsk;
    if SameCurrency(c) {
      var x, y, t, u := BooksCompare(c, d, p, q, b, e, held, swap);
    }
  }

  lemma MarksAlike(c: RawConfig, d: RawConfig, p: Position, q: Position, b: RawBar, e: RawBar)
    requires CostlierConfig(c, d) && CostlierBar(b, e) && DearerPosition(p, q) && c.point > 0.0 && c.contractSize > 0.0
    ensures var t, u := UnrealizedPnl(c, p, b), UnrealizedPnl(d, q, e);
            if t.Ok? then u.Ok? && t.value >= u.value else t == u
  {
    if SameCurrency(c) {
      PointsMono(SpreadPoints(b.spread), SpreadPoints(e.spread), c.point);
      ExposureAlike(c, d);
      var m, n := ReconstructBidAsk(b.close, b.spread, c.point), ReconstructBidAsk(e.close, e.spread, d.point);
      if p.side == Long {
        MoveMono(n.bid - q.entryPrice, m.bid - p.entryPrice, Exposure(c));
      } else {
        MoveMono(q.entryPrice - n.ask, p.entryPrice - m.ask, Exposure(c));
      }
    }
    hide MovePnl, Exposure, InPrice;
  }

  // ------------------------------------------------------------------ two states, bar by bar

  predicate DearerTrades(ts: seq<Trade>, us: seq<Trade>) {
    |ts| == |us| && forall k :: 0 <= k < |ts| ==> DearerTrade(ts[k], us[k])
  }

  predicate DearerPoint(x: EquityPoint, y: EquityPoint) {
    x.time == y.time && x.side == y.side && x.equity >= y.equity
  }

  predicate DearerCurve(xs: seq<EquityPoint>, ys: seq<EquityPoint>) {
    |xs| == |ys| && forall k :: 0 <= k < |xs| ==> DearerPoint(xs[k], ys[k])
  }

  /** Same position, same schedule so far; no better balance. */
  predicate DearerBooks(c: RawConfig, s: LoopState, t: LoopState) {
    && s.balance >= t.balance && s.accrued == t.accrued && s.openIndex == t.openIndex
    && DearerTrades(s.trades, t.trades)
    && (s.position.None? <==> t.position.None?)
    && (s.position.Some? ==>
          DearerPosition(s.position.value, t.position.value) && c.point > 0.0 && c.contractSize > 0.0)
  }

  predicate BothRun(c: RawConfig, s: LoopState, t: LoopState) {
    s.status.Running? && t.status.Running? && DearerBooks(c, s, t) && DearerCurve(s.curve, t.curve)
  }

  lemma AccrueAlike(c: RawConfig, d: RawConfig, bars: seq<FxBar>, dear: seq<FxBar>, i: nat, s: LoopState, t: LoopState)
    requires CostlierConfig(c, d) && CostlierBars(bars, dear) && 0 < i < |bars| && BothRun(c, s, t)
    ensures var s', t' := Accrue(c, bars, i, s), Accrue(d, dear, i, t);
            BothRun(c, s', t') || (s'.status.Failed? && t'.status == s'.status)
  {
    assert CostlierBar(bars[i - 1], dear[i - 1]) && CostlierBar(bars[i], dear[i]);
  }

  /** After closing: both go on, or both fail alike, or the costlier run stops, and the cheaper one
      stops too unless its balance is still positive. */
  lemma CloseAlike(c: RawConfig, d: RawConfig, b: FxBar, e: FxBar, i: nat, s: LoopState, t: LoopState)
    requires CostlierConfig(c, d) && CostlierBar(b, e) && BothRun(c, s, t)
    ensures var s', t' := CloseHeld(c, b, i, s), CloseHeld(d, e, i, t);
            || (BothRun(c, s', t') && s'.position.None?)
            || (s'.status.Failed? && t'.status == s'.status)
            || (t'.status.Stopped? && DearerBooks(c, s', t') && s'.position.None? && !s'.status.Failed? &&
                t'.curve == t.curve + [EquityPoint(b.time, t'.balance, Flat)] && t'.balance <= 0.0 &&
                c.terminateOnInsolvency &&
                (if s'.status.Stopped? then
                   s'.curve == s.curve + [EquityPoint(b.time, s'.balance, Flat)] && s'.balance <= 0.0
                 else s'.curve == s.curve && s'.balance > 0.0))
  {
    if s.position.Some? {
      ClosesAlike(c, d, s.position.value, t.position.value, b, e, i - s.openIndex, s.accrued);
    }
  }

  /** The costlier run stopped on a bar of its own: it added one last point. */
  predicate StoppedAlone(c: RawConfig, s: LoopState, t: LoopState, t': LoopState) {
    t'.status.Stopped? && c.terminateOnInsolvency && |t'.curve| == |t.curve| + 1 && t.curve <= t'.curve
  }

  /** At that bar the cheaper run's point is not lower. */
  predicate LastPointDominated(s': LoopState, t': LoopState) {
    && 0 < |s'.curve| == |t'.curve|
    && s'.curve[|s'.curve| - 1].time == t'.curve[|t'.curve| - 1].time
    && s'.curve[|s'.curve| - 1].equity >= t'.curve[|t'.curve| - 1].equity
  }

  lemma RebalanceAlike(c: RawConfig, d: RawConfig, b: FxBar, e: FxBar, target: Side, i: nat, s: LoopState, t: LoopState)
    requires CostlierConfig(c, d) && CostlierBar(b, e) && BothRun(c, s, t)
    ensures var s', t' := Rebalance(c, b, target, i, s), Rebalance(d, e, target, i, t);
            || BothRun(c, s', t')
            || (s'.status.Failed? && t'.status == s'.status)
            || (StoppedAlone(c, s, t, t') && Held(s) != target &&
                t'.curve == t.curve + [EquityPoint(b.time, t'.balance, Flat)] && t'.balance <= 0.0 &&
                (s'.status.Stopped? ==>
                   s'.curve == s.curve + [EquityPoint(b.time, s'.balance, Flat)] && s'.balance >= t'.balance) &&
                (s'.status.Running? ==> s'.curve == s.curve && s'.balance >= t'.balance && s'.balance > 0.0) &&
                (s'.status.Running? && target == Flat ==> s'.position.None?) &&
                (!s'.status.Failed? ==> DearerTrades(s'.trades, t'.trades)))
  {
    if Held(s) != target {
      CloseAlike(c, d, b, e, i, s, t);
      if target != Flat { OpensAlike(c, d, target, b, e); }
    }
  }

  lemma MarkAlike(c: RawConfig, d: RawConfig, b: FxBar, e: FxBar, target: Side, s: LoopState, t: LoopState)
    requires CostlierConfig(c, d) && CostlierBar(b, e) && BothRun(c, s, t)
    ensures var s', t' := Mark(c, b, target, s), Mark(d, e, target, t);
            || BothRun(c, s', t')
            || (s'.status.Failed? && t'.status == s'.status)
            || (StoppedAlone(c, s, t, t') && !s'.status.Failed? && LastPointDominated(s', t') &&
                s'.position.None? == s.position.None? && DearerTrades(s'.trades, t'.trades))
  {
    if s.position.Some? { MarksAlike(c, d, s.position.value, t.position.value, b, e); }
  }

  /** How the runs can part on one bar: the costlier one stops. Unless the target flips the position
      directly, its last point is dominated too. */
  predicate Parts(c: RawConfig, flips: bool, target: Side, s: LoopState, t: LoopState, s': LoopState, t': LoopState) {
    && StoppedAlone(c, s, t, t')
    && (s'.status.Failed? ||
        (DearerTrades(s'.trades, t'.trades) && (flips || LastPointDominated(s', t')) &&
         (s'.status.Running? && target == Flat ==> s'.position.None?)))
  }

  predicate Flips(from: Side, to: Side) {
    from != to && from != Flat && to != Flat
  }

  /** One iteration: both go on, both fail, or they part. */
  predicate StepOutcome(c: RawConfig, flips: bool, target: Side, s: LoopState, t: LoopState, s': LoopState,
                        t': LoopState) {
    || BothRun(c, s', t')
    || (s'.status.Failed? && t'.status == s'.status)
    || Parts(c, flips, target, s, t, s', t')
  }

  /** The rest of an iteration, after accruing. */
  function TradeAndMark(c: RawConfig, b: FxBar, target: Side, i: nat, s: LoopState): LoopState {
    var balanced := Rebalance(c, b, target, i, s);
    if balanced.status.Running? then Mark(c, b, target, balanced) else balanced
  }

  lemma TradeAndMarkAlike(c: RawConfig, d: RawConfig, b: FxBar, e: FxBar, target: Side, i: nat, s: LoopState,
                          t: LoopState)
    requires CostlierConfig(c, d) && CostlierBar(b, e) && BothRun(c, s, t)
    ensures StepOutcome(c, Flips(Held(s), target), target, s, t,
                        TradeAndMark(c, b, target, i, s), TradeAndMark(d, e, target, i, t))
  {
    RebalanceAlike(c, d, b, e, target, i, s, t);
    var s', t' := Rebalance(c, b, target, i, s), Rebalance(d, e, target, i, t);
    if BothRun(c, s', t') {
      RebalanceOnCurve(c, b, target, i, s);
      RebalanceOnCurve(d, e, target, i, t);
      MarkAlike(c, d, b, e, target, s', t');
      RebalanceHoldsTarget(c, b, target, i, s);
    }
  }

  lemma StepAlike(c: RawConfig, d: RawConfig, bars: seq<FxBar>, dear: seq<FxBar>, target: Side, i: nat, s: LoopState,
                  t: LoopState)
    requires CostlierConfig(c, d) && CostlierBars(bars, dear) && i < |bars| && BothRun(c, s, t)
    ensures StepOutcome(c, Flips(Held(s), target), target, s, t,
                        StepBar(c, bars, target, i, s), StepBar(d, dear, target, i, t))
  {
    assert CostlierBar(bars[i], dear[i]);
    if i > 0 { AccrueAlike(c, d, bars, dear, i, s, t); }
    var s1, t1 := if i == 0 then s else Accrue(c, bars, i, s), if i == 0 then t else Accrue(d, dear, i, t);
    assert Held(s1) == Held(s) && s1.curve == s.curve && t1.curve == t.curve;
    if s1.status.Running? {
      TradeAndMarkAlike(c, d, bars[i], dear[i], target, i, s1, t1);
    }
  }

  /** While a run goes on, it holds what the last target asked for. */
  lemma {:induction false} HoldsTarget(c: RawConfig, bars: seq<FxBar>, signals: seq<Side>, n: nat)
    requires n < |bars| == |signals| && AfterBars(c, bars, signals, n + 1).status.Running?
    ensures Held(AfterBars(c, bars, signals, n + 1)) == TargetAt(signals, n)
  {
    StepHoldsTarget(c, bars, TargetAt(signals, n), n, AfterBars(c, bars, signals, n));
  }

  lemma StepHoldsTarget(c: RawConfig, bars: seq<FxBar>, target: Side, i: nat, st: LoopState)
    requires i < |bars|
    ensures var st' := StepBar(c, bars, target, i, st); st'.status.Running? ==> Held(st') == target
  {
    if st.status.Running? {
      var accrued := if i == 0 then st else Accrue(c, bars, i, st);
      if accrued.status.Running? {
        RebalanceHoldsTarget(c, bars[i], target, i, accrued);
      }
    }
  }

  lemma RebalanceHoldsTarget(c: RawConfig, bar: FxBar, target: Side, i: nat, st: LoopState)
    requires st.status.Running?
    ensures var st' := Rebalance(c, bar, target, i, st); st'.status.Running? ==> Held(st') == target
  {
  }

  // ------------------------------------------------------------------ whole runs

  /** Bar k turns a long position into a short one or the other way round, without a flat bar between. */
  predicate FlipAt(signals: seq<Side>, k: nat)
    requires k <= |signals|
  {
    k > 0 && Flips(TargetAt(signals, k - 1), TargetAt(signals, k))
  }

  predicate PartsAt(c: RawConfig, d: RawConfig, bars: seq<FxBar>, dear: seq<FxBar>, signals: seq<Side>, m: nat)
    requires m < |bars| == |signals| == |dear|
  {
    Parts(c, FlipAt(signals, m), TargetAt(signals, m),
          AfterBars(c, bars, signals, m), AfterBars(d, dear, signals, m),
          AfterBars(c, bars, signals, m + 1), AfterBars(d, dear, signals, m + 1))
  }

  predicate BothAt(c: RawConfig, d: RawConfig, bars: seq<FxBar>, dear: seq<FxBar>, signals: seq<Side>, n: nat)
    requires n <= |bars| == |signals| == |dear|
  {
    BothRun(c, AfterBars(c, bars, signals, n), AfterBars(d, dear, signals, n))
  }

  predicate BothFailedAt(c: RawConfig, d: RawConfig, bars: seq<FxBar>, dear: seq<FxBar>, signals: seq<Side>, n: nat)
    requires n <= |bars| == |signals| == |dear|
  {
    AfterBars(c, bars, signals, n).status.Failed? &&
    AfterBars(d, dear, signals, n).status == AfterBars(c, bars, signals, n).status
  }

  lemma StepRunsFrom(c: RawConfig, d: RawConfig, bars: seq<FxBar>, dear: seq<FxBar>, signals: seq<Side>, n: nat,
                     s: LoopState, t: LoopState)
    requires CostlierConfig(c, d) && CostlierBars(bars, dear) && n < |bars| == |signals| && BothRun(c, s, t)
    requires Held(s) == if n == 0 then Flat else TargetAt(signals, n - 1)
    ensures StepOutcome(c, FlipAt(signals, n), TargetAt(signals, n), s, t,
                        StepBar(c, bars, TargetAt(signals, n), n, s), StepBar(d, dear, TargetAt(signals, n), n, t))
  {
    StepAlike(c, d, bars, dear, TargetAt(signals, n), n, s, t);
  }

  lemma {:induction false} StepRuns(c: RawConfig, d: RawConfig, bars: seq<FxBar>, dear: seq<FxBar>,
                                    signals: seq<Side>, n: nat)
    requires CostlierConfig(c, d) && CostlierBars(bars, dear) && n < |bars| == |signals|
    requires BothAt(c, d, bars, dear, signals, n)
    ensures BothAt(c, d, bars, dear, signals, n + 1) || BothFailedAt(c, d, bars, dear, signals, n + 1)
            || PartsAt(c, d, bars, dear, signals, n)
  {
    if n > 0 { HoldsTarget(c, bars, signals, n - 1); }
    StepRunsFrom(c, d, bars, dear, signals, n, AfterBars(c, bars, signals, n), AfterBars(d, dear, signals, n));
  }

  /** The two runs go side by side for m bars; then, if m is not yet n, they fail alike or part. */
  lemma {:induction false} RunsAlike(c: RawConfig, d: RawConfig, bars: seq<FxBar>, dear: seq<FxBar>,
                                     signals: seq<Side>, n: nat)
    returns (m: nat)
    requires CostlierConfig(c, d) && CostlierBars(bars, dear) && n <= |bars| == |signals|
    ensures m <= n && BothAt(c, d, bars, dear, signals, m)
    ensures m < n ==> BothFailedAt(c, d, bars, dear, signals, m + 1) || PartsAt(c, d, bars, dear, signals, m)
  {
    m := 0;
    while m < n && BothAt(c, d, bars, dear, signals, m + 1)
      invariant m <= n && BothAt(c, d, bars, dear, signals, m)
    {
      m := m + 1;
    }
    if m < n { StepRuns(c, d, bars, dear, signals, m); }
  }

  /** q has the same positions as r for as long as it lasts, every point before its last no higher,
      and every trade no better; and r does not stop before it. */
  predicate NotAbove(r: FxResult, q: FxResult) {
    && 0 < |q.curve| <= |r.curve| && (r.terminatedAt.Some? ==> q.terminatedAt.Some?)
    && (forall k :: 0 <= k < |q.curve| - 1 ==> DearerPoint(r.curve[k], q.curve[k]))
    && |q.trades| <= |r.trades| && DearerTrades(r.trades[..|q.trades|], q.trades)
  }

  /** At q's last point too. */
  predicate LastNotAbove(r: FxResult, q: FxResult) {
    0 < |q.curve| <= |r.curve| && r.curve[|q.curve| - 1].equity >= q.curve[|q.curve| - 1].equity
  }

  lemma LiquidatedAlike(c: RawConfig, d: RawConfig, bars: seq<FxBar>, dear: seq<FxBar>, s: LoopState, t: LoopState)
    requires CostlierConfig(c, d) && CostlierBars(bars, dear) && |bars| > 0 && BothRun(c, s, t) && |s.curve| > 0
    ensures var s', t' := Liquidated(c, bars, s), Liquidated(d, dear, t);
            if s'.status.Failed? then t'.status.Failed?
            else BothRun(c, s', t') && |s'.curve| == |s.curve|
  {
    if s.position.Some? {
      var last := |bars| - 1;
      assert CostlierBar(bars[last], dear[last]);
      ClosesAlike(c, d, s.position.value, t.position.value, bars[last], dear[last], last - s.openIndex, s.accrued);
    }
  }

  lemma SideBySideToTheEnd(c: RawConfig, d: RawConfig, bars: seq<FxBar>, dear: seq<FxBar>, s: LoopState, t: LoopState,
                           r: FxResult, q: FxResult)
    requires CostlierConfig(c, d) && CostlierBars(bars, dear) && |bars| > 0 && BothRun(c, s, t) && |s.curve| > 0
    requires Report(Liquidated(c, bars, s)) == Ok(r) && Report(Liquidated(d, dear, t)) == Ok(q)
    ensures NotAbove(r, q) && q.terminatedAt.None? && DearerCurve(r.curve, q.curve) && DearerTrades(r.trades, q.trades)
    ensures r.balance >= q.balance && r.equity >= q.equity
  {
    LiquidatedAlike(c, d, bars, dear, s, t);
    assert r.trades[..|q.trades|] == r.trades;
  }

  lemma PartedRuns(c: RawConfig, flips: bool, target: Side, s: LoopState, t: LoopState, s': LoopState, t': LoopState,
                   r: FxResult, q: FxResult)
    requires BothRun(c, s, t) && Parts(c, flips, target, s, t, s', t') && !s'.status.Failed?
    requires s.curve <= r.curve && s'.trades <= r.trades && |s'.curve| == |s.curve| + 1 <= |r.curve|
    requires Report(t') == Ok(q)
    ensures NotAbove(r, q) && q.terminatedAt.Some? && |q.curve| == |s.curve| + 1
    ensures !flips && s'.curve <= r.curve ==> LastNotAbove(r, q)
  {
    assert r.trades[..|q.trades|] == s'.trades;
    forall k | 0 <= k < |q.curve| - 1 ensures DearerPoint(r.curve[k], q.curve[k]) {
      assert DearerPoint(s.curve[k], t.curve[k]);
    }
  }

  /** What the last bars add: nothing recorded by an earlier state is lost, except that liquidation
      may replace the last point. */
  lemma {:induction false} RecordedFrom(c: RawConfig, bars: seq<FxBar>, signals: seq<Side>, m: nat)
    requires m < |bars| == |signals| && AfterBars(c, bars, signals, m).status.Running?
    requires RunResult(c, bars, signals).Ok?
    ensures var s, s' := AfterBars(c, bars, signals, m), AfterBars(c, bars, signals, m + 1);
            var r := RunResult(c, bars, signals).value;
            && !s'.status.Failed? && s.curve <= r.curve && s'.trades <= r.trades &&
               |s'.curve| == |s.curve| + 1 <= |r.curve|
            && (m + 1 < |bars| || s'.status.Stopped? || s'.position.None? ==> s'.curve <= r.curve)
  {
    hide StepBar;
    var s, s' := AfterBars(c, bars, signals, m), AfterBars(c, bars, signals, m + 1);
    var end := AfterBars(c, bars, signals, |bars|);
    RunGrows(c, bars, signals, m + 1, |bars|);
    StepOnCurve(c, bars, TargetAt(signals, m), m, s);
    CurveGrows(c, bars, signals, |bars|);
    LiquidationOnCurve(c, bars, end);
    LiquidationOnTrades(c, bars, end);
    RecordedIsReturned(c, bars, signals, m);
    if m + 1 < |bars| { RecordedIsReturned(c, bars, signals, m + 1); }
  }

  /** More slippage, wider spreads or more commission never help. Over the same prices and signals the
      costlier run holds the same positions for as long as it lasts, stops no later, has no higher
      equity at any bar before its last, and no better trade. If it runs to the end the whole curve and
      the final balance are dominated. If it is stopped, its last point is dominated too, except where
      the target flips the position directly at that bar, or where that bar is the last one of the
      data and a position is wanted there. Whenever the cheaper run returns a result, so does the
      costlier one. */
  lemma {:induction false} CostsOnlyHurt(c: RawConfig, d: RawConfig, bars: seq<FxBar>, dear: seq<FxBar>,
                                         signals: seq<Side>)
    requires CostlierConfig(c, d) && CostlierBars(bars, dear)
    requires RunResult(c, bars, signals).Ok?
    ensures RunResult(d, dear, signals).Ok?
    ensures var r, q := RunResult(c, bars, signals).value, RunResult(d, dear, signals).value;
            && NotAbove(r, q)
            && (q.terminatedAt.None? ==>
                 (&& r.terminatedAt.None? && DearerCurve(r.curve, q.curve) && DearerTrades(r.trades, q.trades)
                  && r.balance >= q.balance && r.equity >= q.equity))
            && (q.terminatedAt.Some? ==>
                 (&& c.terminateOnInsolvency && |q.curve| <= |signals|
                  && (!FlipAt(signals, |q.curve| - 1) &&
                      (|q.curve| < |bars| || TargetAt(signals, |q.curve| - 1) == Flat)
                      ==> LastNotAbove(r, q))))
  {
    hide StepBar;
    var n, r := |bars|, RunResult(c, bars, signals).value;
    var m := RunsAlike(c, d, bars, dear, signals, n);
    if m == n {
      CurveGrows(c, bars, signals, n);
      LiquidatedAlike(c, d, bars, dear, AfterBars(c, bars, signals, n), AfterBars(d, dear, signals, n));
      var q := RunResult(d, dear, signals).value;
      SideBySideToTheEnd(c, d, bars, dear, AfterBars(c, bars, signals, n), AfterBars(d, dear, signals, n), r, q);
    } else {
      RecordedFrom(c, bars, signals, m);
      CurveGrows(c, bars, signals, m);
      Sticky(d, dear, signals, m + 1, n);
      var q := RunResult(d, dear, signals).value;
      PartedRuns(c, FlipAt(signals, m), TargetAt(signals, m),
                 AfterBars(c, bars, signals, m), AfterBars(d, dear, signals, m),
                 AfterBars(c, bars, signals, m + 1), AfterBars(d, dear, signals, m + 1), r, q);
    }
  }
}
