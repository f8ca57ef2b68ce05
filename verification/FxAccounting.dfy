/** Accounting of the FX engine over whole runs: where every trade comes from, what each of its cost
    terms is, and that balance, trades and equity add up. */
module FxAccounting {
  import opened Common
  import opened FxCosts
  import opened FxEngine

  function SumNet(trades: seq<Trade>): real {
    if trades == [] then 0.0 else SumNet(trades[..|trades| - 1]) + trades[|trades| - 1].netPnl
  }

  lemma SumNetAppend(trades: seq<Trade>, t: Trade)
    ensures SumNet(trades + [t]) == SumNet(trades) + t.netPnl
  {
    assert (trades + [t])[..|trades|] == trades;
  }

  /** The financing of a position held from a to b: one charge per rollover in (a, b]. */
  function SwapOver(cfg: RawConfig, side: Side, a: int, b: int): real {
    match cfg.rollover
    case None => 0.0
    case Some(hours) => Charges(cfg.swap, side, cfg.lots, Crossings(hours, a, b))
  }

  predicate OpenedAt(cfg: RawConfig, bars: seq<FxBar>, p: Position, i: int) {
    0 <= i < |bars| && p.side != Flat && OpenPosition(cfg, p.side, bars[i]) == Ok(p)
  }

  /** t is the position opened at bar i and closed at bar j, charged for exactly that interval. */
  predicate RoundTrip(cfg: RawConfig, bars: seq<FxBar>, t: Trade, i: int, j: int) {
    && 0 <= i <= j < |bars| && t.side != Flat
    && OpenPosition(cfg, t.side, bars[i]).Ok?
    && ClosePosition(cfg, OpenPosition(cfg, t.side, bars[i]).value, bars[j], j - i,
                     SwapOver(cfg, t.side, bars[i].time, bars[j].time)) == Ok(t)
  }

  ghost predicate FromBars(cfg: RawConfig, bars: seq<FxBar>, t: Trade, n: int) {
    exists i, j :: i < j < n && RoundTrip(cfg, bars, t, i, j)
  }

  ghost predicate TradesFromBars(cfg: RawConfig, bars: seq<FxBar>, trades: seq<Trade>, n: int) {
    forall k :: 0 <= k < |trades| ==> FromBars(cfg, bars, trades[k], n)
  }

  predicate BooksBalance(cfg: RawConfig, st: LoopState) {
    st.balance == cfg.initialBalance + SumNet(st.trades) && st.realized == SumNet(st.trades)
  }

  /** The open position and what it has accrued by the time `now`. */
  predicate PositionOk(cfg: RawConfig, bars: seq<FxBar>, st: LoopState, n: nat, now: int) {
    match st.position
    case None => st.accrued == 0.0
    case Some(p) =>
      && st.openIndex < n && OpenedAt(cfg, bars, p, st.openIndex)
      && (cfg.rollover.Some? ==> bars[st.openIndex].time <= now)
      && st.accrued == SwapOver(cfg, p.side, bars[st.openIndex].time, now)
  }

  ghost predicate Accounted(cfg: RawConfig, bars: seq<FxBar>, st: LoopState, n: nat)
    requires n <= |bars|
  {
    st.status.Failed? ||
    (&& BooksBalance(cfg, st) && TradesFromBars(cfg, bars, st.trades, n)
     && (st.status.Running? ==> if n == 0 then st == Start(cfg) else PositionOk(cfg, bars, st, n, bars[n - 1].time)))
  }

  lemma SwapAdds(cfg: RawConfig, side: Side, a: int, b: int, c: int)
    requires a <= b <= c
    ensures SwapOver(cfg, side, a, b) + SwapOver(cfg, side, b, c) == SwapOver(cfg, side, a, c)
  {
    if cfg.rollover.Some? {
      var hours := cfg.rollover.value;
      CrossingsAdd(hours, a, b, c);
      ChargesConcat(cfg.swap, side, cfg.lots, Crossings(hours, a, b), Crossings(hours, b, c));
    }
  }

  /** No interval, no charge. */
  lemma SwapOfNothing(cfg: RawConfig, side: Side, a: int)
    ensures SwapOver(cfg, side, a, a) == 0.0
  {
    if cfg.rollover.Some? {
      CrossingsAreExact(cfg.rollover.value, a, a);
      SortedListsAgree(Crossings(cfg.rollover.value, a, a), []);
    }
  }

  lemma AccrueKeeps(cfg: RawConfig, bars: seq<FxBar>, i: nat, st: LoopState)
    requires 0 < i < |bars| && st.status.Running? && PositionOk(cfg, bars, st, i, bars[i - 1].time)
    ensures var st' := Accrue(cfg, bars, i, st);
            st'.status.Failed? || (st' == st.(accrued := st'.accrued) && PositionOk(cfg, bars, st', i, bars[i].time))
  {
    if st.position.Some? && cfg.rollover.Some? && bars[i - 1].time <= bars[i].time {
      SwapAdds(cfg, st.position.value.side, bars[st.openIndex].time, bars[i - 1].time, bars[i].time);
    }
  }

  lemma FromBarsGrows(cfg: RawConfig, bars: seq<FxBar>, trades: seq<Trade>, n: int, m: int)
    requires TradesFromBars(cfg, bars, trades, n) && n <= m
    ensures TradesFromBars(cfg, bars, trades, m)
  {
    forall k | 0 <= k < |trades| ensures FromBars(cfg, bars, trades[k], m) {
      var i, j :| i < j < n && RoundTrip(cfg, bars, trades[k], i, j);
    }
  }

  lemma ClosedSide(cfg: RawConfig, p: Position, bar: RawBar, held: int, swap: real)
    ensures var t := ClosePosition(cfg, p, bar, held, swap); t.Ok? ==> t.value.side == p.side
  {
  }

  lemma OneMoreTrade(cfg: RawConfig, bars: seq<FxBar>, trades: seq<Trade>, t: Trade, i: int, j: int)
    requires TradesFromBars(cfg, bars, trades, j + 1) && i < j && RoundTrip(cfg, bars, t, i, j)
    ensures TradesFromBars(cfg, bars, trades + [t], j + 1)
  {
    hide RoundTrip;
    assert FromBars(cfg, bars, t, j + 1);
  }

  lemma CloseHeldKeeps(cfg: RawConfig, bars: seq<FxBar>, i: nat, st: LoopState)
    requires i < |bars| && st.status.Running? && PositionOk(cfg, bars, st, i, bars[i].time)
    requires BooksBalance(cfg, st) && TradesFromBars(cfg, bars, st.trades, i)
    ensures var st' := CloseHeld(cfg, bars[i], i, st);
            st'.status.Failed? ||
            (BooksBalance(cfg, st') && TradesFromBars(cfg, bars, st'.trades, i + 1) && st'.position.None? &&
             st'.accrued == 0.0)
  {
    hide ClosePosition, OpenPosition, FromBars, TradesFromBars;
    FromBarsGrows(cfg, bars, st.trades, i, i + 1);
    if st.position.Some? {
      var closed := ClosePosition(cfg, st.position.value, bars[i], i - st.openIndex, st.accrued);
      ClosedSide(cfg, st.position.value, bars[i], i - st.openIndex, st.accrued);
      if closed.Ok? {
        SumNetAppend(st.trades, closed.value);
        OneMoreTrade(cfg, bars, st.trades, closed.value, st.openIndex, i);
      }
    }
  }

  lemma RebalanceKeeps(cfg: RawConfig, bars: seq<FxBar>, target: Side, i: nat, st: LoopState)
    requires i < |bars| && st.status.Running? && PositionOk(cfg, bars, st, i, bars[i].time)
    requires BooksBalance(cfg, st) && TradesFromBars(cfg, bars, st.trades, i)
    ensures var st' := Rebalance(cfg, bars[i], target, i, st);
            st'.status.Failed? ||
            (BooksBalance(cfg, st') && TradesFromBars(cfg, bars, st'.trades, i + 1) &&
             (st'.status.Running? ==> PositionOk(cfg, bars, st', i + 1, bars[i].time)))
  {
    hide CloseHeld, ClosePosition;
    CloseHeldKeeps(cfg, bars, i, st);
    FromBarsGrows(cfg, bars, st.trades, i, i + 1);
    SwapOfNothing(cfg, target, bars[i].time);
  }

  /** Marking records a point and touches nothing else. */
  lemma MarkKeeps(cfg: RawConfig, bar: FxBar, target: Side, st: LoopState)
    ensures var st' := Mark(cfg, bar, target, st);
            st' == st.(curve := st'.curve, status := st'.status)
  {
  }

  lemma StepAccounted(cfg: RawConfig, bars: seq<FxBar>, target: Side, i: nat, st: LoopState)
    requires i < |bars| && Accounted(cfg, bars, st, i)
    ensures Accounted(cfg, bars, StepBar(cfg, bars, target, i, st), i + 1)
  {
    if st.status.Running? {
      if i > 0 { AccrueKeeps(cfg, bars, i, st); }
      var accrued := if i == 0 then st else Accrue(cfg, bars, i, st);
      if accrued.status.Running? {
        RebalanceKeeps(cfg, bars, target, i, accrued);
        MarkKeeps(cfg, bars[i], target, Rebalance(cfg, bars[i], target, i, accrued));
      }
    } else if st.status.Stopped? {
      FromBarsGrows(cfg, bars, st.trades, i, i + 1);
    }
  }

  lemma {:induction false} RunAccounted(cfg: RawConfig, bars: seq<FxBar>, signals: seq<Side>, n: nat)
    requires n <= |bars| == |signals|
    ensures Accounted(cfg, bars, AfterBars(cfg, bars, signals, n), n)
  {
    hide StepBar;
    if n > 0 {
      RunAccounted(cfg, bars, signals, n - 1);
      StepAccounted(cfg, bars, TargetAt(signals, n - 1), n - 1, AfterBars(cfg, bars, signals, n - 1));
    }
  }

  // ------------------------------------------------------------------ the whole run

  /** Every trade a run returns is a round trip between two bars; the last one may be opened and
      liquidated at the last bar. */
  ghost predicate Returned(cfg: RawConfig, bars: seq<FxBar>, t: Trade) {
    exists i, j :: RoundTrip(cfg, bars, t, i, j) && (i < j || j == |bars| - 1)
  }

  lemma LiquidationKeeps(cfg: RawConfig, bars: seq<FxBar>, st: LoopState)
    requires |bars| > 0 && |st.curve| > 0 && st.status.Running? && BooksBalance(cfg, st)
    requires PositionOk(cfg, bars, st, |bars|, bars[|bars| - 1].time)
    requires st.position.None? ==> st.curve[|st.curve| - 1].equity == st.balance
    ensures var end := Liquidated(cfg, bars, st);
            end.status.Failed? ||
            (&& BooksBalance(cfg, end) && end.position.None? && |end.curve| == |st.curve|
             && end.curve[|end.curve| - 1].equity == end.balance
             && (end.trades == st.trades ||
                 (|end.trades| == |st.trades| + 1 && end.trades == st.trades + [end.trades[|st.trades|]] &&
                  RoundTrip(cfg, bars, end.trades[|st.trades|], st.openIndex, |bars| - 1))))
  {
    hide ClosePosition, OpenPosition, SwapOver;
    var last := |bars| - 1;
    if st.position.Some? {
      var closed := ClosePosition(cfg, st.position.value, bars[last], last - st.openIndex, st.accrued);
      ClosedSide(cfg, st.position.value, bars[last], last - st.openIndex, st.accrued);
      if closed.Ok? {
        SumNetAppend(st.trades, closed.value);
        assert RoundTrip(cfg, bars, closed.value, st.openIndex, last);
      }
    }
  }

  lemma LoopTradesReturned(cfg: RawConfig, bars: seq<FxBar>, trades: seq<Trade>)
    requires TradesFromBars(cfg, bars, trades, |bars|)
    ensures forall k :: 0 <= k < |trades| ==> Returned(cfg, bars, trades[k])
  {
    forall k | 0 <= k < |trades| ensures Returned(cfg, bars, trades[k]) {
      assert FromBars(cfg, bars, trades[k], |bars|);
    }
  }

  predicate Conserved(cfg: RawConfig, r: FxResult) {
    && r.balance == cfg.initialBalance + SumNet(r.trades) && r.realized == SumNet(r.trades)
    && (r.terminatedAt.None? ==> r.position.None? && r.equity == r.balance)
  }

  lemma {:induction false} FinishKeeps(cfg: RawConfig, bars: seq<FxBar>, signals: seq<Side>)
    requires |bars| == |signals| >= 2
    ensures var end := Finish(cfg, bars, signals);
            end.status.Failed? ||
            (&& BooksBalance(cfg, end) && |end.curve| > 0
             && (end.status.Running? ==> end.position.None? && end.curve[|end.curve| - 1].equity == end.balance)
             && forall k :: 0 <= k < |end.trades| ==> Returned(cfg, bars, end.trades[k]))
  {
    hide StepBar, RoundTrip;
    var n := |bars|;
    var st := AfterBars(cfg, bars, signals, n);
    RunAccounted(cfg, bars, signals, n);
    CurveGrows(cfg, bars, signals, n);
    if !st.status.Failed? {
      LoopTradesReturned(cfg, bars, st.trades);
      if st.status.Running? {
        FlatEndsAtBalance(cfg, bars, signals, n);
        LiquidationKeeps(cfg, bars, st);
        var end := Liquidated(cfg, bars, st);
        if !end.status.Failed? && end.trades != st.trades {
          assert Returned(cfg, bars, end.trades[|st.trades|]);
        }
      }
    }
  }

  /** Conservation: the final balance is the initial balance plus the net PnL of every trade, and a
      run that was not terminated ends flat with equity equal to balance. Every trade is the round
      trip of two bars, charged for exactly the rollovers between them. */
  lemma {:induction false} RunConserves(cfg: RawConfig, bars: seq<FxBar>, signals: seq<Side>)
    requires RunResult(cfg, bars, signals).Ok?
    ensures var r := RunResult(cfg, bars, signals).value;
            Conserved(cfg, r) && forall k :: 0 <= k < |r.trades| ==> Returned(cfg, bars, r.trades[k])
  {
    FinishKeeps(cfg, bars, signals);
  }

  /** While the run is flat, the last point of the curve is the balance. */
  lemma {:induction false} FlatEndsAtBalance(cfg: RawConfig, bars: seq<FxBar>, signals: seq<Side>, n: nat)
    requires 0 < n <= |bars| == |signals|
    ensures var st := AfterBars(cfg, bars, signals, n);
            st.status.Running? && st.position.None? ==> |st.curve| > 0 && st.curve[|st.curve| - 1].equity == st.balance
  {
    CurveGrows(cfg, bars, signals, n);
    MarkIsLast(cfg, bars, TargetAt(signals, n - 1), n - 1, AfterBars(cfg, bars, signals, n - 1));
  }

  lemma MarkIsLast(cfg: RawConfig, bars: seq<FxBar>, target: Side, i: nat, st: LoopState)
    requires i < |bars|
    ensures var st' := StepBar(cfg, bars, target, i, st);
            st.status.Running? && st'.status.Running? && st'.position.None? ==>
              |st'.curve| > 0 && st'.curve[|st'.curve| - 1].equity == st'.balance
  {
  }

  // ------------------------------------------------------------------ what each cost term is

  lemma Factor(a: real, b: real, exposure: real)
    ensures MovePnl(a, exposure) - MovePnl(b, exposure) == MovePnl(a - b, exposure)
  {
  }

  lemma LongCosts(open: real, close: real, entry: real, s: real, exposure: real)
    ensures MovePnl(close - open, exposure) - MovePnl(close - (open + entry), exposure) == MovePnl(entry, exposure)
    ensures MovePnl(close - (open + entry), exposure) - MovePnl((close - s) - ((open + entry) + s), exposure) ==
            MovePnl(2.0 * s, exposure)
  {
    Factor(close - open, close - (open + entry), exposure);
    Factor(close - (open + entry), (close - s) - ((open + entry) + s), exposure);
    hide MovePnl;
    assert (close - open) - (close - (open + entry)) == entry;
    assert (close - (open + entry)) - ((close - s) - ((open + entry) + s)) == 2.0 * s;
  }

  /** The quotes and the execution prices: what a buy pays and a sell gets, one slippage worse than the quote. */
  predicate PricesExact(cfg: RawConfig, bars: seq<FxBar>, t: Trade, i: int, j: int)
    requires 0 <= i <= j < |bars|
  {
    var slip := SlippagePoints(cfg.slippage) * cfg.point;
    && t.entryBid == bars[i].open && t.entryAsk == bars[i].open + SpreadPoints(bars[i].spread) * cfg.point
    && t.exitBid == bars[j].open && t.exitAsk == bars[j].open + SpreadPoints(bars[j].spread) * cfg.point
    && (t.side == Long ==> t.entryPrice == t.entryAsk + slip && t.exitPrice == t.exitBid - slip)
    && (t.side == Short ==> t.entryPrice == t.entryBid - slip && t.exitPrice == t.exitAsk + slip)
  }

  lemma TradePrices(cfg: RawConfig, bars: seq<FxBar>, t: Trade, i: int, j: int)
    requires RoundTrip(cfg, bars, t, i, j)
    ensures PricesExact(cfg, bars, t, i, j)
    ensures SameCurrency(cfg) && cfg.point > 0.0 && cfg.contractSize > 0.0
  {
    hide SwapOver, GrossPnl, CostForSide;
  }

  /** Both sides' commission: nothing, the rate for each of the two sides, or the rate for the round turn. */
  predicate CommissionExact(model: CommissionModel, lots: real, commission: real) {
    match model
    case NoCommission => commission == 0.0
    case PerLotPerSide(rate) => commission == 2.0 * (rate * lots)
    case PerLotRoundTurn(rate) => commission == rate * lots
  }

  /** The cost decomposition of one round trip, in closed form: a LONG pays the entry spread, a SHORT
      the exit spread, both pay two adverse slippages, and the net PnL is the execution PnL less
      commission and financing. */
  predicate CostsExact(cfg: RawConfig, bars: seq<FxBar>, t: Trade, i: int, j: int)
    requires 0 <= i <= j < |bars|
  {
    var paid := if t.side == Long then bars[i].spread else bars[j].spread;
    && t.spreadCost == MovePnl(InPrice(SpreadPoints(paid), cfg.point), Exposure(cfg))
    && t.slippageCost == MovePnl(2.0 * InPrice(SlippagePoints(cfg.slippage), cfg.point), Exposure(cfg))
    && CommissionExact(cfg.commission, cfg.lots, t.commissionCost)
    && t.netPnl == GrossPnl(cfg, t.side, t.entryPrice, t.exitPrice) - t.commissionCost - t.swapCost
    && t.grossPnl == GrossPnl(cfg, t.side, bars[i].open, bars[j].open)
    && t.swapCost == SwapOver(cfg, t.side, t.openTime, t.closeTime)
    && t.openTime == bars[i].time && t.closeTime == bars[j].time
    && t.barsHeld == (if i < j then j - i else 1)
  }

  lemma TradeCosts(cfg: RawConfig, bars: seq<FxBar>, t: Trade, i: int, j: int)
    requires RoundTrip(cfg, bars, t, i, j)
    ensures CostsExact(cfg, bars, t, i, j)
  {
    hide MovePnl, InPrice, Exposure, SwapOver;
    var s, exposure := InPrice(SlippagePoints(cfg.slippage), cfg.point), Exposure(cfg);
    if t.side == Long {
      LongCosts(bars[i].open, bars[j].open, InPrice(SpreadPoints(bars[i].spread), cfg.point), s, exposure);
    } else {
      // A short is a long in the opposite direction: it pays the exit spread on its buy.
      LongCosts(bars[j].open, bars[i].open, InPrice(SpreadPoints(bars[j].spread), cfg.point), s, exposure);
    }
  }

  lemma SlippedExit(side: Side, entry: real, price: real, s: real, exposure: real)
    ensures MovePnl(if side == Long then price - entry else entry - price, exposure) ==
            MovePnl(if side == Long then (price - s) - entry else entry - (price + s), exposure) + MovePnl(s, exposure)
  {
    if side == Long {
      Factor(price - entry, (price - s) - entry, exposure);
    } else {
      Factor(entry - price, entry - (price + s), exposure);
    }
  }

  /** The mark is a liquidation value: what closing at that price would book, before the exit slippage
      and the commissions. */
  lemma MarkIsLiquidationValue(cfg: RawConfig, p: Position, bar: RawBar, held: int, swap: real)
    requires SameCurrency(cfg) && p.side != Flat
    ensures UnrealizedPnl(cfg, p, bar).value - swap ==
            ClosePosition(cfg, p, bar.(open := bar.close), held, swap).value.netPnl
            + MovePnl(InPrice(SlippagePoints(cfg.slippage), cfg.point), Exposure(cfg))
            + CostForSide(cfg.commission, cfg.lots) + CostForSide(cfg.commission, cfg.lots)
  {
    hide MovePnl, InPrice, Exposure;
    var quote := ReconstructBidAsk(bar.close, bar.spread, cfg.point);
    SlippedExit(p.side, p.entryPrice, if p.side == Long then quote.bid else quote.ask,
                InPrice(SlippagePoints(cfg.slippage), cfg.point), Exposure(cfg));
  }

  /** No cost is negative. */
  lemma CostsAreCosts(cfg: FxConfig, bars: seq<FxBar>, t: Trade, i: int, j: int)
    requires RoundTrip(cfg, bars, t, i, j)
    ensures t.spreadCost >= 0.0 && t.slippageCost >= 0.0 && t.commissionCost >= 0.0
  {
    TradeCosts(cfg, bars, t, i, j);
    var paid := if t.side == Long then bars[i].spread else bars[j].spread;
    NonNegative(cfg.lots, cfg.contractSize);
    NonNegative(SpreadPoints(paid), cfg.point);
    NonNegative(SlippagePoints(cfg.slippage), cfg.point);
    NonNegative(InPrice(SpreadPoints(paid), cfg.point), Exposure(cfg));
    NonNegative(2.0 * InPrice(SlippagePoints(cfg.slippage), cfg.point), Exposure(cfg));
    if !cfg.commission.NoCommission? { NonNegative(cfg.commission.ratePerLot, cfg.lots); }
    hide SwapOver;
  }

  lemma NonNegative(a: real, b: real)
    requires a >= 0.0 && b >= 0.0
    ensures a * b >= 0.0
  {
  }
}
