/** What a long/flat backtest holds, when and for how much, said from the inputs alone: one trade for each
    block of bars that want a position, paid for and charged as configured, and the account's worth at
    every bar. */
module LongFlatSchedule {
  import opened Common
  import opened LongFlat
  import opened LongFlatTheorems
  import opened Segments

  /** The bars that want a position: those of the evaluated period whose previous signal is LONG. */
  function Wants(signals: seq<int>, start: int): seq<bool> {
    seq(|signals|, k requires 0 <= k < |signals| => k >= 1 && k >= start && signals[k - 1] == LONG)
  }

  datatype Holding = Holding(price: real, notional: real, fee: real, size: real)

  /** What is held after entering at a price with so much cash: the configured fraction of it is committed,
      the fee comes out of that, and the rest buys at the price plus slippage. */
  function HoldingOf(cfg: Config, open: real, cash: real): Holding
    requires open > 0.0
  {
    FillIsPositive(cfg, open);
    var notional, price := cash * cfg.fraction, open * (1.0 + cfg.slippage);
    Holding(price, notional, notional * cfg.fee, (notional - notional * cfg.fee) / price)
  }

  lemma FillIsPositive(cfg: Config, open: real)
    requires open > 0.0
    ensures open * (1.0 + cfg.slippage) > 0.0
  {
    BuyFillPositive(open, cfg.slippage);
  }

  /** The whole trade: entered at a bar's open with so much cash, sold at a price less slippage, less the fee. */
  function TradeFor(cfg: Config, entry: Bar, cash: real, exitTime: int, exitPrice: real): Trade
    requires entry.open > 0.0
  {
    var h, sold := HoldingOf(cfg, entry.open, cash), exitPrice * (1.0 - cfg.slippage);
    var exitFee := h.size * sold * cfg.fee;
    Trade(entry.time, h.price, exitTime, sold, h.size, h.notional, (sold - h.price) * h.size, h.fee, exitFee,
          h.size * sold - exitFee - h.notional)
  }

  /** t is the trade of the block g, entered at its first bar's open with all that was made before, and left at
      the open of the bar after it. */
  predicate TradeOf(cfg: Config, bars: seq<Bar>, t: Trade, made: real, g: Segment) {
    && g.from < g.until < |bars| && bars[g.from].open > 0.0
    && t == TradeFor(cfg, bars[g.from], cfg.capital + made, bars[g.until].time, bars[g.until].open)
  }

  /** One trade for each block, in order. */
  predicate TradesOf(cfg: Config, bars: seq<Bar>, trades: seq<Trade>, segs: seq<Segment>) {
    |trades| == |segs| && forall k :: 0 <= k < |trades| ==> TradeOf(cfg, bars, trades[k], SumNet(trades[..k]), segs[k])
  }

  /** After n bars: every block that ended is a trade, and what is held is what the last bar wants. */
  ghost predicate Follows(cfg: Config, bars: seq<Bar>, wants: seq<bool>, st: State, n: nat)
    requires n <= |bars| == |wants|
  {
    && TradesOf(cfg, bars, st.trades, Segs(wants, false, n))
    && (st.long <==> n > 0 && wants[n - 1])
    && (if st.long then HoldsBlock(cfg, bars, wants, st, n)
        else st.size == 0.0 && st.cash == cfg.capital + SumNet(st.trades))
  }

  ghost predicate HoldsBlock(cfg: Config, bars: seq<Bar>, wants: seq<bool>, st: State, n: nat)
    requires 0 < n <= |bars| == |wants|
  {
    var entry, cash := bars[StartOf(wants, n)], cfg.capital + SumNet(st.trades);
    && entry.open > 0.0 && st.entryTime == entry.time && st.cash == cash - st.entryNotional
    && Holding(st.entryPrice, st.entryNotional, st.entryFee, st.size) == HoldingOf(cfg, entry.open, cash)
  }

  lemma {:induction false} OneMoreTrade(cfg: Config, bars: seq<Bar>, trades: seq<Trade>, segs: seq<Segment>, t: Trade,
                                        g: Segment)
    requires TradesOf(cfg, bars, trades, segs) && TradeOf(cfg, bars, t, SumNet(trades), g)
    ensures TradesOf(cfg, bars, trades + [t], segs + [g])
  {
    hide TradeOf;
    forall k | 0 <= k <= |trades| ensures (trades + [t])[..k] == trades[..k] {
    }
    assert trades[..|trades|] == trades;
  }

  lemma {:induction false} ExitIsTrade(cfg: Config, entry: Bar, cash: real, time: int, price: real, st: State)
    requires entry.open > 0.0 && st.entryTime == entry.time && st.cash == cash - st.entryNotional
    requires Holding(st.entryPrice, st.entryNotional, st.entryFee, st.size) == HoldingOf(cfg, entry.open, cash)
    ensures ClosedTrade(cfg, time, price, st) == TradeFor(cfg, entry, cash, time, price)
    ensures Exited(cfg, time, price, st).cash == cash + TradeFor(cfg, entry, cash, time, price).netPnl
  {
    hide HoldingOf;
  }

  lemma {:induction false} LeavingFollows(cfg: Config, bars: seq<Bar>, wants: seq<bool>, i: nat, st: State)
    requires i < |bars| == |wants| && ValidOhlcv(bars) && Follows(cfg, bars, wants, st, i) && st.long && !wants[i]
    ensures Follows(cfg, bars, wants, Exited(cfg, bars[i].time, bars[i].open, st), i + 1)
  {
    var entry, cash := bars[StartOf(wants, i)], cfg.capital + SumNet(st.trades);
    var t := TradeFor(cfg, entry, cash, bars[i].time, bars[i].open);
    ExitIsTrade(cfg, entry, cash, bars[i].time, bars[i].open, st);
    OneMoreTrade(cfg, bars, st.trades, Segs(wants, false, i), t, Segment(StartOf(wants, i), i));
    SumNetAppend(st.trades, t);
    hide TradeFor, HoldingOf, TradesOf, NetProceeds, ClosedTrade;
  }

  lemma {:induction false} EnteringFollows(cfg: Config, bars: seq<Bar>, wants: seq<bool>, i: nat, st: State)
    requires i < |bars| == |wants| && ValidOhlcv(bars) && Follows(cfg, bars, wants, st, i) && !st.long && wants[i]
    ensures Follows(cfg, bars, wants, Entered(cfg, bars[i].time, bars[i].open, st), i + 1)
  {
    assert ValidBar(bars[i]);
    EntryIsHolding(cfg, bars[i], st);
    hide TradesOf, Entered, HoldingOf;
  }

  lemma {:induction false} RebalanceFollows(cfg: Config, bars: seq<Bar>, wants: seq<bool>, i: nat, st: State)
    requires i < |bars| == |wants| && ValidOhlcv(bars) && !wants[0] && Follows(cfg, bars, wants, st, i)
    ensures Follows(cfg, bars, wants, Rebalance(cfg, bars[i], wants[i], st), i + 1)
  {
    if st.long && !wants[i] {
      LeavingFollows(cfg, bars, wants, i, st);
    } else if !st.long && wants[i] {
      EnteringFollows(cfg, bars, wants, i, st);
    }
    hide TradesOf, Entered, Exited, HoldingOf;
  }

  lemma {:induction false} MarkFollows(cfg: Config, bars: seq<Bar>, wants: seq<bool>, bar: Bar, st: State, n: nat)
    requires n <= |bars| == |wants| && Follows(cfg, bars, wants, st, n)
    ensures Follows(cfg, bars, wants, Mark(bar, st), n)
  {
    hide TradesOf, HoldingOf;
  }

  lemma {:induction false} EntryIsHolding(cfg: Config, bar: Bar, st: State)
    requires ValidBar(bar)
    ensures var st' := Entered(cfg, bar.time, bar.open, st);
            && st'.long && st'.entryTime == bar.time && st'.cash == st.cash - st'.entryNotional
            && st'.trades == st.trades && st'.curve == st.curve
            && Holding(st'.entryPrice, st'.entryNotional, st'.entryFee, st'.size) == HoldingOf(cfg, bar.open, st.cash)
  {
    BuyFillPositive(bar.open, cfg.slippage);
    var h := HoldingOf(cfg, bar.open, st.cash);
    var fill, notional := BuyFill(bar.open, cfg.slippage), Part(st.cash, cfg.fraction);
    assert h.price == fill && h.notional == notional;
    assert h.fee == Part(notional, cfg.fee);
    assert h.size == Bought(notional - Part(notional, cfg.fee), fill);
    hide HoldingOf, Part, BuyFill, Bought;
  }

  lemma {:induction false} RunFollows(cfg: Config, bars: seq<Bar>, signals: seq<int>, start: nat, n: nat)
    requires n <= |bars| == |signals| && ValidOhlcv(bars)
    ensures Follows(cfg, bars, Wants(signals, start), After(cfg, bars, signals, start, n), n)
  {
    hide Rebalance, Follows, Mark;
    var wants := Wants(signals, start);
    if n == 0 {
      StartFollows(cfg, bars, wants);
    } else {
      var st := After(cfg, bars, signals, start, n - 1);
      RunFollows(cfg, bars, signals, start, n - 1);
      RebalanceFollows(cfg, bars, wants, n - 1, st);
      MarkFollows(cfg, bars, wants, bars[n - 1], Rebalance(cfg, bars[n - 1], wants[n - 1], st), n);
    }
  }

  lemma {:induction false} StartFollows(cfg: Config, bars: seq<Bar>, wants: seq<bool>)
    requires |bars| == |wants|
    ensures Follows(cfg, bars, wants, Start(cfg), 0)
  {
  }

  /** The forced close is a trade as well, of the block at the end of the data, at the last close. */
  lemma {:induction false} SettledIsTrade(cfg: Config, bars: seq<Bar>, wants: seq<bool>, st: State)
    requires 0 < |bars| == |wants| && |st.curve| > 0 && Follows(cfg, bars, wants, st, |bars|) && st.long
    ensures var entry, last := bars[StartOf(wants, |bars|)], bars[|bars| - 1];
            entry.open > 0.0 && Settled(cfg, last, st).trades ==
              st.trades + [TradeFor(cfg, entry, cfg.capital + SumNet(st.trades), last.time, last.close)]
  {
    var entry, last := bars[StartOf(wants, |bars|)], bars[|bars| - 1];
    ExitIsTrade(cfg, entry, cfg.capital + SumNet(st.trades), last.time, last.close, st);
    hide TradeFor, HoldingOf, TradesOf, NetProceeds, ClosedTrade;
  }

  /** A run trades exactly the blocks of bars that want a position, in order: each is one trade, entered at its
      first bar's open and left at the open of the bar after it, or at the last close if the data end first. */
  lemma {:induction false} TradesAreBlocks(cfg: Config, bars: seq<Bar>, signals: seq<int>, start: int)
    requires RunResult(cfg, bars, signals, start).Ok?
    ensures var trades, wants, n := RunResult(cfg, bars, signals, start).value.trades, Wants(signals, start), |bars|;
            var segs := Segs(wants, false, n);
            && |trades| == (if wants[n - 1] then |segs| + 1 else |segs|)
            && TradesOf(cfg, bars, trades[..|segs|], segs)
            && (wants[n - 1] ==>
                  && bars[StartOf(wants, n)].open > 0.0
                  && trades[|segs|] == TradeFor(cfg, bars[StartOf(wants, n)], cfg.capital + SumNet(trades[..|segs|]),
                                                bars[n - 1].time, bars[n - 1].close))
  {
    hide Step, TradeOf, TradeFor, Settled, HoldsBlock;
    var wants, n := Wants(signals, start), |bars|;
    var st := After(cfg, bars, signals, start, n);
    RunFollows(cfg, bars, signals, start, n);
    CurvePerBar(cfg, bars, signals, start, n);
    if st.long {
      SettledIsTrade(cfg, bars, wants, st);
    } else {
      assert Settled(cfg, bars[n - 1], st) == st by { FlatIsSettled(cfg, bars[n - 1], st); }
    }
    assert RunResult(cfg, bars, signals, start).value.trades[..|st.trades|] == st.trades;
  }

  lemma {:induction false} FlatIsSettled(cfg: Config, last: Bar, st: State)
    requires |st.curve| > 0 && !st.long
    ensures Settled(cfg, last, st) == st
  {
  }

  // ------------------------------------------------------------------ the curve

  /** A point of the curve: flat, the account is worth its cash; long, the cash that was not committed and the
      position at that bar's close. */
  ghost predicate PointOf(cfg: Config, bars: seq<Bar>, wants: seq<bool>, k: nat, cash: real, point: EquityPoint)
    requires k < |bars| == |wants|
  {
    && point.time == bars[k].time && point.position == (if wants[k] then LONG else FLAT)
    && if !wants[k] then point.equity == cash
       else
         var entry := bars[StartOf(wants, k + 1)];
         entry.open > 0.0 &&
         var h := HoldingOf(cfg, entry.open, cash); point.equity == cash - h.notional + h.size * bars[k].close
  }

  lemma {:induction false} LastPoint(cfg: Config, bars: seq<Bar>, signals: seq<int>, start: nat, k: nat)
    requires k < |bars| == |signals| && ValidOhlcv(bars)
    ensures var st := After(cfg, bars, signals, start, k + 1);
            |st.curve| == k + 1 && st.curve[k].time == bars[k].time &&
            PointOf(cfg, bars, Wants(signals, start), k, cfg.capital + SumNet(st.trades), st.curve[k])
  {
    hide Rebalance, TradesOf, HoldingOf;
    RunFollows(cfg, bars, signals, start, k + 1);
    CurvePerBar(cfg, bars, signals, start, k + 1);
  }

  lemma {:induction false} RunExtends(cfg: Config, bars: seq<Bar>, signals: seq<int>, start: int, n: nat, m: nat)
    requires n <= m <= |bars| == |signals| && ValidOhlcv(bars)
    ensures var st, st' := After(cfg, bars, signals, start, n), After(cfg, bars, signals, start, m);
            st.curve <= st'.curve && st.trades <= st'.trades
    decreases m - n
  {
    if n < m {
      RunExtends(cfg, bars, signals, start, n, m - 1);
      hide Entered, NetProceeds, ClosedTrade;
    }
  }

  /** The equity curve from the inputs: each point's position is what its bar wants, and its equity what the
      trades made by then and the position are worth; the point of a forced close is what all trades made. */
  lemma {:induction false} CurveIsWorth(cfg: Config, bars: seq<Bar>, signals: seq<int>, start: int, k: nat)
    requires RunResult(cfg, bars, signals, start).Ok? && start <= k < |bars|
    ensures var r, wants := RunResult(cfg, bars, signals, start).value, Wants(signals, start);
            var closed := |Segs(wants, false, k + 1)|;
            && |r.curve| == |bars| - start && closed <= |r.trades|
            && (k + 1 < |bars| || !wants[k] ==>
                  PointOf(cfg, bars, wants, k, cfg.capital + SumNet(r.trades[..closed]), r.curve[k - start]))
            && (k + 1 == |bars| && wants[k] ==>
                  r.curve[k - start] == EquityPoint(bars[k].time, cfg.capital + SumNet(r.trades), FLAT))
            && (k + 1 == |bars| ==> r.initialCapital == cfg.capital && r.finalEquity == r.curve[k - start].equity)
  {
    var n, wants := |bars|, Wants(signals, start);
    ResultParts(cfg, bars, signals, start, k);
    PointRecorded(cfg, bars, signals, start, k);
    EndsWanted(cfg, bars, signals, start, n);
    BooksAddUp(cfg, bars, signals, start);
    hide After, Ended, PointOf, Wants, SumNet, TradeOk;
  }

  lemma {:induction false} PointRecorded(cfg: Config, bars: seq<Bar>, signals: seq<int>, start: nat, k: nat)
    requires k < |bars| == |signals| && ValidOhlcv(bars)
    ensures var st, wants := After(cfg, bars, signals, start, |bars|), Wants(signals, start);
            var closed := |Segs(wants, false, k + 1)|;
            && |st.curve| == |bars| && closed <= |st.trades| && st.curve[k].time == bars[k].time
            && forall trades :: st.trades <= trades ==>
                 PointOf(cfg, bars, wants, k, cfg.capital + SumNet(trades[..closed]), st.curve[k])
  {
    hide Step, PointOf;
    LastPoint(cfg, bars, signals, start, k);
    RunExtends(cfg, bars, signals, start, k + 1, |bars|);
    EndsWanted(cfg, bars, signals, start, k + 1);
    CurvePerBar(cfg, bars, signals, start, |bars|);
    var st := After(cfg, bars, signals, start, k + 1);
    hide After;
    forall trades | st.trades <= trades ensures trades[..|st.trades|] == st.trades {
    }
  }

  lemma {:induction false} EndsWanted(cfg: Config, bars: seq<Bar>, signals: seq<int>, start: nat, n: nat)
    requires 0 < n <= |bars| == |signals| && ValidOhlcv(bars)
    ensures var st := After(cfg, bars, signals, start, n);
            |st.trades| == |Segs(Wants(signals, start), false, n)| && (st.long <==> Wants(signals, start)[n - 1])
  {
    hide After, TradeOf, HoldsBlock;
    RunFollows(cfg, bars, signals, start, n);
  }

  /** What the state after the last bar has to do with the result. */
  lemma {:induction false} ResultParts(cfg: Config, bars: seq<Bar>, signals: seq<int>, start: int, k: nat)
    requires RunResult(cfg, bars, signals, start).Ok? && start <= k < |bars|
    ensures var st, r := After(cfg, bars, signals, start, |bars|), RunResult(cfg, bars, signals, start).value;
            && |st.curve| == |bars| && |r.curve| == |bars| - start && st.trades <= r.trades
            && (k + 1 < |bars| || !st.long ==> r.curve[k - start] == st.curve[k])
            && (k + 1 == |bars| ==> r.initialCapital == cfg.capital && r.finalEquity == r.curve[k - start].equity)
            && (k + 1 == |bars| && st.long ==>
                  r.curve[k - start] == EquityPoint(st.curve[k].time, r.finalEquity, FLAT))
  {
    CurvePerBar(cfg, bars, signals, start, |bars|);
    hide Step, ClosedTrade, NetProceeds;
  }
}
