/** The long/flat backtest engine: a signal known at one bar's close is executed at the next bar's
    open, fully paid from cash, and an open position is force-closed at the last close. */
module LongFlat {
  import opened Common

  const FLAT := 0
  const LONG := 1

  datatype Bar = Bar(time: int, open: real, high: real, low: real, close: real, volume: real)

  /** Fee, slippage and position size are fractions. The engine itself checks none of them; a slippage
      of -1 would make it divide by zero. */
  datatype RawConfig = RawConfig(capital: real, fee: real, slippage: real, fraction: real)

  type Config = c: RawConfig | c.slippage > -1.0 witness RawConfig(10000.0, 0.001, 0.0002, 1.0)

  datatype EngineError = EmptyData | BadBars | SignalLength | BadSignal | TooFewBars | BadStart | WarmupTrade

  predicate ValidBar(b: Bar) {
    && b.open > 0.0 && b.high > 0.0 && b.low > 0.0 && b.close > 0.0 && b.volume >= 0.0
    && b.high >= b.open && b.high >= b.close && b.high >= b.low && b.low <= b.open && b.low <= b.close
  }

  predicate Increasing(bars: seq<Bar>) {
    forall i :: 0 < i < |bars| ==> bars[i - 1].time < bars[i].time
  }

  predicate ValidOhlcv(bars: seq<Bar>) {
    Increasing(bars) && forall i :: 0 <= i < |bars| ==> ValidBar(bars[i])
  }

  predicate ValidSignals(signals: seq<int>) {
    forall i :: 0 <= i < |signals| ==> signals[i] == FLAT || signals[i] == LONG
  }

  datatype Trade = Trade(
    entryTime: int, entryPrice: real, exitTime: int, exitPrice: real, sizeBase: real, entryNotional: real,
    grossPnl: real, entryFee: real, exitFee: real, netPnl: real)

  datatype EquityPoint = EquityPoint(time: int, equity: real, position: int)

  datatype State = State(
    cash: real, long: bool, size: real, entryPrice: real, entryTime: int, entryNotional: real, entryFee: real,
    curve: seq<EquityPoint>, trades: seq<Trade>)

  function Start(cfg: Config): State {
    State(cfg.capital, false, 0.0, 0.0, 0, 0.0, 0.0, [], [])
  }

  function Part(amount: real, share: real): real {
    amount * share
  }

  /** A buy fills above the price by the slippage, a sell below it. */
  function BuyFill(price: real, slippage: real): real {
    price * (1.0 + slippage)
  }

  function SellFill(price: real, slippage: real): real {
    price * (1.0 - slippage)
  }

  function Bought(paid: real, fill: real): real
    requires fill != 0.0
  {
    paid / fill
  }

  lemma BuyFillPositive(price: real, slippage: real)
    requires price > 0.0 && slippage > -1.0
    ensures BuyFill(price, slippage) > 0.0
  {
  }

  /** Commit a fraction of the cash at one price; the fee comes out of the amount committed. */
  function Entered(cfg: Config, time: int, price: real, st: State): State
    requires price > 0.0
  {
    BuyFillPositive(price, cfg.slippage);
    var fill := BuyFill(price, cfg.slippage);
    var notional := Part(st.cash, cfg.fraction);
    var fee := Part(notional, cfg.fee);
    st.(cash := st.cash - notional, long := true, size := Bought(notional - fee, fill), entryPrice := fill,
        entryTime := time,
        entryNotional := notional, entryFee := fee)
  }

  function ClosedTrade(cfg: Config, time: int, price: real, st: State): Trade {
    var fill := SellFill(price, cfg.slippage);
    var proceeds := Part(st.size, fill);
    var fee := Part(proceeds, cfg.fee);
    Trade(st.entryTime, st.entryPrice, time, fill, st.size, st.entryNotional,
          Part(fill - st.entryPrice, st.size), st.entryFee, fee, (proceeds - fee) - st.entryNotional)
  }

  function NetProceeds(cfg: Config, price: real, size: real): real {
    var proceeds := Part(size, SellFill(price, cfg.slippage));
    proceeds - Part(proceeds, cfg.fee)
  }

  function Exited(cfg: Config, time: int, price: real, st: State): State {
    State(st.cash + NetProceeds(cfg, price, st.size), false, 0.0, 0.0, 0, 0.0, 0.0, st.curve,
          st.trades + [ClosedTrade(cfg, time, price, st)])
  }

  function Rebalance(cfg: Config, bar: Bar, wantLong: bool, st: State): State
    requires ValidBar(bar)
  {
    if !st.long && wantLong then Entered(cfg, bar.time, bar.open, st)
    else if st.long && !wantLong then Exited(cfg, bar.time, bar.open, st)
    else st
  }

  function Mark(bar: Bar, st: State): State {
    st.(curve := st.curve + [EquityPoint(bar.time, st.cash + if st.long then Part(st.size, bar.close) else 0.0,
                                         if st.long then LONG else FLAT)])
  }

  function Step(cfg: Config, bar: Bar, wantLong: bool, st: State): State
    requires ValidBar(bar)
  {
    Mark(bar, Rebalance(cfg, bar, wantLong, st))
  }

  /** The shifted signal, forced flat during warm-up. */
  predicate WantLong(signals: seq<int>, start: int, i: nat)
    requires i <= |signals|
  {
    i > 0 && signals[i - 1] == LONG && i >= start
  }

  function After(cfg: Config, bars: seq<Bar>, signals: seq<int>, start: int, n: nat): State
    requires n <= |bars| == |signals| && ValidOhlcv(bars)
  {
    if n == 0 then Start(cfg)
    else Step(cfg, bars[n - 1], WantLong(signals, start, n - 1), After(cfg, bars, signals, start, n - 1))
  }

  /** A position still open at the end is closed at the last close, which replaces the last point. */
  function Settled(cfg: Config, last: Bar, st: State): State
    requires |st.curve| > 0
  {
    if !st.long then st
    else
      var closed := Exited(cfg, last.time, last.close, st);
      var end := |st.curve| - 1;
      closed.(curve := st.curve[..end] + [st.curve[end].(equity := closed.cash, position := FLAT)])
  }

  datatype BacktestResult = BacktestResult(
    curve: seq<EquityPoint>, trades: seq<Trade>, initialCapital: real, finalEquity: real)

  lemma {:induction false} CurvePerBar(cfg: Config, bars: seq<Bar>, signals: seq<int>, start: int, n: nat)
    requires n <= |bars| == |signals| && ValidOhlcv(bars)
    ensures |After(cfg, bars, signals, start, n).curve| == n
  {
    if n > 0 { CurvePerBar(cfg, bars, signals, start, n - 1); }
  }

  function Ended(cfg: Config, bars: seq<Bar>, signals: seq<int>, start: int): (end: State)
    requires |bars| == |signals| && |bars| >= 2 && ValidOhlcv(bars)
    ensures |end.curve| == |bars|
  {
    CurvePerBar(cfg, bars, signals, start, |bars|);
    Settled(cfg, bars[|bars| - 1], After(cfg, bars, signals, start, |bars|))
  }

  /** What run returns. */
  function RunResult(cfg: Config, bars: seq<Bar>, signals: seq<int>, start: int): Result<BacktestResult, EngineError> {
    if |bars| == 0 then Err(EmptyData)
    else if !ValidOhlcv(bars) then Err(BadBars)
    else if |signals| != |bars| then Err(SignalLength)
    else if !ValidSignals(signals) then Err(BadSignal)
    else if |bars| < 2 then Err(TooFewBars)
    else if !(0 <= start < |bars|) then Err(BadStart)
    else
      var end := Ended(cfg, bars, signals, start);
      Ok(BacktestResult(end.curve[start..], end.trades, cfg.capital, end.curve[|bars| - 1].equity))
  }

  // ------------------------------------------------------------------ the program

  /** The structural checks made before anything is simulated. */
  method ValidateOhlcv(bars: seq<Bar>) returns (ok: bool)
    ensures ok <==> ValidOhlcv(bars)
  {
    for i := 0 to |bars|
      invariant forall k :: 0 <= k < i ==> ValidBar(bars[k])
      invariant forall k :: 0 < k < i ==> bars[k - 1].time < bars[k].time
    {
      if !ValidBar(bars[i]) || (i > 0 && bars[i].time <= bars[i - 1].time) {
        return false;
      }
    }
    ok := true;
  }

  lemma {:induction false} StartBefore(bars: seq<Bar>, i: nat, j: nat)
    requires Increasing(bars) && i <= j < |bars|
    ensures bars[i].time <= bars[j].time
    decreases j - i
  {
    if i < j { StartBefore(bars, i, j - 1); }
  }

  method ValidateRun(ghost cfg: Config, bars: seq<Bar>, signals: seq<int>, evaluationStart: int)
    returns (error: Option<EngineError>)
    ensures RunResult(cfg, bars, signals, evaluationStart).Err? <==> error.Some?
    ensures error.Some? ==> RunResult(cfg, bars, signals, evaluationStart) == Err(error.value)
  {
    if |bars| == 0 {
      return Some(EmptyData);
    }
    var valid := ValidateOhlcv(bars);
    if !valid {
      return Some(BadBars);
    }
    if |signals| != |bars| {
      return Some(SignalLength);
    }
    if exists k :: 0 <= k < |signals| && signals[k] != FLAT && signals[k] != LONG {
      return Some(BadSignal);
    }
    if |bars| < 2 {
      return Some(TooFewBars);
    }
    error := if 0 <= evaluationStart < |bars| then None else Some(BadStart);
  }

  /** The engine at work: the local variables of its loop are fields. */
  class Backtest {
    const cfg: Config
    var cash: real
    var long: bool
    var sizeBase: real
    var entryPrice: real
    var entryTime: int
    var entryNotional: real
    var entryFee: real
    var curve: seq<EquityPoint>
    var trades: seq<Trade>

    constructor (cfg: Config)
      ensures this.cfg == cfg && View() == Start(cfg)
    {
      this.cfg := cfg;
      cash, long, sizeBase := cfg.capital, false, 0.0;
      entryPrice, entryTime, entryNotional, entryFee := 0.0, 0, 0.0, 0.0;
      curve, trades := [], [];
    }

    function View(): State
      reads this
    {
      State(cash, long, sizeBase, entryPrice, entryTime, entryNotional, entryFee, curve, trades)
    }

    method Enter(time: int, price: real)
      requires price > 0.0
      modifies this
      ensures View() == Entered(cfg, time, price, old(View()))
    {
      BuyFillPositive(price, cfg.slippage);
      var fill := BuyFill(price, cfg.slippage);
      var notional := Part(cash, cfg.fraction);
      var fee := Part(notional, cfg.fee);
      sizeBase := Bought(notional - fee, fill);
      long, entryPrice, entryTime, entryNotional, entryFee := true, fill, time, notional, fee;
      cash := cash - notional;
    }

    method Exit(time: int, price: real)
      modifies this
      ensures View() == Exited(cfg, time, price, old(View()))
    {
      var fill := SellFill(price, cfg.slippage);
      var proceeds := Part(sizeBase, fill);
      var fee := Part(proceeds, cfg.fee);
      var netProceeds := proceeds - fee;
      trades := trades + [Trade(entryTime, entryPrice, time, fill, sizeBase, entryNotional,
                                Part(fill - entryPrice, sizeBase), entryFee, fee, netProceeds - entryNotional)];
      cash := cash + netProceeds;
      long, sizeBase, entryPrice, entryTime, entryNotional, entryFee := false, 0.0, 0.0, 0, 0.0, 0.0;
    }

    method ProcessBar(bar: Bar, wantLong: bool)
      requires ValidBar(bar)
      modifies this
      ensures View() == Step(cfg, bar, wantLong, old(View()))
    {
      if !long && wantLong {
        Enter(bar.time, bar.open);
      } else if long && !wantLong {
        Exit(bar.time, bar.open);
      }
      var positionValue := if long then Part(sizeBase, bar.close) else 0.0;
      curve := curve + [EquityPoint(bar.time, cash + positionValue, if long then LONG else FLAT)];
    }

    method ForceClose(last: Bar)
      requires |curve| > 0
      modifies this
      ensures View() == Settled(cfg, last, old(View()))
    {
      if long {
        Exit(last.time, last.close);
        var end := |curve| - 1;
        curve := curve[end := curve[end].(equity := cash, position := FLAT)];
      }
    }

    /** BacktestEngine.run. Its closing check that no trade was opened during warm-up can never fail. */
    method Run(bars: seq<Bar>, signals: seq<int>, evaluationStart: int)
      returns (result: Result<BacktestResult, EngineError>)
      requires View() == Start(cfg)
      modifies this
      ensures result == RunResult(cfg, bars, signals, evaluationStart)
      ensures result.Ok? <==> |bars| == |signals| && |bars| >= 2 && ValidOhlcv(bars) && ValidSignals(signals) &&
                              0 <= evaluationStart < |bars|
    {
      hide Step, Settled, ValidBar;
      var error := ValidateRun(cfg, bars, signals, evaluationStart);
      if error.Some? {
        return Err(error.value);
      }
      var targets := [FLAT] + signals[..|signals| - 1];
      for i := 0 to |bars|
        invariant View() == After(cfg, bars, signals, evaluationStart, i)
      {
        assert (targets[i] == LONG && i >= evaluationStart) == WantLong(signals, evaluationStart, i);
        ProcessBar(bars[i], targets[i] == LONG && i >= evaluationStart);
      }
      CurvePerBar(cfg, bars, signals, evaluationStart, |bars|);
      ForceClose(bars[|bars| - 1]);
      NoWarmupTrade(cfg, bars, signals, evaluationStart);
      if exists k :: 0 <= k < |trades| && trades[k].entryTime < bars[evaluationStart].time {
        return Err(WarmupTrade);
      }
      result := Ok(BacktestResult(curve[evaluationStart..], trades, cfg.capital, curve[|curve| - 1].equity));
    }
  }

  /** Every position and trade was entered in the evaluated period. */
  predicate EnteredSince(st: State, since: int) {
    (st.long ==> since <= st.entryTime) && forall k :: 0 <= k < |st.trades| ==> since <= st.trades[k].entryTime
  }

  lemma StepEnteredSince(cfg: Config, bar: Bar, wantLong: bool, st: State, since: int)
    requires ValidBar(bar) && EnteredSince(st, since) && (wantLong ==> since <= bar.time)
    ensures EnteredSince(Step(cfg, bar, wantLong, st), since)
  {
  }

  lemma {:induction false} RunEnteredSince(cfg: Config, bars: seq<Bar>, signals: seq<int>, start: nat, n: nat)
    requires n <= |bars| == |signals| && start < |bars| && ValidOhlcv(bars)
    ensures EnteredSince(After(cfg, bars, signals, start, n), bars[start].time)
  {
    hide Step;
    if n > 0 {
      RunEnteredSince(cfg, bars, signals, start, n - 1);
      if start < n { StartBefore(bars, start, n - 1); }
      StepEnteredSince(cfg, bars[n - 1], WantLong(signals, start, n - 1), After(cfg, bars, signals, start, n - 1),
                       bars[start].time);
    }
  }

  lemma {:induction false} NoWarmupTrade(cfg: Config, bars: seq<Bar>, signals: seq<int>, start: nat)
    requires |bars| == |signals| && |bars| >= 2 && start < |bars| && ValidOhlcv(bars)
    ensures EnteredSince(Ended(cfg, bars, signals, start), bars[start].time)
  {
    CurvePerBar(cfg, bars, signals, start, |bars|);
    RunEnteredSince(cfg, bars, signals, start, |bars|);
  }
}
