/** The FX backtest engine: a bar loop over one position at a time. A target known at one bar's close
    is executed at the next bar's open; the loop accrues rollover charges, flips by close-then-open,
    stops on insolvency if asked to, and liquidates at the last bar's open. */
module FxEngine {
  import opened Common
  import opened FxCosts

  datatype RawBar = RawBar(time: int, open: real, high: real, low: real, close: real, spread: Option<int>)

  /** A bar as its type guarantees it: positive prices, low and high around them, no negative spread. */
  predicate ValidBar(b: RawBar) {
    && 0.0 < b.low <= b.open <= b.high && b.low <= b.close <= b.high
    && (b.spread.Some? ==> 0 <= b.spread.value)
  }

  type FxBar = b: RawBar | ValidBar(b) witness RawBar(0, 1.0, 1.0, 1.0, 1.0, None)

  datatype RawConfig = RawConfig(
    lots: real, contractSize: real, point: real, volumeMin: real, volumeMax: real, volumeStep: real,
    currencyProfit: Option<string>, accountCurrency: Option<string>, initialBalance: real,
    commission: CommissionModel, slippage: SlippageModel, swap: SwapModel, rollover: Option<Hours>,
    terminateOnInsolvency: bool)

  predicate ValidModels(c: RawConfig) {
    && SlippagePoints(c.slippage) >= 0.0
    && (c.commission.NoCommission? || c.commission.ratePerLot >= 0.0)
    && (c.swap.SideAwareSwap? && c.swap.tripleSwapWeekday.Some? ==> 0 <= c.swap.tripleSwapWeekday.value <= 6)
  }

  /** Lots inside the symbol's limits and on its step grid, and cost models that exist. */
  predicate ValidConfig(c: RawConfig) {
    && 0.0 < c.lots && c.volumeMin <= c.lots <= c.volumeMax && c.volumeStep != 0.0
    && ((c.lots - c.volumeMin) / c.volumeStep).Floor as real == (c.lots - c.volumeMin) / c.volumeStep
    && ValidModels(c)
  }

  type FxConfig = c: RawConfig | ValidConfig(c)
    witness RawConfig(1.0, 1.0, 1.0, 1.0, 1.0, 1.0, None, None, 0.0, NoCommission, ZeroSlippage, NoSwap, None, false)

  datatype FxError = LengthMismatch | TooFewBars | BarsOutOfOrder | SwapRequired | UnsupportedCurrency | InvalidMetadata

  datatype Position = Position(
    side: Side, openTime: int, entryBid: real, entryAsk: real, entryPrice: real, entrySpread: Option<int>)

  datatype Trade = Trade(
    side: Side, openTime: int, closeTime: int, entryPrice: real, exitPrice: real,
    entryBid: real, entryAsk: real, exitBid: real, exitAsk: real,
    grossPnl: real, spreadCost: real, slippageCost: real, commissionCost: real, swapCost: real, netPnl: real,
    barsHeld: int)

  datatype EquityPoint = EquityPoint(time: int, equity: real, side: Side)

  // ------------------------------------------------------------------ prices

  datatype BidAsk = BidAsk(bid: real, ask: real)

  function SpreadPoints(spread: Option<int>): real {
    if spread.Some? then spread.value as real else 0.0
  }

  function ReconstructBidAsk(price: real, spread: Option<int>, point: real): BidAsk {
    BidAsk(price, price + InPrice(SpreadPoints(spread), point))
  }

  datatype Fill = Fill(bid: real, ask: real, price: real)

  predicate IsBuyDirection(side: Side, opening: bool) {
    if side == Long then opening else !opening
  }

  /** LONG opens at ask and closes at bid; SHORT opens at bid and closes at ask; slippage is adverse. */
  function ComputeFill(cfg: RawConfig, side: Side, opening: bool, bar: RawBar): Fill {
    var quote := ReconstructBidAsk(bar.open, bar.spread, cfg.point);
    var reference := if (side == Long) == opening then quote.ask else quote.bid;
    Fill(quote.bid, quote.ask, Slipped(cfg.slippage, reference, cfg.point, IsBuyDirection(side, opening)))
  }

  predicate SameCurrency(cfg: RawConfig) {
    cfg.currencyProfit.Some? && cfg.accountCurrency.Some? ==> cfg.currencyProfit == cfg.accountCurrency
  }

  /** Units of the base currency in one position. */
  function Exposure(cfg: RawConfig): real {
    cfg.lots * cfg.contractSize
  }

  function MovePnl(move: real, exposure: real): real {
    move * exposure
  }

  function GrossPnl(cfg: RawConfig, side: Side, entry: real, exit: real): real {
    MovePnl(if side == Long then exit - entry else entry - exit, Exposure(cfg))
  }

  // ------------------------------------------------------------------ one position's life

  function OpenPosition(cfg: RawConfig, side: Side, bar: RawBar): Result<Position, FxError> {
    if cfg.point <= 0.0 || cfg.contractSize <= 0.0 then Err(InvalidMetadata)
    else
      var fill := ComputeFill(cfg, side, true, bar);
      Ok(Position(side, bar.time, fill.bid, fill.ask, fill.price, bar.spread))
  }

  /** The closed trade: three PnL points along one price move, so that every cost is a difference. */
  function ClosePosition(cfg: RawConfig, p: Position, bar: RawBar, barsHeld: int,
                         swapCost: real): Result<Trade, FxError> {
    if !SameCurrency(cfg) then Err(UnsupportedCurrency)
    else
      var fill := ComputeFill(cfg, p.side, false, bar);
      var executionPnl := GrossPnl(cfg, p.side, p.entryPrice, fill.price);
      var entryQuote := ReconstructBidAsk(p.entryBid, p.entrySpread, cfg.point);
      var exitQuote := ReconstructBidAsk(fill.bid, bar.spread, cfg.point);
      var entrySpreadOnly := if p.side == Long then entryQuote.ask else entryQuote.bid;
      var exitSpreadOnly := if p.side == Long then exitQuote.bid else exitQuote.ask;
      var referencePnl := GrossPnl(cfg, p.side, p.entryBid, fill.bid);
      var spreadOnlyPnl := GrossPnl(cfg, p.side, entrySpreadOnly, exitSpreadOnly);
      var spreadCost := referencePnl - spreadOnlyPnl;
      var slippageCost := spreadOnlyPnl - executionPnl;
      var commissionCost := CostForSide(cfg.commission, cfg.lots) + CostForSide(cfg.commission, cfg.lots);
      Ok(Trade(p.side, p.openTime, bar.time, p.entryPrice, fill.price, p.entryBid, p.entryAsk, fill.bid, fill.ask,
               referencePnl, spreadCost, slippageCost, commissionCost, swapCost,
               referencePnl - spreadCost - slippageCost - commissionCost - swapCost,
               if barsHeld < 1 then 1 else barsHeld))
  }

  /** Mark at the close, on the side the position would be liquidated at, without slippage. */
  function UnrealizedPnl(cfg: RawConfig, p: Position, bar: RawBar): Result<real, FxError> {
    if !SameCurrency(cfg) then Err(UnsupportedCurrency)
    else
      var quote := ReconstructBidAsk(bar.close, bar.spread, cfg.point);
      Ok(GrossPnl(cfg, p.side, p.entryPrice, if p.side == Long then quote.bid else quote.ask))
  }

  /** The financing charge of one more bar. */
  function AccrueSwap(cfg: RawConfig, p: Position, accrued: real, prev: int, now: int): Result<real, FxError> {
    match cfg.rollover
    case Some(hours) =>
      if now < prev then Err(BarsOutOfOrder)
      else Ok(accrued + Charges(cfg.swap, p.side, cfg.lots, Crossings(hours, prev, now)))
    case None =>
      if !cfg.swap.NoSwap? && now / DAY != prev / DAY then Err(SwapRequired) else Ok(accrued)
  }

  // ------------------------------------------------------------------ the loop

  datatype Status = Running | Stopped(at: int) | Failed(error: FxError)

  datatype LoopState = LoopState(
    balance: real, realized: real, position: Option<Position>, accrued: real,
    trades: seq<Trade>, curve: seq<EquityPoint>, openIndex: int, status: Status)

  function Start(cfg: RawConfig): LoopState {
    LoopState(cfg.initialBalance, 0.0, None, 0.0, [], [], 0, Running)
  }

  function Held(st: LoopState): Side {
    if st.position.Some? then st.position.value.side else Flat
  }

  function Fail(st: LoopState, error: FxError): LoopState {
    st.(status := Failed(error))
  }

  function Accrue(cfg: RawConfig, bars: seq<FxBar>, i: nat, st: LoopState): LoopState
    requires 0 < i < |bars|
  {
    if st.position.None? then st
    else
      match AccrueSwap(cfg, st.position.value, st.accrued, bars[i - 1].time, bars[i].time)
      case Ok(accrued) => st.(accrued := accrued)
      case Err(error) => Fail(st, error)
  }

  function Booked(st: LoopState, trade: Trade): LoopState {
    st.(balance := st.balance + trade.netPnl, realized := st.realized + trade.netPnl, position := None, accrued := 0.0,
        trades := st.trades + [trade])
  }

  /** Close whatever is held; on insolvency record the balance and stop before anything is opened. */
  function CloseHeld(cfg: RawConfig, bar: FxBar, i: nat, st: LoopState): LoopState {
    if st.position.None? then st
    else
      match ClosePosition(cfg, st.position.value, bar, i - st.openIndex, st.accrued)
      case Err(error) => Fail(st, error)
      case Ok(trade) =>
        var closed := Booked(st, trade);
        if cfg.terminateOnInsolvency && closed.balance <= 0.0
        then closed.(curve := closed.curve + [EquityPoint(bar.time, closed.balance, Flat)], status := Stopped(bar.time))
        else closed
  }

  function OpenWanted(cfg: RawConfig, bar: FxBar, target: Side, i: nat, st: LoopState): LoopState {
    if target == Flat then st
    else
      match OpenPosition(cfg, target, bar)
      case Err(error) => Fail(st, error)
      case Ok(position) => st.(position := Some(position), openIndex := i)
  }

  function Mark(cfg: RawConfig, bar: FxBar, target: Side, st: LoopState): LoopState {
    match st.position
    case None => Pointed(cfg, st, EquityPoint(bar.time, st.balance, target))
    case Some(p) =>
      match UnrealizedPnl(cfg, p, bar)
      case Err(error) => Fail(st, error)
      case Ok(pnl) => Pointed(cfg, st, EquityPoint(bar.time, st.balance + pnl - st.accrued, p.side))
  }

  function Pointed(cfg: RawConfig, st: LoopState, point: EquityPoint): LoopState {
    var marked := st.(curve := st.curve + [point]);
    if cfg.terminateOnInsolvency && point.equity <= 0.0 then marked.(status := Stopped(point.time)) else marked
  }

  function Rebalance(cfg: RawConfig, bar: FxBar, target: Side, i: nat, st: LoopState): LoopState {
    if Held(st) == target then st
    else
      var closed := CloseHeld(cfg, bar, i, st);
      if closed.status.Running? then OpenWanted(cfg, bar, target, i, closed) else closed
  }

  /** One iteration of the bar loop; a stopped or failed run stays as it is. */
  function StepBar(cfg: RawConfig, bars: seq<FxBar>, target: Side, i: nat, st: LoopState): LoopState
    requires i < |bars|
  {
    if !st.status.Running? then st
    else
      var accrued := if i == 0 then st else Accrue(cfg, bars, i, st);
      if !accrued.status.Running? then accrued
      else
        var balanced := Rebalance(cfg, bars[i], target, i, accrued);
        if balanced.status.Running? then Mark(cfg, bars[i], target, balanced) else balanced
  }

  /** The causal shift: bar 0 starts flat, bar i follows the signal of bar i-1. */
  function TargetAt(signals: seq<Side>, i: nat): Side
    requires i <= |signals|
  {
    if i == 0 then Flat else signals[i - 1]
  }

  /** The state after the first n bars. */
  function AfterBars(cfg: RawConfig, bars: seq<FxBar>, signals: seq<Side>, n: nat): LoopState
    requires n <= |bars| == |signals|
  {
    if n == 0 then Start(cfg)
    else StepBar(cfg, bars, TargetAt(signals, n - 1), n - 1, AfterBars(cfg, bars, signals, n - 1))
  }

  datatype FxResult = FxResult(
    trades: seq<Trade>, balance: real, realized: real, position: Option<Position>, equity: real,
    curve: seq<EquityPoint>, terminatedAt: Option<int>)

  /** End-of-data liquidation: an open position is closed at the last bar's OPEN. */
  function Liquidated(cfg: RawConfig, bars: seq<FxBar>, st: LoopState): LoopState
    requires |bars| > 0 && |st.curve| > 0
  {
    if st.position.None? || !st.status.Running? then st
    else
      var last := |bars| - 1;
      match ClosePosition(cfg, st.position.value, bars[last], last - st.openIndex, st.accrued)
      case Err(error) => Fail(st, error)
      case Ok(trade) =>
        var closed := Booked(st, trade);
        closed.(curve := closed.curve[..|closed.curve| - 1] + [EquityPoint(bars[last].time, closed.balance, Flat)])
  }

  function Report(st: LoopState): Result<FxResult, FxError>
    requires st.status.Failed? || |st.curve| > 0
  {
    if st.status.Failed? then Err(st.status.error)
    else Ok(FxResult(st.trades, st.balance, st.realized, st.position, st.curve[|st.curve| - 1].equity, st.curve,
                     if st.status.Stopped? then Some(st.status.at) else None))
  }

  /** Accruing and opening leave the books alone; closing books at most one trade. */
  lemma RebalanceOnCurve(cfg: RawConfig, bar: FxBar, target: Side, i: nat, st: LoopState)
    requires st.status.Running?
    ensures var st' := Rebalance(cfg, bar, target, i, st);
            && (st'.status.Running? || st'.status.Failed? ==> st'.curve == st.curve)
            && (st'.status.Stopped? ==>
                  && st'.curve == st.curve + [EquityPoint(bar.time, st'.balance, Flat)]
                  && st'.position.None? && st'.balance <= 0.0 && cfg.terminateOnInsolvency)
  {
  }

  /** A curve with one point per bar processed, at that bar's time. */
  predicate Timed(curve: seq<EquityPoint>, bars: seq<FxBar>) {
    |curve| <= |bars| && forall k :: 0 <= k < |curve| ==> curve[k].time == bars[k].time
  }

  lemma TimedAppend(curve: seq<EquityPoint>, point: EquityPoint, bars: seq<FxBar>)
    requires Timed(curve, bars) && |curve| < |bars| && point.time == bars[|curve|].time
    ensures Timed(curve + [point], bars)
  {
  }

  lemma StepOnCurve(cfg: RawConfig, bars: seq<FxBar>, target: Side, i: nat, st: LoopState)
    requires i < |bars| && st.status.Running?
    ensures var st' := StepBar(cfg, bars, target, i, st);
            st'.status.Failed? ||
            (|st'.curve| == |st.curve| + 1 && st'.curve[|st.curve|].time == bars[i].time &&
             st'.curve == st.curve + [st'.curve[|st.curve|]])
  {
    var accrued := if i == 0 then st else Accrue(cfg, bars, i, st);
    if accrued.status.Running? {
      RebalanceOnCurve(cfg, bars[i], target, i, accrued);
    }
  }

  /** The curve of a run so far: as long as it runs, one point per bar. */
  predicate CurveOk(bars: seq<FxBar>, st: LoopState, n: nat) {
    && (st.status.Running? ==> |st.curve| == n)
    && (st.status.Stopped? ==> 0 < |st.curve| <= n)
    && (!st.status.Failed? ==> Timed(st.curve, bars))
  }

  lemma StepKeepsCurve(cfg: RawConfig, bars: seq<FxBar>, target: Side, i: nat, st: LoopState)
    requires i < |bars| && CurveOk(bars, st, i)
    ensures CurveOk(bars, StepBar(cfg, bars, target, i, st), i + 1)
  {
    if st.status.Running? {
      StepOnCurve(cfg, bars, target, i, st);
      var st' := StepBar(cfg, bars, target, i, st);
      if !st'.status.Failed? { TimedAppend(st.curve, st'.curve[|st.curve|], bars); }
    }
  }

  lemma {:induction false} CurveGrows(cfg: RawConfig, bars: seq<FxBar>, signals: seq<Side>, n: nat)
    requires n <= |bars| == |signals|
    ensures CurveOk(bars, AfterBars(cfg, bars, signals, n), n)
  {
    if n > 0 {
      CurveGrows(cfg, bars, signals, n - 1);
      StepKeepsCurve(cfg, bars, TargetAt(signals, n - 1), n - 1, AfterBars(cfg, bars, signals, n - 1));
    }
  }

  /** The state a whole run ends in. */
  function Finish(cfg: RawConfig, bars: seq<FxBar>, signals: seq<Side>): (end: LoopState)
    requires |bars| == |signals| >= 2
    ensures end.status.Failed? || |end.curve| > 0
  {
    var st := AfterBars(cfg, bars, signals, |bars|);
    if st.status.Failed? then st
    else
      CurveGrows(cfg, bars, signals, |bars|);
      Liquidated(cfg, bars, st)
  }

  /** What a whole run returns. */
  function RunResult(cfg: RawConfig, bars: seq<FxBar>, signals: seq<Side>): Result<FxResult, FxError> {
    if |bars| != |signals| then Err(LengthMismatch)
    else if |bars| < 2 then Err(TooFewBars)
    else Report(Finish(cfg, bars, signals))
  }
}
