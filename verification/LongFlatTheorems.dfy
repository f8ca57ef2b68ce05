/** What holds of every long/flat backtest: solvency, costs that never help, a warm-up that cannot
    matter, and books that add up. */
module LongFlatTheorems {
  import opened Common
  import opened LongFlat

  /** Fee, slippage and size as the fractions they are documented to be. */
  predicate Fractions(c: Config) {
    0.0 <= c.fee <= 1.0 && 0.0 <= c.slippage <= 1.0 && 0.0 <= c.fraction <= 1.0 && c.capital >= 0.0
  }

  /** d charges at least what c charges, and is otherwise the same. */
  predicate Costlier(c: Config, d: Config) {
    Fractions(c) && Fractions(d) && d == c.(fee := d.fee, slippage := d.slippage) && c.fee <= d.fee &&
      c.slippage <= d.slippage
  }

  // ------------------------------------------------------------------ costs never help

  lemma MulMono(a: real, b: real, x: real, y: real)
    requires 0.0 <= a <= b && 0.0 <= x <= y
    ensures 0.0 <= a * x <= b * y
  {
    assert a * x <= b * x && b * x <= b * y;
  }

  lemma StrictProduct(q: real, y: real, r: real, x: real)
    requires 0.0 < x <= y
    ensures q < 0.0 ==> q * y < 0.0
    ensures 0.0 <= q && r < q ==> r * x < q * y
  {
    if 0.0 <= q && r < q { assert r * x < q * x && q * x <= q * y; }
  }

  lemma DivMono(a: real, b: real, x: real, y: real)
    requires 0.0 <= a <= b && 0.0 < x <= y
    ensures 0.0 <= a / y <= b / x
  {
    assert a / y * y == a && b / x * x == b;
    StrictProduct(a / y, y, b / x, x);
  }

  /** Same position, and neither more cash nor a bigger position under the higher costs. */
  predicate Behind(s: State, t: State) {
    && 0.0 <= t.cash <= s.cash && s.long == t.long && 0.0 <= t.size <= s.size
    && |s.curve| == |t.curve| && forall k :: 0 <= k < |s.curve| ==> PointBehind(s.curve[k], t.curve[k])
  }

  predicate PointBehind(x: EquityPoint, y: EquityPoint) {
    x.time == y.time && x.position == y.position && 0.0 <= y.equity <= x.equity
  }

  /** Net of the fee, the higher costs turn the same or less into the same or less. */
  lemma ProceedsBehind(c: Config, d: Config, price: real, size: real, size': real)
    requires Costlier(c, d) && price > 0.0 && 0.0 <= size' <= size
    ensures 0.0 <= NetProceeds(d, price, size') <= NetProceeds(c, price, size)
  {
    MulMono(price, price, 1.0 - d.slippage, 1.0 - c.slippage);
    var low, high := price * (1.0 - d.slippage), price * (1.0 - c.slippage);
    MulMono(size', size, low, high);
    MulMono(1.0 - d.fee, 1.0 - c.fee, size' * low, size * high);
  }

  lemma CashBehind(x: real, y: real, f: real)
    requires 0.0 <= y <= x && 0.0 <= f <= 1.0
    ensures 0.0 <= y - Part(y, f) <= x - Part(x, f) && 0.0 <= Part(y, f) <= Part(x, f)
  {
    MulMono(y, x, f, f);
    MulMono(y, x, 1.0 - f, 1.0 - f);
  }

  lemma SizeBehind(n: real, m: real, c: Config, d: Config, price: real)
    requires Costlier(c, d) && price > 0.0 && 0.0 <= m <= n
    ensures BuyFill(price, c.slippage) > 0.0 && BuyFill(price, d.slippage) > 0.0
    ensures 0.0 <= Bought(m - Part(m, d.fee), BuyFill(price, d.slippage))
                <= Bought(n - Part(n, c.fee), BuyFill(price, c.slippage))
  {
    MulMono(1.0 - d.fee, 1.0 - c.fee, m, n);
    MulMono(price, price, 1.0 + c.slippage, 1.0 + d.slippage);
    BuyFillPositive(price, c.slippage);
    BuyFillPositive(price, d.slippage);
    DivMono(m - Part(m, d.fee), n - Part(n, c.fee), BuyFill(price, c.slippage), BuyFill(price, d.slippage));
  }

  lemma EnterBehind(c: Config, d: Config, time: int, price: real, s: State, t: State)
    requires Costlier(c, d) && price > 0.0 && Behind(s, t)
    ensures Behind(Entered(c, time, price, s), Entered(d, time, price, t))
  {
    CashBehind(s.cash, t.cash, c.fraction);
    SizeBehind(Part(s.cash, c.fraction), Part(t.cash, d.fraction), c, d, price);
    hide Part, BuyFill, Bought;
  }

  lemma StepBehind(c: Config, d: Config, bar: Bar, wantLong: bool, s: State, t: State)
    requires Costlier(c, d) && ValidBar(bar) && Behind(s, t)
    ensures Behind(Step(c, bar, wantLong, s), Step(d, bar, wantLong, t))
  {
    if !s.long && wantLong { EnterBehind(c, d, bar.time, bar.open, s, t); }
    if s.long && !wantLong { ProceedsBehind(c, d, bar.open, s.size, t.size); }
    MarkBehind(bar, Rebalance(c, bar, wantLong, s), Rebalance(d, bar, wantLong, t));
  }

  lemma MarkBehind(bar: Bar, s: State, t: State)
    requires ValidBar(bar) && Behind(s, t)
    ensures Behind(Mark(bar, s), Mark(bar, t))
  {
    if s.long { MulMono(t.size, s.size, bar.close, bar.close); }
  }

  lemma {:induction false} RunBehind(c: Config, d: Config, bars: seq<Bar>, signals: seq<int>, start: int, n: nat)
    requires Costlier(c, d) && n <= |bars| == |signals| && ValidOhlcv(bars)
    ensures Behind(After(c, bars, signals, start, n), After(d, bars, signals, start, n))
  {
    hide Step;
    if n > 0 {
      RunBehind(c, d, bars, signals, start, n - 1);
      StepBehind(c, d, bars[n - 1], WantLong(signals, start, n - 1),
                 After(c, bars, signals, start, n - 1), After(d, bars, signals, start, n - 1));
    }
  }

  lemma SettledBehind(c: Config, d: Config, last: Bar, s: State, t: State)
    requires Costlier(c, d) && ValidBar(last) && Behind(s, t) && |s.curve| > 0
    ensures Behind(Settled(c, last, s), Settled(d, last, t))
  {
    if s.long { ProceedsBehind(c, d, last.close, s.size, t.size); }
  }

  /** Over the whole run and at the forced close: higher fee or slippage never gives more equity at any
      bar, the positions are the same, and no equity is ever negative. */
  lemma {:induction false} CostsNeverHelp(c: Config, d: Config, bars: seq<Bar>, signals: seq<int>, start: int)
    requires Costlier(c, d) && RunResult(c, bars, signals, start).Ok?
    ensures RunResult(d, bars, signals, start).Ok?
    ensures var r, q := RunResult(c, bars, signals, start).value, RunResult(d, bars, signals, start).value;
            && |r.curve| == |q.curve| == |bars| - start
            && (forall k :: 0 <= k < |r.curve| ==> PointBehind(r.curve[k], q.curve[k]))
            && 0.0 <= q.finalEquity <= r.finalEquity
  {
    hide Step;
    var n := |bars|;
    RunBehind(c, d, bars, signals, start, n);
    CurvePerBar(c, bars, signals, start, n);
    SettledBehind(c, d, bars[n - 1], After(c, bars, signals, start, n), After(d, bars, signals, start, n));
  }

  /** Solvency: with fractions as costs and non-negative capital no equity point is negative. */
  lemma NeverNegative(c: Config, bars: seq<Bar>, signals: seq<int>, start: int)
    requires Fractions(c) && RunResult(c, bars, signals, start).Ok?
    ensures var r := RunResult(c, bars, signals, start).value;
            r.finalEquity >= 0.0 && forall k :: 0 <= k < |r.curve| ==> r.curve[k].equity >= 0.0
  {
    CostsNeverHelp(c, c, bars, signals, start);
  }

  // ------------------------------------------------------------------ warm-up

  /** Equal in everything but the points recorded before the evaluated period. */
  predicate SameFrom(s: State, t: State, skip: nat) {
    |s.curve| >= skip + 1 && |t.curve| >= 1 && s == t.(curve := s.curve) && s.curve[skip + 1..] == t.curve[1..]
  }

  /** Warm-up bars leave nothing but flat points. */
  lemma {:induction false} WarmupIsFlat(cfg: Config, bars: seq<Bar>, signals: seq<int>, start: int, n: nat)
    requires n <= |bars| == |signals| && n <= start && ValidOhlcv(bars)
    ensures var st := After(cfg, bars, signals, start, n); st == Start(cfg).(curve := st.curve) && |st.curve| == n
  {
    if n > 0 { WarmupIsFlat(cfg, bars, signals, start, n - 1); }
  }

  lemma ExitIgnoresCurve(cfg: Config, time: int, price: real, s: State, t: State)
    requires s == t.(curve := s.curve)
    ensures Exited(cfg, time, price, s) == Exited(cfg, time, price, t).(curve := s.curve)
    ensures Exited(cfg, time, price, t).curve == t.curve
  {
    hide Part, SellFill;
    assert ClosedTrade(cfg, time, price, s) == ClosedTrade(cfg, time, price, t);
  }

  lemma RebalanceIgnoresCurve(cfg: Config, bar: Bar, wantLong: bool, s: State, t: State)
    requires ValidBar(bar) && s == t.(curve := s.curve)
    ensures Rebalance(cfg, bar, wantLong, s) == Rebalance(cfg, bar, wantLong, t).(curve := s.curve)
    ensures Rebalance(cfg, bar, wantLong, t).curve == t.curve
  {
    ExitIgnoresCurve(cfg, bar.time, bar.open, s, t);
    hide Exited, Part, BuyFill, Bought;
  }

  lemma StepSameFrom(cfg: Config, bar: Bar, wantLong: bool, s: State, t: State, skip: nat)
    requires ValidBar(bar) && SameFrom(s, t, skip)
    ensures SameFrom(Step(cfg, bar, wantLong, s), Step(cfg, bar, wantLong, t), skip)
  {
    RebalanceIgnoresCurve(cfg, bar, wantLong, s, t);
    hide Rebalance, Part;
    var s', t' := Step(cfg, bar, wantLong, s), Step(cfg, bar, wantLong, t);
    var p := s'.curve[|s.curve|];
    assert s'.curve == s.curve + [p] && t'.curve == t.curve + [p];
    assert s'.curve[skip + 1..] == s.curve[skip + 1..] + [p];
    assert t'.curve[1..] == t.curve[1..] + [p];
  }

  lemma {:induction false} SuffixRuns(cfg: Config, bars: seq<Bar>, signals: seq<int>, start: nat, k: nat)
    requires 1 <= start < |bars| == |signals| && ValidOhlcv(bars) && 1 <= k && start - 1 + k <= |bars|
    ensures ValidOhlcv(bars[start - 1..])
    ensures SameFrom(After(cfg, bars, signals, start, start - 1 + k),
                     After(cfg, bars[start - 1..], signals[start - 1..], 1, k), start - 1)
  {
    hide Step;
    SuffixValid(bars, start - 1);
    if k == 1 {
      WarmupIsFlat(cfg, bars, signals, start, start);
      WarmupIsFlat(cfg, bars[start - 1..], signals[start - 1..], 1, 1);
    } else {
      hide ValidOhlcv, SameFrom;
      SuffixRuns(cfg, bars, signals, start, k - 1);
      var i := start - 2 + k;
      assert bars[start - 1..][k - 1] == bars[i];
      assert WantLong(signals, start, i) == WantLong(signals[start - 1..], 1, k - 1);
      StepSameFrom(cfg, bars[i], WantLong(signals, start, i), After(cfg, bars, signals, start, i),
                   After(cfg, bars[start - 1..], signals[start - 1..], 1, k - 1), start - 1);
    }
  }

  lemma SuffixValid(bars: seq<Bar>, i: nat)
    requires i <= |bars| && ValidOhlcv(bars)
    ensures ValidOhlcv(bars[i..])
  {
  }

  lemma SettledSameFrom(cfg: Config, last: Bar, s: State, t: State, skip: nat)
    requires SameFrom(s, t, skip) && |s.curve| > skip + 1 && |t.curve| == |s.curve| - skip
    ensures var s', t' := Settled(cfg, last, s), Settled(cfg, last, t);
            |s'.curve| == |s.curve| && |t'.curve| == |t.curve| && s'.trades == t'.trades &&
            s'.curve[skip + 1..] == t'.curve[1..]
  {
    ExitIgnoresCurve(cfg, last.time, last.close, s, t);
    hide Exited;
    var n, m := |s.curve|, |t.curve|;
    assert s.curve[n - 1] == s.curve[skip + 1..][n - skip - 2] == t.curve[1..][m - 2] == t.curve[m - 1];
    var s', t' := Settled(cfg, last, s), Settled(cfg, last, t);
    forall k | 0 <= k < m - 1 ensures s'.curve[skip + 1..][k] == t'.curve[1..][k] {
      assert s.curve[skip + 1..][k] == t.curve[1..][k];
    }
  }

  /** Older rows cannot matter: evaluating from row e gives the result of a run that is handed nothing
      before row e-1, whose signal alone decides the first evaluated bar. */
  lemma {:induction false} WarmupIsInvisible(cfg: Config, bars: seq<Bar>, signals: seq<int>, start: nat)
    requires start >= 1 && RunResult(cfg, bars, signals, start).Ok?
    ensures RunResult(cfg, bars, signals, start) == RunResult(cfg, bars[start - 1..], signals[start - 1..], 1)
  {
    hide Step;
    var n, bars', signals' := |bars|, bars[start - 1..], signals[start - 1..];
    SuffixValid(bars, start - 1);
    SuffixRuns(cfg, bars, signals, start, n - start + 1);
    CurvePerBar(cfg, bars, signals, start, n);
    CurvePerBar(cfg, bars', signals', 1, |bars'|);
    assert bars'[|bars'| - 1] == bars[n - 1];
    SettledSameFrom(cfg, bars[n - 1], After(cfg, bars, signals, start, n), After(cfg, bars', signals', 1, |bars'|),
                    start - 1);
    var s, t := Ended(cfg, bars, signals, start), Ended(cfg, bars', signals', 1);
    assert s.curve[start..][n - 1 - start] == t.curve[1..][n - 1 - start];
  }

  // ------------------------------------------------------------------ what trading costs

  /** What cash and position are worth at a price. */
  function Wealth(st: State, price: real): real {
    st.cash + st.size * price
  }

  /** Entering costs its fee and the slippage on what is bought, and nothing else. */
  lemma EnteringCosts(cfg: Config, time: int, price: real, st: State)
    requires price > 0.0 && st.size == 0.0
    ensures var st' := Entered(cfg, time, price, st);
            Wealth(st', price) == Wealth(st, price) - st'.entryFee - st'.size * (price * cfg.slippage)
  {
    BuyFillPositive(price, cfg.slippage);
    var fill, notional := BuyFill(price, cfg.slippage), Part(st.cash, cfg.fraction);
    var paid := notional - Part(notional, cfg.fee);
    var size := Bought(paid, fill);
    assert size * fill == paid;
    assert size * fill == size * price + size * (price * cfg.slippage);
  }

  /** Exiting costs its fee and the slippage on what is sold, and nothing else. */
  lemma ExitingCosts(cfg: Config, time: int, price: real, st: State)
    ensures var st' := Exited(cfg, time, price, st);
            Wealth(st', price) ==
            Wealth(st, price) - st'.trades[|st.trades|].exitFee - st.size * (price * cfg.slippage)
  {
    var fill := SellFill(price, cfg.slippage);
    assert st.size * fill == st.size * price - st.size * (price * cfg.slippage);
  }

  /** Flat means holding nothing. */
  lemma {:induction false} FlatHoldsNothing(cfg: Config, bars: seq<Bar>, signals: seq<int>, start: int, n: nat)
    requires n <= |bars| == |signals| && ValidOhlcv(bars)
    ensures var st := After(cfg, bars, signals, start, n); !st.long ==> st.size == 0.0
  {
    if n > 0 { FlatHoldsNothing(cfg, bars, signals, start, n - 1); }
  }

  /** Self-financing: without fee and slippage a bar changes the account only by what the price does to
      the position, overnight on the old one and from open to close on the new one, and the forced
      close changes it not at all. */
  lemma {:induction false} SelfFinancing(cfg: Config, bars: seq<Bar>, signals: seq<int>, start: int, n: nat)
    requires 0 < n < |bars| == |signals| && ValidOhlcv(bars) && cfg.fee == 0.0 && cfg.slippage == 0.0
    ensures var s, s' := After(cfg, bars, signals, start, n), After(cfg, bars, signals, start, n + 1);
            && |s.curve| == n && |s'.curve| == n + 1
            && s'.curve[n].equity - s.curve[n - 1].equity ==
               s.size * (bars[n].open - bars[n - 1].close) + s'.size * (bars[n].close - bars[n].open)
            && |Settled(cfg, bars[n], s').curve| == n + 1 &&
               Settled(cfg, bars[n], s').curve[n].equity == s'.curve[n].equity
  {
    hide Step, Wealth, Settled;
    var s, s' := After(cfg, bars, signals, start, n), After(cfg, bars, signals, start, n + 1);
    FlatHoldsNothing(cfg, bars, signals, start, n);
    FlatHoldsNothing(cfg, bars, signals, start, n + 1);
    LastIsWealth(cfg, bars, signals, start, n);
    LastIsWealth(cfg, bars, signals, start, n + 1);
    FreeStep(cfg, bars[n], WantLong(signals, start, n), s, bars[n - 1].close);
    FreeSettlement(cfg, bars[n], s');
  }

  lemma FreeStep(cfg: Config, bar: Bar, wantLong: bool, s: State, before: real)
    requires ValidBar(bar) && cfg.fee == 0.0 && cfg.slippage == 0.0 && (!s.long ==> s.size == 0.0)
    ensures var s' := Step(cfg, bar, wantLong, s);
            Wealth(s', bar.close) - Wealth(s, before) == s.size * (bar.open - before) + s'.size * (bar.close - bar.open)
  {
    FreeRebalance(cfg, bar, wantLong, s);
    hide Rebalance;
    Moves(s, Rebalance(cfg, bar, wantLong, s), before, bar.open, bar.close);
  }

  lemma FreeSettlement(cfg: Config, last: Bar, st: State)
    requires cfg.fee == 0.0 && cfg.slippage == 0.0
    requires |st.curve| > 0 && st.curve[|st.curve| - 1].equity == Wealth(st, last.close)
    ensures var end := |st.curve| - 1;
            |Settled(cfg, last, st).curve| == |st.curve| &&
              Settled(cfg, last, st).curve[end].equity == st.curve[end].equity
  {
    FreeExit(cfg, last.time, last.close, st);
  }

  lemma Moves(s: State, s': State, before: real, open: real, close: real)
    requires Wealth(s, open) == Wealth(s', open)
    ensures Wealth(s', close) - Wealth(s, before) == s.size * (open - before) + s'.size * (close - open)
  {
    assert s.size * (open - before) == s.size * open - s.size * before;
    assert s'.size * (close - open) == s'.size * close - s'.size * open;
  }

  lemma FreeExit(cfg: Config, time: int, price: real, st: State)
    requires cfg.fee == 0.0 && cfg.slippage == 0.0
    ensures Exited(cfg, time, price, st).cash == Wealth(st, price) && Exited(cfg, time, price, st).size == 0.0
  {
  }

  lemma FreeRebalance(cfg: Config, bar: Bar, wantLong: bool, st: State)
    requires ValidBar(bar) && cfg.fee == 0.0 && cfg.slippage == 0.0 && (!st.long ==> st.size == 0.0)
    ensures Wealth(Rebalance(cfg, bar, wantLong, st), bar.open) == Wealth(st, bar.open)
  {
    if !st.long && wantLong {
      EnteringCosts(cfg, bar.time, bar.open, st);
      FreeEntry(cfg, bar.time, bar.open, st);
    }
    if st.long && !wantLong { FreeExit(cfg, bar.time, bar.open, st); }
    hide Entered, Exited;
  }

  lemma FreeEntry(cfg: Config, time: int, price: real, st: State)
    requires price > 0.0 && cfg.fee == 0.0 && cfg.slippage == 0.0
    ensures var st' := Entered(cfg, time, price, st); st'.entryFee == 0.0 && st'.size * (price * cfg.slippage) == 0.0
  {
  }

  lemma {:induction false} LastIsWealth(cfg: Config, bars: seq<Bar>, signals: seq<int>, start: int, n: nat)
    requires 0 < n <= |bars| == |signals| && ValidOhlcv(bars)
    ensures var st := After(cfg, bars, signals, start, n);
            |st.curve| == n && st.curve[n - 1].equity == Wealth(st, bars[n - 1].close)
  {
    CurvePerBar(cfg, bars, signals, start, n);
    FlatHoldsNothing(cfg, bars, signals, start, n);
    hide Rebalance, Entered, Exited;
  }

  // ------------------------------------------------------------------ causality

  /** No lookahead: the state after n bars depends on those bars and on the signals before the last of
      them, not on the prices or signals that follow. */
  lemma {:induction false} NoLookahead(
    cfg: Config, bars: seq<Bar>, signals: seq<int>, bars': seq<Bar>, signals': seq<int>, start: int, n: nat)
    requires n <= |bars| == |signals| && n <= |bars'| == |signals'| && ValidOhlcv(bars) && ValidOhlcv(bars')
    requires bars[..n] == bars'[..n] && forall k :: 0 <= k < n - 1 ==> signals[k] == signals'[k]
    ensures After(cfg, bars, signals, start, n) == After(cfg, bars', signals', start, n)
  {
    hide Step, ValidOhlcv;
    if n > 0 {
      assert bars[..n - 1] == bars[..n][..n - 1] && bars'[..n - 1] == bars'[..n][..n - 1];
      NoLookahead(cfg, bars, signals, bars', signals', start, n - 1);
      assert bars[n - 1] == bars[..n][n - 1] == bars'[n - 1];
    }
  }

  // ------------------------------------------------------------------ the books

  function SumNet(trades: seq<Trade>): real {
    if trades == [] then 0.0 else SumNet(trades[..|trades| - 1]) + trades[|trades| - 1].netPnl
  }

  lemma SumNetAppend(trades: seq<Trade>, t: Trade)
    ensures SumNet(trades + [t]) == SumNet(trades) + t.netPnl
  {
    assert (trades + [t])[..|trades|] == trades;
  }

  /** The trade decomposes into price move and two fees, and leaves no earlier than it came. */
  predicate TradeOk(t: Trade, since: int) {
    && t.netPnl == t.grossPnl - t.entryFee - t.exitFee && t.grossPnl == Part(t.exitPrice - t.entryPrice, t.sizeBase)
    && Part(t.sizeBase, t.entryPrice) == t.entryNotional - t.entryFee
    && since <= t.entryTime <= t.exitTime
  }

  /** Cash and what is invested add up to the capital and the realized results. */
  predicate Books(cfg: Config, st: State, since: int, now: int) {
    && st.cash + (if st.long then st.entryNotional else 0.0) == cfg.capital + SumNet(st.trades)
    && (st.long ==> Part(st.size, st.entryPrice) == st.entryNotional - st.entryFee && since <= st.entryTime <= now)
    && forall k :: 0 <= k < |st.trades| ==> TradeOk(st.trades[k], since)
  }

  lemma TradeIsOk(cfg: Config, time: int, price: real, st: State, since: int)
    requires Part(st.size, st.entryPrice) == st.entryNotional - st.entryFee && since <= st.entryTime <= time
    ensures TradeOk(ClosedTrade(cfg, time, price, st), since)
  {
    var fill := SellFill(price, cfg.slippage);
    assert (fill - st.entryPrice) * st.size == st.size * fill - st.size * st.entryPrice;
  }

  lemma ExitKeepsBooks(cfg: Config, time: int, price: real, st: State, since: int)
    requires Books(cfg, st, since, time) && st.long
    ensures Books(cfg, Exited(cfg, time, price, st), since, time)
  {
    TradeIsOk(cfg, time, price, st, since);
    SumNetAppend(st.trades, ClosedTrade(cfg, time, price, st));
  }

  lemma EnterKeepsBooks(cfg: Config, time: int, price: real, st: State, since: int)
    requires Books(cfg, st, since, time) && !st.long && price > 0.0 && since <= time
    ensures Books(cfg, Entered(cfg, time, price, st), since, time)
  {
    BuyFillPositive(price, cfg.slippage);
    var fill, notional := BuyFill(price, cfg.slippage), Part(st.cash, cfg.fraction);
    assert Part(Bought(notional - Part(notional, cfg.fee), fill), fill) == notional - Part(notional, cfg.fee);
    hide Part, BuyFill, Bought;
  }

  lemma StepKeepsBooks(cfg: Config, bar: Bar, wantLong: bool, st: State, since: int, now: int)
    requires Books(cfg, st, since, now) && ValidBar(bar) && now <= bar.time && (wantLong ==> since <= bar.time)
    ensures Books(cfg, Step(cfg, bar, wantLong, st), since, bar.time)
  {
    hide TradeOk;
    assert Books(cfg, st, since, bar.time);
    if !st.long && wantLong { EnterKeepsBooks(cfg, bar.time, bar.open, st, since); }
    if st.long && !wantLong { ExitKeepsBooks(cfg, bar.time, bar.open, st, since); }
    hide Entered, Exited;
  }

  lemma {:induction false} RunKeepsBooks(cfg: Config, bars: seq<Bar>, signals: seq<int>, start: nat, n: nat)
    requires 0 < n <= |bars| == |signals| && start < |bars| && ValidOhlcv(bars)
    ensures Books(cfg, After(cfg, bars, signals, start, n), bars[start].time, bars[n - 1].time)
  {
    hide Step, Books;
    var since := bars[start].time;
    if start < n { StartBefore(bars, start, n - 1); }
    if n == 1 {
      assert Books(cfg, Start(cfg), since, bars[0].time) by { StartKeepsBooks(cfg, since, bars[0].time); }
      StepKeepsBooks(cfg, bars[0], WantLong(signals, start, 0), Start(cfg), since, bars[0].time);
    } else {
      RunKeepsBooks(cfg, bars, signals, start, n - 1);
      StepKeepsBooks(cfg, bars[n - 1], WantLong(signals, start, n - 1), After(cfg, bars, signals, start, n - 1),
                     since, bars[n - 2].time);
    }
  }

  lemma StartKeepsBooks(cfg: Config, since: int, now: int)
    ensures Books(cfg, Start(cfg), since, now)
  {
  }

  /** Conservation: final equity is the capital plus the net PnL of every trade; each net PnL is its price
      move less two fees; and no trade was entered before the evaluated period. */
  lemma {:induction false} BooksAddUp(cfg: Config, bars: seq<Bar>, signals: seq<int>, start: int)
    requires RunResult(cfg, bars, signals, start).Ok?
    ensures var r := RunResult(cfg, bars, signals, start).value;
            && r.finalEquity == cfg.capital + SumNet(r.trades)
            && forall k :: 0 <= k < |r.trades| ==> TradeOk(r.trades[k], bars[start].time)
  {
    var n := |bars|;
    RunKeepsBooks(cfg, bars, signals, start, n);
    CurvePerBar(cfg, bars, signals, start, n);
    var st := After(cfg, bars, signals, start, n);
    if st.long {
      ExitKeepsBooks(cfg, bars[n - 1].time, bars[n - 1].close, st, bars[start].time);
    }
  }
}
