/** Where the costlier run's last point may lie above the cheaper one: exactly at a direct flip, and
    on a last bar where a position is wanted. For every signal sequence with such a bar there are
    prices and two slippages that show it. */
module FxSharpness {
  import opened Common
  import opened FxCosts
  import opened FxEngine
  import opened FxRuns
  import opened FxMonotone

  /** No direct flip anywhere, and flat on the last bar. */
  predicate Separated(signals: seq<Side>)
    requires |signals| >= 2
  {
    (forall k :: 0 <= k < |signals| ==> !FlipAt(signals, k)) && TargetAt(signals, |signals| - 1) == Flat
  }

  /** Two runs that end in results, the second one never cheaper. */
  predicate Comparable(c: RawConfig, d: RawConfig, bars: seq<FxBar>, dear: seq<FxBar>, signals: seq<Side>) {
    && ValidConfig(c) && ValidConfig(d) && CostlierConfig(c, d) && CostlierBars(bars, dear)
    && RunResult(c, bars, signals).Ok? && RunResult(d, dear, signals).Ok?
  }

  predicate Dominated(c: RawConfig, d: RawConfig, bars: seq<FxBar>, dear: seq<FxBar>, signals: seq<Side>)
    requires Comparable(c, d, bars, dear, signals)
  {
    LastNotAbove(RunResult(c, bars, signals).value, RunResult(d, dear, signals).value)
  }

  // ------------------------------------------------------------------ constant prices

  /** One unit at point one, nothing charged but slippage, stopped on insolvency. */
  function SlippageOnly(balance: real, points: real): RawConfig {
    RawConfig(1.0, 1.0, 1.0, 1.0, 1.0, 1.0, None, None, balance, NoCommission, FixedPointsSlippage(points), NoSwap,
              None, true)
  }

  /** Bars at one price, except that bar k closes `move` away from it. */
  function QuietBars(n: nat, price: real, room: real, k: nat, move: real): (bars: seq<FxBar>)
    requires 0.0 <= room < price && -room <= move <= room
    ensures |bars| == n && forall i :: 0 <= i < n ==> bars[i] == QuietBar(price, room, i, if i == k then move else 0.0)
  {
    if n == 0 then []
    else QuietBars(n - 1, price, room, k, move) + [QuietBar(price, room, n - 1, if n - 1 == k then move else 0.0)]
  }

  function QuietBar(price: real, room: real, time: int, move: real): FxBar
    requires 0.0 <= room < price && -room <= move <= room
  {
    RawBar(time, price, price + room, price - room, price + move, None)
  }

  /** How many positions the targets of the first n bars close. */
  function Closes(signals: seq<Side>, n: nat): nat
    requires n <= |signals|
  {
    if n == 0 then 0
    else Closes(signals, n - 1) +
         if n > 1 && TargetAt(signals, n - 2) != Flat && TargetAt(signals, n - 2) != TargetAt(signals, n - 1) then 1
         else 0
  }

  function Wanted(signals: seq<Side>, n: nat): Side
    requires n <= |signals|
  {
    if n == 0 then Flat else TargetAt(signals, n - 1)
  }

  function EntryAt(price: real, points: real, side: Side): real {
    if side == Long then price + points else price - points
  }

  predicate HoldsAt(st: LoopState, side: Side, price: real, points: real) {
    && (side == Flat ==> st.position.None?)
    && (side != Flat ==> st.position.Some? && st.position.value.side == side &&
                         st.position.value.entryPrice == EntryAt(price, points, side))
  }

  /** Each closed position has cost two slippages, and the wanted one is held. */
  predicate Steady(st: LoopState, balance: real, side: Side, price: real, points: real) {
    st.status.Running? && st.balance == balance && st.accrued == 0.0 && HoldsAt(st, side, price, points)
  }

  lemma CloseCostsTwo(balance0: real, points: real, p: Position, bar: RawBar, held: int, price: real)
    requires bar.open == price && bar.spread.None? && p.side != Flat && p.entryPrice == EntryAt(price, points, p.side)
    ensures var t := ClosePosition(SlippageOnly(balance0, points), p, bar, held, 0.0);
            t.Ok? && t.value.netPnl == -2.0 * points
  {
    var c := SlippageOnly(balance0, points);
    var t := NetIsExecution(c, p, bar, held, 0.0);
  }

  /** One bar opened at the quiet price: what is held is closed at two slippages, what is wanted is opened. */
  lemma QuietRebalance(b0: real, points: real, bar: FxBar, side: Side, target: Side, i: nat, st: LoopState, price: real)
    requires Steady(st, st.balance, side, price, points) && bar.open == price && bar.spread.None?
    requires side != Flat && side != target ==> st.balance - 2.0 * points > 0.0
    ensures Steady(Rebalance(SlippageOnly(b0, points), bar, target, i, st),
                   if side != Flat && side != target then st.balance - 2.0 * points else st.balance, target, price,
                     points)
  {
    if st.position.Some? {
      CloseCostsTwo(b0, points, st.position.value, bar, i - st.openIndex, price);
    }
  }

  /** What marking a position finds at a close `move` away from the quiet price. */
  function MarkedAt(balance: real, side: Side, points: real, move: real): real {
    match side
    case Flat => balance
    case Long => balance - points + move
    case Short => balance - points - move
  }

  lemma QuietMark(b0: real, points: real, bar: FxBar, target: Side, st: LoopState, price: real, move: real)
    requires Steady(st, st.balance, target, price, points) && bar.close == price + move && bar.spread.None?
    ensures Mark(SlippageOnly(b0, points), bar, target, st) ==
            Pointed(SlippageOnly(b0, points), st,
                    EquityPoint(bar.time, MarkedAt(st.balance, target, points, move), target))
  {
  }

  lemma QuietStep(b0: real, points: real, bars: seq<FxBar>, side: Side, target: Side, i: nat, st: LoopState,
                  price: real)
    requires i < |bars| && bars[i].open == price && bars[i].spread.None?
    requires Steady(st, st.balance, side, price, points)
    requires side != Flat && side != target ==> st.balance - 2.0 * points > 0.0
    ensures var c := SlippageOnly(b0, points);
            var st' := StepBar(c, bars, target, i, st);
            var after := if side != Flat && side != target then st.balance - 2.0 * points else st.balance;
            exists st1: LoopState :: Steady(st1, after, target, price, points) && st1.curve == st.curve &&
              st' == Pointed(c, st1, EquityPoint(bars[i].time, MarkedAt(after, target, points, bars[i].close - price),
                                                 target))
  {
    var c := SlippageOnly(b0, points);
    var st1 := if i == 0 then st else Accrue(c, bars, i, st);
    assert st1 == st;
    QuietRebalance(b0, points, bars[i], side, target, i, st, price);
    RebalanceOnCurve(c, bars[i], target, i, st);
    QuietMark(b0, points, bars[i], target, Rebalance(c, bars[i], target, i, st), price, bars[i].close - price);
  }

  /** What is left of the initial balance after n bars. */
  function Left(b0: real, points: real, signals: seq<Side>, n: nat): real
    requires n <= |signals|
  {
    b0 - 2.0 * points * Closes(signals, n) as real
  }

  predicate Quiet(bars: seq<FxBar>, price: real, n: nat) {
    n <= |bars| && forall i :: 0 <= i < n ==> bars[i].open == price && bars[i].close == price && bars[i].spread.None?
  }

  lemma LeftStep(b0: real, points: real, signals: seq<Side>, n: nat)
    requires n < |signals|
    ensures var side, target := Wanted(signals, n), TargetAt(signals, n);
            Left(b0, points, signals, n + 1) ==
            if side != Flat && side != target then Left(b0, points, signals, n) - 2.0 * points
            else Left(b0, points, signals, n)
  {
  }

  /** Quiet prices keep the run steady for as long as one more slippage is affordable. */
  lemma {:induction false} QuietRun(b0: real, points: real, bars: seq<FxBar>, signals: seq<Side>, n: nat, price: real)
    requires n <= |bars| == |signals| && Quiet(bars, price, n) && points >= 0.0 && Left(b0, points, signals, n) > points
    ensures Steady(AfterBars(SlippageOnly(b0, points), bars, signals, n), Left(b0, points, signals, n),
                   Wanted(signals, n), price, points)
  {
    if n > 0 {
      LeftStep(b0, points, signals, n - 1);
      QuietRun(b0, points, bars, signals, n - 1, price);
      QuietStep(b0, points, bars, Wanted(signals, n - 1), TargetAt(signals, n - 1), n - 1,
                AfterBars(SlippageOnly(b0, points), bars, signals, n - 1), price);
    }
  }

  // ------------------------------------------------------------------ the two families

  lemma SameBars(b0: real, points: real, points': real, bars: seq<FxBar>)
    requires 0.0 <= points <= points'
    ensures CostlierConfig(SlippageOnly(b0, points), SlippageOnly(b0, points')) && CostlierBars(bars, bars)
    ensures ValidConfig(SlippageOnly(b0, points)) && ValidConfig(SlippageOnly(b0, points'))
  {
    var c := SlippageOnly(b0, points);
    assert (c.lots - c.volumeMin) / c.volumeStep == 0.0;
    assert SlippageOnly(b0, points') == c.(slippage := FixedPointsSlippage(points'));
  }

  /** A run that stops at bar k returns the curve it has then. */
  lemma {:induction false} StopsAt(c: RawConfig, bars: seq<FxBar>, signals: seq<Side>, k: nat)
    requires k < |bars| == |signals| && |signals| >= 2
    requires AfterBars(c, bars, signals, k).status.Running? && AfterBars(c, bars, signals, k + 1).status.Stopped?
    ensures RunResult(c, bars, signals).Ok?
    ensures var st, r := AfterBars(c, bars, signals, k + 1), RunResult(c, bars, signals).value;
            r.curve == st.curve && |r.curve| == k + 1
  {
    hide StepBar;
    Sticky(c, bars, signals, k + 1, |bars|);
    CurveGrows(c, bars, signals, k);
    CurveGrows(c, bars, signals, k + 1);
    StepOnCurve(c, bars, TargetAt(signals, k), k, AfterBars(c, bars, signals, k));
  }

  /** Bar k of a quiet run, when no position is closed with the last of the money. */
  lemma {:induction false} QuietBarK(b0: real, points: real, bars: seq<FxBar>, signals: seq<Side>, k: nat,
                                     price: real, equity: real)
    requires k < |bars| == |signals| && Quiet(bars, price, k) && points >= 0.0 && Left(b0, points, signals, k) > points
    requires bars[k].open == price && bars[k].spread.None? && Left(b0, points, signals, k + 1) > 0.0
    requires equity == MarkedAt(Left(b0, points, signals, k + 1), TargetAt(signals, k), points, bars[k].close - price)
    ensures var st := AfterBars(SlippageOnly(b0, points), bars, signals, k + 1);
            && AfterBars(SlippageOnly(b0, points), bars, signals, k).status.Running?
            && |st.curve| == k + 1 && st.curve[k].equity == equity
            && (if equity <= 0.0 then st.status.Stopped?
                else Steady(st, Left(b0, points, signals, k + 1), TargetAt(signals, k), price, points))
  {
    var c := SlippageOnly(b0, points);
    QuietRun(b0, points, bars, signals, k, price);
    LeftStep(b0, points, signals, k);
    CurveGrows(c, bars, signals, k);
    QuietStep(b0, points, bars, Wanted(signals, k), TargetAt(signals, k), k, AfterBars(c, bars, signals, k), price);
  }

  /** Bar k of a quiet run, when closing takes the last of the money. */
  lemma {:induction false} LastMoneyBarK(b0: real, points: real, bars: seq<FxBar>, signals: seq<Side>, k: nat,
                                         price: real)
    requires 0 < k < |bars| == |signals| && Quiet(bars, price, k) && points >= 0.0
    requires Left(b0, points, signals, k) > points
    requires bars[k].open == price && bars[k].spread.None? && Left(b0, points, signals, k + 1) == 0.0
    ensures var st := AfterBars(SlippageOnly(b0, points), bars, signals, k + 1);
            && AfterBars(SlippageOnly(b0, points), bars, signals, k).status.Running?
            && st.status.Stopped? && |st.curve| == k + 1 && st.curve[k].equity == 0.0
  {
    var c := SlippageOnly(b0, points);
    QuietRun(b0, points, bars, signals, k, price);
    LeftStep(b0, points, signals, k);
    var st := AfterBars(c, bars, signals, k);
    CurveGrows(c, bars, signals, k);
    assert st.position.Some?;
    CloseCostsTwo(b0, points, st.position.value, bars[k], k - st.openIndex, price);
    assert Accrue(c, bars, k, st) == st;
    assert Rebalance(c, bars[k], TargetAt(signals, k), k, st).status.Stopped?;
  }

  /** At any direct flip the costlier run can be stopped by the close alone, with nothing left, while
      the cheaper one still flips and loses more than all it has. */
  lemma {:induction false} FlipWitness(signals: seq<Side>, k: nat)
    returns (c: RawConfig, d: RawConfig, bars: seq<FxBar>)
    requires k < |signals| && |signals| >= 2 && FlipAt(signals, k)
    ensures |bars| == |signals| && Comparable(c, d, bars, bars, signals) && !Dominated(c, d, bars, bars, signals)
  {
    hide AfterBars, RunResult, CostlierBars, CostlierConfig, ValidConfig, Closes;
    var b0 := 2.0 * Closes(signals, k) as real + 2.0;
    var room := b0 + 1.0;
    var price := room + 1.0;
    var move := if TargetAt(signals, k) == Long then -room else room;
    c, d := SlippageOnly(b0, 0.0), SlippageOnly(b0, 1.0);
    bars := QuietBars(|signals|, price, room, k, move);
    SameBars(b0, 0.0, 1.0, bars);
    LeftStep(b0, 1.0, signals, k);
    QuietBarK(b0, 0.0, bars, signals, k, price, -1.0);
    LastMoneyBarK(b0, 1.0, bars, signals, k, price);
    StopsAt(c, bars, signals, k);
    StopsAt(d, bars, signals, k);
  }

  /** Where a position is wanted on the last bar, the costlier run can be stopped by that bar's mark
      while the cheaper one goes on to be liquidated at that bar's open for less. */
  lemma {:induction false} LastBarWitness(signals: seq<Side>) returns (c: RawConfig, d: RawConfig, bars: seq<FxBar>)
    requires |signals| >= 2 && TargetAt(signals, |signals| - 1) != Flat && !FlipAt(signals, |signals| - 1)
    ensures |bars| == |signals| && Comparable(c, d, bars, bars, signals) && !Dominated(c, d, bars, bars, signals)
  {
    hide AfterBars, RunResult, CostlierBars, CostlierConfig, ValidConfig, Closes;
    var k := |signals| - 1;
    var closes := Closes(signals, k) as real;
    var s2 := 4.0 * closes + 4.0;
    var s1 := s2 - 1.0;
    var b0 := (2.0 * closes + 1.0) * s2 + 1.0;
    c, d := SlippageOnly(b0, s1), SlippageOnly(b0, s2);
    bars := QuietBars(|signals|, 2.0, 1.0, k, if TargetAt(signals, k) == Long then -1.0 else 1.0);
    SameBars(b0, s1, s2, bars);
    LeftStep(b0, s1, signals, k);
    LeftStep(b0, s2, signals, k);
    LastLefts(b0, closes, s1, s2);
    QuietBarK(b0, s1, bars, signals, k, 2.0, 2.0 * closes + 1.0);
    QuietBarK(b0, s2, bars, signals, k, 2.0, 0.0);
    StopsAt(d, bars, signals, k);
    LiquidatedAt(b0, s1, bars, signals, 2.0);
  }

  lemma LastLefts(b0: real, closes: real, s1: real, s2: real)
    requires s2 == 4.0 * closes + 4.0 && s1 == s2 - 1.0 && b0 == (2.0 * closes + 1.0) * s2 + 1.0
    ensures b0 - 2.0 * s2 * closes == s2 + 1.0 && b0 - 2.0 * s1 * closes == s2 + 1.0 + 2.0 * closes
  {
  }

  /** A run that is still steady after the last bar returns what liquidation at the open leaves. */
  lemma {:induction false} LiquidatedAt(b0: real, points: real, bars: seq<FxBar>, signals: seq<Side>, price: real)
    requires |bars| == |signals| && |signals| >= 2 && bars[|bars| - 1].open == price && bars[|bars| - 1].spread.None?
    requires TargetAt(signals, |bars| - 1) != Flat
    requires var st := AfterBars(SlippageOnly(b0, points), bars, signals, |bars|);
             Steady(st, st.balance, TargetAt(signals, |bars| - 1), price, points)
    ensures var st := AfterBars(SlippageOnly(b0, points), bars, signals, |bars|);
            var r := RunResult(SlippageOnly(b0, points), bars, signals);
            r.Ok? && |r.value.curve| == |bars| && r.value.curve[|bars| - 1].equity == st.balance - 2.0 * points
  {
    hide StepBar;
    var c, last := SlippageOnly(b0, points), |bars| - 1;
    var st := AfterBars(c, bars, signals, |bars|);
    CurveGrows(c, bars, signals, |bars|);
    CloseCostsTwo(b0, points, st.position.value, bars[last], last - st.openIndex, price);
  }

  /** Domination of the last point is guaranteed for all prices and costs exactly when the signals
      never flip a position directly and want none on the last bar. */
  lemma {:induction false} LastPointDominatedExactlyWhen(signals: seq<Side>)
    requires |signals| >= 2
    ensures Separated(signals) <==>
            forall c, d, bars, dear :: Comparable(c, d, bars, dear, signals) ==> Dominated(c, d, bars, dear, signals)
  {
    if Separated(signals) {
      forall c, d, bars, dear | Comparable(c, d, bars, dear, signals) ensures Dominated(c, d, bars, dear, signals) {
        CostsOnlyHurt(c, d, bars, dear, signals);
      }
    } else if TargetAt(signals, |signals| - 1) != Flat && !FlipAt(signals, |signals| - 1) {
      var c, d, bars := LastBarWitness(signals);
    } else {
      var k :| 0 <= k < |signals| && FlipAt(signals, k);
      var c, d, bars := FlipWitness(signals, k);
    }
  }
}
