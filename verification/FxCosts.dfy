/** Cost models of the FX engine: slippage, commission, and overnight financing charged at each
    crossing of a configured rollover hour. Amounts are exact reals, times are UTC seconds. */
module FxCosts {
  import opened Common

  const DAY := 86400
  const HOUR := 3600

  datatype Side = Flat | Long | Short

  datatype SlippageModel = ZeroSlippage | FixedPointsSlippage(slippagePoints: real)

  function SlippagePoints(model: SlippageModel): real {
    match model
    case ZeroSlippage => 0.0
    case FixedPointsSlippage(points) => points
  }

  /** A number of points as a price difference. */
  function InPrice(points: real, point: real): real {
    points * point
  }

  /** A buy fills higher, a sell fills lower. */
  function Slipped(model: SlippageModel, price: real, point: real, isBuy: bool): real {
    var offset := InPrice(SlippagePoints(model), point);
    if isBuy then price + offset else price - offset
  }

  datatype CommissionModel = NoCommission | PerLotPerSide(ratePerLot: real) | PerLotRoundTurn(ratePerLot: real)

  function CostForSide(model: CommissionModel, lots: real): real {
    match model
    case NoCommission => 0.0
    case PerLotPerSide(rate) => rate * lots
    case PerLotRoundTurn(rate) => (rate * lots) / 2.0
  }

  datatype SwapModel =
    | NoSwap
    | FixedSwap(ratePerLotPerCrossing: real)
    | SideAwareSwap(longRatePerLot: real, shortRatePerLot: real, tripleSwapWeekday: Option<int>)

  /** Monday is 0; second 0 fell on a Thursday. */
  function Weekday(time: int): int {
    (time / DAY + 3) % 7
  }

  function ChargeForCrossing(model: SwapModel, side: Side, lots: real, crossing: int): real {
    match model
    case NoSwap => 0.0
    case FixedSwap(rate) => rate * lots
    case SideAwareSwap(longRate, shortRate, triple) =>
      var rate := if side == Long then longRate else shortRate;
      rate * lots * (if triple == Some(Weekday(crossing)) then 3.0 else 1.0)
  }

  /** What a position pays over a list of crossings. */
  function Charges(model: SwapModel, side: Side, lots: real, crossings: seq<int>): real {
    if crossings == [] then 0.0
    else
      var last := |crossings| - 1;
      Charges(model, side, lots, crossings[..last]) + ChargeForCrossing(model, side, lots, crossings[last])
  }

  lemma {:induction false} ChargesConcat(model: SwapModel, side: Side, lots: real, first: seq<int>, second: seq<int>)
    ensures Charges(model, side, lots, first + second) ==
            Charges(model, side, lots, first) + Charges(model, side, lots, second)
  {
    if second == [] {
      assert first + second == first;
    } else {
      var last := |second| - 1;
      ChargesConcat(model, side, lots, first, second[..last]);
      assert (first + second)[..|first| + last] == first + second[..last];
    }
  }

  /** How many of the crossings fall on the weekday that is charged three times. */
  function OnWeekday(weekday: int, crossings: seq<int>): nat {
    |set i | 0 <= i < |crossings| && Weekday(crossings[i]) == weekday|
  }

  lemma {:induction false} OneMoreCrossing(weekday: int, crossings: seq<int>, crossing: int)
    ensures OnWeekday(weekday, crossings + [crossing]) ==
            OnWeekday(weekday, crossings) + if Weekday(crossing) == weekday then 1 else 0
  {
    var all := crossings + [crossing];
    var before := set i | 0 <= i < |crossings| && Weekday(crossings[i]) == weekday;
    var after := set i | 0 <= i < |all| && Weekday(all[i]) == weekday;
    assert after == if Weekday(crossing) == weekday then before + {|crossings|} else before;
  }

  /** So many times the rate per lot. */
  function Amount(rate: real, lots: real, count: int): real {
    rate * lots * count as real
  }

  lemma AmountsAdd(rate: real, lots: real, n: int, k: int)
    ensures Amount(rate, lots, n) + Amount(rate, lots, k) == Amount(rate, lots, n + k)
  {
    var unit := rate * lots;
    assert unit * n as real + unit * k as real == unit * (n + k) as real;
  }

  function RateOf(model: SwapModel, side: Side): real {
    match model
    case NoSwap => 0.0
    case FixedSwap(rate) => rate
    case SideAwareSwap(longRate, shortRate, _) => if side == Short then shortRate else longRate
  }

  /** The crossings, those on the triple weekday counted three times. */
  function Counted(model: SwapModel, crossings: seq<int>): int {
    |crossings| + if model.SideAwareSwap? && model.tripleSwapWeekday.Some?
                  then 2 * OnWeekday(model.tripleSwapWeekday.value, crossings) else 0
  }

  /** The financing in closed form: the side's rate per lot and crossing, a crossing on the triple weekday
      counting three times. */
  lemma {:induction false} ChargesExact(model: SwapModel, side: Side, lots: real, crossings: seq<int>)
    requires side != Flat
    ensures Charges(model, side, lots, crossings) == Amount(RateOf(model, side), lots, Counted(model, crossings))
  {
    hide Amount, ChargeForCrossing, OnWeekday;
    if crossings == [] {
      NothingCounted(model, RateOf(model, side), lots);
    } else {
      var last := |crossings| - 1;
      var before := crossings[..last];
      ChargesExact(model, side, lots, before);
      assert crossings == before + [crossings[last]];
      if model.SideAwareSwap? && model.tripleSwapWeekday.Some? {
        OneMoreCrossing(model.tripleSwapWeekday.value, before, crossings[last]);
      }
      ChargeIsAmount(model, side, lots, crossings[last]);
      AmountsAdd(RateOf(model, side), lots, Counted(model, before), Counted(model, crossings) - Counted(model, before));
    }
  }

  lemma NothingCounted(model: SwapModel, rate: real, lots: real)
    ensures Counted(model, []) == 0 && Amount(rate, lots, 0) == 0.0
  {
    forall weekday ensures OnWeekday(weekday, []) == 0 {
      var none: seq<int> := [];
      assert (set i | 0 <= i < |none| && Weekday(none[i]) == weekday) == {};
    }
  }

  lemma ChargeIsAmount(model: SwapModel, side: Side, lots: real, crossing: int)
    requires side != Flat
    ensures ChargeForCrossing(model, side, lots, crossing) ==
            Amount(RateOf(model, side), lots,
                   if model.SideAwareSwap? && model.tripleSwapWeekday == Some(Weekday(crossing)) then 3 else 1)
  {
  }

  /** Weekdays follow each other: second 0 is a Thursday, a day has one weekday, and the next day the next one. */
  lemma WeekdaysFollow(time: int)
    ensures Weekday(0) == 3 && 0 <= Weekday(time) < 7
    ensures Weekday(time - time % DAY) == Weekday(time) && Weekday(time + DAY) == (Weekday(time) + 1) % 7
  {
  }

  // ------------------------------------------------------------------ rollover crossings

  /** A rollover schedule: hours of the day, UTC. */
  type Hours = hours: set<int> | forall h :: h in hours ==> 0 <= h < 24

  function DayStart(time: int): int {
    time - time % DAY
  }

  /** The instant `time` is a configured rollover in (start, end]. */
  predicate IsCrossing(hours: Hours, start: int, end: int, time: int) {
    start < time <= end && time % HOUR == 0 && time % DAY / HOUR in hours
  }

  predicate StrictlySorted(s: seq<int>) {
    forall i, j :: 0 <= i < j < |s| ==> s[i] < s[j]
  }

  /** s lists exactly the crossings of (start, end], in order. */
  ghost predicate ListsCrossings(hours: Hours, start: int, end: int, s: seq<int>) {
    StrictlySorted(s) && forall t :: t in s <==> IsCrossing(hours, start, end, t)
  }

  /** The crossings among the full hours from t on. */
  function CrossingsFrom(hours: Hours, t: int, start: int, end: int): seq<int>
    decreases end - t
  {
    if t > end then []
    else (if IsCrossing(hours, start, end, t) then [t] else []) + CrossingsFrom(hours, t + HOUR, start, end)
  }

  function Crossings(hours: Hours, start: int, end: int): seq<int> {
    CrossingsFrom(hours, DayStart(start), start, end)
  }

  lemma {:induction false} CrossingsFromLists(hours: Hours, t: int, start: int, end: int)
    requires t % HOUR == 0
    ensures StrictlySorted(CrossingsFrom(hours, t, start, end))
    ensures forall x :: x in CrossingsFrom(hours, t, start, end) <==> IsCrossing(hours, start, end, x) && t <= x
    decreases end - t
  {
    if t <= end {
      CrossingsFromLists(hours, t + HOUR, start, end);
      var rest := CrossingsFrom(hours, t + HOUR, start, end);
      forall x ensures x in CrossingsFrom(hours, t, start, end) <==> IsCrossing(hours, start, end, x) && t <= x {
        if t <= x < t + HOUR && x % HOUR == 0 { OnlyFullHour(t, x); }
      }
      forall i | 0 <= i < |rest| ensures t < rest[i] { assert rest[i] in rest; }
    }
  }

  lemma OnlyFullHour(t: int, x: int)
    requires t % HOUR == 0 && x % HOUR == 0 && t <= x < t + HOUR
    ensures x == t
  {
  }

  lemma HourOfDay(k: int, h: nat)
    requires h < 24
    ensures (DAY * k + h * HOUR) % HOUR == 0 && (DAY * k + h * HOUR) % DAY / HOUR == h
  {
    assert DAY * k + h * HOUR == HOUR * (24 * k + h);
    assert (DAY * k + h * HOUR) % DAY == h * HOUR;
  }

  /** The listed crossings are all the rollovers of (start, end], each once, in order. */
  lemma CrossingsAreExact(hours: Hours, start: int, end: int)
    ensures ListsCrossings(hours, start, end, Crossings(hours, start, end))
  {
    CrossingsFromLists(hours, DayStart(start), start, end);
  }

  /** A strictly sorted list is determined by its members. */
  lemma {:induction false} SortedListsAgree(s: seq<int>, t: seq<int>)
    requires StrictlySorted(s) && StrictlySorted(t) && forall x :: x in s <==> x in t
    ensures s == t
  {
    assert (s != [] ==> s[0] in s) && (t != [] ==> t[0] in t);
    if s != [] && t != [] {
      var a, b := |s| - 1, |t| - 1;
      assert s[a] in s && t[b] in t;
      assert s[a] == t[b];
      forall x ensures x in s[..a] <==> x in t[..b] {
        assert x in s <==> x in s[..a] || x == s[a];
        assert x in t <==> x in t[..b] || x == t[b];
        assert x in s[..a] ==> x < s[a];
        assert x in t[..b] ==> x < t[b];
      }
      SortedListsAgree(s[..a], t[..b]);
      assert s == s[..a] + [s[a]] && t == t[..b] + [t[b]];
    }
  }

  /** Adjacent intervals add up: nothing is charged twice and nothing is lost at the joint. */
  lemma CrossingsAdd(hours: Hours, a: int, b: int, c: int)
    requires a <= b <= c
    ensures Crossings(hours, a, b) + Crossings(hours, b, c) == Crossings(hours, a, c)
  {
    CrossingsAreExact(hours, a, b);
    CrossingsAreExact(hours, b, c);
    CrossingsAreExact(hours, a, c);
    var first, second := Crossings(hours, a, b), Crossings(hours, b, c);
    forall i, j | 0 <= i < |first| && 0 <= j < |second| ensures first[i] < second[j] {
      assert first[i] in first && second[j] in second;
    }
    SortedListsAgree(first + second, Crossings(hours, a, c));
  }

  /** crossings_between: day by day; an interval that runs backwards is an error. */
  method CrossingsBetween(hours: Hours, start: int, end: int) returns (result: Option<seq<int>>)
    ensures result == if end < start then None else Some(Crossings(hours, start, end))
  {
    if end < start {
      return None;
    }
    var crossings: seq<int> := [];
    var day := DayStart(start);
    ghost var all, k := Crossings(hours, start, end), start / DAY;
    assert [] + all == all;
    while day <= end
      invariant day == DAY * k
      invariant crossings + CrossingsFrom(hours, day, start, end) == all
      decreases end - day
    {
      crossings := AppendDay(crossings, hours, day, start, end, all, k);
      day, k := day + DAY, k + 1;
    }
    assert crossings + [] == crossings;
    result := Some(crossings);
  }

  /** The inner loop: the configured hours of one day. */
  method AppendDay(before: seq<int>, hours: Hours, day: int, start: int, end: int, ghost all: seq<int>, ghost k: int)
    returns (crossings: seq<int>)
    requires day == DAY * k && before + CrossingsFrom(hours, day, start, end) == all
    ensures crossings + CrossingsFrom(hours, day + DAY, start, end) == all
  {
    crossings := before;
    for hour := 0 to 24
      invariant crossings + CrossingsFrom(hours, day + hour * HOUR, start, end) == all
    {
      var candidate := day + hour * HOUR;
      HourOfDay(k, hour);
      ghost var rest := CrossingsFrom(hours, candidate + HOUR, start, end);
      assert crossings + ([candidate] + rest) == (crossings + [candidate]) + rest;
      if hour in hours && start < candidate <= end {
        crossings := crossings + [candidate];
      }
    }
  }
}
