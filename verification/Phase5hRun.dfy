/** One stage of the frozen evaluation, end to end: strategy, tail cleanup, validator, engine, trade
    records, accounting check. Every check in it is a fail-closed guard; for chronological bars only the
    holding check of the records can fire, and not even that one if time passes while a position is held. */
module Phase5hRun {
  import opened Common
  import opened FxCosts
  import opened FxEngine
  import opened FxRuns
  import opened FxAccounting
  import opened FailedBreakout
  import opened Phase5hTargets
  import opened Phase5hSchedule
  import opened Phase5hEvents
  import FxEquity
  import FxLoop

  /** A trade with its signal and reference prices. */
  datatype Record = Record(
    trade: Trade, signalTime: int, entryReference: real, exitReference: real, durationSeconds: int, insolvent: bool)

  datatype StageError =
    | NoUsableBars | StrategyFailed | TargetsRejected(targetError: TargetError) | EngineFailed(engineError: FxError)
    | UnknownTime | HoldingSemantics | InvalidRecord | AccountingMismatch

  // ------------------------------------------------------------------ trade records

  /** The last bar with this time: a dictionary filled in order keeps the last one. */
  function IndexOf(bars: seq<FxBar>, n: nat, time: int): (index: Option<nat>)
    requires n <= |bars|
    ensures index.Some? ==> index.value < n && bars[index.value].time == time
  {
    if n == 0 then None else if bars[n - 1].time == time then Some(n - 1) else IndexOf(bars, n - 1, time)
  }

  predicate AccountingIdentity(t: Trade) {
    t.netPnl == t.grossPnl - t.spreadCost - t.slippageCost - t.commissionCost - t.swapCost
  }

  /** The checks of one record, in order. */
  function RecordOf(r: FxResult, bars: seq<FxBar>, targets: seq<Side>, t: Trade): Result<Record, StageError>
    requires |bars| == |targets|
  {
    var entry, exit := IndexOf(bars, |bars|, t.openTime), IndexOf(bars, |bars|, t.closeTime);
    if entry.None? || exit.None? then Err(UnknownTime)
    else if entry.value == 0 || targets[entry.value - 1] == Flat || t.barsHeld != HOLDING_BARS then
      Err(HoldingSemantics)
    else if t.side == Flat || t.closeTime < t.openTime || !AccountingIdentity(t) then Err(InvalidRecord)
    else Ok(Record(t, bars[entry.value - 1].time, bars[entry.value].open, bars[exit.value].open,
                   t.closeTime - t.openTime, r.terminatedAt.Some?))
  }

  /** _trade_records: stops at the first trade that does not fit. */
  method TradeRecords(r: FxResult, bars: seq<FxBar>, targets: seq<Side>)
    returns (result: Result<seq<Record>, StageError>)
    requires |bars| == |targets|
    ensures result.Ok? <==> forall k :: 0 <= k < |r.trades| ==> RecordOf(r, bars, targets, r.trades[k]).Ok?
    ensures result.Ok? ==>
              (&& |result.value| == |r.trades|
               && forall k :: 0 <= k < |r.trades| ==> RecordOf(r, bars, targets, r.trades[k]) == Ok(result.value[k]))
    ensures result.Err? ==>
              exists k :: 0 <= k < |r.trades| && RecordOf(r, bars, targets, r.trades[k]) == Err(result.error)
  {
    var index: map<int, nat> := map[];
    for i := 0 to |bars|
      invariant forall t :: t in index <==> IndexOf(bars, i, t).Some?
      invariant forall t :: t in index ==> IndexOf(bars, i, t) == Some(index[t]) && index[t] < i
    {
      index := index[bars[i].time := i];
    }
    var records: seq<Record> := [];
    for k := 0 to |r.trades|
      invariant |records| == k
      invariant forall j :: 0 <= j < k ==> RecordOf(r, bars, targets, r.trades[j]) == Ok(records[j])
    {
      var t := r.trades[k];
      if t.openTime !in index || t.closeTime !in index {
        return Err(UnknownTime);
      }
      var entry, exit := index[t.openTime], index[t.closeTime];
      if entry == 0 || targets[entry - 1] == Flat || t.barsHeld != HOLDING_BARS {
        return Err(HoldingSemantics);
      }
      if t.side == Flat || t.closeTime < t.openTime || !AccountingIdentity(t) {
        return Err(InvalidRecord);
      }
      records := records + [Record(t, bars[entry - 1].time, bars[entry].open, bars[exit].open,
                                   t.closeTime - t.openTime, r.terminatedAt.Some?)];
    }
    result := Ok(records);
  }

  // ------------------------------------------------------------------ the accounting check

  datatype Totals = Totals(gross: real, spread: real, slippage: real, commission: real, swap: real, net: real)

  function Total(records: seq<Record>): Totals {
    if records == [] then Totals(0.0, 0.0, 0.0, 0.0, 0.0, 0.0)
    else
      var before, t := Total(records[..|records| - 1]), records[|records| - 1].trade;
      Totals(before.gross + t.grossPnl, before.spread + t.spreadCost, before.slippage + t.slippageCost,
             before.commission + t.commissionCost, before.swap + t.swapCost, before.net + t.netPnl)
  }

  datatype Field = Gross | Spread | Slippage | Commission | Swap | Net

  function FieldOf(t: Trade, field: Field): real {
    match field
    case Gross => t.grossPnl
    case Spread => t.spreadCost
    case Slippage => t.slippageCost
    case Commission => t.commissionCost
    case Swap => t.swapCost
    case Net => t.netPnl
  }

  /** One field summed over all records. */
  function SumOf(records: seq<Record>, field: Field): real {
    if records == [] then 0.0 else FieldOf(records[0].trade, field) + SumOf(records[1..], field)
  }

  lemma {:induction false} SumOfAppend(records: seq<Record>, record: Record, field: Field)
    ensures SumOf(records + [record], field) == SumOf(records, field) + FieldOf(record.trade, field)
  {
    if records != [] {
      assert (records + [record])[1..] == records[1..] + [record];
      SumOfAppend(records[1..], record, field);
    }
  }

  /** Each of the six totals is the sum of its own field. */
  lemma {:induction false} TotalsAreSums(records: seq<Record>)
    ensures var totals := Total(records);
            && totals.gross == SumOf(records, Gross) && totals.spread == SumOf(records, Spread)
            && totals.slippage == SumOf(records, Slippage) && totals.commission == SumOf(records, Commission)
            && totals.swap == SumOf(records, Swap) && totals.net == SumOf(records, Net)
  {
    if records != [] {
      var last := |records| - 1;
      TotalsAreSums(records[..last]);
      forall field ensures SumOf(records, field) == SumOf(records[..last], field) + FieldOf(records[last].trade,
            field) {
        assert records == records[..last] + [records[last]];
        SumOfAppend(records[..last], records[last], field);
      }
    }
  }

  predicate Reconciles(totals: Totals) {
    totals.net == totals.gross - (totals.spread + totals.slippage + totals.commission + totals.swap)
  }

  /** The sums of _summary and its run-level check. */
  method Reconcile(records: seq<Record>) returns (totals: Totals, ok: bool)
    ensures totals == Total(records) && (ok <==> Reconciles(totals))
  {
    totals := Totals(0.0, 0.0, 0.0, 0.0, 0.0, 0.0);
    for k := 0 to |records|
      invariant totals == Total(records[..k])
    {
      assert records[..k + 1][..k] == records[..k];
      var t := records[k].trade;
      totals := Totals(totals.gross + t.grossPnl, totals.spread + t.spreadCost, totals.slippage + t.slippageCost,
                       totals.commission + t.commissionCost, totals.swap + t.swapCost, totals.net + t.netPnl);
    }
    assert records[..|records|] == records;
    ok := totals.net == totals.gross - (totals.spread + totals.slippage + totals.commission + totals.swap);
  }

  lemma {:induction false} IdentitiesReconcile(records: seq<Record>)
    requires forall k :: 0 <= k < |records| ==> AccountingIdentity(records[k].trade)
    ensures Reconciles(Total(records))
  {
    if records != [] { IdentitiesReconcile(records[..|records| - 1]); }
  }

  // ------------------------------------------------------------------ no guard can fire

  predicate StrictlyChronological(bars: seq<FxBar>) {
    forall i, j :: 0 <= i < j < |bars| ==> bars[i].time < bars[j].time
  }

  /** In chronological bars a time leads to the last bar that carries it. */
  lemma {:induction false} IndexIsLast(bars: seq<FxBar>, n: nat, i: nat)
    requires Chronological(bars) && i < n <= |bars|
    ensures var index := IndexOf(bars, n, bars[i].time);
            && index.Some? && i <= index.value < n && bars[index.value].time == bars[i].time
            && forall k :: index.value < k < n ==> bars[i].time < bars[k].time
  {
    if bars[n - 1].time != bars[i].time {
      IndexIsLast(bars, n - 1, i);
      assert bars[i].time < bars[n - 1].time;
    }
  }

  /** The bar a trade of block s is entered on according to its record. */
  function EntryIndex(bars: seq<FxBar>, s: nat): (index: nat)
    requires Chronological(bars) && s + 1 < |bars|
    ensures s + 1 <= index < |bars| && bars[index].time == bars[s + 1].time
  {
    IndexIsLast(bars, |bars|, s + 1);
    IndexOf(bars, |bars|, bars[s + 1].time).value
  }

  function ExitIndex(bars: seq<FxBar>, s: nat): (index: nat)
    requires Chronological(bars) && s + HOLDING_BARS + 1 < |bars|
    ensures s + HOLDING_BARS + 1 <= index < |bars| && bars[index].time == bars[s + HOLDING_BARS + 1].time
  {
    IndexIsLast(bars, |bars|, s + HOLDING_BARS + 1);
    IndexOf(bars, |bars|, bars[s + HOLDING_BARS + 1].time).value
  }

  /** Time passes while a position entered at bar s+1 is held. */
  predicate MovesOn(bars: seq<FxBar>, s: nat) {
    s + HOLDING_BARS + 1 < |bars| ==> bars[s + 1].time != bars[s + HOLDING_BARS + 1].time
  }

  predicate ClockMoves(bars: seq<FxBar>) {
    forall s: nat :: s < |bars| ==> MovesOn(bars, s)
  }

  lemma ReturnedBalances(cfg: RawConfig, bars: seq<FxBar>, t: Trade)
    requires Returned(cfg, bars, t)
    ensures AccountingIdentity(t)
  {
    var i, j :| RoundTrip(cfg, bars, t, i, j) && (i < j || j == |bars| - 1);
  }

  /** The record of a scheduled trade, and where it came from. */
  predicate RecordOfBlock(bars: seq<FxBar>, targets: seq<Side>, record: Record, s: nat)
    requires |bars| == |targets|
  {
    && TradeOf(bars, targets, record.trade, s) && record.signalTime == bars[s].time
    && record.entryReference == bars[s + 1].open && record.exitReference == bars[s + HOLDING_BARS + 1].open
    && record.durationSeconds == bars[s + HOLDING_BARS + 1].time - bars[s + 1].time
  }

  /** The record a trade of block s gets, if its checks pass; they pass exactly if the target before the
      bar its entry time leads to is not flat. */
  lemma BlockIsRecordedExactlyWhen(r: FxResult, bars: seq<FxBar>, targets: seq<Side>, t: Trade, s: nat)
    requires Chronological(bars) && |bars| == |targets| && TradeOf(bars, targets, t, s) && AccountingIdentity(t)
    ensures var record, entry, exit := RecordOf(r, bars, targets, t), EntryIndex(bars, s), ExitIndex(bars, s);
            if targets[entry - 1] == Flat then record == Err(HoldingSemantics)
            else record == Ok(Record(t, bars[entry - 1].time, bars[entry].open, bars[exit].open,
                                     bars[s + HOLDING_BARS + 1].time - bars[s + 1].time, r.terminatedAt.Some?))
  {
    IndexIsLast(bars, |bars|, s + 1);
    IndexIsLast(bars, |bars|, s + HOLDING_BARS + 1);
    assert bars[s + 1].time <= bars[s + HOLDING_BARS + 1].time;
  }

  /** The entry time leads to a bar of the holding period exactly if time passes during it. */
  lemma EntryWithinHolding(bars: seq<FxBar>, s: nat)
    requires Chronological(bars) && s + HOLDING_BARS + 1 < |bars|
    ensures EntryIndex(bars, s) <= s + HOLDING_BARS <==> MovesOn(bars, s)
  {
    IndexIsLast(bars, |bars|, s + 1);
    hide IndexOf;
    assert bars[s + 1].time <= bars[s + HOLDING_BARS + 1].time;
    if EntryIndex(bars, s) > s + HOLDING_BARS {
      assert bars[s + HOLDING_BARS + 1].time <= bars[EntryIndex(bars, s)].time;
    }
  }

  lemma ScheduledHasRecord(cfg: RawConfig, r: FxResult, bars: seq<FxBar>, targets: seq<Side>, t: Trade)
    requires Chronological(bars) && ClockMoves(bars) && |bars| == |targets| && AllComplete(targets)
    requires Scheduled(bars, targets, t) && Returned(cfg, bars, t)
    ensures var record := RecordOf(r, bars, targets, t);
            && record.Ok? && record.value.trade == t
            && (StrictlyChronological(bars) ==>
                  exists s :: 0 <= s < |bars| && RecordOfBlock(bars, targets, record.value, s))
  {
    ReturnedBalances(cfg, bars, t);
    var s :| 0 <= s < |targets| && TradeOf(bars, targets, t, s);
    BlockHasRecord(r, bars, targets, t, s);
  }

  lemma BlockHasRecord(r: FxResult, bars: seq<FxBar>, targets: seq<Side>, t: Trade, s: nat)
    requires Chronological(bars) && ClockMoves(bars) && |bars| == |targets| && AllComplete(targets)
    requires s < |bars| && TradeOf(bars, targets, t, s) && AccountingIdentity(t)
    ensures var record := RecordOf(r, bars, targets, t);
            && record.Ok? && record.value.trade == t
            && (StrictlyChronological(bars) ==> RecordOfBlock(bars, targets, record.value, s))
  {
    BlockIsRecordedExactlyWhen(r, bars, targets, t, s);
    assert MovesOn(bars, s);
    EntryWithinHolding(bars, s);
    assert CompleteBlock(targets, s);
    hide IndexOf, RecordOf, Chronological;
    assert targets[EntryIndex(bars, s) - 1] == targets[s];
    if StrictlyChronological(bars) {
      assert EntryIndex(bars, s) == s + 1 && ExitIndex(bars, s) == s + HOLDING_BARS + 1;
    }
  }

  /** Every trade a run returns for complete blocks has a record, as long as no holding period passes in
      no time; and with strictly increasing times it is the record of the trade's own bars. */
  lemma {:induction false} EveryTradeHasRecord(cfg: RawConfig, bars: seq<FxBar>, targets: seq<Side>)
    requires Chronological(bars) && ClockMoves(bars) && |bars| == |targets| && |bars| >= 2 && AllComplete(targets)
    requires RunResult(cfg, bars, targets).Ok?
    ensures var r := RunResult(cfg, bars, targets).value;
            forall k :: 0 <= k < |r.trades| ==>
              (var record := RecordOf(r, bars, targets, r.trades[k]);
               && record.Ok? && AccountingIdentity(record.value.trade)
               && (StrictlyChronological(bars) ==>
                     exists s :: 0 <= s < |bars| && RecordOfBlock(bars, targets, record.value, s)))
  {
    var r := RunResult(cfg, bars, targets).value;
    TradesAreScheduled(cfg, bars, targets);
    hide AfterBars, Returned, TradeOf, RecordOf, StrictlyChronological;
    forall k | 0 <= k < |r.trades|
      ensures var record := RecordOf(r, bars, targets, r.trades[k]);
              && record.Ok? && AccountingIdentity(record.value.trade)
              && (StrictlyChronological(bars) ==>
                    exists s :: 0 <= s < |bars| && RecordOfBlock(bars, targets, record.value, s))
    {
      ScheduledHasRecord(cfg, r, bars, targets, r.trades[k]);
      ReturnedBalances(cfg, bars, r.trades[k]);
    }
  }

  /** Every trade of a result is a block's, and a round trip of two bars. */
  lemma {:induction false} TradesAreScheduled(cfg: RawConfig, bars: seq<FxBar>, targets: seq<Side>)
    requires |bars| == |targets| && |bars| >= 2 && AllComplete(targets) && RunResult(cfg, bars, targets).Ok?
    ensures var r := RunResult(cfg, bars, targets).value;
            forall k :: 0 <= k < |r.trades| ==>
              Scheduled(bars, targets, r.trades[k]) && Returned(cfg, bars, r.trades[k])
  {
    RunConserves(cfg, bars, targets);
    NothingToLiquidate(cfg, bars, targets);
    RunOnSchedule(cfg, bars, targets, |bars|);
    hide AfterBars, Returned, TradeOf;
  }

  // ------------------------------------------------------------------ one stage

  /** The record of one event: confirmed at bar s, entered at the next bar's open, closed four bars later. */
  predicate EventRecord(bars: seq<FxBar>, side: Side, record: Record, s: nat)
    requires s < |bars|
  {
    && s + HOLDING_BARS + 1 < |bars| && Starts(bars, side, s)
    && record.trade.side == side && record.trade.barsHeld == HOLDING_BARS && AccountingIdentity(record.trade)
    && record.signalTime == bars[s].time && record.trade.openTime == bars[s + 1].time
    && record.trade.closeTime == bars[s + HOLDING_BARS + 1].time
    && record.entryReference == bars[s + 1].open && record.exitReference == bars[s + HOLDING_BARS + 1].open
    && record.durationSeconds == bars[s + HOLDING_BARS + 1].time - bars[s + 1].time
  }

  lemma BlockRecordsEvent(bars: seq<FxBar>, side: Side, targets: seq<Side>, record: Record, s: nat)
    requires Chronological(bars) && side != Flat && IsCleaned(Targets(bars, side), targets) && |targets| == |bars|
    requires AccountingIdentity(record.trade) && s < |bars| && RecordOfBlock(bars, targets, record, s)
    ensures EventRecord(bars, side, record, s)
  {
    TargetsAreBlocks(bars, side);
    StreamingIsDefinition(bars, side);
    StartsSurvive(Targets(bars, side), targets, s);
    BlocksStartAtConfirmations(bars, side, s);
    hide Starts, Target, Targets;
    assert targets[s] == side;
  }

  /** The records are those of the events a run of m points lives to see the end of: one each, in order. */
  ghost predicate EventsRecorded(bars: seq<FxBar>, side: Side, m: nat, records: seq<Record>, events: seq<nat>) {
    && |events| == |records| && (forall i, j :: 0 <= i < j < |events| ==> events[i] < events[j])
    && (forall k :: 0 <= k < |events| ==> events[k] < |bars| && EventRecord(bars, side, records[k], events[k]))
    && (forall s: nat :: s in events <==> s < |bars| && Starts(bars, side, s) && s + HOLDING_BARS + 1 < m)
  }

  /** What a stage returns: the records of one engine run over the cleaned targets, one for each trade, in order. */
  ghost predicate StageOf(cfg: RawConfig, bars: seq<FxBar>, side: Side, r: FxResult, records: seq<Record>) {
    && (exists targets :: IsCleaned(Targets(bars, side), targets) && RunResult(cfg, bars, targets) == Ok(r))
    && |records| == |r.trades|
    && (forall k :: 0 <= k < |records| ==> records[k].trade == r.trades[k])
    && (forall k :: 0 <= k < |records| ==> records[k].insolvent == r.terminatedAt.Some?)
    && (r.terminatedAt.None? ==> |r.curve| == |bars|)
    && (StrictlyChronological(bars) ==> exists events :: EventsRecorded(bars, side, |r.curve|, records, events))
  }

  predicate RecordsOf(r: FxResult, bars: seq<FxBar>, targets: seq<Side>, records: seq<Record>)
    requires |bars| == |targets|
  {
    |records| == |r.trades| && forall k :: 0 <= k < |records| ==>
      RecordOf(r, bars, targets, r.trades[k]) == Ok(records[k])
  }

  lemma {:induction false} RecordIsEvent(
    cfg: RawConfig, r: FxResult, bars: seq<FxBar>, side: Side, targets: seq<Side>, t: Trade, record: Record, s: nat)
    requires StrictlyChronological(bars) && side != Flat && IsCleaned(Targets(bars, side), targets)
    requires |targets| == |bars| && AllComplete(targets) && s + HOLDING_BARS + 1 < |bars| && BlockStart(targets, s)
    requires FxEquity.TradeOf(cfg, bars, FxEquity.Targets(targets), t, SegmentOf(s))
    requires RecordOf(r, bars, targets, t) == Ok(record)
    ensures EventRecord(bars, side, record, s)
  {
    TradeCosts(cfg, bars, t, s + 1, s + HOLDING_BARS + 1);
    StrictClockMoves(bars);
    hide RoundTrip, StrictlyChronological, Chronological, Targets, IsCleaned, EventRecord, RecordOfBlock, MovePnl,
         SwapOver, AllComplete, ClockMoves, CommissionExact;
    assert AccountingIdentity(t) by { TripBalances(cfg, bars, t, s + 1, s + HOLDING_BARS + 1); }
    BlockHasRecord(r, bars, targets, t, s);
    BlockRecordsEvent(bars, side, targets, record, s);
  }

  lemma TripBalances(cfg: RawConfig, bars: seq<FxBar>, t: Trade, i: int, j: int)
    requires RoundTrip(cfg, bars, t, i, j)
    ensures AccountingIdentity(t)
  {
  }

  /** Every record of a run with strict times is the record of one event, and no event the run lived to see the
      end of is missing. */
  lemma {:induction false} StageRecordsEvents(
    cfg: RawConfig, bars: seq<FxBar>, side: Side, targets: seq<Side>, records: seq<Record>)
    requires StrictlyChronological(bars) && side != Flat && IsCleaned(Targets(bars, side), targets)
    requires |bars| == |targets| && RunResult(cfg, bars, targets).Ok? && AllComplete(targets)
    requires RecordsOf(RunResult(cfg, bars, targets).value, bars, targets, records)
    ensures exists events :: EventsRecorded(bars, side, |RunResult(cfg, bars, targets).value.curve|, records, events)
  {
    var r := RunResult(cfg, bars, targets).value;
    var events := TradesOfBlocks(cfg, bars, targets);
    hide RunResult, FxEquity.TradeOf, EventRecord, RecordOf, StrictlyChronological, AllComplete, IsCleaned;
    forall k | 0 <= k < |events| ensures events[k] < |bars| && EventRecord(bars, side, records[k], events[k]) {
      assert LivesToEnd(targets, |r.curve|, events[k]);
      RecordIsEvent(cfg, r, bars, side, targets, r.trades[k], records[k], events[k]);
    }
    forall s: nat ensures s in events <==> s < |bars| && Starts(bars, side, s) && s + HOLDING_BARS + 1 < |r.curve| {
      EventIsSeen(bars, side, targets, |r.curve|,
                  s) by { FxEquity.TradesAreBlocks(cfg, bars, targets); StrictClockMoves(bars); }
    }
    assert EventsRecorded(bars, side, |r.curve|, records, events);
  }

  lemma EventIsSeen(bars: seq<FxBar>, side: Side, targets: seq<Side>, m: nat, s: nat)
    requires Chronological(bars) && side != Flat && IsCleaned(Targets(bars, side), targets)
    requires |bars| == |targets| && m <= |bars|
    ensures LivesToEnd(targets, m, s) <==> s < |bars| && Starts(bars, side, s) && s + HOLDING_BARS + 1 < m
  {
    StreamingIsDefinition(bars, side);
    TargetsAreBlocks(bars, side);
    if s < |bars| {
      BlocksStartAtConfirmations(bars, side, s);
      CleanedKeepsCompletable(Targets(bars, side), targets, s);
    }
  }

  function SideOf(variantId: string): Side {
    if variantId == LONG_VARIANT then Long else Short
  }

  predicate Tradable(bars: seq<FxBar>, variantId: string) {
    |bars| >= 2 && Chronological(bars) && (variantId == LONG_VARIANT || variantId == SHORT_VARIANT)
  }

  /** One stage of run_phase5h. For chronological bars only the engine itself and the holding check of the
      records can fail; the holding check only if some five bars in a row carry one time; and the engine
      not even then with complete symbol metadata. A result is one record for each trade of the run, in
      order, and with strictly increasing times one for each event the run lived to see the end of. */
  method RunStage(cfg: FxConfig, bars: seq<FxBar>, variantId: string) returns (result: Result<seq<Record>, StageError>)
    ensures Tradable(bars, variantId) ==> result.Ok? || result.error.EngineFailed? || result.error.HoldingSemantics?
    ensures Tradable(bars, variantId) && ClockMoves(bars) ==> result.Ok? || result.error.EngineFailed?
    ensures Tradable(bars, variantId) && Runnable(cfg) ==> result.Ok? || result.error.HoldingSemantics?
    ensures Tradable(bars, variantId) && result.Ok? ==>
              exists r :: StageOf(cfg, bars, SideOf(variantId), r, result.value)
    ensures variantId == CONTROL_VARIANT && |bars| >= 2 ==> result == Ok([])
    ensures |bars| < 2 ==> result == Err(NoUsableBars)
    ensures |bars| >= 2 && variantId != LONG_VARIANT && variantId != SHORT_VARIANT && variantId != CONTROL_VARIANT ==>
              result == Err(StrategyFailed)
  {
    hide AfterBars, RunResult, Targets, StageOf, Runnable, RecordOfBlock, StrictlyChronological, Chronological,
         ClockMoves, IsCleaned, Returned, AllComplete, RecordOf;
    if |bars| < 2 {
      return Err(NoUsableBars);
    }
    var raw := DailyRangeFailedBreakout(bars, variantId);
    if raw.Err? {
      return Err(StrategyFailed);
    }
    var targets := CompletedTargets(raw.value);
    ghost var side := SideOf(variantId);
    if Tradable(bars, variantId) { CleanedTargetsFit(bars, side, targets); }
    if variantId == CONTROL_VARIANT { FlatTradesNothing(cfg, bars, targets); }
    var rejected := ValidatePreEngineTargets(bars, targets);
    if rejected.Some? {
      return Err(TargetsRejected(rejected.value));
    }
    var engine := new FxLoop.FxBacktest(cfg);
    var run := engine.Run(bars, targets);
    if Tradable(bars, variantId) && Runnable(cfg) { EngineReturns(cfg, bars, targets); }
    if run.Err? {
      return Err(EngineFailed(run.error));
    }
    if Tradable(bars, variantId) {
      OnlyHoldingIsRefused(cfg, bars, targets);
      if ClockMoves(bars) { EveryTradeHasRecord(cfg, bars, targets); }
    }
    var records := TradeRecords(run.value, bars, targets);
    if records.Err? {
      return records;
    }
    if Tradable(bars, variantId) {
      RecordedIdentities(run.value, bars, targets, records.value);
      RecordsAreStage(cfg, bars, side, targets, records.value);
    }
    var totals, ok := Reconcile(records.value);
    if !ok {
      return Err(AccountingMismatch);
    }
    result := records;
  }

  lemma {:induction false} RecordsAreStage(
    cfg: RawConfig, bars: seq<FxBar>, side: Side, targets: seq<Side>, records: seq<Record>)
    requires side != Flat && IsCleaned(Targets(bars, side), targets)
    requires |bars| == |targets| && RunResult(cfg, bars, targets).Ok? && AllComplete(targets)
    requires RecordsOf(RunResult(cfg, bars, targets).value, bars, targets, records)
    ensures StageOf(cfg, bars, side, RunResult(cfg, bars, targets).value, records)
  {
    var r := RunResult(cfg, bars, targets).value;
    FxEquity.TradesAreBlocks(cfg, bars, targets);
    if StrictlyChronological(bars) { StageRecordsEvents(cfg, bars, side, targets, records); }
    RecordsKeepTrades(r, bars, targets, records);
    hide RunResult, RecordsOf, StrictlyChronological, EventsRecorded, FxEquity.TradesOf, AfterBars;
    assert IsCleaned(Targets(bars, side), targets) && RunResult(cfg, bars, targets) == Ok(r);
  }

  lemma RecordsKeepTrades(r: FxResult, bars: seq<FxBar>, targets: seq<Side>, records: seq<Record>)
    requires |bars| == |targets| && RecordsOf(r, bars, targets, records)
    ensures |records| == |r.trades|
    ensures forall k :: 0 <= k < |records| ==> records[k].trade == r.trades[k]
    ensures forall k :: 0 <= k < |records| ==> records[k].insolvent == r.terminatedAt.Some?
  {
    hide IndexOf;
  }

  /** With nothing but flat targets there is nothing to check, to trade or to fail at. */
  lemma {:induction false} FlatTradesNothing(cfg: RawConfig, bars: seq<FxBar>, targets: seq<Side>)
    requires |bars| == |targets| >= 2 && forall i :: 0 <= i < |targets| ==> targets[i] == Flat
    ensures AllComplete(targets)
    ensures RunResult(cfg, bars, targets).Ok? && RunResult(cfg, bars, targets).value.trades == []
  {
    FlatStays(cfg, bars, targets, |bars|);
    CurveGrows(cfg, bars, targets, |bars|);
  }

  lemma {:induction false} FlatStays(cfg: RawConfig, bars: seq<FxBar>, targets: seq<Side>, n: nat)
    requires n <= |bars| == |targets| && forall i :: 0 <= i < |targets| ==> targets[i] == Flat
    ensures var st := AfterBars(cfg, bars, targets, n);
            !st.status.Failed? && st.position.None? && st.trades == []
  {
    if n > 0 { FlatStays(cfg, bars, targets, n - 1); }
  }

  lemma CleanedTargetsFit(bars: seq<FxBar>, side: Side, targets: seq<Side>)
    requires Chronological(bars) && side != Flat && IsCleaned(Targets(bars, side), targets)
    ensures |targets| == |bars| && AllComplete(targets)
  {
    StreamingIsDefinition(bars, side);
    TargetsAreBlocks(bars, side);
    CleanedIsComplete(Targets(bars, side), targets);
  }

  lemma EngineReturns(cfg: RawConfig, bars: seq<FxBar>, targets: seq<Side>)
    requires Chronological(bars) && |bars| == |targets| && |bars| >= 2 && AllComplete(targets) && Runnable(cfg)
    ensures RunResult(cfg, bars, targets).Ok?
  {
    EngineSucceeds(cfg, bars, targets, |bars|);
    NothingToLiquidate(cfg, bars, targets);
  }

  /** Whatever the timestamps, chronological bars can only fail the holding check, and an accepted record
      always balances. */
  lemma {:induction false} OnlyHoldingIsRefused(cfg: RawConfig, bars: seq<FxBar>, targets: seq<Side>)
    requires Chronological(bars) && |bars| == |targets| && |bars| >= 2 && AllComplete(targets)
    requires RunResult(cfg, bars, targets).Ok?
    ensures var r := RunResult(cfg, bars, targets).value;
            forall k :: 0 <= k < |r.trades| ==>
              (var record := RecordOf(r, bars, targets, r.trades[k]);
               if record.Ok? then AccountingIdentity(record.value.trade) else record.error == HoldingSemantics)
  {
    var r := RunResult(cfg, bars, targets).value;
    TradesAreScheduled(cfg, bars, targets);
    hide RunResult, RecordOf, Returned, TradeOf;
    forall k | 0 <= k < |r.trades|
      ensures var record := RecordOf(r, bars, targets, r.trades[k]);
              if record.Ok? then AccountingIdentity(record.value.trade) else record.error == HoldingSemantics
    {
      ReturnedBalances(cfg, bars, r.trades[k]);
      var s :| 0 <= s < |targets| && TradeOf(bars, targets, r.trades[k], s);
      BlockIsRecordedExactlyWhen(r, bars, targets, r.trades[k], s);
    }
  }

  lemma StrictClockMoves(bars: seq<FxBar>)
    requires StrictlyChronological(bars)
    ensures Chronological(bars) && ClockMoves(bars)
  {
  }

  lemma RecordedIdentities(r: FxResult, bars: seq<FxBar>, targets: seq<Side>, records: seq<Record>)
    requires |bars| == |targets| && |records| == |r.trades|
    requires forall k :: 0 <= k < |records| ==> RecordOf(r, bars, targets, r.trades[k]) == Ok(records[k])
    ensures Reconciles(Total(records))
  {
    IdentitiesReconcile(records);
  }

  /** No event is lost: unless the account went insolvent, every confirmation with room for an entry and
      four complete bars has its trade. */
  lemma {:induction false} EveryEventIsTraded(cfg: RawConfig, bars: seq<FxBar>, side: Side, targets: seq<Side>, s: nat)
    requires Chronological(bars) && side != Flat && IsCleaned(Targets(bars, side), targets)
    requires |bars| == |targets| && |bars| >= 2 && RunResult(cfg, bars, targets).Ok?
    requires RunResult(cfg, bars, targets).value.terminatedAt.None?
    requires s + HOLDING_BARS + 1 < |bars| && Starts(bars, side, s)
    ensures Traded(bars, targets, RunResult(cfg, bars, targets).value.trades, s)
  {
    CleanedTargetsFit(bars, side, targets);
    StreamingIsDefinition(bars, side);
    TargetsAreBlocks(bars, side);
    BlocksStartAtConfirmations(bars, side, s);
    CleanedKeepsCompletable(Targets(bars, side), targets, s);
    NothingToLiquidate(cfg, bars, targets);
    hide StepBar, Targets, Starts, Chronological, IsCleaned, Traded;
    EveryBlockIsTraded(cfg, bars, targets, |bars|);
  }
}
