/** From events to trades, one to one: the blocks of cleaned targets are the segments the engine trades,
    so a run has exactly one trade for each completable confirmation it lives to see the end of. */
module Phase5hEvents {
  import opened Common
  import opened FxCosts
  import opened FxEngine
  import opened FailedBreakout
  import opened Phase5hTargets
  import opened Segments
  import opened FxRuns
  import FxEquity

  /** The block that signal k belongs to. */
  lemma {:induction false} BlockOf(signals: seq<Side>, k: nat) returns (start: nat)
    requires AllComplete(signals) && k < |signals| && signals[k] != Flat
    ensures start <= k < start + HOLDING_BARS && BlockStart(signals, start) && CompleteBlock(signals, start)
  {
    start := k;
    if k > 0 && signals[k - 1] != Flat {
      start := BlockOf(signals, k - 1);
      assert k < start + HOLDING_BARS;
    }
  }

  /** The segment of the shifted signals that block s becomes. */
  function SegmentOf(s: nat): Segment {
    Segment(s + 1, s + HOLDING_BARS + 1)
  }

  lemma {:induction false} SegmentIsBlock(signals: seq<Side>, g: Segment)
    requires AllComplete(signals) && |signals| > 0 && IsSegment(FxEquity.Targets(signals), Flat, g)
    ensures g.from > 0 && BlockStart(signals, g.from - 1) && g == SegmentOf(g.from - 1)
  {
    var s := g.from - 1;
    var start := BlockOf(signals, s);
    assert forall j :: start <= j <= s ==> signals[j] == signals[s];
    assert s > 0 ==> FxEquity.Targets(signals)[s] == signals[s - 1];
    assert CompleteBlock(signals, s);
    assert FxEquity.Targets(signals)[s + HOLDING_BARS + 1] == Flat;
    assert forall j :: s < j < s + HOLDING_BARS + 1 ==> FxEquity.Targets(signals)[j] == signals[s];
  }

  lemma {:induction false} BlockIsSegment(signals: seq<Side>, s: nat)
    requires AllComplete(signals) && s < |signals| && BlockStart(signals, s)
    ensures s + HOLDING_BARS + 1 < |signals| && IsSegment(FxEquity.Targets(signals), Flat, SegmentOf(s))
  {
    assert CompleteBlock(signals, s);
  }

  lemma {:induction false} NoLastBlock(signals: seq<Side>)
    requires AllComplete(signals) && |signals| > 0
    ensures FxEquity.LastBlock(FxEquity.Targets(signals)) == []
  {
    var n := |signals|;
    if n >= 2 && signals[n - 2] != Flat {
      var start := BlockOf(signals, n - 2);
    }
  }

  predicate LivesToEnd(signals: seq<Side>, m: nat, s: nat) {
    s < |signals| && BlockStart(signals, s) && s + HOLDING_BARS + 1 < m
  }

  /** The blocks a run of m points lives to see the end of, in order. */
  ghost predicate BlocksTraded(signals: seq<Side>, m: nat, starts: seq<nat>) {
    && (forall i, j :: 0 <= i < j < |starts| ==> starts[i] < starts[j])
    && (forall k :: 0 <= k < |starts| ==> LivesToEnd(signals, m, starts[k]))
    && (forall s: nat :: LivesToEnd(signals, m, s) ==> s in starts)
  }

  /** g is what the block before its first bar becomes. */
  predicate FromBlock(signals: seq<Side>, m: nat, g: Segment) {
    g.from > 0 && LivesToEnd(signals, m, g.from - 1) && g == SegmentOf(g.from - 1)
  }

  predicate FromBlocks(signals: seq<Side>, m: nat, segs: seq<Segment>) {
    forall k :: 0 <= k < |segs| ==> FromBlock(signals, m, segs[k])
  }

  ghost function StartsOf(signals: seq<Side>, m: nat, segs: seq<Segment>): (starts: seq<nat>)
    requires FromBlocks(signals, m, segs)
    ensures |starts| == |segs| && forall k :: 0 <= k < |starts| ==> segs[k] == SegmentOf(starts[k])
    ensures forall k :: 0 <= k < |starts| ==> LivesToEnd(signals, m, starts[k])
  {
    if segs == [] then []
    else StartsOf(signals, m, segs[..|segs| - 1]) + [segs[|segs| - 1].from - 1]
  }

  lemma {:induction false} SegsAreSeen(signals: seq<Side>, m: nat)
    requires AllComplete(signals) && 0 < m <= |signals|
    ensures FromBlocks(signals, m, Segs(FxEquity.Targets(signals), Flat, m))
  {
    var segs := Segs(FxEquity.Targets(signals), Flat, m);
    SegsExact(FxEquity.Targets(signals), Flat, m);
    hide IsSegment, AllComplete, FxEquity.Targets;
    forall k | 0 <= k < |segs| ensures FromBlock(signals, m, segs[k]) {
      assert segs[k] in segs;
      SegmentIsBlock(signals, segs[k]);
      BlockIsSegment(signals, segs[k].from - 1);
    }
  }

  lemma {:induction false} StartIsListed(signals: seq<Side>, m: nat, starts: seq<nat>, s: nat)
    requires AllComplete(signals) && 0 < m <= |signals| && LivesToEnd(signals, m, s)
    requires var segs := Segs(FxEquity.Targets(signals), Flat, m);
             |starts| == |segs| && forall k :: 0 <= k < |segs| ==> segs[k] == SegmentOf(starts[k])
    ensures s in starts
  {
    var segs := Segs(FxEquity.Targets(signals), Flat, m);
    SegsExact(FxEquity.Targets(signals), Flat, m);
    BlockIsSegment(signals, s);
    assert SegmentOf(s) in segs;
    var k :| 0 <= k < |segs| && segs[k] == SegmentOf(s);
    assert starts[k] == s;
  }

  lemma {:induction false} SegmentsAreBlocks(signals: seq<Side>, m: nat) returns (starts: seq<nat>)
    requires AllComplete(signals) && 0 < m <= |signals|
    ensures BlocksTraded(signals, m, starts)
    ensures var segs := Segs(FxEquity.Targets(signals), Flat, m);
            |starts| == |segs| && forall k :: 0 <= k < |segs| ==> segs[k] == SegmentOf(starts[k])
  {
    var segs := Segs(FxEquity.Targets(signals), Flat, m);
    SegsAreSeen(signals, m);
    starts := StartsOf(signals, m, segs);
    forall i, j | 0 <= i < j < |starts| ensures starts[i] < starts[j] {
      SegsExact(FxEquity.Targets(signals), Flat, m);
      assert segs[i].until <= segs[j].from;
    }
    hide IsSegment, AllComplete, FxEquity.Targets, LivesToEnd;
    forall s: nat | LivesToEnd(signals, m, s) ensures s in starts {
      StartIsListed(signals, m, starts, s);
    }
  }

  /** One trade for each block the run lives to see the end of, in order. */
  lemma {:induction false} TradesOfBlocks(cfg: RawConfig, bars: seq<FxBar>, signals: seq<Side>)
    returns (starts: seq<nat>)
    requires AllComplete(signals) && RunResult(cfg, bars, signals).Ok?
    ensures var r := RunResult(cfg, bars, signals).value;
            && |bars| == |signals| && BlocksTraded(signals, |r.curve|, starts) && |starts| == |r.trades|
            && (forall k :: 0 <= k < |starts| ==>
                  starts[k] + HOLDING_BARS + 1 < |bars| &&
                  FxEquity.TradeOf(cfg, bars, FxEquity.Targets(signals), r.trades[k], SegmentOf(starts[k])))
  {
    var r := RunResult(cfg, bars, signals).value;
    FxEquity.TradesAreBlocks(cfg, bars, signals);
    NoLastBlock(signals);
    starts := SegmentsAreBlocks(signals, |r.curve|);
    hide RunResult, FxEquity.Targets, FxEquity.TradeOf, AllComplete;
    assert Segs(FxEquity.Targets(signals), Flat, |r.curve|) + [] == Segs(FxEquity.Targets(signals), Flat, |r.curve|);
    forall k | 0 <= k < |starts| ensures starts[k] + HOLDING_BARS + 1 < |bars| {
      assert LivesToEnd(signals, |r.curve|, starts[k]);
    }
  }
}
