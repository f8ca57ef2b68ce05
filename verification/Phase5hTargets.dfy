/** Between the strategy and the engine: targets whose trade could not be completed before the data
    end are removed, and what is left is checked block by block. */
module Phase5hTargets {
  import opened Common
  import opened FxCosts
  import opened FxEngine
  import opened FailedBreakout

  datatype TargetError = LengthsDiffer | IncompleteBlock(index: nat)

  /** Target j belongs to a block that starts too late for an entry and four complete bars. */
  predicate Masked(targets: seq<Side>, j: int) {
    exists i :: 0 <= i < |targets| && i <= j < i + HOLDING_BARS && TailStart(targets, i)
  }

  predicate TailStart(targets: seq<Side>, i: int)
    requires 0 <= i < |targets|
  {
    BlockStart(targets, i) && i + HOLDING_BARS + 1 >= |targets|
  }

  predicate IsCleaned(targets: seq<Side>, output: seq<Side>) {
    |output| == |targets| &&
    forall j :: 0 <= j < |targets| ==> output[j] == if Masked(targets, j) then Flat else targets[j]
  }

  predicate MaskedBefore(targets: seq<Side>, n: int, j: int)
    requires n <= |targets|
  {
    exists i :: 0 <= i < n && i <= j < i + HOLDING_BARS && TailStart(targets, i)
  }

  lemma MaskedNext(targets: seq<Side>, n: nat, j: int)
    requires n < |targets|
    ensures MaskedBefore(targets, n + 1, j) <==>
            MaskedBefore(targets, n, j) || (n <= j < n + HOLDING_BARS && TailStart(targets, n))
  {
    if MaskedBefore(targets, n, j) {
      var i :| 0 <= i < n && i <= j < i + HOLDING_BARS && TailStart(targets, i);
      assert i < n + 1;
    }
  }

  /** _completed_targets: overwrites a copy, but decides block starts on the original. */
  method CompletedTargets(targets: seq<Side>) returns (output: seq<Side>)
    ensures IsCleaned(targets, output)
  {
    output := targets;
    for i := 0 to |targets|
      invariant |output| == |targets|
      invariant forall j :: 0 <= j < |targets| ==> output[j] == if MaskedBefore(targets, i, j) then Flat else targets[j]
    {
      forall j ensures MaskedBefore(targets, i + 1, j) <==>
                       MaskedBefore(targets, i, j) || (i <= j < i + HOLDING_BARS && TailStart(targets, i)) {
        MaskedNext(targets, i, j);
      }
      var isBlockStart := targets[i] != Flat && (i == 0 || targets[i - 1] == Flat);
      if isBlockStart && i + HOLDING_BARS + 1 >= |targets| {
        output := Flattened(output, i, if i + HOLDING_BARS < |targets| then i + HOLDING_BARS else |targets|);
      }
    }
    forall j | 0 <= j < |targets| ensures MaskedBefore(targets, |targets|, j) <==> Masked(targets, j) {
    }
  }

  method Flattened(targets: seq<Side>, lo: nat, hi: nat) returns (output: seq<Side>)
    requires lo <= hi <= |targets|
    ensures |output| == |targets|
    ensures forall j :: 0 <= j < |targets| ==> output[j] == if lo <= j < hi then Flat else targets[j]
  {
    output := targets;
    for j := lo to hi
      invariant |output| == |targets|
      invariant forall k :: 0 <= k < |targets| ==> output[k] == if lo <= k < j then Flat else targets[k]
    {
      output := output[j := Flat];
    }
  }

  /** Block i has its four targets, a flat one after them, and bars for entry and exit. */
  predicate CompleteBlock(signals: seq<Side>, i: int)
    requires 0 <= i < |signals|
  {
    && i + HOLDING_BARS + 1 < |signals|
    && (forall j :: i <= j < i + HOLDING_BARS ==> signals[j] == signals[i])
    && signals[i + HOLDING_BARS] == Flat
  }

  predicate AllComplete(signals: seq<Side>) {
    forall i :: 0 <= i < |signals| && BlockStart(signals, i) ==> CompleteBlock(signals, i)
  }

  /** _validate_pre_engine_targets: fails at the first incomplete block, and only there. */
  method ValidatePreEngineTargets(bars: seq<FxBar>, signals: seq<Side>) returns (error: Option<TargetError>)
    ensures error.None? <==> |bars| == |signals| && AllComplete(signals)
    ensures error == Some(LengthsDiffer) <==> |bars| != |signals|
    ensures error.Some? && error.value.IncompleteBlock? ==>
              (var i := error.value.index;
               && i < |signals| && BlockStart(signals, i) && !CompleteBlock(signals, i)
               && forall k :: 0 <= k < i && BlockStart(signals, k) ==> CompleteBlock(signals, k))
  {
    if |bars| != |signals| {
      return Some(LengthsDiffer);
    }
    for i := 0 to |signals|
      invariant forall k :: 0 <= k < i && BlockStart(signals, k) ==> CompleteBlock(signals, k)
    {
      var isBlockStart := signals[i] != Flat && (i == 0 || signals[i - 1] == Flat);
      if !isBlockStart {
        continue;
      }
      var completeTargets :=
        i + HOLDING_BARS < |signals| && (forall j :: i <= j < i + HOLDING_BARS ==> signals[j] == signals[i])
        && signals[i + HOLDING_BARS] == Flat;
      var completeExecution := i + HOLDING_BARS + 1 < |bars|;
      if !completeTargets || !completeExecution {
        assert BlockStart(signals, i) && !CompleteBlock(signals, i);
        return Some(IncompleteBlock(i));
      }
    }
    error := None;
  }

  lemma NoStartInside(targets: seq<Side>, s: int, k: int)
    requires Blocks(targets) && 0 <= s < k < s + HOLDING_BARS && k < |targets| && BlockStart(targets, s)
    ensures !BlockStart(targets, k)
  {
    assert FourThenFlat(targets, s);
    assert targets[k - 1] == targets[s];
  }

  /** Blocks do not overlap. */
  lemma BlocksAreApart(targets: seq<Side>, s: int, i: int, j: int)
    requires Blocks(targets) && 0 <= s < |targets| && 0 <= i < |targets| && BlockStart(targets, s)
    requires BlockStart(targets, i)
    requires s <= j < s + HOLDING_BARS && i <= j < i + HOLDING_BARS
    ensures s == i
  {
    forall k | s < k < s + HOLDING_BARS && k < |targets| ensures !BlockStart(targets, k) {
      NoStartInside(targets, s, k);
    }
    forall k | i < k < i + HOLDING_BARS && k < |targets| ensures !BlockStart(targets, k) {
      NoStartInside(targets, i, k);
    }
  }

  lemma OnlyItsStartMasks(targets: seq<Side>, i: int, j: int)
    requires Blocks(targets) && 0 <= i <= j < i + HOLDING_BARS && j < |targets| && BlockStart(targets, i)
    ensures Masked(targets, j) <==> TailStart(targets, i)
  {
    forall s | 0 <= s < |targets| && s <= j < s + HOLDING_BARS && TailStart(targets, s) ensures s == i {
      BlocksAreApart(targets, s, i, j);
    }
  }

  lemma BehindABlock(targets: seq<Side>, i: int)
    requires Blocks(targets) && 0 < i < |targets|
    ensures Masked(targets, i - 1) ==> Masked(targets, i) || targets[i] == Flat
  {
    if Masked(targets, i - 1) {
      var s :| 0 <= s < |targets| && s <= i - 1 < s + HOLDING_BARS && TailStart(targets, s);
      assert FourThenFlat(targets, s);
      assert i < s + HOLDING_BARS ==> s <= i < s + HOLDING_BARS && TailStart(targets, s);
    }
  }

  /** Removing a tail block exposes no new block start. */
  lemma StartsSurvive(targets: seq<Side>, output: seq<Side>, i: int)
    requires Blocks(targets) && IsCleaned(targets, output) && 0 <= i < |targets| && BlockStart(output, i)
    ensures BlockStart(targets, i) && !Masked(targets, i) && output[i] == targets[i]
  {
    if i > 0 { BehindABlock(targets, i); }
  }

  /** Cleaning turns blocks into complete blocks: what it keeps always passes the validator. */
  lemma CleanedIsComplete(targets: seq<Side>, output: seq<Side>)
    requires Blocks(targets) && IsCleaned(targets, output)
    ensures AllComplete(output)
  {
    forall i | 0 <= i < |output| && BlockStart(output, i) ensures CompleteBlock(output, i) {
      StartsSurvive(targets, output, i);
      assert FourThenFlat(targets, i);
      OnlyItsStartMasks(targets, i, i);
      forall j | i <= j < i + HOLDING_BARS ensures output[j] == output[i] { OnlyItsStartMasks(targets, i, j); }
    }
  }

  /** Cleaning keeps exactly the blocks that can be completed. */
  lemma CleanedKeepsCompletable(targets: seq<Side>, output: seq<Side>, i: int)
    requires Blocks(targets) && IsCleaned(targets, output) && 0 <= i < |targets|
    ensures BlockStart(output, i) <==> BlockStart(targets, i) && i + HOLDING_BARS + 1 < |targets|
  {
    if BlockStart(output, i) { StartsSurvive(targets, output, i); }
    if BlockStart(targets, i) { OnlyItsStartMasks(targets, i, i); }
  }
}
