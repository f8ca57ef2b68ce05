/** Live-tick clock normalization: the broker clock's offset is learnt from the skew of a tick and
    relearnt only on a clean half-hour step. Times are real seconds. */
module ServerClock {
  import opened Common

  const HALF_HOUR_SECONDS := 1800
  const MAX_BROKER_OFFSET_SECONDS := 14 * 3600
  const TOLERANCE_SECONDS := 5.0

  datatype Calibration = Calibration(offset: real, calibratedAt: real)

  datatype ClockError = ImplausibleChange | ImplausibleOffset | NotOnBoundary

  function Abs(x: real): real {
    if x < 0.0 then -x else x
  }

  function AbsInt(x: int): int {
    if x < 0 then -x else x
  }

  /** The nearest multiple of half an hour, ties away from zero. */
  function NearestHalfHour(seconds: real): int {
    var units :=
      if seconds >= 0.0 then ((seconds + 900.0) / 1800.0).Floor else -((-seconds + 900.0) / 1800.0).Floor;
    units * HALF_HOUR_SECONDS
  }

  function CalibrateInitial(raw: real, now: real): Result<Calibration, ClockError> {
    var measured := raw - now;
    var rounded := NearestHalfHour(measured);
    if AbsInt(rounded) > MAX_BROKER_OFFSET_SECONDS then Err(ImplausibleOffset)
    else if Abs(measured - rounded as real) > TOLERANCE_SECONDS then Err(NotOnBoundary)
    else Ok(Calibration(rounded as real, now))
  }

  /** One tick: the calibration it leaves behind and the UTC time it yields. */
  function Tick(current: Option<Calibration>, raw: real, now: real): (Option<Calibration>, Result<real, ClockError>) {
    match current
    case None =>
      var initial := CalibrateInitial(raw, now);
      if initial.Err? then (None, Err(initial.error)) else (Some(initial.value), Ok(raw - initial.value.offset))
    case Some(known) =>
      var corrected := raw - known.offset;
      var change := NearestHalfHour(corrected - now);
      if change != 0 && Abs(corrected - now - change as real) <= TOLERANCE_SECONDS then
        var offset := known.offset + change as real;
        if Abs(offset) > MAX_BROKER_OFFSET_SECONDS as real then (current, Err(ImplausibleChange))
        else (Some(Calibration(offset, now)), Ok(raw - offset))
      else (current, Ok(corrected))
  }

  class ServerClockOffset {
    var calibration: Option<Calibration>

    constructor ()
      ensures calibration == None
    {
      calibration := None;
    }

    method ToUtc(raw: real, now: real) returns (result: Result<real, ClockError>)
      modifies this
      ensures (calibration, result) == Tick(old(calibration), raw, now)
    {
      if calibration.None? {
        var initial := CalibrateInitial(raw, now);
        if initial.Err? {
          return Err(initial.error);
        }
        calibration := Some(initial.value);
        return Ok(raw - initial.value.offset);
      }
      var known := calibration.value;
      var corrected := raw - known.offset;
      var residual := corrected - now;
      var change := NearestHalfHour(residual);
      if change != 0 && Abs(residual - change as real) <= TOLERANCE_SECONDS {
        var offset := known.offset + change as real;
        if Abs(offset) > MAX_BROKER_OFFSET_SECONDS as real {
          return Err(ImplausibleChange);
        }
        calibration := Some(Calibration(offset, now));
        return Ok(raw - offset);
      }
      result := Ok(corrected);
    }

    method Reset()
      modifies this
      ensures calibration == None
    {
      calibration := None;
    }
  }

  // ------------------------------------------------------------------ rounding

  /** The rounded value is a multiple of half an hour and no other multiple is nearer. */
  lemma NearestIsNearest(seconds: real, n: int)
    ensures NearestHalfHour(seconds) % 1800 == 0
    ensures Abs(seconds - NearestHalfHour(seconds) as real) <= 900.0
    ensures Abs(seconds - NearestHalfHour(seconds) as real) <= Abs(seconds - (1800 * n) as real)
  {
    var near := NearestHalfHour(seconds);
    var units := if seconds >= 0.0 then ((seconds + 900.0) / 1800.0).Floor else -((-seconds + 900.0) / 1800.0).Floor;
    assert near == 1800 * units;
    assert Abs(seconds - near as real) <= 900.0;
    if n < units {
      assert (1800 * n) as real <= near as real - 1800.0;
    } else if units < n {
      assert near as real + 1800.0 <= (1800 * n) as real;
    }
  }

  /** A value within the tolerance of a multiple rounds to that multiple. */
  lemma RoundsTo(seconds: real, n: int)
    requires Abs(seconds - (1800 * n) as real) <= TOLERANCE_SECONDS
    ensures NearestHalfHour(seconds) == 1800 * n
  {
    NearestIsNearest(seconds, n);
    var near := NearestHalfHour(seconds);
    var units := near / 1800;
    assert near == 1800 * units;
    assert n < units ==> (1800 * n) as real <= near as real - 1800.0;
    assert units < n ==> near as real + 1800.0 <= (1800 * n) as real;
  }

  // ------------------------------------------------------------------ every history

  datatype ClockEvent = TickEvent(raw: real, now: real) | ResetEvent

  /** The calibration after a whole history of ticks and resets. */
  function After(events: seq<ClockEvent>): Option<Calibration> {
    if events == [] then None
    else
      match events[|events| - 1]
      case TickEvent(raw, now) => Tick(After(events[..|events| - 1]), raw, now).0
      case ResetEvent => None
  }

  predicate InRange(n: int) {
    AbsInt(1800 * n) <= MAX_BROKER_OFFSET_SECONDS
  }

  /** n is the half-hour boundary the tick's skew lies on, if any. */
  predicate OnBoundary(raw: real, now: real, n: int) {
    Abs(raw - now - (1800 * n) as real) <= TOLERANCE_SECONDS
  }

  ghost predicate Aligned(current: Option<Calibration>) {
    current.Some? ==> exists n :: InRange(n) && current.value.offset == (1800 * n) as real
  }

  predicate Knows(current: Option<Calibration>, offset: real) {
    current.Some? && current.value.offset == offset
  }

  /** Complete behaviour of a tick on a boundary: any calibration there was is forgotten. In range,
      the offset becomes exactly that boundary, dated now unless it was known already; out of range,
      the tick is refused. */
  lemma {:induction false} TickOnBoundary(current: Option<Calibration>, raw: real, now: real, n: int)
    requires Aligned(current) && OnBoundary(raw, now, n)
    ensures var (next, result) := Tick(current, raw, now);
            if InRange(n) then
              && next == (if Knows(current, (1800 * n) as real) then current
                          else Some(Calibration((1800 * n) as real, now)))
              && result == Ok(raw - (1800 * n) as real)
            else next == current && result == Err(if current.None? then ImplausibleOffset else ImplausibleChange)
  {
    match current
    case None =>
      RoundsTo(raw - now, n);
    case Some(known) =>
      var m :| InRange(m) && known.offset == (1800 * m) as real;
      assert raw - known.offset - now - (1800 * (n - m)) as real == raw - now - (1800 * n) as real;
      RoundsTo(raw - known.offset - now, n - m);
  }

  /** Complete behaviour of a tick off every boundary: without calibration it is refused, as too far off from
      where the next boundary would be out of range, with one it is corrected by the known offset and
      teaches nothing. */
  lemma TickOffBoundary(current: Option<Calibration>, raw: real, now: real)
    requires Aligned(current) && forall n :: !OnBoundary(raw, now, n)
    ensures var (next, result) := Tick(current, raw, now);
            && next == current
            && (current.None? ==>
                  result == Err(if Abs(raw - now) >= MAX_BROKER_OFFSET_SECONDS as real + 900.0 then ImplausibleOffset
                                else NotOnBoundary))
            && (current.Some? ==> result == Ok(raw - current.value.offset))
  {
    match current
    case None =>
      NearestIsNearest(raw - now, 0);
      var n := NearestHalfHour(raw - now) / 1800;
      assert !OnBoundary(raw, now, n);
    case Some(known) =>
      var m :| InRange(m) && known.offset == (1800 * m) as real;
      NearestIsNearest(raw - known.offset - now, 0);
      var n := NearestHalfHour(raw - known.offset - now) / 1800;
      assert !OnBoundary(raw, now, n + m);
      assert raw - known.offset - now - (1800 * n) as real == raw - now - (1800 * (n + m)) as real;
  }

  lemma TickKeepsAligned(current: Option<Calibration>, raw: real, now: real)
    requires Aligned(current)
    ensures Aligned(Tick(current, raw, now).0)
  {
    if n :| OnBoundary(raw, now, n) {
      TickOnBoundary(current, raw, now, n);
    } else {
      TickOffBoundary(current, raw, now);
    }
  }

  /** Every reachable offset is a multiple of half an hour within fourteen hours. */
  lemma {:induction false} EveryOffsetIsAligned(events: seq<ClockEvent>)
    ensures Aligned(After(events))
  {
    if events != [] {
      var last := events[|events| - 1];
      EveryOffsetIsAligned(events[..|events| - 1]);
      if last.TickEvent? { TickKeepsAligned(After(events[..|events| - 1]), last.raw, last.now); }
    }
  }

  /** Self-stabilization: whatever happened before, one tick whose skew is within five seconds of a
      plausible boundary leaves exactly that boundary as the offset. */
  lemma {:induction false} SelfStabilizing(events: seq<ClockEvent>, now: real, k: int, d: real)
    requires InRange(k) && Abs(d) <= TOLERANCE_SECONDS
    ensures var (next, result) := Tick(After(events), now + (1800 * k) as real + d, now);
            next.Some? && next.value.offset == (1800 * k) as real && result == Ok(now + d)
  {
    EveryOffsetIsAligned(events);
    TickOnBoundary(After(events), now + (1800 * k) as real + d, now, k);
  }

  /** Every returned time is within five seconds of the bridge clock, or is the raw time minus an
      offset the tick did not change; a refused tick changes nothing. */
  lemma {:induction false} ReturnedTimes(events: seq<ClockEvent>, raw: real, now: real)
    ensures var current := After(events);
            var (next, result) := Tick(current, raw, now);
            && (result.Ok? ==> Abs(result.value - now) <= TOLERANCE_SECONDS ||
                               (next == current && current.Some? && result.value == raw - current.value.offset))
            && (result.Err? ==> next == current)
  {
    EveryOffsetIsAligned(events);
    if n :| OnBoundary(raw, now, n) {
      TickOnBoundary(After(events), raw, now, n);
    } else {
      TickOffBoundary(After(events), raw, now);
    }
  }
}
