/** packages/core/src/engine/segmenter.ts: how a stream of samples becomes drives and charges,
    one sample at a time and never looking back. Instants are in milliseconds. */
module Segmenter {
  import opened Collections

  datatype Kind = Drive | Charge | Idle

  datatype ChargeState = Disconnected | Connected | Charging | Complete | Stopped

  datatype Gear = P | R | N | D

  /** The columns of `VehicleSample` that the engine reads. */
  datatype Sample = Sample(
    ts: int,
    speedKph: Option<real>,
    odometerKm: Option<real>,
    gear: Option<Gear>,
    chargeState: Option<ChargeState>,
    socPct: Option<real>,
    chargeEnergyAddedKwh: Option<real>,
    nominalFullPackEnergyKwh: Option<real>)

  datatype Options = Options(
    driveEndParkedMs: int,
    chargeResumeWindowMs: int,
    sampleGapResetMs: int,
    movingSpeedKph: real)

  const DEFAULT_OPTIONS := Options(5 * 60_000, 10 * 60_000, 60 * 60_000, 1.0)

  datatype Motion = Moving | Stationary | Unknown

  datatype OpenSession = OpenSession(
    kind: Kind,
    startedAt: int,
    startSample: Sample,
    lastSample: Sample,
    stationarySince: Option<int>,
    pausedSample: Option<Sample>)

  datatype State = State(open: Option<OpenSession>, lastTs: Option<int>)

  const INITIAL := State(None, None)

  datatype Event =
    | Start(kind: Kind, at: int, sample: Sample)
    | Point(sample: Sample)
    | End(kind: Kind, at: int, sample: Sample)

  predicate InGear(sample: Sample) {
    sample.gear == Some(D) || sample.gear == Some(R) || sample.gear == Some(N)
  }

  function MotionOf(sample: Sample, prev: Option<Sample>, opts: Options): Motion {
    if sample.speedKph.Some? then
      if sample.speedKph.value > opts.movingSpeedKph then Moving else Stationary
    else if sample.gear == Some(P) then Stationary
    else if sample.odometerKm.Some? && prev.Some? && prev.value.odometerKm.Some?
            && sample.odometerKm.value > prev.value.odometerKm.value then Moving
    else Unknown
  }

  predicate IsCharging(sample: Sample) {
    sample.chargeState == Some(Charging)
  }

  /** The sample a session is ended on, which may lie before the one that showed it was over. */
  function EndSample(open: OpenSession): Sample {
    if open.kind == Charge && open.pausedSample.Some? then open.pausedSample.value else open.lastSample
  }

  function EndEvent(open: OpenSession): Event {
    End(open.kind, EndSample(open).ts, EndSample(open))
  }

  function Opened(kind: Kind, sample: Sample): OpenSession {
    OpenSession(kind, sample.ts, sample, sample, None, None)
  }

  /** How long `sample` comes after `since`. */
  function Elapsed(since: Option<int>, sample: Sample): int {
    if since.Some? then sample.ts - since.value else 0
  }

  function LastOf(open: Option<OpenSession>): Option<Sample> {
    if open.Some? then Some(open.value.lastSample) else None
  }

  /** Too long a gap closes whatever is open. */
  function Gap(state: State, sample: Sample, opts: Options): (Option<OpenSession>, seq<Event>) {
    if state.open.Some? && Elapsed(state.lastTs, sample) > opts.sampleGapResetMs
    then (None, [EndEvent(state.open.value)])
    else (state.open, [])
  }

  /** A sample during a charge. */
  function DuringCharge(open: OpenSession, sample: Sample, motion: Motion, opts: Options): (Option<OpenSession>, seq<Event>) {
    var pausedFor := if open.pausedSample.Some? then sample.ts - open.pausedSample.value.ts else 0;
    var terminal := sample.chargeState == Some(Disconnected) || sample.chargeState == Some(Complete);
    var paused := if open.pausedSample.Some? then open.pausedSample else Some(sample);
    if IsCharging(sample) then
      if pausedFor >= opts.chargeResumeWindowMs then (None, [EndEvent(open)])
      else (Some(open.(lastSample := sample, pausedSample := None)), [Point(sample)])
    else if terminal || pausedFor >= opts.chargeResumeWindowMs || motion == Moving
    then (None, [EndEvent(open.(pausedSample := paused))])
    else (Some(open.(pausedSample := paused)), [])
  }

  /** The parked clock after a sample that is not moving. */
  function StillSince(since: Option<int>, sample: Sample, motion: Motion): Option<int> {
    if InGear(sample) then None
    else if motion == Stationary && since.None? then Some(sample.ts)
    else since
  }

  /** A sample during a drive. */
  function DuringDrive(open: OpenSession, sample: Sample, motion: Motion, opts: Options): (Option<OpenSession>, seq<Event>) {
    if IsCharging(sample) then (None, [End(Drive, sample.ts, sample)])
    else if open.stationarySince.Some? && Elapsed(open.stationarySince, sample) >= opts.driveEndParkedMs
    then (None, [EndEvent(open)])
    else if motion == Moving
    then (Some(open.(lastSample := sample, stationarySince := None)), [Point(sample)])
    else
      (Some(open.(lastSample := sample, stationarySince := StillSince(open.stationarySince, sample, motion))),
       [Point(sample)])
  }

  function During(open: Option<OpenSession>, sample: Sample, motion: Motion, opts: Options): (Option<OpenSession>, seq<Event>) {
    if open.Some? && open.value.kind == Charge then DuringCharge(open.value, sample, motion, opts)
    else if open.Some? && open.value.kind == Drive then DuringDrive(open.value, sample, motion, opts)
    else (open, [])
  }

  /** With nothing open, a charging or a moving sample opens a session. */
  function Begin(open: Option<OpenSession>, sample: Sample, motion: Motion): (Option<OpenSession>, seq<Event>) {
    if open.Some? then (open, [])
    else if IsCharging(sample) then (Some(Opened(Charge, sample)), [Start(Charge, sample.ts, sample), Point(sample)])
    else if motion == Moving then (Some(Opened(Drive, sample)), [Start(Drive, sample.ts, sample), Point(sample)])
    else (None, [])
  }

  predicate Stale(state: State, sample: Sample) {
    state.lastTs.Some? && sample.ts < state.lastTs.value
  }

  /** `step`. */
  function Step(state: State, sample: Sample, opts: Options): (State, seq<Event>) {
    if Stale(state, sample) then (state, [])
    else
      var (kept, gone) := Gap(state, sample, opts);
      var motion := MotionOf(sample, LastOf(kept), opts);
      var (still, during) := During(kept, sample, motion, opts);
      var (open, begun) := Begin(still, sample, motion);
      (State(open, Some(sample.ts)), gone + during + begun)
  }

  /** `step` as it is written: a local `open` reassigned, and events pushed as they happen. */
  method Advance(state: State, sample: Sample, opts: Options) returns (next: State, events: seq<Event>)
    ensures (next, events) == Step(state, sample, opts)
  {
    if state.lastTs.Some? && sample.ts < state.lastTs.value {
      return state, [];
    }
    events := [];
    var open := state.open;
    var gapMs := if state.lastTs.Some? then sample.ts - state.lastTs.value else 0;
    if open.Some? && gapMs > opts.sampleGapResetMs {
      events := events + [EndEvent(open.value)];
      open := None;
    }
    ghost var gone := Gap(state, sample, opts).1;
    assert events == gone;
    var isCharging := sample.chargeState == Some(Charging);
    var motion := MotionOf(sample, if open.Some? then Some(open.value.lastSample) else None, opts);
    if open.Some? && open.value.kind == Charge {
      var paused := open.value.pausedSample;
      var pausedFor := if paused.Some? then sample.ts - paused.value.ts else 0;
      var terminal := sample.chargeState == Some(Disconnected) || sample.chargeState == Some(Complete);
      var pausedNow := if paused.Some? then paused else Some(sample);
      if isCharging {
        if pausedFor >= opts.chargeResumeWindowMs {
          events := events + [EndEvent(open.value)];
          open := None;
        } else {
          open := Some(open.value.(lastSample := sample, pausedSample := None));
          events := events + [Point(sample)];
        }
      } else if terminal || pausedFor >= opts.chargeResumeWindowMs || motion == Moving {
        events := events + [EndEvent(open.value.(pausedSample := pausedNow))];
        open := None;
      } else {
        open := Some(open.value.(pausedSample := pausedNow));
      }
    } else if open.Some? && open.value.kind == Drive {
      var since := open.value.stationarySince;
      var stoppedMs := if since.Some? then sample.ts - since.value else 0;
      if isCharging {
        events := events + [End(Drive, sample.ts, sample)];
        open := None;
      } else if since.Some? && stoppedMs >= opts.driveEndParkedMs {
        events := events + [EndEvent(open.value)];
        open := None;
      } else if motion == Moving {
        open := Some(open.value.(lastSample := sample, stationarySince := None));
        events := events + [Point(sample)];
      } else {
        var stillSince := if InGear(sample) then None
          else if motion == Stationary && since.None? then Some(sample.ts) else since;
        open := Some(open.value.(lastSample := sample, stationarySince := stillSince));
        events := events + [Point(sample)];
      }
    }
    ghost var (still, during) := During(Gap(state, sample, opts).0, sample, motion, opts);
    assert open == still && events == gone + during;
    if open.None? {
      if isCharging {
        open := Some(Opened(Charge, sample));
        events := events + [Start(Charge, sample.ts, sample), Point(sample)];
      } else if motion == Moving {
        open := Some(Opened(Drive, sample));
        events := events + [Start(Drive, sample.ts, sample), Point(sample)];
      }
    }
    assert events == gone + during + Begin(still, sample, motion).1;
    next := State(open, Some(sample.ts));
  }
}
