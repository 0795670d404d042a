/** Whole runs of the segmenter: the sessions its events describe, read back by an independent
    ledger, and what is true of every one of them. */
module SegmenterRuns {
  import opened Collections
  import opened Segmenter

  /** A session as its events describe it. */
  datatype Session = Session(kind: Kind, startedAt: int, points: seq<Sample>, ended: Option<Sample>)

  /** What a reader of the events has written down; `ok` until an event makes no sense. */
  datatype Ledger = Ledger(done: seq<Session>, current: Option<Session>, ok: bool)

  const BLANK := Ledger([], None, true)

  function Record(l: Ledger, e: Event): Ledger {
    match e
    case Start(kind, at, _) =>
      if l.current.None? then l.(current := Some(Session(kind, at, [], None))) else l.(ok := false)
    case Point(sample) =>
      if l.current.Some? then l.(current := Some(l.current.value.(points := l.current.value.points + [sample])))
      else l.(ok := false)
    case End(kind, at, sample) =>
      if l.current.Some? && l.current.value.kind == kind && at == sample.ts
      then Ledger(l.done + [l.current.value.(ended := Some(sample))], None, l.ok)
      else l.(ok := false)
  }

  function RecordAll(l: Ledger, events: seq<Event>): Ledger
    decreases |events|
  {
    if events == [] then l else RecordAll(Record(l, events[0]), events[1..])
  }

  lemma {:induction false} RecordAppend(l: Ledger, a: seq<Event>, b: seq<Event>)
    ensures RecordAll(l, a + b) == RecordAll(RecordAll(l, a), b)
    decreases |a|
  {
    if a == [] {
      assert a + b == b;
    } else {
      assert (a + b)[1..] == a[1..] + b;
      RecordAppend(Record(l, a[0]), a[1..], b);
    }
  }

  // ----- the shape of a session ----------------------------------------------------------

  ghost predicate TimeOrdered(points: seq<Sample>) {
    forall i, j | 0 <= i <= j < |points| :: points[i].ts <= points[j].ts
  }

  /** The motion point `k` shows, judged against the point before it. */
  function MotionAt(points: seq<Sample>, k: nat, opts: Options): Motion
    requires 1 <= k < |points|
  {
    MotionOf(points[k], Some(points[k - 1]), opts)
  }

  /** Since when the first `n` points say the car has been parked: the first stationary one since
      it last moved or was in gear. */
  function ParkedSince(points: seq<Sample>, n: nat, opts: Options): Option<int>
    requires n <= |points|
  {
    if n <= 1 || MotionAt(points, n - 1, opts) == Moving then None
    else StillSince(ParkedSince(points, n - 1, opts), points[n - 1], MotionAt(points, n - 1, opts))
  }

  /** No point was accepted once the car had been parked long enough to end the drive. */
  ghost predicate EndsWhenParked(points: seq<Sample>, opts: Options) {
    forall k | 1 <= k < |points| && ParkedSince(points, k, opts).Some? ::
      points[k].ts - ParkedSince(points, k, opts).value < opts.driveEndParkedMs
  }

  ghost predicate GapsAtMost(points: seq<Sample>, ms: int) {
    forall i, j | 0 <= i < j < |points| && j == i + 1 :: points[j].ts - points[i].ts <= ms
  }

  ghost predicate Shape(kind: Kind, points: seq<Sample>, opts: Options) {
    match kind
    case Drive =>
      && GapsAtMost(points, opts.sampleGapResetMs)
      && EndsWhenParked(points, opts)
      && (forall k | 0 <= k < |points| :: !IsCharging(points[k]))
    case Charge =>
      && GapsAtMost(points, opts.sampleGapResetMs + opts.chargeResumeWindowMs - 1)
      && (forall k | 0 <= k < |points| :: IsCharging(points[k]))
    case Idle => false
  }

  ghost predicate SessionSound(s: Session, opts: Options) {
    && |s.points| >= 1
    && s.points[0].ts == s.startedAt
    && TimeOrdered(s.points)
    && Shape(s.kind, s.points, opts)
  }

  ghost predicate ClosedSound(s: Session, opts: Options) {
    && SessionSound(s, opts)
    && s.ended.Some?
    && s.points[|s.points| - 1].ts <= s.ended.value.ts
    && EndsWhereItStopped(s.kind, s.points[|s.points| - 1], s.ended.value, opts)
  }

  /** On which sample a session of a kind may end, seen from its points: a drive on its last point
      (or on the sample that shows it charging), a charge on its last point or on the first sample
      to show that charging had stopped. */
  predicate EndsWhereItStopped(kind: Kind, last: Sample, end: Sample, opts: Options) {
    end == last
    || (kind == Drive && IsCharging(end))
    || (kind == Charge && !IsCharging(end) && end.ts - last.ts <= opts.sampleGapResetMs)
  }

  /** Closed sessions in order: each ends no later than the next begins. */
  ghost predicate DoneSound(done: seq<Session>, opts: Options) {
    && (forall i | 0 <= i < |done| :: ClosedSound(done[i], opts))
    && (forall i, j | 0 <= i < j < |done| :: done[i].ended.value.ts <= done[j].startedAt)
  }

  ghost predicate NotAfter(done: seq<Session>, ts: int)
  {
    forall i | 0 <= i < |done| :: done[i].ended.Some? && done[i].ended.value.ts <= ts
  }

  /** The open session is the one the ledger is writing, and the segmenter's summary of it is
      what its points say. */
  ghost predicate Matches(open: OpenSession, s: Session, lastTs: int, opts: Options) {
    && SessionSound(s, opts)
    && s.kind == open.kind && s.startedAt == open.startedAt && s.ended.None?
    && open.lastSample == s.points[|s.points| - 1]
    && open.startSample == s.points[0]
    && (open.kind == Drive ==>
          && open.pausedSample.None?
          && open.lastSample.ts == lastTs
          && open.stationarySince == ParkedSince(s.points, |s.points|, opts))
    && (open.kind == Charge ==>
          && open.stationarySince.None?
          && (if open.pausedSample.None? then open.lastSample.ts == lastTs
              else !IsCharging(open.pausedSample.value)
                   && open.lastSample.ts <= open.pausedSample.value.ts <= lastTs
                   && open.pausedSample.value.ts - open.lastSample.ts <= opts.sampleGapResetMs))
  }

  ghost predicate LedgerSound(open: Option<OpenSession>, lastTs: Option<int>, l: Ledger, opts: Options) {
    && l.ok
    && DoneSound(l.done, opts)
    && (open.Some? <==> l.current.Some?)
    && (lastTs.None? ==> l.done == [] && open.None?)
    && (lastTs.Some? ==> NotAfter(l.done, lastTs.value))
    && (open.Some? ==>
          && Matches(open.value, l.current.value, lastTs.value, opts)
          && NotAfter(l.done, open.value.startedAt))
  }

  // ----- every step keeps it -------------------------------------------------------------

  lemma One(l: Ledger, e: Event)
    ensures RecordAll(l, [e]) == Record(l, e)
  {
    assert RecordAll(l, [e]) == RecordAll(Record(l, e), []);
  }

  lemma CloseKeeps(open: OpenSession, lastTs: int, l: Ledger, at: Sample, ts: int, opts: Options)
    requires LedgerSound(Some(open), Some(lastTs), l, opts)
    requires open.lastSample.ts <= at.ts <= ts
    requires EndsWhereItStopped(open.kind, open.lastSample, at, opts)
    ensures LedgerSound(None, Some(ts), Record(l, End(open.kind, at.ts, at)), opts)
  {
    var l2 := Record(l, End(open.kind, at.ts, at));
    var s := l.current.value.(ended := Some(at));
    assert l2.done == l.done + [s];
    forall i, j | 0 <= i < j < |l2.done|
      ensures l2.done[i].ended.Some? && l2.done[i].ended.value.ts <= l2.done[j].startedAt
    {
      if j == |l.done| {
        assert l2.done[i] == l.done[i];
      }
    }
    forall i | 0 <= i < |l2.done|
      ensures l2.done[i].ended.Some? && l2.done[i].ended.value.ts <= ts
    {
      if i < |l.done| {
        assert s.points[0].ts <= s.points[|s.points| - 1].ts;
      }
    }
  }

  lemma GapKeeps(state: State, l: Ledger, x: Sample, opts: Options)
    requires LedgerSound(state.open, state.lastTs, l, opts) && !Stale(state, x)
    ensures var (kept, gone) := Gap(state, x, opts);
      && LedgerSound(kept, state.lastTs, RecordAll(l, gone), opts)
      && (kept.Some? ==> kept == state.open && x.ts - state.lastTs.value <= opts.sampleGapResetMs)
  {
    var (kept, gone) := Gap(state, x, opts);
    if gone != [] {
      One(l, gone[0]);
      CloseKeeps(state.open.value, state.lastTs.value, l, EndSample(state.open.value), state.lastTs.value, opts);
    }
  }

  /** A point joins the open session. */
  lemma PointKeeps(open: OpenSession, next: OpenSession, lastTs: int, l: Ledger, x: Sample, opts: Options)
    requires LedgerSound(Some(open), Some(lastTs), l, opts) && lastTs <= x.ts
    requires open.lastSample.ts <= x.ts
    requires next == open.(lastSample := x, stationarySince := next.stationarySince, pausedSample := None)
    requires Shape(open.kind, l.current.value.points + [x], opts)
    requires if open.kind == Drive
      then next.stationarySince == ParkedSince(l.current.value.points + [x], |l.current.value.points| + 1, opts)
      else next.stationarySince.None?
    ensures LedgerSound(Some(next), Some(x.ts), Record(l, Point(x)), opts)
  {
    var was := l.current.value.points;
    var points := was + [x];
    forall i, j | 0 <= i <= j < |points|
      ensures points[i].ts <= points[j].ts
    {
      if j == |was| && i < j {
        assert was[i].ts <= was[|was| - 1].ts;
      }
    }
  }

  /** A later point does not change what the earlier ones say. */
  lemma {:induction false} ParkedSincePrefix(was: seq<Sample>, x: Sample, n: nat, opts: Options)
    requires n <= |was|
    ensures ParkedSince(was + [x], n, opts) == ParkedSince(was, n, opts)
  {
    if n > 1 {
      assert MotionAt(was + [x], n - 1, opts) == MotionAt(was, n - 1, opts);
      ParkedSincePrefix(was, x, n - 1, opts);
    }
  }

  lemma ParkedSinceNext(was: seq<Sample>, x: Sample, opts: Options)
    requires |was| >= 1
    ensures var m := MotionOf(x, Some(was[|was| - 1]), opts);
      ParkedSince(was + [x], |was| + 1, opts)
        == if m == Moving then None else StillSince(ParkedSince(was, |was|, opts), x, m)
  {
    assert MotionAt(was + [x], |was|, opts) == MotionOf(x, Some(was[|was| - 1]), opts);
    ParkedSincePrefix(was, x, |was|, opts);
  }

  lemma EndsWhenParkedNext(was: seq<Sample>, x: Sample, opts: Options)
    requires |was| >= 1 && EndsWhenParked(was, opts)
    requires ParkedSince(was, |was|, opts).Some? ==> x.ts - ParkedSince(was, |was|, opts).value < opts.driveEndParkedMs
    ensures EndsWhenParked(was + [x], opts)
  {
    var points := was + [x];
    forall k | 1 <= k < |points| && ParkedSince(points, k, opts).Some?
      ensures points[k].ts - ParkedSince(points, k, opts).value < opts.driveEndParkedMs
    {
      ParkedSincePrefix(was, x, k, opts);
      if k < |was| {
        assert points[k] == was[k];
      }
    }
  }

  lemma GapsNext(was: seq<Sample>, x: Sample, ms: int)
    requires |was| >= 1 && GapsAtMost(was, ms) && x.ts - was[|was| - 1].ts <= ms
    ensures GapsAtMost(was + [x], ms)
  {
  }

  lemma DrivePointShape(was: seq<Sample>, x: Sample, opts: Options)
    requires |was| >= 1 && Shape(Drive, was, opts) && !IsCharging(x)
    requires x.ts - was[|was| - 1].ts <= opts.sampleGapResetMs
    requires ParkedSince(was, |was|, opts).Some? ==> x.ts - ParkedSince(was, |was|, opts).value < opts.driveEndParkedMs
    ensures Shape(Drive, was + [x], opts)
  {
    EndsWhenParkedNext(was, x, opts);
    GapsNext(was, x, opts.sampleGapResetMs);
  }

  lemma DuringDriveKeeps(open: OpenSession, lastTs: int, l: Ledger, x: Sample, opts: Options)
    requires LedgerSound(Some(open), Some(lastTs), l, opts) && open.kind == Drive
    requires lastTs <= x.ts && x.ts - lastTs <= opts.sampleGapResetMs
    ensures var (still, during) := DuringDrive(open, x, MotionOf(x, Some(open.lastSample), opts), opts);
      LedgerSound(still, Some(x.ts), RecordAll(l, during), opts)
  {
    var m := MotionOf(x, Some(open.lastSample), opts);
    var (still, during) := DuringDrive(open, x, m, opts);
    One(l, during[0]);
    var was := l.current.value.points;
    if still.None? {
      CloseKeeps(open, lastTs, l, if IsCharging(x) then x else open.lastSample, x.ts, opts);
    } else {
      ParkedSinceNext(was, x, opts);
      DrivePointShape(was, x, opts);
      PointKeeps(open, still.value, lastTs, l, x, opts);
    }
  }

  lemma DuringChargeKeeps(open: OpenSession, lastTs: int, l: Ledger, x: Sample, opts: Options)
    requires LedgerSound(Some(open), Some(lastTs), l, opts) && open.kind == Charge
    requires lastTs <= x.ts && x.ts - lastTs <= opts.sampleGapResetMs
    ensures var (still, during) := DuringCharge(open, x, MotionOf(x, Some(open.lastSample), opts), opts);
      LedgerSound(still, Some(x.ts), RecordAll(l, during), opts)
  {
    var m := MotionOf(x, Some(open.lastSample), opts);
    var (still, during) := DuringCharge(open, x, m, opts);
    if during != [] {
      One(l, during[0]);
    }
    if still.None? {
      var last := open.(pausedSample := if open.pausedSample.Some? then open.pausedSample else Some(x));
      CloseKeeps(open, lastTs, l, EndSample(if IsCharging(x) then open else last), x.ts, opts);
    } else if IsCharging(x) {
      PointKeeps(open, still.value, lastTs, l, x, opts);
    }
  }

  lemma BeginKeeps(still: Option<OpenSession>, l: Ledger, x: Sample, m: Motion, opts: Options)
    requires LedgerSound(still, Some(x.ts), l, opts)
    ensures var (open, begun) := Begin(still, x, m);
      LedgerSound(open, Some(x.ts), RecordAll(l, begun), opts)
  {
    var (open, begun) := Begin(still, x, m);
    if begun != [] {
      assert begun == [begun[0]] + [begun[1]];
      RecordAppend(l, [begun[0]], [begun[1]]);
      One(l, begun[0]);
      One(Record(l, begun[0]), begun[1]);
    }
  }

  lemma StepKeeps(state: State, l: Ledger, x: Sample, opts: Options)
    requires LedgerSound(state.open, state.lastTs, l, opts)
    ensures var (next, events) := Step(state, x, opts);
      LedgerSound(next.open, next.lastTs, RecordAll(l, events), opts)
  {
    if !Stale(state, x) {
      var (kept, gone) := Gap(state, x, opts);
      var m := MotionOf(x, LastOf(kept), opts);
      var (still, during) := During(kept, x, m, opts);
      var (open, begun) := Begin(still, x, m);
      GapKeeps(state, l, x, opts);
      var l1 := RecordAll(l, gone);
      if kept.Some? && kept.value.kind == Charge {
        DuringChargeKeeps(kept.value, state.lastTs.value, l1, x, opts);
      } else if kept.Some? {
        DuringDriveKeeps(kept.value, state.lastTs.value, l1, x, opts);
      } else {
        assert during == [] && LedgerSound(None, Some(x.ts), l1, opts);
      }
      BeginKeeps(still, RecordAll(l1, during), x, m, opts);
      RecordAppend(l, gone, during);
      RecordAppend(l, gone + during, begun);
    }
  }

  // ----- the theorems --------------------------------------------------------------------

  /** The state after `samples`, and every event on the way. */
  function Run(state: State, samples: seq<Sample>, opts: Options): (State, seq<Event>)
    decreases |samples|
  {
    if samples == [] then (state, [])
    else
      var (next, events) := Step(state, samples[0], opts);
      var (end, later) := Run(next, samples[1..], opts);
      (end, events + later)
  }

  lemma {:induction false} RunAppend(state: State, a: seq<Sample>, b: seq<Sample>, opts: Options)
    ensures var (mid, first) := Run(state, a, opts); var (end, later) := Run(mid, b, opts);
      Run(state, a + b, opts) == (end, first + later)
    decreases |a|
  {
    if a == [] {
      assert a + b == b;
      assert [] + Run(state, b, opts).1 == Run(state, b, opts).1;
    } else {
      assert (a + b)[1..] == a[1..] + b;
      var (next, events) := Step(state, a[0], opts);
      RunAppend(next, a[1..], b, opts);
      var (mid, first) := Run(next, a[1..], opts);
      assert events + (first + Run(mid, b, opts).1) == events + first + Run(mid, b, opts).1;
    }
  }

  lemma {:induction false} RunKeeps(state: State, l: Ledger, samples: seq<Sample>, opts: Options)
    requires LedgerSound(state.open, state.lastTs, l, opts)
    ensures var (end, events) := Run(state, samples, opts);
      LedgerSound(end.open, end.lastTs, RecordAll(l, events), opts)
    decreases |samples|
  {
    if samples != [] {
      var (next, events) := Step(state, samples[0], opts);
      StepKeeps(state, l, samples[0], opts);
      RunKeeps(next, RecordAll(l, events), samples[1..], opts);
      RecordAppend(l, events, Run(next, samples[1..], opts).1);
    }
  }

  /** SESSIONS MAKE SENSE. Over any samples at all, start and end events alternate with matching
      kinds; a session's points are in order and within it; each session ends no later than the
      next begins; and the one being written is the one the segmenter has open. */
  lemma SessionsMakeSense(samples: seq<Sample>, opts: Options)
    ensures var (end, events) := Run(INITIAL, samples, opts); var l := RecordAll(BLANK, events);
      && l.ok
      && (forall i | 0 <= i < |l.done| ::
            var s := l.done[i];
            && s.kind != Idle && |s.points| >= 1 && s.ended.Some?
            && s.points[0].ts == s.startedAt
            && TimeOrdered(s.points)
            && s.points[|s.points| - 1].ts <= s.ended.value.ts
            && EndsWhereItStopped(s.kind, s.points[|s.points| - 1], s.ended.value, opts))
      && (forall i, j | 0 <= i < j < |l.done| :: l.done[i].ended.value.ts <= l.done[j].startedAt)
      && (l.current.Some? <==> end.open.Some?)
      && (l.current.Some? ==>
            && l.current.value.kind == end.open.value.kind
            && l.current.value.startedAt == end.open.value.startedAt
            && (forall i | 0 <= i < |l.done| :: l.done[i].ended.value.ts <= l.current.value.startedAt))
  {
    RunKeeps(INITIAL, BLANK, samples, opts);
  }

  /** The parked clock shows no instant later than the points read so far. */
  lemma {:induction false} ClockNotAhead(points: seq<Sample>, n: nat, opts: Options)
    requires 1 <= n <= |points| && TimeOrdered(points)
    requires ParkedSince(points, n, opts).Some?
    ensures ParkedSince(points, n, opts).value <= points[n - 1].ts
  {
    if n > 1 && ParkedSince(points, n - 1, opts).Some? {
      ClockNotAhead(points, n - 1, opts);
    }
  }

  /** While nothing moves or is in gear, the parked clock keeps its first stationary instant. */
  lemma {:induction false} QuietKeepsClock(points: seq<Sample>, i: nat, j: nat, opts: Options)
    requires 1 <= i <= j < |points| && TimeOrdered(points)
    requires MotionAt(points, i, opts) == Stationary
    requires forall k | i <= k <= j :: MotionAt(points, k, opts) != Moving && !InGear(points[k])
    ensures ParkedSince(points, j + 1, opts).Some?
    ensures ParkedSince(points, j + 1, opts).value <= points[i].ts
  {
    hide ParkedSince, MotionAt, TimeOrdered;
    if j > i {
      QuietKeepsClock(points, i, j - 1, opts);
      QuietGoesOn(points, j, opts);
    } else {
      QuietStarts(points, i, opts);
    }
  }

  lemma QuietGoesOn(points: seq<Sample>, j: nat, opts: Options)
    requires 1 <= j < |points| && MotionAt(points, j, opts) != Moving && !InGear(points[j])
    requires ParkedSince(points, j, opts).Some?
    ensures ParkedSince(points, j + 1, opts) == ParkedSince(points, j, opts)
  {
  }

  /** A sample that stands still starts the clock, unless it was started before. */
  lemma QuietStarts(points: seq<Sample>, i: nat, opts: Options)
    requires 1 <= i < |points| && TimeOrdered(points)
    requires MotionAt(points, i, opts) == Stationary && !InGear(points[i])
    ensures ParkedSince(points, i + 1, opts).Some? && ParkedSince(points, i + 1, opts).value <= points[i].ts
  {
    if ParkedSince(points, i, opts).Some? {
      ClockNotAhead(points, i, opts);
    }
  }

  /** Among the points of a sound drive, no stretch free of moving and in-gear samples lasts as
      long as the parked limit from its first stationary one. */
  lemma ParkedStretch(points: seq<Sample>, i: nat, j: nat, opts: Options)
    requires 1 <= i < j < |points|
    requires TimeOrdered(points) && EndsWhenParked(points, opts)
    requires MotionAt(points, i, opts) == Stationary
    requires forall k | i <= k < j :: MotionAt(points, k, opts) != Moving && !InGear(points[k])
    ensures points[j].ts - points[i].ts < opts.driveEndParkedMs
  {
    QuietKeepsClock(points, i, j - 1, opts);
  }

  /** EVERY SESSION HAS ITS SHAPE. In a drive, consecutive points are at most the gap limit apart
      and no parked stretch reaches the parked limit; in a charge, consecutive points are closer
      than the gap limit and the resume window together. */
  lemma SessionsHaveShape(samples: seq<Sample>, opts: Options, s: Session)
    requires var l := RecordAll(BLANK, Run(INITIAL, samples, opts).1); s in l.done || l.current == Some(s)
    ensures s.kind == Drive ==>
      && GapsAtMost(s.points, opts.sampleGapResetMs)
      && (forall i, j | 1 <= i < j < |s.points|
            && MotionAt(s.points, i, opts) == Stationary
            && (forall k | i <= k < j :: MotionAt(s.points, k, opts) != Moving && !InGear(s.points[k])) ::
            s.points[j].ts - s.points[i].ts < opts.driveEndParkedMs)
    ensures s.kind == Charge ==>
      forall i, j | 0 <= i < j < |s.points| && j == i + 1 ::
        s.points[j].ts - s.points[i].ts < opts.sampleGapResetMs + opts.chargeResumeWindowMs
  {
    RunKeeps(INITIAL, BLANK, samples, opts);
    assert SessionSound(s, opts);
    if s.kind == Drive {
      forall i, j | 1 <= i < j < |s.points|
            && MotionAt(s.points, i, opts) == Stationary
            && (forall k | i <= k < j :: MotionAt(s.points, k, opts) != Moving && !InGear(s.points[k]))
        ensures s.points[j].ts - s.points[i].ts < opts.driveEndParkedMs
      {
        ParkedStretch(s.points, i, j, opts);
      }
    }
  }

  /** The samples that are not older than one before them. */
  function Forward(newest: Option<int>, samples: seq<Sample>): seq<Sample>
    decreases |samples|
  {
    if samples == [] then []
    else if newest.Some? && samples[0].ts < newest.value then Forward(newest, samples[1..])
    else [samples[0]] + Forward(Some(samples[0].ts), samples[1..])
  }

  /** Out-of-order samples leave the run equal to the run without them. */
  lemma {:induction false} LateSamplesAreIgnored(state: State, samples: seq<Sample>, opts: Options)
    ensures Run(state, samples, opts) == Run(state, Forward(state.lastTs, samples), opts)
    decreases |samples|
  {
    if samples != [] {
      var (next, events) := Step(state, samples[0], opts);
      LateSamplesAreIgnored(next, samples[1..], opts);
      var rest := Forward(next.lastTs, samples[1..]);
      if Stale(state, samples[0]) {
        assert next == state && events == [];
        assert Run(state, samples, opts).1 == Run(next, samples[1..], opts).1;
        assert Forward(state.lastTs, samples) == rest;
      } else {
        assert Forward(state.lastTs, samples) == [samples[0]] + rest;
        assert ([samples[0]] + rest)[1..] == rest;
      }
    }
  }
}
