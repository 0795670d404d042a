/** `Pipeline.resume`: rebuild the memory from the tape on a dry store, then settle every session
    row the database has open. */
module PipelineResume {
  import opened Collections
  import opened Segmenter
  import opened SegmenterRuns
  import opened Metrics
  import opened Accumulator
  import opened PipelineModel
  import opened PipelineSessions

  /** A session row found open when the worker starts. */
  datatype OpenRow = OpenRow(id: nat, kind: Kind, startedAt: int)

  // ----- the replay ----------------------------------------------------------------------

  const BLANK_RUN := DryRun([], false, [], None)

  function HandleTape(core: Core, st: Backend, profile: Profile, tape: seq<Raw>): (Core, Backend)
    decreases |tape|
  {
    if tape == [] then (core, st)
    else
      var (core1, st1, _) := HandleRaw(core, st, profile, tape[0]);
      HandleTape(core1, st1, profile, tape[1..])
  }

  function FinalFlush(st: Backend): Backend {
    if st.Dry? then Dry(st.run.(finalFlush := true)) else st
  }

  /** The replay: the live code on `DryStore`, with whatever is pending by then emitted at the end.
      The months and days it noted are dropped, for a dry store has recorded none of them. */
  function ReplayTape(core: Core, profile: Profile, tape: seq<Raw>, now: int): (Core, Backend) {
    var (core1, st1) := HandleTape(core, Dry(BLANK_RUN), profile, tape);
    var (core2, st2, _) := FlushDue(core1, FinalFlush(st1), profile, now, true);
    (core2.(ensuredMonths := {}, measuredDay := None), st2)
  }

  lemma {:induction false} PutAllStaysDry(core: Core, st: Backend, events: seq<Event>, cap: real)
    requires st.Dry?
    ensures PutAll(core, st, events, cap).1.Dry?
    decreases |events|
  {
    if events != [] {
      var (core1, st1) := Put(core, st, events[0], cap);
      PutAllStaysDry(core1, st1, events[1..], cap);
    }
  }

  lemma EmitStaysDry(core: Core, st: Backend, profile: Profile)
    requires st.Dry? && core.acc.Some?
    ensures EmitSample(core, st, profile).1.Dry?
  {
    var (acc, taken) := Take(core.acc.value, profile.policy);
    if taken.Some? {
      var s := profile.toSample(taken.value.ts, taken.value.state);
      var core0 := core.(acc := Some(acc));
      SamplePrelude(core0, st, profile, s);
      var (core1, st1) := EnsureMonth(core0, st, profile.monthOf(s.ts));
      var (core3, st3) := MeasurePack(core1, InsertSample(st1, s), s);
      var (state, events) := Step(core3.state, s, DEFAULT_OPTIONS);
      PutAllStaysDry(core3.(state := state), st3, events, profile.capacityKwh);
    }
  }

  lemma {:induction false} TapeStaysDry(core: Core, st: Backend, profile: Profile, tape: seq<Raw>)
    requires st.Dry?
    ensures HandleTape(core, st, profile, tape).1.Dry?
    decreases |tape|
  {
    if tape != [] {
      var (core1, st1) := EnsureMonth(core, st, profile.monthOf(tape[0].receivedAt));
      var core2 := core1.(acc := Some(AccOf(core1)));
      EmitStaysDry(core2, InsertRaw(st1, tape[0]), profile);
      var (next, st2, _) := HandleRaw(core, st, profile, tape[0]);
      TapeStaysDry(next, st2, profile, tape[1..]);
    }
  }

  /** A replay writes nothing: its store is the dry one to the end. */
  lemma ReplayStaysDry(core: Core, profile: Profile, tape: seq<Raw>, now: int)
    ensures ReplayTape(core, profile, tape, now).1.Dry?
  {
    TapeStaysDry(core, Dry(BLANK_RUN), profile, tape);
    var (core1, st1) := HandleTape(core, Dry(BLANK_RUN), profile, tape);
    if core1.acc.Some? {
      EmitStaysDry(core1, FinalFlush(st1), profile);
    }
  }

  // ----- matching a row with a replayed session ------------------------------------------

  /** When a replayed session ended; `None` while it runs. */
  function EndOf(r: Replayed): Option<int> {
    if !r.closed then None
    else if r.endedAt.Some? then r.endedAt
    else Some(LastTs(r.points, r.startedAt))
  }

  /** `r` is a candidate for `row`: of its kind, and spanning its start, give or take one sample
      interval at the front. */
  predicate CouldBe(r: Replayed, row: OpenRow) {
    && r.kind == row.kind
    && r.startedAt - MAX_SAMPLE_INTERVAL_MS <= row.startedAt
    && (EndOf(r).Some? ==> row.startedAt <= EndOf(r).value)
  }

  function Distance(r: Replayed, row: OpenRow): nat {
    if r.startedAt >= row.startedAt then r.startedAt - row.startedAt else row.startedAt - r.startedAt
  }

  /** The first nearest of the first `n` sessions that `row` could stand for. */
  function Nearest(sessions: seq<Replayed>, row: OpenRow, n: nat): Option<nat>
    requires n <= |sessions|
    ensures Nearest(sessions, row, n).Some? ==> Nearest(sessions, row, n).value < n
  {
    if n == 0 then None
    else
      var best := Nearest(sessions, row, n - 1);
      if CouldBe(sessions[n - 1], row)
         && (best.None? || Distance(sessions[n - 1], row) < Distance(sessions[best.value], row))
      then Some(n - 1) else best
  }

  /** `matchFor`. */
  function MatchFor(sessions: seq<Replayed>, row: OpenRow): Option<nat> {
    Nearest(sessions, row, |sessions|)
  }

  /** It finds a session the row could stand for if there is one, and none is nearer. */
  lemma {:induction false} NearestIs(sessions: seq<Replayed>, row: OpenRow, n: nat)
    requires n <= |sessions|
    ensures Nearest(sessions, row, n).None? ==> forall i | 0 <= i < n :: !CouldBe(sessions[i], row)
    ensures Nearest(sessions, row, n).Some? ==>
      var best := sessions[Nearest(sessions, row, n).value];
      && CouldBe(best, row)
      && (forall i | 0 <= i < n && CouldBe(sessions[i], row) :: Distance(best, row) <= Distance(sessions[i], row))
  {
    if n > 0 {
      NearestIs(sessions, row, n - 1);
    }
  }

  // ----- settling the rows ---------------------------------------------------------------

  datatype Outcome = Resumed | ClosedNow | Discarded | AbandonedNow

  /** The session still running when the replay ended. */
  function Running(core: Core): Option<nat> {
    if core.openId.Some? && core.openId.value.Replay? && core.openId.value.n >= 1
    then Some(core.openId.value.n - 1) else None
  }

  /** What becomes of a row: carried on if its session still runs, closed or discarded if its
      session ended, and abandoned if no session replayed matches. */
  function VerdictOf(run: DryRun, running: Option<nat>, row: OpenRow, cap: real): Outcome {
    var found := MatchFor(run.sessions, row);
    if found.Some? && found == running then Resumed
    else if found.Some? && run.sessions[found.value].closed then
      if Keeps(row.kind, run.sessions[found.value].points, cap) then ClosedNow else Discarded
    else AbandonedNow
  }

  /** A row dealt with. */
  function Settle(st: Backend, run: DryRun, running: Option<nat>, row: OpenRow, cap: real): Backend {
    match VerdictOf(run, running, row, cap)
    case Resumed => st
    case AbandonedNow => AbandonRow(st, Row(row.id))
    case _ =>
      var r := run.sessions[MatchFor(run.sessions, row).value];
      Finish(ResetRow(st, Row(row.id), r.startedAt, r.points), Row(row.id), row.kind, r.points, cap).0
  }

  function SettleAll(st: Backend, run: DryRun, running: Option<nat>, rows: seq<OpenRow>, cap: real): Backend
  {
    if rows == [] then st
    else Settle(SettleAll(st, run, running, rows[..|rows| - 1], cap), run, running, rows[|rows| - 1], cap)
  }

  /** The rows with a given verdict, in order. */
  function With(verdict: Outcome, run: DryRun, running: Option<nat>, rows: seq<OpenRow>, cap: real): seq<OpenRow> {
    if rows == [] then []
    else
      var init, last := rows[..|rows| - 1], rows[|rows| - 1];
      With(verdict, run, running, init, cap) + (if VerdictOf(run, running, last, cap) == verdict then [last] else [])
  }

  function InsertByStart(sorted: seq<OpenRow>, row: OpenRow): seq<OpenRow> {
    if sorted == [] then [row]
    else if sorted[0].startedAt > row.startedAt then [row] + sorted
    else [sorted[0]] + InsertByStart(sorted[1..], row)
  }

  /** Oldest first; equal starts keep their order. */
  function ByStart(rows: seq<OpenRow>): seq<OpenRow> {
    if rows == [] then [] else InsertByStart(ByStart(rows[..|rows| - 1]), rows[|rows| - 1])
  }

  /** Samples the replay still had pending, written now that the store is live. */
  function WriteFlushed(core: Core, st: Backend, profile: Profile, samples: seq<Sample>): (Core, Backend)
    decreases |samples|
  {
    if samples == [] then (core, st)
    else
      var (core1, st1) := EnsureMonth(core, st, profile.monthOf(samples[0].ts));
      WriteFlushed(core1, InsertSample(st1, samples[0]), profile, samples[1..])
  }

  /** `ResumeReport`: what was done with the rows. */
  datatype Report = Report(
    replayed: nat, samples: nat, lastSampleTs: Option<int>, opens: nat, closes: nat,
    resumed: Option<OpenRow>, closed: seq<OpenRow>, abandoned: seq<OpenRow>, discarded: seq<OpenRow>)

  /** The report on rows that have been settled. */
  function SettledReport(run: DryRun, running: Option<nat>, rows: seq<OpenRow>, cap: real, replayed: nat): Report {
    var closed, abandoned, discarded :=
      With(ClosedNow, run, running, rows, cap), With(AbandonedNow, run, running, rows, cap),
      With(Discarded, run, running, rows, cap);
    Report(replayed, |run.flushed|, run.newest, 0, |closed| + |abandoned| + |discarded|, None, closed, abandoned, discarded)
  }

  /** The session still running gets the row carried on for it, or a new one. */
  function CarryOn(core: Core, st: Backend, run: DryRun, carried: seq<OpenRow>, report: Report): (Core, Backend, Report) {
    var running := Running(core);
    if running.None? || running.value >= |run.sessions| then (core.(openId := None), st, report)
    else
      var r := run.sessions[running.value];
      if carried == [] then
        var (st1, id) := PipelineModel.OpenRow(st, r.kind, r.startedAt);
        (core.(openId := Some(id)),
         ResetRow(st1, id, r.startedAt, core.openPoints),
         report.(opens := 1, resumed := Some(OpenRow(id.n, r.kind, r.startedAt))))
      else
        var row := carried[|carried| - 1];
        (core.(openId := Some(Row(row.id))),
         ResetRow(st, Row(row.id), r.startedAt, core.openPoints),
         report.(resumed := Some(row.(startedAt := r.startedAt))))
  }

  /** `reconcile`. */
  function Reconcile(core: Core, st: Backend, profile: Profile, run: DryRun, open: seq<OpenRow>,
                     replayed: nat): (Core, Backend, Report) {
    var cap := profile.capacityKwh;
    var (core1, st1) := WriteFlushed(core, st, profile, run.flushed);
    var running, rows := Running(core1), ByStart(open);
    CarryOn(core1, SettleAll(st1, run, running, rows, cap), run, With(Resumed, run, running, rows, cap),
            SettledReport(run, running, rows, cap, replayed))
  }

  /** `resume`: replay, then reconcile the live store with what the replay saw. */
  function Resume(core: Core, st: Backend, profile: Profile, tape: seq<Raw>, open: seq<OpenRow>, now: int): (Core,
                  Backend, Report) {
    var (core1, st1) := ReplayTape(core, profile, tape, now);
    Reconcile(core1, st, profile, if st1.Dry? then st1.run else BLANK_RUN, open, |tape|)
  }
}
