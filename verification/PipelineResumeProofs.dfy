/** Resume settles the rows: what the replay knows, and what reconciling with it leaves. */
module PipelineResumeProofs {
  import opened Collections
  import opened Segmenter
  import opened SegmenterRuns
  import opened Metrics
  import opened Accumulator
  import opened PipelineModel
  import opened PipelineSessions
  import opened PipelineResume

  // ----- the replay knows the sessions ---------------------------------------------------

  /** A closed session of the ledger, as the replay remembers it. */
  ghost predicate Remembers(r: Replayed, s: Session) {
    && r.kind == s.kind && r.startedAt == s.startedAt && r.closed
    && s.ended.Some?
    && r.points == FullPoints(s)
    && r.endedAt == Some(LastTs(FullPoints(s), s.startedAt))
  }

  /** The replay's sessions are the ledger's, in order; the last is the open one, if one is. */
  ghost predicate DryLinked(core: Core, run: DryRun, l: Ledger) {
    && |run.sessions| == |l.done| + (if l.current.Some? then 1 else 0)
    && (forall i | 0 <= i < |l.done| :: Remembers(run.sessions[i], l.done[i]))
    && (core.openId.Some? <==> l.current.Some?)
    && (l.current.Some? ==>
          var s := l.current.value;
          && core.openId == Some(Replay(|run.sessions|))
          && run.sessions[|run.sessions| - 1] == Replayed(s.kind, s.startedAt, s.points, false, None)
          && core.openPoints == s.points
          && s.ended.None?)
  }

  /** Finishing the session being replayed closes it where it ended, kept or not. */
  lemma FinishDry(run: DryRun, n: nat, s: Session, cap: real)
    requires 1 <= n <= |run.sessions| && s.ended.Some?
    requires run.sessions[n - 1] == Replayed(s.kind, s.startedAt, FullPoints(s), false, None)
    ensures var st := Finish(Dry(run), Replay(n), s.kind, FullPoints(s), cap).0;
      && st == SetReplayed(run, n, st.run.sessions[n - 1])
      && Remembers(st.run.sessions[n - 1], s)
  {
    var points := FullPoints(s);
    assert points != [];
    EndsAtLast(s.kind, points, s.startedAt, cap);
  }

  /** A summary ends with the last point. */
  lemma EndsAtLast(kind: Kind, points: seq<Sample>, startedAt: int, cap: real)
    requires points != []
    ensures Summarise(kind, points, cap).endedAt == Some(LastTs(points, startedAt))
  {
  }

  lemma EndKeepsDry(core: Core, run: DryRun, l: Ledger, cap: real, e: Event)
    requires DryLinked(core, run, l) && e.End? && l.ok && Record(l, e).ok
    ensures var (core2, st2) := Put(core, Dry(run), e, cap);
      st2.Dry? && DryLinked(core2, st2.run, Record(l, e))
      && st2.run == run.(sessions := st2.run.sessions)
  {
    var n := |run.sessions|;
    var was := l.current.value.(ended := Some(e.sample));
    var points := WithEnd(core.openPoints, e.sample);
    assert points == FullPoints(was);
    var run1 := SetReplayed(run, n, Replayed(was.kind, was.startedAt, points, false, None)).run;
    assert points == core.openPoints ==> run.sessions[n - 1 := run.sessions[n - 1]] == run.sessions;
    assert run1 == (if points == core.openPoints then Dry(run) else AppendPoint(Dry(run), Replay(n), e.sample)).run;
    FinishDry(run1, n, was, cap);
    assert Record(l, e).done == l.done + [was];
  }

  lemma PutKeepsDry(core: Core, run: DryRun, l: Ledger, cap: real, e: Event)
    requires DryLinked(core, run, l) && l.ok && Record(l, e).ok
    ensures var (core2, st2) := Put(core, Dry(run), e, cap);
      st2.Dry? && DryLinked(core2, st2.run, Record(l, e))
      && st2.run == run.(sessions := st2.run.sessions)
  {
    if e.End? {
      EndKeepsDry(core, run, l, cap, e);
    }
  }

  lemma {:induction false} PutAllKeepsDry(core: Core, run: DryRun, l: Ledger, cap: real, events: seq<Event>)
    requires DryLinked(core, run, l) && RecordAll(l, events).ok
    ensures var (core2, st2) := PutAll(core, Dry(run), events, cap);
      st2.Dry? && DryLinked(core2, st2.run, RecordAll(l, events)) && st2.run == run.(sessions := st2.run.sessions)
    decreases |events|
  {
    if events != [] {
      OkStays(Record(l, events[0]), events[1..]);
      OkStays(l, events);
      PutKeepsDry(core, run, l, cap, events[0]);
      var (core1, st1) := Put(core, Dry(run), events[0], cap);
      PutAllKeepsDry(core1, st1.run, Record(l, events[0]), cap, events[1..]);
    }
  }

  ghost predicate DryFaithful(core: Core, st: Backend, l: Ledger) {
    && st.Dry?
    && LedgerSound(core.state.open, core.state.lastTs, l, DEFAULT_OPTIONS)
    && DryLinked(core, st.run, l)
  }

  /** The segmenter has taken the samples, and the replay knows their sessions. */
  ghost predicate DryFaithfulTo(core: Core, st: Backend, l: Ledger, state: State, sampled: (Option<Acc>, seq<Sample>)) {
    && DryFaithful(core, st, History(l, state, sampled.1))
    && core.state == SegmenterRuns.Run(state, sampled.1, DEFAULT_OPTIONS).0
    && core.acc == sampled.0
  }

  lemma SampleKeepsDry(core: Core, st: Backend, l: Ledger, profile: Profile, s: Sample)
    requires DryFaithful(core, st, l)
    ensures var (core2, st2, _) := ApplySample(core, st, profile, s);
      DryFaithfulTo(core2, st2, l, core.state, (core.acc, [s]))
  {
    SamplePrelude(core, st, profile, s);
    HistoryOne(l, core.state, s);
    var (core1, st1) := EnsureMonth(core, st, profile.monthOf(s.ts));
    var (core3, st3) := MeasurePack(core1, InsertSample(st1, s), s);
    var (state, events) := Step(core.state, s, DEFAULT_OPTIONS);
    SegmenterRuns.StepKeeps(core.state, l, s, DEFAULT_OPTIONS);
    var core4 := core3.(state := state);
    PutAllKeepsDry(core4, st3.run, l, profile.capacityKwh, events);
    PutAllFrame(core4, st3, events, profile.capacityKwh);
  }

  lemma EmitKeepsDry(core: Core, st: Backend, l: Ledger, profile: Profile)
    requires DryFaithful(core, st, l) && core.acc.Some?
    ensures var (core2, st2, _) := EmitSample(core, st, profile); var (acc, samples) := Popped(core.acc.value, profile);
      DryFaithfulTo(core2, st2, l, core.state, (Some(acc), samples))
  {
    var (acc, taken) := Take(core.acc.value, profile.policy);
    if taken.Some? {
      SampleKeepsDry(core.(acc := Some(acc)), st, l, profile, profile.toSample(taken.value.ts, taken.value.state));
    }
  }

  /** Nothing but the accumulator, the memos and the tape moves. */
  lemma SameDry(core: Core, core2: Core, st: Backend, st2: Backend, l: Ledger)
    requires DryFaithful(core, st, l) && st2.Dry? && st2.run.sessions == st.run.sessions
    requires core2.state == core.state && core2.openId == core.openId && core2.openPoints == core.openPoints
    ensures DryFaithful(core2, st2, l)
  {
  }

  lemma HandleKeepsDry(core: Core, st: Backend, l: Ledger, profile: Profile, raw: Raw)
    requires DryFaithful(core, st, l)
    ensures var (core2, st2, _) := HandleRaw(core, st, profile, raw);
      DryFaithfulTo(core2, st2, l, core.state, Sampled(core.acc, profile, Message(raw)))
  {
    var (core1, st1) := EnsureMonth(core, st, profile.monthOf(raw.receivedAt));
    var core2, st2 := core1.(acc := Some(AccOf(core1))), InsertRaw(st1, raw);
    SameDry(core, core2, st, st2, l);
    if Due(core2.acc.value, raw.receivedAt) {
      EmitKeepsDry(core2, st2, l, profile);
    }
    var (core3, st3, counts) := EmitDue(core2, st2, profile, raw.receivedAt);
    var (ready, samples) := if Due(AccOf(core), raw.receivedAt) then Popped(AccOf(core), profile) else (AccOf(core), []);
    assert DryFaithfulTo(core3, st3, l, core.state, (Some(ready), samples));
    var (end, stEnd, _) := HandleRaw(core, st, profile, raw);
    assert end == TakeIn(core3, profile, raw).0 && stEnd == AdvanceCursor(st3, raw.receivedAt);
    assert end == core3.(acc := Some(Merged(ready, profile, raw)));
    hide HandleRaw, EmitDue, EnsureMonth, DryLinked, LedgerSound, History;
    SameDry(core3, end, st3, stEnd, History(l, core.state, samples));
  }

  /** The tape as work. */
  function Messages(tape: seq<Raw>): seq<Work> {
    seq(|tape|, i requires 0 <= i < |tape| => Message(tape[i]))
  }

  lemma {:induction false} TapeKeepsDry(core: Core, st: Backend, l: Ledger, profile: Profile, tape: seq<Raw>)
    requires DryFaithful(core, st, l)
    ensures var (core2, st2) := HandleTape(core, st, profile, tape);
      DryFaithfulTo(core2, st2, l, core.state, AllSampled(core.acc, profile, Messages(tape)))
    decreases |tape|
  {
    if tape != [] {
      HandleKeepsDry(core, st, l, profile, tape[0]);
      var (core1, st1, _) := HandleRaw(core, st, profile, tape[0]);
      var (acc, samples) := Sampled(core.acc, profile, Message(tape[0]));
      assert Messages(tape)[0] == Message(tape[0]) && Messages(tape)[1..] == Messages(tape[1..]);
      hide HandleRaw, Sampled, DryLinked, LedgerSound, History, Messages;
      TapeKeepsDry(core1, st1, History(l, core.state, samples), profile, tape[1..]);
      var later := AllSampled(acc, profile, Messages(tape[1..])).1;
      HistoryAppend(l, core.state, samples, later);
      RunAppend(core.state, samples, later, DEFAULT_OPTIONS);
    }
  }

  lemma {:induction false} SampledAppend(acc: Option<Acc>, profile: Profile, works: seq<Work>, last: Work)
    ensures var (mid, first) := AllSampled(acc, profile, works); var (end, more) := Sampled(mid, profile, last);
      AllSampled(acc, profile, works + [last]) == (end, first + more)
    decreases |works|
  {
    hide Sampled;
    if works == [] {
      assert ([] + [last])[1..] == [];
      var more := Sampled(acc, profile, last).1;
      assert [] + more == more && more + [] == more;
    } else {
      assert (works + [last])[1..] == works[1..] + [last];
      var (next, samples) := Sampled(acc, profile, works[0]);
      SampledAppend(next, profile, works[1..], last);
      var (mid, first) := AllSampled(next, profile, works[1..]);
      var more := Sampled(mid, profile, last).1;
      assert samples + (first + more) == samples + first + more;
    }
  }

  /** The sessions of a tape and what is pending when it ends. */
  function TapeHistory(profile: Profile, tape: seq<Raw>, now: int): Ledger {
    WholeHistory(profile, Messages(tape) + [Flush(now, true)])
  }

  lemma ColdIsDry()
    ensures DryFaithful(COLD, Dry(BLANK_RUN), BLANK)
  {
  }

  /** THE REPLAY KNOWS THE SESSIONS: those the segmenter alone makes of the samples that the
      debounce alone makes of the tape, the open one included. */
  lemma ReplayIsFaithful(profile: Profile, tape: seq<Raw>, now: int)
    ensures var (core, st) := ReplayTape(COLD, profile, tape, now);
      && DryFaithful(core, st, TapeHistory(profile, tape, now))
      && core.acc == AllSampled(None, profile, Messages(tape) + [Flush(now, true)]).0
  {
    ColdIsDry();
    hide LedgerSound, HandleTape, FlushDue, Sampled, Messages;
    TapeKeepsDry(COLD, Dry(BLANK_RUN), BLANK, profile, tape);
    var (core1, st1) := HandleTape(COLD, Dry(BLANK_RUN), profile, tape);
    var works := Messages(tape);
    SampledAppend(None, profile, works, Flush(now, true));
    var (mid, first) := AllSampled(None, profile, works);
    var more := Sampled(mid, profile, Flush(now, true)).1;
    HistoryAppend(BLANK, INITIAL, first, more);
    hide AllSampled, History;
    FlushKeepsDry(core1, FinalFlush(st1), History(BLANK, INITIAL, first), profile, now);
  }

  lemma FlushKeepsDry(core: Core, st: Backend, l: Ledger, profile: Profile, now: int)
    requires DryFaithful(core, st, l)
    ensures var (core2, st2, _) := FlushDue(core, st, profile, now, true);
      DryFaithfulTo(core2, st2, l, core.state, Sampled(core.acc, profile, Flush(now, true)))
  {
    if core.acc.Some? && core.acc.value.pendingSince.Some? {
      EmitKeepsDry(core, st, l, profile);
    }
  }

  // ----- settling ------------------------------------------------------------------------

  /** `open` is what is really open: every open row, once, at most one of a kind. */
  ghost predicate ReallyOpen(db: Db, open: seq<OpenRow>) {
    && (forall n | n in db.rows :: n < db.nextRow)
    && (forall row | row in open ::
          row.id in db.rows && db.rows[row.id].status.Open? && db.rows[row.id].kind == row.kind
          && db.rows[row.id].startedAt == row.startedAt)
    && (forall n | n in db.rows && db.rows[n].status.Open? :: exists row :: row in open && row.id == n)
    && (forall a, b | a in open && b in open && (a.id == b.id || a.kind == b.kind) :: a == b)
    && Distinct(open)
  }

  ghost predicate OldestFirst(rows: seq<OpenRow>) {
    forall i, j | 0 <= i < j < |rows| :: rows[i].startedAt <= rows[j].startedAt
  }

  lemma {:induction false} InsertKeeps(sorted: seq<OpenRow>, row: OpenRow)
    ensures forall r :: r in InsertByStart(sorted, row) <==> r in sorted || r == row
    ensures Distinct(sorted) && row !in sorted ==> Distinct(InsertByStart(sorted, row))
    ensures OldestFirst(sorted) ==> OldestFirst(InsertByStart(sorted, row))
  {
    if sorted != [] && sorted[0].startedAt <= row.startedAt {
      InsertKeeps(sorted[1..], row);
      var rest := InsertByStart(sorted[1..], row);
      if Distinct(sorted) && row !in sorted {
        assert sorted[0] !in sorted[1..];
      }
      if OldestFirst(sorted) {
        forall j | 0 <= j < |rest| ensures sorted[0].startedAt <= rest[j].startedAt {
          assert rest[j] in rest;
        }
      }
    }
  }

  /** Sorting keeps the rows, and puts the oldest first. */
  lemma {:induction false} ByStartKeeps(rows: seq<OpenRow>)
    ensures forall r :: r in ByStart(rows) <==> r in rows
    ensures Distinct(rows) ==> Distinct(ByStart(rows))
    ensures OldestFirst(ByStart(rows))
  {
    if rows != [] {
      var init, last := rows[..|rows| - 1], rows[|rows| - 1];
      assert rows == init + [last];
      ByStartKeeps(init);
      InsertKeeps(ByStart(init), last);
      if Distinct(rows) {
        assert last !in init;
      }
    }
  }

  /** What a settled row is. */
  ghost predicate Settled(db: Db, before: SessionRow, run: DryRun, running: Option<nat>, row: OpenRow, cap: real) {
    match VerdictOf(run, running, row, cap)
    case Resumed => row.id in db.rows && db.rows[row.id] == before
    case AbandonedNow => row.id in db.rows && db.rows[row.id] == before.(status := Abandoned)
    case Discarded => row.id !in db.rows
    case ClosedNow =>
      var r := run.sessions[MatchFor(run.sessions, row).value];
      && row.id in db.rows
      && db.rows[row.id] == SessionRow(before.kind, r.startedAt, AddPoints([], r.points),
                                       Closed(Summarise(row.kind, r.points, cap)))
      && (row.kind == Charge ==> row.id in db.priced)
  }

  /** Settling one row does that to it, and nothing to any other. */
  lemma SettleOne(st: Backend, run: DryRun, running: Option<nat>, row: OpenRow, cap: real)
    requires st.Live? && row.id in st.db.rows && st.db.rows[row.id].status.Open?
    ensures var st2 := Settle(st, run, running, row, cap);
      && st2.Live?
      && st2.db == st.db.(rows := st2.db.rows, priced := st2.db.priced)
      && st.db.priced <= st2.db.priced
      && Settled(st2.db, st.db.rows[row.id], run, running, row, cap)
      && (forall n | n != row.id :: n in st2.db.rows <==> n in st.db.rows)
      && (forall n | n != row.id && n in st.db.rows :: st2.db.rows[n] == st.db.rows[n])
  {
  }

  ghost predicate Mentions(rows: seq<OpenRow>, n: nat) {
    exists row :: row in rows && row.id == n
  }

  /** Rows not in `rows` are as they were. */
  ghost predicate OthersKept(db: Db, db0: Db, rows: seq<OpenRow>) {
    && (forall n | !Mentions(rows, n) :: n in db.rows <==> n in db0.rows)
    && (forall n | !Mentions(rows, n) && n in db0.rows :: db.rows[n] == db0.rows[n])
  }

  /** After settling `rows`: each of them is settled, and no other row has changed. */
  ghost predicate SettledAll(db: Db, db0: Db, run: DryRun, running: Option<nat>, rows: seq<OpenRow>, cap: real) {
    && db == db0.(rows := db.rows, priced := db.priced)
    && OthersKept(db, db0, rows)
    && (forall row | row in rows :: row.id in db0.rows && Settled(db, db0.rows[row.id], run, running, row, cap))
  }

  lemma SettledStays(db: Db, db2: Db, before: SessionRow, run: DryRun, running: Option<nat>, row: OpenRow, cap: real)
    requires Settled(db, before, run, running, row, cap) && db.priced <= db2.priced
    requires row.id in db2.rows <==> row.id in db.rows
    requires row.id in db.rows ==> db2.rows[row.id] == db.rows[row.id]
    ensures Settled(db2, before, run, running, row, cap)
  {
  }

  lemma {:induction false} SettleEach(st: Backend, run: DryRun, running: Option<nat>, rows: seq<OpenRow>, cap: real)
    requires st.Live? && Distinct(rows)
    requires forall row | row in rows :: row.id in st.db.rows && st.db.rows[row.id].status.Open?
    requires forall a, b | a in rows && b in rows && a.id == b.id :: a == b
    ensures var st2 := SettleAll(st, run, running, rows, cap);
      st2.Live? && SettledAll(st2.db, st.db, run, running, rows, cap)
  {
    if rows != [] {
      var init, last := rows[..|rows| - 1], rows[|rows| - 1];
      assert rows == init + [last] && last !in init;
      SettleEach(st, run, running, init, cap);
      var st1 := SettleAll(st, run, running, init, cap);
      assert !Mentions(init, last.id);
      SettleOne(st1, run, running, last, cap);
      var st2 := Settle(st1, run, running, last, cap);
      forall row | row in init
        ensures Settled(st2.db, st.db.rows[row.id], run, running, row, cap)
      {
        SettledStays(st1.db, st2.db, st.db.rows[row.id], run, running, row, cap);
      }
      forall n | !Mentions(rows, n)
        ensures n != last.id && !Mentions(init, n)
      {
        assert last in rows;
      }
    }
  }

  lemma WithIs(verdict: Outcome, run: DryRun, running: Option<nat>, rows: seq<OpenRow>, cap: real)
    ensures forall row :: row in With(verdict, run, running, rows, cap) <==>
      row in rows && VerdictOf(run, running, row, cap) == verdict
  {
    if rows != [] {
      assert rows == rows[..|rows| - 1] + [rows[|rows| - 1]];
    }
  }

  // ----- the theorem ---------------------------------------------------------------------

  lemma {:induction false} FlushedKeepsRows(core: Core, st: Backend, profile: Profile, samples: seq<Sample>)
    requires st.Live?
    ensures var (core2, st2) := WriteFlushed(core, st, profile, samples);
      && st2.Live?
      && st2.db == st.db.(samples := st2.db.samples, partitions := st2.db.partitions)
      && core2 == core.(ensuredMonths := core2.ensuredMonths)
    decreases |samples|
  {
    if samples != [] {
      var (core1, st1) := EnsureMonth(core, st, profile.monthOf(samples[0].ts));
      FlushedKeepsRows(core1, InsertSample(st1, samples[0]), profile, samples[1..]);
    }
  }

  /** At most one row is carried on: the one of the running session's kind. */
  lemma ResumedIsOne(run: DryRun, running: Option<nat>, a: OpenRow, b: OpenRow, cap: real)
    requires VerdictOf(run, running, a, cap) == Resumed && VerdictOf(run, running, b, cap) == Resumed
    ensures a.kind == b.kind
    ensures running.Some? && running.value < |run.sessions| && a.kind == run.sessions[running.value].kind
  {
    NearestIs(run.sessions, a, |run.sessions|);
    NearestIs(run.sessions, b, |run.sessions|);
  }

  /** Settling leaves open only the row that is carried on. */
  lemma OpenAfterSettling(db: Db, db0: Db, run: DryRun, running: Option<nat>, open: seq<OpenRow>, cap: real, n: nat)
    requires ReallyOpen(db0, open) && SettledAll(db, db0, run, running, open, cap)
    requires n in db.rows && db.rows[n].status.Open?
    ensures exists row :: row in open && row.id == n && VerdictOf(run, running, row, cap) == Resumed
  {
    assert Mentions(open, n) by {
      if n in db0.rows && db0.rows[n].status.Open? {
        var row :| row in open && row.id == n;
      }
    }
    var row :| row in open && row.id == n;
    assert Settled(db, db0.rows[row.id], run, running, row, cap);
  }

  /** The rows may be settled in any order. */
  lemma SettledOpenRows(st: Backend, run: DryRun, running: Option<nat>, open: seq<OpenRow>, cap: real)
    requires st.Live? && ReallyOpen(st.db, open)
    ensures var st2 := SettleAll(st, run, running, ByStart(open), cap);
      st2.Live? && SettledAll(st2.db, st.db, run, running, open, cap)
  {
    ByStartKeeps(open);
    SettleEach(st, run, running, ByStart(open), cap);
    forall n ensures Mentions(ByStart(open), n) <==> Mentions(open, n) {
    }
  }

  /** The rows of a report are the rows that were open, each under its verdict. */
  ghost predicate Accounts(report: Report, run: DryRun, running: Option<nat>, open: seq<OpenRow>, cap: real) {
    && (forall row :: row in report.closed <==> row in open && VerdictOf(run, running, row, cap) == ClosedNow)
    && (forall row :: row in report.discarded <==> row in open && VerdictOf(run, running, row, cap) == Discarded)
    && (forall row :: row in report.abandoned <==> row in open && VerdictOf(run, running, row, cap) == AbandonedNow)
  }

  ghost predicate IsCarriedOn(run: DryRun, running: Option<nat>, open: seq<OpenRow>, cap: real, id: nat) {
    exists row :: row in open && row.id == id && VerdictOf(run, running, row, cap) == Resumed
  }

  /** What reconciling leaves, in full. `l` is the history the replay saw. */
  ghost predicate Reconciled(core: Core, core2: Core, db0: Db, db2: Db, l: Ledger, run: DryRun, open: seq<OpenRow>,
                             report: Report, cap: real)
  {
    var running := Running(core);
    // every row that was open is in exactly one of the four, by its verdict, and is so in the store
    && Accounts(report, run, running, open, cap)
    && (forall row | row in open :: VerdictOf(run, running, row, cap) == Resumed <==>
          report.resumed.Some? && report.resumed.value.id == row.id)
    && (forall row | row in open && VerdictOf(run, running, row, cap) != Resumed ::
          row.id in db0.rows && Settled(db2, db0.rows[row.id], run, running, row, cap))
    // rows that were not open have not changed
    && (forall n | n in db0.rows && !Mentions(open, n) :: n in db2.rows && db2.rows[n] == db0.rows[n])
    && (forall n | n in db2.rows :: n in db0.rows || core2.openId == Some(Row(n)))
    // the only open row is the one whose session the replay ended inside, as the replay saw it
    && OpenLinked(core2, db2, l.current)
    && core2 == core.(openId := core2.openId, ensuredMonths := core2.ensuredMonths)
    && (report.resumed.Some? <==> l.current.Some?)
    && (report.resumed.Some? ==> core2.openId == Some(Row(report.resumed.value.id)))
    // it is a new row exactly when no open row was its
    && (report.resumed.Some? ==>
          (IsCarriedOn(run, running, open, cap, report.resumed.value.id) <==> report.resumed.value.id in db0.rows))
  }

  /** The rows with a verdict are the open rows with it, whatever their order. */
  lemma ReportIs(run: DryRun, running: Option<nat>, open: seq<OpenRow>, cap: real, replayed: nat)
    ensures Accounts(SettledReport(run, running, ByStart(open), cap, replayed), run, running, open, cap)
    ensures forall row :: row in With(Resumed, run, running, ByStart(open), cap) <==>
      row in open && VerdictOf(run, running, row, cap) == Resumed
  {
    ByStartKeeps(open);
    WithIs(ClosedNow, run, running, ByStart(open), cap);
    WithIs(Discarded, run, running, ByStart(open), cap);
    WithIs(AbandonedNow, run, running, ByStart(open), cap);
    WithIs(Resumed, run, running, ByStart(open), cap);
  }

  /** The replayed session that is still running. */
  lemma RunningIs(core: Core, run: DryRun, l: Ledger)
    requires DryLinked(core, run, l) && l.current.Some?
    ensures Running(core) == Some(|run.sessions| - 1)
    ensures var r := run.sessions[|run.sessions| - 1];
      r == Replayed(l.current.value.kind, l.current.value.startedAt, l.current.value.points, false, None)
    ensures core.openPoints == l.current.value.points
  {
  }

  /** Once settled, only the row with id `id` is open, and it is as the replay saw the session that
      runs on; every other row that was open is settled. */
  ghost predicate CarriedOn(db0: Db, db2: Db, s: Session, run: DryRun, running: Option<nat>, open: seq<OpenRow>,
                            id: nat, cap: real)
  {
    && (forall n | n in db2.rows :: n < db2.nextRow)
    && (forall n | n in db2.rows && db2.rows[n].status.Open? :: n == id)
    && id in db2.rows && db2.rows[id] == SessionRow(s.kind, s.startedAt, AddPoints([], s.points), Open)
    && (forall n | n in db0.rows && !Mentions(open, n) :: n in db2.rows && db2.rows[n] == db0.rows[n])
    && (forall n | n in db2.rows :: n in db0.rows || n == id)
    && (forall row | row in open && row.id != id ::
          row.id in db0.rows && Settled(db2, db0.rows[row.id], run, running, row, cap))
  }

  /** The row carried on is the only one of its verdict. */
  lemma OnlyCarried(db0: Db, db: Db, run: DryRun, running: Option<nat>, open: seq<OpenRow>, row: OpenRow, cap: real)
    requires ReallyOpen(db0, open) && SettledAll(db, db0, run, running, open, cap)
    requires row in open && VerdictOf(run, running, row, cap) == Resumed
    ensures forall other | other in open :: VerdictOf(run, running, other, cap) == Resumed <==> other.id == row.id
    ensures running.Some? && running.value < |run.sessions| && row.kind == run.sessions[running.value].kind
    ensures row.id in db.rows && db.rows[row.id].status.Open? && db.rows[row.id].kind == row.kind
  {
    forall other | other in open && VerdictOf(run, running, other, cap) == Resumed ensures other == row {
      ResumedIsOne(run, running, other, row, cap);
    }
    ResumedIsOne(run, running, row, row, cap);
    assert Settled(db, db0.rows[row.id], run, running, row, cap);
  }

  /** A row of the pool has the running session: it is reset to the replay's start and points. */
  lemma RowCarriedOn(db0: Db, db: Db, s: Session, run: DryRun, running: Option<nat>, open: seq<OpenRow>,
                     row: OpenRow, cap: real)
    requires ReallyOpen(db0, open) && row in open
    requires row.id in db.rows && db.rows[row.id].status.Open? && db.rows[row.id].kind == s.kind
    requires SettledAll(db, db0, run, running, open, cap)
    requires forall other | other in open :: VerdictOf(run, running, other, cap) == Resumed <==> other.id == row.id
    ensures var st2 := ResetRow(Live(db), Row(row.id), s.startedAt, s.points);
      st2.Live? && CarriedOn(db0, st2.db, s, run, running, open, row.id, cap)
  {
    var db2 := ResetRow(Live(db), Row(row.id), s.startedAt, s.points).db;
    assert Mentions(open, row.id);
    forall other | other in open && other.id != row.id
      ensures Settled(db2, db0.rows[other.id], run, running, other, cap)
    {
      SettledStays(db, db2, db0.rows[other.id], run, running, other, cap);
    }
    forall n | n in db.rows && db.rows[n].status.Open? ensures n == row.id {
      OpenAfterSettling(db, db0, run, running, open, cap, n);
    }
  }

  /** No row has the running session: `openSession` makes a new one, and can adopt none. */
  lemma RowOpened(db0: Db, db: Db, s: Session, run: DryRun, running: Option<nat>, open: seq<OpenRow>, cap: real)
    requires ReallyOpen(db0, open) && SettledAll(db, db0, run, running, open, cap)
    requires forall other | other in open :: VerdictOf(run, running, other, cap) != Resumed
    ensures var (st1, id) := PipelineModel.OpenRow(Live(db), s.kind, s.startedAt);
      var st2 := ResetRow(st1, id, s.startedAt, s.points);
      && id == Row(db.nextRow) && db.nextRow !in db0.rows && !Mentions(open, db.nextRow)
      && st2.Live? && CarriedOn(db0, st2.db, s, run, running, open, db.nextRow, cap)
  {
    forall n | n in db.rows ensures !db.rows[n].status.Open? {
      if db.rows[n].status.Open? {
        OpenAfterSettling(db, db0, run, running, open, cap, n);
      }
    }
    NothingOpen(db.rows, s.kind, db.nextRow);
    assert db.nextRow !in db0.rows && !Mentions(open, db.nextRow);
    assert db.nextRow !in db.rows;
    var (st1, id) := PipelineModel.OpenRow(Live(db), s.kind, s.startedAt);
    var db2 := ResetRow(st1, id, s.startedAt, s.points).db;
    assert db2.rows == db.rows[db.nextRow := SessionRow(s.kind, s.startedAt, AddPoints([], s.points), Open)];
    forall other | other in open
      ensures Settled(db2, db0.rows[other.id], run, running, other, cap)
    {
      assert Mentions(open, other.id);
      SettledStays(db, db2, db0.rows[other.id], run, running, other, cap);
    }
  }

  /** The pieces put together. */
  lemma Assembled(core: Core, core2: Core, db0: Db, db2: Db, l: Ledger, run: DryRun, open: seq<OpenRow>, id: nat,
                  report: Report, cap: real)
    requires ReallyOpen(db0, open) && l.current.Some? && l.current.value.ended.None?
    requires forall row | row in open :: VerdictOf(run, Running(core), row, cap) == Resumed <==> row.id == id
    requires Mentions(open, id) <==> id in db0.rows
    requires CarriedOn(db0, db2, l.current.value, run, Running(core), open, id, cap)
    requires Accounts(report, run, Running(core), open, cap)
    requires report.resumed.Some? && report.resumed.value.id == id
    requires core2 == core.(openId := Some(Row(id)), ensuredMonths := core2.ensuredMonths)
    requires core.openPoints == l.current.value.points
    ensures Reconciled(core, core2, db0, db2, l, run, open, report, cap)
  {
  }

  /** The settled store, carried on with the session that runs on. */
  lemma CarryOnReconciles(core: Core, db0: Db, db: Db, l: Ledger, run: DryRun, open: seq<OpenRow>, replayed: nat, cap: real)
    requires ReallyOpen(db0, open) && DryLinked(core, run, l) && l.current.Some?
    requires SettledAll(db, db0, run, Running(core), open, cap)
    ensures var running := Running(core);
      var (core2, st2, report) := CarryOn(core, Live(db), run, With(Resumed, run, running, ByStart(open), cap),
                                          SettledReport(run, running, ByStart(open), cap, replayed));
      st2.Live? && Reconciled(core, core2, db0, st2.db, l, run, open, report, cap)
  {
    var running, s := Running(core), l.current.value;
    RunningIs(core, run, l);
    ReportIs(run, running, open, cap, replayed);
    var settled := SettledReport(run, running, ByStart(open), cap, replayed);
    var carried := With(Resumed, run, running, ByStart(open), cap);
    var (core2, st2, report) := CarryOn(core, Live(db), run, carried, settled);
    assert Accounts(report, run, running, open, cap);
    if carried == [] {
      forall other | other in open ensures VerdictOf(run, running, other, cap) != Resumed {
        assert other !in carried;
      }
      RowOpened(db0, db, s, run, running, open, cap);
      Assembled(core, core2, db0, st2.db, l, run, open, db.nextRow, report, cap);
    } else {
      var row := carried[|carried| - 1];
      assert row in carried;
      OnlyCarried(db0, db, run, running, open, row, cap);
      RowCarriedOn(db0, db, s, run, running, open, row, cap);
      Assembled(core, core2, db0, st2.db, l, run, open, row.id, report, cap);
    }
  }

  /** No session runs on: every row is settled and nothing is open. */
  lemma NothingRuns(core: Core, db0: Db, db: Db, l: Ledger, run: DryRun, open: seq<OpenRow>, replayed: nat, cap: real)
    requires ReallyOpen(db0, open) && DryLinked(core, run, l) && l.current.None?
    requires SettledAll(db, db0, run, None, open, cap)
    ensures var (core2, st2, report) := CarryOn(core, Live(db), run, With(Resumed, run, None, ByStart(open), cap),
                                                SettledReport(run, None, ByStart(open), cap, replayed));
      st2.Live? && Reconciled(core, core2, db0, st2.db, l, run, open, report, cap)
  {
    ReportIs(run, None, open, cap, replayed);
    forall n | n in db.rows ensures !db.rows[n].status.Open? {
      if db.rows[n].status.Open? {
        OpenAfterSettling(db, db0, run, None, open, cap, n);
      }
    }
  }

  /** RECONCILING SETTLES THE ROWS. Given a replay that saw the sound history `l`, and the open rows
      of the database, at most one of a kind. */
  lemma ReconcileSettles(core: Core, st: Backend, profile: Profile, run: DryRun, open: seq<OpenRow>, replayed: nat, l: Ledger)
    requires st.Live? && ReallyOpen(st.db, open) && DryLinked(core, run, l)
    ensures var (core2, st2, report) := Reconcile(core, st, profile, run, open, replayed);
      st2.Live? && Reconciled(core, core2, st.db, st2.db, l, run, open, report, profile.capacityKwh)
  {
    var cap := profile.capacityKwh;
    var (core1, st1) := WriteFlushed(core, st, profile, run.flushed);
    FlushedKeepsRows(core, st, profile, run.flushed);
    assert ReallyOpen(st1.db, open) && DryLinked(core1, run, l);
    var running := Running(core1);
    SettledOpenRows(st1, run, running, open, cap);
    var db := SettleAll(st1, run, running, ByStart(open), cap).db;
    if l.current.Some? {
      CarryOnReconciles(core1, st1.db, db, l, run, open, replayed, cap);
    } else {
      NothingRuns(core1, st1.db, db, l, run, open, replayed, cap);
    }
  }

  /** RESUME SETTLES THE ROWS. Whatever the tape, a cold pipeline that resumes over a store with at
      most one open row of a kind ends with the history of the tape's sessions, in whose terms
      every row that was open is carried on, closed, deleted or abandoned; the only row left open
      is `openId`, there exactly when the tape ends inside a session, with the start and points the
      replay saw; and nothing else in the store has changed. */
  lemma ResumeSettles(st: Backend, profile: Profile, tape: seq<Raw>, open: seq<OpenRow>, now: int)
    requires st.Live? && ReallyOpen(st.db, open)
    ensures var (core1, dry) := ReplayTape(COLD, profile, tape, now); var l := TapeHistory(profile, tape, now);
      var (core2, st2, report) := Resume(COLD, st, profile, tape, open, now);
      && DryFaithful(core1, dry, l) && st2.Live?
      && Reconciled(core1, core2, st.db, st2.db, l, dry.run, open, report, profile.capacityKwh)
      && (core2.openId.Some? <==> core2.state.open.Some?)
  {
    ReplayIsFaithful(profile, tape, now);
    var (core1, dry) := ReplayTape(COLD, profile, tape, now);
    ReconcileSettles(core1, st, profile, dry.run, open, |tape|, TapeHistory(profile, tape, now));
  }

  // ----- and on from there ---------------------------------------------------------------

  /** The rows that are settled once and for all when the pipeline resumes: all but the open one. */
  function SettledRows(core: Core, db: Db): map<nat, SessionRow> {
    map n | n in db.rows && core.openId != Some(Row(n)) :: db.rows[n]
  }

  /** A resumed pipeline is as sound as one that has never stopped: its history begins with the
      session that runs on. */
  lemma ResumedIsFaithful(core1: Core, core2: Core, db0: Db, db2: Db, l: Ledger, run: DryRun, open: seq<OpenRow>,
                          report: Report, cap: real)
    requires Reconciled(core1, core2, db0, db2, l, run, open, report, cap)
    requires LedgerSound(core1.state.open, core1.state.lastTs, l, DEFAULT_OPTIONS)
    ensures Faithful(core2, db2, SettledRows(core2, db2), Ledger([], l.current, l.ok), [], cap)
  {
    hide Accounts, IsCarriedOn;
  }

  /** What is still to be stored after a restart: the session that runs on, and what follows. */
  function HistorySince(l: Ledger, core: Core, profile: Profile, works: seq<Work>): Ledger {
    History(Ledger([], l.current, l.ok), core.state, AllSampled(core.acc, profile, works).1)
  }

  /** ROWS MAKE SENSE AFTER A RESTART, over any work: the open row is the session's the restart carried
      on, until it ends; rows settled at the restart stay so; and every row since is that of a session
      the segmenter has made since, one for one, closed as its summary says. */
  lemma RowsMakeSenseAfterResume(st: Backend, profile: Profile, tape: seq<Raw>, open: seq<OpenRow>, now: int,
                                 works: seq<Work>)
    requires st.Live? && ReallyOpen(st.db, open)
    ensures var (core2, st2, _) := Resume(COLD, st, profile, tape, open, now);
      var (core3, st3) := DoAll(core2, st2, profile, works);
      && st2.Live? && RowsSound(core3, st3, SettledRows(core2, st2.db))
      && RowsAreOf(core3, st3, SettledRows(core2, st2.db),
                   HistorySince(TapeHistory(profile, tape, now), core2, profile, works), profile.capacityKwh)
  {
    var cap, l := profile.capacityKwh, TapeHistory(profile, tape, now);
    ResumeSettles(st, profile, tape, open, now);
    var (core1, dry) := ReplayTape(COLD, profile, tape, now);
    var (core2, st2, report) := Resume(COLD, st, profile, tape, open, now);
    ResumedIsFaithful(core1, core2, st.db, st2.db, l, dry.run, open, report, cap);
    var base, since := SettledRows(core2, st2.db), Ledger([], l.current, l.ok);
    hide Resume, ReplayTape, TapeHistory, SettledRows, Reconciled, DryFaithful;
    var ids := StoredSessions(core2, st2.db, base, since, [], profile, works);
    var (core3, st3) := DoAll(core2, st2, profile, works);
    hide DoAll, RowsSound, AllSampled, History;
    FaithfulRows(core3, st3.db, base, HistorySince(l, core2, profile, works), ids, cap);
  }
}
