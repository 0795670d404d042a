/** The sessions in the store are the segmenter's sessions, whatever the pipeline is given. */
module PipelineSessions {
  import opened Collections
  import opened Segmenter
  import opened SegmenterRuns
  import opened Metrics
  import opened Accumulator
  import opened PipelineModel

  // ----- what a session is stored as -----------------------------------------------------

  /** The points a closed session is summarised from. */
  function FullPoints(s: Session): seq<Sample> {
    if s.ended.Some? then WithEnd(s.points, s.ended.value) else s.points
  }

  /** The row of a session that has ended; `None` if it is no real drive, whose row is deleted. */
  function RowFor(s: Session, capacityKwh: real): Option<SessionRow> {
    var points := FullPoints(s);
    if Keeps(s.kind, points, capacityKwh)
    then Some(SessionRow(s.kind, s.startedAt, AddPoints([], points), Closed(Summarise(s.kind, points, capacityKwh))))
    else None
  }

  /** The summary of a sound session starts and ends with its events. */
  lemma SummaryTimes(s: Session, capacityKwh: real)
    requires ClosedSound(s, DEFAULT_OPTIONS)
    ensures var summary := Summarise(s.kind, FullPoints(s), capacityKwh);
      summary.startedAt == Some(s.startedAt) && summary.endedAt == Some(s.ended.value.ts)
    ensures TimeOrdered(FullPoints(s))
  {
    var points := FullPoints(s);
    forall i, j | 0 <= i <= j < |points|
      ensures points[i].ts <= points[j].ts
    {
      if i < |s.points| && j == |s.points| {
        assert s.points[i].ts <= s.points[|s.points| - 1].ts;
      }
    }
  }

  // ----- the live store ------------------------------------------------------------------

  /** The one row that is open is the open session's, as it stands. */
  ghost predicate OpenLinked(core: Core, db: Db, current: Option<Session>) {
    && (forall n | n in db.rows :: n < db.nextRow)
    && (core.openId.Some? <==> current.Some?)
    && (forall n | n in db.rows && db.rows[n].status.Open? :: core.openId == Some(Row(n)))
    && (current.Some? ==>
          var s := current.value;
          && core.openId.value.Row? && core.openId.value.n in db.rows
          && db.rows[core.openId.value.n] == SessionRow(s.kind, s.startedAt, AddPoints([], s.points), Open)
          && core.openPoints == s.points
          && s.ended.None?)
  }

  /** Closed session `i` is row `ids[i]`, or is no row if it went nowhere; a kept charge is priced. */
  ghost predicate DoneStored(db: Db, done: seq<Session>, ids: seq<nat>, capacityKwh: real) {
    && |ids| == |done|
    && Distinct(ids)
    && (forall i | 0 <= i < |done| :: ids[i] < db.nextRow)
    && (forall i | 0 <= i < |done| && RowFor(done[i], capacityKwh).Some? ::
          && ids[i] in db.rows && db.rows[ids[i]] == RowFor(done[i], capacityKwh).value
          && (done[i].kind == Charge ==> ids[i] in db.priced))
    && (forall i | 0 <= i < |done| && RowFor(done[i], capacityKwh).None? :: ids[i] !in db.rows)
  }

  /** Rows from before are as they were, and there are no others. */
  ghost predicate BaseKept(core: Core, db: Db, base: map<nat, SessionRow>, ids: seq<nat>) {
    && (forall n | n in base :: n in db.rows && db.rows[n] == base[n] && n !in ids && core.openId != Some(Row(n)))
    && (forall n | n in db.rows :: n in base || n in ids || core.openId == Some(Row(n)))
    && (core.openId.Some? && core.openId.value.Row? ==> core.openId.value.n !in ids)
  }

  ghost predicate Linked(core: Core, db: Db, base: map<nat, SessionRow>, l: Ledger, ids: seq<nat>, capacityKwh: real) {
    && OpenLinked(core, db, l.current)
    && DoneStored(db, l.done, ids, capacityKwh)
    && BaseKept(core, db, base, ids)
  }

  lemma NothingOpen(rows: map<nat, SessionRow>, kind: Kind, n: nat)
    requires forall m | m in rows :: !rows[m].status.Open?
    ensures FindOpen(rows, kind, n).None?
  {
  }

  /** The ids of closed sessions once `e` has been put to the store. */
  function IdsAfter(core: Core, ids: seq<nat>, e: Event): seq<nat> {
    if e.End? && core.openId.Some? && core.openId.value.Row? then ids + [core.openId.value.n] else ids
  }

  /** With nothing open, a start makes a new row. */
  lemma StartMakesRow(core: Core, db: Db, cap: real, e: Event)
    requires OpenLinked(core, db, None) && e.Start?
    ensures var n := db.nextRow;
      && n !in db.rows
      && Put(core, Live(db), e, cap) == (core.(openId := Some(Row(n)), openPoints := []),
           Live(db.(rows := db.rows[n := SessionRow(e.kind, e.at, [], Open)], nextRow := n + 1)))
  {
    NothingOpen(db.rows, e.kind, db.nextRow);
    assert db.nextRow !in db.rows;
  }

  lemma StartKeepsLinked(core: Core, db: Db, base: map<nat, SessionRow>, l: Ledger, ids: seq<nat>, cap: real, e: Event)
    requires Linked(core, db, base, l, ids, cap) && e.Start? && l.ok && Record(l, e).ok
    ensures var (core2, st2) := Put(core, Live(db), e, cap);
      st2.Live? && Linked(core2, st2.db, base, Record(l, e), ids, cap)
  {
    StartMakesRow(core, db, cap, e);
    var row := SessionRow(e.kind, e.at, [], Open);
    NewRowKeepsDone(db, row, l.done, ids, cap);
    NewRowKeepsBase(core, db, row, base, ids);
  }

  lemma NewRowKeepsDone(db: Db, row: SessionRow, done: seq<Session>, ids: seq<nat>, cap: real)
    requires DoneStored(db, done, ids, cap) && db.nextRow !in db.rows
    ensures DoneStored(db.(rows := db.rows[db.nextRow := row], nextRow := db.nextRow + 1), done, ids, cap)
  {
  }

  lemma NewRowKeepsBase(core: Core, db: Db, row: SessionRow, base: map<nat, SessionRow>, ids: seq<nat>)
    requires BaseKept(core, db, base, ids) && core.openId.None? && db.nextRow !in db.rows
    requires forall i | 0 <= i < |ids| :: ids[i] < db.nextRow
    ensures BaseKept(core.(openId := Some(Row(db.nextRow)), openPoints := []),
                     db.(rows := db.rows[db.nextRow := row], nextRow := db.nextRow + 1), base, ids)
  {
  }

  lemma PointKeepsLinked(core: Core, db: Db, base: map<nat, SessionRow>, l: Ledger, ids: seq<nat>, cap: real, e: Event)
    requires Linked(core, db, base, l, ids, cap) && e.Point? && l.ok && Record(l, e).ok
    ensures var (core2, st2) := Put(core, Live(db), e, cap);
      st2.Live? && Linked(core2, st2.db, base, Record(l, e), ids, cap)
  {
    var points := l.current.value.points;
    assert (points + [e.sample])[..|points|] == points;
  }

  /** A finished row: closed with its summary, and priced if a charge; or gone. */
  lemma FinishedRow(db: Db, n: nat, s: Session, cap: real)
    requires n in db.rows && s.ended.Some?
    requires db.rows[n] == SessionRow(s.kind, s.startedAt, AddPoints([], FullPoints(s)), Open)
    ensures var st := Finish(Live(db), Row(n), s.kind, FullPoints(s), cap).0;
      && st.Live?
      && st.db == db.(rows := st.db.rows, priced := st.db.priced)
      && db.priced <= st.db.priced
      && (forall m | m != n :: m in st.db.rows <==> m in db.rows)
      && (forall m | m != n && m in db.rows :: st.db.rows[m] == db.rows[m])
      && (if RowFor(s, cap).Some? then n in st.db.rows && st.db.rows[n] == RowFor(s, cap).value
          else n !in st.db.rows)
      && (RowFor(s, cap).Some? && s.kind == Charge ==> n in st.db.priced)
  {
  }

  lemma EndAppends(core: Core, db: Db, s: Session, cap: real)
    requires OpenLinked(core, db, Some(s.(ended := None))) && s.ended.Some?
    ensures var n := core.openId.value.n;
      var st1 := if FullPoints(s) == core.openPoints then Live(db) else AppendPoint(Live(db), Row(n), s.ended.value);
      && st1 == SetRow(db, n, SessionRow(s.kind, s.startedAt, AddPoints([], FullPoints(s)), Open))
  {
    var n := core.openId.value.n;
    if FullPoints(s) == core.openPoints {
      assert db.rows[n := db.rows[n]] == db.rows;
    } else {
      assert FullPoints(s) == s.points + [s.ended.value];
      assert (s.points + [s.ended.value])[..|s.points|] == s.points;
    }
  }

  lemma EndKeepsLinked(core: Core, db: Db, base: map<nat, SessionRow>, l: Ledger, ids: seq<nat>, cap: real, e: Event)
    requires Linked(core, db, base, l, ids, cap) && e.End? && l.ok && Record(l, e).ok
    ensures var (core2, st2) := Put(core, Live(db), e, cap);
      st2.Live? && Linked(core2, st2.db, base, Record(l, e), IdsAfter(core, ids, e), cap)
  {
    var n := core.openId.value.n;
    var s := l.current.value.(ended := Some(e.sample));
    EndAppends(core, db, s, cap);
    var db1 := SetRow(db, n, SessionRow(s.kind, s.startedAt, AddPoints([], FullPoints(s)), Open)).db;
    FinishedRow(db1, n, s, cap);
    var (core2, st2) := Put(core, Live(db), e, cap);
    assert st2 == Finish(Live(db1), Row(n), s.kind, FullPoints(s), cap).0;
    var ids2 := ids + [n];
    var done2 := l.done + [s];
    assert Record(l, e).done == done2;
    EndStored(db, st2.db, l.done, s, ids, n, cap);
  }

  lemma EndStored(db: Db, db2: Db, done: seq<Session>, s: Session, ids: seq<nat>, n: nat, cap: real)
    requires DoneStored(db, done, ids, cap) && n !in ids && n < db.nextRow
    requires db2.nextRow == db.nextRow && db.priced <= db2.priced
    requires forall m | m != n :: m in db2.rows <==> m in db.rows
    requires forall m | m != n && m in db.rows :: db2.rows[m] == db.rows[m]
    requires if RowFor(s, cap).Some? then n in db2.rows && db2.rows[n] == RowFor(s, cap).value else n !in db2.rows
    requires RowFor(s, cap).Some? && s.kind == Charge ==> n in db2.priced
    ensures DoneStored(db2, done + [s], ids + [n], cap)
  {
    var ids2, done2 := ids + [n], done + [s];
    forall i | 0 <= i < |done2|
      ensures i < |done| ==> ids2[i] == ids[i] && ids[i] != n && done2[i] == done[i]
      ensures i == |done| ==> ids2[i] == n && done2[i] == s
    {
      if i < |done| {
        assert ids[i] in ids;
      }
    }
  }

  lemma PutKeepsLinked(core: Core, db: Db, base: map<nat, SessionRow>, l: Ledger, ids: seq<nat>, cap: real, e: Event)
    requires Linked(core, db, base, l, ids, cap) && l.ok && Record(l, e).ok
    ensures var (core2, st2) := Put(core, Live(db), e, cap);
      st2.Live? && Linked(core2, st2.db, base, Record(l, e), IdsAfter(core, ids, e), cap)
  {
    match e
    case Start(_, _, _) => StartKeepsLinked(core, db, base, l, ids, cap, e);
    case Point(_) => PointKeepsLinked(core, db, base, l, ids, cap, e);
    case End(_, _, _) => EndKeepsLinked(core, db, base, l, ids, cap, e);
  }

  lemma {:induction false} OkStays(l: Ledger, events: seq<Event>)
    requires RecordAll(l, events).ok
    ensures l.ok
    decreases |events|
  {
    if events != [] {
      OkStays(Record(l, events[0]), events[1..]);
    }
  }

  /** Only the session fields of the memory are touched by events. */
  lemma {:induction false} PutAllFrame(core: Core, st: Backend, events: seq<Event>, cap: real)
    ensures var core2 := PutAll(core, st, events, cap).0;
      core2 == core.(openId := core2.openId, openPoints := core2.openPoints)
    decreases |events|
  {
    if events != [] {
      var (core1, st1) := Put(core, st, events[0], cap);
      PutAllFrame(core1, st1, events[1..], cap);
    }
  }

  lemma {:induction false} PutAllKeepsLinked(core: Core, db: Db, base: map<nat, SessionRow>, l: Ledger,
                                             ids: seq<nat>, cap: real, events: seq<Event>)
    returns (ids2: seq<nat>)
    requires Linked(core, db, base, l, ids, cap) && RecordAll(l, events).ok
    ensures var (core2, st2) := PutAll(core, Live(db), events, cap);
      st2.Live? && Linked(core2, st2.db, base, RecordAll(l, events), ids2, cap)
    decreases |events|
  {
    ids2 := ids;
    if events != [] {
      OkStays(Record(l, events[0]), events[1..]);
      OkStays(l, events);
      PutKeepsLinked(core, db, base, l, ids, cap, events[0]);
      var (core1, st1) := Put(core, Live(db), events[0], cap);
      ids2 := PutAllKeepsLinked(core1, st1.db, base, Record(l, events[0]), IdsAfter(core, ids, events[0]), cap, events[1..]);
    }
  }

  /** Everything: the ledger is what the segmenter has done, and the store is what the ledger says. */
  ghost predicate Faithful(core: Core, db: Db, base: map<nat, SessionRow>, l: Ledger, ids: seq<nat>, cap: real) {
    && LedgerSound(core.state.open, core.state.lastTs, l, DEFAULT_OPTIONS)
    && Linked(core, db, base, l, ids, cap)
  }

  /** The store before a sample's events are put to it: its rows are untouched. */
  lemma SamplePrelude(core: Core, st: Backend, profile: Profile, s: Sample)
    ensures var (core1, st1) := EnsureMonth(core, st, profile.monthOf(s.ts));
      var (core3, st3) := MeasurePack(core1, InsertSample(st1, s), s);
      && core3 == core.(ensuredMonths := core3.ensuredMonths, measuredDay := core3.measuredDay)
      && (st.Live? ==> st3.Live? && st3.db == st.db.(samples := st3.db.samples, partitions := st3.db.partitions,
                                                     capacityDays := st3.db.capacityDays))
      && (st.Dry? ==> st3.Dry? && st3.run.sessions == st.run.sessions)
  {
  }

  lemma SampleKeeps(core: Core, db: Db, base: map<nat, SessionRow>, l: Ledger, ids: seq<nat>, profile: Profile, s: Sample)
    returns (ids2: seq<nat>)
    requires Faithful(core, db, base, l, ids, profile.capacityKwh)
    ensures var (core2, st2, _) := ApplySample(core, Live(db), profile, s);
      && st2.Live? && Faithful(core2, st2.db, base, History(l, core.state, [s]), ids2, profile.capacityKwh)
      && core2.state == SegmenterRuns.Run(core.state, [s], DEFAULT_OPTIONS).0 && core2.acc == core.acc
  {
    SamplePrelude(core, Live(db), profile, s);
    HistoryOne(l, core.state, s);
    var (core1, st1) := EnsureMonth(core, Live(db), profile.monthOf(s.ts));
    var (core3, st3) := MeasurePack(core1, InsertSample(st1, s), s);
    var (state, events) := Step(core.state, s, DEFAULT_OPTIONS);
    SegmenterRuns.StepKeeps(core.state, l, s, DEFAULT_OPTIONS);
    var core4 := core3.(state := state);
    ids2 := PutAllKeepsLinked(core4, st3.db, base, l, ids, profile.capacityKwh, events);
    PutAllFrame(core4, st3, events, profile.capacityKwh);
  }

  // ----- what is to be stored ------------------------------------------------------------

  /** The sessions the segmenter makes of `samples`, written after `l`. */
  function History(l: Ledger, state: State, samples: seq<Sample>): Ledger {
    RecordAll(l, SegmenterRuns.Run(state, samples, DEFAULT_OPTIONS).1)
  }

  lemma HistoryOne(l: Ledger, state: State, s: Sample)
    ensures SegmenterRuns.Run(state, [s], DEFAULT_OPTIONS) == Step(state, s, DEFAULT_OPTIONS)
    ensures History(l, state, [s]) == RecordAll(l, Step(state, s, DEFAULT_OPTIONS).1)
  {
    var (next, events) := Step(state, s, DEFAULT_OPTIONS);
    assert SegmenterRuns.Run(next, [], DEFAULT_OPTIONS) == (next, []);
    assert [s][1..] == [] && events + [] == events;
  }

  lemma HistoryAppend(l: Ledger, state: State, a: seq<Sample>, b: seq<Sample>)
    ensures History(l, state, a + b)
      == History(History(l, state, a), SegmenterRuns.Run(state, a, DEFAULT_OPTIONS).0, b)
  {
    RunAppend(state, a, b, DEFAULT_OPTIONS);
    var (mid, first) := SegmenterRuns.Run(state, a, DEFAULT_OPTIONS);
    RecordAppend(l, first, SegmenterRuns.Run(mid, b, DEFAULT_OPTIONS).1);
  }

  // ----- over any work -------------------------------------------------------------------

  /** What the worker asks of the pipeline. */
  datatype Work = Message(raw: Raw) | Flush(now: int, force: bool) | Direct(sample: Sample)

  function Do(core: Core, st: Backend, profile: Profile, work: Work): (Core, Backend, Counts) {
    match work
    case Message(raw) => HandleRaw(core, st, profile, raw)
    case Flush(now, force) => FlushDue(core, st, profile, now, force)
    case Direct(sample) => ApplySample(core, st, profile, sample)
  }

  function DoAll(core: Core, st: Backend, profile: Profile, works: seq<Work>): (Core, Backend)
    decreases |works|
  {
    if works == [] then (core, st)
    else
      var (core1, st1, _) := Do(core, st, profile, works[0]);
      DoAll(core1, st1, profile, works[1..])
  }

  // What the debounce makes of the work, with no store and no segmenter.

  /** The pending sample taken. */
  function Popped(acc: Acc, profile: Profile): (Acc, seq<Sample>) {
    var (rest, taken) := Take(acc, profile.policy);
    (rest, if taken.None? then [] else [profile.toSample(taken.value.ts, taken.value.state)])
  }

  function Merged(acc: Acc, profile: Profile, raw: Raw): Acc {
    if profile.decode(raw).Some? then Apply(acc, profile.policy, profile.decode(raw).value, raw.receivedAt).0 else acc
  }

  /** The samples one piece of work emits, and the accumulator it leaves. */
  function Sampled(acc: Option<Acc>, profile: Profile, work: Work): (Option<Acc>, seq<Sample>) {
    match work
    case Direct(sample) => (acc, [sample])
    case Flush(now, force) =>
      if acc.Some? && (if force then acc.value.pendingSince.Some? else Due(acc.value, now))
      then (Some(Popped(acc.value, profile).0), Popped(acc.value, profile).1) else (acc, [])
    case Message(raw) =>
      var was := if acc.Some? then acc.value else EMPTY;
      var (ready, samples) := if Due(was, raw.receivedAt) then Popped(was, profile) else (was, []);
      (Some(Merged(ready, profile, raw)), samples)
  }

  function AllSampled(acc: Option<Acc>, profile: Profile, works: seq<Work>): (Option<Acc>, seq<Sample>)
    decreases |works|
  {
    if works == [] then (acc, [])
    else
      var (next, samples) := Sampled(acc, profile, works[0]);
      var (end, later) := AllSampled(next, profile, works[1..]);
      (end, samples + later)
  }

  /** The segmenter has taken the samples, and the store is as their sessions say. */
  ghost predicate FaithfulTo(core: Core, db: Db, base: map<nat, SessionRow>, l: Ledger, ids: seq<nat>, cap: real,
                             state: State, sampled: (Option<Acc>, seq<Sample>))
  {
    && Faithful(core, db, base, History(l, state, sampled.1), ids, cap)
    && core.state == SegmenterRuns.Run(state, sampled.1, DEFAULT_OPTIONS).0
    && core.acc == sampled.0
  }

  /** Nothing but the accumulator, the memos and the tape moves: the sessions do not. */
  lemma SameSessions(core: Core, core2: Core, db: Db, db2: Db, base: map<nat, SessionRow>, l: Ledger, ids: seq<nat>, cap: real)
    requires Faithful(core, db, base, l, ids, cap)
    requires core2.state == core.state && core2.openId == core.openId && core2.openPoints == core.openPoints
    requires db2.rows == db.rows && db2.nextRow == db.nextRow && db2.priced == db.priced
    ensures Faithful(core2, db2, base, l, ids, cap)
  {
  }

  lemma EmitKeeps(core: Core, db: Db, base: map<nat, SessionRow>, l: Ledger, ids: seq<nat>, profile: Profile)
    returns (ids2: seq<nat>)
    requires Faithful(core, db, base, l, ids, profile.capacityKwh) && core.acc.Some?
    ensures var (core2, st2, _) := EmitSample(core, Live(db), profile); var (acc, samples) := Popped(core.acc.value, profile);
      st2.Live? && FaithfulTo(core2, st2.db, base, l, ids2, profile.capacityKwh, core.state, (Some(acc), samples))
  {
    ids2 := ids;
    var (acc, taken) := Take(core.acc.value, profile.policy);
    var core1 := core.(acc := Some(acc));
    SameSessions(core, core1, db, db, base, l, ids, profile.capacityKwh);
    if taken.Some? {
      ids2 := SampleKeeps(core1, db, base, l, ids, profile, profile.toSample(taken.value.ts, taken.value.state));
    }
  }

  /** The tape and the accumulator before a message's samples: no session moves. */
  lemma MessageBegins(core: Core, db: Db, base: map<nat, SessionRow>, l: Ledger, ids: seq<nat>, profile: Profile, raw: Raw)
    requires Faithful(core, db, base, l, ids, profile.capacityKwh)
    ensures var (core1, st1) := EnsureMonth(core, Live(db), profile.monthOf(raw.receivedAt));
      var st2 := InsertRaw(st1, raw); var core2 := core1.(acc := Some(AccOf(core1)));
      && st2.Live? && Faithful(core2, st2.db, base, l, ids, profile.capacityKwh)
      && core2.state == core.state && core2.acc == Some(AccOf(core))
  {
    var (core1, st1) := EnsureMonth(core, Live(db), profile.monthOf(raw.receivedAt));
    SameSessions(core, core1.(acc := Some(AccOf(core1))), db, InsertRaw(st1, raw).db, base, l, ids, profile.capacityKwh);
  }

  lemma MessageKeeps(core: Core, db: Db, base: map<nat, SessionRow>, l: Ledger, ids: seq<nat>, profile: Profile, raw: Raw)
    returns (ids2: seq<nat>)
    requires Faithful(core, db, base, l, ids, profile.capacityKwh)
    ensures var (core2, st2, _) := HandleRaw(core, Live(db), profile, raw);
      st2.Live? && FaithfulTo(core2, st2.db, base, l, ids2, profile.capacityKwh, core.state,
                              Sampled(core.acc, profile, Message(raw)))
  {
    MessageBegins(core, db, base, l, ids, profile, raw);
    var (core1, st1) := EnsureMonth(core, Live(db), profile.monthOf(raw.receivedAt));
    var core2, st2 := core1.(acc := Some(AccOf(core1))), InsertRaw(st1, raw);
    ids2 := ids;
    if Due(core2.acc.value, raw.receivedAt) {
      ids2 := EmitKeeps(core2, st2.db, base, l, ids, profile);
    }
    var (core3, st3, counts) := EmitDue(core2, st2, profile, raw.receivedAt);
    var (ready, samples) := if Due(AccOf(core), raw.receivedAt) then Popped(AccOf(core), profile) else (AccOf(core), []);
    assert st3.Live? && FaithfulTo(core3, st3.db, base, l, ids2, profile.capacityKwh, core.state, (Some(ready), samples));
    var (end, stEnd, _) := HandleRaw(core, Live(db), profile, raw);
    assert end == TakeIn(core3, profile, raw).0 && stEnd == AdvanceCursor(st3, raw.receivedAt);
    assert end == core3.(acc := Some(Merged(ready, profile, raw)));
    hide HandleRaw, EmitDue, EnsureMonth, Linked, LedgerSound, History;
    SameSessions(core3, end, st3.db, stEnd.db, base, History(l, core.state, samples), ids2, profile.capacityKwh);
  }

  lemma DoKeeps(core: Core, db: Db, base: map<nat, SessionRow>, l: Ledger, ids: seq<nat>, profile: Profile, work: Work)
    returns (ids2: seq<nat>)
    requires Faithful(core, db, base, l, ids, profile.capacityKwh)
    ensures var (core2, st2, _) := Do(core, Live(db), profile, work);
      st2.Live? && FaithfulTo(core2, st2.db, base, l, ids2, profile.capacityKwh, core.state, Sampled(core.acc, profile, work))
  {
    match work
    case Message(raw) => ids2 := MessageKeeps(core, db, base, l, ids, profile, raw);
    case Direct(sample) => ids2 := SampleKeeps(core, db, base, l, ids, profile, sample);
    case Flush(now, force) =>
      ids2 := ids;
      if core.acc.Some? && (if force then core.acc.value.pendingSince.Some? else Due(core.acc.value, now)) {
        ids2 := EmitKeeps(core, db, base, l, ids, profile);
      }
  }

  /** STORED SESSIONS ARE THE SEGMENTER'S SESSIONS. After any work, the rows since `base` are the
      sessions that the segmenter alone makes of the samples that the debounce alone makes of the
      work, one for one: each closed session is the row its full points summarise to, or no row if
      it is no real drive; the open one is the one open row, with its points; every row from before
      is untouched and there are no others. */
  lemma {:induction false} StoredSessions(core: Core, db: Db, base: map<nat, SessionRow>, l: Ledger, ids: seq<nat>,
                                          profile: Profile, works: seq<Work>)
    returns (ids2: seq<nat>)
    requires Faithful(core, db, base, l, ids, profile.capacityKwh)
    ensures var (core2, st2) := DoAll(core, Live(db), profile, works);
      st2.Live? && FaithfulTo(core2, st2.db, base, l, ids2, profile.capacityKwh, core.state, AllSampled(core.acc, profile, works))
    decreases |works|
  {
    ids2 := ids;
    if works != [] {
      var mid := DoKeeps(core, db, base, l, ids, profile, works[0]);
      var (core1, st1, _) := Do(core, Live(db), profile, works[0]);
      var (acc, samples) := Sampled(core.acc, profile, works[0]);
      hide Do, Sampled, Linked, LedgerSound, History;
      ids2 := StoredSessions(core1, st1.db, base, History(l, core.state, samples), mid, profile, works[1..]);
      var later := AllSampled(acc, profile, works[1..]).1;
      HistoryAppend(l, core.state, samples, later);
      RunAppend(core.state, samples, later, DEFAULT_OPTIONS);
    }
  }

  /** A fresh pipeline on a store with no open row. */
  lemma ColdIsFaithful(db: Db, cap: real)
    requires forall n | n in db.rows :: n < db.nextRow && !db.rows[n].status.Open?
    ensures Faithful(COLD, db, db.rows, BLANK, [], cap)
  {
  }

  /** ... and so, in the store's own terms: there is an open row exactly when the segmenter has a
      session open, and it is `openId`; the rows of `base` are as they were; and every other is a
      closed session whose summary starts with it and does not end before, priced if a charge. */
  ghost predicate RowsSound(core: Core, st: Backend, base: map<nat, SessionRow>) {
    && st.Live?
    && (core.openId.Some? <==> core.state.open.Some?)
    && (forall n | n in st.db.rows && n !in base :: st.db.rows[n].status.Open? <==> core.openId == Some(Row(n)))
    && (core.openId.Some? ==>
          && core.openId.value.Row? && core.openId.value.n in st.db.rows && core.openId.value.n !in base
          && st.db.rows[core.openId.value.n].kind == core.state.open.value.kind
          && st.db.rows[core.openId.value.n].startedAt == core.state.open.value.startedAt)
    && (forall n | n in base :: n in st.db.rows && st.db.rows[n] == base[n] && !base[n].status.Open?)
    && (forall n | n in st.db.rows && n !in base && !st.db.rows[n].status.Open? :: RowSound(st.db, n))
  }

  ghost predicate RowSound(db: Db, n: nat)
    requires n in db.rows
  {
    && db.rows[n].status.Closed?
    && db.rows[n].status.summary.startedAt == Some(db.rows[n].startedAt)
    && db.rows[n].status.summary.endedAt.Some?
    && db.rows[n].startedAt <= db.rows[n].status.summary.endedAt.value
    && (db.rows[n].kind == Charge ==> n in db.priced)
  }

  lemma FaithfulRows(core: Core, db: Db, base: map<nat, SessionRow>, l: Ledger, ids: seq<nat>, cap: real)
    requires Faithful(core, db, base, l, ids, cap)
    ensures RowsSound(core, Live(db), base)
  {
    hide RowSound;
    forall n | n in db.rows && n !in base && !db.rows[n].status.Open? ensures RowSound(db, n) {
      assert n in ids;
      var i :| 0 <= i < |ids| && ids[i] == n;
      DoneRowSound(db, l.done[i], n, cap);
    }
  }

  /** The row of a closed session. */
  lemma DoneRowSound(db: Db, s: Session, n: nat, cap: real)
    requires ClosedSound(s, DEFAULT_OPTIONS) && n in db.rows
    requires RowFor(s, cap) == Some(db.rows[n]) && (s.kind == Charge ==> n in db.priced)
    ensures RowSound(db, n)
  {
    SummaryTimes(s, cap);
    assert s.points[0].ts <= s.points[|s.points| - 1].ts;
  }

  /** The rows since `base` are those of `l`'s sessions, one for one. */
  ghost predicate RowsAreOf(core: Core, st: Backend, base: map<nat, SessionRow>, l: Ledger, cap: real) {
    st.Live? && exists ids :: Linked(core, st.db, base, l, ids, cap)
  }

  /** The sessions of all work done by a pipeline that starts cold. */
  function WholeHistory(profile: Profile, works: seq<Work>): Ledger {
    History(BLANK, INITIAL, AllSampled(None, profile, works).1)
  }

  /** From a fresh pipeline on a store with no open row. */
  lemma RowsMakeSense(db: Db, profile: Profile, works: seq<Work>)
    requires forall n | n in db.rows :: n < db.nextRow && !db.rows[n].status.Open?
    ensures var (core, st) := DoAll(COLD, Live(db), profile, works);
      RowsSound(core, st, db.rows) && RowsAreOf(core, st, db.rows, WholeHistory(profile, works), profile.capacityKwh)
  {
    var cap := profile.capacityKwh;
    ColdIsFaithful(db, cap);
    var ids := StoredSessions(COLD, db, db.rows, BLANK, [], profile, works);
    var (core, st) := DoAll(COLD, Live(db), profile, works);
    hide DoAll, RowsSound, AllSampled, History;
    FaithfulRows(core, st.db, db.rows, WholeHistory(profile, works), ids, cap);
  }

  // ----- work that may fail --------------------------------------------------------------

  /** The work that was taken, of `works`. */
  function Taken(works: seq<Work>, taken: seq<bool>): seq<Work>
    requires |works| == |taken|
  {
    if works == [] then []
    else
      var n := |works| - 1;
      Taken(works[..n], taken[..n]) + if taken[n] then [works[n]] else []
  }

  /** One more piece of work, tried last. */
  lemma TakenNext(works: seq<Work>, taken: seq<bool>, ok: bool)
    requires |taken| < |works|
    ensures var n := |taken|;
      Taken(works[..n + 1], taken + [ok]) == Taken(works[..n], taken) + if ok then [works[n]] else []
  {
    var n := |taken|;
    assert works[..n + 1][..n] == works[..n] && (taken + [ok])[..n] == taken;
  }

  /** One more piece of work, done last. */
  lemma {:induction false} DoAllAppend(core: Core, st: Backend, profile: Profile, works: seq<Work>, work: Work)
    ensures var (core1, st1) := DoAll(core, st, profile, works);
      var done := Do(core1, st1, profile, work);
      DoAll(core, st, profile, works + [work]) == (done.0, done.1)
    decreases |works|
  {
    if works == [] {
      assert ([] + [work])[1..] == [];
    } else {
      assert (works + [work])[1..] == works[1..] + [work];
      var (core1, st1, _) := Do(core, st, profile, works[0]);
      DoAllAppend(core1, st1, profile, works[1..], work);
    }
  }
}
