/** A restart in the middle of a session carries it on, and changes no row. */
module PipelineRestart {
  import opened Collections
  import opened Segmenter
  import opened SegmenterRuns
  import opened Accumulator
  import Debounce = AccumulatorRuns
  import opened PipelineModel
  import opened PipelineSessions
  import opened PipelineResume
  import opened PipelineResumeProofs
  import opened PipelineReplay

  // ----- samples come at later and later instants ----------------------------------------

  ghost predicate Rising(times: seq<int>) {
    forall i, j | 0 <= i < j < |times| :: times[i] < times[j]
  }

  function Times(samples: seq<Sample>): seq<int> {
    seq(|samples|, i requires 0 <= i < |samples| => samples[i].ts)
  }

  function Held(acc: Option<Acc>): Acc {
    if acc.Some? then acc.value else EMPTY
  }

  /** Work as the debounce sees it: a look at the clock is a message of nothing. */
  function Seen(profile: Profile, work: Work): Debounce.Message
    requires !work.Direct?
  {
    if work.Message? then AsMessage(profile, work.raw) else Debounce.Message(None, work.now)
  }

  lemma SampledIs(acc: Option<Acc>, profile: Profile, work: Work)
    requires Stamps(profile) && !work.Direct? && (work.Flush? ==> !work.force)
    ensures var (next, emitted) := Debounce.Handle(Held(acc), profile.policy, Seen(profile, work));
      var (after, samples) := Sampled(acc, profile, work);
      Held(after) == next && |samples| == |emitted| <= 1 && (samples != [] ==> samples[0].ts == emitted[0].ts)
  {
    hide Apply;
  }

  /** The last of `times`, if there is one. */
  function LatestOf(emitted: Option<int>, times: seq<int>): Option<int> {
    if times == [] then emitted else Some(times[|times| - 1])
  }

  lemma {:induction false} SamplesRise(acc: Option<Acc>, profile: Profile, works: seq<Work>, from: int, emitted: Option<int>)
    requires Stamps(profile) && InOrder(works, from) && Debounce.Bursting(Held(acc), emitted, from)
    ensures var (after, samples) := AllSampled(acc, profile, works); var times := Times(samples);
      && Rising(times) && (emitted.Some? ==> forall i | 0 <= i < |times| :: emitted.value < times[i])
      && Debounce.Bursting(Held(after), LatestOf(emitted, times), LastTime(works, from))
    decreases |works|
  {
    if works != [] {
      hide Sampled, Debounce.Bursting, Stamps, Rising, Times;
      SampledRises(acc, profile, works[0], from, emitted);
      var (next, samples) := Sampled(acc, profile, works[0]);
      var latest := LatestOf(emitted, Times(samples));
      SamplesRise(next, profile, works[1..], TimeOf(works[0]), latest);
      var later := AllSampled(next, profile, works[1..]).1;
      TimesBoth(samples, later);
      OneThenLater(emitted, samples, Times(later));
    }
  }

  lemma TimesBoth(a: seq<Sample>, b: seq<Sample>)
    ensures Times(a + b) == Times(a) + Times(b)
  {
  }

  /** One piece of work: at most one sample, later than the last. */
  lemma SampledRises(acc: Option<Acc>, profile: Profile, work: Work, from: int, emitted: Option<int>)
    requires Stamps(profile) && !work.Direct? && (work.Flush? ==> !work.force) && from <= TimeOf(work)
    requires Debounce.Bursting(Held(acc), emitted, from)
    ensures var (next, samples) := Sampled(acc, profile, work);
      && |samples| <= 1 && (samples != [] && emitted.Some? ==> emitted.value < samples[0].ts)
      && Debounce.Bursting(Held(next), LatestOf(emitted, Times(samples)), TimeOf(work))
  {
    var m := Seen(profile, work);
    SampledIs(acc, profile, work);
    Debounce.HandleKeepsBursting(Held(acc), profile.policy, emitted, from, m);
    var samples := Sampled(acc, profile, work).1;
    hide Sampled, Debounce.Handle, Debounce.Bursting, Stamps;
    assert samples != [] ==> LatestOf(emitted, Times(samples)) == Some(samples[0].ts);
  }

  /** At most one sample, later than what was emitted, and then later ones. */
  lemma OneThenLater(emitted: Option<int>, samples: seq<Sample>, later: seq<int>)
    requires |samples| <= 1 && Rising(later)
    requires samples != [] && emitted.Some? ==> emitted.value < samples[0].ts
    requires var latest := LatestOf(emitted, Times(samples));
      latest.Some? ==> forall i | 0 <= i < |later| :: latest.value < later[i]
    ensures var times := Times(samples) + later;
      && Rising(times) && (emitted.Some? ==> forall i | 0 <= i < |times| :: emitted.value < times[i])
      && LatestOf(LatestOf(emitted, Times(samples)), later) == LatestOf(emitted, times)
  {
  }

  /** So do those of a tape, and the one that is pending when it ends. */
  lemma TapeSamplesRise(profile: Profile, tape: seq<Raw>, from: int, now: int)
    requires Stamps(profile) && InOrder(Messages(tape), from)
    ensures Rising(Times(AllSampled(None, profile, Messages(tape) + [Flush(now, true)]).1))
  {
    var works, last := Messages(tape), Flush(now, true);
    SamplesRise(None, profile, works, from, None);
    SampledAppend(None, profile, works, last);
    var (mid, first) := AllSampled(None, profile, works);
    var more := Sampled(mid, profile, last).1;
    assert Times(first + more) == Times(first) + Times(more);
    hide AllSampled, Take, Messages, LastTime;
    if more != [] {
      PendingIsLater(mid.value, profile, LatestOf(None, Times(first)), LastTime(works, from), now);
      LaterLast(Times(first), more[0].ts);
      assert Times(more) == [more[0].ts];
    } else {
      assert Times(first) + [] == Times(first);
    }
  }

  lemma LaterLast(times: seq<int>, t: int)
    requires Rising(times) && (LatestOf(None, times).Some? ==> LatestOf(None, times).value < t)
    ensures Rising(times + [t])
  {
  }

  lemma PendingIsLater(acc: Acc, profile: Profile, emitted: Option<int>, last: int, now: int)
    requires Stamps(profile) && Debounce.Bursting(acc, emitted, last) && acc.pendingSince.Some?
    ensures var samples := Popped(acc, profile).1;
      |samples| == 1 && (emitted.Some? ==> emitted.value < samples[0].ts)
  {
  }

  // ----- sessions start at later and later instants --------------------------------------

  /** When the sessions of a ledger started, in order. */
  function Starts(l: Ledger): seq<int> {
    seq(|l.done|, i requires 0 <= i < |l.done| => l.done[i].startedAt)
    + (if l.current.Some? then [l.current.value.startedAt] else [])
  }

  function StartsOf(events: seq<Event>): seq<int> {
    if events == [] then []
    else (if events[0].Start? then [events[0].at] else []) + StartsOf(events[1..])
  }

  lemma StartsOfAppend(a: seq<Event>, b: seq<Event>)
    ensures StartsOf(a + b) == StartsOf(a) + StartsOf(b)
  {
    if a == [] {
      assert a + b == b;
    } else {
      assert (a + b)[1..] == a[1..] + b;
    }
  }

  lemma RecordStarts(l: Ledger, e: Event)
    requires l.ok && Record(l, e).ok
    ensures Starts(Record(l, e)) == Starts(l) + (if e.Start? then [e.at] else [])
  {
  }

  lemma {:induction false} AllStarts(l: Ledger, events: seq<Event>)
    requires RecordAll(l, events).ok
    ensures Starts(RecordAll(l, events)) == Starts(l) + StartsOf(events)
    decreases |events|
  {
    if events != [] {
      OkStays(Record(l, events[0]), events[1..]);
      OkStays(l, events);
      RecordStarts(l, events[0]);
      AllStarts(Record(l, events[0]), events[1..]);
    }
  }

  /** A sample starts no session, or one at its own instant. */
  lemma StepStarts(state: State, s: Sample)
    ensures var starts := StartsOf(Step(state, s, DEFAULT_OPTIONS).1); starts == [] || starts == [s.ts]
  {
    if !Stale(state, s) {
      var (kept, gone) := Gap(state, s, DEFAULT_OPTIONS);
      var motion := MotionOf(s, LastOf(kept), DEFAULT_OPTIONS);
      var (still, during) := During(kept, s, motion, DEFAULT_OPTIONS);
      var (_, begun) := Begin(still, s, motion);
      StartsOfAppend(gone, during);
      StartsOfAppend(gone + during, begun);
      assert StartsOf(gone) == [] && StartsOf(during) == [];
      hide During, Gap;
      BegunStarts(still, s, motion);
    }
  }

  lemma BegunStarts(open: Option<OpenSession>, s: Sample, m: Motion)
    ensures var starts := StartsOf(Begin(open, s, m).1); starts == [] || starts == [s.ts]
  {
    var begun := Begin(open, s, m).1;
    if begun != [] {
      assert begun == [begun[0]] + [begun[1]] && begun[0].Start? && begun[1].Point?;
      StartsOfAppend([begun[0]], [begun[1]]);
      assert StartsOf([begun[0]]) == [begun[0].at] && StartsOf([begun[1]]) == [];
    }
  }

  lemma {:induction false} HistoryRises(l: Ledger, state: State, samples: seq<Sample>)
    requires LedgerSound(state.open, state.lastTs, l, DEFAULT_OPTIONS)
    requires Rising(Times(samples)) && Rising(Starts(l))
    requires forall i, j | 0 <= i < |Starts(l)| && 0 <= j < |samples| :: Starts(l)[i] < samples[j].ts
    ensures Rising(Starts(History(l, state, samples)))
    decreases |samples|
  {
    if samples != [] {
      var s, rest := samples[0], samples[1..];
      var (next, events) := Step(state, s, DEFAULT_OPTIONS);
      SegmenterRuns.StepKeeps(state, l, s, DEFAULT_OPTIONS);
      StepStarts(state, s);
      AllStarts(l, events);
      HistoryOne(l, state, s);
      HistoryAppend(l, state, [s], rest);
      assert samples == [s] + rest;
      hide Step, LedgerSound, History;
      forall i, j | 0 <= i < j < |rest| ensures rest[i].ts < rest[j].ts {
        assert Times(samples)[i + 1] < Times(samples)[j + 1];
      }
      forall j | 0 <= j < |rest| ensures s.ts < rest[j].ts {
        assert Times(samples)[0] < Times(samples)[j + 1];
      }
      HistoryRises(RecordAll(l, events), next, rest);
    }
  }

  // ----- the tape of a run ---------------------------------------------------------------

  lemma InOrderEarlier(works: seq<Work>, early: int, from: int)
    requires InOrder(works, from) && early <= from
    ensures InOrder(works, early)
  {
  }

  /** The messages of a run in order are in order. */
  lemma {:induction false} TapeInOrder(works: seq<Work>, from: int)
    requires InOrder(works, from)
    ensures InOrder(Messages(TapeOf(works)), from)
    decreases |works|
  {
    if works != [] {
      var at := TimeOf(works[0]);
      TapeInOrder(works[1..], at);
      var rest := Messages(TapeOf(works[1..]));
      if works[0].Message? {
        assert Messages(TapeOf(works)) == [works[0]] + rest;
        assert ([works[0]] + rest)[1..] == rest;
      } else {
        assert TapeOf(works) == TapeOf(works[1..]);
        InOrderEarlier(rest, from, at);
      }
    }
  }

  // ----- the row of the running session is found -----------------------------------------

  /** Two sound ledgers of one segmenter state, with the same points, have the same open session. */
  lemma SameCurrent(state: State, a: Ledger, b: Ledger)
    requires LedgerSound(state.open, state.lastTs, a, DEFAULT_OPTIONS)
    requires LedgerSound(state.open, state.lastTs, b, DEFAULT_OPTIONS)
    requires a.current.Some? && b.current.Some? ==> a.current.value.points == b.current.value.points
    ensures a.current == b.current
  {
  }

  /** The nearest of the replayed sessions is the one that is running: no other started when it did. */
  lemma {:induction false} LastIsNearest(sessions: seq<Replayed>, row: OpenRow, n: nat)
    requires n < |sessions|
    requires forall i | 0 <= i < |sessions| - 1 :: sessions[i].startedAt < row.startedAt
    ensures Nearest(sessions, row, n).Some? ==> Distance(sessions[Nearest(sessions, row, n).value], row) > 0
  {
    if n > 0 {
      LastIsNearest(sessions, row, n - 1);
    }
  }

  lemma MatchIsLast(core: Core, run: DryRun, l: Ledger, row: OpenRow)
    requires DryLinked(core, run, l) && l.current.Some? && Rising(Starts(l))
    requires row.kind == l.current.value.kind && row.startedAt == l.current.value.startedAt
    ensures MatchFor(run.sessions, row) == Some(|run.sessions| - 1)
  {
    var last := |run.sessions| - 1;
    forall i | 0 <= i < last ensures run.sessions[i].startedAt < row.startedAt {
      assert Remembers(run.sessions[i], l.done[i]);
      assert Starts(l)[i] < Starts(l)[|l.done|];
    }
    LastIsNearest(run.sessions, row, last);
    assert CouldBe(run.sessions[last], row) && Distance(run.sessions[last], row) == 0;
  }

  // ----- the restart ---------------------------------------------------------------------

  /** The row that is open, as a restart finds it. */
  function OpenIn(core: Core, db: Db): seq<OpenRow> {
    if core.openId.Some? && core.openId.value.Row? && core.openId.value.n in db.rows then
      var n := core.openId.value.n;
      [OpenRow(n, db.rows[n].kind, db.rows[n].startedAt)]
    else []
  }

  /** What the live run leaves, from a store with no open row. */
  lemma LiveEnds(db: Db, profile: Profile, works: seq<Work>, now: int) returns (ids: seq<nat>)
    requires forall n | n in db.rows :: n < db.nextRow && !db.rows[n].status.Open?
    ensures var (live, stLive, _) := ThenFlush(DoAll(COLD, Live(db), profile, works), profile, now);
      stLive.Live? && Faithful(live, stLive.db, db.rows, WholeHistory(profile, works + [Flush(now, true)]), ids, profile.capacityKwh)
  {
    ColdIsFaithful(db, profile.capacityKwh);
    DoAllAppend(COLD, Live(db), profile, works, Flush(now, true));
    ids := StoredSessions(COLD, db, db.rows, BLANK, [], profile, works + [Flush(now, true)]);
    hide DoAll, AllSampled, History, Linked, LedgerSound;
  }

  /** The one open row is really open. */
  lemma OneIsOpen(core: Core, db: Db, current: Option<Session>)
    requires OpenLinked(core, db, current)
    ensures ReallyOpen(db, OpenIn(core, db))
    ensures current.Some? ==>
      && core.openId.value.Row? && OpenIn(core, db) != []
      && OpenIn(core, db)[0] == OpenRow(core.openId.value.n, current.value.kind, current.value.startedAt)
  {
  }

  /** A store reconciled with a replay that ended inside the session of its one open row is the same
      store. */
  lemma NothingMoves(core1: Core, core2: Core, live: Core, db: Db, db2: Db, a: Ledger, l: Ledger, run: DryRun,
                     report: Report, cap: real)
    requires OpenLinked(live, db, a.current) && a.current == l.current
    requires DryLinked(core1, run, l) && Rising(Starts(l))
    requires Reconciled(core1, core2, db, db2, l, run, OpenIn(live, db), report, cap)
    ensures core2.openId == live.openId && db2.rows == db.rows
    ensures OpenIn(live, db) != [] ==> report.resumed.Some? && report.resumed.value.id == OpenIn(live, db)[0].id
  {
    var open := OpenIn(live, db);
    OneIsOpen(live, db, a.current);
    if a.current.Some? {
      var row := open[0];
      MatchIsLast(core1, run, l, row);
      RunningIs(core1, run, l);
      assert row in open && VerdictOf(run, Running(core1), row, cap) == Resumed;
      assert report.resumed.Some? && report.resumed.value.id == row.id;
    }
    SameRows(core2, live, db, db2, l.current, open);
  }

  lemma SameRows(core2: Core, live: Core, db: Db, db2: Db, current: Option<Session>, open: seq<OpenRow>)
    requires OpenLinked(live, db, current) && OpenLinked(core2, db2, current) && open == OpenIn(live, db)
    requires current.Some? ==> core2.openId == live.openId
    requires forall n | n in db.rows && !Mentions(open, n) :: n in db2.rows && db2.rows[n] == db.rows[n]
    requires forall n | n in db2.rows :: n in db.rows || core2.openId == Some(Row(n))
    ensures core2.openId == live.openId && db2.rows == db.rows
  {
    assert core2.openId == live.openId;
    forall n | n in db.rows ensures n in db2.rows && db2.rows[n] == db.rows[n] {
      if Mentions(open, n) {
        assert live.openId == Some(Row(n));
      }
    }
    assert db2.rows.Keys == db.rows.Keys;
  }

  /** A RESTART CARRIES ON. Messages come in order, due samples are flushed between them, and the
      worker stops with its shutdown flush, from a store that had no open row. A worker that then
      resumes on the tape, over the one row that is open if a session was running, has the memory
      of the one that stopped, the same open row, and a store in which no row has changed. */
  lemma RestartCarriesOn(db: Db, profile: Profile, works: seq<Work>, from: int, now: int)
    requires Stamps(profile) && InOrder(works, from)
    requires forall n | n in db.rows :: n < db.nextRow && !db.rows[n].status.Open?
    ensures var (live, stLive, _) := ThenFlush(DoAll(COLD, Live(db), profile, works), profile, now);
      && stLive.Live?
      && var open := OpenIn(live, stLive.db);
         var (core2, st2, report) := Resume(COLD, stLive, profile, TapeOf(works), open, now);
         && (live.openId.Some? <==> open != [])
         && core2.state == live.state && core2.acc == live.acc && core2.openPoints == live.openPoints
         && core2.openId == live.openId
         && st2.Live? && st2.db.rows == stLive.db.rows
         && (open != [] ==> report.resumed.Some? && report.resumed.value.id == open[0].id)
  {
    var tape := TapeOf(works);
    var ids := LiveEnds(db, profile, works, now);
    TapeInOrder(works, from);
    TapeSamplesRise(profile, tape, from, now);
    ResumeKnowsWhatStopped(db, profile, works, from, now);
    var (live, stLive, _) := ThenFlush(DoAll(COLD, Live(db), profile, works), profile, now);
    var a, l := WholeHistory(profile, works + [Flush(now, true)]), TapeHistory(profile, tape, now);
    TapeRises(profile, tape, now);
    hide DoAll, ThenFlush, AllSampled, History, WholeHistory, TapeHistory, ReplayTape, Resume, InOrder, Stamps;
    OneIsOpen(live, stLive.db, a.current);
    ResumeSettles(stLive, profile, tape, OpenIn(live, stLive.db), now);
    var (core1, dry) := ReplayTape(COLD, profile, tape, now);
    var (core2, st2, report) := Resume(COLD, stLive, profile, tape, OpenIn(live, stLive.db), now);
    SameCurrent(live.state, a, l);
    NothingMoves(core1, core2, live, stLive.db, st2.db, a, l, dry.run, report, profile.capacityKwh);
  }

  lemma TapeRises(profile: Profile, tape: seq<Raw>, now: int)
    requires Rising(Times(AllSampled(None, profile, Messages(tape) + [Flush(now, true)]).1))
    ensures Rising(Starts(TapeHistory(profile, tape, now)))
  {
    hide AllSampled, History;
    HistoryRises(BLANK, INITIAL, AllSampled(None, profile, Messages(tape) + [Flush(now, true)]).1);
  }
}
