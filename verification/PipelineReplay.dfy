/** A live run and a replay of its tape come to the same, though only the first looks at the clock. */
module PipelineReplay {
  import opened Collections
  import opened Segmenter
  import opened Accumulator
  import Debounce = AccumulatorRuns
  import opened PipelineModel
  import opened PipelineSessions
  import opened PipelineResume

  // ----- the store does not matter -------------------------------------------------------

  /** The same memory, but for what the rows are called and what was done once a month. */
  predicate Twins(a: Core, b: Core) {
    && a.state == b.state && a.acc == b.acc && a.openPoints == b.openPoints && a.measuredDay == b.measuredDay
    && (a.openId.Some? <==> b.openId.Some?)
  }

  /** The same samples, if both stores keep any. */
  predicate SameSamples(a: Backend, b: Backend) {
    a.Live? && b.Live? ==> a.db.samples == b.db.samples
  }

  predicate SameKind(st: Backend, st2: Backend) {
    (st.Live? <==> st2.Live?) && (st.Live? && st2.Live? ==> st2.db.samples == st.db.samples)
  }

  lemma PutTwins(a: Core, stA: Backend, b: Core, stB: Backend, e: Event, cap: real)
    requires Twins(a, b)
    ensures Twins(Put(a, stA, e, cap).0, Put(b, stB, e, cap).0)
  {
  }

  lemma FinishKeepsSamples(st: Backend, id: RowId, kind: Kind, points: seq<Sample>, cap: real)
    ensures SameKind(st, Finish(st, id, kind, points, cap).0)
  {
    hide Keeps;
  }

  lemma AppendKeepsSamples(st: Backend, id: RowId, s: Sample)
    ensures SameKind(st, AppendPoint(st, id, s))
  {
  }

  lemma PutKeepsSamples(core: Core, st: Backend, e: Event, cap: real)
    ensures SameKind(st, Put(core, st, e, cap).1)
  {
    hide Finish, AppendPoint;
    if e.Point? && core.openId.Some? {
      AppendKeepsSamples(st, core.openId.value, e.sample);
    } else if e.End? && core.openId.Some? {
      var id, points := core.openId.value, WithEnd(core.openPoints, e.sample);
      AppendKeepsSamples(st, id, e.sample);
      FinishKeepsSamples(st, id, e.kind, points, cap);
      FinishKeepsSamples(AppendPoint(st, id, e.sample), id, e.kind, points, cap);
    }
  }

  lemma {:induction false} PutAllTwins(a: Core, stA: Backend, b: Core, stB: Backend, events: seq<Event>, cap: real)
    requires Twins(a, b) && SameSamples(stA, stB)
    ensures Twins(PutAll(a, stA, events, cap).0, PutAll(b, stB, events, cap).0)
    ensures SameSamples(PutAll(a, stA, events, cap).1, PutAll(b, stB, events, cap).1)
    ensures PutAll(a, stA, events, cap).1.Live? <==> stA.Live?
    decreases |events|
  {
    if events != [] {
      hide Put;
      var (a1, stA1) := Put(a, stA, events[0], cap);
      var (b1, stB1) := Put(b, stB, events[0], cap);
      PutTwins(a, stA, b, stB, events[0], cap);
      PutKeepsSamples(a, stA, events[0], cap);
      PutKeepsSamples(b, stB, events[0], cap);
      PutAllTwins(a1, stA1, b1, stB1, events[1..], cap);
    }
  }

  lemma PreludeTwins(a: Core, stA: Backend, b: Core, stB: Backend, profile: Profile, s: Sample)
    requires Twins(a, b) && SameSamples(stA, stB)
    ensures var (a1, stA1) := EnsureMonth(a, stA, profile.monthOf(s.ts));
      var (b1, stB1) := EnsureMonth(b, stB, profile.monthOf(s.ts));
      var (a3, stA3) := MeasurePack(a1, InsertSample(stA1, s), s);
      var (b3, stB3) := MeasurePack(b1, InsertSample(stB1, s), s);
      Twins(a3, b3) && SameSamples(stA3, stB3) && a3.state == a.state && a3.acc == a.acc && (stA3.Live? <==> stA.Live?)
  {
  }

  lemma SampleTwins(a: Core, stA: Backend, b: Core, stB: Backend, profile: Profile, s: Sample)
    requires Twins(a, b) && SameSamples(stA, stB)
    ensures Twins(ApplySample(a, stA, profile, s).0, ApplySample(b, stB, profile, s).0)
    ensures SameSamples(ApplySample(a, stA, profile, s).1, ApplySample(b, stB, profile, s).1)
    ensures ApplySample(a, stA, profile, s).0.acc == a.acc && (ApplySample(a, stA, profile, s).1.Live? <==> stA.Live?)
  {
    var (a1, stA1) := EnsureMonth(a, stA, profile.monthOf(s.ts));
    var (b1, stB1) := EnsureMonth(b, stB, profile.monthOf(s.ts));
    var (a3, stA3) := MeasurePack(a1, InsertSample(stA1, s), s);
    var (b3, stB3) := MeasurePack(b1, InsertSample(stB1, s), s);
    PreludeTwins(a, stA, b, stB, profile, s);
    hide EnsureMonth, InsertSample, MeasurePack, Twins, SameSamples;
    var (state, events) := Step(a3.state, s, DEFAULT_OPTIONS);
    StateTwins(a3, b3, state);
    PutAllTwins(a3.(state := state), stA3, b3.(state := state), stB3, events, profile.capacityKwh);
    PutAllFrame(a3.(state := state), stA3, events, profile.capacityKwh);
  }

  lemma StateTwins(a: Core, b: Core, state: State)
    requires Twins(a, b)
    ensures Twins(a.(state := state), b.(state := state)) && a.state == b.state
  {
  }

  lemma EmitTwins(a: Core, stA: Backend, b: Core, stB: Backend, profile: Profile)
    requires Twins(a, b) && SameSamples(stA, stB) && a.acc.Some?
    ensures Twins(EmitSample(a, stA, profile).0, EmitSample(b, stB, profile).0)
    ensures SameSamples(EmitSample(a, stA, profile).1, EmitSample(b, stB, profile).1)
    ensures EmitSample(a, stA, profile).0.acc == Some(Take(a.acc.value, profile.policy).0)
    ensures EmitSample(a, stA, profile).1.Live? <==> stA.Live?
  {
    hide ApplySample, Take;
    var (acc, taken) := Take(a.acc.value, profile.policy);
    if taken.Some? {
      SampleTwins(a.(acc := Some(acc)), stA, b.(acc := Some(acc)), stB, profile,
                  profile.toSample(taken.value.ts, taken.value.state));
    }
  }

  // ----- in step, or one burst behind ----------------------------------------------------

  /** `b` has yet to emit a burst that is due at any instant from `at` on, and that `a` has emitted. */
  predicate Behind(a: Core, stA: Backend, b: Core, stB: Backend, profile: Profile, at: int) {
    && b.acc.Some? && Due(b.acc.value, at)
    && Twins(a, EmitSample(b, stB, profile).0)
    && SameSamples(stA, EmitSample(b, stB, profile).1)
  }

  predicate InStep(a: Core, stA: Backend, b: Core, stB: Backend, profile: Profile, at: int) {
    (Twins(a, b) && SameSamples(stA, stB)) || Behind(a, stA, b, stB, profile, at)
  }

  /** What is due stays due, and once it has been taken nothing is. */
  lemma DueStays(acc: Acc, policy: Policy, at: int, later: int)
    requires Due(acc, at) && at <= later
    ensures Due(acc, later) && Take(acc, policy).0.pendingSince.None?
  {
  }

  lemma BehindIsDone(a: Core, stA: Backend, b: Core, stB: Backend, profile: Profile, at: int)
    requires Behind(a, stA, b, stB, profile, at)
    ensures a.acc == Some(Take(b.acc.value, profile.policy).0) && a.acc.value.pendingSince.None?
  {
    hide EmitSample;
    EmitTwins(b, stB, b, stB, profile);
    DueStays(b.acc.value, profile.policy, at, at);
  }

  /** The preliminaries of a message, which change nothing that matters here. */
  lemma TapedTwins(core: Core, st: Backend, profile: Profile, raw: Raw)
    ensures var (core1, st1) := EnsureMonth(core, st, profile.monthOf(raw.receivedAt));
      var core2 := core1.(acc := Some(AccOf(core1)));
      && core2 == core.(ensuredMonths := core1.ensuredMonths, acc := Some(AccOf(core)))
      && SameKind(st, InsertRaw(st1, raw))
  {
  }

  lemma TakeInTwins(a: Core, b: Core, profile: Profile, raw: Raw)
    requires Twins(a, b)
    ensures Twins(TakeIn(a, profile, raw).0, TakeIn(b, profile, raw).0)
  {
  }

  /** A message, once the memory it finds is as good as emitted. */
  function Readied(core: Core, st: Backend, profile: Profile, raw: Raw): (Core, Backend) {
    var (core1, st1) := EnsureMonth(core, st, profile.monthOf(raw.receivedAt));
    (core1.(acc := Some(AccOf(core1))), InsertRaw(st1, raw))
  }

  lemma HandleIs(core: Core, st: Backend, profile: Profile, raw: Raw)
    ensures var (core2, st2) := Readied(core, st, profile, raw);
      var (core3, st3, _) := EmitDue(core2, st2, profile, raw.receivedAt);
      var (end, stEnd, _) := HandleRaw(core, st, profile, raw);
      end == TakeIn(core3, profile, raw).0 && SameKind(st3, stEnd)
  {
    hide EmitDue, TakeIn, EnsureMonth, InsertRaw;
  }

  lemma HandleInStep(a: Core, stA: Backend, b: Core, stB: Backend, profile: Profile, at: int, raw: Raw)
    requires InStep(a, stA, b, stB, profile, at) && at <= raw.receivedAt
    ensures Twins(HandleRaw(a, stA, profile, raw).0, HandleRaw(b, stB, profile, raw).0)
    ensures SameSamples(HandleRaw(a, stA, profile, raw).1, HandleRaw(b, stB, profile, raw).1)
  {
    var (a2, stA2) := Readied(a, stA, profile, raw);
    var (b2, stB2) := Readied(b, stB, profile, raw);
    ReadiedInStep(a, stA, b, stB, profile, at, raw);
    HandleIs(a, stA, profile, raw);
    HandleIs(b, stB, profile, raw);
    hide Readied, HandleRaw, EmitDue, TakeIn, Twins, InStep;
    TakeInTwins(EmitDue(a2, stA2, profile, raw.receivedAt).0, EmitDue(b2, stB2, profile, raw.receivedAt).0, profile, raw);
  }

  /** Both have emitted whatever was due by then. */
  lemma ReadiedInStep(a: Core, stA: Backend, b: Core, stB: Backend, profile: Profile, at: int, raw: Raw)
    requires InStep(a, stA, b, stB, profile, at) && at <= raw.receivedAt
    ensures var (a2, stA2) := Readied(a, stA, profile, raw);
      var (b2, stB2) := Readied(b, stB, profile, raw);
      var (a3, stA3, _) := EmitDue(a2, stA2, profile, raw.receivedAt);
      var (b3, stB3, _) := EmitDue(b2, stB2, profile, raw.receivedAt);
      a2.acc.Some? && b2.acc.Some? && Twins(a3, b3) && SameSamples(stA3, stB3)
  {
    var (a2, stA2) := Readied(a, stA, profile, raw);
    var (b2, stB2) := Readied(b, stB, profile, raw);
    TapedTwins(a, stA, profile, raw);
    TapedTwins(b, stB, profile, raw);
    hide EmitSample, EnsureMonth, InsertRaw;
    if Twins(a, b) && SameSamples(stA, stB) {
      EmitTwins(a2, stA2, b2, stB2, profile);
    } else {
      BehindIsDone(a, stA, b, stB, profile, at);
      DueStays(b.acc.value, profile.policy, at, raw.receivedAt);
      EmitTwins(b, stB, b2, stB2, profile);
      EmitTwins(b2, stB2, b2, stB2, profile);
    }
  }

  // ----- over any run --------------------------------------------------------------------

  /** When a piece of work is done. */
  function TimeOf(work: Work): int
    requires !work.Direct?
  {
    if work.Message? then work.raw.receivedAt else work.now
  }

  /** Messages as they arrive, and looks at the clock between them that emit only what is due. */
  ghost predicate InOrder(works: seq<Work>, from: int)
    decreases |works|
  {
    works == [] || (
      && !works[0].Direct? && (works[0].Flush? ==> !works[0].force)
      && from <= TimeOf(works[0]) && InOrder(works[1..], TimeOf(works[0])))
  }

  function LastTime(works: seq<Work>, from: int): int
    decreases |works|
  {
    if works == [] || works[0].Direct? then from else LastTime(works[1..], TimeOf(works[0]))
  }

  function TapeOf(works: seq<Work>): seq<Raw> {
    if works == [] then []
    else (if works[0].Message? then [works[0].raw] else []) + TapeOf(works[1..])
  }

  lemma FlushInStep(a: Core, stA: Backend, b: Core, stB: Backend, profile: Profile, at: int, now: int)
    requires InStep(a, stA, b, stB, profile, at) && at <= now
    ensures var (a2, stA2, _) := FlushDue(a, stA, profile, now, false); InStep(a2, stA2, b, stB, profile, now)
  {
    hide EmitSample;
    if Twins(a, b) && SameSamples(stA, stB) {
      if a.acc.Some? && Due(a.acc.value, now) {
        EmitTwins(a, stA, b, stB, profile);
      }
    } else {
      BehindIsDone(a, stA, b, stB, profile, at);
      DueStays(b.acc.value, profile.policy, at, now);
    }
  }

  lemma {:induction false} RunInStep(a: Core, stA: Backend, b: Core, stB: Backend, profile: Profile,
                                     works: seq<Work>, from: int)
    requires InStep(a, stA, b, stB, profile, from) && InOrder(works, from)
    ensures var (a2, stA2) := DoAll(a, stA, profile, works);
      var (b2, stB2) := HandleTape(b, stB, profile, TapeOf(works));
      InStep(a2, stA2, b2, stB2, profile, LastTime(works, from))
    decreases |works|
  {
    if works != [] {
      hide InStep, HandleRaw, FlushDue;
      var at := TimeOf(works[0]);
      var (a1, stA1, _) := Do(a, stA, profile, works[0]);
      if works[0].Message? {
        var raw := works[0].raw;
        HandleInStep(a, stA, b, stB, profile, from, raw);
        var (b1, stB1, _) := HandleRaw(b, stB, profile, raw);
        TwinsInStep(a1, stA1, b1, stB1, profile, at);
        assert TapeOf(works)[1..] == TapeOf(works[1..]);
        RunInStep(a1, stA1, b1, stB1, profile, works[1..], at);
      } else {
        FlushInStep(a, stA, b, stB, profile, from, at);
        assert TapeOf(works) == TapeOf(works[1..]);
        RunInStep(a1, stA1, b, stB, profile, works[1..], at);
      }
    }
  }

  lemma TwinsInStep(a: Core, stA: Backend, b: Core, stB: Backend, profile: Profile, at: int)
    requires Twins(a, b) && SameSamples(stA, stB)
    ensures InStep(a, stA, b, stB, profile, at)
  {
  }

  lemma LastFlush(a: Core, stA: Backend, b: Core, stB: Backend, profile: Profile, at: int, now: int)
    requires InStep(a, stA, b, stB, profile, at)
    ensures var (a2, stA2, _) := FlushDue(a, stA, profile, now, true);
      var (b2, stB2, _) := FlushDue(b, stB, profile, now, true);
      Twins(a2, b2) && SameSamples(stA2, stB2)
  {
    hide EmitSample;
    if Twins(a, b) && SameSamples(stA, stB) {
      if a.acc.Some? {
        EmitTwins(a, stA, b, stB, profile);
      }
    } else {
      BehindIsDone(a, stA, b, stB, profile, at);
    }
  }

  /** A REPLAY OF THE TAPE IS THE LIVE RUN. Whatever the live pipeline did as messages came and the clock
      was looked at between them, and then at its shutdown flush, replaying the messages alone and
      flushing at the end comes to the same segmenter state, accumulator and points, whatever store
      it is against; and writes the same samples, if that store keeps any. */
  lemma ReplayIsTheLiveRun(db: Db, st: Backend, profile: Profile, works: seq<Work>, from: int, now: int)
    requires InOrder(works, from) && (st.Live? ==> st.db.samples == db.samples)
    ensures var (live, stLive, _) := ThenFlush(DoAll(COLD, Live(db), profile, works), profile, now);
      var (replay, stReplay, _) := ThenFlush(HandleTape(COLD, st, profile, TapeOf(works)), profile, now);
      && Twins(live, replay) && SameSamples(stLive, stReplay)
  {
    TwinsInStep(COLD, Live(db), COLD, st, profile, from);
    RunInStep(COLD, Live(db), COLD, st, profile, works, from);
    var (a, stA) := DoAll(COLD, Live(db), profile, works);
    var (b, stB) := HandleTape(COLD, st, profile, TapeOf(works));
    LastFlush(a, stA, b, stB, profile, LastTime(works, from), now);
  }

  function ThenFlush(ran: (Core, Backend), profile: Profile, now: int): (Core, Backend, Counts) {
    FlushDue(ran.0, ran.1, profile, now, true)
  }

  /** So a pipeline that resumes knows what the one that stopped knew. */
  lemma ResumeKnowsWhatStopped(db: Db, profile: Profile, works: seq<Work>, from: int, now: int)
    requires InOrder(works, from)
    ensures var (live, _, _) := ThenFlush(DoAll(COLD, Live(db), profile, works), profile, now);
      var (replay, _) := ReplayTape(COLD, profile, TapeOf(works), now);
      && live.state == replay.state && live.acc == replay.acc && live.openPoints == replay.openPoints
      && (live.openId.Some? <==> replay.openId.Some?)
  {
    TwinsInStep(COLD, Live(db), COLD, Dry(BLANK_RUN), profile, from);
    RunInStep(COLD, Live(db), COLD, Dry(BLANK_RUN), profile, works, from);
    var (a, stA) := DoAll(COLD, Live(db), profile, works);
    var (b, stB) := HandleTape(COLD, Dry(BLANK_RUN), profile, TapeOf(works));
    TapeStaysDry(COLD, Dry(BLANK_RUN), profile, TapeOf(works));
    DryInStep(a, stA, b, stB, FinalFlush(stB), profile, LastTime(works, from));
    LastFlush(a, stA, b, FinalFlush(stB), profile, LastTime(works, from), now);
  }

  lemma DryInStep(a: Core, stA: Backend, b: Core, stB: Backend, stB2: Backend, profile: Profile, at: int)
    requires InStep(a, stA, b, stB, profile, at) && stB.Dry? && stB2.Dry?
    ensures InStep(a, stA, b, stB2, profile, at)
  {
    hide EmitSample;
    if !(Twins(a, b) && SameSamples(stA, stB)) {
      EmitTwins(b, stB, b, stB2, profile);
      EmitStaysDry(b, stB2, profile);
    }
  }

  // ----- the times of a replay's samples -------------------------------------------------

  function AsMessage(profile: Profile, raw: Raw): Debounce.Message {
    Debounce.Message(profile.decode(raw), raw.receivedAt)
  }

  /** The times of the samples that the tape's messages have emitted. */
  function SampleTimes(core: Core, st: Backend, profile: Profile, tape: seq<Raw>): seq<int>
    decreases |tape|
  {
    if tape == [] then []
    else
      var (core1, st1, counts) := HandleRaw(core, st, profile, tape[0]);
      (if counts.lastSampleTs.Some? then [counts.lastSampleTs.value] else [])
      + SampleTimes(core1, st1, profile, tape[1..])
  }

  /** `handle` does to the accumulator what the debounce says, and emits at its times. */
  lemma HandleDebounces(core: Core, st: Backend, profile: Profile, raw: Raw)
    requires Stamps(profile)
    ensures var (next, emitted) := Debounce.Handle(AccOf(core), profile.policy, AsMessage(profile, raw));
      var (core1, _, counts) := HandleRaw(core, st, profile, raw);
      && AccOf(core1) == next
      && |emitted| <= 1
      && counts.lastSampleTs == if emitted == [] then None else Some(emitted[0].ts)
  {
    var (core2, st2) := Readied(core, st, profile, raw);
    TapedTwins(core, st, profile, raw);
    HandleIs(core, st, profile, raw);
    if Due(AccOf(core), raw.receivedAt) {
      EmitTwins(core2, st2, core2, st2, profile);
      EmittedAt(core2, st2, profile);
    }
    hide EmitSample, EnsureMonth, InsertRaw;
  }

  lemma EmittedAt(core: Core, st: Backend, profile: Profile)
    requires Stamps(profile) && core.acc.Some? && core.acc.value.newestAt.Some?
    ensures EmitSample(core, st, profile).2.lastSampleTs == core.acc.value.newestAt
  {
  }

  lemma {:induction false} TapeDebounces(core: Core, st: Backend, profile: Profile, tape: seq<Raw>,
                                         messages: seq<Debounce.Message>)
    requires Stamps(profile) && |messages| == |tape|
    requires forall i | 0 <= i < |tape| :: messages[i] == AsMessage(profile, tape[i])
    ensures var (_, all) := Debounce.HandleAll(AccOf(core), profile.policy, messages);
      var times := SampleTimes(core, st, profile, tape);
      |times| == |all| && forall i | 0 <= i < |all| :: times[i] == all[i].ts
    decreases |tape|
  {
    if tape != [] {
      hide HandleRaw, Debounce.Handle;
      HandleDebounces(core, st, profile, tape[0]);
      var (core1, st1, counts) := HandleRaw(core, st, profile, tape[0]);
      TapeDebounces(core1, st1, profile, tape[1..], messages[1..]);
      var (next, emitted) := Debounce.Handle(AccOf(core), profile.policy, messages[0]);
      assert AccOf(core1) == next;
      assert Debounce.HandleAll(AccOf(core), profile.policy, messages).1
        == emitted + Debounce.HandleAll(next, profile.policy, messages[1..]).1;
    }
  }

  /** SAMPLE TIMES STRICTLY INCREASE over a tape whose messages are in order. */
  lemma SampleTimesIncrease(st: Backend, profile: Profile, tape: seq<Raw>)
    requires Stamps(profile)
    requires forall i, j | 0 <= i < j < |tape| :: tape[i].receivedAt <= tape[j].receivedAt
    ensures var times := SampleTimes(COLD, st, profile, tape);
      forall i, j | 0 <= i < j < |times| :: times[i] < times[j]
  {
    var messages := seq(|tape|, i requires 0 <= i < |tape| => AsMessage(profile, tape[i]));
    TapeDebounces(COLD, st, profile, tape, messages);
    Debounce.BurstsAreShort(profile.policy, messages);
  }
}
