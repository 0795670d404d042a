/** The `Pipeline` class of apps/ingest/src/pipeline.ts. Any call to the store may throw, and so may
    the commit: what each method promises is what it did if it returned, and that a unit of work
    that threw left no trace, in memory or in the store. */
module Pipelines {
  import opened Collections
  import opened Segmenter
  import opened Metrics
  import opened Accumulator
  import opened FieldAccumulators
  import opened PipelineMemory
  import opened PipelineModel
  import Resuming = PipelineResume
  import Sessions = PipelineSessions
  import Spec = PipelineModel

  datatype Result<+T> = Ok(value: T) | Threw {
    predicate IsFailure() { Threw? }

    function PropagateFailure<U>(): Result<U>
      requires Threw?
    {
      Result.Threw
    }

    function Extract(): T
      requires Ok?
    {
      value
    }
  }

  /** A store and its transaction. `breaks(n)` says whether the `n`th call to it throws. */
  class Store {
    const breaks: nat -> bool
    var st: Backend
    var begun: Backend
    var calls: nat

    constructor (st: Backend, breaks: nat -> bool)
      ensures this.st == st && this.breaks == breaks
    {
      this.st, this.breaks, begun, calls := st, breaks, st, 0;
    }

    ghost predicate Reliable() {
      forall n :: !breaks(n)
    }

    method Begin()
      modifies this`begun
      ensures begun == st
    {
      begun := st;
    }

    method Commit() returns (r: Result<()>)
      modifies this`st, this`calls
      ensures st == old(st)
      ensures Reliable() ==> r.Ok?
    {
      r := Write(st);
    }

    method Rollback()
      modifies this`st
      ensures st == begun
    {
      st := begun;
    }

    /** One statement: it leaves the store as `next`, or throws. */
    method Write(next: Backend) returns (r: Result<()>)
      modifies this`st, this`calls
      ensures r.Ok? ==> st == next
      ensures r.Threw? ==> st == old(st)
      ensures Reliable() ==> r.Ok?
    {
      if breaks(calls) {
        r := Threw;
      } else {
        r := Ok(());
        st := next;
      }
      calls := calls + 1;
    }

    method Open(kind: Kind, at: int) returns (r: Result<RowId>)
      modifies this`st, this`calls
      ensures r.Ok? ==> (st, r.value) == OpenRow(old(st), kind, at)
      ensures Reliable() ==> r.Ok?
    {
      var (next, id) := OpenRow(st, kind, at);
      var _ :- Write(next);
      return Ok(id);
    }

    /** `matchFor`: of the replayed sessions the row could stand for, the first nearest. */
    method MatchFor(row: Resuming.OpenRow) returns (best: Option<nat>)
      requires st.Dry?
      ensures best == Resuming.MatchFor(st.run.sessions, row)
    {
      best := None;
      for i := 0 to |st.run.sessions|
        invariant best == Resuming.Nearest(st.run.sessions, row, i)
      {
        var s := st.run.sessions[i];
        if Resuming.CouldBe(s, row)
           && (best.None? || Resuming.Distance(s, row) < Resuming.Distance(st.run.sessions[best.value], row)) {
          best := Some(i);
        }
      }
    }
  }

  /** A copy of the memory, to go back to if the transaction is undone. */
  datatype Snapshot = Snapshot(
    state: State,
    openId: Option<RowId>,
    openPoints: Points,
    ensuredMonths: Months,
    acc: FieldAccumulator?,
    measuredDays: Days)

  ghost function PartsOf(acc: FieldAccumulator?): set<object> {
    if acc == null then {} else acc.Parts()
  }

  /** What a unit of work does inside its transaction: a flush is begun only when it has something to emit. */
  function Inside(core: Core, st: Backend, profile: Profile, work: Sessions.Work): (Core, Backend, Counts)
    requires work.Flush? ==> core.acc.Some?
  {
    if work.Flush? then EmitSample(core, st, profile) else Sessions.Do(core, st, profile, work)
  }

  /** The objects of a snapshot. */
  ghost function Held(s: Snapshot): set<object> {
    {s.openPoints, s.ensuredMonths, s.measuredDays} + PartsOf(s.acc)
  }

  /** What a snapshot remembers. */
  function Recall(s: Snapshot): Core
    reads Held(s)
  {
    Core(s.state, s.openId, s.openPoints.items, s.ensuredMonths.keys, if s.acc == null then None else Some(s.acc.View()),
         s.measuredDays.last)
  }

  class Pipeline {
    const profile: Profile
    var store: Store
    var state: State
    var openId: Option<RowId>
    var openPoints: Points
    var ensuredMonths: Months
    var acc: FieldAccumulator?
    var measuredDays: Days

    constructor (profile: Profile, store: Store)
      ensures this.profile == profile && this.store == store && Valid() && View() == COLD
      ensures acc == null && fresh(openPoints) && fresh(ensuredMonths) && fresh(measuredDays)
    {
      this.profile, this.store := profile, store;
      state, openId, acc := INITIAL, None, null;
      openPoints := new Points([]);
      ensuredMonths := new Months({});
      measuredDays := new Days(None);
    }

    ghost predicate Valid()
      reads this
    {
      acc != null ==> acc.policy == profile.policy
    }

    /** The objects that hold the memory. */
    ghost function Memory(): set<object>
      reads this
    {
      {openPoints, ensuredMonths, measuredDays} + PartsOf(acc)
    }

    function View(): Core
      reads this, Memory()
    {
      Core(state, openId, openPoints.items, ensuredMonths.keys, if acc == null then None else Some(acc.View()),
           measuredDays.last)
    }

    /** The list of points is the same object, or one made since. */
    twostate predicate PointsKept()
      reads this
    {
      openPoints == old(openPoints) || fresh(openPoints)
    }

    // ----- one unit of work ----------------------------------------------------------------

    method EnsureMonth(month: int) returns (r: Result<()>)
      modifies ensuredMonths, store`st, store`calls
      ensures r.Ok? ==> (View(), store.st) == Spec.EnsureMonth(old(View()), old(store.st), month)
      ensures store.Reliable() ==> r.Ok?
    {
      if month in ensuredMonths.keys {
        return Ok(());
      }
      var _ :- store.Write(EnsurePartitions(store.st, month));
      ensuredMonths.Add(month);
      return Ok(());
    }

    method MeasurePack(s: Sample) returns (r: Result<()>)
      modifies measuredDays, store`st, store`calls
      ensures r.Ok? ==> (View(), store.st) == Spec.MeasurePack(old(View()), old(store.st), s)
      ensures store.Reliable() ==> r.Ok?
    {
      if s.nominalFullPackEnergyKwh.None? || !(s.nominalFullPackEnergyKwh.value > 0.0) {
        return Ok(());
      }
      var day := s.ts / DAY_MS;
      if measuredDays.last == Some(day) {
        return Ok(());
      }
      var _ :- store.Write(RecordCapacity(store.st, day));
      measuredDays.Put(day);
      return Ok(());
    }

    method Finish(id: RowId, kind: Kind, points: seq<Sample>) returns (r: Result<bool>)
      modifies store`st, store`calls
      ensures r.Ok? ==> (store.st, r.value) == Spec.Finish(old(store.st), id, kind, points, profile.capacityKwh)
      ensures store.Reliable() ==> r.Ok?
    {
      var summary := Summarise(kind, points, profile.capacityKwh);
      if kind == Drive && WentNowhere(summary, points) {
        var _ :- store.Write(DiscardRow(store.st, id));
        return Ok(false);
      }
      var _ :- store.Write(CloseRow(store.st, id, summary));
      if kind == Charge {
        var _ :- store.Write(PriceRow(store.st, id));
      }
      return Ok(true);
    }

    /** The end of a session: the sample it ends on joins the points if it is later. */
    method EndSession(id: RowId, e: Event) returns (r: Result<()>)
      requires e.End? && openId == Some(id)
      modifies this`openId, this`openPoints, openPoints, store`st, store`calls
      ensures PointsKept()
      ensures r.Ok? ==> (View(), store.st) == Put(old(View()), old(store.st), e, profile.capacityKwh)
      ensures store.Reliable() ==> r.Ok?
    {
      hide Spec.Finish, PartsOf;
      if openPoints.items == [] || e.sample.ts > openPoints.items[|openPoints.items| - 1].ts {
        openPoints.Push(e.sample);
        var _ :- store.Write(AppendPoint(store.st, id, e.sample));
      }
      var _ :- Finish(id, e.kind, openPoints.items);
      openId := None;
      openPoints := new Points([]);
      return Ok(());
    }

    /** One event of the segmenter. */
    method OnEvent(e: Event) returns (r: Result<()>)
      modifies this`openId, this`openPoints, openPoints, store`st, store`calls
      ensures PointsKept()
      ensures r.Ok? ==> (View(), store.st) == Put(old(View()), old(store.st), e, profile.capacityKwh)
      ensures store.Reliable() ==> r.Ok?
    {
      if e.Start? {
        var id :- store.Open(e.kind, e.at);
        openId := Some(id);
        openPoints := new Points([]);
      } else if e.Point? && openId.Some? {
        openPoints.Push(e.sample);
        var _ :- store.Write(AppendPoint(store.st, openId.value, e.sample));
      } else if e.End? && openId.Some? {
        r := EndSession(openId.value, e);
        return;
      }
      return Ok(());
    }

    /** The events of a step, in order; how many sessions were opened and closed. */
    method OnEvents(events: seq<Event>) returns (r: Result<(nat, nat)>)
      modifies this`openId, this`openPoints, openPoints, store`st, store`calls
      ensures PointsKept()
      ensures r.Ok? ==> (View(), store.st) == PutAll(old(View()), old(store.st), events, profile.capacityKwh)
      ensures r.Ok? ==> r.value == (Opens(events), Closes(old(View()), old(store.st), events, profile.capacityKwh))
      ensures store.Reliable() ==> r.Ok?
    {
      var began, ended := 0, 0;
      assert events[0..] == events;
      for i := 0 to |events|
        invariant PointsKept()
        invariant PutAll(View(), store.st, events[i..], profile.capacityKwh)
          == PutAll(old(View()), old(store.st), events, profile.capacityKwh)
        invariant began + Opens(events[i..]) == Opens(events)
        invariant ended + Closes(View(), store.st, events[i..], profile.capacityKwh)
          == Closes(old(View()), old(store.st), events, profile.capacityKwh)
      {
        assert events[i..][1..] == events[i + 1..];
        var e := events[i];
        began := began + if e.Start? then 1 else 0;
        ended := ended + if e.End? && openId.Some? then 1 else 0;
        var _ :- OnEvent(e);
      }
      return Ok((began, ended));
    }

    method ApplySample(s: Sample) returns (r: Result<Counts>)
      modifies this`state, this`openId, this`openPoints, openPoints, ensuredMonths, measuredDays, store`st, store`calls
      ensures PointsKept()
      ensures r.Ok? ==> (View(), store.st, r.value) == Spec.ApplySample(old(View()), old(store.st), profile, s)
      ensures store.Reliable() ==> r.Ok?
    {
      var _ :- EnsureMonth(profile.monthOf(s.ts));
      var _ :- store.Write(InsertSample(store.st, s));
      var _ :- MeasurePack(s);
      var next, events := Advance(state, s, DEFAULT_OPTIONS);
      state := next;
      var n :- OnEvents(events);
      return Ok(NOTHING.(samples := 1, opens := n.0, closes := n.1, lastSampleTs := Some(s.ts)));
    }

    /** Take what is pending and apply it. */
    method Emit() returns (r: Result<Counts>)
      requires Valid() && acc != null
      modifies this`state, this`openId, this`openPoints, Memory(), store`st, store`calls
      ensures PointsKept()
      ensures r.Ok? ==> (View(), store.st, r.value) == EmitSample(old(View()), old(store.st), profile)
      ensures store.Reliable() ==> r.Ok?
    {
      var taken := acc.Take();
      if taken.None? {
        return Ok(NOTHING);
      }
      r := ApplySample(profile.toSample(taken.value.ts, taken.value.state));
    }

    method EmitDue(at: int) returns (r: Result<Counts>)
      requires Valid() && acc != null
      modifies this`state, this`openId, this`openPoints, Memory(), store`st, store`calls
      ensures PointsKept()
      ensures r.Ok? ==> (View(), store.st, r.value) == Spec.EmitDue(old(View()), old(store.st), profile, at)
      ensures store.Reliable() ==> r.Ok?
    {
      var due := acc.Due(at);
      if !due {
        return Ok(NOTHING);
      }
      r := Emit();
    }

    method TakeIn(raw: Raw) returns (landed: bool)
      requires Valid() && acc != null
      modifies acc.Parts()
      ensures (View(), landed) == Spec.TakeIn(old(View()), profile, raw)
    {
      var decoded := profile.decode(raw);
      landed := false;
      if decoded.Some? {
        landed := acc.Apply(decoded.value, raw.receivedAt);
      }
    }

    /** The vehicle's accumulator, made when its first message comes. */
    method NeedAccumulator()
      requires Valid()
      modifies this`acc
      ensures Valid() && acc != null && (acc == old(acc) || fresh(acc.Parts()))
      ensures View() == old(View()).(acc := Some(AccOf(old(View()))))
    {
      if acc == null {
        acc := new FieldAccumulator(profile.policy);
      }
    }

    /** The message is taped. */
    method Tape(raw: Raw) returns (r: Result<()>)
      requires Valid()
      modifies this`acc, ensuredMonths, store`st, store`calls
      ensures Valid() && (acc == old(acc) || fresh(PartsOf(acc)))
      ensures r.Ok? ==> acc != null
      ensures r.Ok? ==>
        && (var (core, st) := Spec.EnsureMonth(old(View()), old(store.st), profile.monthOf(raw.receivedAt));
            View() == core.(acc := Some(AccOf(core))) && store.st == InsertRaw(st, raw))
      ensures store.Reliable() ==> r.Ok?
    {
      hide Spec.EnsureMonth;
      var _ :- EnsureMonth(profile.monthOf(raw.receivedAt));
      var _ :- store.Write(InsertRaw(store.st, raw));
      NeedAccumulator();
      return Ok(());
    }

    /** What is due is emitted, and then the message is folded in. */
    method EmitAndTakeIn(raw: Raw) returns (r: Result<(Counts, bool)>)
      requires Valid() && acc != null
      modifies this`state, this`openId, this`openPoints, Memory(), store`st, store`calls
      ensures PointsKept()
      ensures r.Ok? ==>
        && (var (core, st, counts) := Spec.EmitDue(old(View()), old(store.st), profile, raw.receivedAt);
            store.st == st && r.value.0 == counts && (View(), r.value.1) == Spec.TakeIn(core, profile, raw))
      ensures store.Reliable() ==> r.Ok?
    {
      hide Spec.EmitDue, Spec.TakeIn;
      var counts :- EmitDue(raw.receivedAt);
      var landed := TakeIn(raw);
      return Ok((counts, landed));
    }

    /** `handle`, inside its transaction. */
    method HandleInside(raw: Raw) returns (r: Result<Counts>)
      requires Valid()
      modifies this, Memory(), store`st, store`calls
      ensures Valid() && store == old(store) && fresh(Memory() - old(Memory()))
      ensures r.Ok? ==> (View(), store.st, r.value) == HandleRaw(old(View()), old(store.st), profile, raw)
      ensures store.Reliable() ==> r.Ok?
    {
      hide Spec.EnsureMonth, Spec.EmitDue, Spec.TakeIn;
      var _ :- Tape(raw);
      var taken :- EmitAndTakeIn(raw);
      var _ :- store.Write(AdvanceCursor(store.st, raw.receivedAt));
      var (counts, landed) := taken;
      return Ok(counts.(applied := if landed then 1 else 0, unmapped := if landed then 0 else 1,
                        untimed := Untimed(profile, raw)));
    }

    // ----- transactions --------------------------------------------------------------------

    /** A copy that shares nothing that can change: every list, set, map and accumulator is copied. */
    method TakeSnapshot() returns (snapshot: Snapshot)
      requires Valid()
      ensures fresh(Held(snapshot)) && (snapshot.acc != null ==> snapshot.acc.policy == profile.policy)
      ensures Recall(snapshot) == View()
    {
      var copy: FieldAccumulator? := null;
      if acc != null {
        copy := acc.Clone();
      }
      var points := openPoints.Copy();
      var months := ensuredMonths.Copy();
      var days := measuredDays.Copy();
      return Snapshot(state, openId, points, months, copy, days);
    }

    method Restore(snapshot: Snapshot)
      modifies this
      ensures store == old(store)
      ensures Snapshot(state, openId, openPoints, ensuredMonths, acc, measuredDays) == snapshot
    {
      state, openId, openPoints := snapshot.state, snapshot.openId, snapshot.openPoints;
      ensuredMonths, acc, measuredDays := snapshot.ensuredMonths, snapshot.acc, snapshot.measuredDays;
    }

    /** Store and memory as they were when the transaction began. */
    method Undo(snapshot: Snapshot)
      modifies this, store`st
      ensures store == old(store) && store.st == store.begun
      ensures Snapshot(state, openId, openPoints, ensuredMonths, acc, measuredDays) == snapshot
      ensures View() == old(Recall(snapshot))
    {
      store.Rollback();
      Restore(snapshot);
    }

    /** The transaction is committed, or undone if its work threw or the commit does. */
    method Conclude<T>(snapshot: Snapshot, done: Result<T>) returns (r: Result<T>)
      modifies this, store
      ensures store == old(store) && (store.Reliable() && done.Ok? ==> r.Ok?)
      ensures r.Ok? ==> r == done && View() == old(View()) && store.st == old(store.st)
      ensures r.Ok? ==> Memory() == old(Memory()) && acc == old(acc)
      ensures r.Threw? ==> Memory() == Held(snapshot) && acc == snapshot.acc
      ensures r.Threw? ==> View() == old(Recall(snapshot)) && store.st == old(store.begun)
    {
      r := done;
      if r.Ok? {
        var committed := store.Commit();
        if committed.Threw? {
          r := Threw;
        }
      }
      if r.Threw? {
        Undo(snapshot);
      }
    }

    method Run(work: Sessions.Work) returns (r: Result<Counts>)
      requires Valid() && (work.Flush? ==> acc != null)
      modifies this, Memory(), store`st, store`calls
      ensures Valid() && store == old(store) && fresh(Memory() - old(Memory()))
      ensures r.Ok? ==> (View(), store.st, r.value) == Inside(old(View()), old(store.st), profile, work)
      ensures store.Reliable() ==> r.Ok?
    {
      match work
      case Message(raw) => r := HandleInside(raw);
      case Flush(_, _) => r := Emit();
      case Direct(sample) => r := ApplySample(sample);
    }

    /** The work on top of a snapshot that shares nothing with the memory. */
    method RunOver(snapshot: Snapshot, work: Sessions.Work) returns (r: Result<Counts>)
      requires Valid() && (work.Flush? ==> acc != null)
      requires Held(snapshot) !! Memory() + {this, store}
      requires snapshot.acc != null ==> snapshot.acc.policy == profile.policy
      modifies this, Memory(), store
      ensures Valid() && store == old(store)
      ensures r.Ok? ==> fresh(Memory() - old(Memory()))
      ensures r.Ok? ==> (View(), store.st, r.value) == Inside(old(View()), old(store.st), profile, work)
      ensures r.Threw? ==> Memory() == Held(snapshot) && View() == old(Recall(snapshot)) && store.st == old(store.begun)
      ensures store.Reliable() ==> r.Ok?
    {
      hide Inside, View;
      r := Run(work);
      r := Conclude(snapshot, r);
    }

    /** `attempt`: the work is all done, or memory and store are as they were. */
    method Attempt(work: Sessions.Work) returns (r: Result<Counts>)
      requires Valid() && (work.Flush? ==> acc != null)
      modifies this, Memory(), store
      ensures Valid() && store == old(store) && fresh(Memory() - old(Memory()))
      ensures r.Ok? ==> (View(), store.st, r.value) == Inside(old(View()), old(store.st), profile, work)
      ensures r.Threw? ==> View() == old(View()) && store.st == old(store.st)
      ensures store.Reliable() ==> r.Ok?
    {
      hide Inside;
      var snapshot := TakeSnapshot();
      store.Begin();
      r := RunOver(snapshot, work);
    }

    /** `handle`. */
    method Handle(raw: Raw) returns (r: Result<Counts>)
      requires Valid()
      modifies this, Memory(), store
      ensures Valid() && store == old(store) && fresh(Memory() - old(Memory()))
      ensures r.Ok? ==> (View(), store.st, r.value) == HandleRaw(old(View()), old(store.st), profile, raw)
      ensures r.Threw? ==> View() == old(View()) && store.st == old(store.st)
      ensures store.Reliable() ==> r.Ok?
    {
      r := Attempt(Sessions.Message(raw));
    }

    /** `flush`: the sample the debounce has ready, or any pending one when forced. */
    method Flush(now: int, force: bool) returns (r: Result<Counts>)
      requires Valid()
      modifies this, Memory(), store
      ensures Valid() && store == old(store) && fresh(Memory() - old(Memory()))
      ensures r.Ok? ==> (View(), store.st, r.value) == FlushDue(old(View()), old(store.st), profile, now, force)
      ensures r.Threw? ==> View() == old(View()) && store.st == old(store.st)
      ensures store.Reliable() ==> r.Ok?
    {
      if acc == null {
        return Ok(NOTHING);
      }
      var due := acc.Due(now);
      if !(if force then acc.pendingSince.Some? else due) {
        return Ok(NOTHING);
      }
      r := Attempt(Sessions.Flush(now, force));
    }

    /** `handleSample`. */
    method HandleSample(s: Sample) returns (r: Result<Counts>)
      requires Valid()
      modifies this, Memory(), store
      ensures Valid() && store == old(store) && fresh(Memory() - old(Memory()))
      ensures r.Ok? ==> (View(), store.st, r.value) == Spec.ApplySample(old(View()), old(store.st), profile, s)
      ensures r.Threw? ==> View() == old(View()) && store.st == old(store.st)
      ensures store.Reliable() ==> r.Ok?
    {
      r := Attempt(Sessions.Direct(s));
    }

    // ----- runs of work that may fail ------------------------------------------------------

    /** One piece of work: done, or no trace of it. */
    method Try(work: Sessions.Work) returns (taken: bool)
      requires Valid()
      modifies this, Memory(), store
      ensures Valid() && store == old(store) && fresh(Memory() - old(Memory()))
      ensures var done := Sessions.Do(old(View()), old(store.st), profile, work);
        (View(), store.st) == if taken then (done.0, done.1) else (old(View()), old(store.st))
      ensures store.Reliable() ==> taken
    {
      hide HandleRaw, FlushDue, Spec.ApplySample;
      var r: Result<Counts>;
      match work {
        case Message(raw) => r := Handle(raw);
        case Flush(now, force) => r := Flush(now, force);
        case Direct(sample) => r := HandleSample(sample);
      }
      taken := r.Ok?;
    }

    /** FAILED WORK IS INVISIBLE. Whatever throws, and wherever, memory and store come to what the work
        that was taken comes to, in order, from where they were. */
    method Work(works: seq<Sessions.Work>) returns (taken: seq<bool>)
      requires Valid()
      modifies this, Memory(), store
      ensures Valid() && store == old(store) && fresh(Memory() - old(Memory()))
      ensures |taken| == |works|
      ensures (View(), store.st) == Sessions.DoAll(old(View()), old(store.st), profile, Sessions.Taken(works, taken))
      ensures store.Reliable() ==> forall i | 0 <= i < |taken| :: taken[i]
    {
      hide Sessions.Do, View;
      taken := [];
      for i := 0 to |works|
        invariant Valid() && store == old(store) && fresh(Memory() - old(Memory()))
        invariant |taken| == i
        invariant (View(), store.st)
          == Sessions.DoAll(old(View()), old(store.st), profile, Sessions.Taken(works[..i], taken))
        invariant store.Reliable() ==> forall j | 0 <= j < i :: taken[j]
      {
        ghost var before := Sessions.Taken(works[..i], taken);
        Sessions.DoAllAppend(old(View()), old(store.st), profile, before, works[i]);
        var ok := Try(works[i]);
        Sessions.TakenNext(works, taken, ok);
        taken := taken + [ok];
        assert before + [] == before;
      }
      assert works[..|works|] == works;
    }

    /** A message sent again until it is taken, or given up on, is taken once or not at all. */
    method Deliver(work: Sessions.Work, tries: nat) returns (taken: bool)
      requires Valid()
      modifies this, Memory(), store
      ensures Valid() && store == old(store) && fresh(Memory() - old(Memory()))
      ensures var done := Sessions.Do(old(View()), old(store.st), profile, work);
        (View(), store.st) == if taken then (done.0, done.1) else (old(View()), old(store.st))
      ensures store.Reliable() && tries > 0 ==> taken
    {
      hide Sessions.Do, View;
      taken := false;
      var left := tries;
      while left > 0 && !taken
        invariant Valid() && store == old(store) && fresh(Memory() - old(Memory()))
        invariant var done := Sessions.Do(old(View()), old(store.st), profile, work);
          (View(), store.st) == if taken then (done.0, done.1) else (old(View()), old(store.st))
        invariant store.Reliable() ==> taken || left == tries
      {
        taken := Try(work);
        left := left - 1;
      }
    }

    /** So the rows make sense whatever throws. */
    static method Serve(profile: Profile, store: Store, works: seq<Sessions.Work>) returns (p: Pipeline, taken: seq<bool>)
      requires store.st.Live?
      requires forall n | n in store.st.db.rows :: n < store.st.db.nextRow && !store.st.db.rows[n].status.Open?
      modifies store
      ensures fresh(p) && p.store == store && |taken| == |works|
      ensures Sessions.RowsSound(p.View(), store.st, old(store.st.db.rows))
      ensures Sessions.RowsAreOf(p.View(), store.st, old(store.st.db.rows),
                                 Sessions.WholeHistory(profile, Sessions.Taken(works, taken)), profile.capacityKwh)
      ensures (p.View(), store.st) == Sessions.DoAll(COLD, old(store.st), profile, Sessions.Taken(works, taken))
    {
      hide Sessions.DoAll, Sessions.RowsSound, Sessions.RowsAreOf, Sessions.WholeHistory;
      p := new Pipeline(profile, store);
      taken := p.Work(works);
      Sessions.RowsMakeSense(old(store.st.db), profile, Sessions.Taken(works, taken));
    }

    // ----- resume --------------------------------------------------------------------------

    method WriteFlushed(samples: seq<Sample>) returns (r: Result<()>)
      modifies ensuredMonths, store`st, store`calls
      ensures r.Ok? ==> (View(), store.st) == Resuming.WriteFlushed(old(View()), old(store.st), profile, samples)
    {
      assert samples[0..] == samples;
      for i := 0 to |samples|
        invariant Resuming.WriteFlushed(View(), store.st, profile, samples[i..])
          == Resuming.WriteFlushed(old(View()), old(store.st), profile, samples)
      {
        assert samples[i..][1..] == samples[i + 1..];
        var _ :- EnsureMonth(profile.monthOf(samples[i].ts));
        var _ :- store.Write(InsertSample(store.st, samples[i]));
      }
      return Ok(());
    }

    /** What becomes of one row that was open. */
    method SettleRow(dry: Store, running: Option<nat>, row: Resuming.OpenRow) returns (r: Result<Resuming.Outcome>)
      requires dry != store && dry.st.Dry?
      modifies store`st, store`calls
      ensures r.Ok? ==> r.value == Resuming.VerdictOf(dry.st.run, running, row, profile.capacityKwh)
      ensures r.Ok? ==> store.st == Resuming.Settle(old(store.st), dry.st.run, running, row, profile.capacityKwh)
    {
      var found := dry.MatchFor(row);
      if found.Some? && found == running {
        return Ok(Resuming.Resumed);
      }
      if found.Some? && dry.st.run.sessions[found.value].closed {
        var s := dry.st.run.sessions[found.value];
        var _ :- store.Write(ResetRow(store.st, Row(row.id), s.startedAt, s.points));
        var kept :- Finish(Row(row.id), row.kind, s.points);
        return Ok(if kept then Resuming.ClosedNow else Resuming.Discarded);
      }
      var _ :- store.Write(AbandonRow(store.st, Row(row.id)));
      return Ok(Resuming.AbandonedNow);
    }

    /** Every row that was open, oldest first. */
    method SettleRows(dry: Store, running: Option<nat>, rows: seq<Resuming.OpenRow>)
      returns (r: Result<(seq<Resuming.OpenRow>, Resuming.Report)>)
      requires dry != store && dry.st.Dry?
      modifies store`st, store`calls
      ensures r.Ok? ==> store.st == Resuming.SettleAll(old(store.st), dry.st.run, running, rows, profile.capacityKwh)
      ensures r.Ok? ==>
        && r.value.0 == Resuming.With(Resuming.Resumed, dry.st.run, running, rows, profile.capacityKwh)
        && r.value.1 == Resuming.SettledReport(dry.st.run, running, rows, profile.capacityKwh, 0)
    {
      ghost var run, cap := dry.st.run, profile.capacityKwh;
      var resumed, ended, abandoned, discarded := [], [], [], [];
      for i := 0 to |rows|
        invariant store.st == Resuming.SettleAll(old(store.st), run, running, rows[..i], cap)
        invariant resumed == Resuming.With(Resuming.Resumed, run, running, rows[..i], cap)
        invariant ended == Resuming.With(Resuming.ClosedNow, run, running, rows[..i], cap)
        invariant abandoned == Resuming.With(Resuming.AbandonedNow, run, running, rows[..i], cap)
        invariant discarded == Resuming.With(Resuming.Discarded, run, running, rows[..i], cap)
      {
        assert rows[..i + 1][..i] == rows[..i];
        var outcome :- SettleRow(dry, running, rows[i]);
        match outcome
        case Resumed => resumed := resumed + [rows[i]];
        case ClosedNow => ended := ended + [rows[i]];
        case AbandonedNow => abandoned := abandoned + [rows[i]];
        case Discarded => discarded := discarded + [rows[i]];
      }
      assert rows[..|rows|] == rows;
      var dropped := |ended| + |abandoned| + |discarded|;
      return Ok((resumed, Resuming.Report(0, |dry.st.run.flushed|, dry.st.run.newest, 0, dropped, None,
                                          ended, abandoned, discarded)));
    }

    /** The session still running gets the row carried on for it, or a new one. */
    method CarryOn(run: DryRun, carried: seq<Resuming.OpenRow>, settled: Resuming.Report)
      returns (r: Result<Resuming.Report>)
      modifies this`openId, store`st, store`calls
      ensures r.Ok? ==> (View(), store.st, r.value) == Resuming.CarryOn(old(View()), old(store.st), run, carried, settled)
    {
      var running := if openId.Some? && openId.value.Replay? && openId.value.n >= 1 then Some(openId.value.n - 1) else None;
      if running.None? || running.value >= |run.sessions| {
        openId := None;
        return Ok(settled);
      }
      var s := run.sessions[running.value];
      var report := settled;
      var id: RowId;
      if carried == [] {
        id :- store.Open(s.kind, s.startedAt);
        report := report.(opens := 1, resumed := Some(Resuming.OpenRow(id.n, s.kind, s.startedAt)));
      } else {
        var row := carried[|carried| - 1];
        id := Row(row.id);
        report := report.(resumed := Some(row.(startedAt := s.startedAt)));
      }
      var _ :- store.Write(ResetRow(store.st, id, s.startedAt, openPoints.items));
      openId := Some(id);
      return Ok(report);
    }

    /** `reconcile`, inside its transaction. */
    method ReconcileInside(dry: Store, open: seq<Resuming.OpenRow>, replayed: nat) returns (r: Result<Resuming.Report>)
      requires Valid() && dry != store && dry.st.Dry?
      modifies ensuredMonths, this`openId, store`st, store`calls
      ensures r.Ok? ==>
        (View(), store.st, r.value)
          == Resuming.Reconcile(old(View()), old(store.st), profile, dry.st.run, open, replayed)
    {
      hide Resuming.WriteFlushed, Resuming.SettleAll, Resuming.With, Resuming.CarryOn, Resuming.ByStart;
      var _ :- WriteFlushed(dry.st.run.flushed);
      var running := Resuming.Running(View());
      var settled :- SettleRows(dry, running, Resuming.ByStart(open));
      r := CarryOn(dry.st.run, settled.0, settled.1.(replayed := replayed));
    }

    /** `reconcile` as one transaction. */
    method Reconcile(dry: Store, open: seq<Resuming.OpenRow>, replayed: nat) returns (r: Result<Resuming.Report>)
      requires Valid() && dry != store && dry.st.Dry?
      modifies this, Memory(), store
      ensures Valid() && store == old(store) && fresh(Memory() - old(Memory()))
      ensures r.Ok? ==>
        (View(), store.st, r.value)
          == Resuming.Reconcile(old(View()), old(store.st), profile, dry.st.run, open, replayed)
      ensures r.Threw? ==> View() == old(View()) && store.st == old(store.st)
    {
      hide Resuming.Reconcile;
      var snapshot := TakeSnapshot();
      store.Begin();
      r := ReconcileInside(dry, open, replayed);
      r := Conclude(snapshot, r);
    }

    /** The messages of the tape, handled in order. */
    method PlayTape(tape: seq<Raw>)
      requires Valid() && store.Reliable()
      modifies this, Memory(), store
      ensures Valid() && store == old(store) && fresh(Memory() - old(Memory()))
      ensures (View(), store.st) == Resuming.HandleTape(old(View()), old(store.st), profile, tape)
    {
      hide HandleRaw, View;
      assert tape[0..] == tape;
      for i := 0 to |tape|
        invariant Valid() && store == old(store) && fresh(Memory() - old(Memory()))
        invariant Resuming.HandleTape(View(), store.st, profile, tape[i..])
          == Resuming.HandleTape(old(View()), old(store.st), profile, tape)
      {
        assert tape[i..][1..] == tape[i + 1..];
        var _ := Handle(tape[i]);
      }
    }

    /** The replay: the live methods again, on a dry store, where no statement throws. */
    method Replay(dry: Store, tape: seq<Raw>, now: int)
      requires Valid() && store == dry && dry.Reliable() && dry.st == Dry(Resuming.BLANK_RUN)
      modifies this, Memory(), dry
      ensures Valid() && store == dry && fresh(Memory() - old(Memory()))
      ensures var (core, st) := Resuming.ReplayTape(old(View()), profile, tape, now);
        View().(ensuredMonths := {}, measuredDay := None) == core && dry.st == st
    {
      hide HandleRaw, FlushDue, Resuming.HandleTape, Resuming.FinalFlush, Valid;
      PlayTape(tape);
      dry.st := Resuming.FinalFlush(dry.st);
      var _ := Flush(now, true);
    }

    /** The tape replayed against a store of its own, and what the memos say of that store forgotten. */
    method Rehearse(tape: seq<Raw>, now: int) returns (dry: Store)
      requires Valid()
      modifies this, Memory()
      ensures Valid() && store == old(store) && fresh(dry) && fresh(Memory() - old(Memory()))
      ensures (View(), dry.st) == Resuming.ReplayTape(old(View()), profile, tape, now)
    {
      hide Resuming.ReplayTape;
      dry := new Store(Dry(Resuming.BLANK_RUN), _ => false);
      var live := store;
      store := dry;
      Replay(dry, tape, now);
      store := live;
      ensuredMonths.Clear();
      measuredDays.Clear();
    }

    /** `resume`: it reconciles, or throws with the live store untouched. */
    method Resume(tape: seq<Raw>, open: seq<Resuming.OpenRow>, now: int) returns (r: Result<Resuming.Report>)
      requires Valid()
      modifies this, Memory(), store
      ensures Valid() && store == old(store) && fresh(Memory() - old(Memory()))
      ensures r.Ok? ==>
        (View(), store.st, r.value) == Resuming.Resume(old(View()), old(store.st), profile, tape, open, now)
      ensures r.Threw? ==>
        store.st == old(store.st) && View() == Resuming.ReplayTape(old(View()), profile, tape, now).0
    {
      hide Resuming.ReplayTape, Resuming.Reconcile;
      var dry := Rehearse(tape, now);
      Resuming.ReplayStaysDry(old(View()), profile, tape, now);
      r := Reconcile(dry, open, |tape|);
    }
  }
}
