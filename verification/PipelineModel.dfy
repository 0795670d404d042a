/** apps/ingest/src/pipeline.ts as functions on values: what a message, a flush or a sample does
    to the pipeline's memory and to the store when nothing throws. `Pipeline.dfy` holds the class,
    in which any call to the store may throw. */
module PipelineModel {
  import opened Collections
  import opened Segmenter
  import opened Metrics
  import opened Accumulator

  const NOWHERE_MAX_SPEED_KPH := 10.0
  const DAY_MS := 24 * 60 * 60 * 1000

  /** One taped message; its payload is the vendor's business. */
  datatype Raw = Raw(receivedAt: int, payload: string)

  /** What differs by vendor: decoding, slot policy, and the sample made of the merged slots. */
  datatype Profile = Profile(
    policy: Policy,
    decode: Raw -> Option<Decoded>,
    toSample: (int, map<Slot, Value>) -> Sample,
    monthOf: int -> int,
    capacityKwh: real)

  /** `toSample` keeps the instant it is asked for. */
  ghost predicate Stamps(profile: Profile) {
    forall ts, state :: profile.toSample(ts, state).ts == ts
  }

  // ----- the store -----------------------------------------------------------------------

  datatype RowId = Row(n: nat) | Replay(n: nat)

  datatype Status = Open | Closed(summary: Summary) | Abandoned

  datatype SessionRow = SessionRow(kind: Kind, startedAt: int, points: seq<Sample>, status: Status)

  /** The database, as far as the pipeline writes it. */
  datatype Db = Db(
    rows: map<nat, SessionRow>,
    nextRow: nat,
    tape: seq<Raw>,
    samples: seq<Sample>,
    partitions: set<int>,
    capacityDays: set<int>,
    priced: set<nat>,
    cursor: Option<int>)

  /** A session of a replay. */
  datatype Replayed = Replayed(kind: Kind, startedAt: int, points: seq<Sample>, closed: bool, endedAt: Option<int>)

  /** `DryStore`: session `n` of the replay is `sessions[n - 1]`. */
  datatype DryRun = DryRun(sessions: seq<Replayed>, finalFlush: bool, flushed: seq<Sample>, newest: Option<int>)

  datatype Backend = Live(db: Db) | Dry(run: DryRun)

  /** Points are unique by time: `ON CONFLICT (session_id, ts) DO NOTHING`. */
  function AddPoint(points: seq<Sample>, s: Sample): seq<Sample> {
    if exists i :: 0 <= i < |points| && points[i].ts == s.ts then points else points + [s]
  }

  function AddPoints(points: seq<Sample>, more: seq<Sample>): seq<Sample> {
    if more == [] then points else AddPoint(AddPoints(points, more[..|more| - 1]), more[|more| - 1])
  }

  /** The row that is open for `kind`, of those below `n`. */
  function FindOpen(rows: map<nat, SessionRow>, kind: Kind, n: nat): Option<nat> {
    if n == 0 then None
    else if n - 1 in rows && rows[n - 1].status.Open? && rows[n - 1].kind == kind then Some(n - 1)
    else FindOpen(rows, kind, n - 1)
  }

  /** `openSession`: a new row, or the one already open. */
  function OpenRow(st: Backend, kind: Kind, at: int): (Backend, RowId) {
    match st
    case Live(db) =>
      var found := FindOpen(db.rows, kind, db.nextRow);
      if found.Some? then (st, Row(found.value))
      else (Live(db.(rows := db.rows[db.nextRow := SessionRow(kind, at, [], Open)], nextRow := db.nextRow + 1)),
            Row(db.nextRow))
    case Dry(run) =>
      (Dry(run.(sessions := run.sessions + [Replayed(kind, at, [], false, None)])), Replay(|run.sessions| + 1))
  }

  predicate HasRow(db: Db, id: RowId) {
    id.Row? && id.n in db.rows
  }

  function SetRow(db: Db, n: nat, row: SessionRow): Backend {
    Live(db.(rows := db.rows[n := row]))
  }

  predicate HasReplayed(run: DryRun, id: RowId) {
    id.Replay? && 1 <= id.n <= |run.sessions|
  }

  function SetReplayed(run: DryRun, n: nat, r: Replayed): Backend
    requires 1 <= n <= |run.sessions|
  {
    Dry(run.(sessions := run.sessions[n - 1 := r]))
  }

  function AppendPoint(st: Backend, id: RowId, s: Sample): Backend {
    match st
    case Live(db) =>
      if HasRow(db, id) then SetRow(db, id.n, db.rows[id.n].(points := AddPoint(db.rows[id.n].points, s))) else st
    case Dry(run) =>
      if HasReplayed(run, id) then
        SetReplayed(run, id.n, run.sessions[id.n - 1].(points := run.sessions[id.n - 1].points + [s]))
      else st
  }

  function CloseRow(st: Backend, id: RowId, summary: Summary): Backend {
    match st
    case Live(db) =>
      if HasRow(db, id) then SetRow(db, id.n, db.rows[id.n].(status := Closed(summary))) else st
    case Dry(run) =>
      if HasReplayed(run, id) then
        SetReplayed(run, id.n, run.sessions[id.n - 1].(closed := true, endedAt := summary.endedAt))
      else st
  }

  function LastTs(points: seq<Sample>, otherwise: int): int {
    if points == [] then otherwise else points[|points| - 1].ts
  }

  function DiscardRow(st: Backend, id: RowId): Backend {
    match st
    case Live(db) => if HasRow(db, id) then Live(db.(rows := db.rows - {id.n})) else st
    case Dry(run) =>
      if HasReplayed(run, id) then
        var r := run.sessions[id.n - 1];
        SetReplayed(run, id.n, r.(closed := true, endedAt := Some(LastTs(r.points, r.startedAt))))
      else st
  }

  function AbandonRow(st: Backend, id: RowId): Backend {
    if st.Live? && HasRow(st.db, id) && st.db.rows[id.n].status.Open?
    then SetRow(st.db, id.n, st.db.rows[id.n].(status := Abandoned)) else st
  }

  function ResetRow(st: Backend, id: RowId, startedAt: int, points: seq<Sample>): Backend {
    if st.Live? && HasRow(st.db, id)
    then SetRow(st.db, id.n, st.db.rows[id.n].(startedAt := startedAt, points := AddPoints([], points))) else st
  }

  function PriceRow(st: Backend, id: RowId): Backend {
    if st.Live? && id.Row? then Live(st.db.(priced := st.db.priced + {id.n})) else st
  }

  function EnsurePartitions(st: Backend, month: int): Backend {
    if st.Live? then Live(st.db.(partitions := st.db.partitions + {month})) else st
  }

  function InsertRaw(st: Backend, raw: Raw): Backend {
    if st.Live? then Live(st.db.(tape := st.db.tape + [raw])) else st
  }

  function InsertSample(st: Backend, s: Sample): Backend {
    match st
    case Live(db) => Live(db.(samples := AddPoint(db.samples, s)))
    case Dry(run) =>
      Dry(run.(flushed := if run.finalFlush then run.flushed + [s] else run.flushed,
               newest := if run.newest.None? || s.ts > run.newest.value then Some(s.ts) else run.newest))
  }

  function RecordCapacity(st: Backend, day: int): Backend {
    if st.Live? then Live(st.db.(capacityDays := st.db.capacityDays + {day})) else st
  }

  function AdvanceCursor(st: Backend, at: int): Backend {
    if st.Live? then Live(st.db.(cursor := Some(at))) else st
  }

  // ----- the pipeline --------------------------------------------------------------------

  /** The worker's memory: what a snapshot must hold. */
  datatype Core = Core(
    state: State,
    openId: Option<RowId>,
    openPoints: seq<Sample>,
    ensuredMonths: set<int>,
    acc: Option<Acc>,
    measuredDay: Option<int>)

  const COLD := Core(INITIAL, None, [], {}, None, None)

  /** `PipelineResult`. */
  datatype Counts = Counts(samples: nat, opens: nat, closes: nat, applied: nat, unmapped: nat, untimed: nat,
                           lastSampleTs: Option<int>)

  const NOTHING := Counts(0, 0, 0, 0, 0, 0, None)

  /** No distance on the odometer, and at no point the speed of a real drive. */
  predicate WentNowhere(summary: Summary, points: seq<Sample>) {
    && !(summary.distanceKm.Some? && summary.distanceKm.value > 0.0)
    && forall i :: 0 <= i < |points| ==>
         (points[i].speedKph.Some? ==> points[i].speedKph.value <= NOWHERE_MAX_SPEED_KPH)
  }

  predicate Keeps(kind: Kind, points: seq<Sample>, capacityKwh: real) {
    !(kind == Drive && WentNowhere(Summarise(kind, points, capacityKwh), points))
  }

  /** `finish`: the row is closed with its summary, or deleted if the drive was none; true if kept. */
  function Finish(st: Backend, id: RowId, kind: Kind, points: seq<Sample>, capacityKwh: real): (Backend, bool) {
    if !Keeps(kind, points, capacityKwh) then (DiscardRow(st, id), false)
    else
      var closed := CloseRow(st, id, Summarise(kind, points, capacityKwh));
      (if kind == Charge then PriceRow(closed, id) else closed, true)
  }

  /** The points a session is summarised from: the sample it ends on joins them if it is later. */
  function WithEnd(points: seq<Sample>, end: Sample): seq<Sample> {
    if points == [] || end.ts > points[|points| - 1].ts then points + [end] else points
  }

  /** One segmenter event, put to the store. */
  function Put(core: Core, st: Backend, e: Event, capacityKwh: real): (Core, Backend) {
    match e
    case Start(kind, at, _) =>
      var (st1, id) := OpenRow(st, kind, at);
      (core.(openId := Some(id), openPoints := []), st1)
    case Point(s) =>
      if core.openId.None? then (core, st)
      else (core.(openPoints := core.openPoints + [s]), AppendPoint(st, core.openId.value, s))
    case End(kind, _, s) =>
      if core.openId.None? then (core, st)
      else
        var id := core.openId.value;
        var points := WithEnd(core.openPoints, s);
        var st1 := if points == core.openPoints then st else AppendPoint(st, id, s);
        (core.(openId := None, openPoints := []), Finish(st1, id, kind, points, capacityKwh).0)
  }

  function PutAll(core: Core, st: Backend, events: seq<Event>, capacityKwh: real): (Core, Backend)
    decreases |events|
  {
    if events == [] then (core, st)
    else
      var (core1, st1) := Put(core, st, events[0], capacityKwh);
      PutAll(core1, st1, events[1..], capacityKwh)
  }

  function EnsureMonth(core: Core, st: Backend, month: int): (Core, Backend) {
    if month in core.ensuredMonths then (core, st)
    else (core.(ensuredMonths := core.ensuredMonths + {month}), EnsurePartitions(st, month))
  }

  /** The pack's capacity by the car's reckoning, once a UTC day. */
  function MeasurePack(core: Core, st: Backend, s: Sample): (Core, Backend) {
    var day := s.ts / DAY_MS;
    if s.nominalFullPackEnergyKwh.None? || !(s.nominalFullPackEnergyKwh.value > 0.0) || core.measuredDay == Some(day)
    then (core, st)
    else (core.(measuredDay := Some(day)), RecordCapacity(st, day))
  }

  function Opens(events: seq<Event>): nat {
    if events == [] then 0 else (if events[0].Start? then 1 else 0) + Opens(events[1..])
  }

  /** Sessions closed: the ends that find one open. */
  function Closes(core: Core, st: Backend, events: seq<Event>, capacityKwh: real): nat
    decreases |events|
  {
    if events == [] then 0
    else
      var (core1, st1) := Put(core, st, events[0], capacityKwh);
      (if events[0].End? && core.openId.Some? then 1 else 0) + Closes(core1, st1, events[1..], capacityKwh)
  }

  /** `applySample`. */
  function ApplySample(core: Core, st: Backend, profile: Profile, s: Sample): (Core, Backend, Counts) {
    var (core1, st1) := EnsureMonth(core, st, profile.monthOf(s.ts));
    var st2 := InsertSample(st1, s);
    var (core3, st3) := MeasurePack(core1, st2, s);
    var (state, events) := Step(core3.state, s, DEFAULT_OPTIONS);
    var core4 := core3.(state := state);
    var (core5, st5) := PutAll(core4, st3, events, profile.capacityKwh);
    (core5, st5,
     NOTHING.(samples := 1, opens := Opens(events), closes := Closes(core4, st3, events, profile.capacityKwh),
              lastSampleTs := Some(s.ts)))
  }

  /** `emit`: take the pending sample and apply it. */
  function EmitSample(core: Core, st: Backend, profile: Profile): (Core, Backend, Counts)
    requires core.acc.Some?
  {
    var (acc, taken) := Take(core.acc.value, profile.policy);
    var core1 := core.(acc := Some(acc));
    if taken.None? then (core1, st, NOTHING)
    else ApplySample(core1, st, profile, profile.toSample(taken.value.ts, taken.value.state))
  }

  function AccOf(core: Core): Acc {
    if core.acc.Some? then core.acc.value else EMPTY
  }

  function EmitDue(core: Core, st: Backend, profile: Profile, at: int): (Core, Backend, Counts)
    requires core.acc.Some?
  {
    if Due(core.acc.value, at) then EmitSample(core, st, profile) else (core, st, NOTHING)
  }

  /** A message folded into the accumulator; whether anything of it landed. */
  function TakeIn(core: Core, profile: Profile, raw: Raw): (Core, bool) {
    var decoded := profile.decode(raw);
    var (acc, landed) :=
      if decoded.Some? then Apply(AccOf(core), profile.policy, decoded.value, raw.receivedAt) else (AccOf(core), false);
    (core.(acc := Some(acc)), landed)
  }

  function Untimed(profile: Profile, raw: Raw): nat {
    if profile.decode(raw).Some? then profile.decode(raw).value.untimed else 0
  }

  /** `handle`: tape the message, emit what is due, then take the message in. */
  function HandleRaw(core: Core, st: Backend, profile: Profile, raw: Raw): (Core, Backend, Counts) {
    var (core1, st1) := EnsureMonth(core, st, profile.monthOf(raw.receivedAt));
    var core2 := core1.(acc := Some(AccOf(core1)));
    var (core3, st3, counts) := EmitDue(core2, InsertRaw(st1, raw), profile, raw.receivedAt);
    var (core4, landed) := TakeIn(core3, profile, raw);
    (core4, AdvanceCursor(st3, raw.receivedAt),
     counts.(applied := if landed then 1 else 0, unmapped := if landed then 0 else 1, untimed := Untimed(profile, raw)))
  }

  /** `flush`: the sample the debounce has ready, or any pending one when forced. */
  function FlushDue(core: Core, st: Backend, profile: Profile, now: int, force: bool): (Core, Backend, Counts) {
    if core.acc.Some? && (if force then core.acc.value.pendingSince.Some? else Due(core.acc.value, now))
    then EmitSample(core, st, profile) else (core, st, NOTHING)
  }
}
