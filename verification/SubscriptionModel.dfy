/** apps/rivian/src/subscriptions.ts as functions on values: what each operation of the
    subscription plan answers and the plan it leaves. `SubscriptionPlan.dfy` holds the class
    with the source's own fields and loops, proved equal to these functions; the whole-run
    theorems are about these functions. */
module SubscriptionModel {
  import opened Collections
  import opened Catalogue

  const MINUTE_MS := 60 * 1000
  const HOUR_MS := 60 * MINUTE_MS
  const REPROBE_INTERVAL_MS := 24 * HOUR_MS
  const FIRST_REPROBE_MS := HOUR_MS
  const REPROBE_SPACING_MS := MINUTE_MS
  const WAVE_WINDOW_MS := 20_000
  const CANARY_WINDOW_MS := 30_000
  const LINEAGE_WINDOW_MS := 5 * MINUTE_MS
  const CANARY_PROPERTY := "batteryLevel"

  /** What is subscribed whole, whatever the property list. */
  datatype Fixed = Parallax | Charging | Cloud | OtaState | OtaSchedules | Geofence | Departure

  const FIXED: seq<Fixed> := [Parallax, Charging, Cloud, OtaState, OtaSchedules, Geofence, Departure]

  /** A plan key: `state:<n>`, `canary`, or the name of a fixed subscription. */
  datatype Key = State(n: nat) | Canary | Only(kind: Fixed)

  /** A subscription id, `<key>#<n>`. */
  datatype Id = Id(key: Key, n: nat)

  /** A subscription; key, names and the vehicle id determine its document. */
  datatype Sub = Group(key: Key, names: seq<string>) | Single(kind: Fixed) {
    function Key(): Key {
      if Group? then key else Only(kind)
    }
  }

  const CANARY_SUB := Group(Canary, [CANARY_PROPERTY])

  datatype FaultKind = Documents | WholeGroup | CanaryAlone

  datatype Fault = Fault(kind: FaultKind, retry: seq<Sub>, withdrawn: seq<Key>, restored: seq<string>)

  datatype Rejection = Rejection(
    probes: seq<Sub>, newlyDropped: seq<string>, unavailable: Option<Fixed>,
    fault: Option<Fault>, canary: Option<Sub>)

  const NOTHING := Rejection([], [], None, None, None)

  /** A search: the group it began with, and the names found bad in it so far. */
  datatype Lineage = Lineage(group: Sub, rejected: seq<string>, lastAt: int)

  /** The effect of one wave group's rejection: probes asked for, names dropped. */
  datatype Given = Given(probes: seq<Key>, dropped: seq<string>)

  /** The groups of one `initial`, and which of them were rejected to what effect. */
  datatype Wave = Wave(groups: Dict<Key, Sub>, firstAt: Option<int>, rejected: Dict<Key, Given>) {
    ghost predicate Ok() {
      && groups.Ok()
      && rejected.Ok()
    }
  }

  datatype Pending = Pending(wave: Wave, at: int)

  datatype Refused = Refused(sub: Sub, dueAt: int)

  datatype Renewal = Renewal(oldId: Id, id: Id, sub: Sub)

  /** The fields of `SubscriptionPlan`. A `Lineage` is one object that several keys share and
      that every one of them sees updated, so `#lineages` maps a key to a handle, the index of
      the search in `searches`. */
  datatype Plan = Plan(
    properties: seq<string>,
    dropped: Dict<string, int>,
    unavailable: Dict<Fixed, Refused>,
    lastDueAt: Option<int>,
    wave: Option<Wave>,
    pendingCanary: Option<Pending>,
    searchOf: map<Key, nat>,
    searches: seq<Lineage>,
    faulted: set<Key>,
    exhausted: set<Key>,
    live: Dict<Id, Sub>,
    nextId: nat,
    nextGroup: nat)
  {
    /** The dictionaries are dictionaries and the handles name searches. */
    ghost predicate Ok() {
      && dropped.Ok()
      && unavailable.Ok()
      && live.Ok()
      && Wired()
    }

    ghost predicate Wired() {
      && (wave.Some? ==> wave.value.Ok())
      && (pendingCanary.Some? ==> pendingCanary.value.wave.Ok())
      && (forall k | k in searchOf :: searchOf[k] < |searches|)
    }
  }

  // ----- construction --------------------------------------------------------------------

  /** `[...new Set(names)]`, keeping those `seen` does not hold already. */
  function Unique(names: seq<string>, seen: set<string>): seq<string> {
    if names == [] then []
    else if names[0] in seen then Unique(names[1..], seen)
    else [names[0]] + Unique(names[1..], seen + {names[0]})
  }

  function Queryable(names: seq<string>): seq<string> {
    if names == [] then []
    else (if IsQueryable(names[0]) then [names[0]] else []) + Queryable(names[1..])
  }

  function FirstDueAt(now: int, i: nat, count: nat): int
    requires i < count
  {
    now + FIRST_REPROBE_MS + (i * HOUR_MS) / count
  }

  function Later(a: Option<int>, b: int): int {
    if a.Some? && a.value > b then a.value else b
  }

  /** The first `i` saved names, due one after another from an hour on. */
  function Saved(saved: seq<string>, now: int, i: nat): (Dict<string, int>, Option<int>)
    requires i <= |saved|
  {
    if i == 0 then (EmptyDict(), None)
    else
      var (d, last) := Saved(saved, now, i - 1);
      var dueAt := FirstDueAt(now, i - 1, |saved|);
      (d.Put(saved[i - 1], dueAt), Some(Later(last, dueAt)))
  }

  function New(properties: seq<string>, dropped: seq<string>, now: int): Plan {
    var saved := Queryable(Unique(dropped, {}));
    var (d, last) := Saved(saved, now, |saved|);
    Plan(
      Unique(Queryable(properties + d.keys), {}), d, EmptyDict(), last, None, None,
      map[], [], {}, {}, EmptyDict(), 0, 0)
  }

  // ----- subscribing ---------------------------------------------------------------------

  function Activate(p: Plan, sub: Sub): (Plan, Id) {
    var id := Id(sub.Key(), p.nextId);
    (p.(live := p.live.Put(id, sub), nextId := p.nextId + 1), id)
  }

  function ActivateAll(p: Plan, subs: seq<Sub>): Plan
    decreases |subs|
  {
    if subs == [] then p else ActivateAll(Activate(p, subs[0]).0, subs[1..])
  }

  /** The ids `ActivateAll` hands out, each with what it is. */
  function Handed(nextId: nat, subs: seq<Sub>): seq<(Id, Sub)> {
    seq(|subs|, i requires 0 <= i < |subs| => (Id(subs[i].Key(), nextId + i), subs[i]))
  }

  /** `vehicleState` subscriptions for `groups`, numbered from `next`. */
  function StateGroups(groups: seq<seq<string>>, next: nat): seq<Sub> {
    seq(|groups|, i requires 0 <= i < |groups| => Group(State(next + i), groups[i]))
  }

  function NotDropped(names: seq<string>, dropped: map<string, int>): seq<string> {
    if names == [] then []
    else (if names[0] in dropped then [] else [names[0]]) + NotDropped(names[1..], dropped)
  }

  function Available(kinds: seq<Fixed>, unavailable: map<Fixed, Refused>): seq<Sub> {
    if kinds == [] then []
    else (if kinds[0] in unavailable then [] else [Single(kinds[0])]) + Available(kinds[1..], unavailable)
  }

  function GroupDict(groups: seq<Sub>): Dict<Key, Sub> {
    if groups == [] then EmptyDict()
    else GroupDict(groups[..|groups| - 1]).Put(groups[|groups| - 1].Key(), groups[|groups| - 1])
  }

  /** The state groups `initial` subscribes. */
  function InitialGroups(p: Plan): seq<Sub> {
    StateGroups(Chunks(NotDropped(p.properties, p.dropped.at), MAX_GROUP_SIZE), 0)
  }

  /** Everything `initial` subscribes. */
  function InitialSubs(p: Plan): seq<Sub> {
    InitialGroups(p) + Available(FIXED, p.unavailable.at)
  }

  /** The plan with everything that remembered a key forgotten, before anything is subscribed. */
  function Forgotten(p: Plan): Plan {
    var groups := InitialGroups(p);
    p.(live := EmptyDict(),
       nextGroup := |groups|,
       searchOf := map[],
       faulted := {},
       exhausted := {},
       pendingCanary := None,
       wave := if |groups| >= 2 then Some(Wave(GroupDict(groups), None, EmptyDict())) else None)
  }

  function Initial(p: Plan): (Plan, seq<(Id, Sub)>) {
    (ActivateAll(Forgotten(p), InitialSubs(p)), Handed(p.nextId, InitialSubs(p)))
  }

  /** The first `i` live subscriptions moved to new ids. */
  function Renewed(live: Dict<Id, Sub>, nextId: nat, i: nat): (Dict<Id, Sub>, seq<Renewal>)
    requires forall k | k in live.keys :: k in live.at
    requires i <= |live.keys|
  {
    if i == 0 then (EmptyDict(), [])
    else
      var (next, renewed) := Renewed(live, nextId, i - 1);
      var oldId := live.keys[i - 1];
      var sub := live.at[oldId];
      var id := Id(sub.Key(), nextId + i - 1);
      (next.Put(id, sub), renewed + [Renewal(oldId, id, sub)])
  }

  function RenewAll(p: Plan): (Plan, seq<Renewal>)
    requires forall k | k in p.live.keys :: k in p.live.at
  {
    var (next, renewed) := Renewed(p.live, p.nextId, |p.live.keys|);
    (p.(live := next, nextId := p.nextId + |p.live.keys|), renewed)
  }

  function Ended(p: Plan, id: Id): (Plan, Option<Sub>) {
    if id in p.live.at then (p.(live := p.live.Remove(id)), Some(p.live.at[id])) else (p, None)
  }

  /** The names discovery found that are neither known nor unfit for a query. */
  function Fresh(names: seq<string>, known: set<string>): seq<string> {
    if names == [] then []
    else if names[0] !in known && IsQueryable(names[0])
    then [names[0]] + Fresh(names[1..], known + {names[0]})
    else Fresh(names[1..], known)
  }

  function AddProperties(p: Plan, names: seq<string>): (Plan, seq<Sub>) {
    var found := Fresh(names, Elements(p.properties));
    var groups := StateGroups(Chunks(found, MAX_GROUP_SIZE), p.nextGroup);
    (p.(properties := p.properties + found, nextGroup := p.nextGroup + |groups|), groups)
  }

  function DueNames(names: seq<string>, at: map<string, int>, now: int): seq<string>
    requires forall k | k in names :: k in at
  {
    if names == [] then []
    else (if now >= at[names[0]] then [names[0]] else []) + DueNames(names[1..], at, now)
  }

  function DueKinds(kinds: seq<Fixed>, at: map<Fixed, Refused>, now: int): seq<Fixed>
    requires forall k | k in kinds :: k in at
  {
    if kinds == [] then []
    else (if now >= at[kinds[0]].dueAt then [kinds[0]] else []) + DueKinds(kinds[1..], at, now)
  }

  function Alone(names: seq<string>): seq<seq<string>> {
    seq(|names|, i requires 0 <= i < |names| => [names[i]])
  }

  function DueForReprobe(p: Plan, now: int): (Plan, seq<Sub>)
    requires p.Ok()
  {
    var names := DueNames(p.dropped.keys, p.dropped.at, now);
    var kinds := DueKinds(p.unavailable.keys, p.unavailable.at, now);
    var groups := StateGroups(Alone(names), p.nextGroup);
    (p.(dropped := RemoveAll(p.dropped, names),
        unavailable := RemoveAll(p.unavailable, kinds),
        nextGroup := p.nextGroup + |names|),
     groups + SubsOf(p.unavailable, kinds))
  }

  /** What was refused under each of `kinds`. */
  function SubsOf(d: Dict<Fixed, Refused>, kinds: seq<Fixed>): seq<Sub> {
    if kinds == [] then []
    else (if kinds[0] in d.at then [d.at[kinds[0]].sub] else []) + SubsOf(d, kinds[1..])
  }

  // ----- rejection -----------------------------------------------------------------------

  function DocumentAccepted(p: Plan): Plan {
    p.(wave := None, pendingCanary := None, faulted := {})
  }

  function RetryOnly(kind: FaultKind, sub: Sub): Rejection {
    NOTHING.(fault := Some(Fault(kind, [sub], [], [])))
  }

  /** The open wave `key` counts in, if the window since its first rejection has not passed. */
  function WaveFor(p: Plan, key: Key, now: int): (Plan, Option<Wave>) {
    if p.wave.None? || key !in p.wave.value.groups.at then (p, None)
    else if p.wave.value.firstAt.None? then
      var wave := p.wave.value.(firstAt := Some(now));
      (p.(wave := Some(wave)), Some(wave))
    else if now - p.wave.value.firstAt.value > WAVE_WINDOW_MS then (p.(wave := None), None)
    else (p, p.wave)
  }

  /** The handle of the search `key` is part of; one that was idle too long is let go. */
  function LineageOf(p: Plan, key: Key, now: int): (Plan, Option<nat>)
    requires p.Wired()
  {
    if key !in p.searchOf then (p, None)
    else if now - p.searches[p.searchOf[key]].lastAt > LINEAGE_WINDOW_MS
    then (p.(searchOf := p.searchOf - {key}), None)
    else (p, Some(p.searchOf[key]))
  }

  function DueAfterDrop(p: Plan, now: int): int {
    if p.lastDueAt.Some? && p.lastDueAt.value + REPROBE_SPACING_MS > now + REPROBE_INTERVAL_MS
    then p.lastDueAt.value + REPROBE_SPACING_MS
    else now + REPROBE_INTERVAL_MS
  }

  function Drop(p: Plan, name: string, now: int): (Plan, Rejection) {
    var at := DueAfterDrop(p, now);
    (p.(dropped := p.dropped.Put(name, at), lastDueAt := Some(at)), NOTHING.(newlyDropped := [name]))
  }

  function AddName(names: seq<string>, name: string): seq<string> {
    if name in names then names else names + [name]
  }

  /** A property rejected alone, inside search `h`. */
  function DropInSearch(p: Plan, h: nat, name: string, now: int): (Plan, Rejection)
    requires h < |p.searches|
  {
    var was := p.searches[h];
    var search := was.(rejected := AddName(was.rejected, name), lastAt := now);
    var q := p.(searches := p.searches[h := search]);
    if search.group.Group? && |search.rejected| == |search.group.names| then
      var restored := Without(search.rejected, name);
      (q.(dropped := RemoveAll(q.dropped, restored),
          searchOf := map k | k in q.searchOf && q.searchOf[k] != h :: q.searchOf[k],
          exhausted := q.exhausted + {search.group.key}),
       NOTHING.(fault := Some(Fault(WholeGroup, [search.group], [], restored))))
    else Drop(q, name, now)
  }

  function Middle(names: seq<string>): nat {
    (|names| + 1) / 2
  }

  /** The two halves of a rejected group, the first with the odd one. */
  function Halves(p: Plan, names: seq<string>): seq<Sub>
    requires |names| != 1
  {
    StateGroups([names[..Middle(names)], names[Middle(names)..]], p.nextGroup)
  }

  function Split(p: Plan, sub: Sub, lineage: Option<nat>, now: int): (Plan, Rejection)
    requires sub.Group? && |sub.names| != 1
    requires lineage.Some? ==> lineage.value < |p.searches|
  {
    var h := if lineage.Some? then lineage.value else |p.searches|;
    var searches :=
      if lineage.Some? then p.searches[h := p.searches[h].(lastAt := now)]
      else p.searches + [Lineage(sub, [], now)];
    (p.(searches := searches,
        searchOf := p.searchOf[State(p.nextGroup) := h][State(p.nextGroup + 1) := h],
        nextGroup := p.nextGroup + 2),
     NOTHING.(probes := Halves(p, sub.names)))
  }

  function Search(p: Plan, sub: Sub, now: int): (Plan, Rejection)
    requires sub.Group?
    requires p.Wired()
  {
    var (q, lineage) := LineageOf(p, sub.key, now);
    if |sub.names| == 1 then
      if lineage.Some? then DropInSearch(q, lineage.value, sub.names[0], now)
      else Drop(q, sub.names[0], now)
    else Split(q, sub, lineage, now)
  }

  function KeysOf(subs: seq<Sub>): seq<Key> {
    seq(|subs|, i requires 0 <= i < |subs| => subs[i].Key())
  }

  function ProbesOf(given: seq<Given>): seq<Key> {
    if given == [] then [] else given[0].probes + ProbesOf(given[1..])
  }

  function DroppedOf(given: seq<Given>): seq<string> {
    if given == [] then [] else given[0].dropped + DroppedOf(given[1..])
  }

  /** All of a wave's effects reversed, and its groups, probes and canary judged. */
  function DocumentFault(p: Plan, wave: Wave, canary: Sub): (Plan, Rejection)
    requires wave.Ok()
  {
    var given := Values(wave.rejected);
    var withdrawn := ProbesOf(given);
    var restored := DroppedOf(given);
    (p.(searchOf := p.searchOf - Elements(withdrawn),
        dropped := RemoveAll(p.dropped, restored),
        faulted := p.faulted + Elements(wave.groups.keys) + {canary.Key()} + Elements(withdrawn)),
     NOTHING.(fault := Some(Fault(Documents, Values(wave.groups) + [canary], withdrawn, restored))))
  }

  function CanaryRejected(p: Plan, canary: Sub, now: int): (Plan, Rejection)
    requires p.Wired()
  {
    if canary.Key() in p.faulted then (p, RetryOnly(Documents, canary))
    else
      var q := p.(pendingCanary := None);
      if p.pendingCanary.None? || now - p.pendingCanary.value.at > CANARY_WINDOW_MS
      then (q, RetryOnly(CanaryAlone, canary))
      else DocumentFault(q, p.pendingCanary.value.wave, canary)
  }

  /** The wave with one more rejection in it; with the last of them the canary is handed out. */
  function NoteWave(p: Plan, wave: Wave, key: Key, r: Rejection, now: int): (Plan, Rejection) {
    var noted := wave.(rejected := wave.rejected.Put(key, Given(KeysOf(r.probes), r.newlyDropped)));
    if |noted.rejected.keys| < |noted.groups.keys| then (p.(wave := Some(noted)), r)
    else (p.(wave := None, pendingCanary := Some(Pending(noted, now))), r.(canary := Some(CANARY_SUB)))
  }

  /** The rejection of a state group on which there is no verdict yet. */
  function GroupRejected(p: Plan, sub: Sub, now: int): (Plan, Rejection)
    requires sub.Group?
    requires p.Wired()
  {
    var (q, wave) := WaveFor(p, sub.key, now);
    var (searched, r) := Search(q, sub, now);
    if wave.None? || r.fault.Some? then (searched, r)
    else NoteWave(searched, wave.value, sub.key, r, now)
  }

  function Rejected(p: Plan, id: Id, now: int): (Plan, Rejection)
    requires p.Wired()
  {
    if id !in p.live.at then (p, NOTHING)
    else
      var sub := p.live.at[id];
      var q := p.(live := p.live.Remove(id));
      match sub
      case Single(kind) =>
        (q.(unavailable := q.unavailable.Put(kind, Refused(sub, now + REPROBE_INTERVAL_MS))),
         NOTHING.(unavailable := Some(kind)))
      case Group(key, names) =>
        if key == Canary then CanaryRejected(q, sub, now)
        else if key in q.faulted then (q, RetryOnly(Documents, sub))
        else if key in q.exhausted then (q, RetryOnly(WholeGroup, sub))
        else GroupRejected(q, sub, now)
  }
}
