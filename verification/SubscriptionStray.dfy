/** Fields that are lost to a document fault.

    The rollback takes back what the groups of the wave did. A group of one name that discovery
    added meanwhile is refused just as they are, and its name stays dropped; and so does that of a
    probe that was subscribed and refused before the canary was. */
module SubscriptionStray {
  import opened Catalogue
  import opened Collections
  import opened SubscriptionFault
  import opened SubscriptionModel
  import opened SubscriptionRuns
  import opened SubscriptionSafety
  import opened SubscriptionSearch
  import opened SubscriptionWave

  ghost function Next(w: World, e: Event): World
    requires Inv(w)
    ensures Inv(Next(w, e)) && Next(w, e) == Step(w, e)
  {
    StepKeeps(w, e);
    Step(w, e)
  }

  /** One more event before a quiet run. */
  lemma QuietFirst(w: World, e: Event, rest: seq<Event>, groups: seq<Sub>, a: Account)
    requires Inv(w) && Quiet(w, e) && QuietRun(Next(w, e), rest)
    ensures QuietRun(w, [e] + rest)
    ensures Run(w, [e] + rest) == Run(Next(w, e), rest)
    ensures Accounted(w, [e] + rest, groups, a) == Accounted(Next(w, e), rest, groups, Booked(w, e, groups, a))
  {
    var all := [e] + rest;
    assert all[0] == e && all[1..] == rest;
  }

  /** A live group of the wave, refused: it counts in the wave and nothing else is booked. */
  lemma OwnRefusal(w: World, d0: Dict<string, int>, groups: seq<Sub>, a: Account, i: nat, id: Id, now: int)
    requires Inv(w) && Phase(w, d0, groups, a) && i < |groups| && w.plan.exhausted == {}
    requires id in w.plan.live.at && w.plan.live.at[id] == groups[i] && InWindow(w.plan, State(i), now)
    ensures Quiet(w, Refusal(id, now))
    ensures Booked(w, Refusal(id, now), groups, a).otherDrops == a.otherDrops
    ensures var (q, r) := Rejected(w.plan, id, now);
      && Judging(q, groups, Noted(WaveIn(w.plan).value, State(i), r, now))
      && q.live == w.plan.live.Remove(id) && q.exhausted == {}
      && State(i) !in WaveIn(w.plan).value.rejected.at
      && (q.wave.None? ==> q.pendingCanary.Some? && q.pendingCanary.value.at == now)
    ensures var w2 := Next(w, Refusal(id, now)); var (q, r) := Rejected(w.plan, id, now);
      && w2.plan == q && w2.held == w.held + HandedBack(r)
      && (q.wave.None? ==> CANARY_SUB in w2.held)
  {
    assert groups[i].key == State(i);
    WaveRefusal(w, d0, groups, a, id, now);
    hide Phase, Inv, AllStand, Rejected, Standing;
    RefusalStep(w, id, now);
  }


  /** A wave of two is open while one is not rejected, and complete once both are. */
  lemma OneOfTwo(q: Plan, groups: seq<Sub>, wave: Wave, i: nat)
    requires Numbered(groups) && Judging(q, groups, wave) && |groups| == 2 && i < 2
    ensures State(i) !in wave.rejected.at ==> q.wave == Some(wave)
    ensures State(0) in wave.rejected.at && State(1) in wave.rejected.at ==> q.wave.None? && q.pendingCanary.Some?
  {
    WaveKey(groups, State(i));
    if State(0) in wave.rejected.at && State(1) in wave.rejected.at {
      assert State(0) in wave.rejected.keys && State(1) in wave.rejected.keys;
      assert |wave.rejected.keys| >= 2;
    }
  }

  lemma NotRejected(w: World, d0: Dict<string, int>, groups: seq<Sub>, a: Account, i: nat, id: Id)
    requires Phase(w, d0, groups, a) && i < |groups| && id in w.plan.live.at && w.plan.live.at[id] == groups[i]
    requires w.plan.exhausted == {}
    ensures State(i) !in WaveIn(w.plan).value.rejected.at
  {
    LiveInPool(w, id);
    assert groups[i].key == State(i);
    assert Standing(w.plan, Pool(w), d0, groups, WaveIn(w.plan).value, groups[i]);
  }

  lemma CanarySubscribed(w: World, i: nat)
    requires Inv(w) && i < |w.held| && w.held[i] == CANARY_SUB && w.plan.pendingCanary.Some?
    ensures CanaryDecides(Next(w, Activation(i)).plan, Id(Canary, w.plan.nextId), w.plan.pendingCanary.value.at)
  {
  }

  /** The first of two groups is refused: the wave stays open, and the other is still wanted. */
  lemma OneRefused(w: World, d0: Dict<string, int>, groups: seq<Sub>, a: Account, i: nat, id: Id, other: Id, now: int)
    requires Inv(w) && Phase(w, d0, groups, a) && |groups| == 2 && w.plan.exhausted == {} && i < 2
    requires w.plan.wave.Some? && w.plan.wave.value.firstAt.None?
    requires id in w.plan.live.at && w.plan.live.at[id] == groups[i]
    requires other in w.plan.live.at && w.plan.live.at[other] == groups[1 - i]
    ensures var e := Refusal(id, now); var next := Next(w, e);
      && Quiet(w, e) && Booked(w, e, groups, a).otherDrops == a.otherDrops
      && Phase(next, d0, groups, Booked(w, e, groups, a)) && next.plan == Rejected(w.plan, id, now).0
      && next.plan.exhausted == {}
      && next.plan.wave == Some(Noted(w.plan.wave.value, State(i), Rejected(w.plan, id, now).1, now))
      && other in next.plan.live.at && next.plan.live.at[other] == groups[1 - i]
  {
    assert Numbered(groups) && groups[0].key == State(0) && groups[1].key == State(1);
    NotRejected(w, d0, groups, a, 1 - i, other);
    hide Phase, Inv, Judging, Rejected, Quiet, Step;
    OwnRefusal(w, d0, groups, a, i, id, now);
    QuietKeepsPhase(w, Refusal(id, now), d0, groups, a);
    OneOfTwo(Rejected(w.plan, id, now).0, groups, Noted(w.plan.wave.value, State(i), Rejected(w.plan, id, now).1, now), 1 - i);
  }

  /** ... and then the other: the wave is complete, and the caller has the canary. */
  lemma OtherRefused(w: World, d0: Dict<string, int>, groups: seq<Sub>, a: Account, i: nat, other: Id, now: int)
    requires Inv(w) && Phase(w, d0, groups, a) && |groups| == 2 && w.plan.exhausted == {} && i < 2
    requires w.plan.wave.Some? && State(i) in w.plan.wave.value.rejected.at
    requires other in w.plan.live.at && w.plan.live.at[other] == groups[1 - i] && InWindow(w.plan, State(1 - i), now)
    ensures var e := Refusal(other, now); var next := Next(w, e);
      && Quiet(w, e) && Booked(w, e, groups, a).otherDrops == a.otherDrops
      && Phase(next, d0, groups, Booked(w, e, groups, a)) && next.plan == Rejected(w.plan, other, now).0
      && next.plan.exhausted == {}
      && next.plan.pendingCanary.Some? && next.plan.pendingCanary.value.at == now && next.plan.wave.None?
      && next.held == w.held + HandedBack(Rejected(w.plan, other, now).1) && CANARY_SUB in next.held
  {
    assert Numbered(groups) && groups[0].key == State(0) && groups[1].key == State(1);
    hide Phase, Inv, Judging, Rejected, Quiet, Step, HandedBack;
    OwnRefusal(w, d0, groups, a, 1 - i, other, now);
    QuietKeepsPhase(w, Refusal(other, now), d0, groups, a);
    OneOfTwo(Rejected(w.plan, other, now).0, groups,
             Noted(w.plan.wave.value, State(1 - i), Rejected(w.plan, other, now).1, now), 1);
  }

  /** The canary subscribed last. */
  lemma CanaryLast(w: World, groups: seq<Sub>, a: Account) returns (e: Event)
    requires Inv(w) && w.plan.pendingCanary.Some? && CANARY_SUB in w.held
    ensures Quiet(w, e) && Booked(w, e, groups, a) == a
    ensures CanaryDecides(Next(w, e).plan, Id(Canary, w.plan.nextId), w.plan.pendingCanary.value.at)
  {
    var i :| 0 <= i < |w.held| && w.held[i] == CANARY_SUB;
    e := Activation(i);
    CanarySubscribed(w, i);
  }

  /** Both groups of a wave of two refused, and the canary subscribed: nothing else is booked. */
  lemma BothRefused(w: World, d0: Dict<string, int>, groups: seq<Sub>, a: Account, first: Id, second: Id)
    returns (events: seq<Event>, id: Id, at: int)
    requires Inv(w) && Phase(w, d0, groups, a) && |groups| == 2 && w.plan.exhausted == {}
    requires w.plan.wave.Some? && w.plan.wave.value.firstAt.None?
    requires first in w.plan.live.at && w.plan.live.at[first] == groups[0]
    requires second in w.plan.live.at && w.plan.live.at[second] == groups[1]
    ensures QuietRun(w, events) && CanaryDecides(Run(w, events).plan, id, at)
    ensures Accounted(w, events, groups, a).otherDrops == a.otherDrops
  {
    var e1, e2 := Refusal(first, 0), Refusal(second, 0);
    var w1, a1 := Next(w, e1), Booked(w, e1, groups, a);
    OneRefused(w, d0, groups, a, 0, first, second, 0);
    hide Phase, Inv, Rejected, Quiet, Step, Booked, Judging;
    OtherRefused(w1, d0, groups, a1, 0, second, 0);
    var w2, a2 := Next(w1, e2), Booked(w1, e2, groups, a1);
    var e3 := CanaryLast(w2, groups, a2);
    id, at := Id(Canary, w2.plan.nextId), w2.plan.pendingCanary.value.at;
    events := [e1] + ([e2] + ([e3] + []));
    QuietFirst(w2, e3, [], groups, a2);
    QuietFirst(w1, e2, [e3] + [], groups, a1);
    QuietFirst(w, e1, [e2] + ([e3] + []), groups, a);
  }

  // ----- the discovered group ------------------------------------------------------------

  /** Just after `initial`: two groups, no search and no rejection yet, and nothing held. */
  ghost predicate JustStarted(w: World, d0: Dict<string, int>, groups: seq<Sub>, first: Id, second: Id) {
    && Inv(w) && Phase(w, d0, groups, NOTHING_YET) && |groups| == 2 && w.held == []
    && w.plan.wave.Some? && w.plan.wave.value.firstAt.None?
    && w.plan.nextGroup == 2 && w.plan.searchOf == map[] && w.plan.exhausted == {}
    && first in w.plan.live.at && w.plan.live.at[first] == groups[0]
    && second in w.plan.live.at && w.plan.live.at[second] == groups[1]
  }

  lemma OneFound(p: Plan, x: string)
    requires IsQueryable(x) && x !in p.properties
    ensures AddProperties(p, [x])
      == (p.(properties := p.properties + [x], nextGroup := p.nextGroup + 1), [Group(State(p.nextGroup), [x])])
  {
    var known := Elements(p.properties);
    assert [x][1..] == [];
    assert Fresh([x], known) == [x] + Fresh([], known + {x}) == [x];
    assert Chunks([x], MAX_GROUP_SIZE) == [[x]];
    assert StateGroups([[x]], p.nextGroup) == [Group(State(p.nextGroup), [x])];
  }

  /** Its group is handed out and subscribed. */
  lemma FoundSubscribed(w: World, x: string)
    requires Inv(w) && w.held == [] && IsQueryable(x) && x !in w.plan.properties
    ensures var w1 := Next(w, Discovery([x])); var w2 := Next(w1, Activation(0));
      && w1.held == [Group(State(w.plan.nextGroup), [x])]
      && w2.plan == Activate(AddProperties(w.plan, [x]).0, Group(State(w.plan.nextGroup), [x])).0
  {
    OneFound(w.plan, x);
  }

  /** A group of one name that is in no search, refused outside the wave: its name is booked, and
      the wave stands. */
  lemma AloneRefusal(w: World, d0: Dict<string, int>, groups: seq<Sub>, a: Account, id: Id, x: string, now: int)
    requires Inv(w) && Phase(w, d0, groups, a) && w.plan.searchOf == map[] && w.plan.exhausted == {}
    requires id in w.plan.live.at && w.plan.live.at[id] == Group(State(|groups|), [x])
    ensures Quiet(w, Refusal(id, now))
    ensures Booked(w, Refusal(id, now), groups, a).otherDrops == AddName(a.otherDrops, x)
    ensures var w2 := Next(w, Refusal(id, now));
      && w2.plan.live == w.plan.live.Remove(id) && Judging(w2.plan, groups, WaveIn(w.plan).value)
      && w2.plan.exhausted == {}
  {
    var sub := w.plan.live.at[id];
    var p1 := w.plan.(live := w.plan.live.Remove(id));
    PlainPhase(w, d0, groups, a);
    WaveKey(groups, State(|groups|));
    InGroups(groups, sub);
    assert Quiet(w, Refusal(id, now)) && WaveFor(p1, sub.key, now) == (p1, None);
    hide Phase, Inv, Quiet, Search, Judging, WaveFor, SearchesFree, AllFree;
    OtherRefusal(w, d0, groups, a, id, now);
    FirstSearch(p1, sub, now);
    assert Rejected(w.plan, id, now) == GroupRejected(p1, sub, now) == Search(p1, sub, now);
    hide Rejected, GroupRejected;
    NextPlan(w, id, now);
  }


  /** The found field is live, and the wave as it was. */
  ghost predicate FieldLive(w: World, d0: Dict<string, int>, groups: seq<Sub>, first: Id, second: Id, id: Id, x: string) {
    && Inv(w) && Phase(w, d0, groups, NOTHING_YET) && |groups| == 2
    && w.plan.wave.Some? && w.plan.wave.value.firstAt.None? && w.plan.searchOf == map[] && w.plan.exhausted == {}
    && first in w.plan.live.at && w.plan.live.at[first] == groups[0]
    && second in w.plan.live.at && w.plan.live.at[second] == groups[1]
    && id in w.plan.live.at && w.plan.live.at[id] == Group(State(2), [x])
  }

  lemma FieldFound(w: World, d0: Dict<string, int>, groups: seq<Sub>, first: Id, second: Id, x: string)
    requires JustStarted(w, d0, groups, first, second) && IsQueryable(x) && x !in w.plan.properties
    ensures FieldLive(Next(Next(w, Discovery([x])), Activation(0)), d0, groups, first, second, Id(State(2), w.plan.nextId), x)
  {
    var e1, e2 := Discovery([x]), Activation(0);
    var w1 := Next(w, e1);
    hide Phase, Step, AddProperties, Booked;
    OneFound(w.plan, x);
    FoundSubscribed(w, x);
    assert IdsSound(w.plan, w.dead);
    hide Inv;
    InvOk(w);
    InvOk(w1);
    assert Quiet(w, e1) && Quiet(w1, e2);
    NotBooked(w, e1, groups, NOTHING_YET);
    NotBooked(w1, e2, groups, NOTHING_YET);
    QuietKeepsPhase(w, e1, d0, groups, NOTHING_YET);
    QuietKeepsPhase(w1, e2, d0, groups, NOTHING_YET);
  }

  /** Its refusal leaves the wave open, and its groups live. */
  lemma FieldGone(w: World, d0: Dict<string, int>, groups: seq<Sub>, first: Id, second: Id, found: Id, x: string)
    requires FieldLive(w, d0, groups, first, second, found, x)
    ensures var e := Refusal(found, 0);
      Quiet(w, e) && Booked(w, e, groups, NOTHING_YET).otherDrops == [x]
    ensures var next := Next(w, Refusal(found, 0));
      && next.plan.wave == w.plan.wave && next.plan.exhausted == {}
      && first in next.plan.live.at && next.plan.live.at[first] == groups[0]
      && second in next.plan.live.at && next.plan.live.at[second] == groups[1]
  {
    assert Numbered(groups);
    hide Phase, Inv, Judging, Booked, Quiet;
    AloneRefusal(w, d0, groups, NOTHING_YET, found, x, 0);
    NotRejected(w, d0, groups, NOTHING_YET, 1, second);
    OneOfTwo(Next(w, Refusal(found, 0)).plan, groups, w.plan.wave.value, 1);
    assert groups[0].key == State(0) && groups[1].key == State(1);
  }

  /** It is refused, and then the wave. */
  lemma FieldThenWave(w: World, d0: Dict<string, int>, groups: seq<Sub>, first: Id, second: Id, found: Id, x: string)
    returns (events: seq<Event>, id: Id, at: int)
    requires FieldLive(w, d0, groups, first, second, found, x)
    ensures QuietRun(w, events) && CanaryDecides(Run(w, events).plan, id, at)
    ensures Accounted(w, events, groups, NOTHING_YET).otherDrops == [x]
  {
    var e := Refusal(found, 0);
    assert w.plan.Ok();
    hide Inv, Phase, Booked, Quiet;
    FieldGone(w, d0, groups, first, second, found, x);
    QuietKeepsPhase(w, e, d0, groups, NOTHING_YET);
    var rest;
    rest, id, at := BothRefused(Next(w, e), d0, groups, Booked(w, e, groups, NOTHING_YET), first, second);
    events := [e] + rest;
    QuietFirst(w, e, rest, groups, NOTHING_YET);
  }

  lemma FieldRefused(w: World, d0: Dict<string, int>, groups: seq<Sub>, first: Id, second: Id, x: string)
    returns (events: seq<Event>, id: Id, at: int)
    requires JustStarted(w, d0, groups, first, second) && IsQueryable(x) && x !in w.plan.properties
    ensures QuietRun(w, events) && CanaryDecides(Run(w, events).plan, id, at)
    ensures Accounted(w, events, groups, NOTHING_YET).otherDrops == [x]
  {
    hide Phase, Step, Booked, Run, Accounted, QuietRun;
    var e1, e2 := Discovery([x]), Activation(0);
    var w1 := Next(w, e1);
    var w2 := Next(w1, e2);
    FieldFound(w, d0, groups, first, second, x);
    NotBooked(w, e1, groups, NOTHING_YET);
    NotBooked(w1, e2, groups, NOTHING_YET);
    hide Inv;
    var rest;
    rest, id, at := FieldThenWave(w2, d0, groups, first, second, Id(State(2), w.plan.nextId), x);
    events := [e1] + ([e2] + rest);
    QuietFirst(w1, e2, rest, groups, NOTHING_YET);
    QuietFirst(w, e1, [e2] + rest, groups, NOTHING_YET);
  }

  // ----- the probe that was too early ----------------------------------------------------

  /** The key belongs to the search `l`. */
  predicate Tracked(p: Plan, k: Key, l: Lineage) {
    k in p.searchOf && p.searchOf[k] < |p.searches| && p.searches[p.searchOf[k]] == l
  }

  /** A group of two that is in no search is halved: each name alone, in one new search. */
  lemma Halved(p: Plan, sub: Sub, x: string, y: string, now: int)
    requires p.Wired() && IsGroup(sub) && sub.key !in p.searchOf && sub.names == [x, y]
    ensures var (q, r) := Search(p, sub, now);
      && r.probes == [Group(State(p.nextGroup), [x]), Group(State(p.nextGroup + 1), [y])]
      && Tracked(q, State(p.nextGroup), Lineage(sub, [], now)) && q.nextGroup == p.nextGroup + 2
  {
    assert sub.names[..1] == [x] && sub.names[1..] == [y];
  }

  /** The search of another group leaves a search that is under way as it was. */
  lemma StaysTracked(p: Plan, sub: Sub, now: int, k: Key, l: Lineage)
    requires p.Wired() && IsGroup(sub) && sub.key !in p.searchOf
    requires Tracked(p, k, l) && k.State? && k.n < p.nextGroup
    ensures Tracked(Search(p, sub, now).0, k, l)
  {
  }

  /** What a rejection outside the verdicts leaves of searches is what the search leaves. */
  lemma SearchedIs(p: Plan, sub: Sub, now: int)
    requires p.Wired() && sub.Group?
    ensures var (q, r) := GroupRejected(p, sub, now); var (searched, sr) := Search(WaveFor(p, sub.key, now).0, sub, now);
      && q.searchOf == searched.searchOf && q.searches == searched.searches && q.nextGroup == searched.nextGroup
      && r == sr.(canary := r.canary) && q.exhausted == searched.exhausted && q.dropped == searched.dropped
  {
    hide Search, WaveFor;
  }

  /** The second group, of two names, is refused at 0: its halves are held and searched. */
  lemma SecondHalved(w: World, d0: Dict<string, int>, groups: seq<Sub>, first: Id, second: Id, x: string, y: string)
    requires JustStarted(w, d0, groups, first, second) && groups[1].names == [x, y]
    ensures var next := Next(w, Refusal(second, 0));
      && Group(State(2), [x]) in next.held && Tracked(next.plan, State(2), Lineage(groups[1], [], 0))
      && next.plan.nextGroup == 4
  {
    var p := w.plan.(live := w.plan.live.Remove(second));
    assert groups[1].key == State(1);
    assert w.plan.faulted == {};
    assert Rejected(w.plan, second, 0) == GroupRejected(p, groups[1], 0);
    SearchedIs(p, groups[1], 0);
    WaveForFrame(p, groups[1].key, 0);
    Halved(WaveFor(p, groups[1].key, 0).0, groups[1], x, y, 0);
    var r := Rejected(w.plan, second, 0).1;
    hide Phase, Inv, Rejected, GroupRejected, Search, WaveFor;
    assert Withdrawn(r) == [];
    RefusalStep(w, second, 0);
    assert r.probes[0] in r.probes && r.probes[0] in HandedBack(r);
  }

  /** In the phase there is no verdict on documents, and only keys past the wave's are searched. */
  lemma PlainPhase(w: World, d0: Dict<string, int>, groups: seq<Sub>, a: Account)
    requires Phase(w, d0, groups, a)
    ensures w.plan.Ok() && w.plan.faulted == {} && Numbered(groups)
    ensures forall k | k in w.plan.searchOf :: k.State? && |groups| <= k.n
  {
  }

  /** Another group is refused: a search that is under way stays as it was. */
  lemma RefusalKeepsSearch(p: Plan, id: Id, now: int, k: Key, l: Lineage)
    requires p.Wired() && p.faulted == {} && p.exhausted == {}
    requires id in p.live.at && IsGroup(p.live.at[id]) && p.live.at[id].key !in p.searchOf
    requires Tracked(p, k, l) && k.State? && k.n < p.nextGroup
    ensures Tracked(Rejected(p, id, now).0, k, l)
  {
    var q, sub := p.(live := p.live.Remove(id)), p.live.at[id];
    assert Rejected(p, id, now) == GroupRejected(q, sub, now);
    hide Rejected, GroupRejected, Search;
    SearchedIs(q, sub, now);
    WaveForFrame(q, sub.key, now);
    StaysTracked(WaveFor(q, sub.key, now).0, sub, now, k, l);
  }

  /** The canary decides, a half of the second group is live, and its search is under way. */
  ghost predicate ProbeLive(w: World, d0: Dict<string, int>, groups: seq<Sub>, a: Account, probe: Id, id: Id, x: string) {
    && Inv(w) && Phase(w, d0, groups, a) && |groups| == 2 && w.plan.exhausted == {} && a.otherDrops == []
    && |groups[1].names| == 2 && groups[1].Group?
    && CanaryDecides(w.plan, id, 40_000) && w.plan.wave.None?
    && probe in w.plan.live.at && w.plan.live.at[probe] == Group(State(2), [x])
    && Tracked(w.plan, State(2), Lineage(groups[1], [], 0))
  }

  /** The probe's refusal at 31 s drops its name, which no verdict takes back. */
  lemma ProbeRefused(w: World, d0: Dict<string, int>, groups: seq<Sub>, a: Account, probe: Id, id: Id, x: string)
    requires ProbeLive(w, d0, groups, a, probe, id, x)
    ensures var e := Refusal(probe, 31_000);
      && Quiet(w, e) && Booked(w, e, groups, a).otherDrops == [x]
      && CanaryDecides(Next(w, e).plan, id, 40_000)
  {
    hide Phase, Inv;
    PlainPhase(w, d0, groups, a);
    InGroups(groups, w.plan.live.at[probe]);
    OutOfWindow(w, d0, groups, a);
    hide Rejected, Step, Judging;
    RejectedLone(w.plan, probe, 31_000, Lineage(groups[1], [], 0), x);
    ProbeBooked(w, groups, a, probe, x, 31_000);
    NextPlan(w, probe, 31_000);
  }

  lemma NextPlan(w: World, id: Id, now: int)
    requires Inv(w)
    ensures Next(w, Refusal(id, now)).plan == Rejected(w.plan, id, now).0
  {
    hide Rejected, Inv;
  }

  lemma OutOfWindow(w: World, d0: Dict<string, int>, groups: seq<Sub>, a: Account)
    requires Phase(w, d0, groups, a)
    ensures InWindow(w.plan, State(|groups|), 31_000)
  {
    WaveKey(groups, State(|groups|));
  }

  lemma RejectedLone(p: Plan, id: Id, now: int, l: Lineage, x: string)
    requires p.Wired() && p.faulted == {} && p.exhausted == {} && p.wave.None?
    requires id in p.live.at && IsGroup(p.live.at[id]) && p.live.at[id].names == [x]
    requires Tracked(p, p.live.at[id].key, l)
    requires l.rejected == [] && l.group.Group? && |l.group.names| == 2 && now - l.lastAt <= LINEAGE_WINDOW_MS
    ensures var (q, r) := Rejected(p, id, now);
      r.fault.None? && q.pendingCanary == p.pendingCanary && q.live == p.live.Remove(id)
  {
    var q, sub := p.(live := p.live.Remove(id)), p.live.at[id];
    hide Search;
    assert Rejected(p, id, now) == GroupRejected(q, sub, now) == Search(q, sub, now);
    LoneDrop(q, sub, now, l, x);
  }


  lemma ProbeBooked(w: World, groups: seq<Sub>, a: Account, probe: Id, x: string, now: int)
    requires w.plan.Ok() && probe in w.plan.live.at && w.plan.live.at[probe] == Group(State(2), [x])
    requires Group(State(2), [x]) !in groups && w.plan.exhausted == {} && a.otherDrops == []
    requires Rejected(w.plan, probe, now).1.fault.None?
    ensures Booked(w, Refusal(probe, now), groups, a).otherDrops == [x]
  {
    hide Rejected;
    assert AddName([], x) == [x];
  }

  /** A name refused alone in a search of two that knew none bad is dropped. */
  lemma LoneDrop(p: Plan, sub: Sub, now: int, l: Lineage, x: string)
    requires p.Wired() && sub.Group? && sub.names == [x] && Tracked(p, sub.key, l)
    requires l.rejected == [] && l.group.Group? && |l.group.names| == 2 && now - l.lastAt <= LINEAGE_WINDOW_MS
    ensures var (q, r) := Search(p, sub, now);
      r.fault.None? && q.pendingCanary == p.pendingCanary && q.live == p.live
  {
    assert AddName([], x) == [x];
  }

  /** The second group at 0 and the first at 20 s: the wave is complete, and the halves searched. */
  lemma TwoRefused(w: World, d0: Dict<string, int>, groups: seq<Sub>, first: Id, second: Id, x: string, y: string)
    requires JustStarted(w, d0, groups, first, second) && groups[1].names == [x, y]
    ensures var e1, e2 := Refusal(second, 0), Refusal(first, 20_000);
      var w1, a1 := Next(w, e1), Booked(w, e1, groups, NOTHING_YET);
      var w2, a2 := Next(w1, e2), Booked(w1, e2, groups, a1);
      && Quiet(w, e1) && Quiet(w1, e2) && Phase(w2, d0, groups, a2) && a2.otherDrops == [] && w2.plan.exhausted == {}
      && w2.plan.pendingCanary.Some? && w2.plan.pendingCanary.value.at == 20_000 && w2.plan.wave.None?
      && CANARY_SUB in w2.held && Group(State(2), [x]) in w2.held
      && Tracked(w2.plan, State(2), Lineage(groups[1], [], 0))
  {
    var e1, e2 := Refusal(second, 0), Refusal(first, 20_000);
    hide Phase, Inv, Rejected, Quiet, Step, Booked, Judging, HandedBack, Tracked;
    PlainPhase(w, d0, groups, NOTHING_YET);
    assert groups[0].key == State(0) && groups[1].key == State(1);
    OneRefused(w, d0, groups, NOTHING_YET, 1, second, first, 0);
    SecondHalved(w, d0, groups, first, second, x, y);
    var w1, a1 := Next(w, e1), Booked(w, e1, groups, NOTHING_YET);
    PlainPhase(w1, d0, groups, a1);
    assert InWindow(w1.plan, State(0), 20_000);
    OtherRefused(w1, d0, groups, a1, 1, first, 20_000);
    RefusalKeepsSearch(w1.plan, first, 20_000, State(2), Lineage(groups[1], [], 0));
  }

  lemma InvOk(w: World)
    requires Inv(w)
    ensures w.plan.Ok()
  {
  }

  /** From a restart: the second group at 0, the first at 20 s, the canary, and the probe. */
  lemma UpToTheProbe(w: World, d0: Dict<string, int>, groups: seq<Sub>, first: Id, second: Id, x: string, y: string)
    returns (e3: Event, e4: Event, probe: Id, id: Id)
    requires JustStarted(w, d0, groups, first, second) && groups[1].names == [x, y]
    ensures var e1, e2 := Refusal(second, 0), Refusal(first, 20_000);
      var w1, a1 := Next(w, e1), Booked(w, e1, groups, NOTHING_YET);
      var w2, a2 := Next(w1, e2), Booked(w1, e2, groups, a1);
      var w3 := Next(w2, e3);
      var w4 := Next(w3, e4);
      && Quiet(w, e1) && Quiet(w1, e2) && Quiet(w2, e3) && Quiet(w3, e4)
      && Booked(w2, e3, groups, a2) == a2 && Booked(w3, e4, groups, a2) == a2
      && ProbeLive(w4, d0, groups, a2, probe, id, x)
  {
    var e1, e2 := Refusal(second, 0), Refusal(first, 20_000);
    hide Phase, Inv, Rejected, Quiet, Step, Booked, Judging, HandedBack;
    PlainPhase(w, d0, groups, NOTHING_YET);
    assert groups[1].Group?;
    TwoRefused(w, d0, groups, first, second, x, y);
    InvOk(Next(w, e1));
    var w1, a1 := Next(w, e1), Booked(w, e1, groups, NOTHING_YET);
    var w2, a2 := Next(w1, e2), Booked(w1, e2, groups, a1);
    e3, e4, probe := BothSubscribed(w2, d0, groups, a2, Group(State(2), [x]));
    id := Id(Canary, w2.plan.nextId);
  }

  /** Something held is subscribed. */
  lemma Subscribed(w: World, d0: Dict<string, int>, groups: seq<Sub>, a: Account, sub: Sub) returns (e: Event)
    requires Inv(w) && Phase(w, d0, groups, a) && sub in w.held
    ensures Quiet(w, e) && Booked(w, e, groups, a) == a && Phase(Next(w, e), d0, groups, a)
    ensures var next := Next(w, e); var id := Id(sub.Key(), w.plan.nextId);
      && next.plan == w.plan.(live := w.plan.live.Put(id, sub), nextId := w.plan.nextId + 1)
      && (forall s | s in w.held && s != sub :: s in next.held)
  {
    var i :| 0 <= i < |w.held| && w.held[i] == sub;
    e := Activation(i);
    hide Phase, Inv, Booked, Step;
    InvOk(w);
    NotBooked(w, e, groups, a);
    QuietKeepsPhase(w, e, d0, groups, a);
    ActivationIs(w, i);
  }

  lemma ActivationIs(w: World, i: nat)
    requires w.plan.Ok() && i < |w.held|
    ensures var sub := w.held[i]; var next := Step(w, Activation(i));
      && next.plan == w.plan.(live := w.plan.live.Put(Id(sub.Key(), w.plan.nextId), sub), nextId := w.plan.nextId + 1)
      && (forall s | s in w.held && s != sub :: s in next.held)
  {
    assert w.held == w.held[..i] + [w.held[i]] + w.held[i + 1..];
  }

  /** The canary and then a probe subscribed. */
  lemma BothSubscribed(w: World, d0: Dict<string, int>, groups: seq<Sub>, a: Account, sub: Sub)
    returns (e3: Event, e4: Event, probe: Id)
    requires Inv(w) && Phase(w, d0, groups, a) && w.plan.pendingCanary.Some? && CANARY_SUB in w.held
    requires sub in w.held && IsGroup(sub)
    ensures Quiet(w, e3) && Booked(w, e3, groups, a) == a && Quiet(Next(w, e3), e4) && Booked(Next(w, e3), e4, groups, a) == a
    ensures var w4 := Next(Next(w, e3), e4);
      && Phase(w4, d0, groups, a)
      && w4.plan == w.plan.(live := w4.plan.live, nextId := w4.plan.nextId)
      && probe in w4.plan.live.at && w4.plan.live.at[probe] == sub
      && var id := Id(Canary, w.plan.nextId); id in w4.plan.live.at && w4.plan.live.at[id] == CANARY_SUB
  {
    hide Phase, Inv, Quiet, Step, Booked;
    e3 := Subscribed(w, d0, groups, a, CANARY_SUB);
    var w3 := Next(w, e3);
    e4 := Subscribed(w3, d0, groups, a, sub);
    probe := Id(sub.key, w3.plan.nextId);
  }

  lemma ProbeRun(w: World, d0: Dict<string, int>, groups: seq<Sub>, first: Id, second: Id, x: string, y: string)
    returns (events: seq<Event>, id: Id)
    requires JustStarted(w, d0, groups, first, second) && groups[1].names == [x, y]
    ensures QuietRun(w, events) && CanaryDecides(Run(w, events).plan, id, 40_000)
    ensures Accounted(w, events, groups, NOTHING_YET).otherDrops == [x]
  {
    var e1, e2 := Refusal(second, 0), Refusal(first, 20_000);
    var e3, e4, probe;
    e3, e4, probe, id := UpToTheProbe(w, d0, groups, first, second, x, y);
    var w1, a1 := Next(w, e1), Booked(w, e1, groups, NOTHING_YET);
    var w2, a2 := Next(w1, e2), Booked(w1, e2, groups, a1);
    var w3 := Next(w2, e3);
    var w4 := Next(w3, e4);
    var e5 := Refusal(probe, 31_000);
    ProbeRefused(w4, d0, groups, a2, probe, id, x);
    hide Phase, Inv, Quiet, Step, Booked, ProbeLive;
    events := [e1] + ([e2] + ([e3] + ([e4] + ([e5] + []))));
    QuietFirst(w4, e5, [], groups, a2);
    QuietFirst(w3, e4, [e5] + [], groups, a2);
    QuietFirst(w2, e3, [e4] + ([e5] + []), groups, a2);
    QuietFirst(w1, e2, [e3] + ([e4] + ([e5] + [])), groups, a1);
    QuietFirst(w, e1, [e2] + ([e3] + ([e4] + ([e5] + []))), groups, NOTHING_YET);
  }

  // ----- over whole runs -----------------------------------------------------------------

  /** A plan with two groups, just restarted. */
  lemma RestartedFresh(properties: seq<string>, dropped: seq<string>, now: int, before: seq<Event>)
    returns (first: Id, second: Id)
    requires |InitialGroups(After(properties, dropped, now, before).plan)| == 2
    ensures var p := After(properties, dropped, now, before).plan;
      var start := Restarted(properties, dropped, now, before);
      JustStarted(start, p.dropped, InitialGroups(p), first, second) && start.plan.properties == p.properties
  {
    var w := After(properties, dropped, now, before);
    var start, groups := Restarted(properties, dropped, now, before), InitialGroups(w.plan);
    AlwaysKnown(properties, dropped, now, before);
    assert w.plan.Ok() && start == Step(w, Start);
    hide Inv, Phase, InitialGroups;
    PhaseBegins(w);
    first := StartHas(w, 0);
    second := StartHas(w, 1);
    StartIsBlank(w);
  }

  lemma StartHas(w: World, i: nat) returns (id: Id)
    requires w.plan.Ok() && i < |InitialGroups(w.plan)|
    ensures var p := Step(w, Start).plan; id in p.live.at && p.live.at[id] == InitialGroups(w.plan)[i]
  {
    var p := w.plan;
    assert InitialSubs(p)[i] == InitialGroups(p)[i];
    assert Step(w, Start).plan == ActivateAll(Forgotten(p), InitialSubs(p));
    hide InitialSubs, InitialGroups, Step, Forgotten, ActivateAll;
    id := Id(InitialSubs(p)[i].Key(), p.nextId + i);
    ActivateAllHas(Forgotten(p), InitialSubs(p), i);
  }

  lemma StartIsBlank(w: World)
    requires w.plan.Ok() && |InitialGroups(w.plan)| == 2
    ensures var w2 := Step(w, Start);
      && w2.held == [] && w2.plan.properties == w.plan.properties
      && w2.plan.wave.Some? && w2.plan.wave.value.firstAt.None?
      && w2.plan.nextGroup == 2 && w2.plan.searchOf == map[] && w2.plan.exhausted == {}
  {
    StartValues(w.plan);
  }

  /** NOT EVERYTHING IS TAKEN BACK: whatever ran before, a restart with two groups and any new
      field end in a document fault that leaves the field dropped, though no field was bad. */
  lemma DiscoveredFieldStaysDropped(properties: seq<string>, dropped: seq<string>, now: int, before: seq<Event>, x: string)
    returns (events: seq<Event>, id: Id, at: int)
    requires |InitialGroups(After(properties, dropped, now, before).plan)| == 2
    requires IsQueryable(x) && x !in After(properties, dropped, now, before).plan.properties
    ensures QuietRun(Restarted(properties, dropped, now, before), events)
    ensures CanaryDecides(Run(Restarted(properties, dropped, now, before), events).plan, id, at)
    ensures Rejected(Run(Restarted(properties, dropped, now, before), events).plan, id, at).0.dropped.keys
      == After(properties, dropped, now, before).plan.dropped.keys + [x]
  {
    var p := After(properties, dropped, now, before).plan;
    var start := Restarted(properties, dropped, now, before);
    var first, second := RestartedFresh(properties, dropped, now, before);
    hide Inv, Phase;
    events, id, at := FieldRefused(start, p.dropped, InitialGroups(p), first, second, x);
    DocumentFaultIsUndone(properties, dropped, now, before, events, id, at);
  }

  /** NOT EVEN WITHOUT DISCOVERY: whatever ran before, a restart with two groups, the second of two
      names, and a probe that is subscribed 30 s after its group was refused and is refused before
      the canary is: 40 s from the restart its name stays dropped, though no field was bad. */
  lemma ProbeStaysDropped(properties: seq<string>, dropped: seq<string>, now: int, before: seq<Event>)
    returns (events: seq<Event>, id: Id)
    requires var groups := InitialGroups(After(properties, dropped, now, before).plan);
      |groups| == 2 && groups[1].Group? && |groups[1].names| == 2
    ensures QuietRun(Restarted(properties, dropped, now, before), events)
    ensures CanaryDecides(Run(Restarted(properties, dropped, now, before), events).plan, id, 40_000)
    ensures var p := After(properties, dropped, now, before).plan; var groups := InitialGroups(p);
      && groups[1].Group? && |groups[1].names| == 2
      && Rejected(Run(Restarted(properties, dropped, now, before), events).plan, id, 40_000).0.dropped.keys
           == p.dropped.keys + [groups[1].names[0]]
  {
    hide Inv, Phase, InitialGroups, After, Restarted, Accounted, Run, Rejected, QuietRun;
    var p := After(properties, dropped, now, before).plan;
    var start := Restarted(properties, dropped, now, before);
    var names := InitialGroups(p)[1].names;
    assert names == [names[0], names[1]];
    var first, second := RestartedFresh(properties, dropped, now, before);
    events, id := ProbeRun(start, p.dropped, InitialGroups(p), first, second, names[0], names[1]);
    DocumentFaultIsUndone(properties, dropped, now, before, events, id, 40_000);
  }

  /** The first `n` letters, as names. */
  function Letters(n: nat): seq<string>
    requires n <= 26
  {
    seq(n, i requires 0 <= i < n => [Letter(i)])
  }

  function Letter(i: nat): char
    requires i < 26
  {
    'a' + i as char
  }

  lemma {:induction false} UniqueAll(names: seq<string>, seen: set<string>)
    requires Distinct(names) && forall x | x in names :: x !in seen
    ensures Unique(names, seen) == names
  {
    if names != [] {
      DistinctParts([names[0]], names[1..]);
      assert names == [names[0]] + names[1..];
      UniqueAll(names[1..], seen + {names[0]});
    }
  }

  lemma {:induction false} QueryableAll(names: seq<string>)
    requires forall x | x in names :: IsQueryable(x)
    ensures Queryable(names) == names
  {
    if names != [] {
      QueryableAll(names[1..]);
    }
  }

  /** A new plan for different, queryable names knows them in order and has dropped none. */
  lemma NewOf(names: seq<string>, now: int)
    requires Distinct(names) && forall x | x in names :: IsQueryable(x)
    ensures New(names, [], now).properties == names && New(names, [], now).dropped == EmptyDict()
  {
    var none: seq<string> := [];
    assert Queryable(Unique(none, {})) == none;
    assert Saved(none, now, 0).0 == EmptyDict();
    assert names + none == names;
    QueryableAll(names);
    UniqueAll(names, {});
  }

  /** Its restart subscribes one group for each sixteen names begun. */
  lemma GroupsOfNew(names: seq<string>, now: int)
    requires Distinct(names) && forall x | x in names :: IsQueryable(x)
    ensures var p := After(names, [], now, []).plan;
      && p.properties == names && p.dropped.keys == [] && |InitialGroups(p)| == (|names| + 15) / 16
      && InitialGroups(p) == StateGroups(Chunks(names, MAX_GROUP_SIZE), 0)
  {
    var p := New(names, [], now);
    NewOf(names, now);
    NewKnows(names, [], now);
    StartEstablishes(Fresh0(names, [], now));
    StartValues(p);
    NothingDropped(names, map[]);
    ChunkCount(names);
    assert After(names, [], now, []).plan == Initial(p).0;
  }

  lemma LettersAreNames(n: nat)
    requires n <= 26
    ensures |Letters(n)| == n && Distinct(Letters(n))
    ensures forall x | x in Letters(n) :: IsQueryable(x) && |x| == 1
  {
    var letters := Letters(n);
    forall i, j | 0 <= i < j < |letters| ensures letters[i] != letters[j] {
      assert letters[i][0] == Letter(i) && letters[j][0] == Letter(j);
    }
    forall x | x in letters ensures IsQueryable(x) && |x| == 1 {
      var i :| 0 <= i < |letters| && letters[i] == x;
      assert x == [Letter(i)];
    }
  }

  lemma FieldOfNew(names: seq<string>, now: int, field: string) returns (events: seq<Event>, id: Id, at: int)
    requires |names| == 17 && Distinct(names) && forall x | x in names :: IsQueryable(x)
    requires IsQueryable(field) && field !in names
    ensures QuietRun(Restarted(names, [], now, []), events)
    ensures CanaryDecides(Run(Restarted(names, [], now, []), events).plan, id, at)
    ensures Rejected(Run(Restarted(names, [], now, []), events).plan, id, at).0.dropped.keys == [field]
  {
    GroupsOfNew(names, now);
    hide *;
    events, id, at := DiscoveredFieldStaysDropped(names, [], now, [], field);
  }

  lemma FieldIsName(field: string)
    requires field == "zz"
    ensures |field| == 2 && IsQueryable(field)
  {
  }

  /** In figures: seventeen good names, and an eighteenth that discovery finds. */
  lemma OneFieldOfEighteen() returns (events: seq<Event>, id: Id, at: int)
    ensures QuietRun(Restarted(Letters(17), [], 0, []), events)
    ensures CanaryDecides(Run(Restarted(Letters(17), [], 0, []), events).plan, id, at)
    ensures Rejected(Run(Restarted(Letters(17), [], 0, []), events).plan, id, at).0.dropped.keys == ["zz"]
  {
    LettersAreNames(17);
    FieldIsName("zz");
    hide *;
    events, id, at := FieldOfNew(Letters(17), 0, "zz");
  }

  lemma ProbeOfNew(names: seq<string>, now: int) returns (events: seq<Event>, id: Id)
    requires |names| == 18 && Distinct(names) && forall x | x in names :: IsQueryable(x)
    ensures QuietRun(Restarted(names, [], now, []), events)
    ensures CanaryDecides(Run(Restarted(names, [], now, []), events).plan, id, 40_000)
    ensures Rejected(Run(Restarted(names, [], now, []), events).plan, id, 40_000).0.dropped.keys == [names[16]]
  {
    GroupsOfNew(names, now);
    LastGroup(names);
    hide *;
    events, id := ProbeStaysDropped(names, [], now, []);
  }

  /** Eighteen names make a group of sixteen and one of two. */
  lemma LastGroup(names: seq<string>)
    requires |names| == 18
    ensures var groups := StateGroups(Chunks(names, MAX_GROUP_SIZE), 0);
      |groups| == 2 && groups[1].Group? && groups[1].names == [names[16], names[17]]
  {
    assert names[16..] == [names[16], names[17]];
    assert Chunks(names[16..], MAX_GROUP_SIZE) == [names[16..]];
  }

  /** In figures: eighteen good names, `a` to `r`. */
  lemma OneProbeOfEighteen() returns (events: seq<Event>, id: Id)
    ensures QuietRun(Restarted(Letters(18), [], 0, []), events)
    ensures CanaryDecides(Run(Restarted(Letters(18), [], 0, []), events).plan, id, 40_000)
    ensures Rejected(Run(Restarted(Letters(18), [], 0, []), events).plan, id, 40_000).0.dropped.keys == ["q"]
  {
    LettersAreNames(18);
    SeventeenthIs(Letters(18));
    hide *;
    events, id := ProbeOfNew(Letters(18), 0);
  }

  lemma SeventeenthIs(names: seq<string>)
    requires names == Letters(18)
    ensures |names| == 18 && names[16] == "q"
  {
    assert names[16] == [Letter(16)];
  }
}
