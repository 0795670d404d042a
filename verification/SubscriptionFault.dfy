/** When it was the documents and not the fields, everything the wave's search did is taken back. */
module SubscriptionFault {
  import opened Catalogue
  import opened Collections
  import opened SubscriptionModel
  import opened SubscriptionRuns
  import opened SubscriptionSafety
  import opened SubscriptionSearch
  import opened SubscriptionWave

  // ----- names are known before they are dropped -----------------------------------------

  /** The known names are different names; what is dropped or was ever asked for is known. */
  ghost predicate Known(w: World) {
    && Distinct(w.plan.properties)
    && (forall x | x in w.plan.dropped.at :: x in w.plan.properties)
    && NamesKnown(w.made, w.plan.properties)
  }

  ghost predicate NamesKnown(made: map<nat, seq<string>>, known: seq<string>) {
    forall n, x | n in made && x in made[n] :: x in known
  }

  lemma {:induction false} LearnKnown(made: map<nat, seq<string>>, subs: seq<Sub>, known: seq<string>)
    requires NamesKnown(made, known)
    requires forall s, x | s in subs && Asks(s, x) :: x in known
    ensures NamesKnown(Learn(made, subs), known)
    decreases |subs|
  {
    if subs != [] {
      assert subs[0] in subs;
      assert subs[0].Group? && subs[0].key.State? ==> forall x | x in subs[0].names :: Asks(subs[0], x);
      LearnKnown(
        if subs[0].Group? && subs[0].key.State? then made[subs[0].key.n := subs[0].names] else made,
        subs[1..], known);
    }
  }

  /** A search drops and asks for names of the group it searches, and no others. */
  lemma SearchNames(p: Plan, sub: Sub, now: int)
    requires p.Ok() && sub.Group?
    ensures var (q, r) := Search(p, sub, now);
      && (forall x | x in q.dropped.at :: x in p.dropped.at || x in sub.names)
      && (forall s, x | s in r.probes && Asks(s, x) :: x in sub.names)
  {
    var (q, lineage) := LineageOf(p, sub.key, now);
    if |sub.names| == 1 && lineage.Some? {
      var h, name := lineage.value, sub.names[0];
      RemoveAllEffect(q.dropped, Without(AddName(q.searches[h].rejected, name), name));
    }
  }

  lemma RejectedNames(p: Plan, id: Id, now: int)
    requires p.Ok() && id in p.live.at
    ensures var sub := p.live.at[id]; var (q, r) := Rejected(p, id, now);
      && q.properties == p.properties
      && (forall x | x in q.dropped.at :: x in p.dropped.at || (sub.Group? && sub.key != Canary && x in sub.names))
      && (forall s, x | s in r.probes && Asks(s, x) :: sub.Group? && sub.key != Canary && x in sub.names)
  {
    RemoveOk(p.live, id);
    var sub, q := p.live.at[id], p.(live := p.live.Remove(id));
    if sub.Group? {
      GroupRejectedNames(q, sub, now);
      CanaryRejectedNames(q, sub, now);
    }
    hide GroupRejected, CanaryRejected;
  }

  lemma CanaryRejectedNames(p: Plan, canary: Sub, now: int)
    requires p.Ok()
    ensures var (q, r) := CanaryRejected(p, canary, now);
      && q.properties == p.properties && r.probes == []
      && (forall x | x in q.dropped.at :: x in p.dropped.at)
  {
    if p.pendingCanary.Some? {
      RemoveAllEffect(p.dropped, DroppedOf(Values(p.pendingCanary.value.wave.rejected)));
    }
  }

  lemma GroupRejectedNames(p: Plan, sub: Sub, now: int)
    requires p.Ok() && sub.Group?
    ensures var (q, r) := GroupRejected(p, sub, now);
      && q.properties == p.properties
      && (forall x | x in q.dropped.at :: x in p.dropped.at || x in sub.names)
      && (forall s, x | s in r.probes && Asks(s, x) :: x in sub.names)
  {
    var (q, _) := WaveFor(p, sub.key, now);
    WaveForFrame(p, sub.key, now);
    SearchNames(q, sub, now);
    GroupRejectedFrame(p, sub, now);
  }

  lemma RefusalKeepsKnown(w: World, id: Id, now: int)
    requires Inv(w) && Known(w)
    ensures Known(Step(w, Refusal(id, now)))
  {
    if id in w.plan.live.at {
      var sub := w.plan.live.at[id];
      var r := Rejected(w.plan, id, now).1;
      RejectedNames(w.plan, id, now);
      assert InPool(w.plan, w.held, sub);
      assert Genuine(w.made, sub);
      hide Rejected, Inv;
      LearnKnown(w.made, r.probes, w.plan.properties);
    }
  }

  lemma DiscoveryKeepsKnown(w: World, names: seq<string>)
    requires w.plan.Ok() && Known(w)
    ensures Known(Step(w, Discovery(names)))
  {
    var found := Fresh(names, Elements(w.plan.properties));
    var (q, groups) := AddProperties(w.plan, names);
    FreshEffect(names, Elements(w.plan.properties));
    FoundGroups(w.plan, names);
    forall i, j | 0 <= i < j < |q.properties|
      ensures q.properties[i] != q.properties[j]
    {
      assert q.properties == w.plan.properties + found;
      if i < |w.plan.properties| <= j {
        assert q.properties[j] in found;
      }
    }
    LearnKnown(w.made, groups, q.properties);
  }

  /** What is tried again asks for dropped names alone. */
  lemma DueAsk(p: Plan, now: int, s: Sub, x: string)
    requires p.Ok() && (forall f | f in p.unavailable.at :: p.unavailable.at[f].sub == Single(f))
    requires s in DueForReprobe(p, now).1 && Asks(s, x)
    ensures x in p.dropped.at
  {
    var names := DueNames(p.dropped.keys, p.dropped.at, now);
    var kinds := DueKinds(p.unavailable.keys, p.unavailable.at, now);
    DueNamesEffect(p.dropped.keys, p.dropped.at, now);
    DueKindsEffect(p.unavailable.keys, p.unavailable.at, now);
    SubsOfEffect(p.unavailable, kinds);
    var groups := StateGroups(Alone(names), p.nextGroup);
    assert s in groups;
    var i :| 0 <= i < |groups| && groups[i] == s;
    assert s.names == [names[i]] && names[i] in names;
  }

  lemma ReprobeKeepsKnown(w: World, now: int)
    requires Inv(w) && Known(w)
    ensures Known(Step(w, Reprobe(now)))
  {
    var (q, due) := DueForReprobe(w.plan, now);
    RemoveAllEffect(w.plan.dropped, DueNames(w.plan.dropped.keys, w.plan.dropped.at, now));
    assert q.properties == w.plan.properties && forall x | x in q.dropped.at :: x in w.plan.dropped.at;
    forall s, x | s in due && Asks(s, x) ensures x in w.plan.properties {
      DueAsk(w.plan, now, s, x);
    }
    LearnKnown(w.made, due, w.plan.properties);
  }

  lemma StartKeepsKnown(w: World)
    requires w.plan.Ok() && Known(w)
    ensures Known(Step(w, Start))
  {
    StartValues(w.plan);
    InitialNames(w.plan);
    LearnKnown(map[], InitialGroups(w.plan), w.plan.properties);
  }

  lemma StepKeepsKnown(w: World, e: Event)
    requires Inv(w) && Known(w)
    ensures Known(Step(w, e))
  {
    match e
    case Start => StartKeepsKnown(w);
    case Refusal(id, now) => RefusalKeepsKnown(w, id, now);
    case Discovery(names) => DiscoveryKeepsKnown(w, names);
    case Reprobe(now) => ReprobeKeepsKnown(w, now);
    case _ =>
  }

  lemma {:induction false} RunKeepsKnown(w: World, events: seq<Event>)
    requires Inv(w) && Known(w)
    ensures Known(Run(w, events))
    decreases |events|
  {
    if events != [] {
      StepKeeps(w, events[0]);
      StepKeepsKnown(w, events[0]);
      RunKeepsKnown(Step(w, events[0]), events[1..]);
    }
  }

  /** Of a plan and its caller at any moment of any run. */
  lemma AlwaysKnown(properties: seq<string>, dropped: seq<string>, now: int, events: seq<Event>)
    ensures Known(After(properties, dropped, now, events))
  {
    var w := Fresh0(properties, dropped, now);
    NewKnows(properties, dropped, now);
    StartEstablishes(w);
    StartKeepsKnown(w);
    RunKeepsKnown(Step(w, Start), events);
  }

  // ----- the canary is rejected too ------------------------------------------------------

  /** Leaving out is undone when nothing was put in: `d` is `d0` exactly when no name follows. */
  lemma NothingFollows(d: Dict<string, int>, d0: Dict<string, int>, names: seq<string>)
    requires DropsOn(d, d0, names) && d0.Ok()
    ensures d == d0 <==> names == []
  {
    if names == [] {
      assert d.keys == d0.keys;
      assert d.at.Keys == d0.at.Keys;
      assert d.at == d0.at;
    }
  }

  /** The canary of a completed wave is live under `id`, and its window is open at `now`. */
  ghost predicate CanaryDecides(p: Plan, id: Id, now: int) {
    && p.pendingCanary.Some?
    && id in p.live.at && p.live.at[id] == CANARY_SUB
    && now - p.pendingCanary.value.at <= CANARY_WINDOW_MS
  }

  /** What a document fault answers and leaves: the groups and the canary to be retried, the
      wave's probes withdrawn and its drops taken back, and all of them judged. What else was done
      meanwhile is left: the names refused alone outside the wave stay dropped, and the probes of
      other searches, those below a withdrawn one included, are neither withdrawn nor judged and
      go on in their searches. */
  ghost predicate TakenBack(p: Plan, q: Plan, r: Rejection, d0: Dict<string, int>, groups: seq<Sub>, a: Account) {
    && r == NOTHING.(fault := Some(Fault(Documents, groups + [CANARY_SUB], a.probes, a.drops)))
    && DropsOn(q.dropped, d0, a.otherDrops)
    && (q.dropped == d0 <==> a.otherDrops == [])
    && q.faulted == Elements(KeysOf(groups + [CANARY_SUB]) + a.probes)
    && q.searchOf.Keys <= Elements(a.otherProbes)
    && (forall k | k in a.otherProbes :: k !in q.faulted && (k in q.searchOf <==> k in p.searchOf))
  }

  /** THE ROLLBACK IS EXACT: it takes back what the wave's groups did, and nothing else. */
  lemma RollbackIsExact(w: World, d0: Dict<string, int>, groups: seq<Sub>, a: Account, id: Id, now: int)
    requires Phase(w, d0, groups, a) && d0.Ok() && CanaryDecides(w.plan, id, now)
    ensures var (q, r) := Rejected(w.plan, id, now); TakenBack(w.plan, q, r, d0, groups, a)
  {
    var wave := WaveIn(w.plan).value;
    var p := w.plan.(live := w.plan.live.Remove(id), pendingCanary := None);
    assert w.plan.pendingCanary.value.wave == wave;
    assert Rejected(w.plan, id, now) == DocumentFault(p, wave, CANARY_SUB);
    GroupsDiffer(groups);
    ValuesOfGroups(groups);
    KeysOfGroups(groups, a.probes);
    NothingFollows(RemoveAll(p.dropped, a.drops), d0, a.otherDrops);
    var q := DocumentFault(p, wave, CANARY_SUB).0;
    assert q.searchOf.Keys == p.searchOf.Keys - Elements(a.probes);
    forall k | k in a.otherProbes ensures k !in KeysOf(groups + [CANARY_SUB]) + a.probes {
      KeysBelow(groups, k);
    }
  }

  lemma KeysBelow(groups: seq<Sub>, k: Key)
    requires Numbered(groups) && k.State? && |groups| <= k.n
    ensures k !in KeysOf(groups + [CANARY_SUB])
  {
  }

  lemma KeysOfGroups(groups: seq<Sub>, probes: seq<Key>)
    requires Numbered(groups)
    ensures Elements(GroupDict(groups).keys) + {Canary} + Elements(probes)
      == Elements(KeysOf(groups + [CANARY_SUB]) + probes)
  {
    GroupsDiffer(groups);
    GroupDictEffect(groups);
    assert GroupDict(groups).keys == KeysOf(groups);
    assert KeysOf(groups + [CANARY_SUB]) == KeysOf(groups) + [Canary];
    ElementsBoth(KeysOf(groups) + [Canary], probes);
    ElementsBoth(KeysOf(groups), [Canary]);
  }

  /** Every event of `events` is quiet, in turn. */
  ghost predicate QuietRun(w: World, events: seq<Event>)
    requires Inv(w)
    decreases |events|
  {
    events == [] || (Quiet(w, events[0]) && (StepKeeps(w, events[0]); QuietRun(Step(w, events[0]), events[1..])))
  }

  /** The account of a run. */
  ghost function Accounted(w: World, events: seq<Event>, groups: seq<Sub>, a: Account): Account
    requires Inv(w)
    decreases |events|
  {
    if events == [] then a
    else
      StepKeeps(w, events[0]);
      Accounted(Step(w, events[0]), events[1..], groups, Booked(w, events[0], groups, a))
  }

  lemma {:induction false} RunKeepsPhase(w: World, events: seq<Event>, d0: Dict<string, int>, groups: seq<Sub>, a: Account)
    requires Inv(w) && Phase(w, d0, groups, a) && QuietRun(w, events)
    ensures Phase(Run(w, events), d0, groups, Accounted(w, events, groups, a))
    decreases |events|
  {
    if events != [] {
      StepKeeps(w, events[0]);
      QuietKeepsPhase(w, events[0], d0, groups, a);
      hide Phase, Inv, Step, Quiet;
      RunKeepsPhase(Step(w, events[0]), events[1..], d0, groups, Booked(w, events[0], groups, a));
    }
  }

  /** The plan and its caller just after a new `initial`, at any moment of any run. */
  ghost function Restarted(properties: seq<string>, dropped: seq<string>, now: int, before: seq<Event>): (w: World)
    ensures Inv(w)
  {
    var w := After(properties, dropped, now, before);
    StepKeeps(w, Start);
    Step(w, Start)
  }

  lemma WavePhase(properties: seq<string>, dropped: seq<string>, now: int, before: seq<Event>, events: seq<Event>)
    requires |InitialGroups(After(properties, dropped, now, before).plan)| >= 2
    requires QuietRun(Restarted(properties, dropped, now, before), events)
    ensures
      var p := After(properties, dropped, now, before).plan;
      var start := Restarted(properties, dropped, now, before);
      && p.dropped.Ok()
      && Phase(Run(start, events), p.dropped, InitialGroups(p), Accounted(start, events, InitialGroups(p), NOTHING_YET))
  {
    var w := After(properties, dropped, now, before);
    AlwaysKnown(properties, dropped, now, before);
    assert w.plan.Ok() && w.plan.dropped.Ok();
    PhaseBegins(w);
    var start := Restarted(properties, dropped, now, before);
    assert start == Step(w, Start);
    hide Inv, Phase, Step, InitialGroups;
    RunKeepsPhase(start, events, w.plan.dropped, InitialGroups(w.plan), NOTHING_YET);
  }

  /** A DOCUMENT FAULT IS UNDONE, over whole runs: any run, a new `initial`, then any quiet
      events after which the wave is complete and its canary live, then the canary's rejection.
      The dropped list is as `initial` found it exactly when no name refused alone in between,
      outside the wave's own groups, is left dropped. */
  lemma DocumentFaultIsUndone(properties: seq<string>, dropped: seq<string>, now: int, before: seq<Event>,
                              events: seq<Event>, id: Id, at: int)
    requires |InitialGroups(After(properties, dropped, now, before).plan)| >= 2
    requires QuietRun(Restarted(properties, dropped, now, before), events)
    requires CanaryDecides(Run(Restarted(properties, dropped, now, before), events).plan, id, at)
    ensures
      var p := After(properties, dropped, now, before).plan;
      var start := Restarted(properties, dropped, now, before);
      var (q, r) := Rejected(Run(start, events).plan, id, at);
      TakenBack(Run(start, events).plan, q, r, p.dropped, InitialGroups(p), Accounted(start, events, InitialGroups(p), NOTHING_YET))
  {
    var p := After(properties, dropped, now, before).plan;
    var start, groups := Restarted(properties, dropped, now, before), InitialGroups(p);
    WavePhase(properties, dropped, now, before, events);
    hide Inv, Phase, TakenBack;
    RollbackIsExact(Run(start, events), p.dropped, groups, Accounted(start, events, groups, NOTHING_YET), id, at);
  }

  // ----- until a frame arrives -----------------------------------------------------------

  /** A group judged at fault stays judged, whatever happens short of a state frame or a new
      socket. */
  lemma FaultStays(w: World, e: Event, key: Key)
    requires w.plan.Ok() && key in w.plan.faulted && !e.Start? && !e.Accepted?
    ensures key in Step(w, e).plan.faulted
  {
    match e
    case Refusal(id, now) =>
      if id in w.plan.live.at && w.plan.live.at[id].Group? {
        GroupRejectedFrame(w.plan.(live := w.plan.live.Remove(id)), w.plan.live.at[id], now);
      }
    case _ =>
  }

  /** ... over any run without either. */
  lemma {:induction false} FaultStaysThrough(w: World, events: seq<Event>, key: Key)
    requires Inv(w) && key in w.plan.faulted
    requires forall e | e in events :: !e.Start? && !e.Accepted?
    ensures key in Run(w, events).plan.faulted
    decreases |events|
  {
    if events != [] {
      assert events[0] in events;
      StepKeeps(w, events[0]);
      FaultStays(w, events[0], key);
      FaultStaysThrough(Step(w, events[0]), events[1..], key);
    }
  }

  lemma RetriedAfter(w: World, d0: Dict<string, int>, groups: seq<Sub>, a: Account, id: Id, now: int,
                     later: seq<Event>, next: Id, at: int)
    requires Inv(w) && Phase(w, d0, groups, a) && d0.Ok() && CanaryDecides(w.plan, id, now)
    requires forall e | e in later :: !e.Start? && !e.Accepted?
    requires Judged(AfterRefusal(w, id, now, later), groups, a, next)
    ensures HandedStraightBack(AfterRefusal(w, id, now, later), next, at)
  {
    StepKeeps(w, Refusal(id, now));
    var after := Step(w, Refusal(id, now));
    RollbackIsExact(w, d0, groups, a, id, now);
    assert after.plan == Rejected(w.plan, id, now).0;
    var key := AfterRefusal(w, id, now, later).live.at[next].key;
    assert key in after.plan.faulted;
    hide Inv, Phase, Step, TakenBack;
    FaultStaysThrough(after, later, key);
  }

  /** The plan after the refusal of `id` and whatever `later` brings. */
  ghost function AfterRefusal(w: World, id: Id, now: int, later: seq<Event>): Plan
    requires Inv(w)
  {
    StepKeeps(w, Refusal(id, now));
    Run(Step(w, Refusal(id, now)), later).plan
  }

  /** What is live under `id` is a group of the wave, one of its probes, or the canary. */
  ghost predicate Judged(p: Plan, groups: seq<Sub>, a: Account, id: Id) {
    id in p.live.at && p.live.at[id].Group? && p.live.at[id].key in KeysOf(groups + [CANARY_SUB]) + a.probes
  }

  /** Its rejection hands it back to be retried as it is, and changes nothing else. */
  ghost predicate HandedStraightBack(p: Plan, id: Id, at: int) {
    p.Wired() && id in p.live.at
    && Rejected(p, id, at) == (p.(live := p.live.Remove(id)), RetryOnly(Documents, p.live.at[id]))
  }

  /** JUDGED GROUPS ARE RETRIED WHOLE, over whole runs: after a document fault, until a state
      frame or a new socket, every later rejection of a group of the wave, of a probe that was
      already subscribed, or of the canary hands it straight back, whatever else goes on. */
  lemma RetriedWhole(properties: seq<string>, dropped: seq<string>, now: int, before: seq<Event>,
                     events: seq<Event>, id: Id, at: int, later: seq<Event>, next: Id, again: int)
    requires |InitialGroups(After(properties, dropped, now, before).plan)| >= 2
    requires QuietRun(Restarted(properties, dropped, now, before), events)
    requires CanaryDecides(Run(Restarted(properties, dropped, now, before), events).plan, id, at)
    requires forall e | e in later :: !e.Start? && !e.Accepted?
    requires
      var start := Restarted(properties, dropped, now, before);
      var groups := InitialGroups(After(properties, dropped, now, before).plan);
      Judged(AfterRefusal(Run(start, events), id, at, later), groups, Accounted(start, events, groups, NOTHING_YET), next)
    ensures HandedStraightBack(AfterRefusal(Run(Restarted(properties, dropped, now, before), events), id, at, later), next, again)
  {
    var start := Restarted(properties, dropped, now, before);
    var p := After(properties, dropped, now, before).plan;
    var groups := InitialGroups(p);
    WavePhase(properties, dropped, now, before, events);
    hide Inv, Phase;
    RetriedAfter(Run(start, events), p.dropped, groups, Accounted(start, events, groups, NOTHING_YET),
                 id, at, later, next, again);
  }
}
