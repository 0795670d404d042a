/** A wave of rejections while it is judged, and what else goes on meanwhile.

    What the rejections have done to the plan, told apart by whose they were: the wave's own
    groups, whose effects a fault takes back, and all others, discovered groups and probes, whose
    effects stay. */
module SubscriptionWave {
  import opened Collections
  import opened Catalogue
  import opened SubscriptionModel
  import opened SubscriptionRuns
  import opened SubscriptionSafety
  import opened SubscriptionSearch

  predicate IsGroup(sub: Sub) {
    sub.Group? && sub.key.State?
  }

  /** The wave being judged: still open, or complete and waiting for its canary. */
  function WaveIn(p: Plan): Option<Wave> {
    if p.wave.Some? then p.wave
    else if p.pendingCanary.Some? then Some(p.pendingCanary.value.wave)
    else None
  }

  /** Everything live or held, and how often. */
  ghost function Pool(w: World): multiset<Sub>
    requires w.plan.live.Ok()
  {
    multiset(Values(w.plan.live)) + multiset(w.held)
  }

  // ----- the account of a run ------------------------------------------------------------

  /** `names` without those in `gone`, in order. */
  function Except(names: seq<string>, gone: set<string>): seq<string> {
    if names == [] then []
    else (if names[0] in gone then [] else [names[0]]) + Except(names[1..], gone)
  }

  /** What refusals handed out and dropped: for the groups of the wave, and for all others. What a
      search gives back when its whole group was refused is dropped no more. */
  datatype Account = Account(probes: seq<Key>, drops: seq<string>, otherProbes: seq<Key>, otherDrops: seq<string>)

  const NOTHING_YET := Account([], [], [], [])

  /** A group of one name that is refused loses it; a larger one gets its halves. */
  ghost function Booked(w: World, e: Event, groups: seq<Sub>, a: Account): Account
    requires w.plan.Ok()
  {
    if e.Refusal? && e.id in w.plan.live.at && IsGroup(w.plan.live.at[e.id])
       && w.plan.live.at[e.id].key !in w.plan.exhausted then
      var sub := w.plan.live.at[e.id];
      var r := Rejected(w.plan, e.id, e.now).1;
      if sub in groups then
        a.(probes := a.probes + KeysOf(r.probes), drops := a.drops + if |sub.names| == 1 then sub.names else [])
      else a.(otherProbes := a.otherProbes + KeysOf(r.probes), otherDrops := LeftByOthers(a.otherDrops, sub, r))
    else a
  }

  /** `drops` once `sub` has been refused with `r` outside the wave. */
  function LeftByOthers(drops: seq<string>, sub: Sub, r: Rejection): seq<string>
    requires sub.Group?
  {
    if r.fault.Some? then Except(drops, Elements(r.fault.value.restored))
    else if |sub.names| == 1 then AddName(drops, sub.names[0]) else drops
  }

  /** What may happen while the wave is judged: anything but a new socket, a frame, a reprobe, the
      canary's refusal, a wave group's past its window, and a second copy of a wave group. */
  ghost predicate Quiet(w: World, e: Event)
    requires w.plan.Ok()
  {
    match e
    case Refusal(id, now) =>
      id in w.plan.live.at && w.plan.live.at[id].Group? ==>
        IsGroup(w.plan.live.at[id]) && InWindow(w.plan, w.plan.live.at[id].key, now)
    case Stray(n) => WaveIn(w.plan).Some? ==> State(n) !in WaveIn(w.plan).value.groups.at
    case Start => false
    case Reprobe(_) => false
    case Accepted => false
    case _ => true
  }

  predicate InWindow(p: Plan, key: Key, now: int) {
    (p.wave.Some? && key in p.wave.value.groups.at && p.wave.value.firstAt.Some?)
    ==> now - p.wave.value.firstAt.value <= WAVE_WINDOW_MS
  }

  // ----- the wave in progress ------------------------------------------------------------

  /** The groups of a wave are numbered from 0. */
  ghost predicate Numbered(groups: seq<Sub>) {
    forall i | 0 <= i < |groups| :: groups[i].Group? && groups[i].key == State(i)
  }

  /** Two groups that ask for no name in common. */
  predicate Apart(a: Sub, b: Sub)
    requires a.Group? && b.Group?
  {
    forall x | x in a.names :: x !in b.names
  }

  /** The groups of a wave share no name, and ask for known names that were not dropped. */
  ghost predicate WaveGroups(groups: seq<Sub>, d0: Dict<string, int>, properties: seq<string>) {
    && d0.Ok() && Numbered(groups)
    && (forall x | x in d0.at :: x in properties)
    && (forall i | 0 <= i < |groups| :: |groups[i].names| >= 1)
    && (forall i, x | 0 <= i < |groups| && x in groups[i].names :: x in properties && x !in d0.at)
    && (forall i, j | 0 <= i < |groups| && 0 <= j < |groups| && i != j :: Apart(groups[i], groups[j]))
  }

  /** No rejection of a group of the wave drops `x`, and it was not dropped to begin with. */
  ghost predicate Free(d0: Dict<string, int>, groups: seq<Sub>, x: string) {
    x !in d0.at && forall g | g in groups && g.Group? && |g.names| == 1 :: x !in g.names
  }

  ghost predicate AllFree(d0: Dict<string, int>, groups: seq<Sub>, names: seq<string>) {
    forall x | x in names :: Free(d0, groups, x)
  }

  /** `wave` is judged over `groups`, and its canary has not been rejected. */
  ghost predicate Judging(p: Plan, groups: seq<Sub>, wave: Wave) {
    && WaveIn(p) == Some(wave) && wave.Ok()
    && wave.groups == GroupDict(groups)
    && (forall k | k in wave.rejected.at :: k in wave.groups.at)
    && (if p.wave.Some? then |wave.rejected.keys| < |groups| && p.pendingCanary.None?
        else forall k | k in wave.groups.at :: k in wave.rejected.at)
    && |groups| <= p.nextGroup
    && p.faulted == {}
  }

  /** `d` is `d0` with `names` dropped after it. */
  ghost predicate DropsOn(d: Dict<string, int>, d0: Dict<string, int>, names: seq<string>) {
    && d.Ok()
    && d.keys == d0.keys + names
    && (forall x | x in d0.at :: x in d.at && d.at[x] == d0.at[x])
  }

  /** The wave dropped names of its rejected groups of one. */
  ghost predicate OwnDrops(groups: seq<Sub>, wave: Wave, drops: seq<string>) {
    && wave.Ok()
    && DroppedOf(Values(wave.rejected)) == drops
    && forall x | x in drops :: exists g :: g in groups && g.Group? && g.names == [x] && g.key in wave.rejected.at
  }

  /** The dropped list once the wave's own drops are left out is `d0` and the others' drops. */
  ghost predicate DropsBooked(p: Plan, d0: Dict<string, int>, groups: seq<Sub>, wave: Wave, a: Account) {
    && p.dropped.Ok()
    && OwnDrops(groups, wave, a.drops)
    && (forall x | x in a.drops :: x in p.dropped.at)
    && AllFree(d0, groups, a.otherDrops)
    && DropsOn(RemoveAll(p.dropped, a.drops), d0, a.otherDrops)
  }

  /** Only probes handed out belong to searches, and what was rejected in those is no drop of the
      wave's own. */
  ghost predicate ProbesBooked(p: Plan, d0: Dict<string, int>, groups: seq<Sub>, wave: Wave, a: Account) {
    && wave.Ok()
    && ProbesOf(Values(wave.rejected)) == a.probes
    && p.searchOf.Keys <= Elements(a.probes) + Elements(a.otherProbes)
    && (forall k | k in a.probes || k in a.otherProbes :: k.State? && |groups| <= k.n < p.nextGroup)
    && (forall k | k in a.probes :: k !in a.otherProbes)
    && SearchesFree(p, d0, groups)
  }

  ghost predicate SearchesFree(p: Plan, d0: Dict<string, int>, groups: seq<Sub>) {
    forall k | k in p.searchOf ::
      p.searchOf[k] < |p.searches| && AllFree(d0, groups, p.searches[p.searchOf[k]].rejected)
  }

  /** A state group that is live or held: judged already; or a group of the wave that was not
      rejected, and the only copy of it; or asking for none of the names the wave drops. */
  ghost predicate Standing(p: Plan, pool: multiset<Sub>, d0: Dict<string, int>, groups: seq<Sub>, wave: Wave, sub: Sub)
    requires IsGroup(sub)
  {
    || sub.key in p.exhausted
    || (if sub.key.n < |groups| then sub in groups && sub.key !in wave.rejected.at && pool[sub] == 1
        else AllFree(d0, groups, sub.names))
  }

  ghost predicate AllStand(p: Plan, pool: multiset<Sub>, d0: Dict<string, int>, groups: seq<Sub>, wave: Wave) {
    forall sub | sub in pool && IsGroup(sub) :: Standing(p, pool, d0, groups, wave, sub)
  }

  /** So does every group handed out since. */
  ghost predicate MadeFree(made: map<nat, seq<string>>, d0: Dict<string, int>, groups: seq<Sub>) {
    forall n | n in made && |groups| <= n :: AllFree(d0, groups, made[n])
  }

  /** A wave in progress: exactly what the refusals booked so far have done to plan and caller. */
  ghost predicate Phase(w: World, d0: Dict<string, int>, groups: seq<Sub>, a: Account) {
    && w.plan.Ok() && WaveIn(w.plan).Some?
    && var wave := WaveIn(w.plan).value;
      && WaveGroups(groups, d0, w.plan.properties)
      && Judging(w.plan, groups, wave)
      && DropsBooked(w.plan, d0, groups, wave, a)
      && ProbesBooked(w.plan, d0, groups, wave, a)
      && AllStand(w.plan, Pool(w), d0, groups, wave)
      && MadeFree(w.made, d0, groups)
  }

  // ----- how it begins -------------------------------------------------------------------

  lemma {:induction false} PartsDisjoint<T>(ss: seq<seq<T>>, i: nat, j: nat, x: T)
    requires i < j < |ss| && Distinct(Flatten(ss)) && x in ss[i]
    ensures x !in ss[j]
  {
    DistinctParts(ss[0], Flatten(ss[1..]));
    if i > 0 {
      PartsDisjoint(ss[1..], i - 1, j - 1, x);
    } else if x in ss[j] {
      FlattenHas(ss[1..], j - 1, x);
    }
  }

  /** Groups cut from a list of different names: named from it, and apart. */
  lemma CutApart(names: seq<string>, first: nat)
    requires Distinct(names)
    ensures var groups := StateGroups(Chunks(names, MAX_GROUP_SIZE), first);
      && (forall i | 0 <= i < |groups| :: groups[i].Group? && groups[i].key == State(first + i) && |groups[i].names| >= 1)
      && (forall i, x | 0 <= i < |groups| && x in groups[i].names :: x in names)
      && (forall i, j | 0 <= i < |groups| && 0 <= j < |groups| && i != j :: Apart(groups[i], groups[j]))
  {
    var chunks := Chunks(names, MAX_GROUP_SIZE);
    ChunksPartition(names, MAX_GROUP_SIZE);
    forall i, x | 0 <= i < |chunks| && x in chunks[i]
      ensures x in names
    {
      FlattenHas(chunks, i, x);
    }
    forall i, j, x | 0 <= i < |chunks| && 0 <= j < |chunks| && i != j && x in chunks[i]
      ensures x !in chunks[j]
    {
      if i < j {
        PartsDisjoint(chunks, i, j, x);
      } else if x in chunks[j] {
        PartsDisjoint(chunks, j, i, x);
      }
    }
  }

  lemma {:induction false} CountOnce<T>(s: seq<T>, i: nat)
    requires i < |s| && forall j | 0 <= j < |s| && j != i :: s[j] != s[i]
    ensures multiset(s)[s[i]] == 1
  {
    assert s == s[..i] + [s[i]] + s[i + 1..];
    assert s[i] !in s[..i] && s[i] !in s[i + 1..];
  }

  /** Distinctly numbered groups beside what is no group, each once. */
  lemma OnceAmong(groups: seq<Sub>, fixed: seq<Sub>, first: nat, s: Sub)
    requires forall i | 0 <= i < |groups| :: groups[i].Group? && groups[i].key == State(first + i)
    requires forall f | f in fixed :: f.Single?
    requires s in groups
    ensures multiset(groups + fixed)[s] == 1
  {
    var all := groups + fixed;
    var i :| 0 <= i < |groups| && groups[i] == s;
    forall j | 0 <= j < |all| && j != i
      ensures all[j] != all[i]
    {
      if j >= |groups| {
        assert all[j] == fixed[j - |groups|] && all[j] in fixed;
      }
    }
    CountOnce(all, i);
  }

  lemma ActivatedValues(p: Plan, sub: Sub)
    requires p.live.Ok() && forall id | id in p.live.at :: id.n < p.nextId
    ensures var next := Activate(p, sub).0;
      && next.live.Ok() && Values(next.live) == Values(p.live) + [sub]
      && (forall id | id in next.live.at :: id.n < next.nextId)
  {
    var (next, id) := Activate(p, sub);
    PutOk(p.live, id, sub);
  }

  lemma {:induction false} ValuesOfAll(p: Plan, subs: seq<Sub>)
    requires p.live.Ok() && forall id | id in p.live.at :: id.n < p.nextId
    ensures ActivateAll(p, subs).live.Ok()
    ensures Values(ActivateAll(p, subs).live) == Values(p.live) + subs
    decreases |subs|
  {
    if subs != [] {
      ActivatedValues(p, subs[0]);
      ValuesOfAll(Activate(p, subs[0]).0, subs[1..]);
    }
  }

  /** Right after `initial`, what is live is its list. */
  lemma StartValues(p: Plan)
    requires p.Ok()
    ensures var q := Initial(p).0;
      && q == Forgotten(p).(live := q.live, nextId := q.nextId)
      && q.live.Ok() && Values(q.live) == InitialSubs(p)
  {
    ActivateAllShape(Forgotten(p), InitialSubs(p));
    ValuesOfAll(Forgotten(p), InitialSubs(p));
    var none: seq<Sub> := [];
    assert Values(Forgotten(p).live) == none;
    assert none + InitialSubs(p) == InitialSubs(p);
  }

  /** A group of `initial` stands. */
  lemma GroupStands(q: Plan, d0: Dict<string, int>, groups: seq<Sub>, fixed: seq<Sub>, wave: Wave, s: Sub)
    requires Numbered(groups) && wave.rejected == EmptyDict()
    requires forall f | f in fixed :: f.Single?
    requires s in multiset(groups + fixed) && IsGroup(s)
    ensures Standing(q, multiset(groups + fixed), d0, groups, wave, s)
  {
    assert s in groups + fixed;
    assert s !in fixed;
    assert s in groups;
    OnceAmong(groups, fixed, 0, s);
    hide AllFree;
    var i :| 0 <= i < |groups| && groups[i] == s;
  }

  lemma InitialNames(p: Plan)
    requires Distinct(p.properties)
    ensures var groups := InitialGroups(p);
      && (forall i, x | 0 <= i < |groups| && groups[i].Group? && x in groups[i].names :: x in p.properties && x !in p.dropped.at)
      && (forall i | 0 <= i < |groups| :: groups[i].Group? && groups[i].key == State(i) && |groups[i].names| >= 1)
      && (forall i, j | 0 <= i < |groups| && 0 <= j < |groups| && i != j :: Apart(groups[i], groups[j]))
  {
    var names := NotDropped(p.properties, p.dropped.at);
    NotDroppedEffect(p.properties, p.dropped.at);
    NotDroppedDistinct(p.properties, p.dropped.at);
    CutApart(names, 0);
    assert InitialGroups(p) == StateGroups(Chunks(names, MAX_GROUP_SIZE), 0);
    hide InitialGroups, StateGroups, Chunks, Apart;
  }

  lemma InitialSplit(p: Plan) returns (fixed: seq<Sub>)
    ensures InitialSubs(p) == InitialGroups(p) + fixed && forall f | f in fixed :: f.Single?
  {
    hide InitialGroups;
    fixed := Available(FIXED, p.unavailable.at);
    AvailableEffect(FIXED, p.unavailable.at);
  }

  lemma StandingBegins(p: Plan, q: Plan, d0: Dict<string, int>, wave: Wave)
    requires wave.rejected == EmptyDict()
    ensures AllStand(q, multiset(InitialSubs(p)), d0, InitialGroups(p), wave)
  {
    InitialGroupsFacts(p);
    var groups := InitialGroups(p);
    assert Numbered(groups);
    hide InitialGroups, InitialSubs, Standing;
    var fixed := InitialSplit(p);
    forall s | s in multiset(groups + fixed) && IsGroup(s)
      ensures Standing(q, multiset(groups + fixed), d0, groups, wave, s)
    {
      GroupStands(q, d0, groups, fixed, wave, s);
    }
  }

  lemma JudgingBegins(q: Plan, groups: seq<Sub>, wave: Wave, d0: Dict<string, int>)
    requires Numbered(groups) && |groups| >= 2 && d0.Ok()
    requires wave == Wave(GroupDict(groups), None, EmptyDict()) && q.wave == Some(wave)
    requires q.nextGroup == |groups| && q.searchOf == map[]
    requires q.faulted == {} && q.dropped == d0 && q.pendingCanary.None?
    ensures Judging(q, groups, wave) && DropsBooked(q, d0, groups, wave, NOTHING_YET)
    ensures ProbesBooked(q, d0, groups, wave, NOTHING_YET)
  {
    GroupsDiffer(groups);
    GroupDictEffect(groups);
    assert Values(wave.rejected) == [];
    assert d0.keys + [] == d0.keys;
  }

  /** Nothing but the groups of `initial` has been made. */
  lemma {:induction false} LearnedBelow(made: map<nat, seq<string>>, subs: seq<Sub>, next: nat)
    requires forall n | n in made :: n < next
    requires forall s | s in subs && IsGroup(s) :: s.key.n < next
    ensures forall n | n in Learn(made, subs) :: n < next
    decreases |subs|
  {
    if subs != [] {
      assert subs[0] in subs;
      LearnedBelow(if IsGroup(subs[0]) then made[subs[0].key.n := subs[0].names] else made, subs[1..], next);
    }
  }

  lemma WaveGroupsBegin(p: Plan)
    requires p.dropped.Ok() && Distinct(p.properties) && forall x | x in p.dropped.at :: x in p.properties
    ensures WaveGroups(InitialGroups(p), p.dropped, p.properties) && Numbered(InitialGroups(p))
  {
    InitialNames(p);
    hide InitialGroups, Distinct, Apart;
  }

  lemma PhaseBegins(w: World)
    requires w.plan.Ok() && Distinct(w.plan.properties) && |InitialGroups(w.plan)| >= 2
    requires forall x | x in w.plan.dropped.at :: x in w.plan.properties
    ensures Phase(Step(w, Start), w.plan.dropped, InitialGroups(w.plan), NOTHING_YET)
  {
    var p := w.plan;
    var groups := InitialGroups(p);
    var wave := Wave(GroupDict(groups), None, EmptyDict());
    var q, w2 := Initial(p).0, Step(w, Start);
    InitialOk(p);
    StartValues(p);
    assert w2.plan == q && w2.held == [] && w2.made == Learn(map[], groups);
    assert Forgotten(p).wave == Some(wave) && Forgotten(p).pendingCanary.None?;
    assert q.wave == Some(wave) && q.pendingCanary.None? && q.nextGroup == |groups| && q.searchOf == map[];
    hide InitialGroups, InitialSubs, Initial, AllStand, Step, Learn, Forgotten, Plan.Ok;
    WaveGroupsBegin(p);
    LearnedBelow(map[], groups, |groups|);
    StandingBegins(p, q, p.dropped, wave);
    hide WaveGroups;
    JudgingBegins(q, groups, wave, p.dropped);
    hide Judging, DropsBooked, ProbesBooked;
    assert Pool(w2) == multiset(InitialSubs(p));
  }

  // ----- a group is refused --------------------------------------------------------------

  /** What the search answers about group `sub` when it is the first to hear of it. */
  ghost predicate FirstAnswer(p: Plan, sub: Sub, q: Plan, r: Rejection) {
    && sub.Group?
    && r == NOTHING.(probes := r.probes, newlyDropped := r.newlyDropped)
    && q == p.(dropped := q.dropped, lastDueAt := q.lastDueAt, searches := q.searches,
               searchOf := q.searchOf, nextGroup := q.nextGroup)
    && p.nextGroup <= q.nextGroup
    && (forall probe | probe in r.probes :: IsGroup(probe) && p.nextGroup <= probe.key.n < q.nextGroup)
    && (forall probe, x | probe in r.probes && probe.Group? && x in probe.names :: x in sub.names)
    && q.searchOf.Keys == p.searchOf.Keys + Elements(KeysOf(r.probes))
    && (if |sub.names| == 1
        then r.newlyDropped == sub.names && r.probes == []
             && exists at :: q.dropped == p.dropped.Put(sub.names[0], at)
        else r.newlyDropped == [] && q.dropped == p.dropped)
  }

  lemma FirstSearch(p: Plan, sub: Sub, now: int)
    requires p.Wired() && sub.Group? && sub.key !in p.searchOf
    ensures var (q, r) := Search(p, sub, now); FirstAnswer(p, sub, q, r)
  {
    var (q, r) := Search(p, sub, now);
    if |sub.names| == 1 {
      assert sub.names == [sub.names[0]];
      assert Elements(KeysOf(r.probes)) == {};
      assert q.searchOf.Keys == p.searchOf.Keys + {};
      assert q.dropped == p.dropped.Put(sub.names[0], DueAfterDrop(p, now));
    } else {
      assert KeysOf(r.probes) == [State(p.nextGroup), State(p.nextGroup + 1)];
      assert Elements(KeysOf(r.probes)) == {State(p.nextGroup), State(p.nextGroup + 1)};
    }
  }

  lemma ProbesOfAppend(given: seq<Given>, g: Given)
    ensures ProbesOf(given + [g]) == ProbesOf(given) + g.probes
    ensures DroppedOf(given + [g]) == DroppedOf(given) + g.dropped
  {
    if given == [] {
      assert given + [g] == [g];
      assert ProbesOf([g]) == g.probes + ProbesOf([]) && DroppedOf([g]) == g.dropped + DroppedOf([]);
    } else {
      assert (given + [g])[1..] == given[1..] + [g];
    }
  }

  /** A first rejection goes last in the wave. */
  lemma NotedValues(wave: Wave, key: Key, g: Given)
    requires wave.rejected.Ok() && key !in wave.rejected.at
    ensures var rejected := wave.rejected.Put(key, g);
      && rejected.Ok()
      && |rejected.keys| == |wave.rejected.keys| + 1
      && ProbesOf(Values(rejected)) == ProbesOf(Values(wave.rejected)) + g.probes
      && DroppedOf(Values(rejected)) == DroppedOf(Values(wave.rejected)) + g.dropped
  {
    var rejected := wave.rejected.Put(key, g);
    PutOk(wave.rejected, key, g);
    assert Values(rejected) == Values(wave.rejected) + [g];
    ProbesOfAppend(Values(wave.rejected), g);
  }

  /** When as many groups were rejected as there are, all of them were. */
  lemma AllRejected(wave: Wave, k: Key)
    requires wave.Ok() && (forall j | j in wave.rejected.at :: j in wave.groups.at)
    requires |wave.rejected.keys| >= |wave.groups.keys| && k in wave.groups.at
    ensures k in wave.rejected.at
  {
    KeyCount(wave.rejected.keys);
    ElementsBound(wave.groups.keys);
    assert Elements(wave.rejected.keys) <= Elements(wave.groups.keys);
    SubsetBound(Elements(wave.rejected.keys), Elements(wave.groups.keys));
    assert k in Elements(wave.groups.keys);
    assert k in Elements(wave.rejected.keys);
  }

  lemma {:induction false} KeyCount(s: seq<Key>)
    requires Distinct(s)
    ensures |Elements(s)| == |s|
  {
    if s != [] {
      var init, last := s[..|s| - 1], s[|s| - 1];
      KeyCount(init);
      assert s == init + [last] && last !in init;
      assert Elements(s) == Elements(init) + {last};
    }
  }

  /** The wave after group `key` was rejected at `now` with `r`. */
  function Noted(wave: Wave, key: Key, r: Rejection, now: int): Wave {
    Wave(wave.groups, if wave.firstAt.None? then Some(now) else wave.firstAt,
         wave.rejected.Put(key, Given(KeysOf(r.probes), r.newlyDropped)))
  }

  lemma NoteShape(searched: Plan, first: Wave, key: Key, sr: Rejection, now: int)
    requires sr.canary.None?
    ensures var noted := first.(rejected := first.rejected.Put(key, Given(KeysOf(sr.probes), sr.newlyDropped)));
      var (q, r) := NoteWave(searched, first, key, sr, now);
      && r == sr.(canary := r.canary)
      && q == searched.(wave := q.wave, pendingCanary := q.pendingCanary)
      && (if |noted.rejected.keys| < |noted.groups.keys|
          then q.wave == Some(noted) && q.pendingCanary == searched.pendingCanary && r.canary.None?
          else q.wave == None && q.pendingCanary == Some(Pending(noted, now)) && r.canary == Some(CANARY_SUB))
  {
  }

  lemma GroupsDiffer(groups: seq<Sub>)
    requires Numbered(groups)
    ensures forall i, j | 0 <= i < j < |groups| :: groups[i].Key() != groups[j].Key()
  {
  }

  lemma InGroups(groups: seq<Sub>, sub: Sub)
    requires Numbered(groups)
    ensures sub in groups ==> sub.Group? && sub.key.State? && sub.key.n < |groups|
  {
  }

  /** The dictionary of the wave holds the keys below its size, and no other. */
  lemma WaveKey(groups: seq<Sub>, key: Key)
    requires Numbered(groups)
    ensures GroupDict(groups).Ok() && |GroupDict(groups).keys| == |groups|
    ensures key in GroupDict(groups).at <==> key.State? && key.n < |groups|
  {
    GroupsDiffer(groups);
    GroupDictEffect(groups);
    if key in GroupDict(groups).at {
      GroupDictAt(groups, key);
    }
    if key.State? && key.n < |groups| {
      assert GroupDict(groups).keys[key.n] == key;
    }
  }

  /** A wave group's refusal, noted: the wave is judged with that refusal in it. */
  lemma NotedJudging(q: Plan, groups: seq<Sub>, wave: Wave, noted: Wave, key: Key, g: Given)
    requires Numbered(groups) && wave.Ok() && wave.groups == GroupDict(groups) && key in wave.groups.at
    requires forall k | k in wave.rejected.at :: k in wave.groups.at
    requires key !in wave.rejected.at && noted == wave.(firstAt := noted.firstAt, rejected := wave.rejected.Put(key, g))
    requires q.wave.Some? ==> q.pendingCanary.None?
    requires WaveIn(q) == Some(noted) && (q.wave.Some? <==> |noted.rejected.keys| < |noted.groups.keys|)
    requires |groups| <= q.nextGroup && q.faulted == {}
    ensures Judging(q, groups, noted)
  {
    WaveKey(groups, key);
    NotedValues(wave, key, g);
    if q.wave.None? {
      forall k | k in noted.groups.at ensures k in noted.rejected.at {
        AllRejected(noted, k);
      }
    }
  }

  /** A live wave group refused inside the window: searched, and noted. */
  lemma WaveGroupRefused(p: Plan, groups: seq<Sub>, wave: Wave, sub: Sub, now: int)
    requires p.Wired() && Numbered(groups) && Judging(p, groups, wave)
    requires IsGroup(sub) && sub.key !in p.searchOf && sub in groups && sub.key !in wave.rejected.at
    requires InWindow(p, sub.key, now)
    ensures var (q, r) := GroupRejected(p, sub, now);
      && Judging(q, groups, Noted(wave, sub.key, r, now))
      && FirstAnswer(p, sub, q.(wave := p.wave, pendingCanary := p.pendingCanary), r.(canary := None))
      && r.canary == (if q.wave.None? then Some(CANARY_SUB) else None)
      && (q.wave.None? ==> q.pendingCanary == Some(Pending(Noted(wave, sub.key, r, now), now)))
  {
    WaveKey(groups, sub.key);
    var first := wave.(firstAt := if wave.firstAt.None? then Some(now) else wave.firstAt);
    var joined := p.(wave := Some(first));
    assert WaveFor(p, sub.key, now) == (joined, Some(first));
    FirstSearch(joined, sub, now);
    var (searched, sr) := Search(joined, sub, now);
    NoteShape(searched, first, sub.key, sr, now);
    var (q, r) := GroupRejected(p, sub, now);
    assert (q, r) == NoteWave(searched, first, sub.key, sr, now);
    NotedJudging(q, groups, wave, Noted(wave, sub.key, r, now), sub.key, Given(KeysOf(r.probes), r.newlyDropped));
  }

  // ----- another group is refused --------------------------------------------------------

  /** What the search answers about a group outside the wave: it loses its name, or is halved, or
      was the last of its search's group, which is then judged and handed back whole. */
  ghost predicate OtherAnswer(p: Plan, sub: Sub, q: Plan, r: Rejection) {
    && sub.Group?
    && r == NOTHING.(probes := r.probes, newlyDropped := r.newlyDropped, fault := r.fault)
    && q == p.(dropped := q.dropped, lastDueAt := q.lastDueAt, searches := q.searches,
               searchOf := q.searchOf, nextGroup := q.nextGroup, exhausted := q.exhausted)
    && p.nextGroup <= q.nextGroup && p.exhausted <= q.exhausted
    && (forall probe | probe in r.probes :: IsGroup(probe) && p.nextGroup <= probe.key.n < q.nextGroup)
    && (forall probe, x | probe in r.probes && probe.Group? && x in probe.names :: x in sub.names)
    && q.searchOf.Keys <= p.searchOf.Keys + Elements(KeysOf(r.probes))
    && match r.fault
       case None =>
         if |sub.names| == 1 then r.probes == [] && exists at :: q.dropped == p.dropped.Put(sub.names[0], at)
         else q.dropped == p.dropped
       case Some(fault) =>
         && r.probes == [] && fault.withdrawn == [] && q.dropped == RemoveAll(p.dropped, fault.restored)
         && (forall g | g in fault.retry && g.Group? :: g.key in q.exhausted)
  }

  lemma OtherSearch(p: Plan, sub: Sub, now: int)
    requires p.Wired() && sub.Group?
    ensures var (q, r) := Search(p, sub, now); OtherAnswer(p, sub, q, r)
  {
    var (forgot, lineage) := LineageOf(p, sub.key, now);
    var (q, r) := Search(p, sub, now);
    assert forgot == p.(searchOf := forgot.searchOf) && forgot.searchOf.Keys <= p.searchOf.Keys;
    if |sub.names| == 1 {
      OneSearched(p, forgot, sub, lineage, now);
    } else {
      HalvesSearched(forgot, sub, lineage, now);
    }
    hide Split, DropInSearch, Drop, LineageOf;
    assert OtherAnswer(forgot, sub, q, r);
  }

  lemma OneSearched(p: Plan, forgot: Plan, sub: Sub, lineage: Option<nat>, now: int)
    requires sub.Group? && |sub.names| == 1 && (lineage.Some? ==> lineage.value < |forgot.searches|)
    ensures var (q, r) := if lineage.Some? then DropInSearch(forgot, lineage.value, sub.names[0], now)
                          else Drop(forgot, sub.names[0], now);
      OtherAnswer(forgot, sub, q, r)
  {
    var due := DueAfterDrop(forgot, now);
    if lineage.Some? {
      var h := lineage.value;
      var searched := forgot.(searches := forgot.searches[h := forgot.searches[h].(
        rejected := AddName(forgot.searches[h].rejected, sub.names[0]), lastAt := now)]);
      assert DueAfterDrop(searched, now) == due;
    }
    hide DueAfterDrop;
    assert exists at :: forgot.dropped.Put(sub.names[0], due) == forgot.dropped.Put(sub.names[0], at);
    assert KeysOf([]) == [];
  }

  lemma HalvesSearched(p: Plan, sub: Sub, lineage: Option<nat>, now: int)
    requires sub.Group? && |sub.names| != 1 && (lineage.Some? ==> lineage.value < |p.searches|)
    ensures var (q, r) := Split(p, sub, lineage, now); OtherAnswer(p, sub, q, r)
  {
    var r := Split(p, sub, lineage, now).1;
    assert KeysOf(r.probes) == [State(p.nextGroup), State(p.nextGroup + 1)];
    assert Elements(KeysOf(r.probes)) == {State(p.nextGroup), State(p.nextGroup + 1)};
  }

  /** What a search knows to be bad stays apart from the wave's own drops, and so does what it
      gives back. */
  lemma SearchKeepsFree(p: Plan, sub: Sub, now: int, d0: Dict<string, int>, groups: seq<Sub>)
    requires p.Wired() && sub.Group? && SearchesFree(p, d0, groups)
    requires AllFree(d0, groups, sub.names) || sub.key !in p.searchOf
    ensures var (q, r) := Search(p, sub, now);
      && SearchesFree(q, d0, groups)
      && (r.fault.Some? ==> AllFree(d0, groups, r.fault.value.restored))
  {
    hide Free;
    var (q, lineage) := LineageOf(p, sub.key, now);
    if |sub.names| == 1 && lineage.Some? {
      var h, name := lineage.value, sub.names[0];
      assert name in sub.names;
      WithoutElements(AddName(q.searches[h].rejected, name), name);
    }
  }

  /** A state group outside the wave is refused: the wave is as it was. */
  lemma OtherGroupRefused(p: Plan, d0: Dict<string, int>, groups: seq<Sub>, wave: Wave, sub: Sub, now: int)
    requires p.Wired() && Numbered(groups) && Judging(p, groups, wave) && SearchesFree(p, d0, groups)
    requires IsGroup(sub) && sub.key.n >= |groups| && AllFree(d0, groups, sub.names)
    ensures var (q, r) := GroupRejected(p, sub, now);
      && OtherAnswer(p, sub, q, r) && Judging(q, groups, wave) && SearchesFree(q, d0, groups)
      && (r.fault.Some? ==> AllFree(d0, groups, r.fault.value.restored))
  {
    WaveKey(groups, sub.key);
    assert WaveFor(p, sub.key, now) == (p, None);
    OtherSearch(p, sub, now);
    SearchKeepsFree(p, sub, now, d0, groups);
    hide Search, SearchesFree, AllFree;
  }

  // ----- what a refusal leaves dropped ---------------------------------------------------

  lemma {:induction false} ExceptBoth(names: seq<string>, a: set<string>, b: set<string>)
    ensures Except(Except(names, a), b) == Except(names, a + b)
  {
    if names != [] {
      ExceptBoth(names[1..], a, b);
      var rest := Except(names[1..], a);
      if names[0] in a {
        assert Except(names, a) == rest;
      } else {
        assert Except(names, a) == [names[0]] + rest && ([names[0]] + rest)[1..] == rest;
      }
    }
  }

  lemma {:induction false} ExceptOne(names: seq<string>, x: string)
    ensures Except(names, {x}) == Without(names, x)
  {
    if names != [] {
      ExceptOne(names[1..], x);
    }
  }

  lemma {:induction false} ExceptNone(names: seq<string>, gone: set<string>)
    requires forall x | x in names :: x !in gone
    ensures Except(names, gone) == names
  {
    if names != [] {
      ExceptNone(names[1..], gone);
    }
  }

  lemma {:induction false} ExceptAppend(a: seq<string>, b: seq<string>, gone: set<string>)
    ensures Except(a + b, gone) == Except(a, gone) + Except(b, gone)
  {
    if a == [] {
      assert a + b == b;
    } else {
      assert (a + b)[1..] == a[1..] + b;
      ExceptAppend(a[1..], b, gone);
    }
  }

  lemma {:induction false} ExceptFrom(names: seq<string>, gone: set<string>)
    ensures forall x | x in Except(names, gone) :: x in names && x !in gone
  {
    if names != [] {
      ExceptFrom(names[1..], gone);
    }
  }

  /** Deleting one after another comes to leaving out a set. */
  lemma {:induction false} RemoveAllIs(d: Dict<string, int>, ks: seq<string>)
    ensures RemoveAll(d, ks) == Dict(Except(d.keys, Elements(ks)), d.at - Elements(ks))
    decreases |ks|
  {
    if ks == [] {
      ExceptNone(d.keys, Elements(ks));
      assert d.at - Elements(ks) == d.at;
    } else {
      RemoveAllIs(d.Remove(ks[0]), ks[1..]);
      ExceptOne(d.keys, ks[0]);
      ExceptBoth(d.keys, {ks[0]}, Elements(ks[1..]));
      assert ks == [ks[0]] + ks[1..];
      assert Elements(ks) == {ks[0]} + Elements(ks[1..]);
    }
  }

  /** Dropping a name after others are taken back, or before: the same. */
  lemma {:induction false} RemoveAllPut(d: Dict<string, int>, names: seq<string>, x: string, at: int)
    requires x !in names
    ensures RemoveAll(d.Put(x, at), names) == RemoveAll(d, names).Put(x, at)
    decreases |names|
  {
    if names != [] {
      var y := names[0];
      WithoutAppend(d.keys, [x], y);
      WithoutAbsent([x], y);
      assert d.Put(x, at).Remove(y) == d.Remove(y).Put(x, at) by {
        assert d.at[x := at] - {y} == (d.at - {y})[x := at];
      }
      RemoveAllPut(d.Remove(y), names[1..], x, at);
    }
  }

  lemma PutRemoved(d: Dict<string, int>, x: string, at: int)
    requires x !in d.keys && x !in d.at
    ensures d.Put(x, at).Remove(x) == d
  {
    WithoutAppend(d.keys, [x], x);
    WithoutAbsent(d.keys, x);
    assert d.at[x := at] - {x} == d.at;
  }

  /** A drop of the wave's own leaves the rest of the list as it was. */
  lemma OwnDrop(d: Dict<string, int>, drops: seq<string>, x: string, at: int)
    requires d.Ok() && x !in d.at && forall y | y in drops :: y in d.at
    ensures RemoveAll(d.Put(x, at), drops + [x]) == RemoveAll(d, drops)
  {
    RemoveAllPut(d, drops, x, at);
    RemoveAllAppend(d.Put(x, at), drops, x);
    RemoveAllEffect(d, drops);
    PutRemoved(RemoveAll(d, drops), x, at);
  }

  /** Another group's drop goes last in the rest of the list, unless it is there. */
  lemma OtherDrop(d: Dict<string, int>, drops: seq<string>, d0: Dict<string, int>, others: seq<string>, x: string, at: int)
    requires d0.Ok() && x !in d0.at && x !in drops && DropsOn(RemoveAll(d, drops), d0, others)
    ensures DropsOn(RemoveAll(d.Put(x, at), drops), d0, AddName(others, x))
  {
    RemoveAllPut(d, drops, x, at);
    hide RemoveAll;
    var rest := RemoveAll(d, drops);
    PutOk(rest, x, at);
    assert x in rest.at <==> x in rest.keys;
    assert x in rest.keys <==> x in others;
    assert x !in others ==> d0.keys + others + [x] == d0.keys + (others + [x]);
  }

  /** What a search gives back leaves the rest of the list, and the first part of it stays. */
  lemma GivenBack(d: Dict<string, int>, drops: seq<string>, d0: Dict<string, int>, others: seq<string>, restored: seq<string>)
    requires d0.Ok() && DropsOn(RemoveAll(d, drops), d0, others) && forall x | x in restored :: x !in d0.at
    ensures DropsOn(RemoveAll(RemoveAll(d, restored), drops), d0, Except(others, Elements(restored)))
  {
    var rest := RemoveAll(d, drops);
    RemovedEither(d, drops, restored);
    hide RemoveAll;
    RestoredFrom(rest, d0, others, restored);
  }

  /** Two lists of names deleted in either order. */
  lemma RemovedEither(d: Dict<string, int>, a: seq<string>, b: seq<string>)
    ensures RemoveAll(RemoveAll(d, a), b) == RemoveAll(RemoveAll(d, b), a)
  {
    RemoveAllIs(d, a);
    RemoveAllIs(d, b);
    RemoveAllIs(RemoveAll(d, a), b);
    RemoveAllIs(RemoveAll(d, b), a);
    hide RemoveAll;
    ExceptBoth(d.keys, Elements(a), Elements(b));
    ExceptBoth(d.keys, Elements(b), Elements(a));
    assert Elements(a) + Elements(b) == Elements(b) + Elements(a);
    assert (d.at - Elements(a)) - Elements(b) == (d.at - Elements(b)) - Elements(a);
  }

  lemma RestoredFrom(rest: Dict<string, int>, d0: Dict<string, int>, others: seq<string>, restored: seq<string>)
    requires d0.Ok() && DropsOn(rest, d0, others) && forall x | x in restored :: x !in d0.at
    ensures DropsOn(RemoveAll(rest, restored), d0, Except(others, Elements(restored)))
  {
    var gone := Elements(restored);
    RemoveAllIs(rest, restored);
    RemoveAllEffect(rest, restored);
    hide RemoveAll;
    ExceptAppend(d0.keys, others, gone);
    ExceptNone(d0.keys, gone);
  }

  /** The names of a group of the wave with several are none that the wave drops. */
  lemma SeveralAreFree(groups: seq<Sub>, d0: Dict<string, int>, known: seq<string>, sub: Sub)
    requires WaveGroups(groups, d0, known) && sub in groups && |sub.names| != 1
    ensures sub.Group? && AllFree(d0, groups, sub.names)
  {
    var i :| 0 <= i < |groups| && groups[i] == sub;
    forall x, g | x in sub.names && g in groups && g.Group? && |g.names| == 1 ensures x !in g.names {
      var j :| 0 <= j < |groups| && groups[j] == g;
      assert Apart(groups[i], groups[j]);
    }
  }

  /** A group of the wave that was not rejected asks for nothing that is dropped. */
  lemma StillWanted(p: Plan, d0: Dict<string, int>, groups: seq<Sub>, known: seq<string>, wave: Wave, a: Account,
                    sub: Sub, x: string)
    requires WaveGroups(groups, d0, known) && DropsBooked(p, d0, groups, wave, a)
    requires sub in groups && sub.Group? && sub.key !in wave.rejected.at && sub.names == [x]
    ensures x !in p.dropped.at
  {
    var i :| 0 <= i < |groups| && groups[i] == sub;
    assert x in groups[i].names;
    assert !Free(d0, groups, x);
    forall g | g in groups && g.Group? && g.names == [x] ensures g == sub {
      var j :| 0 <= j < |groups| && groups[j] == g;
    }
    assert x !in a.drops;
    RemoveAllEffect(p.dropped, a.drops);
    hide RemoveAll, Free;
    var rest := RemoveAll(p.dropped, a.drops);
    assert x in p.dropped.at ==> x in rest.at;
    assert x in rest.at ==> x in d0.keys + a.otherDrops;
  }

  // ----- a refusal in the phase ----------------------------------------------------------

  /** What is live is one of the values. */
  lemma LiveInPool(w: World, id: Id)
    requires w.plan.live.Ok() && id in w.plan.live.at
    ensures w.plan.live.at[id] in Values(w.plan.live)
    ensures w.plan.live.at[id] in Pool(w)
  {
    var i :| 0 <= i < |w.plan.live.keys| && w.plan.live.keys[i] == id;
    assert Values(w.plan.live)[i] == w.plan.live.at[id];
  }

  /** A live group of the wave is refused for the first time: what its rejection answers. */
  lemma WaveRefusal(w: World, d0: Dict<string, int>, groups: seq<Sub>, a: Account, id: Id, now: int)
    requires Phase(w, d0, groups, a) && Quiet(w, Refusal(id, now))
    requires id in w.plan.live.at && w.plan.live.at[id].Group?
    requires w.plan.live.at[id].key !in w.plan.exhausted && w.plan.live.at[id].key.n < |groups|
    ensures var sub, wave := w.plan.live.at[id], WaveIn(w.plan).value; var (q, r) := Rejected(w.plan, id, now);
      && sub in groups && sub.key !in wave.rejected.at && Pool(w)[sub] == 1
      && Judging(q, groups, Noted(wave, sub.key, r, now)) && SearchesFree(q, d0, groups)
      && WaveAnswer(w.plan, sub, q, r) && (q.wave.None? ==> q.pendingCanary.Some? && q.pendingCanary.value.at == now)
      && q.live == w.plan.live.Remove(id)
  {
    LiveInPool(w, id);
    assert Standing(w.plan, Pool(w), d0, groups, WaveIn(w.plan).value, w.plan.live.at[id]);
    assert w.plan.live.at[id].key !in w.plan.searchOf;
    hide Standing, AllStand, DropsBooked, WaveGroups, MadeFree, SearchesFree, Judging;
    WaveRejected(w.plan, d0, groups, WaveIn(w.plan).value, id, now);
  }

  /** The answer to a wave group: a first answer, and the canary if it was the last of them. */
  ghost predicate WaveAnswer(p: Plan, sub: Sub, q: Plan, r: Rejection) {
    && FirstAnswer(p, sub, q.(live := p.live, wave := p.wave, pendingCanary := p.pendingCanary), r.(canary := None))
    && (r.canary.Some? ==> r.canary.value == CANARY_SUB) && (q.wave.None? ==> r.canary.Some?)
  }

  /** What is live is no part of the answer. */
  lemma Lived(p: Plan, p1: Plan, sub: Sub, q: Plan, r: Rejection)
    requires p1 == p.(live := p1.live) && FirstAnswer(p1, sub, q, r)
    ensures FirstAnswer(p, sub, q.(live := p.live), r)
  {
  }

  lemma WaveRejected(p: Plan, d0: Dict<string, int>, groups: seq<Sub>, wave: Wave, id: Id, now: int)
    requires p.Wired() && Numbered(groups) && Judging(p, groups, wave) && SearchesFree(p, d0, groups)
    requires id in p.live.at && IsGroup(p.live.at[id]) && p.live.at[id] in groups
    requires p.live.at[id].key !in p.exhausted && p.live.at[id].key !in p.searchOf
    requires p.live.at[id].key !in wave.rejected.at && InWindow(p, p.live.at[id].key, now)
    ensures var sub := p.live.at[id]; var (q, r) := Rejected(p, id, now);
      && Judging(q, groups, Noted(wave, sub.key, r, now)) && SearchesFree(q, d0, groups)
      && WaveAnswer(p, sub, q, r) && q.live == p.live.Remove(id)
      && (q.wave.None? ==> q.pendingCanary.Some? && q.pendingCanary.value.at == now)
  {
    var sub := p.live.at[id];
    var p1 := p.(live := p.live.Remove(id));
    assert Rejected(p, id, now) == GroupRejected(p1, sub, now);
    assert Judging(p1, groups, wave) && SearchesFree(p1, d0, groups);
    hide Rejected, GroupRejected, SearchesFree, Judging, Numbered;
    WaveGroupRefused(p1, groups, wave, sub, now);
    WaveKeepsFree(p1, sub, now, d0, groups);
    GroupRejectedFrame(p1, sub, now);
    hide FirstAnswer;
    var (q, r) := GroupRejected(p1, sub, now);
    assert q.(live := p1.live, wave := p1.wave, pendingCanary := p1.pendingCanary)
      == q.(wave := p1.wave, pendingCanary := p1.pendingCanary);
    Lived(p, p1, sub, q.(wave := p1.wave, pendingCanary := p1.pendingCanary), r.(canary := None));
  }

  /** Noting a refusal in the wave changes no search. */
  lemma WaveKeepsFree(p: Plan, sub: Sub, now: int, d0: Dict<string, int>, groups: seq<Sub>)
    requires p.Wired() && sub.Group? && SearchesFree(p, d0, groups) && sub.key !in p.searchOf
    ensures SearchesFree(GroupRejected(p, sub, now).0, d0, groups)
  {
    var (q, joined) := WaveFor(p, sub.key, now);
    WaveForFrame(p, sub.key, now);
    SearchKeepsFree(q, sub, now, d0, groups);
    var (searched, r) := Search(q, sub, now);
    hide Search, WaveFor, AllFree;
    if joined.Some? {
      NoteWaveFrame(searched, joined.value, sub.key, r, now);
    }
  }

  /** Any other live state group is refused: what its rejection answers. */
  lemma OtherRefusal(w: World, d0: Dict<string, int>, groups: seq<Sub>, a: Account, id: Id, now: int)
    requires Phase(w, d0, groups, a) && Quiet(w, Refusal(id, now))
    requires id in w.plan.live.at && w.plan.live.at[id].Group?
    requires w.plan.live.at[id].key !in w.plan.exhausted && w.plan.live.at[id].key.n >= |groups|
    ensures var sub := w.plan.live.at[id]; var (q, r) := Rejected(w.plan, id, now);
      && sub !in groups && AllFree(d0, groups, sub.names)
      && OtherAnswer(w.plan, sub, q.(live := w.plan.live), r)
      && Judging(q, groups, WaveIn(w.plan).value) && SearchesFree(q, d0, groups)
      && (r.fault.Some? ==> AllFree(d0, groups, r.fault.value.restored))
      && q.live == w.plan.live.Remove(id)
  {
    var p, sub := w.plan, w.plan.live.at[id];
    var wave := WaveIn(p).value;
    var p1 := p.(live := p.live.Remove(id));
    LiveInPool(w, id);
    InGroups(groups, sub);
    assert Standing(p, Pool(w), d0, groups, wave, sub);
    assert Rejected(p, id, now) == GroupRejected(p1, sub, now);
    assert Judging(p1, groups, wave) && SearchesFree(p1, d0, groups);
    hide Rejected, Standing, AllFree, AllStand, DropsBooked, WaveGroups, MadeFree, SearchesFree, GroupRejected, Pool, Judging;
    OtherGroupRefused(p1, d0, groups, wave, sub, now);
    GroupRejectedFrame(p1, sub, now);
  }

  // ----- what it leaves in the books -----------------------------------------------------

  lemma NotedDrops(groups: seq<Sub>, wave: Wave, drops: seq<string>, sub: Sub, r: Rejection, now: int)
    requires OwnDrops(groups, wave, drops) && sub in groups && sub.Group? && sub.key !in wave.rejected.at
    requires if |sub.names| == 1 then r.newlyDropped == sub.names else r.newlyDropped == []
    ensures OwnDrops(groups, Noted(wave, sub.key, r, now), drops + r.newlyDropped)
  {
    NotedValues(wave, sub.key, Given(KeysOf(r.probes), r.newlyDropped));
    if |sub.names| == 1 {
      assert sub.names == [sub.names[0]];
    }
  }

  lemma WaveDrops(p: Plan, d0: Dict<string, int>, groups: seq<Sub>, known: seq<string>, wave: Wave, a: Account,
                  sub: Sub, q: Plan, r: Rejection, now: int, b: Account)
    requires b.drops == a.drops + r.newlyDropped && b.otherDrops == a.otherDrops
    requires WaveGroups(groups, d0, known) && DropsBooked(p, d0, groups, wave, a)
    requires sub in groups && sub.Group? && sub.key !in wave.rejected.at
    requires if |sub.names| == 1 then r.newlyDropped == sub.names && exists at :: q.dropped == p.dropped.Put(sub.names[0], at)
             else r.newlyDropped == [] && q.dropped == p.dropped
    ensures DropsBooked(q, d0, groups, Noted(wave, sub.key, r, now), b)
  {
    NotedDrops(groups, wave, a.drops, sub, r, now);
    hide WaveGroups, AllFree, OwnDrops, Noted;
    if |sub.names| == 1 {
      var x := sub.names[0];
      assert sub.names == [x];
      StillWanted(p, d0, groups, known, wave, a, sub, x);
      var at :| q.dropped == p.dropped.Put(x, at);
      PutOk(p.dropped, x, at);
      OwnDrop(p.dropped, a.drops, x, at);
    } else {
      assert a.drops + r.newlyDropped == a.drops;
    }
  }

  lemma OtherDrops(p: Plan, d0: Dict<string, int>, groups: seq<Sub>, wave: Wave, a: Account, sub: Sub, q: Plan, r: Rejection,
                   b: Account)
    requires d0.Ok() && DropsBooked(p, d0, groups, wave, a) && OtherAnswer(p, sub, q, r)
    requires AllFree(d0, groups, sub.names) && (r.fault.Some? ==> AllFree(d0, groups, r.fault.value.restored))
    requires b.drops == a.drops && b.otherDrops == LeftByOthers(a.otherDrops, sub, r)
    ensures DropsBooked(q, d0, groups, wave, b)
  {
    forall x | x in a.drops ensures !Free(d0, groups, x) {
      var g :| g in groups && g.Group? && g.names == [x] && g.key in wave.rejected.at;
    }
    hide OwnDrops, Free;
    if r.fault.Some? {
      var restored := r.fault.value.restored;
      forall x | x in restored ensures x !in d0.at && x !in a.drops {
        IsFree(d0, groups, x);
      }
      RemoveAllEffect(p.dropped, restored);
      GivenBack(p.dropped, a.drops, d0, a.otherDrops, restored);
      ExceptFrom(a.otherDrops, Elements(restored));
    } else if |sub.names| == 1 {
      var x := sub.names[0];
      assert x in sub.names;
      IsFree(d0, groups, x);
      var at :| q.dropped == p.dropped.Put(x, at);
      PutOk(p.dropped, x, at);
      OtherDrop(p.dropped, a.drops, d0, a.otherDrops, x, at);
    }
  }

  lemma IsFree(d0: Dict<string, int>, groups: seq<Sub>, x: string)
    requires Free(d0, groups, x)
    ensures x !in d0.at
  {
  }

  lemma ElementsBoth<T>(a: seq<T>, b: seq<T>)
    ensures Elements(a + b) == Elements(a) + Elements(b)
  {
  }

  lemma ProbeKeys(probes: seq<Sub>, first: nat, next: nat, k: Key)
    requires forall probe | probe in probes :: IsGroup(probe) && first <= probe.key.n < next
    requires k in KeysOf(probes)
    ensures k.State? && first <= k.n < next
  {
    var j :| 0 <= j < |probes| && KeysOf(probes)[j] == k;
    assert probes[j] in probes;
  }

  lemma WaveProbes(p: Plan, d0: Dict<string, int>, groups: seq<Sub>, wave: Wave, a: Account, sub: Sub, q: Plan,
                   r: Rejection, now: int, b: Account)
    requires b.probes == a.probes + KeysOf(r.probes) && b.otherProbes == a.otherProbes
    requires ProbesBooked(p, d0, groups, wave, a) && sub.Group? && sub.key !in wave.rejected.at
    requires |groups| <= p.nextGroup <= q.nextGroup && SearchesFree(q, d0, groups)
    requires forall probe | probe in r.probes :: IsGroup(probe) && p.nextGroup <= probe.key.n < q.nextGroup
    requires q.searchOf.Keys == p.searchOf.Keys + Elements(KeysOf(r.probes))
    ensures ProbesBooked(q, d0, groups, Noted(wave, sub.key, r, now), b)
  {
    var keys := KeysOf(r.probes);
    hide SearchesFree;
    forall k | k in keys ensures k.State? && p.nextGroup <= k.n < q.nextGroup {
      ProbeKeys(r.probes, p.nextGroup, q.nextGroup, k);
    }
    NotedValues(wave, sub.key, Given(keys, r.newlyDropped));
    ElementsBoth(a.probes, keys);
  }

  lemma OtherProbes(p: Plan, d0: Dict<string, int>, groups: seq<Sub>, wave: Wave, a: Account, sub: Sub, q: Plan, r: Rejection,
                    b: Account)
    requires b.probes == a.probes && b.otherProbes == a.otherProbes + KeysOf(r.probes)
    requires ProbesBooked(p, d0, groups, wave, a) && OtherAnswer(p, sub, q, r)
    requires |groups| <= p.nextGroup && SearchesFree(q, d0, groups)
    ensures ProbesBooked(q, d0, groups, wave, b)
  {
    var keys := KeysOf(r.probes);
    hide SearchesFree;
    forall k | k in keys ensures k.State? && p.nextGroup <= k.n < q.nextGroup {
      ProbeKeys(r.probes, p.nextGroup, q.nextGroup, k);
    }
    ElementsBoth(a.otherProbes, keys);
  }

  // ----- who still stands ----------------------------------------------------------------

  /** Taking out place `i` takes one copy out. */
  lemma OneLess<T>(s: seq<T>, i: nat)
    requires i < |s|
    ensures multiset(s[..i] + s[i + 1..]) == multiset(s) - multiset{s[i]}
  {
    assert s == s[..i] + [s[i]] + s[i + 1..];
  }

  lemma ValuesLess(live: Dict<Id, Sub>, id: Id)
    requires live.Ok() && id in live.at
    ensures live.Remove(id).Ok()
    ensures multiset(Values(live.Remove(id))) == multiset(Values(live)) - multiset{live.at[id]}
    ensures live.at[id] in Values(live)
  {
    var i := ValuesRemoved(live, id);
    OneLess(Values(live), i);
  }

  /** What a refusal that withdraws nothing does to the caller. */
  lemma RefusalStep(w: World, id: Id, now: int)
    requires w.plan.Ok() && Withdrawn(Rejected(w.plan, id, now).1) == []
    ensures var (q, r) := Rejected(w.plan, id, now); var w2 := Step(w, Refusal(id, now));
      w2.plan == q && w2.made == Learn(w.made, r.probes) && w2.held == w.held + HandedBack(r)
  {
    hide Rejected, Learn, HandedBack;
    KeepNothing(w.held);
  }

  /** One live copy gone, and what is handed back held. */
  lemma PoolAfter(w: World, w2: World, id: Id, handed: seq<Sub>)
    requires w.plan.live.Ok() && id in w.plan.live.at
    requires w2.plan.live == w.plan.live.Remove(id) && w2.held == w.held + handed
    ensures w2.plan.live.Ok() && w.plan.live.at[id] in Pool(w)
    ensures Pool(w2) == Pool(w) - multiset{w.plan.live.at[id]} + multiset(handed)
  {
    ValuesLess(w.plan.live, id);
    assert multiset(w2.held) == multiset(w.held) + multiset(handed);
  }

  /** The others stand as they did when one group is refused; and so does what is handed back. */
  lemma OthersStand(p: Plan, pool: multiset<Sub>, d0: Dict<string, int>, groups: seq<Sub>, wave: Wave, sub: Sub,
                    q: Plan, handed: seq<Sub>, noted: Wave)
    requires AllStand(p, pool, d0, groups, wave) && sub in pool && IsGroup(sub) && Numbered(groups)
    requires p.exhausted <= q.exhausted
    requires forall s | s in handed && IsGroup(s) ::
      s.key in q.exhausted || (s.key.n >= |groups| && AllFree(d0, groups, s.names))
    requires if sub in groups then pool[sub] == 1 && noted.rejected.at.Keys == wave.rejected.at.Keys + {sub.key}
             else noted == wave
    ensures AllStand(q, pool - multiset{sub} + multiset(handed), d0, groups, noted)
  {
    var pool2 := pool - multiset{sub} + multiset(handed);
    hide AllFree;
    forall s | s in pool2 && IsGroup(s)
      ensures Standing(q, pool2, d0, groups, noted, s)
    {
      if s !in handed {
        assert s in pool && Standing(p, pool, d0, groups, wave, s);
        if s.key !in q.exhausted && s.key.n < |groups| {
          assert s in groups && pool[s] == 1 && s != sub;
          SameKey(groups, s, sub);
        }
      }
    }
  }

  lemma RefusedStands(w: World, w2: World, id: Id, handed: seq<Sub>, d0: Dict<string, int>, groups: seq<Sub>,
                      wave: Wave, noted: Wave)
    requires w.plan.live.Ok() && id in w.plan.live.at && IsGroup(w.plan.live.at[id]) && Numbered(groups)
    requires AllStand(w.plan, Pool(w), d0, groups, wave) && w.plan.exhausted <= w2.plan.exhausted
    requires w2.plan.live == w.plan.live.Remove(id) && w2.held == w.held + handed
    requires forall s | s in handed && IsGroup(s) ::
      s.key in w2.plan.exhausted || (s.key.n >= |groups| && AllFree(d0, groups, s.names))
    requires if w.plan.live.at[id] in groups
      then Pool(w)[w.plan.live.at[id]] == 1 && noted.rejected.at.Keys == wave.rejected.at.Keys + {w.plan.live.at[id].key}
      else noted == wave
    ensures w2.plan.live.Ok() && AllStand(w2.plan, Pool(w2), d0, groups, noted)
  {
    hide AllStand, AllFree;
    PoolAfter(w, w2, id, handed);
    hide Pool;
    OthersStand(w.plan, Pool(w), d0, groups, wave, w.plan.live.at[id], w2.plan, handed, noted);
  }

  lemma SameKey(groups: seq<Sub>, s: Sub, t: Sub)
    requires Numbered(groups) && s in groups && t.Group?
    ensures s.Group? && s.key.State? && (t in groups && s.key == t.key ==> s == t)
  {
  }

  /** What is made of groups that ask only for free names stays so. */
  lemma {:induction false} LearnFree(made: map<nat, seq<string>>, subs: seq<Sub>, d0: Dict<string, int>, groups: seq<Sub>)
    requires MadeFree(made, d0, groups)
    requires forall s | s in subs && IsGroup(s) && |groups| <= s.key.n :: AllFree(d0, groups, s.names)
    ensures MadeFree(Learn(made, subs), d0, groups)
    decreases |subs|
  {
    if subs != [] {
      assert subs[0] in subs;
      LearnFree(if IsGroup(subs[0]) then made[subs[0].key.n := subs[0].names] else made, subs[1..], d0, groups);
    }
  }

  /** Parts of what asks only for free names do too. */
  lemma PartsFree(probes: seq<Sub>, names: seq<string>, d0: Dict<string, int>, groups: seq<Sub>)
    requires forall probe, x | probe in probes && probe.Group? && x in probe.names :: x in names
    requires probes != [] ==> AllFree(d0, groups, names)
    ensures forall probe | probe in probes && probe.Group? :: AllFree(d0, groups, probe.names)
  {
  }

  /** What the rejection of a wave group hands back asks only for free names. */
  lemma WaveHanded(p: Plan, d0: Dict<string, int>, groups: seq<Sub>, known: seq<string>, sub: Sub, q: Plan, r: Rejection)
    requires WaveGroups(groups, d0, known) && sub in groups && |groups| <= p.nextGroup && WaveAnswer(p, sub, q, r)
    ensures Withdrawn(r) == [] && q.exhausted == p.exhausted
    ensures forall s | s in HandedBack(r) && IsGroup(s) :: s.key.n >= |groups| && AllFree(d0, groups, s.names)
    ensures forall s | s in r.probes && IsGroup(s) :: AllFree(d0, groups, s.names)
  {
    if |sub.names| != 1 {
      SeveralAreFree(groups, d0, known, sub);
    }
    hide WaveGroups, AllFree;
    PartsFree(r.probes, sub.names, d0, groups);
    assert forall s | s in HandedBack(r) && IsGroup(s) :: s in r.probes;
  }

  lemma WaveRefusalStands(w: World, d0: Dict<string, int>, groups: seq<Sub>, a: Account, id: Id, now: int,
                          w2: World, r: Rejection)
    requires Phase(w, d0, groups, a) && Quiet(w, Refusal(id, now))
    requires id in w.plan.live.at && w.plan.live.at[id].Group?
    requires w2 == Step(w, Refusal(id, now)) && r == Rejected(w.plan, id, now).1
    requires w.plan.live.at[id].key !in w.plan.exhausted && w.plan.live.at[id].key.n < |groups|
    ensures w2.plan.Ok() && MadeFree(w2.made, d0, groups)
    ensures AllStand(w2.plan, Pool(w2), d0, groups, Noted(WaveIn(w.plan).value, w.plan.live.at[id].key, r, now))
  {
    var p, sub, wave := w.plan, w.plan.live.at[id], WaveIn(w.plan).value;
    var q := Rejected(p, id, now).0;
    hide Rejected, Step, DropsBooked, ProbesBooked, Standing, AllFree, Learn, HandedBack, WaveAnswer, MadeFree, Pool, AllStand;
    RejectedOk(p, id, now);
    WaveRefusal(w, d0, groups, a, id, now);
    WaveHanded(p, d0, groups, p.properties, sub, q, r);
    assert Numbered(groups);
    hide WaveGroups, Judging;
    RefusalStep(w, id, now);
    LearnFree(w.made, r.probes, d0, groups);
    RefusedStands(w, w2, id, HandedBack(r), d0, groups, wave, Noted(wave, sub.key, r, now));
  }

  lemma OtherRefusalStands(w: World, d0: Dict<string, int>, groups: seq<Sub>, a: Account, id: Id, now: int,
                          w2: World, r: Rejection)
    requires Phase(w, d0, groups, a) && Quiet(w, Refusal(id, now))
    requires id in w.plan.live.at && w.plan.live.at[id].Group?
    requires w2 == Step(w, Refusal(id, now)) && r == Rejected(w.plan, id, now).1
    requires w.plan.live.at[id].key !in w.plan.exhausted && w.plan.live.at[id].key.n >= |groups|
    ensures w2.plan.Ok() && MadeFree(w2.made, d0, groups)
    ensures AllStand(w2.plan, Pool(w2), d0, groups, WaveIn(w.plan).value)
  {
    var p, sub, wave := w.plan, w.plan.live.at[id], WaveIn(w.plan).value;
    var q := Rejected(p, id, now).0;
    RejectedOk(p, id, now);
    OtherRefusal(w, d0, groups, a, id, now);
    assert Withdrawn(r) == [];
    assert HandedBack(r) == r.probes + (if r.fault.Some? then r.fault.value.retry else []);
    assert forall s | s in HandedBack(r) && IsGroup(s) :: s.key in q.exhausted || s in r.probes;
    hide Rejected, Step, Judging, DropsBooked, ProbesBooked, Standing, AllFree, Learn, HandedBack;
    RefusalStep(w, id, now);
    PartsFree(r.probes, sub.names, d0, groups);
    LearnFree(w.made, r.probes, d0, groups);
    assert Numbered(groups);
    hide MadeFree, WaveGroups, Pool, AllStand;
    RefusedStands(w, w2, id, HandedBack(r), d0, groups, wave, wave);
  }

  lemma WaveBooked(w: World, groups: seq<Sub>, a: Account, id: Id, now: int)
    requires w.plan.Ok() && id in w.plan.live.at && IsGroup(w.plan.live.at[id]) && w.plan.live.at[id] in groups
    requires w.plan.live.at[id].key !in w.plan.exhausted
    requires var (q, r) := Rejected(w.plan, id, now); WaveAnswer(w.plan, w.plan.live.at[id], q, r)
    ensures var r := Rejected(w.plan, id, now).1;
      Booked(w, Refusal(id, now), groups, a)
        == a.(probes := a.probes + KeysOf(r.probes), drops := a.drops + r.newlyDropped)
  {
    hide Rejected;
  }

  lemma OtherBooked(w: World, groups: seq<Sub>, a: Account, id: Id, now: int)
    requires w.plan.Ok() && id in w.plan.live.at && IsGroup(w.plan.live.at[id]) && w.plan.live.at[id] !in groups
    requires w.plan.live.at[id].key !in w.plan.exhausted
    requires var (q, r) := Rejected(w.plan, id, now); OtherAnswer(w.plan, w.plan.live.at[id], q.(live := w.plan.live), r)
    ensures var sub := w.plan.live.at[id]; var r := Rejected(w.plan, id, now).1;
      Booked(w, Refusal(id, now), groups, a) == a.(
        otherProbes := a.otherProbes + KeysOf(r.probes),
        otherDrops := LeftByOthers(a.otherDrops, sub, r))
  {
    hide Rejected;
  }

  lemma WaveRefusalBooks(w: World, d0: Dict<string, int>, groups: seq<Sub>, a: Account, id: Id, now: int,
                         q: Plan, r: Rejection, b: Account)
    requires Phase(w, d0, groups, a) && Quiet(w, Refusal(id, now))
    requires id in w.plan.live.at && w.plan.live.at[id].Group?
    requires (q, r) == Rejected(w.plan, id, now) && b == Booked(w, Refusal(id, now), groups, a)
    requires w.plan.live.at[id].key !in w.plan.exhausted && w.plan.live.at[id].key.n < |groups|
    ensures var noted := Noted(WaveIn(w.plan).value, w.plan.live.at[id].key, r, now);
      Judging(q, groups, noted) && DropsBooked(q, d0, groups, noted, b) && ProbesBooked(q, d0, groups, noted, b)
    ensures q.properties == w.plan.properties
  {
    var p, sub, wave := w.plan, w.plan.live.at[id], WaveIn(w.plan).value;
    WaveRefusal(w, d0, groups, a, id, now);
    hide Rejected, AllStand, Standing, MadeFree, Pool;
    WaveBooked(w, groups, a, id, now);
    hide Booked, Judging, WaveGroups, DropsBooked, ProbesBooked, SearchesFree;
    WaveDrops(p, d0, groups, p.properties, wave, a, sub, q, r, now, b);
    WaveProbes(p, d0, groups, wave, a, sub, q, r, now, b);
  }

  lemma SameSearches(p: Plan, q: Plan, d0: Dict<string, int>, groups: seq<Sub>)
    requires SearchesFree(p, d0, groups) && q.searchOf == p.searchOf && q.searches == p.searches
    ensures SearchesFree(q, d0, groups)
  {
  }

  lemma SameBooks(p: Plan, q: Plan, d0: Dict<string, int>, groups: seq<Sub>, wave: Wave, a: Account)
    requires q == p.(live := q.live) && DropsBooked(p, d0, groups, wave, a) && ProbesBooked(p, d0, groups, wave, a)
    ensures DropsBooked(q, d0, groups, wave, a) && ProbesBooked(q, d0, groups, wave, a)
  {
  }

  lemma OtherKnows(p: Plan, q: Plan, sub: Sub, r: Rejection)
    requires OtherAnswer(p, sub, q, r)
    ensures q.properties == p.properties
  {
  }

  lemma OtherRefusalBooks(w: World, d0: Dict<string, int>, groups: seq<Sub>, a: Account, id: Id, now: int,
                         q: Plan, r: Rejection, b: Account)
    requires Phase(w, d0, groups, a) && Quiet(w, Refusal(id, now))
    requires id in w.plan.live.at && w.plan.live.at[id].Group?
    requires (q, r) == Rejected(w.plan, id, now) && b == Booked(w, Refusal(id, now), groups, a)
    requires w.plan.live.at[id].key !in w.plan.exhausted && w.plan.live.at[id].key.n >= |groups|
    ensures var wave := WaveIn(w.plan).value;
      Judging(q, groups, wave) && DropsBooked(q, d0, groups, wave, b) && ProbesBooked(q, d0, groups, wave, b)
    ensures q.properties == w.plan.properties
  {
    var p, sub, wave := w.plan, w.plan.live.at[id], WaveIn(w.plan).value;
    OtherRefusal(w, d0, groups, a, id, now);
    hide Rejected, AllStand, Standing, MadeFree, AllFree, Pool;
    OtherBooked(w, groups, a, id, now);
    var q1 := q.(live := p.live);
    assert |groups| <= p.nextGroup && d0.Ok();
    hide Booked, DropsBooked, ProbesBooked, LeftByOthers, SearchesFree, OtherAnswer, WaveGroups, Judging;
    OtherDrops(p, d0, groups, wave, a, sub, q1, r, b);
    assert SearchesFree(q1, d0, groups) by { SameSearches(q, q1, d0, groups); }
    OtherProbes(p, d0, groups, wave, a, sub, q1, r, b);
    SameBooks(q1, q, d0, groups, wave, b);
    OtherKnows(p, q1, sub, r);
  }

  /** A refusal of a group that was judged in its search: it is handed straight back. */
  lemma JudgedMoves(w: World, id: Id, now: int)
    requires w.plan.Ok() && w.plan.faulted == {} && id in w.plan.live.at && IsGroup(w.plan.live.at[id])
    requires w.plan.live.at[id].key in w.plan.exhausted
    ensures var w2 := Step(w, Refusal(id, now));
      w2.plan.Ok() && w2.plan == w.plan.(live := w2.plan.live) && Pool(w2) == Pool(w) && w2.made == w.made
  {
    var sub := w.plan.live.at[id];
    assert Rejected(w.plan, id, now) == (w.plan.(live := w.plan.live.Remove(id)), RetryOnly(WholeGroup, sub));
    assert HandedBack(RetryOnly(WholeGroup, sub)) == [sub];
    RefusalStep(w, id, now);
    PoolAfter(w, Step(w, Refusal(id, now)), id, [sub]);
    ValuesLess(w.plan.live, id);
  }

  lemma GroupRefusedKeepsPhase(w: World, d0: Dict<string, int>, groups: seq<Sub>, a: Account, id: Id, now: int)
    requires Phase(w, d0, groups, a) && Quiet(w, Refusal(id, now))
    requires id in w.plan.live.at && w.plan.live.at[id].Group? && w.plan.live.at[id].key !in w.plan.exhausted
    ensures Phase(Step(w, Refusal(id, now)), d0, groups, Booked(w, Refusal(id, now), groups, a))
  {
    var (q, r) := Rejected(w.plan, id, now);
    var w2, b := Step(w, Refusal(id, now)), Booked(w, Refusal(id, now), groups, a);
    assert w2.plan == q;
    hide Rejected, Step, AllStand, DropsBooked, ProbesBooked, Booked, MadeFree;
    if w.plan.live.at[id].key.n < |groups| {
      WaveRefusalStands(w, d0, groups, a, id, now, w2, r);
      WaveRefusalBooks(w, d0, groups, a, id, now, q, r, b);
    } else {
      OtherRefusalStands(w, d0, groups, a, id, now, w2, r);
      OtherRefusalBooks(w, d0, groups, a, id, now, q, r, b);
    }
  }

  // ----- what every quiet event keeps ----------------------------------------------------

  /** What is live or held moves: every copy that is there was there, or asks only for free names. */
  lemma MovesKeepPhase(w: World, w2: World, d0: Dict<string, int>, groups: seq<Sub>, a: Account)
    requires Phase(w, d0, groups, a) && w2.plan.Ok() && w2.made == w.made
    requires w2.plan == w.plan.(live := w2.plan.live, nextId := w2.plan.nextId, unavailable := w2.plan.unavailable)
    requires forall s | IsGroup(s) :: Pool(w2)[s] == Pool(w)[s] || (s.key.n >= |groups| && AllFree(d0, groups, s.names))
    ensures Phase(w2, d0, groups, a)
  {
    hide Pool;
    MovedStand(w.plan, Pool(w), d0, groups, WaveIn(w.plan).value, w2.plan, Pool(w2));
    MovedBooks(w.plan, w2.plan, d0, groups, WaveIn(w.plan).value, a);
    hide AllStand, DropsBooked, ProbesBooked, Judging, WaveGroups, MadeFree, Plan.Ok;
  }

  lemma MovedStand(p: Plan, pool: multiset<Sub>, d0: Dict<string, int>, groups: seq<Sub>, wave: Wave, q: Plan,
                   pool2: multiset<Sub>)
    requires AllStand(p, pool, d0, groups, wave) && q.exhausted == p.exhausted
    requires forall s | IsGroup(s) :: pool2[s] == pool[s] || (s.key.n >= |groups| && AllFree(d0, groups, s.names))
    ensures AllStand(q, pool2, d0, groups, wave)
  {
    hide AllFree;
    forall s | s in pool2 && IsGroup(s)
      ensures Standing(q, pool2, d0, groups, wave, s)
    {
      if pool2[s] == pool[s] {
        assert Standing(p, pool, d0, groups, wave, s);
      }
    }
  }

  lemma MovedBooks(p: Plan, q: Plan, d0: Dict<string, int>, groups: seq<Sub>, wave: Wave, a: Account)
    requires Judging(p, groups, wave) && DropsBooked(p, d0, groups, wave, a) && ProbesBooked(p, d0, groups, wave, a)
    requires q == p.(live := q.live, nextId := q.nextId, unavailable := q.unavailable)
    ensures Judging(q, groups, wave) && DropsBooked(q, d0, groups, wave, a) && ProbesBooked(q, d0, groups, wave, a)
  {
    hide OwnDrops, DropsOn, AllFree;
  }

  lemma FixedRefusedMoves(w: World, id: Id, now: int)
    requires w.plan.Ok() && (id in w.plan.live.at ==> w.plan.live.at[id].Single?)
    ensures var w2 := Step(w, Refusal(id, now));
      && w2.plan.Ok() && w2.made == w.made
      && w2.plan == w.plan.(live := w2.plan.live, unavailable := w2.plan.unavailable)
      && forall s | IsGroup(s) :: Pool(w2)[s] == Pool(w)[s]
  {
    RejectedOk(w.plan, id, now);
    KeepNothing(w.held);
    assert Step(w, Refusal(id, now)).held == w.held;
    if id in w.plan.live.at {
      ValuesLess(w.plan.live, id);
    }
  }

  lemma EndMoves(w: World, id: Id)
    requires w.plan.Ok()
    ensures var w2 := Step(w, End(id));
      w2.plan.Ok() && w2.plan == w.plan.(live := w2.plan.live) && Pool(w2) == Pool(w) && w2.made == w.made
  {
    if id in w.plan.live.at {
      ValuesLess(w.plan.live, id);
      assert multiset(w.held + [w.plan.live.at[id]]) == multiset(w.held) + multiset{w.plan.live.at[id]};
    } else {
      assert w.held + [] == w.held;
    }
  }

  lemma ActivationMoves(w: World, i: nat)
    requires w.plan.Ok() && forall id | id in w.plan.live.at :: id.n < w.plan.nextId
    ensures var w2 := Step(w, Activation(i));
      && w2.plan.Ok() && Pool(w2) == Pool(w) && w2.made == w.made
      && w2.plan == w.plan.(live := w2.plan.live, nextId := w2.plan.nextId)
  {
    if i < |w.held| {
      ActivatedValues(w.plan, w.held[i]);
      var next := Activate(w.plan, w.held[i]).0;
      assert Step(w, Activation(i)) == w.(plan := next, held := w.held[..i] + w.held[i + 1..]);
      assert next == w.plan.(live := next.live, nextId := next.nextId) && next.Ok();
      hide Activate, Step, Plan.Ok;
      OneLess(w.held, i);
      assert w.held[i] in w.held;
      assert multiset(Values(w.plan.live) + [w.held[i]]) == multiset(Values(w.plan.live)) + multiset{w.held[i]};
    }
  }

  lemma RenewMoves(w: World)
    requires w.plan.Ok()
    ensures var w2 := Step(w, Renew);
      && w2.plan.Ok() && Pool(w2) == Pool(w) && w2.made == w.made
      && w2.plan == w.plan.(live := w2.plan.live, nextId := w2.plan.nextId)
  {
    SumRenewed(w.plan);
  }

  lemma StrayMoves(w: World, n: nat)
    requires w.plan.Ok() && (forall id | id in w.plan.live.at :: id.n < w.plan.nextId)
    ensures var w2 := Step(w, Stray(n));
      && w2.plan.Ok() && w2.made == w.made
      && w2.plan == w.plan.(live := w2.plan.live, nextId := w2.plan.nextId)
      && (n !in w.made ==> w2 == w)
      && forall s | n in w.made && s != Group(State(n), w.made[n]) :: Pool(w2)[s] == Pool(w)[s]
  {
    if n in w.made {
      var sub := Group(State(n), w.made[n]);
      ActivatedValues(w.plan, sub);
      assert multiset(Values(w.plan.live) + [sub]) == multiset(Values(w.plan.live)) + multiset{sub};
    }
  }

  lemma StrayKeepsPhase(w: World, n: nat, d0: Dict<string, int>, groups: seq<Sub>, a: Account)
    requires IdsSound(w.plan, w.dead) && Phase(w, d0, groups, a) && Quiet(w, Stray(n))
    ensures Phase(Step(w, Stray(n)), d0, groups, a)
  {
    StrayMoves(w, n);
    WaveKey(groups, State(n));
    assert |groups| <= n;
    hide Step, Pool;
    if n in w.made {
      assert AllFree(d0, groups, w.made[n]);
      MovesKeepPhase(w, Step(w, Stray(n)), d0, groups, a);
    }
  }

  // ----- discovery -----------------------------------------------------------------------

  /** What discovery hands out: groups of new names, no name in two of them. */
  lemma FoundGroups(p: Plan, names: seq<string>)
    ensures var (q, found) := AddProperties(p, names);
      && q == p.(properties := q.properties, nextGroup := q.nextGroup) && p.nextGroup <= q.nextGroup
      && (forall x | x in p.properties :: x in q.properties)
      && (forall i | 0 <= i < |found| ::
            found[i].Group? && found[i].key == State(p.nextGroup + i) && |found[i].names| >= 1)
      && (forall s, x | s in found && s.Group? && x in s.names :: x in q.properties && x !in p.properties)
      && (forall i, j | 0 <= i < |found| && 0 <= j < |found| && i != j :: Apart(found[i], found[j]))
  {
    var newNames := Fresh(names, Elements(p.properties));
    var (q, found) := AddProperties(p, names);
    FreshEffect(names, Elements(p.properties));
    CutApart(newNames, p.nextGroup);
    assert found == StateGroups(Chunks(newNames, MAX_GROUP_SIZE), p.nextGroup);
    assert q == p.(properties := p.properties + newNames, nextGroup := p.nextGroup + |found|);
    hide AddProperties, StateGroups, Chunks, Apart;
    forall s, x | s in found && s.Group? && x in s.names
      ensures x in q.properties && x !in p.properties
    {
      var i :| 0 <= i < |found| && found[i] == s;
      assert x in newNames;
    }
  }

  lemma DiscoveryStep(w: World, names: seq<string>)
    requires w.plan.Ok()
    ensures var (q, found) := AddProperties(w.plan, names); var w2 := Step(w, Discovery(names));
      && w2.plan == q && q.live == w.plan.live && q.Ok() && Pool(w2) == Pool(w) + multiset(found)
      && w2.made == Learn(w.made, found)
  {
    var found := AddProperties(w.plan, names).1;
    assert multiset(w.held + found) == multiset(w.held) + multiset(found);
  }

  /** New names are none the wave knows. */
  lemma NewNamesFree(d0: Dict<string, int>, groups: seq<Sub>, known: seq<string>, names: seq<string>)
    requires WaveGroups(groups, d0, known) && forall x | x in names :: x !in known
    ensures AllFree(d0, groups, names)
  {
    forall g, x | g in groups && g.Group? && x in g.names ensures x in known {
      var i :| 0 <= i < |groups| && groups[i] == g;
    }
  }

  lemma NewcomersStand(p: Plan, pool: multiset<Sub>, d0: Dict<string, int>, groups: seq<Sub>, wave: Wave, q: Plan,
                       found: seq<Sub>)
    requires AllStand(p, pool, d0, groups, wave)
    requires q.exhausted == p.exhausted
    requires forall s | s in found :: IsGroup(s) && |groups| <= s.key.n && AllFree(d0, groups, s.names)
    ensures AllStand(q, pool + multiset(found), d0, groups, wave)
  {
    var all := pool + multiset(found);
    hide AllFree;
    forall s | s in all && IsGroup(s)
      ensures Standing(q, all, d0, groups, wave, s)
    {
      if s !in found {
        assert s in pool && Standing(p, pool, d0, groups, wave, s);
      }
    }
  }

  lemma ListsGrow(p: Plan, q: Plan, d0: Dict<string, int>, groups: seq<Sub>, wave: Wave, a: Account)
    requires WaveGroups(groups, d0, p.properties)
    requires Judging(p, groups, wave) && DropsBooked(p, d0, groups, wave, a) && ProbesBooked(p, d0, groups, wave, a)
    requires q == p.(properties := q.properties, nextGroup := q.nextGroup) && p.nextGroup <= q.nextGroup
    requires forall x | x in p.properties :: x in q.properties
    ensures WaveGroups(groups, d0, q.properties)
    ensures Judging(q, groups, wave) && DropsBooked(q, d0, groups, wave, a) && ProbesBooked(q, d0, groups, wave, a)
  {
    hide OwnDrops, DropsOn, AllFree, Apart;
  }

  lemma DiscoveryKeepsPhase(w: World, names: seq<string>, d0: Dict<string, int>, groups: seq<Sub>, a: Account)
    requires Phase(w, d0, groups, a)
    ensures Phase(Step(w, Discovery(names)), d0, groups, a)
  {
    var p, wave := w.plan, WaveIn(w.plan).value;
    var (q, found) := AddProperties(p, names);
    FoundGroups(p, names);
    DiscoveryStep(w, names);
    hide Step, AddProperties, Pool, AllStand, Apart, Learn;
    forall s | s in found ensures IsGroup(s) && |groups| <= s.key.n && AllFree(d0, groups, s.names) {
      var i :| 0 <= i < |found| && found[i] == s;
      NewNamesFree(d0, groups, p.properties, s.names);
    }
    NewcomersStand(p, Pool(w), d0, groups, wave, q, found);
    LearnFree(w.made, found, d0, groups);
    ListsGrow(p, q, d0, groups, wave, a);
    hide Judging, DropsBooked, ProbesBooked, WaveGroups, MadeFree;
  }

  /** Whatever is no refusal of a group, or of one judged already, books nothing. */
  lemma NotBooked(w: World, e: Event, groups: seq<Sub>, a: Account)
    requires w.plan.Ok()
    requires e.Refusal? && e.id in w.plan.live.at && w.plan.live.at[e.id].Group? ==>
      w.plan.live.at[e.id].key in w.plan.exhausted
    ensures Booked(w, e, groups, a) == a
  {
  }

  /** EVERY QUIET EVENT KEEPS THE BOOKS: what refusals have done is what the account says. */
  lemma QuietKeepsPhase(w: World, e: Event, d0: Dict<string, int>, groups: seq<Sub>, a: Account)
    requires Inv(w) && Phase(w, d0, groups, a) && Quiet(w, e)
    ensures Phase(Step(w, e), d0, groups, Booked(w, e, groups, a))
  {
    assert w.plan.Ok() && IdsSound(w.plan, w.dead) && w.plan.faulted == {};
    hide Inv, Step, Phase, Pool, Rejected, Booked;
    if e.Refusal? && e.id in w.plan.live.at && w.plan.live.at[e.id].Group?
       && w.plan.live.at[e.id].key !in w.plan.exhausted {
      GroupRefusedKeepsPhase(w, d0, groups, a, e.id, e.now);
    } else {
      NotBooked(w, e, groups, a);
      if e.Discovery? {
        DiscoveryKeepsPhase(w, e.names, d0, groups, a);
      } else if e.Stray? {
        StrayKeepsPhase(w, e.n, d0, groups, a);
      } else {
        QuietMoves(w, e);
        MovesKeepPhase(w, Step(w, e), d0, groups, a);
      }
    }
  }

  /** Nothing else moves a copy of a group in or out. */
  lemma QuietMoves(w: World, e: Event)
    requires w.plan.Ok() && IdsSound(w.plan, w.dead) && w.plan.faulted == {} && Quiet(w, e)
    requires !e.Discovery? && !e.Stray?
    requires e.Refusal? && e.id in w.plan.live.at && w.plan.live.at[e.id].Group? ==>
      w.plan.live.at[e.id].key in w.plan.exhausted
    ensures var w2 := Step(w, e);
      && w2.plan.Ok() && w2.made == w.made
      && w2.plan == w.plan.(live := w2.plan.live, nextId := w2.plan.nextId, unavailable := w2.plan.unavailable)
      && forall s | IsGroup(s) :: Pool(w2)[s] == Pool(w)[s]
  {
    hide Step, Pool, Rejected, Plan.Ok;
    match e
    case Refusal(id, now) =>
      if id in w.plan.live.at && w.plan.live.at[id].Group? {
        JudgedMoves(w, id, now);
      } else {
        FixedRefusedMoves(w, id, now);
      }
    case Renew => RenewMoves(w);
    case End(id) => EndMoves(w, id);
    case Activation(i) => ActivationMoves(w, i);
  }
}
