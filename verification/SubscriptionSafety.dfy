/** What every operation of the plan keeps, driven by a caller that keeps what it is handed:

      every known name is dropped, or asked for by a state group that is live or held;
      every fixed subscription is live, held or unavailable;
      every group is as it was minted, of 1 to 16 names, and no id is live twice. */
module SubscriptionSafety {
  import opened Collections
  import opened Catalogue
  import opened SubscriptionModel

  /** The plan and its caller: what the caller holds for a later `activate`, the names of every
      state group minted since the last `initial`, and every id that was live and no longer is. */
  datatype World = World(plan: Plan, held: seq<Sub>, made: map<nat, seq<string>>, dead: set<Id>)

  datatype Event =
    | Start
    | Refusal(id: Id, now: int)
    | End(id: Id)
    | Activation(i: nat)
    | Stray(n: nat)        // a timer the caller forgot to cancel: any group ever handed out
    | Renew
    | Discovery(names: seq<string>)
    | Reprobe(now: int)
    | Accepted

  function Learn(made: map<nat, seq<string>>, subs: seq<Sub>): map<nat, seq<string>>
    decreases |subs|
  {
    if subs == [] then made
    else Learn(
      if subs[0].Group? && subs[0].key.State? then made[subs[0].key.n := subs[0].names] else made,
      subs[1..])
  }

  /** What the caller still holds once it has cancelled the keys in `withdrawn`. */
  function Keep(held: seq<Sub>, withdrawn: seq<Key>): seq<Sub> {
    if held == [] then []
    else (if held[0].Key() in withdrawn then [] else [held[0]]) + Keep(held[1..], withdrawn)
  }

  /** Everything one rejection hands the caller. */
  function HandedBack(r: Rejection): seq<Sub> {
    r.probes + (if r.fault.Some? then r.fault.value.retry else [])
    + (if r.canary.Some? then [r.canary.value] else [])
  }

  function Withdrawn(r: Rejection): seq<Key> {
    if r.fault.Some? then r.fault.value.withdrawn else []
  }

  function Live(p: Plan): set<Id> {
    p.live.at.Keys
  }

  /** One event, as the plan and its caller go through it. */
  function Step(w: World, e: Event): World
    requires w.plan.Ok()
  {
    match e
    case Start =>
      var p := Initial(w.plan).0;
      World(p, [], Learn(map[], InitialGroups(w.plan)), w.dead + (Live(w.plan) - Live(p)))
    case Refusal(id, now) =>
      var (p, r) := Rejected(w.plan, id, now);
      World(p, Keep(w.held, Withdrawn(r)) + HandedBack(r), Learn(w.made, r.probes),
            w.dead + (Live(w.plan) - Live(p)))
    case End(id) =>
      var (p, sub) := Ended(w.plan, id);
      World(p, w.held + (if sub.Some? then [sub.value] else []), w.made, w.dead + (Live(w.plan) - Live(p)))
    case Activation(i) =>
      if i >= |w.held| then w
      else w.(plan := Activate(w.plan, w.held[i]).0, held := w.held[..i] + w.held[i + 1..])
    case Stray(n) =>
      if n !in w.made then w else w.(plan := Activate(w.plan, Group(State(n), w.made[n])).0)
    case Renew =>
      var p := RenewAll(w.plan).0;
      w.(plan := p, dead := w.dead + (Live(w.plan) - Live(p)))
    case Discovery(names) =>
      var (p, groups) := AddProperties(w.plan, names);
      w.(plan := p, held := w.held + groups, made := Learn(w.made, groups))
    case Reprobe(now) =>
      var (p, due) := DueForReprobe(w.plan, now);
      w.(plan := p, held := w.held + due, made := Learn(w.made, due))
    case Accepted => w.(plan := DocumentAccepted(w.plan))
  }

  // ----- the invariant -------------------------------------------------------------------

  /** `sub` is live, or the caller holds it. */
  ghost predicate InPool(p: Plan, held: seq<Sub>, sub: Sub) {
    sub in held || exists id :: id in p.live.at && p.live.at[id] == sub
  }

  predicate Asks(sub: Sub, name: string) {
    sub.Group? && sub.key.State? && name in sub.names
  }

  /** `name` is known to be rejected, or some live or held state group asks for it. */
  ghost predicate Covered(p: Plan, held: seq<Sub>, name: string) {
    name in p.dropped.at || exists sub :: InPool(p, held, sub) && Asks(sub, name)
  }

  /** A group is what it was when it was minted. */
  predicate Genuine(made: map<nat, seq<string>>, sub: Sub) {
    match sub
    case Single(_) => true
    case Group(State(n), names) => n in made && made[n] == names
    case Group(Canary, names) => names == [CANARY_PROPERTY]
    case Group(Only(_), _) => false
  }

  ghost predicate KeyWithin(made: map<nat, seq<string>>, key: Key, group: Sub) {
    key.State? && key.n in made && group.Group? && forall x | x in made[key.n] :: x in group.names
  }

  ghost predicate WaveSound(made: map<nat, seq<string>>, wave: Wave) {
    && wave.Ok()
    && (forall k | k in wave.groups.at ::
          wave.groups.at[k].Group? && k.State? && wave.groups.at[k].key == k && Genuine(made, wave.groups.at[k]))
    && (forall k | k in wave.rejected.at ::
          && k in wave.groups.at
          && (forall probe | probe in wave.rejected.at[k].probes :: KeyWithin(made, probe, wave.groups.at[k]))
          && (forall x | x in wave.rejected.at[k].dropped :: x in wave.groups.at[k].names))
  }

  ghost predicate LineageSound(made: map<nat, seq<string>>, search: Lineage) {
    && search.group.Group?
    && search.group.key.State?
    && Genuine(made, search.group)
    && (forall x | x in search.rejected :: x in search.group.names)
  }

  ghost predicate SearchesSound(p: Plan, made: map<nat, seq<string>>) {
    forall k | k in p.searchOf ::
      && p.searchOf[k] < |p.searches|
      && LineageSound(made, p.searches[p.searchOf[k]])
      && KeyWithin(made, k, p.searches[p.searchOf[k]].group)
  }

  ghost predicate MadeSound(p: Plan, made: map<nat, seq<string>>) {
    forall n | n in made :: n < p.nextGroup && 1 <= |made[n]| <= MAX_GROUP_SIZE
  }

  ghost predicate IdsSound(p: Plan, dead: set<Id>) {
    && (forall id | id in p.live.at :: id.n < p.nextId && id !in dead)
    && (forall id | id in dead :: id.n < p.nextId)
  }

  ghost predicate FixedSound(p: Plan, held: seq<Sub>) {
    && (forall f: Fixed :: InPool(p, held, Single(f)) || f in p.unavailable.at)
    && (forall f | f in p.unavailable.at :: p.unavailable.at[f].sub == Single(f))
  }

  /** Everything but coverage. */
  ghost predicate Sound(w: World) {
    && w.plan.Ok()
    && IdsSound(w.plan, w.dead)
    && MadeSound(w.plan, w.made)
    && (forall sub | InPool(w.plan, w.held, sub) :: Genuine(w.made, sub))
    && (w.plan.wave.Some? ==> WaveSound(w.made, w.plan.wave.value))
    && (w.plan.pendingCanary.Some? ==> WaveSound(w.made, w.plan.pendingCanary.value.wave))
    && SearchesSound(w.plan, w.made)
    && FixedSound(w.plan, w.held)
  }

  ghost predicate Inv(w: World) {
    && Sound(w)
    && (forall name | name in w.plan.properties :: Covered(w.plan, w.held, name))
  }

  // ----- minting -------------------------------------------------------------------------

  /** Every group of `subs` is new to `made`, numbered below `next`, and of a legal size. */
  ghost predicate Mintable(made: map<nat, seq<string>>, subs: seq<Sub>, first: nat, next: nat) {
    && (forall sub | sub in subs && sub.Group? ::
          sub.key.State? && first <= sub.key.n < next && 1 <= |sub.names| <= MAX_GROUP_SIZE)
    && (forall i, j | 0 <= i < j < |subs| && subs[i].Group? && subs[j].Group? :: subs[i].key != subs[j].key)
    && (forall n | n in made :: n < first)
  }

  lemma {:induction false} LearnEffect(made: map<nat, seq<string>>, subs: seq<Sub>)
    requires forall sub | sub in subs && sub.Group? :: sub.key.State?
    requires forall i, j | 0 <= i < j < |subs| && subs[i].Group? && subs[j].Group? :: subs[i].key != subs[j].key
    requires forall sub | sub in subs && sub.Group? :: sub.key.n !in made
    ensures forall n | n in made :: n in Learn(made, subs) && Learn(made, subs)[n] == made[n]
    ensures forall sub | sub in subs && sub.Group? :: Genuine(Learn(made, subs), sub)
    ensures forall n | n in Learn(made, subs) :: n in made || Group(State(n), Learn(made, subs)[n]) in subs
    decreases |subs|
  {
    if subs != [] {
      var next := if subs[0].Group? then made[subs[0].key.n := subs[0].names] else made;
      assert subs[0] in subs;
      forall sub | sub in subs[1..] && sub.Group?
        ensures sub.key.n !in next
      {
        var j :| 0 <= j < |subs[1..]| && subs[1..][j] == sub;
        assert subs[j + 1] == sub;
        if subs[0].Group? {
          assert subs[0].key != subs[j + 1].key;
        }
      }
      LearnEffect(next, subs[1..]);
    }
  }

  /** Minting new groups keeps everything that was said about the old ones. */
  lemma MintKeeps(p: Plan, made: map<nat, seq<string>>, subs: seq<Sub>, q: Plan)
    requires MadeSound(p, made) && SearchesSound(p, made)
    requires Mintable(made, subs, p.nextGroup, q.nextGroup)
    requires p.nextGroup <= q.nextGroup
    ensures MadeSound(q, Learn(made, subs))
    ensures forall sub | Genuine(made, sub) :: Genuine(Learn(made, subs), sub)
    ensures forall sub | sub in subs :: Genuine(Learn(made, subs), sub)
    ensures forall k, g | KeyWithin(made, k, g) :: KeyWithin(Learn(made, subs), k, g)
    ensures forall wave | WaveSound(made, wave) :: WaveSound(Learn(made, subs), wave)
    ensures forall l | LineageSound(made, l) :: LineageSound(Learn(made, subs), l)
  {
    LearnEffect(made, subs);
  }

  // ----- what each operation keeps -------------------------------------------------------

  /** A live subscription ends: the caller holds it instead. */
  lemma EndKeeps(w: World, id: Id)
    requires Inv(w) && id in w.plan.live.at
    ensures Step(w, End(id)).plan == w.plan.(live := w.plan.live.Remove(id))
    ensures Step(w, End(id)).held == w.held + [w.plan.live.at[id]]
    ensures Step(w, End(id)).dead == w.dead + {id}
    ensures Inv(Step(w, End(id)))
  {
    var p, sub := w.plan, w.plan.live.at[id];
    var q := p.(live := p.live.Remove(id));
    RemoveOk(p.live, id);
    assert Live(p) - Live(q) == {id};
    forall s | InPool(p, w.held, s)
      ensures InPool(q, w.held + [sub], s)
    {
      if s !in w.held {
        var k :| k in p.live.at && p.live.at[k] == s;
        if k != id { assert k in q.live.at; }
      }
    }
    forall s | InPool(q, w.held + [sub], s)
      ensures InPool(p, w.held, s)
    {
      if s !in w.held && s != sub {
        var k :| k in q.live.at && q.live.at[k] == s;
        assert k in p.live.at;
      }
    }
  }

  /** Subscribing something genuine under a fresh id. */
  lemma ActivateKeeps(w: World, sub: Sub, rest: seq<Sub>)
    requires Inv(w) && Genuine(w.made, sub)
    requires forall s | s in w.held :: s == sub || s in rest
    requires forall s | s in rest :: s in w.held
    ensures Inv(w.(plan := Activate(w.plan, sub).0, held := rest))
  {
    var p := w.plan;
    var (q, id) := Activate(p, sub);
    assert id !in p.live.at;
    assert q.live.at[id] == sub;
    PutOk(p.live, id, sub);
    forall s | InPool(p, w.held, s)
      ensures InPool(q, rest, s)
    {
      if s !in w.held {
        var k :| k in p.live.at && p.live.at[k] == s;
        assert k in q.live.at && q.live.at[k] == s;
      }
    }
    forall s | InPool(q, rest, s)
      ensures s == sub || InPool(p, w.held, s)
    {
      if s !in rest {
        var k :| k in q.live.at && q.live.at[k] == s;
        assert k == id || k in p.live.at;
      }
    }
  }

  /** The subscription that place `j` of `live` holds, and the renewal it gets. */
  ghost function RenewalAt(live: Dict<Id, Sub>, nextId: nat, j: nat): Renewal
    requires live.Ok() && j < |live.keys|
  {
    var sub := live.at[live.keys[j]];
    Renewal(live.keys[j], Id(sub.Key(), nextId + j), sub)
  }

  /** The renewed dictionary holds the first `i` subscriptions, each under its own fresh id. */
  lemma {:induction false} RenewedEffect(live: Dict<Id, Sub>, nextId: nat, i: nat)
    requires live.Ok() && i <= |live.keys|
    ensures var (next, renewed) := Renewed(live, nextId, i);
      && |next.keys| == |renewed| == i
      && (forall j | 0 <= j < i :: renewed[j] == RenewalAt(live, nextId, j))
      && (forall j | 0 <= j < i :: next.keys[j] == RenewalAt(live, nextId, j).id)
      && (forall j | 0 <= j < i :: RenewalAt(live, nextId, j).id in next.at
            && next.at[RenewalAt(live, nextId, j).id] == RenewalAt(live, nextId, j).sub)
      && (forall id | id in next.at :: id in next.keys)
  {
    if i > 0 {
      RenewedEffect(live, nextId, i - 1);
      var (before, _) := Renewed(live, nextId, i - 1);
      var r := RenewalAt(live, nextId, i - 1);
      assert r.id !in before.keys;
      assert r.id !in before.at;
      var (next, renewed) := Renewed(live, nextId, i);
      assert next == before.Put(r.id, r.sub);
      assert next.keys == before.keys + [r.id] && renewed == Renewed(live, nextId, i - 1).1 + [r];
      hide Renewed;
      forall j | 0 <= j < i
        ensures next.keys[j] == RenewalAt(live, nextId, j).id && renewed[j] == RenewalAt(live, nextId, j)
        ensures RenewalAt(live, nextId, j).id in next.at
        ensures next.at[RenewalAt(live, nextId, j).id] == RenewalAt(live, nextId, j).sub
      {
        assert j < i - 1 ==> RenewalAt(live, nextId, j).id in before.at;
      }
    }
  }

  lemma RenewedOk(live: Dict<Id, Sub>, nextId: nat)
    requires live.Ok()
    ensures Renewed(live, nextId, |live.keys|).0.Ok()
  {
    RenewedEffect(live, nextId, |live.keys|);
    var next := Renewed(live, nextId, |live.keys|).0;
    forall k | k in next.keys
      ensures k in next.at
    {
      var j :| 0 <= j < |next.keys| && next.keys[j] == k;
      assert RenewalAt(live, nextId, j).id == k;
    }
    forall i, j | 0 <= i < j < |next.keys|
      ensures next.keys[i] != next.keys[j]
    {
      assert next.keys[i] == RenewalAt(live, nextId, i).id && next.keys[j] == RenewalAt(live, nextId, j).id;
    }
  }

  /** Renewing changes the ids and nothing else: the same subscriptions are live. */
  lemma RenewPool(p: Plan, held: seq<Sub>, s: Sub)
    requires p.Ok()
    ensures InPool(p, held, s) <==> InPool(RenewAll(p).0, held, s)
  {
    var q := RenewAll(p).0;
    RenewedEffect(p.live, p.nextId, |p.live.keys|);
    RenewedOk(p.live, p.nextId);
    if s !in held && InPool(p, held, s) {
      var k :| k in p.live.at && p.live.at[k] == s;
      var j :| 0 <= j < |p.live.keys| && p.live.keys[j] == k;
      var id := RenewalAt(p.live, p.nextId, j).id;
      assert id in q.live.at && q.live.at[id] == s;
    }
    if s !in held && InPool(q, held, s) {
      var k :| k in q.live.at && q.live.at[k] == s;
      var j :| 0 <= j < |q.live.keys| && q.live.keys[j] == k;
      assert q.live.at[k] == RenewalAt(p.live, p.nextId, j).sub;
      assert p.live.keys[j] in p.live.at;
    }
  }

  lemma RenewIds(w: World)
    requires Inv(w)
    ensures IdsSound(Step(w, Renew).plan, Step(w, Renew).dead)
  {
    var p := w.plan;
    var q := RenewAll(p).0;
    RenewedEffect(p.live, p.nextId, |p.live.keys|);
    forall id | id in q.live.at
      ensures p.nextId <= id.n < q.nextId
    {
      var j :| 0 <= j < |q.live.keys| && q.live.keys[j] == id;
      assert id == RenewalAt(p.live, p.nextId, j).id;
    }
  }

  lemma RenewKeeps(w: World)
    requires Inv(w)
    ensures Inv(Step(w, Renew))
  {
    var q := RenewAll(w.plan).0;
    RenewedOk(w.plan.live, w.plan.nextId);
    RenewIds(w);
    forall s
      ensures InPool(w.plan, w.held, s) <==> InPool(q, w.held, s)
    {
      RenewPool(w.plan, w.held, s);
    }
  }

  // ----- what is handed out without a rejection ------------------------------------------

  /** The plan `q` differs from `p` only in what discovery and reprobing touch. */
  predicate SameButLists(p: Plan, q: Plan) {
    q == p.(properties := q.properties, dropped := q.dropped, unavailable := q.unavailable,
            nextGroup := q.nextGroup)
  }

  /** Handing out new groups keeps the invariant when they ask for every name that has nowhere
      else to be. */
  lemma HandOutKeeps(w: World, q: Plan, subs: seq<Sub>)
    requires Inv(w)
    requires SameButLists(w.plan, q) && q.dropped.Ok() && q.unavailable.Ok()
    requires w.plan.nextGroup <= q.nextGroup
    requires Mintable(w.made, subs, w.plan.nextGroup, q.nextGroup)
    requires forall x | x in q.properties ::
      (x in w.plan.properties && (x in w.plan.dropped.at ==> x in q.dropped.at))
      || x in q.dropped.at || exists s :: s in subs && Asks(s, x)
    requires forall f | f in w.plan.unavailable.at :: f in q.unavailable.at || Single(f) in subs
    requires forall f | f in q.unavailable.at :: f in w.plan.unavailable.at && q.unavailable.at[f] == w.plan.unavailable.at[f]
    ensures Inv(World(q, w.held + subs, Learn(w.made, subs), w.dead))
  {
    MintKeeps(w.plan, w.made, subs, q);
    var held := w.held + subs;
    assert q.live == w.plan.live && q.searchOf == w.plan.searchOf && q.searches == w.plan.searches;
    forall s
      ensures InPool(w.plan, w.held, s) ==> InPool(q, held, s)
      ensures InPool(q, held, s) ==> InPool(w.plan, w.held, s) || s in subs
    {
    }
    forall x | x in q.properties
      ensures Covered(q, held, x)
    {
      if s :| s in subs && Asks(s, x) {
        assert InPool(q, held, s);
      } else if x !in q.dropped.at {
        var s :| InPool(w.plan, w.held, s) && Asks(s, x);
        assert InPool(q, held, s);
      }
    }
    forall f: Fixed
      ensures InPool(q, held, Single(f)) || f in q.unavailable.at
    {
      if InPool(w.plan, w.held, Single(f)) {
      } else {
        assert f in w.plan.unavailable.at;
      }
    }
  }

  /** Every name is in one of the chunks. */
  lemma ChunkHas(names: seq<string>, size: nat, x: string) returns (i: nat)
    requires size >= 1 && x in names
    ensures i < |Chunks(names, size)| && x in Chunks(names, size)[i]
  {
    ChunksPartition(names, size);
    i := FlattenFrom(Chunks(names, size), x);
  }

  lemma {:induction false} FreshEffect(names: seq<string>, known: set<string>)
    ensures forall x | x in Fresh(names, known) :: x !in known && x in names && IsQueryable(x)
    ensures Distinct(Fresh(names, known))
  {
    if names != [] {
      if names[0] !in known && IsQueryable(names[0]) {
        FreshEffect(names[1..], known + {names[0]});
      } else {
        FreshEffect(names[1..], known);
      }
    }
  }

  lemma DiscoveryKeeps(w: World, names: seq<string>)
    requires Inv(w)
    ensures Inv(Step(w, Discovery(names)))
  {
    var found := Fresh(names, Elements(w.plan.properties));
    var (q, groups) := AddProperties(w.plan, names);
    ChunksPartition(found, MAX_GROUP_SIZE);
    forall x | x in q.properties && x !in w.plan.properties
      ensures exists s :: s in groups && Asks(s, x)
    {
      assert x in found;
      var i := ChunkHas(found, MAX_GROUP_SIZE, x);
      assert groups[i] in groups && Asks(groups[i], x);
    }
    HandOutKeeps(w, q, groups);
  }

  lemma {:induction false} DueNamesEffect(names: seq<string>, at: map<string, int>, now: int)
    requires forall k | k in names :: k in at
    requires Distinct(names)
    ensures forall x | x in DueNames(names, at, now) :: x in names && now >= at[x]
    ensures forall x | x in names && now >= at[x] :: x in DueNames(names, at, now)
    ensures Distinct(DueNames(names, at, now))
  {
    if names != [] {
      assert Distinct(names[1..]);
      DueNamesEffect(names[1..], at, now);
      assert names[0] !in names[1..];
    }
  }

  lemma DueKindsEffect(kinds: seq<Fixed>, at: map<Fixed, Refused>, now: int)
    requires forall k | k in kinds :: k in at
    ensures forall f | f in DueKinds(kinds, at, now) :: f in kinds && now >= at[f].dueAt
    ensures forall f | f in kinds && now >= at[f].dueAt :: f in DueKinds(kinds, at, now)
  {
  }

  lemma SubsOfEffect(d: Dict<Fixed, Refused>, kinds: seq<Fixed>)
    requires forall f | f in d.at :: d.at[f].sub == Single(f)
    requires forall f | f in kinds :: f in d.at
    ensures forall s | s in SubsOf(d, kinds) :: s.Single? && s.kind in kinds
    ensures forall f | f in kinds :: Single(f) in SubsOf(d, kinds)
  {
  }

  lemma MintableBeside(made: map<nat, seq<string>>, groups: seq<Sub>, singles: seq<Sub>, first: nat, next: nat)
    requires Mintable(made, groups, first, next) && forall s | s in singles :: s.Single?
    ensures Mintable(made, groups + singles, first, next)
  {
    var due := groups + singles;
    assert forall j | |groups| <= j < |due| :: due[j] == singles[j - |groups|] && singles[j - |groups|] in singles;
  }

  lemma ReprobeMints(w: World, now: int)
    requires Inv(w)
    ensures var (q, due) := DueForReprobe(w.plan, now); Mintable(w.made, due, w.plan.nextGroup, q.nextGroup)
  {
    var p := w.plan;
    var names := DueNames(p.dropped.keys, p.dropped.at, now);
    var kinds := DueKinds(p.unavailable.keys, p.unavailable.at, now);
    var groups := StateGroups(Alone(names), p.nextGroup);
    DueKindsEffect(p.unavailable.keys, p.unavailable.at, now);
    SubsOfEffect(p.unavailable, kinds);
    var singles := SubsOf(p.unavailable, kinds);
    var due := groups + singles;
    assert DueForReprobe(p, now).1 == due && DueForReprobe(p, now).0.nextGroup == p.nextGroup + |groups|;
    hide DueForReprobe, Inv;
    MintableBeside(w.made, groups, singles, p.nextGroup, p.nextGroup + |groups|);
  }

  /** A name handed out for a reprobe is asked for alone; the rest stay dropped. */
  lemma ReprobeCovers(p: Plan, now: int, x: string)
    requires p.Ok() && x in p.dropped.at
    ensures var (q, due) := DueForReprobe(p, now); x in q.dropped.at || exists s :: s in due && Asks(s, x)
  {
    var (q, due) := DueForReprobe(p, now);
    var names := DueNames(p.dropped.keys, p.dropped.at, now);
    RemoveAllEffect(p.dropped, names);
    if x !in q.dropped.at {
      var i :| 0 <= i < |names| && names[i] == x;
      assert due[i] == Group(State(p.nextGroup + i), [x]);
      assert due[i] in due && Asks(due[i], x);
    }
  }

  lemma ReprobeLists(p: Plan, now: int)
    requires p.Ok() && forall f | f in p.unavailable.at :: p.unavailable.at[f].sub == Single(f)
    ensures var (q, due) := DueForReprobe(p, now);
      && SameButLists(p, q) && q.properties == p.properties && q.dropped.Ok() && q.unavailable.Ok()
      && p.nextGroup <= q.nextGroup
      && (forall f | f in p.unavailable.at :: f in q.unavailable.at || Single(f) in due)
      && (forall f | f in q.unavailable.at :: f in p.unavailable.at && q.unavailable.at[f] == p.unavailable.at[f])
  {
    var (q, due) := DueForReprobe(p, now);
    var kinds := DueKinds(p.unavailable.keys, p.unavailable.at, now);
    DueKindsEffect(p.unavailable.keys, p.unavailable.at, now);
    SubsOfEffect(p.unavailable, kinds);
    RemoveAllEffect(p.dropped, DueNames(p.dropped.keys, p.dropped.at, now));
    RemoveAllEffect(p.unavailable, kinds);
  }

  lemma ReprobeKeeps(w: World, now: int)
    requires Inv(w)
    ensures Inv(Step(w, Reprobe(now)))
  {
    var (q, due) := DueForReprobe(w.plan, now);
    ReprobeLists(w.plan, now);
    ReprobeMints(w, now);
    assert Step(w, Reprobe(now)) == World(q, w.held + due, Learn(w.made, due), w.dead);
    hide Step, DueForReprobe, Mintable, Learn;
    forall x | x in w.plan.dropped.at
      ensures x in q.dropped.at || exists s :: s in due && Asks(s, x)
    {
      ReprobeCovers(w.plan, now, x);
    }
    HandOutKeeps(w, q, due);
  }

  // ----- starting over -------------------------------------------------------------------

  lemma {:induction false} ActivateAllShape(p: Plan, subs: seq<Sub>)
    requires p.live.Ok()
    requires forall id | id in p.live.at :: id.n < p.nextId
    ensures var q := ActivateAll(p, subs);
      && q == p.(live := q.live, nextId := p.nextId + |subs|)
      && q.live.Ok()
      && (forall id | id in q.live.at :: id in p.live.at || p.nextId <= id.n < q.nextId)
    decreases |subs|
  {
    if subs != [] {
      var (next, id) := Activate(p, subs[0]);
      PutOk(p.live, id, subs[0]);
      ActivateAllShape(next, subs[1..]);
    }
  }

  /** What was live stays live: the ids that are handed out are fresh. */
  lemma {:induction false} ActivateAllKept(p: Plan, subs: seq<Sub>, id: Id)
    requires id in p.live.at && id.n < p.nextId
    ensures id in ActivateAll(p, subs).live.at && ActivateAll(p, subs).live.at[id] == p.live.at[id]
    decreases |subs|
  {
    if subs != [] {
      ActivateAllKept(Activate(p, subs[0]).0, subs[1..], id);
    }
  }

  lemma {:induction false} ActivateAllHas(p: Plan, subs: seq<Sub>, i: nat)
    requires i < |subs|
    ensures var id := Id(subs[i].Key(), p.nextId + i);
      id in ActivateAll(p, subs).live.at && ActivateAll(p, subs).live.at[id] == subs[i]
    decreases |subs|
  {
    var (next, id) := Activate(p, subs[0]);
    if i == 0 {
      ActivateAllKept(next, subs[1..], id);
    } else {
      ActivateAllHas(next, subs[1..], i - 1);
    }
  }

  lemma {:induction false} ActivateAllFrom(p: Plan, subs: seq<Sub>, id: Id)
    requires id in ActivateAll(p, subs).live.at
    ensures (id in p.live.at && ActivateAll(p, subs).live.at[id] == p.live.at[id])
      || ActivateAll(p, subs).live.at[id] in subs
    decreases |subs|
  {
    if subs != [] {
      ActivateAllFrom(Activate(p, subs[0]).0, subs[1..], id);
    }
  }

  lemma NotDroppedEffect(names: seq<string>, dropped: map<string, int>)
    ensures forall x | x in NotDropped(names, dropped) :: x in names && x !in dropped
    ensures forall x | x in names && x !in dropped :: x in NotDropped(names, dropped)
  {
  }

  lemma AvailableEffect(kinds: seq<Fixed>, unavailable: map<Fixed, Refused>)
    ensures forall s | s in Available(kinds, unavailable) :: s.Single? && s.kind in kinds && s.kind !in unavailable
    ensures forall f | f in kinds && f !in unavailable :: Single(f) in Available(kinds, unavailable)
  {
  }

  /** The dictionary of a wave's groups: each under its key, in order. */
  lemma {:induction false} GroupDictEffect(groups: seq<Sub>)
    requires forall i, j | 0 <= i < j < |groups| :: groups[i].Key() != groups[j].Key()
    ensures GroupDict(groups).Ok()
    ensures |GroupDict(groups).keys| == |groups|
    ensures forall i | 0 <= i < |groups| ::
      GroupDict(groups).keys[i] == groups[i].Key() && GroupDict(groups).at[GroupDict(groups).keys[i]] == groups[i]
  {
    if groups != [] {
      var init := groups[..|groups| - 1];
      var last := groups[|groups| - 1];
      GroupDictEffect(init);
      var d := GroupDict(init);
      assert forall i | 0 <= i < |init| :: d.keys[i] == groups[i].Key();
      assert last.Key() !in d.keys;
      PutOk(d, last.Key(), last);
      var g := GroupDict(groups);
      assert g.keys == d.keys + [last.Key()] && g.at == d.at[last.Key() := last];
      forall i | 0 <= i < |groups|
        ensures g.keys[i] == groups[i].Key() && g.at[g.keys[i]] == groups[i]
      {
        if i < |init| {
          assert g.keys[i] == d.keys[i] && init[i] == groups[i];
        }
      }
    }
  }

  /** A group is in the dictionary exactly under its own key. */
  lemma GroupDictAt(groups: seq<Sub>, k: Key)
    requires forall i, j | 0 <= i < j < |groups| :: groups[i].Key() != groups[j].Key()
    requires k in GroupDict(groups).at
    ensures GroupDict(groups).at[k] in groups && GroupDict(groups).at[k].Key() == k
  {
    GroupDictEffect(groups);
    var i :| 0 <= i < |groups| && GroupDict(groups).keys[i] == k;
  }

  lemma ValuesOfGroups(groups: seq<Sub>)
    requires forall i, j | 0 <= i < j < |groups| :: groups[i].Key() != groups[j].Key()
    ensures GroupDict(groups).Ok() && Values(GroupDict(groups)) == groups
  {
    GroupDictEffect(groups);
  }

  lemma AllFixed(f: Fixed)
    ensures f in FIXED
  {
    assert FIXED[0] == Parallax && FIXED[1] == Charging && FIXED[2] == Cloud && FIXED[3] == OtaState;
    assert FIXED[4] == OtaSchedules && FIXED[5] == Geofence && FIXED[6] == Departure;
  }

  /** Everything `initial` means to subscribe is live afterwards, and nothing else is. */
  lemma StartPool(p: Plan, s: Sub)
    requires p.Ok()
    ensures InPool(Initial(p).0, [], s) <==> s in InitialSubs(p)
  {
    var blank, subs := Forgotten(p), InitialSubs(p);
    var q := Initial(p).0;
    if s in subs {
      var i :| 0 <= i < |subs| && subs[i] == s;
      ActivateAllHas(blank, subs, i);
    }
    if id :| id in q.live.at && q.live.at[id] == s {
      ActivateAllFrom(blank, subs, id);
    }
  }

  /** Every known name is dropped or in one of the groups of `initial`. */
  lemma StartCovers(p: Plan, x: string)
    requires p.Ok() && x in p.properties
    ensures x in p.dropped.at || exists s :: s in InitialSubs(p) && Asks(s, x)
  {
    if x !in p.dropped.at {
      var names := NotDropped(p.properties, p.dropped.at);
      NotDroppedEffect(p.properties, p.dropped.at);
      var i := ChunkHas(names, MAX_GROUP_SIZE, x);
      assert InitialSubs(p)[i] == InitialGroups(p)[i];
      assert InitialSubs(p)[i] in InitialSubs(p) && Asks(InitialSubs(p)[i], x);
    }
  }

  lemma InitialGroupsFacts(p: Plan)
    ensures forall i | 0 <= i < |InitialGroups(p)| ::
      InitialGroups(p)[i].Group? && InitialGroups(p)[i].key == State(i) && 1 <= |InitialGroups(p)[i].names| <= MAX_GROUP_SIZE
    ensures forall s | s in InitialGroups(p) :: Genuine(Learn(map[], InitialGroups(p)), s)
    ensures MadeSound(Forgotten(p), Learn(map[], InitialGroups(p)))
  {
    ChunksPartition(NotDropped(p.properties, p.dropped.at), MAX_GROUP_SIZE);
    LearnEffect(map[], InitialGroups(p));
  }

  lemma StartWave(p: Plan)
    ensures Forgotten(p).wave.Some? ==> WaveSound(Learn(map[], InitialGroups(p)), Forgotten(p).wave.value)
  {
    var groups := InitialGroups(p);
    InitialGroupsFacts(p);
    GroupDictEffect(groups);
    forall k | k in GroupDict(groups).at
      ensures GroupDict(groups).at[k] in groups && GroupDict(groups).at[k].Key() == k
    {
      GroupDictAt(groups, k);
    }
  }

  /** Every known name is dropped or asked for, and every fixed subscription live or unavailable. */
  lemma StartCoversAll(p: Plan)
    requires p.Ok()
    ensures var q := Initial(p).0;
      && (forall x | x in q.properties :: Covered(q, [], x))
      && (forall f: Fixed :: InPool(q, [], Single(f)) || f in q.unavailable.at)
  {
    var subs := InitialSubs(p);
    var q := Initial(p).0;
    ActivateAllShape(Forgotten(p), subs);
    AvailableEffect(FIXED, p.unavailable.at);
    forall s
      ensures InPool(q, [], s) <==> s in subs
    {
      StartPool(p, s);
    }
    forall x | x in q.properties
      ensures Covered(q, [], x)
    {
      StartCovers(p, x);
      if s :| s in subs && Asks(s, x) {
        assert InPool(q, [], s);
      }
    }
    forall f: Fixed
      ensures InPool(q, [], Single(f)) || f in q.unavailable.at
    {
      AllFixed(f);
    }
  }

  /** Every group is one that `initial` has minted. */
  lemma StartGenuine(p: Plan)
    requires p.Ok()
    ensures forall s | InPool(Initial(p).0, [], s) :: Genuine(Learn(map[], InitialGroups(p)), s)
  {
    InitialGroupsFacts(p);
    AvailableEffect(FIXED, p.unavailable.at);
    forall s | InPool(Initial(p).0, [], s)
      ensures Genuine(Learn(map[], InitialGroups(p)), s)
    {
      StartPool(p, s);
    }
  }

  /** `initial` covers everything from nothing: no invariant is needed beforehand but that the
      dictionaries are dictionaries and the ids were all minted. */
  lemma StartEstablishes(w: World)
    requires w.plan.Ok() && IdsSound(w.plan, w.dead)
    requires forall f | f in w.plan.unavailable.at :: w.plan.unavailable.at[f].sub == Single(f)
    ensures Inv(Step(w, Start))
  {
    var p := w.plan;
    ActivateAllShape(Forgotten(p), InitialSubs(p));
    InitialGroupsFacts(p);
    StartWave(p);
    StartGenuine(p);
    StartCoversAll(p);
  }

  // ----- rejection -----------------------------------------------------------------------

  ghost predicate Asked(held: seq<Sub>, x: string) {
    exists s :: s in held && Asks(s, x)
  }

  /** `sub` is no longer wanted: what it asked for is dropped or asked for by something held. */
  ghost predicate Replaced(sub: Sub, q: Plan, held: seq<Sub>) {
    sub.Group? && forall x | Asks(sub, x) :: x in q.dropped.at || Asked(held, x)
  }

  /** Everything of `Sound` that is about the plan and the groups minted, not about the pool. */
  ghost predicate Kept(q: Plan, made: map<nat, seq<string>>) {
    && q.dropped.Ok()
    && MadeSound(q, made)
    && SearchesSound(q, made)
    && (q.wave.Some? ==> WaveSound(made, q.wave.value))
    && (q.pendingCanary.Some? ==> WaveSound(made, q.pendingCanary.value.wave))
  }

  /** Swapping what is held keeps the invariant when whatever goes is replaced. */
  lemma SwapKeeps(w: World, q: Plan, held: seq<Sub>, made: map<nat, seq<string>>)
    requires Inv(w)
    requires q.properties == w.plan.properties && q.unavailable == w.plan.unavailable
    requires q.live == w.plan.live && q.nextId == w.plan.nextId
    requires Kept(q, made)
    requires forall s | Genuine(w.made, s) :: Genuine(made, s)
    requires forall s | s in held :: s in w.held || (s.Group? && Genuine(made, s))
    requires forall s | s in w.held :: s in held || Replaced(s, q, held)
    requires forall x | x in w.plan.dropped.at :: x in q.dropped.at || Asked(held, x)
    ensures Inv(World(q, held, made, w.dead))
  {
    forall s | InPool(w.plan, w.held, s)
      ensures InPool(q, held, s) || Replaced(s, q, held)
    {
    }
    forall x | x in q.properties
      ensures Covered(q, held, x)
    {
      if x !in w.plan.dropped.at {
        var s :| InPool(w.plan, w.held, s) && Asks(s, x);
        if !InPool(q, held, s) {
          assert Replaced(s, q, held);
          if x !in q.dropped.at {
            var t :| t in held && Asks(t, x);
            assert InPool(q, held, t);
          }
        } else {
          assert InPool(q, held, s) && Asks(s, x);
        }
      } else if x !in q.dropped.at {
        var t :| t in held && Asks(t, x);
        assert InPool(q, held, t);
      }
    }
    forall f: Fixed
      ensures InPool(q, held, Single(f)) || f in q.unavailable.at
    {
      if InPool(w.plan, w.held, Single(f)) {
        assert !Replaced(Single(f), q, held);
      }
    }
  }

  lemma KeepNothing(held: seq<Sub>)
    ensures Keep(held, []) == held
  {
  }

  lemma KeepEffect(held: seq<Sub>, withdrawn: seq<Key>)
    ensures forall s | s in Keep(held, withdrawn) :: s in held && s.Key() !in withdrawn
    ensures forall s | s in held && s.Key() !in withdrawn :: s in Keep(held, withdrawn)
  {
  }

  /** Looking up the wave only forgets it or notes its first rejection. */
  lemma WaveForKeeps(w: World, key: Key, now: int)
    requires Inv(w)
    ensures var (q, wave) := WaveFor(w.plan, key, now);
      && Inv(w.(plan := q))
      && q == w.plan.(wave := q.wave)
      && (wave.Some? ==> q.wave == wave && key in wave.value.groups.at && WaveSound(w.made, wave.value))
  {
    var (q, wave) := WaveFor(w.plan, key, now);
    SwapKeeps(w, q, w.held, w.made);
  }

  lemma LineageOfKeeps(w: World, key: Key, now: int)
    requires Inv(w)
    ensures var (q, lineage) := LineageOf(w.plan, key, now);
      && Inv(w.(plan := q))
      && q == w.plan.(searchOf := q.searchOf)
      && (lineage.Some? ==> key in q.searchOf && q.searchOf[key] == lineage.value)
      && (lineage.Some? ==> lineage.value < |q.searches|)
  {
    var (q, lineage) := LineageOf(w.plan, key, now);
    SwapKeeps(w, q, w.held, w.made);
  }

  lemma DropKeeps(w: World, rest: seq<Sub>, sub: Sub, name: string, now: int)
    requires Inv(w) && w.held == rest + [sub]
    requires sub.Group? && sub.names == [name]
    ensures Inv(World(Drop(w.plan, name, now).0, rest, w.made, w.dead))
  {
    var q := Drop(w.plan, name, now).0;
    PutOk(w.plan.dropped, name, DueAfterDrop(w.plan, now));
    SwapKeeps(w, q, rest, w.made);
  }

  lemma AddNameElements(names: seq<string>, name: string)
    ensures forall x | x in AddName(names, name) :: x in names || x == name
    ensures name in AddName(names, name)
  {
  }

  lemma NoteInSearchKeeps(w: World, h: nat, search: Lineage)
    requires Inv(w) && h < |w.plan.searches|
    requires search.group == w.plan.searches[h].group
    requires LineageSound(w.made, search) || forall k | k in w.plan.searchOf :: w.plan.searchOf[k] != h
    ensures Inv(w.(plan := w.plan.(searches := w.plan.searches[h := search])))
  {
    SwapKeeps(w, w.plan.(searches := w.plan.searches[h := search]), w.held, w.made);
  }

  lemma DropInSearchKeeps(w: World, rest: seq<Sub>, sub: Sub, h: nat, now: int)
    requires Inv(w) && w.held == rest + [sub]
    requires sub.Group? && |sub.names| == 1 && sub.key.State? && Genuine(w.made, sub)
    requires sub.key in w.plan.searchOf && w.plan.searchOf[sub.key] == h && h < |w.plan.searches|
    ensures var (q, r) := DropInSearch(w.plan, h, sub.names[0], now);
      Inv(World(q, rest + HandedBack(r), w.made, w.dead)) && Withdrawn(r) == [] && r.probes == []
  {
    var name := sub.names[0];
    var was := w.plan.searches[h];
    var search := was.(rejected := AddName(was.rejected, name), lastAt := now);
    var w1 := w.(plan := w.plan.(searches := w.plan.searches[h := search]));
    assert KeyWithin(w.made, sub.key, was.group);
    NoteInSearchKeeps(w, h, search);
    var (q, r) := DropInSearch(w.plan, h, name, now);
    if |search.rejected| == |search.group.names| {
      var restored := Without(search.rejected, name);
      WithoutElements(search.rejected, name);
      RemoveAllEffect(w.plan.dropped, restored);
      assert HandedBack(r) == [search.group];
      var held := rest + [search.group];
      assert search.group in held;
      assert forall x | x in search.group.names :: Asks(search.group, x);
      SwapKeeps(w1, q, held, w.made);
    } else {
      assert HandedBack(r) == [];
      DropKeeps(w1, rest, sub, name, now);
      assert rest + [] == rest;
    }
  }

  /** The halves are new groups that ask for exactly what the group asked for. */
  lemma HalvesFacts(p: Plan, made: map<nat, seq<string>>, names: seq<string>)
    requires 2 <= |names| <= MAX_GROUP_SIZE
    requires MadeSound(p, made)
    ensures var probes := Halves(p, names);
      && |probes| == 2
      && probes[0] == Group(State(p.nextGroup), names[..Middle(names)])
      && probes[1] == Group(State(p.nextGroup + 1), names[Middle(names)..])
      && probes[0].names + probes[1].names == names
      && 1 <= |probes[1].names| <= |probes[0].names| <= |names| - 1
      && Mintable(made, probes, p.nextGroup, p.nextGroup + 2)
      && (forall x | x in names :: Asked(probes, x))
  {
    var probes := Halves(p, names);
    forall x | x in names
      ensures Asked(probes, x)
    {
      var i :| 0 <= i < |names| && names[i] == x;
      if i < Middle(names) {
        assert probes[0].names[i] == x && Asks(probes[0], x);
      } else {
        assert probes[1].names[i - Middle(names)] == x && Asks(probes[1], x);
      }
    }
  }

  /** The search a split belongs to is sound, and its new probes are part of it. */
  lemma SplitSearches(w: World, sub: Sub, lineage: Option<nat>, now: int)
    requires Inv(w) && sub in w.held
    requires sub.Group? && sub.key.State? && Genuine(w.made, sub) && |sub.names| != 1
    requires lineage.Some? ==> sub.key in w.plan.searchOf && w.plan.searchOf[sub.key] == lineage.value < |w.plan.searches|
    ensures var (q, r) := Split(w.plan, sub, lineage, now);
      Kept(q, Learn(w.made, r.probes))
  {
    var p := w.plan;
    var (q, r) := Split(p, sub, lineage, now);
    var made := Learn(w.made, r.probes);
    HalvesFacts(p, w.made, sub.names);
    MintKeeps(p, w.made, r.probes, q);
    var h := q.searchOf[State(p.nextGroup)];
    assert KeyWithin(w.made, sub.key, if lineage.Some? then p.searches[h].group else sub);
    assert LineageSound(w.made, q.searches[h]);
    forall k | k in q.searchOf
      ensures q.searchOf[k] < |q.searches|
      ensures LineageSound(made, q.searches[q.searchOf[k]])
      ensures KeyWithin(made, k, q.searches[q.searchOf[k]].group)
    {
      if k == State(p.nextGroup) || k == State(p.nextGroup + 1) {
        var probe := r.probes[if k == State(p.nextGroup) then 0 else 1];
        assert probe in r.probes && Genuine(made, probe);
        assert forall x | x in probe.names :: x in sub.names;
      } else {
        assert KeyWithin(w.made, k, p.searches[p.searchOf[k]].group);
      }
    }
  }

  lemma SplitKeeps(w: World, rest: seq<Sub>, sub: Sub, lineage: Option<nat>, now: int)
    requires Inv(w) && w.held == rest + [sub]
    requires sub.Group? && sub.key.State? && Genuine(w.made, sub) && |sub.names| != 1
    requires lineage.Some? ==> sub.key in w.plan.searchOf && w.plan.searchOf[sub.key] == lineage.value < |w.plan.searches|
    ensures var (q, r) := Split(w.plan, sub, lineage, now);
      Inv(World(q, rest + r.probes, Learn(w.made, r.probes), w.dead))
  {
    var p := w.plan;
    var (q, r) := Split(p, sub, lineage, now);
    HalvesFacts(p, w.made, sub.names);
    MintKeeps(p, w.made, r.probes, q);
    SplitSearches(w, sub, lineage, now);
    var held := rest + r.probes;
    assert Replaced(sub, q, held) by {
      forall x | Asks(sub, x)
        ensures Asked(held, x)
      {
        assert Asked(r.probes, x);
        var t :| t in r.probes && Asks(t, x);
        assert t in held;
      }
    }
    SwapKeeps(w, q, held, Learn(w.made, r.probes));
  }

  /** What one search step answers about the group it was given. */
  ghost predicate Answers(made: map<nat, seq<string>>, sub: Sub, r: Rejection) {
    && Withdrawn(r) == []
    && r.canary.None?
    && (forall probe | probe in r.probes :: probe.Group? && KeyWithin(Learn(made, r.probes), probe.key, sub))
    && (sub.Group? && forall x | x in r.newlyDropped :: x in sub.names)
  }

  /** A group of one name: the name is dropped. */
  lemma SearchOneKeeps(w: World, rest: seq<Sub>, sub: Sub, now: int)
    requires Inv(w) && w.held == rest + [sub]
    requires sub.Group? && sub.key.State? && Genuine(w.made, sub) && |sub.names| == 1
    ensures var (q, r) := Search(w.plan, sub, now);
      && Inv(World(q, rest + HandedBack(r), Learn(w.made, r.probes), w.dead))
      && q.wave == w.plan.wave
      && Answers(w.made, sub, r)
  {
    var (p, lineage) := LineageOf(w.plan, sub.key, now);
    LineageOfKeeps(w, sub.key, now);
    var w1 := w.(plan := p);
    var (q, r) := Search(w.plan, sub, now);
    assert sub.names == [sub.names[0]];
    if lineage.Some? {
      DropInSearchKeeps(w1, rest, sub, lineage.value, now);
    } else {
      DropKeeps(w1, rest, sub, sub.names[0], now);
      assert HandedBack(r) == [] && rest + [] == rest;
    }
  }

  /** A group of more: its halves are probed. */
  lemma SearchMoreKeeps(w: World, rest: seq<Sub>, sub: Sub, now: int)
    requires Inv(w) && w.held == rest + [sub]
    requires sub.Group? && sub.key.State? && Genuine(w.made, sub) && |sub.names| != 1
    ensures var (q, r) := Search(w.plan, sub, now);
      && Inv(World(q, rest + HandedBack(r), Learn(w.made, r.probes), w.dead))
      && q.wave == w.plan.wave
      && Answers(w.made, sub, r)
  {
    var (p, lineage) := LineageOf(w.plan, sub.key, now);
    LineageOfKeeps(w, sub.key, now);
    var w1 := w.(plan := p);
    var (q, r) := Search(w.plan, sub, now);
    SplitKeeps(w1, rest, sub, lineage, now);
    HalvesFacts(p, w.made, sub.names);
    MintKeeps(p, w.made, r.probes, q);
    assert HandedBack(r) == r.probes;
    forall probe | probe in r.probes
      ensures KeyWithin(Learn(w.made, r.probes), probe.key, sub)
    {
      assert forall x | x in probe.names :: x in sub.names;
    }
  }

  lemma SearchKeeps(w: World, rest: seq<Sub>, sub: Sub, now: int)
    requires Inv(w) && w.held == rest + [sub]
    requires sub.Group? && sub.key.State? && Genuine(w.made, sub)
    ensures var (q, r) := Search(w.plan, sub, now);
      && Inv(World(q, rest + HandedBack(r), Learn(w.made, r.probes), w.dead))
      && q.wave == w.plan.wave
      && Answers(w.made, sub, r)
  {
    if |sub.names| == 1 {
      SearchOneKeeps(w, rest, sub, now);
    } else {
      SearchMoreKeeps(w, rest, sub, now);
    }
  }

  /** A rejection noted in its wave: its probes and its dropped name are within its group. */
  lemma NotedSound(made: map<nat, seq<string>>, wave: Wave, key: Key, sub: Sub, r: Rejection)
    requires WaveSound(made, wave) && key in wave.groups.at && wave.groups.at[key] == sub
    requires forall probe | probe in r.probes :: probe.Group? && KeyWithin(made, probe.key, sub)
    requires forall x | x in r.newlyDropped :: x in sub.names
    ensures WaveSound(made, wave.(rejected := wave.rejected.Put(key, Given(KeysOf(r.probes), r.newlyDropped))))
  {
    PutOk(wave.rejected, key, Given(KeysOf(r.probes), r.newlyDropped));
    forall probe | probe in KeysOf(r.probes)
      ensures KeyWithin(made, probe, sub)
    {
      var i :| 0 <= i < |r.probes| && r.probes[i].Key() == probe;
      assert r.probes[i] in r.probes;
    }
  }

  lemma NoteWaveKeeps(w: World, wave: Wave, key: Key, r: Rejection, now: int)
    requires Inv(w)
    requires WaveSound(w.made, wave.(rejected := wave.rejected.Put(key, Given(KeysOf(r.probes), r.newlyDropped))))
    requires r.canary.None?
    ensures var (q, noted) := NoteWave(w.plan, wave, key, r, now);
      && noted == r.(canary := noted.canary)
      && Inv(World(q, w.held + (if noted.canary.Some? then [noted.canary.value] else []), w.made, w.dead))
  {
    var (q, noted) := NoteWave(w.plan, wave, key, r, now);
    var extra := if noted.canary.Some? then [noted.canary.value] else [];
    SwapKeeps(w, q, w.held + extra, w.made);
  }

  /** A searched group that belongs to a wave is noted in it. */
  lemma NotedKeeps(w: World, wave: Wave, rest: seq<Sub>, sub: Sub, r: Rejection, now: int, made: map<nat, seq<string>>)
    requires Inv(w) && w.made == Learn(made, r.probes) && w.held == rest + HandedBack(r)
    requires w.plan.wave == Some(wave) && sub.Group? && sub.key in wave.groups.at && wave.groups.at[sub.key] == sub
    requires Answers(made, sub, r)
    ensures var (q, noted) := NoteWave(w.plan, wave, sub.key, r, now);
      Inv(World(q, Keep(rest, Withdrawn(noted)) + HandedBack(noted), Learn(made, noted.probes), w.dead))
  {
    var noted := NoteWave(w.plan, wave, sub.key, r, now).1;
    NotedSound(w.made, wave, sub.key, sub, r);
    NoteWaveKeeps(w, wave, sub.key, r, now);
    CanaryHanded(rest, r, noted);
  }

  lemma CanaryHanded(rest: seq<Sub>, r: Rejection, noted: Rejection)
    requires noted == r.(canary := noted.canary) && r.canary.None? && Withdrawn(r) == []
    ensures Keep(rest, Withdrawn(noted)) + HandedBack(noted)
      == rest + HandedBack(r) + (if noted.canary.Some? then [noted.canary.value] else [])
  {
    KeepNothing(rest);
  }

  /** Two genuine groups under one key are the same group. */
  lemma SameGroup(made: map<nat, seq<string>>, a: Sub, b: Sub)
    requires Genuine(made, a) && Genuine(made, b)
    requires a.Group? && b.Group? && a.key == b.key && a.key.State?
    ensures a == b
  {
  }

  lemma GroupRejectedKeeps(w: World, rest: seq<Sub>, sub: Sub, now: int)
    requires Inv(w) && w.held == rest + [sub]
    requires sub.Group? && sub.key.State? && Genuine(w.made, sub)
    ensures var (q, r) := GroupRejected(w.plan, sub, now);
      Inv(World(q, Keep(rest, Withdrawn(r)) + HandedBack(r), Learn(w.made, r.probes), w.dead))
  {
    var (p, wave) := WaveFor(w.plan, sub.key, now);
    WaveForKeeps(w, sub.key, now);
    SearchKeeps(w.(plan := p), rest, sub, now);
    KeepNothing(rest);
    if wave.Some? && Search(p, sub, now).1.fault.None? {
      SameGroup(w.made, wave.value.groups.at[sub.key], sub);
      SearchedWaveKeeps(w.(plan := p), rest, sub, wave.value, now);
    }
  }

  /** The search of a wave group, noted in the wave. */
  lemma SearchedWaveKeeps(w: World, rest: seq<Sub>, sub: Sub, wave: Wave, now: int)
    requires Inv(w) && w.held == rest + [sub] && w.plan.wave == Some(wave)
    requires sub.Group? && sub.key.State? && Genuine(w.made, sub)
    requires sub.key in wave.groups.at && wave.groups.at[sub.key] == sub
    requires Search(w.plan, sub, now).1.fault.None?
    ensures var (searched, r) := Search(w.plan, sub, now);
      var (q, noted) := NoteWave(searched, wave, sub.key, r, now);
      Inv(World(q, Keep(rest, Withdrawn(noted)) + HandedBack(noted), Learn(w.made, noted.probes), w.dead))
  {
    var (searched, r) := Search(w.plan, sub, now);
    SearchKeeps(w, rest, sub, now);
    NotedKeeps(World(searched, rest + HandedBack(r), Learn(w.made, r.probes), w.dead),
               wave, rest, sub, r, now, w.made);
  }

  lemma {:induction false} ProbesFrom(given: seq<Given>, key: Key)
    ensures key in ProbesOf(given) <==> exists i :: 0 <= i < |given| && key in given[i].probes
  {
    if given != [] {
      ProbesFrom(given[1..], key);
      if key in ProbesOf(given) && key !in given[0].probes {
        var i :| 0 <= i < |given[1..]| && key in given[1..][i].probes;
        assert key in given[i + 1].probes;
      }
      if i :| 0 <= i < |given| && key in given[i].probes {
        if i > 0 { assert given[1..][i - 1] == given[i]; }
      }
    }
  }

  lemma {:induction false} DroppedFrom(given: seq<Given>, x: string)
    ensures x in DroppedOf(given) <==> exists i :: 0 <= i < |given| && x in given[i].dropped
  {
    if given != [] {
      DroppedFrom(given[1..], x);
      if x in DroppedOf(given) && x !in given[0].dropped {
        var i :| 0 <= i < |given[1..]| && x in given[1..][i].dropped;
        assert x in given[i + 1].dropped;
      }
      if i :| 0 <= i < |given| && x in given[i].dropped {
        if i > 0 { assert given[1..][i - 1] == given[i]; }
      }
    }
  }

  /** Whatever a probe of a sound wave asks for, a group of the wave asks for. */
  lemma WithdrawnWithin(made: map<nat, seq<string>>, wave: Wave, s: Sub, x: string)
    requires WaveSound(made, wave) && Genuine(made, s)
    requires s.Key() in ProbesOf(Values(wave.rejected)) && Asks(s, x)
    ensures Asked(Values(wave.groups), x)
  {
    var given := Values(wave.rejected);
    ProbesFrom(given, s.Key());
    var i :| 0 <= i < |given| && s.Key() in given[i].probes;
    var k := wave.rejected.keys[i];
    assert k in wave.groups.at && KeyWithin(made, s.Key(), wave.groups.at[k]);
    var j :| 0 <= j < |wave.groups.keys| && wave.groups.keys[j] == k;
    assert Values(wave.groups)[j] == wave.groups.at[k];
    assert Asks(Values(wave.groups)[j], x);
  }

  lemma RestoredWithin(made: map<nat, seq<string>>, wave: Wave, x: string)
    requires WaveSound(made, wave)
    requires x in DroppedOf(Values(wave.rejected))
    ensures Asked(Values(wave.groups), x)
  {
    var given := Values(wave.rejected);
    DroppedFrom(given, x);
    var i :| 0 <= i < |given| && x in given[i].dropped;
    var k := wave.rejected.keys[i];
    var j :| 0 <= j < |wave.groups.keys| && wave.groups.keys[j] == k;
    assert Values(wave.groups)[j] == wave.groups.at[k];
    assert Asks(Values(wave.groups)[j], x);
  }

  lemma DocumentFaultKeeps(w: World, rest: seq<Sub>, canary: Sub, wave: Wave)
    requires Inv(w) && w.held == rest + [canary]
    requires WaveSound(w.made, wave) && canary.Group? && canary.key == Canary && Genuine(w.made, canary)
    ensures var (q, r) := DocumentFault(w.plan, wave, canary);
      Inv(World(q, Keep(rest, Withdrawn(r)) + HandedBack(r), w.made, w.dead))
  {
    var (q, r) := DocumentFault(w.plan, wave, canary);
    var given := Values(wave.rejected);
    var withdrawn := ProbesOf(given);
    var groups := Values(wave.groups);
    var held := Keep(rest, withdrawn) + HandedBack(r);
    assert HandedBack(r) == groups + [canary];
    RemoveAllEffect(w.plan.dropped, DroppedOf(given));
    KeepEffect(rest, withdrawn);
    forall x | Asked(groups, x)
      ensures Asked(held, x)
    {
      var t :| t in groups && Asks(t, x);
      assert t in held;
    }
    forall s | s in w.held
      ensures s in held || Replaced(s, q, held)
    {
      if s !in held {
        assert s in rest && s.Key() in withdrawn;
        ProbesFrom(given, s.Key());
        var i :| 0 <= i < |given| && s.Key() in given[i].probes;
        assert KeyWithin(w.made, s.Key(), wave.groups.at[wave.rejected.keys[i]]);
        assert InPool(w.plan, w.held, s);
        forall x | Asks(s, x)
          ensures Asked(held, x)
        {
          WithdrawnWithin(w.made, wave, s, x);
        }
      }
    }
    forall x | x in w.plan.dropped.at
      ensures x in q.dropped.at || Asked(held, x)
    {
      if x in DroppedOf(given) {
        RestoredWithin(w.made, wave, x);
      }
    }
    forall s | s in groups
      ensures s.Group? && Genuine(w.made, s)
    {
      var j :| 0 <= j < |groups| && groups[j] == s;
      assert wave.groups.keys[j] in wave.groups.at;
    }
    SwapKeeps(w, q, held, w.made);
  }

  lemma CanaryRejectedKeeps(w: World, rest: seq<Sub>, canary: Sub, now: int)
    requires Inv(w) && w.held == rest + [canary]
    requires canary.Group? && canary.key == Canary && Genuine(w.made, canary)
    ensures var (q, r) := CanaryRejected(w.plan, canary, now);
      Inv(World(q, Keep(rest, Withdrawn(r)) + HandedBack(r), w.made, w.dead)) && r.probes == []
  {
    var p := w.plan;
    KeepNothing(rest);
    if canary.key !in p.faulted {
      var w1 := w.(plan := p.(pendingCanary := None));
      SwapKeeps(w, w1.plan, w.held, w.made);
      if p.pendingCanary.Some? && now - p.pendingCanary.value.at <= CANARY_WINDOW_MS {
        DocumentFaultKeeps(w1, rest, canary, p.pendingCanary.value.wave);
      } else {
        assert HandedBack(RetryOnly(CanaryAlone, canary)) == [canary];
      }
    } else {
      assert HandedBack(RetryOnly(Documents, canary)) == [canary];
    }
  }

  lemma UnavailableKeeps(w: World, rest: seq<Sub>, kind: Fixed, dueAt: int)
    requires Inv(w) && w.held == rest + [Single(kind)]
    ensures Inv(World(w.plan.(unavailable := w.plan.unavailable.Put(kind, Refused(Single(kind), dueAt))),
                      rest, w.made, w.dead))
  {
    var q := w.plan.(unavailable := w.plan.unavailable.Put(kind, Refused(Single(kind), dueAt)));
    PutOk(w.plan.unavailable, kind, Refused(Single(kind), dueAt));
    forall s | InPool(w.plan, w.held, s) && s != Single(kind)
      ensures InPool(q, rest, s)
    {
    }
    forall f: Fixed
      ensures InPool(q, rest, Single(f)) || f in q.unavailable.at
    {
      if f != kind && InPool(w.plan, w.held, Single(f)) {
        assert InPool(q, rest, Single(f));
      }
    }
    forall x | x in q.properties
      ensures Covered(q, rest, x)
    {
      if x !in q.dropped.at {
        var s :| InPool(w.plan, w.held, s) && Asks(s, x);
        assert InPool(q, rest, s);
      }
    }
  }

  lemma RejectionKeeps(w: World, id: Id, now: int)
    requires Inv(w)
    ensures Inv(Step(w, Refusal(id, now)))
  {
    var p := w.plan;
    KeepNothing(w.held);
    if id !in p.live.at {
      assert Step(w, Refusal(id, now)).held == w.held;
      assert Step(w, Refusal(id, now)).dead == w.dead;
    } else {
      var sub := p.live.at[id];
      EndKeeps(w, id);
      var w1 := Step(w, End(id));
      assert InPool(p, w.held, sub);
      var (q, r) := Rejected(p, id, now);
      RejectedLive(p, id, now);
      assert Step(w, Refusal(id, now)).dead == w1.dead;
      match sub
      case Single(kind) =>
        UnavailableKeeps(w1, w.held, kind, now + REPROBE_INTERVAL_MS);
        assert Step(w, Refusal(id, now)).held == w.held;
      case Group(key, names) =>
        if key == Canary {
          CanaryRejectedKeeps(w1, w.held, sub, now);
        } else if key in p.faulted || key in p.exhausted {
          assert Step(w, Refusal(id, now)).held == w1.held;
        } else {
          GroupRejectedKeeps(w1, w.held, sub, now);
        }
    }
  }

  /** A rejection takes the rejected id out and leaves every other as it was. */
  lemma RejectedLive(p: Plan, id: Id, now: int)
    requires p.Ok()
    ensures Rejected(p, id, now).0.live == if id in p.live.at then p.live.Remove(id) else p.live
    ensures Rejected(p, id, now).0.nextId == p.nextId
  {
    if id in p.live.at {
      var sub := p.live.at[id];
      var q := p.(live := p.live.Remove(id));
      if sub.Group? && sub.key != Canary && sub.key !in p.faulted && sub.key !in p.exhausted {
        GroupRejectedFrame(q, sub, now);
      }
    }
  }

  lemma SearchFrame(p: Plan, sub: Sub, now: int)
    requires p.Wired() && sub.Group?
    ensures var q := Search(p, sub, now).0;
      && q.live == p.live && q.nextId == p.nextId && q.wave == p.wave && q.pendingCanary == p.pendingCanary
      && q.faulted == p.faulted && q.unavailable == p.unavailable && q.properties == p.properties
  {
  }

  lemma GroupRejectedFrame(p: Plan, sub: Sub, now: int)
    requires p.Wired() && sub.Group?
    ensures var q := GroupRejected(p, sub, now).0;
      && q.live == p.live && q.nextId == p.nextId
      && q.faulted == p.faulted && q.unavailable == p.unavailable && q.properties == p.properties
  {
    var (q, wave) := WaveFor(p, sub.key, now);
    WaveForFrame(p, sub.key, now);
    SearchFrame(q, sub, now);
    var (searched, r) := Search(q, sub, now);
    if wave.Some? {
      NoteWaveFrame(searched, wave.value, sub.key, r, now);
    }
  }

  lemma WaveForFrame(p: Plan, key: Key, now: int)
    ensures WaveFor(p, key, now).0 == p.(wave := WaveFor(p, key, now).0.wave)
  {
  }

  lemma NoteWaveFrame(p: Plan, wave: Wave, key: Key, r: Rejection, now: int)
    ensures var q := NoteWave(p, wave, key, r, now).0; q == p.(wave := q.wave, pendingCanary := q.pendingCanary)
  {
  }

  // ----- the dictionaries stay dictionaries ----------------------------------------------

  lemma InitialOk(p: Plan)
    requires p.Ok()
    ensures Initial(p).0.Ok()
  {
    var groups := InitialGroups(p);
    GroupDictEffect(groups);
    AllOk(Forgotten(p), InitialSubs(p));
  }

  lemma {:induction false} AllOk(p: Plan, subs: seq<Sub>)
    requires p.Ok()
    ensures ActivateAll(p, subs).Ok()
    decreases |subs|
  {
    if subs != [] {
      AllOk(Activate(p, subs[0]).0, subs[1..]);
    }
  }

  lemma SearchOk(p: Plan, sub: Sub, now: int)
    requires p.Ok() && sub.Group?
    ensures Search(p, sub, now).0.Ok()
  {
    var (q, lineage) := LineageOf(p, sub.key, now);
    if |sub.names| == 1 && lineage.Some? {
      var h, name := lineage.value, sub.names[0];
      RemoveAllEffect(q.dropped, Without(AddName(q.searches[h].rejected, name), name));
    }
  }

  lemma GroupRejectedOk(p: Plan, sub: Sub, now: int)
    requires p.Ok() && sub.Group?
    ensures GroupRejected(p, sub, now).0.Ok()
  {
    var (q, joined) := WaveFor(p, sub.key, now);
    SearchOk(q, sub, now);
    var (searched, r) := Search(q, sub, now);
    if joined.Some? && r.fault.None? {
      NoteWaveOk(searched, joined.value, sub.key, r, now);
    }
  }

  lemma NoteWaveOk(p: Plan, joined: Wave, key: Key, r: Rejection, now: int)
    requires p.Ok() && joined.Ok()
    ensures NoteWave(p, joined, key, r, now).0.Ok()
  {
    PutOk(joined.rejected, key, Given(KeysOf(r.probes), r.newlyDropped));
  }

  lemma DocumentFaultOk(p: Plan, wave: Wave, canary: Sub)
    requires p.Ok() && wave.Ok()
    ensures DocumentFault(p, wave, canary).0.Ok()
  {
    RemoveAllEffect(p.dropped, DroppedOf(Values(wave.rejected)));
  }

  lemma CanaryRejectedOk(p: Plan, canary: Sub, now: int)
    requires p.Ok()
    ensures CanaryRejected(p, canary, now).0.Ok()
  {
    hide DocumentFault;
    if p.pendingCanary.Some? {
      DocumentFaultOk(p.(pendingCanary := None), p.pendingCanary.value.wave, canary);
    }
  }

  lemma RejectedOk(p: Plan, id: Id, now: int)
    requires p.Ok()
    ensures Rejected(p, id, now).0.Ok()
  {
    if id in p.live.at {
      RemoveOk(p.live, id);
      var q, sub := p.(live := p.live.Remove(id)), p.live.at[id];
      if sub.Group? {
        GroupRejectedOk(q, sub, now);
        CanaryRejectedOk(q, sub, now);
      }
    }
  }
}
