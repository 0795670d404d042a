/** The bisection finds exactly the bad names, and costs no more than it says. */
module SubscriptionSearch {
  import opened Collections
  import opened Catalogue
  import opened SubscriptionModel
  import opened SubscriptionRuns
  import opened SubscriptionSafety

  // ----- the server ----------------------------------------------------------------------

  /** The server refuses exactly the state groups that ask for a bad name. It accepts the canary
      and the fixed subscriptions. */
  predicate Refuses(bad: set<string>, sub: Sub) {
    sub.Group? && sub.key.State? && exists x :: x in sub.names && x in bad
  }

  /** An answer that comes while the search it belongs to is still one search. */
  predicate Prompt(p: Plan, key: Key, now: int)
    requires p.Wired()
  {
    key in p.searchOf ==> now - p.searches[p.searchOf[key]].lastAt <= LINEAGE_WINDOW_MS
  }

  /** What can happen during a search. */
  ghost predicate Allowed(w: World, e: Event, bad: set<string>)
    requires w.plan.Ok()
  {
    match e
    case Refusal(id, now) =>
      id in w.plan.live.at && Refuses(bad, w.plan.live.at[id]) && Prompt(w.plan, w.plan.live.at[id].Key(), now)
    case End(_) => true
    case Activation(_) => true
    case Renew => true
    case Accepted => true
    case _ => false
  }

  ghost predicate HasGood(bad: set<string>, names: seq<string>) {
    exists x :: x in names && x !in bad
  }

  /** The plan in the middle of a search against `bad`; `lost` was dropped before it began. */
  ghost predicate Searching(w: World, bad: set<string>, lost: set<string>) {
    && Inv(w)
    && w.plan.faulted == {} && w.plan.exhausted == {}
    && lost <= w.plan.dropped.at.Keys <= bad + lost
    && (forall n | n in w.made :: Distinct(w.made[n]))
    && (forall sub | InPool(w.plan, w.held, sub) && sub.Group? && sub.key.State? ::
          sub.key in w.plan.searchOf || HasGood(bad, sub.names))
    && AllHopeful(w.plan, bad)
  }

  // ----- costs ---------------------------------------------------------------------------

  function Sum(f: Sub -> nat, subs: seq<Sub>): nat {
    if subs == [] then 0 else f(subs[0]) + Sum(f, subs[1..])
  }

  lemma {:induction false} SumAppend(f: Sub -> nat, a: seq<Sub>, b: seq<Sub>)
    ensures Sum(f, a + b) == Sum(f, a) + Sum(f, b)
  {
    if a == [] {
      assert a + b == b;
    } else {
      assert (a + b)[1..] == a[1..] + b;
      SumAppend(f, a[1..], b);
    }
  }

  /** The cost of everything live and everything held. */
  ghost function Total(f: Sub -> nat, w: World): nat
    requires w.plan.Ok()
  {
    Sum(f, Values(w.plan.live)) + Sum(f, w.held)
  }

  lemma {:induction false} WithoutSplit<T>(s: seq<T>, x: T) returns (i: nat)
    requires Distinct(s) && x in s
    ensures i < |s| && s[i] == x && Without(s, x) == s[..i] + s[i + 1..]
  {
    if s[0] == x {
      i := 0;
      WithoutAbsent(s[1..], x);
    } else {
      i := WithoutSplit(s[1..], x);
      i := i + 1;
    }
  }

  lemma SumSplit(f: Sub -> nat, all: seq<Sub>, i: nat)
    requires i < |all|
    ensures Sum(f, all) == Sum(f, all[..i] + all[i + 1..]) + f(all[i])
  {
    SumAppend(f, all[..i], all[i..]);
    SumAppend(f, all[..i], all[i + 1..]);
    assert all == all[..i] + all[i..];
    SumOne(f, all[i..]);
    assert all[i..][1..] == all[i + 1..];
  }

  lemma SumOne(f: Sub -> nat, subs: seq<Sub>)
    requires subs != []
    ensures Sum(f, subs) == f(subs[0]) + Sum(f, subs[1..])
  {
  }

  lemma ValuesRemoved(live: Dict<Id, Sub>, id: Id) returns (i: nat)
    requires live.Ok() && id in live.at
    ensures live.Remove(id).Ok() && i < |Values(live)| && Values(live)[i] == live.at[id]
    ensures Values(live.Remove(id)) == Values(live)[..i] + Values(live)[i + 1..]
  {
    RemoveOk(live, id);
    i := WithoutSplit(live.keys, id);
    ValuesWithout(live, live.Remove(id), i);
  }

  lemma ValuesWithout(live: Dict<Id, Sub>, rest: Dict<Id, Sub>, i: nat)
    requires live.Ok() && rest.Ok() && i < |live.keys| && rest.keys == live.keys[..i] + live.keys[i + 1..]
    requires forall k | k in rest.at :: k in live.at && rest.at[k] == live.at[k]
    ensures Values(rest) == Values(live)[..i] + Values(live)[i + 1..]
  {
    var all := Values(live);
    var without := all[..i] + all[i + 1..];
    forall j | 0 <= j < |rest.keys| ensures Values(rest)[j] == without[j] {
      assert rest.keys[j] in rest.keys;
      if j < i {
        assert rest.keys[j] == live.keys[j] && without[j] == all[j];
      } else {
        assert rest.keys[j] == live.keys[j + 1] && without[j] == all[j + 1];
      }
    }
    assert |without| == |rest.keys|;
  }

  lemma SumRemoved(f: Sub -> nat, live: Dict<Id, Sub>, id: Id)
    requires live.Ok() && id in live.at
    ensures live.Remove(id).Ok()
    ensures Sum(f, Values(live)) == Sum(f, Values(live.Remove(id))) + f(live.at[id])
  {
    var i := ValuesRemoved(live, id);
    SumSplit(f, Values(live), i);
  }

  lemma SumActivated(f: Sub -> nat, p: Plan, sub: Sub)
    requires p.Ok() && forall id | id in p.live.at :: id.n < p.nextId
    ensures Activate(p, sub).0.Ok()
    ensures Sum(f, Values(Activate(p, sub).0.live)) == Sum(f, Values(p.live)) + f(sub)
  {
    var (q, id) := Activate(p, sub);
    PutOk(p.live, id, sub);
    assert Values(q.live) == Values(p.live) + [sub];
    SumAppend(f, Values(p.live), [sub]);
    assert Sum(f, [sub]) == f(sub);
  }

  lemma SumRenewed(p: Plan)
    requires p.Ok()
    ensures RenewAll(p).0.Ok() && Values(RenewAll(p).0.live) == Values(p.live)
  {
    RenewedEffect(p.live, p.nextId, |p.live.keys|);
    RenewedOk(p.live, p.nextId);
    var q := RenewAll(p).0;
    forall j | 0 <= j < |p.live.keys|
      ensures Values(q.live)[j] == Values(p.live)[j]
    {
      assert q.live.keys[j] == RenewalAt(p.live, p.nextId, j).id;
    }
  }

  // ----- one refusal ---------------------------------------------------------------------

  /** A search never runs out of names: it has one good name, and only bad ones are rejected. */
  lemma NeverExhausted(bad: set<string>, names: seq<string>, rejected: seq<string>)
    requires HasGood(bad, names) && Distinct(rejected)
    requires forall x | x in rejected :: x in bad && x in names
    ensures |rejected| < |names|
  {
    var good :| good in names && good !in bad;
    DistinctCount(rejected);
    ElementsBound(names);
    SubsetBound(Elements(rejected), Elements(names) - {good});
  }

  lemma {:induction false} DistinctCount(s: seq<string>)
    requires Distinct(s)
    ensures |Elements(s)| == |s|
  {
    if s != [] {
      var init, last := s[..|s| - 1], s[|s| - 1];
      DistinctCount(init);
      assert s == init + [last] && last !in init;
      assert Elements(s) == Elements(init) + {last};
    }
  }

  /** What one refused group leads to: never a fault, and its halves or its dropped name. */
  ghost predicate Bisected(p: Plan, sub: Sub, q: Plan, r: Rejection)
    requires sub.Group?
  {
    && r.fault.None?
    && q.faulted == p.faulted && q.exhausted == p.exhausted
    && (if |sub.names| == 1
        then r.probes == [] && q.dropped.at.Keys == p.dropped.at.Keys + {sub.names[0]}
        else r.probes == Halves(p, sub.names) && q.dropped == p.dropped)
  }

  /** A search that can still end well: its group has a good name, and only bad ones were
      rejected alone. */
  ghost predicate Hopeful(search: Lineage, bad: set<string>) {
    && search.group.Group?
    && HasGood(bad, search.group.names)
    && Distinct(search.rejected)
    && (forall x | x in search.rejected :: x in bad)
  }

  ghost predicate AllHopeful(p: Plan, bad: set<string>) {
    forall k | k in p.searchOf :: p.searchOf[k] < |p.searches| && Hopeful(p.searches[p.searchOf[k]], bad)
  }

  lemma AloneRefused(p: Plan, made: map<nat, seq<string>>, sub: Sub, now: int, bad: set<string>)
    requires p.Ok() && SearchesSound(p, made) && AllHopeful(p, bad)
    requires Genuine(made, sub) && Refuses(bad, sub) && |sub.names| == 1
    requires sub.key in p.searchOf
    ensures var (q, r) := DropInSearch(p, p.searchOf[sub.key], sub.names[0], now);
      && Bisected(p, sub, q, r) && AllHopeful(q, bad) && q.searchOf == p.searchOf && r.canary.None?
  {
    var h, name := p.searchOf[sub.key], sub.names[0];
    var rejected := AddName(p.searches[h].rejected, name);
    assert KeyWithin(made, sub.key, p.searches[h].group);
    assert LineageSound(made, p.searches[h]) && Hopeful(p.searches[h], bad);
    AddNameElements(p.searches[h].rejected, name);
    NeverExhausted(bad, p.searches[h].group.names, rejected);
    var search := p.searches[h].(rejected := rejected, lastAt := now);
    assert Hopeful(search, bad);
    assert DropInSearch(p, h, name, now) == Drop(p.(searches := p.searches[h := search]), name, now);
  }

  lemma SplitRefused(p: Plan, sub: Sub, lineage: Option<nat>, now: int, bad: set<string>)
    requires p.Ok() && AllHopeful(p, bad)
    requires sub.Group? && |sub.names| != 1
    requires lineage.Some? ==> sub.key in p.searchOf && p.searchOf[sub.key] == lineage.value
    requires lineage.None? ==> HasGood(bad, sub.names)
    ensures var (q, r) := Split(p, sub, lineage, now);
      && Bisected(p, sub, q, r) && AllHopeful(q, bad) && p.searchOf.Keys <= q.searchOf.Keys && r.canary.None?
      && (forall probe | probe in r.probes :: probe.Group? && probe.key in q.searchOf)
  {
    var (q, r) := Split(p, sub, lineage, now);
    var h := q.searchOf[State(p.nextGroup)];
    if lineage.Some? {
      assert Hopeful(p.searches[h], bad);
    }
    assert Hopeful(q.searches[h], bad);
  }

  lemma SearchRefused(p: Plan, made: map<nat, seq<string>>, sub: Sub, now: int, bad: set<string>)
    requires p.Ok() && SearchesSound(p, made) && AllHopeful(p, bad)
    requires MadeSound(p, made) && Genuine(made, sub) && Refuses(bad, sub)
    requires sub.key in p.searchOf || HasGood(bad, sub.names)
    requires Prompt(p, sub.key, now)
    ensures var (q, r) := Search(p, sub, now);
      && Bisected(p, sub, q, r) && AllHopeful(q, bad) && p.searchOf.Keys <= q.searchOf.Keys && r.canary.None?
      && (forall probe | probe in r.probes :: probe.Group? && probe.key in q.searchOf)
  {
    if |sub.names| == 1 {
      if sub.key in p.searchOf {
        AloneRefused(p, made, sub, now, bad);
      } else {
        assert sub.names[0] in bad;
      }
    } else {
      SplitRefused(p, sub, LineageOf(p, sub.key, now).1, now, bad);
    }
  }

  /** What a wave adds to a search: a note of it, and perhaps the canary. */
  lemma GroupRejectedShape(p: Plan, sub: Sub, now: int)
    requires p.Wired() && sub.Group?
    ensures var joined := WaveFor(p, sub.key, now).0;
      && joined == p.(wave := joined.wave) && joined.Wired()
      && var (searched, sr) := Search(joined, sub, now);
         var (q, r) := GroupRejected(p, sub, now);
         && q == searched.(wave := q.wave, pendingCanary := q.pendingCanary)
         && r == sr.(canary := r.canary)
         && (sr.canary.None? && r.canary.Some? ==> r.canary.value == CANARY_SUB)
  {
  }

  lemma GroupRefused(p: Plan, made: map<nat, seq<string>>, sub: Sub, now: int, bad: set<string>)
    requires p.Ok() && SearchesSound(p, made) && AllHopeful(p, bad)
    requires MadeSound(p, made) && Genuine(made, sub) && Refuses(bad, sub)
    requires sub.key in p.searchOf || HasGood(bad, sub.names)
    requires Prompt(p, sub.key, now)
    ensures var (q, r) := GroupRejected(p, sub, now);
      && Bisected(p, sub, q, r) && AllHopeful(q, bad) && p.searchOf.Keys <= q.searchOf.Keys
      && (forall probe | probe in r.probes :: probe.Group? && probe.key in q.searchOf)
      && (r.canary.Some? ==> r.canary.value == CANARY_SUB)
  {
    GroupRejectedShape(p, sub, now);
    SearchRefused(WaveFor(p, sub.key, now).0, made, sub, now, bad);
  }

  /** One refusal in a search. */
  lemma RefusalBisects(w: World, id: Id, now: int, bad: set<string>, lost: set<string>)
    requires Searching(w, bad, lost) && Allowed(w, Refusal(id, now), bad)
    ensures var sub := w.plan.live.at[id]; var (q, r) := Rejected(w.plan, id, now);
      && Bisected(w.plan, sub, q, r) && AllHopeful(q, bad) && w.plan.searchOf.Keys <= q.searchOf.Keys
      && (forall probe | probe in r.probes :: probe.Group? && probe.key in q.searchOf)
      && (r.canary.Some? ==> r.canary.value == CANARY_SUB)
  {
    var sub := w.plan.live.at[id];
    var p := w.plan.(live := w.plan.live.Remove(id));
    RemoveOk(w.plan.live, id);
    assert InPool(w.plan, w.held, sub);
    GroupRefused(p, w.made, sub, now, bad);
    assert Rejected(w.plan, id, now) == GroupRejected(p, sub, now);
  }

  // ----- what every step of a search keeps -----------------------------------------------

  lemma {:induction false} LearnDistinct(made: map<nat, seq<string>>, subs: seq<Sub>)
    requires forall n | n in made :: Distinct(made[n])
    requires forall sub | sub in subs && sub.Group? :: Distinct(sub.names)
    ensures forall n | n in Learn(made, subs) :: Distinct(Learn(made, subs)[n])
    decreases |subs|
  {
    if subs != [] {
      assert subs[0] in subs;
      LearnDistinct(
        if subs[0].Group? && subs[0].key.State? then made[subs[0].key.n := subs[0].names] else made,
        subs[1..]);
    }
  }

  /** What a refusal leaves live and held, as one list. */
  lemma RefusalPool(w: World, id: Id, now: int, bad: set<string>, lost: set<string>)
    requires Searching(w, bad, lost) && Allowed(w, Refusal(id, now), bad)
    ensures var w2 := Step(w, Refusal(id, now)); var r := Rejected(w.plan, id, now).1;
      && w2.plan.live == w.plan.live.Remove(id)
      && w2.held == w.held + r.probes + (if r.canary.Some? then [CANARY_SUB] else [])
      && w2.made == Learn(w.made, r.probes)
  {
    RefusalBisects(w, id, now, bad, lost);
    RejectedLive(w.plan, id, now);
    KeepNothing(w.held);
    var r := Rejected(w.plan, id, now).1;
    assert HandedBack(r) == r.probes + (if r.canary.Some? then [CANARY_SUB] else []);
  }

  /** Names refused stay distinct in the halves. */
  lemma RefusalDistinct(w: World, id: Id, now: int, bad: set<string>, lost: set<string>)
    requires Searching(w, bad, lost) && Allowed(w, Refusal(id, now), bad)
    ensures var made := Step(w, Refusal(id, now)).made; forall n | n in made :: Distinct(made[n])
  {
    var sub := w.plan.live.at[id];
    var r := Rejected(w.plan, id, now).1;
    RefusalBisects(w, id, now, bad, lost);
    RefusalPool(w, id, now, bad, lost);
    assert InPool(w.plan, w.held, sub) && Genuine(w.made, sub);
    hide Step, Rejected, Inv, AllHopeful;
    forall probe | probe in r.probes
      ensures Distinct(probe.names)
    {
      assert |sub.names| != 1;
      assert probe == r.probes[0] || probe == r.probes[1];
    }
    LearnDistinct(w.made, r.probes);
  }

  /** Every group left outside a search has a good name, as before. */
  /** What a refusal leaves in the pool was there, or is handed back. */
  lemma PoolAfter(w: World, w2: World, id: Id, handed: seq<Sub>)
    requires w2.plan.live == w.plan.live.Remove(id) && w2.held == w.held + handed
    ensures forall s | InPool(w2.plan, w2.held, s) :: s in handed || InPool(w.plan, w.held, s)
  {
  }

  lemma RefusalHopeful(w: World, id: Id, now: int, bad: set<string>, lost: set<string>)
    requires Searching(w, bad, lost) && Allowed(w, Refusal(id, now), bad)
    ensures var w2 := Step(w, Refusal(id, now));
      forall s | InPool(w2.plan, w2.held, s) && s.Group? && s.key.State? ::
        s.key in w2.plan.searchOf || HasGood(bad, s.names)
  {
    var w2 := Step(w, Refusal(id, now));
    var r := Rejected(w.plan, id, now).1;
    var canary := if r.canary.Some? then [CANARY_SUB] else [];
    RefusalBisects(w, id, now, bad, lost);
    RefusalPool(w, id, now, bad, lost);
    assert w2.plan.searchOf == Rejected(w.plan, id, now).0.searchOf;
    assert w2.held == w.held + (r.probes + canary);
    hide Step, Rejected, Inv, AllHopeful, HasGood, Learn, Bisected, InPool;
    PoolAfter(w, w2, id, r.probes + canary);
  }

  lemma RefusalKeepsSearching(w: World, id: Id, now: int, bad: set<string>, lost: set<string>)
    requires Searching(w, bad, lost) && Allowed(w, Refusal(id, now), bad)
    ensures Searching(Step(w, Refusal(id, now)), bad, lost)
  {
    var sub := w.plan.live.at[id];
    RejectionKeeps(w, id, now);
    RefusalDistinct(w, id, now, bad, lost);
    RefusalHopeful(w, id, now, bad, lost);
    RefusalBisects(w, id, now, bad, lost);
    var w2 := Step(w, Refusal(id, now));
    assert w2.plan == Rejected(w.plan, id, now).0;
    hide Step, Rejected, Inv, AllHopeful, HasGood;
    if |sub.names| == 1 {
      assert sub.names[0] in bad;
    }
  }

  lemma SamePool(w: World, w2: World)
    requires Sound(w) && Sound(w2)
    requires forall s :: InPool(w2.plan, w2.held, s) ==> InPool(w.plan, w.held, s)
    requires w2.plan == w.plan.(live := w2.plan.live, nextId := w2.plan.nextId) && w2.made == w.made
    ensures forall bad, lost :: Searching(w, bad, lost) && Inv(w2) ==> Searching(w2, bad, lost)
  {
  }

  lemma StepKeepsSearching(w: World, e: Event, bad: set<string>, lost: set<string>)
    requires Searching(w, bad, lost) && Allowed(w, e, bad)
    ensures Searching(Step(w, e), bad, lost)
  {
    StepKeeps(w, e);
    var w2 := Step(w, e);
    match e
    case Refusal(id, now) => RefusalKeepsSearching(w, id, now, bad, lost);
    case End(id) =>
      if id in w.plan.live.at {
        assert InPool(w.plan, w.held, w.plan.live.at[id]);
        EndKeeps(w, id);
        forall s | InPool(w2.plan, w2.held, s) ensures InPool(w.plan, w.held, s) {
          if s !in w2.held {
            var k :| k in w2.plan.live.at && w2.plan.live.at[k] == s;
            assert k in w.plan.live.at;
          }
        }
        SamePool(w, w2);
      } else {
        assert w.held + [] == w.held && w.dead + {} == w.dead && w2 == w;
      }
    case Activation(i) =>
      if i < |w.held| {
        forall s | InPool(w2.plan, w2.held, s) ensures InPool(w.plan, w.held, s) {
          if s !in w2.held {
            var k :| k in w2.plan.live.at && w2.plan.live.at[k] == s;
            assert k in w.plan.live.at || s == w.held[i];
          }
        }
        SamePool(w, w2);
      }
    case Renew =>
      forall s ensures InPool(w2.plan, w2.held, s) ==> InPool(w.plan, w.held, s) {
        RenewPool(w.plan, w.held, s);
      }
      SamePool(w, w2);
    case Accepted =>
      forall s ensures InPool(w2.plan, w2.held, s) ==> InPool(w.plan, w.held, s) {
      }
  }

  // ----- the bound -----------------------------------------------------------------------

  /** How many rejections a group can still cost: 2n - 1. */
  function Weight(sub: Sub): nat {
    if sub.Group? && sub.key.State? && |sub.names| > 0 then 2 * |sub.names| - 1 else 0
  }

  ghost function Refusals(events: seq<Event>): nat {
    if events == [] then 0 else (if events[0].Refusal? then 1 else 0) + Refusals(events[1..])
  }

  /** A step that is not a refusal moves subscriptions about and changes no total. */
  lemma SumPutBack(f: Sub -> nat, held: seq<Sub>, sub: Sub)
    ensures Sum(f, held + [sub]) == Sum(f, held) + f(sub)
  {
    SumAppend(f, held, [sub]);
    SumOne(f, [sub]);
  }

  lemma EndKeepsTotal(f: Sub -> nat, w: World, id: Id)
    requires Inv(w)
    ensures Step(w, End(id)).plan.Ok() && Total(f, Step(w, End(id))) == Total(f, w)
  {
    if id in w.plan.live.at {
      SumRemoved(f, w.plan.live, id);
      SumPutBack(f, w.held, w.plan.live.at[id]);
    } else {
      assert w.held + [] == w.held;
    }
  }

  lemma ActivationKeepsTotal(f: Sub -> nat, w: World, i: nat)
    requires Inv(w)
    ensures Step(w, Activation(i)).plan.Ok() && Total(f, Step(w, Activation(i))) == Total(f, w)
  {
    if i < |w.held| {
      SumActivated(f, w.plan, w.held[i]);
      SumSplit(f, w.held, i);
    }
  }

  lemma MoveKeepsTotal(f: Sub -> nat, w: World, e: Event, bad: set<string>)
    requires Inv(w) && Allowed(w, e, bad) && !e.Refusal?
    ensures Step(w, e).plan.Ok() && Total(f, Step(w, e)) == Total(f, w)
  {
    match e
    case End(id) => EndKeepsTotal(f, w, id);
    case Activation(i) => ActivationKeepsTotal(f, w, i);
    case Renew =>
      StepKeeps(w, e);
      SumRenewed(w.plan);
    case Accepted => StepKeeps(w, e);
  }

  /** A refusal takes the refused group's cost out and puts its halves' in. */
  lemma RefusalTotal(f: Sub -> nat, w: World, id: Id, now: int, bad: set<string>, lost: set<string>)
    requires Searching(w, bad, lost) && Allowed(w, Refusal(id, now), bad)
    requires f(CANARY_SUB) == 0
    ensures Step(w, Refusal(id, now)).plan.Ok()
    ensures Total(f, Step(w, Refusal(id, now))) + f(w.plan.live.at[id])
      == Total(f, w) + Sum(f, Rejected(w.plan, id, now).1.probes)
  {
    var r := Rejected(w.plan, id, now).1;
    RejectionKeeps(w, id, now);
    RefusalPool(w, id, now, bad, lost);
    SumRemoved(f, w.plan.live, id);
    var canary := if r.canary.Some? then [CANARY_SUB] else [];
    SumAppend(f, w.held + r.probes, canary);
    SumAppend(f, w.held, r.probes);
    assert Sum(f, canary) == 0;
  }

  lemma SumPair(f: Sub -> nat, a: Sub, b: Sub)
    ensures Sum(f, [a, b]) == f(a) + f(b)
  {
    assert [a, b][1..] == [b];
    assert Sum(f, [b]) == f(b);
  }

  lemma HalvesCost(p: Plan, made: map<nat, seq<string>>, sub: Sub)
    requires MadeSound(p, made) && Genuine(made, sub) && sub.Group? && sub.key.State? && |sub.names| != 1
    ensures Sum(Weight, Halves(p, sub.names)) + 1 == Weight(sub)
  {
    HalvesFacts(p, made, sub.names);
    var probes := Halves(p, sub.names);
    assert probes == [probes[0], probes[1]];
    SumPair(Weight, probes[0], probes[1]);
  }

  /** Each refusal costs exactly one. */
  lemma RefusalCostsOne(w: World, id: Id, now: int, bad: set<string>, lost: set<string>)
    requires Searching(w, bad, lost) && Allowed(w, Refusal(id, now), bad)
    ensures Step(w, Refusal(id, now)).plan.Ok()
    ensures Total(Weight, Step(w, Refusal(id, now))) + 1 == Total(Weight, w)
  {
    var sub := w.plan.live.at[id];
    RefusalTotal(Weight, w, id, now, bad, lost);
    RefusalBisects(w, id, now, bad, lost);
    assert InPool(w.plan, w.held, sub);
    if |sub.names| != 1 {
      HalvesCost(w.plan, w.made, sub);
    }
  }

  /** Every event of `events` is one the search allows, in turn. */
  ghost predicate SearchRun(w: World, events: seq<Event>, bad: set<string>, lost: set<string>)
    requires Searching(w, bad, lost)
    decreases |events|
  {
    events == [] || (
      && Allowed(w, events[0], bad)
      && (StepKeepsSearching(w, events[0], bad, lost);
          SearchRun(Step(w, events[0]), events[1..], bad, lost)))
  }

  /** THE SEARCH IS BOUNDED. Along any run, the refusals so far and the cost of what is still
      outstanding add up to the cost the search began with. */
  lemma {:induction false} SearchIsBounded(w: World, events: seq<Event>, bad: set<string>, lost: set<string>)
    requires Searching(w, bad, lost) && SearchRun(w, events, bad, lost)
    ensures Searching(Run(w, events), bad, lost)
    ensures Refusals(events) + Total(Weight, Run(w, events)) == Total(Weight, w)
    decreases |events|
  {
    if events != [] {
      var e, next := events[0], Step(w, events[0]);
      StepKeeps(w, e);
      StepKeepsSearching(w, e, bad, lost);
      SearchIsBounded(next, events[1..], bad, lost);
      if e.Refusal? {
        RefusalCostsOne(w, e.id, e.now, bad, lost);
      } else {
        MoveKeepsTotal(Weight, w, e, bad);
      }
    }
  }

  /** Nothing is waiting to be subscribed and nothing live is refused. */
  ghost predicate Settled(w: World, bad: set<string>) {
    && (forall sub | sub in w.held :: !(sub.Group? && sub.key.State?))
    && (forall id | id in w.plan.live.at :: !Refuses(bad, w.plan.live.at[id]))
  }

  /** THE SEARCH IS CORRECT. Once it has settled, what is dropped is exactly the bad names (and
      what was dropped before it began), and every other name is live. */
  lemma SettledIsRight(w: World, bad: set<string>, lost: set<string>)
    requires Searching(w, bad, lost) && Settled(w, bad)
    ensures forall x | x in w.plan.properties :: x in w.plan.dropped.at <==> x in bad || x in lost
    ensures forall x | x in w.plan.properties && x !in bad && x !in lost ::
      exists id :: id in w.plan.live.at && Asks(w.plan.live.at[id], x)
  {
    forall x | x in w.plan.properties
      ensures x in bad ==> x in w.plan.dropped.at
      ensures x !in w.plan.dropped.at ==> exists id :: id in w.plan.live.at && Asks(w.plan.live.at[id], x)
    {
      assert Covered(w.plan, w.held, x);
      if x !in w.plan.dropped.at {
        var sub :| InPool(w.plan, w.held, sub) && Asks(sub, x);
        assert sub !in w.held;
        var id :| id in w.plan.live.at && w.plan.live.at[id] == sub;
        assert Asks(w.plan.live.at[id], x) && !Refuses(bad, sub);
      }
    }
  }

  /** A search that has not settled can always go on. */
  lemma NotSettledGoesOn(w: World, bad: set<string>, lost: set<string>) returns (e: Event)
    requires Searching(w, bad, lost) && !Settled(w, bad)
    ensures Allowed(w, e, bad)
    ensures e.Refusal? || (e.Activation? && e.i < |w.held|)
  {
    if sub :| sub in w.held && sub.Group? && sub.key.State? {
      var i :| 0 <= i < |w.held| && w.held[i] == sub;
      e := Activation(i);
    } else {
      var id :| id in w.plan.live.at && Refuses(bad, w.plan.live.at[id]);
      var key := w.plan.live.at[id].Key();
      e := Refusal(id, if key in w.plan.searchOf then w.plan.searches[w.plan.searchOf[key]].lastAt else 0);
    }
  }

  /** ... and each such step leaves less to do, so a search that goes on settles. */
  ghost function Work(w: World): nat
    requires w.plan.Ok()
  {
    4 * Total(Weight, w) + |w.held|
  }

  lemma GoingOnIsProgress(w: World, e: Event, bad: set<string>, lost: set<string>)
    requires Searching(w, bad, lost) && Allowed(w, e, bad)
    requires e.Refusal? || (e.Activation? && e.i < |w.held|)
    ensures Step(w, e).plan.Ok() && Work(Step(w, e)) < Work(w)
  {
    if e.Refusal? {
      RefusalCostsOne(w, e.id, e.now, bad, lost);
      RefusalPool(w, e.id, e.now, bad, lost);
      RefusalBisects(w, e.id, e.now, bad, lost);
    } else {
      MoveKeepsTotal(Weight, w, e, bad);
    }
  }

  // ----- how a search begins -------------------------------------------------------------

  lemma {:induction false} SumActivatedAll(f: Sub -> nat, p: Plan, subs: seq<Sub>)
    requires p.Ok() && forall id | id in p.live.at :: id.n < p.nextId
    ensures ActivateAll(p, subs).live.Ok()
    ensures Sum(f, Values(ActivateAll(p, subs).live)) == Sum(f, Values(p.live)) + Sum(f, subs)
    decreases |subs|
  {
    if subs != [] {
      SumActivated(f, p, subs[0]);
      SumActivatedAll(f, Activate(p, subs[0]).0, subs[1..]);
    }
  }

  lemma {:induction false} SumOfFixed(f: Sub -> nat, kinds: seq<Fixed>, unavailable: map<Fixed, Refused>)
    requires forall k: Fixed :: f(Single(k)) == 0
    ensures Sum(f, Available(kinds, unavailable)) == 0
  {
    if kinds != [] {
      SumOfFixed(f, kinds[1..], unavailable);
      SumAppend(f, if kinds[0] in unavailable then [] else [Single(kinds[0])], Available(kinds[1..], unavailable));
    }
  }

  lemma SumOfInitial(f: Sub -> nat, groups: seq<Sub>, kinds: seq<Fixed>, unavailable: map<Fixed, Refused>)
    requires forall k: Fixed :: f(Single(k)) == 0
    ensures Sum(f, groups + Available(kinds, unavailable)) == Sum(f, groups)
  {
    SumAppend(f, groups, Available(kinds, unavailable));
    SumOfFixed(f, kinds, unavailable);
  }

  /** What `initial` activates, it activates on an empty plan. */
  lemma StartActivates(p: Plan)
    requires p.Ok()
    ensures Forgotten(p).Ok() && Forgotten(p).live == EmptyDict()
    ensures Initial(p).0 == ActivateAll(Forgotten(p), InitialSubs(p))
    ensures InitialSubs(p) == InitialGroups(p) + Available(FIXED, p.unavailable.at)
  {
    InitialGroupsFacts(p);
    GroupDictEffect(InitialGroups(p));
  }

  /** After `initial`, the total is that of its groups. */
  lemma StartTotal(f: Sub -> nat, w: World)
    requires w.plan.Ok() && IdsSound(w.plan, w.dead)
    requires forall k: Fixed :: f(Single(k)) == 0
    ensures Initial(w.plan).0.live.Ok()
    ensures Sum(f, Values(Initial(w.plan).0.live)) == Sum(f, InitialGroups(w.plan))
  {
    var p := w.plan;
    StartActivates(p);
    SumActivatedAll(f, Forgotten(p), InitialSubs(p));
    SumOfInitial(f, InitialGroups(p), FIXED, p.unavailable.at);
  }

  lemma {:induction false} SumOfChunks(names: seq<string>, first: nat)
    ensures Sum(Weight, StateGroups(Chunks(names, MAX_GROUP_SIZE), first)) + |Chunks(names, MAX_GROUP_SIZE)|
      == 2 * |names|
    decreases |names|
  {
    var groups := StateGroups(Chunks(names, MAX_GROUP_SIZE), first);
    if |names| > MAX_GROUP_SIZE {
      SumOfChunks(names[MAX_GROUP_SIZE..], first + 1);
      assert groups[1..] == StateGroups(Chunks(names[MAX_GROUP_SIZE..], MAX_GROUP_SIZE), first + 1);
    } else if names != [] {
      assert groups == [Group(State(first), names)];
      assert Sum(Weight, groups) == Weight(groups[0]) + Sum(Weight, []);
    }
  }

  lemma DistinctParts<T>(s: seq<T>, t: seq<T>)
    requires Distinct(s + t)
    ensures Distinct(s) && Distinct(t)
    ensures forall x | x in s :: x !in t
  {
    forall i, j | 0 <= i < j < |s| ensures s[i] != s[j] { assert (s + t)[i] != (s + t)[j]; }
    forall i, j | 0 <= i < j < |t| ensures t[i] != t[j] { assert (s + t)[|s| + i] != (s + t)[|s| + j]; }
    forall i, j | 0 <= i < |s| && 0 <= j < |t| ensures s[i] != t[j] {
      assert (s + t)[i] == s[i] && (s + t)[|s| + j] == t[j];
    }
  }

  lemma {:induction false} DistinctPart<T>(ss: seq<seq<T>>, i: nat)
    requires i < |ss| && Distinct(Flatten(ss))
    ensures Distinct(ss[i])
  {
    DistinctParts(ss[0], Flatten(ss[1..]));
    if i > 0 {
      DistinctPart(ss[1..], i - 1);
    }
  }

  lemma {:induction false} NotDroppedDistinct(names: seq<string>, dropped: map<string, int>)
    requires Distinct(names)
    ensures Distinct(NotDropped(names, dropped))
  {
    if names != [] {
      assert names == [names[0]] + names[1..];
      DistinctParts([names[0]], names[1..]);
      NotDroppedDistinct(names[1..], dropped);
      NotDroppedEffect(names[1..], dropped);
    }
  }

  lemma InitialDistinct(p: Plan)
    requires Distinct(p.properties)
    ensures forall sub | sub in InitialGroups(p) :: Distinct(sub.names)
  {
    var names := NotDropped(p.properties, p.dropped.at);
    NotDroppedDistinct(p.properties, p.dropped.at);
    ChunksPartition(names, MAX_GROUP_SIZE);
    forall sub | sub in InitialGroups(p)
      ensures Distinct(sub.names)
    {
      var i :| 0 <= i < |InitialGroups(p)| && InitialGroups(p)[i] == sub;
      DistinctPart(Chunks(names, MAX_GROUP_SIZE), i);
    }
  }

  /** `initial` begins a search when each of its groups has at least one good name. */
  lemma SearchBegins(w: World, bad: set<string>)
    requires w.plan.Ok() && IdsSound(w.plan, w.dead) && Distinct(w.plan.properties)
    requires forall f | f in w.plan.unavailable.at :: w.plan.unavailable.at[f].sub == Single(f)
    requires forall sub | sub in InitialGroups(w.plan) :: HasGood(bad, sub.names)
    ensures Searching(Step(w, Start), bad, w.plan.dropped.at.Keys)
  {
    var p := w.plan;
    StartEstablishes(w);
    ActivateAllShape(Forgotten(p), InitialSubs(p));
    InitialDistinct(p);
    InitialGroupsFacts(p);
    LearnDistinct(map[], InitialGroups(p));
    AvailableEffect(FIXED, p.unavailable.at);
    forall s | InPool(Step(w, Start).plan, [], s) && s.Group?
      ensures HasGood(bad, s.names)
    {
      StartPool(p, s);
      assert s in InitialGroups(p);
    }
  }

  /** Every group that a plan for `properties` first subscribes has a good name. */
  ghost predicate GoodInEach(properties: seq<string>, now: int, bad: set<string>) {
    forall sub | sub in InitialGroups(New(properties, [], now)) :: HasGood(bad, sub.names)
  }

  /** A plan that knows no bad names, just after its first `initial`. */
  ghost function Begun(properties: seq<string>, now: int, bad: set<string>): (w: World)
    requires GoodInEach(properties, now, bad)
    ensures Searching(w, bad, {})
    ensures w.plan.properties == New(properties, [], now).properties
  {
    NewKnows(properties, [], now);
    SearchBegins(Fresh0(properties, [], now), bad);
    ActivateAllShape(Forgotten(New(properties, [], now)), InitialSubs(New(properties, [], now)));
    Step(Fresh0(properties, [], now), Start)
  }

  lemma BegunTotal(f: Sub -> nat, properties: seq<string>, now: int, bad: set<string>)
    requires GoodInEach(properties, now, bad)
    requires forall k: Fixed :: f(Single(k)) == 0
    ensures Total(f, Begun(properties, now, bad)) == Sum(f, InitialGroups(New(properties, [], now)))
  {
    NewKnows(properties, [], now);
    StartTotal(f, Fresh0(properties, [], now));
  }

  /** THE WHOLE SEARCH, from a plan that knows no bad names: N names cost at most
      2N - ceil(N / 16) refusals, and where it settles it has found exactly the bad ones. */
  lemma WholeSearch(properties: seq<string>, now: int, events: seq<Event>, bad: set<string>)
    requires GoodInEach(properties, now, bad)
    requires SearchRun(Begun(properties, now, bad), events, bad, {})
    ensures var n := |New(properties, [], now).properties|;
      Refusals(events) <= 2 * n - (n + 15) / 16
    ensures var w := Run(Begun(properties, now, bad), events);
      Settled(w, bad) ==>
        && (forall x | x in New(properties, [], now).properties :: x in w.plan.dropped.at <==> x in bad)
        && (forall x | x in New(properties, [], now).properties && x !in bad ::
              exists id :: id in w.plan.live.at && Asks(w.plan.live.at[id], x))
  {
    var p := New(properties, [], now);
    NewKnows(properties, [], now);
    var start := Begun(properties, now, bad);
    SearchIsBounded(start, events, bad, {});
    BegunTotal(Weight, properties, now, bad);
    var names := NotDropped(p.properties, p.dropped.at);
    NothingDropped(p.properties, p.dropped.at);
    SumOfChunks(names, 0);
    ChunkCount(names);
    SearchProperties(start, events, bad, {});
    var w := Run(start, events);
    if Settled(w, bad) {
      SettledIsRight(w, bad, {});
    }
  }

  lemma NothingDropped(names: seq<string>, dropped: map<string, int>)
    requires dropped == map[]
    ensures NotDropped(names, dropped) == names
  {
  }

  lemma {:induction false} ChunkCount(names: seq<string>)
    ensures |Chunks(names, MAX_GROUP_SIZE)| == (|names| + 15) / 16
    decreases |names|
  {
    if |names| > MAX_GROUP_SIZE {
      ChunkCount(names[MAX_GROUP_SIZE..]);
    }
  }

  /** A search learns no new names. */
  lemma {:induction false} SearchProperties(w: World, events: seq<Event>, bad: set<string>, lost: set<string>)
    requires Searching(w, bad, lost) && SearchRun(w, events, bad, lost)
    ensures Run(w, events).plan.properties == w.plan.properties
    decreases |events|
  {
    if events != [] {
      var e, next := events[0], Step(w, events[0]);
      StepKeeps(w, e);
      StepKeepsSearching(w, e, bad, lost);
      if e.Refusal? {
        var sub := w.plan.live.at[e.id];
        GroupRejectedFrame(w.plan.(live := w.plan.live.Remove(e.id)), sub, e.now);
      }
      SearchProperties(next, events[1..], bad, lost);
    }
  }

  /** The whole catalogue's search: 135 names settle in at most 261 refusals. */
  lemma CatalogueCost(properties: seq<string>, now: int, events: seq<Event>, bad: set<string>)
    requires GoodInEach(properties, now, bad) && |New(properties, [], now).properties| == 135
    requires SearchRun(Begun(properties, now, bad), events, bad, {})
    ensures Refusals(events) <= 261
  {
    WholeSearch(properties, now, events, bad);
  }

  // ----- one bad name --------------------------------------------------------------------

  function CeilLog2(n: nat): nat {
    if n <= 1 then 0 else 1 + CeilLog2((n + 1) / 2)
  }

  function Pow2(k: nat): nat {
    if k == 0 then 1 else 2 * Pow2(k - 1)
  }

  /** It is the least k with n <= 2^k. */
  lemma {:induction false} CeilLog2Meaning(n: nat)
    ensures n <= Pow2(CeilLog2(n))
    ensures n > 1 ==> Pow2(CeilLog2(n) - 1) < n
  {
    if n > 1 {
      CeilLog2Meaning((n + 1) / 2);
      var k := CeilLog2((n + 1) / 2);
      if (n + 1) / 2 > 1 {
        assert Pow2(k) == 2 * Pow2(k - 1);
      }
    }
  }

  lemma {:induction false} CeilLog2Grows(m: nat, n: nat)
    requires m <= n
    ensures CeilLog2(m) <= CeilLog2(n)
  {
    if m > 1 {
      CeilLog2Grows((m + 1) / 2, (n + 1) / 2);
    }
  }

  /** How many more refusals a group can cost when `b` is the one bad name. */
  ghost function LogWeight(b: string): Sub -> nat {
    (sub: Sub) => if Asks(sub, b) then 1 + CeilLog2(|sub.names|) else 0
  }

  lemma HalvesLogCost(p: Plan, made: map<nat, seq<string>>, sub: Sub, b: string)
    requires MadeSound(p, made) && Genuine(made, sub) && Asks(sub, b)
    requires |sub.names| != 1 && Distinct(sub.names)
    ensures Sum(LogWeight(b), Halves(p, sub.names)) + 1 <= LogWeight(b)(sub)
  {
    var f := LogWeight(b);
    HalvesFacts(p, made, sub.names);
    var probes := Halves(p, sub.names);
    assert probes == [probes[0], probes[1]];
    SumPair(f, probes[0], probes[1]);
    DistinctParts(probes[0].names, probes[1].names);
    CeilLog2Grows(|probes[1].names|, |probes[0].names|);
  }

  lemma RefusalCostsALevel(w: World, id: Id, now: int, b: string, lost: set<string>)
    requires Searching(w, {b}, lost) && Allowed(w, Refusal(id, now), {b})
    ensures Step(w, Refusal(id, now)).plan.Ok()
    ensures Total(LogWeight(b), Step(w, Refusal(id, now))) + 1 <= Total(LogWeight(b), w)
  {
    var f := LogWeight(b);
    var sub := w.plan.live.at[id];
    assert f(CANARY_SUB) == 0;
    RefusalTotal(f, w, id, now, {b}, lost);
    RefusalBisects(w, id, now, {b}, lost);
    assert InPool(w.plan, w.held, sub) && Genuine(w.made, sub) && Asks(sub, b);
    if |sub.names| != 1 {
      HalvesLogCost(w.plan, w.made, sub, b);
    }
  }

  lemma {:induction false} OneBadNameBounded(w: World, events: seq<Event>, b: string, lost: set<string>)
    requires Searching(w, {b}, lost) && SearchRun(w, events, {b}, lost)
    ensures Refusals(events) <= Total(LogWeight(b), w)
    decreases |events|
  {
    if events != [] {
      var e, next := events[0], Step(w, events[0]);
      StepKeeps(w, e);
      StepKeepsSearching(w, e, {b}, lost);
      OneBadNameBounded(next, events[1..], b, lost);
      if e.Refusal? {
        RefusalCostsALevel(w, e.id, e.now, b, lost);
      } else {
        MoveKeepsTotal(LogWeight(b), w, e, {b});
      }
    }
  }

  /** Of groups with no name in common, at most one asks for `b`. */
  lemma {:induction false} SumOfOne(b: string, groups: seq<seq<string>>, first: nat, i: nat)
    requires Distinct(Flatten(groups)) && i < |groups| && b in groups[i]
    ensures Sum(LogWeight(b), StateGroups(groups, first)) == 1 + CeilLog2(|groups[i]|)
    decreases |groups|
  {
    var f := LogWeight(b);
    var subs := StateGroups(groups, first);
    assert subs[1..] == StateGroups(groups[1..], first + 1);
    DistinctParts(groups[0], Flatten(groups[1..]));
    if i > 0 {
      FlattenHas(groups[1..], i - 1, b);
      SumOfOne(b, groups[1..], first + 1, i - 1);
    } else {
      SumOfNone(b, groups[1..], first + 1);
    }
  }

  lemma {:induction false} SumOfNone(b: string, groups: seq<seq<string>>, first: nat)
    requires b !in Flatten(groups)
    ensures Sum(LogWeight(b), StateGroups(groups, first)) == 0
    decreases |groups|
  {
    if groups != [] {
      assert StateGroups(groups, first)[1..] == StateGroups(groups[1..], first + 1);
      SumOfNone(b, groups[1..], first + 1);
    }
  }

  lemma InitialCost(p: Plan, b: string, i: nat)
    requires Distinct(p.properties)
    requires i < |InitialGroups(p)| && b in InitialGroups(p)[i].names
    ensures Sum(LogWeight(b), InitialGroups(p)) == 1 + CeilLog2(|InitialGroups(p)[i].names|)
    ensures |InitialGroups(p)[i].names| <= MAX_GROUP_SIZE
  {
    var names := NotDropped(p.properties, p.dropped.at);
    NotDroppedDistinct(p.properties, p.dropped.at);
    ChunksPartition(names, MAX_GROUP_SIZE);
    SumOfOne(b, Chunks(names, MAX_GROUP_SIZE), 0, i);
  }

  lemma AtMostFour(n: nat)
    requires n <= MAX_GROUP_SIZE
    ensures CeilLog2(n) <= 4
  {
    CeilLog2Grows(n, 16);
    assert CeilLog2(2) == 1 && CeilLog2(4) == 2 && CeilLog2(8) == 3 && CeilLog2(16) == 4;
  }

  lemma OneBadNameTotal(properties: seq<string>, now: int, events: seq<Event>, b: string)
    requires GoodInEach(properties, now, {b})
    requires SearchRun(Begun(properties, now, {b}), events, {b}, {})
    ensures Refusals(events) <= Sum(LogWeight(b), InitialGroups(New(properties, [], now)))
  {
    OneBadNameBounded(Begun(properties, now, {b}), events, b, {});
    BegunTotal(LogWeight(b), properties, now, {b});
  }

  /** ONE BAD NAME among n in its group `g` costs at most ceil(log2 n) + 1 refusals, whatever the
      rest of the catalogue: 5 for a group of 16. */
  lemma OneBadName(properties: seq<string>, now: int, events: seq<Event>, b: string, g: Sub)
    requires GoodInEach(properties, now, {b})
    requires SearchRun(Begun(properties, now, {b}), events, {b}, {})
    requires g in InitialGroups(New(properties, [], now)) && Asks(g, b)
    ensures Refusals(events) <= CeilLog2(|g.names|) + 1 <= 5
  {
    OneBadNameTotal(properties, now, events, b);
    var p := New(properties, [], now);
    NewDistinct(properties, now);
    var i :| 0 <= i < |InitialGroups(p)| && InitialGroups(p)[i] == g;
    InitialCost(p, b, i);
    AtMostFour(|g.names|);
  }

  lemma NewDistinct(properties: seq<string>, now: int)
    ensures Distinct(New(properties, [], now).properties)
  {
    NewKnows(properties, [], now);
  }
}
