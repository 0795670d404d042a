/** What holds over whole runs of the plan and its caller: no property is ever lost. */
module SubscriptionRuns {
  import opened Collections
  import opened Catalogue
  import opened SubscriptionModel
  import opened SubscriptionSafety

  lemma StepKeeps(w: World, e: Event)
    requires Inv(w)
    ensures Inv(Step(w, e))
  {
    match e
    case Start => StartEstablishes(w);
    case Refusal(id, now) => RejectionKeeps(w, id, now);
    case End(id) =>
      if id in w.plan.live.at {
        EndKeeps(w, id);
      } else {
        assert w.held + [] == w.held && w.dead + {} == w.dead;
      }
    case Activation(i) =>
      if i < |w.held| {
        var rest := w.held[..i] + w.held[i + 1..];
        assert w.held == w.held[..i] + [w.held[i]] + w.held[i + 1..];
        assert InPool(w.plan, w.held, w.held[i]);
        ActivateKeeps(w, w.held[i], rest);
      }
    case Stray(n) =>
      if n in w.made {
        ActivateKeeps(w, Group(State(n), w.made[n]), w.held);
      }
    case Renew => RenewKeeps(w);
    case Discovery(names) => DiscoveryKeeps(w, names);
    case Reprobe(now) => ReprobeKeeps(w, now);
    case Accepted => SwapKeeps(w, DocumentAccepted(w.plan), w.held, w.made);
  }

  /** Any events at all, after the first `initial`. */
  ghost function Run(w: World, events: seq<Event>): World
    requires Inv(w)
    ensures Inv(Run(w, events))
    decreases |events|
  {
    if events == [] then w
    else
      StepKeeps(w, events[0]);
      Run(Step(w, events[0]), events[1..])
  }

  /** A plan just built, before its first `initial`. */
  function Fresh0(properties: seq<string>, dropped: seq<string>, now: int): World {
    World(New(properties, dropped, now), [], map[], {})
  }

  lemma {:induction false} SavedOk(saved: seq<string>, now: int, i: nat)
    requires i <= |saved|
    ensures Saved(saved, now, i).0.Ok()
    ensures forall x | x in Saved(saved, now, i).0.at :: x in saved[..i]
    ensures forall x | x in saved[..i] :: x in Saved(saved, now, i).0.at
  {
    if i > 0 {
      SavedOk(saved, now, i - 1);
      var d := Saved(saved, now, i - 1).0;
      var dueAt := FirstDueAt(now, i - 1, |saved|);
      assert Saved(saved, now, i).0 == d.Put(saved[i - 1], dueAt);
      PutOk(d, saved[i - 1], dueAt);
      hide Saved, FirstDueAt, Dict.Ok;
      assert saved[..i] == saved[..i - 1] + [saved[i - 1]];
    }
  }

  lemma {:induction false} UniqueEffect(names: seq<string>, seen: set<string>)
    ensures forall x | x in Unique(names, seen) :: x in names && x !in seen
    ensures forall x | x in names && x !in seen :: x in Unique(names, seen)
    ensures Distinct(Unique(names, seen))
  {
    if names != [] {
      UniqueEffect(names[1..], if names[0] in seen then seen else seen + {names[0]});
    }
  }

  lemma QueryableEffect(names: seq<string>)
    ensures forall x | x in Queryable(names) :: x in names && IsQueryable(x)
    ensures forall x | x in names && IsQueryable(x) :: x in Queryable(names)
  {
  }

  /** The plan knows exactly the queryable names it was given, each once, and leaves out of
      `initial` exactly the queryable names it was told are rejected. */
  lemma NewKnows(properties: seq<string>, dropped: seq<string>, now: int)
    ensures var p := New(properties, dropped, now);
      && p.Ok() && Distinct(p.properties)
      && (forall x | x in p.properties :: IsQueryable(x) && (x in properties || x in dropped))
      && (forall x | (x in properties || x in dropped) && IsQueryable(x) :: x in p.properties)
      && (forall x | x in p.dropped.at :: IsQueryable(x) && x in dropped)
      && (forall x | x in dropped && IsQueryable(x) :: x in p.dropped.at)
  {
    var saved := Queryable(Unique(dropped, {}));
    UniqueEffect(dropped, {});
    QueryableEffect(Unique(dropped, {}));
    SavedOk(saved, now, |saved|);
    assert saved[..|saved|] == saved;
    var d := Saved(saved, now, |saved|).0;
    QueryableEffect(properties + d.keys);
    UniqueEffect(Queryable(properties + d.keys), {});
  }

  /** The plan and its caller after `initial` and any events. */
  ghost function After(properties: seq<string>, dropped: seq<string>, now: int, events: seq<Event>): World {
    NewKnows(properties, dropped, now);
    StartEstablishes(Fresh0(properties, dropped, now));
    Run(Step(Fresh0(properties, dropped, now), Start), events)
  }

  /** NO PROPERTY IS EVER LOST. Whatever happens after `initial`, in whatever order and at
      whatever times, every known name is in `dropped` or in a live or held state group of 1 to
      16 names, and every fixed subscription is live, held or unavailable. */
  lemma NoPropertyIsLost(properties: seq<string>, dropped: seq<string>, now: int, events: seq<Event>)
    ensures var w := After(properties, dropped, now, events);
      && (forall x | (x in properties || x in dropped) && IsQueryable(x) :: x in w.plan.properties)
      && (forall x | x in w.plan.properties ::
            x in w.plan.dropped.at
            || exists sub :: InPool(w.plan, w.held, sub) && Asks(sub, x) && 1 <= |sub.names| <= MAX_GROUP_SIZE)
      && (forall f: Fixed :: InPool(w.plan, w.held, Single(f)) || f in w.plan.unavailable.at)
  {
    var w0 := Fresh0(properties, dropped, now);
    NewKnows(properties, dropped, now);
    StartEstablishes(w0);
    ActivateAllShape(Forgotten(w0.plan), InitialSubs(w0.plan));
    RunKnows(Step(w0, Start), events);
    var w := After(properties, dropped, now, events);
    forall x | x in w.plan.properties && x !in w.plan.dropped.at
      ensures exists sub :: InPool(w.plan, w.held, sub) && Asks(sub, x) && 1 <= |sub.names| <= MAX_GROUP_SIZE
    {
      assert Covered(w.plan, w.held, x);
      var sub :| InPool(w.plan, w.held, sub) && Asks(sub, x);
      assert Genuine(w.made, sub);
    }
  }

  lemma StepKnows(w: World, e: Event)
    requires Inv(w)
    ensures forall x | x in w.plan.properties :: x in Step(w, e).plan.properties
  {
    match e
    case Start => ActivateAllShape(Forgotten(w.plan), InitialSubs(w.plan));
    case Refusal(id, now) =>
      if id in w.plan.live.at {
        var q := w.plan.(live := w.plan.live.Remove(id));
        if w.plan.live.at[id].Group? {
          GroupRejectedFrame(q, w.plan.live.at[id], now);
        }
      }
    case _ =>
  }

  /** A known name stays known. */
  lemma {:induction false} RunKnows(w: World, events: seq<Event>)
    requires Inv(w)
    ensures forall x | x in w.plan.properties :: x in Run(w, events).plan.properties
    decreases |events|
  {
    if events != [] {
      StepKeeps(w, events[0]);
      StepKnows(w, events[0]);
      RunKnows(Step(w, events[0]), events[1..]);
    }
  }

  lemma StepIds(w: World, e: Event, id: Id)
    requires Inv(w) && (id in w.plan.live.at || id in w.dead)
    ensures id in Step(w, e).plan.live.at || id in Step(w, e).dead
    ensures id in w.dead ==> id in Step(w, e).dead
  {
    match e
    case Start =>
    case Activation(i) =>
    case Stray(n) =>
    case _ =>
  }

  lemma {:induction false} RunIds(w: World, events: seq<Event>, id: Id)
    requires Inv(w) && (id in w.plan.live.at || id in w.dead)
    ensures id in Run(w, events).plan.live.at || id in Run(w, events).dead
    ensures id in w.dead ==> id in Run(w, events).dead
    decreases |events|
  {
    if events != [] {
      StepKeeps(w, events[0]);
      StepIds(w, events[0], id);
      RunIds(Step(w, events[0]), events[1..], id);
    }
  }

  /** An id that was live and no longer is never becomes live again, whatever follows. */
  lemma NoIdComesBack(w: World, first: seq<Event>, later: seq<Event>, id: Id)
    requires Inv(w) && id in w.plan.live.at
    requires id !in Run(w, first).plan.live.at
    ensures id !in Run(Run(w, first), later).plan.live.at
  {
    RunIds(w, first, id);
    RunIds(Run(w, first), later, id);
  }
}
