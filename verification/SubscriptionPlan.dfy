/** apps/rivian/src/subscriptions.ts: the class, with the source's own fields and loops, each
    method proved to leave and answer exactly what `SubscriptionModel` says. */
module SubscriptionPlans {
  import opened Collections
  import opened Catalogue
  import opened SubscriptionModel
  import Spec = SubscriptionModel
  import Runs = SubscriptionRuns
  import Safety = SubscriptionSafety

  /** One more name told apart. */
  lemma UniqueStep(known: seq<string>, names: seq<string>, i: nat, seen: set<string>)
    requires i < |names|
    ensures var isNew := IsQueryable(names[i]) && names[i] !in seen;
      known + Unique(Queryable(names[i..]), seen) ==
        if isNew then known + [names[i]] + Unique(Queryable(names[i + 1..]), seen + {names[i]})
        else known + Unique(Queryable(names[i + 1..]), seen)
  {
    var rest, later := names[i..], Queryable(names[i + 1..]);
    assert rest[1..] == names[i + 1..];
    if IsQueryable(names[i]) {
      assert Queryable(rest) == [names[i]] + later && ([names[i]] + later)[1..] == later;
      if names[i] !in seen {
        var more := Unique(later, seen + {names[i]});
        assert known + ([names[i]] + more) == known + [names[i]] + more;
      }
    } else {
      assert [] + later == later;
    }
  }

  lemma HandedStep(nextId: nat, subs: seq<Sub>, i: nat)
    requires i < |subs|
    ensures Handed(nextId, subs)[..i + 1] == Handed(nextId, subs)[..i] + [(Id(subs[i].Key(), nextId + i), subs[i])]
  {
  }

  lemma NoneLeft(p: Plan, subs: seq<Sub>)
    ensures ActivateAll(p, subs[|subs|..]) == p
  {
  }

  /** One more subscription activated. */
  lemma ActivateAllStep(p: Plan, subs: seq<Sub>, i: nat)
    requires i < |subs|
    ensures ActivateAll(p, subs[i..]) == ActivateAll(Spec.Activate(p, subs[i]).0, subs[i + 1..])
  {
    assert subs[i..][1..] == subs[i + 1..] && subs[i..][0] == subs[i];
  }

  /** One more subscription renewed. */
  lemma RenewedStep(live: Dict<Id, Sub>, nextId: nat, i: nat)
    requires (forall k | k in live.keys :: k in live.at) && i < |live.keys|
    ensures var (next, renewed) := Renewed(live, nextId, i); var sub := live.at[live.keys[i]];
      var id := Id(sub.Key(), nextId + i);
      Renewed(live, nextId, i + 1) == (next.Put(id, sub), renewed + [Renewal(live.keys[i], id, sub)])
  {
  }

  /** One more name looked at. */
  lemma NotDroppedStep(names: seq<string>, properties: seq<string>, i: nat, dropped: map<string, int>)
    requires i < |properties|
    ensures names + NotDropped(properties[i..], dropped)
      == (if properties[i] in dropped then names else names + [properties[i]]) + NotDropped(properties[i + 1..], dropped)
  {
    var rest := properties[i..];
    assert rest[1..] == properties[i + 1..];
    if properties[i] in dropped {
      assert [] + NotDropped(rest[1..], dropped) == NotDropped(rest[1..], dropped);
    } else {
      assert names + ([rest[0]] + NotDropped(rest[1..], dropped)) == names + [rest[0]] + NotDropped(rest[1..], dropped);
    }
  }

  class SubscriptionPlan {
    var properties: seq<string>
    var dropped: Dict<string, int>
    var unavailable: Dict<Fixed, Refused>
    var lastDueAt: Option<int>
    var wave: Option<Wave>
    var pendingCanary: Option<Pending>
    var searchOf: map<Key, nat>
    var searches: seq<Lineage>
    var faulted: set<Key>
    var exhausted: set<Key>
    var live: Dict<Id, Sub>
    var nextId: nat
    var nextGroup: nat

    ghost function View(): Plan
      reads this
    {
      Plan(properties, dropped, unavailable, lastDueAt, wave, pendingCanary, searchOf, searches,
           faulted, exhausted, live, nextId, nextGroup)
    }

    ghost predicate Valid()
      reads this
    {
      View().Ok()
    }

    constructor (properties: seq<string>, dropped: seq<string>, now: int)
      ensures Valid()
      ensures View() == New(properties, dropped, now)
    {
      var saved := SavedNames(dropped);
      var due, last := FirstDue(saved, now);
      // Saved names count as known, whether or not `properties` has them.
      var known := KnownNames(properties + due.keys);
      this.properties := known;
      this.dropped := due;
      this.lastDueAt := last;
      this.unavailable := EmptyDict();
      this.wave := None;
      this.pendingCanary := None;
      this.searchOf := map[];
      this.searches := [];
      this.faulted := {};
      this.exhausted := {};
      this.live := EmptyDict();
      this.nextId := 0;
      this.nextGroup := 0;
      new;
      Runs.NewKnows(properties, dropped, now);
    }

    static method FirstDue(saved: seq<string>, now: int) returns (due: Dict<string, int>, last: Option<int>)
      ensures (due, last) == Saved(saved, now, |saved|)
    {
      due := EmptyDict();
      last := None;
      for i := 0 to |saved|
        invariant (due, last) == Saved(saved, now, i)
      {
        var dueAt := FirstDueAt(now, i, |saved|);
        due := due.Put(saved[i], dueAt);
        last := Some(Later(last, dueAt));
      }
    }

    static method KnownNames(names: seq<string>) returns (known: seq<string>)
      ensures known == Unique(Queryable(names), {})
    {
      var seen: set<string> := {};
      known := [];
      for i := 0 to |names|
        invariant known + Unique(Queryable(names[i..]), seen) == Unique(Queryable(names), {})
      {
        UniqueStep(known, names, i, seen);
        if IsQueryable(names[i]) {
          if names[i] !in seen {
            seen := seen + {names[i]};
            known := known + [names[i]];
          }
        }
      }
    }

    static method SavedNames(dropped: seq<string>) returns (saved: seq<string>)
      ensures saved == Queryable(Unique(dropped, {}))
    {
      var seen: set<string> := {};
      var once: seq<string> := [];
      for i := 0 to |dropped|
        invariant once + Unique(dropped[i..], seen) == Unique(dropped, {})
      {
        assert dropped[i..][1..] == dropped[i + 1..];
        if dropped[i] !in seen {
          seen := seen + {dropped[i]};
          once := once + [dropped[i]];
        }
      }
      saved := [];
      for i := 0 to |once|
        invariant saved + Queryable(once[i..]) == Queryable(once)
      {
        assert once[i..][1..] == once[i + 1..];
        if IsQueryable(once[i]) {
          saved := saved + [once[i]];
        }
      }
      assert once == Unique(dropped, {});
    }

    /** A new start: all groups and fixed subscriptions, live under new ids. */
    method Initial() returns (subs: seq<(Id, Sub)>)
      requires Valid()
      modifies this
      ensures (View(), subs) == Spec.Initial(old(View()))
      ensures Valid()
    {
      Safety.InitialOk(View());
      var groups := StartOver();
      var fixed := FixedSubscriptions(FIXED);
      subs := SubscribeAll(groups + fixed);
    }

    /** Forget every key, and number the groups and their wave from 0. */
    method StartOver() returns (groups: seq<Sub>)
      modifies this
      ensures groups == InitialGroups(old(View()))
      ensures View() == Forgotten(old(View()))
    {
      ghost var was := View();
      ForgetKeys();
      var names := LiveNames();
      groups := StateGroupsFor(names);
      // One group alone is no wave.
      wave := if |groups| >= 2 then Some(Wave(GroupDict(groups), None, EmptyDict())) else None;
      ForgottenIs(was, View(), groups);
    }

    /** Old keys mean nothing any more: searches and verdicts are cleared. */
    method ForgetKeys()
      modifies this
      ensures View() == old(View()).(live := EmptyDict(), nextGroup := 0, searchOf := map[], faulted := {},
                                     exhausted := {}, pendingCanary := None)
    {
      live := EmptyDict();
      nextGroup := 0;
      searchOf := map[];
      faulted := {};
      exhausted := {};
      pendingCanary := None;
    }

    static lemma ForgottenIs(p: Plan, q: Plan, groups: seq<Sub>)
      requires groups == StateGroups(Chunks(NotDropped(p.properties, p.dropped.at), MAX_GROUP_SIZE), 0)
      requires q.wave == if |groups| >= 2 then Some(Wave(GroupDict(groups), None, EmptyDict())) else None
      requires q == p.(live := EmptyDict(), nextGroup := |groups|, searchOf := map[], faulted := {},
                       exhausted := {}, pendingCanary := None, wave := q.wave)
      ensures q == Forgotten(p)
    {
    }

    method LiveNames() returns (names: seq<string>)
      ensures names == NotDropped(properties, dropped.at)
    {
      names := [];
      for i := 0 to |properties|
        invariant names + NotDropped(properties[i..], dropped.at) == NotDropped(properties, dropped.at)
      {
        NotDroppedStep(names, properties, i, dropped.at);
        if properties[i] !in dropped.at {
          names := names + [properties[i]];
        }
      }
    }

    method FixedSubscriptions(kinds: seq<Fixed>) returns (subs: seq<Sub>)
      ensures subs == Available(kinds, unavailable.at)
    {
      subs := [];
      for i := 0 to |kinds|
        invariant subs + Available(kinds[i..], unavailable.at) == Available(kinds, unavailable.at)
      {
        assert kinds[i..][1..] == kinds[i + 1..];
        if kinds[i] !in unavailable.at {
          subs := subs + [Single(kinds[i])];
        }
      }
    }

    method SubscribeAll(subs: seq<Sub>) returns (handed: seq<(Id, Sub)>)
      modifies this`live, this`nextId
      ensures View() == ActivateAll(old(View()), subs)
      ensures handed == Handed(old(nextId), subs)
    {
      handed := [];
      ghost var start := View();
      ghost var p := start;
      ghost var all := Handed(start.nextId, subs);
      assert subs[0..] == subs && |all| == |subs|;
      hide ActivateAll, Handed;
      for i := 0 to |subs|
        invariant View() == p && p.nextId == start.nextId + i
        invariant ActivateAll(p, subs[i..]) == ActivateAll(start, subs)
        invariant handed == all[..i]
      {
        ActivateAllStep(p, subs, i);
        HandedStep(start.nextId, subs, i);
        p := Spec.Activate(p, subs[i]).0;
        var id := Activate(subs[i]);
        handed := handed + [(id, subs[i])];
      }
      NoneLeft(p, subs);
    }

    /** `groupProperties(names, MAX_GROUP_SIZE).map(#stateGroup)`. */
    method StateGroupsFor(names: seq<string>) returns (groups: seq<Sub>)
      modifies this`nextGroup
      ensures groups == StateGroups(Chunks(names, MAX_GROUP_SIZE), old(nextGroup))
      ensures nextGroup == old(nextGroup) + |groups|
    {
      var cut := GroupProperties(names, MAX_GROUP_SIZE);
      groups := [];
      for i := 0 to |cut.value|
        invariant groups == StateGroups(cut.value, old(nextGroup))[..i]
        invariant nextGroup == old(nextGroup) + i
      {
        var group := StateGroup(cut.value[i]);
        groups := groups + [group];
      }
    }

    /** `#stateGroup`. */
    method StateGroup(names: seq<string>) returns (sub: Sub)
      modifies this`nextGroup
      ensures sub == Group(State(old(nextGroup)), names)
      ensures nextGroup == old(nextGroup) + 1
    {
      sub := Group(State(nextGroup), names);
      nextGroup := nextGroup + 1;
    }

    method Activate(sub: Sub) returns (id: Id)
      modifies this`live, this`nextId
      ensures (View(), id) == Spec.Activate(old(View()), sub)
    {
      id := Id(sub.Key(), nextId);
      nextId := nextId + 1;
      live := live.Put(id, sub);
    }

    method RenewAll() returns (renewed: seq<Renewal>)
      requires Valid()
      modifies this`live, this`nextId
      ensures (View(), renewed) == Spec.RenewAll(old(View()))
      ensures Valid()
    {
      renewed := RenewEach();
      Safety.RenewedOk(old(live), old(nextId));
    }

    /** Every live subscription, in order, moved to a new id. */
    method RenewEach() returns (renewed: seq<Renewal>)
      requires live.Ok()
      modifies this`live, this`nextId
      ensures live == Renewed(old(live), old(nextId), |old(live).keys|).0
      ensures renewed == Renewed(old(live), old(nextId), |old(live).keys|).1
      ensures nextId == old(nextId) + |old(live).keys|
    {
      renewed := [];
      var was, first := live, nextId;
      var next: Dict<Id, Sub> := EmptyDict();
      for i := 0 to |was.keys|
        invariant nextId == first + i
        invariant next == Renewed(was, first, i).0
        invariant renewed == Renewed(was, first, i).1
        modifies this`nextId
      {
        var oldId := was.keys[i];
        var sub := was.at[oldId];
        var id := Id(sub.Key(), nextId);
        nextId := nextId + 1;
        next := next.Put(id, sub);
        renewed := renewed + [Renewal(oldId, id, sub)];
        RenewedStep(was, first, i);
      }
      live := next;
    }

    method Ended(id: Id) returns (sub: Option<Sub>)
      requires Valid()
      modifies this`live
      ensures (View(), sub) == Spec.Ended(old(View()), id)
      ensures Valid()
    {
      if id !in live.at {
        return None;
      }
      RemoveOk(live, id);
      sub := Some(live.at[id]);
      live := live.Remove(id);
    }

    method AddProperties(names: seq<string>) returns (groups: seq<Sub>)
      modifies this`properties, this`nextGroup
      ensures (View(), groups) == Spec.AddProperties(old(View()), names)
      ensures old(Valid()) ==> Valid()
    {
      var known := Elements(properties);
      var found: seq<string> := [];
      for i := 0 to |names|
        invariant found + Fresh(names[i..], known) == Fresh(names, Elements(properties))
        invariant properties == old(properties) && nextGroup == old(nextGroup)
      {
        assert names[i..][1..] == names[i + 1..];
        if names[i] !in known && IsQueryable(names[i]) {
          known := known + {names[i]};
          found := found + [names[i]];
        }
      }
      assert found == Fresh(names, Elements(old(properties)));
      properties := properties + found;
      groups := StateGroupsFor(found);
      assert View().properties == old(View()).properties + found;
    }

    method DueForReprobe(now: int) returns (due: seq<Sub>)
      requires Valid()
      modifies this`dropped, this`unavailable, this`nextGroup
      ensures (View(), due) == Spec.DueForReprobe(old(View()), now)
      ensures Valid()
    {
      RemoveAllEffect(dropped, DueNames(dropped.keys, dropped.at, now));
      RemoveAllEffect(unavailable, DueKinds(unavailable.keys, unavailable.at, now));
      var groups := ReprobeDropped(now);
      var fixed := ReprobeUnavailable(now);
      due := groups + fixed;
    }

    /** One group for each dropped name whose time has come; the name is dropped no more. */
    method ReprobeDropped(now: int) returns (groups: seq<Sub>)
      requires dropped.Ok()
      modifies this`dropped, this`nextGroup
      ensures var names := DueNames(old(dropped).keys, old(dropped).at, now);
        && groups == StateGroups(Alone(names), old(nextGroup))
        && dropped == RemoveAll(old(dropped), names)
        && nextGroup == old(nextGroup) + |names|
    {
      var entries := dropped;
      ghost var names: seq<string> := [];
      ghost var first := nextGroup;
      groups := [];
      assert DueNames(entries.keys[..0], entries.at, now) == names && RemoveAll(entries, names) == entries;
      assert StateGroups(Alone(names), first) == [];
      hide DueNames, RemoveAll, StateGroups, Alone;
      for i := 0 to |entries.keys|
        invariant names == DueNames(entries.keys[..i], entries.at, now)
        invariant dropped == RemoveAll(entries, names)
        invariant groups == StateGroups(Alone(names), first) && nextGroup == first + |names|
      {
        var name := entries.keys[i];
        DueNamesAppend(entries.keys[..i], name, entries.at, now);
        assert entries.keys[..i + 1] == entries.keys[..i] + [name];
        if now >= entries.at[name] {
          groups := ReprobeOne(name, groups, entries, names, first);
          names := names + [name];
        }
      }
      assert entries.keys[..|entries.keys|] == entries.keys;
    }

    /** `name` alone, after `names`. */
    method ReprobeOne(name: string, groups: seq<Sub>, ghost entries: Dict<string, int>, ghost names: seq<string>,
                      ghost first: nat)
      returns (more: seq<Sub>)
      requires dropped == RemoveAll(entries, names)
      requires groups == StateGroups(Alone(names), first) && nextGroup == first + |names|
      modifies this`dropped, this`nextGroup
      ensures dropped == RemoveAll(entries, names + [name])
      ensures more == StateGroups(Alone(names + [name]), first) && nextGroup == first + |names| + 1
    {
      RemoveAllAppend(entries, names, name);
      AloneAppend(names, name, first);
      dropped := dropped.Remove(name);
      var group := StateGroup([name]);
      more := groups + [group];
    }

    /** Each unavailable subscription that is due, as it was. */
    method ReprobeUnavailable(now: int) returns (subs: seq<Sub>)
      requires unavailable.Ok()
      modifies this`unavailable
      ensures var kinds := DueKinds(old(unavailable).keys, old(unavailable).at, now);
        && subs == SubsOf(old(unavailable), kinds)
        && unavailable == RemoveAll(old(unavailable), kinds)
    {
      var entries := unavailable;
      ghost var kinds: seq<Fixed> := [];
      subs := [];
      assert DueKinds(entries.keys[..0], entries.at, now) == kinds && RemoveAll(entries, kinds) == entries;
      assert SubsOf(entries, kinds) == [];
      hide DueKinds, RemoveAll, SubsOf;
      for i := 0 to |entries.keys|
        invariant kinds == DueKinds(entries.keys[..i], entries.at, now)
        invariant unavailable == RemoveAll(entries, kinds)
        invariant subs == SubsOf(entries, kinds)
      {
        var kind := entries.keys[i];
        DueKindsAppend(entries.keys[..i], kind, entries.at, now);
        assert entries.keys[..i + 1] == entries.keys[..i] + [kind];
        if now >= entries.at[kind].dueAt {
          RemoveAllAppend(entries, kinds, kind);
          SubsOfAppend(entries, kinds, kind);
          unavailable := unavailable.Remove(kind);
          subs := subs + [entries.at[kind].sub];
          kinds := kinds + [kind];
        }
      }
      assert entries.keys[..|entries.keys|] == entries.keys;
    }

    /** The server refused what is live under `id`. */
    method Rejected(id: Id, now: int) returns (r: Rejection)
      requires Valid()
      modifies this
      ensures (View(), r) == Spec.Rejected(old(View()), id, now)
      ensures Valid()
    {
      Safety.RejectedOk(View(), id, now);
      if id !in live.at {
        return NOTHING;
      }
      var sub := live.at[id];
      live := live.Remove(id);
      if sub.Single? {
        unavailable := unavailable.Put(sub.kind, Refused(sub, now + REPROBE_INTERVAL_MS));
        return NOTHING.(unavailable := Some(sub.kind));
      }
      if sub.key == Canary {
        r := CanaryRejected(sub, now);
      } else if sub.key in faulted {
        r := RetryOnly(Documents, sub);
      } else if sub.key in exhausted {
        r := RetryOnly(WholeGroup, sub);
      } else {
        r := GroupRejected(sub, now);
      }
    }

    method GroupRejected(sub: Sub, now: int) returns (r: Rejection)
      requires View().Wired() && dropped.Ok() && sub.Group?
      modifies this
      ensures (View(), r) == Spec.GroupRejected(old(View()), sub, now)
    {
      var joined := WaveFor(sub.key, now);
      r := Search(sub, now);
      if joined.Some? && r.fault.None? {
        var noted := joined.value.(rejected :=
          joined.value.rejected.Put(sub.key, Given(KeysOf(r.probes), r.newlyDropped)));
        if |noted.rejected.keys| < |noted.groups.keys| {
          wave := Some(noted);
        } else {
          // The wave is complete, and the canary will decide what it was.
          wave := None;
          pendingCanary := Some(Pending(noted, now));
          r := r.(canary := Some(CANARY_SUB));
        }
      }
    }

    method DocumentAccepted()
      modifies this`wave, this`pendingCanary, this`faulted
      ensures View() == Spec.DocumentAccepted(old(View()))
      ensures old(Valid()) ==> Valid()
    {
      wave := None;
      pendingCanary := None;
      faulted := {};
    }

    method CanaryRejected(canary: Sub, now: int) returns (r: Rejection)
      requires View().Wired() && dropped.Ok()
      modifies this
      ensures (View(), r) == Spec.CanaryRejected(old(View()), canary, now)
    {
      if canary.Key() in faulted {
        return RetryOnly(Documents, canary);
      }
      var pending := pendingCanary;
      pendingCanary := None;
      if pending.None? || now - pending.value.at > CANARY_WINDOW_MS {
        return RetryOnly(CanaryAlone, canary);
      }
      r := DocumentFault(pending.value.wave, canary);
    }

    method WaveFor(key: Key, now: int) returns (joined: Option<Wave>)
      modifies this`wave
      ensures (View(), joined) == Spec.WaveFor(old(View()), key, now)
    {
      if wave.None? || key !in wave.value.groups.at {
        return None;
      }
      if wave.value.firstAt.None? {
        wave := Some(wave.value.(firstAt := Some(now)));
      } else if now - wave.value.firstAt.value > WAVE_WINDOW_MS {
        wave := None;
      }
      return wave;
    }

    method DocumentFault(faultyWave: Wave, canary: Sub) returns (r: Rejection)
      requires faultyWave.Ok()
      modifies this`searchOf, this`dropped, this`faulted
      ensures (View(), r) == Spec.DocumentFault(old(View()), faultyWave, canary)
    {
      var withdrawn, restored := GivenBy(Values(faultyWave.rejected));
      DeleteLineages(withdrawn);
      TakeBack(restored);
      FaultAll(faultyWave.groups.keys + [canary.Key()] + withdrawn);
      FaultedUnion(old(faulted), faultyWave.groups.keys, canary.Key(), withdrawn);
      r := NOTHING.(fault := Some(Fault(Documents, Values(faultyWave.groups) + [canary], withdrawn, restored)));
    }

    static lemma FaultedUnion(was: set<Key>, groups: seq<Key>, canary: Key, withdrawn: seq<Key>)
      ensures was + Elements(groups + [canary] + withdrawn)
        == was + Elements(groups) + {canary} + Elements(withdrawn)
    {
    }

    static lemma GivenAt(given: seq<Given>, i: nat)
      requires i < |given|
      ensures ProbesOf(given[i..]) == given[i].probes + ProbesOf(given[i + 1..])
      ensures DroppedOf(given[i..]) == given[i].dropped + DroppedOf(given[i + 1..])
    {
      assert given[i..][1..] == given[i + 1..];
    }

    /** What the rejections of a wave handed out and dropped. */
    static method GivenBy(given: seq<Given>) returns (withdrawn: seq<Key>, restored: seq<string>)
      ensures withdrawn == ProbesOf(given) && restored == DroppedOf(given)
    {
      withdrawn := [];
      restored := [];
      for i := 0 to |given|
        invariant withdrawn + ProbesOf(given[i..]) == ProbesOf(given)
        invariant restored + DroppedOf(given[i..]) == DroppedOf(given)
      {
        GivenAt(given, i);
        withdrawn := withdrawn + given[i].probes;
        restored := restored + given[i].dropped;
      }
    }

    method DeleteLineages(keys: seq<Key>)
      modifies this`searchOf
      ensures searchOf == old(searchOf) - Elements(keys)
    {
      for i := 0 to |keys|
        invariant searchOf == old(searchOf) - Elements(keys[..i])
      {
        searchOf := searchOf - {keys[i]};
        assert Elements(keys[..i + 1]) == Elements(keys[..i]) + {keys[i]};
      }
      assert keys[..|keys|] == keys;
    }

    method TakeBack(names: seq<string>)
      modifies this`dropped
      ensures dropped == RemoveAll(old(dropped), names)
    {
      for i := 0 to |names|
        invariant dropped == RemoveAll(old(dropped), names[..i])
      {
        RemoveAllAppend(old(dropped), names[..i], names[i]);
        assert names[..i + 1] == names[..i] + [names[i]];
        dropped := dropped.Remove(names[i]);
      }
      assert names[..|names|] == names;
    }

    method FaultAll(keys: seq<Key>)
      modifies this`faulted
      ensures faulted == old(faulted) + Elements(keys)
    {
      for i := 0 to |keys|
        invariant faulted == old(faulted) + Elements(keys[..i])
      {
        faulted := faulted + {keys[i]};
        assert Elements(keys[..i + 1]) == Elements(keys[..i]) + {keys[i]};
      }
      assert keys[..|keys|] == keys;
    }

    /** Halve what was refused, or drop it if it is one name; unless that name was the last of
        its search, which is then called off. */
    method Search(sub: Sub, now: int) returns (r: Rejection)
      requires View().Wired() && sub.Group?
      modifies this
      ensures (View(), r) == Spec.Search(old(View()), sub, now)
    {
      var lineage := LineageOf(sub.key, now);
      if |sub.names| == 1 {
        if lineage.Some? {
          r := DropInSearch(lineage.value, sub.names[0], now);
        } else {
          r := Drop(sub.names[0], now);
        }
      } else {
        r := Split(sub, lineage, now);
      }
    }

    method LineageOf(key: Key, now: int) returns (lineage: Option<nat>)
      requires View().Wired()
      modifies this`searchOf
      ensures (View(), lineage) == Spec.LineageOf(old(View()), key, now)
    {
      if key !in searchOf {
        return None;
      }
      if now - searches[searchOf[key]].lastAt > LINEAGE_WINDOW_MS {
        searchOf := searchOf - {key};
        return None;
      }
      return Some(searchOf[key]);
    }

    method Drop(name: string, now: int) returns (r: Rejection)
      modifies this`dropped, this`lastDueAt
      ensures (View(), r) == Spec.Drop(old(View()), name, now)
    {
      var day := now + REPROBE_INTERVAL_MS;
      var at := if lastDueAt.Some? && lastDueAt.value + REPROBE_SPACING_MS > day
        then lastDueAt.value + REPROBE_SPACING_MS else day;
      lastDueAt := Some(at);
      dropped := dropped.Put(name, at);
      r := NOTHING.(newlyDropped := [name]);
    }

    method DropInSearch(h: nat, name: string, now: int) returns (r: Rejection)
      requires h < |searches|
      modifies this
      ensures (View(), r) == Spec.DropInSearch(old(View()), h, name, now)
    {
      var search := searches[h].(rejected := AddName(searches[h].rejected, name), lastAt := now);
      searches := searches[h := search];
      if search.group.Group? && |search.rejected| == |search.group.names| {
        // No name of the group is left that could be good.
        var restored := Without(search.rejected, name);
        TakeBack(restored);
        searchOf := map k | k in searchOf && searchOf[k] != h :: searchOf[k];
        exhausted := exhausted + {search.group.key};
        return NOTHING.(fault := Some(Fault(WholeGroup, [search.group], [], restored)));
      }
      r := Drop(name, now);
    }

    method Split(sub: Sub, lineage: Option<nat>, now: int) returns (r: Rejection)
      requires sub.Group? && |sub.names| != 1
      requires lineage.Some? ==> lineage.value < |searches|
      modifies this`searches, this`searchOf, this`nextGroup
      ensures (View(), r) == Spec.Split(old(View()), sub, lineage, now)
    {
      var middle := (|sub.names| + 1) / 2;
      var left := StateGroup(sub.names[..middle]);
      var right := StateGroup(sub.names[middle..]);
      var probes := [left, right];
      assert probes == Halves(old(View()), sub.names);
      var h := |searches|;
      if lineage.Some? {
        h := lineage.value;
        searches := searches[h := searches[h].(lastAt := now)];
      } else {
        searches := searches + [Lineage(sub, [], now)];
      }
      searchOf := searchOf[left.key := h][right.key := h];
      r := NOTHING.(probes := probes);
    }
  }

  lemma AloneAppend(names: seq<string>, name: string, first: nat)
    ensures StateGroups(Alone(names + [name]), first)
      == StateGroups(Alone(names), first) + [Group(State(first + |names|), [name])]
  {
  }

  /** What one more does to a list built from the front, whatever the first adds. */
  lemma GroupedRight<T>(first: seq<T>, middle: seq<T>, last: seq<T>)
    ensures first + (middle + last) == first + middle + last
  {
  }

  lemma {:induction false} DueNamesAppend(names: seq<string>, name: string, at: map<string, int>, now: int)
    requires name in at && forall k | k in names :: k in at
    ensures DueNames(names + [name], at, now)
      == DueNames(names, at, now) + (if now >= at[name] then [name] else [])
  {
    var last := if now >= at[name] then [name] else [];
    if names == [] {
      assert names + [name] == [name];
    } else {
      assert (names + [name])[1..] == names[1..] + [name];
      DueNamesAppend(names[1..], name, at, now);
      GroupedRight(if now >= at[names[0]] then [names[0]] else [], DueNames(names[1..], at, now), last);
    }
  }

  lemma {:induction false} DueKindsAppend(kinds: seq<Fixed>, kind: Fixed, at: map<Fixed, Refused>, now: int)
    requires kind in at && forall k | k in kinds :: k in at
    ensures DueKinds(kinds + [kind], at, now)
      == DueKinds(kinds, at, now) + (if now >= at[kind].dueAt then [kind] else [])
  {
    var last := if now >= at[kind].dueAt then [kind] else [];
    if kinds == [] {
      assert kinds + [kind] == [kind];
    } else {
      assert (kinds + [kind])[1..] == kinds[1..] + [kind];
      DueKindsAppend(kinds[1..], kind, at, now);
      GroupedRight(if now >= at[kinds[0]].dueAt then [kinds[0]] else [], DueKinds(kinds[1..], at, now), last);
    }
  }

  lemma {:induction false} SubsOfAppend(d: Dict<Fixed, Refused>, kinds: seq<Fixed>, kind: Fixed)
    requires kind in d.at
    ensures SubsOf(d, kinds + [kind]) == SubsOf(d, kinds) + [d.at[kind].sub]
  {
    if kinds == [] {
      assert kinds + [kind] == [kind];
    } else {
      assert (kinds + [kind])[1..] == kinds[1..] + [kind];
      SubsOfAppend(d, kinds[1..], kind);
      GroupedRight(if kinds[0] in d.at then [d.at[kinds[0]].sub] else [], SubsOf(d, kinds[1..]), [d.at[kind].sub]);
    }
  }
}
