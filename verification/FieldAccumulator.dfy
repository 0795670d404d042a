/** The class, with the source's own fields and loops, proved to do what `Accumulator` says. */
module FieldAccumulators {
  import opened Collections
  import opened Accumulator
  import Spec = Accumulator

  /** A map from slots that is held by reference and changed in place. */
  class SlotMap<V> {
    var items: map<Slot, V>

    constructor (items: map<Slot, V>)
      ensures this.items == items
    {
      this.items := items;
    }

    method Put(k: Slot, v: V)
      modifies this
      ensures items == old(items)[k := v]
    {
      items := items[k := v];
    }

    method PutAll(news: map<Slot, V>)
      modifies this
      ensures items == old(items) + news
    {
      var left := news.Keys;
      while left != {}
        invariant left <= news.Keys
        invariant items == old(items) + map k | k in news && k !in left :: news[k]
        decreases left
      {
        var k :| k in left;
        left := left - {k};
        Put(k, news[k]);
      }
    }

    method Delete(k: Slot)
      modifies this
      ensures items == old(items) - {k}
    {
      items := items - {k};
    }

    method Copy() returns (copy: SlotMap<V>)
      ensures fresh(copy) && copy.items == items
    {
      copy := new SlotMap(items);
    }
  }

  /** The accumulator as the source holds it: two maps and two instants, changed in place. */
  class FieldAccumulator {
    const policy: Policy
    const slots: SlotMap<Entry>
    const arrivals: SlotMap<Said>
    var newestAt: Option<int>
    var pendingSince: Option<int>

    /** The objects it is held in. */
    ghost function Parts(): set<object> {
      {this, slots, arrivals}
    }

    function View(): Acc
      reads Parts()
    {
      Acc(slots.items, arrivals.items, newestAt, pendingSince)
    }

    constructor (policy: Policy)
      ensures this.policy == policy && View() == EMPTY && fresh(slots) && fresh(arrivals)
    {
      this.policy := policy;
      slots := new SlotMap(map[]);
      arrivals := new SlotMap(map[]);
      newestAt, pendingSince := None, None;
    }

    /** One held in two maps that are there already. */
    constructor Over(policy: Policy, slots: SlotMap<Entry>, arrivals: SlotMap<Said>, newestAt: Option<int>,
                     pendingSince: Option<int>)
      ensures this.policy == policy && this.slots == slots && this.arrivals == arrivals
      ensures this.newestAt == newestAt && this.pendingSince == pendingSince
    {
      this.policy, this.slots, this.arrivals := policy, slots, arrivals;
      this.newestAt, this.pendingSince := newestAt, pendingSince;
    }

    /** Merge a decoded frame; true if it brought news. Every slot is judged against the state
        before the frame. */
    method Apply(d: Decoded, ms: int) returns (landed: bool)
      modifies Parts()
      ensures (View(), landed) == Spec.Apply(old(View()), policy, d, ms)
    {
      var landing, refreshed, heard := Sort(d, ms);
      slots.PutAll(refreshed);
      arrivals.PutAll(heard);
      if landing == map[] {
        return false;
      }
      var charging := ShowsChargingNow(landing);
      slots.PutAll(landing);
      if charging {
        RenewChargeWords(ms);
      }
      newestAt := Some(ms);
      if pendingSince.None? {
        pendingSince := Some(ms);
      }
      return true;
    }

    /** What one slot of a frame comes to. */
    method JudgeSlot(d: Decoded, k: Slot, ms: int) returns (verdict: Verdict, said: bool)
      requires k in d.slots
      ensures verdict == Judge(View(), policy, d, k, ms)
      ensures said == IsHeard(View(), d, k, ms)
    {
      var value := d.slots[k];
      var stamp := Stamp(d, k, ms);
      var isHeld, timed := k in slots.items, k in d.observedAt;
      if timed && isHeld && slots.items[k].observed.Some? {
        if stamp < slots.items[k].observed.value {
          return Skip, false;
        }
        if stamp == slots.items[k].observed.value && value == slots.items[k].value {
          return Skip, false;
        }
      }
      said := false;
      if k in d.arrivalStamped {
        said := true;
        var remembered := k in arrivals.items
          && ms - arrivals.items[k].seenAt < policy.staleWindowFor(k) && value == arrivals.items[k].value;
        var equalsHeld := isHeld && value == slots.items[k].value;
        if remembered || equalsHeld {
          if k !in policy.chargeStateSlots && equalsHeld {
            verdict := Refresh(Entry(slots.items[k].value, Max(slots.items[k].at, stamp), Some(stamp)));
          } else {
            verdict := Skip;
          }
          return;
        }
      }
      verdict := Land(Entry(value, stamp, if timed then Some(stamp) else None));
    }

    /** What each slot of the frame comes to, in whatever order they are looked at. */
    method Sort(d: Decoded, ms: int)
      returns (landing: map<Slot, Entry>, refreshed: map<Slot, Entry>, heard: map<Slot, Said>)
      ensures landing == Landing(View(), policy, d, ms)
      ensures refreshed == Refreshed(View(), policy, d, ms)
      ensures heard == Heard(View(), d, ms)
    {
      ghost var acc := View();
      landing, refreshed, heard := map[], map[], map[];
      var left := d.slots.Keys;
      while left != {}
        invariant left <= d.slots.Keys
        invariant forall k | k in landing :: k in d.slots && k !in left && Judge(acc, policy, d, k, ms) == Land(landing[k])
        invariant forall k | k in refreshed ::
          k in d.slots && k !in left && Judge(acc, policy, d, k, ms) == Refresh(refreshed[k])
        invariant forall k | k in heard ::
          k in d.slots && k !in left && IsHeard(acc, d, k, ms) && heard[k] == Said(d.slots[k], ms)
        invariant forall k | k in d.slots && k !in left ::
          && (Judge(acc, policy, d, k, ms).Land? ==> k in landing)
          && (Judge(acc, policy, d, k, ms).Refresh? ==> k in refreshed)
          && (IsHeard(acc, d, k, ms) ==> k in heard)
        decreases left
      {
        var k :| k in left;
        left := left - {k};
        var verdict, said := JudgeSlot(d, k, ms);
        if said {
          heard := heard[k := Said(d.slots[k], ms)];
        }
        match verdict
        case Skip =>
        case Refresh(entry) => refreshed := refreshed[k := entry];
        case Land(entry) => landing := landing[k := entry];
      }
    }

    method ShowsChargingNow(landing: map<Slot, Entry>) returns (charging: bool)
      ensures charging <==> ShowsCharging(slots.items, policy, landing)
    {
      for i := 0 to |policy.chargingPowerSlots|
        invariant forall j | 0 <= j < i ::
          var k := policy.chargingPowerSlots[j];
          !(k in landing && landing[k].value.Number? && landing[k].value.n > 0.0)
      {
        var k := policy.chargingPowerSlots[i];
        if k in landing && landing[k].value.Number? && landing[k].value.n > 0.0 {
          return true;
        }
      }
      for i := 0 to |policy.chargingEnergySlots|
        invariant forall j | 0 <= j < i ::
          var k := policy.chargingEnergySlots[j];
          !(k in landing && k in slots.items && landing[k].value.Number? && slots.items[k].value.Number?
            && landing[k].value.n > slots.items[k].value.n)
      {
        var k := policy.chargingEnergySlots[i];
        if k in landing && k in slots.items && landing[k].value.Number? && slots.items[k].value.Number?
           && landing[k].value.n > slots.items[k].value.n {
          return true;
        }
      }
      return false;
    }

    method RenewChargeWords(ms: int)
      modifies slots
      ensures slots.items == Renewed(old(slots.items), policy, ms)
    {
      for i := 0 to |policy.chargeStateSlots|
        invariant slots.items.Keys == old(slots.items).Keys
        invariant forall k | k in slots.items ::
          slots.items[k] == if k in policy.chargeStateSlots[..i] then old(slots.items)[k].(at := ms) else old(slots.items)[k]
      {
        var k := policy.chargeStateSlots[i];
        if k in slots.items {
          slots.Put(k, slots.items[k].(at := ms));
        }
      }
    }

    method Due(now: int) returns (due: bool)
      ensures due <==> Spec.Due(View(), now)
    {
      if pendingSince.None? || newestAt.None? {
        return false;
      }
      if now - newestAt.value >= QUIET_PERIOD_MS {
        return true;
      }
      return now - pendingSince.value >= MAX_SAMPLE_INTERVAL_MS;
    }

    /** The pending sample's state; values past their window are dropped, not carried. */
    method Take() returns (taken: Option<Taken>)
      modifies Parts()
      ensures (View(), taken) == Spec.Take(old(View()), policy)
    {
      if newestAt.None? {
        return None;
      }
      var ts := newestAt.value;
      var state: map<Slot, Value> := map[];
      var left := slots.items.Keys;
      ghost var held := slots.items;
      while left != {}
        invariant left <= held.Keys
        invariant newestAt == old(newestAt) && arrivals.items == old(arrivals.items) && pendingSince == old(pendingSince)
        invariant slots.items == map k | k in held && (k in left || ts - held[k].at < policy.staleWindowFor(k)) :: held[k]
        invariant state == map k | k in held && k !in left && ts - held[k].at < policy.staleWindowFor(k) :: held[k].value
        decreases left
      {
        var k :| k in left;
        left := left - {k};
        if ts - slots.items[k].at >= policy.staleWindowFor(k) {
          slots.Delete(k);
        } else {
          state := state[k := slots.items[k].value];
        }
      }
      pendingSince := None;
      assert slots.items == Unexpired(held, policy, ts);
      assert state == Carried(slots.items);
      return Some(Taken(state, ts));
    }

    /** A copy that shares no map with this one: a later change to either leaves the other. */
    method Clone() returns (copy: FieldAccumulator)
      ensures fresh(copy.Parts()) && copy.policy == policy && copy.View() == View()
    {
      var slotsNow := slots.Copy();
      var arrivalsNow := arrivals.Copy();
      copy := new FieldAccumulator.Over(policy, slotsNow, arrivalsNow, newestAt, pendingSince);
    }
  }
}
