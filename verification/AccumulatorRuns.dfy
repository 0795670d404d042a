/** What the accumulator comes to over any frames: last observations, replays, repetitions, bursts. */
module AccumulatorRuns {
  import opened Collections
  import opened Accumulator

  datatype Frame = Frame(d: Decoded, ms: int)

  function ApplyAll(acc: Acc, policy: Policy, frames: seq<Frame>): Acc {
    if frames == [] then acc
    else
      var last := frames[|frames| - 1];
      Apply(ApplyAll(acc, policy, frames[..|frames| - 1]), policy, last.d, last.ms).0
  }

  // ----- the last observation wins -------------------------------------------------------

  /** Every slot comes with an observation time of the vehicle's, and none is arrival-stamped. */
  ghost predicate CarTimed(f: Frame) {
    forall k | k in f.d.slots :: k in f.d.observedAt && k !in f.d.arrivalStamped
  }

  /** The instant a slot of a frame competes with: the observation, cut off at the arrival. */
  function StampOf(f: Frame, k: Slot): int {
    Stamp(f.d, k, f.ms)
  }

  datatype Observation = Observation(value: Value, observed: int)

  /** The value of greatest instant among `frames`, the last of equals: what a slot should hold. */
  function Best(frames: seq<Frame>, k: Slot): Option<Observation> {
    if frames == [] then None
    else
      var f, best := frames[|frames| - 1], Best(frames[..|frames| - 1], k);
      if k in f.d.slots && (best.None? || StampOf(f, k) >= best.value.observed)
      then Some(Observation(f.d.slots[k], StampOf(f, k))) else best
  }

  /** No frame has a later instant of the slot than `f`. */
  ghost predicate Greatest(frames: seq<Frame>, f: Frame, k: Slot) {
    && f in frames && k in f.d.slots
    && forall g | g in frames && k in g.d.slots :: StampOf(g, k) <= StampOf(f, k)
  }

  /** The frames of greatest instant give the slot one value. */
  ghost predicate Agree(frames: seq<Frame>, k: Slot) {
    forall f, g | Greatest(frames, f, k) && Greatest(frames, g, k) :: f.d.slots[k] == g.d.slots[k]
  }

  /** `Best` is of greatest instant, and is some frame's. */
  lemma {:induction false} BestIsGreatest(frames: seq<Frame>, k: Slot)
    ensures Best(frames, k).None? <==> forall f | f in frames :: k !in f.d.slots
    ensures Best(frames, k).Some? ==>
      && (exists f :: f in frames && k in f.d.slots
            && Best(frames, k).value == Observation(f.d.slots[k], StampOf(f, k)))
      && (forall f | f in frames && k in f.d.slots :: StampOf(f, k) <= Best(frames, k).value.observed)
  {
    if frames != [] {
      var init, last := frames[..|frames| - 1], frames[|frames| - 1];
      assert frames == init + [last];
      BestIsGreatest(init, k);
    }
  }

  /** What the accumulator holds for `k`, apart from its carry clock. */
  function Held(acc: Acc, k: Slot): Option<Observation> {
    if k in acc.slots && acc.slots[k].observed.Some?
    then Some(Observation(acc.slots[k].value, acc.slots[k].observed.value)) else None
  }

  ghost predicate Timed(acc: Acc) {
    forall k | k in acc.slots :: acc.slots[k].observed.Some?
  }

  /** What one car-timed frame does to each slot. */
  lemma ApplyTimed(acc: Acc, policy: Policy, f: Frame, k: Slot)
    requires Timed(acc) && CarTimed(f)
    ensures var next := Apply(acc, policy, f.d, f.ms).0;
      && Timed(next)
      && Held(next, k) ==
           if k in f.d.slots && (Held(acc, k).None? || StampOf(f, k) >= Held(acc, k).value.observed)
           then Some(Observation(f.d.slots[k], StampOf(f, k)))
           else Held(acc, k)
  {
  }

  /** The accumulator holds the last observation of every slot. */
  lemma {:induction false} HoldsBest(policy: Policy, frames: seq<Frame>, k: Slot)
    requires forall f | f in frames :: CarTimed(f)
    ensures Timed(ApplyAll(EMPTY, policy, frames))
    ensures Held(ApplyAll(EMPTY, policy, frames), k) == Best(frames, k)
  {
    if frames != [] {
      var init, last := frames[..|frames| - 1], frames[|frames| - 1];
      assert frames == init + [last];
      HoldsBest(policy, init, k);
      ApplyTimed(ApplyAll(EMPTY, policy, init), policy, last, k);
    }
  }

  /** LAST OBSERVATION WINS. Whatever the clocks, a slot holds the value of a frame of greatest
      instant, and something if and only if some frame had it. */
  lemma LastObservationWins(policy: Policy, frames: seq<Frame>, k: Slot)
    requires forall f | f in frames :: CarTimed(f)
    ensures var held := Held(ApplyAll(EMPTY, policy, frames), k);
      && (held.Some? <==> exists f :: f in frames && k in f.d.slots)
      && (held.Some? ==> exists f :: Greatest(frames, f, k) && held.value == Observation(f.d.slots[k], StampOf(f, k)))
  {
    HoldsBest(policy, frames, k);
    BestIsGreatest(frames, k);
    var best := Best(frames, k);
    if best.Some? {
      var f :| f in frames && k in f.d.slots && best.value == Observation(f.d.slots[k], StampOf(f, k));
      assert Greatest(frames, f, k);
    }
  }

  /** Two deliveries of the same frames, in whatever order and with whatever repeats, leave a slot
      the same when its greatest frames agree. */
  lemma DeliveriesAgree(policy: Policy, a: seq<Frame>, b: seq<Frame>, k: Slot)
    requires (forall f | f in a :: CarTimed(f)) && Agree(a, k)
    requires (forall f | f in a :: f in b) && (forall f | f in b :: f in a)
    ensures Held(ApplyAll(EMPTY, policy, a), k) == Held(ApplyAll(EMPTY, policy, b), k)
  {
    LastObservationWins(policy, a, k);
    LastObservationWins(policy, b, k);
    var heldA, heldB := Held(ApplyAll(EMPTY, policy, a), k), Held(ApplyAll(EMPTY, policy, b), k);
    hide ApplyAll, Held, CarTimed;
    if heldA.Some? {
      var f :| Greatest(a, f, k) && heldA.value == Observation(f.d.slots[k], StampOf(f, k));
      var g :| Greatest(b, g, k) && heldB.value == Observation(g.d.slots[k], StampOf(g, k));
      SameGreatest(a, b, k);
      assert Greatest(a, g, k);
    }
  }

  lemma SameGreatest(a: seq<Frame>, b: seq<Frame>, k: Slot)
    requires (forall f | f in a :: f in b) && (forall f | f in b :: f in a)
    ensures forall f :: Greatest(a, f, k) <==> Greatest(b, f, k)
  {
  }

  /** WHEN THE ORDER DOES NOT MATTER: every order of the same frames leaves the slot the same if and
      only if the frames of greatest instant agree on it. They need not when clocks are ahead, for
      then different observations count as of one instant, their arrival. */
  lemma OrderIsNothingIff(policy: Policy, a: seq<Frame>, k: Slot)
    requires forall f | f in a :: CarTimed(f)
    ensures Agree(a, k) <==>
      forall b: seq<Frame> | multiset(b) == multiset(a) ::
        Held(ApplyAll(EMPTY, policy, b), k) == Held(ApplyAll(EMPTY, policy, a), k)
  {
    if Agree(a, k) {
      forall b: seq<Frame> | multiset(b) == multiset(a)
        ensures Held(ApplyAll(EMPTY, policy, b), k) == Held(ApplyAll(EMPTY, policy, a), k)
      {
        SameElements(a, b);
        DeliveriesAgree(policy, a, b, k);
      }
    } else {
      var f, g :| Greatest(a, f, k) && Greatest(a, g, k) && f.d.slots[k] != g.d.slots[k];
      var held := Held(ApplyAll(EMPTY, policy, a), k);
      var last := if held.Some? && held.value.value == f.d.slots[k] then g else f;
      var b := PutLast(policy, a, last, k);
    }
  }

  lemma SameElements<T>(a: seq<T>, b: seq<T>)
    requires multiset(a) == multiset(b)
    ensures (forall x | x in a :: x in b) && (forall x | x in b :: x in a)
  {
    forall x | x in a ensures x in b { assert x in multiset(a); }
    forall x | x in b ensures x in a { assert x in multiset(b); }
  }

  /** An order in which a frame of greatest instant comes last, and has the last word. */
  lemma PutLast(policy: Policy, a: seq<Frame>, last: Frame, k: Slot) returns (b: seq<Frame>)
    requires (forall f | f in a :: CarTimed(f)) && Greatest(a, last, k)
    ensures multiset(b) == multiset(a)
    ensures Held(ApplyAll(EMPTY, policy, b), k) == Some(Observation(last.d.slots[k], StampOf(last, k)))
  {
    var i :| 0 <= i < |a| && a[i] == last;
    var rest := a[..i] + a[i + 1..];
    b := rest + [last];
    assert a == a[..i] + [a[i]] + a[i + 1..];
    forall f | f in b ensures f in a { SameElements(a, b); }
    HoldsBest(policy, b, k);
    assert b[..|b| - 1] == rest;
    BestIsGreatest(rest, k);
  }

  /** While no car's clock is ahead of the arrivals, the instant is the observation: so what is held
      is what the car observed last. */
  lemma LastIsByTheCar(policy: Policy, frames: seq<Frame>, k: Slot)
    requires forall f | f in frames :: CarTimed(f)
    requires forall f | f in frames && k in f.d.slots :: CarDates(f, k) && f.d.observedAt[k] <= f.ms
    ensures var held := Held(ApplyAll(EMPTY, policy, frames), k);
      held.Some? ==>
        && (exists f :: f in frames && CarDates(f, k) && held.value == Observation(f.d.slots[k], f.d.observedAt[k]))
        && (forall f | f in frames && CarDates(f, k) :: f.d.observedAt[k] <= held.value.observed)
  {
    HoldsBest(policy, frames, k);
    BestIsGreatest(frames, k);
    forall f | f in frames && CarDates(f, k) ensures StampOf(f, k) == f.d.observedAt[k] {
    }
    var held := Held(ApplyAll(EMPTY, policy, frames), k);
    if held.Some? {
      var f :| f in frames && k in f.d.slots && held.value == Observation(f.d.slots[k], StampOf(f, k));
      assert held.value == Observation(f.d.slots[k], f.d.observedAt[k]);
    }
  }

  /** The frame dates the slot by the car. */
  predicate CarDates(f: Frame, k: Slot) {
    k in f.d.slots && k in f.d.observedAt && k !in f.d.arrivalStamped
  }

  /** WHEN AN OLDER OBSERVATION OVERWRITES A NEWER ONE, whatever else is held: if and only if the
      newer one had arrived by the instant the older one counts as of, which takes a newer one from
      a clock that was ahead. */
  lemma OlderOverwritesIff(acc: Acc, policy: Policy, f: Frame, g: Frame, k: Slot)
    requires CarDates(f, k) && CarDates(g, k)
    requires Held(acc, k) == Some(Observation(f.d.slots[k], StampOf(f, k)))
    requires g.d.observedAt[k] < f.d.observedAt[k] && g.d.slots[k] != f.d.slots[k]
    ensures var held := Held(Apply(acc, policy, g.d, g.ms).0, k);
      held == Some(if f.ms <= StampOf(g, k) then Observation(g.d.slots[k], StampOf(g, k))
                   else Observation(f.d.slots[k], StampOf(f, k)))
  {
    assert Judge(acc, policy, g.d, k, g.ms) ==
      if f.ms <= StampOf(g, k) then Land(Entry(g.d.slots[k], StampOf(g, k), Some(StampOf(g, k)))) else Skip;
    assert f.ms <= StampOf(g, k) ==> k in Landing(acc, policy, g.d, g.ms);
  }

  /** In figures: observed at 20 by a clock that is ahead, it arrives at 10; one observed at 15, and
      even one observed at 10, replaces it when it arrives at 16. */
  lemma OlderAfterTwenty(policy: Policy, k: Slot, observed: int) returns (f: Frame, g: Frame)
    requires observed == 15 || observed == 10
    ensures CarTimed(f) && k in f.d.slots && f.d.observedAt[k] == 20 && f.ms == 10
    ensures CarTimed(g) && k in g.d.slots && g.d.observedAt[k] == observed && g.ms == 16
    ensures f.d.slots[k] != g.d.slots[k]
    ensures Held(ApplyAll(EMPTY, policy, [f, g]), k) == Some(Observation(g.d.slots[k], observed))
  {
    f := Frame(Decoded(map[k := Number(1.0)], map[k := 20], {}, 0), 10);
    g := Frame(Decoded(map[k := Number(2.0)], map[k := observed], {}, 0), 16);
    BestOfTwo(f, g, k);
    hide *;
    HoldsBest(policy, [f, g], k);
  }

  /** Two observations from a clock ahead that arrive together: whichever is applied last is held. */
  lemma TogetherFromAhead(policy: Policy, k: Slot) returns (f: Frame, g: Frame)
    ensures CarTimed(f) && k in f.d.slots && f.d.observedAt[k] == 20 && f.ms == 10
    ensures CarTimed(g) && k in g.d.slots && g.d.observedAt[k] == 15 && g.ms == 10
    ensures Held(ApplyAll(EMPTY, policy, [f, g]), k) == Some(Observation(g.d.slots[k], 10))
    ensures Held(ApplyAll(EMPTY, policy, [g, f]), k) == Some(Observation(f.d.slots[k], 10))
    ensures f.d.slots[k] != g.d.slots[k]
  {
    f := Frame(Decoded(map[k := Number(1.0)], map[k := 20], {}, 0), 10);
    g := Frame(Decoded(map[k := Number(2.0)], map[k := 15], {}, 0), 10);
    BestOfTwo(f, g, k);
    BestOfTwo(g, f, k);
    hide *;
    HoldsBest(policy, [f, g], k);
    HoldsBest(policy, [g, f], k);
  }

  lemma BestOfTwo(f: Frame, g: Frame, k: Slot)
    requires k in f.d.slots && k in g.d.slots
    ensures Best([f, g], k) == Some(
      if StampOf(g, k) >= StampOf(f, k) then Observation(g.d.slots[k], StampOf(g, k))
      else Observation(f.d.slots[k], StampOf(f, k)))
  {
    assert [f, g][..1] == [f] && [f][..0] == [];
    assert Best([f], k) == Some(Observation(f.d.slots[k], StampOf(f, k)));
  }

  /** Applied again, a frame says nothing new of a slot: it is outdone, or is what is held. */
  predicate SaysNothing(acc: Acc, f: Frame, k: Slot)
    requires k in f.d.slots
  {
    Held(acc, k).Some? &&
    (StampOf(f, k) < Held(acc, k).value.observed || Held(acc, k).value == Observation(f.d.slots[k], StampOf(f, k)))
  }

  /** A car-timed frame lands nothing, and then changes nothing at all, exactly when it says nothing
      of any slot. */
  lemma SilentIff(acc: Acc, policy: Policy, f: Frame)
    requires CarTimed(f)
    ensures Apply(acc, policy, f.d, f.ms) == (acc, false) <==> forall k | k in f.d.slots :: SaysNothing(acc, f, k)
  {
    if forall k | k in f.d.slots :: SaysNothing(acc, f, k) {
      assert Landing(acc, policy, f.d, f.ms) == map[];
      assert Refreshed(acc, policy, f.d, f.ms) == map[];
      assert Heard(acc, f.d, f.ms) == map[];
      assert acc.slots + map[] == acc.slots && acc.arrivals + map[] == acc.arrivals;
    } else {
      var k :| k in f.d.slots && !SaysNothing(acc, f, k);
      assert k in Landing(acc, policy, f.d, f.ms);
    }
  }

  /** WHEN REPLAYS ARE SILENT: applying any of the frames again lands nothing and changes nothing at
      all, if and only if on every slot the frames of greatest instant agree. */
  lemma ReplaysAreSilentIff(policy: Policy, frames: seq<Frame>)
    requires forall f | f in frames :: CarTimed(f)
    ensures var acc := ApplyAll(EMPTY, policy, frames);
      (forall f | f in frames :: Apply(acc, policy, f.d, f.ms) == (acc, false)) <==> (forall k: Slot :: Agree(frames, k))
  {
    var acc := ApplyAll(EMPTY, policy, frames);
    forall f | f in frames
      ensures Apply(acc, policy, f.d, f.ms) == (acc, false) <==> forall k | k in f.d.slots :: SaysNothing(acc, f, k)
    {
      SilentIff(acc, policy, f);
    }
    forall k: Slot
      ensures Agree(frames, k) <==> forall f | f in frames && k in f.d.slots :: SaysNothing(acc, f, k)
    {
      AgreeIff(policy, frames, k);
    }
    hide *;
    if forall f | f in frames :: Apply(acc, policy, f.d, f.ms) == (acc, false) {
      forall k: Slot ensures Agree(frames, k) {
        forall f | f in frames && k in f.d.slots ensures SaysNothing(acc, f, k) {
        }
      }
    }
    if forall k: Slot :: Agree(frames, k) {
      forall f | f in frames ensures Apply(acc, policy, f.d, f.ms) == (acc, false) {
        forall k | k in f.d.slots ensures SaysNothing(acc, f, k) {
          assert Agree(frames, k);
        }
      }
    }
  }

  lemma AgreeIff(policy: Policy, frames: seq<Frame>, k: Slot)
    requires forall f | f in frames :: CarTimed(f)
    ensures Agree(frames, k) <==>
      forall f | f in frames && k in f.d.slots :: SaysNothing(ApplyAll(EMPTY, policy, frames), f, k)
  {
    HoldsBest(policy, frames, k);
    BestIsGreatest(frames, k);
    hide ApplyAll, Best, CarTimed;
    var held := Held(ApplyAll(EMPTY, policy, frames), k);
    if held.Some? {
      var best :| best in frames && k in best.d.slots && held.value == Observation(best.d.slots[k], StampOf(best, k));
      assert Greatest(frames, best, k);
      forall f | f in frames && k in f.d.slots && StampOf(f, k) == held.value.observed ensures Greatest(frames, f, k) {
      }
    }
  }

  // ----- what does not land is not scheduled ---------------------------------------------

  /** Without a landing, values stay as they are and the debounce is not started. */
  lemma SilentChangesNothing(acc: Acc, policy: Policy, d: Decoded, ms: int)
    requires !Apply(acc, policy, d, ms).1
    ensures var next := Apply(acc, policy, d, ms).0;
      && next.newestAt == acc.newestAt && next.pendingSince == acc.pendingSince
      && Carried(next.slots) == Carried(acc.slots)
  {
    var next := Apply(acc, policy, d, ms).0;
    assert next.slots.Keys == acc.slots.Keys;
  }

  /** What is sent while a wall charger, say, repeats itself: `values`, stamped with the arrival. */
  function Resent(values: map<Slot, Value>, ms: int): Decoded {
    Decoded(values, map k | k in values :: ms, values.Keys, |values|)
  }

  datatype Op = Resend(ms: int) | Sample

  /** The accumulator last heard `values` at `ms`, or holds them as observed then, and holds no
      observation from after it. */
  ghost predicate HeardAt(acc: Acc, policy: Policy, values: map<Slot, Value>, ms: int) {
    && (forall k | k in values && policy.staleWindowFor(k) > 0 :: HeardSlot(acc, values, k, ms))
    && (acc.newestAt.Some? ==> acc.newestAt.value <= ms)
  }

  predicate HeardSlot(acc: Acc, values: map<Slot, Value>, k: Slot, ms: int)
    requires k in values
  {
    || HeldNow(acc, values, k, ms)
    || (&& k in acc.arrivals && acc.arrivals[k] == Said(values[k], ms)
        && (k in acc.slots && acc.slots[k].observed.Some? ==> acc.slots[k].observed.value <= ms))
  }

  /** The slot holds the value since `ms`. */
  predicate HeldNow(acc: Acc, values: map<Slot, Value>, k: Slot, ms: int)
    requires k in values
  {
    && k in acc.slots && acc.slots[k].value == values[k]
    && acc.slots[k].observed == Some(ms) && ms <= acc.slots[k].at
  }

  /** What a frame does to the memory of one slot. */
  lemma HeardAfter(acc: Acc, policy: Policy, d: Decoded, ms: int, k: Slot)
    requires k in d.slots
    ensures var next := Apply(acc, policy, d, ms).0;
      && (IsHeard(acc, d, k, ms) ==> k in next.arrivals && next.arrivals[k] == Said(d.slots[k], ms))
      && (!IsHeard(acc, d, k, ms) && k in acc.arrivals ==> k in next.arrivals && next.arrivals[k] == acc.arrivals[k])
  {
    assert Apply(acc, policy, d, ms).0.arrivals == acc.arrivals + Heard(acc, d, ms);
  }

  /** ... and to the observation held for it. */
  lemma ObservedAfter(acc: Acc, policy: Policy, d: Decoded, ms: int, k: Slot)
    requires k in d.slots
    ensures var next := Apply(acc, policy, d, ms).0;
      k in next.slots && next.slots[k].observed.Some? ==>
        next.slots[k].observed == Some(Stamp(d, k, ms)) || (k in acc.slots && next.slots[k].observed == acc.slots[k].observed)
  {
    var landing, refreshed := Landing(acc, policy, d, ms), Refreshed(acc, policy, d, ms);
    var slots := acc.slots + refreshed + landing;
    assert k in slots ==>
      (slots[k].observed.None? || slots[k].observed == Some(Stamp(d, k, ms))
       || (k in acc.slots && slots[k].observed == acc.slots[k].observed));
    assert landing == map[] ==> slots == acc.slots + refreshed;
  }

  lemma SlotAfter(acc: Acc, policy: Policy, d: Decoded, ms: int, k: Slot)
    requires k in d.slots
    ensures var next := Apply(acc, policy, d, ms).0;
      && (IsHeard(acc, d, k, ms) ==> k in next.arrivals && next.arrivals[k] == Said(d.slots[k], ms))
      && (!IsHeard(acc, d, k, ms) && k in acc.arrivals ==> k in next.arrivals && next.arrivals[k] == acc.arrivals[k])
      && (k in next.slots && next.slots[k].observed.Some? ==>
            next.slots[k].observed == Some(Stamp(d, k, ms))
            || (k in acc.slots && next.slots[k].observed == acc.slots[k].observed))
  {
    HeardAfter(acc, policy, d, ms, k);
    ObservedAfter(acc, policy, d, ms, k);
  }

  /** Nothing held was observed after `last` or after its carry clock, nothing landed after `last`,
      and what is pending has an instant. */
  ghost predicate Orderly(acc: Acc, last: int) {
    && (forall k | k in acc.slots && acc.slots[k].observed.Some? ::
          acc.slots[k].observed.value <= last && acc.slots[k].observed.value <= acc.slots[k].at)
    && (acc.newestAt.Some? ==> acc.newestAt.value <= last)
    && (acc.pendingSince.Some? ==> acc.newestAt.Some?)
  }

  /** A slot that is held since this very instant stays so. */
  lemma HeldStays(acc: Acc, policy: Policy, values: map<Slot, Value>, ms: int, k: Slot)
    requires k in values && HeldNow(acc, values, k, ms)
    ensures Judge(acc, policy, Resent(values, ms), k, ms) == Skip
    ensures HeldNow(Apply(acc, policy, Resent(values, ms), ms).0, values, k, ms)
  {
    var d := Resent(values, ms);
    assert Superseded(acc, d, k, ms);
    assert k !in Landing(acc, policy, d, ms) && k !in Refreshed(acc, policy, d, ms);
  }

  /** A frame of arrival-stamped values is heard, or is what is held. */
  lemma ResendIsHeard(acc: Acc, policy: Policy, values: map<Slot, Value>, ms: int)
    requires Orderly(acc, ms)
    ensures HeardAt(Apply(acc, policy, Resent(values, ms), ms).0, policy, values, ms)
  {
    forall k | k in values
      ensures HeardSlot(Apply(acc, policy, Resent(values, ms), ms).0, values, k, ms)
    {
      SlotAfter(acc, policy, Resent(values, ms), ms, k);
      if IsHeard(acc, Resent(values, ms), k, ms) {
      } else {
        HeldStays(acc, policy, values, ms, k);
      }
    }
  }

  /** One slot said again within its window does not land, and is remembered. */
  lemma RepeatOfSlot(acc: Acc, policy: Policy, values: map<Slot, Value>, before: int, ms: int, k: Slot)
    requires k in values && HeardSlot(acc, values, k, before) && before <= ms
    requires ms - before < policy.staleWindowFor(k)
    ensures !Judge(acc, policy, Resent(values, ms), k, ms).Land?
    ensures HeardSlot(Apply(acc, policy, Resent(values, ms), ms).0, values, k, ms)
  {
    var d := Resent(values, ms);
    SlotAfter(acc, policy, d, ms, k);
    if HeldNow(acc, values, k, before) {
      if ms == before {
        HeldStays(acc, policy, values, ms, k);
      } else {
        assert IsHeard(acc, d, k, ms) && EqualsHeld(acc, d, k);
      }
    } else if IsHeard(acc, d, k, ms) {
      assert Remembered(acc, policy, d, k, ms);
    }
  }

  /** The same values again within every slot's window: nothing lands. */
  lemma RepeatIsSilent(acc: Acc, policy: Policy, values: map<Slot, Value>, before: int, ms: int)
    requires HeardAt(acc, policy, values, before) && before <= ms
    requires forall k | k in values :: ms - before < policy.staleWindowFor(k)
    ensures !Apply(acc, policy, Resent(values, ms), ms).1
    ensures HeardAt(Apply(acc, policy, Resent(values, ms), ms).0, policy, values, ms)
  {
    forall k | k in values
      ensures !Judge(acc, policy, Resent(values, ms), k, ms).Land?
      ensures HeardSlot(Apply(acc, policy, Resent(values, ms), ms).0, values, k, ms)
    {
      RepeatOfSlot(acc, policy, values, before, ms, k);
    }
    assert Landing(acc, policy, Resent(values, ms), ms) == map[];
  }

  /** Resends of `values`, each soon after the last, with samples taken at any point between. */
  function Repeats(acc: Acc, policy: Policy, values: map<Slot, Value>, ops: seq<Op>): Acc
    decreases |ops|
  {
    if ops == [] then acc
    else Repeats(
      match ops[0]
      case Resend(ms) => Apply(acc, policy, Resent(values, ms), ms).0
      case Sample => Take(acc, policy).0,
      policy, values, ops[1..])
  }

  ghost predicate Steady(policy: Policy, values: map<Slot, Value>, before: int, ops: seq<Op>)
    decreases |ops|
  {
    ops == [] || (
      match ops[0]
      case Sample => Steady(policy, values, before, ops[1..])
      case Resend(ms) =>
        && before <= ms
        && (forall k | k in values :: ms - before < policy.staleWindowFor(k))
        && Steady(policy, values, ms, ops[1..]))
  }

  /** A sample forgets none of it: what is held since `ms` is in its window. */
  lemma TakeKeepsHeard(acc: Acc, policy: Policy, values: map<Slot, Value>, ms: int)
    requires HeardAt(acc, policy, values, ms)
    ensures HeardAt(Take(acc, policy).0, policy, values, ms)
  {
  }

  /** REPETITION IS NOT NEWS. A feed may say the same for as long as it likes: the debounce never
      starts, not even when slots expire in between. */
  lemma {:induction false} RepetitionIsNotNews(acc: Acc, policy: Policy, values: map<Slot, Value>, before: int, ops: seq<Op>)
    requires HeardAt(acc, policy, values, before) && acc.pendingSince.None? && Steady(policy, values, before, ops)
    ensures Repeats(acc, policy, values, ops).pendingSince.None?
    ensures forall now :: !Due(Repeats(acc, policy, values, ops), now)
    decreases |ops|
  {
    if ops != [] {
      match ops[0] {
        case Sample =>
          TakeKeepsHeard(acc, policy, values, before);
          RepetitionIsNotNews(Take(acc, policy).0, policy, values, before, ops[1..]);
        case Resend(ms) =>
          RepeatIsSilent(acc, policy, values, before, ms);
          SilentChangesNothing(acc, policy, Resent(values, ms), ms);
          RepetitionIsNotNews(Apply(acc, policy, Resent(values, ms), ms).0, policy, values, ms, ops[1..]);
      }
    }
  }

  // ----- a charge word's window ----------------------------------------------------------

  datatype Event = Arrive(d: Decoded, ms: int) | Emit

  /** What the run has shown: when each slot last landed, and when a sign of charging last did. */
  datatype Seen = Seen(landed: map<Slot, int>, sign: Option<int>)

  function See(acc: Acc, policy: Policy, seen: Seen, e: Event): Seen {
    match e
    case Emit => seen
    case Arrive(d, ms) =>
      var landing := Landing(acc, policy, d, ms);
      Seen(seen.landed + (map k | k in landing :: ms),
           if ShowsCharging(acc.slots + Refreshed(acc, policy, d, ms), policy, landing) then Some(ms) else seen.sign)
  }

  function Next(acc: Acc, policy: Policy, e: Event): Acc {
    match e
    case Emit => Take(acc, policy).0
    case Arrive(d, ms) => Apply(acc, policy, d, ms).0
  }

  function Run(acc: Acc, policy: Policy, seen: Seen, events: seq<Event>): (Acc, Seen)
    decreases |events|
  {
    if events == [] then (acc, seen)
    else Run(Next(acc, policy, events[0]), policy, See(acc, policy, seen, events[0]), events[1..])
  }

  /** The carry clock of every charge word is at most the later of its landing and of a sign of
      charging. */
  ghost predicate ClocksEarned(acc: Acc, policy: Policy, seen: Seen) {
    forall k | k in acc.slots && k in policy.chargeStateSlots ::
      || (k in seen.landed && acc.slots[k].at <= seen.landed[k])
      || (seen.sign.Some? && acc.slots[k].at <= seen.sign.value)
  }

  lemma StepKeepsEarned(acc: Acc, policy: Policy, seen: Seen, e: Event)
    requires ClocksEarned(acc, policy, seen)
    ensures ClocksEarned(Next(acc, policy, e), policy, See(acc, policy, seen, e))
  {
    match e
    case Emit =>
    case Arrive(d, ms) =>
      var landing := Landing(acc, policy, d, ms);
      var next := Next(acc, policy, e);
      forall k | k in landing ensures landing[k].at <= ms {
      }
      forall k | k in next.slots && k in policy.chargeStateSlots && k !in landing
        ensures k in acc.slots && (next.slots[k] == acc.slots[k] || next.slots[k] == acc.slots[k].(at := ms))
      {
      }
  }

  /** In every reachable state. */
  lemma {:induction false} RunKeepsEarned(acc: Acc, policy: Policy, seen: Seen, events: seq<Event>)
    requires ClocksEarned(acc, policy, seen)
    ensures var (end, shown) := Run(acc, policy, seen, events); ClocksEarned(end, policy, shown)
    decreases |events|
  {
    if events != [] {
      StepKeepsEarned(acc, policy, seen, events[0]);
      RunKeepsEarned(Next(acc, policy, events[0]), policy, See(acc, policy, seen, events[0]), events[1..]);
    }
  }

  /** A CHARGE WORD CANNOT BE KEPT ALIVE BY REPETITION. After any frames and samples, a sample
      taken a full window after the word last landed and after charging last showed itself does
      not carry the word, however many re-sends came between. */
  lemma ChargeWordsExpire(policy: Policy, events: seq<Event>, k: Slot)
    requires k in policy.chargeStateSlots
    requires var (acc, seen) := Run(EMPTY, policy, Seen(map[], None), events);
      && acc.newestAt.Some?
      && (k in seen.landed ==> acc.newestAt.value - seen.landed[k] >= policy.staleWindowFor(k))
      && (seen.sign.Some? ==> acc.newestAt.value - seen.sign.value >= policy.staleWindowFor(k))
    ensures var acc := Run(EMPTY, policy, Seen(map[], None), events).0;
      k !in Take(acc, policy).1.value.state
  {
    RunKeepsEarned(EMPTY, policy, Seen(map[], None), events);
  }

  lemma StepKeepsOrderly(acc: Acc, policy: Policy, e: Event, last: int)
    requires Orderly(acc, last) && (e.Arrive? ==> last <= e.ms)
    ensures Orderly(Next(acc, policy, e), if e.Arrive? then e.ms else last)
  {
    if e.Arrive? {
      var next := Apply(acc, policy, e.d, e.ms).0;
      forall k | k in next.slots && next.slots[k].observed.Some?
        ensures next.slots[k].observed.value <= e.ms && next.slots[k].observed.value <= next.slots[k].at
      {
        OrderlySlot(acc, policy, e.d, e.ms, last, k);
      }
    }
  }

  /** Observed no later than `ms`, and than the carry clock. */
  predicate InOrder(e: Entry, ms: int) {
    e.observed.Some? ==> e.observed.value <= ms && e.observed.value <= e.at
  }

  lemma MergedInOrder(acc: Acc, policy: Policy, d: Decoded, ms: int)
    ensures forall k | k in Landing(acc, policy, d, ms) :: InOrder(Landing(acc, policy, d, ms)[k], ms)
    ensures forall k | k in Refreshed(acc, policy, d, ms) :: InOrder(Refreshed(acc, policy, d, ms)[k], ms)
  {
  }

  lemma OrderlySlot(acc: Acc, policy: Policy, d: Decoded, ms: int, last: int, k: Slot)
    requires Orderly(acc, last) && last <= ms
    requires var next := Apply(acc, policy, d, ms).0; k in next.slots && next.slots[k].observed.Some?
    ensures var next := Apply(acc, policy, d, ms).0;
      next.slots[k].observed.value <= ms && next.slots[k].observed.value <= next.slots[k].at
  {
    MergedInOrder(acc, policy, d, ms);
    hide Landing, Refreshed, Judge, ShowsCharging, Heard;
    var slots := acc.slots + Refreshed(acc, policy, d, ms) + Landing(acc, policy, d, ms);
    assert k in slots && InOrder(slots[k], ms);
  }

  /** Arrivals in order, from `first` on and no later than `last`. */
  ghost predicate Arrivals(events: seq<Event>, first: int, last: int)
    decreases |events|
  {
    if events == [] then first <= last
    else match events[0]
      case Emit => Arrivals(events[1..], first, last)
      case Arrive(_, ms) => first <= ms && Arrivals(events[1..], ms, last)
  }

  lemma {:induction false} RunKeepsOrderly(acc: Acc, policy: Policy, seen: Seen, events: seq<Event>, first: int, last: int)
    requires Orderly(acc, first) && Arrivals(events, first, last)
    ensures Orderly(Run(acc, policy, seen, events).0, last)
    decreases |events|
  {
    if events != [] {
      StepKeepsOrderly(acc, policy, events[0], first);
      RunKeepsOrderly(Next(acc, policy, events[0]), policy, See(acc, policy, seen, events[0]), events[1..],
                      if events[0].Arrive? then events[0].ms else first, last);
    }
  }

  /** REPETITION IS NOT NEWS, from the beginning. After any run of arrivals in order, once a stream
      has said `values` and a sample has been taken, its repeating them schedules no other, for as
      long as it goes on. */
  lemma RepeatsAfterATake(policy: Policy, events: seq<Event>, first: int, values: map<Slot, Value>, ms: int, ops: seq<Op>)
    requires Arrivals(events, first, ms) && Steady(policy, values, ms, ops)
    ensures var acc := Run(EMPTY, policy, Seen(map[], None), events).0;
      var sampled := Take(Apply(acc, policy, Resent(values, ms), ms).0, policy).0;
      forall now :: !Due(Repeats(sampled, policy, values, ops), now)
  {
    RunKeepsOrderly(EMPTY, policy, Seen(map[], None), events, first, ms);
    var acc := Run(EMPTY, policy, Seen(map[], None), events).0;
    var said := Apply(acc, policy, Resent(values, ms), ms).0;
    ResendIsHeard(acc, policy, values, ms);
    StepKeepsOrderly(acc, policy, Arrive(Resent(values, ms), ms), ms);
    TakeKeepsHeard(said, policy, values, ms);
    RepetitionIsNotNews(Take(said, policy).0, policy, values, ms, ops);
  }

  // ----- the debounce --------------------------------------------------------------------

  /** One message as `handle` puts it to the accumulator; `None` decodes to nothing. */
  datatype Message = Message(decoded: Option<Decoded>, ms: int)

  /** A sample emitted: its time, and when its burst began. */
  datatype Emission = Emission(ts: int, since: int)

  /** Emit what is due, then apply. */
  function Handle(acc: Acc, policy: Policy, m: Message): (Acc, seq<Emission>) {
    var due := Due(acc, m.ms);
    var emitted := if due then [Emission(acc.newestAt.value, acc.pendingSince.value)] else [];
    var ready := if due then Take(acc, policy).0 else acc;
    (if m.decoded.Some? then Apply(ready, policy, m.decoded.value, m.ms).0 else ready, emitted)
  }

  function HandleAll(acc: Acc, policy: Policy, messages: seq<Message>): (Acc, seq<Emission>)
    decreases |messages|
  {
    if messages == [] then (acc, [])
    else
      var (next, emitted) := Handle(acc, policy, messages[0]);
      var (end, later) := HandleAll(next, policy, messages[1..]);
      (end, emitted + later)
  }

  /** A burst is short and lies between the last emission and the last arrival. */
  ghost predicate Bursting(acc: Acc, emitted: Option<int>, last: int) {
    && (acc.newestAt.Some? ==> acc.newestAt.value <= last)
    && (emitted.Some? ==> emitted.value < last)
    && (acc.pendingSince.Some? ==>
          && acc.newestAt.Some?
          && acc.pendingSince.value <= acc.newestAt.value < acc.pendingSince.value + MAX_SAMPLE_INTERVAL_MS
          && (emitted.Some? ==> emitted.value < acc.pendingSince.value))
  }

  lemma HandleKeepsBursting(acc: Acc, policy: Policy, emitted: Option<int>, last: int, m: Message)
    requires Bursting(acc, emitted, last) && last <= m.ms
    ensures var (next, now) := Handle(acc, policy, m);
      && Bursting(next, if now == [] then emitted else Some(now[0].ts), m.ms)
      && (now != [] ==>
            && |now| == 1
            && now[0].since <= now[0].ts < now[0].since + MAX_SAMPLE_INTERVAL_MS
            && (emitted.Some? ==> emitted.value < now[0].ts))
  {
  }

  ghost predicate Ordered(messages: seq<Message>) {
    forall i, j | 0 <= i < j < |messages| :: messages[i].ms <= messages[j].ms
  }

  lemma {:induction false} HandleAllKeepsBursting(acc: Acc, policy: Policy, emitted: Option<int>, last: int,
                                                  messages: seq<Message>)
    requires Bursting(acc, emitted, last) && Ordered(messages)
    requires forall i | 0 <= i < |messages| :: last <= messages[i].ms
    ensures var (end, all) := HandleAll(acc, policy, messages);
      && (forall i | 0 <= i < |all| :: all[i].since <= all[i].ts < all[i].since + MAX_SAMPLE_INTERVAL_MS)
      && (forall i, j | 0 <= i < j < |all| :: all[i].ts < all[j].ts)
      && (emitted.Some? ==> forall i | 0 <= i < |all| :: emitted.value < all[i].ts)
      && (end.pendingSince.Some? ==>
            end.newestAt.Some? && end.newestAt.value - end.pendingSince.value < MAX_SAMPLE_INTERVAL_MS)
    decreases |messages|
  {
    if messages != [] {
      var (next, now) := Handle(acc, policy, messages[0]);
      HandleKeepsBursting(acc, policy, emitted, last, messages[0]);
      HandleAllKeepsBursting(next, policy, if now == [] then emitted else Some(now[0].ts), messages[0].ms, messages[1..]);
    }
  }

  /** BURSTS ARE SHORT. Over messages that arrive in order, as in a replay, no sample spans the
      ceiling, the pending burst is under it too, and sample times strictly increase. */
  lemma BurstsAreShort(policy: Policy, messages: seq<Message>)
    requires Ordered(messages)
    ensures var (end, all) := HandleAll(EMPTY, policy, messages);
      && (forall i | 0 <= i < |all| :: all[i].since <= all[i].ts < all[i].since + MAX_SAMPLE_INTERVAL_MS)
      && (forall i, j | 0 <= i < j < |all| :: all[i].ts < all[j].ts)
      && (end.pendingSince.Some? ==>
            end.newestAt.Some? && end.newestAt.value - end.pendingSince.value < MAX_SAMPLE_INTERVAL_MS)
  {
    HandleAllKeepsBursting(EMPTY, policy, None, if messages == [] then 0 else messages[0].ms, messages);
  }
}
