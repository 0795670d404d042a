/** `FieldAccumulator` (apps/ingest/src/pipeline.ts) on values: how frames merge into slots, what
    counts as news, and the debounce that times samples. Instants are in milliseconds. */
module Accumulator {
  import opened Collections

  const QUIET_PERIOD_MS := 2_000
  const MAX_SAMPLE_INTERVAL_MS := 30_000

  type Slot = string

  /** A field's value; compared structurally. */
  datatype Value = Null | Number(n: real) | Text(s: string) | Flag(b: bool)

  /** What one message contributes. A slot that is absent changes nothing. */
  datatype Decoded = Decoded(
    slots: map<Slot, Value>,
    observedAt: map<Slot, int>,
    arrivalStamped: set<Slot>,
    untimed: nat)

  /** The vendor's part of the policy. */
  datatype Policy = Policy(
    staleWindowFor: Slot -> int,
    chargeStateSlots: seq<Slot>,
    chargingPowerSlots: seq<Slot>,
    chargingEnergySlots: seq<Slot>)

  datatype Entry = Entry(value: Value, at: int, observed: Option<int>)

  /** A slot as the feed last mentioned it, with the arrival of that mention. */
  datatype Said = Said(value: Value, seenAt: int)

  datatype Acc = Acc(
    slots: map<Slot, Entry>,
    arrivals: map<Slot, Said>,
    newestAt: Option<int>,
    pendingSince: Option<int>)

  const EMPTY := Acc(map[], map[], None, None)

  datatype Verdict = Skip | Refresh(entry: Entry) | Land(entry: Entry)

  function Min(a: int, b: int): int { if a <= b then a else b }

  function Max(a: int, b: int): int { if a >= b then a else b }

  /** The instant a slot's value counts as observed: the car's own, clamped to the arrival. */
  function Stamp(d: Decoded, k: Slot, ms: int): int {
    if k in d.observedAt then Min(d.observedAt[k], ms) else ms
  }

  /** The frame adds nothing for this slot: what is held was seen later, or is this very value. */
  predicate Superseded(acc: Acc, d: Decoded, k: Slot, ms: int)
    requires k in d.slots
  {
    && k in d.observedAt && k in acc.slots && acc.slots[k].observed.Some?
    && (Stamp(d, k, ms) < acc.slots[k].observed.value
        || (Stamp(d, k, ms) == acc.slots[k].observed.value && d.slots[k] == acc.slots[k].value))
  }

  /** A slot dated by its arrival is mentioned, be it news or repetition. */
  predicate IsHeard(acc: Acc, d: Decoded, k: Slot, ms: int)
    requires k in d.slots
  {
    !Superseded(acc, d, k, ms) && k in d.arrivalStamped
  }

  predicate Remembered(acc: Acc, policy: Policy, d: Decoded, k: Slot, ms: int)
    requires k in d.slots
  {
    && k in acc.arrivals
    && ms - acc.arrivals[k].seenAt < policy.staleWindowFor(k)
    && d.slots[k] == acc.arrivals[k].value
  }

  predicate EqualsHeld(acc: Acc, d: Decoded, k: Slot)
    requires k in d.slots
  {
    k in acc.slots && d.slots[k] == acc.slots[k].value
  }

  /** What becomes of one slot of a frame. */
  function Judge(acc: Acc, policy: Policy, d: Decoded, k: Slot, ms: int): Verdict
    requires k in d.slots
  {
    var stamp := Stamp(d, k, ms);
    if Superseded(acc, d, k, ms) then Skip
    else if k in d.arrivalStamped && (Remembered(acc, policy, d, k, ms) || EqualsHeld(acc, d, k)) then
      if k in policy.chargeStateSlots then Skip
      else if EqualsHeld(acc, d, k) then
        Refresh(Entry(acc.slots[k].value, Max(acc.slots[k].at, stamp), Some(stamp)))
      else Skip
    else Land(Entry(d.slots[k], stamp, if k in d.observedAt then Some(stamp) else None))
  }

  function Landing(acc: Acc, policy: Policy, d: Decoded, ms: int): map<Slot, Entry> {
    map k | k in d.slots && Judge(acc, policy, d, k, ms).Land? :: Judge(acc, policy, d, k, ms).entry
  }

  function Refreshed(acc: Acc, policy: Policy, d: Decoded, ms: int): map<Slot, Entry> {
    map k | k in d.slots && Judge(acc, policy, d, k, ms).Refresh? :: Judge(acc, policy, d, k, ms).entry
  }

  function Heard(acc: Acc, d: Decoded, ms: int): map<Slot, Said> {
    map k | k in d.slots && IsHeard(acc, d, k, ms) :: Said(d.slots[k], ms)
  }

  /** What lands charges the car: some power over zero, or a counter that has risen. */
  predicate ShowsCharging(slots: map<Slot, Entry>, policy: Policy, landing: map<Slot, Entry>) {
    || (exists k :: k in policy.chargingPowerSlots && k in landing
          && landing[k].value.Number? && landing[k].value.n > 0.0)
    || (exists k :: k in policy.chargingEnergySlots && k in landing && k in slots
          && landing[k].value.Number? && slots[k].value.Number? && landing[k].value.n > slots[k].value.n)
  }

  /** The charge words' windows restarted at `ms`. */
  function Renewed(slots: map<Slot, Entry>, policy: Policy, ms: int): map<Slot, Entry> {
    map k | k in slots :: if k in policy.chargeStateSlots then slots[k].(at := ms) else slots[k]
  }

  /** `apply`. */
  function Apply(acc: Acc, policy: Policy, d: Decoded, ms: int): (Acc, bool) {
    var landing := Landing(acc, policy, d, ms);
    var slots := acc.slots + Refreshed(acc, policy, d, ms);
    var arrivals := acc.arrivals + Heard(acc, d, ms);
    if landing == map[] then (acc.(slots := slots, arrivals := arrivals), false)
    else
      var landed := slots + landing;
      (Acc(if ShowsCharging(slots, policy, landing) then Renewed(landed, policy, ms) else landed,
           arrivals, Some(ms), if acc.pendingSince.Some? then acc.pendingSince else Some(ms)),
       true)
  }

  /** `due`. */
  predicate Due(acc: Acc, now: int) {
    && acc.pendingSince.Some? && acc.newestAt.Some?
    && (now - acc.newestAt.value >= QUIET_PERIOD_MS || now - acc.pendingSince.value >= MAX_SAMPLE_INTERVAL_MS)
  }

  /** The slots still inside their staleness window at `ts`. */
  function Unexpired(slots: map<Slot, Entry>, policy: Policy, ts: int): map<Slot, Entry> {
    map k | k in slots && ts - slots[k].at < policy.staleWindowFor(k) :: slots[k]
  }

  datatype Taken = Taken(state: map<Slot, Value>, ts: int)

  function Carried(slots: map<Slot, Entry>): map<Slot, Value> {
    map k | k in slots :: slots[k].value
  }

  /** `take`. */
  function Take(acc: Acc, policy: Policy): (Acc, Option<Taken>) {
    if acc.newestAt.None? then (acc, None)
    else
      var kept := Unexpired(acc.slots, policy, acc.newestAt.value);
      (acc.(slots := kept, pendingSince := None), Some(Taken(Carried(kept), acc.newestAt.value)))
  }
}
