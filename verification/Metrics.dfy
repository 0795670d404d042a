/** packages/core/src/engine/metrics.ts: the figures of a session, from its points. Rounding to a
    number of decimals is not part of this model. */
module Metrics {
  import opened Collections
  import opened Segmenter

  datatype Summary = Summary(
    startedAt: Option<int>,
    endedAt: Option<int>,
    distanceKm: Option<real>,
    energyKwh: Option<real>,
    startSocPct: Option<real>,
    endSocPct: Option<real>)

  /** The first reading `pick` finds. */
  function FirstReading(points: seq<Sample>, pick: Sample -> Option<real>): Option<real> {
    if points == [] then None
    else if pick(points[0]).Some? then pick(points[0])
    else FirstReading(points[1..], pick)
  }

  /** The last reading `pick` finds. */
  function LastReading(points: seq<Sample>, pick: Sample -> Option<real>): Option<real> {
    if points == [] then None
    else if pick(points[|points| - 1]).Some? then pick(points[|points| - 1])
    else LastReading(points[..|points| - 1], pick)
  }

  /** What the first and the last reading are: there is one exactly when some point has one, and
      no point before the first, or after the last, has any. */
  lemma {:induction false} FirstReadingIs(points: seq<Sample>, pick: Sample -> Option<real>) returns (i: nat)
    ensures FirstReading(points, pick).None? ==> forall k | 0 <= k < |points| :: pick(points[k]).None?
    ensures FirstReading(points, pick).Some? ==>
      i < |points| && pick(points[i]) == FirstReading(points, pick) && forall k | 0 <= k < i :: pick(points[k]).None?
  {
    i := 0;
    if points != [] && pick(points[0]).None? {
      i := FirstReadingIs(points[1..], pick);
      i := i + 1;
      assert forall k | 1 <= k < |points| :: points[k] == points[1..][k - 1];
    }
  }

  lemma {:induction false} LastReadingIs(points: seq<Sample>, pick: Sample -> Option<real>) returns (i: nat)
    ensures LastReading(points, pick).None? ==> forall k | 0 <= k < |points| :: pick(points[k]).None?
    ensures LastReading(points, pick).Some? ==>
      i < |points| && pick(points[i]) == LastReading(points, pick)
      && forall k | i < k < |points| :: pick(points[k]).None?
  {
    i := 0;
    if points != [] {
      var n := |points| - 1;
      if pick(points[n]).Some? {
        i := n;
      } else {
        i := LastReadingIs(points[..n], pick);
        assert forall k | 0 <= k < n :: points[k] == points[..n][k];
      }
    }
  }

  /** What a charge put in: the counter's rise, or its last reading if it was zeroed meanwhile. */
  function ChargeEnergy(first: Option<real>, last: Option<real>): Option<real> {
    var from := if first.Some? then first.value else 0.0;
    if last.None? then None
    else Some(if last.value >= from then last.value - from else last.value)
  }

  const Soc := (s: Sample) => s.socPct
  const Odometer := (s: Sample) => s.odometerKm
  const EnergyAdded := (s: Sample) => s.chargeEnergyAddedKwh

  /** `summariseSession`. */
  function Summarise(kind: Kind, points: seq<Sample>, capacityKwh: real): Summary {
    var startOdo, endOdo := FirstReading(points, Odometer), LastReading(points, Odometer);
    var startSoc, endSoc := FirstReading(points, Soc), LastReading(points, Soc);
    Summary(
      if points == [] then None else Some(points[0].ts),
      if points == [] then None else Some(points[|points| - 1].ts),
      if startOdo.Some? && endOdo.Some? then Some(endOdo.value - startOdo.value) else None,
      if kind == Charge then ChargeEnergy(FirstReading(points, EnergyAdded), LastReading(points, EnergyAdded))
      else if startSoc.Some? && endSoc.Some? then Some((startSoc.value - endSoc.value) / 100.0 * capacityKwh)
      else None,
      startSoc, endSoc)
  }

  /** A charge has an energy exactly when some point has a counter. It is negative exactly when the
      counter ends below zero and below where it opened: a counter that starts over in the middle
      does not make it so. One that ends at or above where it opened adds up. */
  lemma ChargeEnergyIsAdded(points: seq<Sample>, capacityKwh: real)
    ensures var s := Summarise(Charge, points, capacityKwh);
      var first, last := FirstReading(points, EnergyAdded), LastReading(points, EnergyAdded);
      && (s.energyKwh.Some? <==> exists k :: 0 <= k < |points| && points[k].chargeEnergyAddedKwh.Some?)
      && (s.energyKwh.Some? ==>
            && first.Some? && last.Some?
            && (s.energyKwh.value < 0.0 <==> last.value < first.value && last.value < 0.0)
            && (last.value >= first.value ==> first.value + s.energyKwh.value == last.value))
  {
    var i := FirstReadingIs(points, EnergyAdded);
    var j := LastReadingIs(points, EnergyAdded);
    assert forall k | 0 <= k < |points| :: EnergyAdded(points[k]) == points[k].chargeEnergyAddedKwh;
  }

  /** `firstOf`. */
  method FirstOf(points: seq<Sample>, pick: Sample -> Option<real>) returns (v: Option<real>)
    ensures v == FirstReading(points, pick)
  {
    for i := 0 to |points|
      invariant FirstReading(points[i..], pick) == FirstReading(points, pick)
    {
      v := pick(points[i]);
      if v.Some? {
        return;
      }
      assert points[i..][1..] == points[i + 1..];
    }
    v := None;
  }

  /** `lastOf`. */
  method LastOf(points: seq<Sample>, pick: Sample -> Option<real>) returns (v: Option<real>)
    ensures v == LastReading(points, pick)
  {
    var i := |points| - 1;
    assert points[..|points|] == points;
    while i >= 0
      invariant -1 <= i < |points|
      invariant LastReading(points[..i + 1], pick) == LastReading(points, pick)
    {
      v := pick(points[i]);
      if v.Some? {
        return;
      }
      assert points[..i + 1][..i] == points[..i];
      i := i - 1;
    }
    v := None;
  }
}
