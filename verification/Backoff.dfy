/** apps/rivian/src/backoff.ts: the wait drawn after each failure in a row, in real milliseconds. */
module Backoffs {
  import opened Collections

  const BACKOFF_FLOOR_MS := 30_000.0
  const BACKOFF_CAP_MS := 900_000.0

  function Pow2(n: nat): (p: real)
    ensures p >= 1.0
  {
    if n == 0 then 1.0 else 2.0 * Pow2(n - 1)
  }

  /** What is used of a draw of the jitter source: none if it is not a finite number, else 0 to 1. */
  function Jitter(draw: Option<real>): (j: real)
    ensures 0.0 <= j <= 1.0
  {
    if draw.None? then 0.0
    else if draw.value < 0.0 then 0.0
    else if draw.value > 1.0 then 1.0
    else draw.value
  }

  /** The wait after `attempt` failures in a row. */
  function Wait(attempt: nat, draw: Option<real>): real {
    var wait := BACKOFF_FLOOR_MS * Pow2(attempt) + Jitter(draw) * BACKOFF_FLOOR_MS;
    if wait < BACKOFF_CAP_MS then wait else BACKOFF_CAP_MS
  }

  /** Never below the floor nor above the cap, whatever the source draws. */
  lemma WaitIsBounded(attempt: nat, draw: Option<real>)
    ensures BACKOFF_FLOOR_MS <= Wait(attempt, draw) <= BACKOFF_CAP_MS
  {
    assert BACKOFF_FLOOR_MS * Pow2(attempt) >= BACKOFF_FLOOR_MS;
  }

  /** A later wait is never shorter: the jitter is no wider than what a failure adds. */
  lemma {:induction false} WaitGrows(a: nat, b: nat, first: Option<real>, second: Option<real>)
    requires a < b
    ensures Wait(a, first) <= Wait(b, second)
  {
    if a + 1 < b {
      WaitGrows(a, b - 1, first, second);
      assert Pow2(b) >= Pow2(b - 1);
      assert BACKOFF_FLOOR_MS * Pow2(b) >= BACKOFF_FLOOR_MS * Pow2(b - 1);
    } else {
      assert Pow2(b) == 2.0 * Pow2(a) >= Pow2(a) + 1.0;
      assert Jitter(first) * BACKOFF_FLOOR_MS <= BACKOFF_FLOOR_MS;
      assert Jitter(second) * BACKOFF_FLOOR_MS >= 0.0;
    }
  }

  /** After five failures in a row every wait is the cap. */
  lemma {:induction false} WaitReachesTheCap(attempt: nat, draw: Option<real>)
    requires attempt >= 5
    ensures Wait(attempt, draw) == BACKOFF_CAP_MS
  {
    if attempt == 5 {
      assert Pow2(5) == 2.0 * Pow2(4) == 4.0 * Pow2(3) == 8.0 * Pow2(2) == 16.0 * Pow2(1) == 32.0;
    } else {
      WaitReachesTheCap(attempt - 1, draw);
      WaitGrows(attempt - 1, attempt, draw, draw);
      WaitIsBounded(attempt, draw);
    }
  }

  /** What is asked of a backoff: another wait, or to forget the failures. */
  datatype Ask = Next(draw: Option<real>) | Reset

  /** The waits handed out, in order. */
  function Waits(attempt: nat, asks: seq<Ask>): seq<real>
    decreases |asks|
  {
    if asks == [] then []
    else if asks[0].Reset? then Waits(0, asks[1..])
    else [Wait(attempt, asks[0].draw)] + Waits(attempt + 1, asks[1..])
  }

  /** Over any run each wait is within bounds. */
  lemma {:induction false} WaitsAreBounded(attempt: nat, asks: seq<Ask>)
    ensures forall w | w in Waits(attempt, asks) :: BACKOFF_FLOOR_MS <= w <= BACKOFF_CAP_MS
    decreases |asks|
  {
    if asks != [] {
      if asks[0].Reset? {
        WaitsAreBounded(0, asks[1..]);
      } else {
        WaitIsBounded(attempt, asks[0].draw);
        WaitsAreBounded(attempt + 1, asks[1..]);
      }
    }
  }

  /** WAITS NEVER SHRINK before a reset, whatever the jitter. */
  lemma {:induction false} WaitsNeverShrink(attempt: nat, asks: seq<Ask>)
    requires forall a | a in asks :: a.Next?
    ensures |Waits(attempt, asks)| == |asks|
    ensures forall i | 0 <= i < |asks| :: Waits(attempt, asks)[i] == Wait(attempt + i, asks[i].draw)
    ensures forall i, j | 0 <= i < j < |asks| :: Waits(attempt, asks)[i] <= Waits(attempt, asks)[j]
    decreases |asks|
  {
    if asks != [] {
      assert asks[0] in asks;
      WaitsNeverShrink(attempt + 1, asks[1..]);
      forall j | 0 < j < |asks| ensures Waits(attempt, asks)[0] <= Waits(attempt, asks)[j] {
        WaitGrows(attempt, attempt + j, asks[0].draw, asks[j].draw);
      }
    }
  }

  class Backoff {
    var attempt: nat

    constructor ()
      ensures attempt == 0
    {
      attempt := 0;
    }

    /** One more failure: its wait, for the jitter drawn. */
    method Next(draw: Option<real>) returns (wait: real)
      modifies this
      ensures wait == Wait(old(attempt), draw) && attempt == old(attempt) + 1
      ensures BACKOFF_FLOOR_MS <= wait <= BACKOFF_CAP_MS
    {
      var jitter := if draw.None? then 0.0
        else if draw.value <= 0.0 then 0.0 else if draw.value >= 1.0 then 1.0 else draw.value;
      WaitIsBounded(attempt, draw);
      wait := BACKOFF_FLOOR_MS * Pow2(attempt) + jitter * BACKOFF_FLOOR_MS;
      attempt := attempt + 1;
      if wait > BACKOFF_CAP_MS {
        wait := BACKOFF_CAP_MS;
      }
    }

    method Reset()
      modifies this
      ensures attempt == 0
    {
      attempt := 0;
    }
  }
}
