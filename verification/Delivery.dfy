/** The delivery protocol of apps/rivian/src/publisher.ts: one frame in flight, answers in any order. */
module Delivery {
  import opened Collections
  import opened Queue

  datatype Outcome = Pending | Acked | Failed

  /** One call of the client's `publish`, and the first answer it got. */
  datatype Call = Call(frame: Frame, outcome: Outcome)

  /** The publisher, its queue, and what became of everything. */
  datatype Link = Link(
    cap: int,
    queue: seq<Frame>,
    inFlight: Option<Frame>,
    retry: bool,
    ending: bool,
    forced: bool,
    calls: seq<Call>,
    pushed: nat,
    dropped: seq<Frame>,
    drains: nat,
    waiting: set<nat>,
    answers: map<nat, nat>,
    emptied: nat)

  function Idle(cap: int): Link {
    Link(cap, [], None, false, false, false, [], 0, [], 0, {}, map[], 0)
  }

  // ----- the protocol --------------------------------------------------------------------

  /** What has yet to be delivered, in push order. */
  function Owed(l: Link): seq<Frame> {
    (if l.inFlight.Some? then [l.inFlight.value] else []) + l.queue
  }

  function Left(l: Link): nat {
    |l.queue| + if l.inFlight.Some? then 1 else 0
  }

  /** `pump`: the oldest frame goes out, unless another has or a retry is due. */
  function Pump(l: Link): Link {
    if l.ending || l.inFlight.Some? || l.retry || l.queue == [] then l
    else l.(queue := l.queue[1..], inFlight := Some(l.queue[0]), calls := l.calls + [Call(l.queue[0], Pending)])
  }

  /** A frame pushed at the tail, the fewest oldest making room. */
  function Queued(l: Link, f: Frame): Link {
    var all := l.queue + [f];
    var k := Overflow(all, l.cap);
    if k > |all| then l
    else l.(queue := all[k..], dropped := l.dropped + all[..k], pushed := l.pushed + 1)
  }

  /** `#enqueue`: a new frame, then a pump. */
  function Enqueue(l: Link, topic: string, body: string, bytes: nat): Link {
    Pump(Queued(l, Frame(l.pushed, topic, body, bytes)))
  }

  /** A frame is delivered: the next goes out, or with none left the drains are answered. */
  function Acknowledged(l: Link): Link {
    if l.queue != [] then Pump(l)
    else l.(waiting := {}, answers := l.answers + (map w | w in l.waiting :: 0), emptied := l.emptied + 1)
  }

  /** A frame was not delivered: it is first again, and a retry is pending. */
  function PutBack(l: Link, frame: Frame): Link {
    l.(queue := [frame] + l.queue, retry := l.retry || !l.ending)
  }

  /** The client answers its `c`th call; only the first answer to a call counts. */
  function Answer(l: Link, c: nat, ok: bool): Link {
    if c >= |l.calls| || !l.calls[c].outcome.Pending? then l
    else
      var frame := l.calls[c].frame;
      var l1 := l.(calls := l.calls[c := Call(frame, if ok then Acked else Failed)], inFlight := None);
      if ok then Acknowledged(l1) else PutBack(l1, frame)
  }

  function RetryFires(l: Link): Link {
    if l.retry then Pump(l.(retry := false)) else l
  }

  /** `drain`: answered at once if nothing is owed. */
  function Drain(l: Link): Link {
    var l1 := l.(drains := l.drains + 1);
    if Left(l) == 0 then l1.(answers := l.answers[l.drains := 0])
    else Pump(l1.(waiting := l.waiting + {l.drains}))
  }

  function DrainTimesOut(l: Link, w: nat): Link {
    if w in l.waiting then l.(waiting := l.waiting - {w}, answers := l.answers[w := Left(l)]) else l
  }

  /** `end`: forced if a publish is still out. */
  function End(l: Link): Link {
    if l.ending then l else l.(ending := true, retry := false, forced := l.inFlight.Some?)
  }

  datatype Event =
    | Pushed(topic: string, body: string, bytes: nat)
    | Answered(call: nat, ok: bool)
    | Retried
    | Pumped
    | Drained
    | TimedOut(waiter: nat)
    | Ended

  function Step(l: Link, e: Event): Link {
    match e
    case Pushed(topic, body, bytes) => Enqueue(l, topic, body, bytes)
    case Answered(call, ok) => Answer(l, call, ok)
    case Retried => RetryFires(l)
    case Pumped => Pump(l)
    case Drained => Drain(l)
    case TimedOut(waiter) => DrainTimesOut(l, waiter)
    case Ended => End(l)
  }

  function Run(l: Link, events: seq<Event>): Link
    decreases |events|
  {
    if events == [] then l else Run(Step(l, events[0]), events[1..])
  }

  // ----- the books -----------------------------------------------------------------------

  function AckedCount(calls: seq<Call>): nat {
    if calls == [] then 0
    else AckedCount(calls[..|calls| - 1]) + if calls[|calls| - 1].outcome.Acked? then 1 else 0
  }

  ghost predicate WasAcked(calls: seq<Call>, n: nat) {
    exists c :: c in calls && c.outcome.Acked? && c.frame.serial == n
  }

  ghost predicate Holds(frames: seq<Frame>, n: nat) {
    exists f :: f in frames && f.serial == n
  }

  /** Oldest first, none twice. */
  ghost predicate Rising(frames: seq<Frame>) {
    forall i, j | 0 <= i < j < |frames| :: frames[i].serial < frames[j].serial
  }

  /** Calls go in push order, a frame being called for again only until it is acknowledged. */
  ghost predicate InOrder(calls: seq<Call>) {
    forall i, j | 0 <= i < j < |calls| ::
      && calls[i].frame.serial <= calls[j].frame.serial
      && (calls[i].outcome.Acked? ==> calls[i].frame.serial < calls[j].frame.serial)
  }

  /** Everything owed comes after everything acknowledged, and not before anything called for. */
  ghost predicate Ahead(calls: seq<Call>, owed: seq<Frame>) {
    forall c, f | c in calls && f in owed ::
      c.frame.serial <= f.serial && (c.outcome.Acked? ==> c.frame.serial < f.serial)
  }

  /** Every frame pushed is in one place, and one only. */
  ghost predicate Partition(calls: seq<Call>, dropped: seq<Frame>, owed: seq<Frame>, pushed: nat) {
    && (forall n: nat :: n < pushed <==> WasAcked(calls, n) || Holds(dropped, n) || Holds(owed, n))
    && (forall n: nat :: !(WasAcked(calls, n) && Holds(dropped, n)))
    && (forall n: nat :: !(WasAcked(calls, n) && Holds(owed, n)))
    && (forall n: nat :: !(Holds(dropped, n) && Holds(owed, n)))
    && pushed == AckedCount(calls) + |dropped| + |owed|
  }

  ghost predicate Ordered(calls: seq<Call>, owed: seq<Frame>, pushed: nat) {
    && InOrder(calls) && Rising(owed) && Ahead(calls, owed)
    && (forall c | c in calls :: c.frame.serial < pushed)
  }

  ghost predicate Books(calls: seq<Call>, dropped: seq<Frame>, owed: seq<Frame>, pushed: nat) {
    Ordered(calls, owed, pushed) && Partition(calls, dropped, owed, pushed)
  }

  /** What is owed once the call for the oldest has come to `o`. */
  function OwedAfter(owed: seq<Frame>, o: Outcome): seq<Frame>
    requires owed != []
  {
    if o.Acked? then owed[1..] else owed
  }

  lemma InOrderAfterCall(before: seq<Call>, owed: seq<Frame>, o: Outcome)
    requires InOrder(before) && Ahead(before, owed) && owed != []
    ensures InOrder(before + [Call(owed[0], o)])
  {
    var calls := before + [Call(owed[0], o)];
    assert owed[0] in owed;
    forall i, j | 0 <= i < j < |calls|
      ensures calls[i].frame.serial <= calls[j].frame.serial
      ensures calls[i].outcome.Acked? ==> calls[i].frame.serial < calls[j].frame.serial
    {
      assert calls[i] == before[i] && before[i] in before;
      assert j < |before| ==> calls[j] == before[j];
    }
  }

  /** What is left of a rising list rises, and none of it is before where it was cut. */
  lemma RisingFrom(owed: seq<Frame>, k: nat)
    requires Rising(owed) && k <= |owed| && owed != []
    ensures Rising(owed[k..])
    ensures forall f | f in owed[k..] :: f in owed && owed[0].serial <= f.serial && (k > 0 ==> owed[0].serial < f.serial)
  {
    forall f | f in owed[k..]
      ensures f in owed && owed[0].serial <= f.serial && (k > 0 ==> owed[0].serial < f.serial)
    {
      var i :| k <= i < |owed| && owed[i] == f;
    }
  }

  lemma RestRises(owed: seq<Frame>, o: Outcome)
    requires Rising(owed) && owed != []
    ensures Rising(OwedAfter(owed, o))
    ensures forall f | f in OwedAfter(owed, o) ::
      f in owed && owed[0].serial <= f.serial && (o.Acked? ==> owed[0].serial < f.serial)
  {
    var rest := OwedAfter(owed, o);
    var k := if o.Acked? then 1 else 0;
    assert rest == owed[k..];
    hide OwedAfter;
    RisingFrom(owed, k);
  }

  lemma AheadAfterCall(before: seq<Call>, owed: seq<Frame>, o: Outcome)
    requires Ahead(before, owed) && Rising(owed) && owed != []
    ensures Ahead(before + [Call(owed[0], o)], OwedAfter(owed, o)) && Rising(OwedAfter(owed, o))
  {
    RestRises(owed, o);
    var rest := OwedAfter(owed, o);
    forall c, f | c in before + [Call(owed[0], o)] && f in rest
      ensures c.frame.serial <= f.serial && (c.outcome.Acked? ==> c.frame.serial < f.serial)
    {
      assert f in owed;
      assert c in before || c == Call(owed[0], o);
    }
  }

  /** A call for the oldest frame owed, whatever comes of it, keeps the order. */
  lemma OrderAfterCall(before: seq<Call>, owed: seq<Frame>, pushed: nat, o: Outcome)
    requires Ordered(before, owed, pushed) && owed != [] && owed[0].serial < pushed
    ensures Ordered(before + [Call(owed[0], o)], OwedAfter(owed, o), pushed)
  {
    InOrderAfterCall(before, owed, o);
    AheadAfterCall(before, owed, o);
  }

  /** A call for the oldest frame owed leaves every frame in one place. */
  lemma PlacesAfterCall(before: seq<Call>, dropped: seq<Frame>, owed: seq<Frame>, pushed: nat, o: Outcome)
    requires Partition(before, dropped, owed, pushed) && Rising(owed) && owed != []
    ensures Partition(before + [Call(owed[0], o)], dropped, OwedAfter(owed, o), pushed)
  {
    var calls := before + [Call(owed[0], o)];
    assert calls[..|calls| - 1] == before;
    forall n: nat
      ensures WasAcked(calls, n) <==> WasAcked(before, n) || (o.Acked? && n == owed[0].serial)
      ensures o.Acked? ==> (Holds(owed[1..], n) <==> Holds(owed, n) && n != owed[0].serial)
    {
      OneMoreAcked(before, Call(owed[0], o), n);
      HoldsRest(owed, n);
    }
    assert owed[0] in owed && Holds(owed, owed[0].serial);
  }

  lemma OneMoreAcked(before: seq<Call>, c: Call, n: nat)
    ensures WasAcked(before + [c], n) <==> WasAcked(before, n) || (c.outcome.Acked? && n == c.frame.serial)
  {
    assert c in before + [c];
  }

  lemma HoldsRest(owed: seq<Frame>, n: nat)
    requires owed != [] && Rising(owed)
    ensures Holds(owed[1..], n) <==> Holds(owed, n) && n != owed[0].serial
  {
    if Holds(owed[1..], n) {
      var i :| 0 <= i < |owed[1..]| && owed[1..][i].serial == n;
      assert owed[i + 1] in owed && owed[0].serial < owed[i + 1].serial;
    }
    if Holds(owed, n) && n != owed[0].serial {
      var i :| 0 <= i < |owed| && owed[i].serial == n;
      assert owed[1..][i - 1] == owed[i];
    }
  }

  /** A call still pending may as well not have been made. */
  lemma BeforeCall(before: seq<Call>, f: Frame, dropped: seq<Frame>, owed: seq<Frame>, pushed: nat)
    requires Books(before + [Call(f, Pending)], dropped, owed, pushed)
    ensures Books(before, dropped, owed, pushed)
  {
    var calls := before + [Call(f, Pending)];
    assert calls[..|calls| - 1] == before;
    assert forall i | 0 <= i < |before| :: before[i] == calls[i];
    forall n: nat ensures WasAcked(calls, n) <==> WasAcked(before, n) {
      OneMoreAcked(before, Call(f, Pending), n);
    }
    assert forall c | c in before :: c in calls;
  }

  /** A call for the oldest frame owed changes no book. */
  lemma CallKeepsBooks(calls: seq<Call>, dropped: seq<Frame>, owed: seq<Frame>, pushed: nat, o: Outcome)
    requires Books(calls, dropped, owed, pushed) && owed != []
    ensures Books(calls + [Call(owed[0], o)], dropped, OwedAfter(owed, o), pushed)
  {
    assert owed[0] in owed && Holds(owed, owed[0].serial);
    OrderAfterCall(calls, owed, pushed, o);
    PlacesAfterCall(calls, dropped, owed, pushed, o);
  }

  /** A push adds the newest frame, and moves `k` of the oldest in the queue to the dropped. */
  lemma PushKeepsBooks(calls: seq<Call>, dropped: seq<Frame>, out: seq<Frame>, queue: seq<Frame>, pushed: nat, f: Frame, k: nat)
    requires Books(calls, dropped, out + queue, pushed)
    requires f.serial == pushed && k <= |queue|
    ensures Books(calls, dropped + queue[..k], out + queue[k..] + [f], pushed + 1)
  {
    var owed, gone := out + queue, queue[..k];
    var owed2 := out + queue[k..] + [f];
    forall n: nat ensures Holds(dropped + gone, n) <==> Holds(dropped, n) || Holds(gone, n) {
    }
    forall g | g in owed ensures g.serial < pushed {
      assert Holds(owed, g.serial);
    }
    forall n: nat
      ensures Holds(owed2, n) || Holds(gone, n) <==> Holds(owed, n) || n == pushed
      ensures !(Holds(owed2, n) && Holds(gone, n))
      ensures Holds(gone, n) ==> Holds(owed, n)
    {
      Placed(out, queue, k, f, n);
    }
    forall n: nat | WasAcked(calls, n) ensures n != pushed {
    }
    assert Rising(owed2) by {
      assert forall i | 0 <= i < |owed2| - 1 :: owed2[i] == owed[if i < |out| then i else i + k];
    }
    forall c, g | c in calls && g in owed2
      ensures c.frame.serial <= g.serial && (c.outcome.Acked? ==> c.frame.serial < g.serial)
    {
      if g != f {
        assert g in owed;
      }
    }
  }

  /** Where a frame is once `k` have been dropped from the queue and `f` has joined it. */
  lemma Placed(out: seq<Frame>, queue: seq<Frame>, k: nat, f: Frame, n: nat)
    requires Rising(out + queue) && k <= |queue|
    requires forall g | g in out + queue :: g.serial < f.serial
    ensures Holds(out + queue[k..] + [f], n) || Holds(queue[..k], n) <==> Holds(out + queue, n) || n == f.serial
    ensures !(Holds(out + queue[k..] + [f], n) && Holds(queue[..k], n))
    ensures Holds(queue[..k], n) ==> Holds(out + queue, n)
  {
    StillHeld(out, queue, k, f, n);
    var owed, kept := out + queue, out + queue[k..] + [f];
    if Holds(queue[..k], n) {
      var j :| 0 <= j < k && queue[j].serial == n;
      assert owed[|out| + j] == queue[j];
      forall i | 0 <= i < |kept| ensures kept[i].serial != n {
        assert i < |kept| - 1 ==> kept[i] == owed[if i < |out| then i else i + k];
      }
    }
    if Holds(kept, n) {
      var i :| 0 <= i < |kept| && kept[i].serial == n;
      assert i < |kept| - 1 ==> kept[i] == owed[if i < |out| then i else i + k];
    }
  }

  /** What was owed is kept, or among the `k` that go. */
  lemma StillHeld(out: seq<Frame>, queue: seq<Frame>, k: nat, f: Frame, n: nat)
    requires k <= |queue|
    ensures Holds(out + queue, n) ==> Holds(out + queue[k..] + [f], n) || Holds(queue[..k], n)
    ensures Holds(out + queue[k..] + [f], f.serial)
  {
    var owed, kept := out + queue, out + queue[k..] + [f];
    assert kept[|kept| - 1] == f;
    if Holds(owed, n) {
      var i :| 0 <= i < |owed| && owed[i].serial == n;
      if i < |out| {
        assert kept[i] == owed[i];
      } else if i < |out| + k {
        assert queue[..k][i - |out|] == owed[i];
      } else {
        assert kept[i - k] == owed[i];
      }
    }
  }

  // ----- what every step keeps -----------------------------------------------------------

  /** Only the last call can be unanswered, and it is the one in flight. */
  ghost predicate OneOut(l: Link) {
    && (forall c | 0 <= c < |l.calls| - 1 :: !l.calls[c].outcome.Pending?)
    && (l.inFlight.Some? <==> l.calls != [] && l.calls[|l.calls| - 1].outcome.Pending?)
    && (l.inFlight.Some? ==> l.calls[|l.calls| - 1].frame == l.inFlight.value)
  }

  /** While a retry is set nothing is in flight; and until the end, what waits has one or the other
      to move it on. */
  ghost predicate Moving(l: Link) {
    && !(l.retry && l.inFlight.Some?)
    && !(l.retry && l.ending)
    && (!l.ending && l.queue != [] ==> l.inFlight.Some? || l.retry)
  }

  predicate Fits(q: seq<Frame>, cap: int) {
    Total(q) <= cap || |q| <= 1
  }

  /** The queue fits its cap, but for a frame put back at its head. */
  ghost predicate Bounded(l: Link) {
    && (Fits(l.queue, l.cap) || Fits(l.queue[1..], l.cap))
    && (l.inFlight.Some? ==> Fits(l.queue, l.cap))
  }

  /** A drain waits only while something is owed, and gets one answer. */
  ghost predicate Waiters(l: Link) {
    && (l.waiting != {} ==> Left(l) > 0)
    && (forall w | w in l.waiting :: w < l.drains && w !in l.answers)
    && (forall w | w in l.answers :: w < l.drains)
  }

  ghost predicate Inv(l: Link) {
    OneOut(l) && Moving(l) && Bounded(l) && Waiters(l) && Books(l.calls, l.dropped, Owed(l), l.pushed)
  }

  lemma FitsRest(q: seq<Frame>, cap: int)
    requires q != []
    ensures Fits(q, cap) ==> Fits(q[1..], cap)
  {
  }

  /** As `Inv`, but something may have yet to be moved on. */
  ghost predicate Ready(l: Link) {
    && OneOut(l) && Bounded(l) && Waiters(l)
    && !(l.retry && l.inFlight.Some?) && !(l.retry && l.ending)
    && Books(l.calls, l.dropped, Owed(l), l.pushed)
  }

  lemma PumpMoves(l: Link)
    requires OneOut(l) && Bounded(l) && Waiters(l) && !(l.retry && l.inFlight.Some?) && !(l.retry && l.ending)
    ensures var l2 := Pump(l); OneOut(l2) && Bounded(l2) && Waiters(l2) && Moving(l2)
  {
    if l.queue != [] {
      FitsRest(l.queue, l.cap);
    }
  }

  lemma PumpBooks(l: Link)
    requires Books(l.calls, l.dropped, Owed(l), l.pushed)
    ensures var l2 := Pump(l); Books(l2.calls, l2.dropped, Owed(l2), l2.pushed)
  {
    var l2 := Pump(l);
    assert Owed(l2) == Owed(l);
    if l2 != l {
      assert l2.calls == l.calls + [Call(Owed(l)[0], Pending)];
      CallKeepsBooks(l.calls, l.dropped, Owed(l), l.pushed, Pending);
    }
  }

  /** A pump moves on what may have to be. */
  lemma PumpKeeps(l: Link)
    requires Ready(l)
    ensures Inv(Pump(l))
  {
    PumpMoves(l);
    PumpBooks(l);
  }

  /** The state once the call in flight has been answered, before anything follows from it. */
  function Settled(l: Link, o: Outcome): Link
    requires l.inFlight.Some? && l.calls != []
  {
    l.(calls := l.calls[|l.calls| - 1 := Call(l.inFlight.value, o)], inFlight := None)
  }

  lemma SettledBooks(l: Link, o: Outcome)
    requires OneOut(l) && l.inFlight.Some? && !o.Pending? && Books(l.calls, l.dropped, Owed(l), l.pushed)
    ensures Books(Settled(l, o).calls, l.dropped, if o.Acked? then l.queue else Owed(l), l.pushed)
  {
    var n, f := |l.calls| - 1, l.inFlight.value;
    var before := l.calls[..n];
    assert l.calls == before + [Call(f, Pending)];
    assert Settled(l, o).calls == before + [Call(f, o)];
    assert Owed(l)[1..] == l.queue;
    BeforeCall(before, f, l.dropped, Owed(l), l.pushed);
    CallKeepsBooks(before, l.dropped, Owed(l), l.pushed, o);
  }

  lemma SettledOneOut(l: Link, o: Outcome)
    requires OneOut(l) && l.inFlight.Some? && !o.Pending?
    ensures OneOut(Settled(l, o))
  {
  }

  lemma AckKeeps(l: Link)
    requires Inv(l) && l.inFlight.Some?
    ensures Inv(Acknowledged(Settled(l, Acked)))
  {
    var l1 := Settled(l, Acked);
    SettledBooks(l, Acked);
    SettledOneOut(l, Acked);
    assert Owed(l1) == l.queue;
    if l.queue != [] {
      PumpKeeps(l1);
    } else {
      var l2 := Acknowledged(l1);
      assert Owed(l2) == l.queue;
      assert Books(l2.calls, l2.dropped, Owed(l2), l2.pushed);
    }
  }

  lemma FailKeeps(l: Link)
    requires Inv(l) && l.inFlight.Some?
    ensures Inv(PutBack(Settled(l, Failed), l.inFlight.value))
  {
    SettledBooks(l, Failed);
    SettledOneOut(l, Failed);
    var l2 := PutBack(Settled(l, Failed), l.inFlight.value);
    assert Owed(l2) == Owed(l);
    assert Books(l2.calls, l2.dropped, Owed(l2), l2.pushed);
    assert l2.queue[1..] == l.queue;
  }

  lemma AnswerKeeps(l: Link, c: nat, ok: bool)
    requires Inv(l)
    ensures Inv(Answer(l, c, ok))
  {
    if c < |l.calls| && l.calls[c].outcome.Pending? {
      assert c == |l.calls| - 1;
      if ok {
        AckKeeps(l);
      } else {
        FailKeeps(l);
      }
    }
  }

  lemma PushedSlices(q: seq<Frame>, f: Frame, k: nat, out: seq<Frame>)
    requires k <= |q|
    ensures (q + [f])[..k] == q[..k] && (q + [f])[k..] == q[k..] + [f]
    ensures out + (q[k..] + [f]) == out + q[k..] + [f]
  {
  }

  lemma QueuedIs(l: Link, f: Frame)
    ensures var l1, k := Queued(l, f), Overflow(l.queue + [f], l.cap);
      && k <= |l.queue| && l1.queue != [] && Fits(l1.queue, l.cap)
      && l1 == l.(queue := l.queue[k..] + [f], dropped := l.dropped + l.queue[..k], pushed := l.pushed + 1)
      && Owed(l1) == (if l.inFlight.Some? then [l.inFlight.value] else []) + l.queue[k..] + [f]
  {
    var all := l.queue + [f];
    var k := Overflow(all, l.cap);
    OverflowIsFewest(all, l.cap);
    assert k < |all| && Fits(all[k..], l.cap);
    assert Queued(l, f) == l.(queue := all[k..], dropped := l.dropped + all[..k], pushed := l.pushed + 1);
    hide Overflow, Total, IsFewest, Queued, Fits;
    PushedSlices(l.queue, f, k, if l.inFlight.Some? then [l.inFlight.value] else []);
  }

  lemma EnqueueKeeps(l: Link, topic: string, body: string, bytes: nat)
    requires Inv(l)
    ensures Inv(Enqueue(l, topic, body, bytes))
  {
    var f := Frame(l.pushed, topic, body, bytes);
    QueuedIs(l, f);
    PushKeepsBooks(l.calls, l.dropped, if l.inFlight.Some? then [l.inFlight.value] else [], l.queue, l.pushed, f,
                   Overflow(l.queue + [f], l.cap));
    PumpKeeps(Queued(l, f));
  }

  /** The frames are where they were. */
  predicate SameFrames(l: Link, l1: Link) {
    && l1.cap == l.cap && l1.queue == l.queue && l1.inFlight == l.inFlight && l1.calls == l.calls
    && l1.dropped == l.dropped && l1.pushed == l.pushed
  }

  lemma SameBooks(l: Link, l1: Link)
    requires SameFrames(l, l1) && Inv(l)
    ensures OneOut(l1) && Bounded(l1) && Books(l1.calls, l1.dropped, Owed(l1), l1.pushed)
  {
    assert Owed(l1) == Owed(l);
  }

  /** A drain that waits, before the pump. */
  lemma WaitingKeeps(l: Link, l1: Link)
    requires Inv(l) && Left(l) > 0 && l1 == l.(drains := l.drains + 1, waiting := l.waiting + {l.drains})
    ensures Ready(l1)
  {
    SameBooks(l, l1);
  }

  lemma DrainKeeps(l: Link)
    requires Inv(l)
    ensures Inv(Drain(l))
  {
    if Left(l) > 0 {
      var l1 := l.(drains := l.drains + 1, waiting := l.waiting + {l.drains});
      WaitingKeeps(l, l1);
      PumpKeeps(l1);
    } else {
      SameBooks(l, Drain(l));
    }
  }

  lemma TimeoutKeeps(l: Link, w: nat)
    requires Inv(l)
    ensures Inv(DrainTimesOut(l, w))
  {
    SameBooks(l, DrainTimesOut(l, w));
  }

  lemma EndKeeps(l: Link)
    requires Inv(l)
    ensures Inv(End(l))
  {
    SameBooks(l, End(l));
  }

  lemma RetryKeeps(l: Link)
    requires Inv(l)
    ensures Inv(RetryFires(l))
  {
    if l.retry {
      assert Owed(l.(retry := false)) == Owed(l);
      PumpKeeps(l.(retry := false));
    }
  }

  lemma StepKeeps(l: Link, e: Event)
    requires Inv(l)
    ensures Inv(Step(l, e))
  {
    match e
    case Pushed(topic, body, bytes) => EnqueueKeeps(l, topic, body, bytes);
    case Answered(call, ok) => AnswerKeeps(l, call, ok);
    case Retried => RetryKeeps(l);
    case Pumped => PumpKeeps(l);
    case Drained => DrainKeeps(l);
    case TimedOut(waiter) => TimeoutKeeps(l, waiter);
    case Ended => EndKeeps(l);
  }

  lemma {:induction false} RunKeeps(l: Link, events: seq<Event>)
    requires Inv(l)
    ensures Inv(Run(l, events))
    decreases |events|
  {
    if events != [] {
      StepKeeps(l, events[0]);
      RunKeeps(Step(l, events[0]), events[1..]);
    }
  }

  lemma IdleIsSound(cap: int)
    ensures Inv(Idle(cap))
  {
  }

  // ----- the theorems --------------------------------------------------------------------

  /** DELIVERY. Whatever the broker, the timers and the frames do: every frame pushed is acknowledged,
      reported dropped, or still owed, and only one of the three; publishes go in push order, so that
      what is acknowledged is in order and never acknowledged twice; a retry and a publish are never
      both out; and until the end a frame that waits has one or the other to move it on. */
  lemma DeliveryIsSound(cap: int, events: seq<Event>)
    ensures var l := Run(Idle(cap), events);
      && Partition(l.calls, l.dropped, Owed(l), l.pushed)
      && l.pushed == AckedCount(l.calls) + |l.dropped| + Left(l)
      && InOrder(l.calls) && Rising(Owed(l))
      && !(l.retry && l.inFlight.Some?)
      && (!l.ending && l.queue != [] ==> l.inFlight.Some? || l.retry)
  {
    IdleIsSound(cap);
    RunKeeps(Idle(cap), events);
  }

  /** The memory is bounded: only a frame put back at the head, or one alone, can be past the cap. */
  lemma MemoryIsBounded(cap: int, events: seq<Event>)
    ensures var q := Run(Idle(cap), events).queue;
      Total(q) <= cap || |q| <= 2 || Total(q[1..]) <= cap
  {
    IdleIsSound(cap);
    RunKeeps(Idle(cap), events);
    CapStays(Idle(cap), events);
  }

  lemma {:induction false} CapStays(l: Link, events: seq<Event>)
    ensures Run(l, events).cap == l.cap
    decreases |events|
  {
    if events != [] {
      CapStays(Step(l, events[0]), events[1..]);
    }
  }

  /** Any further answer to a call is ignored. */
  lemma DuplicateAnswersAreIgnored(l: Link, c: nat, ok: bool, again: bool)
    ensures Answer(Answer(l, c, ok), c, again) == Answer(l, c, ok)
  {
  }

  /** Whoever drains is told what is owed at that moment, and is told nothing is when nothing is. */
  lemma DrainsAreToldTheTruth(l: Link, e: Event, w: nat)
    requires Inv(l) && w !in l.answers && w in Step(l, e).answers
    ensures var l2 := Step(l, e);
      && l2.answers[w] == Left(l2) == l2.pushed - AckedCount(l2.calls) - |l2.dropped|
      && (!e.TimedOut? ==> Left(l2) == 0)
  {
    StepKeeps(l, e);
    Tally(Step(l, e));
    NewAnswer(l, e, w);
  }

  lemma Tally(l: Link)
    requires Inv(l)
    ensures Left(l) == l.pushed - AckedCount(l.calls) - |l.dropped|
  {
    assert Left(l) == |Owed(l)|;
  }

  /** Only a drain, its time, or the last acknowledgement gives an answer. */
  lemma NewAnswer(l: Link, e: Event, w: nat)
    requires OneOut(l) && w !in l.answers && w in Step(l, e).answers
    ensures Step(l, e).answers[w] == Left(Step(l, e)) && (!e.TimedOut? ==> Left(Step(l, e)) == 0)
  {
  }

  /** The queue is reported empty exactly when the last frame owed has just been acknowledged. */
  lemma EmptyIsReported(l: Link, e: Event)
    requires Inv(l)
    ensures Step(l, e).emptied == l.emptied + if Left(l) > 0 && Left(Step(l, e)) == 0 then 1 else 0
  {
    if e.Pushed? {
      QueuedIs(l, Frame(l.pushed, e.topic, e.body, e.bytes));
    }
  }

  /** Once it has ended, nothing is published. */
  lemma {:induction false} NothingAfterTheEnd(l: Link, events: seq<Event>)
    requires l.ending
    ensures var l2 := Run(l, events); l2.ending && |l2.calls| == |l.calls| && l2.forced == l.forced
    decreases |events|
  {
    if events != [] {
      NothingAfterTheEnd(Step(l, events[0]), events[1..]);
    }
  }

  /** What moves the publisher on: its retry timer, or the broker taking what is in flight. */
  function Helped(l: Link, n: nat): Link
    decreases n
  {
    if n == 0 then l
    else Helped(Step(l, if l.retry then Retried else Answered(if l.calls == [] then 0 else |l.calls| - 1, true)), n - 1)
  }

  function Effort(l: Link): nat {
    Left(l) + if l.retry then 1 else 0
  }

  /** IT ALL GETS THROUGH: once the broker answers, each step moves one frame on, and everything owed
      is acknowledged with nothing more dropped. */
  lemma {:induction false} AllGetsThrough(l: Link)
    requires Inv(l) && !l.ending
    ensures var l2 := Helped(l, Effort(l));
      && Left(l2) == 0 && l2.pushed == l.pushed && l2.dropped == l.dropped
      && AckedCount(l2.calls) == AckedCount(l.calls) + Left(l)
    decreases Effort(l)
  {
    assert Left(l) == |Owed(l)|;
    if Effort(l) > 0 {
      var e := if l.retry then Retried else Answered(if l.calls == [] then 0 else |l.calls| - 1, true);
      var l1 := Step(l, e);
      StepKeeps(l, e);
      assert Left(l1) == |Owed(l1)|;
      HelpedOnce(l);
      AllGetsThrough(l1);
    }
  }

  lemma HelpedOnce(l: Link)
    requires Inv(l) && !l.ending && Effort(l) > 0
    ensures var l1 := Step(l, if l.retry then Retried else Answered(if l.calls == [] then 0 else |l.calls| - 1, true));
      && Effort(l1) == Effort(l) - 1 && !l1.ending && l1.pushed == l.pushed && l1.dropped == l.dropped
      && Left(l1) == Left(l) - if l.retry then 0 else 1
  {
    if !l.retry {
      assert l.inFlight.Some?;
    }
  }
}
