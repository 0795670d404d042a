/** apps/rivian/src/queue.ts: a FIFO of frames whose bytes are capped, oldest dropped first. */
module Queue {
  import opened Collections

  /** One serialised envelope. `serial` is which frame it is: no two that are built are the same. */
  datatype Frame = Frame(serial: nat, topic: string, body: string, bytes: nat)

  function Total(q: seq<Frame>): nat {
    if q == [] then 0 else q[0].bytes + Total(q[1..])
  }

  lemma {:induction false} TotalAppend(q: seq<Frame>, f: Frame)
    ensures Total(q + [f]) == Total(q) + f.bytes
  {
    if q == [] {
      assert q + [f] == [f];
    } else {
      assert (q + [f])[1..] == q[1..] + [f];
      TotalAppend(q[1..], f);
    }
  }

  /** How many of the oldest frames must go for the rest to fit, the newest always staying. */
  function Overflow(q: seq<Frame>, cap: int): nat {
    if Total(q) <= cap || |q| <= 1 then 0 else 1 + Overflow(q[1..], cap)
  }

  /** `k` frames dropped are enough, and no fewer are. */
  ghost predicate IsFewest(q: seq<Frame>, cap: int, k: nat)
    requires q != []
  {
    && k < |q|
    && (Total(q[k..]) <= cap || k == |q| - 1)
    && (forall j | 0 <= j < k :: Total(q[j..]) > cap)
  }

  /** THE FEWEST OLDEST: `Overflow` is enough, and it is the only number that is no more than enough. */
  lemma {:induction false} OverflowIsFewest(q: seq<Frame>, cap: int)
    requires q != []
    ensures IsFewest(q, cap, Overflow(q, cap))
    ensures forall k | IsFewest(q, cap, k) :: k == Overflow(q, cap)
  {
    if Total(q) > cap && |q| > 1 {
      OverflowIsFewest(q[1..], cap);
      var k := Overflow(q, cap);
      assert q[k..] == q[1..][k - 1..];
      forall j | 0 <= j < k ensures Total(q[j..]) > cap {
        assert j > 0 ==> q[j..] == q[1..][j - 1..];
      }
      forall other | IsFewest(q, cap, other) ensures other == k {
        OtherIsFewest(q, cap, other);
      }
    } else {
      assert q[0..] == q;
      forall k | IsFewest(q, cap, k) ensures k == 0 {
      }
    }
  }

  lemma OtherIsFewest(q: seq<Frame>, cap: int, k: nat)
    requires |q| > 1 && Total(q) > cap && IsFewest(q, cap, k)
    ensures k > 0 && IsFewest(q[1..], cap, k - 1)
  {
    assert q[0..] == q;
    assert q[k..] == q[1..][k - 1..];
    forall j | 0 <= j < k - 1 ensures Total(q[1..][j..]) > cap {
      assert q[1..][j..] == q[j + 1..];
    }
  }

  /** The frames in slots from `head` on. */
  function Waiting(slots: seq<Option<Frame>>, head: nat): seq<Frame>
    requires head <= |slots|
    requires forall i | head <= i < |slots| :: slots[i].Some?
  {
    seq(|slots| - head, i requires 0 <= i < |slots| - head => slots[head + i].value)
  }

  /** Cutting the dead prefix off changes nothing that waits. */
  lemma PushOne(slots: seq<Option<Frame>>, head: nat, frame: Frame)
    requires head <= |slots| && forall i | head <= i < |slots| :: slots[i].Some?
    ensures Waiting(slots + [Some(frame)], head) == Waiting(slots, head) + [frame]
  {
  }

  /** Over the cap the oldest goes, and under it nothing more does. */
  lemma OverflowMore(q: seq<Frame>, cap: int)
    ensures if Total(q) <= cap || |q| <= 1 then Overflow(q, cap) == 0 else Overflow(q, cap) == 1 + Overflow(q[1..], cap)
  {
  }

  lemma TakeOne(slots: seq<Option<Frame>>, head: nat)
    requires head < |slots| && forall i | head <= i < |slots| :: slots[i].Some?
    ensures Waiting(slots, head) != [] && Waiting(slots, head)[0] == slots[head].value
    ensures Waiting(slots[head := None], head + 1) == Waiting(slots, head)[1..]
    ensures Total(Waiting(slots, head)) == slots[head].value.bytes + Total(Waiting(slots, head)[1..])
  {
  }

  lemma WaitingCut(slots: seq<Option<Frame>>, head: nat)
    requires head <= |slots| && forall i | head <= i < |slots| :: slots[i].Some?
    ensures Waiting(slots[head..], 0) == Waiting(slots, head)
  {
  }

  lemma WaitingNone(slots: seq<Option<Frame>>)
    ensures Waiting(slots, |slots|) == [] && Waiting([], 0) == []
  {
  }

  /** Most of the array that may be dead: taken slots are cut off once they are many and half of it. */
  const DEAD_PREFIX := 1024

  /** The frames lie in one growing array; those before `head` are gone. */
  class PublishQueue {
    const capBytes: int
    var frames: seq<Option<Frame>>
    var head: nat
    var bytes: int
    /** Frames ever taken, and slots ever copied to cut off a dead prefix. */
    ghost var takes: nat
    ghost var copied: nat

    constructor (capBytes: int)
      ensures this.capBytes == capBytes && Valid() && Contents() == [] && takes == 0 && copied == 0
    {
      this.capBytes := capBytes;
      frames, head, bytes, takes, copied := [], 0, 0, 0, 0;
    }

    /** Taken slots are empty and the rest are not; `bytes` is exact; the dead prefix is short, or
        under half the array; and compaction has copied no more than was taken. */
    ghost predicate Valid()
      reads this
    {
      && head <= |frames|
      && (forall i | 0 <= i < head :: frames[i].None?)
      && (forall i | head <= i < |frames| :: frames[i].Some?)
      && (head == |frames| ==> frames == [])
      && bytes == Total(Waiting(frames, head))
      && (head < DEAD_PREFIX || head * 2 < |frames|)
      && copied + head <= takes
    }

    ghost function Contents(): seq<Frame>
      requires Valid()
      reads this
    {
      Waiting(frames, head)
    }

    method Length() returns (n: nat)
      requires Valid()
      ensures n == |Contents()|
    {
      return |frames| - head;
    }

    /** The frame goes last, and as few of the oldest as need be are dropped for it; how many. */
    method Push(frame: Frame) returns (dropped: nat)
      requires Valid()
      modifies this
      ensures Valid()
      ensures var all := old(Contents()) + [frame];
        dropped == Overflow(all, capBytes) && dropped < |all| && Contents() == all[dropped..]
      ensures takes == old(takes) + dropped
    {
      ghost var all := Contents() + [frame];
      TotalAppend(Contents(), frame);
      OverflowIsFewest(all, capBytes);
      PushOne(frames, head, frame);
      frames := frames + [Some(frame)];
      bytes := bytes + frame.bytes;
      hide Overflow, Total, Waiting, IsFewest;
      dropped := 0;
      while bytes > capBytes && |frames| - head > 1
        invariant Valid() && dropped < |all| && Contents() == all[dropped..]
        invariant dropped + Overflow(Contents(), capBytes) == Overflow(all, capBytes)
        invariant takes == old(takes) + dropped
        decreases |frames| - head
      {
        OverflowMore(Contents(), capBytes);
        var _ := Take();
        dropped := dropped + 1;
      }
    }

    /** Remove the oldest frame. */
    method Shift() returns (frame: Option<Frame>)
      requires Valid()
      modifies this
      ensures Valid()
      ensures frame == if old(Contents()) == [] then None else Some(old(Contents())[0])
      ensures Contents() == if frame.None? then old(Contents()) else old(Contents())[1..]
    {
      frame := Take();
    }

    /** The frame goes first again, whatever the cap. */
    method Unshift(frame: Frame)
      requires Valid()
      modifies this
      ensures Valid() && Contents() == [frame] + old(Contents())
      ensures takes == old(takes)
    {
      ghost var was := Contents();
      if head > 0 {
        head := head - 1;
        frames := frames[head := Some(frame)];
      } else {
        frames := [Some(frame)] + frames;
      }
      bytes := bytes + frame.bytes;
      assert Waiting(frames, head) == [frame] + was;
      assert ([frame] + was)[1..] == was;
    }

    method Take() returns (frame: Option<Frame>)
      requires Valid()
      modifies this
      ensures Valid()
      ensures frame == if old(Contents()) == [] then None else Some(old(Contents())[0])
      ensures Contents() == if frame.None? then old(Contents()) else old(Contents())[1..]
      ensures |frames| - head == |Contents()|
      ensures takes == if frame.None? then old(takes) else old(takes) + 1
    {
      if head >= |frames| {
        return None;
      }
      TakeOne(frames, head);
      ghost var rest := Contents()[1..];
      frame := frames[head];
      frames := frames[head := None];
      head := head + 1;
      bytes := bytes - frame.value.bytes;
      takes := takes + 1;
      WaitingNone(frames);
      hide Waiting, Total;
      if head == |frames| {
        frames := [];
        head := 0;
      } else if head >= DEAD_PREFIX && head * 2 >= |frames| {
        copied := copied + |frames| - head;
        WaitingCut(frames, head);
        frames := frames[head..];
        head := 0;
      }
    }
  }
}
