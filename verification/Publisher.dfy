/** The `Publisher` class of apps/rivian/src/publisher.ts, changed in place, proved to do what
    `Delivery` says. `Enqueue` is the connector's: a push, then a pump. */
module Publishers {
  import opened Collections
  import opened Queue
  import opened Delivery
  import Spec = Delivery

  class Publisher {
    const queue: PublishQueue
    var inFlight: Option<Frame>
    var retry: bool
    var ending: bool
    var forced: bool
    /** The calls made of the client, each with its `answered` flag and what the answer was. */
    var calls: seq<Call>
    var drains: nat
    var drainWaiters: set<nat>
    var answers: map<nat, nat>
    var emptied: nat
    /** How many frames were built, and those the queue dropped. */
    var built: nat
    ghost var dropped: seq<Frame>

    ghost predicate Valid()
      reads this, queue
    {
      queue.Valid()
    }

    ghost function View(): Link
      requires Valid()
      reads this, queue
    {
      Link(queue.capBytes, queue.Contents(), inFlight, retry, ending, forced, calls, built, dropped, drains,
           drainWaiters, answers, emptied)
    }

    constructor (queue: PublishQueue)
      requires queue.Valid() && queue.Contents() == []
      ensures this.queue == queue && Valid() && View() == Idle(queue.capBytes)
    {
      this.queue := queue;
      inFlight, retry, ending, forced, calls := None, false, false, false, [];
      drains, drainWaiters, answers, emptied, built, dropped := 0, {}, map[], 0, 0, [];
    }

    method Pump()
      requires Valid()
      modifies this`inFlight, this`calls, queue
      ensures Valid() && View() == Spec.Pump(old(View()))
    {
      if ending || inFlight.Some? || retry {
        return;
      }
      var frame := queue.Shift();
      if frame.None? {
        return;
      }
      inFlight := frame;
      calls := calls + [Call(frame.value, Pending)];
    }

    /** A new frame, pushed and pumped; the number the queue dropped to take it. */
    method Enqueue(topic: string, body: string, bytes: nat) returns (lost: nat)
      requires Valid()
      modifies this`built, this`dropped, this`inFlight, this`calls, queue
      ensures Valid() && View() == Spec.Enqueue(old(View()), topic, body, bytes)
      ensures lost == |dropped| - |old(dropped)|
    {
      var frame := Frame(built, topic, body, bytes);
      ghost var all := queue.Contents() + [frame];
      lost := queue.Push(frame);
      built := built + 1;
      dropped := dropped + all[..lost];
      Pump();
    }

    /** An answer to call `c`. Only the first one counts. */
    method OnAnswer(c: nat, ok: bool)
      requires Valid() && c < |calls|
      modifies this`inFlight, this`calls, this`retry, this`drainWaiters, this`answers, this`emptied, queue
      ensures Valid() && View() == Answer(old(View()), c, ok)
    {
      if !calls[c].outcome.Pending? {
        return;
      }
      var frame := calls[c].frame;
      calls := calls[c := Call(frame, if ok then Acked else Failed)];
      inFlight := None;
      if ok {
        OnAcknowledged();
      } else {
        OnFailed(frame);
      }
    }

    method OnAcknowledged()
      requires Valid()
      modifies this`inFlight, this`calls, this`drainWaiters, this`answers, this`emptied, queue
      ensures Valid() && View() == Acknowledged(old(View()))
    {
      var length := queue.Length();
      if length > 0 {
        Pump();
        return;
      }
      var left := drainWaiters;
      while left != {}
        invariant drainWaiters == left && left <= old(drainWaiters)
        invariant answers == old(answers) + map w | w in old(drainWaiters) && w !in left :: 0
        modifies this`drainWaiters, this`answers
        decreases left
      {
        var w :| w in left;
        left := left - {w};
        drainWaiters := drainWaiters - {w};
        answers := answers[w := 0];
      }
      emptied := emptied + 1;
      assert answers == old(answers) + map w | w in old(drainWaiters) :: 0;
    }

    /** The frame is first in the queue again, and a retry is set. */
    method OnFailed(frame: Frame)
      requires Valid()
      modifies this`retry, queue
      ensures Valid() && View() == PutBack(old(View()), frame)
    {
      queue.Unshift(frame);
      if !ending {
        retry := true;
      }
    }

    method OnRetry()
      requires Valid() && retry
      modifies this`retry, this`inFlight, this`calls, queue
      ensures Valid() && View() == RetryFires(old(View()))
    {
      retry := false;
      Pump();
    }

    method LeftOver() returns (n: nat)
      requires Valid()
      ensures n == Left(View())
    {
      var length := queue.Length();
      return length + if inFlight.Some? then 1 else 0;
    }

    /** Wait for everything owed to be acknowledged; the waiter's number. */
    method Drain() returns (w: nat)
      requires Valid()
      modifies this`drains, this`drainWaiters, this`answers, this`inFlight, this`calls, queue
      ensures Valid() && w == old(drains) && View() == Spec.Drain(old(View()))
    {
      w := drains;
      drains := drains + 1;
      var left := LeftOver();
      if left == 0 {
        answers := answers[w := 0];
        return;
      }
      drainWaiters := drainWaiters + {w};
      Pump();
    }

    method OnDrainTimeout(w: nat)
      requires Valid()
      modifies this`drainWaiters, this`answers
      ensures Valid() && View() == DrainTimesOut(old(View()), w)
    {
      if w in drainWaiters {
        drainWaiters := drainWaiters - {w};
        var left := LeftOver();
        answers := answers[w := left];
      }
    }

    method End()
      requires Valid()
      modifies this`ending, this`retry, this`forced
      ensures Valid() && View() == Spec.End(old(View()))
    {
      if !ending {
        ending := true;
        retry := false;
        forced := inFlight.Some?;
      }
    }
  }
}
