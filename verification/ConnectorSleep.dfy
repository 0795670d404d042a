/** A refused session is not retried, unless an answer that comes too late has made the connector
    forget which credential was refused. */
module ConnectorSleep {
  import opened Collections
  import opened Backoffs
  import opened ConnectorModel
  import opened ConnectorRuns
  import opened ConnectorPacing

  /** Refused, and nothing under way. */
  ghost predicate TurnedAway(s: Connector) {
    Free(s) && s.life.Unauthenticated?
  }

  /** Some lifecycle, over by now, still waits for its credential to be read. */
  predicate ReadPending(s: Connector) {
    exists k :: k in s.awaits && s.awaits[k].Reading?
  }

  // ----- a refused connector is free -----------------------------------------------------

  /** An answer that comes to a free connector comes too late. */
  lemma FreeStale(s: Connector, e: Event)
    requires Free(s) && Awaiting(s, e)
    ensures var s2 := Answer(s, e);
      && Free(s2) && s2.life == s.life && s2.log == s.log && s2.stopped == s.stopped
      && (ReadPending(s2) ==> ReadPending(s))
      && (s2.credential == s.credential || s.awaits[e.ticket].Reading?)
  {
    StaleAnswer(s, e);
    var s1 := Redeem(s, e.ticket);
    forall k | k in s1.awaits ensures !Current(s1, s1.awaits[k]) {
      assert !Current(s, s.awaits[k]);
    }
    FreeSame(s1, Answer(s, e));
  }

  /** No socket and no timer of it is left to say anything. */
  lemma FreeHears(s: Connector, e: Event)
    requires TurnedAway(s) && (e.SocketClosed? || e.FrameCame? || e.Refused? || e.TimerFired? || e.SilenceFired?)
    ensures Step(s, Timed(s.now, e)) == s
  {
  }

  predicate SameRefusal(s: Connector, s2: Connector) {
    && s2.life == s.life && s2.log == s.log && s2.awaits == s.awaits && s2.credential == s.credential
    && s2.stopped == s.stopped && s2.epoch == s.epoch && s2.connId == s.connId && s2.timers == s.timers
    && s2.socket == s.socket && s2.silenceTimer == s.silenceTimer && s2.handlers == s.handlers
    && s2.tickets == s.tickets && s2.renewPending == s.renewPending
  }

  /** With no socket there is nothing to renew. */
  lemma NothingRenews(s: Connector, dropped: bool, until: Option<real>)
    requires s.socket.None?
    ensures SameRefusal(s, Enqueue(s, dropped)) && SameRefusal(s, LoadSaved(s, until)) && SameRefusal(s, OnDrained(s))
    ensures SameRefusal(s, MaybeRenew(s.(renewTimer := None)))
  {
  }

  lemma FreeOwn(s: Connector, e: Event)
    requires TurnedAway(s) && (e.RenewFired? || e.Enqueued? || e.QueueDrained? || e.StatusRead?)
    ensures SameRefusal(s, Step(s, Timed(s.now, e)))
  {
    if e.RenewFired? {
      NothingRenews(s, false, None);
    } else if e.QueueDrained? {
      NothingRenews(s, false, None);
    } else {
      NothingRenews(s, if e.Enqueued? then e.dropped else false, if e.StatusRead? then e.until else None);
    }
  }

  lemma FreeStops(s: Connector)
    requires TurnedAway(s)
    ensures var s2 := Step(s, Timed(s.now, Stopped));
      && TurnedAway(s2) && s2.log == s.log && s2.awaits == s.awaits && s2.credential == s.credential
  {
    var s2 := Step(s, Timed(s.now, Stopped));
    forall k | k in s2.awaits ensures !Current(s2, s2.awaits[k]) {
      assert !Current(s, s.awaits[k]);
    }
  }

  /** Of what else happens to it, only a poll changes anything that matters. */
  lemma FreeOther(s: Connector, e: Event)
    requires TurnedAway(s) && !Awaiting(s, e) && !e.Polled?
    ensures var s2 := Step(s, Timed(s.now, e));
      && TurnedAway(s2) && s2.log == s.log && s2.awaits == s.awaits && s2.credential == s.credential
  {
    if e.SocketClosed? || e.FrameCame? || e.Refused? || e.TimerFired? || e.SilenceFired? {
      FreeHears(s, e);
    } else if e.Stopped? {
      FreeStops(s);
    } else if e.RenewFired? || e.Enqueued? || e.QueueDrained? || e.StatusRead? {
      FreeOwn(s, e);
      FreeSame(s, Step(s, Timed(s.now, e)));
    } else {
      NotAwaited(s, e);
    }
  }

  /** A poll that finds the stamp it was refused with leaves it; any other ends the refusal. */
  lemma PolledWhenRefused(s: Connector, stamp: Option<int>)
    requires TurnedAway(s) && !s.stopped
    ensures var s2 := OnStamp(s, stamp);
      if (stamp.Some? && s.credential == Stamped(stamp.value)) || (stamp.None? && s.credential.Absent?)
      then s2 == s else !s2.life.Unauthenticated?
  {
  }

  /** Refused, it is free. */
  ghost predicate Resting(s: Connector) {
    s.life.Unauthenticated? && !s.stopped ==> Free(s)
  }

  /** Once refused it rests until a poll. */
  lemma StaysResting(s: Connector, e: Event)
    requires TurnedAway(s)
    ensures Resting(Step(s, Timed(s.now, e)))
  {
    if Awaiting(s, e) {
      FreeStale(s, e);
      assert Step(s, Timed(s.now, e)) == Answer(s, e);
    } else if !e.Polled? {
      FreeOther(s, e);
    } else if !s.stopped {
      PolledWhenRefused(s, e.stamp);
      assert Step(s, Timed(s.now, e)) == OnStamp(s, e.stamp);
    }
  }

  lemma RefusalFrees(s: Connector)
    requires Ticketed(s)
    ensures Free(Unauthenticate(s))
  {
    HaltFrees(s);
    FreeSame(Halt(s), Unauthenticate(s));
  }

  /** What a lifecycle goes on to is no refusal. */
  lemma GoingOnIsNoRefusal(s: Connector, waited: bool, resume: Resume, draw: Option<real>)
    ensures !Acquire(s, waited).life.Unauthenticated? && !BackOff(s, resume, draw).life.Unauthenticated?
    ensures !Connect(s).life.Unauthenticated? && !FindVehicle(s).life.Unauthenticated?
  {
  }

  lemma InfoRests(s: Connector, account: Account, draw: Option<real>)
    requires Ticketed(s) && !s.life.Unauthenticated?
    ensures Resting(OnInfo(s, s.epoch, account, draw))
  {
    GoingOnIsNoRefusal(s, false, Acquiring, draw);
    RefusalFrees(s);
  }

  lemma EarlierIsNoRefusal(s: Connector, read: Read, ok: bool, draw: Option<real>)
    requires !s.life.Unauthenticated?
    ensures !OnSaved(s, s.epoch).life.Unauthenticated? && !OnRead(s, s.epoch, read).life.Unauthenticated?
    ensures !OnUnsealed(s, s.epoch, ok).life.Unauthenticated? && !OnCsrf(s, s.epoch, ok, draw).life.Unauthenticated?
  {
    GoingOnIsNoRefusal(s, false, Acquiring, draw);
    GoingOnIsNoRefusal(s.(token := Some(s.epoch)), false, Acquiring, draw);
  }

  /** An answer to the lifecycle that runs. */
  lemma AnsweredRests(s: Connector, e: Event)
    requires OneThread(s) && Awaiting(s, e) && Current(s, s.awaits[e.ticket]) && !s.life.Unauthenticated?
    ensures Resting(Answer(s, e))
  {
    var s1 := Redeem(s, e.ticket);
    assert Ticketed(s1);
    match e
    case SavedCame(_, read, until) => EarlierIsNoRefusal(if read then LoadSaved(s1, until) else s1, Row, true, None);
    case ReadCame(_, read) => EarlierIsNoRefusal(s1, read, true, None);
    case UnsealCame(_, ok) => EarlierIsNoRefusal(s1, Row, ok, None);
    case CsrfCame(_, ok, draw) => EarlierIsNoRefusal(s1, Row, ok, draw);
    case InfoCame(_, account, draw) => InfoRests(s1, account, draw);
    case OpenFailed(_, dead, draw) => ClosedRests(s1, Handlers(s.epoch, s.connId), dead, draw);
    case SocketOpened(_) =>
  }

  lemma ClosedRests(s: Connector, h: Handlers, dead: bool, draw: Option<real>)
    requires Ticketed(s) && !s.life.Unauthenticated?
    ensures Resting(OnClosed(s, h, dead, draw)) && Resting(OnRefused(s, h))
  {
    GoingOnIsNoRefusal(DropConnection(s), false, Reconnecting, draw);
    RefusalFrees(DropConnection(s));
    RefusalFrees(s);
  }

  lemma FiredRests(s: Connector, k: nat)
    requires k in s.timers && !s.life.Unauthenticated?
    ensures Resting(OnTimer(s.(timers := s.timers - {k}), s.timers[k]))
  {
    GoingOnIsNoRefusal(s.(timers := s.timers - {k}), true, Acquiring, None);
  }

  /** What ends a socket. */
  lemma EndedRests(s: Connector, e: Event)
    requires Ticketed(s) && Resting(s) && !s.life.Unauthenticated? && (e.SocketClosed? || e.Refused?)
    ensures Resting(Step(s, Timed(s.now, e)))
  {
    hide Resting, Ticketed;
    if e.h !in s.handlers {
      assert Step(s, Timed(s.now, e)) == s;
    } else if e.SocketClosed? {
      ClosedRests(s, e.h, e.dead, e.draw);
      assert Step(s, Timed(s.now, e)) == OnClosed(s, e.h, e.dead, e.draw);
    } else {
      ClosedRests(s, e.h, false, None);
      assert Step(s, Timed(s.now, e)) == OnRefused(s, e.h);
    }
  }

  /** What the socket and the lifecycle's timer say. */
  lemma HandledRests(s: Connector, e: Event)
    requires Ticketed(s) && Resting(s) && !s.life.Unauthenticated?
    requires e.SocketClosed? || e.FrameCame? || e.Refused? || e.TimerFired?
    ensures Resting(Step(s, Timed(s.now, e)))
  {
    hide Resting, Ticketed;
    if e.SocketClosed? || e.Refused? {
      EndedRests(s, e);
    } else if e.FrameCame? && e.h in s.handlers {
      FrameRests(s, e.h, e.dropped);
      assert Step(s, Timed(s.now, e)) == OnFrame(s, e.h, e.dropped);
    } else if e.TimerFired? && e.ticket in s.timers {
      FiredRests(s, e.ticket);
      assert Step(s, Timed(s.now, e)) == OnTimer(s.(timers := s.timers - {e.ticket}), s.timers[e.ticket]);
    } else {
      assert Step(s, Timed(s.now, e)) == s;
    }
  }

  lemma FrameRests(s: Connector, h: Handlers, dropped: bool)
    requires !s.life.Unauthenticated?
    ensures Resting(OnFrame(s, h, dropped))
  {
  }

  lemma StepRests(s: Connector, te: Timed, early: real)
    requires Inv(s, early) && Small(early) && Resting(s) && s.now <= te.at
    ensures Resting(Step(s, te))
  {
    var s1, e := s.(now := te.at), te.event;
    TimePasses(s, te.at, early);
    StepIsNow(s, te);
    if s1.stopped {
      StoppedStep(s1, Timed(te.at, e));
    } else if s1.life.Unauthenticated? {
      FreeSame(s, s1);
      StaysResting(s1, e);
    } else if Awaiting(s1, e) {
      assert Step(s, te) == Answer(s1, e);
      if Current(s1, s1.awaits[e.ticket]) {
        AnsweredRests(s1, e);
      } else {
        StaleAnswer(s1, e);
      }
    } else if e.SocketClosed? || e.FrameCame? || e.Refused? || e.TimerFired? {
      HandledRests(s1, e);
    } else {
      OwnEventLife(s1, e);
    }
  }

  lemma PollIsNoRefusal(s: Connector, stamp: Option<int>)
    requires !s.life.Unauthenticated?
    ensures !OnStamp(s, stamp).life.Unauthenticated?
  {
  }

  lemma RenewalIsNoRefusal(s: Connector)
    ensures MaybeRenew(s).life == s.life && OnDrained(s).life == s.life
  {
  }

  lemma SilenceIsNoRefusal(s: Connector)
    ensures OnSilence(s).life == s.life
  {
    assert RenewAll(s).life == s.life;
    if s.now - s.lastActivity >= SILENCE_MS {
      assert OnSilence(s) == RenewAll(s).(silenceTimer := Some(s.now + SILENCE_MS));
    }
  }

  /** The connector's own doings are no refusal. */
  lemma OwnEventLife(s: Connector, e: Event)
    requires !s.life.Unauthenticated? && !Awaiting(s, e)
    requires !(e.SocketClosed? || e.FrameCame? || e.Refused? || e.TimerFired?)
    ensures !Step(s, Timed(s.now, e)).life.Unauthenticated?
  {
    if e.Polled? {
      PollIsNoRefusal(s, e.stamp);
    } else if e.SilenceFired? {
      SilenceIsNoRefusal(s.(silenceTimer := None));
    } else if e.RenewFired? {
      RenewalIsNoRefusal(s.(renewTimer := None));
    } else if e.QueueDrained? {
      RenewalIsNoRefusal(s);
    } else if e.Enqueued? || e.StatusRead? || e.Stopped? {
      QuietIsNoRefusal(s, e);
    } else {
      NotAwaited(s, e);
    }
  }

  lemma QuietIsNoRefusal(s: Connector, e: Event)
    requires e.Enqueued? || e.StatusRead? || e.Stopped?
    ensures Step(s, Timed(s.now, e)).life == s.life
  {
  }

  lemma {:induction false} RunRests(s: Connector, events: seq<Timed>, early: real)
    requires Inv(s, early) && Small(early) && Resting(s) && AllTimely(s, events, early)
    ensures Resting(Run(s, events))
    decreases |events|
  {
    if events != [] {
      StepInv(s, events[0], early);
      StepRests(s, events[0], early);
      RunRests(Step(s, events[0]), events[1..], early);
    }
  }

  // ----- when it is left alone -----------------------------------------------------------

  /** Every poll finds the same credential. */
  predicate SameStamp(events: seq<Timed>, ms: int) {
    forall te | te in events && te.event.Polled? :: te.event.stamp == Some(ms)
  }

  lemma StepSleeps(s: Connector, te: Timed, ms: int)
    requires TurnedAway(s) && s.credential == Stamped(ms) && !ReadPending(s)
    requires te.event.Polled? ==> te.event.stamp == Some(ms)
    ensures var s2 := Step(s, te);
      TurnedAway(s2) && s2.credential == Stamped(ms) && !ReadPending(s2) && s2.log == s.log
  {
    var s1, e := s.(now := te.at), te.event;
    FreeSame(s, s1);
    StepIsNow(s, te);
    if Awaiting(s1, e) {
      FreeStale(s1, e);
      assert !s1.awaits[e.ticket].Reading?;
      assert Step(s, te) == Answer(s1, e);
    } else if e.Polled? {
      assert Step(s, te) == s1;
    } else {
      FreeOther(s1, e);
    }
  }

  lemma {:induction false} StaysRefused(s: Connector, events: seq<Timed>, ms: int)
    requires TurnedAway(s) && s.credential == Stamped(ms) && !ReadPending(s) && SameStamp(events, ms)
    ensures TurnedAway(Run(s, events)) && Run(s, events).log == s.log
    decreases |events|
  {
    if events != [] {
      assert events[0] in events && forall e | e in events[1..] :: e in events;
      StepSleeps(s, events[0], ms);
      StaysRefused(Step(s, events[0]), events[1..], ms);
    }
  }

  /** A poll that finds a credential it does not know it was refused with starts it again. */
  lemma ForgottenWakes(s: Connector, ms: int)
    requires TurnedAway(s) && !s.stopped && s.credential != Stamped(ms)
    ensures Run(s, [Timed(s.now, Polled(Some(ms)))]).life.Starting?
  {
    var poll := Timed(s.now, Polled(Some(ms)));
    assert [poll][1..] == [];
    assert Run(s, [poll]) == Run(Step(s, poll), []);
  }

  /** The late read fails, and the next poll takes the same credential for a new one. */
  lemma LateReadWakes(s: Connector, k: nat, ms: int)
    requires TurnedAway(s) && !s.stopped && k in s.awaits && s.awaits[k].Reading?
    ensures var events := [Timed(s.now, ReadCame(k, Unread)), Timed(s.now, Polled(Some(ms)))];
      SameStamp(events, ms) && Run(s, events).life.Starting?
  {
    var first, second := Timed(s.now, ReadCame(k, Unread)), Timed(s.now, Polled(Some(ms)));
    var events := [first, second];
    var s1 := Step(s, first);
    assert s1 == Redeem(s, k).(credential := Undecided);
    var s2 := Step(s1, second);
    assert s2.life.Starting?;
    assert events[1..] == [second] && [second][1..] == [];
    assert Run(s1, [second]) == Run(s2, []);
  }

  /** Through any run of polls that find the same credential it stays refused. */
  ghost predicate SleepsThrough(s: Connector, ms: int) {
    forall events | SameStamp(events, ms) :: Run(s, events).life.Unauthenticated?
  }

  /** WHEN A REFUSED SESSION IS LEFT ALONE, in every reachable state: while the credential found is
      that of stamp `ms`, it is if and only if that is the stamp it remembers and no lifecycle that
      is over still waits for its credential to be read. */
  lemma RefusedIsFinalIff(events: seq<Timed>, early: real, ms: int)
    requires Small(early) && AllTimely(NEW, events, early)
    requires Run(NEW, events).life.Unauthenticated? && !Run(NEW, events).stopped
    ensures var s := Run(NEW, events);
      SleepsThrough(s, ms) <==> s.credential == Stamped(ms) && !ReadPending(s)
  {
    var s := Run(NEW, events);
    NewIsSound(early);
    RunRests(NEW, events, early);
    SleepsIff(s, ms);
  }

  lemma SleepsIff(s: Connector, ms: int)
    requires TurnedAway(s) && !s.stopped
    ensures SleepsThrough(s, ms) <==> s.credential == Stamped(ms) && !ReadPending(s)
  {
    if s.credential != Stamped(ms) {
      ForgottenWakes(s, ms);
      assert !Run(s, [Timed(s.now, Polled(Some(ms)))]).life.Unauthenticated?;
    } else if ReadPending(s) {
      var k :| k in s.awaits && s.awaits[k].Reading?;
      LateReadWakes(s, k, ms);
      var events := [Timed(s.now, ReadCame(k, Unread)), Timed(s.now, Polled(Some(ms)))];
      assert !Run(s, events).life.Unauthenticated?;
    } else {
      forall events | SameStamp(events, ms) ensures Run(s, events).life.Unauthenticated? {
        StaysRefused(s, events, ms);
      }
    }
  }

  // ----- both exceptions can be reached --------------------------------------------------

  function Now(e: Event): Timed {
    Timed(0.0, e)
  }

  /** Early in a first session, at no time at all. */
  predicate Stage(s: Connector, epoch: nat, tickets: nat, awaits: map<nat, Await>) {
    && s.now == 0.0 && !s.stopped && s.epoch == epoch == s.connId && s.credential == Stamped(epoch)
    && s.tickets == tickets && s.awaits == awaits && s.reconnectAt == 0.0 && s.timers == map[] && s.handlers == {}
    && s.socket.None? && s.silenceTimer.None? && !s.renewPending
  }

  lemma SignIn(s: Connector, epoch: nat, tickets: nat, awaits: map<nat, Await>)
    requires (s == NEW && epoch == 0 && tickets == 0 && awaits == map[]) || Stage(s, epoch, tickets, awaits)
    requires tickets !in awaits && tickets + 1 !in awaits
    ensures var s1 := Step(s, Now(Polled(Some(epoch + 1))));
      Stage(s1, epoch + 1, tickets + 1, awaits[tickets := Saved(epoch + 1)])
  {
  }

  lemma SavedIsRead(s: Connector, epoch: nat, tickets: nat, awaits: map<nat, Await>, k: nat)
    requires Stage(s, epoch, tickets, awaits[k := Saved(epoch)]) && k !in awaits
    ensures Stage(Step(s, Now(SavedCame(k, true, None))), epoch, tickets + 1, awaits[tickets := Reading(epoch)])
  {
    assert awaits[k := Saved(epoch)] - {k} == awaits;
  }

  lemma Unsealed(s: Connector, epoch: nat, tickets: nat, awaits: map<nat, Await>, k: nat)
    requires Stage(s, epoch, tickets, awaits[k := Reading(epoch)]) && k !in awaits
    ensures Stage(Step(s, Now(ReadCame(k, Row))), epoch, tickets + 1, awaits[tickets := Unsealing(epoch)])
  {
    assert awaits[k := Reading(epoch)] - {k} == awaits;
  }

  lemma Acquired(s: Connector, epoch: nat, tickets: nat, awaits: map<nat, Await>, k: nat)
    requires Stage(s, epoch, tickets, awaits[k := Unsealing(epoch)]) && k !in awaits
    ensures Stage(Step(s, Now(UnsealCame(k, true))), epoch, tickets + 1, awaits[tickets := Csrf(epoch)])
  {
    assert awaits[k := Unsealing(epoch)] - {k} == awaits;
  }

  lemma Asked(s: Connector, epoch: nat, tickets: nat, awaits: map<nat, Await>, k: nat)
    requires Stage(s, epoch, tickets, awaits[k := Csrf(epoch)]) && k !in awaits
    ensures Stage(Step(s, Now(CsrfCame(k, true, None))), epoch, tickets + 1, awaits[tickets := Info(epoch)])
  {
    assert awaits[k := Csrf(epoch)] - {k} == awaits;
  }

  /** Refused at the second sign-in: with the first one's read still pending, or failed already. */
  ghost predicate RefusedAgain(s: Connector, failsFirst: bool) {
    && TurnedAway(s) && !s.stopped
    && (if failsFirst then s.credential.Undecided? && !ReadPending(s)
        else s.credential == Stamped(2) && ReadPending(s))
  }

  lemma RefusedNow(s: Connector)
    requires Stage(s, 2, 7, map[1 := Reading(1)][6 := Info(2)])
    ensures RefusedAgain(Step(s, Now(InfoCame(6, Dead, None))), false)
  {
    var s1 := Step(s, Now(InfoCame(6, Dead, None)));
    assert s1.awaits == map[1 := Reading(1)];
    assert s1.awaits[1].Reading?;
  }

  lemma FailsFirst(s: Connector)
    requires Stage(s, 2, 7, map[1 := Reading(1)][6 := Info(2)])
    ensures Step(s, Now(ReadCame(1, Unread))) == s.(awaits := map[6 := Info(2)], credential := Undecided)
  {
    assert s.awaits - {1} == map[6 := Info(2)];
  }

  lemma RefusedThen(s: Connector)
    requires Stage(s.(credential := Stamped(2)), 2, 7, map[6 := Info(2)]) && s.credential.Undecided?
    ensures RefusedAgain(Step(s, Now(InfoCame(6, Dead, None))), true)
  {
    assert s.awaits - {6} == map[];
  }

  lemma RunsOn(s: Connector, e: Event, events: seq<Timed>)
    requires s.now == 0.0 && !e.TimerFired?
    ensures Run(s, [Now(e)] + events) == Run(Step(s, Now(e)), events)
    ensures AllTimely(s, [Now(e)] + events, 0.0) == AllTimely(Step(s, Now(e)), events, 0.0)
  {
    assert ([Now(e)] + events)[1..] == events;
  }

  /** Two sign-ins in a row, the second refused while the first still reads its credential, or just
      after that has failed: either way the refused credential is tried again. */
  lemma OvertakenReadIsReached(failsFirst: bool) returns (events: seq<Timed>)
    ensures AllTimely(NEW, events, 0.0) && RefusedAgain(Run(NEW, events), failsFirst)
  {
    var s1 := FirstRead();
    var rest := SecondRefused(s1, failsFirst);
    events := [Now(SavedCame(0, true, None))] + rest;
    var s0 := Step(NEW, Now(Polled(Some(1))));
    SignIn(NEW, 0, 0, map[]);
    RunsOn(s0, SavedCame(0, true, None), rest);
    RunsOn(NEW, Polled(Some(1)), events);
    events := [Now(Polled(Some(1)))] + events;
  }

  lemma FirstRead() returns (s: Connector)
    ensures s == Step(Step(NEW, Now(Polled(Some(1)))), Now(SavedCame(0, true, None)))
    ensures Stage(s, 1, 2, map[1 := Reading(1)])
  {
    SignIn(NEW, 0, 0, map[]);
    var s0 := Step(NEW, Now(Polled(Some(1))));
    SavedIsRead(s0, 1, 1, map[], 0);
    s := Step(s0, Now(SavedCame(0, true, None)));
  }

  lemma SecondRefused(s: Connector, failsFirst: bool) returns (events: seq<Timed>)
    requires Stage(s, 1, 2, map[1 := Reading(1)])
    ensures AllTimely(s, events, 0.0) && RefusedAgain(Run(s, events), failsFirst)
  {
    var pending := map[1 := Reading(1)];
    SignIn(s, 1, 2, pending);
    var s1 := Step(s, Now(Polled(Some(2))));
    SavedIsRead(s1, 2, 3, pending, 2);
    var s2 := Step(s1, Now(SavedCame(2, true, None)));
    events := ReadRefused(s2, failsFirst);
    RunsOn(s1, SavedCame(2, true, None), events);
    events := [Now(SavedCame(2, true, None))] + events;
    RunsOn(s, Polled(Some(2)), events);
    events := [Now(Polled(Some(2)))] + events;
  }

  lemma ReadRefused(s: Connector, failsFirst: bool) returns (events: seq<Timed>)
    requires Stage(s, 2, 4, map[1 := Reading(1)][3 := Reading(2)])
    ensures AllTimely(s, events, 0.0) && RefusedAgain(Run(s, events), failsFirst)
  {
    var pending := map[1 := Reading(1)];
    Unsealed(s, 2, 4, pending, 3);
    var s1 := Step(s, Now(ReadCame(3, Row)));
    Acquired(s1, 2, 5, pending, 4);
    var s2 := Step(s1, Now(UnsealCame(4, true)));
    events := AskRefused(s2, failsFirst);
    RunsOn(s1, UnsealCame(4, true), events);
    events := [Now(UnsealCame(4, true))] + events;
    RunsOn(s, ReadCame(3, Row), events);
    events := [Now(ReadCame(3, Row))] + events;
  }

  lemma AskRefused(s: Connector, failsFirst: bool) returns (events: seq<Timed>)
    requires Stage(s, 2, 6, map[1 := Reading(1)][5 := Csrf(2)])
    ensures AllTimely(s, events, 0.0) && RefusedAgain(Run(s, events), failsFirst)
  {
    Asked(s, 2, 6, map[1 := Reading(1)], 5);
    var s1 := Step(s, Now(CsrfCame(5, true, None)));
    var refusal := InfoCame(6, Dead, None);
    events := [Now(refusal)];
    assert events + [] == events;
    if failsFirst {
      FailsFirst(s1);
      var s2 := Step(s1, Now(ReadCame(1, Unread)));
      RefusedThen(s2);
      RunsOn(s2, refusal, []);
      RunsOn(s1, ReadCame(1, Unread), events);
      events := [Now(ReadCame(1, Unread))] + events;
    } else {
      RefusedNow(s1);
      RunsOn(s1, refusal, []);
    }
    RunsOn(s, CsrfCame(5, true, None), events);
    events := [Now(CsrfCame(5, true, None))] + events;
  }
}
