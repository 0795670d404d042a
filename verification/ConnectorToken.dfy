/** The user session token a lifecycle uses is the one it unsealed itself, unless an unsealing that
    was overtaken comes in later: it is stored before anyone asks whose it is. */
module ConnectorToken {
  import opened Collections
  import opened Backoffs
  import opened ConnectorModel
  import opened ConnectorRuns
  import opened ConnectorPacing
  import opened ConnectorSleep

  /** The token, if there is one, is this lifecycle's. */
  predicate OwnToken(s: Connector) {
    s.token.Some? && !s.stopped ==> s.token.value == s.epoch
  }

  /** An unsealing that succeeds for a lifecycle that is over. */
  predicate LateUnseal(s: Connector, e: Event) {
    e.UnsealCame? && e.ok && Awaiting(s, e) && !Current(s, s.awaits[e.ticket])
  }

  /** The token is kept by the same lifecycle, or forgotten with it. */
  predicate TokenKept(s: Connector, s2: Connector) {
    s2.token.None? || (s2.token == s.token && (s2.stopped || (s2.epoch == s.epoch && !s.stopped)))
  }

  lemma LifecycleKeepsToken(s: Connector, waited: bool, resume: Resume, draw: Option<real>)
    requires !s.stopped
    ensures TokenKept(s, Acquire(s, waited)) && TokenKept(s, BackOff(s, resume, draw))
    ensures TokenKept(s, Connect(s)) && TokenKept(s, FindVehicle(s)) && TokenKept(s, Unauthenticate(s))
  {
  }

  lemma AskingToken(s: Connector, ok: bool, account: Account, draw: Option<real>)
    requires OwnToken(s) && !s.stopped
    ensures OwnToken(OnCsrf(s, s.epoch, ok, draw)) && OwnToken(OnInfo(s, s.epoch, account, draw))
  {
    LifecycleKeepsToken(s, false, Acquiring, draw);
  }

  /** The network's answers to the lifecycle that is running. */
  lemma NetworkToken(s: Connector, e: Event)
    requires OwnToken(s) && Awaiting(s, e) && Current(s, s.awaits[e.ticket])
    requires e.CsrfCame? || e.InfoCame? || e.OpenFailed?
    ensures OwnToken(Answer(s, e))
  {
    var s1 := Redeem(s, e.ticket);
    if e.OpenFailed? {
      LifecycleKeepsToken(DropConnection(s1), false, Reconnecting, e.draw);
    } else {
      AskingToken(s1, if e.CsrfCame? then e.ok else true, if e.InfoCame? then e.account else Dead, e.draw);
    }
  }

  lemma UnsealingToken(s: Connector, ok: bool)
    requires OwnToken(s) && !s.stopped
    ensures OwnToken(OnUnsealed(s, s.epoch, ok))
  {
    LifecycleKeepsToken(s.(token := Some(s.epoch)), false, Acquiring, None);
  }

  /** An unsealing of the lifecycle that is running. */
  lemma UnsealedToken(s: Connector, e: Event)
    requires OwnToken(s) && Awaiting(s, e) && Current(s, s.awaits[e.ticket]) && e.UnsealCame?
    ensures OwnToken(Answer(s, e))
  {
    var s1 := Redeem(s, e.ticket);
    UnsealingToken(s1, e.ok);
    assert Answer(s, e) == OnUnsealed(s1, s.epoch, e.ok);
  }

  lemma OwnAnswerToken(s: Connector, e: Event)
    requires OwnToken(s) && Awaiting(s, e) && Current(s, s.awaits[e.ticket])
    ensures OwnToken(Answer(s, e))
  {
    if e.CsrfCame? || e.InfoCame? || e.OpenFailed? {
      NetworkToken(s, e);
    } else if e.UnsealCame? {
      UnsealedToken(s, e);
    }
  }

  lemma AnswerToken(s: Connector, e: Event)
    requires OwnToken(s) && Awaiting(s, e) && !s.stopped
    ensures OwnToken(Answer(s, e)) <==> !LateUnseal(s, e)
  {
    if Current(s, s.awaits[e.ticket]) {
      OwnAnswerToken(s, e);
    } else {
      StaleAnswer(s, e);
    }
  }

  lemma HandledToken(s: Connector, h: Handlers, dead: bool, dropped: bool, draw: Option<real>)
    requires OwnToken(s)
    ensures OwnToken(OnClosed(s, h, dead, draw)) && OwnToken(OnFrame(s, h, dropped)) && OwnToken(OnRefused(s, h))
  {
    if !s.stopped {
      LifecycleKeepsToken(DropConnection(s), false, Reconnecting, draw);
    }
  }

  lemma FiredToken(s: Connector, k: nat)
    requires OwnToken(s) && k in s.timers
    ensures OwnToken(OnTimer(s.(timers := s.timers - {k}), s.timers[k]))
  {
    if !s.stopped {
      LifecycleKeepsToken(s.(timers := s.timers - {k}), true, Acquiring, None);
    }
  }

  predicate SameToken(s: Connector, s2: Connector) {
    s2.token == s.token && s2.epoch == s.epoch && s2.stopped == s.stopped
  }

  lemma EnqueueKeepsToken(s: Connector, dropped: bool, until: Option<real>)
    ensures SameToken(s, Enqueue(s, dropped)) && SameToken(s, LoadSaved(s, until)) && SameToken(s, RenewAll(s))
  {
  }

  lemma MaybeRenewKeepsToken(s: Connector)
    ensures SameToken(s, MaybeRenew(s))
  {
    EnqueueKeepsToken(s, false, None);
  }

  lemma SilenceKeepsToken(s: Connector)
    ensures SameToken(s, OnSilence(s))
  {
    EnqueueKeepsToken(s, false, None);
    if s.now - s.lastActivity >= SILENCE_MS {
      assert OnSilence(s) == RenewAll(s).(silenceTimer := Some(s.now + SILENCE_MS));
    }
  }

  lemma StampToken(s: Connector, stamp: Option<int>)
    requires OwnToken(s)
    ensures OwnToken(OnStamp(s, stamp))
  {
  }

  lemma OwnEventToken(s: Connector, e: Event)
    requires OwnToken(s) && !Awaiting(s, e)
    requires !(e.SocketClosed? || e.FrameCame? || e.Refused? || e.TimerFired?)
    ensures OwnToken(Step(s, Timed(s.now, e)))
  {
    match e
    case Polled(stamp) => StampToken(s, stamp);
    case SilenceFired => SilenceKeepsToken(s.(silenceTimer := None));
    case RenewFired => MaybeRenewKeepsToken(s.(renewTimer := None));
    case QueueDrained => MaybeRenewKeepsToken(s.(queueEmpty := true));
    case Enqueued(dropped) => EnqueueKeepsToken(s, dropped, None);
    case StatusRead(until) => EnqueueKeepsToken(s, false, until);
    case _ =>
  }

  lemma HandledStepToken(s: Connector, e: Event)
    requires OwnToken(s) && (e.SocketClosed? || e.FrameCame? || e.Refused?)
    ensures OwnToken(Step(s, Timed(s.now, e)))
  {
    hide OwnToken;
    match e
    case SocketClosed(h, dead, draw) => HandledToken(s, h, dead, false, draw);
    case FrameCame(h, dropped) => HandledToken(s, h, false, dropped, None);
    case Refused(h) => HandledToken(s, h, false, false, None);
  }

  lemma OtherToken(s: Connector, e: Event)
    requires OwnToken(s) && !Awaiting(s, e)
    ensures OwnToken(Step(s, Timed(s.now, e)))
  {
    hide OwnToken;
    if e.SocketClosed? || e.FrameCame? || e.Refused? {
      HandledStepToken(s, e);
    } else if e.TimerFired? {
      if e.ticket in s.timers {
        FiredToken(s, e.ticket);
        assert Step(s, Timed(s.now, e)) == OnTimer(s.(timers := s.timers - {e.ticket}), s.timers[e.ticket]);
      }
    } else {
      OwnEventToken(s, e);
    }
  }

  /** WHEN THE TOKEN IS ANOTHER'S: a step leaves the connector with a token that is not its own if
      and only if it is an unsealing come too late. */
  lemma TokenIsOwnIff(s: Connector, te: Timed)
    requires OwnToken(s) && !s.stopped
    ensures OwnToken(Step(s, te)) <==> !LateUnseal(s.(now := te.at), te.event)
  {
    var s1, e := s.(now := te.at), te.event;
    StepIsNow(s, te);
    if Awaiting(s1, e) {
      AnswerToken(s1, e);
      assert Step(s, te) == Answer(s1, e);
    } else {
      OtherToken(s1, e);
    }
  }

  // ----- no call without a token ---------------------------------------------------------

  /** Past the unsealing: asking Rivian something, opening a socket, waiting to, or holding one. */
  predicate Calls(s: Connector) {
    || s.timers != map[] || s.socket.Some?
    || exists k :: k in s.awaits && Current(s, s.awaits[k])
         && (s.awaits[k].Csrf? || s.awaits[k].Info? || s.awaits[k].Opening?)
  }

  /** Whatever is past the unsealing has a token. */
  predicate Equipped(s: Connector) {
    !s.stopped && Calls(s) ==> s.token.Some?
  }

  lemma HaltedIsEquipped(s: Connector)
    requires Ticketed(s)
    ensures Equipped(Begin(s)) && Equipped(SignOut(s)) && Equipped(Unauthenticate(s))
  {
    HaltFrees(s);
    SignOutFrees(s);
    FreeSame(Halt(s), Unauthenticate(s));
    var s1 := Begin(s);
    forall k | k in s1.awaits && Current(s1, s1.awaits[k]) ensures s1.awaits[k].Saved? {
      if k in s.awaits {
        assert !Current(Halt(s), s.awaits[k]);
      }
    }
  }

  lemma SignOutTicketed(s: Connector)
    requires Ticketed(s)
    ensures Ticketed(s.(credential := Absent))
  {
  }

  lemma SignOutFrees(s: Connector)
    requires Ticketed(s)
    ensures Free(SignOut(s))
  {
    hide Ticketed;
    SignOutTicketed(s);
    HaltFrees(s.(credential := Absent));
    FreeSame(Halt(s.(credential := Absent)), SignOut(s));
  }

  lemma SuspendKeeps(s: Connector, resume: Resume, draw: Option<real>)
    ensures SameToken(s, BackOff(s, resume, draw)) && SameToken(s, Schedule(s, VIN_RETRY_MS, resume))
    ensures SameToken(s, FindVehicle(s))
  {
    hide Wait, Max;
  }

  lemma GoingOnKeeps(s: Connector, waited: bool, resume: Resume, draw: Option<real>)
    ensures SameToken(s, Acquire(s, waited)) && SameToken(s, Connect(s)) && SameToken(s, FindVehicle(s))
    ensures SameToken(s, BackOff(s, resume, draw)) && SameToken(s, Schedule(s, VIN_RETRY_MS, resume))
  {
    SuspendKeeps(s, resume, draw);
    hide BackOff, FindVehicle, Max;
  }

  /** A thread that is not yet past the unsealing has come one await further. */
  lemma EarlierIsEquipped(s: Connector, k: nat, a: Await)
    requires OneThread(s) && Equipped(s) && k in s.awaits && Current(s, s.awaits[k])
    requires s.awaits[k].Saved? || s.awaits[k].Reading?
    requires a == Reading(s.epoch) || a == Unsealing(s.epoch)
    ensures Equipped(Redeem(s, k)) && Equipped(Suspend(Redeem(s, k), a))
  {
    var s1, s2 := Redeem(s, k), Suspend(Redeem(s, k), a);
    forall j | j in s1.awaits && Current(s1, s1.awaits[j]) ensures false {
      assert j in s.awaits && Current(s, s.awaits[j]);
    }
    forall j | j in s2.awaits && Current(s2, s2.awaits[j]) ensures s2.awaits[j] == a {
      if j != s.tickets {
        assert j in s1.awaits && Current(s1, s1.awaits[j]);
      }
    }
  }

  lemma SavedEquips(s: Connector, k: nat, read: bool, until: Option<real>)
    requires OneThread(s) && Equipped(s) && k in s.awaits && Current(s, s.awaits[k]) && s.awaits[k].Saved?
    ensures Equipped(OnSaved(if read then LoadSaved(Redeem(s, k), until) else Redeem(s, k), s.epoch))
  {
    EarlierIsEquipped(s, k, Reading(s.epoch));
    var s1 := Suspend(Redeem(s, k), Reading(s.epoch));
    var s2 := OnSaved(if read then LoadSaved(Redeem(s, k), until) else Redeem(s, k), s.epoch);
    SameCalls(s1, s2);
  }

  lemma ReadEquips(s: Connector, k: nat, read: Read)
    requires OneThread(s) && Equipped(s) && k in s.awaits && Current(s, s.awaits[k]) && s.awaits[k].Reading?
    ensures Equipped(OnRead(Redeem(s, k), s.epoch, read))
  {
    EarlierIsEquipped(s, k, Unsealing(s.epoch));
    SameCalls(Redeem(s, k), Redeem(s, k).(credential := Undecided));
    OwnTicketed(s, k);
    HaltedIsEquipped(Redeem(s, k));
  }

  lemma OwnTicketed(s: Connector, k: nat)
    requires Ticketed(s) && k in s.awaits
    ensures Ticketed(Redeem(s, k))
  {
  }

  /** Fields that no call depends on. */
  lemma SameCalls(s: Connector, s2: Connector)
    requires s2.timers == s.timers && s2.socket == s.socket && s2.awaits == s.awaits && s2.epoch == s.epoch
    requires s2.connId == s.connId && s2.stopped == s.stopped && (s2.token == s.token || s2.token.Some?)
    requires Equipped(s)
    ensures Equipped(s2)
  {
    forall k | k in s.awaits ensures Current(s2, s2.awaits[k]) == Current(s, s.awaits[k]) {
    }
  }

  /** With no token yet, the only thread there can be is unsealing. */
  lemma UnsealEquips(s: Connector, k: nat, ok: bool)
    requires OneThread(s) && Equipped(s) && k in s.awaits && Current(s, s.awaits[k]) && s.awaits[k].Unsealing?
    ensures Equipped(OnUnsealed(Redeem(s, k), s.epoch, ok))
  {
    if ok {
      GoingOnKeeps(Redeem(s, k).(token := Some(s.epoch)), false, Acquiring, None);
    } else {
      RedeemEquips(s, k);
      SameCalls(Redeem(s, k), Redeem(s, k).(life := CredentialInvalid));
    }
  }

  lemma RedeemEquips(s: Connector, k: nat)
    requires Equipped(s) && k in s.awaits
    ensures Equipped(Redeem(s, k))
  {
    var s1 := Redeem(s, k);
    if j :| j in s1.awaits && Current(s1, s1.awaits[j]) && (s1.awaits[j].Csrf? || s1.awaits[j].Info? || s1.awaits[j].Opening?) {
      assert j in s.awaits && Current(s, s.awaits[j]);
    }
  }

  lemma AskedEquips(s: Connector, k: nat, ok: bool, account: Account, draw: Option<real>)
    requires OneThread(s) && s.token.Some? && k in s.awaits
    ensures Equipped(OnCsrf(Redeem(s, k), s.epoch, ok, draw)) && Equipped(OnInfo(Redeem(s, k), s.epoch, account, draw))
  {
    OwnTicketed(s, k);
    HaltedIsEquipped(Redeem(s, k));
    GoingOnKeeps(Redeem(s, k), false, Acquiring, draw);
    GoingOnKeeps(Redeem(s, k).(life := WaitingForVehicle), false, LookingAgain, draw);
  }

  lemma DropKeepsTicketed(s: Connector)
    requires Ticketed(s)
    ensures Ticketed(DropConnection(s))
  {
  }

  lemma EndedEquips(s: Connector, h: Handlers, dead: bool, draw: Option<real>)
    requires Ticketed(s) && s.token.Some?
    ensures Equipped(OnClosed(s, h, dead, draw)) && Equipped(OnRefused(s, h))
  {
    hide Ticketed;
    HaltedIsEquipped(s);
    DropKeepsTicketed(s);
    HaltedIsEquipped(DropConnection(s));
    GoingOnKeeps(DropConnection(s), false, Reconnecting, draw);
  }

  lemma OwnAnswerEquips(s: Connector, e: Event)
    requires OneThread(s) && Equipped(s) && Awaiting(s, e) && Current(s, s.awaits[e.ticket])
    ensures Equipped(Answer(s, e))
  {
    var k := e.ticket;
    if e.SavedCame? {
      SavedEquips(s, k, e.read, e.until);
    } else if e.ReadCame? {
      ReadEquips(s, k, e.credential);
    } else if e.UnsealCame? {
      UnsealEquips(s, k, e.ok);
    } else {
      assert Calls(s);
      LaterAnswerEquips(s, e);
    }
  }

  lemma LaterAnswerEquips(s: Connector, e: Event)
    requires OneThread(s) && s.token.Some? && Awaiting(s, e) && Current(s, s.awaits[e.ticket])
    requires !(e.SavedCame? || e.ReadCame? || e.UnsealCame?)
    ensures Equipped(Answer(s, e))
  {
    var k := e.ticket;
    OwnTicketed(s, k);
    if e.CsrfCame? {
      AskedEquips(s, k, e.ok, Dead, e.draw);
    } else if e.InfoCame? {
      AskedEquips(s, k, true, e.account, e.draw);
    } else if e.OpenFailed? {
      EndedEquips(Redeem(s, k), Handlers(s.epoch, s.connId), e.dead, e.draw);
    }
  }

  lemma AnswerEquips(s: Connector, e: Event)
    requires OneThread(s) && Equipped(s) && Awaiting(s, e)
    ensures Equipped(Answer(s, e))
  {
    if Current(s, s.awaits[e.ticket]) {
      OwnAnswerEquips(s, e);
    } else {
      StaleAnswer(s, e);
      RedeemEquips(s, e.ticket);
      SameCalls(Redeem(s, e.ticket), Answer(s, e));
    }
  }

  lemma StampEquips(s: Connector, stamp: Option<int>)
    requires Ticketed(s) && Equipped(s)
    ensures Equipped(OnStamp(s, stamp))
  {
    if stamp.Some? {
      HaltedIsEquipped(s.(credential := Stamped(stamp.value)));
    } else {
      HaltedIsEquipped(s);
    }
  }

  /** A handler that is heard belongs to a socket, up or being opened. */
  lemma ClosedEquips(s: Connector, h: Handlers, dead: bool, draw: Option<real>)
    requires OneThread(s) && Equipped(s) && h in s.handlers
    ensures Equipped(OnClosed(s, h, dead, draw)) && Equipped(OnRefused(s, h))
  {
    if h.conn == s.connId && !s.stopped {
      assert s.socket.Some? || exists k :: k in s.awaits && s.awaits[k] == Opening(h.epoch, h.conn);
      assert Calls(s);
      EndedEquips(s, h, dead, draw);
    } else {
      assert OnClosed(s, h, dead, draw) == s == OnRefused(s, h);
    }
  }

  lemma HandledEquips(s: Connector, e: Event)
    requires OneThread(s) && Equipped(s) && (e.SocketClosed? || e.Refused?) && e.h in s.handlers
    ensures Equipped(Step(s, Timed(s.now, e)))
  {
    hide Equipped, OneThread;
    if e.SocketClosed? {
      ClosedEquips(s, e.h, e.dead, e.draw);
      assert Step(s, Timed(s.now, e)) == OnClosed(s, e.h, e.dead, e.draw);
    } else {
      ClosedEquips(s, e.h, false, None);
      assert Step(s, Timed(s.now, e)) == OnRefused(s, e.h);
    }
  }

  lemma TimerEquips(s: Connector, k: nat)
    requires Equipped(s) && k in s.timers
    ensures Equipped(OnTimer(s.(timers := s.timers - {k}), s.timers[k]))
  {
    var s1 := s.(timers := s.timers - {k});
    if s.stopped {
    } else {
      assert Calls(s);
      GoingOnKeeps(s1, true, Acquiring, None);
    }
  }

  lemma RenewalEquips(s: Connector)
    requires Equipped(s)
    ensures Equipped(MaybeRenew(s)) && Equipped(OnDrained(s)) && Equipped(MaybeRenew(s.(renewTimer := None)))
  {
    SameCalls(s, s.(queueEmpty := true));
    SameCalls(s, s.(renewTimer := None));
    MaybeRenewEquips(s);
    MaybeRenewEquips(s.(queueEmpty := true));
    MaybeRenewEquips(s.(renewTimer := None));
  }

  lemma MaybeRenewEquips(s: Connector)
    requires Equipped(s)
    ensures Equipped(MaybeRenew(s))
  {
    SameCalls(s, MaybeRenew(s));
  }

  lemma SilenceEquips(s: Connector)
    requires Equipped(s)
    ensures Equipped(OnSilence(s.(silenceTimer := None)))
  {
    SilenceKeepsToken(s.(silenceTimer := None));
    SilenceKeepsCalls(s.(silenceTimer := None));
    SameCalls(s, OnSilence(s.(silenceTimer := None)));
  }

  lemma SilenceKeepsCalls(s: Connector)
    ensures var s2 := OnSilence(s);
      && s2.timers == s.timers && s2.socket == s.socket && s2.awaits == s.awaits && s2.connId == s.connId
  {
    if s.now - s.lastActivity >= SILENCE_MS {
      assert OnSilence(s) == RenewAll(s).(silenceTimer := Some(s.now + SILENCE_MS));
    }
  }

  lemma TrafficEquips(s: Connector, h: Handlers, dropped: bool, until: Option<real>)
    requires Equipped(s)
    ensures Equipped(OnFrame(s, h, dropped)) && Equipped(Enqueue(s, dropped)) && Equipped(LoadSaved(s, until))
  {
    var s1 := s.(flowing := true, failures := if s.flowing then s.failures else 0, lastActivity := s.now);
    SameCalls(s, s1);
    EnqueueEquips(s1, dropped);
    EnqueueEquips(s, dropped);
    SameCalls(s, LoadSaved(s, until));
  }

  lemma EnqueueEquips(s: Connector, dropped: bool)
    requires Equipped(s)
    ensures Equipped(Enqueue(s, dropped))
  {
    SameCalls(s, Enqueue(s, dropped));
  }

  /** The connector's own doings, and its timers. */
  lemma OwnEventEquips(s: Connector, e: Event)
    requires Equipped(s) && (e.SilenceFired? || e.RenewFired? || e.QueueDrained? || e.Stopped?)
    ensures Equipped(Step(s, Timed(s.now, e)))
  {
    if e.SilenceFired? {
      SilenceEquips(s);
      assert Step(s, Timed(s.now, e)) == if s.silenceTimer.Some? then OnSilence(s.(silenceTimer := None)) else s;
    } else if !e.Stopped? {
      RenewalEquips(s);
    }
  }

  lemma OtherEquips(s: Connector, e: Event)
    requires OneThread(s) && Equipped(s) && !Awaiting(s, e)
    ensures Equipped(Step(s, Timed(s.now, e)))
  {
    hide Equipped;
    if e.SocketClosed? || e.Refused? {
      if e.h in s.handlers {
        HandledEquips(s, e);
      }
    } else if e.SilenceFired? || e.RenewFired? || e.QueueDrained? || e.Stopped? {
      OwnEventEquips(s, e);
    } else if e.Polled? {
      StampEquips(s, e.stamp);
    } else if e.FrameCame? {
      TrafficEquips(s, e.h, e.dropped, None);
    } else if e.TimerFired? {
      if e.ticket in s.timers {
        TimerEquips(s, e.ticket);
        assert Step(s, Timed(s.now, e)) == OnTimer(s.(timers := s.timers - {e.ticket}), s.timers[e.ticket]);
      }
    } else if e.Enqueued? || e.StatusRead? {
      TrafficEquips(s, Handlers(0, 0), if e.Enqueued? then e.dropped else false, if e.StatusRead? then e.until else None);
    } else {
      NotAwaited(s, e);
    }
  }

  lemma StepEquips(s: Connector, te: Timed, early: real)
    requires Inv(s, early) && Equipped(s) && s.now <= te.at
    ensures Equipped(Step(s, te))
  {
    hide Equipped;
    var s1, e := s.(now := te.at), te.event;
    TimePasses(s, te.at, early);
    StepIsNow(s, te);
    SameCalls(s, s1);
    if Awaiting(s1, e) {
      AnswerEquips(s1, e);
      assert Step(s, te) == Answer(s1, e);
    } else {
      OtherEquips(s1, e);
    }
  }

  // ----- over whole runs -----------------------------------------------------------------

  /** No unsealing in the run comes too late. */
  predicate NoLateUnseal(s: Connector, events: seq<Timed>)
    decreases |events|
  {
    events == []
    || (!LateUnseal(s.(now := events[0].at), events[0].event) && NoLateUnseal(Step(s, events[0]), events[1..]))
  }

  lemma {:induction false} RunKeepsToken(s: Connector, events: seq<Timed>, early: real)
    requires Inv(s, early) && Small(early) && AllTimely(s, events, early) && Equipped(s)
    ensures Equipped(Run(s, events))
    ensures OwnToken(s) && NoLateUnseal(s, events) ==> OwnToken(Run(s, events))
    decreases |events|
  {
    if events != [] {
      StepInv(s, events[0], early);
      StepEquips(s, events[0], early);
      if OwnToken(s) && NoLateUnseal(s, events) {
        if s.stopped {
          StoppedStep(s, events[0]);
        } else {
          TokenIsOwnIff(s, events[0]);
        }
      }
      RunKeepsToken(Step(s, events[0]), events[1..], early);
    }
  }

  /** EVERY CALL HAS ITS OWN TOKEN, over any run in which no unsealing comes too late: a lifecycle that
      asks Rivian something, opens a socket, waits to do so again or holds a socket has a token, and
      it is the one it unsealed itself. */
  lemma TokenStaysOwn(events: seq<Timed>, early: real)
    requires Small(early) && AllTimely(NEW, events, early) && NoLateUnseal(NEW, events)
    ensures var s := Run(NEW, events); !s.stopped && Calls(s) ==> s.token == Some(s.epoch)
  {
    NewIsSound(early);
    RunKeepsToken(NEW, events, early);
  }

  // ----- exactly when, over whole runs ---------------------------------------------------

  /** The token stays the same lifecycle's, or is forgotten with it, or nothing runs any more. */
  predicate KeptOrOver(s: Connector, s2: Connector) {
    (s2.token == s.token && s2.epoch == s.epoch) || (s2.token.None? && s2.epoch > s.epoch) || s2.stopped
  }

  lemma HaltForgets(s: Connector, stamp: Option<int>)
    ensures KeptOrOver(s, Begin(s)) && KeptOrOver(s, SignOut(s)) && KeptOrOver(s, Unauthenticate(s))
    ensures KeptOrOver(s, OnStamp(s, stamp))
  {
  }

  /** Answers of the database, and of the sealed credential when it does not open. */
  lemma StoredKept(s: Connector, epoch: nat, read: Read, until: Option<real>)
    ensures KeptOrOver(s, OnSaved(LoadSaved(s, until), epoch)) && KeptOrOver(s, OnSaved(s, epoch))
    ensures KeptOrOver(s, OnRead(s, epoch, read)) && KeptOrOver(s, OnUnsealed(s, epoch, false))
  {
    HaltForgets(s, None);
    hide SignOut;
  }

  /** Answers of Rivian. */
  lemma AskedKept(s: Connector, epoch: nat, conn: nat, ok: bool, account: Account, draw: Option<real>)
    ensures KeptOrOver(s, OnCsrf(s, epoch, ok, draw)) && KeptOrOver(s, OnInfo(s, epoch, account, draw))
    ensures KeptOrOver(s, OnOpened(s, epoch, conn))
  {
    HaltForgets(s, None);
    GoingOnKeeps(s, false, Acquiring, draw);
    GoingOnKeeps(s.(life := WaitingForVehicle), false, LookingAgain, draw);
    hide Unauthenticate, BackOff, Connect, FindVehicle, Schedule;
  }

  /** A connection that ends. */
  lemma EndKept(s: Connector, h: Handlers, dead: bool, draw: Option<real>)
    ensures KeptOrOver(s, OnClosed(s, h, dead, draw)) && KeptOrOver(s, OnRefused(s, h))
  {
    HaltForgets(s, None);
    HaltForgets(DropConnection(s), None);
    GoingOnKeeps(DropConnection(s), false, Reconnecting, draw);
    hide Unauthenticate, BackOff;
  }

  lemma AnswerKept(s: Connector, e: Event)
    requires Awaiting(s, e) && !(e.UnsealCame? && e.ok)
    ensures KeptOrOver(s, Answer(s, e))
  {
    hide OnSaved, LoadSaved, OnRead, OnUnsealed, OnCsrf, OnInfo, OnOpened, OnClosed;
    var s1, a := Redeem(s, e.ticket), s.awaits[e.ticket];
    match e
    case SavedCame(_, _, until) => StoredKept(s1, a.epoch, Row, until);
    case ReadCame(_, read) => StoredKept(s1, a.epoch, read, None);
    case UnsealCame(_, _) => StoredKept(s1, a.epoch, Row, None);
    case CsrfCame(_, ok, draw) => AskedKept(s1, a.epoch, 0, ok, Dead, draw);
    case InfoCame(_, account, draw) => AskedKept(s1, a.epoch, 0, true, account, draw);
    case SocketOpened(_) => AskedKept(s1, a.epoch, a.conn, true, Dead, None);
    case OpenFailed(_, dead, draw) => EndKept(s1, Handlers(a.epoch, a.conn), dead, draw);
  }

  lemma ToldKept(s: Connector, h: Handlers, dropped: bool, until: Option<real>)
    ensures KeptOrOver(s, OnFrame(s, h, dropped)) && KeptOrOver(s, Enqueue(s, dropped)) && KeptOrOver(s, LoadSaved(s, until))
    ensures KeptOrOver(s, Stop(s))
  {
  }

  lemma TimerKept(s: Connector, t: Timer)
    ensures KeptOrOver(s, OnTimer(s, t))
  {
    GoingOnKeeps(s, true, Acquiring, None);
    hide Acquire, Connect, FindVehicle;
  }

  lemma OtherKept(s: Connector, e: Event)
    requires !Awaiting(s, e)
    ensures KeptOrOver(s, Step(s, Timed(s.now, e)))
  {
    hide OnStamp, OnClosed, OnFrame, OnTimer, OnSilence, MaybeRenew, OnRefused, LoadSaved, Enqueue, Stop;
    var h := Handlers(0, 0);
    match e
    case Polled(stamp) => HaltForgets(s, stamp);
    case SocketClosed(h, dead, draw) => EndKept(s, h, dead, draw);
    case FrameCame(h, dropped) => ToldKept(s, h, dropped, None);
    case Refused(h) => EndKept(s, h, false, None);
    case TimerFired(k) => if k in s.timers { TimerKept(s.(timers := s.timers - {k}), s.timers[k]); }
    case SilenceFired => SilenceKeepsToken(s.(silenceTimer := None));
    case RenewFired => MaybeRenewKeepsToken(s.(renewTimer := None));
    case QueueDrained => MaybeRenewKeepsToken(s.(queueEmpty := true));
    case Enqueued(dropped) => ToldKept(s, h, dropped, None);
    case StatusRead(until) => ToldKept(s, h, false, until);
    case Stopped => ToldKept(s, h, false, None);
    case _ =>
  }

  /** An unsealing that succeeds: whose the token is from then on. */
  predicate Unseals(s: Connector, e: Event) {
    e.UnsealCame? && e.ok && Awaiting(s, e)
  }

  lemma UnsealsTo(s: Connector, e: Event)
    requires Unseals(s, e)
    ensures Answer(s, e).token == Some(s.awaits[e.ticket].epoch) && Answer(s, e).epoch == s.epoch
    ensures Answer(s, e).stopped == s.stopped
  {
    GoingOnKeeps(Redeem(s, e.ticket).(token := Some(s.awaits[e.ticket].epoch)), false, Acquiring, None);
  }

  /** Whether the last unsealing to succeed since the lifecycle began was another lifecycle's. */
  function Overtaken(s: Connector, events: seq<Timed>, before: bool): bool
    decreases |events|
  {
    if events == [] then before
    else
      var s1, next := s.(now := events[0].at), Step(s, events[0]);
      Overtaken(next, events[1..],
        if Unseals(s1, events[0].event) then LateUnseal(s1, events[0].event) else before && next.epoch == s.epoch)
  }

  /** The token is another lifecycle's. */
  predicate ForeignToken(s: Connector) {
    s.token.Some? && s.token.value != s.epoch
  }

  lemma StepIsForeign(s: Connector, te: Timed, before: bool)
    requires Ticketed(s) && (!s.stopped ==> (before <==> ForeignToken(s)))
    ensures var s1, next := s.(now := te.at), Step(s, te);
      !next.stopped ==> ((if Unseals(s1, te.event) then LateUnseal(s1, te.event) else before && next.epoch == s.epoch)
                         <==> ForeignToken(next))
  {
    var s1, e := s.(now := te.at), te.event;
    StepIsNow(s, te);
    StoppedForGood(s1, e);
    if Awaiting(s1, e) {
      assert Step(s, te) == Answer(s1, e);
      if Unseals(s1, e) {
        UnsealsTo(s1, e);
      } else {
        AnswerKept(s1, e);
      }
    } else {
      OtherKept(s1, e);
    }
    hide Step, Answer;
  }

  lemma StoppedForGood(s: Connector, e: Event)
    ensures s.stopped ==> Step(s, Timed(s.now, e)).stopped
  {
  }

  lemma {:induction false} RunIsForeign(s: Connector, events: seq<Timed>, early: real, before: bool)
    requires Inv(s, early) && Small(early) && AllTimely(s, events, early)
    requires !s.stopped ==> (before <==> ForeignToken(s))
    ensures var end := Run(s, events); !end.stopped ==> (Overtaken(s, events, before) <==> ForeignToken(end))
    decreases |events|
  {
    if events != [] {
      var s1, next := s.(now := events[0].at), Step(s, events[0]);
      StepInv(s, events[0], early);
      StepIsForeign(s, events[0], before);
      hide Paced, Step, ForeignToken;
      RunIsForeign(next, events[1..], early,
        if Unseals(s1, events[0].event) then LateUnseal(s1, events[0].event) else before && next.epoch == s.epoch);
    }
  }

  /** WHEN A CALL HAS ITS OWN TOKEN, over any run: whatever asks Rivian something, opens a socket, waits
      to do so again or holds a socket has its lifecycle's own token if and only if no unsealing of
      another has succeeded since its own did. */
  lemma TokenIsOwnSinceIff(events: seq<Timed>, early: real)
    requires Small(early) && AllTimely(NEW, events, early)
    ensures var s := Run(NEW, events);
      !s.stopped && Calls(s) ==> s.token.Some? && (s.token == Some(s.epoch) <==> !Overtaken(NEW, events, false))
  {
    NewIsSound(early);
    RunKeepsToken(NEW, events, early);
    RunIsForeign(NEW, events, early, false);
  }

  // ----- the exception can be reached ----------------------------------------------------

  lemma LateUnsealKeepsStage(s: Connector, awaits: map<nat, Await>, k: nat, tickets: nat)
    requires Stage(s, 2, tickets, awaits[k := Unsealing(1)]) && k !in awaits
    ensures var s1 := Step(s, Now(UnsealCame(k, true))); Stage(s1, 2, tickets, awaits) && s1.token == Some(1)
  {
    assert awaits[k := Unsealing(1)] - {k} == awaits;
  }

  lemma AskedToken(s: Connector)
    requires Stage(s, 2, 7, map[][6 := Csrf(2)]) && s.token == Some(1)
    ensures var s1 := Step(s, Now(CsrfCame(6, true, None)));
      Stage(s1, 2, 8, map[][7 := Info(2)]) && s1.token == Some(1)
  {
    Asked(s, 2, 7, map[], 6);
  }

  /** A second sign-in opens its socket with the first one's token. */
  lemma OvertakenUnsealIsUsed() returns (events: seq<Timed>)
    ensures AllTimely(NEW, events, 0.0)
    ensures var s := Run(NEW, events);
      s.epoch == 2 && s.credential == Stamped(2) && s.life.Connecting? && s.token == Some(1)
  {
    var s1 := FirstRead();
    Unsealed(s1, 1, 2, map[], 1);
    var s2 := Step(s1, Now(ReadCame(1, Row)));
    events := SecondUnseals(s2);
    RunsOn(s1, ReadCame(1, Row), events);
    events := [Now(ReadCame(1, Row))] + events;
    SignIn(NEW, 0, 0, map[]);
    RunsOn(Step(NEW, Now(Polled(Some(1)))), SavedCame(0, true, None), events);
    events := [Now(SavedCame(0, true, None))] + events;
    RunsOn(NEW, Polled(Some(1)), events);
    events := [Now(Polled(Some(1)))] + events;
  }

  lemma SecondUnseals(s: Connector) returns (events: seq<Timed>)
    requires Stage(s, 1, 3, map[][2 := Unsealing(1)])
    ensures AllTimely(s, events, 0.0)
    ensures var end := Run(s, events);
      end.epoch == 2 && end.credential == Stamped(2) && end.life.Connecting? && end.token == Some(1)
  {
    var pending := map[][2 := Unsealing(1)];
    SignIn(s, 1, 3, pending);
    var s1 := Step(s, Now(Polled(Some(2))));
    SavedIsRead(s1, 2, 4, pending, 3);
    var s2 := Step(s1, Now(SavedCame(3, true, None)));
    events := FirstComesLate(s2);
    RunsOn(s1, SavedCame(3, true, None), events);
    events := [Now(SavedCame(3, true, None))] + events;
    RunsOn(s, Polled(Some(2)), events);
    events := [Now(Polled(Some(2)))] + events;
  }

  lemma FirstComesLate(s: Connector) returns (events: seq<Timed>)
    requires Stage(s, 2, 5, map[][2 := Unsealing(1)][4 := Reading(2)])
    ensures AllTimely(s, events, 0.0)
    ensures var end := Run(s, events);
      end.epoch == 2 && end.credential == Stamped(2) && end.life.Connecting? && end.token == Some(1)
  {
    var pending := map[][2 := Unsealing(1)];
    Unsealed(s, 2, 5, pending, 4);
    var s1 := Step(s, Now(ReadCame(4, Row)));
    Acquired(s1, 2, 6, pending, 5);
    var s2 := Step(s1, Now(UnsealCame(5, true)));
    events := OpensWithIt(s2);
    RunsOn(s1, UnsealCame(5, true), events);
    events := [Now(UnsealCame(5, true))] + events;
    RunsOn(s, ReadCame(4, Row), events);
    events := [Now(ReadCame(4, Row))] + events;
  }

  lemma OpensWithIt(s: Connector) returns (events: seq<Timed>)
    requires Stage(s, 2, 7, map[][2 := Unsealing(1)][6 := Csrf(2)])
    ensures AllTimely(s, events, 0.0)
    ensures var end := Run(s, events);
      end.epoch == 2 && end.credential == Stamped(2) && end.life.Connecting? && end.token == Some(1)
  {
    assert s.awaits == map[][6 := Csrf(2)][2 := Unsealing(1)];
    LateUnsealKeepsStage(s, map[][6 := Csrf(2)], 2, 7);
    var s1 := Step(s, Now(UnsealCame(2, true)));
    AskedToken(s1);
    var s2 := Step(s1, Now(CsrfCame(6, true, None)));
    events := [Now(InfoCame(7, Found, None))];
    RunsOn(s2, InfoCame(7, Found, None), []);
    assert events + [] == events;
    RunsOn(s1, CsrfCame(6, true, None), events);
    events := [Now(CsrfCame(6, true, None))] + events;
    RunsOn(s, UnsealCame(2, true), events);
    events := [Now(UnsealCame(2, true))] + events;
  }
}
