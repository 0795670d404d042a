/** What the connector promises: it never storms Rivian, never stalls, and sleeps once refused. */
module ConnectorPacing {
  import opened Collections
  import opened Backoffs
  import opened ConnectorModel
  import opened ConnectorRuns

  // ----- pacing --------------------------------------------------------------------------

  /** EVERY FAILURE IS WAITED OUT. After any failure, no socket is opened before the
      wait it drew is over, and that is 30 s at least: through any number of new credentials, lifecycles
      overtaken and answers that come too late. Timers may fire up to `early` before they are due. */
  lemma NothingReconnectsFaster(events: seq<Timed>, early: real, i: nat, j: nat)
    requires Small(early) && AllTimely(NEW, events, early)
    requires i < j < |Run(NEW, events).log|
    requires Run(NEW, events).log[i].Failure? && Run(NEW, events).log[j].OpenedSocket?
    ensures var log := Run(NEW, events).log;
      log[j].at + early >= log[i].until >= log[i].at + BACKOFF_FLOOR_MS
  {
    NewIsSound(early);
    RunInv(NEW, events, early);
  }

  /** RENEWALS ARE A MINUTE APART, though silence and overflow ask for them independently, on one
      socket or across several. */
  lemma RenewalsAreApart(events: seq<Timed>, early: real, i: nat, j: nat)
    requires Small(early) && AllTimely(NEW, events, early)
    requires i < j < |Run(NEW, events).log|
    requires Run(NEW, events).log[i].Renewal? && Run(NEW, events).log[j].Renewal?
    ensures var log := Run(NEW, events).log; log[j].at >= log[i].at + MIN_RENEW_INTERVAL_MS
  {
    NewIsSound(early);
    RunInv(NEW, events, early);
  }

  /** A RENEWAL ASKED FOR IS NOT LOST: it is held for a socket, and once the queue has emptied a timer
      is set for it. */
  lemma RenewalsAreNotLost(events: seq<Timed>, early: real)
    requires Small(early) && AllTimely(NEW, events, early)
    ensures var s := Run(NEW, events);
      s.renewPending && !s.stopped ==> s.socket.Some? && (s.queueEmpty ==> s.renewTimer.Some?)
  {
    NewIsSound(early);
    RunInv(NEW, events, early);
  }

  /** An answer for a lifecycle that is over moves nothing but what was read, and the stamp and the
      token, which are written without asking. */
  lemma StaleAnswer(s: Connector, e: Event)
    requires Awaiting(s, e) && !Current(s, s.awaits[e.ticket])
    ensures var s1, epoch := Redeem(s, e.ticket), s.awaits[e.ticket].epoch;
      Answer(s, e) ==
        match e
        case SavedCame(_, read, until) => if read then LoadSaved(s1, until) else s1
        case ReadCame(_, credential) => if credential.Unread? then s1.(credential := Undecided) else s1
        case UnsealCame(_, ok) => if ok then s1.(token := Some(epoch)) else s1
        case _ => s1
  {
  }

  lemma StoppedStep(s: Connector, te: Timed)
    requires OneThread(s) && s.stopped
    ensures Step(s, te).log == s.log && Step(s, te).stopped
  {
    var s1 := s.(now := te.at);
    if Awaiting(s1, te.event) {
      StaleAnswer(s1, te.event);
    }
  }

  /** Once stopped, nothing is opened or renewed again. */
  lemma {:induction false} StoppedIsOver(s: Connector, events: seq<Timed>, early: real)
    requires Inv(s, early) && Small(early) && s.stopped && AllTimely(s, events, early)
    ensures Run(s, events).log == s.log && Run(s, events).stopped
    decreases |events|
  {
    if events != [] {
      StepInv(s, events[0], early);
      StoppedStep(s, events[0]);
      StoppedIsOver(Step(s, events[0]), events[1..], early);
    }
  }

  // ----- never stuck ---------------------------------------------------------------------

  ghost predicate HasThread(s: Connector) {
    s.timers != map[] || s.socket.Some? || exists k :: k in s.awaits && Current(s, s.awaits[k])
  }

  /** Unless it waits for a new credential, something will carry the connector on: a thread, or the
      next poll. And it says it is subscribed exactly while a socket is up. */
  ghost predicate Attended(s: Connector) {
    !s.stopped ==>
      && (s.life.SignedOut? || s.life.Unauthenticated? || s.life.CredentialInvalid? || s.credential.Undecided?
          || HasThread(s))
      && (s.life.Subscribed? <==> s.socket.Some?)
  }

  lemma SuspendAttends(s: Connector, a: Await)
    requires a.epoch == s.epoch && (a.Opening? ==> a.conn == s.connId)
    requires !s.stopped && s.socket.None? && !s.life.Subscribed?
    ensures Attended(Suspend(s, a))
  {
    assert Suspend(s, a).awaits[s.tickets] == a;
  }

  lemma ScheduleAttends(s: Connector, wait: real, resume: Resume)
    requires s.socket.None? && !s.life.Subscribed?
    ensures Attended(Schedule(s, wait, resume))
  {
    assert s.tickets in Schedule(s, wait, resume).timers;
  }

  /** Redeeming what is not the thread leaves the thread. */
  lemma StaleAttends(s: Connector, k: nat)
    requires Attended(s) && k in s.awaits && !Current(s, s.awaits[k])
    ensures Attended(Redeem(s, k))
  {
    var s1 := Redeem(s, k);
    if exists j :: j in s.awaits && Current(s, s.awaits[j]) {
      var j :| j in s.awaits && Current(s, s.awaits[j]);
      assert j in s1.awaits && Current(s1, s1.awaits[j]);
    }
  }

  /** Fields that no thread depends on. */
  lemma SameAttends(s: Connector, s1: Connector)
    requires Attended(s) && s1.life == s.life && s1.stopped == s.stopped && s1.epoch == s.epoch && s1.connId == s.connId
    requires s1.awaits == s.awaits && s1.timers == s.timers && s1.socket == s.socket
    requires s1.credential == s.credential || s1.credential.Undecided?
    ensures Attended(s1)
  {
    forall k | k in s.awaits ensures Current(s1, s1.awaits[k]) == Current(s, s.awaits[k]) {
    }
  }

  lemma AcquireAttends(s: Connector, waited: bool)
    requires !s.stopped && s.socket.None?
    ensures Attended(Acquire(s, waited))
  {
    ScheduleAttends(s.(life := BackingOff), s.reconnectAt - s.now, Acquiring);
    SuspendAttends(s.(life := Starting), Csrf(s.epoch));
  }

  lemma BackOffAttends(s: Connector, resume: Resume, draw: Option<real>)
    requires s.socket.None?
    ensures Attended(BackOff(s, resume, draw))
  {
    ScheduleAttends(Noted(s, draw), Wait(s.failures, draw), resume);
  }

  lemma ConnectAttends(s: Connector)
    requires !s.stopped && s.socket.None?
    ensures Attended(Connect(s))
  {
    assert Connect(s).awaits[s.tickets] == Opening(s.epoch, s.connId + 1);
  }

  lemma FindVehicleAttends(s: Connector)
    requires !s.stopped && s.socket.None?
    ensures Attended(FindVehicle(s))
  {
    SuspendAttends(s.(life := if s.life.WaitingForVehicle? then s.life else FindingVehicle), Info(s.epoch));
  }

  lemma BeginAttends(s: Connector)
    requires !s.stopped
    ensures Attended(Begin(s))
  {
    var s1 := Halt(s).(life := Starting);
    SuspendAttends(s1, Saved(s1.epoch));
  }

  lemma StampAttends(s: Connector, stamp: Option<int>)
    requires Attended(s)
    ensures Attended(OnStamp(s, stamp))
  {
    if !s.stopped && stamp.Some? {
      BeginAttends(s.(credential := Stamped(stamp.value)));
    }
  }

  lemma CsrfAttends(s: Connector, ok: bool, draw: Option<real>)
    requires !s.stopped && s.socket.None?
    ensures Attended(OnCsrf(s, s.epoch, ok, draw))
  {
    FindVehicleAttends(s);
    BackOffAttends(s, Acquiring, draw);
  }

  lemma InfoAttends(s: Connector, account: Account, draw: Option<real>)
    requires !s.stopped && s.socket.None?
    ensures Attended(OnInfo(s, s.epoch, account, draw))
  {
    if account.Found? {
      ConnectAttends(s);
    } else if account.NotListed? {
      ScheduleAttends(s.(life := WaitingForVehicle), VIN_RETRY_MS, LookingAgain);
    } else if account.Failed? {
      BackOffAttends(s, Acquiring, draw);
    }
  }

  /** The answers before there is a token. */
  lemma EarlyAnswerAttends(s: Connector, e: Event)
    requires OneThread(s) && Attended(s) && Awaiting(s, e) && Current(s, s.awaits[e.ticket])
    requires e.SavedCame? || e.ReadCame? || e.UnsealCame?
    ensures Attended(Answer(s, e))
  {
    var s1 := Redeem(s, e.ticket);
    if e.SavedCame? {
      SuspendAttends(if e.read then LoadSaved(s1, e.until) else s1, Reading(s.epoch));
    } else if e.ReadCame? {
      SuspendAttends(s1, Unsealing(s.epoch));
    } else {
      AcquireAttends(s1.(token := Some(s.epoch)), false);
    }
  }

  lemma OwnAnswerAttends(s: Connector, e: Event)
    requires OneThread(s) && Attended(s) && Awaiting(s, e) && Current(s, s.awaits[e.ticket])
    ensures Attended(Answer(s, e))
  {
    var s1 := Redeem(s, e.ticket);
    if e.SavedCame? || e.ReadCame? || e.UnsealCame? {
      EarlyAnswerAttends(s, e);
    } else if e.CsrfCame? {
      CsrfAttends(s1, e.ok, e.draw);
      assert Answer(s, e) == OnCsrf(s1, s.epoch, e.ok, e.draw);
    } else if e.InfoCame? {
      InfoAttends(s1, e.account, e.draw);
      assert Answer(s, e) == OnInfo(s1, s.epoch, e.account, e.draw);
    } else if e.OpenFailed? {
      BackOffAttends(DropConnection(s1), Reconnecting, e.draw);
    }
  }

  lemma AnswerAttends(s: Connector, e: Event)
    requires OneThread(s) && Attended(s) && Awaiting(s, e)
    ensures Attended(Answer(s, e))
  {
    hide Attended;
    if Current(s, s.awaits[e.ticket]) {
      OwnAnswerAttends(s, e);
    } else {
      StaleAttends(s, e.ticket);
      StaleAnswer(s, e);
      SameAttends(Redeem(s, e.ticket), Answer(s, e));
    }
  }

  lemma TimerAttends(s: Connector, k: nat)
    requires OneThread(s) && k in s.timers
    ensures Attended(OnTimer(s.(timers := s.timers - {k}), s.timers[k]))
  {
    var s1 := s.(timers := s.timers - {k});
    AcquireAttends(s1, true);
    ConnectAttends(s1);
    FindVehicleAttends(s1);
  }

  lemma ClosedAttends(s: Connector, h: Handlers, dead: bool, draw: Option<real>)
    requires Attended(s)
    ensures Attended(OnClosed(s, h, dead, draw)) && Attended(OnRefused(s, h))
  {
    BackOffAttends(DropConnection(s), Reconnecting, draw);
  }

  /** What belongs to the socket that is up is no thread. */
  lemma EnqueueAttends(s: Connector, dropped: bool)
    requires Attended(s)
    ensures Attended(Enqueue(s, dropped))
  {
    SameAttends(s, Enqueue(s, dropped));
  }

  lemma FrameAttends(s: Connector, h: Handlers, dropped: bool)
    requires Attended(s)
    ensures Attended(OnFrame(s, h, dropped))
  {
    var s1 := s.(flowing := true, failures := if s.flowing then s.failures else 0, lastActivity := s.now);
    SameAttends(s, s1);
    EnqueueAttends(s1, dropped);
  }

  lemma RenewAttends(s: Connector)
    requires Attended(s)
    ensures Attended(MaybeRenew(s))
  {
    SameAttends(s, MaybeRenew(s));
  }

  lemma SilenceAttends(s: Connector)
    requires Attended(s)
    ensures Attended(OnSilence(s.(silenceTimer := None)))
  {
    var s0 := s.(silenceTimer := None);
    var idle := s.now - s.lastActivity;
    if idle >= SILENCE_MS {
      if s.socket.Some? {
        SameAttends(s, OnSilence(s0));
      } else {
        SameAttends(s, s0.(silenceTimer := Some(s.now + SILENCE_MS)));
      }
    } else {
      SameAttends(s, s0.(silenceTimer := Some(s.now + (SILENCE_MS - idle))));
    }
  }

  lemma DrainedAttends(s: Connector)
    requires Attended(s)
    ensures Attended(OnDrained(s)) && Attended(MaybeRenew(s.(renewTimer := None)))
  {
    SameAttends(s, s.(queueEmpty := true));
    RenewAttends(s.(queueEmpty := true));
    SameAttends(s, s.(renewTimer := None));
    RenewAttends(s.(renewTimer := None));
  }

  /** The connector's own doings. */
  lemma OwnEventAttends(s: Connector, e: Event)
    requires Attended(s) && !Awaiting(s, e)
    requires e.SilenceFired? || e.RenewFired? || e.QueueDrained? || e.Enqueued? || e.StatusRead? || e.Stopped?
    ensures Attended(Step(s, Timed(s.now, e)))
  {
    match e
    case SilenceFired => SilenceAttends(s);
    case RenewFired => DrainedAttends(s);
    case QueueDrained => DrainedAttends(s);
    case Enqueued(dropped) => EnqueueAttends(s, dropped);
    case StatusRead(until) => SameAttends(s, LoadSaved(s, until));
    case Stopped =>
  }

  /** What ends a socket. */
  lemma EndedAttends(s: Connector, e: Event)
    requires Attended(s) && (e.SocketClosed? || e.Refused?) && e.h in s.handlers
    ensures Attended(Step(s, Timed(s.now, e)))
  {
    hide Attended;
    if e.SocketClosed? {
      ClosedAttends(s, e.h, e.dead, e.draw);
      assert Step(s, Timed(s.now, e)) == OnClosed(s, e.h, e.dead, e.draw);
    } else {
      ClosedAttends(s, e.h, false, None);
      assert Step(s, Timed(s.now, e)) == OnRefused(s, e.h);
    }
  }

  /** What the socket's handlers say. */
  lemma HandledAttends(s: Connector, e: Event)
    requires Attended(s) && (e.SocketClosed? || e.Refused? || e.FrameCame?)
    ensures Attended(Step(s, Timed(s.now, e)))
  {
    hide Attended;
    if e.h !in s.handlers {
      assert Step(s, Timed(s.now, e)) == s;
    } else if e.FrameCame? {
      FrameAttends(s, e.h, e.dropped);
      assert Step(s, Timed(s.now, e)) == OnFrame(s, e.h, e.dropped);
    } else {
      EndedAttends(s, e);
    }
  }

  /** What the poll, the socket and the lifecycle's timer say. */
  lemma OutsideAttends(s: Connector, e: Event)
    requires OneThread(s) && Attended(s) && !Awaiting(s, e)
    requires e.Polled? || e.SocketClosed? || e.Refused? || e.TimerFired? || e.FrameCame?
    ensures Attended(Step(s, Timed(s.now, e)))
  {
    hide Attended;
    if e.Polled? {
      StampAttends(s, e.stamp);
      assert Step(s, Timed(s.now, e)) == OnStamp(s, e.stamp);
    } else if e.TimerFired? {
      if e.ticket in s.timers {
        TimerAttends(s, e.ticket);
        assert Step(s, Timed(s.now, e)) == OnTimer(s.(timers := s.timers - {e.ticket}), s.timers[e.ticket]);
      } else {
        assert Step(s, Timed(s.now, e)) == s;
      }
    } else {
      HandledAttends(s, e);
    }
  }

  lemma EventAttends(s: Connector, e: Event)
    requires OneThread(s) && Attended(s)
    ensures Attended(Step(s, Timed(s.now, e)))
  {
    hide Attended;
    if Awaiting(s, e) {
      AnswerAttends(s, e);
      assert Step(s, Timed(s.now, e)) == Answer(s, e);
    } else if e.Polled? || e.SocketClosed? || e.Refused? || e.TimerFired? || e.FrameCame? {
      OutsideAttends(s, e);
    } else if e.SilenceFired? || e.RenewFired? || e.QueueDrained? || e.Enqueued? || e.StatusRead? || e.Stopped? {
      OwnEventAttends(s, e);
    }
  }

  lemma StepAttends(s: Connector, te: Timed, early: real)
    requires Inv(s, early) && Attended(s) && Small(early) && s.now <= te.at
    ensures Attended(Step(s, te))
  {
    TimePasses(s, te.at, early);
    SameAttends(s, s.(now := te.at));
    StepIsNow(s, te);
    EventAttends(s.(now := te.at), te.event);
  }

  lemma {:induction false} StaysAttended(s: Connector, events: seq<Timed>, early: real)
    requires Inv(s, early) && Attended(s) && Small(early) && AllTimely(s, events, early)
    ensures Attended(Run(s, events)) && OneThread(Run(s, events))
    decreases |events|
  {
    if events != [] {
      var te := events[0];
      StepInv(s, te, early);
      StepAttends(s, te, early);
      StaysAttended(Step(s, te), events[1..], early);
    }
  }

  /** NEVER STUCK: at every moment of every run, unless the connector waits for a new credential or for
      the next poll, one thing is under way that will carry it on, and only one. */
  lemma NeverStuck(events: seq<Timed>, early: real)
    requires Small(early) && AllTimely(NEW, events, early)
    ensures Attended(Run(NEW, events)) && OneThread(Run(NEW, events))
  {
    NewIsSound(early);
    StaysAttended(NEW, events, early);
  }
}
