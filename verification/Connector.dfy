/** The lifecycle of the `Connector` class, its fields changed in place as in
    apps/rivian/src/connector.ts, proved to do what `ConnectorModel` says. A method that awaits ends
    there, and the method named for what it awaits goes on. */
module Connectors {
  import opened Collections
  import opened Backoffs
  import opened ConnectorModel
  import opened ConnectorPacing
  import opened ConnectorRuns
  import opened ConnectorSleep
  import opened ConnectorToken
  import Spec = ConnectorModel

  /** What holds of the connector between any two events: one thread of control at most, every backoff
      and the minute between renewals kept, something to carry it on, rest once refused, and a token
      for whatever is past the unsealing. */
  ghost predicate Sound(s: Spec.Connector, early: real) {
    Small(early) && Inv(s, early) && Attended(s) && Resting(s) && Equipped(s)
  }

  lemma NewIsSoundToo(early: real)
    requires Small(early)
    ensures Sound(NEW, early)
  {
    NewIsSound(early);
  }

  lemma StepIsSound(s: Spec.Connector, te: Timed, early: real)
    requires Sound(s, early) && Timely(s, te, early)
    ensures Sound(Step(s, te), early) && PacedLog(Step(s, te).log, early) && RenewLog(Step(s, te).log)
  {
    hide Attended, Resting, Equipped;
    StepInv(s, te, early);
    StepRests(s, te, early);
    StepEquips(s, te, early);
    StepAttends(s, te, early);
  }

  class Connector {
    const backoff: Backoff
    /** How early a timer may fire. */
    ghost const early: real
    var now: real
    var life: Life
    var stopped: bool
    var epoch: nat
    var credential: Credential
    var token: Option<nat>
    var loaded: bool
    var reconnectAt: real
    var tickets: nat
    var awaits: map<nat, Await>
    var sessionTimers: map<nat, Timer>
    var connId: nat
    var handlers: set<Handlers>
    var socket: Option<nat>
    var flowing: bool
    var lastActivity: real
    var silenceTimer: Option<real>
    var renewPending: bool
    var renewTimer: Option<real>
    var lastRenewAt: Option<real>
    var queueEmpty: bool
    ghost var log: seq<Mark>

    ghost function View(): Spec.Connector
      reads this, backoff
    {
      Spec.Connector(
        now, life, stopped, epoch, credential, token, loaded, reconnectAt, backoff.attempt, tickets, awaits,
        sessionTimers, connId, handlers, socket, flowing, lastActivity, silenceTimer, renewPending, renewTimer,
        lastRenewAt, queueEmpty, log)
    }

    ghost predicate Valid()
      reads this, backoff
    {
      Sound(View(), early)
    }

    constructor (backoff: Backoff, ghost early: real)
      requires backoff.attempt == 0 && Small(early)
      ensures this.backoff == backoff && this.early == early && View() == NEW && Valid()
    {
      NewIsSoundToo(early);
      this.backoff, this.early := backoff, early;
      now, life, stopped, epoch, credential, token := 0.0, SignedOut, false, 0, Undecided, None;
      loaded, reconnectAt, tickets, awaits, sessionTimers := false, 0.0, 0, map[], map[];
      connId, handlers, socket, flowing, lastActivity := 0, {}, None, false, 0.0;
      silenceTimer, renewPending, renewTimer, lastRenewAt, queueEmpty := None, false, None, None, true;
      log := [];
    }

    // ----- plumbing ------------------------------------------------------------------------

    method Suspend(a: Await)
      modifies this`awaits, this`tickets
      ensures View() == Spec.Suspend(old(View()), a)
    {
      awaits := awaits[tickets := a];
      tickets := tickets + 1;
    }

    method Schedule(wait: real, resume: Resume)
      modifies this`sessionTimers, this`tickets
      ensures View() == Spec.Schedule(old(View()), wait, resume)
    {
      sessionTimers := sessionTimers[tickets := Timer(now + wait, epoch, resume)];
      tickets := tickets + 1;
    }

    method Enter(l: Life)
      modifies this`life
      ensures View() == old(View()).(life := l)
    {
      life := l;
    }

    method ArmSilence(after: real)
      modifies this`silenceTimer
      ensures View() == old(View()).(silenceTimer := Some(now + after))
    {
      silenceTimer := Some(now + after);
    }

    method ClearSessionTimers()
      modifies this`sessionTimers
      ensures View() == old(View()).(timers := map[])
    {
      sessionTimers := map[];
    }

    method ClearConnTimers()
      modifies this`silenceTimer, this`renewTimer
      ensures View() == old(View()).(silenceTimer := None, renewTimer := None)
    {
      silenceTimer := None;
      renewTimer := None;
    }

    /** Whatever was connected is disowned, under a new connection number. */
    method LetGo()
      modifies this`connId, this`socket
      ensures View() == old(View()).(connId := old(connId) + 1, socket := None)
    {
      connId := connId + 1;
      socket := None;
    }

    /** An attempt to connect gets its number, which its handlers will carry. */
    method TakeNumber()
      modifies this`connId, this`handlers
      ensures View() == old(View()).(connId := old(connId) + 1, handlers := old(handlers) + {Handlers(epoch, old(connId) + 1)})
    {
      connId := connId + 1;
      handlers := handlers + {Handlers(epoch, connId)};
    }

    ghost method Note(m: Mark)
      modifies this`log
      ensures View() == old(View()).(log := old(log) + [m])
    {
      log := log + [m];
    }

    method ForgetTraffic()
      modifies this`flowing, this`renewPending
      ensures View() == old(View()).(flowing := false, renewPending := false)
    {
      flowing := false;
      renewPending := false;
    }

    method DropConnection()
      modifies this
      ensures View() == Spec.DropConnection(old(View()))
    {
      LetGo();
      ClearConnTimers();
      ForgetTraffic();
    }

    method Halt()
      modifies this
      ensures View() == Spec.Halt(old(View()))
    {
      epoch := epoch + 1;
      DropConnection();
      ClearSessionTimers();
      token := None;
    }

    // ----- the lifecycle -------------------------------------------------------------------

    /** A successful poll. */
    method OnStamp(stamp: Option<int>)
      modifies this
      ensures View() == Spec.OnStamp(old(View()), stamp)
    {
      if stopped {
        return;
      }
      if stamp.None? {
        if credential.Absent? {
          return;
        }
        credential := Absent;
        Halt();
        Enter(SignedOut);
        return;
      }
      if credential == Stamped(stamp.value) {
        return;
      }
      credential := Stamped(stamp.value);
      Begin();
    }

    method Begin()
      modifies this
      ensures View() == Spec.Begin(old(View()))
    {
      Halt();
      Enter(Starting);
      Suspend(Saved(epoch));
    }

    /** What an earlier process left to wait for is taken over. */
    method LoadSaved(until: Option<real>)
      modifies this
      ensures View() == Spec.LoadSaved(old(View()), until)
    {
      if loaded {
        return;
      }
      loaded := true;
      if until.Some? {
        reconnectAt := Max(reconnectAt, until.value);
      }
    }

    method OnSaved(e: nat)
      modifies this
      ensures View() == Spec.OnSaved(old(View()), e)
    {
      if e == epoch && !stopped {
        Suspend(Reading(e));
      }
    }

    method OnRead(e: nat, read: Read)
      modifies this
      ensures View() == Spec.OnRead(old(View()), e, read)
    {
      if read.Unread? {
        credential := Undecided;
        return;
      }
      if !(e == epoch && !stopped) {
        return;
      }
      if read.NoRow? {
        credential := Absent;
        Halt();
        Enter(SignedOut);
        return;
      }
      Suspend(Unsealing(e));
    }

    method OnUnsealed(e: nat, ok: bool)
      modifies this
      ensures View() == Spec.OnUnsealed(old(View()), e, ok)
    {
      if !ok {
        if e == epoch && !stopped {
          Enter(CredentialInvalid);
        }
        return;
      }
      token := Some(e);
      if e == epoch && !stopped {
        Acquire(false);
      }
    }

    method Acquire(waited: bool)
      modifies this
      ensures View() == Spec.Acquire(old(View()), waited)
    {
      var wait := reconnectAt - now;
      if !waited && wait > 0.0 {
        Enter(BackingOff);
        Schedule(wait, Acquiring);
        return;
      }
      Enter(Starting);
      Suspend(Csrf(epoch));
    }

    method HoldOff(until: real)
      modifies this`reconnectAt
      ensures View() == old(View()).(reconnectAt := Max(old(reconnectAt), until))
    {
      reconnectAt := Max(reconnectAt, until);
    }

    method BackOff(resume: Resume, draw: Option<real>)
      modifies this, backoff
      ensures View() == Spec.BackOff(old(View()), resume, draw)
    {
      hide Wait, Max, Spec.Schedule;
      ghost var s := View();
      var wait := backoff.Next(draw);
      var until := now + wait;
      HoldOff(until);
      Enter(BackingOff);
      Note(Failure(now, until));
      assert View() == s.(failures := s.failures + 1, reconnectAt := Max(s.reconnectAt, until), life := BackingOff,
                          log := s.log + [Failure(s.now, until)]);
      Schedule(wait, resume);
    }

    method OnCsrf(e: nat, ok: bool, draw: Option<real>)
      modifies this, backoff
      ensures View() == Spec.OnCsrf(old(View()), e, ok, draw)
    {
      if !(e == epoch && !stopped) {
        return;
      }
      if ok {
        FindVehicle();
      } else {
        BackOff(Acquiring, draw);
      }
    }

    method FindVehicle()
      modifies this
      ensures View() == Spec.FindVehicle(old(View()))
    {
      if !life.WaitingForVehicle? {
        Enter(FindingVehicle);
      }
      Suspend(Info(epoch));
    }

    method OnInfo(e: nat, account: Account, draw: Option<real>)
      modifies this, backoff
      ensures View() == Spec.OnInfo(old(View()), e, account, draw)
    {
      if !(e == epoch && !stopped) {
        return;
      }
      match account
      case Dead => Unauthenticate();
      case Failed => BackOff(Acquiring, draw);
      case NotListed =>
        Enter(WaitingForVehicle);
        Schedule(VIN_RETRY_MS, LookingAgain);
      case Found => Connect();
    }

    method Unauthenticate()
      modifies this
      ensures View() == Spec.Unauthenticate(old(View()))
    {
      Halt();
      Enter(Unauthenticated);
    }

    method Connect()
      modifies this
      ensures View() == Spec.Connect(old(View()))
    {
      Enter(Connecting);
      TakeNumber();
      Note(OpenedSocket(now));
      Suspend(Opening(epoch, connId));
    }

    method Hold(conn: nat)
      modifies this`socket, this`flowing
      ensures View() == old(View()).(socket := Some(conn), flowing := false)
    {
      socket := Some(conn);
      flowing := false;
    }

    method OnOpened(e: nat, conn: nat)
      modifies this
      ensures View() == Spec.OnOpened(old(View()), e, conn)
    {
      if conn != connId || !(e == epoch && !stopped) {
        return;
      }
      Hold(conn);
      lastActivity := now;
      Enter(Subscribed);
      ArmSilence(SILENCE_MS);
    }

    method OnClosed(h: Handlers, dead: bool, draw: Option<real>)
      modifies this, backoff
      ensures View() == Spec.OnClosed(old(View()), h, dead, draw)
    {
      if h.conn != connId || !(h.epoch == epoch && !stopped) {
        return;
      }
      DropConnection();
      if dead {
        Unauthenticate();
        return;
      }
      BackOff(Reconnecting, draw);
    }

    method OnTimer(t: Timer)
      modifies this
      ensures View() == Spec.OnTimer(old(View()), t)
    {
      if !(t.epoch == epoch && !stopped) {
        return;
      }
      match t.resume
      case Acquiring => Acquire(true);
      case Reconnecting => Connect();
      case LookingAgain => FindVehicle();
    }

    // ----- frames and renewals -------------------------------------------------------------

    method Enqueue(dropped: bool)
      modifies this
      ensures View() == Spec.Enqueue(old(View()), dropped)
    {
      if stopped {
        return;
      }
      queueEmpty := false;
      if dropped && socket.Some? {
        renewPending := true;
      }
    }

    method OnFrame(h: Handlers, dropped: bool)
      modifies this, backoff
      ensures View() == Spec.OnFrame(old(View()), h, dropped)
    {
      if h.conn != connId || stopped {
        return;
      }
      if !flowing {
        flowing := true;
        backoff.Reset();
      }
      lastActivity := now;
      Enqueue(dropped);
    }

    method OnRefused(h: Handlers)
      modifies this
      ensures View() == Spec.OnRefused(old(View()), h)
    {
      if h.conn != connId || stopped {
        return;
      }
      Unauthenticate();
    }

    method MarkRenewed()
      modifies this`lastRenewAt, this`lastActivity, this`renewPending
      ensures View() == old(View()).(lastRenewAt := Some(now), lastActivity := now, renewPending := false)
    {
      lastRenewAt := Some(now);
      lastActivity := now;
      renewPending := false;
    }

    method RenewAll()
      modifies this
      ensures View() == Spec.RenewAll(old(View()))
    {
      if socket.None? {
        return;
      }
      MarkRenewed();
      Note(Renewal(now));
    }

    method MaybeRenew()
      modifies this
      ensures View() == Spec.MaybeRenew(old(View()))
    {
      if !renewPending || socket.None? || !queueEmpty || stopped {
        return;
      }
      var wait := if lastRenewAt.None? then 0.0 else lastRenewAt.value + MIN_RENEW_INTERVAL_MS - now;
      if wait > 0.0 {
        if renewTimer.None? {
          renewTimer := Some(now + wait);
        }
        return;
      }
      RenewAll();
    }

    method OnDrained()
      modifies this
      ensures View() == Spec.OnDrained(old(View()))
    {
      queueEmpty := true;
      MaybeRenew();
    }

    method OnSilence()
      modifies this
      ensures View() == Spec.OnSilence(old(View()))
    {
      var idle := now - lastActivity;
      if idle >= SILENCE_MS {
        RenewAll();
        ArmSilence(SILENCE_MS);
      } else {
        ArmSilence(SILENCE_MS - idle);
      }
    }

    method Stop()
      modifies this
      ensures View() == Spec.Stop(old(View()))
    {
      stopped := true;
      epoch := epoch + 1;
      ClearSessionTimers();
      ClearConnTimers();
      LetGo();
    }

    // ----- the event loop ------------------------------------------------------------------

    method OnAnswer(e: Event)
      requires Awaiting(View(), e)
      modifies this, backoff
      ensures View() == Answer(old(View()), e)
    {
      var a := awaits[e.ticket];
      awaits := awaits - {e.ticket};
      match e
      case SavedCame(_, read, until) =>
        if read {
          LoadSaved(until);
        }
        OnSaved(a.epoch);
      case ReadCame(_, read) => OnRead(a.epoch, read);
      case UnsealCame(_, ok) => OnUnsealed(a.epoch, ok);
      case CsrfCame(_, ok, draw) => OnCsrf(a.epoch, ok, draw);
      case InfoCame(_, account, draw) => OnInfo(a.epoch, account, draw);
      case SocketOpened(_) => OnOpened(a.epoch, a.conn);
      case OpenFailed(_, dead, draw) => OnClosed(Handlers(a.epoch, a.conn), dead, draw);
    }

    /** What a socket's handlers say. */
    method OnSocketEvent(e: Event)
      requires e.SocketClosed? || e.FrameCame? || e.Refused?
      modifies this, backoff
      ensures View() == Step(old(View()), Timed(old(now), e))
    {
      if e.h !in handlers {
        return;
      }
      match e
      case SocketClosed(h, dead, draw) => OnClosed(h, dead, draw);
      case FrameCame(h, dropped) => OnFrame(h, dropped);
      case Refused(h) => OnRefused(h);
    }

    method OnTimerFired(k: nat)
      modifies this
      ensures View() == Step(old(View()), Timed(old(now), TimerFired(k)))
    {
      if k in sessionTimers {
        var t := sessionTimers[k];
        sessionTimers := sessionTimers - {k};
        OnTimer(t);
      }
    }

    method OnSilenceFired()
      modifies this
      ensures View() == Step(old(View()), Timed(old(now), SilenceFired))
    {
      if silenceTimer.Some? {
        silenceTimer := None;
        OnSilence();
      }
    }

    method OnRenewFired()
      modifies this
      ensures View() == Step(old(View()), Timed(old(now), RenewFired))
    {
      if renewTimer.Some? {
        renewTimer := None;
        MaybeRenew();
      }
    }

    method OnTimerEvent(e: Event)
      requires e.TimerFired? || e.SilenceFired? || e.RenewFired?
      modifies this
      ensures View() == Step(old(View()), Timed(old(now), e))
    {
      match e
      case TimerFired(k) => OnTimerFired(k);
      case SilenceFired => OnSilenceFired();
      case RenewFired => OnRenewFired();
    }

    method OnOwnEvent(e: Event)
      requires e.Polled? || e.Enqueued? || e.QueueDrained? || e.StatusRead? || e.Stopped?
      modifies this
      ensures View() == Step(old(View()), Timed(old(now), e))
    {
      if e.Polled? {
        OnStamp(e.stamp);
      } else if e.Enqueued? || e.QueueDrained? || e.StatusRead? {
        OnTold(e);
      } else if !stopped {
        Stop();
      }
    }

    method OnTold(e: Event)
      requires e.Enqueued? || e.QueueDrained? || e.StatusRead?
      modifies this
      ensures View() == Step(old(View()), Timed(old(now), e))
    {
      match e
      case Enqueued(dropped) => Enqueue(dropped);
      case QueueDrained => OnDrained();
      case StatusRead(until) => LoadSaved(until);
    }

    /** Something comes that may be awaited. */
    method OnAwaited(e: Event)
      requires !(e.SocketClosed? || e.FrameCame? || e.Refused? || e.TimerFired? || e.SilenceFired? || e.RenewFired?)
      requires !(e.Polled? || e.Enqueued? || e.QueueDrained? || e.StatusRead? || e.Stopped?)
      modifies this, backoff
      ensures View() == Step(old(View()), Timed(old(now), e))
    {
      if e.ticket in awaits && Fits(awaits[e.ticket], e) {
        OnAnswer(e);
      }
    }

    method SetNow(at: real)
      modifies this`now
      ensures View() == old(View()).(now := at)
    {
      now := at;
    }

    /** One event, at its time. As long as each comes in time, no socket has opened before a backoff was
        over, no two renewals of everything are less than a minute apart, and at most one thread of
        control is under way; and one is, unless a new credential or the next poll is awaited. */
    method OnEvent(te: Timed)
      modifies this, backoff
      ensures View() == Step(old(View()), te)
      ensures old(Valid()) && Timely(old(View()), te, early) ==>
        Valid() && PacedLog(log, early) && RenewLog(log) && OneThread(View()) && Attended(View())
    {
      if Valid() && Timely(View(), te, early) {
        StepIsSound(View(), te, early);
      }
      StepIsNow(View(), te);
      SetNow(te.at);
      var e := te.event;
      if e.SocketClosed? || e.FrameCame? || e.Refused? {
        OnSocketEvent(e);
      } else if e.TimerFired? || e.SilenceFired? || e.RenewFired? {
        OnTimerEvent(e);
      } else if e.Polled? || e.Enqueued? || e.QueueDrained? || e.StatusRead? || e.Stopped? {
        OnOwnEvent(e);
      } else {
        OnAwaited(e);
      }
    }
  }

  /** Whether what comes is what was awaited. */
  predicate Fits(a: Await, e: Event) {
    || (a.Saved? && e.SavedCame?) || (a.Reading? && e.ReadCame?) || (a.Unsealing? && e.UnsealCame?)
    || (a.Csrf? && e.CsrfCame?) || (a.Info? && e.InfoCame?) || (a.Opening? && (e.SocketOpened? || e.OpenFailed?))
  }
}
