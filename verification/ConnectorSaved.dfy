/** The backoff an earlier process was serving, which the status row carries over a restart. It is
    looked at once, before the session is asked for; whatever is past that look goes on to its
    socket. So it is waited out exactly where nothing is past the look: no session or vehicle being
    asked for, no timer that is due sooner, and no socket, up or coming, that could end and be opened
    again within the shortest wait. The first lifecycle reads the row before it calls anyone, and is
    in no such state; but a first read that fails leaves it to a later one, which comes when it may. */
module ConnectorSaved {
  import opened Collections
  import opened Backoffs
  import opened ConnectorModel
  import opened ConnectorRuns
  import opened ConnectorPacing

  /** Nothing under way opens a socket before `until`, but for waits that are not over sooner: no call
      is past the check, no timer is due sooner, and a socket's end is waited out. */
  ghost predicate Behind(s: Connector, until: real) {
    && (forall k | k in s.awaits && Current(s, s.awaits[k]) ::
          !s.awaits[k].Csrf? && !s.awaits[k].Info? && (s.awaits[k].Opening? ==> s.now + BACKOFF_FLOOR_MS >= until))
    && (forall k | k in s.timers :: s.timers[k].due >= until)
    && (s.socket.Some? ==> s.now + BACKOFF_FLOOR_MS >= until)
  }

  /** `until` is owed, and is over or nothing under way would cut it short. */
  ghost predicate Keeps(s: Connector, until: real, early: real) {
    s.reconnectAt >= until && (s.now + early >= until || Behind(s, until))
  }

  /** At most one mark more, of this instant. */
  predicate Grown(s: Connector, s2: Connector) {
    if |s2.log| == |s.log| + 1 then s2.log == s.log + [s2.log[|s.log|]] && s2.log[|s.log|].at == s.now
    else s2.log == s.log
  }

  predicate NoneOpened(s: Connector, s2: Connector) {
    forall i | |s.log| <= i < |s2.log| :: !s2.log[i].OpenedSocket?
  }

  lemma StaleMoves(s: Connector, s1: Connector, k: nat, until: real)
    requires OneThread(s) && k in s.awaits && !Current(s, s.awaits[k]) && Behind(s, until)
    requires s1 == Redeem(s, k).(credential := s1.credential, token := s1.token, loaded := s1.loaded, reconnectAt := s1.reconnectAt)
    ensures Behind(s1, until)
  {
    forall j | j in s1.awaits ensures Current(s1, s1.awaits[j]) == Current(s, s.awaits[j]) {
    }
  }

  /** From where nothing is under way: what is owed is waited for. */
  lemma FreeBehind(s: Connector, until: real)
    requires Free(s)
    ensures Behind(s, until)
  {
  }

  lemma SuspendBehind(s: Connector, a: Await, until: real)
    requires Free(s) && !a.Csrf? && !a.Info? && (a.Opening? ==> s.now + BACKOFF_FLOOR_MS >= until)
    ensures Behind(Suspend(s, a), until)
  {
    var s1 := Suspend(s, a);
    forall k | k in s1.awaits && k != s.tickets ensures !Current(s1, s1.awaits[k]) {
      assert !Current(s, s.awaits[k]);
    }
  }

  lemma ScheduleBehind(s: Connector, wait: real, resume: Resume, until: real)
    requires Free(s) && s.now + wait >= until
    ensures Behind(Schedule(s, wait, resume), until)
  {
    var s1 := Schedule(s, wait, resume);
    forall k | k in s1.awaits ensures !Current(s1, s1.awaits[k]) {
      assert !Current(s, s.awaits[k]);
    }
  }

  lemma BackOffMoves(s: Connector, resume: Resume, draw: Option<real>, until: real)
    requires Free(s) && s.now + BACKOFF_FLOOR_MS >= until
    ensures var s1 := BackOff(s, resume, draw);
      Behind(s1, until) && Grown(s, s1) && NoneOpened(s, s1) && s1.now == s.now && s1.reconnectAt >= s.reconnectAt
  {
    WaitIsBounded(s.failures, draw);
    var wait := Wait(s.failures, draw);
    hide Wait;
    var noted := s.(failures := s.failures + 1, reconnectAt := Max(s.reconnectAt, s.now + wait), life := BackingOff,
                    log := s.log + [Failure(s.now, s.now + wait)]);
    FreeSame(s, noted);
    ScheduleBehind(noted, wait, resume, until);
  }

  lemma HaltMoves(s: Connector, life: Life, until: real)
    requires Ticketed(s)
    ensures var s1 := Halt(s).(life := life);
      Free(s1) && Behind(s1, until) && s1.log == s.log && s1.now == s.now && s1.reconnectAt == s.reconnectAt
  {
    HaltFrees(s);
    FreeSame(Halt(s), Halt(s).(life := life));
    FreeBehind(Halt(s).(life := life), until);
  }

  // ----- the log grows at its end --------------------------------------------------------

  /** Time and what is owed do not go back either. */
  predicate GoesOn(s: Connector, s2: Connector) {
    Grown(s, s2) && s2.now == s.now && s2.reconnectAt >= s.reconnectAt
  }

  lemma WaitingGoesOn(s: Connector, waited: bool, resume: Resume, draw: Option<real>)
    ensures GoesOn(s, Acquire(s, waited)) && GoesOn(s, BackOff(s, resume, draw))
  {
    hide Wait;
  }

  lemma CallingGoesOn(s: Connector)
    ensures GoesOn(s, FindVehicle(s)) && GoesOn(s, Connect(s)) && GoesOn(s, Schedule(s, VIN_RETRY_MS, LookingAgain))
  {
  }

  lemma EndingGoesOn(s: Connector, stamp: Option<int>)
    ensures GoesOn(s, Unauthenticate(s)) && GoesOn(s, OnStamp(s, stamp)) && GoesOn(s, SignOut(s))
    ensures GoesOn(s, DropConnection(s))
  {
    HaltGoesOn(s);
    HaltGoesOn(s.(credential := Absent));
    if stamp.Some? {
      HaltGoesOn(s.(credential := Stamped(stamp.value)));
    }
    hide Halt;
  }

  lemma HaltGoesOn(s: Connector)
    ensures GoesOn(s, Halt(s)) && Halt(s).log == s.log
  {
  }

  lemma EndedGoesOn(s: Connector, dead: bool, draw: Option<real>)
    ensures GoesOn(s, SocketEnded(s, dead, draw))
  {
    WaitingGoesOn(DropConnection(s), false, Reconnecting, draw);
    EndingGoesOn(DropConnection(s), None);
    hide BackOff, Unauthenticate;
  }

  lemma ClosedGoesOn(s: Connector, h: Handlers, dead: bool, draw: Option<real>)
    ensures GoesOn(s, OnClosed(s, h, dead, draw))
  {
    EndedGoesOn(s, dead, draw);
    hide SocketEnded;
  }

  lemma UnsealGoesOn(s: Connector, epoch: nat, ok: bool)
    ensures GoesOn(s, OnUnsealed(s, epoch, ok))
  {
    WaitingGoesOn(s.(token := Some(epoch)), false, Acquiring, None);
    hide Acquire;
  }

  lemma CsrfGoesOn(s: Connector, epoch: nat, ok: bool, draw: Option<real>)
    ensures GoesOn(s, OnCsrf(s, epoch, ok, draw))
  {
    WaitingGoesOn(s, false, Acquiring, draw);
    CallingGoesOn(s);
    hide BackOff, FindVehicle;
  }

  lemma InfoGoesOn(s: Connector, epoch: nat, account: Account, draw: Option<real>)
    ensures GoesOn(s, OnInfo(s, epoch, account, draw))
  {
    WaitingGoesOn(s, false, Acquiring, draw);
    CallingGoesOn(s.(life := WaitingForVehicle));
    CallingGoesOn(s);
    EndingGoesOn(s, None);
    hide BackOff, Connect, Unauthenticate, Schedule;
  }

  lemma TimerGoesOn(s: Connector, t: Timer)
    ensures GoesOn(s, OnTimer(s, t))
  {
    WaitingGoesOn(s, true, Acquiring, None);
    CallingGoesOn(s);
    hide Acquire, FindVehicle, Connect;
  }

  lemma ReadGoesOn(s: Connector, epoch: nat, credential: Read, read: bool, saved: Option<real>)
    ensures GoesOn(s, OnRead(s, epoch, credential))
    ensures GoesOn(s, OnSaved(if read then LoadSaved(s, saved) else s, epoch))
  {
    EndingGoesOn(s, None);
    hide SignOut;
  }

  lemma OpenedGoesOn(s: Connector, epoch: nat, conn: nat)
    ensures GoesOn(s, OnOpened(s, epoch, conn))
  {
  }

  lemma Redeemed(s: Connector, k: nat, s2: Connector)
    ensures GoesOn(Redeem(s, k), s2) ==> GoesOn(s, s2)
  {
  }

  lemma AnswerGoesOn(s: Connector, e: Event)
    requires Awaiting(s, e)
    ensures GoesOn(s, Answer(s, e))
  {
    var a, s1 := s.awaits[e.ticket], Redeem(s, e.ticket);
    Redeemed(s, e.ticket, Answer(s, e));
    hide OnRead, OnSaved, LoadSaved, OnUnsealed, OnCsrf, OnInfo, OnClosed, OnOpened, GoesOn, Redeem;
    match e
    case SavedCame(_, read, saved) => ReadGoesOn(s1, a.epoch, Unread, read, saved);
    case ReadCame(_, credential) => ReadGoesOn(s1, a.epoch, credential, false, None);
    case UnsealCame(_, ok) => UnsealGoesOn(s1, a.epoch, ok);
    case CsrfCame(_, ok, draw) => CsrfGoesOn(s1, a.epoch, ok, draw);
    case InfoCame(_, account, draw) => InfoGoesOn(s1, a.epoch, account, draw);
    case SocketOpened(_) => OpenedGoesOn(s1, a.epoch, a.conn);
    case OpenFailed(_, dead, draw) => ClosedGoesOn(s1, Handlers(a.epoch, a.conn), dead, draw);
  }

  lemma RenewalsGoOn(s: Connector)
    ensures GoesOn(s, RenewAll(s)) && GoesOn(s, MaybeRenew(s))
  {
    hide RenewWait;
  }

  lemma SilenceGoesOn(s: Connector)
    ensures GoesOn(s, OnSilence(s))
  {
    RenewalsGoOn(s);
    hide RenewAll;
  }

  lemma OtherGoesOn(s: Connector, e: Event)
    requires !Awaiting(s, e) && !IsDue(e)
    ensures GoesOn(s, Step(s, Timed(s.now, e)))
  {
    hide OnStamp, OnClosed, OnFrame, OnTimer, OnSilence, MaybeRenew, Unauthenticate, LoadSaved, Enqueue, Stop;
    StopGoesOn(s);
    match e
    case Polled(stamp) => EndingGoesOn(s, stamp);
    case SocketClosed(h, dead, draw) => ClosedGoesOn(s, h, dead, draw);
    case FrameCame(h, dropped) => ToldGoesOn(s, h, dropped, None);
    case Enqueued(dropped) => ToldGoesOn(s, Handlers(0, 0), dropped, None);
    case StatusRead(until) => ToldGoesOn(s, Handlers(0, 0), false, until);
    case Refused(h) => EndingGoesOn(s, None);
    case _ =>
  }

  /** A timer, or the queue that has emptied. */
  predicate IsDue(e: Event) {
    e.TimerFired? || e.SilenceFired? || e.RenewFired? || e.QueueDrained?
  }

  lemma DueGoesOn(s: Connector, e: Event)
    requires IsDue(e)
    ensures GoesOn(s, Step(s, Timed(s.now, e)))
  {
    hide OnTimer, OnSilence, MaybeRenew;
    match e
    case TimerFired(k) => if k in s.timers { TimerGoesOn(s.(timers := s.timers - {k}), s.timers[k]); }
    case SilenceFired => SilenceGoesOn(s.(silenceTimer := None));
    case RenewFired => RenewalsGoOn(s.(renewTimer := None));
    case QueueDrained => RenewalsGoOn(s.(queueEmpty := true));
  }

  lemma StopGoesOn(s: Connector)
    ensures GoesOn(s, Stop(s))
  {
  }

  lemma ToldGoesOn(s: Connector, h: Handlers, dropped: bool, until: Option<real>)
    ensures GoesOn(s, OnFrame(s, h, dropped)) && GoesOn(s, Enqueue(s, dropped)) && GoesOn(s, LoadSaved(s, until))
  {
  }

  lemma StepGoesOn(s: Connector, e: Event)
    ensures GoesOn(s, Step(s, Timed(s.now, e)))
  {
    if Awaiting(s, e) {
      AnswerGoesOn(s, e);
      assert Step(s, Timed(s.now, e)) == Answer(s, e);
    } else if IsDue(e) {
      DueGoesOn(s, e);
    } else {
      OtherGoesOn(s, e);
    }
  }

  // ----- what is behind stays behind -----------------------------------------------------

  /** Nothing has opened, and nothing will before `until`. */
  ghost predicate Stays(s: Connector, s2: Connector, until: real) {
    Behind(s2, until) && NoneOpened(s, s2)
  }

  lemma OwnAnswerStays(s: Connector, e: Event, until: real, early: real)
    requires OneThread(s) && Awaiting(s, e) && Current(s, s.awaits[e.ticket]) && !e.SocketOpened? && !e.OpenFailed?
    requires Behind(s, until) && s.reconnectAt >= until && s.now + early < until && 0.0 <= early
    ensures Stays(s, Answer(s, e), until)
  {
    var k := e.ticket;
    RedeemFrees(s, k);
    var s1 := Redeem(s, k);
    match e
    case SavedCame(_, read, saved) =>
      var s2 := if read then LoadSaved(s1, saved) else s1;
      FreeSame(s1, s2);
      SuspendBehind(s2, Reading(s.epoch), until);
    case ReadCame(_, credential) =>
      if credential.Unread? {
        FreeSame(s1, s1.(credential := Undecided));
        FreeBehind(s1.(credential := Undecided), until);
      } else if credential.NoRow? {
        HaltMoves(s1.(credential := Absent), SignedOut, until);
      } else {
        SuspendBehind(s1, Unsealing(s.epoch), until);
      }
    case UnsealCame(_, ok) => UnsealStays(s, s1, ok, until);
  }

  lemma UnsealStays(s: Connector, s1: Connector, ok: bool, until: real)
    requires Free(s1) && !s1.stopped && s1.reconnectAt >= until > s1.now && s1.log == s.log
    ensures Stays(s, OnUnsealed(s1, s1.epoch, ok), until)
  {
    if ok {
      var s2 := s1.(token := Some(s1.epoch), life := BackingOff);
      FreeSame(s1, s2);
      ScheduleBehind(s2, s2.reconnectAt - s2.now, Acquiring, until);
    } else {
      FreeSame(s1, s1.(life := CredentialInvalid));
      FreeBehind(s1.(life := CredentialInvalid), until);
    }
  }

  lemma StaleAnswerStays(s: Connector, e: Event, until: real)
    requires OneThread(s) && Awaiting(s, e) && !Current(s, s.awaits[e.ticket]) && Behind(s, until)
    ensures Stays(s, Answer(s, e), until)
  {
    StaleAnswer(s, e);
    var s2 := Answer(s, e);
    assert s2 == Redeem(s, e.ticket).(credential := s2.credential, token := s2.token, loaded := s2.loaded, reconnectAt := s2.reconnectAt);
    hide Answer;
    StaleMoves(s, s2, e.ticket, until);
  }

  /** A socket that opens, or does not. */
  lemma OpenAnswerStays(s: Connector, e: Event, until: real)
    requires OneThread(s) && Awaiting(s, e) && Current(s, s.awaits[e.ticket]) && (e.SocketOpened? || e.OpenFailed?)
    requires Behind(s, until)
    ensures Stays(s, Answer(s, e), until)
  {
    var k, a := e.ticket, s.awaits[e.ticket];
    if e.SocketOpened? {
      SocketUpStays(s, k, until);
    } else {
      OpenFailedFrees(s, k);
      EndedStays(s, DropConnection(Redeem(s, k)), e.dead, e.draw, until);
    }
  }

  lemma SocketUpStays(s: Connector, k: nat, until: real)
    requires OneThread(s) && k in s.awaits && Current(s, s.awaits[k]) && s.awaits[k].Opening? && Behind(s, until)
    ensures Stays(s, OnOpened(Redeem(s, k), s.awaits[k].epoch, s.awaits[k].conn), until)
  {
    var s1 := OnOpened(Redeem(s, k), s.awaits[k].epoch, s.awaits[k].conn);
    forall j | j in s1.awaits && Current(s1, s1.awaits[j]) ensures false {
      assert Current(s, s.awaits[j]);
    }
  }

  lemma EndedStays(s: Connector, s1: Connector, dead: bool, draw: Option<real>, until: real)
    requires Free(s1) && s1.log == s.log && s1.now + BACKOFF_FLOOR_MS >= until
    ensures Stays(s, if dead then Unauthenticate(s1) else BackOff(s1, Reconnecting, draw), until)
  {
    if dead {
      HaltMoves(s1, Unauthenticated, until);
    } else {
      BackOffMoves(s1, Reconnecting, draw, until);
      hide BackOff;
    }
  }

  lemma AnswerStays(s: Connector, e: Event, until: real, early: real)
    requires OneThread(s) && Awaiting(s, e)
    requires Behind(s, until) && s.reconnectAt >= until && s.now + early < until && 0.0 <= early
    ensures Stays(s, Answer(s, e), until)
  {
    hide Answer, Behind, OneThread;
    if !Current(s, s.awaits[e.ticket]) {
      StaleAnswerStays(s, e, until);
    } else if e.SocketOpened? || e.OpenFailed? {
      OpenAnswerStays(s, e, until);
    } else {
      OwnAnswerStays(s, e, until, early);
    }
  }

  // ----- what is no answer ---------------------------------------------------------------

  /** The same threads as far as an early socket goes. */
  lemma SameStays(s: Connector, s1: Connector, until: real)
    requires Behind(s, until) && s1.now == s.now && s1.epoch == s.epoch && s1.stopped == s.stopped
    requires s1.awaits == s.awaits && s1.timers == s.timers && s1.socket == s.socket && s1.connId == s.connId
    ensures Behind(s1, until)
  {
    forall k | k in s1.awaits ensures Current(s1, s1.awaits[k]) == Current(s, s.awaits[k]) {
    }
  }

  lemma StampStays(s: Connector, stamp: Option<int>, until: real)
    requires OneThread(s) && Behind(s, until)
    ensures Stays(s, OnStamp(s, stamp), until)
  {
    if s.stopped || (stamp.None? && s.credential.Absent?) || (stamp.Some? && s.credential == Stamped(stamp.value)) {
      assert OnStamp(s, stamp) == s;
    } else if stamp.Some? {
      assert OnStamp(s, stamp) == Begin(s.(credential := Stamped(stamp.value)));
      HaltMoves(s.(credential := Stamped(stamp.value)), Starting, until);
      hide OnStamp, Behind, OneThread;
      var s1 := Halt(s.(credential := Stamped(stamp.value))).(life := Starting);
      SuspendBehind(s1, Saved(s1.epoch), until);
    } else {
      HaltMoves(s.(credential := Absent), SignedOut, until);
    }
  }

  lemma ClosedStays(s: Connector, h: Handlers, dead: bool, draw: Option<real>, until: real)
    requires OneThread(s) && h in s.handlers && Behind(s, until)
    ensures Stays(s, OnClosed(s, h, dead, draw), until)
  {
    if h.conn == s.connId && Alive(s, h.epoch) {
      if s.socket.None? {
        var k :| k in s.awaits && s.awaits[k] == Opening(h.epoch, h.conn);
        assert Current(s, s.awaits[k]);
      }
      DropFrees(s, h);
      EndedStays(s, DropConnection(s), dead, draw, until);
    }
  }

  lemma FrameStays(s: Connector, h: Handlers, dropped: bool, until: real)
    requires Behind(s, until)
    ensures Stays(s, OnFrame(s, h, dropped), until) && Stays(s, Enqueue(s, dropped), until)
  {
    SameStays(s, OnFrame(s, h, dropped), until);
    SameStays(s, Enqueue(s, dropped), until);
  }

  lemma RefusedStays(s: Connector, h: Handlers, until: real)
    requires OneThread(s) && Behind(s, until)
    ensures Stays(s, OnRefused(s, h), until)
  {
    HaltMoves(s, Unauthenticated, until);
  }

  lemma RenewalsStay(s: Connector, until: real)
    requires Behind(s, until)
    ensures Stays(s, RenewAll(s), until) && Stays(s, MaybeRenew(s), until)
  {
    SameStays(s, RenewAll(s), until);
    SameStays(s, MaybeRenew(s), until);
  }

  lemma SilenceStays(s: Connector, until: real)
    requires Behind(s, until)
    ensures Stays(s, OnSilence(s), until)
  {
    RenewalsStay(s, until);
    hide RenewAll;
    var s1 := if s.now - s.lastActivity >= SILENCE_MS then RenewAll(s) else s;
    SameStays(s1, OnSilence(s), until);
  }

  lemma StopStays(s: Connector, until: real)
    requires Behind(s, until)
    ensures Stays(s, Stop(s), until)
  {
  }

  /** No timer comes, for none is due. */
  lemma OtherStays(s: Connector, e: Event, until: real, early: real)
    requires OneThread(s) && !Awaiting(s, e) && !IsDue(e)
    requires Behind(s, until) && s.now + early < until
    ensures Stays(s, Step(s, Timed(s.now, e)), until)
  {
    hide OnStamp, OnClosed, OnFrame, OnTimer, OnSilence, MaybeRenew, Unauthenticate, LoadSaved, Enqueue, OnRefused, Stop;
    hide Behind, OneThread;
    match e
    case Polled(stamp) => StampStays(s, stamp, until);
    case SocketClosed(h, dead, draw) => if h in s.handlers { ClosedStays(s, h, dead, draw, until); }
    case FrameCame(h, dropped) => FrameStays(s, h, dropped, until);
    case Enqueued(dropped) => FrameStays(s, Handlers(0, 0), dropped, until);
    case Refused(h) => RefusedStays(s, h, until);
    case StatusRead(saved) => LoadStays(s, saved, until);
    case Stopped => StopStays(s, until);
    case _ =>
  }

  lemma DueStays(s: Connector, e: Event, until: real, early: real)
    requires IsDue(e) && Timely(s, Timed(s.now, e), early) && Behind(s, until) && s.now + early < until
    ensures Stays(s, Step(s, Timed(s.now, e)), until)
  {
    if e.TimerFired? {
      assert e.ticket !in s.timers;
    }
    hide OnTimer, OnSilence, MaybeRenew, Behind;
    match e
    case TimerFired(_) =>
    case SilenceFired =>
      SameStays(s, s.(silenceTimer := None), until);
      SilenceStays(s.(silenceTimer := None), until);
    case RenewFired =>
      SameStays(s, s.(renewTimer := None), until);
      RenewalsStay(s.(renewTimer := None), until);
    case QueueDrained =>
      SameStays(s, s.(queueEmpty := true), until);
      RenewalsStay(s.(queueEmpty := true), until);
  }

  lemma LoadStays(s: Connector, saved: Option<real>, until: real)
    requires Behind(s, until)
    ensures Stays(s, LoadSaved(s, saved), until)
  {
    SameStays(s, LoadSaved(s, saved), until);
  }

  // ----- over whole runs -----------------------------------------------------------------

  /** Every socket opened from place `n` of the log on is opened at `until` or later. */
  ghost predicate Late(log: seq<Mark>, n: nat, until: real, early: real) {
    forall i | n <= i < |log| && log[i].OpenedSocket? :: log[i].at + early >= until
  }

  lemma StepKeepsSaved(s: Connector, te: Timed, until: real, early: real, n: nat)
    requires Inv(s, early) && Small(early) && Timely(s, te, early) && Keeps(s, until, early)
    requires n <= |s.log| && Late(s.log, n, until, early)
    ensures Keeps(Step(s, te), until, early) && n <= |Step(s, te).log| && Late(Step(s, te).log, n, until, early)
  {
    var s1, e := s.(now := te.at), te.event;
    StepIsNow(s, te);
    StepGoesOn(s1, e);
    TimePasses(s, te.at, early);
    hide Step;
    if s1.now + early < until {
      TimeStays(s, te.at, until);
      if Awaiting(s1, e) {
        AnswerStays(s1, e, until, early);
        StepIsAnswer(s1, e);
      } else if IsDue(e) {
        DueStays(s1, e, until, early);
      } else {
        OtherStays(s1, e, until, early);
      }
    }
  }

  lemma StepIsAnswer(s: Connector, e: Event)
    requires Awaiting(s, e)
    ensures Step(s, Timed(s.now, e)) == Answer(s, e)
  {
  }

  lemma TimeStays(s: Connector, at: real, until: real)
    requires Behind(s, until) && s.now <= at
    ensures Behind(s.(now := at), until)
  {
    var s1 := s.(now := at);
    forall k | k in s1.awaits ensures Current(s1, s1.awaits[k]) == Current(s, s.awaits[k]) {
    }
  }

  lemma {:induction false} RunKeepsSaved(s: Connector, events: seq<Timed>, until: real, early: real, n: nat)
    requires Inv(s, early) && Small(early) && AllTimely(s, events, early) && Keeps(s, until, early)
    requires n <= |s.log| && Late(s.log, n, until, early)
    ensures Late(Run(s, events).log, n, until, early)
    decreases |events|
  {
    if events != [] {
      StepInv(s, events[0], early);
      StepKeepsSaved(s, events[0], until, early, n);
      hide Inv, Keeps, Late, Step;
      RunKeepsSaved(Step(s, events[0]), events[1..], until, early, n);
    }
  }

  // ----- a socket has its handlers -------------------------------------------------------

  ghost predicate OpeningNow(s: Connector) {
    exists k :: k in s.awaits && Current(s, s.awaits[k]) && s.awaits[k].Opening?
  }

  /** The socket that is up or coming has handlers, and once it has flowed no failure is counted. */
  ghost predicate Handled(s: Connector) {
    !s.stopped ==>
      && (s.socket.Some? || OpeningNow(s) ==> Handlers(s.epoch, s.connId) in s.handlers)
      && (s.flowing ==> s.failures == 0 && (s.socket.Some? || OpeningNow(s)))
  }

  lemma SameHandled(s: Connector, s1: Connector)
    requires Handled(s) && s1.epoch == s.epoch && s1.stopped == s.stopped
    requires s1.awaits == s.awaits && s1.socket == s.socket && s1.connId == s.connId && s1.handlers == s.handlers
    requires s1.flowing == s.flowing && s1.failures == s.failures
    ensures Handled(s1)
  {
    forall k | k in s1.awaits ensures Current(s1, s1.awaits[k]) == Current(s, s.awaits[k]) {
    }
  }

  /** With nothing under way nothing flows. */
  lemma FreeHandled(s: Connector)
    requires Free(s) && !s.flowing
    ensures Handled(s)
  {
  }

  /** A free lifecycle that has gone on: to an await of its own, or a timer. */
  lemma GoneOnHandled(s: Connector, waited: bool, resume: Resume, draw: Option<real>, a: Await)
    requires Free(s) && !s.flowing && !a.Opening?
    ensures Handled(Suspend(s, a)) && Handled(Acquire(s, waited)) && Handled(BackOff(s, resume, draw))
    ensures Handled(FindVehicle(s))
  {
    SuspendHandled(s, a);
    AcquireHandled(s, waited);
    BackOffHandled(s, resume, draw);
    SuspendHandled(s.(life := if s.life.WaitingForVehicle? then s.life else FindingVehicle), Info(s.epoch));
    hide Acquire, BackOff, Suspend, Handled;
  }

  lemma SuspendHandled(s: Connector, a: Await)
    requires Free(s) && !s.flowing && !a.Opening?
    ensures Handled(Suspend(s, a))
  {
    forall k | k in s.awaits ensures !Current(s, s.awaits[k]) {
    }
  }

  lemma AcquireHandled(s: Connector, waited: bool)
    requires Free(s) && !s.flowing
    ensures Handled(Acquire(s, waited))
  {
    forall k | k in s.awaits ensures !Current(s, s.awaits[k]) {
    }
  }

  lemma BackOffHandled(s: Connector, resume: Resume, draw: Option<real>)
    requires Free(s) && !s.flowing
    ensures Handled(BackOff(s, resume, draw))
  {
    hide Wait;
    forall k | k in s.awaits ensures !Current(s, s.awaits[k]) {
    }
  }

  lemma ConnectHandled(s: Connector)
    requires Free(s) && !s.flowing
    ensures Handled(Connect(s))
  {
  }

  lemma HaltHandled(s: Connector, life: Life)
    requires Ticketed(s)
    ensures Handled(Halt(s).(life := life))
  {
    HaltFrees(s);
    FreeSame(Halt(s), Halt(s).(life := life));
    FreeHandled(Halt(s).(life := life));
  }

  lemma StampHandled(s: Connector, stamp: Option<int>)
    requires OneThread(s) && Handled(s)
    ensures Handled(OnStamp(s, stamp))
  {
    if s.stopped || (stamp.None? && s.credential.Absent?) || (stamp.Some? && s.credential == Stamped(stamp.value)) {
      assert OnStamp(s, stamp) == s;
    } else if stamp.Some? {
      var s1 := Halt(s.(credential := Stamped(stamp.value))).(life := Starting);
      HaltFrees(s.(credential := Stamped(stamp.value)));
      FreeSame(Halt(s.(credential := Stamped(stamp.value))), s1);
      GoneOnHandled(s1, false, Acquiring, None, Saved(s1.epoch));
      assert OnStamp(s, stamp) == Suspend(s1, Saved(s1.epoch));
    } else {
      HaltHandled(s.(credential := Absent), SignedOut);
    }
  }

  lemma StaleHandled(s: Connector, e: Event)
    requires OneThread(s) && Handled(s) && Awaiting(s, e) && !Current(s, s.awaits[e.ticket])
    ensures Handled(Answer(s, e))
  {
    StaleAnswer(s, e);
    var s1 := Redeem(s, e.ticket);
    forall k | k in s1.awaits ensures Current(s1, s1.awaits[k]) == Current(s, s.awaits[k]) {
    }
    assert OpeningNow(s) ==> OpeningNow(s1) by {
      if OpeningNow(s) {
        var k :| k in s.awaits && Current(s, s.awaits[k]) && s.awaits[k].Opening?;
        assert k in s1.awaits;
      }
    }
    hide Answer;
    SameHandled(s1, Answer(s, e));
  }

  /** The thread that is answered was no socket, so nothing flowed. */
  lemma OwnAnswerHandled(s: Connector, e: Event)
    requires OneThread(s) && Handled(s) && Awaiting(s, e) && Current(s, s.awaits[e.ticket])
    requires !e.SocketOpened? && !e.OpenFailed?
    ensures Handled(Answer(s, e))
  {
    var k := e.ticket;
    RedeemFrees(s, k);
    var s1 := Redeem(s, k);
    assert !s1.flowing;
    hide Acquire, BackOff, FindVehicle, Connect, Halt;
    match e
    case SavedCame(_, read, saved) =>
      var s2 := if read then LoadSaved(s1, saved) else s1;
      FreeSame(s1, s2);
      GoneOnHandled(s2, false, Acquiring, None, Reading(s.epoch));
    case ReadCame(_, credential) => ReadHandled(s1, credential);
    case UnsealCame(_, ok) => UnsealHandled(s1, ok);
    case CsrfCame(_, ok, draw) => GoneOnHandled(s1, false, Acquiring, draw, Saved(s.epoch));
    case InfoCame(_, account, draw) => InfoHandled(s1, account, draw);
  }

  lemma ReadHandled(s: Connector, credential: Read)
    requires Free(s) && !s.flowing && !s.stopped
    ensures Handled(OnRead(s, s.epoch, credential))
  {
    GoneOnHandled(s, false, Acquiring, None, Unsealing(s.epoch));
    FreeHandled(s);
    SameHandled(s, s.(credential := Undecided));
    HaltHandled(s.(credential := Absent), SignedOut);
    hide Halt, Handled;
  }

  lemma UnsealHandled(s: Connector, ok: bool)
    requires Free(s) && !s.flowing && !s.stopped
    ensures Handled(OnUnsealed(s, s.epoch, ok))
  {
    FreeHandled(s);
    SameHandled(s, s.(life := CredentialInvalid));
    var s1 := s.(token := Some(s.epoch));
    FreeSame(s, s1);
    GoneOnHandled(s1, false, Acquiring, None, Unsealing(s.epoch));
    hide Acquire, Handled;
  }

  lemma InfoHandled(s: Connector, account: Account, draw: Option<real>)
    requires Free(s) && !s.flowing && !s.stopped
    ensures Handled(OnInfo(s, s.epoch, account, draw))
  {
    GoneOnHandled(s, false, Acquiring, draw, Saved(s.epoch));
    ConnectHandled(s);
    HaltHandled(s, Unauthenticated);
    FreeHandled(s);
    var s1 := s.(life := WaitingForVehicle);
    SameHandled(s, Schedule(s1, VIN_RETRY_MS, LookingAgain));
    hide Connect, BackOff, Halt, Handled;
  }

  lemma OpenAnswerHandled(s: Connector, e: Event)
    requires OneThread(s) && Handled(s) && Awaiting(s, e) && Current(s, s.awaits[e.ticket])
    requires e.SocketOpened? || e.OpenFailed?
    ensures Handled(Answer(s, e))
  {
    if e.OpenFailed? {
      OpenFailedFrees(s, e.ticket);
      EndedHandled(DropConnection(Redeem(s, e.ticket)), e.dead, e.draw);
    }
  }

  lemma EndedHandled(s: Connector, dead: bool, draw: Option<real>)
    requires Free(s) && !s.flowing
    ensures Handled(if dead then Unauthenticate(s) else BackOff(s, Reconnecting, draw))
  {
    GoneOnHandled(s, false, Reconnecting, draw, Saved(s.epoch));
    HaltHandled(s, Unauthenticated);
    hide BackOff, Halt, Handled;
  }

  lemma ClosedHandled(s: Connector, h: Handlers, dead: bool, draw: Option<real>)
    requires OneThread(s) && Handled(s) && h in s.handlers
    ensures Handled(OnClosed(s, h, dead, draw))
  {
    if h.conn == s.connId && Alive(s, h.epoch) {
      DropFrees(s, h);
      EndedHandled(DropConnection(s), dead, draw);
    }
  }

  lemma FrameHandled(s: Connector, h: Handlers, dropped: bool)
    requires OneThread(s) && Handled(s) && h in s.handlers
    ensures Handled(OnFrame(s, h, dropped)) && Handled(Enqueue(s, dropped))
  {
    if h.conn == s.connId && !s.stopped && s.socket.None? {
      var k :| k in s.awaits && s.awaits[k] == Opening(h.epoch, h.conn);
      assert Current(s, s.awaits[k]);
    }
    var s1 := OnFrame(s, h, dropped);
    assert s1.awaits == s.awaits && s1.handlers == s.handlers && s1.connId == s.connId && s1.socket == s.socket;
    assert s1.epoch == s.epoch && s1.stopped == s.stopped;
    SameHandled(s, Enqueue(s, dropped));
    hide OnFrame, Enqueue, OneThread;
    forall k | k in s.awaits ensures Current(s1, s.awaits[k]) == Current(s, s.awaits[k]) {
    }
  }

  lemma FiredHandled(s: Connector, k: nat)
    requires OneThread(s) && Handled(s) && k in s.timers
    ensures Handled(OnTimer(s.(timers := s.timers - {k}), s.timers[k]))
  {
    var s1 := s.(timers := s.timers - {k});
    FireFrees(s, k);
    assert !s1.flowing || s1.stopped;
    if Alive(s1, s.timers[k].epoch) {
      GoneOnHandled(s1, true, Acquiring, None, Saved(s.epoch));
      ConnectHandled(s1);
    } else {
      FreeHandled(s1.(flowing := false));
    }
    hide Acquire, FindVehicle, Connect;
  }

  lemma RenewalsHandled(s: Connector)
    requires Handled(s)
    ensures Handled(RenewAll(s)) && Handled(MaybeRenew(s)) && Handled(OnSilence(s))
  {
    SameHandled(s, RenewAll(s));
    SameHandled(s, MaybeRenew(s));
    SilenceHandled(s);
  }

  lemma SilenceHandled(s: Connector)
    requires Handled(s)
    ensures Handled(OnSilence(s))
  {
    SameHandled(s, RenewAll(s));
    var s1 := if s.now - s.lastActivity >= SILENCE_MS then RenewAll(s) else s;
    hide RenewAll;
    SameHandled(s1, OnSilence(s));
  }

  lemma OtherHandled(s: Connector, e: Event)
    requires OneThread(s) && Handled(s) && !Awaiting(s, e)
    ensures Handled(Step(s, Timed(s.now, e)))
  {
    hide OnStamp, OnClosed, OnFrame, OnTimer, OnSilence, MaybeRenew, Unauthenticate, LoadSaved, Enqueue, Handled, OneThread;
    match e
    case Polled(stamp) => StampHandled(s, stamp);
    case SocketClosed(h, dead, draw) => if h in s.handlers { ClosedHandled(s, h, dead, draw); }
    case FrameCame(h, dropped) => if h in s.handlers { FrameHandled(s, h, dropped); }
    case Enqueued(dropped) => ToldHandled(s, dropped, None);
    case Refused(h) => RefusedHandled(s, h);
    case TimerFired(k) => if k in s.timers { FiredHandled(s, k); }
    case SilenceFired =>
      SameHandled(s, s.(silenceTimer := None));
      RenewalsHandled(s.(silenceTimer := None));
    case RenewFired =>
      SameHandled(s, s.(renewTimer := None));
      RenewalsHandled(s.(renewTimer := None));
    case QueueDrained =>
      SameHandled(s, s.(queueEmpty := true));
      RenewalsHandled(s.(queueEmpty := true));
    case StatusRead(saved) => ToldHandled(s, false, saved);
    case Stopped => StopHandled(s);
    case _ =>
  }

  lemma ToldHandled(s: Connector, dropped: bool, saved: Option<real>)
    requires Handled(s)
    ensures Handled(Enqueue(s, dropped)) && Handled(LoadSaved(s, saved))
  {
    SameHandled(s, Enqueue(s, dropped));
    SameHandled(s, LoadSaved(s, saved));
  }

  lemma RefusedHandled(s: Connector, h: Handlers)
    requires OneThread(s) && Handled(s)
    ensures Handled(OnRefused(s, h)) && Handled(Unauthenticate(s))
  {
    HaltHandled(s, Unauthenticated);
  }

  lemma StopHandled(s: Connector)
    ensures Handled(Stop(s))
  {
  }

  lemma StepHandled(s: Connector, te: Timed)
    requires OneThread(s) && Handled(s)
    ensures Handled(Step(s, te))
  {
    var s1, e := s.(now := te.at), te.event;
    StepIsNow(s, te);
    SameHandled(s, s1);
    OneThreadNow(s, te.at);
    hide Step, OneThread, Handled;
    if Awaiting(s1, e) {
      StepIsAnswer(s1, e);
      hide Answer;
      if !Current(s1, s1.awaits[e.ticket]) {
        StaleHandled(s1, e);
      } else if e.SocketOpened? || e.OpenFailed? {
        OpenAnswerHandled(s1, e);
      } else {
        OwnAnswerHandled(s1, e);
      }
    } else {
      OtherHandled(s1, e);
    }
  }

  lemma OneThreadNow(s: Connector, at: real)
    requires OneThread(s)
    ensures OneThread(s.(now := at))
  {
    var s1 := s.(now := at);
    forall k | k in s.awaits ensures Current(s1, s1.awaits[k]) == Current(s, s.awaits[k]) {
    }
  }

  lemma {:induction false} RunHandled(s: Connector, events: seq<Timed>, early: real)
    requires Inv(s, early) && Small(early) && AllTimely(s, events, early) && Handled(s)
    ensures Handled(Run(s, events))
    decreases |events|
  {
    if events != [] {
      StepInv(s, events[0], early);
      StepHandled(s, events[0]);
      hide Paced, OneThread, Handled, Step;
      RunHandled(Step(s, events[0]), events[1..], early);
    }
  }

  // ----- what would cut it short ---------------------------------------------------------

  lemma RunFirst(s: Connector, te: Timed, rest: seq<Timed>, early: real)
    requires Timely(s, te, early) && AllTimely(Step(s, te), rest, early)
    ensures AllTimely(s, [te] + rest, early) && Run(s, [te] + rest) == Run(Step(s, te), rest)
  {
    var all := [te] + rest;
    assert all[0] == te && all[1..] == rest;
  }

  /** The run opens a socket at `at`, after the marks there were. */
  ghost predicate Opens(s: Connector, events: seq<Timed>, early: real, n: nat, at: real) {
    && AllTimely(s, events, early)
    && exists i :: n <= i < |Run(s, events).log| && Run(s, events).log[i] == OpenedSocket(at)
  }

  lemma ConnectOpens(s: Connector, n: nat)
    requires n <= |s.log|
    ensures var log := Connect(s).log; log[|s.log|] == OpenedSocket(s.now) && |log| == |s.log| + 1
  {
  }

  /** The car is found at once. */
  lemma InfoOpens(s: Connector, k: nat, early: real, n: nat) returns (events: seq<Timed>)
    requires k in s.awaits && s.awaits[k].Info? && Alive(s, s.awaits[k].epoch) && n <= |s.log|
    ensures Opens(s, events, early, n, s.now)
  {
    var te := Timed(s.now, InfoCame(k, Found, None));
    events := [te] + [];
    RunFirst(s, te, [], early);
    var s1 := Redeem(s, k);
    assert Step(s, te) == Connect(s1);
    ConnectOpens(s1, n);
    assert Run(s, events).log[|s.log|] == OpenedSocket(s.now);
  }

  lemma CsrfOpens(s: Connector, k: nat, early: real, n: nat) returns (events: seq<Timed>)
    requires k in s.awaits && s.awaits[k].Csrf? && Alive(s, s.awaits[k].epoch) && n <= |s.log|
    ensures Opens(s, events, early, n, s.now)
  {
    var te := Timed(s.now, CsrfCame(k, true, None));
    var s1 := Step(s, te);
    assert s1 == FindVehicle(Redeem(s, k));
    assert s.tickets in s1.awaits && s1.awaits[s.tickets] == Info(s.epoch);
    var rest := InfoOpens(s1, s.tickets, early, n);
    events := [te] + rest;
    RunFirst(s, te, rest, early);
  }

  /** A timer fires as soon as it may. */
  lemma TimerOpens(s: Connector, k: nat, early: real, n: nat) returns (events: seq<Timed>)
    requires k in s.timers && Alive(s, s.timers[k].epoch) && n <= |s.log|
    ensures Opens(s, events, early, n, Max(s.now, s.timers[k].due - early))
  {
    var t := s.timers[k];
    var te := Timed(Max(s.now, t.due - early), TimerFired(k));
    var s1 := Step(s, te);
    var fired := s.(now := te.at, timers := s.timers - {k});
    assert s1 == OnTimer(fired, t);
    var rest := FiredOpens(s, fired, s1, t, early, n);
    events := [te] + rest;
    RunFirst(s, te, rest, early);
  }

  lemma FiredOpens(s: Connector, fired: Connector, s1: Connector, t: Timer, early: real, n: nat) returns (rest: seq<Timed>)
    requires Alive(fired, t.epoch) && s1 == OnTimer(fired, t) && n <= |fired.log|
    ensures Opens(s1, rest, early, n, fired.now)
  {
    match t.resume
    case Acquiring =>
      assert s1.awaits[fired.tickets] == Csrf(fired.epoch);
      rest := CsrfOpens(s1, fired.tickets, early, n);
    case LookingAgain =>
      assert s1.awaits[fired.tickets] == Info(fired.epoch);
      rest := InfoOpens(s1, fired.tickets, early, n);
    case Reconnecting =>
      rest := [];
      ConnectOpens(fired, n);
      assert Run(s1, rest).log[|fired.log|] == OpenedSocket(fired.now);
  }

  /** A socket that is up flows, ends, and is opened again after the shortest wait there is. */
  lemma SocketOpens(s: Connector, early: real, n: nat) returns (events: seq<Timed>)
    requires Inv(s, early) && Handled(s) && !s.stopped && s.socket.Some? && n <= |s.log| && Small(early)
    ensures Opens(s, events, early, n, s.now + BACKOFF_FLOOR_MS - early)
  {
    var h := Handlers(s.epoch, s.connId);
    var te := Timed(s.now, FrameCame(h, false));
    var s1 := Step(s, te);
    assert s1 == OnFrame(s, h, false);
    assert s1.failures == 0 && s1.handlers == s.handlers && s1.log == s.log;
    var rest := FlowingOpens(s1, h, early, n);
    events := [te] + rest;
    RunFirst(s, te, rest, early);
  }

  lemma FlowingOpens(s: Connector, h: Handlers, early: real, n: nat) returns (events: seq<Timed>)
    requires !s.stopped && h == Handlers(s.epoch, s.connId) && h in s.handlers && s.failures == 0
    requires n <= |s.log| && Small(early)
    ensures Opens(s, events, early, n, s.now + BACKOFF_FLOOR_MS - early)
  {
    var te := Timed(s.now, SocketClosed(h, false, Some(0.0)));
    var dropped := DropConnection(s);
    var s1 := Step(s, te);
    assert s1 == BackOff(dropped, Reconnecting, Some(0.0));
    ShortestWait();
    assert s1.timers[s.tickets] == Timer(s.now + BACKOFF_FLOOR_MS, s.epoch, Reconnecting);
    var rest := TimerOpens(s1, s.tickets, early, n);
    events := [te] + rest;
    RunFirst(s, te, rest, early);
  }

  lemma ShortestWait()
    ensures Wait(0, Some(0.0)) == BACKOFF_FLOOR_MS
  {
  }

  lemma OpeningOpens(s: Connector, k: nat, early: real, n: nat) returns (events: seq<Timed>)
    requires Inv(s, early) && Handled(s) && k in s.awaits && s.awaits[k].Opening? && Current(s, s.awaits[k])
    requires n <= |s.log| && Small(early)
    ensures Opens(s, events, early, n, s.now + BACKOFF_FLOOR_MS - early)
  {
    var te := Timed(s.now, SocketOpened(k));
    var s1 := Step(s, te);
    StepInv(s, te, early);
    StepHandled(s, te);
    assert s1.socket.Some? && s1.log == s.log && s1.now == s.now && !s1.stopped;
    var rest := SocketOpens(s1, early, n);
    events := [te] + rest;
    RunFirst(s, te, rest, early);
  }

  /** Whatever is not behind can open a socket too soon. */
  lemma CutShort(s: Connector, until: real, early: real) returns (events: seq<Timed>)
    requires Inv(s, early) && Handled(s) && Small(early) && !s.stopped
    requires s.now + early < until && !Behind(s, until)
    ensures AllTimely(s, events, early) && !Late(Run(s, events).log, |s.log|, until, early)
  {
    var n := |s.log|;
    var at: real;
    if k :| k in s.awaits && Current(s, s.awaits[k]) && s.awaits[k].Csrf? {
      at := s.now;
      events := CsrfOpens(s, k, early, n);
    } else if k :| k in s.awaits && Current(s, s.awaits[k]) && s.awaits[k].Info? {
      at := s.now;
      events := InfoOpens(s, k, early, n);
    } else if k :| k in s.timers && s.timers[k].due < until {
      at := Max(s.now, s.timers[k].due - early);
      events := TimerOpens(s, k, early, n);
    } else if s.socket.Some? {
      at := s.now + BACKOFF_FLOOR_MS - early;
      events := SocketOpens(s, early, n);
    } else {
      var k :| k in s.awaits && Current(s, s.awaits[k]) && s.awaits[k].Opening?;
      at := s.now + BACKOFF_FLOOR_MS - early;
      events := OpeningOpens(s, k, early, n);
    }
    TooSoon(s, events, early, n, at, until);
  }

  lemma TooSoon(s: Connector, events: seq<Timed>, early: real, n: nat, at: real, until: real)
    requires Opens(s, events, early, n, at) && at + early < until
    ensures AllTimely(s, events, early) && !Late(Run(s, events).log, n, until, early)
  {
  }

  // ----- the saved backoff ---------------------------------------------------------------

  /** WHEN A SAVED BACKOFF IS WAITED OUT, in every reachable state where it is owed: every later socket,
      in every run from there, waits for it if and only if it is over, or nothing under way is past
      the check, no timer is due sooner, and no socket up or coming could end and be opened again
      within the shortest wait. */
  lemma SavedWaitIsKeptIff(events: seq<Timed>, early: real, until: real)
    requires Small(early) && AllTimely(NEW, events, early)
    requires !Run(NEW, events).stopped && Run(NEW, events).reconnectAt >= until
    ensures var s := Run(NEW, events);
      (forall more | AllTimely(s, more, early) :: Late(Run(s, more).log, |s.log|, until, early))
      <==> s.now + early >= until || Behind(s, until)
  {
    NewIsSound(early);
    RunInv(NEW, events, early);
    RunHandled(NEW, events, early);
    var s := Run(NEW, events);
    if Keeps(s, until, early) {
      forall more | AllTimely(s, more, early) ensures Late(Run(s, more).log, |s.log|, until, early) {
        RunKeepsSaved(s, more, until, early, |s.log|);
      }
    } else {
      var more := CutShort(s, until, early);
    }
  }

  /** THE RESTART THAT GOES AS MEANT: the first lifecycle reads it before it calls anyone, and then no
      socket is opened before it is over. */
  lemma RestartWaits(s: Connector, k: nat, until: real, early: real, more: seq<Timed>)
    requires Inv(s, early) && Small(early) && !s.loaded && k in s.awaits && s.awaits[k].Saved? && Current(s, s.awaits[k])
    requires var te := Timed(s.now, SavedCame(k, true, Some(until))); AllTimely(Step(s, te), more, early)
    ensures var s1 := Step(s, Timed(s.now, SavedCame(k, true, Some(until))));
      Late(Run(s1, more).log, |s1.log|, until, early)
  {
    var te := Timed(s.now, SavedCame(k, true, Some(until)));
    var s1 := Step(s, te);
    RedeemFrees(s, k);
    var loaded := LoadSaved(Redeem(s, k), Some(until));
    FreeSame(Redeem(s, k), loaded);
    SuspendBehind(loaded, Reading(s.epoch), until);
    assert s1 == Suspend(loaded, Reading(s.epoch));
    StepInv(s, te, early);
    RunKeepsSaved(s1, more, until, early, |s1.log|);
  }

  /** The first lifecycle's one await, at time 0; what has been read of the status. */
  predicate Alone(s: Connector, k: nat, a: Await, owed: Option<real>) {
    && s.now == 0.0 && !s.stopped && s.epoch == 1 && s.awaits == map[k := a] && s.tickets == k + 1 && s.log == []
    && s.loaded == owed.Some? && s.reconnectAt == (if owed.Some? then owed.value else 0.0)
  }

  function AtOnce(e: Event): Timed {
    Timed(0.0, e)
  }

  lemma PolledFirst()
    ensures Alone(Step(NEW, AtOnce(Polled(Some(1)))), 0, Saved(1), None)
  {
  }

  lemma ReadFails(s: Connector)
    requires Alone(s, 0, Saved(1), None)
    ensures Alone(Step(s, AtOnce(SavedCame(0, false, None))), 1, Reading(1), None)
  {
    assert s.awaits - {0} == map[];
  }

  lemma CredentialRead(s: Connector)
    requires Alone(s, 1, Reading(1), None)
    ensures Alone(Step(s, AtOnce(ReadCame(1, ConnectorModel.Row))), 2, Unsealing(1), None)
  {
    assert s.awaits - {1} == map[];
  }

  lemma Unsealed(s: Connector)
    requires Alone(s, 2, Unsealing(1), None)
    ensures Alone(Step(s, AtOnce(UnsealCame(2, true))), 3, Csrf(1), None)
  {
    assert s.awaits - {2} == map[];
  }

  lemma LoadedLate(s: Connector, until: real)
    requires Alone(s, 3, Csrf(1), None) && until >= 0.0
    ensures Alone(Step(s, AtOnce(StatusRead(Some(until)))), 3, Csrf(1), Some(until))
  {
  }

  lemma SessionCame(s: Connector, until: real)
    requires Alone(s, 3, Csrf(1), Some(until))
    ensures Alone(Step(s, AtOnce(CsrfCame(3, true, None))), 4, Info(1), Some(until))
  {
    assert s.awaits - {3} == map[];
  }

  lemma CarFound(s: Connector, until: real)
    requires Alone(s, 4, Info(1), Some(until))
    ensures var s1 := Step(s, AtOnce(InfoCame(4, Found, None)));
      s1.loaded && s1.reconnectAt == until && s1.log == [OpenedSocket(0.0)]
  {
  }

  lemma RunsOn(s: Connector, e: Event, rest: seq<Timed>)
    requires s.now == 0.0 && !e.TimerFired? && AllTimely(Step(s, AtOnce(e)), rest, 0.0)
    ensures AllTimely(s, [AtOnce(e)] + rest, 0.0) && Run(s, [AtOnce(e)] + rest) == Run(Step(s, AtOnce(e)), rest)
  {
    RunFirst(s, AtOnce(e), rest, 0.0);
  }

  /** AND ONE THAT DOES NOT: the first read of the status fails, a later one succeeds while the session
      is asked for, and a socket is opened at once, 15 minutes too soon. */
  lemma LateReadCutsShort() returns (events: seq<Timed>)
    ensures AllTimely(NEW, events, 0.0)
    ensures var s := Run(NEW, events); s.loaded && s.reconnectAt == 900_000.0 && s.log == [OpenedSocket(0.0)]
  {
    var e1, e2, e3 := Polled(Some(1)), SavedCame(0, false, None), ReadCame(1, ConnectorModel.Row);
    var e4, e5, e6, e7 := UnsealCame(2, true), StatusRead(Some(900_000.0)), CsrfCame(3, true, None), InfoCame(4, Found, None);
    var s1 := Step(NEW, AtOnce(e1));
    var s2 := Step(s1, AtOnce(e2));
    var s3 := Step(s2, AtOnce(e3));
    var s4 := Step(s3, AtOnce(e4));
    var s5 := Step(s4, AtOnce(e5));
    var s6 := Step(s5, AtOnce(e6));
    PolledFirst();
    ReadFails(s1);
    CredentialRead(s2);
    Unsealed(s3);
    LoadedLate(s4, 900_000.0);
    SessionCame(s5, 900_000.0);
    CarFound(s6, 900_000.0);
    hide Step;
    RunsOn(s6, e7, []);
    RunsOn(s5, e6, [AtOnce(e7)] + []);
    RunsOn(s4, e5, [AtOnce(e6)] + ([AtOnce(e7)] + []));
    RunsOn(s3, e4, [AtOnce(e5)] + ([AtOnce(e6)] + ([AtOnce(e7)] + [])));
    RunsOn(s2, e3, [AtOnce(e4)] + ([AtOnce(e5)] + ([AtOnce(e6)] + ([AtOnce(e7)] + []))));
    RunsOn(s1, e2, [AtOnce(e3)] + ([AtOnce(e4)] + ([AtOnce(e5)] + ([AtOnce(e6)] + ([AtOnce(e7)] + [])))));
    events := [AtOnce(e2)] + ([AtOnce(e3)] + ([AtOnce(e4)] + ([AtOnce(e5)] + ([AtOnce(e6)] + ([AtOnce(e7)] + [])))));
    RunsOn(NEW, e1, events);
    events := [AtOnce(e1)] + events;
  }
}
