/** What holds over whole runs of the connector, however its awaits, timers, polls and sockets are
    interleaved:

      at most one thread of control waits to act, that of the lifecycle that is alive;
      no socket is opened before every backoff so far has been waited out;
      no two renewals come within a minute of each other, and none that is due gets lost. */
module ConnectorRuns {
  import opened Collections
  import opened Backoffs
  import opened ConnectorModel

  // ----- one thread of control -----------------------------------------------------------

  /** Something awaited that will act when it comes. */
  predicate Current(s: Connector, a: Await) {
    Alive(s, a.epoch) && (a.Opening? ==> a.conn == s.connId)
  }

  /** Tickets are not used twice, nothing comes from the future, and a renewal is for a socket. */
  ghost predicate Ticketed(s: Connector) {
    && (forall k | k in s.awaits :: k < s.tickets && s.awaits[k].epoch <= s.epoch)
    && (forall k | k in s.awaits && s.awaits[k].Opening? :: s.awaits[k].conn <= s.connId)
    && (forall k | k in s.timers :: k < s.tickets && Alive(s, s.timers[k].epoch))
    && (forall h | h in s.handlers :: h.conn <= s.connId && h.epoch <= s.epoch)
    && (s.renewPending && !s.stopped ==> s.socket.Some?)
  }

  /** Nothing is waiting to act: not an await, not a timer, not a socket. */
  ghost predicate Free(s: Connector) {
    && Ticketed(s)
    && (forall k | k in s.awaits :: !Current(s, s.awaits[k]))
    && s.timers == map[]
    && s.socket.None? && s.silenceTimer.None?
    && (forall h | h in s.handlers :: h.conn < s.connId)
  }

  /** At most one thing is: what a lifecycle waits for, its timer, or its socket. The handlers that
      are heard are those of the socket that is up or being opened. */
  ghost predicate OneThread(s: Connector) {
    && Ticketed(s)
    && (forall j, k | j in s.awaits && k in s.awaits && Current(s, s.awaits[j]) && Current(s, s.awaits[k]) :: j == k)
    && (forall j, k | j in s.timers && k in s.timers :: j == k)
    && (s.timers != map[] ==> s.socket.None? && forall k | k in s.awaits :: !Current(s, s.awaits[k]))
    && (s.socket.Some? ==> !s.stopped && forall k | k in s.awaits :: !Current(s, s.awaits[k]))
    && (forall h | h in s.handlers && h.conn == s.connId ::
          && Alive(s, h.epoch) && s.timers == map[]
          && (s.socket.Some? || exists k :: k in s.awaits && s.awaits[k] == Opening(h.epoch, h.conn)))
    && (s.silenceTimer.Some? <==> s.socket.Some?)
  }

  lemma FreeIsOneThread(s: Connector)
    requires Free(s)
    ensures OneThread(s)
  {
  }

  lemma HaltFrees(s: Connector)
    requires Ticketed(s)
    ensures Free(Halt(s))
  {
  }

  /** Dropping the connection whose handlers were heard. */
  lemma DropFrees(s: Connector, h: Handlers)
    requires OneThread(s) && h in s.handlers && h.conn == s.connId
    ensures Free(DropConnection(s))
  {
    var s1 := DropConnection(s);
    forall k | k in s1.awaits ensures !Current(s1, s1.awaits[k]) {
      if Current(s1, s1.awaits[k]) {
        assert Current(s, s.awaits[k]);
      }
    }
  }

  /** An await redeemed by the lifecycle that is running leaves nothing else to act. */
  lemma RedeemFrees(s: Connector, k: nat)
    requires OneThread(s) && k in s.awaits && Current(s, s.awaits[k]) && !s.awaits[k].Opening?
    ensures Free(Redeem(s, k))
  {
  }

  /** One redeemed by any other changes nothing. */
  lemma RedeemKeeps(s: Connector, k: nat)
    requires OneThread(s) && k in s.awaits && !Current(s, s.awaits[k])
    ensures OneThread(Redeem(s, k))
  {
    var s1 := Redeem(s, k);
    forall h | h in s1.handlers && h.conn == s1.connId
      ensures s1.socket.Some? || exists j :: j in s1.awaits && s1.awaits[j] == Opening(h.epoch, h.conn)
    {
      if s.socket.None? {
        var j :| j in s.awaits && s.awaits[j] == Opening(h.epoch, h.conn);
        assert Current(s, s.awaits[j]);
        assert j in s1.awaits;
      }
    }
  }

  lemma FireFrees(s: Connector, k: nat)
    requires OneThread(s) && k in s.timers
    ensures Free(s.(timers := s.timers - {k}))
  {
    forall h | h in s.handlers ensures h.conn < s.connId {
      assert h.conn != s.connId;
    }
    assert s.timers - {k} == map[];
  }

  lemma SuspendKeeps(s: Connector, a: Await)
    requires Free(s) && a.epoch == s.epoch && !a.Opening?
    ensures OneThread(Suspend(s, a))
  {
  }

  lemma ScheduleKeeps(s: Connector, wait: real, resume: Resume)
    requires Free(s) && !s.stopped
    ensures OneThread(Schedule(s, wait, resume))
  {
  }

  lemma ConnectKeeps(s: Connector)
    requires Free(s) && !s.stopped
    ensures OneThread(Connect(s))
  {
    var s1 := Connect(s);
    assert s1.awaits[s.tickets] == Opening(s.epoch, s.connId + 1);
  }

  /** A socket that opens for the lifecycle that asked. */
  lemma OpenedOwn(s: Connector, k: nat)
    requires OneThread(s) && k in s.awaits && s.awaits[k].Opening? && Current(s, s.awaits[k])
    ensures OneThread(OnOpened(Redeem(s, k), s.awaits[k].epoch, s.awaits[k].conn))
  {
    var s1 := Redeem(s, k);
    assert s1.timers == map[] && s1.socket.None?;
    forall j | j in s1.awaits ensures !Current(s1, s1.awaits[j]) {
      assert s1.awaits[j] == s.awaits[j];
      assert Current(s1, s1.awaits[j]) == Current(s, s.awaits[j]);
    }
    SocketUp(s1);
  }

  lemma SocketUp(s: Connector)
    requires Ticketed(s) && s.timers == map[] && !s.stopped
    requires forall j | j in s.awaits :: !Current(s, s.awaits[j])
    requires forall h | h in s.handlers && h.conn == s.connId :: Alive(s, h.epoch)
    ensures OneThread(s.(socket := Some(s.connId), flowing := false, lastActivity := s.now, life := Subscribed,
                         silenceTimer := Some(s.now + SILENCE_MS)))
  {
    var s2 := s.(socket := Some(s.connId), flowing := false, lastActivity := s.now, life := Subscribed,
                 silenceTimer := Some(s.now + SILENCE_MS));
    forall j | j in s2.awaits ensures !Current(s2, s2.awaits[j]) {
      assert Current(s2, s2.awaits[j]) == Current(s, s.awaits[j]);
    }
  }

  // ----- pacing --------------------------------------------------------------------------

  /** The latest instant to which any failure so far backs off. */
  function Owed(log: seq<Mark>): real {
    if log == [] then 0.0
    else
      var last := log[|log| - 1];
      if last.Failure? then Max(Owed(log[..|log| - 1]), last.until) else Owed(log[..|log| - 1])
  }

  lemma OwedMore(log: seq<Mark>, m: Mark)
    ensures Owed(log + [m]) == if m.Failure? then Max(Owed(log), m.until) else Owed(log)
  {
    assert (log + [m])[..|log|] == log;
  }

  lemma {:induction false} OwedCovers(log: seq<Mark>, i: nat)
    requires i < |log| && log[i].Failure?
    ensures log[i].until <= Owed(log)
  {
    if i < |log| - 1 {
      OwedCovers(log[..|log| - 1], i);
    }
  }

  /** No socket is opened before every failure so far has been waited out, each of them for the
      floor at least. */
  ghost predicate PacedLog(log: seq<Mark>, early: real) {
    && (forall i | 0 <= i < |log| && log[i].Failure? :: log[i].until >= log[i].at + BACKOFF_FLOOR_MS)
    && (forall i, j | 0 <= i < j < |log| && log[i].Failure? && log[j].OpenedSocket? ::
          log[j].at + early >= log[i].until)
  }

  /** Renewals of everything are a minute apart. */
  ghost predicate RenewLog(log: seq<Mark>) {
    forall i, j | 0 <= i < j < |log| && log[i].Renewal? && log[j].Renewal? ::
      log[j].at >= log[i].at + MIN_RENEW_INTERVAL_MS
  }

  /** Every failure so far has been waited out. */
  predicate Cleared(s: Connector, early: real) {
    s.now + early >= Owed(s.log)
  }

  ghost predicate Renewals(s: Connector) {
    && RenewLog(s.log)
    && 0.0 <= s.lastActivity <= s.now
    && (s.lastRenewAt.Some? ==> s.lastRenewAt.value <= s.lastActivity)
    && (forall i | 0 <= i < |s.log| && s.log[i].Renewal? :: s.lastRenewAt.Some? && s.log[i].at <= s.lastRenewAt.value)
  }

  ghost predicate Base(s: Connector, early: real) {
    PacedLog(s.log, early) && Owed(s.log) <= s.reconnectAt && Renewals(s)
  }

  /** Past the check: what it leads to is not held back by a backoff again. */
  predicate PastCheck(s: Connector, a: Await) {
    Current(s, a) && (a.Csrf? || a.Info? || a.Opening?)
  }

  ghost predicate Paced(s: Connector, early: real) {
    && Base(s, early)
    && (forall k | k in s.awaits && PastCheck(s, s.awaits[k]) :: Cleared(s, early))
    && (forall k | k in s.timers :: s.timers[k].due >= Owed(s.log) || Cleared(s, early))
    && (s.socket.Some? ==> Cleared(s, early))
  }

  /** A renewal that a drop has asked for is waited for: by the queue's emptying, or by its timer. */
  predicate NotLost(s: Connector) {
    s.renewPending && s.queueEmpty && !s.stopped ==> s.renewTimer.Some?
  }

  ghost predicate Inv(s: Connector, early: real) {
    OneThread(s) && Paced(s, early) && NotLost(s)
  }

  predicate Small(early: real) {
    0.0 <= early <= BACKOFF_FLOOR_MS
  }

  lemma LogMore(s: Connector, m: Mark, early: real)
    requires PacedLog(s.log, early) && RenewLog(s.log)
    requires m.Failure? ==> m.until >= m.at + BACKOFF_FLOOR_MS
    requires m.OpenedSocket? ==> m.at + early >= Owed(s.log)
    requires m.Renewal? ==> forall i | 0 <= i < |s.log| && s.log[i].Renewal? :: m.at >= s.log[i].at + MIN_RENEW_INTERVAL_MS
    ensures PacedLog(s.log + [m], early) && RenewLog(s.log + [m])
  {
    var log := s.log + [m];
    forall i | 0 <= i < |s.log| && m.OpenedSocket? && log[i].Failure? ensures m.at + early >= log[i].until {
      OwedCovers(s.log, i);
    }
  }

  lemma TimePasses(s: Connector, at: real, early: real)
    requires Inv(s, early) && s.now <= at
    ensures Inv(s.(now := at), early)
  {
    var s1 := s.(now := at);
    forall k | k in s.awaits ensures Current(s1, s1.awaits[k]) == Current(s, s.awaits[k]) {
    }
  }

  // ----- what each step of a lifecycle keeps ---------------------------------------------

  lemma SuspendInv(s: Connector, a: Await, early: real)
    requires Free(s) && Base(s, early) && a.epoch == s.epoch && !a.Opening?
    requires a.Csrf? || a.Info? ==> Cleared(s, early)
    ensures Inv(Suspend(s, a), early)
  {
    SuspendKeeps(s, a);
    var s1 := Suspend(s, a);
    forall k | k in s1.awaits && PastCheck(s1, s1.awaits[k]) ensures Cleared(s1, early) {
      if k != s.tickets {
        assert Current(s, s.awaits[k]);
      }
    }
  }

  lemma ScheduleInv(s: Connector, wait: real, resume: Resume, early: real)
    requires Free(s) && Base(s, early) && !s.stopped
    requires s.now + wait >= Owed(s.log) || Cleared(s, early)
    ensures Inv(Schedule(s, wait, resume), early)
  {
    ScheduleKeeps(s, wait, resume);
    var s1 := Schedule(s, wait, resume);
    forall k | k in s1.awaits ensures !Current(s1, s1.awaits[k]) {
      assert !Current(s, s.awaits[k]);
    }
  }

  lemma AcquireInv(s: Connector, waited: bool, early: real)
    requires Free(s) && Base(s, early) && !s.stopped && Small(early)
    requires waited ==> Cleared(s, early)
    ensures Inv(Acquire(s, waited), early)
  {
    var wait := s.reconnectAt - s.now;
    if !waited && wait > 0.0 {
      ScheduleInv(s.(life := BackingOff), wait, Acquiring, early);
    } else {
      SuspendInv(s.(life := Starting), Csrf(s.epoch), early);
    }
  }

  /** A failure noted, before its wait is scheduled. */
  function Noted(s: Connector, draw: Option<real>): Connector {
    var until := s.now + Wait(s.failures, draw);
    s.(failures := s.failures + 1, reconnectAt := Max(s.reconnectAt, until), life := BackingOff,
       log := s.log + [Failure(s.now, until)])
  }

  lemma NotedBase(s: Connector, draw: Option<real>, early: real)
    requires Base(s, early) && Small(early) && Cleared(s, early)
    ensures Base(Noted(s, draw), early)
    ensures Owed(Noted(s, draw).log) == s.now + Wait(s.failures, draw)
  {
    hide PacedLog, RenewLog, Wait;
    WaitIsBounded(s.failures, draw);
    var m := Failure(s.now, s.now + Wait(s.failures, draw));
    assert Noted(s, draw).log == s.log + [m];
    LogMore(s, m, early);
    OwedMore(s.log, m);
    BaseMore(s, Noted(s, draw), early);
  }

  lemma BackOffInv(s: Connector, resume: Resume, draw: Option<real>, early: real)
    requires Free(s) && Base(s, early) && !s.stopped && Small(early) && Cleared(s, early)
    ensures Inv(BackOff(s, resume, draw), early)
  {
    NotedBase(s, draw, early);
    FreeSame(s, Noted(s, draw));
    ScheduleInv(Noted(s, draw), Wait(s.failures, draw), resume, early);
  }

  lemma BaseMore(s: Connector, s1: Connector, early: real)
    requires Renewals(s) && PacedLog(s1.log, early) && RenewLog(s1.log) && Owed(s1.log) <= s1.reconnectAt
    requires |s1.log| == |s.log| + 1 && s1.log[..|s.log|] == s.log && !s1.log[|s.log|].Renewal?
    requires s1.now == s.now && s1.lastActivity == s.lastActivity && s1.lastRenewAt == s.lastRenewAt
    ensures Base(s1, early)
  {
    forall i | 0 <= i < |s1.log| && s1.log[i].Renewal?
      ensures s1.lastRenewAt.Some? && s1.log[i].at <= s1.lastRenewAt.value
    {
      assert s.log[i] == s1.log[i];
    }
  }

  /** Being free is a matter of the threads alone. */
  lemma FreeSame(s: Connector, s1: Connector)
    requires Free(s)
    requires s1.awaits == s.awaits && s1.timers == s.timers && s1.handlers == s.handlers && s1.connId == s.connId
    requires s1.socket == s.socket && s1.silenceTimer == s.silenceTimer && s1.epoch == s.epoch
    requires s1.stopped == s.stopped && s1.tickets == s.tickets && s1.renewPending == s.renewPending
    ensures Free(s1)
  {
    forall k | k in s1.awaits ensures !Current(s1, s1.awaits[k]) {
      assert !Current(s, s.awaits[k]);
    }
  }

  lemma ConnectInv(s: Connector, early: real)
    requires Free(s) && Base(s, early) && !s.stopped && Cleared(s, early)
    ensures Inv(Connect(s), early)
  {
    ConnectKeeps(s);
    var m := OpenedSocket(s.now);
    LogMore(s, m, early);
    OwedMore(s.log, m);
    BaseMore(s, Connect(s), early);
  }

  lemma HaltInv(s: Connector, life: Life, early: real)
    requires Ticketed(s) && Base(s, early)
    ensures Free(Halt(s)) && Base(Halt(s), early)
    ensures Inv(Halt(s).(life := life), early)
  {
    HaltFrees(s);
    var s1 := Halt(s).(life := life);
    FreeSame(Halt(s), s1);
    FreeIsOneThread(s1);
  }

  lemma BeginInv(s: Connector, early: real)
    requires Ticketed(s) && Base(s, early)
    ensures Inv(Begin(s), early)
  {
    HaltInv(s, Starting, early);
    var s1 := Halt(s).(life := Starting);
    FreeSame(Halt(s), s1);
    SuspendInv(s1, Saved(s1.epoch), early);
  }

  lemma SignOutInv(s: Connector, early: real)
    requires Ticketed(s) && Base(s, early)
    ensures Inv(SignOut(s), early)
  {
    HaltInv(s.(credential := Absent), SignedOut, early);
  }

  lemma StampInv(s: Connector, stamp: Option<int>, early: real)
    requires Inv(s, early)
    ensures Inv(OnStamp(s, stamp), early)
  {
    if s.stopped || (stamp.None? && s.credential.Absent?) || (stamp.Some? && s.credential == Stamped(stamp.value)) {
      assert OnStamp(s, stamp) == s;
    } else if stamp.Some? {
      BeginInv(s.(credential := Stamped(stamp.value)), early);
      assert OnStamp(s, stamp) == Begin(s.(credential := Stamped(stamp.value)));
    } else {
      SignOutInv(s, early);
      assert OnStamp(s, stamp) == SignOut(s);
    }
  }

  /** What a lifecycle reads of the status or the credential changes no thread. */
  lemma ReadInv(s: Connector, s1: Connector, early: real)
    requires Inv(s, early)
    requires s1 == s.(credential := s1.credential, token := s1.token, life := s1.life, loaded := s1.loaded,
                      reconnectAt := s1.reconnectAt)
    requires s1.reconnectAt >= s.reconnectAt
    ensures Inv(s1, early)
  {
    forall k | k in s.awaits ensures Current(s1, s1.awaits[k]) == Current(s, s.awaits[k]) {
    }
  }

  /** An await of a lifecycle that is over. */
  lemma StaleInv(s: Connector, k: nat, early: real)
    requires Inv(s, early) && k in s.awaits && !Current(s, s.awaits[k])
    ensures Inv(Redeem(s, k), early)
  {
    RedeemKeeps(s, k);
    var s1 := Redeem(s, k);
    forall j | j in s1.awaits ensures Current(s1, s1.awaits[j]) == Current(s, s.awaits[j]) {
    }
  }

  /** One of the lifecycle that is running. */
  lemma OwnFrees(s: Connector, k: nat, early: real)
    requires Inv(s, early) && k in s.awaits && Current(s, s.awaits[k]) && !s.awaits[k].Opening?
    ensures Free(Redeem(s, k)) && Base(Redeem(s, k), early) && !s.stopped
    ensures PastCheck(s, s.awaits[k]) ==> Cleared(Redeem(s, k), early)
  {
    RedeemFrees(s, k);
  }

  lemma SavedInv(s: Connector, k: nat, read: bool, until: Option<real>, early: real)
    requires Inv(s, early) && k in s.awaits && s.awaits[k].Saved?
    ensures Inv(OnSaved(if read then LoadSaved(Redeem(s, k), until) else Redeem(s, k), s.awaits[k].epoch), early)
  {
    var s1 := Redeem(s, k);
    var s2 := if read then LoadSaved(s1, until) else s1;
    if Current(s, s.awaits[k]) {
      OwnFrees(s, k, early);
      FreeSame(s1, s2);
      SuspendInv(s2, Reading(s.epoch), early);
    } else {
      StaleInv(s, k, early);
      ReadInv(s1, s2, early);
    }
  }

  lemma OwnReadInv(s: Connector, k: nat, read: Read, early: real)
    requires Inv(s, early) && k in s.awaits && s.awaits[k].Reading? && Current(s, s.awaits[k])
    ensures Inv(OnRead(Redeem(s, k), s.awaits[k].epoch, read), early)
  {
    var s1 := Redeem(s, k);
    OwnFrees(s, k, early);
    match read
    case Row => SuspendInv(s1, Unsealing(s.epoch), early);
    case NoRow => SignOutInv(s1, early);
    case Unread =>
      FreeSame(s1, s1.(credential := Undecided));
      FreeIsOneThread(s1.(credential := Undecided));
  }

  lemma ReadCameInv(s: Connector, k: nat, read: Read, early: real)
    requires Inv(s, early) && k in s.awaits && s.awaits[k].Reading?
    ensures Inv(OnRead(Redeem(s, k), s.awaits[k].epoch, read), early)
  {
    if Current(s, s.awaits[k]) {
      OwnReadInv(s, k, read, early);
    } else {
      StaleInv(s, k, early);
      ReadInv(Redeem(s, k), Redeem(s, k).(credential := Undecided), early);
    }
  }

  lemma UnsealInv(s: Connector, k: nat, ok: bool, early: real)
    requires Inv(s, early) && k in s.awaits && s.awaits[k].Unsealing? && Small(early)
    ensures Inv(OnUnsealed(Redeem(s, k), s.awaits[k].epoch, ok), early)
  {
    var s1, epoch := Redeem(s, k), s.awaits[k].epoch;
    var s2 := s1.(token := Some(epoch));
    if Current(s, s.awaits[k]) {
      OwnFrees(s, k, early);
      FreeIsOneThread(s1);
      assert Inv(s1, early);
      if ok {
        FreeSame(s1, s2);
        AcquireInv(s2, false, early);
      } else {
        ReadInv(s1, s1.(life := CredentialInvalid), early);
      }
    } else {
      StaleInv(s, k, early);
      ReadInv(s1, s2, early);
    }
  }

  lemma FindVehicleInv(s: Connector, early: real)
    requires Free(s) && Base(s, early) && Cleared(s, early)
    ensures Inv(FindVehicle(s), early)
  {
    var s1 := s.(life := if s.life.WaitingForVehicle? then s.life else FindingVehicle);
    FreeSame(s, s1);
    SuspendInv(s1, Info(s.epoch), early);
  }

  lemma CsrfInv(s: Connector, k: nat, ok: bool, draw: Option<real>, early: real)
    requires Inv(s, early) && k in s.awaits && s.awaits[k].Csrf? && Small(early)
    ensures Inv(OnCsrf(Redeem(s, k), s.awaits[k].epoch, ok, draw), early)
  {
    hide Inv;
    if Current(s, s.awaits[k]) {
      OwnFrees(s, k, early);
      FindVehicleInv(Redeem(s, k), early);
      BackOffInv(Redeem(s, k), Acquiring, draw, early);
    } else {
      StaleInv(s, k, early);
    }
  }

  lemma InfoInv(s: Connector, k: nat, account: Account, draw: Option<real>, early: real)
    requires Inv(s, early) && k in s.awaits && s.awaits[k].Info? && Small(early)
    ensures Inv(OnInfo(Redeem(s, k), s.awaits[k].epoch, account, draw), early)
  {
    hide Inv;
    var s1 := Redeem(s, k);
    if Current(s, s.awaits[k]) {
      OwnFrees(s, k, early);
      match account
      case Found => ConnectInv(s1, early);
      case NotListed =>
        FreeSame(s1, s1.(life := WaitingForVehicle));
        ScheduleInv(s1.(life := WaitingForVehicle), VIN_RETRY_MS, LookingAgain, early);
      case Dead => HaltInv(s1, Unauthenticated, early);
      case Failed => BackOffInv(s1, Acquiring, draw, early);
    } else {
      StaleInv(s, k, early);
    }
  }

  lemma SocketEndedInv(s: Connector, h: Handlers, dead: bool, draw: Option<real>, early: real)
    requires OneThread(s) && Base(s, early) && Cleared(s, early) && Small(early)
    requires h in s.handlers && h.conn == s.connId
    ensures Inv(SocketEnded(s, dead, draw), early)
  {
    DropFrees(s, h);
    var s1 := DropConnection(s);
    assert Base(s1, early);
    if dead {
      HaltInv(s1, Unauthenticated, early);
    } else {
      BackOffInv(s1, Reconnecting, draw, early);
    }
  }

  /** The socket that was being opened has failed to. */
  lemma OpenFailedFrees(s: Connector, k: nat)
    requires OneThread(s) && k in s.awaits && s.awaits[k].Opening? && Current(s, s.awaits[k])
    ensures Free(DropConnection(Redeem(s, k)))
  {
    var s1 := DropConnection(Redeem(s, k));
    forall j | j in s1.awaits ensures !Current(s1, s1.awaits[j]) {
      if Current(s1, s1.awaits[j]) {
        assert Current(s, s.awaits[j]);
      }
    }
  }

  lemma OwnOpenFailedInv(s: Connector, k: nat, dead: bool, draw: Option<real>, early: real)
    requires Inv(s, early) && k in s.awaits && s.awaits[k].Opening? && Small(early) && Current(s, s.awaits[k])
    ensures Inv(SocketEnded(Redeem(s, k), dead, draw), early)
  {
    OpenFailedFrees(s, k);
    var s1 := DropConnection(Redeem(s, k));
    assert PastCheck(s, s.awaits[k]);
    assert Base(s1, early) && Cleared(s1, early);
    if dead {
      HaltInv(s1, Unauthenticated, early);
    } else {
      BackOffInv(s1, Reconnecting, draw, early);
    }
  }

  lemma OpenFailedInv(s: Connector, k: nat, dead: bool, draw: Option<real>, early: real)
    requires Inv(s, early) && k in s.awaits && s.awaits[k].Opening? && Small(early)
    ensures Inv(OnClosed(Redeem(s, k), Handlers(s.awaits[k].epoch, s.awaits[k].conn), dead, draw), early)
  {
    hide Inv;
    if Current(s, s.awaits[k]) {
      OwnOpenFailedInv(s, k, dead, draw, early);
    } else {
      StaleInv(s, k, early);
    }
  }

  lemma OpenedInv(s: Connector, k: nat, early: real)
    requires Inv(s, early) && k in s.awaits && s.awaits[k].Opening?
    ensures Inv(OnOpened(Redeem(s, k), s.awaits[k].epoch, s.awaits[k].conn), early)
  {
    if Current(s, s.awaits[k]) {
      OpenedOwn(s, k);
      assert PastCheck(s, s.awaits[k]);
    } else {
      StaleInv(s, k, early);
    }
  }

  lemma FiredBase(s: Connector, k: nat, early: real)
    requires Inv(s, early) && k in s.timers && s.now + early >= s.timers[k].due
    ensures var s1 := s.(timers := s.timers - {k}); Free(s1) && Base(s1, early) && Cleared(s1, early) && !s1.stopped
  {
    FireFrees(s, k);
  }

  lemma TimerInv(s: Connector, k: nat, early: real)
    requires Inv(s, early) && k in s.timers && s.now + early >= s.timers[k].due && Small(early)
    ensures Inv(OnTimer(s.(timers := s.timers - {k}), s.timers[k]), early)
  {
    var s1 := s.(timers := s.timers - {k});
    FiredBase(s, k, early);
    match s.timers[k].resume
    case Acquiring => AcquireInv(s1, true, early);
    case Reconnecting => ConnectInv(s1, early);
    case LookingAgain => FindVehicleInv(s1, early);
  }

  /** Only what belongs to the socket that is up has moved: the threads are as they were. */
  lemma SocketOnlyInv(s: Connector, s1: Connector, early: real)
    requires OneThread(s) && Paced(s, early) && NotLost(s1)
    requires s1 == s.(flowing := s1.flowing, failures := s1.failures, lastActivity := s1.lastActivity,
                      silenceTimer := s1.silenceTimer, renewPending := s1.renewPending, renewTimer := s1.renewTimer,
                      lastRenewAt := s1.lastRenewAt, queueEmpty := s1.queueEmpty, log := s1.log)
    requires s1.silenceTimer.Some? <==> s.silenceTimer.Some?
    requires s1.renewPending && !s1.stopped ==> s1.socket.Some?
    requires PacedLog(s1.log, early) && Owed(s1.log) == Owed(s.log) && Renewals(s1)
    ensures Inv(s1, early)
  {
    forall k | k in s.awaits ensures Current(s1, s1.awaits[k]) == Current(s, s.awaits[k]) {
    }
  }

  lemma EnqueueInv(s: Connector, dropped: bool, early: real)
    requires Inv(s, early)
    ensures Inv(Enqueue(s, dropped), early)
  {
    SocketOnlyInv(s, Enqueue(s, dropped), early);
  }

  lemma FrameInv(s: Connector, h: Handlers, dropped: bool, early: real)
    requires Inv(s, early)
    ensures Inv(OnFrame(s, h, dropped), early)
  {
    var s1 := s.(flowing := true, failures := if s.flowing then s.failures else 0, lastActivity := s.now);
    SocketOnlyInv(s, s1, early);
    EnqueueInv(s1, dropped, early);
  }

  lemma RefusedInv(s: Connector, h: Handlers, early: real)
    requires Inv(s, early) && h in s.handlers
    ensures Inv(OnRefused(s, h), early)
  {
    HaltInv(s, Unauthenticated, early);
  }

  /** A renewal a minute after the last, and after the socket came up. */
  lemma RenewedLog(s: Connector, early: real)
    requires Base(s, early) && s.socket.Some?
    requires s.lastRenewAt.Some? ==> s.now >= s.lastRenewAt.value + MIN_RENEW_INTERVAL_MS
    ensures Base(RenewAll(s), early) && Owed(RenewAll(s).log) == Owed(s.log)
  {
    var m := Renewal(s.now);
    OwedMore(s.log, m);
    LogMore(s, m, early);
  }

  lemma MaybeRenewInv(s: Connector, early: real)
    requires OneThread(s) && Paced(s, early)
    ensures Inv(MaybeRenew(s), early)
  {
    if s.renewPending && s.socket.Some? && s.queueEmpty && !s.stopped && RenewWait(s) <= 0.0 {
      RenewedLog(s, early);
    }
    SocketOnlyInv(s, MaybeRenew(s), early);
  }

  lemma SilenceInv(s: Connector, early: real)
    requires Inv(s, early) && s.silenceTimer.Some?
    ensures Inv(OnSilence(s.(silenceTimer := None)), early)
  {
    var s0 := s.(silenceTimer := None);
    if s.now - s.lastActivity >= SILENCE_MS {
      RenewedLog(s0, early);
    }
    SocketOnlyInv(s, OnSilence(s0), early);
  }

  lemma DrainedInv(s: Connector, early: real)
    requires Inv(s, early)
    ensures Inv(OnDrained(s), early)
  {
    var s1 := s.(queueEmpty := true);
    forall k | k in s.awaits ensures Current(s1, s1.awaits[k]) == Current(s, s.awaits[k]) {
    }
    MaybeRenewInv(s1, early);
  }

  lemma RenewFiredInv(s: Connector, early: real)
    requires Inv(s, early)
    ensures Inv(MaybeRenew(s.(renewTimer := None)), early)
  {
    var s1 := s.(renewTimer := None);
    forall k | k in s.awaits ensures Current(s1, s1.awaits[k]) == Current(s, s.awaits[k]) {
    }
    MaybeRenewInv(s1, early);
  }

  lemma StopInv(s: Connector, early: real)
    requires Inv(s, early)
    ensures Inv(Stop(s), early)
  {
    var s1 := Stop(s);
    FreeIsOneThread(s1);
  }

  // ----- every step, every run -----------------------------------------------------------

  lemma AnswerInv(s: Connector, e: Event, early: real)
    requires Inv(s, early) && Small(early) && Awaiting(s, e)
    ensures Inv(Answer(s, e), early)
  {
    match e
    case SavedCame(k, read, until) => SavedInv(s, k, read, until, early);
    case ReadCame(k, credential) => ReadCameInv(s, k, credential, early);
    case UnsealCame(k, ok) => UnsealInv(s, k, ok, early);
    case CsrfCame(k, ok, draw) => CsrfInv(s, k, ok, draw, early);
    case InfoCame(k, account, draw) => InfoInv(s, k, account, draw, early);
    case SocketOpened(k) => OpenedInv(s, k, early);
    case OpenFailed(k, dead, draw) => OpenFailedInv(s, k, dead, draw, early);
  }

  lemma ClosedInv(s: Connector, h: Handlers, dead: bool, draw: Option<real>, early: real)
    requires Inv(s, early) && Small(early) && h in s.handlers
    ensures Inv(OnClosed(s, h, dead, draw), early)
  {
    if h.conn == s.connId {
      if s.socket.None? {
        var k :| k in s.awaits && s.awaits[k] == Opening(h.epoch, h.conn);
        assert PastCheck(s, s.awaits[k]);
      }
      SocketEndedInv(s, h, dead, draw, early);
    }
  }

  /** What the socket's handlers say. */
  lemma ClosedStepInv(s: Connector, h: Handlers, dead: bool, draw: Option<real>, early: real)
    requires Inv(s, early) && Small(early)
    ensures Inv(Step(s, Timed(s.now, SocketClosed(h, dead, draw))), early)
  {
    hide Inv;
    if h in s.handlers {
      ClosedInv(s, h, dead, draw, early);
      assert Step(s, Timed(s.now, SocketClosed(h, dead, draw))) == OnClosed(s, h, dead, draw);
    }
  }

  lemma FrameStepInv(s: Connector, h: Handlers, dropped: bool, early: real)
    requires Inv(s, early)
    ensures Inv(Step(s, Timed(s.now, FrameCame(h, dropped))), early)
  {
    hide Inv;
    if h in s.handlers {
      FrameInv(s, h, dropped, early);
      assert Step(s, Timed(s.now, FrameCame(h, dropped))) == OnFrame(s, h, dropped);
    }
  }

  lemma RefusedStepInv(s: Connector, h: Handlers, early: real)
    requires Inv(s, early)
    ensures Inv(Step(s, Timed(s.now, Refused(h))), early)
  {
    hide Inv;
    if h in s.handlers {
      RefusedInv(s, h, early);
      assert Step(s, Timed(s.now, Refused(h))) == OnRefused(s, h);
    }
  }

  /** What the timers say. */
  lemma FiredInv(s: Connector, e: Event, early: real)
    requires Inv(s, early) && Small(early) && !Awaiting(s, e) && Timely(s, Timed(s.now, e), early)
    requires e.TimerFired? || e.SilenceFired? || e.RenewFired?
    ensures Inv(Step(s, Timed(s.now, e)), early)
  {
    if e.TimerFired? {
      if e.ticket in s.timers {
        TimerInv(s, e.ticket, early);
        assert Step(s, Timed(s.now, e)) == OnTimer(s.(timers := s.timers - {e.ticket}), s.timers[e.ticket]);
      } else {
        assert Step(s, Timed(s.now, e)) == s;
      }
    } else {
      SocketTimerInv(s, e, early);
    }
  }

  /** What the timers of the socket that is up say. */
  lemma SocketTimerInv(s: Connector, e: Event, early: real)
    requires Inv(s, early) && (e.SilenceFired? || e.RenewFired?)
    ensures Inv(Step(s, Timed(s.now, e)), early)
  {
    hide Inv;
    if e.SilenceFired? && s.silenceTimer.Some? {
      SilenceInv(s, early);
      assert Step(s, Timed(s.now, e)) == OnSilence(s.(silenceTimer := None));
    } else if e.RenewFired? && s.renewTimer.Some? {
      RenewFiredInv(s, early);
      assert Step(s, Timed(s.now, e)) == MaybeRenew(s.(renewTimer := None));
    } else {
      assert Step(s, Timed(s.now, e)) == s;
    }
  }

  /** What the queue, the status row and the process say. */
  lemma ToldInv(s: Connector, e: Event, early: real)
    requires Inv(s, early) && (e.Enqueued? || e.QueueDrained? || e.StatusRead? || e.Stopped?)
    ensures Inv(Step(s, Timed(s.now, e)), early)
  {
    hide Inv;
    if e.Enqueued? || e.QueueDrained? {
      QueueToldInv(s, e, early);
    } else if e.StatusRead? {
      ReadInv(s, LoadSaved(s, e.until), early);
      assert Step(s, Timed(s.now, e)) == LoadSaved(s, e.until);
    } else {
      StopInv(s, early);
      assert Step(s, Timed(s.now, e)) == if s.stopped then s else Stop(s);
    }
  }

  lemma QueueToldInv(s: Connector, e: Event, early: real)
    requires Inv(s, early) && (e.Enqueued? || e.QueueDrained?)
    ensures Inv(Step(s, Timed(s.now, e)), early)
  {
    hide Inv;
    if e.Enqueued? {
      EnqueueInv(s, e.dropped, early);
      assert Step(s, Timed(s.now, e)) == Enqueue(s, e.dropped);
    } else {
      DrainedInv(s, early);
      assert Step(s, Timed(s.now, e)) == OnDrained(s);
    }
  }

  /** An answer nobody awaits changes nothing. */
  lemma NotAwaited(s: Connector, e: Event)
    requires !Awaiting(s, e)
    requires !(e.SocketClosed? || e.FrameCame? || e.Refused? || e.TimerFired? || e.SilenceFired? || e.RenewFired?)
    requires !(e.Polled? || e.Enqueued? || e.QueueDrained? || e.StatusRead? || e.Stopped?)
    ensures Step(s, Timed(s.now, e)) == s
  {
  }

  lemma OtherInv(s: Connector, e: Event, early: real)
    requires Inv(s, early) && !Awaiting(s, e)
    requires !(e.SocketClosed? || e.FrameCame? || e.Refused? || e.TimerFired? || e.SilenceFired? || e.RenewFired?)
    ensures Inv(Step(s, Timed(s.now, e)), early)
  {
    hide Inv;
    if e.Polled? {
      StampInv(s, e.stamp, early);
      assert Step(s, Timed(s.now, e)) == OnStamp(s, e.stamp);
    } else if e.Enqueued? || e.QueueDrained? || e.StatusRead? || e.Stopped? {
      ToldInv(s, e, early);
    } else {
      NotAwaited(s, e);
    }
  }

  lemma AnswerStepInv(s: Connector, e: Event, early: real)
    requires Inv(s, early) && Small(early) && Awaiting(s, e)
    ensures Inv(Step(s, Timed(s.now, e)), early)
  {
    hide Inv;
    AnswerInv(s, e, early);
    assert Step(s, Timed(s.now, e)) == Answer(s, e);
  }

  /** An event that comes now. */
  lemma EventInv(s: Connector, e: Event, early: real)
    requires Inv(s, early) && Small(early) && Timely(s, Timed(s.now, e), early)
    ensures Inv(Step(s, Timed(s.now, e)), early)
  {
    hide Inv;
    if Awaiting(s, e) {
      AnswerStepInv(s, e, early);
    } else if e.SocketClosed? {
      ClosedStepInv(s, e.h, e.dead, e.draw, early);
    } else if e.FrameCame? {
      FrameStepInv(s, e.h, e.dropped, early);
    } else if e.Refused? {
      RefusedStepInv(s, e.h, early);
    } else if e.TimerFired? || e.SilenceFired? || e.RenewFired? {
      FiredInv(s, e, early);
    } else {
      OtherInv(s, e, early);
    }
  }

  lemma StepInv(s: Connector, te: Timed, early: real)
    requires Inv(s, early) && Small(early) && Timely(s, te, early)
    ensures Inv(Step(s, te), early)
  {
    TimePasses(s, te.at, early);
    StepIsNow(s, te);
    EventInv(s.(now := te.at), te.event, early);
  }

  lemma {:induction false} RunInv(s: Connector, events: seq<Timed>, early: real)
    requires Inv(s, early) && Small(early) && AllTimely(s, events, early)
    ensures Inv(Run(s, events), early)
    decreases |events|
  {
    if events != [] {
      StepInv(s, events[0], early);
      RunInv(Step(s, events[0]), events[1..], early);
    }
  }

  lemma NewIsSound(early: real)
    requires Small(early)
    ensures Inv(NEW, early)
  {
  }
}
