/** The lifecycle of apps/rivian/src/connector.ts: which event, in which state, does what, and when
    it is tried again. Every `await` is a ticket that some later step redeems, in any order, for the
    lifecycle that took it may be over by then. Instants are real milliseconds. */
module ConnectorModel {
  import opened Collections
  import opened Backoffs

  const SILENCE_MS := 60_000.0
  const MIN_RENEW_INTERVAL_MS := 60_000.0
  const VIN_RETRY_MS := 3_600_000.0

  datatype Life =
    | SignedOut | Starting | FindingVehicle | WaitingForVehicle | Connecting | Subscribed | BackingOff
    | Unauthenticated | CredentialInvalid

  /** The stamp the last poll acted on; undecided once a lifecycle could not read the credential. */
  datatype Credential = Undecided | Absent | Stamped(ms: int)

  /** What a suspended lifecycle waits for. */
  datatype Await =
    | Saved(epoch: nat)
    | Reading(epoch: nat)
    | Unsealing(epoch: nat)
    | Csrf(epoch: nat)
    | Info(epoch: nat)
    | Opening(epoch: nat, conn: nat)

  datatype Resume = Acquiring | Reconnecting | LookingAgain

  /** A timer that carries a lifecycle on. */
  datatype Timer = Timer(due: real, epoch: nat, resume: Resume)

  /** The handlers given to one `openSocket`. */
  datatype Handlers = Handlers(epoch: nat, conn: nat)

  /** What is remembered of a run: failures and how long each backs off, sockets opened, renewals. */
  datatype Mark = Failure(at: real, until: real) | OpenedSocket(at: real) | Renewal(at: real)

  datatype Connector = Connector(
    now: real,
    life: Life,
    stopped: bool,
    epoch: nat,
    credential: Credential,
    token: Option<nat>,
    loaded: bool,
    reconnectAt: real,
    failures: nat,
    tickets: nat,
    awaits: map<nat, Await>,
    timers: map<nat, Timer>,
    connId: nat,
    handlers: set<Handlers>,
    socket: Option<nat>,
    flowing: bool,
    lastActivity: real,
    silenceTimer: Option<real>,
    renewPending: bool,
    renewTimer: Option<real>,
    lastRenewAt: Option<real>,
    queueEmpty: bool,
    log: seq<Mark>)

  const NEW := Connector(
    0.0, SignedOut, false, 0, Undecided, None, false, 0.0, 0, 0, map[], map[], 0, {}, None, false, 0.0, None, false,
    None, None, true, [])

  function Max(a: real, b: real): real {
    if a >= b then a else b
  }

  predicate Alive(s: Connector, epoch: nat) {
    epoch == s.epoch && !s.stopped
  }

  // ----- plumbing ------------------------------------------------------------------------

  function Suspend(s: Connector, a: Await): Connector {
    s.(awaits := s.awaits[s.tickets := a], tickets := s.tickets + 1)
  }

  function Schedule(s: Connector, wait: real, resume: Resume): Connector {
    s.(timers := s.timers[s.tickets := Timer(s.now + wait, s.epoch, resume)], tickets := s.tickets + 1)
  }

  /** `#dropConnection`. */
  function DropConnection(s: Connector): Connector {
    s.(connId := s.connId + 1, socket := None, silenceTimer := None, renewTimer := None, flowing := false,
       renewPending := false)
  }

  /** `#halt`: nothing of the lifecycle acts again. The backoff and `#reconnectAt` are kept. */
  function Halt(s: Connector): Connector {
    DropConnection(s.(epoch := s.epoch + 1)).(timers := map[], token := None)
  }

  // ----- the lifecycle -------------------------------------------------------------------

  /** `#begin`. */
  function Begin(s: Connector): Connector {
    var s1 := Halt(s);
    Suspend(s1.(life := Starting), Saved(s1.epoch))
  }

  function SignOut(s: Connector): Connector {
    Halt(s.(credential := Absent)).(life := SignedOut)
  }

  /** `#onStamp`, as a successful poll calls it; `None` is no credential row. */
  function OnStamp(s: Connector, stamp: Option<int>): Connector {
    if s.stopped then s
    else if stamp.None? then if s.credential.Absent? then s else SignOut(s)
    else if s.credential == Stamped(stamp.value) then s
    else Begin(s.(credential := Stamped(stamp.value)))
  }

  function LoadSaved(s: Connector, until: Option<real>): Connector {
    if s.loaded then s
    else s.(loaded := true, reconnectAt := if until.Some? then Max(s.reconnectAt, until.value) else s.reconnectAt)
  }

  function OnSaved(s: Connector, epoch: nat): Connector {
    if Alive(s, epoch) then Suspend(s, Reading(epoch)) else s
  }

  /** What reading the credential came to. */
  datatype Read = Row | NoRow | Unread

  /** A read that fails forgets the stamp whichever lifecycle made it. */
  function OnRead(s: Connector, epoch: nat, read: Read): Connector {
    if read.Unread? then s.(credential := Undecided)
    else if !Alive(s, epoch) then s
    else if read.NoRow? then SignOut(s)
    else Suspend(s, Unsealing(epoch))
  }

  /** The token is stored whichever lifecycle unsealed it. */
  function OnUnsealed(s: Connector, epoch: nat, ok: bool): Connector {
    if !ok then if Alive(s, epoch) then s.(life := CredentialInvalid) else s
    else
      var s1 := s.(token := Some(epoch));
      if Alive(s, epoch) then Acquire(s1, false) else s1
  }

  /** `#acquire`: waits out an earlier backoff, unless a timer has just done so. */
  function Acquire(s: Connector, waited: bool): Connector {
    var wait := s.reconnectAt - s.now;
    if !waited && wait > 0.0 then Schedule(s.(life := BackingOff), wait, Acquiring)
    else Suspend(s.(life := Starting), Csrf(s.epoch))
  }

  /** `#backOff`. */
  function BackOff(s: Connector, resume: Resume, draw: Option<real>): Connector {
    var wait := Wait(s.failures, draw);
    Schedule(s.(failures := s.failures + 1, reconnectAt := Max(s.reconnectAt, s.now + wait), life := BackingOff,
                log := s.log + [Failure(s.now, s.now + wait)]), wait, resume)
  }

  function OnCsrf(s: Connector, epoch: nat, ok: bool, draw: Option<real>): Connector {
    if !Alive(s, epoch) then s
    else if ok then FindVehicle(s) else BackOff(s, Acquiring, draw)
  }

  function FindVehicle(s: Connector): Connector {
    Suspend(s.(life := if s.life.WaitingForVehicle? then s.life else FindingVehicle), Info(s.epoch))
  }

  /** What asking for the account's vehicles came to. */
  datatype Account = Found | NotListed | Dead | Failed

  function OnInfo(s: Connector, epoch: nat, account: Account, draw: Option<real>): Connector {
    if !Alive(s, epoch) then s
    else
      match account
      case Found => Connect(s)
      case NotListed => Schedule(s.(life := WaitingForVehicle), VIN_RETRY_MS, LookingAgain)
      case Dead => Unauthenticate(s)
      case Failed => BackOff(s, Acquiring, draw)
  }

  /** `#unauthenticated`. */
  function Unauthenticate(s: Connector): Connector {
    Halt(s).(life := Unauthenticated)
  }

  /** `#connect`, up to its `openSocket`. */
  function Connect(s: Connector): Connector {
    var conn := s.connId + 1;
    Suspend(s.(life := Connecting, connId := conn, handlers := s.handlers + {Handlers(s.epoch, conn)},
               log := s.log + [OpenedSocket(s.now)]), Opening(s.epoch, conn))
  }

  /** ... and from it: a socket nobody wants any more is closed. */
  function OnOpened(s: Connector, epoch: nat, conn: nat): Connector {
    if conn != s.connId || !Alive(s, epoch) then s
    else
      s.(socket := Some(conn), flowing := false, lastActivity := s.now, life := Subscribed,
         silenceTimer := Some(s.now + SILENCE_MS))
  }

  /** `#socketEnded`. */
  function SocketEnded(s: Connector, dead: bool, draw: Option<real>): Connector {
    var s1 := DropConnection(s);
    if dead then Unauthenticate(s1) else BackOff(s1, Reconnecting, draw)
  }

  /** The socket closed, or never opened. */
  function OnClosed(s: Connector, h: Handlers, dead: bool, draw: Option<real>): Connector {
    if h.conn != s.connId || !Alive(s, h.epoch) then s else SocketEnded(s, dead, draw)
  }

  function OnTimer(s: Connector, t: Timer): Connector {
    if !Alive(s, t.epoch) then s
    else
      match t.resume
      case Acquiring => Acquire(s, true)
      case Reconnecting => Connect(s)
      case LookingAgain => FindVehicle(s)
  }

  // ----- frames and renewals -------------------------------------------------------------

  /** `#enqueue`: a drop asks for a renewal while a socket is up. */
  function Enqueue(s: Connector, dropped: bool): Connector {
    if s.stopped then s
    else s.(queueEmpty := false, renewPending := s.renewPending || (dropped && s.socket.Some?))
  }

  /** `#onNext`: data flows, so failures are counted from zero again at a socket's first frame. */
  function OnFrame(s: Connector, h: Handlers, dropped: bool): Connector {
    if h.conn != s.connId || s.stopped then s
    else Enqueue(s.(flowing := true, failures := if s.flowing then s.failures else 0, lastActivity := s.now), dropped)
  }

  /** Some subscription is refused for want of a valid session. */
  function OnRefused(s: Connector, h: Handlers): Connector {
    if h.conn != s.connId || s.stopped then s else Unauthenticate(s)
  }

  /** `#renewAll`. */
  function RenewAll(s: Connector): Connector {
    if s.socket.None? then s
    else s.(lastRenewAt := Some(s.now), lastActivity := s.now, renewPending := false, log := s.log + [Renewal(s.now)])
  }

  /** How long until the next renewal for a drop may be. */
  function RenewWait(s: Connector): real {
    if s.lastRenewAt.None? then 0.0 else s.lastRenewAt.value + MIN_RENEW_INTERVAL_MS - s.now
  }

  /** `#maybeRenew`. */
  function MaybeRenew(s: Connector): Connector {
    if !s.renewPending || s.socket.None? || !s.queueEmpty || s.stopped then s
    else if RenewWait(s) > 0.0 then
      if s.renewTimer.None? then s.(renewTimer := Some(s.now + RenewWait(s))) else s
    else RenewAll(s)
  }

  function OnDrained(s: Connector): Connector {
    MaybeRenew(s.(queueEmpty := true))
  }

  /** `#armSilence`'s timer. */
  function OnSilence(s: Connector): Connector {
    var idle := s.now - s.lastActivity;
    if idle >= SILENCE_MS then RenewAll(s).(silenceTimer := Some(s.now + SILENCE_MS))
    else s.(silenceTimer := Some(s.now + (SILENCE_MS - idle)))
  }

  /** `stop`. */
  function Stop(s: Connector): Connector {
    s.(stopped := true, epoch := s.epoch + 1, timers := map[], silenceTimer := None, renewTimer := None,
       connId := s.connId + 1, socket := None)
  }

  // ----- steps ---------------------------------------------------------------------------

  datatype Event =
    | Polled(stamp: Option<int>)
    | SavedCame(ticket: nat, read: bool, until: Option<real>)
    | ReadCame(ticket: nat, credential: Read)
    | UnsealCame(ticket: nat, ok: bool)
    | CsrfCame(ticket: nat, ok: bool, draw: Option<real>)
    | InfoCame(ticket: nat, account: Account, draw: Option<real>)
    | SocketOpened(ticket: nat)
    | OpenFailed(ticket: nat, dead: bool, draw: Option<real>)
    | SocketClosed(h: Handlers, dead: bool, draw: Option<real>)
    | FrameCame(h: Handlers, dropped: bool)
    | Refused(h: Handlers)
    | TimerFired(ticket: nat)
    | SilenceFired
    | RenewFired
    | Enqueued(dropped: bool)
    | QueueDrained
    | StatusRead(until: Option<real>)
    | Stopped

  datatype Timed = Timed(at: real, event: Event)

  /** An `await` redeemed: whatever it was, it is waited for no more. */
  function Redeem(s: Connector, ticket: nat): Connector {
    s.(awaits := s.awaits - {ticket})
  }

  predicate Awaiting(s: Connector, e: Event) {
    match e
    case SavedCame(k, _, _) => k in s.awaits && s.awaits[k].Saved?
    case ReadCame(k, _) => k in s.awaits && s.awaits[k].Reading?
    case UnsealCame(k, _) => k in s.awaits && s.awaits[k].Unsealing?
    case CsrfCame(k, _, _) => k in s.awaits && s.awaits[k].Csrf?
    case InfoCame(k, _, _) => k in s.awaits && s.awaits[k].Info?
    case SocketOpened(k) => k in s.awaits && s.awaits[k].Opening?
    case OpenFailed(k, _, _) => k in s.awaits && s.awaits[k].Opening?
    case _ => false
  }

  /** An answer comes for something awaited. */
  function Answer(s: Connector, e: Event): Connector
    requires Awaiting(s, e)
  {
    var a, s1 := s.awaits[e.ticket], Redeem(s, e.ticket);
    match e
    case SavedCame(_, read, until) => OnSaved(if read then LoadSaved(s1, until) else s1, a.epoch)
    case ReadCame(_, credential) => OnRead(s1, a.epoch, credential)
    case UnsealCame(_, ok) => OnUnsealed(s1, a.epoch, ok)
    case CsrfCame(_, ok, draw) => OnCsrf(s1, a.epoch, ok, draw)
    case InfoCame(_, account, draw) => OnInfo(s1, a.epoch, account, draw)
    case SocketOpened(_) => OnOpened(s1, a.epoch, a.conn)
    case OpenFailed(_, dead, draw) => OnClosed(s1, Handlers(a.epoch, a.conn), dead, draw)
  }

  /** One event, at its time; one that cannot come is ignored. */
  function Step(was: Connector, te: Timed): Connector {
    var s := was.(now := te.at);
    var e := te.event;
    if Awaiting(s, e) then Answer(s, e)
    else
      match e
      case Polled(stamp) => OnStamp(s, stamp)
      case SocketClosed(h, dead, draw) => if h in s.handlers then OnClosed(s, h, dead, draw) else s
      case FrameCame(h, dropped) => if h in s.handlers then OnFrame(s, h, dropped) else s
      case Refused(h) => if h in s.handlers then OnRefused(s, h) else s
      case TimerFired(k) => if k in s.timers then OnTimer(s.(timers := s.timers - {k}), s.timers[k]) else s
      case SilenceFired => if s.silenceTimer.Some? then OnSilence(s.(silenceTimer := None)) else s
      case RenewFired => if s.renewTimer.Some? then MaybeRenew(s.(renewTimer := None)) else s
      case Enqueued(dropped) => Enqueue(s, dropped)
      case QueueDrained => OnDrained(s)
      case StatusRead(until) => LoadSaved(s, until)
      case Stopped => if s.stopped then s else Stop(s)
      case _ => s
  }

  /** The clock moves, and then the event comes. */
  lemma StepIsNow(s: Connector, te: Timed)
    ensures Step(s, te) == Step(s.(now := te.at), Timed(te.at, te.event))
  {
  }

  /** The clock never goes back, and a timer fires at most `early` before it is due. */
  predicate Timely(s: Connector, te: Timed, early: real) {
    && s.now <= te.at
    && (te.event.TimerFired? && te.event.ticket in s.timers ==> te.at + early >= s.timers[te.event.ticket].due)
  }

  function Run(s: Connector, events: seq<Timed>): Connector
    decreases |events|
  {
    if events == [] then s else Run(Step(s, events[0]), events[1..])
  }

  predicate AllTimely(s: Connector, events: seq<Timed>, early: real)
    decreases |events|
  {
    events == [] || (Timely(s, events[0], early) && AllTimely(Step(s, events[0]), events[1..], early))
  }
}
