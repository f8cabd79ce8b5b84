/**
 The life of one `APIConnection`, as a step relation over values: setting it up, keeping it alive,
 the requests that wait on it, and cleaning it up.

 One step is the code between two awaits.  At most one setup coroutine runs on a connection, as the
 client creates a new connection for every attempt.  Clock readings are step parameters.
 */
module ConnectionModel {
  import opened Wrappers

  const KEEP_ALIVE_TIMEOUT_RATIO := 4.5

  datatype Phase = Initialized | HostResolved | SocketOpened | HandshakeComplete | Connected | Closed

  /** The classes of `APIConnectionError` that the connection itself raises, and all others. */
  datatype ErrorClass =
    | SocketClosedAPIError
    | PingFailedAPIError
    | ProtocolAPIError
    | InvalidAuthAPIError
    | TimeoutAPIError
    | ConnectionNotEstablishedAPIError
    | APIConnectionCancelledError
    | SocketAPIError
    | UnhandledAPIConnectionError
    | OtherAPIError(tag: nat)

  /** An `APIConnectionError`, or an exception of another class. */
  datatype Failure = ApiFailure(error: ErrorClass) | ForeignFailure(tag: nat)

  datatype FutureState = Pending | Resolved | Failed(error: ReadError) | Cancelled

  /** What a reader of a closed connection gets. */
  datatype ReadError = Original(failure: Failure) | ReadFailed(cause: Failure) | ConnectionClosed | TimedOut

  /** The await at which the setup coroutine is suspended, inside its `interrupt` block. */
  datatype Setup =
    | Idle
    | InBlock(at: SetupAwait, interrupted: bool, cancelled: bool)   // cancelled: `task.cancelling() > 0`

  datatype SetupAwait = Resolving | Opening | ReadingTimezone | CreatingHelper | Handshake | Hello

  /** An exception that leaves the awaited part of a setup coroutine. */
  datatype Raised = CancelledError | Interruption | ApiError(error: ErrorClass) | OsError | OtherException

  /** How a setup coroutine that failed left its caller. */
  datatype Exit = WithCancelledError | WithApiError(failure: Failure)

  datatype Conn = Conn(
    interval: real,             // `_keep_alive_interval`
    phase: Phase,
    isConnected: bool,
    handshakeDone: bool,
    fatal: Option<Failure>,
    expectedDisconnect: bool,
    onStop: bool,               // the `on_stop` callback is still held
    stopCalls: seq<bool>,       // history: the calls made to it
    futures: map<nat, FutureState>,
    readers: set<nat>,          // `_read_exception_futures`
    setup: Setup,
    exit: Option<Exit>,         // history: how the setup failed
    helper: bool,
    socket: bool,
    pingTimer: Option<real>,    // deadline of the pending timer
    pongTimer: Option<real>,
    sendPendingPing: bool
  )

  function New(interval: real, onStop: bool): Conn {
    Conn(interval, Initialized, false, false, None, false, onStop, [], map[], {}, Idle, None, false, false, None, None,
         false)
  }

  function SetPhase(c: Conn, p: Phase): Conn {
    c.(phase := p, isConnected := p == Connected, handshakeDone := p == HandshakeComplete || p == Connected)
  }

  /** The exception a pending reader receives. */
  function ReaderError(fatal: Option<Failure>): ReadError {
    match fatal
    case None => ConnectionClosed
    case Some(ApiFailure(t)) => Original(ApiFailure(t))
    case Some(f) => ReadFailed(f)
  }

  function FailReaders(futures: map<nat, FutureState>, readers: set<nat>, error: ReadError): map<nat, FutureState> {
    map id | id in futures :: if id in readers && futures[id] == Pending then Failed(error) else futures[id]
  }

  /** Resolving the interrupt future wakes the setup coroutine with an interruption. */
  function Interrupt(s: Setup): Setup {
    match s
    case Idle => Idle
    case InBlock(at, _, cancelled) => InBlock(at, true, cancelled)
  }

  function Cleanup(c: Conn): Conn {
    if c.phase == Closed then c
    else
      var stops := c.onStop && c.isConnected;
      SetPhase(c, Closed).(
        futures := FailReaders(c.futures, c.readers, ReaderError(c.fatal)),
        readers := {},
        setup := Interrupt(c.setup),
        helper := false,
        socket := false,
        pongTimer := None,
        pingTimer := None,
        onStop := c.onStop && !stops,
        stopCalls := if stops then c.stopCalls + [c.expectedDisconnect] else c.stopCalls)
  }

  function SetFatalIfUnset(c: Conn, f: Failure): Conn {
    if c.fatal == None then c.(fatal := Some(f)) else c
  }

  function ReportFatal(c: Conn, f: Failure): Conn {
    Cleanup(SetFatalIfUnset(c, f))
  }

  const SOCKET_CLOSED := ApiFailure(SocketClosedAPIError)
  const PING_FAILED := ApiFailure(PingFailedAPIError)
  const PROTOCOL_ERROR := ApiFailure(ProtocolAPIError)
  const INVALID_AUTH := ApiFailure(InvalidAuthAPIError)
  const DISCONNECT_TIMEOUT := ApiFailure(TimeoutAPIError)
  const CONNECT_CANCELLED := ApiFailure(APIConnectionCancelledError)
  const SOCKET_ERROR := ApiFailure(SocketAPIError)
  const UNHANDLED := ApiFailure(UnhandledAPIConnectionError)

  predicate CanSend(c: Conn) {
    c.handshakeDone && c.helper
  }

  /** `send_messages`: a write error closes the connection. */
  function Send(c: Conn, writeOk: bool): Conn {
    if CanSend(c) && !writeOk then ReportFatal(c, SOCKET_CLOSED) else c
  }

  function ScheduleKeepAlive(c: Conn, now: real): Conn {
    c.(sendPendingPing := true, pingTimer := Some(now + c.interval))
  }

  /** `_async_send_keep_alive`; an exception from sending leaves the rest undone. */
  function SendKeepAlive(c: Conn, now: real, writeOk: bool): Conn {
    if c.sendPendingPing then
      if CanSend(c) && writeOk then
        var c1 := if c.pongTimer == None
                  then c.(pongTimer := Some(now + c.interval * KEEP_ALIVE_TIMEOUT_RATIO))
                  else c;
        ScheduleKeepAlive(c1, now)
      else
        Send(c, writeOk).(pingTimer := None)
    else
      ScheduleKeepAlive(c, now)
  }

  // The setup coroutines

  /** `_wrap_fatal_connection_exception`: the class of an earlier fatal API error is kept. */
  function Wrap(fatal: Option<Failure>, raised: Raised): Failure {
    if raised.ApiError? then ApiFailure(raised.error)
    else if fatal.Some? && fatal.value.ApiFailure? then fatal.value
    else
      match raised
      case CancelledError => CONNECT_CANCELLED
      case OsError => SOCKET_ERROR
      case _ => UNHANDLED
  }

  /**
   `_raise_fatal_connection_exception`: the connection is closed, and the coroutine leaves with the
   original CancelledError if its task really is being cancelled, else with an API error.
   */
  function SetupFails(c: Conn, raised: Raised): Conn
    requires c.setup.InBlock?
  {
    var f := Wrap(c.fatal, raised);
    var exit := if raised == CancelledError && c.setup.cancelled then WithCancelledError else WithApiError(f);
    ReportFatal(c, f).(setup := Idle, exit := Some(exit))
  }

  function SetupAdvances(c: Conn, now: real, writeOk: bool): Conn
    requires c.setup.InBlock?
  {
    match c.setup.at
    case Resolving => SetPhase(c, HostResolved).(setup := Idle)
    case Opening => SetPhase(c.(socket := true), SocketOpened).(setup := Idle)
    case ReadingTimezone => c.(setup := c.setup.(at := CreatingHelper))
    case CreatingHelper => c.(helper := true, setup := c.setup.(at := Handshake))
    case Handshake =>
      var c1 := SetPhase(c, HandshakeComplete).(setup := c.setup.(at := Hello));
      if CanSend(c1) && writeOk then c1
      else
        SetupFails(Send(c1, writeOk),
                   ApiError(if CanSend(c1) then SocketClosedAPIError else ConnectionNotEstablishedAPIError))
    case Hello => SetPhase(ScheduleKeepAlive(c, now), Connected).(setup := Idle)
  }

  // Packets

  /** A message type outside the table, a body that does not parse, or a message with its own handler or without. */
  datatype Packet = UnknownType | Unparsable | DisconnectRequest | AnsweredRequest | AuthFailure | OtherMessage

  /** What `process_packet` does before it looks for handlers. */
  function NotePacket(c: Conn): Conn {
    c.(pongTimer := None, sendPendingPing := false)
  }

  /**
   `process_packet` with the connection's own handlers.  Ping and time requests are answered; a
   DisconnectRequest is answered and then obeyed, unless the answer cannot be sent.
   */
  function ProcessPacket(c: Conn, p: Packet, writeOk: bool): Conn {
    match p
    case UnknownType => c
    case Unparsable => ReportFatal(c, PROTOCOL_ERROR)
    case AnsweredRequest => Send(NotePacket(c), writeOk)
    case OtherMessage => NotePacket(c)
    case AuthFailure => ReportFatal(NotePacket(c), INVALID_AUTH)
    case DisconnectRequest =>
      var c1 := NotePacket(c).(expectedDisconnect := true);
      if CanSend(c1) && writeOk then Cleanup(c1) else Send(c1, writeOk)
  }

  // Requests

  function BeginRequest(c: Conn, id: nat, writeOk: bool): Conn {
    if CanSend(c) && writeOk then
      c.(futures := c.futures[id := Pending], readers := c.readers + {id})
    else
      Send(c, writeOk)
  }

  function SettleRequest(c: Conn, id: nat, outcome: FutureState): Conn
    requires id in c.futures
  {
    if c.futures[id] == Pending then c.(futures := c.futures[id := outcome]) else c
  }

  // Steps

  datatype Action =
    | StartResolve
    | StartConnection
    | FinishConnection
    | SetupResumes(now: real, writeOk: bool)
    | SetupRaises(raised: Raised)
    | TaskCancelled
    | PingTimer(now: real, writeOk: bool)
    | PongTimer
    | PacketArrives(packet: Packet, writeOk: bool)
    | TransportFails(failure: Failure)
    | RequestBegins(id: nat, writeOk: bool)
    | ResponseArrives(id: nat)
    | RequestTimesOut(id: nat)
    | RequestCancelled(id: nat)
    | RequestEnds(id: nat)
    | DisconnectGivesUpWaiting
    | DisconnectSends(writeOk: bool)
    | DisconnectEnds
    | ForceDisconnect(writeOk: bool)

  /** A setup coroutine that resumes normally although cleanup has interrupted its block. */
  predicate ResumesInterrupted(c: Conn, a: Action) {
    a.SetupResumes? && c.setup.InBlock? && c.setup.interrupted
  }

  predicate Possible(c: Conn, a: Action) {
    match a
    case StartResolve => c.setup == Idle
    case StartConnection => c.setup == Idle
    case FinishConnection => c.setup == Idle
    case SetupResumes(_, _) => c.setup.InBlock?
    case SetupRaises(_) => c.setup.InBlock?
    case TaskCancelled => c.setup.InBlock?
    case PingTimer(now, _) => c.pingTimer == Some(now)
    case PongTimer => c.pongTimer.Some?
    case RequestBegins(id, _) => id !in c.futures
    case ResponseArrives(id) => id in c.futures
    case RequestTimesOut(id) => id in c.futures
    case RequestCancelled(id) => id in c.futures
    case RequestEnds(id) => id in c.futures && c.futures[id] != Pending
    case _ => true
  }

  /**
   A setup coroutine of a cancelled task that goes on as if nothing had happened, or fails with another
   exception; only an interruption at the same time may take the place of the CancelledError.
   */
  predicate SwallowsCancellation(c: Conn, a: Action) {
    && c.setup.InBlock? && c.setup.cancelled
    && (a.SetupResumes? || (a.SetupRaises? && a.raised != CancelledError &&
                            !(c.setup.interrupted && a.raised == Interruption)))
  }

  /** The steps when an interrupted block always raises and nobody swallows a CancelledError. */
  predicate Enabled(c: Conn, a: Action) {
    Possible(c, a) && !ResumesInterrupted(c, a) && !SwallowsCancellation(c, a)
  }

  function Step(c: Conn, a: Action): Conn
    requires Possible(c, a)
  {
    match a
    case StartResolve => if c.phase == Initialized then c.(setup := InBlock(Resolving, false, false)) else c
    case StartConnection => if c.phase == HostResolved then c.(setup := InBlock(Opening, false, false)) else c
    case FinishConnection =>
      if c.phase == SocketOpened then c.(setup := InBlock(ReadingTimezone, false, false)) else c
    case SetupResumes(now, writeOk) => SetupAdvances(c, now, writeOk)
    case SetupRaises(raised) => SetupFails(c, raised)
    case TaskCancelled => c.(setup := c.setup.(cancelled := true))
    case PingTimer(now, writeOk) => SendKeepAlive(c, now, writeOk)
    case PongTimer => ReportFatal(c, PING_FAILED)
    case PacketArrives(p, writeOk) => ProcessPacket(c, p, writeOk)
    case TransportFails(f) => ReportFatal(c, f)
    case RequestBegins(id, writeOk) => BeginRequest(c, id, writeOk)
    case ResponseArrives(id) => SettleRequest(c, id, Resolved)
    case RequestTimesOut(id) => SettleRequest(c, id, Failed(TimedOut))
    case RequestCancelled(id) => SettleRequest(c, id, Cancelled)
    case RequestEnds(id) => c.(readers := c.readers - {id})
    case DisconnectGivesUpWaiting => SetFatalIfUnset(c, DISCONNECT_TIMEOUT)
    case DisconnectSends(writeOk) => Send(c.(expectedDisconnect := true), writeOk)
    case DisconnectEnds => Cleanup(c)
    case ForceDisconnect(writeOk) => Cleanup(Send(c.(expectedDisconnect := true), writeOk))
  }

  predicate IsRun(c: Conn, run: seq<Action>)
    decreases |run|
  {
    run == [] || (Enabled(c, run[0]) && IsRun(Step(c, run[0]), run[1..]))
  }

  function RunFrom(c: Conn, run: seq<Action>): Conn
    requires IsRun(c, run)
    decreases |run|
  {
    if run == [] then c else RunFrom(Step(c, run[0]), run[1..])
  }
}
