/**
 Which error ends a connection, and whether its end was expected: both told from the steps of the run alone,
 without the functions that compute them.
 */
module ConnectionErrors {
  import opened Wrappers
  import opened ConnectionModel
  import opened ConnectionTheorems

  /** The error that a step reports on a connection that has none yet. */
  function ErrorOf(c: Conn, a: Action): Option<Failure>
    requires Possible(c, a)
  {
    match a
    case PongTimer => Some(ApiFailure(PingFailedAPIError))
    case TransportFails(f) => Some(f)
    case DisconnectGivesUpWaiting => Some(ApiFailure(TimeoutAPIError))
    case SetupRaises(raised) => Some(ErrorOfException(raised))
    case PacketArrives(Unparsable, _) => Some(ApiFailure(ProtocolAPIError))
    case PacketArrives(AuthFailure, _) => Some(ApiFailure(InvalidAuthAPIError))
    case _ => if WritesInVain(c, a) then Some(ApiFailure(SocketClosedAPIError)) else None
  }

  function ErrorOfException(raised: Raised): Failure {
    match raised
    case ApiError(error) => ApiFailure(error)
    case CancelledError => ApiFailure(APIConnectionCancelledError)
    case OsError => ApiFailure(SocketAPIError)
    case Interruption => ApiFailure(UnhandledAPIConnectionError)
    case OtherException => ApiFailure(UnhandledAPIConnectionError)
  }

  /** The step writes to the socket, which it can, and the write fails. */
  predicate WritesInVain(c: Conn, a: Action)
    requires Possible(c, a)
  {
    match a
    case SetupResumes(_, writeOk) => c.setup.at == Handshake && !writeOk
    case PingTimer(_, writeOk) => c.sendPendingPing && Connectable(c) && !writeOk
    case PacketArrives(p, writeOk) => (p == AnsweredRequest || p == DisconnectRequest) && Connectable(c) && !writeOk
    case RequestBegins(_, writeOk) => Connectable(c) && !writeOk
    case DisconnectSends(writeOk) => Connectable(c) && !writeOk
    case ForceDisconnect(writeOk) => Connectable(c) && !writeOk
    case _ => false
  }

  /** The handshake is done and the connection not closed. */
  predicate Connectable(c: Conn) {
    c.phase == HandshakeComplete || c.phase == Connected
  }

  lemma ConnectableCanSend(c: Conn)
    requires Inv(c)
    ensures Connectable(c) <==> CanSend(c)
  {
  }

  lemma SendSets(c: Conn, writeOk: bool)
    ensures Send(c, writeOk).fatal ==
            if c.fatal == None && CanSend(c) && !writeOk then Some(ApiFailure(SocketClosedAPIError)) else c.fatal
    ensures Send(c, writeOk).expectedDisconnect == c.expectedDisconnect
  {
    hide Cleanup, ReportFatal;
    ReportFatalCloses(c, SOCKET_CLOSED);
  }

  lemma SetupFailsSets(c: Conn, raised: Raised)
    requires c.setup.InBlock?
    ensures SetupFails(c, raised).fatal == if c.fatal == None then Some(ErrorOfException(raised)) else c.fatal
    ensures SetupFails(c, raised).expectedDisconnect == c.expectedDisconnect
  {
    hide Cleanup, ReportFatal;
    ReportFatalCloses(c, Wrap(c.fatal, raised));
  }

  predicate Says(a: Action) {
    a.DisconnectSends? || a.ForceDisconnect? || (a.PacketArrives? && a.packet == DisconnectRequest)
  }

  /** What a step makes of the error and of the expectation. */
  predicate Records(c: Conn, a: Action, d: Conn)
    requires Possible(c, a)
  {
    && d.fatal == (if c.fatal == None then ErrorOf(c, a) else c.fatal)
    && d.expectedDisconnect == (c.expectedDisconnect || Says(a))
  }

  lemma PacketRecords(c: Conn, p: Packet, writeOk: bool)
    requires Inv(c)
    ensures Records(c, PacketArrives(p, writeOk), ProcessPacket(c, p, writeOk))
  {
    hide Cleanup, ReportFatal, Send;
    ConnectableCanSend(c);
    var c1 := NotePacket(c);
    CleanupCloses(c1.(expectedDisconnect := true));
    ReportFatalCloses(c, PROTOCOL_ERROR);
    ReportFatalCloses(c1, INVALID_AUTH);
    SendSets(c1, writeOk);
    SendSets(c1.(expectedDisconnect := true), writeOk);
  }

  lemma SendingRecords(c: Conn, a: Action)
    requires Inv(c) && Enabled(c, a)
    requires a.PingTimer? || a.RequestBegins? || a.DisconnectSends? || a.ForceDisconnect?
    ensures Records(c, a, Step(c, a))
  {
    hide Cleanup, ReportFatal, Send;
    ConnectableCanSend(c);
    SendSets(c, a.writeOk);
    SendSets(c.(expectedDisconnect := true), a.writeOk);
    CleanupCloses(Send(c.(expectedDisconnect := true), a.writeOk));
  }

  lemma SetupRecords(c: Conn, a: Action)
    requires Inv(c) && Enabled(c, a) && (a.SetupRaises? || a.SetupResumes?)
    ensures Records(c, a, Step(c, a))
  {
    if a.SetupRaises? {
      SetupFailsSets(c, a.raised);
      hide SetupFails;
    } else if c.setup.at == Handshake {
      HandshakeRecords(c, a.now, a.writeOk);
      hide SetupAdvances;
    }
  }

  lemma HandshakeRecords(c: Conn, now: real, writeOk: bool)
    requires c.setup.InBlock? && c.setup.at == Handshake && c.helper
    ensures var d := SetupAdvances(c, now, writeOk);
            && d.fatal == (if c.fatal == None && !writeOk then Some(ApiFailure(SocketClosedAPIError)) else c.fatal)
            && d.expectedDisconnect == c.expectedDisconnect
  {
    hide Cleanup, ReportFatal, Send, SetupFails;
    var c1 := SetPhase(c, HandshakeComplete).(setup := c.setup.(at := Hello));
    SendSets(c1, writeOk);
    SendKeepsSetup(c1, writeOk);
    SetupFailsSets(Send(c1, writeOk), ApiError(SocketClosedAPIError));
  }

  lemma ReportingRecords(c: Conn, a: Action)
    requires Enabled(c, a) && (a.PongTimer? || a.TransportFails? || a.DisconnectEnds?)
    ensures Records(c, a, Step(c, a))
  {
    hide Cleanup, ReportFatal;
    match a
    case PongTimer => ReportFatalCloses(c, PING_FAILED);
    case TransportFails(f) => ReportFatalCloses(c, f);
    case DisconnectEnds => CleanupCloses(c);
  }

  lemma QuietSetupRecords(c: Conn, a: Action)
    requires Enabled(c, a)
    requires a.StartResolve? || a.StartConnection? || a.FinishConnection? || a.TaskCancelled?
    ensures Records(c, a, Step(c, a))
  {
    hide SendKeepAlive, SetupAdvances, SetupFails, ProcessPacket, BeginRequest, SettleRequest;
  }

  lemma QuietRequestRecords(c: Conn, a: Action)
    requires Enabled(c, a)
    requires
      || a.ResponseArrives? || a.RequestTimesOut? || a.RequestCancelled? || a.RequestEnds?
      || a.DisconnectGivesUpWaiting?
    ensures Records(c, a, Step(c, a))
  {
    hide SendKeepAlive, SetupAdvances, SetupFails, ProcessPacket, BeginRequest;
  }

  lemma StepRecords(c: Conn, a: Action)
    requires Inv(c) && Enabled(c, a)
    ensures Records(c, a, Step(c, a))
  {
    hide Cleanup, ReportFatal, Send, SendKeepAlive, SetupAdvances, SetupFails, ProcessPacket, BeginRequest, Inv,
         Records;
    if a.PacketArrives? {
      PacketRecords(c, a.packet, a.writeOk);
    } else if a.SetupRaises? || a.SetupResumes? {
      SetupRecords(c, a);
    } else if a.PingTimer? || a.RequestBegins? || a.DisconnectSends? || a.ForceDisconnect? {
      SendingRecords(c, a);
    } else if a.PongTimer? || a.TransportFails? || a.DisconnectEnds? {
      ReportingRecords(c, a);
    } else if a.StartResolve? || a.StartConnection? || a.FinishConnection? || a.TaskCancelled? {
      QuietSetupRecords(c, a);
    } else {
      QuietRequestRecords(c, a);
    }
  }

  /** The error of the first step of a run that has one. */
  function FirstErrorOf(c: Conn, run: seq<Action>): Option<Failure>
    requires IsRun(c, run)
    decreases |run|
  {
    if run == [] then None
    else if ErrorOf(c, run[0]).Some? then ErrorOf(c, run[0])
    else FirstErrorOf(Step(c, run[0]), run[1..])
  }

  /** On every run, the fatal error of a connection is the first that was reported. */
  lemma {:induction false} FatalIsFirstError(c: Conn, run: seq<Action>)
    requires Reachable(c) && c.fatal == None && IsRun(c, run)
    ensures RunFrom(c, run).fatal == FirstErrorOf(c, run)
    decreases |run|
  {
    if run != [] {
      ReachableKeeps(c);
      StepRecords(c, run[0]);
      ReachableStep(c, run[0]);
      hide Reachable, Step;
      if ErrorOf(c, run[0]).Some? {
        WrittenOnce(Step(c, run[0]), run[1..]);
      } else {
        FatalIsFirstError(Step(c, run[0]), run[1..]);
      }
    }
  }

  /** The end is expected exactly if one of the two sides has said goodbye, however far it came. */
  lemma {:induction false} ExpectedExactly(c: Conn, run: seq<Action>)
    requires Reachable(c) && IsRun(c, run)
    ensures RunFrom(c, run).expectedDisconnect <==>
              c.expectedDisconnect || exists i :: 0 <= i < |run| && Says(run[i])
    decreases |run|
  {
    if run != [] {
      ReachableKeeps(c);
      StepRecords(c, run[0]);
      ReachableStep(c, run[0]);
      hide Reachable, Step, Says;
      ExpectedExactly(Step(c, run[0]), run[1..]);
      if i :| 0 <= i < |run[1..]| && Says(run[1..][i]) {
        assert Says(run[i + 1]);
      }
      if i :| 0 < i < |run| && Says(run[i]) {
        assert Says(run[1..][i - 1]);
      }
    }
  }

  /** A connection can be ended at any time: by its transport, by us, and by us without waiting. */
  lemma CanAlwaysEnd(c: Conn, f: Failure, writeOk: bool)
    ensures Enabled(c, TransportFails(f)) && Step(c, TransportFails(f)).phase == Closed
    ensures Enabled(c, DisconnectSends(writeOk)) && Enabled(c, DisconnectGivesUpWaiting)
    ensures Enabled(c, DisconnectEnds) && Step(c, DisconnectEnds).phase == Closed
    ensures Enabled(c, ForceDisconnect(writeOk)) && Step(c, ForceDisconnect(writeOk)).phase == Closed
  {
    hide ReportFatal, Cleanup, Send, SendKeepAlive, SetupAdvances, SetupFails, ProcessPacket, BeginRequest;
    ReportFatalCloses(c, f);
    CleanupCloses(c);
    CleanupCloses(Send(c.(expectedDisconnect := true), writeOk));
  }

  /**
   The exception that a failed setup raises, unless it is the CancelledError: an API error as it is, and any
   other as the fatal API error before it, if there was one.
   */
  lemma SetupErrorIs(c: Conn, raised: Raised)
    requires Possible(c, SetupRaises(raised)) && !(raised == CancelledError && c.setup.cancelled)
    ensures Step(c, SetupRaises(raised)).exit ==
            if !raised.ApiError? && c.fatal.Some? && c.fatal.value.ApiFailure? then Some(WithApiError(c.fatal.value))
            else Some(WithApiError(ErrorOfException(raised)))
  {
    hide ReportFatal;
  }
}
