/** What holds over the whole life of a connection. */
module ConnectionTheorems {
  import opened Wrappers
  import opened ConnectionModel

  /** A closed connection holds nothing, and the setup coroutine it may still have is interrupted. */
  ghost predicate Released(c: Conn) {
    && !c.helper && !c.socket && c.pingTimer == None && c.pongTimer == None
    && c.readers == {}
    && (c.setup.InBlock? ==> c.setup.interrupted)
  }

  /** Every future that is still pending is registered for the connection's errors. */
  ghost predicate PendingIsRead(futures: map<nat, FutureState>, readers: set<nat>) {
    forall id | id in futures :: futures[id] == Pending ==> id in readers
  }

  function PhaseDuring(at: SetupAwait): Phase {
    match at
    case Resolving => Initialized
    case Opening => HostResolved
    case Hello => HandshakeComplete
    case _ => SocketOpened
  }

  /** What a connection holds by the time it has come this far. */
  predicate Equipped(c: Conn) {
    && (c.phase == SocketOpened || c.handshakeDone ==> c.socket)
    && (c.handshakeDone ==> c.helper)
    && (c.setup.InBlock? && !c.setup.interrupted && (c.setup.at == Handshake || c.setup.at == Hello) ==> c.helper)
    && (c.phase == Connected ==> c.pingTimer.Some?)
  }

  ghost predicate Inv(c: Conn) {
    && (c.isConnected <==> c.phase == Connected)
    && (c.handshakeDone <==> c.phase == HandshakeComplete || c.phase == Connected)
    && (c.phase == Closed ==> Released(c))
    && (c.exit.Some? ==> c.phase == Closed)
    && Equipped(c)
    && (c.setup.InBlock? ==> c.phase == if c.setup.interrupted then Closed else PhaseDuring(c.setup.at))
    && PendingIsRead(c.futures, c.readers)
    && (c.onStop ==> c.stopCalls == [])
    && |c.stopCalls| <= 1
  }

  ghost predicate Reachable(c: Conn) {
    exists interval, onStop, run | IsRun(New(interval, onStop), run) ::
      RunFrom(New(interval, onStop), run) == c
  }

  lemma CleanupKeeps(c: Conn)
    requires Inv(c)
    ensures Inv(Cleanup(c)) && Cleanup(c).phase == Closed
  {
  }

  lemma ReportFatalKeeps(c: Conn, f: Failure)
    requires Inv(c)
    ensures Inv(ReportFatal(c, f)) && ReportFatal(c, f).phase == Closed
  {
    CleanupKeeps(SetFatalIfUnset(c, f));
  }

  lemma SendKeeps(c: Conn, writeOk: bool)
    requires Inv(c)
    ensures Inv(Send(c, writeOk))
  {
    ReportFatalKeeps(c, SOCKET_CLOSED);
  }

  lemma SetupFailsKeeps(c: Conn, raised: Raised)
    requires Inv(c) && c.setup.InBlock?
    ensures Inv(SetupFails(c, raised)) && SetupFails(c, raised).phase == Closed
  {
    hide Cleanup, Wrap;
    ReportFatalKeeps(c, Wrap(c.fatal, raised));
  }

  lemma HandshakeKeeps(c: Conn, now: real, writeOk: bool)
    requires Inv(c) && c.phase != Closed && c.setup == InBlock(Handshake, false, false)
    ensures Inv(SetupAdvances(c, now, writeOk))
  {
    var c1 := SetPhase(c, HandshakeComplete).(setup := InBlock(Hello, false, false));
    assert Inv(c1);
    hide Inv, SetupFails, Cleanup;
    SendKeeps(c1, writeOk);
    SendKeepsSetup(c1, writeOk);
    SetupFailsKeeps(Send(c1, writeOk), ApiError(SocketClosedAPIError));
    SetupFailsKeeps(Send(c1, writeOk), ApiError(ConnectionNotEstablishedAPIError));
  }

  lemma SendKeepsSetup(c: Conn, writeOk: bool)
    ensures Send(c, writeOk).setup.InBlock? <==> c.setup.InBlock?
  {
    hide FailReaders, ReaderError, SetPhase;
  }

  lemma SetPhaseKeeps(c: Conn, p: Phase)
    requires Inv(c) && c.phase != Closed && p != Closed && Equipped(SetPhase(c, p).(setup := Idle))
    ensures Inv(SetPhase(c, p).(setup := Idle))
  {
  }

  lemma SetupAdvancesKeeps(c: Conn, now: real, writeOk: bool)
    requires Inv(c) && c.phase != Closed && c.setup.InBlock? && !c.setup.interrupted && c.setup.at != Handshake
    ensures Inv(SetupAdvances(c, now, writeOk))
  {
    match c.setup.at
    case Resolving => SetPhaseKeeps(c, HostResolved);
    case Opening => SetPhaseKeeps(c.(socket := true), SocketOpened);
    case Hello => SetPhaseKeeps(ScheduleKeepAlive(c, now), Connected);
    case ReadingTimezone =>
    case CreatingHelper =>
  }

  lemma ProcessPacketKeeps(c: Conn, p: Packet, writeOk: bool)
    requires Inv(c)
    ensures Inv(ProcessPacket(c, p, writeOk))
  {
    match p
    case Unparsable => ReportFatalKeeps(c, PROTOCOL_ERROR);
    case UnknownType =>
    case OtherMessage =>
    case AnsweredRequest => SendKeeps(NotePacket(c), writeOk);
    case AuthFailure => ReportFatalKeeps(NotePacket(c), INVALID_AUTH);
    case DisconnectRequest =>
      var c1 := NotePacket(c).(expectedDisconnect := true);
      CleanupKeeps(c1);
      SendKeeps(c1, writeOk);
  }

  predicate ClosingStep(a: Action) {
    a.SetupRaises? || a.PongTimer? || a.PacketArrives? || a.TransportFails? || a.DisconnectEnds?
  }

  lemma SendingStepKeeps(c: Conn, a: Action)
    requires Inv(c) && Enabled(c, a)
    requires a.PingTimer? || a.RequestBegins? || a.DisconnectSends? || a.ForceDisconnect?
    ensures Inv(Step(c, a))
  {
    match a
    case PingTimer(now, writeOk) => PingTimerKeeps(c, now, writeOk);
    case RequestBegins(id, writeOk) => RequestBeginsKeeps(c, id, writeOk);
    case DisconnectSends(writeOk) =>
      hide Send, Cleanup;
      SendKeeps(c.(expectedDisconnect := true), writeOk);
    case ForceDisconnect(writeOk) =>
      hide Send, Cleanup;
      SendKeeps(c.(expectedDisconnect := true), writeOk);
      CleanupKeeps(Send(c.(expectedDisconnect := true), writeOk));
  }

  lemma PingTimerKeeps(c: Conn, now: real, writeOk: bool)
    requires Inv(c) && c.pingTimer.Some?
    ensures Inv(SendKeepAlive(c, now, writeOk))
  {
    hide Cleanup, PendingIsRead;
    SendKeeps(c, writeOk);
    if CanSend(c) && !writeOk {
      ReportFatalKeeps(c, SOCKET_CLOSED);
    }
  }

  lemma RequestBeginsKeeps(c: Conn, id: nat, writeOk: bool)
    requires Inv(c)
    ensures Inv(BeginRequest(c, id, writeOk))
  {
    hide Cleanup, ReportFatal;
    SendKeeps(c, writeOk);
  }

  lemma ClosingStepKeeps(c: Conn, a: Action)
    requires Inv(c) && Enabled(c, a) && ClosingStep(a)
    ensures Inv(Step(c, a))
  {
    match a
    case SetupRaises(raised) => SetupFailsKeeps(c, raised);
    case PongTimer => ReportFatalKeeps(c, PING_FAILED);
    case PacketArrives(p, writeOk) => ProcessPacketKeeps(c, p, writeOk);
    case TransportFails(f) => ReportFatalKeeps(c, f);
    case DisconnectEnds => CleanupKeeps(c);
  }

  lemma StepKeeps(c: Conn, a: Action)
    requires Inv(c) && Enabled(c, a)
    ensures Inv(Step(c, a))
  {
    hide Inv, Cleanup, ReportFatal, Send, SendKeepAlive, SetupAdvances, SetupFails, ProcessPacket, BeginRequest;
    if ClosingStep(a) {
      ClosingStepKeeps(c, a);
    } else if a.SetupResumes? {
      SetupResumesKeeps(c, a.now, a.writeOk);
    } else if a.PingTimer? || a.RequestBegins? || a.DisconnectSends? || a.ForceDisconnect? {
      SendingStepKeeps(c, a);
    } else {
      LocalStepKeeps(c, a);
    }
  }

  lemma SetupResumesKeeps(c: Conn, now: real, writeOk: bool)
    requires Inv(c) && Enabled(c, SetupResumes(now, writeOk))
    ensures Inv(Step(c, SetupResumes(now, writeOk)))
  {
    hide SetupAdvances, PendingIsRead, Released, Equipped;
    if c.setup.at == Handshake {
      HandshakeKeeps(c, now, writeOk);
    } else {
      SetupAdvancesKeeps(c, now, writeOk);
    }
  }

  /** The steps that neither send nor close. */
  lemma LocalStepKeeps(c: Conn, a: Action)
    requires Inv(c) && Enabled(c, a)
    requires
      || a.StartResolve? || a.StartConnection? || a.FinishConnection? || a.TaskCancelled? || a.DisconnectGivesUpWaiting?
      || a.ResponseArrives? || a.RequestTimesOut? || a.RequestCancelled? || a.RequestEnds?
    ensures Inv(Step(c, a))
  {
    hide Cleanup, ReportFatal, Send, SendKeepAlive, SetupAdvances, SetupFails, ProcessPacket, BeginRequest;
  }

  lemma {:induction false} RunKeeps(c: Conn, run: seq<Action>)
    requires Inv(c) && IsRun(c, run)
    ensures Inv(RunFrom(c, run))
    decreases |run|
  {
    if run != [] {
      StepKeeps(c, run[0]);
      RunKeeps(Step(c, run[0]), run[1..]);
    }
  }

  lemma ReachableKeeps(c: Conn)
    requires Reachable(c)
    ensures Inv(c)
  {
    var interval, onStop, run :| IsRun(New(interval, onStop), run) && RunFrom(New(interval, onStop), run) == c;
    RunKeeps(New(interval, onStop), run);
  }

  // Closed connections

  /** CLOSED holds no socket, frame helper or timer, and none of its requests is left waiting. */
  lemma ClosedIsReleased(c: Conn)
    requires Reachable(c) && c.phase == Closed
    ensures !c.socket && !c.helper && c.pingTimer == None && c.pongTimer == None
    ensures forall id | id in c.futures :: c.futures[id] != Pending
  {
    ReachableKeeps(c);
  }

  /** The setup resumptions that write the phase. */
  predicate WritesPhase(a: Action, c: Conn) {
    a.SetupResumes? && c.setup.InBlock? &&
    (c.setup.at == Resolving || c.setup.at == Opening || c.setup.at == Hello)
  }

  /** CLOSED is left exactly when an interrupted setup block is resumed as if nothing had happened. */
  lemma ClosedIsAbsorbing(c: Conn, a: Action)
    requires Reachable(c) && c.phase == Closed && Possible(c, a)
    ensures Step(c, a).phase != Closed <==> ResumesInterrupted(c, a) && WritesPhase(a, c)
    ensures Enabled(c, a) ==> Step(c, a).phase == Closed
  {
    hide Cleanup, PendingIsRead, Reachable, Equipped, Wrap;
    CleanupAlwaysCloses();
    ReachableKeeps(c);
  }

  /** Over runs: once closed, closed for good. */
  lemma {:induction false} ClosedForGood(c: Conn, run: seq<Action>)
    requires Reachable(c) && c.phase == Closed && IsRun(c, run)
    ensures RunFrom(c, run).phase == Closed && RunFrom(c, run).stopCalls == c.stopCalls
    decreases |run|
  {
    if run != [] {
      ClosedIsAbsorbing(c, run[0]);
      StopCallbackFiresOnClose(c, run[0]);
      ReachableStep(c, run[0]);
      ClosedForGood(Step(c, run[0]), run[1..]);
    }
  }

  // What a step may change: the fatal error and every future are written once, closing fails the
  // waiting readers, and `on_stop` is called exactly by the step that closes a CONNECTED connection.

  ghost predicate FuturesKept(f: map<nat, FutureState>, g: map<nat, FutureState>) {
    forall id | id in f :: id in g && (f[id] != Pending ==> g[id] == f[id])
  }

  ghost predicate WaitersFailed(f: map<nat, FutureState>, g: map<nat, FutureState>, error: ReadError) {
    f.Keys == g.Keys && forall id | id in f && f[id] == Pending :: g[id] == Failed(error)
  }

  ghost predicate StopCalled(c: Conn, d: Conn) {
    d.stopCalls ==
    if c.onStop && c.phase == Connected && d.phase == Closed then c.stopCalls + [d.expectedDisconnect] else c.stopCalls
  }

  ghost predicate Evolves(c: Conn, d: Conn) {
    && (c.fatal.Some? ==> d.fatal == c.fatal)
    && FuturesKept(c.futures, d.futures)
    && (c.phase != Closed && d.phase == Closed ==> WaitersFailed(c.futures, d.futures, ReaderError(d.fatal)))
    && StopCalled(c, d)
  }

  lemma CleanupEvolves(c: Conn)
    requires Inv(c)
    ensures Evolves(c, Cleanup(c))
  {
  }

  lemma ReportFatalEvolves(c: Conn, f: Failure)
    requires Inv(c)
    ensures Evolves(c, ReportFatal(c, f))
  {
    if c.fatal == None {
      var c1 := c.(fatal := Some(f));
      CleanupEvolves(c1);
      assert ReportFatal(c, f) == Cleanup(c1);
    } else {
      CleanupEvolves(c);
    }
  }

  lemma SendEvolves(c: Conn, writeOk: bool)
    requires Inv(c)
    ensures Evolves(c, Send(c, writeOk))
    ensures Send(c, writeOk) == c || Send(c, writeOk).phase == Closed
  {
    ReportFatalEvolves(c, SOCKET_CLOSED);
    ReportFatalKeeps(c, SOCKET_CLOSED);
  }

  lemma SetupFailsEvolves(c: Conn, raised: Raised)
    requires Inv(c) && c.setup.InBlock?
    ensures Evolves(c, SetupFails(c, raised))
  {
    hide Inv, Wrap, ReportFatal;
    ReportFatalEvolves(c, Wrap(c.fatal, raised));
  }

  lemma HandshakeEvolves(c: Conn, now: real, writeOk: bool)
    requires Inv(c) && c.phase != Closed && c.setup == InBlock(Handshake, false, false) && c.phase != Connected
    ensures Evolves(c, SetupAdvances(c, now, writeOk))
  {
    var c1 := SetPhase(c, HandshakeComplete).(setup := InBlock(Hello, false, false));
    assert Inv(c1);
    SendEvolves(c1, writeOk);
    SendKeepsSetup(c1, writeOk);
    if !CanSend(c1) {
      SetupFailsEvolves(c1, ApiError(ConnectionNotEstablishedAPIError));
    } else if !writeOk {
      hide Inv, Cleanup, SetupFails;
      ReportFatalCloses(c1, SOCKET_CLOSED);
      ClosedFailureIsQuiet(Send(c1, writeOk), ApiError(SocketClosedAPIError));
    }
  }

  lemma CleanupCloses(c: Conn)
    ensures Cleanup(c).phase == Closed && Cleanup(c).fatal == c.fatal
    ensures Cleanup(c).expectedDisconnect == c.expectedDisconnect
    ensures c.phase != Closed ==> Cleanup(c).pongTimer == None
    ensures Cleanup(c).sendPendingPing == c.sendPendingPing
  {
  }

  lemma ReportFatalCloses(c: Conn, f: Failure)
    ensures ReportFatal(c, f).phase == Closed && ReportFatal(c, f).expectedDisconnect == c.expectedDisconnect
    ensures ReportFatal(c, f).fatal == if c.fatal == None then Some(f) else c.fatal
    ensures c.phase != Closed ==> ReportFatal(c, f).pongTimer == None
    ensures ReportFatal(c, f).sendPendingPing == c.sendPendingPing
  {
    hide Cleanup;
    CleanupCloses(SetFatalIfUnset(c, f));
  }

  /** A setup that fails on a closed connection changes no more than its own state. */
  lemma ClosedFailureIsQuiet(c: Conn, raised: Raised)
    requires c.setup.InBlock? && c.phase == Closed
    ensures var d := SetupFails(c, raised);
            && d.phase == Closed && d.futures == c.futures && d.stopCalls == c.stopCalls
            && (c.fatal.Some? ==> d.fatal == c.fatal)
  {
    hide Cleanup, Wrap;
    ClosedStaysPut(SetFatalIfUnset(c, Wrap(c.fatal, raised)));
  }

  lemma CleanupAlwaysCloses()
    ensures forall c: Conn :: Cleanup(c).phase == Closed
  {
    forall c: Conn
      ensures Cleanup(c).phase == Closed
    {
      CleanupCloses(c);
    }
  }

  lemma ClosedStaysPut(c: Conn)
    ensures c.phase == Closed ==> Cleanup(c) == c
  {
  }

  // The fatal error and the futures are written once

  lemma ProcessPacketEvolves(c: Conn, p: Packet, writeOk: bool)
    requires Inv(c)
    ensures Evolves(c, ProcessPacket(c, p, writeOk))
  {
    match p
    case Unparsable => ReportFatalEvolves(c, PROTOCOL_ERROR);
    case UnknownType =>
    case OtherMessage =>
    case AnsweredRequest => SendEvolves(NotePacket(c), writeOk);
    case AuthFailure => ReportFatalEvolves(NotePacket(c), INVALID_AUTH);
    case DisconnectRequest =>
      var c1 := NotePacket(c).(expectedDisconnect := true);
      CleanupEvolves(c1);
      SendEvolves(c1, writeOk);
  }

  lemma SendingStepEvolves(c: Conn, a: Action)
    requires Inv(c) && Enabled(c, a)
    requires a.PingTimer? || a.RequestBegins? || a.DisconnectSends?
    ensures Evolves(c, Step(c, a))
  {
    hide ReportFatal;
    match a
    case PingTimer(now, writeOk) => SendEvolves(c, writeOk);
    case RequestBegins(id, writeOk) => SendEvolves(c, writeOk);
    case DisconnectSends(writeOk) => SendEvolves(c.(expectedDisconnect := true), writeOk);
  }

  lemma ForceDisconnectEvolves(c: Conn, writeOk: bool)
    requires Inv(c)
    ensures Evolves(c, Step(c, ForceDisconnect(writeOk)))
  {
    var c1 := c.(expectedDisconnect := true);
    SendEvolves(c1, writeOk);
    if Send(c1, writeOk) == c1 {
      CleanupEvolves(c1);
    }
  }

  lemma ClosingStepEvolves(c: Conn, a: Action)
    requires Inv(c) && Enabled(c, a) && ClosingStep(a)
    ensures Evolves(c, Step(c, a))
  {
    match a
    case SetupRaises(raised) => SetupFailsEvolves(c, raised);
    case PongTimer => ReportFatalEvolves(c, PING_FAILED);
    case PacketArrives(p, writeOk) => ProcessPacketEvolves(c, p, writeOk);
    case TransportFails(f) => ReportFatalEvolves(c, f);
    case DisconnectEnds => CleanupEvolves(c);
  }

  lemma SetupAdvancesEvolves(c: Conn, now: real, writeOk: bool)
    requires c.phase != Closed && c.setup.InBlock? && c.setup.at != Handshake
    ensures Evolves(c, SetupAdvances(c, now, writeOk))
  {
    hide Evolves, SetupFails, Send, SetPhase, ScheduleKeepAlive;
    match c.setup.at
    case Resolving =>
      SetPhaseKeepsRest(c, HostResolved);
      OpenStepEvolves(c, SetPhase(c, HostResolved).(setup := Idle));
    case Opening =>
      SetPhaseKeepsRest(c.(socket := true), SocketOpened);
      OpenStepEvolves(c, SetPhase(c.(socket := true), SocketOpened).(setup := Idle));
    case ReadingTimezone => OpenStepEvolves(c, c.(setup := c.setup.(at := CreatingHelper)));
    case CreatingHelper => OpenStepEvolves(c, c.(helper := true, setup := c.setup.(at := Handshake)));
    case Hello =>
      ScheduleKeepsRest(c, now);
      SetPhaseKeepsRest(ScheduleKeepAlive(c, now), Connected);
      OpenStepEvolves(c, SetPhase(ScheduleKeepAlive(c, now), Connected).(setup := Idle));
  }

  lemma SetPhaseKeepsRest(c: Conn, p: Phase)
    ensures var d := SetPhase(c, p);
            && d.phase == p && d.futures == c.futures && d.fatal == c.fatal && d.stopCalls == c.stopCalls
            && d.setup == c.setup && d.pingTimer == c.pingTimer && d.sendPendingPing == c.sendPendingPing
  {
  }

  lemma ScheduleKeepsRest(c: Conn, now: real)
    ensures var d := ScheduleKeepAlive(c, now);
            d.futures == c.futures && d.fatal == c.fatal && d.stopCalls == c.stopCalls
  {
  }

  /** A step that leaves the connection open and the futures alone. */
  lemma OpenStepEvolves(c: Conn, d: Conn)
    requires d.futures == c.futures && d.fatal == c.fatal && d.stopCalls == c.stopCalls && d.phase != Closed
    ensures Evolves(c, d)
  {
  }

  /** The steps that neither send nor close. */
  lemma LocalStepEvolves(c: Conn, a: Action)
    requires Inv(c) && Enabled(c, a)
    requires !ClosingStep(a) && !a.SetupResumes? && !a.ForceDisconnect?
    requires !a.PingTimer? && !a.RequestBegins? && !a.DisconnectSends?
    ensures Evolves(c, Step(c, a))
  {
    hide Inv, Evolves;
    if a.ResponseArrives? {
      SettleEvolves(c, a.id, Resolved);
    } else if a.RequestCancelled? {
      SettleEvolves(c, a.id, Cancelled);
    } else if a.RequestTimesOut? {
      SettleEvolves(c, a.id, Failed(TimedOut));
    } else {
      QuietStepEvolves(c, a);
    }
  }

  lemma QuietStepEvolves(c: Conn, a: Action)
    requires Possible(c, a)
    requires
      || a.StartResolve? || a.StartConnection? || a.FinishConnection? || a.TaskCancelled?
      || a.RequestEnds? || a.DisconnectGivesUpWaiting?
    ensures Evolves(c, Step(c, a))
  {
    hide Evolves;
    match a
    case StartResolve => StartEvolves(c, InBlock(Resolving, false, false));
    case StartConnection => StartEvolves(c, InBlock(Opening, false, false));
    case FinishConnection => StartEvolves(c, InBlock(ReadingTimezone, false, false));
    case TaskCancelled => StartEvolves(c, c.setup.(cancelled := true));
    case RequestEnds(id) => EndEvolves(c, id);
    case DisconnectGivesUpWaiting => GiveUpEvolves(c, DISCONNECT_TIMEOUT);
  }

  lemma StartEvolves(c: Conn, s: Setup)
    ensures Evolves(c, c) && Evolves(c, c.(setup := s))
  {
  }

  lemma EndEvolves(c: Conn, id: nat)
    ensures Evolves(c, c.(readers := c.readers - {id}))
  {
  }

  lemma GiveUpEvolves(c: Conn, f: Failure)
    ensures Evolves(c, SetFatalIfUnset(c, f))
  {
  }

  lemma SettleEvolves(c: Conn, id: nat, outcome: FutureState)
    requires id in c.futures
    ensures Evolves(c, SettleRequest(c, id, outcome))
  {
    hide WaitersFailed, FuturesKept;
    SettlingKeepsFutures(c.futures, id, outcome);
  }

  lemma SettlingKeepsFutures(futures: map<nat, FutureState>, id: nat, outcome: FutureState)
    requires id in futures
    ensures FuturesKept(futures, futures)
    ensures futures[id] == Pending ==> FuturesKept(futures, futures[id := outcome])
  {
  }

  lemma StepEvolves(c: Conn, a: Action)
    requires Inv(c) && Enabled(c, a)
    ensures Evolves(c, Step(c, a))
  {
    if ClosingStep(a) {
      ClosingStepEvolves(c, a);
    } else if a.SetupResumes? {
      if c.setup.at == Handshake {
        HandshakeEvolves(c, a.now, a.writeOk);
      } else {
        SetupAdvancesEvolves(c, a.now, a.writeOk);
      }
    } else if a.ForceDisconnect? {
      ForceDisconnectEvolves(c, a.writeOk);
    } else if a.PingTimer? || a.RequestBegins? || a.DisconnectSends? {
      SendingStepEvolves(c, a);
    } else {
      LocalStepEvolves(c, a);
    }
  }

  /** The first fatal error wins, and a settled future never changes again. */
  lemma {:induction false} WrittenOnce(c: Conn, run: seq<Action>)
    requires Reachable(c) && IsRun(c, run)
    ensures c.fatal.Some? ==> RunFrom(c, run).fatal == c.fatal
    ensures FuturesKept(c.futures, RunFrom(c, run).futures)
    decreases |run|
  {
    if run != [] {
      ReachableKeeps(c);
      StepEvolves(c, run[0]);
      ReachableStep(c, run[0]);
      WrittenOnce(Step(c, run[0]), run[1..]);
    }
  }

  /**
   What the futures are once a connection with this fatal error is closed.  A waiting request gets the fatal
   error itself if that is an API error, one that wraps it if it is not, and that the connection was closed if
   there is none; nothing else changes.
   */
  ghost predicate ClosedWith(f: map<nat, FutureState>, g: map<nat, FutureState>, fatal: Option<Failure>) {
    && f.Keys == g.Keys
    && (forall id | id in f && f[id] != Pending :: g[id] == f[id])
    && (forall id | id in f && f[id] == Pending ::
          g[id] == Failed(if fatal == None then ConnectionClosed
                          else if fatal.value.ApiFailure? then Original(fatal.value) else ReadFailed(fatal.value)))
  }

  lemma ReadersTold(c: Conn)
    ensures PendingIsRead(c.futures, c.readers) ==>
              ClosedWith(c.futures, FailReaders(c.futures, c.readers, ReaderError(c.fatal)), c.fatal)
  {
  }

  /** Closing fails every request that is still waiting, with the first fatal error if there is one. */
  lemma ClosingFailsWaiters(c: Conn, a: Action)
    requires Reachable(c) && Enabled(c, a) && c.phase != Closed && Step(c, a).phase == Closed
    ensures ClosedWith(c.futures, Step(c, a).futures, Step(c, a).fatal)
  {
    ReachableKeeps(c);
    StepEvolves(c, a);
  }

  /** `on_stop` is called exactly by the step that closes a CONNECTED connection. */
  lemma StopCallbackFiresOnClose(c: Conn, a: Action)
    requires Reachable(c) && Enabled(c, a)
    ensures Step(c, a).stopCalls ==
            if c.onStop && c.phase == Connected && Step(c, a).phase == Closed
            then c.stopCalls + [Step(c, a).expectedDisconnect]
            else c.stopCalls
  {
    ReachableKeeps(c);
    StepEvolves(c, a);
  }

  lemma StopCallbackFiresOnce(c: Conn)
    requires Reachable(c)
    ensures |c.stopCalls| <= 1
  {
    ReachableKeeps(c);
  }

  // What the handlers promise

  /** A CONNECTED connection has its socket and helper, and its keep-alive never stops. */
  lemma ConnectedIsWatched(c: Conn)
    requires Reachable(c) && c.phase == Connected
    ensures c.socket && c.helper && c.pingTimer.Some? && CanSend(c) && c.exit == None
  {
    ReachableKeeps(c);
  }

  /**
   When the ping timer of a CONNECTED connection fires, the connection is closed by a failed write or the
   next firing is one interval away; a pong deadline that is already running is never moved, and one
   starts with the first unanswered ping.
   */
  lemma KeepAliveGoesOn(c: Conn, now: real, writeOk: bool)
    requires Reachable(c) && c.phase == Connected
    ensures var d := SendKeepAlive(c, now, writeOk);
            && (d.phase == Closed <==> c.sendPendingPing && !writeOk)
            && (d.phase == Closed ==> d.fatal.Some?)
            && (d.phase != Closed ==> d.phase == Connected && d.sendPendingPing)
            && (d.phase != Closed ==> d.pingTimer == Some(now + c.interval))
            && (d.phase != Closed && c.pongTimer.Some? ==> d.pongTimer == c.pongTimer)
            && (d.phase != Closed && c.pongTimer == None ==> (d.pongTimer.Some? <==> c.sendPendingPing))
  {
    ConnectedIsWatched(c);
    ReportFatalCloses(c, SOCKET_CLOSED);
    hide Reachable, Cleanup, ReportFatal;
  }

  predicate IsValidPacket(p: Packet) {
    p != UnknownType && p != Unparsable
  }

  /**
   A packet on an open connection.  A valid one proves the peer alive; the connection is closed exactly
   by nonsense, a refused password, a goodbye that can be answered or an answer that cannot be written;
   and a goodbye in good order leaves no error.
   */
  lemma PacketOutcome(c: Conn, p: Packet, writeOk: bool)
    requires c.phase != Closed
    ensures var d := ProcessPacket(c, p, writeOk);
            && (IsValidPacket(p) ==> d.pongTimer == None && !d.sendPendingPing)
            && (d.phase == Closed <==>
                  || p == Unparsable || p == AuthFailure
                  || (p == DisconnectRequest && CanSend(c))
                  || (p == AnsweredRequest && CanSend(c) && !writeOk))
            && (d.phase != Closed ==> d.phase == c.phase && d.futures == c.futures && d.fatal == c.fatal)
            && (p == DisconnectRequest ==> d.expectedDisconnect && (writeOk ==> d.fatal == c.fatal))
            && (d.phase == Closed && !(p == DisconnectRequest && writeOk) ==> d.fatal.Some?)
  {
    hide Cleanup, ReportFatal;
    var c1 := NotePacket(c);
    CleanupCloses(c1.(expectedDisconnect := true));
    match p
    case Unparsable => ReportFatalCloses(c, PROTOCOL_ERROR);
    case AuthFailure => ReportFatalCloses(c1, INVALID_AUTH);
    case AnsweredRequest => ReportFatalCloses(c1, SOCKET_CLOSED);
    case DisconnectRequest => ReportFatalCloses(c1.(expectedDisconnect := true), SOCKET_CLOSED);
    case OtherMessage =>
    case UnknownType =>
  }

  /** The order in which a connection comes up. */
  predicate NextPhase(p: Phase, q: Phase) {
    || (p == Initialized && q == HostResolved)
    || (p == HostResolved && q == SocketOpened)
    || (p == SocketOpened && q == HandshakeComplete)
    || (p == HandshakeComplete && q == Connected)
  }

  /** Every step of a setup coroutine takes the connection at most one phase further, or closes it. */
  lemma SetupMovesOn(c: Conn, now: real, writeOk: bool)
    requires Reachable(c) && Enabled(c, SetupResumes(now, writeOk))
    ensures var d := Step(c, SetupResumes(now, writeOk));
            && (d.phase == c.phase || NextPhase(c.phase, d.phase) || d.phase == Closed)
            && (d.phase == Closed <==> c.setup.at == Handshake && !writeOk)
            && (d.phase == Closed ==> d.fatal.Some? && d.setup == Idle && d.exit.Some? && d.exit.value.WithApiError?)
            && (d.phase == c.phase ==> d.setup.InBlock? && c.phase == SocketOpened)
            && (d.phase == Connected ==> d.pingTimer == Some(now + c.interval) && d.sendPendingPing)
  {
    ReachableKeeps(c);
    hide Reachable, SetupAdvances, PendingIsRead, Released;
    if c.setup.at == Handshake {
      HandshakeOutcome(c, now, writeOk);
    } else {
      PlainSetupOutcome(c, now, writeOk);
    }
  }

  lemma PlainSetupOutcome(c: Conn, now: real, writeOk: bool)
    requires c.setup.InBlock? && c.setup.at != Handshake && c.phase == PhaseDuring(c.setup.at)
    ensures var d := SetupAdvances(c, now, writeOk);
            && (d.phase == c.phase || NextPhase(c.phase, d.phase))
            && (d.phase == c.phase ==> d.setup.InBlock? && c.phase == SocketOpened)
            && (d.phase == Connected ==> d.pingTimer == Some(now + c.interval) && d.sendPendingPing)
  {
    hide SetupFails, Send, SetPhase;
    match c.setup.at
    case Resolving => SetPhaseKeepsRest(c, HostResolved);
    case Opening => SetPhaseKeepsRest(c.(socket := true), SocketOpened);
    case Hello => SetPhaseKeepsRest(ScheduleKeepAlive(c, now), Connected);
    case ReadingTimezone =>
    case CreatingHelper =>
  }

  lemma HandshakeOutcome(c: Conn, now: real, writeOk: bool)
    requires c.setup.InBlock? && c.setup.at == Handshake && c.helper
    ensures var d := SetupAdvances(c, now, writeOk);
            if writeOk then d.phase == HandshakeComplete && d.setup.InBlock?
            else d.phase == Closed && d.fatal.Some? && d.setup == Idle && d.exit.Some? && d.exit.value.WithApiError?
  {
    hide Cleanup, ReportFatal, Wrap;
    var c1 := SetPhase(c, HandshakeComplete).(setup := c.setup.(at := Hello));
    SendKeepsSetup(c1, writeOk);
    var c2 := Send(c1, writeOk);
    ReportFatalCloses(c2, Wrap(c2.fatal, ApiError(SocketClosedAPIError)));
  }

  // How a setup coroutine fails

  /**
   A setup that fails closes the connection and records a fatal error, and its caller gets the original
   CancelledError exactly when the block raised it in a task that is being cancelled; every other
   exception comes out as an API error.  So if nobody swallows it, a cancelled task always leaves with
   CancelledError, unless the connection was interrupted as well.
   */
  lemma FailedSetupLeaves(c: Conn, raised: Raised)
    requires Possible(c, SetupRaises(raised))
    ensures var d := Step(c, SetupRaises(raised));
            && d.phase == Closed && d.fatal.Some? && d.setup == Idle
            && (d.exit == Some(WithCancelledError) <==> raised == CancelledError && c.setup.cancelled)
            && (d.exit != Some(WithCancelledError) ==> d.exit.Some? && d.exit.value.failure.ApiFailure?)
            && (Enabled(c, SetupRaises(raised)) && c.setup.cancelled && !c.setup.interrupted ==>
                  d.exit == Some(WithCancelledError))
  {
    hide ReportFatal;
    ReportFatalCloses(c, Wrap(c.fatal, raised));
  }

  /**
   A cancelled task leaves its setup with CancelledError, unless the interruption of the connection was raised
   in its place; and that takes a connection that was interrupted.
   */
  lemma CancelledSetupLeaves(c: Conn, raised: Raised)
    requires Enabled(c, SetupRaises(raised)) && c.setup.cancelled
    ensures Step(c, SetupRaises(raised)).exit != Some(WithCancelledError) <==> raised == Interruption
    ensures raised == Interruption ==> c.setup.interrupted
  {
    FailedSetupLeaves(c, raised);
  }

  // Without the interrupt assumption: a peer that says hello and goodbye at once

  lemma {:induction false} RunExtends(c: Conn, run: seq<Action>, a: Action)
    requires IsRun(c, run) && Enabled(RunFrom(c, run), a)
    ensures IsRun(c, run + [a]) && RunFrom(c, run + [a]) == Step(RunFrom(c, run), a)
    decreases |run|
  {
    if run == [] {
      assert (run + [a])[1..] == [];
    } else {
      assert (run + [a])[1..] == run[1..] + [a];
      RunExtends(Step(c, run[0]), run[1..], a);
    }
  }

  lemma ReachableStep(c: Conn, a: Action)
    requires Reachable(c) && Enabled(c, a)
    ensures Reachable(Step(c, a))
  {
    var interval, onStop, run :| IsRun(New(interval, onStop), run) && RunFrom(New(interval, onStop), run) == c;
    RunExtends(New(interval, onStop), run, a);
  }

  lemma {:induction false} ReachableRun(c: Conn, run: seq<Action>)
    requires Reachable(c) && IsRun(c, run)
    ensures Reachable(RunFrom(c, run))
    decreases |run|
  {
    hide Reachable;
    if run != [] {
      ReachableStep(c, run[0]);
      ReachableRun(Step(c, run[0]), run[1..]);
    }
  }

  const RESUME := SetupResumes(0.0, true)

  lemma OpenedSocket() returns (c: Conn)
    ensures Reachable(c)
    ensures c == SetPhase(New(20.0, true).(socket := true), SocketOpened)
  {
    hide Reachable;
    c := New(20.0, true);
    NewIsReachable(20.0, true);
    ReachableStep(c, StartResolve);
    c := Step(c, StartResolve);
    ReachableStep(c, RESUME);
    c := SetupAdvances(c, 0.0, true);
    ReachableStep(c, StartConnection);
    c := Step(c, StartConnection);
    ReachableStep(c, RESUME);
    c := SetupAdvances(c, 0.0, true);
  }

  lemma CreatingTheHelper() returns (c: Conn)
    ensures Reachable(c)
    ensures var setup := InBlock(CreatingHelper, false, false);
            c == SetPhase(New(20.0, true).(socket := true, setup := setup), SocketOpened)
  {
    hide Reachable;
    c := OpenedSocket();
    ReachableStep(c, FinishConnection);
    c := Step(c, FinishConnection);
    ReachableStep(c, RESUME);
    c := SetupAdvances(c, 0.0, true);
  }

  lemma AwaitingHello() returns (c: Conn)
    ensures Reachable(c)
    ensures var setup := InBlock(Hello, false, false);
            c == SetPhase(New(20.0, true).(socket := true, helper := true, setup := setup), HandshakeComplete)
  {
    hide Reachable;
    c := CreatingTheHelper();
    ReachableStep(c, RESUME);
    c := SetupAdvances(c, 0.0, true);
    ReachableStep(c, RESUME);
    c := SetupAdvances(c, 0.0, true);
  }

  /** Were the interrupted block resumed normally, CLOSED would be overwritten and a timer armed. */
  lemma InterruptIsNeeded()
    ensures exists c, a :: Reachable(c) && c.phase == Closed && Possible(c, a) && ResumesInterrupted(c, a) &&
              Step(c, a).phase == Connected && Step(c, a).pingTimer.Some?
  {
    var c := AwaitingHello();
    var goodbye := PacketArrives(DisconnectRequest, true);
    ReachableStep(c, goodbye);
    var d := Step(c, goodbye);
    assert d.phase == Closed && d.setup == InBlock(Hello, true, false);
    var e := Step(d, RESUME);
    assert e.phase == Connected && e.pingTimer.Some?;
  }

  lemma CancelledWhileResolving() returns (c: Conn)
    ensures Reachable(c)
    ensures c == New(20.0, true).(setup := InBlock(Resolving, false, true))
  {
    hide Reachable;
    c := New(20.0, true);
    NewIsReachable(20.0, true);
    ReachableStep(c, StartResolve);
    c := Step(c, StartResolve);
    ReachableStep(c, TaskCancelled);
    c := Step(c, TaskCancelled);
  }

  lemma NewIsReachable(interval: real, onStop: bool)
    ensures Reachable(New(interval, onStop))
  {
    assert IsRun(New(interval, onStop), []) && RunFrom(New(interval, onStop), []) == New(interval, onStop);
  }

  /** A task that is cancelled while its connection is closed under it leaves with an API error. */
  lemma CancellationIsReplaced()
    ensures exists c :: Reachable(c) && c.setup.InBlock? && c.setup.cancelled &&
              Enabled(c, SetupRaises(Interruption)) &&
              Step(c, SetupRaises(Interruption)).exit == Some(WithApiError(ApiFailure(UnhandledAPIConnectionError)))
  {
    hide Reachable;
    var c := CancelledWhileResolving();
    ReachableStep(c, ForceDisconnect(true));
    var d := Step(c, ForceDisconnect(true));
    assert d.setup == InBlock(Resolving, true, true) && d.fatal == None;
    assert Enabled(d, SetupRaises(Interruption));
    hide Cleanup;
    assert Step(d, SetupRaises(Interruption)).exit == Some(WithApiError(ApiFailure(UnhandledAPIConnectionError)));
  }
}
