/**
 An attempt of the reconnect logic and the setup of the connection that it awaits are modelled apart.  Here
 they are joined: the ways in which the attempt's await can end are exactly the ways in which the setup can
 leave it, and whatever happens to the connection meanwhile, the attempt can follow.
 */
module AttemptOutcome {
  import opened Wrappers
  import C = ConnectionModel
  import Life = ConnectionTheorems
  import R = ReconnectModel

  /** The await of the attempt during which the setup is suspended at `at`. */
  function StageOf(at: C.SetupAwait): R.Stage {
    match at
    case Resolving => R.InResolve
    case Opening => R.InConnect
    case _ => R.InHandshake
  }

  /** The attempt `h` is awaiting the setup of `c`, and both know of the same cancellation and interruption. */
  predicate Awaits(h: R.Holder, c: C.Conn) {
    && R.InClientCall(h) && c.setup.InBlock?
    && h.stage == StageOf(c.setup.at)
    && h.cancelled == c.setup.cancelled
    && h.interrupted == c.setup.interrupted
  }

  /** The setup can raise something so that its caller gets a CancelledError, or an API error. */
  ghost predicate CanLeave(c: C.Conn, withCancelledError: bool)
    requires c.setup.InBlock?
  {
    exists raised :: C.Enabled(c, C.SetupRaises(raised)) && Leaves(c, raised, withCancelledError)
  }

  predicate Leaves(c: C.Conn, raised: C.Raised, withCancelledError: bool)
    requires c.setup.InBlock?
  {
    var exit := C.Step(c, C.SetupRaises(raised)).exit;
    exit.Some? && exit.value.WithCancelledError? == withCancelledError
  }

  lemma LeavesExactly(c: C.Conn, raised: C.Raised, withCancelledError: bool)
    requires c.setup.InBlock?
    ensures Leaves(c, raised, withCancelledError) <==>
              withCancelledError == (raised == C.CancelledError && c.setup.cancelled)
  {
    hide C.Step;
    Life.FailedSetupLeaves(c, raised);
  }

  /**
   While an attempt awaits the setup, it can go on, fail or end by its cancellation exactly when the setup can
   be resumed, leave with an API error, or leave with a CancelledError.
   */
  lemma OutcomesAgree(s: R.State, c: C.Conn, now: real, writeOk: bool)
    requires Awaits(s.holder, c)
    ensures R.Enabled(s, R.AttemptAdvances) <==> C.Enabled(c, C.SetupResumes(now, writeOk))
    ensures R.Enabled(s, R.AttemptFails) <==> CanLeave(c, false)
    ensures R.Enabled(s, R.AttemptCancelled) <==> CanLeave(c, true)
  {
    hide Leaves, C.Step;
    forall raised: C.Raised, withCancelledError: bool
      ensures Leaves(c, raised, withCancelledError) <==>
                withCancelledError == (raised == C.CancelledError && c.setup.cancelled)
    {
      LeavesExactly(c, raised, withCancelledError);
    }
    assert C.Enabled(c, C.SetupRaises(C.CancelledError));
    assert c.setup.cancelled ==> Leaves(c, C.CancelledError, true);
    assert !c.setup.cancelled ==> Leaves(c, C.CancelledError, false);
    assert c.setup.cancelled && c.setup.interrupted ==>
        C.Enabled(c, C.SetupRaises(C.Interruption)) && Leaves(c, C.Interruption, false);
  }

  // What happens to the connection while the attempt waits

  /** The setup coroutine is left alone, except that closing the connection interrupts it. */
  predicate Spares(c: C.Conn, d: C.Conn) {
    && d.setup == (if c.phase != C.Closed && d.phase == C.Closed then C.Interrupt(c.setup) else c.setup)
    && (c.phase == C.Closed ==> d.phase == C.Closed)
  }

  lemma CleanupSpares(c: C.Conn)
    ensures Spares(c, C.Cleanup(c)) && C.Cleanup(c).phase == C.Closed
  {
    hide C.FailReaders;
  }

  lemma ReportFatalSpares(c: C.Conn, f: C.Failure)
    ensures Spares(c, C.ReportFatal(c, f))
  {
    hide C.Cleanup;
    CleanupSpares(C.SetFatalIfUnset(c, f));
  }

  lemma SendSpares(c: C.Conn, writeOk: bool)
    ensures Spares(c, C.Send(c, writeOk))
  {
    hide C.ReportFatal;
    ReportFatalSpares(c, C.SOCKET_CLOSED);
  }

  lemma ProcessPacketSpares(c: C.Conn, p: C.Packet, writeOk: bool)
    ensures Spares(c, C.ProcessPacket(c, p, writeOk))
  {
    hide C.ReportFatal, C.Cleanup, C.Send;
    match p
    case UnknownType =>
    case OtherMessage =>
    case Unparsable => ReportFatalSpares(c, C.PROTOCOL_ERROR);
    case AuthFailure => ReportFatalSpares(C.NotePacket(c), C.INVALID_AUTH);
    case AnsweredRequest => SendSpares(C.NotePacket(c), writeOk);
    case DisconnectRequest =>
      var c1 := C.NotePacket(c).(expectedDisconnect := true);
      CleanupSpares(c1);
      SendSpares(c1, writeOk);
  }

  predicate IsSetupStep(a: C.Action) {
    || a.StartResolve? || a.StartConnection? || a.FinishConnection?
    || a.SetupResumes? || a.SetupRaises? || a.TaskCancelled?
  }

  predicate IsSending(a: C.Action) {
    a.PingTimer? || a.RequestBegins? || a.DisconnectSends? || a.ForceDisconnect?
  }

  lemma SendingStepSpares(c: C.Conn, a: C.Action)
    requires C.Possible(c, a) && IsSending(a)
    ensures Spares(c, C.Step(c, a))
  {
    hide C.ReportFatal, C.Cleanup, C.Send, C.ProcessPacket, C.FailReaders, C.SetupAdvances, C.SetupFails;
    match a
    case PingTimer(now, writeOk) => SendSpares(c, writeOk);
    case RequestBegins(id, writeOk) => SendSpares(c, writeOk);
    case DisconnectSends(writeOk) => SendSpares(c.(expectedDisconnect := true), writeOk);
    case ForceDisconnect(writeOk) =>
      SendSpares(c.(expectedDisconnect := true), writeOk);
      CleanupSpares(C.Send(c.(expectedDisconnect := true), writeOk));
  }

  lemma ClosingStepSpares(c: C.Conn, a: C.Action)
    requires C.Possible(c, a) && !IsSetupStep(a) && Life.ClosingStep(a)
    ensures Spares(c, C.Step(c, a))
  {
    hide C.ReportFatal, C.Cleanup, C.ProcessPacket;
    match a
    case PongTimer => ReportFatalSpares(c, C.PING_FAILED);
    case PacketArrives(p, writeOk) => ProcessPacketSpares(c, p, writeOk);
    case TransportFails(f) => ReportFatalSpares(c, f);
    case DisconnectEnds => CleanupSpares(c);
  }

  lemma OtherStepSpares(c: C.Conn, a: C.Action)
    requires C.Possible(c, a) && !IsSetupStep(a)
    ensures Spares(c, C.Step(c, a))
  {
    hide C.ReportFatal, C.Cleanup, C.Send, C.ProcessPacket, C.SetupAdvances, C.SetupFails, C.SendKeepAlive,
         C.BeginRequest;
    if IsSending(a) {
      SendingStepSpares(c, a);
    } else if Life.ClosingStep(a) {
      ClosingStepSpares(c, a);
    }
  }

  /** The call that the attempt makes next on the connection, and its new await. */
  predicate GoesOn(s: R.State, d: C.Conn)
    requires R.Enabled(s, R.AttemptAdvances)
  {
    var r := R.Step(s, R.AttemptAdvances);
    match s.holder.stage
    case InResolve => d.setup == C.Idle && d.phase == C.HostResolved && Awaits(r.holder, C.Step(d, C.StartConnection))
    case InConnect => d.setup == C.Idle && d.phase == C.SocketOpened && Awaits(r.holder, C.Step(d, C.FinishConnection))
    case _ => d.phase == C.Connected && r.phase == R.Ready && r.slot == R.Live
  }

  lemma HandshakeFollows(s: R.State, c: C.Conn, now: real, writeOk: bool)
    requires Awaits(s.holder, c) && c.setup.at == C.Handshake && c.helper && c.phase != C.Closed
    ensures var d := C.SetupAdvances(c, now, writeOk);
            if writeOk then Awaits(s.holder, d) && d.phase != C.Closed
            else d.setup == C.Idle && d.phase == C.Closed && d.exit.Some? && d.exit.value.WithApiError?
  {
    hide C.SetupFails, C.Cleanup, C.ReportFatal;
    Life.HandshakeOutcome(c, now, writeOk);
  }

  lemma NextAwait(s: R.State, d: C.Conn)
    requires R.Enabled(s, R.AttemptAdvances) && d.setup == C.Idle
    requires s.holder.stage == R.InResolve ==> d.phase == C.HostResolved
    requires s.holder.stage == R.InConnect ==> d.phase == C.SocketOpened
    requires s.holder.stage == R.InHandshake ==> d.phase == C.Connected
    ensures GoesOn(s, d)
  {
    hide C.SetupAdvances, C.SetupFails, C.Cleanup, C.Send, C.ProcessPacket, C.SendKeepAlive, C.BeginRequest;
  }

  /** A resumption either ends the setup coroutine, and the attempt goes on, or stays within its await. */
  predicate Resumes(s: R.State, c: C.Conn, d: C.Conn)
    requires R.Enabled(s, R.AttemptAdvances)
  {
    if d.setup == C.Idle then d.phase != C.Closed && GoesOn(s, d) else Awaits(s.holder, d) && d.phase == c.phase
  }

  lemma ResolvingResumes(s: R.State, c: C.Conn, now: real, writeOk: bool)
    requires Awaits(s.holder, c) && c.setup.at == C.Resolving && R.Enabled(s, R.AttemptAdvances)
    ensures Resumes(s, c, C.SetupAdvances(c, now, writeOk))
  {
    hide C.Step, GoesOn;
    NextAwait(s, C.SetupAdvances(c, now, writeOk));
  }

  lemma OpeningResumes(s: R.State, c: C.Conn, now: real, writeOk: bool)
    requires Awaits(s.holder, c) && c.setup.at == C.Opening && R.Enabled(s, R.AttemptAdvances)
    ensures Resumes(s, c, C.SetupAdvances(c, now, writeOk))
  {
    hide C.Step, GoesOn;
    NextAwait(s, C.SetupAdvances(c, now, writeOk));
  }

  lemma HelloResumes(s: R.State, c: C.Conn, now: real, writeOk: bool)
    requires Awaits(s.holder, c) && c.setup.at == C.Hello && R.Enabled(s, R.AttemptAdvances)
    ensures Resumes(s, c, C.SetupAdvances(c, now, writeOk))
  {
    hide C.Step, GoesOn;
    NextAwait(s, C.SetupAdvances(c, now, writeOk));
  }

  lemma InnerAwaitResumes(s: R.State, c: C.Conn, now: real, writeOk: bool)
    requires Awaits(s.holder, c) && R.Enabled(s, R.AttemptAdvances)
    requires c.setup.at == C.ReadingTimezone || c.setup.at == C.CreatingHelper
    ensures Resumes(s, c, C.SetupAdvances(c, now, writeOk))
  {
    hide C.Step, GoesOn;
  }

  lemma PlainResumptionFollows(s: R.State, c: C.Conn, now: real, writeOk: bool)
    requires Awaits(s.holder, c) && c.setup.at != C.Handshake && R.Enabled(s, R.AttemptAdvances)
    ensures Resumes(s, c, C.SetupAdvances(c, now, writeOk))
  {
    hide C.SetupAdvances, C.Step, Resumes;
    match c.setup.at
    case Resolving => ResolvingResumes(s, c, now, writeOk);
    case Opening => OpeningResumes(s, c, now, writeOk);
    case Hello => HelloResumes(s, c, now, writeOk);
    case ReadingTimezone => InnerAwaitResumes(s, c, now, writeOk);
    case CreatingHelper => InnerAwaitResumes(s, c, now, writeOk);
  }

  /**
   How an attempt follows a step of the connection that it awaits.  A cancellation of the task, an interruption
   by whatever closes the connection and a setup that is resumed are steps of both; a setup that leaves lets the
   attempt fail, or end if it leaves with CancelledError.
   */
  predicate Follows(s: R.State, c: C.Conn, a: C.Action, d: C.Conn) {
    if a.TaskCancelled? then
      s.holder.Attempt? && Awaits(R.CancelHolder(s.holder, s.holder.id), d)
    else if a.SetupRaises? then
      d.exit.Some? && R.Enabled(s, if d.exit.value.WithApiError? then R.AttemptFails else R.AttemptCancelled)
    else if a.SetupResumes? && d.setup == C.Idle then
      if d.phase == C.Closed then
        d.exit.Some? && d.exit.value.WithApiError? && R.Enabled(s, R.AttemptFails)
      else
        R.Enabled(s, R.AttemptAdvances) && GoesOn(s, d)
    else if c.phase != C.Closed && d.phase == C.Closed then
      R.Enabled(s, R.ConnectionInterrupted) && Awaits(R.Step(s, R.ConnectionInterrupted).holder, d)
    else
      Awaits(s.holder, d)
  }

  lemma CancellationFollows(s: R.State, c: C.Conn)
    requires Awaits(s.holder, c)
    ensures Follows(s, c, C.TaskCancelled, C.Step(c, C.TaskCancelled))
  {
  }

  lemma RaisingFollows(s: R.State, c: C.Conn, raised: C.Raised)
    requires Awaits(s.holder, c) && C.Enabled(c, C.SetupRaises(raised))
    ensures Follows(s, c, C.SetupRaises(raised), C.Step(c, C.SetupRaises(raised)))
  {
    LeavesExactly(c, raised, true);
    LeavesExactly(c, raised, false);
    hide C.Step, GoesOn;
  }

  lemma ResumptionFollows(s: R.State, c: C.Conn, now: real, writeOk: bool)
    requires Life.Inv(c) && Awaits(s.holder, c) && C.Enabled(c, C.SetupResumes(now, writeOk))
    ensures Follows(s, c, C.SetupResumes(now, writeOk), C.SetupAdvances(c, now, writeOk))
  {
    hide Life.PendingIsRead, Life.Released, C.SetupAdvances, GoesOn;
    if c.setup.at == C.Handshake {
      HandshakeFollows(s, c, now, writeOk);
    } else {
      PlainResumptionFollows(s, c, now, writeOk);
    }
  }

  lemma SparingStepFollows(s: R.State, c: C.Conn, a: C.Action)
    requires Life.Inv(c) && Awaits(s.holder, c) && C.Enabled(c, a) && !IsSetupStep(a)
    ensures Follows(s, c, a, C.Step(c, a))
  {
    OtherStepSpares(c, a);
    hide C.Step, GoesOn, Life.PendingIsRead, Life.Released;
  }

  /** Whatever step the connection takes, the attempt that awaits it follows. */
  lemma AttemptFollowsSetup(s: R.State, c: C.Conn, a: C.Action)
    requires Life.Reachable(c) && Awaits(s.holder, c) && C.Enabled(c, a)
    ensures Follows(s, c, a, C.Step(c, a))
  {
    Life.ReachableKeeps(c);
    hide Life.Reachable, Life.Inv, Follows, C.SetupAdvances, C.SetupFails;
    if a.TaskCancelled? {
      CancellationFollows(s, c);
    } else if a.SetupRaises? {
      RaisingFollows(s, c, a.raised);
    } else if a.SetupResumes? {
      ResumptionFollows(s, c, a.now, a.writeOk);
    } else {
      SparingStepFollows(s, c, a);
    }
  }
}
