/**
 `APIConnection` in the form of its source: an object whose methods update fields in place.
 The methods compute the steps of `ConnectionModel`, so that the object's life is a run of the model and
 what holds of every run holds of the object's fields.
 */
module ConnectionObject {
  import opened Wrappers
  import opened ConnectionModel
  import opened ConnectionTheorems

  class APIConnection {
    const keepAliveInterval: real
    var connectionState: Phase
    var isConnected: bool
    var handshakeComplete: bool
    var fatalException: Option<Failure>
    var expectedDisconnect: bool
    var onStop: bool
    var readExceptionFutures: set<nat>
    var frameHelper: bool
    var socket: bool
    var pingTimer: Option<real>
    var pongTimer: Option<real>
    var sendPendingPing: bool
    // the futures and the setup coroutine, as the event loop sees them
    var futures: map<nat, FutureState>
    var setup: Setup
    ghost var exit: Option<Exit>
    ghost var stopCalls: seq<bool>

    ghost function View(): Conn
      reads this
    {
      Conn(keepAliveInterval, connectionState, isConnected, handshakeComplete, fatalException, expectedDisconnect,
           onStop, stopCalls, futures, readExceptionFutures, setup, exit, frameHelper, socket, pingTimer, pongTimer,
           sendPendingPing)
    }

    constructor (interval: real, onStop: bool)
      ensures View() == New(interval, onStop)
    {
      keepAliveInterval := interval;
      connectionState, isConnected, handshakeComplete := Initialized, false, false;
      fatalException, expectedDisconnect := None, false;
      this.onStop, stopCalls := onStop, [];
      readExceptionFutures, futures, setup, exit := {}, map[], Idle, None;
      frameHelper, socket := false, false;
      pingTimer, pongTimer, sendPendingPing := None, None, false;
    }

    method SetConnectionState(state: Phase)
      modifies this
      ensures View() == SetPhase(old(View()), state)
    {
      connectionState := state;
      isConnected := state == Connected;
      handshakeComplete := state == HandshakeComplete || state == Connected;
    }

    /** The loop of `_cleanup` over the read futures; the iteration order is arbitrary. */
    method FailReadFutures(error: ReadError)
      modifies this`futures
      ensures futures == FailReaders(old(futures), readExceptionFutures, error)
    {
      var todo := readExceptionFutures;
      while todo != {}
        invariant todo <= readExceptionFutures
        invariant futures == FailReaders(old(futures), readExceptionFutures - todo, error)
      {
        var id :| id in todo;
        if id in futures && futures[id] == Pending {
          futures := futures[id := Failed(error)];
        }
        todo := todo - {id};
      }
      assert readExceptionFutures - {} == readExceptionFutures;
    }

    method Cleanup()
      modifies this
      ensures View() == ConnectionModel.Cleanup(old(View()))
      ensures old(connectionState) != Closed && PendingIsRead(old(futures), old(readExceptionFutures)) ==>
                ClosedWith(old(futures), futures, old(fatalException))
    {
      hide ReaderError, PendingIsRead, ClosedWith;
      if connectionState == Closed {
        return;
      }
      var wasConnected := isConnected;
      SetConnectionState(Closed);
      FailReadFutures(ReaderError(fatalException));
      ReadersTold(old(View()));
      ReleaseResources();
      if onStop && wasConnected {
        onStop := false;
        stopCalls := stopCalls + [expectedDisconnect];
      }
    }

    /** The part of `_cleanup` that empties the fields. */
    method ReleaseResources()
      modifies this
      ensures View() == old(View()).(readers := {}, setup := Interrupt(old(setup)), helper := false, socket := false,
                                     pongTimer := None, pingTimer := None)
    {
      readExceptionFutures := {};
      if setup.InBlock? {
        setup := setup.(interrupted := true);
      }
      frameHelper := false;
      socket := false;
      pongTimer := None;
      pingTimer := None;
    }

    method SetFatalExceptionIfUnset(err: Failure)
      modifies this
      ensures View() == SetFatalIfUnset(old(View()), err)
    {
      if fatalException == None {
        fatalException := Some(err);
      }
    }

    method ReportFatalError(err: Failure)
      modifies this
      ensures View() == ReportFatal(old(View()), err)
    {
      SetFatalExceptionIfUnset(err);
      Cleanup();
    }

    /** Returns false where the source raises. */
    method SendMessages(writeOk: bool) returns (sent: bool)
      modifies this
      ensures View() == Send(old(View()), writeOk)
      ensures sent <==> CanSend(old(View())) && writeOk
    {
      if !handshakeComplete || !frameHelper {
        return false;
      }
      if !writeOk {
        ReportFatalError(SOCKET_CLOSED);
        return false;
      }
      return true;
    }

    method AsyncScheduleKeepAlive(now: real)
      modifies this
      ensures View() == ScheduleKeepAlive(old(View()), now)
    {
      sendPendingPing := true;
      pingTimer := Some(now + keepAliveInterval);
    }

    method AsyncSendKeepAlive(now: real, writeOk: bool)
      modifies this
      ensures View() == SendKeepAlive(old(View()), now, writeOk)
    {
      if sendPendingPing {
        var sent := SendMessages(writeOk);
        if !sent {
          pingTimer := None; // it has fired and nothing re-arms it
          return;
        }
        if pongTimer == None {
          pongTimer := Some(now + keepAliveInterval * KEEP_ALIVE_TIMEOUT_RATIO);
        }
      }
      AsyncScheduleKeepAlive(now);
    }

    method ProcessPacket(packet: Packet, writeOk: bool)
      modifies this
      ensures View() == ConnectionModel.ProcessPacket(old(View()), packet, writeOk)
    {
      hide ReportFatal, ConnectionModel.Cleanup;
      if packet == UnknownType {
        return;
      }
      if packet == Unparsable {
        ReportFatalError(PROTOCOL_ERROR);
        return;
      }
      PeerIsAlive();
      match packet {
        case DisconnectRequest =>
          expectedDisconnect := true;
          var sent := SendMessages(writeOk);
          if sent {
            Cleanup();
          }
        case AnsweredRequest =>
          var _ := SendMessages(writeOk);
        case AuthFailure => ReportFatalError(INVALID_AUTH);
        case _ =>
      }
    }

    /** Any valid packet cancels the pong timer and the pending ping. */
    method PeerIsAlive()
      modifies this
      ensures View() == NotePacket(old(View()))
    {
      if pongTimer != None {
        pongTimer := None;
      }
      if sendPendingPing {
        sendPendingPing := false;
      }
    }

    /** `_raise_fatal_connection_exception`; the result tells which exception the caller gets. */
    method RaiseFatalConnectionException(raised: Raised) returns (leaves: Exit)
      requires setup.InBlock?
      modifies this
      ensures View() == SetupFails(old(View()), raised) && Some(leaves) == exit
    {
      hide ReportFatal, Wrap;
      var err := Wrap(fatalException, raised);
      var cancelling := setup.cancelled;
      ReportFatalError(err);
      setup := Idle;
      leaves := if raised == CancelledError && cancelling then WithCancelledError else WithApiError(err);
      exit := Some(leaves);
    }

    /** The setup coroutine from one successful await to the next. */
    method SetupResumed(now: real, writeOk: bool)
      requires setup.InBlock?
      modifies this
      ensures View() == SetupAdvances(old(View()), now, writeOk)
    {
      hide SetupFails, Send;
      match setup.at {
        case Resolving =>
          setup := Idle;
          SetConnectionState(HostResolved);
        case Opening =>
          socket := true;
          setup := Idle;
          SetConnectionState(SocketOpened);
        case ReadingTimezone => setup := setup.(at := CreatingHelper);
        case CreatingHelper =>
          frameHelper := true;
          setup := setup.(at := Handshake);
        case Handshake => HandshakeReady(writeOk);
        case Hello =>
          AsyncScheduleKeepAlive(now);
          setup := Idle;
          SetConnectionState(Connected);
      }
    }

    method HandshakeReady(writeOk: bool)
      requires setup.InBlock? && setup.at == Handshake
      modifies this
      ensures View() == SetupAdvances(old(View()), 0.0, writeOk)
    {
      SetConnectionState(HandshakeComplete);
      setup := setup.(at := Hello);
      ghost var ready := View();
      var error := if frameHelper then SocketClosedAPIError else ConnectionNotEstablishedAPIError;
      var sent := SendMessages(writeOk);
      if !sent {
        SendKeepsSetup(ready, writeOk);
        var _ := RaiseFatalConnectionException(ApiError(error));
      }
    }

    method ForceDisconnected(writeOk: bool)
      modifies this
      ensures View() == ConnectionModel.Cleanup(Send(old(View()).(expectedDisconnect := true), writeOk))
    {
      expectedDisconnect := true;
      var _ := SendMessages(writeOk);
      Cleanup();
    }

    /** `send_messages_await_response_complex` up to its await. */
    method RequestBegun(id: nat, writeOk: bool)
      requires id !in futures
      modifies this
      ensures View() == BeginRequest(old(View()), id, writeOk)
    {
      var sent := SendMessages(writeOk);
      if sent {
        futures := futures[id := Pending];
        readExceptionFutures := readExceptionFutures + {id};
      }
    }

    /** A response, a timeout or the caller's cancellation settles the future of a request. */
    method FutureSettled(id: nat, outcome: FutureState)
      requires id in futures
      modifies this`futures
      ensures View() == SettleRequest(old(View()), id, outcome)
    {
      if futures[id] == Pending {
        futures := futures[id := outcome];
      }
    }

    /** The `finally` block of a request. */
    method RequestEnded(id: nat)
      modifies this`readExceptionFutures
      ensures View() == old(View()).(readers := old(readExceptionFutures) - {id})
    {
      readExceptionFutures := readExceptionFutures - {id};
    }

    method AsyncPongNotReceived()
      modifies this
      ensures View() == ReportFatal(old(View()), PING_FAILED)
    {
      ReportFatalError(PING_FAILED);
    }

    /** A setup coroutine up to its first await, if the connection is where it has to be. */
    method SetupStarted(needed: Phase, at: SetupAwait)
      modifies this`setup
      ensures View() == if old(connectionState) == needed then old(View()).(setup := InBlock(at, false, false))
                        else old(View())
    {
      if connectionState == needed {
        setup := InBlock(at, false, false);
      }
    }

    /** `Task.cancel` on the task that runs the setup. */
    method SetupTaskCancelled()
      requires setup.InBlock?
      modifies this`setup
      ensures View() == old(View()).(setup := old(setup).(cancelled := true))
    {
      setup := setup.(cancelled := true);
    }

    /** The steps of the requests. */
    method RequestStep(a: Action)
      requires Possible(View(), a)
      requires a.RequestBegins? || a.ResponseArrives? || a.RequestTimesOut? || a.RequestCancelled? || a.RequestEnds?
      modifies this
      ensures View() == Step(old(View()), a)
    {
      hide BeginRequest, SettleRequest;
      match a {
        case RequestBegins(id, writeOk) => RequestBegun(id, writeOk);
        case ResponseArrives(id) => FutureSettled(id, Resolved);
        case RequestTimesOut(id) => FutureSettled(id, Failed(TimedOut));
        case RequestCancelled(id) => FutureSettled(id, Cancelled);
        case RequestEnds(id) => RequestEnded(id);
      }
    }

    /** The steps of the setup coroutines. */
    method SetupStep(a: Action)
      requires Possible(View(), a)
      requires
        || a.StartResolve? || a.StartConnection? || a.FinishConnection?
        || a.SetupResumes? || a.SetupRaises? || a.TaskCancelled?
      modifies this
      ensures View() == Step(old(View()), a)
    {
      hide SetupAdvances, SetupFails;
      match a {
        case StartResolve => SetupStarted(Initialized, Resolving);
        case StartConnection => SetupStarted(HostResolved, Opening);
        case FinishConnection => SetupStarted(SocketOpened, ReadingTimezone);
        case SetupResumes(now, writeOk) => SetupResumed(now, writeOk);
        case SetupRaises(raised) =>
          var _ := RaiseFatalConnectionException(raised);
        case TaskCancelled => SetupTaskCancelled();
      }
    }

    /** The steps of `disconnect` and `force_disconnect`. */
    method DisconnectStep(a: Action)
      requires a.DisconnectGivesUpWaiting? || a.DisconnectSends? || a.DisconnectEnds? || a.ForceDisconnect?
      modifies this
      ensures View() == Step(old(View()), a)
    {
      hide Send, ConnectionModel.Cleanup, SetFatalIfUnset;
      match a {
        case DisconnectGivesUpWaiting => SetFatalExceptionIfUnset(DISCONNECT_TIMEOUT);
        case DisconnectSends(writeOk) =>
          expectedDisconnect := true;
          var _ := SendMessages(writeOk);
        case DisconnectEnds => Cleanup();
        case ForceDisconnect(writeOk) => ForceDisconnected(writeOk);
      }
    }

    method Perform(a: Action)
      requires Possible(View(), a)
      modifies this
      ensures View() == Step(old(View()), a)
    {
      hide SendKeepAlive, ReportFatal, ConnectionModel.ProcessPacket, Send, ConnectionModel.Cleanup, SetFatalIfUnset,
           BeginRequest, SettleRequest, SetupAdvances, SetupFails;
      match a {
        case PingTimer(now, writeOk) => AsyncSendKeepAlive(now, writeOk);
        case PongTimer => AsyncPongNotReceived();
        case PacketArrives(packet, writeOk) => ProcessPacket(packet, writeOk);
        case TransportFails(failure) => ReportFatalError(failure);
        case DisconnectGivesUpWaiting => DisconnectStep(a);
        case DisconnectSends(_) => DisconnectStep(a);
        case DisconnectEnds => DisconnectStep(a);
        case ForceDisconnect(_) => DisconnectStep(a);
        case RequestBegins(_, _) => RequestStep(a);
        case ResponseArrives(_) => RequestStep(a);
        case RequestTimesOut(_) => RequestStep(a);
        case RequestCancelled(_) => RequestStep(a);
        case RequestEnds(_) => RequestStep(a);
        case _ => SetupStep(a);
      }
    }
  }

  /** The event loop that runs a connection; its history makes the object's life a run of the model. */
  class ConnectionLoop {
    const connection: APIConnection
    ghost const origin: Conn
    ghost var trace: seq<Action>   // the turns so far

    /** The turns so far are a run of the model from a new connection, and it has led here. */
    ghost predicate Valid()
      reads this, connection
    {
      && origin == New(origin.interval, origin.onStop)
      && IsRun(origin, trace) && RunFrom(origin, trace) == connection.View()
    }

    constructor (interval: real, onStop: bool)
      ensures Valid() && trace == [] && fresh(connection) && connection.View() == New(interval, onStop)
    {
      connection := new APIConnection(interval, onStop);
      origin, trace := New(interval, onStop), [];
    }

    /** One turn: the object takes the step of the model. */
    method Turn(a: Action)
      requires Valid() && Enabled(connection.View(), a)
      modifies this, connection
      ensures Valid() && trace == old(trace) + [a] && connection.View() == Step(old(connection.View()), a)
    {
      hide Step, Enabled, New;
      PossibleIfEnabled(connection.View(), a);
      RunExtends(origin, trace, a);
      connection.Perform(a);
      trace := trace + [a];
    }

    /** So every invariant of the model holds of the object's fields. */
    lemma Invariants()
      requires Valid()
      ensures Reachable(connection.View()) && Inv(connection.View())
    {
      ReachableKeeps(connection.View());
    }

    /** A closed object holds nothing, and no request waits on it. */
    lemma ClosedHoldsNothing()
      requires Valid() && connection.connectionState == Closed
      ensures !connection.socket && !connection.frameHelper
      ensures connection.pingTimer == None && connection.pongTimer == None
      ensures forall id | id in connection.futures :: connection.futures[id] != Pending
    {
      Invariants();
      ClosedIsReleased(connection.View());
    }

    /** A connected object is watched: it has its socket and helper, and a ping timer is armed. */
    lemma ConnectedIsAlive()
      requires Valid() && connection.connectionState == Connected
      ensures connection.isConnected && connection.handshakeComplete
      ensures connection.socket && connection.frameHelper && connection.pingTimer.Some?
    {
      Invariants();
      ConnectedIsWatched(connection.View());
    }
  }

  lemma PossibleIfEnabled(c: Conn, a: Action)
    requires Enabled(c, a)
    ensures Possible(c, a)
  {
  }
}
