/**
 `ReconnectLogic` in the form of its source: an object whose methods update fields in place.
 The event loop's view of timers, the lock and its waiters sits beside the object's own fields.
 The methods compute the steps of `ReconnectModel`, so that the object's life is a run of the model and
 what holds of every run holds of the object's fields.
 */
module ReconnectObject {
  import opened Wrappers
  import opened ReconnectModel
  import opened ReconnectProofs
  import opened ReconnectSlot
  import opened ReconnectTheorems

  class ReconnectLogic {
    var connectionState: Phase
    var acceptZeroconfRecords: bool
    var isStopped: bool
    var zcListening: bool
    var tries: nat
    var connectTask: Option<nat>
    var connectTimer: Option<nat>
    // event loop and lock
    var armed: map<nat, real>
    var lockHolder: Holder
    var lockQueue: seq<Waiter>
    var eager: Option<EagerCall>
    var nextId: nat
    // the client's `_connection`
    var connection: Slot
    ghost var history: History

    ghost function View(): State
      reads this
    {
      State(connectionState, acceptZeroconfRecords, isStopped, zcListening, tries, connectTask, connectTimer,
            armed, lockHolder, lockQueue, eager, connection, nextId, history)
    }

    constructor ()
      ensures View() == INITIAL
    {
      connectionState := Disconnected;
      acceptZeroconfRecords, isStopped, zcListening := true, true, false;
      tries, connectTask, connectTimer := 0, None, None;
      armed, lockHolder, lockQueue, eager, nextId := map[], Free, [], None, 0;
      connection := Empty;
      history := History(0, 0, false, []);
    }

    method SetConnectionState(state: Phase)
      modifies this
      ensures View() == WritePhase(old(View()), state)
    {
      connectionState := state;
      history := history.(writes := history.writes + [state]);
    }

    method CancelConnectTimer()
      modifies this
      ensures View() == CancelTimer(old(View()))
    {
      if connectTimer.Some? {
        armed := armed - {connectTimer.value};
        connectTimer := None;
      }
    }

    /** `Task.cancel`: the task gets a CancelledError at its next resumption. */
    method CancelConnectTask()
      modifies this
      ensures View() == CancelTask(old(View()))
    {
      hide CancelWaiters;
      if connectTask.Some? {
        var t := connectTask.value;
        if lockHolder.Attempt? && lockHolder.id == t {
          lockHolder := lockHolder.(cancelled := true);
        }
        CancelQueued(t);
        connectTask := None;
      }
    }

    method CancelQueued(t: nat)
      modifies this`lockQueue
      ensures lockQueue == CancelWaiters(old(lockQueue), t)
    {
      var i := 0;
      while i < |lockQueue|
        invariant i <= |lockQueue| == |old(lockQueue)|
        invariant forall k | 0 <= k < |lockQueue| ::
                    lockQueue[k] == if k < i then CancelWaiter(old(lockQueue)[k], t) else old(lockQueue)[k]
      {
        lockQueue := lockQueue[i := CancelWaiter(lockQueue[i], t)];
        i := i + 1;
      }
    }

    method TaskIsUnfinished(t: nat) returns (unfinished: bool)
      ensures unfinished == Unfinished(View(), t)
    {
      if lockHolder.Attempt? && lockHolder.id == t {
        return true;
      }
      for i := 0 to |lockQueue|
        invariant forall k | 0 <= k < i :: !(lockQueue[k].ConnectWaiter? && lockQueue[k].id == t)
      {
        if lockQueue[i].ConnectWaiter? && lockQueue[i].id == t {
          return true;
        }
      }
      return false;
    }

    method LockIsAvailable(env: Env) returns (available: bool)
      ensures available == CanTakeLock(View(), env)
    {
      if lockHolder != Free {
        return false;
      }
      for i := 0 to |lockQueue|
        invariant AllCancelled(lockQueue[..i])
      {
        if !IsCancelled(lockQueue[i]) {
          return false;
        }
        assert lockQueue[..i + 1] == lockQueue[..i] + [lockQueue[i]];
      }
      assert lockQueue[..|lockQueue|] == lockQueue;
      return env.jump || lockQueue == [];
    }

    /** `_handle_connection_failure` up to `await self._on_connect_error_cb(err)`. */
    method HandleConnectionFailure(t: nat, cancelled: bool)
      modifies this
      ensures View() == FailAttempt(old(View()), t, cancelled)
    {
      SetConnectionState(Disconnected);
      acceptZeroconfRecords := true;
      lockHolder := Attempt(t, cancelled, InErrorCb, false);
    }

    /** `_connect_once_or_reschedule` and the start of `_try_connect`, once the lock is taken. */
    method ConnectOnceOrReschedule(t: nat, env: Env)
      modifies this
      ensures View() == EnterAttempt(old(View()), t, env)
    {
      hide TryConnect;
      if connectionState != Disconnected || isStopped {
        lockHolder := Free;
        return;
      }
      history := history.(attempts := history.attempts + 1);
      if !zcListening && env.zcUp {
        zcListening := true;
      }
      StartAttempt(t);
    }

    /** `_try_connect` up to its first await. */
    method StartAttempt(t: nat)
      modifies this
      ensures View() == TryConnect(old(View()), t)
    {
      hide FailAttempt, WritePhase;
      SetConnectionState(Resolving);
      if connection != Empty {
        history := history.(refused := history.refused + 1);
        HandleConnectionFailure(t, false);
      } else {
        connection := Attempting;
        lockHolder := Attempt(t, false, InResolve, false);
      }
    }

    /** `create_eager_task(self._connect_once_or_reschedule())` and the assignment of its result. */
    method CreateConnectTask(env: Env, fromMdns: bool)
      modifies this
      ensures View() == SpawnConnect(old(View()), env, fromMdns)
    {
      hide EnterAttempt, AfterSpawn, CanTakeLock;
      var t := nextId;
      nextId := nextId + 1;
      var available := LockIsAvailable(env);
      if available {
        RunEagerly(t, env, fromMdns);
      } else {
        lockQueue := lockQueue + [ConnectWaiter(t, false)];
        EagerTaskSuspended(t, fromMdns);
      }
    }

    method RunEagerly(t: nat, env: Env, fromMdns: bool)
      modifies this
      ensures View() == EnterAttempt(old(View()), t, env).(eager := Some(EagerCall(t, fromMdns)))
    {
      ConnectOnceOrReschedule(t, env);
      eager := Some(EagerCall(t, fromMdns));
    }

    method EagerTaskSuspended(t: nat, fromMdns: bool)
      modifies this
      ensures View() == AfterSpawn(old(View()), t, fromMdns)
    {
      connectTask := Some(t);
      eager := None;
      if fromMdns {
        acceptZeroconfRecords := false;
      }
    }

    method CallConnectOnce(env: Env, fromMdns: bool)
      modifies this
      ensures View() == ReconnectModel.CallConnectOnce(old(View()), env, fromMdns)
    {
      if connectTask.Some? {
        var unfinished := TaskIsUnfinished(connectTask.value);
        if unfinished {
          if connectionState != Connecting || env.connected {
            if fromMdns {
              acceptZeroconfRecords := false;
            }
            return;
          }
          CancelConnectTask();
          SetConnectionState(Disconnected);
        }
      }
      CreateConnectTask(env, fromMdns);
    }

    method ScheduleConnect(delay: real, env: Env, fromMdns: bool)
      modifies this
      ensures View() == ReconnectModel.ScheduleConnect(old(View()), delay, env, fromMdns)
    {
      CancelConnectTimer();
      if delay == 0.0 {
        CallConnectOnce(env, fromMdns);
        return;
      }
      armed := armed[nextId := delay];
      connectTimer := Some(nextId);
      nextId := nextId + 1;
    }

    /** `start` inside its critical section, up to the release of the lock. */
    method StartLocked(env: Env)
      modifies this
      ensures View() == EnterStart(old(View()), env)
    {
      hide ReconnectModel.ScheduleConnect, PrepareStart;
      isStopped := false;
      if connectionState != Disconnected {
        return;
      }
      ClearGates();
      ScheduleAndRelease(0.0, env);
    }

    method ClearGates()
      modifies this
      ensures View() == PrepareStart(old(View()))
    {
      history := history.(restartedLive := history.restartedLive || connection == Live);
      lockHolder := Starting;
      tries := 0;
      acceptZeroconfRecords := true;
    }

    /** The last statement of a critical section that schedules a connect. */
    method ScheduleAndRelease(delay: real, env: Env)
      modifies this
      ensures View() == ReconnectModel.ScheduleConnect(old(View()), delay, env, false).(holder := Free)
    {
      ScheduleConnect(delay, env, false);
      lockHolder := Free;
    }

    /** `stop` inside its critical section. */
    method StopLocked()
      modifies this
      ensures View() == EnterStop(old(View()))
    {
      isStopped := true;
      CancelConnectTimer();
      CancelConnectTask();
      zcListening := false;
      SetConnectionState(Disconnected);
    }

    /** `_on_disconnect` from the lock to its callback. */
    method OnDisconnectLocked(expected: bool)
      modifies this
      ensures View() == EnterDisconnect(old(View()), expected)
    {
      lockHolder := Disconnecting(expected);
      SetConnectionState(Disconnected);
      acceptZeroconfRecords := true;
    }

    /** `_on_disconnect` after its callback. */
    method OnDisconnectFinished(env: Env)
      requires lockHolder.Disconnecting?
      modifies this
      ensures View() == LeaveDisconnect(old(View()), env)
    {
      var wait := if lockHolder.expected then EXPECTED_DISCONNECT_COOLDOWN else 0.0;
      lockHolder := Free;
      if !isStopped {
        ScheduleConnect(wait, env, false);
      }
    }

    /** The rest of a failed attempt after the error callback: back off and release the lock. */
    method RescheduleAfterFailure(kind: ErrorKind, env: Env)
      modifies this
      ensures View() == LeaveFailedAttempt(old(View()), kind, env)
    {
      hide WaitTime, ReconnectModel.ScheduleConnect;
      match kind {
        case AuthError => tries := MAXIMUM_BACKOFF_TRIES;
        case PlaintextFallback => tries := 0;
        case OtherError => tries := tries + 1;
      }
      ScheduleAndRelease(WaitTime(tries) as real, env);
    }

    /** `stop` up to its wait for the lock. */
    method StopBeforeLock()
      modifies this
      ensures View() == StopPrologue(old(View()))
    {
      if connectionState == Disconnected || connectionState == Connecting || connectionState == Resolving {
        CancelConnectTimer();
        CancelConnectTask();
      }
    }

    method RunWithLock(w: Waiter, env: Env)
      modifies this
      ensures View() == Granted(old(View()), w, env)
    {
      hide EnterAttempt, EnterStart, EnterStop, EnterDisconnect;
      match w {
        case ConnectWaiter(t, _) => ConnectOnceOrReschedule(t, env);
        case StartWaiter => StartLocked(env);
        case StopWaiter => StopLocked();
        case DisconnectWaiter(expected) => OnDisconnectLocked(expected);
      }
    }

    method AcquireLock(w: Waiter, env: Env)
      modifies this
      ensures View() == Acquire(old(View()), w, env)
    {
      var available := LockIsAvailable(env);
      if available {
        RunWithLock(w, env);
      } else {
        lockQueue := lockQueue + [w];
      }
    }

    /** `_try_connect` from one successful await to the next. */
    method AttemptAdvanced()
      requires lockHolder.Attempt?
      modifies this
      ensures View() == Advance(old(View()))
    {
      match lockHolder.stage {
        case InResolve =>
          SetConnectionState(Connecting);
          lockHolder := lockHolder.(stage := InConnect);
        case InConnect =>
          zcListening := false;
          SetConnectionState(Handshaking);
          lockHolder := lockHolder.(stage := InHandshake);
        case InHandshake =>
          connection := Live;
          tries := 0;
          SetConnectionState(Ready);
          lockHolder := lockHolder.(stage := InReadyCb);
        case _ =>
      }
    }

    /** One turn of the event loop. */
    method Perform(a: Action)
      requires Enabled(View(), a)
      modifies this
      ensures View() == Step(old(View()), a)
    {
      hide ReconnectModel.CallConnectOnce, ReconnectModel.ScheduleConnect, Acquire, Granted, Advance,
           LeaveFailedAttempt, LeaveDisconnect, AfterSpawn, StopPrologue;
      match a {
        case TimerFires(timer, env) =>
          armed := armed - {timer};
          CallConnectOnce(env, false);
        case MdnsRecord(env) =>
          zcListening := false;
          ScheduleConnect(0.0, env, true);
        case CallStart(env) => AcquireLock(StartWaiter, env);
        case CallStop(env) =>
          StopBeforeLock();
          AcquireLock(StopWaiter, env);
        case SessionDrops(expected, env) =>
          connection := Empty;
          AcquireLock(DisconnectWaiter(expected), env);
        case LockGranted(env) =>
          var w := lockQueue[0];
          lockQueue := lockQueue[1..];
          RunWithLock(w, env);
        case CancelledWaiterLeaves(i) => lockQueue := lockQueue[..i] + lockQueue[i + 1..];
        case ConnectionInterrupted => lockHolder := lockHolder.(interrupted := true);
        case AttemptAdvances => AttemptAdvanced();
        case AttemptFails =>
          connection := Empty;
          HandleConnectionFailure(lockHolder.id, lockHolder.cancelled);
        case AttemptCancelled =>
          if lockHolder.stage != InErrorCb && lockHolder.stage != InReadyCb {
            connection := Empty;
          }
          lockHolder := Free;
        case ErrorCbReturns(kind, env) => RescheduleAfterFailure(kind, env);
        case ReadyCbReturns => lockHolder := Free;
        case DisconnectCbReturns(env) => OnDisconnectFinished(env);
        case EagerYields => EagerTaskSuspended(eager.value.id, eager.value.fromMdns);
      }
    }
  }

  /** The event loop that runs the logic; its history makes the object's life a run of the model. */
  class EventLoop {
    const logic: ReconnectLogic
    ghost var trace: seq<Action>   // the turns so far

    /** The turns so far are a run of the model, and it has led here. */
    ghost predicate Valid()
      reads this, logic
    {
      IsRun(INITIAL, trace) && RunFrom(INITIAL, trace) == logic.View()
    }

    constructor ()
      ensures Valid() && trace == [] && fresh(logic)
    {
      logic := new ReconnectLogic();
      trace := [];
    }

    /** One turn: the object takes the step of the model. */
    method Turn(a: Action)
      requires Valid() && Enabled(logic.View(), a)
      modifies this, logic
      ensures Valid() && trace == old(trace) + [a] && logic.View() == Step(old(logic.View()), a)
    {
      hide Step, Enabled;
      RunExtends(INITIAL, trace, a);
      logic.Perform(a);
      trace := trace + [a];
    }

    /** So every invariant of the model holds of the object's fields. */
    lemma Invariants()
      requires Valid()
      ensures Reachable(logic.View()) && Inv(logic.View()) && SlotInv(logic.View())
    {
      ReachableKeeps(logic.View());
    }

    /** The object is never left with nothing scheduled. */
    lemma NeverIdle()
      requires Valid() && !logic.isStopped && logic.connectionState == Disconnected
      requires StopWaiter !in logic.lockQueue
      ensures
        || logic.armed != map[]
        || (logic.lockHolder.Attempt? && !logic.lockHolder.cancelled)
        || logic.lockHolder.Disconnecting?
        || exists w :: w in logic.lockQueue && (IsLiveConnect(w) || w.DisconnectWaiter?)
    {
      assert Reachable(logic.View());
      hide Reachable;
      NoLostReconnect(logic.View());
      var q := logic.lockQueue;
      if i :| 0 <= i < |q| && (IsLiveConnect(q[i]) || q[i].DisconnectWaiter?) {
        assert q[i] in q;
      }
    }

    /** While the object is stopped, nothing is armed and no attempt holds the lock or the client. */
    lemma StoppedIsQuiet()
      requires Valid() && logic.isStopped
      ensures logic.armed == map[] && logic.connectionState == Disconnected
      ensures logic.connection != Attempting && !logic.lockHolder.Attempt?
    {
      Invariants();
    }
  }
}
