/**
 Ownership of the client's `_connection`: unless `start` re-enabled the logic over a live session,
 no attempt is ever refused with "Already connected".
 */
module ReconnectSlot {
  import opened Wrappers
  import opened ReconnectModel
  import opened ReconnectProofs

  ghost predicate OneDisconnect(q: seq<Waiter>) {
    forall i, j | 0 <= i < j < |q| :: !(q[i].DisconnectWaiter? && q[j].DisconnectWaiter?)
  }

  /** No live connect task is ahead of a disconnect that waits for the lock. */
  ghost predicate DisconnectFirst(q: seq<Waiter>) {
    forall i, j | 0 <= i < j < |q| :: !(IsLiveConnect(q[i]) && q[j].DisconnectWaiter?)
  }

  ghost predicate SlotOwned(s: State) {
    && (s.slot == Live ==> s.phase == Ready || s.stopped)
    && (s.holder.Disconnecting? ==> s.slot == Empty)
    && OneDisconnect(s.queue)
    && (HasDisconnect(s.queue) ==>
          && s.slot == Empty
          && (s.phase == Ready || s.stopped || (DisconnectFirst(s.queue) && !s.holder.Attempt?)))
    && s.history.refused == 0
  }

  ghost predicate SlotInv(s: State) {
    !s.history.restartedLive ==> SlotOwned(s)
  }

  lemma AppendedOrder(q: seq<Waiter>, w: Waiter)
    ensures var r := q + [w];
            && (OneDisconnect(r) <==> OneDisconnect(q) && !(HasDisconnect(q) && w.DisconnectWaiter?))
            && (DisconnectFirst(r) <==> DisconnectFirst(q) && (w.DisconnectWaiter? ==> NoneLive(q)))
  {
    var r := q + [w];
    assert r[|q|] == w;
    assert forall i | 0 <= i < |q| :: r[i] == q[i];
  }

  lemma RemovedOrder(q: seq<Waiter>, at: nat)
    requires at < |q|
    ensures var r := q[..at] + q[at + 1..];
            && (OneDisconnect(q) ==> OneDisconnect(r) && (q[at].DisconnectWaiter? ==> !HasDisconnect(r)))
            && (DisconnectFirst(q) ==> DisconnectFirst(r))
            && (DisconnectFirst(q) && at == 0 && IsLiveConnect(q[0]) ==> !HasDisconnect(r))
  {
    var r := q[..at] + q[at + 1..];
    assert forall i | 0 <= i < |r| :: r[i] == q[if i < at then i else i + 1];
  }

  lemma CancelledOrder(q: seq<Waiter>, t: nat)
    ensures var r := CancelWaiters(q, t);
            && (OneDisconnect(q) ==> OneDisconnect(r))
            && (DisconnectFirst(q) ==> DisconnectFirst(r))
            && (HasDisconnect(r) <==> HasDisconnect(q))
  {
    var r := CancelWaiters(q, t);
    assert forall i | 0 <= i < |q| :: r[i] == CancelWaiter(q[i], t);
  }

  lemma NoneLiveIsFirst(q: seq<Waiter>)
    requires NoneLive(q)
    ensures DisconnectFirst(q)
  {
  }

  // The synchronous pieces

  lemma CancelTaskSlot(s: State)
    requires SlotInv(s)
    ensures SlotInv(CancelTask(s))
  {
    if s.connectTask.Some? {
      CancelledOrder(s.queue, s.connectTask.value);
    }
  }

  lemma EnterAttemptSlot(s: State, t: nat, env: Env)
    requires Core(s) && SlotInv(s) && s.holder == Free
    requires !s.history.restartedLive && s.phase == Disconnected && !s.stopped ==> !HasDisconnect(s.queue)
    ensures SlotInv(EnterAttempt(s, t, env))
  {
  }

  lemma SpawnConnectSlot(s: State, env: Env, fromMdns: bool)
    requires Core(s) && SlotInv(s) && !s.stopped
    ensures SlotInv(SpawnConnect(s, env, fromMdns))
  {
    if CanTakeLock(s, env) {
      AllCancelledQueue(s.queue, s.connectTask);
      QueueIdsGrow(s.queue, s.nextId, s.nextId + 1);
      EnterAttemptSlot(s.(nextId := s.nextId + 1), s.nextId, env);
    } else {
      AppendedQueue(s.queue, ConnectWaiter(s.nextId, false));
      AppendedOrder(s.queue, ConnectWaiter(s.nextId, false));
    }
  }

  lemma ScheduleConnectSlot(s: State, delay: real, env: Env, fromMdns: bool)
    requires Core(s) && SlotInv(s) && !s.stopped
    ensures SlotInv(ScheduleConnect(s, delay, env, fromMdns))
  {
    CancelTimerKeeps(s);
    if delay == 0.0 {
      CallConnectOnceSlot(CancelTimer(s), env, fromMdns);
    }
  }

  lemma CallConnectOnceSlot(s: State, env: Env, fromMdns: bool)
    requires Core(s) && SlotInv(s) && !s.stopped
    ensures SlotInv(CallConnectOnce(s, env, fromMdns))
  {
    if s.connectTask.Some? && Unfinished(s, s.connectTask.value) {
      if s.phase == Connecting && !env.connected {
        CancelTaskKeeps(s);
        CancelTaskSlot(s);
        SpawnConnectSlot(WritePhase(CancelTask(s), Disconnected), env, fromMdns);
      }
    } else {
      SpawnConnectSlot(s, env, fromMdns);
    }
  }

  lemma EnterStartSlot(s: State, env: Env)
    requires Core(s) && SlotInv(s) && s.holder == Free && s.eager.None?
    ensures SlotInv(EnterStart(s, env))
  {
    if s.phase == Disconnected {
      var h := s.history.(restartedLive := s.history.restartedLive || s.slot == Live);
      var s2 := s.(stopped := false, tries := 0, acceptRecords := true, holder := Starting, history := h);
      if s.stopped {
        NoneLiveIsFirst(s.queue);
      }
      ScheduleConnectSlot(s2, 0.0, env, false);
    }
  }

  lemma EnterStopSlot(s: State)
    requires SlotInv(s)
    ensures SlotInv(EnterStop(s))
  {
    CancelTaskSlot(CancelTimer(s.(stopped := true)));
  }

  lemma EnterDisconnectSlot(s: State, expected: bool)
    requires SlotInv(s) && !s.holder.Attempt?
    requires !s.history.restartedLive ==> s.slot == Empty && !HasDisconnect(s.queue)
    ensures SlotInv(EnterDisconnect(s, expected))
  {
  }

  // Steps

  lemma CallStopSlot(s: State, env: Env)
    requires Inv(s) && SlotInv(s) && Enabled(s, CallStop(env))
    ensures SlotInv(Step(s, CallStop(env)))
  {
    if NotYetConnected(s.phase) {
      CancelTaskSlot(CancelTimer(s));
    }
    var s1 := StopPrologue(s);
    if CanTakeLock(s1, env) {
      EnterStopSlot(s1);
    } else {
      AppendedQueue(s1.queue, StopWaiter);
      AppendedOrder(s1.queue, StopWaiter);
    }
  }

  lemma SessionDropsSlot(s: State, expected: bool, env: Env)
    requires Inv(s) && SlotInv(s) && Enabled(s, SessionDrops(expected, env))
    ensures SlotInv(Step(s, SessionDrops(expected, env)))
  {
    var s1 := s.(slot := Empty);
    if CanTakeLock(s1, env) {
      AllCancelledQueue(s.queue, s.connectTask);
      EnterDisconnectSlot(s1, expected);
    } else {
      AppendedQueue(s1.queue, DisconnectWaiter(expected));
      AppendedOrder(s1.queue, DisconnectWaiter(expected));
    }
  }

  lemma RemovedQueueSlot(s: State, at: nat)
    requires SlotInv(s) && at < |s.queue|
    ensures SlotInv(s.(queue := s.queue[..at] + s.queue[at + 1..]))
  {
    RemovedFromQueue(s.queue, at);
    RemovedOrder(s.queue, at);
  }

  /** What the head of the queue may rely on once it has left. */
  lemma PopSlot(s: State)
    requires SlotOwned(s) && s.queue != []
    ensures s.queue[0].DisconnectWaiter? ==> s.slot == Empty && !HasDisconnect(s.queue[1..])
    ensures IsLiveConnect(s.queue[0]) && s.phase == Disconnected && !s.stopped ==> !HasDisconnect(s.queue[1..])
  {
    RemovedFromQueue(s.queue, 0);
    RemovedOrder(s.queue, 0);
    assert s.queue[..0] + s.queue[1..] == s.queue[1..];
  }

  lemma PoppedQueueSlot(s: State)
    requires SlotInv(s) && s.queue != []
    ensures SlotInv(s.(queue := s.queue[1..]))
  {
    hide SlotInv;
    RemovedQueueSlot(s, 0);
    assert s.queue[..0] + s.queue[1..] == s.queue[1..];
  }

  lemma LockGrantedSlot(s: State, env: Env)
    requires Inv(s) && SlotInv(s) && Enabled(s, LockGranted(env))
    ensures SlotInv(Step(s, LockGranted(env)))
  {
    PopKeeps(s);
    PoppedQueueSlot(s);
    if !s.history.restartedLive {
      PopSlot(s);
    }
    var s1 := s.(queue := s.queue[1..]);
    match s.queue[0]
    case ConnectWaiter(t, _) => EnterAttemptSlot(s1, t, env);
    case StartWaiter => EnterStartSlot(s1, env);
    case StopWaiter => EnterStopSlot(s1);
    case DisconnectWaiter(expected) => EnterDisconnectSlot(s1, expected);
  }

  lemma CallStartSlot(s: State, env: Env)
    requires Inv(s) && SlotInv(s) && Enabled(s, CallStart(env))
    ensures SlotInv(Step(s, CallStart(env)))
  {
    if CanTakeLock(s, env) {
      EnterStartSlot(s, env);
    } else {
      AppendedQueue(s.queue, StartWaiter);
      AppendedOrder(s.queue, StartWaiter);
    }
  }

  /** The steps that schedule a connect. */
  lemma SchedulingSlot(s: State, a: Action)
    requires Inv(s) && SlotInv(s) && Enabled(s, a)
    requires a.TimerFires? || a.MdnsRecord? || a.ErrorCbReturns? || a.DisconnectCbReturns?
    ensures SlotInv(Step(s, a))
  {
    hide CallConnectOnce, ScheduleConnect, WaitTime, OneDisconnect, DisconnectFirst, HasDisconnect, NoneLive, OneLive,
         QueueIds, OnlyTaskLive;
    match a
    case TimerFires(timer, env) => CallConnectOnceSlot(s.(armed := s.armed - {timer}), env, false);
    case MdnsRecord(env) => ScheduleConnectSlot(s.(listening := false), 0.0, env, true);
    case ErrorCbReturns(kind, env) =>
      var tries := TriesAfter(s.tries, kind);
      ScheduleConnectSlot(s.(tries := tries), WaitTime(tries) as real, env, false);
    case DisconnectCbReturns(env) =>
      if !s.stopped {
        var delay := if s.holder.expected then EXPECTED_DISCONNECT_COOLDOWN else 0.0;
        ScheduleConnectSlot(s.(holder := Free), delay, env, false);
      }
  }

  /** The steps of the attempt or the disconnect that holds the lock, and the end of an eager run. */
  lemma HolderStepSlot(s: State, a: Action)
    requires Inv(s) && SlotInv(s) && Enabled(s, a)
    requires
      || a.ConnectionInterrupted? || a.AttemptAdvances? || a.AttemptFails? || a.AttemptCancelled?
      || a.ReadyCbReturns? || a.EagerYields?
    ensures SlotInv(Step(s, a))
  {
    hide OneDisconnect, DisconnectFirst, HasDisconnect, NoneLive, OneLive, QueueIds, OnlyTaskLive, InQueue, Covered,
         ReadyIsLive;
  }

  lemma StepKeepsSlot(s: State, a: Action)
    requires Inv(s) && SlotInv(s) && Enabled(s, a)
    ensures SlotInv(Step(s, a))
  {
    hide Inv, SlotInv, Step, Enabled;
    match a
    case TimerFires(_, _) => SchedulingSlot(s, a);
    case MdnsRecord(_) => SchedulingSlot(s, a);
    case ErrorCbReturns(_, _) => SchedulingSlot(s, a);
    case DisconnectCbReturns(_) => SchedulingSlot(s, a);
    case CallStart(env) => CallStartSlot(s, env);
    case CallStop(env) => CallStopSlot(s, env);
    case SessionDrops(expected, env) => SessionDropsSlot(s, expected, env);
    case LockGranted(env) => LockGrantedSlot(s, env);
    case CancelledWaiterLeaves(i) => CancelledWaiterSlot(s, i);
    case _ => HolderStepSlot(s, a);
  }

  lemma CancelledWaiterSlot(s: State, at: nat)
    requires SlotInv(s) && Enabled(s, CancelledWaiterLeaves(at))
    ensures SlotInv(Step(s, CancelledWaiterLeaves(at)))
  {
    hide SlotInv;
    RemovedQueueSlot(s, at);
  }
}
