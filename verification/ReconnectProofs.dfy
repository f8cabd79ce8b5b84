/** Invariants of the reconnect protocol and what they say about every run. */
module ReconnectProofs {
  import opened Wrappers
  import opened ReconnectModel

  // The backoff delay is never zero

  lemma {:induction false} PowAtLeastOne(base: real, n: nat)
    requires base >= 1.0
    ensures Pow(base, n) >= 1.0
  {
    if n != 0 {
      PowAtLeastOne(base, n - 1);
    }
  }

  lemma WaitTimeInRange(tries: nat)
    ensures 1 <= WaitTime(tries) <= 60
  {
    PowAtLeastOne(1.8, if tries < 10 then tries else 10);
  }

  // The invariant

  ghost predicate HasStop(q: seq<Waiter>) {
    exists i | 0 <= i < |q| :: q[i] == StopWaiter
  }

  ghost predicate HasDisconnect(q: seq<Waiter>) {
    exists i | 0 <= i < |q| :: q[i].DisconnectWaiter?
  }

  ghost predicate NoneLive(q: seq<Waiter>) {
    forall i | 0 <= i < |q| :: !IsLiveConnect(q[i])
  }

  ghost predicate OneLive(q: seq<Waiter>) {
    forall i, j | 0 <= i < j < |q| :: !(IsLiveConnect(q[i]) && IsLiveConnect(q[j]))
  }

  ghost predicate QueueIds(q: seq<Waiter>, bound: nat) {
    forall i | 0 <= i < |q| :: q[i].ConnectWaiter? ==> q[i].id < bound
  }

  /** The queued connect task that is not cancelled is `_connect_task`. */
  ghost predicate OnlyTaskLive(q: seq<Waiter>, task: Option<nat>) {
    forall i | 0 <= i < |q| :: q[i].ConnectWaiter? ==> (q[i].cancelled <==> task != Some(q[i].id))
  }

  ghost predicate Running(s: State) {
    s.holder.Attempt? && !s.holder.cancelled
  }

  /** Every id in use was handed out, and only the current handle can be armed. */
  ghost predicate Ids(s: State) {
    && QueueIds(s.queue, s.nextId)
    && (s.holder.Attempt? ==> s.holder.id < s.nextId)
    && (s.eager.Some? ==> s.eager.value.id < s.nextId)
    && (s.connectTask.Some? ==> s.connectTask.value < s.nextId)
    && (forall i | i in s.armed :: s.timerHandle == Some(i))
  }

  /** `_connect_task` is the only connect task that is not cancelled. */
  ghost predicate Tasks(s: State) {
    && OnlyTaskLive(s.queue, s.connectTask)
    && OneLive(s.queue)
    && (s.eager.None? && s.holder.Attempt? ==> (s.holder.cancelled <==> s.connectTask != Some(s.holder.id)))
    && (Running(s) ==> NoneLive(s.queue))
    && (s.eager.Some? ==>
          && (s.holder == Free || (Running(s) && s.holder.id == s.eager.value.id))
          && (s.connectTask.Some? ==> !Unfinished(s, s.connectTask.value))
          && NoneLive(s.queue)
          && !InQueue(s.queue, s.eager.value.id))
  }

  /** The state agrees with the await at which the lock's holder is suspended. */
  ghost predicate HolderFits(s: State) {
    && (s.holder.Attempt? ==>
          match s.holder.stage
          case InResolve => s.phase == Resolving && s.slot == Attempting
          case InConnect =>
            s.slot == Attempting && (s.phase == Connecting || (s.holder.cancelled && s.phase == Disconnected))
          case InHandshake => s.phase == Handshaking && s.slot == Attempting && !s.holder.cancelled
          case InErrorCb => s.phase == Disconnected && s.slot != Attempting
          case InReadyCb => s.phase == Ready && s.slot != Attempting && !s.holder.cancelled)
    && (s.slot == Attempting ==> InClientCall(s.holder))
    && (s.holder.Disconnecting? ==> s.phase == Disconnected)
  }

  /** An intermediate phase belongs to a running attempt, or a `stop` will clear it. */
  ghost predicate PhaseOwned(s: State) {
    s.phase == Resolving || s.phase == Connecting || s.phase == Handshaking ==>
      HasStop(s.queue) || (InClientCall(s.holder) && !s.holder.cancelled)
  }

  /** READY means a live session, or one whose end is about to be processed. */
  ghost predicate ReadyIsLive(s: State) {
    s.phase == Ready ==> s.slot == Live || HasDisconnect(s.queue)
  }

  /** While stopped nothing is armed, queued to connect or connecting. */
  ghost predicate Quiet(s: State) {
    s.stopped ==>
      && s.phase == Disconnected
      && s.armed == map[]
      && !s.holder.Attempt?
      && NoneLive(s.queue)
  }

  /** Something will lead to the next attempt. */
  ghost predicate Scheduled(s: State) {
    || s.armed != map[]
    || !NoneLive(s.queue)
    || Running(s)
    || HasDisconnect(s.queue)
    || s.holder.Disconnecting?
  }

  /** The logic is never left with nothing scheduled. */
  ghost predicate Covered(s: State) {
    s.stopped || HasStop(s.queue) || s.phase == Ready || Scheduled(s)
  }

  ghost predicate Core(s: State) {
    Ids(s) && Tasks(s) && HolderFits(s) && PhaseOwned(s) && ReadyIsLive(s) && Quiet(s)
  }

  ghost predicate Inv(s: State) {
    Core(s) && Covered(s) && s.holder != Starting
  }

  lemma InitialInv()
    ensures Inv(INITIAL)
  {
  }

  // What the synchronous pieces keep

  lemma CancelTimerKeeps(s: State)
    requires Ids(s)
    ensures var r := CancelTimer(s); r.armed == map[] && r == s.(armed := map[], timerHandle := None)
  {
    if s.armed != map[] {
      var i :| i in s.armed;
      assert s.timerHandle == Some(i);
    }
  }

  lemma CancelTaskKeeps(s: State)
    requires Ids(s) && Tasks(s)
    ensures var r := CancelTask(s);
            && Ids(r) && Tasks(r)
            && NoneLive(r.queue)
            && (s.eager.None? ==> !Running(r))
            && (s.eager.Some? ==> r.holder == s.holder)
            && r == s.(holder := r.holder, queue := r.queue, connectTask := None)
            && (r.holder == s.holder || (s.holder.Attempt? && r.holder == s.holder.(cancelled := true)))
            && |r.queue| == |s.queue|
            && (HasStop(s.queue) ==> HasStop(r.queue))
            && (HasDisconnect(s.queue) ==> HasDisconnect(r.queue))
  {
    var r := CancelTask(s);
    assert forall i | 0 <= i < |s.queue| :: !s.queue[i].ConnectWaiter? ==> r.queue[i] == s.queue[i];
  }

  lemma QueueConnectKeeps(s: State, fromMdns: bool)
    requires Core(s) && !s.stopped && s.eager.None?
    requires NoneLive(s.queue) && !Running(s)
    ensures var t := s.nextId;
            var r := AfterSpawn(s.(nextId := t + 1, queue := s.queue + [ConnectWaiter(t, false)]), t, fromMdns);
            Core(r) && !NoneLive(r.queue)
  {
    var t := s.nextId;
    var q := s.queue + [ConnectWaiter(t, false)];
    assert q[|s.queue|] == ConnectWaiter(t, false);
    assert forall i | 0 <= i < |s.queue| :: q[i] == s.queue[i];
  }

  function EagerAttempt(s: State, env: Env, fromMdns: bool): State {
    EnterAttempt(s.(nextId := s.nextId + 1), s.nextId, env).(eager := Some(EagerCall(s.nextId, fromMdns)))
  }

  lemma AllCancelledQueue(q: seq<Waiter>, task: Option<nat>)
    requires AllCancelled(q) && OnlyTaskLive(q, task)
    ensures NoneLive(q) && !HasStop(q) && !HasDisconnect(q)
    ensures task.Some? ==> !InQueue(q, task.value)
  {
    assert forall i | 0 <= i < |q| :: IsCancelled(q[i]);
  }

  lemma QueueIdsGrow(q: seq<Waiter>, m: nat, n: nat)
    requires QueueIds(q, m) && m <= n
    ensures QueueIds(q, n)
  {
  }

  lemma EnterAttemptShape(s: State, t: nat, env: Env)
    ensures var r := EnterAttempt(s, t, env);
            && r == s.(listening := r.listening, phase := r.phase, slot := r.slot,
                       acceptRecords := r.acceptRecords, holder := r.holder, history := r.history)
            && (r.holder == Free || (r.holder.Attempt? && r.holder.id == t && !r.holder.cancelled))
  {
  }

  lemma EagerAttemptTasks(s: State, env: Env, fromMdns: bool)
    requires Ids(s) && Tasks(s) && s.eager.None? && s.holder == Free && AllCancelled(s.queue)
    ensures var r := EagerAttempt(s, env, fromMdns); Ids(r) && Tasks(r) && r.queue == s.queue
  {
    hide EnterAttempt, NoneLive, OneLive, QueueIds, OnlyTaskLive, AllCancelled;
    AllCancelledQueue(s.queue, s.connectTask);
    QueueIdsGrow(s.queue, s.nextId, s.nextId + 1);
    EnterAttemptShape(s.(nextId := s.nextId + 1), s.nextId, env);
    NewIdNotQueued(s.queue, s.nextId);
  }

  lemma NewIdNotQueued(q: seq<Waiter>, id: nat)
    requires QueueIds(q, id)
    ensures !InQueue(q, id)
  {
  }

  lemma EagerAttemptKeeps(s: State, env: Env, fromMdns: bool)
    requires Core(s) && !s.stopped && s.eager.None? && s.holder == Free && AllCancelled(s.queue)
    ensures var r := EagerAttempt(s, env, fromMdns); Core(r) && Covered(r)
  {
    EagerAttemptTasks(s, env, fromMdns);
    AllCancelledQueue(s.queue, s.connectTask);
  }

  /** A new connect task is at once the attempt, or the last waiter. */
  lemma SpawnConnectKeeps(s: State, env: Env, fromMdns: bool)
    requires Core(s) && !s.stopped && s.eager.None?
    requires NoneLive(s.queue) && !Running(s)
    ensures var r := SpawnConnect(s, env, fromMdns);
            && Core(r) && Covered(r) && (r.holder == Starting <==> s.holder == Starting)
            && (s.holder == Starting ==> !NoneLive(r.queue))
  {
    if CanTakeLock(s, env) {
      EagerAttemptKeeps(s, env, fromMdns);
      assert SpawnConnect(s, env, fromMdns) == EagerAttempt(s, env, fromMdns);
    } else {
      QueueConnectKeeps(s, fromMdns);
    }
  }

  lemma CallConnectOnceKeeps(s: State, env: Env, fromMdns: bool)
    requires Core(s) && !s.stopped && s.eager.None?
    ensures var r := CallConnectOnce(s, env, fromMdns);
            && Core(r) && Covered(r) && (r.holder == Starting <==> s.holder == Starting)
            && (s.holder == Starting ==> !NoneLive(r.queue))
  {
    hide SpawnConnect, CancelWaiters, QueueIds, HasStop, HasDisconnect;
    if s.connectTask.Some? && Unfinished(s, s.connectTask.value) {
      if s.phase == Connecting && !env.connected {
        CancelTaskKeeps(s);
        SpawnConnectKeeps(WritePhase(CancelTask(s), Disconnected), env, fromMdns);
      }
    } else {
      SpawnConnectKeeps(s, env, fromMdns);
    }
  }

  lemma ScheduleConnectKeeps(s: State, delay: real, env: Env, fromMdns: bool)
    requires Core(s) && !s.stopped && (s.eager.None? || delay != 0.0)
    ensures var r := ScheduleConnect(s, delay, env, fromMdns);
            && Core(r) && Covered(r)
            && (r.holder == Starting <==> s.holder == Starting)
            && (delay == 0.0 && s.holder == Starting ==> !NoneLive(r.queue))
            && (delay != 0.0 ==>
                  r == s.(armed := map[s.nextId := delay], timerHandle := Some(s.nextId), nextId := s.nextId + 1))
  {
    CancelTimerKeeps(s);
    var s1 := CancelTimer(s);
    if delay == 0.0 {
      CallConnectOnceKeeps(s1, env, fromMdns);
    } else {
      assert s.nextId in ArmTimer(s1, delay).armed;
      assert ArmTimer(s1, delay).armed == map[s.nextId := delay];
    }
  }

  // The code that runs once a waiter owns the lock

  lemma EnterAttemptKeeps(s: State, t: nat, env: Env)
    requires Core(s) && s.eager.None? && s.holder == Free
    requires s.connectTask == Some(t) && NoneLive(s.queue)
    ensures Inv(EnterAttempt(s, t, env))
  {
    hide OneLive, QueueIds, OnlyTaskLive, InQueue, HasStop, HasDisconnect;
  }

  lemma EnterStartKeeps(s: State, env: Env)
    requires Core(s) && s.eager.None? && s.holder == Free
    requires Covered(s) || s.phase == Disconnected
    ensures Inv(EnterStart(s, env))
  {
    if s.phase == Disconnected {
      var h := s.history.(restartedLive := s.history.restartedLive || s.slot == Live);
      var s2 := s.(stopped := false, tries := 0, acceptRecords := true, holder := Starting, history := h);
      ScheduleConnectKeeps(s2, 0.0, env, false);
    }
  }

  lemma EnterStopKeeps(s: State)
    requires Ids(s) && Tasks(s) && HolderFits(s) && s.eager.None? && s.holder == Free
    ensures Inv(EnterStop(s))
  {
    CancelTimerKeeps(s.(stopped := true));
    CancelTaskKeeps(CancelTimer(s.(stopped := true)));
  }

  lemma EnterDisconnectKeeps(s: State, expected: bool)
    requires Ids(s) && Tasks(s) && HolderFits(s) && PhaseOwned(s) && Quiet(s) && s.eager.None? && s.holder == Free
    ensures Inv(EnterDisconnect(s, expected))
  {
  }

  // Joining and leaving the queue

  lemma AppendedQueue(q: seq<Waiter>, w: Waiter)
    ensures var r := q + [w];
            && (HasStop(r) <==> HasStop(q) || w == StopWaiter)
            && (HasDisconnect(r) <==> HasDisconnect(q) || w.DisconnectWaiter?)
            && (NoneLive(r) <==> NoneLive(q) && !IsLiveConnect(w))
  {
    var r := q + [w];
    assert r[|q|] == w;
    assert forall i | 0 <= i < |q| :: r[i] == q[i];
  }

  lemma RemovedFromQueue(q: seq<Waiter>, at: nat)
    requires at < |q|
    ensures var r := q[..at] + q[at + 1..];
            && (HasStop(q) <==> HasStop(r) || q[at] == StopWaiter)
            && (HasDisconnect(q) <==> HasDisconnect(r) || q[at].DisconnectWaiter?)
            && (NoneLive(q) <==> NoneLive(r) && !IsLiveConnect(q[at]))
            && (OneLive(q) && IsLiveConnect(q[at]) ==> NoneLive(r))
  {
    var r := q[..at] + q[at + 1..];
    assert forall i | 0 <= i < |r| :: r[i] == q[if i < at then i else i + 1];
    assert forall i | 0 <= i < |q| && i != at :: q[i] == r[if i < at then i else i - 1];
  }

  lemma AppendKeeps(s: State, w: Waiter)
    requires Ids(s) && Tasks(s) && !w.ConnectWaiter?
    ensures var r := s.(queue := s.queue + [w]); Ids(r) && Tasks(r)
  {
    var q := s.queue + [w];
    AppendedQueue(s.queue, w);
    assert forall i | 0 <= i < |s.queue| :: q[i] == s.queue[i];
  }

  lemma RemoveKeeps(s: State, at: nat)
    requires Ids(s) && Tasks(s) && at < |s.queue|
    ensures var r := s.(queue := s.queue[..at] + s.queue[at + 1..]); Ids(r) && Tasks(r)
  {
    var q := s.queue[..at] + s.queue[at + 1..];
    RemovedFromQueue(s.queue, at);
    assert forall i | 0 <= i < |q| :: q[i] == s.queue[if i < at then i else i + 1];
  }

  // Every step keeps the invariant

  lemma TimerFiresKeeps(s: State, timer: nat, env: Env)
    requires Inv(s) && Enabled(s, TimerFires(timer, env))
    ensures Inv(Step(s, TimerFires(timer, env)))
  {
    hide CallConnectOnce, NoneLive, OneLive, QueueIds, OnlyTaskLive, HasStop, HasDisconnect, InQueue, Covered;
    CallConnectOnceKeeps(s.(armed := s.armed - {timer}), env, false);
  }

  lemma MdnsRecordKeeps(s: State, env: Env)
    requires Inv(s) && Enabled(s, MdnsRecord(env))
    ensures Inv(Step(s, MdnsRecord(env)))
  {
    hide ScheduleConnect, NoneLive, OneLive, QueueIds, OnlyTaskLive, HasStop, HasDisconnect, InQueue, Covered;
    ScheduleConnectKeeps(s.(listening := false), 0.0, env, true);
  }

  lemma CallStartKeeps(s: State, env: Env)
    requires Inv(s) && Enabled(s, CallStart(env))
    ensures Inv(Step(s, CallStart(env)))
  {
    if CanTakeLock(s, env) {
      EnterStartKeeps(s, env);
    } else {
      AppendedQueue(s.queue, StartWaiter);
      AppendKeeps(s, StartWaiter);
    }
  }

  lemma CallStopKeeps(s: State, env: Env)
    requires Inv(s) && Enabled(s, CallStop(env))
    ensures Inv(Step(s, CallStop(env)))
  {
    hide EnterStop, NoneLive, OneLive, QueueIds, OnlyTaskLive, AllCancelled, CancelWaiters;
    if NotYetConnected(s.phase) {
      CancelTimerKeeps(s);
      CancelTaskKeeps(CancelTimer(s));
    }
    var s1 := StopPrologue(s);
    if CanTakeLock(s1, env) {
      EnterStopKeeps(s1);
    } else {
      AppendedQueue(s1.queue, StopWaiter);
      AppendKeeps(s1, StopWaiter);
    }
  }

  lemma SessionDropsKeeps(s: State, expected: bool, env: Env)
    requires Inv(s) && Enabled(s, SessionDrops(expected, env))
    ensures Inv(Step(s, SessionDrops(expected, env)))
  {
    var s1 := s.(slot := Empty);
    if CanTakeLock(s1, env) {
      EnterDisconnectKeeps(s1, expected);
    } else {
      AppendedQueue(s1.queue, DisconnectWaiter(expected));
      AppendKeeps(s1, DisconnectWaiter(expected));
    }
  }

  /** The lock is free and the first waiter leaves the queue. */
  lemma PopKeeps(s: State)
    requires Inv(s) && s.eager.None? && s.holder == Free && s.queue != []
    ensures var s1 := s.(queue := s.queue[1..]);
            && Ids(s1) && Tasks(s1) && HolderFits(s1) && Quiet(s1)
            && (s.queue[0] != StopWaiter ==> PhaseOwned(s1))
            && (!s.queue[0].DisconnectWaiter? ==> ReadyIsLive(s1))
            && (IsLiveConnect(s.queue[0]) ==>
                  s.queue[0].ConnectWaiter? && NoneLive(s1.queue) && s1.connectTask == Some(s.queue[0].id))
            && (s.queue[0] == StartWaiter ==> Covered(s1))
  {
    hide NoneLive, OneLive, QueueIds, OnlyTaskLive, HasStop, HasDisconnect, InQueue, IsLiveConnect;
    PoppedQueue(s.queue, s.connectTask);
    PopKeepsTasks(s);
  }

  lemma PopKeepsTasks(s: State)
    requires Ids(s) && Tasks(s) && s.queue != []
    ensures var r := s.(queue := s.queue[1..]); Ids(r) && Tasks(r)
  {
    hide Ids, Tasks;
    RemoveKeeps(s, 0);
    assert s.queue[..0] + s.queue[1..] == s.queue[1..];
  }

  lemma PoppedQueue(q: seq<Waiter>, task: Option<nat>)
    requires q != [] && OneLive(q) && OnlyTaskLive(q, task)
    ensures HasStop(q) <==> HasStop(q[1..]) || q[0] == StopWaiter
    ensures HasDisconnect(q) <==> HasDisconnect(q[1..]) || q[0].DisconnectWaiter?
    ensures NoneLive(q) <==> NoneLive(q[1..]) && !IsLiveConnect(q[0])
    ensures IsLiveConnect(q[0]) ==> q[0].ConnectWaiter? && NoneLive(q[1..]) && task == Some(q[0].id)
  {
    hide NoneLive, OneLive, HasStop, HasDisconnect;
    RemovedFromQueue(q, 0);
    assert q[..0] + q[1..] == q[1..];
  }

  lemma LockGrantedKeeps(s: State, env: Env)
    requires Inv(s) && Enabled(s, LockGranted(env))
    ensures Inv(Step(s, LockGranted(env)))
  {
    PopKeeps(s);
    var s1 := s.(queue := s.queue[1..]);
    match s.queue[0]
    case ConnectWaiter(t, _) => EnterAttemptKeeps(s1, t, env);
    case StartWaiter => EnterStartKeeps(s1, env);
    case StopWaiter => EnterStopKeeps(s1);
    case DisconnectWaiter(expected) => EnterDisconnectKeeps(s1, expected);
  }

  lemma CancelledWaiterLeavesKeeps(s: State, at: nat)
    requires Inv(s) && Enabled(s, CancelledWaiterLeaves(at))
    ensures Inv(Step(s, CancelledWaiterLeaves(at)))
  {
    RemovedFromQueue(s.queue, at);
    RemoveKeeps(s, at);
  }

  lemma ErrorCbReturnsKeeps(s: State, kind: ErrorKind, env: Env)
    requires Inv(s) && Enabled(s, ErrorCbReturns(kind, env))
    ensures Inv(Step(s, ErrorCbReturns(kind, env)))
  {
    hide ScheduleConnect, WaitTime, NoneLive, OneLive, QueueIds, OnlyTaskLive, HasStop, HasDisconnect, InQueue;
    var tries := TriesAfter(s.tries, kind);
    WaitTimeInRange(tries);
    ScheduleConnectKeeps(s.(tries := tries), WaitTime(tries) as real, env, false);
    assert s.nextId in Step(s, ErrorCbReturns(kind, env)).armed;
  }

  lemma DisconnectCbReturnsKeeps(s: State, env: Env)
    requires Inv(s) && Enabled(s, DisconnectCbReturns(env))
    ensures Inv(Step(s, DisconnectCbReturns(env)))
  {
    hide ScheduleConnect, NoneLive, OneLive, QueueIds, OnlyTaskLive, HasStop, HasDisconnect, InQueue;
    if !s.stopped {
      var delay := if s.holder.expected then EXPECTED_DISCONNECT_COOLDOWN else 0.0;
      ScheduleConnectKeeps(s.(holder := Free), delay, env, false);
    }
  }

  /** The task bookkeeping does not depend on how far the attempt has come. */
  lemma StageChangeKeepsTasks(s: State, r: State)
    requires Ids(s) && Tasks(s) && s.holder.Attempt? && r.holder.Attempt?
    requires r.holder == s.holder.(stage := r.holder.stage, interrupted := r.holder.interrupted)
    requires s == r.(phase := s.phase, slot := s.slot, tries := s.tries, listening := s.listening,
                     acceptRecords := s.acceptRecords, holder := s.holder, history := s.history)
    ensures Ids(r) && Tasks(r)
  {
  }

  lemma AttemptAdvancesKeeps(s: State)
    requires Inv(s) && Enabled(s, AttemptAdvances)
    ensures Inv(Step(s, AttemptAdvances))
  {
    StageChangeKeepsTasks(s, Advance(s));
  }

  lemma AttemptFailsKeeps(s: State)
    requires Inv(s) && Enabled(s, AttemptFails)
    ensures Inv(Step(s, AttemptFails))
  {
    StageChangeKeepsTasks(s, Step(s, AttemptFails));
  }

  lemma ConnectionInterruptedKeeps(s: State)
    requires Inv(s) && Enabled(s, ConnectionInterrupted)
    ensures Inv(Step(s, ConnectionInterrupted))
  {
    hide NoneLive, OneLive, QueueIds, OnlyTaskLive, HasStop, HasDisconnect, InQueue;
    StageChangeKeepsTasks(s, Step(s, ConnectionInterrupted));
  }

  lemma AttemptEndsKeeps(s: State, a: Action)
    requires Inv(s) && Enabled(s, a)
    requires a.AttemptCancelled? || a.ReadyCbReturns?
    ensures Inv(Step(s, a))
  {
  }

  lemma EagerYieldsKeeps(s: State)
    requires Inv(s) && Enabled(s, EagerYields)
    ensures Inv(Step(s, EagerYields))
  {
    var t := s.eager.value.id;
    assert forall i | 0 <= i < |s.queue| && s.queue[i].ConnectWaiter? :: s.queue[i].id != t;
  }

  lemma StepKeeps(s: State, a: Action)
    requires Inv(s) && Enabled(s, a)
    ensures Inv(Step(s, a))
  {
    match a
    case TimerFires(timer, env) => TimerFiresKeeps(s, timer, env);
    case MdnsRecord(env) => MdnsRecordKeeps(s, env);
    case CallStart(env) => CallStartKeeps(s, env);
    case CallStop(env) => CallStopKeeps(s, env);
    case SessionDrops(expected, env) => SessionDropsKeeps(s, expected, env);
    case LockGranted(env) => LockGrantedKeeps(s, env);
    case CancelledWaiterLeaves(i) => CancelledWaiterLeavesKeeps(s, i);
    case ErrorCbReturns(kind, env) => ErrorCbReturnsKeeps(s, kind, env);
    case DisconnectCbReturns(env) => DisconnectCbReturnsKeeps(s, env);
    case AttemptCancelled => AttemptEndsKeeps(s, a);
    case ReadyCbReturns => AttemptEndsKeeps(s, a);
    case EagerYields => EagerYieldsKeeps(s);
    case ConnectionInterrupted => ConnectionInterruptedKeeps(s);
    case AttemptAdvances => AttemptAdvancesKeeps(s);
    case AttemptFails => AttemptFailsKeeps(s);
  }
}
