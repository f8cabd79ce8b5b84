/**
 What `start`, `stop`, a firing timer and an mDNS record do to the attempts, and when records are listened
 for and let in.
 */
module ReconnectTriggers {
  import opened Wrappers
  import opened ReconnectModel
  import opened ReconnectProofs
  import opened ReconnectSlot
  import opened ReconnectTheorems
  import opened ReconnectTiming

  lemma RunningCore(s: State)
    requires Inv(s)
    ensures Core(s)
    ensures forall listening :: Core(s.(listening := listening))
    ensures s.armed != map[] ==> !s.stopped
  {
    hide NoneLive, OneLive, QueueIds, OnlyTaskLive, HasStop, HasDisconnect, InQueue;
  }

  lemma FiredCore(s: State, timer: nat)
    requires Inv(s) && timer in s.armed
    ensures var r := s.(armed := s.armed - {timer}); Core(r) && r.armed == map[] && !r.stopped
  {
    hide NoneLive, OneLive, QueueIds, OnlyTaskLive, HasStop, HasDisconnect, InQueue;
    assert s.timerHandle == Some(timer);
  }

  /** A timer that fires leaves none, and an attempt unless the logic is not DISCONNECTED. */
  lemma TimerConnects(s: State, timer: nat, env: Env)
    requires Reachable(s) && Enabled(s, TimerFires(timer, env))
    ensures var r := Step(s, TimerFires(timer, env));
            r.armed == map[] && (s.phase == Disconnected ==> HasAttempt(r))
  {
    ReachableKeeps(s);
    FiredCore(s, timer);
    var s1 := s.(armed := s.armed - {timer});
    hide Reachable, Inv, Core, CallConnectOnce, HasAttempt;
    CallKeepsTimers(s1, env, false);
    CallLeavesAnAttempt(s1, env, false);
  }

  // Records

  /** Records are let in while the logic waits, resolves or connects, not after. */
  lemma RecordsAreLetIn(s: State, env: Env)
    ensures Enabled(s, MdnsRecord(env)) <==>
              && s.eager.None? && s.listening && s.acceptRecords && !s.stopped
              && s.phase != Handshaking && s.phase != Ready
  {
  }

  /**
   A record brings the next attempt forward: no timer is left, and an attempt is running or queued, unless a
   `stop` is waiting.
   */
  lemma RecordConnects(s: State, env: Env)
    requires Reachable(s) && Enabled(s, MdnsRecord(env))
    ensures var r := Step(s, MdnsRecord(env)); r.armed == map[] && (HasAttempt(r) || StopWaiter in s.queue)
  {
    ReachableKeeps(s);
    RunningCore(s);
    PhaseNeedsAttempt(s);
    var s1 := s.(listening := false);
    hide Reachable, Inv, Core, ScheduleConnect;
    ScheduleNow(s1, env, true);
  }

  lemma PhaseNeedsAttempt(s: State)
    requires Inv(s)
    ensures (s.phase == Resolving || s.phase == Connecting) && s.holder == Free ==> StopWaiter in s.queue
  {
  }

  // The pieces that may begin an attempt

  /**
   What they do to the listener and to the gate for records: an attempt that begins listens again, one that is
   refused opens the gate, and a record closes it as soon as its attempt is created.
   */
  predicate Gates(s: State, r: State, env: Env, fromMdns: bool) {
    && r.listening == (s.listening || (r.history.attempts > s.history.attempts && env.zcUp))
    && r.acceptRecords ==
       (r.history.refused > s.history.refused || (s.acceptRecords && !(fromMdns && r.eager.None?)))
  }

  lemma EnterAttemptGates(s: State, t: nat, env: Env)
    ensures var r := EnterAttempt(s, t, env); Gates(s, r, env, false) && r.eager == s.eager
  {
  }

  lemma SpawnGates(s: State, env: Env, fromMdns: bool)
    requires fromMdns ==> s.eager.None?
    ensures Gates(s, SpawnConnect(s, env, fromMdns), env, fromMdns)
  {
    hide EnterAttempt, CanTakeLock;
    EnterAttemptGates(s.(nextId := s.nextId + 1), s.nextId, env);
  }

  lemma CallGates(s: State, env: Env, fromMdns: bool)
    requires fromMdns ==> s.eager.None?
    ensures Gates(s, CallConnectOnce(s, env, fromMdns), env, fromMdns)
  {
    hide SpawnConnect, CancelWaiters, CancelHolder, Unfinished;
    SpawnGates(s, env, fromMdns);
    SpawnGates(WritePhase(CancelTask(s), Disconnected), env, fromMdns);
  }

  lemma ScheduleGates(s: State, delay: real, env: Env, fromMdns: bool)
    requires fromMdns ==> s.eager.None? && delay == 0.0
    ensures Gates(s, ScheduleConnect(s, delay, env, fromMdns), env, fromMdns)
  {
    hide CallConnectOnce;
    CallGates(CancelTimer(s), env, fromMdns);
  }

  // `start` and `stop`

  /**
   `start` in its critical section.  A DISCONNECTED logic begins or queues an attempt at once, with no timer
   left, no failures counted and the gate open; any other is only told that it is not stopped.
   */
  lemma StartConnects(s: State, a: Action)
    requires Reachable(s) && Enabled(s, a) && RunsStart(s, a)
    ensures var r := Step(s, a);
            if s.phase != Disconnected then r == s.(stopped := false, queue := r.queue)
            else !r.stopped && r.armed == map[] && r.tries == 0 && r.acceptRecords && HasAttempt(r)
  {
    ReachableKeeps(s);
    hide Reachable, EnterStart, Inv, HasAttempt, CanTakeLock;
    StartIsReady(s, a);
    if a.CallStart? {
      StartLeaves(s, a.env);
    } else {
      StartLeaves(s.(queue := s.queue[1..]), a.env);
    }
  }

  lemma StartIsReady(s: State, a: Action)
    requires Inv(s) && Enabled(s, a) && RunsStart(s, a)
    ensures var s1 := if a.CallStart? then s else s.(queue := s.queue[1..]);
            && Core(s1) && s1.eager.None? && s1.holder == Free
            && (s1.phase == Disconnected ==> Core(PrepareStart(s1.(stopped := false))))
  {
    if a.LockGranted? {
      PopKeeps(s);
    }
  }

  lemma StartLeaves(s: State, env: Env)
    requires s.eager.None? && s.holder == Free
    requires s.phase == Disconnected ==> Core(PrepareStart(s.(stopped := false)))
    ensures var r := EnterStart(s, env);
            if s.phase != Disconnected then r == s.(stopped := false)
            else !r.stopped && r.armed == map[] && r.tries == 0 && r.acceptRecords && HasAttempt(r)
  {
    if s.phase == Disconnected {
      var s1 := PrepareStart(s.(stopped := false));
      hide Core, ScheduleConnect;
      ScheduleNow(s1, env, false);
      StartCounts(s, env);
      ScheduleGates(s1, 0.0, env, false);
    }
  }

  /**
   `stop` before it waits for the lock.  While no connection is up, whoever is due to connect is cancelled at
   once; later nobody is, until the lock is free.
   */
  lemma StopCancels(s: State)
    requires Reachable(s) && s.eager.None?
    ensures var r := StopPrologue(s);
            if s.phase == Handshaking || s.phase == Ready then r == s
            else r.armed == map[] && !HasAttempt(r) && r.timerHandle.None? && r.connectTask.None?
  {
    ReachableKeeps(s);
    if s.phase != Handshaking && s.phase != Ready {
      CancelTimerKeeps(s);
      CancelTaskKeeps(CancelTimer(s));
      assert CancelConnect(s).queue == CancelTask(CancelTimer(s)).queue;
    }
  }

  /** `stop` in its critical section. */
  predicate RunsStop(s: State, a: Action) {
    || (a.CallStop? && CanTakeLock(StopPrologue(s), a.env))
    || (a.LockGranted? && s.queue != [] && s.queue[0] == StopWaiter)
  }

  lemma StopStops(s: State, a: Action)
    requires Enabled(s, a) && RunsStop(s, a)
    ensures var r := Step(s, a); r.stopped && r.phase == Disconnected && !r.listening
  {
    hide CanTakeLock, CancelConnect;
    StopLeaves(StopPrologue(s));
    if a.LockGranted? {
      StopLeaves(s.(queue := s.queue[1..]));
    }
  }

  lemma StopLeaves(s: State)
    ensures var r := EnterStop(s);
            r.stopped && r.phase == Disconnected && !r.listening && r.acceptRecords == s.acceptRecords
            && r.history.attempts == s.history.attempts && r.history.refused == s.history.refused
  {
    hide CancelWaiters;
  }

  /**
   Who gets the lock: a `stop` that finds it free, with nobody or only cancelled waiters before it, may run at
   once, and with nobody it does; a `stop` that finds it held waits behind everyone else.
   */
  lemma LockIsFair(s: State, env: Env)
    requires s.eager.None?
    ensures s.holder == Free && (s.queue == [] || (env.jump && AllCancelled(s.queue))) ==>
              Step(s, CallStop(env)).stopped
    ensures s.holder != Free ==>
              var q := Step(s, CallStop(env)).queue; |q| == |s.queue| + 1 && q[|s.queue|] == StopWaiter
  {
    PrologueKeepsLock(s);
    hide StopPrologue, AllCancelled;
    StopLeaves(StopPrologue(s));
    hide EnterStop;
  }

  lemma PrologueKeepsLock(s: State)
    ensures var r := StopPrologue(s);
            && |r.queue| == |s.queue| && (r.holder == Free <==> s.holder == Free)
            && (AllCancelled(s.queue) ==> AllCancelled(r.queue)) && (s.queue == [] ==> AllCancelled(r.queue))
  {
  }

  // The gate and the listener, step by step

  /** The steps after which the next record may start an attempt again. */
  predicate Reopens(s: State, a: Action, r: State) {
    || a.AttemptFails? || r.history.refused > s.history.refused
    || (RunsStart(s, a) && s.phase == Disconnected)
    || RunsDisconnect(s, a)
  }

  /** The end of a session is processed: its critical section is entered. */
  predicate RunsDisconnect(s: State, a: Action) {
    || (a.SessionDrops? && CanTakeLock(s, a.env))
    || (a.LockGranted? && s.queue != [] && s.queue[0].DisconnectWaiter?)
  }

  predicate GateMoves(s: State, a: Action, r: State) {
    r.acceptRecords ==
    (Reopens(s, a, r) ||
     (s.acceptRecords && !(a.MdnsRecord? && r.eager.None?) &&
      !(a.EagerYields? && s.eager.Some? && s.eager.value.fromMdns)))
  }

  function EnvOf(a: Action): Env {
    match a
    case TimerFires(_, env) => env
    case MdnsRecord(env) => env
    case CallStart(env) => env
    case CallStop(env) => env
    case SessionDrops(_, env) => env
    case LockGranted(env) => env
    case ErrorCbReturns(_, env) => env
    case DisconnectCbReturns(env) => env
    case _ => Env(false, false, false)
  }

  predicate ListenerMoves(s: State, a: Action, r: State) {
    r.listening ==
    ((r.history.attempts > s.history.attempts && EnvOf(a).zcUp) ||
     (s.listening && !a.MdnsRecord? && !RunsStop(s, a) && !(a.AttemptAdvances? && s.phase == Connecting)))
  }

  lemma SchedulingGates(s: State, a: Action)
    requires Enabled(s, a) && (a.TimerFires? || a.MdnsRecord? || a.DisconnectCbReturns? || a.ErrorCbReturns?)
    ensures GateMoves(s, a, Step(s, a)) && ListenerMoves(s, a, Step(s, a))
  {
    hide ScheduleConnect, CallConnectOnce, WaitTime;
    match a
    case TimerFires(timer, env) => CallGates(s.(armed := s.armed - {timer}), env, false);
    case MdnsRecord(env) => ScheduleGates(s.(listening := false), 0.0, env, true);
    case DisconnectCbReturns(env) =>
      var delay := if s.holder.expected then EXPECTED_DISCONNECT_COOLDOWN else 0.0;
      ScheduleGates(s.(holder := Free), delay, env, false);
    case ErrorCbReturns(kind, env) =>
      var s1 := s.(tries := TriesAfter(s.tries, kind));
      ScheduleGates(s1, WaitTime(s1.tries) as real, env, false);
  }

  lemma EnterStartGates(s: State, env: Env)
    ensures var r := EnterStart(s, env);
            && r.listening == (s.listening || (r.history.attempts > s.history.attempts && env.zcUp))
            && r.acceptRecords == (s.acceptRecords || r.history.refused > s.history.refused || s.phase == Disconnected)
  {
    hide ScheduleConnect;
    ScheduleGates(PrepareStart(s.(stopped := false)), 0.0, env, false);
  }

  /** A waiter enters its critical section. */
  lemma GrantedGates(s: State, w: Waiter, env: Env)
    ensures var r := Granted(s, w, env);
            var begun := r.history.attempts > s.history.attempts;
            && r.listening == ((begun && env.zcUp) || (s.listening && w != StopWaiter))
            && r.acceptRecords ==
               (s.acceptRecords || r.history.refused > s.history.refused || w.DisconnectWaiter? ||
                (w == StartWaiter && s.phase == Disconnected))
  {
    hide EnterAttempt, EnterStart, EnterStop, CancelWaiters;
    match w
    case ConnectWaiter(t, _) => EnterAttemptGates(s, t, env);
    case StartWaiter => EnterStartGates(s, env);
    case StopWaiter => StopLeaves(s);
    case DisconnectWaiter(_) =>
  }

  lemma AcquireGates(s: State, w: Waiter, env: Env)
    ensures var r := Acquire(s, w, env);
            var begun := r.history.attempts > s.history.attempts;
            && r.listening == ((begun && env.zcUp) || (s.listening && !(w == StopWaiter && CanTakeLock(s, env))))
            && r.acceptRecords ==
               (s.acceptRecords || r.history.refused > s.history.refused ||
                (CanTakeLock(s, env) && (w.DisconnectWaiter? || (w == StartWaiter && s.phase == Disconnected))))
  {
    hide Granted, CanTakeLock;
    GrantedGates(s, w, env);
  }

  lemma StopPrologueGates(s: State)
    ensures var r := StopPrologue(s);
            r.listening == s.listening && r.acceptRecords == s.acceptRecords && r.history == s.history
  {
  }

  lemma LockingGates(s: State, a: Action)
    requires Enabled(s, a) && (a.CallStart? || a.CallStop? || a.SessionDrops? || a.LockGranted?)
    ensures GateMoves(s, a, Step(s, a)) && ListenerMoves(s, a, Step(s, a))
  {
    hide Acquire, Granted, StopPrologue, AllCancelled;
    match a
    case CallStart(env) => AcquireGates(s, StartWaiter, env);
    case CallStop(env) =>
      StopPrologueGates(s);
      AcquireGates(StopPrologue(s), StopWaiter, env);
    case SessionDrops(expected, env) => AcquireGates(s.(slot := Empty), DisconnectWaiter(expected), env);
    case LockGranted(env) => GrantedGates(s.(queue := s.queue[1..]), s.queue[0], env);
  }

  lemma OwnStepGates(s: State, a: Action)
    requires Inv(s) && Enabled(s, a)
    requires
      || a.AttemptAdvances? || a.AttemptFails? || a.AttemptCancelled? || a.ReadyCbReturns? || a.EagerYields?
      || a.CancelledWaiterLeaves? || a.ConnectionInterrupted?
    ensures GateMoves(s, a, Step(s, a)) && ListenerMoves(s, a, Step(s, a))
  {
    hide NoneLive, OneLive, QueueIds, OnlyTaskLive, Ids, Tasks, PhaseOwned, ReadyIsLive, Quiet, Covered;
  }

  /**
   Every step.  The gate opens when an attempt has failed, a session has ended or `start` has run, and closes
   with the task that a record creates.  The listener starts with an attempt, if it can, and ends with a
   connected socket, a `stop` or the record it waited for.
   */
  lemma GateAndListener(s: State, a: Action)
    requires Inv(s) && Enabled(s, a)
    ensures GateMoves(s, a, Step(s, a)) && ListenerMoves(s, a, Step(s, a))
  {
    hide Inv, Step, GateMoves, ListenerMoves;
    if a.TimerFires? || a.MdnsRecord? || a.DisconnectCbReturns? || a.ErrorCbReturns? {
      SchedulingGates(s, a);
    } else if a.CallStart? || a.CallStop? || a.SessionDrops? || a.LockGranted? {
      LockingGates(s, a);
    } else {
      OwnStepGates(s, a);
    }
  }

  predicate NeverReopens(s: State, run: seq<Action>)
    requires IsRun(s, run)
    decreases |run|
  {
    run == [] || (!Reopens(s, run[0], Step(s, run[0])) && NeverReopens(Step(s, run[0]), run[1..]))
  }

  /**
   Over runs: once the gate is closed, no record is let in before an attempt fails, a session ends or `start`
   runs.
   */
  lemma {:induction false} OneRecordAtATime(s: State, run: seq<Action>)
    requires Reachable(s) && !s.acceptRecords && IsRun(s, run) && NeverReopens(s, run)
    ensures forall i | 0 <= i < |run| :: !run[i].MdnsRecord?
    decreases |run|
  {
    if run != [] {
      ReachableKeeps(s);
      GateAndListener(s, run[0]);
      ReachableStep(s, run[0]);
      hide Reachable, Step, Reopens;
      OneRecordAtATime(Step(s, run[0]), run[1..]);
      assert forall i | 1 <= i < |run| :: run[i] == run[1..][i - 1];
    }
  }
}
