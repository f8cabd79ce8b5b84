/** What holds of every run of the reconnect logic. */
module ReconnectTheorems {
  import opened Wrappers
  import opened ReconnectModel
  import opened ReconnectProofs
  import opened ReconnectSlot

  lemma {:induction false} RunKeeps(s: State, run: seq<Action>)
    requires Inv(s) && SlotInv(s) && IsRun(s, run)
    ensures Inv(RunFrom(s, run)) && SlotInv(RunFrom(s, run))
    decreases |run|
  {
    if run != [] {
      StepKeeps(s, run[0]);
      StepKeepsSlot(s, run[0]);
      RunKeeps(Step(s, run[0]), run[1..]);
    }
  }

  lemma ReachableKeeps(s: State)
    requires Reachable(s)
    ensures Inv(s) && SlotInv(s)
  {
    var run :| IsRun(INITIAL, run) && RunFrom(INITIAL, run) == s;
    InitialInv();
    RunKeeps(INITIAL, run);
  }

  lemma {:induction false} RunExtends(s: State, run: seq<Action>, a: Action)
    requires IsRun(s, run) && Enabled(RunFrom(s, run), a)
    ensures IsRun(s, run + [a]) && RunFrom(s, run + [a]) == Step(RunFrom(s, run), a)
    decreases |run|
  {
    if run == [] {
      assert (run + [a])[1..] == [];
    } else {
      assert (run + [a])[1..] == run[1..] + [a];
      RunExtends(Step(s, run[0]), run[1..], a);
    }
  }

  lemma ReachableStep(s: State, a: Action)
    requires Reachable(s) && Enabled(s, a)
    ensures Reachable(Step(s, a))
  {
    var run :| IsRun(INITIAL, run) && RunFrom(INITIAL, run) == s;
    RunExtends(INITIAL, run, a);
  }

  /**
   No lost reconnect.  When the logic is neither stopped nor stopping, DISCONNECTED means that a
   timer is armed, a connect task that nobody cancelled waits for the lock or holds it, or a
   disconnect is still on its way to scheduling one.
   */
  lemma NoLostReconnect(s: State)
    requires Reachable(s)
    requires !s.stopped && s.phase == Disconnected
    requires forall i | 0 <= i < |s.queue| :: s.queue[i] != StopWaiter
    ensures
      || s.armed != map[]
      || (exists i | 0 <= i < |s.queue| :: IsLiveConnect(s.queue[i]))
      || (s.holder.Attempt? && !s.holder.cancelled)
      || s.holder.Disconnecting?
      || (exists i | 0 <= i < |s.queue| :: s.queue[i].DisconnectWaiter?)
  {
    ReachableKeeps(s);
  }

  /** The other phases are never orphaned either: an attempt, a `stop` or a session owns them. */
  lemma PhaseIsOwned(s: State)
    requires Reachable(s)
    requires forall i | 0 <= i < |s.queue| :: s.queue[i] != StopWaiter
    ensures s.phase == Resolving ==> s.holder.Attempt? && !s.holder.cancelled && s.holder.stage == InResolve
    ensures s.phase == Connecting ==> s.holder.Attempt? && !s.holder.cancelled && s.holder.stage == InConnect
    ensures s.phase == Handshaking ==> s.holder.Attempt? && !s.holder.cancelled && s.holder.stage == InHandshake
    ensures s.phase == Ready ==> s.slot == Live || exists i | 0 <= i < |s.queue| :: s.queue[i].DisconnectWaiter?
  {
    ReachableKeeps(s);
  }

  /** At most one timer is armed and at most one connect task is not cancelled. */
  lemma OneTimerOneTask(s: State)
    requires Reachable(s)
    ensures |s.armed| <= 1
    ensures forall i, j | 0 <= i < j < |s.queue| :: !(IsLiveConnect(s.queue[i]) && IsLiveConnect(s.queue[j]))
    ensures s.holder.Attempt? && !s.holder.cancelled ==> forall i | 0 <= i < |s.queue| :: !IsLiveConnect(s.queue[i])
  {
    ReachableKeeps(s);
    if s.armed != map[] {
      var i :| i in s.armed;
      assert s.armed.Keys == {i};
      assert |s.armed| == |s.armed.Keys|;
    }
  }

  // Phases

  predicate PhaseMove(p: Phase, q: Phase) {
    || q == p
    || q == Disconnected
    || (p == Disconnected && q == Resolving)
    || (p == Resolving && q == Connecting)
    || (p == Connecting && q == Handshaking)
    || (p == Handshaking && q == Ready)
  }

  /** The phase before the `i`-th write, and after all of them. */
  function PhaseAfter(writes: seq<Phase>, i: nat): Phase
    requires i <= |writes|
  {
    if i == 0 then Disconnected else writes[i - 1]
  }

  ghost predicate Chain(writes: seq<Phase>) {
    forall i | 0 <= i < |writes| :: PhaseMove(PhaseAfter(writes, i), writes[i])
  }

  ghost predicate Moves(s: State) {
    Chain(s.history.writes) && s.phase == PhaseAfter(s.history.writes, |s.history.writes|)
  }

  lemma WriteMoves(s: State, p: Phase)
    requires Moves(s) && PhaseMove(s.phase, p)
    ensures Moves(WritePhase(s, p))
  {
    var w := s.history.writes;
    var r := w + [p];
    forall i | 0 <= i < |r|
      ensures PhaseMove(PhaseAfter(r, i), r[i])
    {
      assert i < |w| ==> PhaseAfter(r, i) == PhaseAfter(w, i);
    }
  }

  /** Nothing was written. */
  predicate SamePhases(s: State, r: State) {
    r.phase == s.phase && r.history.writes == s.history.writes
  }

  lemma EnterAttemptMoves(s: State, t: nat, env: Env)
    requires Moves(s)
    ensures Moves(EnterAttempt(s, t, env))
  {
    if s.phase == Disconnected && !s.stopped {
      hide Moves;
      var s0 := CountAttempt(s).(listening := s.listening || env.zcUp);
      SamePhasesMove(s, s0);
      WriteMoves(s0, Resolving);
      var s1 := WritePhase(s0, Resolving);
      SamePhasesMove(s1, CountRefusal(s1));
      WriteMoves(CountRefusal(s1), Disconnected);
      SamePhasesMove(s1, EnterAttempt(s, t, env));
      SamePhasesMove(WritePhase(CountRefusal(s1), Disconnected), EnterAttempt(s, t, env));
    }
  }

  lemma SamePhasesMove(s: State, r: State)
    ensures Moves(s) && SamePhases(s, r) ==> Moves(r)
  {
  }

  lemma SpawnConnectMoves(s: State, env: Env, fromMdns: bool)
    requires Moves(s)
    ensures Moves(SpawnConnect(s, env, fromMdns))
  {
    hide Moves, EnterAttempt, CanTakeLock;
    var s1 := s.(nextId := s.nextId + 1);
    var r := SpawnConnect(s, env, fromMdns);
    SamePhasesMove(s, s1);
    EnterAttemptMoves(s1, s.nextId, env);
    SamePhasesMove(EnterAttempt(s1, s.nextId, env), r);
    SamePhasesMove(s, r);
  }

  lemma CallConnectOnceMoves(s: State, env: Env, fromMdns: bool)
    requires Moves(s)
    ensures Moves(CallConnectOnce(s, env, fromMdns))
  {
    hide Moves, SpawnConnect, CancelWaiters, CancelHolder, Unfinished;
    SpawnConnectMoves(s, env, fromMdns);
    SamePhasesMove(s, CancelTask(s));
    WriteMoves(CancelTask(s), Disconnected);
    SpawnConnectMoves(WritePhase(CancelTask(s), Disconnected), env, fromMdns);
    SamePhasesMove(s, CallConnectOnce(s, env, fromMdns));
  }

  lemma ScheduleConnectMoves(s: State, delay: real, env: Env, fromMdns: bool)
    requires Moves(s)
    ensures Moves(ScheduleConnect(s, delay, env, fromMdns))
  {
    hide Moves, CallConnectOnce;
    SamePhasesMove(s, CancelTimer(s));
    SamePhasesMove(s, ArmTimer(CancelTimer(s), delay));
    CallConnectOnceMoves(CancelTimer(s), env, fromMdns);
  }

  lemma EnterStartMoves(s: State, env: Env)
    requires Moves(s)
    ensures Moves(EnterStart(s, env))
  {
    hide Moves, ScheduleConnect;
    var h := s.history.(restartedLive := s.history.restartedLive || s.slot == Live);
    var s2 := s.(stopped := false, tries := 0, acceptRecords := true, holder := Starting, history := h);
    SamePhasesMove(s, s2);
    ScheduleConnectMoves(s2, 0.0, env, false);
    SamePhasesMove(ScheduleConnect(s2, 0.0, env, false), EnterStart(s, env));
    SamePhasesMove(s, EnterStart(s, env));
  }

  /** Writing DISCONNECTED is always a move; the rest of the step may touch anything but the phase. */
  lemma DisconnectedMoves(s: State, s1: State, r: State)
    requires Moves(s) && SamePhases(s, s1) && SamePhases(WritePhase(s1, Disconnected), r)
    ensures Moves(r)
  {
    hide Moves;
    SamePhasesMove(s, s1);
    WriteMoves(s1, Disconnected);
    SamePhasesMove(WritePhase(s1, Disconnected), r);
  }

  lemma CancelConnectSamePhases(s: State)
    ensures SamePhases(s, CancelConnect(s))
  {
  }

  lemma GrantedMoves(s: State, w: Waiter, env: Env)
    requires Moves(s)
    ensures Moves(Granted(s, w, env))
  {
    hide Moves, EnterAttempt, EnterStart, CancelConnect;
    match w
    case ConnectWaiter(t, _) => EnterAttemptMoves(s, t, env);
    case StartWaiter => EnterStartMoves(s, env);
    case StopWaiter =>
      CancelConnectSamePhases(s.(stopped := true));
      DisconnectedMoves(s, CancelConnect(s.(stopped := true)), EnterStop(s));
    case DisconnectWaiter(expected) => DisconnectedMoves(s, s, EnterDisconnect(s, expected));
  }

  lemma AcquireMoves(s: State, w: Waiter, env: Env)
    requires Moves(s)
    ensures Moves(Acquire(s, w, env))
  {
    hide Moves, Granted, CanTakeLock;
    GrantedMoves(s, w, env);
    SamePhasesMove(s, Acquire(s, w, env));
  }

  lemma AdvanceMoves(s: State)
    requires Moves(s) && Inv(s) && Enabled(s, AttemptAdvances)
    ensures Moves(Advance(s))
  {
    hide Moves;
    if s.holder.stage == InResolve {
      WriteMoves(s, Connecting);
      SamePhasesMove(WritePhase(s, Connecting), Advance(s));
    } else if s.holder.stage == InConnect {
      WriteMoves(s, Handshaking);
      SamePhasesMove(WritePhase(s, Handshaking), Advance(s));
    } else {
      WriteMoves(s, Ready);
      SamePhasesMove(WritePhase(s, Ready), Advance(s));
    }
  }

  /** The steps that schedule a connect. */
  lemma SchedulingMoves(s: State, a: Action)
    requires Moves(s) && Enabled(s, a)
    requires a.TimerFires? || a.MdnsRecord? || a.ErrorCbReturns? || a.DisconnectCbReturns?
    ensures Moves(Step(s, a))
  {
    hide Moves, CallConnectOnce, ScheduleConnect, WaitTime;
    match a
    case TimerFires(timer, env) =>
      SamePhasesMove(s, s.(armed := s.armed - {timer}));
      CallConnectOnceMoves(s.(armed := s.armed - {timer}), env, false);
    case MdnsRecord(env) =>
      SamePhasesMove(s, s.(listening := false));
      ScheduleConnectMoves(s.(listening := false), 0.0, env, true);
    case ErrorCbReturns(kind, env) => FailedAttemptMoves(s, kind, env);
    case DisconnectCbReturns(env) =>
      var s1 := s.(holder := Free);
      var delay := if s.holder.expected then EXPECTED_DISCONNECT_COOLDOWN else 0.0;
      SamePhasesMove(s, s1);
      ScheduleConnectMoves(s1, delay, env, false);
  }

  lemma FailedAttemptMoves(s: State, kind: ErrorKind, env: Env)
    requires Moves(s)
    ensures Moves(LeaveFailedAttempt(s, kind, env))
  {
    hide Moves, ScheduleConnect, WaitTime;
    var s1 := s.(tries := TriesAfter(s.tries, kind));
    SamePhasesMove(s, s1);
    ScheduleConnectMoves(s1, WaitTime(s1.tries) as real, env, false);
    SamePhasesMove(ScheduleConnect(s1, WaitTime(s1.tries) as real, env, false), LeaveFailedAttempt(s, kind, env));
  }

  /** The steps that may take the lock. */
  lemma LockingMoves(s: State, a: Action)
    requires Moves(s) && Enabled(s, a)
    requires a.CallStart? || a.CallStop? || a.SessionDrops? || a.LockGranted?
    ensures Moves(Step(s, a))
  {
    hide Moves, Granted, Acquire, CancelConnect;
    match a
    case CallStart(env) => AcquireMoves(s, StartWaiter, env);
    case CallStop(env) =>
      CancelConnectSamePhases(s);
      SamePhasesMove(s, StopPrologue(s));
      AcquireMoves(StopPrologue(s), StopWaiter, env);
    case SessionDrops(expected, env) =>
      SamePhasesMove(s, s.(slot := Empty));
      AcquireMoves(s.(slot := Empty), DisconnectWaiter(expected), env);
    case LockGranted(env) =>
      SamePhasesMove(s, s.(queue := s.queue[1..]));
      GrantedMoves(s.(queue := s.queue[1..]), s.queue[0], env);
  }

  lemma StepMoves(s: State, a: Action)
    requires Moves(s) && Inv(s) && Enabled(s, a)
    ensures Moves(Step(s, a))
  {
    hide Moves, Inv, Granted, Acquire, CallConnectOnce, ScheduleConnect, LeaveFailedAttempt, LeaveDisconnect, Advance,
         StopPrologue;
    if a.TimerFires? || a.MdnsRecord? || a.ErrorCbReturns? || a.DisconnectCbReturns? {
      SchedulingMoves(s, a);
    } else if a.CallStart? || a.CallStop? || a.SessionDrops? || a.LockGranted? {
      LockingMoves(s, a);
    } else if a.AttemptAdvances? {
      AdvanceMoves(s);
    } else if a.AttemptFails? {
      DisconnectedMoves(s, s.(slot := Empty), Step(s, a));
    } else {
      SamePhasesMove(s, Step(s, a));
    }
  }

  lemma {:induction false} RunMoves(s: State, run: seq<Action>)
    requires Moves(s) && Inv(s) && SlotInv(s) && IsRun(s, run)
    ensures Moves(RunFrom(s, run))
    decreases |run|
  {
    if run != [] {
      StepMoves(s, run[0]);
      StepKeeps(s, run[0]);
      StepKeepsSlot(s, run[0]);
      RunMoves(Step(s, run[0]), run[1..]);
    }
  }

  /**
   On every run, each write of the phase moves it one place along the connect sequence, or back to
   DISCONNECTED, or nowhere; the phase is the one written last.
   */
  lemma PhasesMoveForward(s: State)
    requires Reachable(s)
    ensures forall i | 0 <= i < |s.history.writes| ::
              PhaseMove(PhaseAfter(s.history.writes, i), s.history.writes[i])
    ensures s.phase == PhaseAfter(s.history.writes, |s.history.writes|)
  {
    var run :| IsRun(INITIAL, run) && RunFrom(INITIAL, run) == s;
    InitialInv();
    RunMoves(INITIAL, run);
  }

  // Attempts

  predicate HasAttempt(s: State) {
    (s.holder.Attempt? && !s.holder.cancelled) || exists i | 0 <= i < |s.queue| :: IsLiveConnect(s.queue[i])
  }

  /**
   What a call of `_call_connect_once` achieves.  An attempt that is running or queued and far enough
   along is left alone; one that is still connecting without a socket is cancelled and replaced; and
   afterwards some attempt is running or queued, unless the logic was not DISCONNECTED to begin with.
   */
  lemma CallLeavesAnAttempt(s: State, env: Env, fromMdns: bool)
    requires Core(s) && !s.stopped && s.eager.None?
    ensures var r := CallConnectOnce(s, env, fromMdns);
            && (HasAttempt(r) || (s.phase != Disconnected && r.phase == s.phase && s.holder == r.holder == Free))
            && (HasAttempt(s) && (s.phase != Connecting || env.connected) ==>
                  r == s.(acceptRecords := r.acceptRecords))
            && (HasAttempt(s) && s.phase == Connecting && !env.connected && s.holder.Attempt? ==>
                  r.holder == s.holder.(cancelled := true) && r.phase == Disconnected)
  {
    if s.connectTask.Some? && Unfinished(s, s.connectTask.value) {
      TaskIsAttempt(s);
      if s.phase == Connecting && !env.connected {
        CancelTaskKeeps(s);
        SpawnLeavesAnAttempt(WritePhase(CancelTask(s), Disconnected), env, fromMdns);
      }
    } else {
      NoTaskNoAttempt(s);
      SpawnLeavesAnAttempt(s, env, fromMdns);
    }
  }

  lemma TaskIsAttempt(s: State)
    requires Core(s) && s.eager.None? && s.connectTask.Some? && Unfinished(s, s.connectTask.value)
    ensures HasAttempt(s)
    ensures s.holder.Attempt? && !s.holder.cancelled ==> s.holder.id == s.connectTask.value
  {
  }

  lemma NoTaskNoAttempt(s: State)
    requires Core(s) && s.eager.None? && (s.connectTask.Some? ==> !Unfinished(s, s.connectTask.value))
    ensures !HasAttempt(s)
  {
  }

  lemma SpawnLeavesAnAttempt(s: State, env: Env, fromMdns: bool)
    requires !s.stopped
    ensures var r := SpawnConnect(s, env, fromMdns);
            && (HasAttempt(r) || (s.phase != Disconnected && s.holder == r.holder == Free && r.phase == s.phase))
            && (s.holder != Free ==> r.holder == s.holder && r.phase == s.phase)
  {
    var q := s.queue + [ConnectWaiter(s.nextId, false)];
    assert IsLiveConnect(q[|s.queue|]);
  }

  /** The steps of the attempt that holds the lock. */
  predicate AttemptStep(a: Action) {
    a.AttemptAdvances? || a.AttemptFails? || a.AttemptCancelled? || a.ErrorCbReturns? || a.ReadyCbReturns?
  }

  /**
   A cancelled attempt ends without writing the phase, unless it fails.  It can fail exactly if its
   connection was interrupted as well: then it writes DISCONNECTED, which either is the phase already or is
   what a waiting `stop` is about to write.
   */
  lemma CancelledAttemptIsSilent(s: State, a: Action)
    requires Reachable(s) && Enabled(s, a) && AttemptStep(a)
    requires s.holder.Attempt? && s.holder.cancelled
    ensures Step(s, a).history.writes == s.history.writes + if a.AttemptFails? then [Disconnected] else []
    ensures a.AttemptFails? ==> s.holder.interrupted && InClientCall(s.holder)
    ensures Enabled(s, AttemptFails) <==> s.holder.interrupted && InClientCall(s.holder)
    ensures a.AttemptFails? && s.phase != Disconnected ==> StopWaiter in s.queue
    ensures !a.AttemptFails? ==> Step(s, a).phase == s.phase && Step(s, a).holder == Free
  {
    ReachableKeeps(s);
    hide Reachable, ScheduleConnect, WaitTime, NoneLive, OneLive, QueueIds, OnlyTaskLive;
    if a.ErrorCbReturns? {
      BackingOffIsSilent(s.(tries := TriesAfter(s.tries, a.kind)), a.env);
    }
  }

  lemma BackingOffIsSilent(s: State, env: Env)
    ensures SamePhases(s, ScheduleConnect(s, WaitTime(s.tries) as real, env, false))
  {
    WaitTimeInRange(s.tries);
  }

  /** The steps that run `start`'s critical section. */
  predicate RunsStart(s: State, a: Action) {
    || (a.CallStart? && CanTakeLock(s, a.env))
    || (a.LockGranted? && s.queue != [] && s.queue[0] == StartWaiter)
  }

  predicate NoStart(s: State, run: seq<Action>)
    requires IsRun(s, run)
    decreases |run|
  {
    run == [] || (!RunsStart(s, run[0]) && NoStart(Step(s, run[0]), run[1..]))
  }

  predicate StaysStopped(s: State, r: State) {
    r.stopped && r.history.attempts == s.history.attempts
  }

  lemma StoppedGrant(s: State, w: Waiter, env: Env)
    requires s.stopped && w != StartWaiter
    ensures StaysStopped(s, Granted(s, w, env))
  {
    hide TryConnect, EnterStart, CancelWaiters;
  }

  lemma StoppedAcquire(s: State, w: Waiter, env: Env)
    requires s.stopped && (w != StartWaiter || !CanTakeLock(s, env))
    ensures StaysStopped(s, Acquire(s, w, env))
  {
    hide Granted, CanTakeLock;
    if CanTakeLock(s, env) {
      StoppedGrant(s, w, env);
    }
  }

  lemma StoppedPrologue(s: State)
    requires s.stopped
    ensures StaysStopped(s, StopPrologue(s))
  {
    hide CancelWaiters;
  }

  lemma StoppedLocking(s: State, a: Action)
    requires s.stopped && Enabled(s, a) && !RunsStart(s, a)
    requires a.CallStart? || a.CallStop? || a.SessionDrops? || a.LockGranted?
    ensures Step(s, a).stopped && Step(s, a).history.attempts == s.history.attempts
  {
    hide Acquire, Granted, StopPrologue, CanTakeLock;
    match a
    case CallStart(env) => StoppedAcquire(s, StartWaiter, env);
    case CallStop(env) =>
      StoppedPrologue(s);
      StoppedAcquire(StopPrologue(s), StopWaiter, env);
    case SessionDrops(expected, env) => StoppedAcquire(s.(slot := Empty), DisconnectWaiter(expected), env);
    case LockGranted(env) => StoppedGrant(s.(queue := s.queue[1..]), s.queue[0], env);
  }

  lemma StoppedStep(s: State, a: Action)
    requires Inv(s) && s.stopped && Enabled(s, a) && !RunsStart(s, a)
    ensures Step(s, a).stopped && Step(s, a).history.attempts == s.history.attempts
  {
    if a.CallStart? || a.CallStop? || a.SessionDrops? || a.LockGranted? {
      StoppedLocking(s, a);
      return;
    }
    hide ScheduleConnect, CallConnectOnce, EnterStart, CancelWaiters, WaitTime, TryConnect, NoneLive, Ids, Tasks,
         HolderFits, PhaseOwned, ReadyIsLive, Covered;
  }

  /** From the moment `stop` has set its flag until the next `start`: no attempt, no timer. */
  lemma {:induction false} Quiescence(s: State, run: seq<Action>)
    requires Reachable(s) && s.stopped && IsRun(s, run) && NoStart(s, run)
    ensures var t := RunFrom(s, run);
            t.stopped && t.armed == map[] && t.phase == Disconnected && t.slot != Attempting &&
            t.history.attempts == s.history.attempts
    decreases |run|
  {
    ReachableKeeps(s);
    if run != [] {
      StoppedStep(s, run[0]);
      ReachableStep(s, run[0]);
      Quiescence(Step(s, run[0]), run[1..]);
    }
  }

  /** "Already connected" needs a `start` over a session that `stop` left alive. */
  lemma NeverRefused(s: State)
    requires Reachable(s) && !s.history.restartedLive
    ensures s.history.refused == 0
  {
    ReachableKeeps(s);
  }

  /** An attempt that begins is counted, and refused exactly when the client still has a live session. */
  ghost predicate Accounts(s: State, r: State) {
    if r.history.attempts == s.history.attempts then
      r.slot == s.slot && r.history.refused == s.history.refused
    else
      && r.history.attempts == s.history.attempts + 1
      && r.history.refused == s.history.refused + (if s.slot == Live then 1 else 0)
      && r.slot == (if s.slot == Empty then Attempting else s.slot)
  }

  /** `_connection` is set by an attempt only while that attempt is inside the client. */
  predicate SlotFits(s: State) {
    s.slot == Attempting ==> InClientCall(s.holder)
  }

  lemma SpawnAccounts(s: State, env: Env, fromMdns: bool)
    requires SlotFits(s)
    ensures Accounts(s, SpawnConnect(s, env, fromMdns))
  {
  }

  lemma CallConnectOnceAccounts(s: State, env: Env, fromMdns: bool)
    requires SlotFits(s)
    ensures Accounts(s, CallConnectOnce(s, env, fromMdns))
  {
    hide SpawnConnect, Unfinished, CancelWaiters;
    SpawnAccounts(s, env, fromMdns);
    SpawnAccounts(WritePhase(CancelTask(s), Disconnected), env, fromMdns);
  }

  lemma ScheduleConnectAccounts(s: State, delay: real, env: Env, fromMdns: bool)
    requires SlotFits(s)
    ensures Accounts(s, ScheduleConnect(s, delay, env, fromMdns))
  {
    hide CallConnectOnce;
    CallConnectOnceAccounts(CancelTimer(s), env, fromMdns);
  }

  lemma EnterStartAccounts(s: State, env: Env)
    requires s.slot != Attempting
    ensures Accounts(s, EnterStart(s, env))
  {
    hide ScheduleConnect;
    var h := s.history.(restartedLive := s.history.restartedLive || s.slot == Live);
    var s2 := s.(stopped := false, tries := 0, acceptRecords := true, holder := Starting, history := h);
    ScheduleConnectAccounts(s2, 0.0, env, false);
  }

  lemma GrantedAccounts(s: State, w: Waiter, env: Env)
    requires s.slot != Attempting
    ensures Accounts(s, Granted(s, w, env))
  {
    hide EnterStart, CancelWaiters;
    EnterStartAccounts(s, env);
  }

  lemma AcquireAccounts(s: State, w: Waiter, env: Env)
    requires SlotFits(s)
    ensures Accounts(s, Acquire(s, w, env))
  {
    hide Granted;
    if CanTakeLock(s, env) {
      GrantedAccounts(s, w, env);
    }
  }

  lemma SameAccounts(s: State, s1: State, r: State)
    requires s1.slot == s.slot && s1.history == s.history
    ensures Accounts(s1, r) ==> Accounts(s, r)
    ensures Accounts(s, s1)
  {
  }

  /** The steps that call `_schedule_connect` or `_call_connect_once` directly. */
  lemma SchedulingAccounts(s: State, a: Action)
    requires SlotFits(s) && Enabled(s, a)
    requires a.TimerFires? || a.MdnsRecord? || a.DisconnectCbReturns?
    ensures Accounts(s, Step(s, a))
  {
    hide Accounts, CallConnectOnce, ScheduleConnect;
    match a
    case TimerFires(timer, env) =>
      var s1 := s.(armed := s.armed - {timer});
      CallConnectOnceAccounts(s1, env, false);
      SameAccounts(s, s1, CallConnectOnce(s1, env, false));
    case MdnsRecord(env) =>
      var s1 := s.(listening := false);
      ScheduleConnectAccounts(s1, 0.0, env, true);
      SameAccounts(s, s1, ScheduleConnect(s1, 0.0, env, true));
    case DisconnectCbReturns(env) =>
      var s1 := s.(holder := Free);
      var delay := if s.holder.expected then EXPECTED_DISCONNECT_COOLDOWN else 0.0;
      ScheduleConnectAccounts(s1, delay, env, false);
      SameAccounts(s, s1, ScheduleConnect(s1, delay, env, false));
      SameAccounts(s, s1, s1);
  }

  /** The steps that ask for the lock or are granted it. */
  lemma LockingAccounts(s: State, a: Action)
    requires SlotFits(s) && Enabled(s, a) && (a.CallStart? || a.CallStop? || a.LockGranted?)
    ensures Accounts(s, Step(s, a))
  {
    hide Accounts, Acquire, Granted, CancelWaiters;
    match a
    case CallStart(env) => AcquireAccounts(s, StartWaiter, env);
    case CallStop(env) =>
      var s1 := StopPrologue(s);
      AcquireAccounts(s1, StopWaiter, env);
      SameAccounts(s, s1, Acquire(s1, StopWaiter, env));
    case LockGranted(env) =>
      var s1 := s.(queue := s.queue[1..]);
      GrantedAccounts(s1, s.queue[0], env);
      SameAccounts(s, s1, Granted(s1, s.queue[0], env));
  }

  /** A session that ends empties the slot; no attempt begins in that step. */
  lemma SessionDropAccounts(s: State, expected: bool, env: Env)
    requires Enabled(s, SessionDrops(expected, env))
    ensures var r := Step(s, SessionDrops(expected, env));
            r.slot == Empty && r.history.attempts == s.history.attempts && r.history.refused == s.history.refused
  {
    hide CanTakeLock;
  }

  /** The steps of the attempt that holds the lock begin no other attempt. */
  lemma AttemptStepAccounts(s: State, a: Action)
    requires Inv(s) && Enabled(s, a) && AttemptStep(a)
    ensures var r := Step(s, a);
            && r.history.attempts == s.history.attempts && r.history.refused == s.history.refused
            && (s.slot != Attempting ==> r.slot == s.slot)
  {
    if a.ErrorCbReturns? {
      WaitTimeInRange(TriesAfter(s.tries, a.kind));
    }
    hide WaitTime, Ids, Tasks, PhaseOwned, ReadyIsLive, Quiet, Covered, CallConnectOnce;
  }

  /** What one step does to the counts and to a slot that no attempt is using. */
  lemma StepAccounts(s: State, a: Action)
    requires Inv(s) && Enabled(s, a)
    ensures var r := Step(s, a);
            && s.history.attempts <= r.history.attempts <= s.history.attempts + 1
            && r.history.refused ==
               s.history.refused + (if r.history.attempts > s.history.attempts && s.slot == Live then 1 else 0)
            && (r.history.attempts == s.history.attempts && s.slot != Attempting ==>
                  r.slot == if a.SessionDrops? then Empty else s.slot)
  {
    assert SlotFits(s);
    hide Inv, SlotFits, Acquire, Granted, CallConnectOnce, ScheduleConnect, LeaveFailedAttempt, LeaveDisconnect,
         Advance, StopPrologue;
    if AttemptStep(a) {
      AttemptStepAccounts(s, a);
    } else if a.SessionDrops? {
      SessionDropAccounts(s, a.expected, a.env);
    } else if a.TimerFires? || a.MdnsRecord? || a.DisconnectCbReturns? {
      SchedulingAccounts(s, a);
    } else if a.CallStart? || a.CallStop? || a.LockGranted? {
      LockingAccounts(s, a);
    }
  }

  /** "Already connected", exactly: an attempt is refused if and only if it begins over a live session. */
  lemma RefusedExactly(s: State, a: Action)
    requires Reachable(s) && Enabled(s, a)
    ensures Step(s, a).history.refused > s.history.refused <==>
            Step(s, a).history.attempts > s.history.attempts && s.slot == Live
  {
    ReachableKeeps(s);
    StepAccounts(s, a);
  }

  predicate DropsSession(run: seq<Action>) {
    exists i | 0 <= i < |run| :: run[i].SessionDrops?
  }

  lemma {:induction false} SlotUntilAttempt(s: State, run: seq<Action>)
    requires Inv(s) && s.slot != Attempting && IsRun(s, run)
    ensures RunFrom(s, run).history.attempts >= s.history.attempts
    ensures RunFrom(s, run).history.attempts == s.history.attempts ==>
              && RunFrom(s, run).slot == (if DropsSession(run) then Empty else s.slot)
              && RunFrom(s, run).history.refused == s.history.refused
    decreases |run|
  {
    if run != [] {
      var d := Step(s, run[0]);
      StepAccounts(s, run[0]);
      StepKeeps(s, run[0]);
      if d.slot != Attempting {
        SlotUntilAttempt(d, run[1..]);
        DropsFirstOrLater(run);
      } else {
        AttemptsOnlyGrow(d, run[1..]);
      }
    }
  }

  lemma DropsFirstOrLater(run: seq<Action>)
    requires run != []
    ensures DropsSession(run) <==> run[0].SessionDrops? || DropsSession(run[1..])
  {
    if DropsSession(run[1..]) {
      var i :| 0 <= i < |run[1..]| && run[1..][i].SessionDrops?;
      assert run[i + 1].SessionDrops?;
    }
    if DropsSession(run) && !run[0].SessionDrops? {
      var i :| 0 <= i < |run| && run[i].SessionDrops?;
      assert run[1..][i - 1].SessionDrops?;
    }
  }

  lemma {:induction false} AttemptsOnlyGrow(s: State, run: seq<Action>)
    requires Inv(s) && IsRun(s, run)
    ensures RunFrom(s, run).history.attempts >= s.history.attempts
    decreases |run|
  {
    if run != [] {
      StepAccounts(s, run[0]);
      StepKeeps(s, run[0]);
      AttemptsOnlyGrow(Step(s, run[0]), run[1..]);
    }
  }

  /**
   Over runs: from a live session on (after a `start` over it, say), the next attempt, whenever it comes,
   is refused if and only if the session has not dropped before.
   */
  lemma NextAttemptRefused(s: State, run: seq<Action>, a: Action)
    requires Reachable(s) && s.slot == Live && IsRun(s, run)
    requires RunFrom(s, run).history.attempts == s.history.attempts
    requires Enabled(RunFrom(s, run), a) && Step(RunFrom(s, run), a).history.attempts > s.history.attempts
    ensures Step(RunFrom(s, run), a).history.refused ==
            s.history.refused + if DropsSession(run) then 0 else 1
  {
    ReachableKeeps(s);
    SlotUntilAttempt(s, run);
    RunKeeps(s, run);
    StepAccounts(RunFrom(s, run), a);
  }

  const CALM := Env(false, false, true)

  // A run in which a restart over a live session ends in a refused attempt

  lemma FirstStart() returns (s: State)
    ensures Reachable(s)
    ensures s == INITIAL.(stopped := false, queue := [ConnectWaiter(0, false)], connectTask := Some(0), nextId := 1)
  {
    assert IsRun(INITIAL, []) && RunFrom(INITIAL, []) == INITIAL;
    ReachableStep(INITIAL, CallStart(CALM));
    s := Step(INITIAL, CallStart(CALM));
  }

  lemma FirstAttempt() returns (s: State)
    ensures Reachable(s)
    ensures s == INITIAL.(stopped := false, listening := true, connectTask := Some(0), nextId := 1,
                          phase := Connecting, slot := Attempting, holder := Attempt(0, false, InConnect, false),
                          history := History(1, 0, false, [Resolving, Connecting]))
  {
    var s1 := FirstStart();
    ReachableStep(s1, LockGranted(CALM));
    var s2 := Step(s1, LockGranted(CALM));
    assert s2.queue == [];
    ReachableStep(s2, AttemptAdvances);
    s := Advance(s2);
  }

  lemma FirstSession() returns (s: State)
    ensures Reachable(s)
    ensures s == INITIAL.(stopped := false, connectTask := Some(0), nextId := 1, phase := Ready, slot := Live,
                          history := History(1, 0, false, [Resolving, Connecting, Handshaking, Ready]))
  {
    var s3 := FirstAttempt();
    ReachableStep(s3, AttemptAdvances);
    var s4 := Advance(s3);
    ReachableStep(s4, AttemptAdvances);
    var s5 := Advance(s4);
    ReachableStep(s5, ReadyCbReturns);
    s := Step(s5, ReadyCbReturns);
  }

  lemma StoppedOverSession() returns (s: State)
    ensures Reachable(s)
    ensures s == INITIAL.(nextId := 1, slot := Live,
                          history := History(1, 0, false, [Resolving, Connecting, Handshaking, Ready, Disconnected]))
  {
    var s6 := FirstSession();
    ReachableStep(s6, CallStop(CALM));
    s := Step(s6, CallStop(CALM));
    assert s.queue == [];
  }

  /** `stop` and then `start` over a live session: the next attempt is refused. */
  lemma RestartOverLiveSessionIsRefused()
    ensures exists s :: Reachable(s) && s.history.restartedLive && s.history.refused == 1
  {
    var s7 := StoppedOverSession();
    ReachableStep(s7, CallStart(CALM));
    var s8 := Step(s7, CallStart(CALM));
    assert s8.queue == [ConnectWaiter(1, false)] && s8.history.restartedLive;
    ReachableStep(s8, LockGranted(CALM));
    var s9 := Step(s8, LockGranted(CALM));
    assert s9.history.refused == 1;
  }

  /**
   `stop` over a connecting attempt whose connection is interrupted as well: the cancelled attempt writes
   DISCONNECTED over CONNECTING while the `stop` waits for the lock.
   */
  lemma CancelledAttemptWrites()
    ensures exists s :: Reachable(s) && s.holder.Attempt? && s.holder.cancelled && Enabled(s, AttemptFails) &&
              s.phase == Connecting && s.queue == [StopWaiter] && Step(s, AttemptFails).phase == Disconnected
  {
    var s1 := FirstAttempt();
    ReachableStep(s1, CallStop(CALM));
    var s2 := Step(s1, CallStop(CALM));
    assert s2.queue == [StopWaiter] && s2.holder.cancelled && s2.phase == Connecting;
    ReachableStep(s2, ConnectionInterrupted);
    var s3 := Step(s2, ConnectionInterrupted);
    assert Enabled(s3, AttemptFails);
    assert Step(s3, AttemptFails).phase == Disconnected;
  }
}
