/**
 When the next attempt comes: at once, after the cooldown of an expected disconnect, or after a backoff that
 grows with the failures; and when an mDNS record may bring it forward.
 */
module ReconnectTiming {
  import opened Wrappers
  import opened ReconnectModel
  import opened ReconnectProofs
  import opened ReconnectSlot
  import opened ReconnectTheorems

  // What the synchronous pieces leave alone

  lemma SpawnKeepsTimers(s: State, env: Env, fromMdns: bool)
    ensures var r := SpawnConnect(s, env, fromMdns);
            r.armed == s.armed && r.tries == s.tries && r.stopped == s.stopped
  {
    hide TryConnect, CanTakeLock;
    EnterAttemptShape(s.(nextId := s.nextId + 1), s.nextId, env);
    hide EnterAttempt;
  }

  lemma CallKeepsTimers(s: State, env: Env, fromMdns: bool)
    ensures var r := CallConnectOnce(s, env, fromMdns);
            r.armed == s.armed && r.tries == s.tries && r.stopped == s.stopped
  {
    hide SpawnConnect, CancelWaiters, CancelHolder, Unfinished;
    SpawnKeepsTimers(s, env, fromMdns);
    SpawnKeepsTimers(WritePhase(CancelTask(s), Disconnected), env, fromMdns);
  }

  lemma ScheduleKeepsTries(s: State, delay: real, env: Env, fromMdns: bool)
    ensures var r := ScheduleConnect(s, delay, env, fromMdns); r.tries == s.tries && r.stopped == s.stopped
  {
    hide CallConnectOnce;
    CallKeepsTimers(CancelTimer(s), env, fromMdns);
  }

  /** An immediate schedule leaves no timer, and an attempt unless the logic was not DISCONNECTED. */
  lemma ScheduleNow(s: State, env: Env, fromMdns: bool)
    requires Core(s) && !s.stopped && s.eager.None?
    ensures var r := ScheduleConnect(s, 0.0, env, fromMdns);
            r.armed == map[] && (HasAttempt(r) || (s.phase != Disconnected && s.holder == Free))
  {
    hide CallConnectOnce, HasAttempt;
    CancelTimerKeeps(s);
    CallKeepsTimers(CancelTimer(s), env, fromMdns);
    CallLeavesAnAttempt(CancelTimer(s), env, fromMdns);
  }

  // After a disconnect

  /** A live session can end; that is processed at once, or waits for the lock, and either way its kind is kept. */
  lemma DropIsProcessed(s: State, expected: bool, env: Env)
    requires s.slot == Live && s.eager.None?
    ensures Enabled(s, SessionDrops(expected, env))
    ensures var r := Step(s, SessionDrops(expected, env));
            || (r.holder == Disconnecting(expected) && r.phase == Disconnected && r.queue == s.queue)
            || (r.queue == s.queue + [DisconnectWaiter(expected)] && r.holder == s.holder && r.phase == s.phase)
  {
  }

  lemma WaitingDropIsProcessed(s: State, env: Env)
    requires Enabled(s, LockGranted(env)) && s.queue[0].DisconnectWaiter?
    ensures var r := Step(s, LockGranted(env));
            r.holder == Disconnecting(s.queue[0].expected) && r.phase == Disconnected
  {
  }

  lemma FreedCore(s: State)
    requires Inv(s) && s.holder.Disconnecting?
    ensures Core(s.(holder := Free)) && s.phase == Disconnected
  {
    hide NoneLive, OneLive, QueueIds, OnlyTaskLive, HasStop, HasDisconnect, InQueue;
  }

  lemma CoolsDown(s: State, env: Env)
    requires Core(s) && !s.stopped
    ensures ScheduleConnect(s, EXPECTED_DISCONNECT_COOLDOWN, env, false) ==
            s.(armed := map[s.nextId := 5.0], timerHandle := Some(s.nextId), nextId := s.nextId + 1)
  {
    hide Core, ScheduleConnect;
    ScheduleConnectKeeps(s, 5.0, env, false);
  }

  /**
   After an unexpected disconnect an attempt begins or is queued at once.  After an expected one, a timer of
   five seconds is armed and nothing else happens.  A stopped logic does neither.
   */
  lemma DisconnectReconnects(s: State, env: Env)
    requires Reachable(s) && Enabled(s, DisconnectCbReturns(env))
    ensures var r := Step(s, DisconnectCbReturns(env));
            if s.stopped then r == s.(holder := Free)
            else if s.holder.expected then
              r == s.(holder := Free, armed := map[s.nextId := 5.0], timerHandle := Some(s.nextId),
                      nextId := s.nextId + 1)
            else r.armed == map[] && HasAttempt(r)
  {
    ReachableKeeps(s);
    FreedCore(s);
    hide Reachable, ScheduleConnect, HasAttempt, Core;
    if !s.stopped {
      if s.holder.expected {
        CoolsDown(s.(holder := Free), env);
      } else {
        ScheduleNow(s.(holder := Free), env, false);
      }
    }
  }

  // After a failed attempt

  /** The delays of the backoff. */
  function Backoff(failures: nat): real {
    match failures
    case 0 => 1.0
    case 1 => 2.0
    case 2 => 3.0
    case 3 => 6.0
    case 4 => 10.0
    case 5 => 19.0
    case 6 => 34.0
    case _ => 60.0
  }

  lemma SmallPowers()
    ensures Pow(1.8, 0) == 1.0 && Pow(1.8, 1) == 1.8 && Pow(1.8, 2) == 3.24 && Pow(1.8, 3) == 5.832
    ensures Pow(1.8, 4) == 10.4976 && Pow(1.8, 5) == 18.89568 && Pow(1.8, 6) == 34.012224
  {
    assert Pow(1.8, 1) == 1.8 * Pow(1.8, 0);
    assert Pow(1.8, 2) == 1.8 * Pow(1.8, 1);
    assert Pow(1.8, 3) == 1.8 * Pow(1.8, 2);
    assert Pow(1.8, 4) == 1.8 * Pow(1.8, 3);
    assert Pow(1.8, 5) == 1.8 * Pow(1.8, 4);
    assert Pow(1.8, 6) == 1.8 * Pow(1.8, 5);
  }

  lemma {:induction false} LargePowers(n: nat)
    requires n >= 7
    ensures Pow(1.8, n) > 60.0
  {
    if n == 7 {
      SmallPowers();
      assert Pow(1.8, 7) == 1.8 * Pow(1.8, 6);
    } else {
      LargePowers(n - 1);
    }
  }

  lemma BackoffIs(tries: nat)
    ensures WaitTime(tries) as real == Backoff(tries)
  {
    SmallPowers();
    hide Pow;
    if tries >= 7 {
      LargePowers(if tries < 10 then tries else 10);
    }
  }

  /**
   After a failed attempt a timer is armed, with the delay for so many failures in a row: one more than
   before, none if the next attempt goes without encryption, and far too many if the password was wrong.
   */
  lemma FailureBacksOff(s: State, kind: ErrorKind, env: Env)
    requires Reachable(s) && Enabled(s, ErrorCbReturns(kind, env))
    ensures var r := Step(s, ErrorCbReturns(kind, env));
            var failures := match kind case OtherError => s.tries + 1 case PlaintextFallback => 0 case AuthError => 100;
            && r == s.(holder := Free, armed := map[s.nextId := Backoff(failures)], timerHandle := Some(s.nextId),
                       nextId := s.nextId + 1, tries := failures)
            && (kind == AuthError ==> r.armed == map[s.nextId := 60.0])
  {
    ReachableKeeps(s);
    var tries := TriesAfter(s.tries, kind);
    BackoffIs(tries);
    WaitTimeInRange(tries);
    TriesKeepCore(s, tries);
    hide Reachable, Inv, Core, ScheduleConnect, WaitTime;
    ScheduleConnectKeeps(s.(tries := tries), WaitTime(tries) as real, env, false);
  }

  lemma TriesKeepCore(s: State, tries: nat)
    requires Inv(s)
    ensures Core(s.(tries := tries)) && (s.holder.Attempt? ==> !s.stopped)
  {
    hide NoneLive, OneLive, QueueIds, OnlyTaskLive, HasStop, HasDisconnect, InQueue;
  }

  /** What counts as a failure or a new beginning, in every step. */
  lemma TriesCount(s: State, a: Action)
    requires Inv(s) && Enabled(s, a)
    ensures Step(s, a).tries ==
            if a.ErrorCbReturns? then (match a.kind case OtherError => s.tries + 1 case PlaintextFallback => 0
                                                    case AuthError => 100)
            else if RunsStart(s, a) && s.phase == Disconnected then 0
            else if a.AttemptAdvances? && s.phase == Handshaking then 0
            else s.tries
  {
    hide Inv;
    if a.ErrorCbReturns? || a.DisconnectCbReturns? || a.TimerFires? || a.MdnsRecord? {
      SchedulingCounts(s, a);
    } else if a.CallStart? || a.CallStop? || a.SessionDrops? || a.LockGranted? {
      LockingCounts(s, a);
    } else if a.AttemptAdvances? {
      AdvanceCounts(s);
    } else {
      hide RunsStart;
    }
  }

  lemma SchedulingCounts(s: State, a: Action)
    requires Enabled(s, a) && (a.ErrorCbReturns? || a.DisconnectCbReturns? || a.TimerFires? || a.MdnsRecord?)
    ensures Step(s, a).tries ==
            if a.ErrorCbReturns? then (match a.kind case OtherError => s.tries + 1 case PlaintextFallback => 0
                                                    case AuthError => 100)
            else s.tries
  {
    hide ScheduleConnect, CallConnectOnce, WaitTime;
    match a
    case TimerFires(timer, env) => CallKeepsTimers(s.(armed := s.armed - {timer}), env, false);
    case MdnsRecord(env) => ScheduleKeepsTries(s.(listening := false), 0.0, env, true);
    case ErrorCbReturns(kind, env) =>
      var s1 := s.(tries := TriesAfter(s.tries, kind));
      ScheduleKeepsTries(s1, WaitTime(s1.tries) as real, env, false);
    case DisconnectCbReturns(env) =>
      var delay := if s.holder.expected then EXPECTED_DISCONNECT_COOLDOWN else 0.0;
      ScheduleKeepsTries(s.(holder := Free), delay, env, false);
  }

  lemma StartCounts(s: State, env: Env)
    ensures EnterStart(s, env).tries == if s.phase == Disconnected then 0 else s.tries
    ensures !EnterStart(s, env).stopped
  {
    hide ScheduleConnect;
    ScheduleKeepsTries(PrepareStart(s.(stopped := false)), 0.0, env, false);
  }

  lemma GrantedCounts(s: State, w: Waiter, env: Env)
    ensures Granted(s, w, env).tries == if w == StartWaiter && s.phase == Disconnected then 0 else s.tries
  {
    hide EnterStart, CancelWaiters;
    StartCounts(s, env);
  }

  lemma AcquireCounts(s: State, w: Waiter, env: Env)
    ensures Acquire(s, w, env).tries ==
            if CanTakeLock(s, env) && w == StartWaiter && s.phase == Disconnected then 0 else s.tries
  {
    hide Granted, CanTakeLock;
    GrantedCounts(s, w, env);
  }

  lemma LockingCounts(s: State, a: Action)
    requires Enabled(s, a) && (a.CallStart? || a.CallStop? || a.SessionDrops? || a.LockGranted?)
    ensures Step(s, a).tries == if RunsStart(s, a) && s.phase == Disconnected then 0 else s.tries
  {
    hide Acquire, Granted, CanTakeLock, CancelConnect;
    match a
    case CallStart(env) => AcquireCounts(s, StartWaiter, env);
    case CallStop(env) =>
      CancelConnectKeepsTries(s);
      AcquireCounts(StopPrologue(s), StopWaiter, env);
    case SessionDrops(expected, env) => AcquireCounts(s.(slot := Empty), DisconnectWaiter(expected), env);
    case LockGranted(env) => GrantedCounts(s.(queue := s.queue[1..]), s.queue[0], env);
  }

  lemma CancelConnectKeepsTries(s: State)
    ensures CancelConnect(s).tries == s.tries
  {
  }

  lemma AdvanceCounts(s: State)
    requires Inv(s) && Enabled(s, AttemptAdvances)
    ensures Advance(s).tries == if s.phase == Handshaking then 0 else s.tries
  {
  }

  /** Nothing starts the count again: no `start`, no success, no failure but ordinary ones. */
  predicate OnlyFails(s: State, run: seq<Action>)
    requires IsRun(s, run)
    decreases |run|
  {
    run == [] ||
    (!(RunsStart(s, run[0]) && s.phase == Disconnected) && !(run[0].AttemptAdvances? && s.phase == Handshaking) &&
     (run[0].ErrorCbReturns? ==> run[0].kind == OtherError) && OnlyFails(Step(s, run[0]), run[1..]))
  }

  function Failures(run: seq<Action>): nat {
    if run == [] then 0 else (if run[0].ErrorCbReturns? then 1 else 0) + Failures(run[1..])
  }

  lemma {:induction false} FailuresAddUp(s: State, run: seq<Action>)
    requires Inv(s) && IsRun(s, run) && OnlyFails(s, run)
    ensures RunFrom(s, run).tries == s.tries + Failures(run)
    decreases |run|
  {
    if run != [] {
      TriesCount(s, run[0]);
      StepKeeps(s, run[0]);
      hide Inv, Step, RunsStart;
      FailuresAddUp(Step(s, run[0]), run[1..]);
    }
  }

  /**
   Over runs: the timer after the `n`-th failure in a row waits 2, 3, 6, 10, 19, 34 and from then on 60 seconds,
   whatever else happens in between.
   */
  lemma BackoffGrows(s: State, run: seq<Action>, env: Env)
    requires Reachable(s) && s.tries == 0 && IsRun(s, run) && OnlyFails(s, run)
    requires Enabled(RunFrom(s, run), ErrorCbReturns(OtherError, env))
    ensures var d := RunFrom(s, run);
            Step(d, ErrorCbReturns(OtherError, env)).armed == map[d.nextId := Backoff(Failures(run) + 1)]
  {
    hide Reachable, Inv, SlotInv, OnlyFails, Failures, Backoff, LeaveFailedAttempt, Enabled;
    ReachableKeeps(s);
    FailuresAddUp(s, run);
    ReachableRun(s, run);
    FailureBacksOff(RunFrom(s, run), OtherError, env);
  }

  lemma {:induction false} ReachableRun(s: State, run: seq<Action>)
    requires Reachable(s) && IsRun(s, run)
    ensures Reachable(RunFrom(s, run))
    decreases |run|
  {
    hide Reachable;
    if run != [] {
      ReachableStep(s, run[0]);
      ReachableRun(Step(s, run[0]), run[1..]);
    }
  }
}
