/**
 The reconnect protocol of `ReconnectLogic` and the part of `APIClient` that owns `_connection`,
 as a step relation over values.

 One step is the code that runs between two awaits.  The asyncio lock is modelled with its holder
 and its FIFO queue of waiters; a task is either the holder, a waiter, or finished.  A task created
 while the lock is free runs at once (an eager task): until it suspends, `eager` is set and its
 creator has not yet assigned `_connect_task`.  User callbacks are arbitrary but return normally
 (or let a cancellation through), and they may call `start`, `stop` or drop the session.
 */
module ReconnectModel {
  import opened Wrappers

  const EXPECTED_DISCONNECT_COOLDOWN := 5.0
  const MAXIMUM_BACKOFF_TRIES := 100

  datatype Phase = Resolving | Connecting | Handshaking | Ready | Disconnected

  /** The await at which the attempt that holds the lock is suspended. */
  datatype Stage = InResolve | InConnect | InHandshake | InErrorCb | InReadyCb

  /** Who is inside `async with self._connected_lock`. */
  datatype Holder =
    | Free
    | Attempt(id: nat, cancelled: bool, stage: Stage, interrupted: bool)   // interrupted: its connection was cleaned up
    | Disconnecting(expected: bool)
    | Starting

  datatype Waiter =
    | ConnectWaiter(id: nat, cancelled: bool)
    | StartWaiter
    | StopWaiter
    | DisconnectWaiter(expected: bool)

  /** `APIClient._connection`: absent, being set up by an attempt, or a CONNECTED session. */
  datatype Slot = Empty | Attempting | Live

  datatype EagerCall = EagerCall(id: nat, fromMdns: bool)

  datatype State = State(
    phase: Phase,
    acceptRecords: bool,
    stopped: bool,
    listening: bool,
    tries: nat,
    connectTask: Option<nat>,
    timerHandle: Option<nat>,
    armed: map<nat, real>,      // timers pending in the event loop, with their delays
    holder: Holder,
    queue: seq<Waiter>,
    eager: Option<EagerCall>,
    slot: Slot,
    nextId: nat,
    history: History
  )

  /** What has happened so far; no step looks at it. */
  datatype History = History(
    attempts: nat,        // attempts that found the logic DISCONNECTED and running
    refused: nat,         // attempts that the client refused with "Already connected"
    restartedLive: bool,  // `start` re-enabled the logic over a live session
    writes: seq<Phase>    // every phase that was written
  )

  const INITIAL := State(Disconnected, true, true, false, 0, None, None, map[], Free, [], None, Empty, 0,
                         History(0, 0, false, []))

  /** What the environment decides during a step. */
  datatype Env = Env(
    connected: bool,  // the client reports a connected address
    jump: bool,       // with only cancelled waiters queued, a free lock is taken at once
    zcUp: bool        // starting the mDNS listener succeeds
  )

  datatype ErrorKind = AuthError | PlaintextFallback | OtherError

  predicate NotYetConnected(p: Phase) {
    p == Disconnected || p == Connecting || p == Resolving
  }

  predicate IsCancelled(w: Waiter) {
    w.ConnectWaiter? && w.cancelled
  }

  predicate IsLiveConnect(w: Waiter) {
    w.ConnectWaiter? && !w.cancelled
  }

  predicate AllCancelled(q: seq<Waiter>) {
    forall i | 0 <= i < |q| :: IsCancelled(q[i])
  }

  /** `_async_set_connection_state_while_locked` and `..._without_lock` */
  function WritePhase(s: State, p: Phase): State {
    s.(phase := p, history := s.history.(writes := s.history.writes + [p]))
  }

  // Timers and the connect task

  function CancelTimer(s: State): State {
    match s.timerHandle
    case None => s
    case Some(h) => s.(armed := s.armed - {h}, timerHandle := None)
  }

  function ArmTimer(s: State, delay: real): State {
    s.(armed := s.armed[s.nextId := delay], timerHandle := Some(s.nextId), nextId := s.nextId + 1)
  }

  function CancelWaiter(w: Waiter, id: nat): Waiter {
    if w.ConnectWaiter? && w.id == id then w.(cancelled := true) else w
  }

  function CancelWaiters(q: seq<Waiter>, id: nat): seq<Waiter> {
    seq(|q|, i requires 0 <= i < |q| => CancelWaiter(q[i], id))
  }

  function CancelHolder(h: Holder, id: nat): Holder {
    if h.Attempt? && h.id == id then h.(cancelled := true) else h
  }

  function CancelTask(s: State): State {
    match s.connectTask
    case None => s
    case Some(t) =>
      s.(holder := CancelHolder(s.holder, t), queue := CancelWaiters(s.queue, t), connectTask := None)
  }

  function CancelConnect(s: State): State {
    CancelTask(CancelTimer(s))
  }

  predicate InQueue(q: seq<Waiter>, t: nat) {
    exists i | 0 <= i < |q| :: q[i].ConnectWaiter? && q[i].id == t
  }

  /** A connect task is unfinished while it waits for the lock or holds it. */
  predicate Unfinished(s: State, t: nat) {
    (s.holder.Attempt? && s.holder.id == t) || InQueue(s.queue, t)
  }

  predicate CanTakeLock(s: State, env: Env) {
    s.holder == Free && AllCancelled(s.queue) && (env.jump || s.queue == [])
  }

  // The backoff delay: `round(min(1.8 ** min(tries, 10), 60.0))`, rounding half to even.

  function Pow(base: real, n: nat): real {
    if n == 0 then 1.0 else base * Pow(base, n - 1)
  }

  function RoundHalfEven(x: real): int {
    var fl := x.Floor;
    var frac := x - fl as real;
    if frac < 0.5 || (frac == 0.5 && fl % 2 == 0) then fl else fl + 1
  }

  function WaitTime(tries: nat): int {
    var p := Pow(1.8, if tries < 10 then tries else 10);
    RoundHalfEven(if p < 60.0 then p else 60.0)
  }

  // The synchronous code of the actors

  /** `_connect_once_or_reschedule` from the moment task `t` owns the lock up to its next await. */
  function EnterAttempt(s: State, t: nat, env: Env): State {
    if s.phase != Disconnected || s.stopped then
      s.(holder := Free)
    else
      TryConnect(CountAttempt(s).(listening := s.listening || env.zcUp), t)
  }

  /** `_try_connect` up to its first await. */
  function TryConnect(s: State, t: nat): State {
    var s1 := WritePhase(s, Resolving);
    if s1.slot == Empty then
      s1.(slot := Attempting, holder := Attempt(t, false, InResolve, false))
    else // "Already connected": the client refuses before anything is awaited
      FailAttempt(CountRefusal(s1), t, false)
  }

  function CountAttempt(s: State): State {
    s.(history := s.history.(attempts := s.history.attempts + 1))
  }

  function CountRefusal(s: State): State {
    s.(history := s.history.(refused := s.history.refused + 1))
  }

  /** `_handle_connection_failure` up to the error callback. */
  function FailAttempt(s: State, t: nat, cancelled: bool): State {
    WritePhase(s, Disconnected).(acceptRecords := true, holder := Attempt(t, cancelled, InErrorCb, false))
  }

  /** Creates the connect task; it runs eagerly until it suspends. */
  function SpawnConnect(s: State, env: Env, fromMdns: bool): State {
    var t := s.nextId;
    var s1 := s.(nextId := t + 1);
    if CanTakeLock(s1, env) then
      EnterAttempt(s1, t, env).(eager := Some(EagerCall(t, fromMdns)))
    else
      AfterSpawn(s1.(queue := s1.queue + [ConnectWaiter(t, false)]), t, fromMdns)
  }

  /** The creator's code after `create_eager_task` returned. */
  function AfterSpawn(s: State, t: nat, fromMdns: bool): State {
    s.(connectTask := Some(t), eager := None, acceptRecords := s.acceptRecords && !fromMdns)
  }

  function CallConnectOnce(s: State, env: Env, fromMdns: bool): State {
    if s.connectTask.Some? && Unfinished(s, s.connectTask.value) then
      if s.phase != Connecting || env.connected then
        s.(acceptRecords := s.acceptRecords && !fromMdns)
      else
        SpawnConnect(WritePhase(CancelTask(s), Disconnected), env, fromMdns)
    else
      SpawnConnect(s, env, fromMdns)
  }

  function ScheduleConnect(s: State, delay: real, env: Env, fromMdns: bool): State {
    var s1 := CancelTimer(s);
    if delay == 0.0 then CallConnectOnce(s1, env, fromMdns) else ArmTimer(s1, delay)
  }

  function EnterStart(s: State, env: Env): State {
    var s1 := s.(stopped := false);
    if s.phase != Disconnected then s1
    else
      ScheduleConnect(PrepareStart(s1), 0.0, env, false).(holder := Free)
  }

  /** `start` before it schedules the connect. */
  function PrepareStart(s: State): State {
    s.(tries := 0, acceptRecords := true, holder := Starting,
       history := s.history.(restartedLive := s.history.restartedLive || s.slot == Live))
  }

  function EnterStop(s: State): State {
    WritePhase(CancelConnect(s.(stopped := true)).(listening := false), Disconnected)
  }

  function EnterDisconnect(s: State, expected: bool): State {
    WritePhase(s, Disconnected).(acceptRecords := true, holder := Disconnecting(expected))
  }

  function LeaveDisconnect(s: State, env: Env): State
    requires s.holder.Disconnecting?
  {
    var s1 := s.(holder := Free);
    if s.stopped then s1
    else ScheduleConnect(s1, if s.holder.expected then EXPECTED_DISCONNECT_COOLDOWN else 0.0, env, false)
  }

  function StopPrologue(s: State): State {
    if NotYetConnected(s.phase) then CancelConnect(s) else s
  }

  function TriesAfter(tries: nat, kind: ErrorKind): nat {
    match kind
    case AuthError => MAXIMUM_BACKOFF_TRIES
    case PlaintextFallback => 0
    case OtherError => tries + 1
  }

  /** The failed attempt after its error callback: back off, release the lock, finish. */
  function LeaveFailedAttempt(s: State, kind: ErrorKind, env: Env): State {
    var s1 := s.(tries := TriesAfter(s.tries, kind));
    ScheduleConnect(s1, WaitTime(s1.tries) as real, env, false).(holder := Free)
  }

  function Advance(s: State): State
    requires s.holder.Attempt?
  {
    match s.holder.stage
    case InResolve => WritePhase(s, Connecting).(holder := s.holder.(stage := InConnect))
    case InConnect => WritePhase(s, Handshaking).(listening := false, holder := s.holder.(stage := InHandshake))
    case InHandshake => WritePhase(s, Ready).(tries := 0, slot := Live, holder := s.holder.(stage := InReadyCb))
    case _ => s
  }

  // Steps

  datatype Action =
    | TimerFires(timer: nat, env: Env)
    | MdnsRecord(env: Env)
    | CallStart(env: Env)
    | CallStop(env: Env)
    | SessionDrops(expected: bool, env: Env)
    | LockGranted(env: Env)
    | CancelledWaiterLeaves(at: nat)
    | ConnectionInterrupted
    | AttemptAdvances
    | AttemptFails
    | AttemptCancelled
    | ErrorCbReturns(kind: ErrorKind, env: Env)
    | ReadyCbReturns
    | DisconnectCbReturns(env: Env)
    | EagerYields

  predicate InClientCall(h: Holder) {
    h.Attempt? && (h.stage == InResolve || h.stage == InConnect || h.stage == InHandshake)
  }

  predicate InUserCallback(h: Holder) {
    h.Attempt? && (h.stage == InErrorCb || h.stage == InReadyCb)
  }

  /**
   An attempt goes on only if neither its task was cancelled nor its connection interrupted; it ends by a
   cancellation of its task, or fails, but a cancelled task fails only if its connection was interrupted as
   well.  That these are the outcomes which the connection's setup allows is `AttemptOutcome`.
   */
  predicate Enabled(s: State, a: Action) {
    match a
    case TimerFires(timer, _) => s.eager.None? && timer in s.armed
    case MdnsRecord(_) =>
      s.eager.None? && s.listening && s.acceptRecords && !s.stopped && NotYetConnected(s.phase)
    case CallStart(_) => s.eager.None? || InUserCallback(s.holder)
    case CallStop(_) => s.eager.None? || InUserCallback(s.holder)
    case SessionDrops(_, _) => s.slot == Live && (s.eager.None? || InUserCallback(s.holder))
    case LockGranted(_) => s.eager.None? && s.holder == Free && s.queue != [] && !IsCancelled(s.queue[0])
    case CancelledWaiterLeaves(i) => s.eager.None? && i < |s.queue| && IsCancelled(s.queue[i])
    case ConnectionInterrupted => InClientCall(s.holder)
    case AttemptAdvances => InClientCall(s.holder) && !s.holder.cancelled && !s.holder.interrupted
    case AttemptFails => InClientCall(s.holder) && (s.holder.cancelled ==> s.holder.interrupted)
    case AttemptCancelled => s.holder.Attempt? && s.holder.cancelled
    case ErrorCbReturns(_, _) => s.holder.Attempt? && s.holder.stage == InErrorCb
    case ReadyCbReturns => s.holder.Attempt? && s.holder.stage == InReadyCb
    case DisconnectCbReturns(_) => s.eager.None? && s.holder.Disconnecting?
    case EagerYields => s.eager.Some?
  }

  function Granted(s: State, w: Waiter, env: Env): State {
    match w
    case ConnectWaiter(t, _) => EnterAttempt(s, t, env)
    case StartWaiter => EnterStart(s, env)
    case StopWaiter => EnterStop(s)
    case DisconnectWaiter(expected) => EnterDisconnect(s, expected)
  }

  function Acquire(s: State, w: Waiter, env: Env): State {
    if CanTakeLock(s, env) then Granted(s, w, env) else s.(queue := s.queue + [w])
  }

  function Step(s: State, a: Action): State
    requires Enabled(s, a)
  {
    match a
    case TimerFires(timer, env) => CallConnectOnce(s.(armed := s.armed - {timer}), env, false)
    case MdnsRecord(env) => ScheduleConnect(s.(listening := false), 0.0, env, true)
    case CallStart(env) => Acquire(s, StartWaiter, env)
    case CallStop(env) => Acquire(StopPrologue(s), StopWaiter, env)
    case SessionDrops(expected, env) => Acquire(s.(slot := Empty), DisconnectWaiter(expected), env)
    case LockGranted(env) => Granted(s.(queue := s.queue[1..]), s.queue[0], env)
    case CancelledWaiterLeaves(i) => s.(queue := s.queue[..i] + s.queue[i + 1..])
    case ConnectionInterrupted => s.(holder := s.holder.(interrupted := true))
    case AttemptAdvances => Advance(s)
    case AttemptFails => FailAttempt(s.(slot := Empty), s.holder.id, s.holder.cancelled)
    case AttemptCancelled => s.(slot := if InClientCall(s.holder) then Empty else s.slot, holder := Free)
    case ErrorCbReturns(kind, env) => LeaveFailedAttempt(s, kind, env)
    case ReadyCbReturns => s.(holder := Free)
    case DisconnectCbReturns(env) => LeaveDisconnect(s, env)
    case EagerYields => AfterSpawn(s, s.eager.value.id, s.eager.value.fromMdns)
  }

  // Runs

  predicate IsRun(s: State, run: seq<Action>)
    decreases |run|
  {
    run == [] || (Enabled(s, run[0]) && IsRun(Step(s, run[0]), run[1..]))
  }

  function RunFrom(s: State, run: seq<Action>): State
    requires IsRun(s, run)
    decreases |run|
  {
    if run == [] then s else RunFrom(Step(s, run[0]), run[1..])
  }

  ghost predicate Reachable(s: State) {
    exists run :: IsRun(INITIAL, run) && RunFrom(INITIAL, run) == s
  }
}
