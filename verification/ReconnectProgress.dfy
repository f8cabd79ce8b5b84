/**
 What is scheduled can happen: from every state in which an attempt is due, steps of the logic itself lead to
 one.  They are taken in a fixed order: the task that runs yields, the lock's holder finishes, the queue is
 served from its head, and at last the timer fires.
 */
module ReconnectProgress {
  import opened Wrappers
  import opened ReconnectModel
  import opened ReconnectProofs
  import opened ReconnectTheorems

  /** The steps that somebody else takes: the user, the peer or the network. */
  predicate FromOutside(a: Action) {
    a.MdnsRecord? || a.CallStart? || a.CallStop? || a.SessionDrops? || a.ConnectionInterrupted?
  }

  predicate OwnSteps(run: seq<Action>) {
    forall i | 0 <= i < |run| :: !FromOutside(run[i])
  }

  /** The states of `NoLostReconnect`. */
  ghost predicate AttemptIsDue(s: State) {
    !s.stopped && s.phase == Disconnected && !HasStop(s.queue)
  }

  /** How far the next attempt is away, once those ahead of it are done. */
  function Burden(w: Waiter): nat {
    if w.ConnectWaiter? then 1 else 4
  }

  function Burdens(q: seq<Waiter>): nat {
    if q == [] then 0 else Burden(q[0]) + Burdens(q[1..])
  }

  function Rank(s: State): nat {
    Burdens(s.queue)
    + (if s.holder.Disconnecting? then 2 else if s.holder.Attempt? then 1 else 0)
    + (if s.eager.Some? then 1 else 0)
  }

  lemma {:induction false} BurdensOfAppended(q: seq<Waiter>, w: Waiter)
    ensures Burdens(q + [w]) == Burdens(q) + Burden(w)
  {
    if q == [] {
      assert (q + [w])[1..] == [];
    } else {
      assert (q + [w])[1..] == q[1..] + [w];
      BurdensOfAppended(q[1..], w);
    }
  }

  /** An attempt begins; unless a session is still alive, it really resolves. */
  predicate Begins(s: State, r: State) {
    && r.history.attempts == s.history.attempts + 1
    && (s.slot != Live ==> r.holder.Attempt? && r.holder == Attempt(r.holder.id, false, InResolve, false))
  }

  /** No attempt yet, but the state is still one in which an attempt is due. */
  ghost predicate StillDue(s: State, r: State) {
    r.history.attempts == s.history.attempts && AttemptIsDue(r) && (s.slot != Live ==> r.slot != Live)
  }

  ghost predicate ComesCloser(s: State, r: State) {
    StillDue(s, r) && Rank(r) < Rank(s)
  }

  lemma EnterAttemptBegins(s: State, t: nat, env: Env)
    requires !s.stopped && s.phase == Disconnected && s.slot != Attempting
    ensures Begins(s, EnterAttempt(s, t, env))
  {
  }

  /** With nobody queued and the lock free, a new task is the attempt; otherwise it is queued. */
  lemma SpawnBeginsOrQueues(s: State, fromMdns: bool)
    requires AttemptIsDue(s) && s.slot != Attempting && s.eager.None?
    ensures var r := SpawnConnect(s, CALM, fromMdns);
            if s.holder == Free && s.queue == [] then Begins(s, r)
            else StillDue(s, r) && Burdens(r.queue) == Burdens(s.queue) + 1 && r.holder == s.holder && r.eager.None?
  {
    hide EnterAttempt, Burdens, HasStop;
    EnterAttemptBegins(s.(nextId := s.nextId + 1), s.nextId, CALM);
    BurdensOfAppended(s.queue, ConnectWaiter(s.nextId, false));
    AppendedQueue(s.queue, ConnectWaiter(s.nextId, false));
  }

  /** `_call_connect_once` begins an attempt, or leaves at most one more task in the queue. */
  lemma CallBeginsOrQueues(s: State)
    requires AttemptIsDue(s) && s.slot != Attempting && s.eager.None?
    ensures var r := CallConnectOnce(s, CALM, false);
            || (s.holder == Free && s.queue == [] && Begins(s, r))
            || (StillDue(s, r) && Burdens(r.queue) <= Burdens(s.queue) + 1 && r.holder == s.holder && r.eager.None?)
    ensures s.holder == Free && s.queue == [] ==> Begins(s, CallConnectOnce(s, CALM, false))
  {
    hide SpawnConnect, Burdens, HasStop, Begins;
    SpawnBeginsOrQueues(s, false);
  }

  // One step for each of the states in which an attempt is due

  lemma EagerTaskYields(s: State)
    requires AttemptIsDue(s) && s.eager.Some?
    ensures Enabled(s, EagerYields) && ComesCloser(s, Step(s, EagerYields))
  {
    hide HasStop, Burdens;
  }

  lemma FailedAttemptLeaves(s: State)
    requires Inv(s) && AttemptIsDue(s) && s.holder.Attempt? && s.holder.stage == InErrorCb
    ensures Enabled(s, ErrorCbReturns(OtherError, CALM)) && ComesCloser(s, Step(s, ErrorCbReturns(OtherError, CALM)))
  {
    hide HasStop, Burdens, Inv, WaitTime, CallConnectOnce;
    WaitTimeInRange(TriesAfter(s.tries, OtherError));
  }

  lemma CancelledAttemptLeaves(s: State)
    requires AttemptIsDue(s) && s.holder.Attempt? && s.holder.cancelled
    ensures Enabled(s, AttemptCancelled) && ComesCloser(s, Step(s, AttemptCancelled))
  {
    hide HasStop, Burdens;
  }

  lemma DisconnectLeaves(s: State)
    requires AttemptIsDue(s) && s.slot != Attempting && s.eager.None? && s.holder.Disconnecting?
    ensures Enabled(s, DisconnectCbReturns(CALM))
    ensures var r := Step(s, DisconnectCbReturns(CALM)); Begins(s, r) || ComesCloser(s, r)
  {
    hide HasStop, Burdens, CallConnectOnce;
    CallBeginsOrQueues(CancelTimer(s.(holder := Free)));
  }

  lemma StartRuns(s: State)
    requires AttemptIsDue(s) && s.slot != Attempting && s.eager.None? && s.holder == Free
    ensures var r := EnterStart(s, CALM);
            StillDue(s, r) && Burdens(r.queue) <= Burdens(s.queue) + 1 && r.holder == Free && r.eager.None?
  {
    hide HasStop, Burdens, CallConnectOnce, Begins;
    CallBeginsOrQueues(CancelTimer(PrepareStart(s.(stopped := false))));
  }

  lemma DisconnectRuns(s: State, expected: bool)
    requires AttemptIsDue(s) && s.eager.None?
    ensures var r := EnterDisconnect(s, expected);
            StillDue(s, r) && r.queue == s.queue && r.holder.Disconnecting? && r.eager.None?
  {
    hide HasStop;
  }

  lemma TailIsDue(s: State)
    requires AttemptIsDue(s) && s.queue != []
    ensures AttemptIsDue(s.(queue := s.queue[1..])) && s.queue[0] != StopWaiter
    ensures Burdens(s.queue) == Burden(s.queue[0]) + Burdens(s.queue[1..])
  {
    assert s.queue[..0] + s.queue[1..] == s.queue[1..];
    RemovedFromQueue(s.queue, 0);
    hide NoneLive, OneLive, HasDisconnect;
  }

  lemma CancelledHeadLeaves(s: State)
    requires AttemptIsDue(s) && s.eager.None? && s.queue != [] && IsCancelled(s.queue[0])
    ensures Enabled(s, CancelledWaiterLeaves(0)) && ComesCloser(s, Step(s, CancelledWaiterLeaves(0)))
  {
    TailIsDue(s);
    hide AttemptIsDue, Burdens;
    assert s.queue[..0] + s.queue[1..] == s.queue[1..];
  }

  lemma HeadIsServed(s: State)
    requires AttemptIsDue(s) && s.slot != Attempting && s.eager.None?
    requires s.holder == Free && s.queue != [] && !IsCancelled(s.queue[0])
    ensures Enabled(s, LockGranted(CALM))
    ensures var r := Step(s, LockGranted(CALM)); Begins(s, r) || ComesCloser(s, r)
  {
    var s1 := s.(queue := s.queue[1..]);
    TailIsDue(s);
    hide AttemptIsDue, Burdens, EnterAttempt, EnterStart, EnterDisconnect;
    match s.queue[0]
    case ConnectWaiter(t, _) => EnterAttemptBegins(s1, t, CALM);
    case StartWaiter => StartRuns(s1);
    case DisconnectWaiter(expected) => DisconnectRuns(s1, expected);
  }

  lemma TimerBegins(s: State)
    requires Inv(s) && AttemptIsDue(s) && s.eager.None? && s.holder == Free && s.queue == []
    ensures exists t :: Enabled(s, TimerFires(t, CALM)) && Begins(s, Step(s, TimerFires(t, CALM)))
  {
    var t :| t in s.armed;
    var s1 := s.(armed := s.armed - {t});
    hide Inv, CallConnectOnce, HasStop;
    CallBeginsOrQueues(s1);
    assert Enabled(s, TimerFires(t, CALM));
  }

  /** In every state in which an attempt is due, a step of the logic itself brings it closer or begins it. */
  lemma DueStep(s: State) returns (a: Action)
    requires Inv(s) && AttemptIsDue(s)
    ensures !FromOutside(a) && Enabled(s, a)
    ensures Begins(s, Step(s, a)) || ComesCloser(s, Step(s, a))
  {
    hide HasStop, Burdens, Ids, Tasks, PhaseOwned, ReadyIsLive, Quiet, Covered, Begins, ComesCloser, Step;
    if s.eager.Some? {
      a := EagerYields;
      EagerTaskYields(s);
    } else if s.holder.Attempt? {
      if s.holder.stage == InErrorCb {
        a := ErrorCbReturns(OtherError, CALM);
        FailedAttemptLeaves(s);
      } else {
        a := AttemptCancelled;
        CancelledAttemptLeaves(s);
      }
    } else if s.holder.Disconnecting? {
      a := DisconnectCbReturns(CALM);
      DisconnectLeaves(s);
    } else if s.queue == [] {
      TimerBegins(s);
      var t :| Enabled(s, TimerFires(t, CALM)) && Begins(s, Step(s, TimerFires(t, CALM)));
      a := TimerFires(t, CALM);
    } else if IsCancelled(s.queue[0]) {
      a := CancelledWaiterLeaves(0);
      CancelledHeadLeaves(s);
    } else {
      a := LockGranted(CALM);
      HeadIsServed(s);
    }
  }

  lemma {:induction false} DueRun(s: State) returns (run: seq<Action>)
    requires Inv(s) && AttemptIsDue(s)
    ensures run != [] && OwnSteps(run) && IsRun(s, run) && Begins(s, RunFrom(s, run))
    decreases Rank(s)
  {
    var a := DueStep(s);
    var d := Step(s, a);
    if Begins(s, d) {
      run := [a];
      assert run[1..] == [];
    } else {
      StepKeeps(s, a);
      var rest := DueRun(d);
      run := [a] + rest;
      assert run[1..] == rest;
    }
  }

  /**
   From every reachable state in which the logic is DISCONNECTED and neither stopped nor stopping, a run of its
   own steps begins the next attempt, without any help from the user, the peer or the network.
   */
  lemma AttemptIsReached(s: State) returns (run: seq<Action>)
    requires Reachable(s) && !s.stopped && s.phase == Disconnected
    requires forall i | 0 <= i < |s.queue| :: s.queue[i] != StopWaiter
    ensures run != [] && OwnSteps(run) && IsRun(s, run)
    ensures RunFrom(s, run).history.attempts == s.history.attempts + 1
  {
    ReachableKeeps(s);
    run := DueRun(s);
  }

  lemma {:induction false} RunsCompose(s: State, run: seq<Action>, more: seq<Action>)
    requires IsRun(s, run) && IsRun(RunFrom(s, run), more)
    ensures IsRun(s, run + more) && RunFrom(s, run + more) == RunFrom(RunFrom(s, run), more)
    decreases |run|
  {
    if run == [] {
      assert run + more == more;
    } else {
      assert (run + more)[1..] == run[1..] + more;
      RunsCompose(Step(s, run[0]), run[1..], more);
    }
  }

  const SUCCESS := [AttemptAdvances, AttemptAdvances, AttemptAdvances]

  /** An attempt whose three awaits succeed leaves the logic READY over a live session. */
  lemma AttemptSucceeds(s: State)
    requires s.holder.Attempt? && s.holder == Attempt(s.holder.id, false, InResolve, false)
    ensures IsRun(s, SUCCESS) && RunFrom(s, SUCCESS).phase == Ready && RunFrom(s, SUCCESS).slot == Live
  {
    var s1 := Advance(s);
    var s2 := Advance(s1);
    var s3 := Advance(s2);
    assert IsRun(s3, []) && RunFrom(s3, []) == s3;
    assert IsRun(s2, [AttemptAdvances]) && RunFrom(s2, [AttemptAdvances]) == s3;
    assert SUCCESS[1..] == [AttemptAdvances, AttemptAdvances];
    assert SUCCESS[1..][1..] == [AttemptAdvances];
  }

  /** And if no session is alive, the run can end in a new one. */
  lemma SessionIsReached(s: State) returns (run: seq<Action>)
    requires Reachable(s) && !s.stopped && s.phase == Disconnected && s.slot != Live
    requires forall i | 0 <= i < |s.queue| :: s.queue[i] != StopWaiter
    ensures OwnSteps(run) && IsRun(s, run)
    ensures RunFrom(s, run).phase == Ready && RunFrom(s, run).slot == Live
  {
    ReachableKeeps(s);
    var first := DueRun(s);
    AttemptSucceeds(RunFrom(s, first));
    RunsCompose(s, first, SUCCESS);
    run := first + SUCCESS;
  }
}
