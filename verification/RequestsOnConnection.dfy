/**
 The requests of `MessageWaits` on a connection of `ConnectionModel`: a request's future here is one of the
 futures there, and closing the connection is the same step in both.
 */
module RequestsOnConnection {
  import C = ConnectionModel
  import Life = ConnectionTheorems
  import W = MessageWaits

  /** The outcome of a request, as the connection sees its future. */
  predicate SameOutcome(o: W.Outcome, f: C.FutureState) {
    match o
    case Waiting => f == C.Pending
    case Done => f == C.Resolved
    case TimedOut => f == C.Failed(C.TimedOut)
    case Cancelled => f == C.Cancelled
    case ConnectionLost => f.Failed? && f.error != C.TimedOut
  }

  ghost predicate SameOutcomes<T>(waits: map<nat, W.Wait<T>>, futures: map<nat, C.FutureState>) {
    waits.Keys == futures.Keys && forall id | id in waits :: SameOutcome(waits[id].outcome, futures[id])
  }

  ghost predicate Mirrors<T>(s: W.World<T>, c: C.Conn) {
    s.readers == c.readers && SameOutcomes(s.waits, c.futures)
  }

  // Closing

  lemma ClosingMirrorsFutures<T>(s: W.World<T>, c: C.Conn, d: C.Conn, error: C.ReadError)
    requires Mirrors(s, c) && W.ReadersFit(s) && error != C.TimedOut
    requires Life.FuturesKept(c.futures, d.futures) && Life.WaitersFailed(c.futures, d.futures, error)
    requires d.readers == {}
    ensures Mirrors(W.Step(s, W.ConnectionCloses), d)
  {
    hide C.Step;
  }

  /** Whatever closes the connection, the requests see it as `ConnectionCloses`. */
  lemma ClosingIsShared<T(!new)>(s: W.World<T>, c: C.Conn, a: C.Action)
    requires W.Reachable(s) && Life.Reachable(c) && Mirrors(s, c)
    requires C.Enabled(c, a) && c.phase != C.Closed && C.Step(c, a).phase == C.Closed
    ensures Mirrors(W.Step(s, W.ConnectionCloses), C.Step(c, a))
  {
    var d := C.Step(c, a);
    Life.ReachableKeeps(c);
    Life.StepEvolves(c, a);
    Life.StepKeeps(c, a);
    W.ReachableKeeps(s);
    hide C.Step, Life.Reachable, W.Reachable;
    ClosingMirrorsFutures(s, c, d, C.ReaderError(d.fatal));
  }

  // Everything else that happens to the requests

  /** The effect of settling several requests. */
  function Settled(futures: map<nat, C.FutureState>, ids: set<nat>): map<nat, C.FutureState> {
    map id | id in futures :: if id in ids && futures[id] == C.Pending then C.Resolved else futures[id]
  }

  lemma SettledAfterOne(futures: map<nat, C.FutureState>, ids: set<nat>, id: nat)
    requires id in ids && id in futures
    ensures futures[id] == C.Pending ==> Settled(futures[id := C.Resolved], ids - {id}) == Settled(futures, ids)
    ensures futures[id] != C.Pending ==> Settled(futures, ids - {id}) == Settled(futures, ids)
  {
  }

  lemma SettledOneByOne(c: C.Conn, ids: set<nat>, id: nat)
    requires id in ids && id in c.futures
    ensures var d := C.SettleRequest(c, id, C.Resolved);
            d == c.(futures := d.futures) && Settled(d.futures, ids - {id}) == Settled(c.futures, ids)
            && d.futures.Keys == c.futures.Keys
  {
    hide Settled;
    SettledAfterOne(c.futures, ids, id);
  }

  lemma {:induction false} ResponsesArrive(c: C.Conn, ids: set<nat>) returns (run: seq<C.Action>)
    requires ids <= c.futures.Keys
    ensures C.IsRun(c, run) && C.RunFrom(c, run) == c.(futures := Settled(c.futures, ids))
    decreases |ids|
  {
    if ids == {} {
      run := [];
      assert Settled(c.futures, ids) == c.futures;
    } else {
      hide Settled, C.SettleRequest;
      var id :| id in ids;
      SettledOneByOne(c, ids, id);
      var d := C.SettleRequest(c, id, C.Resolved);
      var rest := ResponsesArrive(d, ids - {id});
      run := [C.ResponseArrives(id)] + rest;
      assert run[1..] == rest;
    }
  }

  lemma OneStepRun(c: C.Conn, a: C.Action)
    requires C.Enabled(c, a)
    ensures C.IsRun(c, [a]) && C.RunFrom(c, [a]) == C.Step(c, a)
  {
    assert [a][1..] == [];
  }

  /** The connection can still send, or it is closed. */
  predicate StaysUp(c: C.Conn, d: C.Conn) {
    d.phase == c.phase && d.handshakeDone == c.handshakeDone && d.helper == c.helper
  }

  function CompletedIn<T>(waits: map<nat, W.Wait<T>>): set<nat> {
    set id | id in waits && waits[id].outcome == W.Done
  }

  lemma DeliveryMirrors<T>(waits: map<nat, W.Wait<T>>, futures: map<nat, C.FutureState>, to: set<nat>, m: W.Msg)
    requires SameOutcomes(waits, futures)
    ensures var after := W.Deliver(waits, to, m);
            && CompletedIn(after) <= futures.Keys
            && SameOutcomes(after, Settled(futures, CompletedIn(after)))
  {
    var after := W.Deliver(waits, to, m);
    forall id | id in waits
      ensures after[id].outcome == waits[id].outcome || (waits[id].outcome == W.Waiting && after[id].outcome == W.Done)
    {
    }
    hide W.Deliver, W.HandleComplexMessage;
  }

  lemma PacketMirrors<T>(s: W.World<T>, c: C.Conn, m: W.Msg) returns (run: seq<C.Action>)
    requires Mirrors(s, c)
    ensures C.IsRun(c, run) && Mirrors(W.Step(s, W.PacketArrives(m)), C.RunFrom(c, run))
    ensures StaysUp(c, C.RunFrom(c, run))
  {
    hide SameOutcomes, Settled, CompletedIn, W.Deliver, W.HandlersFor, C.Step;
    var waits := W.Deliver(s.waits, W.HandlersFor(s.handlers, m.kind), m);
    assert W.Step(s, W.PacketArrives(m)).waits == waits;
    DeliveryMirrors(s.waits, c.futures, W.HandlersFor(s.handlers, m.kind), m);
    run := ResponsesArrive(c, CompletedIn(waits));
  }

  lemma RequestMirrors<T>(s: W.World<T>, c: C.Conn, a: W.Action<T>)
    requires Mirrors(s, c) && C.CanSend(c) && a.Request? && W.Enabled(s, a)
    ensures C.Enabled(c, C.RequestBegins(a.id, true))
    ensures Mirrors(W.Step(s, a), C.Step(c, C.RequestBegins(a.id, true)))
    ensures StaysUp(c, C.Step(c, C.RequestBegins(a.id, true)))
  {
  }

  lemma UpdateMirrors<T>(waits: map<nat, W.Wait<T>>, futures: map<nat, C.FutureState>, id: nat, w: W.Wait<T>,
                         f: C.FutureState)
    requires SameOutcomes(waits, futures) && id in waits
    ensures SameOutcome(w.outcome, f) ==> SameOutcomes(waits[id := w], futures[id := f])
  {
  }

  lemma SettlingMirrors<T>(s: W.World<T>, c: C.Conn, id: nat, outcome: W.Outcome, future: C.FutureState)
    requires Mirrors(s, c) && id in s.waits && SameOutcome(outcome, future)
    ensures Mirrors(s.(waits := s.waits[id := W.Settle(s.waits[id], outcome)]), C.SettleRequest(c, id, future))
    ensures StaysUp(c, C.SettleRequest(c, id, future))
  {
    assert s.waits[id].outcome == W.Waiting <==> c.futures[id] == C.Pending;
    UpdateMirrors(s.waits, c.futures, id, W.Settle(s.waits[id], outcome), future);
    assert s.waits[id := s.waits[id]] == s.waits;
    hide SameOutcomes;
  }

  lemma ReturnMirrors<T>(s: W.World<T>, c: C.Conn, id: nat)
    requires Mirrors(s, c) && W.Enabled(s, W.WaitReturns(id))
    ensures C.Enabled(c, C.RequestEnds(id))
    ensures Mirrors(W.Step(s, W.WaitReturns(id)), C.Step(c, C.RequestEnds(id)))
    ensures StaysUp(c, C.Step(c, C.RequestEnds(id)))
  {
  }

  lemma CleanupMirrors<T>(s: W.World<T>, c: C.Conn)
    requires Mirrors(s, c) && W.ReadersFit(s) && Life.Inv(c)
    ensures Mirrors(W.Step(s, W.ConnectionCloses), C.Cleanup(c))
  {
  }

  /** Each step of the requests is a run of the connection. */
  lemma StepMirrors<T>(s: W.World<T>, c: C.Conn, a: W.Action<T>) returns (run: seq<C.Action>)
    requires Mirrors(s, c) && W.Inv(s) && Life.Inv(c) && W.Enabled(s, a) && (a.Request? ==> C.CanSend(c))
    ensures C.IsRun(c, run) && Mirrors(W.Step(s, a), C.RunFrom(c, run))
    ensures !a.ConnectionCloses? ==> StaysUp(c, C.RunFrom(c, run))
  {
    assert W.ReadersFit(s) && s.waits.Keys == c.futures.Keys;
    hide W.Inv, W.ReadersFit, Life.Inv, Mirrors, C.Cleanup, C.BeginRequest, C.SettleRequest, W.Settle, W.Deliver,
         W.AddHandler, W.RemoveHandler, W.LoseConnection;
    match a
    case Request(id, _, _, _) =>
      RequestMirrors(s, c, a);
      run := [C.RequestBegins(id, true)];
      OneStepRun(c, run[0]);
    case PacketArrives(m) => run := PacketMirrors(s, c, m);
    case TimerExpires(id) =>
      SettlingMirrors(s, c, id, W.TimedOut, C.Failed(C.TimedOut));
      run := [C.RequestTimesOut(id)];
      OneStepRun(c, run[0]);
    case CallerCancels(id) =>
      SettlingMirrors(s, c, id, W.Cancelled, C.Cancelled);
      run := [C.RequestCancelled(id)];
      OneStepRun(c, run[0]);
    case WaitReturns(id) =>
      ReturnMirrors(s, c, id);
      run := [C.RequestEnds(id)];
      OneStepRun(c, run[0]);
    case ConnectionCloses =>
      CleanupMirrors(s, c);
      run := [C.DisconnectEnds];
      OneStepRun(c, run[0]);
  }

  /** No request is made after the connection has closed: `send_messages` raises. */
  predicate RequestsWhileOpen<T>(run: seq<W.Action<T>>, open: bool) {
    run == [] ||
    ((run[0].Request? ==> open) && RequestsWhileOpen(run[1..], open && !run[0].ConnectionCloses?))
  }

  lemma {:induction false} RunMirrors<T(!new)>(s: W.World<T>, c: C.Conn, run: seq<W.Action<T>>, open: bool)
    returns (d: C.Conn)
    requires Mirrors(s, c) && W.Inv(s) && Life.Reachable(c) && (open ==> C.CanSend(c))
    requires W.IsRun(s, run) && RequestsWhileOpen(run, open)
    ensures Life.Reachable(d) && Mirrors(W.RunFrom(s, run), d)
    decreases |run|
  {
    if run == [] {
      d := c;
    } else {
      Life.ReachableKeeps(c);
      var steps := StepMirrors(s, c, run[0]);
      W.StepKeeps(s, run[0]);
      Life.ReachableRun(c, steps);
      d := RunMirrors(W.Step(s, run[0]), C.RunFrom(c, steps), run[1..], open && !run[0].ConnectionCloses?);
    }
  }

  /**
   Every run of overlapping requests takes place on a connection: there is a reachable one with the same
   futures, in the same states, and the same registered readers.
   */
  lemma EveryRunHasItsConnection<T(!new)>(run: seq<W.Action<T>>) returns (c: C.Conn)
    requires W.IsRun(W.Empty<T>(), run) && RequestsWhileOpen(run, true)
    ensures Life.Reachable(c) && Mirrors(W.RunFrom(W.Empty<T>(), run), c)
  {
    var open := Life.AwaitingHello();
    c := RunMirrors(W.Empty<T>(), open, run, true);
  }
}
