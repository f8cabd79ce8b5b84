/**
 Requests that wait for responses on one connection: `send_messages_await_response_complex`,
 `handle_complex_message` and the delivery of packets to the registered handlers.
 */
module MessageWaits {
  import opened Wrappers

  datatype Msg = Msg(kind: nat, body: nat)

  /** A predicate reads and writes the closure variables that the predicates of one request share. */
  type Predicate<!C> = (C, Msg) -> (C, bool)

  /** `do_append` and `do_stop`; None means that every message qualifies. */
  datatype Predicates<!C> = Predicates(doAppend: Option<Predicate<C>>, doStop: Option<Predicate<C>>)

  datatype Outcome = Waiting | Done | TimedOut | Cancelled | ConnectionLost

  datatype Wait<!C> = Wait(
    kinds: set<nat>,
    predicates: Predicates<C>,
    start: C,              // the closure variables when the request was made
    cells: C,              // the closure variables now
    outcome: Outcome,      // the state of the future
    responses: seq<Msg>,
    returned: bool,        // the `finally` block has run
    since: nat             // history: packets that had arrived before the handler was registered
  )

  type Table = map<nat, set<nat>>

  datatype World<!C> = World(
    waits: map<nat, Wait<C>>,
    handlers: Table,       // message kind -> waits registered for it
    readers: set<nat>,
    log: seq<Msg>          // history: the packets that have arrived
  )

  function Empty<C>(): World<C> {
    World(map[], map[], {}, [])
  }

  function Ask<C>(p: Option<Predicate<C>>, cells: C, m: Msg): (C, bool) {
    match p
    case None => (cells, true)
    case Some(f) => f(cells, m)
  }

  /** `handle_complex_message`. */
  function HandleComplexMessage<C>(w: Wait<C>, m: Msg): Wait<C> {
    if w.outcome != Waiting then w
    else
      var (cells1, append) := Ask(w.predicates.doAppend, w.cells, m);
      var (cells2, stop) := Ask(w.predicates.doStop, cells1, m);
      w.(responses := if append then w.responses + [m] else w.responses,
         cells := cells2,
         outcome := if stop then Done else Waiting)
  }

  function HandlersFor(t: Table, kind: nat): set<nat> {
    if kind in t then t[kind] else {}
  }

  function AddHandler(t: Table, kinds: set<nat>, id: nat): (r: Table)
    ensures forall k :: HandlersFor(r, k) == HandlersFor(t, k) + (if k in kinds then {id} else {})
  {
    map k | k in t.Keys + kinds :: HandlersFor(t, k) + (if k in kinds then {id} else {})
  }

  function RemoveHandler(t: Table, kinds: set<nat>, id: nat): (r: Table)
    ensures forall k :: HandlersFor(r, k) == HandlersFor(t, k) - (if k in kinds then {id} else {})
  {
    map k | k in t :: if k in kinds then t[k] - {id} else t[k]
  }

  /** Every wait in `ids` handles the message; the others are left alone. */
  function Deliver<C>(waits: map<nat, Wait<C>>, ids: set<nat>, m: Msg): map<nat, Wait<C>> {
    map id | id in waits :: if id in ids then HandleComplexMessage(waits[id], m) else waits[id]
  }

  function LoseConnection<C>(waits: map<nat, Wait<C>>, readers: set<nat>): map<nat, Wait<C>> {
    map id | id in waits ::
      if id in readers && waits[id].outcome == Waiting then waits[id].(outcome := ConnectionLost) else waits[id]
  }

  function Settle<C>(w: Wait<C>, outcome: Outcome): Wait<C> {
    if w.outcome == Waiting then w.(outcome := outcome) else w
  }

  datatype Action<!C> =
    | Request(id: nat, kinds: set<nat>, predicates: Predicates<C>, start: C)
    | PacketArrives(msg: Msg)
    | TimerExpires(id: nat)
    | CallerCancels(id: nat)
    | ConnectionCloses
    | WaitReturns(id: nat)

  predicate Enabled<C>(s: World<C>, a: Action<C>) {
    match a
    case Request(id, _, _, _) => id !in s.waits
    case PacketArrives(_) => true
    case TimerExpires(id) => id in s.waits && !s.waits[id].returned
    case CallerCancels(id) => id in s.waits && !s.waits[id].returned
    case ConnectionCloses => true
    case WaitReturns(id) => id in s.waits && s.waits[id].outcome != Waiting && !s.waits[id].returned
  }

  function Step<C>(s: World<C>, a: Action<C>): World<C>
    requires Enabled(s, a)
  {
    match a
    case Request(id, kinds, predicates, start) =>
      s.(waits := s.waits[id := Wait(kinds, predicates, start, start, Waiting, [], false, |s.log|)],
         handlers := AddHandler(s.handlers, kinds, id),
         readers := s.readers + {id})
    case PacketArrives(m) =>
      s.(waits := Deliver(s.waits, HandlersFor(s.handlers, m.kind), m), log := s.log + [m])
    case TimerExpires(id) => s.(waits := s.waits[id := Settle(s.waits[id], TimedOut)])
    case CallerCancels(id) => s.(waits := s.waits[id := Settle(s.waits[id], Cancelled)])
    case ConnectionCloses => s.(waits := LoseConnection(s.waits, s.readers), readers := {})
    case WaitReturns(id) =>
      s.(waits := s.waits[id := s.waits[id].(returned := true)],
         handlers := RemoveHandler(s.handlers, s.waits[id].kinds, id),
         readers := s.readers - {id})
  }

  predicate IsRun<C>(s: World<C>, run: seq<Action<C>>)
    decreases |run|
  {
    run == [] || (Enabled(s, run[0]) && IsRun(Step(s, run[0]), run[1..]))
  }

  function RunFrom<C>(s: World<C>, run: seq<Action<C>>): World<C>
    requires IsRun(s, run)
    decreases |run|
  {
    if run == [] then s else RunFrom(Step(s, run[0]), run[1..])
  }

  // The specification of one wait, which knows nothing of the others

  function OfKinds(ms: seq<Msg>, kinds: set<nat>): seq<Msg> {
    if ms == [] then []
    else OfKinds(ms[..|ms| - 1], kinds) + (if ms[|ms| - 1].kind in kinds then [ms[|ms| - 1]] else [])
  }

  datatype Answer<C> = Answer(responses: seq<Msg>, stopped: bool, cells: C)

  /** What a request collects from the messages `ms` of its kinds: nothing after the first stop. */
  function Collect<C>(p: Predicates<C>, start: C, ms: seq<Msg>): Answer<C> {
    if ms == [] then Answer([], false, start)
    else
      var before := Collect(p, start, ms[..|ms| - 1]);
      var m := ms[|ms| - 1];
      if before.stopped then before
      else
        var (cells1, append) := Ask(p.doAppend, before.cells, m);
        var (cells2, stop) := Ask(p.doStop, cells1, m);
        Answer(if append then before.responses + [m] else before.responses, stop, cells2)
  }

  // The invariant

  /** A handler is registered exactly for the kinds of a request that has not returned. */
  ghost predicate TableFits<C>(waits: map<nat, Wait<C>>, t: Table) {
    forall k, id :: id in HandlersFor(t, k) <==> id in waits && !waits[id].returned && k in waits[id].kinds
  }

  ghost predicate ReadersFit<C>(s: World<C>) {
    && (forall id | id in s.readers :: id in s.waits && !s.waits[id].returned)
    && (forall id | id in s.waits && s.waits[id].outcome == Waiting :: id in s.readers && !s.waits[id].returned)
  }

  ghost predicate Collected<C>(w: Wait<C>, log: seq<Msg>) {
    && w.since <= |log|
    && (w.outcome == Waiting || w.outcome == Done ==>
          Collect(w.predicates, w.start, OfKinds(log[w.since..], w.kinds)) ==
          Answer(w.responses, w.outcome == Done, w.cells))
  }

  ghost predicate AllCollected<C>(waits: map<nat, Wait<C>>, log: seq<Msg>) {
    forall id | id in waits :: Collected(waits[id], log)
  }

  ghost predicate Inv<C>(s: World<C>) {
    TableFits(s.waits, s.handlers) && ReadersFit(s) && AllCollected(s.waits, s.log)
  }

  lemma PacketExtendsOne<C>(w: Wait<C>, log: seq<Msg>, m: Msg)
    requires Collected(w, log)
    ensures Collected(if m.kind in w.kinds then HandleComplexMessage(w, m) else w, log + [m])
  {
    var ms := log[w.since..];
    var ms' := (log + [m])[w.since..];
    assert ms' == ms + [m];
    assert ms'[..|ms'| - 1] == ms;
    var relevant := OfKinds(ms, w.kinds);
    if m.kind in w.kinds {
      assert OfKinds(ms', w.kinds) == relevant + [m];
      assert (relevant + [m])[..|relevant|] == relevant;
    } else {
      assert OfKinds(ms', w.kinds) == relevant;
    }
  }

  lemma PacketKeeps<C>(s: World<C>, m: Msg)
    requires Inv(s)
    ensures Inv(Step(s, PacketArrives(m)))
  {
    var t := Step(s, PacketArrives(m));
    var ids := HandlersFor(s.handlers, m.kind);
    forall id | id in s.waits
      ensures Collected(t.waits[id], t.log)
    {
      PacketExtendsOne(s.waits[id], s.log, m);
      assert id in ids ==> m.kind in s.waits[id].kinds;
    }
  }

  lemma RequestKeeps<C>(s: World<C>, id: nat, kinds: set<nat>, predicates: Predicates<C>, start: C)
    requires Inv(s) && Enabled(s, Request(id, kinds, predicates, start))
    ensures Inv(Step(s, Request(id, kinds, predicates, start)))
  {
    assert s.log[|s.log|..] == [];
  }

  lemma SettleKeeps<C>(s: World<C>, id: nat, outcome: Outcome)
    requires Inv(s) && id in s.waits && outcome != Waiting && outcome != Done
    ensures Inv(s.(waits := s.waits[id := Settle(s.waits[id], outcome)]))
  {
  }

  lemma CloseKeeps<C>(s: World<C>)
    requires Inv(s)
    ensures Inv(Step(s, ConnectionCloses))
  {
  }

  lemma ReturnKeeps<C>(s: World<C>, id: nat)
    requires Inv(s) && Enabled(s, WaitReturns(id))
    ensures Inv(Step(s, WaitReturns(id)))
  {
  }

  lemma StepKeeps<C>(s: World<C>, a: Action<C>)
    requires Inv(s) && Enabled(s, a)
    ensures Inv(Step(s, a))
  {
    match a
    case Request(id, kinds, predicates, start) => RequestKeeps(s, id, kinds, predicates, start);
    case PacketArrives(m) => PacketKeeps(s, m);
    case TimerExpires(id) => SettleKeeps(s, id, TimedOut);
    case CallerCancels(id) => SettleKeeps(s, id, Cancelled);
    case ConnectionCloses => CloseKeeps(s);
    case WaitReturns(id) => ReturnKeeps(s, id);
  }

  ghost predicate Reachable<C(!new)>(s: World<C>) {
    exists run: seq<Action<C>> :: IsRun(Empty<C>(), run) && RunFrom(Empty<C>(), run) == s
  }

  lemma {:induction false} RunKeeps<C>(s: World<C>, run: seq<Action<C>>)
    requires Inv(s) && IsRun(s, run)
    ensures Inv(RunFrom(s, run))
    decreases |run|
  {
    if run != [] {
      StepKeeps(s, run[0]);
      RunKeeps(Step(s, run[0]), run[1..]);
    }
  }

  lemma ReachableKeeps<C(!new)>(s: World<C>)
    requires Reachable(s)
    ensures Inv(s)
  {
    var run: seq<Action<C>> :| IsRun(Empty<C>(), run) && RunFrom(Empty<C>(), run) == s;
    RunKeeps(Empty<C>(), run);
  }

  /**
   Concurrent waits do not disturb each other.  Whatever else waits on the connection, a request that
   completed normally has collected exactly what it collects alone from the messages of its kinds
   since its registration; what arrives after its first stop changes nothing.
   */
  lemma WaitCollectsItsOwn<C(!new)>(s: World<C>, id: nat)
    requires Reachable(s) && id in s.waits && s.waits[id].outcome == Done
    ensures s.waits[id].since <= |s.log|
    ensures var w := s.waits[id];
            var answer := Collect(w.predicates, w.start, OfKinds(s.log[w.since..], w.kinds));
            answer.stopped && w.responses == answer.responses
  {
    ReachableKeeps(s);
  }

  /** A request still waits exactly as long as none of its messages has stopped it. */
  lemma WaitStopsInTime<C(!new)>(s: World<C>, id: nat)
    requires Reachable(s) && id in s.waits
    requires s.waits[id].outcome == Waiting || s.waits[id].outcome == Done
    ensures s.waits[id].since <= |s.log|
    ensures var w := s.waits[id];
            w.outcome == Done <==> Collect(w.predicates, w.start, OfKinds(s.log[w.since..], w.kinds)).stopped
  {
    ReachableKeeps(s);
  }

  /** Once a request has returned, in whatever way, its handler and its future are gone. */
  lemma ReturnedWaitIsForgotten<C(!new)>(s: World<C>, id: nat)
    requires Reachable(s) && id in s.waits && s.waits[id].returned
    ensures s.waits[id].outcome != Waiting
    ensures id !in s.readers
    ensures forall k | k in s.handlers :: id !in s.handlers[k]
  {
    ReachableKeeps(s);
    forall k | k in s.handlers
      ensures id !in s.handlers[k]
    {
      assert id !in HandlersFor(s.handlers, k);
    }
  }

  /** A request can always be made; it waits, and is handled for exactly its message types. */
  lemma EveryRequestCanBegin<C>(s: World<C>, id: nat, kinds: set<nat>, predicates: Predicates<C>, start: C)
    requires TableFits(s.waits, s.handlers) && id !in s.waits
    ensures Enabled(s, Request(id, kinds, predicates, start))
    ensures var r := Step(s, Request(id, kinds, predicates, start));
            && id in r.waits && r.waits[id].outcome == Waiting && r.waits[id].responses == [] && id in r.readers
            && forall k :: id in HandlersFor(r.handlers, k) <==> k in kinds
  {
  }

  /** A request that has not returned can do so: its timer can expire, its caller can cancel it, and then it returns. */
  lemma EveryRequestCanEnd<C>(s: World<C>, id: nat)
    requires id in s.waits && !s.waits[id].returned
    ensures Enabled(s, TimerExpires(id)) && Enabled(Step(s, TimerExpires(id)), WaitReturns(id))
    ensures Enabled(s, CallerCancels(id)) && Enabled(Step(s, CallerCancels(id)), WaitReturns(id))
    ensures s.waits[id].outcome == Waiting ==>
              && Step(s, TimerExpires(id)).waits[id].outcome == TimedOut
              && Step(s, CallerCancels(id)).waits[id].outcome == Cancelled
    ensures forall a: Action<C> | a.PacketArrives? || a.ConnectionCloses? :: Enabled(s, a)
  {
  }

  /** After the connection closed nobody is left waiting. */
  lemma ClosingFreesEveryone<C(!new)>(s: World<C>, id: nat)
    requires Reachable(s) && id in s.waits
    ensures Step(s, ConnectionCloses).waits[id].outcome != Waiting
  {
    ReachableKeeps(s);
  }
}
