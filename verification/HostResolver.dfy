/**
 Parallel host resolution: tasks race for each host, the first result of a host cancels its other
 tasks, and whatever ends the race cancels the rest.  The two indexes, task -> host and
 host -> tasks, are updated in place; `Race` is their value, and the functions on it specify the
 methods of `ResolutionRace`.
 */
module HostResolver {
  import opened Wrappers

  type Task = nat
  type Host = string
  type Address = nat

  /**
   What a task ends with: an exception, the addresses it found, or a CancelledError, which is raised
   again where the outcome is read.
   */
  datatype Outcome = Raised(exception: nat) | Found(addresses: seq<Address>) | Aborted

  /** A task of `_make_resolution_coros`; an eager task may be done as soon as it is created. */
  datatype Created = Created(task: Task, host: Host, doneAtOnce: bool)

  type Results = map<Host, seq<Address>>

  datatype Race = Race(
    taskToHost: map<Task, Host>,
    hostTasks: map<Host, set<Task>>,
    results: Results,
    exceptions: seq<nat>,
    handled: seq<Task>,      // history: tasks whose outcome was used
    cancelled: seq<Task>,    // history: tasks that were told to cancel
    escaped: seq<Task>       // history: tasks whose CancelledError ended the race
  )

  function ResultsFor(results: Results, host: Host): seq<Address> {
    if host in results then results[host] else []
  }

  function TasksFor(hostTasks: map<Host, set<Task>>, host: Host): set<Task> {
    if host in hostTasks then hostTasks[host] else {}
  }

  predicate Succeeds(o: Outcome) {
    o.Found? && o.addresses != []
  }

  /** The outcome of `task` goes to its host's results or to the exceptions. */
  function UseOutcome(r: Race, task: Task, host: Host, o: Outcome): Race {
    match o
    case Raised(e) => r.(exceptions := r.exceptions + [e], handled := r.handled + [task])
    case Found(found) =>
      r.(results := if found == [] then r.results else r.results[host := ResultsFor(r.results, host) + found],
         handled := r.handled + [task])
    case Aborted => r.(escaped := r.escaped + [task])
  }

  /** A task that was done as soon as it was created: here even an empty result makes an entry. */
  function UseAtOnce(r: Race, task: Task, host: Host, o: Outcome): Race {
    match o
    case Raised(e) => r.(exceptions := r.exceptions + [e], handled := r.handled + [task])
    case Found(found) =>
      r.(results := r.results[host := ResultsFor(r.results, host) + found], handled := r.handled + [task])
    case Aborted => r.(escaped := r.escaped + [task])
  }

  /** A pending task leaves both indexes. */
  function Forget(r: Race, task: Task): Race
    requires task in r.taskToHost
  {
    var host := r.taskToHost[task];
    r.(taskToHost := r.taskToHost - {task},
       hostTasks := r.hostTasks[host := TasksFor(r.hostTasks, host) - {task}])
  }

  function DrainOne(r: Race, outcome: Task -> Outcome, task: Task): Race {
    if task in r.taskToHost then UseOutcome(Forget(r, task), task, r.taskToHost[task], outcome(task)) else r
  }

  /** `_drain_done_tasks`, with the done tasks in the order in which they are iterated. */
  function Drain(r: Race, outcome: Task -> Outcome, order: seq<Task>): Race {
    if order == [] then r else DrainOne(Drain(r, outcome, order[..|order| - 1]), outcome, order[|order| - 1])
  }

  /** The hosts that produced a result in this round. */
  function FinishedHosts(hosts: map<Task, Host>, outcome: Task -> Outcome, order: seq<Task>): set<Host> {
    if order == [] then {}
    else
      var t := order[|order| - 1];
      FinishedHosts(hosts, outcome, order[..|order| - 1]) +
      if t in hosts && outcome(t).Found? && outcome(t).addresses != [] then {hosts[t]} else {}
  }

  function CancelOne(r: Race, task: Task): Race {
    r.(taskToHost := r.taskToHost - {task}, cancelled := r.cancelled + [task])
  }

  function CancelAll(r: Race, order: seq<Task>): Race {
    if order == [] then r else CancelOne(CancelAll(r, order[..|order| - 1]), order[|order| - 1])
  }

  // Invariants of the indexes

  /** The indexes describe the same pending tasks. */
  ghost predicate Inverse(taskToHost: map<Task, Host>, hostTasks: map<Host, set<Task>>) {
    && (forall t | t in taskToHost :: t in TasksFor(hostTasks, taskToHost[t]))
    && (forall h, t | t in TasksFor(hostTasks, h) :: t in taskToHost && taskToHost[t] == h)
  }

  /** `order` is one way to iterate over the set. */
  ghost predicate Iterates<T(!new)>(order: seq<T>, elements: set<T>) {
    && (forall x :: x in order <==> x in elements)
    && forall i, j | 0 <= i < j < |order| :: order[i] != order[j]
  }

  /** Every task is pending, handled, cancelled or escaped, and only one of these. */
  ghost function Accounted(r: Race): multiset<Task> {
    multiset(r.handled) + multiset(r.cancelled) + multiset(r.escaped) + multiset(r.taskToHost.Keys)
  }

  // Where the results come from

  /** The addresses that the tasks `handled` of one host found, in the order in which they were handled. */
  function FoundBy(handled: seq<Task>, outcome: Task -> Outcome, hostOf: Task -> Host, host: Host): seq<Address> {
    if handled == [] then []
    else
      var t := handled[|handled| - 1];
      FoundBy(handled[..|handled| - 1], outcome, hostOf, host) +
      if hostOf(t) == host && outcome(t).Found? then outcome(t).addresses else []
  }

  /** Each host's results are the cached ones and then what its handled tasks found. */
  ghost predicate Sourced(results: Results, cached: Results, handled: seq<Task>, outcome: Task -> Outcome,
                          hostOf: Task -> Host)
  {
    forall h :: ResultsFor(results, h) == ResultsFor(cached, h) + FoundBy(handled, outcome, hostOf, h)
  }

  /** The exceptions with which the handled tasks ended, in the order in which they were handled. */
  function RaisedBy(handled: seq<Task>, outcome: Task -> Outcome): seq<nat> {
    if handled == [] then []
    else
      var t := handled[|handled| - 1];
      RaisedBy(handled[..|handled| - 1], outcome) + if outcome(t).Raised? then [outcome(t).exception] else []
  }

  lemma UseKeepsErrors(r: Race, d: Race, outcome: Task -> Outcome, t: Task, host: Host)
    requires d == UseOutcome(r, t, host, outcome(t)) || d == UseAtOnce(r, t, host, outcome(t))
    requires r.exceptions == RaisedBy(r.handled, outcome)
    ensures d.exceptions == RaisedBy(d.handled, outcome)
  {
    assert (r.handled + [t])[..|r.handled|] == r.handled;
  }

  lemma {:induction false} DrainKeepsErrors(r: Race, outcome: Task -> Outcome, order: seq<Task>)
    requires r.exceptions == RaisedBy(r.handled, outcome)
    ensures var d := Drain(r, outcome, order); d.exceptions == RaisedBy(d.handled, outcome)
    decreases |order|
  {
    hide RaisedBy, UseOutcome;
    if order != [] {
      var t := order[|order| - 1];
      DrainKeepsErrors(r, outcome, order[..|order| - 1]);
      var d := Drain(r, outcome, order[..|order| - 1]);
      if t in d.taskToHost {
        var f := Forget(d, t);
        UseKeepsErrors(f, UseOutcome(f, t, d.taskToHost[t], outcome(t)), outcome, t, d.taskToHost[t]);
      }
    }
  }

  ghost predicate Placed(taskToHost: map<Task, Host>, hostOf: Task -> Host) {
    forall t | t in taskToHost :: taskToHost[t] == hostOf(t)
  }

  lemma FoundByOneMore(handled: seq<Task>, outcome: Task -> Outcome, hostOf: Task -> Host, t: Task, host: Host)
    ensures FoundBy(handled + [t], outcome, hostOf, host) ==
            FoundBy(handled, outcome, hostOf, host) +
            if hostOf(t) == host && outcome(t).Found? then outcome(t).addresses else []
  {
    assert (handled + [t])[..|handled|] == handled;
  }

  lemma UseIsSourced(r: Race, d: Race, cached: Results, outcome: Task -> Outcome, hostOf: Task -> Host, t: Task)
    requires Sourced(r.results, cached, r.handled, outcome, hostOf)
    requires d == UseOutcome(r, t, hostOf(t), outcome(t)) || d == UseAtOnce(r, t, hostOf(t), outcome(t))
    ensures Sourced(d.results, cached, d.handled, outcome, hostOf)
  {
    hide FoundBy, UseOutcome, UseAtOnce, ResultsFor;
    forall h
      ensures ResultsFor(d.results, h) == ResultsFor(cached, h) + FoundBy(d.handled, outcome, hostOf, h)
    {
      assert ResultsFor(r.results, h) == ResultsFor(cached, h) + FoundBy(r.handled, outcome, hostOf, h);
      FoundByOneMore(r.handled, outcome, hostOf, t, h);
      UsedResults(r, d, outcome, hostOf, t, h);
    }
  }

  /** What one outcome does to the results of one host. */
  lemma UsedResults(r: Race, d: Race, outcome: Task -> Outcome, hostOf: Task -> Host, t: Task, host: Host)
    requires d == UseOutcome(r, t, hostOf(t), outcome(t)) || d == UseAtOnce(r, t, hostOf(t), outcome(t))
    ensures ResultsFor(d.results, host) ==
            ResultsFor(r.results, host) +
            if hostOf(t) == host && outcome(t).Found? then outcome(t).addresses else []
    ensures d.handled == if outcome(t) == Aborted then r.handled else r.handled + [t]
  {
  }

  lemma {:induction false} DrainIsSourced(r: Race, cached: Results, outcome: Task -> Outcome, hostOf: Task -> Host,
                                          order: seq<Task>)
    requires Inverse(r.taskToHost, r.hostTasks) && Placed(r.taskToHost, hostOf)
    requires Sourced(r.results, cached, r.handled, outcome, hostOf)
    ensures var d := Drain(r, outcome, order);
            Sourced(d.results, cached, d.handled, outcome, hostOf)
    decreases |order|
  {
    hide Sourced, UseOutcome;
    if order != [] {
      var init := order[..|order| - 1];
      var t := order[|order| - 1];
      DrainIsSourced(r, cached, outcome, hostOf, init);
      DrainKeeps(r, outcome, init);
      var d := Drain(r, outcome, init);
      if t in d.taskToHost {
        UseIsSourced(Forget(d, t), UseOutcome(Forget(d, t), t, hostOf(t), outcome(t)), cached, outcome, hostOf, t);
      }
    }
  }

  lemma OneMore(s: set<Task>, t: Task)
    requires t !in s
    ensures multiset(s + {t}) == multiset(s) + multiset{t}
  {
  }

  lemma UseKeeps(r: Race, t: Task, host: Host, o: Outcome)
    ensures var d := UseOutcome(r, t, host, o);
            && d.taskToHost == r.taskToHost && d.hostTasks == r.hostTasks && d.cancelled == r.cancelled
            && multiset(d.handled) + multiset(d.escaped) == multiset(r.handled) + multiset(r.escaped) + multiset{t}
  {
  }

  lemma DrainOneKeeps(r: Race, outcome: Task -> Outcome, t: Task)
    requires Inverse(r.taskToHost, r.hostTasks)
    ensures var d := DrainOne(r, outcome, t);
            && Inverse(d.taskToHost, d.hostTasks)
            && d.taskToHost == r.taskToHost - {t}
            && (forall h | h in d.hostTasks :: h in r.hostTasks)
  {
    if t in r.taskToHost {
      hide UseOutcome, DrainOne;
      DrainOneIs(r, outcome, t);
      UseKeeps(Forget(r, t), t, r.taskToHost[t], outcome(t));
      ForgetKeeps(r, t);
    }
  }

  lemma DrainOneIs(r: Race, outcome: Task -> Outcome, t: Task)
    requires t in r.taskToHost
    ensures DrainOne(r, outcome, t) == UseOutcome(Forget(r, t), t, r.taskToHost[t], outcome(t))
  {
  }

  lemma ForgetKeeps(r: Race, t: Task)
    requires Inverse(r.taskToHost, r.hostTasks) && t in r.taskToHost
    ensures var d := Forget(r, t);
            && Inverse(d.taskToHost, d.hostTasks)
            && d.taskToHost == r.taskToHost - {t}
            && (forall h | h in d.hostTasks :: h in r.hostTasks)
  {
    var d := Forget(r, t);
    assert forall h :: TasksFor(d.hostTasks, h) == TasksFor(r.hostTasks, h) - {t};
  }

  lemma DrainOneAccounts(r: Race, outcome: Task -> Outcome, t: Task)
    ensures Accounted(DrainOne(r, outcome, t)) == Accounted(r) && DrainOne(r, outcome, t).cancelled == r.cancelled
  {
    if t in r.taskToHost {
      hide UseOutcome, DrainOne;
      DrainOneIs(r, outcome, t);
      UseKeeps(Forget(r, t), t, r.taskToHost[t], outcome(t));
      assert r.taskToHost.Keys == (r.taskToHost - {t}).Keys + {t};
      OneMore((r.taskToHost - {t}).Keys, t);
    }
  }

  lemma {:induction false} DrainKeeps(r: Race, outcome: Task -> Outcome, order: seq<Task>)
    requires Inverse(r.taskToHost, r.hostTasks)
    ensures var d := Drain(r, outcome, order);
            && Inverse(d.taskToHost, d.hostTasks)
            && (forall t :: t in d.taskToHost <==> t in r.taskToHost && t !in order)
            && (forall t | t in d.taskToHost :: d.taskToHost[t] == r.taskToHost[t])
            && (forall h | h in d.hostTasks :: h in r.hostTasks)
  {
    if order != [] {
      var init := order[..|order| - 1];
      DrainKeeps(r, outcome, init);
      DrainOneKeeps(Drain(r, outcome, init), outcome, order[|order| - 1]);
      assert order == init + [order[|order| - 1]];
    }
  }

  lemma {:induction false} DrainAccounts(r: Race, outcome: Task -> Outcome, order: seq<Task>)
    ensures Accounted(Drain(r, outcome, order)) == Accounted(r)
  {
    if order != [] {
      DrainAccounts(r, outcome, order[..|order| - 1]);
      DrainOneAccounts(Drain(r, outcome, order[..|order| - 1]), outcome, order[|order| - 1]);
    }
  }

  /** A host that does not finish in this round gets nothing in it. */
  lemma {:induction false} OthersUntouched(r: Race, outcome: Task -> Outcome, order: seq<Task>, host: Host)
    requires Inverse(r.taskToHost, r.hostTasks)
    requires host !in FinishedHosts(r.taskToHost, outcome, order)
    ensures ResultsFor(Drain(r, outcome, order).results, host) == ResultsFor(r.results, host)
  {
    if order != [] {
      OthersUntouched(r, outcome, order[..|order| - 1], host);
      DrainKeeps(r, outcome, order[..|order| - 1]);
    }
  }

  /** Finished hosts had tasks. */
  lemma {:induction false} FinishedHadTasks(r: Race, outcome: Task -> Outcome, order: seq<Task>, host: Host)
    requires Inverse(r.taskToHost, r.hostTasks) && host in FinishedHosts(r.taskToHost, outcome, order)
    ensures host in r.hostTasks
  {
    var t := order[|order| - 1];
    if !(t in r.taskToHost && Succeeds(outcome(t)) && r.taskToHost[t] == host) {
      FinishedHadTasks(r, outcome, order[..|order| - 1], host);
    }
  }

  lemma {:induction false} CancelKeeps(r: Race, order: seq<Task>)
    ensures var d := CancelAll(r, order);
            && d == r.(taskToHost := d.taskToHost, cancelled := r.cancelled + order)
            && (forall t :: t in d.taskToHost <==> t in r.taskToHost && t !in order)
            && (forall t | t in d.taskToHost :: d.taskToHost[t] == r.taskToHost[t])
  {
    if order != [] {
      CancelKeeps(r, order[..|order| - 1]);
      assert order == order[..|order| - 1] + [order[|order| - 1]];
    }
  }

  lemma CancelOneAccounts(r: Race, t: Task)
    requires t in r.taskToHost
    ensures Accounted(CancelOne(r, t)) == Accounted(r)
  {
    assert r.taskToHost.Keys == (r.taskToHost - {t}).Keys + {t};
    OneMore((r.taskToHost - {t}).Keys, t);
  }

  lemma {:induction false} CancelAccounts(r: Race, order: seq<Task>)
    requires forall i | 0 <= i < |order| :: order[i] in r.taskToHost
    requires forall i, j | 0 <= i < j < |order| :: order[i] != order[j]
    ensures Accounted(CancelAll(r, order)) == Accounted(r)
  {
    if order != [] {
      var init := order[..|order| - 1];
      var t := order[|order| - 1];
      CancelAccounts(r, init);
      CancelKeeps(r, init);
      var d := CancelAll(r, init);
      assert t !in init;
      CancelOneAccounts(d, t);
    }
  }

  method Iterate<T(==, !new)>(elements: set<T>) returns (order: seq<T>)
    ensures Iterates(order, elements)
  {
    order := [];
    var todo := elements;
    while todo != {}
      invariant todo <= elements
      invariant forall x :: x in order <==> x in elements && x !in todo
      invariant forall i, j | 0 <= i < j < |order| :: order[i] != order[j]
    {
      var x :| x in todo;
      assert forall i | 0 <= i < |order| :: order[i] in order;
      order := order + [x];
      todo := todo - {x};
    }
  }

  /** A new pending task enters both indexes. */
  function AddPending(r: Race, t: Task, host: Host): Race {
    r.(taskToHost := r.taskToHost[t := host], hostTasks := r.hostTasks[host := TasksFor(r.hostTasks, host) + {t}])
  }

  lemma AddPendingKeeps(r: Race, t: Task, host: Host)
    requires Inverse(r.taskToHost, r.hostTasks) && t !in r.taskToHost
    ensures var d := AddPending(r, t, host); Inverse(d.taskToHost, d.hostTasks)
  {
    var d := AddPending(r, t, host);
    assert forall h :: TasksFor(d.hostTasks, h) == TasksFor(r.hostTasks, h) + if h == host then {t} else {};
  }

  lemma AddPendingAccounts(r: Race, t: Task, host: Host)
    requires t !in r.taskToHost
    ensures Accounted(AddPending(r, t, host)) == Accounted(r) + multiset{t}
  {
    assert AddPending(r, t, host).taskToHost.Keys == r.taskToHost.Keys + {t};
    OneMore(r.taskToHost.Keys, t);
  }

  lemma UseAtOnceAccounts(r: Race, t: Task, host: Host, o: Outcome)
    ensures Accounted(UseAtOnce(r, t, host, o)) == Accounted(r) + multiset{t}
  {
  }

  /** The tasks of `before` whose host is not in `hosts`, and no others, are pending in `after`. */
  ghost predicate OnlyLost(before: map<Task, Host>, after: map<Task, Host>, hosts: set<Host>) {
    && (forall t | t in before :: t in after <==> before[t] !in hosts)
    && (forall t | t in after :: t in before && after[t] == before[t])
  }

  lemma HostsGoneTasksGone(before: Race, after: Race, hosts: set<Host>)
    requires Inverse(before.taskToHost, before.hostTasks) && Inverse(after.taskToHost, after.hostTasks)
    requires forall h :: h in after.hostTasks <==> h in before.hostTasks && h !in hosts
    requires forall h | h in after.hostTasks :: after.hostTasks[h] == before.hostTasks[h]
    ensures OnlyLost(before.taskToHost, after.taskToHost, hosts)
  {
    forall t | t in before.taskToHost
      ensures t in after.taskToHost <==> before.taskToHost[t] !in hosts
    {
      var h := before.taskToHost[t];
      assert t in TasksFor(before.hostTasks, h);
      assert h !in hosts ==> t in TasksFor(after.hostTasks, h);
      assert t in after.taskToHost ==> t in TasksFor(before.hostTasks, after.taskToHost[t]);
    }
    forall t | t in after.taskToHost
      ensures t in before.taskToHost && after.taskToHost[t] == before.taskToHost[t]
    {
      assert t in TasksFor(before.hostTasks, after.taskToHost[t]);
    }
  }

  /** What a round leaves pending: the tasks that were not done, unless their host was finished. */
  ghost predicate StillPending(before: map<Task, Host>, after: map<Task, Host>, outcome: Task -> Outcome,
                               done: seq<Task>)
  {
    forall t :: t in after <==> t in before && t !in done && before[t] !in FinishedHosts(before, outcome, done)
  }

  /** The results of a finished host are final: it has no task left that could add to them. */
  ghost predicate Final(finished: Results, results: Results, hostTasks: map<Host, set<Task>>) {
    forall h | h in finished :: h !in hostTasks && ResultsFor(results, h) == finished[h]
  }

  function Tasks(plan: seq<Created>): seq<Task> {
    if plan == [] then [] else Tasks(plan[..|plan| - 1]) + [plan[|plan| - 1].task]
  }

  lemma {:induction false} TasksAt(plan: seq<Created>)
    ensures |Tasks(plan)| == |plan| && forall i | 0 <= i < |plan| :: Tasks(plan)[i] == plan[i].task
  {
    if plan != [] {
      TasksAt(plan[..|plan| - 1]);
    }
  }

  lemma NewTask(plan: seq<Created>, i: nat)
    requires i < |plan| && forall k, j | 0 <= k < j < |plan| :: plan[k].task != plan[j].task
    ensures plan[i].task !in multiset(Tasks(plan[..i]))
    ensures multiset(Tasks(plan[..i + 1])) == multiset(Tasks(plan[..i])) + multiset{plan[i].task}
  {
    TasksAt(plan[..i]);
    assert plan[..i + 1][..i] == plan[..i];
    assert plan[i].task !in Tasks(plan[..i]);
  }

  /** Tasks are cancelled for the sake of a finished host. */
  ghost predicate CancelledFor(cancelled: seq<Task>, from: nat, hosts: set<Host>, hostOf: Task -> Host) {
    forall i | from <= i < |cancelled| :: hostOf(cancelled[i]) in hosts
  }

  /** The outcome of every task but the last is usable, and of the last one unless the drain is aborted. */
  ghost predicate StopsAt(order: seq<Task>, outcome: Task -> Outcome, processed: nat, aborted: bool) {
    && processed <= |order| && (!aborted ==> processed == |order|) && (aborted ==> processed > 0)
    && forall i | 0 <= i < processed :: outcome(order[i]) == Aborted <==> aborted && i == processed - 1
  }

  lemma {:induction false} DrainHandles(r: Race, outcome: Task -> Outcome, order: seq<Task>)
    requires Inverse(r.taskToHost, r.hostTasks)
    requires forall i | 0 <= i < |order| :: order[i] in r.taskToHost && outcome(order[i]) != Aborted
    requires forall i, j | 0 <= i < j < |order| :: order[i] != order[j]
    ensures Drain(r, outcome, order).handled == r.handled + order
    ensures Drain(r, outcome, order).escaped == r.escaped
  {
    if order != [] {
      var init := order[..|order| - 1];
      DrainHandles(r, outcome, init);
      DrainKeeps(r, outcome, init);
      assert order == init + [order[|order| - 1]];
      assert order[|order| - 1] !in init;
    }
  }

  // What finishes a host

  predicate FindsSome(outcome: Task -> Outcome, task: Task) {
    outcome(task).Found? && outcome(task).addresses != []
  }

  ghost predicate FoundSome(handled: seq<Task>, outcome: Task -> Outcome, hostOf: Task -> Host, host: Host) {
    exists i :: 0 <= i < |handled| && hostOf(handled[i]) == host && FindsSome(outcome, handled[i])
  }

  /** Each of the hosts has a handled task that found an address. */
  ghost predicate Grounded(hosts: set<Host>, handled: seq<Task>, outcome: Task -> Outcome, hostOf: Task -> Host) {
    forall h | h in hosts :: FoundSome(handled, outcome, hostOf, h)
  }

  lemma StillGrounded(hosts: set<Host>, handled: seq<Task>, more: seq<Task>, outcome: Task -> Outcome,
                      hostOf: Task -> Host)
    requires Grounded(hosts, handled, outcome, hostOf) && handled <= more
    ensures Grounded(hosts, more, outcome, hostOf)
  {
    forall h | h in hosts
      ensures FoundSome(more, outcome, hostOf, h)
    {
      assert FoundSome(handled, outcome, hostOf, h);
      var i :| 0 <= i < |handled| && hostOf(handled[i]) == h && FindsSome(outcome, handled[i]);
      assert more[i] == handled[i];
    }
  }

  lemma {:induction false} FinishedFound(hosts: map<Task, Host>, outcome: Task -> Outcome, hostOf: Task -> Host,
                                         order: seq<Task>, host: Host)
    requires Placed(hosts, hostOf) && host in FinishedHosts(hosts, outcome, order)
    ensures FoundSome(order, outcome, hostOf, host)
    decreases |order|
  {
    var init := order[..|order| - 1];
    var t := order[|order| - 1];
    if !(t in hosts && Succeeds(outcome(t)) && hosts[t] == host) {
      FinishedFound(hosts, outcome, hostOf, init, host);
      var i :| 0 <= i < |init| && hostOf(init[i]) == host && FindsSome(outcome, init[i]);
      assert order[i] == init[i];
    }
  }

  lemma FinishedAreGrounded(hosts: map<Task, Host>, handled: seq<Task>, done: seq<Task>, outcome: Task -> Outcome,
                            hostOf: Task -> Host)
    requires Placed(hosts, hostOf)
    ensures Grounded(FinishedHosts(hosts, outcome, done), handled + done, outcome, hostOf)
  {
    forall h | h in FinishedHosts(hosts, outcome, done)
      ensures FoundSome(handled + done, outcome, hostOf, h)
    {
      FinishedFound(hosts, outcome, hostOf, done, h);
      var i :| 0 <= i < |done| && hostOf(done[i]) == h && FindsSome(outcome, done[i]);
      assert (handled + done)[|handled| + i] == done[i];
    }
  }

  /** Only tasks that ended in CancelledError escape. */
  ghost predicate AllAborted(escaped: seq<Task>, outcome: Task -> Outcome) {
    forall i | 0 <= i < |escaped| :: outcome(escaped[i]) == Aborted
  }

  /** A host leaves the index and its pending tasks are cancelled. */
  lemma SiblingsGone(r: Race, host: Host, order: seq<Task>)
    requires Inverse(r.taskToHost, r.hostTasks) && Iterates(order, TasksFor(r.hostTasks, host))
    ensures forall i | 0 <= i < |order| :: order[i] in r.taskToHost
    ensures forall i, j | 0 <= i < j < |order| :: order[i] != order[j]
    ensures var d := CancelAll(r.(hostTasks := r.hostTasks - {host}), order);
            && Inverse(d.taskToHost, d.hostTasks) && Accounted(d) == Accounted(r)
            && d.hostTasks == r.hostTasks - {host} && d.cancelled == r.cancelled + order
            && (forall t | t in d.taskToHost :: t in r.taskToHost && d.taskToHost[t] == r.taskToHost[t])
  {
    hide CancelAll;
    forall i | 0 <= i < |order|
      ensures order[i] in r.taskToHost
    {
      assert order[i] in order;
    }
    var popped := r.(hostTasks := r.hostTasks - {host});
    CancelKeeps(popped, order);
    CancelAccounts(popped, order);
    var d := CancelAll(popped, order);
    LessOneHost(r, d, host);
  }

  lemma LessOneHost(r: Race, d: Race, host: Host)
    requires Inverse(r.taskToHost, r.hostTasks) && d.hostTasks == r.hostTasks - {host}
    requires forall t :: t in d.taskToHost <==> t in r.taskToHost && t !in TasksFor(r.hostTasks, host)
    requires forall t | t in d.taskToHost :: d.taskToHost[t] == r.taskToHost[t]
    ensures Inverse(d.taskToHost, d.hostTasks)
  {
    assert forall h :: TasksFor(d.hostTasks, h) == if h == host then {} else TasksFor(r.hostTasks, h);
    forall h, t | t in TasksFor(d.hostTasks, h)
      ensures t in d.taskToHost && d.taskToHost[t] == h
    {
      assert t in TasksFor(r.hostTasks, h) && r.taskToHost[t] == h != host;
      assert t !in TasksFor(r.hostTasks, host);
    }
    forall t | t in d.taskToHost
      ensures t in TasksFor(d.hostTasks, d.taskToHost[t])
    {
      assert t in TasksFor(r.hostTasks, r.taskToHost[t]);
    }
  }

  class ResolutionRace {
    const outcome: Task -> Outcome
    const hostOf: Task -> Host
    const cached: Results
    var taskToHost: map<Task, Host>
    var hostTasks: map<Host, set<Task>>
    var resolveResults: Results
    var exceptions: seq<nat>
    ghost var handled: seq<Task>
    ghost var cancelled: seq<Task>
    ghost var escaped: seq<Task>
    ghost var finished: Results      // history: a host's results at the end of the round that finished it

    ghost function View(): Race
      reads this
    {
      Race(taskToHost, hostTasks, resolveResults, exceptions, handled, cancelled, escaped)
    }

    /** Both indexes agree, with the tasks' hosts too, and every result has its source. */
    ghost predicate Consistent()
      reads this
    {
      && Inverse(taskToHost, hostTasks) && Placed(taskToHost, hostOf)
      && Sourced(resolveResults, cached, handled, outcome, hostOf) && AllAborted(escaped, outcome)
      && exceptions == RaisedBy(handled, outcome)
    }

    constructor (outcome: Task -> Outcome, hostOf: Task -> Host, cached: Results)
      ensures this.outcome == outcome && this.hostOf == hostOf && this.cached == cached
      ensures View() == Race(map[], map[], cached, [], [], [], []) && finished == map[]
    {
      this.outcome, this.hostOf, this.cached := outcome, hostOf, cached;
      taskToHost, hostTasks, resolveResults, exceptions := map[], map[], cached, [];
      handled, cancelled, escaped, finished := [], [], [], map[];
    }

    /** Reads the outcome of a task; a CancelledError is raised there. */
    method Use(task: Task, host: Host) returns (finishes: bool, aborted: bool)
      modifies this`resolveResults, this`exceptions, this`handled, this`escaped
      ensures View() == UseOutcome(old(View()), task, host, outcome(task))
      ensures finishes == Succeeds(outcome(task)) && aborted == outcome(task).Aborted?
    {
      finishes, aborted := false, false;
      match outcome(task) {
        case Aborted =>
          escaped := escaped + [task];
          return false, true;
        case Raised(e) => exceptions := exceptions + [e];
        case Found(found) =>
          if found != [] {
            resolveResults := resolveResults[host := ResultsFor(resolveResults, host) + found];
            finishes := true;
          }
      }
      handled := handled + [task];
    }

    /** One turn of `_drain_done_tasks`. */
    method DrainTask(task: Task, host: Host) returns (finishes: bool, aborted: bool)
      requires task in taskToHost && taskToHost[task] == host && Inverse(taskToHost, hostTasks)
      modifies this`taskToHost, this`hostTasks, this`resolveResults, this`exceptions, this`handled, this`escaped
      ensures View() == DrainOne(old(View()), outcome, task)
      ensures finishes == Succeeds(outcome(task)) && aborted == outcome(task).Aborted?
    {
      hide UseOutcome, Inverse;
      TaskHasSet(View(), task);
      taskToHost := taskToHost - {task};
      hostTasks := hostTasks[host := hostTasks[host] - {task}];
      finishes, aborted := Use(task, host);
    }

    /** `_drain_done_tasks`; `order` is the order in which the set of done tasks is iterated. */
    method DrainDoneTasks(order: seq<Task>) returns (finishedHosts: set<Host>, aborted: bool, ghost processed: nat)
      requires forall i | 0 <= i < |order| :: order[i] in taskToHost
      requires forall i, j | 0 <= i < j < |order| :: order[i] != order[j]
      requires Inverse(taskToHost, hostTasks)
      modifies this`taskToHost, this`hostTasks, this`resolveResults, this`exceptions, this`handled, this`escaped
      ensures StopsAt(order, outcome, processed, aborted)
      ensures View() == Drain(old(View()), outcome, order[..processed])
      ensures finishedHosts == FinishedHosts(old(taskToHost), outcome, order[..processed])
    {
      hide DrainOne, Inverse;
      finishedHosts := {};
      ghost var before := View();
      for i := 0 to |order|
        invariant StopsAt(order[..i], outcome, i, false)
        invariant View() == Drain(before, outcome, order[..i])
        invariant finishedHosts == FinishedHosts(before.taskToHost, outcome, order[..i])
      {
        var task := order[i];
        DrainKeeps(before, outcome, order[..i]);
        assert task !in order[..i];
        assert order[..i + 1][..i] == order[..i];
        var host := taskToHost[task];
        var finishes, raised := DrainTask(task, host);
        if raised {
          return finishedHosts, true, i + 1;
        }
        if finishes {
          finishedHosts := finishedHosts + {host};
        }
      }
      assert order[..|order|] == order;
      aborted, processed := false, |order|;
    }

    /** Cancels pending tasks that have already left the host index. */
    method CancelTasks(order: seq<Task>)
      requires forall i | 0 <= i < |order| :: order[i] in taskToHost
      requires forall i, j | 0 <= i < j < |order| :: order[i] != order[j]
      modifies this`taskToHost, this`cancelled
      ensures View() == CancelAll(old(View()), order)
    {
      ghost var before := View();
      for i := 0 to |order|
        invariant View() == CancelAll(before, order[..i])
      {
        assert order[..i + 1][..i] == order[..i];
        taskToHost := taskToHost - {order[i]};
        cancelled := cancelled + [order[i]];
      }
      assert order[..|order|] == order;
    }

    /** One turn of `_cancel_sibling_tasks`: `host_tasks.pop(host, ())` and the cancellations. */
    method CancelSiblingsOf(host: Host) returns (cancelledNow: seq<Task>)
      requires Inverse(taskToHost, hostTasks)
      modifies this`taskToHost, this`hostTasks, this`cancelled
      ensures Inverse(taskToHost, hostTasks)
      ensures hostTasks == old(hostTasks) - {host}
      ensures Iterates(cancelledNow, TasksFor(old(hostTasks), host))
      ensures cancelled == old(cancelled) + cancelledNow
      ensures forall t | t in taskToHost :: t in old(taskToHost) && taskToHost[t] == old(taskToHost)[t]
      ensures Accounted(View()) == old(Accounted(View()))
    {
      hide Accounted, Inverse, Iterates, CancelAll;
      cancelledNow := Iterate(TasksFor(hostTasks, host));
      SiblingsGone(View(), host, cancelledNow);
      hostTasks := hostTasks - {host};
      CancelTasks(cancelledNow);
    }

    /** `_cancel_sibling_tasks`: the finished hosts leave both indexes, their pending tasks cancelled. */
    method CancelSiblingTasks(finishedHosts: set<Host>) returns (cleanup: seq<Task>)
      requires Inverse(taskToHost, hostTasks) && Placed(taskToHost, hostOf)
      modifies this`taskToHost, this`hostTasks, this`cancelled
      ensures Inverse(taskToHost, hostTasks) && Placed(taskToHost, hostOf)
      ensures forall h :: h in hostTasks <==> h in old(hostTasks) && h !in finishedHosts
      ensures OnlyLost(old(taskToHost), taskToHost, finishedHosts)
      ensures cancelled == old(cancelled) + cleanup
      ensures CancelledFor(cancelled, |old(cancelled)|, finishedHosts, hostOf)
      ensures Accounted(View()) == old(Accounted(View()))
    {
      hide Accounted;
      ghost var before := View();
      cleanup := [];
      var todo := finishedHosts;
      while todo != {}
        invariant todo <= finishedHosts
        invariant Inverse(taskToHost, hostTasks) && Placed(taskToHost, hostOf)
        invariant forall h :: h in hostTasks <==> h in old(hostTasks) && (h !in finishedHosts || h in todo)
        invariant forall h | h in hostTasks :: hostTasks[h] == old(hostTasks)[h]
        invariant cancelled == old(cancelled) + cleanup
        invariant CancelledFor(cancelled, |old(cancelled)|, finishedHosts, hostOf)
        invariant Accounted(View()) == old(Accounted(View()))
      {
        var host :| host in todo;
        SiblingsHost(View(), host, hostOf);
        ghost var earlier := cancelled;
        var now := CancelSiblingsOf(host);
        MoreCancelled(earlier, now, |before.cancelled|, host, finishedHosts, hostOf);
        cleanup := cleanup + now;
        todo := todo - {host};
      }
      HostsGoneTasksGone(before, View(), finishedHosts);
    }

    /**
     One round: the outcomes of the done tasks are used, the hosts that found something are finished, and
     their other tasks cancelled.  It ends early when the CancelledError of a done task escapes.
     */
    method Round(done: seq<Task>) returns (aborted: bool, cleanup: seq<Task>)
      requires forall i | 0 <= i < |done| :: done[i] in taskToHost
      requires forall i, j | 0 <= i < j < |done| :: done[i] != done[j]
      requires Consistent() && Final(finished, resolveResults, hostTasks)
      requires CancelledFor(cancelled, 0, finished.Keys, hostOf) && Grounded(finished.Keys, handled, outcome, hostOf)
      modifies this
      ensures aborted <==> exists i :: 0 <= i < |done| && outcome(done[i]) == Aborted
      ensures Consistent() && Final(finished, resolveResults, hostTasks)
      ensures CancelledFor(cancelled, 0, finished.Keys, hostOf) && Grounded(finished.Keys, handled, outcome, hostOf)
      ensures !aborted ==> handled == old(handled) + done && cancelled == old(cancelled) + cleanup
      ensures Accounted(View()) == old(Accounted(View()))
      ensures |escaped| == |old(escaped)| + if aborted then 1 else 0
      ensures !aborted ==> StillPending(old(taskToHost), taskToHost, outcome, done)
      ensures !aborted ==> finished.Keys == old(finished).Keys + FinishedHosts(old(taskToHost), outcome, done)
      ensures forall h | h in old(finished) :: h in finished && finished[h] == old(finished)[h]
    {
      hide Inverse, Placed, Sourced, Accounted, Grounded, AllAborted, RaisedBy;
      FinishedAreGrounded(taskToHost, handled, done, outcome, hostOf);
      var finishedHosts: set<Host>;
      finishedHosts, aborted := DrainRound(done);
      StillGrounded(finished.Keys, old(handled), handled, outcome, hostOf);
      cleanup := [];
      if aborted {
        // the hosts that succeeded before the abort are not finished: their siblings are cancelled at the end
        return;
      }
      cleanup := CancelSiblingTasks(finishedHosts);
      BothGrounded(finished.Keys, finishedHosts, handled, outcome, hostOf);
      RecordFinished(finishedHosts);
    }

    ghost method RecordFinished(hosts: set<Host>)
      requires Final(finished, resolveResults, hostTasks) && hosts !! finished.Keys && hosts !! hostTasks.Keys
      modifies this`finished
      ensures Final(finished, resolveResults, hostTasks)
      ensures finished.Keys == old(finished).Keys + hosts
      ensures forall h | h in old(finished) :: finished[h] == old(finished)[h]
    {
      finished := finished + map h | h in hosts :: ResultsFor(resolveResults, h);
    }

    method DrainRound(done: seq<Task>) returns (finishedHosts: set<Host>, aborted: bool)
      requires forall i | 0 <= i < |done| :: done[i] in taskToHost
      requires forall i, j | 0 <= i < j < |done| :: done[i] != done[j]
      requires Consistent() && Final(finished, resolveResults, hostTasks)
      modifies this`taskToHost, this`hostTasks, this`resolveResults, this`exceptions, this`handled, this`escaped
      ensures aborted <==> exists i :: 0 <= i < |done| && outcome(done[i]) == Aborted
      ensures Consistent() && Final(finished, resolveResults, hostTasks)
      ensures Accounted(View()) == old(Accounted(View()))
      ensures |escaped| == |old(escaped)| + if aborted then 1 else 0
      ensures old(handled) <= handled && (!aborted ==> handled == old(handled) + done)
      ensures !aborted ==> forall t :: t in taskToHost <==> t in old(taskToHost) && t !in done
      ensures forall t | t in taskToHost :: t in old(taskToHost) && taskToHost[t] == old(taskToHost)[t]
      ensures !aborted ==> finishedHosts == FinishedHosts(old(taskToHost), outcome, done)
      ensures finishedHosts !! finished.Keys
    {
      hide Accounted;
      ghost var before := View();
      ghost var processed: nat;
      finishedHosts, aborted, processed := DrainDoneTasks(done);
      ghost var used := done[..processed];
      assert processed == |done| ==> used == done;
      DrainKeeps(before, outcome, used);
      DrainAccounts(before, outcome, used);
      DrainIsSourced(before, cached, outcome, hostOf, used);
      DrainKeepsErrors(before, outcome, used);
      DrainHistory(before, outcome, done, processed, aborted);
      forall h | h in finished
        ensures h !in finishedHosts && ResultsFor(resolveResults, h) == finished[h]
      {
        if h in finishedHosts {
          FinishedHadTasks(before, outcome, used, h);
        }
        OthersUntouched(before, outcome, used, h);
      }
    }

    /** One task of the plan: its outcome is used at once, or it is pending. */
    method CreateTask(c: Created) returns (aborted: bool)
      requires Consistent() && c.host == hostOf(c.task) && c.task !in Accounted(View())
      modifies this`taskToHost, this`hostTasks, this`resolveResults, this`exceptions, this`handled, this`escaped
      ensures Consistent()
      ensures Accounted(View()) == old(Accounted(View())) + multiset{c.task}
      ensures |escaped| == |old(escaped)| + if aborted then 1 else 0
    {
      hide RaisedBy, FoundBy;
      aborted := false;
      if c.doneAtOnce {
        UseAtOnceAccounts(View(), c.task, c.host, outcome(c.task));
        UseIsSourced(View(), UseAtOnce(View(), c.task, c.host, outcome(c.task)), cached, outcome, hostOf, c.task);
        UseKeepsErrors(View(), UseAtOnce(View(), c.task, c.host, outcome(c.task)), outcome, c.task, c.host);
        aborted := UseEager(c.task, c.host);
      } else {
        assert c.task !in taskToHost.Keys;
        AddPendingKeeps(View(), c.task, c.host);
        AddPendingAccounts(View(), c.task, c.host);
        Track(c.task, c.host);
      }
    }

    method UseEager(task: Task, host: Host) returns (aborted: bool)
      modifies this`resolveResults, this`exceptions, this`handled, this`escaped
      ensures View() == UseAtOnce(old(View()), task, host, outcome(task))
      ensures aborted == outcome(task).Aborted?
    {
      match outcome(task) {
        case Aborted =>
          escaped := escaped + [task];
          return true;
        case Raised(e) => exceptions := exceptions + [e];
        case Found(found) => resolveResults := resolveResults[host := ResultsFor(resolveResults, host) + found];
      }
      handled := handled + [task];
      return false;
    }

    method Track(task: Task, host: Host)
      modifies this`taskToHost, this`hostTasks
      ensures View() == AddPending(old(View()), task, host)
    {
      taskToHost := taskToHost[task := host];
      hostTasks := hostTasks[host := TasksFor(hostTasks, host) + {task}];
    }

    /** The tasks of the resolution coroutines, in the order in which they are created. */
    method CreateTasks(plan: seq<Created>) returns (aborted: bool, ghost created: nat)
      requires Accounted(View()) == multiset{} && Consistent() && escaped == []
      requires forall i, j | 0 <= i < j < |plan| :: plan[i].task != plan[j].task
      requires forall i | 0 <= i < |plan| :: plan[i].host == hostOf(plan[i].task)
      modifies this`taskToHost, this`hostTasks, this`resolveResults, this`exceptions, this`handled, this`escaped
      ensures Consistent() && finished == old(finished)
      ensures created <= |plan| && (!aborted ==> created == |plan|)
      ensures |escaped| == if aborted then 1 else 0
      ensures Accounted(View()) == multiset(Tasks(plan[..created]))
    {
      hide Accounted, Inverse, Placed, Sourced, AllAborted, RaisedBy;
      for i := 0 to |plan|
        invariant Consistent() && escaped == []
        invariant Accounted(View()) == multiset(Tasks(plan[..i]))
      {
        NewTask(plan, i);
        aborted := CreateTask(plan[i]);
        if aborted {
          return true, i + 1;
        }
      }
      return false, |plan|;
    }

    /**
     The loop of `_async_resolve_host`; the caller is cancelled at its await number `cancelAt`, if at all,
     and the CancelledError of a task may end the loop in a drain.
     */
    method RunRounds(cancelAt: Option<nat>) returns (interrupted: bool)
      requires Consistent() && Final(finished, resolveResults, hostTasks) && escaped == []
      requires CancelledFor(cancelled, 0, finished.Keys, hostOf) && Grounded(finished.Keys, handled, outcome, hostOf)
      modifies this
      ensures Consistent() && Final(finished, resolveResults, hostTasks) && |escaped| <= 1
      ensures CancelledFor(cancelled, 0, finished.Keys, hostOf) && Grounded(finished.Keys, handled, outcome, hostOf)
      ensures !interrupted ==> taskToHost == map[] && escaped == []
      ensures interrupted ==> cancelAt.Some? || escaped != []
      ensures Accounted(View()) == old(Accounted(View()))
    {
      hide Accounted, Inverse, Placed, Sourced, Grounded, AllAborted, RaisedBy;
      interrupted := false;
      var awaits := 0;
      while taskToHost != map[]
        invariant Consistent() && Final(finished, resolveResults, hostTasks) && escaped == []
        invariant CancelledFor(cancelled, 0, finished.Keys, hostOf)
        invariant Grounded(finished.Keys, handled, outcome, hostOf)
        invariant Accounted(View()) == old(Accounted(View()))
        decreases taskToHost.Keys
      {
        if cancelAt == Some(awaits) {
          return true;
        }
        awaits := awaits + 1;
        var done := FirstCompleted();
        ghost var pending := taskToHost.Keys;
        var aborted, cleanup := Round(done);
        if aborted {
          return true;
        }
        assert done[0] in pending && done[0] !in taskToHost.Keys && taskToHost.Keys <= pending;
        if cleanup != [] {
          if cancelAt == Some(awaits) {
            return true;
          }
          awaits := awaits + 1;
        }
      }
    }

    /** The `finally` block. */
    method CancelRemaining()
      requires Inverse(taskToHost, hostTasks)
      modifies this`taskToHost, this`cancelled
      ensures taskToHost == map[]
      ensures old(taskToHost) == map[] ==> cancelled == old(cancelled)
      ensures Accounted(View()) == old(Accounted(View()))
    {
      var rest := Iterate(taskToHost.Keys);
      CancelAccounts(View(), rest);
      CancelKeeps(View(), rest);
      CancelTasks(rest);
    }

    /**
     `_async_resolve_host`.  However it ends:
     - every created task was handled, told to cancel, or is the one whose CancelledError ended the race;
     - each host's results are the cached ones and then what its handled tasks found, in that order, and the
       exceptions are those of the handled tasks;
     - a finished host has a handled task that found something, and its results are those of that round.
     Only a cancellation of the caller or a task that ends in CancelledError interrupts it.  Without that,
     - only tasks of finished hosts were cancelled;
     - for each host with a task, some handled task found something, or all its tasks were handled.
     */
    method AsyncResolveHost(plan: seq<Created>, cancelAt: Option<nat>) returns (interrupted: bool, ghost created: nat)
      requires View() == Race(map[], map[], cached, [], [], [], []) && finished == map[]
      requires forall i, j | 0 <= i < j < |plan| :: plan[i].task != plan[j].task
      requires forall i | 0 <= i < |plan| :: plan[i].host == hostOf(plan[i].task)
      modifies this
      ensures created <= |plan| && (!interrupted ==> created == |plan| && escaped == []) && |escaped| <= 1
      ensures interrupted ==> cancelAt.Some? || escaped != []
      ensures forall i | 0 <= i < |escaped| :: outcome(escaped[i]) == Aborted
      ensures multiset(handled) + multiset(cancelled) + multiset(escaped) == multiset(Tasks(plan[..created]))
      ensures forall h ::
                ResultsFor(resolveResults, h) == ResultsFor(cached, h) + FoundBy(handled, outcome, hostOf, h)
      ensures exceptions == RaisedBy(handled, outcome)
      ensures forall h | h in finished ::
                ResultsFor(resolveResults, h) == finished[h] && FoundSome(handled, outcome, hostOf, h)
      ensures !interrupted ==> forall i | 0 <= i < |cancelled| :: hostOf(cancelled[i]) in finished
      ensures !interrupted ==> forall i | 0 <= i < |plan| ::
                plan[i].task in handled || FoundSome(handled, outcome, hostOf, plan[i].host)
    {
      hide Inverse, Placed, Sourced, Accounted, Final, CancelledFor, Grounded, AllAborted, FoundSome, RaisedBy;
      RaceStarts(View(), finished, outcome, hostOf);
      interrupted, created := CreateTasks(plan);
      NothingFinished(finished, handled, outcome, hostOf);
      if !interrupted {
        assert created == |plan| && plan[..created] == plan;
        interrupted := RunRounds(cancelAt);
      }
      CancelRemaining();
      RaceEnds(View(), finished, cached, outcome, hostOf);
      if !interrupted {
        AllAnswered(plan, View(), finished, outcome, hostOf);
      }
    }

    /** `asyncio.wait(..., FIRST_COMPLETED)`: some pending tasks, at least one. */
    method FirstCompleted() returns (done: seq<Task>)
      requires taskToHost != map[]
      ensures |done| > 0
      ensures forall i | 0 <= i < |done| :: done[i] in taskToHost
      ensures forall i, j | 0 <= i < j < |done| :: done[i] != done[j]
    {
      var tasks: set<Task> :| tasks <= taskToHost.Keys && tasks != {} by {
        assert taskToHost.Keys != {};
      }
      done := Iterate(tasks);
      var some :| some in tasks;
      assert some in done;
      forall i | 0 <= i < |done|
        ensures done[i] in taskToHost
      {
        assert done[i] in done;
      }
    }
  }

  lemma RaceStarts(r: Race, finished: Results, outcome: Task -> Outcome, hostOf: Task -> Host)
    requires r == Race(map[], map[], r.results, [], [], [], []) && finished == map[]
    ensures Inverse(r.taskToHost, r.hostTasks) && Placed(r.taskToHost, hostOf) && Accounted(r) == multiset{}
    ensures Sourced(r.results, r.results, r.handled, outcome, hostOf) && AllAborted(r.escaped, outcome)
    ensures Final(finished, r.results, r.hostTasks) && CancelledFor(r.cancelled, 0, finished.Keys, hostOf)
    ensures r.exceptions == RaisedBy(r.handled, outcome)
    ensures forall results, hostTasks :: Final(finished, results, hostTasks)
  {
  }

  lemma RaceEnds(r: Race, finished: Results, cached: Results, outcome: Task -> Outcome, hostOf: Task -> Host)
    requires r.taskToHost == map[] && Sourced(r.results, cached, r.handled, outcome, hostOf)
    requires Final(finished, r.results, r.hostTasks) && Grounded(finished.Keys, r.handled, outcome, hostOf)
    requires AllAborted(r.escaped, outcome)
    ensures forall i | 0 <= i < |r.escaped| :: outcome(r.escaped[i]) == Aborted
    ensures forall h | h in finished :: FoundSome(r.handled, outcome, hostOf, h)
    ensures Accounted(r) == multiset(r.handled) + multiset(r.cancelled) + multiset(r.escaped)
    ensures forall h :: ResultsFor(r.results, h) == ResultsFor(cached, h) + FoundBy(r.handled, outcome, hostOf, h)
    ensures forall h | h in finished :: ResultsFor(r.results, h) == finished[h]
    ensures CancelledFor(r.cancelled, 0, finished.Keys, hostOf) <==>
            forall i | 0 <= i < |r.cancelled| :: hostOf(r.cancelled[i]) in finished
  {
  }

  lemma NothingFinished(finished: Results, handled: seq<Task>, outcome: Task -> Outcome, hostOf: Task -> Host)
    requires finished == map[]
    ensures Grounded(finished.Keys, handled, outcome, hostOf)
  {
  }

  lemma BothGrounded(a: set<Host>, b: set<Host>, handled: seq<Task>, outcome: Task -> Outcome, hostOf: Task -> Host)
    requires Grounded(a, handled, outcome, hostOf) && Grounded(b, handled, outcome, hostOf)
    ensures Grounded(a + b, handled, outcome, hostOf)
  {
  }

  /** When nothing escaped and only tasks of finished hosts were cancelled, no host is left unanswered. */
  lemma AllAnswered(plan: seq<Created>, r: Race, finished: Results, outcome: Task -> Outcome, hostOf: Task -> Host)
    requires multiset(r.handled) + multiset(r.cancelled) == multiset(Tasks(plan))
    requires forall i | 0 <= i < |plan| :: plan[i].host == hostOf(plan[i].task)
    requires forall i | 0 <= i < |r.cancelled| :: hostOf(r.cancelled[i]) in finished
    requires forall h | h in finished :: FoundSome(r.handled, outcome, hostOf, h)
    ensures forall i | 0 <= i < |plan| ::
              plan[i].task in r.handled || FoundSome(r.handled, outcome, hostOf, plan[i].host)
  {
    hide FoundSome;
    TasksAt(plan);
    forall i | 0 <= i < |plan|
      ensures plan[i].task in r.handled || FoundSome(r.handled, outcome, hostOf, plan[i].host)
    {
      var t := plan[i].task;
      assert Tasks(plan)[i] == t;
      assert t in multiset(Tasks(plan));
      assert t in multiset(r.handled) || t in multiset(r.cancelled);
      if t !in r.handled {
        assert t in r.cancelled;
      }
    }
  }

  lemma TaskHasSet(r: Race, t: Task)
    requires Inverse(r.taskToHost, r.hostTasks) && t in r.taskToHost
    ensures r.taskToHost[t] in r.hostTasks
  {
  }

  lemma SiblingsHost(r: Race, host: Host, hostOf: Task -> Host)
    requires Inverse(r.taskToHost, r.hostTasks) && Placed(r.taskToHost, hostOf)
    ensures forall t | t in TasksFor(r.hostTasks, host) :: hostOf(t) == host
  {
  }

  lemma MoreCancelled(earlier: seq<Task>, now: seq<Task>, from: nat, host: Host, hosts: set<Host>, hostOf: Task -> Host)
    requires CancelledFor(earlier, from, hosts, hostOf) && host in hosts && from <= |earlier|
    requires forall t | t in now :: hostOf(t) == host
    ensures CancelledFor(earlier + now, from, hosts, hostOf)
  {
    forall i | from <= i < |earlier + now|
      ensures hostOf((earlier + now)[i]) in hosts
    {
      assert i >= |earlier| ==> now[i - |earlier|] in now;
    }
  }

  lemma DrainHistory(r: Race, outcome: Task -> Outcome, done: seq<Task>, processed: nat, aborted: bool)
    requires StopsAt(done, outcome, processed, aborted)
    requires Inverse(r.taskToHost, r.hostTasks)
    requires forall i | 0 <= i < |done| :: done[i] in r.taskToHost
    requires forall i, j | 0 <= i < j < |done| :: done[i] != done[j]
    ensures var d := Drain(r, outcome, done[..processed]);
            && |d.escaped| == |r.escaped| + (if aborted then 1 else 0)
            && (AllAborted(r.escaped, outcome) ==> AllAborted(d.escaped, outcome))
            && r.handled <= d.handled && (!aborted ==> d.handled == r.handled + done)
  {
    if aborted {
      var init := done[..processed - 1];
      var last := done[processed - 1];
      assert done[..processed][..processed - 1] == init;
      DrainHandles(r, outcome, init);
      DrainKeeps(r, outcome, init);
      assert last !in init;
    } else {
      assert done[..processed] == done;
      DrainHandles(r, outcome, done);
    }
  }
}
