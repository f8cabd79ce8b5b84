# Verified models of aioesphomeapi, the C example client and two ESPHome helpers

This project models the stateful parts of the `aioesphomeapi` Python client, the framing that the C
example client and its fake device share, and two small structures of the ESPHome code generator. It
proves what they promise: invariants over whole runs of the concurrent parts, exact languages and
round trips for the parsers and codecs, and refinements of the buffers and indexes that are updated in
place. `dafny verify dfyconfig.toml` checks everything.

## What is modelled

**Reconnect protocol** (`ReconnectModel`, `ReconnectProofs`, `ReconnectSlot`, `ReconnectTheorems`,
`ReconnectProgress`, `ReconnectTiming`, `ReconnectTriggers`, `ReconnectObject`). `ReconnectLogic` has several asyncio actors that share a FIFO lock, one
timer, one connect task and a five-valued state. One step of the model is the code between two awaits. The lock is its
holder and its queue of waiters; a cancelled waiter stays queued until it runs. The state write
outside the lock (`reconnect_logic.py:345`) and the cancellation of the lock's holder
(`reconnect_logic.py:344`) are steps like the others. The part of `APIClient` that owns `_connection`
is the `slot`. The invariant is proved for every step; the theorems follow from it. `ReconnectProgress` shows
that what is scheduled can happen, down to the next session. `ReconnectTiming` says when the next attempt comes
(at once, after the cooldown, after the backoff) and `ReconnectTriggers` what `start`, `stop`, timers and mDNS
records do to it. `ReconnectObject` gives the same code as a class
whose methods update fields, and an event loop whose history makes the object's life a run of the model, so
that the theorems hold of the object's fields.

**One connection's life** (`ConnectionModel`, `ConnectionTheorems`, `ConnectionErrors`, `ConnectionObject`,
`KeepAlive`).
Setup, keep-alive, sending, packets, requests, cancellation and cleanup, again as a step relation and as a
class with its event loop. `KeepAlive` adds a clock and runs the ping and pong timers with arriving packets.
`AttemptOutcome` joins the connection to the attempt of the reconnect logic that awaits its setup.

**Requests and dispatch** (`MessageWaits`, `Responses`, `MessageDispatch`). Any number of overlapping
`send_messages_await_response_complex` calls on one connection, with predicates over closure variables of
any type, are compared with a specification of one request that knows nothing of the others.
`RequestsOnConnection` joins them to the futures of the connection and to its closing.

**Camera reassembly** (`CameraStream`). The bounded buffer with tombstones against "split the chunks of a
key at `done` and concatenate".

**Parallel host resolution** (`HostResolver`). Two mutually inverse indexes, updated in place while tasks
finish, are drained or are cancelled, and the race whose outcome they decide. `cancelAt` is the await, if
any, at which the race itself is cancelled.

**POSIX TZ strings** (`PosixTz`, `PosixTzGrammar`, `PosixTzLanguage`, `PosixTzParser`). The grammar is a
datatype of texts with a rendering and a meaning. Everything that is rendered is parsed to its meaning,
everything that is parsed was rendered, and the loops of the source compute the specification.

**Log parsing** (`LogText`, `LogParsing`, `LogOutputs`). The streaming parser against the batch parser, and
both against what each line has to print, told from the lines alone, with the regular expression for ANSI
escapes spelled out.

**Framing** (`Framing`). `send_frame` and `recv_frame` over byte arrays, where every `write` and `read`
may be short or fail. A script says in advance how each call will end, and the contracts count the calls: if
none of those that were made fails, everything that fits gets through.

**Configuration merge and component sources** (`ConfigMerge`, `SourceTable`).

## Assumptions

- Tasks start eagerly (the Python 3.12 branch of `util.py:99-115`): a new task runs at once until its first
  suspension.
- The operations that the reconnect logic and the connection await do not swallow `CancelledError`. What the
  connection itself makes of one is modelled, and so is what the attempt makes of that
  (`ConnectionTheorems.CancelledSetupLeaves`, `AttemptOutcome.OutcomesAgree`).
- User callbacks are arbitrary (they may call `start` and `stop` or end the session) but return normally, or
  let a cancellation through.
- The client connects only through the reconnect logic.
- An await inside an `interrupt` block ends with an exception once cleanup has resolved the block's
  future; `async_interrupt` is not part of this model. `ConnectionTheorems.InterruptIsNeeded` gives the run
  that overwrites CLOSED without this assumption. When the task is cancelled at the same time, either
  exception may come out.
- In `KeepAlive`, timers fire at their deadline and writes succeed.
- TZ strings are ASCII, so `isdigit` and `isalpha` are ranges of characters.

## Where the code and what is said about it differ

- "Already connected" can be raised: an attempt is refused if and only if it begins while the client still
  has a live session (`RefusedExactly`). Over runs, the next attempt after a `start` over a live session is
  refused if and only if the session has not dropped before (`NextAttemptRefused`);
  `RestartOverLiveSessionIsRefused` is such a run, and without such a `start` there is none (`NeverRefused`).
- A cancelled attempt can still write the state. It can fail, instead of ending silently, exactly if its
  connection was interrupted as well: it then writes DISCONNECTED, which either is the state already or is
  what a waiting `stop` is about to write (`CancelledAttemptIsSilent`). `CancelledAttemptWrites` is a run in
  which DISCONNECTED overwrites CONNECTING in this way. On the connection's side, a cancelled setup leaves with an
  API error exactly if the interruption is raised in place of the CancelledError (`CancelledSetupLeaves`), and
  `CancellationIsReplaced` is a run in which it is.
- A docstring in `posix_tz.py:84` gives the offset as `[-]hh[:mm[:ss]]`; the code also takes a `+`. Hours,
  minutes and seconds have no upper limit, and text after a complete timezone is ignored. A DST name without
  rules keeps its DST offset although it counts as no DST. The model follows the code.
- The two log parsers differ on some first lines: an empty one (unless the timestamp is empty too), a blank
  one, and an indented one with colour and no reset at its end. `StreamingIsBatch` is an equivalence with
  exactly this condition.
- The fake device's `send_frame` does not check the length, so a frame comes back exactly when its payload
  has at most 0xFFFF bytes and fits the receiver's buffer: `FrameRoundTrip`. Both C receivers compute `header[0] << 24` in `int`; the model
  takes the 32-bit value that two's complement hardware yields.
- `merge_config` is not associative in general. `AssociatesExactly` states exactly when it is:
  where the last operand has a list or a dict, the middle one must not hide, by a value of another kind, what
  the first one has there, unless the last one already contains it.

## Model

The rows follow the order of the sections above. The last ones are about single steps of a connection.

| member | source | states |
|---|---|---|
| ReconnectTheorems.NoLostReconnect | aioesphomeapi-main/aioesphomeapi/reconnect_logic.py:134-168 | in every reachable state that is DISCONNECTED, neither stopped nor stopping, a timer is armed, a connect task that nobody cancelled is queued or holds the lock, or a disconnect is still being processed |
| ReconnectTheorems.PhaseIsOwned | aioesphomeapi-main/aioesphomeapi/reconnect_logic.py:217-262 | RESOLVING, CONNECTING and HANDSHAKING always belong to a running attempt at the matching await, and READY to a live session or one whose end is queued |
| ReconnectTheorems.OneTimerOneTask | aioesphomeapi-main/aioesphomeapi/reconnect_logic.py:298-352 | at most one timer is armed, and at most one connect task is not cancelled: attempts never overlap |
| ReconnectTheorems.PhasesMoveForward | aioesphomeapi-main/aioesphomeapi/reconnect_logic.py:170-352 | on every run, each single write of the phase moves it one place along the connect sequence, or back to DISCONNECTED, or leaves it |
| ReconnectTheorems.CancelledAttemptIsSilent | aioesphomeapi-main/aioesphomeapi/reconnect_logic.py:309-394 | a cancelled attempt ends without writing the phase, or fails; it can fail if and only if its connection was interrupted as well, and then writes DISCONNECTED over DISCONNECTED or ahead of a waiting `stop` |
| ReconnectTheorems.CancelledAttemptWrites | aioesphomeapi-main/aioesphomeapi/reconnect_logic.py:413-443 | a reachable cancelled attempt, with a `stop` waiting, that writes DISCONNECTED over CONNECTING |
| ReconnectTheorems.CallLeavesAnAttempt | aioesphomeapi-main/aioesphomeapi/reconnect_logic.py:309-352 | afterwards an attempt that nobody cancelled is running or queued, unless the logic was not DISCONNECTED; one that is far enough along is left alone, one still connecting without a socket is cancelled and replaced |
| ReconnectTheorems.Quiescence | aioesphomeapi-main/aioesphomeapi/reconnect_logic.py:413-443 | from the step in which `stop` sets its flag until the next `start`, whatever happens: no attempt begins, nothing is armed, the phase stays DISCONNECTED |
| ReconnectTheorems.RefusedExactly | aioesphomeapi-main/aioesphomeapi/client.py:328-374 | in every reachable state and for every step: an attempt is refused if and only if it begins over a live session |
| ReconnectTheorems.NextAttemptRefused | aioesphomeapi-main/aioesphomeapi/client.py:317-374 | over runs: from a live session on, the next attempt is refused if and only if the session has not dropped before |
| ReconnectTheorems.NeverRefused | aioesphomeapi-main/aioesphomeapi/client.py:328-374 | the consequence for runs without a `start` over a live session: no attempt is ever refused |
| ReconnectTheorems.RestartOverLiveSessionIsRefused | aioesphomeapi-main/aioesphomeapi/client.py:334-336 | a reachable state in which a `start` over a live session led to "Already connected" |
| ReconnectProgress.AttemptIsReached | aioesphomeapi-main/aioesphomeapi/reconnect_logic.py:264-443 | from every reachable state that is DISCONNECTED, neither stopped nor stopping, steps of the logic itself (its timer, its tasks, the lock, returning callbacks) begin the next attempt, without user, peer or network |
| ReconnectProgress.SessionIsReached | aioesphomeapi-main/aioesphomeapi/reconnect_logic.py:217-262 | and if no session is alive, that run can end READY over a new session |
| ReconnectTiming.DisconnectReconnects | aioesphomeapi-main/aioesphomeapi/reconnect_logic.py:134-168 | after an unexpected disconnect an attempt begins or is queued at once and no timer is left; after an expected one a timer of 5 seconds is armed and nothing else happens; a stopped logic does neither |
| ReconnectTiming.DropIsProcessed | aioesphomeapi-main/aioesphomeapi/reconnect_logic.py:134-165 | a session that ends, expected or not, is processed as such at once or waits for the lock as such |
| ReconnectTiming.FailureBacksOff | aioesphomeapi-main/aioesphomeapi/reconnect_logic.py:282-394 | after each kind of failure: the whole state, with the timer armed for exactly the delay of so many failures in a row, 60 seconds after a wrong password |
| ReconnectTiming.BackoffGrows | aioesphomeapi-main/aioesphomeapi/reconnect_logic.py:387-394 | over runs: after the n-th ordinary failure since the count last began, the delay is 2, 3, 6, 10, 19, 34, then 60 seconds |
| ReconnectTiming.TriesCount | aioesphomeapi-main/aioesphomeapi/reconnect_logic.py:217-423 | for every step, exactly when the failures are counted and when the count begins again |
| ReconnectTriggers.TimerConnects | aioesphomeapi-main/aioesphomeapi/reconnect_logic.py:298-341 | a timer that fires leaves none and, when DISCONNECTED, an attempt |
| ReconnectTriggers.RecordConnects | aioesphomeapi-main/aioesphomeapi/reconnect_logic.py:492-540 | a record brings the attempt forward: no timer is left and an attempt is running or queued, unless a `stop` waits |
| ReconnectTriggers.RecordsAreLetIn | aioesphomeapi-main/aioesphomeapi/reconnect_logic.py:504-512 | exactly when a record is let in |
| ReconnectTriggers.StartConnects | aioesphomeapi-main/aioesphomeapi/reconnect_logic.py:413-423 | `start` on a DISCONNECTED logic: an attempt at once, no timer, no failures counted, the gate open; otherwise only the stopped flag changes |
| ReconnectTriggers.StopCancels | aioesphomeapi-main/aioesphomeapi/reconnect_logic.py:425-433 | `stop` before the lock: while DISCONNECTED, RESOLVING or CONNECTING nothing is armed and no uncancelled attempt is left; later nothing changes |
| ReconnectTriggers.GateAndListener | aioesphomeapi-main/aioesphomeapi/reconnect_logic.py:264-540 | for every step, exactly when the gate for records opens and closes and when the listener starts and ends |
| ReconnectTriggers.OneRecordAtATime | aioesphomeapi-main/aioesphomeapi/reconnect_logic.py:504-540 | over runs: once a record has closed the gate, no other is let in until an attempt fails, a session ends or `start` runs |
| ReconnectProofs.WaitTimeInRange | aioesphomeapi-main/aioesphomeapi/reconnect_logic.py:387-394 | the backoff delay is between 1 and 60 for every number of tries |
| ReconnectProofs.StepKeeps | aioesphomeapi-main/aioesphomeapi/reconnect_logic.py:134-540 | every step of every actor keeps the invariant that ties timer, tasks, lock, queue and phase together |
| ReconnectSlot.StepKeepsSlot | aioesphomeapi-main/aioesphomeapi/client.py:317-374 | every step keeps the ownership of `_connection` |
| AttemptOutcome.OutcomesAgree | aioesphomeapi-main/aioesphomeapi/connection.py:743-788 | an attempt that awaits the setup of a connection can go on, fail or end by cancellation if and only if the setup can be resumed, leave with an API error, or leave with CancelledError |
| AttemptOutcome.AttemptFollowsSetup | aioesphomeapi-main/aioesphomeapi/client.py:328-374 | whatever step the connection takes (cancelled, closed by anyone, resumed, raising), the attempt awaiting it can take the matching one, up to the next coroutine it awaits and to READY when the connection is CONNECTED |
| ReconnectObject.EventLoop.Turn | aioesphomeapi-main/aioesphomeapi/reconnect_logic.py:134-443 | the object's methods, updating fields in place, keep its life a run of the model |
| ReconnectObject.EventLoop.NeverIdle | aioesphomeapi-main/aioesphomeapi/reconnect_logic.py:134-168 | the object's own fields never show a running, DISCONNECTED logic with nothing scheduled |
| ReconnectObject.EventLoop.StoppedIsQuiet | aioesphomeapi-main/aioesphomeapi/reconnect_logic.py:425-441 | the fields of a stopped object show no armed timer and no attempt |
| ConnectionTheorems.ClosedIsReleased | aioesphomeapi-main/aioesphomeapi/connection.py:348-396 | a CLOSED connection holds no socket, frame helper, ping timer or pong timer, and none of its requests is pending |
| ConnectionTheorems.ClosedIsAbsorbing | aioesphomeapi-main/aioesphomeapi/connection.py:805-844 | CLOSED is left exactly when an interrupted setup block that writes the state is resumed as if nothing had happened |
| ConnectionTheorems.ClosedForGood | aioesphomeapi-main/aioesphomeapi/connection.py:348-396 | over every run: once closed, closed, and `on_stop` is not called again |
| ConnectionTheorems.WrittenOnce | aioesphomeapi-main/aioesphomeapi/connection.py:1003-1041 | over every run the first fatal error wins, and a settled future never changes |
| ConnectionTheorems.ClosingFailsWaiters | aioesphomeapi-main/aioesphomeapi/connection.py:366-374 | the step that closes gives each pending read future the first fatal error itself if it is an API error, one that wraps it if it is foreign, and "closed" if there is none; every other future stays |
| ConnectionTheorems.StopCallbackFiresOnClose | aioesphomeapi-main/aioesphomeapi/connection.py:394-396 | `on_stop` is called by exactly the step that closes a CONNECTED connection, with the expected flag |
| ConnectionTheorems.StopCallbackFiresOnce | aioesphomeapi-main/aioesphomeapi/connection.py:394-396 | `on_stop` is called at most once |
| ConnectionErrors.FatalIsFirstError | aioesphomeapi-main/aioesphomeapi/connection.py:1003-1041 | over every run: the fatal error is that of the first step that reports one, with its class for each cause (ping, packet, write, transport, setup, disconnect) |
| ConnectionErrors.ExpectedExactly | aioesphomeapi-main/aioesphomeapi/connection.py:1165-1255 | over every run: the end counts as expected if and only if one of the two sides has said goodbye |
| ConnectionErrors.SetupErrorIs | aioesphomeapi-main/aioesphomeapi/connection.py:768-791 | the API error that a failed setup raises, for every exception and every earlier fatal error |
| ConnectionTheorems.InterruptIsNeeded | aioesphomeapi-main/aioesphomeapi/connection.py:814-827 | a reachable CLOSED connection that would become CONNECTED again, with a ping timer, without the interrupt assumption |
| ConnectionTheorems.CancellationIsReplaced | aioesphomeapi-main/aioesphomeapi/connection.py:743-788 | a reachable cancelled setup on a connection that was closed under it, which leaves with an API error |
| ConnectionObject.APIConnection.Cleanup | aioesphomeapi-main/aioesphomeapi/connection.py:348-396 | the cleanup that updates fields and fails futures in a loop has exactly the specified effect, for any iteration order, and gives the waiters of the object those errors |
| ConnectionTheorems.ConnectedIsWatched | aioesphomeapi-main/aioesphomeapi/connection.py:793-844 | a CONNECTED connection has socket and helper, can send, and always has its ping timer armed |
| ConnectionTheorems.SetupMovesOn | aioesphomeapi-main/aioesphomeapi/connection.py:673-844 | each step of the setup takes the connection at most one phase further, and closes it exactly when the hello cannot be written; CONNECTED comes with the first keep-alive |
| ConnectionObject.ConnectionLoop.Turn | aioesphomeapi-main/aioesphomeapi/connection.py:348-1255 | the object's methods keep its life a run of the model, whatever the event loop does next |
| ConnectionObject.ConnectionLoop.ClosedHoldsNothing | aioesphomeapi-main/aioesphomeapi/connection.py:348-396 | the fields of a closed object hold no resource, and no request waits on it |
| ConnectionObject.ConnectionLoop.ConnectedIsAlive | aioesphomeapi-main/aioesphomeapi/connection.py:837-844 | the fields of a connected object show its flags, socket, helper and an armed ping timer |
| KeepAlive.KeepAliveWindow | aioesphomeapi-main/aioesphomeapi/connection.py:614-671 | a dead peer is declared dead between 5.5 and 6.5 intervals after its last valid packet and after exactly five pings; an undeclared one was heard within 6.5 intervals |
| KeepAlive.SilentPeerDies | aioesphomeapi-main/aioesphomeapi/connection.py:614-671 | after any run, at most seven timers fire in silence, and as long as the peer is not declared dead another one can |
| KeepAlive.DeathIsReached | aioesphomeapi-main/aioesphomeapi/connection.py:659-671 | from every state of a live connection, silence does lead to the declaration |
| KeepAlive.PacketPostponesPong | aioesphomeapi-main/aioesphomeapi/connection.py:1102-1110 | the pong timer never fires within 5.5 intervals of a valid packet |
| KeepAlive.EventsAreSteps | aioesphomeapi-main/aioesphomeapi/connection.py:614-671 | each event of a timed run is a step that the connection can take at that moment, with the same effect |
| MessageWaits.WaitCollectsItsOwn | aioesphomeapi-main/aioesphomeapi/connection.py:937-989 | in every run of overlapping requests, a completed one holds what it collects alone from its message types since its registration, up to its first stop |
| MessageWaits.WaitStopsInTime | aioesphomeapi-main/aioesphomeapi/connection.py:238-250 | a request is complete if and only if one of its messages stopped it |
| MessageWaits.ReturnedWaitIsForgotten | aioesphomeapi-main/aioesphomeapi/connection.py:976-989 | once a request has returned, by result, timeout, cancellation or close, its handler and its future are gone |
| MessageWaits.EveryRequestCanEnd | aioesphomeapi-main/aioesphomeapi/connection.py:955-989 | a request that has not returned can time out or be cancelled and then return |
| MessageWaits.ClosingFreesEveryone | aioesphomeapi-main/aioesphomeapi/connection.py:366-374 | nobody is left waiting when the connection closes |
| RequestsOnConnection.ClosingIsShared | aioesphomeapi-main/aioesphomeapi/connection.py:348-396 | whatever step closes the connection, it does to the futures of the requests exactly what closing does in the model of the requests |
| RequestsOnConnection.EveryRunHasItsConnection | aioesphomeapi-main/aioesphomeapi/connection.py:937-989 | every run of overlapping requests happens on some reachable connection that holds their futures in the same states |
| Responses.PureCollect | aioesphomeapi-main/aioesphomeapi/connection.py:238-250 | with pure predicates: the selected messages up to and including the first stop |
| Responses.OneSelectedResponse | aioesphomeapi-main/aioesphomeapi/connection.py:937-989 | the same pure predicate twice: exactly one response, the first message that satisfies it |
| Responses.SingleResponseUnpacks | aioesphomeapi-main/aioesphomeapi/connection.py:991-1001 | `[response] = ...` always unpacks exactly one message of the requested type |
| Responses.ListEntitiesCollect | aioesphomeapi-main/aioesphomeapi/client.py:401-407 | the entity list is everything before the first Done |
| Responses.CombinedCallHasDeviceInfo | aioesphomeapi-main/aioesphomeapi/client.py:432-485 | the combined call always returns a DeviceInfoResponse and a Done, in either order of arrival |
| MessageDispatch.MessageHandlers.ProcessPacket | aioesphomeapi-main/aioesphomeapi/connection.py:1112-1154 | each handler registered for the type on arrival is called exactly once and no other, while handlers change the table or raise; those that raise are logged and stop nobody |
| MessageDispatch.MessageHandlers.DeliverToWaits | aioesphomeapi-main/aioesphomeapi/connection.py:1115-1137 | the handlers of pending requests have the same effect in every order |
| MessageDispatch.MessageHandlers.AddMessageCallback | aioesphomeapi-main/aioesphomeapi/connection.py:898-906 | registers the handler for exactly the given types |
| CameraStream.CameraRefinement | aioesphomeapi-main/aioesphomeapi/client_base.py:80-137 | for every interleaving, the frames of a key are the done-terminated concatenations of its accepted chunks that fit, in order; of all its chunks when nothing is dropped |
| CameraStream.NothingDroppedAccepts | aioesphomeapi-main/aioesphomeapi/client_base.py:101-108 | the cap drops nothing if and only if every chunk is accepted |
| CameraStream.DroppedExactly | aioesphomeapi-main/aioesphomeapi/client_base.py:89-107 | a chunk is dropped if and only if it would begin a frame while at least 4 keys have a frame under way; any other is accepted |
| CameraStream.FewCamerasLoseNothing | aioesphomeapi-main/aioesphomeapi/client_base.py:76-137 | if at most 4 keys occur, every frame of at most 8388608 bytes is delivered, in order, for every interleaving |
| CameraStream.CameraBounds | aioesphomeapi-main/aioesphomeapi/client_base.py:76-137 | on every run at most four entries, tombstones counted, and every buffer at most 8 MiB |
| CameraStream.FramesAreConsecutive | aioesphomeapi-main/aioesphomeapi/client_base.py:89-137 | drops included, every emitted frame is at most the limit and consists of consecutive chunks of one key that end in its only done chunk |
| CameraStream.CameraReassembly.OnStateMsg | aioesphomeapi-main/aioesphomeapi/client_base.py:89-137 | the in-place update of the stream dict and its buffer has the specified effect |
| HostResolver.ResolutionRace.AsyncResolveHost | aioesphomeapi-main/aioesphomeapi/host_resolver.py:414-491 | however it ends: each created task was handled, told to cancel, or is the one whose CancelledError ended it, exactly once; each host's results are the cached ones and then what its handled tasks found, in order, and the exceptions are those of the handled tasks; a host finishes only by a handled task that found something, and its results are final then. It is interrupted only by its own cancellation or a task's CancelledError. Uninterrupted, only tasks of finished hosts were cancelled, and every task was handled or its host has a handled task that found something |
| HostResolver.ResolutionRace.Round | aioesphomeapi-main/aioesphomeapi/host_resolver.py:450-472 | the outcomes of all done tasks are used, in their order; the hosts that finish are those for which one of them found something; the indexes stay inverse; exactly the tasks that were not done and whose host did not finish stay pending, and those of finished hosts are cancelled; the round is aborted exactly by a done task that ended in CancelledError |
| HostResolver.ResolutionRace.DrainDoneTasks | aioesphomeapi-main/aioesphomeapi/host_resolver.py:378-395 | the loop over the done tasks against its specification, with the hosts that produced a result |
| HostResolver.ResolutionRace.CancelSiblingTasks | aioesphomeapi-main/aioesphomeapi/host_resolver.py:398-411 | exactly the tasks of the finished hosts leave the indexes, each cancelled once |
| HostResolver.DrainKeeps | aioesphomeapi-main/aioesphomeapi/host_resolver.py:387-394 | draining keeps the indexes inverse and removes exactly the drained tasks |
| HostResolver.DrainAccounts | aioesphomeapi-main/aioesphomeapi/host_resolver.py:387-394 | draining loses and duplicates no task |
| HostResolver.OthersUntouched | aioesphomeapi-main/aioesphomeapi/host_resolver.py:387-395 | a host that does not finish in a round gets no result in it |
| PosixTzGrammar.RenderedIsParsed | aioesphomeapi-main/aioesphomeapi/posix_tz.py:212-292 | completeness: every well-formed text is parsed to its meaning, with the default DST offset and rule time, whatever ignored text follows |
| PosixTzGrammar.DecimalIsParsed | aioesphomeapi-main/aioesphomeapi/posix_tz.py:109-123 | every number, written in decimal, is parsed back, up to the first character that is no digit |
| PosixTzGrammar.AsciiLetters | aioesphomeapi-main/aioesphomeapi/posix_tz.py:68-80 | the letters of a name are the 52 of ASCII |
| PosixTzLanguage.ParsedWasRendered | aioesphomeapi-main/aioesphomeapi/posix_tz.py:212-292 | soundness: whatever is accepted is the rendering of a well-formed text with that meaning, followed by ignored text |
| PosixTzLanguage.Accepts | aioesphomeapi-main/aioesphomeapi/posix_tz.py:212-292 | the parser accepts exactly the language of the grammar |
| PosixTz.ParsedIsSane | aioesphomeapi-main/aioesphomeapi/posix_tz.py:126-292 | success means no rules, or two rules with all fields in range and the fields of the other kinds zero; parsing ends inside the string |
| PosixTzParser.ParseTimezone | aioesphomeapi-main/aioesphomeapi/posix_tz.py:212-292 | the imperative parser terminates on every string and returns the specified result |
| PosixTzParser.ParseDstRule | aioesphomeapi-main/aioesphomeapi/posix_tz.py:181-209 | the rule object, filled in field by field, ends up as specified |
| PosixTzParser.ParseUintLoop | aioesphomeapi-main/aioesphomeapi/posix_tz.py:109-123 | the digit loop computes the decimal value of the maximal run of digits |
| PosixTzParser.SkipTzNameLoop | aioesphomeapi-main/aioesphomeapi/posix_tz.py:56-80 | the name loops stop where the grammar says |
| LogText.EscapeIsTheWord | aioesphomeapi-main/aioesphomeapi/log_parser.py:12-14 | the matcher finds a word of the ANSI expression whenever one begins the text, and no text begins with two |
| LogText.StripRemovesTheWords | aioesphomeapi-main/aioesphomeapi/log_parser.py:11-14 | stripping removes exactly the words that a scan of the regular expression from the left finds, and keeps every other character |
| LogText.ScanIsUnique | aioesphomeapi-main/aioesphomeapi/log_parser.py:11-14 | there is only one such scan |
| LogText.AllSpaces | aioesphomeapi-main/aioesphomeapi/log_parser.py:113-134 | the white space is that of Python, character by character |
| LogText.SplitOfStripped | aioesphomeapi-main/aioesphomeapi/log_parser.py:104-106 | stripping a text and splitting it into lines is splitting it and stripping each line |
| LogText.SplitJoins | aioesphomeapi-main/aioesphomeapi/log_parser.py:146-146 | the lines of a text, joined by newlines, are the text |
| LogParsing.StreamingIsBatch | aioesphomeapi-main/aioesphomeapi/log_parser.py:90-203 | fed the lines that the batch parser keeps, a fresh `LogParser` prints what the batch parser prints if and only if the first line is a fresh entry or prints alike |
| LogParsing.LogParser.ParseNextLine | aioesphomeapi-main/aioesphomeapi/log_parser.py:90-141 | keeps the outputs and the fields of the parser those of the stream of all lines so far |
| LogParsing.LogParser.PrintedLikeBatch | aioesphomeapi-main/aioesphomeapi/log_parser.py:72-203 | a fresh parser object that was fed the kept lines has printed what the batch parser prints, under exactly the first-line condition |
| LogOutputs.StreamPrints | aioesphomeapi-main/aioesphomeapi/log_parser.py:44-141 | every line of a stream: an entry with its time and a reset if it needs one, nothing for a blank one, and a continuation with the prefix up to the first "]:" and the colour of the last entry, however far back |
| LogOutputs.ObjectPrints | aioesphomeapi-main/aioesphomeapi/log_parser.py:78-141 | the same of every line that a parser object has printed |
| LogOutputs.BatchPrints | aioesphomeapi-main/aioesphomeapi/log_parser.py:144-203 | the same of every line of a message, where the first always counts as an entry and an empty or reset-only last line not at all |
| LogParsing.ParseLogMessage | aioesphomeapi-main/aioesphomeapi/log_parser.py:180-203 | the fast path and the loop over lines both compute the batch specification |
| LogParsing.FormatRest | aioesphomeapi-main/aioesphomeapi/log_parser.py:161-175 | the loop that tracks prefix and colour computes the recursive specification |
| Framing.FrameRoundTrip | src/fake_device.c:106-156 | a sent frame is received with its type and payload if and only if its payload has at most 0xFFFF bytes and fits the receiver's buffer |
| Framing.SentIsReceived | src/main.c:60-128 | for any sequence of fitting frames, as many receives return them in order and consume exactly their bytes |
| Framing.FramesRoundTrip | src/main.c:60-128 | a receiver that reads until it must stop gets exactly the sent frames |
| Framing.WireFormat | src/main.c:60-80 | the bytes of a frame: type and length with the most significant byte first, in six bytes, then the payload |
| Framing.Exchange | src/main.c:60-128 | end to end over one channel, for all scripts of short or failing calls: what is received is a prefix of what was sent, and if no call fails it is everything, and exactly the sent bytes were written and consumed |
| Framing.Channel.SendFrame | src/main.c:60-91 | the whole encoding is sent, or, if the last of the calls it made failed by the script, a proper prefix of it; a payload that is too long is refused with nothing written and no call made; each call but a failing one writes a byte |
| Framing.Channel.SendUnchecked | src/fake_device.c:106-131 | the same for the fake device, which writes a truncated length |
| Framing.Channel.RecvFrame | src/main.c:96-128 | success means the stream's next frame, exactly its bytes consumed and no failing call; it fails only by a call that fails by the script or when there is no such frame |
| Framing.Channel.ReceiveFrames | src/fake_device.c:536-536 | the receive loop returns a prefix of the frames in the stream, and all of them unless its last `read` fails by the script |
| ConfigMerge.AssociatesExactly | esphome-dev/esphome/config_helpers.py:77-98 | merging is associative on three trees if and only if nothing is hidden |
| ConfigMerge.AgreeingTreesAssociate | esphome-dev/esphome/config_helpers.py:77-98 | merging is associative, key order included, on trees whose kinds agree wherever they overlap |
| ConfigMerge.AbsorbedExactly | esphome-dev/esphome/config_helpers.py:77-98 | merging `c` into `a` yields `c` if and only if `c` already contains what `a` would contribute |
| ConfigMerge.NullIsNeutral | esphome-dev/esphome/config_helpers.py:95-96 | None is a two-sided identity |
| ConfigMerge.MergedAt | esphome-dev/esphome/config_helpers.py:77-98 | what is found at every path of a merged tree: the update where only it speaks, the old value where it is silent, and where both speak lists joined, dicts merged and ordered if either is, anything else replaced |
| ConfigMerge.MergeKeepsWellFormed | esphome-dev/esphome/config_helpers.py:80-90 | a merged dict has the old keys and then the new ones, in their orders, once each, and a merged list the items of both, the old ones first |
| ConfigMerge.MergeConfig | esphome-dev/esphome/config_helpers.py:77-98 | the loop over the copied dict computes the recursive merge |
| SourceTable.PoolIndexes | esphome-dev/esphome/cpp_helpers.py:62-84 | after any registrations the indices are exactly 1..n, n at most 255, in the order of first appearance |
| SourceTable.IndicesAreStable | esphome-dev/esphome/cpp_helpers.py:62-84 | later registrations never change or remove an index |
| SourceTable.LookupInvertsRegistration | esphome-dev/esphome/cpp_helpers.py:62-121 | the generated lookup sends a returned index back to its name, whatever was registered later, and 0 to unknown |
| SourceTable.LookupIsTotal | esphome-dev/esphome/cpp_helpers.py:115-121 | every 8-bit index yields its name or unknown and never reads outside the table, also with 255 entries and no upper check |
| SourceTable.ComponentSourcePool.RegisterComponentSource | esphome-dev/esphome/cpp_helpers.py:62-84 | the in-place registration, which schedules the table job once, with the first name |
| SourceTable.GenerateSourceTable | esphome-dev/esphome/cpp_helpers.py:87-121 | the generated table lists the names by index and carries the upper check exactly below 255 entries |
| ConnectionTheorems.CancelledSetupLeaves | aioesphomeapi-main/aioesphomeapi/connection.py:743-788 | a cancelled task leaves its setup with CancelledError unless the interruption was raised, and that only on an interrupted connection |
| ConnectionTheorems.FailedSetupLeaves | aioesphomeapi-main/aioesphomeapi/connection.py:743-788 | a failed setup closes the connection with a fatal error; its caller gets CancelledError if and only if that was raised in a task being cancelled, and an API error otherwise; a cancelled task whose connection was not interrupted always leaves with CancelledError |
| ConnectionTheorems.KeepAliveGoesOn | aioesphomeapi-main/aioesphomeapi/connection.py:621-651 | a firing ping timer closes the connection exactly when a due ping cannot be written, else it fires again one interval later; a running pong deadline is never moved and one starts with the first unanswered ping |
| ConnectionTheorems.PacketOutcome | aioesphomeapi-main/aioesphomeapi/connection.py:1043-1199 | a valid packet clears the pong deadline and the pending ping; exactly which packets close the connection, and that a goodbye in good order leaves no error |

## Left out

- asyncio, sockets, zeroconf, DNS, aiohappyeyeballs and `async_interrupt`: present only as nondeterministic steps under the assumptions above.
- Tasks that do not start eagerly (Python before 3.12): a task that has not begun to run is not a state of the model.
- A `start` or `stop` whose own caller is cancelled while it waits for the lock, and callbacks that raise.
- The matching of zeroconf records to the device: every record that reaches the logic is taken to match.
- Fairness of the event loop: a run to the next attempt is shown to exist from every state, not that the loop takes it.
- User message handlers on a connection other than those of pending requests: `MessageDispatch` covers how they are called, not what they do to the connection.
- The Bluetooth message filters in `client_base.py`: two pure predicates, covered by `PureCollect` for every predicate.
- The texts of error messages: a `ValueError` of the TZ parser is `Fail`, an API error is a tag.
- Digits and letters outside ASCII in TZ strings.
- Lines that end in a carriage return: the streaming log parser trims it and the batch parser does not.
- The `Extend` marker of the configuration merge, which is merged like a scalar; lists of configuration values are only concatenated.
- The C++ text of the generated table (names of variables, escaping): the model keeps the table and the condition in front of it.
- The encryption helpers of the C programs, nanopb, noise-c, libsodium and mbedTLS.
- Generated protobuf code, command builders, tables of enums and dataclasses, floating-point formatting, the ESPHome CLI and code emission: nothing to prove beyond reading one branch.
