# SolarFlow BLE: a verified model

This project models the SolarFlow BLE client library and proves what its
documentation and tests rely on. Four parts of the repository are covered:

* the session protocol of `SolarFlowClient` (`src/solarflow_ble/client.py`):
  the handshake, the notification worker, the keepalives, any number of control
  calls, `disconnect()` and the session-failure handler, all sharing one set of
  fields;
* the wait loop `_wait_for_response`, against a clock and a queue;
* report merging (`src/solarflow_ble/models.py`);
* the set-then-restore control run (`scripts/client_diagnostic.py`) and the
  recursive redaction (`scripts/_redact.py`).

## How the client is modelled

A step is the code one task runs between two suspension points. `Session.dfy`
gives the fields, a program counter for each task and a function for each such
piece of code; `Enabled` says which steps the event loop may take next, `Apply`
what the step does, and a state is `Reachable` when some sequence of enabled
steps leads to it. Every theorem about reachable states therefore holds in
every interleaving. Fields marked as history (the session number, the messages
put on a queue, the writes, the failures seen) exist only so that properties
can be stated. A task that could go on need not: slower and faster schedules
than those of one asyncio version are all included.

What each step does is pinned down apart from the machine's own functions by a
few laws over all steps: `FailureLaw`, `MessageLaw`, `ConnectLaw`, `WriteLaw` and
`TaskLaw` spell out when a session fails and why, what a message changes, where
`connect`, a control call and a keepalive get to, and who writes what.

`Client.SolarFlowClient` is the client as an object with mutable fields. It has
one method for each piece of code; `View()` is its state in the machine, and
every method is proved to change it exactly as the machine does. `Move` does
so for every step and keeps the invariant, so the theorems hold of the object.
The table lists the methods whose contracts say more than that.

The invariant is a conjunction of topics, one module each: who runs and who
holds the lock (`TaskInvariant`), the status and the failure (`LinkInvariant`),
the queues (`QueueInvariant`), the messages the handshake accepts
(`StreamInvariant`), identity (`IdentityInvariant`), the writes and the message
ids (`WireInvariant`) and what decides a control call (`AckInvariant`).
`TeardownEffect` summarises what a teardown, suspended or complete, does to
the shared fields, `StepEffect` what any step does to the calls, queues and
keepalives of other tasks. `Invariant` puts the topics together and lifts them
to all runs.

## Assumptions

* `connect()` does not open a session while the handler of an earlier failure
  or a draining worker is still running (`Session.MayOpen`). The teardown of a
  failure does not hold the lifecycle lock, so callers have to see to this.
* No task is cancelled from outside. A keepalive cancelled by `_teardown` gets
  its `CancelledError` at its suspension point and is not restarted.
* Callbacks return without calling back into the client.
* The transport is an environment: any call into it may succeed or fail, and it
  may deliver a notification at any step.
* A message is what JSON decoding produced (RFC 8259), reduced to the keys the
  client reads; a payload that does not decode is a case of its own.

## Where the code says something else than its documentation

* READY is said to follow the first report (`README.md:67-69`,
  `src/solarflow_ble/models.py:71-73`). `_refresh_status` promotes on any
  applied message that is not BLESPP. `ReadyTheorems.ReadyBeforeAnyReport` is a
  run in which a second getInfo-rsp makes the client READY before the initial
  read is sent; `ReadyTheorems.ReadyIffPromoted` and `ProtocolReadyIff` say
  exactly when a session is READY and when it is at least PROTOCOL_READY.
* `connect()` is said to return once the session is READY (`README.md:69-70`). It
  can return although its session failed: the third wait may take a report that
  was queued before the failure, and lines 207-209 then run after the teardown.
  By `SessionTheorems.ConnectEndsClean` the client is READY on return exactly
  when no failure is recorded, and disconnected otherwise.
* The keepalive that such a return creates is alive although the teardown of its
  session is over (`LeakedKeepalive.ConnectCanLeakAKeepalive`). `disconnect()`
  would cancel it. When `connect()` is called without a `disconnect()` in
  between, it goes on into the next session, and once line 209 of that session
  overwrites the reference nothing refers to it any more.
  `Disturbance.OrderIffQuiet` says exactly when a new session is safe from older
  tasks: its writes are in order in every continuation if and only if, at the
  call of `connect()`, no keepalive is alive and no control call is waiting for
  the lock. For a caller this is
  `KeepaliveReference.QuietIffReferenceDone`: look at `_keepalive_task`, or call
  `disconnect()` first.
* The docstring of `plan_controls` promises that every applied control can be
  restored. Overrides of the two power limits are accepted with an unknown
  original. `Controls.RestorableIff` gives the exact condition,
  `Controls.UnrestorableWitness` an input that breaks the promise.
* When a session fails the status is said to flip to DISCONNECTED, and later
  updates to show it (`README.md:127`, `README.md:134-135`). It does flip, but a
  handshake that takes its getInfo-rsp after the failure raises it again
  (`src/solarflow_ble/client.py:197`), and the next message makes the client READY:
  `FailedStatus.FailedYetReady` is such a run, with the transport disconnected and
  the teardown over. `LeavesDisconnectedIff` and `ReadyTheorems.ReadyIff` give the
  exact steps; `FailedIsDisconnected` says that this lasts no longer than the
  handshake's next wait and the abort it brings, so an idle client is never READY
  after a failure. No control write is sent in the meantime
  (`SessionTheorems.WritesOnlyWithoutFailure`).
* `state` may still change after `disconnect()` has returned
  (`FailedStatus.DisconnectedYetChanged`): once a session is over it changes by
  reports that still arrive and are of this device, and by nothing else
  (`FailedStatus.LateStateIff`).

## Python details the model keeps

* `writeRsp` is compared with `!= 0`, so `false` and `0.0` count as success.
* A `method` that cannot be hashed (a list or an object) raises in
  `_apply_message`; the exception goes to the notification's future, and the
  session goes on.

## Model

| member | source | states |
|---|---|---|
| SessionTheorems.FailureWakesEveryWait | src/solarflow_ble/client.py:282-287 | once a failure is recorded, every wait begun in that session finds a sentinel in its queue and is not blocked; the handshake takes at most one more element |
| SessionTheorems.NoWaitAfterFailure | src/solarflow_ble/client.py:438-451 | while a failure is recorded any step of a waiting task ends its wait, and no step of any task begins a wait or changes one of another task |
| StaleCalls.StaleCallIsBounded | src/solarflow_ble/client.py:438-451 | in every run, further sessions included, a control call left over from a failed session takes at most the elements ahead of its sentinel and the sentinel |
| SessionTheorems.FailureReportedOnce | src/solarflow_ble/client.py:252-300 | per session one recorded failure; the connection-lost callback is called exactly once, with that failure and when its teardown is over, unless it was first seen while closing, and otherwise never; one stop and one disconnect of the transport however teardowns race |
| FailureLaw.FailureIs | src/solarflow_ble/client.py:282-284 | over every step of every task: a connected session without a failure fails exactly on a processed payload that does not decode or, BLESPP apart, names another device than the client's, a keepalive without an identity, or a failing write of a keepalive or a call, and with that error |
| TaskLaw.BeatGoesTo | src/solarflow_ble/client.py:691-706 | a keepalive goes from sleep to the lock to a write and back to sleep, until it is cancelled or its write or identity fails |
| TaskLaw.CallGoesTo | src/solarflow_ble/client.py:525-567 | where each step of a control call gets it: taken up only if allowed and READY, sent only without a failure, waiting on its session's write results, ended by its acknowledgement, the sentinel, a failure or a timeout; the lock is held exactly meanwhile |
| TaskLaw.WhatMayHappen | src/solarflow_ble/client.py:416-451 | the environment: payloads arrive at any time, a pending transport call returns or fails, a wait times out or takes an element, a free lock is taken |
| TaskLaw.TeardownJoins | src/solarflow_ble/client.py:244-248 | a teardown ends only when the worker it told to stop has stopped, and goes past a keepalive only when that has ended |
| SessionTheorems.FirstFailureStays | src/solarflow_ble/client.py:282-284 | only the opening of the next session replaces a recorded failure |
| SessionTheorems.NotificationsInOrder | src/solarflow_ble/client.py:315-366 | payloads are processed one at a time in order of arrival, each future is completed once and in order, a stop marker is always last, a stopped worker has completed every future |
| MessageLaw.QueuedForWorker | src/solarflow_ble/client.py:319-321 | with a worker referenced a payload is queued last with a new future, and nothing else changes |
| MessageLaw.AcceptedMessageChanges | src/solarflow_ble/client.py:368-414 | what an accepted message changes, by its method: which queues get it, state, last error, status; the worker calls back exactly with a callback and a message other than BLESPP, or completes the future |
| MessageLaw.LastErrorIs | src/solarflow_ble/client.py:408-413 | over every step: `last_error` is the last error message accepted while connected, cleared by the opening of a session and by nothing else |
| SessionTheorems.HandshakeIsGreedy | src/solarflow_ble/client.py:189-206 | a completed handshake accepted the first BLESPP put on its own queue, the first getInfo-rsp after it and the first report after that, and these positions are unique |
| SessionTheorems.OthersAreDiscarded | src/solarflow_ble/client.py:448-451 | the element taken is the next one put on the session's queue; a message of another method is consumed and changes nothing else |
| SessionTheorems.ConnectEndsClean | src/solarflow_ble/client.py:171-212 | `connect` raises and leaves a disconnected client with fresh queues, empty state and target id, or returns after its third acceptance, READY if no failure was recorded and disconnected if one was |
| ConnectLaw.ConnectGoesTo | src/solarflow_ble/client.py:171-212 | every step of `connect`: a failing transport call, a timeout, a sentinel, a recorded failure, a refused or missing identity make it raise with nothing sent; otherwise it gets to the next point of the handshake |
| ConnectLaw.AcceptanceChanges | src/solarflow_ble/client.py:189-209 | what an accepted BLESPP, getInfo-rsp and report change; any other message is only consumed |
| ConnectLaw.ConnectOpens | src/solarflow_ble/client.py:171-178 | a session opens with new queues, empty state, target identity, no failure and no last error, older tasks untouched; a connected client is left alone |
| ConnectLaw.WorkerStarts | src/solarflow_ble/client.py:180-185 | a connected transport gets status CONNECTED and a worker on a new queue |
| ReadyTheorems.ProtocolReadyIff | src/solarflow_ble/client.py:196-197 | without a failure or a teardown the status is PROTOCOL_READY or READY exactly when a getInfo-rsp was accepted |
| ReadyTheorems.ReadyIff | src/solarflow_ble/client.py:377-381 | a step makes a protocol-ready client READY exactly when it applies a message other than BLESPP, of whatever hashable method, or takes the handshake's report |
| ReadyTheorems.ReadyIffPromoted | src/solarflow_ble/client.py:520-523 | in every run of a session without failure or teardown: READY exactly when such a step was taken while it was protocol-ready; READY is never lost |
| ReadyTheorems.ReadyBeforeAnyReport | src/solarflow_ble/client.py:196-206 | a reachable state that is READY before the initial read is sent, no report having arrived |
| FailedStatus.FailedIsDisconnected | src/solarflow_ble/client.py:282-285 | a failed session is DISCONNECTED unless its handshake is between its getInfo-rsp and the end of its abort; so is one torn down without a failure |
| FailedStatus.LeavesDisconnectedIff | src/solarflow_ble/client.py:196-197 | a failed session leaves DISCONNECTED in a step exactly when its handshake takes its getInfo-rsp in it |
| FailedStatus.FailedYetReady | src/solarflow_ble/client.py:196-206 | a reachable state that is READY with the failure recorded, the transport disconnected and the teardown over |
| FailedStatus.LateStateIff | src/solarflow_ble/client.py:315-318 | once a session is over, the state changes exactly by a report that still arrives and is not refused, and then as `with_report` does |
| FailedStatus.DisconnectedYetChanged | src/solarflow_ble/client.py:315-318 | a reachable state in which `disconnect` has returned and a later report has changed the state |
| SessionState.StateIsFoldOfReports | src/solarflow_ble/client.py:399-407 | while the session is alive its state, the device id aside, is the fold of exactly the reports among the payloads the worker took, in order |
| SessionState.QueueIsWhatArrived | src/solarflow_ble/client.py:389-414 | while the handshake waits, its queue was given exactly the BLESPP, getInfo-rsp, read_reply, report and error messages the worker took, in order |
| SessionState.LiveStateIsLastReported | src/solarflow_ble/client.py:399-407 | when no report came before the transport was connected, each typed field of a live session is the last integer its reports carry, `raw` the last value of each known key, the packs one merge of all their entries |
| SessionTheorems.IdentityNeverMixed | src/solarflow_ble/client.py:474-492 | the state's id is absent or the client's; they agree from the BLESPP acceptance to the next reset; with a constructor id no other id appears |
| SessionTheorems.OneWriteInFlight | src/solarflow_ble/client.py:532-567 | at most one control call is between taking the lock and the end of its wait |
| SessionTheorems.WritesOnlyWithoutFailure | src/solarflow_ble/client.py:532-538 | no control write is sent with a failure recorded |
| SessionTheorems.FirstCorrelatedDecides | src/solarflow_ble/client.py:546-567 | a call succeeded, or was rejected, exactly when the last element it took is the first message with `writeRsp` that names its property or echoes its id, and that `writeRsp` is 0, false or 0.0, or is not; any other call saw none |
| SessionTheorems.MessageIdsIncrease | src/solarflow_ble/client.py:499-504 | over all sessions ids increase strictly, the n-th is n below 1009 and n+1 from there on, never 1009 |
| SessionTheorems.EchoNamesOneRequest | src/solarflow_ble/client.py:550-553 | an echoed id, number or string, prints like at most one request's id |
| SessionTheorems.ReportsQueueBounded | src/solarflow_ble/client.py:389-397 | after the handshake no sequence of steps within the session makes the reports queue longer by more than one sentinel |
| SessionTheorems.StepWithin | src/solarflow_ble/client.py:174-178 | every step but the opening of a session keeps a recorded failure, the session and the bound of the reports queue, and only the lifecycle holder's own step moves it |
| WireLanguage.SessionWritesInOrder | src/solarflow_ble/client.py:191-209 | the writes of a session's own tasks are always a prefix of BLESPP_OK, getInfo, write*, read, (read or write)* |
| WireLanguage.OneIdentityOnTheWire | src/solarflow_ble/client.py:494-518 | every message after BLESPP_OK carries the requested id, or the one the session established, and no reserved message id |
| WriteLaw.WritesAre | src/solarflow_ble/client.py:506-518 | over every step: which steps write, and exactly what, with which id, content and identity; no other step writes or draws an id |
| WriteLaw.EveryWriteIsACall | src/solarflow_ble/client.py:534-538 | every control write carries the property, the value and the id of one call |
| WriteLaw.NoWriteWithoutPermission | src/solarflow_ble/client.py:526-531 | a client that may not control writes none, and refused every call at once |
| WireLanguage.ScanIsInOrder | src/solarflow_ble/client.py:191-209 | the phases the invariant tracks accept exactly the sequences of writes that are in order |
| Reconnect.QuietKeepsOrder | src/solarflow_ble/client.py:172-178 | a session opened when no older keepalive lives and no control call waits for the lock keeps all its writes in order, in every continuation |
| Disturbance.OrderIffQuiet | src/solarflow_ble/client.py:171-209 | that condition is exact: otherwise some continuation breaks the order |
| KeepaliveReference.QuietIffReferenceDone | src/solarflow_ble/client.py:171-209 | when every earlier session was opened with `_keepalive_task` None or done, that condition is the same again and no control call waiting for the lock |
| KeepaliveReference.DisconnectIsTidy | src/solarflow_ble/client.py:221-246 | after a `disconnect` the reference stays None until the next handshake |
| LeakedKeepalive.ConnectCanLeakAKeepalive | src/solarflow_ble/client.py:202-209 | a reachable state in which `connect` returned, the session failed and was torn down, and its keepalive is alive and referenced; the next `connect` may be entered, and a `disconnect` would cancel the task |
| NoDeadlock.NoCircularWait | src/solarflow_ble/client.py:240-250 | in no reachable state do tasks wait for each other in a circle, also when the keepalive or the worker runs the teardown itself |
| NoDeadlock.EveryTaskIsFreed | src/solarflow_ble/client.py:350-366 | every unfinished task waits, directly or through others, for a task that can take a step |
| Drain.DrainCompletesEveryFuture | src/solarflow_ble/client.py:350-366 | after a failure and without an update callback the worker drains its queue in one go, without being suspended |
| Drain.DrainedIsRun | src/solarflow_ble/client.py:326-348 | the worker's loop is a run of its single steps and stops only where the worker has to wait |
| TeardownEnds.DrainEnds | src/solarflow_ble/client.py:323-366 | whoever told the worker to stop and whatever it is doing, its own steps, those of the failure handler and the end of a cancelled keepalive lead to its end, with the future of every queued payload completed once and in order |
| TeardownEnds.DrainIsBounded | src/solarflow_ble/client.py:326-348 | in every run the draining worker takes at most as many steps as it had work left |
| TeardownEnds.TeardownDescends | src/solarflow_ble/client.py:240-250 | no step of any task takes a teardown farther from its end; each step of the tearing task or of a task it joins brings it nearer |
| TeardownEnds.TeardownEnds | src/solarflow_ble/client.py:240-250 | every suspended teardown, of `disconnect`, of an aborted `connect` or of a failure, is led to its end by its own steps and those of the tasks it joins |
| Invariant.InvStep | src/solarflow_ble/client.py:111-131 | every step of every task keeps the whole invariant |
| Invariant.RunsKeepInv | src/solarflow_ble/client.py:111-131 | every run keeps it |
| TaskInvariant.TasksStep | src/solarflow_ble/client.py:240-250 | every step keeps: the tasks in the failure handler, the one lock holder, the place of the stop marker, the order of the worker's payloads, and that what a teardown joins was cancelled or told to stop before |
| StreamInvariant.GreedyUnique | src/solarflow_ble/client.py:189-206 | the messages put on the queue determine which of them a handshake accepts |
| Json.DecimalInjective | src/solarflow_ble/client.py:551-552 | different ids print differently |
| Json.DecimalParses | src/solarflow_ble/client.py:552-552 | the text of an id is its decimal digits without a leading zero |
| Client.SolarFlowClient.constructor | src/solarflow_ble/client.py:99-131 | a new client is in the initial state |
| Client.SolarFlowClient.NextMessageId | src/solarflow_ble/client.py:499-504 | the loop draws the counter's value, or 1010 in place of 1009, and leaves the counter behind it |
| Client.SolarFlowClient.BeginTearing | src/solarflow_ble/client.py:240-247 | the reference is None afterwards; the keepalive of another task is cancelled, and no other, and joined before anything else is touched; the caller's own is not cancelled |
| Client.SolarFlowClient.Cleanup | src/solarflow_ble/client.py:252-265 | the transport is stopped if no teardown of the session did so before, and then nothing else is touched yet |
| Client.SolarFlowClient.StopNotificationWorker | src/solarflow_ble/client.py:350-366 | the reference is cleared, one stop marker is queued behind what was there, and the worker is joined unless it is the caller |
| Client.SolarFlowClient.HandleSessionFailure | src/solarflow_ble/client.py:274-300 | only the first failure of a connected session is recorded; it is torn down unless a disconnect is closing; any other leaves status, queues, state and handler alone |
| Client.SolarFlowClient.Record | src/solarflow_ble/client.py:284-287 | failure and status are set, each of the two current queues gets exactly one sentinel at its end, every other queue stays |
| Client.SolarFlowClient.ConsumeNotifications | src/solarflow_ble/client.py:323-348 | the loop runs until the worker stops, suspends or has nothing to take |
| Client.SolarFlowClient.TakeReport | src/solarflow_ble/client.py:444-451 | the head of the queue is taken and no other queue touched; it is accepted exactly when it has the wanted method, discarded without another change, or, a sentinel, ends the handshake |
| Client.SolarFlowClient.ControlTakesLock | src/solarflow_ble/client.py:532-538 | with a failure or without an identity the call ends and nothing is sent; otherwise exactly its write goes out, with a new id and the client's identity, and it holds the lock |
| Client.SolarFlowClient.TakeAcknowledgement | src/solarflow_ble/client.py:546-567 | the head of the queue is taken; the call succeeds exactly on an acknowledgement of its write with `writeRsp` zero, is rejected exactly on another one, waits on exactly after an uncorrelated message without a failure, and no other call changes |
| Client.SolarFlowClient.Move | src/solarflow_ble/client.py:111-131 | every step of the object is the machine's and keeps the invariant |
| WaitLoop.TimedQueue.WaitForResponse | src/solarflow_ble/client.py:421-451 | the wait ends by the one deadline fixed at its start whatever it rejects, takes a prefix of the arrivals, and ends on the first due arrival that is not rejected, or at the deadline if there is none; a failure recorded before ends it at once, a later one lets it take at most one more |
| WaitLoop.DecisiveIsUnique | src/solarflow_ble/client.py:445-451 | at most one arrival decides a wait, and then it does not run into its deadline |
| WaitLoop.AwaitAcknowledgement | src/solarflow_ble/client.py:546-567 | the real loop ends a control call by the first acknowledgement of its write, zero or not, by the sentinel, a failure or the deadline |
| WaitLoop.AwaitMethod | src/solarflow_ble/client.py:460-472 | a wait of the handshake passes over messages of other methods and ends on the first of the wanted one, on a sentinel, on a failure or at its deadline |
| WaitLoop.HandshakeWaits | src/solarflow_ble/client.py:189-206 | a handshake's own waiting is at most three response timeouts and the two delays; what it accepted is greedy among the arrivals, three messages exactly when it is done |
| ReportTheorems.FieldsAreLastInts | src/solarflow_ble/models.py:196-205 | after any reports each typed field is the last non-boolean integer reported for its key |
| ReportTheorems.ReportKeys | src/solarflow_ble/models.py:9-39 | each of the 29 typed fields is read from its own key |
| ReportTheorems.RawKeys | src/solarflow_ble/models.py:216-225 | `raw` keeps the keys of the typed fields and no other |
| ReportTheorems.RawIsLastValues | src/solarflow_ble/models.py:216-225 | `raw` holds the last value of each known key and no other key |
| ReportTheorems.RawAgreesWithFields | src/solarflow_ble/models.py:196-225 | where `raw` holds an integer the typed field holds the same |
| ReportTheorems.BatteryPowerIsDerived | src/solarflow_ble/models.py:212-215 | `battery_power` is the last output minus the last input power, known exactly when both are |
| ReportTheorems.IdentityIsLastText | src/solarflow_ble/models.py:206-211 | device id and product key are the last strings of reports that carry properties |
| ReportTheorems.PacksAreMergedOnce | src/solarflow_ble/models.py:226-228 | folding reports merges packs as one merge of all their entries |
| ReportTheorems.ReportIdempotent | src/solarflow_ble/models.py:183-229 | applying a report again changes nothing |
| ReportTheorems.MergedUnique | src/solarflow_ble/models.py:119-131 | merged packs have different serials |
| ReportTheorems.MergeOrder | src/solarflow_ble/models.py:119-131 | serials stand in order of first appearance |
| ReportTheorems.KnownPacksFirst | src/solarflow_ble/models.py:119-131 | the known packs are a stable prefix |
| ReportTheorems.MergeValues | src/solarflow_ble/models.py:124-130 | each pack value is the last integer its entries carry, else the known one |
| ReportTheorems.PackKeys | src/solarflow_ble/models.py:41-53 | each of the 11 values of a pack is read from its own key |
| ReportTheorems.MergeInTurn | src/solarflow_ble/models.py:115-131 | merging two lists in turn is merging their concatenation |
| ReportTheorems.MergeIdempotent | src/solarflow_ble/models.py:115-131 | merging the same entries again changes nothing |
| ReportTheorems.MergePacks | src/solarflow_ble/models.py:115-131 | the loop over the dict computes the merge the lemmas speak of |
| ReportTheorems.ApplyReport | src/solarflow_ble/models.py:183-229 | the step-by-step changes compute the report fold the lemmas speak of |
| Controls.ValueOrOverride | scripts/client_diagnostic.py:139-150 | an action from the override or the reported value, else a skip reason |
| Controls.RestorableValueOrOverride | scripts/client_diagnostic.py:153-167 | an action exactly when the original is known |
| Controls.PlanControls | scripts/client_diagnostic.py:178-225 | the five decisions in order, actions and reasons |
| Controls.PlanIs | scripts/client_diagnostic.py:178-225 | each control runs at most once, all five are accounted for, and which of them run with what values |
| Controls.PlanControlByControl | scripts/client_diagnostic.py:192-225 | control by control and in order, what is set, restored or skipped and why, each from its own override and its own reported field |
| Controls.RestorableIff | scripts/client_diagnostic.py:186-190 | every planned control can be restored exactly when no power limit is overridden whose value is unknown |
| Controls.UnrestorableWitness | scripts/client_diagnostic.py:186-202 | an override of an unreported input limit is planned without a restore value |
| Controls.RunControls | scripts/client_diagnostic.py:383-429 | whatever calls fail, the calls made are the attempted sets and then all their restores, and the first restore error wins over the set's |
| Controls.ApplyAll | scripts/client_diagnostic.py:407-411 | an action counts as applied before its setter is called; the sets stop at the first failure |
| Controls.RestoreAll | scripts/client_diagnostic.py:412-429 | every restore is tried in reverse order, the first error is kept |
| Controls.AttemptedIs | scripts/client_diagnostic.py:407-411 | the sets stop at the first failure and only there |
| Controls.RestoredOnceInReverse | scripts/client_diagnostic.py:412-427 | each attempted action with a known original gets exactly one restore call, in reverse order, and nothing else is restored |
| Controls.FirstErrorIs | scripts/client_diagnostic.py:413-429 | the error kept is that of the first failing call, none exactly when all succeeded |
| Controls.RunRestores | scripts/client_diagnostic.py:407-427 | a run undoes itself: untouched controls keep their values, a restored one holds its reported value again; a state of charge is rounded down by less than 10, exact only for multiples of 10 |
| Redaction.RedactNonInterfering | scripts/_redact.py:30-41 | two values redact to the same result exactly when they look the same everywhere but beneath sensitive keys |
| Redaction.RedactKeepsSights | scripts/_redact.py:30-41 | everything not beneath a sensitive key is kept at every depth, keys in order |
| Redaction.RedactMasks | scripts/_redact.py:33-36 | every sensitive key holds its placeholder, at every depth |
| Redaction.RedactIdempotent | scripts/_redact.py:30-41 | redacting twice is redacting once |
| Redaction.SeparatorsIgnored | scripts/_redact.py:26-27 | `_` and `-` anywhere in a key make no difference |
| Redaction.StrippedKeeps | scripts/_redact.py:26-27 | a key without separators is left as it is |
| Redaction.SensitiveIff | scripts/_redact.py:7-27 | a key is sensitive exactly when, separators removed and lowered, it is one of the fifteen, and its placeholder names the kind |
| Redaction.CaseIgnored | scripts/_redact.py:26-27 | keys that differ in case or separators only are treated alike |
| Redaction.RedactListsTuples | scripts/_redact.py:37-40 | tuples come back as lists at every depth |

## Left out

- `src/solarflow_ble/transport.py`, `src/solarflow_ble/interfaces.py`: wrappers over bleak, replaced by the environment above.
- `src/solarflow_ble/protocol.py`: JSON encoding, the payload size limit and advertisement parsing; a payload decodes to a message or does not.
- `src/solarflow_ble/limits.py` and the range checks of the setters: one comparison each; in the control run a failing check is one of the ways a setter call fails.
- Log lines, exception texts, timestamps, `__aenter__`, `__aexit__` and the property accessors: no property of weight.
- `scripts/probe_solarflow.py`, `scripts/_proxy_common.py`, `scripts/check.py` and the argument, configuration and scanning parts of `scripts/client_diagnostic.py`: command-line plumbing.
- MessageLaw.AcceptedMessageChanges: the update callback of a message processed inline, without a worker, has no point of its own in the model.
- Cancellation from outside and callbacks that call back into the client: excluded by assumption.
- SessionTheorems.FailureWakesEveryWait: session failures only; a user's `disconnect()` puts no sentinel on the queues, so a control call pending then runs into its own timeout.
- SessionTheorems.NoWaitAfterFailure: until the next session is opened, which clears the recorded failure; what a call still pending then can take is bounded by `StaleCalls.StaleCallIsBounded`.
- SessionTheorems.ReportsQueueBounded: the reports queue only; the write-results queue is filled by every report with `writeRsp` and has no bound, and acknowledgements in it may be old.
- WireLanguage.SessionWritesInOrder: the writes of the session's own tasks; for all writes the exact condition is `Disturbance.OrderIffQuiet`.
- Drain.DrainCompletesEveryFuture: only where nothing suspends the loop; every other drain, with an update callback, of a `disconnect` or of an aborted `connect`, is `TeardownEnds.DrainEnds`.
- NaN and infinities, which Python's JSON decoder also accepts, are not among the model's numbers.
- Redaction.SeparatorsIgnored: `str.lower` is a parameter, so nothing is said about which letters it folds.
- Fairness: the scheduler is free. That a task which can step for ever does step is left to the event loop; proved are freedom from deadlock and measures that bound the work left.
- SessionState.StateIsFoldOfReports: while the worker has its reference; a notification processed inline after that may come before one still queued.
