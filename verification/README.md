# A verified model of the stream-graph runtime

The runtime executes a graph of streams in one Node.js isolate. What is hard about it are protocols whose
steps interleave at every `await`: the keyed join store with expiring groups, the start, rollback and shutdown
of the service, the leases of the Kafka consumer, the retirement of gRPC requests, the executor and timer pools.
This project models them in Dafny and proves what they promise, over every run.

## How to read it

- A protocol is a value (`Store`, `Runtime`, `Consumer`, `Partition`, `Endpoint`), a datatype `Event`, and
  functions for the stretches of code between two awaits. What user callbacks, native clients, contexts, timers and
  the clock do is chosen by the event. `Inv` is an inductive invariant, `StepKeeps` proves that every step keeps it,
  `Run` is a sequence of states linked by enabled events, and the theorems speak of every state of every run.
- `JoinChanges`, `ServiceOutcomes`, `KafkaOutcomes`, `KafkaRestores` and `GrpcReplies` tell for every machine, over
  its runs and field by field, what moves what and what leaves it alone, without the functions the machine is made
  of. `SerdeVectors` holds the bytes of the wire format for concrete values.
- The classes hold the fields the source updates. For every event there is a method, the stretch of code between two
  awaits: from a state within the invariant in which the event can happen it makes the machine's step and stays
  within the invariant, `View() == Step(old(View()), e) && Inv(View())`, so the theorems hold of the objects. The
  remaining methods are parts of such stretches.
- Data structures and pools are classes with a `Valid()` that ties them to a multiset, a sequence, a plain map or a
  ledger of tasks.
- Where a field is history only, its comment says so; it is never read by the modelled code.

| files | source |
|---|---|
| `JoinStorage`, `JoinRuns`, `JoinTheorems`, `JoinChanges`, `JoinProgress`, `HashMapJoinStorage` | the join store |
| `ServicePlan`, `ServiceStops`, `ServiceRuntime`, `ServiceRuns`, `ServiceTheorems`, `ServiceTasks`, `ServiceOutcomes`, `ServiceProgress`, `ServiceRuntimeClass` | the lifecycle of the runtime |
| `KafkaLeases`, `KafkaTheorems`, `KafkaRestores`, `KafkaDelivery`, `KafkaOutcomes`, `KafkaSystem`, `KafkaConsumer` | leases and delivery of the native Kafka consumer |
| `GrpcRequests`, `GrpcReplies` | unary gRPC requests and their results |
| `HeapOrder`, `TaskOrder`, `IndexedHeap`, `FifoQueue`, `TaskPool`, `PriorityTaskPool`, `DelayPool` | the pools and what they queue on |
| `RotatingMap` | the sharded map of pending requests |
| `SerdeFraming`, `Serde`, `SerdeDomain`, `SerdeVectors`, `SerdeLoops` | the self-delimiting serdes |
| `IntervalCron` | the interval scheduler |

## What was found

- `joinValue` under a context that has a deadline and is aborted already can go round its loop for ever: the group it
  creates expires before the call's own operation runs (`DoomedFromStart`). `CreatorAdmitted` says exactly when a call
  gets into the group it created.
- A priority that is not a number breaks the heap's order: a smaller task can hide below it (`SpoiledHeap`,
  `SpoiledArises`). It is harmless exactly if it is that of the very first task (`RootLeastIff`, `SubmissionLeastIff`);
  the order of starts is proved as long as every priority is harmless in this sense (`StartedLeast`).
- A task can outlive a shutdown that ended well: the drain sees no task, a task is admitted, and only then is admission
  sealed (`TaskOutlives`). `StoppedTasks` says exactly when, and `FailedLeavesNone` that it never happens after a failed
  startup.
- `serialize` does not check `maxTotalBytes`, `deserialize` does, so data can be written that cannot be read
  (`Unreadable`). `RoundTrip` gives the exact condition.
- 8-bit integers and runes are stored without inverting the sign bit, so they do not compare bytewise in numeric order
  (`PlainSignedOutOfOrder`); `OrderOfPlainSigned` and `OrderedKinds` say exactly which numbers and serdes do.

## Model

| member | source | states |
|---|---|---|
| `JoinRuns.StepKeeps` | src/runtime/store/hash-map-join-storage.ts:87-294 | Every step between two awaits, of any call, callback, timer, abort, rotation or stop, keeps the store's invariant |
| `JoinTheorems.RunsKeepInv` | src/runtime/store/hash-map-join-storage.ts:67-294 | So every state of every run satisfies it |
| `JoinTheorems.NeverOrphaned` | src/runtime/store/hash-map-join-storage.ts:184-236 | In every run an unfinished group with a deadline has exactly one live arm, or an expiry queued or running |
| `JoinTheorems.FinishedOnce` | src/runtime/store/hash-map-join-storage.ts:108-127 | A group's deadline callback runs at most once, and never after a join callback completed the group |
| `JoinTheorems.CallbacksNeverOverlap` | src/runtime/store/hash-map-join-storage.ts:108-132 | Of all calls in a callback no two are in one group's, and none while its deadline callback runs |
| `JoinTheorems.SettledOnce` | src/runtime/store/hash-map-join-storage.ts:104-133 | A call that settled appended its value to exactly one group, at one place of its log, under its own index |
| `JoinTheorems.UnsettledNever` | src/runtime/store/hash-map-join-storage.ts:104-133 | A call that has not reached a callback has appended nothing anywhere |
| `JoinTheorems.FinishedForGood` | src/runtime/store/hash-map-join-storage.ts:110-113 | From the moment a group is finished its values, its callbacks and its verdict stay as they are |
| `JoinTheorems.NeverRevisited` | src/runtime/store/hash-map-join-storage.ts:153-159 | With a clock that does not run backwards a retry never queues again on a group that turned it away |
| `JoinTheorems.MaintenanceIsHarmless` | src/runtime/store/hash-map-join-storage.ts:272-294 | The generations never share a key, rotation moves groups but loses and evicts none, and the gauge is the size |
| `JoinTheorems.StopWaitsForJoins` | src/runtime/store/hash-map-join-storage.ts:67-85 | In every run, from a pending `stop` to its release the set of calls with a TTL inside only shrinks, and the release comes exactly when it is empty |
| `JoinProgress.CreatorAdmitted` | src/runtime/store/hash-map-join-storage.ts:161-236 | In every run, whatever happens in between: when the group a call created starts its first operation, the call gets its value in if and only if its context did not have a deadline and an abort already at the creation and the group's own deadline has not come |
| `JoinProgress.RunUntouched` | src/runtime/store/hash-map-join-storage.ts:104-133 | Until that operation starts no other call, timer, rotation or stop displaces it from the head of the group's chain, finishes the group, moves its deadline, or removes it unexpired |
| `JoinProgress.DoomedRound` | src/runtime/store/hash-map-join-storage.ts:104-133 | A call under a context with a deadline and an abort goes round: its group is created, expired, removed, and turns it away, with the clock standing still |
| `JoinProgress.DoomedForever` | src/runtime/store/hash-map-join-storage.ts:104-133 | So from every such state, for every n, there is a continuation in which it is turned away n times more |
| `JoinProgress.DoomedFromStart` | src/runtime/store/hash-map-join-storage.ts:87-133 | Such a call is something the store can receive: for every n a run from the empty store, through the call's own beginning, turns it away n times |
| `HashMapJoinStorageClass.HashMapJoinStorage.JoinValue` | src/runtime/store/hash-map-join-storage.ts:94-103 | The prologue of `joinValue`, refusal of a bad index, waiting for a stop under way, counting in, makes the machine's step and keeps the invariant |
| `HashMapJoinStorageClass.HashMapJoinStorage.Admitted` | src/runtime/store/hash-map-join-storage.ts:101-103 | The same of its continuation behind the wait for a stop |
| `HashMapJoinStorageClass.HashMapJoinStorage.Iterate` | src/runtime/store/hash-map-join-storage.ts:106-108 | The same of one turn of the loop up to its await: find or create a group and queue on it |
| `HashMapJoinStorageClass.HashMapJoinStorage.StartOperation` | src/runtime/store/hash-map-join-storage.ts:108-113 | The same of the start of a queued operation, a call's or an expiry's |
| `HashMapJoinStorageClass.HashMapJoinStorage.FinishJoin` | src/runtime/store/hash-map-join-storage.ts:113-126 | The same of what follows the callback; that a group is removed if the callback returned true, and renewed if and only if it returned false, is in its place and the call renews, is what `JoinChanges.PlaceChanges` and `JoinChanges.RenewedInTime` say of this step |
| `HashMapJoinStorageClass.HashMapJoinStorage.FinishExpire` | src/runtime/store/hash-map-join-storage.ts:204-207 | The same of the removal after the deadline callback |
| `HashMapJoinStorageClass.HashMapJoinStorage.FireArm` | src/runtime/store/hash-map-join-storage.ts:186-189 | The same of a timer or an abort that fires: nothing if the arm is retired, else one expiry queued |
| `HashMapJoinStorageClass.HashMapJoinStorage.Leave` | src/runtime/store/hash-map-join-storage.ts:134-142 | The same of the `finally` block: counting out and releasing a stop |
| `HashMapJoinStorageClass.HashMapJoinStorage.Stop` | src/runtime/store/hash-map-join-storage.ts:67-85 | The same of the stop barrier |
| `HashMapJoinStorageClass.HashMapJoinStorage.Rotate` | src/runtime/store/hash-map-join-storage.ts:272-294 | The same of a rotation |
| `HashMapJoinStorageClass.HashMapJoinStorage.RunJoin` | src/runtime/store/hash-map-join-storage.ts:109-113 | Turns the operation away or pads, by a loop, appends and calls back |
| `HashMapJoinStorageClass.HashMapJoinStorage.RunExpire` | src/runtime/store/hash-map-join-storage.ts:190-203 | An expiry that is stale, rearms, or runs the deadline callback |
| `HashMapJoinStorageClass.HashMapJoinStorage.CreateItem` | src/runtime/store/hash-map-join-storage.ts:161-182 | Replacement of an expired group, gauge and arm |
| `HashMapJoinStorageClass.HashMapJoinStorage.ArmDeadline` | src/runtime/store/hash-map-join-storage.ts:184-236 | A new arm, which fires at once under a context that is aborted already |
| `HashMapJoinStorageClass.HashMapJoinStorage.RemoveAt` | src/runtime/store/hash-map-join-storage.ts:244-257 | Removal from the generation the group is in, with gauge and eviction count |
| `HashMapJoinStorageClass.HashMapJoinStorage.Rescue` | src/runtime/store/hash-map-join-storage.ts:279-285 | The rescue loop adds exactly the old groups whose key is not taken, and counts them |
| `JoinChanges.RenewedInTime` | src/runtime/store/hash-map-join-storage.ts:119-125 | In every run a join callback that returned false gives its group, if that is in its place and the call renews with a TTL, a deadline of that TTL from now, a place in the young generation and one live arm made just now, or a queued expiry if the context is aborted already; otherwise deadline, arms and generation stay |
| `JoinChanges.DeadlineChanges` | src/runtime/store/hash-map-join-storage.ts:119-121 | In every run nothing but such a return moves the deadline of a group |
| `JoinChanges.DeadlineOrigin` | src/runtime/store/hash-map-join-storage.ts:119-171 | So a group's deadline is always the TTL of the call that made it, from then, or of the last call that renewed it, from its return |
| `JoinChanges.PlaceChanges` | src/runtime/store/hash-map-join-storage.ts:153-257 | In every run the two generations are one map from keys to groups: a key gets a new group when a call finds none alive, loses it when it is finished, and keeps it through rotations and renewals |
| `JoinChanges.YoungChanges` | src/runtime/store/hash-map-join-storage.ts:176-294 | A key is in the young generation from the creation or a renewal of its group until the group is finished or a rotation turns the generations |
| `JoinChanges.ChainChanges` | src/runtime/store/hash-map-join-storage.ts:108-131 | The operations of a group run one at a time in the order they were queued; which one is skipped, which one leaves, and what is queued behind |
| `JoinChanges.ArmChanges` | src/runtime/store/hash-map-join-storage.ts:184-236 | An arm is retired when it goes off, when its group is finished or gets another arm, and by nothing else; and what makes an arm |
| `JoinChanges.ValueChanges` | src/runtime/store/hash-map-join-storage.ts:108-112 | A value enters a group, behind those before it, exactly when its call's operation starts and the group is unfinished, in its time and in its place; the table is as wide as the indices ask for |
| `JoinChanges.VerdictChanges` | src/runtime/store/hash-map-join-storage.ts:110-203 | A group is finished by a join callback that returned true or by the begin of its deadline callback, and by nothing else |
| `JoinChanges.NeverEarly` | src/runtime/store/hash-map-join-storage.ts:193-203 | So a deadline callback begins before the deadline only for the abort of a context that has one |
| `JoinChanges.CallChanges` | src/runtime/store/hash-map-join-storage.ts:104-142 | A call goes to the group it finds alive or makes, into its callback or, turned away, back to look for another, and leaves after its callback |
| `JoinChanges.CallBegins` | src/runtime/store/hash-map-join-storage.ts:94-103 | A call is refused if its index is no non-negative safe integer, waits if it has a TTL and a stop is under way, and looks for its group otherwise |
| `JoinChanges.GroupBegins` | src/runtime/store/hash-map-join-storage.ts:161-182 | A group is made by a call that finds none alive, and by nothing else, with that call's width, TTL and operation |
| `JoinChanges.RestChanges` | src/runtime/store/hash-map-join-storage.ts:67-85 | When a stop is answered, how the high-water mark moves, and what counts as an eviction |
| `ServicePlan.PlanStarts` | src/runtime/service-runtime.ts:19-30 | The startup loop starts every component, or every one but sources and servers, once, by category and then as registered |
| `ServiceRuns.StepKeeps` | src/runtime/service-runtime.ts:95-382 | Every step of startup, rollback, shutdown attempts, callers and component stops keeps the invariant of the lifecycle |
| `ServiceTheorems.RunsKeepInv` | src/runtime/service-runtime.ts:95-382 | So every state of every run satisfies it |
| `ServiceTheorems.StopsNeverOverlap` | src/runtime/service-runtime.ts:271-323 | Of the physical `stop` (or `stopAdmission`) calls on one component at most one is under way, at most one ever succeeds, and all but the latest have failed, whoever waits, times out or retries |
| `ServiceTheorems.StopAfterAdmission` | src/runtime/service-runtime.ts:210-243 | A component's `stop` and its `stopAdmission` are never under way together |
| `ServiceTheorems.StopsInTurn` | src/runtime/service-runtime.ts:210-247 | In an ordinary shutdown a `stop` is called only when every started component of an earlier step has left |
| `ServiceTheorems.SinksAfterProducers` | src/runtime/service-runtime.ts:188-249 | So what may still be started when a component is stopped is told by the categories: producers without an admission stop first, then those with one, connectors without one, storages and pools, sinks, the other connectors, and telemetry |
| `ServiceTheorems.StartedIsPrefix` | src/runtime/service-runtime.ts:106-143 | During startup and after its failure what is started is a beginning of the start order, and each rollback stop was called on the last of it |
| `ServiceTheorems.LeavesFromTheEnd` | src/runtime/service-runtime.ts:266-269 | In every run what is started at any time after a failed startup is a beginning of what was started at any earlier time since, across timeouts and retries |
| `ServiceTheorems.StartedChanges` | src/runtime/service-runtime.ts:106-323 | Only a `start` that returns, which appends its component, and a `stop` that succeeds, which takes its component out, change what is started |
| `ServiceTheorems.NeverRunsAborted` | src/runtime/service-runtime.ts:106-143 | Once the startup was aborted the runtime never comes to run |
| `ServiceTheorems.FinishedForGood` | src/runtime/service-runtime.ts:145-249 | Nothing starts and no task is admitted once nothing is started and admission is sealed |
| `ServiceTheorems.StoppedMeansStopped` | src/runtime/service-runtime.ts:145-186 | Once the state is stopped, or one caller of `stop` has returned, nothing is started, and nothing ever is again |
| `ServiceTheorems.AdmissionStopsFirst` | src/runtime/service-runtime.ts:210-243 | In every run, while a source, component, server or connector with an admission is being stopped in an ordinary shutdown, its admission has been stopped |
| `ServicePlan.PlanOpens` | src/runtime/service-runtime.ts:111-127 | With admission every connector is opened once, as registered, after everything that starts before the sources and before the first of them; without, none is |
| `ServiceOutcomes.CallerWoken` | src/runtime/service-runtime.ts:167-185 | In every run a caller of `stop` that wakes from an ended attempt returns if and only if that ended well; after a failure it throws if and only if its own context has expired or it owned the attempt; otherwise it waits again, on the attempt callers would join or on a new one of its own under its own context |
| `ServiceOutcomes.ThrewForItself` | src/runtime/service-runtime.ts:167-182 | In every run a caller that threw had an expired context of its own, or an attempt under its own context failed: never because of another caller's expiry; and admission is sealed |
| `ServiceOutcomes.StopCalled` | src/runtime/service-runtime.ts:145-167 | A call of `stop` returns at once exactly if no startup is pending, nothing is started and no task is active |
| `ServiceOutcomes.AttemptGoesOn` | src/runtime/service-runtime.ts:188-372 | In every run an attempt goes from each stage to the one that is due, with the stops that are due asked for, and fails only if a stop it waited for failed, its context ran out of time, or its drain failed |
| `ServiceOutcomes.AttemptBegun` | src/runtime/service-runtime.ts:188-213 | An attempt begins when no other is under way, under its owner's context; it aborts a pending startup and waits for it, or sets out at once |
| `ServiceOutcomes.StartupGoesOn` | src/runtime/service-runtime.ts:106-143 | In every run a call of the startup that ends well leads to the next one or to a running runtime, and one that fails, or an abort, to the rollback of everything started, from the end |
| `ServiceOutcomes.RunsWhenStarted` | src/runtime/service-runtime.ts:111-128 | So the runtime comes to run exactly when the last call of its startup ended well without an abort, and then everything that is to start is started |
| `ServiceOutcomes.FlagChanges` | src/runtime/service-runtime.ts:129-264 | What seals admission, what leaves a rollback over and what settles it, and until when an attempt is joined |
| `ServiceOutcomes.TaskChanges` | src/runtime/service-runtime.ts:188-202 | What makes a context run out, and when a task is active |
| `ServiceOutcomes.StateChanges` | src/runtime/service-runtime.ts:145-248 | When the runtime's state becomes stopping and stopped, but for the startup's own steps |
| `ServiceOutcomes.StopSettled` | src/runtime/service-runtime.ts:303-321 | A physical stop that succeeded takes its component out with its admission's entry; one that failed takes its own entry out, so that it can be asked for again |
| `ServiceOutcomes.MembersInOrder` | src/runtime/service-runtime.ts:210-247 | The components of a step keep the order in which they started |
| `ServiceProgress.NeverStuck` | src/runtime/service-runtime.ts:145-372 | In every run a caller that waits in `stop` has an attempt that has ended, or that can make a step, or that waits for a stop, a call of the startup or a task that is still under way |
| `ServiceTasks.OutlivesIff` | src/runtime/service-runtime.ts:251-264 | After a window, from the sight of no task to the seal of admission, a task is active if and only if it was admitted inside the window and has not ended |
| `ServiceTasks.StoppedTasks` | src/runtime/service-runtime.ts:145-264 | In every run a runtime that is stopped, or whose `stop` returned to a caller, or an attempt past its drain, went through such a window, so this decides whether a task is active then and ever after |
| `ServiceTasks.FailedLeavesNone` | src/runtime/service-runtime.ts:129-143 | After a failed startup no task outlives the shutdown: none is active once it is stopped, nor ever again |
| `ServiceTasks.TaskOutlives` | src/runtime/task-registry.ts:114-136 | A run in which the runtime is stopped, the caller has returned and a task admitted after the drain had seen none is active |
| `ServiceTasks.SealedForGood` | src/runtime/task-registry.ts:97-99 | Sealed admission stays sealed, and from then on tasks only end |
| `ServiceRuntimeClass.ServiceRuntime.StartMode` | src/runtime/service-runtime.ts:95-104 | A start, accepted in the created state only, makes the machine's step and keeps the lifecycle's invariant |
| `ServiceRuntimeClass.ServiceRuntime.BuildEnds` | src/runtime/service-runtime.ts:108-111 | The same of the end of the graph's construction |
| `ServiceRuntimeClass.ServiceRuntime.LaunchEnds` | src/runtime/service-runtime.ts:121-128 | The same of the end of one `start`, whose component is entered before the abort check |
| `ServiceRuntimeClass.ServiceRuntime.StartupProceeds` | src/runtime/service-runtime.ts:132-142 | The same of the rollback of a failed start, which goes on or ends in stopped or stopping |
| `ServiceRuntimeClass.ServiceRuntime.StartupResumes` | src/runtime/service-runtime.ts:370-372 | The same of a wait of that rollback that goes on |
| `ServiceRuntimeClass.ServiceRuntime.StopSettles` | src/runtime/service-runtime.ts:303-321 | The same of a physical stop that settled: the component leaves, or the entry is dropped for a retry |
| `ServiceRuntimeClass.ServiceRuntime.AttemptSeesStartup` | src/runtime/service-runtime.ts:192-203 | The same of an attempt that goes on after the startup, or gives up |
| `ServiceRuntimeClass.ServiceRuntime.AttemptResumes` | src/runtime/service-runtime.ts:345-349 | The same of an attempt's wait for one component, which joins again where it may |
| `ServiceRuntimeClass.ServiceRuntime.AttemptProceeds` | src/runtime/service-runtime.ts:203-248 | The same of an attempt whose step or rollback is over: next step, next component, stopped, or failure |
| `ServiceRuntimeClass.ServiceRuntime.DrainSees` | src/runtime/task-registry.ts:125-132 | The same of the moment the registry's drain sees no task, while admission is still open |
| `ServiceRuntimeClass.ServiceRuntime.AttemptDrains` | src/runtime/service-runtime.ts:251-264 | The same of the end of the task drain, which succeeds only after it saw no task: admission is sealed either way |
| `ServiceRuntimeClass.ServiceRuntime.BeginDrain` | src/runtime/service-runtime.ts:252-259 | The drain waits if tasks are active, and seals admission at once if none is |
| `ServiceRuntimeClass.ServiceRuntime.TaskStarts` | src/runtime/task-registry.ts:32-45 | The same of the admission of a task, refused and without effect exactly when admission is sealed |
| `ServiceRuntimeClass.ServiceRuntime.Release` | src/runtime/service-runtime.ts:160-163 | The same of the release of a settled attempt |
| `ServiceRuntimeClass.ServiceRuntime.Stop` | src/runtime/service-runtime.ts:145-167 | The same of a caller's `stop`: the fast path, or owning or joining an attempt |
| `ServiceRuntimeClass.ServiceRuntime.Wake` | src/runtime/service-runtime.ts:167-186 | The same of a caller that wakes; which caller returns, throws or retries is what `ServiceOutcomes.CallerWoken` says of this step |
| `ServiceRuntimeClass.ServiceRuntime.StopComponent` | src/runtime/service-runtime.ts:271-302 | Joins the pending stop of the component, or makes the one physical call and enters it |
| `ServiceRuntimeClass.ServiceRuntime.Unlist` | src/runtime/service-runtime.ts:310-313 | `indexOf` and `splice` take one component out and keep the order of the others |
| `ServiceRuntimeClass.ServiceRuntime.Resume` | src/runtime/service-runtime.ts:279-302 | A joined stop that failed by its first caller's context is asked for again under a live one |
| `ServiceRuntimeClass.ServiceRuntime.Filter` | src/runtime/service-runtime.ts:210-247 | The components of one shutdown step, in start order |
| `ServiceRuntimeClass.ServiceRuntime.StopGroup` | src/runtime/service-runtime.ts:339-349 | The loop calls `stopComponent` on each of a step's components, from the last started on |
| `ServiceRuntimeClass.ServiceRuntime.StopLast` | src/runtime/service-runtime.ts:364-372 | One turn of the sequential stop |
| `ServiceRuntimeClass.ServiceRuntime.MakePlan` | src/runtime/service-runtime.ts:111-127 | The nested startup loops, flattened to the calls they make |
| `ServiceRuntimeClass.ServiceRuntime.BeginAttempt` | src/runtime/service-runtime.ts:188-202 | An attempt aborts a pending startup and waits for it, or goes on at once |
| `ServiceRuntimeClass.ServiceRuntime.EnterStep` | src/runtime/service-runtime.ts:210-247 | A step of the ordinary path begins |
| `ServiceRuntimeClass.ServiceRuntime.GroupEnds` | src/runtime/service-runtime.ts:350-362 | A step whose stops all succeeded leads to the next one, otherwise the attempt fails |
| `KafkaLeases.StepKeeps` | src/datasource/kafka/confluent.ts:1238-1307 | Every rebalance, failure, restoration step, stop and disconnect keeps the lease invariant |
| `KafkaTheorems.InstalledIsNewest` | src/datasource/kafka/confluent.ts:1238-1243 | In every run all installed leases are of the newest generation and not aborted, and there are none after a failure |
| `KafkaTheorems.SupersededDoesNothing` | src/datasource/kafka/confluent.ts:1270-1304 | A restoration of an older generation installs nothing, fails nothing and changes nothing but itself |
| `KafkaTheorems.SupersededForGood` | src/datasource/kafka/confluent.ts:1270-1306 | Once superseded it is never installed, in any later state of the run |
| `KafkaTheorems.InstallsIff` | src/datasource/kafka/confluent.ts:1300-1306 | Leases are installed exactly by the last step of a restoration that is still alive and has partitions |
| `KafkaTheorems.InstalledAtCheckpoint` | src/datasource/kafka/confluent.ts:1277-1307 | An installed restoration reads every partition from its checkpointed offset, which lay in the retained log |
| `KafkaTheorems.NeverCurrentAgain` | src/datasource/kafka/confluent.ts:1356-1359 | A lease that has stopped being current never becomes current again |
| `KafkaSystem.StepKeeps` | src/datasource/kafka/confluent.ts:1238-1409 | Every step of the consumer with the deliveries of all its leases keeps the invariant that a delivery takes its lease for current exactly while it is in force |
| `KafkaSystem.WorksInForce` | src/datasource/kafka/confluent.ts:1356-1409 | In every run a record is handed out, and an offset stored or handed to a commit, only by the delivery of a lease in force: of the newest generation, not aborted, in a consumer neither failed nor cancelled, and the only one in force on its partition |
| `KafkaSystem.RefusedOutOfForce` | src/datasource/kafka/confluent.ts:1370-1396 | A mark or a commit under a lease not in force changes nothing at all |
| `KafkaSystem.OutForGood` | src/datasource/kafka/confluent.ts:1238-1243 | A lease not in force never is again, and nothing more is handed out, stored or handed to a commit under it |
| `KafkaSystem.FailureEndsAll` | src/datasource/kafka/confluent.ts:1245-1256 | The failure of the consumer, or of one delivery under a lease in force, ends the work of all leases for good |
| `KafkaSystem.FromCheckpoint` | src/datasource/kafka/confluent.ts:1277-1307 | A lease installed at a checkpoint is read from its offset: nothing before it is handed out, and what is acknowledged is a prefix of the records from it on |
| `KafkaDelivery.StepKeeps` | src/datasource/kafka/confluent.ts:1315-1409 | Every step of delivery keeps the acknowledged records a prefix that ends at the position or the record in hand |
| `KafkaDelivery.NothingSkipped` | src/datasource/kafka/confluent.ts:1361-1409 | In every run the acknowledged records of a lease, by a mark returned with or by a commit that succeeded, are a prefix of its records; an offset ever stored or handed to a commit is that behind a record the handler was given, with every earlier one acknowledged |
| `KafkaDelivery.IdleMeansAcknowledged` | src/datasource/kafka/confluent.ts:1361-1409 | In every run, whenever the partition is idle under a current lease, the acknowledged records of the lease are exactly those below its position |
| `KafkaDelivery.FetchPassesNothing` | src/datasource/kafka/confluent.ts:1318-1337 | So a fetch hands over a record that is not acknowledged, and only when everything before it is |
| `KafkaDelivery.FailedCommitStops` | src/datasource/kafka/confluent.ts:1397-1407 | In every run delivery stops at a record whose commit failed: it is never acknowledged, and no handler is given a record from then on |
| `KafkaDelivery.UnmarkedSeeksBack` | src/datasource/kafka/confluent.ts:1397-1405 | In every run, after a handler returned from a record without acknowledging it, the position is back at that record whenever the partition is idle again before a fetch |
| `KafkaDelivery.UnmarkedComesAgain` | src/datasource/kafka/confluent.ts:1397-1405 | And the next fetch of the run hands over that very record |
| `KafkaOutcomes.AcknowledgedMeansStored` | src/datasource/kafka/confluent.ts:1397-1407 | In every run an acknowledged record was handed out, and the offset behind it was stored or handed to a commit |
| `KafkaOutcomes.MarkedIsStored` | src/datasource/kafka/confluent.ts:1397-1407 | After a handler returned from a marked, uncommitted record under a current lease, the offset behind that record is stored or handed to a commit, from then on |
| `KafkaOutcomes.AckedChanges` | src/datasource/kafka/confluent.ts:1373-1407 | A record is acknowledged by a plain mark its handler returned with, under a current lease, or by a commit that succeeded, and by nothing else |
| `KafkaOutcomes.StoredChanges` | src/datasource/kafka/confluent.ts:1373-1407 | An offset is stored or handed to a commit by a marked return or by a commit under a current lease, is the one behind that record, and by nothing else |
| `KafkaOutcomes.DoneGoesOn` | src/datasource/kafka/confluent.ts:1363-1408 | Done with a record, delivery goes to the next one fetched, or behind the last to an idle partition, or ends with its lease |
| `KafkaOutcomes.FetchHandsOut` | src/datasource/kafka/confluent.ts:1318-1367 | A fetch hands out the first record at or after the position, or ends the lease where that offset or the next is no safe integer |
| `KafkaOutcomes.OtherwiseGoes` | src/datasource/kafka/confluent.ts:1370-1407 | What every other step leads to: a refused or accepted mark or commit, the wait for a commit or a seek, the end of the lease, or nothing |
| `KafkaOutcomes.PositionChanges` | src/datasource/kafka/confluent.ts:1318-1405 | The position moves behind what a fetch returned or back to a record by a seek, and not otherwise |
| `KafkaRestores.RestorationGoesOn` | src/datasource/kafka/confluent.ts:1270-1307 | In every run a restoration is dropped when it throws or is superseded, and goes to its next partition, its last wait or its installation otherwise; it fails the consumer exactly if it throws as the newest and nobody is stopping |
| `KafkaRestores.RestorationBegins` | src/datasource/kafka/confluent.ts:1266-1269 | A restoration begins with an assignment, in the generation that makes, and in no other way |
| `KafkaRestores.LeasesEnd` | src/datasource/kafka/confluent.ts:1238-1274 | The steps at which all leases end, aborted if they were in force, and the steps that fail or stop the consumer, and no others |
| `KafkaRestores.LeasesBegin` | src/datasource/kafka/confluent.ts:1304-1306 | Leases are made by the last step of a restoration that is alive and whose assignment succeeds, one for each of its partitions, and in no other way |
| `KafkaSystem.PartsRun` | src/datasource/kafka/confluent.ts:1238-1409 | In every run of the system each delivery makes steps of its own and is revoked as soon as its lease is not in force, and the consumer makes steps of its own and fails with a delivery that throws under a current lease: so what is proved of the parts holds in the system |
| `KafkaConsumer.OfPartitionInOrder` | src/datasource/kafka/confluent.ts:1327-1333 | The records of a partition keep their order: those of a list come before those of what follows it |
| `KafkaConsumer.ConfluentConsumer.Rebalance` | src/datasource/kafka/confluent.ts:1258-1275 | Revocation, assignment, or failure, after invalidating, makes the machine's step and keeps the lease invariant |
| `KafkaConsumer.ConfluentConsumer.OnError` | src/datasource/kafka/confluent.ts:1245-1256 | The same of an error the native client reports |
| `KafkaConsumer.ConfluentConsumer.CheckpointRead` | src/datasource/kafka/confluent.ts:1278-1284 | The same of the checkpoint: taken, unreadable, or of another recovery mode |
| `KafkaConsumer.ConfluentConsumer.BoundsKnown` | src/datasource/kafka/confluent.ts:1291-1298 | The same of a partition's bounds: a position outside the retained log fails the restoration |
| `KafkaConsumer.ConfluentConsumer.CommitsSettled` | src/datasource/kafka/confluent.ts:1300-1306 | The same of the last step: the leases are installed, by a loop, unless the restoration was superseded |
| `KafkaConsumer.ConfluentConsumer.Stop` | src/datasource/kafka/confluent.ts:1411-1416 | The same of a stop: restorations under way go on to nothing |
| `KafkaConsumer.ConfluentConsumer.DisconnectOnce` | src/datasource/kafka/confluent.ts:1427-1431 | The same of a disconnect, which also ends the leases |
| `KafkaConsumer.ConfluentConsumer.ConsumeEnds` | src/datasource/kafka/confluent.ts:1350-1352 | The same of the end of the polling loop |
| `KafkaConsumer.ConfluentConsumer.Invalidate` | src/datasource/kafka/confluent.ts:1238-1243 | The generation grows, the assignments go, and exactly the leases they held are aborted |
| `KafkaConsumer.ConfluentConsumer.Throws` | src/datasource/kafka/confluent.ts:1270-1274 | A failed restoration fails the consumer only if it is the newest and nothing is stopping |
| `KafkaConsumer.ConfluentConsumer.Continue` | src/datasource/kafka/confluent.ts:1285-1299 | The loop over the partitions up to its next wait, with the checks of topic and coverage |
| `KafkaConsumer.ConfluentConsumer.Current` | src/datasource/kafka/confluent.ts:1356-1359 | Decides the predicate the theorem on leases speaks of |
| `KafkaConsumer.ConfluentConsumer.Group` | src/datasource/kafka/confluent.ts:1327-1333 | A polled list is sorted into the assigned partitions, each with all of its records in order |
| `KafkaConsumer.PartitionDelivery.Fetch` | src/datasource/kafka/confluent.ts:1318-1337 | A poll that returns the records at the position makes the step of delivery and keeps the prefix invariant |
| `KafkaConsumer.PartitionDelivery.Mark` | src/datasource/kafka/confluent.ts:1388-1391 | The same of a mark, refused and without effect exactly when the lease is revoked |
| `KafkaConsumer.PartitionDelivery.Commit` | src/datasource/kafka/confluent.ts:1373-1381 | The same of a commit's submission, refused likewise |
| `KafkaConsumer.PartitionDelivery.CommitSucceeded` | src/datasource/kafka/confluent.ts:1383-1384 | The same of a commit that settled inside the handler |
| `KafkaConsumer.PartitionDelivery.Returned` | src/datasource/kafka/confluent.ts:1397-1407 | The same of a handler's return; that a marked record's offset is stored, and where delivery goes, is what `KafkaOutcomes.StoredChanges`, `KafkaOutcomes.DoneGoesOn` and `KafkaOutcomes.OtherwiseGoes` say of this step |
| `KafkaConsumer.PartitionDelivery.Threw` | src/datasource/kafka/confluent.ts:1339-1341 | The same of a handler that throws, which fails the consumer under a current lease |
| `KafkaConsumer.PartitionDelivery.CommitSettled` | src/datasource/kafka/confluent.ts:1406-1408 | The same of a commit behind the handler that settled |
| `KafkaConsumer.PartitionDelivery.Sought` | src/datasource/kafka/confluent.ts:1400-1405 | The same of a seek that settled |
| `KafkaConsumer.PartitionDelivery.LateCommit` | src/datasource/kafka/confluent.ts:1386-1396 | The same of a control that is used after its handler returned, refused likewise |
| `KafkaConsumer.PartitionDelivery.Revoke` | src/datasource/kafka/confluent.ts:1238-1243 | The same of a revocation |
| `KafkaConsumer.PartitionDelivery.Next` | src/datasource/kafka/confluent.ts:1363-1367 | The loop of `deliver`, with its check of the lease and of the offset |
| `TaskOrder.Total` | src/runtime/pool/priority-task-pool.ts:95-101 | Keys whose priority is a number are totally ordered by priority and submission |
| `TaskHeaps.HarmlessOrderly` | src/runtime/pool/priority-task-pool.ts:85-102 | Keys of different tasks are totally ordered if each is a number or of the very first task |
| `TaskHeaps.RootLeastIff` | src/runtime/pool/indexed-heap.ts:9-11 | With one key among numeric ones, the root of every heap is least if and only if that key is a number or of the very first task |
| `TaskHeaps.SubmissionLeastIff` | src/runtime/pool/priority-task-pool.ts:85-102 | The same of the heap that results from pushing the tasks in the order of their submission, whatever they are |
| `TaskHeaps.SpoiledHeap` | src/runtime/pool/indexed-heap.ts:50-74 | For every n > 0 a heap, every edge in order, every priority but that of task n a number, in which the root is not least |
| `TaskHeaps.SpoiledArises` | src/runtime/pool/indexed-heap.ts:15-19 | It is what pushing its tasks in the order of their submission results in |
| `HeapOrder.RootIsLeast` | src/runtime/pool/indexed-heap.ts:9-11 | For every comparator that orders the keys, the root of a heap is least |
| `HeapOrder.SiftUpMends` | src/runtime/pool/indexed-heap.ts:50-60 | Sifting up mends the edge above, and the place it ends at is where sifting down may go on |
| `HeapOrder.SiftDownHeap` | src/runtime/pool/indexed-heap.ts:61-74 | Sifting down leaves a heap |
| `HeapOrder.FixedHeap` | src/runtime/pool/indexed-heap.ts:37-40 | Sifting up and then down mends a heap in which one key is arbitrary |
| `HeapOrder.PushedAllHeap` | src/runtime/pool/indexed-heap.ts:15-19 | Keys pushed one after the other form a heap of exactly those keys |
| `IndexedHeap.IndexedHeap.Push` | src/runtime/pool/indexed-heap.ts:15-19 | Order of the keys as the specification of a push gives it; exact positions, and order where the comparator orders the keys, if and only if the item was not there |
| `IndexedHeap.IndexedHeap.Pop` | src/runtime/pool/indexed-heap.ts:20-24 | A least item leaves, by the comparator, and nothing else |
| `IndexedHeap.IndexedHeap.Remove` | src/runtime/pool/indexed-heap.ts:25-36 | The item leaves, if it was there, and nothing else; the order is restored around the hole |
| `IndexedHeap.IndexedHeap.Fix` | src/runtime/pool/indexed-heap.ts:37-40 | Order is restored after one item's key changed arbitrarily |
| `IndexedHeap.IndexedHeap.Swap` | src/runtime/pool/indexed-heap.ts:41-49 | Two items and their positions change places |
| `IndexedHeap.IndexedHeap.Up` | src/runtime/pool/indexed-heap.ts:50-60 | The loop computes the specification of sifting up, keeps the items, and mends the edge above |
| `IndexedHeap.IndexedHeap.Down` | src/runtime/pool/indexed-heap.ts:61-74 | The loop computes the specification of sifting down, and leaves a heap |
| `IndexedHeap.IndexedHeap.Peek` | src/runtime/pool/indexed-heap.ts:9-11 | A least item, or none if there is none |
| `FifoQueue.FifoQueue.Push` | src/runtime/pool/fifo-queue.ts:14-20 | The linked list stands for a sequence: the value is appended, and the list stands for one still if and only if the value was not there |
| `FifoQueue.FifoQueue.Shift` | src/runtime/pool/fifo-queue.ts:21-29 | The first value is taken |
| `FifoQueue.FifoQueue.MoveToFront` | src/runtime/pool/fifo-queue.ts:30-41 | One value moves to the front, the others keep their order; or it is first or absent and nothing changes |
| `FifoQueue.FifoQueue.Length` | src/runtime/pool/fifo-queue.ts:11-13 | The number of values |
| `PoolLedger.Conserved` | src/runtime/pool/task-pool.ts:80-191 | Accepted tasks = queued + active + finished |
| `PoolLedger.DrainedMeansFinished` | src/runtime/pool/task-pool.ts:183-191 | The drain is resolved once, and only when every accepted task has finished |
| `PoolLedger.StoppingMakesProgress` | src/runtime/pool/task-pool.ts:107-119 | A stopping pool always has a task running, so its drain is not forgotten |
| `PoolLedger.Normalize` | src/runtime/pool/pool-support.ts:15-19 | At least one executor, the count asked for, zero meaning the machine's parallelism; exactly the negative counts and those that are not safe integers are refused |
| `PoolLedger.SettledPump` | src/runtime/pool/task-pool.ts:133-150 | A pool between two calls has nothing to start: one more pump changes nothing |
| `TaskPool.TaskPool.AddTask` | src/runtime/pool/task-pool.ts:80-105 | A task is refused, or accepted at the end of the schedule and then at most pumped; the pool is quiescent again |
| `TaskPool.TaskPool.Cancel` | src/runtime/pool/task-pool.ts:95-100 | A queued task becomes the next to start and the others keep their order, and nothing starts; tasks that never were cancelled while queued keep their submission order |
| `TaskPool.TaskPool.Pump` | src/runtime/pool/task-pool.ts:133-150 | Tasks start from the head until executors or tasks run out, never beyond the executors, and an idle stopping pool stops; nothing else changes |
| `TaskPool.TaskPool.Resize` | src/runtime/pool/task-pool.ts:58-66 | The executor count, and the queue is empty or every executor busy when the call returns; refused and stopping calls change nothing |
| `TaskPool.TaskPool.Start` | src/runtime/pool/task-pool.ts:68-78 | From the created state only |
| `TaskPool.TaskPool.Stop` | src/runtime/pool/task-pool.ts:107-119 | The pool stops at once or waits for its last task, and a second call changes nothing |
| `TaskPool.TaskPool.TaskFinished` | src/runtime/pool/task-pool.ts:172-181 | A finished task frees its executor, and at most the next of the schedule start |
| `TaskPool.TaskPool.FinishDrainIfIdle` | src/runtime/pool/task-pool.ts:183-191 | The drain resolves exactly when nothing is queued or active |
| `PriorityTaskPool.PriorityTaskPool.AddTask` | src/runtime/pool/priority-task-pool.ts:85-115 | A task is refused, or accepted with its priority, which is never changed; the other tasks keep theirs, and the queue stays ranked by them |
| `PriorityTaskPool.PriorityTaskPool.Cancel` | src/runtime/pool/priority-task-pool.ts:103-110 | A queued task, and no other, is ranked by the least priority from now on; nothing starts |
| `PriorityTaskPool.PriorityTaskPool.Pump` | src/runtime/pool/priority-task-pool.ts:147-164 | Tasks start in the order of their ranks until executors or tasks run out, never beyond the executors; every start is recorded with the tasks accepted and cancelled by then |
| `PriorityTaskPool.PriorityTaskPool.Resize` | src/runtime/pool/priority-task-pool.ts:63-71 | The normalized executor count, and the queue is empty or every executor busy when the call returns; refused and stopping calls change nothing |
| `PriorityTaskPool.PriorityTaskPool.Start` | src/runtime/pool/priority-task-pool.ts:73-83 | From the created state only, after which no executor idles while a task waits |
| `PriorityTaskPool.PriorityTaskPool.Stop` | src/runtime/pool/priority-task-pool.ts:117-129 | The pool stops at once or waits for its last task, and a second call changes nothing |
| `PriorityTaskPool.PriorityTaskPool.TaskFinished` | src/runtime/pool/priority-task-pool.ts:186-195 | A finished task frees its executor, which takes the least queued task; no task changes its rank |
| `PriorityTaskPool.PriorityTaskPool.FinishDrainIfIdle` | src/runtime/pool/priority-task-pool.ts:197-205 | The drain resolves exactly when nothing is queued or active |
| `TaskPool.TaskPool.StartedInOrder` | src/runtime/pool/task-pool.ts:133-150 | Tasks that were never cancelled while queued start in submission order |
| `PriorityTaskPool.PriorityTaskPool.StartedLeast` | src/runtime/pool/priority-task-pool.ts:147-164 | Every start took a task accepted and not started, and a least one of all those by the priorities they were submitted with (or the least priority, if cancelled while queued by then) and by submission, as long as every priority submitted by then was a number or that of the very first task |
| `DelayPool.SameOrder` | src/runtime/pool/delay-pool.ts:54-56 | The difference comparator orders times as a comparison does, infinite ones included |
| `DelayPool.EffectiveDelay` | src/runtime/pool/delay-pool.ts:92-94 | The delay asked for, cut to the time left to the context's deadline if that is less, and raised to zero if it is below |
| `DelayPool.DueFrom` | src/runtime/pool/delay-pool.ts:128-138 | A task is due from its time on, the moment itself included, and never if it waits forever |
| `DelayPool.DelayPool.WokenInTime` | src/runtime/pool/delay-pool.ts:118-142 | Every queued task that does not wait forever has a timer that goes off less than a millisecond after its time, or at once if its time was over |
| `DelayPool.DelayPool.NoTimerNoTask` | src/runtime/pool/delay-pool.ts:118-124 | With no timer armed every queued task waits forever |
| `DelayPool.DelayPool.Delay` | src/runtime/pool/delay-pool.ts:84-116 | Refused, dispatched at once, or queued at its time, with the timer armed for the earliest |
| `DelayPool.DelayPool.Arm` | src/runtime/pool/delay-pool.ts:118-142 | The armed time is the earliest queued one, and a timer runs to it if and only if that is finite: it goes off less than a millisecond after it, or at once if it was over, and before it only if it is further ahead than a timer can be |
| `DelayPool.DelayPool.Wake` | src/runtime/pool/delay-pool.ts:128-138 | Exactly the due tasks are dispatched, in the order of time and submission, and the rest stay |
| `DelayPool.DelayPool.Abort` | src/runtime/pool/delay-pool.ts:111-114 | A queued task is dispatched early only by its own abort |
| `DelayPool.DelayPool.Run` | src/runtime/pool/delay-pool.ts:144-148 | No task is dispatched twice, nor before its time unless aborted |
| `DelayPool.DelayPool.CompleteTask` | src/runtime/pool/delay-pool.ts:187-201 | A completed task leaves; the last one of a stopping pool resolves the drain, once |
| `DelayPool.DelayPool.Stop` | src/runtime/pool/delay-pool.ts:170-185 | The pool has stopped if and only if it holds no task |
| `RotatingMap.RotatingMap.Set` | src/runtime/store/rotating-map.ts:83-89 | As a plain map's, refusing a key that is there |
| `RotatingMap.RotatingMap.GetOrCreate` | src/runtime/store/rotating-map.ts:91-104 | As a plain map's |
| `RotatingMap.RotatingMap.Get` | src/runtime/store/rotating-map.ts:106-117 | As a plain map's |
| `RotatingMap.RotatingMap.Pop` | src/runtime/store/rotating-map.ts:119-132 | As a plain map's |
| `RotatingMap.RotatingMap.Size` | src/runtime/store/rotating-map.ts:75-81 | The sum over the shards is the size of the plain map |
| `RotatingMap.RotatingMap.Rotate` | src/runtime/store/rotating-map.ts:134-138 | Rotation at any moment changes no answer |
| `RotatingMap.RotatingMap.RotateShard` | src/runtime/store/rotating-map.ts:140-157 | A shard rotates exactly when it has shrunk enough, has the mark it should, and holds the same entries after; the other shards stay |
| `RotatingMap.RotatingMap.Locate` | src/runtime/store/rotating-map.ts:170-193 | A key has a stable shard; a new object gets an id, which moves no entry |
| `RotatingMap.RotatingMap.Combine` | src/runtime/store/rotating-map.ts:148-153 | The combining loop yields both generations' entries |
| `RotatingMap.RotatingMap.Start` | src/runtime/store/rotating-map.ts:51-61 | Once, and not after a stop |
| `RotatingMap.RotatingMap.Stop` | src/runtime/store/rotating-map.ts:63-73 | No timer runs once the map is stopped, from then on |
| `RotatingMap.RotatingMap.Tick` | src/runtime/store/rotating-map.ts:159-168 | Rotates and rearms unless stopped |
| `RotatingMap.TurnedWhen` | src/runtime/store/rotating-map.ts:140-157 | A shard turns its generations exactly if its high-water mark is new or it has shrunk to less than a quarter of that, and the mark or the size has come to the capacity; what the mark is then; and no entry comes or goes |
| `RotatingMap.AtHome` | src/runtime/store/rotating-map.ts:83-132 | A key is in the plain map if and only if it is in one generation of its own shard, with that value |
| `RotatingMap.Changed` | src/runtime/store/rotating-map.ts:83-132 | A change of one key in its own shard is that change of the plain map |
| `RotatingMap.IdGiven` | src/runtime/store/rotating-map.ts:178-190 | Giving an object an id moves no entry of any other key |
| `RotatingMap.HashString` | src/runtime/store/rotating-map.ts:195-202 | The hashing loop |
| `GrpcRequests.StepKeeps` | src/datasource/grpc/grpc-js.ts:386-873 | Every admission, result, callback end, retirement and end of a request keeps the invariant |
| `GrpcRequests.OneOwner` | src/datasource/grpc/grpc-js.ts:806-813 | A stream id has at most one owner from admission until its `endRequest` has settled, the one results go to |
| `GrpcRequests.TakenMeansOwned` | src/datasource/grpc/grpc-js.ts:805-866 | An id is taken if and only if it has such an owner |
| `GrpcRequests.ReleasedByOwner` | src/datasource/grpc/grpc-js.ts:853-866 | Only an owner whose `endRequest` settled gives an id back, and its own |
| `GrpcRequests.DuplicateIsHarmless` | src/datasource/grpc/grpc-js.ts:806-811 | A request turned away as a duplicate never touches the table or any other request |
| `GrpcRequests.NoCallbackDuringEnd` | src/datasource/grpc/grpc-js.ts:848-855 | While a result callback of a request runs its `endRequest` has not been called |
| `GrpcRequests.NoCallbackAfterEnd` | src/datasource/grpc/grpc-js.ts:423-445 | From the call of `endRequest` on no result callback of the request runs, ever |
| `GrpcRequests.CallbacksStartActive` | src/datasource/grpc/grpc-js.ts:537-569 | A callback starts only for an active request, the owner of the result's stream id, which registered it |
| `GrpcRequests.OnlyForward` | src/datasource/grpc/grpc-js.ts:805-873 | A request never goes back to an earlier phase, and is answered once |
| `GrpcReplies.Answered` | src/datasource/grpc/grpc-js.ts:795-873 | In every run, in terms of its events: a request that is done was answered with its response if and only if a response was sent before its `endRequest` settled, it was no duplicate, its body ended well (or only its wait failed and a response was there at the end of the retirement) and `endRequest` succeeded; with the lack of a response if all that holds but the sending; and with a failure otherwise |
| `GrpcReplies.Storied` | src/datasource/grpc/grpc-js.ts:795-873 | How every request of every run came to be what it is: its phase, its failure, its response and its answer, told from the events that concern it |
| `GrpcReplies.PhaseChanges` | src/datasource/grpc/grpc-js.ts:805-869 | What ends the phase of a request, and nothing else does |
| `GrpcReplies.RegistrationChanges` | src/datasource/grpc/grpc-js.ts:386-443 | A callback is registered until another takes its place, a run of it asks for its removal or the retirement ends; a retiring result registers none |
| `GrpcReplies.RunsChange` | src/datasource/grpc/grpc-js.ts:530-579 | A result starts one run of the callback that the active owner of its stream id has registered for its message, if there is one; and nothing else starts or ends a run but its own end |
| `GrpcEndpoint.RequestResult.EndCallback` | src/datasource/grpc/grpc-js.ts:428-434 | A retirement that waits goes on if and only if no callback is left running |
| `GrpcEndpoint.RequestResult.Retire` | src/datasource/grpc/grpc-js.ts:435-442 | Waits if and only if a callback is running, and none may begin from now on |
| `GrpcEndpoint.GrpcUnaryEndpointConsumer.Admit` | src/datasource/grpc/grpc-js.ts:805-814 | Ownership or rejection makes the machine's step, and the endpoint with its results keeps the invariant |
| `GrpcEndpoint.GrpcUnaryEndpointConsumer.Register` | src/datasource/grpc/grpc-js.ts:386-392 | The same of a callback registered for a message, which a retiring result ignores |
| `GrpcEndpoint.GrpcUnaryEndpointConsumer.Send` | src/datasource/grpc/grpc-js.ts:797-800 | The same of a response sent, which completes the result |
| `GrpcEndpoint.GrpcUnaryEndpointConsumer.BeginRetire` | src/datasource/grpc/grpc-js.ts:840-849 | The same of the begin of the retirement, after which no callback begins |
| `GrpcEndpoint.GrpcUnaryEndpointConsumer.Retired` | src/datasource/grpc/grpc-js.ts:848-851 | The same of its end, only with no callback running; a result completed in the end makes up for a failed wait |
| `GrpcEndpoint.GrpcUnaryEndpointConsumer.End` | src/datasource/grpc/grpc-js.ts:853-873 | The same of `endRequest` settled: the owner's entry goes, and the call is answered, with what `GrpcReplies.Answered` says |
| `GrpcEndpoint.GrpcUnaryEndpointConsumer.ConsumeResult` | src/datasource/grpc/grpc-js.ts:532-569 | The same of a result, which goes to the owner's callback, or nowhere |
| `GrpcEndpoint.GrpcUnaryEndpointConsumer.CallbackOver` | src/datasource/grpc/grpc-js.ts:558-579 | The same of a callback's end: removal and counting out |
| `Serde.RoundTrip` | src/runtime/serde/collection.ts:43-211 | For every nesting of the serdes, deserializing serialize(v) followed by any suffix gives v if and only if the data and every part are within their readers' total limits, and fails otherwise |
| `Serde.PrefixFree` | src/runtime/serde/collection.ts:43-211 | Data begins with the encoding of one value only, whether or not a reader's total limit lets it be read |
| `Serde.Unreadable` | src/runtime/serde/bytes.ts:13-27 | Serialization does not look at the total limit, so it can write what cannot be read |
| `Serde.WireTrip` | src/runtime/serde/scalar.ts:103-149 | Two's complement with or without the inverted sign bit reads back |
| `Serde.OrderPreserved` | src/runtime/serde/scalar.ts:103-149 | Unsigned integers, and signed ones of 16, 32 and 64 bits, compare bytewise in numeric order |
| `Serde.OrderOfPlainSigned` | src/runtime/serde/scalar.ts:91-101 | 8-bit integers and runes do so exactly between numbers of one sign |
| `Serde.OrderedKinds` | src/runtime/serde/scalar.ts:91-149 | Of the nine integer serdes exactly those of 8-bit integers and runes do not keep the numeric order |
| `Serde.KeepsOrderIff` | src/runtime/serde/scalar.ts:103-149 | A kind keeps the numeric order if and only if it inverts the sign bit exactly when it is signed |
| `Serde.PlainSignedOutOfOrder` | src/runtime/serde/scalar.ts:91-101 | One is stored before minus one |
| `Serde.MappingTrip` | src/runtime/serde/collection.ts:174-211 | A map reads back with its entries in order |
| `Serde.KeyValueTrip` | src/runtime/serde/stream.ts:49-65 | A pair reads back |
| `SerdeFraming.BytewiseIsNumeric` | src/runtime/serde/framing.ts:15-22 | Big-endian numbers of one width compare as their bytes do |
| `SerdeFraming.FromToBytes` | src/runtime/serde/framing.ts:15-22 | A big-endian number reads back |
| `SerdeFraming.AppendBytes` | src/runtime/serde/framing.ts:5-13 | The prefix, then the value |
| `SerdeFraming.SerdeReader.Read` | src/runtime/serde/framing.ts:40-54 | The next bytes, or a failure that leaves the place unchanged |
| `SerdeFraming.SerdeReader.ReadSize` | src/runtime/serde/framing.ts:56-68 | A size within its maximum and the safe integers |
| `SerdeLoops.Serialize` | src/runtime/serde/collection.ts:43-54 | What the serdes' `serialize` writes behind a prefix is the encoding |
| `SerdeLoops.SerializeFixed` | src/runtime/serde/collection.ts:43-54 | The loop over elements of one width |
| `SerdeLoops.SerializeFramed` | src/runtime/serde/collection.ts:82-91 | The loop over framed elements |
| `SerdeLoops.SerializeMap` | src/runtime/serde/collection.ts:174-190 | Keys, then values |
| `SerdeLoops.Deserialize` | src/runtime/serde/scalar.ts:29-32 | What the serdes' `deserialize` returns is the decoding |
| `SerdeLoops.DeserializeFixed` | src/runtime/serde/collection.ts:56-64 | The loop over elements of one width |
| `SerdeLoops.DeserializeFramed` | src/runtime/serde/collection.ts:93-102 | The loop over framed elements |
| `SerdeLoops.DeserializeMap` | src/runtime/serde/collection.ts:192-211 | The zip of keys and values, where a repeated number replaces |
| `SerdeLoops.DeserializePair` | src/runtime/serde/stream.ts:58-65 | Key, then value |
| `SerdeDomain.EncodesIff` | src/runtime/serde/collection.ts:43-190 | For every nesting of the serdes `serialize` succeeds if and only if the value is of the schema's kind, every number in its range, every container within its limits and every fixed element of its size; and then it writes exactly the value's size |
| `SerdeDomain.ReadsWithin` | src/runtime/serde/collection.ts:56-211 | Whatever the data, what `deserialize` returns is of the schema's kind and within the limits its readers were made with, and no number is twice a key of a map |
| `SerdeVectors.Int8Vectors` | test/serde.test.ts:48-53 | The wire format of 8-bit integers: 0xab unsigned, and minus one as ff |
| `SerdeVectors.Int16Vectors` | test/serde.test.ts:49-55 | Of 16-bit integers: big-endian, and signed ones with the sign bit inverted |
| `SerdeVectors.Int32Vectors` | test/serde.test.ts:50-60 | Of 32-bit integers and runes |
| `SerdeVectors.BytesVector` | test/serde.test.ts:97 | Bytes behind their length in eight bytes |
| `SerdeVectors.PackedVector` | test/serde.test.ts:163 | A packed array behind its count |
| `SerdeVectors.FramedVector` | test/serde.test.ts:188-191 | A framed array behind its count, each element behind its length |
| `SerdeVectors.PairVector` | test/serde.test.ts:147-152 | A pair as its framed key and its framed value |
| `SerdeVectors.MapVector` | test/serde.test.ts:198-208 | A map of one entry as its framed array of keys and its framed array of values, for every key and value |
| `IntervalCron.AlwaysRegular` | src/datasource/cron/croner.ts:206-236 | Over any early or late wake-ups the next point is the first of the grid ahead; dispatched points are strictly increasing points of the grid, none after its dispatch; dispatched + skipped = points gone by |
| `IntervalCron.NextIsAhead` | src/datasource/cron/croner.ts:220-226 | After a due wake-up the next point lies in (now, now + interval]; an early one changes nothing |
| `IntervalCron.WakeRegular` | src/datasource/cron/croner.ts:220-232 | One wake-up accounts for exactly the points that are due |
| `IntervalCron.WakeChooses` | src/datasource/cron/croner.ts:222-232 | A wake-up dispatches the one point chosen, at most, behind all others: a single due one, or of several the last under FireOnce and none otherwise |
| `IntervalCron.ChosenOnce` | src/datasource/cron/croner.ts:222-232 | At most one point meets these terms |
| `IntervalCron.DispatchedIff` | src/datasource/cron/croner.ts:220-232 | Over any wake-ups the points dispatched are exactly those that some wake-up takes |
| `IntervalCron.Interval.Fire` | src/datasource/cron/croner.ts:220-233 | The timer callback makes the step and returns the point chosen, none once stopped |
| `IntervalCron.Interval.Arm` | src/datasource/cron/croner.ts:216-219 | The timer waits for the first of the next point, the deadline and what a timer can hold, and not at all if that is over |

## Left out

- Assumptions of all protocols: a clock that does not run backwards, user callbacks that do not re-enter the object that calls them, contexts that never come back to life once expired.
- KafkaDelivery.NothingSkipped: assumes that a paused partition returns no records and that a fetch returns the records that follow the position; a commit that comes through after its handler returned does not count as an acknowledgement.
- ServiceTheorems.SinksAfterProducers: for connectors it needs a `stopAdmission`, which the type of managed connectors demands; one without it stops in the third step.
- Component stops are counted as called when they are entered in the pending map, one microtask before the source calls them.
- Waits of an attempt that gave up are dropped: its context has expired, so in the source they can only reject.
- Task registry of the service: the tasks' numbers and whether it admits; what tasks do, their results and the signal that cancels them are not modelled.
- Registration of components and its duplicate check.
- Executors' microtasks: a started task counts as active at once and finishes by an event.
- The join store's configuration and rotation timer: rotation is an event at any time, TTLs come with the event.
- Kafka: native calls, statistics, the text of errors, the set of pending commits (a restoration waits for them by an event); each lease has its own view of its partition's log, which grows by events.
- gRPC: streaming calls, tracing, metrics and the transport; `beginRequest` and the handlers are events.
- Serdes: booleans, strings (UTF-8), floats, JSON and protobuf; stub serdes; type errors of untyped callers are one failure with range and limit errors, and messages and offsets of errors are not modelled.
- Rotating map: the checks of its constructor's arguments, and a factory that touches the map.
- Cron: calendar expressions, the overlap policy and the dispatch itself.
- Metrics, tracing and logging, except the gauge and the eviction count of the join store.
- Configuration, graph operators, caller wrappers, the other endpoints and the workflow pools, which repeat the protocols modelled here.
