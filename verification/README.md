# Worker-side task engine of golang-orchestrator, in Dafny

This project models the part of the orchestrator that runs on a worker:

- **Task state machine** (`TaskState`, state.dfy). There are five lifecycle states, `Pending`, `Scheduled`, `Running`, `Completed` and `Failed`. Each has a name, and names parse back to states. A fixed table says which state may follow which. `State` is an integer, as in the Go code, so values outside the five (such as `-1`) exist and print as `"Unknown"`.
- **Intake queue** (`Queues`, queue.dfy). An unbounded FIFO built from heap nodes, with `start`, `end` and `length` fields that are updated in place. A ghost `nodes` sequence and a `Repr` set describe the list. `Valid()` says that the list from `start` visits those nodes exactly once and ends at `end`, then at null.
- **Task record** (`Tasks`, task.dfy). `Task` and `Runtime` as values. The task id is an opaque UUID. Time is an integer, and 0 is Go's zero time.
- **Run options** (`Service`, service.dfy). Resource limits, the four restart-policy strings, and the defaults. `GetNanoCPUs` checks only whether the CPU value is nil. The `With*` functional options each write one field of `RunOptions`.
- **Container backend** (`Docker`, docker.dfy). `NewConfig` applies its options in order. `Run` is the pull, create, start and attach-logs sequence, and `Stop` is stop then remove. Both return early at the first client call that fails. The engine client is a `Daemon` value whose calls answer with an outcome, and opening the client is a `Result` passed in.
- **Worker** (`Workers`, worker.dfy). A class holding the queue and the record store (`db`). Its `RunTask` dequeues one request, looks up or creates the stored record, validates the transition, dispatches to `StartTask` or `StopTask`, and commits through `UpdateTaskState`. Each method is proved against a pure function: `RunTaskOutcome`, `StartOutcome`, `StopOutcome` or `UpdatedTask`. The lemmas about the worker are stated over those functions.

Behaviour of the code that the model keeps on purpose, because the code does it:

- A task seen for the first time is stored before validation (worker/worker.go:55-61), so its state is checked against itself. Only `Scheduled` and `Running` pass. A rejected first request still leaves its record in the store (`FirstSighting`).
- Both guards look at the queued copy, not at the stored record (worker/worker.go:76,99). On the start path the copy is always `Scheduled`, so "already started" can never come out of `RunTask` (`AlreadyStartedUnreachable`). A bare `Completed` request for a running task is answered "not started" (`StopGuardReadsQueuedCopy`).
- `stopTask` reads `t.Runtime.ContainerID` even when the guard let through a task with a nil `Runtime` and a non-zero start time (worker/worker.go:99-110). The model returns `NilRuntimePanic` there, and `NilRuntimePanicExactly` says exactly when that happens.
- `updateTaskState` writes the finish instant into `StartTime` and never writes `FinishTime` (worker/worker.go:121-130). The intended design is different: the start time is set only when a task starts, the finish time when it stops, and a failure sets both. The model follows the code. `StartPathCommit`, `StopPathCommit` and `ScheduleThenComplete` show what the code does instead: every commit sets the start time to the current time and keeps the queued copy's finish time.
- A failed `Run` or `Stop` returns an empty `ContainerID`. The failure commit stores `Runtime{""}`, so a failed stop forgets the container id.
- `AddTask` enqueues a `*task.Task` (worker/worker.go:43), but `RunTask` asserts the dequeued value to `task.Task` (worker/worker.go:53). In Go that assertion would fail for every task added through `AddTask`. Here the queue is typed over `Task`, so the model covers the behaviour the dispatch code is written for.

## Model

| member | source | states |
|---|---|---|
| TaskState.String | task/state/state.go:22-37 | each of the five states prints as its entry in the name table; every other value prints as "Unknown" |
| TaskState.Parse | task/state/state.go:39-54 | parsing succeeds exactly on the five names and returns the state with that name; anything else gives (-1, unknown-state error) |
| TaskState.ParseString | task/state/state.go:22-54 | Parse(String(s)) == (s, no error) for every defined state |
| TaskState.StringParse | task/state/state.go:22-54 | String inverts every successful Parse |
| TaskState.ParseRejectsOtherNames | task/state/state.go:51-52 | any string other than the five names, "Unknown" included, gives (-1, unknown-state error) |
| TaskState.TransitionTableIsEdges | task/state/state.go:56-66 | ValidStateTransition(src, dst) holds iff (src, dst) is one of the seven edges Pending→Scheduled, Scheduled→{Scheduled, Running, Failed}, Running→{Running, Completed, Failed} |
| TaskState.TerminalStates | task/state/state.go:60-61 | Completed and Failed have no successor, not even themselves |
| TaskState.UndefinedSourceIsStuck | task/state/state.go:64-66 | a source value outside the five states has no valid successor (a missing key reads as the empty row) |
| TaskState.ValidStateTransition | task/state/state.go:56-66 | a transition is valid only when the destination is in the source's table row, so both ends of every valid transition are defined states |
| TaskState.SelfTransitions | task/state/state.go:57-61 | among the five states, exactly Scheduled and Running may transition to themselves |
| Queues.Queue.EmptyIffNil | pkg/queue/queue.go:4-7 | in a valid queue, length 0 iff start is nil iff end is nil, and length is the number of queued values |
| Queues.Queue.constructor | pkg/queue/queue.go:14-16 | a new queue is valid and empty, with nil start and end and length 0 |
| Queues.Queue.Dequeue | pkg/queue/queue.go:18-31 | on an empty queue it returns nil and changes nothing; otherwise it returns the head and removes only the head; from length 1 both pointers become nil |
| Queues.Queue.Enqueue | pkg/queue/queue.go:33-43 | appends the value at the tail and keeps earlier values in order (so the length grows by one); the footprint grows by exactly one freshly allocated node, which becomes the tail |
| Queues.Queue.Len | pkg/queue/queue.go:45-47 | returns the number of queued values without changing the queue |
| Queues.Queue.Peek | pkg/queue/queue.go:49-54 | returns the head, or nil when empty, without changing the queue |
| Queues.EnqueueThenDequeueAll | pkg/queue/queue.go:18-43 | FIFO: enqueuing v1..vn into a new queue and dequeuing n times yields v1..vn |
| Service.RestartPoliciesDistinct | task/service/service.go:21-28 | the four restart modes are four distinct strings |
| Service.Defaults | task/service/service.go:12-19 | the default policy is "no"; the default limitation has CPU present, memory 25 and disk 0 |
| Service.GetNanoCPUs | task/service/service.go:36-41 | an error exactly when CPU is nil, and then the quota 0; otherwise the quota derived from the CPU value and no error |
| Service.Apply | task/service/service.go:55-91 | each option makes its own field carry its argument (title and restart policy become present) and leaves every other field unchanged |
| Service.ApplyIdempotent | task/service/service.go:57-91 | applying the same option twice equals applying it once |
| Service.ApplyCommutes | task/service/service.go:57-91 | options that write different fields give the same result in either order |
| Docker.ConfigOf | task/service/docker/docker.go:29-42 | with no task the config is the zero Config; with a task it copies Title, Image, Cpu, Memory, Disk and RestartPolicy and leaves everything else zero |
| Docker.LastOptionWins | task/service/docker/docker.go:24-27 | applying options in order leaves the task of the last option, or the initial options when there are none |
| Docker.NewConfig | task/service/docker/docker.go:23-43 | the options loop gives the zero Config when there is no option or the last one carries a nil task, and otherwise copies the last option's task |
| Docker.NewDocker | task/service/docker/docker.go:73-84 | a client that cannot be opened gives its error; otherwise the client carries the given config |
| Docker.Run | task/service/docker/docker.go:98-153 | no error iff pull, create, start and logs all succeed, and then ContainerID is the created id, Action "start", Result "success"; on error ContainerID, Action and Result are empty and the error comes from the engine |
| Docker.RunStopsAfterPullFailure | task/service/docker/docker.go:99-103 | a failed pull returns its error, and the create, start and logs calls do not affect the result |
| Docker.RunStopsAfterCreateFailure | task/service/docker/docker.go:125-129 | a failed create returns its error, and the start and logs calls do not affect the result |
| Docker.RunStopsAfterStartFailure | task/service/docker/docker.go:131-135 | a failed start returns its error, and the logs call does not affect the result |
| Docker.RunStopsAfterLogsFailure | task/service/docker/docker.go:137-144 | when pull, create and start succeed but the log attach fails, Run returns the log call's own error |
| Docker.RunIgnoresStopAndRemove | task/service/docker/docker.go:98-153 | Run does not depend on the stop and remove calls |
| Docker.Stop | task/service/docker/docker.go:155-173 | no error iff stop and remove both succeed, and then ContainerID is the argument, Action "stop", Result "success"; a stop failure returns its error, and a remove failure after a successful stop is still returned |
| Docker.StopSkipsRemoveAfterStopFailure | task/service/docker/docker.go:156-160 | after a failed stop, the remove call does not affect the result |
| Workers.UpdatedTask | worker/worker.go:121-130 | the new state and Runtime{containerID} are set; StartTime becomes finishedAt if given, else startedAt, else now; FinishTime and every other field are kept |
| Workers.Recorded | worker/worker.go:55-59 | an existing record is kept as it is; an unseen id gets the queued copy as its record; either way the id is then in the store |
| Workers.StartOutcome | worker/worker.go:75-96 | startTask writes at most the request's own record; success commits Running with the created container id; an error commits nothing or Failed with an empty container id |
| Workers.StopOutcome | worker/worker.go:98-119 | stopTask writes at most the request's own record; the crash happens only on a nil Runtime and commits nothing; success commits Completed with the copy's Runtime; an error commits nothing or Failed with an empty container id |
| Workers.RunTaskOutcome | worker/worker.go:46-73 | after a step the request's id is in the store; the step reports an invalid transition exactly when the stored state cannot reach the requested one; anything committed beyond the lookup comes from a valid Scheduled or Completed request |
| Workers.FirstSighting | worker/worker.go:55-63 | an unseen id is stored before validation; the step answers "invalid transition" iff the requested state is neither Scheduled nor Running, and the only change is then the new record |
| Workers.InvalidTransitionRejected | worker/worker.go:61-63 | a request the stored state cannot reach returns the invalid-transition error with the store unchanged, whatever the engine would do |
| Workers.UnsupportedRequestedState | worker/worker.go:65-72 | a valid request for a state other than Scheduled or Completed (so Running or Failed) returns "unsupported task state" and commits nothing |
| Workers.StartGuard | worker/worker.go:76-78 | a copy with a Runtime, a non-zero start time and state Running is rejected as already started, with no engine call and no commit |
| Workers.StopGuard | worker/worker.go:99-101 | a copy with no Runtime, a zero start time and a state other than Running is rejected as not started, with no engine call and no commit |
| Workers.AlreadyStartedUnreachable | worker/worker.go:65-78 | no RunTask step ever returns the already-started error |
| Workers.StopGuardReadsQueuedCopy | worker/worker.go:98-101 | a bare Completed request for a running task is answered "not started" and commits nothing, whatever the stored record holds |
| Workers.NilRuntimePanicExactly | worker/worker.go:98-110 | the step crashes on the nil Runtime exactly when a Completed request for a stored Running task has no Runtime, a non-zero start time and the client opens |
| Workers.SetupFailureCommitsNothing | worker/worker.go:75-107 | when the client cannot be opened, the step returns an error and the store is as after the lookup |
| Workers.SetupFailureReturnsConnectError | worker/worker.go:75-107 | a request that passes validation and the guard, when the client cannot be opened, returns exactly the client-open error and commits nothing |
| Workers.OnlyOwnKeyWritten | worker/worker.go:121-131 | a step adds, removes or changes no key other than the request's id |
| Workers.ClientConfigFromTask | worker/worker.go:134-141 | the engine is given a config copied from the queued task |
| Workers.StartPathCommit | worker/worker.go:75-96 | a valid Scheduled request returns Run's result and commits only its own record: Running with the created container, or Failed with an empty container id; the start time becomes now and the finish time is unchanged |
| Workers.StopPathCommit | worker/worker.go:98-119 | a Completed request for a running task with a Runtime returns Stop's result and commits only its own record: Completed with the same container id, or Failed with an empty one; the start time becomes now and the finish time is unchanged |
| Workers.Worker.constructor | worker/worker.go:36-40 | a new worker has an empty queue and an empty store |
| Workers.Worker.AddTask | worker/worker.go:42-44 | appends the task to the queue and leaves the store unchanged |
| Workers.Worker.RunTask | worker/worker.go:46-73 | with an empty queue it returns the empty result and changes nothing; otherwise it removes the head and its result and store are those of RunTaskOutcome on the head |
| Workers.Worker.StartTask | worker/worker.go:75-96 | result and store are those of StartOutcome |
| Workers.Worker.StopTask | worker/worker.go:98-119 | outcome and store are those of StopOutcome |
| Workers.Worker.UpdateTaskState | worker/worker.go:121-132 | writes UpdatedTask of the copy at the copy's id and nowhere else |
| Workers.SetupDockerClientFromTask | worker/worker.go:134-141 | opens a client whose config is copied from the task |
| Workers.ScheduleThenComplete | worker/worker.go:46-132 | Scheduled then Completed through one worker on an engine where every call succeeds: first Running with the created container and start time = first instant, then Completed with start time = second instant and the original finish time |

## Left out

- Docker client calls (`ImagePull`, `ContainerCreate`, `ContainerStart`, `ContainerLogs`, `ContainerStop`, `ContainerRemove`, `client.NewClientWithOpts`) do network I/O against a daemon. Each is a call of the `Daemon` value that answers success or an error message, and opening the client is a `Result` passed in.
- The translation of `Config` into the engine's container and host configurations (docker.go:107-123) is not modelled: container-create receives the `Config` itself.
- Output forwarding with `io.Copy` and `stdcopy.StdCopy` is I/O, and its errors are ignored by the code.
- Floating point: CPU shares are opaque bit patterns. The conversion `int64(cpu * 10^9)` in `GetNanoCPUs` (service.go:40) is kept as the symbolic term `Scaled(cpu)`. The same conversion at docker.go:120 is part of the host-config translation, which is not modelled (see above).
- `time.Now()` is the `now` parameter. The second clock reading inside `updateTaskState` is given the same value. It is always overwritten on every path the worker takes.
- `context.Context` cancellation and zerolog logging are left out. UUID generation is left out too: ids are opaque.
- Go's `int` is treated as unbounded. The queue length and the task's memory and disk cannot reach 2^63 in practice.
- Pointer aliasing: `*task.Task`, `*ResourceLimitation`, `*time.Time` and the `*RunOptions` receiver of the option closures are modelled as values. Each `With*` closure is a `RunOption` value, and `Apply` is the closure's effect on the record. This is an update of the one field in place, and nothing else can observe it.
- The worker's `Title` and `TaskCount` fields, `CollectStats` and `NewWorker`'s `Worker` interface hold no behaviour. The `CRI` interface has no implementation in the code.
- task/docker.go, an older copy of the Docker wrapper that the worker does not use, is not part of this model. The same holds for manager/manager.go (empty methods), pkg/types/types.go (address-of helpers) and `TaskEvent`.
- Concurrency: the code has no locking and the model is a single-threaded worker.
