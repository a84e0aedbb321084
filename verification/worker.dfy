/** The worker: an intake queue of task requests and an in-memory record
    store, and the dispatch step that dequeues one request, validates it
    against the stored record, starts or stops its container and commits
    the outcome. The container engine is reached only through the
    connection outcome and the `Daemon` calls handed to each step. */
module Workers {
  import opened Common
  import opened TaskState
  import opened Tasks
  import opened Docker
  import opened Queues

  type Db = map<TaskId, Task>

  /** What one dispatch step does: return a result, or crash on the nil
      `Runtime` dereference in the stop path. */
  datatype Outcome = Returned(result: DockerResult) | NilRuntimePanic

  /** `updateTaskState` on a copy of `t`: the start time is first set to the
      current time, then overwritten by `startedAt` and then by `finishedAt`
      when given; the finish time is never written. */
  function UpdatedTask(t: Task, s: State, containerID: string,
                       startedAt: Option<Time>, finishedAt: Option<Time>, now: Time): (u: Task)
    ensures u.state == s && u.runtime == Some(Runtime(containerID))
    ensures u.startTime == if finishedAt.Some? then finishedAt.value
                           else if startedAt.Some? then startedAt.value
                           else now
    ensures u.finishTime == t.finishTime
    ensures u == t.(state := s, runtime := u.runtime, startTime := u.startTime)
  {
    var stamped := t.(state := s, startTime := now, runtime := Some(Runtime(containerID)));
    var started := if startedAt.Some? then stamped.(startTime := startedAt.value) else stamped;
    if finishedAt.Some? then started.(startTime := finishedAt.value) else started
  }

  /** `setupDockerClientFromTask`: a config built with the single option
      `FromTask(&t)`, then a client opened from the environment. */
  function ClientFor(t: Task, connect: Result<Daemon, string>): Result<DockerClient, Error> {
    NewDocker(ConfigFromOptions([FromTask(Some(t))]), connect)
  }

  /** `startTask` on the queued copy `t`: the result and the new store. */
  function StartOutcome(db: Db, t: Task, connect: Result<Daemon, string>, now: Time): (r: (DockerResult, Db))
    ensures r.1 == db || (t.id in r.1 && r.1 == db[t.id := r.1[t.id]])
    ensures r.0.error.None? ==>
      t.id in r.1 && r.1[t.id].state == Running && r.1[t.id].runtime == Some(Runtime(r.0.containerID))
    ensures r.0.error.Some? ==>
      r.1 == db || (t.id in r.1 && r.1[t.id].state == Failed && r.1[t.id].runtime == Some(Runtime("")))
  {
    if t.runtime.Some? && t.startTime != ZeroTime && t.state == Running then
      (ErrorResult(TaskContainerAlreadyStarted), db)
    else match ClientFor(t, connect)
      case Err(e) => (ErrorResult(e), db)
      case Ok(d) =>
        var res := Run(d);
        if res.error.Some? then
          (res, db[t.id := UpdatedTask(t, Failed, res.containerID, Some(now), Some(now), now)])
        else
          (res, db[t.id := UpdatedTask(t, Running, res.containerID, Some(now), None, now)])
  }

  /** `stopTask` on the queued copy `t`: the outcome and the new store. */
  function StopOutcome(db: Db, t: Task, connect: Result<Daemon, string>, now: Time): (r: (Outcome, Db))
    ensures r.1 == db || (t.id in r.1 && r.1 == db[t.id := r.1[t.id]])
    ensures r.0.NilRuntimePanic? ==> t.runtime.None? && r.1 == db
    ensures r.0.Returned? && r.0.result.error.None? ==>
      t.id in r.1 && r.1[t.id].state == Completed && r.1[t.id].runtime == t.runtime
    ensures r.0.Returned? && r.0.result.error.Some? ==>
      r.1 == db || (t.id in r.1 && r.1[t.id].state == Failed && r.1[t.id].runtime == Some(Runtime("")))
  {
    if t.runtime.None? && t.startTime == ZeroTime && t.state != Running then
      (Returned(ErrorResult(TaskContainerNotStarted)), db)
    else match ClientFor(t, connect)
      case Err(e) => (Returned(ErrorResult(e)), db)
      case Ok(d) =>
        if t.runtime.None? then (NilRuntimePanic, db)
        else
          var res := Stop(d, t.runtime.value.containerID);
          if res.error.Some? then
            (Returned(res), db[t.id := UpdatedTask(t, Failed, res.containerID, Some(now), Some(now), now)])
          else
            (Returned(res), db[t.id := UpdatedTask(t, Completed, res.containerID, None, Some(now), now)])
  }

  /** The store after the lookup: an unseen request becomes its own record. */
  function Recorded(db: Db, t: Task): (r: Db)
    ensures t.id in r
    ensures t.id in db ==> r == db
    ensures t.id !in db ==> r == db[t.id := t]
  {
    if t.id in db then db else db[t.id := t]
  }

  /** One `RunTask` step on the dequeued request `t`. */
  function RunTaskOutcome(db: Db, t: Task, connect: Result<Daemon, string>, now: Time): (r: (Outcome, Db))
    ensures t.id in r.1
    ensures r.0 == Returned(ErrorResult(TaskInvalidStateTransition)) <==>
            !ValidStateTransition(Recorded(db, t)[t.id].state, t.state)
    ensures r.1 != Recorded(db, t) ==>
            ValidStateTransition(Recorded(db, t)[t.id].state, t.state) && (t.state == Scheduled || t.state == Completed)
  {
    var recorded := Recorded(db, t);
    if !ValidStateTransition(recorded[t.id].state, t.state) then
      (Returned(ErrorResult(TaskInvalidStateTransition)), recorded)
    else if t.state == Scheduled then
      var (res, committed) := StartOutcome(recorded, t, connect, now);
      (Returned(res), committed)
    else if t.state == Completed then
      StopOutcome(recorded, t, connect, now)
    else
      (Returned(ErrorResult(UnsupportedTaskState)), recorded)
  }

  /** First sighting: the request is stored before validation, so its state
      is checked against itself and only Scheduled or Running get through;
      a rejected first sighting still leaves the new record behind. */
  lemma FirstSighting(db: Db, t: Task, connect: Result<Daemon, string>, now: Time)
    requires t.id !in db
    ensures t.id in RunTaskOutcome(db, t, connect, now).1
    ensures RunTaskOutcome(db, t, connect, now).0 == Returned(ErrorResult(TaskInvalidStateTransition))
            <==> !(t.state == Scheduled || t.state == Running)
    ensures !(t.state == Scheduled || t.state == Running) ==> RunTaskOutcome(db, t, connect, now).1 == db[t.id := t]
  {
  }

  /** A request the stored state cannot reach is rejected without touching
      the engine or the store. */
  lemma InvalidTransitionRejected(db: Db, t: Task, connect: Result<Daemon, string>, now: Time)
    requires t.id in db && !ValidStateTransition(db[t.id].state, t.state)
    ensures RunTaskOutcome(db, t, connect, now) == (Returned(ErrorResult(TaskInvalidStateTransition)), db)
  {
  }

  /** Only Scheduled and Completed requests are dispatched; a valid request
      for any other state (Running or Failed) is refused with nothing committed. */
  lemma UnsupportedRequestedState(db: Db, t: Task, connect: Result<Daemon, string>, now: Time)
    requires ValidStateTransition(Recorded(db, t)[t.id].state, t.state)
    requires t.state != Scheduled && t.state != Completed
    ensures t.state == Running || t.state == Failed
    ensures RunTaskOutcome(db, t, connect, now) == (Returned(ErrorResult(UnsupportedTaskState)), Recorded(db, t))
  {
  }

  /** The start guard rejects a started task without any engine call. */
  lemma StartGuard(db: Db, t: Task, connect: Result<Daemon, string>, now: Time)
    requires t.runtime.Some? && t.startTime != ZeroTime && t.state == Running
    ensures StartOutcome(db, t, connect, now) == (ErrorResult(TaskContainerAlreadyStarted), db)
  {
  }

  /** The stop guard rejects a never-started task without any engine call. */
  lemma StopGuard(db: Db, t: Task, connect: Result<Daemon, string>, now: Time)
    requires t.runtime.None? && t.startTime == ZeroTime && t.state != Running
    ensures StopOutcome(db, t, connect, now) == (Returned(ErrorResult(TaskContainerNotStarted)), db)
  {
  }

  /** The start guard looks at the queued copy, whose state is always
      Scheduled on the start path, so `RunTask` never reports "already started". */
  lemma AlreadyStartedUnreachable(db: Db, t: Task, connect: Result<Daemon, string>, now: Time)
    ensures RunTaskOutcome(db, t, connect, now).0 != Returned(ErrorResult(TaskContainerAlreadyStarted))
  {
  }

  /** The stop guard also looks at the queued copy: a bare Completed request
      for a running task is "not started", whatever the stored record says. */
  lemma StopGuardReadsQueuedCopy(db: Db, t: Task, connect: Result<Daemon, string>, now: Time)
    requires t.id in db && db[t.id].state == Running
    requires t.state == Completed && t.runtime.None? && t.startTime == ZeroTime
    ensures RunTaskOutcome(db, t, connect, now) == (Returned(ErrorResult(TaskContainerNotStarted)), db)
  {
  }

  /** `RunTask` crashes exactly when a Completed request for a running task
      has no `Runtime` but a non-zero start time and the client opens. */
  lemma NilRuntimePanicExactly(db: Db, t: Task, connect: Result<Daemon, string>, now: Time)
    ensures RunTaskOutcome(db, t, connect, now).0 == NilRuntimePanic <==>
      && t.id in db && db[t.id].state == Running
      && t.state == Completed && t.runtime.None? && t.startTime != ZeroTime
      && connect.Ok?
  {
  }

  /** A client that cannot be opened commits nothing and returns an error. */
  lemma SetupFailureCommitsNothing(db: Db, t: Task, connect: Result<Daemon, string>, now: Time)
    requires connect.Err?
    ensures RunTaskOutcome(db, t, connect, now).1 == Recorded(db, t)
    ensures RunTaskOutcome(db, t, connect, now).0.Returned?
    ensures RunTaskOutcome(db, t, connect, now).0.result.error.Some?
  {
  }

  /** A client that cannot be opened: a request that passes validation and
      the guard gets the client-open error itself, wrapped as an engine error. */
  lemma SetupFailureReturnsConnectError(db: Db, t: Task, connect: Result<Daemon, string>, now: Time)
    requires connect.Err?
    requires ValidStateTransition(Recorded(db, t)[t.id].state, t.state)
    requires t.state == Scheduled || (t.state == Completed && !(t.runtime.None? && t.startTime == ZeroTime))
    ensures RunTaskOutcome(db, t, connect, now) == (Returned(ErrorResult(Engine(connect.error))), Recorded(db, t))
  {
  }

  /** Every step writes at most the request's own key. */
  lemma OnlyOwnKeyWritten(db: Db, t: Task, connect: Result<Daemon, string>, now: Time, k: TaskId)
    requires k != t.id
    ensures k in RunTaskOutcome(db, t, connect, now).1 <==> k in db
    ensures k in db ==> RunTaskOutcome(db, t, connect, now).1[k] == db[k]
    ensures t.id in RunTaskOutcome(db, t, connect, now).1
  {
  }

  /** The engine is driven with a config copied from the queued task. */
  lemma ClientConfigFromTask(t: Task, connect: Result<Daemon, string>)
    requires connect.Ok?
    ensures ClientFor(t, connect).Ok?
    ensures CopiesTask(ClientFor(t, connect).value.config, t)
  {
    LastOptionWins(NoOptions, [FromTask(Some(t))]);
  }

  /** Start path: the engine's outcome is returned and committed as Running
      with the new container, or as Failed with an empty container id; the
      start time becomes `now` and the finish time is left as it was. */
  lemma StartPathCommit(db: Db, t: Task, connect: Result<Daemon, string>, now: Time)
    requires t.state == Scheduled && ValidStateTransition(Recorded(db, t)[t.id].state, Scheduled)
    requires connect.Ok?
    ensures ClientFor(t, connect).Ok?
    ensures var d := ClientFor(t, connect).value;
            var (out, committed) := RunTaskOutcome(db, t, connect, now);
            && out == Returned(Run(d))
            && committed == Recorded(db, t)[t.id := committed[t.id]]
            && committed[t.id] == t.(state := if RunSucceeds(d) then Running else Failed,
                                     runtime := Some(Runtime(if RunSucceeds(d) then d.client.containerCreate(d.config).value else "")),
                                     startTime := now)
  {
  }

  /** Stop path with a recorded container: the engine's outcome is returned
      and committed as Completed, or as Failed with an empty container id;
      either way the start time is overwritten with `now` and the finish
      time is left as it was. */
  lemma StopPathCommit(db: Db, t: Task, connect: Result<Daemon, string>, now: Time)
    requires t.id in db && db[t.id].state == Running && t.state == Completed
    requires t.runtime.Some? && connect.Ok?
    ensures ClientFor(t, connect).Ok?
    ensures var d := ClientFor(t, connect).value;
            var id := t.runtime.value.containerID;
            var ok := d.client.containerStop(id).None? && d.client.containerRemove(id).None?;
            var (out, committed) := RunTaskOutcome(db, t, connect, now);
            && out == Returned(Stop(d, id))
            && committed == db[t.id := committed[t.id]]
            && committed[t.id] == t.(state := if ok then Completed else Failed,
                                     runtime := Some(Runtime(if ok then id else "")),
                                     startTime := now)
  {
  }

  class Worker {
    const queue: Queue<Task>
    var db: Db
    ghost var Repr: set<object>

    ghost predicate Valid()
      reads this, Repr
      ensures Valid() ==> this in Repr
    {
      && this in Repr
      && queue in Repr && queue.Repr <= Repr && this !in queue.Repr
      && queue.Valid()
    }

    constructor ()
      ensures Valid() && fresh(Repr)
      ensures queue.Contents == [] && db == map[]
    {
      queue := new Queue<Task>();
      db := map[];
      new;
      Repr := {this} + queue.Repr;
    }

    method AddTask(t: Task)
      requires Valid()
      modifies Repr
      ensures Valid() && fresh(Repr - old(Repr))
      ensures queue.Contents == old(queue.Contents) + [t] && db == old(db)
    {
      queue.Enqueue(t);
      Repr := Repr + queue.Repr;
    }

    method RunTask(connect: Result<Daemon, string>, now: Time) returns (out: Outcome)
      requires Valid()
      modifies Repr
      ensures Valid() && Repr == old(Repr)
      ensures old(queue.Contents) == [] ==> out == Returned(EmptyResult) && db == old(db) && queue.Contents == []
      ensures old(queue.Contents) != [] ==>
        && queue.Contents == old(queue.Contents)[1..]
        && (out, db) == RunTaskOutcome(old(db), old(queue.Contents)[0], connect, now)
    {
      var head := queue.Dequeue();
      if head.None? {
        return Returned(EmptyResult);
      }
      var t := head.value;
      if t.id !in db {
        db := db[t.id := t];
      }
      var persisted := db[t.id];
      if !ValidStateTransition(persisted.state, t.state) {
        return Returned(ErrorResult(TaskInvalidStateTransition));
      }
      if t.state == Scheduled {
        var res := StartTask(t, connect, now);
        out := Returned(res);
      } else if t.state == Completed {
        out := StopTask(t, connect, now);
      } else {
        out := Returned(ErrorResult(UnsupportedTaskState));
      }
    }

    method StartTask(t: Task, connect: Result<Daemon, string>, now: Time) returns (res: DockerResult)
      modifies this`db
      ensures (res, db) == StartOutcome(old(db), t, connect, now)
    {
      if t.runtime.Some? && t.startTime != ZeroTime && t.state == Running {
        return ErrorResult(TaskContainerAlreadyStarted);
      }
      var client := SetupDockerClientFromTask(t, connect);
      if client.Err? {
        return ErrorResult(client.error);
      }
      res := Run(client.value);
      if res.error.Some? {
        UpdateTaskState(t, Failed, res.containerID, Some(now), Some(now), now);
        return;
      }
      UpdateTaskState(t, Running, res.containerID, Some(now), None, now);
    }

    method StopTask(t: Task, connect: Result<Daemon, string>, now: Time) returns (out: Outcome)
      modifies this`db
      ensures (out, db) == StopOutcome(old(db), t, connect, now)
    {
      if t.runtime.None? && t.startTime == ZeroTime && t.state != Running {
        return Returned(ErrorResult(TaskContainerNotStarted));
      }
      var client := SetupDockerClientFromTask(t, connect);
      if client.Err? {
        return Returned(ErrorResult(client.error));
      }
      if t.runtime.None? {
        return NilRuntimePanic;
      }
      var res := Stop(client.value, t.runtime.value.containerID);
      if res.error.Some? {
        UpdateTaskState(t, Failed, res.containerID, Some(now), Some(now), now);
        return Returned(res);
      }
      UpdateTaskState(t, Completed, res.containerID, None, Some(now), now);
      out := Returned(res);
    }

    method UpdateTaskState(t: Task, s: State, containerID: string,
                           startedAt: Option<Time>, finishedAt: Option<Time>, now: Time)
      modifies this`db
      ensures db == old(db)[t.id := UpdatedTask(t, s, containerID, startedAt, finishedAt, now)]
    {
      var u := t;
      u := u.(state := s);
      u := u.(startTime := now);
      u := u.(runtime := Some(Runtime(containerID)));
      if startedAt.Some? {
        u := u.(startTime := startedAt.value);
      }
      if finishedAt.Some? {
        u := u.(startTime := finishedAt.value);
      }
      db := db[u.id := u];
    }
  }

  method SetupDockerClientFromTask(t: Task, connect: Result<Daemon, string>) returns (client: Result<DockerClient, Error>)
    ensures client == ClientFor(t, connect)
    ensures client.Ok? ==> CopiesTask(client.value.config, t)
  {
    var config := NewConfig([FromTask(Some(t))]);
    client := NewDocker(config, connect);
  }

  /** A task scheduled and then completed through the worker, with an engine
      on which every call succeeds: the record is Running with the new
      container after the first step, and Completed after the second, with
      the start time moved to the stop instant and the finish time untouched. */
  method ScheduleThenComplete(a: Task, daemon: Daemon, startedAt: Time, stoppedAt: Time)
    returns (first: Task, second: Task)
    requires a.state == Scheduled
    requires RunSucceeds(DockerClient(daemon, ConfigFromOptions([FromTask(Some(a))])))
    requires var id := daemon.containerCreate(ConfigFromOptions([FromTask(Some(a))])).value;
             daemon.containerStop(id).None? && daemon.containerRemove(id).None?
    ensures var id := daemon.containerCreate(ConfigFromOptions([FromTask(Some(a))])).value;
            first == a.(state := Running, runtime := Some(Runtime(id)), startTime := startedAt)
    ensures second == first.(state := Completed, startTime := stoppedAt)
    ensures second.finishTime == a.finishTime
  {
    var w := new Worker();
    w.AddTask(a);
    var out := w.RunTask(Ok(daemon), startedAt);
    first := w.db[a.id];
    w.AddTask(first.(state := Completed));
    out := w.RunTask(Ok(daemon), stoppedAt);
    second := w.db[a.id];
  }
}
