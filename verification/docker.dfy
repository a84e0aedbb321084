/** The container-engine backend: building a `Config` from a task through
    functional options, and the `Run`/`Stop` sequences of client calls,
    each of which stops at the first failing call. */
module Docker {
  import opened Common
  import opened Tasks

  datatype NewConfigOptions = NewConfigOptions(task: Option<Task>)

  /** The closure returned by `FromTask`; the captured task pointer may be nil. */
  datatype NewConfigOption = FromTask(task: Option<Task>)

  datatype Config = Config(
    title: string,
    attachStdin: bool,
    attachStdout: bool,
    attachStderr: bool,
    exposedPorts: set<string>,
    cmd: seq<string>,
    image: string,
    cpu: Float64,
    memory: int,
    disk: int,
    env: seq<string>,
    restartPolicy: string
  )

  /** Go's zero `Config{}`. */
  const ZeroConfig: Config := Config("", false, false, false, {}, [], "", Float64(0), 0, 0, [], "")

  const NoOptions: NewConfigOptions := NewConfigOptions(None)

  function ApplyConfigOption(options: NewConfigOptions, opt: NewConfigOption): NewConfigOptions {
    options.(task := opt.task)
  }

  /** Applies `opts` to `options` first to last, as the loop in `NewConfig` does. */
  function ApplyConfigOptions(options: NewConfigOptions, opts: seq<NewConfigOption>): NewConfigOptions
    decreases |opts|
  {
    if opts == [] then options else ApplyConfigOptions(ApplyConfigOption(options, opts[0]), opts[1..])
  }

  /** `c` copies the six task-derived fields of `t` and leaves the rest at zero values. */
  predicate CopiesTask(c: Config, t: Task) {
    && c.title == t.title && c.image == t.image && c.cpu == t.cpu
    && c.memory == t.memory && c.disk == t.disk && c.restartPolicy == t.restartPolicy
    && c == ZeroConfig.(title := c.title, image := c.image, cpu := c.cpu,
                        memory := c.memory, disk := c.disk, restartPolicy := c.restartPolicy)
  }

  /** The field copy at the end of `NewConfig`. `Memory` and `Disk` go through
      `int64(...)`, the identity for Go's 64-bit `int`. */
  function ConfigOf(options: NewConfigOptions): (c: Config)
    ensures options.task.None? ==> c == ZeroConfig
    ensures options.task.Some? ==> CopiesTask(c, options.task.value)
  {
    match options.task
    case None => ZeroConfig
    case Some(t) =>
      ZeroConfig.(title := t.title, image := t.image, cpu := t.cpu,
                  memory := t.memory, disk := t.disk, restartPolicy := t.restartPolicy)
  }

  /** What `NewConfig(opts...)` returns. */
  function ConfigFromOptions(opts: seq<NewConfigOption>): Config {
    ConfigOf(ApplyConfigOptions(NoOptions, opts))
  }

  /** Later options overwrite earlier ones: only the last `FromTask` matters. */
  lemma {:induction false} LastOptionWins(options: NewConfigOptions, opts: seq<NewConfigOption>)
    ensures ApplyConfigOptions(options, opts) ==
            if opts == [] then options else NewConfigOptions(opts[|opts| - 1].task)
    decreases |opts|
  {
    if opts != [] {
      LastOptionWins(ApplyConfigOption(options, opts[0]), opts[1..]);
    }
  }

  method NewConfig(opts: seq<NewConfigOption>) returns (c: Config)
    ensures c == ConfigFromOptions(opts)
    ensures opts == [] || opts[|opts| - 1].task.None? ==> c == ZeroConfig
    ensures opts != [] && opts[|opts| - 1].task.Some? ==> CopiesTask(c, opts[|opts| - 1].task.value)
  {
    var options := NoOptions;
    for i := 0 to |opts|
      invariant ApplyConfigOptions(options, opts[i..]) == ApplyConfigOptions(NoOptions, opts)
    {
      assert opts[i..][1..] == opts[i + 1..];
      options := ApplyConfigOption(options, opts[i]);
    }
    assert opts[|opts|..] == [];
    LastOptionWins(NoOptions, opts);
    c := ConfigOf(options);
  }

  /** The engine's client calls, each reduced to its outcome: `None` is Go's
      nil error, `Some(m)` an error with message `m`. The container-create
      call receives the whole `Config` in place of the engine's container and
      host configurations, and answers with the new container's id. */
  datatype Daemon = Daemon(
    imagePull: string -> Option<string>,
    containerCreate: Config -> Result<string, string>,
    containerStart: string -> Option<string>,
    containerLogs: string -> Option<string>,
    containerStop: string -> Option<string>,
    containerRemove: string -> Option<string>
  )

  datatype DockerClient = DockerClient(client: Daemon, config: Config)

  datatype DockerResult = DockerResult(error: Option<Error>, action: string, containerID: string, result: string)

  /** `DockerResult{}` */
  const EmptyResult: DockerResult := DockerResult(None, "", "", "")

  /** `DockerResult{Error: e}` */
  function ErrorResult(e: Error): (r: DockerResult)
    ensures r.error == Some(e) && r.containerID == "" && r.action == "" && r.result == ""
  {
    EmptyResult.(error := Some(e))
  }

  /** `connect` is the outcome of opening a client from the environment. */
  function NewDocker(config: Config, connect: Result<Daemon, string>): (r: Result<DockerClient, Error>)
    ensures r.Err? <==> connect.Err?
    ensures r.Err? ==> r.error == Engine(connect.error)
    ensures r.Ok? ==> r.value == DockerClient(connect.value, config)
  {
    match connect
    case Err(m) => Err(Engine(m))
    case Ok(daemon) => Ok(DockerClient(daemon, config))
  }

  /** All four phases of `Run` (pull, create, start, logs) succeed. */
  predicate RunSucceeds(d: DockerClient) {
    && d.client.imagePull(d.config.image).None?
    && d.client.containerCreate(d.config).Ok?
    && d.client.containerStart(d.client.containerCreate(d.config).value).None?
    && d.client.containerLogs(d.client.containerCreate(d.config).value).None?
  }

  function Run(d: DockerClient): (r: DockerResult)
    ensures r.error.None? <==> RunSucceeds(d)
    ensures r.error.Some? ==> r.containerID == "" && r.action == "" && r.result == ""
    ensures r.error.None? ==>
      r == DockerResult(None, "start", d.client.containerCreate(d.config).value, "success")
    ensures d.client.imagePull(d.config.image).Some? ==> r.error == Some(Engine(d.client.imagePull(d.config.image).value))
    ensures r.error.Some? ==> r.error.value.Engine?
  {
    var pulled := d.client.imagePull(d.config.image);
    if pulled.Some? then ErrorResult(Engine(pulled.value))
    else match d.client.containerCreate(d.config)
      case Err(m) => ErrorResult(Engine(m))
      case Ok(id) =>
        var started := d.client.containerStart(id);
        if started.Some? then ErrorResult(Engine(started.value))
        else
          var logs := d.client.containerLogs(id);
          if logs.Some? then ErrorResult(Engine(logs.value))
          else DockerResult(None, "start", id, "success")
  }

  /** A failed pull means nothing later is looked at. */
  lemma RunStopsAfterPullFailure(d: DockerClient, create: Config -> Result<string, string>,
                                 start: string -> Option<string>, logs: string -> Option<string>)
    requires d.client.imagePull(d.config.image).Some?
    ensures Run(d) == Run(d.(client := d.client.(containerCreate := create, containerStart := start, containerLogs := logs)))
    ensures Run(d) == ErrorResult(Engine(d.client.imagePull(d.config.image).value))
  {
  }

  /** A failed create means the start and log calls are never made. */
  lemma RunStopsAfterCreateFailure(d: DockerClient, start: string -> Option<string>, logs: string -> Option<string>)
    requires d.client.imagePull(d.config.image).None?
    requires d.client.containerCreate(d.config).Err?
    ensures Run(d) == Run(d.(client := d.client.(containerStart := start, containerLogs := logs)))
    ensures Run(d) == ErrorResult(Engine(d.client.containerCreate(d.config).error))
  {
  }

  /** A failed start means the logs are never attached. */
  lemma RunStopsAfterStartFailure(d: DockerClient, logs: string -> Option<string>)
    requires d.client.imagePull(d.config.image).None?
    requires d.client.containerCreate(d.config).Ok?
    requires d.client.containerStart(d.client.containerCreate(d.config).value).Some?
    ensures Run(d) == Run(d.(client := d.client.(containerLogs := logs)))
    ensures Run(d) == ErrorResult(Engine(d.client.containerStart(d.client.containerCreate(d.config).value).value))
  {
  }

  /** A failed log attach, after pull, create and start succeeded, returns
      its own error. */
  lemma RunStopsAfterLogsFailure(d: DockerClient)
    requires d.client.imagePull(d.config.image).None?
    requires d.client.containerCreate(d.config).Ok?
    requires d.client.containerStart(d.client.containerCreate(d.config).value).None?
    requires d.client.containerLogs(d.client.containerCreate(d.config).value).Some?
    ensures Run(d) == ErrorResult(Engine(d.client.containerLogs(d.client.containerCreate(d.config).value).value))
  {
  }

  /** `Run` never calls stop or remove. */
  lemma RunIgnoresStopAndRemove(d: DockerClient, stop: string -> Option<string>, remove: string -> Option<string>)
    ensures Run(d) == Run(d.(client := d.client.(containerStop := stop, containerRemove := remove)))
  {
  }

  function Stop(d: DockerClient, id: string): (r: DockerResult)
    ensures r.error.None? <==> d.client.containerStop(id).None? && d.client.containerRemove(id).None?
    ensures r.error.None? ==> r == DockerResult(None, "stop", id, "success")
    ensures r.error.Some? ==> r.containerID == "" && r.action == "" && r.result == ""
    ensures d.client.containerStop(id).Some? ==> r.error == Some(Engine(d.client.containerStop(id).value))
    ensures d.client.containerStop(id).None? && d.client.containerRemove(id).Some? ==>
      r.error == Some(Engine(d.client.containerRemove(id).value))
  {
    var stopped := d.client.containerStop(id);
    if stopped.Some? then ErrorResult(Engine(stopped.value))
    else
      var removed := d.client.containerRemove(id);
      if removed.Some? then ErrorResult(Engine(removed.value))
      else DockerResult(None, "stop", id, "success")
  }

  /** A failed stop means removal is never attempted. */
  lemma StopSkipsRemoveAfterStopFailure(d: DockerClient, id: string, remove: string -> Option<string>)
    requires d.client.containerStop(id).Some?
    ensures Stop(d, id) == Stop(d.(client := d.client.(containerRemove := remove)), id)
  {
  }
}
