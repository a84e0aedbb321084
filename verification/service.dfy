/** The container-runtime-facing request shape: resource limits, restart
    policies and the functional options that fill in `RunOptions`. */
module Service {
  import opened Common

  type RestartPolicyMode = string

  const RestartPolicyDisabled: RestartPolicyMode := "no"
  const RestartPolicyAlways: RestartPolicyMode := "always"
  const RestartPolicyOnFailure: RestartPolicyMode := "on-failure"
  const RestartPolicyUnlessStopped: RestartPolicyMode := "unless-stopped"

  const DefaultRestartPolicy: RestartPolicyMode := RestartPolicyDisabled

  /** Each limit is optional (a nil pointer in Go). */
  datatype ResourceLimitation = ResourceLimitation(cpu: Option<Float64>, memory: Option<int>, disk: Option<int>)

  /** 0.5 cores (IEEE-754 bits 0x3FE0000000000000), 25 bytes of memory, 0 bytes of disk. */
  const DefaultResourceLimitation: ResourceLimitation :=
    ResourceLimitation(Some(Float64(0x3FE0_0000_0000_0000)), Some(25), Some(0))

  lemma RestartPoliciesDistinct()
    ensures |{RestartPolicyDisabled, RestartPolicyAlways, RestartPolicyOnFailure, RestartPolicyUnlessStopped}| == 4
  {
  }

  lemma Defaults()
    ensures DefaultRestartPolicy == "no"
    ensures DefaultResourceLimitation.cpu.Some?
    ensures DefaultResourceLimitation.memory == Some(25)
    ensures DefaultResourceLimitation.disk == Some(0)
  {
  }

  /** A CPU quota in nano-CPUs. The conversion `int64(cpu * 10^9)` is floating
      point, so a converted quota is kept as the symbolic term `Scaled(cpu)`. */
  datatype NanoCpus = Literal(n: int) | Scaled(cpu: Float64)

  function GetNanoCPUs(limit: ResourceLimitation): (r: (NanoCpus, Option<Error>))
    ensures r.1.Some? <==> limit.cpu.None?
    ensures limit.cpu.None? ==> r == (Literal(0), Some(CpuNil))
    ensures limit.cpu.Some? ==> r.0 == Scaled(limit.cpu.value)
  {
    match limit.cpu
    case None => (Literal(0), Some(CpuNil))
    case Some(c) => (Scaled(c), None)
  }

  datatype RunOptions = RunOptions(
    title: Option<string>,
    attachStdin: bool,
    attachStdout: bool,
    attachStderr: bool,
    exposedPorts: set<string>,
    cmd: seq<string>,
    env: seq<string>,
    limit: Option<ResourceLimitation>,
    restartPolicy: Option<RestartPolicyMode>
  )

  /** One functional option: the closure that `With*` returns, named by its
      builder and carrying the captured argument. */
  datatype RunOption =
    | WithTitle(title: string)
    | WithResourceLimitation(limit: Option<ResourceLimitation>)
    | WithCmd(cmd: seq<string>)
    | WithExposedPorts(ports: set<string>)
    | WithRestartPolicy(policy: RestartPolicyMode)
    | WithEnv(env: seq<string>)

  /** The fields of `RunOptions`. */
  datatype Field =
    | TitleField | AttachStdinField | AttachStdoutField | AttachStderrField
    | ExposedPortsField | CmdField | EnvField | LimitField | RestartPolicyField

  /** The one field an option writes. */
  function Target(opt: RunOption): Field {
    match opt
    case WithTitle(_) => TitleField
    case WithResourceLimitation(_) => LimitField
    case WithCmd(_) => CmdField
    case WithExposedPorts(_) => ExposedPortsField
    case WithRestartPolicy(_) => RestartPolicyField
    case WithEnv(_) => EnvField
  }

  /** `a` and `b` hold the same value in field `f`. */
  predicate SameField(a: RunOptions, b: RunOptions, f: Field) {
    match f
    case TitleField => a.title == b.title
    case AttachStdinField => a.attachStdin == b.attachStdin
    case AttachStdoutField => a.attachStdout == b.attachStdout
    case AttachStderrField => a.attachStderr == b.attachStderr
    case ExposedPortsField => a.exposedPorts == b.exposedPorts
    case CmdField => a.cmd == b.cmd
    case EnvField => a.env == b.env
    case LimitField => a.limit == b.limit
    case RestartPolicyField => a.restartPolicy == b.restartPolicy
  }

  /** `o` carries the argument captured by `opt` in `opt`'s field. */
  predicate Reflects(o: RunOptions, opt: RunOption) {
    match opt
    case WithTitle(title) => o.title == Some(title)
    case WithResourceLimitation(limit) => o.limit == limit
    case WithCmd(cmd) => o.cmd == cmd
    case WithExposedPorts(ports) => o.exposedPorts == ports
    case WithRestartPolicy(policy) => o.restartPolicy == Some(policy)
    case WithEnv(env) => o.env == env
  }

  /** Running the closure on `*RunOptions`. */
  function Apply(opt: RunOption, opts: RunOptions): (r: RunOptions)
    ensures Reflects(r, opt)
    ensures forall f :: f != Target(opt) ==> SameField(opts, r, f)
  {
    match opt
    case WithTitle(title) => opts.(title := Some(title))
    case WithResourceLimitation(limit) => opts.(limit := limit)
    case WithCmd(cmd) => opts.(cmd := cmd)
    case WithExposedPorts(ports) => opts.(exposedPorts := ports)
    case WithRestartPolicy(policy) => opts.(restartPolicy := Some(policy))
    case WithEnv(env) => opts.(env := env)
  }

  /** `Field` lists every field: two records that agree on each of them are
      the same record, so `Apply`'s "every other field" leaves nothing out. */
  lemma {:induction false} SameFieldsEqual(a: RunOptions, b: RunOptions)
    requires forall f :: SameField(a, b, f)
    ensures a == b
  {
    assert SameField(a, b, TitleField) && SameField(a, b, AttachStdinField);
    assert SameField(a, b, AttachStdoutField) && SameField(a, b, AttachStderrField);
    assert SameField(a, b, ExposedPortsField) && SameField(a, b, CmdField);
    assert SameField(a, b, EnvField) && SameField(a, b, LimitField);
    assert SameField(a, b, RestartPolicyField);
  }

  /** Applying an option a second time changes nothing. */
  lemma ApplyIdempotent(opt: RunOption, opts: RunOptions)
    ensures Apply(opt, Apply(opt, opts)) == Apply(opt, opts)
  {
  }

  /** Options writing different fields can be applied in either order. */
  lemma ApplyCommutes(a: RunOption, b: RunOption, opts: RunOptions)
    requires Target(a) != Target(b)
    ensures Apply(a, Apply(b, opts)) == Apply(b, Apply(a, opts))
  {
  }
}
