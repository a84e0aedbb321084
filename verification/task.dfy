/** The task record and its runtime sub-record. */
module Tasks {
  import opened Common
  import opened TaskState

  /** An opaque task identity (a UUID's sixteen bytes). */
  datatype TaskId = TaskId(uuid: seq<bv8>)

  /** A wall-clock instant; 0 is Go's zero `time.Time`. */
  type Time = int
  const ZeroTime: Time := 0

  datatype Runtime = Runtime(containerID: string)

  datatype Task = Task(
    id: TaskId,
    title: string,
    state: State,
    image: string,
    cpu: Float64,
    memory: int,
    disk: int,
    exposedPorts: set<string>,
    portBindings: map<string, string>,
    restartPolicy: string,
    runtime: Option<Runtime>,   // nil until a container was recorded
    startTime: Time,
    finishTime: Time
  )
}
