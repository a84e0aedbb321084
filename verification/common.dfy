/** Shared value types: optional values, results, the error kinds the
    worker can return, and the opaque floating-point value used for CPU shares. */
module Common {

  /** A Go pointer or interface that may be nil. */
  datatype Option<+T> = None | Some(value: T)

  /** A Go `(value, error)` pair where exactly one half is meaningful. */
  datatype Result<+T, +E> = Ok(value: T) | Err(error: E)

  /** Every distinguishable error value of the core. */
  datatype Error =
    | StateUnknown                    // state.ErrStateUnknown
    | CpuNil                          // "cpu is nil" from GetNanoCPUs
    | TaskContainerNotStarted         // worker.ErrTaskContainerNotStarted
    | TaskContainerAlreadyStarted     // worker.ErrTaskContainerAlreadyStarted
    | TaskInvalidStateTransition      // worker.ErrTaskInvalidStateTransition
    | UnsupportedTaskState            // "unsupported task state"
    | Engine(message: string)         // an error reported by the container engine's client

  /** A float64 kept opaque as its IEEE-754 bit pattern: the model never
      does floating-point arithmetic. */
  datatype Float64 = Float64(bits: bv64)
}
