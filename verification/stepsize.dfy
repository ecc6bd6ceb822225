/** The vocabulary shared by every strategy: what the base agent hands over at a
    learning step, and what `init_stepsize` and `rescale_update` give back. */
module StepSize {
  import opened Params

  /** The inputs of one `rescale_update` call, every array flattened to the
      weights' size. `traces` is the agent's eligibility-trace field as it
      stands at that step (read by RProp and AlphaBounds). */
  datatype Step = Step(
    phiT: seq<real>,
    phiTp: seq<real>,
    delta: real,
    reward: real,
    direction: seq<real>,
    traces: seq<real>)

  datatype Option<T> = None | Some(value: T)

  /** The one error a modelled strategy raises: a Python float divided by zero
      (`ZeroDivisionError`), which propagates to the caller. */
  datatype Error = DivisionByZero

  datatype Result<T> = Success(value: T) | Failure(error: Error)

  /** The private state allocated by `init_stepsize`, and the parameter
      dictionary with the resolved defaults written back. */
  datatype Initialized<S> = Initialized(state: S, params: Params)

  /** The state after one `rescale_update`, and the rescaled direction it returns. */
  datatype Rescaled<S> = Rescaled(state: S, update: seq<real>)

  /** The state after a run of calls, and the rescaled direction of each call in order. */
  datatype Trace<S> = Trace(state: S, updates: seq<seq<real>>)
}
