/** Outcome types shared by the model: an optional value, and a value or the
    exception the Python code would raise instead. */
module Results {

  datatype Option<T> = None | Some(value: T)

  /** The exceptions raised along the modelled paths. */
  datatype Error =
    /** RuntimeError from `_get_trajectories`: fewer steps available than requested. */
    | InsufficientSteps(requested: int, available: nat)
    /** ValueError from numpy's `argmax` applied to an empty array. */
    | EmptyArgmax
    /** RuntimeError from `AgentTrainer.train`: transitions are still buffered. */
    | TransitionsLeft(count: nat)
    /** ValueError from the `AgentTrainer` constructor: the algorithm has no VecEnv. */
    | EnvNotSet

  datatype Result<T> = Ok(value: T) | Err(error: Error)

  /** Result of an operation that returns nothing (None in Python) or raises. */
  datatype Outcome = Pass | Fail(error: Error)
}
