/** Results of running a piece of the pipeline: a value, a Python exception, or a stall.

    `Stalled` stands for the source's unbounded loops (`while True`, retry-until-parsed) when the
    finite stream of answers the caller supplied runs out: the program would wait or spin forever. */
module Wrappers {

  datatype Option<+T> = None | Some(value: T)

  /** The Python exceptions the modelled code can raise. `ForeignError` is any exception raised
      inside a collaborator that is not part of this model. */
  datatype Error =
    | IndexError
    | KeyError
    | TypeError
    | ValueError
    | AttributeError
    | StopIteration
    | ZeroDivisionError
    | ForeignError

  datatype Outcome<+T> = Ok(value: T) | Raised(error: Error) | Stalled
}
