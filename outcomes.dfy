/** Optional values and the outcome of a call that can raise.

    The Python code signals failure by raising; every call that can raise is
    modelled as returning a `Result`, whose `Err` carries the class of the
    exception and its message. */
module Outcomes {

  datatype Option<+T> = None | Some(value: T)

  /** The exception classes the drift pipeline raises or lets propagate. */
  datatype Kind =
    | ValueError       // a guard in the client code (empty frame, missing key, no project)
    | KeyError         // a column that a DataFrame selection needs is absent
    | AttributeError   // `self.project.id` evaluated while `self.project` is None
    | QueryError       // the warehouse rejected or could not run a query
    | RemoteError      // a call into the drift service failed
    | RuntimeError     // a bare `Exception(...)` raised by the orchestrator

  datatype Failure = Failure(kind: Kind, message: string)

  datatype Result<+T> = Ok(value: T) | Err(error: Failure)
}
