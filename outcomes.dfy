/** Optional values, the errors proxyd's start-up and last-value readers report,
    and a failure-compatible Result carrying one of them. */
module Outcomes {

  datatype Option<+T> = None | Some(value: T)

  /** Every error the modelled code can return. The first group are the
      configuration errors of Start (proxyd/proxyd.go); Unavailable, Malformed
      and OutOfRange are the errors of the last-value readers; External is an
      error handed back unchanged from a collaborator that is not modelled
      (secret resolution, TLS file loading, the node client). */
  datatype Error =
    | NoBackends
    | NoBackendGroups
    | NoMethodMappings
    | NoneAuthKey
    | MissingRPCURL(backend: string)
    | MissingWSURL(backend: string)
    | UndefinedBackend(backend: string)
    | MissingWSGroup(group: string)
    | WSPortWithoutGroup
    | UndefinedGroup(group: string)
    | NoBlockSyncURL
    | Unavailable(key: string)
    | Malformed(input: string)
    | OutOfRange(input: string)
    | External(message: string)

  datatype Result<+T> = Ok(value: T) | Err(error: Error) {
    predicate IsFailure() { Err? }

    function PropagateFailure<U>(): Result<U>
      requires Err?
    {
      Err(error)
    }

    function Extract(): T
      requires Ok?
    {
      value
    }
  }
}
