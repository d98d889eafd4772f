/** Results and the error kinds the broker's control flow distinguishes. */
module Types {

  datatype Option<+T> = None | Some(value: T)

  /** The errors of the broker, its Kubernetes client and its service binders. */
  datatype Error =
    // Kubernetes API
    | NotFound
    | AlreadyExists
    | Conflict
    | SchemaViolation
    | CallFailed
    // Lookup: `errInstanceNotFound` and `ErrInstanceDoesNotExist` are two different errors in the source
    | PlanMismatch
    | InstanceDoesNotExist
    | InstanceAlreadyExists
    | InstanceNotReady
    | NoServiceIds
    // Parsing
    | InvalidService(name: string)
    | InvalidBool(text: string)
    | InvalidGroupVersion(text: string)
    | InvalidRule(text: string)
    // Requests
    | ServiceUpdateNotPermitted
    | PlanChangeNotPermitted
    | MalformedParameters
    | ParentReferenceMissing
    | ParentInvalid
    | NoPrincipal
    | InUse(names: set<string>)
    | ConcurrentInstanceAccess
    // Bindings
    | BindingNotSupported
    | NotImplemented
    | BindingDoesNotExist
    | BindingNotFound
    | NoSecretReference
    | NoSecretData
    | NoUserInComposite
    | InvalidPort
    // A failed Go type assertion: the request is aborted where it stands
    | Panic

  datatype Result<+T> = Ok(value: T) | Err(error: Error) {
    predicate IsFailure() { Err? }

    function PropagateFailure<U>(): Result<U>
      requires Err?
    {
      Err(error)
    }

    function Extract(): T
      requires Ok?
    {
      value
    }
  }
}
