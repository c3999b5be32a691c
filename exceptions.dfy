/** The error the managers raise and the two ways a fetch can end. */
module Exceptions {
  import opened Values

  /** `MethodNotExistsException`: the manager was asked to run a method it does not have. */
  datatype ManagerError = MethodNotExists(methodName: string)

  /** What `fetchData` hands back: a value (possibly `Null`), or an exception thrown to the caller. */
  datatype Outcome = Returned(value: Value) | Raised(error: ManagerError)
}
