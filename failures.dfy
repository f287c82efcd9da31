/** The exceptions the core raises or lets through, as values. */
module Failures {
  import opened Wrappers

  datatype Failure =
      /** `DocumentPortalException(message)`, raised `from` the optional cause */
    | PortalError(message: string, cause: Option<Failure>)
    | ValueError(message: string)
    | KeyError(key: string)
    /** subscripting, or `in`, on a configuration value that is not a mapping */
    | TypeError(message: string)
    /** `.get` on a configuration value that is not a mapping */
    | AttributeError(name: string)
    /** a local variable read before any assignment */
    | UnboundLocalError(name: string)
    | FileNotFoundError(path: string)
    /** anything raised inside a library call the model does not look into */
    | External(operation: string)

  /** `raise DocumentPortalException(message) from cause` */
  function Wrap(message: string, cause: Failure): Failure
  {
    PortalError(message, Some(cause))
  }
}
