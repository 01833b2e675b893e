/** The exceptions the resolver throws and the ones it catches. */
module Errors {

  /** Thrown when the resolver is built on a root it cannot serve from. */
  datatype ServerConfigurationError = ServerConfigurationError(message: string)

  /** The exceptions the host's useFile may throw into the resolver. */
  datatype HostException =
    | FileNotFoundException
    | SecurityException
    | OtherIOException

  /** The exception classes named in the resolver's catch clauses. */
  datatype ExceptionClass = IOExceptionClass | FileNotFoundExceptionClass | SecurityExceptionClass

  /**
   * Java's `instanceof`: FileNotFoundException is a subclass of IOException,
   * SecurityException is an unchecked exception unrelated to IOException.
   */
  predicate InstanceOf(e: HostException, c: ExceptionClass) {
    match e
    case FileNotFoundException => c == FileNotFoundExceptionClass || c == IOExceptionClass
    case SecurityException => c == SecurityExceptionClass
    case OtherIOException => c == IOExceptionClass
  }

  /** What a URLMappingError carries besides its status: a message or the exception it wraps. */
  datatype Reason = Message(text: string) | Cause(exception: HostException)

  /** A URL that could not be mapped, with the HTTP status to answer it with. */
  datatype URLMappingError = URLMappingError(status: int, reason: Reason)
}
