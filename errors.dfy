/**
 * The closed error taxonomy of the managers (src/services/errors.ts), plus the
 * platform failure that the process library raises when a spawn itself fails.
 */
module Errors {

  datatype Error =
    | BinaryNotFound(binary: string)
    | CommandFailed(command: string, message: string)
    | HealthCheckFailed(message: string)
      /** A spawn rejected by the platform (Effect's PlatformError); it propagates unchanged. */
    | PlatformError(message: string)
  {
    /** The text the flow shows for a failure other than a missing binary. */
    function Message(): string
    {
      match this
      case BinaryNotFound(_) => ""
      case CommandFailed(_, m) => m
      case HealthCheckFailed(m) => m
      case PlatformError(m) => m
    }
  }
}
