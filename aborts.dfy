/** How a task ends: with a value, or by Fabric's `abort` before any remote command. */
module Aborts {

  /** The two reasons `deploy` and `rollback` abort. */
  datatype Reason =
    | InvalidRevertTarget
    | UnknownPlatform(platform: string)

  datatype Result<T> = Ok(value: T) | Aborted(reason: Reason)
}
