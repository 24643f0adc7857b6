/**
 * The layer's error value: a driver status code (whose text the driver
 * renders), or a message written by the layer itself.
 */
module Errors {

  datatype Error = Status(code: nat) | Text(message: string)

  /** The message `add_filter` reports when a custom filter is already set. */
  const MoreThanOneFilter: string := "Cannot configure more than one filter"
}
