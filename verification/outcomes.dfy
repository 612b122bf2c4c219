/** Failure-carrying results shared by the other modules.

    The library reports errors through an error handler; operations that stop at
    the error are modelled as returning `Err`, and those that carry on after the
    handler returns (the diagonal-array proxies) record the messages next to
    the value they go on to produce.
 */
module Outcomes {

  datatype Option<+T> = None | Some(value: T)

  datatype Result<+T, +E> = Ok(value: T) | Err(error: E)

  /** A value produced by code that reports errors to the library's error
      handler and carries on when the handler returns: `raised` lists the
      messages passed to the handler, in order. */
  datatype Handled<+T> = Handled(raised: seq<string>, result: T)
}
