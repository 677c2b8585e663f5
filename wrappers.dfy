/** Small result types shared by the modules of the client model. */
module Wrappers {

  /** A value that may be absent: JavaScript's `undefined` / `null` next to a present value. */
  datatype Option<+T> = None | Some(value: T)

  /**
   * How a remote stage or a promise settles: fulfilled with a text, or rejected
   * with an error whose `message` is "" when the thrown value carries none.
   */
  datatype Outcome = Ok(text: string) | Fail(message: string)
}
