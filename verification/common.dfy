/** Small value wrappers shared by every part of the model. */
module Common {

  /** A value that may be absent (JavaScript's null / undefined). */
  datatype Option<+T> = None | Some(value: T)

  /**
   * How an awaited promise settles: with a value, or by throwing.
   * Every outbound HTTP call of the server is modelled by one of these.
   */
  datatype Settled<+T> = Fulfilled(value: T) | Rejected
}
