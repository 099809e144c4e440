/** An HTTP reply as the Express handlers send it: a status code with either a
    payload or an error body `{ success?, message }`. */
module Http {
  import opened Wrappers

  datatype Response<P> =
    | Reply(status: nat, payload: P)
    | Fail(status: nat, success: Option<bool>, message: string)

  /** How an awaited call into the database or the AI service settles: with a
      value, or by throwing (which the handlers' `catch` turns into a 500). */
  datatype Settled<T> = Resolved(value: T) | Rejected
}
