/** Outcome of a step that may throw. The source signals every failure by
    throwing a JavaScript `Error`; only its `message` is observable to the
    caller, so a failure carries that message. */
module Results {

  datatype Result<+T> = Success(value: T) | Failure(error: string)
}
