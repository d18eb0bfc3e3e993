/** Optional values and the outcome of a call into the record store.
    The record store (PocketBase) is not modelled: every network call of the
    front end becomes an `Outcome` handed to the method that awaits it. */
module Outcomes {

  datatype Option<+T> = None | Some(value: T)

  /** The settled result of one awaited record-store call: the value it
      resolved with, or the reason it was rejected. */
  datatype Outcome<+T> = Success(value: T) | Failure(reason: string)
}
