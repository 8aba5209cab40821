/**
 * Failure-carrying values. The services of the dashboard throw `Error`
 * objects ("Booking not found", "Payment processing failed. ..."); here a
 * throwing call returns `Err` with the message and a normal return `Ok`.
 */
module Outcomes {

  datatype Option<+T> = None | Some(value: T) {
    function GetOr(default: T): T {
      match this
      case Some(v) => v
      case None => default
    }
  }

  datatype Result<+T> = Ok(value: T) | Err(message: string)
}
