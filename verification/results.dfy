/** Failure-compatible wrappers shared by every module of the model.

    Each exception the Python code raises becomes one `Error` value, and a
    member that can raise returns a `Result`; `:-` propagates the failure
    exactly where the exception would have propagated.
 */
module Results {

  /** The exceptions raised by the modelled code, one constructor each. */
  datatype Error =
    | NegativeRating        // ValueError from the charge/discharge rating setters
    | CapacityOutOfRange    // ValueError from the capacity setter
    | SocOutOfRange         // ValueError from the soc setter
    | PowerOutOfRange       // ValueError from the current-power setter
    | EnergyOutOfRange      // ValueError from the current-energy setter
    | DivisionByZero        // ZeroDivisionError
    | UnknownStorageType    // KeyError from the preset table
    | MissingSeries         // ValueError when no load series is given
    | NoSignChange          // ValueError from the bisection bracket check
    | UnknownFrequency      // ValueError from the frequency parser
    | MissingYear           // ValueError when neither a range nor a year is given
    | EmptyDates            // IndexError when classifying an empty date array
    | NotAFloat             // TypeError from a setter given an integer

  /** Python's `None` versus a present value. */
  datatype Option<+T> = None | Some(value: T)

  /** The outcome of a member that may raise. */
  datatype Result<+T> = Ok(value: T) | Err(error: Error) {

    predicate IsFailure() {
      Err?
    }

    /** `:-` calls this only on a failure, so the `Ok` case is never taken.
        It is total rather than `requires Err?` because a precondition would
        be checked at every `:-` whose failure branch is impossible, under
        contradictory assumptions. */
    function PropagateFailure<U>(): Result<U> {
      match this
      case Err(e) => Err(e)
      case Ok(_) => Err(MissingSeries)
    }

    function Extract(): T
      requires Ok?
    {
      value
    }
  }
}
