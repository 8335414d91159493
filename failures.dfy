/** Outcomes of the dashboard's computations.  The script handles no
    exception itself: a failing step stops the page run, so the faults below
    are the exceptions the modelled code can raise. */
module Failures {

  /** `ZeroDivision` is Python's ZeroDivisionError from `x % 0`;
      `IndexOutOfRange` is the IndexError of `.iloc[-1]` on an empty series. */
  datatype Fault = ZeroDivision | IndexOutOfRange

  datatype Result<T> = Ok(value: T) | Error(fault: Fault)

  datatype Option<T> = None | Some(value: T)
}
