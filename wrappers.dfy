/** Failure-carrying results. The original aborts the process on a failed CHECK or
    LOG(FATAL); the model returns `Fail` with a short reason instead. */
module Wrappers {

  datatype Option<+T> = None | Some(value: T)

  datatype Result<+T> = Ok(value: T) | Fail(reason: string) {
    predicate IsFailure() { Fail? }

    function PropagateFailure<U>(): Result<U>
      requires Fail?
    {
      Fail(reason)
    }

    function Extract(): T
      requires Ok?
    {
      value
    }
  }

  /** Outcome of a step that only checks or mutates: Pass or the reason it stopped. */
  datatype Outcome = Pass | Stop(reason: string) {
    predicate IsFailure() { Stop? }

    function PropagateFailure<U>(): Result<U>
      requires Stop?
    {
      Fail(reason)
    }
  }

  function Need(condition: bool, reason: string): (o: Outcome)
    ensures o.Pass? <==> condition
  {
    if condition then Pass else Stop(reason)
  }
}
