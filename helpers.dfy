/** `retry_on_exception` of utils/helpers.py: call a function up to
    `max_attempts` times, sleeping `delay` seconds after every failed call
    but the last, and re-raise the last failure.

    The function is `call`, giving the outcome of each attempt; an exception
    says whether it is one of `exception_types`. */
module Helpers {

  datatype CallResult<T> = Value(value: T) | Raised(error: string, retried: bool)

  /** What `retry_on_exception` ends with: the first successful value, the
      exception it lets escape, or the `None` of a loop that never ran. */
  datatype RetryOutcome<T> = Returned(value: T) | Reraised(error: string) | NoResult

  /** Whether attempt `k` (numbered from 1) failed with an exception that is
      retried. */
  predicate RetriedFailure<T>(call: nat -> CallResult<T>, k: nat) {
    call(k).Raised? && call(k).retried
  }

  /** The loop. `calls` is how many times `func` ran and `sleeps` how many
      times the loop slept. */
  method RetryOnException<T>(call: nat -> CallResult<T>, maxAttempts: int)
    returns (r: RetryOutcome<T>, calls: nat, sleeps: nat)
    ensures maxAttempts <= 0 ==> r == NoResult && calls == 0
    ensures maxAttempts > 0 ==> 1 <= calls <= maxAttempts && !r.NoResult?
    ensures forall k: nat :: 1 <= k < calls ==> RetriedFailure(call, k)
    ensures r.Returned? ==> call(calls) == Value(r.value)
    ensures r.Reraised? ==> call(calls).Raised? && r.error == call(calls).error
                            && (calls == maxAttempts || !call(calls).retried)
    ensures sleeps == if calls == 0 then 0 else calls - 1
  {
    var attempt: nat := 1;
    r, calls, sleeps := NoResult, 0, 0;
    while attempt <= maxAttempts
      invariant 1 <= attempt
      invariant maxAttempts >= 1 ==> attempt <= maxAttempts
      invariant maxAttempts <= 0 ==> attempt == 1
      invariant calls == attempt - 1 && sleeps == calls
      invariant forall k: nat :: 1 <= k < attempt ==> RetriedFailure(call, k)
      decreases maxAttempts - attempt
    {
      calls := attempt;
      match call(attempt) {
        case Value(v) =>
          return Returned(v), calls, sleeps;
        case Raised(e, retried) =>
          if !retried || attempt == maxAttempts {
            return Reraised(e), calls, sleeps;
          }
          sleeps := sleeps + 1;
          attempt := attempt + 1;
      }
    }
    assert maxAttempts <= 0;
  }
}
