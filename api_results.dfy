/** What the limiter's operations report back to their callers. */
module ApiResults {

  /** The exceptions the admission gate raises, one constructor per cause. */
  datatype ApiError =
    | IllegalArgument   // the constructor rejected a non-positive request limit
    | IllegalState      // createDocument was called on a shut-down limiter
    | Interrupted       // the caller's thread was interrupted in acquire
    | CreateFailed      // the post behind an admitted request failed

  /** A value or the exception that took its place. */
  datatype Result<+T> = Success(value: T) | Failure(error: ApiError)

  /** What acquiring one permit from the semaphore does for a single caller. */
  datatype AcquireResult =
    | Acquired            // a permit was taken
    | MustWait            // no permit: the caller stays blocked in acquire
    | AcquireInterrupted  // the caller's interrupt status was set

  /** What one call of createDocument ends in. */
  datatype Outcome =
    | Posted              // admitted, and the post succeeded
    | WouldBlock          // not admitted yet: the caller waits for a refill
    | Failed(error: ApiError)

  /** True of the outcomes in which a permit was consumed. */
  predicate Granted(o: Outcome) {
    o.Posted? || o == Failed(CreateFailed)
  }
}
