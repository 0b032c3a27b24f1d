/**
 * The admission gate as a sequential state machine: the semaphore's permit
 * count and the shutdown flag, and one step function per operation that
 * changes them. Blocking is not modelled as waiting: a caller that would wait
 * gets `MustWait` / `WouldBlock` and the state is left as it was.
 */
module Gate {
  import opened JavaInts
  import opened ApiResults
  import opened LimiterConfig

  /** The limiter's mutable state: available permits and the lifecycle flag. */
  datatype GateState = GateState(permits: int32, isShutdown: bool)

  /** The permit count lies between zero and the limit. */
  ghost predicate InRange(c: Config, s: GateState) {
    0 <= s.permits <= c.maxTokens
  }

  /** A freshly built limiter: a full semaphore, not shut down. */
  function Initial(c: Config): GateState {
    GateState(c.maxTokens, false)
  }

  /**
   * One `tokens.acquire()`: an interrupted caller fails before any permit is
   * looked at; otherwise one permit is taken if there is one, and the caller
   * waits if there is none.
   */
  function AcquireStep(s: GateState, interrupted: bool): (r: (GateState, AcquireResult))
    ensures r.0.isShutdown == s.isShutdown
    ensures r.1 == Acquired <==> !interrupted && s.permits > 0
    ensures r.1 == AcquireInterrupted <==> interrupted
    ensures r.0.permits as int == s.permits as int - (if r.1 == Acquired then 1 else 0)
  {
    if interrupted then (s, AcquireInterrupted)
    else if s.permits > 0 then (s.(permits := s.permits - 1), Acquired)
    else (s, MustWait)
  }

  /**
   * One `createDocument`: the shutdown check comes first and leaves the state
   * alone; then one permit is acquired and the post is made. The permit is
   * not given back, whether or not the post succeeds (`postOk`).
   */
  function CreateStep(s: GateState, postOk: bool, interrupted: bool): (r: (GateState, Outcome))
    ensures s.isShutdown ==> r == (s, Failed(IllegalState))
    ensures r.0.isShutdown == s.isShutdown
    ensures Granted(r.1) <==> !s.isShutdown && !interrupted && s.permits > 0
    ensures r.0.permits as int == s.permits as int - (if Granted(r.1) then 1 else 0)
    ensures Granted(r.1) ==> (r.1 == Posted <==> postOk)
    ensures r.1 == WouldBlock <==> !s.isShutdown && !interrupted && s.permits <= 0
    ensures r.1 == Failed(Interrupted) <==> !s.isShutdown && interrupted
  {
    if s.isShutdown then (s, Failed(IllegalState))
    else
      var (after, acquired) := AcquireStep(s, interrupted);
      match acquired
      case MustWait => (after, WouldBlock)
      case AcquireInterrupted => (after, Failed(Interrupted))
      case Acquired => (after, if postOk then Posted else Failed(CreateFailed))
  }

  /**
   * One tick of `refillOneTokenIfNeeded`: nothing after shutdown; otherwise
   * one permit is released exactly when fewer than `maxTokens` are available.
   */
  function RefillStep(c: Config, s: GateState): (r: GateState)
    ensures r.isShutdown == s.isShutdown
    ensures s.isShutdown ==> r == s
    ensures !s.isShutdown ==> (r.permits as int == s.permits as int + 1 <==> s.permits < c.maxTokens)
    ensures r.permits == s.permits || r.permits as int == s.permits as int + 1
    ensures s.permits <= c.maxTokens ==> r.permits <= c.maxTokens
  {
    if s.isShutdown then s
    else if s.permits < c.maxTokens then s.(permits := s.permits + 1)
    else s
  }

  /** `shutdown`: raises the flag, leaves the permits; a second call changes nothing. */
  function ShutdownStep(s: GateState): (r: GateState)
    ensures r.isShutdown && r.permits == s.permits
    ensures s.isShutdown ==> r == s
  {
    s.(isShutdown := true)
  }
}
