/**
 * The rate-limited client object. Its configuration is fixed at construction;
 * its state, the semaphore's permit count and the shutdown flag, is updated
 * in place by createDocument, by the refill timer and by shutdown. Each
 * method's new state is the matching step of the Gate state machine applied
 * to the old one, so everything proved in GateTraces holds of the object.
 */
module Api {
  import opened JavaInts
  import opened ApiResults
  import opened LimiterConfig
  import opened Gate

  class CrptApi {
    const maxTokens: int32
    const refillPeriodNanos: int64
    var permits: int32
    var isShutdown: bool

    /** The immutable configuration. */
    function Configuration(): Config {
      LimiterConfig.Config(maxTokens, refillPeriodNanos)
    }

    /** The mutable state, as the state machine sees it. */
    function State(): GateState
      reads this
    {
      GateState(permits, isShutdown)
    }

    /** Object invariant: a valid configuration and a permit count within it. */
    ghost predicate Valid()
      reads this
    {
      ValidConfig(Configuration()) && InRange(Configuration(), State())
    }

    /** Builds a limiter from an already validated configuration: full, and live. */
    constructor Init(c: Config)
      requires ValidConfig(c)
      ensures Valid() && Configuration() == c && State() == Initial(c)
    {
      maxTokens := c.maxTokens;
      refillPeriodNanos := c.refillPeriodNanos;
      permits := c.maxTokens;
      isShutdown := false;
    }

    /**
     * `new CrptApi(timeUnit, requestLimit)`: IllegalArgument when the limit
     * is not positive; otherwise a live limiter holding `requestLimit` permits.
     */
    static method Create(nanosInUnit: int64, requestLimit: int32) returns (r: Result<CrptApi>)
      requires nanosInUnit >= 1
      ensures r.Failure? <==> requestLimit <= 0
      ensures r.Failure? ==> r.error == IllegalArgument
      ensures r.Success? ==> fresh(r.value) && r.value.Valid()
      ensures r.Success? ==> r.value.maxTokens == requestLimit && r.value.permits == requestLimit
      ensures r.Success? ==> r.value.refillPeriodNanos == RefillPeriod(nanosInUnit, requestLimit)
      ensures r.Success? ==> !r.value.isShutdown
    {
      var config := MakeConfig(nanosInUnit, requestLimit);
      if config.Failure? {
        return Failure(config.error);
      }
      var api := new CrptApi.Init(config.value);
      return Success(api);
    }

    /** `ensureNotShutdown`: whether a caller may go on to acquire a permit. */
    method EnsureNotShutdown() returns (open: bool)
      ensures open <==> !isShutdown
    {
      open := !isShutdown;
    }

    /**
     * `acquireTokenBlocking`: an interrupted caller fails without touching
     * the count; otherwise one permit is taken, or the caller would wait.
     */
    method AcquireTokenBlocking(interrupted: bool) returns (a: AcquireResult)
      requires Valid()
      modifies this
      ensures Valid()
      ensures (State(), a) == AcquireStep(old(State()), interrupted)
      ensures a == Acquired <==> !interrupted && old(permits) > 0
      ensures permits as int == old(permits) as int - (if a == Acquired then 1 else 0)
      ensures isShutdown == old(isShutdown)
    {
      if interrupted {
        return AcquireInterrupted;
      }
      if permits > 0 {
        permits := permits - 1;
        return Acquired;
      }
      return MustWait;
    }

    /**
     * `createDocument`: refused with IllegalState on a shut-down limiter,
     * before the permit count is touched; otherwise one permit is acquired
     * and kept, then the post is made (`postOk` is whether it succeeds).
     */
    method CreateDocument(postOk: bool, interrupted: bool) returns (o: Outcome)
      requires Valid()
      modifies this
      ensures Valid()
      ensures (State(), o) == CreateStep(old(State()), postOk, interrupted)
      ensures old(isShutdown) ==> o == Failed(IllegalState) && permits == old(permits)
      ensures Granted(o) <==> !old(isShutdown) && !interrupted && old(permits) > 0
      ensures permits as int == old(permits) as int - (if Granted(o) then 1 else 0)
      ensures isShutdown == old(isShutdown)
    {
      var open := EnsureNotShutdown();
      if !open {
        return Failed(IllegalState);
      }
      var acquired := AcquireTokenBlocking(interrupted);
      match acquired {
        case MustWait => o := WouldBlock;
        case AcquireInterrupted => o := Failed(Interrupted);
        case Acquired => o := if postOk then Posted else Failed(CreateFailed);
      }
    }

    /**
     * `refillOneTokenIfNeeded`, one tick of the timer: nothing after shutdown;
     * otherwise one permit is released exactly when fewer than `maxTokens`
     * are available, so the count never goes above the limit.
     */
    method RefillOneTokenIfNeeded()
      requires Valid()
      modifies this
      ensures Valid()
      ensures State() == RefillStep(Configuration(), old(State()))
      ensures old(isShutdown) ==> permits == old(permits)
      ensures !old(isShutdown) ==> (permits as int == old(permits) as int + 1 <==> old(permits) < maxTokens)
      ensures isShutdown == old(isShutdown)
    {
      if isShutdown {
        return;
      }
      var available := permits;
      if available < maxTokens {
        permits := permits + 1;
      }
    }

    /** `shutdown`: raises the flag once; a second call returns with no effect. */
    method Shutdown()
      requires Valid()
      modifies this
      ensures Valid()
      ensures State() == ShutdownStep(old(State()))
      ensures isShutdown && permits == old(permits)
      ensures old(isShutdown) ==> State() == old(State())
    {
      if isShutdown {
        return;
      }
      isShutdown := true;
    }
  }
}
