/**
 * The limiter's immutable configuration: the request limit and the refill
 * period derived from it, and the validation the constructor performs.
 */
module LimiterConfig {
  import opened JavaInts
  import opened ApiResults

  /** `maxTokens` and `tokenRefillPeriodNanos`, fixed once construction succeeds. */
  datatype Config = Config(maxTokens: int32, refillPeriodNanos: int64)

  /** What every successfully built configuration satisfies. */
  predicate ValidConfig(c: Config) {
    c.maxTokens > 0 && c.refillPeriodNanos >= 1
  }

  /**
   * The refill period: the time unit split evenly among the permits, in whole
   * nanoseconds, and never less than one nanosecond. `nanosInUnit` is what
   * `timeUnit.toNanos(1)` yields, which is positive for every time unit.
   */
  function RefillPeriod(nanosInUnit: int64, requestLimit: int32): (period: int64)
    requires nanosInUnit >= 1 && requestLimit >= 1
    ensures 1 <= period <= nanosInUnit
    // when the unit is long enough, `requestLimit` periods fit in it and one more does not
    ensures requestLimit as int <= nanosInUnit as int ==>
      period as int * requestLimit as int <= nanosInUnit as int < (period as int + 1) * requestLimit as int
    // otherwise the period is raised to the one-nanosecond floor
    ensures nanosInUnit as int < requestLimit as int ==> period == 1
  {
    var computed := nanosInUnit / requestLimit as int64;
    QuotientBrackets(nanosInUnit as int, requestLimit as int);
    QuotientRange(nanosInUnit as int, requestLimit as int);
    if computed <= 0 then 1 else computed
  }

  /** The quotient of Euclidean division is the largest multiple that fits. */
  lemma QuotientBrackets(n: int, d: int)
    requires n >= 0 && d >= 1
    ensures (n / d) * d <= n < (n / d + 1) * d
  {
  }

  /** A positive number divided by a positive one: between zero and itself, zero just when it is smaller. */
  lemma QuotientRange(n: int, d: int)
    requires n >= 1 && d >= 1
    ensures 0 <= n / d <= n
    ensures n < d <==> n / d == 0
  {
  }

  /**
   * The constructor's validation and computation: a non-positive limit is an
   * IllegalArgument failure; otherwise the limit becomes `maxTokens` and the
   * refill period is derived from it.
   */
  function MakeConfig(nanosInUnit: int64, requestLimit: int32): (r: Result<Config>)
    requires nanosInUnit >= 1
    ensures r.Failure? <==> requestLimit <= 0
    ensures r.Failure? ==> r.error == IllegalArgument
    ensures r.Success? ==> ValidConfig(r.value) && r.value.maxTokens == requestLimit
    ensures r.Success? ==> r.value.refillPeriodNanos == RefillPeriod(nanosInUnit, requestLimit)
    ensures r.Success? ==> r.value.refillPeriodNanos <= nanosInUnit
  {
    if requestLimit <= 0 then Failure(IllegalArgument)
    else Success(Config(requestLimit, RefillPeriod(nanosInUnit, requestLimit)))
  }
}
