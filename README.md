# CrptApi admission gate

A model of the rate limiter inside `CrptApi`, a client for a document-submission
endpoint. The limiter is a counting gate: a semaphore that starts with
`requestLimit` permits, one permit taken by every `createDocument` call and
never given back, one permit added back per tick of a refill timer (never above
the limit), and a shutdown flag that closes the gate for good. The refill
period is the time unit in nanoseconds divided by the limit, floored at one
nanosecond.

Threads are taken out and the operations are modelled one at a time:

- `limiter_config.dfy` (`LimiterConfig`): the immutable configuration, the
  constructor's validation and the refill-period arithmetic.
- `gate.dfy` (`Gate`): the mutable state (permit count, shutdown flag) and one
  step function per operation.
- `gate_traces.dfy` (`GateTraces`): runs of any sequence of `createDocument`
  calls, refill ticks and shutdown calls, and the properties that hold of every
  run: the count stays within `0..maxTokens`, shutdown is final, and no run
  admits more calls than the limit plus one per refill tick.
- `crpt_api.dfy` (`Api.CrptApi`): the object itself. `maxTokens` and
  `refillPeriodNanos` are `const` fields, so they cannot change after
  construction. `permits` and `isShutdown` are updated in place by the
  methods, and each method's postcondition says its new state is the matching
  `Gate` step applied to the old state.
- `java_ints.dfy`, `api_results.dfy`: Java's `int` and `long`, the exceptions
  as an error datatype, and the outcome of a call.

A caller that would block in `Semaphore.acquire` is reported as `WouldBlock`
(or `MustWait` from the acquire step), and the state stays as it was. In the
real program that caller waits until a refill tick.

The thread's interrupt status is a parameter. `Semaphore.acquire` checks it
before it looks at the permits, so an interrupted caller fails and no permit is
taken.

Whether `HttpClientApi.post` succeeds is a parameter, `postOk`. A failed post
still consumes its permit.

`timeUnit.toNanos(1)` is a parameter, `nanosInUnit`, which is at least 1.

Where the intended design of the limiter and its code differ, the model follows the code:

- The code does not release callers that are already blocked in `acquire`
  when `shutdown` is called. It stops the timer, so those callers are never
  woken again.
- An interrupted caller fails even when permits are available, not only while
  it is waiting.

## Model

| member | source | states |
|---|---|---|
| `LimiterConfig.RefillPeriod` | src/main/java/CrptApi.java:29-35 | the period is at least 1 and at most the nanoseconds in one unit; when the unit holds at least `requestLimit` nanoseconds, exactly `requestLimit` periods fit in the unit and one more does not; otherwise the period is 1 |
| `LimiterConfig.MakeConfig` | src/main/java/CrptApi.java:23-35 | construction fails with IllegalArgument exactly when `requestLimit <= 0`; otherwise `maxTokens == requestLimit` and the period is `RefillPeriod` of the inputs, between 1 and the unit |
| `Gate.AcquireStep` | src/main/java/CrptApi.java:57-64 | a permit is taken exactly when the caller is not interrupted and one is available; the count drops by exactly that one; the shutdown flag is untouched |
| `Gate.CreateStep` | src/main/java/CrptApi.java:47-74 | on a shut-down limiter the result is IllegalState and the state is unchanged; otherwise a permit is consumed exactly when the caller is not interrupted and one is available, and it is kept whether the post succeeds or fails; with no permit the caller would wait; interruption fails without consuming anything |
| `Gate.RefillStep` | src/main/java/CrptApi.java:77-85 | no effect after shutdown; otherwise the count grows by one exactly when it is below `maxTokens`, so it never rises above `maxTokens`; the flag is untouched |
| `Gate.ShutdownStep` | src/main/java/CrptApi.java:87-98 | the flag is raised and the permit count is unchanged; a second shutdown changes nothing |
| `GateTraces.RunStaysInRange` | src/main/java/CrptApi.java:37-85 | from any count within `0..maxTokens`, every sequence of createDocument calls, refill ticks and shutdowns keeps the count within `0..maxTokens` |
| `GateTraces.ShutdownIsFinal` | src/main/java/CrptApi.java:66-98 | once the flag is up no event changes the state, and every later createDocument fails with IllegalState |
| `GateTraces.AcquireFailsAfterShutdown` | src/main/java/CrptApi.java:66-98 | after a shutdown call, whatever came before, the flag stays up, the permit count is what it was at the shutdown, and every later createDocument fails with IllegalState |
| `GateTraces.GrantsBoundedByRefills` | src/main/java/CrptApi.java:57-85 | over any run, the permits consumed plus those left at the end are at most those available at the start plus one per refill tick |
| `GateTraces.FreshLimiterAdmitsAtMostLimitPlusRefills` | src/main/java/CrptApi.java:37-85 | a freshly built limiter admits at most `maxTokens` plus the number of refill ticks createDocument calls, in any sequential order of events |
| `GateTraces.BurstWithinPermits` | src/main/java/CrptApi.java:47-64 | a live limiter with `p` permits admits up to `p` uninterrupted calls in a row without waiting, each consuming exactly one permit and reporting its post's result |
| `GateTraces.ColdStartAdmitsExactlyLimit` | src/main/java/CrptApi.java:37-64 | a freshly built limiter with limit C admits C uninterrupted calls at once, and the call after them has to wait |
| `GateTraces.RunAppend` | src/main/java/CrptApi.java:47-98 | running two event sequences one after the other gives the same state and outcomes as running their concatenation |
| `Api.CrptApi.Create` | src/main/java/CrptApi.java:23-45 | IllegalArgument exactly when `requestLimit <= 0`; otherwise a new, valid, live limiter with `maxTokens == permits == requestLimit` and the computed refill period |
| `Api.CrptApi.Init` | src/main/java/CrptApi.java:21-37 | the new object holds the given configuration, a full permit count, and is not shut down |
| `Api.CrptApi.EnsureNotShutdown` | src/main/java/CrptApi.java:66-75 | the caller may go on exactly when the limiter is not shut down |
| `Api.CrptApi.AcquireTokenBlocking` | src/main/java/CrptApi.java:57-64 | the new state and result are `AcquireStep` of the old state; a permit is taken exactly when the caller is not interrupted and one is available |
| `Api.CrptApi.CreateDocument` | src/main/java/CrptApi.java:47-55 | the new state and outcome are `CreateStep` of the old state; on a shut-down limiter the outcome is IllegalState and the count is untouched; the count drops by one exactly when the call is admitted; the flag is unchanged |
| `Api.CrptApi.RefillOneTokenIfNeeded` | src/main/java/CrptApi.java:77-85 | the new state is `RefillStep` of the old; no effect after shutdown; otherwise one permit is added exactly when fewer than `maxTokens` are available |
| `Api.CrptApi.Shutdown` | src/main/java/CrptApi.java:87-98 | the new state is `ShutdownStep` of the old: the flag is up, the permits are unchanged, and a second call has no effect |

## Left out

- `HttpClientApi.post` (HTTP request, JSON serialisation, Base64, settings read from system properties) is not part of this model. Its success or failure is the `postOk` parameter.
- `Document`, `Description` and `Product` hold data and have no behaviour. They are not part of this model.
- `TimeUnit.toNanos` is a library call. Its result for one unit is the `nanosInUnit` parameter.
- The scheduled executor and its timing are not modelled: the refill thread, the fixed-rate schedule with `refillPeriodNanos`, and `shutdownNow`. A refill tick is an event the environment may issue at any time, and `refillPeriodNanos` is only computed and stored.
- Blocking is not modelled. A call that would wait in `Semaphore.acquire` reports `WouldBlock` and changes nothing, and the caller may try again later.
- The semaphore's FIFO fairness is not modelled. The model has one caller at a time, so no caller is ever waiting.
- Concurrency is not modelled: the `ReentrantLock`, the `volatile` flag, and interleavings within one operation. Two examples are the gap between `ensureNotShutdown` and `acquire`, and the gap between `availablePermits` and `release` in the refill.
- Re-asserting the interrupt status (`Thread.currentThread().interrupt()`) is not modelled, because thread state is outside the model. Exception messages and the wrapping of exceptions are also left out.
