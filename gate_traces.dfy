/**
 * Runs of the admission gate: any sequential interleaving of document
 * creations, refill ticks and shutdown calls, and what holds of all of them.
 */
module GateTraces {
  import opened JavaInts
  import opened ApiResults
  import opened LimiterConfig
  import opened Gate

  /** One call into the limiter, by a client or by the refill timer. */
  datatype Event =
    | CreateDocument(postOk: bool, interrupted: bool)
    | RefillTick
    | ShutdownCall

  /** The state after one event. */
  function Apply(c: Config, s: GateState, e: Event): GateState {
    match e
    case CreateDocument(postOk, interrupted) => CreateStep(s, postOk, interrupted).0
    case RefillTick => RefillStep(c, s)
    case ShutdownCall => ShutdownStep(s)
  }

  /** The state after a sequence of events, in order. */
  function Run(c: Config, s: GateState, events: seq<Event>): GateState
    decreases |events|
  {
    if events == [] then s else Run(c, Apply(c, s, events[0]), events[1..])
  }

  /** What each createDocument in the sequence ended in, in order. */
  function Outcomes(c: Config, s: GateState, events: seq<Event>): seq<Outcome>
    decreases |events|
  {
    if events == [] then []
    else
      var here := match events[0]
        case CreateDocument(postOk, interrupted) => [CreateStep(s, postOk, interrupted).1]
        case _ => [];
      here + Outcomes(c, Apply(c, s, events[0]), events[1..])
  }

  /** How many createDocument calls a sequence holds. */
  function CountCreates(events: seq<Event>): nat {
    if events == [] then 0
    else (if events[0].CreateDocument? then 1 else 0) + CountCreates(events[1..])
  }

  /** How many refill ticks a sequence holds. */
  function CountRefills(events: seq<Event>): nat {
    if events == [] then 0
    else (if events[0].RefillTick? then 1 else 0) + CountRefills(events[1..])
  }

  /** How many outcomes consumed a permit. */
  function CountGranted(outcomes: seq<Outcome>): nat {
    if outcomes == [] then 0
    else (if Granted(outcomes[0]) then 1 else 0) + CountGranted(outcomes[1..])
  }

  /** createDocument calls in a row, none of them interrupted, with the given post results. */
  function Burst(postOks: seq<bool>): seq<Event> {
    if postOks == [] then [] else [CreateDocument(postOks[0], false)] + Burst(postOks[1..])
  }

  /** Running two sequences one after the other is running their concatenation. */
  lemma {:induction false} RunAppend(c: Config, s: GateState, first: seq<Event>, second: seq<Event>)
    ensures Run(c, s, first + second) == Run(c, Run(c, s, first), second)
    ensures Outcomes(c, s, first + second) == Outcomes(c, s, first) + Outcomes(c, Run(c, s, first), second)
    decreases |first|
  {
    if first == [] {
      assert first + second == second;
    } else {
      assert (first + second)[0] == first[0];
      assert (first + second)[1..] == first[1..] + second;
      RunAppend(c, Apply(c, s, first[0]), first[1..], second);
    }
  }

  /**
   * Starting within range, the permit count stays between zero and the
   * limit whatever the clients and the timer do, in whatever order.
   */
  lemma {:induction false} RunStaysInRange(c: Config, s: GateState, events: seq<Event>)
    requires ValidConfig(c) && InRange(c, s)
    ensures InRange(c, Run(c, s, events))
    decreases |events|
  {
    if events != [] {
      RunStaysInRange(c, Apply(c, s, events[0]), events[1..]);
    }
  }

  /**
   * Shutdown is final: once the flag is up no event changes the state again,
   * and every later createDocument fails with IllegalState.
   */
  lemma {:induction false} ShutdownIsFinal(c: Config, s: GateState, events: seq<Event>)
    requires s.isShutdown
    ensures Run(c, s, events) == s
    ensures |Outcomes(c, s, events)| == CountCreates(events)
    ensures forall i :: 0 <= i < |Outcomes(c, s, events)| ==> Outcomes(c, s, events)[i] == Failed(IllegalState)
    decreases |events|
  {
    if events != [] {
      ShutdownIsFinal(c, s, events[1..]);
      assert Apply(c, s, events[0]) == s;
    }
  }

  /**
   * After a shutdown call, whatever came before it, the limiter refuses
   * every createDocument and never changes its permit count again.
   */
  lemma AcquireFailsAfterShutdown(c: Config, s: GateState, before: seq<Event>, after: seq<Event>)
    ensures Run(c, s, before + [ShutdownCall] + after).isShutdown
    ensures Run(c, s, before + [ShutdownCall] + after).permits == Run(c, s, before).permits
    ensures Outcomes(c, s, before + [ShutdownCall] + after)
      == Outcomes(c, s, before) + seq(CountCreates(after), _ => Failed(IllegalState))
  {
    var mid := Run(c, s, before);
    var closed := ShutdownStep(mid);
    RunAppend(c, s, before, [ShutdownCall]);
    RunAppend(c, s, before + [ShutdownCall], after);
    assert Run(c, mid, [ShutdownCall]) == closed;
    assert Outcomes(c, mid, [ShutdownCall]) == [];
    ShutdownIsFinal(c, closed, after);
  }

  /**
   * The rate limit itself: the permits consumed over any run, plus those
   * still available at its end, never exceed the permits available at its
   * start plus one per refill tick.
   */
  lemma {:induction false} GrantsBoundedByRefills(c: Config, s: GateState, events: seq<Event>)
    ensures CountGranted(Outcomes(c, s, events)) + Run(c, s, events).permits as int
      <= s.permits as int + CountRefills(events)
    decreases |events|
  {
    if events != [] {
      var e, next := events[0], Apply(c, s, events[0]);
      GrantsBoundedByRefills(c, next, events[1..]);
      var here := Outcomes(c, s, [e]);
      assert Outcomes(c, s, events) == here + Outcomes(c, next, events[1..]) by {
        assert events == [e] + events[1..];
        RunAppend(c, s, [e], events[1..]);
      }
      GrantedAppend(here, Outcomes(c, next, events[1..]));
    }
  }

  /** Granted outcomes of a concatenation add up. */
  lemma {:induction false} GrantedAppend(a: seq<Outcome>, b: seq<Outcome>)
    ensures CountGranted(a + b) == CountGranted(a) + CountGranted(b)
    decreases |a|
  {
    if a == [] {
      assert a + b == b;
    } else {
      assert (a + b)[0] == a[0] && (a + b)[1..] == a[1..] + b;
      GrantedAppend(a[1..], b);
    }
  }

  /**
   * From a fresh limiter, at most `maxTokens` plus one per refill tick
   * createDocument calls are ever admitted.
   */
  lemma FreshLimiterAdmitsAtMostLimitPlusRefills(c: Config, events: seq<Event>)
    requires ValidConfig(c)
    ensures CountGranted(Outcomes(c, Initial(c), events)) <= c.maxTokens as int + CountRefills(events)
  {
    GrantsBoundedByRefills(c, Initial(c), events);
    RunStaysInRange(c, Initial(c), events);
  }

  /**
   * A live limiter with `p` permits admits `p` uninterrupted calls in a row
   * without waiting, each consuming one permit.
   */
  lemma {:induction false} BurstWithinPermits(c: Config, s: GateState, postOks: seq<bool>)
    requires !s.isShutdown && |postOks| <= s.permits as int
    ensures !Run(c, s, Burst(postOks)).isShutdown
    ensures Run(c, s, Burst(postOks)).permits as int == s.permits as int - |postOks|
    ensures |Outcomes(c, s, Burst(postOks))| == |postOks|
    ensures forall i :: 0 <= i < |postOks| ==>
      Outcomes(c, s, Burst(postOks))[i] == if postOks[i] then Posted else Failed(CreateFailed)
    decreases |postOks|
  {
    if postOks != [] {
      var e := CreateDocument(postOks[0], false);
      assert Burst(postOks)[0] == e && Burst(postOks)[1..] == Burst(postOks[1..]);
      BurstWithinPermits(c, Apply(c, s, e), postOks[1..]);
    }
  }

  /**
   * A freshly built limiter with limit C lets C uninterrupted calls through
   * at once, and the next one has to wait.
   */
  lemma ColdStartAdmitsExactlyLimit(c: Config, postOks: seq<bool>)
    requires ValidConfig(c) && |postOks| == c.maxTokens as int + 1
    ensures |Outcomes(c, Initial(c), Burst(postOks))| == |postOks|
    ensures forall i :: 0 <= i < c.maxTokens as int ==> Granted(Outcomes(c, Initial(c), Burst(postOks))[i])
    ensures Outcomes(c, Initial(c), Burst(postOks))[c.maxTokens as int] == WouldBlock
  {
    var n := c.maxTokens as int;
    var head, last := postOks[..n], postOks[n..];
    assert postOks == head + last;
    BurstAppend(head, last);
    RunAppend(c, Initial(c), Burst(head), Burst(last));
    BurstWithinPermits(c, Initial(c), head);
    var empty := Run(c, Initial(c), Burst(head));
    assert Burst(last) == [CreateDocument(last[0], false)];
    assert Outcomes(c, empty, Burst(last)) == [WouldBlock];
  }

  /** Bursts of two sequences of calls concatenate. */
  lemma {:induction false} BurstAppend(a: seq<bool>, b: seq<bool>)
    ensures Burst(a + b) == Burst(a) + Burst(b)
    decreases |a|
  {
    if a == [] {
      assert a + b == b;
    } else {
      assert (a + b)[0] == a[0] && (a + b)[1..] == a[1..] + b;
      BurstAppend(a[1..], b);
    }
  }
}
