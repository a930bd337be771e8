/** The periodic health prober of one tunnel (src/health-checker.ts).

    The probe's HTTP round trip and the clock are outside the model: a cycle
    receives the probe's outcome and the current time as parameters. The
    interval timer is represented by the URL it probes (`None` when no
    interval is installed). Emitted events are returned as sequences. */
module Health {
  import opened Wrappers

  /** The `healthCheck` options as a caller passes them: every field optional. */
  datatype HealthCheckOptions = HealthCheckOptions(
    enabled: Option<bool>,
    interval: Option<int>,
    timeout: Option<int>,
    maxFailures: Option<int>)

  /** The policy after defaults have been merged in. */
  datatype HealthConfig = HealthConfig(enabled: bool, interval: int, timeout: int, maxFailures: int)

  const DefaultEnabled: bool := true
  const DefaultInterval: int := 15000
  const DefaultTimeout: int := 5000
  const DefaultMaxFailures: int := 3

  /** `{ enabled: true, interval: 15000, timeout: 5000, maxFailures: 3, ...config }`. */
  function ResolveHealthConfig(options: Option<HealthCheckOptions>): (c: HealthConfig)
    ensures options.None? ==>
      c == HealthConfig(DefaultEnabled, DefaultInterval, DefaultTimeout, DefaultMaxFailures)
    ensures options.Some? ==>
      && (options.value.enabled.Some? ==> c.enabled == options.value.enabled.value)
      && (options.value.enabled.None? ==> c.enabled == DefaultEnabled)
      && (options.value.interval.Some? ==> c.interval == options.value.interval.value)
      && (options.value.interval.None? ==> c.interval == DefaultInterval)
      && (options.value.timeout.Some? ==> c.timeout == options.value.timeout.value)
      && (options.value.timeout.None? ==> c.timeout == DefaultTimeout)
      && (options.value.maxFailures.Some? ==> c.maxFailures == options.value.maxFailures.value)
      && (options.value.maxFailures.None? ==> c.maxFailures == DefaultMaxFailures)
  {
    match options
    case None => HealthConfig(DefaultEnabled, DefaultInterval, DefaultTimeout, DefaultMaxFailures)
    case Some(o) =>
      HealthConfig(
        o.enabled.GetOr(DefaultEnabled),
        o.interval.GetOr(DefaultInterval),
        o.timeout.GetOr(DefaultTimeout),
        o.maxFailures.GetOr(DefaultMaxFailures))
  }

  /** What the probe's request produced: an HTTP response, or no response at all
      (network error, timeout). */
  datatype ProbeOutcome = Response(status: int) | RequestError(message: string)

  /** Why a cycle failed. */
  datatype HealthError = StatusRejected(status: int) | RequestFailed(message: string)

  datatype HealthEvent =
    | Healthy
    | Unhealthy(error: HealthError, failureCount: nat)
    | Critical(error: HealthError)

  datatype HealthStatus = HealthStatus(
    isHealthy: bool,
    failureCount: nat,
    lastSuccessfulCheck: int,
    timeSinceLastSuccess: int)

  /** The `validateStatus` callback: any status in [200, 500) is liveness evidence. */
  predicate ValidateStatus(status: int) {
    200 <= status < 500
  }

  /** The error a probe outcome raises, or `None` when the cycle succeeds. */
  function Classify(probe: ProbeOutcome): (e: Option<HealthError>)
    ensures e.None? <==> probe.Response? && 200 <= probe.status < 500
    ensures probe.Response? && e.Some? ==> e.value == StatusRejected(probe.status)
    ensures probe.RequestError? ==> e == Some(RequestFailed(probe.message))
  {
    match probe
    case Response(status) => if ValidateStatus(status) then None else Some(StatusRejected(status))
    case RequestError(message) => Some(RequestFailed(message))
  }

  /** The part of the checker's state a cycle changes. */
  datatype Counter = Counter(failureCount: nat, lastSuccessfulCheck: int)

  /** The new counter and the events one cycle emits. */
  datatype Step = Step(counter: Counter, events: seq<HealthEvent>)

  /** `onHealthCheckSuccess`. */
  function SuccessStep(now: int): Step {
    Step(Counter(0, now), [Healthy])
  }

  /** `onHealthCheckFailure`: count the failure, report it, and escalate at or
      above the threshold. */
  function FailureStep(c: Counter, error: HealthError, maxFailures: int): Step {
    var n := c.failureCount + 1;
    Step(Counter(n, c.lastSuccessfulCheck),
         [Unhealthy(error, n)] + if n >= maxFailures then [Critical(error)] else [])
  }

  /** `performHealthCheck` once the request has settled. Each cycle fails exactly
      when its probe fails; a failed cycle increments the counter by exactly one and
      reports the new count, escalating at or above the threshold; a succeeded cycle
      resets the counter to zero and records the time. */
  function Cycle(c: Counter, probe: ProbeOutcome, now: int, maxFailures: int): (s: Step)
    ensures Classify(probe).None? ==> s.counter == Counter(0, now) && s.events == [Healthy]
    ensures Classify(probe).Some? ==>
      && s.counter.failureCount == c.failureCount + 1
      && s.counter.lastSuccessfulCheck == c.lastSuccessfulCheck
      && |s.events| == (if s.counter.failureCount >= maxFailures then 2 else 1)
      && s.events[0] == Unhealthy(Classify(probe).value, s.counter.failureCount)
      && (Critical(Classify(probe).value) in s.events <==> s.counter.failureCount >= maxFailures)
  {
    match Classify(probe)
    case None => SuccessStep(now)
    case Some(e) => FailureStep(c, e, maxFailures)
  }

  /** `getStatus` on a counter. */
  function StatusOf(c: Counter, maxFailures: int, now: int): HealthStatus {
    HealthStatus(c.failureCount < maxFailures, c.failureCount, c.lastSuccessfulCheck,
                 now - c.lastSuccessfulCheck)
  }

  /** One probe: its outcome and the time it settled. */
  datatype Probe = Probe(outcome: ProbeOutcome, at: int)

  /** The counter after a series of cycles and the events of each cycle. */
  datatype Trace = Trace(final: Counter, events: seq<seq<HealthEvent>>)

  function Run(c: Counter, probes: seq<Probe>, maxFailures: int): (t: Trace)
    ensures |t.events| == |probes|
  {
    if probes == [] then Trace(c, [])
    else
      var before := Run(c, probes[..|probes| - 1], maxFailures);
      var last := probes[|probes| - 1];
      var step := Cycle(before.final, last.outcome, last.at, maxFailures);
      Trace(step.counter, before.events + [step.events])
  }

  predicate Fails(p: Probe) {
    Classify(p.outcome).Some?
  }

  /** The number of failed probes at the end of the series, after its last success. */
  function TrailingFailures(probes: seq<Probe>): nat {
    if probes == [] || !Fails(probes[|probes| - 1]) then 0
    else 1 + TrailingFailures(probes[..|probes| - 1])
  }

  /** The counter counts consecutive failures exactly: after any series of cycles it
      equals the failures since the last success (plus the starting count when there
      was no success), and the last success time is that of the last successful probe. */
  lemma {:induction false} RunCountsConsecutiveFailures(c: Counter, probes: seq<Probe>, maxFailures: int)
    ensures var t := Run(c, probes, maxFailures);
      && (TrailingFailures(probes) == |probes| ==>
            t.final == Counter(c.failureCount + |probes|, c.lastSuccessfulCheck))
      && (TrailingFailures(probes) < |probes| ==>
            t.final == Counter(TrailingFailures(probes),
                               probes[|probes| - 1 - TrailingFailures(probes)].at))
  {
    if probes != [] {
      var init := probes[..|probes| - 1];
      RunCountsConsecutiveFailures(c, init, maxFailures);
      var k := TrailingFailures(init);
      if Fails(probes[|probes| - 1]) && k < |init| {
        assert probes[|probes| - 1 - TrailingFailures(probes)] == init[|init| - 1 - k];
      }
    }
  }

  /** The events of cycle `k` depend only on the cycles before it. */
  lemma {:induction false} RunPrefix(c: Counter, probes: seq<Probe>, maxFailures: int, k: nat)
    requires k < |probes|
    ensures Run(c, probes, maxFailures).events[k]
         == Cycle(Run(c, probes[..k], maxFailures).final, probes[k].outcome, probes[k].at, maxFailures).events
  {
    if k < |probes| - 1 {
      var init := probes[..|probes| - 1];
      RunPrefix(c, init, maxFailures, k);
      assert init[..k] == probes[..k];
    } else {
      assert probes[..|probes| - 1] == probes[..k];
    }
  }

  /** Under sustained failure from a counter `c`, cycle `k` reports the count
      `c.failureCount + k + 1` and emits `critical` exactly when that count is at or
      above `maxFailures` — on every such cycle, not only the first crossing. */
  lemma {:induction false} SustainedFailure(c: Counter, probes: seq<Probe>, maxFailures: int, k: nat)
    requires forall i :: 0 <= i < |probes| ==> Fails(probes[i])
    requires k < |probes|
    ensures var ev := Run(c, probes, maxFailures).events[k];
      && Fails(probes[k]) && |ev| >= 1
      && ev[0] == Unhealthy(Classify(probes[k].outcome).value, c.failureCount + k + 1)
      && (Critical(Classify(probes[k].outcome).value) in ev <==> c.failureCount + k + 1 >= maxFailures)
  {
    RunPrefix(c, probes, maxFailures, k);
    var init := probes[..k];
    assert TrailingFailures(init) == |init| by {
      AllFailTrailing(init);
    }
    RunCountsConsecutiveFailures(c, init, maxFailures);
  }

  lemma {:induction false} AllFailTrailing(probes: seq<Probe>)
    requires forall i :: 0 <= i < |probes| ==> Fails(probes[i])
    ensures TrailingFailures(probes) == |probes|
  {
    if probes != [] {
      AllFailTrailing(probes[..|probes| - 1]);
    }
  }

  /** After any series of cycles the status is healthy exactly when fewer than
      `maxFailures` failures happened since the last success. */
  lemma HealthyAfterRun(c: Counter, probes: seq<Probe>, maxFailures: int, now: int)
    requires TrailingFailures(probes) < |probes|
    ensures StatusOf(Run(c, probes, maxFailures).final, maxFailures, now).isHealthy
        <==> TrailingFailures(probes) < maxFailures
  {
    RunCountsConsecutiveFailures(c, probes, maxFailures);
  }

  /** Appending a probe runs one more cycle on the counter reached so far. */
  lemma RunSnoc(c: Counter, probes: seq<Probe>, p: Probe, maxFailures: int)
    ensures var before := Run(c, probes, maxFailures);
      var step := Cycle(before.final, p.outcome, p.at, maxFailures);
      Run(c, probes + [p], maxFailures) == Trace(step.counter, before.events + [step.events])
  {
    assert (probes + [p])[..|probes|] == probes;
  }

  /** With `maxFailures = 2`, two failed cycles from a fresh checker emit `unhealthy`
      with count 1, then `unhealthy` with count 2 together with `critical`. */
  lemma SecondFailureIsCritical(start: int, e1: string, e2: string, t1: int, t2: int)
    ensures Run(Counter(0, start), [Probe(RequestError(e1), t1), Probe(RequestError(e2), t2)], 2).events
         == [[Unhealthy(RequestFailed(e1), 1)],
             [Unhealthy(RequestFailed(e2), 2), Critical(RequestFailed(e2))]]
  {
    var p1, p2 := Probe(RequestError(e1), t1), Probe(RequestError(e2), t2);
    var c := Counter(0, start);
    RunSnoc(c, [], p1, 2);
    assert [] + [p1] == [p1];
    assert Run(c, [], 2) == Trace(c, []);
    assert Classify(p1.outcome) == Some(RequestFailed(e1));
    assert Cycle(c, p1.outcome, t1, 2) == Step(Counter(1, start), [Unhealthy(RequestFailed(e1), 1)]);
    assert Run(c, [p1], 2) == Trace(Counter(1, start), [[Unhealthy(RequestFailed(e1), 1)]]);
    RunSnoc(c, [p1], p2, 2);
    assert [p1] + [p2] == [p1, p2];
    assert Cycle(Counter(1, start), p2.outcome, t2, 2)
        == Step(Counter(2, start), [Unhealthy(RequestFailed(e2), 2), Critical(RequestFailed(e2))]);
  }

  /** With `maxFailures = 1`, the first failed cycle emits `unhealthy` then `critical`. */
  lemma FirstFailureIsCriticalAtOne(start: int, e: string, t: int)
    ensures Run(Counter(0, start), [Probe(RequestError(e), t)], 1).events
         == [[Unhealthy(RequestFailed(e), 1), Critical(RequestFailed(e))]]
  {
    var p := Probe(RequestError(e), t);
    RunSnoc(Counter(0, start), [], p, 1);
    assert [] + [p] == [p];
    assert Run(Counter(0, start), [], 1) == Trace(Counter(0, start), []);
    assert Cycle(Counter(0, start), p.outcome, t, 1)
        == Step(Counter(1, start), [Unhealthy(RequestFailed(e), 1), Critical(RequestFailed(e))]);
  }

  class HealthChecker {
    const config: HealthConfig
    var failureCount: nat
    var lastSuccessfulCheck: int
    /** The URL the installed interval probes; `None` when no interval is installed. */
    var checkInterval: Option<string>

    function CounterOf(): Counter
      reads this
    {
      Counter(failureCount, lastSuccessfulCheck)
    }

    constructor (options: Option<HealthCheckOptions>, now: int)
      ensures config == ResolveHealthConfig(options)
      ensures failureCount == 0 && lastSuccessfulCheck == now
      ensures checkInterval == None
    {
      config := ResolveHealthConfig(options);
      failureCount := 0;
      lastSuccessfulCheck := now;
      checkInterval := None;
    }

    /** A disabled checker ignores `start`; otherwise any previous interval is
        cleared and exactly one interval probing `url` is installed. */
    method Start(url: string)
      modifies this
      ensures !config.enabled ==> checkInterval == old(checkInterval)
      ensures config.enabled ==> checkInterval == Some(url)
      ensures CounterOf() == old(CounterOf())
    {
      if !config.enabled {
        return;
      }
      Stop();
      checkInterval := Some(url);
    }

    /** Clears the interval if one is installed; safe to call at any time. */
    method Stop()
      modifies this
      ensures checkInterval == None
      ensures CounterOf() == old(CounterOf())
    {
      if checkInterval.Some? {
        checkInterval := None;
      }
    }

    /** One probe cycle once the request has settled: a status in [200, 500) takes
        the success path, anything else the failure path. */
    method PerformHealthCheck(probe: ProbeOutcome, now: int) returns (events: seq<HealthEvent>)
      modifies this
      ensures Step(CounterOf(), events) == Cycle(old(CounterOf()), probe, now, config.maxFailures)
      ensures checkInterval == old(checkInterval)
    {
      var error := Classify(probe);
      if error.None? {
        events := OnHealthCheckSuccess(now);
      } else {
        events := OnHealthCheckFailure(error.value);
      }
    }

    method OnHealthCheckSuccess(now: int) returns (events: seq<HealthEvent>)
      modifies this
      ensures failureCount == 0 && lastSuccessfulCheck == now
      ensures events == [Healthy]
      ensures checkInterval == old(checkInterval)
    {
      failureCount := 0;
      lastSuccessfulCheck := now;
      events := [Healthy];
    }

    method OnHealthCheckFailure(error: HealthError) returns (events: seq<HealthEvent>)
      modifies this
      ensures failureCount == old(failureCount) + 1
      ensures lastSuccessfulCheck == old(lastSuccessfulCheck)
      ensures |events| >= 1 && events[0] == Unhealthy(error, failureCount)
      ensures Critical(error) in events <==> failureCount >= config.maxFailures
      ensures Step(CounterOf(), events) == FailureStep(old(CounterOf()), error, config.maxFailures)
      ensures checkInterval == old(checkInterval)
    {
      failureCount := failureCount + 1;
      events := [Unhealthy(error, failureCount)];
      if failureCount >= config.maxFailures {
        events := events + [Critical(error)];
      }
    }

    /** The status snapshot: healthy exactly while the failure count is below the threshold. */
    function GetStatus(now: int): (s: HealthStatus)
      reads this
      ensures s.isHealthy <==> failureCount < config.maxFailures
      ensures s.failureCount == failureCount && s.lastSuccessfulCheck == lastSuccessfulCheck
      ensures s.timeSinceLastSuccess == now - lastSuccessfulCheck
    {
      StatusOf(CounterOf(), config.maxFailures, now)
    }
  }
}
