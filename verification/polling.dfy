/** The access poller of src/composables/usePolling.ts: after payment it probes an
    authorization endpoint, at most one probe at a time, until a 2xx answer grants
    access or the caller stops it.

    A probe is asynchronous. Its synchronous part, up to the awaited `fetch`, is
    `BeginProbe`; what runs once the fetch settles is `FinishProbe`, given the
    outcome of the fetch and the current time. The interval timer and the
    continuation that auto-stops the poller are events of their own (`TimerTick`,
    `ProbeSettled`). The network, the clock and the timer ids are inputs. */
module Polling {
  import opened Js

  /** The configuration object. An endpoint that is missing or not a string is
      `None`; an interval that is missing or NaN is `None`. */
  datatype PollingConfig = PollingConfig(endpoint: Option<string>, interval: Option<int>)

  /** `{ success, shouldRedirect, error? }`. */
  datatype PollingResult = PollingResult(success: bool, shouldRedirect: bool, error: Option<string>)

  /** How a fetch settles: a response with its HTTP status, or a thrown error
      with its `name` and `message`. */
  datatype ProbeOutcome = Response(status: int) | Thrown(name: string, message: string)

  /** What a settled probe does to `errorCount`. */
  datatype CounterEffect = Reset | Keep | Increment

  datatype Verdict = Verdict(result: PollingResult, counter: CounterEffect)

  const EndpointError: string := "Invalid polling config: endpoint must be a valid URL string"
  const IntervalError: string := "Invalid polling config: interval must be at least 1000ms"
  const NetworkFailed: string := "Network connection failed"
  const CorsBlocked: string := "CORS policy blocked request"
  const UnknownNetworkError: string := "Unknown network error"

  /** The result of a probe that was skipped or did not grant access. */
  const NotReady: PollingResult := PollingResult(false, false, None)

  /** The checks `usePolling` makes before building a poller: the error it throws,
      if any. The endpoint is checked first. */
  function ConfigError(config: PollingConfig): (err: Option<string>)
    ensures err.None? <==>
      config.endpoint.Some? && config.endpoint.value != "" &&
      config.interval.Some? && config.interval.value >= 1000
    ensures (config.endpoint.None? || config.endpoint == Some("")) ==> err == Some(EndpointError)
    ensures config.endpoint.Some? && config.endpoint.value != "" &&
            (config.interval.None? || config.interval.value < 1000)
            ==> err == Some(IntervalError)
    ensures err.Some? ==> err == Some(EndpointError) || err == Some(IntervalError)
  {
    if config.endpoint.None? || config.endpoint.value == "" then Some(EndpointError)
    // a missing interval and the falsy 0 of `!config.interval` fail like any value below 1000
    else if config.interval.None? || config.interval.value < 1000 then Some(IntervalError)
    else None
  }

  /** `response.ok`: a status in 200..299. */
  predicate IsOk(status: int)
  {
    200 <= status < 300
  }

  /** What a settled probe reports and how it moves the error counter, branch for
      branch as the try/catch of `checkEndpoint`. */
  function Classify(outcome: ProbeOutcome): (v: Verdict)
    // only a 2xx answer grants access, and it always does
    ensures v.result.shouldRedirect <==> outcome.Response? && IsOk(outcome.status)
    ensures v.result.success == v.result.shouldRedirect
    // a 2xx answer clears the counter, other answers keep it, every throw bumps it
    ensures v.counter == Reset <==> outcome.Response? && IsOk(outcome.status)
    ensures v.counter == Increment <==> outcome.Thrown?
    // answers and aborts carry no error text; every other throw carries a non-empty one
    ensures v.result.error.None? <==> outcome.Response? || outcome.name == "AbortError"
    ensures v.result.error.Some? ==> v.result.error.value != ""
    // the classification order: abort, then fetch TypeError, then CORS, then the message
    ensures outcome.Thrown? && outcome.name != "AbortError" &&
            outcome.name == "TypeError" && Contains(outcome.message, "fetch")
            ==> v.result.error == Some(NetworkFailed)
    ensures outcome.Thrown? && outcome.name != "AbortError" &&
            !(outcome.name == "TypeError" && Contains(outcome.message, "fetch")) &&
            Contains(outcome.message, "CORS")
            ==> v.result.error == Some(CorsBlocked)
    ensures outcome.Thrown? && outcome.name != "AbortError" &&
            !(outcome.name == "TypeError" && Contains(outcome.message, "fetch")) &&
            !Contains(outcome.message, "CORS")
            ==> v.result.error == Some(OrElse(outcome.message, UnknownNetworkError))
  {
    match outcome
    case Response(status) =>
      if IsOk(status) then Verdict(PollingResult(true, true, None), Reset)
      else Verdict(NotReady, Keep)
    case Thrown(name, message) =>
      if name == "AbortError" then Verdict(NotReady, Increment)
      else if name == "TypeError" && Contains(message, "fetch") then
        Verdict(PollingResult(false, false, Some(NetworkFailed)), Increment)
      else if Contains(message, "CORS") then
        Verdict(PollingResult(false, false, Some(CorsBlocked)), Increment)
      else
        Verdict(PollingResult(false, false, Some(OrElse(message, UnknownNetworkError))), Increment)
  }

  /** The counter after a settled probe. */
  function NextErrorCount(count: nat, effect: CounterEffect): nat
  {
    match effect
    case Reset => 0
    case Keep => count
    case Increment => count + 1
  }

  /** The counter after a run of settled probes, one `NextErrorCount` per probe. */
  function CountAfter(count: nat, outcomes: seq<ProbeOutcome>): nat
  {
    if outcomes == [] then count
    else NextErrorCount(CountAfter(count, outcomes[..|outcomes| - 1]), Classify(outcomes[|outcomes| - 1]).counter)
  }

  predicate IsGrant(o: ProbeOutcome)
  {
    o.Response? && IsOk(o.status)
  }

  /** The number of thrown outcomes in `outcomes`. */
  function Throws(outcomes: seq<ProbeOutcome>): nat
  {
    if outcomes == [] then 0
    else Throws(outcomes[..|outcomes| - 1]) + (if outcomes[|outcomes| - 1].Thrown? then 1 else 0)
  }

  /** The counter counts the failed requests since the last 2xx answer (or since
      `count` when no probe has granted access): non-2xx answers leave it alone.
      `k` is the index just past the last grant. */
  lemma {:induction false} CountAfterMeaning(count: nat, outcomes: seq<ProbeOutcome>, k: nat)
    requires k <= |outcomes|
    requires k > 0 ==> IsGrant(outcomes[k - 1])
    requires forall j :: k <= j < |outcomes| ==> !IsGrant(outcomes[j])
    ensures CountAfter(count, outcomes) == (if k == 0 then count else 0) + Throws(outcomes[k..])
    decreases |outcomes|
  {
    if |outcomes| == k {
      assert outcomes[k..] == [];
      if k > 0 {
        assert Classify(outcomes[k - 1]).counter == Reset;
      }
    } else {
      var init, last := outcomes[..|outcomes| - 1], outcomes[|outcomes| - 1];
      assert forall j :: k <= j < |init| ==> init[j] == outcomes[j];
      if k > 0 {
        assert init[k - 1] == outcomes[k - 1];
      }
      CountAfterMeaning(count, init, k);
      assert outcomes[k..][..|outcomes[k..]| - 1] == init[k..];
      assert !IsGrant(last);
    }
  }

  /** A server that keeps answering "not ready" (any non-2xx status, 503
      included) never moves the counter. */
  lemma {:induction false} NotReadyKeepsCount(count: nat, outcomes: seq<ProbeOutcome>)
    requires forall j :: 0 <= j < |outcomes| ==> outcomes[j].Response? && !IsOk(outcomes[j].status)
    ensures CountAfter(count, outcomes) == count
  {
    if outcomes != [] {
      var init := outcomes[..|outcomes| - 1];
      assert forall j :: 0 <= j < |init| ==> init[j] == outcomes[j];
      NotReadyKeepsCount(count, init);
    }
  }

  /** Three CORS failures in a row from a fresh start leave the counter at 3. */
  lemma ThreeCorsFailures(message: string)
    requires Contains(message, "CORS")
    ensures CountAfter(0, [Thrown("Error", message), Thrown("Error", message), Thrown("Error", message)]) == 3
    ensures Classify(Thrown("Error", message)).result == PollingResult(false, false, Some(CorsBlocked))
  {
    var t := Thrown("Error", message);
    assert [t, t, t][..2] == [t, t];
    assert [t, t][..1] == [t];
    assert [t][..0] == [];
    assert Classify(t).counter == Increment;
    assert CountAfter(0, [t]) == 1;
    assert CountAfter(0, [t, t]) == 2;
  }

  /** The `AbortController` of a probe; only whether it was aborted matters. */
  class AbortController {
    var aborted: bool

    constructor ()
      ensures !aborted
    {
      aborted := false;
    }

    method Abort()
      modifies this
      ensures aborted
    {
      aborted := true;
    }
  }

  /** One poller: the reactive `state` and the closure variables of `usePolling`. */
  class Poller {
    const endpoint: string
    const interval: int

    // the reactive state
    var isPolling: bool
    var lastChecked: Option<int>
    var errorCount: nat

    // the closure variables
    var pollingTimer: Option<nat>
    var abortController: AbortController?
    var isRequestInProgress: bool

    /** A timer runs exactly while polling, and a controller exists exactly while
        a probe is in flight. */
    ghost predicate Valid()
      reads this
    {
      endpoint != "" && interval >= 1000 &&
      (pollingTimer.Some? <==> isPolling) &&
      ProbeValid()
    }

    /** The part of `Valid` a probe maintains on its own; `startPolling` begins its
        first probe before it arms the timer. */
    ghost predicate ProbeValid()
      reads this
    {
      abortController != null <==> isRequestInProgress
    }

    constructor (endpoint: string, interval: int)
      requires endpoint != "" && interval >= 1000
      ensures Valid()
      ensures this.endpoint == endpoint && this.interval == interval
      ensures !isPolling && lastChecked.None? && errorCount == 0
      ensures pollingTimer.None? && abortController == null && !isRequestInProgress
    {
      this.endpoint := endpoint;
      this.interval := interval;
      isPolling := false;
      lastChecked := None;
      errorCount := 0;
      pollingTimer := None;
      abortController := null;
      isRequestInProgress := false;
    }

    /** The synchronous part of `checkEndpoint`: skip when a probe is in flight,
        otherwise mark one in flight with a new controller and send the request. */
    method BeginProbe() returns (skipped: Option<PollingResult>)
      requires ProbeValid()
      modifies this
      ensures ProbeValid()
      ensures old(isRequestInProgress) ==> skipped == Some(NotReady) && unchanged(this)
      ensures !old(isRequestInProgress) ==>
        && skipped.None?
        && isRequestInProgress && abortController != null && fresh(abortController)
        && !abortController.aborted
        && isPolling == old(isPolling) && lastChecked == old(lastChecked)
        && errorCount == old(errorCount) && pollingTimer == old(pollingTimer)
    {
      if isRequestInProgress {
        return Some(NotReady);
      }
      isRequestInProgress := true;
      abortController := new AbortController();
      skipped := None;
    }

    /** The rest of `checkEndpoint` once the fetch settles: stamp `lastChecked`,
        classify, adjust the counter, and in `finally` drop the controller and clear
        the in-flight flag. */
    method FinishProbe(outcome: ProbeOutcome, now: int) returns (r: PollingResult)
      requires Valid()
      modifies this
      ensures Valid()
      ensures r == Classify(outcome).result
      ensures lastChecked == Some(now)
      ensures errorCount == NextErrorCount(old(errorCount), Classify(outcome).counter)
      ensures !isRequestInProgress && abortController == null
      ensures isPolling == old(isPolling) && pollingTimer == old(pollingTimer)
    {
      var verdict := Classify(outcome);
      match outcome {
        case Response(status) =>
          lastChecked := Some(now);
          if IsOk(status) {
            errorCount := 0;
          }
        case Thrown(_, _) =>
          errorCount := errorCount + 1;
          lastChecked := Some(now);
      }
      r := verdict.result;
      abortController := null;
      isRequestInProgress := false;
    }

    /** `checkEndpoint` run to completion with no other event in between. */
    method CheckEndpoint(outcome: ProbeOutcome, now: int) returns (r: PollingResult)
      requires Valid()
      modifies this
      ensures Valid()
      ensures old(isRequestInProgress) ==> r == NotReady && unchanged(this)
      ensures !old(isRequestInProgress) ==>
        && r == Classify(outcome).result
        && lastChecked == Some(now)
        && errorCount == NextErrorCount(old(errorCount), Classify(outcome).counter)
        && !isRequestInProgress && abortController == null
        && isPolling == old(isPolling) && pollingTimer == old(pollingTimer)
    {
      var skipped := BeginProbe();
      if skipped.Some? {
        return skipped.value;
      }
      r := FinishProbe(outcome, now);
    }

    /** `startPolling`: a no-op while polling; otherwise mark polling, clear the
        counter, begin the immediate probe and arm the interval timer `timer`. */
    method StartPolling(timer: nat) returns (probeStarted: bool)
      requires Valid()
      modifies this
      ensures Valid()
      ensures old(isPolling) ==> !probeStarted && unchanged(this)
      ensures !old(isPolling) ==>
        && isPolling && errorCount == 0 && pollingTimer == Some(timer)
        && lastChecked == old(lastChecked)
        && isRequestInProgress
        && probeStarted == !old(isRequestInProgress)
        && (probeStarted ==> fresh(abortController) && !abortController.aborted)
        && (!probeStarted ==> abortController == old(abortController))
    {
      if isPolling {
        return false;
      }
      isPolling := true;
      errorCount := 0;
      var skipped := BeginProbe();
      probeStarted := skipped.None?;
      pollingTimer := Some(timer);
    }

    /** One firing of the interval timer: nothing once polling has stopped,
        otherwise the synchronous part of a probe (skipped if one is in flight). */
    method TimerTick() returns (probeStarted: bool)
      requires Valid()
      modifies this
      ensures Valid()
      ensures probeStarted <==> old(isPolling) && !old(isRequestInProgress)
      ensures !probeStarted ==> unchanged(this)
      ensures probeStarted ==>
        && isRequestInProgress && fresh(abortController) && !abortController.aborted
        && isPolling && lastChecked == old(lastChecked)
        && errorCount == old(errorCount) && pollingTimer == old(pollingTimer)
    {
      if !isPolling {
        return false;
      }
      var skipped := BeginProbe();
      probeStarted := skipped.None?;
    }

    /** What follows a started probe, from `startPolling` or from a timer tick:
        finish it, and on a redirect stop polling before the access-granted
        notification. */
    method ProbeSettled(outcome: ProbeOutcome, now: int) returns (r: PollingResult)
      requires Valid()
      modifies this
      ensures Valid()
      ensures r == Classify(outcome).result
      ensures lastChecked == Some(now)
      ensures errorCount == NextErrorCount(old(errorCount), Classify(outcome).counter)
      ensures !isRequestInProgress && abortController == null
      ensures r.shouldRedirect ==> !isPolling && pollingTimer.None?
      ensures !r.shouldRedirect ==> isPolling == old(isPolling) && pollingTimer == old(pollingTimer)
    {
      r := FinishProbe(outcome, now);
      if r.shouldRedirect {
        StopPolling();
      }
    }

    /** `stopPolling`: a no-op unless polling; otherwise clear the timer, abort the
        probe in flight and clear the in-flight flag. */
    method StopPolling()
      requires Valid()
      modifies this, abortController
      ensures Valid()
      ensures !old(isPolling) ==> unchanged(this) && (old(abortController) != null ==> unchanged(old(abortController)))
      ensures old(isPolling) ==>
        && !isPolling && pollingTimer.None?
        && abortController == null && !isRequestInProgress
        && lastChecked == old(lastChecked) && errorCount == old(errorCount)
        && (old(abortController) != null ==> old(abortController).aborted)
    {
      if !isPolling {
        return;
      }
      isPolling := false;
      if pollingTimer.Some? {
        pollingTimer := None;
      }
      if abortController != null {
        abortController.Abort();
        abortController := null;
      }
      isRequestInProgress := false;
    }

    /** `cleanup`: stop, then reset `lastChecked` and the counter. */
    method Cleanup()
      requires Valid()
      modifies this, abortController
      ensures Valid()
      ensures !isPolling && pollingTimer.None? && lastChecked.None? && errorCount == 0
      ensures old(isPolling) ==> abortController == null && !isRequestInProgress
      ensures !old(isPolling) ==>
        abortController == old(abortController) && isRequestInProgress == old(isRequestInProgress)
      // the probe in flight is aborted only when polling was on
      ensures old(isPolling) && old(abortController) != null ==> old(abortController).aborted
      ensures !old(isPolling) && old(abortController) != null ==> unchanged(old(abortController))
    {
      StopPolling();
      lastChecked := None;
      errorCount := 0;
    }
  }

  /** `usePolling(config)`: throws on a bad configuration, otherwise a fresh,
      idle poller. */
  method UsePolling(config: PollingConfig) returns (r: Result<Poller, string>)
    ensures r.Failure? <==> ConfigError(config).Some?
    ensures r.Failure? ==> r.error == ConfigError(config).value
    ensures r.Success? ==>
      && fresh(r.value) && r.value.Valid()
      && r.value.endpoint == config.endpoint.value && r.value.interval == config.interval.value
      && !r.value.isPolling && r.value.lastChecked.None? && r.value.errorCount == 0
      && r.value.pollingTimer.None? && r.value.abortController == null
      && !r.value.isRequestInProgress
  {
    var err := ConfigError(config);
    if err.Some? {
      return Failure(err.value);
    }
    var poller := new Poller(config.endpoint.value, config.interval.value);
    r := Success(poller);
  }
}
