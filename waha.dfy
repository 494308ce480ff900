/**
 * The parts of the two scripts that talk to the WAHA messaging backend:
 * the configuration read from the environment, what counts as an accepted
 * send, and `wait_for_session_ready`, which polls the session status until
 * it is ready or the time budget is spent. HTTP requests are outcomes given
 * as parameters; time is the sum of the polls' own durations and the fixed
 * pauses between them.
 */
module Waha {
  import opened Base

  /** The environment variables the scripts read (`None` when unset). */
  datatype Config = Config(
    user: Option<string>,      // NIMER_USER
    password: Option<string>,  // NIMER_PASS
    endpoint: Option<string>,  // WAHA_ENDPOINT
    groupId: Option<string>,   // WAHA_GROUP_ID
    apiKey: Option<string>)    // WAHA_API_KEY

  /** Python truthiness of an environment value: set and not the empty string. */
  predicate Truthy(v: Option<string>)
  {
    v.Some? && v.value != ""
  }

  /** `all([WAHA_GROUP_ID, WAHA_API_KEY, WAHA_ENDPOINT])`, checked before every send. */
  predicate CanSend(c: Config)
  {
    Truthy(c.groupId) && Truthy(c.apiKey) && Truthy(c.endpoint)
  }

  /** The outcome of one `requests.post`: a status code or a `RequestException`. */
  datatype Reply = Status(code: int) | ConnectionError

  /** A send succeeds when it is attempted and the backend answers 200 or 201. */
  function Accepted(c: Config, reply: Reply): (ok: bool)
    ensures ok <==> CanSend(c) && (reply == Status(200) || reply == Status(201))
  {
    CanSend(c) && reply.Status? && reply.code in {200, 201}
  }

  /** The pause, in seconds, after every poll that is not ready. */
  const PollInterval: nat := 10
  /** The default `timeout_seconds` of `wait_for_session_ready`. */
  const DefaultTimeout: nat := 180

  /**
   * The outcome of one status request: a status code and the body's
   * `status` field (`None` when missing), or a `RequestException`.
   */
  datatype Probe = Answer(code: int, status: Option<string>) | Unreachable

  /** A probe reports a ready session: HTTP 200 with status CONNECTED or WORKING. */
  predicate IsReady(p: Probe)
  {
    p.Answer? && p.code == 200 && p.status in {Some("CONNECTED"), Some("WORKING")}
  }

  /** Seconds elapsed when poll `k` starts: the earlier polls' durations plus their pauses. */
  function Elapsed(latency: nat -> nat, k: nat): nat
  {
    if k == 0 then 0 else Elapsed(latency, k - 1) + latency(k - 1) + PollInterval
  }

  /** Whether the gate opened, and how many status requests it made. */
  datatype Gate = Gate(ready: bool, polls: nat)

  /** The polling loop from poll `i` on, as a function of the probes and their durations. */
  function PollFrom(probes: nat -> Probe, latency: nat -> nat, timeout: nat, i: nat): Gate
    decreases timeout - Elapsed(latency, i)
  {
    if Elapsed(latency, i) >= timeout then Gate(false, i)
    else if IsReady(probes(i)) then Gate(true, i + 1)
    else PollFrom(probes, latency, timeout, i + 1)
  }

  /** `wait_for_session_ready` given what each poll would see and how long it would take. */
  function AwaitReady(probes: nat -> Probe, latency: nat -> nat, timeout: nat): Gate
  {
    PollFrom(probes, latency, timeout, 0)
  }

  /** The polling loop: probe, return at the first ready answer, otherwise pause and retry. */
  method WaitForSessionReady(probes: nat -> Probe, latency: nat -> nat, timeout: nat)
    returns (ready: bool, polls: nat)
    ensures Gate(ready, polls) == AwaitReady(probes, latency, timeout)
  {
    var elapsed := 0;
    polls := 0;
    while elapsed < timeout
      invariant elapsed == Elapsed(latency, polls)
      invariant PollFrom(probes, latency, timeout, polls) == AwaitReady(probes, latency, timeout)
      decreases timeout - elapsed
    {
      var probe := probes(polls);
      if IsReady(probe) {
        return true, polls + 1;
      }
      elapsed := elapsed + latency(polls) + PollInterval;
      polls := polls + 1;
    }
    ready := false;
  }

  lemma {:induction false} PollFromReady(probes: nat -> Probe, latency: nat -> nat, timeout: nat, i: nat)
    ensures var g := PollFrom(probes, latency, timeout, i);
      g.ready ==> i < g.polls && IsReady(probes(g.polls - 1)) && Elapsed(latency, g.polls - 1) < timeout
                  && forall j :: i <= j < g.polls - 1 ==> !IsReady(probes(j))
    decreases timeout - Elapsed(latency, i)
  {
    if Elapsed(latency, i) < timeout && !IsReady(probes(i)) {
      PollFromReady(probes, latency, timeout, i + 1);
    }
  }

  lemma {:induction false} PollFromTimeout(probes: nat -> Probe, latency: nat -> nat, timeout: nat, i: nat)
    ensures var g := PollFrom(probes, latency, timeout, i);
      !g.ready ==> i <= g.polls && Elapsed(latency, g.polls) >= timeout
                   && (g.polls > i ==> Elapsed(latency, g.polls - 1) < timeout)
                   && forall j :: i <= j < g.polls ==> !IsReady(probes(j))
    decreases timeout - Elapsed(latency, i)
  {
    if Elapsed(latency, i) < timeout && !IsReady(probes(i)) {
      PollFromTimeout(probes, latency, timeout, i + 1);
    }
  }

  /**
   * The gate opens exactly at the first ready answer, provided that poll
   * started before the budget ran out; every earlier answer was a
   * non-200 code, a status other than CONNECTED/WORKING, or no answer.
   */
  lemma GateOpensAtFirstReady(probes: nat -> Probe, latency: nat -> nat, timeout: nat)
    ensures var g := AwaitReady(probes, latency, timeout);
      g.ready ==> g.polls >= 1 && IsReady(probes(g.polls - 1)) && Elapsed(latency, g.polls - 1) < timeout
                  && forall j :: 0 <= j < g.polls - 1 ==> !IsReady(probes(j))
  {
    PollFromReady(probes, latency, timeout, 0);
  }

  /**
   * When the gate stays closed, no poll it made was ready, the last poll
   * started inside the budget, and the budget is spent.
   */
  lemma GateClosesOnTimeout(probes: nat -> Probe, latency: nat -> nat, timeout: nat)
    ensures var g := AwaitReady(probes, latency, timeout);
      !g.ready ==> Elapsed(latency, g.polls) >= timeout
                   && (g.polls > 0 ==> Elapsed(latency, g.polls - 1) < timeout)
                   && forall j :: 0 <= j < g.polls ==> !IsReady(probes(j))
  {
    PollFromTimeout(probes, latency, timeout, 0);
  }

  lemma {:induction false} PollFromFindsReady(probes: nat -> Probe, latency: nat -> nat, timeout: nat, i: nat, k: nat)
    requires i <= k && IsReady(probes(k)) && Elapsed(latency, k) < timeout
    ensures PollFrom(probes, latency, timeout, i).ready
    decreases k - i
  {
    ElapsedMonotone(latency, i, k);
    if !IsReady(probes(i)) {
      PollFromFindsReady(probes, latency, timeout, i + 1, k);
    }
  }

  lemma {:induction false} ElapsedMonotone(latency: nat -> nat, i: nat, k: nat)
    requires i <= k
    ensures Elapsed(latency, i) <= Elapsed(latency, k)
    decreases k - i
  {
    if i < k {
      ElapsedMonotone(latency, i, k - 1);
    }
  }

  /** A ready answer to any poll that starts inside the budget opens the gate. */
  lemma GateOpensIfReadyInTime(probes: nat -> Probe, latency: nat -> nat, timeout: nat, k: nat)
    requires IsReady(probes(k)) && Elapsed(latency, k) < timeout
    ensures AwaitReady(probes, latency, timeout).ready
  {
    PollFromFindsReady(probes, latency, timeout, 0, k);
  }

  lemma {:induction false} PollFromNeverReady(probes: nat -> Probe, latency: nat -> nat, timeout: nat, i: nat)
    requires forall j :: !IsReady(probes(j))
    requires forall j :: latency(j) == 0
    requires Elapsed(latency, i) == PollInterval * i
    ensures PollFrom(probes, latency, timeout, i) == Gate(false, if i * PollInterval >= timeout then i else (timeout + PollInterval - 1) / PollInterval)
    decreases timeout - Elapsed(latency, i)
  {
    if Elapsed(latency, i) < timeout {
      PollFromNeverReady(probes, latency, timeout, i + 1);
    }
  }

  /**
   * A session that never becomes ready, polled with instant answers, makes
   * the gate give up after ceil(timeout / 10) polls, i.e. once the pauses
   * have filled the budget.
   */
  lemma GateGivesUpOnSilentSession(probes: nat -> Probe, latency: nat -> nat, timeout: nat)
    requires forall j :: !IsReady(probes(j))
    requires forall j :: latency(j) == 0
    ensures AwaitReady(probes, latency, timeout) == Gate(false, (timeout + PollInterval - 1) / PollInterval)
  {
    PollFromNeverReady(probes, latency, timeout, 0);
  }
}
