/*
 * The integration-test driver (pilot/test/integration/driver.go): the
 * bounded retry helper repeat, the per-check retry closure run by
 * parallel, setAuth and the test-selection loop of runTests.
 *
 * A call of a check or of a test hook is an input: the model takes the
 * result each numbered call returns. Sleeping, logging and the goroutines
 * of parallel are not modelled; each check's retry loop is modelled on
 * its own.
 */
module Driver {
  import opened Common

  // ---------------------------------------------------------------------
  // repeat

  /** multierror.Prefix(err, "attempt i"). */
  datatype AttemptError = AttemptError(attempt: nat, err: string)

  /** The index of the first call in [i, budget) that succeeds, budget when none does. */
  function FirstSuccess(f: nat -> Option<string>, budget: nat, i: nat): (k: nat)
    requires i <= budget
    ensures i <= k <= budget
    ensures forall j :: i <= j < k ==> f(j).Some?
    ensures k < budget ==> f(k).None?
    decreases budget - i
  {
    if i == budget then budget
    else if f(i).None? then i
    else FirstSuccess(f, budget, i + 1)
  }

  /** The errors of calls 0 .. n-1, each under its attempt number. */
  function AttemptErrors(f: nat -> Option<string>, n: nat): (errs: seq<AttemptError>)
    requires forall i :: 0 <= i < n ==> f(i).Some?
    ensures |errs| == n
    ensures forall i :: 0 <= i < n ==> errs[i] == AttemptError(i, f(i).value)
  {
    if n == 0 then [] else AttemptErrors(f, n - 1) + [AttemptError(n - 1, f(n - 1).value)]
  }

  /** What repeat(f, budget, delay) returns. */
  function RepeatOutcome(f: nat -> Option<string>, budget: int): Option<seq<AttemptError>>
  {
    var n := if budget < 0 then 0 else budget;
    if n == 0 || FirstSuccess(f, n, 0) < n then None else Some(AttemptErrors(f, n))
  }

  /**
   * repeat(f, budget, delay): f(i) is the error of the i-th call (None for
   * nil). The calls stop at the first success; if all budget calls fail,
   * the result lists every error with its attempt number.
   */
  method Repeat(f: nat -> Option<string>, budget: int) returns (r: Option<seq<AttemptError>>, calls: nat)
    ensures r == RepeatOutcome(f, budget)
    ensures var n := if budget < 0 then 0 else budget;
      var k := FirstSuccess(f, n, 0);
      && calls <= n
      && (k < n ==> calls == k + 1)
      && (k == n ==> calls == n)
  {
    var n := if budget < 0 then 0 else budget;
    var errs: Option<seq<AttemptError>> := None;
    var i := 0;
    while i < budget
      invariant 0 <= i <= n
      invariant forall j :: 0 <= j < i ==> f(j).Some?
      invariant FirstSuccess(f, n, 0) == FirstSuccess(f, n, i)
      invariant errs == if i == 0 then None else Some(AttemptErrors(f, i))
    {
      var err := f(i);
      if err.None? {
        return None, i + 1;
      }
      var prefixed := AttemptError(i, err.value);
      assert AttemptErrors(f, i + 1) == AttemptErrors(f, i) + [prefixed];
      if errs.None? {
        assert AttemptErrors(f, i) + [prefixed] == [prefixed];
        errs := Some([prefixed]);
      } else {
        errs := Some(errs.value + [prefixed]);
      }
      i := i + 1;
    }
    return errs, n;
  }

  /**
   * repeat returns nil after the first success, and nil without calling f
   * when the budget is not positive; when every call fails it returns
   * each call's error, prefixed with its attempt number, in order.
   */
  lemma RepeatOutcomeSpec(f: nat -> Option<string>, budget: int)
    ensures var n := if budget < 0 then 0 else budget;
      var r := RepeatOutcome(f, budget);
      && (r.None? <==> n == 0 || exists i :: 0 <= i < n && f(i).None?)
      && (r.Some? ==> |r.value| == n
                      && forall i :: 0 <= i < n ==> f(i).Some? && r.value[i] == AttemptError(i, f(i).value))
  {
    var n := if budget < 0 then 0 else budget;
    var k := FirstSuccess(f, n, 0);
    if k < n {
      assert f(k).None?;
    }
  }

  // ---------------------------------------------------------------------
  // The retry closure of parallel

  /** The retry budget of parallel. */
  const BUDGET: nat := 90

  /** The response of a request made from a test pod: its status codes and its body. */
  datatype Response = Response(code: seq<string>, body: string)

  /** What a check returns: nil, errAgain, or another error. */
  datatype Status = Success | Again | Failed(err: string)

  /** The errors the retry closure returns. */
  datatype TaskError =
    | FailedAt(name: string, attempt: nat, err: string)   // "failed %s at attempt %d: %v"
    | FailedAll(budget: nat, name: string)                // "failed all %d attempts for %s"

  /**
   * The first attempt in [i, BUDGET) that ends the loop: one that does not
   * ask to be retried, or after which the context was cancelled.
   */
  function FirstDecisive(f: nat -> Status, cancelled: nat -> bool, i: nat): (k: nat)
    requires i <= BUDGET
    ensures i <= k <= BUDGET
    ensures forall j :: i <= j < k ==> f(j) == Again && !cancelled(j)
    ensures k < BUDGET ==> f(k) != Again || cancelled(k)
    decreases BUDGET - i
  {
    if i == BUDGET then BUDGET
    else if f(i) != Again || cancelled(i) then i
    else FirstDecisive(f, cancelled, i + 1)
  }

  /**
   * The closure parallel runs for the check `name`: f(n) is the status of
   * attempt n, and cancelled(n) says the group's context was done when the
   * loop waited after attempt n.
   */
  method RetryTask(name: string, f: nat -> Status, cancelled: nat -> bool) returns (r: Option<TaskError>, calls: nat)
    ensures var k := FirstDecisive(f, cancelled, 0);
      && calls <= BUDGET
      && (k == BUDGET ==> r == Some(FailedAll(BUDGET, name)) && calls == BUDGET)
      && (k < BUDGET ==> calls == k + 1)
      && (k < BUDGET && f(k).Failed? ==> r == Some(FailedAt(name, k, f(k).err)))
      && (k < BUDGET && !f(k).Failed? ==> r.None?)
  {
    var n := 0;
    while n < BUDGET
      invariant 0 <= n <= BUDGET
      invariant FirstDecisive(f, cancelled, 0) == FirstDecisive(f, cancelled, n)
    {
      var err := f(n);
      if err.Success? {
        return None, n + 1;
      } else if err.Failed? {
        return Some(FailedAt(name, n, err.err)), n + 1;
      }
      if cancelled(n) {
        return None, n + 1;
      }
      n := n + 1;
    }
    return Some(FailedAll(BUDGET, name)), BUDGET;
  }

  /** A check that never fails hard can only end in success, cancellation or exhausting the budget. */
  lemma RetryWithoutHardFailure(f: nat -> Status, cancelled: nat -> bool)
    requires forall n :: !f(n).Failed?
    ensures var k := FirstDecisive(f, cancelled, 0);
      k == BUDGET || f(k) == Success || cancelled(k)
  {
  }

  // ---------------------------------------------------------------------
  // The test infrastructure and setAuth

  datatype MeshAuth = AuthNone | AuthMutualTls
  datatype ControlPlaneAuthPolicy = PolicyNone | PolicyMutualTls
  datatype Registry = Kubernetes | Consul | Eureka | OtherRegistry(name: string)

  const MIXER_CONFIG_FILE := "/etc/istio/proxy/envoy_mixer.json"
  const MIXER_CONFIG_AUTH_FILE := "/etc/istio/proxy/envoy_mixer_auth.json"
  const PILOT_CONFIG_FILE := "/etc/istio/proxy/envoy_pilot.json"
  const PILOT_CONFIG_AUTH_FILE := "/etc/istio/proxy/envoy_pilot_auth.json"

  /** The fields of infra the shown code sets or reads. */
  datatype Infra = Infra(
    name: string,
    hub: string,
    tag: string,
    istioNamespace: string,
    namespace: string,
    registry: Registry,
    verbosity: int,
    auth: MeshAuth,
    controlPlaneAuthPolicy: ControlPlaneAuthPolicy,
    mixerCustomConfigFile: string,
    pilotCustomConfigFile: string,
    ingress: bool,
    zipkin: bool,
    mixer: bool,
    useInitializer: bool,
    useAdmissionWebhook: bool,
    skipCleanup: bool,
    skipCleanupOnFailure: bool)

  /**
   * setAuth(params): a copy with mutual TLS and the auth proxy configs;
   * every other field is copied unchanged.
   */
  function SetAuth(params: Infra): (out: Infra)
    ensures out.name == "(auth infra)"
    ensures out.auth == AuthMutualTls && out.controlPlaneAuthPolicy == PolicyMutualTls
    ensures out.mixerCustomConfigFile == MIXER_CONFIG_AUTH_FILE && out.pilotCustomConfigFile == PILOT_CONFIG_AUTH_FILE
    ensures out.(name := params.name, auth := params.auth, controlPlaneAuthPolicy := params.controlPlaneAuthPolicy,
                 mixerCustomConfigFile := params.mixerCustomConfigFile,
                 pilotCustomConfigFile := params.pilotCustomConfigFile) == params
  {
    params.(name := "(auth infra)", auth := AuthMutualTls, controlPlaneAuthPolicy := PolicyMutualTls,
            mixerCustomConfigFile := MIXER_CONFIG_AUTH_FILE, pilotCustomConfigFile := PILOT_CONFIG_AUTH_FILE)
  }

  // ---------------------------------------------------------------------
  // The test loop of runTests

  /** What the loop does, in order. */
  datatype Event = SetUp(test: string, iteration: nat) | Ran(test: string, iteration: nat) | TornDown(test: string, iteration: nat)

  /** The errors the loop collects: Prefix(err, test) for setup, Prefix(err, "<test> run <i>") for run. */
  datatype TestError = SetupFailed(test: string, err: string) | RunFailed(test: string, iteration: nat, err: string)

  /** A hook's error for the given test and iteration; None for nil. */
  type Hook = (string, nat) -> Option<string>

  /** The user's -testtype selects a test by name; none selects all. */
  predicate Selected(testType: string, test: string)
  {
    |testType| == 0 || testType == test
  }

  function Iterations(count: int): nat
  {
    if count < 0 then 0 else count
  }

  function IterationEvents(test: string, i: nat, setup: Hook): seq<Event>
  {
    [SetUp(test, i)] + (if setup(test, i).None? then [Ran(test, i)] else []) + [TornDown(test, i)]
  }

  function IterationErrors(test: string, i: nat, setup: Hook, run: Hook): seq<TestError>
  {
    if setup(test, i).Some? then [SetupFailed(test, setup(test, i).value)]
    else if run(test, i).Some? then [RunFailed(test, i, run(test, i).value)]
    else []
  }

  function TestEvents(test: string, n: nat, setup: Hook): seq<Event>
  {
    if n == 0 then [] else TestEvents(test, n - 1, setup) + IterationEvents(test, n - 1, setup)
  }

  function TestErrors(test: string, n: nat, setup: Hook, run: Hook): seq<TestError>
  {
    if n == 0 then [] else TestErrors(test, n - 1, setup, run) + IterationErrors(test, n - 1, setup, run)
  }

  function AllEvents(tests: seq<string>, testType: string, count: int, setup: Hook): seq<Event>
  {
    if tests == [] then []
    else
      var last := tests[|tests| - 1];
      AllEvents(tests[..|tests| - 1], testType, count, setup)
        + (if Selected(testType, last) then TestEvents(last, Iterations(count), setup) else [])
  }

  function AllErrors(tests: seq<string>, testType: string, count: int, setup: Hook, run: Hook): seq<TestError>
  {
    if tests == [] then []
    else
      var last := tests[|tests| - 1];
      AllErrors(tests[..|tests| - 1], testType, count, setup, run)
        + (if Selected(testType, last) then TestErrors(last, Iterations(count), setup, run) else [])
  }

  /** One test, count times: set up, run when the setup succeeded, tear down. */
  method RunTest(test: string, count: int, setup: Hook, run: Hook,
                 events: seq<Event>, errs: seq<TestError>)
    returns (events': seq<Event>, errs': seq<TestError>)
    ensures events' == events + TestEvents(test, Iterations(count), setup)
    ensures errs' == errs + TestErrors(test, Iterations(count), setup, run)
  {
    events', errs' := events, errs;
    var i := 0;
    while i < count
      invariant 0 <= i <= Iterations(count)
      invariant events' == events + TestEvents(test, i, setup)
      invariant errs' == errs + TestErrors(test, i, setup, run)
    {
      events' := events' + [SetUp(test, i)];
      var setupErr := setup(test, i);
      if setupErr.Some? {
        errs' := errs' + [SetupFailed(test, setupErr.value)];
      } else {
        events' := events' + [Ran(test, i)];
        var runErr := run(test, i);
        if runErr.Some? {
          errs' := errs' + [RunFailed(test, i, runErr.value)];
        }
      }
      events' := events' + [TornDown(test, i)];
      i := i + 1;
    }
  }

  /** The test loop of runTests for one infrastructure. */
  method RunTests(tests: seq<string>, testType: string, count: int, setup: Hook, run: Hook)
    returns (errs: seq<TestError>, events: seq<Event>)
    ensures events == AllEvents(tests, testType, count, setup)
    ensures errs == AllErrors(tests, testType, count, setup, run)
  {
    events, errs := [], [];
    for t := 0 to |tests|
      invariant events == AllEvents(tests[..t], testType, count, setup)
      invariant errs == AllErrors(tests[..t], testType, count, setup, run)
    {
      assert tests[..t + 1][..t] == tests[..t];
      if |testType| > 0 && testType != tests[t] {
        continue;
      }
      events, errs := RunTest(tests[t], count, setup, run, events, errs);
    }
    assert tests[..|tests|] == tests;
  }

  lemma {:induction false} TestEventsMembers(test: string, n: nat, setup: Hook, e: Event)
    ensures e in TestEvents(test, n, setup) <==>
              && e.test == test && e.iteration < n
              && (e.Ran? ==> setup(test, e.iteration).None?)
  {
    if n > 0 {
      TestEventsMembers(test, n - 1, setup, e);
    }
  }

  /**
   * Which steps the loop takes: every iteration of a selected test is set
   * up and torn down, and it is run exactly when its setup succeeded; an
   * unselected test does nothing.
   */
  lemma {:induction false} AllEventsMembers(tests: seq<string>, testType: string, count: int, setup: Hook, e: Event)
    ensures e in AllEvents(tests, testType, count, setup) <==>
              && e.test in tests && Selected(testType, e.test) && e.iteration < count
              && (e.Ran? ==> setup(e.test, e.iteration).None?)
  {
    if tests != [] {
      var front := tests[..|tests| - 1];
      var last := tests[|tests| - 1];
      AllEventsMembers(front, testType, count, setup, e);
      TestEventsMembers(last, Iterations(count), setup, e);
      assert tests == front + [last];
    }
  }

  /** Each selected test contributes count iterations of two or three steps. */
  lemma {:induction false} TestEventsLength(test: string, n: nat, setup: Hook)
    ensures 2 * n <= |TestEvents(test, n, setup)| <= 3 * n
  {
    if n > 0 {
      TestEventsLength(test, n - 1, setup);
    }
  }
}
