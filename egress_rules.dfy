/*
 * The egress-rules test (pilot/test/integration/egress_rules.go): for
 * each case, apply an egress rule, check with repeat (3 attempts) that a
 * URL is reachable (or not) from the pods a and b, and delete the rule.
 * A failed check is recorded under the case's description; an error
 * applying or deleting a rule ends the run with that error alone.
 *
 * Applying and deleting configuration and the attempts of a case's check
 * are inputs: the model takes what each call returns.
 */
module EgressRules {
  import opened Common
  import opened Driver

  const TEST_NAME := "egress-rules"

  /** The attempts repeat gives each case's check. */
  const CASE_ATTEMPTS := 3

  // ---------------------------------------------------------------------
  // verifyReachable

  /** The pods verifyReachable requests from. */
  const SOURCES: seq<string> := ["a", "b"]

  /** strings.Contains: sub occurs in s at some offset. */
  predicate Contains(s: string, sub: string)
    decreases |s|
  {
    |sub| <= |s| && (s[..|sub|] == sub || Contains(s[1..], sub))
  }

  /** sub occurs in s at offset i. */
  predicate OccursAt(s: string, sub: string, i: int)
  {
    0 <= i <= |s| - |sub| && s[i..i + |sub|] == sub
  }

  /** Contains finds exactly the offsets at which sub occurs. */
  lemma {:induction false} ContainsIsOccurrence(s: string, sub: string)
    ensures Contains(s, sub) <==> exists i :: OccursAt(s, sub, i)
    decreases |s|
  {
    if |sub| > |s| {
      assert forall i :: !OccursAt(s, sub, i);
    } else if s[..|sub|] == sub {
      assert OccursAt(s, sub, 0);
    } else {
      ContainsIsOccurrence(s[1..], sub);
      if Contains(s[1..], sub) {
        var i :| OccursAt(s[1..], sub, i);
        assert s[i + 1..i + 1 + |sub|] == s[1..][i..i + |sub|];
        assert OccursAt(s, sub, i + 1);
      } else {
        forall i | OccursAt(s, sub, i)
          ensures false
        {
          if i > 0 {
            var w := s[1..][i - 1..i - 1 + |sub|];
            forall k | 0 <= k < |sub|
              ensures w[k] == sub[k]
            {
              assert w[k] == s[i..i + |sub|][k];
            }
            assert w == sub;
            assert OccursAt(s[1..], sub, i - 1);
          }
        }
      }
    }
  }

  /**
   * The request counted as reaching the URL: answered with the success
   * status code httpOk, and the body echoes the request's trace id.
   */
  predicate Reachable(resp: Response, trace: string, httpOk: string)
  {
    |resp.code| > 0 && resp.code[0] == httpOk && Contains(resp.body, trace)
  }

  /** The error of a check that reached a URL it should not. */
  function UnexpectedlyReachable(url: string, src: string): string
  {
    url + " is reachable from " + src + " (should be unreachable)"
  }

  /**
   * One attempt of a check from src: it fails hard when the URL is
   * reachable but should not be, asks to be retried when it is not
   * reachable but should be, and passes when reachability is as expected.
   */
  function CheckStatus(url: string, src: string, shouldBeReachable: bool, reachable: bool): (s: Status)
    ensures s.Failed? <==> reachable && !shouldBeReachable
    ensures s.Failed? ==> s.err == UnexpectedlyReachable(url, src)
    ensures s == Again <==> !reachable && shouldBeReachable
    ensures s == Success <==> reachable == shouldBeReachable
  {
    if reachable && !shouldBeReachable then Failed(UnexpectedlyReachable(url, src))
    else if !reachable && shouldBeReachable then Again
    else Success
  }

  /** The check verifyReachable registers for one pod, with the trace id it sends. */
  datatype Probe = Probe(src: string, url: string, shouldBeReachable: bool, trace: string)

  /** The status of a probe given the response to its request. */
  function ProbeStatus(p: Probe, resp: Response, httpOk: string): Status
  {
    CheckStatus(p.url, p.src, p.shouldBeReachable, Reachable(resp, p.trace, httpOk))
  }

  /** The map key of the check from src. */
  function RequestName(src: string, url: string): string
  {
    "Request from " + src + " to " + url
  }

  /**
   * The check-building loop of verifyReachable; trace(src) is the clock
   * reading taken when the check for src was built.
   */
  method VerifyReachable(url: string, shouldBeReachable: bool, trace: string -> string)
    returns (funcs: map<string, Probe>)
    ensures funcs.Keys == {RequestName("a", url), RequestName("b", url)}
    ensures forall src :: src in SOURCES ==>
              funcs[RequestName(src, url)] == Probe(src, url, shouldBeReachable, trace(src))
  {
    funcs := map[];
    for t := 0 to |SOURCES|
      invariant funcs.Keys == set src | src in SOURCES[..t] :: RequestName(src, url)
      invariant forall src :: src in SOURCES[..t] ==>
                  funcs[RequestName(src, url)] == Probe(src, url, shouldBeReachable, trace(src))
    {
      var src := SOURCES[t];
      assert SOURCES[..t + 1] == SOURCES[..t] + [src];
      assert RequestName("a", url)[13] != RequestName("b", url)[13];
      funcs := funcs[RequestName(src, url) := Probe(src, url, shouldBeReachable, trace(src))];
    }
    assert SOURCES[..|SOURCES|] == SOURCES;
  }

  /**
   * The two checks are distinct entries: one for each pod, and a check
   * passes exactly when the URL's reachability from its pod is as expected.
   */
  lemma ProbesOnePerSource(url: string, shouldBeReachable: bool, trace: string -> string,
                           funcs: map<string, Probe>, resp: Response, httpOk: string)
    requires funcs.Keys == {RequestName("a", url), RequestName("b", url)}
    requires forall src :: src in SOURCES ==>
               funcs[RequestName(src, url)] == Probe(src, url, shouldBeReachable, trace(src))
    ensures |funcs| == 2
    ensures forall k :: k in funcs ==>
              (ProbeStatus(funcs[k], resp, httpOk) == Success <==>
                 (Reachable(resp, funcs[k].trace, httpOk) <==> shouldBeReachable))
  {
    assert RequestName("a", url)[13] != RequestName("b", url)[13];
  }

  // ---------------------------------------------------------------------
  // run

  /** A case: a description, the rule's config file, and the URL its check requests. */
  datatype Case = Case(description: string, config: string, url: string, shouldBeReachable: bool)

  const CASES: seq<Case> := [
    Case("allow external traffic to httbin.org",
         "egress-rule-httpbin.yaml.tmpl", "http://httpbin.org/headers", true),
    Case("allow external traffic to *.httbin.org",
         "egress-rule-wildcard-httpbin.yaml.tmpl", "http://www.httpbin.org/headers", true),
    Case("ensure traffic to httbin.org is prohibited when setting *.httbin.org",
         "egress-rule-wildcard-httpbin.yaml.tmpl", "http://httpbin.org/headers", false),
    Case("allow external http2 traffic to nghttp2.org",
         "egress-rule-nghttp2.yaml.tmpl", "http://nghttp2.org", true),
    Case("prohibit https to httbin.org",
         "egress-rule-httpbin.yaml.tmpl", "http://httpbin.org:443/headers", false),
    Case("allow https external traffic to www.wikipedia.org by a tcp egress rule with cidr",
         "egress-rule-tcp-wikipedia-cidr.yaml.tmpl", "https://www.wikipedia.org", true),
    Case("prohibit http external traffic to cnn.com by a tcp egress rule",
         "egress-rule-tcp-wikipedia-cidr.yaml.tmpl", "https://cnn.com", false)
  ]

  /** A case whose check failed all its attempts, with their errors. */
  datatype CaseFailure = CaseFailure(description: string, errs: seq<AttemptError>)

  /** What run returns: the first apply or delete error, or the failures of the cases. */
  datatype RunResult = Aborted(err: string) | Finished(failures: seq<CaseFailure>)

  /**
   * The first case, from i on, whose rule could not be applied or
   * deleted; n when there is none.
   */
  function FirstAbort(applyErr: nat -> Option<string>, deleteErr: nat -> Option<string>, n: nat, i: nat): (k: nat)
    requires i <= n
    ensures i <= k <= n
    ensures forall j :: i <= j < k ==> applyErr(j).None? && deleteErr(j).None?
    ensures k < n ==> applyErr(k).Some? || deleteErr(k).Some?
    decreases n - i
  {
    if i == n then n
    else if applyErr(i).Some? || deleteErr(i).Some? then i
    else FirstAbort(applyErr, deleteErr, n, i + 1)
  }

  /** What run records for a case whose check had the given outcome. */
  function Recorded(c: Case, outcome: Option<seq<AttemptError>>): seq<CaseFailure>
  {
    if outcome.Some? then [CaseFailure(c.description, outcome.value)] else []
  }

  /** The failures recorded for cases 0 .. n-1, in order. */
  function Failures(cases: seq<Case>, checkErr: nat -> (nat -> Option<string>), n: nat): seq<CaseFailure>
    requires n <= |cases|
  {
    if n == 0 then []
    else
      Failures(cases, checkErr, n - 1) + Recorded(cases[n - 1], RepeatOutcome(checkErr(n - 1), CASE_ATTEMPTS))
  }

  /** What run returns for the cases. */
  function RunOutcome(cases: seq<Case>, applyErr: nat -> Option<string>,
                      checkErr: nat -> (nat -> Option<string>), deleteErr: nat -> Option<string>): RunResult
  {
    var k := FirstAbort(applyErr, deleteErr, |cases|, 0);
    if k < |cases| then
      if applyErr(k).Some? then Aborted(applyErr(k).value) else Aborted(deleteErr(k).value)
    else Finished(Failures(cases, checkErr, |cases|))
  }

  /**
   * The loop of run over the cases: applyErr(i) and deleteErr(i) are the
   * results of applying and deleting case i's rule, checkErr(i)(a) the
   * error of attempt a of its check.
   */
  method Run(cases: seq<Case>, applyErr: nat -> Option<string>,
             checkErr: nat -> (nat -> Option<string>), deleteErr: nat -> Option<string>)
    returns (r: RunResult)
    ensures r == RunOutcome(cases, applyErr, checkErr, deleteErr)
  {
    var errs: seq<CaseFailure> := [];
    for i := 0 to |cases|
      invariant FirstAbort(applyErr, deleteErr, |cases|, 0) == FirstAbort(applyErr, deleteErr, |cases|, i)
      invariant errs == Failures(cases, checkErr, i)
    {
      var applied := applyErr(i);
      if applied.Some? {
        return Aborted(applied.value);
      }
      var failed, _ := Repeat(checkErr(i), CASE_ATTEMPTS);
      assert Failures(cases, checkErr, i + 1) == errs + Recorded(cases[i], failed);
      if failed.Some? {
        errs := errs + [CaseFailure(cases[i].description, failed.value)];
      } else {
        assert errs + Recorded(cases[i], failed) == errs;
      }
      var deleted := deleteErr(i);
      if deleted.Some? {
        return Aborted(deleted.value);
      }
      assert FirstAbort(applyErr, deleteErr, |cases|, i) == FirstAbort(applyErr, deleteErr, |cases|, i + 1);
    }
    return Finished(errs);
  }

  /**
   * run ends with an error exactly when some rule could not be applied or
   * deleted; the failures recorded before it are then dropped.
   */
  lemma AbortIffConfigError(cases: seq<Case>, applyErr: nat -> Option<string>,
                            checkErr: nat -> (nat -> Option<string>), deleteErr: nat -> Option<string>)
    ensures RunOutcome(cases, applyErr, checkErr, deleteErr).Aborted? <==>
              exists k :: 0 <= k < |cases| && (applyErr(k).Some? || deleteErr(k).Some?)
  {
    var k := FirstAbort(applyErr, deleteErr, |cases|, 0);
    if k < |cases| {
      assert applyErr(k).Some? || deleteErr(k).Some?;
    }
  }

  /** The failures are those of the cases whose check failed every attempt. */
  lemma {:induction false} FailuresMembers(cases: seq<Case>, checkErr: nat -> (nat -> Option<string>), n: nat, f: CaseFailure)
    requires n <= |cases|
    ensures f in Failures(cases, checkErr, n) <==>
              exists i :: 0 <= i < n && RepeatOutcome(checkErr(i), CASE_ATTEMPTS) == Some(f.errs)
                          && f.description == cases[i].description
  {
    if n > 0 {
      FailuresMembers(cases, checkErr, n - 1, f);
      var outcome := RepeatOutcome(checkErr(n - 1), CASE_ATTEMPTS);
      assert f in Failures(cases, checkErr, n) <==>
               f in Failures(cases, checkErr, n - 1) || f in Recorded(cases[n - 1], outcome);
    }
  }

  /** A case's check fails when all three attempts fail, each error kept with its attempt number. */
  lemma CaseFailsIffAllAttemptsFail(checkErr: nat -> (nat -> Option<string>), i: nat)
    ensures RepeatOutcome(checkErr(i), CASE_ATTEMPTS).Some? <==>
              forall a :: 0 <= a < CASE_ATTEMPTS ==> checkErr(i)(a).Some?
    ensures RepeatOutcome(checkErr(i), CASE_ATTEMPTS).Some? ==>
              RepeatOutcome(checkErr(i), CASE_ATTEMPTS).value ==
                [AttemptError(0, checkErr(i)(0).value), AttemptError(1, checkErr(i)(1).value),
                 AttemptError(2, checkErr(i)(2).value)]
  {
    RepeatOutcomeSpec(checkErr(i), CASE_ATTEMPTS);
  }

  /** The descriptions of the cases are distinct, so each failure names one case. */
  lemma CaseDescriptionsDistinct()
    ensures forall i, j :: 0 <= i < j < |CASES| ==> CASES[i].description != CASES[j].description
  {
  }
}
