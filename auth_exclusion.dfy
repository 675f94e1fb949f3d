/*
 * The auth-exclusion test (pilot/test/integration/auth_exclusion.go):
 * fake-control has no sidecar and is excluded from mutual TLS, so every
 * request to it from a, b and t, on every port and under both domain
 * forms, must succeed. makeRequests builds one check per combination and
 * hands the map to parallel.
 */
module AuthExclusion {
  import opened Driver
  import opened CheckMatrix

  const TEST_NAME := "auth-exclusion"
  const TITLE := "Request from "
  const SRC_PODS: seq<string> := ["a", "b", "t"]
  const DST := "fake-control"
  const PORTS: seq<string> := ["", ":80", ":8080"]

  /** The combinations of makeRequests' loops over srcs, in loop order. */
  function Combos(srcs: seq<string>, namespace: string): seq<Combo>
  {
    if srcs == [] then []
    else Combos(srcs[..|srcs| - 1], namespace) + PortDomainCombos(srcs[|srcs| - 1], DST, PORTS, Domains(namespace))
  }

  /** The requests the test makes. */
  predicate Wanted(c: Combo, namespace: string)
  {
    c.src in SRC_PODS && c.dst == DST && c.port in PORTS && c.domain in Domains(namespace)
  }

  /** The check-building loops of makeRequests. */
  method MakeChecks(namespace: string) returns (funcs: map<string, Combo>)
    ensures funcs == Insert(map[], TITLE, Combos(SRC_PODS, namespace))
  {
    funcs := map[];
    for t := 0 to |SRC_PODS|
      invariant funcs == Insert(map[], TITLE, Combos(SRC_PODS[..t], namespace))
    {
      assert SRC_PODS[..t + 1][..t] == SRC_PODS[..t];
      InsertAppend(map[], TITLE, Combos(SRC_PODS[..t], namespace), PortDomainCombos(SRC_PODS[t], DST, PORTS, Domains(namespace)));
      funcs := InsertPortsDomains(funcs, TITLE, SRC_PODS[t], DST, PORTS, Domains(namespace));
    }
    assert SRC_PODS[..|SRC_PODS|] == SRC_PODS;
  }

  lemma {:induction false} CombosMembers(srcs: seq<string>, namespace: string, c: Combo)
    ensures c in Combos(srcs, namespace) <==>
              c.src in srcs && c.dst == DST && c.port in PORTS && c.domain in Domains(namespace)
  {
    if srcs != [] {
      var front := srcs[..|srcs| - 1];
      CombosMembers(front, namespace, c);
      PortDomainCombosMembers(srcs[|srcs| - 1], DST, PORTS, Domains(namespace), c);
      assert srcs == front + [srcs[|srcs| - 1]];
    }
  }

  /**
   * The map holds exactly one check per combination of source, port and
   * domain, all to fake-control, each under its own name: no check
   * overwrites another.
   */
  lemma OneCheckPerCombination(namespace: string)
    ensures var funcs := Insert(map[], TITLE, Combos(SRC_PODS, namespace));
      && (forall c :: Wanted(c, namespace) ==> Name(TITLE, c) in funcs && funcs[Name(TITLE, c)] == c)
      && (forall k :: k in funcs ==> Wanted(funcs[k], namespace) && k == Name(TITLE, funcs[k]))
  {
    var cs := Combos(SRC_PODS, namespace);
    forall c | true
      ensures c in cs <==> Wanted(c, namespace)
    {
      CombosMembers(SRC_PODS, namespace, c);
    }
    assert PortsWellFormed(PORTS);
    forall c1, c2 | c1 in cs && c2 in cs && Name(TITLE, c1) == Name(TITLE, c2)
      ensures c1 == c2
    {
      MatrixNamesInjective(TITLE, namespace, PORTS, c1, c2);
    }
    InsertOnePerCombo(TITLE, cs);
  }

  /** One entry of the map: a wanted request, filed under its own name. */
  lemma CheckWanted(namespace: string, k: string)
    requires k in Insert(map[], TITLE, Combos(SRC_PODS, namespace))
    ensures var c := Insert(map[], TITLE, Combos(SRC_PODS, namespace))[k];
      Wanted(c, namespace) && |c.src| == 1 && k == Name(TITLE, c)
  {
    OneCheckPerCombination(namespace);
  }

  /** Different checks request different URLs: no two combinations share a request. */
  lemma UrlsDistinct(namespace: string)
    ensures var funcs := Insert(map[], TITLE, Combos(SRC_PODS, namespace));
      forall k1, k2 :: k1 in funcs && k2 in funcs && Url(funcs[k1]) == Url(funcs[k2]) ==> k1 == k2
  {
    var funcs := Insert(map[], TITLE, Combos(SRC_PODS, namespace));
    assert PortsWellFormed(PORTS);
    forall k1, k2 | k1 in funcs && k2 in funcs && Url(funcs[k1]) == Url(funcs[k2])
      ensures k1 == k2
    {
      var c1, c2 := funcs[k1], funcs[k2];
      CheckWanted(namespace, k1);
      CheckWanted(namespace, k2);
      MatrixUrlsInjective(namespace, PORTS, c1, c2);
    }
  }

  /** The check: success on a first status code of "200", else try again. */
  function CheckStatus(resp: Response): (s: Status)
    ensures s == Success <==> |resp.code| > 0 && resp.code[0] == "200"
    ensures !s.Failed?
  {
    if |resp.code| > 0 && resp.code[0] == "200" then Success else Again
  }

  /**
   * Retried by parallel, a check of this test never fails at an attempt:
   * it ends in success, cancellation, or after the whole budget.
   */
  lemma ChecksNeverFailHard(responses: nat -> Response, cancelled: nat -> bool)
    ensures var f := (n: nat) => CheckStatus(responses(n));
      var k := FirstDecisive(f, cancelled, 0);
      k == BUDGET || CheckStatus(responses(k)) == Success || cancelled(k)
  {
    var f := (n: nat) => CheckStatus(responses(n));
    assert forall n: nat :: f(n) == CheckStatus(responses(n));
    RetryWithoutHardFailure(f, cancelled);
  }
}
