/*
 * The TCP reachability test (pilot/test/integration/tcp.go): from a, b
 * and t to a, b, d (and t when mesh auth is off), on ports 90 and 9090,
 * under both domain forms. t has no proxy, so its requests must fail
 * wherever mutual TLS applies: everywhere when the mesh uses it, and to
 * d:9090, which always requires it.
 */
module Tcp {
  import opened Common
  import opened Driver
  import opened CheckMatrix

  const TEST_NAME := "tcp-reachability"
  const TITLE := "TCP connection from "
  const SRC_PODS: seq<string> := ["a", "b", "t"]
  const PORTS: seq<string> := [":90", ":9090"]

  /** The destinations: t only when the mesh does not use mutual TLS. */
  function DstPods(auth: MeshAuth): seq<string>
  {
    ["a", "b", "d"] + (if auth == AuthNone then ["t"] else [])
  }

  /** The pair t to t is skipped (flaky in minikube). */
  predicate Skipped(src: string, dst: string)
  {
    src == "t" && dst == "t"
  }

  /** The combinations of the destination loop for one source, in loop order. */
  function DstCombos(src: string, dsts: seq<string>, namespace: string): seq<Combo>
  {
    if dsts == [] then []
    else
      var dst := dsts[|dsts| - 1];
      DstCombos(src, dsts[..|dsts| - 1], namespace)
        + (if Skipped(src, dst) then [] else PortDomainCombos(src, dst, PORTS, Domains(namespace)))
  }

  /** The combinations of all four loops, in loop order. */
  function Combos(srcs: seq<string>, dsts: seq<string>, namespace: string): seq<Combo>
  {
    if srcs == [] then []
    else Combos(srcs[..|srcs| - 1], dsts, namespace) + DstCombos(srcs[|srcs| - 1], dsts, namespace)
  }

  /** The connections the test checks. */
  predicate Wanted(c: Combo, auth: MeshAuth, namespace: string)
  {
    && c.src in SRC_PODS && c.dst in DstPods(auth) && !Skipped(c.src, c.dst)
    && c.port in PORTS && c.domain in Domains(namespace)
  }

  /** The destination loop for one source. */
  method InsertDsts(funcs: map<string, Combo>, src: string, dsts: seq<string>, namespace: string)
    returns (funcs': map<string, Combo>)
    ensures funcs' == Insert(funcs, TITLE, DstCombos(src, dsts, namespace))
  {
    funcs' := funcs;
    for t := 0 to |dsts|
      invariant funcs' == Insert(funcs, TITLE, DstCombos(src, dsts[..t], namespace))
    {
      var dst := dsts[t];
      var done := DstCombos(src, dsts[..t], namespace);
      assert dsts[..t + 1][..t] == dsts[..t] && dsts[..t + 1][t] == dst;
      if src == "t" && dst == "t" {
        assert DstCombos(src, dsts[..t + 1], namespace) == done + [] == done;
        continue;
      }
      var next := PortDomainCombos(src, dst, PORTS, Domains(namespace));
      assert DstCombos(src, dsts[..t + 1], namespace) == done + next;
      InsertAppend(funcs, TITLE, done, next);
      funcs' := InsertPortsDomains(funcs', TITLE, src, dst, PORTS, Domains(namespace));
    }
    assert dsts[..|dsts|] == dsts;
  }

  /** The source loop over srcs. */
  method InsertSrcs(funcs: map<string, Combo>, srcs: seq<string>, dsts: seq<string>, namespace: string)
    returns (funcs': map<string, Combo>)
    ensures funcs' == Insert(funcs, TITLE, Combos(srcs, dsts, namespace))
  {
    funcs' := funcs;
    for t := 0 to |srcs|
      invariant funcs' == Insert(funcs, TITLE, Combos(srcs[..t], dsts, namespace))
    {
      var done := Combos(srcs[..t], dsts, namespace);
      var next := DstCombos(srcs[t], dsts, namespace);
      assert srcs[..t + 1][..t] == srcs[..t] && srcs[..t + 1][t] == srcs[t];
      assert Combos(srcs[..t + 1], dsts, namespace) == done + next;
      InsertAppend(funcs, TITLE, done, next);
      funcs' := InsertDsts(funcs', srcs[t], dsts, namespace);
    }
    assert srcs[..|srcs|] == srcs;
  }

  /** The check-building loops of run. */
  method MakeChecks(auth: MeshAuth, namespace: string) returns (funcs: map<string, Combo>)
    ensures funcs == Insert(map[], TITLE, Combos(SRC_PODS, DstPods(auth), namespace))
  {
    var dstPods := ["a", "b", "d"];
    if auth == AuthNone {
      dstPods := dstPods + ["t"];
    }
    assert dstPods == DstPods(auth);
    funcs := InsertSrcs(map[], SRC_PODS, dstPods, namespace);
  }

  /** run: nothing under Eureka (the headless test covers it), else the checks handed to parallel. */
  method Run(registry: Registry, auth: MeshAuth, namespace: string) returns (checks: Option<map<string, Combo>>)
    ensures registry == Eureka ==> checks.None?
    ensures registry != Eureka ==> checks == Some(Insert(map[], TITLE, Combos(SRC_PODS, DstPods(auth), namespace)))
  {
    if registry == Eureka {
      return None;
    }
    var funcs := MakeChecks(auth, namespace);
    return Some(funcs);
  }

  lemma {:induction false} DstCombosMembers(src: string, dsts: seq<string>, namespace: string, c: Combo)
    ensures c in DstCombos(src, dsts, namespace) <==>
              c.src == src && c.dst in dsts && !Skipped(src, c.dst) && c.port in PORTS && c.domain in Domains(namespace)
  {
    if dsts != [] {
      var front := dsts[..|dsts| - 1];
      var dst := dsts[|dsts| - 1];
      DstCombosMembers(src, front, namespace, c);
      PortDomainCombosMembers(src, dst, PORTS, Domains(namespace), c);
      assert dsts == front + [dst];
    }
  }

  lemma {:induction false} CombosMembers(srcs: seq<string>, dsts: seq<string>, namespace: string, c: Combo)
    ensures c in Combos(srcs, dsts, namespace) <==>
              c.src in srcs && c.dst in dsts && !Skipped(c.src, c.dst) && c.port in PORTS && c.domain in Domains(namespace)
  {
    if srcs != [] {
      var front := srcs[..|srcs| - 1];
      CombosMembers(front, dsts, namespace, c);
      DstCombosMembers(srcs[|srcs| - 1], dsts, namespace, c);
      assert srcs == front + [srcs[|srcs| - 1]];
    }
  }

  /**
   * The map holds exactly one check per wanted connection, each under its
   * own name: t is a destination only without mesh auth, and never of t.
   */
  lemma OneCheckPerCombination(auth: MeshAuth, namespace: string)
    ensures var funcs := Insert(map[], TITLE, Combos(SRC_PODS, DstPods(auth), namespace));
      && (forall c :: Wanted(c, auth, namespace) ==> Name(TITLE, c) in funcs && funcs[Name(TITLE, c)] == c)
      && (forall k :: k in funcs ==> Wanted(funcs[k], auth, namespace) && k == Name(TITLE, funcs[k]))
  {
    var cs := Combos(SRC_PODS, DstPods(auth), namespace);
    forall c | true
      ensures c in cs <==> Wanted(c, auth, namespace)
    {
      CombosMembers(SRC_PODS, DstPods(auth), namespace, c);
    }
    assert PortsWellFormed(PORTS);
    forall c1, c2 | c1 in cs && c2 in cs && Name(TITLE, c1) == Name(TITLE, c2)
      ensures c1 == c2
    {
      WantedNamesOneLetter(c1, auth, namespace);
      WantedNamesOneLetter(c2, auth, namespace);
      MatrixNamesInjective(TITLE, namespace, PORTS, c1, c2);
    }
    InsertOnePerCombo(TITLE, cs);
  }

  /** Every pod of the test has a one-letter name. */
  lemma WantedNamesOneLetter(c: Combo, auth: MeshAuth, namespace: string)
    requires Wanted(c, auth, namespace)
    ensures |c.src| == 1 && |c.dst| == 1
  {
    assert c.dst in ["a", "b", "d", "t"];
  }

  /** One entry of the map: a wanted connection, filed under its own name. */
  lemma CheckWanted(auth: MeshAuth, namespace: string, k: string)
    requires k in Insert(map[], TITLE, Combos(SRC_PODS, DstPods(auth), namespace))
    ensures var c := Insert(map[], TITLE, Combos(SRC_PODS, DstPods(auth), namespace))[k];
      Wanted(c, auth, namespace) && k == Name(TITLE, c)
  {
    OneCheckPerCombination(auth, namespace);
  }

  /** Different checks request different URLs: no two connections are checked through the same request. */
  lemma UrlsDistinct(auth: MeshAuth, namespace: string)
    ensures var funcs := Insert(map[], TITLE, Combos(SRC_PODS, DstPods(auth), namespace));
      forall k1, k2 :: k1 in funcs && k2 in funcs && Url(funcs[k1]) == Url(funcs[k2]) ==> k1 == k2
  {
    var funcs := Insert(map[], TITLE, Combos(SRC_PODS, DstPods(auth), namespace));
    assert PortsWellFormed(PORTS);
    forall k1, k2 | k1 in funcs && k2 in funcs && Url(funcs[k1]) == Url(funcs[k2])
      ensures k1 == k2
    {
      var c1, c2 := funcs[k1], funcs[k2];
      CheckWanted(auth, namespace, k1);
      CheckWanted(auth, namespace, k2);
      WantedNamesOneLetter(c1, auth, namespace);
      WantedNamesOneLetter(c2, auth, namespace);
      MatrixUrlsInjective(namespace, PORTS, c1, c2);
    }
  }

  /** A connection t must not make: mutual TLS is on in the mesh, or it goes to d:9090. */
  predicate ExpectBlocked(c: Combo, auth: MeshAuth)
  {
    c.src == "t" && (auth == AuthMutualTls || (c.dst == "d" && c.port == ":9090"))
  }

  /** Whether the request was answered with the success status code httpOk. */
  predicate Answered(httpOk: string, resp: Response)
  {
    |resp.code| > 0 && resp.code[0] == httpOk
  }

  /**
   * The check of one connection; httpOk is the status code of a successful
   * request. It passes exactly when the outcome is the expected one
   * (refused when ExpectBlocked, answered otherwise), asks to be retried
   * otherwise, and never fails hard.
   */
  function CheckStatus(c: Combo, auth: MeshAuth, httpOk: string, resp: Response): (s: Status)
    ensures s == Success <==> (ExpectBlocked(c, auth) <==> !Answered(httpOk, resp))
    ensures s == Again <==> (ExpectBlocked(c, auth) <==> Answered(httpOk, resp))
  {
    if ExpectBlocked(c, auth) then
      if |resp.code| == 0 || resp.code[0] != httpOk then Success else Again
    else if |resp.code| > 0 && resp.code[0] == httpOk then Success
    else Again
  }

  /**
   * Under mutual TLS t is never a destination; it is one without auth, but
   * never of itself.
   */
  lemma TargetsOfT(auth: MeshAuth, namespace: string)
    ensures var funcs := Insert(map[], TITLE, Combos(SRC_PODS, DstPods(auth), namespace));
      && (forall k :: k in funcs && funcs[k].dst == "t" ==> auth == AuthNone && funcs[k].src != "t")
      && (auth == AuthNone ==> Name(TITLE, Combo("a", "t", ":90", "")) in funcs)
  {
    OneCheckPerCombination(auth, namespace);
    assert Wanted(Combo("a", "t", ":90", ""), auth, namespace) <== auth == AuthNone;
  }

  /**
   * Retried by parallel, a check of this test never fails at an attempt:
   * it ends in success, cancellation, or after the whole budget.
   */
  lemma ChecksNeverFailHard(c: Combo, auth: MeshAuth, httpOk: string, responses: nat -> Response, cancelled: nat -> bool)
    ensures var f := (n: nat) => CheckStatus(c, auth, httpOk, responses(n));
      var k := FirstDecisive(f, cancelled, 0);
      k == BUDGET || CheckStatus(c, auth, httpOk, responses(k)) == Success || cancelled(k)
  {
    var f := (n: nat) => CheckStatus(c, auth, httpOk, responses(n));
    assert forall n: nat :: f(n) == CheckStatus(c, auth, httpOk, responses(n));
    RetryWithoutHardFailure(f, cancelled);
  }
}
