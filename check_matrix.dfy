/*
 * The check maps the reachability tests build (funcs in tcp.go and
 * auth_exclusion.go): nested loops over sources, destinations, ports and
 * domains, each combination stored under a name made from it. Name is
 * injective on the combinations those loops produce, so no entry
 * overwrites another and the map holds exactly one check per combination.
 */
module CheckMatrix {
  /** One request to check: from the pod src to dst + domain + port. */
  datatype Combo = Combo(src: string, dst: string, port: string, domain: string)

  /** The map key: title + src + " to " + dst + domain + port. */
  function Name(title: string, c: Combo): string
  {
    title + c.src + " to " + c.dst + c.domain + c.port
  }

  /** The URL the check requests: "http://" + dst + domain + port + "/" + src. */
  function Url(c: Combo): string
  {
    "http://" + c.dst + c.domain + c.port + "/" + c.src
  }

  /** The two domains of the tests: the short name and the namespace-qualified one. */
  function Domains(namespace: string): seq<string>
  {
    ["", "." + namespace]
  }

  /** funcs[Name(c)] = check(c) for each c of cs, in order. */
  function Insert(m: map<string, Combo>, title: string, cs: seq<Combo>): map<string, Combo>
  {
    if cs == [] then m
    else Insert(m, title, cs[..|cs| - 1])[Name(title, cs[|cs| - 1]) := cs[|cs| - 1]]
  }

  lemma {:induction false} InsertAppend(m: map<string, Combo>, title: string, a: seq<Combo>, b: seq<Combo>)
    ensures Insert(m, title, a + b) == Insert(Insert(m, title, a), title, b)
  {
    if b != [] {
      var front := b[..|b| - 1];
      var last := b[|b| - 1];
      assert (a + b)[..|a + b| - 1] == a + front;
      assert (a + b)[|a + b| - 1] == last;
      calc {
        Insert(m, title, a + b);
        Insert(m, title, a + front)[Name(title, last) := last];
        { InsertAppend(m, title, a, front); }
        Insert(Insert(m, title, a), title, front)[Name(title, last) := last];
      }
    } else {
      assert a + b == a;
    }
  }

  /** The combinations of the inner loops for one source and destination, in loop order. */
  function PortDomainCombos(src: string, dst: string, ports: seq<string>, domains: seq<string>): seq<Combo>
  {
    if ports == [] then []
    else PortDomainCombos(src, dst, ports[..|ports| - 1], domains) + DomainCombos(src, dst, ports[|ports| - 1], domains)
  }

  function DomainCombos(src: string, dst: string, port: string, domains: seq<string>): seq<Combo>
  {
    if domains == [] then []
    else DomainCombos(src, dst, port, domains[..|domains| - 1]) + [Combo(src, dst, port, domains[|domains| - 1])]
  }

  lemma {:induction false} DomainCombosMembers(src: string, dst: string, port: string, domains: seq<string>, c: Combo)
    ensures c in DomainCombos(src, dst, port, domains) <==>
              c.src == src && c.dst == dst && c.port == port && c.domain in domains
  {
    if domains != [] {
      var front := domains[..|domains| - 1];
      DomainCombosMembers(src, dst, port, front, c);
      assert domains == front + [domains[|domains| - 1]];
    }
  }

  lemma {:induction false} PortDomainCombosMembers(src: string, dst: string, ports: seq<string>, domains: seq<string>, c: Combo)
    ensures c in PortDomainCombos(src, dst, ports, domains) <==>
              c.src == src && c.dst == dst && c.port in ports && c.domain in domains
  {
    if ports != [] {
      var front := ports[..|ports| - 1];
      PortDomainCombosMembers(src, dst, front, domains, c);
      DomainCombosMembers(src, dst, ports[|ports| - 1], domains, c);
      assert ports == front + [ports[|ports| - 1]];
    }
  }

  /** The two inner loops: for each port, for each domain, insert the check. */
  method InsertPortsDomains(funcs: map<string, Combo>, title: string, src: string, dst: string,
                            ports: seq<string>, domains: seq<string>)
    returns (funcs': map<string, Combo>)
    ensures funcs' == Insert(funcs, title, PortDomainCombos(src, dst, ports, domains))
  {
    funcs' := funcs;
    for i := 0 to |ports|
      invariant funcs' == Insert(funcs, title, PortDomainCombos(src, dst, ports[..i], domains))
    {
      assert ports[..i + 1][..i] == ports[..i];
      InsertAppend(funcs, title, PortDomainCombos(src, dst, ports[..i], domains),
                   DomainCombos(src, dst, ports[i], domains));
      for j := 0 to |domains|
        invariant funcs' == Insert(Insert(funcs, title, PortDomainCombos(src, dst, ports[..i], domains)),
                                   title, DomainCombos(src, dst, ports[i], domains[..j]))
      {
        assert domains[..j + 1][..j] == domains[..j];
        var c := Combo(src, dst, ports[i], domains[j]);
        funcs' := funcs'[Name(title, c) := c];
      }
      assert domains[..|domains|] == domains;
    }
    assert ports[..|ports|] == ports;
  }

  /** Names are injective on the combinations of cs. */
  ghost predicate NamesInjective(title: string, cs: seq<Combo>)
  {
    forall c1, c2 :: c1 in cs && c2 in cs && Name(title, c1) == Name(title, c2) ==> c1 == c2
  }

  /**
   * Inserting combinations with distinct names into an empty map gives one
   * entry per combination, under its name, and nothing else.
   */
  lemma {:induction false} InsertOnePerCombo(title: string, cs: seq<Combo>)
    requires NamesInjective(title, cs)
    ensures forall c :: c in cs ==> Name(title, c) in Insert(map[], title, cs) && Insert(map[], title, cs)[Name(title, c)] == c
    ensures forall k :: k in Insert(map[], title, cs) ==> Insert(map[], title, cs)[k] in cs && k == Name(title, Insert(map[], title, cs)[k])
  {
    if cs != [] {
      var front := cs[..|cs| - 1];
      var last := cs[|cs| - 1];
      assert cs == front + [last];
      assert NamesInjective(title, front) by {
        forall c1, c2 | c1 in front && c2 in front && Name(title, c1) == Name(title, c2)
          ensures c1 == c2
        {
          assert c1 in cs && c2 in cs;
        }
      }
      InsertOnePerCombo(title, front);
    }
  }

  /** Equal concatenations split at the same place have equal parts. */
  lemma SplitEq(a: string, x: string, b: string, y: string)
    requires |a| == |b| || |x| == |y|
    requires a + x == b + y
    ensures a == b && x == y
  {
    assert a == (a + x)[..|a|] && b == (b + y)[..|b|];
    assert x == (a + x)[|a|..] && y == (b + y)[|b|..];
  }

  /** Two keys with sources and destinations of the same lengths agree on those and on the rest. */
  lemma NameParts(title: string, c1: Combo, c2: Combo)
    requires |c1.src| == |c2.src| && |c1.dst| == |c2.dst|
    requires Name(title, c1) == Name(title, c2)
    ensures c1.src == c2.src && c1.dst == c2.dst
    ensures c1.domain + c1.port == c2.domain + c2.port
  {
    var t1 := c1.dst + (c1.domain + c1.port);
    var t2 := c2.dst + (c2.domain + c2.port);
    var r1 := c1.src + (" to " + t1);
    var r2 := c2.src + (" to " + t2);
    assert Name(title, c1) == title + r1;
    assert Name(title, c2) == title + r2;
    SplitEq(title, r1, title, r2);
    SplitEq(c1.src, " to " + t1, c2.src, " to " + t2);
    SplitEq(" to ", t1, " to ", t2);
    SplitEq(c1.dst, c1.domain + c1.port, c2.dst, c2.domain + c2.port);
  }

  /** Every port is empty or starts with ':'. */
  ghost predicate PortsWellFormed(ports: seq<string>)
  {
    forall p :: p in ports ==> p == "" || p[0] == ':'
  }

  /** No port starts with the '.' of a qualified domain. */
  lemma DottedIsNoPort(ports: seq<string>, p: string, d: string, q: string)
    requires PortsWellFormed(ports) && p in ports
    requires |d| > 0 && d[0] == '.'
    ensures p != d + q
  {
  }

  /** domain + port determines both when the domain is "" or "." + namespace. */
  lemma DomainPortParts(namespace: string, ports: seq<string>, d1: string, p1: string, d2: string, p2: string)
    requires PortsWellFormed(ports) && p1 in ports && p2 in ports
    requires d1 in Domains(namespace) && d2 in Domains(namespace)
    requires d1 + p1 == d2 + p2
    ensures d1 == d2 && p1 == p2
  {
    if d1 != d2 {
      if d1 == "" {
        DottedIsNoPort(ports, p1, d2, p2);
      } else {
        DottedIsNoPort(ports, p2, d1, p1);
      }
    }
    assert p1 == (d1 + p1)[|d1|..];
    assert p2 == (d2 + p2)[|d2|..];
  }

  /** The matrix of the tests is injective when sources and destinations each have one length. */
  lemma MatrixNamesInjective(title: string, namespace: string, ports: seq<string>, c1: Combo, c2: Combo)
    requires PortsWellFormed(ports)
    requires |c1.src| == |c2.src| && |c1.dst| == |c2.dst|
    requires c1.port in ports && c2.port in ports
    requires c1.domain in Domains(namespace) && c2.domain in Domains(namespace)
    requires Name(title, c1) == Name(title, c2)
    ensures c1 == c2
  {
    NameParts(title, c1, c2);
    DomainPortParts(namespace, ports, c1.domain, c1.port, c2.domain, c2.port);
  }

  /**
   * Each combination of the matrix requests its own URL: two combinations
   * with the same URL are the same one.
   */
  lemma MatrixUrlsInjective(namespace: string, ports: seq<string>, c1: Combo, c2: Combo)
    requires PortsWellFormed(ports)
    requires |c1.src| == |c2.src| && |c1.dst| == |c2.dst|
    requires c1.port in ports && c2.port in ports
    requires c1.domain in Domains(namespace) && c2.domain in Domains(namespace)
    requires Url(c1) == Url(c2)
    ensures c1 == c2
  {
    var t1 := c1.dst + (c1.domain + c1.port);
    var t2 := c2.dst + (c2.domain + c2.port);
    assert Url(c1) == ("http://" + t1) + ("/" + c1.src);
    assert Url(c2) == ("http://" + t2) + ("/" + c2.src);
    SplitEq("http://" + t1, "/" + c1.src, "http://" + t2, "/" + c2.src);
    SplitEq("http://", t1, "http://", t2);
    SplitEq("/", c1.src, "/", c2.src);
    SplitEq(c1.dst, c1.domain + c1.port, c2.dst, c2.domain + c2.port);
    DomainPortParts(namespace, ports, c1.domain, c1.port, c2.domain, c2.port);
  }
}
