/*
 * The service-discovery queries of the Consul registry controller
 * (pilot/platform/consul/controller.go). The catalog queries are inputs:
 * `services` is what Catalog().Services returned, `order` the order in
 * which the range over that map visits its names, and `fetch` is
 * getCatalogService. parseHostname, convertService, convertInstance and
 * LabelsCollection.HasSubsetOf are not part of this model and are
 * parameters.
 */
module Consul {
  import opened Common

  /** The fields of an api.CatalogService the controller reads itself. */
  datatype Endpoint = Endpoint(node: string, serviceName: string, serviceAddress: string, servicePort: int)

  type Labels = map<string, string>

  /** The fields of a model.ServiceInstance the controller reads. */
  datatype Instance = Instance(servicePortName: string, labels: Labels, address: string)

  type Fetch = string -> Result<seq<Endpoint>, string>

  /** `order` visits every key of the map exactly once. */
  ghost predicate IsOrder<V>(m: map<string, V>, order: seq<string>)
  {
    && (forall i, j :: 0 <= i < j < |order| ==> order[i] != order[j])
    && (forall k :: k in m <==> k in order)
  }

  // ---------------------------------------------------------------------
  // portMatch

  /** Go's portMap[k] on a map[string]bool: false for a missing key. */
  function PortMapLookup(portMap: map<string, bool>, k: string): bool
  {
    k in portMap && portMap[k]
  }

  /** portMatch(instance, portMap). */
  function PortMatch(instance: Instance, portMap: map<string, bool>): bool
  {
    if |portMap| == 0 then true
    else PortMapLookup(portMap, instance.servicePortName)
  }

  /** The port map Instances builds: every requested port name, mapped to true. */
  method PortMapOf(ports: seq<string>) returns (portMap: map<string, bool>)
    ensures forall p :: p in portMap <==> p in ports
    ensures forall p :: p in portMap ==> portMap[p]
  {
    portMap := map[];
    for t := 0 to |ports|
      invariant forall p :: p in portMap <==> p in ports[..t]
      invariant forall p :: p in portMap ==> portMap[p]
    {
      portMap := portMap[ports[t] := true];
    }
  }

  /** The port filter in terms of the requested list: no list means any port. */
  predicate PortRequested(instance: Instance, ports: seq<string>)
  {
    |ports| == 0 || instance.servicePortName in ports
  }

  /**
   * portMatch against the map built from the list is the port filter:
   * every instance matches an empty list, otherwise exactly those whose
   * service-port name is listed.
   */
  lemma PortMatchIsRequested(instance: Instance, ports: seq<string>, portMap: map<string, bool>)
    requires forall p :: p in portMap <==> p in ports
    requires forall p :: p in portMap ==> portMap[p]
    ensures PortMatch(instance, portMap) <==> PortRequested(instance, ports)
  {
    if |ports| != 0 {
      assert ports[0] in portMap.Keys;
      assert |portMap.Keys| != 0;
    }
    if |portMap| != 0 {
      var k :| k in portMap;
      assert k in ports;
    }
  }

  // ---------------------------------------------------------------------
  // Instances

  /** The instances Instances keeps, in catalog order. */
  function InstancesSelected(endpoints: seq<Endpoint>, convert: Endpoint -> Instance,
                             hasSubsetOf: Labels -> bool, ports: seq<string>): seq<Instance>
  {
    if endpoints == [] then []
    else
      var rest := InstancesSelected(endpoints[..|endpoints| - 1], convert, hasSubsetOf, ports);
      var instance := convert(endpoints[|endpoints| - 1]);
      if hasSubsetOf(instance.labels) && PortRequested(instance, ports) then rest + [instance] else rest
  }

  /** An instance is returned exactly when it converts from an endpoint and passes both filters. */
  lemma {:induction false} InstancesSelectedMembers(endpoints: seq<Endpoint>, convert: Endpoint -> Instance,
                                                    hasSubsetOf: Labels -> bool, ports: seq<string>, x: Instance)
    ensures x in InstancesSelected(endpoints, convert, hasSubsetOf, ports) <==>
              (exists e :: e in endpoints && convert(e) == x) && hasSubsetOf(x.labels) && PortRequested(x, ports)
  {
    if endpoints != [] {
      var front := endpoints[..|endpoints| - 1];
      InstancesSelectedMembers(front, convert, hasSubsetOf, ports, x);
      assert endpoints == front + [endpoints[|endpoints| - 1]];
      if exists e :: e in endpoints && convert(e) == x {
        var e :| e in endpoints && convert(e) == x;
        if e != endpoints[|endpoints| - 1] {
          assert e in front;
        }
      }
    }
  }

  /** With every instance wanted, the result is the whole catalog, converted, in order. */
  lemma {:induction false} InstancesSelectedAll(endpoints: seq<Endpoint>, convert: Endpoint -> Instance,
                                                hasSubsetOf: Labels -> bool, ports: seq<string>)
    requires forall e :: e in endpoints ==> hasSubsetOf(convert(e).labels) && PortRequested(convert(e), ports)
    ensures |InstancesSelected(endpoints, convert, hasSubsetOf, ports)| == |endpoints|
    ensures forall i :: 0 <= i < |endpoints| ==>
              InstancesSelected(endpoints, convert, hasSubsetOf, ports)[i] == convert(endpoints[i])
  {
    if endpoints != [] {
      var front := endpoints[..|endpoints| - 1];
      assert forall e :: e in front ==> e in endpoints;
      InstancesSelectedAll(front, convert, hasSubsetOf, ports);
    }
  }

  /**
   * Instances(hostname, ports, labels): the endpoints of the parsed
   * service name whose instances carry one of the label sets and one of
   * the ports.
   */
  method Instances(hostname: string, ports: seq<string>,
                   parseHostname: string -> Result<string, string>, fetch: Fetch,
                   convert: Endpoint -> Instance, hasSubsetOf: Labels -> bool)
    returns (r: Result<seq<Instance>, string>)
    ensures parseHostname(hostname).Err? ==> r == Err(parseHostname(hostname).error)
    ensures parseHostname(hostname).Ok? && fetch(parseHostname(hostname).value).Err? ==>
              r == Err(fetch(parseHostname(hostname).value).error)
    ensures parseHostname(hostname).Ok? && fetch(parseHostname(hostname).value).Ok? ==>
              r == Ok(InstancesSelected(fetch(parseHostname(hostname).value).value, convert, hasSubsetOf, ports))
  {
    var parsed := parseHostname(hostname);
    if parsed.Err? {
      return Err(parsed.error);
    }
    var name := parsed.value;
    var portMap := PortMapOf(ports);
    var fetched := fetch(name);
    if fetched.Err? {
      return Err(fetched.error);
    }
    var endpoints := fetched.value;
    var instances: seq<Instance> := [];
    for t := 0 to |endpoints|
      invariant instances == InstancesSelected(endpoints[..t], convert, hasSubsetOf, ports)
    {
      var instance := convert(endpoints[t]);
      PortMatchIsRequested(instance, ports, portMap);
      assert endpoints[..t + 1][..t] == endpoints[..t];
      if hasSubsetOf(instance.labels) && PortMatch(instance, portMap) {
        instances := instances + [instance];
      }
    }
    assert endpoints[..|endpoints|] == endpoints;
    return Ok(instances);
  }

  // ---------------------------------------------------------------------
  // GetService

  /**
   * GetService(hostname): a parse or fetch error is returned; a name with
   * no endpoints gives a nil service and no error.
   */
  function GetService<S>(hostname: string, parseHostname: string -> Result<string, string>, fetch: Fetch,
                         convertService: seq<Endpoint> -> S): (r: Result<Option<S>, string>)
    ensures parseHostname(hostname).Err? ==> r == Err(parseHostname(hostname).error)
    ensures parseHostname(hostname).Ok? ==>
              var fetched := fetch(parseHostname(hostname).value);
              && (fetched.Err? ==> r == Err(fetched.error))
              && (fetched.Ok? && fetched.value == [] ==> r == Ok(None))
              && (fetched.Ok? && fetched.value != [] ==> r == Ok(Some(convertService(fetched.value))))
  {
    match parseHostname(hostname)
    case Err(e) => Err(e)
    case Ok(name) =>
      match fetch(name)
      case Err(e) => Err(e)
      case Ok(endpoints) => if |endpoints| == 0 then Ok(None) else Ok(Some(convertService(endpoints)))
  }

  // ---------------------------------------------------------------------
  // Services

  /** The index of the first name whose catalog fetch fails, |order| when none does. */
  function FirstFailure(order: seq<string>, fetch: Fetch): (k: nat)
    ensures k <= |order|
    ensures forall i :: 0 <= i < k ==> fetch(order[i]).Ok?
    ensures k < |order| ==> fetch(order[k]).Err?
  {
    if order == [] then 0
    else if fetch(order[0]).Err? then 0
    else 1 + FirstFailure(order[1..], fetch)
  }

  /**
   * Services(): one service per name of the catalog, in visiting order, or
   * the first error met.
   */
  method Services<S>(services: Result<map<string, seq<string>>, string>, order: seq<string>, fetch: Fetch,
                     convertService: seq<Endpoint> -> S)
    returns (r: Result<seq<S>, string>)
    requires services.Ok? ==> IsOrder(services.value, order)
    ensures services.Err? ==> r == Err(services.error)
    ensures services.Ok? && FirstFailure(order, fetch) < |order| ==>
              r == Err(fetch(order[FirstFailure(order, fetch)]).error)
    ensures services.Ok? && FirstFailure(order, fetch) == |order| ==>
              && r.Ok? && |r.value| == |order|
              && forall i :: 0 <= i < |order| ==> r.value[i] == convertService(fetch(order[i]).value)
  {
    if services.Err? {
      return Err(services.error);
    }
    var result: seq<S> := [];
    var k := FirstFailure(order, fetch);
    for t := 0 to |order|
      invariant t <= k
      invariant |result| == t
      invariant forall i :: 0 <= i < t ==> result[i] == convertService(fetch(order[i]).value)
    {
      var fetched := fetch(order[t]);
      if fetched.Err? {
        return Err(fetched.error);
      }
      result := result + [convertService(fetched.value)];
    }
    return Ok(result);
  }

  // ---------------------------------------------------------------------
  // HostInstances

  /** Go's addrs[a] != nil on a map of node pointers: present and not nil. */
  predicate KnownAddress<N>(addrs: map<string, Option<N>>, a: string)
  {
    a in addrs && addrs[a].Some?
  }

  /** The instances of one service's endpoints that sit on one of the given addresses, in catalog order. */
  function OnHosts<N>(endpoints: seq<Endpoint>, convert: Endpoint -> Instance, addrs: map<string, Option<N>>): seq<Instance>
  {
    if endpoints == [] then []
    else
      var last := endpoints[|endpoints| - 1];
      var rest := OnHosts(endpoints[..|endpoints| - 1], convert, addrs);
      if KnownAddress(addrs, last.serviceAddress) then rest + [convert(last)] else rest
  }

  /** The instances of the services in order[..t], concatenated; None when a fetch fails. */
  function HostInstancesOf<N>(order: seq<string>, fetch: Fetch, convert: Endpoint -> Instance,
                              addrs: map<string, Option<N>>): Option<seq<Instance>>
  {
    if order == [] then Some([])
    else
      var front := HostInstancesOf(order[..|order| - 1], fetch, convert, addrs);
      var fetched := fetch(order[|order| - 1]);
      if front.None? || fetched.Err? then None
      else Some(front.value + OnHosts(fetched.value, convert, addrs))
  }

  /** A returned instance always converts from an endpoint whose address maps to a node. */
  lemma {:induction false} OnHostsMembers<N>(endpoints: seq<Endpoint>, convert: Endpoint -> Instance,
                                             addrs: map<string, Option<N>>, x: Instance)
    ensures x in OnHosts(endpoints, convert, addrs) <==>
              exists e :: e in endpoints && KnownAddress(addrs, e.serviceAddress) && convert(e) == x
  {
    if endpoints != [] {
      var front := endpoints[..|endpoints| - 1];
      var last := endpoints[|endpoints| - 1];
      OnHostsMembers(front, convert, addrs, x);
      assert endpoints == front + [last];
      if exists e :: e in endpoints && KnownAddress(addrs, e.serviceAddress) && convert(e) == x {
        var e :| e in endpoints && KnownAddress(addrs, e.serviceAddress) && convert(e) == x;
        if e != last {
          assert e in front;
        }
      }
    }
  }

  /** Any failing fetch makes the whole query fail. */
  lemma {:induction false} HostInstancesFailIfAnyFetchFails<N>(order: seq<string>, fetch: Fetch,
                                                               convert: Endpoint -> Instance,
                                                               addrs: map<string, Option<N>>, i: int)
    requires 0 <= i < |order| && fetch(order[i]).Err?
    ensures HostInstancesOf(order, fetch, convert, addrs).None?
  {
    if i < |order| - 1 {
      HostInstancesFailIfAnyFetchFails(order[..|order| - 1], fetch, convert, addrs, i);
    }
  }

  /** Appends the instances of one service's endpoints that sit on a known address. */
  method AppendOnHosts<N>(out: seq<Instance>, endpoints: seq<Endpoint>, convert: Endpoint -> Instance,
                          addrs: map<string, Option<N>>)
    returns (out': seq<Instance>)
    ensures out' == out + OnHosts(endpoints, convert, addrs)
  {
    out' := out;
    for t := 0 to |endpoints|
      invariant out' == out + OnHosts(endpoints[..t], convert, addrs)
    {
      assert endpoints[..t + 1][..t] == endpoints[..t];
      if KnownAddress(addrs, endpoints[t].serviceAddress) {
        out' := out' + [convert(endpoints[t])];
      }
    }
    assert endpoints[..|endpoints|] == endpoints;
  }

  /**
   * HostInstances(addrs): the instances of every service whose endpoint
   * address maps to a node; any fetch error aborts the call.
   */
  method HostInstances<N>(services: Result<map<string, seq<string>>, string>, order: seq<string>, fetch: Fetch,
                          convert: Endpoint -> Instance, addrs: map<string, Option<N>>)
    returns (r: Result<seq<Instance>, string>)
    requires services.Ok? ==> IsOrder(services.value, order)
    ensures services.Err? ==> r == Err(services.error)
    ensures services.Ok? ==> (r.Ok? <==> HostInstancesOf(order, fetch, convert, addrs).Some?)
    ensures services.Ok? && r.Ok? ==> r.value == HostInstancesOf(order, fetch, convert, addrs).value
  {
    if services.Err? {
      return Err(services.error);
    }
    var out: seq<Instance> := [];
    for t := 0 to |order|
      invariant HostInstancesOf(order[..t], fetch, convert, addrs) == Some(out)
    {
      assert order[..t + 1][..t] == order[..t];
      var fetched := fetch(order[t]);
      if fetched.Err? {
        HostInstancesFailIfAnyFetchFails(order, fetch, convert, addrs, t);
        return Err(fetched.error);
      }
      out := AppendOnHosts(out, fetched.value, convert, addrs);
    }
    assert order[..|order|] == order;
    return Ok(out);
  }

  // ---------------------------------------------------------------------
  // Operations Consul does not support

  /** ManagementPorts: Consul does not manage instances, so there are never health-check ports. */
  function ManagementPorts(addr: string): (r: seq<int>)
    ensures r == []
  {
    []
  }

  /** GetIstioServiceAccounts: not implemented for Consul, always nil. */
  function GetIstioServiceAccounts(hostname: string, ports: seq<string>): (r: seq<string>)
    ensures r == []
  {
    []
  }
}
