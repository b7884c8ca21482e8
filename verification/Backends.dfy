/** Building the servers of a group in Local mode: one backend per ready endpoint
    address, resolved to the instance or network interface behind it. */
module Backends {
  import opened Common
  import opened Names
  import opened Weights

  /** `instance` is what the provider id or, failing that, the instance lookup gives. */
  datatype Node = Node(name: string, virtualNode: bool, excluded: bool, instance: Option<string>)

  const HOSTNAME_LABEL := "kubernetes.io/hostname"

  datatype Endpoint = Endpoint(ready: Option<bool>, addresses: seq<string>, topology: map<string, string>)
  {
    predicate IsReady() { ready == Some(true) }

    function Host(): string {
      if HOSTNAME_LABEL in topology then topology[HOSTNAME_LABEL] else ""
    }
  }

  datatype SlicePort = SlicePort(name: Option<string>, port: Option<int>)

  datatype EndpointSlice = EndpointSlice(ports: seq<SlicePort>, endpoints: seq<Endpoint>)

  /** The port of the service: a number, or the name of a port in each slice. */
  datatype ServicePort = ServicePort(name: string, target: Option<int>, nodePort: int)

  /** A backend before it is resolved. */
  datatype Initial = Initial(nodeName: Option<string>, ip: string, port: int)

  /** The first port of that name; 0 if there is none or it has no number. */
  function PortNamed(ports: seq<SlicePort>, name: string): int {
    if ports == [] then 0
    else if ports[0].name == Some(name) then if ports[0].port.Some? then ports[0].port.value else 0
    else PortNamed(ports[1..], name)
  }

  function BackendPort(slice: EndpointSlice, svc: ServicePort): int {
    if svc.target.Some? then svc.target.value else PortNamed(slice.ports, svc.name)
  }

  // ------------------------------------------------------------- from endpoint slices

  function OfEndpoint(e: Endpoint, port: int, n: nat): (r: seq<Initial>)
    requires n <= |e.addresses|
  {
    if !e.IsReady() then [] else seq(n, i requires 0 <= i < n => Initial(Some(e.Host()), e.addresses[i], port))
  }

  function OfEndpoints(es: seq<Endpoint>, port: int): seq<Initial> {
    if es == [] then []
    else OfEndpoints(es[..|es| - 1], port) + OfEndpoint(es[|es| - 1], port, |es[|es| - 1].addresses|)
  }

  /** Every ready address with the host that reports it, duplicates included. */
  function ReadyAddresses(slices: seq<EndpointSlice>, svc: ServicePort): seq<Initial> {
    if slices == [] then []
    else
      var last := slices[|slices| - 1];
      ReadyAddresses(slices[..|slices| - 1], svc) + OfEndpoints(last.endpoints, BackendPort(last, svc))
  }

  function First(s: seq<Initial>, ip: string): Option<Initial> {
    if s == [] then None
    else
      var earlier := First(s[..|s| - 1], ip);
      if earlier.None? && s[|s| - 1].ip == ip then Some(s[|s| - 1]) else earlier
  }

  function FirstPerAddress(s: seq<Initial>): seq<Initial> {
    if s == [] then []
    else
      var front, x := s[..|s| - 1], s[|s| - 1];
      FirstPerAddress(front) + if First(front, x.ip).Some? then [] else [x]
  }

  lemma Prefixes<T>(s: seq<T>, i: nat)
    requires i < |s|
    ensures s[..i + 1][..i] == s[..i] && s[..i + 1][i] == s[i] && |s[..i + 1]| == i + 1
  {
  }

  lemma FirstStep(s: seq<Initial>, x: Initial)
    ensures forall ip :: First(s + [x], ip) == if First(s, ip).Some? then First(s, ip) else if x.ip == ip then Some(x) else None
    ensures FirstPerAddress(s + [x]) == if First(s, x.ip).Some? then FirstPerAddress(s) else FirstPerAddress(s) + [x]
  {
    assert (s + [x])[..|s|] == s;
  }

  /** What the loops keep: `seen` are the addresses of `visited`, each with its first
      backend in `backends`. */
  ghost predicate Collected(visited: seq<Initial>, seen: set<string>, backends: seq<Initial>) {
    backends == FirstPerAddress(visited) && forall ip :: ip in seen <==> First(visited, ip).Some?
  }

  lemma CollectedStep(visited: seq<Initial>, seen: set<string>, backends: seq<Initial>, x: Initial)
    requires Collected(visited, seen, backends)
    ensures x.ip in seen ==> Collected(visited + [x], seen, backends)
    ensures x.ip !in seen ==> Collected(visited + [x], seen + {x.ip}, backends + [x])
  {
    FirstStep(visited, x);
  }

  lemma OfEndpointStep(ep: Endpoint, port: int, k: nat, before: seq<Initial>)
    requires k < |ep.addresses| && ep.IsReady()
    ensures before + OfEndpoint(ep, port, k + 1) == before + OfEndpoint(ep, port, k) + [Initial(Some(ep.Host()), ep.addresses[k], port)]
  {
  }

  /** One more endpoint, duplicates of addresses already seen left out. */
  method AddEndpoint(ep: Endpoint, port: int, seen: set<string>, backends: seq<Initial>, ghost before: seq<Initial>)
    returns (seen': set<string>, backends': seq<Initial>)
    requires Collected(before, seen, backends)
    ensures Collected(before + OfEndpoint(ep, port, |ep.addresses|), seen', backends')
  {
    seen', backends' := seen, backends;
    assert before + [] == before;
    if ep.ready != Some(true) { return; }
    var hostName := ep.Host();
    for k := 0 to |ep.addresses|
      invariant Collected(before + OfEndpoint(ep, port, k), seen', backends')
    {
      var x := Initial(Some(hostName), ep.addresses[k], port);
      OfEndpointStep(ep, port, k, before);
      CollectedStep(before + OfEndpoint(ep, port, k), seen', backends', x);
      if x.ip in seen' { continue; }
      seen' := seen' + {x.ip};
      backends' := backends' + [x];
    }
  }

  method AddSlice(eps: seq<Endpoint>, port: int, seen: set<string>, backends: seq<Initial>, ghost before: seq<Initial>)
    returns (seen': set<string>, backends': seq<Initial>)
    requires Collected(before, seen, backends)
    ensures Collected(before + OfEndpoints(eps, port), seen', backends')
  {
    seen', backends' := seen, backends;
    assert before + OfEndpoints(eps[..0], port) == before;
    for j := 0 to |eps|
      invariant Collected(before + OfEndpoints(eps[..j], port), seen', backends')
    {
      seen', backends' := AddEndpoint(eps[j], port, seen', backends', before + OfEndpoints(eps[..j], port));
      OfEndpointsStep(eps, port, j, before);
    }
    assert eps[..|eps|] == eps;
  }

  lemma OfEndpointsStep(eps: seq<Endpoint>, port: int, j: nat, before: seq<Initial>)
    requires j < |eps|
    ensures before + OfEndpoints(eps[..j + 1], port) == before + OfEndpoints(eps[..j], port) + OfEndpoint(eps[j], port, |eps[j].addresses|)
  {
    Prefixes(eps, j);
  }

  /** `setBackendsFromEndpointSlices`. */
  method SetBackendsFromEndpointSlices(slices: seq<EndpointSlice>, svc: ServicePort) returns (backends: seq<Initial>)
    ensures FromSlices(slices, svc, backends)
    ensures backends == FirstPerAddress(ReadyAddresses(slices, svc))
  {
    ReadyAddressesExactly(slices, svc);
    var seen: set<string> := {};
    backends := [];
    for i := 0 to |slices|
      invariant Collected(ReadyAddresses(slices[..i], svc), seen, backends)
    {
      var backendPort := if svc.target.Some? then svc.target.value else 0;
      if svc.target.None? { backendPort := FindPort(slices[i].ports, svc.name); }
      seen, backends := AddSlice(slices[i].endpoints, backendPort, seen, backends, ReadyAddresses(slices[..i], svc));
      Prefixes(slices, i);
    }
    assert slices[..|slices|] == slices;
  }

  method FindPort(ports: seq<SlicePort>, name: string) returns (port: int)
    ensures port == PortNamed(ports, name)
  {
    port := 0;
    assert ports[0..] == ports;
    for i := 0 to |ports|
      invariant port == 0 && PortNamed(ports, name) == PortNamed(ports[i..], name)
    {
      assert ports[i..][1..] == ports[i + 1..];
      if ports[i].name == Some(name) {
        if ports[i].port.Some? { port := ports[i].port.value; }
        break;
      }
    }
  }

  // ------------------------------------------------------- what the slices come to

  /** A ready endpoint of this slice has the address. */
  predicate Offers(slices: seq<EndpointSlice>, i: int, j: int, ip: string) {
    && 0 <= i < |slices| && 0 <= j < |slices[i].endpoints|
    && slices[i].endpoints[j].ready == Some(true) && ip in slices[i].endpoints[j].addresses
  }

  predicate OffersEndpoint(es: seq<Endpoint>, j: int, ip: string) {
    0 <= j < |es| && es[j].ready == Some(true) && ip in es[j].addresses
  }

  /** The target number, or the number of the first port of that name, 0 without one. */
  ghost predicate IsPort(ports: seq<SlicePort>, svc: ServicePort, port: int) {
    if svc.target.Some? then port == svc.target.value
    else if exists k :: NamedFirst(ports, svc.name, k) then
      exists k :: NamedFirst(ports, svc.name, k) && port == if ports[k].port.Some? then ports[k].port.value else 0
    else port == 0
  }

  predicate NamedFirst(ports: seq<SlicePort>, name: string, k: int) {
    0 <= k < |ports| && ports[k].name == Some(name) && forall l :: 0 <= l < k ==> ports[l].name != Some(name)
  }

  lemma {:induction false} PortNamedExactly(ports: seq<SlicePort>, name: string)
    ensures (forall k :: 0 <= k < |ports| ==> ports[k].name != Some(name)) ==> PortNamed(ports, name) == 0
    ensures forall k :: NamedFirst(ports, name, k) ==>
              PortNamed(ports, name) == if ports[k].port.Some? then ports[k].port.value else 0
  {
    if ports != [] {
      PortNamedExactly(ports[1..], name);
      forall k | NamedFirst(ports, name, k)
        ensures PortNamed(ports, name) == if ports[k].port.Some? then ports[k].port.value else 0
      {
        if k > 0 {
          assert ports[0].name != Some(name);
          assert forall l :: 0 <= l < k - 1 ==> ports[1..][l] == ports[l + 1];
          assert NamedFirst(ports[1..], name, k - 1);
        }
      }
      assert forall k :: 0 <= k < |ports| - 1 ==> ports[1..][k] == ports[k + 1];
    }
  }

  lemma {:induction false} NamedSomewhere(ports: seq<SlicePort>, name: string)
    ensures (exists k :: NamedFirst(ports, name, k)) || forall k :: 0 <= k < |ports| ==> ports[k].name != Some(name)
  {
    if ports != [] {
      var n := |ports| - 1;
      NamedSomewhere(ports[..n], name);
      if k :| NamedFirst(ports[..n], name, k) {
        assert NamedFirst(ports, name, k);
      } else if ports[n].name == Some(name) {
        assert forall l :: 0 <= l < n ==> ports[..n][l] == ports[l];
        assert NamedFirst(ports, name, n);
      }
    }
  }

  lemma BackendPortExactly(slice: EndpointSlice, svc: ServicePort)
    ensures IsPort(slice.ports, svc, BackendPort(slice, svc))
  {
    PortNamedExactly(slice.ports, svc.name);
    NamedSomewhere(slice.ports, svc.name);
  }

  lemma IsPortUnique(slice: EndpointSlice, svc: ServicePort, port: int)
    requires IsPort(slice.ports, svc, port)
    ensures port == BackendPort(slice, svc)
  {
    PortNamedExactly(slice.ports, svc.name);
    NamedSomewhere(slice.ports, svc.name);
  }

  /** The first ready endpoint with the address of `b`, and what it says about it. */
  ghost predicate FirstAt(slices: seq<EndpointSlice>, svc: ServicePort, i: int, j: int, b: Initial) {
    && Offers(slices, i, j, b.ip) && IsPort(slices[i].ports, svc, b.port)
    && b.nodeName == Some(if HOSTNAME_LABEL in slices[i].endpoints[j].topology then slices[i].endpoints[j].topology[HOSTNAME_LABEL] else "")
    && (forall j' :: 0 <= j' < j ==> !Offers(slices, i, j', b.ip))
    && (forall i', j' :: 0 <= i' < i ==> !Offers(slices, i', j', b.ip))
  }

  lemma {:induction false} FirstConcat(a: seq<Initial>, b: seq<Initial>, ip: string)
    ensures First(a + b, ip) == if First(a, ip).Some? then First(a, ip) else First(b, ip)
  {
    if b == [] {
      assert a + b == a;
    } else {
      assert (a + b)[..|a + b| - 1] == a + b[..|b| - 1];
      FirstConcat(a, b[..|b| - 1], ip);
    }
  }

  lemma {:induction false} FirstInEndpoint(e: Endpoint, port: int, n: nat, ip: string)
    requires n <= |e.addresses|
    ensures First(OfEndpoint(e, port, n), ip)
         == if e.ready == Some(true) && ip in e.addresses[..n] then Some(Initial(Some(e.Host()), ip, port)) else None
  {
    if n > 0 && e.IsReady() {
      FirstInEndpoint(e, port, n - 1, ip);
      assert OfEndpoint(e, port, n)[..n - 1] == OfEndpoint(e, port, n - 1);
      assert e.addresses[..n] == e.addresses[..n - 1] + [e.addresses[n - 1]];
    }
  }

  lemma {:induction false} FirstInEndpoints(es: seq<Endpoint>, port: int, ip: string)
    ensures First(OfEndpoints(es, port), ip).None? ==> forall j :: !OffersEndpoint(es, j, ip)
    ensures First(OfEndpoints(es, port), ip).Some? ==>
              exists j :: OffersEndpoint(es, j, ip) && (forall j' :: 0 <= j' < j ==> !OffersEndpoint(es, j', ip))
                          && First(OfEndpoints(es, port), ip).value == Initial(Some(es[j].Host()), ip, port)
  {
    if es != [] {
      var n := |es| - 1;
      var front, e := es[..n], es[n];
      FirstInEndpoints(front, port, ip);
      FirstInEndpoint(e, port, |e.addresses|, ip);
      assert e.addresses[..|e.addresses|] == e.addresses;
      FirstConcat(OfEndpoints(front, port), OfEndpoint(e, port, |e.addresses|), ip);
      assert forall j :: 0 <= j < n ==> (OffersEndpoint(front, j, ip) <==> OffersEndpoint(es, j, ip));
      if First(OfEndpoints(front, port), ip).Some? {
        var j :| OffersEndpoint(front, j, ip) && (forall j' :: 0 <= j' < j ==> !OffersEndpoint(front, j', ip))
                 && First(OfEndpoints(front, port), ip).value == Initial(Some(front[j].Host()), ip, port);
        assert OffersEndpoint(es, j, ip) && front[j] == es[j];
      } else if First(OfEndpoints(es, port), ip).Some? {
        assert OffersEndpoint(es, n, ip);
      }
    }
  }

  lemma {:induction false} FirstInSlices(slices: seq<EndpointSlice>, svc: ServicePort, ip: string)
    ensures First(ReadyAddresses(slices, svc), ip).None? ==> forall i, j :: !Offers(slices, i, j, ip)
    ensures First(ReadyAddresses(slices, svc), ip).Some? ==>
              var b := First(ReadyAddresses(slices, svc), ip).value;
              b.ip == ip && exists i, j :: FirstAt(slices, svc, i, j, b)
  {
    if slices != [] {
      var n := |slices| - 1;
      var front, last := slices[..n], slices[n];
      FirstInSlices(front, svc, ip);
      FirstInEndpoints(last.endpoints, BackendPort(last, svc), ip);
      FirstConcat(ReadyAddresses(front, svc), OfEndpoints(last.endpoints, BackendPort(last, svc)), ip);
      BackendPortExactly(last, svc);
      SlicesSplit(slices, svc);
      if First(ReadyAddresses(front, svc), ip).None? && First(ReadyAddresses(slices, svc), ip).Some? {
        var b := First(ReadyAddresses(slices, svc), ip).value;
        var j :| OffersEndpoint(last.endpoints, j, ip) && (forall j' :: 0 <= j' < j ==> !OffersEndpoint(last.endpoints, j', ip))
                 && b == Initial(Some(last.endpoints[j].Host()), ip, BackendPort(last, svc));
        assert FirstAt(slices, svc, n, j, b);
      }
    }
  }

  lemma SlicesSplit(slices: seq<EndpointSlice>, svc: ServicePort)
    requires slices != []
    ensures var n := |slices| - 1;
            && (forall i, j, ip :: i < n ==> (Offers(slices, i, j, ip) <==> Offers(slices[..n], i, j, ip)))
            && (forall j, ip :: Offers(slices, n, j, ip) <==> OffersEndpoint(slices[n].endpoints, j, ip))
            && (forall i, j, b :: FirstAt(slices[..n], svc, i, j, b) ==> FirstAt(slices, svc, i, j, b))
  {
  }

  lemma FirstAtUnique(slices: seq<EndpointSlice>, svc: ServicePort, i: int, j: int, i': int, j': int, b: Initial, b': Initial)
    requires FirstAt(slices, svc, i, j, b) && FirstAt(slices, svc, i', j', b') && b.ip == b'.ip
    ensures i == i' && j == j' && b == b'
  {
    assert Offers(slices, i, j, b.ip) && Offers(slices, i', j', b'.ip);
    assert i == i' && j == j';
    IsPortUnique(slices[i], svc, b.port);
    IsPortUnique(slices[i], svc, b'.port);
  }

  lemma {:induction false} FirstPerAddressMeans(s: seq<Initial>)
    ensures forall b :: b in FirstPerAddress(s) <==> First(s, b.ip) == Some(b)
    ensures forall i, j :: 0 <= i < j < |FirstPerAddress(s)| ==> FirstPerAddress(s)[i].ip != FirstPerAddress(s)[j].ip
  {
    if s != [] {
      var front, x := s[..|s| - 1], s[|s| - 1];
      FirstPerAddressMeans(front);
      FirstFacts(front, x.ip);
      assert s == front + [x];
      FirstStep(front, x);
      forall b ensures b in FirstPerAddress(s) <==> First(s, b.ip) == Some(b) {
        FirstFacts(front, b.ip);
      }
    }
  }

  /** The backends are what the first ready endpoint of each address says. */
  ghost predicate FromSlices(slices: seq<EndpointSlice>, svc: ServicePort, backends: seq<Initial>) {
    && (forall b :: b in backends <==> exists i, j :: FirstAt(slices, svc, i, j, b))
    && (forall k, l :: 0 <= k < l < |backends| ==> backends[k].ip != backends[l].ip)
  }

  lemma ReadyAddressesExactly(slices: seq<EndpointSlice>, svc: ServicePort)
    ensures FromSlices(slices, svc, FirstPerAddress(ReadyAddresses(slices, svc)))
  {
    var s := ReadyAddresses(slices, svc);
    FirstPerAddressMeans(s);
    forall b ensures b in FirstPerAddress(s) <==> exists i, j :: FirstAt(slices, svc, i, j, b) {
      FirstInSlices(slices, svc, b.ip);
      if i, j :| FirstAt(slices, svc, i, j, b) {
        assert Offers(slices, i, j, b.ip);
        var i', j' :| FirstAt(slices, svc, i', j', First(s, b.ip).value);
        FirstAtUnique(slices, svc, i, j, i', j', b, First(s, b.ip).value);
      }
    }
  }

  // ---------------------------------------------------------------- the Local builder

  function FindNodeByNodeName(nodes: seq<Node>, name: string): (r: Option<Node>)
    ensures r.None? <==> forall n :: n in nodes ==> n.name != name
    ensures r.Some? ==> r.value in nodes && r.value.name == name
  {
    if nodes == [] then None
    else if nodes[0].name == name then Some(nodes[0])
    else FindNodeByNodeName(nodes[1..], name)
  }

  /** The first node of that name. */
  predicate Hosts(nodes: seq<Node>, k: int, name: string) {
    0 <= k < |nodes| && nodes[k].name == name && forall l :: 0 <= l < k ==> nodes[l].name != name
  }

  lemma {:induction false} FindNodeExactly(nodes: seq<Node>, name: string)
    ensures forall k :: Hosts(nodes, k, name) ==> FindNodeByNodeName(nodes, name) == Some(nodes[k])
    ensures FindNodeByNodeName(nodes, name).Some? ==> exists k :: Hosts(nodes, k, name)
  {
    if nodes != [] {
      FindNodeExactly(nodes[1..], name);
      assert forall k :: 0 <= k < |nodes| - 1 ==> nodes[1..][k] == nodes[k + 1];
      if nodes[0].name == name {
        assert Hosts(nodes, 0, name);
      } else {
        forall k | Hosts(nodes, k, name) ensures Hosts(nodes[1..], k - 1, name) {}
        if k :| Hosts(nodes[1..], k, name) { assert Hosts(nodes, k + 1, name); }
      }
    }
  }

  predicate Virtual(nodes: seq<Node>, b: Initial) {
    b.nodeName.Some?
    && var n := FindNodeByNodeName(nodes, b.nodeName.value);
    n.Some? && n.value.virtualNode
  }

  predicate OnInstance(nodes: seq<Node>, b: Initial) {
    b.nodeName.Some?
    && var n := FindNodeByNodeName(nodes, b.nodeName.value);
    n.Some? && !n.value.virtualNode && !n.value.excluded
  }

  /** The node is known, and virtual or not excluded. */
  predicate Kept(nodes: seq<Node>, b: Initial) {
    b.nodeName.Some?
    && var n := FindNodeByNodeName(nodes, b.nodeName.value);
    n.Some? && (n.value.virtualNode || !n.value.excluded)
  }

  function InstanceOf(nodes: seq<Node>, b: Initial): Option<string>
    requires OnInstance(nodes, b)
  {
    FindNodeByNodeName(nodes, b.nodeName.value).value.instance
  }

  /** An instance is reached on the node port. */
  function InstanceBackend(nodes: seq<Node>, nodePort: int, b: Initial): Backend
    requires OnInstance(nodes, b) && InstanceOf(nodes, b).Some?
  {
    Backend(InstanceOf(nodes, b).value, b.ip, nodePort, 0)
  }

  predicate Resolvable(nodes: seq<Node>, b: Initial) {
    b.nodeName.Some? && (OnInstance(nodes, b) ==> InstanceOf(nodes, b).Some?)
  }

  function EcsBackends(nodes: seq<Node>, nodePort: int, s: seq<Initial>): seq<Backend>
    requires forall b :: b in s ==> Resolvable(nodes, b)
  {
    if s == [] then []
    else
      var front, x := s[..|s| - 1], s[|s| - 1];
      assert x in s && Resolvable(nodes, x) && forall b :: b in front ==> b in s;
      EcsBackends(nodes, nodePort, front) + if OnInstance(nodes, x) then [InstanceBackend(nodes, nodePort, x)] else []
  }

  function EciBackends(nodes: seq<Node>, s: seq<Initial>): seq<Initial> {
    if s == [] then []
    else
      EciBackends(nodes, s[..|s| - 1]) + if Virtual(nodes, s[|s| - 1]) then [s[|s| - 1]] else []
  }

  /** `updateENIBackends`: an interface is reached on the port of the backend. */
  method UpdateENIBackends(backends: seq<Initial>, enis: Option<map<string, string>>) returns (r: Option<seq<Backend>>)
    ensures r.Some? <==> enis.Some? && forall b :: b in backends ==> b.ip in enis.value
    ensures r.Some? ==> r.value == EniBackends(backends, enis.value)
  {
    if enis.None? { return None; }
    var done := [];
    for i := 0 to |backends|
      invariant forall k :: 0 <= k < i ==> backends[k].ip in enis.value
      invariant |done| == i && forall k :: 0 <= k < i ==> done[k] == Backend(enis.value[backends[k].ip], backends[k].ip, backends[k].port, 0)
    {
      var b := backends[i];
      if b.ip !in enis.value { return None; }
      done := done + [Backend(enis.value[b.ip], b.ip, b.port, 0)];
    }
    return Some(done);
  }

  function EniBackends(backends: seq<Initial>, enis: map<string, string>): (r: seq<Backend>)
    requires forall b :: b in backends ==> b.ip in enis
    ensures |r| == |backends|
  {
    seq(|backends|, i requires 0 <= i < |backends| =>
      assert backends[i] in backends; Backend(enis[backends[i].ip], backends[i].ip, backends[i].port, 0))
  }

  /** The servers can be built: no address lacks a node name, every instance is found
      and every address on a virtual node has an interface. */
  predicate Buildable(nodes: seq<Node>, s: seq<Initial>, enis: Option<map<string, string>>) {
    && (forall b :: b in s ==> Resolvable(nodes, b))
    && (EciBackends(nodes, s) != [] ==> enis.Some? && forall b :: b in EciBackends(nodes, s) ==> b.ip in enis.value)
  }

  /** All backends before the weights are set, instances first. */
  function Resolved(nodes: seq<Node>, nodePort: int, s: seq<Initial>, enis: Option<map<string, string>>): seq<Backend>
    requires Buildable(nodes, s, enis)
  {
    EcsBackends(nodes, nodePort, s) + if EciBackends(nodes, s) == [] then [] else EniBackends(EciBackends(nodes, s), enis.value)
  }

  /** The first loop of `buildLocalBackends`. */
  method Partition(s: seq<Initial>, nodes: seq<Node>, nodePort: int) returns (r: Option<(seq<Backend>, seq<Initial>)>)
    ensures r.Some? <==> forall b :: b in s ==> Resolvable(nodes, b)
    ensures r.Some? ==> r.value == (EcsBackends(nodes, nodePort, s), EciBackends(nodes, s))
  {
    var ecs, eci := [], [];
    for i := 0 to |s|
      invariant forall b :: b in s[..i] ==> Resolvable(nodes, b)
      invariant ecs == EcsBackends(nodes, nodePort, s[..i]) && eci == EciBackends(nodes, s[..i])
    {
      var b := s[i];
      assert b in s;
      if b.nodeName.None? { return None; }
      var node := FindNodeByNodeName(nodes, b.nodeName.value);
      if node.Some? && !node.value.virtualNode && !node.value.excluded && node.value.instance.None? {
        assert OnInstance(nodes, b);
        return None;
      }
      PartitionStep(nodes, nodePort, s, i);
      if node.None? { continue; }
      if node.value.virtualNode {
        eci := eci + [b];
        continue;
      }
      if node.value.excluded { continue; }
      ecs := ecs + [Backend(node.value.instance.value, b.ip, nodePort, 0)];
    }
    assert s[..|s|] == s;
    return Some((ecs, eci));
  }

  lemma PartitionStep(nodes: seq<Node>, nodePort: int, s: seq<Initial>, i: nat)
    requires i < |s| && (forall b :: b in s[..i] ==> Resolvable(nodes, b)) && Resolvable(nodes, s[i])
    ensures forall b :: b in s[..i + 1] ==> Resolvable(nodes, b)
    ensures EcsBackends(nodes, nodePort, s[..i + 1])
         == if OnInstance(nodes, s[i]) then EcsBackends(nodes, nodePort, s[..i]) + [InstanceBackend(nodes, nodePort, s[i])] else EcsBackends(nodes, nodePort, s[..i])
    ensures EciBackends(nodes, s[..i + 1])
         == if Virtual(nodes, s[i]) then EciBackends(nodes, s[..i]) + [s[i]] else EciBackends(nodes, s[..i])
  {
    Prefixes(s, i);
    assert s[..i + 1] == s[..i] + [s[i]];
  }

  /** `setWeightBackends` in Local mode. */
  function LocalWeights(s: seq<Backend>, weight: Option<int>): string -> int {
    if weight.None? then PodNumber(s, Local) else PodPercent(s, Local, weight.value)
  }

  /** Instances and interfaces. */
  method ResolveBackends(s: seq<Initial>, nodes: seq<Node>, nodePort: int, enis: Option<map<string, string>>)
    returns (r: Option<seq<Backend>>)
    ensures r.Some? <==> Buildable(nodes, s, enis)
    ensures r.Some? ==> r.value == Resolved(nodes, nodePort, s, enis)
  {
    var parts := Partition(s, nodes, nodePort);
    if parts.None? { return None; }
    var (ecs, eci) := parts.value;
    var onInterfaces := [];
    if |eci| != 0 {
      var updated := UpdateENIBackends(eci, enis);
      if updated.None? { return None; }
      onInterfaces := updated.value;
    }
    return Some(ecs + onInterfaces);
  }

  /** `buildLocalBackends` on the backends of `setGenericBackendAttribute`. */
  method BuildLocalBackends(s: seq<Initial>, nodes: seq<Node>, nodePort: int, enis: Option<map<string, string>>, weight: Option<int>)
    returns (r: Option<seq<Backend>>)
    ensures r.Some? <==> forall x :: x in s ==> !Unresolvable(nodes, enis, x)
    ensures r.Some? ==> ServersOf(nodes, nodePort, enis, s, r.value)
    ensures r.Some? <==> Buildable(nodes, s, enis)
    ensures r.Some? ==> var all := Resolved(nodes, nodePort, s, enis); r.value == Deduplicated(WithWeights(all, LocalWeights(all, weight)))
  {
    BuildableExactly(nodes, s, enis);
    if |s| == 0 { return Some([]); }
    var resolved := ResolveBackends(s, nodes, nodePort, enis);
    if resolved.None? { return None; }
    var all := resolved.value;
    BuiltServers(nodes, nodePort, s, enis, LocalWeights(all, weight));
    var weighed := new Backend[|all|](i requires 0 <= i < |all| => all[i]);
    assert weighed[..] == all;
    if weight.None? {
      PodNumberAlgorithm(Local, weighed);
    } else {
      var _ := PodPercentAlgorithm(Local, weighed, weight.value);
    }
    var unique := RemoveDuplicates(weighed[..]);
    return Some(unique);
  }

  // ------------------------------------------------------ which server an address becomes

  /** This is the server of the address: the interface on a virtual node, on the port of the
      address, and otherwise the instance of the node, unless that is excluded, on the node
      port. */
  ghost predicate ServerOf(nodes: seq<Node>, nodePort: int, enis: Option<map<string, string>>, x: Initial, id: string, port: int) {
    x.nodeName.Some? && exists k :: Hosts(nodes, k, x.nodeName.value) && OnNode(nodes[k], nodePort, enis, x, id, port)
  }

  predicate OnNode(n: Node, nodePort: int, enis: Option<map<string, string>>, x: Initial, id: string, port: int) {
    if n.virtualNode then enis.Some? && x.ip in enis.value && id == enis.value[x.ip] && port == x.port
    else !n.excluded && n.instance == Some(id) && port == nodePort
  }

  /** The server cannot be told: no node name, no instance, or no interface. */
  ghost predicate Unresolvable(nodes: seq<Node>, enis: Option<map<string, string>>, x: Initial) {
    || x.nodeName.None?
    || exists k :: Hosts(nodes, k, x.nodeName.value)
                   && if nodes[k].virtualNode then enis.None? || x.ip !in enis.value
                      else !nodes[k].excluded && nodes[k].instance.None?
  }

  /** Every server is that of some address, which it carries, and the server of every
      address is among them. */
  ghost predicate ServersOf(nodes: seq<Node>, nodePort: int, enis: Option<map<string, string>>, s: seq<Initial>, servers: seq<Backend>) {
    && (forall b :: b in servers ==> exists x :: x in s && x.ip == b.ip && ServerOf(nodes, nodePort, enis, x, b.serverId, b.port))
    && (forall x, id, port :: x in s && ServerOf(nodes, nodePort, enis, x, id, port) ==> exists b :: b in servers && b.serverId == id)
  }

  lemma {:induction false} EcsMembers(nodes: seq<Node>, nodePort: int, s: seq<Initial>)
    requires forall b :: b in s ==> Resolvable(nodes, b)
    ensures forall x :: x in s && OnInstance(nodes, x) && InstanceOf(nodes, x).Some? ==> InstanceBackend(nodes, nodePort, x) in EcsBackends(nodes, nodePort, s)
    ensures forall b :: b in EcsBackends(nodes, nodePort, s) ==>
              exists x :: x in s && OnInstance(nodes, x) && InstanceOf(nodes, x).Some? && b == InstanceBackend(nodes, nodePort, x)
  {
    if s != [] {
      var front, x := s[..|s| - 1], s[|s| - 1];
      assert s == front + [x];
      assert forall b :: b in front ==> b in s;
      EcsMembers(nodes, nodePort, front);
      var before := EcsBackends(nodes, nodePort, front);
      assert x in s && Resolvable(nodes, x);
      forall b | b in EcsBackends(nodes, nodePort, s)
        ensures exists y :: y in s && OnInstance(nodes, y) && InstanceOf(nodes, y).Some? && b == InstanceBackend(nodes, nodePort, y)
      {
        if b in before {
          var y :| y in front && OnInstance(nodes, y) && InstanceOf(nodes, y).Some? && b == InstanceBackend(nodes, nodePort, y);
          assert y in s;
        } else {
          assert OnInstance(nodes, x) && b == InstanceBackend(nodes, nodePort, x);
        }
      }
    }
  }

  lemma {:induction false} EciMembers(nodes: seq<Node>, s: seq<Initial>)
    ensures forall x :: x in EciBackends(nodes, s) <==> x in s && Virtual(nodes, x)
  {
    if s != [] {
      assert s == s[..|s| - 1] + [s[|s| - 1]];
      EciMembers(nodes, s[..|s| - 1]);
    }
  }

  lemma EniMembers(backends: seq<Initial>, enis: map<string, string>)
    requires forall b :: b in backends ==> b.ip in enis
    ensures forall x :: x in backends ==> Backend(enis[x.ip], x.ip, x.port, 0) in EniBackends(backends, enis)
    ensures forall b :: b in EniBackends(backends, enis) ==>
              exists x :: x in backends && b == Backend(enis[x.ip], x.ip, x.port, 0)
  {
    forall x | x in backends ensures Backend(enis[x.ip], x.ip, x.port, 0) in EniBackends(backends, enis) {
      var i :| 0 <= i < |backends| && backends[i] == x;
      assert EniBackends(backends, enis)[i] == Backend(enis[x.ip], x.ip, x.port, 0);
    }
    forall b | b in EniBackends(backends, enis) ensures exists x :: x in backends && b == Backend(enis[x.ip], x.ip, x.port, 0) {
      var i :| 0 <= i < |backends| && EniBackends(backends, enis)[i] == b;
      assert backends[i] in backends;
    }
  }

  /** What the node of an address says about it. */
  lemma NodeSays(nodes: seq<Node>, x: Initial, k: int)
    requires x.nodeName.Some? && Hosts(nodes, k, x.nodeName.value)
    ensures Virtual(nodes, x) <==> nodes[k].virtualNode
    ensures OnInstance(nodes, x) <==> !nodes[k].virtualNode && !nodes[k].excluded
    ensures Kept(nodes, x) <==> nodes[k].virtualNode || !nodes[k].excluded
    ensures OnInstance(nodes, x) ==> InstanceOf(nodes, x) == nodes[k].instance
  {
    FindNodeExactly(nodes, x.nodeName.value);
  }

  lemma HasNode(nodes: seq<Node>, x: Initial)
    ensures Virtual(nodes, x) || OnInstance(nodes, x) || Kept(nodes, x) ==> x.nodeName.Some? && exists k :: Hosts(nodes, k, x.nodeName.value)
  {
    if x.nodeName.Some? { FindNodeExactly(nodes, x.nodeName.value); }
  }

  lemma BuildableExactly(nodes: seq<Node>, s: seq<Initial>, enis: Option<map<string, string>>)
    ensures Buildable(nodes, s, enis) <==> forall x :: x in s ==> !Unresolvable(nodes, enis, x)
  {
    EciMembers(nodes, s);
    forall x | x in s
      ensures Unresolvable(nodes, enis, x) <==> !Resolvable(nodes, x) || (Virtual(nodes, x) && (enis.None? || x.ip !in enis.value))
    {
      ResolvableExactly(nodes, enis, x);
    }
    if EciBackends(nodes, s) != [] { assert EciBackends(nodes, s)[0] in EciBackends(nodes, s); }
  }

  lemma ResolvableExactly(nodes: seq<Node>, enis: Option<map<string, string>>, x: Initial)
    ensures Unresolvable(nodes, enis, x) <==> !Resolvable(nodes, x) || (Virtual(nodes, x) && (enis.None? || x.ip !in enis.value))
  {
    HasNode(nodes, x);
    if x.nodeName.Some? {
      forall k | Hosts(nodes, k, x.nodeName.value)
        ensures Virtual(nodes, x) <==> nodes[k].virtualNode
        ensures OnInstance(nodes, x) <==> !nodes[k].virtualNode && !nodes[k].excluded
        ensures OnInstance(nodes, x) ==> InstanceOf(nodes, x) == nodes[k].instance
      {
        NodeSays(nodes, x, k);
      }
    }
  }

  /** The server of an address, in terms of the two kinds of backends. */
  lemma ServerOfExactly(nodes: seq<Node>, nodePort: int, enis: Option<map<string, string>>, x: Initial, id: string, port: int)
    requires Resolvable(nodes, x) && (Virtual(nodes, x) ==> enis.Some? && x.ip in enis.value)
    ensures ServerOf(nodes, nodePort, enis, x, id, port) <==>
            || (Virtual(nodes, x) && id == enis.value[x.ip] && port == x.port)
            || (OnInstance(nodes, x) && id == InstanceOf(nodes, x).value && port == nodePort)
  {
    HasNode(nodes, x);
    forall k | Hosts(nodes, k, x.nodeName.value)
      ensures OnNode(nodes[k], nodePort, enis, x, id, port) <==>
              || (Virtual(nodes, x) && id == enis.value[x.ip] && port == x.port)
              || (OnInstance(nodes, x) && id == InstanceOf(nodes, x).value && port == nodePort)
    {
      NodeSays(nodes, x, k);
    }
  }

  lemma ResolvedServers(nodes: seq<Node>, nodePort: int, s: seq<Initial>, enis: Option<map<string, string>>)
    requires Buildable(nodes, s, enis)
    ensures ServersOf(nodes, nodePort, enis, s, Resolved(nodes, nodePort, s, enis))
  {
    EcsMembers(nodes, nodePort, s);
    EciMembers(nodes, s);
    var eci := EciBackends(nodes, s);
    if eci != [] { EniMembers(eci, enis.value); }
    var all := Resolved(nodes, nodePort, s, enis);
    forall x | x in s && Virtual(nodes, x) ensures enis.Some? && x.ip in enis.value { assert x in eci; }
    forall b | b in all ensures exists x :: x in s && x.ip == b.ip && ServerOf(nodes, nodePort, enis, x, b.serverId, b.port) {
      if b in EcsBackends(nodes, nodePort, s) {
        var x :| x in s && OnInstance(nodes, x) && b == InstanceBackend(nodes, nodePort, x);
        ServerOfExactly(nodes, nodePort, enis, x, b.serverId, b.port);
      } else {
        var x :| x in eci && b == Backend(enis.value[x.ip], x.ip, x.port, 0);
        ServerOfExactly(nodes, nodePort, enis, x, b.serverId, b.port);
      }
    }
    forall x, id, port | x in s && ServerOf(nodes, nodePort, enis, x, id, port) ensures exists b :: b in all && b.serverId == id {
      ServerOfExactly(nodes, nodePort, enis, x, id, port);
      if Virtual(nodes, x) {
        assert Backend(enis.value[x.ip], x.ip, x.port, 0) in all;
      } else {
        assert InstanceBackend(nodes, nodePort, x) in all;
      }
    }
  }

  /** Setting weights and removing duplicates loses no server. */
  lemma WeighedServers(nodes: seq<Node>, nodePort: int, enis: Option<map<string, string>>, s: seq<Initial>, all: seq<Backend>, f: string -> int)
    requires ServersOf(nodes, nodePort, enis, s, all)
    ensures ServersOf(nodes, nodePort, enis, s, Deduplicated(WithWeights(all, f)))
  {
    var w := WithWeights(all, f);
    DeduplicatedFacts(w);
    DeduplicatedKeeps(w);
    forall b | b in Deduplicated(w) ensures exists x :: x in s && x.ip == b.ip && ServerOf(nodes, nodePort, enis, x, b.serverId, b.port) {
      var i :| 0 <= i < |w| && w[i] == b;
      assert all[i] in all && w[i] == all[i].(weight := f(all[i].serverId));
    }
    forall x, id, port | x in s && ServerOf(nodes, nodePort, enis, x, id, port)
      ensures exists b :: b in Deduplicated(w) && b.serverId == id
    {
      var b :| b in all && b.serverId == id;
      var i :| 0 <= i < |all| && all[i] == b;
      assert w[i] in w && w[i].serverId == id;
    }
  }

  lemma BuiltServers(nodes: seq<Node>, nodePort: int, s: seq<Initial>, enis: Option<map<string, string>>, f: string -> int)
    requires Buildable(nodes, s, enis)
    ensures ServersOf(nodes, nodePort, enis, s, Deduplicated(WithWeights(Resolved(nodes, nodePort, s, enis), f)))
  {
    ResolvedServers(nodes, nodePort, s, enis);
    WeighedServers(nodes, nodePort, enis, s, Resolved(nodes, nodePort, s, enis), f);
  }

  lemma {:induction false} DeduplicatedKeeps(s: seq<Backend>)
    ensures forall id :: id in ServerIds(s) ==> exists d :: d in Deduplicated(s) && d.serverId == id
    ensures forall b :: b in s ==> b.serverId in ServerIds(s)
  {
    if s != [] {
      var front, x := s[..|s| - 1], s[|s| - 1];
      DeduplicatedKeeps(front);
      assert x.serverId !in ServerIds(front) ==> x in Deduplicated(s);
      assert s == front + [x];
    }
  }

  // ----------------------------------------------------------------------- conservation

  function KeptCount(nodes: seq<Node>, s: seq<Initial>): nat {
    if s == [] then 0 else KeptCount(nodes, s[..|s| - 1]) + if Kept(nodes, s[|s| - 1]) then 1 else 0
  }

  lemma {:induction false} ResolvedCount(nodes: seq<Node>, nodePort: int, s: seq<Initial>)
    requires forall b :: b in s ==> Resolvable(nodes, b)
    ensures |EcsBackends(nodes, nodePort, s)| + |EciBackends(nodes, s)| == KeptCount(nodes, s)
  {
    if s != [] {
      assert forall b :: b in s[..|s| - 1] ==> b in s;
      ResolvedCount(nodes, nodePort, s[..|s| - 1]);
    }
  }

  /** The ready addresses that a node takes: the node is the one that reports the
      address first. */
  ghost function Serving(nodes: seq<Node>, s: seq<Initial>): set<string> {
    set b | b in s && Taken(nodes, s, b.ip) :: b.ip
  }

  predicate Taken(nodes: seq<Node>, s: seq<Initial>, ip: string) {
    First(s, ip).Some? && Kept(nodes, First(s, ip).value)
  }

  lemma {:induction false} FirstFacts(s: seq<Initial>, ip: string)
    ensures First(s, ip).Some? <==> exists b :: b in s && b.ip == ip
    ensures First(s, ip).Some? ==> First(s, ip).value in s && First(s, ip).value.ip == ip
  {
    if s != [] {
      FirstFacts(s[..|s| - 1], ip);
      assert s == s[..|s| - 1] + [s[|s| - 1]];
      assert forall b :: b in s <==> b in s[..|s| - 1] || b == s[|s| - 1];
    }
  }

  lemma ServingMeans(nodes: seq<Node>, s: seq<Initial>, ip: string)
    ensures ip in Serving(nodes, s) <==> Taken(nodes, s, ip)
  {
    FirstFacts(s, ip);
  }

  lemma TakenStep(nodes: seq<Node>, front: seq<Initial>, x: Initial, ip: string)
    ensures Taken(nodes, front + [x], ip)
       <==> Taken(nodes, front, ip) || (First(front, x.ip).None? && Kept(nodes, x) && ip == x.ip)
  {
    FirstStep(front, x);
  }

  lemma ServingStep(nodes: seq<Node>, front: seq<Initial>, x: Initial)
    ensures Serving(nodes, front + [x])
         == Serving(nodes, front) + if First(front, x.ip).None? && Kept(nodes, x) then {x.ip} else {}
    ensures First(front, x.ip).None? ==> x.ip !in Serving(nodes, front)
  {
    var added := if First(front, x.ip).None? && Kept(nodes, x) then {x.ip} else {};
    forall ip ensures ip in Serving(nodes, front + [x]) <==> ip in Serving(nodes, front) + added {
      ServingMeans(nodes, front, ip);
      ServingMeans(nodes, front + [x], ip);
      TakenStep(nodes, front, x, ip);
    }
    ServingMeans(nodes, front, x.ip);
  }

  lemma {:induction false} KeptAreServing(nodes: seq<Node>, s: seq<Initial>)
    ensures KeptCount(nodes, FirstPerAddress(s)) == |Serving(nodes, s)|
  {
    if s != [] {
      var front, x := s[..|s| - 1], s[|s| - 1];
      assert s == front + [x];
      KeptAreServing(nodes, front);
      ServingStep(nodes, front, x);
      FirstStep(front, x);
      KeptCountStep(nodes, FirstPerAddress(front), x);
    }
  }

  lemma KeptCountStep(nodes: seq<Node>, d: seq<Initial>, x: Initial)
    ensures KeptCount(nodes, d + [x]) == KeptCount(nodes, d) + if Kept(nodes, x) then 1 else 0
  {
    assert (d + [x])[..|d|] == d;
  }

  /** The total is off the configured weight by at most the number of servers, and not
      above it when it is at least the number of backends. */
  predicate WithinServers(servers: seq<Backend>, weight: int, backends: nat) {
    0 < weight <= MAX_INT32 && 0 < backends <= MAX_INT32 ==>
      && weight - |servers| < Sum(servers) <= weight + |servers|
      && (weight >= backends ==> Sum(servers) <= weight)
  }

  lemma PercentWithin(all: seq<Backend>, weight: int)
    ensures WithinServers(Deduplicated(WithWeights(all, LocalWeights(all, Some(weight)))), weight, |all|)
  {
    if 0 < weight <= MAX_INT32 && 0 < |all| <= MAX_INT32 {
      ProductBound(weight, |all|, MAX_INT32);
      ProductBound(MAX_INT32, weight, MAX_INT32);
      LocalTotalBounds(all, weight);
      SumDeduplicated(all, PodPercent(all, Local, weight));
    }
  }

  /** The servers that the addresses of the slices become, and no others. */
  ghost predicate ServersFrom(slices: seq<EndpointSlice>, svc: ServicePort, nodes: seq<Node>, enis: Option<map<string, string>>,
                              servers: seq<Backend>)
  {
    && (forall b :: b in servers ==> exists i, j, x ::
          FirstAt(slices, svc, i, j, x) && x.ip == b.ip && ServerOf(nodes, svc.nodePort, enis, x, b.serverId, b.port))
    && (forall i, j, x, id, port :: FirstAt(slices, svc, i, j, x) && ServerOf(nodes, svc.nodePort, enis, x, id, port) ==>
          exists b :: b in servers && b.serverId == id)
  }

  lemma ServersFromSlices(slices: seq<EndpointSlice>, svc: ServicePort, nodes: seq<Node>, enis: Option<map<string, string>>,
                          s: seq<Initial>, servers: seq<Backend>)
    requires FromSlices(slices, svc, s) && ServersOf(nodes, svc.nodePort, enis, s, servers)
    ensures ServersFrom(slices, svc, nodes, enis, servers)
  {
    forall b | b in servers
      ensures exists i, j, x :: FirstAt(slices, svc, i, j, x) && x.ip == b.ip && ServerOf(nodes, svc.nodePort, enis, x, b.serverId, b.port)
    {
      var x :| x in s && x.ip == b.ip && ServerOf(nodes, svc.nodePort, enis, x, b.serverId, b.port);
      var i, j :| FirstAt(slices, svc, i, j, x);
    }
  }

  /** The address is served: the node that reports it first is known, and virtual or not
      excluded. */
  ghost predicate Served(slices: seq<EndpointSlice>, svc: ServicePort, nodes: seq<Node>, ip: string) {
    exists i, j, x :: FirstAt(slices, svc, i, j, x) && x.ip == ip && NodeTakes(nodes, x)
  }

  ghost predicate NodeTakes(nodes: seq<Node>, x: Initial) {
    x.nodeName.Some? && exists k :: Hosts(nodes, k, x.nodeName.value) && (nodes[k].virtualNode || !nodes[k].excluded)
  }

  lemma NodeTakesExactly(nodes: seq<Node>, x: Initial)
    ensures NodeTakes(nodes, x) <==> Kept(nodes, x)
  {
    HasNode(nodes, x);
    if x.nodeName.Some? {
      forall k | Hosts(nodes, k, x.nodeName.value) ensures Kept(nodes, x) <==> nodes[k].virtualNode || !nodes[k].excluded {
        NodeSays(nodes, x, k);
      }
    }
  }

  lemma ServingExactly(slices: seq<EndpointSlice>, svc: ServicePort, nodes: seq<Node>, ip: string)
    ensures ip in Serving(nodes, ReadyAddresses(slices, svc)) <==> Served(slices, svc, nodes, ip)
  {
    var s := ReadyAddresses(slices, svc);
    ServingMeans(nodes, s, ip);
    FirstInSlices(slices, svc, ip);
    ReadyAddressesExactly(slices, svc);
    FirstPerAddressMeans(s);
    if First(s, ip).Some? { NodeTakesExactly(nodes, First(s, ip).value); }
    if i, j, x :| FirstAt(slices, svc, i, j, x) && x.ip == ip && NodeTakes(nodes, x) {
      NodeTakesExactly(nodes, x);
      assert x in FirstPerAddress(s);
    }
  }

  /** With no configured weight, the weights left after deduplication sum to the number
      of distinct ready addresses whose node is known and is virtual or not excluded. */
  method LocalFromSlices(slices: seq<EndpointSlice>, svc: ServicePort, nodes: seq<Node>, enis: Option<map<string, string>>,
                         weight: Option<int>)
    returns (r: Option<seq<Backend>>)
    ensures r.Some? <==> forall i, j, x :: FirstAt(slices, svc, i, j, x) ==> !Unresolvable(nodes, enis, x)
    ensures r.Some? ==> ServersFrom(slices, svc, nodes, enis, r.value)
    ensures r.Some? && weight.None? && |Serving(nodes, ReadyAddresses(slices, svc))| <= MAX_INT32
            ==> Sum(r.value) == |Serving(nodes, ReadyAddresses(slices, svc))|
    ensures r.Some? && weight.Some? ==> WithinServers(r.value, weight.value, |Serving(nodes, ReadyAddresses(slices, svc))|)
    ensures r.Some? && weight.Some? && weight.value != 0 ==> forall b :: b in r.value ==> b.weight >= 1
    ensures r.Some? && weight == Some(0) ==> forall b :: b in r.value ==> b.weight == 0
    ensures r.Some? ==> forall i, j :: 0 <= i < j < |r.value| ==> r.value[i].serverId != r.value[j].serverId
  {
    var s := SetBackendsFromEndpointSlices(slices, svc);
    r := BuildLocalBackends(s, nodes, svc.nodePort, enis, weight);
    if r.Some? {
      ServersFromSlices(slices, svc, nodes, enis, s, r.value);
      ghost var all := Resolved(nodes, svc.nodePort, s, enis);
      ResolvedCount(nodes, svc.nodePort, s);
      KeptAreServing(nodes, ReadyAddresses(slices, svc));
      if weight.None? {
        if |all| <= MAX_INT32 { PodsConserved(all); }
      } else {
        PercentWithin(all, weight.value);
      }
      WeighedFacts(all, weight);
    }
  }

  lemma WeighedFacts(all: seq<Backend>, weight: Option<int>)
    ensures var d := Deduplicated(WithWeights(all, LocalWeights(all, weight)));
            && (weight.Some? ==> forall b :: b in d ==> if weight.value == 0 then b.weight == 0 else b.weight >= 1)
            && (forall i, j :: 0 <= i < j < |d| ==> d[i].serverId != d[j].serverId)
  {
    var w := WithWeights(all, LocalWeights(all, weight));
    DeduplicatedFacts(w);
    if weight.Some? {
      forall b | b in w ensures if weight.value == 0 then b.weight == 0 else b.weight >= 1 {
        var i :| 0 <= i < |w| && w[i] == b;
      }
    }
  }

  lemma {:induction false} DeduplicatedFacts(s: seq<Backend>)
    ensures forall b :: b in Deduplicated(s) ==> b in s
    ensures forall b :: b in Deduplicated(s) ==> b.serverId in ServerIds(s)
    ensures forall i, j :: 0 <= i < j < |Deduplicated(s)| ==> Deduplicated(s)[i].serverId != Deduplicated(s)[j].serverId
  {
    if s != [] {
      DeduplicatedFacts(s[..|s| - 1]);
      assert forall b :: b in s[..|s| - 1] ==> b in s;
    }
  }
}
