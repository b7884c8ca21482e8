/** Building the local model from a service: protocol selection, names of
    listeners and server groups, and why the two always pair up. */
module Builder {
  import opened Common
  import opened Names
  import opened LetterCase
  import opened GroupApplier

  datatype TargetPort = IntPort(n: int) | StrPort(s: string)

  datatype ServicePort = ServicePort(port: int, nodePort: int, targetPort: TargetPort, protocol: string)

  // -------------------------------------------------------------------------- protocol

  /** The items of the protocol annotation, in order.  A malformed item is an error
      only when the scan reaches it. */
  function ScanProtocols(items: seq<string>, port: ServicePort): Result<string> {
    if items == [] then Success(Upper(port.protocol))
    else
      var pp := Split(items[0], ':');
      if |pp| < 2 then Failure
      else if Upper(pp[0]) !in ["TCP", "UDP", "TCPSSL"] then Failure
      else if pp[1] == Itoa(port.port) then Success(Upper(pp[0]))
      else ScanProtocols(items[1..], port)
  }

  function NlbListenerProtocol(annotation: string, port: ServicePort): Result<string> {
    if annotation == "" then Success(Upper(port.protocol)) else ScanProtocols(Split(annotation, ','), port)
  }

  predicate MalformedItem(item: string) {
    var pp := Split(item, ':');
    |pp| < 2 || Upper(pp[0]) !in ["TCP", "UDP", "TCPSSL"]
  }

  /** The item speaks of port `n`. */
  predicate ItemFor(item: string, n: int) {
    var pp := Split(item, ':');
    |pp| >= 2 && pp[1] == Itoa(n)
  }

  /** The scan comes to item `k`: no item before it is for this port. */
  predicate Reaches(items: seq<string>, n: int, k: nat)
    requires k <= |items|
  {
    forall i :: 0 <= i < k ==> !ItemFor(items[i], n)
  }

  /** A malformed item comes before the first one for port `n`. */
  predicate MalformedFirst(items: seq<string>, n: int) {
    exists k :: 0 <= k < |items| && MalformedItem(items[k]) && Reaches(items, n, k)
  }

  lemma {:induction false} ScanExactly(items: seq<string>, port: ServicePort)
    ensures ScanProtocols(items, port).Failure? <==> MalformedFirst(items, port.port)
    ensures ScanProtocols(items, port).Success? ==>
              forall k :: 0 <= k < |items| && ItemFor(items[k], port.port) && Reaches(items, port.port, k) ==>
                            ScanProtocols(items, port).value == Upper(Split(items[k], ':')[0])
    ensures ScanProtocols(items, port).Success? && Reaches(items, port.port, |items|) ==>
              ScanProtocols(items, port).value == Upper(port.protocol)
  {
    if items != [] {
      var rest := items[1..];
      ScanExactly(rest, port);
      forall k | 0 <= k <= |rest| ensures Reaches(items, port.port, k + 1) <==> !ItemFor(items[0], port.port) && Reaches(rest, port.port, k) {
        assert forall i :: 0 <= i < k ==> rest[i] == items[i + 1];
        if Reaches(items, port.port, k + 1) {
          assert !ItemFor(items[0], port.port);
          forall i | 0 <= i < k ensures !ItemFor(rest[i], port.port) { assert !ItemFor(items[i + 1], port.port); }
        }
      }
      assert Reaches(items, port.port, 0);
      if k :| 0 <= k < |rest| && MalformedItem(rest[k]) && Reaches(rest, port.port, k) {
        assert items[k + 1] == rest[k];
        if !ItemFor(items[0], port.port) { assert MalformedItem(items[k + 1]) && Reaches(items, port.port, k + 1); }
      }
      if k :| 0 < k < |items| && MalformedItem(items[k]) && Reaches(items, port.port, k) {
        assert rest[k - 1] == items[k] && Reaches(items, port.port, (k - 1) + 1);
      }
      forall k | 0 < k < |items| && ItemFor(items[k], port.port) && Reaches(items, port.port, k) && ScanProtocols(items, port).Success?
        ensures ScanProtocols(items, port).value == Upper(Split(items[k], ':')[0])
      {
        assert rest[k - 1] == items[k] && Reaches(items, port.port, (k - 1) + 1);
      }
      assert Reaches(items, port.port, |rest| + 1) <==> Reaches(items, port.port, |items|);
    }
  }

  /** Some item of the annotation is for port `n`. */
  predicate Mentions(annotation: string, n: int) {
    annotation != "" && exists k :: 0 <= k < |Split(annotation, ',')| && ItemFor(Split(annotation, ',')[k], n)
  }

  /** Two ports of the same number whose own protocols differ get the same protocol
      exactly when the annotation mentions the number. */
  lemma SameProtocolExactly(annotation: string, a: ServicePort, b: ServicePort)
    requires a.port == b.port && Upper(a.protocol) != Upper(b.protocol)
    requires NlbListenerProtocol(annotation, a).Success? && NlbListenerProtocol(annotation, b).Success?
    ensures NlbListenerProtocol(annotation, a) == NlbListenerProtocol(annotation, b) <==> Mentions(annotation, a.port)
  {
    var items := Split(annotation, ',');
    ScanExactly(items, a);
    ScanExactly(items, b);
    if Mentions(annotation, a.port) {
      var k := FirstItem(items, a.port);
      assert ItemFor(items[k], a.port) && Reaches(items, a.port, k);
    } else if annotation != "" {
      assert Reaches(items, a.port, |items|);
    }
  }

  lemma FirstItem(items: seq<string>, n: int) returns (k: nat)
    requires exists i :: 0 <= i < |items| && ItemFor(items[i], n)
    ensures k < |items| && ItemFor(items[k], n) && Reaches(items, n, k)
  {
    k := 0;
    while !ItemFor(items[k], n)
      invariant k < |items| && Reaches(items, n, k)
      invariant exists i :: k <= i < |items| && ItemFor(items[i], n)
      decreases |items| - k
    {
      k := k + 1;
    }
  }

  function GetListenerProtocolType(protocol: string): string {
    if EqualFold(protocol, "TCP") then "TCP"
    else if EqualFold(protocol, "UDP") then "UDP"
    else if EqualFold(protocol, "TCPSSL") then "TCPSSL"
    else protocol
  }

  lemma {:induction false} ScanIsUpper(items: seq<string>, port: ServicePort)
    ensures ScanProtocols(items, port).Success? ==>
              var p := ScanProtocols(items, port).value;
              Upper(p) == p && (p in ["TCP", "UDP", "TCPSSL"] || p == Upper(port.protocol))
  {
    UpperTwice(port.protocol);
    if items != [] {
      ScanIsUpper(items[1..], port);
      UpperTwice(Split(items[0], ':')[0]);
    }
  }

  lemma UpperLiterals()
    ensures Upper("TCP") == "TCP" && Upper("UDP") == "UDP" && Upper("TCPSSL") == "TCPSSL"
  {
    assert Upper("TCP")[0] == 'T' && Upper("UDP")[0] == 'U' && Upper("TCPSSL")[0] == 'T';
  }

  /** Normalising a listener's protocol for its group changes nothing. */
  lemma ProtocolKept(annotation: string, port: ServicePort)
    ensures NlbListenerProtocol(annotation, port).Success? ==>
              var p := NlbListenerProtocol(annotation, port).value;
              GetListenerProtocolType(p) == p
  {
    ScanIsUpper(Split(annotation, ','), port);
    UpperTwice(port.protocol);
    UpperLiterals();
  }

  // ----------------------------------------------------------------------------- names

  function KeyOf(me: Owner): NamedKey {
    NamedKey(DEFAULT_PREFIX, me.cluster, me.namespace, me.name)
  }

  /** The port in a group name: the target port for ENI backends, the node port
      otherwise. */
  function GroupPort(eni: bool, port: ServicePort): string {
    if eni then
      match port.targetPort
      case IntPort(n) => Itoa(n)
      case StrPort(s) => s
    else Itoa(port.nodePort)
  }

  function ServerGroupKey(me: Owner, eni: bool, protocol: string, port: ServicePort): GroupKey {
    GroupKey(KeyOf(me), protocol, GroupPort(eni, port))
  }

  /** The annotations that can make the load balancer or a listener fail to build. */
  datatype Annotations = Annotations(loadBalancerId: string, zoneMaps: string, protocolPort: string, idleTimeout: string, cps: string)

  /** Absent, or a decimal number. */
  predicate IsNumber(s: string) { s == "" || Atoi(s).Success? }

  datatype BuiltListener = BuiltListener(port: ServicePort, protocol: string, desc: string, groupName: string)

  datatype BuiltGroup = BuiltGroup(key: GroupKey, name: string)

  function BuildListener(me: Owner, eni: bool, anno: Annotations, port: ServicePort): Result<BuiltListener> {
    match NlbListenerProtocol(anno.protocolPort, port)
    case Failure => Failure
    case Success(proto) =>
      if !IsNumber(anno.idleTimeout) || !IsNumber(anno.cps) then Failure
      else Success(BuiltListener(port, proto, ListenerName(ListenerKey(KeyOf(me), port.port, proto)),
                                 GroupName(ServerGroupKey(me, eni, proto, port))))
  }

  function BuildGroup(me: Owner, eni: bool, l: BuiltListener): BuiltGroup {
    var key := ServerGroupKey(me, eni, GetListenerProtocolType(l.protocol), l.port);
    BuiltGroup(key, GroupName(key))
  }

  /** A group has the name its listener asks for. */
  predicate PairOf(me: Owner, eni: bool, anno: Annotations, port: ServicePort, l: BuiltListener, g: BuiltGroup) {
    && BuildListener(me, eni, anno, port) == Success(l)
    && g.name == l.groupName
    && g.key == ServerGroupKey(me, eni, l.protocol, port)
  }

  /** Groups built for `ports`, named by their keys. */
  ghost predicate Built(me: Owner, eni: bool, anno: Annotations, ports: seq<ServicePort>,
                        listeners: seq<BuiltListener>, groups: seq<BuiltGroup>) {
    && |listeners| == |ports| && |groups| == |ports|
    && forall i :: 0 <= i < |ports| ==> PairOf(me, eni, anno, ports[i], listeners[i], groups[i])
  }

  lemma BuiltPair(me: Owner, eni: bool, anno: Annotations, port: ServicePort, l: BuiltListener)
    requires BuildListener(me, eni, anno, port) == Success(l)
    ensures PairOf(me, eni, anno, port, l, BuildGroup(me, eni, l))
  {
    ProtocolKept(anno.protocolPort, port);
  }

  predicate Buildable(me: Owner, eni: bool, anno: Annotations, port: ServicePort) {
    BuildListener(me, eni, anno, port).Success?
  }

  /** A listener cannot be built exactly when a number annotation is malformed, or the
      protocol annotation has a malformed item before the first one for this port. */
  lemma BuildableExactly(me: Owner, eni: bool, anno: Annotations, port: ServicePort)
    ensures !Buildable(me, eni, anno, port) <==>
            || (anno.idleTimeout != "" && Atoi(anno.idleTimeout).Failure?)
            || (anno.cps != "" && Atoi(anno.cps).Failure?)
            || (anno.protocolPort != "" && MalformedFirst(Split(anno.protocolPort, ','), port.port))
  {
    ScanExactly(Split(anno.protocolPort, ','), port);
    assert Buildable(me, eni, anno, port) <==>
           NlbListenerProtocol(anno.protocolPort, port).Success? && IsNumber(anno.idleTimeout) && IsNumber(anno.cps);
  }

  predicate BuiltFrom(me: Owner, eni: bool, anno: Annotations, port: ServicePort, l: BuiltListener) {
    BuildListener(me, eni, anno, port) == Success(l)
  }

  /** The listener loop stops at the first port that cannot be built. */
  method BuildListeners(me: Owner, eni: bool, anno: Annotations, ports: seq<ServicePort>)
    returns (ok: bool, listeners: seq<BuiltListener>)
    ensures ok <==> forall i :: 0 <= i < |ports| ==> Buildable(me, eni, anno, ports[i])
    ensures ok ==> |listeners| == |ports| && forall i :: 0 <= i < |ports| ==> BuiltFrom(me, eni, anno, ports[i], listeners[i])
  {
    listeners := [];
    for i := 0 to |ports|
      invariant |listeners| == i
      invariant forall k :: 0 <= k < i ==> BuiltFrom(me, eni, anno, ports[k], listeners[k])
      invariant forall k :: 0 <= k < i ==> Buildable(me, eni, anno, ports[k])
    {
      var l := BuildListener(me, eni, anno, ports[i]);
      if l.Failure? {
        assert !Buildable(me, eni, anno, ports[i]);
        return false, [];
      }
      listeners := listeners + [l.value];
    }
    ok := true;
  }

  datatype ZoneMapping = ZoneMapping(zoneId: string, vSwitchId: string, ipv4Addr: string, allocationId: string)

  predicate IsZoneItem(item: string) { |Split(item, ':')| >= 2 }

  function ZoneOf(item: string): ZoneMapping
    requires IsZoneItem(item)
  {
    var items := Split(item, ':');
    ZoneMapping(items[0], items[1], if |items| > 2 then items[2] else "", if |items| > 3 then items[3] else "")
  }

  predicate ZoneItems(items: seq<string>) {
    forall i :: 0 <= i < |items| ==> IsZoneItem(items[i])
  }

  function ZonesOf(items: seq<string>): (r: seq<ZoneMapping>)
    requires ZoneItems(items)
    ensures |r| == |items| && forall i :: 0 <= i < |items| ==> r[i] == ZoneOf(items[i])
  {
    seq(|items|, i requires 0 <= i < |items| => ZoneOf(items[i]))
  }

  /** `ParseZoneMappings`: one mapping per item, or an error if an item has no colon. */
  method ParseZoneMappings(zoneMaps: string) returns (r: Option<seq<ZoneMapping>>)
    ensures r.Some? <==> ZoneItems(Split(zoneMaps, ','))
    ensures r.Some? ==> r.value == ZonesOf(Split(zoneMaps, ',')) && r.value != []
  {
    var attrs, ret := Split(zoneMaps, ','), [];
    for i := 0 to |attrs|
      invariant forall k :: 0 <= k < i ==> IsZoneItem(attrs[k])
      invariant |ret| == i && forall k :: 0 <= k < i ==> ret[k] == ZoneOf(attrs[k])
    {
      if !IsZoneItem(attrs[i]) { return None; }
      ret := ret + [ZoneOf(attrs[i])];
    }
    return Some(ret);
  }

  /** How a mapping is written: zone and switch, and the addresses as far as they are given. */
  function PartsOf(z: ZoneMapping): (r: seq<string>)
    ensures |r| >= 2
  {
    if z.allocationId != "" then [z.zoneId, z.vSwitchId, z.ipv4Addr, z.allocationId]
    else if z.ipv4Addr != "" then [z.zoneId, z.vSwitchId, z.ipv4Addr]
    else [z.zoneId, z.vSwitchId]
  }

  function Written(zones: seq<ZoneMapping>): (r: seq<string>)
    ensures |r| == |zones| && forall i :: 0 <= i < |zones| ==> r[i] == Join(PartsOf(zones[i]), ':')
  {
    seq(|zones|, i requires 0 <= i < |zones| => Join(PartsOf(zones[i]), ':'))
  }

  predicate Plain(z: ZoneMapping) {
    Free(PartsOf(z), ':') && Free(PartsOf(z), ',')
  }

  /** Mappings that are written down are read back. */
  lemma ZonesRoundTrip(zones: seq<ZoneMapping>)
    requires zones != [] && forall i :: 0 <= i < |zones| ==> Plain(zones[i])
    ensures var items := Split(Join(Written(zones), ','), ','); ZoneItems(items) && ZonesOf(items) == zones
  {
    var texts := Written(zones);
    forall t | t in texts ensures ',' !in t {
      var i :| 0 <= i < |texts| && texts[i] == t;
      assert Plain(zones[i]);
      JoinAvoids(PartsOf(zones[i]), ':', ',');
    }
    SplitJoin(texts, ',');
    forall i | 0 <= i < |zones| ensures IsZoneItem(texts[i]) && ZoneOf(texts[i]) == zones[i] {
      assert Plain(zones[i]);
      SplitJoin(PartsOf(zones[i]), ':');
    }
  }

  lemma {:induction false} JoinAvoids(parts: seq<string>, sep: char, c: char)
    requires |parts| > 0 && c != sep && Free(parts, c)
    ensures c !in Join(parts, sep)
  {
    assert parts[0] in parts;
    if |parts| > 1 {
      assert forall p :: p in parts[1..] ==> p in parts;
      JoinAvoids(parts[1..], sep, c);
    }
  }

  /** Zones are required unless the load balancer is reused, and well formed. */
  predicate ZonesGiven(anno: Annotations) {
    if anno.zoneMaps == "" then anno.loadBalancerId != ""
    else ZoneItems(Split(anno.zoneMaps, ','))
  }

  method BuildLoadBalancer(anno: Annotations) returns (ok: bool)
    ensures ok == ZonesGiven(anno)
  {
    if anno.zoneMaps != "" {
      var zones := ParseZoneMappings(anno.zoneMaps);
      return zones.Some?;
    }
    return anno.loadBalancerId != "";
  }

  /** The three builders.  `candidates` tells whether the endpoints could be read, and
      `backends` for which ports the attributes and servers of the group can be built.
      Building fails exactly when one of these fails, zones are missing or malformed, or
      some listener cannot be built; otherwise each listener is paired with the group
      built from it. */
  method BuildLocalModel(me: Owner, eni: bool, anno: Annotations, ports: seq<ServicePort>, candidates: bool, backends: ServicePort -> bool)
    returns (ok: bool, listeners: seq<BuiltListener>, groups: seq<BuiltGroup>)
    ensures ok <==> ZonesGiven(anno) && candidates
                    && forall i :: 0 <= i < |ports| ==> Buildable(me, eni, anno, ports[i]) && backends(ports[i])
    ensures ok ==> Built(me, eni, anno, ports, listeners, groups)
  {
    listeners, groups := [], [];
    ok := BuildLoadBalancer(anno);
    if !ok { return; }
    ok, listeners := BuildListeners(me, eni, anno, ports);
    if !ok || !candidates { return false, listeners, groups; }
    for i := 0 to |listeners|
      invariant |groups| == i
      invariant forall k :: 0 <= k < i ==> PairOf(me, eni, anno, ports[k], listeners[k], groups[k]) && backends(ports[k])
    {
      BuiltPair(me, eni, anno, ports[i], listeners[i]);
      if !backends(listeners[i].port) { return false, listeners, groups; }
      groups := groups + [BuildGroup(me, eni, listeners[i])];
    }
  }

  /** The groups as the applier sees them, with any servers. */
  ghost predicate ModelsOf(models: seq<GroupModel>, groups: seq<BuiltGroup>) {
    |models| == |groups| && forall i :: 0 <= i < |groups| ==> models[i].name == groups[i].name
  }

  /** Kubernetes names, cluster ids, protocols and port names without dots. */
  ghost predicate DotFreeModel(me: Owner, eni: bool, listeners: seq<BuiltListener>) {
    && '.' !in me.name && '.' !in me.namespace && '.' !in me.cluster
    && forall l :: l in listeners ==> '.' !in l.protocol && '.' !in GroupPort(eni, l.port)
  }

  /** On every model that was built, the search for a listener's group succeeds;
      the group found has the listener's own protocol and port; and both names are
      recognised as this service's. */
  lemma Pairing(me: Owner, eni: bool, anno: Annotations, ports: seq<ServicePort>,
                listeners: seq<BuiltListener>, groups: seq<BuiltGroup>, models: seq<GroupModel>, i: nat)
    requires Built(me, eni, anno, ports, listeners, groups) && ModelsOf(models, groups)
    requires DotFreeModel(me, eni, listeners) && i < |listeners| && IsInt32(ports[i].port)
    ensures exists j :: 0 <= j < |groups|
                     && First(models, listeners[i].groupName) == Some(models[j].id)
                     && groups[j].key.protocol == listeners[i].protocol
                     && groups[j].key.groupPort == (if !eni then Itoa(ports[i].nodePort)
                                                    else if ports[i].targetPort.StrPort? then ports[i].targetPort.s
                                                    else Itoa(ports[i].targetPort.n))
                     && ManagedGroup(me, models[j].name)
    ensures ManagedListener(me, listeners[i].desc)
  {
    var j := FirstIndex(models, listeners[i].groupName, i);
    assert listeners[i] in listeners && listeners[j] in listeners;
    assert PairOf(me, eni, anno, ports[i], listeners[i], groups[i]);
    assert PairOf(me, eni, anno, ports[j], listeners[j], groups[j]);
    PairNames(me, eni, anno, ports[i], listeners[i], groups[i], ports[j], listeners[j], groups[j]);
  }

  lemma FirstIndex(models: seq<GroupModel>, name: string, i: nat) returns (j: nat)
    requires i < |models| && models[i].name == name
    ensures j < |models| && models[j].name == name && First(models, name) == Some(models[j].id)
  {
    j := 0;
    while models[j].name != name
      invariant j <= i && forall k :: 0 <= k < j ==> models[k].name != name
      decreases i - j
    {
      j := j + 1;
    }
    FirstIs(models, j, name);
  }

  lemma PairNames(me: Owner, eni: bool, anno: Annotations, port: ServicePort, l: BuiltListener, g: BuiltGroup,
                  port': ServicePort, l': BuiltListener, g': BuiltGroup)
    requires PairOf(me, eni, anno, port, l, g) && PairOf(me, eni, anno, port', l', g')
    requires '.' !in me.name && '.' !in me.namespace && '.' !in me.cluster && IsInt32(port.port)
    requires '.' !in l.protocol && '.' !in GroupPort(eni, l.port) && '.' !in l'.protocol && '.' !in GroupPort(eni, l'.port)
    requires g.name == g'.name
    ensures g'.key.protocol == l.protocol && g'.key.groupPort == GroupPort(eni, port)
    ensures ManagedGroup(me, g'.name) && ManagedListener(me, l.desc)
  {
    assert l.port == port && l'.port == port';
    GroupRoundTrip(g.key);
    GroupNameInjective(g.key, g'.key);
    ListenerRoundTrip(ListenerKey(KeyOf(me), port.port, l.protocol));
  }
}
