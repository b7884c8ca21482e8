/** Attribute updates of listeners and server groups: a deep copy of the remote object
    is overlaid with what the service sets and differs. */
module Overlay {
  import opened Common
  import opened LetterCase
  import opened StringSlices

  // --------------------------------------------------------------- when a field agrees

  function BoolValue(b: Option<bool>): bool { b == Some(true) }

  function IntValue(n: Option<int>): int { if n.Some? then n.value else 0 }

  predicate TextAgrees(local: string, remote: string) { local == "" || local == remote }

  predicate FoldAgrees(local: string, remote: string) { local == "" || EqualFold(local, remote) }

  predicate NumAgrees(local: int, remote: int) { local == 0 || local == remote }

  predicate FlagAgrees(local: Option<bool>, remote: Option<bool>) { local.None? || BoolValue(local) == BoolValue(remote) }

  predicate IntAgrees(local: Option<int>, remote: Option<int>) { local.None? || IntValue(local) == IntValue(remote) }

  predicate ListAgrees(local: seq<string>, remote: seq<string>) { local == [] || AllFound(local, remote) }

  /** One field of the update: the remote value, unless the service sets another. */
  function Pick<T>(agrees: bool, local: T, remote: T): T { if agrees then remote else local }

  /** What the service sets agrees with itself. */
  lemma OwnAgrees()
    ensures forall s: seq<string> :: ListAgrees(s, s)
    ensures forall s: string :: FoldAgrees(s, s)
  {
    forall s: seq<string> ensures ListAgrees(s, s) {
      PermutationFound(s, s);
    }
  }

  // -------------------------------------------------------------------------- listeners

  datatype ListenerState = ListenerState(
    description: string, groupId: string, proxyProtocol: Option<bool>, idleTimeout: int, cps: Option<int>,
    certificateIds: seq<string>, caCertificateIds: seq<string>, caEnabled: Option<bool>, securityPolicyId: string)

  /** Nothing that the service sets differs. The TLS fields matter for TCPSSL only. */
  predicate ListenerAgrees(tls: bool, l: ListenerState, r: ListenerState) {
    && l.description == r.description && l.groupId == r.groupId
    && FlagAgrees(l.proxyProtocol, r.proxyProtocol) && NumAgrees(l.idleTimeout, r.idleTimeout) && IntAgrees(l.cps, r.cps)
    && (tls ==>
          && ListAgrees(l.certificateIds, r.certificateIds) && ListAgrees(l.caCertificateIds, r.caCertificateIds)
          && FlagAgrees(l.caEnabled, r.caEnabled) && TextAgrees(l.securityPolicyId, r.securityPolicyId))
  }

  function ListenerOverlay(tls: bool, l: ListenerState, r: ListenerState): ListenerState {
    ListenerState(
      l.description, l.groupId,
      Pick(FlagAgrees(l.proxyProtocol, r.proxyProtocol), l.proxyProtocol, r.proxyProtocol),
      Pick(NumAgrees(l.idleTimeout, r.idleTimeout), l.idleTimeout, r.idleTimeout),
      Pick(IntAgrees(l.cps, r.cps), l.cps, r.cps),
      Pick(!tls || ListAgrees(l.certificateIds, r.certificateIds), l.certificateIds, r.certificateIds),
      Pick(!tls || ListAgrees(l.caCertificateIds, r.caCertificateIds), l.caCertificateIds, r.caCertificateIds),
      Pick(!tls || FlagAgrees(l.caEnabled, r.caEnabled), l.caEnabled, r.caEnabled),
      Pick(!tls || TextAgrees(l.securityPolicyId, r.securityPolicyId), l.securityPolicyId, r.securityPolicyId))
  }

  // A field of the update: the local value where the service sets one that differs, and
  // the remote value otherwise.  An absent flag is off, and an absent number 0.

  predicate TextSet(local: string, remote: string, update: string) {
    update == if local != "" then local else remote
  }

  predicate NumSet(local: int, remote: int, update: int) {
    update == if local != 0 then local else remote
  }

  predicate FoldSet(local: string, remote: string, update: string) {
    update == if local != "" && Upper(local) != Upper(remote) then local else remote
  }

  predicate FlagSet(local: Option<bool>, remote: Option<bool>, update: Option<bool>) {
    update == if local.Some? && local.value != (remote == Some(true)) then local else remote
  }

  predicate IntSet(local: Option<int>, remote: Option<int>, update: Option<int>) {
    if local.None? then update == remote
    else update == if local.value == (if remote.Some? then remote.value else 0) then remote else local
  }

  predicate ListSet(local: seq<string>, remote: seq<string>, update: seq<string>) {
    update == if local != [] && !AllFound(local, remote) then local else remote
  }

  /** Field by field, the update has what the service sets and differs, and otherwise what
      the remote listener has.  The TLS fields are for TCPSSL only. */
  predicate SetFields(tls: bool, l: ListenerState, r: ListenerState, u: ListenerState) {
    && u.description == l.description && u.groupId == l.groupId
    && FlagSet(l.proxyProtocol, r.proxyProtocol, u.proxyProtocol)
    && NumSet(l.idleTimeout, r.idleTimeout, u.idleTimeout)
    && IntSet(l.cps, r.cps, u.cps)
    && (if tls then ListSet(l.certificateIds, r.certificateIds, u.certificateIds) else u.certificateIds == r.certificateIds)
    && (if tls then ListSet(l.caCertificateIds, r.caCertificateIds, u.caCertificateIds) else u.caCertificateIds == r.caCertificateIds)
    && (if tls then FlagSet(l.caEnabled, r.caEnabled, u.caEnabled) else u.caEnabled == r.caEnabled)
    && (if tls then TextSet(l.securityPolicyId, r.securityPolicyId, u.securityPolicyId) else u.securityPolicyId == r.securityPolicyId)
  }

  /** The overlay agrees with the service, is the remote listener exactly when that agreed
      already, and changes exactly what the service sets and differs. */
  lemma ListenerFixpoint(tls: bool, l: ListenerState, r: ListenerState)
    ensures ListenerAgrees(tls, l, ListenerOverlay(tls, l, r))
    ensures ListenerAgrees(tls, l, r) <==> ListenerOverlay(tls, l, r) == r
    ensures SetFields(tls, l, r, ListenerOverlay(tls, l, r))
  {
    OwnAgrees();
  }

  class ListenerAttribute {
    var protocol: string
    var s: ListenerState

    /** A listener holds no other objects, so copying its fields is a deep copy. */
    constructor Copy(from: ListenerAttribute)
      ensures s == from.s && protocol == from.protocol
    {
      protocol, s := from.protocol, from.s;
    }

    /** The comparison with the remote listener, on a copy of it. */
    method OverlayWith(tls: bool, l: ListenerState, r: ListenerState)
      requires s == r
      modifies this`s
      ensures s == ListenerOverlay(tls, l, r)
    {
      s := s.(description := l.description, groupId := l.groupId);
      s := s.(proxyProtocol := Pick(FlagAgrees(l.proxyProtocol, r.proxyProtocol), l.proxyProtocol, s.proxyProtocol));
      s := s.(idleTimeout := Pick(NumAgrees(l.idleTimeout, r.idleTimeout), l.idleTimeout, s.idleTimeout));
      s := s.(cps := Pick(IntAgrees(l.cps, r.cps), l.cps, s.cps));
      if tls {
        var sameCerts := IsStringSliceEqual(l.certificateIds, r.certificateIds);
        var sameCa := IsStringSliceEqual(l.caCertificateIds, r.caCertificateIds);
        s := s.(certificateIds := Pick(l.certificateIds == [] || sameCerts, l.certificateIds, s.certificateIds));
        s := s.(caCertificateIds := Pick(l.caCertificateIds == [] || sameCa, l.caCertificateIds, s.caCertificateIds));
        s := s.(caEnabled := Pick(FlagAgrees(l.caEnabled, r.caEnabled), l.caEnabled, s.caEnabled));
        s := s.(securityPolicyId := Pick(TextAgrees(l.securityPolicyId, r.securityPolicyId), l.securityPolicyId, s.securityPolicyId));
      }
    }
  }

  predicate IsTCPSSL(protocol: string) { protocol == "TCPSSL" }

  /** The comparison of `UpdateNLBListener`. It changes no existing object. */
  method OverlayListener(local: ListenerAttribute, remote: ListenerAttribute) returns (needUpdate: bool, update: ListenerAttribute)
    ensures fresh(update) && update.protocol == remote.protocol
    ensures update.s == ListenerOverlay(IsTCPSSL(local.protocol), local.s, remote.s)
    ensures needUpdate <==> update.s != remote.s
    ensures ListenerAgrees(IsTCPSSL(local.protocol), local.s, update.s)
    ensures SetFields(local.protocol == "TCPSSL", local.s, remote.s, update.s)
  {
    update := new ListenerAttribute.Copy(remote);
    update.OverlayWith(IsTCPSSL(local.protocol), local.s, remote.s);
    needUpdate := !ListenerAgrees(IsTCPSSL(local.protocol), local.s, remote.s);
    ListenerFixpoint(IsTCPSSL(local.protocol), local.s, remote.s);
  }

  // ---------------------------------------------------------------------- health checks

  datatype HealthState = HealthState(
    enabled: Option<bool>, kind: string, connectPort: int, healthy: int, unhealthy: int, timeout: int, interval: int,
    domain: string, url: string, httpMethod: string, httpCodes: seq<string>)

  predicate HealthAgrees(l: HealthState, r: HealthState) {
    && FlagAgrees(l.enabled, r.enabled) && FoldAgrees(l.kind, r.kind) && NumAgrees(l.connectPort, r.connectPort)
    && NumAgrees(l.healthy, r.healthy) && NumAgrees(l.unhealthy, r.unhealthy) && NumAgrees(l.timeout, r.timeout)
    && NumAgrees(l.interval, r.interval) && TextAgrees(l.domain, r.domain) && TextAgrees(l.url, r.url)
    && FoldAgrees(l.httpMethod, r.httpMethod) && ListAgrees(l.httpCodes, r.httpCodes)
  }

  function HealthOverlay(l: HealthState, r: HealthState): HealthState {
    HealthState(
      Pick(FlagAgrees(l.enabled, r.enabled), l.enabled, r.enabled),
      Pick(FoldAgrees(l.kind, r.kind), l.kind, r.kind),
      Pick(NumAgrees(l.connectPort, r.connectPort), l.connectPort, r.connectPort),
      Pick(NumAgrees(l.healthy, r.healthy), l.healthy, r.healthy),
      Pick(NumAgrees(l.unhealthy, r.unhealthy), l.unhealthy, r.unhealthy),
      Pick(NumAgrees(l.timeout, r.timeout), l.timeout, r.timeout),
      Pick(NumAgrees(l.interval, r.interval), l.interval, r.interval),
      Pick(TextAgrees(l.domain, r.domain), l.domain, r.domain),
      Pick(TextAgrees(l.url, r.url), l.url, r.url),
      Pick(FoldAgrees(l.httpMethod, r.httpMethod), l.httpMethod, r.httpMethod),
      Pick(ListAgrees(l.httpCodes, r.httpCodes), l.httpCodes, r.httpCodes))
  }

  predicate SetHealth(l: HealthState, r: HealthState, u: HealthState) {
    && FlagSet(l.enabled, r.enabled, u.enabled)
    && FoldSet(l.kind, r.kind, u.kind)
    && NumSet(l.connectPort, r.connectPort, u.connectPort)
    && NumSet(l.healthy, r.healthy, u.healthy)
    && NumSet(l.unhealthy, r.unhealthy, u.unhealthy)
    && NumSet(l.timeout, r.timeout, u.timeout)
    && NumSet(l.interval, r.interval, u.interval)
    && TextSet(l.domain, r.domain, u.domain)
    && TextSet(l.url, r.url, u.url)
    && FoldSet(l.httpMethod, r.httpMethod, u.httpMethod)
    && ListSet(l.httpCodes, r.httpCodes, u.httpCodes)
  }

  lemma HealthFixpoint(l: HealthState, r: HealthState)
    ensures HealthAgrees(l, l) && HealthAgrees(l, HealthOverlay(l, r))
    ensures HealthAgrees(l, r) <==> HealthOverlay(l, r) == r
    ensures SetHealth(l, r, HealthOverlay(l, r))
  {
    OwnAgrees();
  }

  class HealthCheckConfig {
    var s: HealthState

    constructor (s: HealthState)
      ensures this.s == s
    {
      this.s := s;
    }

    /** The comparison with the remote health check, on a copy of it. */
    method OverlayWith(l: HealthState, r: HealthState)
      requires s == r
      modifies this
      ensures s == HealthOverlay(l, r)
    {
      var sameCodes := IsStringSliceEqual(l.httpCodes, r.httpCodes);
      s := s.(enabled := Pick(FlagAgrees(l.enabled, r.enabled), l.enabled, s.enabled));
      s := s.(kind := Pick(FoldAgrees(l.kind, r.kind), l.kind, s.kind));
      s := s.(connectPort := Pick(NumAgrees(l.connectPort, r.connectPort), l.connectPort, s.connectPort));
      s := s.(healthy := Pick(NumAgrees(l.healthy, r.healthy), l.healthy, s.healthy));
      s := s.(unhealthy := Pick(NumAgrees(l.unhealthy, r.unhealthy), l.unhealthy, s.unhealthy));
      s := s.(timeout := Pick(NumAgrees(l.timeout, r.timeout), l.timeout, s.timeout));
      s := s.(interval := Pick(NumAgrees(l.interval, r.interval), l.interval, s.interval));
      s := s.(domain := Pick(TextAgrees(l.domain, r.domain), l.domain, s.domain));
      s := s.(url := Pick(TextAgrees(l.url, r.url), l.url, s.url));
      s := s.(httpMethod := Pick(FoldAgrees(l.httpMethod, r.httpMethod), l.httpMethod, s.httpMethod));
      s := s.(httpCodes := Pick(l.httpCodes == [] || sameCodes, l.httpCodes, s.httpCodes));
    }
  }

  // ---------------------------------------------------------------------- server groups

  datatype BasicState = BasicState(name: string, scheduler: string, drain: Option<bool>, drainTimeout: int, preserveClientIp: Option<bool>)

  datatype GroupState = GroupState(basic: BasicState, health: Option<HealthState>)

  class ServerGroup {
    var basic: BasicState
    var health: HealthCheckConfig?

    function State(): GroupState reads this, health {
      GroupState(basic, if health == null then None else Some(health.s))
    }

    /** A deep copy: the health check is copied too. */
    constructor Copy(from: ServerGroup)
      ensures State() == from.State() && (health != null ==> fresh(health))
    {
      basic := from.basic;
      if from.health == null { health := null; } else { health := new HealthCheckConfig(from.health.s); }
    }
  }

  predicate BasicAgrees(l: BasicState, r: BasicState) {
    && l.name == r.name && FoldAgrees(l.scheduler, r.scheduler) && FlagAgrees(l.drain, r.drain)
    && NumAgrees(l.drainTimeout, r.drainTimeout) && FlagAgrees(l.preserveClientIp, r.preserveClientIp)
  }

  function BasicOverlay(l: BasicState, r: BasicState): BasicState {
    BasicState(
      l.name,
      Pick(FoldAgrees(l.scheduler, r.scheduler), l.scheduler, r.scheduler),
      Pick(FlagAgrees(l.drain, r.drain), l.drain, r.drain),
      Pick(NumAgrees(l.drainTimeout, r.drainTimeout), l.drainTimeout, r.drainTimeout),
      Pick(FlagAgrees(l.preserveClientIp, r.preserveClientIp), l.preserveClientIp, r.preserveClientIp))
  }

  predicate GroupAgrees(l: GroupState, r: GroupState) {
    BasicAgrees(l.basic, r.basic) && (l.health.Some? ==> r.health.Some? && HealthAgrees(l.health.value, r.health.value))
  }

  /** A health check is set as a whole where the remote group has none. */
  function GroupOverlay(l: GroupState, r: GroupState): GroupState {
    GroupState(
      BasicOverlay(l.basic, r.basic),
      if l.health.None? then r.health
      else if r.health.None? then l.health
      else Some(HealthOverlay(l.health.value, r.health.value)))
  }

  /** Field by field, the update has what the service sets and differs, and otherwise what
      the remote group has; a missing remote health check is set as a whole. */
  predicate SetGroup(l: GroupState, r: GroupState, u: GroupState) {
    && u.basic.name == l.basic.name
    && FoldSet(l.basic.scheduler, r.basic.scheduler, u.basic.scheduler)
    && FlagSet(l.basic.drain, r.basic.drain, u.basic.drain)
    && NumSet(l.basic.drainTimeout, r.basic.drainTimeout, u.basic.drainTimeout)
    && FlagSet(l.basic.preserveClientIp, r.basic.preserveClientIp, u.basic.preserveClientIp)
    && (l.health.None? ==> u.health == r.health)
    && (l.health.Some? && r.health.None? ==> u.health == l.health)
    && (l.health.Some? && r.health.Some? ==> u.health.Some? && SetHealth(l.health.value, r.health.value, u.health.value))
  }

  /** The log message reads two remote flags without a nil check. */
  predicate Panics(l: GroupState, r: GroupState) {
    || (r.basic.drain.None? && !FlagAgrees(l.basic.drain, r.basic.drain))
    || (l.health.Some? && r.health.Some? && r.health.value.enabled.None?
        && !FlagAgrees(l.health.value.enabled, r.health.value.enabled))
  }

  /** The overlay agrees with the service, cannot panic on a second comparison, and is the
      remote group exactly when that agreed already. */
  lemma GroupFixpoint(l: GroupState, r: GroupState)
    ensures GroupAgrees(l, GroupOverlay(l, r)) && !Panics(l, GroupOverlay(l, r))
    ensures GroupAgrees(l, r) <==> GroupOverlay(l, r) == r
    ensures SetGroup(l, r, GroupOverlay(l, r))
  {
    OwnAgrees();
    if l.health.Some? {
      HealthFixpoint(l.health.value, if r.health.Some? then r.health.value else l.health.value);
    }
  }

  /** The comparison of `UpdateServerGroup`. No existing object changes, in particular
      not the remote health check; the update may share the local one. */
  method OverlayGroup(local: ServerGroup, remote: ServerGroup) returns (ok: bool, needUpdate: bool, update: ServerGroup)
    ensures fresh(update)
    ensures !ok <==> || (remote.basic.drain.None? && local.basic.drain == Some(true))
                     || (local.health != null && remote.health != null
                         && remote.health.s.enabled.None? && local.health.s.enabled == Some(true))
    ensures ok ==> update.State() == GroupOverlay(local.State(), remote.State())
    ensures ok ==> (needUpdate <==> update.State() != remote.State()) && GroupAgrees(local.State(), update.State())
    ensures ok ==> SetGroup(local.State(), remote.State(), update.State())
    ensures ok && update.health != null ==> fresh(update.health) || (remote.health == null && update.health == local.health)
  {
    update := new ServerGroup.Copy(remote);
    ghost var l, r := local.State(), remote.State();
    needUpdate := !GroupAgrees(local.State(), remote.State());
    ok := !Panics(local.State(), remote.State());
    if !ok { return; }
    update.basic := BasicOverlay(local.basic, update.basic);
    if local.health != null {
      if remote.health == null {
        update.health := local.health;
      } else {
        update.health.OverlayWith(local.health.s, remote.health.s);
      }
    }
    GroupFixpoint(l, r);
  }
}
