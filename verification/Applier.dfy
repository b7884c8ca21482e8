/** `ModelApplier.Apply`: load balancer, server groups, listeners, and the final
    removal of unused server groups, over one cloud and with every call able to
    fail. */
module Applier {
  import opened Common
  import opened NlbCloud
  import opened ServerSync
  import opened GroupApplier
  import opened ListenerApplier
  import Names

  // ------------------------------------------------------------------------- listings

  function ServerOf(k: Ident, a: Attr): (s: Server)
    ensures !k.OtherServer? ==> IdentOf(s) == k && AttrOf(s) == a && Supported(s) && !s.userManaged
  {
    match k
    case EcsServer(id) => Server(Ecs, id, "", a.port, a.weight, a.desc, false)
    case EniServer(id, ip) => Server(Eni, id, ip, a.port, a.weight, a.desc, false)
    case IpServer(ip) => Server(Ip, "", ip, a.port, a.weight, a.desc, false)
    case OtherServer(kind, id, ip) => Server(Unsupported(kind), id, ip, a.port, a.weight, a.desc, false)
  }

  method ListServers(m: Servers) returns (list: seq<Server>)
    requires Known(m)
    ensures Lists(list, m, {})
  {
    var rest := m.Keys;
    list := [];
    while rest != {}
      invariant rest <= m.Keys && Lists(list, m - rest, {})
      decreases rest
    {
      var k :| k in rest;
      ListsGrows(list, m, rest, k);
      list := list + [ServerOf(k, m[k])];
      rest := rest - {k};
    }
    assert m - {} == m;
  }

  lemma ListsGrows(list: seq<Server>, m: Servers, rest: set<Ident>, k: Ident)
    requires k in rest && rest <= m.Keys && !k.OtherServer? && Lists(list, m - rest, {})
    ensures Lists(list + [ServerOf(k, m[k])], m - (rest - {k}), {})
  {
    var s := ServerOf(k, m[k]);
    var longer := list + [s];
    assert forall x :: x in longer <==> x in list || x == s;
    assert forall x :: x in list ==> IdentOf(x) in m - rest;
    forall i, j | 0 <= i < j < |longer| ensures IdentOf(longer[i]) != IdentOf(longer[j]) {
      assert longer[i] in list;
    }
    forall x | x in m - (rest - {k}) ensures x in Idents(longer) {
      if x != k { assert x in m - rest; } else { assert s in longer; }
    }
  }

  /** The listing of server groups by tag. */
  method ListServerGroups(cloud: Cloud) returns (list: seq<GroupModel>)
    requires cloud.Valid() && KnownServers(cloud.w)
    ensures ListedGroups(list, cloud.w) && Register(cloud.w, list)
  {
    var rest := cloud.w.groups.Keys;
    list := [];
    while rest != {}
      invariant rest <= cloud.w.groups.Keys && ListedGroups(list, cloud.w)
      invariant forall r :: r in list ==> r.id !in rest && cloud.w.groups[r.id].tagged
      invariant forall g :: g in cloud.w.groups && g !in rest && cloud.w.groups[g].tagged ==> g in GroupIds(list)
      decreases rest
    {
      var g :| g in rest;
      rest := rest - {g};
      if cloud.w.groups[g].tagged {
        var servers := ListServers(cloud.w.groups[g].servers);
        ghost var before := list;
        list := list + [GroupModel(g, cloud.w.groups[g].name, servers)];
        assert forall x :: x in list <==> x in before || x == GroupModel(g, cloud.w.groups[g].name, servers);
      }
    }
  }

  function ListenerOf(id: Id, c: Listener): ListenerModel {
    ListenerModel(id, c.port, c.proto, "", c.group, c.desc, c.running)
  }

  /** The listing of the listeners of one load balancer. */
  method ListListeners(cloud: Cloud, lb: Id) returns (list: seq<ListenerModel>)
    requires cloud.Valid() && UniquePorts(cloud.w)
    ensures ListedListeners(list, cloud.w, lb)
  {
    var rest := cloud.w.listeners.Keys;
    list := [];
    while rest != {}
      invariant rest <= cloud.w.listeners.Keys
      invariant forall r :: r in list ==>
                  && r.id !in rest && r.id in cloud.w.listeners && cloud.w.listeners[r.id].lb == lb
                  && r == ListenerOf(r.id, cloud.w.listeners[r.id])
      invariant forall i, j :: 0 <= i < j < |list| ==> list[i].id != list[j].id
      invariant forall l :: l in cloud.w.listeners && l !in rest && cloud.w.listeners[l].lb == lb ==>
                  ListenerOf(l, cloud.w.listeners[l]) in list
      decreases rest
    {
      var l :| l in rest;
      rest := rest - {l};
      if cloud.w.listeners[l].lb == lb {
        list := list + [ListenerOf(l, cloud.w.listeners[l])];
      }
    }
    forall l | l in cloud.w.listeners && cloud.w.listeners[l].lb == lb ensures exists r :: r in list && r.id == l {
      assert ListenerOf(l, cloud.w.listeners[l]) in list;
    }
  }

  // -------------------------------------------------------------------------- cleanup

  /** Listed groups that carry this service's name and are not desired. */
  function Unused(me: Names.Owner, remote: seq<GroupModel>, keep: set<Id>): set<Id> {
    set r | r in remote && Names.ManagedGroup(me, r.name) && r.id !in keep :: r.id
  }

  function WithoutGroups(w: World, ids: set<Id>): World {
    w.(groups := w.groups - ids)
  }

  predicate CleanupEvent(e: Event, w0: World, unused: set<Id>) {
    && e.call.DeleteGroup? && e.call.id in unused
    && e.after.lbs == w0.lbs && e.after.listeners == w0.listeners
    && (forall g :: g in w0.groups && g !in unused ==> g in e.after.groups)
  }

  lemma UnusedGrows(me: Names.Owner, remote: seq<GroupModel>, keep: set<Id>, n: nat)
    requires n < |remote|
    ensures Unused(me, remote[..n + 1], keep) ==
            Unused(me, remote[..n], keep) +
            if Names.ManagedGroup(me, remote[n].name) && remote[n].id !in keep then {remote[n].id} else {}
    ensures Unused(me, remote[..n + 1], keep) <= Unused(me, remote, keep)
  {
    assert remote[..n + 1] == remote[..n] + [remote[n]];
  }

  lemma WithoutGroupsTwice(w: World, a: set<Id>, id: Id)
    ensures WithoutGroups(WithoutGroups(w, a), {id}) == WithoutGroups(w, a + {id})
    ensures WithoutGroups(w, {}) == w
  {
    assert w.groups - a - {id} == w.groups - (a + {id});
    assert w.groups - {} == w.groups;
  }

  method Contains(groups: seq<GroupModel>, id: Id) returns (found: bool)
    ensures found <==> id in GroupIds(groups)
  {
    for i := 0 to |groups|
      invariant forall k :: 0 <= k < i ==> groups[k].id != id
    {
      if groups[i].id == id {
        assert groups[i] in groups;
        return true;
      }
    }
    return false;
  }

  /** Some of these groups are gone, and nothing else has changed. */
  ghost predicate Removed(w0: World, w: World, ids: set<Id>) {
    && w.lbs == w0.lbs && w.listeners == w0.listeners
    && (forall g :: g in w.groups ==> g in w0.groups && w.groups[g] == w0.groups[g])
    && (forall g :: g in w0.groups && g !in ids ==> g in w.groups)
  }

  ghost predicate CleanupEvents(log: seq<Event>, from: nat, w0: World, unused: set<Id>) {
    forall i :: from <= i < |log| ==> CleanupEvent(log[i], w0, unused)
  }

  /** Delete the unused groups, one call each. */
  method Cleanup(cloud: Cloud, me: Names.Owner, remote: seq<GroupModel>, local: seq<GroupModel>) returns (ok: bool)
    requires cloud.Valid()
    modifies cloud
    ensures !ok ==> cloud.faulty
    ensures ok ==> cloud.faulty == old(cloud.faulty)
    ensures cloud.Valid() && cloud.Extends()
    ensures ok ==> cloud.w == WithoutGroups(old(cloud.w), Unused(me, remote, GroupIds(local)))
    ensures Removed(old(cloud.w), cloud.w, Unused(me, remote, GroupIds(local)))
    ensures CleanupEvents(cloud.log, |old(cloud.log)|, old(cloud.w), Unused(me, remote, GroupIds(local)))
  {
    ghost var w0, keep := cloud.w, GroupIds(local);
    WithoutGroupsTwice(w0, {}, NO_ID);
    for n := 0 to |remote|
      invariant cloud.Valid() && cloud.Extends() && cloud.faulty == old(cloud.faulty)
      invariant cloud.w == WithoutGroups(w0, Unused(me, remote[..n], keep))
      invariant CleanupEvents(cloud.log, |old(cloud.log)|, w0, Unused(me, remote, keep))
    {
      UnusedGrows(me, remote, keep, n);
      if Names.ManagedGroup(me, remote[n].name) {
        var found := Contains(local, remote[n].id);
        if !found {
          ghost var log1 := cloud.log;
          ok := DeleteUnused(cloud, remote[n].id, w0, Unused(me, remote[..n], keep), Unused(me, remote, keep));
          CleanupEventsExtend(log1, cloud.log, |old(cloud.log)|, w0, Unused(me, remote, keep));
          if !ok { return; }
        }
      }
    }
    assert remote[..|remote|] == remote;
    ok := true;
  }

  /** The deletion of one unused group. */
  method DeleteUnused(cloud: Cloud, id: Id, ghost w0: World, ghost gone: set<Id>, ghost unused: set<Id>) returns (ok: bool)
    requires cloud.Valid() && cloud.w == WithoutGroups(w0, gone) && id in unused && gone <= unused
    modifies cloud
    ensures !ok ==> cloud.faulty
    ensures ok ==> cloud.faulty == old(cloud.faulty)
    ensures cloud.Valid() && cloud.Extends() && Removed(w0, cloud.w, unused)
    ensures ok ==> cloud.w == WithoutGroups(w0, gone + {id})
    ensures CleanupEvents(cloud.log, |old(cloud.log)|, w0, unused)
  {
    WithoutGroupsTwice(w0, gone, id);
    ok := cloud.DeleteGroup(id);
  }

  lemma CleanupEventsExtend(before: seq<Event>, log: seq<Event>, from: nat, w0: World, unused: set<Id>)
    requires before <= log && CleanupEvents(before, from, w0, unused) && CleanupEvents(log, |before|, w0, unused)
    ensures CleanupEvents(log, from, w0, unused)
  {
    forall i | from <= i < |log| ensures CleanupEvent(log[i], w0, unused) {
      if i < |before| { assert log[i] == before[i]; }
    }
  }

  // -------------------------------------------------------------------- what a run is

  /** What a run is asked for, and the load balancer that its search found.  `reusable`
      says that this one may be reused, and `fixedChanged` that the service asks for
      another address version or resource group than it has. */
  datatype Run = Run(me: Names.Owner, lb: Id, needDelete: bool, hashChanged: bool, userManaged: bool,
                     forceOverride: bool, hasIngress: bool, reusable: bool, fixedChanged: bool,
                     groups: seq<GroupModel>, listeners: seq<ListenerModel>)
  {
    /** Groups are resolved by name. */
    ghost predicate ByName() { FromEmpty(groups) }

    /** Refused without any call failing: the search found nothing although the status
        names a load balancer, or it found one that may not be reused or whose fixed
        attributes would change. */
    predicate Refused() {
      && hashChanged && !needDelete
      && if lb == NO_ID then hasIngress else (userManaged && !reusable) || fixedChanged
    }

    /** The run leaves this listener as it is: listeners are skipped, it belongs to
        another load balancer, or it has to be left alone on a reused one. */
    predicate Survives(c: Listener) {
      || !hashChanged || lb == NO_ID || c.lb != lb || (userManaged && !forceOverride)
      || LeftAlone(me, userManaged, c, listeners)
    }
  }

  /** Every listener belongs to an existing load balancer; ports are unique. */
  predicate Homed(w: World) {
    (forall l :: l in w.listeners ==> w.listeners[l].lb in w.lbs) && UniquePorts(w)
  }

  /** The tagged groups of this service that are not kept. */
  ghost function Discarded(w: World, me: Names.Owner, keep: set<Id>): set<Id> {
    set g | g in w.groups && w.groups[g].tagged && Names.ManagedGroup(me, w.groups[g].name) && g !in keep
  }

  ghost function WishedNames(groups: seq<GroupModel>): set<string> {
    set g | g in groups :: g.name
  }

  /** The tagged groups of this service whose name is not wished for. */
  ghost function Unwished(w: World, me: Names.Owner, groups: seq<GroupModel>): set<Id> {
    set g | g in w.groups && w.groups[g].tagged && Names.ManagedGroup(me, w.groups[g].name)
            && w.groups[g].name !in WishedNames(groups)
  }

  /** No listener that the run leaves as it is targets one of these groups. */
  ghost predicate Spared(run: Run, w: World, ids: set<Id>) {
    forall l :: l in w.listeners && run.Survives(w.listeners[l]) ==> w.listeners[l].group !in ids
  }

  /** After the run, exactly the surviving listeners are left unchanged; all others
      target one of `keep`. */
  ghost predicate Settles(run: Run, w0: World, w: World, keep: set<Id>) {
    && (forall l :: l in w0.listeners && run.Survives(w0.listeners[l]) ==> l in w.listeners && w.listeners[l] == w0.listeners[l])
    && (forall l :: l in w.listeners ==>
          || w.listeners[l].group in keep
          || (l in w0.listeners && run.Survives(w0.listeners[l]) && w.listeners[l] == w0.listeners[l]))
  }

  /** Deleting groups that are not kept preserves referential integrity exactly when
      they are no targets of surviving listeners. */
  lemma CleanupIntegrity(run: Run, w0: World, w: World, keep: set<Id>, ids: set<Id>)
    requires Integrity(w) && Settles(run, w0, w, keep) && keep !! ids
    ensures Integrity(WithoutGroups(w, ids)) <==> Spared(run, w0, ids)
    ensures Spared(run, w0, ids) <==> Unthreatened(w, ids)
  {
    var w' := WithoutGroups(w, ids);
    if Integrity(w') {
      forall l | l in w0.listeners && run.Survives(w0.listeners[l]) ensures w0.listeners[l].group !in ids {
        assert l in w'.listeners;
      }
    }
  }

  // ----------------------------------------------------------------------- ownership

  /** Ownership: which calls a run may make at all. */
  predicate Careful(e: Event, run: Run, w0: World) {
    && (e.call.DeleteGroup? ==> e.call.id in w0.groups && Names.ManagedGroup(run.me, w0.groups[e.call.id].name))
    && (run.userManaged ==>
          && !e.call.DeleteLB?
          && (e.call.DeleteListener? ==> e.call.id in w0.listeners && Names.ManagedListener(run.me, w0.listeners[e.call.id].desc))
          && (IsListenerCall(e.call) ==> run.forceOverride))
  }

  /** A call before the final cleanup. */
  predicate EarlyEvent(e: Event, run: Run, w0: World) {
    !e.call.DeleteGroup? && Careful(e, run, w0) && (Integrity(w0) ==> Integrity(e.after))
  }

  ghost predicate EarlyEvents(log: seq<Event>, from: nat, run: Run, w0: World) {
    forall i :: from <= i < |log| ==> EarlyEvent(log[i], run, w0)
  }

  /** Calls seen from an earlier world, from which only listeners may have gone and
      groups may have come. */
  lemma EarlierEvents(log1: seq<Event>, log: seq<Event>, from: nat, run: Run, w0: World, w1: World)
    requires from <= |log1| <= |log| && log[..|log1|] == log1
    requires EarlyEvents(log1, from, run, w0) && EarlyEvents(log, |log1|, run, w1)
    requires Fewer(w0, w1) && w0.groups.Keys <= w1.groups.Keys
    ensures EarlyEvents(log, from, run, w0)
  {
    forall i | from <= i < |log| ensures EarlyEvent(log[i], run, w0) {
      if i < |log1| { assert log[i] == log1[i]; }
    }
  }

  // -------------------------------------------------------------- the load balancer phase

  /** The load balancer is deleted by this phase. */
  predicate Deletes(run: Run) { run.needDelete && !run.userManaged && run.lb != NO_ID }

  /** What the phase leaves, whether it succeeds or not. */
  predicate LbPhase(run: Run, w0: World, w: World) {
    && w.groups == w0.groups
    && ((w.listeners == w0.listeners && w0.lbs <= w.lbs) || (Deletes(run) && w == WithoutLB(w0, run.lb)))
  }

  /** What the phase leaves, and what it has achieved if it succeeds. */
  ghost predicate LbResult(run: Run, w0: World, w: World, lb: Id, ok: bool) {
    && LbPhase(run, w0, w) && Homed(w) && LbAfter(run, lb, w)
    && (ok ==> LbDone(run, w0, w, lb) && (lb == NO_ID || lb in w.lbs) && (!run.needDelete ==> lb != NO_ID))
  }

  /** The load balancer that a later search finds is the one remembered, if that still
      exists; nothing is remembered only if none was found or it was deleted. */
  ghost predicate LbAfter(run: Run, lb: Id, w: World) {
    && (lb != NO_ID ==> lb == run.lb || run.lb == NO_ID)
    && (lb == NO_ID && run.lb != NO_ID ==> run.lb !in w.lbs)
  }

  /** How the phase relates the searches before and after it. */
  ghost predicate LbDone(run: Run, w0: World, w1: World, lb: Id) {
    && (if Deletes(run) then lb == NO_ID && w1 == WithoutLB(w0, run.lb) else w1.listeners == w0.listeners)
    && (!Deletes(run) && run.lb != NO_ID ==> lb == run.lb)
    && (run.lb == NO_ID && lb != NO_ID ==> forall l :: l in w1.listeners ==> w1.listeners[l].lb != lb)
  }

  /** Create or delete the load balancer.  Its tags and attributes are not tracked, but
      the calls for them may fail. */
  method ApplyLoadBalancerAttribute(cloud: Cloud, run: Run, remote: LbModel) returns (ok: bool)
    requires cloud.Valid() && Homed(cloud.w) && remote.lb == run.lb && run.hashChanged
    requires run.lb == NO_ID || run.lb in cloud.w.lbs
    modifies cloud, remote`lb
    ensures !ok ==> cloud.faulty || run.Refused()
    ensures ok ==> cloud.faulty == old(cloud.faulty)
    ensures !run.needDelete && (if run.lb == NO_ID then run.hasIngress else (run.userManaged && !run.reusable) || run.fixedChanged) ==>
              !ok && cloud.w == old(cloud.w) && cloud.log == old(cloud.log)
    ensures cloud.Valid() && cloud.Extends() && LbResult(run, old(cloud.w), cloud.w, remote.lb, ok)
    ensures EarlyEvents(cloud.log, |old(cloud.log)|, run, old(cloud.w))
  {
    if run.needDelete {
      ok := true;
      if !run.userManaged {
        if remote.lb != NO_ID {
          ok := cloud.DeleteLB(remote.lb);
          if !ok { return; }
        }
        remote.lb := NO_ID;
      }
    } else if remote.lb == NO_ID {
      if run.hasIngress { return false; }
      var id;
      ok, id := cloud.CreateLB();
      if !ok { return; }
      ok := cloud.Other();
      if !ok { return; }
      remote.lb := id;
      ok := cloud.Other();
    } else {
      ok := cloud.Other();
      if !ok { return; }
      if (run.userManaged && !run.reusable) || run.fixedChanged { return false; }
      ok := cloud.Other();
    }
  }

  // ------------------------------------------------------------------- the group phase

  /** The group holds exactly its desired servers. */
  ghost predicate InPlace(g: GroupModel, w: World) {
    g.id in w.groups && Exactly(g.servers, w.groups[g.id].servers)
  }

  /** The groups exist under their names and are tagged. */
  ghost predicate Named(groups: seq<GroupModel>, w: World) {
    forall k :: 0 <= k < |groups| ==>
      groups[k].id in w.groups && w.groups[groups[k].id].name == groups[k].name && w.groups[groups[k].id].tagged
  }

  /** What a successful group phase has achieved. */
  ghost predicate Grouped(run: Run, w0: World, w: World, local: seq<GroupModel>, remote: seq<GroupModel>) {
    && SameWishes(local, run.groups) && GroupIds(local) <= w.groups.Keys
    && Unused(run.me, remote, GroupIds(local)) == Discarded(w0, run.me, GroupIds(local))
    && (run.ByName() && Coherent(run.groups) ==> forall k :: 0 <= k < |local| ==> InPlace(local[k], w))
    && (run.ByName() && UniqueTagged(w0) ==>
          Named(local, w) && Discarded(w0, run.me, GroupIds(local)) == Unwished(w0, run.me, run.groups))
  }

  /** List the groups, then resolve, create and fill them. */
  method GroupPhase(cloud: Cloud, run: Run, local: LbModel, remote: LbModel) returns (ok: bool)
    requires cloud.Valid() && local != remote && KnownServers(cloud.w) && local.groups == run.groups
    modifies cloud, local`groups, remote`groups
    ensures !ok ==> cloud.faulty
    ensures ok ==> cloud.faulty == old(cloud.faulty)
    ensures cloud.Valid() && cloud.Extends() && GroupsOnlyGrow(old(cloud.w), cloud.w)
    ensures SupportedGroups(run.groups) ==> KnownServers(cloud.w)
    ensures run.ByName() && UniqueTagged(old(cloud.w)) ==> UniqueTagged(cloud.w) && NamesKept(old(cloud.w), cloud.w)
    ensures ok ==> Grouped(run, old(cloud.w), cloud.w, local.groups, remote.groups)
    ensures EarlyEvents(cloud.log, |old(cloud.log)|, run, old(cloud.w))
  {
    ok := cloud.Other();
    if !ok { return; }
    ghost var w0 := cloud.w;
    remote.groups := ListServerGroups(cloud);
    ghost var listed := remote.groups;
    ok := ApplyVGroups(cloud, local, remote);
    GroupCalls(cloud.log, |old(cloud.log)|, run, w0);
    if ok {
      ghost var n: nat :| Books(n, run.groups, listed, local.groups, remote.groups, cloud.w) && n == |local.groups|;
      GroupedIntro(run, w0, cloud.w, listed, local.groups, remote.groups);
    }
  }

  lemma GroupCalls(log: seq<Event>, from: nat, run: Run, w0: World)
    requires GroupEvents(log, from, w0)
    ensures EarlyEvents(log, from, run, w0)
  {
  }

  /** Books that are closed, the list they started from being exact. */
  ghost predicate Closed(run: Run, w0: World, w: World, listed: seq<GroupModel>, local: seq<GroupModel>, remote: seq<GroupModel>) {
    && Books(|local|, run.groups, listed, local, remote, w) && Register(w0, listed)
    && (run.ByName() ==> Resolved(local, |local|, remote))
  }

  lemma GroupedIntro(run: Run, w0: World, w: World, listed: seq<GroupModel>, local: seq<GroupModel>, remote: seq<GroupModel>)
    requires Closed(run, w0, w, listed, local, remote)
    requires run.ByName() && UniqueTagged(w0) ==> Register(w, remote)
    requires run.ByName() && Coherent(run.groups) ==> ServersDone(local, |local|, remote, w)
    ensures Grouped(run, w0, w, local, remote)
  {
    BooksMean(|local|, run.groups, listed, local, remote, w);
    PlacedIds(local, w);
    UnusedIsDiscarded(run, w0, w, listed, local, remote);
    if run.ByName() && UniqueTagged(w0) {
      NamedByRegister(local, remote, w);
      DiscardedByName(run, w0, w, listed, local, remote);
    }
  }

  lemma UnusedIsDiscarded(run: Run, w0: World, w: World, listed: seq<GroupModel>, local: seq<GroupModel>, remote: seq<GroupModel>)
    requires Closed(run, w0, w, listed, local, remote)
    ensures Unused(run.me, remote, GroupIds(local)) == Discarded(w0, run.me, GroupIds(local))
  {
    BooksMean(|local|, run.groups, listed, local, remote, w);
    var keep := GroupIds(local);
    forall g | g in Unused(run.me, remote, keep) ensures g in Discarded(w0, run.me, keep) {
      var r :| r in remote && Names.ManagedGroup(run.me, r.name) && r.id !in keep && r.id == g;
      assert r in listed;
    }
    forall g | g in Discarded(w0, run.me, keep) ensures g in Unused(run.me, remote, keep) {
      var r :| r in listed && r.id == g;
      assert r in remote;
    }
  }

  lemma NamedByRegister(local: seq<GroupModel>, remote: seq<GroupModel>, w: World)
    requires Resolved(local, |local|, remote) && Register(w, remote)
    ensures Named(local, w)
  {
    forall k | 0 <= k < |local| ensures local[k].id in w.groups && w.groups[local[k].id].name == local[k].name && w.groups[local[k].id].tagged {
      FirstNone(remote, local[k].name);
    }
  }

  /** With unique names, a group is kept exactly when its name is wished for. */
  lemma DiscardedByName(run: Run, w0: World, w: World, listed: seq<GroupModel>, local: seq<GroupModel>, remote: seq<GroupModel>)
    requires Closed(run, w0, w, listed, local, remote) && run.ByName() && UniqueTagged(w0)
    ensures Discarded(w0, run.me, GroupIds(local)) == Unwished(w0, run.me, run.groups)
  {
    forall g | g in w0.groups && w0.groups[g].tagged
      ensures g in GroupIds(local) <==> w0.groups[g].name in WishedNames(run.groups)
    {
      KeptByName(run, w0, w, listed, local, remote, g);
    }
  }

  lemma KeptByName(run: Run, w0: World, w: World, listed: seq<GroupModel>, local: seq<GroupModel>, remote: seq<GroupModel>, g: Id)
    requires Closed(run, w0, w, listed, local, remote) && run.ByName() && UniqueTagged(w0)
    requires g in w0.groups && w0.groups[g].tagged
    ensures g in GroupIds(local) <==> w0.groups[g].name in WishedNames(run.groups)
  {
    var r :| r in listed && r.id == g;
    assert r in remote && r.name == w0.groups[g].name;
    if m :| m in local && m.id == g {
      ResolvedName(local, remote, m, r);
      var k :| 0 <= k < |local| && local[k] == m;
      assert run.groups[k] in run.groups;
    }
    if m :| m in run.groups && m.name == w0.groups[g].name {
      var k :| 0 <= k < |run.groups| && run.groups[k] == m;
      FirstOfListed(w0, listed, remote, r);
      assert local[k] in local && local[k].id == g;
    }
  }

  /** A group resolved to a remote one has its name. */
  lemma ResolvedName(local: seq<GroupModel>, remote: seq<GroupModel>, m: GroupModel, r: GroupModel)
    requires Resolved(local, |local|, remote) && DistinctIds(remote) && m in local && r in remote && m.id == r.id
    ensures m.name == r.name
  {
    var k :| 0 <= k < |local| && local[k] == m;
    FirstNone(remote, local[k].name);
  }

  /** A listed group is the first of its name, since created ones come after it. */
  lemma FirstOfListed(w0: World, listed: seq<GroupModel>, remote: seq<GroupModel>, r: GroupModel)
    requires Register(w0, listed) && UniqueTagged(w0) && listed <= remote && r in listed
    ensures First(remote, r.name) == Some(r.id)
  {
    var k :| 0 <= k < |listed| && listed[k] == r;
    var j := 0;
    while listed[j].name != r.name
      invariant j <= k && forall i :: 0 <= i < j ==> remote[i].name != r.name
      decreases k - j
    {
      j := j + 1;
    }
    assert listed[j] in listed && SameTagged(w0.groups[listed[j].id], w0.groups[r.id]);
    FirstIs(remote, j, r.name);
  }

  lemma PlacedIds(groups: seq<GroupModel>, w: World)
    requires Placed(groups, |groups|, w)
    ensures GroupIds(groups) <= w.groups.Keys
  {
    forall g | g in groups ensures g.id in w.groups {
      var k :| 0 <= k < |groups| && groups[k] == g;
    }
  }

  // ---------------------------------------------------------------- the listener phase

  lemma DoomedManaged(me: Names.Owner, remote: seq<ListenerModel>, local: seq<ListenerModel>, w: World, lb: Id, id: Id)
    requires ListedListeners(remote, w, lb) && id in Doomed(me, true, remote, local)
    ensures id in w.listeners && Names.ManagedListener(me, w.listeners[id].desc)
  {
  }

  /** Every desired listener runs with its group and description; on an owned
      load balancer there is no other listener. */
  ghost predicate ListenersInPlace(w: World, lb: Id, listeners: seq<ListenerModel>, userManaged: bool) {
    && (forall k :: 0 <= k < |listeners| ==> Realised(w, lb, listeners[k]))
    && (!userManaged ==>
          forall l :: l in w.listeners && w.listeners[l].lb == lb ==> Explained(l, w, lb, listeners, |listeners|))
  }

  /** What the phase leaves, whether it succeeds or not. */
  ghost predicate ListenerLimits(run: Run, w0: World, w: World, lb: Id) {
    w.lbs == w0.lbs && w.groups == w0.groups && Tenants(w0, w, lb) && (DistinctPorts(run.listeners) ==> Homed(w))
  }

  /** The final listeners are the desired ones with ids and groups filled in. */
  ghost predicate FilledIn(run: Run, final: seq<ListenerModel>, groups: seq<GroupModel>) {
    && |final| == |run.listeners|
    && forall k :: 0 <= k < |final| ==>
         && final[k] == run.listeners[k].(id := final[k].id, group := final[k].group)
         && First(groups, final[k].groupName) == Some(final[k].group)
  }

  /** What the phase leaves behind, and what it has achieved if it succeeds. */
  ghost predicate Listened(run: Run, w0: World, w: World, lb: Id, ok: bool, groups: seq<GroupModel>, final: seq<ListenerModel>) {
    && ListenerLimits(run, w0, w, lb)
    && (Integrity(w0) ==> Integrity(w))
    && (ok ==> Settles(run.(lb := lb), w0, w, GroupIds(groups)))
    && (ok && (run.userManaged ==> run.forceOverride) && DistinctPorts(run.listeners) ==>
          FilledIn(run, final, groups) && ListenersInPlace(w, lb, final, run.userManaged))
  }

  /** List the listeners of the load balancer and reconcile them. */
  method ListenerPhase(cloud: Cloud, run: Run, local: LbModel, remote: LbModel) returns (ok: bool)
    requires cloud.Valid() && local != remote && Homed(cloud.w) && FreshListeners(run.listeners) && remote.lb in cloud.w.lbs
    requires local.listeners == run.listeners && local.userManaged == run.userManaged && run.hashChanged
    requires GroupIds(local.groups) <= cloud.w.groups.Keys
    modifies cloud, local`listeners, remote`listeners
    ensures !ok ==> cloud.faulty || !Pairable(run.listeners, local.groups)
    ensures ok ==> cloud.faulty == old(cloud.faulty)
    ensures cloud.Valid() && cloud.Extends()
    ensures Listened(run, old(cloud.w), cloud.w, remote.lb, ok, local.groups, local.listeners)
    ensures EarlyEvents(cloud.log, |old(cloud.log)|, run, old(cloud.w))
  {
    ok := cloud.Other();
    if !ok { return; }
    remote.listeners := ListListeners(cloud, remote.lb);
    ok := ReconcileListed(cloud, run, local, remote);
  }

  method ReconcileListed(cloud: Cloud, run: Run, local: LbModel, remote: LbModel) returns (ok: bool)
    requires cloud.Valid() && local != remote && Homed(cloud.w) && FreshListeners(run.listeners) && remote.lb in cloud.w.lbs
    requires local.listeners == run.listeners && local.userManaged == run.userManaged && run.hashChanged
    requires GroupIds(local.groups) <= cloud.w.groups.Keys && ListedListeners(remote.listeners, cloud.w, remote.lb)
    modifies cloud, local`listeners
    ensures !ok ==> cloud.faulty || !Pairable(run.listeners, local.groups)
    ensures ok ==> cloud.faulty == old(cloud.faulty)
    ensures cloud.Valid() && cloud.Extends()
    ensures Listened(run, old(cloud.w), cloud.w, remote.lb, ok, local.groups, local.listeners)
    ensures EarlyEvents(cloud.log, |old(cloud.log)|, run, old(cloud.w))
  {
    ghost var w2 := cloud.w;
    ok := ApplyListeners(cloud, run.me, run.forceOverride, local, remote);
    ListenerCalls(cloud.log, |old(cloud.log)|, run, w2, remote.lb, local.groups, remote.listeners);
    ListenedIntro(run, w2, cloud.w, remote.lb, ok, local.groups, local.listeners);
  }

  lemma ListenedIntro(run: Run, w2: World, w: World, lb: Id, ok: bool, groups: seq<GroupModel>, final: seq<ListenerModel>)
    requires Homed(w2) && lb in w2.lbs && lb != NO_ID && run.hashChanged && GroupIds(groups) <= w2.groups.Keys
    requires Retargeted(w2, w, GroupIds(groups)) && Tenancy(w2, w, lb, run.listeners)
    requires ok && (run.userManaged ==> run.forceOverride) ==>
               Settled(run.me, run.userManaged, w2, w, lb, groups, run.listeners, final)
    requires run.userManaged && !run.forceOverride ==> w == w2
    ensures Listened(run, w2, w, lb, ok, groups, final)
  {
    if Integrity(w2) { RetargetedIntegrity(w2, w, GroupIds(groups)); }
    LimitsIntro(run, w2, w, lb);
    if ok && (run.userManaged ==> run.forceOverride) {
      SettledSettles(run.(lb := lb), w2, w, groups, final);
    }
  }

  lemma LimitsIntro(run: Run, w2: World, w: World, lb: Id)
    requires Homed(w2) && lb in w2.lbs && w.lbs == w2.lbs && w.groups == w2.groups && Tenancy(w2, w, lb, run.listeners)
    ensures ListenerLimits(run, w2, w, lb)
  {
  }

  lemma ListenerCalls(log: seq<Event>, from: nat, run: Run, w2: World, lb: Id, groups: seq<GroupModel>, remote: seq<ListenerModel>)
    requires PhaseEvents(log, from, run.me, run.userManaged, w2, groups, remote, run.listeners)
    requires ListedListeners(remote, w2, lb) && GroupIds(groups) <= w2.groups.Keys
    requires run.userManaged && !run.forceOverride ==> |log| <= from
    ensures EarlyEvents(log, from, run, w2)
  {
    forall i | from <= i < |log| ensures EarlyEvent(log[i], run, w2) {
      if Integrity(w2) { RetargetedIntegrity(w2, log[i].after, GroupIds(groups)); }
      if run.userManaged && log[i].call.DeleteListener? {
        DoomedManaged(run.me, remote, run.listeners, w2, lb, log[i].call.id);
      }
    }
  }

  /** A settled load balancer, and nothing else, has changed. */
  lemma SettledSettles(run: Run, w2: World, w: World, groups: seq<GroupModel>, final: seq<ListenerModel>)
    requires Settled(run.me, run.userManaged, w2, w, run.lb, groups, run.listeners, final)
    requires Tenants(w2, w, run.lb) && run.hashChanged && run.lb != NO_ID && (run.userManaged ==> run.forceOverride)
    ensures Settles(run, w2, w, GroupIds(groups))
    ensures FilledIn(run, final, groups)
    ensures DistinctPorts(run.listeners) ==> ListenersInPlace(w, run.lb, final, run.userManaged)
  {
    forall l | l in w.listeners && w.listeners[l].group !in GroupIds(groups)
      ensures l in w2.listeners && run.Survives(w2.listeners[l]) && w.listeners[l] == w2.listeners[l]
    {
    }
  }

  // ------------------------------------------------------------------------ the run

  /** No listener targets a group that the cleanup will delete. */
  predicate Unthreatened(w: World, unused: set<Id>) {
    forall l :: l in w.listeners ==> w.listeners[l].group !in unused
  }

  lemma CleanupKeepsIntegrity(e: Event, w: World, unused: set<Id>)
    requires CleanupEvent(e, w, unused) && Integrity(w) && Unthreatened(w, unused)
    ensures Integrity(e.after)
  {
  }

  /** What every exit of a run keeps. */
  ghost predicate Keeps(run: Run, w0: World, w: World, lb: Id) {
    && Tenants(w0, w, lb) && (!run.hashChanged ==> lb == run.lb && w.lbs == w0.lbs && w.listeners == w0.listeners)
    && (DistinctPorts(run.listeners) ==> Homed(w))
    && (SupportedGroups(run.groups) ==> KnownServers(w))
    && (run.ByName() && UniqueTagged(w0) ==> UniqueTagged(w) && NamesKept(w0, w))
  }

  /** What the phases before the cleanup leave behind. */
  ghost predicate Early(run: Run, w0: World, w: World, lb: Id, ok: bool, groups: seq<GroupModel>, remote: seq<GroupModel>,
                        final: seq<ListenerModel>) {
    && Keeps(run, w0, w, lb) && (Integrity(w0) ==> Integrity(w))
    && (ok ==> Grouped(run, w0, w, groups, remote))
    && (ok && run.hashChanged && !run.needDelete && (run.userManaged ==> run.forceOverride) && DistinctPorts(run.listeners) ==>
          FilledIn(run, final, groups) && ListenersInPlace(w, lb, final, run.userManaged))
  }

  /** Groups and listeners. */
  method MidPhases(cloud: Cloud, run: Run, local: LbModel, remote: LbModel) returns (ok: bool)
    requires cloud.Valid() && local != remote && KnownServers(cloud.w) && Homed(cloud.w) && FreshListeners(run.listeners)
    requires local.groups == run.groups && local.listeners == run.listeners && local.userManaged == run.userManaged
    requires (remote.lb == NO_ID || remote.lb in cloud.w.lbs) && (!run.hashChanged ==> remote.lb == run.lb)
    modifies cloud, local`groups, local`listeners, remote`groups, remote`listeners
    ensures !ok ==> cloud.faulty || !Pairable(run.listeners, local.groups) || (run.hashChanged && remote.lb == NO_ID && !run.needDelete)
    ensures ok ==> cloud.faulty == old(cloud.faulty)
    ensures SameWishes(local.groups, run.groups) || cloud.faulty
    ensures cloud.Valid() && cloud.Extends() && cloud.w.lbs == old(cloud.w).lbs
    ensures Mid(run, old(cloud.w), cloud.w, remote.lb, ok, local.groups, remote.groups, local.listeners)
    ensures EarlyEvents(cloud.log, |old(cloud.log)|, run, old(cloud.w))
  {
    ghost var w1 := cloud.w;
    ok := GroupPhase(cloud, run, local, remote);
    if ok {
      ok := ListenersIfChanged(cloud, run, local, remote, w1, |old(cloud.log)|);
    }
  }

  /** What the two phases leave behind. */
  ghost predicate Mid(run: Run, w0: World, w: World, lb: Id, ok: bool, groups: seq<GroupModel>, remote: seq<GroupModel>,
                      final: seq<ListenerModel>) {
    Early(run, w0, w, lb, ok, groups, remote, final) && (ok ==> Settles(run.(lb := lb), w0, w, GroupIds(groups)))
  }

  /** What the group phase has left behind. */
  ghost predicate GroupsDone(run: Run, w1: World, w2: World, groups: seq<GroupModel>, remote: seq<GroupModel>) {
    && GroupsOnlyGrow(w1, w2) && (SupportedGroups(run.groups) ==> KnownServers(w2))
    && (run.ByName() && UniqueTagged(w1) ==> UniqueTagged(w2) && NamesKept(w1, w2))
    && Grouped(run, w1, w2, groups, remote)
  }

  /** The listeners are looked at only if the hash changed. */
  method ListenersIfChanged(cloud: Cloud, run: Run, local: LbModel, remote: LbModel, ghost w1: World, ghost from: nat) returns (ok: bool)
    requires cloud.Valid() && local != remote && Homed(cloud.w) && FreshListeners(run.listeners) && from <= |cloud.log|
    requires local.listeners == run.listeners && local.userManaged == run.userManaged
    requires (remote.lb == NO_ID || remote.lb in cloud.w.lbs) && (!run.hashChanged ==> remote.lb == run.lb)
    requires GroupsDone(run, w1, cloud.w, local.groups, remote.groups) && EarlyEvents(cloud.log, from, run, w1)
    modifies cloud, local`listeners, remote`listeners
    ensures !ok ==> cloud.faulty || !Pairable(run.listeners, local.groups) || (run.hashChanged && remote.lb == NO_ID && !run.needDelete)
    ensures ok ==> cloud.faulty == old(cloud.faulty)
    ensures cloud.Valid() && cloud.Extends() && cloud.w.lbs == old(cloud.w).lbs
    ensures Mid(run, w1, cloud.w, remote.lb, ok, local.groups, remote.groups, local.listeners)
    ensures EarlyEvents(cloud.log, from, run, w1)
  {
    ghost var w2, log2 := cloud.w, cloud.log;
    ok := !run.hashChanged || remote.lb != NO_ID || run.needDelete;
    if run.hashChanged && remote.lb != NO_ID {
      ok := ListenerPhase(cloud, run, local, remote);
      EarlierEvents(log2, cloud.log, from, run, w1, w2);
      EarlyIntro(run, w1, w2, cloud.w, remote.lb, ok, local.groups, remote.groups, local.listeners);
    } else {
      Skipped(run, w1, w2, remote.lb, ok, local.groups, remote.groups, local.listeners);
    }
  }

  lemma Skipped(run: Run, w1: World, w2: World, lb: Id, ok: bool, groups: seq<GroupModel>, remote: seq<GroupModel>,
                final: seq<ListenerModel>)
    requires GroupsDone(run, w1, w2, groups, remote) && Homed(w2) && (!run.hashChanged ==> lb == run.lb)
    requires !run.hashChanged || (lb == NO_ID && (ok ==> run.needDelete))
    ensures Mid(run, w1, w2, lb, ok, groups, remote, final)
  {
  }

  lemma EarlyIntro(run: Run, w1: World, w2: World, w: World, lb: Id, ok: bool, groups: seq<GroupModel>,
                   remote: seq<GroupModel>, final: seq<ListenerModel>)
    requires run.hashChanged && GroupsDone(run, w1, w2, groups, remote) && Listened(run, w2, w, lb, ok, groups, final)
    ensures Mid(run, w1, w, lb, ok, groups, remote, final)
  {
    assert w.groups == w2.groups && w1.listeners == w2.listeners;
    assert Integrity(w1) ==> Integrity(w2);
    if run.ByName() && Coherent(run.groups) {
      forall k | 0 <= k < |groups| ensures InPlace(groups[k], w) { assert InPlace(groups[k], w2); }
    }
  }

  /** A phase that changed no groups and only removed listeners comes before. */
  lemma EarlyBefore(run: Run, w0: World, w1: World, w: World, lb: Id, ok: bool, groups: seq<GroupModel>, remote: seq<GroupModel>,
                    final: seq<ListenerModel>)
    requires run.hashChanged && w1.groups == w0.groups && Fewer(w0, w1) && Early(run, w1, w, lb, ok, groups, remote, final)
    ensures Early(run, w0, w, lb, ok, groups, remote, final)
  {
    assert Tenants(w0, w, lb);
    assert Integrity(w0) ==> Integrity(w1);
    assert Discarded(w0, run.me, GroupIds(groups)) == Discarded(w1, run.me, GroupIds(groups));
    assert Unwished(w0, run.me, run.groups) == Unwished(w1, run.me, run.groups);
    assert UniqueTagged(w0) ==> UniqueTagged(w1);
  }

  lemma SettlesBefore(run: Run, w0: World, w1: World, w: World, lb: Id, keep: set<Id>)
    requires run.hashChanged && LbDone(run, w0, w1, lb) && Settles(run.(lb := lb), w1, w, keep)
    ensures Settles(run, w0, w, keep)
  {
    forall l | l in w0.listeners && run.Survives(w0.listeners[l]) ensures l in w.listeners && w.listeners[l] == w0.listeners[l] {
      assert l in w1.listeners && run.(lb := lb).Survives(w1.listeners[l]);
    }
    forall l | l in w.listeners && w.listeners[l].group !in keep
      ensures l in w0.listeners && run.Survives(w0.listeners[l]) && w.listeners[l] == w0.listeners[l]
    {
      assert l in w1.listeners && run.(lb := lb).Survives(w1.listeners[l]);
    }
  }

  /** Load balancer, groups and listeners. */
  method EarlyPhases(cloud: Cloud, run: Run, local: LbModel, remote: LbModel) returns (ok: bool)
    requires cloud.Valid() && local != remote && KnownServers(cloud.w) && Homed(cloud.w) && FreshListeners(run.listeners)
    requires local.groups == run.groups && local.listeners == run.listeners && local.userManaged == run.userManaged
    requires remote.lb == run.lb && (run.lb == NO_ID || run.lb in cloud.w.lbs)
    modifies cloud, local`groups, local`listeners, remote
    ensures !ok ==> cloud.faulty || run.Refused() || !Pairable(run.listeners, local.groups)
    ensures ok ==> cloud.faulty == old(cloud.faulty)
    ensures run.Refused() ==> !ok && cloud.w == old(cloud.w) && cloud.log == old(cloud.log)
    ensures SameWishes(local.groups, run.groups) || cloud.faulty || run.Refused()
    ensures cloud.Valid() && cloud.Extends()
    ensures Early(run, old(cloud.w), cloud.w, remote.lb, ok, local.groups, remote.groups, local.listeners)
    ensures ok ==> Settles(run, old(cloud.w), cloud.w, GroupIds(local.groups))
    ensures ok && run.hashChanged && Deletes(run) ==> run.lb !in cloud.w.lbs
    ensures ok && run.hashChanged && !run.needDelete ==> remote.lb != NO_ID && remote.lb in cloud.w.lbs
    ensures LbAfter(run, remote.lb, cloud.w)
    ensures EarlyEvents(cloud.log, |old(cloud.log)|, run, old(cloud.w))
  {
    if run.hashChanged {
      ok := ChangedPhases(cloud, run, local, remote);
    } else {
      ok := MidPhases(cloud, run, local, remote);
    }
  }

  method ChangedPhases(cloud: Cloud, run: Run, local: LbModel, remote: LbModel) returns (ok: bool)
    requires cloud.Valid() && local != remote && KnownServers(cloud.w) && Homed(cloud.w) && FreshListeners(run.listeners)
    requires local.groups == run.groups && local.listeners == run.listeners && local.userManaged == run.userManaged
    requires remote.lb == run.lb && (run.lb == NO_ID || run.lb in cloud.w.lbs) && run.hashChanged
    modifies cloud, local`groups, local`listeners, remote
    ensures !ok ==> cloud.faulty || run.Refused() || !Pairable(run.listeners, local.groups)
    ensures ok ==> cloud.faulty == old(cloud.faulty)
    ensures run.Refused() ==> !ok && cloud.w == old(cloud.w) && cloud.log == old(cloud.log)
    ensures SameWishes(local.groups, run.groups) || cloud.faulty || run.Refused()
    ensures cloud.Valid() && cloud.Extends()
    ensures Early(run, old(cloud.w), cloud.w, remote.lb, ok, local.groups, remote.groups, local.listeners)
    ensures ok ==> Settles(run, old(cloud.w), cloud.w, GroupIds(local.groups))
    ensures ok && Deletes(run) ==> run.lb !in cloud.w.lbs
    ensures ok && !run.needDelete ==> remote.lb != NO_ID && remote.lb in cloud.w.lbs
    ensures LbAfter(run, remote.lb, cloud.w)
    ensures EarlyEvents(cloud.log, |old(cloud.log)|, run, old(cloud.w))
  {
    ghost var w0 := cloud.w;
    ok := ApplyLoadBalancerAttribute(cloud, run, remote);
    ghost var w1, log1 := cloud.w, cloud.log;
    LbKeeps(run, w0, w1, remote.lb);
    if !ok { return; }
    ok := MidPhases(cloud, run, local, remote);
    EarlierEvents(log1, cloud.log, |old(cloud.log)|, run, w0, w1);
    ChangedEnds(run, w0, w1, cloud.w, remote.lb, ok, local.groups, remote.groups, local.listeners);
  }

  lemma ChangedEnds(run: Run, w0: World, w1: World, w: World, lb: Id, ok: bool, groups: seq<GroupModel>,
                    remote: seq<GroupModel>, final: seq<ListenerModel>)
    requires run.hashChanged && LbResult(run, w0, w1, lb, true) && Fewer(w0, w1) && w.lbs == w1.lbs
    requires Mid(run, w1, w, lb, ok, groups, remote, final)
    ensures Early(run, w0, w, lb, ok, groups, remote, final)
    ensures ok ==> Settles(run, w0, w, GroupIds(groups))
    ensures Deletes(run) ==> run.lb !in w.lbs
    ensures !run.needDelete ==> lb != NO_ID && lb in w.lbs
    ensures LbAfter(run, lb, w)
  {
    EarlyBefore(run, w0, w1, w, lb, ok, groups, remote, final);
    if ok { SettlesBefore(run, w0, w1, w, lb, GroupIds(groups)); }
  }

  lemma LbKeeps(run: Run, w0: World, w: World, lb: Id)
    requires LbPhase(run, w0, w) && Homed(w) && KnownServers(w0)
    ensures run.hashChanged ==> Keeps(run, w0, w, lb)
    ensures Fewer(w0, w) && (Integrity(w0) ==> Integrity(w))
  {
  }

  // ----------------------------------------------------------------- the whole application

  /** A call of a run: ownership always; integrity before the final cleanup, and during
      it too if the surviving listeners do not use what is discarded. */
  ghost predicate RunEvent(e: Event, run: Run, w0: World, discarded: set<Id>) {
    && Careful(e, run, w0)
    && (Integrity(w0) && (!e.call.DeleteGroup? || Spared(run, w0, discarded)) ==> Integrity(e.after))
  }

  ghost predicate RunEvents(log: seq<Event>, from: nat, run: Run, w0: World, discarded: set<Id>) {
    forall i :: from <= i < |log| ==> RunEvent(log[i], run, w0, discarded)
  }

  /** What a successful run has achieved. */
  ghost predicate Applied(run: Run, w0: World, w: World, lb: Id, groups: seq<GroupModel>, final: seq<ListenerModel>) {
    && SameWishes(groups, run.groups)
    && Settles(run, w0, w, GroupIds(groups))
    && (run.ByName() && Coherent(run.groups) ==> forall k :: 0 <= k < |groups| ==> InPlace(groups[k], w))
    && (run.ByName() && UniqueTagged(w0) ==> Named(groups, w))
    && (run.hashChanged && !run.needDelete && (run.userManaged ==> run.forceOverride) && DistinctPorts(run.listeners) ==>
          FilledIn(run, final, groups) && ListenersInPlace(w, lb, final, run.userManaged))
    && (run.hashChanged && Deletes(run) ==> run.lb !in w.lbs)
    && (run.hashChanged && !run.needDelete ==> lb != NO_ID && lb in w.lbs)
    && (forall g :: g in Discarded(w0, run.me, GroupIds(groups)) ==> g !in w.groups)
  }

  /** One application of a model, with any outcome of any call.  `discarded` are the
      groups that the run gives up: the tagged groups of this service that no desired
      group was resolved to, or, when groups are resolved by unique names, those whose
      name is not desired.  A successful run keeps referential integrity if and only if
      no listener that it leaves as it is targets one of them. */
  method Apply(cloud: Cloud, run: Run, local: LbModel, remote: LbModel) returns (ok: bool, ghost discarded: set<Id>)
    requires cloud.Valid() && local != remote && KnownServers(cloud.w) && Homed(cloud.w) && FreshListeners(run.listeners)
    requires local.groups == run.groups && local.listeners == run.listeners && local.userManaged == run.userManaged
    requires remote.lb == run.lb && (run.lb == NO_ID || run.lb in cloud.w.lbs)
    modifies cloud, local`groups, local`listeners, remote
    ensures cloud.Valid() && cloud.Extends()
    ensures !ok ==> cloud.faulty || run.Refused() || !Pairable(run.listeners, run.groups)
    ensures ok ==> cloud.faulty == old(cloud.faulty)
    ensures run.hashChanged && !run.needDelete
            && (if run.lb == NO_ID then run.hasIngress else (run.userManaged && !run.reusable) || run.fixedChanged) ==>
              !ok && cloud.w == old(cloud.w) && cloud.log == old(cloud.log)
    ensures Keeps(run, old(cloud.w), cloud.w, remote.lb) && LbAfter(run, remote.lb, cloud.w)
    ensures RunEvents(cloud.log, |old(cloud.log)|, run, old(cloud.w), discarded)
    ensures old(Integrity(cloud.w)) && Spared(run, old(cloud.w), discarded) ==> Integrity(cloud.w)
    ensures run.ByName() && UniqueTagged(old(cloud.w)) ==> discarded == Unwished(old(cloud.w), run.me, run.groups)
    ensures ok ==> discarded == Discarded(old(cloud.w), run.me, GroupIds(local.groups))
    ensures ok ==> Applied(run, old(cloud.w), cloud.w, remote.lb, local.groups, local.listeners)
    ensures ok && old(Integrity(cloud.w)) ==> (Integrity(cloud.w) <==> Spared(run, old(cloud.w), discarded))
  {
    ghost var w0 := cloud.w;
    discarded := Unwished(w0, run.me, run.groups);
    ok := EarlyPhases(cloud, run, local, remote);
    EarlyRun(cloud.log, |old(cloud.log)|, run, w0, discarded);
    if !ok {
      if SameWishes(local.groups, run.groups) { PairableSame(run.listeners, local.groups, run.groups); }
      return;
    }
    discarded := Discarded(w0, run.me, GroupIds(local.groups));
    EarlyRun(cloud.log, |old(cloud.log)|, run, w0, discarded);
    ok := CleanupPhase(cloud, run, remote.lb, local.groups, remote.groups, local.listeners, w0, |old(cloud.log)|, discarded);
  }

  /** The final cleanup of a run that has come so far. */
  method CleanupPhase(cloud: Cloud, run: Run, ghost lb: Id, groups: seq<GroupModel>, remote: seq<GroupModel>,
                      ghost final: seq<ListenerModel>, ghost w0: World, ghost from: nat, ghost discarded: set<Id>)
    returns (ok: bool)
    requires cloud.Valid() && from <= |cloud.log| && Early(run, w0, cloud.w, lb, true, groups, remote, final)
    requires Settles(run, w0, cloud.w, GroupIds(groups)) && discarded == Discarded(w0, run.me, GroupIds(groups))
    requires run.hashChanged && Deletes(run) ==> run.lb !in cloud.w.lbs
    requires run.hashChanged && !run.needDelete ==> lb != NO_ID && lb in cloud.w.lbs
    requires RunEvents(cloud.log, from, run, w0, discarded)
    modifies cloud
    ensures !ok ==> cloud.faulty
    ensures ok ==> cloud.faulty == old(cloud.faulty)
    ensures cloud.Valid() && cloud.Extends() && Keeps(run, w0, cloud.w, lb) && cloud.w.lbs == old(cloud.w).lbs
    ensures RunEvents(cloud.log, from, run, w0, discarded)
    ensures Integrity(w0) && Spared(run, w0, discarded) ==> Integrity(cloud.w)
    ensures ok ==> Applied(run, w0, cloud.w, lb, groups, final)
    ensures ok && Integrity(w0) ==> (Integrity(cloud.w) <==> Spared(run, w0, discarded))
  {
    ghost var w3, log3 := cloud.w, cloud.log;
    ok := Cleanup(cloud, run.me, remote, groups);
    CleanupCalls(log3, cloud.log, from, run, w0, w3, GroupIds(groups), discarded);
    CleanupRemoves(run, w0, w3, cloud.w, lb, discarded);
    if Integrity(w0) { CleanupIntegrity(run, w0, w3, GroupIds(groups), discarded); }
    if ok { AppliedIntro(run, w0, w3, lb, groups, remote, final); }
  }

  lemma EarlyRun(log: seq<Event>, from: nat, run: Run, w0: World, discarded: set<Id>)
    requires EarlyEvents(log, from, run, w0)
    ensures RunEvents(log, from, run, w0, discarded)
  {
  }

  lemma PairableSame(listeners: seq<ListenerModel>, a: seq<GroupModel>, b: seq<GroupModel>)
    requires SameWishes(a, b)
    ensures Pairable(listeners, a) <==> Pairable(listeners, b)
  {
    forall name ensures First(a, name).Some? <==> First(b, name).Some? {
      FirstNone(a, name);
      FirstNone(b, name);
      if First(a, name).Some? {
        var g :| g in a && g.name == name;
        var k :| 0 <= k < |a| && a[k] == g;
        assert b[k] in b;
      }
      if First(b, name).Some? {
        var g :| g in b && g.name == name;
        var k :| 0 <= k < |b| && b[k] == g;
        assert a[k] in a;
      }
    }
  }

  lemma CleanupCalls(log3: seq<Event>, log: seq<Event>, from: nat, run: Run, w0: World, w3: World, keep: set<Id>, discarded: set<Id>)
    requires from <= |log3| <= |log| && log[..|log3|] == log3
    requires RunEvents(log3, from, run, w0, discarded) && CleanupEvents(log, |log3|, w3, discarded)
    requires discarded == Discarded(w0, run.me, keep) && Settles(run, w0, w3, keep) && (Integrity(w0) ==> Integrity(w3))
    ensures RunEvents(log, from, run, w0, discarded)
  {
    if Integrity(w0) { CleanupIntegrity(run, w0, w3, keep, discarded); }
    forall i | from <= i < |log| ensures RunEvent(log[i], run, w0, discarded) {
      if i < |log3| {
        assert log[i] == log3[i];
      } else if Integrity(w0) && Spared(run, w0, discarded) {
        CleanupKeepsIntegrity(log[i], w3, discarded);
      }
    }
  }

  /** Wherever the cleanup stops, it has removed nothing but discarded groups. */
  lemma CleanupRemoves(run: Run, w0: World, w3: World, w: World, lb: Id, discarded: set<Id>)
    requires Keeps(run, w0, w3, lb) && Removed(w3, w, discarded)
    ensures Keeps(run, w0, w, lb)
    ensures Integrity(w3) && Unthreatened(w3, discarded) ==> Integrity(w)
  {
  }

  lemma AppliedIntro(run: Run, w0: World, w3: World, lb: Id, groups: seq<GroupModel>, remote: seq<GroupModel>, final: seq<ListenerModel>)
    requires Early(run, w0, w3, lb, true, groups, remote, final) && Settles(run, w0, w3, GroupIds(groups))
    requires run.hashChanged && Deletes(run) ==> run.lb !in w3.lbs
    requires run.hashChanged && !run.needDelete ==> lb != NO_ID && lb in w3.lbs
    ensures Applied(run, w0, WithoutGroups(w3, Discarded(w0, run.me, GroupIds(groups))), lb, groups, final)
  {
    var unused := Discarded(w0, run.me, GroupIds(groups));
    KeptInPlace(w3, unused, groups);
    forall k | 0 <= k < |groups| ensures groups[k].id !in unused {
      assert groups[k] in groups;
    }
    if run.hashChanged && !run.needDelete && (run.userManaged ==> run.forceOverride) && DistinctPorts(run.listeners) {
      assert ListenersInPlace(w3, lb, final, run.userManaged);
    }
  }

  /** Deleting unused groups touches neither desired groups nor listeners. */
  lemma KeptInPlace(w: World, unused: set<Id>, groups: seq<GroupModel>)
    requires unused !! GroupIds(groups)
    ensures forall k :: 0 <= k < |groups| && InPlace(groups[k], w) ==> InPlace(groups[k], WithoutGroups(w, unused))
    ensures forall lb, ls, um :: ListenersInPlace(w, lb, ls, um) ==> ListenersInPlace(WithoutGroups(w, unused), lb, ls, um)
  {
    forall k | 0 <= k < |groups| && InPlace(groups[k], w) ensures InPlace(groups[k], WithoutGroups(w, unused)) {
      assert groups[k] in groups;
    }
    var w' := WithoutGroups(w, unused);
    forall lb, ls, um | ListenersInPlace(w, lb, ls, um) ensures ListenersInPlace(w', lb, ls, um) {
      forall k | 0 <= k < |ls| ensures Realised(w', lb, ls[k]) {
        assert Realised(w, lb, ls[k]);
        var x :| x in w.listeners && Fits(w.listeners[x], ls[k], lb);
        assert x in w'.listeners && Fits(w'.listeners[x], ls[k], lb);
      }
      if !um {
        forall l | l in w'.listeners && w'.listeners[l].lb == lb ensures Explained(l, w', lb, ls, |ls|) {
          assert Explained(l, w, lb, ls, |ls|);
        }
      }
    }
  }
}
