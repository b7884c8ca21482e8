/** Reconciling the server groups of a service: resolving each desired group to a
    remote one by id or name, creating the missing ones, and deleting the unused
    ones at the end of a run. */
module GroupApplier {
  import opened Common
  import opened NlbCloud
  import opened ServerSync

  /** A server group in a local or remote model. */
  datatype GroupModel = GroupModel(id: Id, name: string, servers: seq<Server>)

  /** A listener in a local or remote model. */
  datatype ListenerModel = ListenerModel(id: Id, port: int, proto: string, groupName: string, group: Id,
                                         desc: string, running: bool)

  /** A local or remote model of one load balancer, filled in during a run. */
  class LbModel {
    var lb: Id
    var userManaged: bool
    var groups: seq<GroupModel>
    var listeners: seq<ListenerModel>

    constructor (lb: Id, userManaged: bool, groups: seq<GroupModel>, listeners: seq<ListenerModel>)
      ensures this.lb == lb && this.userManaged == userManaged
      ensures this.groups == groups && this.listeners == listeners
    {
      this.lb, this.userManaged, this.groups, this.listeners := lb, userManaged, groups, listeners;
    }
  }

  function GroupIds(groups: seq<GroupModel>): (ids: set<Id>)
    ensures forall g :: g in groups ==> g.id in ids
  {
    set g | g in groups :: g.id
  }

  /** The id of the first group with this name. */
  function First(groups: seq<GroupModel>, name: string): Option<Id> {
    if groups == [] then None
    else if groups[0].name == name then Some(groups[0].id)
    else First(groups[1..], name)
  }

  lemma {:induction false} FirstAppend(groups: seq<GroupModel>, g: GroupModel, name: string)
    ensures First(groups + [g], name) ==
            if First(groups, name).Some? then First(groups, name)
            else if g.name == name then Some(g.id) else None
  {
    if groups == [] {
      assert [] + [g] == [g];
    } else {
      assert (groups + [g])[1..] == groups[1..] + [g];
      FirstAppend(groups[1..], g, name);
    }
  }

  lemma {:induction false} FirstIs(groups: seq<GroupModel>, k: nat, name: string)
    requires k < |groups| && groups[k].name == name
    requires forall j :: 0 <= j < k ==> groups[j].name != name
    ensures First(groups, name) == Some(groups[k].id)
  {
    if k > 0 {
      assert groups[0].name != name;
      FirstIs(groups[1..], k - 1, name);
    }
  }

  lemma {:induction false} FirstNone(groups: seq<GroupModel>, name: string)
    ensures First(groups, name).None? <==> forall g :: g in groups ==> g.name != name
    ensures First(groups, name).Some? ==> exists g :: g in groups && g.name == name && g.id == First(groups, name).value
  {
    if groups != [] {
      FirstNone(groups[1..], name);
      assert groups == [groups[0]] + groups[1..];
      if groups[0].name == name {
        assert groups[0] in groups;
      } else if First(groups[1..], name).Some? {
        var g :| g in groups[1..] && g.name == name && g.id == First(groups[1..], name).value;
        assert g in groups;
      }
    }
  }

  /** Does the search match remote group `r`?  By id when the local group has
      one, by name otherwise. */
  predicate Matches(g: GroupModel, r: GroupModel) {
    if g.id != NO_ID then g.id == r.id else g.name == r.name
  }

  method FindRemote(g: GroupModel, remote: seq<GroupModel>) returns (found: bool, old_: GroupModel)
    ensures found ==> old_ in remote && if g.id != NO_ID then old_.id == g.id else old_.name == g.name
    ensures !found ==> forall r :: r in remote ==> if g.id != NO_ID then r.id != g.id else r.name != g.name
    ensures g.id == NO_ID ==> First(remote, g.name) == if found then Some(old_.id) else None
  {
    old_ := g;
    for i := 0 to |remote|
      invariant forall j :: 0 <= j < i ==> !Matches(g, remote[j])
    {
      if Matches(g, remote[i]) {
        if g.id == NO_ID { FirstIs(remote, i, g.name); }
        return true, remote[i];
      }
    }
    FirstNone(remote, g.name);
    return false, g;
  }

  /** Groups may be added and changed, but not removed, and nothing else moves. */
  predicate GroupsOnlyGrow(w0: World, w: World) {
    w.lbs == w0.lbs && w.listeners == w0.listeners && w0.groups.Keys <= w.groups.Keys
  }

  /** Every call from position `from` on is one of the group phase. */
  ghost predicate GroupEvents(log: seq<Event>, from: nat, w0: World) {
    forall i :: from <= i < |log| ==> GroupEvent(log[i], w0)
  }

  lemma GroupEventsExtend(before: seq<Event>, log: seq<Event>, from: nat, w0: World)
    requires before <= log && GroupEvents(before, from, w0) && GroupEvents(log, |before|, w0)
    ensures GroupEvents(log, from, w0)
  {
    forall i | from <= i < |log| ensures GroupEvent(log[i], w0) {
      if i < |before| { assert log[i] == before[i]; }
    }
  }

  /** A call of the group phase. */
  predicate GroupEvent(e: Event, w0: World) {
    && GroupsOnlyGrow(w0, e.after)
    && (e.call.CreateGroup? || e.call.TagGroup? || e.call.UpdateGroup? || e.call.ChangeServers?)
  }

  /** All groups but `id` are as before. */
  predicate OthersKept(id: Id, w0: World, w: World) {
    && w.groups.Keys <= w0.groups.Keys + {id}
    && forall x :: x in w0.groups && x != id ==> x in w.groups && w.groups[x] == w0.groups[x]
  }

  /** The cloud holds servers of supported kinds only. */
  predicate KnownServers(w: World) {
    forall g :: g in w.groups ==> Known(w.groups[g].servers)
  }

  /** No two tagged groups share a name. */
  predicate UniqueTagged(w: World) {
    forall a, b :: a in w.groups && b in w.groups && SameTagged(w.groups[a], w.groups[b]) ==> a == b
  }

  predicate SameTagged(a: Group, b: Group) {
    a.tagged && b.tagged && a.name == b.name
  }

  /** The list holds exactly the tagged groups, under their names. */
  ghost predicate Register(w: World, remote: seq<GroupModel>) {
    && (forall r :: r in remote ==> r.id in w.groups && w.groups[r.id].name == r.name && w.groups[r.id].tagged)
    && (forall g :: g in w.groups && w.groups[g].tagged ==> g in GroupIds(remote))
  }

  /** `UpdateServerGroup`: the attribute call if anything differs, then the
      servers.  Other attributes than the name are not tracked here. */
  method UpdateServerGroup(cloud: Cloud, g: GroupModel, r: GroupModel) returns (ok: bool)
    requires cloud.Valid() && r.id in cloud.w.groups
    modifies cloud
    ensures !ok ==> cloud.faulty
    ensures ok ==> cloud.faulty == old(cloud.faulty)
    ensures cloud.Valid() && cloud.Extends() && GroupsOnlyGrow(old(cloud.w), cloud.w)
    ensures OthersKept(r.id, old(cloud.w), cloud.w)
    ensures cloud.w.groups[r.id].tagged == old(cloud.w.groups[r.id].tagged)
    ensures cloud.w.groups[r.id].name in {old(cloud.w.groups[r.id].name), g.name}
    ensures ok && g.name != r.name ==> cloud.w.groups[r.id].name == g.name
    ensures AllSupported(g.servers) && old(Known(cloud.w.groups[r.id].servers)) ==> Known(cloud.w.groups[r.id].servers)
    ensures ok ==> cloud.w.groups[r.id].servers == Synced(old(cloud.w.groups[r.id].servers), r.servers, g.servers)
    ensures forall i :: |old(cloud.log)| <= i < |cloud.log| ==>
              GroupEvent(cloud.log[i], old(cloud.w)) && !cloud.log[i].call.CreateGroup?
  {
    var otherAttributes: bool := *;
    if g.name != r.name || otherAttributes {
      ok := cloud.UpdateGroup(r.id, g.name);
      if !ok { return; }
    }
    ghost var log1 := cloud.log;
    ok := UpdateServerGroupServers(cloud, r.id, r.servers, g.servers, {});
    assert forall i :: |old(cloud.log)| <= i < |log1| ==> cloud.log[i] == log1[i];
  }

  /** Create empty, tag, then add the servers in batches. */
  method CreateServerGroup(cloud: Cloud, g: GroupModel) returns (ok: bool, id: Id)
    requires cloud.Valid()
    modifies cloud
    ensures !ok ==> cloud.faulty
    ensures ok ==> cloud.faulty == old(cloud.faulty)
    ensures cloud.Valid() && cloud.Extends() && GroupsOnlyGrow(old(cloud.w), cloud.w)
    ensures id != NO_ID && id !in old(cloud.w).groups && OthersKept(id, old(cloud.w), cloud.w)
    ensures ok ==> id in cloud.w.groups && cloud.w.groups[id].servers == ApplyServers(Add, map[], g.servers)
    ensures ok ==> cloud.w.groups[id].tagged
    ensures id in cloud.w.groups ==> cloud.w.groups[id].name == g.name
    ensures id in cloud.w.groups && AllSupported(g.servers) ==> Known(cloud.w.groups[id].servers)
    ensures forall i :: |old(cloud.log)| <= i < |cloud.log| ==>
              && GroupEvent(cloud.log[i], old(cloud.w))
              && if i == |old(cloud.log)| then cloud.log[i].call == Call.CreateGroup(id, g.name)
                 else !cloud.log[i].call.CreateGroup?
    ensures |old(cloud.log)| < |cloud.log|
  {
    ok, id := cloud.CreateGroup(g.name);
    if !ok { return; }
    ok := cloud.TagGroup(id);
    if !ok { return; }
    ghost var log1 := cloud.log;
    ok := BatchServers(cloud, Add, id, g.servers);
    assert forall i :: |old(cloud.log)| <= i < |log1| ==> cloud.log[i] == log1[i];
  }

  /** What happens to the name and the tag of the group at hand. */
  predicate Kept(old_: Option<GroupModel>, g: GroupModel, w0: World, w: World, ok: bool) {
    if old_.Some? then
      && g.id in w0.groups && g.id in w.groups && w.groups[g.id].tagged == w0.groups[g.id].tagged
      && w.groups[g.id].name in {w0.groups[g.id].name, g.name}
      && (ok && g.name != old_.value.name ==> w.groups[g.id].name == g.name)
    else
      g.id in w.groups ==> w.groups[g.id].name == g.name && (ok ==> w.groups[g.id].tagged)
  }

  /** No group is renamed or loses its tag. */
  ghost predicate NamesKept(w0: World, w: World) {
    forall g :: g in w0.groups && g in w.groups ==>
      w.groups[g].name == w0.groups[g].name && (w0.groups[g].tagged ==> w.groups[g].tagged)
  }

  /** How the group at hand is resolved by name. */
  predicate ByName(remote: seq<GroupModel>, g: GroupModel, old_: Option<GroupModel>, remote': seq<GroupModel>, w0: World) {
    && First(remote, g.name) == (if old_.Some? then Some(g.id) else None)
    && (if old_.Some? then remote' == remote else g.id !in w0.groups && remote' == remote + [g])
  }

  /** The calls for such a group keep tagged names unique. */
  lemma UniqueStep(w0: World, remote: seq<GroupModel>, w: World, g: GroupModel, old_: Option<GroupModel>, remote': seq<GroupModel>, ok: bool)
    requires UniqueTagged(w0) && Register(w0, remote) && OthersKept(g.id, w0, w) && Kept(old_, g, w0, w, ok)
    requires ByName(remote, g, old_, remote', w0)
    ensures UniqueTagged(w) && NamesKept(w0, w)
  {
    FirstNone(remote, g.name);
    if old_.None? {
      forall x | x in w0.groups && w0.groups[x].tagged ensures w0.groups[x].name != g.name {
        var r :| r in remote && r.id == x;
      }
    }
  }

  /** If they succeed, the growing list stays exact. */
  lemma RegisterStep(w0: World, remote: seq<GroupModel>, w: World, g: GroupModel, old_: Option<GroupModel>, remote': seq<GroupModel>)
    requires Register(w0, remote) && OthersKept(g.id, w0, w) && Kept(old_, g, w0, w, true) && g.id in w.groups
    requires ByName(remote, g, old_, remote', w0)
    ensures Register(w, remote')
  {
    FirstNone(remote, g.name);
    if old_.None? {
      assert forall r :: r in remote' <==> r in remote || r == g;
    }
    forall x | x in w.groups && w.groups[x].tagged ensures x in GroupIds(remote') {
      if x in w0.groups && w0.groups[x].tagged {
        var r :| r in remote && r.id == x;
        assert r in remote';
      }
    }
  }

  /** One iteration of the group loop. */
  method EnsureGroup(cloud: Cloud, g: GroupModel, remote: seq<GroupModel>)
    returns (ok: bool, g': GroupModel, remote': seq<GroupModel>, ghost old_: Option<GroupModel>)
    requires cloud.Valid() && forall r :: r in remote ==> r.id in cloud.w.groups
    modifies cloud
    ensures !ok ==> cloud.faulty
    ensures ok ==> cloud.faulty == old(cloud.faulty)
    ensures cloud.Valid() && cloud.Extends() && GroupsOnlyGrow(old(cloud.w), cloud.w)
    ensures g'.name == g.name && g'.servers == g.servers && OthersKept(g'.id, old(cloud.w), cloud.w)
    ensures g.id == NO_ID ==> First(remote, g.name) == if old_.Some? then Some(g'.id) else None
    ensures g.id != NO_ID ==> if g.id in GroupIds(remote) then g'.id == g.id else old_.None?
    ensures old_.Some? ==> old_.value in remote && old_.value.id == g'.id && remote' == remote
    ensures old_.None? ==> g'.id !in old(cloud.w).groups && remote' == remote + [g']
    ensures ok ==> g'.id in cloud.w.groups && g'.id != NO_ID
    ensures Kept(old_, g', old(cloud.w), cloud.w, ok)
    ensures AllSupported(g.servers) && old(KnownServers(cloud.w)) ==> KnownServers(cloud.w)
    ensures ok ==> cloud.w.groups[g'.id].servers ==
                   if old_.Some? then Synced(old(cloud.w.groups)[g'.id].servers, old_.value.servers, g.servers)
                   else ApplyServers(Add, map[], g.servers)
    ensures forall i :: |old(cloud.log)| <= i < |cloud.log| ==>
              && GroupEvent(cloud.log[i], old(cloud.w))
              && (cloud.log[i].call.CreateGroup? ==>
                    i == |old(cloud.log)| && old_.None? && cloud.log[i].call.name == g.name)
  {
    var found, r := FindRemote(g, remote);
    if found {
      g' := g.(id := r.id);
      remote', old_ := remote, Some(r);
      ok := UpdateServerGroup(cloud, g', r);
    } else {
      var id;
      ok, id := CreateServerGroup(cloud, g);
      g' := g.(id := id);
      remote', old_ := remote + [g'], None;
    }
  }

  // ---------------------------------------------------------------- the whole group loop

  ghost predicate FromEmpty(groups: seq<GroupModel>) {
    forall k :: 0 <= k < |groups| ==> groups[k].id == NO_ID
  }

  /** Desired groups of one name want the same servers. */
  ghost predicate Coherent(groups: seq<GroupModel>) {
    && (forall k :: 0 <= k < |groups| ==> WellFormed(groups[k].servers))
    && (forall j, k :: 0 <= j < |groups| && 0 <= k < |groups| && groups[j].name == groups[k].name ==>
          groups[j].servers == groups[k].servers)
  }

  /** Remote groups as a listing returns them: ids are distinct and exist. */
  ghost predicate ListedGroups(remote: seq<GroupModel>, w: World) {
    && (forall j, k :: 0 <= j < k < |remote| ==> remote[j].id != remote[k].id)
    && (forall r :: r in remote ==> r.id in w.groups && r.id != NO_ID && r.name == w.groups[r.id].name
                                    && Lists(r.servers, w.groups[r.id].servers, {}))
  }

  /** The first `n` groups are resolved to groups that exist. */
  ghost predicate Placed(groups: seq<GroupModel>, n: nat, w: World)
    requires n <= |groups|
  {
    forall k :: 0 <= k < n ==> groups[k].id != NO_ID && groups[k].id in w.groups
  }

  /** The first `n` groups carry the id of the first remote group of their name. */
  ghost predicate Resolved(groups: seq<GroupModel>, n: nat, remote: seq<GroupModel>)
    requires n <= |groups|
  {
    forall k :: 0 <= k < n ==> First(remote, groups[k].name) == Some(groups[k].id)
  }

  /** Names and servers are those of the desired groups. */
  ghost predicate SameWishes(groups: seq<GroupModel>, wished: seq<GroupModel>) {
    |groups| == |wished| &&
    forall k :: 0 <= k < |groups| ==> groups[k].name == wished[k].name && groups[k].servers == wished[k].servers
  }

  /** The first `n` groups hold exactly their desired servers; remote groups that
      were not visited yet are as listed. */
  ghost predicate ServersDone(groups: seq<GroupModel>, n: nat, remote: seq<GroupModel>, w: World)
    requires n <= |groups|
  {
    && (forall k :: 0 <= k < n ==> groups[k].id in w.groups && Exactly(groups[k].servers, w.groups[groups[k].id].servers))
    && (forall r :: r in remote && r.id !in GroupIds(groups[..n]) ==>
          r.id in w.groups && Lists(r.servers, w.groups[r.id].servers, {}))
  }

  /** Creations within one run: never for a name that is already remote, never
      twice for one name. */
  ghost predicate CreatesOnce(log: seq<Event>, from: nat, remote: seq<GroupModel>) {
    && (forall i :: from <= i < |log| && log[i].call.CreateGroup? ==> First(remote, log[i].call.name).None?)
    && (forall i, j :: from <= i < j < |log| && log[i].call.CreateGroup? && log[j].call.CreateGroup? ==>
          log[i].call.name != log[j].call.name)
  }

  /** Every group created so far is known to the growing remote list. */
  ghost predicate CreatedKnown(log: seq<Event>, from: nat, remote: seq<GroupModel>) {
    forall i :: from <= i < |log| && log[i].call.CreateGroup? ==> First(remote, log[i].call.name).Some?
  }

  lemma ResolvedGrows(groups: seq<GroupModel>, n: nat, remote: seq<GroupModel>, g: GroupModel)
    requires n <= |groups| && Resolved(groups, n, remote)
    ensures Resolved(groups, n, remote + [g])
  {
    forall k | 0 <= k < n ensures First(remote + [g], groups[k].name) == Some(groups[k].id) {
      FirstAppend(remote, g, groups[k].name);
    }
  }

  lemma CreationStep(log0: seq<Event>, log: seq<Event>, from: nat, remote0: seq<GroupModel>, remote: seq<GroupModel>, name: string)
    requires from <= |log0| <= |log| && log[..|log0|] == log0
    requires remote0 <= remote
    requires CreatesOnce(log0, from, remote0) && CreatedKnown(log0, from, remote)
    requires forall i :: |log0| <= i < |log| && log[i].call.CreateGroup? ==>
               i == |log0| && log[i].call.name == name && First(remote, name).None?
    ensures CreatesOnce(log, from, remote0)
  {
    assert forall i :: from <= i < |log0| ==> log[i] == log0[i];
    FirstNone(remote, name);
    FirstNone(remote0, name);
    assert forall r :: r in remote0 ==> r in remote;
  }

  lemma KnownStep(log0: seq<Event>, log: seq<Event>, from: nat, remote: seq<GroupModel>, g: GroupModel)
    requires from <= |log0| <= |log| && log[..|log0|] == log0
    requires CreatedKnown(log0, from, remote)
    requires forall i :: |log0| <= i < |log| && log[i].call.CreateGroup? ==> log[i].call.name == g.name
    ensures CreatedKnown(log, from, remote + [g])
  {
    forall i | from <= i < |log| && log[i].call.CreateGroup? ensures First(remote + [g], log[i].call.name).Some? {
      FirstAppend(remote, g, log[i].call.name);
      if i < |log0| { assert log[i] == log0[i]; }
    }
  }

  ghost predicate DistinctIds(remote: seq<GroupModel>) {
    forall r, q :: r in remote && q in remote && r.id == q.id ==> r == q
  }

  lemma SameFirstSameName(remote: seq<GroupModel>, a: string, b: string)
    requires DistinctIds(remote) && First(remote, a).Some? && First(remote, a) == First(remote, b)
    ensures a == b
  {
    FirstNone(remote, a);
    FirstNone(remote, b);
  }

  /** The servers of the group that was just handled. */
  lemma HandledExactly(groups: seq<GroupModel>, n: nat, remote: seq<GroupModel>, w0: World, r: GroupModel)
    requires n < |groups| && Coherent(groups) && DistinctIds(remote) && Resolved(groups, n, remote)
    requires ServersDone(groups, n, remote, w0)
    requires r in remote && r.id in w0.groups && First(remote, groups[n].name) == Some(r.id)
    ensures Exactly(groups[n].servers, Synced(w0.groups[r.id].servers, r.servers, groups[n].servers))
    ensures forall k :: 0 <= k < n && groups[k].id == r.id ==> groups[k].servers == groups[n].servers
  {
    var m := w0.groups[r.id].servers;
    forall k | 0 <= k < n && groups[k].id == r.id ensures groups[k].name == groups[n].name {
      SameFirstSameName(remote, groups[k].name, groups[n].name);
    }
    if r.id in GroupIds(groups[..n]) {
      var g :| g in groups[..n] && g.id == r.id;
      var k :| 0 <= k < n && groups[..n][k] == g;
      assert groups[k].id == r.id;
      SyncedStable(m, r.servers, groups[n].servers);
    } else {
      Convergence(r.servers, groups[n].servers, m, {});
    }
  }

  lemma GroupIdsGrow(groups: seq<GroupModel>, n: nat)
    requires n < |groups|
    ensures GroupIds(groups[..n + 1]) == GroupIds(groups[..n]) + {groups[n].id}
  {
    assert groups[..n + 1] == groups[..n] + [groups[n]];
  }

  /** The group at hand has its servers, and groups of the same id want the same. */
  lemma HandledServers(groups: seq<GroupModel>, n: nat, remote: seq<GroupModel>, w0: World,
                       g': GroupModel, old_: Option<GroupModel>, w: World)
    requires n < |groups| && Coherent(groups) && DistinctIds(remote) && Resolved(groups, n, remote)
    requires ServersDone(groups, n, remote, w0) && forall r :: r in remote ==> r.id in w0.groups
    requires g'.id in w.groups && First(remote, groups[n].name) == if old_.Some? then Some(g'.id) else None
    requires old_.Some? ==> old_.value in remote && old_.value.id == g'.id
    requires old_.None? ==> g'.id !in w0.groups
    requires w.groups[g'.id].servers ==
             if old_.Some? then Synced(w0.groups[g'.id].servers, old_.value.servers, groups[n].servers)
             else ApplyServers(Add, map[], groups[n].servers)
    ensures Exactly(groups[n].servers, w.groups[g'.id].servers)
    ensures forall k :: 0 <= k < n && groups[k].id == g'.id ==> groups[k].servers == groups[n].servers
  {
    if old_.Some? {
      HandledExactly(groups, n, remote, w0, old_.value);
    } else {
      FilledExactly(groups[n].servers);
    }
  }

  /** One iteration keeps the server part of the loop invariant. */
  lemma ServersStep(groups: seq<GroupModel>, n: nat, remote: seq<GroupModel>, w0: World,
                    g': GroupModel, remote': seq<GroupModel>, w: World)
    requires n < |groups| && ServersDone(groups, n, remote, w0)
    requires g' == groups[n].(id := g'.id) && OthersKept(g'.id, w0, w) && g'.id in w.groups
    requires remote' == remote || remote' == remote + [g']
    requires Exactly(groups[n].servers, w.groups[g'.id].servers)
    requires forall k :: 0 <= k < n && groups[k].id == g'.id ==> groups[k].servers == groups[n].servers
    ensures ServersDone(groups[n := g'], n + 1, remote', w)
  {
    var after := groups[n := g'];
    forall k | 0 <= k < n + 1
      ensures after[k].id in w.groups && Exactly(after[k].servers, w.groups[after[k].id].servers)
    {
      if k < n && groups[k].id != g'.id {
        assert groups[k].id in w0.groups;
      }
    }
    GroupIdsGrow(after, n);
    assert after[..n] == groups[..n];
  }

  lemma DistinctIdsGrow(remote: seq<GroupModel>, g: GroupModel, w0: World)
    requires DistinctIds(remote) && (forall r :: r in remote ==> r.id in w0.groups) && g.id !in w0.groups
    ensures DistinctIds(remote + [g])
  {
  }

  /** The bookkeeping part of the loop invariant after `n` iterations. */
  ghost predicate Books(n: nat, wished: seq<GroupModel>, listed: seq<GroupModel>,
                        groups: seq<GroupModel>, remote: seq<GroupModel>, w: World)
  {
    && SameWishes(groups, wished) && n <= |groups| && listed <= remote
    && (forall k :: n <= k < |wished| ==> groups[k] == wished[k])
    && (forall r :: r in remote ==> r.id in w.groups)
    && (forall r :: r in remote && r !in listed ==> r.id in GroupIds(groups[..n]))
    && DistinctIds(remote)
    && Placed(groups, n, w)
  }

  lemma BooksStep(n: nat, wished: seq<GroupModel>, listed: seq<GroupModel>, groups: seq<GroupModel>,
                  remote: seq<GroupModel>, w0: World, g': GroupModel, remote': seq<GroupModel>, w: World)
    requires Books(n, wished, listed, groups, remote, w0) && n < |groups|
    requires g' == groups[n].(id := g'.id) && g'.id != NO_ID && g'.id in w.groups
    requires w0.groups.Keys <= w.groups.Keys
    requires remote' == remote || (remote' == remote + [g'] && g'.id !in w0.groups)
    ensures Books(n + 1, wished, listed, groups[n := g'], remote', w)
  {
    GroupIdsGrow(groups[n := g'], n);
    assert groups[n := g'][..n] == groups[..n];
    if remote' != remote {
      DistinctIdsGrow(remote, g', w0);
    }
  }

  /** The naming and server parts of the loop invariant. */
  ghost predicate Content(n: nat, groups: seq<GroupModel>, remote: seq<GroupModel>, listed: seq<GroupModel>,
                          w: World, log: seq<Event>, from: nat, empty: bool, coherent: bool, tidy: bool)
  {
    && n <= |groups|
    && (tidy ==> UniqueTagged(w) && Register(w, remote))
    && (empty ==> CreatesOnce(log, from, listed) && CreatedKnown(log, from, remote) && Resolved(groups, n, remote))
    && (coherent ==> Coherent(groups) && ServersDone(groups, n, remote, w))
  }

  lemma CoherentStep(groups: seq<GroupModel>, n: nat, g': GroupModel)
    requires n < |groups| && Coherent(groups) && g' == groups[n].(id := g'.id)
    ensures Coherent(groups[n := g'])
  {
  }

  lemma ContentStep(n: nat, wished: seq<GroupModel>, listed: seq<GroupModel>, groups: seq<GroupModel>,
                    remote: seq<GroupModel>, w0: World, log0: seq<Event>, from: nat, empty: bool, coherent: bool, tidy: bool,
                    g': GroupModel, remote': seq<GroupModel>, old_: Option<GroupModel>, w: World, log: seq<Event>)
    requires n < |groups| && Books(n, wished, listed, groups, remote, w0)
    requires Content(n, groups, remote, listed, w0, log0, from, empty, coherent, tidy)
    requires (coherent ==> empty) && (tidy ==> UniqueTagged(w) && Register(w, remote'))
    requires g' == groups[n].(id := g'.id) && OthersKept(g'.id, w0, w) && g'.id in w.groups
    requires empty ==> First(remote, groups[n].name) == if old_.Some? then Some(g'.id) else None
    requires old_.Some? ==> old_.value in remote && old_.value.id == g'.id && remote' == remote
    requires old_.None? ==> g'.id !in w0.groups && remote' == remote + [g']
    requires w.groups[g'.id].servers ==
             if old_.Some? then Synced(w0.groups[g'.id].servers, old_.value.servers, groups[n].servers)
             else ApplyServers(Add, map[], groups[n].servers)
    requires from <= |log0| <= |log| && log[..|log0|] == log0
    requires forall i :: |log0| <= i < |log| && log[i].call.CreateGroup? ==>
               i == |log0| && old_.None? && log[i].call.name == groups[n].name
    ensures Content(n + 1, groups[n := g'], remote', listed, w, log, from, empty, coherent, tidy)
  {
    if empty {
      CreationStep(log0, log, from, listed, remote, g'.name);
      LoopResolve(groups, n, remote, g', remote', old_, log0, log, from);
    }
    if coherent {
      CoherentStep(groups, n, g');
      HandledServers(groups, n, remote, w0, g', old_, w);
      ServersStep(groups, n, remote, w0, g', remote', w);
    }
  }

  ghost predicate SupportedGroups(groups: seq<GroupModel>) {
    forall k :: 0 <= k < |groups| ==> AllSupported(groups[k].servers)
  }

  /** Groups are resolved by name, against an exact list of uniquely named groups. */
  ghost predicate Tidy(wished: seq<GroupModel>, listed: seq<GroupModel>, w: World) {
    FromEmpty(wished) && UniqueTagged(w) && Register(w, listed)
  }

  /** What the loop started from. */
  datatype Origin = Origin(wished: seq<GroupModel>, listed: seq<GroupModel>, w: World, from: nat) {
    ghost predicate Settles() { FromEmpty(wished) && Coherent(wished) }

    ghost predicate IsTidy() { Tidy(wished, listed, w) }

    ghost predicate IsKnown() { SupportedGroups(wished) && KnownServers(w) }
  }

  /** A group that asks for a listed one by its id keeps that id. */
  ghost predicate IdsKept(n: nat, wished: seq<GroupModel>, listed: seq<GroupModel>, groups: seq<GroupModel>) {
    && n <= |groups| == |wished|
    && forall k :: 0 <= k < n && wished[k].id != NO_ID && wished[k].id in GroupIds(listed) ==> groups[k].id == wished[k].id
  }

  lemma IdsKeptStep(n: nat, wished: seq<GroupModel>, listed: seq<GroupModel>, groups: seq<GroupModel>,
                    remote: seq<GroupModel>, g': GroupModel)
    requires IdsKept(n, wished, listed, groups) && n < |groups| && groups[n] == wished[n] && listed <= remote
    requires wished[n].id != NO_ID && wished[n].id in GroupIds(remote) ==> g'.id == wished[n].id
    ensures IdsKept(n + 1, wished, listed, groups[n := g'])
  {
    assert forall r :: r in listed ==> r in remote;
  }

  /** The group with this id has the name of a desired group that was resolved to it. */
  ghost predicate NamedByWish(groups: seq<GroupModel>, n: nat, w: World, id: Id)
    requires n <= |groups|
  {
    id in w.groups && exists j :: 0 <= j < n && groups[j].id == id && w.groups[id].name == groups[j].name
  }

  /** So has every group resolved so far; the others still have the names listed. */
  ghost predicate Renamed(n: nat, groups: seq<GroupModel>, remote: seq<GroupModel>, w: World) {
    && n <= |groups|
    && (forall k :: 0 <= k < n ==> NamedByWish(groups, n, w, groups[k].id))
    && (forall r :: r in remote ==> r.id in w.groups && (w.groups[r.id].name == r.name || NamedByWish(groups, n, w, r.id)))
  }

  lemma NamedByWishStep(n: nat, groups: seq<GroupModel>, w0: World, g': GroupModel, w: World, id: Id)
    requires n < |groups| && NamedByWish(groups, n, w0, id) && OthersKept(g'.id, w0, w) && id != g'.id
    ensures NamedByWish(groups[n := g'], n + 1, w, id)
  {
    var j :| 0 <= j < n && groups[j].id == id && w0.groups[id].name == groups[j].name;
    assert groups[n := g'][j] == groups[j];
  }

  lemma RenamedStep(n: nat, groups: seq<GroupModel>, remote: seq<GroupModel>, w0: World, g': GroupModel,
                    old_: Option<GroupModel>, remote': seq<GroupModel>, w: World)
    requires n < |groups| && Renamed(n, groups, remote, w0) && OthersKept(g'.id, w0, w) && Kept(old_, g', w0, w, true)
    requires g'.id in w.groups
    requires if old_.Some? then old_.value in remote && old_.value.id == g'.id && remote' == remote
             else g'.id !in w0.groups && remote' == remote + [g']
    ensures Renamed(n + 1, groups[n := g'], remote', w)
  {
    var after := groups[n := g'];
    AtHand(n, groups, remote, w0, g', old_, w);
    forall id | id != g'.id && NamedByWish(groups, n, w0, id) ensures NamedByWish(after, n + 1, w, id) {
      NamedByWishStep(n, groups, w0, g', w, id);
    }
    forall k | 0 <= k < n + 1 ensures NamedByWish(after, n + 1, w, after[k].id) {
      if k < n { assert NamedByWish(groups, n, w0, groups[k].id); }
    }
    assert forall r :: r in remote' ==> r in remote || r == g';
  }

  /** The group at hand. */
  lemma AtHand(n: nat, groups: seq<GroupModel>, remote: seq<GroupModel>, w0: World, g': GroupModel,
               old_: Option<GroupModel>, w: World)
    requires n < |groups| && Renamed(n, groups, remote, w0) && Kept(old_, g', w0, w, true) && g'.id in w.groups
    requires old_.Some? ==> old_.value in remote && old_.value.id == g'.id
    ensures NamedByWish(groups[n := g'], n + 1, w, g'.id)
  {
    var after := groups[n := g'];
    if w.groups[g'.id].name == g'.name {
      assert after[n] == g';
    } else {
      assert w.groups[g'.id].name == w0.groups[g'.id].name && NamedByWish(groups, n, w0, g'.id);
      var j :| 0 <= j < n && groups[j].id == g'.id && w0.groups[g'.id].name == groups[j].name;
      assert after[j] == groups[j];
    }
  }

  /** The loop invariant; `ok` is false once a call has failed. */
  ghost predicate InLoop(o: Origin, n: nat, groups: seq<GroupModel>, remote: seq<GroupModel>, w: World, log: seq<Event>, ok: bool) {
    && GroupsOnlyGrow(o.w, w) && Books(n, o.wished, o.listed, groups, remote, w) && GroupEvents(log, o.from, o.w)
    && IdsKept(n, o.wished, o.listed, groups)
    && (FromEmpty(o.wished) ==> CreatesOnce(log, o.from, o.listed))
    && (ok ==> Content(n, groups, remote, o.listed, w, log, o.from, FromEmpty(o.wished), o.Settles(), o.IsTidy()))
    && (ok ==> Renamed(n, groups, remote, w))
    && (o.IsTidy() ==> UniqueTagged(w) && NamesKept(o.w, w))
    && (o.IsKnown() ==> KnownServers(w))
  }

  /** One iteration of the loop, kept apart from the loop itself. */
  method Iterate(cloud: Cloud, n: nat, groups: seq<GroupModel>, remote: seq<GroupModel>, ghost o: Origin)
    returns (ok: bool, groups': seq<GroupModel>, remote': seq<GroupModel>)
    requires cloud.Valid() && n < |groups| && o.from <= |cloud.log|
    requires InLoop(o, n, groups, remote, cloud.w, cloud.log, true)
    modifies cloud
    ensures !ok ==> cloud.faulty
    ensures ok ==> cloud.faulty == old(cloud.faulty)
    ensures cloud.Valid() && cloud.Extends() && |groups'| == |groups|
    ensures InLoop(o, if ok then n + 1 else n, groups', remote', cloud.w, cloud.log, ok)
  {
    ghost var w1, log1 := cloud.w, cloud.log;
    var g', grown;
    ghost var old_;
    ok, g', grown, old_ := EnsureGroup(cloud, groups[n], remote);
    GroupEventsExtend(log1, cloud.log, o.from, o.w);
    if FromEmpty(o.wished) {
      CreationStep(log1, cloud.log, o.from, o.listed, remote, g'.name);
    }
    if o.IsTidy() {
      UniqueStep(w1, remote, cloud.w, g', old_, grown, ok);
      if ok { RegisterStep(w1, remote, cloud.w, g', old_, grown); }
    }
    if ok {
      groups', remote' := groups[n := g'], grown;
      RenamedStep(n, groups, remote, w1, g', old_, remote', cloud.w);
      IdsKeptStep(n, o.wished, o.listed, groups, remote, g');
      BooksStep(n, o.wished, o.listed, groups, remote, w1, g', remote', cloud.w);
      ContentStep(n, o.wished, o.listed, groups, remote, w1, log1, o.from, FromEmpty(o.wished), o.Settles(), o.IsTidy(),
                  g', remote', old_, cloud.w, cloud.log);
    } else {
      groups', remote' := groups, remote;
    }
  }

  /** The loop over the desired groups. */
  method ResolveGroups(cloud: Cloud, wished: seq<GroupModel>, listed: seq<GroupModel>)
    returns (ok: bool, groups: seq<GroupModel>, known: seq<GroupModel>, ghost n: nat)
    requires cloud.Valid() && ListedGroups(listed, cloud.w)
    modifies cloud
    ensures !ok ==> cloud.faulty
    ensures ok ==> cloud.faulty == old(cloud.faulty)
    ensures cloud.Valid() && cloud.Extends() && (ok ==> n == |groups|)
    ensures InLoop(Origin(wished, listed, old(cloud.w), |old(cloud.log)|), n, groups, known, cloud.w, cloud.log, ok)
  {
    ghost var o := Origin(wished, listed, cloud.w, |cloud.log|);
    LoopStarts(o, cloud.log);
    ok, groups, known, n := ResolveEach(cloud, wished, listed, o);
  }

  method ResolveEach(cloud: Cloud, wished: seq<GroupModel>, listed: seq<GroupModel>, ghost o: Origin)
    returns (ok: bool, groups: seq<GroupModel>, known: seq<GroupModel>, ghost n: nat)
    requires cloud.Valid() && o.from <= |cloud.log| && InLoop(o, 0, wished, listed, cloud.w, cloud.log, true)
    modifies cloud
    ensures !ok ==> cloud.faulty
    ensures ok ==> cloud.faulty == old(cloud.faulty)
    ensures cloud.Valid() && cloud.Extends() && (ok ==> n == |groups|)
    ensures InLoop(o, n, groups, known, cloud.w, cloud.log, ok)
  {
    groups, known, ok := wished, listed, true;
    for i := 0 to |wished|
      invariant |groups| == |wished| && cloud.Valid() && Since(old(cloud.log), cloud.log) && cloud.faulty == old(cloud.faulty)
      invariant InLoop(o, i, groups, known, cloud.w, cloud.log, true)
    {
      ghost var log1 := cloud.log;
      ok, groups, known := Iterate(cloud, i, groups, known, o);
      SinceTwice(old(cloud.log), log1, cloud.log);
      if !ok {
        n := i;
        return;
      }
    }
    ok, n := true, |wished|;
  }

  ghost predicate Since(before: seq<Event>, log: seq<Event>) {
    |before| <= |log| && log[..|before|] == before
  }

  lemma SinceTwice(a: seq<Event>, b: seq<Event>, c: seq<Event>)
    requires Since(a, b) && Since(b, c)
    ensures Since(a, c)
  {
    assert c[..|b|][..|a|] == c[..|a|];
  }

  lemma LoopStarts(o: Origin, log: seq<Event>)
    requires ListedGroups(o.listed, o.w) && o.from == |log|
    ensures InLoop(o, 0, o.wished, o.listed, o.w, log, true)
  {
  }

  /** Resolve or create every desired group and bring its servers in line.  The
      remote list grows inside the loop, so a later group of the same name finds
      the one just created. */
  method ApplyVGroups(cloud: Cloud, local: LbModel, remote: LbModel) returns (ok: bool)
    requires cloud.Valid() && local != remote
    requires ListedGroups(remote.groups, cloud.w)
    modifies cloud, local`groups, remote`groups
    ensures !ok ==> cloud.faulty
    ensures ok ==> cloud.faulty == old(cloud.faulty)
    ensures cloud.Valid() && cloud.Extends() && GroupsOnlyGrow(old(cloud.w), cloud.w)
    ensures exists n: nat :: Books(n, old(local.groups), old(remote.groups), local.groups, remote.groups, cloud.w)
                          && (ok ==> n == |local.groups|)
    ensures GroupEvents(cloud.log, |old(cloud.log)|, old(cloud.w))
    ensures old(FromEmpty(local.groups)) ==> CreatesOnce(cloud.log, |old(cloud.log)|, old(remote.groups))
    ensures ok && old(FromEmpty(local.groups)) ==> Resolved(local.groups, |local.groups|, remote.groups)
    ensures ok ==> IdsKept(|local.groups|, old(local.groups), old(remote.groups), local.groups)
    ensures ok ==> forall k :: 0 <= k < |local.groups| ==> NamedByWish(local.groups, |local.groups|, cloud.w, local.groups[k].id)
    ensures old(Tidy(local.groups, remote.groups, cloud.w)) ==>
              UniqueTagged(cloud.w) && NamesKept(old(cloud.w), cloud.w) && (ok ==> Register(cloud.w, remote.groups))
    ensures old(SupportedGroups(local.groups) && KnownServers(cloud.w)) ==> KnownServers(cloud.w)
    ensures ok && old(FromEmpty(local.groups) && Coherent(local.groups)) ==>
              ServersDone(local.groups, |local.groups|, remote.groups, cloud.w)
  {
    var ok', groups, known;
    ghost var n;
    ok', groups, known, n := ResolveGroups(cloud, local.groups, remote.groups);
    local.groups, remote.groups := groups, known;
    return ok';
  }

  /** What the bookkeeping says about a finished loop. */
  lemma BooksMean(n: nat, wished: seq<GroupModel>, listed: seq<GroupModel>,
                  groups: seq<GroupModel>, remote: seq<GroupModel>, w: World)
    requires Books(n, wished, listed, groups, remote, w)
    ensures SameWishes(groups, wished) && listed <= remote
    ensures forall r :: r in remote ==> r.id in w.groups
    ensures forall r :: r in remote && r !in listed ==> r.id in GroupIds(groups)
    ensures n == |groups| ==> Placed(groups, |groups|, w)
  {
    PrefixIds(groups, n);
  }

  /** Groups that share a name share one existing id. */
  lemma SharedName(groups: seq<GroupModel>, remote: seq<GroupModel>, w: World, j: nat, k: nat)
    requires j < |groups| && k < |groups| && groups[j].name == groups[k].name
    requires Resolved(groups, |groups|, remote) && Placed(groups, |groups|, w)
    ensures groups[j].id == groups[k].id && groups[j].id != NO_ID
    ensures groups[j].id in w.groups && groups[j].id in GroupIds(remote)
  {
    assert First(remote, groups[j].name) == Some(groups[j].id);
    assert First(remote, groups[k].name) == Some(groups[k].id);
    FirstNone(remote, groups[j].name);
  }

  lemma PrefixIds(groups: seq<GroupModel>, n: nat)
    requires n <= |groups|
    ensures GroupIds(groups[..n]) <= GroupIds(groups)
  {
    assert forall g :: g in groups[..n] ==> g in groups;
  }

  lemma LoopResolve(groups: seq<GroupModel>, n: nat, remote: seq<GroupModel>, g': GroupModel,
                    remote': seq<GroupModel>, old_: Option<GroupModel>, log0: seq<Event>, log: seq<Event>, from: nat)
    requires n < |groups| && Resolved(groups, n, remote)
    requires from <= |log0| <= |log| && log[..|log0|] == log0 && CreatedKnown(log0, from, remote)
    requires g'.name == groups[n].name
    requires First(remote, g'.name) == if old_.Some? then Some(g'.id) else None
    requires remote' == if old_.Some? then remote else remote + [g']
    requires forall i :: |log0| <= i < |log| && log[i].call.CreateGroup? ==> log[i].call.name == g'.name && old_.None?
    ensures Resolved(groups[n := g'], n + 1, remote')
    ensures CreatedKnown(log, from, remote')
  {
    if old_.None? {
      ResolvedGrows(groups, n, remote, g');
      FirstAppend(remote, g', g'.name);
      KnownStep(log0, log, from, remote, g');
    } else {
      assert forall i :: from <= i < |log0| ==> log[i] == log0[i];
    }
  }
}
