/** Reconciling the listeners of one load balancer: pairing each desired listener
    with its server group, deleting listeners that are not wanted, updating the
    ones that match and creating the rest. */
module ListenerApplier {
  import opened Common
  import opened NlbCloud
  import opened GroupApplier
  import Names

  // ------------------------------------------------------------- pairing with groups

  method FindServerGroup(groups: seq<GroupModel>, name: string) returns (id: Option<Id>)
    ensures id == First(groups, name)
  {
    for i := 0 to |groups|
      invariant forall j :: 0 <= j < i ==> groups[j].name != name
    {
      if groups[i].name == name {
        FirstIs(groups, i, name);
        return Some(groups[i].id);
      }
    }
    FirstNone(groups, name);
    return None;
  }

  /** The listener with its group filled in. */
  function Paired(l: ListenerModel, groups: seq<GroupModel>): ListenerModel {
    if l.group == NO_ID && First(groups, l.groupName).Some? then l.(group := First(groups, l.groupName).value) else l
  }

  /** Fails exactly when a listener without group names one that does not exist. */
  method AssociateGroups(listeners: seq<ListenerModel>, groups: seq<GroupModel>)
    returns (ok: bool, paired: seq<ListenerModel>)
    ensures |paired| == |listeners|
    ensures ok ==> forall i :: 0 <= i < |listeners| ==> paired[i] == Paired(listeners[i], groups)
    ensures ok <==> forall i :: 0 <= i < |listeners| ==>
                      listeners[i].group != NO_ID || First(groups, listeners[i].groupName).Some?
  {
    paired := listeners;
    for i := 0 to |listeners|
      invariant |paired| == |listeners|
      invariant forall k :: i <= k < |listeners| ==> paired[k] == listeners[k]
      invariant forall k :: 0 <= k < i ==> paired[k] == Paired(listeners[k], groups)
      invariant forall k :: 0 <= k < i ==> listeners[k].group != NO_ID || First(groups, listeners[k].groupName).Some?
    {
      if paired[i].group == NO_ID {
        var id := FindServerGroup(groups, paired[i].groupName);
        if id.None? {
          return false, paired;
        }
        paired := paired[i := paired[i].(group := id.value)];
      }
    }
    ok := true;
  }

  // --------------------------------------------------------------------- deletion

  predicate SamePort(a: ListenerModel, b: ListenerModel) {
    a.port == b.port && a.proto == b.proto
  }

  predicate Wanted(r: ListenerModel, local: seq<ListenerModel>) {
    exists i :: 0 <= i < |local| && SamePort(r, local[i])
  }

  /** The remote listeners that a run deletes: those that match no desired
      listener and, on a reused load balancer, carry this service's name. */
  function Doomed(me: Names.Owner, userManaged: bool, remote: seq<ListenerModel>, local: seq<ListenerModel>): set<Id> {
    set r | r in remote && !Wanted(r, local) && (userManaged ==> Names.ManagedListener(me, r.desc)) :: r.id
  }

  /** What a listing of the listeners of `lb` returns; a port and protocol occurs
      once per load balancer. */
  ghost predicate ListedListeners(remote: seq<ListenerModel>, w: World, lb: Id) {
    && (forall r :: r in remote ==>
          && r.id != NO_ID && r.id in w.listeners
          && Agrees(w.listeners[r.id], r, lb) && Shows(w.listeners[r.id], r))
    && (forall r, q :: r in remote && q in remote && (r.id == q.id || SamePort(r, q)) ==> r == q)
    && (forall i, j :: 0 <= i < j < |remote| ==> remote[i].id != remote[j].id)
    && (forall l :: l in w.listeners && w.listeners[l].lb == lb ==> exists r :: r in remote && r.id == l)
  }

  predicate Shows(c: Listener, r: ListenerModel) {
    c.group == r.group && c.desc == r.desc && c.running == r.running
  }

  predicate Agrees(c: Listener, r: ListenerModel, lb: Id) {
    c.lb == lb && c.port == r.port && c.proto == r.proto
  }

  /** A call of the listener phase: groups stay, and every listener either keeps
      its group or is moved to one in `targets`. */
  predicate ListenerEvent(e: Event, w0: World, targets: set<Id>) {
    && IsListenerCall(e.call)
    && Retargeted(w0, e.after, targets)
  }

  predicate Retargeted(w0: World, w: World, targets: set<Id>) {
    && w.lbs == w0.lbs && w.groups == w0.groups
    && forall l :: l in w.listeners ==>
         || w.listeners[l].group in targets
         || (l in w0.listeners && w.listeners[l].group == w0.listeners[l].group && w.listeners[l].lb == w0.listeners[l].lb)
  }

  lemma RetargetedIntegrity(w0: World, w: World, targets: set<Id>)
    requires Integrity(w0) && Retargeted(w0, w, targets) && targets <= w0.groups.Keys
    ensures Integrity(w)
  {
  }

  /** The inner loop: note the id of `r` in every desired listener it matches. */
  method NoteId(r: ListenerModel, local: seq<ListenerModel>) returns (found: bool, noted: seq<ListenerModel>)
    ensures found == Wanted(r, local)
    ensures |noted| == |local|
    ensures forall i :: 0 <= i < |local| ==>
              noted[i] == if SamePort(r, local[i]) then local[i].(id := r.id) else local[i]
  {
    found, noted := false, local;
    for i := 0 to |local|
      invariant |noted| == |local|
      invariant found == exists k :: 0 <= k < i && SamePort(r, local[k])
      invariant forall k :: 0 <= k < i ==> noted[k] == if SamePort(r, local[k]) then local[k].(id := r.id) else local[k]
      invariant forall k :: i <= k < |local| ==> noted[k] == local[k]
    {
      if SamePort(r, noted[i]) {
        found := true;
        noted := noted[i := noted[i].(id := r.id)];
      }
    }
  }

  /** `noted` is `local` with the ids of matching listeners among `remote`. */
  ghost predicate Noted(remote: seq<ListenerModel>, local: seq<ListenerModel>, noted: seq<ListenerModel>) {
    && |noted| == |local|
    && (forall i :: 0 <= i < |local| ==> noted[i] == local[i].(id := noted[i].id))
    && (forall i, r :: 0 <= i < |local| && r in remote && SamePort(r, local[i]) ==> noted[i].id == r.id)
    && (forall i :: 0 <= i < |local| && (forall r :: r in remote ==> !SamePort(r, local[i])) ==> noted[i].id == local[i].id)
  }

  lemma DoomedGrows(me: Names.Owner, userManaged: bool, remote: seq<ListenerModel>, local: seq<ListenerModel>, n: nat)
    requires n < |remote|
    ensures var r := remote[n];
            Doomed(me, userManaged, remote[..n + 1], local) ==
            Doomed(me, userManaged, remote[..n], local) +
            if !Wanted(r, local) && (userManaged ==> Names.ManagedListener(me, r.desc)) then {r.id} else {}
  {
    assert remote[..n + 1] == remote[..n] + [remote[n]];
  }

  lemma NotedGrows(remote: seq<ListenerModel>, n: nat, local: seq<ListenerModel>, noted: seq<ListenerModel>, next: seq<ListenerModel>)
    requires n < |remote| && Noted(remote[..n], local, noted) && |next| == |noted|
    requires forall r, q :: r in remote && q in remote && SamePort(r, q) ==> r == q
    requires forall i :: 0 <= i < |noted| ==>
               next[i] == if SamePort(remote[n], noted[i]) then noted[i].(id := remote[n].id) else noted[i]
    ensures Noted(remote[..n + 1], local, next)
  {
    assert remote[..n + 1] == remote[..n] + [remote[n]];
    assert forall r :: r in remote[..n] ==> r in remote;
    forall i, r | 0 <= i < |local| && r in remote[..n + 1] && SamePort(r, local[i])
      ensures next[i].id == r.id
    {
      if SamePort(remote[n], noted[i]) {
        assert SamePort(r, remote[n]) && r in remote;
      } else {
        assert r in remote[..n];
      }
    }
    forall i | 0 <= i < |local| && (forall r :: r in remote[..n + 1] ==> !SamePort(r, local[i]))
      ensures next[i].id == local[i].id
    {
      assert remote[n] in remote[..n + 1];
      forall r | r in remote[..n] ensures !SamePort(r, local[i]) {
        assert r in remote[..n + 1];
      }
    }
  }

  /** A call of the deletion loop. */
  predicate DeleteEvent(e: Event, w0: World, doomed: set<Id>) {
    ListenerEvent(e, w0, {}) && e.call.DeleteListener? && e.call.id in doomed
  }

  /** The world without some listeners. */
  function WithoutListeners(w: World, ids: set<Id>): World {
    w.(listeners := w.listeners - ids)
  }

  lemma WithoutTwice(w: World, a: set<Id>, id: Id)
    ensures WithoutListeners(WithoutListeners(w, a), {id}) == WithoutListeners(w, a + {id})
    ensures Retargeted(w, WithoutListeners(w, a), {})
    ensures WithoutListeners(w, {}) == w
  {
    assert w.listeners - a - {id} == w.listeners - (a + {id});
    assert w.listeners - {} == w.listeners;
  }

  predicate Fewer(w0: World, w: World) {
    forall l :: l in w.listeners ==> l in w0.listeners && w.listeners[l] == w0.listeners[l]
  }

  /** The deletion of one unwanted listener. */
  method DeleteOne(cloud: Cloud, r: ListenerModel, ghost w0: World, ghost gone: set<Id>, ghost doomed: set<Id>)
    returns (ok: bool)
    requires cloud.Valid() && cloud.w == WithoutListeners(w0, gone) && r.id in doomed
    modifies cloud
    ensures !ok ==> cloud.faulty
    ensures ok ==> cloud.faulty == old(cloud.faulty)
    ensures cloud.Valid() && cloud.Extends() && Retargeted(w0, cloud.w, {}) && Fewer(w0, cloud.w)
    ensures ok ==> cloud.w == WithoutListeners(w0, gone + {r.id})
    ensures forall i :: |old(cloud.log)| <= i < |cloud.log| ==> DeleteEvent(cloud.log[i], w0, doomed)
  {
    WithoutTwice(w0, gone, r.id);
    WithoutTwice(w0, gone + {r.id}, r.id);
    ok := cloud.DeleteListener(r.id);
  }

  /** Delete what is not wanted, noting the ids of what is. */
  method DeleteListeners(cloud: Cloud, me: Names.Owner, userManaged: bool, remote: seq<ListenerModel>, local: seq<ListenerModel>)
    returns (ok: bool, noted: seq<ListenerModel>)
    requires cloud.Valid()
    requires forall r, q :: r in remote && q in remote && SamePort(r, q) ==> r == q
    modifies cloud
    ensures !ok ==> cloud.faulty
    ensures ok ==> cloud.faulty == old(cloud.faulty)
    ensures cloud.Valid() && cloud.Extends()
    ensures ok ==> Noted(remote, local, noted)
    ensures ok ==> cloud.w == WithoutListeners(old(cloud.w), Doomed(me, userManaged, remote, local))
    ensures Retargeted(old(cloud.w), cloud.w, {}) && Fewer(old(cloud.w), cloud.w)
    ensures forall i :: |old(cloud.log)| <= i < |cloud.log| ==>
              DeleteEvent(cloud.log[i], old(cloud.w), Doomed(me, userManaged, remote, local))
  {
    ghost var w0, doomed := cloud.w, Doomed(me, userManaged, remote, local);
    noted := local;
    WithoutTwice(w0, {}, NO_ID);
    for n := 0 to |remote|
      invariant cloud.Valid() && cloud.Extends() && cloud.faulty == old(cloud.faulty)
      invariant Noted(remote[..n], local, noted)
      invariant cloud.w == WithoutListeners(w0, Doomed(me, userManaged, remote[..n], local))
      invariant forall i :: |old(cloud.log)| <= i < |cloud.log| ==> DeleteEvent(cloud.log[i], w0, doomed)
    {
      ghost var before, log1 := noted, cloud.log;
      var found;
      found, noted := NoteId(remote[n], noted);
      NotedGrows(remote, n, local, before, noted);
      DoomedGrows(me, userManaged, remote, local, n);
      WantedNoted(remote[n], local, before);
      if !found && (userManaged ==> Names.ManagedListener(me, remote[n].desc)) {
        assert remote[n] in remote && remote[n].id in doomed;
        ok := DeleteOne(cloud, remote[n], w0, Doomed(me, userManaged, remote[..n], local), doomed);
        assert forall i :: |old(cloud.log)| <= i < |log1| ==> cloud.log[i] == log1[i];
        if !ok { return; }
      }
    }
    assert remote[..|remote|] == remote;
    WithoutTwice(w0, doomed, NO_ID);
    ok := true;
  }

  lemma WantedNoted(r: ListenerModel, local: seq<ListenerModel>, noted: seq<ListenerModel>)
    requires |noted| == |local| && forall i :: 0 <= i < |local| ==> noted[i] == local[i].(id := noted[i].id)
    ensures Wanted(r, noted) <==> Wanted(r, local)
  {
    if Wanted(r, noted) {
      var i :| 0 <= i < |noted| && SamePort(r, noted[i]);
      assert SamePort(r, local[i]);
    }
    if Wanted(r, local) {
      var i :| 0 <= i < |local| && SamePort(r, local[i]);
      assert SamePort(r, noted[i]);
    }
  }

  // ---------------------------------------------------------------- update and create

  /** The cloud listener is the desired one. */
  predicate Fits(c: Listener, l: ListenerModel, lb: Id) {
    c == Listener(lb, l.port, l.proto, l.group, l.desc, true)
  }

  predicate SameSlot(a: Listener, b: Listener) {
    a.lb == b.lb && a.port == b.port && a.proto == b.proto
  }

  /** A port and protocol occurs once per load balancer. */
  predicate UniquePorts(w: World) {
    forall a, b :: a in w.listeners && b in w.listeners && SameSlot(w.listeners[a], w.listeners[b]) ==> a == b
  }

  /** Only listeners of `lb` have changed or are new. */
  ghost predicate Tenants(w0: World, w: World, lb: Id) {
    forall x :: x in w.listeners && w.listeners[x].lb != lb ==> x in w0.listeners && w.listeners[x] == w0.listeners[x]
  }

  ghost predicate SlotFree(w: World, lb: Id, l: ListenerModel) {
    forall x :: x in w.listeners ==> !Agrees(w.listeners[x], l, lb)
  }

  /** What a successful update does to a listener, given its listing `r`. */
  predicate Changed(c0: Listener, c: Listener, l: ListenerModel, r: ListenerModel) {
    && SameSlot(c, c0)
    && ((c.group == l.group && c.desc == l.desc) ||
        (c.group == c0.group && c.desc == c0.desc && r.group == l.group && r.desc == l.desc))
    && (c.running || (c.running == c0.running && r.running))
  }

  /** `UpdateNLBListener`: start a stopped listener, then one update call if
      anything differs.  Other attributes are not tracked here. */
  method UpdateNLBListener(cloud: Cloud, l: ListenerModel, r: ListenerModel) returns (ok: bool)
    requires cloud.Valid() && r.id in cloud.w.listeners
    modifies cloud
    ensures !ok ==> cloud.faulty
    ensures ok ==> cloud.faulty == old(cloud.faulty)
    ensures cloud.Valid() && cloud.Extends() && Retargeted(old(cloud.w), cloud.w, {l.group})
    ensures cloud.w.listeners.Keys == old(cloud.w.listeners.Keys)
    ensures forall x :: x in cloud.w.listeners && x != r.id ==> cloud.w.listeners[x] == old(cloud.w.listeners)[x]
    ensures SameSlot(cloud.w.listeners[r.id], old(cloud.w.listeners)[r.id])
    ensures ok ==> Changed(old(cloud.w.listeners)[r.id], cloud.w.listeners[r.id], l, r)
    ensures forall i :: |old(cloud.log)| <= i < |cloud.log| ==>
              && ListenerEvent(cloud.log[i], old(cloud.w), {l.group})
              && !cloud.log[i].call.DeleteListener?
  {
    if !r.running {
      ok := cloud.StartListener(r.id);
      if !ok { return; }
    }
    var otherAttributes: bool := *;
    if r.desc != l.desc || r.group != l.group || otherAttributes {
      ok := cloud.UpdateListener(r.id, l.group, l.desc);
      return;
    }
    ok := true;
  }

  /** The change one desired listener makes: at `at`, which is its own id when a
      remote listener carries that id, and a new id otherwise. */
  predicate Upserted(w0: World, w: World, lb: Id, l: ListenerModel, remote: seq<ListenerModel>, at: Id) {
    && w.lbs == w0.lbs && w.groups == w0.groups && at in w.listeners
    && w.listeners.Keys == w0.listeners.Keys + {at}
    && (forall x :: x in w0.listeners && x != at ==> w.listeners[x] == w0.listeners[x])
    && if exists r :: r in remote && r.id == l.id then
         && at == l.id && at in w0.listeners
         && exists r :: r in remote && r.id == l.id && Changed(w0.listeners[at], w.listeners[at], l, r)
       else
         at !in w0.listeners && Fits(w.listeners[at], l, lb)
  }

  /** One iteration of the last loop. */
  method UpsertListener(cloud: Cloud, lb: Id, l: ListenerModel, remote: seq<ListenerModel>)
    returns (ok: bool, ghost at: Id)
    requires cloud.Valid() && forall r :: r in remote && r.id == l.id ==> r.id in cloud.w.listeners
    requires forall i, j :: 0 <= i < j < |remote| ==> remote[i].id != remote[j].id
    requires forall r :: r in remote && r.id == l.id ==> cloud.w.listeners[r.id].lb == lb
    modifies cloud
    ensures !ok ==> cloud.faulty
    ensures ok ==> cloud.faulty == old(cloud.faulty)
    ensures cloud.Valid() && cloud.Extends() && Retargeted(old(cloud.w), cloud.w, {l.group})
    ensures ok ==> Upserted(old(cloud.w), cloud.w, lb, l, remote, at)
    ensures Tenants(old(cloud.w), cloud.w, lb)
    ensures old(UniquePorts(cloud.w)) && (Carries(remote, l.id) || SlotFree(old(cloud.w), lb, l)) ==>
              UniquePorts(cloud.w)
    ensures forall i :: |old(cloud.log)| <= i < |cloud.log| ==>
              && ListenerEvent(cloud.log[i], old(cloud.w), {l.group})
              && !cloud.log[i].call.DeleteListener?
  {
    var j := 0;
    while j < |remote| && remote[j].id != l.id
      invariant j <= |remote| && forall k :: 0 <= k < j ==> remote[k].id != l.id
    {
      j := j + 1;
    }
    if j < |remote| {
      at := l.id;
      assert remote[j] in remote;
      ok := UpdateNLBListener(cloud, l, remote[j]);
    } else {
      ok, at := cloud.CreateListener(Listener(lb, l.port, l.proto, l.group, l.desc, true));
    }
  }

  function Targets(local: seq<ListenerModel>): (r: set<Id>)
    ensures forall l :: l in local ==> l.group in r
  {
    set l | l in local :: l.group
  }

  ghost predicate DistinctPorts(local: seq<ListenerModel>) {
    forall j, k :: 0 <= j < k < |local| ==> !SamePort(local[j], local[k])
  }

  /** Some desired listener before `n` carries the id `x`. */
  predicate Reached(local: seq<ListenerModel>, n: nat, x: Id)
    requires n <= |local|
  {
    exists k :: 0 <= k < n && local[k].id == x
  }

  /** After `n` desired listeners, starting from world `w1`: listeners not reached
      are as they were, reached and new ones target a desired group. */
  ghost predicate Progress(n: nat, w1: World, w: World, local: seq<ListenerModel>) {
    && n <= |local|
    && w.lbs == w1.lbs && w.groups == w1.groups && w1.listeners.Keys <= w.listeners.Keys
    && (forall x :: x in w1.listeners && !Reached(local, n, x) ==> w.listeners[x] == w1.listeners[x])
    && (forall x :: x in w1.listeners ==> SameSlot(w.listeners[x], w1.listeners[x]))
    && (forall x :: x in w.listeners && (x !in w1.listeners || Reached(local, n, x)) ==>
          w.listeners[x].group in Targets(local))
  }

  ghost predicate Realised(w: World, lb: Id, l: ListenerModel) {
    exists x :: x in w.listeners && Fits(w.listeners[x], l, lb)
  }

  ghost predicate Explained(x: Id, w: World, lb: Id, local: seq<ListenerModel>, n: nat)
    requires x in w.listeners && n <= |local|
  {
    exists k :: 0 <= k < n && Fits(w.listeners[x], local[k], lb)
  }

  /** The first `n` desired listeners are realised, and every reached or new
      listener is one of them. */
  ghost predicate Exact(n: nat, w1: World, w: World, lb: Id, local: seq<ListenerModel>) {
    && n <= |local|
    && (forall k :: 0 <= k < n ==> Realised(w, lb, local[k]))
    && (forall x :: x in w.listeners && (x !in w1.listeners || Reached(local, n, x)) ==> Explained(x, w, lb, local, n))
  }

  /** Ids in `local` that exist are those of remote listeners of the same port, and
      every listener on such a port is among them. */
  ghost predicate Linked(w1: World, lb: Id, local: seq<ListenerModel>, remote: seq<ListenerModel>) {
    && (forall r, k :: r in remote && 0 <= k < |local| && r.id == local[k].id ==> LinkedTo(w1, lb, local[k], r))
    && (forall k :: 0 <= k < |local| && local[k].id in w1.listeners ==> Carries(remote, local[k].id))
    && (forall i, j :: 0 <= i < j < |remote| ==> remote[i].id != remote[j].id)
    && (forall x, k :: x in w1.listeners && 0 <= k < |local| && Agrees(w1.listeners[x], local[k], lb) ==> Carries(remote, local[k].id))
  }

  ghost predicate Carries(remote: seq<ListenerModel>, id: Id) {
    exists r :: r in remote && r.id == id
  }

  predicate LinkedTo(w1: World, lb: Id, l: ListenerModel, r: ListenerModel) {
    r.id in w1.listeners && Agrees(w1.listeners[r.id], l, lb) && Shows(w1.listeners[r.id], r)
  }

  lemma ReachedNext(local: seq<ListenerModel>, n: nat, x: Id)
    requires n < |local|
    ensures Reached(local, n + 1, x) <==> Reached(local, n, x) || local[n].id == x
  {
  }

  /** The listener a step touches targets a desired group afterwards. */
  lemma TouchedOnTarget(n: nat, w1: World, w: World, w': World, lb: Id, local: seq<ListenerModel>,
                        remote: seq<ListenerModel>, at: Id)
    requires n < |local| && Progress(n, w1, w, local) && Linked(w1, lb, local, remote)
    requires Upserted(w, w', lb, local[n], remote, at)
    ensures w'.listeners[at].group in Targets(local)
    ensures at in w1.listeners ==> at == local[n].id
    ensures at in w1.listeners && !Reached(local, n, at) ==> Fits(w'.listeners[at], local[n], lb)
    ensures at !in w.listeners ==> Fits(w'.listeners[at], local[n], lb)
    ensures at in w.listeners ==> at in w1.listeners
    ensures local[n].id in w1.listeners ==> at == local[n].id
  {
    assert local[n] in local;
    if exists r :: r in remote && r.id == local[n].id {
      var r :| r in remote && r.id == local[n].id;
      assert LinkedTo(w1, lb, local[n], r);
    }
  }

  lemma ProgressStep(n: nat, w1: World, w: World, w': World, lb: Id, local: seq<ListenerModel>,
                     remote: seq<ListenerModel>, at: Id)
    requires n < |local| && Progress(n, w1, w, local) && Linked(w1, lb, local, remote)
    requires Upserted(w, w', lb, local[n], remote, at)
    ensures Progress(n + 1, w1, w', local)
  {
    TouchedOnTarget(n, w1, w, w', lb, local, remote, at);
    forall x ensures Reached(local, n + 1, x) <==> Reached(local, n, x) || local[n].id == x {
      ReachedNext(local, n, x);
    }
  }

  lemma NotReachedYet(n: nat, w1: World, lb: Id, local: seq<ListenerModel>, remote: seq<ListenerModel>)
    requires n < |local| && Linked(w1, lb, local, remote) && DistinctPorts(local)
    ensures local[n].id in w1.listeners ==> !Reached(local, n, local[n].id)
  {
    if local[n].id in w1.listeners {
      var r :| r in remote && r.id == local[n].id;
      assert LinkedTo(w1, lb, local[n], r);
      forall k | 0 <= k < n ensures local[k].id != local[n].id {
        assert !SamePort(local[k], local[n]);
      }
    }
  }

  lemma ExactStep(n: nat, w1: World, w: World, w': World, lb: Id, local: seq<ListenerModel>,
                  remote: seq<ListenerModel>, at: Id)
    requires n < |local| && Progress(n, w1, w, local) && Linked(w1, lb, local, remote)
    requires Exact(n, w1, w, lb, local) && DistinctPorts(local)
    requires Upserted(w, w', lb, local[n], remote, at)
    ensures Exact(n + 1, w1, w', lb, local)
  {
    TouchedOnTarget(n, w1, w, w', lb, local, remote, at);
    NotReachedYet(n, w1, lb, local, remote);
    assert Fits(w'.listeners[at], local[n], lb);
    forall k | 0 <= k < n + 1 ensures Realised(w', lb, local[k]) {
      if k < n {
        StillRealised(n, k, w1, w, w', lb, local, remote, at);
      }
    }
    forall x | x in w'.listeners && (x !in w1.listeners || Reached(local, n + 1, x))
      ensures Explained(x, w', lb, local, n + 1)
    {
      ReachedNext(local, n, x);
      if x != at {
        assert Explained(x, w, lb, local, n);
      }
    }
  }

  lemma StillRealised(n: nat, k: nat, w1: World, w: World, w': World, lb: Id, local: seq<ListenerModel>,
                      remote: seq<ListenerModel>, at: Id)
    requires k < n < |local| && Progress(n, w1, w, local) && Linked(w1, lb, local, remote)
    requires DistinctPorts(local) && Realised(w, lb, local[k])
    requires Upserted(w, w', lb, local[n], remote, at)
    ensures Realised(w', lb, local[k])
  {
    TouchedOnTarget(n, w1, w, w', lb, local, remote, at);
    NotReachedYet(n, w1, lb, local, remote);
    var x :| x in w.listeners && Fits(w.listeners[x], local[k], lb);
    assert !SamePort(local[k], local[n]);
    assert Agrees(w.listeners[x], local[k], lb) && !Agrees(w.listeners[x], local[n], lb);
    assert x in w'.listeners && Fits(w'.listeners[x], local[k], lb);
  }

  /** A listener that is created finds its port free. */
  lemma PortIsFree(n: nat, w1: World, w: World, lb: Id, local: seq<ListenerModel>, remote: seq<ListenerModel>)
    requires n < |local| && Progress(n, w1, w, local) && Exact(n, w1, w, lb, local) && Linked(w1, lb, local, remote)
    requires DistinctPorts(local) && !Carries(remote, local[n].id)
    ensures SlotFree(w, lb, local[n])
  {
    forall x | x in w.listeners ensures !Agrees(w.listeners[x], local[n], lb) {
      if x !in w1.listeners || Reached(local, n, x) {
        assert Explained(x, w, lb, local, n);
        var k :| 0 <= k < n && Fits(w.listeners[x], local[k], lb);
        assert !SamePort(local[k], local[n]);
      } else {
        assert w.listeners[x] == w1.listeners[x];
      }
    }
  }

  /** Where listeners are, wherever the phase stops. */
  ghost predicate Tenancy(w1: World, w: World, lb: Id, local: seq<ListenerModel>) {
    Tenants(w1, w, lb) && (DistinctPorts(local) && UniquePorts(w1) ==> UniquePorts(w))
  }

  lemma FewerTenancy(w0: World, w: World, lb: Id)
    requires Fewer(w0, w)
    ensures Tenants(w0, w, lb) && (UniquePorts(w0) ==> UniquePorts(w))
  {
  }

  lemma TenantsTrans(w0: World, w1: World, w2: World, lb: Id)
    requires Tenants(w0, w1, lb) && Tenants(w1, w2, lb)
    ensures Tenants(w0, w2, lb)
  {
  }

  lemma RetargetedWiden(w1: World, w: World, w': World, targets: set<Id>, g: Id)
    requires Retargeted(w1, w, targets) && Retargeted(w, w', {g}) && g in targets
    ensures Retargeted(w1, w', targets)
  {
  }

  /** A call of the last loop. */
  predicate UpsertEvent(e: Event, w1: World, targets: set<Id>) {
    ListenerEvent(e, w1, targets) && !e.call.DeleteListener?
  }

  ghost predicate UpsertEvents(log: seq<Event>, from: nat, w1: World, targets: set<Id>) {
    forall i :: from <= i < |log| ==> UpsertEvent(log[i], w1, targets)
  }

  /** The state of the last loop after `n` iterations. */
  ghost predicate LoopState(n: nat, w1: World, w: World, lb: Id, local: seq<ListenerModel>) {
    && Retargeted(w1, w, Targets(local)) && Progress(n, w1, w, local) && Tenancy(w1, w, lb, local)
    && (DistinctPorts(local) ==> Exact(n, w1, w, lb, local))
  }

  method UpsertNext(cloud: Cloud, lb: Id, local: seq<ListenerModel>, remote: seq<ListenerModel>, n: nat, ghost w1: World)
    returns (ok: bool)
    requires cloud.Valid() && n < |local| && Linked(w1, lb, local, remote)
    requires LoopState(n, w1, cloud.w, lb, local)
    modifies cloud
    ensures !ok ==> cloud.faulty
    ensures ok ==> cloud.faulty == old(cloud.faulty)
    ensures cloud.Valid() && cloud.Extends() && Retargeted(w1, cloud.w, Targets(local)) && Tenancy(w1, cloud.w, lb, local)
    ensures ok ==> LoopState(n + 1, w1, cloud.w, lb, local)
    ensures UpsertEvents(cloud.log, |old(cloud.log)|, w1, Targets(local))
  {
    ghost var w := cloud.w;
    ghost var at;
    assert local[n] in local;
    assert forall r :: r in remote && r.id == local[n].id ==> LinkedTo(w1, lb, local[n], r);
    if DistinctPorts(local) && !Carries(remote, local[n].id) { PortIsFree(n, w1, w, lb, local, remote); }
    ok, at := UpsertListener(cloud, lb, local[n], remote);
    TenantsTrans(w1, w, cloud.w, lb);
    RetargetedWiden(w1, w, cloud.w, Targets(local), local[n].group);
    WidenEvents(cloud.log, |old(cloud.log)|, w1, w, Targets(local), local[n].group);
    if ok { NextState(n, w1, w, cloud.w, lb, local, remote, at); }
  }

  lemma WidenEvents(log: seq<Event>, from: nat, w1: World, w: World, targets: set<Id>, g: Id)
    requires Retargeted(w1, w, targets) && g in targets
    requires forall i :: from <= i < |log| ==> ListenerEvent(log[i], w, {g}) && !log[i].call.DeleteListener?
    ensures UpsertEvents(log, from, w1, targets)
  {
    forall i | from <= i < |log| ensures UpsertEvent(log[i], w1, targets) {
      RetargetedWiden(w1, w, log[i].after, targets, g);
    }
  }

  lemma NextState(n: nat, w1: World, w: World, w': World, lb: Id, local: seq<ListenerModel>, remote: seq<ListenerModel>, at: Id)
    requires n < |local| && LoopState(n, w1, w, lb, local) && Linked(w1, lb, local, remote)
    requires Upserted(w, w', lb, local[n], remote, at)
    requires Retargeted(w1, w', Targets(local)) && Tenancy(w1, w', lb, local)
    ensures LoopState(n + 1, w1, w', lb, local)
  {
    ProgressStep(n, w1, w, w', lb, local, remote, at);
    if DistinctPorts(local) {
      ExactStep(n, w1, w, w', lb, local, remote, at);
    }
  }

  /** Update or create every desired listener. */
  method UpsertListeners(cloud: Cloud, lb: Id, local: seq<ListenerModel>, remote: seq<ListenerModel>) returns (ok: bool)
    requires cloud.Valid() && Linked(cloud.w, lb, local, remote)
    modifies cloud
    ensures !ok ==> cloud.faulty
    ensures ok ==> cloud.faulty == old(cloud.faulty)
    ensures cloud.Valid() && cloud.Extends() && Retargeted(old(cloud.w), cloud.w, Targets(local))
    ensures Tenancy(old(cloud.w), cloud.w, lb, local)
    ensures ok ==> LoopState(|local|, old(cloud.w), cloud.w, lb, local)
    ensures UpsertEvents(cloud.log, |old(cloud.log)|, old(cloud.w), Targets(local))
  {
    ghost var w1 := cloud.w;
    for n := 0 to |local|
      invariant cloud.Valid() && cloud.Extends() && cloud.faulty == old(cloud.faulty) && LoopState(n, w1, cloud.w, lb, local)
      invariant UpsertEvents(cloud.log, |old(cloud.log)|, w1, Targets(local))
    {
      ghost var log1 := cloud.log;
      ok := UpsertNext(cloud, lb, local, remote, n, w1);
      assert forall i :: |old(cloud.log)| <= i < |log1| ==> cloud.log[i] == log1[i];
      if !ok { return; }
    }
    ok := true;
  }

  // ------------------------------------------------------------------ the whole phase

  lemma RetargetedTrans(w0: World, w1: World, w2: World, targets: set<Id>)
    requires Retargeted(w0, w1, {}) && Retargeted(w1, w2, targets)
    ensures Retargeted(w0, w2, targets)
  {
  }

  /** Desired listeners as the model builder leaves them. */
  ghost predicate FreshListeners(local: seq<ListenerModel>) {
    forall i :: 0 <= i < |local| ==> local[i].id == NO_ID && local[i].group == NO_ID
  }

  lemma NotDoomed(me: Names.Owner, userManaged: bool, remote: seq<ListenerModel>, local: seq<ListenerModel>, r: ListenerModel)
    requires r in remote && Wanted(r, local)
    requires forall r, q :: r in remote && q in remote && r.id == q.id ==> r == q
    ensures r.id !in Doomed(me, userManaged, remote, local)
  {
  }

  lemma NotedMatch(remote: seq<ListenerModel>, local: seq<ListenerModel>, noted: seq<ListenerModel>, k: nat)
    requires Noted(remote, local, noted) && k < |noted| && local[k].id == NO_ID && noted[k].id != NO_ID
    ensures exists q :: q in remote && SamePort(q, local[k]) && q.id == noted[k].id
  {
    if forall r :: r in remote ==> !SamePort(r, local[k]) {
      assert false;
    }
    var q :| q in remote && SamePort(q, local[k]);
  }

  lemma NotedLinkedTo(me: Names.Owner, userManaged: bool, w0: World, w1: World, lb: Id, remote: seq<ListenerModel>,
                      local: seq<ListenerModel>, noted: seq<ListenerModel>, k: nat, r: ListenerModel)
    requires forall r, q :: r in remote && q in remote && r.id == q.id ==> r == q
    requires Noted(remote, local, noted) && r.id != NO_ID && r.id in w0.listeners
    requires Agrees(w0.listeners[r.id], r, lb) && Shows(w0.listeners[r.id], r)
    requires k < |noted| && local[k].id == NO_ID && r in remote && r.id == noted[k].id
    requires w1 == WithoutListeners(w0, Doomed(me, userManaged, remote, local))
    ensures LinkedTo(w1, lb, noted[k], r)
  {
    NotedMatch(remote, local, noted, k);
    var q :| q in remote && SamePort(q, local[k]) && q.id == noted[k].id;
    assert q == r;
    assert SamePort(r, local[k]) && Wanted(r, local);
    NotDoomed(me, userManaged, remote, local, r);
  }

  lemma NotedListed(w1: World, remote: seq<ListenerModel>, local: seq<ListenerModel>, noted: seq<ListenerModel>)
    requires Noted(remote, local, noted) && NO_ID !in w1.listeners && forall i :: 0 <= i < |local| ==> local[i].id == NO_ID
    ensures forall k :: 0 <= k < |noted| && noted[k].id in w1.listeners ==> Carries(remote, noted[k].id)
  {
    forall k | 0 <= k < |noted| && noted[k].id in w1.listeners ensures Carries(remote, noted[k].id) {
      NotedMatch(remote, local, noted, k);
    }
  }

  lemma NotedSlots(w0: World, w1: World, lb: Id, remote: seq<ListenerModel>, local: seq<ListenerModel>, noted: seq<ListenerModel>)
    requires ListedListeners(remote, w0, lb) && Noted(remote, local, noted) && Fewer(w0, w1)
    ensures forall x, k :: x in w1.listeners && 0 <= k < |noted| && Agrees(w1.listeners[x], noted[k], lb) ==> Carries(remote, noted[k].id)
  {
    forall x, k | x in w1.listeners && 0 <= k < |noted| && Agrees(w1.listeners[x], noted[k], lb) ensures Carries(remote, noted[k].id) {
      var r :| r in remote && r.id == x;
      assert SamePort(r, local[k]);
    }
  }

  lemma NotedLinked(me: Names.Owner, userManaged: bool, w0: World, w1: World, lb: Id,
                    remote: seq<ListenerModel>, local: seq<ListenerModel>, noted: seq<ListenerModel>)
    requires ListedListeners(remote, w0, lb) && Noted(remote, local, noted) && NO_ID !in w0.listeners
    requires forall i :: 0 <= i < |local| ==> local[i].id == NO_ID
    requires w1 == WithoutListeners(w0, Doomed(me, userManaged, remote, local))
    ensures Linked(w1, lb, noted, remote)
  {
    forall r, k | r in remote && 0 <= k < |noted| && r.id == noted[k].id ensures LinkedTo(w1, lb, noted[k], r) {
      NotedLinkedTo(me, userManaged, w0, w1, lb, remote, local, noted, k, r);
    }
    NotedListed(w1, remote, local, noted);
    NotedSlots(w0, w1, lb, remote, local, noted);
  }

  /** Listeners of the load balancer that a successful run leaves alone: on a
      reused one, those that match nothing and do not carry this service's name. */
  predicate LeftAlone(me: Names.Owner, userManaged: bool, c: Listener, local: seq<ListenerModel>) {
    && userManaged && !Names.ManagedListener(me, c.desc)
    && forall i :: 0 <= i < |local| ==> !(c.port == local[i].port && c.proto == local[i].proto)
  }

  /** Every listener of `lb` is left alone or targets one of `targets`. */
  ghost predicate OnTarget(me: Names.Owner, userManaged: bool, w0: World, w: World, lb: Id,
                           local: seq<ListenerModel>, targets: set<Id>) {
    forall l :: l in w.listeners && w.listeners[l].lb == lb ==>
      || w.listeners[l].group in targets
      || (l in w0.listeners && w.listeners[l] == w0.listeners[l] && LeftAlone(me, userManaged, w0.listeners[l], local))
  }

  /** Listeners elsewhere and those to be left alone do not change. */
  ghost predicate Stays(me: Names.Owner, userManaged: bool, w0: World, w: World, lb: Id, local: seq<ListenerModel>) {
    forall l :: l in w0.listeners && (w0.listeners[l].lb != lb || LeftAlone(me, userManaged, w0.listeners[l], local)) ==>
      l in w.listeners && w.listeners[l] == w0.listeners[l]
  }

  lemma StaysAt(me: Names.Owner, userManaged: bool, w0: World, w1: World, w: World, lb: Id,
                remote: seq<ListenerModel>, local: seq<ListenerModel>, noted: seq<ListenerModel>, l: Id)
    requires ListedListeners(remote, w0, lb) && Noted(remote, local, noted) && NO_ID !in w0.listeners
    requires forall i :: 0 <= i < |local| ==> local[i].id == NO_ID
    requires w1 == WithoutListeners(w0, Doomed(me, userManaged, remote, local)) && Progress(|noted|, w1, w, noted)
    requires l in w0.listeners && (w0.listeners[l].lb != lb || LeftAlone(me, userManaged, w0.listeners[l], local))
    ensures l in w.listeners && w.listeners[l] == w0.listeners[l]
  {
    assert l !in Doomed(me, userManaged, remote, local);
    forall k | 0 <= k < |noted| ensures noted[k].id != l {
      if noted[k].id == l {
        NotedMatch(remote, local, noted, k);
      }
    }
    assert !Reached(noted, |noted|, l);
  }

  lemma FinallyStays(me: Names.Owner, userManaged: bool, w0: World, w1: World, w: World, lb: Id,
                     remote: seq<ListenerModel>, local: seq<ListenerModel>, noted: seq<ListenerModel>)
    requires ListedListeners(remote, w0, lb) && Noted(remote, local, noted) && NO_ID !in w0.listeners
    requires forall i :: 0 <= i < |local| ==> local[i].id == NO_ID
    requires w1 == WithoutListeners(w0, Doomed(me, userManaged, remote, local)) && Progress(|noted|, w1, w, noted)
    ensures Stays(me, userManaged, w0, w, lb, local)
  {
    forall l | l in w0.listeners && (w0.listeners[l].lb != lb || LeftAlone(me, userManaged, w0.listeners[l], local))
      ensures l in w.listeners && w.listeners[l] == w0.listeners[l]
    {
      StaysAt(me, userManaged, w0, w1, w, lb, remote, local, noted, l);
    }
  }

  lemma StaysWishes(me: Names.Owner, userManaged: bool, w0: World, w: World, lb: Id, a: seq<ListenerModel>, b: seq<ListenerModel>)
    requires |a| == |b| && forall i :: 0 <= i < |a| ==> SamePort(a[i], b[i])
    requires Stays(me, userManaged, w0, w, lb, a)
    ensures Stays(me, userManaged, w0, w, lb, b)
  {
    forall l | l in w0.listeners ensures LeftAlone(me, userManaged, w0.listeners[l], b) ==> LeftAlone(me, userManaged, w0.listeners[l], a) {
      LeftAloneSame(me, userManaged, w0.listeners[l], b, a);
    }
  }

  /** A listener of `lb` that the phase neither reached nor created. */
  lemma NotReached(me: Names.Owner, userManaged: bool, w0: World, w1: World, w: World, lb: Id,
                   remote: seq<ListenerModel>, local: seq<ListenerModel>, noted: seq<ListenerModel>, l: Id)
    requires ListedListeners(remote, w0, lb) && Noted(remote, local, noted)
    requires w1 == WithoutListeners(w0, Doomed(me, userManaged, remote, local))
    requires Progress(|noted|, w1, w, noted)
    requires l in w.listeners && w.listeners[l].lb == lb && l in w1.listeners && !Reached(noted, |noted|, l)
    ensures l in w0.listeners && w.listeners[l] == w0.listeners[l] && LeftAlone(me, userManaged, w0.listeners[l], local)
  {
    var r :| r in remote && r.id == l;
    forall i | 0 <= i < |local| ensures !SamePort(r, local[i]) {
      assert noted[i].id != l;
    }
  }

  lemma FinallyOnTarget(me: Names.Owner, userManaged: bool, w0: World, w1: World, w: World, lb: Id,
                        remote: seq<ListenerModel>, local: seq<ListenerModel>, noted: seq<ListenerModel>)
    requires ListedListeners(remote, w0, lb) && Noted(remote, local, noted)
    requires w1 == WithoutListeners(w0, Doomed(me, userManaged, remote, local))
    requires Progress(|noted|, w1, w, noted)
    ensures OnTarget(me, userManaged, w0, w, lb, local, Targets(noted))
  {
    forall l | l in w.listeners && w.listeners[l].lb == lb && w.listeners[l].group !in Targets(noted)
      ensures l in w0.listeners && w.listeners[l] == w0.listeners[l]
      ensures LeftAlone(me, userManaged, w0.listeners[l], local)
    {
      NotReached(me, userManaged, w0, w1, w, lb, remote, local, noted, l);
    }
  }

  /** Every listener of `lb` is left alone or is one of the desired ones. */
  ghost predicate Accounted(me: Names.Owner, userManaged: bool, w0: World, w: World, lb: Id,
                            local: seq<ListenerModel>, final: seq<ListenerModel>) {
    forall l :: l in w.listeners && w.listeners[l].lb == lb ==>
      || Explained(l, w, lb, final, |final|)
      || (l in w0.listeners && w.listeners[l] == w0.listeners[l] && LeftAlone(me, userManaged, w0.listeners[l], local))
  }

  lemma FinallyAccounted(me: Names.Owner, userManaged: bool, w0: World, w1: World, w: World, lb: Id,
                         remote: seq<ListenerModel>, local: seq<ListenerModel>, noted: seq<ListenerModel>)
    requires ListedListeners(remote, w0, lb) && Noted(remote, local, noted)
    requires w1 == WithoutListeners(w0, Doomed(me, userManaged, remote, local))
    requires Progress(|noted|, w1, w, noted) && Exact(|noted|, w1, w, lb, noted)
    ensures Accounted(me, userManaged, w0, w, lb, local, noted)
  {
    forall l | l in w.listeners && w.listeners[l].lb == lb && !Explained(l, w, lb, noted, |noted|)
      ensures l in w0.listeners && w.listeners[l] == w0.listeners[l]
      ensures LeftAlone(me, userManaged, w0.listeners[l], local)
    {
      NotReached(me, userManaged, w0, w1, w, lb, remote, local, noted, l);
    }
  }

  /** The result of a successful listener phase. */
  ghost predicate Settled(me: Names.Owner, userManaged: bool, w0: World, w: World, lb: Id, groups: seq<GroupModel>,
                          wishes: seq<ListenerModel>, final: seq<ListenerModel>) {
    && OnTarget(me, userManaged, w0, w, lb, wishes, GroupIds(groups))
    && Stays(me, userManaged, w0, w, lb, wishes)
    && |final| == |wishes|
    && (forall k :: 0 <= k < |final| ==>
          && final[k] == wishes[k].(id := final[k].id, group := final[k].group)
          && First(groups, final[k].groupName) == Some(final[k].group))
    && (DistinctPorts(wishes) ==>
          && (forall k :: 0 <= k < |final| ==> Realised(w, lb, final[k]))
          && Accounted(me, userManaged, w0, w, lb, wishes, final))
  }

  /** A call of the listener phase of a run for service `me`. */
  predicate PhaseEvent(e: Event, me: Names.Owner, userManaged: bool, w0: World, groups: seq<GroupModel>,
                       remote: seq<ListenerModel>, wishes: seq<ListenerModel>) {
    && ListenerEvent(e, w0, GroupIds(groups))
    && (e.call.DeleteListener? ==> e.call.id in Doomed(me, userManaged, remote, wishes))
  }

  ghost predicate PhaseEvents(log: seq<Event>, from: nat, me: Names.Owner, userManaged: bool, w0: World, groups: seq<GroupModel>,
                              remote: seq<ListenerModel>, wishes: seq<ListenerModel>) {
    forall i :: from <= i < |log| ==> PhaseEvent(log[i], me, userManaged, w0, groups, remote, wishes)
  }

  lemma LaterPhase(log1: seq<Event>, log: seq<Event>, from: nat, me: Names.Owner, userManaged: bool, w0: World, w1: World,
                   groups: seq<GroupModel>, remote: seq<ListenerModel>, wishes: seq<ListenerModel>, targets: set<Id>)
    requires from <= |log1| <= |log| && log[..|log1|] == log1 && Retargeted(w0, w1, {}) && targets <= GroupIds(groups)
    requires PhaseEvents(log1, from, me, userManaged, w0, groups, remote, wishes)
    requires UpsertEvents(log, |log1|, w1, targets)
    ensures PhaseEvents(log, from, me, userManaged, w0, groups, remote, wishes)
  {
    forall i | from <= i < |log| ensures PhaseEvent(log[i], me, userManaged, w0, groups, remote, wishes) {
      if i < |log1| {
        assert log[i] == log1[i];
      } else {
        RetargetedTrans(w0, w1, log[i].after, targets);
      }
    }
  }

  lemma FirstPhase(log: seq<Event>, from: nat, me: Names.Owner, userManaged: bool, w0: World, groups: seq<GroupModel>,
                   remote: seq<ListenerModel>, wishes: seq<ListenerModel>, doomed: set<Id>)
    requires doomed == Doomed(me, userManaged, remote, wishes)
    requires forall i :: from <= i < |log| ==> DeleteEvent(log[i], w0, doomed)
    ensures PhaseEvents(log, from, me, userManaged, w0, groups, remote, wishes)
  {
  }

  lemma TenancyTrans(w0: World, w1: World, w2: World, lb: Id, wishes: seq<ListenerModel>, noted: seq<ListenerModel>)
    requires Fewer(w0, w1) && Tenancy(w1, w2, lb, noted)
    requires |noted| == |wishes| && forall i :: 0 <= i < |wishes| ==> SamePort(wishes[i], noted[i])
    ensures Tenancy(w0, w2, lb, wishes)
  {
    FewerTenancy(w0, w1, lb);
    TenantsTrans(w0, w1, w2, lb);
    SamePortsDistinct(wishes, noted);
  }

  lemma SamePortsDistinct(a: seq<ListenerModel>, b: seq<ListenerModel>)
    requires |a| == |b| && forall i :: 0 <= i < |a| ==> SamePort(a[i], b[i])
    ensures DistinctPorts(a) ==> DistinctPorts(b)
  {
    if DistinctPorts(a) {
      forall j, k | 0 <= j < k < |b| ensures !SamePort(b[j], b[k]) {
        assert !SamePort(a[j], a[k]);
      }
    }
  }

  lemma SettledIntro(me: Names.Owner, userManaged: bool, w0: World, w1: World, w: World, lb: Id, groups: seq<GroupModel>,
                     remote: seq<ListenerModel>, wishes: seq<ListenerModel>, paired: seq<ListenerModel>, noted: seq<ListenerModel>)
    requires ListedListeners(remote, w0, lb) && Noted(remote, paired, noted) && |paired| == |wishes|
    requires forall i :: 0 <= i < |wishes| ==>
               && paired[i] == wishes[i].(group := paired[i].group)
               && First(groups, paired[i].groupName) == Some(paired[i].group)
    requires w1 == WithoutListeners(w0, Doomed(me, userManaged, remote, paired))
    requires Progress(|noted|, w1, w, noted) && Targets(noted) <= GroupIds(groups)
    requires DistinctPorts(noted) ==> Exact(|noted|, w1, w, lb, noted)
    requires NO_ID !in w0.listeners && forall i :: 0 <= i < |paired| ==> paired[i].id == NO_ID
    ensures Settled(me, userManaged, w0, w, lb, groups, wishes, noted)
  {
    FinallyOnTarget(me, userManaged, w0, w1, w, lb, remote, paired, noted);
    OnTargetWishes(me, userManaged, w0, w, lb, paired, wishes, noted, GroupIds(groups));
    FinallyStays(me, userManaged, w0, w1, w, lb, remote, paired, noted);
    StaysWishes(me, userManaged, w0, w, lb, paired, wishes);
    if DistinctPorts(wishes) {
      SamePortsDistinct(wishes, noted);
      FinallyAccounted(me, userManaged, w0, w1, w, lb, remote, paired, noted);
      SameWishesLeftAlone(me, userManaged, w0, w, lb, paired, wishes, noted);
      RealisedAll(|noted|, w1, w, lb, noted);
    }
  }

  lemma RealisedAll(n: nat, w1: World, w: World, lb: Id, local: seq<ListenerModel>)
    requires n == |local| && Exact(n, w1, w, lb, local)
    ensures forall k :: 0 <= k < |local| ==> Realised(w, lb, local[k])
  {
  }

  lemma LeftAloneSame(me: Names.Owner, userManaged: bool, c: Listener, a: seq<ListenerModel>, b: seq<ListenerModel>)
    requires |a| == |b| && forall i :: 0 <= i < |a| ==> SamePort(a[i], b[i])
    ensures LeftAlone(me, userManaged, c, a) ==> LeftAlone(me, userManaged, c, b)
  {
    if LeftAlone(me, userManaged, c, a) {
      forall i | 0 <= i < |b| ensures !(c.port == b[i].port && c.proto == b[i].proto) {
        assert SamePort(a[i], b[i]);
      }
    }
  }

  lemma SameWishesLeftAlone(me: Names.Owner, userManaged: bool, w0: World, w: World, lb: Id,
                            a: seq<ListenerModel>, b: seq<ListenerModel>, final: seq<ListenerModel>)
    requires |a| == |b| && forall i :: 0 <= i < |a| ==> SamePort(a[i], b[i])
    requires Accounted(me, userManaged, w0, w, lb, a, final)
    ensures Accounted(me, userManaged, w0, w, lb, b, final)
  {
    forall l | l in w0.listeners ensures LeftAlone(me, userManaged, w0.listeners[l], a) ==> LeftAlone(me, userManaged, w0.listeners[l], b) {
      LeftAloneSame(me, userManaged, w0.listeners[l], a, b);
    }
  }

  lemma OnTargetWishes(me: Names.Owner, userManaged: bool, w0: World, w: World, lb: Id,
                       a: seq<ListenerModel>, b: seq<ListenerModel>, final: seq<ListenerModel>, targets: set<Id>)
    requires |a| == |b| && forall i :: 0 <= i < |a| ==> SamePort(a[i], b[i])
    requires OnTarget(me, userManaged, w0, w, lb, a, Targets(final)) && Targets(final) <= targets
    ensures OnTarget(me, userManaged, w0, w, lb, b, targets)
  {
    forall l | l in w0.listeners ensures LeftAlone(me, userManaged, w0.listeners[l], a) ==> LeftAlone(me, userManaged, w0.listeners[l], b) {
      LeftAloneSame(me, userManaged, w0.listeners[l], a, b);
    }
  }

  /** `paired` are the wishes with their groups. */
  ghost predicate HasGroups(wishes: seq<ListenerModel>, paired: seq<ListenerModel>, groups: seq<GroupModel>) {
    && |paired| == |wishes|
    && forall i :: 0 <= i < |wishes| ==>
         && paired[i] == wishes[i].(group := paired[i].group)
         && First(groups, paired[i].groupName) == Some(paired[i].group)
  }

  /** Delete, update and create, for listeners that already have their groups. */
  method SyncListeners(cloud: Cloud, me: Names.Owner, userManaged: bool, lb: Id, groups: seq<GroupModel>,
                       remote: seq<ListenerModel>, paired: seq<ListenerModel>, ghost wishes: seq<ListenerModel>)
    returns (ok: bool, noted: seq<ListenerModel>)
    requires cloud.Valid() && ListedListeners(remote, cloud.w, lb) && FreshListeners(wishes) && HasGroups(wishes, paired, groups)
    modifies cloud
    ensures !ok ==> cloud.faulty
    ensures ok ==> cloud.faulty == old(cloud.faulty)
    ensures cloud.Valid() && cloud.Extends() && Retargeted(old(cloud.w), cloud.w, GroupIds(groups))
    ensures Tenancy(old(cloud.w), cloud.w, lb, wishes)
    ensures ok ==> Settled(me, userManaged, old(cloud.w), cloud.w, lb, groups, wishes, noted)
    ensures PhaseEvents(cloud.log, |old(cloud.log)|, me, userManaged, old(cloud.w), groups, remote, wishes)
  {
    ghost var w0 := cloud.w;
    PairedDoomed(me, userManaged, remote, wishes, paired);
    ok, noted := DeleteListeners(cloud, me, userManaged, remote, paired);
    FewerTenancy(w0, cloud.w, lb);
    FirstPhase(cloud.log, |old(cloud.log)|, me, userManaged, w0, groups, remote, wishes, Doomed(me, userManaged, remote, paired));
    if !ok { return; }
    ok := UpdateAndCreate(cloud, me, userManaged, lb, groups, remote, paired, noted, wishes, w0, |old(cloud.log)|);
  }

  /** The part after the deletions. */
  method UpdateAndCreate(cloud: Cloud, ghost me: Names.Owner, ghost userManaged: bool, lb: Id, ghost groups: seq<GroupModel>,
                         remote: seq<ListenerModel>, ghost paired: seq<ListenerModel>, noted: seq<ListenerModel>,
                         ghost wishes: seq<ListenerModel>, ghost w0: World, ghost from: nat)
    returns (ok: bool)
    requires cloud.Valid() && ListedListeners(remote, w0, lb) && FreshListeners(wishes) && HasGroups(wishes, paired, groups)
    requires NO_ID !in w0.listeners && Noted(remote, paired, noted) && from <= |cloud.log|
    requires cloud.w == WithoutListeners(w0, Doomed(me, userManaged, remote, paired))
    requires PhaseEvents(cloud.log, from, me, userManaged, w0, groups, remote, wishes)
    modifies cloud
    ensures !ok ==> cloud.faulty
    ensures ok ==> cloud.faulty == old(cloud.faulty)
    ensures cloud.Valid() && cloud.Extends() && Retargeted(w0, cloud.w, GroupIds(groups)) && Tenancy(w0, cloud.w, lb, wishes)
    ensures ok ==> Settled(me, userManaged, w0, cloud.w, lb, groups, wishes, noted)
    ensures PhaseEvents(cloud.log, from, me, userManaged, w0, groups, remote, wishes)
  {
    ghost var w1, log1 := cloud.w, cloud.log;
    WithoutTwice(w0, Doomed(me, userManaged, remote, paired), NO_ID);
    NotedLinked(me, userManaged, w0, w1, lb, remote, paired, noted);
    TargetsPaired(paired, noted, groups);
    ok := UpsertListeners(cloud, lb, noted, remote);
    TenancyTrans(w0, w1, cloud.w, lb, wishes, noted);
    RetargetedTrans(w0, w1, cloud.w, Targets(noted));
    LaterPhase(log1, cloud.log, from, me, userManaged, w0, w1, groups, remote, wishes, Targets(noted));
    if ok {
      SettledIntro(me, userManaged, w0, w1, cloud.w, lb, groups, remote, wishes, paired, noted);
    }
  }

  /** Every desired listener names a desired group. */
  ghost predicate Pairable(listeners: seq<ListenerModel>, groups: seq<GroupModel>) {
    forall i :: 0 <= i < |listeners| ==> First(groups, listeners[i].groupName).Some?
  }

  /** `applyListeners`: nothing at all on a reused load balancer without
      force-override; otherwise pair, delete, update and create. */
  method ApplyListeners(cloud: Cloud, me: Names.Owner, forceOverride: bool, local: LbModel, remote: LbModel)
    returns (ok: bool)
    requires cloud.Valid() && local != remote
    requires ListedListeners(remote.listeners, cloud.w, remote.lb) && FreshListeners(local.listeners)
    modifies cloud, local`listeners
    ensures cloud.Valid() && cloud.Extends() && Retargeted(old(cloud.w), cloud.w, GroupIds(local.groups))
    ensures Tenancy(old(cloud.w), cloud.w, remote.lb, old(local.listeners))
    ensures !ok ==> cloud.faulty || !Pairable(old(local.listeners), local.groups)
    ensures ok ==> cloud.faulty == old(cloud.faulty)
    ensures local.userManaged && !forceOverride ==> ok && cloud.w == old(cloud.w) && cloud.log == old(cloud.log)
    ensures ok && !(local.userManaged && !forceOverride) ==>
              Settled(me, local.userManaged, old(cloud.w), cloud.w, remote.lb, local.groups, old(local.listeners), local.listeners)
    ensures PhaseEvents(cloud.log, |old(cloud.log)|, me, local.userManaged, old(cloud.w), local.groups, remote.listeners,
                        old(local.listeners))
  {
    if local.userManaged && !forceOverride {
      return true;
    }
    var paired, noted;
    ok, paired := AssociateGroups(local.listeners, local.groups);
    if !ok { return; }
    ok, noted := SyncListeners(cloud, me, local.userManaged, remote.lb, local.groups, remote.listeners, paired, local.listeners);
    local.listeners := noted;
  }

  lemma PairedDoomed(me: Names.Owner, userManaged: bool, remote: seq<ListenerModel>, a: seq<ListenerModel>, b: seq<ListenerModel>)
    requires |a| == |b| && forall i :: 0 <= i < |a| ==> SamePort(a[i], b[i])
    ensures Doomed(me, userManaged, remote, a) == Doomed(me, userManaged, remote, b)
  {
    forall r ensures Wanted(r, a) <==> Wanted(r, b) {
      if Wanted(r, a) {
        var i :| 0 <= i < |a| && SamePort(r, a[i]);
        assert SamePort(r, b[i]);
      }
      if Wanted(r, b) {
        var i :| 0 <= i < |b| && SamePort(r, b[i]);
        assert SamePort(r, a[i]);
      }
    }
  }

  lemma TargetsPaired(paired: seq<ListenerModel>, noted: seq<ListenerModel>, groups: seq<GroupModel>)
    requires |noted| == |paired| && forall i :: 0 <= i < |noted| ==> noted[i] == paired[i].(id := noted[i].id)
    requires forall i :: 0 <= i < |paired| ==> First(groups, paired[i].groupName) == Some(paired[i].group)
    ensures Targets(noted) <= GroupIds(groups)
  {
    forall l | l in noted ensures l.group in GroupIds(groups) {
      var i :| 0 <= i < |noted| && noted[i] == l;
      FirstNone(groups, l.groupName);
    }
  }
}
