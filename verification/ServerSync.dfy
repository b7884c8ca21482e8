/** Reconciling the servers of one server group: the three-way diff, the batched
    add, remove and update calls, and what holds after each of those calls. */
module ServerSync {
  import opened NlbCloud

  /** The batch size limit of the backend helper. */
  const MAX_BACKEND_NUM := 39

  predicate IsServerEqual(a: Server, b: Server) {
    && a.kind == b.kind
    && match a.kind
       case Eni => a.id == b.id && a.ip == b.ip
       case Ecs => a.id == b.id
       case Ip => a.ip == b.ip
       case Unsupported(_) => false
  }

  /** The comparison is equality of identities, restricted to supported kinds. */
  lemma ServerEqualIsIdentity(a: Server, b: Server)
    ensures IsServerEqual(a, b) <==> Supported(a) && IdentOf(a) == IdentOf(b)
  {
  }

  predicate Has(list: seq<Server>, s: Server) {
    exists i :: 0 <= i < |list| && IsServerEqual(s, list[i])
  }

  function Additions(remote: seq<Server>, local: seq<Server>): seq<Server> {
    if local == [] then []
    else
      var l := local[|local| - 1];
      Additions(remote, local[..|local| - 1]) + if Has(remote, l) then [] else [l]
  }

  function Deletions(remote: seq<Server>, local: seq<Server>): seq<Server> {
    if remote == [] then []
    else
      var r := remote[|remote| - 1];
      Deletions(remote[..|remote| - 1], local) + if r.userManaged || Has(local, r) then [] else [r]
  }

  function UpdatesOf(l: Server, remote: seq<Server>): seq<Server> {
    if remote == [] then []
    else
      var r := remote[|remote| - 1];
      UpdatesOf(l, remote[..|remote| - 1]) +
      if IsServerEqual(l, r) && AttrOf(l) != AttrOf(r) then [l] else []
  }

  function Updates(remote: seq<Server>, local: seq<Server>): seq<Server> {
    if local == [] then []
    else Updates(remote, local[..|local| - 1]) + UpdatesOf(local[|local| - 1], remote)
  }

  /** The nested loops of the diff. */
  method Diff(remote: seq<Server>, local: seq<Server>)
    returns (additions: seq<Server>, deletions: seq<Server>, updates: seq<Server>)
    ensures additions == Additions(remote, local)
    ensures deletions == Deletions(remote, local)
    ensures updates == Updates(remote, local)
  {
    deletions := FindDeletions(remote, local);
    additions := [];
    for i := 0 to |local|
      invariant additions == Additions(remote, local[..i])
    {
      assert local[..i + 1][..i] == local[..i];
      var found := Contains(remote, local[i]);
      if !found { additions := additions + [local[i]]; }
    }
    assert local[..|local|] == local;
    updates := FindUpdates(remote, local);
  }

  method FindDeletions(remote: seq<Server>, local: seq<Server>) returns (deletions: seq<Server>)
    ensures deletions == Deletions(remote, local)
  {
    deletions := [];
    for i := 0 to |remote|
      invariant deletions == Deletions(remote[..i], local)
    {
      var r := remote[i];
      assert remote[..i + 1][..i] == remote[..i];
      if !r.userManaged {
        var found := Contains(local, r);
        if !found { deletions := deletions + [r]; }
      }
    }
    assert remote[..|remote|] == remote;
  }

  method FindUpdates(remote: seq<Server>, local: seq<Server>) returns (updates: seq<Server>)
    ensures updates == Updates(remote, local)
  {
    updates := [];
    for i := 0 to |local|
      invariant updates == Updates(remote, local[..i])
    {
      var l := local[i];
      assert local[..i + 1][..i] == local[..i];
      ghost var soFar := updates;
      for j := 0 to |remote|
        invariant updates == soFar + UpdatesOf(l, remote[..j])
      {
        var r := remote[j];
        assert remote[..j + 1][..j] == remote[..j];
        if IsServerEqual(l, r) {
          if l.port != r.port || l.weight != r.weight || l.desc != r.desc {
            updates := updates + [l];
          }
        }
      }
      assert remote[..|remote|] == remote;
    }
    assert local[..|local|] == local;
  }

  method Contains(list: seq<Server>, s: Server) returns (found: bool)
    ensures found == Has(list, s)
  {
    found := false;
    for i := 0 to |list|
      invariant found == exists k :: 0 <= k < i && IsServerEqual(s, list[k])
    {
      if IsServerEqual(s, list[i]) { found := true; }
    }
  }

  // ------------------------------------------------------------- what is in the diff

  lemma {:induction false} InAdditions(remote: seq<Server>, local: seq<Server>, s: Server)
    ensures s in Additions(remote, local) <==> s in local && !Has(remote, s)
  {
    if local != [] {
      InAdditions(remote, local[..|local| - 1], s);
      assert local == local[..|local| - 1] + [local[|local| - 1]];
    }
  }

  lemma {:induction false} InDeletions(remote: seq<Server>, local: seq<Server>, s: Server)
    ensures s in Deletions(remote, local) <==> s in remote && !s.userManaged && !Has(local, s)
  {
    if remote != [] {
      InDeletions(remote[..|remote| - 1], local, s);
      assert remote == remote[..|remote| - 1] + [remote[|remote| - 1]];
    }
  }

  predicate Stale(remote: seq<Server>, l: Server) {
    exists j :: 0 <= j < |remote| && IsServerEqual(l, remote[j]) && AttrOf(l) != AttrOf(remote[j])
  }

  lemma {:induction false} InUpdatesOf(l: Server, remote: seq<Server>, s: Server)
    ensures s in UpdatesOf(l, remote) <==> s == l && Stale(remote, l)
  {
    if remote != [] {
      var front := remote[..|remote| - 1];
      InUpdatesOf(l, front, s);
      assert Stale(front, l) ==> Stale(remote, l) by {
        if Stale(front, l) {
          var j :| 0 <= j < |front| && IsServerEqual(l, front[j]) && AttrOf(l) != AttrOf(front[j]);
          assert remote[j] == front[j];
        }
      }
      assert Stale(remote, l) && !Stale(front, l) ==>
          IsServerEqual(l, remote[|front|]) && AttrOf(l) != AttrOf(remote[|front|]) by {
        if Stale(remote, l) && !Stale(front, l) {
          var j :| 0 <= j < |remote| && IsServerEqual(l, remote[j]) && AttrOf(l) != AttrOf(remote[j]);
          assert j == |front| || Stale(front, l);
        }
      }
    }
  }

  lemma {:induction false} InUpdates(remote: seq<Server>, local: seq<Server>, s: Server)
    ensures s in Updates(remote, local) <==> s in local && Stale(remote, s)
  {
    if local != [] {
      InUpdates(remote, local[..|local| - 1], s);
      InUpdatesOf(local[|local| - 1], remote, s);
      assert local == local[..|local| - 1] + [local[|local| - 1]];
    }
  }

  // --------------------------------------------------------------- effect of the calls

  /** Servers with one identity agree on their attributes. */
  predicate Consistent(list: seq<Server>) {
    forall a, b :: a in list && b in list && IdentOf(a) == IdentOf(b) ==> AttrOf(a) == AttrOf(b)
  }

  lemma {:induction false} ApplyUntouched(op: ServersOp, m: Servers, list: seq<Server>, k: Ident)
    requires k !in Idents(list)
    ensures k in ApplyServers(op, m, list) <==> k in m
    ensures k in m ==> ApplyServers(op, m, list)[k] == m[k]
    decreases |list|
  {
    if list != [] {
      var front := list[..|list| - 1];
      assert forall s :: s in front ==> s in list;
      assert k !in Idents(front);
      ApplyUntouched(op, m, front, k);
      assert list[|list| - 1] in list;
    }
  }

  lemma {:induction false} ApplyTouched(op: ServersOp, m: Servers, list: seq<Server>, s: Server)
    requires s in list && Consistent(list)
    ensures var r := ApplyServers(op, m, list);
            match op
            case Add => IdentOf(s) in r && r[IdentOf(s)] == AttrOf(s)
            case Remove => IdentOf(s) !in r
            case Update => (IdentOf(s) in r <==> IdentOf(s) in m) &&
                           (IdentOf(s) in m ==> r[IdentOf(s)] == AttrOf(s))
    decreases |list|
  {
    var front, last := list[..|list| - 1], list[|list| - 1];
    assert list == front + [last];
    assert forall x :: x in front ==> x in list;
    if s in front {
      ApplyTouched(op, m, front, s);
    } else if IdentOf(s) in Idents(front) {
      var t :| t in front && IdentOf(t) == IdentOf(s);
      ApplyTouched(op, m, front, t);
    } else {
      ApplyUntouched(op, m, front, IdentOf(s));
    }
  }

  lemma {:induction false} ApplyConcat(op: ServersOp, m: Servers, a: seq<Server>, b: seq<Server>)
    ensures ApplyServers(op, m, a + b) == ApplyServers(op, ApplyServers(op, m, a), b)
    decreases |b|
  {
    if b == [] {
      assert a + b == a;
    } else {
      assert (a + b)[..|a + b| - 1] == a + b[..|b| - 1];
      ApplyConcat(op, m, a, b[..|b| - 1]);
    }
  }

  /** Only servers of supported kinds. */
  predicate Known(m: Servers) {
    forall k :: k in m ==> !k.OtherServer?
  }

  ghost predicate AllSupported(list: seq<Server>) {
    forall s :: s in list ==> Supported(s)
  }

  lemma {:induction false} ApplyKnown(op: ServersOp, m: Servers, list: seq<Server>)
    requires Known(m) && (op.Remove? || AllSupported(list))
    ensures Known(ApplyServers(op, m, list))
    decreases |list|
  {
    if list != [] {
      var front, s := list[..|list| - 1], list[|list| - 1];
      assert s in list && forall x :: x in front ==> x in list;
      ApplyKnown(op, m, front);
    }
  }

  lemma PartlyKnown(op: ServersOp, m: Servers, list: seq<Server>, now: Servers)
    requires Known(m) && (op.Remove? || AllSupported(list)) && Partly(op, m, list, now)
    ensures Known(now)
  {
    var k :| 0 <= k <= |list| && now == ApplyServers(op, m, list[..k]);
    assert forall x :: x in list[..k] ==> x in list;
    ApplyKnown(op, m, list[..k]);
  }

  // ---------------------------------------------------------------------- batches

  /** The servers after some prefix of the list went through. */
  predicate Partly(op: ServersOp, m: Servers, list: seq<Server>, now: Servers) {
    exists k :: 0 <= k <= |list| && now == ApplyServers(op, m, list[..k])
  }

  /** `w` differs from `w0` at most in the servers of group `id`. */
  predicate OnlyServersOf(id: Id, w0: World, w: World) {
    && w.lbs == w0.lbs && w.listeners == w0.listeners
    && id in w0.groups && id in w.groups
    && w.groups == w0.groups[id := w0.groups[id].(servers := w.groups[id].servers)]
  }

  lemma OnlyServersOfSet(id: Id, w0: World, w: World, servers: Servers)
    requires OnlyServersOf(id, w0, w)
    ensures OnlyServersOf(id, w0, SetServers(w, id, servers))
    ensures SetServers(w, id, servers).groups[id].servers == servers
  {
    assert SetServers(w, id, servers).groups == w0.groups[id := w0.groups[id].(servers := servers)];
  }

  /** What each call of a batch leaves behind. */
  predicate BatchEvent(e: Event, op: ServersOp, id: Id, w0: World, list: seq<Server>)
    requires id in w0.groups
  {
    && e.call.ChangeServers? && e.call.op == op && e.call.id == id
    && 1 <= |e.call.list| <= MAX_BACKEND_NUM
    && OnlyServersOf(id, w0, e.after)
    && Partly(op, w0.groups[id].servers, list, e.after.groups[id].servers)
  }

  /** One chunk. */
  method SendChunk(cloud: Cloud, op: ServersOp, id: Id, list: seq<Server>, sent: nat, next: nat, ghost w0: World)
    returns (ok: bool)
    requires cloud.Valid() && sent < next <= |list| && next - sent <= MAX_BACKEND_NUM
    requires OnlyServersOf(id, w0, cloud.w)
    requires cloud.w.groups[id].servers == ApplyServers(op, w0.groups[id].servers, list[..sent])
    modifies cloud
    ensures !ok ==> cloud.faulty
    ensures ok ==> cloud.faulty == old(cloud.faulty)
    ensures cloud.Valid() && OnlyServersOf(id, w0, cloud.w)
    ensures |cloud.log| == |old(cloud.log)| + 1 && cloud.Extends()
    ensures BatchEvent(cloud.log[|old(cloud.log)|], op, id, w0, list)
    ensures ok ==> cloud.w.groups[id].servers == ApplyServers(op, w0.groups[id].servers, list[..next])
    ensures Partly(op, w0.groups[id].servers, list, cloud.w.groups[id].servers)
    ensures Known(w0.groups[id].servers) && (op.Remove? || AllSupported(list)) ==> Known(cloud.w.groups[id].servers)
  {
    ghost var m := w0.groups[id].servers;
    ApplyConcat(op, m, list[..sent], list[sent..next]);
    assert list[..sent] + list[sent..next] == list[..next];
    OnlyServersOfSet(id, w0, cloud.w, ApplyServers(op, m, list[..next]));
    ok := cloud.ChangeServers(op, id, list[sent..next]);
    if Known(m) && (op.Remove? || AllSupported(list)) { PartlyKnown(op, m, list, cloud.w.groups[id].servers); }
  }

  /** Consecutive chunks of at most `MAX_BACKEND_NUM` servers; the first error
      stops the loop. */
  method BatchServers(cloud: Cloud, op: ServersOp, id: Id, list: seq<Server>) returns (ok: bool)
    requires cloud.Valid() && id in cloud.w.groups
    modifies cloud
    ensures !ok ==> cloud.faulty
    ensures ok ==> cloud.faulty == old(cloud.faulty)
    ensures cloud.Valid() && cloud.Extends()
    ensures OnlyServersOf(id, old(cloud.w), cloud.w)
    ensures ok ==> cloud.w.groups[id].servers == ApplyServers(op, old(cloud.w.groups[id].servers), list)
    ensures Partly(op, old(cloud.w.groups[id].servers), list, cloud.w.groups[id].servers)
    ensures old(Known(cloud.w.groups[id].servers)) && (op.Remove? || AllSupported(list)) ==> Known(cloud.w.groups[id].servers)
    ensures forall i :: |old(cloud.log)| <= i < |cloud.log| ==>
              BatchEvent(cloud.log[i], op, id, old(cloud.w), list)
  {
    var sent := 0;
    ghost var w0 := cloud.w;
    assert w0.groups[id := w0.groups[id].(servers := w0.groups[id].servers)] == w0.groups;
    assert list[..0] == [];
    while sent < |list|
      invariant 0 <= sent <= |list|
      invariant cloud.Valid() && cloud.Extends() && cloud.faulty == old(cloud.faulty)
      invariant OnlyServersOf(id, w0, cloud.w)
      invariant cloud.w.groups[id].servers == ApplyServers(op, w0.groups[id].servers, list[..sent])
      invariant forall i :: |old(cloud.log)| <= i < |cloud.log| ==> BatchEvent(cloud.log[i], op, id, w0, list)
    {
      var next := if |list| - sent > MAX_BACKEND_NUM then sent + MAX_BACKEND_NUM else |list|;
      ok := SendChunk(cloud, op, id, list, sent, next, w0);
      if !ok { return; }
      sent := next;
    }
    assert list[..|list|] == list;
    if Known(w0.groups[id].servers) && (op.Remove? || AllSupported(list)) { ApplyKnown(op, w0.groups[id].servers, list); }
    ok := true;
  }

  // ------------------------------------------------------------- the whole update

  /** `list` is what a listing of the servers `m` returns; `owned` are the
      identities that the listing marks as user managed. */
  ghost predicate Lists(list: seq<Server>, m: Servers, owned: set<Ident>) {
    && (forall i, j :: 0 <= i < j < |list| ==> IdentOf(list[i]) != IdentOf(list[j]))
    && (forall s :: s in list ==> Supported(s) && IdentOf(s) in m && m[IdentOf(s)] == AttrOf(s))
    && (forall s :: s in list ==> (s.userManaged <==> IdentOf(s) in owned))
    && (forall k :: k in m ==> k in Idents(list))
  }

  /** Desired servers: supported kinds with distinct identities. */
  ghost predicate WellFormed(local: seq<Server>) {
    && (forall s :: s in local ==> Supported(s))
    && (forall a, b :: a in local && b in local && IdentOf(a) == IdentOf(b) ==> a == b)
  }

  /** Every desired server is there with its attributes; every other server that
      is left is user managed and untouched; no user-managed server was lost. */
  ghost predicate Converged(before: Servers, owned: set<Ident>, local: seq<Server>, after: Servers) {
    && (forall s :: s in local ==> IdentOf(s) in after && after[IdentOf(s)] == AttrOf(s))
    && (forall k :: k in after && k !in Idents(local) ==> k in before && k in owned && after[k] == before[k])
    && (forall k :: k in before && k in owned && k !in Idents(local) ==> k in after)
  }

  function Synced(m: Servers, remote: seq<Server>, local: seq<Server>): Servers {
    ApplyServers(Update,
                 ApplyServers(Remove,
                              ApplyServers(Add, m, Additions(remote, local)),
                              Deletions(remote, local)),
                 Updates(remote, local))
  }

  lemma HasIffIdent(list: seq<Server>, s: Server)
    requires Supported(s)
    ensures Has(list, s) <==> IdentOf(s) in Idents(list)
  {
    if IdentOf(s) in Idents(list) {
      var t :| t in list && IdentOf(t) == IdentOf(s);
      var i :| 0 <= i < |list| && list[i] == t;
      ServerEqualIsIdentity(s, list[i]);
    }
    if Has(list, s) {
      var i :| 0 <= i < |list| && IsServerEqual(s, list[i]);
      ServerEqualIsIdentity(s, list[i]);
      assert list[i] in list;
    }
  }

  lemma AdditionsFacts(remote: seq<Server>, local: seq<Server>)
    requires WellFormed(local)
    ensures Consistent(Additions(remote, local))
    ensures Idents(Additions(remote, local)) == Idents(local) - Idents(remote)
    ensures forall s :: s in Additions(remote, local) ==> s in local
  {
    forall s ensures s in Additions(remote, local) <==> s in local && !Has(remote, s) {
      InAdditions(remote, local, s);
    }
    forall s | s in local ensures Has(remote, s) <==> IdentOf(s) in Idents(remote) {
      HasIffIdent(remote, s);
    }
  }

  lemma DeletionsFacts(remote: seq<Server>, local: seq<Server>, m: Servers, owned: set<Ident>)
    requires Lists(remote, m, owned)
    ensures Consistent(Deletions(remote, local))
    ensures Idents(Deletions(remote, local)) == m.Keys - owned - Idents(local)
  {
    forall s ensures s in Deletions(remote, local) <==> s in remote && !s.userManaged && !Has(local, s) {
      InDeletions(remote, local, s);
    }
    forall s | s in remote ensures Has(local, s) <==> IdentOf(s) in Idents(local) {
      HasIffIdent(local, s);
    }
    assert forall k :: k in m ==> k in Idents(remote);
  }

  lemma UpdatesFacts(remote: seq<Server>, local: seq<Server>, m: Servers, owned: set<Ident>)
    requires Lists(remote, m, owned) && WellFormed(local)
    ensures Consistent(Updates(remote, local))
    ensures forall s :: s in Updates(remote, local) <==>
                          s in local && IdentOf(s) in m && m[IdentOf(s)] != AttrOf(s)
  {
    forall s ensures s in Updates(remote, local) <==> s in local && IdentOf(s) in m && m[IdentOf(s)] != AttrOf(s) {
      InUpdates(remote, local, s);
      if s in local && IdentOf(s) in m {
        StaleIff(remote, s, m, owned);
      }
      if s in local && Stale(remote, s) {
        var j :| 0 <= j < |remote| && IsServerEqual(s, remote[j]) && AttrOf(s) != AttrOf(remote[j]);
        assert remote[j] in remote;
      }
    }
  }

  lemma StaleIff(remote: seq<Server>, s: Server, m: Servers, owned: set<Ident>)
    requires Lists(remote, m, owned) && Supported(s) && IdentOf(s) in m
    ensures Stale(remote, s) <==> m[IdentOf(s)] != AttrOf(s)
  {
    var t :| t in remote && IdentOf(t) == IdentOf(s);
    var i :| 0 <= i < |remote| && remote[i] == t;
    ServerEqualIsIdentity(s, remote[i]);
    if Stale(remote, s) {
      var j :| 0 <= j < |remote| && IsServerEqual(s, remote[j]) && AttrOf(s) != AttrOf(remote[j]);
      ServerEqualIsIdentity(s, remote[j]);
      assert i == j;
    }
  }

  /** Add, remove, update leads to the desired servers, from any current ones. */
  lemma Convergence(remote: seq<Server>, local: seq<Server>, m: Servers, owned: set<Ident>)
    requires Lists(remote, m, owned) && WellFormed(local)
    ensures Converged(m, owned, local, Synced(m, remote, local))
  {
    var add, del, upd := Additions(remote, local), Deletions(remote, local), Updates(remote, local);
    AdditionsFacts(remote, local);
    DeletionsFacts(remote, local, m, owned);
    UpdatesFacts(remote, local, m, owned);
    assert Idents(remote) == m.Keys;
    var m1 := ApplyServers(Add, m, add);
    var m2 := ApplyServers(Remove, m1, del);
    var m3 := ApplyServers(Update, m2, upd);
    forall s | s in local ensures IdentOf(s) in m3 && m3[IdentOf(s)] == AttrOf(s) {
      ConvergesAt(remote, local, m, owned, s);
    }
    forall k | k !in Idents(local)
      ensures (k in m3 <==> k in m && k in owned) && (k in m3 ==> m3[k] == m[k])
    {
      ApplyUntouched(Add, m, add, k);
      if k in Idents(del) {
        var s :| s in del && IdentOf(s) == k;
        ApplyTouched(Remove, m1, del, s);
      } else {
        ApplyUntouched(Remove, m1, del, k);
      }
      assert k !in Idents(upd);
      ApplyUntouched(Update, m2, upd, k);
    }
  }

  lemma ConvergesAt(remote: seq<Server>, local: seq<Server>, m: Servers, owned: set<Ident>, s: Server)
    requires Lists(remote, m, owned) && WellFormed(local) && s in local
    ensures IdentOf(s) in Synced(m, remote, local)
    ensures Synced(m, remote, local)[IdentOf(s)] == AttrOf(s)
  {
    var add, del, upd := Additions(remote, local), Deletions(remote, local), Updates(remote, local);
    AdditionsFacts(remote, local);
    DeletionsFacts(remote, local, m, owned);
    UpdatesFacts(remote, local, m, owned);
    var m1 := ApplyServers(Add, m, add);
    var m2 := ApplyServers(Remove, m1, del);
    var k := IdentOf(s);
    if k in m {
      assert k in Idents(remote);
      ApplyUntouched(Add, m, add, k);
    } else {
      HasIffIdent(remote, s);
      InAdditions(remote, local, s);
      ApplyTouched(Add, m, add, s);
    }
    ApplyUntouched(Remove, m1, del, k);
    if s in upd {
      ApplyTouched(Update, m2, upd, s);
    } else {
      assert k !in Idents(upd);
      ApplyUntouched(Update, m2, upd, k);
    }
  }

  /** Once converged, a new listing gives an empty diff. */
  lemma SecondDiffEmpty(before: Servers, after: Servers, owned: set<Ident>, remote: seq<Server>, local: seq<Server>)
    requires Converged(before, owned, local, after) && Lists(remote, after, owned) && WellFormed(local)
    ensures Additions(remote, local) == Deletions(remote, local) == Updates(remote, local) == []
  {
    AdditionsFacts(remote, local);
    DeletionsFacts(remote, local, after, owned);
    UpdatesFacts(remote, local, after, owned);
    assert Idents(remote) == after.Keys;
    var add, del, upd := Additions(remote, local), Deletions(remote, local), Updates(remote, local);
    NoIdents(add);
    NoIdents(del);
    NoIdents(upd);
  }

  lemma NoIdents(list: seq<Server>)
    ensures Idents(list) == {} ==> list == []
  {
    if list != [] {
      assert IdentOf(list[0]) in Idents(list);
    }
  }

  /** Make before break: either all old servers or all desired ones serve. */
  predicate Serving(before: Servers, local: seq<Server>, now: Servers) {
    before.Keys <= now.Keys || Idents(local) <= now.Keys
  }

  lemma MakeBeforeBreak(before: Servers, local: seq<Server>, now: Servers)
    requires Serving(before, local, now)
    ensures forall k :: k in before && k in Idents(local) ==> k in now
    ensures before != map[] && local != [] ==> now != map[]
  {
    if before != map[] && local != [] {
      var k :| k in before;
      assert IdentOf(local[0]) in Idents(local);
      assert k in now || IdentOf(local[0]) in now;
    }
  }

  lemma AddPhase(remote: seq<Server>, local: seq<Server>, m: Servers, owned: set<Ident>, now: Servers)
    requires Lists(remote, m, owned) && WellFormed(local)
    requires Partly(Add, m, Additions(remote, local), now)
    ensures m.Keys <= now.Keys
    ensures now == ApplyServers(Add, m, Additions(remote, local)) ==> Idents(local) <= now.Keys
  {
    var add := Additions(remote, local);
    AdditionsFacts(remote, local);
    var k :| 0 <= k <= |add| && now == ApplyServers(Add, m, add[..k]);
    assert forall s :: s in add[..k] ==> s in add;
    forall i | i in m ensures i in now {
      assert i !in Idents(add[..k]);
      ApplyUntouched(Add, m, add[..k], i);
    }
    if now == ApplyServers(Add, m, add) {
      forall i | i in Idents(local) ensures i in now {
        if i in Idents(add) {
          var s :| s in add && IdentOf(s) == i;
          ApplyTouched(Add, m, add, s);
        } else {
          assert i in Idents(remote);
        }
      }
    }
  }

  lemma RemovePhase(remote: seq<Server>, local: seq<Server>, m: Servers, owned: set<Ident>, m1: Servers, now: Servers)
    requires Lists(remote, m, owned)
    requires Idents(local) <= m1.Keys && Partly(Remove, m1, Deletions(remote, local), now)
    ensures Idents(local) <= now.Keys
  {
    var del := Deletions(remote, local);
    DeletionsFacts(remote, local, m, owned);
    var k :| 0 <= k <= |del| && now == ApplyServers(Remove, m1, del[..k]);
    assert forall s :: s in del[..k] ==> s in del;
    forall i | i in Idents(local) ensures i in now {
      assert i !in Idents(del[..k]);
      ApplyUntouched(Remove, m1, del[..k], i);
    }
  }

  lemma UpdatePhase(list: seq<Server>, m: Servers, now: Servers)
    requires Partly(Update, m, list, now) && Consistent(list)
    ensures now.Keys == m.Keys
  {
    var k :| 0 <= k <= |list| && now == ApplyServers(Update, m, list[..k]);
    assert forall s :: s in list[..k] ==> s in list;
    forall i ensures i in now <==> i in m {
      if i in Idents(list[..k]) {
        var s :| s in list[..k] && IdentOf(s) == i;
        ApplyTouched(Update, m, list[..k], s);
      } else {
        ApplyUntouched(Update, m, list[..k], i);
      }
    }
  }

  /** The listing is up to date and the desired servers are well formed. */
  ghost predicate Current(remote: seq<Server>, local: seq<Server>, w: World, id: Id, owned: set<Ident>)
    requires id in w.groups
  {
    Lists(remote, w.groups[id].servers, owned) && WellFormed(local)
  }

  /** What each call of the whole update leaves behind. */
  predicate SyncEvent(e: Event, id: Id, w0: World, local: seq<Server>, current: bool)
    requires id in w0.groups
  {
    && e.call.ChangeServers? && OnlyServersOf(id, w0, e.after)
    && (current ==> Serving(w0.groups[id].servers, local, e.after.groups[id].servers))
  }

  lemma OnlyServersOfTrans(id: Id, w0: World, w1: World, w2: World)
    requires OnlyServersOf(id, w0, w1) && OnlyServersOf(id, w1, w2)
    ensures OnlyServersOf(id, w0, w2)
  {
    OnlyServersOfSet(id, w0, w1, w2.groups[id].servers);
  }

  /** The call of one phase, skipped when there is nothing to send. */
  method Phase(cloud: Cloud, op: ServersOp, id: Id, list: seq<Server>) returns (ok: bool)
    requires cloud.Valid() && id in cloud.w.groups
    modifies cloud
    ensures !ok ==> cloud.faulty
    ensures ok ==> cloud.faulty == old(cloud.faulty)
    ensures cloud.Valid() && cloud.Extends()
    ensures OnlyServersOf(id, old(cloud.w), cloud.w)
    ensures ok ==> cloud.w.groups[id].servers == ApplyServers(op, old(cloud.w.groups[id].servers), list)
    ensures Partly(op, old(cloud.w.groups[id].servers), list, cloud.w.groups[id].servers)
    ensures old(Known(cloud.w.groups[id].servers)) && (op.Remove? || AllSupported(list)) ==> Known(cloud.w.groups[id].servers)
    ensures forall i :: |old(cloud.log)| <= i < |cloud.log| ==>
              BatchEvent(cloud.log[i], op, id, old(cloud.w), list)
  {
    ok := true;
    if |list| > 0 {
      ok := BatchServers(cloud, op, id, list);
    } else {
      ghost var w0 := cloud.w;
      assert w0.groups[id := w0.groups[id].(servers := w0.groups[id].servers)] == w0.groups;
      assert list[..0] == [];
    }
  }

  method AddServers(cloud: Cloud, id: Id, remote: seq<Server>, local: seq<Server>, add: seq<Server>,
                    ghost owned: set<Ident>)
    returns (ok: bool)
    requires cloud.Valid() && id in cloud.w.groups && add == Additions(remote, local)
    modifies cloud
    ensures !ok ==> cloud.faulty
    ensures ok ==> cloud.faulty == old(cloud.faulty)
    ensures cloud.Valid() && cloud.Extends() && OnlyServersOf(id, old(cloud.w), cloud.w)
    ensures ok ==> cloud.w.groups[id].servers == ApplyServers(Add, old(cloud.w.groups[id].servers), add)
    ensures ok && Current(remote, local, old(cloud.w), id, owned) ==> Idents(local) <= cloud.w.groups[id].servers.Keys
    ensures AllSupported(local) && old(Known(cloud.w.groups[id].servers)) ==> Known(cloud.w.groups[id].servers)
    ensures forall i :: |old(cloud.log)| <= i < |cloud.log| ==>
              SyncEvent(cloud.log[i], id, old(cloud.w), local, Current(remote, local, old(cloud.w), id, owned))
  {
    ghost var w0 := cloud.w;
    forall s | s in add ensures s in local { InAdditions(remote, local, s); }
    ok := Phase(cloud, Add, id, add);
    if Current(remote, local, w0, id, owned) {
      AddPhase(remote, local, w0.groups[id].servers, owned, cloud.w.groups[id].servers);
      forall i | |old(cloud.log)| <= i < |cloud.log| ensures SyncEvent(cloud.log[i], id, w0, local, true) {
        AddPhase(remote, local, w0.groups[id].servers, owned, cloud.log[i].after.groups[id].servers);
      }
    }
  }

  method RemoveServers(cloud: Cloud, id: Id, remote: seq<Server>, local: seq<Server>, del: seq<Server>,
                       ghost w0: World, ghost owned: set<Ident>)
    returns (ok: bool)
    requires cloud.Valid() && OnlyServersOf(id, w0, cloud.w) && del == Deletions(remote, local)
    requires Current(remote, local, w0, id, owned) ==> Idents(local) <= cloud.w.groups[id].servers.Keys
    modifies cloud
    ensures !ok ==> cloud.faulty
    ensures ok ==> cloud.faulty == old(cloud.faulty)
    ensures cloud.Valid() && cloud.Extends() && OnlyServersOf(id, w0, cloud.w)
    ensures ok ==> cloud.w.groups[id].servers == ApplyServers(Remove, old(cloud.w.groups[id].servers), del)
    ensures Current(remote, local, w0, id, owned) ==> Idents(local) <= cloud.w.groups[id].servers.Keys
    ensures old(Known(cloud.w.groups[id].servers)) ==> Known(cloud.w.groups[id].servers)
    ensures forall i :: |old(cloud.log)| <= i < |cloud.log| ==>
              SyncEvent(cloud.log[i], id, w0, local, Current(remote, local, w0, id, owned))
  {
    ghost var w1 := cloud.w;
    ghost var m := w0.groups[id].servers;
    ghost var current := Current(remote, local, w0, id, owned);
    ok := Phase(cloud, Remove, id, del);
    OnlyServersOfTrans(id, w0, w1, cloud.w);
    if current {
      RemovePhase(remote, local, m, owned, w1.groups[id].servers, cloud.w.groups[id].servers);
    }
    forall i | |old(cloud.log)| <= i < |cloud.log| ensures SyncEvent(cloud.log[i], id, w0, local, current) {
      OnlyServersOfTrans(id, w0, w1, cloud.log[i].after);
      if current {
        RemovePhase(remote, local, m, owned, w1.groups[id].servers, cloud.log[i].after.groups[id].servers);
      }
    }
  }

  method UpdateServers(cloud: Cloud, id: Id, local: seq<Server>, upd: seq<Server>, ghost w0: World, ghost current: bool)
    returns (ok: bool)
    requires cloud.Valid() && OnlyServersOf(id, w0, cloud.w)
    requires current ==> Consistent(upd) && Idents(local) <= cloud.w.groups[id].servers.Keys
    modifies cloud
    ensures !ok ==> cloud.faulty
    ensures ok ==> cloud.faulty == old(cloud.faulty)
    ensures cloud.Valid() && cloud.Extends() && OnlyServersOf(id, w0, cloud.w)
    ensures ok ==> cloud.w.groups[id].servers == ApplyServers(Update, old(cloud.w.groups[id].servers), upd)
    ensures AllSupported(upd) && old(Known(cloud.w.groups[id].servers)) ==> Known(cloud.w.groups[id].servers)
    ensures forall i :: |old(cloud.log)| <= i < |cloud.log| ==> SyncEvent(cloud.log[i], id, w0, local, current)
  {
    ghost var w1 := cloud.w;
    ok := Phase(cloud, Update, id, upd);
    OnlyServersOfTrans(id, w0, w1, cloud.w);
    forall i | |old(cloud.log)| <= i < |cloud.log| ensures SyncEvent(cloud.log[i], id, w0, local, current) {
      OnlyServersOfTrans(id, w0, w1, cloud.log[i].after);
      if current {
        UpdatePhase(upd, w1.groups[id].servers, cloud.log[i].after.groups[id].servers);
      }
    }
  }

  /** Diff, then add, then remove, then update, each in batches, stopping at the
      first error.  On success every part of the diff was applied; if the listing
      was current, the servers have converged.  Then also, after every call and
      wherever the run stops, either all old servers or all desired servers are in
      the group. */
  method UpdateServerGroupServers(cloud: Cloud, id: Id, remote: seq<Server>, local: seq<Server>, ghost owned: set<Ident>)
    returns (ok: bool)
    requires cloud.Valid() && id in cloud.w.groups
    modifies cloud
    ensures !ok ==> cloud.faulty
    ensures ok ==> cloud.faulty == old(cloud.faulty)
    ensures cloud.Valid() && cloud.Extends() && OnlyServersOf(id, old(cloud.w), cloud.w)
    ensures ok ==> cloud.w.groups[id].servers == Synced(old(cloud.w.groups[id].servers), remote, local)
    ensures ok && Current(remote, local, old(cloud.w), id, owned) ==>
              Converged(old(cloud.w.groups[id].servers), owned, local, cloud.w.groups[id].servers)
    ensures AllSupported(local) && old(Known(cloud.w.groups[id].servers)) ==> Known(cloud.w.groups[id].servers)
    ensures forall i :: |old(cloud.log)| <= i < |cloud.log| ==>
              SyncEvent(cloud.log[i], id, old(cloud.w), local, Current(remote, local, old(cloud.w), id, owned))
  {
    ghost var w0 := cloud.w;
    ghost var m := w0.groups[id].servers;
    var add, del, upd := Diff(remote, local);
    ghost var current := Current(remote, local, w0, id, owned);
    forall s | s in upd ensures s in local { InUpdates(remote, local, s); }
    if current {
      Convergence(remote, local, m, owned);
      UpdatesFacts(remote, local, m, owned);
    }
    ok := AddServers(cloud, id, remote, local, add, owned);
    if !ok { return; }
    ghost var log1 := cloud.log;
    ok := RemoveServers(cloud, id, remote, local, del, w0, owned);
    assert forall i :: |old(cloud.log)| <= i < |log1| ==> cloud.log[i] == log1[i];
    if !ok { return; }
    ghost var log2 := cloud.log;
    ok := UpdateServers(cloud, id, local, upd, w0, current);
    assert forall i :: |old(cloud.log)| <= i < |log2| ==> cloud.log[i] == log2[i];
  }

  // --------------------------------------------------------- groups without user servers

  /** The group holds the desired servers and nothing else. */
  ghost predicate Exactly(local: seq<Server>, m: Servers) {
    && (forall s :: s in local ==> IdentOf(s) in m && m[IdentOf(s)] == AttrOf(s))
    && (forall k :: k in m ==> k in Idents(local))
  }

  /** Applying the diff again, even against an outdated listing, changes nothing
      once the desired servers are in place. */
  lemma SyncedStable(m: Servers, remote: seq<Server>, local: seq<Server>)
    requires WellFormed(local) && Exactly(local, m)
    ensures Synced(m, remote, local) == m
  {
    var add, del, upd := Additions(remote, local), Deletions(remote, local), Updates(remote, local);
    forall s | s in add ensures s in local { InAdditions(remote, local, s); }
    forall s | s in upd ensures s in local { InUpdates(remote, local, s); }
    forall s | s in del ensures IdentOf(s) !in m {
      InDeletions(remote, local, s);
      if Supported(s) { HasIffIdent(local, s); }
    }
    PutsNothingNew(Add, m, add, local);
    RemovesNothing(m, del);
    PutsNothingNew(Update, m, upd, local);
  }

  lemma {:induction false} PutsNothingNew(op: ServersOp, m: Servers, list: seq<Server>, local: seq<Server>)
    requires !op.Remove? && Exactly(local, m) && forall s :: s in list ==> s in local
    ensures ApplyServers(op, m, list) == m
    decreases |list|
  {
    if list != [] {
      PutsNothingNew(op, m, list[..|list| - 1], local);
      assert list[|list| - 1] in list;
    }
  }

  lemma {:induction false} RemovesNothing(m: Servers, list: seq<Server>)
    requires forall s :: s in list ==> IdentOf(s) !in m
    ensures ApplyServers(Remove, m, list) == m
    decreases |list|
  {
    if list != [] {
      RemovesNothing(m, list[..|list| - 1]);
      assert list[|list| - 1] in list;
    }
  }

  /** Filling an empty group. */
  lemma FilledExactly(local: seq<Server>)
    requires WellFormed(local)
    ensures Exactly(local, ApplyServers(Add, map[], local))
  {
    var m := ApplyServers(Add, map[], local);
    forall s | s in local ensures IdentOf(s) in m && m[IdentOf(s)] == AttrOf(s) {
      ApplyTouched(Add, map[], local, s);
    }
    forall k | k in m ensures k in Idents(local) {
      if k !in Idents(local) {
        ApplyUntouched(Add, map[], local, k);
      }
    }
  }
}
