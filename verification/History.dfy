/** Many applications for one service and its own load balancer, with the hash label
    that decides whether a run looks at the listeners at all. */
module History {
  import opened Common
  import opened NlbCloud
  import opened GroupApplier
  import opened ListenerApplier
  import opened Applier
  import Names

  /** One run: the spec (its hash, in effect), the model built from it and from the
      endpoints of the moment, whether it would change a fixed attribute of the load
      balancer, and whether the label patch at its end succeeds. */
  datatype Input = Input(spec: int, needDelete: bool, groups: seq<GroupModel>, listeners: seq<ListenerModel>,
                         hasIngress: bool, fixedChanged: bool, stored: bool)
  {
    /** As the model builder makes it. */
    ghost predicate Proper(me: Names.Owner) {
      && FromEmpty(groups) && SupportedGroups(groups) && FreshListeners(listeners) && DistinctPorts(listeners)
      && Pairable(listeners, groups) && (needDelete ==> groups == [] && listeners == [])
      && (forall g :: g in groups ==> Names.ManagedGroup(me, g.name))
    }
  }

  /** The spec determines whether there is a load balancer, and its listeners. */
  predicate SameModel(a: Input, b: Input) {
    a.spec == b.spec ==> a.needDelete == b.needDelete && a.listeners == b.listeners
  }

  /** Listeners of other load balancers do not use groups named for this service. */
  predicate Bystanders(w: World, me: Names.Owner, lb: Id) {
    forall l :: l in w.listeners && w.listeners[l].lb != lb && w.listeners[l].group in w.groups ==>
      !Names.ManagedGroup(me, w.groups[w.listeners[l].group].name)
  }

  /** A world in which a run of this service can start. */
  predicate Ready(w: World, me: Names.Owner, lb: Id) {
    && Homed(w) && KnownServers(w) && UniqueTagged(w) && Integrity(w) && Bystanders(w, me, lb)
    && (lb == NO_ID || lb in w.lbs) && NO_ID !in w.lbs
  }

  /** Listener `x` is the desired one, and its group is the one named for it. */
  ghost predicate Serves(w: World, x: Id, lb: Id, l: ListenerModel)
    requires x in w.listeners
  {
    var c := w.listeners[x];
    && Agrees(c, l, lb) && c.desc == l.desc && c.running
    && c.group in w.groups && w.groups[c.group].tagged && w.groups[c.group].name == l.groupName
  }

  ghost predicate Served(w: World, lb: Id, l: ListenerModel) {
    exists x :: x in w.listeners && Serves(w, x, lb, l)
  }

  ghost predicate Planned(w: World, x: Id, lb: Id, listeners: seq<ListenerModel>)
    requires x in w.listeners
  {
    exists k :: 0 <= k < |listeners| && Serves(w, x, lb, listeners[k])
  }

  /** The load balancer has exactly the desired listeners, each with its own group. */
  ghost predicate OnPlan(w: World, lb: Id, listeners: seq<ListenerModel>) {
    && (forall k :: 0 <= k < |listeners| ==> Served(w, lb, listeners[k]))
    && (forall x :: x in w.listeners && w.listeners[x].lb == lb ==> Planned(w, x, lb, listeners))
  }

  function RunOf(me: Names.Owner, lb: Id, hash: Option<int>, i: Input): Run {
    Run(me, lb, i.needDelete, hash != Some(i.spec), false, false, i.hasIngress, true, i.fixedChanged, i.groups, i.listeners)
  }

  // ----------------------------------------------------------------------- one run

  /** The listeners a run leaves as they are use no group that it gives up: those of
      other load balancers by their names, and those of its own, if it skips them, when
      they are on plan. */
  lemma NothingLost(w: World, me: Names.Owner, lb: Id, hash: Option<int>, i: Input)
    requires Ready(w, me, lb) && i.Proper(me)
    requires hash == Some(i.spec) ==> OnPlan(w, lb, i.listeners)
    ensures Spared(RunOf(me, lb, hash, i), w, Unwished(w, me, i.groups))
  {
    var run := RunOf(me, lb, hash, i);
    forall l | l in w.listeners && run.Survives(w.listeners[l]) ensures w.listeners[l].group !in Unwished(w, me, i.groups) {
      if w.listeners[l].lb == lb && lb != NO_ID {
        assert Planned(w, l, lb, i.listeners);
        var k :| 0 <= k < |i.listeners| && Serves(w, l, lb, i.listeners[k]);
        FirstNone(i.groups, i.listeners[k].groupName);
      } else {
        assert w.listeners[l].lb in w.lbs;
      }
    }
  }

  /** If they do, the run breaks referential integrity. */
  lemma SomethingLost(w: World, me: Names.Owner, lb: Id, hash: Option<int>, i: Input, l: ListenerModel)
    requires hash == Some(i.spec) && Served(w, lb, l)
    requires Names.ManagedGroup(me, l.groupName) && l.groupName !in WishedNames(i.groups)
    ensures !Spared(RunOf(me, lb, hash, i), w, Unwished(w, me, i.groups))
  {
    var x :| x in w.listeners && Serves(w, x, lb, l);
    assert RunOf(me, lb, hash, i).Survives(w.listeners[x]);
  }

  lemma BystandersKept(w0: World, w: World, me: Names.Owner, run: Run, lb: Id)
    requires Ready(w0, me, run.lb) && Tenants(w0, w, lb) && NamesKept(w0, w) && Homed(w) && LbAfter(run, lb, w)
    requires NO_ID !in w.lbs
    ensures Bystanders(w, me, lb)
  {
    forall l | l in w.listeners && w.listeners[l].lb != lb && w.listeners[l].group in w.groups
      ensures !Names.ManagedGroup(me, w.groups[w.listeners[l].group].name)
    {
      assert w0.listeners[l] == w.listeners[l] && w.listeners[l].lb in w.lbs;
      assert w.listeners[l].lb != run.lb;
    }
  }

  /** A successful reconciliation of the listeners leaves them on plan. */
  lemma Arrives(run: Run, w0: World, w: World, lb: Id, groups: seq<GroupModel>, final: seq<ListenerModel>)
    requires Applied(run, w0, w, lb, groups, final) && run.ByName() && UniqueTagged(w0)
    requires run.hashChanged && !run.needDelete && !run.userManaged && DistinctPorts(run.listeners)
    ensures OnPlan(w, lb, run.listeners)
  {
    forall x, k | x in w.listeners && 0 <= k < |final| && Fits(w.listeners[x], final[k], lb)
      ensures Serves(w, x, lb, run.listeners[k])
    {
      GroupNamed(w, groups, final[k]);
    }
    forall k | 0 <= k < |run.listeners| ensures Served(w, lb, run.listeners[k]) {
      assert Realised(w, lb, final[k]);
      var x :| x in w.listeners && Fits(w.listeners[x], final[k], lb);
      assert Serves(w, x, lb, run.listeners[k]);
    }
    forall x | x in w.listeners && w.listeners[x].lb == lb ensures Planned(w, x, lb, run.listeners) {
      assert Explained(x, w, lb, final, |final|);
      var k :| 0 <= k < |final| && Fits(w.listeners[x], final[k], lb);
      assert Serves(w, x, lb, run.listeners[k]);
    }
  }

  lemma GroupNamed(w: World, groups: seq<GroupModel>, l: ListenerModel)
    requires Named(groups, w) && First(groups, l.groupName) == Some(l.group)
    ensures l.group in w.groups && w.groups[l.group].tagged && w.groups[l.group].name == l.groupName
  {
    FirstNone(groups, l.groupName);
    var g :| g in groups && g.name == l.groupName && g.id == l.group;
    var k :| 0 <= k < |groups| && groups[k] == g;
  }

  /** A run that skips the listeners does not take them off plan. */
  lemma StaysOnPlan(w0: World, w: World, lb: Id, listeners: seq<ListenerModel>)
    requires OnPlan(w0, lb, listeners) && w.listeners == w0.listeners && NamesKept(w0, w) && Integrity(w)
    ensures OnPlan(w, lb, listeners)
  {
    forall x, k | x in w0.listeners && 0 <= k < |listeners| && Serves(w0, x, lb, listeners[k]) ensures Serves(w, x, lb, listeners[k]) {
    }
    forall k | 0 <= k < |listeners| ensures Served(w, lb, listeners[k]) {
      assert Served(w0, lb, listeners[k]);
      var x :| x in w0.listeners && Serves(w0, x, lb, listeners[k]);
      assert Serves(w, x, lb, listeners[k]);
    }
    forall x | x in w.listeners && w.listeners[x].lb == lb ensures Planned(w, x, lb, listeners) {
      assert Planned(w0, x, lb, listeners);
    }
  }

  // -------------------------------------------------------------- moves between the runs

  /** Others may change anything but the listeners of this load balancer and the names
      and tags of their groups, as long as the next run can start. */
  predicate ElseMoved(w0: World, w: World, me: Names.Owner, lb: Id) {
    && Ready(w, me, lb)
    && (forall l :: l in w0.listeners && w0.listeners[l].lb == lb ==> l in w.listeners && w.listeners[l] == w0.listeners[l])
    && (forall l :: l in w.listeners && w.listeners[l].lb == lb ==>
          && l in w0.listeners && w0.listeners[l] == w.listeners[l]
          && var g := w.listeners[l].group;
             g in w0.groups && g in w.groups && w.groups[g].name == w0.groups[g].name && w.groups[g].tagged == w0.groups[g].tagged)
  }

  lemma MovedOnPlan(w0: World, w: World, me: Names.Owner, lb: Id, listeners: seq<ListenerModel>)
    requires ElseMoved(w0, w, me, lb) && OnPlan(w0, lb, listeners)
    ensures OnPlan(w, lb, listeners)
  {
    forall x, k | x in w0.listeners && 0 <= k < |listeners| && Serves(w0, x, lb, listeners[k])
      ensures x in w.listeners && Serves(w, x, lb, listeners[k])
    {
    }
    forall k | 0 <= k < |listeners| ensures Served(w, lb, listeners[k]) {
      assert Served(w0, lb, listeners[k]);
      var x :| x in w0.listeners && Serves(w0, x, lb, listeners[k]);
      assert Serves(w, x, lb, listeners[k]);
    }
    forall x | x in w.listeners && w.listeners[x].lb == lb ensures Planned(w, x, lb, listeners) {
      assert Planned(w0, x, lb, listeners);
    }
  }

  predicate IdsBelow(w: World, next: Id) {
    && (forall i :: i in w.lbs ==> NO_ID < i < next)
    && (forall i :: i in w.groups ==> NO_ID < i < next)
    && (forall i :: i in w.listeners ==> NO_ID < i < next)
  }

  /** Any such move, or none. */
  method OthersMove(cloud: Cloud, me: Names.Owner, lb: Id)
    requires cloud.Valid() && Ready(cloud.w, me, lb)
    modifies cloud`w, cloud`nextId
    ensures cloud.Valid() && Ready(cloud.w, me, lb)
    ensures forall listeners :: OnPlan(old(cloud.w), lb, listeners) ==> OnPlan(cloud.w, lb, listeners)
  {
    var w: World, next: Id := *, *;
    if ElseMoved(cloud.w, w, me, lb) && IdsBelow(w, next) && cloud.nextId <= next {
      forall listeners | OnPlan(cloud.w, lb, listeners) ensures OnPlan(w, lb, listeners) {
        MovedOnPlan(cloud.w, w, me, lb, listeners);
      }
      cloud.Elsewhere(w, next);
    }
  }

  ghost predicate AllIntact(log: seq<Event>, from: nat) {
    forall i :: from <= i < |log| ==> Integrity(log[i].after)
  }

  /** The run skips the listeners although they may be off plan. */
  ghost predicate Blind(w0: World, i: Input, lb: Id, hash: Option<int>) {
    hash == Some(i.spec) && !OnPlan(w0, lb, i.listeners)
  }

  /** The load balancer that the next search finds: the one at hand while it exists. */
  ghost function Next(w: World, lb: Id): Id {
    if lb in w.lbs then lb else NO_ID
  }

  /** What one run leaves behind. */
  ghost predicate RunDone(me: Names.Owner, i: Input, lb: Id, hash: Option<int>, w0: World, w: World, ok: bool, lb': Id) {
    && (!Blind(w0, i, lb, hash) ==> Ready(w, me, Next(w, lb')))
    && (ok && hash != Some(i.spec) && !i.needDelete ==> lb' in w.lbs && OnPlan(w, lb', i.listeners))
    && (hash == Some(i.spec) && OnPlan(w0, lb, i.listeners) ==> lb' == lb && w.lbs == w0.lbs && OnPlan(w, lb, i.listeners))
    && (ok && hash == Some(i.spec) ==>
          (Integrity(w) <==> Spared(RunOf(me, lb, hash, i), w0, Unwished(w0, me, i.groups))))
  }

  lemma RunDoneIntro(me: Names.Owner, i: Input, lb: Id, hash: Option<int>, w0: World, w: World, ok: bool, lb': Id,
                     groups: seq<GroupModel>, final: seq<ListenerModel>)
    requires Ready(w0, me, lb) && i.Proper(me) && NO_ID !in w.lbs
    requires var run := RunOf(me, lb, hash, i);
             && Keeps(run, w0, w, lb') && LbAfter(run, lb', w)
             && (Spared(run, w0, Unwished(w0, me, i.groups)) ==> Integrity(w))
             && (ok ==> Applied(run, w0, w, lb', groups, final))
             && (ok ==> (Integrity(w) <==> Spared(run, w0, Unwished(w0, me, i.groups))))
    ensures RunDone(me, i, lb, hash, w0, w, ok, lb')
  {
    var run := RunOf(me, lb, hash, i);
    if !Blind(w0, i, lb, hash) {
      NothingLost(w0, me, lb, hash, i);
      BystandersKept(w0, w, me, run, lb');
      NextReady(w, me, lb');
    }
    if ok && run.hashChanged && !i.needDelete { Arrives(run, w0, w, lb', groups, final); }
    if !run.hashChanged && OnPlan(w0, lb, i.listeners) { StaysOnPlan(w0, w, lb, i.listeners); }
  }

  lemma NextReady(w: World, me: Names.Owner, lb: Id)
    requires Homed(w) && KnownServers(w) && UniqueTagged(w) && Integrity(w) && Bystanders(w, me, lb) && NO_ID !in w.lbs
    ensures Ready(w, me, Next(w, lb))
  {
  }

  /** One run of the controller on the load balancer that its search found. */
  method RunOnce(cloud: Cloud, me: Names.Owner, i: Input, lb: Id, hash: Option<int>) returns (ok: bool, lb': Id)
    requires cloud.Valid() && Ready(cloud.w, me, lb) && i.Proper(me)
    modifies cloud
    ensures cloud.Valid() && cloud.Extends()
    ensures !ok ==> cloud.faulty || RunOf(me, lb, hash, i).Refused()
    ensures ok ==> cloud.faulty == old(cloud.faulty)
    ensures hash != Some(i.spec) && !i.needDelete && (if lb == NO_ID then i.hasIngress else i.fixedChanged) ==>
              !ok && cloud.w == old(cloud.w) && cloud.log == old(cloud.log)
    ensures RunDone(me, i, lb, hash, old(cloud.w), cloud.w, ok, lb')
    ensures !Blind(old(cloud.w), i, lb, hash) ==> AllIntact(cloud.log, |old(cloud.log)|)
  {
    ghost var w0 := cloud.w;
    var run := RunOf(me, lb, hash, i);
    var local := new LbModel(NO_ID, false, i.groups, i.listeners);
    var remote := new LbModel(lb, false, [], []);
    ghost var discarded;
    ok, discarded := Apply(cloud, run, local, remote);
    lb' := remote.lb;
    RunDoneIntro(me, i, lb, hash, w0, cloud.w, ok, lb', local.groups, local.listeners);
    if !Blind(w0, i, lb, hash) { NothingLost(w0, me, lb, hash, i); }
  }

  // ---------------------------------------------------------------------- histories

  /** The hash label before run `n`: a successful run whose patch succeeds stores the
      hash, or removes it when it cleans up. */
  function Label(inputs: seq<Input>, oks: seq<bool>, n: nat): Option<int>
    requires n <= |oks| <= |inputs|
  {
    if n == 0 then None
    else if oks[n - 1] && inputs[n - 1].stored then
      if inputs[n - 1].needDelete then None else Some(inputs[n - 1].spec)
    else Label(inputs, oks, n - 1)
  }

  /** The spec of the last run before `n` that found its hash changed. */
  function Tried(inputs: seq<Input>, oks: seq<bool>, n: nat): Option<int>
    requires n <= |oks| <= |inputs|
  {
    if n == 0 then None
    else if Label(inputs, oks, n - 1) != Some(inputs[n - 1].spec) then Some(inputs[n - 1].spec)
    else Tried(inputs, oks, n - 1)
  }

  /** Run `n` does not rely on a label that outlived a run for another spec. */
  predicate Steady(inputs: seq<Input>, oks: seq<bool>, n: nat)
    requires n < |inputs| && n <= |oks| <= |inputs|
  {
    Label(inputs, oks, n) == Some(inputs[n].spec) ==> Tried(inputs, oks, n) == Label(inputs, oks, n)
  }

  lemma {:induction false} Earlier(inputs: seq<Input>, oks: seq<bool>, ok: bool, n: nat)
    requires n <= |oks| < |inputs|
    ensures Label(inputs, oks + [ok], n) == Label(inputs, oks, n) && Tried(inputs, oks + [ok], n) == Tried(inputs, oks, n)
    decreases n
  {
    if n > 0 { Earlier(inputs, oks, ok, n - 1); }
  }

  /** A label that is the last spec tried tells that the listeners are on plan. */
  ghost predicate Anchored(inputs: seq<Input>, oks: seq<bool>, w: World, lb: Id)
    requires |oks| <= |inputs|
  {
    var label_, tried := Label(inputs, oks, |oks|), Tried(inputs, oks, |oks|);
    label_.Some? && tried == label_ ==>
      exists j :: 0 <= j < |oks| && inputs[j].spec == label_.value && lb in w.lbs && OnPlan(w, lb, inputs[j].listeners)
  }

  ghost predicate Consistent(inputs: seq<Input>, me: Names.Owner) {
    && (forall j :: 0 <= j < |inputs| ==> inputs[j].Proper(me))
    && (forall j, k :: 0 <= j < |inputs| && 0 <= k < |inputs| ==> SameModel(inputs[j], inputs[k]))
  }

  lemma AnchoredStep(inputs: seq<Input>, oks: seq<bool>, me: Names.Owner, w0: World, w: World, lb: Id, ok: bool, lb': Id)
    requires |oks| < |inputs| && Consistent(inputs, me) && Anchored(inputs, oks, w0, lb) && Steady(inputs, oks, |oks|)
    requires RunDone(me, inputs[|oks|], lb, Label(inputs, oks, |oks|), w0, w, ok, lb')
    ensures Anchored(inputs, oks + [ok], w, Next(w, lb'))
  {
    var n, i := |oks|, inputs[|oks|];
    Earlier(inputs, oks, ok, n);
    var after := oks + [ok];
    assert after[n] == ok;
    if Label(inputs, oks, n) == Some(i.spec) {
      PlanAhead(inputs, oks, me, w0, lb);
      if !i.needDelete { assert OnPlan(w, Next(w, lb'), inputs[n].listeners); }
    } else if ok && i.stored && !i.needDelete {
      assert OnPlan(w, Next(w, lb'), inputs[n].listeners);
    }
  }

  /** At a steady run with an unchanged hash the listeners are on plan. */
  lemma PlanAhead(inputs: seq<Input>, oks: seq<bool>, me: Names.Owner, w: World, lb: Id)
    requires |oks| < |inputs| && Consistent(inputs, me) && Anchored(inputs, oks, w, lb) && Steady(inputs, oks, |oks|)
    requires Label(inputs, oks, |oks|) == Some(inputs[|oks|].spec)
    ensures lb in w.lbs && OnPlan(w, lb, inputs[|oks|].listeners)
  {
    var j :| 0 <= j < |oks| && inputs[j].spec == inputs[|oks|].spec && lb in w.lbs && OnPlan(w, lb, inputs[j].listeners);
    assert SameModel(inputs[j], inputs[|oks|]);
  }

  /** Where run `n` started. */
  ghost predicate Visited(inputs: seq<Input>, oks: seq<bool>, me: Names.Owner, w: World, lb: Id, n: nat)
    requires n < |inputs| && n <= |oks| <= |inputs|
  {
    Ready(w, me, lb) && (Label(inputs, oks, n) == Some(inputs[n].spec) ==> OnPlan(w, lb, inputs[n].listeners))
  }

  ghost predicate AllVisited(inputs: seq<Input>, oks: seq<bool>, me: Names.Owner, worlds: seq<World>, lbs: seq<Id>)
    requires |oks| <= |inputs|
  {
    |worlds| == |oks| == |lbs| && forall n :: 0 <= n < |oks| ==> Visited(inputs, oks, me, worlds[n], lbs[n], n)
  }

  lemma VisitedStep(inputs: seq<Input>, oks: seq<bool>, me: Names.Owner, worlds: seq<World>, lbs: seq<Id>, w: World, lb: Id, ok: bool)
    requires |oks| < |inputs| && AllVisited(inputs, oks, me, worlds, lbs) && Visited(inputs, oks, me, w, lb, |oks|)
    ensures AllVisited(inputs, oks + [ok], me, worlds + [w], lbs + [lb])
  {
    forall n | 0 <= n <= |oks| ensures Visited(inputs, oks + [ok], me, (worlds + [w])[n], (lbs + [lb])[n], n) {
      Earlier(inputs, oks, ok, n);
    }
  }

  /** One steady run of a history. */
  method NextRun(cloud: Cloud, me: Names.Owner, inputs: seq<Input>, oks: seq<bool>, lb: Id) returns (ok: bool, lb': Id)
    requires cloud.Valid() && Ready(cloud.w, me, lb) && Consistent(inputs, me)
    requires |oks| < |inputs| && Anchored(inputs, oks, cloud.w, lb) && Steady(inputs, oks, |oks|)
    modifies cloud
    ensures cloud.Valid() && cloud.Extends() && Ready(cloud.w, me, lb') && AllIntact(cloud.log, |old(cloud.log)|)
    ensures Anchored(inputs, oks + [ok], cloud.w, lb')
    ensures Visited(inputs, oks, me, old(cloud.w), lb, |oks|)
  {
    ghost var w0 := cloud.w;
    var hash := Label(inputs, oks, |oks|);
    if hash == Some(inputs[|oks|].spec) { PlanAhead(inputs, oks, me, w0, lb); }
    var at;
    ok, at := RunOnce(cloud, me, inputs[|oks|], lb, hash);
    AnchoredStep(inputs, oks, me, w0, cloud.w, lb, ok, at);
    lb' := if at in cloud.w.lbs then at else NO_ID;
  }

  lemma IntactExtends(before: seq<Event>, log: seq<Event>, from: nat)
    requires before <= log && AllIntact(before, from) && AllIntact(log, |before|)
    ensures AllIntact(log, from)
  {
    forall i | from <= i < |log| ensures Integrity(log[i].after) {
      if i < |before| { assert log[i] == before[i]; }
    }
  }

  lemma AnchoredMoved(inputs: seq<Input>, oks: seq<bool>, w0: World, w: World, lb: Id)
    requires |oks| <= |inputs| && Anchored(inputs, oks, w0, lb) && (lb in w0.lbs ==> lb in w.lbs)
    requires forall listeners :: OnPlan(w0, lb, listeners) ==> OnPlan(w, lb, listeners)
    ensures Anchored(inputs, oks, w, lb)
  {
  }

  /** Any number of runs, up to the first that is not steady, with moves of others before
      each.  Referential integrity
      holds after every single call of all of them, and whenever a run skips the
      listeners because its hash is unchanged they are exactly the desired ones. */
  method Reconciles(cloud: Cloud, me: Names.Owner, inputs: seq<Input>, found: Id)
    returns (oks: seq<bool>, ghost worlds: seq<World>, ghost lbs: seq<Id>)
    requires cloud.Valid() && Ready(cloud.w, me, found) && Consistent(inputs, me)
    modifies cloud
    ensures cloud.Valid() && cloud.Extends() && |oks| <= |inputs|
    ensures |oks| == |inputs| || !Steady(inputs, oks, |oks|)
    ensures AllIntact(cloud.log, |old(cloud.log)|) && Integrity(cloud.w)
    ensures AllVisited(inputs, oks, me, worlds, lbs)
  {
    var lb := found;
    oks, worlds, lbs := [], [], [];
    while |oks| < |inputs| && Steady(inputs, oks, |oks|)
      invariant |oks| <= |inputs| && cloud.Valid() && cloud.Extends() && Ready(cloud.w, me, lb)
      invariant AllIntact(cloud.log, |old(cloud.log)|)
      invariant Anchored(inputs, oks, cloud.w, lb) && AllVisited(inputs, oks, me, worlds, lbs)
      decreases |inputs| - |oks|
    {
      ghost var w0 := cloud.w;
      OthersMove(cloud, me, lb);
      AnchoredMoved(inputs, oks, w0, cloud.w, lb);
      ghost var log1, w1, lb1 := cloud.log, cloud.w, lb;
      var ok;
      ok, lb := NextRun(cloud, me, inputs, oks, lb);
      IntactExtends(log1, cloud.log, |old(cloud.log)|);
      VisitedStep(inputs, oks, me, worlds, lbs, w1, lb1, ok);
      oks, worlds, lbs := oks + [ok], worlds + [w1], lbs + [lb1];
    }
  }

  /** A run for `a` that stores its label, then a run for `b`. */
  method TwoRuns(cloud: Cloud, me: Names.Owner, a: Input, b: Input) returns (ok: bool, lb: Id)
    requires cloud.Valid() && Ready(cloud.w, me, NO_ID) && a.Proper(me) && b.Proper(me)
    requires !a.needDelete && !b.needDelete && !a.hasIngress && !b.fixedChanged && a.spec != b.spec
    modifies cloud
    ensures cloud.Valid() && cloud.Extends() && (!ok ==> cloud.faulty) && (ok ==> cloud.faulty == old(cloud.faulty))
    ensures ok ==> Ready(cloud.w, me, lb) && lb in cloud.w.lbs && OnPlan(cloud.w, lb, b.listeners)
  {
    ok, lb := RunOnce(cloud, me, a, NO_ID, None);
    if ok { ok, lb := RunOnce(cloud, me, b, lb, Some(a.spec)); }
  }

  /** When a run for `a` stores its label and a run for `b` fails to, the next run for
      `a` finds its hash unchanged, and is not steady. */
  lemma StaleLabel(a: Input, b: Input, again: Input)
    requires a.stored && !b.stored && !a.needDelete && a.spec != b.spec && again.spec == a.spec
    ensures Label([a, b, again], [true, true], 2) == Some(a.spec)
    ensures !Steady([a, b, again], [true, true], 2)
  {
    var h := [a, b, again];
    assert h[0] == a && h[1] == b && h[2] == again;
    assert Label(h, [true, true], 1) == Some(a.spec);
    assert Tried(h, [true, true], 2) == Some(b.spec);
  }

  /** The shortest history that is not steady: a run for `a` stores its label, a run for
      `b` moves the listeners but its label patch fails, and the spec goes back to `a`.
      The hash is unchanged, so the listeners are skipped, and the cleanup takes the
      groups of `b` from under them: if no call fails, referential integrity is lost. */
  method RevertBreaks(cloud: Cloud, me: Names.Owner, a: Input, b: Input, again: Input, ghost k: nat)
    requires cloud.Valid() && Ready(cloud.w, me, NO_ID) && !cloud.faulty
    requires a.Proper(me) && b.Proper(me) && again.Proper(me) && a.stored && !b.stored
    requires !a.needDelete && !b.needDelete && !a.hasIngress && !b.fixedChanged && a.spec != b.spec
    requires again.spec == a.spec && SameModel(a, again)
    requires k < |b.listeners| && b.listeners[k].groupName !in WishedNames(again.groups)
    modifies cloud
    ensures cloud.Valid() && cloud.Extends()
    ensures !cloud.faulty ==> !Integrity(cloud.w)
  {
    OwnTarget(me, b, k);
    ghost var l := b.listeners[k];
    var ok, lb := TwoRuns(cloud, me, a, b);
    if ok {
      assert Served(cloud.w, lb, l);
      ok := BlindRun(cloud, me, again, lb, Some(a.spec), l);
    }
  }

  lemma OwnTarget(me: Names.Owner, i: Input, k: nat)
    requires i.Proper(me) && k < |i.listeners|
    ensures Names.ManagedGroup(me, i.listeners[k].groupName)
  {
    FirstNone(i.groups, i.listeners[k].groupName);
  }

  /** A run that skips the listeners while one of them serves another plan. */
  method BlindRun(cloud: Cloud, me: Names.Owner, i: Input, lb: Id, hash: Option<int>, ghost l: ListenerModel) returns (ok: bool)
    requires cloud.Valid() && Ready(cloud.w, me, lb) && i.Proper(me) && hash == Some(i.spec)
    requires Served(cloud.w, lb, l) && Names.ManagedGroup(me, l.groupName) && l.groupName !in WishedNames(i.groups)
    modifies cloud
    ensures cloud.Valid() && cloud.Extends() && (!ok ==> cloud.faulty) && (ok ==> cloud.faulty == old(cloud.faulty))
    ensures ok ==> !Integrity(cloud.w)
  {
    SomethingLost(cloud.w, me, lb, hash, i, l);
    var after;
    ok, after := RunOnce(cloud, me, i, lb, hash);
  }
}
