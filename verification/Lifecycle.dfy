/** The finalizer, hash-label and load-balancer protocol of the NLB service
    controller, as a transition system.  One step is one call of a reconcile
    run, with its outcome, or one move of the environment: user edits, the API
    server dropping the object, asynchronous deletion, other owners' load
    balancers, a crash of the controller. */
module Lifecycle {
  import opened Common

  type Id = nat

  /** Attributes that a load balancer keeps for life: address version and resource
      group, letter case aside.  An empty one is not asked for. */
  datatype Fixed = Fixed(ipVersion: string, resourceGroup: string)

  predicate Compatible(wanted: Fixed, actual: Fixed) {
    (wanted.ipVersion == "" || wanted.ipVersion == actual.ipVersion)
    && (wanted.resourceGroup == "" || wanted.resourceGroup == actual.resourceGroup)
  }

  /** What a new load balancer gets: the cloud fills in what was not asked for. */
  function Assigned(wanted: Fixed): (actual: Fixed)
    ensures Compatible(wanted, actual)
  {
    Fixed(if wanted.ipVersion == "" then "ipv4" else wanted.ipVersion,
          if wanted.resourceGroup == "" then "default" else wanted.resourceGroup)
  }

  /** What the service hash covers.  `buildable` says that a model can be built from the
      spec and the annotations: zones given, formats right.  `rest` stands for everything
      else; the id and name annotations are empty. */
  datatype Spec = Spec(wantsLB: bool, terminating: bool, buildable: bool, fixed: Fixed, rest: int)

  predicate NeedDelete(spec: Spec) {
    spec.terminating || !spec.wantsLB
  }

  /** The API object.  The hash is taken to be injective, so the label is
      modelled by the value that was hashed. */
  datatype Service = Service(spec: Spec, finalizer: bool, hash: Option<Spec>, ingress: bool)

  predicate HashChanged(svc: Service) {
    svc.hash.None? || svc.hash.value != svc.spec
  }

  /** A load balancer: its name and the values it carries for the ownership
      tag.  `deleting` is set when a delete request was accepted; the job that
      carries it out ends later, with or without success. */
  datatype LB = LB(name: string, tags: set<string>, deleting: bool, fixed: Fixed)

  /** Where the current run stands.  `clean` tells the cleanup path from the
      reconcile path; `snap` is the service object the run works on. */
  datatype PC =
    | Idle
    | Refresh
    | Build(snap: Service)
    | FindTag(clean: bool, snap: Service)
    | FindName(clean: bool, snap: Service)
    | Attribute(clean: bool, snap: Service, found: Option<Id>)
    | Tagging(clean: bool, snap: Service, id: Id)
    | Rest(clean: bool, snap: Service)
    | Label(snap: Service)
    | Status
    | Unlabel(snap: Service)
    | Unstatus(snap: Service)
    | Unfinalize

  /** `me` is the default load balancer name, which is also the tag value.
      `used` holds every load balancer id ever issued: ids are not reused. */
  datatype State = State(me: string, svc: Option<Service>, lbs: map<Id, LB>, used: set<Id>, pc: PC)

  datatype Lookup = Error | Nothing | Found(id: Id)

  datatype Step =
    // environment
    | UserEdits(spec: Spec)
    | ApiServerDrops
    | DeletionFinishes(id: Id)
    | DeletionFails(id: Id)
    | OthersChange(lbs: map<Id, LB>)
    | Crash
    // controller
    | Get(ok: bool)
    | AddFinalizer(outcome: Outcome)
    | BuildModel(ok: bool)
    | FindByTag(result: Lookup)
    | FindByName(result: Lookup)
    | ApplyAttribute(outcome: Outcome, newId: Id)
    | TagLB(outcome: Outcome)
    | ApplyRest(ok: bool)
    | AddLabel(outcome: Outcome)
    | SetStatus(effect: bool)
    | RemoveLabel(outcome: Outcome)
    | RemoveStatus(effect: bool, reported: bool)
    | RemoveFinalizer(outcome: Outcome)

  predicate Own(me: string, lb: LB) {
    lb.name == me || me in lb.tags
  }

  function Tagged(s: State): set<Id> {
    set i | i in s.lbs && s.me in s.lbs[i].tags
  }

  function Named(s: State): set<Id> {
    set i | i in s.lbs && s.lbs[i].name == s.me
  }

  /** A listing answers truthfully, fails, or, when it matches more than one
      load balancer, can only be an error. */
  predicate Answers(result: Lookup, matches: set<Id>) {
    match result
    case Error => true
    case Nothing => matches == {}
    case Found(id) => matches == {id}
  }

  /** Other owners never use this service's default name or tag value. */
  predicate OnlyOthersDiffer(s: State, lbs: map<Id, LB>) {
    && (lbs.Keys - s.lbs.Keys) !! s.used
    && (forall i :: i in s.lbs && Own(s.me, s.lbs[i]) ==> i in lbs && lbs[i] == s.lbs[i])
    && (forall i :: i in lbs && Own(s.me, lbs[i]) ==> i in s.lbs && lbs[i] == s.lbs[i])
  }

  predicate Enabled(s: State, step: Step) {
    match step
    case UserEdits(spec) => s.svc.Some? && (s.svc.value.spec.terminating ==> spec.terminating)
    case ApiServerDrops => s.svc.Some? && s.svc.value.spec.terminating && !s.svc.value.finalizer
    case DeletionFinishes(id) => id in s.lbs && s.lbs[id].deleting
    case DeletionFails(id) => id in s.lbs && s.lbs[id].deleting
    case OthersChange(lbs) => OnlyOthersDiffer(s, lbs)
    case Crash => true
    case Get(ok) => s.pc.Idle?
    case AddFinalizer(outcome) =>
      && s.pc.Refresh?
         // the API server refuses a new finalizer on a terminating object
      && (outcome.TakesEffect() ==>
            s.svc.Some? && (s.svc.value.spec.terminating ==> s.svc.value.finalizer))
    case BuildModel(ok) => s.pc.Build?
    case FindByTag(result) => s.pc.FindTag? && Answers(result, Tagged(s))
    case FindByName(result) => s.pc.FindName? && Answers(result, Named(s))
    case ApplyAttribute(outcome, newId) => s.pc.Attribute? && newId !in s.used
    case TagLB(outcome) => s.pc.Tagging?
    case ApplyRest(ok) => s.pc.Rest?
    case AddLabel(outcome) => s.pc.Label? && (outcome.TakesEffect() ==> s.svc.Some?)
    case SetStatus(effect) => s.pc.Status? && (effect ==> s.svc.Some?)
    case RemoveLabel(outcome) =>
      && s.pc.Unlabel?
      && (s.pc.snap.hash.Some? && outcome.TakesEffect() ==> s.svc.Some?)
    case RemoveStatus(effect, reported) => s.pc.Unstatus? && (effect ==> s.svc.Some?)
    case RemoveFinalizer(outcome) => s.pc.Unfinalize? && (outcome.TakesEffect() ==> s.svc.Some?)
  }

  /** An error ends the run, which is retried from scratch later. */
  function Abort(s: State): (r: State) {
    s.(pc := Idle)
  }

  function AfterApply(clean: bool, snap: Service): (pc: PC) {
    if clean then Unlabel(snap) else Label(snap)
  }

  /** `applyLoadBalancerAttribute`, entered only when the hash changed: delete, create,
      or update attributes that this model does not track.  Creation is refused while the
      status names a load balancer, and an update that would change a fixed attribute. */
  function ApplyAttributeStep(s: State, outcome: Outcome, newId: Id): (r: State)
    requires s.pc.Attribute?
  {
    var clean, snap, found := s.pc.clean, s.pc.snap, s.pc.found;
    if !HashChanged(snap) then
      s.(pc := Rest(clean, snap))
    else if NeedDelete(snap.spec) then
      match found
      case None => s.(pc := Rest(clean, snap))
      case Some(id) =>
        if id !in s.lbs then
          // ResourceNotFound.loadBalancer: swallowed by the cleanup path
          if clean then s.(pc := Unlabel(snap)) else Abort(s)
        else
          var s' := if outcome.TakesEffect() then s.(lbs := s.lbs[id := s.lbs[id].(deleting := true)]) else s;
          if outcome.Ok? then s'.(pc := Rest(clean, snap)) else Abort(s')
    else
      match found
      case None =>
        if snap.ingress then Abort(s)
        else
          var s' := if outcome.TakesEffect() then s.(lbs := s.lbs[newId := LB(s.me, {}, false, Assigned(snap.spec.fixed))], used := s.used + {newId}) else s;
          if outcome.Ok? then s'.(pc := Tagging(clean, snap, newId)) else Abort(s')
      case Some(id) =>
        if id in s.lbs && !Compatible(snap.spec.fixed, s.lbs[id].fixed) then Abort(s)
        else if outcome.Ok? then s.(pc := Rest(clean, snap)) else Abort(s)
  }

  /** The status patch. */
  function WithIngress(s: State, ingress: bool, effect: bool): (r: State)
    requires effect ==> s.svc.Some?
  {
    if effect then s.(svc := Some(s.svc.value.(ingress := ingress))) else s
  }

  function After(s: State, step: Step): (r: State)
    requires Enabled(s, step)
  {
    match step
    case UserEdits(spec) => s.(svc := Some(s.svc.value.(spec := spec)))
    case ApiServerDrops => s.(svc := None)
    case DeletionFinishes(id) => s.(lbs := s.lbs - {id})
    case DeletionFails(id) => s.(lbs := s.lbs[id := s.lbs[id].(deleting := false)])
    case OthersChange(lbs) => s.(lbs := lbs, used := s.used + lbs.Keys)
    case Crash => Abort(s)
    case Get(ok) =>
      // a failed read leaves an empty object, which needs no load balancer and
      // carries no finalizer: the run ends without any further call
      if !ok || s.svc.None? then s
      else if !NeedDelete(s.svc.value.spec) then s.(pc := Refresh)
      else if s.svc.value.finalizer then s.(pc := FindTag(true, s.svc.value))
      else s
    case AddFinalizer(outcome) =>
      if !outcome.TakesEffect() then Abort(s)
      else
        var svc := s.svc.value.(finalizer := true);
        var s' := s.(svc := Some(svc));
        if outcome.Ok? then s'.(pc := Build(svc)) else Abort(s')
    case BuildModel(ok) =>
      // a model for deletion is empty
      if NeedDelete(s.pc.snap.spec) || (s.pc.snap.spec.buildable && ok) then s.(pc := FindTag(false, s.pc.snap)) else Abort(s)
    case FindByTag(result) =>
      (match result
       case Error => Abort(s)
       case Nothing => s.(pc := FindName(s.pc.clean, s.pc.snap))
       case Found(id) => s.(pc := Attribute(s.pc.clean, s.pc.snap, Some(id))))
    case FindByName(result) =>
      (match result
       case Error => Abort(s)
       case Nothing => s.(pc := Attribute(s.pc.clean, s.pc.snap, None))
       case Found(id) => s.(pc := Attribute(s.pc.clean, s.pc.snap, Some(id))))
    case ApplyAttribute(outcome, newId) => ApplyAttributeStep(s, outcome, newId)
    case TagLB(outcome) =>
      var id := s.pc.id;
      var s' := if outcome.TakesEffect() && id in s.lbs
                then s.(lbs := s.lbs[id := s.lbs[id].(tags := s.lbs[id].tags + {s.me})]) else s;
      if outcome.Ok? then s'.(pc := Rest(s.pc.clean, s.pc.snap)) else Abort(s')
    case ApplyRest(ok) => if ok then s.(pc := AfterApply(s.pc.clean, s.pc.snap)) else Abort(s)
    case AddLabel(outcome) =>
      var s' := if outcome.TakesEffect() then s.(svc := Some(s.svc.value.(hash := Some(s.pc.snap.spec)))) else s;
      if outcome.Ok? then s'.(pc := Status) else Abort(s')
    case SetStatus(effect) => Abort(WithIngress(s, true, effect))
    case RemoveLabel(outcome) =>
      if s.pc.snap.hash.None? then s.(pc := Unstatus(s.pc.snap))
      else
        var s' := if outcome.TakesEffect() then s.(svc := Some(s.svc.value.(hash := None))) else s;
        if outcome.Ok? then s'.(pc := Unstatus(s.pc.snap)) else Abort(s')
    case RemoveStatus(effect, reported) =>
      // most failures of this call are not reported, and the run goes on
      if !s.pc.snap.ingress then s.(pc := Unfinalize)
      else
        var s' := WithIngress(s, false, effect);
        if reported then Abort(s') else s'.(pc := Unfinalize)
    case RemoveFinalizer(outcome) =>
      Abort(if outcome.TakesEffect() then s.(svc := Some(s.svc.value.(finalizer := false))) else s)
  }

  // ---------------------------------------------------------------- runs

  predicate Runnable(s: State, steps: seq<Step>)
    decreases |steps|
  {
    steps == [] || (Enabled(s, steps[0]) && Runnable(After(s, steps[0]), steps[1..]))
  }

  /** The state a sequence of steps leads to. */
  function Exec(s: State, steps: seq<Step>): (r: State)
    requires Runnable(s, steps)
    decreases |steps|
  {
    if steps == [] then s else Exec(After(s, steps[0]), steps[1..])
  }

  /** The service does not stop needing its load balancer between the read that
      chose the reconcile path and the second read made by AddFinalizers. */
  predicate Calm(s: State, step: Step) {
    step.AddFinalizer? && step.outcome.Ok? && s.svc.Some? ==> !NeedDelete(s.svc.value.spec)
  }

  predicate CalmRun(s: State, steps: seq<Step>)
    requires Runnable(s, steps)
    decreases |steps|
  {
    steps == [] || (Calm(s, steps[0]) && CalmRun(After(s, steps[0]), steps[1..]))
  }

  /** A new service: no finalizer, no label, and no load balancer of its own. */
  predicate Init(s: State) {
    && s.pc.Idle? && s.lbs.Keys <= s.used
    && s.svc.Some? && !s.svc.value.finalizer && s.svc.value.hash.None?
    && forall i :: i in s.lbs ==> !Own(s.me, s.lbs[i])
  }

  predicate AtMostOne(s: State) {
    forall i, j :: i in s.lbs && j in s.lbs && Own(s.me, s.lbs[i]) && Own(s.me, s.lbs[j]) ==> i == j
  }

  predicate NoLiveOwn(s: State) {
    forall i :: i in s.lbs && Own(s.me, s.lbs[i]) ==> s.lbs[i].deleting
  }

  predicate NoOwn(s: State) {
    forall i :: i in s.lbs ==> !Own(s.me, s.lbs[i])
  }

  /** A live load balancer of this service implies the finalizer, so the service
      object outlives it and a cleanup run will still happen. */
  predicate NoLeak(s: State) {
    NoLiveOwn(s) || (s.svc.Some? && s.svc.value.finalizer)
  }

  predicate OwnId(s: State, id: Id) {
    id in s.used && (id in s.lbs ==> Own(s.me, s.lbs[id]))
  }

  /** What a run knows from its searches.  It holds in every run. */
  predicate SearchInv(s: State) {
    && AtMostOne(s) && s.lbs.Keys <= s.used
    && (s.pc.FindName? ==> Tagged(s) == {})
    && (s.pc.Attribute? ==>
          && (forall i :: i in s.lbs && Own(s.me, s.lbs[i]) ==> s.pc.found == Some(i))
          && (s.pc.found.Some? ==> OwnId(s, s.pc.found.value)))
    && (s.pc.Tagging? ==> OwnId(s, s.pc.id))
  }

  /** The run cleans up and will reach the finalizer without deleting anything more:
      it is past the delete, or its hash is unchanged. */
  predicate Committed(pc: PC) {
    match pc
    case FindTag(clean, snap) => clean && !HashChanged(snap)
    case FindName(clean, snap) => clean && !HashChanged(snap)
    case Attribute(clean, snap, found) => clean && !HashChanged(snap)
    case Rest(clean, snap) => clean
    case _ => pc.Unlabel? || pc.Unstatus? || pc.Unfinalize?
  }

  predicate Searching(pc: PC) {
    pc.FindTag? || pc.FindName? || pc.Attribute?
  }

  /** The run is on the reconcile path and has added the finalizer. */
  predicate Reconciling(pc: PC) {
    || ((Searching(pc) || pc.Rest?) && !pc.clean)
    || pc.Build? || pc.Tagging? || pc.Label? || pc.Status?
  }

  predicate HasFinalizer(s: State) {
    s.svc.Some? && s.svc.value.finalizer
  }

  /** What a run knows about the finalizer and the load balancer.  It needs guarded
      steps. */
  predicate LeakInv(s: State) {
    && NoLeak(s)
    && (Committed(s.pc) ==> NoLiveOwn(s))
    && (Searching(s.pc) && s.pc.clean ==> NeedDelete(s.pc.snap.spec))
    && (s.pc.Tagging? ==> !s.pc.clean)
    && (Reconciling(s.pc) ==> HasFinalizer(s))
  }

  /** The guard of the branch that can leak.  A cleanup starts only with a changed
      hash or without a live load balancer, and a deletion job fails only while the
      finalizer is there and no cleanup relies on it. */
  predicate Guarded(s: State, step: Step) {
    match step
    case Get(ok) =>
      ok && HasFinalizer(s) && NeedDelete(s.svc.value.spec) ==> HashChanged(s.svc.value) || NoLiveOwn(s)
    case DeletionFails(id) =>
      id in s.lbs && Own(s.me, s.lbs[id]) ==> HasFinalizer(s) && !Committed(s.pc)
    case _ => true
  }

  predicate GuardedRun(s: State, steps: seq<Step>)
    requires Runnable(s, steps)
    decreases |steps|
  {
    steps == [] || (Guarded(s, steps[0]) && GuardedRun(After(s, steps[0]), steps[1..]))
  }

  // ------------------------------------------------------- every step keeps it

  /** A move of the environment. */
  predicate External(step: Step) {
    step.UserEdits? || step.ApiServerDrops? || step.DeletionFinishes? || step.DeletionFails? || step.OthersChange? || step.Crash?
  }

  /** A call on the service object. */
  predicate OnService(step: Step) {
    || step.Get? || step.AddFinalizer? || step.BuildModel? || step.ApplyRest? || step.AddLabel? || step.SetStatus?
    || step.RemoveLabel? || step.RemoveStatus? || step.RemoveFinalizer?
  }

  lemma SearchInvExternal(s: State, step: Step)
    requires SearchInv(s) && Enabled(s, step) && External(step)
    ensures SearchInv(After(s, step))
  {
  }

  /** The step leaves the load balancers alone and does not enter the searches. */
  predicate Outside(s: State, t: State) {
    t.lbs == s.lbs && t.used == s.used && t.me == s.me && !t.pc.FindName? && !t.pc.Attribute? && !t.pc.Tagging?
  }

  lemma OnServiceOutside(s: State, step: Step)
    requires Enabled(s, step) && OnService(step)
    ensures Outside(s, After(s, step))
  {
  }

  lemma SearchInvOutside(s: State, t: State)
    requires SearchInv(s) && Outside(s, t)
    ensures SearchInv(t)
  {
  }

  lemma SearchInvLookup(s: State, step: Step)
    requires SearchInv(s) && Enabled(s, step) && (step.FindByTag? || step.FindByName?)
    ensures SearchInv(After(s, step))
  {
    if step.result.Found? {
      assert step.result.id in if step.FindByTag? then Tagged(s) else Named(s);
    }
    forall i | i in s.lbs && Own(s.me, s.lbs[i]) ensures i in Tagged(s) || i in Named(s) {}
  }

  /** No load balancer came, and none became this service's. */
  predicate NoneGained(s: State, t: State) {
    && t.me == s.me && t.used == s.used && t.lbs.Keys <= s.lbs.Keys
    && (forall i :: i in t.lbs && Own(t.me, t.lbs[i]) ==> Own(s.me, s.lbs[i]))
    && !Searching(t.pc) && !t.pc.Tagging?
  }

  lemma SearchInvNoneGained(s: State, t: State)
    requires SearchInv(s) && NoneGained(s, t)
    ensures SearchInv(t)
  {
  }

  lemma SearchInvTag(s: State, step: Step)
    requires SearchInv(s) && Enabled(s, step) && step.TagLB?
    ensures SearchInv(After(s, step))
  {
    assert NoneGained(s, After(s, step));
    SearchInvNoneGained(s, After(s, step));
  }

  lemma SearchInvApply(s: State, step: Step)
    requires SearchInv(s) && Enabled(s, step) && step.ApplyAttribute?
    ensures SearchInv(After(s, step))
  {
    var snap := s.pc.snap;
    if HashChanged(snap) && !NeedDelete(snap.spec) && s.pc.found.None? {
      SearchInvCreate(s, step.outcome, step.newId);
    } else {
      assert NoneGained(s, After(s, step));
      SearchInvNoneGained(s, After(s, step));
    }
  }

  lemma SearchInvCreate(s: State, outcome: Outcome, newId: Id)
    requires SearchInv(s) && s.pc.Attribute? && s.pc.found.None? && newId !in s.used
    requires HashChanged(s.pc.snap) && !NeedDelete(s.pc.snap.spec)
    ensures SearchInv(ApplyAttributeStep(s, outcome, newId))
  {
    assert forall i :: i in s.lbs ==> !Own(s.me, s.lbs[i]);
  }

  lemma SearchInvStep(s: State, step: Step)
    requires SearchInv(s) && Enabled(s, step)
    ensures SearchInv(After(s, step))
  {
    if External(step) {
      SearchInvExternal(s, step);
    } else if OnService(step) {
      OnServiceOutside(s, step);
      SearchInvOutside(s, After(s, step));
    } else if step.FindByTag? || step.FindByName? {
      SearchInvLookup(s, step);
    } else if step.TagLB? {
      SearchInvTag(s, step);
    } else {
      SearchInvApply(s, step);
    }
  }

  lemma LeakInvExternal(s: State, step: Step)
    requires LeakInv(s) && Enabled(s, step) && Guarded(s, step) && External(step)
    ensures LeakInv(After(s, step))
  {
  }

  lemma LeakInvReconciling(s: State, step: Step)
    requires LeakInv(s) && Enabled(s, step) && Guarded(s, step)
    requires step.Get? || step.AddFinalizer? || step.BuildModel? || step.ApplyRest? || step.AddLabel? || step.SetStatus?
    ensures LeakInv(After(s, step))
  {
  }

  lemma LeakInvRemoving(s: State, step: Step)
    requires LeakInv(s) && Enabled(s, step)
    requires step.RemoveLabel? || step.RemoveStatus? || step.RemoveFinalizer?
    ensures LeakInv(After(s, step))
  {
  }

  lemma LeakInvLookup(s: State, step: Step)
    requires LeakInv(s) && Enabled(s, step) && (step.FindByTag? || step.FindByName?)
    ensures LeakInv(After(s, step))
  {
  }

  lemma LeakInvOnCloud(s: State, step: Step)
    requires SearchInv(s) && LeakInv(s) && Enabled(s, step) && (step.ApplyAttribute? || step.TagLB?)
    ensures LeakInv(After(s, step))
  {
  }

  lemma LeakInvStep(s: State, step: Step)
    requires SearchInv(s) && LeakInv(s) && Enabled(s, step) && Guarded(s, step)
    ensures LeakInv(After(s, step))
  {
    if External(step) {
      LeakInvExternal(s, step);
    } else if OnService(step) {
      if step.RemoveLabel? || step.RemoveStatus? || step.RemoveFinalizer? {
        LeakInvRemoving(s, step);
      } else {
        LeakInvReconciling(s, step);
      }
    } else if step.FindByTag? || step.FindByName? {
      LeakInvLookup(s, step);
    } else {
      LeakInvOnCloud(s, step);
    }
  }

  // ---------------------------------------------------------- whole histories

  lemma {:induction false} SearchInvExec(s: State, steps: seq<Step>)
    requires SearchInv(s) && Runnable(s, steps)
    ensures SearchInv(Exec(s, steps))
    decreases |steps|
  {
    if steps != [] {
      SearchInvStep(s, steps[0]);
      SearchInvExec(After(s, steps[0]), steps[1..]);
    }
  }

  lemma {:induction false} LeakInvExec(s: State, steps: seq<Step>)
    requires SearchInv(s) && LeakInv(s) && Runnable(s, steps) && GuardedRun(s, steps)
    ensures LeakInv(Exec(s, steps))
    decreases |steps|
  {
    if steps != [] {
      SearchInvStep(s, steps[0]);
      LeakInvStep(s, steps[0]);
      LeakInvExec(After(s, steps[0]), steps[1..]);
    }
  }

  /** In every reachable state, whatever calls failed or took effect unseen,
      the service has at most one load balancer. */
  lemma AtMostOneAlways(s: State, steps: seq<Step>)
    requires Init(s) && Runnable(s, steps)
    ensures AtMostOne(Exec(s, steps))
  {
    SearchInvExec(s, steps);
  }

  /** In every state that guarded steps lead to, a live load balancer of the service
      implies that the service object exists and carries the finalizer. */
  lemma NoLeakAlways(s: State, steps: seq<Step>)
    requires Init(s) && Runnable(s, steps) && GuardedRun(s, steps)
    ensures NoLeak(Exec(s, steps))
  {
    LeakInvExec(s, steps);
  }

  lemma {:induction false} ExecExtends(s: State, steps: seq<Step>, step: Step)
    requires Runnable(s, steps) && Enabled(Exec(s, steps), step)
    ensures Runnable(s, steps + [step])
    ensures Exec(s, steps + [step]) == After(Exec(s, steps), step)
    decreases |steps|
  {
    if steps == [] {
      assert [step][1..] == [];
    } else {
      ExecExtends(After(s, steps[0]), steps[1..], step);
      assert (steps + [step])[1..] == steps[1..] + [step];
    }
  }

  lemma {:induction false} RunnablePrefix(s: State, steps: seq<Step>, k: nat)
    requires Runnable(s, steps) && k <= |steps|
    ensures Runnable(s, steps[..k])
    decreases k
  {
    if k > 0 {
      RunnablePrefix(After(s, steps[0]), steps[1..], k - 1);
      assert steps[..k][1..] == steps[1..][..k - 1];
    }
  }

  lemma {:induction false} ExecConcat(s: State, a: seq<Step>, b: seq<Step>)
    requires Runnable(s, a) && Runnable(Exec(s, a), b)
    ensures Runnable(s, a + b) && Exec(s, a + b) == Exec(Exec(s, a), b)
    decreases |a|
  {
    if a == [] {
      assert a + b == b;
    } else {
      ExecConcat(After(s, a[0]), a[1..], b);
      assert (a + b)[1..] == a[1..] + b;
    }
  }

  // ------------------------------------------------------------- the guard is exact

  /** A step of the current run, or of the environment while no deletion job fails. */
  predicate WithinRun(step: Step) {
    !step.Get? && !step.DeletionFails?
  }

  /** The current run can still lead to a leak, whatever outcomes that takes. */
  ghost predicate CanLeak(s: State) {
    exists steps: seq<Step> :: LeaksBy(s, steps)
  }

  ghost predicate LeaksBy(s: State, steps: seq<Step>) {
    && (forall i :: 0 <= i < |steps| ==> WithinRun(steps[i]))
    && Runnable(s, steps) && !NoLeak(Exec(s, steps))
  }

  lemma CanLeakNow(s: State)
    requires !NoLeak(s)
    ensures CanLeak(s)
  {
    assert LeaksBy(s, []);
  }

  lemma CanLeakBefore(s: State, step: Step)
    requires WithinRun(step) && Enabled(s, step) && CanLeak(After(s, step))
    ensures CanLeak(s)
  {
    var steps: seq<Step> :| LeaksBy(After(s, step), steps);
    assert ([step] + steps)[1..] == steps;
    assert LeaksBy(s, [step] + steps);
  }

  lemma NewIdExists(used: set<Id>) returns (id: Id)
    ensures id !in used
  {
    id := 0;
    var rest := used;
    while rest != {}
      invariant forall x :: x in used && x !in rest ==> x < id
      decreases rest
    {
      var x :| x in rest;
      if x >= id { id := x + 1; }
      rest := rest - {x};
    }
  }

  /** Once committed, a cleanup whose calls all succeed gives up the finalizer. */
  lemma CommittedRemoves(s: State)
    requires !NoLiveOwn(s) && (s.pc.Unlabel? || s.pc.Unstatus? || s.pc.Unfinalize?)
    ensures CanLeak(s)
    decreases if s.pc.Unlabel? then 2 else if s.pc.Unstatus? then 1 else 0
  {
    if !HasFinalizer(s) {
      CanLeakNow(s);
    } else if s.pc.Unfinalize? {
      CanLeakNow(After(s, RemoveFinalizer(Ok)));
      CanLeakBefore(s, RemoveFinalizer(Ok));
    } else {
      var step := if s.pc.Unlabel? then RemoveLabel(Ok) else RemoveStatus(true, false);
      CommittedRemoves(After(s, step));
      CanLeakBefore(s, step);
    }
  }

  lemma CommittedSearches(s: State)
    requires SearchInv(s) && !NoLiveOwn(s) && Committed(s.pc) && (s.pc.Attribute? || s.pc.Rest?)
    ensures CanLeak(s)
    decreases if s.pc.Attribute? then 1 else 0
  {
    if s.pc.Rest? {
      CommittedRemoves(After(s, ApplyRest(true)));
      CanLeakBefore(s, ApplyRest(true));
    } else {
      var newId := NewIdExists(s.used);
      var step := ApplyAttribute(Ok, newId);
      SearchInvStep(s, step);
      CommittedSearches(After(s, step));
      CanLeakBefore(s, step);
    }
  }

  lemma CommittedCanLeak(s: State)
    requires SearchInv(s) && !NoLiveOwn(s) && Committed(s.pc)
    ensures CanLeak(s)
    decreases if s.pc.FindTag? then 1 else 0
  {
    if s.pc.Unlabel? || s.pc.Unstatus? || s.pc.Unfinalize? {
      CommittedRemoves(s);
    } else if s.pc.Attribute? || s.pc.Rest? {
      CommittedSearches(s);
    } else {
      var id :| id in s.lbs && Own(s.me, s.lbs[id]) && !s.lbs[id].deleting;
      var step := SearchFor(s, id);
      SearchInvStep(s, step);
      if After(s, step).pc.FindName? {
        CommittedCanLeak(After(s, step));
      } else {
        CommittedSearches(After(s, step));
      }
      CanLeakBefore(s, step);
    }
  }

  /** The truthful answer of a search while `id` is the one own load balancer. */
  ghost function SearchFor(s: State, id: Id): (step: Step)
    requires SearchInv(s) && (s.pc.FindTag? || s.pc.FindName?) && id in s.lbs && Own(s.me, s.lbs[id])
    ensures Enabled(s, step) && WithinRun(step)
  {
    var matches := if s.pc.FindTag? then Tagged(s) else Named(s);
    assert matches <= {id};
    assert matches == {} || matches == {id};
    var result := if matches == {} then Nothing else Found(id);
    if s.pc.FindTag? then FindByTag(result) else FindByName(result)
  }

  lemma {:induction false} WithinRunGuarded(s: State, steps: seq<Step>)
    requires Runnable(s, steps) && forall i :: 0 <= i < |steps| ==> WithinRun(steps[i])
    ensures GuardedRun(s, steps)
    decreases |steps|
  {
    if steps != [] { WithinRunGuarded(After(s, steps[0]), steps[1..]); }
  }

  lemma CannotLeak(s: State)
    requires SearchInv(s) && LeakInv(s)
    ensures !CanLeak(s)
  {
    if CanLeak(s) {
      var steps: seq<Step> :| LeaksBy(s, steps);
      WithinRunGuarded(s, steps);
      LeakInvExec(s, steps);
    }
  }

  /** A step is guarded exactly when the run that follows cannot leak. */
  lemma GuardExact(s: State, step: Step)
    requires SearchInv(s) && LeakInv(s) && Enabled(s, step)
    ensures Guarded(s, step) <==> !CanLeak(After(s, step))
  {
    var t := After(s, step);
    SearchInvStep(s, step);
    if Guarded(s, step) {
      LeakInvStep(s, step);
      CannotLeak(t);
    } else if step.Get? || HasFinalizer(s) {
      assert !NoLiveOwn(t) by {
        if step.Get? {
          assert t.lbs == s.lbs && t.me == s.me;
        } else {
          assert step.id in t.lbs && Own(t.me, t.lbs[step.id]) && !t.lbs[step.id].deleting;
        }
      }
      CommittedCanLeak(t);
    } else {
      assert step.id in t.lbs && Own(t.me, t.lbs[step.id]) && !t.lbs[step.id].deleting;
      CanLeakNow(t);
    }
  }

  ghost predicate NeverCanLeak(s: State, steps: seq<Step>)
    requires Runnable(s, steps)
    decreases |steps|
  {
    !CanLeak(s) && (steps == [] || NeverCanLeak(After(s, steps[0]), steps[1..]))
  }

  lemma {:induction false} GuardedExactlyFrom(s: State, steps: seq<Step>)
    requires SearchInv(s) && LeakInv(s) && Runnable(s, steps)
    ensures GuardedRun(s, steps) <==> NeverCanLeak(s, steps)
    decreases |steps|
  {
    CannotLeak(s);
    if steps != [] {
      GuardExact(s, steps[0]);
      SearchInvStep(s, steps[0]);
      if Guarded(s, steps[0]) {
        LeakInvStep(s, steps[0]);
        GuardedExactlyFrom(After(s, steps[0]), steps[1..]);
      }
    }
  }

  /** Over whole histories of a new service: all steps are guarded if and only if no
      state on the way is one from which the run at work can leak. */
  lemma GuardedExactly(s: State, steps: seq<Step>)
    requires Init(s) && Runnable(s, steps)
    ensures GuardedRun(s, steps) <==> NeverCanLeak(s, steps)
  {
    GuardedExactlyFrom(s, steps);
  }

  // ---------------------------------------------------------------------- calm runs

  predicate GoodHash(svc: Service) {
    svc.hash.Some? ==> !NeedDelete(svc.hash.value)
  }

  /** Stored hashes come from states that did not need deletion. */
  predicate HashInv(s: State) {
    && (s.svc.Some? ==> GoodHash(s.svc.value))
    && (Reconciling(s.pc) && !s.pc.Status? ==> !NeedDelete(s.pc.snap.spec))
  }

  lemma HashInvStep(s: State, step: Step)
    requires HashInv(s) && Enabled(s, step) && Calm(s, step)
    ensures HashInv(After(s, step))
  {
  }

  /** Deletion jobs fail only where the guard allows it. */
  predicate JobsGuarded(s: State, steps: seq<Step>)
    requires Runnable(s, steps)
    decreases |steps|
  {
    steps == [] || ((steps[0].DeletionFails? ==> Guarded(s, steps[0])) && JobsGuarded(After(s, steps[0]), steps[1..]))
  }

  lemma {:induction false} CalmIsGuardedFrom(s: State, steps: seq<Step>)
    requires HashInv(s) && Runnable(s, steps) && CalmRun(s, steps) && JobsGuarded(s, steps)
    ensures GuardedRun(s, steps)
    decreases |steps|
  {
    if steps != [] {
      HashInvStep(s, steps[0]);
      CalmIsGuardedFrom(After(s, steps[0]), steps[1..]);
    }
  }

  /** A service that does not stop needing its load balancer between the two reads of
      a run never meets the shortcut. */
  lemma CalmIsGuarded(s: State, steps: seq<Step>)
    requires Init(s) && Runnable(s, steps) && CalmRun(s, steps) && JobsGuarded(s, steps)
    ensures GuardedRun(s, steps) && NoLeak(Exec(s, steps))
  {
    CalmIsGuardedFrom(s, steps);
    NoLeakAlways(s, steps);
  }
}
