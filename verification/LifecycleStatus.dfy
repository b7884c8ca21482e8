/** What follows when the status is not cleared.  Removing the status does not report most
    failures, so a cleanup can complete while the ingress entry stays.  When the service
    wants a load balancer again, the entry makes every run refuse to create one. */
module LifecycleStatus {
  import opened Common
  import opened Lifecycle

  /** The service wants a load balancer, has none, and its status still names one. */
  predicate Stuck(s: State) {
    && s.svc.Some? && Bare(s.svc.value) && NoOwn(s)
    && match s.pc
       case Idle => true
       case Refresh => true
       case Build(snap) => Bare(snap)
       case FindTag(clean, snap) => !clean && Bare(snap)
       case FindName(clean, snap) => !clean && Bare(snap)
       case Attribute(clean, snap, found) => !clean && Bare(snap) && found.None?
       case _ => false
  }

  predicate Bare(svc: Service) {
    !NeedDelete(svc.spec) && svc.hash.None? && svc.ingress
  }

  /** The service goes on wanting its load balancer. */
  predicate StillWanted(step: Step) {
    step.UserEdits? ==> !NeedDelete(step.spec)
  }

  lemma StuckStep(s: State, step: Step)
    requires Stuck(s) && Enabled(s, step) && StillWanted(step)
    ensures Stuck(After(s, step))
  {
    assert Tagged(s) == {} && Named(s) == {};
  }

  /** No run ever creates it, whatever its calls do, as long as it is wanted. */
  lemma {:induction false} StuckForever(s: State, steps: seq<Step>)
    requires Stuck(s) && Runnable(s, steps) && forall i :: 0 <= i < |steps| ==> StillWanted(steps[i])
    ensures Stuck(Exec(s, steps))
    decreases |steps|
  {
    if steps != [] {
      StuckStep(s, steps[0]);
      StuckForever(After(s, steps[0]), steps[1..]);
    }
  }

  // ------------------------------------------------------------------- how it comes about

  /** No crash, no failed deletion job, and no failed call but the status patch. */
  predicate OnlyStatusFails(step: Step) {
    match step
    case Crash => false
    case DeletionFails(id) => false
    case Get(ok) => ok
    case FindByTag(result) => !result.Error?
    case FindByName(result) => !result.Error?
    case ApplyAttribute(outcome, newId) => outcome.Ok?
    case ApplyRest(ok) => ok
    case RemoveLabel(outcome) => outcome.Ok?
    case RemoveFinalizer(outcome) => outcome.Ok?
    case _ => true
  }

  ghost predicate SticksBy(s: State, steps: seq<Step>) {
    (forall i :: 0 <= i < |steps| ==> OnlyStatusFails(steps[i])) && Runnable(s, steps) && Stuck(Exec(s, steps))
  }

  ghost predicate CanStick(s: State) {
    exists steps: seq<Step> :: SticksBy(s, steps)
  }

  lemma CanStickBefore(s: State, step: Step)
    requires Enabled(s, step) && OnlyStatusFails(step) && CanStick(After(s, step))
    ensures CanStick(s)
  {
    var steps: seq<Step> :| SticksBy(After(s, step), steps);
    assert ([step] + steps)[1..] == steps;
    assert SticksBy(s, [step] + steps);
  }

  /** An unwanting service that can be edited, with its ingress entry. */
  predicate Ripe(svc: Service) {
    NeedDelete(svc.spec) && !svc.spec.terminating && svc.ingress
  }

  /** After the cleanup: the deletion job finishes, and the service is wanted again. */
  lemma AfterCleanup(s: State, on: Spec)
    requires SearchInv(s) && s.pc.Idle? && NoLiveOwn(s) && !NeedDelete(on)
    requires s.svc.Some? && Ripe(s.svc.value) && s.svc.value.hash.None?
    ensures CanStick(s)
    decreases s.lbs.Keys
  {
    if NoOwn(s) {
      var t := After(s, UserEdits(on));
      assert SticksBy(t, []);
      CanStickBefore(s, UserEdits(on));
    } else {
      var id :| id in s.lbs && Own(s.me, s.lbs[id]);
      var step := DeletionFinishes(id);
      SearchInvStep(s, step);
      assert id !in After(s, step).lbs;
      AfterCleanup(After(s, step), on);
      CanStickBefore(s, step);
    }
  }

  /** A cleanup past its delete: the status patch has no effect and is not reported. */
  lemma Removing(s: State, on: Spec)
    requires SearchInv(s) && NoLiveOwn(s) && !NeedDelete(on) && s.svc.Some? && Ripe(s.svc.value)
    requires s.pc.Unlabel? || s.pc.Unstatus? || s.pc.Unfinalize?
    requires s.pc.Unlabel? ==> s.pc.snap == s.svc.value
    requires s.pc.Unstatus? || s.pc.Unfinalize? ==> s.svc.value.hash.None?
    ensures CanStick(s)
    decreases if s.pc.Unlabel? then 2 else if s.pc.Unstatus? then 1 else 0
  {
    var step := if s.pc.Unlabel? then RemoveLabel(Ok) else if s.pc.Unstatus? then RemoveStatus(false, false) else RemoveFinalizer(Ok);
    SearchInvStep(s, step);
    if s.pc.Unfinalize? { AfterCleanup(After(s, step), on); } else { Removing(After(s, step), on); }
    CanStickBefore(s, step);
  }

  lemma Deleting(s: State, on: Spec)
    requires SearchInv(s) && !NeedDelete(on) && s.svc.Some? && Ripe(s.svc.value) && HashChanged(s.svc.value)
    requires (s.pc.Attribute? || s.pc.Rest?) && s.pc.clean && s.pc.snap == s.svc.value
    requires s.pc.Rest? ==> NoLiveOwn(s)
    ensures CanStick(s)
    decreases if s.pc.Attribute? then 1 else 0
  {
    if s.pc.Rest? {
      SearchInvStep(s, ApplyRest(true));
      Removing(After(s, ApplyRest(true)), on);
      CanStickBefore(s, ApplyRest(true));
    } else {
      var newId := NewIdExists(s.used);
      var step := ApplyAttribute(Ok, newId);
      SearchInvStep(s, step);
      if After(s, step).pc.Rest? { Deleting(After(s, step), on); } else { Removing(After(s, step), on); }
      CanStickBefore(s, step);
    }
  }

  lemma Finding(s: State, id: Id, on: Spec)
    requires SearchInv(s) && !NeedDelete(on) && s.svc.Some? && Ripe(s.svc.value) && HashChanged(s.svc.value)
    requires (s.pc.FindTag? || s.pc.FindName?) && s.pc.clean && s.pc.snap == s.svc.value
    requires id in s.lbs && Own(s.me, s.lbs[id])
    ensures CanStick(s)
    decreases if s.pc.FindTag? then 1 else 0
  {
    var step := SearchFor(s, id);
    SearchInvStep(s, step);
    if After(s, step).pc.FindName? { Finding(After(s, step), id, on); } else { Deleting(After(s, step), on); }
    CanStickBefore(s, step);
  }

  /** From every state in which the service with its load balancer and status stops being
      wanted: a cleanup in which nothing but the status patch goes wrong completes, and
      after the next edit the service is stuck. */
  lemma UnclearedStatusSticks(s: State, id: Id, on: Spec)
    requires SearchInv(s) && s.pc.Idle? && HasFinalizer(s) && Ripe(s.svc.value) && HashChanged(s.svc.value)
    requires id in s.lbs && Own(s.me, s.lbs[id]) && !NeedDelete(on)
    ensures CanStick(s)
  {
    SearchInvStep(s, Get(true));
    Finding(After(s, Get(true)), id, on);
    CanStickBefore(s, Get(true));
  }
}
