/** Why the no-leak theorem asks for guarded steps.  AddFinalizers reads the service
    again into the same object, so a reconcile run can find itself working on an
    object that needs no load balancer any more.  It then stores the hash of that
    object, and a later cleanup of an equal object takes the unchanged-hash
    shortcut past the delete. */
module LifecycleRace {
  import opened Common
  import opened Lifecycle

  function Fresh(me: string, spec: Spec): (s: State) {
    State(me, Some(Service(spec, false, None, false)), map[], {}, Idle)
  }

  /** The run that is overtaken by the edit `off` between its two reads.  Its last
      call, the status patch, fails: a status with an ingress entry would make the
      next run refuse to create. */
  function OvertakenRun(off: Spec): (steps: seq<Step>) {
    [Get(true), UserEdits(off), AddFinalizer(Ok)]
    + [BuildModel(true), FindByTag(Nothing), FindByName(Nothing), ApplyAttribute(Ok, 1)]
    + [ApplyRest(true), AddLabel(Ok), SetStatus(false)]
  }

  /** The service wants its load balancer again; the run dies after the create. */
  function InterruptedRun(on: Spec): (steps: seq<Step>) {
    [UserEdits(on), Get(true), AddFinalizer(Ok)]
    + [BuildModel(true), FindByTag(Nothing), FindByName(Nothing), ApplyAttribute(Ok, 1)]
    + [TagLB(Fail)]
  }

  lemma Three(s: State, a: Step, b: Step, c: Step)
    requires Enabled(s, a) && Enabled(After(s, a), b) && Enabled(After(After(s, a), b), c)
    ensures Runnable(s, [a, b, c]) && Exec(s, [a, b, c]) == After(After(After(s, a), b), c)
  {
    ExecExtends(s, [], a);
    ExecExtends(s, [a], b);
    ExecExtends(s, [a, b], c);
    assert [] + [a] == [a];
    assert [a] + [b] == [a, b];
    assert [a, b] + [c] == [a, b, c];
  }

  /** An edit between the two reads of a run on the reconcile path. */
  lemma Reads(s: State, svc: Service, edit: Spec)
    requires s.pc.Idle? && s.svc == Some(svc) && !NeedDelete(svc.spec) && !edit.terminating
    ensures var svc' := svc.(spec := edit, finalizer := true);
            && Runnable(s, [Get(true), UserEdits(edit), AddFinalizer(Ok)])
            && Exec(s, [Get(true), UserEdits(edit), AddFinalizer(Ok)])
               == s.(svc := Some(svc'), pc := Build(svc'))
  {
    Three(s, Get(true), UserEdits(edit), AddFinalizer(Ok));
  }

  /** An edit before a run on the reconcile path. */
  lemma EditThenReads(s: State, svc: Service, edit: Spec)
    requires s.pc.Idle? && s.svc == Some(svc) && !NeedDelete(edit) && !svc.spec.terminating
    ensures var svc' := svc.(spec := edit, finalizer := true);
            && Runnable(s, [UserEdits(edit), Get(true), AddFinalizer(Ok)])
            && Exec(s, [UserEdits(edit), Get(true), AddFinalizer(Ok)])
               == s.(svc := Some(svc'), pc := Build(svc'))
  {
    Three(s, UserEdits(edit), Get(true), AddFinalizer(Ok));
  }

  /** A model, a search that finds nothing, then the attribute step. */
  lemma SearchNothing(s: State)
    requires s.pc.Build? && (NeedDelete(s.pc.snap.spec) || s.pc.snap.spec.buildable) && s.lbs == map[] && 1 !in s.used
    ensures var a := s.(pc := Attribute(false, s.pc.snap, None));
            && Runnable(s, [BuildModel(true), FindByTag(Nothing), FindByName(Nothing), ApplyAttribute(Ok, 1)])
            && Exec(s, [BuildModel(true), FindByTag(Nothing), FindByName(Nothing), ApplyAttribute(Ok, 1)])
               == ApplyAttributeStep(a, Ok, 1)
  {
    Three(s, BuildModel(true), FindByTag(Nothing), FindByName(Nothing));
    ExecExtends(s, [BuildModel(true), FindByTag(Nothing), FindByName(Nothing)], ApplyAttribute(Ok, 1));
    assert [BuildModel(true), FindByTag(Nothing), FindByName(Nothing)] + [ApplyAttribute(Ok, 1)]
        == [BuildModel(true), FindByTag(Nothing), FindByName(Nothing), ApplyAttribute(Ok, 1)];
  }

  lemma StoreHash(s: State, svc: Service)
    requires s.pc == Rest(false, svc) && s.svc == Some(svc)
    ensures && Runnable(s, [ApplyRest(true), AddLabel(Ok), SetStatus(false)])
            && Exec(s, [ApplyRest(true), AddLabel(Ok), SetStatus(false)])
               == s.(svc := Some(svc.(hash := Some(svc.spec))), pc := Idle)
  {
    Three(s, ApplyRest(true), AddLabel(Ok), SetStatus(false));
  }

  lemma Concat3(s: State, a: seq<Step>, b: seq<Step>, c: seq<Step>)
    requires Runnable(s, a) && Runnable(Exec(s, a), b) && Runnable(Exec(Exec(s, a), b), c)
    ensures Runnable(s, a + b + c) && Exec(s, a + b + c) == Exec(Exec(Exec(s, a), b), c)
  {
    ExecConcat(s, a, b);
    ExecConcat(s, a + b, c);
  }

  lemma Overtaken(me: string, on: Spec, off: Spec)
    requires !NeedDelete(on) && on.buildable && NeedDelete(off) && !off.terminating
    ensures Runnable(Fresh(me, on), OvertakenRun(off))
    ensures Exec(Fresh(me, on), OvertakenRun(off))
         == State(me, Some(Service(off, true, Some(off), false)), map[], {}, Idle)
  {
    var s0 := Fresh(me, on);
    Reads(s0, s0.svc.value, off);
    var s1 := Exec(s0, [Get(true), UserEdits(off), AddFinalizer(Ok)]);
    SearchNothing(s1);
    var s2 := s1.(pc := Rest(false, s1.svc.value));
    StoreHash(s2, s1.svc.value);
    Concat3(s0, [Get(true), UserEdits(off), AddFinalizer(Ok)],
            [BuildModel(true), FindByTag(Nothing), FindByName(Nothing), ApplyAttribute(Ok, 1)],
            [ApplyRest(true), AddLabel(Ok), SetStatus(false)]);
  }

  lemma Interrupted(s0: State, on: Spec, off: Spec)
    requires !NeedDelete(on) && on.buildable && NeedDelete(off) && !off.terminating
    requires s0 == State(s0.me, Some(Service(off, true, Some(off), false)), map[], {}, Idle)
    ensures Runnable(s0, InterruptedRun(on))
    ensures Exec(s0, InterruptedRun(on))
         == State(s0.me, Some(Service(on, true, Some(off), false)), map[1 := LB(s0.me, {}, false, Assigned(on.fixed))], {1}, Idle)
  {
    EditThenReads(s0, s0.svc.value, on);
    var s1 := Exec(s0, [UserEdits(on), Get(true), AddFinalizer(Ok)]);
    SearchNothing(s1);
    var s2 := Exec(s1, [BuildModel(true), FindByTag(Nothing), FindByName(Nothing), ApplyAttribute(Ok, 1)]);
    ExecExtends(s2, [], TagLB(Fail));
    assert [] + [TagLB(Fail)] == [TagLB(Fail)];
    Concat3(s0, [UserEdits(on), Get(true), AddFinalizer(Ok)],
            [BuildModel(true), FindByTag(Nothing), FindByName(Nothing), ApplyAttribute(Ok, 1)], [TagLB(Fail)]);
  }

  /** The two runs and one more edit: a live load balancer, and a stored hash that
      equals the one of the object to be cleaned up. */
  lemma BeforeCleanup(me: string, on: Spec, off: Spec) returns (steps: seq<Step>)
    requires !NeedDelete(on) && on.buildable && NeedDelete(off) && !off.terminating
    ensures Runnable(Fresh(me, on), steps) && forall i :: 0 <= i < |steps| ==> !steps[i].DeletionFails?
    ensures Exec(Fresh(me, on), steps)
         == State(me, Some(Service(off, true, Some(off), false)), map[1 := LB(me, {}, false, Assigned(on.fixed))], {1}, Idle)
  {
    var s0 := Fresh(me, on);
    Overtaken(me, on, off);
    Interrupted(Exec(s0, OvertakenRun(off)), on, off);
    ExecConcat(s0, OvertakenRun(off), InterruptedRun(on));
    steps := OvertakenRun(off) + InterruptedRun(on);
    ExecExtends(s0, steps, UserEdits(off));
    steps := steps + [UserEdits(off)];
  }

  /** A history with an unguarded step, for every pair of a wanting, buildable spec `on` and an
      unwanting, not terminating spec `off`: a run overtaken by an edit whose status
      patch fails, a run that dies between create and tag, and a cleanup.  No deletion
      job fails.  It ends with a live load balancer and no finalizer. */
  lemma LeakWithoutCalm(me: string, on: Spec, off: Spec) returns (steps: seq<Step>)
    requires !NeedDelete(on) && on.buildable && NeedDelete(off) && !off.terminating
    ensures Init(Fresh(me, on)) && Runnable(Fresh(me, on), steps)
    ensures forall i :: 0 <= i < |steps| ==> !steps[i].DeletionFails?
    ensures !NoLeak(Exec(Fresh(me, on), steps))
    ensures !GuardedRun(Fresh(me, on), steps) && !CalmRun(Fresh(me, on), steps)
  {
    var s0 := Fresh(me, on);
    var before := BeforeCleanup(me, on, off);
    var s := Exec(s0, before);
    assert 1 in s.lbs && Own(s.me, s.lbs[1]) && !s.lbs[1].deleting;
    var tail := ShortcutLeaks(s);
    ExecConcat(s0, before, tail);
    steps := before + tail;
    if GuardedRun(s0, steps) { NoLeakAlways(s0, steps); }
    NoFailedJobs(s0, steps);
    if CalmRun(s0, steps) { CalmIsGuarded(s0, steps); }
  }

  lemma ShortcutLeaks(s: State) returns (steps: seq<Step>)
    requires s.pc.Idle? && HasFinalizer(s) && NeedDelete(s.svc.value.spec) && !HashChanged(s.svc.value)
    requires SearchInv(s) && LeakInv(s) && !NoLiveOwn(s)
    ensures Runnable(s, steps) && !NoLeak(Exec(s, steps)) && forall i :: 0 <= i < |steps| ==> !steps[i].DeletionFails?
  {
    GuardExact(s, Get(true));
    var tail: seq<Step> :| LeaksBy(After(s, Get(true)), tail);
    steps := [Get(true)] + tail;
    assert steps[1..] == tail;
  }

  lemma {:induction false} NoFailedJobs(s: State, steps: seq<Step>)
    requires Runnable(s, steps) && forall i :: 0 <= i < |steps| ==> !steps[i].DeletionFails?
    ensures JobsGuarded(s, steps)
    decreases |steps|
  {
    if steps != [] { NoFailedJobs(After(s, steps[0]), steps[1..]); }
  }
}
