/** The reconcile run of the NLB controller in its own form: ordered calls with
    early return on error, over a service object and load balancers of its own.
    Each call is proved to be a step of `Lifecycle`, so the theorems there hold after
    each of them.  What happens between the calls and how each call ends is an input:
    an oracle answers the calls one after the other. */
module Reconciler {
  import opened Common
  import opened Lifecycle

  datatype Err = NoError | ResourceNotFound | Other

  /** How a run ends: nothing to do, an error that will be retried, or the
      complete cleanup or reconcile path. */
  datatype RunEnd = Skipped | Failed | Cleaned | Reconciled

  /** One try of a status patch: whether the patch takes effect, and the error, which
      asks for another try or not.  A failed read is final and without effect. */
  datatype TryError = NoTryError | Final | Again
  datatype Try = Try(effect: bool, error: TryError)

  const STATUS_TRIES := 3

  /** `Retry`: up to `n` tries until one does not ask for another; whether any took
      effect, and the last error.  Tries that are not given succeed.  A patch without
      error has taken effect, because an object with a finalizer does not vanish between
      its read and its patch. */
  function Retried(tries: seq<Try>, n: nat): (r: Try)
    ensures r.error.NoTryError? ==> r.effect
    ensures n > 0 && tries == [] ==> r == Try(true, NoTryError)
  {
    if n == 0 then Try(false, Again)
    else if tries == [] || tries[0].error.NoTryError? then Try(true, NoTryError)
    else if !tries[0].error.Again? then tries[0]
    else
      var later := Retried(tries[1..], n - 1);
      Try(tries[0].effect || later.effect, later.error)
  }

  /** What happens before a call, and how the call ends.  For a search that is not
      `Ok` the listing fails; status patches are tried several times instead. */
  datatype Answer = Answer(moves: seq<Step>, outcome: Outcome, tries: seq<Try>) {
    predicate Quiet() { moves == [] && outcome.Ok? && tries == [] }
  }

  /** What is left in the object when the first read fails. */
  const EMPTY := Service(Spec(false, false, false, Fixed("", ""), 0), false, None, false)

  // ----------------------------------------------------------- moves of the environment

  predicate IsEnvironment(step: Step) {
    step.UserEdits? || step.ApiServerDrops? || step.DeletionFinishes? || step.DeletionFails? || step.OthersChange?
  }

  predicate Moves(s: State, step: Step) {
    IsEnvironment(step) && Enabled(s, step)
  }

  function Moved(s: State, step: Step): (r: State)
    ensures r.pc == s.pc && r.me == s.me
  {
    if Moves(s, step) then After(s, step) else s
  }

  /** The moves that can happen do, in order. */
  function AfterMoves(s: State, moves: seq<Step>): (r: State)
    ensures r.pc == s.pc && r.me == s.me
    decreases |moves|
  {
    if moves == [] then s else AfterMoves(Moved(s, moves[0]), moves[1..])
  }

  /** Only the spec of the service may have changed. */
  predicate OnlySpec(a: Option<Service>, b: Option<Service>) {
    a.Some? && b.Some? && b.value == a.value.(spec := b.value.spec)
  }

  predicate JobFails(moves: seq<Step>) {
    exists i :: 0 <= i < |moves| && moves[i].DeletionFails?
  }

  /** The environment cannot take an object with a finalizer or a live load balancer
      of this service, nor revive one other than by a failed deletion job. */
  lemma {:induction false} MovesKeep(s: State, moves: seq<Step>)
    ensures HasFinalizer(s) ==> OnlySpec(s.svc, AfterMoves(s, moves).svc)
    ensures NoLiveOwn(s) && !JobFails(moves) ==> NoLiveOwn(AfterMoves(s, moves))
    ensures forall i :: LiveOwn(s, i) ==> LiveOwn(AfterMoves(s, moves), i) && AfterMoves(s, moves).lbs[i] == s.lbs[i]
    decreases |moves|
  {
    if moves != [] {
      var s' := Moved(s, moves[0]);
      assert HasFinalizer(s) ==> OnlySpec(s.svc, s'.svc);
      if NoLiveOwn(s) && !JobFails(moves) {
        assert !moves[0].DeletionFails?;
        assert NoLiveOwn(s');
        assert forall i :: 0 <= i < |moves[1..]| ==> !moves[1..][i].DeletionFails?;
      }
      assert forall i :: LiveOwn(s, i) ==> LiveOwn(s', i) && s'.lbs[i] == s.lbs[i];
      MovesKeep(s', moves[1..]);
    }
  }

  /** Every live load balancer of this service in `lbs` is still one in `later`. */
  predicate AllLive(me: string, lbs: map<Id, LB>, later: map<Id, LB>) {
    forall i :: i in lbs && !lbs[i].deleting && (lbs[i].name == me || me in lbs[i].tags) ==>
                  i in later && !later[i].deleting && (later[i].name == me || me in later[i].tags)
  }

  predicate OwnAt(s: State, i: Id) {
    i in s.lbs && Own(s.me, s.lbs[i])
  }

  predicate LiveOwn(s: State, i: Id) {
    i in s.lbs && Own(s.me, s.lbs[i]) && !s.lbs[i].deleting
  }

  /** The attribute phase refuses without any call failing: the load balancer is gone
      although the status still names one, or an attribute that is fixed would change. */
  predicate Refuses(s: State, svc: Service) {
    && HashChanged(svc) && !NeedDelete(svc.spec)
    && ((NoOwn(s) && svc.ingress)
        || exists i :: i in s.lbs && Own(s.me, s.lbs[i]) && !Compatible(svc.spec.fixed, s.lbs[i].fixed))
  }

  /** What a run without failures and moves comes to. */
  function Expected(s: State): RunEnd {
    if s.svc.None? then Skipped
    else if NeedDelete(s.svc.value.spec) then if s.svc.value.finalizer then Cleaned else Skipped
    else if !s.svc.value.spec.buildable || Refuses(s, s.svc.value) then Failed
    else Reconciled
  }

  /** Why a run for a wanted service fails although no call does: no model can be built, the
      load balancer is gone while the status names one, or a fixed attribute would change. */
  predicate QuietFailure(s: State, svc: Service) {
    || !svc.spec.buildable
    || (svc.hash != Some(svc.spec)
        && ((svc.ingress && forall i :: i in s.lbs ==> s.lbs[i].name != s.me && s.me !in s.lbs[i].tags)
            || (exists i :: i in s.lbs && (s.lbs[i].name == s.me || s.me in s.lbs[i].tags)
                            && ((svc.spec.fixed.ipVersion != "" && svc.spec.fixed.ipVersion != s.lbs[i].fixed.ipVersion)
                                || (svc.spec.fixed.resourceGroup != "" && svc.spec.fixed.resourceGroup != s.lbs[i].fixed.resourceGroup)))))
  }

  lemma QuietFailureExactly(s: State)
    requires s.svc.Some? && s.svc.value.spec.wantsLB && !s.svc.value.spec.terminating
    ensures Expected(s) == if QuietFailure(s, s.svc.value) then Failed else Reconciled
  {
  }

  /** What each end says about the service. */
  predicate EndMeans(s: State, end: RunEnd) {
    match end
    case Reconciled => HasFinalizer(s) && s.svc.value.hash.Some? && s.svc.value.ingress
    case Cleaned => s.svc.Some? && !s.svc.value.finalizer && s.svc.value.hash.None?
    case _ => true
  }

  class ReconcileNLB {
    const me: string
    const oracle: nat -> Answer

    var svc: Option<Service>
    var lbs: map<Id, LB>
    var used: set<Id>
    var calls: nat

    ghost var pc: PC
    ghost var start: State
    ghost var steps: seq<Step>

    ghost function Abs(): State
      reads this
    {
      State(me, svc, lbs, used, pc)
    }

    /** The fields are what the protocol reaches by the recorded steps. */
    ghost predicate Valid()
      reads this
    {
      SearchInv(start) && Runnable(start, steps) && Abs() == Exec(start, steps)
    }

    /** The answers from call `a` to call `b` are all good and nothing interferes. */
    ghost predicate Quiet(a: nat, b: nat)
    {
      forall i :: a <= i < b ==> oracle(i).Quiet()
    }

    /** No deletion job fails between the calls. */
    ghost predicate JobsFine(a: nat, b: nat)
    {
      forall i :: a <= i < b ==> !JobFails(oracle(i).moves)
    }

    /** The state a call meets. */
    twostate function Met(): State
      reads this
    {
      AfterMoves(old(Abs()), oracle(old(calls)).moves)
    }

    /** How the call ends. */
    twostate function Said(): Outcome
      reads this
    {
      oracle(old(calls)).outcome
    }

    twostate function Tries(): seq<Try>
      reads this
    {
      oracle(old(calls)).tries
    }

    /** One call was made, and it is on record as this step of the protocol. */
    twostate predicate Did(step: Step)
      reads this
    {
      calls == old(calls) + 1 && start == old(start) && old(steps) < steps && steps[|steps| - 1] == step
    }

    /** Every live load balancer of this service is still live. */
    twostate predicate KeepsLive()
      reads this
    {
      AllLive(me, old(lbs), lbs)
    }

    /** Some calls were made. */
    twostate predicate Went()
      reads this
    {
      calls >= old(calls) && start == old(start) && old(steps) <= steps
    }

    constructor (s: State, answers: nat -> Answer)
      requires s.pc.Idle? && SearchInv(s)
      ensures Valid() && Abs() == s && start == s && steps == [] && oracle == answers && calls == 0
    {
      me, svc, lbs, used, oracle, calls := s.me, s.svc, s.lbs, s.used, answers, 0;
      pc, start, steps := Idle, s, [];
    }

    /** In a quiet search at most one load balancer matches, and it is the own one. */
    lemma FindsOwn()
      requires Valid()
      ensures |Tagged(Abs())| <= 1 && |Named(Abs())| <= 1
      ensures NoOwn(Abs()) <==> Tagged(Abs()) == {} && Named(Abs()) == {}
    {
      Invariant();
      QuietSearch(Abs());
    }

    lemma Invariant()
      requires Valid()
      ensures SearchInv(Abs())
    {
      SearchInvExec(start, steps);
    }

    // What the next call can rely on.

    lemma Ahead()
      ensures HasFinalizer(Abs()) ==> OnlySpec(svc, AfterMoves(Abs(), oracle(calls).moves).svc)
      ensures oracle(calls).Quiet() ==> AfterMoves(Abs(), oracle(calls).moves) == Abs()
      ensures AllLive(me, lbs, AfterMoves(Abs(), oracle(calls).moves).lbs)
    {
      MovesKeep(Abs(), oracle(calls).moves);
      assert forall i :: i in lbs && !lbs[i].deleting && (lbs[i].name == me || me in lbs[i].tags) ==> LiveOwn(Abs(), i);
    }

    lemma StillNoLiveOwn()
      requires NoLiveOwn(Abs())
      ensures JobFails(oracle(calls).moves) || NoLiveOwn(AfterMoves(Abs(), oracle(calls).moves))
    {
      MovesKeep(Abs(), oracle(calls).moves);
    }

    lemma StillLive(i: Id)
      requires LiveOwn(Abs(), i)
      ensures var s := AfterMoves(Abs(), oracle(calls).moves); LiveOwn(s, i) && s.lbs[i] == lbs[i]
    {
      MovesKeep(Abs(), oracle(calls).moves);
    }

    /** The next answer: the environment moves, then the call ends. */
    method Ask() returns (outcome: Outcome)
      requires Valid()
      modifies this`svc, this`lbs, this`used, this`steps, this`calls
      ensures Valid() && Went() && calls == old(calls) + 1
      ensures Abs() == Met() && outcome == oracle(old(calls)).outcome
    {
      var moves := oracle(calls).moves;
      outcome := oracle(calls).outcome;
      calls := calls + 1;
      ghost var s0 := Abs();
      var i := 0;
      assert moves[0..] == moves;
      while i < |moves|
        invariant 0 <= i <= |moves| && Valid() && old(steps) <= steps && calls == old(calls) + 1
        invariant AfterMoves(s0, moves) == AfterMoves(Abs(), moves[i..])
      {
        assert moves[i..][1..] == moves[i + 1..];
        Move(moves[i]);
        i := i + 1;
      }
    }

    method Move(step: Step)
      requires Valid()
      modifies this`svc, this`lbs, this`used, this`steps
      ensures Valid() && old(steps) <= steps
      ensures Abs() == Moved(old(Abs()), step)
    {
      var s := State(me, svc, lbs, used, Idle);
      if Moves(s, step) {
        var t := After(s, step);
        ExecExtends(start, steps, step);
        svc, lbs, used := t.svc, t.lbs, t.used;
        steps := steps + [step];
      }
    }

    /** Put the call just made on record. */
    ghost method Record(step: Step, met: State)
      requires SearchInv(start) && Runnable(start, steps) && met == Exec(start, steps) && Enabled(met, step)
      requires After(met, step) == State(me, svc, lbs, used, After(met, step).pc)
      modifies this`pc, this`steps
      ensures Valid() && steps == old(steps) + [step] && Abs() == After(met, step)
    {
      ExecExtends(start, steps, step);
      pc := After(met, step).pc;
      steps := steps + [step];
    }

    // ------------------------------------------------------------------ single calls
    // Each takes one answer, also where it turns out that no request is needed.

    /** The first read.  `exists_` is false when the object is gone; a failed read
        leaves an empty object. */
    method GetService() returns (exists_: bool, obj: Service)
      requires Valid() && pc.Idle?
      modifies this
      ensures Valid() && Did(Get(Said().Ok?)) && svc == Met().svc && lbs == Met().lbs
      ensures exists_ == (Said().Ok? ==> svc.Some?)
      ensures exists_ ==> obj == if Said().Ok? then svc.value else EMPTY
      ensures pc == if !exists_ || !Said().Ok? then Idle
                    else if !NeedDelete(obj.spec) then Refresh
                    else if obj.finalizer then FindTag(true, obj) else Idle
    {
      var o := Ask();
      exists_, obj := !o.Ok? || svc.Some?, EMPTY;
      if o.Ok? && svc.Some? { obj := svc.value; }
      Record(Get(o.Ok?), Abs());
    }

    /** Reads the object again, adds the finalizer, and replaces the object the run
        works on. */
    method AddFinalizers() returns (ok: bool, obj: Service)
      requires Valid() && pc.Refresh?
      modifies this
      ensures var o := FinalizerOutcome(Met().svc, Said());
              && Valid() && Did(AddFinalizer(o)) && ok == o.Ok? && lbs == Met().lbs
              && svc == if o.TakesEffect() then Some(Met().svc.value.(finalizer := true)) else Met().svc
      ensures ok ==> svc == Some(obj)
      ensures pc == if ok then Build(obj) else Idle
    {
      var o := Ask();
      ghost var met := Abs();
      ok, obj := false, EMPTY;
      o := FinalizerOutcome(svc, o);
      if o.TakesEffect() {
        obj := svc.value.(finalizer := true);
        svc := Some(obj);
        ok := o.Ok?;
      }
      Record(AddFinalizer(o), met);
    }

    /** Builds the local model.  It fails for a spec that cannot be built, or if a call it
        needs fails, for example to read the endpoints; a model for deletion is empty. */
    method BuildLocalModel(obj: Service) returns (ok: bool)
      requires Valid() && pc == Build(obj)
      modifies this
      ensures Valid() && Did(BuildModel(Said().Ok?)) && svc == Met().svc && lbs == Met().lbs
      ensures ok <==> NeedDelete(obj.spec) || (obj.spec.buildable && Said().Ok?)
      ensures pc == if ok then FindTag(false, obj) else Idle
    {
      var o := Ask();
      ok := NeedDelete(obj.spec) || (obj.spec.buildable && o.Ok?);
      Record(BuildModel(o.Ok?), Abs());
    }

    /** One search: the listing is truthful, and more than one match is an error. */
    method Search(byTag: bool) returns (result: Lookup)
      requires Valid() && if byTag then pc.FindTag? else pc.FindName?
      modifies this
      ensures Valid() && Did(if byTag then FindByTag(result) else FindByName(result))
      ensures svc == Met().svc && lbs == Met().lbs
      ensures result == SearchResult(if byTag then Tagged(Met()) else Named(Met()), Said())
      ensures pc == match result
                    case Error => Idle
                    case Found(i) => Attribute(old(pc).clean, old(pc).snap, Some(i))
                    case Nothing => if byTag then FindName(old(pc).clean, old(pc).snap) else Attribute(old(pc).clean, old(pc).snap, None)
    {
      var o := Ask();
      var s := State(me, svc, lbs, used, Idle);
      result := SearchResult(if byTag then Tagged(s) else Named(s), o);
      Record(if byTag then FindByTag(result) else FindByName(result), Abs());
    }

    /** The delete request.  A missing load balancer is reported as such. */
    method DeleteLB(clean: bool, obj: Service, id: Id) returns (err: Err)
      requires Valid() && pc == Attribute(clean, obj, Some(id))
      requires HashChanged(obj) && NeedDelete(obj.spec)
      modifies this
      ensures Valid() && Went() && calls == old(calls) + 1 && svc == Met().svc
      ensures err == if id !in Met().lbs then ResourceNotFound else if Said().Ok? then NoError else Other
      ensures lbs == if id in Met().lbs && Said().TakesEffect() then Met().lbs[id := Met().lbs[id].(deleting := true)] else Met().lbs
      ensures !err.Other? ==> NoLiveOwn(Abs())
      ensures pc == if err.NoError? then Rest(clean, obj) else if err.ResourceNotFound? && clean then Unlabel(obj) else Idle
    {
      var o := Ask();
      ghost var met := Abs();
      Invariant();
      ghost var newId := NewIdExists(used);
      err := ResourceNotFound;
      if id in lbs {
        if o.TakesEffect() { lbs := lbs[id := lbs[id].(deleting := true)]; }
        err := if o.Ok? then NoError else Other;
      }
      Record(ApplyAttribute(o, newId), met);
    }

    /** The create request: the default name, no tags yet. */
    method RequestLB(clean: bool, obj: Service) returns (ok: bool, id: Id)
      requires Valid() && pc == Attribute(clean, obj, None)
      requires HashChanged(obj) && !NeedDelete(obj.spec) && !obj.ingress
      modifies this
      ensures Valid() && Did(ApplyAttribute(Said(), id)) && ok == Said().Ok? && svc == Met().svc
      ensures id !in Met().lbs && lbs == if Said().TakesEffect() then Met().lbs[id := LB(me, {}, false, Assigned(obj.spec.fixed))] else Met().lbs
      ensures pc == if ok then Tagging(clean, obj, id) else Idle
    {
      var o := Ask();
      ghost var met := Abs();
      Invariant();
      ghost var some := NewIdExists(used);
      id :| id !in used;
      if o.TakesEffect() {
        lbs := lbs[id := LB(me, {}, false, Assigned(obj.spec.fixed))];
        used := used + {id};
      }
      ok := o.Ok?;
      Record(ApplyAttribute(o, id), met);
    }

    method TagResource(clean: bool, obj: Service, id: Id) returns (ok: bool)
      requires Valid() && pc == Tagging(clean, obj, id)
      modifies this
      ensures Valid() && Did(TagLB(Said())) && ok == Said().Ok? && svc == Met().svc
      ensures lbs == if id in Met().lbs && Said().TakesEffect() then Met().lbs[id := Met().lbs[id].(tags := Met().lbs[id].tags + {me})] else Met().lbs
      ensures pc == if ok then Rest(clean, obj) else Idle
    {
      var o := Ask();
      ghost var met := Abs();
      if o.TakesEffect() && id in lbs { lbs := lbs[id := lbs[id].(tags := lbs[id].tags + {me})]; }
      ok := o.Ok?;
      Record(TagLB(o), met);
    }

    /** The attribute phase when nothing is deleted or created.  With an unchanged hash
        or nothing to delete it cannot fail; creation is refused when the status names a
        load balancer, and an update when a fixed attribute would change. */
    method UpdateLB(clean: bool, obj: Service, id: Option<Id>) returns (ok: bool)
      requires Valid() && pc == Attribute(clean, obj, id)
      requires HashChanged(obj) ==> if NeedDelete(obj.spec) then id.None? else id.Some? || obj.ingress
      modifies this
      ensures Valid() && Went() && calls == old(calls) + 1 && svc == Met().svc && lbs == Met().lbs
      ensures ok <==> || !HashChanged(obj) || NeedDelete(obj.spec)
                      || (id.Some? && !Immutable(Met(), id.value, obj) && Said().Ok?)
      ensures pc == if ok then Rest(clean, obj) else Idle
      ensures HashChanged(obj) && NeedDelete(obj.spec) ==> NoLiveOwn(Abs())
    {
      var o := Ask();
      Invariant();
      ghost var newId := NewIdExists(used);
      ok := !HashChanged(obj) || NeedDelete(obj.spec);
      if !ok && id.Some? && !(id.value in lbs && !Compatible(obj.spec.fixed, lbs[id.value].fixed)) { ok := o.Ok?; }
      Record(ApplyAttribute(o, newId), Abs());
    }

    /** Server groups, listeners and their cleanup, which do not touch this state. */
    method ApplyOthers(clean: bool, obj: Service) returns (ok: bool)
      requires Valid() && pc == Rest(clean, obj)
      modifies this
      ensures Valid() && Did(ApplyRest(ok)) && ok == Said().Ok? && svc == Met().svc && lbs == Met().lbs
      ensures pc == if ok then AfterApply(clean, obj) else Idle
    {
      var o := Ask();
      ok := o.Ok?;
      Record(ApplyRest(ok), Abs());
    }

    /** Stores the hash of the object the run works on. */
    method AddServiceLabels(obj: Service) returns (ok: bool)
      requires Valid() && pc == Label(obj)
      modifies this
      ensures var o := PatchOutcome(Met().svc, Said());
              && Valid() && Did(AddLabel(o)) && ok == o.Ok? && lbs == Met().lbs
              && svc == if o.TakesEffect() then Some(Met().svc.value.(hash := Some(obj.spec))) else Met().svc
      ensures pc == if ok then Status else Idle
    {
      var o := Ask();
      ghost var met := Abs();
      o := PatchOutcome(svc, o);
      if o.TakesEffect() { svc := Some(svc.value.(hash := Some(obj.spec))); }
      ok := o.Ok?;
      Record(AddLabel(o), met);
    }

    /** Writes the ingress entry.  The last error counts; a missing object is an error
        when it is read. */
    method UpdateServiceStatus() returns (ok: bool)
      requires Valid() && pc.Status?
      modifies this
      ensures var r := StatusTry(Met().svc, Tries());
              && Valid() && Did(SetStatus(r.effect)) && ok == r.error.NoTryError? && lbs == Met().lbs && pc.Idle?
              && svc == if r.effect then Some(Met().svc.value.(ingress := true)) else Met().svc
    {
      var tries := oracle(calls).tries;
      var _ := Ask();
      ghost var met := Abs();
      var r := StatusTry(svc, tries);
      if r.effect { svc := Some(svc.value.(ingress := true)); }
      ok := r.error.NoTryError?;
      Record(SetStatus(r.effect), met);
    }

    /** Removes the hash label if the object had one. */
    method RemoveServiceLabels(obj: Service) returns (ok: bool)
      requires Valid() && pc == Unlabel(obj)
      modifies this
      ensures var o := PatchOutcome(Met().svc, Said());
              && Valid() && Did(RemoveLabel(o)) && ok == (obj.hash.None? || o.Ok?) && lbs == Met().lbs
              && svc == if obj.hash.Some? && o.TakesEffect() then Some(Met().svc.value.(hash := None)) else Met().svc
      ensures pc == if ok then Unstatus(obj) else Idle
    {
      var o := Ask();
      ghost var met := Abs();
      o := PatchOutcome(svc, o);
      ok := true;
      if obj.hash.Some? {
        if o.TakesEffect() { svc := Some(svc.value.(hash := None)); }
        ok := o.Ok?;
      }
      Record(RemoveLabel(o), met);
    }

    /** Clears the status if the object had an ingress entry.  An error counts only if
        every try asks for another: a failed read or a final error is swallowed, and the
        entry stays. */
    method RemoveServiceStatus(obj: Service) returns (ok: bool)
      requires Valid() && pc == Unstatus(obj)
      modifies this
      ensures var r := StatusTry(Met().svc, Tries());
              && Valid() && Did(RemoveStatus(r.effect, r.error.Again?)) && ok == (!obj.ingress || !r.error.Again?) && lbs == Met().lbs
              && svc == if obj.ingress && r.effect then Some(Met().svc.value.(ingress := false)) else Met().svc
      ensures pc == if ok then Unfinalize else Idle
    {
      var tries := oracle(calls).tries;
      var _ := Ask();
      ghost var met := Abs();
      var r := StatusTry(svc, tries);
      ok := true;
      if obj.ingress {
        if r.effect { svc := Some(svc.value.(ingress := false)); }
        ok := !r.error.Again?;
      }
      Record(RemoveStatus(r.effect, r.error.Again?), met);
    }

    method RemoveFinalizers() returns (ok: bool)
      requires Valid() && pc.Unfinalize?
      modifies this
      ensures var o := PatchOutcome(Met().svc, Said());
              && Valid() && Did(RemoveFinalizer(o)) && ok == o.Ok? && lbs == Met().lbs && pc.Idle?
              && svc == if o.TakesEffect() then Some(Met().svc.value.(finalizer := false)) else Met().svc
    {
      var o := Ask();
      ghost var met := Abs();
      o := PatchOutcome(svc, o);
      if o.TakesEffect() { svc := Some(svc.value.(finalizer := false)); }
      ok := o.Ok?;
      Record(RemoveFinalizer(o), met);
    }

    // ---------------------------------------------------------------------- the paths

    /** Search by tag, and by name only if no load balancer is tagged. */
    method Find(clean: bool, obj: Service) returns (ok: bool, id: Option<Id>)
      requires Valid() && pc == FindTag(clean, obj) && HasFinalizer(Abs())
      modifies this
      ensures Valid() && Went() && OnlySpec(old(svc), svc) && KeepsLive()
      ensures pc == if ok then Attribute(clean, obj, id) else Idle
      ensures var byTag := SearchResult(Tagged(Met()), Said());
              if byTag.Nothing? then calls == old(calls) + 2
              else calls == old(calls) + 1 && ok == byTag.Found? && (ok ==> id == Some(byTag.id))
      ensures Quiet(old(calls), calls) ==>
                && ok && svc == old(svc) && lbs == old(lbs)
                && (id.None? <==> NoOwn(old(Abs()))) && (id.Some? ==> id.value in lbs && Own(me, lbs[id.value]))
    {
      Ahead();
      FindsOwn();
      var result := Search(true);
      if result.Error? { return false, None; }
      if result.Found? { return true, Some(result.id); }
      ok, id := FindByItsName(clean, obj);
    }

    method FindByItsName(clean: bool, obj: Service) returns (ok: bool, id: Option<Id>)
      requires Valid() && pc == FindName(clean, obj) && HasFinalizer(Abs())
      modifies this
      ensures Valid() && Went() && calls == old(calls) + 1 && OnlySpec(old(svc), svc) && KeepsLive()
      ensures pc == if ok then Attribute(clean, obj, id) else Idle
      ensures Quiet(old(calls), calls) && |Named(old(Abs()))| <= 1 ==>
                && ok && svc == old(svc) && lbs == old(lbs)
                && (id.None? <==> Named(old(Abs())) == {}) && (id.Some? ==> id.value in Named(old(Abs())))
    {
      Ahead();
      var result := Search(false);
      return !result.Error?, if result.Found? then Some(result.id) else None;
    }

    /** Create, then tag. */
    method CreateLB(clean: bool, obj: Service) returns (ok: bool)
      requires Valid() && pc == Attribute(clean, obj, None) && HasFinalizer(Abs())
      requires HashChanged(obj) && !NeedDelete(obj.spec) && !obj.ingress
      modifies this
      ensures Valid() && Went() && OnlySpec(old(svc), svc) && KeepsLive()
      ensures pc == if ok then Rest(clean, obj) else Idle
      ensures ok ==> exists id :: id in lbs && lbs[id] == LB(me, {me}, false, Assigned(obj.spec.fixed))
      ensures Quiet(old(calls), calls) ==> ok && svc == old(svc)
    {
      Ahead();
      var id;
      ok, id := RequestLB(clean, obj);
      if ok { ok := TagCreated(clean, obj, id); }
    }

    method TagCreated(clean: bool, obj: Service, id: Id) returns (ok: bool)
      requires Valid() && pc == Tagging(clean, obj, id) && HasFinalizer(Abs())
      requires id in lbs && lbs[id] == LB(me, {}, false, Assigned(obj.spec.fixed))
      modifies this
      ensures Valid() && Went() && calls == old(calls) + 1 && OnlySpec(old(svc), svc) && KeepsLive()
      ensures pc == if ok then Rest(clean, obj) else Idle
      ensures ok ==> id in lbs && lbs[id] == LB(me, {me}, false, Assigned(obj.spec.fixed))
      ensures Quiet(old(calls), calls) ==> ok && svc == old(svc)
    {
      Ahead();
      StillLive(id);
      ok := TagResource(clean, obj, id);
    }

    method ApplyLoadBalancerAttribute(clean: bool, obj: Service, id: Option<Id>) returns (err: Err)
      requires Valid() && pc == Attribute(clean, obj, id) && HasFinalizer(Abs()) && HashChanged(obj)
      modifies this
      ensures Valid() && Went() && OnlySpec(old(svc), svc)
      ensures pc == if err.NoError? then Rest(clean, obj) else if err.ResourceNotFound? && clean then Unlabel(obj) else Idle
      ensures NeedDelete(obj.spec) && !err.Other? ==> NoLiveOwn(Abs())
      ensures !NeedDelete(obj.spec) ==> KeepsLive()
      ensures !NeedDelete(obj.spec) && id.None? && obj.ingress ==> err.Other?
      ensures !NeedDelete(obj.spec) && id.Some? && Immutable(Met(), id.value, obj) ==> err.Other?
      ensures !NeedDelete(obj.spec) && id.None? && err.NoError? ==> exists i :: i in lbs && lbs[i] == LB(me, {me}, false, Assigned(obj.spec.fixed))
      ensures Quiet(old(calls), calls) && (id.Some? ==> id.value in old(lbs)) ==>
                svc == old(svc) && if RefusesFound(old(Abs()), obj, id) then err.Other? else err.NoError?
      ensures Quiet(old(calls), calls) && !NeedDelete(obj.spec) && err.NoError? && (id.Some? ==> OwnAt(old(Abs()), id.value)) ==>
                !NoOwn(Abs())
    {
      Ahead();
      if NeedDelete(obj.spec) && id.Some? {
        err := DeleteLB(clean, obj, id.value);
      } else {
        var ok;
        if !NeedDelete(obj.spec) && id.None? && !obj.ingress {
          ok := CreateLB(clean, obj);
        } else {
          ok := UpdateLB(clean, obj, id);
        }
        err := if ok then NoError else Other;
      }
    }

    /** The attribute phase is for a changed hash only. */
    method ApplyAttributes(clean: bool, obj: Service, id: Option<Id>) returns (err: Err)
      requires Valid() && pc == Attribute(clean, obj, id) && HasFinalizer(Abs())
      modifies this
      ensures Valid() && Went() && OnlySpec(old(svc), svc)
      ensures pc == if err.NoError? then Rest(clean, obj) else if err.ResourceNotFound? && clean then Unlabel(obj) else Idle
      ensures HashChanged(obj) && NeedDelete(obj.spec) && !err.Other? ==> NoLiveOwn(Abs())
      ensures Quiet(old(calls), calls) && (id.Some? ==> id.value in old(lbs)) ==>
                svc == old(svc) && if RefusesFound(old(Abs()), obj, id) then err.Other? else err.NoError?
      ensures !HashChanged(obj) || !NeedDelete(obj.spec) ==> KeepsLive()
      ensures Quiet(old(calls), calls) && HashChanged(obj) && !NeedDelete(obj.spec) && err.NoError? && (id.Some? ==> OwnAt(old(Abs()), id.value)) ==>
                !NoOwn(Abs())
    {
      if HashChanged(obj) {
        err := ApplyLoadBalancerAttribute(clean, obj, id);
      } else {
        Ahead();
        var _ := UpdateLB(clean, obj, id);
        err := NoError;
      }
    }

    /** The search and the attribute phase. */
    method FindAndUpdate(clean: bool, obj: Service) returns (err: Err)
      requires Valid() && pc == FindTag(clean, obj) && HasFinalizer(Abs())
      modifies this
      ensures Valid() && Went() && OnlySpec(old(svc), svc)
      ensures pc == if err.NoError? then Rest(clean, obj) else if err.ResourceNotFound? && clean then Unlabel(obj) else Idle
      ensures HashChanged(obj) && NeedDelete(obj.spec) && !err.Other? ==> NoLiveOwn(Abs())
      ensures Quiet(old(calls), calls) ==>
                svc == old(svc) && if Refuses(old(Abs()), obj) then err.Other? else err.NoError?
      ensures !HashChanged(obj) || !NeedDelete(obj.spec) ==> KeepsLive()
      ensures Quiet(old(calls), calls) && HashChanged(obj) && !NeedDelete(obj.spec) && err.NoError? ==> !NoOwn(Abs())
    {
      Invariant();
      ghost var s, from := Abs(), calls;
      var ok, id := Find(clean, obj);
      if !ok { return Other; }
      if Quiet(from, calls) { RefusesAsFound(s, obj, id); }
      err := ApplyAttributes(clean, obj, id);
    }

    method Apply(clean: bool, obj: Service) returns (err: Err)
      requires Valid() && pc == FindTag(clean, obj) && HasFinalizer(Abs())
      modifies this
      ensures Valid() && Went() && OnlySpec(old(svc), svc)
      ensures pc == if err.NoError? then AfterApply(clean, obj) else if err.ResourceNotFound? && clean then Unlabel(obj) else Idle
      ensures HashChanged(obj) && NeedDelete(obj.spec) && !err.Other? && JobsFine(old(calls), calls) ==> NoLiveOwn(Abs())
      ensures Quiet(old(calls), calls) ==>
                svc == old(svc) && if Refuses(old(Abs()), obj) then err.Other? else err.NoError?
      ensures !HashChanged(obj) || !NeedDelete(obj.spec) ==> KeepsLive()
      ensures Quiet(old(calls), calls) && HashChanged(obj) && !NeedDelete(obj.spec) && err.NoError? ==> !NoOwn(Abs())
    {
      err := FindAndUpdate(clean, obj);
      if !err.NoError? { return; }
      Ahead();
      if NoLiveOwn(Abs()) { StillNoLiveOwn(); }
      var ok := ApplyOthers(clean, obj);
      err := if ok then NoError else Other;
    }

    /** The cleanup path, for an object with the finalizer.  A complete one has removed
        label, status and finalizer, in that order; if the hash differed and no deletion
        job failed meanwhile, no live load balancer is left. */
    method CleanupLoadBalancerResources(obj: Service) returns (end: RunEnd)
      requires Valid() && if obj.finalizer then pc == FindTag(true, obj) && svc == Some(obj) else pc.Idle?
      requires NeedDelete(obj.spec)
      modifies this
      ensures Valid() && Went() && pc.Idle? && EndMeans(Abs(), end)
      ensures if obj.finalizer then end.Cleaned? || end.Failed? else end.Skipped? && Abs() == old(Abs()) && steps == old(steps)
      ensures end.Cleaned? ==> steps[|steps| - 1] == RemoveFinalizer(Ok)
      ensures end.Cleaned? && HashChanged(obj) && JobsFine(old(calls), calls) ==> NoLiveOwn(Abs())
      ensures end.Cleaned? ==> calls >= 2 && (svc.value.ingress <==> obj.ingress && !StatusPatched(calls - 2))
      ensures obj.finalizer && Quiet(old(calls), calls) ==> end.Cleaned?
      ensures KeepsLive() || (obj.finalizer && HashChanged(obj))
    {
      if obj.finalizer {
        var err := Apply(true, obj);
        if err.Other? { return Failed; }
        end := RemoveTraces(obj);
        return;
      }
      return Skipped;
    }

    /** Label, status and finalizer. */
    method RemoveTraces(obj: Service) returns (end: RunEnd)
      requires Valid() && pc == Unlabel(obj) && OnlySpec(Some(obj), svc) && obj.finalizer
      modifies this
      ensures Valid() && Went() && pc.Idle? && (end.Cleaned? || end.Failed?)
      ensures EndMeans(Abs(), end)
      ensures end.Cleaned? ==> steps[|steps| - 1] == RemoveFinalizer(Ok)
      ensures end.Cleaned? && JobsFine(old(calls), calls) && old(NoLiveOwn(Abs())) ==> NoLiveOwn(Abs())
      ensures end.Cleaned? ==> calls >= 2 && (svc.value.ingress <==> obj.ingress && !StatusPatched(calls - 2))
      ensures KeepsLive()
      ensures Quiet(old(calls), calls) ==> end.Cleaned?
    {
      var ok := ClearLabelAndStatus(obj);
      if !ok { return Failed; }
      ok := DropFinalizer(obj.(hash := None, ingress := obj.ingress && !StatusPatched(calls - 1)));
      return if ok then Cleaned else Failed;
    }

    method ClearLabelAndStatus(obj: Service) returns (ok: bool)
      requires Valid() && pc == Unlabel(obj) && OnlySpec(Some(obj), svc) && obj.finalizer
      modifies this
      ensures Valid() && Went() && pc == if ok then Unfinalize else Idle
      ensures ok ==> calls > old(calls)
                     && OnlySpec(Some(obj.(hash := None, ingress := obj.ingress && !StatusPatched(calls - 1))), svc)
      ensures ok && JobsFine(old(calls), calls) && old(NoLiveOwn(Abs())) ==> NoLiveOwn(Abs())
      ensures KeepsLive()
      ensures Quiet(old(calls), calls) ==> ok
    {
      ok := ClearLabel(obj);
      if ok { ok := ClearStatus(obj); }
    }

    method DropFinalizer(ghost held: Service) returns (ok: bool)
      requires Valid() && pc.Unfinalize? && OnlySpec(Some(held), svc) && held.finalizer
      modifies this
      ensures Valid() && Went() && calls == old(calls) + 1 && pc.Idle?
      ensures ok ==> OnlySpec(Some(held.(finalizer := false)), svc) && steps[|steps| - 1] == RemoveFinalizer(Ok)
      ensures ok && JobsFine(old(calls), calls) && old(NoLiveOwn(Abs())) ==> NoLiveOwn(Abs())
      ensures KeepsLive()
      ensures Quiet(old(calls), calls) ==> ok
    {
      Ahead();
      if NoLiveOwn(Abs()) { StillNoLiveOwn(); }
      ok := RemoveFinalizers();
    }

    method ClearLabel(obj: Service) returns (ok: bool)
      requires Valid() && pc == Unlabel(obj) && OnlySpec(Some(obj), svc) && obj.finalizer
      modifies this
      ensures Valid() && Went() && calls == old(calls) + 1 && pc == if ok then Unstatus(obj) else Idle
      ensures ok ==> OnlySpec(Some(obj.(hash := None)), svc)
      ensures ok && JobsFine(old(calls), calls) && old(NoLiveOwn(Abs())) ==> NoLiveOwn(Abs())
      ensures KeepsLive()
      ensures Quiet(old(calls), calls) ==> ok
    {
      Ahead();
      if NoLiveOwn(Abs()) { StillNoLiveOwn(); }
      ok := RemoveServiceLabels(obj);
    }

    method ClearStatus(obj: Service) returns (ok: bool)
      requires Valid() && pc == Unstatus(obj) && OnlySpec(Some(obj.(hash := None)), svc) && obj.finalizer
      modifies this
      ensures Valid() && Went() && calls == old(calls) + 1 && pc == if ok then Unfinalize else Idle
      ensures ok ==> OnlySpec(Some(obj.(hash := None, ingress := obj.ingress && !StatusPatched(old(calls)))), svc)
      ensures ok && JobsFine(old(calls), calls) && old(NoLiveOwn(Abs())) ==> NoLiveOwn(Abs())
      ensures KeepsLive()
      ensures Quiet(old(calls), calls) ==> ok
    {
      Ahead();
      if NoLiveOwn(Abs()) { StillNoLiveOwn(); }
      ok := RemoveServiceStatus(obj);
    }

    /** The status patch of call `k` takes effect in one of its tries. */
    ghost predicate StatusPatched(k: nat) {
      Retried(oracle(k).tries, STATUS_TRIES).effect
    }

    /** The object had this state after the first `k` steps. */
    ghost predicate ReadAt(k: nat, obj: Service)
      reads this
    {
      k <= |steps| && Runnable(start, steps[..k]) && Exec(start, steps[..k]).svc == Some(obj)
    }

    /** The reconcile path.  A complete one has set the finalizer, stored the hash of
        the object that the second read returned, and written the status. */
    method ReconcileLoadBalancerResources() returns (end: RunEnd, obj: Service, ghost read: nat)
      requires Valid() && pc.Refresh?
      modifies this
      ensures Valid() && Went() && pc.Idle? && (end.Reconciled? || end.Failed?)
      ensures EndMeans(Abs(), end)
      ensures end.Reconciled? ==> svc.value.hash == Some(obj.spec) && |old(steps)| < read && ReadAt(read, obj)
      ensures end.Reconciled? ==> steps[|steps| - 1] == SetStatus(true)
      ensures old(svc).Some? && !NeedDelete(old(svc).value.spec) && Quiet(old(calls), calls) ==>
                && end == (if !old(svc).value.spec.buildable || Refuses(old(Abs()), old(svc).value) then Failed else Reconciled)
                && obj.spec == old(svc).value.spec
                && (end.Reconciled? && HashChanged(old(svc).value) ==> !NoOwn(Abs()))
      ensures KeepsLive() || (|old(steps)| < read && ReadAt(read, obj) && NeedDelete(obj.spec) && HashChanged(obj) && obj.finalizer)
    {
      var ok;
      ok, obj := ReadAgain();
      read := |steps|;
      if !ok { return Failed, obj, read; }
      ghost var here := steps;
      assert here[..read] == here;
      end := ReconcileObject(obj);
      assert steps[..read] == here;
    }

    /** The second read. */
    method ReadAgain() returns (ok: bool, obj: Service)
      requires Valid() && pc.Refresh?
      modifies this
      ensures Valid() && Went() && calls == old(calls) + 1 && |old(steps)| < |steps| && KeepsLive()
      ensures pc == if ok then Build(obj) else Idle
      ensures ok ==> svc == Some(obj) && obj.finalizer
      ensures old(svc).Some? && !old(svc).value.spec.terminating && Quiet(old(calls), calls) ==>
                ok && lbs == old(lbs) && obj == old(svc).value.(finalizer := true)
    {
      Ahead();
      ok, obj := AddFinalizers();
    }

    /** Build, apply and store. */
    method ReconcileObject(obj: Service) returns (end: RunEnd)
      requires Valid() && pc == Build(obj) && HasFinalizer(Abs())
      modifies this
      ensures Valid() && Went() && pc.Idle? && (end.Reconciled? || end.Failed?)
      ensures EndMeans(Abs(), end)
      ensures end.Reconciled? ==> svc.value.hash == Some(obj.spec) && steps[|steps| - 1] == SetStatus(true)
      ensures Quiet(old(calls), calls) && !NeedDelete(obj.spec) ==>
                && end == (if !obj.spec.buildable || Refuses(old(Abs()), obj) then Failed else Reconciled)
                && (end.Reconciled? && HashChanged(obj) ==> !NoOwn(Abs()))
      ensures !HashChanged(obj) || !NeedDelete(obj.spec) ==> KeepsLive()
    {
      var err := BuildAndApply(obj);
      if !err.NoError? { return Failed; }
      var ok := StoreResult(obj);
      end := if ok then Reconciled else Failed;
    }

    /** `buildAndApplyModel` on the reconcile path. */
    method BuildAndApply(obj: Service) returns (err: Err)
      requires Valid() && pc == Build(obj) && HasFinalizer(Abs())
      modifies this
      ensures Valid() && Went() && OnlySpec(old(svc), svc)
      ensures pc == if err.NoError? then Label(obj) else Idle
      ensures !NeedDelete(obj.spec) && !obj.spec.buildable ==> err.Other?
      ensures Quiet(old(calls), calls) && !NeedDelete(obj.spec) ==>
                svc == old(svc) && if !obj.spec.buildable || Refuses(old(Abs()), obj) then err.Other? else err.NoError?
      ensures !HashChanged(obj) || !NeedDelete(obj.spec) ==> KeepsLive()
      ensures Quiet(old(calls), calls) && HashChanged(obj) && !NeedDelete(obj.spec) && err.NoError? ==> !NoOwn(Abs())
    {
      Ahead();
      var ok := BuildLocalModel(obj);
      if !ok { return Other; }
      err := Apply(false, obj);
    }

    /** Label and status. */
    method StoreResult(obj: Service) returns (ok: bool)
      requires Valid() && pc == Label(obj) && HasFinalizer(Abs())
      modifies this
      ensures Valid() && Went() && pc.Idle?
      ensures ok ==> HasFinalizer(Abs()) && svc.value.hash == Some(obj.spec) && svc.value.ingress
      ensures ok ==> steps[|steps| - 1] == SetStatus(true)
      ensures KeepsLive()
      ensures Quiet(old(calls), calls) ==> ok && lbs == old(lbs)
    {
      Ahead();
      ok := AddServiceLabels(obj);
      if !ok { return; }
      Ahead();
      ok := UpdateServiceStatus();
    }

    // -------------------------------------------------------------------------- runs

    /** One whole run.  `obj` is the object that the run worked on, or was about to work on
        when a call failed: what the first read returned, or on the reconcile path what the
        service was after the first `read` steps.  A live load balancer is put at risk only
        for a terminating or unwanted service whose hash differs. */
    method Reconcile() returns (end: RunEnd, ghost obj: Service, ghost read: nat)
      requires Valid() && pc.Idle?
      modifies this
      ensures Valid() && Went() && |old(steps)| < |steps| && pc.Idle? && EndMeans(Abs(), end)
      ensures end.Reconciled? ==> svc.value.hash == Some(obj.spec) && |old(steps)| < read && ReadAt(read, obj)
      ensures end.Cleaned? ==> (obj.spec.terminating || !obj.spec.wantsLB) && obj.finalizer && Met().svc == Some(obj)
      ensures end.Cleaned? && obj.hash != Some(obj.spec) && JobsFine(old(calls), calls) ==> NoLiveOwn(Abs())
      ensures end.Cleaned? ==> calls >= 2 && (svc.value.ingress <==> obj.ingress && !StatusPatched(calls - 2))
      ensures KeepsLive() || ((obj.spec.terminating || !obj.spec.wantsLB) && obj.hash != Some(obj.spec)
                              && (Met().svc == Some(obj) || (|old(steps)| < read && ReadAt(read, obj))))
      ensures Quiet(old(calls), calls) ==> end == Expected(old(Abs()))
      ensures Quiet(old(calls), calls) && end.Reconciled? ==> svc.value.hash == Some(old(svc).value.spec)
      ensures Quiet(old(calls), calls) && old(svc).Some? && old(svc).value.spec.wantsLB && !old(svc).value.spec.terminating ==>
                KeepsLive() && if old(QuietFailure(Abs(), svc.value)) then end.Failed? else end.Reconciled?
      ensures Quiet(old(calls), calls) && end.Reconciled? && old(svc).value.hash != Some(old(svc).value.spec) ==>
                exists i :: i in lbs && (lbs[i].name == me || me in lbs[i].tags)
      ensures Quiet(old(calls), calls) && (old(svc).Some? ==> old(svc).value.spec.terminating || !old(svc).value.spec.wantsLB) ==>
                if old(svc).Some? && old(svc).value.finalizer then end.Cleaned? else end.Skipped?
    {
      ghost var s := Abs();
      if s.svc.Some? && s.svc.value.spec.wantsLB && !s.svc.value.spec.terminating { QuietFailureExactly(s); }
      end, obj, read := TakePath();
    }

    /** The first read, and the path that it decides for. */
    method TakePath() returns (end: RunEnd, ghost obj: Service, ghost read: nat)
      requires Valid() && pc.Idle?
      modifies this
      ensures Valid() && Went() && |old(steps)| < |steps| && pc.Idle? && EndMeans(Abs(), end)
      ensures end.Reconciled? ==> svc.value.hash == Some(obj.spec) && |old(steps)| < read && ReadAt(read, obj)
      ensures end.Cleaned? ==> NeedDelete(obj.spec) && obj.finalizer && Met().svc == Some(obj)
      ensures end.Cleaned? && HashChanged(obj) && JobsFine(old(calls), calls) ==> NoLiveOwn(Abs())
      ensures end.Cleaned? ==> calls >= 2 && (svc.value.ingress <==> obj.ingress && !StatusPatched(calls - 2))
      ensures KeepsLive() || (NeedDelete(obj.spec) && HashChanged(obj)
                              && (Met().svc == Some(obj) || (|old(steps)| < read && ReadAt(read, obj))))
      ensures Quiet(old(calls), calls) ==>
                && end == Expected(old(Abs()))
                && (end.Reconciled? || end.Failed? ==> old(svc).Some? && obj.spec == old(svc).value.spec)
                && (end.Reconciled? && HashChanged(old(svc).value) ==> !NoOwn(Abs()))
    {
      var exists_, snap := ReadFirst();
      obj, read := snap, 0;
      if !exists_ { return Skipped, obj, read; }
      end, obj, read := FollowPath(snap);
    }

    method ReadFirst() returns (exists_: bool, obj: Service)
      requires Valid() && pc.Idle?
      modifies this
      ensures Valid() && Went() && calls == old(calls) + 1 && |old(steps)| < |steps| && KeepsLive()
      ensures exists_ ==> obj == EMPTY || (svc == Some(obj) && Met().svc == Some(obj))
      ensures pc == if !exists_ then Idle
                    else if !NeedDelete(obj.spec) then Refresh
                    else if obj.finalizer then FindTag(true, obj) else Idle
      ensures Quiet(old(calls), calls) ==>
                svc == old(svc) && lbs == old(lbs) && exists_ == svc.Some? && (exists_ ==> obj == svc.value)
    {
      Ahead();
      exists_, obj := GetService();
    }

    /** Cleanup or reconcile.  An object that was not read needs no load balancer and has
        no finalizer. */
    method FollowPath(snap: Service) returns (end: RunEnd, ghost obj: Service, ghost read: nat)
      requires Valid() && (snap == EMPTY || svc == Some(snap))
      requires pc == if !NeedDelete(snap.spec) then Refresh else if snap.finalizer then FindTag(true, snap) else Idle
      modifies this
      ensures Valid() && Went() && pc.Idle? && EndMeans(Abs(), end)
      ensures end.Reconciled? ==> svc.value.hash == Some(obj.spec) && |old(steps)| < read && ReadAt(read, obj)
      ensures end.Cleaned? ==> NeedDelete(obj.spec) && obj.finalizer && obj == snap
      ensures end.Cleaned? && HashChanged(obj) && JobsFine(old(calls), calls) ==> NoLiveOwn(Abs())
      ensures end.Cleaned? ==> calls >= 2 && (svc.value.ingress <==> obj.ingress && !StatusPatched(calls - 2))
      ensures KeepsLive() || (NeedDelete(obj.spec) && HashChanged(obj) && obj.finalizer
                              && (obj == snap || (|old(steps)| < read && ReadAt(read, obj))))
      ensures Quiet(old(calls), calls) && old(svc) == Some(snap) ==>
                && end == Expected(old(Abs()))
                && (end.Reconciled? || end.Failed? ==> obj.spec == snap.spec)
                && (end.Reconciled? && HashChanged(snap) ==> !NoOwn(Abs()))
    {
      obj, read := snap, 0;
      if NeedDelete(snap.spec) {
        end := CleanupLoadBalancerResources(snap);
      } else {
        end, obj, read := ReconcileLoadBalancerResources();
      }
    }

    /** The state after the first `k` steps. */
    ghost function StateAt(k: nat): State
      reads this
    {
      if k <= |steps| && Runnable(start, steps[..k]) then Exec(start, steps[..k]) else start
    }

    /** What one run among many came to, between two points of the history. */
    ghost predicate RunFact(p: Point, q: Point, end: RunEnd)
      reads this
    {
      && p.steps < q.steps <= |steps| && p.calls <= q.calls
      && StateAt(q.steps).pc.Idle? && EndMeans(StateAt(q.steps), end)
      && (Quiet(p.calls, q.calls) ==> end == Expected(StateAt(p.steps)))
    }

    lemma Here()
      requires Valid()
      ensures StateAt(|steps|) == Abs()
    {
      assert steps[..|steps|] == steps;
    }

    /** Any number of runs from a new service.  Each ends as its answers decide, and
        after every single step the service has at most one load balancer; while steps
        are guarded a live one implies the finalizer. */
    method ReconcileRepeatedly(runs: nat) returns (ends: seq<RunEnd>, ghost points: seq<Point>)
      requires Valid() && steps == [] && Init(start)
      modifies this
      ensures Valid() && start == old(start) && |ends| == runs && |points| == runs + 1
      ensures points[0] == Point(0, old(calls)) && points[runs] == Point(|steps|, calls)
      ensures forall n :: 0 <= n < runs ==> RunFact(points[n], points[n + 1], ends[n])
      ensures forall k :: 0 <= k <= |steps| ==> Safe(start, steps, k)
    {
      ends, points := [], [Point(0, calls)];
      for n := 0 to runs
        invariant Valid() && pc.Idle? && start == old(start) && |ends| == n && |points| == n + 1
        invariant points[0] == Point(0, old(calls)) && points[n] == Point(|steps|, calls)
        invariant forall m :: 0 <= m < n ==> RunFact(points[m], points[m + 1], ends[m])
      {
        var end := RunOnce(ends, points);
        ends, points := ends + [end], points + [Point(|steps|, calls)];
      }
      forall k | 0 <= k <= |steps| ensures Safe(start, steps, k) {
        SafeAt(start, steps, k);
      }
    }

    method RunOnce(ends: seq<RunEnd>, ghost points: seq<Point>) returns (end: RunEnd)
      requires Valid() && pc.Idle? && |points| == |ends| + 1 && points[|ends|] == Point(|steps|, calls)
      requires forall m :: 0 <= m < |ends| ==> RunFact(points[m], points[m + 1], ends[m])
      modifies this
      ensures Valid() && pc.Idle? && start == old(start)
      ensures forall m :: 0 <= m < |ends| ==> RunFact(points[m], points[m + 1], ends[m])
      ensures RunFact(points[|ends|], Point(|steps|, calls), end)
    {
      Here();
      ghost var obj, read;
      ghost var before := steps;
      end, obj, read := Reconcile();
      Here();
      forall k | 0 <= k <= |before| ensures steps[..k] == before[..k] {}
      assert StateAt(|before|) == old(Abs());
      forall m | 0 <= m < |ends| ensures RunFact(points[m], points[m + 1], ends[m]) {
        assert old(RunFact(points[m], points[m + 1], ends[m]));
      }
    }
  }

  datatype Point = Point(steps: nat, calls: nat)

  /** The life-cycle claims after the first `k` steps. */
  ghost predicate Safe(start: State, steps: seq<Step>, k: nat)
    requires k <= |steps|
  {
    && Runnable(start, steps[..k])
    && AtMostOne(Exec(start, steps[..k]))
    && (GuardedRun(start, steps[..k]) ==> NoLeak(Exec(start, steps[..k])))
  }

  lemma SafeAt(start: State, steps: seq<Step>, k: nat)
    requires Init(start) && Runnable(start, steps) && k <= |steps|
    ensures Safe(start, steps, k)
  {
    RunnablePrefix(start, steps, k);
    AtMostOneAlways(start, steps[..k]);
    if GuardedRun(start, steps[..k]) { NoLeakAlways(start, steps[..k]); }
  }

  /** The API server refuses a new finalizer on a terminating object. */
  function FinalizerOutcome(svc: Option<Service>, o: Outcome): Outcome {
    if svc.None? || (svc.value.spec.terminating && !svc.value.finalizer) then Fail else o
  }

  /** All tries of a status patch.  The read of a missing object fails at once. */
  function StatusTry(svc: Option<Service>, tries: seq<Try>): (r: Try)
    ensures r.effect ==> svc.Some?
    ensures svc.Some? && tries == [] ==> r == Try(true, NoTryError)
  {
    if svc.None? then Try(false, Final) else Retried(tries, STATUS_TRIES)
  }

  /** The `k`-th try asks for another, or ends in a final error, or takes effect. */
  predicate AsksAgain(tries: seq<Try>, k: nat) { k < |tries| && tries[k].error.Again? }

  predicate EndsInError(tries: seq<Try>, k: nat) { k < |tries| && tries[k].error.Final? }

  predicate Patches(tries: seq<Try>, k: nat) { k < |tries| && !tries[k].error.NoTryError? ==> tries[k].effect }

  /** Three tries are made while each asks for another; the first that does not is the
      last.  The patch took effect if one of those made did. */
  lemma ThreeTries(tries: seq<Try>)
    ensures var r := Retried(tries, STATUS_TRIES);
            && (r.error.Again? <==> AsksAgain(tries, 0) && AsksAgain(tries, 1) && AsksAgain(tries, 2))
            && (r.error.Final? <==>
                  || EndsInError(tries, 0)
                  || (AsksAgain(tries, 0) && EndsInError(tries, 1))
                  || (AsksAgain(tries, 0) && AsksAgain(tries, 1) && EndsInError(tries, 2)))
            && (r.effect <==>
                  || Patches(tries, 0)
                  || (AsksAgain(tries, 0) && Patches(tries, 1))
                  || (AsksAgain(tries, 0) && AsksAgain(tries, 1) && Patches(tries, 2)))
  {
    RetriedOnce(tries, 2);
    if AsksAgain(tries, 0) {
      RetriedOnce(tries[1..], 1);
      if AsksAgain(tries, 1) { RetriedOnce(tries[1..][1..], 0); }
    }
  }

  lemma RetriedOnce(tries: seq<Try>, n: nat)
    ensures AsksAgain(tries, 0) ==>
              var r, later := Retried(tries, n + 1), Retried(tries[1..], n);
              r.error == later.error && (r.effect <==> tries[0].effect || later.effect)
    ensures !AsksAgain(tries, 0) ==>
              var r := Retried(tries, n + 1);
              (r.error.Final? <==> EndsInError(tries, 0)) && !r.error.Again? && (r.effect <==> Patches(tries, 0))
  {
  }

  /** The refusals of the attribute phase, given what the search found. */
  predicate RefusesFound(s: State, obj: Service, id: Option<Id>) {
    && HashChanged(obj) && !NeedDelete(obj.spec)
    && if id.None? then obj.ingress else Immutable(s, id.value, obj)
  }

  lemma RefusesAsFound(s: State, obj: Service, id: Option<Id>)
    requires AtMostOne(s) && (id.None? <==> NoOwn(s)) && (id.Some? ==> id.value in s.lbs && Own(s.me, s.lbs[id.value]))
    ensures RefusesFound(s, obj, id) <==> Refuses(s, obj)
  {
  }

  /** The update would change an attribute of this load balancer that is fixed. */
  predicate Immutable(met: State, id: Id, obj: Service) {
    id in met.lbs && !Compatible(obj.spec.fixed, met.lbs[id].fixed)
  }

  /** A patch of a missing object fails. */
  function PatchOutcome(svc: Option<Service>, o: Outcome): Outcome {
    if svc.None? then Fail else o
  }

  function SearchResult(matches: set<Id>, o: Outcome): (r: Lookup)
    ensures Answers(r, matches)
  {
    if !o.Ok? then Error
    else if matches == {} then Nothing
    else if |matches| == 1 then Found(Single(matches))
    else Error
  }

  function Single(matches: set<Id>): (id: Id)
    requires |matches| == 1
    ensures matches == {id}
  {
    OneElement(matches);
    var id :| id in matches;
    id
  }

  lemma OneElement(matches: set<Id>)
    requires |matches| == 1
    ensures exists id :: id in matches
    ensures forall id :: id in matches ==> matches == {id}
  {
    forall id | id in matches ensures matches == {id} {
      assert |matches - {id}| == 0;
    }
    assert matches != {};
  }

  /** With truthful answers a search cannot find more than one load balancer. */
  lemma QuietSearch(s: State)
    requires SearchInv(s)
    ensures |Tagged(s)| <= 1 && |Named(s)| <= 1
    ensures NoOwn(s) <==> Tagged(s) == {} && Named(s) == {}
  {
    if Tagged(s) == {} && Named(s) == {} {
      forall i | i in s.lbs ensures !Own(s.me, s.lbs[i]) {
        assert i !in Tagged(s) && i !in Named(s);
      }
    }
    AtMostOneElement(Tagged(s));
    AtMostOneElement(Named(s));
  }

  lemma AtMostOneElement(ids: set<Id>)
    requires forall i, j :: i in ids && j in ids ==> i == j
    ensures |ids| <= 1
  {
    if i :| i in ids { assert ids == {i}; }
  }
}
