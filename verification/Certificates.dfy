/** The certificates of an ALB listener: one default and any number of extras,
    updated in two phases from a listing taken at the start. */
module Certificates {
  import opened Common

  type CertId = string

  /** A certificate in the desired model or in a listing. */
  datatype Cert = Cert(id: CertId, isDefault: bool)

  /** What the listener carries. */
  datatype Carried = Carried(default_: CertId, extras: set<CertId>)

  function All(c: Carried): set<CertId> {
    {c.default_} + c.extras
  }

  function DefaultsOf(certs: seq<Cert>): seq<CertId> {
    if certs == [] then []
    else
      var c := certs[|certs| - 1];
      DefaultsOf(certs[..|certs| - 1]) + if c.isDefault then [c.id] else []
  }

  function ExtrasOf(certs: seq<Cert>): set<CertId> {
    set c | c in certs && !c.isDefault :: c.id
  }

  function IdsOf(certs: seq<Cert>): set<CertId> {
    set c | c in certs :: c.id
  }

  lemma SplitGrows(certs: seq<Cert>, i: nat)
    requires i < |certs|
    ensures DefaultsOf(certs[..i + 1]) == DefaultsOf(certs[..i]) + if certs[i].isDefault then [certs[i].id] else []
    ensures ExtrasOf(certs[..i + 1]) == ExtrasOf(certs[..i]) + if certs[i].isDefault then {} else {certs[i].id}
  {
    assert certs[..i + 1] == certs[..i] + [certs[i]];
    assert certs[..i + 1][..i] == certs[..i];
  }

  /** `buildSDKCertificates` and its counterpart for listings. */
  method SplitCertificates(certs: seq<Cert>) returns (defaults: seq<CertId>, extras: set<CertId>)
    ensures defaults == DefaultsOf(certs) && extras == ExtrasOf(certs)
  {
    defaults, extras := [], {};
    for i := 0 to |certs|
      invariant defaults == DefaultsOf(certs[..i]) && extras == ExtrasOf(certs[..i])
    {
      SplitGrows(certs, i);
      if certs[i].isDefault {
        defaults := defaults + [certs[i].id];
      } else {
        extras := extras + {certs[i].id};
      }
    }
    assert certs[..|certs|] == certs;
  }

  /** The cloud side of one listener.  Every accepted call records the state that
      it leaves. */
  class ListenerCerts {
    var carried: Carried
    ghost var log: seq<Carried>
    ghost var faulty: bool
    ghost var waits: nat

    /** `faulty` tells whether any call so far has returned an error. */
    twostate predicate Ended(ok: bool)
      reads this
    {
      faulty == (old(faulty) || !ok)
    }

    ghost predicate Valid()
      reads this
    {
      carried.default_ !in carried.extras
    }

    constructor (c: Carried)
      requires c.default_ !in c.extras
      ensures Valid() && carried == c && log == [] && !faulty && waits == 0
    {
      carried, log, faulty, waits := c, [], false, 0;
    }

    /** `waitListenerStatus`. */
    method Wait() returns (ok: bool)
      modifies this`faulty, this`waits
      ensures Ended(ok) && waits == old(waits) + 1
    {
      ok := *;
      faulty, waits := faulty || !ok, waits + 1;
    }

    method List() returns (ok: bool, certs: seq<Cert>)
      requires Valid()
      modifies this`faulty
      ensures Ended(ok)
      ensures ok ==> DefaultsOf(certs) == [carried.default_] && ExtrasOf(certs) == carried.extras
    {
      var rest := carried.extras;
      certs := [Cert(carried.default_, true)];
      assert certs[..0] == [];
      while rest != {}
        invariant rest <= carried.extras
        invariant DefaultsOf(certs) == [carried.default_] && ExtrasOf(certs) == carried.extras - rest
        decreases rest
      {
        var x :| x in rest;
        ghost var before := certs;
        certs := certs + [Cert(x, false)];
        assert certs[..|certs| - 1] == before;
        assert ExtrasOf(certs) == ExtrasOf(before) + {x};
        rest := rest - {x};
      }
      ok := *;
      faulty := faulty || !ok;
    }

    method Associate(ids: set<CertId>) returns (ok: bool)
      modifies this`carried, this`log, this`faulty
      ensures log == old(log) + [carried] && Ended(ok)
      ensures var done := old(carried).(extras := old(carried).extras + ids);
              if ok then carried == done else carried == old(carried) || carried == done
    {
      var o: Outcome := *;
      if o.TakesEffect() { carried := carried.(extras := carried.extras + ids); }
      log := log + [carried];
      ok := o.Ok?;
      faulty := faulty || !ok;
    }

    method Dissociate(ids: set<CertId>) returns (ok: bool)
      modifies this`carried, this`log, this`faulty
      ensures log == old(log) + [carried] && Ended(ok)
      ensures var done := old(carried).(extras := old(carried).extras - ids);
              if ok then carried == done else carried == old(carried) || carried == done
    {
      var o: Outcome := *;
      if o.TakesEffect() { carried := carried.(extras := carried.extras - ids); }
      log := log + [carried];
      ok := o.Ok?;
      faulty := faulty || !ok;
    }

    /** The attribute update, with a new default certificate or without one. */
    method UpdateAttribute(newDefault: Option<CertId>) returns (ok: bool)
      modifies this`carried, this`log, this`faulty
      ensures log == old(log) + [carried] && Ended(ok)
      ensures var done := if newDefault.Some? then old(carried).(default_ := newDefault.value) else old(carried);
              if ok then carried == done else carried == old(carried) || carried == done
    {
      var o: Outcome := *;
      if o.TakesEffect() && newDefault.Some? { carried := carried.(default_ := newDefault.value); }
      log := log + [carried];
      ok := o.Ok?;
      faulty := faulty || !ok;
    }
  }

  // ------------------------------------------------------------------ the intended result

  /** The listener keeps its default while that certificate is still wanted. */
  predicate Replaces(c: Carried, default_: CertId, extras: set<CertId>) {
    default_ != c.default_ && c.default_ !in extras
  }

  /** The extras after the first phase. */
  function PlannedExtras(c: Carried, defaults: seq<CertId>, extras: set<CertId>): set<CertId> {
    if |defaults| > 0 && defaults[0] != c.default_ && c.default_ in extras
    then extras + {defaults[0]} - {c.default_}
    else extras - {c.default_}
  }

  function Planned(c: Carried, default_: CertId, extras: set<CertId>): Carried {
    Carried(if Replaces(c, default_, extras) then default_ else c.default_, PlannedExtras(c, [default_], extras))
  }

  /** The listener carries exactly the wanted certificates, one of them default. */
  predicate Converged(c: Carried, default_: CertId, extras: set<CertId>) {
    All(c) == {default_} + extras && c.default_ !in c.extras
  }

  lemma PlannedConverges(c: Carried, default_: CertId, extras: set<CertId>)
    requires default_ !in extras && c.default_ !in c.extras
    ensures Converged(Planned(c, default_, extras), default_, extras)
    ensures Converged(c, default_, extras) ==> Planned(c, default_, extras) == c
  {
    if Converged(c, default_, extras) {
      assert All(c) == {default_} + extras;
      assert c.default_ in All(c);
      assert c.extras == All(c) - {c.default_};
      if c.default_ == default_ {
        assert extras == {default_} + extras - {default_};
        assert c.extras == extras - {c.default_};
      } else {
        assert c.extras == extras + {default_} - {c.default_};
      }
    }
  }

  // ---------------------------------------------------------------------------- phase one

  /** Which extras the listener should carry, given its current default. */
  method PlanExtras(current: seq<Cert>, desired: seq<Cert>) returns (wantExtras: set<CertId>)
    ensures wantExtras ==
            if DefaultsOf(current) == [] then ExtrasOf(desired)
            else PlannedExtras(Carried(DefaultsOf(current)[0], {}), DefaultsOf(desired), ExtrasOf(desired))
  {
    var wantDefaults;
    wantDefaults, wantExtras := SplitCertificates(desired);
    var haveDefaults, _ := SplitCertificates(current);
    if |haveDefaults| != 0 {
      var replaced := false;
      if |wantDefaults| > 0 && wantDefaults[0] != haveDefaults[0] {
        if haveDefaults[0] !in wantExtras { replaced := true; }
        if !replaced { wantExtras := wantExtras + {wantDefaults[0]}; }
      }
      if haveDefaults[0] in wantExtras { wantExtras := wantExtras - {haveDefaults[0]}; }
    }
  }

  /** `updateListenerExtraCertificates`. */
  method UpdateExtras(cloud: ListenerCerts, current: seq<Cert>, desired: seq<Cert>) returns (ok: bool)
    requires DefaultsOf(current) == [cloud.carried.default_] && ExtrasOf(current) == cloud.carried.extras
    requires cloud.Valid()
    modifies cloud
    ensures cloud.Valid() && cloud.carried.default_ == old(cloud.carried.default_)
    ensures cloud.Ended(ok) && cloud.waits == old(cloud.waits)
    ensures ok ==> cloud.carried.extras == PlannedExtras(old(cloud.carried), DefaultsOf(desired), ExtrasOf(desired))
    ensures |old(cloud.log)| <= |cloud.log| && cloud.log[..|old(cloud.log)|] == old(cloud.log)
    ensures forall i :: |old(cloud.log)| <= i < |cloud.log| ==> PhaseOneState(cloud.log[i], old(cloud.carried), desired)
    ensures PlannedExtras(old(cloud.carried), DefaultsOf(desired), ExtrasOf(desired)) == old(cloud.carried.extras) ==>
              ok && cloud.log == old(cloud.log)
    ensures ok && !(old(cloud.carried.extras) <= PlannedExtras(old(cloud.carried), DefaultsOf(desired), ExtrasOf(desired))) ==>
              |old(cloud.log)| < |cloud.log| && cloud.log[|cloud.log| - 1] == cloud.carried
  {
    var wantExtras := PlanExtras(current, desired);
    var _, haveExtras := SplitCertificates(current);
    assert wantExtras == PlannedExtras(old(cloud.carried), DefaultsOf(desired), ExtrasOf(desired));
    var missing := wantExtras - haveExtras;
    if missing != {} {
      ok := cloud.Associate(missing);
      if !ok { return; }
    }
    var surplus := haveExtras - wantExtras;
    assert haveExtras + missing - surplus == wantExtras;
    assert surplus == {} ==> haveExtras + missing == wantExtras;
    if surplus != {} {
      ok := cloud.Dissociate(surplus);
      return;
    }
    ok := true;
  }

  /** Between the current and the planned extras. */
  predicate PhaseOneState(s: Carried, c: Carried, desired: seq<Cert>) {
    var plan := PlannedExtras(c, DefaultsOf(desired), ExtrasOf(desired));
    s.default_ == c.default_ && c.extras * plan <= s.extras <= c.extras + plan
  }

  // ---------------------------------------------------------------------------- phase two

  /** Desired certificates with distinct ids. */
  predicate Distinct(certs: seq<Cert>) {
    forall i, j :: 0 <= i < j < |certs| ==> certs[i].id != certs[j].id
  }

  /** The only default flag is on certificate `p`. */
  predicate OneDefault(certs: seq<Cert>, p: nat) {
    p < |certs| && forall i :: 0 <= i < |certs| ==> (certs[i].isDefault <==> i == p)
  }

  /** The model's default flag is on the listener's default. */
  predicate FlagsAgree(certs: seq<Cert>, default_: CertId) {
    forall i :: 0 <= i < |certs| ==> (certs[i].isDefault <==> certs[i].id == default_)
  }

  /** Moving the flag the way the code does: clear it on the first certificate, set
      it on every certificate with the kept default's id. */
  function MovedFlags(certs: seq<Cert>, kept: CertId): (r: seq<Cert>)
    requires |certs| > 0
    ensures |r| == |certs|
  {
    seq(|certs|, i requires 0 <= i < |certs| =>
      Cert(certs[i].id, if certs[i].id == kept then true else if i == 0 then false else certs[i].isDefault))
  }

  method MoveFlags(desired: array<Cert>, kept: CertId)
    requires desired.Length > 0
    modifies desired
    ensures desired[..] == MovedFlags(old(desired[..]), kept)
  {
    ghost var certs := desired[..];
    desired[0] := desired[0].(isDefault := false);
    for i := 0 to desired.Length
      invariant forall k :: 0 <= k < i ==> desired[k] == MovedFlags(certs, kept)[k]
      invariant forall k :: i <= k < desired.Length ==>
                  desired[k] == if k == 0 then certs[0].(isDefault := false) else certs[k]
    {
      if desired[i].id == kept {
        desired[i] := desired[i].(isDefault := true);
      }
    }
  }

  /** The certificate part of `updateListenerAttribute`: replace the default unless
      the current one is wanted as an extra; then move the model's flag instead. */
  method UpdateDefault(cloud: ListenerCerts, current: seq<Cert>, desired: array<Cert>, otherAttributes: bool)
    returns (ok: bool)
    modifies cloud, desired
    requires DefaultsOf(current) == [cloud.carried.default_]
    ensures cloud.carried.extras == old(cloud.carried.extras)
    ensures cloud.Ended(ok) && cloud.waits == old(cloud.waits)
    ensures var defaults, extras := DefaultsOf(old(desired[..])), ExtrasOf(old(desired[..]));
            var c := old(cloud.carried);
            var swap := |defaults| > 0 && Replaces(c, defaults[0], extras);
            && (cloud.carried.default_ == c.default_ || (swap && cloud.carried.default_ == defaults[0]))
            && (ok ==> cloud.carried.default_ == if swap then defaults[0] else c.default_)
            && cloud.log == (if swap || otherAttributes then old(cloud.log) + [cloud.carried] else old(cloud.log))
            && (!swap && !otherAttributes ==> ok)
            && desired[..] == if |defaults| > 0 && defaults[0] != c.default_ && !swap && desired.Length > 0
                              then MovedFlags(old(desired[..]), c.default_) else old(desired[..])
  {
    var wantDefaults, wantExtras := SplitCertificates(desired[..]);
    var haveDefaults, _ := SplitCertificates(current);
    if |haveDefaults| != 1 { return false; }
    var replace := false;
    if |wantDefaults| > 0 && wantDefaults[0] != haveDefaults[0] {
      if haveDefaults[0] !in wantExtras { replace := true; }
      if !replace && desired.Length > 0 {
        MoveFlags(desired, haveDefaults[0]);
      }
    }
    if !replace && !otherAttributes { return true; }
    ok := cloud.UpdateAttribute(if replace then Some(wantDefaults[0]) else None);
  }

  // ------------------------------------------------------------------------ the whole run

  lemma {:induction false} OneDefaultSplit(certs: seq<Cert>, p: nat)
    requires OneDefault(certs, p)
    ensures DefaultsOf(certs) == [certs[p].id]
  {
    var front := certs[..|certs| - 1];
    if p == |certs| - 1 {
      NoDefaultSplit(front);
    } else {
      OneDefaultSplit(front, p);
    }
  }

  lemma {:induction false} NoDefaultSplit(certs: seq<Cert>)
    requires forall i :: 0 <= i < |certs| ==> !certs[i].isDefault
    ensures DefaultsOf(certs) == []
  {
    if certs != [] {
      NoDefaultSplit(certs[..|certs| - 1]);
    }
  }

  lemma WantedSet(certs: seq<Cert>, p: nat)
    requires OneDefault(certs, p) && Distinct(certs)
    ensures certs[p].id !in ExtrasOf(certs)
    ensures {certs[p].id} + ExtrasOf(certs) == IdsOf(certs)
  {
    forall c | c in certs && !c.isDefault ensures c.id != certs[p].id {
      var i :| 0 <= i < |certs| && certs[i] == c;
    }
    forall c | c in certs ensures c.id in {certs[p].id} + ExtrasOf(certs) {
      var i :| 0 <= i < |certs| && certs[i] == c;
    }
    assert certs[p] in certs;
  }

  /** The one case with a gap: the new default is an extra now, and the old default
      is not wanted any more.  It is dissociated before it becomes the default. */
  predicate GapCase(c: Carried, default_: CertId, extras: set<CertId>) {
    Replaces(c, default_, extras) && default_ in c.extras
  }

  /** Certificates that are carried now and still wanted. */
  predicate NoGap(s: Carried, c: Carried, wanted: set<CertId>) {
    All(c) * wanted <= All(s)
  }

  lemma PhaseOneNoGap(s: Carried, c: Carried, desired: seq<Cert>, p: nat)
    requires OneDefault(desired, p) && Distinct(desired) && PhaseOneState(s, c, desired) && c.default_ !in c.extras
    requires !GapCase(c, desired[p].id, ExtrasOf(desired))
    ensures NoGap(s, c, IdsOf(desired))
  {
    OneDefaultSplit(desired, p);
    WantedSet(desired, p);
  }

  lemma PlanNoGap(c: Carried, default_: CertId, extras: set<CertId>)
    requires default_ !in extras && c.default_ !in c.extras
    ensures NoGap(Planned(c, default_, extras), c, {default_} + extras)
    ensures Replaces(c, default_, extras) ==> NoGap(Carried(c.default_, Planned(c, default_, extras).extras), c, extras)
  {
  }

  lemma MovedFlagsAgree(certs: seq<Cert>, p: nat, kept: CertId)
    requires OneDefault(certs, p) && Distinct(certs) && kept in ExtrasOf(certs)
    ensures FlagsAgree(MovedFlags(certs, kept), kept) <==> p == 0
  {
    var r := MovedFlags(certs, kept);
    var c :| c in certs && !c.isDefault && c.id == kept;
    var k :| 0 <= k < |certs| && certs[k] == c;
    assert certs[p].id != kept;
    if p != 0 {
      assert r[p].isDefault && r[p].id != kept;
    } else {
      forall i | 0 <= i < |r| ensures r[i].isDefault <==> r[i].id == kept {
      }
    }
  }

  /** A state that a run may pass through. */
  predicate RunState(s: Carried, c: Carried, desired: seq<Cert>, d: CertId) {
    var plan := Planned(c, d, ExtrasOf(desired));
    || PhaseOneState(s, c, desired)
    || (s.extras == plan.extras && (s.default_ == c.default_ || s.default_ == plan.default_))
  }

  lemma RunStateNoGap(s: Carried, c: Carried, desired: seq<Cert>, p: nat)
    requires OneDefault(desired, p) && Distinct(desired) && c.default_ !in c.extras
    requires RunState(s, c, desired, desired[p].id) && !GapCase(c, desired[p].id, ExtrasOf(desired))
    ensures NoGap(s, c, IdsOf(desired))
  {
    WantedSet(desired, p);
    if PhaseOneState(s, c, desired) {
      PhaseOneNoGap(s, c, desired, p);
    } else {
      PlanNoGap(c, desired[p].id, ExtrasOf(desired));
    }
  }

  /** The model's flags after a run that got as far as the second phase. */
  function FinalFlags(certs: seq<Cert>, c: Carried, d: CertId): seq<Cert>
    requires |certs| > 0
  {
    if d != c.default_ && !Replaces(c, d, ExtrasOf(certs)) then MovedFlags(certs, c.default_) else certs
  }

  /** The states of both phases. */
  lemma RunStates(log1: seq<Carried>, log: seq<Carried>, from: nat, c: Carried, desired: seq<Cert>, d: CertId, s: Carried)
    requires from <= |log1| && (forall i :: from <= i < |log1| ==> PhaseOneState(log1[i], c, desired))
    requires log == log1 || (log == log1 + [s] && RunState(s, c, desired, d))
    ensures forall i :: from <= i < |log| ==> RunState(log[i], c, desired, d)
  {
    forall i | from <= i < |log| ensures RunState(log[i], c, desired, d) {
      if i < |log1| { assert log[i] == log1[i]; }
    }
  }

  /** The listing and the first phase. */
  method ExtrasPhase(cloud: ListenerCerts, desired: seq<Cert>) returns (ok: bool, current: seq<Cert>)
    requires cloud.Valid()
    modifies cloud
    ensures cloud.Valid() && cloud.carried.default_ == old(cloud.carried.default_)
    ensures cloud.Ended(ok) && (ok ==> cloud.waits == old(cloud.waits) + 1 && DefaultsOf(current) == [cloud.carried.default_])
    ensures ok ==> cloud.carried.extras == PlannedExtras(old(cloud.carried), DefaultsOf(desired), ExtrasOf(desired))
    ensures |old(cloud.log)| <= |cloud.log| && cloud.log[..|old(cloud.log)|] == old(cloud.log)
    ensures forall i :: |old(cloud.log)| <= i < |cloud.log| ==> PhaseOneState(cloud.log[i], old(cloud.carried), desired)
    ensures PlannedExtras(old(cloud.carried), DefaultsOf(desired), ExtrasOf(desired)) == old(cloud.carried.extras) ==>
              cloud.log == old(cloud.log) && cloud.carried == old(cloud.carried)
    ensures ok && !(old(cloud.carried.extras) <= PlannedExtras(old(cloud.carried), DefaultsOf(desired), ExtrasOf(desired))) ==>
              |old(cloud.log)| < |cloud.log| && cloud.log[|cloud.log| - 1] == cloud.carried
  {
    ok, current := cloud.List();
    if !ok { return; }
    ok := UpdateExtras(cloud, current, desired);
    if !ok { return; }
    ok := cloud.Wait();
  }

  /** List once, then both phases on that listing. */
  method RunPhases(cloud: ListenerCerts, desired: array<Cert>, otherAttributes: bool, ghost p: nat, ghost d: CertId)
    returns (ok: bool)
    requires cloud.Valid() && OneDefault(desired[..], p) && d == desired[p].id && d !in ExtrasOf(desired[..])
    modifies cloud, desired
    ensures ok ==> cloud.carried == Planned(old(cloud.carried), d, old(ExtrasOf(desired[..])))
    ensures ok ==> desired[..] == FinalFlags(old(desired[..]), old(cloud.carried), d)
    ensures Planned(old(cloud.carried), d, old(ExtrasOf(desired[..]))) == old(cloud.carried) && !otherAttributes ==>
              cloud.log == old(cloud.log) && cloud.carried == old(cloud.carried)
    ensures |old(cloud.log)| <= |cloud.log| && cloud.Valid() && cloud.Ended(ok)
    ensures ok ==> cloud.waits == old(cloud.waits) + 2 && (otherAttributes ==> |old(cloud.log)| < |cloud.log|)
    ensures forall i :: |old(cloud.log)| <= i < |cloud.log| ==> RunState(cloud.log[i], old(cloud.carried), old(desired[..]), d)
    ensures ok && old(GapCase(cloud.carried, d, ExtrasOf(desired[..]))) ==>
              exists i :: |old(cloud.log)| <= i < |cloud.log| && d !in All(cloud.log[i])
  {
    ghost var c, wanted := cloud.carried, desired[..];
    OneDefaultSplit(wanted, p);
    var current;
    ok, current := ExtrasPhase(cloud, desired[..]);
    ghost var log1, after1 := cloud.log, cloud.carried;
    if !ok { return; }
    ok := UpdateDefault(cloud, current, desired, otherAttributes);
    RunStates(log1, cloud.log, |old(cloud.log)|, c, wanted, d, cloud.carried);
    if !ok { return; }
    if GapCase(c, d, ExtrasOf(wanted)) {
      assert d in c.extras && d !in after1.extras;
      assert d !in All(cloud.log[|log1| - 1]);
    }
    ok := cloud.Wait();
  }

  /** `UpdateALBListener` for a listener with certificates.  With exactly one
      desired default, a successful run leaves exactly the desired certificates with
      exactly one default, from any current state; a run that starts from such a
      state makes no certificate call.  Certificates both carried and wanted stay on
      the listener after every call unless the gap case applies, and then, on
      success, the new default is off the listener after one of the calls. */
  method UpdateALBListener(cloud: ListenerCerts, desired: array<Cert>, otherAttributes: bool, ghost p: nat)
    returns (ok: bool)
    requires cloud.Valid() && OneDefault(desired[..], p) && Distinct(desired[..])
    modifies cloud, desired
    ensures ok ==> Converged(cloud.carried, old(desired[p].id), old(ExtrasOf(desired[..])))
    ensures ok ==> All(cloud.carried) == old(IdsOf(desired[..]))
    ensures ok ==> desired[..] == FinalFlags(old(desired[..]), old(cloud.carried), old(desired[p].id))
    ensures cloud.Valid() && cloud.Ended(ok)
    ensures ok ==> cloud.waits == old(cloud.waits) + 2 && (otherAttributes ==> |old(cloud.log)| < |cloud.log|)
    ensures old(Converged(cloud.carried, desired[p].id, ExtrasOf(desired[..]))) && !otherAttributes ==>
              cloud.log == old(cloud.log) && cloud.carried == old(cloud.carried)
    ensures ok ==> (FlagsAgree(desired[..], cloud.carried.default_) <==>
                    p == 0 || cloud.carried.default_ == old(desired[p].id))
    ensures !old(GapCase(cloud.carried, desired[p].id, ExtrasOf(desired[..]))) ==>
              forall i :: |old(cloud.log)| <= i < |cloud.log| ==>
                NoGap(cloud.log[i], old(cloud.carried), old(IdsOf(desired[..])))
    ensures ok && old(GapCase(cloud.carried, desired[p].id, ExtrasOf(desired[..]))) ==>
              exists i :: |old(cloud.log)| <= i < |cloud.log| && old(desired[p].id) !in All(cloud.log[i])
  {
    ghost var c, wanted := cloud.carried, desired[..];
    ghost var d, e := wanted[p].id, ExtrasOf(wanted);
    WantedSet(wanted, p);
    PlannedConverges(c, d, e);
    ok := RunPhases(cloud, desired, otherAttributes, p, d);
    if !GapCase(c, d, e) {
      forall i | |old(cloud.log)| <= i < |cloud.log| ensures NoGap(cloud.log[i], c, IdsOf(wanted)) {
        RunStateNoGap(cloud.log[i], c, wanted, p);
      }
    }
    FlagsStart(wanted, p);
    if d != c.default_ && !Replaces(c, d, e) {
      MovedFlagsAgree(wanted, p, c.default_);
    }
  }

  lemma FlagsStart(certs: seq<Cert>, p: nat)
    requires OneDefault(certs, p) && Distinct(certs)
    ensures FlagsAgree(certs, certs[p].id)
  {
  }

  /** Flags that a run has moved are those of a model with one default again. */
  lemma FinalFlagsReady(certs: seq<Cert>, c: Carried) returns (p: nat)
    requires OneDefault(certs, 0) && Distinct(certs)
    ensures var r := FinalFlags(certs, c, certs[0].id); OneDefault(r, p) && Distinct(r) && IdsOf(r) == IdsOf(certs)
  {
    var d, kept := certs[0].id, c.default_;
    p := 0;
    if d != kept && !Replaces(c, d, ExtrasOf(certs)) {
      var x :| x in certs && !x.isDefault && x.id == kept;
      p :| p < |certs| && certs[p] == x;
      var r := MovedFlags(certs, kept);
      forall x | x in certs ensures x.id in IdsOf(r) {
        var i :| 0 <= i < |certs| && certs[i] == x;
        assert r[i] in r && r[i].id == x.id;
      }
      forall x | x in r ensures x.id in IdsOf(certs) {
        var i :| 0 <= i < |r| && r[i] == x;
        assert certs[i] in certs && certs[i].id == x.id;
      }
    }
  }

  /** The update after a successful one, with the model `certs` as that one left it, the
      default of `certs` being first.  It makes no certificate call, although the flags
      may have moved. */
  method UpdateAgain(cloud: ListenerCerts, desired: array<Cert>, ghost certs: seq<Cert>, ghost c: Carried) returns (ok: bool)
    requires cloud.Valid() && OneDefault(certs, 0) && Distinct(certs)
    requires desired[..] == FinalFlags(certs, c, certs[0].id) && Converged(cloud.carried, certs[0].id, ExtrasOf(certs))
    modifies cloud, desired
    ensures cloud.log == old(cloud.log) && cloud.carried == old(cloud.carried)
  {
    ghost var p := FinalFlagsReady(certs, c);
    WantedSet(certs, 0);
    WantedSet(desired[..], p);
    ok := UpdateALBListener(cloud, desired, false, p);
  }
}
