/** Forwarding-rule requests of an application load balancer: rules are sent in
    batches, creations and deletions from the head, updates from the tail. */
module RuleBatches {
  import opened Common

  const BATCH_MAX_NUM := 10
  const BATCH_DEFAULT_NUM := 9

  /** One request and what became of it. */
  datatype Sent<T> = Sent(chunk: seq<T>, outcome: Outcome)

  function BatchSize(cnt: int): (r: int)
    ensures 1 <= r <= 9
    ensures 1 <= cnt <= 9 ==> r == cnt
  {
    if cnt <= 0 || cnt >= BATCH_MAX_NUM then BATCH_DEFAULT_NUM else cnt
  }

  method Send<T>(chunk: seq<T>) returns (outcome: Outcome)
  {
    outcome := *;
  }

  /** What the requests carry together, in the order they were made. */
  function Carried<T>(log: seq<Sent<T>>): seq<T> {
    if log == [] then [] else Carried(log[..|log| - 1]) + log[|log| - 1].chunk
  }

  /** The same with the latest request in front. */
  function CarriedBack<T>(log: seq<Sent<T>>): seq<T> {
    if log == [] then [] else log[|log| - 1].chunk + CarriedBack(log[..|log| - 1])
  }

  predicate Prefix<T(==)>(a: seq<T>, b: seq<T>) { |a| <= |b| && a == b[..|a|] }

  predicate Suffix<T(==)>(a: seq<T>, b: seq<T>) { |a| <= |b| && a == b[|b| - |a|..] }

  /** Every request has between 1 and `size` rules, only the last may have fewer than
      `size`, and only the last may have failed. */
  predicate Chunked<T>(log: seq<Sent<T>>, size: int) {
    forall k :: 0 <= k < |log| ==>
      && 1 <= |log[k].chunk| <= size
      && (k < |log| - 1 ==> |log[k].chunk| == size && log[k].outcome.Ok?)
  }

  predicate AllAccepted<T>(log: seq<Sent<T>>) {
    forall k :: 0 <= k < |log| ==> log[k].outcome.Ok?
  }

  predicate AllFull<T>(log: seq<Sent<T>>, size: int) {
    forall k :: 0 <= k < |log| ==> |log[k].chunk| == size
  }

  lemma ChunkedStep<T>(log: seq<Sent<T>>, e: Sent<T>, size: int)
    requires AllFull(log, size) && AllAccepted(log) && 1 <= |e.chunk| <= size
    ensures Chunked(log + [e], size)
    ensures Carried(log + [e]) == Carried(log) + e.chunk
    ensures CarriedBack(log + [e]) == e.chunk + CarriedBack(log)
    ensures |e.chunk| == size ==> AllFull(log + [e], size)
    ensures e.outcome.Ok? <==> AllAccepted(log + [e])
  {
    assert (log + [e])[..|log|] == log;
  }

  /** What the head-first loops keep. */
  ghost predicate Sending<T>(log: seq<Sent<T>>, rules: seq<T>, all: seq<T>, size: int) {
    AllFull(log, size) && AllAccepted(log) && Carried(log) + rules == all
  }

  lemma SendingStep<T>(log: seq<Sent<T>>, rules: seq<T>, all: seq<T>, size: int, n: nat, outcome: Outcome)
    requires Sending(log, rules, all, size) && 1 <= n <= size && n <= |rules|
    ensures var log' := log + [Sent(rules[..n], outcome)];
            && Chunked(log', size) && Prefix(Carried(log'), all)
            && (outcome.Ok? <==> AllAccepted(log'))
            && (outcome.Ok? && n == size ==> Sending(log', rules[n..], all, size))
            && (n == |rules| ==> Carried(log') == all)
  {
    ChunkedStep(log, Sent(rules[..n], outcome), size);
    MoveOver(Carried(log), rules, n, all);
  }

  lemma MoveOver<T>(sent: seq<T>, rules: seq<T>, n: nat, all: seq<T>)
    requires sent + rules == all && n <= |rules|
    ensures sent + rules[..n] + rules[n..] == all && Prefix(sent + rules[..n], all)
    ensures n == |rules| ==> sent + rules[..n] == all
  {
    assert rules == rules[..n] + rules[n..];
  }

  lemma SendingDone<T>(log: seq<Sent<T>>, all: seq<T>, size: int)
    requires Sending(log, [], all, size) && size >= 1
    ensures Chunked(log, size) && Carried(log) == all && Prefix(Carried(log), all)
  {
    assert Carried(log) + [] == Carried(log);
  }

  /** `BatchDeleteRules`. */
  method BatchDeleteRules<T(==)>(all: seq<T>, cnt: int) returns (ok: bool, log: seq<Sent<T>>)
    ensures Chunked(log, BatchSize(cnt)) && Prefix(Carried(log), all)
    ensures ok <==> AllAccepted(log)
    ensures ok ==> Carried(log) == all
  {
    var rules, size := all, BatchSize(cnt);
    log := [];
    while |rules| > size
      invariant Sending(log, rules, all, size)
      decreases |rules|
    {
      var outcome := Send(rules[..size]);
      SendingStep(log, rules, all, size, size, outcome);
      log := log + [Sent(rules[..size], outcome)];
      if !outcome.Ok? { return false, log; }
      rules := rules[size..];
    }
    if |rules| <= 0 {
      SendingDone(log, all, size);
      return true, log;
    }
    var outcome := Send(rules);
    SendingStep(log, rules, all, size, |rules|, outcome);
    assert rules[..|rules|] == rules;
    log := log + [Sent(rules, outcome)];
    return outcome.Ok?, log;
  }

  method SendCreate<T>(chunk: seq<T>) returns (outcome: Outcome, ids: seq<string>)
  {
    outcome, ids := *, *;
  }

  /** `BatchCreateRules`: the ids of all the responses, or the first error. */
  method BatchCreateRules<T(==)>(all: seq<T>, cnt: int)
    returns (r: Option<seq<string>>, log: seq<Sent<T>>, answers: seq<Sent<string>>)
    ensures Chunked(log, BatchSize(cnt)) && Prefix(Carried(log), all)
    ensures r.Some? <==> AllAccepted(log)
    ensures r.Some? ==> Carried(log) == all && |answers| == |log| && r.value == Carried(answers)
  {
    var rules, size, res := all, BatchSize(cnt), [];
    log, answers := [], [];
    while |rules| > size
      invariant Sending(log, rules, all, size)
      invariant |answers| == |log| && res == Carried(answers)
      decreases |rules|
    {
      var outcome, ids := SendCreate(rules[..size]);
      SendingStep(log, rules, all, size, size, outcome);
      log := log + [Sent(rules[..size], outcome)];
      if !outcome.Ok? { return None, log, answers; }
      assert (answers + [Sent(ids, outcome)])[..|answers|] == answers;
      answers := answers + [Sent(ids, outcome)];
      res := res + ids;
      rules := rules[size..];
    }
    if |rules| <= 0 {
      SendingDone(log, all, size);
      return Some(res), log, answers;
    }
    var outcome, ids := SendCreate(rules);
    SendingStep(log, rules, all, size, |rules|, outcome);
    assert rules[..|rules|] == rules;
    log := log + [Sent(rules, outcome)];
    if !outcome.Ok? { return None, log, answers; }
    assert (answers + [Sent(ids, outcome)])[..|answers|] == answers;
    answers := answers + [Sent(ids, outcome)];
    return Some(res + ids), log, answers;
  }

  /** `waitListenerStatus`. */
  method WaitListenerStatus() returns (ready: bool)
  {
    ready := *;
  }

  /** What the tail-first loop keeps. */
  ghost predicate SendingBack<T>(log: seq<Sent<T>>, rules: seq<T>, all: seq<T>, size: int) {
    AllFull(log, size) && AllAccepted(log) && rules + CarriedBack(log) == all
  }

  /** Whatever happens a suffix of the rules has been sent. Success means that all have
      been, and were accepted; failure that a request was not or that rules are left. */
  ghost predicate SentBack<T>(ok: bool, log: seq<Sent<T>>, all: seq<T>, size: int) {
    && Chunked(log, size)
    && Suffix(CarriedBack(log), all)
    && (ok <==> AllAccepted(log) && CarriedBack(log) == all)
  }

  lemma SendingBackStep<T>(log: seq<Sent<T>>, rules: seq<T>, all: seq<T>, size: int, n: nat, outcome: Outcome)
    requires SendingBack(log, rules, all, size) && n < |rules| && |rules| - n <= size
    ensures var log' := log + [Sent(rules[n..], outcome)];
            && SentBack(outcome.Ok? && n == 0, log', all, size)
            && (outcome.Ok? && |rules| - n == size ==> SendingBack(log', rules[..n], all, size))
  {
    ChunkedStep(log, Sent(rules[n..], outcome), size);
    MoveBack(CarriedBack(log), rules, n, all);
  }

  lemma SendingBackStart<T>(all: seq<T>, size: int)
    ensures SendingBack([], all, all, size)
  {
    assert all + [] == all;
  }

  lemma SendingBackDone<T>(log: seq<Sent<T>>, rules: seq<T>, all: seq<T>, size: int)
    requires SendingBack(log, rules, all, size) && size >= 1 && rules == []
    ensures SentBack(true, log, all, size)
  {
    assert rules + CarriedBack(log) == CarriedBack(log);
  }

  lemma MoveBack<T>(sent: seq<T>, rules: seq<T>, n: nat, all: seq<T>)
    requires rules + sent == all && n <= |rules|
    ensures rules[..n] + (rules[n..] + sent) == all && Suffix(rules[n..] + sent, all)
    ensures n == 0 <==> rules[n..] + sent == all
  {
    assert rules == rules[..n] + rules[n..];
    assert n > 0 ==> |rules[n..] + sent| < |all|;
  }

  /** One request with the rules from `n` on. */
  method SendTail<T(==)>(log: seq<Sent<T>>, rules: seq<T>, n: nat, size: int, ghost all: seq<T>)
    returns (accepted: bool, log': seq<Sent<T>>)
    requires SendingBack(log, rules, all, size) && n < |rules| && |rules| - n <= size
    ensures SentBack(accepted && n == 0, log', all, size)
    ensures accepted && |rules| - n == size ==> SendingBack(log', rules[..n], all, size)
    ensures |log'| == |log| + 1 && (accepted <==> AllAccepted(log'))
  {
    var outcome := Send(rules[n..]);
    SendingBackStep(log, rules, all, size, n, outcome);
    return outcome.Ok?, log + [Sent(rules[n..], outcome)];
  }

  /** The listener is waited for between two requests, and a failed wait ends the run. */
  predicate Waited<T>(ok: bool, log: seq<Sent<T>>, waits: seq<bool>) {
    if !ok && AllAccepted(log) then
      |waits| == |log| && |waits| > 0 && !waits[|waits| - 1] && forall k :: 0 <= k < |waits| - 1 ==> waits[k]
    else
      |waits| == (if log == [] then 0 else |log| - 1) && forall k :: 0 <= k < |waits| ==> waits[k]
  }

  /** `BatchUpdateRules`; `waits` says how the waits for the listener ended. */
  method BatchUpdateRules<T(==)>(all: seq<T>, cnt: int) returns (ok: bool, log: seq<Sent<T>>, waits: seq<bool>)
    ensures SentBack(ok, log, all, BatchSize(cnt))
    ensures Waited(ok, log, waits)
  {
    var rules, size := all, BatchSize(cnt);
    var total := |rules|;
    log, waits := [], [];
    SendingBackStart(all, size);
    while total > size
      invariant SendingBack(log, rules, all, size) && total == |rules| && (log != [] ==> rules != [])
      invariant |waits| == |log| && forall k :: 0 <= k < |waits| ==> waits[k]
      decreases total
    {
      ok, log := SendTail(log, rules, total - size, size, all);
      if !ok { return; }
      rules := rules[..total - size];
      total := |rules|;
      ok := WaitListenerStatus();
      waits := waits + [ok];
      if !ok { return; }
    }
    if total <= 0 {
      SendingBackDone(log, rules, all, size);
      return true, log, waits;
    }
    ok, log := SendTail(log, rules, 0, size, all);
  }

  // --------------------------------------------------------------------- rule updates

  /** A rule as the listener has it, or as it should be.  Actions and conditions stand for
      their converted forms, which are compared as a whole. */
  datatype Rule = Rule(priority: int, name: string, actions: string, conditions: string)

  /** A desired rule matched with a deployed one.  `sound` says that the comparison and, if
      needed, the conversion of the actions succeed. */
  datatype RulePair = RulePair(id: string, direction: string, current: Rule, desired: Rule, sound: bool)
  {
    predicate NeedUpdate() {
      || desired.name != current.name || desired.actions != current.actions
      || desired.conditions != current.conditions || desired.priority != current.priority
    }
  }

  /** A request carries the parts that differ. */
  datatype Update = Update(id: string, priority: Option<int>, name: Option<string>, actions: Option<string>,
                           conditions: Option<string>)

  function PartOf<T(==)>(desired: T, current: T): Option<T> {
    if desired != current then Some(desired) else None
  }

  function UpdateOf(p: RulePair): Update {
    Update(p.id, PartOf(p.desired.priority, p.current.priority), PartOf(p.desired.name, p.current.name),
           PartOf(p.desired.actions, p.current.actions), PartOf(p.desired.conditions, p.current.conditions))
  }

  /** Rules that need no update are left out. */
  function Updates(pairs: seq<RulePair>): seq<Update> {
    if pairs == [] then []
    else (if pairs[0].NeedUpdate() then [UpdateOf(pairs[0])] else []) + Updates(pairs[1..])
  }

  lemma {:induction false} UpdatesAppend(a: seq<RulePair>, p: RulePair)
    ensures Updates(a + [p]) == Updates(a) + if p.NeedUpdate() then [UpdateOf(p)] else []
  {
    var s: seq<Update> := if p.NeedUpdate() then [UpdateOf(p)] else [];
    if a == [] {
      assert a + [p] == [p] && [p][1..] == [];
      assert Updates([p]) == s + [] == s && [] + s == s;
    } else {
      assert (a + [p])[1..] == a[1..] + [p] && (a + [p])[0] == a[0];
      UpdatesAppend(a[1..], p);
      var h: seq<Update> := if a[0].NeedUpdate() then [UpdateOf(a[0])] else [];
      assert h + (Updates(a[1..]) + s) == (h + Updates(a[1..])) + s;
    }
  }

  /** Nothing is sent for a rule that is as desired, and a request for any other, with each
      part that differs and no other. */
  lemma UpdatesExactly(pairs: seq<RulePair>)
    ensures AskExactly(Updates(pairs), pairs)
  {
    forall u | u in Updates(pairs) ensures exists p :: p in pairs && p.desired != p.current && Asks(u, p) {
      AskedFor(pairs, u);
    }
    forall p | p in pairs && p.desired != p.current ensures exists u :: u in Updates(pairs) && Asks(u, p) {
      Asked(pairs, p);
      assert Asks(UpdateOf(p), p);
    }
  }

  lemma {:induction false} Asked(pairs: seq<RulePair>, p: RulePair)
    requires p in pairs && p.desired != p.current
    ensures UpdateOf(p) in Updates(pairs)
  {
    if pairs[0] != p { Asked(pairs[1..], p); }
  }

  lemma {:induction false} AskedFor(pairs: seq<RulePair>, u: Update)
    requires u in Updates(pairs)
    ensures exists p :: p in pairs && p.desired != p.current && Asks(u, p)
  {
    if pairs[0].NeedUpdate() && u == UpdateOf(pairs[0]) {
      assert Asks(u, pairs[0]);
    } else {
      AskedFor(pairs[1..], u);
    }
  }

  predicate AskExactly(us: seq<Update>, pairs: seq<RulePair>) {
    && (forall u :: u in us ==> exists p :: p in pairs && p.desired != p.current && Asks(u, p))
    && (forall p :: p in pairs && p.desired != p.current ==> exists u :: u in us && Asks(u, p))
  }

  /** This request is for this rule, with the desired value of every part that differs. */
  predicate Asks(u: Update, p: RulePair) {
    && u.id == p.id
    && (if p.desired.priority == p.current.priority then u.priority.None? else u.priority == Some(p.desired.priority))
    && (if p.desired.name == p.current.name then u.name.None? else u.name == Some(p.desired.name))
    && (if p.desired.actions == p.current.actions then u.actions.None? else u.actions == Some(p.desired.actions))
    && (if p.desired.conditions == p.current.conditions then u.conditions.None? else u.conditions == Some(p.desired.conditions))
  }

  /** `transRulePairsToSDKUpdateRules`. */
  method TransRulePairsToSDKUpdateRules(pairs: seq<RulePair>) returns (rules: Option<seq<Update>>)
    ensures rules.Some? <==> forall i :: 0 <= i < |pairs| ==> pairs[i].sound
    ensures rules.Some? ==> rules.value == Updates(pairs) && AskExactly(rules.value, pairs)
  {
    var done: seq<Update> := [];
    for i := 0 to |pairs|
      invariant done == Updates(pairs[..i]) && forall k :: 0 <= k < i ==> pairs[k].sound
    {
      assert pairs[..i + 1] == pairs[..i] + [pairs[i]];
      UpdatesAppend(pairs[..i], pairs[i]);
      if !pairs[i].sound { return None; }
      if !pairs[i].NeedUpdate() { continue; }
      done := done + [UpdateOf(pairs[i])];
    }
    assert pairs[..|pairs|] == pairs;
    UpdatesExactly(pairs);
    return Some(done);
  }

  // -------------------------------------------------------- the rules of the listener

  type Rules = map<string, Rule>

  function Or<T>(part: Option<T>, otherwise: T): T { if part.Some? then part.value else otherwise }

  /** A request replaces the parts that it carries. */
  function Changed(m: Rules, u: Update): Rules {
    if u.id in m then m[u.id := Replaced(m[u.id], u)] else m
  }

  function Replaced(r: Rule, u: Update): Rule {
    Rule(Or(u.priority, r.priority), Or(u.name, r.name), Or(u.actions, r.actions), Or(u.conditions, r.conditions))
  }

  function AllChanged(m: Rules, us: seq<Update>): Rules
    decreases |us|
  {
    if us == [] then m else AllChanged(Changed(m, us[0]), us[1..])
  }

  /** The listener after the requests: one that failed changes nothing, one whose
      answer was lost has taken effect. */
  function After(m: Rules, log: seq<Sent<Update>>): Rules {
    if log == [] then m
    else
      var before, e := After(m, log[..|log| - 1]), log[|log| - 1];
      if e.outcome.Fail? then before else AllChanged(before, e.chunk)
  }

  predicate DistinctIds(us: seq<Update>) {
    forall i, j :: 0 <= i < j < |us| ==> us[i].id != us[j].id
  }

  /** The direction of each rule, request or response. It never changes. */
  type Directions = string -> string

  /** No two rules of one direction share a priority. */
  ghost predicate Injective(m: Rules, d: Directions) {
    forall a, b :: a in m && b in m && a != b && d(a) == d(b) ==> m[a].priority != m[b].priority
  }

  /** The rule `id` after the updates. */
  function RuleAfter(m: Rules, us: seq<Update>, id: string): Option<Rule> {
    if id !in m then None
    else if us == [] then Some(m[id])
    else if us[0].id == id then Some(Replaced(m[id], us[0]))
    else RuleAfter(m, us[1..], id)
  }

  lemma {:induction false} AllChangedAt(m: Rules, us: seq<Update>, id: string)
    requires DistinctIds(us)
    ensures id in AllChanged(m, us) <==> RuleAfter(m, us, id).Some?
    ensures id in AllChanged(m, us) ==> AllChanged(m, us)[id] == RuleAfter(m, us, id).value
    decreases |us|
  {
    if us != [] {
      AllChangedAt(Changed(m, us[0]), us[1..], id);
      Untouched(m, us[0], us[1..], id);
    }
  }

  lemma {:induction false} Untouched(m: Rules, u: Update, us: seq<Update>, id: string)
    requires forall i :: 0 <= i < |us| ==> us[i].id != u.id
    ensures RuleAfter(Changed(m, u), us, id)
         == if u.id == id && id in m then Some(Replaced(m[id], u)) else RuleAfter(m, us, id)
  {
    if us != [] {
      Untouched(m, u, us[1..], id);
    }
  }

  lemma {:induction false} RuleAfterConcat(m: Rules, a: seq<Update>, b: seq<Update>, id: string)
    requires DistinctIds(a + b)
    ensures RuleAfter(AllChanged(m, b), a, id) == RuleAfter(m, a + b, id)
  {
    if a == [] {
      assert a + b == b;
      AllChangedAt(m, b, id);
    } else {
      assert (a + b)[1..] == a[1..] + b;
      RuleAfterConcat(m, a[1..], b, id);
      DistinctParts(a, b);
      AllChangedAt(m, b, id);
      RuleAfterSome(m, b, id);
      if a[0].id == id { assert forall i :: 0 <= i < |b| ==> (a + b)[|a| + i] == b[i]; }
    }
  }

  lemma {:induction false} RuleAfterSome(m: Rules, us: seq<Update>, id: string)
    ensures RuleAfter(m, us, id).Some? <==> id in m
    ensures id in m && (forall i :: 0 <= i < |us| ==> us[i].id != id) ==> RuleAfter(m, us, id) == Some(m[id])
  {
    if us != [] { RuleAfterSome(m, us[1..], id); }
  }

  /** Updating the tail first gives the same rules as updating in order. */
  lemma TailFirst(m: Rules, a: seq<Update>, b: seq<Update>)
    requires DistinctIds(a + b)
    ensures AllChanged(AllChanged(m, b), a) == AllChanged(m, a + b)
  {
    DistinctParts(a, b);
    forall id
      ensures id in AllChanged(AllChanged(m, b), a) <==> id in AllChanged(m, a + b)
      ensures id in AllChanged(m, a + b) ==> AllChanged(AllChanged(m, b), a)[id] == AllChanged(m, a + b)[id]
    {
      AllChangedAt(AllChanged(m, b), a, id);
      AllChangedAt(m, a + b, id);
      RuleAfterConcat(m, a, b, id);
    }
  }

  lemma DistinctParts(a: seq<Update>, b: seq<Update>)
    requires DistinctIds(a + b)
    ensures DistinctIds(a) && DistinctIds(b)
  {
    assert forall i :: 0 <= i < |a| ==> (a + b)[i] == a[i];
    assert forall i :: 0 <= i < |b| ==> (a + b)[|a| + i] == b[i];
  }

  lemma DistinctSuffix(us: seq<Update>, j: nat)
    requires DistinctIds(us) && j <= |us|
    ensures DistinctIds(us[j..])
  {
  }

  /** After any number of the requests, the listener is as if some suffix of the rules
      had been updated at once. */
  lemma {:induction false} SuffixApplied(m: Rules, us: seq<Update>, log: seq<Sent<Update>>, size: int)
    requires DistinctIds(us) && Chunked(log, size) && Suffix(CarriedBack(log), us)
    ensures AllAccepted(log) ==> After(m, log) == AllChanged(m, CarriedBack(log))
    ensures exists j :: 0 <= j <= |us| && After(m, log) == AllChanged(m, us[j..])
  {
    if log == [] {
      assert us[|us|..] == [];
    } else {
      var front, e := log[..|log| - 1], log[|log| - 1];
      var done := CarriedBack(front);
      assert CarriedBack(log) == e.chunk + done;
      assert Suffix(done, us);
      assert Chunked(front, size) && AllAccepted(front);
      SuffixApplied(m, us, front, size);
      DistinctSuffix(us, |us| - |CarriedBack(log)|);
      TailFirst(m, e.chunk, done);
    }
  }

  // ------------------------------------------------------------- priorities stay distinct

  /** The pairs in the order the updates are prepared in: by current priority, upward or
      (when rules are deleted as well) downward. Within a direction desired priorities
      follow the same order, and no rule moves against it. */
  predicate Ordered(pairs: seq<RulePair>, up: bool) {
    && (forall i, j :: 0 <= i < j < |pairs| ==> pairs[i].id != pairs[j].id)
    && (forall i, j :: 0 <= i < j < |pairs| && pairs[i].direction == pairs[j].direction ==>
          Before(pairs[i].current.priority, pairs[j].current.priority, up) && Before(pairs[i].desired.priority, pairs[j].desired.priority, up))
    && (forall i :: 0 <= i < |pairs| ==> pairs[i].desired.priority == pairs[i].current.priority || Before(pairs[i].current.priority, pairs[i].desired.priority, up))
  }

  predicate Distinguished(pairs: seq<RulePair>) {
    forall i, j :: 0 <= i < j < |pairs| ==>
      pairs[i].id != pairs[j].id && (pairs[i].direction == pairs[j].direction ==> pairs[i].desired.priority != pairs[j].desired.priority)
  }

  /** No rule moves to a priority that a rule before it of its direction still has. */
  predicate Clear(pairs: seq<RulePair>) {
    forall i, j :: 0 <= i < j < |pairs| && pairs[i].direction == pairs[j].direction ==> pairs[i].current.priority != pairs[j].desired.priority
  }

  /** Pairs that are matched by priority and direction do not move at all. */
  lemma MatchedIsClear(pairs: seq<RulePair>)
    requires forall i, j :: 0 <= i < j < |pairs| ==>
               pairs[i].id != pairs[j].id && (pairs[i].direction == pairs[j].direction ==> pairs[i].current.priority != pairs[j].current.priority)
    requires forall i :: 0 <= i < |pairs| ==> pairs[i].desired.priority == pairs[i].current.priority
    ensures Distinguished(pairs) && Clear(pairs)
    ensures forall u :: u in Updates(pairs) ==> u.priority.None?
  {
    NoPriorities(pairs);
  }

  lemma {:induction false} NoPriorities(pairs: seq<RulePair>)
    requires forall i :: 0 <= i < |pairs| ==> pairs[i].desired.priority == pairs[i].current.priority
    ensures forall u :: u in Updates(pairs) ==> u.priority.None?
  {
    if pairs != [] { NoPriorities(pairs[1..]); }
  }

  lemma OrderedIsClear(pairs: seq<RulePair>, up: bool)
    requires Ordered(pairs, up)
    ensures Distinguished(pairs) && Clear(pairs)
  {
    forall i, j | 0 <= i < j < |pairs| && pairs[i].direction == pairs[j].direction
      ensures pairs[i].current.priority != pairs[j].desired.priority && pairs[i].desired.priority != pairs[j].desired.priority
    {
      assert Before(pairs[i].current.priority, pairs[j].current.priority, up);
      assert Before(pairs[i].desired.priority, pairs[j].desired.priority, up);
    }
  }

  predicate Before(a: int, b: int, up: bool) { if up then a < b else b < a }

  /** The pairs are rules of the listener, and the other rules are out of their way. */
  ghost predicate Fits(m: Rules, d: Directions, pairs: seq<RulePair>) {
    && Injective(m, d)
    && (forall p :: p in pairs ==> p.id in m && m[p.id] == p.current && d(p.id) == p.direction)
    && (forall id, p :: id in m && p in pairs && Other(pairs, id) && d(id) == p.direction ==> m[id].priority != p.desired.priority)
  }

  predicate Other(pairs: seq<RulePair>, id: string) {
    forall p :: p in pairs ==> p.id != id
  }

  /** The listener when the pairs from `c` on are as desired. */
  function Target(pairs: seq<RulePair>, c: nat, id: string, otherwise: Rule): Rule
    decreases |pairs| - c
  {
    if c >= |pairs| then otherwise
    else if pairs[c].id == id then pairs[c].desired
    else Target(pairs, c + 1, id, otherwise)
  }

  lemma {:induction false} UpdatesIds(pairs: seq<RulePair>)
    requires forall i, j :: 0 <= i < j < |pairs| ==> pairs[i].id != pairs[j].id
    ensures DistinctIds(Updates(pairs))
    ensures forall u :: u in Updates(pairs) ==> exists p :: p in pairs && p.id == u.id
  {
    if pairs != [] {
      UpdatesIds(pairs[1..]);
      var first: seq<Update> := if pairs[0].NeedUpdate() then [UpdateOf(pairs[0])] else [];
      assert forall p :: p in pairs[1..] ==> p in pairs && p.id != pairs[0].id;
      assert pairs[0] in pairs;
      var rest := Updates(pairs[1..]);
      forall i, j | 0 <= i < j < |first + rest| ensures (first + rest)[i].id != (first + rest)[j].id {
        assert (first + rest)[j] in rest || |first| == 0;
        if |first| == 1 { assert (first + rest)[j] == rest[j - 1]; assert rest[j - 1] in rest; }
      }
    }
  }

  /** A suffix of the updates is the updates of a suffix of the pairs. */
  lemma {:induction false} SuffixOfPairs(pairs: seq<RulePair>, j: nat)
    requires j <= |Updates(pairs)|
    ensures exists c :: 0 <= c <= |pairs| && Updates(pairs)[j..] == Updates(pairs[c..])
  {
    if j == 0 {
      assert Updates(pairs)[0..] == Updates(pairs) && pairs[0..] == pairs;
    } else {
      var skip := if pairs[0].NeedUpdate() then 1 else 0;
      SuffixOfPairs(pairs[1..], j - skip);
      var c :| 0 <= c <= |pairs[1..]| && Updates(pairs[1..])[j - skip..] == Updates(pairs[1..][c..]);
      assert pairs[1..][c..] == pairs[c + 1..];
      assert Updates(pairs)[j..] == Updates(pairs[1..])[j - skip..];
    }
  }

  lemma {:induction false} AppliedPairs(m: Rules, pairs: seq<RulePair>, c: nat, id: string)
    requires c <= |pairs| && (forall i, j :: 0 <= i < j < |pairs| ==> pairs[i].id != pairs[j].id)
    requires forall p :: p in pairs ==> p.id in m && m[p.id] == p.current
    ensures RuleAfter(m, Updates(pairs[c..]), id)
         == if id in m then Some(Target(pairs, c, id, m[id])) else None
    decreases |pairs| - c
  {
    if c < |pairs| {
      assert pairs[c..][1..] == pairs[c + 1..] && pairs[c] in pairs;
      AppliedPairs(m, pairs, c + 1, id);
      if pairs[c].id == id { TargetNone(pairs, c + 1, id, m[id]); }
      var rest := Updates(pairs[c + 1..]);
      if pairs[c].NeedUpdate() { assert ([UpdateOf(pairs[c])] + rest)[1..] == rest; } else { assert [] + rest == rest; }
    }
  }

  lemma {:induction false} TargetNone(pairs: seq<RulePair>, c: nat, id: string, otherwise: Rule)
    requires forall i :: c <= i < |pairs| ==> pairs[i].id != id
    ensures Target(pairs, c, id, otherwise) == otherwise
    decreases |pairs| - c
  {
    if c < |pairs| { TargetNone(pairs, c + 1, id, otherwise); }
  }

  lemma {:induction false} TargetSome(pairs: seq<RulePair>, c: nat, i: nat, otherwise: Rule)
    requires forall i, j :: 0 <= i < j < |pairs| ==> pairs[i].id != pairs[j].id
    requires c <= i < |pairs|
    ensures Target(pairs, c, pairs[i].id, otherwise) == pairs[i].desired
    decreases i - c
  {
    if c < i { TargetSome(pairs, c + 1, i, otherwise); }
  }

  /** The rule of a pair at a cut. */
  lemma PairAt(m: Rules, d: Directions, pairs: seq<RulePair>, c: nat, i: nat)
    requires Distinguished(pairs) && Fits(m, d, pairs) && c <= |pairs| && i < |pairs|
    ensures pairs[i].id in m
    ensures Target(pairs, c, pairs[i].id, m[pairs[i].id]) == if i < c then pairs[i].current else pairs[i].desired
  {
    assert pairs[i] in pairs;
    if i < c { TargetNone(pairs, c, pairs[i].id, m[pairs[i].id]); } else { TargetSome(pairs, c, i, m[pairs[i].id]); }
  }

  lemma CutDistinct(m: Rules, d: Directions, pairs: seq<RulePair>, c: nat, a: string, b: string)
    requires Distinguished(pairs) && Clear(pairs) && Fits(m, d, pairs) && c <= |pairs| && a in m && b in m && a != b && d(a) == d(b)
    ensures Target(pairs, c, a, m[a]).priority != Target(pairs, c, b, m[b]).priority
  {
    if Other(pairs, a) && Other(pairs, b) {
      OtherAt(pairs, c, a, m[a]);
      OtherAt(pairs, c, b, m[b]);
    } else if Other(pairs, a) {
      var j := IndexOf(pairs, b);
      OtherAt(pairs, c, a, m[a]);
      PairAt(m, d, pairs, c, j);
      assert pairs[j] in pairs;
    } else if Other(pairs, b) {
      var i := IndexOf(pairs, a);
      OtherAt(pairs, c, b, m[b]);
      PairAt(m, d, pairs, c, i);
      assert pairs[i] in pairs;
    } else {
      var i, j := IndexOf(pairs, a), IndexOf(pairs, b);
      PairAt(m, d, pairs, c, i);
      PairAt(m, d, pairs, c, j);
      assert m[a].priority != m[b].priority;
    }
  }

  ghost function IndexOf(pairs: seq<RulePair>, id: string): (i: nat)
    requires !Other(pairs, id)
    ensures i < |pairs| && pairs[i].id == id
  {
    var p :| p in pairs && p.id == id;
    var i :| 0 <= i < |pairs| && pairs[i] == p;
    i
  }

  lemma OtherAt(pairs: seq<RulePair>, c: nat, id: string, otherwise: Rule)
    requires Other(pairs, id) && c <= |pairs|
    ensures Target(pairs, c, id, otherwise) == otherwise
  {
    assert forall i :: c <= i < |pairs| ==> pairs[i] in pairs;
    TargetNone(pairs, c, id, otherwise);
  }

  lemma CutInjective(m: Rules, d: Directions, pairs: seq<RulePair>, c: nat)
    requires Distinguished(pairs) && Clear(pairs) && Fits(m, d, pairs) && c <= |pairs|
    ensures Injective(AllChanged(m, Updates(pairs[c..])), d)
  {
    var us := Updates(pairs[c..]);
    UpdatesIds(pairs[c..]);
    var m' := AllChanged(m, us);
    forall a, b | a in m' && b in m' && a != b && d(a) == d(b) ensures m'[a].priority != m'[b].priority {
      AllChangedAt(m, us, a);
      AllChangedAt(m, us, b);
      AppliedPairs(m, pairs, c, a);
      AppliedPairs(m, pairs, c, b);
      CutDistinct(m, d, pairs, c, a, b);
    }
  }

  /** Wherever the updates are cut, priorities are distinct if and only if the pairs are
      clear. */
  lemma ClearExactly(m: Rules, d: Directions, pairs: seq<RulePair>)
    requires Distinguished(pairs) && Fits(m, d, pairs)
    ensures Clear(pairs) <==> forall c :: 0 <= c <= |pairs| ==> Injective(AllChanged(m, Updates(pairs[c..])), d)
  {
    if Clear(pairs) {
      forall c | 0 <= c <= |pairs| ensures Injective(AllChanged(m, Updates(pairs[c..])), d) {
        CutInjective(m, d, pairs, c);
      }
    } else {
      var i, j :| 0 <= i < j < |pairs| && pairs[i].direction == pairs[j].direction && pairs[i].current.priority == pairs[j].desired.priority;
      Collision(m, d, pairs, i, j);
    }
  }

  lemma Collision(m: Rules, d: Directions, pairs: seq<RulePair>, i: nat, j: nat)
    requires Distinguished(pairs) && Fits(m, d, pairs) && i < j < |pairs|
    requires pairs[i].direction == pairs[j].direction && pairs[i].current.priority == pairs[j].desired.priority
    ensures !Injective(AllChanged(m, Updates(pairs[j..])), d)
  {
    var us, a, b := Updates(pairs[j..]), pairs[i].id, pairs[j].id;
    UpdatesIds(pairs[j..]);
    AllChangedAt(m, us, a);
    AllChangedAt(m, us, b);
    AppliedPairs(m, pairs, j, a);
    AppliedPairs(m, pairs, j, b);
    PairAt(m, d, pairs, j, i);
    PairAt(m, d, pairs, j, j);
    assert pairs[i] in pairs && pairs[j] in pairs;
    assert a != b && d(a) == d(b) && a in AllChanged(m, us) && b in AllChanged(m, us);
  }

  /** After any number of update requests, whatever the outcome of the last, no two
      rules of the listener share a priority. */
  lemma DistinctThroughout(m: Rules, d: Directions, pairs: seq<RulePair>, log: seq<Sent<Update>>, size: int)
    requires Distinguished(pairs) && Clear(pairs) && Fits(m, d, pairs)
    requires Chunked(log, size) && Suffix(CarriedBack(log), Updates(pairs))
    ensures Injective(After(m, log), d)
  {
    UpdatesIds(pairs);
    SuffixApplied(m, Updates(pairs), log, size);
    var j :| 0 <= j <= |Updates(pairs)| && After(m, log) == AllChanged(m, Updates(pairs)[j..]);
    SuffixOfPairs(pairs, j);
    var c :| 0 <= c <= |pairs| && Updates(pairs)[j..] == Updates(pairs[c..]);
    CutInjective(m, d, pairs, c);
  }

  /** A log cut short is a log. */
  lemma LogPrefix<T>(log: seq<Sent<T>>, size: int, all: seq<T>, k: nat)
    requires Chunked(log, size) && Suffix(CarriedBack(log), all) && k <= |log|
    ensures Chunked(log[..k], size) && Suffix(CarriedBack(log[..k]), all)
    decreases |log|
  {
    if k == |log| {
      assert log[..k] == log;
    } else {
      var front := log[..|log| - 1];
      assert CarriedBack(log) == log[|log| - 1].chunk + CarriedBack(front);
      LogPrefix(front, size, all, k);
      assert front[..k] == log[..k];
    }
  }

  /** `UpdateALBListenerRules`: nothing is sent if a rule cannot be converted or the
      listener is unknown; otherwise on success every matched rule is as desired, and was
      sent only if it was not.  Other rules stay.  For clear pairs priorities are distinct
      after each request along the way. */
  method UpdateALBListenerRules(pairs: seq<RulePair>, listenerKnown: bool, ghost m: Rules, ghost d: Directions)
    returns (ok: bool, log: seq<Sent<Update>>)
    requires Distinguished(pairs) && Fits(m, d, pairs)
    ensures UpdatesDone(m, d, pairs, ok, log)
    ensures if (forall i :: 0 <= i < |pairs| ==> pairs[i].sound) && (listenerKnown || Settled(pairs))
            then SentBack(ok, log, Updates(pairs), BATCH_DEFAULT_NUM)
            else !ok && log == []
  {
    RequestedExactly(pairs);
    var rules := TransRulePairsToSDKUpdateRules(pairs);
    if rules.None? || (|rules.value| != 0 && !listenerKnown) {
      ok, log := false, [];
    } else if |rules.value| == 0 {
      ok, log := true, [];
    } else {
      var waits;
      ok, log, waits := BatchUpdateRules(rules.value, BATCH_DEFAULT_NUM);
    }
    UpdatesDoneAfter(m, d, pairs, ok, log);
  }

  /** For clear pairs priorities are distinct after each request; on success every matched
      rule is as desired, was sent only if it was not, and other rules stay. */
  ghost predicate UpdatesDone(m: Rules, d: Directions, pairs: seq<RulePair>, ok: bool, log: seq<Sent<Update>>) {
    && (Clear(pairs) ==> DistinctAfterEach(m, d, log))
    && (ok ==> AllDesired(pairs, After(m, log)) && OthersKept(pairs, m, After(m, log)))
    && (ok ==> RequestedIfChanged(pairs, CarriedBack(log)))
  }

  lemma UpdatesDoneAfter(m: Rules, d: Directions, pairs: seq<RulePair>, ok: bool, log: seq<Sent<Update>>)
    requires Distinguished(pairs) && Fits(m, d, pairs)
    requires SentBack(ok, log, Updates(pairs), BATCH_DEFAULT_NUM) || (!ok && log == [])
    ensures UpdatesDone(m, d, pairs, ok, log)
  {
    RequestedExactly(pairs);
    NothingSent(m, d, pairs);
    if Clear(pairs) && log != [] { DistinctAll(m, d, pairs, log); }
    if ok { AllAtTarget(m, d, pairs, log); }
  }

  lemma NothingSent(m: Rules, d: Directions, pairs: seq<RulePair>)
    requires Fits(m, d, pairs)
    ensures DistinctAfterEach(m, d, [])
  {
  }

  /** No two rules of a direction share a priority after any number of the requests. */
  ghost predicate DistinctAfterEach(m: Rules, d: Directions, log: seq<Sent<Update>>) {
    forall k :: 0 <= k <= |log| ==> Injective(After(m, log[..k]), d)
  }

  lemma DistinctAll(m: Rules, d: Directions, pairs: seq<RulePair>, log: seq<Sent<Update>>)
    requires Distinguished(pairs) && Clear(pairs) && Fits(m, d, pairs)
    requires Chunked(log, BATCH_DEFAULT_NUM) && Suffix(CarriedBack(log), Updates(pairs))
    ensures DistinctAfterEach(m, d, log)
  {
    forall k | 0 <= k <= |log| ensures Injective(After(m, log[..k]), d) {
      DistinctAt(m, d, pairs, log, k);
    }
  }

  lemma DistinctAt(m: Rules, d: Directions, pairs: seq<RulePair>, log: seq<Sent<Update>>, k: nat)
    requires Distinguished(pairs) && Clear(pairs) && Fits(m, d, pairs) && k <= |log|
    requires Chunked(log, BATCH_DEFAULT_NUM) && Suffix(CarriedBack(log), Updates(pairs))
    ensures Injective(After(m, log[..k]), d)
  {
    LogPrefix(log, BATCH_DEFAULT_NUM, Updates(pairs), k);
    DistinctThroughout(m, d, pairs, log[..k], BATCH_DEFAULT_NUM);
  }

  /** Every rule is as desired. */
  predicate Settled(pairs: seq<RulePair>) {
    forall p :: p in pairs ==> p.current == p.desired
  }

  /** Every matched rule has each part as desired. */
  ghost predicate AllDesired(pairs: seq<RulePair>, m: Rules) {
    forall p :: p in pairs ==> p.id in m && m[p.id] == p.desired
  }

  /** The rules that are not matched are as before. */
  ghost predicate OthersKept(pairs: seq<RulePair>, m: Rules, m': Rules) {
    forall id :: Other(pairs, id) ==> (id in m' <==> id in m) && (id in m ==> m'[id] == m[id])
  }

  /** A request is made for a matched rule exactly when it is not as desired. */
  ghost predicate RequestedIfChanged(pairs: seq<RulePair>, us: seq<Update>) {
    forall p :: p in pairs ==> (Requested(us, p.id) <==> p.desired != p.current)
  }

  predicate Requested(us: seq<Update>, id: string) {
    exists u :: u in us && u.id == id
  }

  lemma RequestedExactly(pairs: seq<RulePair>)
    requires Distinguished(pairs)
    ensures RequestedIfChanged(pairs, Updates(pairs))
    ensures Updates(pairs) == [] <==> Settled(pairs)
  {
    UpdatesExactly(pairs);
    if Updates(pairs) != [] { assert Updates(pairs)[0] in Updates(pairs); }
  }

  lemma AllAtTarget(m: Rules, d: Directions, pairs: seq<RulePair>, log: seq<Sent<Update>>)
    requires Distinguished(pairs) && Fits(m, d, pairs) && AllAccepted(log) && Chunked(log, BATCH_DEFAULT_NUM) && CarriedBack(log) == Updates(pairs)
    ensures AllDesired(pairs, After(m, log)) && OthersKept(pairs, m, After(m, log))
  {
    UpdatesIds(pairs);
    SuffixApplied(m, Updates(pairs), log, BATCH_DEFAULT_NUM);
    assert pairs[0..] == pairs;
    forall p | p in pairs ensures p.id in After(m, log) && After(m, log)[p.id] == p.desired {
      var i :| 0 <= i < |pairs| && pairs[i] == p;
      AllChangedAt(m, Updates(pairs), p.id);
      AppliedPairs(m, pairs, 0, p.id);
      PairAt(m, d, pairs, 0, i);
    }
    forall id | Other(pairs, id)
      ensures (id in After(m, log) <==> id in m) && (id in m ==> After(m, log)[id] == m[id])
    {
      AllChangedAt(m, Updates(pairs), id);
      AppliedPairs(m, pairs, 0, id);
      if id in m { OtherAt(pairs, 0, id, m[id]); }
    }
  }
}
