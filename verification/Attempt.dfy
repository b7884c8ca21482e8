/** The retry clock. Times and durations are reals; every clock reading is an input. */
module Attempts {
  /** `min` overrides `total`. */
  datatype AttemptStrategy = AttemptStrategy(total: real, delay: real, min: int)

  datatype State = State(last: real, end: real, force: bool, count: nat)

  function Max(a: real, b: real): real { if a < b then b else a }

  function NextSleep(st: AttemptStrategy, s: State, now: real): real {
    Max(0.0, st.delay - (now - s.last))
  }

  class Attempt {
    const strategy: AttemptStrategy
    var last: real
    var end: real
    var force: bool
    var count: nat

    ghost function Now(): State reads this { State(last, end, force, count) }

    /** `AttemptStrategy.Start`. */
    constructor (s: AttemptStrategy, now: real)
      ensures strategy == s && Now() == Started(s, now)
    {
      strategy, last, end, force, count := s, now, now + s.total, true, 0;
    }

    function SleepAfter(now: real): (sleep: real)
      reads this
      ensures sleep == NextSleep(strategy, Now(), now)
    {
      var sleep := strategy.delay - (now - last);
      if sleep < 0.0 then 0.0 else sleep
    }

    /** `wake` is the clock after sleeping, if the call sleeps. */
    method Next(now: real, wake: real) returns (ok: bool)
      requires wake >= now + SleepAfter(now)
      modifies this
      ensures ok <==> || old(force) || old(count) < strategy.min
                      || (now < old(end) && old(last) + strategy.delay < old(end))
      ensures ok ==> !force && count == old(count) + 1 && end == old(end)
                     && last == if old(count) > 0 && now < old(last) + strategy.delay then wake else now
      ensures !ok ==> Now() == old(Now())
      ensures ok == Allowed(strategy, old(Now()), now)
      ensures Now() == AfterNext(strategy, old(Now()), now, wake)
    {
      var sleep := SleepAfter(now);
      if !force && !(now + sleep < end) && strategy.min <= count { return false; }
      force := false;
      var at := now;
      if sleep > 0.0 && count > 0 { at := wake; }
      count := count + 1;
      last := at;
      return true;
    }

    method HasNext(now: real) returns (more: bool)
      modifies this
      ensures more <==> || old(force) || old(count) < strategy.min
                        || (now < old(end) && old(last) + strategy.delay < old(end))
      ensures Now() == old(Now()).(force := force) && (old(force) ==> force)
      ensures force || count < strategy.min <==> more
      ensures more == Allowed(strategy, old(Now()), now)
      ensures Now() == AfterHasNext(strategy, old(Now()), now)
    {
      if force || strategy.min > count { return true; }
      if now + SleepAfter(now) < end {
        force := true;
        return true;
      }
      return false;
    }
  }

  // --------------------------------------------------------------------------- traces

  function Started(st: AttemptStrategy, start: real): State {
    State(start, start + st.total, true, 0)
  }

  predicate Allowed(st: AttemptStrategy, s: State, now: real) {
    s.force || s.count < st.min || now + NextSleep(st, s, now) < s.end
  }

  predicate Sleeps(st: AttemptStrategy, s: State, now: real) {
    Allowed(st, s, now) && NextSleep(st, s, now) > 0.0 && s.count > 0
  }

  function AfterNext(st: AttemptStrategy, s: State, now: real, wake: real): State {
    if Allowed(st, s, now)
    then State(if Sleeps(st, s, now) then wake else now, s.end, false, s.count + 1)
    else s
  }

  function AfterHasNext(st: AttemptStrategy, s: State, now: real): State {
    if s.force || s.count < st.min then s
    else s.(force := Allowed(st, s, now))
  }

  datatype Call = CallNext(now: real, wake: real) | CallHasNext(now: real)

  /** A run so far: what each call returned, when the attempts were made, and the
      last clock reading. */
  datatype Run = Run(state: State, results: seq<bool>, attempts: seq<real>, clock: real)

  function Step(st: AttemptStrategy, r: Run, c: Call): Run {
    var ok := Allowed(st, r.state, c.now);
    match c
    case CallNext(now, wake) =>
      var s := AfterNext(st, r.state, now, wake);
      Run(s, r.results + [ok], if ok then r.attempts + [s.last] else r.attempts,
          if Sleeps(st, r.state, now) then wake else now)
    case CallHasNext(now) =>
      Run(AfterHasNext(st, r.state, now), r.results + [ok], r.attempts, now)
  }

  function RunOf(st: AttemptStrategy, start: real, calls: seq<Call>): (r: Run)
    ensures |r.results| == |calls|
  {
    if calls == [] then Run(Started(st, start), [], [], start)
    else Step(st, RunOf(st, start, calls[..|calls| - 1]), calls[|calls| - 1])
  }

  /** The clock never goes back, and a sleep lasts at least as long as asked. */
  predicate Timed(st: AttemptStrategy, r: Run, c: Call) {
    c.now >= r.clock && (c.CallNext? ==> c.wake >= c.now + NextSleep(st, r.state, c.now))
  }

  predicate Monotone(st: AttemptStrategy, start: real, calls: seq<Call>) {
    forall i :: 0 <= i < |calls| ==> Timed(st, RunOf(st, start, calls[..i]), calls[i])
  }

  // ------------------------------------------------------------------------- invariant

  /** `n` delays end to end. */
  function Delays(n: nat, d: real): real {
    if n == 0 then 0.0 else Delays(n - 1, d) + d
  }

  lemma {:induction false} DelaysAreProduct(n: nat, d: real)
    ensures Delays(n, d) == n as real * d
  {
    if n > 0 {
      DelaysAreProduct(n - 1, d);
      OneMore((n - 1) as real, d);
    }
  }

  lemma OneMore(x: real, d: real)
    ensures (x + 1.0) * d == x * d + d
  {
  }

  /** The `k`-th attempt is owed, or the delays before it fit in the total. */
  predicate InTime(st: AttemptStrategy, k: nat) {
    2 <= k ==> k <= st.min || Delays(k - 1, st.delay) < st.total
  }

  predicate Spaced(st: AttemptStrategy, attempts: seq<real>) {
    forall i :: 0 < i < |attempts| ==> attempts[i] >= attempts[i - 1] + st.delay
  }

  predicate Inv(st: AttemptStrategy, start: real, r: Run) {
    && r.state.end == start + st.total
    && |r.attempts| == r.state.count
    && start <= r.state.last <= r.clock
    && Spaced(st, r.attempts)
    && (forall k :: 0 <= k <= |r.attempts| ==> InTime(st, k))
    && (r.attempts == [] ==> r.state.force && r.state.last == start)
    && (r.attempts != [] ==>
          && r.attempts[|r.attempts| - 1] == r.state.last
          && r.state.last >= start + Delays(|r.attempts| - 1, st.delay)
          && (r.state.force ==> r.state.last + st.delay < r.state.end))
  }

  lemma InvStep(st: AttemptStrategy, start: real, r: Run, c: Call)
    requires Inv(st, start, r) && Timed(st, r, c)
    ensures Inv(st, start, Step(st, r, c))
  {
    if c.CallNext? && Allowed(st, r.state, c.now) && r.state.count >= 1 {
      assert Delays(r.state.count, st.delay) == Delays(r.state.count - 1, st.delay) + st.delay;
      assert InTime(st, r.state.count + 1);
    }
  }

  lemma {:induction false} InvAlways(st: AttemptStrategy, start: real, calls: seq<Call>)
    requires Monotone(st, start, calls)
    ensures Inv(st, start, RunOf(st, start, calls))
  {
    if calls != [] {
      var front := calls[..|calls| - 1];
      MonotonePrefix(st, start, calls, |front|);
      InvAlways(st, start, front);
      InvStep(st, start, RunOf(st, start, front), calls[|calls| - 1]);
    }
  }

  lemma MonotonePrefix(st: AttemptStrategy, start: real, calls: seq<Call>, n: nat)
    requires Monotone(st, start, calls) && n <= |calls|
    ensures Monotone(st, start, calls[..n])
  {
    forall i | 0 <= i < n ensures Timed(st, RunOf(st, start, calls[..n][..i]), calls[..n][i]) {
      assert calls[..n][..i] == calls[..i];
    }
  }

  // ---------------------------------------------------------------------- main results

  /** The `k`-th attempt, for `k >= 2`, is within the minimum or early enough that
      `k - 1` delays fit in the total. */
  lemma AttemptsBounded(st: AttemptStrategy, start: real, calls: seq<Call>, k: nat)
    requires Monotone(st, start, calls) && 2 <= k <= |RunOf(st, start, calls).attempts|
    ensures k <= st.min || (k - 1) as real * st.delay < st.total
  {
    AttemptInTime(st, start, calls, k);
    InTimeMeans(st, k);
  }

  lemma InTimeMeans(st: AttemptStrategy, k: nat)
    requires 2 <= k && InTime(st, k)
    ensures k <= st.min || (k - 1) as real * st.delay < st.total
  {
    DelaysAreProduct(k - 1, st.delay);
  }

  lemma AttemptInTime(st: AttemptStrategy, start: real, calls: seq<Call>, k: nat)
    requires Monotone(st, start, calls) && k <= |RunOf(st, start, calls).attempts|
    ensures InTime(st, k)
  {
    InvAlways(st, start, calls);
  }

  /** Attempts are at least a delay apart. */
  lemma AttemptsSpaced(st: AttemptStrategy, start: real, calls: seq<Call>)
    requires Monotone(st, start, calls)
    ensures var a := RunOf(st, start, calls).attempts;
            forall i :: 0 < i < |a| ==> a[i] >= a[i - 1] + st.delay
  {
    InvAlways(st, start, calls);
  }

  /** The results up to a call are those of the shorter run. */
  lemma {:induction false} ResultAt(st: AttemptStrategy, start: real, calls: seq<Call>, i: nat)
    requires i < |calls|
    ensures RunOf(st, start, calls).results[i] == Allowed(st, RunOf(st, start, calls[..i]).state, calls[i].now)
  {
    var front := calls[..|calls| - 1];
    if i < |front| {
      ResultAt(st, start, front, i);
      assert front[..i] == calls[..i];
    } else {
      assert front == calls[..i];
    }
  }

  lemma {:induction false} CallsOnly(st: AttemptStrategy, start: real, calls: seq<Call>, i: nat, j: nat)
    requires i <= j <= |calls| && forall m :: i <= m < j ==> calls[m].CallHasNext?
    ensures var s, s' := RunOf(st, start, calls[..i]).state, RunOf(st, start, calls[..j]).state;
            && s' == s.(force := s'.force) && (s.force ==> s'.force)
    decreases j
  {
    if i < j {
      CallsOnly(st, start, calls, i, j - 1);
      assert calls[..j][..j - 1] == calls[..j - 1];
    }
  }

  /** A positive answer of `HasNext` binds the next call, however late it comes. */
  lemma HasNextKept(st: AttemptStrategy, start: real, calls: seq<Call>, i: nat, j: nat)
    requires i < j < |calls| && forall m :: i <= m < j ==> calls[m].CallHasNext?
    requires RunOf(st, start, calls).results[i]
    ensures RunOf(st, start, calls).results[j]
  {
    ResultAt(st, start, calls, i);
    ResultAt(st, start, calls, j);
    assert calls[..i + 1][..i] == calls[..i];
    CallsOnly(st, start, calls, i, i + 1);
    CallsOnly(st, start, calls, i + 1, j);
  }

  /** A refusal comes only after the minimum number of attempts, and at least one. */
  lemma RefusedOnlyAfterMinimum(st: AttemptStrategy, start: real, calls: seq<Call>, i: nat)
    requires Monotone(st, start, calls) && i < |calls| && !RunOf(st, start, calls).results[i]
    ensures |RunOf(st, start, calls[..i]).attempts| >= 1
    ensures |RunOf(st, start, calls[..i]).attempts| >= st.min
  {
    ResultAt(st, start, calls, i);
    MonotonePrefix(st, start, calls, i);
    InvAlways(st, start, calls[..i]);
  }

  /** `HasNext` said yes before call `i`, with no `Next` since. */
  predicate Promised(calls: seq<Call>, results: seq<bool>, i: nat)
    requires i <= |calls| == |results|
  {
    exists h :: 0 <= h < i && results[h] && forall m :: h <= m < i ==> calls[m].CallHasNext?
  }

  /** A call is refused exactly when the minimum, and at least one attempt, has been made,
      nothing was promised, and the total has run out or would by the end of the delay. */
  lemma RefusedExactly(st: AttemptStrategy, start: real, calls: seq<Call>, i: nat)
    requires Monotone(st, start, calls) && i < |calls|
    ensures var results, a, end := RunOf(st, start, calls).results, RunOf(st, start, calls[..i]).attempts, start + st.total;
            !results[i] <==> && |a| >= 1 && |a| >= st.min && !Promised(calls, results, i)
                             && (calls[i].now >= end || a[|a| - 1] + st.delay >= end)
  {
    AllowedAt(st, start, calls, i);
    PromisesAt(st, start, calls, i);
  }

  lemma AllowedAt(st: AttemptStrategy, start: real, calls: seq<Call>, i: nat)
    requires Monotone(st, start, calls) && i < |calls|
    ensures var r, end := RunOf(st, start, calls[..i]), start + st.total;
            RunOf(st, start, calls).results[i] <==>
              || |r.attempts| == 0 || |r.attempts| < st.min || r.state.force
              || (calls[i].now < end && r.attempts[|r.attempts| - 1] + st.delay < end)
  {
    ResultAt(st, start, calls, i);
    MonotonePrefix(st, start, calls, i);
    InvAlways(st, start, calls[..i]);
    AllowedExactly(st, start, RunOf(st, start, calls[..i]), calls[i].now);
  }

  lemma PromisesAt(st: AttemptStrategy, start: real, calls: seq<Call>, i: nat)
    requires i < |calls|
    ensures Promised(calls, RunOf(st, start, calls).results, i) ==> RunOf(st, start, calls).results[i]
    ensures RunOf(st, start, calls[..i]).state.force && RunOf(st, start, calls[..i]).attempts != [] ==>
              Promised(calls, RunOf(st, start, calls).results, i)
  {
    if Promised(calls, RunOf(st, start, calls).results, i) { PromiseBinds(st, start, calls, i); }
    if RunOf(st, start, calls[..i]).state.force && RunOf(st, start, calls[..i]).attempts != [] {
      ForcedByPromise(st, start, calls, i);
    }
  }

  lemma AllowedExactly(st: AttemptStrategy, start: real, r: Run, now: real)
    requires Inv(st, start, r)
    ensures var a, end := r.attempts, start + st.total;
            Allowed(st, r.state, now) <==> || |a| == 0 || |a| < st.min || r.state.force
                                           || (now < end && a[|a| - 1] + st.delay < end)
  {
  }

  lemma PromiseBinds(st: AttemptStrategy, start: real, calls: seq<Call>, i: nat)
    requires i < |calls| && Promised(calls, RunOf(st, start, calls).results, i)
    ensures RunOf(st, start, calls).results[i]
  {
    var h :| 0 <= h < i && RunOf(st, start, calls).results[h] && forall m :: h <= m < i ==> calls[m].CallHasNext?;
    HasNextKept(st, start, calls, h, i);
  }

  /** After an attempt, only `HasNext` makes a promise. */
  lemma ForcedByPromise(st: AttemptStrategy, start: real, calls: seq<Call>, i: nat)
    requires i < |calls| && RunOf(st, start, calls[..i]).state.force && RunOf(st, start, calls[..i]).attempts != []
    ensures i > 0 && calls[i - 1].CallHasNext? && RunOf(st, start, calls).results[i - 1]
  {
    if i > 0 {
      assert calls[..i][..i - 1] == calls[..i - 1];
      ResultAt(st, start, calls, i - 1);
    }
  }

  /** After a refusal the state is frozen and every later call is refused too. */
  lemma {:induction false} RefusedForever(st: AttemptStrategy, start: real, calls: seq<Call>, i: nat, j: nat)
    requires Monotone(st, start, calls) && i < j <= |calls| && !RunOf(st, start, calls).results[i]
    ensures RunOf(st, start, calls[..j]).state == RunOf(st, start, calls[..i]).state
    ensures !Allowed(st, RunOf(st, start, calls[..j]).state, RunOf(st, start, calls[..j]).clock)
    ensures j < |calls| ==> !RunOf(st, start, calls).results[j]
    decreases j
  {
    assert calls[..j][..j - 1] == calls[..j - 1];
    if j == i + 1 {
      ResultAt(st, start, calls, i);
    } else {
      RefusedForever(st, start, calls, i, j - 1);
      ResultAt(st, start, calls, j - 1);
    }
    var r := RunOf(st, start, calls[..j]);
    if j < |calls| {
      ResultAt(st, start, calls, j);
      StaysRefused(st, r.state, r.clock, calls[j].now);
    }
  }

  lemma StaysRefused(st: AttemptStrategy, s: State, now: real, later: real)
    requires !Allowed(st, s, now) && now <= later
    ensures !Allowed(st, s, later)
  {
  }
}
