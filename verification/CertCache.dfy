/** The certificate list cache of the CAS provider.  Calls of many goroutines are
    interleaved step by step: a list holds the mutex while it looks into the cache
    and reads page after page, a create or delete changes the cloud before it takes
    the mutex to drop the cached list. */
module CertCache {
  import opened Common

  type Tid = nat

  /** A cached or returned list, as the cloud version at which each of its pages was
      read.  Every effective create or delete makes a new version. */
  type Pages = seq<nat>

  datatype Thread =
    | ListIdle
    | ListWaiting
    | ListLocked
    | ListFetching(pages: Pages)
    | ListDone(pages: Pages)
    | ListFailed
    | MutateIdle
    | MutateCalling
    | MutateAccepted(version: nat)
    | MutateLocked(version: nat)
    | MutateDropped(version: nat)
    | MutateDone(version: nat)
    | MutateFailed

  datatype State = State(threads: map<Tid, Thread>, lock: Option<Tid>, cache: Option<Pages>, version: nat)

  datatype Step =
    | Begin(t: Tid)
    | Acquire(t: Tid)
    | CacheHit(t: Tid)
    | CacheMiss(t: Tid)
    | ReadPage(t: Tid)
    | StoreAndReturn(t: Tid)
    | ListError(t: Tid)
    | TakeEffect(t: Tid, seen: bool)
    | Refused(t: Tid)
    | Drop(t: Tid)
    | Unlock(t: Tid)
    | Expire

  predicate Enabled(s: State, step: Step) {
    match step
    case Expire => true
    case Begin(t) => t in s.threads && (s.threads[t].ListIdle? || s.threads[t].MutateIdle?)
    case Acquire(t) => t in s.threads && s.lock.None? && (s.threads[t].ListWaiting? || s.threads[t].MutateAccepted?)
    case CacheHit(t) => t in s.threads && s.threads[t].ListLocked? && s.cache.Some?
    case CacheMiss(t) => t in s.threads && s.threads[t].ListLocked? && s.cache.None?
    case ReadPage(t) => t in s.threads && s.threads[t].ListFetching?
    case StoreAndReturn(t) => t in s.threads && s.threads[t].ListFetching? && s.threads[t].pages != []
    case ListError(t) => t in s.threads && s.threads[t].ListFetching?
    case TakeEffect(t, seen) => t in s.threads && s.threads[t].MutateCalling?
    case Refused(t) => t in s.threads && s.threads[t].MutateCalling?
    case Drop(t) => t in s.threads && s.threads[t].MutateLocked?
    case Unlock(t) => t in s.threads && s.threads[t].MutateDropped?
  }

  function Set(s: State, t: Tid, th: Thread): State {
    s.(threads := s.threads[t := th])
  }

  function After(s: State, step: Step): State
    requires Enabled(s, step)
  {
    match step
    case Expire => s.(cache := None)
    case Begin(t) => Set(s, t, if s.threads[t].ListIdle? then ListWaiting else MutateCalling)
    case Acquire(t) =>
      Set(s, t, if s.threads[t].ListWaiting? then ListLocked else MutateLocked(s.threads[t].version)).(lock := Some(t))
    case CacheHit(t) => Set(s, t, ListDone(s.cache.value)).(lock := None)
    case CacheMiss(t) => Set(s, t, ListFetching([]))
    case ReadPage(t) => Set(s, t, ListFetching(s.threads[t].pages + [s.version]))
    case StoreAndReturn(t) => Set(s, t, ListDone(s.threads[t].pages)).(lock := None, cache := Some(s.threads[t].pages))
    case ListError(t) => Set(s, t, ListFailed).(lock := None)
    case TakeEffect(t, seen) =>
      // an effect whose response is lost ends as an error and drops nothing
      Set(s, t, if seen then MutateAccepted(s.version + 1) else MutateFailed).(version := s.version + 1)
    case Refused(t) => Set(s, t, MutateFailed)
    case Drop(t) => Set(s, t, MutateDropped(s.threads[t].version)).(cache := None)
    case Unlock(t) => Set(s, t, MutateDone(s.threads[t].version)).(lock := None)
  }

  predicate Runnable(s: State, steps: seq<Step>)
    decreases |steps|
  {
    steps == [] || (Enabled(s, steps[0]) && Runnable(After(s, steps[0]), steps[1..]))
  }

  function Exec(s: State, steps: seq<Step>): State
    requires Runnable(s, steps)
    decreases |steps|
  {
    if steps == [] then s else Exec(After(s, steps[0]), steps[1..])
  }

  predicate Init(s: State) {
    && s.lock.None? && s.cache.None?
    && forall t :: t in s.threads ==> s.threads[t].ListIdle? || s.threads[t].MutateIdle?
  }

  predicate InCritical(th: Thread) {
    th.ListLocked? || th.ListFetching? || th.MutateLocked? || th.MutateDropped?
  }

  /** A mutation of this version has dropped the cached list. */
  predicate Dropped(th: Thread, v: nat) {
    th == MutateDropped(v) || th == MutateDone(v)
  }

  predicate NoOlder(pages: Pages, v: nat) {
    forall i :: 0 <= i < |pages| ==> pages[i] >= v
  }

  /** The version of a mutation that took effect. */
  predicate Dated(th: Thread) {
    th.MutateAccepted? || th.MutateLocked? || th.MutateDropped? || th.MutateDone?
  }

  predicate Exclusive(s: State) {
    forall t :: t in s.threads && InCritical(s.threads[t]) ==> s.lock == Some(t)
  }

  predicate NoFuture(s: State) {
    forall t :: t in s.threads && Dated(s.threads[t]) ==> s.threads[t].version <= s.version
  }

  /** No cached page is older than a mutation that dropped the cache. */
  ghost predicate CacheFresh(s: State) {
    forall t, v :: t in s.threads && Dropped(s.threads[t], v) && s.cache.Some? ==> NoOlder(s.cache.value, v)
  }

  /** No page of a running fetch is older than a mutation that dropped the cache. */
  ghost predicate FetchFresh(s: State) {
    forall t, l, v :: t in s.threads && l in s.threads && Dropped(s.threads[t], v) && s.threads[l].ListFetching? ==>
      NoOlder(s.threads[l].pages, v)
  }

  predicate NotEmpty(s: State) {
    && (s.cache.Some? ==> s.cache.value != [])
    && (forall l :: l in s.threads && s.threads[l].ListDone? ==> s.threads[l].pages != [])
  }

  ghost predicate Inv(s: State) {
    Exclusive(s) && NoFuture(s) && CacheFresh(s) && FetchFresh(s) && NotEmpty(s)
  }

  lemma LocalStep(s: State, step: Step)
    requires Exclusive(s) && NoFuture(s) && NotEmpty(s) && Enabled(s, step)
    ensures Exclusive(After(s, step)) && NoFuture(After(s, step)) && NotEmpty(After(s, step))
  {
  }

  lemma CacheFreshStep(s: State, step: Step)
    requires Inv(s) && Enabled(s, step)
    ensures CacheFresh(After(s, step))
  {
    var s' := After(s, step);
    forall t, v | t in s'.threads && Dropped(s'.threads[t], v) && s'.cache.Some? ensures NoOlder(s'.cache.value, v) {
      assert Dropped(s.threads[t], v);
    }
  }

  /** A mutation drops the cache under the mutex, so no fetch is running then; a
      page read later has the current version. */
  lemma FetchFreshStep(s: State, step: Step)
    requires Inv(s) && Enabled(s, step)
    ensures FetchFresh(After(s, step))
  {
    var s' := After(s, step);
    forall t, l, v | t in s'.threads && l in s'.threads && Dropped(s'.threads[t], v) && s'.threads[l].ListFetching?
      ensures NoOlder(s'.threads[l].pages, v)
    {
      assert !step.Drop?;
      assert Dropped(s.threads[t], v);
      if s.threads[l].ListFetching? {
        assert NoOlder(s.threads[l].pages, v);
      }
    }
  }

  lemma InvStep(s: State, step: Step)
    requires Inv(s) && Enabled(s, step)
    ensures Inv(After(s, step))
  {
    LocalStep(s, step);
    CacheFreshStep(s, step);
    FetchFreshStep(s, step);
  }

  lemma {:induction false} InvExec(s: State, steps: seq<Step>)
    requires Inv(s) && Runnable(s, steps)
    ensures Inv(Exec(s, steps))
    decreases |steps|
  {
    if steps != [] {
      InvStep(s, steps[0]);
      InvExec(After(s, steps[0]), steps[1..]);
    }
  }

  /** Thread `m` has returned from a mutation of version `v`; a list by thread `l`
      that is not over yet can only end with pages at least that new. */
  predicate Watching(s: State, m: Tid, v: nat, l: Tid) {
    && m in s.threads && l in s.threads
    && s.threads[m] == MutateDone(v)
    && (s.threads[l].ListDone? ==> NoOlder(s.threads[l].pages, v))
  }

  lemma {:induction false} WatchingExec(s: State, steps: seq<Step>, m: Tid, v: nat, l: Tid)
    requires Inv(s) && Watching(s, m, v, l) && Runnable(s, steps)
    ensures Watching(Exec(s, steps), m, v, l)
    decreases |steps|
  {
    if steps != [] {
      InvStep(s, steps[0]);
      assert Dropped(s.threads[m], v);
      WatchingExec(After(s, steps[0]), steps[1..], m, v, l);
    }
  }

  /** In every interleaving: if a create or delete has returned successfully before
      a list starts, then every page of the list's result was read after that
      mutation took effect, whether the result came from the cache or was fetched
      over any number of pages; and the result is never empty of pages. */
  lemma FreshAfterReturn(s0: State, before: seq<Step>, after: seq<Step>, m: Tid, v: nat, l: Tid)
    requires Init(s0) && Runnable(s0, before) && Runnable(Exec(s0, before), after)
    requires m in Exec(s0, before).threads && Exec(s0, before).threads[m] == MutateDone(v)
    requires l in Exec(s0, before).threads && Exec(s0, before).threads[l].ListIdle?
    ensures var s := Exec(Exec(s0, before), after);
            l in s.threads && (s.threads[l].ListDone? ==>
                                 s.threads[l].pages != [] && forall i :: 0 <= i < |s.threads[l].pages| ==> s.threads[l].pages[i] >= v)
  {
    InvExec(s0, before);
    InvExec(Exec(s0, before), after);
    WatchingExec(Exec(s0, before), after, m, v, l);
  }

  /** Returning is what counts: a list that starts after the effect but before the
      cached list was dropped may still see the old list. */
  lemma StaleBeforeReturn() returns (s0: State, steps: seq<Step>)
    ensures Init(s0) && Runnable(s0, steps)
    ensures var s := Exec(s0, steps);
            s.threads == map[0 := ListDone([0]), 1 := MutateAccepted(1), 2 := ListDone([0])] && s.version == 1
  {
    s0 := State(map[0 := ListIdle, 1 := MutateIdle, 2 := ListIdle], None, None, 0);
    var fill := [Begin(0), Acquire(0), CacheMiss(0), ReadPage(0), StoreAndReturn(0)];
    var change := [Begin(1), TakeEffect(1, true), Begin(2), Acquire(2), CacheHit(2)];
    var s1 := State(map[0 := ListDone([0]), 1 := MutateIdle, 2 := ListIdle], None, Some([0]), 0);
    var s2 := State(map[0 := ListDone([0]), 1 := MutateAccepted(1), 2 := ListDone([0])], None, Some([0]), 1);
    FillCache(s0, s1);
    SeeStale(s1, s2);
    ExecConcat(s0, fill, change);
    steps := fill + change;
  }

  lemma FillCache(s0: State, s1: State)
    requires s0 == State(map[0 := ListIdle, 1 := MutateIdle, 2 := ListIdle], None, None, 0)
    requires s1 == State(map[0 := ListDone([0]), 1 := MutateIdle, 2 := ListIdle], None, Some([0]), 0)
    ensures var steps := [Begin(0), Acquire(0), CacheMiss(0), ReadPage(0), StoreAndReturn(0)];
            Runnable(s0, steps) && Exec(s0, steps) == s1
  {
    var a := After(s0, Begin(0));
    var b := After(a, Acquire(0));
    var c := After(b, CacheMiss(0));
    var d := After(c, ReadPage(0));
    assert [] + [0] == [0];
    assert d.threads[0] == ListFetching([0]);
    assert After(d, StoreAndReturn(0)).threads == s1.threads;
    Five(s0, Begin(0), Acquire(0), CacheMiss(0), ReadPage(0), StoreAndReturn(0));
  }

  lemma SeeStale(s1: State, s2: State)
    requires s1 == State(map[0 := ListDone([0]), 1 := MutateIdle, 2 := ListIdle], None, Some([0]), 0)
    requires s2 == State(map[0 := ListDone([0]), 1 := MutateAccepted(1), 2 := ListDone([0])], None, Some([0]), 1)
    ensures var steps := [Begin(1), TakeEffect(1, true), Begin(2), Acquire(2), CacheHit(2)];
            Runnable(s1, steps) && Exec(s1, steps) == s2
  {
    var a := After(s1, Begin(1));
    var b := After(a, TakeEffect(1, true));
    var c := After(b, Begin(2));
    var d := After(c, Acquire(2));
    assert After(d, CacheHit(2)).threads == s2.threads;
    Five(s1, Begin(1), TakeEffect(1, true), Begin(2), Acquire(2), CacheHit(2));
  }

  lemma Five(s: State, a: Step, b: Step, c: Step, d: Step, e: Step)
    requires Enabled(s, a) && Enabled(After(s, a), b) && Enabled(After(After(s, a), b), c)
    requires Enabled(After(After(After(s, a), b), c), d)
    requires Enabled(After(After(After(After(s, a), b), c), d), e)
    ensures Runnable(s, [a, b, c, d, e])
    ensures Exec(s, [a, b, c, d, e]) == After(After(After(After(After(s, a), b), c), d), e)
  {
    ExecConcat(s, [a], [b]);
    ExecConcat(s, [a] + [b], [c]);
    ExecConcat(s, [a] + [b] + [c], [d]);
    ExecConcat(s, [a] + [b] + [c] + [d], [e]);
    assert [a] + [b] + [c] + [d] + [e] == [a, b, c, d, e];
  }

  lemma {:induction false} ExecConcat(s: State, a: seq<Step>, b: seq<Step>)
    requires Runnable(s, a) && Runnable(Exec(s, a), b)
    ensures Runnable(s, a + b) && Exec(s, a + b) == Exec(Exec(s, a), b)
    decreases |a|
  {
    if a == [] {
      assert a + b == b;
    } else {
      ExecConcat(After(s, a[0]), a[1..], b);
      assert (a + b)[1..] == a[1..] + b;
    }
  }
}
