/** Server weights: the pod-count and percentage algorithms, which overwrite the
    backends in place, followed by the removal of duplicate servers. */
module Weights {
  import opened Names

  const DEFAULT_SERVER_WEIGHT := 100

  datatype Policy = ENI | Cluster | Local

  datatype Backend = Backend(serverId: string, ip: string, port: int, weight: int)

  // ---------------------------------------------------------------------- vocabulary

  function Count(s: seq<Backend>, id: string): nat {
    if s == [] then 0
    else Count(s[..|s| - 1], id) + if s[|s| - 1].serverId == id then 1 else 0
  }

  function WithWeights(s: seq<Backend>, f: string -> int): (r: seq<Backend>)
    ensures |r| == |s| && forall i :: 0 <= i < |s| ==> r[i] == s[i].(weight := f(s[i].serverId))
  {
    seq(|s|, i requires 0 <= i < |s| => s[i].(weight := f(s[i].serverId)))
  }

  function Sum(s: seq<Backend>): int {
    if s == [] then 0 else Sum(s[..|s| - 1]) + s[|s| - 1].weight
  }

  /** The server ids in order of first occurrence. */
  function ServerIds(s: seq<Backend>): seq<string> {
    if s == [] then []
    else
      var front := ServerIds(s[..|s| - 1]);
      if s[|s| - 1].serverId in front then front else front + [s[|s| - 1].serverId]
  }

  /** The first backend of each server. */
  function Deduplicated(s: seq<Backend>): seq<Backend> {
    if s == [] then []
    else
      var front := s[..|s| - 1];
      Deduplicated(front) + if s[|s| - 1].serverId in ServerIds(front) then [] else [s[|s| - 1]]
  }

  function SumOver(ids: seq<string>, f: string -> int): int {
    if ids == [] then 0 else SumOver(ids[..|ids| - 1], f) + f(ids[|ids| - 1])
  }

  predicate NoRepeats(ids: seq<string>) {
    forall i, j :: 0 <= i < j < |ids| ==> ids[i] != ids[j]
  }

  lemma {:induction false} ServerIdsFacts(s: seq<Backend>)
    ensures NoRepeats(ServerIds(s))
    ensures forall id :: id in ServerIds(s) <==> exists b :: b in s && b.serverId == id
    ensures |ServerIds(s)| <= |s|
  {
    if s != [] {
      var front, x := s[..|s| - 1], s[|s| - 1];
      ServerIdsFacts(front);
      assert s == front + [x];
      assert forall b :: b in s <==> b in front || b == x;
    }
  }

  lemma {:induction false} CountPositive(s: seq<Backend>, id: string)
    ensures Count(s, id) <= |s|
    ensures Count(s, id) > 0 <==> exists b :: b in s && b.serverId == id
  {
    if s != [] {
      var front, x := s[..|s| - 1], s[|s| - 1];
      CountPositive(front, id);
      assert s == front + [x];
      assert forall b :: b in s <==> b in front || b == x;
    }
  }

  /** No backend before this one is of its server. */
  predicate FirstOfServer(s: seq<Backend>, i: int) {
    0 <= i < |s| && forall j :: 0 <= j < i ==> s[j].serverId != s[i].serverId
  }

  lemma LastOfServer(front: seq<Backend>, x: Backend)
    ensures FirstOfServer(front + [x], |front|) <==> x.serverId !in ServerIds(front)
  {
    var s := front + [x];
    ServerIdsFacts(front);
    if x.serverId in ServerIds(front) {
      var b :| b in front && b.serverId == x.serverId;
      var j :| 0 <= j < |front| && front[j] == b;
      assert s[j].serverId == x.serverId;
    } else {
      forall j | 0 <= j < |front| ensures s[j].serverId != x.serverId { assert front[j] in front; }
    }
  }

  lemma FrontAgrees(front: seq<Backend>, x: Backend)
    ensures forall i :: 0 <= i < |front| ==> (FirstOfServer(front, i) <==> FirstOfServer(front + [x], i))
  {
    var s := front + [x];
    forall i | 0 <= i < |front| ensures FirstOfServer(front, i) <==> FirstOfServer(s, i) {
      assert forall j :: 0 <= j <= i ==> s[j] == front[j];
      if FirstOfServer(s, i) {
        forall j | 0 <= j < i ensures front[j].serverId != front[i].serverId { assert s[j].serverId != s[i].serverId; }
      }
    }
  }

  lemma {:induction false} DeduplicatedExactly(s: seq<Backend>)
    ensures forall i :: FirstOfServer(s, i) ==> s[i] in Deduplicated(s)
    ensures forall b :: b in Deduplicated(s) ==> exists i :: FirstOfServer(s, i) && s[i] == b
  {
    if s != [] {
      var n := |s| - 1;
      var front, x := s[..n], s[n];
      assert s == front + [x];
      DeduplicatedExactly(front);
      LastOfServer(front, x);
      FrontAgrees(front, x);
      forall b | b in Deduplicated(front) ensures exists i :: FirstOfServer(s, i) && s[i] == b {
        var i :| FirstOfServer(front, i) && front[i] == b;
        assert FirstOfServer(s, i) && s[i] == b;
      }
    }
  }

  /** `remoteDuplicatedECS`. */
  method RemoveDuplicates(s: seq<Backend>) returns (r: seq<Backend>)
    ensures forall i :: FirstOfServer(s, i) ==> s[i] in r
    ensures forall b :: b in r ==> exists i :: FirstOfServer(s, i) && s[i] == b
    ensures r == Deduplicated(s)
  {
    DeduplicatedExactly(s);
    var seen: set<string> := {};
    r := [];
    for i := 0 to |s|
      invariant r == Deduplicated(s[..i])
      invariant forall id :: id in seen <==> id in ServerIds(s[..i])
    {
      assert s[..i + 1][..i] == s[..i];
      if s[i].serverId !in seen {
        seen := seen + {s[i].serverId};
        r := r + [s[i]];
      }
    }
    assert s[..|s|] == s;
  }

  // ---------------------------------------------------------------- sums over servers

  /** When the weight depends on the server alone, the deduplicated weights are one
      per server. */
  lemma {:induction false} SumDeduplicated(s: seq<Backend>, f: string -> int)
    ensures Sum(Deduplicated(WithWeights(s, f))) == SumOver(ServerIds(s), f)
    ensures ServerIds(WithWeights(s, f)) == ServerIds(s)
    ensures |Deduplicated(WithWeights(s, f))| == |ServerIds(s)|
    decreases |s|
  {
    if s != [] {
      var front, x := s[..|s| - 1], s[|s| - 1];
      var w := WithWeights(s, f);
      assert w[..|w| - 1] == WithWeights(front, f);
      SumDeduplicated(front, f);
      var d := Deduplicated(w[..|w| - 1]);
      if x.serverId in ServerIds(front) {
        assert Deduplicated(w) == d + [] == d;
      } else {
        assert Deduplicated(w) == d + [w[|w| - 1]];
        assert (d + [w[|w| - 1]])[..|d|] == d;
        var ids := ServerIds(front);
        assert (ids + [x.serverId])[..|ids|] == ids;
      }
    }
  }

  function CountIn(s: seq<Backend>): string -> int {
    id => Count(s, id)
  }

  lemma {:induction false} SumCountsStep(ids: seq<string>, s: seq<Backend>, x: Backend)
    requires NoRepeats(ids)
    ensures SumOver(ids, CountIn(s + [x])) == SumOver(ids, CountIn(s)) + if x.serverId in ids then 1 else 0
  {
    assert (s + [x])[..|s|] == s;
    if ids != [] {
      var front, last := ids[..|ids| - 1], ids[|ids| - 1];
      SumCountsStep(front, s, x);
      assert ids == front + [last];
    }
  }

  lemma {:induction false} SumCountsZero(ids: seq<string>, s: seq<Backend>, id: string)
    requires id !in ServerIds(s)
    ensures Count(s, id) == 0
  {
    ServerIdsFacts(s);
    CountPositive(s, id);
  }

  /** Every backend is counted once, under its server. */
  lemma {:induction false} CountsAddUp(s: seq<Backend>)
    ensures SumOver(ServerIds(s), CountIn(s)) == |s|
  {
    if s != [] {
      var front, x := s[..|s| - 1], s[|s| - 1];
      assert s == front + [x];
      CountsAddUp(front);
      ServerIdsFacts(front);
      var ids := ServerIds(front);
      SumCountsStep(ids, front, x);
      if x.serverId !in ids {
        SumCountsZero(ids, front, x.serverId);
        assert (ids + [x.serverId])[..|ids|] == ids;
        assert Count(s, x.serverId) == 1;
      }
    }
  }

  // -------------------------------------------------------------- pod-count algorithm

  /** The weight is an int32. */
  function PodNumber(s: seq<Backend>, policy: Policy): string -> int {
    if policy.Local? then id => ToInt32(Count(s, id)) else id => DEFAULT_SERVER_WEIGHT
  }

  /** Counting with an int32 counter per server. */
  method CountPods(s: seq<Backend>) returns (pods: map<string, int>)
    ensures forall b :: b in s ==> b.serverId in pods && pods[b.serverId] == ToInt32(Count(s, b.serverId))
  {
    pods := map[];
    for i := 0 to |s|
      invariant forall id :: id in pods ==> pods[id] == ToInt32(Count(s[..i], id))
      invariant forall id :: id !in pods ==> Count(s[..i], id) == 0
    {
      assert s[..i + 1][..i] == s[..i];
      var id := s[i].serverId;
      Increment(Count(s[..i], id));
      pods := pods[id := ToInt32((if id in pods then pods[id] else 0) + 1)];
    }
    assert s[..|s|] == s;
    forall b | b in s ensures b.serverId in pods {
      CountPositive(s, b.serverId);
    }
  }

  lemma Increment(n: nat)
    ensures ToInt32(ToInt32(n) + 1) == ToInt32(n + 1)
    ensures ToInt32(0) == 0
  {
  }

  method PodNumberAlgorithm(policy: Policy, backends: array<Backend>)
    modifies backends
    ensures backends[..] == WithWeights(old(backends[..]), PodNumber(old(backends[..]), policy))
  {
    ghost var s := backends[..];
    if !policy.Local? {
      for i := 0 to backends.Length
        invariant forall k :: 0 <= k < i ==> backends[k] == s[k].(weight := DEFAULT_SERVER_WEIGHT)
        invariant forall k :: i <= k < backends.Length ==> backends[k] == s[k]
      {
        backends[i] := backends[i].(weight := DEFAULT_SERVER_WEIGHT);
      }
      assert backends[..] == WithWeights(s, PodNumber(s, policy));
      return;
    }
    var pods := CountPods(backends[..]);
    for i := 0 to backends.Length
      invariant forall k :: 0 <= k < i ==> backends[k] == s[k].(weight := ToInt32(Count(s, s[k].serverId)))
      invariant forall k :: i <= k < backends.Length ==> backends[k] == s[k]
    {
      assert s[i] in s;
      backends[i] := backends[i].(weight := pods[backends[i].serverId]);
    }
    assert backends[..] == WithWeights(s, PodNumber(s, policy));
  }

  lemma {:induction false} SumOverSame(ids: seq<string>, f: string -> int, g: string -> int)
    requires forall id :: id in ids ==> f(id) == g(id)
    ensures SumOver(ids, f) == SumOver(ids, g)
  {
    if ids != [] {
      assert ids[|ids| - 1] in ids;
      assert forall id :: id in ids[..|ids| - 1] ==> id in ids;
      SumOverSame(ids[..|ids| - 1], f, g);
    }
  }

  /** Without a configured weight, Local mode conserves the pods: the weights left
      after deduplication add up to the number of backends before it. */
  lemma PodsConserved(s: seq<Backend>)
    requires |s| <= MAX_INT32
    ensures Sum(Deduplicated(WithWeights(s, PodNumber(s, Local)))) == |s|
  {
    var f := PodNumber(s, Local);
    SumDeduplicated(s, f);
    forall id ensures f(id) == CountIn(s)(id) {
      CountPositive(s, id);
    }
    SumOverSame(ServerIds(s), f, CountIn(s));
    CountsAddUp(s);
  }

  // ------------------------------------------------------------- percentage algorithm

  /** Division that truncates toward zero. */
  function TruncDiv(a: int, b: int): int
    requires b > 0
  {
    if a >= 0 then a / b else -((-a) / b)
  }

  function ToInt64(n: int): (r: int)
    ensures -MAX_INT64 - 1 <= n <= MAX_INT64 ==> r == n
  {
    (n + MAX_INT64 + 1) % (2 * (MAX_INT64 + 1)) - (MAX_INT64 + 1)
  }

  function AtLeastOne(n: int): int {
    if n < 1 then 1 else n
  }

  /** The share of a server with `pods` of the `n` backends. */
  function Share(weight: int, pods: int, n: int): int
    requires n > 0
  {
    AtLeastOne(ToInt32(TruncDiv(ToInt64(weight * pods), n)))
  }

  function PerBackend(weight: int, n: int): int
    requires n > 0
  {
    ToInt32(AtLeastOne(TruncDiv(weight, n)))
  }

  function PodPercent(s: seq<Backend>, policy: Policy, weight: int): string -> int {
    if weight == 0 || |s| == 0 then id => 0
    else if policy.Local? then id => Share(weight, Count(s, id), |s|)
    else id => PerBackend(weight, |s|)
  }

  method CountPodsWide(s: seq<Backend>) returns (pods: map<string, int>)
    ensures forall b :: b in s ==> b.serverId in pods && pods[b.serverId] == Count(s, b.serverId)
  {
    pods := map[];
    for i := 0 to |s|
      invariant forall id :: id in pods ==> pods[id] == Count(s[..i], id)
      invariant forall id :: id !in pods ==> Count(s[..i], id) == 0
    {
      assert s[..i + 1][..i] == s[..i];
      var id := s[i].serverId;
      pods := pods[id := (if id in pods then pods[id] else 0) + 1];
    }
    assert s[..|s|] == s;
    forall b | b in s ensures b.serverId in pods {
      CountPositive(s, b.serverId);
    }
  }

  method Fill(backends: array<Backend>, weight: int)
    modifies backends
    ensures backends[..] == WithWeights(old(backends[..]), id => weight)
  {
    ghost var s := backends[..];
    for i := 0 to backends.Length
      invariant forall k :: 0 <= k < i ==> backends[k] == s[k].(weight := weight)
      invariant forall k :: i <= k < backends.Length ==> backends[k] == s[k]
    {
      backends[i] := backends[i].(weight := weight);
    }
  }

  /** `ok` is false when the division by the number of backends would panic. */
  method PodPercentAlgorithm(policy: Policy, backends: array<Backend>, weight: int) returns (ok: bool)
    modifies backends
    ensures ok <==> weight == 0 || policy.Local? || backends.Length > 0
    ensures backends[..] == WithWeights(old(backends[..]), PodPercent(old(backends[..]), policy, weight))
  {
    ghost var s := backends[..];
    if weight == 0 {
      Fill(backends, 0);
      SameWeights(s, id => 0, PodPercent(s, policy, weight));
      return true;
    }
    if !policy.Local? {
      if backends.Length == 0 { return false; }
      var per := TruncDiv(weight, backends.Length);
      if per < 1 { per := 1; }
      Fill(backends, ToInt32(per));
      SameWeights(s, id => ToInt32(per), PodPercent(s, policy, weight));
      return true;
    }
    var pods := CountPodsWide(backends[..]);
    for i := 0 to backends.Length
      invariant forall k :: 0 <= k < i ==> backends[k] == s[k].(weight := Share(weight, Count(s, s[k].serverId), |s|))
      invariant forall k :: i <= k < backends.Length ==> backends[k] == s[k]
    {
      assert s[i] in s;
      var w := ToInt32(TruncDiv(ToInt64(weight * pods[backends[i].serverId]), backends.Length));
      if w < 1 { w := 1; }
      backends[i] := backends[i].(weight := w);
    }
    ok := true;
  }

  lemma SameWeights(s: seq<Backend>, f: string -> int, g: string -> int)
    requires forall b :: b in s ==> f(b.serverId) == g(b.serverId)
    ensures WithWeights(s, f) == WithWeights(s, g)
  {
    forall i | 0 <= i < |s| ensures WithWeights(s, f)[i] == WithWeights(s, g)[i] {
      assert s[i] in s;
    }
  }

  // ------------------------------------------------------------------ percentage bounds

  lemma ProductBound(a: int, b: int, c: int)
    requires a >= 0 && b <= c
    ensures a * b <= a * c
    ensures b >= 0 ==> 0 <= a * b
  {
  }

  lemma QuotientBound(x: int, n: int)
    requires n > 0 && 0 <= x
    ensures 0 <= x / n && n * (x / n) <= x < n * (x / n) + n
  {
  }

  /** The exact share before it is narrowed to 32 bits. */
  function Quotient(weight: int, pods: int, n: int): int
    requires n > 0
  {
    weight * pods / n
  }

  /** Inputs for which the 64-bit product does not overflow. */
  predicate Sane(weight: int, n: int) {
    0 < weight && 0 < n && weight * n <= MAX_INT64
  }

  lemma ShareIs(weight: int, pods: int, n: int)
    requires Sane(weight, n) && 0 <= pods <= n
    ensures 0 <= weight * pods <= MAX_INT64 && 0 <= Quotient(weight, pods, n)
    ensures Share(weight, pods, n) == AtLeastOne(ToInt32(Quotient(weight, pods, n)))
  {
    ProductBound(weight, pods, n);
    QuotientBound(weight * pods, n);
  }

  /** One share that fits 32 bits is off by less than one; one that does not fit
      wraps around and loses at least 2^31 - 1. */
  lemma ShareBounds(weight: int, pods: int, n: int)
    requires Sane(weight, n) && 0 < pods <= n
    ensures var x, fits := Share(weight, pods, n), Quotient(weight, pods, n) <= MAX_INT32;
            && x >= 1
            && (fits ==> weight * pods < n * (x + 1))
            && n * x <= weight * pods + n
            && (fits && weight >= n ==> n * x <= weight * pods)
            && (!fits ==> n * x <= weight * pods + n - n * (MAX_INT32 + 1))
  {
    ShareIs(weight, pods, n);
    QuotientBound(weight * pods, n);
    if weight >= n { ProductBound(weight, 1, pods); }
    FloorBounds(weight * pods, n, Quotient(weight, pods, n));
  }

  /** The same, with `p` for the product and `q` for its floor division by `n`. */
  lemma FloorBounds(p: int, n: int, q: int)
    requires 0 < n && 0 <= q && n * q <= p < n * q + n
    ensures var x := AtLeastOne(ToInt32(q));
            && (q <= MAX_INT32 ==> p < n * (x + 1) && (p >= n ==> n * x <= p))
            && n * x <= p + n
            && (q > MAX_INT32 ==> n * x <= p + n - n * (MAX_INT32 + 1))
  {
    var x := AtLeastOne(ToInt32(q));
    Distribute(n, q, 1);
    if q > MAX_INT32 {
      Narrowed(q);
      ProductBound(n, x, q + 1 - (MAX_INT32 + 1));
      Distribute(n, q + 1, MAX_INT32 + 1);
    } else if q == 0 {
      assert x == 1;
    } else {
      assert x == q;
    }
  }

  lemma Narrowed(q: int)
    requires q > MAX_INT32
    ensures AtLeastOne(ToInt32(q)) <= q + 1 - (MAX_INT32 + 1)
  {
  }

  /** More pods never means less weight. */
  lemma ShareMonotone(weight: int, a: int, b: int, n: int)
    requires Sane(weight, n) && 0 <= a <= b <= n && Quotient(weight, b, n) <= MAX_INT32
    ensures Share(weight, a, n) <= Share(weight, b, n)
  {
    ShareIs(weight, a, n);
    ShareIs(weight, b, n);
    ProductBound(weight, a, b);
    QuotientMonotone(weight * a, weight * b, n);
  }

  /** As long as the share of a single pod fits 32 bits, that is so for all numbers of
      pods exactly when the weight fits: otherwise some share is the first to wrap, to 1,
      while one with fewer pods is larger. */
  lemma ShareMonotoneExactly(weight: int, n: int)
    requires Sane(weight, n) && weight / n <= MAX_INT32
    ensures weight <= MAX_INT32 <==> forall a, b :: 0 <= a <= b <= n ==> Share(weight, a, n) <= Share(weight, b, n)
  {
    if weight <= MAX_INT32 {
      forall a, b | 0 <= a <= b <= n ensures Share(weight, a, n) <= Share(weight, b, n) {
        QuotientAtMost(weight, b, n);
        ShareMonotone(weight, a, b, n);
      }
    } else {
      var b := FirstWrap(weight, n);
      FewerGetMore(weight, n, b);
    }
  }

  /** The smallest number of pods whose share does not fit. */
  lemma FirstWrap(weight: int, n: int) returns (b: int)
    requires 0 < weight && 0 < n && MAX_INT32 < weight
    ensures 0 < b <= n && Quotient(weight, b, n) > MAX_INT32 >= Quotient(weight, b - 1, n)
  {
    WholeQuotient(weight, n);
    b := 1;
    assert Quotient(weight, 0, n) == 0;
    while Quotient(weight, b, n) <= MAX_INT32
      invariant 0 < b <= n && Quotient(weight, b - 1, n) <= MAX_INT32
      decreases n - b
    {
      b := b + 1;
    }
  }

  lemma FewerGetMore(weight: int, n: int, b: int)
    requires Sane(weight, n) && weight / n <= MAX_INT32 && 0 < b <= n
    requires Quotient(weight, b, n) > MAX_INT32 >= Quotient(weight, b - 1, n)
    ensures exists a :: 0 <= a <= b && Share(weight, a, n) > Share(weight, b, n)
  {
    QuotientStep(weight, b - 1, n);
    ShareIs(weight, b, n);
    assert Share(weight, b, n) == 1;
    var a := if weight / n >= 2 then 1 else b - 1;
    assert Quotient(weight, 1, n) == weight / n;
    assert b > 1;
    ShareIs(weight, a, n);
    assert Share(weight, a, n) > 1;
  }

  /** One pod more adds the share of one pod, give or take the rounding. */
  lemma QuotientStep(weight: int, k: int, n: int)
    requires 0 < weight && 0 <= k && 0 < n
    ensures Quotient(weight, k, n) + weight / n <= Quotient(weight, k + 1, n) <= Quotient(weight, k, n) + weight / n + 1
  {
    ProductBound(weight, 0, k);
    QuotientBound(weight * k, n);
    QuotientBound(weight, n);
    Distribute(weight, k, 1);
    QuotientBound(weight * (k + 1), n);
    FloorOfSum(n, weight * k, weight, Quotient(weight, k, n), weight / n, Quotient(weight, k + 1, n));
  }

  lemma FloorOfSum(n: int, x: int, y: int, p: int, q: int, r: int)
    requires 0 < n && n * p <= x < n * p + n && n * q <= y < n * q + n && n * r <= x + y < n * r + n
    ensures p + q <= r <= p + q + 1
  {
    Distribute(n, p, q);
    if r < p + q { ProductBound(n, r + 1, p + q); Distribute(n, r, 1); }
    if r > p + q + 1 { ProductBound(n, p + q + 2, r); Distribute(n, p + q, 2); }
  }

  lemma WholeQuotient(weight: int, n: int)
    requires 0 < weight && 0 < n
    ensures Quotient(weight, n, n) == weight
  {
    var q := Quotient(weight, n, n);
    ProductBound(weight, 0, n);
    QuotientBound(weight * n, n);
    if q > weight { ProductBound(n, weight + 1, q); Distribute(n, weight, 1); }
    if q < weight { ProductBound(n, q + 1, weight); Distribute(n, q, 1); }
  }

  lemma QuotientMonotone(x: int, y: int, n: int)
    requires n > 0 && 0 <= x <= y
    ensures x / n <= y / n
  {
    QuotientBound(x, n);
    QuotientBound(y, n);
    if x / n > y / n {
      ProductBound(n, y / n + 1, x / n);
    }
  }

  function ShareIn(s: seq<Backend>, weight: int): string -> int {
    id => if |s| == 0 then 0 else Share(weight, Count(s, id), |s|)
  }

  predicate Fits(s: seq<Backend>, weight: int, id: string)
    requires |s| > 0
  {
    Quotient(weight, Count(s, id), |s|) <= MAX_INT32
  }

  /** How far a share is above its exact part, scaled by the number of backends. */
  function Excess(s: seq<Backend>, weight: int): string -> int {
    id => if |s| == 0 then 0 else |s| * Share(weight, Count(s, id), |s|) - weight * Count(s, id)
  }

  lemma {:induction false} SumExcess(ids: seq<string>, s: seq<Backend>, weight: int)
    requires |s| > 0
    ensures SumOver(ids, Excess(s, weight)) == |s| * SumOver(ids, ShareIn(s, weight)) - weight * SumOver(ids, CountIn(s))
  {
    if ids != [] {
      var front, last := ids[..|ids| - 1], ids[|ids| - 1];
      SumExcess(front, s, weight);
      Distribute(|s|, SumOver(front, ShareIn(s, weight)), Share(weight, Count(s, last), |s|));
      Distribute(weight, SumOver(front, CountIn(s)), Count(s, last));
    }
  }

  lemma Distribute(a: int, b: int, c: int)
    ensures a * (b + c) == a * b + a * c
    ensures a * (b - c) == a * b - a * c
  {
  }

  lemma {:induction false} SumUpper(ids: seq<string>, f: string -> int, u: int)
    requires forall id :: id in ids ==> f(id) <= u
    ensures SumOver(ids, f) <= u * |ids|
  {
    if ids != [] {
      var front := ids[..|ids| - 1];
      assert ids[|ids| - 1] in ids && forall id :: id in front ==> id in ids;
      SumUpper(front, f, u);
      Distribute(u, |front|, 1);
    }
  }

  lemma {:induction false} SumLower(ids: seq<string>, f: string -> int, l: int)
    requires forall id :: id in ids ==> l <= f(id)
    ensures l * |ids| <= SumOver(ids, f)
  {
    if ids != [] {
      var front := ids[..|ids| - 1];
      assert ids[|ids| - 1] in ids && forall id :: id in front ==> id in ids;
      SumLower(front, f, l);
      Distribute(l, |front|, 1);
    }
  }

  /** One summand that is far below the bound pulls the sum down by as much. */
  lemma {:induction false} SumUpperWithDrop(ids: seq<string>, f: string -> int, u: int, drop: int, x: string)
    requires (forall id :: id in ids ==> f(id) <= u) && x in ids && f(x) <= u - drop
    ensures SumOver(ids, f) <= u * |ids| - drop
  {
    var front, last := ids[..|ids| - 1], ids[|ids| - 1];
    assert ids == front + [last] && last in ids && forall id :: id in front ==> id in ids;
    Distribute(u, |front|, 1);
    if last == x {
      SumUpper(front, f, u);
    } else {
      SumUpperWithDrop(front, f, u, drop, x);
    }
  }

  lemma ExcessBounds(s: seq<Backend>, weight: int, id: string)
    requires |s| > 0 && Sane(weight, |s|) && Count(s, id) > 0
    ensures var n, x := |s|, Excess(s, weight)(id);
            && x <= n
            && (Fits(s, weight, id) ==> 1 - n <= x)
            && (Fits(s, weight, id) && weight >= n ==> x <= 0)
            && (!Fits(s, weight, id) ==> x <= n - n * (MAX_INT32 + 1))
  {
    CountPositive(s, id);
    ShareBounds(weight, Count(s, id), |s|);
    Distribute(|s|, Share(weight, Count(s, id), |s|), 1);
  }

  // What a bound on every summand says about `d`, when `n * d` is the sum.

  lemma AverageAtMost(ids: seq<string>, f: string -> int, n: int, d: int)
    requires n > 0 && n * d == SumOver(ids, f) && forall id :: id in ids ==> f(id) <= n
    ensures d <= |ids|
  {
    SumUpper(ids, f, n);
    if d > |ids| { ProductBound(n, |ids| + 1, d); Distribute(n, |ids|, 1); }
  }

  lemma AverageNotPositive(ids: seq<string>, f: string -> int, n: int, d: int)
    requires n > 0 && n * d == SumOver(ids, f) && forall id :: id in ids ==> f(id) <= 0
    ensures d <= 0
  {
    SumUpper(ids, f, 0);
    if d > 0 { ProductBound(n, 1, d); }
  }

  lemma AverageAbove(ids: seq<string>, f: string -> int, n: int, d: int)
    requires n > 0 && n * d == SumOver(ids, f) && ids != [] && forall id :: id in ids ==> 1 - n <= f(id)
    ensures -|ids| < d
  {
    var k: int := |ids|;
    SumLower(ids, f, 1 - n);
    if d <= -k { ProductBound(n, d, -k); BelowAverage(n, k); }
  }

  lemma BelowAverage(n: int, k: int)
    ensures (1 - n) * k == k + n * (-k)
  {
  }

  lemma AverageDropped(ids: seq<string>, f: string -> int, n: int, d: int, m: int, x: string)
    requires n > 0 && n * d == SumOver(ids, f) && forall id :: id in ids ==> f(id) <= n
    requires x in ids && f(x) <= n - n * m
    ensures d <= |ids| - m
  {
    SumUpperWithDrop(ids, f, n, n * m, x);
    Distribute(n, |ids|, m);
    if d > |ids| - m { ProductBound(n, |ids| - m + 1, d); Distribute(n, |ids| - m, 1); }
  }

  /** The Local total after deduplication. */
  function LocalTotal(s: seq<Backend>, weight: int): int {
    Sum(Deduplicated(WithWeights(s, PodPercent(s, Local, weight))))
  }

  lemma LocalTotalIs(s: seq<Backend>, weight: int)
    requires |s| > 0 && weight != 0
    ensures LocalTotal(s, weight) == SumOver(ServerIds(s), ShareIn(s, weight))
  {
    SumDeduplicated(s, PodPercent(s, Local, weight));
    SumOverSame(ServerIds(s), PodPercent(s, Local, weight), ShareIn(s, weight));
  }

  /** The Local total compared with the configured weight. */
  lemma TotalExcess(s: seq<Backend>, weight: int, W: int)
    requires |s| > 0 && W == SumOver(ServerIds(s), ShareIn(s, weight))
    ensures |s| * (W - weight) == SumOver(ServerIds(s), Excess(s, weight))
  {
    CountsAddUp(s);
    SumExcess(ServerIds(s), s, weight);
    Distribute(|s|, W, weight);
    assert weight * |s| == |s| * weight;
  }

  lemma ServersCounted(s: seq<Backend>, id: string)
    requires id in ServerIds(s)
    ensures Count(s, id) > 0
  {
    ServerIdsFacts(s);
    CountPositive(s, id);
  }

  lemma AllExcess(s: seq<Backend>, weight: int)
    requires |s| > 0 && Sane(weight, |s|)
    ensures forall id :: id in ServerIds(s) ==> Excess(s, weight)(id) <= |s|
    ensures forall id :: id in ServerIds(s) && !Fits(s, weight, id)
              ==> Excess(s, weight)(id) <= |s| - |s| * (MAX_INT32 + 1)
    ensures forall id :: id in ServerIds(s) && Fits(s, weight, id)
              ==> 1 - |s| <= Excess(s, weight)(id) && (weight >= |s| ==> Excess(s, weight)(id) <= 0)
  {
    forall id | id in ServerIds(s)
      ensures Excess(s, weight)(id) <= |s|
      ensures !Fits(s, weight, id) ==> Excess(s, weight)(id) <= |s| - |s| * (MAX_INT32 + 1)
      ensures Fits(s, weight, id) ==> 1 - |s| <= Excess(s, weight)(id) && (weight >= |s| ==> Excess(s, weight)(id) <= 0)
    {
      ServersCounted(s, id);
      ExcessBounds(s, weight, id);
    }
  }

  lemma SomeServer(s: seq<Backend>)
    requires s != []
    ensures ServerIds(s) != []
  {
    ServerIdsFacts(s);
    assert s[0] in s && s[0].serverId in ServerIds(s);
  }

  predicate AllFit(s: seq<Backend>, weight: int)
    requires |s| > 0
  {
    forall id :: id in ServerIds(s) ==> Fits(s, weight, id)
  }

  lemma TotalWhenFits(s: seq<Backend>, weight: int, W: int, f: string -> int)
    requires |s| > 0 && Sane(weight, |s|) && AllFit(s, weight) && f == Excess(s, weight)
    requires |s| * (W - weight) == SumOver(ServerIds(s), f)
    ensures weight - |ServerIds(s)| < W
    ensures weight >= |s| ==> W <= weight
  {
    AllExcess(s, weight);
    SomeServer(s);
    AverageAbove(ServerIds(s), f, |s|, W - weight);
    if weight >= |s| { AverageNotPositive(ServerIds(s), f, |s|, W - weight); }
  }

  lemma TotalWhenNot(s: seq<Backend>, weight: int, W: int, f: string -> int)
    requires |s| > 0 && Sane(weight, |s|) && f == Excess(s, weight)
    requires |s| * (W - weight) == SumOver(ServerIds(s), f)
    ensures W <= weight + |ServerIds(s)|
    ensures !AllFit(s, weight) ==> W <= weight + |ServerIds(s)| - (MAX_INT32 + 1)
  {
    AllExcess(s, weight);
    AverageAtMost(ServerIds(s), f, |s|, W - weight);
    if x: string :| x in ServerIds(s) && !Fits(s, weight, x) {
      AverageDropped(ServerIds(s), f, |s|, W - weight, MAX_INT32 + 1, x);
    }
  }

  lemma NarrowFits(s: seq<Backend>, weight: int)
    requires |s| > 0 && Sane(weight, |s|) && weight <= MAX_INT32
    ensures AllFit(s, weight)
  {
    forall id ensures Fits(s, weight, id) {
      CountPositive(s, id);
      QuotientAtMost(weight, Count(s, id), |s|);
    }
  }

  lemma QuotientAtMost(weight: int, pods: int, n: int)
    requires weight > 0 && 0 <= pods <= n && 0 < n
    ensures Quotient(weight, pods, n) <= weight
  {
    ProductBound(weight, pods, n);
    QuotientBound(weight * pods, n);
    var q := Quotient(weight, pods, n);
    if q > weight { ProductBound(n, weight + 1, q); Distribute(n, weight, 1); }
  }

  /** Servers other than `x` have at least one backend each. */
  lemma {:induction false} SumLowerWithRise(ids: seq<string>, f: string -> int, x: string)
    requires (forall id :: id in ids ==> 1 <= f(id)) && x in ids
    ensures |ids| - 1 + f(x) <= SumOver(ids, f)
  {
    var front, last := ids[..|ids| - 1], ids[|ids| - 1];
    assert ids == front + [last] && last in ids && forall id :: id in front ==> id in ids;
    if last == x {
      SumLower(front, f, 1);
    } else {
      SumLowerWithRise(front, f, x);
    }
  }

  lemma OtherServers(s: seq<Backend>, x: string)
    requires x in ServerIds(s)
    ensures |ServerIds(s)| - 1 <= |s| - Count(s, x)
  {
    forall id | id in ServerIds(s) ensures 1 <= CountIn(s)(id) { ServersCounted(s, id); }
    SumLowerWithRise(ServerIds(s), CountIn(s), x);
    CountsAddUp(s);
  }

  const HALF := (MAX_INT32 + 1) / 2

  /** A share of 2^31 or more leaves room for fewer than 2^30 other servers, because the
      product of weight and backends fits 64 bits. */
  lemma FewOthers(w: int, n: int, c: int, k: int)
    requires Sane(w, n) && 0 < c <= n && (MAX_INT32 + 1) * n <= w * c && k <= n - c
    ensures k < HALF
  {
    var M := MAX_INT32 + 1;
    if k >= HALF {
      ProductBound(w, HALF, k);
      ProductBound(w, k, n - c);
      Distribute(w, n, c);
      Distribute(n, w, M);
      var d := w - M;
      assert w * HALF <= n * d;
      if d <= 0 { ProductBound(n, d, 0); }
      Contradicts(w, n, d);
    }
  }

  lemma Contradicts(w: int, n: int, d: int)
    requires 0 < d && w == d + (MAX_INT32 + 1) && 0 < n && w * n <= MAX_INT64
    ensures w * HALF > n * d
  {
    if w * HALF <= n * d {
      ProductBound(w, w * HALF, n * d);
      Associate(w, n, d);
      Associate(w, w, HALF);
      ProductBound(d, w * n, MAX_INT64);
      LongSquare(w, d);
      Compare(w * w, (w * n) * d, d);
    }
  }

  lemma Associate(a: int, b: int, c: int)
    ensures a * (b * c) == (a * b) * c
  {
  }

  /** `(d - M)^2 >= 0`, where `w == d + M`. */
  lemma LongSquare(w: int, d: int)
    requires w == d + (MAX_INT32 + 1)
    ensures w * w >= 4 * (MAX_INT32 + 1) * d
  {
    var m := MAX_INT32 + 1;
    assert (d - m) * (d - m) >= 0;
    assert (d - m) * (d - m) == w * w - 4 * m * d;
  }

  lemma Compare(square: int, product: int, d: int)
    requires d > 0 && square >= 4 * (MAX_INT32 + 1) * d && product <= MAX_INT64 * d
    ensures square * HALF > product
  {
  }

  lemma FewServers(s: seq<Backend>, weight: int)
    requires |s| > 0 && Sane(weight, |s|) && !AllFit(s, weight)
    ensures |ServerIds(s)| <= HALF
  {
    var x :| x in ServerIds(s) && !Fits(s, weight, x);
    var n, c := |s|, Count(s, x);
    ServersCounted(s, x);
    CountPositive(s, x);
    OtherServers(s, x);
    ShareIs(weight, c, n);
    QuotientBound(weight * c, n);
    ProductBound(n, MAX_INT32 + 1, Quotient(weight, c, n));
    FewOthers(weight, n, c, |ServerIds(s)| - 1);
  }

  /** With a configured weight, the Local total of `k` distinct servers is within
      `k` of that weight if and only if every share fits 32 bits, and it does not exceed
      the weight when that is at least the number of backends. A weight that fits 32
      bits has only shares that do. */
  lemma LocalTotalBounds(s: seq<Backend>, weight: int)
    requires |s| > 0 && Sane(weight, |s|)
    ensures weight <= MAX_INT32 ==> AllFit(s, weight)
    ensures var W, k := LocalTotal(s, weight), |ServerIds(s)|;
            && (weight - k < W <= weight + k <==> AllFit(s, weight))
            && (AllFit(s, weight) && weight >= |s| ==> W <= weight)
  {
    var W := LocalTotal(s, weight);
    LocalTotalIs(s, weight);
    TotalExcess(s, weight, W);
    TotalWhenNot(s, weight, W, Excess(s, weight));
    if weight <= MAX_INT32 { NarrowFits(s, weight); }
    if AllFit(s, weight) { TotalWhenFits(s, weight, W, Excess(s, weight)); } else { FewServers(s, weight); }
  }

  /** The per-backend weights of ENI and Cluster mode: the total is within the number of
      backends of the configured weight if and only if each weight fits 32 bits. */
  lemma PerBackendBounds(s: seq<Backend>, policy: Policy, weight: int)
    requires !policy.Local? && |s| > 0 && 0 < weight
    ensures var n, W := |s|, Sum(WithWeights(s, PodPercent(s, policy, weight)));
            && (weight - n < W <= weight + n <==> weight / n <= MAX_INT32)
            && (weight / n <= MAX_INT32 && weight >= n ==> W <= weight)
            && (weight / n <= MAX_INT32 ==>
                  forall b :: b in WithWeights(s, PodPercent(s, policy, weight)) ==> b.weight >= 1)
  {
    var n, f := |s|, PodPercent(s, policy, weight);
    var per, q := PerBackend(weight, n), weight / n;
    QuotientBound(weight, n);
    QuotientMonotone2(weight, n);
    assert per == ToInt32(AtLeastOne(q));
    SumConstant(WithWeights(s, f), per);
    if q > MAX_INT32 {
      Wrapped(q);
      ProductBound(n, per, q - 1);
      Distribute(n, q, 1);
    } else if q >= 1 {
      assert per == q;
    } else {
      assert per == 1;
    }
  }

  lemma Wrapped(q: int)
    requires q > MAX_INT32
    ensures ToInt32(q) < q
  {
  }

  lemma QuotientMonotone2(weight: int, n: int)
    requires 0 < weight && 0 < n
    ensures weight / n <= weight
    ensures weight < n ==> weight / n == 0
    ensures weight >= n ==> weight / n >= 1
  {
    QuotientBound(weight, n);
    if weight / n > weight { ProductBound(weight / n, 1, n); }
  }

  lemma {:induction false} SumConstant(s: seq<Backend>, w: int)
    requires forall b :: b in s ==> b.weight == w
    ensures Sum(s) == |s| * w
  {
    if s != [] {
      assert s[|s| - 1] in s;
      assert forall b :: b in s[..|s| - 1] ==> b in s;
      SumConstant(s[..|s| - 1], w);
    }
  }
}
