/** Looking up network interfaces by address: chunks of addresses, each answered over
    several pages. */
module Paging {
  import opened Common

  const MAX_NETWORK_INTERFACE_NUM := 100
  const PAGE_SIZE := 100

  datatype Family = IPv4 | IPv6

  datatype NetworkInterface = NetworkInterface(id: string, privateIps: seq<string>, ipv6s: seq<string>)
  {
    function Ips(f: Family): seq<string> { if f.IPv6? then ipv6s else privateIps }
  }

  datatype Pagination = Pagination(pageNumber: int, pageSize: int)

  datatype PaginationResult = PaginationResult(totalCount: int, pageNumber: int, pageSize: int)
  {
    function NextPage(): Option<Pagination> {
      if pageNumber * pageSize >= totalCount then None else Some(Pagination(pageNumber + 1, pageSize))
    }
  }

  /** A server whose contents do not change during the lookup. It answers with the page
      number asked for and with at most `cap` interfaces a page. */
  datatype Server = Server(enis: seq<NetworkInterface>, cap: int)
  {
    predicate Valid() { cap > 0 }

    function PageSize(asked: int): int { if asked <= cap then asked else cap }
  }

  predicate HasAddress(e: NetworkInterface, f: Family, ips: seq<string>) {
    exists i :: 0 <= i < |ips| && ips[i] in e.Ips(f)
  }

  /** The interfaces with one of the addresses. */
  function Matching(enis: seq<NetworkInterface>, f: Family, ips: seq<string>): seq<NetworkInterface> {
    if enis == [] then []
    else (if HasAddress(enis[0], f, ips) then [enis[0]] else []) + Matching(enis[1..], f, ips)
  }

  lemma {:induction false} MatchingFacts(enis: seq<NetworkInterface>, f: Family, ips: seq<string>)
    ensures forall e :: e in Matching(enis, f, ips) <==> e in enis && HasAddress(e, f, ips)
  {
    if enis != [] {
      MatchingFacts(enis[1..], f, ips);
      assert enis == [enis[0]] + enis[1..];
    }
  }

  /** One request for a page, which may fail. */
  method DescribePage(s: Server, f: Family, ips: seq<string>, page: Pagination, fails: bool)
    returns (r: Option<(PaginationResult, seq<NetworkInterface>)>)
    requires s.Valid() && page.pageNumber >= 1 && page.pageSize >= 1
    requires (page.pageNumber - 1) * s.PageSize(page.pageSize) <= |Matching(s.enis, f, ips)|
    ensures r.None? <==> fails
    ensures r.Some? ==>
              var all, size := Matching(s.enis, f, ips), s.PageSize(page.pageSize);
              var from := (page.pageNumber - 1) * size;
              && r.value.0 == PaginationResult(|all|, page.pageNumber, size)
              && r.value.1 == if from + size <= |all| then all[from..from + size] else all[from..]
  {
    var all, size := Matching(s.enis, f, ips), s.PageSize(page.pageSize);
    var from := (page.pageNumber - 1) * size;
    assert 0 <= from by { NotNegative(page.pageNumber - 1, size); }
    if fails { return None; }
    return Some((PaginationResult(|all|, page.pageNumber, size),
                 if from + size <= |all| then all[from..from + size] else all[from..]));
  }

  lemma NotNegative(a: int, b: int)
    requires a >= 0 && b >= 0
    ensures a * b >= 0
  {
  }

  lemma PageAfter(p: int, size: int)
    ensures p * size == (p - 1) * size + size
  {
  }

  // ------------------------------------------------------------------------ result map

  function RecordIps(m: map<string, string>, ips: seq<string>, id: string): map<string, string> {
    if ips == [] then m else RecordIps(m, ips[..|ips| - 1], id)[ips[|ips| - 1] := id]
  }

  function RecordAll(m: map<string, string>, enis: seq<NetworkInterface>, f: Family): map<string, string> {
    if enis == [] then m
    else RecordIps(RecordAll(m, enis[..|enis| - 1], f), enis[|enis| - 1].Ips(f), enis[|enis| - 1].id)
  }

  lemma {:induction false} RecordIpsAt(m: map<string, string>, ips: seq<string>, id: string, ip: string)
    ensures ip in RecordIps(m, ips, id) <==> ip in m || ip in ips
    ensures ip in ips ==> RecordIps(m, ips, id)[ip] == id
    ensures ip in m && ip !in ips ==> RecordIps(m, ips, id)[ip] == m[ip]
  {
    if ips != [] {
      RecordIpsAt(m, ips[..|ips| - 1], id, ip);
      assert ips == ips[..|ips| - 1] + [ips[|ips| - 1]];
    }
  }

  /** The interface has this address, of the family asked for. */
  predicate Holds(e: NetworkInterface, f: Family, ip: string) {
    if f.IPv6? then ip in e.ipv6s else ip in e.privateIps
  }

  /** Every address of a recorded interface is in the map, and every new entry names an
      interface with that address. */
  lemma {:induction false} RecordAllAt(m: map<string, string>, enis: seq<NetworkInterface>, f: Family, ip: string)
    ensures ip in RecordAll(m, enis, f) <==> ip in m || exists e :: e in enis && Holds(e, f, ip)
    ensures ip in RecordAll(m, enis, f) ==>
              || (ip in m && RecordAll(m, enis, f)[ip] == m[ip])
              || exists e :: e in enis && Holds(e, f, ip) && e.id == RecordAll(m, enis, f)[ip]
  {
    if enis != [] {
      var front, e := enis[..|enis| - 1], enis[|enis| - 1];
      RecordAllAt(m, front, f, ip);
      RecordIpsAt(RecordAll(m, front, f), e.Ips(f), e.id, ip);
      assert enis == front + [e] && e in enis;
      assert forall x :: x in enis <==> x in front || x == e;
      if Holds(e, f, ip) {
        assert exists x :: x in enis && Holds(x, f, ip) && x.id == e.id;
      }
    }
  }

  lemma {:induction false} RecordAllConcat(m: map<string, string>, a: seq<NetworkInterface>, b: seq<NetworkInterface>, f: Family)
    ensures RecordAll(m, a + b, f) == RecordAll(RecordAll(m, a, f), b, f)
  {
    if b == [] {
      assert a + b == a;
    } else {
      assert (a + b)[..|a + b| - 1] == a + b[..|b| - 1];
      RecordAllConcat(m, a, b[..|b| - 1], f);
    }
  }

  /** The loops over one page. */
  method RecordPage(m: map<string, string>, enis: seq<NetworkInterface>, f: Family) returns (r: map<string, string>)
    ensures r == RecordAll(m, enis, f)
  {
    r := m;
    for i := 0 to |enis|
      invariant r == RecordAll(m, enis[..i], f)
    {
      assert enis[..i + 1][..i] == enis[..i];
      var ips, before := enis[i].Ips(f), r;
      for j := 0 to |ips|
        invariant r == RecordIps(before, ips[..j], enis[i].id)
      {
        assert ips[..j + 1][..j] == ips[..j];
        r := r[ips[j] := enis[i].id];
      }
      assert ips[..|ips|] == ips;
    }
    assert enis[..|enis|] == enis;
  }

  // ------------------------------------------------------------------------- page loop

  /** What the page loop keeps: the pages before this one are exactly the first
      `(pageNumber - 1) * size` interfaces. */
  ghost predicate AtPage(all: seq<NetworkInterface>, visited: seq<NetworkInterface>, s: Server, next: Pagination, size: int) {
    && next.pageNumber >= 1 && next.pageSize >= 1 && s.PageSize(next.pageSize) == size
    && 0 <= (next.pageNumber - 1) * size <= |all|
    && visited == all[..(next.pageNumber - 1) * size]
  }

  /** How many interfaces the pages before this one leave. */
  ghost function Left(all: seq<NetworkInterface>, next: Pagination, size: int): int {
    |all| - (next.pageNumber - 1) * size
  }

  /** Each page adds the interfaces that follow; without a next page none is left. */
  lemma PageStep(all: seq<NetworkInterface>, visited: seq<NetworkInterface>, s: Server, next: Pagination, size: int, page: seq<NetworkInterface>)
    requires s.Valid() && AtPage(all, visited, s, next, size)
    requires var from := (next.pageNumber - 1) * size;
             page == if from + size <= |all| then all[from..from + size] else all[from..]
    ensures var r := PaginationResult(|all|, next.pageNumber, size).NextPage();
            && (r.None? ==> visited + page == all)
            && (r.Some? ==> AtPage(all, visited + page, s, r.value, size))
            && (r.Some? ==> Left(all, r.value, size) < Left(all, next, size))
  {
    PageAfter(next.pageNumber, size);
    var from := (next.pageNumber - 1) * size;
    if from + size <= |all| {
      assert all[..from] + all[from..from + size] == all[..from + size];
      if from + size == |all| { assert all[..|all|] == all; }
    } else {
      assert all[..from] + all[from..] == all;
    }
  }

  /** None of the requests from `a` to `b` fails. */
  ghost predicate AllAnswered(fails: nat -> bool, a: nat, b: nat) {
    forall i :: a <= i < b ==> !fails(i)
  }

  /** The pages of one chunk. On success they hold every matching interface once. */
  method DescribeChunk(s: Server, f: Family, ips: seq<string>, m: map<string, string>, fails: nat -> bool, before: nat)
    returns (ok: bool, r: map<string, string>, visited: seq<NetworkInterface>, calls: nat)
    requires s.Valid()
    ensures before < calls && (ok <==> AllAnswered(fails, before, calls))
    ensures ok ==> visited == Matching(s.enis, f, ips)
    ensures r == RecordAll(m, visited, f)
    ensures forall e :: e in visited ==> e in Matching(s.enis, f, ips)
  {
    ghost var all := Matching(s.enis, f, ips);
    var next, size := Pagination(1, PAGE_SIZE), s.PageSize(PAGE_SIZE);
    r, visited, calls := m, [], before;
    while true
      invariant before <= calls && AllAnswered(fails, before, calls)
      invariant AtPage(all, visited, s, next, size) && r == RecordAll(m, visited, f)
      decreases Left(all, next, size)
    {
      var following;
      ok, r, visited, following := VisitPage(s, f, ips, r, visited, next, fails(calls), m, size);
      calls := calls + 1;
      if !ok || following.None? { return; }
      next := following.value;
    }
  }

  /** One round of the page loop. */
  method VisitPage(s: Server, f: Family, ips: seq<string>, r: map<string, string>, visited: seq<NetworkInterface>,
                   next: Pagination, fails: bool, ghost m: map<string, string>, ghost size: int)
    returns (ok: bool, r': map<string, string>, visited': seq<NetworkInterface>, following: Option<Pagination>)
    requires s.Valid() && AtPage(Matching(s.enis, f, ips), visited, s, next, size) && r == RecordAll(m, visited, f)
    ensures r' == RecordAll(m, visited', f)
    ensures ok == !fails && (!ok ==> visited' == visited)
    ensures var all := Matching(s.enis, f, ips);
            && (ok && following.None? ==> visited' == all)
            && (ok && following.Some? ==>
                  AtPage(all, visited', s, following.value, size) && Left(all, following.value, size) < Left(all, next, size))
  {
    var resp := DescribePage(s, f, ips, next, fails);
    if resp.None? { return false, r, visited, None; }
    var (result, page) := resp.value;
    PageStep(Matching(s.enis, f, ips), visited, s, next, size, page);
    RecordAllConcat(m, visited, page, f);
    r' := RecordPage(r, page, f);
    return true, r', visited + page, result.NextPage();
  }

  // ------------------------------------------------------------------------ chunk loop

  function Concat(chunks: seq<seq<string>>): seq<string> {
    if chunks == [] then [] else Concat(chunks[..|chunks| - 1]) + chunks[|chunks| - 1]
  }

  /** Every entry names an interface with that address, and with one that was asked for. */
  ghost predicate Sound(s: Server, f: Family, ips: seq<string>, r: map<string, string>) {
    forall ip :: ip in r ==> exists e :: e in s.enis && Holds(e, f, ip) && e.id == r[ip] && Wanted(e, f, ips)
  }

  predicate Wanted(e: NetworkInterface, f: Family, ips: seq<string>) {
    exists ip :: ip in ips && Holds(e, f, ip)
  }

  ghost predicate Complete(s: Server, f: Family, ips: seq<string>, r: map<string, string>) {
    forall ip, e :: ip in ips && e in s.enis && Holds(e, f, ip) ==> ip in r
  }

  lemma SoundStep(s: Server, f: Family, done: seq<string>, chunk: seq<string>, m: map<string, string>, enis: seq<NetworkInterface>)
    requires Sound(s, f, done, m) && forall e :: e in enis ==> e in Matching(s.enis, f, chunk)
    ensures Sound(s, f, done + chunk, RecordAll(m, enis, f))
  {
    var r, ips := RecordAll(m, enis, f), done + chunk;
    MatchingFacts(s.enis, f, chunk);
    forall e | e in s.enis && (Wanted(e, f, done) || HasAddress(e, f, chunk)) ensures Wanted(e, f, ips) {
      if Wanted(e, f, done) {
        var ip :| ip in done && Holds(e, f, ip);
        assert ip in ips;
      } else {
        var i :| 0 <= i < |chunk| && chunk[i] in e.Ips(f);
        assert chunk[i] in ips && Holds(e, f, chunk[i]);
      }
    }
    forall ip | ip in r ensures exists e :: e in s.enis && Holds(e, f, ip) && e.id == r[ip] && Wanted(e, f, ips) {
      RecordAllAt(m, enis, f, ip);
    }
  }

  lemma CompleteStep(s: Server, f: Family, done: seq<string>, chunk: seq<string>, m: map<string, string>)
    requires Complete(s, f, done, m)
    ensures Complete(s, f, done + chunk, RecordAll(m, Matching(s.enis, f, chunk), f))
  {
    var r := RecordAll(m, Matching(s.enis, f, chunk), f);
    forall ip, e | ip in done + chunk && e in s.enis && Holds(e, f, ip) ensures ip in r {
      RecordAllAt(m, Matching(s.enis, f, chunk), f, ip);
      if ip in chunk {
        var i :| 0 <= i < |chunk| && chunk[i] == ip;
        assert HasAddress(e, f, chunk);
        MatchingFacts(s.enis, f, chunk);
      }
    }
  }

  predicate Chunks(chunks: seq<seq<string>>) {
    forall c :: c in chunks ==> 1 <= |c| <= MAX_NETWORK_INTERFACE_NUM
  }

  /** What the chunk loop keeps once the first `n` addresses have been asked for. */
  ghost predicate Asked(s: Server, f: Family, ips: seq<string>, n: int, chunks: seq<seq<string>>, r: map<string, string>) {
    0 <= n <= |ips| && Concat(chunks) == ips[..n] && Complete(s, f, ips[..n], r) && Sound(s, f, ips[..n], r)
  }

  lemma AskedStep(s: Server, f: Family, ips: seq<string>, n: int, last: int, chunks: seq<seq<string>>, r: map<string, string>)
    requires Asked(s, f, ips, n, chunks, r) && n < last <= |ips|
    ensures Asked(s, f, ips, last, chunks + [ips[n..last]], RecordAll(r, Matching(s.enis, f, ips[n..last]), f))
  {
    assert (chunks + [ips[n..last]])[..|chunks|] == chunks;
    assert ips[..n] + ips[n..last] == ips[..last];
    CompleteStep(s, f, ips[..n], ips[n..last], r);
    SoundStep(s, f, ips[..n], ips[n..last], r, Matching(s.enis, f, ips[n..last]));
  }

  /** Also when a request failed. */
  lemma SoundSoFar(s: Server, f: Family, ips: seq<string>, n: int, last: int, m: map<string, string>, visited: seq<NetworkInterface>)
    requires 0 <= n < last <= |ips| && Sound(s, f, ips[..n], m) && forall e :: e in visited ==> e in Matching(s.enis, f, ips[n..last])
    ensures Sound(s, f, ips, RecordAll(m, visited, f))
  {
    SoundStep(s, f, ips[..n], ips[n..last], m, visited);
    assert forall ip :: ip in ips[..n] + ips[n..last] ==> ip in ips;
    assert forall e :: Wanted(e, f, ips[..n] + ips[n..last]) ==> Wanted(e, f, ips);
  }

  /** `DescribeNetworkInterfaces`: every address is asked for in exactly one chunk of at
      most 100, and on success every address with an interface is in the result.  It
      succeeds exactly when no request fails. */
  method DescribeNetworkInterfaces(s: Server, ips: seq<string>, f: Family, fails: nat -> bool)
    returns (ok: bool, result: map<string, string>, chunks: seq<seq<string>>, calls: nat)
    requires s.Valid()
    ensures ok <==> AllAnswered(fails, 0, calls)
    ensures Chunks(chunks)
    ensures ok ==> Concat(chunks) == ips
    ensures ok ==> Complete(s, f, ips, result)
    ensures Sound(s, f, ips, result)
  {
    result, chunks, calls := map[], [], 0;
    var begin := 0;
    while begin < |ips|
      invariant AllAnswered(fails, 0, calls)
      invariant Chunks(chunks)
      invariant Asked(s, f, ips, if begin < |ips| then begin else |ips|, chunks, result)
      decreases |ips| - begin
    {
      var last := |ips|;
      if begin + MAX_NETWORK_INTERFACE_NUM < last { last := begin + MAX_NETWORK_INTERFACE_NUM; }
      var chunk, before, visited := ips[begin..last], result, [];
      ok, result, visited, calls := DescribeChunk(s, f, chunk, result, fails, calls);
      SoundSoFar(s, f, ips, begin, last, before, visited);
      AskedStep(s, f, ips, begin, last, chunks, before);
      chunks := chunks + [chunk];
      if !ok { return; }
      begin := begin + MAX_NETWORK_INTERFACE_NUM;
    }
    assert ips[..|ips|] == ips;
    ok := true;
  }

  /** When no two interfaces share an address, the result of a successful lookup is the
      interface of each address that has one. */
  lemma ExactWhenUnique(s: Server, f: Family, ips: seq<string>, r: map<string, string>)
    requires Sound(s, f, ips, r) && Complete(s, f, ips, r)
    requires forall d, e, ip :: d in s.enis && e in s.enis && Holds(d, f, ip) && Holds(e, f, ip) ==> d.id == e.id
    ensures forall ip, e :: ip in ips && e in s.enis && Holds(e, f, ip) ==> ip in r && r[ip] == e.id
    ensures forall ip :: ip in ips && ip !in r ==> forall e :: e in s.enis ==> !Holds(e, f, ip)
  {
  }
}
