/** The names by which listeners and server groups are recognised: printing,
    parsing, and who owns a name. */
module Names {
  import opened Common

  const DEFAULT_PREFIX := "k8s"
  const MAX_INT32 := 0x7fff_ffff
  const MAX_INT64 := 0x7fff_ffff_ffff_ffff

  // ------------------------------------------------------------ splitting and joining

  /** The pieces of `s` between separators; one more than there are separators. */
  function Split(s: string, sep: char): (r: seq<string>)
    ensures |r| > 0
  {
    if s == "" then [""]
    else
      var rest := Split(s[1..], sep);
      if s[0] == sep then [""] + rest else [[s[0]] + rest[0]] + rest[1..]
  }

  function Join(parts: seq<string>, sep: char): string
    requires |parts| > 0
  {
    if |parts| == 1 then parts[0] else parts[0] + [sep] + Join(parts[1..], sep)
  }

  function Count(s: string, c: char): nat {
    if s == "" then 0 else (if s[0] == c then 1 else 0) + Count(s[1..], c)
  }

  predicate Free(parts: seq<string>, sep: char) {
    forall p :: p in parts ==> sep !in p
  }

  lemma {:induction false} JoinSplit(s: string, sep: char)
    ensures Join(Split(s, sep), sep) == s
  {
    if s != "" {
      var rest := Split(s[1..], sep);
      JoinSplit(s[1..], sep);
      assert s == [s[0]] + s[1..];
      if s[0] == sep {
        assert ([""] + rest)[1..] == rest;
        assert Join([""] + rest, sep) == "" + [sep] + s[1..];
      } else {
        var parts := [[s[0]] + rest[0]] + rest[1..];
        assert parts[1..] == rest[1..];
      }
    }
  }

  lemma {:induction false} SplitPrepend(p: string, s: string, sep: char)
    requires sep !in p
    ensures Split(p + [sep] + s, sep) == [p] + Split(s, sep)
  {
    if p == "" {
      assert p + [sep] + s == [sep] + s;
      assert ([sep] + s)[1..] == s;
    } else {
      var t := p[1..] + [sep] + s;
      assert p + [sep] + s == [p[0]] + t;
      assert ([p[0]] + t)[1..] == t;
      SplitPrepend(p[1..], s, sep);
      assert [p[0]] + p[1..] == p;
      assert ([p[1..]] + Split(s, sep))[1..] == Split(s, sep);
    }
  }

  lemma {:induction false} SplitFree(p: string, sep: char)
    requires sep !in p
    ensures Split(p, sep) == [p]
  {
    if p != "" {
      SplitFree(p[1..], sep);
      assert [p[0]] + p[1..] == p;
    }
  }

  lemma {:induction false} SplitJoin(parts: seq<string>, sep: char)
    requires |parts| > 0 && Free(parts, sep)
    ensures Split(Join(parts, sep), sep) == parts
  {
    assert parts[0] in parts;
    if |parts| == 1 {
      SplitFree(parts[0], sep);
    } else {
      assert forall p :: p in parts[1..] ==> p in parts;
      SplitJoin(parts[1..], sep);
      SplitPrepend(parts[0], Join(parts[1..], sep), sep);
      assert [parts[0]] + parts[1..] == parts;
    }
  }

  lemma {:induction false} SplitLength(s: string, sep: char)
    ensures |Split(s, sep)| == 1 + Count(s, sep)
  {
    if s != "" {
      SplitLength(s[1..], sep);
    }
  }

  lemma {:induction false} CountConcat(a: string, b: string, c: char)
    ensures Count(a + b, c) == Count(a, c) + Count(b, c)
  {
    if a == "" {
      assert a + b == b;
    } else {
      assert (a + b)[1..] == a[1..] + b;
      CountConcat(a[1..], b, c);
    }
  }

  lemma {:induction false} CountZero(s: string, c: char)
    ensures Count(s, c) == 0 <==> c !in s
  {
    if s != "" {
      CountZero(s[1..], c);
      assert s == [s[0]] + s[1..];
    }
  }

  lemma {:induction false} JoinCount(parts: seq<string>, sep: char)
    requires |parts| > 0
    ensures Count(Join(parts, sep), sep) >= |parts| - 1
    ensures Count(Join(parts, sep), sep) == |parts| - 1 <==> Free(parts, sep)
  {
    CountZero(parts[0], sep);
    if |parts| > 1 {
      var tail := Join(parts[1..], sep);
      JoinCount(parts[1..], sep);
      CountConcat(parts[0] + [sep], tail, sep);
      CountConcat(parts[0], [sep], sep);
      assert Count([sep], sep) == 1;
      assert parts == [parts[0]] + parts[1..];
    }
  }

  /** Joining pieces and splitting again gives the pieces back exactly when none
      of them contains the separator. */
  lemma SplitJoinExactly(parts: seq<string>, sep: char)
    requires |parts| > 0
    ensures |Split(Join(parts, sep), sep)| == |parts| <==> Free(parts, sep)
    ensures Free(parts, sep) ==> Split(Join(parts, sep), sep) == parts
  {
    JoinCount(parts, sep);
    SplitLength(Join(parts, sep), sep);
    if Free(parts, sep) {
      SplitJoin(parts, sep);
    }
  }

  // -------------------------------------------------------------------- decimal numbers

  predicate IsDigit(c: char) {
    '0' <= c <= '9'
  }

  function Digit(d: nat): (c: char)
    requires d < 10
    ensures IsDigit(c) && DigitValue(c) == d
  {
    '0' + d as char
  }

  function DigitValue(c: char): (d: nat)
    requires IsDigit(c)
    ensures d < 10
  {
    (c - '0') as int
  }

  function Decimal(n: nat): (s: string)
    ensures |s| > 0 && forall i :: 0 <= i < |s| ==> IsDigit(s[i])
  {
    if n < 10 then [Digit(n)] else Decimal(n / 10) + [Digit(n % 10)]
  }

  function Itoa(n: int): string {
    if n < 0 then ['-'] + Decimal(-n) else Decimal(n)
  }

  predicate AllDigits(s: string) {
    |s| > 0 && forall i :: 0 <= i < |s| ==> IsDigit(s[i])
  }

  function Value(s: string): nat
    requires forall i :: 0 <= i < |s| ==> IsDigit(s[i])
  {
    if s == "" then 0 else Value(s[..|s| - 1]) * 10 + DigitValue(s[|s| - 1])
  }

  /** An optional sign and at least one digit, within the 64-bit range. */
  function Atoi(s: string): Result<int> {
    var negative := |s| > 0 && s[0] == '-';
    var digits := if |s| > 0 && (s[0] == '-' || s[0] == '+') then s[1..] else s;
    if !AllDigits(digits) then Failure
    else
      var v: int := if negative then -(Value(digits) as int) else Value(digits);
      if -MAX_INT64 - 1 <= v <= MAX_INT64 then Success(v) else Failure
  }

  /** The 32-bit conversion. */
  function ToInt32(n: int): (r: int)
    ensures -MAX_INT32 - 1 <= r <= MAX_INT32
    ensures -MAX_INT32 - 1 <= n <= MAX_INT32 ==> r == n
  {
    (n + MAX_INT32 + 1) % (2 * (MAX_INT32 + 1)) - (MAX_INT32 + 1)
  }

  /** Decimal digits without a superfluous leading zero. */
  predicate Plain(s: string) {
    AllDigits(s) && (|s| > 1 ==> s[0] != '0')
  }

  lemma {:induction false} ValueDecimal(n: nat)
    ensures Value(Decimal(n)) == n
  {
    if n >= 10 {
      ValueDecimal(n / 10);
      assert Decimal(n)[..|Decimal(n)| - 1] == Decimal(n / 10);
    } else {
      assert Decimal(n)[..0] == "";
    }
  }

  lemma {:induction false} DecimalPlain(n: nat)
    ensures Plain(Decimal(n)) && (Decimal(n)[0] == '0' <==> n == 0)
  {
    if n >= 10 {
      DecimalPlain(n / 10);
      assert Decimal(n)[0] == Decimal(n / 10)[0];
    }
  }

  lemma {:induction false} DecimalValue(s: string)
    requires Plain(s)
    ensures Decimal(Value(s)) == s
    ensures s[0] != '0' ==> Value(s) > 0
  {
    var front, d := s[..|s| - 1], DigitValue(s[|s| - 1]);
    assert s == front + [Digit(d)] by { assert Digit(d) == s[|s| - 1]; }
    if front == "" {
      assert Value(front) == 0;
    } else {
      assert front[0] == s[0];
      DecimalValue(front);
      assert (Value(front) * 10 + d) / 10 == Value(front);
      assert (Value(front) * 10 + d) % 10 == d;
    }
  }

  predicate IsInt32(n: int) {
    -MAX_INT32 - 1 <= n <= MAX_INT32
  }

  lemma AtoiItoa(n: int)
    requires IsInt32(n)
    ensures Atoi(Itoa(n)) == Success(n)
    ensures '.' !in Itoa(n)
  {
    var m := if n < 0 then -n else n;
    ValueDecimal(m);
    if n < 0 {
      assert (['-'] + Decimal(m))[1..] == Decimal(m);
    }
  }

  /** The strings that printing an int32 can produce. */
  predicate CanonicalInt32(s: string) {
    if |s| > 0 && s[0] == '-' then
      Plain(s[1..]) && s[1] != '0' && Value(s[1..]) <= MAX_INT32 + 1
    else
      Plain(s) && Value(s) <= MAX_INT32
  }

  lemma ItoaCanonical(n: int)
    requires IsInt32(n)
    ensures CanonicalInt32(Itoa(n))
  {
    var m := if n < 0 then -n else n;
    DecimalPlain(m);
    ValueDecimal(m);
    if n < 0 {
      assert Itoa(n)[1..] == Decimal(m);
    } else {
      assert IsDigit(Decimal(m)[0]);
    }
  }

  lemma CanonicalItoa(s: string)
    requires CanonicalInt32(s)
    ensures Atoi(s).Success? && IsInt32(Atoi(s).value) && Itoa(Atoi(s).value) == s
  {
    if s[0] == '-' {
      DecimalValue(s[1..]);
      assert s == ['-'] + s[1..];
    } else {
      assert IsDigit(s[0]);
      DecimalValue(s);
    }
  }

  /** Parsing a number, truncating it and printing it gives the same string back
      exactly for the canonical strings. */
  lemma ItoaAtoi(s: string)
    requires Atoi(s).Success?
    ensures Itoa(ToInt32(Atoi(s).value)) == s <==> CanonicalInt32(s)
  {
    ItoaCanonical(ToInt32(Atoi(s).value));
    if CanonicalInt32(s) {
      CanonicalItoa(s);
    }
  }

  // ------------------------------------------------------------------------------ keys

  datatype NamedKey = NamedKey(prefix: string, cid: string, namespace: string, serviceName: string)

  datatype ListenerKey = ListenerKey(base: NamedKey, port: int, protocol: string)

  datatype GroupKey = GroupKey(base: NamedKey, protocol: string, groupPort: string)

  /** The service on whose behalf a run works. */
  datatype Owner = Owner(name: string, namespace: string, cluster: string)

  predicate IsManagedByService(k: NamedKey, me: Owner) {
    k.serviceName == me.name && k.namespace == me.namespace && k.cid == me.cluster
  }

  /** Printing fills an empty prefix in place. */
  function Filled(k: NamedKey): NamedKey {
    if k.prefix == "" then k.(prefix := DEFAULT_PREFIX) else k
  }

  function ListenerParts(k: ListenerKey): (parts: seq<string>)
    ensures |parts| == 6
  {
    [Filled(k.base).prefix, Itoa(k.port), k.protocol, k.base.serviceName, k.base.namespace, k.base.cid]
  }

  function ListenerName(k: ListenerKey): string {
    Join(ListenerParts(k), '.')
  }

  function LoadListenerKey(name: string): Result<ListenerKey> {
    var metas := Split(name, '.');
    if |metas| != 6 || metas[0] != DEFAULT_PREFIX then Failure
    else
      match Atoi(metas[1])
      case Failure => Failure
      case Success(port) =>
        Success(ListenerKey(NamedKey(DEFAULT_PREFIX, metas[5], metas[4], metas[3]), ToInt32(port), metas[2]))
  }

  function GroupParts(k: GroupKey): (parts: seq<string>)
    ensures |parts| == 6
  {
    [Filled(k.base).prefix, k.groupPort, k.protocol, k.base.serviceName, k.base.namespace, k.base.cid]
  }

  function GroupName(k: GroupKey): string {
    Join(GroupParts(k), '.')
  }

  function LoadGroupKey(name: string): Result<GroupKey> {
    var metas := Split(name, '.');
    if |metas| != 6 || metas[0] != DEFAULT_PREFIX then Failure
    else Success(GroupKey(NamedKey(DEFAULT_PREFIX, metas[5], metas[4], metas[3]), metas[2], metas[1]))
  }

  predicate DotFree(k: NamedKey) {
    '.' !in k.cid && '.' !in k.namespace && '.' !in k.serviceName
  }

  predicate DefaultPrefix(k: NamedKey) {
    k.prefix == "" || k.prefix == DEFAULT_PREFIX
  }

  lemma FreeGroupParts(k: GroupKey)
    ensures Free(GroupParts(k), '.') <==>
            '.' !in Filled(k.base).prefix && DotFree(k.base) && '.' !in k.protocol && '.' !in k.groupPort
  {
    var p := GroupParts(k);
    assert p[0] in p && p[1] in p && p[2] in p && p[3] in p && p[4] in p && p[5] in p;
  }

  lemma FreeListenerParts(k: ListenerKey)
    requires IsInt32(k.port)
    ensures Free(ListenerParts(k), '.') <==>
            '.' !in Filled(k.base).prefix && DotFree(k.base) && '.' !in k.protocol
  {
    AtoiItoa(k.port);
    var p := ListenerParts(k);
    assert p[0] in p && p[2] in p && p[3] in p && p[4] in p && p[5] in p;
  }

  /** A group name is read back as the key it was printed from exactly when the
      prefix is the default one and no component contains a dot; otherwise it is
      rejected. */
  lemma GroupRoundTrip(k: GroupKey)
    ensures var ok := DefaultPrefix(k.base) && DotFree(k.base) && '.' !in k.protocol && '.' !in k.groupPort;
            LoadGroupKey(GroupName(k)) == if ok then Success(k.(base := Filled(k.base))) else Failure
  {
    FreeGroupParts(k);
    SplitJoinExactly(GroupParts(k), '.');
  }

  lemma ListenerRoundTrip(k: ListenerKey)
    requires IsInt32(k.port)
    ensures var ok := DefaultPrefix(k.base) && DotFree(k.base) && '.' !in k.protocol;
            LoadListenerKey(ListenerName(k)) == if ok then Success(k.(base := Filled(k.base))) else Failure
  {
    FreeListenerParts(k);
    SplitJoinExactly(ListenerParts(k), '.');
    AtoiItoa(k.port);
  }

  /** Every accepted group name is the name of the key it parses to. */
  lemma GroupNameOfLoaded(name: string)
    requires LoadGroupKey(name).Success?
    ensures GroupName(LoadGroupKey(name).value) == name
  {
    var metas := Split(name, '.');
    JoinSplit(name, '.');
    assert GroupParts(LoadGroupKey(name).value) == metas;
  }

  /** For listener names this holds exactly when the port field is canonical: a
      sign, a leading zero or a number beyond 32 bits is accepted but lost. */
  lemma ListenerNameOfLoaded(name: string)
    requires LoadListenerKey(name).Success?
    ensures ListenerName(LoadListenerKey(name).value) == name <==> CanonicalInt32(Split(name, '.')[1])
  {
    var metas := Split(name, '.');
    var k := LoadListenerKey(name).value;
    JoinSplit(name, '.');
    ItoaAtoi(metas[1]);
    var parts := ListenerParts(k);
    assert parts == metas[1 := parts[1]];
    if ListenerName(k) == name {
      assert parts == metas by {
        AtoiItoa(k.port);
        SplitIsFree(name, '.');
        assert forall p :: p in metas ==> '.' !in p;
        FreeParts(metas, parts);
        SplitJoin(parts, '.');
      }
    }
    assert parts[1] == metas[1] ==> parts == metas;
  }

  lemma FreeParts(metas: seq<string>, parts: seq<string>)
    requires |metas| == 6 && Free(metas, '.')
    requires |parts| == 6 && '.' !in parts[1] && parts == metas[1 := parts[1]]
    ensures Free(parts, '.')
  {
    forall p | p in parts ensures '.' !in p {
      var i :| 0 <= i < 6 && parts[i] == p;
      assert i != 1 ==> p == metas[i] && metas[i] in metas;
    }
  }

  lemma {:induction false} SplitIsFree(s: string, sep: char)
    ensures Free(Split(s, sep), sep)
  {
    if s != "" {
      SplitIsFree(s[1..], sep);
      var rest := Split(s[1..], sep);
      assert rest[0] in rest;
      assert forall p :: p in rest[1..] ==> p in rest;
    }
  }

  /** Names of different keys are different, so a name has one owner. */
  lemma GroupNameInjective(a: GroupKey, b: GroupKey)
    requires DefaultPrefix(a.base) && DotFree(a.base) && '.' !in a.protocol && '.' !in a.groupPort
    requires DefaultPrefix(b.base) && DotFree(b.base) && '.' !in b.protocol && '.' !in b.groupPort
    requires GroupName(a) == GroupName(b)
    ensures a.protocol == b.protocol && a.groupPort == b.groupPort && Filled(a.base) == Filled(b.base)
  {
    GroupRoundTrip(a);
    GroupRoundTrip(b);
  }

  lemma ListenerNameInjective(a: ListenerKey, b: ListenerKey)
    requires DefaultPrefix(a.base) && DotFree(a.base) && '.' !in a.protocol && IsInt32(a.port)
    requires DefaultPrefix(b.base) && DotFree(b.base) && '.' !in b.protocol && IsInt32(b.port)
    requires ListenerName(a) == ListenerName(b)
    ensures a.protocol == b.protocol && a.port == b.port && Filled(a.base) == Filled(b.base)
  {
    ListenerRoundTrip(a);
    ListenerRoundTrip(b);
  }

  /** Does the group name belong to this service? */
  predicate ManagedGroup(me: Owner, name: string) {
    LoadGroupKey(name).Success? && IsManagedByService(LoadGroupKey(name).value.base, me)
  }

  /** Does the listener description belong to this service? */
  predicate ManagedListener(me: Owner, desc: string) {
    LoadListenerKey(desc).Success? && IsManagedByService(LoadListenerKey(desc).value.base, me)
  }

  /** A printed name is managed by the service in its key and by no other; one that
      cannot be read back is managed by nobody. */
  lemma GroupOwnedExactly(k: GroupKey, me: Owner)
    ensures ManagedGroup(me, GroupName(k)) <==>
            && DefaultPrefix(k.base) && DotFree(k.base) && '.' !in k.protocol && '.' !in k.groupPort
            && IsManagedByService(k.base, me)
  {
    GroupRoundTrip(k);
  }

  lemma ListenerOwnedExactly(k: ListenerKey, me: Owner)
    requires IsInt32(k.port)
    ensures ManagedListener(me, ListenerName(k)) <==>
            DefaultPrefix(k.base) && DotFree(k.base) && '.' !in k.protocol && IsManagedByService(k.base, me)
  {
    ListenerRoundTrip(k);
  }

  /** A name printed for one service is never taken for another's, whatever characters
      its parts contain. */
  lemma NeverAnothers(k: GroupKey, l: ListenerKey, a: Owner, b: Owner)
    requires IsManagedByService(k.base, a) && IsManagedByService(l.base, a) && IsInt32(l.port) && a != b
    ensures !ManagedGroup(b, GroupName(k)) && !ManagedListener(b, ListenerName(l))
  {
    GroupOwnedExactly(k, b);
    ListenerOwnedExactly(l, b);
  }
}
