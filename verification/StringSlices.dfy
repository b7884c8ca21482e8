/** Comparing two lists of strings without regard to order and letter case. */
module StringSlices {
  import opened LetterCase

  predicate Found(x: string, s: seq<string>) {
    exists j :: 0 <= j < |s| && EqualFold(x, s[j])
  }

  predicate AllFound(s1: seq<string>, s2: seq<string>) {
    |s1| == |s2| && forall i :: 0 <= i < |s1| ==> Found(s1[i], s2)
  }

  /** `IsStringSliceEqual`. */
  method IsStringSliceEqual(s1: seq<string>, s2: seq<string>) returns (r: bool)
    ensures r == AllFound(s1, s2)
    ensures NoDuplicates(s1) ==> (r <==> SamePermutation(s1, s2))
  {
    if NoDuplicates(s1) { FoundExactly(s1, s2); }
    if |s1| != |s2| { return false; }
    for i := 0 to |s1|
      invariant forall k :: 0 <= k < i ==> Found(s1[k], s2)
    {
      var found := false;
      for j := 0 to |s2|
        invariant !found && forall k :: 0 <= k < j ==> !EqualFold(s1[i], s2[k])
      {
        if EqualFold(s1[i], s2[j]) {
          found := true;
          break;
        }
      }
      if !found { return false; }
    }
    return true;
  }

  /** The list with its letter case removed. */
  function Folded(s: seq<string>): (r: seq<string>)
    ensures |r| == |s| && forall i :: 0 <= i < |s| ==> r[i] == Upper(s[i])
  {
    seq(|s|, i requires 0 <= i < |s| => Upper(s[i]))
  }

  predicate SamePermutation(s1: seq<string>, s2: seq<string>) {
    multiset(Folded(s1)) == multiset(Folded(s2))
  }

  predicate NoDuplicates(s: seq<string>) {
    forall i, j :: 0 <= i < j < |s| ==> !EqualFold(s[i], s[j])
  }

  // ------------------------------------------------------------------------ pigeonhole

  predicate Distinct(s: seq<string>) {
    forall i, j :: 0 <= i < j < |s| ==> s[i] != s[j]
  }

  /** As many distinct strings as there are places use every place once. */
  lemma {:induction false} Pigeonhole(a: seq<string>, b: seq<string>)
    requires |a| == |b| && Distinct(a) && forall x :: x in a ==> x in b
    ensures multiset(a) == multiset(b)
  {
    if a != [] {
      var x, rest := a[0], a[1..];
      assert x in a;
      var j :| 0 <= j < |b| && b[j] == x;
      var b' := b[..j] + b[j + 1..];
      assert b == b[..j] + [x] + b[j + 1..];
      forall y | y in rest ensures y in b' {
        assert y in a && y in b;
        var i :| 0 <= i < |rest| && rest[i] == y;
        assert a[0] != a[i + 1];
      }
      Pigeonhole(rest, b');
      assert a == [x] + rest;
    }
  }

  lemma FoundExactly(s1: seq<string>, s2: seq<string>)
    requires NoDuplicates(s1)
    ensures AllFound(s1, s2) <==> SamePermutation(s1, s2)
  {
    var a, b := Folded(s1), Folded(s2);
    if AllFound(s1, s2) {
      forall x | x in a ensures x in b {
        var i :| 0 <= i < |a| && a[i] == x;
        var j :| 0 <= j < |s2| && EqualFold(s1[i], s2[j]);
        assert b[j] == x;
      }
      Pigeonhole(a, b);
    }
    if SamePermutation(s1, s2) { PermutationFound(s1, s2); }
  }

  lemma PermutationFound(s1: seq<string>, s2: seq<string>)
    requires SamePermutation(s1, s2)
    ensures AllFound(s1, s2)
  {
    var a, b := Folded(s1), Folded(s2);
    assert |multiset(a)| == |multiset(b)|;
    forall i | 0 <= i < |s1| ensures Found(s1[i], s2) {
      assert a[i] in multiset(a);
      assert a[i] in b;
      var j :| 0 <= j < |b| && b[j] == a[i];
      assert EqualFold(s1[i], s2[j]);
    }
  }

  // -------------------------------------------------------------------- exact condition

  function Longest(s: seq<string>): (n: nat)
    ensures forall x :: x in s ==> |x| <= n
  {
    if s == [] then 0
    else
      var n := Longest(s[1..]);
      assert forall x :: x in s ==> x == s[0] || x in s[1..];
      if |s[0]| > n then |s[0]| else n
  }

  lemma TooLong(s: seq<string>, x: string)
    requires |x| > Longest(s)
    ensures x !in Folded(s)
  {
    forall i | 0 <= i < |s| ensures Folded(s)[i] != x {
      assert s[i] in s;
      assert |Folded(s)[i]| == |s[i]|;
    }
  }

  lemma Replaced(s1: seq<string>, i: nat, j: nat, other: string)
    requires i < j < |s1| && EqualFold(s1[i], s1[j])
    ensures AllFound(s1, s1[j := other])
    ensures Upper(other) in Folded(s1[j := other])
  {
    var s2 := s1[j := other];
    forall k | 0 <= k < |s1| ensures Found(s1[k], s2) {
      if k == j { assert EqualFold(s1[k], s2[i]); } else { assert EqualFold(s1[k], s2[k]); }
    }
    assert Folded(s2)[j] == Upper(other);
  }

  /** With a duplicate in the first list, replacing it in the second goes unnoticed. */
  lemma DuplicateHides(s1: seq<string>, i: nat, j: nat)
    requires i < j < |s1| && EqualFold(s1[i], s1[j])
    ensures exists s2 :: AllFound(s1, s2) && !SamePermutation(s1, s2)
  {
    var other := seq(Longest(s1) + 1, _ => 'x');
    Replaced(s1, i, j, other);
    TooLong(s1, Upper(other));
    var s2 := s1[j := other];
    assert Upper(other) in multiset(Folded(s2)) && Upper(other) !in multiset(Folded(s1));
    assert AllFound(s1, s2) && !SamePermutation(s1, s2);
  }

  /** The comparison with a given first list means equality up to order and case, for
      every second list, if and only if the first list has no duplicates. */
  lemma ExactlyWithoutDuplicates(s1: seq<string>)
    ensures NoDuplicates(s1) <==> forall s2 :: AllFound(s1, s2) <==> SamePermutation(s1, s2)
  {
    if NoDuplicates(s1) {
      forall s2 ensures AllFound(s1, s2) <==> SamePermutation(s1, s2) {
        FoundExactly(s1, s2);
      }
    } else {
      var i, j :| 0 <= i < j < |s1| && EqualFold(s1[i], s1[j]);
      DuplicateHides(s1, i, j);
    }
  }
}
