/** The quorum arithmetic of the commit rule: the element at position n/2 of a descending list is the
    largest value that more than half of the list reaches. */
module MajorityIndex {

  function CountGE(s: seq<nat>, x: nat): (c: nat)
    ensures c <= |s|
  {
    if s == [] then 0 else CountGE(s[..|s| - 1], x) + if s[|s| - 1] >= x then 1 else 0
  }

  predicate Descending(s: seq<nat>) {
    forall i, j :: 0 <= i < j < |s| ==> s[i] >= s[j]
  }

  lemma {:induction false} CountConcat(a: seq<nat>, b: seq<nat>, x: nat)
    ensures CountGE(a + b, x) == CountGE(a, x) + CountGE(b, x)
  {
    if b == [] {
      assert a + b == a;
    } else {
      assert (a + b)[..|a + b| - 1] == a + b[..|b| - 1];
      CountConcat(a, b[..|b| - 1], x);
    }
  }

  /** In a descending list the values that reach x are exactly the first CountGE ones. */
  lemma {:induction false} CountIsPrefix(s: seq<nat>, x: nat, i: nat)
    requires Descending(s) && i < |s|
    ensures s[i] >= x <==> i < CountGE(s, x)
  {
    var t := s[..|s| - 1];
    if s[|s| - 1] >= x {
      CountAll(s, x);
    } else if i < |t| {
      CountIsPrefix(t, x, i);
    }
  }

  lemma {:induction false} CountAll(s: seq<nat>, x: nat)
    requires forall i :: 0 <= i < |s| ==> s[i] >= x
    ensures CountGE(s, x) == |s|
  {
    if s != [] {
      CountAll(s[..|s| - 1], x);
    }
  }

  /** For every list length, 1 included: position n/2 holds the largest value with n/2 + 1 holders. */
  lemma MajorityPosition(s: seq<nat>, x: nat)
    requires Descending(s) && s != []
    ensures CountGE(s, x) >= |s| / 2 + 1 <==> x <= s[|s| / 2]
  {
    CountIsPrefix(s, x, |s| / 2);
  }

  lemma InsertOrdered(a: seq<nat>, v: nat, b: seq<nat>)
    requires Descending(a) && Descending(b)
    requires forall i :: 0 <= i < |a| ==> a[i] >= v
    requires forall i :: 0 <= i < |b| ==> b[i] <= v
    ensures Descending(a + [v] + b)
  {
    var r := a + [v] + b;
    forall i, j | 0 <= i < j < |r| ensures r[i] >= r[j] {
      assert i < |a| ==> r[i] == a[i] && a[i] >= v;
      assert j > |a| ==> r[j] == b[j - |a| - 1] && b[j - |a| - 1] <= v;
    }
  }

  lemma InsertContents(a: seq<nat>, v: nat, b: seq<nat>)
    ensures multiset(a + [v] + b) == multiset(a + b) + multiset{v}
  {
  }

  /** Inserts below everything that is at least as large. */
  method InsertDescending(s: seq<nat>, v: nat) returns (r: seq<nat>)
    requires Descending(s)
    ensures Descending(r) && multiset(r) == multiset(s) + multiset{v}
  {
    var i := |s|;
    while i > 0 && s[i - 1] < v
      invariant 0 <= i <= |s|
      invariant forall j :: i <= j < |s| ==> s[j] < v
    {
      i := i - 1;
    }
    r := s[..i] + [v] + s[i..];
    InsertOrdered(s[..i], v, s[i..]);
    InsertContents(s[..i], v, s[i..]);
    assert s == s[..i] + s[i..];
  }

  method SortDescending(s: seq<nat>) returns (r: seq<nat>)
    ensures Descending(r) && multiset(r) == multiset(s)
  {
    r := [];
    var i := 0;
    while i < |s|
      invariant 0 <= i <= |s|
      invariant Descending(r) && multiset(r) == multiset(s[..i])
    {
      r := InsertDescending(r, s[i]);
      assert s[..i + 1] == s[..i] + [s[i]];
      i := i + 1;
    }
    assert s[..i] == s;
  }

  lemma CountInsert(a: seq<nat>, v: nat, b: seq<nat>, x: nat)
    ensures CountGE(a + [v] + b, x) == CountGE(a + b, x) + if v >= x then 1 else 0
  {
    CountConcat(a + [v], b, x);
    CountConcat(a, [v], x);
    CountConcat(a, b, x);
  }

  lemma Cancel(a: multiset<nat>, b: multiset<nat>, v: nat)
    requires a + multiset{v} == b + multiset{v}
    ensures a == b
  {
    assert a == (a + multiset{v}) - multiset{v} && b == (b + multiset{v}) - multiset{v};
  }

  /** Counting does not depend on the order. */
  lemma {:induction false} SameCount(a: seq<nat>, b: seq<nat>, x: nat)
    requires multiset(a) == multiset(b)
    ensures CountGE(a, x) == CountGE(b, x) && |a| == |b|
    decreases |a|
  {
    assert |multiset(a)| == |a| && |multiset(b)| == |b|;
    if a != [] {
      var v := a[|a| - 1];
      assert v in multiset(b);
      var k :| 0 <= k < |b| && b[k] == v;
      var a', b' := a[..|a| - 1], b[..k] + b[k + 1..];
      assert a == a' + [v] + [] && b == b[..k] + [v] + b[k + 1..];
      InsertContents(a', v, []);
      InsertContents(b[..k], v, b[k + 1..]);
      assert a' + [] == a';
      Cancel(multiset(a'), multiset(b'), v);
      SameCount(a', b', x);
      CountInsert(b[..k], v, b[k + 1..], x);
    }
  }
}
