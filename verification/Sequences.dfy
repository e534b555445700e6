/** Sequence vocabulary shared by the other modules.  The recursive functions peel off the last
    element, because the loops that they specify append at the end. */
module Sequences {

  datatype Option<+T> = None | Some(value: T)

  predicate Distinct<T(==)>(s: seq<T>) {
    forall i, j :: 0 <= i < j < |s| ==> s[i] != s[j]
  }

  function Elements<T>(s: seq<T>): set<T> {
    set x | x in s
  }

  /** s lists the set, each member once, in some order. */
  predicate Lists<T(==)>(s: seq<T>, members: set<T>) {
    Distinct(s) && Elements(s) == members
  }

  predicate Ascending(s: seq<int>) {
    forall i, j :: 0 <= i < j < |s| ==> s[i] <= s[j]
  }

  /** Keeps the first occurrence of every element. */
  function Dedup<T(==)>(s: seq<T>): seq<T> {
    if s == [] then []
    else
      var d := Dedup(s[..|s| - 1]);
      var x := s[|s| - 1];
      if x in d then d else d + [x]
  }

  /** Drops every occurrence of x. */
  function Without<T(==)>(s: seq<T>, x: T): seq<T> {
    if s == [] then []
    else
      var w := Without(s[..|s| - 1], x);
      if s[|s| - 1] == x then w else w + [s[|s| - 1]]
  }

  function Flatten<T>(s: seq<seq<T>>): seq<T> {
    if s == [] then [] else Flatten(s[..|s| - 1]) + s[|s| - 1]
  }

  /** The first `count` elements; a count of zero or less means all of them. */
  function TakeCount<T>(s: seq<T>, count: int): seq<T> {
    if 0 < count < |s| then s[..count] else s
  }

  lemma {:induction false} DedupFacts<T>(s: seq<T>)
    ensures Distinct(Dedup(s))
    ensures Elements(Dedup(s)) == Elements(s)
  {
    if s != [] {
      var init, x := s[..|s| - 1], s[|s| - 1];
      DedupFacts(init);
      assert s == init + [x];
      assert Elements(s) == Elements(init) + {x};
      if x !in Dedup(init) {
        assert Elements(Dedup(init) + [x]) == Elements(Dedup(init)) + {x};
      } else {
        assert x in Elements(Dedup(init));
      }
    }
  }

  lemma {:induction false} WithoutMembership<T>(s: seq<T>, x: T)
    ensures forall y :: y in Without(s, x) <==> y in s && y != x
  {
    if s != [] {
      WithoutMembership(s[..|s| - 1], x);
      assert s == s[..|s| - 1] + [s[|s| - 1]];
    }
  }

  lemma {:induction false} DedupWithout<T>(s: seq<T>, x: T)
    ensures Dedup(Without(s, x)) == Without(Dedup(s), x)
  {
    if s != [] {
      var init, y := s[..|s| - 1], s[|s| - 1];
      DedupWithout(init, x);
      WithoutMembership(Dedup(init), x);
      if y != x {
        assert (Without(init, x) + [y])[..|Without(init, x)|] == Without(init, x);
      }
      if y !in Dedup(init) {
        assert (Dedup(init) + [y])[..|Dedup(init)|] == Dedup(init);
      }
    }
  }

  lemma {:induction false} WithoutAbsent<T>(s: seq<T>, x: T)
    requires x !in s
    ensures Without(s, x) == s
  {
    if s != [] {
      WithoutAbsent(s[..|s| - 1], x);
      assert s == s[..|s| - 1] + [s[|s| - 1]];
    }
  }

  /** In a list without repeats, taking x out leaves what stands before it and what stands after it. */
  lemma {:induction false} WithoutOnce<T>(s: seq<T>, k: nat)
    requires Distinct(s) && k < |s|
    ensures Without(s, s[k]) == s[..k] + s[k + 1..]
  {
    var init, x := s[..|s| - 1], s[|s| - 1];
    if k == |s| - 1 {
      WithoutAbsent(init, x);
    } else {
      WithoutOnce(init, k);
      assert init[..k] == s[..k];
      assert init[k + 1..] + [x] == s[k + 1..];
    }
  }

  lemma LastIsGreatest(s: seq<int>, x: int)
    requires Ascending(s) && x in multiset(s)
    ensures s != [] && x <= s[|s| - 1]
  {
  }

  lemma NoElements<T>(s: seq<T>)
    ensures Elements(s) == {} <==> s == []
  {
    if s != [] {
      assert s[0] in Elements(s);
    }
  }

  lemma ElementsAppend<T>(s: seq<T>, x: T)
    ensures Elements(s + [x]) == Elements(s) + {x}
  {
  }

  lemma AscendingAppend(s: seq<int>, x: int)
    requires Ascending(s) && forall y :: y in s ==> y <= x
    ensures Ascending(s + [x])
  {
    forall i | 0 <= i < |s| ensures s[i] <= x {
      assert s[i] in s;
    }
  }

  /** How often x occurs once y has been appended. */
  lemma CountAppend<T>(s: seq<T>, y: T, x: T)
    ensures multiset(s + [y])[x] == multiset(s)[x] + if x == y then 1 else 0
  {
  }

  lemma CountLast<T>(s: seq<T>, x: T)
    requires s != []
    ensures multiset(s)[x] == multiset(s[..|s| - 1])[x] + if x == s[|s| - 1] then 1 else 0
  {
    assert s == s[..|s| - 1] + [s[|s| - 1]];
  }

  ghost function Indices<T>(s: seq<T>, x: T): set<nat> {
    set i: nat | i < |s| && s[i] == x
  }

  lemma {:induction false} CountIndices<T>(s: seq<T>, x: T)
    ensures multiset(s)[x] == |Indices(s, x)|
  {
    if s == [] {
      assert Indices(s, x) == {};
    } else {
      var n := |s| - 1;
      CountIndices(s[..n], x);
      CountLast(s, x);
      var before := Indices(s[..n], x);
      assert Indices(s, x) == if s[n] == x then before + {n} else before;
    }
  }

  lemma BagOfInit<T>(s: seq<T>)
    requires s != []
    ensures multiset(s) == multiset(s[..|s| - 1]) + multiset{s[|s| - 1]}
  {
    assert s == s[..|s| - 1] + [s[|s| - 1]];
  }

  lemma SameInitBag<T>(a: seq<T>, b: seq<T>)
    requires a != [] && b != [] && multiset(a) == multiset(b) && a[|a| - 1] == b[|b| - 1]
    ensures multiset(a[..|a| - 1]) == multiset(b[..|b| - 1])
  {
    var a', b' := a[..|a| - 1], b[..|b| - 1];
    forall x ensures multiset(a')[x] == multiset(b')[x] {
      CountLast(a, x);
      CountLast(b, x);
    }
  }

  lemma {:induction false} AscendingUnique(a: seq<int>, b: seq<int>)
    requires Ascending(a) && Ascending(b) && multiset(a) == multiset(b)
    ensures a == b
    decreases |a|
  {
    if a == [] {
      assert |multiset(b)| == 0;
    } else {
      LastIsGreatest(b, a[|a| - 1]);
      LastIsGreatest(a, b[|b| - 1]);
      SameInitBag(a, b);
      AscendingUnique(a[..|a| - 1], b[..|b| - 1]);
      assert a == a[..|a| - 1] + [a[|a| - 1]] && b == b[..|b| - 1] + [b[|b| - 1]];
    }
  }

  lemma {:induction false} DistinctSize<T>(s: seq<T>)
    requires Distinct(s)
    ensures |Elements(s)| == |s|
  {
    if s != [] {
      var init, x := s[..|s| - 1], s[|s| - 1];
      assert s == init + [x];
      DistinctSize(init);
      assert Elements(s) == Elements(init) + {x};
    }
  }

  lemma {:induction false} DistinctBag<T>(s: seq<T>)
    requires Distinct(s)
    ensures multiset(s) == multiset(Elements(s))
  {
    if s != [] {
      var init, x := s[..|s| - 1], s[|s| - 1];
      assert s == init + [x];
      DistinctBag(init);
      assert Elements(s) == Elements(init) + {x};
    }
  }

  /** A set in some order. */
  ghost function SomeListing<T>(members: set<T>): (s: seq<T>)
    ensures Lists(s, members)
  {
    if members == {} then []
    else
      var x :| x in members;
      var rest := SomeListing(members - {x});
      assert x !in Elements(rest);
      ElementsAppend(rest, x);
      rest + [x]
  }

  /** An ascending listing of a set of integers is the only one. */
  lemma AscendingListingUnique(a: seq<int>, b: seq<int>)
    requires Ascending(a) && Ascending(b) && Distinct(a) && Distinct(b)
    requires Elements(a) == Elements(b)
    ensures a == b
  {
    DistinctBag(a);
    DistinctBag(b);
    AscendingUnique(a, b);
  }

  lemma {:induction false} Greatest(s: set<int>) returns (m: int)
    requires s != {}
    ensures m in s && forall x :: x in s ==> x <= m
  {
    var listed: seq<int> := SomeListing(s);
    assert listed != [] by {
      assert Elements(listed) == s;
    }
    m := listed[0];
    for k := 1 to |listed|
      invariant m in listed && forall j :: 0 <= j < k ==> listed[j] <= m
    {
      m := if m < listed[k] then listed[k] else m;
    }
    assert forall x :: x in s ==> x in Elements(listed);
    assert m in Elements(listed);
  }

  /** A set of integers in ascending order. */
  lemma {:induction false} AscendingListing(s: set<int>) returns (order: seq<int>)
    ensures Ascending(order) && Lists(order, s)
  {
    order := [];
    if s != {} {
      var m := Greatest(s);
      var init := AscendingListing(s - {m});
      assert forall x :: x in init <==> x in Elements(init);
      AscendingAppend(init, m);
      ElementsAppend(init, m);
      order := init + [m];
    }
  }

  lemma {:induction false} FlattenAppend<T>(a: seq<seq<T>>, b: seq<seq<T>>)
    ensures Flatten(a + b) == Flatten(a) + Flatten(b)
  {
    if b == [] {
      assert a + b == a;
    } else {
      var init, last := b[..|b| - 1], b[|b| - 1];
      assert (a + b)[..|a + b| - 1] == a + init;
      FlattenAppend(a, init);
      assert Flatten(a) + Flatten(init) + last == Flatten(a) + (Flatten(init) + last);
    }
  }

  lemma SnocInit<T>(s: seq<T>, x: T)
    ensures (s + [x])[..|s + [x]| - 1] == s
  {
  }

  lemma SubsetSize<T>(a: set<T>, b: set<T>)
    requires a <= b
    ensures |a| <= |b|
  {
    assert b == a + (b - a);
  }
}
