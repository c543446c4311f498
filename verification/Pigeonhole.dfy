/** Counting arguments over sequences. */
module Pigeonhole {

  ghost predicate Injective<T>(s: seq<T>) {
    forall i, j :: 0 <= i < j < |s| ==> s[i] != s[j]
  }

  function Range(n: nat): (r: set<nat>)
    ensures |r| == n && forall k: nat :: k in r <==> k < n
  {
    if n == 0 then {} else Range(n - 1) + {n - 1}
  }

  function Elements<T(==, !new)>(s: seq<T>): (r: set<T>)
    ensures forall x :: x in r <==> x in s
  {
    if s == [] then {} else Elements(s[..|s| - 1]) + {s[|s| - 1]}
  }

  lemma {:induction false} ElementCount<T(!new)>(s: seq<T>)
    requires Injective(s)
    ensures |Elements(s)| == |s|
  {
    if s != [] {
      ElementCount(s[..|s| - 1]);
      assert s[|s| - 1] !in s[..|s| - 1];
    }
  }

  lemma SubsetFills<T>(a: set<T>, b: set<T>)
    requires a <= b && |a| == |b|
    ensures a == b
  {
    assert |b - a| == 0;
  }

  /** n distinct values below n leave none out. */
  lemma InjectiveIsOnto(s: seq<nat>, k: nat)
    requires Injective(s) && k < |s| && forall i :: 0 <= i < |s| ==> s[i] < |s|
    ensures k in s
  {
    ElementCount(s);
    SubsetFills(Elements(s), Range(|s|));
  }

  lemma {:induction false} InjectiveCount<T>(s: seq<T>, i: nat)
    requires Injective(s) && i < |s|
    ensures multiset(s)[s[i]] == 1
  {
    var front := s[..|s| - 1];
    assert s == front + [s[|s| - 1]];
    if i == |s| - 1 {
      assert s[i] !in front;
    } else {
      InjectiveCount(front, i);
    }
  }

  /** As many values as a list of distinct ones, holding each of them once, is a
      permutation of it, and conversely. */
  lemma PermutationByCount<T>(s: seq<T>, t: seq<T>)
    requires Injective(t) && |s| == |t|
    ensures multiset(s) == multiset(t) <==> forall i :: 0 <= i < |t| ==> multiset(s)[t[i]] == 1
  {
    forall i | 0 <= i < |t| ensures multiset(t)[t[i]] == 1 {
      InjectiveCount(t, i);
    }
    if forall i :: 0 <= i < |t| ==> multiset(s)[t[i]] == 1 {
      assert forall x :: x in t ==> multiset(t)[x] <= multiset(s)[x];
      assert multiset(t) <= multiset(s);
      assert |multiset(s) - multiset(t)| == 0;
      assert multiset(s) == multiset(t) + (multiset(s) - multiset(t));
    }
  }
}
