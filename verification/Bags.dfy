/** Order-free views of sequences: collecting contributions into a multiset, and swap-removal. */
module Bags {

  /** The multiset of everything that `f` contributes for the elements of `s`. */
  ghost function Collect<T, U>(f: T -> multiset<U>, s: seq<T>): multiset<U> {
    if s == [] then multiset{} else f(s[0]) + Collect(f, s[1..])
  }

  lemma {:induction false} CollectConcat<T, U>(f: T -> multiset<U>, a: seq<T>, b: seq<T>)
    ensures Collect(f, a + b) == Collect(f, a) + Collect(f, b)
  {
    if a == [] {
      assert a + b == b;
    } else {
      CollectConcat(f, a[1..], b);
      assert (a + b)[1..] == a[1..] + b;
    }
  }

  lemma CollectNothing<T, U>(f: T -> multiset<U>)
    ensures Collect(f, []) == multiset{}
  {
  }

  lemma CollectOne<T, U>(f: T -> multiset<U>, t: T)
    ensures Collect(f, [t]) == f(t)
  {
    assert [t][1..] == [];
  }

  /** Collecting does not depend on the order of the sequence. */
  lemma {:induction false} CollectPermutation<T, U>(f: T -> multiset<U>, a: seq<T>, b: seq<T>)
    requires multiset(a) == multiset(b)
    ensures Collect(f, a) == Collect(f, b)
  {
    if a == [] {
      assert |b| == |multiset(b)| == 0;
    } else {
      assert a[0] in multiset(b);
      var j :| 0 <= j < |b| && b[j] == a[0];
      SameRest(a, b, j);
      CollectPermutation(f, a[1..], b[..j] + b[j + 1..]);
      CollectAround(f, b, j);
    }
  }

  lemma SameRest<T>(a: seq<T>, b: seq<T>, j: nat)
    requires multiset(a) == multiset(b) && a != [] && j < |b| && b[j] == a[0]
    ensures multiset(a[1..]) == multiset(b[..j] + b[j + 1..])
  {
    SplitAt(b, j);
    assert a == [a[0]] + a[1..];
    assert multiset(a[1..]) == multiset(a) - multiset{a[0]};
  }

  lemma CollectAround<T, U>(f: T -> multiset<U>, s: seq<T>, j: nat)
    requires j < |s|
    ensures Collect(f, s) == f(s[j]) + Collect(f, s[..j] + s[j + 1..])
  {
    var before, after := s[..j], s[j + 1..];
    SplitAt(s, j);
    CollectConcat(f, before, after);
    CollectConcat(f, before, [s[j]] + after);
    CollectConcat(f, [s[j]], after);
    CollectOne(f, s[j]);
  }

  lemma SplitAt<T>(s: seq<T>, j: nat)
    requires j < |s|
    ensures s == s[..j] + ([s[j]] + s[j + 1..])
    ensures multiset(s) == multiset{s[j]} + multiset(s[..j] + s[j + 1..])
  {
    assert s == s[..j] + ([s[j]] + s[j + 1..]);
  }

  /** Contributions that agree on the elements of the sequence collect to the same multiset. */
  lemma {:induction false} CollectCongruence<T, U>(f: T -> multiset<U>, g: T -> multiset<U>, s: seq<T>)
    requires forall i :: 0 <= i < |s| ==> f(s[i]) == g(s[i])
    ensures Collect(f, s) == Collect(g, s)
  {
    if s != [] {
      assert forall i :: 0 <= i < |s[1..]| ==> s[1..][i] == s[i + 1];
      CollectCongruence(f, g, s[1..]);
    }
  }

  lemma {:induction false} SubsetSize<T>(a: set<T>, b: set<T>)
    requires a <= b
    ensures |a| <= |b|
  {
    if a != {} {
      var x :| x in a;
      SubsetSize(a - {x}, b - {x});
    }
  }

  /** `Vec::swap_remove`: the last element takes the place of the removed one. */
  function SwapRemove<T>(s: seq<T>, i: nat): (r: seq<T>)
    requires i < |s|
    ensures |r| == |s| - 1
    ensures r[..i] == s[..i]
    ensures forall j :: 0 <= j < |r| ==> r[j] == if j == i then s[|s| - 1] else s[j]
  {
    s[i := s[|s| - 1]][..|s| - 1]
  }

  lemma SwapRemoveTail<T>(s: seq<T>, i: nat)
    requires i < |s|
    ensures multiset(SwapRemove(s, i)[i..]) == multiset(s[i + 1..])
    ensures multiset(s[i..]) == multiset{s[i]} + multiset(s[i + 1..])
  {
    var n := |s| - 1;
    assert s[i..] == [s[i]] + s[i + 1..];
    if i < n {
      assert SwapRemove(s, i)[i..] == [s[n]] + s[i + 1..n];
      assert s[i + 1..] == s[i + 1..n] + [s[n]];
    }
  }
}
