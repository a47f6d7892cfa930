/** Sequences as the sets of their elements. */
module Sequences {
  ghost function Elements<T>(s: seq<T>): set<T> {
    set x | x in s
  }

  predicate AllDistinct<T(==)>(s: seq<T>) {
    forall i, j :: 0 <= i < j < |s| ==> s[i] != s[j]
  }

  lemma ElementsAppend<T>(s: seq<T>, x: T)
    ensures Elements(s + [x]) == Elements(s) + {x}
    ensures AllDistinct(s) && x !in Elements(s) ==> AllDistinct(s + [x])
  {
    assert (s + [x])[|s|] == x;
    forall y | y in s
      ensures y in s + [x]
    {
      var i :| 0 <= i < |s| && s[i] == y;
      assert (s + [x])[i] == y;
    }
  }

  /** Without repeats there are as many elements as positions. */
  lemma {:induction false} DistinctSize<T>(s: seq<T>)
    requires AllDistinct(s)
    ensures |Elements(s)| == |s|
  {
    if s == [] {
      assert Elements(s) == {};
    } else {
      var n := |s| - 1;
      assert s == s[..n] + [s[n]];
      DistinctSize(s[..n]);
      ElementsAppend(s[..n], s[n]);
      assert s[n] !in s[..n];
    }
  }

  /** Sequences without repeats have the same elements exactly when they are permutations. */
  lemma {:induction false} SameElements<T>(s: seq<T>, t: seq<T>)
    requires AllDistinct(s) && AllDistinct(t)
    ensures Elements(s) == Elements(t) <==> multiset(s) == multiset(t)
    ensures Elements(s) == Elements(t) ==> |s| == |t|
  {
    DistinctCounts(s);
    DistinctCounts(t);
    forall x
      ensures x in multiset(s) <==> x in Elements(s)
      ensures x in multiset(t) <==> x in Elements(t)
    {
    }
    if Elements(s) == Elements(t) {
      forall x
        ensures multiset(s)[x] == multiset(t)[x]
      {
      }
      assert multiset(s) == multiset(t);
      assert |multiset(s)| == |multiset(t)|;
    }
  }

  lemma {:induction false} DistinctCounts<T>(s: seq<T>)
    requires AllDistinct(s)
    ensures forall x :: multiset(s)[x] == if x in Elements(s) then 1 else 0
  {
    if s != [] {
      var k := |s| - 1;
      assert s == s[..k] + [s[k]];
      DistinctCounts(s[..k]);
      ElementsAppend(s[..k], s[k]);
      assert s[k] !in s[..k];
    }
  }
}
