/**
  The stable sort by a comparison, as the array and table reads of the program
  rely on it: a sorted permutation, and the only one when no two elements tie.
 */
module Sorting {

  ghost predicate TotalOrder<T(!new)>(leq: (T, T) -> bool) {
    && (forall a, b :: leq(a, b) || leq(b, a))
    && (forall a, b, c :: leq(a, b) && leq(b, c) ==> leq(a, c))
  }

  ghost predicate Sorted<T>(leq: (T, T) -> bool, xs: seq<T>) {
    forall i, j | 0 <= i < j < |xs| :: leq(xs[i], xs[j])
  }

  function Insert<T>(leq: (T, T) -> bool, xs: seq<T>, x: T): seq<T> {
    if xs == [] then [x]
    else if leq(xs[|xs| - 1], x) then xs + [x]
    else Insert(leq, xs[..|xs| - 1], x) + [xs[|xs| - 1]]
  }

  /** Insertion from the left keeps equal elements in their original order. */
  function Sort<T>(leq: (T, T) -> bool, xs: seq<T>): seq<T> {
    if xs == [] then [] else Insert(leq, Sort(leq, xs[..|xs| - 1]), xs[|xs| - 1])
  }

  lemma {:induction false} InsertKeepsElements<T(!new)>(leq: (T, T) -> bool, xs: seq<T>, x: T)
    ensures multiset(Insert(leq, xs, x)) == multiset(xs) + multiset{x}
  {
    if xs != [] && !leq(xs[|xs| - 1], x) {
      InsertKeepsElements(leq, xs[..|xs| - 1], x);
      assert xs == xs[..|xs| - 1] + [xs[|xs| - 1]];
    }
  }

  lemma {:induction false} InsertSorts<T(!new)>(leq: (T, T) -> bool, xs: seq<T>, x: T)
    requires TotalOrder(leq) && Sorted(leq, xs)
    ensures Sorted(leq, Insert(leq, xs, x))
  {
    if xs != [] && !leq(xs[|xs| - 1], x) {
      var init, last := xs[..|xs| - 1], xs[|xs| - 1];
      assert xs == init + [last];
      InsertSorts(leq, init, x);
      InsertKeepsElements(leq, init, x);
      var inserted := Insert(leq, init, x);
      forall i | 0 <= i < |inserted|
        ensures leq(inserted[i], last)
      {
        assert inserted[i] in multiset(inserted);
      }
    } else if xs != [] {
      forall i | 0 <= i < |xs|
        ensures leq(xs[i], x)
      {
        assert leq(xs[i], xs[|xs| - 1]) || i == |xs| - 1;
      }
    }
  }

  lemma {:induction false} SortSorts<T(!new)>(leq: (T, T) -> bool, xs: seq<T>)
    requires TotalOrder(leq)
    ensures Sorted(leq, Sort(leq, xs)) && multiset(Sort(leq, xs)) == multiset(xs)
  {
    if xs != [] {
      SortSorts(leq, xs[..|xs| - 1]);
      assert xs == xs[..|xs| - 1] + [xs[|xs| - 1]];
      InsertSorts(leq, Sort(leq, xs[..|xs| - 1]), xs[|xs| - 1]);
      InsertKeepsElements(leq, Sort(leq, xs[..|xs| - 1]), xs[|xs| - 1]);
    }
  }

  ghost predicate NoTies<T(!new)>(leq: (T, T) -> bool, xs: seq<T>) {
    forall a, b | a in xs && b in xs && leq(a, b) && leq(b, a) :: a == b
  }

  lemma LeastsAgree<T(!new)>(leq: (T, T) -> bool, xs: seq<T>, ys: seq<T>)
    requires Sorted(leq, xs) && Sorted(leq, ys) && multiset(xs) == multiset(ys) && xs != [] && ys != []
    requires NoTies(leq, xs)
    ensures xs[0] == ys[0]
  {
    assert xs[0] in multiset(ys) && ys[0] in multiset(xs);
    var i :| 0 <= i < |ys| && ys[i] == xs[0];
    var j :| 0 <= j < |xs| && xs[j] == ys[0];
    assert i == 0 || leq(ys[0], ys[i]);
    assert j == 0 || leq(xs[0], xs[j]);
  }

  lemma TiesPermute<T(!new)>(leq: (T, T) -> bool, xs: seq<T>, ys: seq<T>)
    requires multiset(xs) == multiset(ys) && NoTies(leq, xs)
    ensures NoTies(leq, ys)
  {
    forall y | y in ys
      ensures y in xs
    {
      assert y in multiset(ys);
    }
  }

  lemma TailSorted<T(!new)>(leq: (T, T) -> bool, xs: seq<T>)
    requires xs != [] && Sorted(leq, xs)
    ensures Sorted(leq, xs[1..]) && multiset(xs[1..]) == multiset(xs) - multiset{xs[0]}
    ensures NoTies(leq, xs) ==> NoTies(leq, xs[1..])
  {
    assert xs == [xs[0]] + xs[1..];
  }

  /** Where no two different elements tie, a multiset has one sorted sequence. */
  lemma {:induction false} SortedIsUnique<T(!new)>(leq: (T, T) -> bool, xs: seq<T>, ys: seq<T>)
    requires Sorted(leq, xs) && Sorted(leq, ys) && multiset(xs) == multiset(ys) && NoTies(leq, xs)
    ensures xs == ys
  {
    assert |xs| == |multiset(xs)| == |multiset(ys)| == |ys|;
    if xs != [] {
      LeastsAgree(leq, xs, ys);
      TailSorted(leq, xs);
      TailSorted(leq, ys);
      SortedIsUnique(leq, xs[1..], ys[1..]);
    }
  }

  lemma SortSameElements<T(!new)>(leq: (T, T) -> bool, xs: seq<T>)
    requires TotalOrder(leq)
    ensures |Sort(leq, xs)| == |xs| && forall x :: x in Sort(leq, xs) <==> x in xs
  {
    SortSorts(leq, xs);
    assert |Sort(leq, xs)| == |multiset(Sort(leq, xs))|;
    forall x
      ensures x in Sort(leq, xs) <==> x in xs
    {
      assert x in Sort(leq, xs) <==> x in multiset(Sort(leq, xs));
    }
  }
}
