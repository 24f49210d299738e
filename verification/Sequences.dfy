/** Filtering and mapping a sequence, and what survives permuting it. */
module Sequences {
  import opened Wrappers

  /** The results `f` gives, in order, for the elements it does not skip. */
  function Collect<T, U>(f: T -> Option<U>, xs: seq<T>): seq<U> {
    if xs == [] then []
    else
      var last := f(xs[|xs| - 1]);
      Collect(f, xs[..|xs| - 1]) + if last.Some? then [last.value] else []
  }

  ghost predicate NoDups<T(!new)>(xs: seq<T>) {
    forall i, j | 0 <= i < j < |xs| :: xs[i] != xs[j]
  }

  lemma {:induction false} CollectMembers<T, U>(f: T -> Option<U>, xs: seq<T>)
    ensures forall x <- xs | f(x).Some? :: f(x).value in Collect(f, xs)
    ensures forall u <- Collect(f, xs) :: exists x <- xs :: f(x) == Some(u)
  {
    if xs != [] {
      var init := xs[..|xs| - 1];
      CollectMembers(f, init);
      assert xs == init + [xs[|xs| - 1]];
      forall u <- Collect(f, xs)
        ensures exists x <- xs :: f(x) == Some(u)
      {
        if u in Collect(f, init) {
          var x :| x in init && f(x) == Some(u);
          assert x in xs;
        } else {
          assert f(xs[|xs| - 1]) == Some(u);
        }
      }
    }
  }

  lemma {:induction false} CollectAll<T, U>(f: T -> Option<U>, xs: seq<T>)
    requires forall x <- xs :: f(x).Some?
    ensures |Collect(f, xs)| == |xs|
    ensures forall i | 0 <= i < |xs| :: Collect(f, xs)[i] == f(xs[i]).value
  {
    if xs != [] {
      CollectAll(f, xs[..|xs| - 1]);
    }
  }

  lemma CollectNext<T, U>(f: T -> Option<U>, xs: seq<T>, x: T)
    ensures Collect(f, xs + [x]) == Collect(f, xs) + if f(x).Some? then [f(x).value] else []
  {
    assert (xs + [x])[..|xs|] == xs;
  }

  /** One collection after another, in a single pass. */
  function Chain<T, U, V>(f: T -> Option<U>, g: U -> Option<V>): T -> Option<V> {
    (x: T) => if f(x).Some? then g(f(x).value) else None
  }

  lemma {:induction false} CollectChain<T, U, V>(f: T -> Option<U>, g: U -> Option<V>, xs: seq<T>)
    ensures Collect(g, Collect(f, xs)) == Collect(Chain(f, g), xs)
  {
    if xs != [] {
      var init, last := xs[..|xs| - 1], xs[|xs| - 1];
      CollectChain(f, g, init);
      if f(last).Some? {
        CollectNext(g, Collect(f, init), f(last).value);
      } else {
        assert Collect(f, xs) == Collect(f, init);
      }
    }
  }

  lemma {:induction false} CollectAlike<T, U>(f: T -> Option<U>, g: T -> Option<U>, xs: seq<T>)
    requires forall x <- xs :: f(x) == g(x)
    ensures Collect(f, xs) == Collect(g, xs)
  {
    if xs != [] {
      CollectAlike(f, g, xs[..|xs| - 1]);
    }
  }

  lemma {:induction false} CollectSplits<T, U>(f: T -> Option<U>, xs: seq<T>, ys: seq<T>)
    ensures Collect(f, xs + ys) == Collect(f, xs) + Collect(f, ys)
  {
    if ys == [] {
      assert xs + ys == xs;
    } else {
      var init, last := ys[..|ys| - 1], ys[|ys| - 1];
      CollectSplits(f, xs, init);
      assert (xs + ys)[..|xs + ys| - 1] == xs + init;
    }
  }

  lemma WithoutOne<T(!new)>(init: seq<T>, x: T, before: seq<T>, after: seq<T>)
    requires multiset(init + [x]) == multiset(before + [x] + after)
    ensures multiset(init) == multiset(before + after)
  {
    assert multiset(init) == multiset(init + [x]) - multiset{x};
    assert multiset(before + after) == multiset(before + [x] + after) - multiset{x};
  }

  lemma Around<T>(ys: seq<T>, x: T, bag: multiset<T>) returns (before: seq<T>, after: seq<T>)
    requires multiset(ys) == bag && x in bag
    ensures ys == before + [x] + after
  {
    assert x in multiset(ys);
    var j :| 0 <= j < |ys| && ys[j] == x;
    before, after := ys[..j], ys[j + 1..];
  }

  lemma CollectAround<T, U>(f: T -> Option<U>, before: seq<T>, x: T, after: seq<T>)
    ensures multiset(Collect(f, before + [x] + after)) == multiset(Collect(f, before + after)) + multiset(Collect(f, [x]))
  {
    CollectSplits(f, before, after);
    CollectSplits(f, before + [x], after);
    CollectSplits(f, before, [x]);
  }

  /** Permuting the input permutes what is collected. */
  lemma {:induction false} CollectPermutes<T(!new), U>(f: T -> Option<U>, xs: seq<T>, ys: seq<T>)
    requires multiset(xs) == multiset(ys)
    ensures multiset(Collect(f, xs)) == multiset(Collect(f, ys))
    decreases |xs|
  {
    if xs == [] {
      assert |ys| == |multiset(ys)|;
    } else {
      var init, last := xs[..|xs| - 1], xs[|xs| - 1];
      var before, after := Around(ys, last, multiset(xs));
      assert xs == init + [last] + [] && init == init + [];
      WithoutOne(init, last, before, after);
      CollectPermutes(f, init, before + after);
      CollectAround(f, init, last, []);
      CollectAround(f, before, last, after);
    }
  }

  lemma {:induction false} OnceEach<T(!new)>(xs: seq<T>, x: T)
    requires NoDups(xs)
    ensures multiset(xs)[x] == if x in xs then 1 else 0
  {
    if xs != [] {
      var init, last := xs[..|xs| - 1], xs[|xs| - 1];
      OnceEach(init, x);
      assert xs == init + [last];
      assert last !in init;
    }
  }

  lemma NoDupsTogether<T(!new)>(xs: seq<T>, ys: seq<T>)
    requires NoDups(xs) && NoDups(ys) && forall x <- xs :: x !in ys
    ensures NoDups(xs + ys)
  {
    forall i, j | 0 <= i < j < |xs + ys|
      ensures (xs + ys)[i] != (xs + ys)[j]
    {
      if i < |xs| <= j {
        assert xs[i] in xs && (xs + ys)[j] == ys[j - |xs|];
      }
    }
  }

  lemma NoDupsPermutes<T(!new)>(xs: seq<T>, ys: seq<T>)
    requires NoDups(xs) && multiset(xs) == multiset(ys)
    ensures NoDups(ys)
  {
    forall i, j | 0 <= i < j < |ys|
      ensures ys[i] != ys[j]
    {
      assert ys == ys[..j] + ys[j..];
      OnceEach(xs, ys[i]);
      assert ys[i] in multiset(ys[..j]);
      assert ys[j] in multiset(ys[j..]);
    }
  }

  /** Without repetition, having the same elements is being a permutation. */
  lemma SameElementsPermute<T(!new)>(xs: seq<T>, ys: seq<T>)
    requires NoDups(xs) && NoDups(ys)
    requires forall x :: x in xs <==> x in ys
    ensures multiset(xs) == multiset(ys)
  {
    forall x
      ensures multiset(xs)[x] == multiset(ys)[x]
    {
      OnceEach(xs, x);
      OnceEach(ys, x);
    }
  }
}
