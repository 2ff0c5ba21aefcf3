/** The stable sort behind `sorted` and `list.sort`, and when its result does not
    depend on the order it was given. */
module Sorting {
  /** `leq` orders the elements of `xs` totally, ties allowed. */
  ghost predicate Orders<T(!new)>(leq: (T, T) -> bool, xs: seq<T>) {
    && (forall x, y | x in xs && y in xs :: leq(x, y) || leq(y, x))
    && (forall x, y, z | x in xs && y in xs && z in xs && leq(x, y) && leq(y, z) :: leq(x, z))
  }

  /** Two elements of `xs` that tie are the same element. */
  ghost predicate TieFree<T(!new)>(leq: (T, T) -> bool, xs: seq<T>) {
    forall x, y | x in xs && y in xs && leq(x, y) && leq(y, x) :: x == y
  }

  ghost predicate Sorted<T>(leq: (T, T) -> bool, xs: seq<T>) {
    forall i, j | 0 <= i < j < |xs| :: leq(xs[i], xs[j])
  }

  function Insert<T>(leq: (T, T) -> bool, x: T, ys: seq<T>): (r: seq<T>)
    ensures |r| == |ys| + 1
  {
    if ys == [] || leq(x, ys[0]) then [x] + ys else [ys[0]] + Insert(leq, x, ys[1..])
  }

  function Sort<T>(leq: (T, T) -> bool, xs: seq<T>): (r: seq<T>)
    ensures |r| == |xs|
  {
    if xs == [] then [] else Insert(leq, xs[0], Sort(leq, xs[1..]))
  }

  lemma {:induction false} InsertPermutes<T>(leq: (T, T) -> bool, x: T, ys: seq<T>)
    ensures multiset(Insert(leq, x, ys)) == multiset(ys) + multiset{x}
  {
    if ys != [] && !leq(x, ys[0]) {
      InsertPermutes(leq, x, ys[1..]);
      assert ys == [ys[0]] + ys[1..];
    }
  }

  lemma {:induction false} SortPermutes<T>(leq: (T, T) -> bool, xs: seq<T>)
    ensures multiset(Sort(leq, xs)) == multiset(xs)
  {
    if xs != [] {
      SortPermutes(leq, xs[1..]);
      InsertPermutes(leq, xs[0], Sort(leq, xs[1..]));
      assert xs == [xs[0]] + xs[1..];
    }
  }

  lemma SameElements<T>(xs: seq<T>, ys: seq<T>)
    requires multiset(xs) == multiset(ys)
    ensures forall x :: x in xs <==> x in ys
  {
    forall x
      ensures x in xs <==> x in ys
    {
      assert x in multiset(xs) <==> x in multiset(ys);
    }
  }

  ghost predicate AllAbove<T(!new)>(leq: (T, T) -> bool, x: T, ys: seq<T>) {
    forall y | y in ys :: leq(x, y)
  }

  lemma ConsSorts<T(!new)>(leq: (T, T) -> bool, x: T, ys: seq<T>)
    requires Sorted(leq, ys) && AllAbove(leq, x, ys)
    ensures Sorted(leq, [x] + ys)
  {
    var all := [x] + ys;
    forall i, j | 0 <= i < j < |all|
      ensures leq(all[i], all[j])
    {
      assert all[j] == ys[j - 1] && ys[j - 1] in ys;
    }
  }

  lemma HeadBelow<T(!new)>(leq: (T, T) -> bool, ys: seq<T>)
    requires ys != [] && Sorted(leq, ys)
    ensures AllAbove(leq, ys[0], ys[1..]) && Sorted(leq, ys[1..])
  {
    forall y | y in ys[1..]
      ensures leq(ys[0], y)
    {
      var i :| 0 <= i < |ys[1..]| && ys[1..][i] == y;
      assert leq(ys[0], ys[i + 1]);
    }
  }

  lemma {:induction false} InsertSorts<T(!new)>(leq: (T, T) -> bool, x: T, ys: seq<T>)
    requires Sorted(leq, ys) && Orders(leq, [x] + ys)
    ensures Sorted(leq, Insert(leq, x, ys))
  {
    if ys != [] {
      HeadBelow(leq, ys);
      var all := [x] + ys;
      assert x in all && ys[0] in all && forall y | y in ys[1..] :: y in all;
      if leq(x, ys[0]) {
        forall y | y in ys
          ensures leq(x, y)
        {
          assert y == ys[0] || y in ys[1..];
          assert y in all;
        }
        ConsSorts(leq, x, ys);
      } else {
        assert forall y | y in [x] + ys[1..] :: y in all;
        InsertSorts(leq, x, ys[1..]);
        InsertPermutes(leq, x, ys[1..]);
        SameElements(Insert(leq, x, ys[1..]), ys[1..] + [x]);
        ConsSorts(leq, ys[0], Insert(leq, x, ys[1..]));
      }
    }
  }

  lemma {:induction false} SortSorts<T(!new)>(leq: (T, T) -> bool, xs: seq<T>)
    requires Orders(leq, xs)
    ensures Sorted(leq, Sort(leq, xs))
  {
    if xs != [] {
      SortSorts(leq, xs[1..]);
      SortPermutes(leq, xs[1..]);
      var sorted := Sort(leq, xs[1..]);
      SameElements(sorted, xs[1..]);
      forall y | y in [xs[0]] + sorted
        ensures y in xs
      {
      }
      InsertSorts(leq, xs[0], sorted);
    }
  }

  lemma HeadsAgree<T(!new)>(leq: (T, T) -> bool, xs: seq<T>, ys: seq<T>)
    requires xs != [] && ys != [] && multiset(xs) == multiset(ys)
    requires Sorted(leq, xs) && Sorted(leq, ys) && TieFree(leq, xs)
    ensures xs[0] == ys[0]
  {
    SameElements(xs, ys);
    assert xs[0] in ys && ys[0] in xs;
    HeadBelow(leq, xs);
    HeadBelow(leq, ys);
    assert forall y | y in xs :: y == xs[0] || y in xs[1..];
    assert forall y | y in ys :: y == ys[0] || y in ys[1..];
  }

  lemma TailsPermute<T>(xs: seq<T>, ys: seq<T>)
    requires xs != [] && ys != [] && xs[0] == ys[0] && multiset(xs) == multiset(ys)
    ensures multiset(xs[1..]) == multiset(ys[1..])
  {
    assert xs == [xs[0]] + xs[1..] && ys == [ys[0]] + ys[1..];
    assert multiset(xs[1..]) == multiset(xs) - multiset{xs[0]};
    assert multiset(ys[1..]) == multiset(ys) - multiset{ys[0]};
  }

  lemma TailTieFree<T(!new)>(leq: (T, T) -> bool, xs: seq<T>)
    requires xs != [] && TieFree(leq, xs)
    ensures TieFree(leq, xs[1..])
  {
    assert forall y | y in xs[1..] :: y in xs;
  }

  lemma {:induction false} SortedIsUnique<T(!new)>(leq: (T, T) -> bool, xs: seq<T>, ys: seq<T>)
    requires multiset(xs) == multiset(ys) && Sorted(leq, xs) && Sorted(leq, ys) && TieFree(leq, xs)
    ensures xs == ys
  {
    assert |xs| == |multiset(xs)| == |multiset(ys)| == |ys|;
    if xs != [] {
      HeadsAgree(leq, xs, ys);
      TailsPermute(xs, ys);
      TailTieFree(leq, xs);
      HeadBelow(leq, xs);
      HeadBelow(leq, ys);
      SortedIsUnique(leq, xs[1..], ys[1..]);
      assert xs == [xs[0]] + xs[1..] && ys == [ys[0]] + ys[1..];
    }
  }

  /** A tie-free sort forgets the order of its input. */
  lemma SortForgetsOrder<T(!new)>(leq: (T, T) -> bool, xs: seq<T>, ys: seq<T>)
    requires multiset(xs) == multiset(ys) && Orders(leq, xs) && TieFree(leq, xs)
    ensures Sort(leq, xs) == Sort(leq, ys)
  {
    SameElements(xs, ys);
    SortPermutes(leq, xs);
    SortPermutes(leq, ys);
    SameElements(Sort(leq, xs), xs);
    SortSorts(leq, xs);
    SortSorts(leq, ys);
    SortedIsUnique(leq, Sort(leq, xs), Sort(leq, ys));
  }

  ghost predicate Distinct<T>(xs: seq<T>) {
    forall i, j | 0 <= i < j < |xs| :: xs[i] != xs[j]
  }

  lemma {:induction false} DistinctCounts<T>(xs: seq<T>, v: T)
    requires Distinct(xs)
    ensures multiset(xs)[v] <= 1
  {
    if xs != [] {
      DistinctCounts(xs[1..], v);
      assert xs == [xs[0]] + xs[1..];
      if xs[0] == v {
        assert v !in xs[1..];
        assert multiset(xs[1..])[v] == 0;
      }
    }
  }

  lemma RepeatCounts<T>(xs: seq<T>, i: nat, j: nat)
    requires i < j < |xs| && xs[i] == xs[j]
    ensures multiset(xs)[xs[i]] >= 2
  {
    var v := xs[i];
    assert xs == xs[..i] + [v] + xs[i + 1..j] + [v] + xs[j + 1..];
    assert multiset(xs) ==
      multiset(xs[..i]) + multiset{v} + multiset(xs[i + 1..j]) + multiset{v} + multiset(xs[j + 1..]);
  }

  /** A rearrangement of distinct elements is distinct. */
  lemma DistinctPermutes<T>(xs: seq<T>, ys: seq<T>)
    requires Distinct(xs) && multiset(xs) == multiset(ys)
    ensures Distinct(ys)
  {
    forall i, j | 0 <= i < j < |ys|
      ensures ys[i] != ys[j]
    {
      DistinctCounts(xs, ys[i]);
      if ys[i] == ys[j] {
        RepeatCounts(ys, i, j);
      }
    }
  }

  ghost predicate Strict<T>(less: (T, T) -> bool, xs: seq<T>) {
    forall i, j | 0 <= i < j < |xs| :: less(xs[i], xs[j])
  }

  ghost predicate Asymmetric<T(!new)>(less: (T, T) -> bool) {
    forall x, y :: !(less(x, y) && less(y, x))
  }

  lemma StrictSnoc<T(!new)>(less: (T, T) -> bool, xs: seq<T>, y: T)
    requires Strict(less, xs) && forall x | x in xs :: less(x, y)
    ensures Strict(less, xs + [y])
  {
    forall i, j | 0 <= i < j < |xs + [y]|
      ensures less((xs + [y])[i], (xs + [y])[j])
    {
      assert xs[i] in xs;
    }
  }

  lemma StrictTail<T(!new)>(less: (T, T) -> bool, xs: seq<T>)
    requires xs != [] && Strict(less, xs) && Asymmetric(less)
    ensures Strict(less, xs[1..])
    ensures forall x :: x in xs[1..] <==> x in xs && x != xs[0]
    ensures forall x | x in xs && x != xs[0] :: less(xs[0], x)
  {
    forall x | x in xs[1..]
      ensures less(xs[0], x) && x != xs[0] && x in xs
    {
      var i :| 0 <= i < |xs[1..]| && xs[1..][i] == x;
      assert less(xs[0], xs[i + 1]);
    }
    assert xs == [xs[0]] + xs[1..];
  }

  lemma EmptyTogether<T>(xs: seq<T>, ys: seq<T>)
    requires forall x :: x in xs <==> x in ys
    ensures xs == [] <==> ys == []
  {
    if xs != [] {
      assert xs[0] in ys;
    }
    if ys != [] {
      assert ys[0] in xs;
    }
  }

  /** A strictly sorted sequence is determined by what it holds. */
  lemma {:induction false} StrictIsUnique<T(!new)>(less: (T, T) -> bool, xs: seq<T>, ys: seq<T>)
    requires Strict(less, xs) && Strict(less, ys) && Asymmetric(less)
    requires forall x :: x in xs <==> x in ys
    ensures xs == ys
  {
    EmptyTogether(xs, ys);
    if xs != [] {
      assert xs[0] in ys && ys[0] in xs;
      StrictTail(less, xs);
      StrictTail(less, ys);
      var x, y := xs[0], ys[0];
      assert !(less(x, y) && less(y, x));
      StrictIsUnique(less, xs[1..], ys[1..]);
      assert xs == [xs[0]] + xs[1..] && ys == [ys[0]] + ys[1..];
    }
  }

  // ---- sets of ids ----

  lemma EmptyWithoutElements(ids: set<int>)
    ensures (forall n :: n !in ids) ==> ids == {}
  {
    if forall n :: n !in ids {
      assert ids == {};
    }
  }

  lemma Lowest(ids: set<int>) returns (n: int)
    requires |ids| > 0
    ensures n in ids && forall m | m in ids :: n <= m
    decreases |ids|
  {
    EmptyWithoutElements(ids);
    var some :| some in ids;
    n := some;
    var rest := ids - {some};
    assert ids == rest + {some};
    if |rest| > 0 {
      var m := Lowest(rest);
      if m < some {
        n := m;
      }
    }
  }

  /** An id above all that are taken. */
  lemma {:induction false} Unused(used: set<int>) returns (i: nat)
    ensures forall j | j in used :: j < i
    decreases |used|
  {
    if |used| == 0 {
      return 0;
    }
    EmptyWithoutElements(used);
    var j :| j in used;
    var rest := used - {j};
    assert used == rest + {j};
    i := Unused(rest);
    if i <= j {
      i := j + 1;
    }
  }
}
