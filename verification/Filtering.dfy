/** The comprehension `[x for x in xs if keep(x)]` and what it does to a bag. */
module Filtering {
  function Filter<T>(keep: T -> bool, xs: seq<T>): seq<T> {
    if xs == [] then [] else (if keep(xs[0]) then [xs[0]] else []) + Filter(keep, xs[1..])
  }

  lemma {:induction false} FilterCounts<T>(keep: T -> bool, xs: seq<T>, x: T)
    ensures multiset(Filter(keep, xs))[x] == if keep(x) then multiset(xs)[x] else 0
  {
    if xs != [] {
      FilterCounts(keep, xs[1..], x);
      assert xs == [xs[0]] + xs[1..];
    }
  }

  lemma FilterIn<T>(keep: T -> bool, xs: seq<T>)
    ensures forall x :: x in Filter(keep, xs) <==> x in xs && keep(x)
  {
    forall x
      ensures x in Filter(keep, xs) <==> x in xs && keep(x)
    {
      FilterCounts(keep, xs, x);
      assert x in multiset(Filter(keep, xs)) <==> x in Filter(keep, xs);
      assert x in multiset(xs) <==> x in xs;
    }
  }

  /** Filtering commutes with rearranging. */
  lemma FilterPermutes<T(!new)>(keep: T -> bool, xs: seq<T>, ys: seq<T>)
    requires multiset(xs) == multiset(ys)
    ensures multiset(Filter(keep, xs)) == multiset(Filter(keep, ys))
  {
    var before, after := multiset(Filter(keep, xs)), multiset(Filter(keep, ys));
    forall x
      ensures before[x] == after[x]
    {
      FilterCounts(keep, xs, x);
      FilterCounts(keep, ys, x);
    }
    assert before == after;
  }

  lemma {:induction false} FilterConcat<T>(keep: T -> bool, xs: seq<T>, ys: seq<T>)
    ensures Filter(keep, xs + ys) == Filter(keep, xs) + Filter(keep, ys)
  {
    if xs == [] {
      assert xs + ys == ys;
    } else {
      var head := if keep(xs[0]) then [xs[0]] else [];
      FilterConcat(keep, xs[1..], ys);
      assert (xs + ys)[0] == xs[0] && (xs + ys)[1..] == xs[1..] + ys;
      assert head + (Filter(keep, xs[1..]) + Filter(keep, ys)) == (head + Filter(keep, xs[1..])) + Filter(keep, ys);
    }
  }

  lemma FilterSnoc<T>(keep: T -> bool, xs: seq<T>, x: T)
    ensures Filter(keep, xs + [x]) == if keep(x) then Filter(keep, xs) + [x] else Filter(keep, xs)
  {
    FilterConcat(keep, xs, [x]);
    assert Filter(keep, [x]) == if keep(x) then [x] else [];
    assert Filter(keep, xs) + [] == Filter(keep, xs);
  }

  lemma {:induction false} FilterSame<T>(keep: T -> bool, keep': T -> bool, xs: seq<T>)
    requires forall x | x in xs :: keep(x) == keep'(x)
    ensures Filter(keep, xs) == Filter(keep', xs)
  {
    if xs != [] {
      assert xs[0] in xs && forall x | x in xs[1..] :: x in xs;
      FilterSame(keep, keep', xs[1..]);
    }
  }

  lemma {:induction false} FilterTwice<T>(first: T -> bool, second: T -> bool, both: T -> bool, xs: seq<T>)
    requires forall x | x in xs :: both(x) == (first(x) && second(x))
    ensures Filter(second, Filter(first, xs)) == Filter(both, xs)
  {
    if xs != [] {
      assert xs[0] in xs && forall x | x in xs[1..] :: x in xs;
      FilterTwice(first, second, both, xs[1..]);
      FilterConcat(second, if first(xs[0]) then [xs[0]] else [], Filter(first, xs[1..]));
    }
  }

  lemma {:induction false} FilterAll<T>(keep: T -> bool, xs: seq<T>)
    requires forall x | x in xs :: keep(x)
    ensures Filter(keep, xs) == xs
  {
    if xs != [] {
      assert xs[0] in xs && forall x | x in xs[1..] :: x in xs;
      FilterAll(keep, xs[1..]);
    }
  }

  lemma {:induction false} FilterNone<T>(keep: T -> bool, xs: seq<T>)
    requires forall x | x in xs :: !keep(x)
    ensures Filter(keep, xs) == []
  {
    if xs != [] {
      assert xs[0] in xs && forall x | x in xs[1..] :: x in xs;
      FilterNone(keep, xs[1..]);
    }
  }
}
