/** Strings in code point order, and `str.partition(":")`. */
module Texts {
  import opened Sorting

  predicate Less(a: string, b: string) {
    b != [] && (a == [] || a[0] < b[0] || (a[0] == b[0] && Less(a[1..], b[1..])))
  }

  predicate Leq(a: string, b: string) {
    a == b || Less(a, b)
  }

  lemma {:induction false} LessTrichotomy(a: string, b: string)
    ensures a == b ==> !Less(a, b)
    ensures a != b ==> Less(a, b) != Less(b, a)
  {
    if a != [] && b != [] && a[0] == b[0] {
      LessTrichotomy(a[1..], b[1..]);
      assert a == [a[0]] + a[1..] && b == [b[0]] + b[1..];
    }
  }

  lemma {:induction false} LessTransitive(a: string, b: string, c: string)
    requires Less(a, b) && Less(b, c)
    ensures Less(a, c)
  {
    if a != [] && a[0] == b[0] == c[0] {
      LessTransitive(a[1..], b[1..], c[1..]);
    }
  }

  /** The order of dictionaries by code point: a proper prefix comes first, and otherwise
      the first difference decides. */
  lemma {:induction false} LessIsLexicographic(a: string, b: string)
    ensures Less(a, b) <==> a < b || exists i :: DiffersAt(a, b, i) && a[i] < b[i]
  {
    if a != [] && b != [] && a[0] == b[0] {
      LessIsLexicographic(a[1..], b[1..]);
      assert a == [a[0]] + a[1..] && b == [b[0]] + b[1..];
      assert a < b <==> a[1..] < b[1..];
      if i :| DiffersAt(a, b, i) && a[i] < b[i] {
        assert i > 0;
        assert forall k | 0 <= k < i - 1 :: a[1..][k] == a[k + 1] && b[1..][k] == b[k + 1];
        assert DiffersAt(a[1..], b[1..], i - 1);
      }
      if i :| DiffersAt(a[1..], b[1..], i) && a[1..][i] < b[1..][i] {
        assert forall k | 0 < k < i + 1 :: a[k] == a[1..][k - 1] && b[k] == b[1..][k - 1];
        assert DiffersAt(a, b, i + 1);
      }
    } else if a != [] && b != [] {
      assert DiffersAt(a, b, 0);
    }
  }

  /** `i` is the first position where the two differ. */
  predicate DiffersAt(a: string, b: string, i: int) {
    0 <= i < |a| && i < |b| && a[i] != b[i] && forall k | 0 <= k < i :: a[k] == b[k]
  }

  /** All that sorting needs to know of the order. */
  lemma LessOrders()
    ensures forall a, b :: a == b || Less(a, b) || Less(b, a)
    ensures forall a, b :: !(Less(a, b) && Less(b, a))
    ensures forall a, b, c :: Less(a, b) && Less(b, c) ==> Less(a, c)
  {
    forall a, b
      ensures a == b || Less(a, b) || Less(b, a)
      ensures !(Less(a, b) && Less(b, a))
    {
      LessTrichotomy(a, b);
    }
    forall a, b, c | Less(a, b) && Less(b, c)
      ensures Less(a, c)
    {
      LessTransitive(a, b, c);
    }
  }

  lemma LowestOf(texts: set<string>) returns (lowest: string)
    requires texts != {}
    ensures lowest in texts && forall text | text in texts :: Leq(lowest, text)
    decreases |texts|
  {
    lowest :| lowest in texts;
    if texts != {lowest} {
      var other := LowestOf(texts - {lowest});
      LessOrders();
      if Less(other, lowest) {
        lowest := other;
      }
      assert texts == (texts - {lowest}) + {lowest};
    }
  }

  /** `sorted` of a set. */
  method SortedSet(texts: set<string>) returns (r: seq<string>)
    ensures Strict(Less, r) && forall text :: text in r <==> text in texts
  {
    r := [];
    var left := texts;
    while left != {}
      invariant left <= texts && Strict(Less, r) && forall text :: text in r <==> text in texts - left
      invariant forall a, b | a in r && b in left :: Less(a, b)
    {
      ghost var first := LowestOf(left);
      var lowest :| lowest in left && forall other | other in left :: Leq(lowest, other);
      forall a, b | a in r + [lowest] && b in left - {lowest}
        ensures Less(a, b)
      {
        assert a in r || a == lowest;
        assert Leq(lowest, b);
      }
      r := r + [lowest];
      left := left - {lowest};
    }
  }

  /** The part before the first colon; all of `s` without one. */
  function Head(s: string): string {
    if s == [] || s[0] == ':' then [] else [s[0]] + Head(s[1..])
  }

  predicate HasColon(s: string) {
    ':' in s
  }

  /** The part after the first colon; empty without one. */
  function Tail(s: string): string {
    if s == [] then [] else if s[0] == ':' then s[1..] else Tail(s[1..])
  }

  /** The part before the first colon has none, and what is cut is the rest. */
  lemma {:induction false} HeadAndTail(s: string)
    ensures ':' !in Head(s)
    ensures s == if HasColon(s) then Head(s) + ":" + Tail(s) else Head(s)
    ensures !HasColon(s) ==> Tail(s) == []
  {
    if s != [] && s[0] != ':' {
      HeadAndTail(s[1..]);
      assert s == [s[0]] + s[1..];
    }
  }

  /** A slug without a colon is read back from the key it was written into. */
  lemma {:induction false} PartitionOfJoin(slug: string, rest: string)
    requires ':' !in slug
    ensures Head(slug + ":" + rest) == slug && Tail(slug + ":" + rest) == rest && HasColon(slug + ":" + rest)
  {
    var s := slug + ":" + rest;
    if slug == [] {
      assert s == ":" + rest;
      assert s[1..] == rest;
    } else {
      PartitionOfJoin(slug[1..], rest);
      assert s[1..] == slug[1..] + ":" + rest;
    }
    assert s[|slug|] == ':';
  }
}
