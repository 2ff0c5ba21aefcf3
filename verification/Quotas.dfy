/** How many posts of each channel a labelling sample takes. */
module Quotas {
  import opened Sorting

  /** A channel of the corpus: its key, only compared, and how many posts it has. */
  datatype Channel = Channel(key: int, count: nat)

  function Min(a: nat, b: nat): nat {
    if a < b then a else b
  }

  function Max(a: nat, b: nat): nat {
    if a < b then b else a
  }

  function Sum(xs: seq<nat>): nat {
    if xs == [] then 0 else Sum(xs[..|xs| - 1]) + xs[|xs| - 1]
  }

  function Counts(channels: seq<Channel>): seq<nat> {
    seq(|channels|, i requires 0 <= i < |channels| => channels[i].count)
  }

  /** What each channel can give under a ceiling. */
  function Caps(channels: seq<Channel>, ceiling: nat): seq<nat> {
    seq(|channels|, i requires 0 <= i < |channels| => Min(ceiling, channels[i].count))
  }

  /** Python's `round(p / q)`: to the nearest integer, halves to the even one. */
  function Round(p: nat, q: nat): nat
    requires q > 0
  {
    var floor, twice := p / q, 2 * (p % q);
    if twice < q || (twice == q && floor % 2 == 0) then floor else floor + 1
  }

  /** It is the nearest integer, and an even one where two are as near. */
  lemma RoundIsNearest(p: nat, q: nat)
    requires q > 0
    ensures 2 * (q * Round(p, q) - p) <= q && 2 * (p - q * Round(p, q)) <= q
    ensures 2 * (q * Round(p, q) - p) == q || 2 * (p - q * Round(p, q)) == q ==> Round(p, q) % 2 == 0
  {
    var f, m := p / q, p % q;
    assert p == q * f + m;
    assert q * (f + 1) == q * f + q;
  }

  function FirstShares(channels: seq<Channel>, size: nat, total: nat, ceiling: nat): seq<nat>
    requires total > 0
  {
    seq(|channels|, i requires 0 <= i < |channels| =>
      Min(Min(ceiling, channels[i].count), Round(size * channels[i].count, total)))
  }

  function BySize(channels: seq<Channel>): (nat, nat) -> bool {
    (i: nat, j: nat) =>
      && i < |channels| && j < |channels|
      && (channels[i].count > channels[j].count
          || (channels[i].count == channels[j].count && channels[i].key <= channels[j].key))
  }

  // ---- sums ----

  lemma {:induction false} SumUpdate(xs: seq<nat>, i: nat, v: nat)
    requires i < |xs|
    ensures Sum(xs[i := v]) + xs[i] == Sum(xs) + v
  {
    var n := |xs| - 1;
    if i == n {
      assert xs[i := v][..n] == xs[..n];
    } else {
      assert xs[i := v][..n] == xs[..n][i := v];
      SumUpdate(xs[..n], i, v);
    }
  }

  lemma {:induction false} SumMono(xs: seq<nat>, ys: seq<nat>)
    requires |xs| == |ys| && forall i | 0 <= i < |xs| :: xs[i] <= ys[i]
    ensures Sum(xs) <= Sum(ys)
    ensures Sum(xs) == Sum(ys) ==> xs == ys
  {
    if xs != [] {
      var n := |xs| - 1;
      SumMono(xs[..n], ys[..n]);
      assert xs == xs[..n] + [xs[n]] && ys == ys[..n] + [ys[n]];
    }
  }

  function RoundedShares(channels: seq<Channel>, size: nat, total: nat): seq<nat>
    requires total > 0
  {
    seq(|channels|, i requires 0 <= i < |channels| => Round(size * channels[i].count, total))
  }

  /** Twice `total` times the sum of the rounded shares stays this close to exact. */
  predicate NearExact(size: nat, total: nat, shares: nat, counts: nat, n: nat) {
    && 2 * (total * shares) <= 2 * (size * counts) + total * n
    && 2 * (size * counts) <= 2 * (total * shares) + total * n
  }

  lemma NearExactAdds(size: nat, total: nat, shares: nat, counts: nat, n: nat, share: nat, count: nat)
    requires NearExact(size, total, shares, counts, n)
    requires 2 * (total * share) <= 2 * (size * count) + total
    requires 2 * (size * count) <= 2 * (total * share) + total
    ensures NearExact(size, total, shares + share, counts + count, n + 1)
  {
    assert total * (shares + share) == total * shares + total * share;
    assert size * (counts + count) == size * counts + size * count;
    assert total * (n + 1) == total * n + total;
  }

  /** Rounding each share moves the whole by at most half a post per channel. */
  lemma {:induction false} RoundedSum(channels: seq<Channel>, size: nat, total: nat)
    requires total > 0
    ensures NearExact(size, total, Sum(RoundedShares(channels, size, total)), Sum(Counts(channels)), |channels|)
  {
    if channels != [] {
      var n := |channels| - 1;
      var rest, last := channels[..n], channels[n].count;
      RoundedSum(rest, size, total);
      assert RoundedShares(channels, size, total)[..n] == RoundedShares(rest, size, total);
      assert Counts(channels)[..n] == Counts(rest);
      RoundNear(size * last, total);
      NearExactAdds(size, total, Sum(RoundedShares(rest, size, total)), Sum(Counts(rest)), n,
                    Round(size * last, total), last);
    }
  }

  lemma RoundNear(p: nat, q: nat)
    requires q > 0
    ensures 2 * (q * Round(p, q)) <= 2 * p + q
    ensures 2 * p <= 2 * (q * Round(p, q)) + q
  {
    var f, m := p / q, p % q;
    assert p == q * f + m;
    assert q * (f + 1) == q * f + q;
  }

  // ---- the ceiling ----

  /** Raises the ceiling until the channels can fill the sample, and no further. */
  method RaiseCeiling(channels: seq<Channel>, size: nat, first: nat) returns (ceiling: nat)
    requires size <= Sum(Counts(channels))
    ensures first <= ceiling && size <= Sum(Caps(channels, ceiling))
    ensures ceiling == first || Sum(Caps(channels, ceiling - 1)) < size
  {
    ceiling := first;
    var largest := Largest(channels);
    while ceiling < largest && Sum(Caps(channels, ceiling)) < size
      invariant first <= ceiling
      invariant ceiling == first || Sum(Caps(channels, ceiling - 1)) < size
    {
      ceiling := ceiling + 1;
    }
    if largest <= ceiling {
      assert Caps(channels, ceiling) == Counts(channels);
    }
  }

  method Largest(channels: seq<Channel>) returns (largest: nat)
    ensures forall c | c in channels :: c.count <= largest
    ensures channels != [] ==> exists c :: c in channels && c.count == largest
  {
    largest := 0;
    for i := 0 to |channels|
      invariant forall k | 0 <= k < i :: channels[k].count <= largest
      invariant i > 0 ==> exists k :: 0 <= k < i && channels[k].count == largest
      invariant i == 0 ==> largest == 0
    {
      if channels[i].count > largest {
        largest := channels[i].count;
      }
    }
  }

  // ---- handing out what is left ----

  /** The shares after `rounds` whole rounds over `order` and the first `taken` of the
      next: each channel has one more post per turn it had, up to its cap. */
  ghost predicate Dealt(
    first: seq<nat>, caps: seq<nat>, order: seq<nat>, rounds: nat, taken: nat, share: seq<nat>)
  {
    && |share| == |first| == |caps|
    && taken <= |order| && (forall p | 0 <= p < |order| :: order[p] < |share|)
    && forall p | 0 <= p < |order| ::
         share[order[p]] == Min(caps[order[p]], first[order[p]] + rounds + if p < taken then 1 else 0)
  }

  /** `order` visits every channel once. */
  ghost predicate Visits(order: seq<nat>, n: nat) {
    Distinct(order) && forall i: nat :: i in order <==> i < n
  }

  method DealRound(
    first: seq<nat>, caps: seq<nat>, order: seq<nat>, size: nat, ghost rounds: nat, share0: seq<nat>)
    returns (share: seq<nat>, moved: bool, taken: nat)
    requires Visits(order, |first|) && Dealt(first, caps, order, rounds, 0, share0)
    requires forall i | 0 <= i < |first| :: first[i] <= caps[i]
    requires Sum(share0) < size
    ensures |share| == |first| && Dealt(first, caps, order, rounds, taken, share)
    ensures Sum(share0) <= Sum(share) <= size
    ensures taken == |order| || Sum(share) == size
    ensures moved <==> Sum(share0) < Sum(share)
  {
    share, moved, taken := share0, false, 0;
    while taken < |order|
      invariant Dealt(first, caps, order, rounds, taken, share)
      invariant Sum(share0) <= Sum(share) <= size
      invariant moved <==> Sum(share0) < Sum(share)
    {
      if Sum(share) >= size {
        break;
      }
      var key := order[taken];
      if share[key] < caps[key] {
        SumUpdate(share, key, share[key] + 1);
        share := share[key := share[key] + 1];
        moved := true;
      }
      taken := taken + 1;
    }
  }

  lemma Stuck(first: seq<nat>, caps: seq<nat>, order: seq<nat>, rounds: nat, share: seq<nat>, next: seq<nat>)
    requires Visits(order, |first|) && Dealt(first, caps, order, rounds, 0, share)
    requires Dealt(first, caps, order, rounds, |order|, next) && Sum(next) == Sum(share)
    requires forall i | 0 <= i < |first| :: first[i] <= caps[i]
    ensures share == caps
  {
    forall i | 0 <= i < |first|
      ensures share[i] <= next[i] && share[i] <= caps[i] && (share[i] == next[i] ==> share[i] == caps[i])
    {
      assert i in order;
    }
    SumMono(share, next);
  }

  /** `first` shares are within their caps, and a whole round deals into the next. */
  lemma NextRound(first: seq<nat>, caps: seq<nat>, order: seq<nat>, rounds: nat, share: seq<nat>)
    requires Dealt(first, caps, order, rounds, |order|, share)
    ensures Dealt(first, caps, order, rounds + 1, 0, share)
  {
  }

  lemma NoRounds(first: seq<nat>, caps: seq<nat>, order: seq<nat>)
    requires |first| == |caps| && forall i | 0 <= i < |first| :: first[i] <= caps[i]
    requires forall p | 0 <= p < |order| :: order[p] < |first|
    ensures Dealt(first, caps, order, 0, 0, first)
  {
  }

  /** Round after round until the sample is full. Some channel always has room, so the
      way out for a round that moved nothing is never taken. */
  method Deal(first: seq<nat>, caps: seq<nat>, order: seq<nat>, size: nat)
    returns (share: seq<nat>, ghost rounds: nat, taken: nat)
    requires |first| == |caps| && Visits(order, |first|)
    requires forall i | 0 <= i < |first| :: first[i] <= caps[i]
    requires size <= Sum(caps)
    ensures |share| == |first| && Dealt(first, caps, order, rounds, taken, share)
    ensures Sum(share) == Max(size, Sum(first))
  {
    hide Dealt, Visits;
    share, rounds, taken := first, 0, 0;
    VisitsInside(order, |first|);
    NoRounds(first, caps, order);
    while Sum(share) < size
      invariant |share| == |first| && Dealt(first, caps, order, rounds, taken, share)
      invariant Sum(share) == Max(size, Sum(first)) || (Sum(share) <= size && taken == 0)
      decreases size - Sum(share)
    {
      var moved;
      ghost var before := share;
      share, moved, taken := DealRound(first, caps, order, size, rounds, share);
      if !moved {
        Stuck(first, caps, order, rounds, before, share);
        assert false;
        break;
      }
      if taken == |order| {
        NextRound(first, caps, order, rounds, share);
        rounds, taken := rounds + 1, 0;
      }
    }
  }

  lemma VisitsInside(order: seq<nat>, n: nat)
    requires Visits(order, n)
    ensures forall p | 0 <= p < |order| :: order[p] < n
  {
    forall p | 0 <= p < |order|
      ensures order[p] < n
    {
      assert order[p] in order;
    }
  }

  function Order(channels: seq<Channel>): seq<nat> {
    Sort(BySize(channels), Positions(|channels|))
  }

  function Positions(n: nat): seq<nat> {
    seq(n, (i: nat) => i)
  }

  /** The turns: larger channels first, and of equal ones that of the smaller key. */
  lemma OrderIsBySize(channels: seq<Channel>, p: nat, q: nat)
    requires p < q < |channels|
    ensures |Order(channels)| == |channels| && Order(channels)[p] < |channels| && Order(channels)[q] < |channels|
    ensures var first, next := channels[Order(channels)[p]], channels[Order(channels)[q]];
            first.count > next.count || (first.count == next.count && first.key <= next.key)
  {
    OrderVisits(channels);
    assert BySize(channels)(Order(channels)[p], Order(channels)[q]);
  }

  lemma OrderVisits(channels: seq<Channel>)
    ensures Visits(Order(channels), |channels|) && Sorted(BySize(channels), Order(channels))
  {
    var all := Positions(|channels|);
    SortPermutes(BySize(channels), all);
    SortSorts(BySize(channels), all);
    SameElements(Order(channels), all);
    DistinctPermutes(all, Order(channels));
    forall i: nat | i < |channels|
      ensures i in all
    {
      assert all[i] == i;
    }
  }

  /** The first shares together overshoot the target by at most half a post a channel. */
  lemma AtMostHalfMore(channels: seq<Channel>, size: nat, total: nat, ceiling: nat)
    requires total == Sum(Counts(channels)) && total > 0
    ensures 2 * Sum(FirstShares(channels, size, total, ceiling)) <= 2 * size + |channels|
  {
    hide Sum, Round, Caps;
    var s := Sum(RoundedShares(channels, size, total));
    SumMono(FirstShares(channels, size, total, ceiling), RoundedShares(channels, size, total));
    RoundedSum(channels, size, total);
    NearExactDivides(size, total, s, |channels|);
  }

  lemma NearExactDivides(size: nat, total: nat, shares: nat, n: nat)
    requires total > 0 && NearExact(size, total, shares, total, n)
    ensures 2 * shares <= 2 * size + n
  {
    var x, y := 2 * shares, 2 * size + n;
    assert total * x == 2 * (total * shares);
    assert total * y == 2 * (size * total) + total * n;
    if x > y {
    }
  }

  /** What the quotas of a corpus that is not empty must be for a target of `size` posts
      and a first ceiling of `base`. */
  ghost predicate AreQuotas(channels: seq<Channel>, size: nat, base: nat, share: seq<nat>, ceiling: nat)
    requires Sum(Counts(channels)) > 0
  {
    var first := FirstShares(channels, size, Sum(Counts(channels)), ceiling);
    && |share| == |channels|
    && Sum(share) == Max(size, Sum(first)) && 2 * Sum(share) <= 2 * size + |channels|
    && (forall i | 0 <= i < |share| :: share[i] <= ceiling && share[i] <= channels[i].count)
    && base <= ceiling && size <= Sum(Caps(channels, ceiling))
    && (ceiling == base || Sum(Caps(channels, ceiling - 1)) < size)
    && exists rounds: nat, taken: nat ::
         Dealt(first, Caps(channels, ceiling), Order(channels), rounds, taken, share)
  }

  lemma AreQuotasHolds(
    channels: seq<Channel>, size: nat, base: nat, share: seq<nat>, ceiling: nat, rounds: nat, taken: nat)
    requires Sum(Counts(channels)) > 0
    requires base <= ceiling && size <= Sum(Caps(channels, ceiling))
    requires ceiling == base || Sum(Caps(channels, ceiling - 1)) < size
    requires Sum(share) == Max(size, Sum(FirstShares(channels, size, Sum(Counts(channels)), ceiling)))
    requires Dealt(FirstShares(channels, size, Sum(Counts(channels)), ceiling), Caps(channels, ceiling),
                   Order(channels), rounds, taken, share)
    ensures AreQuotas(channels, size, base, share, ceiling)
  {
    hide Sum, Order, Round;
    OrderVisits(channels);
    AtMostHalfMore(channels, size, Sum(Counts(channels)), ceiling);
    forall i | 0 <= i < |share|
      ensures share[i] <= Caps(channels, ceiling)[i]
    {
      assert i in Order(channels);
    }
  }

  lemma {:induction false} CountsBelowTotal(channels: seq<Channel>)
    ensures forall i | 0 <= i < |channels| :: channels[i].count <= Sum(Counts(channels))
  {
    if channels != [] {
      var n := |channels| - 1;
      CountsBelowTotal(channels[..n]);
      assert Counts(channels)[..n] == Counts(channels[..n]);
      assert forall i | 0 <= i < n :: channels[i] == channels[..n][i];
    }
  }

  lemma CapsGrow(channels: seq<Channel>, low: nat, high: nat)
    requires low <= high
    ensures Sum(Caps(channels, low)) <= Sum(Caps(channels, high)) <= Sum(Counts(channels))
  {
    SumMono(Caps(channels, low), Caps(channels, high));
    SumMono(Caps(channels, high), Counts(channels));
  }

  lemma CapsOfTotal(channels: seq<Channel>, ceiling: nat)
    requires Sum(Counts(channels)) <= ceiling
    ensures Sum(Caps(channels, ceiling)) == Sum(Counts(channels))
  {
    CountsBelowTotal(channels);
    assert Caps(channels, ceiling) == Counts(channels);
  }

  /** The least ceiling from `first` on under which the channels can fill the sample. */
  function LeastCeiling(channels: seq<Channel>, size: nat, first: nat): nat
    requires size <= Sum(Counts(channels))
    decreases if first < Sum(Counts(channels)) then Sum(Counts(channels)) - first else 0
  {
    if size <= Sum(Caps(channels, first)) then first
    else
      assert first < Sum(Counts(channels)) by {
        if Sum(Counts(channels)) <= first {
          CapsOfTotal(channels, first);
        }
      }
      LeastCeiling(channels, size, first + 1)
  }

  lemma {:induction false} CeilingIsLeast(channels: seq<Channel>, size: nat, first: nat, ceiling: nat)
    requires first <= ceiling && size <= Sum(Caps(channels, ceiling))
    requires ceiling == first || Sum(Caps(channels, ceiling - 1)) < size
    ensures size <= Sum(Counts(channels)) && ceiling == LeastCeiling(channels, size, first)
    decreases ceiling - first
  {
    hide Sum, Caps, Counts;
    CapsGrow(channels, ceiling, ceiling);
    if first < ceiling {
      CapsGrow(channels, first, ceiling - 1);
      CeilingIsLeast(channels, size, first + 1, ceiling);
    }
  }

  /** What the first shares come to, for `size` posts under the ratio `cap`. */
  function FirstTotal(channels: seq<Channel>, size: nat, cap: real): nat
    requires 0 < size <= Sum(Counts(channels))
  {
    Sum(FirstShares(channels, size, Sum(Counts(channels)), LeastCeiling(channels, size, FirstCeiling(size, cap))))
  }

  /** A first share is the channel's part of the sample, rounded, but no more than it has
      and than the ceiling allows. */
  lemma FirstShareIs(channels: seq<Channel>, size: nat, total: nat, ceiling: nat, i: nat)
    requires total > 0 && i < |channels|
    ensures |FirstShares(channels, size, total, ceiling)| == |channels|
    ensures var share, count := FirstShares(channels, size, total, ceiling)[i], channels[i].count;
            && share <= ceiling && share <= count && 2 * (total * share) <= 2 * (size * count) + total
            && (share < ceiling && share < count ==> 2 * (size * count) <= 2 * (total * share) + total)
  {
    RoundNear(size * channels[i].count, total);
    var rounded, share := Round(size * channels[i].count, total), FirstShares(channels, size, total, ceiling)[i];
    ProductGrows(total, share, rounded);
  }

  lemma ProductGrows(factor: nat, x: nat, y: nat)
    requires x <= y
    ensures factor * x <= factor * y
  {
  }

  /** The first ceiling: so large a part of the sample, rounded down, but at least one. */
  lemma FirstCeilingIs(size: nat, cap: real)
    ensures var ceiling, part := FirstCeiling(size, cap), (size as real) * cap;
            && ceiling >= 1
            && (part < 2.0 ==> ceiling == 1)
            && (part >= 1.0 ==> ceiling as real <= part < (ceiling + 1) as real)
  {
  }

  /** The dealing is fair: beyond its first share a channel that is not full has got at
      most one post less than any other, and no less than one that comes later. */
  lemma DealtFairly(
    first: seq<nat>, caps: seq<nat>, order: seq<nat>, rounds: nat, taken: nat, share: seq<nat>, p: nat, q: nat)
    requires Dealt(first, caps, order, rounds, taken, share) && p < |order| && q < |order|
    requires first[order[p]] <= caps[order[p]] && first[order[q]] <= caps[order[q]]
    requires share[order[p]] < caps[order[p]]
    ensures share[order[q]] - first[order[q]] <= share[order[p]] - first[order[p]] + 1
    ensures p < q ==> share[order[q]] - first[order[q]] <= share[order[p]] - first[order[p]]
  {
  }

  /** More posts are asked for than wanted exactly if the first shares already are more,
      which the channels, the size and the ratio decide. */
  lemma OvershootsExactly(channels: seq<Channel>, size: nat, cap: real, share: seq<nat>, ceiling: nat)
    requires 0 < size <= Sum(Counts(channels))
    requires AreQuotas(channels, size, FirstCeiling(size, cap), share, ceiling)
    ensures Sum(share) > size <==> FirstTotal(channels, size, cap) > size
    ensures Sum(share) >= size
  {
    hide Sum, FirstShares, Dealt, Order, Caps, FirstCeiling;
    CeilingIsLeast(channels, size, FirstCeiling(size, cap), ceiling);
  }

  /** Three posts of five channels with three each: every share of three fifths rounds up. */
  const FIVE_CHANNELS := [Channel(1, 3), Channel(2, 3), Channel(3, 3), Channel(4, 3), Channel(5, 3)]

  lemma Five(xs: seq<nat>, x: nat)
    requires |xs| == 5 && forall i | 0 <= i < 5 :: xs[i] == x
    ensures Sum(xs) == 5 * x
  {
    assert xs[..4][..3] == xs[..3] && xs[..3][..2] == xs[..2] && xs[..2][..1] == xs[..1] && xs[..1][..0] == [];
    assert Sum(xs[..0]) == 0;
    assert Sum(xs[..1]) == Sum(xs[..0]) + x;
    assert Sum(xs[..2]) == Sum(xs[..1]) + x;
    assert Sum(xs[..3]) == Sum(xs[..2]) + x;
    assert Sum(xs[..4]) == Sum(xs[..3]) + x;
  }

  lemma FiveFirstShares(ceiling: nat)
    requires ceiling >= 1
    ensures Sum(Counts(FIVE_CHANNELS)) == 15 && Sum(FirstShares(FIVE_CHANNELS, 3, 15, ceiling)) == 5
  {
    hide Sum;
    Five(Counts(FIVE_CHANNELS), 3);
    assert Round(9, 15) == 1;
    Five(FirstShares(FIVE_CHANNELS, 3, 15, ceiling), 1);
  }

  lemma FiveOvershoot(cap: real, share: seq<nat>, ceiling: nat)
    requires Sum(Counts(FIVE_CHANNELS)) > 0 && AreQuotas(FIVE_CHANNELS, 3, FirstCeiling(3, cap), share, ceiling)
    ensures Sum(share) == 5
  {
    assert FirstCeiling(3, cap) >= 1;
    hide Sum, Dealt, Order, Caps, FirstShares, Counts, FirstCeiling;
    FiveFirstShares(ceiling);
  }

  /** The quotas: none for an empty corpus or sample; otherwise the first rounded shares,
      topped up in rounds to the target. A channel missing from the dictionary the
      source returns has share 0 here. */
  method Quotas(channels: seq<Channel>, wanted: int, cap: real) returns (share: seq<nat>, ceiling: nat)
    ensures |share| == |channels|
    ensures Sum(Counts(channels)) == 0 || wanted <= 0 ==> forall i | 0 <= i < |share| :: share[i] == 0
    ensures Sum(Counts(channels)) > 0 && wanted > 0 ==>
              var size := Min(wanted, Sum(Counts(channels)));
              AreQuotas(channels, size, FirstCeiling(size, cap), share, ceiling)
  {
    hide Sum, Dealt, Order, Visits, AreQuotas, Round, FirstCeiling;
    var total := Sum(Counts(channels));
    ceiling := 0;
    if total == 0 || wanted <= 0 {
      return seq(|channels|, i => 0), 0;
    }
    var size := Min(wanted, total);
    ceiling := RaiseCeiling(channels, size, FirstCeiling(size, cap));
    var first := FirstShares(channels, size, total, ceiling);
    var order := Order(channels);
    OrderVisits(channels);
    ghost var rounds;
    var taken;
    share, rounds, taken := Deal(first, Caps(channels, ceiling), order, size);
    AreQuotasHolds(channels, size, FirstCeiling(size, cap), share, ceiling, rounds, taken);
  }

  /** `max(1, int(size * cap))`. */
  function FirstCeiling(size: nat, cap: real): nat {
    var part := ((size as real) * cap).Floor;
    if part < 1 then 1 else part
  }
}
