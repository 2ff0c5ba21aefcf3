/** The draw of a labelling sample: what is kept, and the quota of every channel. */
module Sampling {
  import opened Quotas
  import opened Sorting

  /** An item as the draw sees it; ids, channels and dates are only compared. */
  datatype Item = Item(id: int, channel: int, published: int)

  function Kept(items: seq<Item>, keep: set<int>): seq<Item> {
    if items == [] then []
    else Kept(items[..|items| - 1], keep) + if items[|items| - 1].id in keep then [items[|items| - 1]] else []
  }

  /** What a channel has besides the kept items. */
  function Pool(items: seq<Item>, keep: set<int>, channel: int): seq<Item> {
    if items == [] then []
    else
      var last := items[|items| - 1];
      Pool(items[..|items| - 1], keep, channel)
      + if last.channel == channel && last.id !in keep then [last] else []
  }

  function CountIn(items: seq<Item>, channel: int): nat {
    if items == [] then 0
    else CountIn(items[1..], channel) + if items[0].channel == channel then 1 else 0
  }

  function ById(): (Item, Item) -> bool {
    (x: Item, y: Item) => x.id <= y.id
  }

  function ByChannel(): (Item, Item) -> bool {
    (x: Item, y: Item) => x.channel < y.channel || (x.channel == y.channel && x.published <= y.published)
  }

  // ---- counting by channel ----

  lemma {:induction false} CountInConcat(xs: seq<Item>, ys: seq<Item>, channel: int)
    ensures CountIn(xs + ys, channel) == CountIn(xs, channel) + CountIn(ys, channel)
  {
    if xs == [] {
      assert xs + ys == ys;
    } else {
      CountInConcat(xs[1..], ys, channel);
      assert (xs + ys)[1..] == xs[1..] + ys;
    }
  }

  lemma {:induction false} CountInInsert(leq: (Item, Item) -> bool, x: Item, ys: seq<Item>, channel: int)
    ensures CountIn(Insert(leq, x, ys), channel) == CountIn([x] + ys, channel)
  {
    assert ([x] + ys)[1..] == ys;
    if ys != [] && !leq(x, ys[0]) {
      CountInInsert(leq, x, ys[1..], channel);
      assert ([x] + ys[1..])[1..] == ys[1..];
      assert Insert(leq, x, ys)[1..] == Insert(leq, x, ys[1..]);
    }
  }

  lemma {:induction false} CountInSort(leq: (Item, Item) -> bool, xs: seq<Item>, channel: int)
    ensures CountIn(Sort(leq, xs), channel) == CountIn(xs, channel)
  {
    if xs != [] {
      CountInSort(leq, xs[1..], channel);
      CountInInsert(leq, xs[0], Sort(leq, xs[1..]), channel);
      assert ([xs[0]] + Sort(leq, xs[1..]))[1..] == Sort(leq, xs[1..]);
    }
  }

  lemma {:induction false} CountInOne(xs: seq<Item>, own: int, channel: int)
    requires forall x: Item | x in xs :: x.channel == own
    ensures CountIn(xs, channel) == if channel == own then |xs| else 0
  {
    if xs != [] {
      assert xs[0] in xs && forall x | x in xs[1..] :: x in xs;
      CountInOne(xs[1..], own, channel);
    }
  }

  /** A channel is its kept items and its pool. */
  lemma {:induction false} Splits(items: seq<Item>, keep: set<int>, channel: int)
    ensures |Pool(items, keep, channel)| + CountIn(Kept(items, keep), channel) == CountIn(items, channel)
  {
    if items != [] {
      var n := |items| - 1;
      var last := items[n];
      Splits(items[..n], keep, channel);
      assert items == items[..n] + [last];
      CountInConcat(items[..n], [last], channel);
      CountInConcat(Kept(items[..n], keep), if last.id in keep then [last] else [], channel);
    }
  }

  lemma {:induction false} KeptCounts(items: seq<Item>, keep: set<int>, x: Item)
    ensures multiset(Kept(items, keep))[x] == if x.id in keep then multiset(items)[x] else 0
  {
    if items != [] {
      var n := |items| - 1;
      KeptCounts(items[..n], keep, x);
      assert items == items[..n] + [items[n]];
    }
  }

  lemma {:induction false} PoolCounts(items: seq<Item>, keep: set<int>, channel: int, x: Item)
    ensures multiset(Pool(items, keep, channel))[x]
         == if x.channel == channel && x.id !in keep then multiset(items)[x] else 0
  {
    if items != [] {
      var n := |items| - 1;
      PoolCounts(items[..n], keep, channel, x);
      assert items == items[..n] + [items[n]];
    }
  }

  // ---- the channels of a corpus ----

  ghost predicate AreChannels(channels: seq<Channel>, items: seq<Item>) {
    && (forall i, j | 0 <= i < j < |channels| :: channels[i].key != channels[j].key)
    && (forall i | 0 <= i < |channels| :: channels[i].count == CountIn(items, channels[i].key))
    && (forall x: Item | x in items :: exists i :: 0 <= i < |channels| && channels[i].key == x.channel)
  }

  /** The channels once `x` is counted: its channel `i` grows, or is new. */
  function Tallied(channels: seq<Channel>, i: nat, x: Item): seq<Channel>
    requires i <= |channels|
  {
    if i < |channels| then channels[i := channels[i].(count := channels[i].count + 1)]
    else channels + [Channel(x.channel, 1)]
  }

  lemma TalliedHolds(channels: seq<Channel>, items: seq<Item>, i: nat, x: Item)
    requires AreChannels(channels, items) && i <= |channels|
    requires i < |channels| ==> channels[i].key == x.channel
    requires i == |channels| ==> forall k | 0 <= k < i :: channels[k].key != x.channel
    ensures AreChannels(Tallied(channels, i, x), items + [x])
  {
    var after := Tallied(channels, i, x);
    forall c
      ensures CountIn(items + [x], c) == CountIn(items, c) + if x.channel == c then 1 else 0
    {
      CountInConcat(items, [x], c);
    }
    if i == |channels| {
      NoneIn(items, x.channel);
    }
    forall y | y in items + [x]
      ensures exists k :: 0 <= k < |after| && after[k].key == y.channel
    {
      if y in items {
        var k :| 0 <= k < |channels| && channels[k].key == y.channel;
        assert after[k].key == y.channel;
      } else {
        assert after[i].key == y.channel;
      }
    }
  }

  lemma TalliedSum(channels: seq<Channel>, i: nat, x: Item)
    requires i <= |channels|
    ensures Sum(Counts(Tallied(channels, i, x))) == Sum(Counts(channels)) + 1
  {
    var before, after := Counts(channels), Counts(Tallied(channels, i, x));
    if i < |channels| {
      assert after == before[i := before[i] + 1];
      SumUpdate(before, i, before[i] + 1);
    } else {
      assert after[..i] == before;
    }
  }

  method Channels(items: seq<Item>) returns (channels: seq<Channel>)
    ensures AreChannels(channels, items) && Sum(Counts(channels)) == |items|
  {
    channels := [];
    for n := 0 to |items|
      invariant AreChannels(channels, items[..n]) && Sum(Counts(channels)) == n
    {
      hide AreChannels, Sum, Counts;
      var x := items[n];
      var i := 0;
      while i < |channels| && channels[i].key != x.channel
        invariant i <= |channels| && forall k | 0 <= k < i :: channels[k].key != x.channel
      {
        i := i + 1;
      }
      TalliedHolds(channels, items[..n], i, x);
      assert items[..n + 1] == items[..n] + [x];
      TalliedSum(channels, i, x);
      channels := Tallied(channels, i, x);
    }
    assert items[..|items|] == items;
  }

  lemma {:induction false} NoneIn(items: seq<Item>, channel: int)
    requires forall x: Item | x in items :: x.channel != channel
    ensures CountIn(items, channel) == 0
  {
    if items != [] {
      assert items[0] in items && forall x | x in items[1..] :: x in items;
      NoneIn(items[1..], channel);
    }
  }

  // ---- the draw ----

  /** `random.sample`: so many of the pool, each position at most once. */
  ghost predicate Samples(sample: (seq<Item>, nat) -> seq<Item>) {
    forall pool, k: nat | k <= |pool| ::
      |sample(pool, k)| == k && multiset(sample(pool, k)) <= multiset(pool)
  }

  /** `chosen` holds every kept item as often as `items` does, no other item more often. */
  ghost predicate Within(chosen: seq<Item>, items: seq<Item>, keep: set<int>) {
    forall x: Item :: if x.id in keep then multiset(chosen)[x] == multiset(items)[x]
                else multiset(chosen)[x] <= multiset(items)[x]
  }

  /** Every channel has what was kept of it or its quota, whichever is more. */
  ghost predicate Filled(chosen: seq<Item>, kept: seq<Item>, channels: seq<Channel>, share: seq<nat>, n: nat)
    requires |channels| == |share|
  {
    forall i | 0 <= i < |channels| ::
      CountIn(chosen, channels[i].key)
        == Max(CountIn(kept, channels[i].key), if i < n then share[i] else 0)
  }

  /** Nothing was drawn yet from the channels from `n` on. */
  ghost predicate Untouched(chosen: seq<Item>, keep: set<int>, channels: seq<Channel>, n: nat) {
    forall x: Item, i | x in chosen && x.id !in keep && n <= i < |channels| :: channels[i].key != x.channel
  }

  method DrawChannel(
    items: seq<Item>, keep: set<int>, sample: (seq<Item>, nat) -> seq<Item>, channel: int, need: nat)
    returns (drawn: seq<Item>)
    requires Samples(sample) && need <= |Pool(items, keep, channel)|
    ensures |drawn| == need
    ensures forall x: Item :: multiset(drawn)[x] <= if x.channel == channel && x.id !in keep then multiset(items)[x] else 0
  {
    var pool := Sort(ById(), Pool(items, keep, channel));
    SortPermutes(ById(), Pool(items, keep, channel));
    drawn := sample(pool, Min(need, |pool|));
    forall x: Item
      ensures multiset(drawn)[x] <= if x.channel == channel && x.id !in keep then multiset(items)[x] else 0
    {
      PoolCounts(items, keep, channel, x);
    }
  }

  lemma DrawnKeeps(
    items: seq<Item>, keep: set<int>, channels: seq<Channel>, chosen: seq<Item>, drawn: seq<Item>, n: nat)
    requires AreChannels(channels, items) && n < |channels|
    requires Within(chosen, items, keep) && Untouched(chosen, keep, channels, n)
    requires forall x: Item :: multiset(drawn)[x] <=
               if x.channel == channels[n].key && x.id !in keep then multiset(items)[x] else 0
    ensures Within(chosen + drawn, items, keep) && Untouched(chosen + drawn, keep, channels, n + 1)
    ensures forall c :: CountIn(chosen + drawn, c)
              == CountIn(chosen, c) + if c == channels[n].key then |drawn| else 0
  {
    forall x: Item
      ensures if x.id in keep then multiset(chosen + drawn)[x] == multiset(items)[x]
              else multiset(chosen + drawn)[x] <= multiset(items)[x]
    {
      if x in drawn {
        assert multiset(drawn)[x] > 0;
        assert x !in chosen;
        assert multiset(chosen)[x] == 0;
      }
    }
    forall x: Item | x in drawn
      ensures x.channel == channels[n].key
    {
      assert multiset(drawn)[x] > 0;
    }
    forall c
      ensures CountIn(chosen + drawn, c) == CountIn(chosen, c) + if c == channels[n].key then |drawn| else 0
    {
      CountInConcat(chosen, drawn, c);
      CountInOne(drawn, channels[n].key, c);
    }
  }

  lemma SortedResult(chosen: seq<Item>, items: seq<Item>, keep: set<int>)
    requires Within(chosen, items, keep)
    ensures Within(Sort(ByChannel(), chosen), items, keep) && Sorted(ByChannel(), Sort(ByChannel(), chosen))
    ensures forall c :: CountIn(Sort(ByChannel(), chosen), c) == CountIn(chosen, c)
  {
    SortPermutes(ByChannel(), chosen);
    SortSorts(ByChannel(), chosen);
    forall c
      ensures CountIn(Sort(ByChannel(), chosen), c) == CountIn(chosen, c)
    {
      CountInSort(ByChannel(), chosen, c);
    }
  }

  /** Every quota can be met from what was kept of the channel and its pool. */
  ghost predicate CanFill(items: seq<Item>, keep: set<int>, channels: seq<Channel>, share: seq<nat>) {
    && |share| == |channels|
    && forall n | 0 <= n < |channels| ::
         share[n] <= |Pool(items, keep, channels[n].key)| + CountIn(Kept(items, keep), channels[n].key)
  }

  method DrawAll(
    items: seq<Item>, keep: set<int>, sample: (seq<Item>, nat) -> seq<Item>, channels: seq<Channel>, share: seq<nat>)
    returns (chosen: seq<Item>)
    requires Samples(sample) && AreChannels(channels, items) && CanFill(items, keep, channels, share)
    ensures Within(chosen, items, keep) && Filled(chosen, Kept(items, keep), channels, share, |channels|)
  {
    hide AreChannels, Within, Untouched, Samples, Kept, Pool;
    var kept := Kept(items, keep);
    chosen := kept;
    KeptWithin(items, keep, channels);
    for n := 0 to |channels|
      invariant Within(chosen, items, keep) && Untouched(chosen, keep, channels, n)
      invariant Filled(chosen, kept, channels, share, n)
    {
      var key := channels[n].key;
      var drawn := [];
      if share[n] > CountIn(kept, key) {
        drawn := DrawChannel(items, keep, sample, key, share[n] - CountIn(kept, key));
      }
      DrawnKeeps(items, keep, channels, chosen, drawn, n);
      KeysDiffer(channels, items, n);
      chosen := chosen + drawn;
    }
  }

  /** The sample keeps every kept item, takes nothing twice, and holds of every channel
      exactly the larger of its quota and what was kept of it. */
  method Pick(
    items: seq<Item>, wanted: int, cap: real, keep: set<int>, sample: (seq<Item>, nat) -> seq<Item>)
    returns (chosen: seq<Item>, channels: seq<Channel>, share: seq<nat>, ceiling: nat)
    requires Samples(sample)
    ensures Within(chosen, items, keep) && Sorted(ByChannel(), chosen)
    ensures AreChannels(channels, items) && |share| == |channels|
    ensures Filled(chosen, Kept(items, keep), channels, share, |channels|)
    ensures Sum(Counts(channels)) == |items|
    ensures items == [] || wanted <= 0 ==> forall i | 0 <= i < |share| :: share[i] == 0
    ensures items != [] && wanted > 0 ==>
              var size := Min(wanted, |items|);
              AreQuotas(channels, size, FirstCeiling(size, cap), share, ceiling)
  {
    hide Sum, FirstCeiling, Counts, AreChannels, Within, Samples, CanFill;
    channels := Channels(items);
    share, ceiling := Quotas.Quotas(channels, wanted, cap);
    ShareFits(items, keep, channels, share, wanted, cap, ceiling);
    chosen := DrawAll(items, keep, sample, channels, share);
    SortedResult(chosen, items, keep);
    chosen := Sort(ByChannel(), chosen);
  }

  /** The sample comes channel by channel, on each the earlier first. */
  lemma SampleInOrder(chosen: seq<Item>, i: nat, j: nat)
    requires Sorted(ByChannel(), chosen) && i < j < |chosen|
    ensures || chosen[i].channel < chosen[j].channel
            || (chosen[i].channel == chosen[j].channel && chosen[i].published <= chosen[j].published)
  {
    assert ByChannel()(chosen[i], chosen[j]);
  }

  lemma KeysDiffer(channels: seq<Channel>, items: seq<Item>, n: nat)
    requires AreChannels(channels, items) && n < |channels|
    ensures forall i | 0 <= i < |channels| && i != n :: channels[i].key != channels[n].key
  {
  }

  lemma KeptWithin(items: seq<Item>, keep: set<int>, channels: seq<Channel>)
    ensures Within(Kept(items, keep), items, keep) && Untouched(Kept(items, keep), keep, channels, 0)
  {
    forall x: Item
      ensures multiset(Kept(items, keep))[x] == if x.id in keep then multiset(items)[x] else 0
    {
      KeptCounts(items, keep, x);
    }
    forall x | x in Kept(items, keep)
      ensures x.id in keep
    {
      assert multiset(Kept(items, keep))[x] > 0;
    }
  }

  lemma ShareFits(
    items: seq<Item>, keep: set<int>, channels: seq<Channel>, share: seq<nat>, wanted: int, cap: real, ceiling: nat)
    requires AreChannels(channels, items) && |share| == |channels|
    requires Sum(Counts(channels)) == 0 || wanted <= 0 ==> forall i | 0 <= i < |share| :: share[i] == 0
    requires Sum(Counts(channels)) > 0 && wanted > 0 ==>
               var size := Min(wanted, Sum(Counts(channels)));
               AreQuotas(channels, size, FirstCeiling(size, cap), share, ceiling)
    ensures CanFill(items, keep, channels, share)
  {
    hide Sum, Counts, FirstCeiling;
    forall n | 0 <= n < |channels|
      ensures share[n] <= |Pool(items, keep, channels[n].key)| + CountIn(Kept(items, keep), channels[n].key)
    {
      Splits(items, keep, channels[n].key);
    }
  }
}
