/** From linked posts to groups of reposts, and from groups to the posts a sample keeps. */
module DuplicateGroups {
  import opened SimilarityGraph
  import opened UnionFind
  import opened Duplicates
  import opened Sorting

  /** A group of reposts, by position: its earliest post and the rest with their scores. */
  datatype Group = Group(origin: nat, copies: seq<(nat, real)>)

  predicate KeyLeq(a: Post, b: Post) {
    a.published < b.published || (a.published == b.published && a.id <= b.id)
  }

  function ByKey(posts: seq<Post>): (nat, nat) -> bool {
    (i: nat, j: nat) => i < |posts| && j < |posts| && KeyLeq(posts[i], posts[j])
  }

  function BySize(posts: seq<Post>): (Group, Group) -> bool {
    (g: Group, h: Group) =>
      && g.origin < |posts| && h.origin < |posts|
      && (|g.copies| > |h.copies|
          || (|g.copies| == |h.copies| && posts[g.origin].published <= posts[h.origin].published))
  }

  function Positions(g: Group): set<nat> {
    {g.origin} + set k | 0 <= k < |g.copies| :: g.copies[k].0
  }

  /** `g` is one whole connected component, led by its earliest post, each copy with
      the weight of its best edge. */
  ghost predicate IsGroup(posts: seq<Post>, threshold: real, g: Group) {
    && g.origin < |posts| && |g.copies| > 0
    && (forall x: nat :: x in Positions(g) <==> x < |posts| && Connected(posts, threshold, g.origin, x))
    && (forall k | 0 <= k < |g.copies| :: g.copies[k].0 < |posts| && g.copies[k].0 != g.origin)
    && (forall k, m | 0 <= k < m < |g.copies| :: g.copies[k].0 != g.copies[m].0)
    && (forall k | 0 <= k < |g.copies| :: KeyLeq(posts[g.origin], posts[g.copies[k].0]))
    && (forall k, m | 0 <= k < m < |g.copies| :: KeyLeq(posts[g.copies[k].0], posts[g.copies[m].0]))
    && (forall k | 0 <= k < |g.copies| ::
          IsBestScore(posts, threshold, g.copies[k].0, g.copies[k].1) && g.copies[k].1 >= threshold)
  }

  /** The groups are exactly the components of two or more posts, each once. */
  ghost predicate AreGroups(posts: seq<Post>, threshold: real, groups: seq<Group>) {
    && (forall g | g in groups :: IsGroup(posts, threshold, g))
    && Distinct(groups)
    && (forall g, h | g in groups && h in groups && g != h :: Positions(g) !! Positions(h))
    && (forall x: nat, y: nat | x < |posts| && y < |posts| && x != y && Connected(posts, threshold, x, y) ::
          exists g :: g in groups && x in Positions(g))
  }

  // ---- clusters ----

  /** `members` are the posts before `limit` that have shingles and representative `r`. */
  ghost predicate IsCluster(posts: seq<Post>, rep: seq<nat>, r: nat, limit: nat, members: seq<nat>)
    requires limit <= |posts| == |rep|
  {
    && Distinct(members)
    && forall x: nat :: x in members <==> x < limit && posts[x].shingles != {} && rep[x] == r
  }

  ghost predicate Clustered(
    posts: seq<Post>, rep: seq<nat>, clusters: map<nat, seq<nat>>, keys: seq<nat>, limit: nat)
    requires limit <= |posts| == |rep|
  {
    && Distinct(keys) && (forall r :: r in keys <==> r in clusters)
    && (forall r | r in clusters :: IsCluster(posts, rep, r, limit, clusters[r]))
    && (forall x: nat | x < limit && posts[x].shingles != {} :: rep[x] in clusters)
  }

  function Joined(clusters: map<nat, seq<nat>>, r: nat, position: nat): map<nat, seq<nat>> {
    clusters[r := (if r in clusters then clusters[r] else []) + [position]]
  }

  lemma JoinedKeeps(
    posts: seq<Post>, rep: seq<nat>, clusters: map<nat, seq<nat>>, keys: seq<nat>, position: nat)
    requires position < |posts| == |rep| && posts[position].shingles != {}
    requires Clustered(posts, rep, clusters, keys, position)
    ensures var r := rep[position];
            Clustered(posts, rep, Joined(clusters, r, position), if r in clusters then keys else keys + [r], position + 1)
  {
    var r := rep[position];
    var next := Joined(clusters, r, position);
    forall q | q in next
      ensures IsCluster(posts, rep, q, position + 1, next[q])
    {
      if q != r {
        assert q in clusters;
      }
    }
  }

  lemma SkippedKeeps(
    posts: seq<Post>, rep: seq<nat>, clusters: map<nat, seq<nat>>, keys: seq<nat>, position: nat)
    requires position < |posts| == |rep| && posts[position].shingles == {}
    requires Clustered(posts, rep, clusters, keys, position)
    ensures Clustered(posts, rep, clusters, keys, position + 1)
  {
    forall r | r in clusters
      ensures IsCluster(posts, rep, r, position + 1, clusters[r])
    {
      assert IsCluster(posts, rep, r, position, clusters[r]);
    }
  }

  method Cluster(posts: seq<Post>, parent: array<nat>, ghost rep: seq<nat>, ghost height: seq<nat>)
    returns (clusters: map<nat, seq<nat>>, keys: seq<nat>)
    requires parent.Length == |posts| && Forest(parent[..], rep, height)
    modifies parent
    ensures |rep| == |posts| && Clustered(posts, rep, clusters, keys, |posts|)
  {
    clusters, keys := map[], [];
    var position := 0;
    while position < |posts|
      invariant position <= |posts| == |rep| && Forest(parent[..], rep, height)
      invariant Clustered(posts, rep, clusters, keys, position)
    {
      hide Forest, Clustered, Joined;
      if posts[position].shingles != {} {
        var r := Root(parent, position, rep, height);
        JoinedKeeps(posts, rep, clusters, keys, position);
        clusters, keys := Joined(clusters, r, position), if r in clusters then keys else keys + [r];
      } else {
        SkippedKeeps(posts, rep, clusters, keys, position);
      }
      position := position + 1;
    }
  }

  // ---- groups ----

  function MakeGroup(posts: seq<Post>, best: map<nat, real>, members: seq<nat>): Group
    requires |members| > 0
  {
    var sorted := Sort(ByKey(posts), members);
    Group(sorted[0], seq(|members| - 1, k requires 0 <= k < |members| - 1 =>
      (sorted[k + 1], if sorted[k + 1] in best then best[sorted[k + 1]] else 0.0)))
  }

  lemma GroupIsComponent(
    posts: seq<Post>, threshold: real, rep: seq<nat>, r: nat, members: seq<nat>, x: nat, y: nat)
    requires Partition(posts, threshold, rep, |posts| - 1, {})
    requires IsCluster(posts, rep, r, |posts|, members) && x in members
    ensures x < |posts| && (y in members && y != x ==>
              y < |posts| && exists j: nat :: Edge(posts, threshold, y, j))
    ensures y < |posts| && Connected(posts, threshold, x, y) ==> y in members
    ensures y in members ==> Connected(posts, threshold, x, y)
  {
    if y < |posts| {
      RepIsComponent(posts, threshold, rep, x, y);
      if Connected(posts, threshold, x, y) && y != x {
        LinkedHasEdge(posts, threshold, x, y);
      }
    }
  }

  /** A post connected to another one has an edge, and so has shingles. */
  lemma LinkedHasEdge(posts: seq<Post>, threshold: real, x: nat, y: nat)
    requires x != y && Connected(posts, threshold, x, y)
    ensures exists j: nat :: Edge(posts, threshold, y, j)
  {
    var path :| IsPath(posts, threshold, path) && path[0] == x && path[|path| - 1] == y;
    assert |path| > 1;
    assert Hop(posts, threshold, path, |path| - 2);
    EdgeSymmetric(posts, threshold, path[|path| - 2], y);
  }

  lemma MakesGroup(
    posts: seq<Post>, threshold: real, rep: seq<nat>, best: map<nat, real>, r: nat, members: seq<nat>)
    requires Partition(posts, threshold, rep, |posts| - 1, {}) && BestSoFar(posts, threshold, best, |posts| - 1, {})
    requires IsCluster(posts, rep, r, |posts|, members) && |members| >= 2
    ensures IsGroup(posts, threshold, MakeGroup(posts, best, members))
    ensures forall x: nat :: x in Positions(MakeGroup(posts, best, members)) <==> x in members
  {
    var g := MakeGroup(posts, best, members);
    GroupSorts(posts, best, members);
    forall x: nat
      ensures x in members <==> x < |posts| && Connected(posts, threshold, g.origin, x)
    {
      GroupIsComponent(posts, threshold, rep, r, members, g.origin, x);
    }
    forall k | 0 <= k < |g.copies|
      ensures IsBestScore(posts, threshold, g.copies[k].0, g.copies[k].1) && g.copies[k].1 >= threshold
    {
      var x := g.copies[k].0;
      assert x in Positions(g);
      GroupIsComponent(posts, threshold, rep, r, members, g.origin, x);
      BestIsBest(posts, threshold, best, x);
    }
  }

  /** Making a group sorts its members by key, the earliest first, and loses none. */
  lemma GroupSorts(posts: seq<Post>, best: map<nat, real>, members: seq<nat>)
    requires |members| >= 2 && Distinct(members) && forall x | x in members :: x < |posts|
    ensures var g := MakeGroup(posts, best, members);
            && g.origin < |posts| && |g.copies| == |members| - 1
            && (forall x: nat :: x in Positions(g) <==> x in members)
            && (forall k | 0 <= k < |g.copies| ::
                  && g.copies[k].0 < |posts| && g.copies[k].0 != g.origin
                  && KeyLeq(posts[g.origin], posts[g.copies[k].0])
                  && g.copies[k].1 == if g.copies[k].0 in best then best[g.copies[k].0] else 0.0)
            && (forall k, m | 0 <= k < m < |g.copies| ::
                  g.copies[k].0 != g.copies[m].0 && KeyLeq(posts[g.copies[k].0], posts[g.copies[m].0]))
  {
    var sorted := Sort(ByKey(posts), members);
    var g := MakeGroup(posts, best, members);
    SortPermutes(ByKey(posts), members);
    SortSorts(ByKey(posts), members);
    SameElements(sorted, members);
    DistinctPermutes(members, sorted);
    assert forall k | 0 <= k < |g.copies| :: g.copies[k].0 == sorted[k + 1];
    forall x: nat
      ensures x in Positions(g) <==> x in sorted
    {
      if x in sorted && x != g.origin {
        var k :| 0 <= k < |sorted| && sorted[k] == x;
        assert g.copies[k - 1].0 == x;
      }
    }
  }

  ghost predicate ComesFrom(
    posts: seq<Post>, best: map<nat, real>, clusters: map<nat, seq<nat>>, keys: seq<nat>, g: Group)
    requires forall r | r in keys :: r in clusters
  {
    exists r :: r in keys && |clusters[r]| >= 2 && g == MakeGroup(posts, best, clusters[r])
  }

  /** `groups` are the groups of those of `keys` whose cluster has two posts or more. */
  ghost predicate Built(
    posts: seq<Post>, best: map<nat, real>, clusters: map<nat, seq<nat>>, keys: seq<nat>, groups: seq<Group>)
    requires forall r | r in keys :: r in clusters
  {
    && Distinct(groups)
    && (forall g | g in groups :: ComesFrom(posts, best, clusters, keys, g))
    && (forall r | r in keys && |clusters[r]| >= 2 :: MakeGroup(posts, best, clusters[r]) in groups)
  }

  lemma DifferentGroups(
    posts: seq<Post>, threshold: real, rep: seq<nat>, best: map<nat, real>,
    r: nat, members: seq<nat>, q: nat, others: seq<nat>)
    requires Partition(posts, threshold, rep, |posts| - 1, {}) && BestSoFar(posts, threshold, best, |posts| - 1, {})
    requires IsCluster(posts, rep, r, |posts|, members) && |members| >= 2
    requires IsCluster(posts, rep, q, |posts|, others) && |others| >= 2
    requires r != q
    ensures Positions(MakeGroup(posts, best, members)) !! Positions(MakeGroup(posts, best, others))
    ensures MakeGroup(posts, best, members) != MakeGroup(posts, best, others)
  {
    MakesGroup(posts, threshold, rep, best, r, members);
    MakesGroup(posts, threshold, rep, best, q, others);
    assert MakeGroup(posts, best, members).origin in Positions(MakeGroup(posts, best, members));
    assert MakeGroup(posts, best, others).origin in Positions(MakeGroup(posts, best, others));
  }

  lemma BuiltAreGroups(
    posts: seq<Post>, threshold: real, rep: seq<nat>, best: map<nat, real>,
    clusters: map<nat, seq<nat>>, keys: seq<nat>, groups: seq<Group>)
    requires Partition(posts, threshold, rep, |posts| - 1, {}) && BestSoFar(posts, threshold, best, |posts| - 1, {})
    requires Clustered(posts, rep, clusters, keys, |posts|) && Built(posts, best, clusters, keys, groups)
    ensures AreGroups(posts, threshold, groups)
  {
    forall g | g in groups
      ensures IsGroup(posts, threshold, g)
    {
      var r :| r in keys && |clusters[r]| >= 2 && g == MakeGroup(posts, best, clusters[r]);
      MakesGroup(posts, threshold, rep, best, r, clusters[r]);
    }
    forall g, h | g in groups && h in groups && g != h
      ensures Positions(g) !! Positions(h)
    {
      var r :| r in keys && |clusters[r]| >= 2 && g == MakeGroup(posts, best, clusters[r]);
      var q :| q in keys && |clusters[q]| >= 2 && h == MakeGroup(posts, best, clusters[q]);
      DifferentGroups(posts, threshold, rep, best, r, clusters[r], q, clusters[q]);
    }
    forall x: nat, y: nat | x < |posts| && y < |posts| && x != y && Connected(posts, threshold, x, y)
      ensures exists g :: g in groups && x in Positions(g)
    {
      ClusterOfPair(posts, threshold, rep, clusters, keys, x, y);
      MakesGroup(posts, threshold, rep, best, rep[x], clusters[rep[x]]);
      assert MakeGroup(posts, best, clusters[rep[x]]) in groups;
    }
  }

  lemma ClusterOfPair(
    posts: seq<Post>, threshold: real, rep: seq<nat>, clusters: map<nat, seq<nat>>, keys: seq<nat>, x: nat, y: nat)
    requires Partition(posts, threshold, rep, |posts| - 1, {}) && Clustered(posts, rep, clusters, keys, |posts|)
    requires x < |posts| && y < |posts| && x != y && Connected(posts, threshold, x, y)
    ensures rep[x] in keys && rep[x] in clusters && x in clusters[rep[x]] && |clusters[rep[x]]| >= 2
  {
    ConnectedSymmetric(posts, threshold, x, y);
    LinkedHasEdge(posts, threshold, x, y);
    LinkedHasEdge(posts, threshold, y, x);
    RepIsComponent(posts, threshold, rep, x, y);
    assert IsCluster(posts, rep, rep[x], |posts|, clusters[rep[x]]);
    assert x in clusters[rep[x]] && y in clusters[rep[x]];
  }

  /** Groups of reposts: exactly the connected components of two or more posts, each led
      by its earliest post, the largest groups first. */
  method FindGroups(posts: seq<Post>, threshold: real) returns (groups: seq<Group>)
    ensures AreGroups(posts, threshold, groups)
    ensures Sorted(BySize(posts), groups)
  {
    var parent, best, rep, height := LinkPosts(posts, threshold);
    var clusters, keys := Cluster(posts, parent, rep, height);
    var built: seq<Group> := [];
    for k := 0 to |keys|
      invariant Built(posts, best, clusters, keys[..k], built)
    {
      var members := clusters[keys[k]];
      BuiltAdds(posts, threshold, rep, best, clusters, keys, k, built);
      if |members| >= 2 {
        built := built + [MakeGroup(posts, best, members)];
      }
    }
    assert keys[..|keys|] == keys;
    BuiltAreGroups(posts, threshold, rep, best, clusters, keys, built);
    groups := Sort(BySize(posts), built);
    SortPermutes(BySize(posts), built);
    SameElements(groups, built);
    DistinctPermutes(built, groups);
    SortSorts(BySize(posts), built);
  }

  lemma BuiltAdds(
    posts: seq<Post>, threshold: real, rep: seq<nat>, best: map<nat, real>,
    clusters: map<nat, seq<nat>>, keys: seq<nat>, k: nat, built: seq<Group>)
    requires Partition(posts, threshold, rep, |posts| - 1, {}) && BestSoFar(posts, threshold, best, |posts| - 1, {})
    requires Clustered(posts, rep, clusters, keys, |posts|) && k < |keys|
    requires Built(posts, best, clusters, keys[..k], built)
    ensures var members := clusters[keys[k]];
            Built(posts, best, clusters, keys[..k + 1],
                  if |members| >= 2 then built + [MakeGroup(posts, best, members)] else built)
  {
    hide Partition, BestSoFar, MakeGroup, IsCluster;
    var members := clusters[keys[k]];
    var before, after := keys[..k], keys[..k + 1];
    assert after == before + [keys[k]];
    forall g | g in built
      ensures ComesFrom(posts, best, clusters, after, g)
      ensures |members| >= 2 ==> g != MakeGroup(posts, best, members)
    {
      assert ComesFrom(posts, best, clusters, before, g);
      var r :| r in before && |clusters[r]| >= 2 && g == MakeGroup(posts, best, clusters[r]);
      assert r in after;
      if |members| >= 2 {
        DifferentGroups(posts, threshold, rep, best, r, clusters[r], keys[k], members);
      }
    }
    if |members| >= 2 {
      var g := MakeGroup(posts, best, members);
      assert keys[k] in after;
      assert ComesFrom(posts, best, clusters, after, g);
      assert Distinct(built + [g]);
    }
    forall r | r in after && |clusters[r]| >= 2
      ensures MakeGroup(posts, best, clusters[r]) in (if |members| >= 2 then built + [MakeGroup(posts, best, members)] else built)
    {
      assert r in before || r == keys[k];
      if r in before {
        assert MakeGroup(posts, best, clusters[r]) in built;
      }
    }
  }

  /** By the columns: a group's origin was published before its copies, or as early with no
      larger id, and so was each copy before the next. */
  lemma OriginIsEarliest(posts: seq<Post>, threshold: real, g: Group, k: nat)
    requires IsGroup(posts, threshold, g) && k < |g.copies|
    ensures g.copies[k].0 < |posts| && Before(posts[g.origin], posts[g.copies[k].0])
    ensures k > 0 ==> g.copies[k - 1].0 < |posts| && Before(posts[g.copies[k - 1].0], posts[g.copies[k].0])
  {
  }

  predicate Before(a: Post, b: Post) {
    a.published < b.published || (a.published == b.published && a.id <= b.id)
  }

  /** Groups of more copies come first, and of as many those whose origin is earlier. */
  lemma LargerGroupsFirst(posts: seq<Post>, groups: seq<Group>, i: nat, j: nat)
    requires Sorted(BySize(posts), groups) && i < j < |groups|
    ensures groups[i].origin < |posts| && groups[j].origin < |posts|
    ensures || |groups[i].copies| > |groups[j].copies|
            || (|groups[i].copies| == |groups[j].copies|
                && posts[groups[i].origin].published <= posts[groups[j].origin].published)
  {
    assert BySize(posts)(groups[i], groups[j]);
  }

  // ---- what a sample keeps ----

  function CopyIds(posts: seq<Post>, groups: seq<Group>): set<int>
    requires forall g, k | g in groups && 0 <= k < |g.copies| :: g.copies[k].0 < |posts|
  {
    set g, k | g in groups && 0 <= k < |g.copies| :: posts[g.copies[k].0].id
  }

  /** With distinct ids, dropping the copies leaves exactly one post of every component. */
  lemma KeepsOnePerComponent(posts: seq<Post>, threshold: real, groups: seq<Group>, x: nat) returns (kept: nat)
    requires AreGroups(posts, threshold, groups) && x < |posts|
    requires forall i, j | 0 <= i < j < |posts| :: posts[i].id != posts[j].id
    ensures kept < |posts| && Connected(posts, threshold, x, kept)
    ensures forall k: nat | k < |posts| && Connected(posts, threshold, x, k) ::
              posts[k].id !in CopyIds(posts, groups) <==> k == kept
  {
    if y: nat :| y < |posts| && y != x && Connected(posts, threshold, x, y) {
      var g :| g in groups && x in Positions(g);
      kept := g.origin;
      ConnectedSymmetric(posts, threshold, kept, x);
      forall k: nat | k < |posts| && Connected(posts, threshold, x, k)
        ensures posts[k].id !in CopyIds(posts, groups) <==> k == kept
      {
        ConnectedTransitive(posts, threshold, kept, x, k);
        CopyOrOrigin(posts, threshold, groups, g, k);
      }
    } else {
      kept := x;
      ConnectedSelf(posts, threshold, x);
      AloneIsKept(posts, threshold, groups, x);
    }
  }

  lemma CopyOrOrigin(posts: seq<Post>, threshold: real, groups: seq<Group>, g: Group, k: nat)
    requires AreGroups(posts, threshold, groups) && g in groups && k in Positions(g)
    requires forall i, j | 0 <= i < j < |posts| :: posts[i].id != posts[j].id
    ensures k < |posts| && (posts[k].id in CopyIds(posts, groups) <==> k != g.origin)
  {
    if posts[k].id in CopyIds(posts, groups) {
      var h, m :| h in groups && 0 <= m < |h.copies| && posts[h.copies[m].0].id == posts[k].id;
      assert h.copies[m].0 == k && k in Positions(h);
      assert h == g;
    }
  }

  lemma AloneIsKept(posts: seq<Post>, threshold: real, groups: seq<Group>, x: nat)
    requires AreGroups(posts, threshold, groups) && x < |posts|
    requires forall i, j | 0 <= i < j < |posts| :: posts[i].id != posts[j].id
    requires forall y: nat | y < |posts| && Connected(posts, threshold, x, y) :: y == x
    ensures posts[x].id !in CopyIds(posts, groups)
  {
    if posts[x].id in CopyIds(posts, groups) {
      var h, m :| h in groups && 0 <= m < |h.copies| && posts[h.copies[m].0].id == posts[x].id;
      assert h.copies[m].0 == x && x in Positions(h);
      ConnectedSymmetric(posts, threshold, h.origin, x);
    }
  }

  datatype Item = Item(post: Post, rejected: bool)

  function Alive(items: seq<Item>): seq<Post> {
    if items == [] then []
    else (if items[0].rejected then [] else [items[0].post]) + Alive(items[1..])
  }

  function Without(posts: seq<Post>, ids: set<int>): seq<Post> {
    if posts == [] then []
    else (if posts[0].id in ids then [] else [posts[0]]) + Without(posts[1..], ids)
  }

  lemma {:induction false} WithoutIs(posts: seq<Post>, ids: set<int>)
    ensures forall p :: p in Without(posts, ids) <==> p in posts && p.id !in ids
    ensures |Without(posts, ids)| <= |posts|
  {
    if posts != [] {
      WithoutIs(posts[1..], ids);
    }
  }

  lemma {:induction false} AliveIs(items: seq<Item>)
    ensures forall p :: p in Alive(items) <==> exists i :: 0 <= i < |items| && !items[i].rejected && items[i].post == p
  {
    if items != [] {
      AliveIs(items[1..]);
      forall p
        ensures p in Alive(items) <==> exists i :: 0 <= i < |items| && !items[i].rejected && items[i].post == p
      {
        if p in Alive(items[1..]) {
          var i :| 0 <= i < |items[1..]| && !items[1..][i].rejected && items[1..][i].post == p;
          assert items[i + 1] == items[1..][i];
        }
        if i :| 0 <= i < |items| && !items[i].rejected && items[i].post == p {
          assert i > 0 ==> items[1..][i - 1] == items[i];
        }
      }
    }
  }

  /** Of the component of `x` exactly one post is among those kept. */
  ghost predicate OneKept(posts: seq<Post>, threshold: real, kept: seq<Post>, x: nat) {
    exists y: nat :: y < |posts| && Connected(posts, threshold, x, y) && KeptAlone(posts, threshold, kept, x, y)
  }

  ghost predicate KeptAlone(posts: seq<Post>, threshold: real, kept: seq<Post>, x: nat, y: nat) {
    forall k: nat | k < |posts| && Connected(posts, threshold, x, k) :: posts[k] in kept <==> k == y
  }

  lemma OneIsKept(posts: seq<Post>, threshold: real, groups: seq<Group>, x: nat)
    requires AreGroups(posts, threshold, groups) && x < |posts|
    requires forall i, j | 0 <= i < j < |posts| :: posts[i].id != posts[j].id
    ensures OneKept(posts, threshold, Without(posts, CopyIds(posts, groups)), x)
  {
    WithoutIs(posts, CopyIds(posts, groups));
    var y := KeepsOnePerComponent(posts, threshold, groups, x);
    hide AreGroups, Without, CopyIds, Connected;
    assert KeptAlone(posts, threshold, Without(posts, CopyIds(posts, groups)), x, y);
  }

  /** The posts worth labelling: live ones, less the copies among them. With distinct
      ids that is one post of every component of live posts, and no other. */
  method Candidates(items: seq<Item>, threshold: real) returns (kept: seq<Post>, groups: seq<Group>)
    ensures AreGroups(Alive(items), threshold, groups)
    ensures kept == Without(Alive(items), CopyIds(Alive(items), groups))
    ensures forall p | p in kept :: exists i :: 0 <= i < |items| && !items[i].rejected && items[i].post == p
    ensures (forall i, j | 0 <= i < j < |Alive(items)| :: Alive(items)[i].id != Alive(items)[j].id) ==>
              forall x: nat | x < |Alive(items)| :: OneKept(Alive(items), threshold, kept, x)
  {
    var alive := Alive(items);
    groups := FindGroups(alive, threshold);
    kept := Without(alive, CopyIds(alive, groups));
    AliveIs(items);
    WithoutIs(alive, CopyIds(alive, groups));
    hide AreGroups, OneKept, Alive, Without, CopyIds;
    if forall i, j | 0 <= i < j < |alive| :: alive[i].id != alive[j].id {
      forall x: nat | x < |alive|
        ensures OneKept(alive, threshold, kept, x)
      {
        OneIsKept(alive, threshold, groups, x);
      }
    }
  }
}
