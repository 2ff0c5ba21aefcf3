/** `find_groups`: an inverted shingle index feeds a union-find, and each class of two
    or more posts becomes a group. */
module Duplicates {
  import opened SimilarityGraph
  import opened UnionFind
  import Sorting

  type Bucket = map<string, seq<nat>>

  predicate Lists(index: Bucket, w: string, q: nat) {
    w in index && q in index[w]
  }

  /** `index` lists, under each shingle, the posts before `limit` that have it. */
  ghost predicate IndexOf(posts: seq<Post>, index: Bucket, limit: nat)
    requires limit <= |posts|
  {
    && (forall w, q: nat | Lists(index, w, q) :: q < limit && w in posts[q].shingles)
    && (forall q: nat, w | q < limit && w in posts[q].shingles :: Lists(index, w, q))
  }

  /** The earlier posts that share a shingle with `position`. */
  method FindCandidates(posts: seq<Post>, index: Bucket, position: nat) returns (found: set<nat>)
    requires position < |posts| && IndexOf(posts, index, position)
    ensures forall q: nat :: q in found <==> q < position && posts[q].shingles * posts[position].shingles != {}
  {
    var own := posts[position].shingles;
    found := {};
    var todo := own;
    while todo != {}
      invariant todo <= own
      invariant forall q: nat | q in found :: q < position && posts[q].shingles * own != {}
      invariant forall q: nat, w | q < position && w in posts[q].shingles && w in own && w !in todo :: q in found
    {
      var shingle :| shingle in todo;
      if shingle in index {
        var hits := set q | q in index[shingle] && q < position;
        forall q: nat | q in hits
          ensures posts[q].shingles * own != {}
        {
          assert Lists(index, shingle, q);
          assert shingle in posts[q].shingles * own;
        }
        found := found + hits;
      }
      assert forall q: nat | q < position && shingle in posts[q].shingles :: Lists(index, shingle, q);
      todo := todo - {shingle};
    }
    forall q: nat | q < position && posts[q].shingles * own != {}
      ensures q in found
    {
      var w :| w in posts[q].shingles * own;
    }
  }

  // ---- what has been linked so far ----

  /** The edges met: all among posts before `position`, and from `position` to those
      earlier posts no longer in `todo`. */
  predicate Met(posts: seq<Post>, threshold: real, position: int, todo: set<nat>, i: nat, j: nat) {
    Edge(posts, threshold, i, j) && j < i && (i < position || (i == position && j !in todo))
  }

  ghost predicate Partition(posts: seq<Post>, threshold: real, rep: seq<nat>, position: int, todo: set<nat>) {
    && |rep| == |posts|
    && (forall i: nat, j: nat | Met(posts, threshold, position, todo, i, j) :: rep[i] == rep[j])
    && (forall i: nat, j: nat | i < |posts| && j < |posts| && rep[i] == rep[j] :: Connected(posts, threshold, i, j))
  }

  ghost predicate WeighsEdge(posts: seq<Post>, threshold: real, x: nat, score: real) {
    exists j: nat :: Edge(posts, threshold, x, j) && Score(posts, x, j) == score
  }

  ghost predicate BestSoFar(
    posts: seq<Post>, threshold: real, best: map<nat, real>, position: int, todo: set<nat>)
  {
    && (forall i: nat, j: nat | Met(posts, threshold, position, todo, i, j) ::
          i in best && j in best && Score(posts, i, j) <= best[i] && Score(posts, i, j) <= best[j])
    && (forall x | x in best :: WeighsEdge(posts, threshold, x, best[x]))
  }

  function Larger(best: map<nat, real>, x: nat, score: real): map<nat, real> {
    var before := if x in best then best[x] else 0.0;
    best[x := if before < score then score else before]
  }

  lemma LargerKeeps(
    posts: seq<Post>, threshold: real, best: map<nat, real>, position: nat, todo: set<nat>, other: nat)
    requires BestSoFar(posts, threshold, best, position, todo)
    requires Edge(posts, threshold, position, other) && other < position && other in todo
    ensures var score := Score(posts, position, other);
            BestSoFar(posts, threshold, Larger(Larger(best, position, score), other, score), position, todo - {other})
  {
    var score := Score(posts, position, other);
    EdgeSymmetric(posts, threshold, position, other);
    var next := Larger(Larger(best, position, score), other, score);
    forall i: nat, j: nat | Met(posts, threshold, position, todo - {other}, i, j)
      ensures i in next && j in next && Score(posts, i, j) <= next[i] && Score(posts, i, j) <= next[j]
    {
      if !(i == position && j == other) {
        assert Met(posts, threshold, position, todo, i, j);
      }
    }
  }

  lemma LinkedPartition(
    posts: seq<Post>, threshold: real, rep: seq<nat>, position: nat, todo: set<nat>, other: nat)
    requires Partition(posts, threshold, rep, position, todo)
    requires Edge(posts, threshold, position, other) && other < position
    ensures Partition(posts, threshold, Linked(rep, rep[position], rep[other]), position, todo - {other})
  {
    var next := Linked(rep, rep[position], rep[other]);
    ConnectedEdge(posts, threshold, position, other);
    ConnectedSymmetric(posts, threshold, position, other);
    forall i: nat, j: nat | Met(posts, threshold, position, todo - {other}, i, j)
      ensures next[i] == next[j]
    {
      if !(i == position && j == other) {
        assert Met(posts, threshold, position, todo, i, j);
      }
    }
    forall i: nat, j: nat | i < |posts| && j < |posts| && next[i] == next[j]
      ensures Connected(posts, threshold, i, j)
    {
      if rep[i] != rep[j] {
        if rep[i] == rep[position] {
          ConnectedTransitive(posts, threshold, i, position, other);
          ConnectedTransitive(posts, threshold, i, other, j);
        } else {
          ConnectedTransitive(posts, threshold, i, other, position);
          ConnectedTransitive(posts, threshold, i, position, j);
        }
      }
    }
  }

  /** Links `position` to each candidate that is close enough. */
  method LinkCandidates(
    posts: seq<Post>, threshold: real, position: nat, candidates: set<nat>, parent: array<nat>,
    best0: map<nat, real>, ghost rep0: seq<nat>, ghost height0: seq<nat>)
    returns (best: map<nat, real>, ghost rep: seq<nat>, ghost height: seq<nat>)
    requires position < |posts| == parent.Length && Forest(parent[..], rep0, height0)
    requires forall q | q in candidates :: q < position && posts[q].shingles * posts[position].shingles != {}
    requires Partition(posts, threshold, rep0, position, candidates)
    requires BestSoFar(posts, threshold, best0, position, candidates)
    modifies parent
    ensures |rep| == |posts| && Forest(parent[..], rep, height)
    ensures Partition(posts, threshold, rep, position, {})
    ensures BestSoFar(posts, threshold, best, position, {})
  {
    best, rep, height := best0, rep0, height0;
    var todo := candidates;
    while todo != {}
      invariant todo <= candidates && Forest(parent[..], rep, height)
      invariant Partition(posts, threshold, rep, position, todo)
      invariant BestSoFar(posts, threshold, best, position, todo)
    {
      var other :| other in todo;
      var score := Similarity(posts[position].shingles, posts[other].shingles);
      if score >= threshold && SameEvent(posts[position].dates, posts[other].dates) {
        LargerKeeps(posts, threshold, best, position, todo, other);
        LinkedPartition(posts, threshold, rep, position, todo, other);
        best := Larger(Larger(best, position, score), other, score);
        rep, height := Join(parent, position, other, rep, height);
      } else {
        FewerMet(posts, threshold, rep, best, position, todo, position, todo - {other});
      }
      todo := todo - {other};
    }
  }

  /** What holds of more edges met holds of fewer. */
  lemma FewerMet(
    posts: seq<Post>, threshold: real, rep: seq<nat>, best: map<nat, real>,
    position: int, todo: set<nat>, position': int, todo': set<nat>)
    requires Partition(posts, threshold, rep, position, todo) && BestSoFar(posts, threshold, best, position, todo)
    requires forall i: nat, j: nat | Met(posts, threshold, position', todo', i, j) ::
               Met(posts, threshold, position, todo, i, j)
    ensures Partition(posts, threshold, rep, position', todo') && BestSoFar(posts, threshold, best, position', todo')
  {
  }

  lemma EnterPosition(
    posts: seq<Post>, threshold: real, rep: seq<nat>, best: map<nat, real>, position: nat, candidates: set<nat>)
    requires position < |posts|
    requires Partition(posts, threshold, rep, position - 1, {}) && BestSoFar(posts, threshold, best, position - 1, {})
    requires forall q: nat | q < position && posts[q].shingles * posts[position].shingles != {} :: q in candidates
    ensures Partition(posts, threshold, rep, position, candidates)
    ensures BestSoFar(posts, threshold, best, position, candidates)
  {
    assert forall i: nat, j: nat | Met(posts, threshold, position, candidates, i, j) ::
      Met(posts, threshold, position - 1, {}, i, j) by
    {
      forall i: nat, j: nat | Met(posts, threshold, position, candidates, i, j)
        ensures Met(posts, threshold, position - 1, {}, i, j)
      {
      }
    }
    FewerMet(posts, threshold, rep, best, position - 1, {}, position, candidates);
  }

  method AddToIndex(posts: seq<Post>, index0: Bucket, position: nat) returns (index: Bucket)
    requires position < |posts| && IndexOf(posts, index0, position)
    ensures IndexOf(posts, index, position + 1)
  {
    index := index0;
    var own := posts[position].shingles;
    var words := own;
    while words != {}
      invariant words <= own
      invariant forall w, q: nat | Lists(index, w, q) ::
                  q <= position && w in posts[q].shingles && (q == position ==> w !in words)
      invariant forall q: nat, w | q < position && w in posts[q].shingles :: Lists(index, w, q)
      invariant forall w | w in own && w !in words :: Lists(index, w, position)
    {
      var shingle :| shingle in words;
      ghost var before := index;
      index := index[shingle := (if shingle in index then index[shingle] else []) + [position]];
      assert forall w, q: nat | Lists(index, w, q) :: Lists(before, w, q) || (w == shingle && q == position);
      assert forall w, q: nat | Lists(before, w, q) :: Lists(index, w, q);
      words := words - {shingle};
    }
  }

  lemma IndexSkips(posts: seq<Post>, index: Bucket, position: nat)
    requires position < |posts| && posts[position].shingles == {} && IndexOf(posts, index, position)
    ensures IndexOf(posts, index, position + 1)
  {
  }

  lemma NothingMet(posts: seq<Post>, threshold: real, rep: seq<nat>)
    requires |rep| == |posts| && forall x: nat | x < |posts| :: rep[x] == x
    ensures Partition(posts, threshold, rep, -1, {}) && BestSoFar(posts, threshold, map[], -1, {})
    ensures IndexOf(posts, map[], 0)
  {
    forall i: nat | i < |posts|
      ensures Connected(posts, threshold, i, i)
    {
      ConnectedSelf(posts, threshold, i);
    }
  }

  /** The union-find loop: afterwards two posts have one representative exactly when
      they are connected, and `best` holds each linked post's best edge weight. */
  method LinkPosts(posts: seq<Post>, threshold: real)
    returns (parent: array<nat>, best: map<nat, real>, ghost rep: seq<nat>, ghost height: seq<nat>)
    ensures fresh(parent) && Forest(parent[..], rep, height) && |rep| == |posts|
    ensures Partition(posts, threshold, rep, |posts| - 1, {})
    ensures BestSoFar(posts, threshold, best, |posts| - 1, {})
  {
    hide Forest, IndexOf, Partition, BestSoFar;
    parent, rep, height := Singletons(|posts|);
    best := map[];
    var index: Bucket := map[];
    NothingMet(posts, threshold, rep);
    var position := 0;
    while position < |posts|
      invariant position <= |posts| == parent.Length && |rep| == |posts| && fresh(parent)
      invariant Forest(parent[..], rep, height) && IndexOf(posts, index, position)
      invariant Partition(posts, threshold, rep, position - 1, {})
      invariant BestSoFar(posts, threshold, best, position - 1, {})
    {
      if posts[position].shingles != {} {
        var candidates := FindCandidates(posts, index, position);
        EnterPosition(posts, threshold, rep, best, position, candidates);
        best, rep, height := LinkCandidates(posts, threshold, position, candidates, parent, best, rep, height);
        index := AddToIndex(posts, index, position);
      } else {
        EnterPosition(posts, threshold, rep, best, position, {});
        IndexSkips(posts, index, position);
      }
      position := position + 1;
    }
    assert position == |posts|;
  }

  /** With every edge met, representatives are exactly the connected components. */
  lemma RepIsComponent(posts: seq<Post>, threshold: real, rep: seq<nat>, i: nat, j: nat)
    requires Partition(posts, threshold, rep, |posts| - 1, {}) && i < |posts| && j < |posts|
    ensures rep[i] == rep[j] <==> Connected(posts, threshold, i, j)
  {
    forall x: nat, y: nat | Edge(posts, threshold, x, y)
      ensures rep[x] == rep[y]
    {
      EdgeSymmetric(posts, threshold, x, y);
      assert Met(posts, threshold, |posts| - 1, {}, x, y)
          || Met(posts, threshold, |posts| - 1, {}, y, x);
    }
    if Connected(posts, threshold, i, j) {
      var path :| IsPath(posts, threshold, path) && path[0] == i && path[|path| - 1] == j;
      PathAgrees(posts, threshold, rep, path);
    }
  }

  lemma BestIsBest(posts: seq<Post>, threshold: real, best: map<nat, real>, i: nat)
    requires BestSoFar(posts, threshold, best, |posts| - 1, {}) && i < |posts|
    ensures i in best <==> exists j: nat :: Edge(posts, threshold, i, j)
    ensures i in best ==> IsBestScore(posts, threshold, i, best[i]) && best[i] >= threshold
  {
    forall j: nat | Edge(posts, threshold, i, j)
      ensures i in best && Score(posts, i, j) <= best[i]
    {
      EdgeSymmetric(posts, threshold, i, j);
      assert Met(posts, threshold, |posts| - 1, {}, i, j)
          || Met(posts, threshold, |posts| - 1, {}, j, i);
    }
  }
}
