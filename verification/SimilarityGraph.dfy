/** The graph whose connected components the duplicate search must find. */
module SimilarityGraph {
  /** A post as the search sees it: the shingles and event dates of its text. Ids and
      publication times are only compared, so they are integers here. */
  datatype Post = Post(id: int, channel: int, published: int, shingles: set<string>, dates: set<(nat, nat)>)

  lemma NonemptyUnion<T>(l: set<T>, r: set<T>)
    requires l != {}
    ensures |l + r| > 0 && |l * r| <= |l + r|
  {
    var x :| x in l;
    assert x in l + r;
    assert l * r <= l + r;
    SubsetSize(l * r, l + r);
  }

  lemma {:induction false} SubsetSize<T>(a: set<T>, b: set<T>)
    requires a <= b
    ensures |a| <= |b|
  {
    if a != {} {
      var x :| x in a;
      SubsetSize(a - {x}, b - {x});
    }
  }

  function Similarity(l: set<string>, r: set<string>): (score: real)
    ensures 0.0 <= score <= 1.0
    ensures score > 0.0 <==> l * r != {}
  {
    if l == {} || r == {} then 0.0
    else
      NonemptyUnion(l, r);
      RatioRange(|l * r|, |l + r|);
      (|l * r| as real) / (|l + r| as real)
  }

  lemma RatioRange(part: nat, whole: nat)
    requires part <= whole && whole > 0
    ensures 0.0 <= (part as real) / (whole as real) <= 1.0
    ensures (part as real) / (whole as real) > 0.0 <==> part > 0
    ensures (part as real) / (whole as real) == 1.0 <==> part == whole
  {
    var ratio := (part as real) / (whole as real);
    assert ratio * (whole as real) == part as real;
  }

  /** It is the part of the union that is shared. */
  lemma SimilarityIsOverlap(l: set<string>, r: set<string>)
    ensures Similarity(l, r) * (|l + r| as real) == |l * r| as real
  {
    if l == {} || r == {} {
      assert l * r == {};
    } else {
      NonemptyUnion(l, r);
      var part, whole := |l * r| as real, |l + r| as real;
      assert part / whole * whole == part;
    }
  }

  lemma SimilaritySymmetric(l: set<string>, r: set<string>)
    ensures Similarity(l, r) == Similarity(r, l)
  {
    assert l * r == r * l && l + r == r + l;
  }

  /** One fingerprint is just like another exactly if it is the same. */
  lemma FullSimilarity(l: set<string>, r: set<string>)
    ensures Similarity(l, r) == 1.0 <==> l == r && l != {}
  {
    if l != {} && r != {} {
      NonemptyUnion(l, r);
      RatioRange(|l * r|, |l + r|);
      assert l == r ==> l * r == l + r;
      if |l * r| == |l + r| {
        SameSize(l * r, l + r);
        assert forall x :: x in l ==> x in l * r;
        assert forall x :: x in r ==> x in l * r;
      }
    }
  }

  lemma SameSize<T>(a: set<T>, b: set<T>)
    requires a <= b && |a| == |b|
    ensures a == b
  {
    if a != b {
      var x :| x in b && x !in a;
      SubsetSize(a, b - {x});
    }
  }

  predicate SameEvent(l: set<(nat, nat)>, r: set<(nat, nat)>) {
    l == {} || r == {} || l * r != {}
  }

  function Score(posts: seq<Post>, i: nat, j: nat): real
    requires i < |posts| && j < |posts|
  {
    Similarity(posts[i].shingles, posts[j].shingles)
  }

  /** Two posts with a shingle in common, similar enough, about the same event. */
  predicate Edge(posts: seq<Post>, threshold: real, i: nat, j: nat) {
    && i < |posts| && j < |posts| && i != j
    && posts[i].shingles * posts[j].shingles != {}
    && Score(posts, i, j) >= threshold
    && SameEvent(posts[i].dates, posts[j].dates)
  }

  /** When two posts make an edge, by counts of shingles and by dates alone: enough of
      their shingles are shared, at least one, and no dates set them apart. */
  lemma EdgeExactly(posts: seq<Post>, threshold: real, i: nat, j: nat)
    requires i < |posts| && j < |posts| && i != j
    ensures var a, b := posts[i], posts[j];
            Edge(posts, threshold, i, j) <==>
              && |a.shingles * b.shingles| > 0
              && |a.shingles * b.shingles| as real >= threshold * (|a.shingles + b.shingles| as real)
              && (a.dates == {} || b.dates == {} || exists d :: d in a.dates && d in b.dates)
  {
    var a, b := posts[i], posts[j];
    SimilarityIsOverlap(a.shingles, b.shingles);
    if a.shingles * b.shingles != {} {
      NonemptyUnion(a.shingles, b.shingles);
      FactorKeepsOrder(threshold, Score(posts, i, j), |a.shingles + b.shingles| as real);
    }
    assert a.dates * b.dates != {} <==> exists d :: d in a.dates && d in b.dates by {
      if d :| d in a.dates && d in b.dates {
        assert d in a.dates * b.dates;
      }
    }
  }

  lemma FactorKeepsOrder(x: real, y: real, factor: real)
    requires factor > 0.0
    ensures x <= y <==> x * factor <= y * factor
  {
    if x < y {
      FactorKeepsLess(x, y, factor);
    } else if y < x {
      FactorKeepsLess(y, x, factor);
    }
  }

  lemma FactorKeepsLess(x: real, y: real, factor: real)
    requires x < y && factor > 0.0
    ensures x * factor < y * factor
  {
    var gap := y - x;
    assert gap * factor > 0.0;
    assert y * factor == x * factor + gap * factor;
  }

  lemma EdgeSymmetric(posts: seq<Post>, threshold: real, i: nat, j: nat)
    requires i < |posts| && j < |posts|
    ensures Edge(posts, threshold, i, j) <==> Edge(posts, threshold, j, i)
    ensures Score(posts, i, j) == Score(posts, j, i)
  {
    var a, b := posts[i], posts[j];
    SimilaritySymmetric(a.shingles, b.shingles);
    assert a.shingles * b.shingles == b.shingles * a.shingles;
    assert a.dates * b.dates == b.dates * a.dates;
  }

  /** For a positive threshold the shared shingle is implied, so looking only at posts
      that share one misses no pair that is similar enough. */
  lemma IndexMissesNothing(posts: seq<Post>, threshold: real, i: nat, j: nat)
    requires threshold > 0.0 && i < |posts| && j < |posts| && i != j
    ensures Edge(posts, threshold, i, j) <==>
            Score(posts, i, j) >= threshold && SameEvent(posts[i].dates, posts[j].dates)
  {
    var l, r := posts[i].shingles, posts[j].shingles;
    if l != {} && r != {} && l * r == {} {
      NonemptyUnion(l, r);
      assert |l * r| == 0;
      assert Score(posts, i, j) == 0.0;
    }
  }

  // ---- connected components ----

  predicate Hop(posts: seq<Post>, threshold: real, path: seq<nat>, k: nat) {
    k + 1 < |path| && Edge(posts, threshold, path[k], path[k + 1])
  }

  ghost predicate IsPath(posts: seq<Post>, threshold: real, path: seq<nat>) {
    && |path| > 0
    && (forall k | 0 <= k < |path| :: path[k] < |posts|)
    && (forall k: nat | k + 1 < |path| :: Hop(posts, threshold, path, k))
  }

  ghost predicate Connected(posts: seq<Post>, threshold: real, i: nat, j: nat) {
    exists path :: IsPath(posts, threshold, path) && path[0] == i && path[|path| - 1] == j
  }

  lemma ConnectedSelf(posts: seq<Post>, threshold: real, i: nat)
    requires i < |posts|
    ensures Connected(posts, threshold, i, i)
  {
    assert IsPath(posts, threshold, [i]);
  }

  lemma ConnectedEdge(posts: seq<Post>, threshold: real, i: nat, j: nat)
    requires Edge(posts, threshold, i, j)
    ensures Connected(posts, threshold, i, j)
  {
    assert IsPath(posts, threshold, [i, j]);
  }

  lemma ConnectedTransitive(posts: seq<Post>, threshold: real, i: nat, j: nat, k: nat)
    requires Connected(posts, threshold, i, j) && Connected(posts, threshold, j, k)
    ensures Connected(posts, threshold, i, k)
  {
    var p :| IsPath(posts, threshold, p) && p[0] == i && p[|p| - 1] == j;
    var q :| IsPath(posts, threshold, q) && q[0] == j && q[|q| - 1] == k;
    var path := p + q[1..];
    forall m: nat | m + 1 < |path|
      ensures Hop(posts, threshold, path, m)
    {
      if m + 1 < |p| {
        assert Hop(posts, threshold, p, m);
      } else {
        assert Hop(posts, threshold, q, m - |p| + 1);
      }
    }
    assert IsPath(posts, threshold, path);
  }

  lemma ConnectedSymmetric(posts: seq<Post>, threshold: real, i: nat, j: nat)
    requires Connected(posts, threshold, i, j)
    ensures Connected(posts, threshold, j, i)
  {
    var p :| IsPath(posts, threshold, p) && p[0] == i && p[|p| - 1] == j;
    var path := seq(|p|, m requires 0 <= m < |p| => p[|p| - 1 - m]);
    forall m: nat | m + 1 < |path|
      ensures Hop(posts, threshold, path, m)
    {
      EdgeSymmetric(posts, threshold, path[m], path[m + 1]);
      assert Hop(posts, threshold, p, |p| - 2 - m);
    }
    assert IsPath(posts, threshold, path);
  }

  /** A labelling that agrees along every edge agrees along every path. */
  lemma {:induction false} PathAgrees(posts: seq<Post>, threshold: real, marks: seq<nat>, path: seq<nat>)
    requires |marks| == |posts| && IsPath(posts, threshold, path)
    requires forall i: nat, j: nat | Edge(posts, threshold, i, j) :: marks[i] == marks[j]
    ensures marks[path[0]] == marks[path[|path| - 1]]
    decreases |path|
  {
    if |path| > 1 {
      assert Hop(posts, threshold, path, 0);
      forall k: nat | k + 1 < |path[1..]|
        ensures Hop(posts, threshold, path[1..], k)
      {
        assert Hop(posts, threshold, path, k + 1);
      }
      PathAgrees(posts, threshold, marks, path[1..]);
    }
  }

  /** `score` is the weight of the best edge at post `i`. */
  ghost predicate IsBestScore(posts: seq<Post>, threshold: real, i: nat, score: real) {
    && (exists j: nat :: Edge(posts, threshold, i, j) && Score(posts, i, j) == score)
    && (forall j: nat | Edge(posts, threshold, i, j) :: Score(posts, i, j) <= score)
  }
}
