/** The parent array of the duplicate search: path halving and linking of roots. */
module UnionFind {
  /** Node `x` is on its way to its root `rep[x]`, one step up and higher at each link. */
  ghost predicate Climbs(parent: seq<nat>, rep: seq<nat>, height: seq<nat>, x: nat)
    requires |parent| == |rep| == |height| && x < |parent|
  {
    && parent[x] < |parent| && rep[x] < |parent|
    && rep[parent[x]] == rep[x] && parent[rep[x]] == rep[x]
    && (parent[x] == x ==> rep[x] == x)
    && (parent[x] != x ==> height[x] < height[parent[x]])
    && height[x] <= height[rep[x]]
  }

  /** `parent` is a forest: `rep` names every node's root, and `height` grows along
      each parent link. */
  ghost predicate Forest(parent: seq<nat>, rep: seq<nat>, height: seq<nat>) {
    && |parent| == |rep| == |height|
    && forall x: nat | x < |parent| :: Climbs(parent, rep, height, x)
  }

  /** Finds a node's root, halving the path to it on the way: the partition stays. */
  method Root(parent: array<nat>, start: nat, ghost rep: seq<nat>, ghost height: seq<nat>) returns (node: nat)
    requires Forest(parent[..], rep, height) && start < parent.Length
    modifies parent
    ensures Forest(parent[..], rep, height)
    ensures node == rep[start]
  {
    node := start;
    assert Climbs(parent[..], rep, height, node);
    while parent[node] != node
      invariant node < parent.Length && Forest(parent[..], rep, height) && rep[node] == rep[start]
      invariant Climbs(parent[..], rep, height, node)
      decreases height[rep[node]] - height[node]
    {
      HalveKeeps(parent[..], rep, height, node);
      ghost var before := parent[..];
      parent[node] := parent[parent[node]];
      assert parent[..] == before[node := before[before[node]]];
      node := parent[node];
    }
  }

  lemma HalveKeeps(parent: seq<nat>, rep: seq<nat>, height: seq<nat>, node: nat)
    requires Forest(parent, rep, height) && node < |parent| && parent[node] != node
    ensures parent[node] < |parent| && parent[parent[node]] < |parent|
    ensures var up := parent[parent[node]];
            && Forest(parent[node := up], rep, height)
            && height[node] < height[up] && rep[up] == rep[node]
            && Climbs(parent[node := up], rep, height, up)
  {
    assert Climbs(parent, rep, height, node);
    assert Climbs(parent, rep, height, parent[node]);
    var next := parent[node := parent[parent[node]]];
    forall x: nat | x < |parent|
      ensures Climbs(next, rep, height, x)
    {
      assert Climbs(parent, rep, height, x);
      assert Climbs(parent, rep, height, rep[x]);
    }
  }

  function Linked(rep: seq<nat>, left: nat, right: nat): seq<nat> {
    seq(|rep|, x requires 0 <= x < |rep| => if rep[x] == left then right else rep[x])
  }

  function Raised(rep: seq<nat>, height: seq<nat>, left: nat, right: nat): seq<nat>
    requires |rep| == |height| && left < |height|
  {
    seq(|rep|, x requires 0 <= x < |rep| => if rep[x] == right then height[x] + height[left] + 1 else height[x])
  }

  /** Hanging one root under another merges exactly their two classes. */
  lemma LinkKeeps(parent: seq<nat>, rep: seq<nat>, height: seq<nat>, left: nat, right: nat)
    requires Forest(parent, rep, height) && left < |parent| && right < |parent|
    requires rep[left] == left && rep[right] == right && left != right
    ensures Forest(parent[left := right], Linked(rep, left, right), Raised(rep, height, left, right))
  {
    assert Climbs(parent, rep, height, left) && Climbs(parent, rep, height, right);
    var next, rep', height' := parent[left := right], Linked(rep, left, right), Raised(rep, height, left, right);
    forall x: nat | x < |parent|
      ensures Climbs(next, rep', height', x)
    {
      assert Climbs(parent, rep, height, x);
      assert Climbs(parent, rep, height, rep[x]);
      assert Climbs(parent, rep, height, parent[x]);
    }
  }

  /** Finds both roots and, unless they are one already, hangs the first under the second. */
  method Join(parent: array<nat>, x: nat, y: nat, ghost rep0: seq<nat>, ghost height0: seq<nat>)
    returns (ghost rep: seq<nat>, ghost height: seq<nat>)
    requires Forest(parent[..], rep0, height0) && x < parent.Length && y < parent.Length
    modifies parent
    ensures Forest(parent[..], rep, height)
    ensures rep == Linked(rep0, rep0[x], rep0[y])
  {
    rep, height := rep0, height0;
    assert Climbs(parent[..], rep, height, x) && Climbs(parent[..], rep, height, y);
    assert Climbs(parent[..], rep, height, rep[x]) && Climbs(parent[..], rep, height, rep[y]);
    var left := Root(parent, x, rep, height);
    var right := Root(parent, y, rep, height);
    if left != right {
      LinkKeeps(parent[..], rep, height, left, right);
      ghost var before := parent[..];
      parent[left] := right;
      assert parent[..] == before[left := right];
      rep, height := Linked(rep, left, right), Raised(rep, height, left, right);
    } else {
      assert Linked(rep, left, right) == rep;
    }
  }

  /** `parent = list(range(n))`: every node its own root. */
  method Singletons(n: nat) returns (parent: array<nat>, ghost rep: seq<nat>, ghost height: seq<nat>)
    ensures fresh(parent) && parent.Length == n && Forest(parent[..], rep, height)
    ensures |rep| == n && forall x: nat | x < n :: rep[x] == x
  {
    parent := new nat[n](i => i);
    rep, height := seq(n, i => i), seq(n, i => 0);
  }
}
