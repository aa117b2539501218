/** Undirected graphs and walks that never turn straight back: the way the simulator's recursion moves
    over the mesh. */
module Forest {
  import opened Sequences

  /** Neighbour sets by node. */
  type Graph = seq<set<nat>>

  predicate Adjacent(g: Graph, u: nat, v: nat) {
    u < |g| && v < |g| && v in g[u]
  }

  ghost predicate Undirected(g: Graph) {
    forall u: nat, v: nat | Adjacent(g, u, v) :: Adjacent(g, v, u) && u != v
  }

  /** A walk along edges that never goes back over the edge it just came by. */
  ghost predicate Trail(g: Graph, p: seq<nat>) {
    && |p| > 0 && p[0] < |g|
    && (forall i | 0 <= i < |p| - 1 :: Adjacent(g, p[i], p[i + 1]))
    && (forall i | 0 <= i < |p| - 2 :: p[i] != p[i + 2])
  }

  /** No trail ever returns to where it began. */
  ghost predicate IsForest(g: Graph) {
    Undirected(g) && forall p | Trail(g, p) && |p| >= 2 :: p[0] != p[|p| - 1]
  }

  /** A trail that sets out over the edge u -> v. */
  ghost predicate Departs(g: Graph, p: seq<nat>, u: nat, v: nat) {
    Trail(g, p) && |p| >= 2 && p[0] == u && p[1] == v
  }

  /** Node w lies beyond the edge u -> v. */
  ghost predicate Beyond(g: Graph, u: nat, v: nat, w: nat) {
    exists p :: Departs(g, p, u, v) && p[|p| - 1] == w
  }

  /** The edge c -> d is gone over by some trail that sets out over u -> v. */
  ghost predicate Crossed(g: Graph, u: nat, v: nat, c: nat, d: nat) {
    exists p :: Departs(g, p, u, v) && p[|p| - 2] == c && p[|p| - 1] == d
  }

  lemma BeyondSelf(g: Graph, u: nat, v: nat)
    requires Adjacent(g, u, v)
    ensures Beyond(g, u, v, v) && Crossed(g, u, v, u, v)
  {
    assert Departs(g, [u, v], u, v);
  }

  lemma TrailTail(g: Graph, p: seq<nat>)
    requires Trail(g, p) && |p| >= 2
    ensures Trail(g, p[1..])
  {
    var q := p[1..];
    assert Adjacent(g, p[0], p[0 + 1]);
    forall i | 0 <= i < |q| - 1
      ensures Adjacent(g, q[i], q[i + 1])
    {
      assert Adjacent(g, p[i + 1], p[i + 1 + 1]);
    }
    forall i | 0 <= i < |q| - 2
      ensures q[i] != q[i + 2]
    {
      assert p[i + 1] != p[i + 1 + 2];
    }
  }

  lemma TrailFront(g: Graph, p: seq<nat>)
    requires Trail(g, p) && |p| >= 2
    ensures Trail(g, p[..|p| - 1])
  {}

  /** A trail over v -> x, one edge longer at its start. */
  lemma Prepended(g: Graph, u: nat, v: nat, x: nat, p: seq<nat>)
    requires Adjacent(g, u, v) && x != u && Departs(g, p, v, x)
    ensures Departs(g, [u] + p, u, v)
  {
    var q := [u] + p;
    forall i | 0 <= i < |q| - 1
      ensures Adjacent(g, q[i], q[i + 1])
    {
      if i > 0 {
        assert q[i] == p[i - 1] && q[i + 1] == p[i - 1 + 1];
      }
    }
    forall i | 0 <= i < |q| - 2
      ensures q[i] != q[i + 2]
    {
      if i > 0 {
        assert q[i] == p[i - 1] && q[i + 2] == p[i - 1 + 2];
      }
    }
  }

  /** What lies beyond v -> x also lies beyond u -> v. */
  lemma BeyondStep(g: Graph, u: nat, v: nat, x: nat, w: nat)
    requires Adjacent(g, u, v) && x != u && Beyond(g, v, x, w)
    ensures Beyond(g, u, v, w)
  {
    var p :| Departs(g, p, v, x) && p[|p| - 1] == w;
    Prepended(g, u, v, x, p);
    assert ([u] + p)[|[u] + p| - 1] == w;
  }

  lemma CrossedStep(g: Graph, u: nat, v: nat, x: nat, c: nat, d: nat)
    requires Adjacent(g, u, v) && x != u && Crossed(g, v, x, c, d)
    ensures Crossed(g, u, v, c, d)
  {
    var p :| Departs(g, p, v, x) && p[|p| - 2] == c && p[|p| - 1] == d;
    Prepended(g, u, v, x, p);
    var q := [u] + p;
    assert q[|q| - 2] == c && q[|q| - 1] == d;
  }

  /** Beyond u -> v there is v itself, and what lies beyond the other edges of v. */
  lemma BeyondCases(g: Graph, u: nat, v: nat, w: nat) returns (x: nat)
    requires Beyond(g, u, v, w)
    ensures w == v || (Adjacent(g, v, x) && x != u && Beyond(g, v, x, w))
  {
    var p :| Departs(g, p, u, v) && p[|p| - 1] == w;
    x := 0;
    if |p| > 2 {
      x := p[2];
      TrailTail(g, p);
      assert Departs(g, p[1..], v, x) && p[1..][|p[1..]| - 1] == w;
      assert Adjacent(g, p[1], p[1 + 1]) && p[0] != p[0 + 2];
    }
  }

  lemma CrossedCases(g: Graph, u: nat, v: nat, c: nat, d: nat) returns (x: nat)
    requires Crossed(g, u, v, c, d)
    ensures (c == u && d == v) || (Adjacent(g, v, x) && x != u && Crossed(g, v, x, c, d))
  {
    var p :| Departs(g, p, u, v) && p[|p| - 2] == c && p[|p| - 1] == d;
    x := 0;
    if |p| > 2 {
      x := p[2];
      TrailTail(g, p);
      var q := p[1..];
      assert Departs(g, q, v, x) && q[|q| - 2] == c && q[|q| - 1] == d;
      assert Adjacent(g, p[1], p[1 + 1]) && p[0] != p[0 + 2];
    }
  }

  /** In a forest nobody comes back: v does not lie beyond its own edges. */
  lemma NotBeyondItself(g: Graph, v: nat, x: nat)
    requires IsForest(g)
    ensures !Beyond(g, v, x, v)
  {}

  // ---------- Trails in a forest are unique ----------

  function Turned(p: seq<nat>): (q: seq<nat>)
    ensures |q| == |p|
  {
    seq(|p|, i requires 0 <= i < |p| => p[|p| - 1 - i])
  }

  lemma TurnedTrail(g: Graph, p: seq<nat>)
    requires Undirected(g) && Trail(g, p)
    ensures Trail(g, Turned(p))
  {
    var q := Turned(p);
    forall i | 0 <= i < |q| - 1
      ensures Adjacent(g, q[i], q[i + 1])
    {
      var k := |p| - 2 - i;
      assert Adjacent(g, p[k], p[k + 1]);
    }
    forall i | 0 <= i < |q| - 2
      ensures q[i] != q[i + 2]
    {
      var k := |p| - 3 - i;
      assert p[k] != p[k + 2];
    }
    if |p| > 1 {
      assert Adjacent(g, p[|p| - 2], p[|p| - 2 + 1]);
    }
  }

  /** Two trails that meet at an end, joined there; the joint must not turn back. */
  lemma JoinedTrail(g: Graph, p: seq<nat>, q: seq<nat>)
    requires Trail(g, p) && Trail(g, q) && |p| >= 2 && |q| >= 2
    requires p[|p| - 1] == q[0] && p[|p| - 2] != q[1]
    ensures Trail(g, p + q[1..])
  {
    var r := p + q[1..];
    var n := |p| - 1;
    forall i | 0 <= i < |r| - 1
      ensures Adjacent(g, r[i], r[i + 1])
    {
      if i < n {
        assert r[i] == p[i] && r[i + 1] == p[i + 1];
      } else {
        assert r[i] == q[i - n] && r[i + 1] == q[i - n + 1];
      }
    }
    forall i | 0 <= i < |r| - 2
      ensures r[i] != r[i + 2]
    {
      if i + 2 <= n {
        assert r[i] == p[i] && r[i + 2] == p[i + 2];
      } else if i >= n {
        assert r[i] == q[i - n] && r[i + 2] == q[i - n + 2];
      }
    }
  }

  /** Two trails with the same ends set out over the same edge. */
  lemma {:induction false} SameDeparture(g: Graph, p: seq<nat>, q: seq<nat>)
    requires IsForest(g) && Trail(g, p) && Trail(g, q) && |p| >= 2 && |q| >= 2
    requires p[0] == q[0] && p[|p| - 1] == q[|q| - 1]
    ensures p[1] == q[1]
    decreases |p| + |q|
  {
    var m, n := |p|, |q|;
    if p[m - 2] == q[n - 2] {
      if m > 2 && n > 2 {
        TrailFront(g, p);
        TrailFront(g, q);
        SameDeparture(g, p[..m - 1], q[..n - 1]);
      } else if m > 2 {
        TrailFront(g, p);
      } else if n > 2 {
        TrailFront(g, q);
      }
    } else {
      TurnedTrail(g, q);
      JoinedTrail(g, p, Turned(q));
    }
  }

  /** The regions beyond two edges of one node do not overlap. */
  lemma BeyondDisjoint(g: Graph, v: nat, x: nat, y: nat, w: nat)
    requires IsForest(g) && Beyond(g, v, x, w) && Beyond(g, v, y, w)
    ensures x == y
  {
    var p :| Departs(g, p, v, x) && p[|p| - 1] == w;
    var q :| Departs(g, q, v, y) && q[|q| - 1] == w;
    SameDeparture(g, p, q);
  }

  // ---------- Components ----------

  ghost predicate Reachable(g: Graph, r: nat, w: nat) {
    exists p :: Trail(g, p) && p[0] == r && p[|p| - 1] == w
  }

  lemma ReachableStep(g: Graph, r: nat, v: nat, w: nat)
    requires Reachable(g, r, v) && Adjacent(g, v, w)
    ensures Reachable(g, r, w)
  {
    var p :| Trail(g, p) && p[0] == r && p[|p| - 1] == v;
    if |p| >= 2 && p[|p| - 2] == w {
      TrailFront(g, p);
      assert p[..|p| - 1][|p| - 2] == w;
    } else {
      var q := p + [w];
      forall i | 0 <= i < |q| - 1
        ensures Adjacent(g, q[i], q[i + 1])
      {
        if i < |p| - 1 {
          assert q[i] == p[i] && q[i + 1] == p[i + 1];
        }
      }
      assert Trail(g, q) && q[|q| - 1] == w;
    }
  }

  lemma {:induction false} ReachableAlong(g: Graph, r: nat, p: seq<nat>)
    requires Trail(g, p) && Reachable(g, r, p[0])
    ensures Reachable(g, r, p[|p| - 1])
    decreases |p|
  {
    if |p| > 1 {
      TrailFront(g, p);
      ReachableAlong(g, r, p[..|p| - 1]);
      assert Adjacent(g, p[|p| - 2], p[|p| - 2 + 1]);
      ReachableStep(g, r, p[|p| - 2], p[|p| - 1]);
    }
  }

  lemma ReachableVia(g: Graph, a: nat, b: nat, c: nat)
    requires Reachable(g, a, b) && Reachable(g, b, c)
    ensures Reachable(g, a, c)
  {
    var p :| Trail(g, p) && p[0] == b && p[|p| - 1] == c;
    ReachableAlong(g, a, p);
  }

  lemma ReachableBack(g: Graph, a: nat, b: nat)
    requires Undirected(g) && Reachable(g, a, b)
    ensures Reachable(g, b, a)
  {
    var p :| Trail(g, p) && p[0] == a && p[|p| - 1] == b;
    TurnedTrail(g, p);
  }

  /** The nodes of a cluster, named by any of its members. */
  ghost function Component(g: Graph, r: nat): set<nat> {
    set w: nat | w < |g| && Reachable(g, r, w)
  }

  /** All members of a component have the same component. */
  lemma ComponentIsShared(g: Graph, r: nat, w: nat)
    requires Undirected(g) && w in Component(g, r)
    ensures Component(g, w) == Component(g, r)
  {
    ReachableBack(g, r, w);
    forall z: nat | z < |g|
      ensures Reachable(g, w, z) <==> Reachable(g, r, z)
    {
      if Reachable(g, w, z) {
        ReachableVia(g, r, w, z);
      }
      if Reachable(g, r, z) {
        ReachableVia(g, w, r, z);
      }
    }
  }

  // ---------- Trails are bounded exactly in forests ----------

  lemma TrailSlice(g: Graph, p: seq<nat>, i: nat, j: nat)
    requires Trail(g, p) && i < j <= |p|
    ensures Trail(g, p[i..j])
  {
    var q := p[i..j];
    forall k | 0 <= k < |q| - 1
      ensures Adjacent(g, q[k], q[k + 1])
    {
      assert Adjacent(g, p[i + k], p[i + k + 1]);
    }
    forall k | 0 <= k < |q| - 2
      ensures q[k] != q[k + 2]
    {
      assert p[i + k] != p[i + k + 2];
    }
    if i > 0 {
      assert Adjacent(g, p[i - 1], p[i - 1 + 1]);
    }
  }

  lemma TrailInRange(g: Graph, p: seq<nat>)
    requires Trail(g, p)
    ensures forall i | 0 <= i < |p| :: p[i] < |g|
  {
    forall i | 0 <= i < |p|
      ensures p[i] < |g|
    {
      if i > 0 {
        assert Adjacent(g, p[i - 1], p[i - 1 + 1]);
      }
    }
  }

  lemma ForestTrailVisitsOnce(g: Graph, p: seq<nat>)
    requires IsForest(g) && Trail(g, p)
    ensures forall i, j | 0 <= i < j < |p| :: p[i] != p[j]
  {
    forall i, j | 0 <= i < j < |p|
      ensures p[i] != p[j]
    {
      TrailSlice(g, p, i, j + 1);
      assert p[i..j + 1][0] == p[i] && p[i..j + 1][j - i] == p[j];
    }
  }

  /** A closed trail, cut down until its two ends meet in a corner that can be passed. */
  lemma {:induction false} PassableCycle(g: Graph, p: seq<nat>) returns (c: seq<nat>)
    requires Undirected(g) && Trail(g, p) && |p| >= 2 && p[0] == p[|p| - 1]
    ensures Trail(g, c) && |c| >= 3 && c[0] == c[|c| - 1] && c[1] != c[|c| - 2]
    decreases |p|
  {
    var n := |p|;
    assert Adjacent(g, p[0], p[0 + 1]);
    assert n >= 3;
    if p[1] == p[n - 2] {
      assert p[0] != p[0 + 2];
      assert n >= 4;
      assert Adjacent(g, p[1], p[1 + 1]);
      TrailSlice(g, p, 1, n - 1);
      c := PassableCycle(g, p[1..n - 1]);
    } else {
      c := p;
    }
  }

  lemma {:induction false} GoAround(g: Graph, c: seq<nat>, n: nat) returns (p: seq<nat>)
    requires Trail(g, c) && |c| >= 3 && c[0] == c[|c| - 1] && c[1] != c[|c| - 2]
    ensures Trail(g, p) && |p| > n && |p| >= |c| && p[|p| - 1] == c[0] && p[|p| - 2] == c[|c| - 2]
    decreases n
  {
    if n == 0 {
      p := c;
    } else {
      var q := GoAround(g, c, n - 1);
      JoinedTrail(g, q, c);
      p := q + c[1..];
    }
  }

  /** The recursion over the mesh, whose call stack is a trail, is bounded exactly when the links form
      a forest; then it is no deeper than there are nodes. */
  lemma BoundedIffForest(g: Graph)
    requires Undirected(g)
    ensures (forall p | Trail(g, p) :: |p| <= |g|) <==> IsForest(g)
  {
    if IsForest(g) {
      forall p | Trail(g, p)
        ensures |p| <= |g|
      {
        TrailInRange(g, p);
        ForestTrailVisitsOnce(g, p);
        DistinctIsShort(p, |g|);
      }
    } else {
      var p :| Trail(g, p) && |p| >= 2 && p[0] == p[|p| - 1];
      var c := PassableCycle(g, p);
      var q := GoAround(g, c, |g|);
    }
  }
}
