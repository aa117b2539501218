/** Density-based clustering as cherrysim/dbscan.c runs it, with a seed list that grows while it is
    being walked, against the definition of density-connected clusters. */
module Dbscan {
  import opened Sequences

  const UNCLASSIFIED := -1
  const NOISE := -2

  /** The points by index. `near` stands for a distance of at most epsilon. */
  datatype Space = Space(n: nat, minpts: nat, near: (nat, nat) -> bool)
  {
    ghost predicate Symmetric() {
      forall i, j | 0 <= i < n && 0 <= j < n :: near(i, j) == near(j, i)
    }

    predicate Linked(i: nat, j: nat) {
      i < n && j < n && i != j && near(i, j)
    }
  }

  // ---------- Neighbours ----------

  function NeighboursBelow(sp: Space, i: nat, k: nat): seq<nat>
    requires i < sp.n && k <= sp.n
  {
    if k == 0 then []
    else NeighboursBelow(sp, i, k - 1) + (if sp.Linked(i, k - 1) then [k - 1] else [])
  }

  function Neighbours(sp: Space, i: nat): seq<nat>
    requires i < sp.n
  {
    NeighboursBelow(sp, i, sp.n)
  }

  lemma {:induction false} NeighboursBelowAre(sp: Space, i: nat, k: nat)
    requires i < sp.n && k <= sp.n
    ensures forall j: nat :: j in NeighboursBelow(sp, i, k) <==> j < k && sp.Linked(i, j)
    ensures Distinct(NeighboursBelow(sp, i, k))
  {
    if k > 0 {
      NeighboursBelowAre(sp, i, k - 1);
    }
  }

  lemma NeighboursAre(sp: Space, i: nat)
    requires i < sp.n
    ensures forall j: nat :: j in Neighbours(sp, i) <==> sp.Linked(i, j)
    ensures Distinct(Neighbours(sp, i))
  {
    NeighboursBelowAre(sp, i, sp.n);
  }

  // ---------- Reference: density-connected clusters ----------

  predicate Core(sp: Space, i: nat) {
    i < sp.n && |Neighbours(sp, i)| >= sp.minpts
  }

  ghost predicate CorePath(sp: Space, p: seq<nat>) {
    && |p| > 0
    && (forall k | 0 <= k < |p| :: Core(sp, p[k]))
    && (forall k | 0 <= k < |p| - 1 :: sp.Linked(p[k], p[k + 1]))
  }

  /** A chain of adjacent core points leads from a to b. */
  ghost predicate Connected(sp: Space, a: nat, b: nat) {
    exists p: seq<nat> :: CorePath(sp, p) && p[0] == a && p[|p| - 1] == b
  }

  /** Adjacent to a core point with this mark. */
  ghost predicate Borders(sp: Space, id: seq<int>, j: nat, mark: int) {
    exists c: nat :: c < |id| && Core(sp, c) && sp.Linked(c, j) && id[c] == mark
  }

  ghost predicate NextToCore(sp: Space, j: nat) {
    exists c: nat :: Core(sp, c) && sp.Linked(c, j)
  }

  /** What clustering means, for labels 0 .. count. */
  ghost predicate Clustered(sp: Space, id: seq<int>, count: nat)
  {
    && |id| == sp.n
    && (forall j | 0 <= j < sp.n && Core(sp, j) :: 0 <= id[j] < count)
    && (forall a, b | 0 <= a < sp.n && 0 <= b < sp.n && Core(sp, a) && Core(sp, b) ::
          id[a] == id[b] <==> Connected(sp, a, b))
    && (forall j | 0 <= j < sp.n && !Core(sp, j) && NextToCore(sp, j) :: Borders(sp, id, j, id[j]))
    && (forall j | 0 <= j < sp.n :: id[j] == -2 <==> !Core(sp, j) && !NextToCore(sp, j))
    && (forall mark | 0 <= mark < count :: Used(sp, id, mark))
  }

  ghost predicate Used(sp: Space, id: seq<int>, mark: int) {
    exists c: nat :: c < |id| && Core(sp, c) && id[c] == mark
  }

  // ---------- Connectedness is an equivalence on core points ----------

  lemma ConnectedSelf(sp: Space, a: nat)
    requires Core(sp, a)
    ensures Connected(sp, a, a)
  {
    assert CorePath(sp, [a]);
  }

  lemma ConnectedStep(sp: Space, a: nat, b: nat, c: nat)
    requires Connected(sp, a, b) && sp.Linked(b, c) && Core(sp, c)
    ensures Connected(sp, a, c)
  {
    var p :| CorePath(sp, p) && p[0] == a && p[|p| - 1] == b;
    assert CorePath(sp, p + [c]);
  }

  lemma ConnectedTurned(sp: Space, a: nat, b: nat)
    requires sp.Symmetric() && Connected(sp, a, b)
    ensures Connected(sp, b, a)
  {
    var p :| CorePath(sp, p) && p[0] == a && p[|p| - 1] == b;
    var q := seq(|p|, k requires 0 <= k < |p| => p[|p| - 1 - k]);
    forall k | 0 <= k < |q| - 1
      ensures sp.Linked(q[k], q[k + 1])
    {
      assert sp.Linked(p[|p| - 2 - k], p[|p| - 2 - k + 1]);
    }
    assert CorePath(sp, q);
  }

  lemma ConnectedVia(sp: Space, a: nat, b: nat, c: nat)
    requires Connected(sp, a, b) && Connected(sp, b, c)
    ensures Connected(sp, a, c)
  {
    var p :| CorePath(sp, p) && p[0] == a && p[|p| - 1] == b;
    var q :| CorePath(sp, q) && q[0] == b && q[|q| - 1] == c;
    var r := p + q[1..];
    forall k | 0 <= k < |r| - 1
      ensures sp.Linked(r[k], r[k + 1])
    {
      if k >= |p| - 1 {
        assert r[k] == q[k - (|p| - 1)] && r[k + 1] == q[k - (|p| - 1) + 1];
      }
    }
    assert CorePath(sp, r);
  }

  // ---------- What every step of the clustering keeps ----------

  /** Labels given out so far. `Closed`: the neighbours of a labelled core point are all labelled, the
      core points among them with its mark. */
  ghost predicate Labelling(sp: Space, id: seq<int>, count: nat)
  {
    && |id| == sp.n
    && (forall j | 0 <= j < sp.n :: id[j] == UNCLASSIFIED || id[j] == NOISE || 0 <= id[j] < count)
    && (forall j | 0 <= j < sp.n && id[j] == NOISE :: !Core(sp, j))
    && (forall j | 0 <= j < sp.n && Core(sp, j) && id[j] >= 0 :: Closed(sp, id, j))
    && (forall a, b | 0 <= a < sp.n && 0 <= b < sp.n && Core(sp, a) && Core(sp, b) && id[a] == id[b] >= 0 ::
          Connected(sp, a, b))
    && (forall j | 0 <= j < sp.n && !Core(sp, j) && id[j] >= 0 :: Borders(sp, id, j, id[j]))
    && (forall mark | 0 <= mark < count :: Used(sp, id, mark))
  }

  ghost predicate Closed(sp: Space, id: seq<int>, j: nat)
    requires |id| == sp.n && j < sp.n
  {
    forall l | 0 <= l < sp.n && sp.Linked(j, l) :: id[l] >= 0 && (Core(sp, l) ==> id[l] == id[j])
  }

  /** Once no point is left unclassified, the labels are the clusters. */
  lemma LabellingIsClustering(sp: Space, id: seq<int>, count: nat)
    requires sp.Symmetric() && Labelling(sp, id, count)
    requires forall j | 0 <= j < sp.n :: id[j] != UNCLASSIFIED
    ensures Clustered(sp, id, count)
  {
    forall a, b | 0 <= a < sp.n && 0 <= b < sp.n && Core(sp, a) && Core(sp, b) && Connected(sp, a, b)
      ensures id[a] == id[b]
    {
      var p :| CorePath(sp, p) && p[0] == a && p[|p| - 1] == b;
      OneLabelAlong(sp, id, count, p);
    }
    forall j | 0 <= j < sp.n
      ensures id[j] == NOISE <==> !Core(sp, j) && !NextToCore(sp, j)
    {
      if NextToCore(sp, j) {
        var c: nat :| Core(sp, c) && sp.Linked(c, j);
        assert Closed(sp, id, c);
      }
      if id[j] >= 0 && !Core(sp, j) {
        var c: nat :| c < |id| && Core(sp, c) && sp.Linked(c, j) && id[c] == id[j];
      }
    }
  }

  lemma {:induction false} OneLabelAlong(sp: Space, id: seq<int>, count: nat, p: seq<nat>)
    requires Labelling(sp, id, count) && CorePath(sp, p)
    requires forall j | 0 <= j < sp.n :: id[j] != UNCLASSIFIED
    ensures id[p[0]] == id[p[|p| - 1]]
    decreases |p|
  {
    if |p| > 1 {
      var q := p[..|p| - 1];
      assert CorePath(sp, q);
      OneLabelAlong(sp, id, count, q);
      assert Closed(sp, id, q[|q| - 1]) && sp.Linked(p[|q| - 1], p[|q| - 1 + 1]);
    }
  }

  // ---------- One cluster growing ----------

  /** The entries of a neighbour list that carry no mark yet, in order. */
  function Unmarked(nb: seq<nat>, id: seq<int>): seq<nat>
    requires forall k | 0 <= k < |nb| :: nb[k] < |id|
  {
    if nb == [] then []
    else
      var last := nb[|nb| - 1];
      Unmarked(nb[..|nb| - 1], id) + (if id[last] == UNCLASSIFIED then [last] else [])
  }

  lemma {:induction false} UnmarkedAre(nb: seq<nat>, id: seq<int>)
    requires forall k | 0 <= k < |nb| :: nb[k] < |id|
    ensures forall x: nat :: x in Unmarked(nb, id) <==> x in nb && id[x] == UNCLASSIFIED
    ensures Distinct(nb) ==> Distinct(Unmarked(nb, id))
  {
    if nb != [] {
      UnmarkedAre(nb[..|nb| - 1], id);
      assert nb == nb[..|nb| - 1] + [nb[|nb| - 1]];
    }
  }

  /** The labels after a core point's neighbours have been reached by the cluster `mark`. */
  function Reached(nb: seq<nat>, id: seq<int>, mark: int): (r: seq<int>)
    ensures |r| == |id|
  {
    seq(|id|, j requires 0 <= j < |id| => if j in nb && (id[j] == NOISE || id[j] == UNCLASSIFIED) then mark else id[j])
  }

  /** The cluster `mark` while it grows from the core point `root`; before it, the labels were `id0`.
      Everything before place h in the seed list has been spread from. */
  ghost predicate Growing(sp: Space, id0: seq<int>, id: seq<int>, mark: int, root: nat, seeds: seq<nat>, h: nat)
  {
    && |id| == |id0| == sp.n && root < sp.n && Core(sp, root) && id[root] == mark && h <= |seeds|
    && SeedsMarked(id, mark, seeds)
    && OldKept(sp, id0, id, mark)
    && Members(sp, id, mark, root, seeds)
    && Closed(sp, id, root)
    && SpreadFrom(sp, id, seeds[..h])
  }

  /** These seeds have been spread from. */
  ghost predicate SpreadFrom(sp: Space, id: seq<int>, done: seq<nat>)
    requires |id| == sp.n
  {
    forall x | x in done :: Core(sp, x) ==> Closed(sp, id, x)
  }

  ghost predicate SeedsMarked(id: seq<int>, mark: int, seeds: seq<nat>) {
    Distinct(seeds) && forall x | x in seeds :: x < |id| && id[x] == mark
  }

  /** Only the new label has been given out, and core points that had a label kept it. */
  ghost predicate OldKept(sp: Space, id0: seq<int>, id: seq<int>, mark: int)
    requires |id| == |id0| == sp.n
  {
    && (forall j | 0 <= j < sp.n :: id[j] == id0[j] || id[j] == mark)
    && (forall j | 0 <= j < sp.n && Core(sp, j) && id0[j] >= 0 :: id[j] == id0[j])
  }

  ghost predicate Members(sp: Space, id: seq<int>, mark: int, root: nat, seeds: seq<nat>)
    requires |id| == sp.n
  {
    forall j | 0 <= j < sp.n && id[j] == mark :: Member(sp, id, mark, root, seeds, j)
  }

  ghost predicate Member(sp: Space, id: seq<int>, mark: int, root: nat, seeds: seq<nat>, j: nat) {
    if Core(sp, j) then Connected(sp, root, j) && (j == root || j in seeds) else Borders(sp, id, j, mark)
  }

  /** The first labelling of root and its neighbours. */
  function Seeded(id0: seq<int>, root: nat, nb: seq<nat>, mark: int): (id: seq<int>)
    ensures |id| == |id0|
  {
    seq(|id0|, j requires 0 <= j < |id0| => if j == root || j in nb then mark else id0[j])
  }

  /** A labelled core point has no unclassified neighbour, so no core point of an older cluster is
      next to a new root. */
  lemma NoOldCoreNear(sp: Space, id0: seq<int>, count: nat, root: nat)
    requires sp.Symmetric() && Labelling(sp, id0, count) && root < sp.n && id0[root] == UNCLASSIFIED
    ensures forall j | 0 <= j < sp.n && Core(sp, j) && sp.Linked(root, j) :: id0[j] == UNCLASSIFIED
  {
    forall j | 0 <= j < sp.n && Core(sp, j) && sp.Linked(root, j)
      ensures id0[j] == UNCLASSIFIED
    {
      if id0[j] >= 0 {
        assert Closed(sp, id0, j) && sp.Linked(j, root);
      }
    }
  }

  lemma GrowingStart(sp: Space, id0: seq<int>, count: nat, root: nat)
    requires sp.Symmetric() && Labelling(sp, id0, count) && root < sp.n && id0[root] == UNCLASSIFIED && Core(sp, root)
    ensures Growing(sp, id0, Seeded(id0, root, Neighbours(sp, root), count), count, root, Neighbours(sp, root), 0)
  {
    hide Core;
    var nb := Neighbours(sp, root);
    hide Neighbours;
    var id := Seeded(id0, root, nb, count);
    NeighboursAre(sp, root);
    NoOldCoreNear(sp, id0, count, root);
    ConnectedSelf(sp, root);
    assert SeedsMarked(id, count, nb);
    assert OldKept(sp, id0, id, count);
    forall j | 0 <= j < sp.n && id[j] == count
      ensures Member(sp, id, count, root, nb, j)
    {
      if j != root {
        assert sp.Linked(root, j);
        if Core(sp, j) {
          ConnectedStep(sp, root, root, j);
        }
      }
    }
  }

  /** Spreading reaches no core point of an older cluster. */
  lemma NoOldCoreReached(sp: Space, id0: seq<int>, count: nat, id: seq<int>, x: nat)
    requires sp.Symmetric() && Labelling(sp, id0, count) && |id| == sp.n && OldKept(sp, id0, id, count)
    requires x < sp.n && Core(sp, x) && id[x] == count
    ensures forall j | 0 <= j < sp.n && Core(sp, j) && sp.Linked(x, j) :: id[j] == UNCLASSIFIED || id[j] == count
    ensures forall j | 0 <= j < sp.n :: id[j] >= 0 || id[j] == NOISE || id[j] == UNCLASSIFIED
  {
    forall j | 0 <= j < sp.n && Core(sp, j) && sp.Linked(x, j)
      ensures id[j] == UNCLASSIFIED || id[j] == count
    {
      if id0[j] >= 0 {
        assert Closed(sp, id0, j) && sp.Linked(j, x);
      }
    }
  }

  lemma MembersStep(sp: Space, id: seq<int>, mark: nat, root: nat, seeds: seq<nat>, x: nat, nb: seq<nat>)
    requires |id| == sp.n && x < sp.n && Core(sp, x) && id[x] == mark && Members(sp, id, mark, root, seeds)
    requires forall j: nat :: j in nb <==> sp.Linked(x, j)
    requires forall k | 0 <= k < |nb| :: nb[k] < |id|
    requires forall j | 0 <= j < sp.n && Core(sp, j) && sp.Linked(x, j) :: id[j] == UNCLASSIFIED || id[j] == mark
    ensures Members(sp, Reached(nb, id, mark), mark, root, seeds + Unmarked(nb, id))
  {
    hide Core;
    hide Connected;
    UnmarkedAre(nb, id);
    hide Unmarked;
    var id' := Reached(nb, id, mark);
    var seeds' := seeds + Unmarked(nb, id);
    assert Member(sp, id, mark, root, seeds, x);
    forall j | 0 <= j < sp.n && id'[j] == mark
      ensures Member(sp, id', mark, root, seeds', j)
    {
      if id[j] == mark {
        assert Member(sp, id, mark, root, seeds, j);
        if !Core(sp, j) {
          var c: nat :| c < |id| && Core(sp, c) && sp.Linked(c, j) && id[c] == mark;
          assert id'[c] == mark;
        }
      } else {
        assert sp.Linked(x, j);
        if Core(sp, j) {
          ConnectedStep(sp, root, x, j);
        } else {
          assert id'[x] == mark;
        }
      }
    }
  }

  lemma DistinctAppend(s: seq<nat>, t: seq<nat>)
    requires Distinct(s) && Distinct(t) && forall x | x in t :: x !in s
    ensures Distinct(s + t)
  {
    forall i, j | 0 <= i < j < |s + t|
      ensures (s + t)[i] != (s + t)[j]
    {
      if i < |s| <= j {
        assert t[j - |s|] in t && s[i] in s;
      }
    }
  }

  lemma SeedsMarkedStep(id: seq<int>, mark: nat, seeds: seq<nat>, nb: seq<nat>)
    requires SeedsMarked(id, mark, seeds) && Distinct(nb)
    requires forall k | 0 <= k < |nb| :: nb[k] < |id|
    ensures SeedsMarked(Reached(nb, id, mark), mark, seeds + Unmarked(nb, id))
  {
    hide Distinct;
    UnmarkedAre(nb, id);
    hide Unmarked;
    DistinctAppend(seeds, Unmarked(nb, id));
    forall x | x in seeds + Unmarked(nb, id)
      ensures x < |id| && Reached(nb, id, mark)[x] == mark
    {
      if x !in seeds {
        assert x in nb;
      }
    }
  }

  lemma SpreadFromStep(sp: Space, id: seq<int>, id': seq<int>, done: seq<nat>, x: nat)
    requires |id| == |id'| == sp.n && SpreadFrom(sp, id, done)
    requires forall l | 0 <= l < sp.n && id[l] >= 0 :: id'[l] == id[l]
    requires forall y | y in done :: y < sp.n && id[y] >= 0
    requires Core(sp, x) ==> Closed(sp, id', x)
    ensures SpreadFrom(sp, id', done + [x])
  {
    hide Core;
    forall y | y in done && Core(sp, y)
      ensures Closed(sp, id', y)
    {
      StillClosed(sp, id, id', y);
    }
  }

  lemma ReachedCloses(sp: Space, id: seq<int>, mark: nat, x: nat, nb: seq<nat>)
    requires |id| == sp.n && x < sp.n && id[x] == mark
    requires forall j: nat :: j in nb <==> sp.Linked(x, j)
    requires forall j | 0 <= j < sp.n :: id[j] >= 0 || id[j] == NOISE || id[j] == UNCLASSIFIED
    requires forall j | 0 <= j < sp.n && Core(sp, j) && sp.Linked(x, j) :: id[j] == UNCLASSIFIED || id[j] == mark
    ensures Closed(sp, Reached(nb, id, mark), x)
  {
    hide Core;
  }

  lemma OldKeptStep(sp: Space, id0: seq<int>, id: seq<int>, mark: nat, nb: seq<nat>)
    requires |id| == |id0| == sp.n && OldKept(sp, id0, id, mark)
    ensures OldKept(sp, id0, Reached(nb, id, mark), mark)
  {
    hide Core;
  }

  /** A seed is a point with the cluster's label; its neighbours are in range. */
  lemma SeedFacts(sp: Space, id0: seq<int>, mark: int, id: seq<int>, root: nat, seeds: seq<nat>, h: nat)
    requires Growing(sp, id0, id, mark, root, seeds, h) && h < |seeds|
    ensures seeds[h] < sp.n && id[seeds[h]] == mark
    ensures var nb := Neighbours(sp, seeds[h]); Distinct(nb) && forall k | 0 <= k < |nb| :: nb[k] < |id|
  {
    hide Core;
    assert seeds[h] in seeds;
    NeighboursInRange(sp, seeds[h]);
  }

  lemma StepMembers(sp: Space, id0: seq<int>, count: nat, id: seq<int>, root: nat, seeds: seq<nat>, h: nat)
    requires sp.Symmetric() && Labelling(sp, id0, count) && Growing(sp, id0, id, count, root, seeds, h)
    requires h < |seeds| && Core(sp, seeds[h])
    ensures var nb := Neighbours(sp, seeds[h]);
            && (forall k | 0 <= k < |nb| :: nb[k] < |id|)
            && Members(sp, Reached(nb, id, count), count, root, seeds + Unmarked(nb, id))
            && Closed(sp, Reached(nb, id, count), seeds[h])
  {
    hide Core;
    hide Labelling;
    hide Connected;
    hide Distinct;
    hide Unmarked;
    hide Neighbours;
    hide Members;
    hide Closed;
    hide SpreadFrom;
    SeedFacts(sp, id0, count, id, root, seeds, h);
    var x := seeds[h];
    var nb := Neighbours(sp, x);
    NeighboursAre(sp, x);
    NoOldCoreReached(sp, id0, count, id, x);
    hide OldKept;
    hide SeedsMarked;
    MembersStep(sp, id, count, root, seeds, x, nb);
    ReachedCloses(sp, id, count, x, nb);
  }

  lemma StepSeeds(sp: Space, id0: seq<int>, count: nat, id: seq<int>, root: nat, seeds: seq<nat>, h: nat)
    requires Growing(sp, id0, id, count, root, seeds, h) && h < |seeds| && Core(sp, seeds[h])
    requires forall k | 0 <= k < |Neighbours(sp, seeds[h])| :: Neighbours(sp, seeds[h])[k] < |id|
    requires Closed(sp, Reached(Neighbours(sp, seeds[h]), id, count), seeds[h])
    ensures var nb := Neighbours(sp, seeds[h]); var id' := Reached(nb, id, count);
            && SeedsMarked(id', count, seeds + Unmarked(nb, id))
            && SpreadFrom(sp, id', seeds[..h] + [seeds[h]])
            && OldKept(sp, id0, id', count)
            && Closed(sp, id', root)
  {
    hide Core;
    hide Connected;
    hide Distinct;
    hide Unmarked;
    hide Neighbours;
    hide Members;
    hide Closed;
    SeedFacts(sp, id0, count, id, root, seeds, h);
    var nb := Neighbours(sp, seeds[h]);
    SeedsMarkedStep(id, count, seeds, nb);
    OldKeptStep(sp, id0, id, count, nb);
    hide OldKept;
    StillClosed(sp, id, Reached(nb, id, count), root);
    SpreadFromStep(sp, id, Reached(nb, id, count), seeds[..h], seeds[h]);
  }

  /** Spreading from the next seed keeps the cluster growing properly. */
  lemma GrowingStep(sp: Space, id0: seq<int>, count: nat, id: seq<int>, root: nat, seeds: seq<nat>, h: nat)
    requires sp.Symmetric() && Labelling(sp, id0, count) && Growing(sp, id0, id, count, root, seeds, h)
    requires h < |seeds| && Core(sp, seeds[h])
    ensures var nb := Neighbours(sp, seeds[h]);
            && (forall k | 0 <= k < |nb| :: nb[k] < |id|)
            && Growing(sp, id0, Reached(nb, id, count), count, root, seeds + Unmarked(nb, id), h + 1)
  {
    hide Core;
    hide Labelling;
    hide Connected;
    hide Distinct;
    hide Unmarked;
    hide Neighbours;
    hide Members;
    hide Closed;
    hide SpreadFrom;
    hide OldKept;
    hide SeedsMarked;
    SeedFacts(sp, id0, count, id, root, seeds, h);
    StepMembers(sp, id0, count, id, root, seeds, h);
    StepSeeds(sp, id0, count, id, root, seeds, h);
    var nb := Neighbours(sp, seeds[h]);
    var seeds' := seeds + Unmarked(nb, id);
    assert seeds'[..h + 1] == seeds[..h] + [seeds[h]];
    assert Reached(nb, id, count)[root] == count;
  }

  lemma GrowingSkip(sp: Space, id0: seq<int>, count: nat, id: seq<int>, root: nat, seeds: seq<nat>, h: nat)
    requires Growing(sp, id0, id, count, root, seeds, h) && h < |seeds| && !Core(sp, seeds[h])
    ensures Growing(sp, id0, id, count, root, seeds, h + 1)
  {
    hide Core;
    assert seeds[..h + 1] == seeds[..h] + [seeds[h]];
  }

  /** A cluster that has stopped growing is one more finished cluster. */
  lemma GrownIsLabelling(sp: Space, id0: seq<int>, count: nat, id: seq<int>, root: nat, seeds: seq<nat>)
    requires sp.Symmetric() && Labelling(sp, id0, count) && Growing(sp, id0, id, count, root, seeds, |seeds|)
    ensures Labelling(sp, id, count + 1)
  {
    hide Core;
    hide Connected;
    assert seeds[..|seeds|] == seeds;
    forall j | 0 <= j < sp.n && Core(sp, j) && id[j] >= 0
      ensures Closed(sp, id, j)
    {
      GrownCoreClosed(sp, id0, count, id, root, seeds, j);
    }
    forall a, b | 0 <= a < sp.n && 0 <= b < sp.n && Core(sp, a) && Core(sp, b) && id[a] == id[b] >= 0
      ensures Connected(sp, a, b)
    {
      if id[a] == count {
        assert Member(sp, id, count, root, seeds, a) && Member(sp, id, count, root, seeds, b);
        ConnectedTurned(sp, root, a);
        ConnectedVia(sp, a, root, b);
      } else {
        assert id[a] == id0[a] && id[b] == id0[b];
      }
    }
    forall j | 0 <= j < sp.n && !Core(sp, j) && id[j] >= 0
      ensures Borders(sp, id, j, id[j])
    {
      if id[j] == count {
        assert Member(sp, id, count, root, seeds, j);
      } else {
        assert Borders(sp, id0, j, id0[j]);
        var c: nat :| c < |id0| && Core(sp, c) && sp.Linked(c, j) && id0[c] == id0[j];
        assert id[c] == id0[c];
      }
    }
    forall mark | 0 <= mark < count + 1
      ensures Used(sp, id, mark)
    {
      if mark < count {
        assert Used(sp, id0, mark);
        var c: nat :| c < |id0| && Core(sp, c) && id0[c] == mark;
        assert id[c] == id0[c];
      } else {
        assert id[root] == count;
      }
    }
  }

  lemma GrownCoreClosed(sp: Space, id0: seq<int>, count: nat, id: seq<int>, root: nat, seeds: seq<nat>, j: nat)
    requires Labelling(sp, id0, count) && Growing(sp, id0, id, count, root, seeds, |seeds|)
    requires j < sp.n && Core(sp, j) && id[j] >= 0
    ensures Closed(sp, id, j)
  {
    hide Core;
    assert seeds[..|seeds|] == seeds;
    if id[j] == count {
      assert Member(sp, id, count, root, seeds, j);
    } else {
      assert Closed(sp, id0, j);
    }
  }

  lemma StillClosed(sp: Space, id: seq<int>, id': seq<int>, j: nat)
    requires |id| == |id'| == sp.n && j < sp.n && id[j] >= 0 && Closed(sp, id, j)
    requires forall l | 0 <= l < sp.n && id[l] >= 0 :: id'[l] == id[l]
    ensures Closed(sp, id', j)
  {}

  // ---------- The code ----------

  /** The linked list of the code, by its members; it is appended to while it is being walked. */
  class EpsilonNeighbours {
    var members: seq<nat>

    constructor ()
      ensures members == []
    {
      members := [];
    }

    method AppendAtEnd(index: nat)
      modifies this
      ensures members == old(members) + [index]
    {
      members := members + [index];
    }
  }

  method GetEpsilonNeighbours(sp: Space, index: nat) returns (en: EpsilonNeighbours)
    requires index < sp.n
    ensures fresh(en) && en.members == Neighbours(sp, index)
  {
    en := new EpsilonNeighbours();
    for i := 0 to sp.n
      invariant fresh(en) && en.members == NeighboursBelow(sp, index, i)
    {
      if i == index {
        continue;
      }
      if !sp.near(index, i) {
        continue;
      }
      en.AppendAtEnd(i);
    }
  }

  lemma ReachedOneMore(before: seq<nat>, d: nat, id: seq<int>, mark: int)
    requires d < |id| && d !in before
    ensures Reached(before, id, mark)[d] == id[d]
    ensures Reached(before + [d], id, mark)
         == if id[d] == NOISE || id[d] == UNCLASSIFIED then Reached(before, id, mark)[d := mark]
            else Reached(before, id, mark)
  {}

  lemma UnmarkedOneMore(before: seq<nat>, d: nat, id: seq<int>)
    requires d < |id| && forall i | 0 <= i < |before| :: before[i] < |id|
    ensures Unmarked(before + [d], id) == Unmarked(before, id) + if id[d] == UNCLASSIFIED then [d] else []
  {
    assert (before + [d])[..|before|] == before;
  }

  lemma NotBefore(nb: seq<nat>, k: nat)
    requires Distinct(nb) && k < |nb|
    ensures nb[k] !in nb[..k] && nb[..k + 1] == nb[..k] + [nb[k]]
  {}

  method MarkOne(d: nat, seeds: EpsilonNeighbours, clusterId: nat, ids: array<int>)
    requires d < ids.Length
    modifies seeds, ids
    ensures ids[..] == if old(ids[d]) == NOISE || old(ids[d]) == UNCLASSIFIED then old(ids[..])[d := clusterId]
                       else old(ids[..])
    ensures seeds.members == old(seeds.members) + if old(ids[d]) == UNCLASSIFIED then [d] else []
  {
    if ids[d] == NOISE || ids[d] == UNCLASSIFIED {
      if ids[d] == UNCLASSIFIED {
        seeds.AppendAtEnd(d);
      }
      ids[d] := clusterId;
    }
  }

  /** The inner loop of `spread`: marks what is unmarked or noise, and appends what was unmarked. */
  method MarkNeighbours(spread: EpsilonNeighbours, seeds: EpsilonNeighbours, clusterId: nat, ids: array<int>)
    requires spread != seeds && Distinct(spread.members)
    requires forall k | 0 <= k < |spread.members| :: spread.members[k] < ids.Length
    modifies seeds, ids
    ensures ids[..] == Reached(spread.members, old(ids[..]), clusterId)
    ensures seeds.members == old(seeds.members) + Unmarked(spread.members, old(ids[..]))
  {
    hide Distinct;
    hide Unmarked;
    hide Reached;
    ghost var nb, id, list := spread.members, ids[..], seeds.members;
    NothingReached(nb, id, clusterId);
    var k := 0;
    while k < |spread.members|
      invariant 0 <= k <= |nb| && spread.members == nb
      invariant ids[..] == Reached(nb[..k], id, clusterId)
      invariant forall i | 0 <= i < |nb[..k]| :: nb[..k][i] < |id|
      invariant seeds.members == list + Unmarked(nb[..k], id)
    {
      var d := spread.members[k];
      NotBefore(nb, k);
      ReachedOneMore(nb[..k], d, id, clusterId);
      UnmarkedOneMore(nb[..k], d, id);
      ghost var before := Reached(nb[..k], id, clusterId);
      assert ids[d] == before[d];
      MarkOne(d, seeds, clusterId, ids);
      k := k + 1;
    }
    assert nb[..k] == nb;
  }

  lemma NothingReached(nb: seq<nat>, id: seq<int>, mark: int)
    ensures Reached(nb[..0], id, mark) == id && Unmarked(nb[..0], id) == []
  {}

  method Spread(sp: Space, index: nat, seeds: EpsilonNeighbours, clusterId: nat, ids: array<int>)
    requires index < sp.n && ids.Length == sp.n
    modifies seeds, ids
    ensures forall k | 0 <= k < |Neighbours(sp, index)| :: Neighbours(sp, index)[k] < sp.n
    ensures Core(sp, index) ==> ids[..] == Reached(Neighbours(sp, index), old(ids[..]), clusterId)
    ensures Core(sp, index) ==> seeds.members == old(seeds.members) + Unmarked(Neighbours(sp, index), old(ids[..]))
    ensures !Core(sp, index) ==> ids[..] == old(ids[..]) && seeds.members == old(seeds.members)
  {
    var spread := GetEpsilonNeighbours(sp, index);
    NeighboursInRange(sp, index);
    hide Neighbours;
    hide Distinct;
    hide Unmarked;
    hide Reached;
    if |spread.members| >= sp.minpts {
      MarkNeighbours(spread, seeds, clusterId, ids);
    }
  }

  lemma NeighboursInRange(sp: Space, i: nat)
    requires i < sp.n
    ensures var nb := Neighbours(sp, i); Distinct(nb) && forall k | 0 <= k < |nb| :: nb[k] < sp.n
  {
    NeighboursAre(sp, i);
    var nb := Neighbours(sp, i);
    hide Neighbours;
    assert forall k | 0 <= k < |nb| :: nb[k] in nb;
  }

  lemma NoiseIsLabelling(sp: Space, id: seq<int>, count: nat, i: nat)
    requires sp.Symmetric() && Labelling(sp, id, count) && i < sp.n && id[i] == UNCLASSIFIED && !Core(sp, i)
    ensures Labelling(sp, id[i := NOISE], count)
  {
    hide Core;
    hide Connected;
    var id' := id[i := NOISE];
    forall j | 0 <= j < sp.n && Core(sp, j) && id'[j] >= 0
      ensures Closed(sp, id', j)
    {
      assert Closed(sp, id, j);
    }
    forall j | 0 <= j < sp.n && !Core(sp, j) && id'[j] >= 0
      ensures Borders(sp, id', j, id'[j])
    {
      assert Borders(sp, id, j, id[j]);
      var c: nat :| c < |id| && Core(sp, c) && sp.Linked(c, j) && id[c] == id[j];
      assert id'[c] == id[c];
    }
    forall mark | 0 <= mark < count
      ensures Used(sp, id', mark)
    {
      assert Used(sp, id, mark);
      var c: nat :| c < |id| && Core(sp, c) && id[c] == mark;
      assert id'[c] == mark;
    }
  }

  /** The first loop of `expand`: root and all its neighbours are labelled, whatever they were. */
  method LabelSeeds(index: nat, seeds: EpsilonNeighbours, clusterId: nat, ids: array<int>)
    requires index < ids.Length && forall k | 0 <= k < |seeds.members| :: seeds.members[k] < ids.Length
    modifies ids
    ensures ids[..] == Seeded(old(ids[..]), index, seeds.members, clusterId)
  {
    ghost var id0, nb := ids[..], seeds.members;
    ids[index] := clusterId;
    var h := 0;
    while h < |seeds.members|
      invariant 0 <= h <= |nb| && ids[..] == Seeded(id0, index, nb[..h], clusterId)
    {
      assert nb[..h + 1] == nb[..h] + [nb[h]];
      ids[seeds.members[h]] := clusterId;
      h := h + 1;
    }
    assert nb[..h] == nb;
  }

  /** The second loop of `expand`: walks the seed list, which grows on the way. No index is on it
      twice, so the walk ends. */
  method WalkSeeds(sp: Space, ghost id0: seq<int>, index: nat, seeds: EpsilonNeighbours, clusterId: nat,
                   ids: array<int>)
    requires sp.Symmetric() && ids.Length == sp.n && Labelling(sp, id0, clusterId)
    requires Growing(sp, id0, ids[..], clusterId, index, seeds.members, 0)
    modifies seeds, ids
    ensures Growing(sp, id0, ids[..], clusterId, index, seeds.members, |seeds.members|)
  {
    hide Labelling;
    hide Core;
    var h := 0;
    while h < |seeds.members|
      invariant h <= |seeds.members|
      invariant Growing(sp, id0, ids[..], clusterId, index, seeds.members, h)
      decreases sp.n - h
    {
      ghost var id, list := ids[..], seeds.members;
      GrowingListIsShort(sp, id0, id, clusterId, index, list, h);
      hide Growing;
      Spread(sp, seeds.members[h], seeds, clusterId, ids);
      if Core(sp, list[h]) {
        GrowingStep(sp, id0, clusterId, id, index, list, h);
      } else {
        GrowingSkip(sp, id0, clusterId, id, index, list, h);
      }
      h := h + 1;
    }
  }

  lemma GrowingListIsShort(sp: Space, id0: seq<int>, id: seq<int>, mark: int, root: nat, seeds: seq<nat>, h: nat)
    requires Growing(sp, id0, id, mark, root, seeds, h) && h < |seeds|
    ensures |seeds| <= sp.n && seeds[h] < sp.n
  {
    hide Core;
    assert seeds[h] in seeds;
    assert forall i | 0 <= i < |seeds| :: seeds[i] in seeds;
    DistinctIsShort(seeds, sp.n);
  }

  /** What `expand` does to labels other than its own. */
  ghost predicate Expanded(sp: Space, index: nat, id0: seq<int>, id: seq<int>)
  {
    && |id0| == |id| == sp.n
    && (forall j | 0 <= j < sp.n && Core(sp, j) && id0[j] >= 0 :: id[j] == id0[j])
    && (forall j | 0 <= j < sp.n && (j == index || id0[j] != UNCLASSIFIED) :: id[j] != UNCLASSIFIED)
  }

  lemma GrownIsExpanded(sp: Space, id0: seq<int>, id: seq<int>, mark: nat, root: nat, seeds: seq<nat>, h: nat)
    requires Growing(sp, id0, id, mark, root, seeds, h)
    ensures Expanded(sp, root, id0, id) && id[root] == mark
  {
    hide Core;
    hide Members;
  }

  /** Labels the cluster of a core point, or marks the point as noise. Core points that had a label
      keep it, and nothing becomes unclassified again. */
  method Expand(sp: Space, index: nat, clusterId: nat, ids: array<int>) returns (isCore: bool)
    requires sp.Symmetric() && ids.Length == sp.n && index < sp.n
    requires Labelling(sp, ids[..], clusterId) && ids[index] == UNCLASSIFIED
    modifies ids
    ensures isCore == Core(sp, index)
    ensures Labelling(sp, ids[..], if isCore then clusterId + 1 else clusterId)
    ensures Expanded(sp, index, old(ids[..]), ids[..])
    ensures isCore ==> ids[index] == clusterId
  {
    hide Labelling;
    isCore := false;
    ghost var id0 := ids[..];
    var seeds := GetEpsilonNeighbours(sp, index);
    NeighboursInRange(sp, index);
    if |seeds.members| < sp.minpts {
      NoiseIsLabelling(sp, id0, clusterId, index);
      ids[index] := NOISE;
      assert ids[..] == id0[index := NOISE];
    } else {
      assert Core(sp, index);
      hide Core;
      hide Growing;
      hide Expanded;
      GrowingStart(sp, id0, clusterId, index);
      LabelSeeds(index, seeds, clusterId, ids);
      WalkSeeds(sp, id0, index, seeds, clusterId, ids);
      GrownIsLabelling(sp, id0, clusterId, ids[..], index, seeds.members);
      GrownIsExpanded(sp, id0, ids[..], clusterId, index, seeds.members, |seeds.members|);
      isCore := true;
    }
  }

  method Dbscan(sp: Space, ids: array<int>) returns (count: nat)
    requires sp.Symmetric() && ids.Length == sp.n
    requires forall j | 0 <= j < sp.n :: ids[j] == UNCLASSIFIED
    modifies ids
    ensures Clustered(sp, ids[..], count)
    ensures Core(sp, 0) ==> ids[0] == 0
  {
    hide Closed;
    assert Core(sp, 0) ==> 0 < sp.n;
    hide Core;
    count := 0;
    for i := 0 to sp.n
      invariant Labelling(sp, ids[..], count)
      invariant if i == 0 then count == 0 else Core(sp, 0) ==> ids[0] == 0
      invariant forall j | 0 <= j < i :: ids[j] != UNCLASSIFIED
    {
      if ids[i] == UNCLASSIFIED {
        var isCore := Expand(sp, i, count, ids);
        if isCore {
          count := count + 1;
        }
      }
    }
    LabellingIsClustering(sp, ids[..], count);
  }
}
