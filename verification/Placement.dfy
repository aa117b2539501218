/** Random node placement of cherrysim/CherrySim.cpp: nodes are moved until density clustering finds one
    cluster, first for the mesh nodes alone and then for all nodes. */
module Placement {
  import opened Results
  import opened Dbscan

  type U32 = x: int | 0 <= x < 0x1_0000_0000

  /** Coordinates as the draws they were made from. */
  datatype Position = Position(x: U32, y: U32, z: int)

  /** The clustering problem of the first k nodes: with minpts 0 every point is a core point. */
  function SpaceOf(within: (Position, Position) -> bool, pos: seq<Position>, k: nat): Space
    requires k <= |pos|
  {
    Space(k, 0, (i: nat, j: nat) => i < |pos| && j < |pos| && within(pos[i], pos[j]))
  }

  ghost predicate Symmetric(within: (Position, Position) -> bool) {
    forall p, q :: within(p, q) == within(q, p)
  }

  /** A walk over nodes below k, each within reach of the next. */
  ghost predicate Walk(within: (Position, Position) -> bool, pos: seq<Position>, k: nat, p: seq<nat>)
    requires k <= |pos|
  {
    && |p| > 0
    && (forall j | 0 <= j < |p| :: p[j] < k)
    && (forall j | 0 <= j < |p| - 1 :: within(pos[p[j]], pos[p[j + 1]]))
  }

  ghost predicate Joined(within: (Position, Position) -> bool, pos: seq<Position>, k: nat, a: nat, b: nat)
    requires k <= |pos|
  {
    exists p: seq<nat> :: Walk(within, pos, k, p) && p[0] == a && p[|p| - 1] == b
  }

  /** Any two of the first k nodes are joined by a walk over nodes among those k. */
  ghost predicate AllConnected(within: (Position, Position) -> bool, pos: seq<Position>, k: nat)
    requires k <= |pos|
  {
    forall a: nat, b: nat | a < k && b < k :: Joined(within, pos, k, a, b)
  }

  lemma EveryNodeIsCore(within: (Position, Position) -> bool, pos: seq<Position>, k: nat, i: nat)
    requires i < k <= |pos|
    ensures Core(SpaceOf(within, pos, k), i)
  {}

  /** The end of a walk is connected with its start in the clustering space, where nodes are not adjacent to
      themselves. */
  lemma {:induction false} WalkConnects(within: (Position, Position) -> bool, pos: seq<Position>, k: nat, p: seq<nat>)
    requires k <= |pos| && Walk(within, pos, k, p)
    ensures Connected(SpaceOf(within, pos, k), p[0], p[|p| - 1])
  {
    var sp, n := SpaceOf(within, pos, k), |p| - 1;
    EveryNodeIsCore(within, pos, k, p[n]);
    if n == 0 {
      ConnectedSelf(sp, p[0]);
    } else {
      assert Walk(within, pos, k, p[..n]);
      WalkConnects(within, pos, k, p[..n]);
      if p[n - 1] != p[n] {
        assert within(pos[p[n - 1]], pos[p[n - 1 + 1]]);
        ConnectedStep(sp, p[0], p[n - 1], p[n]);
      }
    }
  }

  /** To be connected in the clustering space is to be joined by a walk of nodes in each other's reach. */
  lemma ConnectedIffJoined(within: (Position, Position) -> bool, pos: seq<Position>, k: nat, a: nat, b: nat)
    requires k <= |pos|
    ensures Connected(SpaceOf(within, pos, k), a, b) <==> Joined(within, pos, k, a, b)
  {
    var sp := SpaceOf(within, pos, k);
    if Connected(sp, a, b) {
      var p :| CorePath(sp, p) && p[0] == a && p[|p| - 1] == b;
      forall j | 0 <= j < |p| - 1
        ensures within(pos[p[j]], pos[p[j + 1]])
      {
        assert sp.Linked(p[j], p[j + 1]);
      }
      assert Walk(within, pos, k, p);
    }
    if Joined(within, pos, k, a, b) {
      var p :| Walk(within, pos, k, p) && p[0] == a && p[|p| - 1] == b;
      WalkConnects(within, pos, k, p);
    }
  }

  /** "Every id is 0" is the same as "connected". */
  lemma OneClusterIffConnected(within: (Position, Position) -> bool, pos: seq<Position>, k: nat, ids: seq<int>,
                               count: nat)
    requires k <= |pos| && Clustered(SpaceOf(within, pos, k), ids, count)
    ensures (forall i | 0 <= i < k :: ids[i] == 0) <==> AllConnected(within, pos, k)
  {
    var sp := SpaceOf(within, pos, k);
    forall i: nat | i < k
      ensures Core(sp, i)
    {
      EveryNodeIsCore(within, pos, k, i);
    }
    forall a: nat, b: nat | a < k && b < k
      ensures ids[a] == ids[b] <==> Joined(within, pos, k, a, b)
    {
      ConnectedIffJoined(within, pos, k, a, b);
    }
    if AllConnected(within, pos, k) && k > 0 {
      assert 0 <= ids[0] < count;
      assert Used(sp, ids, 0);
      var c: nat :| c < |ids| && Core(sp, c) && ids[c] == 0;
      forall i: nat | i < k
        ensures ids[i] == 0
      {
        assert Joined(within, pos, k, c, i);
      }
    }
  }

  /** Points that are connected among themselves have the label of point 0. */
  lemma GroupSharesLabel(within: (Position, Position) -> bool, pos: seq<Position>, g: nat, k: nat, ids: seq<int>,
                         count: nat)
    requires 0 < g <= k <= |pos| && Clustered(SpaceOf(within, pos, k), ids, count) && AllConnected(within, pos, g)
    ensures forall i | 0 <= i < g :: ids[i] == ids[0]
  {
    forall i: nat | i < g
      ensures ids[i] == ids[0]
    {
      assert Joined(within, pos, g, 0, i);
      var p :| Walk(within, pos, g, p) && p[0] == 0 && p[|p| - 1] == i;
      assert Walk(within, pos, k, p);
      WalkConnects(within, pos, k, p);
      EveryNodeIsCore(within, pos, k, 0);
      EveryNodeIsCore(within, pos, k, i);
    }
  }

  /** Two placements that agree on the first g nodes connect them alike. */
  lemma ConnectedDependsOnGroup(within: (Position, Position) -> bool, pos: seq<Position>, pos': seq<Position>, g: nat)
    requires g <= |pos| == |pos'| && pos[..g] == pos'[..g] && AllConnected(within, pos, g)
    ensures AllConnected(within, pos', g)
  {
    assert forall i: nat | i < g :: pos[i] == pos[..g][i] == pos'[i];
    forall a: nat, b: nat | a < g && b < g
      ensures Joined(within, pos', g, a, b)
    {
      assert Joined(within, pos, g, a, b);
      var p :| Walk(within, pos, g, p) && p[0] == a && p[|p| - 1] == b;
      assert Walk(within, pos', g, p);
    }
  }

  /** The positions the first draws give to n nodes, all at height 0. */
  function Drawn(draws: seq<U32>, n: nat): (pos: seq<Position>)
    requires 2 * n <= |draws|
    ensures |pos| == n
  {
    seq(n, i requires 0 <= i < n => Position(draws[2 * i], draws[2 * i + 1], 0))
  }

  /** Where the nodes are, and the draws still to come. */
  datatype Placing = Placing(pos: seq<Position>, draws: seq<U32>)

  /** The marked nodes below i have been given new coordinates, in order, from the next draws, if there are enough. */
  function Moved(marks: seq<bool>, pos: seq<Position>, draws: seq<U32>, i: nat): (r: Option<Placing>)
    requires i <= |marks| <= |pos|
    ensures r.Some? ==> |r.value.pos| == |pos| && |r.value.draws| <= |draws|
  {
    if i == 0 then Some(Placing(pos, draws))
    else
      var before := Moved(marks, pos, draws, i - 1);
      if before.None? || !marks[i - 1] then before
      else
        var Placing(p, d) := before.value;
        if |d| < 2 then None else Some(Placing(p[i - 1 := p[i - 1].(x := d[0], y := d[1])], d[2..]))
  }

  /** The nodes that no walk joins with the first one. */
  ghost function Strays(within: (Position, Position) -> bool, pos: seq<Position>, k: nat): (marks: seq<bool>)
    requires k <= |pos|
    ensures |marks| == k
  {
    seq(k, i requires 0 <= i < k => !Joined(within, pos, k, 0, i))
  }

  /** Where the first k nodes end up, by drawing new positions for all strays until there are none. */
  ghost function Settled(within: (Position, Position) -> bool, pos: seq<Position>, draws: seq<U32>, k: nat):
    (r: Option<Placing>)
    requires k <= |pos|
    ensures r.Some? ==> |r.value.pos| == |pos|
    decreases |draws|
  {
    if AllConnected(within, pos, k) then Some(Placing(pos, draws))
    else
      var next := Moved(Strays(within, pos, k), pos, draws, k);
      if next.None? || |next.value.draws| == |draws| then None
      else Settled(within, next.value.pos, next.value.draws, k)
  }

  /** The labels other than 0. */
  function Labelled(ids: seq<int>): (marks: seq<bool>)
    ensures |marks| == |ids|
  {
    seq(|ids|, i requires 0 <= i < |ids| => ids[i] != 0)
  }

  lemma {:induction false} OutOfDraws(marks: seq<bool>, pos: seq<Position>, draws: seq<U32>, i: nat, k: nat)
    requires i <= k <= |marks| <= |pos| && Moved(marks, pos, draws, i).None?
    ensures Moved(marks, pos, draws, k).None?
    decreases k
  {
    if i < k {
      OutOfDraws(marks, pos, draws, i, k - 1);
    }
  }

  /** The first node has label 0, so the strays are the nodes with another label. */
  lemma StraysAreLabelled(within: (Position, Position) -> bool, pos: seq<Position>, k: nat, ids: seq<int>, count: nat)
    requires k <= |pos| && Clustered(SpaceOf(within, pos, k), ids, count) && (k > 0 ==> ids[0] == 0)
    ensures Strays(within, pos, k) == Labelled(ids)
  {
    forall i: nat | i < k
      ensures ids[i] != 0 <==> !Joined(within, pos, k, 0, i)
    {
      EveryNodeIsCore(within, pos, k, 0);
      EveryNodeIsCore(within, pos, k, i);
      ConnectedIffJoined(within, pos, k, 0, i);
    }
  }

  lemma SettledAlready(within: (Position, Position) -> bool, pos: seq<Position>, draws: seq<U32>, k: nat)
    requires k <= |pos| && AllConnected(within, pos, k)
    ensures Settled(within, pos, draws, k) == Some(Placing(pos, draws))
  {
    hide AllConnected;
  }

  lemma SettledStep(within: (Position, Position) -> bool, pos: seq<Position>, draws: seq<U32>, k: nat, ids: seq<int>,
                    next: Option<Placing>)
    requires |ids| == k <= |pos| && Strays(within, pos, k) == Labelled(ids)
    requires Moved(Labelled(ids), pos, draws, k) == next
    requires (forall i | 0 <= i < k :: ids[i] == 0) <==> AllConnected(within, pos, k)
    requires next.Some? && !AllConnected(within, pos, k) ==> |next.value.draws| < |draws|
    ensures AllConnected(within, pos, k) ==> Settled(within, pos, draws, k) == Some(Placing(pos, draws))
    ensures !AllConnected(within, pos, k) ==>
              Settled(within, pos, draws, k)
              == if next.None? then None else Settled(within, next.value.pos, next.value.draws, k)
  {
    hide AllConnected, Moved, Strays, Labelled;
  }

  /** The simulator's nodes, and the random numbers still to come. The stream is finite here: running
      out of it stands for a placement loop that has not finished yet. */
  class Simulation {
    const within: (Position, Position) -> bool
    var nodes: seq<Position>
    var draws: seq<U32>

    constructor (within: (Position, Position) -> bool, nodes: seq<Position>, draws: seq<U32>)
      ensures this.within == within && this.nodes == nodes && this.draws == draws
    {
      this.within, this.nodes, this.draws := within, nodes, draws;
    }

    /** Gives a node new x and y coordinates from the next two draws. */
    method MoveNode(i: nat) returns (ok: bool)
      requires i < |nodes|
      modifies this
      ensures ok == (|old(draws)| >= 2) && (!ok ==> nodes == old(nodes) && draws == old(draws))
      ensures ok ==> nodes == old(nodes)[i := old(nodes)[i].(x := old(draws)[0], y := old(draws)[1])]
      ensures ok ==> draws == old(draws)[2..]
    {
      if |draws| < 2 {
        return false;
      }
      nodes := nodes[i := nodes[i].(x := draws[0], y := draws[1])];
      draws := draws[2..];
      return true;
    }

    /** The inner loop: every node outside cluster 0 is moved. Stops early when the draws run out. */
    method MoveStrays(ids: array<int>, k: nat) returns (retry: bool, ok: bool)
      requires k == ids.Length <= |nodes|
      modifies this
      ensures |nodes| == |old(nodes)|
      ensures forall j | 0 <= j < |nodes| && (j >= k || ids[j] == 0) :: nodes[j] == old(nodes[j])
      ensures ok ==> (retry <==> exists j | 0 <= j < k :: ids[j] != 0)
      ensures (exists j | 0 <= j < k :: ids[j] != 0) || (ok && nodes == old(nodes) && draws == old(draws))
      ensures ok && retry ==> |draws| < |old(draws)|
      ensures Moved(Labelled(ids[..]), old(nodes), old(draws), k)
              == if ok then Some(Placing(nodes, draws)) else None
      ensures !ok ==> |draws| < 2
    {
      ghost var marks := Labelled(ids[..]);
      retry := false;
      var i := 0;
      while i < k
        invariant 0 <= i <= k && |nodes| == |old(nodes)|
        invariant forall j | 0 <= j < |nodes| && (j >= k || ids[j] == 0) :: nodes[j] == old(nodes[j])
        invariant retry <==> exists j | 0 <= j < i :: ids[j] != 0
        invariant if retry then |draws| < |old(draws)| else draws == old(draws) && nodes == old(nodes)
        invariant Moved(marks, old(nodes), old(draws), i) == Some(Placing(nodes, draws))
      {
        if ids[i] != 0 {
          retry := true;
          ok := MoveNode(i);
          if !ok {
            OutOfDraws(marks, old(nodes), old(draws), i + 1, k);
            return;
          }
        }
        i := i + 1;
      }
      ok := true;
    }

    /** The nodes a round of clustering leaves alone, in terms of where the loop started. */
    lemma RoundKeepsGroups(nodes0: seq<Position>, before: seq<Position>, after: seq<Position>, k: nat, ids: seq<int>,
                           count: nat)
      requires k <= |nodes0| == |before| == |after| && Clustered(SpaceOf(within, before, k), ids, count)
      requires k > 0 ==> ids[0] == 0
      requires forall j | 0 <= j < |after| && (j >= k || ids[j] == 0) :: after[j] == before[j]
      requires before[k..] == nodes0[k..]
      requires forall g: nat | g <= k && AllConnected(within, nodes0, g) :: before[..g] == nodes0[..g]
      ensures after[k..] == nodes0[k..]
      ensures forall g: nat | g <= k && AllConnected(within, nodes0, g) :: after[..g] == nodes0[..g]
    {
      hide AllConnected;
      hide Clustered;
      forall g: nat | g <= k && AllConnected(within, nodes0, g)
        ensures after[..g] == nodes0[..g]
      {
        if g > 0 {
          ConnectedDependsOnGroup(within, nodes0, before, g);
          GroupSharesLabel(within, before, g, k, ids, count);
        }
        assert after[..g] == before[..g];
      }
      assert after[k..] == before[k..];
    }

    /** Moves every node outside cluster 0 and clusters again, until there is only cluster 0. A group of
        nodes at the front that is connected already is never moved. */
    method HelperPositionNodesRandomly(numberOfNodesToPlace: nat) returns (placed: bool)
      requires Symmetric(within) && numberOfNodesToPlace <= |nodes|
      modifies this
      ensures |nodes| == |old(nodes)|
      ensures placed ==> AllConnected(within, nodes, numberOfNodesToPlace)
      ensures Settled(within, old(nodes), old(draws), numberOfNodesToPlace)
              == if placed then Some(Placing(nodes, draws)) else None
      ensures !placed ==> |draws| < 2
      ensures AllConnected(within, old(nodes), numberOfNodesToPlace) ==> placed && nodes == old(nodes)
      ensures forall g: nat | g <= numberOfNodesToPlace && AllConnected(within, old(nodes), g) ::
                nodes[..g] == old(nodes[..g])
      ensures nodes[numberOfNodesToPlace..] == old(nodes[numberOfNodesToPlace..])
    {
      hide AllConnected, Clustered, Moved, Strays, Labelled, Settled;
      ghost var nodes0 := nodes;
      var k := numberOfNodesToPlace;
      var retry := true;
      while retry
        invariant |nodes| == |nodes0|
        invariant !retry ==> AllConnected(within, nodes, k)
        invariant Settled(within, nodes0, old(draws), k) == Settled(within, nodes, draws, k)
        invariant AllConnected(within, nodes0, k) ==> nodes == nodes0
        invariant forall g: nat | g <= k && AllConnected(within, nodes0, g) :: nodes[..g] == nodes0[..g]
        invariant nodes[k..] == nodes0[k..]
        decreases retry, |draws|
      {
        var ids := new int[k](_ => UNCLASSIFIED);
        var sp := SpaceOf(within, nodes, k);
        var count := Dbscan.Dbscan(sp, ids);
        OneClusterIffConnected(within, nodes, k, ids[..], count);
        ghost var before, drawsBefore := nodes, draws;
        var ok;
        retry, ok := MoveStrays(ids, k);
        assert k > 0 ==> Core(sp, 0);
        StraysAreLabelled(within, before, k, ids[..], count);
        SettledStep(within, before, drawsBefore, k, ids[..], if ok then Some(Placing(nodes, draws)) else None);
        RoundKeepsGroups(nodes0, before, nodes, k, ids[..], count);
        if !ok {
          return false;
        }
      }
      SettledAlready(within, nodes, draws, k);
      return true;
    }

    /** Gives every node the position the draws say, at height 0. */
    method DrawPositions() returns (ok: bool)
      modifies this
      ensures |nodes| == |old(nodes)| && ok == (2 * |nodes| <= |old(draws)|)
      ensures ok ==> nodes == Drawn(old(draws), |nodes|) && draws == old(draws)[2 * |nodes|..]
      ensures !ok ==> |draws| < 2
    {
      var i := 0;
      while i < |nodes|
        invariant 0 <= i <= |nodes| == |old(nodes)| && 2 * i <= |old(draws)|
        invariant draws == old(draws)[2 * i..]
        invariant nodes[..i] == Drawn(old(draws), i)
      {
        ok := MoveNode(i);
        if !ok {
          return;
        }
        nodes := nodes[i := nodes[i].(z := 0)];
        i := i + 1;
      }
      assert nodes[..i] == nodes;
      ok := true;
    }

    /** Draws a position for every node, places the mesh nodes, then all nodes. When both passes have
        finished, the mesh nodes are connected on their own, everything is connected, and the second
        pass has moved none of the mesh nodes: after the first pass they were where they are now, while
        the asset nodes were still where they had been drawn. A group at the front that was drawn connected
        stays where it was drawn. */
    method PositionNodesRandomly(numberOfAssetNodes: nat) returns (placed: bool, afterFirst: seq<Position>)
      requires Symmetric(within) && numberOfAssetNodes <= |nodes|
      modifies this
      ensures |nodes| == |old(nodes)|
      ensures !placed ==> |draws| < 2
      ensures placed ==>
                && 2 * |nodes| <= |old(draws)| && |afterFirst| == |nodes|
                && var first := Settled(within, Drawn(old(draws), |nodes|), old(draws)[2 * |nodes|..],
                                        |nodes| - numberOfAssetNodes);
                   && first.Some? && first.value.pos == afterFirst
                   && Settled(within, afterFirst, first.value.draws, |nodes|) == Some(Placing(nodes, draws))
      ensures placed ==>
                var meshNodes := |nodes| - numberOfAssetNodes;
                && AllConnected(within, nodes, meshNodes)
                && AllConnected(within, nodes, |nodes|)
                && 2 * |nodes| <= |old(draws)| && |afterFirst| == |nodes|
                && AllConnected(within, afterFirst, meshNodes)
                && afterFirst[meshNodes..] == Drawn(old(draws), |nodes|)[meshNodes..]
                && nodes[..meshNodes] == afterFirst[..meshNodes]
                && forall g: nat | g <= meshNodes && AllConnected(within, Drawn(old(draws), |nodes|), g) ::
                     nodes[..g] == Drawn(old(draws), |nodes|)[..g]
    {
      hide AllConnected, Drawn, Settled;
      placed, afterFirst := false, [];
      var meshNodes := |nodes| - numberOfAssetNodes;
      var ok := DrawPositions();
      if !ok {
        return;
      }
      placed := HelperPositionNodesRandomly(meshNodes);
      if !placed {
        return;
      }
      afterFirst := nodes;
      placed := HelperPositionNodesRandomly(|nodes|);
      if placed {
        ConnectedDependsOnGroup(within, afterFirst, nodes, meshNodes);
      }
    }
  }
}
