/** The propagation passes of CheckMeshingConsistency in cherrysim/CherrySim.cpp: a recursion over the
    handshaked mesh links that carries pending cluster size changes along and counts the nodes. */
module ClusterWalk {
  import opened Results
  import opened Forest
  import opened ClusterSums

  /** A mesh connection as the check sees it: partner, handshake flag and the two pending counters. */
  datatype MeshConnection = MeshConnection(partner: nat, handshakeDone: bool, updatesToSend: I16, updatesReceived: I16)

  type Links = seq<seq<MeshConnection>>

  predicate IsLink(l: seq<MeshConnection>, i: nat, v: nat) {
    i < |l| && l[i].handshakeDone && l[i].partner == v
  }

  /** Index of the last handshaked connection to v, or -1. */
  function LinkIndex(l: seq<MeshConnection>, v: nat): (r: int)
    ensures -1 <= r < |l|
    ensures r >= 0 ==> IsLink(l, r, v)
    ensures r < 0 ==> forall i: nat :: !IsLink(l, i, v)
  {
    if l == [] then -1
    else if IsLink(l, |l| - 1, v) then |l| - 1
    else
      var r := LinkIndex(l[..|l| - 1], v);
      assert forall i: nat | i < |l| - 1 :: IsLink(l, i, v) ==> IsLink(l[..|l| - 1], i, v);
      r
  }

  function LinkGraph(c: Links): (g: Graph)
    ensures |g| == |c|
  {
    seq(|c|, u requires 0 <= u < |c| => set i | 0 <= i < |c[u]| && c[u][i].handshakeDone :: c[u][i].partner)
  }

  /** Partners are nodes, and no node has two handshaked connections to the same partner. */
  ghost predicate SimpleLinks(c: Links) {
    && (forall u: nat, i: nat | u < |c| && i < |c[u]| && c[u][i].handshakeDone :: c[u][i].partner < |c|)
    && (forall u: nat, i: nat, v: nat | u < |c| && IsLink(c[u], i, v) :: LinkIndex(c[u], v) == i)
  }

  /** Only counters of handshaked connections differ. */
  ghost predicate SameLinks(c: Links, c': Links) {
    && |c| == |c'|
    && (forall u: nat | u < |c| :: |c[u]| == |c'[u]|)
    && (forall u: nat, i: nat | u < |c| && i < |c[u]| ::
          && c'[u][i].partner == c[u][i].partner && c'[u][i].handshakeDone == c[u][i].handshakeDone
          && (!c[u][i].handshakeDone ==> c'[u][i] == c[u][i]))
  }

  lemma {:induction false} SameIndex(l: seq<MeshConnection>, l': seq<MeshConnection>, v: nat)
    requires |l| == |l'|
    requires forall i: nat | i < |l| :: l'[i].partner == l[i].partner && l'[i].handshakeDone == l[i].handshakeDone
    ensures LinkIndex(l', v) == LinkIndex(l, v)
    decreases |l|
  {
    if l != [] {
      SameIndex(l[..|l| - 1], l'[..|l| - 1], v);
    }
  }

  lemma SameLinksSameGraph(c: Links, c': Links)
    requires SameLinks(c, c')
    ensures LinkGraph(c') == LinkGraph(c)
    ensures SimpleLinks(c) ==> SimpleLinks(c')
    ensures forall u: nat, v: nat | u < |c| :: LinkIndex(c'[u], v) == LinkIndex(c[u], v)
  {
    forall u: nat, v: nat | u < |c|
      ensures LinkIndex(c'[u], v) == LinkIndex(c[u], v)
    {
      SameIndex(c[u], c'[u], v);
    }
    forall u: nat | u < |c|
      ensures LinkGraph(c')[u] == LinkGraph(c)[u]
    {}
    if SimpleLinks(c) {
      forall u: nat, i: nat, v: nat | u < |c'| && IsLink(c'[u], i, v)
        ensures LinkIndex(c'[u], v) == i
      {
        assert IsLink(c[u], i, v);
      }
    }
  }

  lemma SameLinksSelf(c: Links)
    ensures SameLinks(c, c)
  {}

  lemma SameLinksTrans(c: Links, c': Links, c'': Links)
    requires SameLinks(c, c') && SameLinks(c', c'')
    ensures SameLinks(c, c'')
  {}

  lemma SameLinksAt(c: Links, c': Links, v: nat, start: Option<nat>, i: nat)
    requires SameLinks(c, c') && v < |c|
    ensures |c'| == |c| && |c'[v]| == |c[v]|
    ensures i < |c[v]| ==> c'[v][i].partner == c[v][i].partner && GoesOn(c'[v], start, i) == GoesOn(c[v], start, i)
    ensures i <= |c[v]| ==> PartnersBelow(c'[v], start, i) == PartnersBelow(c[v], start, i)
  {
    if i <= |c[v]| {
      SamePartners(c, c', v, start, i);
    }
  }

  lemma AdjacentIsLink(c: Links, u: nat, v: nat)
    requires SimpleLinks(c) && u < |c|
    ensures Adjacent(LinkGraph(c), u, v) <==> LinkIndex(c[u], v) >= 0
  {
    var i := LinkIndex(c[u], v);
    if i >= 0 {
      assert c[u][i].partner == v;
    }
    if Adjacent(LinkGraph(c), u, v) {
      var k :| 0 <= k < |c[u]| && c[u][k].handshakeDone && c[u][k].partner == v;
      assert IsLink(c[u], k, v);
    }
  }

  // ---------- What is pending on u -> v ----------

  function SendTo(l: seq<MeshConnection>, v: nat): I16 {
    if LinkIndex(l, v) >= 0 then l[LinkIndex(l, v)].updatesToSend else 0
  }

  function ReceivedFrom(l: seq<MeshConnection>, u: nat): I16 {
    if LinkIndex(l, u) >= 0 then l[LinkIndex(l, u)].updatesReceived else 0
  }

  /** On the way from u to v: what u has not sent yet, and what v has not processed yet. */
  function PendingAt(c: Links, u: nat, v: nat): int
    requires u < |c| && v < |c|
  {
    SendTo(c[u], v) + ReceivedFrom(c[v], u)
  }

  function PendingOf(c: Links): Pending {
    seq(|c|, u requires 0 <= u < |c| => seq(|c|, v requires 0 <= v < |c| => PendingAt(c, u, v)))
  }

  /** The two counters of every bond by themselves: at u for the way to v, and at v for the way from u. */
  function SendOf(c: Links): Pending {
    seq(|c|, u requires 0 <= u < |c| => seq(|c|, v requires 0 <= v < |c| => SendTo(c[u], v)))
  }

  function ReceivedOf(c: Links): Pending {
    seq(|c|, u requires 0 <= u < |c| => seq(|c|, v requires 0 <= v < |c| => ReceivedFrom(c[v], u)))
  }

  /** Connection i of node u with another counter value. */
  function SetToSend(c: Links, u: nat, i: nat, x: I16): Links
    requires u < |c| && i < |c[u]|
  {
    c[u := c[u][i := c[u][i].(updatesToSend := x)]]
  }

  function SetReceived(c: Links, u: nat, i: nat, x: I16): Links
    requires u < |c| && i < |c[u]|
  {
    c[u := c[u][i := c[u][i].(updatesReceived := x)]]
  }

  lemma SetToSendAt(c: Links, u: nat, i: nat, v: nat, x: I16, a: nat, b: nat)
    requires SimpleLinks(c) && u < |c| && v < |c| && IsLink(c[u], i, v) && a < |c| && b < |c|
    requires SameLinks(c, SetToSend(c, u, i, x))
    ensures PendingAt(SetToSend(c, u, i, x), a, b)
            == PendingAt(c, a, b) + if a == u && b == v then x - c[u][i].updatesToSend else 0
  {
    var c' := SetToSend(c, u, i, x);
    SameLinksSameGraph(c, c');
    hide LinkIndex;
    assert ReceivedFrom(c'[b], a) == ReceivedFrom(c[b], a);
    if a == u && b != v {
      assert LinkIndex(c[u], b) != i;
    }
  }

  lemma SetToSendPending(c: Links, u: nat, i: nat, v: nat, x: I16)
    requires SimpleLinks(c) && u < |c| && v < |c| && IsLink(c[u], i, v)
    ensures SameLinks(c, SetToSend(c, u, i, x))
    ensures PendingOf(SetToSend(c, u, i, x)) == Put(PendingOf(c), u, v, PendingOf(c)[u][v] - c[u][i].updatesToSend + x)
  {
    var c' := SetToSend(c, u, i, x);
    SameLinksSameGraph(c, c');
    var P' := Put(PendingOf(c), u, v, PendingOf(c)[u][v] - c[u][i].updatesToSend + x);
    hide LinkIndex, SetToSend, PendingAt;
    forall a: nat, b: nat | a < |c| && b < |c|
      ensures PendingAt(c', a, b) == P'[a][b]
    {
      SetToSendAt(c, u, i, v, x, a, b);
    }
    SamePending(PendingOf(c'), P');
  }

  /** The counters of one node's connections after one of them has got another value. */
  lemma RowCounters(l: seq<MeshConnection>, i: nat, v: nat, x: I16, w: nat)
    requires IsLink(l, i, v) && LinkIndex(l, v) == i
    ensures SendTo(l[i := l[i].(updatesToSend := x)], w) == if w == v then x else SendTo(l, w)
    ensures ReceivedFrom(l[i := l[i].(updatesToSend := x)], w) == ReceivedFrom(l, w)
    ensures ReceivedFrom(l[i := l[i].(updatesReceived := x)], w) == if w == v then x else ReceivedFrom(l, w)
    ensures SendTo(l[i := l[i].(updatesReceived := x)], w) == SendTo(l, w)
  {
    SameIndex(l, l[i := l[i].(updatesToSend := x)], w);
    SameIndex(l, l[i := l[i].(updatesReceived := x)], w);
    hide LinkIndex;
    if w != v {
      assert LinkIndex(l, w) != i;
    }
  }

  lemma SetToSendCounters(c: Links, u: nat, i: nat, v: nat, x: I16)
    requires SimpleLinks(c) && u < |c| && v < |c| && IsLink(c[u], i, v)
    ensures SendOf(SetToSend(c, u, i, x)) == Put(SendOf(c), u, v, x)
    ensures ReceivedOf(SetToSend(c, u, i, x)) == ReceivedOf(c)
  {
    var c' := SetToSend(c, u, i, x);
    hide LinkIndex, SendTo, ReceivedFrom;
    forall a: nat, b: nat | a < |c| && b < |c|
      ensures SendOf(c')[a][b] == Put(SendOf(c), u, v, x)[a][b]
      ensures ReceivedOf(c')[a][b] == ReceivedOf(c)[a][b]
    {
      RowCounters(c[u], i, v, x, a);
      RowCounters(c[u], i, v, x, b);
    }
    SamePending(SendOf(c'), Put(SendOf(c), u, v, x));
    SamePending(ReceivedOf(c'), ReceivedOf(c));
  }

  lemma SetReceivedCounters(c: Links, v: nat, i: nat, u: nat, x: I16)
    requires SimpleLinks(c) && u < |c| && v < |c| && IsLink(c[v], i, u)
    ensures SendOf(SetReceived(c, v, i, x)) == SendOf(c)
    ensures ReceivedOf(SetReceived(c, v, i, x)) == Put(ReceivedOf(c), u, v, x)
  {
    var c' := SetReceived(c, v, i, x);
    hide LinkIndex, SendTo, ReceivedFrom;
    forall a: nat, b: nat | a < |c| && b < |c|
      ensures SendOf(c')[a][b] == SendOf(c)[a][b]
      ensures ReceivedOf(c')[a][b] == Put(ReceivedOf(c), u, v, x)[a][b]
    {
      RowCounters(c[v], i, u, x, a);
      RowCounters(c[v], i, u, x, b);
    }
    SamePending(SendOf(c'), SendOf(c));
    SamePending(ReceivedOf(c'), Put(ReceivedOf(c), u, v, x));
  }

  lemma SetReceivedAt(c: Links, v: nat, i: nat, u: nat, x: I16, a: nat, b: nat)
    requires SimpleLinks(c) && u < |c| && v < |c| && IsLink(c[v], i, u) && a < |c| && b < |c|
    requires SameLinks(c, SetReceived(c, v, i, x))
    ensures PendingAt(SetReceived(c, v, i, x), a, b)
            == PendingAt(c, a, b) + if a == u && b == v then x - c[v][i].updatesReceived else 0
  {
    var c' := SetReceived(c, v, i, x);
    SameLinksSameGraph(c, c');
    hide LinkIndex;
    assert SendTo(c'[a], b) == SendTo(c[a], b);
    if b == v && a != u {
      assert LinkIndex(c[v], a) != i;
    }
  }

  lemma SetReceivedPending(c: Links, v: nat, i: nat, u: nat, x: I16)
    requires SimpleLinks(c) && u < |c| && v < |c| && IsLink(c[v], i, u)
    ensures SameLinks(c, SetReceived(c, v, i, x))
    ensures PendingOf(SetReceived(c, v, i, x))
            == Put(PendingOf(c), u, v, PendingOf(c)[u][v] - c[v][i].updatesReceived + x)
  {
    var c' := SetReceived(c, v, i, x);
    SameLinksSameGraph(c, c');
    var P' := Put(PendingOf(c), u, v, PendingOf(c)[u][v] - c[v][i].updatesReceived + x);
    hide LinkIndex, SetReceived, PendingAt;
    forall a: nat, b: nat | a < |c| && b < |c|
      ensures PendingAt(c', a, b) == P'[a][b]
    {
      SetReceivedAt(c, v, i, u, x, a, b);
    }
    SamePending(PendingOf(c'), P');
  }

  lemma SamePending(P: Pending, Q: Pending)
    requires |P| == |Q| && forall a: nat | a < |P| :: |P[a]| == |Q[a]| == |P|
    requires forall a: nat, b: nat | a < |P| && b < |P| :: P[a][b] == Q[a][b]
    ensures P == Q
  {
    forall a: nat | a < |P|
      ensures P[a] == Q[a]
    {}
  }

  // ---------- Where one walk goes ----------

  /** The nodes a walk visits that enters v over the link from `start`, or begins at v. */
  ghost function Region(g: Graph, start: Option<nat>, v: nat): set<nat> {
    if start.Some? then set w: nat | w < |g| && Beyond(g, start.value, v, w) else Component(g, v)
  }

  /** The neighbours it goes on to from v. */
  function Others(g: Graph, start: Option<nat>, v: nat): set<nat>
    requires v < |g|
  {
    if start.Some? then g[v] - {start.value} else g[v]
  }

  /** The directed links it goes over. */
  ghost predicate InWalk(g: Graph, start: Option<nat>, v: nat, c: nat, d: nat)
    requires v < |g|
  {
    if start.Some? then Crossed(g, start.value, v, c, d) else CrossedAny(g, v, g[v], c, d)
  }

  ghost predicate CrossedAny(g: Graph, v: nat, done: set<nat>, c: nat, d: nat) {
    exists x | x in done :: Crossed(g, v, x, c, d)
  }

  /** v and everything beyond the links to `done`. */
  ghost function Seen(g: Graph, v: nat, done: set<nat>): set<nat> {
    set w: nat | w < |g| && (w == v || BeyondAny(g, v, done, w))
  }

  ghost predicate CanEnter(g: Graph, start: Option<nat>, v: nat) {
    IsForest(g) && v < |g| && (start.Some? ==> Adjacent(g, start.value, v))
  }

  lemma DepartureIsReach(g: Graph, v: nat, w: nat)
    requires v < |g|
    ensures Reachable(g, v, w) <==> w == v || BeyondAny(g, v, g[v], w)
  {
    if Reachable(g, v, w) && w != v {
      var p :| Trail(g, p) && p[0] == v && p[|p| - 1] == w;
      assert Adjacent(g, p[0], p[0 + 1]);
      assert Departs(g, p, v, p[1]);
      assert Beyond(g, v, p[1], w);
    }
    if w == v {
      assert Trail(g, [v]);
    } else if BeyondAny(g, v, g[v], w) {
      var x :| x in g[v] && Beyond(g, v, x, w);
      var p :| Departs(g, p, v, x) && p[|p| - 1] == w;
    }
  }

  /** A walk visits v and what lies beyond the links it goes on over. */
  lemma RegionIsSeen(g: Graph, start: Option<nat>, v: nat)
    requires CanEnter(g, start, v)
    ensures Region(g, start, v) == Seen(g, v, Others(g, start, v))
  {
    hide Beyond;
    hide Reachable;
    forall w: nat | w < |g|
      ensures w in Region(g, start, v) <==> w in Seen(g, v, Others(g, start, v))
    {
      match start
      case None =>
        DepartureIsReach(g, v, w);
      case Some(u) =>
        BeyondSelf(g, u, v);
        if Beyond(g, u, v, w) {
          var x := BeyondCases(g, u, v, w);
        }
        if BeyondAny(g, v, g[v] - {u}, w) {
          var x :| x in g[v] - {u} && Beyond(g, v, x, w);
          BeyondStep(g, u, v, x, w);
        }
    }
  }

  /** The links of a walk: the one it enters by, and those crossed beyond the others. */
  lemma InWalkCases(g: Graph, start: Option<nat>, v: nat, c: nat, d: nat)
    requires CanEnter(g, start, v)
    ensures InWalk(g, start, v, c, d)
       <==> (start.Some? && c == start.value && d == v) || CrossedAny(g, v, Others(g, start, v), c, d)
  {
    hide Crossed;
    match start
    case None =>
    case Some(u) =>
      BeyondSelf(g, u, v);
      if Crossed(g, u, v, c, d) {
        var x := CrossedCases(g, u, v, c, d);
      }
      if CrossedAny(g, v, g[v] - {u}, c, d) {
        var x :| x in g[v] - {u} && Crossed(g, v, x, c, d);
        CrossedStep(g, u, v, x, c, d);
      }
  }

  /** Going on from v the walk has fewer nodes left: it ends. */
  lemma RegionShrinks(g: Graph, start: Option<nat>, v: nat, x: nat)
    requires CanEnter(g, start, v) && x in Others(g, start, v)
    ensures Region(g, Some(v), x) < Region(g, start, v)
  {
    hide Beyond;
    RegionIsSeen(g, start, v);
    NotBeyondItself(g, v, x);
    assert v in Region(g, start, v) && v !in Region(g, Some(v), x);
    forall w | w in Region(g, Some(v), x)
      ensures w in Region(g, start, v)
    {
      assert BeyondAny(g, v, Others(g, start, v), w);
    }
  }

  lemma SeenGrows(g: Graph, v: nat, done: set<nat>, x: nat)
    requires IsForest(g) && v < |g| && x !in done
    ensures Seen(g, v, done + {x}) == Seen(g, v, done) + Region(g, Some(v), x)
    ensures |Seen(g, v, done + {x})| == |Seen(g, v, done)| + |Region(g, Some(v), x)|
  {
    hide Beyond;
    var s, r := Seen(g, v, done), Region(g, Some(v), x);
    NotBeyondItself(g, v, x);
    forall w: nat | w < |g|
      ensures w in Seen(g, v, done + {x}) <==> w in s || w in r
      ensures !(w in s && w in r)
    {
      if Beyond(g, v, x, w) {
        assert BeyondAny(g, v, done + {x}, w);
        if BeyondAny(g, v, done, w) {
          var y :| y in done && Beyond(g, v, y, w);
          BeyondDisjoint(g, v, x, y, w);
        }
      }
      if BeyondAny(g, v, done, w) {
        var y :| y in done && Beyond(g, v, y, w);
        assert y in done + {x};
      }
    }
    assert s * r == {};
  }

  lemma SeenNothing(g: Graph, v: nat)
    requires v < |g|
    ensures Seen(g, v, {}) == {v}
  {}

  // ---------- What one walk does to the counters ----------

  ghost predicate WalkCleared(g: Graph, P: Pending, start: Option<nat>, v: nat)
    requires Fits(g, P) && v < |g|
  {
    forall c: nat, d: nat | Adjacent(g, c, d) && InWalk(g, start, v, c, d) :: P[c][d] == 0
  }

  ghost predicate WalkFramed(g: Graph, P0: Pending, P: Pending, start: Option<nat>, v: nat)
    requires Fits(g, P0) && Fits(g, P) && v < |g|
  {
    forall c: nat, d: nat | Adjacent(g, c, d) && !InWalk(g, start, v, c, d) :: P[c][d] == P0[c][d]
  }

  /** Part of the walk: the entering link and the links beyond `done` are cleared, all others as before. */
  ghost predicate Progress(g: Graph, P0: Pending, P: Pending, start: Option<nat>, v: nat, done: set<nat>)
    requires Fits(g, P0) && Fits(g, P)
  {
    forall c: nat, d: nat | Adjacent(g, c, d) ::
      P[c][d] == if (start.Some? && c == start.value && d == v) || CrossedAny(g, v, done, c, d) then 0 else P0[c][d]
  }

  lemma ProgressStart(g: Graph, P0: Pending, start: Option<nat>, v: nat)
    requires Fits(g, P0) && CanEnter(g, start, v)
    ensures var P := if start.Some? then Put(P0, start.value, v, 0) else P0;
            Fits(g, P) && Progress(g, P0, P, start, v, {})
  {}

  lemma ProgressEnd(g: Graph, P0: Pending, P: Pending, start: Option<nat>, v: nat)
    requires Fits(g, P0) && Fits(g, P) && CanEnter(g, start, v)
    requires Progress(g, P0, P, start, v, Others(g, start, v))
    ensures WalkCleared(g, P, start, v) && WalkFramed(g, P0, P, start, v)
  {
    hide CrossedAny;
    hide InWalk;
    hide Others;
    forall c: nat, d: nat | Adjacent(g, c, d)
      ensures if InWalk(g, start, v, c, d) then P[c][d] == 0 else P[c][d] == P0[c][d]
    {
      InWalkCases(g, start, v, c, d);
    }
  }

  /** The walk beyond v -> x leaves what was done beyond other links alone. */
  lemma ProgressStep(g: Graph, P0: Pending, P: Pending, P1: Pending, P2: Pending, start: Option<nat>, v: nat,
                     done: set<nat>, x: nat, t: int)
    requires Fits(g, P0) && Fits(g, P) && Fits(g, P1) && Fits(g, P2) && CanEnter(g, start, v)
    requires Progress(g, P0, P, start, v, done) && x in Others(g, start, v) && x !in done
    requires Adjacent(g, v, x) && P1 == Put(P, v, x, t)
    requires WalkCleared(g, P2, Some(v), x) && WalkFramed(g, P1, P2, Some(v), x)
    ensures Progress(g, P0, P2, start, v, done + {x})
  {
    hide Crossed;
    hide Beyond;
    BeyondSelf(g, v, x);
    forall c: nat, d: nat | Adjacent(g, c, d)
      ensures P2[c][d] == if (start.Some? && c == start.value && d == v) || CrossedAny(g, v, done + {x}, c, d) then 0
                          else P0[c][d]
    {
      if Crossed(g, v, x, c, d) {
        assert InWalk(g, Some(v), x, c, d);
        assert CrossedAny(g, v, done + {x}, c, d);
      } else {
        assert P2[c][d] == P1[c][d] == P[c][d];
        if CrossedAny(g, v, done + {x}, c, d) {
          var y :| y in done + {x} && Crossed(g, v, y, c, d);
          assert CrossedAny(g, v, done, c, d);
        }
        if CrossedAny(g, v, done, c, d) {
          var y :| y in done && Crossed(g, v, y, c, d);
          assert y in done + {x};
        }
      }
    }
  }

  lemma PutTwice(P: Pending, u: nat, v: nat, x: int, y: int)
    requires u < |P| && v < |P[u]|
    ensures Put(Put(P, u, v, x), u, v, y) == Put(P, u, v, y)
  {
    assert P[u][v := x][v := y] == P[u][v := y];
  }

  /** What is pending over u -> v has been taken off the two connections of the bond: both their counters are zero now,
      and nothing else has changed. */
  ghost predicate BondTaken(c: Links, c': Links, u: nat, v: nat, taken: int) {
    && SameLinks(c, c') && u < |c| && v < |c|
    && Cong(taken, PendingOf(c)[u][v])
    && PendingOf(c') == Put(PendingOf(c), u, v, 0)
    && SendOf(c') == Put(SendOf(c), u, v, 0)
    && ReceivedOf(c') == Put(ReceivedOf(c), u, v, 0)
  }

  lemma BondPending(c: Links, u: nat, v: nat, i: nat, j: nat)
    requires SimpleLinks(c) && u < |c| && v < |c| && IsLink(c[u], i, v) && IsLink(c[v], j, u)
    ensures PendingOf(c)[u][v] == c[u][i].updatesToSend + c[v][j].updatesReceived
    ensures var c1 := SetToSend(c, u, i, 0);
            && |c1| == |c| && j < |c1[v]| && c1[v][j].updatesReceived == c[v][j].updatesReceived
            && SimpleLinks(c1) && IsLink(c1[v], j, u) && SameLinks(c, SetReceived(c1, v, j, 0))
            && PendingOf(SetReceived(c1, v, j, 0)) == Put(PendingOf(c), u, v, 0)
  {
    hide LinkIndex;
    assert PendingOf(c)[u][v] == PendingAt(c, u, v);
    hide PendingOf;
    SetToSendPending(c, u, i, v, 0);
    var c1 := SetToSend(c, u, i, 0);
    SameLinksSameGraph(c, c1);
    SetReceivedPending(c1, v, j, u, 0);
    PutTwice(PendingOf(c), u, v, PendingOf(c1)[u][v], 0);
  }

  /** Clearing the two counters of a bond clears what is pending over it. */
  lemma BondCleared(c: Links, u: nat, v: nat, i: nat, j: nat)
    requires SimpleLinks(c) && u < |c| && v < |c| && IsLink(c[u], i, v) && IsLink(c[v], j, u)
    ensures var c1 := SetToSend(c, u, i, 0);
            && |c1| == |c| && j < |c1[v]| && c1[v][j].updatesReceived == c[v][j].updatesReceived
            && BondTaken(c, SetReceived(c1, v, j, 0), u, v,
                         Wrap16(Wrap16(0 + c[u][i].updatesToSend) + c[v][j].updatesReceived))
  {
    hide LinkIndex, SendOf, ReceivedOf, PendingOf, Cong, Wrap16, SimpleLinks, SameLinks;
    BondPending(c, u, v, i, j);
    SetToSendCounters(c, u, i, v, 0);
    SetReceivedCounters(SetToSend(c, u, i, 0), v, j, u, 0);
    TakenInTwo(c[u][i].updatesToSend, c[v][j].updatesReceived);
  }

  lemma BondKeepsLinks(c: Links, c': Links, u: nat, v: nat, taken: int)
    requires BondTaken(c, c', u, v, taken)
    ensures SameLinks(c, c')
  {
    hide SameLinks, PendingOf, SendOf, ReceivedOf, Cong;
  }

  // ---------- One visit: the links of v, one after the other ----------

  /** In the middle of visiting v: `done` has been walked, the rest is still owed toAdd. */
  ghost predicate Visiting(g: Graph, s0: seq<I16>, P0: Pending, s: seq<I16>, P: Pending,
                           start: Option<nat>, v: nat, toAdd: int, done: set<nat>)
  {
    && CanEnter(g, start, v) && Fits(g, P0) && Fits(g, P) && done <= Others(g, start, v)
    && Owed(g, s0, P0, s, P, v, Others(g, start, v) - done, toAdd)
    && Progress(g, P0, P, start, v, done)
  }

  /** What a finished walk guarantees. */
  ghost predicate Walked(g: Graph, s0: seq<I16>, P0: Pending, s: seq<I16>, P: Pending, start: Option<nat>, v: nat)
  {
    && v < |g| && SamePrediction(g, s0, P0, s, P)
    && WalkCleared(g, P, start, v) && WalkFramed(g, P0, P, start, v)
  }

  lemma VisitingStart(g: Graph, s0: seq<I16>, P0: Pending, start: Option<nat>, v: nat, toAdd: I16)
    requires CanEnter(g, start, v) && Fits(g, P0) && |s0| == |g|
    requires if start.Some? then Cong(toAdd, P0[start.value][v]) else toAdd == 0
    ensures Visiting(g, s0, P0, s0[v := Wrap16(s0[v] + toAdd)],
                     if start.Some? then Put(P0, start.value, v, 0) else P0, start, v, toAdd, {})
  {
    hide Owed;
    hide Progress;
    ProgressStart(g, P0, start, v);
    if start.Some? {
      ArriveOwes(g, s0, P0, start.value, v, toAdd);
    } else {
      StartOwesNothing(g, s0, P0, v, g[v]);
    }
    assert Others(g, start, v) - {} == Others(g, start, v);
  }

  lemma VisitingStep(g: Graph, s0: seq<I16>, P0: Pending, s: seq<I16>, P: Pending, s2: seq<I16>, P2: Pending,
                     start: Option<nat>, v: nat, toAdd: I16, done: set<nat>, x: nat, t: int)
    requires Visiting(g, s0, P0, s, P, start, v, toAdd, done) && x in Others(g, start, v) - done
    requires Adjacent(g, v, x) && Cong(t, P[v][x] + toAdd)
    requires Walked(g, s, Put(P, v, x, t), s2, P2, Some(v), x)
    ensures Visiting(g, s0, P0, s2, P2, start, v, toAdd, done + {x})
  {
    hide Owed;
    hide Progress;
    hide WalkCleared;
    hide WalkFramed;
    var rest := Others(g, start, v) - done;
    PutSettles(g, s0, P0, s, P, v, rest, x, toAdd, t);
    assert Fits(g, P2) by { hide Beyond; }
    OwedThenSame(g, s0, P0, s, Put(P, v, x, t), s2, P2, v, rest - {x}, toAdd);
    ProgressStep(g, P0, P, Put(P, v, x, t), P2, start, v, done, x, t);
    assert Others(g, start, v) - (done + {x}) == rest - {x};
  }

  lemma VisitingEnd(g: Graph, s0: seq<I16>, P0: Pending, s: seq<I16>, P: Pending, start: Option<nat>, v: nat,
                    toAdd: int)
    requires CanEnter(g, start, v) && Visiting(g, s0, P0, s, P, start, v, toAdd, Others(g, start, v))
    ensures Walked(g, s0, P0, s, P, start, v)
  {
    hide Progress;
    ProgressEnd(g, P0, P, start, v);
    assert Others(g, start, v) - Others(g, start, v) == {};
    forall w: nat | w < |g|
      ensures Cong(Predicted(g, s, P, w), Predicted(g, s0, P0, w))
    {
      assert !BeyondAny(g, v, {}, w);
    }
  }

  // ---------- The two counters of every bond ----------

  /** In the middle of visiting v: both counters of the bonds gone over are zero, all others as before, but for
      what is put on the links that are still to be gone over. */
  ghost predicate CountersVisiting(c0: Links, c: Links, start: Option<nat>, v: nat, done: set<nat>)
  {
    && |c| == |c0|
    && Progress(LinkGraph(c0), SendOf(c0), SendOf(c), start, v, done)
    && Progress(LinkGraph(c0), ReceivedOf(c0), ReceivedOf(c), start, v, done)
  }

  /** After a walk: both counters of every bond gone over are zero, all others as before. */
  ghost predicate CountersWalked(c0: Links, c: Links, start: Option<nat>, v: nat)
  {
    && |c| == |c0| && v < |c|
    && WalkCleared(LinkGraph(c0), SendOf(c), start, v) && WalkFramed(LinkGraph(c0), SendOf(c0), SendOf(c), start, v)
    && WalkCleared(LinkGraph(c0), ReceivedOf(c), start, v)
    && WalkFramed(LinkGraph(c0), ReceivedOf(c0), ReceivedOf(c), start, v)
  }

  lemma CountersFit(c: Links)
    ensures |LinkGraph(c)| == |SendOf(c)| == |ReceivedOf(c)| == |c|
    ensures Fits(LinkGraph(c), SendOf(c)) && Fits(LinkGraph(c), ReceivedOf(c))
    ensures forall u | 0 <= u < |c| :: |SendOf(c)[u]| == |ReceivedOf(c)[u]| == |c|
  {}

  lemma PutSame(P: Pending, u: nat, v: nat)
    requires u < |P| && v < |P[u]|
    ensures Put(P, u, v, P[u][v]) == P
  {
    assert P[u][v := P[u][v]] == P[u];
  }

  lemma CountersStart(c0: Links, c: Links, start: Option<nat>, v: nat)
    requires CanEnter(LinkGraph(c0), start, v) && |c| == |c0|
    requires SendOf(c) == if start.Some? then Put(SendOf(c0), start.value, v, 0) else SendOf(c0)
    requires ReceivedOf(c) == if start.Some? then Put(ReceivedOf(c0), start.value, v, 0) else ReceivedOf(c0)
    ensures CountersVisiting(c0, c, start, v, {})
  {
    hide Progress;
    ProgressStart(LinkGraph(c0), SendOf(c0), start, v);
    ProgressStart(LinkGraph(c0), ReceivedOf(c0), start, v);
  }

  lemma CountersStep(c0: Links, c1: Links, c2: Links, c3: Links, start: Option<nat>, v: nat, done: set<nat>, i: nat,
                     x: nat, t: I16)
    requires CanEnter(LinkGraph(c0), start, v) && CountersVisiting(c0, c1, start, v, done)
    requires x in Others(LinkGraph(c0), start, v) && x !in done && Adjacent(LinkGraph(c0), v, x)
    requires SimpleLinks(c1) && x < |c1| && IsLink(c1[v], i, x) && c2 == SetToSend(c1, v, i, t)
    requires LinkGraph(c2) == LinkGraph(c0) && CountersWalked(c2, c3, Some(v), x)
    ensures CountersVisiting(c0, c3, start, v, done + {x})
  {
    hide Progress, WalkCleared, WalkFramed, CanEnter, Others;
    var g := LinkGraph(c0);
    SetToSendCounters(c1, v, i, x, t);
    CountersFit(c0);
    CountersFit(c1);
    CountersFit(c2);
    CountersFit(c3);
    hide SendOf, ReceivedOf, LinkGraph, SetToSend, SimpleLinks;
    ProgressStep(g, SendOf(c0), SendOf(c1), SendOf(c2), SendOf(c3), start, v, done, x, t);
    var r := ReceivedOf(c1)[v][x];
    PutSame(ReceivedOf(c1), v, x);
    ProgressStep(g, ReceivedOf(c0), ReceivedOf(c1), ReceivedOf(c2), ReceivedOf(c3), start, v, done, x, r);
  }

  lemma CountersEnd(c0: Links, c: Links, start: Option<nat>, v: nat)
    requires CanEnter(LinkGraph(c0), start, v)
    requires CountersVisiting(c0, c, start, v, Others(LinkGraph(c0), start, v))
    ensures CountersWalked(c0, c, start, v)
  {
    hide Progress, WalkCleared, WalkFramed;
    ProgressEnd(LinkGraph(c0), SendOf(c0), SendOf(c), start, v);
    ProgressEnd(LinkGraph(c0), ReceivedOf(c0), ReceivedOf(c), start, v);
  }

  /** The neighbours whose links come before index i, the link back to `start` left out. */
  function PartnersBelow(l: seq<MeshConnection>, start: Option<nat>, i: nat): set<nat>
    requires i <= |l|
  {
    if i == 0 then {}
    else PartnersBelow(l, start, i - 1) + (if GoesOn(l, start, i - 1) then {l[i - 1].partner} else {})
  }

  predicate GoesOn(l: seq<MeshConnection>, start: Option<nat>, i: nat)
    requires i < |l|
  {
    l[i].handshakeDone && !(start.Some? && l[i].partner == start.value)
  }

  lemma {:induction false} PartnersBelowAre(l: seq<MeshConnection>, start: Option<nat>, i: nat)
    requires i <= |l|
    ensures forall x: nat ::
              x in PartnersBelow(l, start, i) <==> exists j: nat :: j < i && GoesOn(l, start, j) && l[j].partner == x
    decreases i
  {
    if i > 0 {
      PartnersBelowAre(l, start, i - 1);
      forall x: nat
        ensures x in PartnersBelow(l, start, i) <==> exists j: nat :: j < i && GoesOn(l, start, j) && l[j].partner == x
      {
        if x in PartnersBelow(l, start, i) && x !in PartnersBelow(l, start, i - 1) {
          assert GoesOn(l, start, i - 1) && l[i - 1].partner == x;
        }
      }
    }
  }

  lemma AllPartnersAreOthers(c: Links, start: Option<nat>, v: nat)
    requires v < |c|
    ensures PartnersBelow(c[v], start, |c[v]|) == Others(LinkGraph(c), start, v)
  {
    PartnersBelowAre(c[v], start, |c[v]|);
    forall x: nat
      ensures x in PartnersBelow(c[v], start, |c[v]|) <==> x in Others(LinkGraph(c), start, v)
    {
      if x in Others(LinkGraph(c), start, v) {
        var j :| 0 <= j < |c[v]| && c[v][j].handshakeDone && c[v][j].partner == x;
        assert GoesOn(c[v], start, j);
      }
    }
  }

  /** The next link that goes on leads to a new neighbour. */
  lemma NextPartner(c: Links, start: Option<nat>, v: nat, i: nat)
    requires SimpleLinks(c) && v < |c| && i < |c[v]| && GoesOn(c[v], start, i)
    ensures var x := c[v][i].partner;
            && IsLink(c[v], i, x) && Adjacent(LinkGraph(c), v, x)
            && x in Others(LinkGraph(c), start, v) && x !in PartnersBelow(c[v], start, i)
  {
    var x := c[v][i].partner;
    PartnersBelowAre(c[v], start, i);
    assert IsLink(c[v], i, x);
    if x in PartnersBelow(c[v], start, i) {
      var j: nat :| j < i && GoesOn(c[v], start, j) && c[v][j].partner == x;
      assert LinkIndex(c[v], x) == j by { assert IsLink(c[v], j, x); }
    }
  }

  /** The index test of the code leaves out exactly the link back. */
  lemma BackLinkIsBack(c: Links, start: Option<nat>, v: nat, i: nat)
    requires SimpleLinks(c) && v < |c| && i < |c[v]|
    ensures var back := if start.Some? then LinkIndex(c[v], start.value) else -1;
            c[v][i].handshakeDone && i != back <==> GoesOn(c[v], start, i)
  {
    if start.Some? && c[v][i].handshakeDone && c[v][i].partner == start.value {
      assert IsLink(c[v], i, start.value);
    }
  }

  lemma {:induction false} SamePartners(c: Links, c': Links, v: nat, start: Option<nat>, i: nat)
    requires SameLinks(c, c') && v < |c| && i <= |c[v]|
    ensures PartnersBelow(c'[v], start, i) == PartnersBelow(c[v], start, i)
    decreases i
  {
    if i > 0 {
      SamePartners(c, c', v, start, i - 1);
    }
  }

  lemma NoPartnersYet(l: seq<MeshConnection>, start: Option<nat>)
    ensures PartnersBelow(l, start, 0) == {}
  {}

  lemma NextPartners(l: seq<MeshConnection>, start: Option<nat>, i: nat)
    requires i < |l|
    ensures PartnersBelow(l, start, i + 1)
            == PartnersBelow(l, start, i) + if GoesOn(l, start, i) then {l[i].partner} else {}
  {}

  lemma CountStarts(g: Graph, v: nat)
    requires v < |g|
    ensures Wrap16(|Seen(g, v, {})|) == 1
  {
    SeenNothing(g, v);
  }

  lemma TakenInTwo(a: I16, b: I16)
    ensures Cong(Wrap16(Wrap16(0 + a) + b), a + b)
  {}

  lemma WrappedSum(a: int, b: int)
    ensures Wrap16(Wrap16(a) + Wrap16(b)) == Wrap16(a + b)
  {}

  /** Adding to a connection's counter adds to what is pending on its link, and to nothing else. */
  lemma LinkPut(c: Links, v: nat, i: nat, x: nat, toAdd: I16)
    requires SimpleLinks(c) && v < |c| && x < |c| && IsLink(c[v], i, x)
    ensures var t := Wrap16(c[v][i].updatesToSend + toAdd); var p := PendingOf(c)[v][x] - c[v][i].updatesToSend + t;
            && SameLinks(c, SetToSend(c, v, i, t))
            && PendingOf(SetToSend(c, v, i, t)) == Put(PendingOf(c), v, x, p)
            && Cong(p, PendingOf(c)[v][x] + toAdd)
  {
    SetToSendPending(c, v, i, x, Wrap16(c[v][i].updatesToSend + toAdd));
  }

  // ---------- All walks together ----------

  /** Nothing is pending on the links that leave the nodes of `done`. */
  ghost predicate ClearedFrom(g: Graph, P: Pending, done: seq<nat>)
    requires Fits(g, P)
  {
    forall r: nat, d: nat | r in done && Adjacent(g, r, d) :: P[r][d] == 0
  }

  /** A walk from r clears the links of r and makes nothing pending that was not. */
  lemma WalkClearsFrom(g: Graph, s0: seq<I16>, P0: Pending, s: seq<I16>, P: Pending, r: nat, done: seq<nat>)
    requires Fits(g, P0) && Fits(g, P) && Walked(g, s0, P0, s, P, None, r) && ClearedFrom(g, P0, done)
    ensures ClearedFrom(g, P, done + [r])
  {
    hide ClearedFrom, WalkCleared, WalkFramed;
    WalkMakesCleared(g, P0, P, r, done);
  }

  lemma WalkMakesCleared(g: Graph, P0: Pending, P: Pending, r: nat, done: seq<nat>)
    requires Fits(g, P0) && Fits(g, P) && r < |g|
    requires WalkCleared(g, P, None, r) && WalkFramed(g, P0, P, None, r) && ClearedFrom(g, P0, done)
    ensures ClearedFrom(g, P, done + [r])
  {
    hide Crossed;
    forall c: nat, d: nat | c in done + [r] && Adjacent(g, c, d)
      ensures P[c][d] == 0
    {
      if c == r {
        BeyondSelf(g, r, d);
        assert CrossedAny(g, r, g[r], r, d);
        assert InWalk(g, None, r, r, d);
      } else if !InWalk(g, None, r, c, d) {
        assert P[c][d] == P0[c][d];
      }
    }
  }

  lemma NothingCleared(g: Graph, P: Pending)
    requires Fits(g, P)
    ensures ClearedFrom(g, P, [])
  {}

  /** Both counters of the bonds that leave the nodes of `done` are zero. */
  ghost predicate CountersCleared(c: Links, done: seq<nat>)
  {
    ClearedFrom(LinkGraph(c), SendOf(c), done) && ClearedFrom(LinkGraph(c), ReceivedOf(c), done)
  }

  lemma NoCountersCleared(c: Links)
    ensures CountersCleared(c, [])
  {}

  lemma CountersClearFrom(c0: Links, c: Links, r: nat, done: seq<nat>)
    requires LinkGraph(c) == LinkGraph(c0) && CountersWalked(c0, c, None, r) && CountersCleared(c0, done)
    ensures CountersCleared(c, done + [r])
  {
    hide ClearedFrom, WalkCleared, WalkFramed;
    WalkMakesCleared(LinkGraph(c0), SendOf(c0), SendOf(c), r, done);
    WalkMakesCleared(LinkGraph(c0), ReceivedOf(c0), ReceivedOf(c), r, done);
  }

  /** Every handshaked connection has both its counters at zero. */
  ghost predicate AllCountersZero(c: Links) {
    forall u: nat, i: nat | u < |c| && i < |c[u]| && c[u][i].handshakeDone ::
      c[u][i].updatesToSend == 0 && c[u][i].updatesReceived == 0
  }

  lemma ClearedIsZero(c: Links, done: seq<nat>)
    requires SimpleLinks(c) && IsForest(LinkGraph(c)) && CountersCleared(c, done)
    requires forall r: nat | r < |c| :: r in done
    ensures AllCountersZero(c)
  {
    hide LinkIndex;
    forall u: nat, i: nat | u < |c| && i < |c[u]| && c[u][i].handshakeDone
      ensures c[u][i].updatesToSend == 0 && c[u][i].updatesReceived == 0
    {
      var v := c[u][i].partner;
      assert IsLink(c[u], i, v);
      AdjacentIsLink(c, u, v);
      assert Adjacent(LinkGraph(c), v, u);
      assert SendOf(c)[u][v] == SendTo(c[u], v) && ReceivedOf(c)[v][u] == ReceivedFrom(c[u], v);
    }
  }

  lemma SamePredictionTrans(g: Graph, s0: seq<I16>, P0: Pending, s1: seq<I16>, P1: Pending, s2: seq<I16>, P2: Pending)
    requires SamePrediction(g, s0, P0, s1, P1) && SamePrediction(g, s1, P1, s2, P2)
    ensures SamePrediction(g, s0, P0, s2, P2)
  {
    hide Predicted;
    forall w: nat | w < |g|
      ensures Cong(Predicted(g, s2, P2, w), Predicted(g, s0, P0, w))
    {
      CongTrans(Predicted(g, s2, P2, w), Predicted(g, s1, P1, w), Predicted(g, s0, P0, w));
    }
  }

  lemma SamePredictionSelf(g: Graph, s: seq<I16>, P: Pending)
    requires Fits(g, P) && |s| == |g|
    ensures SamePrediction(g, s, P, s, P)
  {
    hide Predicted;
  }

  /** With nothing pending any more, every prediction has become the size. */
  lemma PredictionsHaveArrived(g: Graph, s0: seq<I16>, P0: Pending, s: seq<I16>, P: Pending, done: seq<nat>)
    requires SamePrediction(g, s0, P0, s, P) && ClearedFrom(g, P, done) && forall r: nat | r < |g| :: r in done
    ensures forall w: nat | w < |g| :: s[w] == Wrap16(Predicted(g, s0, P0, w))
  {
    forall w: nat | w < |g|
      ensures s[w] == Wrap16(Predicted(g, s0, P0, w))
    {
      RowsSumZero(g, P, |g|, w);
      CongI16(s[w], Predicted(g, s0, P0, w));
    }
  }

  function UpTo(n: nat): (s: seq<nat>)
    ensures |s| == n && forall r: nat | r < n :: s[r] == r && r in s
    ensures forall r | r in s :: r < n
  {
    if n == 0 then [] else UpTo(n - 1) + [n - 1]
  }

  // ---------- The code ----------

  lemma PendingFits(c: Links)
    ensures Fits(LinkGraph(c), PendingOf(c))
  {}

  /** The mesh as the consistency check holds it. */
  class Mesh {
    var sizes: seq<I16>   // validityClusterSize by node
    var conns: Links

    ghost predicate Valid()
      reads this
    {
      |sizes| == |conns| && SimpleLinks(conns) && IsForest(LinkGraph(conns))
    }

    constructor (sizes: seq<I16>, conns: Links)
      requires |sizes| == |conns| && SimpleLinks(conns) && IsForest(LinkGraph(conns))
      ensures Valid() && this.sizes == sizes && this.conns == conns
    {
      this.sizes, this.conns := sizes, conns;
    }

    /** The last handshaked connection of u to v. */
    method FindLink(u: nat, v: nat) returns (r: int)
      requires u < |conns|
      ensures r == LinkIndex(conns[u], v)
    {
      r := -1;
      var l := conns[u];
      for i := 0 to |l|
        invariant r == LinkIndex(l[..i], v)
      {
        assert l[..i + 1][..i] == l[..i];
        if l[i].handshakeDone && l[i].partner == v {
          r := i;
        }
      }
      assert l[..|l|] == l;
    }

    /** Takes everything pending on u -> v off the two connections of the bond. */
    method TakePending(u: nat, v: nat) returns (toAdd: I16, back: int)
      requires Valid() && Adjacent(LinkGraph(conns), u, v)
      modifies this`conns
      ensures Valid() && BondTaken(old(conns), conns, u, v, toAdd)
      ensures back == LinkIndex(conns[v], u)
    {
      hide LinkIndex, PendingOf, SendOf, ReceivedOf, BondTaken;
      ghost var c0 := conns;
      assert Adjacent(LinkGraph(c0), v, u);
      AdjacentIsLink(c0, u, v);
      AdjacentIsLink(c0, v, u);
      hide SetToSend, SetReceived, SimpleLinks, IsForest, LinkGraph, SameLinks, Adjacent, Wrap16;
      toAdd := 0;
      var there := FindLink(u, v);
      back := FindLink(v, u);
      BondCleared(c0, u, v, there, back);
      if there >= 0 {
        toAdd := Wrap16(toAdd + conns[u][there].updatesToSend);
        conns := SetToSend(conns, u, there, 0);
      }
      if back >= 0 {
        toAdd := Wrap16(toAdd + conns[v][back].updatesReceived);
        conns := SetReceived(conns, v, back, 0);
      }
      BondKeepsLinks(c0, conns, u, v, toAdd);
      SameLinksSameGraph(c0, conns);
    }

    /** The first half of a visit: takes what is pending on the way in and adds it to the node. */
    method Arrive(v: nat, start: Option<nat>) returns (toAdd: I16, back: int)
      requires Valid() && CanEnter(LinkGraph(conns), start, v)
      modifies this
      ensures Valid() && SameLinks(old(conns), conns)
      ensures back == if start.Some? then LinkIndex(conns[v], start.value) else -1
      ensures Visiting(LinkGraph(conns), old(sizes), PendingOf(old(conns)), sizes, PendingOf(conns), start, v, toAdd,
                       {})
      ensures CountersVisiting(old(conns), conns, start, v, {})
    {
      hide SendOf, ReceivedOf, CountersVisiting;
      hide PendingOf;
      hide LinkIndex;
      hide SimpleLinks;
      hide IsForest;
      hide LinkGraph;
      hide SameLinks;
      hide Visiting;
      hide Put;
      ghost var c0, s0 := conns, sizes;
      SameLinksSelf(c0);
      PendingFits(c0);
      toAdd, back := 0, -1;
      if start.Some? {
        toAdd, back := TakePending(start.value, v);
        SameLinksSameGraph(c0, conns);
      }
      sizes := sizes[v := Wrap16(sizes[v] + toAdd)];
      VisitingStart(LinkGraph(c0), s0, PendingOf(c0), start, v, toAdd);
      CountersStart(c0, conns, start, v);
    }

    /** The size change goes out over link i. */
    method SendOver(v: nat, i: nat, toAdd: I16) returns (ghost t: I16, ghost p: int)
      requires Valid() && v < |conns| && i < |conns[v]| && conns[v][i].handshakeDone && conns[v][i].partner < |conns|
      modifies this`conns
      ensures Valid() && SameLinks(old(conns), conns) && LinkGraph(conns) == LinkGraph(old(conns))
      ensures conns == SetToSend(old(conns), v, i, t)
      ensures PendingOf(conns) == Put(PendingOf(old(conns)), v, old(conns[v][i].partner), p)
      ensures Cong(p, PendingOf(old(conns))[v][old(conns[v][i].partner)] + toAdd)
    {
      hide PendingOf, LinkIndex, SimpleLinks, IsForest, LinkGraph, SameLinks, Cong, Put, Wrap16;
      ghost var c1, x := conns, conns[v][i].partner;
      PendingFits(c1);
      LinkPut(c1, v, i, x, toAdd);
      conns := SetToSend(conns, v, i, Wrap16(conns[v][i].updatesToSend + toAdd));
      t := Wrap16(c1[v][i].updatesToSend + toAdd);
      p := PendingOf(c1)[v][x] - c1[v][i].updatesToSend + t;
      SameLinksSameGraph(c1, conns);
    }

    /** One turn of the loop: the size change goes out over link i, and the walk follows it. */
    method VisitLink(v: nat, i: nat, toAdd: I16, ghost c0: Links, ghost s0: seq<I16>, ghost start: Option<nat>,
                     ghost done: set<nat>) returns (nodes: I16)
      requires Valid() && SameLinks(c0, conns) && LinkGraph(c0) == LinkGraph(conns)
      requires v < |conns| && i < |conns[v]| && GoesOn(conns[v], start, i) && done == PartnersBelow(conns[v], start, i)
      requires Visiting(LinkGraph(c0), s0, PendingOf(c0), sizes, PendingOf(conns), start, v, toAdd, done)
      requires CanEnter(LinkGraph(c0), start, v) && CountersVisiting(c0, conns, start, v, done)
      modifies this
      ensures Valid() && SameLinks(c0, conns) && LinkGraph(c0) == LinkGraph(conns)
      ensures var x := old(conns[v][i].partner);
              && Visiting(LinkGraph(c0), s0, PendingOf(c0), sizes, PendingOf(conns), start, v, toAdd, done + {x})
              && CountersVisiting(c0, conns, start, v, done + {x})
              && nodes == Wrap16(|Region(LinkGraph(c0), Some(v), x)|)
      decreases Region(LinkGraph(conns), start, v), 0
    {
      hide SendOf, ReceivedOf, CountersVisiting, CountersWalked;
      hide PendingOf;
      hide LinkIndex;
      hide SimpleLinks;
      hide IsForest;
      hide LinkGraph;
      hide SameLinks;
      hide Visiting;
      hide Walked;
      hide Region;
      ghost var c1, s1, g := conns, sizes, LinkGraph(conns);
      PendingFits(c1);
      var x := conns[v][i].partner;
      NextPartner(c1, start, v, i);
      hide PartnersBelow, Cong, Put, Wrap16, SetToSend;
      ghost var t, p := SendOver(v, i, toAdd);
      SameLinksTrans(c0, c1, conns);
      RegionShrinks(g, start, v, x);
      ghost var c2 := conns;
      nodes := Walk(x, Some(v));
      SameLinksSameGraph(c2, conns);
      SameLinksTrans(c0, c2, conns);
      assert Walked(g, s1, Put(PendingOf(c1), v, x, p), sizes, PendingOf(conns), Some(v), x);
      VisitingStep(g, s0, PendingOf(c0), s1, PendingOf(c1), sizes, PendingOf(conns), start, v, toAdd, done, x, p);
      CountersStep(c0, c1, c2, conns, start, v, done, i, x, t);
    }

    /** DetermineClusterSizeAndPropagateClusterUpdates. Every prediction is kept, everything pending on
        the links gone over is delivered, nothing else is touched, and the result is the number of
        nodes visited. */
    method Walk(v: nat, start: Option<nat>) returns (count: I16)
      requires Valid() && CanEnter(LinkGraph(conns), start, v)
      modifies this
      ensures Valid() && SameLinks(old(conns), conns)
      ensures Walked(LinkGraph(conns), old(sizes), PendingOf(old(conns)), sizes, PendingOf(conns), start, v)
      ensures CountersWalked(old(conns), conns, start, v)
      ensures count == Wrap16(|Region(LinkGraph(conns), start, v)|)
      decreases Region(LinkGraph(conns), start, v), 1
    {
      hide CountersVisiting, CountersWalked;
      hide PendingOf;
      hide LinkIndex;
      hide SimpleLinks;
      hide IsForest;
      hide LinkGraph;
      hide SameLinks;
      hide Visiting;
      hide Walked;
      hide Region;
      hide Seen;
      hide Others;
      hide Wrap16;
      hide PartnersBelow;
      ghost var c0, s0, g := conns, sizes, LinkGraph(conns);
      var toAdd, back := Arrive(v, start);
      SameLinksSameGraph(c0, conns);
      SameLinksAt(c0, conns, v, start, 0);
      count := 1;
      CountStarts(g, v);
      NoPartnersYet(c0[v], start);
      ghost var done: set<nat> := {};
      var i := 0;
      while i < |conns[v]|
        invariant Valid() && SameLinks(c0, conns) && LinkGraph(conns) == g
        invariant v < |conns| == |c0| && 0 <= i <= |conns[v]| == |c0[v]|
        invariant back == if start.Some? then LinkIndex(c0[v], start.value) else -1
        invariant Visiting(g, s0, PendingOf(c0), sizes, PendingOf(conns), start, v, toAdd, done)
        invariant CountersVisiting(c0, conns, start, v, done)
        invariant done == PartnersBelow(c0[v], start, i)
        invariant count == Wrap16(|Seen(g, v, done)|)
        decreases |c0[v]| - i
      {
        BackLinkIsBack(c0, start, v, i);
        SameLinksAt(c0, conns, v, start, i);
        BackLinkIsBack(conns, start, v, i);
        SameLinksSameGraph(c0, conns);
        if conns[v][i].handshakeDone && i != back {
          ghost var x := c0[v][i].partner;
          NextPartner(c0, start, v, i);
          var nodes := VisitLink(v, i, toAdd, c0, s0, start, done);
          SameLinksAt(c0, conns, v, start, 0);
          SeenGrows(g, v, done, x);
          WrappedSum(|Seen(g, v, done)|, |Region(g, Some(v), x)|);
          done := done + {x};
          count := Wrap16(count + nodes);
        }
        NextPartners(c0[v], start, i);
        i := i + 1;
      }
      AllPartnersAreOthers(c0, start, v);
      VisitingEnd(g, s0, PendingOf(c0), sizes, PendingOf(conns), start, v, toAdd);
      CountersEnd(c0, conns, start, v);
      RegionIsSeen(g, start, v);
    }

    /** Walks from every node, in any order. Every node ends with its size plus all changes that were
        pending towards it, each counted once, in 16-bit arithmetic, and every counter ends at zero. */
    method PropagateFrom(order: seq<nat>)
      requires Valid() && forall r | r in order :: r < |conns|
      requires forall r: nat | r < |conns| :: r in order
      modifies this
      ensures Valid() && SameLinks(old(conns), conns) && LinkGraph(conns) == LinkGraph(old(conns))
      ensures ClearedFrom(LinkGraph(conns), PendingOf(conns), order)
      ensures CountersCleared(conns, order) && AllCountersZero(conns)
      ensures forall w: nat | w < |conns| ::
                sizes[w] == Wrap16(Predicted(LinkGraph(old(conns)), old(sizes), PendingOf(old(conns)), w))
    {
      hide CountersCleared, AllCountersZero;
      hide PendingOf;
      hide SimpleLinks;
      hide IsForest;
      hide LinkGraph;
      hide SameLinks;
      hide Walked;
      hide SamePrediction;
      hide ClearedFrom;
      hide Predicted;
      ghost var c0, s0, g := conns, sizes, LinkGraph(conns);
      PendingFits(c0);
      SameLinksSelf(c0);
      SamePredictionSelf(g, s0, PendingOf(c0));
      NothingCleared(g, PendingOf(c0));
      NoCountersCleared(c0);
      for k := 0 to |order|
        invariant Valid() && SameLinks(c0, conns) && LinkGraph(conns) == g && |conns| == |c0|
        invariant Fits(g, PendingOf(conns)) && ClearedFrom(g, PendingOf(conns), order[..k])
        invariant CountersCleared(conns, order[..k])
        invariant SamePrediction(g, s0, PendingOf(c0), sizes, PendingOf(conns))
      {
        assert order[k] in order;
        var _ := OneWalk(order[k], c0, s0, order[..k]);
        assert order[..k + 1] == order[..k] + [order[k]];
      }
      assert order[..|order|] == order;
      PredictionsHaveArrived(g, s0, PendingOf(c0), sizes, PendingOf(conns), order);
      ClearedIsZero(conns, order);
    }

    method OneWalk(r: nat, ghost c0: Links, ghost s0: seq<I16>, ghost done: seq<nat>) returns (count: I16)
      requires Valid() && SameLinks(c0, conns) && LinkGraph(conns) == LinkGraph(c0) && r < |conns|
      requires ClearedFrom(LinkGraph(conns), PendingOf(conns), done) && CountersCleared(conns, done)
      requires SamePrediction(LinkGraph(c0), s0, PendingOf(c0), sizes, PendingOf(conns))
      modifies this
      ensures Valid() && SameLinks(c0, conns) && LinkGraph(conns) == LinkGraph(c0) && |conns| == |c0|
      ensures Fits(LinkGraph(conns), PendingOf(conns)) && ClearedFrom(LinkGraph(conns), PendingOf(conns), done + [r])
      ensures CountersCleared(conns, done + [r])
      ensures SamePrediction(LinkGraph(c0), s0, PendingOf(c0), sizes, PendingOf(conns))
      ensures count == Wrap16(|Component(LinkGraph(c0), r)|)
    {
      hide CountersCleared, CountersWalked;
      hide PendingOf;
      hide SimpleLinks;
      hide IsForest;
      hide LinkGraph;
      hide SameLinks;
      hide SamePrediction;
      hide ClearedFrom;
      ghost var c1, s1, g := conns, sizes, LinkGraph(conns);
      PendingFits(c1);
      count := Walk(r, None);
      SameLinksTrans(c0, c1, conns);
      SameLinksSameGraph(c1, conns);
      PendingFits(conns);
      assert |c0| == |LinkGraph(c0)| && |conns| == |LinkGraph(conns)|;
      WalkClearsFrom(g, s1, PendingOf(c1), sizes, PendingOf(conns), r, done);
      CountersClearFrom(c1, conns, r, done);
      SamePredictionTrans(g, s0, PendingOf(c0), s1, PendingOf(c1), sizes, PendingOf(conns));
    }

    /** The two passes of CheckMeshingConsistency: propagate from every node, then count from every
        node and report the nodes whose size does not match. The second pass changes nothing. */
    method CheckMeshingConsistency() returns (mismatches: set<nat>)
      requires Valid()
      modifies this
      ensures Valid() && SameLinks(old(conns), conns) && AllCountersZero(conns)
      ensures forall w: nat | w < |sizes| ::
                sizes[w] == Wrap16(Predicted(LinkGraph(old(conns)), old(sizes), PendingOf(old(conns)), w))
      ensures forall w: nat ::
                w in mismatches <==> w < |sizes| && Wrap16(|Component(LinkGraph(old(conns)), w)|) != sizes[w]
    {
      hide PendingOf;
      hide SimpleLinks;
      hide IsForest;
      hide LinkGraph;
      hide SameLinks;
      hide SamePrediction;
      hide ClearedFrom;
      hide Predicted;
      hide Component, CountersCleared, AllCountersZero;
      ghost var c0 := conns;
      var order := UpTo(|conns|);
      PropagateFrom(order);
      ghost var c1, s1, g := conns, sizes, LinkGraph(conns);
      PendingFits(c1);
      SamePredictionSelf(g, s1, PendingOf(c1));
      SameLinksSelf(c1);
      mismatches := {};
      ghost var done: seq<nat> := order;
      for i := 0 to |conns|
        invariant Valid() && SameLinks(c1, conns) && LinkGraph(conns) == g && |conns| == |c1| && |sizes| == |s1|
        invariant sizes == s1
        invariant Fits(g, PendingOf(conns)) && ClearedFrom(g, PendingOf(conns), done) && CountersCleared(conns, done)
        invariant forall r: nat | r < |g| :: r in done
        invariant SamePrediction(g, s1, PendingOf(c1), sizes, PendingOf(conns))
        invariant forall w: nat :: w in mismatches <==> w < i && Wrap16(|Component(g, w)|) != s1[w]
      {
        var realClusterSize := OneWalk(i, c1, s1, done);
        done := done + [i];
        SettledSizes(g, s1, PendingOf(c1), sizes, PendingOf(conns), order, done);
        if realClusterSize != sizes[i] {
          mismatches := mismatches + {i};
        }
      }
      SameLinksTrans(c0, c1, conns);
      ClearedIsZero(conns, done);
    }

    static lemma SettledSizes(g: Graph, s1: seq<I16>, P1: Pending, s: seq<I16>, P: Pending, order: seq<nat>,
                              done: seq<nat>)
      requires Fits(g, P1) && ClearedFrom(g, P1, order) && forall r: nat | r < |g| :: r in order
      requires SamePrediction(g, s1, P1, s, P) && ClearedFrom(g, P, done) && forall r: nat | r < |g| :: r in done
      ensures s == s1
    {
      SamePredictionSelf(g, s1, P1);
      PredictionsHaveArrived(g, s1, P1, s, P, done);
      PredictionsHaveArrived(g, s1, P1, s1, P1, order);
    }
  }
}
