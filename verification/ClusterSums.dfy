/** Pending cluster size changes on directed mesh links, and what they add up to for a node. */
module ClusterSums {
  import opened Forest

  // ---------- 16-bit arithmetic ----------

  type I16 = x: int | -0x8000 <= x < 0x8000

  /** What an int becomes when it is stored in 16 bits. */
  function Wrap16(x: int): I16 {
    (x + 0x8000) % 0x1_0000 - 0x8000
  }

  ghost predicate Cong(x: int, y: int) {
    (x - y) % 0x1_0000 == 0
  }

  lemma Wrap16Cong(x: int)
    ensures Cong(Wrap16(x), x)
  {}

  lemma CongAdd(x: int, y: int, a: int, b: int)
    requires Cong(x, y) && Cong(a, b)
    ensures Cong(x + a, y + b) && Cong(x - a, y - b)
  {}

  lemma CongTrans(x: int, y: int, z: int)
    requires Cong(x, y) && Cong(y, z)
    ensures Cong(x, z) && Cong(y, x)
  {}

  /** A 16-bit value is determined by its residue. */
  lemma CongI16(x: I16, y: int)
    requires Cong(x, y)
    ensures x == Wrap16(y)
  {}

  // ---------- Sums over the directed links that point towards a node ----------

  type Pending = seq<seq<int>>

  ghost predicate Fits(g: Graph, P: Pending) {
    |P| == |g| && forall u | 0 <= u < |P| :: |P[u]| == |g|
  }

  /** The change pending on u -> v, if that link points towards w. */
  ghost function Term(g: Graph, P: Pending, u: nat, v: nat, w: nat): int
    requires Fits(g, P) && u < |g| && v < |g|
  {
    if Adjacent(g, u, v) && Beyond(g, u, v, w) then P[u][v] else 0
  }

  ghost function RowSum(g: Graph, P: Pending, u: nat, k: nat, w: nat): int
    requires Fits(g, P) && u < |g| && k <= |g|
  {
    if k == 0 then 0 else RowSum(g, P, u, k - 1, w) + Term(g, P, u, k - 1, w)
  }

  ghost function RowsSum(g: Graph, P: Pending, k: nat, w: nat): int
    requires Fits(g, P) && k <= |g|
  {
    if k == 0 then 0 else RowsSum(g, P, k - 1, w) + RowSum(g, P, k - 1, |g|, w)
  }

  /** All changes pending on directed links u -> v with w on v's side, each counted once. */
  ghost function Toward(g: Graph, P: Pending, w: nat): int
    requires Fits(g, P)
  {
    RowsSum(g, P, |g|, w)
  }

  /** P with another entry for u -> v. */
  function Put(P: Pending, u: nat, v: nat, x: int): Pending
    requires u < |P| && v < |P[u]|
  {
    P[u := P[u][v := x]]
  }

  lemma {:induction false} RowSumPut(g: Graph, P: Pending, c: nat, d: nat, x: int, u: nat, k: nat, w: nat)
    requires Fits(g, P) && c < |g| && d < |g| && u < |g| && k <= |g|
    ensures Fits(g, Put(P, c, d, x))
    ensures RowSum(g, Put(P, c, d, x), u, k, w)
         == RowSum(g, P, u, k, w)
            + if u == c && d < k then Term(g, Put(P, c, d, x), c, d, w) - Term(g, P, c, d, w) else 0
    decreases k
  {
    hide Beyond;
    if k > 0 {
      RowSumPut(g, P, c, d, x, u, k - 1, w);
    }
  }

  lemma {:induction false} RowsSumPut(g: Graph, P: Pending, c: nat, d: nat, x: int, k: nat, w: nat)
    requires Fits(g, P) && c < |g| && d < |g| && k <= |g|
    ensures Fits(g, Put(P, c, d, x))
    ensures RowsSum(g, Put(P, c, d, x), k, w)
         == RowsSum(g, P, k, w) + if c < k then Term(g, Put(P, c, d, x), c, d, w) - Term(g, P, c, d, w) else 0
    decreases k
  {
    hide Term;
    if k > 0 {
      RowsSumPut(g, P, c, d, x, k - 1, w);
      RowSumPut(g, P, c, d, x, k - 1, |g|, w);
    }
  }

  /** Changing one entry shows exactly at the nodes beyond that link. */
  lemma TowardPut(g: Graph, P: Pending, c: nat, d: nat, x: int, w: nat)
    requires Fits(g, P) && Adjacent(g, c, d)
    ensures Fits(g, Put(P, c, d, x))
    ensures Toward(g, Put(P, c, d, x), w) == Toward(g, P, w) + if Beyond(g, c, d, w) then x - P[c][d] else 0
  {
    hide Beyond;
    RowsSumPut(g, P, c, d, x, |g|, w);
  }

  lemma {:induction false} RowSumZero(g: Graph, P: Pending, u: nat, k: nat, w: nat)
    requires Fits(g, P) && u < |g| && k <= |g|
    requires forall c: nat, d: nat | Adjacent(g, c, d) :: P[c][d] == 0
    ensures RowSum(g, P, u, k, w) == 0
    decreases k
  {
    hide Beyond;
    if k > 0 {
      RowSumZero(g, P, u, k - 1, w);
    }
  }

  lemma {:induction false} RowsSumZero(g: Graph, P: Pending, k: nat, w: nat)
    requires Fits(g, P) && k <= |g|
    requires forall c: nat, d: nat | Adjacent(g, c, d) :: P[c][d] == 0
    ensures RowsSum(g, P, k, w) == 0
    decreases k
  {
    if k > 0 {
      RowsSumZero(g, P, k - 1, w);
      RowSumZero(g, P, k - 1, |g|, w);
    }
  }

  // ---------- The quantity every step of the walk keeps ----------

  /** What node w would believe if everything pending reached it. */
  ghost function Predicted(g: Graph, size: seq<I16>, P: Pending, w: nat): int
    requires Fits(g, P) && |size| == |g| && w < |g|
  {
    size[w] + Toward(g, P, w)
  }

  /** w lies beyond v -> x for one of the x in `rest`. */
  ghost predicate BeyondAny(g: Graph, v: nat, rest: set<nat>, w: nat) {
    exists x | x in rest :: Beyond(g, v, x, w)
  }

  /** Predictions are as before, except that the nodes beyond the edges to `rest` are still owed a. */
  ghost predicate Owed(g: Graph, size0: seq<I16>, P0: Pending, size: seq<I16>, P: Pending, v: nat, rest: set<nat>,
                       a: int)
  {
    && Fits(g, P0) && Fits(g, P) && |size0| == |size| == |g|
    && forall w: nat | w < |g| ::
         Cong(Predicted(g, size, P, w) + if BeyondAny(g, v, rest, w) then a else 0, Predicted(g, size0, P0, w))
  }

  ghost predicate SamePrediction(g: Graph, size0: seq<I16>, P0: Pending, size: seq<I16>, P: Pending)
  {
    && Fits(g, P0) && Fits(g, P) && |size0| == |size| == |g|
    && forall w: nat | w < |g| :: Cong(Predicted(g, size, P, w), Predicted(g, size0, P0, w))
  }

  lemma ArriveOwesAt(g: Graph, size: seq<I16>, P: Pending, u: nat, v: nat, a: I16, w: nat)
    requires IsForest(g) && Fits(g, P) && |size| == |g| && Adjacent(g, u, v) && Cong(a, P[u][v]) && w < |g|
    ensures Fits(g, Put(P, u, v, 0))
    ensures Cong(Predicted(g, size[v := Wrap16(size[v] + a)], Put(P, u, v, 0), w)
                 + if BeyondAny(g, v, g[v] - {u}, w) then a else 0, Predicted(g, size, P, w))
  {
    hide Beyond;
    hide Toward;
    hide Cong;
    hide Wrap16;
    TowardPut(g, P, u, v, 0, w);
    BeyondSelf(g, u, v);
    ArrivedSum(size[w], Toward(g, P, w), a, P[u][v]);
    if BeyondAny(g, v, g[v] - {u}, w) {
      var x :| x in g[v] - {u} && Beyond(g, v, x, w);
      BeyondStep(g, u, v, x, w);
      NotBeyondItself(g, v, x);
    } else if Beyond(g, u, v, w) {
      var x := BeyondCases(g, u, v, w);
      assert w == v;
    }
  }

  lemma ArrivedSum(size: I16, toward: int, a: I16, pending: int)
    requires Cong(a, pending)
    ensures Cong(size + (toward - pending) + a, size + toward)
    ensures Cong(Wrap16(size + a) + (toward - pending) + 0, size + toward)
    ensures Cong(size + toward + 0, size + toward)
  {
    var x := size + (toward - pending);
    CongAdd(x, x, a, pending);
    Wrap16Cong(size + a);
    CongAdd(Wrap16(size + a), size + a, toward - pending, toward - pending);
    CongTrans(Wrap16(size + a) + (toward - pending), x + a, size + toward);
  }

  /** Arriving at v over u -> v with the pending change a: v takes it, everything beyond v is owed it. */
  lemma ArriveOwes(g: Graph, size: seq<I16>, P: Pending, u: nat, v: nat, a: I16)
    requires IsForest(g) && Fits(g, P) && |size| == |g| && Adjacent(g, u, v) && Cong(a, P[u][v])
    ensures Owed(g, size, P, size[v := Wrap16(size[v] + a)], Put(P, u, v, 0), v, g[v] - {u}, a)
  {
    hide Predicted;
    hide BeyondAny;
    var size', P' := size[v := Wrap16(size[v] + a)], Put(P, u, v, 0);
    forall w: nat | w < |g|
      ensures Fits(g, P')
      ensures Cong(Predicted(g, size', P', w) + if BeyondAny(g, v, g[v] - {u}, w) then a else 0,
                   Predicted(g, size, P, w))
    {
      ArriveOwesAt(g, size, P, u, v, a, w);
    }
  }

  /** Nothing is owed when the walk starts at v. */
  lemma StartOwesNothing(g: Graph, size: seq<I16>, P: Pending, v: nat, rest: set<nat>)
    requires Fits(g, P) && |size| == |g| && v < |g|
    ensures Owed(g, size, P, size[v := Wrap16(size[v] + 0)], P, v, rest, 0)
  {
    hide Toward;
  }

  /** Putting a on the link to x settles the debt beyond x. */
  lemma PutSettles(g: Graph, size0: seq<I16>, P0: Pending, size: seq<I16>, P: Pending, v: nat, rest: set<nat>, x: nat,
                   a: I16, t: int)
    requires IsForest(g) && Owed(g, size0, P0, size, P, v, rest, a)
    requires x in rest && Adjacent(g, v, x) && Cong(t, P[v][x] + a)
    ensures Owed(g, size0, P0, size, Put(P, v, x, t), v, rest - {x}, a)
  {
    hide Beyond;
    hide Toward;
    forall w: nat | w < |g|
      ensures Cong(Predicted(g, size, Put(P, v, x, t), w) + if BeyondAny(g, v, rest - {x}, w) then a else 0,
                   Predicted(g, size0, P0, w))
    {
      TowardPut(g, P, v, x, t, w);
      if Beyond(g, v, x, w) {
        assert BeyondAny(g, v, rest, w);
        if BeyondAny(g, v, rest - {x}, w) {
          var y :| y in rest - {x} && Beyond(g, v, y, w);
          BeyondDisjoint(g, v, x, y, w);
        }
      } else if BeyondAny(g, v, rest, w) {
        var y :| y in rest && Beyond(g, v, y, w);
        assert y in rest - {x};
      }
    }
  }

  lemma OwedThenSame(g: Graph, size0: seq<I16>, P0: Pending, size1: seq<I16>, P1: Pending, size2: seq<I16>, P2: Pending,
                     v: nat, rest: set<nat>, a: int)
    requires Owed(g, size0, P0, size1, P1, v, rest, a) && SamePrediction(g, size1, P1, size2, P2)
    ensures Owed(g, size0, P0, size2, P2, v, rest, a)
  {
    hide Predicted;
    hide BeyondAny;
    forall w: nat | w < |g|
      ensures Cong(Predicted(g, size2, P2, w) + if BeyondAny(g, v, rest, w) then a else 0, Predicted(g, size0, P0, w))
    {
      var b := if BeyondAny(g, v, rest, w) then a else 0;
      CongAdd(Predicted(g, size2, P2, w), Predicted(g, size1, P1, w), b, b);
    }
  }
}
