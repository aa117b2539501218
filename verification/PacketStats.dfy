/** The packet statistics of the nodes: fixed arrays of counters, filled in place, that stand for a map from
    packet key to 32-bit total. */
module PacketStats {
  import opened Results

  const INVALID := 0
  const U32_RANGE := 0x1_0000_0000

  /** The bytes that `memcmp` compares. */
  datatype Key = Key(messageType: nat, moduleId: nat, actionType: nat, isSplit: nat, requestHandle: nat)

  datatype PacketStat = PacketStat(key: Key, count: nat)
  {
    predicate Used() { key.messageType != INVALID }

    function For(k: Key): nat { if Used() && key == k then count else 0 }
  }

  datatype StatError = PacketStatBufferSizeNotEnough

  /** No key has two slots. */
  ghost predicate OneSlotPerKey(s: seq<PacketStat>) {
    forall i, j | 0 <= i < j < |s| :: s[i].Used() && s[j].Used() ==> s[i].key != s[j].key
  }

  /** Everything counted under a key. */
  function Total(s: seq<PacketStat>, k: Key): nat {
    if s == [] then 0 else Total(s[..|s| - 1], k) + s[|s| - 1].For(k)
  }

  /** Totals are kept in 32 bits. */
  ghost predicate SameCount(x: int, y: int) {
    (x - y) % 4294967296 == 0
  }

  lemma {:induction false} TotalUpdate(s: seq<PacketStat>, i: nat, x: PacketStat, k: Key)
    requires i < |s|
    ensures Total(s[i := x], k) + s[i].For(k) == Total(s, k) + x.For(k)
    decreases |s|
  {
    var n := |s| - 1;
    if i < n {
      assert s[i := x][..n] == s[..n][i := x];
      TotalUpdate(s[..n], i, x, k);
    } else {
      assert s[i := x][..n] == s[..n];
    }
  }

  lemma {:induction false} SlotAtMostTotal(s: seq<PacketStat>, i: nat, k: Key)
    requires i < |s|
    ensures s[i].For(k) <= Total(s, k)
    decreases |s|
  {
    if i < |s| - 1 {
      SlotAtMostTotal(s[..|s| - 1], i, k);
    }
  }

  /** With one slot per key the total is what that slot holds. */
  lemma {:induction false} TotalIsSlot(s: seq<PacketStat>, i: nat)
    requires OneSlotPerKey(s) && i < |s| && s[i].key.messageType != 0
    ensures Total(s, s[i].key) == s[i].count
    decreases |s|
  {
    var n := |s| - 1;
    if i < n {
      assert s[..n][i] == s[i];
      TotalIsSlot(s[..n], i);
    } else {
      TotalIsNothing(s[..n], s[i].key);
    }
  }

  lemma {:induction false} TotalIsNothing(s: seq<PacketStat>, k: Key)
    requires forall i | 0 <= i < |s| :: s[i].Used() ==> s[i].key != k
    ensures Total(s, k) == 0
    decreases |s|
  {
    if s != [] {
      TotalIsNothing(s[..|s| - 1], k);
    }
  }

  function Keys(s: seq<PacketStat>): set<Key> {
    set i | 0 <= i < |s| && s[i].Used() :: s[i].key
  }

  /** There are at most as many keys as slots. */
  lemma {:induction false} KeysAtMost(s: seq<PacketStat>)
    ensures |Keys(s)| <= |s|
    decreases |s|
  {
    if s == [] {
      assert Keys(s) == {};
    } else {
      KeysAtMost(s[..|s| - 1]);
      KeysAfter(s[..|s| - 1], s[|s| - 1]);
      assert s[..|s| - 1] + [s[|s| - 1]] == s;
    }
  }

  /** There are exactly as many when every slot is used, and for another key. */
  lemma {:induction false} KeysExactly(s: seq<PacketStat>)
    requires OneSlotPerKey(s) && forall i | 0 <= i < |s| :: s[i].Used()
    ensures |Keys(s)| == |s|
    decreases |s|
  {
    if s == [] {
      assert Keys(s) == {};
    } else {
      var init, last := s[..|s| - 1], s[|s| - 1];
      assert last.key !in Keys(init);
      KeysExactly(init);
      KeysAfter(init, last);
      hide Keys;
      assert init + [last] == s;
    }
  }

  lemma KeysAfter(s: seq<PacketStat>, p: PacketStat)
    ensures Keys(s + [p]) == Keys(s) + (if p.Used() then {p.key} else {})
  {
    var s' := s + [p];
    forall k
      ensures k in Keys(s') <==> k in Keys(s) || (p.Used() && k == p.key)
    {
      if k in Keys(s) {
        var i :| 0 <= i < |s| && s[i].Used() && s[i].key == k;
        assert s'[i] == s[i];
      }
      if p.Used() && k == p.key {
        assert s'[|s|] == p;
      }
    }
  }

  lemma KeysConcat(s: seq<PacketStat>, ps: seq<PacketStat>)
    ensures Keys(s + ps) == Keys(s) + Keys(ps)
  {
    var both := s + ps;
    forall k
      ensures k in Keys(both) <==> k in Keys(s) || k in Keys(ps)
    {
      if k in Keys(s) {
        var i :| 0 <= i < |s| && s[i].Used() && s[i].key == k;
        assert both[i] == s[i];
      }
      if k in Keys(ps) {
        var i :| 0 <= i < |ps| && ps[i].Used() && ps[i].key == k;
        assert both[|s| + i] == ps[i];
      }
    }
  }

  lemma KeysUpdate(s: seq<PacketStat>, i: nat, x: PacketStat)
    requires i < |s| && x.Used() && (s[i].Used() ==> s[i].key == x.key)
    ensures Keys(s[i := x]) == Keys(s) + {x.key}
  {
    var s' := s[i := x];
    forall k
      ensures k in Keys(s') <==> k in Keys(s) || k == x.key
    {
      if k in Keys(s) {
        var j :| 0 <= j < |s| && s[j].Used() && s[j].key == k;
        assert s'[j].Used() && s'[j].key == k;
      }
      assert s'[i] == x;
    }
  }

  /** A list of packets is counted where some are counted already: the total of every key among them grows by their
      counts, exactly below 2^32 and modulo 2^32 from there on, and all other totals stay as they are. */
  ghost predicate Grown(s: seq<PacketStat>, s': seq<PacketStat>, ps: seq<PacketStat>) {
    && |s'| == |s|
    && (OneSlotPerKey(s) ==> OneSlotPerKey(s'))
    && Keys(s') == Keys(s) + Keys(ps)
    && (forall k :: SameCount(Total(s', k), Total(s, k) + Total(ps, k)))
    && (forall k :: Total(s, k) + Total(ps, k) < 4294967296 ==> Total(s', k) == Total(s, k) + Total(ps, k))
    && (forall k :: k !in Keys(ps) ==> Total(s', k) == Total(s, k))
  }

  lemma CountInSlot(s: seq<PacketStat>, i: nat, p: PacketStat)
    requires i < |s| && p.Used() && s[i].key == p.key
    ensures Grown(s, s[i := s[i].(count := (s[i].count + p.count) % U32_RANGE)], [p])
  {
    var x := s[i].(count := (s[i].count + p.count) % U32_RANGE);
    KeysUpdate(s, i, x);
    KeysAfter([], p);
    assert [] + [p] == [p];
    forall k
      ensures SameCount(Total(s[i := x], k), Total(s, k) + Total([p], k))
      ensures Total(s, k) + Total([p], k) < 4294967296 ==> Total(s[i := x], k) == Total(s, k) + Total([p], k)
      ensures k != p.key ==> Total(s[i := x], k) == Total(s, k)
    {
      SlotAtMostTotal(s, i, k);
      TotalUpdate(s, i, x, k);
      assert [p][..0] == [];
      WrapIsSame(s[i].count + p.count);
    }
  }

  lemma WrapIsSame(x: nat)
    ensures SameCount(x % U32_RANGE, x)
  {}

  lemma CountInFreshSlot(s: seq<PacketStat>, i: nat, p: PacketStat)
    requires i < |s| && p.Used() && !s[i].Used()
    requires forall j | 0 <= j < |s| :: s[j].key != p.key
    ensures Grown(s, s[i := p], [p])
  {
    KeysUpdate(s, i, p);
    KeysAfter([], p);
    assert [] + [p] == [p];
    forall k
      ensures SameCount(Total(s[i := p], k), Total(s, k) + Total([p], k))
      ensures Total(s[i := p], k) == Total(s, k) + Total([p], k)
      ensures k != p.key ==> Total(s[i := p], k) == Total(s, k)
    {
      TotalUpdate(s, i, p, k);
      assert [p][..0] == [];
    }
  }

  lemma CountNothing(s: seq<PacketStat>, p: PacketStat)
    requires !p.Used()
    ensures Grown(s, s, [p])
  {
    KeysAfter([], p);
    assert [] + [p] == [p];
    forall k
      ensures Total([p], k) == 0
    {
      assert [p][..0] == [];
    }
  }

  lemma CountsAdd(a: int, x: int, b: int, y: int, c: int)
    requires SameCount(b, a + x) && SameCount(c, b + y)
    ensures SameCount(c, a + (x + y))
  {
    var q, r := (b - (a + x)) / 4294967296, (c - (b + y)) / 4294967296;
    assert c - (a + (x + y)) == 4294967296 * (q + r);
  }

  /** Counts a packet in the slot of its key, or in the first unused slot. It fails, leaving the array alone,
      exactly when the key has no slot and no slot is unused. */
  method AddPacketToStats(a: array<PacketStat>, p: PacketStat, enabled: bool) returns (r: Result<(), StatError>)
    modifies a
    ensures !enabled ==> r.Success? && a[..] == old(a[..])
    ensures enabled && r.Success? ==> Grown(old(a[..]), a[..], [p])
    ensures p.key.messageType == 0 ==> r.Success? && a[..] == old(a[..])
    ensures forall k | k != p.key :: Total(a[..], k) == Total(old(a[..]), k)
    ensures p.count < 4294967296 && (forall i | 0 <= i < a.Length :: old(a[i]).count < 4294967296) ==>
              forall i | 0 <= i < a.Length :: a[i].count < 4294967296
    ensures r.Failure? ==> a[..] == old(a[..])
    ensures r.Failure? <==> enabled && p.key.messageType != 0
                            && forall i | 0 <= i < a.Length :: old(a[i]).key.messageType != 0 && old(a[i]).key != p.key
  {
    if !enabled {
      return Success(());
    }
    if p.key.messageType == INVALID {
      CountNothing(a[..], p);
      return Success(());
    }
    ghost var s := a[..];
    hide Grown, Total;
    var emptySlot: Option<nat> := None;
    for i := 0 to a.Length
      invariant a[..] == s
      invariant forall j | 0 <= j < i :: s[j].key != p.key
      invariant emptySlot.Some? ==> emptySlot.value < i && !s[emptySlot.value].Used()
      invariant emptySlot.None? ==> forall j | 0 <= j < i :: s[j].Used()
    {
      if p.key == a[i].key {
        CountInSlot(s, i, p);
        a[i] := a[i].(count := (a[i].count + p.count) % U32_RANGE);
        assert a[..] == s[i := s[i].(count := (s[i].count + p.count) % U32_RANGE)];
        OtherTotalsStay(s, a[..], p);
        return Success(());
      }
      if emptySlot.None? && a[i].key.messageType == INVALID {
        emptySlot := Some(i);
      }
    }
    if emptySlot.None? {
      return Failure(PacketStatBufferSizeNotEnough);
    }
    CountInFreshSlot(s, emptySlot.value, p);
    a[emptySlot.value] := p;
    assert a[..] == s[emptySlot.value := p];
    OtherTotalsStay(s, a[..], p);
    return Success(());
  }

  lemma OtherTotalsStay(s: seq<PacketStat>, s': seq<PacketStat>, p: PacketStat)
    requires Grown(s, s', [p])
    ensures forall k | k != p.key :: Total(s', k) == Total(s, k)
  {
    KeysAfter([], p);
    assert [] + [p] == [p];
  }

  /** The slots of several nodes, one node after the other. */
  function Flat(nodes: seq<seq<PacketStat>>): seq<PacketStat> {
    if nodes == [] then [] else Flat(nodes[..|nodes| - 1]) + nodes[|nodes| - 1]
  }

  function TotalOfAll(nodes: seq<seq<PacketStat>>, k: Key): nat {
    if nodes == [] then 0 else TotalOfAll(nodes[..|nodes| - 1], k) + Total(nodes[|nodes| - 1], k)
  }

  lemma {:induction false} TotalConcat(a: seq<PacketStat>, b: seq<PacketStat>, k: Key)
    ensures Total(a + b, k) == Total(a, k) + Total(b, k)
    decreases |b|
  {
    if b == [] {
      assert a + b == a;
    } else {
      assert (a + b)[..|a + b| - 1] == a + b[..|b| - 1];
      TotalConcat(a, b[..|b| - 1], k);
    }
  }

  lemma {:induction false} FlatTotal(nodes: seq<seq<PacketStat>>, k: Key)
    ensures Total(Flat(nodes), k) == TotalOfAll(nodes, k)
    decreases |nodes|
  {
    if nodes != [] {
      FlatTotal(nodes[..|nodes| - 1], k);
      TotalConcat(Flat(nodes[..|nodes| - 1]), nodes[|nodes| - 1], k);
    }
  }

  /** When a packet finds no slot, its key and those there do not fit. */
  lemma DoesNotFit(s: seq<PacketStat>, p: PacketStat)
    requires OneSlotPerKey(s) && p.Used()
    requires forall i | 0 <= i < |s| :: s[i].Used() && s[i].key != p.key
    ensures |Keys(s) + {p.key}| > |s|
  {
    KeysExactly(s);
    assert p.key !in Keys(s);
  }

  lemma {:induction false} SubsetSize(a: set<Key>, b: set<Key>)
    requires a <= b
    ensures |a| <= |b|
    decreases a
  {
    if a != {} {
      var x :| x in a;
      SubsetSize(a - {x}, b - {x});
    }
  }

  lemma GrownByNothing(s: seq<PacketStat>)
    ensures Grown(s, s, [])
  {
    assert Keys([]) == {};
  }

  lemma GrownKeys(s: seq<PacketStat>, s': seq<PacketStat>, ps: seq<PacketStat>)
    requires Grown(s, s', ps)
    ensures |s'| == |s| && Keys(s') == Keys(s) + Keys(ps) && (OneSlotPerKey(s) ==> OneSlotPerKey(s'))
  {
    hide SameCount, Total, Keys, OneSlotPerKey;
  }

  lemma KeyOfFirst(ps: seq<PacketStat>)
    requires ps != [] && ps[0].Used()
    ensures ps[0].key in Keys(ps)
  {}

  lemma OneTooMany(a: set<Key>, b: set<Key>, c: set<Key>, x: Key, n: nat)
    requires |a + b + {x}| > n && x in c
    ensures |a + (b + c)| > n
  {
    SubsetSize(a + b + {x}, a + (b + c));
  }

  /** If the j-th packet finds no slot, all keys together do not fit. */
  lemma ListDoesNotFit(s: seq<PacketStat>, s': seq<PacketStat>, ps: seq<PacketStat>, j: nat)
    requires OneSlotPerKey(s) && j < |ps| && Grown(s, s', ps[..j]) && ps[j].Used()
    requires forall i | 0 <= i < |s'| :: s'[i].Used() && s'[i].key != ps[j].key
    ensures |Keys(s) + Keys(ps)| > |s|
  {
    KeyOfFirst(ps[j..]);
    hide Grown, OneSlotPerKey, Keys;
    GrownKeys(s, s', ps[..j]);
    DoesNotFit(s', ps[j]);
    KeysConcat(ps[..j], ps[j..]);
    assert ps[..j] + ps[j..] == ps;
    OneTooMany(Keys(s), Keys(ps[..j]), Keys(ps[j..]), ps[j].key, |s|);
  }

  /** Counts a list of packets, unless the keys do not fit. */
  method AddAll(a: array<PacketStat>, ps: seq<PacketStat>) returns (r: Result<(), StatError>)
    requires OneSlotPerKey(a[..])
    modifies a
    ensures r.Success? ==> Grown(old(a[..]), a[..], ps)
    ensures r.Failure? ==> |Keys(old(a[..])) + Keys(ps)| > a.Length
  {
    hide Grown, Keys, OneSlotPerKey;
    ghost var s := a[..];
    GrownByNothing(s);
    assert ps[..0] == [];
    for j := 0 to |ps|
      invariant Grown(s, a[..], ps[..j])
    {
      ghost var before := a[..];
      r := AddPacketToStats(a, ps[j], true);
      if r.Failure? {
        ListDoesNotFit(s, before, ps, j);
        return;
      }
      GrownChain(s, before, a[..], ps[..j], [ps[j]]);
      assert ps[..j + 1] == ps[..j] + [ps[j]];
    }
    assert ps[..|ps|] == ps;
    return Success(());
  }

  lemma GrownChain(s: seq<PacketStat>, s': seq<PacketStat>, s'': seq<PacketStat>, ps: seq<PacketStat>,
                   qs: seq<PacketStat>)
    requires Grown(s, s', ps) && Grown(s', s'', qs)
    ensures Grown(s, s'', ps + qs)
  {
    KeysConcat(ps, qs);
    hide Keys, OneSlotPerKey, Total, SameCount;
    forall k
      ensures SameCount(Total(s'', k), Total(s, k) + Total(ps + qs, k))
      ensures Total(s, k) + Total(ps + qs, k) < 4294967296 ==> Total(s'', k) == Total(s, k) + Total(ps + qs, k)
    {
      TotalConcat(ps, qs, k);
      CountsAdd(Total(s, k), Total(ps, k), Total(s', k), Total(qs, k), Total(s'', k));
    }
  }

  lemma {:induction false} KeysOfFlat(nodes: seq<seq<PacketStat>>, i: nat)
    requires i < |nodes|
    ensures Keys(nodes[i]) <= Keys(Flat(nodes)) && Keys(Flat(nodes[..i])) <= Keys(Flat(nodes))
    decreases |nodes|
  {
    var n := |nodes| - 1;
    KeysConcat(Flat(nodes[..n]), nodes[n]);
    if i < n {
      assert nodes[..n][..i] == nodes[..i];
      KeysOfFlat(nodes[..n], i);
    }
  }

  lemma GrownTotal(s: seq<PacketStat>, s': seq<PacketStat>, ps: seq<PacketStat>, k: Key)
    requires Grown(s, s', ps)
    ensures SameCount(Total(s', k), Total(s, k) + Total(ps, k))
    ensures Total(s, k) + Total(ps, k) < 4294967296 ==> Total(s', k) == Total(s, k) + Total(ps, k)
  {
    hide SameCount, Total, Keys, OneSlotPerKey;
  }

  ghost predicate Empty(s: seq<PacketStat>) {
    forall i | 0 <= i < |s| :: !s[i].Used()
  }

  lemma EmptyFacts(s: seq<PacketStat>)
    requires Empty(s)
    ensures OneSlotPerKey(s) && Keys(s) == {} && forall k :: Total(s, k) == 0
  {
    forall k
      ensures Total(s, k) == 0
    {
      TotalIsNothing(s, k);
    }
  }

  lemma SummaryTotal(s: seq<PacketStat>, s': seq<PacketStat>, nodes: seq<seq<PacketStat>>, k: Key)
    requires Grown(s, s', Flat(nodes)) && Total(s, k) == 0
    ensures SameCount(Total(s', k), TotalOfAll(nodes, k))
    ensures TotalOfAll(nodes, k) < 4294967296 ==> Total(s', k) == TotalOfAll(nodes, k)
  {
    hide Grown, Total, TotalOfAll, Flat, SameCount;
    FlatTotal(nodes, k);
    GrownTotal(s, s', Flat(nodes), k);
  }

  /** A summary that started empty: its totals are those of all nodes, and all keys have found a slot. */
  lemma SummaryIsSum(s: seq<PacketStat>, s': seq<PacketStat>, nodes: seq<seq<PacketStat>>)
    requires Grown(s, s', Flat(nodes)) && Empty(s)
    ensures OneSlotPerKey(s') && |Keys(Flat(nodes))| <= |s'|
    ensures forall k :: SameCount(Total(s', k), TotalOfAll(nodes, k))
    ensures forall k :: TotalOfAll(nodes, k) < 4294967296 ==> Total(s', k) == TotalOfAll(nodes, k)
  {
    hide Grown, Keys, OneSlotPerKey, Total, TotalOfAll, Flat, SameCount, Empty;
    EmptyFacts(s);
    GrownKeys(s, s', Flat(nodes));
    KeysAtMost(s');
    forall k
      ensures SameCount(Total(s', k), TotalOfAll(nodes, k))
      ensures TotalOfAll(nodes, k) < 4294967296 ==> Total(s', k) == TotalOfAll(nodes, k)
    {
      SummaryTotal(s, s', nodes, k);
    }
  }

  /** If one node does not fit, all keys together do not. */
  lemma SummaryDoesNotFit(s: seq<PacketStat>, before: seq<PacketStat>, nodes: seq<seq<PacketStat>>, i: nat)
    requires Empty(s) && i < |nodes| && Grown(s, before, Flat(nodes[..i]))
    requires |Keys(before) + Keys(nodes[i])| > |s|
    ensures |Keys(Flat(nodes))| > |s|
  {
    EmptyFacts(s);
    hide Grown, Keys, OneSlotPerKey, Total, Flat;
    GrownKeys(s, before, Flat(nodes[..i]));
    KeysOfFlat(nodes, i);
    SubsetSize(Keys(before) + Keys(nodes[i]), Keys(Flat(nodes)));
  }

  /** The summary over all nodes: every total is the sum of the nodes' totals, unless there are more keys than
      slots. */
  method SumPacketStats(sum: array<PacketStat>, nodes: seq<seq<PacketStat>>) returns (r: Result<(), StatError>)
    requires Empty(sum[..])
    modifies sum
    ensures r.Success? ==> OneSlotPerKey(sum[..])
    ensures r.Success? ==> forall k :: SameCount(Total(sum[..], k), TotalOfAll(nodes, k))
    ensures r.Success? ==> forall k :: TotalOfAll(nodes, k) < 4294967296 ==> Total(sum[..], k) == TotalOfAll(nodes, k)
    ensures r.Success? <==> |Keys(Flat(nodes))| <= sum.Length
  {
    ghost var s := sum[..];
    EmptyFacts(s);
    hide Grown, Keys, OneSlotPerKey, Empty, Total, TotalOfAll, SameCount;
    GrownByNothing(s);
    assert nodes[..0] == [];
    for i := 0 to |nodes|
      invariant Grown(s, sum[..], Flat(nodes[..i]))
    {
      ghost var before := sum[..];
      GrownKeys(s, before, Flat(nodes[..i]));
      r := AddAll(sum, nodes[i]);
      if r.Failure? {
        SummaryDoesNotFit(s, before, nodes, i);
        return;
      }
      GrownChain(s, before, sum[..], Flat(nodes[..i]), nodes[i]);
      assert nodes[..i + 1][..i] == nodes[..i];
    }
    assert nodes[..|nodes|] == nodes;
    SummaryIsSum(s, sum[..], nodes);
    return Success(());
  }
}
