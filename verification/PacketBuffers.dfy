/** The send buffers of one link end: one slot for a reliable write and seven for writes without
    response and notifications. Slots are filled wherever one is free and emptied lowest id first. */
module PacketBuffers {
  import opened Results

  const NUM_UNRELIABLE := 7
  const NUM_SLOTS := 8
  const UINT32_MAX := 0xFFFF_FFFF

  datatype Kind = Notification | WriteCommand | WriteRequest

  /** What the receiver gets to see of a packet: how it was sent, the attribute and the bytes. */
  datatype Message = Message(kind: Kind, attribute: nat, data: seq<bv8>)

  /** A buffered packet: its global id, the link it was queued on and the node at the other end. */
  datatype Packet = Packet(id: nat, link: nat, receiver: nat, queuedAt: nat, message: Message)
  {
    predicate Reliable() { message.kind == WriteRequest }
  }

  type Slot = Option<Packet>

  /** `reliableBuffers[0]` and `unreliableBuffers`; an empty slot is one whose sender is null. */
  datatype Buffers = Buffers(reliable: Slot, unreliable: seq<Slot>)
  {
    ghost predicate Valid() {
      && |unreliable| == NUM_UNRELIABLE
      && (reliable.Some? ==> reliable.value.Reliable())
      && (forall k | 0 <= k < NUM_UNRELIABLE :: unreliable[k].Some? ==> !unreliable[k].value.Reliable())
    }

    /** All slots in the order the code looks at them. */
    function Slots(): (s: seq<Slot>) {
      [reliable] + unreliable
    }

    function With(k: nat, s: Slot): (b: Buffers)
      requires |unreliable| == NUM_UNRELIABLE && k < NUM_SLOTS
      ensures b.Slots() == Slots()[k := s] && |b.unreliable| == NUM_UNRELIABLE
    {
      if k == 0 then Buffers(s, unreliable) else Buffers(reliable, unreliable[k - 1 := s])
    }
  }

  const EMPTY: Buffers := Buffers(None, [None, None, None, None, None, None, None])

  // ---------- Which packet leaves next ----------

  /** The index of the lowest id among the first n slots, as the code's scan finds it: the reliable
      packet counts whatever its id, the others only below the starting value UINT32_MAX. */
  function Lowest(s: seq<Slot>, n: nat): (r: Option<nat>)
    requires n <= |s|
    ensures r.Some? ==> r.value < n && s[r.value].Some?
  {
    if n == 0 then None
    else
      var before := Lowest(s, n - 1);
      var limit := if before.Some? then s[before.value].value.id else UINT32_MAX;
      if s[n - 1].Some? && (n == 1 || s[n - 1].value.id < limit) then Some(n - 1) else before
  }

  function NextSlot(b: Buffers): Option<nat> {
    Lowest(b.Slots(), |b.Slots()|)
  }

  method GetNextPacketToWrite(b: Buffers) returns (r: Option<nat>)
    requires |b.unreliable| == NUM_UNRELIABLE
    ensures r == NextSlot(b)
  {
    var lowestGlobalId := UINT32_MAX;
    r := None;
    if b.reliable.Some? {
      lowestGlobalId := b.reliable.value.id;
      r := Some(0);
    }
    for k := 0 to NUM_UNRELIABLE
      invariant r == Lowest(b.Slots(), k + 1)
      invariant lowestGlobalId == if r.Some? then b.Slots()[r.value].value.id else UINT32_MAX
    {
      if b.unreliable[k].Some? && b.unreliable[k].value.id < lowestGlobalId {
        lowestGlobalId := b.unreliable[k].value.id;
        r := Some(k + 1);
      }
    }
  }

  function FirstEmpty(s: seq<Slot>): (k: Option<nat>)
    ensures k.Some? ==> k.value < |s| && s[k.value].None? && forall i | 0 <= i < k.value :: s[i].Some?
    ensures k.None? ==> forall i | 0 <= i < |s| :: s[i].Some?
  {
    if s == [] then None
    else
      var k := FirstEmpty(s[..|s| - 1]);
      if k.Some? then k else if s[|s| - 1].None? then Some(|s| - 1) else None
  }

  /** `findFreePacketBuffer`: the first empty unreliable slot. */
  method FindFreePacketBuffer(b: Buffers) returns (r: Option<nat>)
    requires |b.unreliable| == NUM_UNRELIABLE
    ensures r == FirstEmpty(b.unreliable)
  {
    for k := 0 to NUM_UNRELIABLE
      invariant forall j | 0 <= j < k :: b.unreliable[j].Some?
    {
      if b.unreliable[k].None? {
        return Some(k);
      }
    }
    return None;
  }

  /** Where a message would be buffered: reliable writes have one slot of their own. */
  function FreeSlot(b: Buffers, kind: Kind): (k: Option<nat>)
    ensures k.Some? ==> k.value < |b.Slots()| && b.Slots()[k.value].None? && (k.value == 0 <==> kind == WriteRequest)
  {
    if kind == WriteRequest then (if b.reliable.None? then Some(0) else None)
    else
      var k := FirstEmpty(b.unreliable);
      if k.Some? then Some(k.value + 1) else None
  }

  /** When the scan finds a packet: an unreliable packet with the highest id of all is overlooked. */
  lemma {:induction false} LowestExistsIff(s: seq<Slot>, n: nat)
    requires n <= |s|
    ensures Lowest(s, n).None? <==> forall k | 0 <= k < n :: s[k].Some? ==> k > 0 && s[k].value.id >= UINT32_MAX
    decreases n
  {
    if n > 0 {
      LowestExistsIff(s, n - 1);
    }
  }

  /** The packet the scan overlooks unless it is the reliable one. */
  predicate Highest(x: Slot) {
    x.Some? && x.value.id == UINT32_MAX
  }

  ghost predicate InRange(s: seq<Slot>) {
    forall k | 0 <= k < |s| && s[k].Some? :: s[k].value.id <= UINT32_MAX
  }

  lemma {:induction false} LowestIsNotHighest(s: seq<Slot>, n: nat)
    requires n <= |s| && InRange(s)
    ensures Lowest(s, n).Some? && Lowest(s, n).value > 0 ==> !Highest(s[Lowest(s, n).value])
    decreases n
  {
    if n > 0 {
      LowestIsNotHighest(s, n - 1);
    }
  }

  /** Unreliable packets with the highest id are where they were. */
  ghost predicate Stays(b: Buffers, b': Buffers) {
    && |b'.unreliable| == |b.unreliable|
    && forall k | 0 <= k < |b.unreliable| && Highest(b.unreliable[k]) :: b'.unreliable[k] == b.unreliable[k]
  }

  lemma StaysChains(b: Buffers, b': Buffers, b'': Buffers)
    requires Stays(b, b') && Stays(b', b'')
    ensures Stays(b, b'')
  {}

  lemma StaysWith(b: Buffers, k: nat, x: Slot)
    requires |b.unreliable| == NUM_UNRELIABLE && k < NUM_SLOTS && (k > 0 ==> !Highest(b.Slots()[k]))
    ensures Stays(b, b.With(k, x))
  {
    assert k > 0 ==> b.Slots()[k] == b.unreliable[k - 1];
  }

  /** Slots were emptied, and nothing was moved. */
  ghost predicate Thinned(b: Buffers, b': Buffers) {
    && |b'.unreliable| == |b.unreliable|
    && (b'.reliable == b.reliable || b'.reliable.None?)
    && forall k | 0 <= k < |b.unreliable| :: b'.unreliable[k] == b.unreliable[k] || b'.unreliable[k].None?
  }

  lemma ThinnedByOne(b: Buffers, b': Buffers, k: nat)
    requires Thinned(b, b') && |b.unreliable| == NUM_UNRELIABLE && k < NUM_SLOTS
    ensures Thinned(b, b'.With(k, None))
  {}

  // ---------- Ids below the limit, all different ----------

  ghost predicate Orderly(s: seq<Slot>) {
    && (forall k | 0 <= k < |s| :: s[k].Some? ==> s[k].value.id < UINT32_MAX)
    && (forall j, k | 0 <= j < k < |s| :: s[j].Some? && s[k].Some? ==> s[j].value.id != s[k].value.id)
  }

  /** With orderly ids the scan finds the minimum of what is buffered, if anything is. */
  lemma {:induction false} LowestIsMinimum(s: seq<Slot>, n: nat)
    requires n <= |s| && Orderly(s)
    ensures Lowest(s, n).None? <==> forall k | 0 <= k < n :: s[k].None?
    ensures Lowest(s, n).Some? ==>
              forall k | 0 <= k < n :: s[k].Some? ==> s[Lowest(s, n).value].value.id <= s[k].value.id
    decreases n
  {
    if n > 0 {
      LowestIsMinimum(s, n - 1);
    }
  }

  // ---------- The buffers as a queue ----------

  function Occupied(s: seq<Slot>): nat {
    if s == [] then 0 else Occupied(s[..|s| - 1]) + (if s[|s| - 1].Some? then 1 else 0)
  }

  lemma {:induction false} OccupiedUpdate(s: seq<Slot>, k: nat, x: Slot)
    requires k < |s|
    ensures Occupied(s[k := x]) == Occupied(s) - (if s[k].Some? then 1 else 0) + (if x.Some? then 1 else 0)
    ensures s[k].Some? ==> Occupied(s) > 0
    decreases |s|
  {
    var n := |s| - 1;
    if k < n {
      assert s[k := x][..n] == s[..n][k := x];
      OccupiedUpdate(s[..n], k, x);
    } else {
      assert s[k := x][..n] == s[..n];
    }
  }

  /** The packets in the order in which they leave, if nothing more is queued. */
  function Drain(s: seq<Slot>): seq<Packet>
    decreases Occupied(s)
  {
    var next := Lowest(s, |s|);
    if next.None? then []
    else
      OccupiedUpdate(s, next.value, None);
      [s[next.value].value] + Drain(s[next.value := None])
  }

  lemma OrderlyRemove(s: seq<Slot>, k: nat)
    requires Orderly(s) && k < |s|
    ensures Orderly(s[k := None])
  {}

  /** The queue is as long as there are packets. */
  lemma {:induction false} DrainLength(s: seq<Slot>)
    requires Orderly(s)
    ensures |Drain(s)| == Occupied(s)
    decreases Occupied(s)
  {
    LowestIsMinimum(s, |s|);
    var next := Lowest(s, |s|);
    if next.Some? {
      OccupiedUpdate(s, next.value, None);
      OrderlyRemove(s, next.value);
      DrainLength(s[next.value := None]);
    } else {
      NothingOccupied(s);
    }
  }

  lemma {:induction false} NothingOccupied(s: seq<Slot>)
    requires forall k | 0 <= k < |s| :: s[k].None?
    ensures Occupied(s) == 0
    decreases |s|
  {
    if s != [] {
      NothingOccupied(s[..|s| - 1]);
    }
  }

  /** A row of slots is full when it holds as many packets as it has slots. */
  lemma {:induction false} FullWhenOccupied(s: seq<Slot>)
    ensures Occupied(s) <= |s|
    ensures (forall k | 0 <= k < |s| :: s[k].Some?) ==> Occupied(s) == |s|
    decreases |s|
  {
    if s != [] {
      FullWhenOccupied(s[..|s| - 1]);
      assert s[..|s| - 1] + [s[|s| - 1]] == s;
    }
  }

  lemma {:induction false} OccupiedBehind(x: Slot, s: seq<Slot>)
    requires x.None?
    ensures Occupied([x] + s) == Occupied(s)
    decreases |s|
  {
    if s != [] {
      assert ([x] + s)[..|s|] == [x] + s[..|s| - 1];
      OccupiedBehind(x, s[..|s| - 1]);
    }
  }

  /** A newer packet leaves next only if nothing else is buffered. */
  lemma LowestWithNewest(s: seq<Slot>, k: nat, p: Packet)
    requires Orderly(s) && k < |s| && s[k].None? && p.id < UINT32_MAX
    requires forall j | 0 <= j < |s| :: s[j].Some? ==> s[j].value.id < p.id
    ensures Orderly(s[k := Some(p)])
    ensures Lowest(s[k := Some(p)], |s|) == if Lowest(s, |s|).None? then Some(k) else Lowest(s, |s|)
  {
    var s' := s[k := Some(p)];
    LowestIsMinimum(s, |s|);
    LowestIsMinimum(s', |s|);
    var next, next' := Lowest(s, |s|), Lowest(s', |s|);
    hide Lowest;
    assert s'[k].Some?;
    if next.Some? {
      assert s'[next.value].Some?;
      assert s[next'.value].Some?;
    }
  }

  /** Queueing a packet with a higher id than everything buffered, in whatever free slot, appends it at
      the end: the slots are a first-in first-out queue. */
  lemma {:induction false} QueuedLast(s: seq<Slot>, k: nat, p: Packet)
    requires Orderly(s) && k < |s| && s[k].None? && p.id < UINT32_MAX
    requires forall j | 0 <= j < |s| :: s[j].Some? ==> s[j].value.id < p.id
    ensures Orderly(s[k := Some(p)])
    ensures Drain(s[k := Some(p)]) == Drain(s) + [p]
    decreases Occupied(s)
  {
    var s' := s[k := Some(p)];
    var next := Lowest(s, |s|);
    LowestWithNewest(s, k, p);
    if next.None? {
      assert s'[k := None] == s;
    } else {
      var m := next.value;
      LowestIsMinimum(s, |s|);
      OccupiedUpdate(s, m, None);
      OrderlyRemove(s, m);
      hide Lowest;
      assert s'[m := None] == s[m := None][k := Some(p)];
      QueuedLast(s[m := None], k, p);
    }
  }

  /** The queue holds exactly the packets in the slots. */
  lemma {:induction false} DrainIsContents(s: seq<Slot>)
    requires Orderly(s)
    ensures forall p :: p in Drain(s) <==> Some(p) in s
    decreases Occupied(s)
  {
    LowestIsMinimum(s, |s|);
    var next := Lowest(s, |s|);
    if next.Some? {
      var m := next.value;
      var rest := s[m := None];
      OccupiedUpdate(s, m, None);
      OrderlyRemove(s, m);
      DrainIsContents(rest);
      forall p
        ensures p in Drain(s) <==> Some(p) in s
      {
        if Some(p) in s {
          var k :| 0 <= k < |s| && s[k] == Some(p);
          assert k != m ==> rest[k] == Some(p);
        }
        if Some(p) in rest {
          var k :| 0 <= k < |rest| && rest[k] == Some(p);
          assert s[k] == Some(p);
        }
        assert s[m] in s;
      }
    } else {
      assert forall k | 0 <= k < |s| :: s[k] == None;
    }
  }

  /** What is left in the slots has higher ids than the packet that leaves. */
  lemma FirstIsLowest(s: seq<Slot>, m: nat, q: Packet)
    requires Orderly(s) && Lowest(s, |s|) == Some(m) && q in Drain(s[m := None])
    ensures s[m].value.id < q.id
  {
    LowestIsMinimum(s, |s|);
    OrderlyRemove(s, m);
    DrainIsContents(s[m := None]);
    var k :| 0 <= k < |s| && s[m := None][k] == Some(q);
    assert k != m && s[k] == Some(q);
  }

  /** It is sorted by id, so no packet is in it twice. */
  lemma {:induction false} DrainIsSorted(s: seq<Slot>)
    requires Orderly(s)
    ensures forall i, j | 0 <= i < j < |Drain(s)| :: Drain(s)[i].id < Drain(s)[j].id
    decreases Occupied(s)
  {
    var next := Lowest(s, |s|);
    if next.Some? {
      var m := next.value;
      var rest := Drain(s[m := None]);
      OccupiedUpdate(s, m, None);
      OrderlyRemove(s, m);
      DrainIsSorted(s[m := None]);
      assert Drain(s) == [s[m].value] + rest;
      hide Drain, Lowest, Orderly;
      forall i, j | 0 <= i < j < |Drain(s)|
        ensures Drain(s)[i].id < Drain(s)[j].id
      {
        if i == 0 {
          assert rest[j - 1] in rest;
          FirstIsLowest(s, m, rest[j - 1]);
        }
      }
    }
  }

  /** Exactly then: a packet leaves after all that is buffered if and only if its id is the highest. */
  lemma QueuedLastIff(s: seq<Slot>, k: nat, p: Packet)
    requires k < |s| && s[k].None? && Orderly(s[k := Some(p)])
    ensures Drain(s[k := Some(p)]) == Drain(s) + [p] <==> forall j | 0 <= j < |s| :: s[j].Some? ==> s[j].value.id < p.id
  {
    var s' := s[k := Some(p)];
    assert s'[k].Some?;
    assert forall j | 0 <= j < |s| && s[j].Some? :: s'[j] == s[j];
    assert Orderly(s);
    if forall j | 0 <= j < |s| :: s[j].Some? ==> s[j].value.id < p.id {
      QueuedLast(s, k, p);
    }
    if Drain(s') == Drain(s) + [p] {
      DrainIsContents(s);
      DrainIsSorted(s');
      forall j | 0 <= j < |s| && s[j].Some?
        ensures s[j].value.id < p.id
      {
        assert s[j].value in Drain(s);
        var i :| 0 <= i < |Drain(s)| && Drain(s)[i] == s[j].value;
        assert Drain(s')[i].id < Drain(s')[|Drain(s)|].id;
      }
    }
  }

  lemma DrainNext(s: seq<Slot>, k: nat)
    requires Lowest(s, |s|) == Some(k)
    ensures Drain(s) == [s[k].value] + Drain(s[k := None])
  {
    hide Lowest;
  }

  /** A packet finds its place in the queue by its id, wherever it is put. */
  lemma {:induction false} DrainInsert(s: seq<Slot>, k: nat, p: Packet) returns (i: nat)
    requires k < |s| && s[k].None? && Orderly(s[k := Some(p)])
    ensures i <= |Drain(s)| && Drain(s[k := Some(p)]) == Drain(s)[..i] + [p] + Drain(s)[i..]
    ensures forall j | 0 <= j < i :: Drain(s)[j].id < p.id
    ensures forall j | i <= j < |Drain(s)| :: Drain(s)[j].id > p.id
    decreases Occupied(s)
  {
    var s' := s[k := Some(p)];
    OrderlyWithout(s, k, p);
    var m' := LowestOfBoth(s, k, p);
    hide Drain;
    if m' == k {
      assert s'[k := None] == s;
      DrainNext(s', k);
      i := 0;
      AllBehind(s, p);
    } else {
      OccupiedUpdate(s, m', None);
      var rest := s[m' := None];
      assert s'[m' := None] == rest[k := Some(p)];
      OrderlyRemove(s', m');
      DrainNext(s, m');
      DrainNext(s', m');
      hide Lowest, Orderly;
      var i' := DrainInsert(rest, k, p);
      i := i' + 1;
      InsertBehindFirst(s[m'].value, Drain(rest), i', p);
    }
  }

  lemma AllBehind(s: seq<Slot>, p: Packet)
    requires Orderly(s) && forall j | 0 <= j < |s| && s[j].Some? :: p.id < s[j].value.id
    ensures forall j | 0 <= j < |Drain(s)| :: Drain(s)[j].id > p.id
  {
    hide Drain;
    forall j | 0 <= j < |Drain(s)|
      ensures Drain(s)[j].id > p.id
    {
      DrainedFrom(s, Drain(s)[j]);
    }
  }

  lemma InsertBehindFirst(first: Packet, q: seq<Packet>, i: nat, p: Packet)
    requires i <= |q| && first.id < p.id
    requires (forall j | 0 <= j < i :: q[j].id < p.id) && forall j | i <= j < |q| :: q[j].id > p.id
    ensures forall j | 0 <= j < i + 1 :: ([first] + q)[j].id < p.id
    ensures forall j | i + 1 <= j < |[first] + q| :: ([first] + q)[j].id > p.id
    ensures [first] + (q[..i] + [p] + q[i..]) == ([first] + q)[..i + 1] + [p] + ([first] + q)[i + 1..]
  {}

  lemma OrderlyWithout(s: seq<Slot>, k: nat, p: Packet)
    requires k < |s| && s[k].None? && Orderly(s[k := Some(p)])
    ensures Orderly(s) && forall j | 0 <= j < |s| && s[j].Some? :: s[j].value.id != p.id
  {
    var s' := s[k := Some(p)];
    assert s'[k].Some?;
    assert forall j | 0 <= j < |s| && s[j].Some? :: s'[j] == s[j];
  }

  lemma DrainedFrom(s: seq<Slot>, p: Packet)
    requires Orderly(s) && p in Drain(s)
    ensures exists k :: 0 <= k < |s| && s[k] == Some(p)
  {
    DrainIsContents(s);
  }

  /** The lowest of the slots with one more packet: that packet, or the lowest of the others. */
  lemma LowestOfBoth(s: seq<Slot>, k: nat, p: Packet) returns (m: nat)
    requires k < |s| && s[k].None? && Orderly(s) && Orderly(s[k := Some(p)])
    ensures Lowest(s[k := Some(p)], |s|) == Some(m)
    ensures m == k ==> forall j | 0 <= j < |s| && s[j].Some? :: p.id <= s[j].value.id
    ensures m != k ==> Lowest(s, |s|) == Some(m) && s[m].value.id < p.id
  {
    var s' := s[k := Some(p)];
    LowestIsMinimum(s, |s|);
    LowestIsMinimum(s', |s|);
    hide Lowest;
    assert s'[k].Some?;
    m := Lowest(s', |s|).value;
    assert forall j | 0 <= j < |s| && s[j].Some? :: s'[j] == s[j];
    if m != k {
      assert s[m].Some?;
      assert s'[m].value.id <= s'[k].value.id;
      var n := Lowest(s, |s|).value;
      assert s'[n].Some?;
    }
  }

  /** A message moved to the end of a sequence makes no difference exactly when all behind it are the same. */
  lemma MovedToEndIff(x: seq<Message>, m: Message, y: seq<Message>)
    ensures x + [m] + y == x + y + [m] <==> forall i | 0 <= i < |y| :: y[i] == m
  {
    var a, b := x + [m] + y, x + y + [m];
    if a == b {
      SameThroughout(x, m, y, |y|);
    }
    if forall i | 0 <= i < |y| :: y[i] == m {
      assert a == b;
    }
  }

  lemma {:induction false} SameThroughout(x: seq<Message>, m: Message, y: seq<Message>, n: nat)
    requires x + [m] + y == x + y + [m] && n <= |y|
    ensures forall i | 0 <= i < n :: y[i] == m
    decreases n
  {
    if n > 0 {
      SameThroughout(x, m, y, n - 1);
      var j := |x| + n - 1;
      assert (x + [m] + y)[j] == if n == 1 then m else y[n - 2];
      assert (x + y + [m])[j] == y[n - 1];
    }
  }

  lemma MessagesOfThree(q: seq<Packet>, i: nat, p: Packet)
    requires i <= |q|
    ensures Messages(q[..i] + [p] + q[i..]) == Messages(q[..i]) + [p.message] + Messages(q[i..])
    ensures Messages(q) == Messages(q[..i]) + Messages(q[i..])
  {
    assert q == q[..i] + q[i..];
  }

  /** A new message comes last exactly when whatever is buffered under a higher id is the same message. */
  lemma MessageLastIff(s: seq<Slot>, k: nat, p: Packet)
    requires k < |s| && s[k].None? && Orderly(s[k := Some(p)])
    ensures Messages(Drain(s[k := Some(p)])) == Messages(Drain(s)) + [p.message]
            <==> forall j | 0 <= j < |s| && s[j].Some? && s[j].value.id > p.id :: s[j].value.message == p.message
  {
    OrderlyWithout(s, k, p);
    var i := DrainInsert(s, k, p);
    var q := Drain(s);
    MessagesOfThree(q, i, p);
    MovedToEndIff(Messages(q[..i]), p.message, Messages(q[i..]));
    BehindAreHigher(s, p, i);
  }

  ghost predicate SplitAt(q: seq<Packet>, i: nat, id: nat) {
    && i <= |q| && (forall j | 0 <= j < i :: q[j].id < id) && forall j | i <= j < |q| :: q[j].id > id
  }

  lemma BehindAreHigher(s: seq<Slot>, p: Packet, i: nat)
    requires Orderly(s) && SplitAt(Drain(s), i, p.id)
    ensures (forall j | 0 <= j < |Messages(Drain(s)[i..])| :: Messages(Drain(s)[i..])[j] == p.message)
            <==> forall j | 0 <= j < |s| && s[j].Some? && s[j].value.id > p.id :: s[j].value.message == p.message
  {
    DrainIsContents(s);
    var q := Drain(s);
    hide Drain;
    SameBehindIff(s, q, p, i);
    var m := Messages(q[i..]);
    assert forall j | 0 <= j < |m| :: m[j] == q[i + j].message;
    if forall j | 0 <= j < |m| :: m[j] == p.message {
      assert forall j | i <= j < |q| :: q[j].message == m[j - i];
    }
  }

  lemma SameBehindIff(s: seq<Slot>, q: seq<Packet>, p: Packet, i: nat)
    requires SplitAt(q, i, p.id) && forall x :: x in q <==> Some(x) in s
    ensures (forall j | i <= j < |q| :: q[j].message == p.message)
            <==> forall j | 0 <= j < |s| && s[j].Some? && s[j].value.id > p.id :: s[j].value.message == p.message
  {
    if forall j | 0 <= j < |s| && s[j].Some? && s[j].value.id > p.id :: s[j].value.message == p.message {
      forall j | i <= j < |q|
        ensures q[j].message == p.message
      {
        assert q[j] in q;
        var n :| 0 <= n < |s| && s[n] == Some(q[j]);
      }
    }
    if forall j | i <= j < |q| :: q[j].message == p.message {
      forall j | 0 <= j < |s| && s[j].Some? && s[j].value.id > p.id
        ensures s[j].value.message == p.message
      {
        assert s[j] == Some(s[j].value);
        assert s[j].value in q;
        var n :| 0 <= n < |q| && q[n] == s[j].value;
        assert n >= i;
      }
    }
  }

  /** What was queued is what has arrived and what is still to leave, in that order. */
  ghost predicate Ordered(queued: seq<Message>, arrived: seq<Message>, s: seq<Slot>) {
    queued == arrived + Messages(Drain(s))
  }

  lemma EmptyIsOrdered(queued: seq<Message>)
    ensures Ordered(queued, queued, EMPTY.Slots())
  {
    var s := EMPTY.Slots();
    LowestExistsIff(s, |s|);
    assert Drain(s) == [];
  }

  lemma SendingIsOrdered(queued: seq<Message>, arrived: seq<Message>, s: seq<Slot>, k: nat)
    requires Ordered(queued, arrived, s) && Lowest(s, |s|) == Some(k)
    ensures Ordered(queued, arrived + [s[k].value.message], s[k := None])
  {
    DrainNext(s, k);
    MessagesOfFirst(s[k].value, Drain(s[k := None]));
    hide Drain, Messages, Lowest;
  }

  lemma MessagesOfFirst(p: Packet, q: seq<Packet>)
    ensures Messages([p] + q) == [p.message] + Messages(q)
  {}

  lemma QueueingIsOrderedIff(queued: seq<Message>, arrived: seq<Message>, s: seq<Slot>, k: nat, p: Packet)
    requires Ordered(queued, arrived, s) && k < |s| && s[k].None? && Orderly(s[k := Some(p)])
    ensures Ordered(queued + [p.message], arrived, s[k := Some(p)])
            <==> forall j | 0 <= j < |s| && s[j].Some? && s[j].value.id > p.id :: s[j].value.message == p.message
  {
    hide Drain, Messages;
    MessageLastIff(s, k, p);
    var x, y := Messages(Drain(s)) + [p.message], Messages(Drain(s[k := Some(p)]));
    assert queued + [p.message] == arrived + x;
    if arrived + x == arrived + y {
      assert x == (arrived + x)[|arrived|..] && y == (arrived + y)[|arrived|..];
    }
  }

  // ---------- The buffers as a bag ----------

  function Messages(q: seq<Packet>): (m: seq<Message>)
    ensures |m| == |q|
  {
    seq(|q|, i requires 0 <= i < |q| => q[i].message)
  }

  /** What the slots hold, in no order. */
  function Contents(s: seq<Slot>): multiset<Message> {
    if s == [] then multiset{}
    else Contents(s[..|s| - 1]) + Bag(s[|s| - 1])
  }

  function Bag(x: Slot): multiset<Message> {
    if x.Some? then multiset{x.value.message} else multiset{}
  }

  lemma BagsWithRest(a: multiset<Message>, x: multiset<Message>, b: multiset<Message>, y: multiset<Message>,
                     rest: multiset<Message>)
    requires a + x == b + y
    ensures (a + rest) + x == (b + rest) + y
  {
    assert (a + rest) + x == (a + x) + rest;
  }

  lemma {:induction false} ContentsUpdate(s: seq<Slot>, k: nat, x: Slot)
    requires k < |s|
    ensures Contents(s[k := x]) + Bag(s[k]) == Contents(s) + Bag(x)
    decreases |s|
  {
    var n := |s| - 1;
    if k < n {
      assert s[k := x][..n] == s[..n][k := x];
      assert s[..n][k] == s[k] && s[k := x][n] == s[n];
      ContentsUpdate(s[..n], k, x);
      hide Bag;
      BagsWithRest(Contents(s[..n][k := x]), Bag(s[k]), Contents(s[..n]), Bag(x), Bag(s[n]));
    } else {
      assert s[k := x][..n] == s[..n];
      assert Contents(s[k := x]) == Contents(s[..n]) + Bag(x);
      hide Bag;
      BagsWithRest(multiset{}, Bag(s[k]), Bag(s[k]), multiset{}, Contents(s[..n]) + Bag(x));
    }
  }
}
