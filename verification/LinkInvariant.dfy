/** Everything that holds of the links of a simulation after every step, and the kinds of change that keep it. */
module LinkInvariant {
  import opened Results
  import opened PacketBuffers
  import opened LinkTable
  import opened LinkTraces

  /** The part of the simulator's state that links are made of, with its history: all events pushed, all
      messages queued, and who each link was opened between. */
  datatype World = World(
    t: Table, log: Log, taken: seq<seq<Taken>>, parties: seq<Parties>,
    limits: seq<Limits>, intents: seq<Intent>, packets: nat)

  /** Packet ids have not wrapped, and none is the highest id, which the scan for the next packet overlooks. */
  predicate InIdOrder(packets: nat) {
    packets <= UINT32_MAX
  }

  /** `globalPacketIdCounter` after the given number of packets. */
  function PacketId(packets: nat): nat {
    packets % 0x1_0000_0000
  }

  ghost predicate Sound(w: World) {
    && Paired(w.t) && Agreeing(w.t) && Numbered(w.t, w.parties)
    && RolesKept(w.t, w.limits, w.intents)
    && Buffered(w.t, w.packets)
    && Traced(w.t, w.log, |w.parties|)
    && Delivering(w.t, w.log, w.taken, w.parties, InIdOrder(w.packets))
  }

  lemma SoundSizes(w: World)
    requires Sound(w)
    ensures |w.log| == |w.taken| == |w.limits| == |w.intents| == |w.t|
  {}

  /** What an active slot can rely on: its partner is there, and both nodes have the link. */
  lemma SoundPair(w: World, r: Ref)
    requires Sound(w) && In(w.t, r) && At(w.t, r).active
    ensures At(w.t, r).partnerConnection.Some? && In(w.t, At(w.t, r).partnerConnection.value)
    ensures LinkTable.Ends(r, At(w.t, r), At(w.t, r).partnerConnection.value,
                           At(w.t, At(w.t, r).partnerConnection.value))
  {
    assert PairedAt(w.t, r);
  }

  lemma SoundLive(w: World, r: Ref)
    requires Sound(w) && In(w.t, r) && At(w.t, r).active
    ensures Live(w.t[r.node], At(w.t, r).link)
    ensures At(w.t, r).partner < |w.t| && Live(w.t[At(w.t, r).partner], At(w.t, r).link)
  {
    ActiveIsLive(w.t, r);
    assert PairedAt(w.t, r);
    ActiveIsLive(w.t, At(w.t, r).partnerConnection.value);
  }

  lemma SoundBuffers(w: World, r: Ref)
    requires Sound(w) && In(w.t, r)
    ensures BufferedAt(At(w.t, r), w.packets)
  {}

  /** An event about no link, or about a link the node has. */
  lemma SoundPush(w: World, n: nat, e: Event)
    requires Sound(w) && n < |w.t| && n < |w.log|
    requires !e.Opens() && !e.Ends() && !e.Received?
    requires e.About() == 0 || Live(w.t[n], e.About())
    ensures Sound(w.(log := Logged(w.log, n, e)))
  {
    PushKeepsTraces(w.t, w.log, |w.parties|, n, e);
    PushKeepsAccount(w.t, w.log, w.taken, w.parties, InIdOrder(w.packets), n, e);
  }

  /** Changes of other fields of the slots. */
  lemma SoundUpdate(w: World, u: Table)
    requires Sound(w) && SameLinks(w.t, u)
    requires forall r | In(w.t, r) :: In(u, r) && At(u, r).buffers == At(w.t, r).buffers
    requires Paired(u) ==> Agreeing(u)
    ensures Sound(w.(t := u))
  {
    SameLinksKeepsPairs(w.t, u, w.parties);
    SameLinksKeepsRoles(w.t, u, w.limits, w.intents);
    SameLinksKeepsTraces(w.t, u, w.log, |w.parties|);
    SameBuffersKeepAccount(w.t, u, w.log, w.taken, InIdOrder(w.packets));
    forall r | In(u, r)
      ensures BufferedAt(At(u, r), w.packets)
    {
      assert In(w.t, r);
      assert BufferedAt(At(w.t, r), w.packets) && SameEnd(At(w.t, r), At(u, r));
    }
  }

  lemma SoundIntent(w: World, n: nat, intent: Intent)
    requires Sound(w) && n < |w.t| && n < |w.intents| && n < |w.limits|
    requires forall role | intent.Of(role) && !w.intents[n].Of(role) :: CountRole(w.t[n], role) < w.limits[n].Of(role)
    ensures Sound(w.(intents := w.intents[n := intent]))
  {
    assert Within(w.t[n], w.limits[n], w.intents[n]);
    forall role
      ensures CountRole(w.t[n], role) + (if intent.Of(role) then 1 else 0) <= w.limits[n].Of(role)
    {
      assert CountRole(w.t[n], role) + (if w.intents[n].Of(role) then 1 else 0) <= w.limits[n].Of(role);
    }
    forall m | 0 <= m < |w.t|
      ensures Within(w.t[m], w.limits[m], w.intents[n := intent][m])
    {
      assert Within(w.t[m], w.limits[m], w.intents[m]);
    }
  }

  // ---------- Closing ----------

  /** The link between two slots is gone, and both nodes are told. */
  function Cut(w: World, r: Ref, p: Ref, reason: nat, reasonPartner: nat): World
    requires In(w.t, r) && In(w.t, p) && r.node < |w.log| && p.node < |w.log|
  {
    w.(t := Close(w.t, r, p),
       log := Logged(Logged(w.log, r.node, Disconnected(At(w.t, r).link, reason)),
                     p.node, Disconnected(At(w.t, p).link, reasonPartner)))
  }

  lemma CloseKeepsBuffers(t: Table, packets: nat, r: Ref, p: Ref)
    requires Buffered(t, packets) && In(t, r) && In(t, p)
    ensures Buffered(Close(t, r, p), packets)
  {
    EmptyIsOrderly();
    forall q | In(t, q)
      ensures BufferedAt(At(Close(t, r, p), q), packets)
    {
      assert BufferedAt(At(t, q), packets);
    }
  }

  lemma SoundCut(w: World, r: Ref, p: Ref, reason: nat, reasonPartner: nat)
    requires Sound(w) && In(w.t, r) && In(w.t, p) && LinkTable.Ends(r, At(w.t, r), p, At(w.t, p))
    requires r.node < |w.log| && p.node < |w.log|
    ensures Sound(Cut(w, r, p, reason, reasonPartner))
  {
    hide Paired, Agreeing, Numbered, RolesKept, Buffered, Traced;
    var c := At(w.t, r);
    var e1, e2 := Disconnected(c.link, reason), Disconnected(c.link, reasonPartner);
    var u := Close(w.t, r, p);
    CloseKeepsPairs(w.t, w.parties, r, p);
    CloseKeepsAgreement(w.t, r, p);
    CloseKeepsRoles(w.t, w.limits, w.intents, r, p);
    CloseKeepsBuffers(w.t, w.packets, r, p);
    CloseKeepsTraces(w.t, w.log, w.parties, r, p, e1, e2);
    CloseKeepsAccount(w.t, w.log, w.taken, InIdOrder(w.packets), r, p);
    PushKeepsAccount(u, w.log, w.taken, w.parties, InIdOrder(w.packets), r.node, e1);
    PushKeepsAccount(u, Logged(w.log, r.node, e1), w.taken, w.parties, InIdOrder(w.packets), p.node, e2);
  }

  lemma EmptyIsOrderly()
    ensures EMPTY.Valid() && PacketBuffers.Orderly(EMPTY.Slots()) && InRange(EMPTY.Slots())
    ensures forall k | 0 <= k < NUM_SLOTS :: EMPTY.Slots()[k] == None
  {}

  // ---------- Opening ----------

  function Joined(w: World, slave: Ref, master: Ref, interval: nat, timeout: nat, now: nat, slavePeer: nat,
                  masterPeer: nat): World
    requires In(w.t, slave) && In(w.t, master)
    requires slave.node < |w.log| && master.node < |w.log| && slave.node < |w.intents| && master.node < |w.intents|
  {
    var link := |w.parties| + 1;
    var s, m := slave.node, master.node;
    w.(t := Open(w.t, slave, master, link, interval, timeout, now),
       log := Logged(Logged(w.log, s, Connected(link, false, slavePeer)), m, Connected(link, true, masterPeer)),
       parties := w.parties + [Parties(m, s)],
       intents := w.intents[s := w.intents[s].(connectable := false)][m := w.intents[m].(connecting := false)])
  }

  lemma OpenKeepsBuffers(t: Table, slave: Ref, master: Ref, link: nat, interval: nat, timeout: nat, now: nat,
                         packets: nat)
    requires Buffered(t, packets) && In(t, slave) && In(t, master) && slave.node != master.node
    requires !At(t, slave).active && !At(t, master).active
    ensures At(t, slave).buffers == EMPTY == At(t, master).buffers
    ensures Buffered(Open(t, slave, master, link, interval, timeout, now), packets)
  {
    assert BufferedAt(At(t, slave), packets) && BufferedAt(At(t, master), packets);
    EmptyIsOrderly();
    forall q | In(t, q)
      ensures BufferedAt(At(Open(t, slave, master, link, interval, timeout, now), q), packets)
    {
      assert BufferedAt(At(t, q), packets);
    }
  }

  lemma JoinKeepsAccount(w: World, slave: Ref, master: Ref, interval: nat, timeout: nat, now: nat, e1: Event, e2: Event)
    requires In(w.t, slave) && In(w.t, master) && slave.node != master.node
    requires !At(w.t, slave).active && !At(w.t, master).active
    requires At(w.t, slave).buffers == EMPTY == At(w.t, master).buffers
    requires slave.node < |w.log| && master.node < |w.log| && !e1.Received? && !e2.Received?
    requires Delivering(w.t, w.log, w.taken, w.parties, InIdOrder(w.packets))
    ensures Delivering(Open(w.t, slave, master, |w.parties| + 1, interval, timeout, now),
                       Logged(Logged(w.log, slave.node, e1), master.node, e2), w.taken,
                       w.parties + [Parties(master.node, slave.node)], InIdOrder(w.packets))
  {
    hide AllAccounted, AllExplained, AllFresh;
    var total, fifo := |w.parties|, InIdOrder(w.packets);
    var u := Open(w.t, slave, master, total + 1, interval, timeout, now);
    var parties' := w.parties + [Parties(master.node, slave.node)];
    OpenKeepsAccount(w.t, w.log, w.taken, total, fifo, slave, master, interval, timeout, now);
    OpenKeepsHistory(w.log, w.taken, w.parties, fifo, Parties(master.node, slave.node));
    PushKeepsAccount(u, w.log, w.taken, parties', fifo, slave.node, e1);
    PushKeepsAccount(u, Logged(w.log, slave.node, e1), w.taken, parties', fifo, master.node, e2);
  }

  lemma SoundJoin(w: World, slave: Ref, master: Ref, interval: nat, timeout: nat, now: nat, slavePeer: nat,
                  masterPeer: nat)
    requires Sound(w) && In(w.t, slave) && In(w.t, master) && slave.node != master.node
    requires !At(w.t, slave).active && !At(w.t, master).active
    requires slave.node < |w.log| && master.node < |w.log| && slave.node < |w.intents| && master.node < |w.intents|
    requires w.intents[slave.node].connectable && w.intents[master.node].connecting
    ensures Sound(Joined(w, slave, master, interval, timeout, now, slavePeer, masterPeer))
  {
    hide Paired, Agreeing, Numbered, RolesKept, Buffered, Traced, Delivering;
    var total := |w.parties|;
    var e1, e2 := Connected(total + 1, false, slavePeer), Connected(total + 1, true, masterPeer);
    OpenPaired(w.t, slave, master, total + 1, interval, timeout, now);
    OpenAgreeing(w.t, slave, master, total + 1, interval, timeout, now);
    OpenNumbered(w.t, w.parties, slave, master, interval, timeout, now);
    OpenKeepsRoles(w.t, w.limits, w.intents, slave, master, total + 1, interval, timeout, now);
    OpenKeepsBuffers(w.t, slave, master, total + 1, interval, timeout, now, w.packets);
    OpenKeepsTraces(w.t, w.log, total, slave, master, interval, timeout, now, e1, e2);
    JoinKeepsAccount(w, slave, master, interval, timeout, now, e1, e2);
  }

  // ---------- Queueing and sending ----------

  lemma RefillKeepsLinks(t: Table, parties: seq<Parties>, r: Ref, k: nat, x: Slot)
    requires Paired(t) && Agreeing(t) && Numbered(t, parties)
    requires In(t, r) && k < NUM_SLOTS && |At(t, r).buffers.unreliable| == NUM_UNRELIABLE
    ensures var u := Refill(t, r, k, x);
            SameLinks(t, u) && Paired(u) && Agreeing(u) && Numbered(u, parties)
  {
    var u := Refill(t, r, k, x);
    assert SameLinks(t, u);
    SameLinksKeepsPairs(t, u, parties);
    forall q | In(u, q) && At(u, q).active
      ensures At(u, q).interval == At(u, At(u, q).partnerConnection.value).interval
      ensures At(u, q).supervisionTimeout == At(u, At(u, q).partnerConnection.value).supervisionTimeout
    {
      assert PairedAt(t, q) && PairedAt(u, q);
    }
  }

  /** Without looking at the buffers: links, roles and traces stay as they are. */
  lemma RefillKeepsRest(w: World, r: Ref, k: nat, x: Slot)
    requires Paired(w.t) && Agreeing(w.t) && Numbered(w.t, w.parties)
    requires RolesKept(w.t, w.limits, w.intents) && Traced(w.t, w.log, |w.parties|)
    requires In(w.t, r) && k < NUM_SLOTS && |At(w.t, r).buffers.unreliable| == NUM_UNRELIABLE
    ensures var u := Refill(w.t, r, k, x);
            && Paired(u) && Agreeing(u) && Numbered(u, w.parties)
            && RolesKept(u, w.limits, w.intents) && Traced(u, w.log, |w.parties|)
  {
    hide Paired, Agreeing, Numbered, RolesKept, Traced, Refill;
    RefillKeepsLinks(w.t, w.parties, r, k, x);
    SameLinksKeepsRoles(w.t, Refill(w.t, r, k, x), w.limits, w.intents);
    SameLinksKeepsTraces(w.t, Refill(w.t, r, k, x), w.log, |w.parties|);
  }

  /** The packet a message becomes. */
  function Packed(w: World, c: Connection, message: Message, now: nat): Packet {
    Packet(PacketId(w.packets), c.link, c.partner, now, message)
  }

  /** A message goes into a free buffer of an active slot, under the next packet id. */
  function Took(w: World, r: Ref, k: nat, message: Message, now: nat): World
    requires In(w.t, r) && k < NUM_SLOTS && |At(w.t, r).buffers.unreliable| == NUM_UNRELIABLE
    requires r.node < |w.taken|
  {
    w.(t := Refill(w.t, r, k, Some(Packed(w, At(w.t, r), message, now))),
       taken := w.taken[r.node := w.taken[r.node] + [Taken(At(w.t, r).link, message)]],
       packets := w.packets + 1)
  }

  lemma SlotTake(c: Connection, packets: nat, k: nat, p: Packet)
    requires BufferedAt(c, packets) && c.active && k < NUM_SLOTS && c.buffers.Slots()[k].None?
    requires p.link == c.link && p.receiver == c.partner && (k == 0 <==> p.Reliable())
    requires p.id == PacketId(packets)
    ensures BufferedAt(c.(buffers := c.buffers.With(k, Some(p))), packets + 1)
  {
    var s, s' := c.buffers.Slots(), c.buffers.With(k, Some(p)).Slots();
    assert s' == s[k := Some(p)];
    if packets + 1 <= UINT32_MAX {
      assert p.id == packets;
      assert forall j | 0 <= j < NUM_SLOTS && s[j].Some? :: s[j].value.id < packets;
    }
  }

  lemma BufferedPut(t: Table, packets: nat, packets': nat, r: Ref, c: Connection)
    requires Buffered(t, packets) && packets <= packets' && In(t, r) && BufferedAt(c, packets')
    ensures Buffered(Put(t, r, c), packets')
  {
    forall q | In(t, q)
      ensures BufferedAt(At(Put(t, r, c), q), packets')
    {
      assert BufferedAt(At(t, q), packets);
    }
  }

  lemma TakeKeepsBuffers(t: Table, packets: nat, r: Ref, k: nat, p: Packet)
    requires Buffered(t, packets) && In(t, r) && At(t, r).active && k < NUM_SLOTS
    requires |At(t, r).buffers.unreliable| == NUM_UNRELIABLE && At(t, r).buffers.Slots()[k].None?
    requires p.link == At(t, r).link && p.receiver == At(t, r).partner && (k == 0 <==> p.Reliable())
    requires p.id == PacketId(packets)
    ensures Buffered(Refill(t, r, k, Some(p)), packets + 1)
  {
    assert BufferedAt(At(t, r), packets);
    SlotTake(At(t, r), packets, k, p);
    BufferedPut(t, packets, packets + 1, r, At(t, r).(buffers := At(t, r).buffers.With(k, Some(p))));
  }

  /** The order of ids can only get lost. */
  lemma AccountWeakens(t: Table, log: Log, taken: seq<seq<Taken>>, parties: seq<Parties>, fifo: bool, fifo': bool)
    requires Delivering(t, log, taken, parties, fifo) && (fifo' ==> fifo)
    ensures Delivering(t, log, taken, parties, fifo')
  {
    forall r | In(t, r)
      ensures AccountedAt(t, log, taken, fifo', r)
    {
      assert AccountedAt(t, log, taken, fifo, r);
    }
    forall k | 0 <= k < |parties| && parties[k].central < |log| && parties[k].peripheral < |log|
      ensures ExplainedAt(log, taken, fifo', parties[k].central, parties[k].peripheral, k + 1)
      ensures ExplainedAt(log, taken, fifo', parties[k].peripheral, parties[k].central, k + 1)
    {
      assert ExplainedAt(log, taken, fifo, parties[k].central, parties[k].peripheral, k + 1);
      assert ExplainedAt(log, taken, fifo, parties[k].peripheral, parties[k].central, k + 1);
    }
  }

  lemma TakeKeepsAccount(w: World, r: Ref, k: nat, p: Packet, fifo: bool)
    requires Delivering(w.t, w.log, w.taken, w.parties, fifo) && In(w.t, r) && At(w.t, r).active && OnlySlot(w.t, r)
    requires k < NUM_SLOTS && |At(w.t, r).buffers.unreliable| == NUM_UNRELIABLE && r.node < |w.taken|
    requires At(w.t, r).buffers.Slots()[k].None? && At(w.t, r).link <= |w.parties|
    requires fifo ==> BufferedAt(At(w.t, r), p.id) && p.id < UINT32_MAX
    ensures Delivering(Refill(w.t, r, k, Some(p)), w.log,
                       w.taken[r.node := w.taken[r.node] + [Taken(At(w.t, r).link, p.message)]], w.parties, fifo)
  {
    hide AllAccounted, AllExplained, AllFresh, OnlySlot, BufferedAt;
    var x := Taken(At(w.t, r).link, p.message);
    var taken' := w.taken[r.node := w.taken[r.node] + [x]];
    QueueingIsOne(w.taken, r.node, x);
    QueueKeepsAccount(w.t, Refill(w.t, r, k, Some(p)), w.log, w.taken, taken', fifo, r, k, p);
    QueueKeepsHistory(w.log, w.taken, taken', w.parties, fifo, r.node, x.link, x.message);
  }

  lemma PacketIdIsExact(packets: nat)
    requires InIdOrder(packets + 1)
    ensures PacketId(packets) == packets < UINT32_MAX && InIdOrder(packets)
  {}

  lemma TakeKeepsDelivering(w: World, r: Ref, k: nat, p: Packet)
    requires Paired(w.t) && Numbered(w.t, w.parties) && Buffered(w.t, w.packets)
    requires Delivering(w.t, w.log, w.taken, w.parties, InIdOrder(w.packets))
    requires In(w.t, r) && At(w.t, r).active && r.node < |w.taken|
    requires k < NUM_SLOTS && |At(w.t, r).buffers.unreliable| == NUM_UNRELIABLE
    requires At(w.t, r).buffers.Slots()[k].None? && p.id == PacketId(w.packets)
    ensures Delivering(Refill(w.t, r, k, Some(p)), w.log,
                       w.taken[r.node := w.taken[r.node] + [Taken(At(w.t, r).link, p.message)]], w.parties,
                       InIdOrder(w.packets + 1))
  {
    var fifo := InIdOrder(w.packets + 1);
    assert NumberedAt(w.t, w.parties, r);
    assert BufferedAt(At(w.t, r), w.packets);
    LinkHasOneSlot(w.t, w.parties, r);
    hide Paired, Numbered, Buffered, Delivering, BufferedAt, Refill, PacketId, InIdOrder, OnlySlot;
    if fifo {
      PacketIdIsExact(w.packets);
    }
    AccountWeakens(w.t, w.log, w.taken, w.parties, InIdOrder(w.packets), fifo);
    TakeKeepsAccount(w, r, k, p, fifo);
  }

  lemma SoundTake(w: World, r: Ref, k: nat, message: Message, now: nat)
    requires Sound(w) && In(w.t, r) && At(w.t, r).active && r.node < |w.taken|
    requires k < NUM_SLOTS && |At(w.t, r).buffers.unreliable| == NUM_UNRELIABLE
    requires At(w.t, r).buffers.Slots()[k].None? && (k == 0 <==> message.kind == WriteRequest)
    ensures Sound(Took(w, r, k, message, now))
  {
    hide Paired, Agreeing, Numbered, RolesKept, Buffered, Traced, Delivering, BufferedAt, PacketId, Refill, InIdOrder;
    var p := Packed(w, At(w.t, r), message, now);
    TakeKeepsBuffers(w.t, w.packets, r, k, p);
    RefillKeepsRest(w, r, k, Some(p));
    TakeKeepsDelivering(w, r, k, p);
  }

  /** The next packet of an active slot arrives at the other node. */
  function Sent(w: World, r: Ref, k: nat): World
    requires In(w.t, r) && k < NUM_SLOTS && |At(w.t, r).buffers.unreliable| == NUM_UNRELIABLE
    requires At(w.t, r).buffers.Slots()[k].Some? && At(w.t, r).partner < |w.log|
  {
    w.(t := Refill(w.t, r, k, None),
       log := Logged(w.log, At(w.t, r).partner, Received(At(w.t, r).link, At(w.t, r).buffers.Slots()[k].value.message)))
  }

  lemma SlotSend(c: Connection, packets: nat, k: nat)
    requires BufferedAt(c, packets) && c.active && k < NUM_SLOTS
    ensures BufferedAt(c.(buffers := c.buffers.With(k, None)), packets)
  {
    var s, s' := c.buffers.Slots(), c.buffers.With(k, None).Slots();
    assert s' == s[k := None];
  }

  lemma SendKeepsBuffers(t: Table, packets: nat, r: Ref, k: nat)
    requires Buffered(t, packets) && In(t, r) && At(t, r).active && k < NUM_SLOTS
    requires |At(t, r).buffers.unreliable| == NUM_UNRELIABLE
    ensures Buffered(Refill(t, r, k, None), packets)
  {
    assert BufferedAt(At(t, r), packets);
    SlotSend(At(t, r), packets, k);
    BufferedPut(t, packets, packets, r, At(t, r).(buffers := At(t, r).buffers.With(k, None)));
  }

  lemma PartiesOf(t: Table, parties: seq<Parties>, r: Ref)
    requires In(t, r) && At(t, r).active && At(t, r).owner == r.node && NumberedAt(t, parties, r)
    ensures 0 < At(t, r).link <= |parties|
    ensures var p := parties[At(t, r).link - 1];
            p == Parties(r.node, At(t, r).partner) || p == Parties(At(t, r).partner, r.node)
  {}

  lemma SendKeepsDelivering(w: World, r: Ref, k: nat, e: Event)
    requires Delivering(w.t, w.log, w.taken, w.parties, InIdOrder(w.packets))
    requires In(w.t, r) && At(w.t, r).active && OnlySlot(w.t, r) && NumberedAt(w.t, w.parties, r)
    requires At(w.t, r).owner == r.node != At(w.t, r).partner && At(w.t, r).partner < |w.log|
    requires |At(w.t, r).buffers.unreliable| == NUM_UNRELIABLE && NextSlot(At(w.t, r).buffers) == Some(k)
    requires e == Received(At(w.t, r).link, At(w.t, r).buffers.Slots()[k].value.message)
    ensures Delivering(Refill(w.t, r, k, None), Logged(w.log, At(w.t, r).partner, e), w.taken, w.parties,
                       InIdOrder(w.packets))
  {
    hide AllExplained, AllFresh, OnlySlot, Lowest, Explained, NumberedAt, Queued, Delivered, Refill, AccountedAt;
    var c, fifo := At(w.t, r), InIdOrder(w.packets);
    PartiesOf(w.t, w.parties, r);
    var log' := Logged(w.log, c.partner, e);
    ArrivalIsOne(w.log, c.partner, e);
    SendKeepsAccount(w.t, Refill(w.t, r, k, None), w.log, log', w.taken, fifo, r, k);
    SendKeepsHistory(w.log, log', w.taken, w.parties, fifo, r.node, c.partner, c.link, e.message);
  }

  lemma SoundSend(w: World, r: Ref, k: nat)
    requires Sound(w) && In(w.t, r) && At(w.t, r).active && At(w.t, r).partner < |w.log|
    requires |At(w.t, r).buffers.unreliable| == NUM_UNRELIABLE && NextSlot(At(w.t, r).buffers) == Some(k)
    ensures Sound(Sent(w, r, k))
  {
    var c := At(w.t, r);
    var e := Received(c.link, c.buffers.Slots()[k].value.message);
    SoundPair(w, r);
    SoundLive(w, r);
    assert NumberedAt(w.t, w.parties, r);
    hide Paired, Agreeing, Numbered, RolesKept, Buffered, Traced, Delivering, BufferedAt, Lowest, Refill;
    SendKeepsBuffers(w.t, w.packets, r, k);
    RefillKeepsRest(w, r, k, None);
    PushKeepsTraces(w.t, w.log, |w.parties|, c.partner, e);
    RefillKeepsRest(w.(log := Logged(w.log, c.partner, e)), r, k, None);
    LinkHasOneSlot(w.t, w.parties, r);
    SendKeepsDelivering(w, r, k, e);
  }

  // ---------- What the invariant says ----------

  /** Every active slot has an active partner slot on the node it names, which names it in return, with the other
      role, the same link and so the same handle; any other active slot has another link. */
  lemma LinksArePairs(w: World, r: Ref)
    requires Sound(w) && In(w.t, r) && At(w.t, r).active
    ensures At(w.t, r).partnerConnection.Some? && In(w.t, At(w.t, r).partnerConnection.value)
    ensures LinkTable.Ends(r, At(w.t, r), At(w.t, r).partnerConnection.value,
                           At(w.t, At(w.t, r).partnerConnection.value))
    ensures forall q | In(w.t, q) && At(w.t, q).active && At(w.t, q).link == At(w.t, r).link ::
              q == r || q == At(w.t, r).partnerConnection.value
    ensures |w.parties| <= HANDLE_WRAP ==>
              forall q | In(w.t, q) && At(w.t, q).active && HandleOf(At(w.t, q).link) == HandleOf(At(w.t, r).link) ::
                q == r || q == At(w.t, r).partnerConnection.value
  {
    SoundPair(w, r);
    forall q | In(w.t, q) && At(w.t, q).active && At(w.t, q).link == At(w.t, r).link
      ensures q == r || q == At(w.t, r).partnerConnection.value
    {
      SamePairIff(w, r, q);
    }
    if |w.parties| <= HANDLE_WRAP {
      forall q | In(w.t, q) && At(w.t, q).active && HandleOf(At(w.t, q).link) == HandleOf(At(w.t, r).link)
        ensures q == r || q == At(w.t, r).partnerConnection.value
      {
        HandleNamesOnePair(w.t, w.parties, r, q);
      }
    }
  }

  /** Another live slot belongs to the same pair exactly when its link has the same number. */
  lemma SamePairIff(w: World, r: Ref, q: Ref)
    requires Sound(w) && In(w.t, r) && At(w.t, r).active && In(w.t, q) && At(w.t, q).active
    ensures At(w.t, q).link == At(w.t, r).link <==> q == r || At(w.t, r).partnerConnection == Some(q)
    ensures At(w.t, q).link > 0 && At(w.t, r).link > 0
  {
    SoundPair(w, r);
    assert NumberedAt(w.t, w.parties, q) && NumberedAt(w.t, w.parties, r);
    if At(w.t, q).link == At(w.t, r).link {
      LinkNamesOnePair(w.t, w.parties, r, q);
    }
  }

  /** In every state, wrapped or not: a live handle names one pair exactly when no other live link's number is a
      multiple of 65000 away. */
  lemma HandleNamesOnePairIff(w: World, r: Ref)
    requires Sound(w) && In(w.t, r) && At(w.t, r).active
    ensures (forall q | In(w.t, q) && At(w.t, q).active && HandleOf(At(w.t, q).link) == HandleOf(At(w.t, r).link) ::
               q == r || At(w.t, r).partnerConnection == Some(q))
            <==> (forall q | In(w.t, q) && At(w.t, q).active && At(w.t, q).link != At(w.t, r).link ::
                    (At(w.t, q).link - At(w.t, r).link) % HANDLE_WRAP != 0)
  {
    hide Sound, HandleOf;
    forall q | In(w.t, q) && At(w.t, q).active
      ensures At(w.t, q).link == At(w.t, r).link <==> q == r || At(w.t, r).partnerConnection == Some(q)
      ensures HandleOf(At(w.t, q).link) == HandleOf(At(w.t, r).link)
              <==> (At(w.t, q).link - At(w.t, r).link) % HANDLE_WRAP == 0
    {
      SamePairIff(w, r, q);
      SameHandleIff(At(w.t, q).link, At(w.t, r).link);
    }
  }

  /** The events about a link on a node: none, or one CONNECTED and then link events while the node has the link,
      or the same with a final DISCONNECTED afterwards. */
  lemma LinkStory(w: World, n: nat, link: nat)
    requires Sound(w) && n < |w.t| && n < |w.log| && link > 0
    ensures var es := Only(w.log[n], link); es == [] || Shaped(es, false) || Shaped(es, true)
    ensures Shaped(Only(w.log[n], link), false) <==> Live(w.t[n], link)
    ensures link > |w.parties| ==> Only(w.log[n], link) == []
  {
    assert TracedAt(w.t[n], w.log[n], |w.parties|, link);
    PhaseIsShape(w.log[n], link);
  }

  /** The same for the events with a handle, exactly as long as no two links with that handle have touched the
      node; and then the events lack a final DISCONNECTED exactly while the node has a link with the handle. */
  lemma HandleStoryIff(w: World, n: nat, handle: nat)
    requires Sound(w) && n < |w.t| && n < |w.log| && 0 < handle <= HANDLE_WRAP
    ensures Proper(WithHandle(w.log[n], handle)) <==> OneLinkPerHandle(w.log[n], handle)
    ensures OneLinkPerHandle(w.log[n], handle) ==>
              (Shaped(WithHandle(w.log[n], handle), false) <==> FirstByHandle(w.t[n], handle).Some?)
  {
    var es, row := w.log[n], w.t[n];
    forall link: nat | link > 0
      ensures TracedAt(row, es, |w.parties|, link) && PhaseOf(es, link) != Broken
    {
    }
    hide Sound, FirstByHandle, HandleOf;
    ProperHandleIff(es, handle);
    if OneLinkPerHandle(es, handle) {
      var link := LinkOfHandle(es, handle);
      PhaseIsShape(es, link);
      assert TracedAt(row, es, |w.parties|, link);
      if FirstByHandle(row, handle).Some? {
        LiveByHandle(w, n, handle, link);
      }
    }
  }

  lemma LiveByHandle(w: World, n: nat, handle: nat, link: nat)
    requires Sound(w) && n < |w.t| && n < |w.log| && link > 0 && FirstByHandle(w.t[n], handle).Some?
    requires WithHandle(w.log[n], handle) == Only(w.log[n], link)
    ensures Live(w.t[n], link)
  {
    var es := w.log[n];
    var r := Ref(n, FirstByHandle(w.t[n], handle).value);
    var other := At(w.t, r).link;
    ActiveIsLive(w.t, r);
    assert NumberedAt(w.t, w.parties, r);
    assert TracedAt(w.t[n], es, |w.parties|, other);
    PhaseIsShape(es, other);
    var e := Only(es, other)[0];
    assert e in Only(es, other);
    EventsOfLink(es, other, e);
    EventsOfHandle(es, handle, e);
    EventsOfLink(es, link, e);
  }

  /** Up to the 65000th link that is the case for every handle. */
  lemma HandleStory(w: World, n: nat, handle: nat)
    requires Sound(w) && n < |w.t| && n < |w.log| && 0 < handle <= HANDLE_WRAP && |w.parties| <= HANDLE_WRAP
    ensures OneLinkPerHandle(w.log[n], handle) && Proper(WithHandle(w.log[n], handle))
    ensures Shaped(WithHandle(w.log[n], handle), false) <==> FirstByHandle(w.t[n], handle).Some?
  {
    forall a: nat, b: nat | 0 < a < b && HandleOf(a) == handle && HandleOf(b) == handle
      ensures Only(w.log[n], b) == []
    {
      SameHandleIff(a, b);
      assert b > |w.parties|;
      LinkStory(w, n, b);
    }
    HandleStoryIff(w, n, handle);
  }

  /** On a link that is up, every message queued has arrived or is buffered, none twice; and as long as packet ids
      have not wrapped, they arrive in the order in which they were queued. */
  lemma DeliveredOrBuffered(w: World, r: Ref)
    requires Sound(w) && In(w.t, r) && At(w.t, r).active && r.node < |w.taken| && At(w.t, r).partner < |w.log|
    ensures var c := At(w.t, r);
            var queued, arrived := Queued(w.taken[r.node], c.link), Delivered(w.log[c.partner], c.link);
            && multiset(queued) == multiset(arrived) + Contents(c.buffers.Slots())
            && (InIdOrder(w.packets) ==> queued == arrived + Messages(Drain(c.buffers.Slots())))
  {
    assert AccountedAt(w.t, w.log, w.taken, InIdOrder(w.packets), r);
  }

  /** On a live slot the messages have arrived, and will arrive, in the order in which they were queued. */
  ghost predicate InOrder(w: World, r: Ref)
    requires In(w.t, r)
  {
    var c := At(w.t, r);
    r.node < |w.taken| && c.partner < |w.log|
    && Ordered(Queued(w.taken[r.node], c.link), Delivered(w.log[c.partner], c.link), c.buffers.Slots())
  }

  lemma NothingOnNextLink(w: World, slave: nat, master: nat, e: Event, e': Event)
    requires Sound(w) && slave < |w.t| && master < |w.t| && slave != master && !e.Received? && !e'.Received?
    ensures |w.log| == |w.taken| == |w.t|
    ensures var log, link := Logged(Logged(w.log, slave, e), master, e'), |w.parties| + 1;
            && Queued(w.taken[slave], link) == [] == Queued(w.taken[master], link)
            && Delivered(log[slave], link) == [] == Delivered(log[master], link)
  {
    var link := |w.parties| + 1;
    assert Fresh(w.log, w.taken, slave, link) && Fresh(w.log, w.taken, master, link);
    hide Sound, Queued, Delivered;
    DeliveredAfter(w.log[slave], e, link);
    DeliveredAfter(w.log[master], e', link);
  }

  lemma OpenSlots(t: Table, slave: Ref, master: Ref, link: nat, interval: nat, timeout: nat, now: nat)
    requires In(t, slave) && In(t, master) && slave.node != master.node
    ensures var u := Open(t, slave, master, link, interval, timeout, now);
            && In(u, slave) && At(u, slave).link == link && At(u, slave).partner == master.node
            && In(u, master) && At(u, master).link == link && At(u, master).partner == slave.node
            && At(u, slave).buffers == At(t, slave).buffers && At(u, master).buffers == At(t, master).buffers
  {}

  /** Whether the ids have wrapped or not: a new link is in order at both ends, */
  lemma JoinStartsInOrder(w: World, slave: Ref, master: Ref, interval: nat, timeout: nat, now: nat, x: nat, y: nat)
    requires Sound(w) && In(w.t, slave) && In(w.t, master) && slave.node != master.node
    requires !At(w.t, slave).active && !At(w.t, master).active
    requires slave.node < |w.log| && master.node < |w.log| && slave.node < |w.intents| && master.node < |w.intents|
    ensures var v := Joined(w, slave, master, interval, timeout, now, x, y);
            && In(v.t, slave) && In(v.t, master) && InOrder(v, slave) && InOrder(v, master)
  {
    var link := |w.parties| + 1;
    NothingOnNextLink(w, slave.node, master.node, Connected(link, false, x), Connected(link, true, y));
    SoundBuffers(w, slave);
    SoundBuffers(w, master);
    OpenSlots(w.t, slave, master, link, interval, timeout, now);
    EmptyIsOrdered([]);
    hide Sound, Ordered, Queued, Delivered, Open;
  }

  lemma RefilledSlot(t: Table, r: Ref, k: nat, x: Slot)
    requires In(t, r) && k < NUM_SLOTS && |At(t, r).buffers.unreliable| == NUM_UNRELIABLE
    ensures var u, c := Refill(t, r, k, x), At(t, r);
            && In(u, r) && At(u, r).buffers.Slots() == c.buffers.Slots()[k := x]
            && At(u, r).link == c.link && At(u, r).partner == c.partner
            && forall q | In(t, q) && q != r :: In(u, q) && At(u, q) == At(t, q)
  {}

  /** a link in order stays so when a packet is sent, */
  lemma SendKeepsOrder(w: World, r: Ref, k: nat)
    requires Sound(w) && In(w.t, r) && At(w.t, r).active && At(w.t, r).partner < |w.log| && InOrder(w, r)
    requires |At(w.t, r).buffers.unreliable| == NUM_UNRELIABLE && NextSlot(At(w.t, r).buffers) == Some(k)
    ensures k < NUM_SLOTS && In(Sent(w, r, k).t, r) && InOrder(Sent(w, r, k), r)
  {
    var c := At(w.t, r);
    SendingIsOrdered(Queued(w.taken[r.node], c.link), Delivered(w.log[c.partner], c.link), c.buffers.Slots(), k);
    RefilledSlot(w.t, r, k, None);
    hide Sound, Lowest, Queued, Delivered, Ordered, Refill;
    DeliveredAfter(w.log[c.partner], Received(c.link, c.buffers.Slots()[k].value.message), c.link);
  }

  /** No message buffered under a higher id differs from this one. */
  ghost predicate NoneAbove(s: seq<Slot>, id: nat, message: Message) {
    forall j | 0 <= j < |s| && s[j].Some? && s[j].value.id > id :: s[j].value.message == message
  }

  /** and when a message is queued, exactly if no other message is buffered there under a higher id. */
  lemma TakeKeepsOrderIff(w: World, r: Ref, k: nat, message: Message, now: nat)
    requires Sound(w) && In(w.t, r) && At(w.t, r).active && InOrder(w, r)
    requires |At(w.t, r).buffers.unreliable| == NUM_UNRELIABLE && FreeSlot(At(w.t, r).buffers, message.kind) == Some(k)
    requires PacketBuffers.Orderly(At(w.t, r).buffers.Slots()[k := Some(Packed(w, At(w.t, r), message, now))])
    ensures k < NUM_SLOTS && In(Took(w, r, k, message, now).t, r)
    ensures InOrder(Took(w, r, k, message, now), r)
            <==> NoneAbove(At(w.t, r).buffers.Slots(), PacketId(w.packets), message)
  {
    var c := At(w.t, r);
    var p := Packed(w, c, message, now);
    QueueingIsOrderedIff(Queued(w.taken[r.node], c.link), Delivered(w.log[c.partner], c.link), c.buffers.Slots(), k, p);
    RefilledSlot(w.t, r, k, Some(p));
    hide Sound, Orderly, Queued, Delivered, PacketId, FreeSlot, Ordered, Refill;
    QueuedAfter(w.taken[r.node], Taken(c.link, message), c.link);
  }

  /** Queueing on one slot leaves the order on all others alone. */
  lemma TakeKeepsOtherOrders(w: World, r: Ref, k: nat, message: Message, now: nat, q: Ref)
    requires Sound(w) && In(w.t, r) && At(w.t, r).active && In(w.t, q) && At(w.t, q).active && q != r && InOrder(w, q)
    requires |At(w.t, r).buffers.unreliable| == NUM_UNRELIABLE && k < NUM_SLOTS && r.node < |w.taken|
    ensures In(Took(w, r, k, message, now).t, q) && InOrder(Took(w, r, k, message, now), q)
  {
    LinkHasOneSlot(w.t, w.parties, r);
    var c, d := At(w.t, r), At(w.t, q);
    RefilledSlot(w.t, r, k, Some(Packed(w, c, message, now)));
    hide Sound, Ordered, Queued, Delivered, PacketId, Refill;
    QueuedAfter(w.taken[r.node], Taken(c.link, message), d.link);
  }

  /** On any link so far, up or gone, nothing arrives that was not queued at the other end; and as long as packet
      ids have not wrapped, what has arrived is a prefix of what was queued: a disconnect clears a suffix. */
  lemma ArrivedWasQueued(w: World, link: nat)
    requires Sound(w) && 0 < link <= |w.parties|
    ensures var p := w.parties[link - 1];
            && p.central < |w.taken| == |w.log| && p.peripheral < |w.taken|
            && Explained(Queued(w.taken[p.central], link), Delivered(w.log[p.peripheral], link), InIdOrder(w.packets))
            && Explained(Queued(w.taken[p.peripheral], link), Delivered(w.log[p.central], link), InIdOrder(w.packets))
  {
    SoundSizes(w);
    assert w.parties[link - 1].central < |w.t| && w.parties[link - 1].peripheral < |w.t|;
    HistoryOfLink(w.log, w.taken, w.parties, InIdOrder(w.packets), link);
  }

  lemma HistoryOfLink(log: Log, taken: seq<seq<Taken>>, parties: seq<Parties>, fifo: bool, link: nat)
    requires AllExplained(log, taken, parties, fifo) && 0 < link <= |parties|
    requires parties[link - 1].central < |log| && parties[link - 1].peripheral < |log|
    ensures ExplainedAt(log, taken, fifo, parties[link - 1].central, parties[link - 1].peripheral, link)
    ensures ExplainedAt(log, taken, fifo, parties[link - 1].peripheral, parties[link - 1].central, link)
  {
    hide ExplainedAt;
    var k := link - 1;
    assert ExplainedAt(log, taken, fifo, parties[k].central, parties[k].peripheral, k + 1);
  }

  /** A node that advertises for a link, or is connecting, has a spare role and a free slot, if its slots cover
      its roles. */
  lemma IntentIsCovered(w: World, n: nat, role: bool)
    requires Sound(w) && n < |w.t| && n < |w.intents| && n < |w.limits| && w.intents[n].Of(role)
    requires w.limits[n].central + w.limits[n].peripheral <= |w.t[n]|
    ensures CountRole(w.t[n], role) < w.limits[n].Of(role)
    ensures LastFree(w.t[n]).Some?
  {
    assert Within(w.t[n], w.limits[n], w.intents[n]);
    IntentHasSlot(w.t[n], w.limits[n], w.intents[n], role);
  }

  // ---------- The start ----------

  lemma NothingYet(w: World)
    requires |w.log| == |w.taken| == |w.limits| == |w.intents| == |w.t|
    requires w.parties == [] && w.packets == 0
    requires forall r | In(w.t, r) :: At(w.t, r) == DEFAULT
    requires forall n | 0 <= n < |w.t| :: w.log[n] == [] && w.taken[n] == [] && w.intents[n] == Intent(false, false)
    ensures Sound(w)
  {
    EmptyIsOrderly();
    forall r | In(w.t, r)
      ensures PairedAt(w.t, r) && NumberedAt(w.t, w.parties, r) && BufferedAt(At(w.t, r), 0)
      ensures AccountedAt(w.t, w.log, w.taken, true, r)
    {
    }
    forall n | 0 <= n < |w.t|
      ensures Within(w.t[n], w.limits[n], w.intents[n])
      ensures forall link :: !Live(w.t[n], link)
    {
      forall k | 0 <= k < |w.t[n]|
        ensures w.t[n][k] == DEFAULT
      {
        assert In(w.t, Ref(n, k));
        assert At(w.t, Ref(n, k)) == DEFAULT;
      }
      NoRoles(w.t[n], true);
      NoRoles(w.t[n], false);
    }
  }

  lemma {:induction false} NoRoles(row: Row, central: bool)
    requires forall k | 0 <= k < |row| :: !row[k].active
    ensures CountRole(row, central) == 0
    decreases |row|
  {
    if row != [] {
      NoRoles(row[..|row| - 1], central);
    }
  }

  /** The slots of a node that has just booted. */
  function FreshRow(total: nat): (row: Row)
    ensures |row| == total && forall k | 0 <= k < total :: row[k] == DEFAULT
  {
    seq(total, _ => DEFAULT)
  }

  function AllLost(total: nat): (losses: seq<bool>)
    ensures |losses| == total && forall k | 0 <= k < total :: losses[k]
  {
    seq(total, _ => true)
  }
}
