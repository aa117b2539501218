/** What the operations of the link layer do to the links, and why that is sound. */
module LinkEffects {
  import opened Results
  import opened PacketBuffers
  import opened LinkTable
  import opened LinkTraces
  import opened LinkInvariant
  import opened ConnectionEvents

  /** A link was opened on the last free slot of either node; only the intentions are not stated. */
  ghost predicate JoinDone(w: World, v: World, slave: nat, master: nat, interval: nat, timeout: nat, now: nat,
                           slavePeer: nat, masterPeer: nat)
  {
    && slave < |w.t| && master < |w.t| && |w.log| == |w.intents| == |w.t|
    && LastFree(w.t[slave]).Some? && LastFree(w.t[master]).Some?
    && v == Joined(w, Ref(slave, LastFree(w.t[slave]).value), Ref(master, LastFree(w.t[master]).value),
                   interval, timeout, now, slavePeer, masterPeer).(intents := v.intents)
  }

  /** With the slave's advertising switched off as well, opening a link is sound. */
  lemma JoinIsSound(w: World, v: World, slave: nat, master: nat, interval: nat, timeout: nat, now: nat,
                    slavePeer: nat, masterPeer: nat)
    requires Sound(w) && slave != master && JoinDone(w, v, slave, master, interval, timeout, now, slavePeer, masterPeer)
    requires w.intents[slave].connectable && w.intents[master].connecting
    requires v.intents == w.intents[slave := w.intents[slave].(connectable := false)]
                                   [master := w.intents[master].(connecting := false)]
    ensures Sound(v)
  {
    hide Sound;
    SoundJoin(w, Ref(slave, LastFree(w.t[slave]).value), Ref(master, LastFree(w.t[master]).value), interval, timeout,
              now, slavePeer, masterPeer);
  }

  /** JoinDone does not speak of the intentions. */
  lemma JoinStays(w: World, v: World, v': World, slave: nat, master: nat, interval: nat, timeout: nat, now: nat,
                  slavePeer: nat, masterPeer: nat)
    requires JoinDone(w, v, slave, master, interval, timeout, now, slavePeer, masterPeer)
    requires v' == v.(intents := v'.intents)
    ensures JoinDone(w, v', slave, master, interval, timeout, now, slavePeer, masterPeer)
  {}

  lemma JoinFacts(w: World, slave: nat, master: nat)
    requires Sound(w) && slave < |w.t| && master < |w.t|
    requires slave < |w.intents| && master < |w.intents| && slave < |w.limits| && master < |w.limits|
    requires w.intents[slave].connectable && w.intents[master].connecting
    requires w.limits[slave].central + w.limits[slave].peripheral <= |w.t[slave]|
    requires w.limits[master].central + w.limits[master].peripheral <= |w.t[master]|
    ensures |w.log| == |w.intents| == |w.t|
    ensures CountRole(w.t[slave], false) < w.limits[slave].peripheral && LastFree(w.t[slave]).Some?
    ensures CountRole(w.t[master], true) < w.limits[master].central && LastFree(w.t[master]).Some?
  {
    SoundSizes(w);
    IntentIsCovered(w, slave, false);
    IntentIsCovered(w, master, true);
  }

  lemma JoinedIs(w: World, v: World, s: Ref, m: Ref, interval: nat, timeout: nat, now: nat, slavePeer: nat,
                 masterPeer: nat)
    requires In(w.t, s) && In(w.t, m) && s.node != m.node && |w.log| == |w.intents| == |w.t|
    requires var link := |w.parties| + 1;
             && v.t == Open(w.t, s, m, link, interval, timeout, now)
             && v.log == Logged(Logged(w.log, s.node, Connected(link, false, slavePeer)), m.node,
                                Connected(link, true, masterPeer))
    requires v.parties == w.parties + [Parties(m.node, s.node)]
    requires v.taken == w.taken && v.limits == w.limits && v.packets == w.packets
    requires LastFree(w.t[s.node]) == Some(s.slot) && LastFree(w.t[m.node]) == Some(m.slot)
    ensures JoinDone(w, v, s.node, m.node, interval, timeout, now, slavePeer, masterPeer)
  {
    hide Open;
    assert s == Ref(s.node, LastFree(w.t[s.node]).value) && m == Ref(m.node, LastFree(w.t[m.node]).value);
  }

  ghost predicate TakeDone(w: World, v: World, r: Ref, message: Message, now: nat) {
    && In(w.t, r) && At(w.t, r).active && |At(w.t, r).buffers.unreliable| == NUM_UNRELIABLE && r.node < |w.taken|
    && FreeSlot(At(w.t, r).buffers, message.kind).Some?
    && v == Took(w, r, FreeSlot(At(w.t, r).buffers, message.kind).value, message, now)
  }

  lemma TakeNeeds(w: World, r: Ref)
    requires Sound(w) && In(w.t, r) && At(w.t, r).active
    ensures |At(w.t, r).buffers.unreliable| == NUM_UNRELIABLE
    ensures At(w.t, r).partnerConnection.Some? && At(w.t, r).partner < |w.log|
    ensures r.node < |w.taken| && r.node < |w.log|
  {
    SoundSizes(w);
    SoundPair(w, r);
    SoundBuffers(w, r);
  }

  lemma TakeFacts(w: World, r: Ref, k: nat, message: Message, now: nat)
    requires Sound(w) && In(w.t, r) && At(w.t, r).active
    requires FreeSlot(At(w.t, r).buffers, message.kind) == Some(k)
    ensures |At(w.t, r).buffers.unreliable| == NUM_UNRELIABLE && k < NUM_SLOTS && r.node < |w.taken|
    ensures Sound(Took(w, r, k, message, now))
    ensures Reshaped(w.t, Took(w, r, k, message, now).t)
  {
    TakeNeeds(w, r);
    SoundTake(w, r, k, message, now);
  }

  ghost predicate Reshaped(t: Table, u: Table) {
    |t| == |u| && forall n | 0 <= n < |t| :: |t[n]| == |u[n]|
  }

  /** The packets of a slot in the order in which they leave. */
  function Waiting(w: World, r: Ref): seq<Packet>
    requires In(w.t, r)
  {
    Drain(At(w.t, r).buffers.Slots())
  }

  /** Only the buffers of one slot differ. */
  ghost predicate Refilled(t: Table, u: Table, r: Ref) {
    && Reshaped(t, u) && In(t, r) && In(u, r)
    && forall q | In(t, q) :: At(u, q) == if q == r then At(t, r).(buffers := At(u, r).buffers) else At(t, q)
  }

  /** Only two nodes got events. */
  ghost predicate LoggedAt(log: Log, log': Log, n: nat, own: seq<Event>, p: nat, others: seq<Event>) {
    && |log'| == |log| && n < |log| && p < |log| && n != p
    && log'[n] == log[n] + own && log'[p] == log[p] + others
    && forall i | 0 <= i < |log| && i != n && i != p :: log'[i] == log[i]
  }

  /** The first k waiting packets of a slot have arrived at the other node, and the slot's own node got some
      confirmations; nothing else has changed. */
  ghost predicate PartlySent(w: World, v: World, r: Ref, k: nat, own: seq<Event>) {
    && Refilled(w.t, v.t, r) && At(w.t, r).active && k <= |Waiting(w, r)| && Waiting(v, r) == Waiting(w, r)[k..]
    && LoggedAt(w.log, v.log, r.node, own, At(w.t, r).partner, Arrivals(At(w.t, r).link, Waiting(w, r)[..k]))
    && Stays(At(w.t, r).buffers, At(v.t, r).buffers) && Thinned(At(w.t, r).buffers, At(v.t, r).buffers)
    && (k == 0 ==> At(v.t, r).buffers == At(w.t, r).buffers)
    && v == w.(t := v.t, log := v.log)
  }

  lemma PartlyFacts(w: World, v: World, r: Ref, k: nat, own: seq<Event>)
    requires PartlySent(w, v, r, k, own)
    ensures In(v.t, r) && At(v.t, r).active && At(v.t, r).link == At(w.t, r).link && r.node < |v.log|
  {}

  ghost predicate BurstDone(w: World, v: World, r: Ref, budget: nat) {
    && In(w.t, r)
    && var q := Waiting(w, r);
       PartlySent(w, v, r, Burst(q, budget), Acks(At(w.t, r).link, q[..Burst(q, budget)], 0))
  }

  lemma NothingSent(w: World, r: Ref)
    requires Sound(w) && In(w.t, r) && At(w.t, r).active
    ensures PartlySent(w, w, r, 0, [])
  {
    hide Sound, Drain;
    TakeNeeds(w, r);
    SoundPair(w, r);
    UnchangedIsUnsent(w, r);
  }

  lemma UnchangedIsUnsent(w: World, r: Ref)
    requires In(w.t, r) && At(w.t, r).active
    requires r.node < |w.log| && At(w.t, r).partner < |w.log| && r.node != At(w.t, r).partner
    ensures PartlySent(w, w, r, 0, [])
  {
    hide Drain;
    assert Waiting(w, r)[..0] == [] && Waiting(w, r)[0..] == Waiting(w, r);
    assert Arrivals(At(w.t, r).link, []) == [];
  }

  lemma AllSent(w: World, v: World, r: Ref, k: nat, own: seq<Event>)
    requires PartlySent(w, v, r, k, own) && Waiting(v, r) == []
    ensures k == |Waiting(w, r)|
  {
    hide Drain;
  }

  lemma SlotFacts(w: World, r: Ref)
    requires Sound(w) && In(w.t, r)
    ensures |At(w.t, r).buffers.unreliable| == NUM_UNRELIABLE
    ensures !At(w.t, r).active ==> NextSlot(At(w.t, r).buffers).None?
    ensures NextSlot(At(w.t, r).buffers).None? <==> Waiting(w, r) == []
  {
    SoundBuffers(w, r);
    EmptyIsOrderly();
    LowestExistsIff(EMPTY.Slots(), NUM_SLOTS);
  }

  lemma LinkIsLive(w: World, r: Ref)
    requires Sound(w) && In(w.t, r) && At(w.t, r).active
    ensures Live(w.t[r.node], At(w.t, r).link)
  {
    SoundLive(w, r);
  }

  lemma NextWaiting(w: World, v: World, r: Ref, k: nat, own: seq<Event>, s: nat)
    requires PartlySent(w, v, r, k, own) && NextSlot(At(v.t, r).buffers) == Some(s)
    ensures k < |Waiting(w, r)| && Waiting(w, r)[k] == At(v.t, r).buffers.Slots()[s].value
    ensures At(v.t, r).link == At(w.t, r).link && At(v.t, r).active && At(v.t, r).partner == At(w.t, r).partner
  {
    hide Lowest;
    assert Waiting(v, r)[0] == Waiting(w, r)[k];
  }

  lemma SentNext(w: World, v: World, v': World, r: Ref, k: nat, own: seq<Event>, s: nat)
    requires PartlySent(w, v, r, k, own) && NextSlot(At(v.t, r).buffers) == Some(s) && SendDone(v, v', r, s)
    ensures PartlySent(w, v', r, k + 1, own)
  {
    NextWaiting(w, v, r, k, own, s);
    StaysWith(At(v.t, r).buffers, s, None);
    StaysChains(At(w.t, r).buffers, At(v.t, r).buffers, At(v'.t, r).buffers);
    ThinnedByOne(At(w.t, r).buffers, At(v.t, r).buffers, s);
    var c, q := At(w.t, r), Waiting(w, r);
    assert Waiting(v, r) == [q[k]] + Waiting(v', r);
    hide Lowest, Drain;
    assert q[..k + 1] == q[..k] + [q[k]];
    assert Arrivals(c.link, q[..k + 1]) == Arrivals(c.link, q[..k]) + [Received(c.link, q[k].message)];
  }

  lemma OwnEvent(w: World, v: World, v': World, r: Ref, k: nat, own: seq<Event>, e: Event)
    requires PartlySent(w, v, r, k, own) && r.node < |v.log| && v' == v.(log := Logged(v.log, r.node, e))
    ensures PartlySent(w, v', r, k, own + [e])
  {
    hide Drain;
  }

  ghost predicate BurstOver(q: seq<Packet>, budget: nat, link: nat, sent: nat, own: seq<Event>, unreliable: nat) {
    sent <= |q| && sent == Burst(q, budget) && own + TxEvent(link, unreliable) == Acks(link, q[..sent], 0)
  }

  /** The confirmations collected during the burst and the last TX_COMPLETE are those of the whole burst. */
  lemma BurstEnds(q: seq<Packet>, budget: nat, sent: nat, link: nat, own: seq<Event>, unreliable: nat)
    requires sent <= budget && sent <= |q|
    requires (unreliable == sent && own == [] && (forall j | 0 <= j < sent :: !q[j].Reliable())
              && (sent == budget || sent == |q|))
             || (unreliable == 0 && sent > 0 && own == TxEvent(link, sent - 1) + [WriteResponse(link, q[sent - 1].id)]
                 && q[sent - 1].Reliable() && forall j | 0 <= j < sent - 1 :: !q[j].Reliable())
    ensures BurstOver(q, budget, link, sent, own, unreliable)
  {
    var burst := q[..sent];
    if own == [] {
      BurstStops(q, budget, sent);
      AcksOfUnreliable(link, burst, 0);
      assert own + TxEvent(link, sent) == TxEvent(link, sent);
    } else {
      BurstStops(q, budget, sent - 1);
      assert burst[sent - 1] == q[sent - 1];
      AcksOfReliable(link, burst, 0);
      assert own + [] == own;
    }
  }

  lemma BurstIsDone(w: World, v: World, r: Ref, budget: nat, sent: nat, own: seq<Event>, unreliable: nat)
    requires In(w.t, r) && BurstOver(Waiting(w, r), budget, At(w.t, r).link, sent, own, unreliable)
    requires PartlySent(w, v, r, sent, own + TxEvent(At(w.t, r).link, unreliable))
    ensures BurstDone(w, v, r, budget)
  {
    hide PartlySent, Drain, Burst, Acks;
  }

  lemma Finished(w: World, v: World, v': World, r: Ref, k: nat, own: seq<Event>, count: nat)
    requires PartlySent(w, v, r, k, own) && r.node < |v.log|
    requires v' == if count > 0 then v.(log := Logged(v.log, r.node, TxComplete(At(w.t, r).link, count))) else v
    ensures PartlySent(w, v', r, k, own + TxEvent(At(w.t, r).link, count))
  {
    if count > 0 {
      OwnEvent(w, v, v', r, k, own, TxComplete(At(w.t, r).link, count));
    } else {
      assert own + [] == own;
    }
  }

  ghost predicate SendDone(w: World, v: World, r: Ref, k: nat) {
    && In(w.t, r) && At(w.t, r).active && |At(w.t, r).buffers.unreliable| == NUM_UNRELIABLE && k < NUM_SLOTS
    && At(w.t, r).buffers.Slots()[k].Some? && At(w.t, r).partner < |w.log|
    && (k > 0 ==> !Highest(At(w.t, r).buffers.Slots()[k]))
    && v == Sent(w, r, k)
  }

  lemma SendFacts(w: World, r: Ref, k: nat)
    requires Sound(w) && In(w.t, r) && At(w.t, r).active && NextSlot(At(w.t, r).buffers) == Some(k)
    ensures |At(w.t, r).buffers.unreliable| == NUM_UNRELIABLE && k < NUM_SLOTS
    ensures At(w.t, r).buffers.Slots()[k].Some? && At(w.t, r).partner < |w.log|
    ensures k > 0 ==> !Highest(At(w.t, r).buffers.Slots()[k])
    ensures At(w.t, r).buffers.Slots()[k].value.link == At(w.t, r).link
    ensures At(w.t, r).buffers.Slots()[k].value.receiver == At(w.t, r).partner
    ensures Sound(Sent(w, r, k)) && Reshaped(w.t, Sent(w, r, k).t)
  {
    TakeNeeds(w, r);
    SoundBuffers(w, r);
    LowestIsNotHighest(At(w.t, r).buffers.Slots(), NUM_SLOTS);
    SoundSend(w, r, k);
  }

  ghost predicate CutDone(w: World, v: World, r: Ref, reason: nat, reasonPartner: nat) {
    && In(w.t, r) && At(w.t, r).active && At(w.t, r).partnerConnection.Some?
    && var p := At(w.t, r).partnerConnection.value;
       In(w.t, p) && LinkTable.Ends(r, At(w.t, r), p, At(w.t, p)) && r.node < |w.log| && p.node < |w.log|
       && v == Cut(w, r, p, reason, reasonPartner)
  }

  lemma CutFacts(w: World, r: Ref, reason: nat, reasonPartner: nat)
    requires Sound(w) && In(w.t, r) && At(w.t, r).active
    ensures At(w.t, r).partnerConnection.Some?
    ensures var c, p := At(w.t, r), At(w.t, r).partnerConnection.value;
            && In(w.t, p) && LinkTable.Ends(r, c, p, At(w.t, p))
            && r.node < |w.log| && p.node < |w.log|
            && Sound(Cut(w, r, p, reason, reasonPartner))
  {
    SoundPair(w, r);
    SoundSizes(w);
    SoundCut(w, r, At(w.t, r).partnerConnection.value, reason, reasonPartner);
  }

  lemma {:induction false} FirstByHandlePrefix(row: Row, i: nat, handle: int)
    requires i <= |row| && FirstByHandle(row[..i], handle).Some?
    ensures FirstByHandle(row, handle) == FirstByHandle(row[..i], handle)
    decreases |row|
  {
    if i < |row| {
      var init := row[..|row| - 1];
      assert init[..i] == row[..i];
      FirstByHandlePrefix(init, i, handle);
    } else {
      assert row[..i] == row;
    }
  }

  // ---------- Changing a slot without touching its link ----------

  /** The same link, buffers and timing, so that only bookkeeping fields differ. */
  ghost predicate Alike(c: Connection, d: Connection) {
    SameEnd(c, d) && c.buffers == d.buffers && c.interval == d.interval && c.supervisionTimeout == d.supervisionTimeout
  }

  lemma AlikeAgrees(t: Table, r: Ref, c: Connection)
    requires Paired(t) && Agreeing(t) && In(t, r) && Alike(At(t, r), c) && Paired(Put(t, r, c))
    ensures Agreeing(Put(t, r, c))
  {
    var u := Put(t, r, c);
    forall q | In(u, q) && At(u, q).active
      ensures At(u, q).interval == At(u, At(u, q).partnerConnection.value).interval
      ensures At(u, q).supervisionTimeout == At(u, At(u, q).partnerConnection.value).supervisionTimeout
    {
      assert PairedAt(t, q) && PairedAt(u, q);
    }
  }

  lemma TouchedLinks(t: Table, r: Ref, c: Connection)
    requires In(t, r) && Alike(At(t, r), c)
    ensures var u := Put(t, r, c);
            SameLinks(t, u) && Reshaped(t, u) && forall q | In(t, q) :: In(u, q) && At(u, q).buffers == At(t, q).buffers
  {}

  lemma SoundAgrees(w: World)
    requires Sound(w)
    ensures Paired(w.t) && Agreeing(w.t)
  {}

  lemma TouchFacts(w: World, r: Ref, c: Connection)
    requires Sound(w) && In(w.t, r) && Alike(At(w.t, r), c)
    ensures Sound(w.(t := Put(w.t, r, c))) && Reshaped(w.t, Put(w.t, r, c))
  {
    var u := Put(w.t, r, c);
    TouchedLinks(w.t, r, c);
    SoundAgrees(w);
    hide Sound, SameLinks, Reshaped, Paired, Agreeing, Alike;
    if Paired(u) {
      AlikeAgrees(w.t, r, c);
    }
    SoundUpdate(w, u);
  }

  // ---------- Connection events ----------

  /** `connectionIntervalMs` as SimulateConnections uses it: a 16-bit value, with 7.5 ms taken as 10 ms. */
  function EventInterval(c: Connection): nat {
    var ms := c.interval % 0x1_0000;
    if ms == 7 then 10 else ms
  }

  function U32(x: int): nat {
    x % 0x1_0000_0000
  }

  predicate Due(c: Connection, timeMs: nat) {
    c.active && timeMs >= U32(c.lastEvent + EventInterval(c))
  }

  /** The slot after the event has started; hearing the partner resets its supervision timer. */
  function Started(c: Connection, timeMs: nat, now: nat, reachable: bool): Connection {
    c.(lastEvent := timeMs, lastReceived := if reachable then now else c.lastReceived)
  }

  const MAX_QUEUE_TIME_MS := 30000

  /** The next packet has been waiting for too long. */
  predicate Stale(c: Connection, now: nat) {
    var k := NextSlot(c.buffers);
    k.Some? && U32(now - c.buffers.Slots()[k.value].value.queuedAt) > MAX_QUEUE_TIME_MS
  }

  lemma StaleStays(c: Connection, timeMs: nat, now: nat, reachable: bool)
    ensures Stale(Started(c, timeMs, now, reachable), now) <==> Stale(c, now)
  {}

  /** Nothing was received for the supervision timeout. */
  predicate Lost(c: Connection, now: nat) {
    now >= U32(c.lastReceived + c.supervisionTimeout)
  }

  function CountLinks(row: Row): nat {
    if row == [] then 0 else CountLinks(row[..|row| - 1]) + (if row[|row| - 1].active then 1 else 0)
  }

  /** How many packets a connection event may send: a random number up to 7, 5 or 3, depending on how many
      links share the radio. */
  function Budget(links: nat, draw: nat, reachable: bool): nat {
    if !reachable then 0
    else if links == 1 then draw % (NUM_UNRELIABLE + 1)
    else if links == 2 then draw % 6
    else draw % 4
  }

  const BLE_HCI_CONNECTION_TIMEOUT := 0x08

  /** The effect of one connection event, by cases. */
  ghost predicate EventDone(w: World, v: World, r: Ref, timeMs: nat, now: nat, draw: nat, reachable: bool) {
    && In(w.t, r)
    && var c := At(w.t, r);
       var c' := Started(c, timeMs, now, reachable);
       var w' := w.(t := Put(w.t, r, c'));
       if !Due(c, timeMs) then v == w
       else if Stale(c, now) || Lost(c', now) then
         CutDone(w', v, r, BLE_HCI_CONNECTION_TIMEOUT, BLE_HCI_CONNECTION_TIMEOUT)
       else BurstDone(w', v, r, Budget(CountLinks(w.t[r.node]), draw, reachable))
  }

  lemma EventIsNotDue(w: World, r: Ref, timeMs: nat, now: nat, draw: nat, reachable: bool)
    requires In(w.t, r) && !Due(At(w.t, r), timeMs)
    ensures EventDone(w, w, r, timeMs, now, draw, reachable)
  {}

  lemma EventDrops(w: World, v: World, r: Ref, timeMs: nat, now: nat, draw: nat, reachable: bool)
    requires In(w.t, r) && Due(At(w.t, r), timeMs)
    requires Stale(At(w.t, r), now) || Lost(Started(At(w.t, r), timeMs, now, reachable), now)
    requires CutDone(w.(t := Put(w.t, r, Started(At(w.t, r), timeMs, now, reachable))), v, r,
                     BLE_HCI_CONNECTION_TIMEOUT, BLE_HCI_CONNECTION_TIMEOUT)
    ensures EventDone(w, v, r, timeMs, now, draw, reachable)
  {
    hide CutDone, BurstDone, Due, Stale, Lost;
  }

  lemma EventSends(w: World, v: World, r: Ref, timeMs: nat, now: nat, draw: nat, reachable: bool)
    requires In(w.t, r) && Due(At(w.t, r), timeMs)
    requires !Stale(At(w.t, r), now) && !Lost(Started(At(w.t, r), timeMs, now, reachable), now)
    requires BurstDone(w.(t := Put(w.t, r, Started(At(w.t, r), timeMs, now, reachable))), v, r,
                       Budget(CountLinks(w.t[r.node]), draw, reachable))
    ensures EventDone(w, v, r, timeMs, now, draw, reachable)
  {
    hide CutDone, BurstDone, Due, Stale, Lost;
  }

  // ---------- What can only grow and what can only shrink while no link is opened ----------

  /** Logs grow, links go away, and nothing is queued; unreliable packets with the highest id stay with their link. */
  ghost predicate Progress(w: World, v: World) {
    && Reshaped(w.t, v.t)
    && (forall q | In(w.t, q) && At(v.t, q).active :: Remains(At(w.t, q), At(v.t, q)))
    && |v.log| == |w.log| && (forall n | 0 <= n < |w.log| :: w.log[n] <= v.log[n])
    && v == w.(t := v.t, log := v.log)
  }

  /** The slot has had this link before, and still has its packets with the highest id. */
  ghost predicate Remains(c: Connection, d: Connection) {
    c.active && d.link == c.link && Stays(c.buffers, d.buffers)
  }

  lemma ProgressChains(w: World, v: World, x: World)
    requires Progress(w, v) && Progress(v, x)
    ensures Progress(w, x)
  {
    forall n | 0 <= n < |w.log|
      ensures w.log[n] <= x.log[n]
    {
      assert w.log[n] <= v.log[n] <= x.log[n];
    }
    forall q | In(w.t, q) && At(x.t, q).active
      ensures Remains(At(w.t, q), At(x.t, q))
    {
      assert In(v.t, q);
      assert Remains(At(v.t, q), At(x.t, q));
      assert Remains(At(w.t, q), At(v.t, q));
      StaysChains(At(w.t, q).buffers, At(v.t, q).buffers, At(x.t, q).buffers);
    }
  }

  lemma CutCloses(w: World, v: World, r: Ref, reason: nat, reasonPartner: nat)
    requires CutDone(w, v, r, reason, reasonPartner)
    ensures In(v.t, r) && !At(v.t, r).active
  {}

  lemma CutIsProgress(w: World, v: World, r: Ref, reason: nat, reasonPartner: nat)
    requires CutDone(w, v, r, reason, reasonPartner)
    ensures Progress(w, v)
  {}

  lemma BurstIsProgress(w: World, v: World, r: Ref, budget: nat)
    requires BurstDone(w, v, r, budget)
    ensures Progress(w, v)
  {
    hide Burst, Acks, Drain;
    forall n | 0 <= n < |w.log|
      ensures w.log[n] <= v.log[n]
    {
    }
  }

  lemma TouchIsProgress(w: World, r: Ref, c: Connection)
    requires In(w.t, r) && c.active == At(w.t, r).active && c.link == At(w.t, r).link
    requires c.buffers == At(w.t, r).buffers
    ensures Progress(w, w.(t := Put(w.t, r, c)))
  {}

  lemma EventIsProgress(w: World, v: World, r: Ref, timeMs: nat, now: nat, draw: nat, reachable: bool)
    requires EventDone(w, v, r, timeMs, now, draw, reachable)
    ensures Progress(w, v)
  {
    hide CutDone, BurstDone, Progress, Stale, Lost;
    var c := At(w.t, r);
    if Due(c, timeMs) {
      var c' := Started(c, timeMs, now, reachable);
      var w' := w.(t := Put(w.t, r, c'));
      TouchIsProgress(w, r, c');
      if Stale(c, now) || Lost(c', now) {
        CutIsProgress(w', v, r, BLE_HCI_CONNECTION_TIMEOUT, BLE_HCI_CONNECTION_TIMEOUT);
      } else {
        BurstIsProgress(w', v, r, Budget(CountLinks(w.t[r.node]), draw, reachable));
      }
      ProgressChains(w, w', v);
    } else {
      NothingIsProgress(w);
    }
  }

  lemma NothingIsProgress(w: World)
    ensures Progress(w, w)
  {}

  /** In any step: no link comes back once it is closed, and while a link is up, its unreliable packets with the highest
      id stay where they are. */
  ghost predicate Persists(w: World, v: World) {
    && Reshaped(w.t, v.t) && |w.parties| <= |v.parties|
    && forall q | In(w.t, q) && At(v.t, q).active && At(v.t, q).link <= |w.parties| :: Remains(At(w.t, q), At(v.t, q))
  }

  lemma PersistsChains(w: World, v: World, x: World)
    requires Persists(w, v) && Persists(v, x)
    ensures Persists(w, x)
  {
    forall q | In(w.t, q) && At(x.t, q).active && At(x.t, q).link <= |w.parties|
      ensures Remains(At(w.t, q), At(x.t, q))
    {
      assert In(v.t, q);
      assert Remains(At(v.t, q), At(x.t, q));
      assert Remains(At(w.t, q), At(v.t, q));
      StaysChains(At(w.t, q).buffers, At(v.t, q).buffers, At(x.t, q).buffers);
    }
  }

  lemma ProgressPersists(w: World, v: World)
    requires Progress(w, v)
    ensures Persists(w, v)
  {
    hide Remains;
  }

  lemma SameLinksPersist(w: World, v: World)
    requires v.t == w.t && v.parties == w.parties
    ensures Persists(w, v)
  {}

  lemma CutPersists(w: World, v: World, r: Ref, reason: nat, reasonPartner: nat)
    requires CutDone(w, v, r, reason, reasonPartner)
    ensures Persists(w, v)
  {
    CutIsProgress(w, v, r, reason, reasonPartner);
    ProgressPersists(w, v);
  }

  lemma TouchPersists(w: World, v: World, r: Ref, c: Connection)
    requires In(w.t, r) && v == w.(t := Put(w.t, r, c))
    requires c.active == At(w.t, r).active && c.link == At(w.t, r).link && c.buffers == At(w.t, r).buffers
    ensures Persists(w, v)
  {
    TouchIsProgress(w, r, c);
    ProgressPersists(w, v);
  }

  lemma TakePersists(w: World, v: World, r: Ref, message: Message, now: nat)
    requires TakeDone(w, v, r, message, now)
    ensures Persists(w, v)
  {
    hide FreeSlot, PacketId;
    var c := At(w.t, r);
    StaysWith(c.buffers, FreeSlot(c.buffers, message.kind).value, Some(Packed(w, c, message, now)));
  }

  lemma JoinPersists(w: World, v: World, slave: nat, master: nat, interval: nat, timeout: nat, now: nat, slavePeer: nat,
                     masterPeer: nat)
    requires JoinDone(w, v, slave, master, interval, timeout, now, slavePeer, masterPeer)
    ensures Persists(w, v)
  {}

  lemma FreshPersists(w: World, v: World, n: nat, row: Row)
    requires n < |w.t| && |row| == |w.t[n]| && v.t == w.t[n := row] && v.parties == w.parties
    requires forall k | 0 <= k < |row| :: !row[k].active
    ensures Persists(w, v)
  {
    forall q | In(w.t, q) && At(v.t, q).active
      ensures Remains(At(w.t, q), At(v.t, q))
    {
      assert q.node != n;
    }
  }

  // ---------- Passes over all slots of a node ----------

  /** The worlds between the steps of a pass: one before each step and one after the last. */
  ghost predicate EventPass(ws: seq<World>, n: nat, timeMs: nat, now: nat, draws: seq<nat>, reachable: seq<bool>) {
    && |ws| == |draws| + 1 == |reachable| + 1
    && forall i | 0 <= i < |draws| :: EventDone(ws[i], ws[i + 1], Ref(n, i), timeMs, now, draws[i], reachable[i])
  }

  ghost predicate RssiDone(w: World, v: World, r: Ref, due: bool) {
    && In(w.t, r) && r.node < |w.log|
    && v == if due && At(w.t, r).active && At(w.t, r).rssiActive
            then w.(log := Logged(w.log, r.node, RssiChanged(At(w.t, r).link))) else w
  }

  ghost predicate RssiPass(ws: seq<World>, n: nat, due: seq<bool>) {
    && |ws| == |due| + 1
    && forall i | 0 <= i < |due| :: RssiDone(ws[i], ws[i + 1], Ref(n, i), due[i])
  }

  ghost predicate LossDone(w: World, v: World, r: Ref, loss: bool) {
    && In(w.t, r)
    && if loss && At(w.t, r).active then CutDone(w, v, r, BLE_HCI_CONNECTION_TIMEOUT, BLE_HCI_CONNECTION_TIMEOUT)
       else v == w
  }

  ghost predicate LossPass(ws: seq<World>, n: nat, losses: seq<bool>) {
    && |ws| == |losses| + 1
    && forall i | 0 <= i < |losses| :: LossDone(ws[i], ws[i + 1], Ref(n, i), losses[i])
  }

  lemma RssiIsProgress(w: World, v: World, r: Ref, due: bool)
    requires RssiDone(w, v, r, due)
    ensures Progress(w, v)
  {}

  lemma LossIsProgress(w: World, v: World, r: Ref, loss: bool)
    requires LossDone(w, v, r, loss)
    ensures Progress(w, v)
    ensures loss ==> In(v.t, r) && !At(v.t, r).active
  {
    hide CutDone, Progress;
    if loss && At(w.t, r).active {
      CutIsProgress(w, v, r, BLE_HCI_CONNECTION_TIMEOUT, BLE_HCI_CONNECTION_TIMEOUT);
      CutCloses(w, v, r, BLE_HCI_CONNECTION_TIMEOUT, BLE_HCI_CONNECTION_TIMEOUT);
    } else {
      NothingIsProgress(w);
    }
  }

  lemma ProgressKeepsDown(w: World, v: World, r: Ref)
    requires Progress(w, v) && In(w.t, r) && !At(w.t, r).active
    ensures In(v.t, r) && !At(v.t, r).active
  {}

  lemma FreshRowLinks(w: World, n: nat, row: Row)
    requires Sound(w) && n < |w.t| && |row| == |w.t[n]|
    requires forall k | 0 <= k < |row| :: row[k] == DEFAULT && !w.t[n][k].active
    ensures var u := w.t[n := row];
            SameLinks(w.t, u) && forall q | In(w.t, q) :: In(u, q) && At(u, q).buffers == At(w.t, q).buffers
  {
    hide Sound;
    forall r | In(w.t, r)
      ensures var u := w.t[n := row];
              In(u, r) && SameEnd(At(w.t, r), At(u, r)) && At(u, r).buffers == At(w.t, r).buffers
    {
      EmptyUnlessActive(w, r);
    }
  }

  lemma EmptyUnlessActive(w: World, r: Ref)
    requires Sound(w) && In(w.t, r)
    ensures !At(w.t, r).active ==> At(w.t, r).buffers == EMPTY
  {
    SoundBuffers(w, r);
  }

  /** A node without links can be given fresh slots. */
  lemma FreshRowFacts(w: World, n: nat, row: Row)
    requires Sound(w) && n < |w.t| && n < |w.intents| && n < |w.limits| && |row| == |w.t[n]|
    requires forall k | 0 <= k < |row| :: row[k] == DEFAULT && !w.t[n][k].active
    ensures Sound(w.(t := w.t[n := row], intents := w.intents[n := Intent(false, false)]))
  {
    var u := w.t[n := row];
    FreshRowLinks(w, n, row);
    SoundAgrees(w);
    hide Sound, SameLinks, Paired, Agreeing;
    if Paired(u) {
      FreshRowAgrees(w.t, n, row);
    }
    SoundUpdate(w, u);
    var v := w.(t := u);
    SoundIntent(v, n, Intent(false, false));
  }

  lemma FreshRowAgrees(t: Table, n: nat, row: Row)
    requires Paired(t) && Agreeing(t) && n < |t| && |row| == |t[n]| && Paired(t[n := row])
    requires forall k | 0 <= k < |row| :: row[k] == DEFAULT && !t[n][k].active
    ensures Agreeing(t[n := row])
  {
    var u := t[n := row];
    forall q | In(u, q) && At(u, q).active
      ensures At(u, q).interval == At(u, At(u, q).partnerConnection.value).interval
      ensures At(u, q).supervisionTimeout == At(u, At(u, q).partnerConnection.value).supervisionTimeout
    {
      assert In(t, q);
      assert q.node != n;
      assert PairedAt(t, q) && PairedAt(u, q);
      assert At(t, q) == At(u, q);
    }
  }

  /** No link of any node leads to a node without links. */
  lemma NobodyLinkedTo(w: World, n: nat, r: Ref)
    requires Sound(w) && n < |w.t| && In(w.t, r) && At(w.t, r).active
    requires forall k | 0 <= k < |w.t[n]| :: !w.t[n][k].active
    ensures At(w.t, r).partner != n
  {
    SoundPair(w, r);
    assert At(w.t, At(w.t, r).partnerConnection.value).active;
  }

  // ---------- Connection parameters ----------

  /** Both ends of a link take over a new interval; a request of the peripheral is answered by that. */
  function Retimed(t: Table, r: Ref, p: Ref, interval: nat): Table
    requires In(t, r) && In(t, p)
  {
    Put(Put(t, r, At(t, r).(interval := interval, paramPending := false)), p, At(t, p).(interval := interval))
  }

  lemma RetimedLinks(t: Table, r: Ref, p: Ref, interval: nat)
    requires In(t, r) && In(t, p)
    ensures var u := Retimed(t, r, p, interval);
            SameLinks(t, u) && Reshaped(t, u) && forall q | In(t, q) :: In(u, q) && At(u, q).buffers == At(t, q).buffers
  {}

  lemma RetimeFacts(w: World, r: Ref, interval: nat)
    requires Sound(w) && In(w.t, r) && At(w.t, r).active
    ensures At(w.t, r).partnerConnection.Some? && In(w.t, At(w.t, r).partnerConnection.value)
    ensures var u := Retimed(w.t, r, At(w.t, r).partnerConnection.value, interval);
            Sound(w.(t := u)) && Reshaped(w.t, u)
  {
    SoundPair(w, r);
    var p := At(w.t, r).partnerConnection.value;
    var u := Retimed(w.t, r, p, interval);
    RetimedLinks(w.t, r, p, interval);
    SoundAgrees(w);
    hide Sound, Retimed, SameLinks, Reshaped, Paired, Agreeing;
    if Paired(u) {
      RetimeAgrees(w.t, r, p, interval);
    }
    SoundUpdate(w, u);
  }

  lemma RetimeAgrees(t: Table, r: Ref, p: Ref, interval: nat)
    requires Paired(t) && Agreeing(t) && In(t, r) && In(t, p) && LinkTable.Ends(r, At(t, r), p, At(t, p))
    requires Paired(Retimed(t, r, p, interval))
    ensures Agreeing(Retimed(t, r, p, interval))
  {
    var u := Retimed(t, r, p, interval);
    forall q | In(u, q) && At(u, q).active
      ensures At(u, q).interval == At(u, At(u, q).partnerConnection.value).interval
      ensures At(u, q).supervisionTimeout == At(u, At(u, q).partnerConnection.value).supervisionTimeout
    {
      assert PairedAt(t, q) && PairedAt(u, q);
    }
  }

  ghost predicate RetimeDone(w: World, v: World, r: Ref, params: ConnParams, interval: nat) {
    && In(w.t, r) && At(w.t, r).active && At(w.t, r).partnerConnection.Some?
    && var c, p := At(w.t, r), At(w.t, r).partnerConnection.value;
       && In(w.t, p) && r.node < |w.log| && p.node < |w.log|
       && v == w.(t := Retimed(w.t, r, p, interval),
                  log := Logged(Logged(w.log, r.node, ParamUpdate(c.link, params.minInterval, params.maxInterval)),
                                p.node, ParamUpdate(c.link, params.minInterval, params.maxInterval)))
  }

  lemma SameTable(w: World, v: World)
    requires Progress(w, v)
    ensures Reshaped(w.t, v.t)
  {}

  lemma StaysDown(w: World, v: World, n: nat, i: nat, losses: seq<bool>)
    requires Progress(w, v) && n < |w.t| && i < |losses| <= |w.t[n]|
    requires forall j | 0 <= j < i && losses[j] :: !At(w.t, Ref(n, j)).active
    ensures forall j | 0 <= j < i && losses[j] :: In(v.t, Ref(n, j)) && !At(v.t, Ref(n, j)).active
  {
    forall j | 0 <= j < i && losses[j]
      ensures In(v.t, Ref(n, j)) && !At(v.t, Ref(n, j)).active
    {
      ProgressKeepsDown(w, v, Ref(n, j));
    }
  }

  const UNIT_1_25_MS := 1250
  const PARAM_REQUEST_TIMEOUT_DS := 20

  /** Units in microseconds, as the macro UNITS_TO_MSEC takes them. */
  function ToMs(time: nat, unit: nat): nat {
    time * unit / 1000
  }

  datatype Error =
    | Busy | InvalidConnHandle | ConnCount | Resources | InvalidState | DataSize | InvalidParam | InvalidAddr
    | NotFound | IllegalState

  /** Whether an end of a link may update the parameters: the central may answer a pending request only with the
      requested values or a refusal, the peripheral may have one request at a time. */
  function ParamVerdict(c: Connection, d: Connection, params: Option<ConnParams>): Result<(), Error> {
    if c.isCentral then
      if c.paramPending then
        (if params.Some? && params.value != c.paramRequest then Failure(InvalidParam) else Success(()))
      else if params.None? then Failure(InvalidAddr)
      else Success(())
    else if d.paramPending then Failure(Busy)
    else if params.None? then Failure(InvalidAddr)
    else Success(())
  }

  function Answered(c: Connection): Connection {
    c.(paramPending := false)
  }

  function Requested(c: Connection, params: ConnParams, timerDs: nat): Connection {
    c.(paramRequest := params, paramTimeout := U32(timerDs + PARAM_REQUEST_TIMEOUT_DS), paramPending := true)
  }

  /** The request on a slot is over and its peripheral is told the interval the link has. */
  ghost predicate RefuseDone(w: World, v: World, r: Ref) {
    && In(w.t, r) && At(w.t, r).partner < |w.log|
    && var c := At(w.t, r);
       v == w.(t := Put(w.t, r, Answered(c)),
               log := Logged(w.log, c.partner, ParamUpdate(c.link, c.interval, c.interval)))
  }

  /** The central's slot holds the request of its peripheral, and the central is told. */
  ghost predicate RequestDone(w: World, v: World, p: Ref, params: ConnParams, timerDs: nat) {
    && In(w.t, p) && p.node < |w.log|
    && var d := At(w.t, p);
       v == w.(t := Put(w.t, p, Requested(d, params, timerDs)),
               log := Logged(w.log, p.node, ParamUpdateRequest(d.link, params)))
  }

  ghost predicate ParamDone(w: World, v: World, r: Ref, params: Option<ConnParams>, timerDs: nat,
                            res: Result<(), Error>)
  {
    && In(w.t, r) && At(w.t, r).active && At(w.t, r).partnerConnection.Some?
    && In(w.t, At(w.t, r).partnerConnection.value)
    && var c, p := At(w.t, r), At(w.t, r).partnerConnection.value;
       && res == ParamVerdict(c, At(w.t, p), params)
       && (res.Failure? ==> v == w)
       && (res.Success? && c.isCentral && params.Some? ==>
             RetimeDone(w, v, r, params.value, ToMs(params.value.minInterval, UNIT_1_25_MS)))
       && (res.Success? && c.isCentral && params.None? ==> RefuseDone(w, v, r))
       && (res.Success? && !c.isCentral ==> params.Some? && RequestDone(w, v, p, params.value, timerDs))
  }

  lemma ParamPersists(w: World, v: World, r: Ref, params: Option<ConnParams>, timerDs: nat, res: Result<(), Error>)
    requires ParamDone(w, v, r, params, timerDs, res)
    ensures Persists(w, v)
  {
    hide ToMs;
  }

  lemma SameInterval(w: World, r: Ref)
    requires Sound(w) && In(w.t, r) && At(w.t, r).active
    ensures At(w.t, r).partnerConnection.Some? && In(w.t, At(w.t, r).partnerConnection.value)
    ensures var c, p := At(w.t, r), At(w.t, r).partnerConnection.value;
            var d := At(w.t, p);
            && d.interval == c.interval && d.active && d.link == c.link
            && d.owner == c.partner == p.node && c.owner == r.node
  {
    SoundPair(w, r);
    assert PairedAt(w.t, r);
  }

  ghost predicate TimeoutDone(w: World, v: World, r: Ref, timerDs: nat) {
    && In(w.t, r)
    && var c := At(w.t, r);
       if c.Is(true) && c.paramPending && timerDs >= c.paramTimeout then RefuseDone(w, v, r) else v == w
  }

  ghost predicate TimeoutPass(ws: seq<World>, n: nat, timerDs: nat, total: nat) {
    && |ws| == total + 1
    && forall i | 0 <= i < total :: TimeoutDone(ws[i], ws[i + 1], Ref(n, i), timerDs)
  }

  lemma TimeoutIsProgress(w: World, v: World, r: Ref, timerDs: nat)
    requires TimeoutDone(w, v, r, timerDs)
    ensures Progress(w, v)
  {}

  // ---------- What a burst guarantees ----------

  /** The packets that left a slot between two worlds, and what its own node was told. */
  function LeftBuffer(w: World, r: Ref, budget: nat): seq<Packet>
    requires In(w.t, r)
  {
    Waiting(w, r)[..Burst(Waiting(w, r), budget)]
  }

  /** In one connection event the TX_COMPLETE counts add up to the unreliable packets that left the buffers, at
      most one reliable write leaves, as the last packet, and its WRITE_RSP follows the TX_COMPLETE for everything
      before it. The other node got exactly the packets that left, in order. */
  lemma BurstConfirms(w: World, v: World, r: Ref, budget: nat)
    requires BurstDone(w, v, r, budget)
    ensures r.node < |w.log| == |v.log| && At(w.t, r).partner < |w.log|
    ensures |w.log[r.node]| <= |v.log[r.node]| && In(v.t, r)
    ensures var sent, link := LeftBuffer(w, r, budget), At(w.t, r).link;
            var told := v.log[r.node][|w.log[r.node]|..];
            && Waiting(w, r) == sent + Waiting(v, r)
            && v.log[At(w.t, r).partner] == w.log[At(w.t, r).partner] + Arrivals(link, sent)
            && CountReliable(sent) <= 1
            && TxTotal(told) + CountReliable(sent) == |sent|
            && (CountReliable(sent) == 1 ==>
                  && sent[|sent| - 1].Reliable()
                  && told == TxEvent(link, |sent| - 1) + [WriteResponse(link, sent[|sent| - 1].id)])
  {
    hide Drain;
    var q, link := Waiting(w, r), At(w.t, r).link;
    var sent := LeftBuffer(w, r, budget);
    BurstShape(q, budget);
    AcksConfirmAll(link, sent, 0);
    assert v.log[r.node][|w.log[r.node]|..] == Acks(link, sent, 0);
    if CountReliable(sent) == 1 {
      AcksOfReliable(link, sent, 0);
    }
    assert q == sent + q[|sent|..];
  }
}
