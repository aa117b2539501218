/** What the steps of the link layer do, in numbers: the durations, limits, codes and field values of the simulator
    written out, without the functions the steps are built from. */
module LinkOutcomes {
  import opened Results
  import opened PacketBuffers
  import opened LinkTable
  import opened LinkTraces
  import opened LinkInvariant
  import opened ConnectionEvents
  import opened LinkEffects

  // ---------- Connection events ----------

  /** The event is due: the interval has passed since the last one, in 16 bits, with 7 ms taken as 10 ms. */
  ghost predicate TimeForEvent(c: Connection, timeMs: nat) {
    var interval := if c.interval % 65536 == 7 then 10 else c.interval % 65536;
    c.active && timeMs >= (c.lastEvent + interval) % 4294967296
  }

  /** The packet that would leave next has waited for more than 30 s. */
  ghost predicate WaitedTooLong(q: seq<Packet>, now: nat) {
    q != [] && (now - q[0].queuedAt) % 4294967296 > 30000
  }

  /** The partner, last heard at the given time, was not heard for the supervision timeout. */
  ghost predicate NotHeard(c: Connection, heard: nat, now: nat) {
    now >= (heard + c.supervisionTimeout) % 4294967296
  }

  /** Both ends of a link are closed with empty buffers, both nodes are told why, and nothing else changes. */
  ghost predicate Ended(w: World, v: World, r: Ref, reason: nat, reasonPartner: nat) {
    && In(w.t, r) && At(w.t, r).active && At(w.t, r).partnerConnection.Some?
    && var c, p := At(w.t, r), At(w.t, r).partnerConnection.value;
       && In(w.t, p) && p != r && r.node < |w.log| && c.partner < |w.log| && c.partner == p.node != r.node
       && Reshaped(w.t, v.t)
       && !At(v.t, r).active && !At(v.t, p).active
       && At(v.t, r).buffers == At(v.t, p).buffers == Buffers(None, [None, None, None, None, None, None, None])
       && (forall q | In(w.t, q) && q != r && q != p :: At(v.t, q) == At(w.t, q))
       && |v.log| == |w.log|
       && v.log[r.node] == w.log[r.node] + [Disconnected(c.link, reason)]
       && v.log[p.node] == w.log[p.node] + [Disconnected(c.link, reasonPartner)]
       && (forall n | 0 <= n < |w.log| && n != r.node && n != p.node :: v.log[n] == w.log[n])
       && v == w.(t := v.t, log := v.log)
  }

  lemma CutEnds(w: World, v: World, r: Ref, reason: nat, reasonPartner: nat)
    requires CutDone(w, v, r, reason, reasonPartner)
    ensures Ended(w, v, r, reason, reasonPartner)
  {}

  lemma WhatIsTooLate(w: World, r: Ref, timeMs: nat, now: nat, heard: nat)
    requires In(w.t, r)
    ensures Due(At(w.t, r), timeMs) <==> TimeForEvent(At(w.t, r), timeMs)
    ensures Stale(At(w.t, r), now) <==> WaitedTooLong(Waiting(w, r), now)
    ensures Lost(At(w.t, r).(lastReceived := heard), now) <==> NotHeard(At(w.t, r), heard, now)
  {
    hide Lowest;
  }

  function UpSlots(row: Row): set<nat> {
    set k: nat | k < |row| && row[k].active
  }

  lemma {:induction false} LinksAreUpSlots(row: Row)
    ensures CountLinks(row) == |UpSlots(row)|
    decreases |row|
  {
    if row != [] {
      var n := |row| - 1;
      LinksAreUpSlots(row[..n]);
      assert UpSlots(row) == UpSlots(row[..n]) + (if row[n].active then {n} else {});
    }
  }

  /** How many packets may leave in one event: 7, 5 or 3, for one, two or more links of the node. */
  ghost function Most(row: Row): nat {
    if |UpSlots(row)| == 1 then 7 else if |UpSlots(row)| == 2 then 5 else 3
  }

  lemma BudgetIsBounded(row: Row, draw: nat, reachable: bool)
    ensures var budget := Budget(CountLinks(row), draw, reachable);
            if reachable then budget <= Most(row) && (draw <= Most(row) ==> budget == draw) else budget == 0
  {
    LinksAreUpSlots(row);
  }

  /** An event of a link that is neither cut off nor stuck: the first `sent` waiting packets have arrived at the
      partner, the own node has their confirmations, and the times of the slot are set. Nothing else has changed. */
  ghost predicate Served(w: World, v: World, r: Ref, timeMs: nat, heard: nat, sent: nat) {
    && In(w.t, r) && sent <= |Waiting(w, r)|
    && var c, gone := At(w.t, r), Waiting(w, r)[..sent];
       && Reshaped(w.t, v.t)
       && At(v.t, r) == c.(lastEvent := timeMs, lastReceived := heard, buffers := At(v.t, r).buffers)
       && (forall q | In(w.t, q) && q != r :: At(v.t, q) == At(w.t, q))
       && Thinned(c.buffers, At(v.t, r).buffers) && Waiting(v, r) == Waiting(w, r)[sent..]
       && |v.log| == |w.log| && r.node < |w.log| && c.partner < |w.log| && c.partner != r.node
       && v.log[r.node] == w.log[r.node] + Acks(c.link, gone, 0)
       && v.log[c.partner] == w.log[c.partner] + Arrivals(c.link, gone)
       && (forall n | 0 <= n < |w.log| && n != r.node && n != c.partner :: v.log[n] == w.log[n])
       && v == w.(t := v.t, log := v.log)
  }

  lemma BurstServes(w: World, v: World, r: Ref, timeMs: nat, now: nat, reachable: bool, budget: nat)
    requires In(w.t, r)
    requires BurstDone(w.(t := Put(w.t, r, Started(At(w.t, r), timeMs, now, reachable))), v, r, budget)
    ensures Served(w, v, r, timeMs, if reachable then now else At(w.t, r).lastReceived, Burst(Waiting(w, r), budget))
    ensures budget == 0 ==> At(v.t, r).buffers == At(w.t, r).buffers
  {
    hide Drain, Burst, Acks;
    var u := w.(t := Put(w.t, r, Started(At(w.t, r), timeMs, now, reachable)));
    assert Waiting(u, r) == Waiting(w, r);
  }

  lemma TimelyEvent(w: World, v: World, r: Ref, timeMs: nat, now: nat, draw: nat, reachable: bool)
    requires EventDone(w, v, r, timeMs, now, draw, reachable)
    ensures var c := At(w.t, r);
            var c' := Started(c, timeMs, now, reachable);
            var w' := w.(t := Put(w.t, r, c'));
            && (!TimeForEvent(c, timeMs) ==> v == w)
            && (TimeForEvent(c, timeMs) ==>
                  var heard := if reachable then now else c.lastReceived;
                  if WaitedTooLong(Waiting(w, r), now) || NotHeard(c, heard, now) then CutDone(w', v, r, 8, 8)
                  else BurstDone(w', v, r, Budget(CountLinks(w.t[r.node]), draw, reachable)))
  {
    var c := At(w.t, r);
    WhatIsTooLate(w, r, timeMs, now, if reachable then now else c.lastReceived);
    LostAfterStart(c, timeMs, now, reachable);
    hide Due, Stale, Lost, TimeForEvent, WaitedTooLong, NotHeard, CutDone, BurstDone, Budget, CountLinks;
  }

  lemma LostAfterStart(c: Connection, timeMs: nat, now: nat, reachable: bool)
    ensures Lost(Started(c, timeMs, now, reachable), now)
            <==> Lost(c.(lastReceived := if reachable then now else c.lastReceived), now)
  {}

  lemma EndedAfterStart(w: World, w': World, v: World, r: Ref, c': Connection, reason: nat, reasonPartner: nat)
    requires In(w.t, r) && w' == w.(t := Put(w.t, r, c'))
    requires c' == At(w.t, r).(lastEvent := c'.lastEvent, lastReceived := c'.lastReceived)
    requires Ended(w', v, r, reason, reasonPartner)
    ensures Ended(w, v, r, reason, reasonPartner)
  {}

  /** One connection event: nothing before its time; the end of a link that is stuck or cut off, with the reason code 8;
      otherwise nothing leaves for a partner out of reach, and for one within reach what the draw and the number of
      links allow. */
  ghost predicate EventIs(w: World, v: World, r: Ref, timeMs: nat, now: nat, draw: nat, reachable: bool) {
    && In(w.t, r) && In(v.t, r)
    && (!TimeForEvent(At(w.t, r), timeMs) ==> v == w)
    && (TimeForEvent(At(w.t, r), timeMs) ==>
          var c, q := At(w.t, r), Waiting(w, r);
          var heard := if reachable then now else c.lastReceived;
          var sent := |q| - |Waiting(v, r)|;
          if WaitedTooLong(q, now) || NotHeard(c, heard, now) then Ended(w, v, r, 8, 8)
          else
            && 0 <= sent && Served(w, v, r, timeMs, heard, sent)
            && (!reachable ==> v.log == w.log && At(v.t, r).buffers == c.buffers)
            && (reachable ==> sent <= Most(w.t[r.node]) && (draw <= Most(w.t[r.node]) ==> sent == Burst(q, draw))))
  }

  lemma ServedSlot(w: World, v: World, r: Ref, timeMs: nat, heard: nat, sent: nat)
    requires Served(w, v, r, timeMs, heard, sent)
    ensures In(v.t, r) && |Waiting(w, r)| - |Waiting(v, r)| == sent
    ensures sent == 0 ==> v.log == w.log
  {
    hide Drain;
    assert Waiting(w, r)[..0] == [];
    if sent == 0 {
      forall n | 0 <= n < |w.log|
        ensures v.log[n] == w.log[n]
      {
        assert w.log[n] + [] == w.log[n];
      }
      assert v.log == w.log;
    }
  }

  lemma EventOutcome(w: World, v: World, r: Ref, timeMs: nat, now: nat, draw: nat, reachable: bool)
    requires EventDone(w, v, r, timeMs, now, draw, reachable)
    ensures EventIs(w, v, r, timeMs, now, draw, reachable)
  {
    var c := At(w.t, r);
    var heard := if reachable then now else c.lastReceived;
    var c' := Started(c, timeMs, now, reachable);
    var w' := w.(t := Put(w.t, r, c'));
    TimelyEvent(w, v, r, timeMs, now, draw, reachable);
    BudgetIsBounded(w.t[r.node], draw, reachable);
    hide TimeForEvent, WaitedTooLong, NotHeard, CutDone, BurstDone, Budget, CountLinks, Served, Burst, Most, Drain;
    if TimeForEvent(c, timeMs) {
      if WaitedTooLong(Waiting(w, r), now) || NotHeard(c, heard, now) {
        CutEnds(w', v, r, 8, 8);
        EndedAfterStart(w, w', v, r, c', 8, 8);
      } else {
        var budget := Budget(CountLinks(w.t[r.node]), draw, reachable);
        BurstServes(w, v, r, timeMs, now, reachable, budget);
        ServedSlot(w, v, r, timeMs, heard, Burst(Waiting(w, r), budget));
      }
    }
  }

  // ---------- Opening and closing links ----------

  ghost predicate LastInactive(row: Row, k: nat) {
    k < |row| && !row[k].active && forall i | k < i < |row| :: row[i].active
  }

  lemma {:induction false} LastInactiveIsFree(row: Row, k: nat)
    ensures LastInactive(row, k) <==> LastFree(row) == Some(k)
    decreases |row|
  {
    if row != [] && row[|row| - 1].active {
      var init := row[..|row| - 1];
      LastInactiveIsFree(init, k);
      assert k < |init| ==> row[k] == init[k];
      assert LastInactive(row, k) <==> LastInactive(init, k) by {
        if LastInactive(init, k) {
          forall i | k < i < |row|
            ensures row[i].active
          {
            assert i < |init| ==> row[i] == init[i];
          }
        }
        if LastInactive(row, k) {
          assert forall i | 0 <= i < |init| :: row[i] == init[i];
        }
      }
    }
  }

  /** A slot that became one end of a link; what is not listed stays as it was. */
  ghost predicate BecameEnd(c: Connection, d: Connection, link: nat, central: bool, owner: nat, partner: Ref,
                            interval: nat, timeout: nat, now: nat)
  {
    && d.active && d.link == link && d.isCentral == central && d.owner == owner && d.partner == partner.node
    && d.partnerConnection == Some(partner) && d.interval == interval && d.supervisionTimeout == timeout && d.mtu == 23
    && d.lastReceived == now && !d.rssiActive && d.lastEvent == c.lastEvent && d.buffers == c.buffers
    && d.paramPending == c.paramPending && d.paramTimeout == c.paramTimeout && d.paramRequest == c.paramRequest
  }

  /** A new link: the last inactive slots of both nodes lead to each other, both nodes are told, and no other slot and
      no other log has changed. */
  lemma JoinOutcome(w: World, v: World, s: Ref, m: Ref, interval: nat, timeout: nat, now: nat, slavePeer: nat,
                    masterPeer: nat)
    requires JoinDone(w, v, s.node, m.node, interval, timeout, now, slavePeer, masterPeer) && s.node != m.node
    requires LastInactive(w.t[s.node], s.slot) && LastInactive(w.t[m.node], m.slot)
    ensures Reshaped(w.t, v.t) && |v.log| == |w.log|
    ensures var link := |w.parties| + 1;
            && BecameEnd(At(w.t, s), At(v.t, s), link, false, s.node, m, interval, timeout, now)
            && BecameEnd(At(w.t, m), At(v.t, m), link, true, m.node, s, interval, timeout, now)
            && v.log[s.node] == w.log[s.node] + [Connected(link, false, slavePeer)]
            && v.log[m.node] == w.log[m.node] + [Connected(link, true, masterPeer)]
    ensures forall q | In(w.t, q) && q != s && q != m :: At(v.t, q) == At(w.t, q)
    ensures forall n | 0 <= n < |w.log| && n != s.node && n != m.node :: v.log[n] == w.log[n]
    ensures v.parties == w.parties + [Parties(m.node, s.node)]
    ensures v.taken == w.taken && v.limits == w.limits && v.packets == w.packets
  {
    LastInactiveIsFree(w.t[s.node], s.slot);
    LastInactiveIsFree(w.t[m.node], m.slot);
  }

  /** The k-th link after a given one has the handle that counting from 1 to 65000, and over again, leads to. */
  lemma HandleIs(link: nat)
    requires link > 0
    ensures 1 <= HandleOf(link) <= 65000 && (link - HandleOf(link)) % 65000 == 0
  {
    assert link - HandleOf(link) == (link - 1) / 65000 * 65000;
  }

  // ---------- Queueing ----------

  /** A message was put into the buffers: a reliable write into its own slot, any other into the first empty one of the
      seven. */
  ghost predicate Stored(b: Buffers, b': Buffers, p: Packet) {
    if p.message.kind == WriteRequest then
      b.reliable.None? && b' == b.(reliable := Some(p))
    else
      && |b.unreliable| == |b'.unreliable| == 7 && b'.reliable == b.reliable
      && exists k :: 0 <= k < 7 && (forall i | 0 <= i < k :: b.unreliable[i].Some?) && b.unreliable[k].None?
                     && b'.unreliable == b.unreliable[k := Some(p)]
  }

  /** A message is buffered for the partner under the number of packets before it, in 32 bits. */
  lemma TakeOutcome(w: World, v: World, r: Ref, message: Message, now: nat)
    requires TakeDone(w, v, r, message, now)
    ensures Reshaped(w.t, v.t) && v.packets == w.packets + 1 && |v.taken| == |w.taken| && r.node < |w.taken|
    ensures v == w.(t := v.t, taken := v.taken, packets := v.packets)
    ensures var c := At(w.t, r);
            && At(v.t, r) == c.(buffers := At(v.t, r).buffers)
            && Stored(c.buffers, At(v.t, r).buffers,
                      Packet(w.packets % 4294967296, c.link, c.partner, now, message))
            && v.taken[r.node] == w.taken[r.node] + [Taken(c.link, message)]
    ensures forall q | In(w.t, q) && q != r :: At(v.t, q) == At(w.t, q)
    ensures forall n | 0 <= n < |w.taken| && n != r.node :: v.taken[n] == w.taken[n]
  {}

  // ---------- Connection parameters ----------

  /** What an update of the connection parameters by either end leads to. */
  lemma ParamOutcome(w: World, v: World, r: Ref, params: Option<ConnParams>, timerDs: nat, res: Result<(), Error>)
    requires ParamDone(w, v, r, params, timerDs, res) && res.Success?
    ensures In(w.t, r) && At(w.t, r).partnerConnection.Some? && In(w.t, At(w.t, r).partnerConnection.value)
    ensures In(v.t, r) && In(v.t, At(w.t, r).partnerConnection.value)
    ensures var c, p := At(w.t, r), At(w.t, r).partnerConnection.value;
            var d, c', d' := At(w.t, p), At(v.t, r), At(v.t, p);
            p != r ==>
            && (c.isCentral && params.Some? ==>
                  && c' == c.(interval := params.value.minInterval * 5 / 4, paramPending := false)
                  && d' == d.(interval := params.value.minInterval * 5 / 4))
            && (c.isCentral && params.None? ==> c' == c.(paramPending := false) && d' == d)
            && (!c.isCentral ==>
                  && params.Some? && c' == c
                  && d' == d.(paramPending := true, paramRequest := params.value,
                              paramTimeout := (timerDs + 20) % 4294967296))
    ensures forall q | In(w.t, q) && q != r && q != At(w.t, r).partnerConnection.value ::
              In(v.t, q) && At(v.t, q) == At(w.t, q)
  {
    assert forall x: nat :: x * 1250 / 1000 == x * 5 / 4;
  }

  // ---------- Fresh slots ----------

  /** A slot that has never been used. */
  ghost predicate Blank(c: Connection) {
    && !c.active && c.link == 0 && !c.isCentral && c.owner == 0 && c.partner == 0 && c.partnerConnection.None?
    && c.interval == 0 && c.supervisionTimeout == 0 && c.mtu == 0 && c.lastReceived == 0 && c.lastEvent == 0
    && !c.rssiActive && !c.paramPending && c.paramTimeout == 0 && c.paramRequest == ConnParams(0, 0, 0, 0)
    && c.buffers == Buffers(None, [None, None, None, None, None, None, None])
  }

  lemma FreshIsBlank(total: nat)
    ensures |FreshRow(total)| == total && forall k | 0 <= k < total :: Blank(FreshRow(total)[k])
  {}
}
