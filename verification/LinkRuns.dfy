/** Runs of the simulator in which one of its two global counters wraps: what they do to handles and to the order of
    messages, and what can be checked beforehand. */
module LinkRuns {
  import opened Results
  import opened PacketBuffers
  import opened LinkTable
  import opened LinkTraces
  import opened LinkInvariant
  import opened ConnectionEvents
  import opened LinkEffects
  import opened LinkLayer

  // ---------- Before a link is opened ----------

  /** Every live handle names one pair. */
  ghost predicate HandlesUnique(w: World) {
    forall r, q | In(w.t, r) && At(w.t, r).active && In(w.t, q) && At(w.t, q).active
                  && HandleOf(At(w.t, q).link) == HandleOf(At(w.t, r).link) ::
      q == r || At(w.t, r).partnerConnection == Some(q)
  }

  /** No live link holds the handle that is about to be given out. */
  ghost predicate NextHandleIsFree(w: World) {
    forall q | In(w.t, q) && At(w.t, q).active :: HandleOf(At(w.t, q).link) != HandleOf(|w.parties| + 1)
  }

  /** Opening a link keeps live handles unique exactly when the handle it is given is free. */
  lemma JoinKeepsHandlesUniqueIff(w: World, s: Ref, m: Ref, interval: nat, timeout: nat, now: nat, x: nat, y: nat)
    requires In(w.t, s) && In(w.t, m) && s.node != m.node && |w.log| == |w.intents| == |w.t|
    requires !At(w.t, s).active && !At(w.t, m).active && HandlesUnique(w)
    ensures HandlesUnique(Joined(w, s, m, interval, timeout, now, x, y)) <==> NextHandleIsFree(w)
  {
    var v := Joined(w, s, m, interval, timeout, now, x, y);
    hide HandleOf;
    assert At(v.t, s).partnerConnection == Some(m) && At(v.t, m).partnerConnection == Some(s);
    forall q | In(w.t, q) && q != s && q != m
      ensures In(v.t, q) && At(v.t, q) == At(w.t, q)
    {}
    if HandlesUnique(v) {
      forall q | In(w.t, q) && At(w.t, q).active
        ensures HandleOf(At(w.t, q).link) != HandleOf(|w.parties| + 1)
      {
        assert At(v.t, q) == At(w.t, q);
      }
    }
  }

  /** Closing a link keeps them unique. */
  lemma CutKeepsHandlesUnique(w: World, r: Ref, p: Ref, reason: nat, reasonPartner: nat)
    requires In(w.t, r) && In(w.t, p) && r.node < |w.log| && p.node < |w.log| && HandlesUnique(w)
    ensures HandlesUnique(Cut(w, r, p, reason, reasonPartner))
  {
    hide HandleOf;
    var v := Cut(w, r, p, reason, reasonPartner);
    forall q | In(v.t, q) && At(v.t, q).active
      ensures In(w.t, q) && At(v.t, q) == At(w.t, q)
    {}
  }

  /** The events with every handle are a proper story on a node. */
  ghost predicate StoriesProper(es: seq<Event>) {
    forall handle | 0 < handle <= HANDLE_WRAP :: Proper(WithHandle(es, handle))
  }

  lemma WithHandleAfter(es: seq<Event>, e: Event, handle: nat)
    ensures WithHandle(es + [e], handle) == WithHandle(es, handle) + (if e.ConnHandle() == handle then [e] else [])
  {
    assert (es + [e])[..|es|] == es;
  }

  /** A CONNECTED keeps the stories of a node proper exactly when its handle has no story there. */
  lemma ConnectedKeepsStoriesIff(es: seq<Event>, e: Event)
    requires StoriesProper(es) && e.Opens() && 0 < e.ConnHandle() <= HANDLE_WRAP
    ensures StoriesProper(es + [e]) <==> WithHandle(es, e.ConnHandle()) == []
  {
    hide HandleOf;
    var h := e.ConnHandle();
    var o := WithHandle(es, h);
    forall handle | 0 < handle <= HANDLE_WRAP
      ensures WithHandle(es + [e], handle) == if handle == h then o + [e] else WithHandle(es, handle)
    {
      WithHandleAfter(es, e, handle);
    }
    ShapeAfter(o, e);
    assert Proper(o + [e]) <==> o == [];
  }

  /** Opening a link keeps the story of every handle proper at both nodes exactly when neither has an event with
      the handle that is about to be given out. */
  lemma JoinKeepsStoriesIff(w: World, s: Ref, m: Ref, interval: nat, timeout: nat, now: nat, x: nat, y: nat)
    requires In(w.t, s) && In(w.t, m) && s.node != m.node && |w.log| == |w.intents| == |w.t|
    requires StoriesProper(w.log[s.node]) && StoriesProper(w.log[m.node])
    ensures var v := Joined(w, s, m, interval, timeout, now, x, y);
            var next := HandleOf(|w.parties| + 1);
            StoriesProper(v.log[s.node]) && StoriesProper(v.log[m.node])
            <==> WithHandle(w.log[s.node], next) == [] && WithHandle(w.log[m.node], next) == []
  {
    var link := |w.parties| + 1;
    HandleInRange(link);
    hide HandleOf, StoriesProper;
    ConnectedKeepsStoriesIff(w.log[s.node], Connected(link, false, x));
    ConnectedKeepsStoriesIff(w.log[m.node], Connected(link, true, y));
  }

  lemma HandleInRange(link: nat)
    requires link > 0
    ensures 0 < HandleOf(link) <= HANDLE_WRAP
  {}

  // ---------- Opening and closing one link ----------

  /** A node without links that may take up either role. */
  ghost predicate Quiet(w: World, n: nat) {
    && |w.log| == |w.taken| == |w.limits| == |w.intents| == |w.t| && n < |w.t| && |w.t[n]| > 0
    && w.limits[n].central > 0 && w.limits[n].peripheral > 0
    && forall k | 0 <= k < |w.t[n]| :: !w.t[n][k].active
  }

  lemma QuietHasSlots(w: World, n: nat)
    requires Quiet(w, n)
    ensures n < |w.t| == |w.log| && |w.t[n]| > 0
  {}

  predicate Resting(g: Gap) {
    !g.advertising && !g.connecting && !g.scanning
  }

  /** Only nodes a and b differ, and their limits and sizes do not. */
  ghost predicate Elsewhere(w: World, v: World, a: nat, b: nat) {
    && |v.t| == |w.t| && v.limits == w.limits
    && forall n | 0 <= n < |w.t| :: |v.t[n]| == |w.t[n]| && (n != a && n != b ==> v.t[n] == w.t[n])
  }

  ghost function LastSlot(w: World, n: nat): Ref
    requires n < |w.t| && |w.t[n]| > 0
  {
    Ref(n, |w.t[n]| - 1)
  }

  /** Two quiet nodes have got the next link, over the last slot of either. */
  ghost predicate LinkUp(w: World, v: World, a: nat, b: nat, interval: nat, timeout: nat, now: nat, peer: nat) {
    && Elsewhere(w, v, a, b) && v.packets == w.packets && v.taken == w.taken && |v.parties| == |w.parties| + 1
    && a < |w.t| && b < |w.t| && |w.t[a]| > 0 && |w.t[b]| > 0 && |v.log| == |w.log| == |w.t|
    && var r, p, link := LastSlot(w, a), LastSlot(w, b), |v.parties|;
       && v.t[a] == w.t[a][r.slot := Opened(At(w.t, r), link, false, a, p, interval, timeout, now)]
       && v.t[b] == w.t[b][p.slot := Opened(At(w.t, p), link, true, b, r, interval, timeout, now)]
       && v.log[a] == w.log[a] + [Connected(link, false, peer)]
  }

  lemma JoinedQuiet(w: World, v: World, a: nat, b: nat, interval: nat, timeout: nat, now: nat, x: nat, y: nat)
    requires Quiet(w, a) && Quiet(w, b) && a != b && JoinDone(w, v, a, b, interval, timeout, now, x, y)
    ensures LinkUp(w, v, a, b, interval, timeout, now, x)
  {
    assert LastFree(w.t[a]) == Some(|w.t[a]| - 1) && LastFree(w.t[b]) == Some(|w.t[b]| - 1);
  }

  /** If only one node can hear an advertisement, and it is connecting to the advertiser, it gets the link. */
  lemma OnlyOneHears(w: World, v: World, gap: seq<Gap>, gap': seq<Gap>, received: seq<bool>, a: nat, b: nat,
                     addresses: seq<nat>, now: nat, master: Option<nat>, heard: Log)
    requires Advertised(w, v, gap, gap', received, a, 0, 1, addresses, now, master, heard)
    requires a < |gap| && b < |gap| && a != b && a < |addresses| && b < |received| == |gap|
    requires forall i | 0 <= i < |received| :: received[i] == (i == b)
    requires !gap[b].scanning && gap[b].connecting && gap[b].peerAddress == addresses[a] && gap[a].advType == ADV_IND
    ensures b < |addresses|
    ensures JoinDone(w, v, a, b, gap[b].paramInterval, gap[b].paramTimeout, now, addresses[b], addresses[a])
    ensures gap' == gap[b := gap[b].(connecting := false)][a := gap[a].(advertising := false)]
  {
    hide JoinDone;
    assert Takes(gap, received, a, 0, 1, addresses[a], b);
    assert master == Some(b);
    assert heard == w.log;
    assert w.(log := heard) == w;
  }

  /** A network in which every mesh node can be reached. */
  ghost predicate Network(sim: CherrySim)
    reads sim
  {
    && sim.Valid() && sim.total == 2
    && sim.meshNodes == |sim.connections| && |sim.gap| == |sim.addresses| == |sim.connections|
  }

  /** Nothing but who wants a link has changed. */
  ghost predicate SameTimes(gap: seq<Gap>, gap': seq<Gap>, a: nat, b: nat) {
    && |gap'| == |gap|
    && forall n | 0 <= n < |gap| :: gap'[n].timeMs == gap[n].timeMs && (n != a && n != b ==> gap'[n] == gap[n])
  }

  /** Node a advertises for a link and node b connects to it. */
  ghost predicate Asked(gap: seq<Gap>, gap': seq<Gap>, a: nat, b: nat, address: nat, params: ConnParams) {
    && SameTimes(gap, gap', a, b) && a < |gap| && b < |gap|
    && gap'[a].advertising && gap'[a].advType == ADV_IND && !gap'[a].connecting && !gap'[a].scanning
    && gap'[b].connecting && gap'[b].peerAddress == address && !gap'[b].advertising && !gap'[b].scanning
    && gap'[b].paramInterval == ToMs(params.minInterval, UNIT_1_25_MS)
    && gap'[b].paramTimeout == ToMs(params.supTimeout, UNIT_10_MS)
  }

  method StartAdvertising(sim: CherrySim, a: nat)
    requires Network(sim) && Quiet(sim.W(), a)
    modifies sim`gap
    ensures Network(sim)
    ensures sim.gap == old(sim.gap)[a := old(sim.gap)[a].(advertising := true, advType := ADV_IND)]
  {
    NoRoles(sim.connections[a], false);
    hide Sound, Unread, CountRole, Intents;
    var r := sim.AdvStart(a, ADV_IND, false);
  }

  method StartConnecting(sim: CherrySim, b: nat, address: nat, params: ConnParams)
    requires Network(sim) && Quiet(sim.W(), b) && !sim.gap[b].connecting
    modifies sim`gap
    ensures Network(sim) && |sim.gap| == |old(sim.gap)|
    ensures sim.gap[b].scanning == false && sim.gap[b].connecting && sim.gap[b].peerAddress == address
    ensures sim.gap[b].timeMs == old(sim.gap[b].timeMs) && sim.gap[b].advertising == old(sim.gap[b].advertising)
    ensures sim.gap[b].paramInterval == ToMs(params.minInterval, UNIT_1_25_MS)
    ensures sim.gap[b].paramTimeout == ToMs(params.supTimeout, UNIT_10_MS)
    ensures forall n | 0 <= n < |sim.gap| && n != b :: sim.gap[n] == old(sim.gap[n])
  {
    NoRoles(sim.connections[b], true);
    hide Sound, Unread, ToMs, I32, CountRole, Intents;
    var r := sim.GapConnect(b, address, 10, params, false);
  }

  method AskForLink(sim: CherrySim, a: nat, b: nat, params: ConnParams)
    requires Network(sim) && a != b && Quiet(sim.W(), a) && Quiet(sim.W(), b)
    requires Resting(sim.gap[a]) && Resting(sim.gap[b])
    modifies sim`gap
    ensures Network(sim) && Asked(old(sim.gap), sim.gap, a, b, sim.addresses[a], params)
  {
    hide Sound, Unread, ToMs, Intents;
    StartAdvertising(sim, a);
    StartConnecting(sim, b, sim.addresses[a], params);
  }

  /** An advertising event that only node b hears. */
  method MeetIn(sim: CherrySim, a: nat, b: nat, params: ConnParams, ghost before: seq<Gap>)
    requires Network(sim) && a != b && Quiet(sim.W(), a) && Quiet(sim.W(), b)
    requires |before| == |sim.gap| && Asked(before, sim.gap, a, b, sim.addresses[a], params)
    modifies sim`gap, sim`connections, sim`queues, sim`log, sim`linkCount, sim`parties
    ensures Network(sim) && SameTimes(before, sim.gap, a, b) && Resting(sim.gap[a]) && Resting(sim.gap[b])
    ensures LinkUp(old(sim.W()), sim.W(), a, b, ToMs(params.minInterval, UNIT_1_25_MS),
                   ToMs(params.supTimeout, UNIT_10_MS), sim.simTimeMs, sim.addresses[b])
  {
    hide Sound, Unread, ToMs, Advertised, JoinDone, LinkUp, Quiet;
    ghost var u, g := sim.W(), sim.gap;
    var received := seq(sim.meshNodes, i => i == b);
    ghost var master, heard := sim.SimulateAdvertising(a, true, 0, 0, received);
    OnlyOneHears(u, sim.W(), g, sim.gap, received, a, b, sim.addresses, sim.simTimeMs, master, heard);
    JoinedQuiet(u, sim.W(), a, b, g[b].paramInterval, g[b].paramTimeout, sim.simTimeMs, sim.addresses[b],
                sim.addresses[a]);
    SoundSizes(sim.W());
  }

  /** Two quiet nodes get a link. */
  method OpenLink(sim: CherrySim, a: nat, b: nat, params: ConnParams)
    requires Network(sim) && a != b && Quiet(sim.W(), a) && Quiet(sim.W(), b)
    requires Resting(sim.gap[a]) && Resting(sim.gap[b])
    modifies sim`gap, sim`connections, sim`queues, sim`log, sim`linkCount, sim`parties
    ensures Network(sim) && SameTimes(old(sim.gap), sim.gap, a, b) && Resting(sim.gap[a]) && Resting(sim.gap[b])
    ensures LinkUp(old(sim.W()), sim.W(), a, b, ToMs(params.minInterval, UNIT_1_25_MS),
                   ToMs(params.supTimeout, UNIT_10_MS), sim.simTimeMs, sim.addresses[b])
  {
    hide Sound, Unread, ToMs, Asked;
    ghost var w, g := sim.W(), sim.gap;
    AskForLink(sim, a, b, params);
    ghost var u := sim.W();
    MeetIn(sim, a, b, params, g);
    AskingIsNoMatter(w, u, sim.W(), a, b, ToMs(params.minInterval, UNIT_1_25_MS), ToMs(params.supTimeout, UNIT_10_MS),
                     sim.simTimeMs, sim.addresses[b]);
  }

  lemma AskingIsNoMatter(w: World, u: World, v: World, a: nat, b: nat, interval: nat, timeout: nat, now: nat, peer: nat)
    requires u == w.(intents := u.intents) && LinkUp(u, v, a, b, interval, timeout, now, peer)
    ensures LinkUp(w, v, a, b, interval, timeout, now, peer)
  {}

  /** What a disconnect does to the only link of two nodes. */
  lemma CutQuiet(w: World, v: World, a: nat, b: nat, reason: nat, reasonPartner: nat)
    requires a != b && a < |w.t| && b < |w.t| && |w.t[a]| > 0 && |w.t[b]| > 0
    requires |w.log| == |w.t| == |w.limits| == |w.taken| == |w.intents|
    requires w.limits[a].central > 0 && w.limits[a].peripheral > 0
    requires w.limits[b].central > 0 && w.limits[b].peripheral > 0
    requires forall k | 0 <= k < |w.t[a]| - 1 :: !w.t[a][k].active
    requires forall k | 0 <= k < |w.t[b]| - 1 :: !w.t[b][k].active
    requires At(w.t, LastSlot(w, a)).partnerConnection == Some(LastSlot(w, b))
    requires CutDone(w, v, LastSlot(w, a), reason, reasonPartner)
    ensures Quiet(v, a) && Quiet(v, b) && Elsewhere(w, v, a, b) && v.parties == w.parties && v.packets == w.packets
    ensures |v.log| == |w.log| && v.log[a] == w.log[a] + [Disconnected(At(w.t, LastSlot(w, a)).link, reason)]
  {
    forall n | 0 <= n < |w.t|
      ensures |v.t[n]| == |w.t[n]| && (n != a && n != b ==> v.t[n] == w.t[n])
    {}
  }

  /** Two nodes with no link but one between them, over the last slot of either. */
  ghost predicate OnlyLink(w: World, a: nat, b: nat, link: nat) {
    && |w.log| == |w.taken| == |w.limits| == |w.intents| == |w.t|
    && a != b && a < |w.t| && b < |w.t| && |w.t[a]| > 0 && |w.t[b]| > 0
    && w.limits[a].central > 0 && w.limits[a].peripheral > 0 && w.limits[b].central > 0 && w.limits[b].peripheral > 0
    && (forall k | 0 <= k < |w.t[a]| - 1 :: !w.t[a][k].active)
    && (forall k | 0 <= k < |w.t[b]| - 1 :: !w.t[b][k].active)
    && var c, d := At(w.t, LastSlot(w, a)), At(w.t, LastSlot(w, b));
       && c.active && c.partnerConnection == Some(LastSlot(w, b)) && c.partner == b && c.link == link
       && d.active && d.partnerConnection == Some(LastSlot(w, a)) && d.partner == a && d.link == link
  }

  lemma LinkUpIsOnly(w: World, v: World, a: nat, b: nat, interval: nat, timeout: nat, now: nat, peer: nat)
    requires Quiet(w, a) && Quiet(w, b) && a != b && LinkUp(w, v, a, b, interval, timeout, now, peer)
    requires |v.log| == |v.taken| == |v.limits| == |v.intents| == |v.t|
    ensures OnlyLink(v, a, b, |v.parties|)
  {}

  /** The first node of such a pair ends the link. */
  method CloseLink(sim: CherrySim, a: nat, b: nat, ghost link: nat)
    requires Network(sim) && OnlyLink(sim.W(), a, b, link) && link == sim.linkCount
    modifies sim`connections, sim`queues, sim`log
    ensures Network(sim) && Quiet(sim.W(), a) && Quiet(sim.W(), b) && Elsewhere(old(sim.W()), sim.W(), a, b)
    ensures |sim.log| == |old(sim.log)| && a < |sim.log|
    ensures sim.log[a] == old(sim.log[a]) + [Disconnected(link, BLE_HCI_LOCAL_HOST_TERMINATED_CONNECTION)]
  {
    hide Sound, Unread, CutDone, HandleOf;
    ghost var w := sim.W();
    var r := sim.GapDisconnect(a, HandleOf(sim.linkCount));
    CutQuiet(w, sim.W(), a, b, BLE_HCI_LOCAL_HOST_TERMINATED_CONNECTION, BLE_HCI_REMOTE_USER_TERMINATED_CONNECTION);
  }

  lemma ElsewhereChains(w: World, u: World, v: World, a: nat, b: nat)
    requires Elsewhere(w, u, a, b) && Elsewhere(u, v, a, b)
    ensures Elsewhere(w, v, a, b)
  {}

  /** The connection parameters of the runs below: 7.5 ms between events, 4 s without a sign of the partner. */
  const PARAMS: ConnParams := ConnParams(6, 6, 0, 400)

  /** Two quiet nodes get a link and lose it again. */
  method Cycle(sim: CherrySim, a: nat, b: nat)
    requires Network(sim) && a != b && Quiet(sim.W(), a) && Quiet(sim.W(), b)
    requires Resting(sim.gap[a]) && Resting(sim.gap[b])
    modifies sim`gap, sim`connections, sim`queues, sim`log, sim`linkCount, sim`parties
    ensures Network(sim) && Quiet(sim.W(), a) && Quiet(sim.W(), b) && Resting(sim.gap[a]) && Resting(sim.gap[b])
    ensures SameTimes(old(sim.gap), sim.gap, a, b) && Elsewhere(old(sim.W()), sim.W(), a, b)
    ensures sim.linkCount == old(sim.linkCount) + 1 && |sim.log| == |old(sim.log)| && a < |sim.log|
    ensures exists peer :: sim.log[a] == old(sim.log[a])
                                         + [Connected(sim.linkCount, false, peer),
                                            Disconnected(sim.linkCount, BLE_HCI_LOCAL_HOST_TERMINATED_CONNECTION)]
  {
    hide Sound, Unread, Quiet, OnlyLink, LinkUp, Elsewhere;
    ghost var w := sim.W();
    QuietHasSlots(w, a);
    QuietHasSlots(w, b);
    ghost var interval, timeout := ToMs(PARAMS.minInterval, UNIT_1_25_MS), ToMs(PARAMS.supTimeout, UNIT_10_MS);
    OpenLink(sim, a, b, PARAMS);
    ghost var u, peer := sim.W(), sim.addresses[b];
    SoundSizes(u);
    LinkUpIsOnly(w, u, a, b, interval, timeout, sim.simTimeMs, peer);
    LinkUpFacts(w, u, a, b, interval, timeout, sim.simTimeMs, peer);
    CloseLink(sim, a, b, sim.linkCount);
    ElsewhereChains(w, u, sim.W(), a, b);
    assert sim.log[a] == w.log[a] + [Connected(sim.linkCount, false, peer),
                                     Disconnected(sim.linkCount, BLE_HCI_LOCAL_HOST_TERMINATED_CONNECTION)];
  }

  lemma LinkUpFacts(w: World, v: World, a: nat, b: nat, interval: nat, timeout: nat, now: nat, peer: nat)
    requires LinkUp(w, v, a, b, interval, timeout, now, peer)
    ensures Elsewhere(w, v, a, b) && |v.parties| == |w.parties| + 1 && v.packets == w.packets
    ensures a < |w.log| && |v.log| == |w.log| && v.log[a] == w.log[a] + [Connected(|v.parties|, false, peer)]
  {}

  lemma OnlyAfter(es: seq<Event>, e: Event, link: nat)
    ensures Only(es + [e], link) == if e.About() == link then Only(es, link) + [e] else Only(es, link)
  {
    assert (es + [e])[..|es|] == es;
  }

  /** A log has a story for every link from one number to another. */
  ghost predicate Storied(es: seq<Event>, from: nat, to: nat) {
    forall link: nat | from < link <= to :: Only(es, link) != []
  }

  lemma StoriedFurther(es: seq<Event>, es': seq<Event>, from: nat, to: nat, first: Event, second: Event)
    requires Storied(es, from, to) && first.About() == to + 1 == second.About() && es' == es + [first, second]
    ensures Storied(es', from, to + 1)
  {
    assert es' == (es + [first]) + [second];
    forall link: nat | from < link <= to + 1
      ensures Only(es', link) != []
    {
      OnlyAfter(es, first, link);
      OnlyAfter(es + [first], second, link);
    }
  }

  /** The same any number of times. */
  method CycleTimes(sim: CherrySim, a: nat, b: nat, times: nat)
    requires Network(sim) && a != b && Quiet(sim.W(), a) && Quiet(sim.W(), b)
    requires Resting(sim.gap[a]) && Resting(sim.gap[b])
    modifies sim`gap, sim`connections, sim`queues, sim`log, sim`linkCount, sim`parties
    ensures Network(sim) && Quiet(sim.W(), a) && Quiet(sim.W(), b) && Resting(sim.gap[a]) && Resting(sim.gap[b])
    ensures SameTimes(old(sim.gap), sim.gap, a, b) && Elsewhere(old(sim.W()), sim.W(), a, b)
    ensures sim.linkCount == old(sim.linkCount) + times
    ensures a < |sim.log| && Storied(sim.log[a], old(sim.linkCount), sim.linkCount)
  {
    hide Sound, Unread, Quiet, Elsewhere, Storied;
    ghost var w, g := sim.W(), sim.gap;
    QuietHasSlots(w, a);
    QuietHasSlots(w, b);
    NothingElsewhere(w, g, a, b);
    StoriedNothing(sim.log[a], sim.linkCount);
    for i := 0 to times
      invariant Network(sim) && Quiet(sim.W(), a) && Quiet(sim.W(), b)
      invariant a < |sim.gap| && b < |sim.gap| && Resting(sim.gap[a]) && Resting(sim.gap[b])
      invariant SameTimes(g, sim.gap, a, b) && Elsewhere(w, sim.W(), a, b)
      invariant sim.linkCount == old(sim.linkCount) + i
      invariant a < |sim.log| && Storied(sim.log[a], old(sim.linkCount), sim.linkCount)
    {
      ghost var u := sim.W();
      Cycle(sim, a, b);
      ElsewhereChains(w, u, sim.W(), a, b);
      ghost var peer :| sim.log[a] == u.log[a]
                                      + [Connected(sim.linkCount, false, peer),
                                         Disconnected(sim.linkCount, BLE_HCI_LOCAL_HOST_TERMINATED_CONNECTION)];
      StoriedFurther(u.log[a], sim.log[a], old(sim.linkCount), sim.linkCount - 1, Connected(sim.linkCount, false, peer),
                     Disconnected(sim.linkCount, BLE_HCI_LOCAL_HOST_TERMINATED_CONNECTION));
    }
  }

  lemma NothingElsewhere(w: World, gap: seq<Gap>, a: nat, b: nat)
    ensures Elsewhere(w, w, a, b) && SameTimes(gap, gap, a, b)
  {}

  lemma StoriedNothing(es: seq<Event>, n: nat)
    ensures Storied(es, n, n)
  {}

  // ---------- Past the 65000th link ----------

  /** A network of nodes with one connection for either role, before anything has happened. */
  method Begin(nodes: nat) returns (sim: CherrySim)
    ensures fresh(sim) && Network(sim) && |sim.connections| == nodes
    ensures sim.linkCount == 0 && sim.packetCount == 0 && sim.simTimeMs == 0
    ensures forall n | 0 <= n < nodes :: Quiet(sim.W(), n) && sim.gap[n] == IDLE
    ensures forall r | In(sim.connections, r) :: At(sim.connections, r) == DEFAULT
  {
    sim := new CherrySim(2, seq(nodes, _ => Limits(1, 1)), seq(nodes, i requires i >= 0 => i), nodes);
    SoundSizes(sim.W());
    forall n, k | 0 <= n < nodes && 0 <= k < 2
      ensures !sim.connections[n][k].active
    {
      assert At(sim.connections, Ref(n, k)) == DEFAULT;
    }
  }

  /** One handle names two live pairs. */
  ghost predicate HandleNamesTwo(w: World, r: Ref, q: Ref) {
    && In(w.t, r) && At(w.t, r).active && In(w.t, q) && At(w.t, q).active
    && HandleOf(At(w.t, q).link) == HandleOf(At(w.t, r).link)
    && q != r && At(w.t, r).partnerConnection != Some(q)
  }

  lemma StaysQuiet(w: World, v: World, a: nat, b: nat, n: nat)
    requires Quiet(w, n) && n != a && n != b && Elsewhere(w, v, a, b)
    requires |v.log| == |v.taken| == |v.limits| == |v.intents| == |v.t|
    ensures Quiet(v, n)
  {}

  /** A link that stays up, and one opened 65000 links later. */
  lemma TwoPairs(w0: World, w1: World, w2: World, w3: World, interval: nat, timeout: nat, now: nat, x: nat, y: nat)
    requires LinkUp(w0, w1, 2, 3, interval, timeout, now, x) && Elsewhere(w1, w2, 0, 1)
    requires LinkUp(w2, w3, 0, 1, interval, timeout, now, y)
    requires |w1.parties| == 1 && |w3.parties| == HANDLE_WRAP + 1
    ensures 2 < |w0.t| && |w0.t[2]| > 0 && 0 < |w2.t| && |w2.t[0]| > 0
    ensures HandleNamesTwo(w3, LastSlot(w0, 2), LastSlot(w2, 0))
  {
    SameHandleIff(HANDLE_WRAP + 1, 1);
    hide HandleOf;
    var r := LastSlot(w0, 2);
    assert w3.t[2] == w2.t[2] == w1.t[2];
    assert In(w3.t, r) && At(w3.t, r) == At(w1.t, r);
  }

  /** A run of the simulator after which one handle names two live pairs: the link between nodes 2 and 3 has stayed
      up while nodes 0 and 1 have opened 65000 others, and closed all but the last of them. */
  method HandleNamesTwoPairs() returns (sim: CherrySim, ghost r: Ref, ghost q: Ref)
    ensures fresh(sim) && sim.Valid() && sim.linkCount == HANDLE_WRAP + 1
    ensures HandleNamesTwo(sim.W(), r, q)
  {
    hide Sound, Unread, Quiet, LinkUp, Elsewhere, Storied, OnlyLink, HandleNamesTwo, ToMs;
    sim := Begin(4);
    ghost var w0 := sim.W();
    QuietHasSlots(w0, 2);
    OpenLink(sim, 2, 3, PARAMS);
    r := LastSlot(w0, 2);
    ghost var w1 := sim.W();
    SoundSizes(w1);
    ghost var interval, timeout := ToMs(PARAMS.minInterval, UNIT_1_25_MS), ToMs(PARAMS.supTimeout, UNIT_10_MS);
    LinkUpFacts(w0, w1, 2, 3, interval, timeout, 0, sim.addresses[3]);
    StaysQuiet(w0, w1, 2, 3, 0);
    StaysQuiet(w0, w1, 2, 3, 1);
    CycleTimes(sim, 0, 1, HANDLE_WRAP - 1);
    ghost var w2 := sim.W();
    OpenLink(sim, 0, 1, PARAMS);
    LinkUpFacts(w2, sim.W(), 0, 1, interval, timeout, 0, sim.addresses[1]);
    TwoPairs(w0, w1, w2, sim.W(), interval, timeout, 0, sim.addresses[3], sim.addresses[1]);
    q := LastSlot(w2, 0);
  }

  /** A run of the simulator after which the events with one handle at one node are those of two links, and so no
      proper story: two nodes have opened and closed 65001 links. */
  method HandleHasTwoStories() returns (sim: CherrySim)
    ensures fresh(sim) && sim.Valid() && sim.linkCount == HANDLE_WRAP + 1 && 0 < |sim.log|
    ensures !OneLinkPerHandle(sim.log[0], 1) && !Proper(WithHandle(sim.log[0], 1))
  {
    hide Sound, Unread, Quiet, Elsewhere;
    sim := Begin(2);
    CycleTimes(sim, 0, 1, HANDLE_WRAP + 1);
    assert Only(sim.log[0], 1) != [] && Only(sim.log[0], HANDLE_WRAP + 1) != [];
    assert HandleOf(HANDLE_WRAP + 1) == 1;
    SoundSizes(sim.W());
    HandleStoryIff(sim.W(), 0, 1);
  }

  // ---------- Past the 2^32nd packet ----------

  lemma OnlySlotActive(w: World, a: nat, b: nat, link: nat)
    requires OnlyLink(w, a, b, link)
    ensures FirstByHandle(w.t[a], HandleOf(link)) == Some(LastSlot(w, a).slot)
    ensures OnlyLink(w, b, a, link)
  {
    hide HandleOf;
  }

  /** A node with one link queues a message on it. */
  method Queue(sim: CherrySim, a: nat, b: nat, link: nat, attribute: nat, data: seq<bv8>)
    requires Network(sim) && OnlyLink(sim.W(), a, b, link)
    requires |data| <= At(sim.connections, LastSlot(sim.W(), a)).mtu
    requires FreeSlot(At(sim.connections, LastSlot(sim.W(), a)).buffers, WriteCommand).Some?
    modifies sim`connections, sim`packetCount, sim`taken
    ensures Network(sim)
    ensures TakeDone(old(sim.W()), sim.W(), LastSlot(old(sim.W()), a), Message(WriteCommand, attribute, data),
                     sim.simTimeMs)
  {
    OnlySlotActive(sim.W(), a, b, link);
    hide Sound, Unread, OnlyLink, TakeDone, FirstByHandle, FreeSlot, HandleOf;
    var r := sim.GattcWrite(a, HandleOf(link), WRITE_CMD, attribute, data, false);
  }

  /** A connection event for the one link of a node: its partner is heard, and nothing is lost. */
  method Meet(sim: CherrySim, a: nat, b: nat, ghost link: nat, draw: nat)
    requires Network(sim) && OnlyLink(sim.W(), a, b, link)
    modifies sim`connections, sim`queues, sim`log
    ensures Network(sim)
    ensures EventDone(old(sim.W()), sim.W(), LastSlot(old(sim.W()), a), sim.gap[a].timeMs, sim.simTimeMs, draw, true)
  {
    hide Sound, Unread, EventDone;
    ghost var w := sim.W();
    ghost var events, measurements, lost :=
      sim.SimulateConnections(a, false, [draw, draw], [true, true], [false, false], [false, false]);
    assert |w.t[a]| == 2 && !w.t[a][0].active;
    OnlyEvent(events, measurements, lost, a, sim.gap[a].timeMs, sim.simTimeMs, draw);
  }

  /** Without measurements and losses, and with one active slot, a step of the connections is the event of that slot. */
  lemma OnlyEvent(events: seq<World>, measurements: seq<World>, lost: seq<World>, n: nat, timeMs: nat, now: nat,
                  draw: nat)
    requires EventPass(events, n, timeMs, now, [draw, draw], [true, true])
    requires RssiPass(measurements, n, [false, false]) && LossPass(lost, n, [false, false])
    requires measurements[0] == events[2] && lost[0] == measurements[2]
    requires In(events[0].t, Ref(n, 0)) && !At(events[0].t, Ref(n, 0)).active
    ensures EventDone(events[0], lost[2], Ref(n, 1), timeMs, now, draw, true)
  {
    assert EventDone(events[0], events[1], Ref(n, 0), timeMs, now, draw, true);
    assert events[1] == events[0];
    hide EventDone;
    assert EventDone(events[1], events[1 + 1], Ref(n, 1), timeMs, now, draw, true);
    assert RssiDone(measurements[0], measurements[1], Ref(n, 0), false);
    assert RssiDone(measurements[1], measurements[1 + 1], Ref(n, 1), false);
    assert LossDone(lost[0], lost[1], Ref(n, 0), false);
    assert LossDone(lost[1], lost[1 + 1], Ref(n, 1), false);
  }

  /** A slot holds j packets, none of them reliable, that were queued just now. */
  ghost predicate Holds(c: Connection, j: nat, now: nat) {
    && |c.buffers.unreliable| == NUM_UNRELIABLE && c.buffers.reliable.None? && Occupied(c.buffers.Slots()) == j
    && forall k | 0 <= k < NUM_SLOTS && c.buffers.Slots()[k].Some? :: c.buffers.Slots()[k].value.queuedAt == now
  }

  lemma EmptyHolds(c: Connection, now: nat)
    requires c.buffers == EMPTY
    ensures Holds(c, 0, now)
  {
    EmptyIsOrderly();
    NothingOccupied(EMPTY.Slots());
  }

  /** There is room for seven. */
  lemma RoomForOne(c: Connection, j: nat, now: nat)
    requires Holds(c, j, now) && j < NUM_UNRELIABLE
    ensures FreeSlot(c.buffers, WriteCommand).Some?
  {
    hide Occupied;
    OccupiedBehind(c.buffers.reliable, c.buffers.unreliable);
    FullWhenOccupied(c.buffers.unreliable);
  }

  lemma HoldsOneMore(c: Connection, j: nat, now: nat, k: nat, p: Packet)
    requires Holds(c, j, now) && FreeSlot(c.buffers, WriteCommand) == Some(k) && p.queuedAt == now
    ensures k < NUM_SLOTS && Holds(c.(buffers := c.buffers.With(k, Some(p))), j + 1, now)
  {
    OccupiedUpdate(c.buffers.Slots(), k, Some(p));
  }

  /** Node a has queued j messages on its link. */
  ghost predicate Loaded(w: World, v: World, a: nat, j: nat, now: nat) {
    && a < |w.t| && |w.t[a]| > 0 && Refilled(w.t, v.t, LastSlot(w, a)) && Holds(At(v.t, LastSlot(w, a)), j, now)
    && v.packets == w.packets + j && v.limits == w.limits && v.intents == w.intents && v.parties == w.parties
    && v.log == w.log
  }

  lemma LoadOneMore(w: World, v: World, x: World, a: nat, j: nat, message: Message, now: nat)
    requires Loaded(w, v, a, j, now) && TakeDone(v, x, LastSlot(w, a), message, now) && message.kind == WriteCommand
    ensures Loaded(w, x, a, j + 1, now)
  {
    hide FreeSlot, PacketId, Holds;
    var r := LastSlot(w, a);
    var k, c := FreeSlot(At(v.t, r).buffers, message.kind).value, At(v.t, r);
    HoldsAre(c, j, now);
    HoldsOneMore(c, j, now, k, Packed(v, c, message, now));
  }

  lemma HoldsAre(c: Connection, j: nat, now: nat)
    requires Holds(c, j, now)
    ensures |c.buffers.unreliable| == NUM_UNRELIABLE
  {}

  lemma LoadedKeepsLink(w: World, v: World, a: nat, b: nat, link: nat, j: nat, now: nat)
    requires OnlyLink(w, a, b, link) && Loaded(w, v, a, j, now) && |v.taken| == |v.t|
    ensures OnlyLink(v, a, b, link) && LastSlot(v, a) == LastSlot(w, a)
  {
    forall n, k | 0 <= n < |w.t| && 0 <= k < |w.t[n]|
      ensures v.t[n][k].active == w.t[n][k].active
    {
      assert In(w.t, Ref(n, k)) && In(v.t, Ref(n, k));
      assert At(v.t, Ref(n, k)).active == At(w.t, Ref(n, k)).active;
    }
  }

  /** A node with an empty slot queues up to seven messages. */
  method Load(sim: CherrySim, a: nat, b: nat, link: nat, count: nat)
    requires Network(sim) && OnlyLink(sim.W(), a, b, link) && count <= NUM_UNRELIABLE
    requires At(sim.connections, LastSlot(sim.W(), a)).buffers == EMPTY
    modifies sim`connections, sim`packetCount, sim`taken
    ensures Network(sim) && OnlyLink(sim.W(), a, b, link)
    ensures Loaded(old(sim.W()), sim.W(), a, count, sim.simTimeMs)
  {
    hide Sound, Unread, OnlyLink, TakeDone, Holds, Loaded;
    ghost var w := sim.W();
    OnlyLinkSizes(w, a, b, link);
    EmptyHolds(At(sim.connections, LastSlot(w, a)), sim.simTimeMs);
    NothingLoaded(w, a, sim.simTimeMs);
    for j := 0 to count
      invariant Network(sim) && OnlyLink(sim.W(), a, b, link)
      invariant Loaded(w, sim.W(), a, j, sim.simTimeMs)
    {
      ghost var v := sim.W();
      SoundSizes(v);
      LoadedKeepsLink(w, v, a, b, link, j, sim.simTimeMs);
      LoadedHolds(w, v, a, j, sim.simTimeMs);
      RoomForOne(At(v.t, LastSlot(w, a)), j, sim.simTimeMs);
      Queue(sim, a, b, link, 0, []);
      LoadOneMore(w, v, sim.W(), a, j, Message(WriteCommand, 0, []), sim.simTimeMs);
      SoundSizes(sim.W());
      LoadedKeepsLink(w, sim.W(), a, b, link, j + 1, sim.simTimeMs);
    }
  }

  lemma OnlyLinkSizes(w: World, a: nat, b: nat, link: nat)
    requires OnlyLink(w, a, b, link)
    ensures a != b && a < |w.t| && b < |w.t| && |w.t[a]| > 0 && |w.t[b]| > 0
    ensures At(w.t, LastSlot(w, a)).active && At(w.t, LastSlot(w, a)).partner == b
    ensures |w.log| == |w.taken| == |w.t|
  {}

  lemma NothingLoaded(w: World, a: nat, now: nat)
    requires a < |w.t| && |w.t[a]| > 0 && Holds(At(w.t, LastSlot(w, a)), 0, now)
    ensures Loaded(w, w, a, 0, now)
  {}

  lemma LoadedHolds(w: World, v: World, a: nat, j: nat, now: nat)
    requires Loaded(w, v, a, j, now)
    ensures In(v.t, LastSlot(w, a)) && Holds(At(v.t, LastSlot(w, a)), j, now)
    ensures v.packets == w.packets + j
  {}

  lemma OrderlyAt(w: World, r: Ref)
    requires Sound(w) && In(w.t, r) && w.packets <= UINT32_MAX
    ensures At(w.t, r).buffers.Valid() && PacketBuffers.Orderly(At(w.t, r).buffers.Slots())
  {
    SoundBuffers(w, r);
  }

  lemma HeldIsUnreliable(b: Buffers, p: Packet)
    requires b.Valid() && b.reliable.None? && PacketBuffers.Orderly(b.Slots()) && p in Drain(b.Slots())
    ensures !p.Reliable()
  {
    DrainIsContents(b.Slots());
    hide Drain;
    var k :| 0 <= k < NUM_SLOTS && b.Slots()[k] == Some(p);
    assert b.unreliable[k - 1] == Some(p);
  }

  lemma HeldIsFresh(c: Connection, j: nat, now: nat)
    requires Holds(c, j, now)
    ensures !Stale(c, now)
  {
    hide Occupied;
  }

  /** What a slot holds leaves, all of it. */
  lemma HeldDrains(b: Buffers, j: nat)
    requires b.Valid() && b.reliable.None? && PacketBuffers.Orderly(b.Slots()) && Occupied(b.Slots()) == j
    ensures |Drain(b.Slots())| == j && forall i | 0 <= i < j :: !Drain(b.Slots())[i].Reliable()
  {
    DrainLength(b.Slots());
    var q := Drain(b.Slots());
    hide Drain;
    forall i | 0 <= i < j
      ensures !q[i].Reliable()
    {
      HeldIsUnreliable(b, q[i]);
    }
  }

  lemma HeldLeaves(w: World, r: Ref, j: nat, now: nat)
    requires Sound(w) && In(w.t, r) && Holds(At(w.t, r), j, now) && w.packets <= UINT32_MAX
    ensures |Waiting(w, r)| == j && (forall i | 0 <= i < j :: !Waiting(w, r)[i].Reliable())
  {
    OrderlyAt(w, r);
    hide Sound, Occupied, Drain, Orderly;
    HeldDrains(At(w.t, r).buffers, j);
  }

  lemma NothingToDrain(b: Buffers)
    requires |b.unreliable| == NUM_UNRELIABLE && PacketBuffers.Orderly(b.Slots()) && Drain(b.Slots()) == []
    ensures b == EMPTY
  {
    LowestIsMinimum(b.Slots(), NUM_SLOTS);
    assert b.Slots()[0] == b.reliable;
    forall k | 0 <= k < NUM_UNRELIABLE
      ensures b.unreliable[k] == None
    {
      assert b.Slots()[k + 1] == b.unreliable[k];
    }
    assert b.unreliable == EMPTY.unreliable;
  }

  /** A slot with nothing to send is empty. */
  lemma DrainedIsEmpty(w: World, r: Ref)
    requires Sound(w) && In(w.t, r) && Waiting(w, r) == [] && w.packets <= UINT32_MAX
    ensures At(w.t, r).buffers == EMPTY
  {
    OrderlyAt(w, r);
    hide Sound, Drain, Orderly;
    NothingToDrain(At(w.t, r).buffers);
  }

  // ---------- Rounds ----------

  /** An end of a link with the parameters of these runs, its last event not after the given time. */
  ghost predicate Tuned(c: Connection, time: int) {
    && c.active && c.interval == 7 && c.supervisionTimeout == 4000 && c.mtu == GATT_MTU_SIZE_DEFAULT
    && c.lastEvent <= time
  }

  /** A time at which none of the sums the simulator computes overflows. */
  predicate InTime(now: nat) {
    now + 4000 < 0x1_0000_0000
  }

  lemma EventIsDue(c: Connection, now: nat)
    requires Tuned(c, now - 10) && InTime(now)
    ensures Due(c, now) && !Lost(Started(c, now, now, true), now)
  {}

  lemma EventIsBurst(w: World, v: World, r: Ref, now: nat, draw: nat)
    requires EventDone(w, v, r, now, now, draw, true)
    requires Due(At(w.t, r), now) && !Stale(At(w.t, r), now) && !Lost(Started(At(w.t, r), now, now, true), now)
    requires CountLinks(w.t[r.node]) == 1 && draw <= NUM_UNRELIABLE
    ensures BurstDone(w.(t := Put(w.t, r, Started(At(w.t, r), now, now, true))), v, r, draw)
  {
    hide CutDone, BurstDone, Due, Stale, Lost, CountLinks;
  }

  /** Everything but the buffers of one slot is as it was after the event had started. */
  ghost predicate Flushed(w: World, v: World, r: Ref, now: nat) {
    && In(w.t, r) && Refilled(Put(w.t, r, Started(At(w.t, r), now, now, true)), v.t, r)
    && v == w.(t := v.t, log := v.log) && |v.log| == |w.log|
  }

  lemma BurstOfAll(w: World, v: World, r: Ref, now: nat, budget: nat)
    requires In(w.t, r)
    requires var u := w.(t := Put(w.t, r, Started(At(w.t, r), now, now, true))); BurstDone(u, v, r, budget)
    requires |Waiting(w, r)| <= budget && forall i | 0 <= i < |Waiting(w, r)| :: !Waiting(w, r)[i].Reliable()
    ensures Flushed(w, v, r, now) && Waiting(v, r) == []
  {
    hide Drain, Burst, Acks;
    var u := w.(t := Put(w.t, r, Started(At(w.t, r), now, now, true)));
    assert Waiting(u, r) == Waiting(w, r);
    BurstStops(Waiting(w, r), budget, |Waiting(w, r)|);
  }

  /** A loaded slot whose event is due sends all it has. */
  lemma SendsAll(w: World, v: World, r: Ref, j: nat, now: nat)
    requires Sound(w) && Sound(v) && In(w.t, r) && Holds(At(w.t, r), j, now) && j <= NUM_UNRELIABLE
    requires Tuned(At(w.t, r), now - 10) && InTime(now) && w.packets <= UINT32_MAX
    requires CountLinks(w.t[r.node]) == 1 && EventDone(w, v, r, now, now, NUM_UNRELIABLE, true)
    ensures Flushed(w, v, r, now) && In(v.t, r) && At(v.t, r).buffers == EMPTY
  {
    hide Sound, Holds, EventDone, Stale, Due, Lost, BurstDone, Drain, CountLinks;
    EventIsDue(At(w.t, r), now);
    HeldIsFresh(At(w.t, r), j, now);
    HeldLeaves(w, r, j, now);
    EventIsBurst(w, v, r, now, NUM_UNRELIABLE);
    BurstOfAll(w, v, r, now, NUM_UNRELIABLE);
    DrainedIsEmpty(v, r);
  }

  lemma OneLink(w: World, a: nat, b: nat, link: nat)
    requires OnlyLink(w, a, b, link)
    ensures CountLinks(w.t[a]) == 1
  {
    var row := w.t[a];
    NoLinks(row[..|row| - 1]);
  }

  lemma {:induction false} NoLinks(row: Row)
    requires forall k | 0 <= k < |row| :: !row[k].active
    ensures CountLinks(row) == 0
    decreases |row|
  {
    if row != [] {
      NoLinks(row[..|row| - 1]);
    }
  }

  lemma FlushedKeepsLink(w: World, v: World, a: nat, b: nat, link: nat, now: nat)
    requires OnlyLink(w, a, b, link) && Flushed(w, v, LastSlot(w, a), now)
    ensures OnlyLink(v, a, b, link) && LastSlot(v, a) == LastSlot(w, a) && LastSlot(v, b) == LastSlot(w, b)
  {
    forall n, k | 0 <= n < |w.t| && 0 <= k < |w.t[n]|
      ensures v.t[n][k].active == w.t[n][k].active
    {
      assert In(w.t, Ref(n, k)) && In(v.t, Ref(n, k));
      assert At(v.t, Ref(n, k)).active == At(w.t, Ref(n, k)).active;
    }
  }

  /** What a round leaves at the end of node a: nothing buffered, the last event just now; the other slots are as they
      were. */
  ghost predicate Served(w: World, v: World, a: nat, count: nat, now: nat) {
    && a < |w.t| && |w.t[a]| > 0 && v.packets == w.packets + count && |v.t| == |w.t| && Reshaped(w.t, v.t)
    && var r := LastSlot(w, a);
       && At(v.t, r) == At(w.t, r).(lastEvent := now, lastReceived := now)
       && forall q | In(w.t, q) && q != r :: At(v.t, q) == At(w.t, q)
  }

  lemma LoadedAndFlushed(w: World, u: World, v: World, a: nat, count: nat, now: nat)
    requires Loaded(w, u, a, count, now) && Flushed(u, v, LastSlot(w, a), now)
    requires At(w.t, LastSlot(w, a)).buffers == EMPTY == At(v.t, LastSlot(w, a)).buffers
    ensures Served(w, v, a, count, now)
  {
    hide Holds;
    var r := LastSlot(w, a);
    forall q | In(w.t, q) && q != r
      ensures At(v.t, q) == At(w.t, q)
    {
      assert In(u.t, q);
    }
  }

  /** A node queues up to seven messages and sends them all in its next connection event. */
  method Serve(sim: CherrySim, a: nat, b: nat, link: nat, count: nat)
    requires Network(sim) && OnlyLink(sim.W(), a, b, link) && count <= NUM_UNRELIABLE
    requires At(sim.connections, LastSlot(sim.W(), a)).buffers == EMPTY
    requires Tuned(At(sim.connections, LastSlot(sim.W(), a)), sim.simTimeMs - 10) && InTime(sim.simTimeMs)
    requires a < |sim.gap| && sim.gap[a].timeMs == sim.simTimeMs && sim.packetCount + count <= UINT32_MAX
    modifies sim`connections, sim`packetCount, sim`taken, sim`queues, sim`log
    ensures Network(sim) && OnlyLink(sim.W(), a, b, link)
    ensures Served(old(sim.W()), sim.W(), a, count, sim.simTimeMs)
  {
    hide Sound, Unread, OnlyLink, Holds, Loaded, EventDone, Flushed;
    ghost var w := sim.W();
    OnlyLinkSizes(w, a, b, link);
    Load(sim, a, b, link, count);
    ghost var u, r := sim.W(), LastSlot(w, a);
    LoadedHolds(w, u, a, count, sim.simTimeMs);
    LoadedTuned(w, u, a, count, sim.simTimeMs);
    OneLink(u, a, b, link);
    Meet(sim, a, b, link, NUM_UNRELIABLE);
    SendsAll(u, sim.W(), r, count, sim.simTimeMs);
    FlushedKeepsLink(u, sim.W(), a, b, link, sim.simTimeMs);
    LoadedAndFlushed(w, u, sim.W(), a, count, sim.simTimeMs);
  }

  lemma LoadedTuned(w: World, v: World, a: nat, j: nat, now: nat)
    requires Loaded(w, v, a, j, now) && Tuned(At(w.t, LastSlot(w, a)), now - 10)
    ensures In(v.t, LastSlot(w, a)) && Tuned(At(v.t, LastSlot(w, a)), now - 10) && LastSlot(v, a) == LastSlot(w, a)
  {}

  /** A link between the two nodes, idle at both ends, whose last events are not after the given time. */
  ghost predicate Steady(w: World, link: nat, time: int) {
    && OnlyLink(w, 0, 1, link) && LastSlot(w, 0) == Ref(0, 1) && LastSlot(w, 1) == Ref(1, 1)
    && Tuned(At(w.t, Ref(0, 1)), time) && At(w.t, Ref(0, 1)).buffers == EMPTY
    && Tuned(At(w.t, Ref(1, 1)), time) && At(w.t, Ref(1, 1)).buffers == EMPTY
  }

  /** All clocks show the same time. */
  ghost predicate InStep(sim: CherrySim)
    reads sim
  {
    |sim.gap| == 2 && sim.gap[0].timeMs == sim.gap[1].timeMs == sim.simTimeMs
  }

  /** Ten milliseconds pass. */
  method Tick(sim: CherrySim)
    requires Network(sim) && InStep(sim) && InTime(sim.simTimeMs + 10)
    modifies sim`simTimeMs, sim`gap
    ensures Network(sim) && InStep(sim) && sim.simTimeMs == old(sim.simTimeMs) + 10
    ensures sim.W() == old(sim.W()).(intents := sim.W().intents)
  {
    hide Sound, Unread;
    sim.Tick(10);
    sim.TickNode(0, 10);
    sim.TickNode(1, 10);
  }

  lemma ServedBoth(w: World, u: World, v: World, link: nat, count: nat, count': nat, now: nat)
    requires Steady(w, link, now - 10) && Served(w, u, 0, count, now) && Served(u, v, 1, count', now)
    requires OnlyLink(v, 0, 1, link)
    ensures Steady(v, link, now) && v.packets == w.packets + count + count'
  {}

  lemma ServedOne(w: World, u: World, link: nat, count: nat, now: nat)
    requires Steady(w, link, now - 10) && Served(w, u, 0, count, now)
    ensures 1 < |u.t| && |u.t[1]| > 0 && LastSlot(u, 1) == Ref(1, 1)
    ensures Tuned(At(u.t, Ref(1, 1)), now - 10) && At(u.t, Ref(1, 1)).buffers == EMPTY && u.packets == w.packets + count
  {}

  lemma LaterSteady(w: World, v: World, link: nat, time: int)
    requires Steady(w, link, time) && v == w.(intents := v.intents) && |v.intents| == |w.intents|
    ensures Steady(v, link, time)
  {}

  lemma SteadyFacts(w: World, link: nat, time: int)
    requires Steady(w, link, time)
    ensures OnlyLink(w, 0, 1, link) && OnlyLink(w, 1, 0, link) && |w.t| > 1 && |w.t[0]| == 2 == |w.t[1]|
    ensures Tuned(At(w.t, Ref(0, 1)), time) && At(w.t, Ref(0, 1)).buffers == EMPTY
    ensures Tuned(At(w.t, Ref(1, 1)), time) && At(w.t, Ref(1, 1)).buffers == EMPTY
  {}

  /** A round: ten milliseconds pass, and both nodes send what they queue. */
  method Round(sim: CherrySim, link: nat, count: nat, count': nat)
    requires Network(sim) && InStep(sim) && InTime(sim.simTimeMs + 10) && Steady(sim.W(), link, sim.simTimeMs)
    requires count <= NUM_UNRELIABLE && count' <= NUM_UNRELIABLE && sim.packetCount + count + count' <= UINT32_MAX
    modifies sim`simTimeMs, sim`gap, sim`connections, sim`packetCount, sim`taken, sim`queues, sim`log
    ensures Network(sim) && InStep(sim) && sim.simTimeMs == old(sim.simTimeMs) + 10
    ensures Steady(sim.W(), link, sim.simTimeMs) && sim.packetCount == old(sim.packetCount) + count + count'
  {
    hide Sound, Unread, OnlyLink, Steady, Tuned, Served;
    ghost var w0 := sim.W();
    SoundSizes(w0);
    Tick(sim);
    ghost var w := sim.W();
    SoundSizes(w);
    LaterSteady(w0, w, link, sim.simTimeMs - 10);
    SteadyFacts(w, link, sim.simTimeMs - 10);
    Serve(sim, 0, 1, link, count);
    ghost var u := sim.W();
    ServedOne(w, u, link, count, sim.simTimeMs);
    OnlySlotActive(u, 0, 1, link);
    Serve(sim, 1, 0, link, count');
    OnlySlotActive(sim.W(), 1, 0, link);
    ServedBoth(w, u, sim.W(), link, count, count', sim.simTimeMs);
  }

  function Least(a: nat, b: nat): nat {
    if a < b then a else b
  }

  /** Rounds until so many packets have been sent. That takes less than 2^32 milliseconds. */
  method RunDown(sim: CherrySim, link: nat, target: nat)
    requires Network(sim) && InStep(sim) && Steady(sim.W(), link, sim.simTimeMs)
    requires sim.simTimeMs == 0 == sim.packetCount && target < UINT32_MAX
    modifies sim`simTimeMs, sim`gap, sim`connections, sim`packetCount, sim`taken, sim`queues, sim`log
    ensures Network(sim) && InStep(sim) && Steady(sim.W(), link, sim.simTimeMs)
    ensures sim.packetCount == target && InTime(sim.simTimeMs + 10)
  {
    hide Sound, Unread, Steady;
    while sim.packetCount < target
      invariant Network(sim) && InStep(sim) && Steady(sim.W(), link, sim.simTimeMs)
      invariant sim.packetCount <= target && 7 * sim.simTimeMs <= 5 * sim.packetCount + 70
      invariant sim.packetCount < target ==> 7 * sim.simTimeMs <= 5 * sim.packetCount
      decreases target - sim.packetCount
    {
      var count := Least(NUM_UNRELIABLE, target - sim.packetCount);
      Round(sim, link, count, Least(NUM_UNRELIABLE, target - sim.packetCount - count));
    }
  }

  lemma LinkUpIsSteady(w: World, v: World, peer: nat)
    requires LinkUp(w, v, 0, 1, 7, 4000, 0, peer) && OnlyLink(v, 0, 1, |v.parties|)
    requires |w.t[0]| == 2 == |w.t[1]| && At(w.t, Ref(0, 1)) == DEFAULT == At(w.t, Ref(1, 1))
    ensures Steady(v, |v.parties|, 0)
  {}

  /** Two nodes with a link over which all packets but the last two before the wrap have gone. */
  method IdsRunOut() returns (sim: CherrySim)
    ensures fresh(sim) && Network(sim) && InStep(sim) && Steady(sim.W(), 1, sim.simTimeMs)
    ensures sim.packetCount == UINT32_MAX - 1 && InTime(sim.simTimeMs + 10)
  {
    hide Sound, Unread, Steady, OnlyLink, LinkUp, Quiet;
    sim := Begin(2);
    ghost var w := sim.W();
    assert In(sim.connections, Ref(0, 1)) && In(sim.connections, Ref(1, 1));
    OpenLink(sim, 0, 1, PARAMS);
    SoundSizes(sim.W());
    LinkUpFacts(w, sim.W(), 0, 1, 7, 4000, 0, sim.addresses[1]);
    LinkUpIsOnly(w, sim.W(), 0, 1, 7, 4000, 0, sim.addresses[1]);
    LinkUpIsSteady(w, sim.W(), sim.addresses[1]);
    RunDown(sim, 1, UINT32_MAX - 1);
  }

  lemma TakeKeepsLink(w: World, v: World, r: Ref, message: Message, now: nat, a: nat, b: nat, link: nat)
    requires OnlyLink(w, a, b, link) && TakeDone(w, v, r, message, now)
    ensures OnlyLink(v, a, b, link) && LastSlot(v, a) == LastSlot(w, a) && LastSlot(v, b) == LastSlot(w, b)
  {
    hide FreeSlot, PacketId;
    forall n, k | 0 <= n < |w.t| && 0 <= k < |w.t[n]|
      ensures v.t[n][k].active == w.t[n][k].active
    {
      assert In(w.t, Ref(n, k)) && In(v.t, Ref(n, k));
      assert At(v.t, Ref(n, k)).active == At(w.t, Ref(n, k)).active;
    }
  }

  lemma FirstBuffer()
    ensures FreeSlot(EMPTY, WriteCommand) == Some(1)
  {
    assert EMPTY.unreliable[0].None?;
  }

  lemma SecondBuffer(p: Packet)
    ensures FreeSlot(EMPTY.With(1, Some(p)), WriteCommand) == Some(2)
  {
    var s := EMPTY.With(1, Some(p)).unreliable;
    assert s[0].Some? && s[1].None?;
  }

  /** What a message does that is queued on an empty slot, */
  lemma TakenFirst(w: World, v: World, r: Ref, message: Message, now: nat)
    requires TakeDone(w, v, r, message, now) && message.kind == WriteCommand && At(w.t, r).buffers == EMPTY
    ensures v == Took(w, r, 1, message, now)
    ensures v.t == Put(w.t, r, At(w.t, r).(buffers := EMPTY.With(1, Some(Packed(w, At(w.t, r), message, now)))))
  {
    FirstBuffer();
  }

  /** and on one that holds one message. */
  lemma TakenSecond(w: World, v: World, r: Ref, p: Packet, message: Message, now: nat)
    requires TakeDone(w, v, r, message, now) && message.kind == WriteCommand
    requires At(w.t, r).buffers == EMPTY.With(1, Some(p))
    ensures v == Took(w, r, 2, message, now)
    ensures var q := Packed(w, At(w.t, r), message, now);
            v.t == Put(w.t, r, At(w.t, r).(buffers := EMPTY.With(1, Some(p)).With(2, Some(q))))
  {
    SecondBuffer(p);
  }

  /** A message that is the last but one before the wrap, one at the other end that gets the highest id, and one that
      gets id 0. */
  ghost predicate AcrossWrap(w: World, v: World, older: Message, newer: Message, now: nat) {
    && In(w.t, Ref(0, 1)) && In(w.t, Ref(1, 1)) && Reshaped(w.t, v.t)
    && |w.taken| == |w.t| == |v.taken| && v.log == w.log
    && var c, d := At(w.t, Ref(0, 1)), At(w.t, Ref(1, 1));
       && At(v.t, Ref(0, 1)) == c.(buffers := EMPTY.With(1, Some(Packet(UINT32_MAX - 1, c.link, c.partner, now, older)))
                                                   .With(2, Some(Packet(0, c.link, c.partner, now, newer))))
       && At(v.t, Ref(1, 1)) == d.(buffers := EMPTY.With(1, Some(Packet(UINT32_MAX, d.link, d.partner, now, FILLER))))
       && v.taken[0] == w.taken[0] + [Taken(c.link, older)] + [Taken(c.link, newer)]
  }

  const FILLER: Message := Message(WriteCommand, 0, [])

  lemma QueuedAcrossWrap(w: World, w1: World, w2: World, w3: World, older: Message, newer: Message, now: nat)
    requires In(w.t, Ref(0, 1)) && In(w.t, Ref(1, 1)) && |w.taken| == |w.t| && w.packets == UINT32_MAX - 1
    requires At(w.t, Ref(0, 1)).buffers == EMPTY == At(w.t, Ref(1, 1)).buffers
    requires TakeDone(w, w1, Ref(0, 1), older, now) && older.kind == WriteCommand
    requires TakeDone(w1, w2, Ref(1, 1), FILLER, now)
    requires TakeDone(w2, w3, Ref(0, 1), newer, now) && newer.kind == WriteCommand
    ensures AcrossWrap(w, w3, older, newer, now)
  {
    hide TakeDone, Refill;
    TakeDoneIn(w, w1, Ref(0, 1), older, now);
    TakeDoneIn(w1, w2, Ref(1, 1), FILLER, now);
    TakeDoneIn(w2, w3, Ref(0, 1), newer, now);
    TakenFirst(w, w1, Ref(0, 1), older, now);
    TakenFirst(w1, w2, Ref(1, 1), FILLER, now);
    TakenSecond(w2, w3, Ref(0, 1), Packed(w, At(w.t, Ref(0, 1)), older, now), newer, now);
  }

  lemma TakeDoneIn(w: World, v: World, r: Ref, message: Message, now: nat)
    requires TakeDone(w, v, r, message, now)
    ensures In(w.t, r) && In(v.t, r) && |At(w.t, r).buffers.unreliable| == NUM_UNRELIABLE && r.node < |w.taken|
    ensures FreeSlot(At(w.t, r).buffers, message.kind).Some?
  {}

  lemma TwoBuffered(p: Packet, q: Packet)
    requires q.id < p.id < UINT32_MAX
    ensures NextSlot(EMPTY.With(1, Some(p)).With(2, Some(q))) == Some(2)
    ensures var s := EMPTY.With(1, Some(p)).With(2, Some(q)).Slots();
            s[2] == Some(q) && |Drain(s)| > 0 && Drain(s)[0] == q
  {
    var s := EMPTY.With(1, Some(p)).With(2, Some(q)).Slots();
    assert s[1].Some? && s[2].Some?;
    LowestIsMinimum(s, NUM_SLOTS);
  }

  /** The later message leaves first. */
  lemma SentOutOfOrder(w: World, v: World, r: Ref, p: Packet, q: Packet, now: nat)
    requires In(w.t, r) && At(w.t, r).buffers == EMPTY.With(1, Some(p)).With(2, Some(q)) && q.id < p.id < UINT32_MAX
    requires BurstDone(w.(t := Put(w.t, r, Started(At(w.t, r), now, now, true))), v, r, 1)
    ensures |v.log| == |w.log| && v.taken == w.taken && At(w.t, r).partner < |w.log|
    ensures var c := At(w.t, r); v.log[c.partner] == w.log[c.partner] + [Received(c.link, q.message)]
    ensures Refilled(Put(w.t, r, Started(At(w.t, r), now, now, true)), v.t, r)
  {
    TwoBuffered(p, q);
    hide Drain, Acks;
    var u := w.(t := Put(w.t, r, Started(At(w.t, r), now, now, true)));
    var queue := Waiting(u, r);
    assert Burst(queue, 1) == 1;
    assert queue[..1] == [q];
    assert Arrivals(At(w.t, r).link, queue[..1]) == [Received(At(w.t, r).link, q.message)];
  }

  lemma TwoNotStale(c: Connection, p: Packet, q: Packet, now: nat)
    requires c.buffers == EMPTY.With(1, Some(p)).With(2, Some(q)) && q.id < p.id < UINT32_MAX && q.queuedAt == now
    ensures !Stale(c, now)
  {
    TwoBuffered(p, q);
  }

  lemma EmptyIsInOrder(w: World, r: Ref)
    requires Sound(w) && In(w.t, r) && At(w.t, r).active && At(w.t, r).buffers == EMPTY && InIdOrder(w.packets)
    requires r.node < |w.taken| && At(w.t, r).partner < |w.log|
    ensures Queued(w.taken[r.node], At(w.t, r).link) == Delivered(w.log[At(w.t, r).partner], At(w.t, r).link)
  {
    DeliveredOrBuffered(w, r);
    EmptyDrains();
  }

  /** What has arrived is all that was queued before two messages, and then only the second of them. */
  ghost predicate Overtaken(w: World, from: nat, to: nat, link: nat, older: Message, newer: Message) {
    && from < |w.taken| && to < |w.log|
    && var queued, arrived := Queued(w.taken[from], link), Delivered(w.log[to], link);
       && !(arrived <= queued)
       && exists before :: queued == before + [older, newer] && arrived == before + [newer]
  }

  lemma OvertakenIs(taken: seq<Taken>, log: seq<Event>, w: World, from: nat, to: nat, link: nat, older: Message,
                    newer: Message)
    requires from < |w.taken| && to < |w.log| && older != newer && Queued(taken, link) == Delivered(log, link)
    requires w.taken[from] == taken + [Taken(link, older)] + [Taken(link, newer)]
    requires w.log[to] == log + [Received(link, newer)]
    ensures Overtaken(w, from, to, link, older, newer)
  {
    var before := Queued(taken, link);
    QueuedAfter(taken, Taken(link, older), link);
    QueuedAfter(taken + [Taken(link, older)], Taken(link, newer), link);
    DeliveredAfter(log, Received(link, newer), link);
    var queued, arrived := Queued(w.taken[from], link), Delivered(w.log[to], link);
    assert queued == before + [older, newer];
    assert queued[|before|] == older && arrived[|before|] == newer;
  }

  /** A slot holds an unreliable packet with the highest id, which the scan overlooks. */
  ghost predicate Stuck(w: World, r: Ref, k: nat) {
    && In(w.t, r) && At(w.t, r).active && k < |At(w.t, r).buffers.unreliable|
    && At(w.t, r).buffers.unreliable[k].Some? && At(w.t, r).buffers.unreliable[k].value.id == UINT32_MAX
  }

  /** It stays there until the link is closed. */
  lemma StuckUntilClosed(w: World, v: World, r: Ref, k: nat)
    requires Sound(w) && Stuck(w, r, k) && Persists(w, v)
    requires At(v.t, r).active && At(v.t, r).link == At(w.t, r).link
    ensures Stuck(v, r, k) && At(v.t, r).buffers.unreliable[k] == At(w.t, r).buffers.unreliable[k]
  {
    assert NumberedAt(w.t, w.parties, r);
    hide Sound;
    assert Remains(At(w.t, r), At(v.t, r));
  }

  lemma OvertakenAcrossWrap(w: World, u: World, v: World, older: Message, newer: Message, now: nat)
    requires Sound(w) && Steady(w, 1, now - 10) && AcrossWrap(w, u, older, newer, now) && older != newer
    requires w.packets == UINT32_MAX - 1 && InTime(now) && OnlyLink(u, 0, 1, 1)
    requires EventDone(u, v, Ref(0, 1), now, now, 1, true)
    ensures Overtaken(v, 0, 1, 1, older, newer) && Stuck(v, Ref(1, 1), 0)
  {
    SoundSizes(w);
    EmptyIsInOrder(w, Ref(0, 1));
    OneLink(u, 0, 1, 1);
    var r, c := Ref(0, 1), At(u.t, Ref(0, 1));
    var p, q := Packet(UINT32_MAX - 1, c.link, c.partner, now, older), Packet(0, c.link, c.partner, now, newer);
    hide Sound, EventDone, BurstDone, Stale, Due, Lost, Overtaken, Queued, Delivered, CountLinks;
    TwoNotStale(c, p, q, now);
    EventIsDue(c, now);
    EventIsBurst(u, v, r, now, 1);
    SentOutOfOrder(u, v, r, p, q, now);
    OvertakenIs(w.taken[0], w.log[1], v, 0, 1, 1, older, newer);
  }

  /** Both slots after the first two of the three messages. */
  lemma RoomForNewer(w: World, w1: World, w2: World, older: Message, now: nat)
    requires In(w.t, Ref(0, 1)) && In(w.t, Ref(1, 1)) && older.kind == WriteCommand
    requires At(w.t, Ref(0, 1)).buffers == EMPTY == At(w.t, Ref(1, 1)).buffers
    requires TakeDone(w, w1, Ref(0, 1), older, now) && TakeDone(w1, w2, Ref(1, 1), FILLER, now)
    ensures In(w2.t, Ref(0, 1)) && At(w2.t, Ref(0, 1)).mtu == At(w.t, Ref(0, 1)).mtu
    ensures FreeSlot(At(w2.t, Ref(0, 1)).buffers, WriteCommand).Some?
  {
    hide TakeDone, Refill;
    TakeDoneIn(w, w1, Ref(0, 1), older, now);
    TakeDoneIn(w1, w2, Ref(1, 1), FILLER, now);
    TakenFirst(w, w1, Ref(0, 1), older, now);
    TakenFirst(w1, w2, Ref(1, 1), FILLER, now);
    SecondBuffer(Packed(w, At(w.t, Ref(0, 1)), older, now));
  }

  lemma RoomForFiller(w: World, w1: World, older: Message, now: nat)
    requires In(w.t, Ref(0, 1)) && In(w.t, Ref(1, 1)) && At(w.t, Ref(1, 1)).buffers == EMPTY
    requires TakeDone(w, w1, Ref(0, 1), older, now)
    ensures In(w1.t, Ref(1, 1)) && At(w1.t, Ref(1, 1)) == At(w.t, Ref(1, 1))
    ensures FreeSlot(At(w1.t, Ref(1, 1)).buffers, WriteCommand).Some?
  {
    FirstBuffer();
  }

  /** The two nodes queue the last two packets before the wrap and the first one after it. */
  method QueueAcrossWrap(sim: CherrySim, older: Message, newer: Message)
    requires Network(sim) && Steady(sim.W(), 1, sim.simTimeMs - 10) && sim.packetCount == UINT32_MAX - 1
    requires older.kind == WriteCommand == newer.kind
    requires |older.data| <= GATT_MTU_SIZE_DEFAULT && |newer.data| <= GATT_MTU_SIZE_DEFAULT
    modifies sim`connections, sim`packetCount, sim`taken
    ensures Network(sim) && OnlyLink(sim.W(), 0, 1, 1) && AcrossWrap(old(sim.W()), sim.W(), older, newer, sim.simTimeMs)
  {
    hide Sound, Unread, OnlyLink, TakeDone, AcrossWrap, FreeSlot, PacketId;
    ghost var w, now := sim.W(), sim.simTimeMs;
    SoundSizes(w);
    SteadyFacts(w, 1, now - 10);
    FirstBuffer();
    hide Steady;
    Queue(sim, 0, 1, 1, older.attribute, older.data);
    ghost var w1 := sim.W();
    TakeKeepsLink(w, w1, Ref(0, 1), older, now, 0, 1, 1);
    TakeKeepsLink(w, w1, Ref(0, 1), older, now, 1, 0, 1);
    RoomForFiller(w, w1, older, now);
    Queue(sim, 1, 0, 1, FILLER.attribute, FILLER.data);
    ghost var w2 := sim.W();
    TakeKeepsLink(w1, w2, Ref(1, 1), FILLER, now, 0, 1, 1);
    RoomForNewer(w, w1, w2, older, now);
    Queue(sim, 0, 1, 1, newer.attribute, newer.data);
    TakeKeepsLink(w2, sim.W(), Ref(0, 1), newer, now, 0, 1, 1);
    QueuedAcrossWrap(w, w1, w2, sim.W(), older, newer, now);
  }

  /** A run of the simulator in which a message overtakes one queued before it on the same link: the older one still
      waits when the newer one has arrived, so what has arrived is no prefix of what was queued. The message queued
      between them at the other end will never leave. */
  method NewerMessageOvertakes(older: Message, newer: Message) returns (sim: CherrySim)
    requires older != newer && older.kind == WriteCommand == newer.kind
    requires |older.data| <= GATT_MTU_SIZE_DEFAULT && |newer.data| <= GATT_MTU_SIZE_DEFAULT
    ensures fresh(sim) && sim.Valid() && Overtaken(sim.W(), 0, 1, 1, older, newer) && Stuck(sim.W(), Ref(1, 1), 0)
  {
    hide Sound, Unread, Steady, OnlyLink, EventDone, Overtaken, Stuck, AcrossWrap;
    sim := IdsRunOut();
    ghost var w0 := sim.W();
    SoundSizes(w0);
    Tick(sim);
    ghost var w := sim.W();
    SoundSizes(w);
    LaterSteady(w0, w, 1, sim.simTimeMs - 10);
    SteadyFacts(w, 1, sim.simTimeMs - 10);
    QueueAcrossWrap(sim, older, newer);
    ghost var u := sim.W();
    OnlyLinkSizes(u, 0, 1, 1);
    Meet(sim, 0, 1, 1, 1);
    OvertakenAcrossWrap(w, u, sim.W(), older, newer, sim.simTimeMs);
  }

  // ---------- Attempts to connect ----------

  /** An attempt to connect that nobody takes up is over from its deadline on, and not before. */
  method AttemptTimesOut(sim: CherrySim, n: nat, peer: nat, timeoutS: nat, params: ConnParams, ms: nat)
    returns (r: Result<(), Error>)
    requires sim.Valid() && n < |sim.connections|
    requires sim.simTimeMs + 1000 * timeoutS < 2147483648 && sim.simTimeMs + ms < 2147483648
    modifies sim
    ensures sim.Valid() && |sim.gap| == |old(sim.gap)| && n < |sim.gap|
    ensures r.Success? ==> (sim.gap[n].connecting <==> ms < 1000 * timeoutS)
  {
    hide Sound, Unread;
    r := sim.GapConnect(n, peer, timeoutS, params, false);
    if r.Success? {
      sim.Tick(ms);
      sim.SimulateTimeouts(n);
    }
  }
}
