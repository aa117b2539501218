/** What the nodes see of their links: the events pushed to each node, and the messages they carry. */
module LinkTraces {
  import opened Results
  import opened PacketBuffers
  import opened LinkTable

  /** The events of the simulated SoftDevice. A received message is a WRITE or an HVX event. */
  datatype Event =
    | Connected(link: nat, central: bool, peer: nat)
    | Disconnected(link: nat, reason: nat)
    | TxComplete(link: nat, count: nat)
    | WriteResponse(link: nat, id: nat)
    | Received(link: nat, message: Message)
    | ParamUpdate(link: nat, minInterval: nat, maxInterval: nat)
    | ParamUpdateRequest(link: nat, params: ConnParams)
    | RssiChanged(link: nat)
    | AdvReport(sender: nat)
    | ConnectTimeout
  {
    /** The number of the link the event is about, 0 when it is about none. */
    function About(): nat {
      if AdvReport? || ConnectTimeout? then 0 else link
    }

    function ConnHandle(): nat {
      if AdvReport? || ConnectTimeout? then BLE_CONN_HANDLE_INVALID else HandleOf(link)
    }

    predicate Opens() { Connected? }

    predicate Ends() { Disconnected? }
  }

  type Log = seq<seq<Event>>

  function Logged(log: Log, n: nat, e: Event): (l: Log)
    requires n < |log|
    ensures |l| == |log|
  {
    log[n := log[n] + [e]]
  }

  // ---------- The life of a link as one node sees it ----------

  datatype Phase = Unseen | Up | Down | Broken

  function Next(ph: Phase, e: Event): Phase {
    if e.Opens() then (if ph == Unseen then Up else Broken)
    else if e.Ends() then (if ph == Up then Down else Broken)
    else if ph == Up then Up else Broken
  }

  function PhaseOf(es: seq<Event>, link: nat): Phase {
    if es == [] then Unseen
    else
      var before := PhaseOf(es[..|es| - 1], link);
      if es[|es| - 1].About() == link then Next(before, es[|es| - 1]) else before
  }

  /** The events of a log about one link, and those with one handle. */
  function Only(es: seq<Event>, link: nat): seq<Event> {
    if es == [] then []
    else Only(es[..|es| - 1], link) + (if es[|es| - 1].About() == link then [es[|es| - 1]] else [])
  }

  function WithHandle(es: seq<Event>, handle: nat): seq<Event> {
    if es == [] then []
    else WithHandle(es[..|es| - 1], handle) + (if es[|es| - 1].ConnHandle() == handle then [es[|es| - 1]] else [])
  }

  /** One CONNECTED, then events that neither open nor end a link, then at most one DISCONNECTED. */
  ghost predicate Shaped(es: seq<Event>, ended: bool) {
    && |es| >= (if ended then 2 else 1)
    && es[0].Opens()
    && (ended ==> es[|es| - 1].Ends())
    && forall i | 0 < i < (if ended then |es| - 1 else |es|) :: !es[i].Opens() && !es[i].Ends()
  }

  lemma ShapeAfter(o: seq<Event>, e: Event)
    ensures Shaped(o + [e], false) <==> (o == [] && e.Opens()) || (Shaped(o, false) && !e.Opens() && !e.Ends())
    ensures Shaped(o + [e], true) <==> Shaped(o, false) && e.Ends()
  {
    var o' := o + [e];
    assert forall i | 0 <= i < |o| :: o[i] == o'[i];
    if o != [] && Shaped(o', false) {
      assert !o'[|o|].Opens() && !o'[|o|].Ends();
    }
  }

  /** The phase says which shape the events about a link have. */
  lemma {:induction false} PhaseIsShape(es: seq<Event>, link: nat)
    ensures PhaseOf(es, link) == Unseen <==> Only(es, link) == []
    ensures PhaseOf(es, link) == Up <==> Shaped(Only(es, link), false)
    ensures PhaseOf(es, link) == Down <==> Shaped(Only(es, link), true)
    decreases |es|
  {
    if es != [] {
      var before, e := es[..|es| - 1], es[|es| - 1];
      PhaseIsShape(before, link);
      ShapeAfter(Only(before, link), e);
      hide Shaped;
      assert PhaseOf(es, link) == if e.About() == link then Next(PhaseOf(before, link), e) else PhaseOf(before, link);
      assert Only(es, link) == if e.About() == link then Only(before, link) + [e] else Only(before, link);
    }
  }

  // ---------- Links and logs agree ----------

  ghost predicate Live(row: Row, link: nat) {
    exists k :: 0 <= k < |row| && row[k].active && row[k].link == link
  }

  ghost predicate TracedAt(row: Row, es: seq<Event>, total: nat, link: nat) {
    && PhaseOf(es, link) != Broken
    && (link > total ==> PhaseOf(es, link) == Unseen)
    && (PhaseOf(es, link) == Up <==> Live(row, link))
  }

  /** On every node and for every link: the log is well shaped, and it says the link is up exactly when the
      node has an active slot for it. */
  ghost predicate Traced(t: Table, log: Log, total: nat) {
    && |log| == |t|
    && forall n, link | 0 <= n < |t| && link > 0 :: TracedAt(t[n], log[n], total, link)
  }

  lemma PhaseAfter(es: seq<Event>, e: Event, link: nat)
    ensures PhaseOf(es + [e], link) == if e.About() == link then Next(PhaseOf(es, link), e) else PhaseOf(es, link)
  {
    assert (es + [e])[..|es + [e]| - 1] == es;
  }

  lemma ActiveIsLive(t: Table, r: Ref)
    requires In(t, r) && At(t, r).active
    ensures Live(t[r.node], At(t, r).link)
  {
    assert t[r.node][r.slot].active;
  }

  /** An event about no link, or about a link that is up on the node, keeps logs and links in step. */
  lemma PushKeepsTraces(t: Table, log: Log, total: nat, n: nat, e: Event)
    requires Traced(t, log, total) && n < |t|
    requires !e.Opens() && !e.Ends()
    requires e.About() == 0 || Live(t[n], e.About())
    ensures Traced(t, Logged(log, n, e), total)
  {
    var log' := Logged(log, n, e);
    forall m, link | 0 <= m < |t| && link > 0
      ensures TracedAt(t[m], log'[m], total, link)
    {
      assert TracedAt(t[m], log[m], total, link);
      PhaseAfter(log[n], e, link);
    }
  }

  lemma SameLinksKeepsTraces(t: Table, u: Table, log: Log, total: nat)
    requires Traced(t, log, total) && SameLinks(t, u)
    ensures Traced(u, log, total)
  {
    forall m, link | 0 <= m < |u| && link > 0
      ensures TracedAt(u[m], log[m], total, link)
    {
      assert TracedAt(t[m], log[m], total, link);
      if Live(t[m], link) {
        var k :| 0 <= k < |t[m]| && t[m][k].active && t[m][k].link == link;
        assert SameEnd(At(t, Ref(m, k)), At(u, Ref(m, k)));
        assert u[m][k].active;
      }
      if Live(u[m], link) {
        var k :| 0 <= k < |u[m]| && u[m][k].active && u[m][k].link == link;
        assert In(t, Ref(m, k));
        assert SameEnd(At(t, Ref(m, k)), At(u, Ref(m, k)));
        assert t[m][k].active;
      }
    }
  }

  lemma LiveAfter(row: Row, k: nat, c: Connection, link: nat)
    requires k < |row| && !row[k].active
    ensures Live(row[k := c], link) <==> Live(row, link) || (c.active && c.link == link)
  {
    var row' := row[k := c];
    if Live(row, link) {
      var j :| 0 <= j < |row| && row[j].active && row[j].link == link;
      assert row'[j] == row[j];
    }
    if c.active && c.link == link {
      assert row'[k].active;
    }
    if Live(row', link) {
      var j :| 0 <= j < |row| && row'[j].active && row'[j].link == link;
      if j != k {
        assert row[j].active;
      }
    }
  }

  lemma OpenKeepsTraces(t: Table, log: Log, total: nat, slave: Ref, master: Ref, interval: nat, timeout: nat,
                        now: nat, first: Event, second: Event)
    requires Traced(t, log, total) && In(t, slave) && In(t, master) && slave.node != master.node
    requires !At(t, slave).active && !At(t, master).active
    requires first.Opens() && second.Opens() && first.About() == total + 1 == second.About()
    ensures Traced(Open(t, slave, master, total + 1, interval, timeout, now),
                   Logged(Logged(log, slave.node, first), master.node, second), total + 1)
  {
    var total' := total + 1;
    var u := Open(t, slave, master, total', interval, timeout, now);
    var log' := Logged(Logged(log, slave.node, first), master.node, second);
    assert u[slave.node] == t[slave.node][slave.slot := At(u, slave)];
    assert u[master.node] == t[master.node][master.slot := At(u, master)];
    forall n, link | 0 <= n < |u| && link > 0
      ensures TracedAt(u[n], log'[n], total', link)
    {
      assert TracedAt(t[n], log[n], total, link);
      PhaseAfter(log[slave.node], first, link);
      PhaseAfter(log[master.node], second, link);
      LiveAfter(t[slave.node], slave.slot, At(u, slave), link);
      LiveAfter(t[master.node], master.slot, At(u, master), link);
    }
  }

  lemma LiveBefore(row: Row, k: nat, c: Connection, link: nat)
    requires k < |row| && row[k].active && !c.active
    requires forall j | 0 <= j < |row| && j != k && row[j].active :: row[j].link != row[k].link
    ensures Live(row[k := c], link) <==> Live(row, link) && link != row[k].link
  {
    var row' := row[k := c];
    if Live(row, link) && link != row[k].link {
      var j :| 0 <= j < |row| && row[j].active && row[j].link == link;
      assert row'[j] == row[j];
    }
    if Live(row', link) {
      var j :| 0 <= j < |row| && row'[j].active && row'[j].link == link;
      assert j != k;
      assert row[j].active;
    }
  }

  lemma OneSlotPerLink(t: Table, parties: seq<Parties>, r: Ref, j: nat)
    requires Paired(t) && Numbered(t, parties) && In(t, r) && At(t, r).active
    requires j < |t[r.node]| && j != r.slot && t[r.node][j].active
    ensures t[r.node][j].link != At(t, r).link
  {
    var q := Ref(r.node, j);
    assert In(t, q) && At(t, q).active;
    assert PairedAt(t, r);
    if At(t, q).link == At(t, r).link {
      LinkNamesOnePair(t, parties, r, q);
    }
  }

  lemma CloseKeepsTraces(t: Table, log: Log, parties: seq<Parties>, r: Ref, p: Ref, first: Event, second: Event)
    requires Paired(t) && Numbered(t, parties) && Traced(t, log, |parties|)
    requires In(t, r) && In(t, p) && LinkTable.Ends(r, At(t, r), p, At(t, p))
    requires first.Ends() && second.Ends() && first.About() == At(t, r).link == second.About()
    ensures Traced(Close(t, r, p), Logged(Logged(log, r.node, first), p.node, second), |parties|)
  {
    var u := Close(t, r, p);
    var log' := Logged(Logged(log, r.node, first), p.node, second);
    assert NumberedAt(t, parties, r);
    assert PairedAt(t, p);
    assert u[r.node] == t[r.node][r.slot := Closed(At(t, r))];
    assert u[p.node] == t[p.node][p.slot := Closed(At(t, p))];
    forall j | 0 <= j < |t[r.node]| && j != r.slot && t[r.node][j].active
      ensures t[r.node][j].link != At(t, r).link
    {
      OneSlotPerLink(t, parties, r, j);
    }
    forall j | 0 <= j < |t[p.node]| && j != p.slot && t[p.node][j].active
      ensures t[p.node][j].link != At(t, p).link
    {
      OneSlotPerLink(t, parties, p, j);
    }
    ActiveIsLive(t, r);
    ActiveIsLive(t, p);
    forall n, link | 0 <= n < |u| && link > 0
      ensures TracedAt(u[n], log'[n], |parties|, link)
    {
      assert TracedAt(t[n], log[n], |parties|, link);
      PhaseAfter(log[r.node], first, link);
      PhaseAfter(log[p.node], second, link);
      LiveBefore(t[r.node], r.slot, Closed(At(t, r)), link);
      LiveBefore(t[p.node], p.slot, Closed(At(t, p)), link);
    }
  }

  // ---------- By handle ----------

  /** No events, or the story of one link. */
  ghost predicate Proper(es: seq<Event>) {
    es == [] || Shaped(es, false) || Shaped(es, true)
  }

  /** Of all links that share a handle, at most one has left events in the log. */
  ghost predicate OneLinkPerHandle(es: seq<Event>, handle: nat) {
    forall a: nat, b: nat | 0 < a < b && HandleOf(a) == handle && HandleOf(b) == handle ::
      Only(es, a) == [] || Only(es, b) == []
  }

  lemma {:induction false} EventsOfLink(es: seq<Event>, link: nat, e: Event)
    ensures e in Only(es, link) <==> e in es && e.About() == link
    decreases |es|
  {
    if es != [] {
      EventsOfLink(es[..|es| - 1], link, e);
      assert es == es[..|es| - 1] + [es[|es| - 1]];
    }
  }

  lemma {:induction false} EventsOfHandle(es: seq<Event>, handle: nat, e: Event)
    ensures e in WithHandle(es, handle) <==> e in es && e.ConnHandle() == handle
    decreases |es|
  {
    if es != [] {
      EventsOfHandle(es[..|es| - 1], handle, e);
      assert es == es[..|es| - 1] + [es[|es| - 1]];
    }
  }

  lemma {:induction false} HandleOfOneLink(es: seq<Event>, handle: nat, link: nat)
    requires 0 < handle <= HANDLE_WRAP && link > 0 && HandleOf(link) == handle
    requires forall i | 0 <= i < |es| && es[i].ConnHandle() == handle :: es[i].About() == link
    ensures WithHandle(es, handle) == Only(es, link)
    decreases |es|
  {
    if es != [] {
      var before := es[..|es| - 1];
      assert forall i | 0 <= i < |before| :: before[i] == es[i];
      HandleOfOneLink(before, handle, link);
    }
  }

  /** Two links with one handle have both been announced, so the events with the handle hold two CONNECTED. */
  lemma TwoLinksOneHandle(es: seq<Event>, handle: nat, a: nat, b: nat)
    requires 0 < a && 0 < b && a != b && HandleOf(a) == handle && HandleOf(b) == handle
    requires PhaseOf(es, a) != Broken && PhaseOf(es, b) != Broken && Only(es, a) != [] && Only(es, b) != []
    ensures !Proper(WithHandle(es, handle))
  {
    PhaseIsShape(es, a);
    PhaseIsShape(es, b);
    var first, second := Only(es, a)[0], Only(es, b)[0];
    assert first in Only(es, a) && second in Only(es, b);
    EventsOfLink(es, a, first);
    EventsOfLink(es, b, second);
    EventsOfHandle(es, handle, first);
    EventsOfHandle(es, handle, second);
    var w := WithHandle(es, handle);
    var i :| 0 <= i < |w| && w[i] == first;
    var j :| 0 <= j < |w| && w[j] == second;
    assert i != j && w[i].Opens() && w[j].Opens();
  }

  /** If the story of every link is proper, the story of a handle is proper exactly when at most one of the links
      with that handle has a story. */
  lemma ProperHandleIff(es: seq<Event>, handle: nat)
    requires 0 < handle <= HANDLE_WRAP && forall link: nat | link > 0 :: PhaseOf(es, link) != Broken
    ensures Proper(WithHandle(es, handle)) <==> OneLinkPerHandle(es, handle)
  {
    if OneLinkPerHandle(es, handle) {
      var link := LinkOfHandle(es, handle);
      PhaseIsShape(es, link);
    } else {
      var a: nat, b: nat :| 0 < a < b && HandleOf(a) == handle && HandleOf(b) == handle
                            && Only(es, a) != [] && Only(es, b) != [];
      TwoLinksOneHandle(es, handle, a, b);
    }
  }

  /** The one link behind a handle; any link with the handle if there are no events. */
  lemma LinkOfHandle(es: seq<Event>, handle: nat) returns (link: nat)
    requires 0 < handle <= HANDLE_WRAP && OneLinkPerHandle(es, handle)
    ensures link > 0 && HandleOf(link) == handle && WithHandle(es, handle) == Only(es, link)
  {
    var w := WithHandle(es, handle);
    link := if w == [] then handle else w[0].About();
    if w != [] {
      assert w[0] in w;
      EventsOfHandle(es, handle, w[0]);
      EventsOfLink(es, link, w[0]);
    }
    forall i | 0 <= i < |es| && es[i].ConnHandle() == handle
      ensures es[i].About() == link
    {
      EventsOfHandle(es, handle, es[i]);
      EventsOfLink(es, es[i].About(), es[i]);
      assert es[i] in w;
      assert Only(es, link) != [] && Only(es, es[i].About()) != [];
    }
    HandleOfOneLink(es, handle, link);
  }

  // ---------- Messages ----------

  /** The messages a log shows to have arrived over a link, in order. */
  function Delivered(es: seq<Event>, link: nat): seq<Message> {
    if es == [] then []
    else
      var e := es[|es| - 1];
      Delivered(es[..|es| - 1], link) + (if e.Received? && e.link == link then [e.message] else [])
  }

  /** A message that was taken into a send buffer. */
  datatype Taken = Taken(link: nat, message: Message)

  /** The messages a node has queued on a link, in order. */
  function Queued(ts: seq<Taken>, link: nat): seq<Message> {
    if ts == [] then []
    else Queued(ts[..|ts| - 1], link) + (if ts[|ts| - 1].link == link then [ts[|ts| - 1].message] else [])
  }

  lemma DeliveredAfter(es: seq<Event>, e: Event, link: nat)
    ensures Delivered(es + [e], link)
            == Delivered(es, link) + (if e.Received? && e.link == link then [e.message] else [])
  {
    assert (es + [e])[..|es + [e]| - 1] == es;
  }

  lemma QueuedAfter(ts: seq<Taken>, x: Taken, link: nat)
    ensures Queued(ts + [x], link) == Queued(ts, link) + (if x.link == link then [x.message] else [])
  {
    assert (ts + [x])[..|ts + [x]| - 1] == ts;
  }

  /** Nothing lost, nothing invented: what was queued is what arrived and what is still buffered; and in the
      same order as long as packet ids have not wrapped. */
  ghost predicate Accounted(queued: seq<Message>, arrived: seq<Message>, s: seq<Slot>, fifo: bool) {
    && multiset(queued) == multiset(arrived) + Contents(s)
    && (fifo ==> queued == arrived + Messages(Drain(s)))
  }

  /** What arrived was queued, at least as often; a prefix of it as long as packet ids have not wrapped. */
  ghost predicate Explained(queued: seq<Message>, arrived: seq<Message>, fifo: bool) {
    && multiset(arrived) <= multiset(queued)
    && (fifo ==> arrived <= queued)
  }

  ghost predicate AccountedAt(t: Table, log: Log, taken: seq<seq<Taken>>, fifo: bool, r: Ref)
    requires In(t, r) && |log| == |t| == |taken|
  {
    var c := At(t, r);
    c.active && c.partner < |t| ==>
      Accounted(Queued(taken[r.node], c.link), Delivered(log[c.partner], c.link), c.buffers.Slots(), fifo)
  }

  ghost predicate ExplainedAt(log: Log, taken: seq<seq<Taken>>, fifo: bool, from: nat, to: nat, link: nat)
    requires from < |taken| && to < |log|
  {
    Explained(Queued(taken[from], link), Delivered(log[to], link), fifo)
  }

  ghost predicate Fresh(log: Log, taken: seq<seq<Taken>>, n: nat, link: nat)
    requires n < |log| == |taken|
  {
    Delivered(log[n], link) == [] && Queued(taken[n], link) == []
  }

  ghost predicate AllAccounted(t: Table, log: Log, taken: seq<seq<Taken>>, fifo: bool) {
    && |log| == |t| == |taken|
    && forall r | In(t, r) :: AccountedAt(t, log, taken, fifo, r)
  }

  ghost predicate AllExplained(log: Log, taken: seq<seq<Taken>>, parties: seq<Parties>, fifo: bool) {
    && |log| == |taken|
    && forall k | 0 <= k < |parties| ::
         var p := parties[k];
         p.central < |log| && p.peripheral < |log| ==>
           && ExplainedAt(log, taken, fifo, p.central, p.peripheral, k + 1)
           && ExplainedAt(log, taken, fifo, p.peripheral, p.central, k + 1)
  }

  ghost predicate AllFresh(log: Log, taken: seq<seq<Taken>>, total: nat) {
    && |log| == |taken|
    && forall n, link | 0 <= n < |log| && link > total :: Fresh(log, taken, n, link)
  }

  /** The account of every message: on links that are up, on all links so far and on links to come. */
  ghost predicate Delivering(t: Table, log: Log, taken: seq<seq<Taken>>, parties: seq<Parties>, fifo: bool) {
    && AllAccounted(t, log, taken, fifo)
    && AllExplained(log, taken, parties, fifo)
    && AllFresh(log, taken, |parties|)
  }

  ghost predicate BufferedAt(c: Connection, packets: nat) {
    && c.buffers.Valid() && InRange(c.buffers.Slots())
    && (!c.active ==> c.buffers == EMPTY)
    && (forall k | 0 <= k < NUM_SLOTS && c.buffers.Slots()[k].Some? ::
          c.buffers.Slots()[k].value.link == c.link && c.buffers.Slots()[k].value.receiver == c.partner)
    && (packets <= UINT32_MAX ==>
          && PacketBuffers.Orderly(c.buffers.Slots())
          && forall k | 0 <= k < NUM_SLOTS && c.buffers.Slots()[k].Some? :: c.buffers.Slots()[k].value.id < packets)
  }

  /** Buffers are empty while a slot is inactive; otherwise they hold packets of the slot's link only. */
  ghost predicate Buffered(t: Table, packets: nat) {
    forall r | In(t, r) :: BufferedAt(At(t, r), packets)
  }

  /** An event that carries no message leaves the account alone. */
  lemma PushKeepsAccount(t: Table, log: Log, taken: seq<seq<Taken>>, parties: seq<Parties>, fifo: bool,
                         n: nat, e: Event)
    requires Delivering(t, log, taken, parties, fifo) && n < |log| && !e.Received?
    ensures Delivering(t, Logged(log, n, e), taken, parties, fifo)
  {
    var log' := Logged(log, n, e);
    forall m, link
      ensures 0 <= m < |log| ==> Delivered(log'[m], link) == Delivered(log[m], link)
    {
      DeliveredAfter(log[n], e, link);
    }
    forall r | In(t, r)
      ensures AccountedAt(t, log', taken, fifo, r)
    {
      assert AccountedAt(t, log, taken, fifo, r);
    }
    forall k | 0 <= k < |parties| && parties[k].central < |t| && parties[k].peripheral < |t|
      ensures ExplainedAt(log', taken, fifo, parties[k].central, parties[k].peripheral, k + 1)
      ensures ExplainedAt(log', taken, fifo, parties[k].peripheral, parties[k].central, k + 1)
    {
      assert ExplainedAt(log, taken, fifo, parties[k].central, parties[k].peripheral, k + 1);
      assert ExplainedAt(log, taken, fifo, parties[k].peripheral, parties[k].central, k + 1);
    }
    forall m, link | 0 <= m < |t| && link > |parties|
      ensures Fresh(log', taken, m, link)
    {
      assert Fresh(log, taken, m, link);
    }
  }

  lemma SameBuffersKeepAccount(t: Table, u: Table, log: Log, taken: seq<seq<Taken>>, fifo: bool)
    requires AllAccounted(t, log, taken, fifo) && SameLinks(t, u)
    requires forall r | In(t, r) :: In(u, r) && At(u, r).buffers == At(t, r).buffers
    ensures AllAccounted(u, log, taken, fifo)
  {
    forall r | In(u, r)
      ensures AccountedAt(u, log, taken, fifo, r)
    {
      assert In(t, r);
      assert AccountedAt(t, log, taken, fifo, r) && SameEnd(At(t, r), At(u, r));
    }
  }

  /** Closing a link: what was buffered on it is gone, the other links keep their account. */
  lemma CloseKeepsAccount(t: Table, log: Log, taken: seq<seq<Taken>>, fifo: bool, r: Ref, p: Ref)
    requires AllAccounted(t, log, taken, fifo) && In(t, r) && In(t, p)
    ensures AllAccounted(Close(t, r, p), log, taken, fifo)
  {
    var u := Close(t, r, p);
    forall q | In(u, q)
      ensures AccountedAt(u, log, taken, fifo, q)
    {
      assert AccountedAt(t, log, taken, fifo, q);
    }
  }

  lemma {:induction false} NothingIn(s: seq<Slot>)
    requires forall k | 0 <= k < |s| :: s[k] == None
    ensures Contents(s) == multiset{}
    decreases |s|
  {
    if s != [] {
      NothingIn(s[..|s| - 1]);
    }
  }

  lemma EmptyDrains()
    ensures Drain(EMPTY.Slots()) == [] && Contents(EMPTY.Slots()) == multiset{}
  {
    var s := EMPTY.Slots();
    LowestExistsIff(s, |s|);
    NothingIn(s);
  }

  /** A fresh link starts with an empty account on both ends, because the buffers of inactive slots are empty. */
  lemma OpenKeepsAccount(t: Table, log: Log, taken: seq<seq<Taken>>, total: nat, fifo: bool,
                         slave: Ref, master: Ref, interval: nat, timeout: nat, now: nat)
    requires AllAccounted(t, log, taken, fifo) && AllFresh(log, taken, total) && In(t, slave) && In(t, master)
    requires slave.node != master.node && !At(t, slave).active && !At(t, master).active
    requires At(t, slave).buffers == EMPTY && At(t, master).buffers == EMPTY
    ensures AllAccounted(Open(t, slave, master, total + 1, interval, timeout, now), log, taken, fifo)
  {
    var link := total + 1;
    var u := Open(t, slave, master, link, interval, timeout, now);
    EmptyDrains();
    assert Fresh(log, taken, slave.node, link) && Fresh(log, taken, master.node, link);
    forall q | In(u, q)
      ensures AccountedAt(u, log, taken, fifo, q)
    {
      assert AccountedAt(t, log, taken, fifo, q);
    }
  }

  lemma OpenKeepsHistory(log: Log, taken: seq<seq<Taken>>, parties: seq<Parties>, fifo: bool, p: Parties)
    requires AllExplained(log, taken, parties, fifo) && AllFresh(log, taken, |parties|)
    ensures AllExplained(log, taken, parties + [p], fifo) && AllFresh(log, taken, |parties| + 1)
  {
    var parties' := parties + [p];
    forall k | 0 <= k < |parties'| && parties'[k].central < |log| && parties'[k].peripheral < |log|
      ensures ExplainedAt(log, taken, fifo, parties'[k].central, parties'[k].peripheral, k + 1)
      ensures ExplainedAt(log, taken, fifo, parties'[k].peripheral, parties'[k].central, k + 1)
    {
      if k < |parties| {
        assert parties'[k] == parties[k];
      } else {
        assert Fresh(log, taken, p.central, k + 1) && Fresh(log, taken, p.peripheral, k + 1);
      }
    }
  }

  /** The slot is the only one of its node, and its partner the only one of the partner's, with that link. */
  ghost predicate OnlySlot(t: Table, r: Ref)
    requires In(t, r)
  {
    forall q | In(t, q) && At(t, q).active && At(t, q).link == At(t, r).link ::
      q == r || (q.node != r.node && At(t, q).partner != At(t, r).partner)
  }

  lemma LinkHasOneSlot(t: Table, parties: seq<Parties>, r: Ref)
    requires Paired(t) && Numbered(t, parties) && In(t, r) && At(t, r).active
    ensures OnlySlot(t, r)
  {
    assert PairedAt(t, r);
    forall q | In(t, q) && At(t, q).active && At(t, q).link == At(t, r).link && q != r
      ensures q.node != r.node && At(t, q).partner != At(t, r).partner
    {
      LinkNamesOnePair(t, parties, r, q);
    }
  }

  ghost predicate QueuedOne(taken: seq<seq<Taken>>, taken': seq<seq<Taken>>, n: nat, link: nat, m: Message) {
    && |taken'| == |taken|
    && forall i, l | 0 <= i < |taken| ::
         Queued(taken'[i], l) == if i == n && l == link then Queued(taken[i], l) + [m] else Queued(taken[i], l)
  }

  ghost predicate ArrivedOne(log: Log, log': Log, n: nat, link: nat, m: Message) {
    && |log'| == |log|
    && forall i, l | 0 <= i < |log| ::
         Delivered(log'[i], l) == if i == n && l == link then Delivered(log[i], l) + [m] else Delivered(log[i], l)
  }

  lemma QueueingIsOne(taken: seq<seq<Taken>>, n: nat, x: Taken)
    requires n < |taken|
    ensures QueuedOne(taken, taken[n := taken[n] + [x]], n, x.link, x.message)
  {
    forall l
      ensures Queued(taken[n] + [x], l) == Queued(taken[n], l) + (if l == x.link then [x.message] else [])
    {
      QueuedAfter(taken[n], x, l);
    }
  }

  lemma ArrivalIsOne(log: Log, n: nat, e: Event)
    requires n < |log| && e.Received?
    ensures ArrivedOne(log, Logged(log, n, e), n, e.link, e.message)
  {
    forall l
      ensures Delivered(log[n] + [e], l) == Delivered(log[n], l) + (if l == e.link then [e.message] else [])
    {
      DeliveredAfter(log[n], e, l);
    }
  }

  lemma BagGrows(queued: seq<Message>, arrived: seq<Message>, c: multiset<Message>, m: Message)
    requires multiset(queued) == multiset(arrived) + c
    ensures multiset(queued + [m]) == multiset(arrived) + (c + multiset{m})
  {}

  lemma BagMoves(queued: seq<Message>, arrived: seq<Message>, c: multiset<Message>, m: Message)
    requires multiset(queued) == multiset(arrived) + (c + multiset{m})
    ensures multiset(queued) == multiset(arrived + [m]) + c
    ensures multiset(arrived + [m]) <= multiset(queued)
  {}

  lemma QueueOnLink(s: seq<Slot>, k: nat, p: Packet, fifo: bool, queued: seq<Message>, arrived: seq<Message>)
    requires k < |s| && s[k].None? && Accounted(queued, arrived, s, fifo)
    requires fifo ==> PacketBuffers.Orderly(s) && p.id < UINT32_MAX
    requires fifo ==> forall j | 0 <= j < |s| && s[j].Some? :: s[j].value.id < p.id
    ensures Accounted(queued + [p.message], arrived, s[k := Some(p)], fifo)
  {
    hide Drain, Contents, Lowest;
    BagGrows(queued, arrived, Contents(s), p.message);
    ContentsUpdate(s, k, Some(p));
    assert Contents(s[k := Some(p)]) == Contents(s) + multiset{p.message};
    if fifo {
      QueuedLast(s, k, p);
      assert Messages(Drain(s) + [p]) == Messages(Drain(s)) + [p.message];
    }
  }

  lemma OthersKeepAccount(t: Table, u: Table, log: Log, log': Log, taken: seq<seq<Taken>>, taken': seq<seq<Taken>>,
                          fifo: bool, r: Ref)
    requires AllAccounted(t, log, taken, fifo) && |u| == |t| && |log'| == |log| && |taken'| == |taken|
    requires In(u, r) && AccountedAt(u, log', taken', fifo, r)
    requires forall q | In(u, q) :: In(t, q) && (q != r ==> At(u, q) == At(t, q))
    requires forall q | In(t, q) && q != r && At(t, q).active && At(t, q).partner < |t| ::
               && Queued(taken'[q.node], At(t, q).link) == Queued(taken[q.node], At(t, q).link)
               && Delivered(log'[At(t, q).partner], At(t, q).link) == Delivered(log[At(t, q).partner], At(t, q).link)
    ensures AllAccounted(u, log', taken', fifo)
  {
    hide Accounted, Queued, Delivered;
    forall q | In(u, q)
      ensures AccountedAt(u, log', taken', fifo, q)
    {
      assert In(t, q);
      assert AccountedAt(t, log, taken, fifo, q);
    }
  }

  /** Queueing a message on a link: the account grows by the message on both sides. */
  lemma QueueKeepsAccount(t: Table, u: Table, log: Log, taken: seq<seq<Taken>>, taken': seq<seq<Taken>>, fifo: bool,
                          r: Ref, k: nat, p: Packet)
    requires AllAccounted(t, log, taken, fifo) && In(t, r) && At(t, r).active && OnlySlot(t, r)
    requires k < NUM_SLOTS && |At(t, r).buffers.unreliable| == NUM_UNRELIABLE && At(t, r).buffers.Slots()[k].None?
    requires u == Refill(t, r, k, Some(p))
    requires QueuedOne(taken, taken', r.node, At(t, r).link, p.message)
    requires fifo ==> BufferedAt(At(t, r), p.id) && p.id < UINT32_MAX
    ensures AllAccounted(u, log, taken', fifo)
  {
    hide Accounted, Queued, Delivered;
    var c := At(t, r);
    assert AccountedAt(t, log, taken, fifo, r);
    if c.partner < |t| {
      QueueOnLink(c.buffers.Slots(), k, p, fifo, Queued(taken[r.node], c.link), Delivered(log[c.partner], c.link));
    }
    OthersKeepAccount(t, u, log, log, taken, taken', fifo, r);
  }

  lemma QueueKeepsHistory(log: Log, taken: seq<seq<Taken>>, taken': seq<seq<Taken>>, parties: seq<Parties>,
                          fifo: bool, n: nat, link: nat, m: Message)
    requires AllExplained(log, taken, parties, fifo) && AllFresh(log, taken, |parties|)
    requires QueuedOne(taken, taken', n, link, m) && link <= |parties|
    ensures AllExplained(log, taken', parties, fifo) && AllFresh(log, taken', |parties|)
  {
    forall j | 0 <= j < |parties| && parties[j].central < |log| && parties[j].peripheral < |log|
      ensures ExplainedAt(log, taken', fifo, parties[j].central, parties[j].peripheral, j + 1)
      ensures ExplainedAt(log, taken', fifo, parties[j].peripheral, parties[j].central, j + 1)
    {
      assert ExplainedAt(log, taken, fifo, parties[j].central, parties[j].peripheral, j + 1);
      assert ExplainedAt(log, taken, fifo, parties[j].peripheral, parties[j].central, j + 1);
    }
    forall i, l | 0 <= i < |log| && l > |parties|
      ensures Fresh(log, taken', i, l)
    {
      assert Fresh(log, taken, i, l);
    }
  }

  lemma SendsFirst(s: seq<Slot>, k: nat)
    requires Lowest(s, |s|) == Some(k)
    ensures Messages(Drain(s)) == [s[k].value.message] + Messages(Drain(s[k := None]))
    ensures Contents(s) == Contents(s[k := None]) + multiset{s[k].value.message}
  {
    hide Contents, Lowest;
    assert Drain(s) == [s[k].value] + Drain(s[k := None]);
    ContentsUpdate(s, k, None);
    assert Contents(s[k := None]) + Bag(s[k]) == Contents(s);
  }

  /** The packet with the lowest id leaves: it moves from what is buffered to what has arrived. */
  lemma SendOnLink(s: seq<Slot>, k: nat, fifo: bool, queued: seq<Message>, arrived: seq<Message>)
    requires Lowest(s, |s|) == Some(k) && Accounted(queued, arrived, s, fifo)
    ensures Accounted(queued, arrived + [s[k].value.message], s[k := None], fifo)
    ensures Explained(queued, arrived + [s[k].value.message], fifo)
  {
    hide Contents, Drain, Lowest;
    SendsFirst(s, k);
    BagMoves(queued, arrived, Contents(s[k := None]), s[k].value.message);
    if fifo {
      assert queued == (arrived + [s[k].value.message]) + Messages(Drain(s[k := None]));
    }
  }

  lemma SendKeepsAccount(t: Table, u: Table, log: Log, log': Log, taken: seq<seq<Taken>>, fifo: bool, r: Ref, k: nat)
    requires AllAccounted(t, log, taken, fifo) && In(t, r) && At(t, r).active && OnlySlot(t, r)
    requires |At(t, r).buffers.unreliable| == NUM_UNRELIABLE && NextSlot(At(t, r).buffers) == Some(k)
    requires u == Refill(t, r, k, None)
    requires ArrivedOne(log, log', At(t, r).partner, At(t, r).link, At(t, r).buffers.Slots()[k].value.message)
    ensures AllAccounted(u, log', taken, fifo)
    ensures At(t, r).partner < |t| ==>
              Explained(Queued(taken[r.node], At(t, r).link), Delivered(log'[At(t, r).partner], At(t, r).link), fifo)
  {
    hide Accounted, Queued, Delivered, Explained, Lowest;
    var c := At(t, r);
    assert AccountedAt(t, log, taken, fifo, r);
    if c.partner < |t| {
      SendOnLink(c.buffers.Slots(), k, fifo, Queued(taken[r.node], c.link), Delivered(log[c.partner], c.link));
    }
    OthersKeepAccount(t, u, log, log', taken, taken, fifo, r);
  }

  lemma SendKeepsHistory(log: Log, log': Log, taken: seq<seq<Taken>>, parties: seq<Parties>, fifo: bool,
                         from: nat, to: nat, link: nat, m: Message)
    requires AllExplained(log, taken, parties, fifo) && AllFresh(log, taken, |parties|)
    requires ArrivedOne(log, log', to, link, m) && 0 < link <= |parties| && from < |log| && to < |log| && from != to
    requires parties[link - 1] == Parties(from, to) || parties[link - 1] == Parties(to, from)
    requires Explained(Queued(taken[from], link), Delivered(log'[to], link), fifo)
    ensures AllExplained(log', taken, parties, fifo) && AllFresh(log', taken, |parties|)
  {
    hide Queued, Delivered, Explained;
    forall j | 0 <= j < |parties| && parties[j].central < |log| && parties[j].peripheral < |log|
      ensures ExplainedAt(log', taken, fifo, parties[j].central, parties[j].peripheral, j + 1)
      ensures ExplainedAt(log', taken, fifo, parties[j].peripheral, parties[j].central, j + 1)
    {
      assert ExplainedAt(log, taken, fifo, parties[j].central, parties[j].peripheral, j + 1);
      assert ExplainedAt(log, taken, fifo, parties[j].peripheral, parties[j].central, j + 1);
    }
    forall i, l | 0 <= i < |log| && l > |parties|
      ensures Fresh(log', taken, i, l)
    {
      assert Fresh(log, taken, i, l);
    }
  }
}
