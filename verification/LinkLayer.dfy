/** The simulated BLE link layer: the SoftDevice calls of a node and the steps of the simulator. Where the
    simulator draws a random number, the step takes the outcome as an argument. */
module LinkLayer {
  import opened Results
  import opened PacketBuffers
  import opened LinkTable
  import opened LinkTraces
  import opened LinkInvariant
  import opened ConnectionEvents
  import opened LinkEffects
  import opened LinkOutcomes

  const BLE_HCI_REMOTE_USER_TERMINATED_CONNECTION := 0x13
  const BLE_HCI_LOCAL_HOST_TERMINATED_CONNECTION := 0x16

  const UNIT_10_MS := 10000

  /** Read as a signed 32-bit number. */
  function I32(x: int): (y: int)
    ensures -2147483648 <= y < 2147483648 && (x - y) % 4294967296 == 0
    ensures -2147483648 <= x < 2147483648 ==> y == x
  {
    (x + 0x8000_0000) % 0x1_0000_0000 - 0x8000_0000
  }

  datatype AdvType = ADV_IND | ADV_DIRECT_IND | ADV_SCAN_IND | ADV_NONCONN_IND

  datatype WriteOp = WRITE_REQ | WRITE_CMD | OTHER_OP

  /** What a node's SoftDevice is doing apart from its connections. */
  datatype Gap = Gap(
    timeMs: nat, advertising: bool, advType: AdvType, scanning: bool,
    connecting: bool, peerAddress: nat, connectDeadline: int, paramInterval: nat, paramTimeout: nat)
  {
    function Wants(): Intent {
      Intent(connecting, advertising && advType != ADV_NONCONN_IND)
    }
  }

  const IDLE: Gap := Gap(0, false, ADV_IND, false, false, 0, 0, 0, 0)

  function Intents(gap: seq<Gap>): (i: seq<Intent>)
    ensures |i| == |gap|
  {
    seq(|gap|, n requires 0 <= n < |gap| => gap[n].Wants())
  }

  lemma IntentsUpdate(gap: seq<Gap>, n: nat, g: Gap)
    requires n < |gap|
    ensures Intents(gap[n := g]) == Intents(gap)[n := g.Wants()]
  {}

  /** What is left of a log after the node has taken some events out of its queue. */
  ghost predicate Unread(queues: Log, log: Log, read: seq<nat>) {
    && |queues| == |log| == |read|
    && forall n | 0 <= n < |log| :: read[n] <= |log[n]| && queues[n] == log[n][read[n]..]
  }

  lemma UnreadPush(queues: Log, log: Log, read: seq<nat>, n: nat, e: Event)
    requires Unread(queues, log, read) && n < |log|
    ensures Unread(Logged(queues, n, e), Logged(log, n, e), read)
  {
    assert (log[n] + [e])[read[n]..] == log[n][read[n]..] + [e];
  }

  function KindOf(op: WriteOp): Option<Kind> {
    match op
    case WRITE_REQ => Some(WriteRequest)
    case WRITE_CMD => Some(WriteCommand)
    case OTHER_OP => None
  }

  /** Whether a message of the given kind and length can be queued under a handle. */
  function Admission(row: Row, handle: int, kind: Option<Kind>, length: nat): (r: Result<(), Error>)
    ensures r.Success? ==> FirstByHandle(row, handle).Some? && kind.Some?
  {
    var i := FirstByHandle(row, handle);
    if i.None? then Failure(InvalidConnHandle)
    else if length > row[i.value].mtu then Failure(DataSize)
    else if kind.None? then Failure(IllegalState)
    else if FreeSlot(row[i.value].buffers, kind.value).None? then Failure(Resources)
    else Success(())
  }

  /** Which mesh nodes an advertisement is offered to: every step-th one from a random start. */
  function Step(indexStep: nat): (step: nat)
    ensures step > 0
  {
    if indexStep == 0 then 1 else indexStep
  }

  function Start(indexStep: nat, draw: nat): nat {
    if Step(indexStep) == 1 then 0 else draw % Step(indexStep)
  }

  predicate Offered(i: nat, n: nat, start: nat, step: nat)
    requires step > 0
  {
    i >= start && (i - start) % step == 0 && i != n
  }

  lemma NextOffer(start: nat, step: nat, i: nat)
    requires step > 0 && start <= i && (i - start) % step == 0
    ensures (i + step - start) % step == 0
  {
    var q := (i - start) / step;
    assert i + step - start == (q + 1) * step + 0;
    Remainder(q + 1, step, 0);
  }

  lemma NoOfferBetween(start: nat, step: nat, i: nat, j: nat)
    requires step > 0 && start <= i < j < i + step && (i - start) % step == 0
    ensures (j - start) % step != 0
  {
    var q := (i - start) / step;
    assert j - start == q * step + (j - i);
    Remainder(q, step, j - i);
  }

  lemma Remainder(q: nat, d: nat, r: nat)
    requires r < d
    ensures (q * d + r) % d == r
  {
    var x := q * d + r;
    var k := x / d - q;
    assert d * k == r - x % d;
    Grows(d, k);
  }

  lemma Grows(d: int, k: int)
    requires d >= 0
    ensures k >= 1 ==> d * k >= d
    ensures k <= -1 ==> d * k <= -d
  {}

  /** A scanning node that receives the advertisement. */
  predicate Hears(gap: seq<Gap>, received: seq<bool>, n: nat, start: nat, step: nat, i: nat)
    requires step > 0
  {
    i < |gap| && i < |received| && Offered(i, n, start, step) && gap[i].scanning && received[i]
  }

  /** A node that receives the advertisement while it is connecting to the advertiser's address. */
  predicate Takes(gap: seq<Gap>, received: seq<bool>, n: nat, start: nat, step: nat, address: nat, i: nat)
    requires step > 0
  {
    && i < |gap| && i < |received| && n < |gap| && Offered(i, n, start, step) && received[i]
    && !gap[i].scanning && gap[i].connecting && gap[i].peerAddress == address && gap[n].advType == ADV_IND
  }

  /** Every node before the limit that hears the advertisement gets a report. */
  ghost predicate Reported(log: Log, log': Log, gap: seq<Gap>, received: seq<bool>, n: nat, start: nat, step: nat,
                           limit: nat)
    requires step > 0
  {
    && |log'| == |log|
    && forall i | 0 <= i < |log| ::
         log'[i] == if i < limit && Hears(gap, received, n, start, step, i) then log[i] + [AdvReport(n)] else log[i]
  }

  /** What one advertising event does: reports for those who hear it, up to the first node that takes the link. */
  ghost predicate Advertised(w: World, v: World, gap: seq<Gap>, gap': seq<Gap>, received: seq<bool>, n: nat,
                             start: nat, step: nat, addresses: seq<nat>, now: nat, master: Option<nat>, heard: Log)
    requires step > 0
  {
    && n < |gap| && n < |addresses|
    && Reported(w.log, heard, gap, received, n, start, step, if master.Some? then master.value else |received|)
    && (forall i: nat | i < (if master.Some? then master.value else |received|) ::
          !Takes(gap, received, n, start, step, addresses[n], i))
    && (master.None? ==> v == w.(log := heard) && gap' == gap)
    && (master.Some? ==>
          var m := master.value;
          && Takes(gap, received, n, start, step, addresses[n], m) && m < |gap| && m < |addresses|
          && gap' == gap[m := gap[m].(connecting := false)][n := gap[n].(advertising := false)]
          && JoinDone(w.(log := heard), v, n, m, gap[m].paramInterval, gap[m].paramTimeout, now, addresses[m],
                      addresses[n]))
  }

  lemma NothingReported(log: Log, gap: seq<Gap>, received: seq<bool>, n: nat, start: nat, step: nat)
    requires step > 0
    ensures Reported(log, log, gap, received, n, start, step, start)
    ensures forall address, j: nat | j < start :: !Takes(gap, received, n, start, step, address, j)
  {}

  lemma ReportNext(log: Log, before: Log, after: Log, gap: seq<Gap>, received: seq<bool>, n: nat, start: nat, step: nat,
                   i: nat)
    requires step > 0 && start <= i && (i - start) % step == 0 && i < |gap| && i < |received| && i < |before|
    requires Reported(log, before, gap, received, n, start, step, i)
    requires after == if i != n && gap[i].scanning && received[i] then Logged(before, i, AdvReport(n)) else before
    ensures (i + step - start) % step == 0
    ensures Reported(log, after, gap, received, n, start, step, i + step)
  {
    NextOffer(start, step, i);
    forall j | 0 <= j < |log|
      ensures after[j] == if j < i + step && Hears(gap, received, n, start, step, j) then log[j] + [AdvReport(n)]
                          else log[j]
    {
      if i < j < i + step {
        NoOfferBetween(start, step, i, j);
      }
    }
  }

  lemma ReportLimit(log: Log, heard: Log, gap: seq<Gap>, received: seq<bool>, n: nat, start: nat, step: nat, limit: nat)
    requires step > 0 && limit >= |received| && Reported(log, heard, gap, received, n, start, step, limit)
    ensures Reported(log, heard, gap, received, n, start, step, |received|)
  {}

  lemma TakesNext(gap: seq<Gap>, received: seq<bool>, n: nat, start: nat, step: nat, address: nat, i: nat)
    requires step > 0 && start <= i && (i - start) % step == 0 && i < |gap| && i < |received| && n < |gap|
    ensures Takes(gap, received, n, start, step, address, i)
            <==> i != n && !gap[i].scanning && gap[i].connecting && gap[n].advType == ADV_IND
                 && gap[i].peerAddress == address && received[i]
    ensures forall j: nat | i < j < i + step :: !Takes(gap, received, n, start, step, address, j)
  {
    forall j: nat | i < j < i + step
      ensures !Takes(gap, received, n, start, step, address, j)
    {
      NoOfferBetween(start, step, i, j);
    }
  }

  lemma AdvertisedPersists(w: World, v: World, gap: seq<Gap>, gap': seq<Gap>, received: seq<bool>, n: nat,
                           start: nat, step: nat, addresses: seq<nat>, now: nat, master: Option<nat>, heard: Log)
    requires step > 0
    requires Advertised(w, v, gap, gap', received, n, start, step, addresses, now, master, heard)
    ensures Persists(w, v)
  {
    hide JoinDone, Persists, Reported, Takes;
    var u := w.(log := heard);
    SameLinksPersist(w, u);
    if master.Some? {
      var g := gap[master.value];
      JoinPersists(u, v, n, master.value, g.paramInterval, g.paramTimeout, now, addresses[master.value], addresses[n]);
      PersistsChains(w, u, v);
    }
  }

  lemma IntentsOfJoin(gap: seq<Gap>, slave: nat, master: nat)
    requires slave < |gap| && master < |gap| && slave != master
    ensures Intents(gap[master := gap[master].(connecting := false)][slave := gap[slave].(advertising := false)])
            == Intents(gap)[slave := Intents(gap)[slave].(connectable := false)]
                           [master := Intents(gap)[master].(connecting := false)]
  {}

  /** The calls of the nodes and the steps of the simulator, with the random outcomes they depend on. */
  datatype Action =
    | DoAdvStart(n: nat, advType: AdvType, busy: bool)
    | DoAdvStop(n: nat)
    | DoScanStart(n: nat, busy: bool)
    | DoScanStop(n: nat)
    | DoConnect(n: nat, peer: nat, timeoutS: nat, params: ConnParams, busy: bool)
    | DoConnectCancel(n: nat)
    | DoDisconnect(n: nat, handle: int)
    | DoWrite(n: nat, handle: int, op: WriteOp, attribute: nat, data: seq<bv8>, busy: bool)
    | DoHvx(n: nat, handle: int, attribute: nat, data: seq<bv8>, busy: bool)
    | DoRssiSet(n: nat, handle: int, on: bool)
    | DoParamUpdate(n: nat, handle: int, request: Option<ConnParams>, timerDs: nat, busy: bool)
    | DoEvtGet(n: nat)
    | Advertising(n: nat, due: bool, indexStep: nat, draw: nat, received: seq<bool>)
    | Timeouts(n: nat)
    | Connections(n: nat, blocked: bool, draws: seq<nat>, reachable: seq<bool>, rssiDue: seq<bool>, losses: seq<bool>)
    | ParamTimeouts(n: nat, timerDs: nat)
    | Reset(n: nat)
    | Clock(ms: nat)
    | NodeClock(n: nat, ms: nat)
  {
    /** Nothing but the GAP state of its node changes. */
    predicate OnlyGap() {
      DoAdvStart? || DoAdvStop? || DoScanStart? || DoScanStop? || DoConnect? || DoConnectCancel? || NodeClock?
    }
  }

  /** All that a call or step can change: the links with their history, the GAP states, how many events every node has
      taken, and the time. The queues hold the events not taken yet. */
  datatype Snapshot = Snapshot(w: World, gap: seq<Gap>, read: seq<nat>, simTimeMs: nat)
  {
    /** Node n has another GAP state. */
    ghost function With(n: nat, g: Gap): Snapshot
      requires n < |gap|
    {
      this.(gap := gap[n := g], w := w.(intents := Intents(gap[n := g])))
    }
  }

  class CherrySim {
    const total: nat                 // configuredTotalConnectionCount
    const limits: seq<Limits>
    const addresses: seq<nat>
    const meshNodes: nat             // all nodes but the asset nodes
    var connections: Table
    var gap: seq<Gap>
    var queues: Log
    var linkCount: nat               // the handle counter is HandleOf(linkCount)
    var packetCount: nat             // the packet id counter is PacketId(packetCount)
    var simTimeMs: nat
    ghost var log: Log               // all events ever pushed
    ghost var read: seq<nat>         // how many of them have left the queue
    ghost var taken: seq<seq<Taken>> // all messages ever queued
    ghost var parties: seq<Parties>  // the ends of all links ever opened

    ghost function W(): World
      reads this
    {
      World(connections, log, taken, parties, limits, Intents(gap), packetCount)
    }

    ghost function Now(): Snapshot
      reads this
    {
      Snapshot(W(), gap, read, simTimeMs)
    }

    ghost predicate Sized()
      reads this
    {
      && |connections| == |gap| == |limits| == |addresses|
      && meshNodes <= |connections|
      && total <= SIM_MAX_CONNECTION_NUM
      && linkCount == |parties|
      && forall n | 0 <= n < |connections| ::
           |connections[n]| == total && limits[n].central + limits[n].peripheral <= total
    }

    ghost predicate Valid()
      reads this
    {
      Sized() && Unread(queues, log, read) && Sound(W())
    }

    constructor (total: nat, limits: seq<Limits>, addresses: seq<nat>, meshNodes: nat)
      requires |addresses| == |limits| && meshNodes <= |limits| && total <= SIM_MAX_CONNECTION_NUM
      requires forall n | 0 <= n < |limits| :: limits[n].central + limits[n].peripheral <= total
      ensures Valid() && this.total == total && this.limits == limits
      ensures this.addresses == addresses && this.meshNodes == meshNodes
      ensures |connections| == |gap| == |log| == |limits| && forall n | 0 <= n < |gap| :: gap[n] == IDLE
      ensures forall r | In(connections, r) :: At(connections, r) == DEFAULT && Blank(DEFAULT)
      ensures linkCount == 0 && packetCount == 0 && simTimeMs == 0 && parties == []
      ensures log == queues && forall n | 0 <= n < |log| :: log[n] == []
    {
      var nodes := |limits|;
      this.total, this.limits, this.addresses, this.meshNodes := total, limits, addresses, meshNodes;
      connections := seq(nodes, _ => seq(total, _ => DEFAULT));
      gap := seq(nodes, _ => IDLE);
      queues := seq(nodes, _ => []);
      linkCount, packetCount, simTimeMs := 0, 0, 0;
      log := seq(nodes, _ => []);
      read := seq(nodes, _ => 0);
      taken := seq(nodes, _ => []);
      parties := [];
      new;
      NothingYet(W());
    }

    /** Appends an event to a node's queue. */
    method Push(n: nat, e: Event)
      requires Unread(queues, log, read) && n < |log|
      modifies `queues, `log
      ensures Unread(queues, log, read) && log == Logged(old(log), n, e)
    {
      UnreadPush(queues, log, read, n, e);
      queues := queues[n := queues[n] + [e]];
      log := Logged(log, n, e);
    }

    // ---------- Advertising and connecting ----------

    method CountActive(n: nat, central: bool) returns (count: nat)
      requires n < |connections|
      ensures count == CountRole(connections[n], central)
    {
      count := 0;
      var row := connections[n];
      for i := 0 to |row|
        invariant count == CountRole(row[..i], central)
      {
        assert row[..i + 1][..i] == row[..i];
        if row[i].active && row[i].isCentral == central {
          count := count + 1;
        }
      }
      assert row[..|row|] == row;
    }

    /** Connectable advertising is refused unless the node can take up another peripheral role. */
    method AdvStart(n: nat, advType: AdvType, busy: bool) returns (r: Result<(), Error>)
      requires Valid() && n < |connections|
      modifies `gap
      ensures Valid()
      ensures r == (if busy then Failure(Busy)
                    else if advType != ADV_NONCONN_IND && CountRole(connections[n], false) >= limits[n].peripheral
                    then Failure(ConnCount) else Success(()))
      ensures gap == (if r.Success? then old(gap)[n := old(gap)[n].(advertising := true, advType := advType)]
                      else old(gap))
    {
      if busy {
        return Failure(Busy);
      }
      var activePeripheralConnCount := CountActive(n, false);
      if advType != ADV_NONCONN_IND && activePeripheralConnCount >= limits[n].peripheral {
        return Failure(ConnCount);
      }
      SetGap(n, gap[n].(advertising := true, advType := advType));
      return Success(());
    }

    method AdvStop(n: nat)
      requires Valid() && n < |connections|
      modifies `gap
      ensures Valid() && gap == old(gap)[n := old(gap)[n].(advertising := false)]
    {
      SetGap(n, gap[n].(advertising := false));
    }

    /** Replaces a node's GAP state; new intentions must fit the role limits. */
    method SetGap(n: nat, g: Gap)
      requires Valid() && n < |connections|
      requires forall role | g.Wants().Of(role) && !gap[n].Wants().Of(role) ::
                 CountRole(connections[n], role) < limits[n].Of(role)
      modifies `gap
      ensures Valid() && gap == old(gap)[n := g]
    {
      SoundIntent(W(), n, g.Wants());
      IntentsUpdate(gap, n, g);
      hide Sound;
      gap := gap[n := g];
    }

    method ScanStart(n: nat, busy: bool) returns (r: Result<(), Error>)
      requires Valid() && n < |connections|
      modifies `gap
      ensures Valid()
      ensures r == (if busy then Failure(Busy) else if old(gap)[n].connecting then Failure(InvalidState)
                    else Success(()))
      ensures gap == (if r.Success? then old(gap)[n := old(gap)[n].(scanning := true)] else old(gap))
    {
      if busy {
        return Failure(Busy);
      }
      if gap[n].connecting {
        return Failure(InvalidState);
      }
      SetGap(n, gap[n].(scanning := true));
      return Success(());
    }

    method ScanStop(n: nat) returns (r: Result<(), Error>)
      requires Valid() && n < |connections|
      modifies `gap
      ensures Valid()
      ensures r == if old(gap)[n].scanning then Success(()) else Failure(InvalidState)
      ensures gap == old(gap)[n := old(gap)[n].(scanning := false)]
    {
      if !gap[n].scanning {
        SetGap(n, gap[n]);
        return Failure(InvalidState);
      }
      SetGap(n, gap[n].(scanning := false));
      return Success(());
    }

    /** Counts the active slots in a role and finds a free slot. */
    method Survey(n: nat, central: bool) returns (count: nat, free: Option<nat>)
      requires n < |connections|
      ensures count == CountRole(connections[n], central) && free == LastFree(connections[n])
    {
      count, free := 0, None;
      var row := connections[n];
      for i := 0 to |row|
        invariant count == CountRole(row[..i], central) && free == LastFree(row[..i])
      {
        assert row[..i + 1][..i] == row[..i];
        if row[i].active && row[i].isCentral == central {
          count := count + 1;
        } else if !row[i].active {
          free := Some(i);
        }
      }
      assert row[..|row|] == row;
    }

    /** Connecting is refused unless the node can take up another central role and has a slot for it. */
    method GapConnect(n: nat, peer: nat, timeoutS: nat, params: ConnParams, busy: bool)
      returns (r: Result<(), Error>)
      requires Valid() && n < |connections|
      modifies `gap
      ensures Valid()
      ensures r == (if old(gap)[n].connecting then Failure(InvalidState)
                    else if busy then Failure(Busy)
                    else if CountRole(connections[n], true) >= limits[n].central then Failure(Resources)
                    else if LastFree(connections[n]).None? then Failure(ConnCount)
                    else Success(()))
      ensures r.Failure? ==> gap == old(gap)
      ensures r.Success? ==>
                gap == old(gap)[n := old(gap)[n].(
                  scanning := false, connecting := true, peerAddress := peer,
                  connectDeadline := I32(simTimeMs + 1000 * timeoutS),
                  paramInterval := params.minInterval * 5 / 4, paramTimeout := params.supTimeout * 10)]
    {
      if gap[n].connecting {
        return Failure(InvalidState);
      }
      if busy {
        return Failure(Busy);
      }
      var activeCentralConnCount, freeSpot := Survey(n, true);
      if activeCentralConnCount >= limits[n].central {
        return Failure(Resources);
      }
      if freeSpot.None? {
        return Failure(ConnCount);
      }
      SetGap(n, gap[n].(
        scanning := false, connecting := true, peerAddress := peer,
        connectDeadline := I32(simTimeMs + timeoutS * 1000),
        paramInterval := ToMs(params.minInterval, UNIT_1_25_MS),
        paramTimeout := ToMs(params.supTimeout, UNIT_10_MS)));
      return Success(());
    }

    method ConnectCancel(n: nat)
      requires Valid() && n < |connections|
      modifies `gap
      ensures Valid() && gap == old(gap)[n := old(gap)[n].(connecting := false)]
    {
      SetGap(n, gap[n].(connecting := false));
    }

    /** A connection attempt that has run out of time ends with an event about no link. */
    method SimulateTimeouts(n: nat)
      requires Valid() && n < |connections|
      modifies `gap, `queues, `log
      ensures Valid()
      ensures old(gap)[n].connecting && old(gap)[n].connectDeadline <= I32(simTimeMs) ==>
                gap == old(gap)[n := old(gap)[n].(connecting := false)] && log == Logged(old(log), n, ConnectTimeout)
      ensures !(old(gap)[n].connecting && old(gap)[n].connectDeadline <= I32(simTimeMs)) ==>
                gap == old(gap) && log == old(log)
      ensures simTimeMs < 2147483648 ==>
                (gap[n].connecting <==> old(gap)[n].connecting && old(gap)[n].connectDeadline > simTimeMs)
    {
      hide Sound, Unread, I32, Intents;
      if gap[n].connecting && gap[n].connectDeadline <= I32(simTimeMs) {
        SetGap(n, gap[n].(connecting := false));
        PushAbout(n, ConnectTimeout);
      }
    }

    /** Pushes an event that neither opens nor ends a link nor carries a message. */
    method PushAbout(n: nat, e: Event)
      requires Valid() && n < |connections|
      requires !e.Opens() && !e.Ends() && !e.Received?
      requires e.About() == 0 || Live(connections[n], e.About())
      modifies `queues, `log
      ensures Valid() && log == Logged(old(log), n, e)
    {
      SoundSizes(W());
      SoundPush(W(), n, e);
      hide Sound;
      Push(n, e);
    }

    // ---------- Opening and closing links ----------

    /** Makes two slots the ends of the latest link and tells both nodes. */
    method FillSlots(s: Ref, m: Ref, interval: nat, timeout: nat)
      requires In(connections, s) && In(connections, m) && s.node != m.node
      requires Unread(queues, log, read) && |log| == |connections| == |addresses|
      modifies `connections, `queues, `log
      ensures Unread(queues, log, read)
      ensures log == Logged(Logged(old(log), s.node, Connected(linkCount, false, addresses[m.node])), m.node,
                            Connected(linkCount, true, addresses[s.node]))
      ensures connections == Open(old(connections), s, m, linkCount, interval, timeout, simTimeMs)
      ensures |connections| == |old(connections)|
      ensures forall n | 0 <= n < |connections| :: |connections[n]| == |old(connections)[n]|
    {
      hide Unread;
      Push(s.node, Connected(linkCount, false, addresses[m.node]));
      Push(m.node, Connected(linkCount, true, addresses[s.node]));
      var inConnection, outConnection := At(connections, s), At(connections, m);
      connections := Put(connections, s,
                         Opened(inConnection, linkCount, false, s.node, m, interval, timeout, simTimeMs));
      connections := Put(connections, m,
                         Opened(outConnection, linkCount, true, m.node, s, interval, timeout, simTimeMs));
    }

    /** The checks for spare roles and slots, which the simulator answers with an exception, cannot fail: the slave
        advertises for a link and the master is connecting. */
    method FindSlots(master: nat, slave: nat) returns (s: Ref, m: Ref)
      requires Valid() && master < |connections| && slave < |connections| && master != slave
      requires gap[slave].Wants().connectable && gap[master].connecting
      ensures In(connections, s) && s.node == slave && LastFree(connections[slave]) == Some(s.slot)
      ensures In(connections, m) && m.node == master && LastFree(connections[master]) == Some(m.slot)
    {
      JoinFacts(W(), slave, master);
      hide Sound, Unread;
      var activePeripheralConnCount, freeInConnection := Survey(slave, false);
      if activePeripheralConnCount == limits[slave].peripheral {
        assert false;
      }
      if freeInConnection.None? {
        assert false;
      }
      var activeCentralConnCount, freeOutConnection := Survey(master, true);
      if activeCentralConnCount == limits[master].central {
        assert false;
      }
      if freeOutConnection.None? {
        assert false;
      }
      return Ref(slave, freeInConnection.value), Ref(master, freeOutConnection.value);
    }

    /** Opens a link on a slot that is free on either side. The slave's advertising is left on. */
    method ConnectMasterToSlave(master: nat, slave: nat)
      requires Valid() && master < |connections| && slave < |connections| && master != slave
      requires gap[slave].Wants().connectable && gap[master].connecting
      modifies `connections, `gap, `queues, `log, `linkCount, `parties
      ensures Sized() && Unread(queues, log, read)
      ensures gap == old(gap)[master := old(gap)[master].(connecting := false)]
      ensures linkCount == old(linkCount) + 1
      ensures HandleOf(linkCount)
              == if HandleOf(old(linkCount)) + 1 > 65000 then 1 else HandleOf(old(linkCount)) + 1
      ensures JoinDone(old(W()), W(), slave, master, old(gap)[master].paramInterval, old(gap)[master].paramTimeout,
                       simTimeMs, addresses[master], addresses[slave])
    {
      hide Sound, Unread, JoinDone, Open, HandleOf, LastFree;
      ghost var w := W();
      var interval, timeout := gap[master].paramInterval, gap[master].paramTimeout;
      SoundSizes(w);
      NextHandle(linkCount);
      var s, m := FindSlots(master, slave);
      linkCount := linkCount + 1;
      FillSlots(s, m, interval, timeout);
      gap := gap[master := gap[master].(connecting := false)];
      parties := parties + [Parties(master, slave)];
      JoinedIs(w, W(), s, m, interval, timeout, simTimeMs, addresses[master], addresses[slave]);
    }

    /** Takes down both ends of a link, with their buffers, and tells both nodes. */
    method DisconnectSimulatorConnection(connection: Option<Ref>, reason: nat, reasonPartner: nat)
      returns (r: Result<(), Error>)
      requires Valid() && (connection.Some? ==> In(connections, connection.value))
      modifies `connections, `queues, `log
      ensures Valid()
      ensures r == if connection.Some? && At(old(connections), connection.value).active then Success(())
                   else Failure(InvalidConnHandle)
      ensures r.Success? ==> CutDone(old(W()), W(), connection.value, reason, reasonPartner)
      ensures r.Failure? ==> connections == old(connections) && log == old(log)
    {
      hide Sound, Unread;
      if connection.None? || !At(connections, connection.value).active {
        return Failure(InvalidConnHandle);
      }
      ghost var w := W();
      var self := connection.value;
      var c := At(connections, self);
      CutFacts(w, self, reason, reasonPartner);
      var partnerConnection := c.partnerConnection;
      if partnerConnection.None? {
        assert false;
      }
      var p := partnerConnection.value;
      var d := At(connections, p);
      connections := Put(connections, self, Closed(c));
      Push(c.owner, Disconnected(c.link, reason));
      connections := Put(connections, p, Closed(d));
      Push(c.partner, Disconnected(d.link, reasonPartner));
      assert W() == Cut(w, self, p, reason, reasonPartner);
      return Success(());
    }

    method FindConnectionByHandle(n: nat, handle: int) returns (r: Option<Ref>)
      requires n < |connections|
      ensures r == match FirstByHandle(connections[n], handle) case Some(k) => Some(Ref(n, k)) case None => None
    {
      var row := connections[n];
      for i := 0 to |row|
        invariant FirstByHandle(row[..i], handle).None?
      {
        assert row[..i + 1][..i] == row[..i];
        if row[i].active && HandleOf(row[i].link) == handle {
          FirstByHandlePrefix(row, i + 1, handle);
          return Some(Ref(n, i));
        }
      }
      assert row[..|row|] == row;
      return None;
    }

    method GapDisconnect(n: nat, handle: int) returns (r: Result<(), Error>)
      requires Valid() && n < |connections|
      modifies `connections, `queues, `log
      ensures Valid()
      ensures r == if FirstByHandle(old(connections)[n], handle).Some? then Success(())
                   else Failure(InvalidConnHandle)
      ensures r.Failure? ==> connections == old(connections) && log == old(log)
      ensures r.Success? ==> CutDone(old(W()), W(), Ref(n, FirstByHandle(old(connections)[n], handle).value),
                                     BLE_HCI_LOCAL_HOST_TERMINATED_CONNECTION,
                                     BLE_HCI_REMOTE_USER_TERMINATED_CONNECTION)
      ensures r.Success? ==> Ended(old(W()), W(), Ref(n, FirstByHandle(old(connections)[n], handle).value), 0x16, 0x13)
    {
      hide Sound, Unread, CutDone, Ended;
      ghost var w := W();
      var connection := FindConnectionByHandle(n, handle);
      r := DisconnectSimulatorConnection(connection, BLE_HCI_LOCAL_HOST_TERMINATED_CONNECTION,
                                         BLE_HCI_REMOTE_USER_TERMINATED_CONNECTION);
      if r.Success? {
        CutEnds(w, W(), connection.value, BLE_HCI_LOCAL_HOST_TERMINATED_CONNECTION,
                BLE_HCI_REMOTE_USER_TERMINATED_CONNECTION);
      }
    }

    // ---------- Queueing messages ----------

    /** Fills a free buffer with a message, under the next packet id. */
    method Enqueue(r: Ref, k: nat, message: Message)
      requires Valid() && In(connections, r) && At(connections, r).active
      requires FreeSlot(At(connections, r).buffers, message.kind) == Some(k)
      modifies `connections, `packetCount, `taken
      ensures Valid() && TakeDone(old(W()), W(), r, message, simTimeMs)
    {
      hide Sound, Unread, FirstEmpty, Refill;
      ghost var w := W();
      TakeFacts(w, r, k, message, simTimeMs);
      var c := At(connections, r);
      connections := Refill(connections, r, k,
                            Some(Packet(PacketId(packetCount), c.link, c.partner, simTimeMs, message)));
      packetCount := packetCount + 1;
      taken := taken[r.node := taken[r.node] + [Taken(c.link, message)]];
      assert W() == Took(w, r, k, message, simTimeMs);
    }

    /** A write is accepted if the handle names a link of the node, the data fit and a buffer is free. */
    method GattcWrite(n: nat, handle: int, op: WriteOp, attribute: nat, data: seq<bv8>, busy: bool)
      returns (r: Result<(), Error>)
      requires Valid() && n < |connections|
      modifies `connections, `packetCount, `taken
      ensures Valid()
      ensures r == if busy then Failure(Busy) else Admission(old(connections)[n], handle, KindOf(op), |data|)
      ensures r.Failure? ==> connections == old(connections) && packetCount == old(packetCount) && taken == old(taken)
      ensures r.Success? ==> TakeDone(old(W()), W(), Ref(n, FirstByHandle(old(connections)[n], handle).value),
                                      Message(KindOf(op).value, attribute, data), simTimeMs)
    {
      hide Sound, Unread, FirstByHandle, FirstEmpty, TakeDone;
      if busy {
        return Failure(Busy);
      }
      var connection := FindConnectionByHandle(n, handle);
      if connection.None? {
        return Failure(InvalidConnHandle);
      }
      var c := At(connections, connection.value);
      if |data| > c.mtu {
        return Failure(DataSize);
      }
      TakeNeeds(W(), connection.value);
      if c.partnerConnection.None? {
        assert false;
      }
      var buffer := None;
      if op == WRITE_REQ {
        if c.buffers.reliable.None? {
          buffer := Some(0);
        }
      } else if op == WRITE_CMD {
        var free := FindFreePacketBuffer(c.buffers);
        if free.Some? {
          buffer := Some(free.value + 1);
        }
      } else {
        return Failure(IllegalState);
      }
      if buffer.None? {
        return Failure(Resources);
      }
      Enqueue(connection.value, buffer.value, Message(KindOf(op).value, attribute, data));
      return Success(());
    }

    /** A notification is accepted if the handle names a link of the node and an unreliable buffer is free. */
    method GattsHvx(n: nat, handle: int, attribute: nat, data: seq<bv8>, busy: bool) returns (r: Result<(), Error>)
      requires Valid() && n < |connections|
      modifies `connections, `packetCount, `taken
      ensures Valid()
      ensures r == if busy then Failure(Busy) else Admission(old(connections)[n], handle, Some(Notification), 0)
      ensures r.Failure? ==> connections == old(connections) && packetCount == old(packetCount) && taken == old(taken)
      ensures r.Success? ==> TakeDone(old(W()), W(), Ref(n, FirstByHandle(old(connections)[n], handle).value),
                                      Message(Notification, attribute, data), simTimeMs)
    {
      hide Sound, Unread, FirstByHandle, FirstEmpty, TakeDone;
      if busy {
        return Failure(Busy);
      }
      var connection := FindConnectionByHandle(n, handle);
      if connection.None? {
        return Failure(InvalidConnHandle);
      }
      var c := At(connections, connection.value);
      TakeNeeds(W(), connection.value);
      if c.partnerConnection.None? {
        assert false;
      }
      var buffer := FindFreePacketBuffer(c.buffers);
      if buffer.None? {
        return Failure(Resources);
      }
      Enqueue(connection.value, buffer.value + 1, Message(Notification, attribute, data));
      return Success(());
    }

    // ---------- Connection events ----------

    /** Sends the next packet of a slot: the other node gets it, the buffer is free again. */
    method SendOne(r: Ref, k: nat)
      requires Valid() && In(connections, r) && At(connections, r).active
      requires NextSlot(At(connections, r).buffers) == Some(k)
      modifies `connections, `queues, `log
      ensures Valid() && SendDone(old(W()), W(), r, k)
    {
      hide Sound, Unread, Refill, Lowest;
      ghost var w := W();
      SendFacts(w, r, k);
      var packet := At(connections, r).buffers.Slots()[k].value;
      Push(packet.receiver, Received(packet.link, packet.message));
      connections := Refill(connections, r, k, None);
      assert W() == Sent(w, r, k);
    }

    method SendUnreliableTxCompleteEvent(n: nat, link: nat, packetCount: nat)
      requires Valid() && n < |connections| && (packetCount > 0 ==> Live(connections[n], link))
      modifies `queues, `log
      ensures Valid() && log == if packetCount > 0 then Logged(old(log), n, TxComplete(link, packetCount)) else old(log)
    {
      if packetCount > 0 {
        PushAbout(n, TxComplete(link, packetCount));
      }
    }

    /** Sends a reliable write: what was sent before it is confirmed first, its own response comes last. */
    method SendReliable(ghost w: World, r: Ref, k: nat, slot: nat)
      requires Valid() && In(connections, r) && At(connections, r).active
      requires NextSlot(At(connections, r).buffers) == Some(slot)
      requires PartlySent(w, W(), r, k, [])
      modifies `connections, `queues, `log
      ensures Valid() && k < |Waiting(w, r)|
      ensures PartlySent(w, W(), r, k + 1,
                         TxEvent(At(w.t, r).link, k) + [WriteResponse(At(w.t, r).link, Waiting(w, r)[k].id)])
    {
      hide Sound, Unread, PartlySent, SendDone, Lowest, Drain;
      var link, id := At(connections, r).link, At(connections, r).buffers.Slots()[slot].value.id;
      NextWaiting(w, W(), r, k, [], slot);
      LinkIsLive(W(), r);
      ghost var own := TxEvent(link, k);
      ghost var v := W();
      PartlyFacts(w, v, r, k, []);
      SendUnreliableTxCompleteEvent(r.node, link, k);
      Finished(w, v, W(), r, k, [], k);
      assert [] + own == own;
      v := W();
      SendOne(r, slot);
      SentNext(w, v, W(), r, k, own, slot);
      PartlyFacts(w, W(), r, k + 1, own);
      LinkIsLive(W(), r);
      v := W();
      PushAbout(r.node, WriteResponse(link, id));
      OwnEvent(w, v, W(), r, k + 1, own, WriteResponse(link, id));
    }

    /** Sends what the budget allows. On a slot that has just been closed it does nothing. */
    method SendQueued(r: Ref, numPacketsToSend: nat)
      returns (unreliablePacketsSent: nat, ghost sent: nat, ghost own: seq<Event>)
      requires Valid() && In(connections, r)
      modifies `connections, `queues, `log
      ensures Valid()
      ensures At(old(connections), r).active ==>
                && PartlySent(old(W()), W(), r, sent, own)
                && BurstOver(Waiting(old(W()), r), numPacketsToSend, At(old(connections), r).link, sent, own,
                             unreliablePacketsSent)
      ensures !At(old(connections), r).active ==> W() == old(W()) && unreliablePacketsSent == 0
    {
      hide Sound, Unread, PartlySent, SendDone, Lowest, Drain, Live, BurstOver;
      ghost var w := W();
      var link, up := At(connections, r).link, At(connections, r).active;
      ghost var q := Waiting(w, r);
      own, sent := [], 0;
      if up {
        NothingSent(w, r);
      }
      unreliablePacketsSent := 0;
      var k := 0;
      while k < numPacketsToSend
        invariant k <= numPacketsToSend && Valid() && unreliablePacketsSent == k == sent && own == []
        invariant up ==> PartlySent(w, W(), r, k, []) && k <= |q| && forall j | 0 <= j < k :: !q[j].Reliable()
        invariant !up ==> W() == w && k == 0
        invariant In(connections, r) && At(connections, r).active == up
      {
        SlotFacts(W(), r);
        var packet := GetNextPacketToWrite(At(connections, r).buffers);
        if packet.None? {
          if up {
            AllSent(w, W(), r, k, []);
          }
          break;
        }
        var reliable := At(connections, r).buffers.Slots()[packet.value].value.Reliable();
        NextWaiting(w, W(), r, k, [], packet.value);
        ghost var v := W();
        if !reliable {
          SendOne(r, packet.value);
          SentNext(w, v, W(), r, k, [], packet.value);
          PartlyFacts(w, W(), r, k + 1, []);
          unreliablePacketsSent := unreliablePacketsSent + 1;
          sent := sent + 1;
        } else {
          SendReliable(w, r, k, packet.value);
          unreliablePacketsSent := 0;
          own, sent := TxEvent(link, k) + [WriteResponse(link, q[k].id)], k + 1;
          break;
        }
        k := k + 1;
      }
      if up {
        BurstEnds(q, numPacketsToSend, sent, link, own, unreliablePacketsSent);
      }
    }

    /** The sending part of a connection event. */
    method SendPackets(r: Ref, numPacketsToSend: nat)
      requires Valid() && In(connections, r)
      modifies `connections, `queues, `log
      ensures Valid()
      ensures At(old(connections), r).active ==> BurstDone(old(W()), W(), r, numPacketsToSend)
      ensures !At(old(connections), r).active ==> W() == old(W())
    {
      hide Sound, Unread, PartlySent, Live, Drain, BurstDone, BurstOver;
      ghost var w := W();
      var link, up := At(connections, r).link, At(connections, r).active;
      var unreliablePacketsSent, sent, own := SendQueued(r, numPacketsToSend);
      if up {
        PartlyFacts(w, W(), r, sent, own);
        LinkIsLive(W(), r);
      }
      ghost var v := W();
      SendUnreliableTxCompleteEvent(r.node, link, unreliablePacketsSent);
      if up {
        Finished(w, v, W(), r, sent, own, unreliablePacketsSent);
        BurstIsDone(w, W(), r, numPacketsToSend, sent, own, unreliablePacketsSent);
      }
    }

    method CountConnections(n: nat) returns (count: nat)
      requires n < |connections|
      ensures count == CountLinks(connections[n])
    {
      count := 0;
      var row := connections[n];
      for i := 0 to |row|
        invariant count == CountLinks(row[..i])
      {
        assert row[..i + 1][..i] == row[..i];
        if row[i].active {
          count := count + 1;
        }
      }
      assert row[..|row|] == row;
    }

    /** Changes bookkeeping fields of a slot. */
    method Touch(r: Ref, c: Connection)
      requires Valid() && In(connections, r) && Alike(At(connections, r), c)
      modifies `connections
      ensures Valid() && connections == Put(old(connections), r, c)
    {
      hide Sound, Unread;
      TouchFacts(W(), r, c);
      connections := Put(connections, r, c);
    }

    /** Whether the next packet of a slot has waited for too long. */
    method WaitsTooLong(c: Connection) returns (late: bool)
      requires |c.buffers.unreliable| == NUM_UNRELIABLE
      ensures late == Stale(c, simTimeMs)
    {
      hide Lowest;
      var packet := GetNextPacketToWrite(c.buffers);
      if packet.Some? {
        var timeInQueueMs := U32(simTimeMs - c.buffers.Slots()[packet.value].value.queuedAt);
        if timeInQueueMs > MAX_QUEUE_TIME_MS {
          return true;
        }
      }
      return false;
    }

    /** One connection event of one slot: the link is dropped if a packet has waited too long or the partner was
        not heard for too long; otherwise some packets are sent. After the second kind of drop the simulator
        carries on with the event, which then finds nothing to send. */
    method ConnectionEvent(r: Ref, draw: nat, reachable: bool)
      requires Valid() && In(connections, r)
      modifies `connections, `queues, `log
      ensures Valid()
      ensures EventDone(old(W()), W(), r, gap[r.node].timeMs, simTimeMs, draw, reachable)
      ensures EventIs(old(W()), W(), r, gap[r.node].timeMs, simTimeMs, draw, reachable)
    {
      hide EventIs;
      hide Sound, Unread, CutDone, BurstDone, Lowest, Budget, CountLinks, Stale, EventInterval, EventDone;
      ghost var w0 := W();
      var c := At(connections, r);
      var timeMs := gap[r.node].timeMs;
      if !c.active || timeMs < U32(c.lastEvent + EventInterval(c)) {
        EventIsNotDue(w0, r, timeMs, simTimeMs, draw, reachable);
        EventOutcome(w0, W(), r, timeMs, simTimeMs, draw, reachable);
        return;
      }
      var numConnections := CountConnections(r.node);
      var numPacketsToSend := Budget(numConnections, draw, reachable);
      var started := Started(c, timeMs, simTimeMs, reachable);
      Touch(r, started);
      ghost var w := W();
      SlotFacts(w, r);
      var late := WaitsTooLong(started);
      StaleStays(c, timeMs, simTimeMs, reachable);
      if late {
        var _ := DisconnectSimulatorConnection(Some(r), BLE_HCI_CONNECTION_TIMEOUT, BLE_HCI_CONNECTION_TIMEOUT);
        EventDrops(w0, W(), r, timeMs, simTimeMs, draw, reachable);
        EventOutcome(w0, W(), r, timeMs, simTimeMs, draw, reachable);
        return;
      }
      if simTimeMs >= U32(started.lastReceived + started.supervisionTimeout) {
        var _ := DisconnectSimulatorConnection(Some(r), BLE_HCI_CONNECTION_TIMEOUT, BLE_HCI_CONNECTION_TIMEOUT);
        CutCloses(w, W(), r, BLE_HCI_CONNECTION_TIMEOUT, BLE_HCI_CONNECTION_TIMEOUT);
        EventDrops(w0, W(), r, timeMs, simTimeMs, draw, reachable);
      }
      SendPackets(r, numPacketsToSend);
      if At(w.t, r).active && !Lost(started, simTimeMs) {
        EventSends(w0, W(), r, timeMs, simTimeMs, draw, reachable);
      }
      EventOutcome(w0, W(), r, timeMs, simTimeMs, draw, reachable);
    }

    /** A connection event for every slot of a node. */
    method ConnectionEvents(n: nat, draws: seq<nat>, reachable: seq<bool>) returns (ghost ws: seq<World>)
      requires Valid() && n < |connections| && |draws| == total == |reachable|
      modifies `connections, `queues, `log
      ensures Valid() && EventPass(ws, n, gap[n].timeMs, simTimeMs, draws, reachable)
      ensures ws[0] == old(W()) && ws[|ws| - 1] == W() && Progress(old(W()), W())
    {
      hide Sound, Unread, EventDone, Progress;
      ws := [W()];
      NothingIsProgress(W());
      for i := 0 to total
        invariant Valid() && |connections| == |old(connections)|
        invariant |ws| == i + 1 && ws[0] == old(W()) && ws[i] == W() && Progress(old(W()), W())
        invariant forall j | 0 <= j < i ::
                    EventDone(ws[j], ws[j + 1], Ref(n, j), gap[n].timeMs, simTimeMs, draws[j], reachable[j])
      {
        ConnectionEvent(Ref(n, i), draws[i], reachable[i]);
        EventIsProgress(ws[i], W(), Ref(n, i), gap[n].timeMs, simTimeMs, draws[i], reachable[i]);
        ProgressChains(old(W()), ws[i], W());
        SameTable(ws[i], W());
        ws := ws + [W()];
      }
    }

    method RssiMeasurements(n: nat, due: seq<bool>) returns (ghost ws: seq<World>)
      requires Valid() && n < |connections| && |due| == total
      modifies `queues, `log
      ensures Valid() && RssiPass(ws, n, due)
      ensures ws[0] == old(W()) && ws[|ws| - 1] == W() && Progress(old(W()), W())
    {
      hide Sound, Unread, Progress;
      ws := [W()];
      NothingIsProgress(W());
      for i := 0 to total
        invariant Valid()
        invariant |ws| == i + 1 && ws[0] == old(W()) && ws[i] == W() && Progress(old(W()), W())
        invariant forall j | 0 <= j < i :: RssiDone(ws[j], ws[j + 1], Ref(n, j), due[j])
      {
        var c := At(connections, Ref(n, i));
        SoundSizes(W());
        if due[i] && c.active && c.rssiActive {
          LinkIsLive(W(), Ref(n, i));
          PushAbout(n, RssiChanged(c.link));
        }
        RssiIsProgress(ws[i], W(), Ref(n, i), due[i]);
        ProgressChains(old(W()), ws[i], W());
        ws := ws + [W()];
      }
    }

    method ConnectionLosses(n: nat, losses: seq<bool>) returns (ghost ws: seq<World>)
      requires Valid() && n < |connections| && |losses| == total
      modifies `connections, `queues, `log
      ensures Valid() && LossPass(ws, n, losses)
      ensures ws[0] == old(W()) && ws[|ws| - 1] == W() && Progress(old(W()), W())
      ensures forall j | 0 <= j < total && losses[j] :: !At(connections, Ref(n, j)).active
    {
      hide Sound, Unread, CutDone, Progress;
      ws := [W()];
      NothingIsProgress(W());
      for i := 0 to total
        invariant Valid() && |connections| == |old(connections)|
        invariant |ws| == i + 1 && ws[0] == old(W()) && ws[i] == W() && Progress(old(W()), W())
        invariant forall j | 0 <= j < i :: LossDone(ws[j], ws[j + 1], Ref(n, j), losses[j])
        invariant forall j | 0 <= j < i && losses[j] :: !At(connections, Ref(n, j)).active
      {
        if At(connections, Ref(n, i)).active && losses[i] {
          var _ := DisconnectSimulatorConnection(Some(Ref(n, i)), BLE_HCI_CONNECTION_TIMEOUT,
                                                 BLE_HCI_CONNECTION_TIMEOUT);
        }
        LossIsProgress(ws[i], W(), Ref(n, i), losses[i]);
        SameTable(ws[i], W());
        StaysDown(ws[i], W(), n, i, losses);
        ProgressChains(old(W()), ws[i], W());
        ws := ws + [W()];
      }
    }

    /** One simulation step of a node's connections, which opens no link and queues no message: connection
        events, RSSI measurements and random losses, slot by slot. */
    method SimulateConnections(n: nat, blocked: bool, draws: seq<nat>, reachable: seq<bool>, rssiDue: seq<bool>,
                               losses: seq<bool>)
      returns (ghost events: seq<World>, ghost measurements: seq<World>, ghost lost: seq<World>)
      requires Valid() && n < |connections|
      requires |draws| == total == |reachable| && |rssiDue| == total == |losses|
      modifies `connections, `queues, `log
      ensures Valid() && Progress(old(W()), W())
      ensures blocked ==> W() == old(W())
      ensures !blocked ==>
                && EventPass(events, n, gap[n].timeMs, simTimeMs, draws, reachable)
                && RssiPass(measurements, n, rssiDue) && LossPass(lost, n, losses)
                && events[0] == old(W()) && measurements[0] == events[total]
                && lost[0] == measurements[total] && lost[total] == W()
    {
      hide Sound, Unread, EventDone, RssiDone, LossDone, Progress;
      events, measurements, lost := [], [], [];
      NothingIsProgress(W());
      if blocked {
        return;
      }
      ghost var w := W();
      events := ConnectionEvents(n, draws, reachable);
      SameTable(w, W());
      ghost var v := W();
      measurements := RssiMeasurements(n, rssiDue);
      ProgressChains(w, v, W());
      v := W();
      lost := ConnectionLosses(n, losses);
      ProgressChains(w, v, W());
    }

    // ---------- Connection parameters and signal strength ----------

    method RssiSet(n: nat, handle: int, on: bool) returns (r: Result<(), Error>)
      requires Valid() && n < |connections|
      modifies `connections
      ensures Valid()
      ensures r == if FirstByHandle(old(connections)[n], handle).Some? then Success(()) else Failure(InvalidConnHandle)
      ensures r.Failure? ==> connections == old(connections)
      ensures r.Success? ==>
                var c := Ref(n, FirstByHandle(old(connections)[n], handle).value);
                connections == Put(old(connections), c, At(old(connections), c).(rssiActive := on))
    {
      hide Sound, Unread, FirstByHandle;
      var connection := FindConnectionByHandle(n, handle);
      if connection.None? {
        return Failure(InvalidConnHandle);
      }
      Touch(connection.value, At(connections, connection.value).(rssiActive := on));
      return Success(());
    }

    /** The central changes the interval of both ends, and both nodes are told. */
    method Retime(r: Ref, params: ConnParams)
      requires Valid() && In(connections, r) && At(connections, r).active
      modifies `connections, `queues, `log
      ensures Valid() && RetimeDone(old(W()), W(), r, params, ToMs(params.minInterval, UNIT_1_25_MS))
    {
      hide Sound, Unread, Retimed, Live;
      ghost var w := W();
      var c := At(connections, r);
      SoundPair(w, r);
      LinkIsLive(w, r);
      SoundLive(w, r);
      SoundSizes(w);
      PushAbout(c.owner, ParamUpdate(c.link, params.minInterval, params.maxInterval));
      PushAbout(c.partner, ParamUpdate(c.link, params.minInterval, params.maxInterval));
      RetimeFacts(W(), r, ToMs(params.minInterval, UNIT_1_25_MS));
      connections := Retimed(connections, r, c.partnerConnection.value, ToMs(params.minInterval, UNIT_1_25_MS));
    }

    /** The central refuses a pending request, or lets it time out. */
    method Refuse(r: Ref)
      requires Valid() && In(connections, r) && At(connections, r).active
      modifies `connections, `queues, `log
      ensures Valid() && RefuseDone(old(W()), W(), r)
    {
      hide Sound, Unread, Live;
      var c := At(connections, r);
      SameInterval(W(), r);
      SoundLive(W(), r);
      SoundSizes(W());
      PushAbout(c.partner, ParamUpdate(c.link, At(connections, c.partnerConnection.value).interval,
                                       At(connections, c.partnerConnection.value).interval));
      Touch(r, Answered(c));
    }

    /** The peripheral asks the central for new parameters. */
    method Request(r: Ref, params: ConnParams, timerDs: nat)
      requires Valid() && In(connections, r) && At(connections, r).active
      modifies `connections, `queues, `log
      ensures Valid() && At(old(connections), r).partnerConnection.Some?
      ensures RequestDone(old(W()), W(), At(old(connections), r).partnerConnection.value, params, timerDs)
    {
      hide Sound, Unread, Live;
      SameInterval(W(), r);
      SoundSizes(W());
      var p := At(connections, r).partnerConnection.value;
      LinkIsLive(W(), p);
      var d := At(connections, p);
      PushAbout(d.owner, ParamUpdateRequest(d.link, params));
      Touch(p, Requested(d, params, timerDs));
    }

    method ConnParamUpdate(n: nat, handle: int, params: Option<ConnParams>, timerDs: nat, busy: bool)
      returns (r: Result<(), Error>)
      requires Valid() && n < |connections|
      modifies `connections, `queues, `log
      ensures Valid()
      ensures busy ==> r == Failure(Busy) && W() == old(W())
      ensures !busy && FirstByHandle(old(connections)[n], handle).None? ==>
                r == Failure(InvalidConnHandle) && W() == old(W())
      ensures !busy && FirstByHandle(old(connections)[n], handle).Some? ==>
                ParamDone(old(W()), W(), Ref(n, FirstByHandle(old(connections)[n], handle).value), params, timerDs, r)
    {
      hide Sound, Unread, FirstByHandle, RetimeDone, RefuseDone, RequestDone, ToMs;
      if busy {
        return Failure(Busy);
      }
      var connection := FindConnectionByHandle(n, handle);
      if connection.None? {
        return Failure(InvalidConnHandle);
      }
      var self := connection.value;
      SameInterval(W(), self);
      var c := At(connections, self);
      var d := At(connections, c.partnerConnection.value);
      if c.isCentral {
        if c.paramPending {
          if params.Some? {
            if params.value != c.paramRequest {
              return Failure(InvalidParam);
            }
            Retime(self, params.value);
          } else {
            Refuse(self);
          }
        } else {
          if params.None? {
            return Failure(InvalidAddr);
          }
          Retime(self, params.value);
        }
      } else {
        if d.paramPending {
          return Failure(Busy);
        }
        if params.None? {
          return Failure(InvalidAddr);
        }
        Request(self, params.value, timerDs);
      }
      return Success(());
    }

    /** Requests that the central has left unanswered for too long count as refused. */
    method SimulateConnectionParameterUpdateRequestTimeout(n: nat, timerDs: nat) returns (ghost ws: seq<World>)
      requires Valid() && n < |connections|
      modifies `connections, `queues, `log
      ensures Valid() && TimeoutPass(ws, n, timerDs, total)
      ensures ws[0] == old(W()) && ws[total] == W() && Progress(old(W()), W())
    {
      hide Sound, Unread, RefuseDone, Progress;
      ws := [W()];
      NothingIsProgress(W());
      for i := 0 to total
        invariant Valid() && |connections| == |old(connections)|
        invariant |ws| == i + 1 && ws[0] == old(W()) && ws[i] == W() && Progress(old(W()), W())
        invariant forall j | 0 <= j < i :: TimeoutDone(ws[j], ws[j + 1], Ref(n, j), timerDs)
      {
        var c := At(connections, Ref(n, i));
        if c.active && c.isCentral && c.paramPending && timerDs >= c.paramTimeout {
          Refuse(Ref(n, i));
        }
        TimeoutIsProgress(ws[i], W(), Ref(n, i), timerDs);
        ProgressChains(old(W()), ws[i], W());
        SameTable(ws[i], W());
        ws := ws + [W()];
      }
    }

    // ---------- Events, clocks and reset ----------

    /** The node takes the oldest event out of its queue. */
    method EvtGet(n: nat) returns (r: Result<Event, Error>)
      requires Valid() && n < |connections|
      modifies `queues, `read
      ensures Valid() && W() == old(W())
      ensures n < |log| && n < |old(read)|
      ensures r == if old(read)[n] == |log[n]| then Failure(NotFound) else Success(log[n][old(read)[n]])
      ensures read == if r.Success? then old(read)[n := old(read)[n] + 1] else old(read)
    {
      SoundSizes(W());
      hide Sound;
      if queues[n] == [] {
        return Failure(NotFound);
      }
      r := Success(queues[n][0]);
      queues := queues[n := queues[n][1..]];
      read := read[n := read[n] + 1];
    }

    method Tick(ms: nat)
      requires Valid()
      modifies `simTimeMs
      ensures Valid() && simTimeMs == (old(simTimeMs) + ms) % 4294967296
    {
      hide Sound;
      simTimeMs := U32(simTimeMs + ms);
    }

    method TickNode(n: nat, ms: nat)
      requires Valid() && n < |connections|
      modifies `gap
      ensures Valid()
      ensures gap == old(gap)[n := old(gap)[n].(timeMs := (old(gap)[n].timeMs + ms) % 4294967296)]
    {
      SetGap(n, gap[n].(timeMs := U32(gap[n].timeMs + ms)));
    }

    /** Boots a node that has no links: fresh slots, an idle SoftDevice and an empty queue. */
    method BootCurrentNode(n: nat)
      requires Valid() && n < |connections| && forall k | 0 <= k < total :: !connections[n][k].active
      modifies `connections, `gap, `queues, `read
      ensures Valid() && n < |queues| && queues[n] == []
      ensures n < |old(read)| && n < |log| && read == old(read)[n := |log[n]|]
      ensures gap == old(gap)[n := Gap(0, false, ADV_IND, false, false, 0, 0, 0, 0)]
      ensures W() == old(W()).(t := old(connections)[n := FreshRow(total)], intents := Intents(gap))
      ensures |connections| == |old(connections)| && forall k | 0 <= k < |connections[n]| :: Blank(connections[n][k])
    {
      SoundSizes(W());
      hide Sound;
      FreshRowFacts(W(), n, FreshRow(total));
      IntentsUpdate(gap, n, IDLE);
      connections := connections[n := FreshRow(total)];
      gap := gap[n := IDLE];
      queues, read := queues[n := []], read[n := |log[n]|];
    }

    /** Closes all links of a node. */
    method DisconnectAll(n: nat) returns (ghost ws: seq<World>)
      requires Valid() && n < |connections|
      modifies `connections, `queues, `log
      ensures Valid() && LossPass(ws, n, AllLost(total)) && ws[0] == old(W()) && ws[total] == W()
      ensures Progress(old(W()), W())
      ensures |connections| == |old(connections)|
      ensures forall k | 0 <= k < total :: !connections[n][k].active
    {
      hide Sound, Unread, CutDone, Progress;
      ghost var all := AllLost(total);
      ws := [W()];
      NothingIsProgress(W());
      for i := 0 to total
        invariant Valid() && |connections| == |old(connections)|
        invariant |ws| == i + 1 && ws[0] == old(W()) && ws[i] == W() && Progress(old(W()), W())
        invariant forall j | 0 <= j < i :: LossDone(ws[j], ws[j + 1], Ref(n, j), all[j])
        invariant forall j | 0 <= j < i && all[j] :: !At(connections, Ref(n, j)).active
      {
        var _ := DisconnectSimulatorConnection(Some(Ref(n, i)), BLE_HCI_CONNECTION_TIMEOUT, BLE_HCI_CONNECTION_TIMEOUT);
        LossIsProgress(ws[i], W(), Ref(n, i), all[i]);
        SameTable(ws[i], W());
        StaysDown(ws[i], W(), n, i, all);
        ProgressChains(old(W()), ws[i], W());
        ws := ws + [W()];
      }
      forall k | 0 <= k < total
        ensures !connections[n][k].active
      {
        assert !At(connections, Ref(n, k)).active;
      }
    }

    /** A reboot: all links of the node are closed, then its SoftDevice state and its queue start afresh. */
    method ResetCurrentNode(n: nat) returns (ghost ws: seq<World>)
      requires Valid() && n < |connections|
      modifies `connections, `gap, `queues, `log, `read
      ensures Valid()
      ensures LossPass(ws, n, AllLost(total)) && ws[0] == old(W()) && n < |ws[total].t|
      ensures Progress(old(W()), ws[total]) && |ws[total].t[n]| == total
      ensures W() == ws[total].(t := ws[total].t[n := FreshRow(total)], intents := Intents(gap))
      ensures gap == old(gap)[n := Gap(0, false, ADV_IND, false, false, 0, 0, 0, 0)] && n < |queues| && queues[n] == []
      ensures n < |old(read)| && n < |log| && read == old(read)[n := |log[n]|]
      ensures forall r | In(connections, r) && At(connections, r).active ::
                r.node != n && At(connections, r).partner != n
    {
      hide Sound, Unread, LossDone, Progress;
      ws := DisconnectAll(n);
      BootCurrentNode(n);
      forall r | In(connections, r) && At(connections, r).active
        ensures r.node != n && At(connections, r).partner != n
      {
        NobodyLinkedTo(W(), n, r);
      }
    }

    // ---------- Advertising events ----------

    /** Offers an advertisement of node n to node i. */
    method Offer(n: nat, i: nat, received: bool) returns (joined: bool)
      requires Valid() && n < |connections| && i < |connections| && gap[n].advertising
      modifies `connections, `gap, `queues, `log, `linkCount, `parties
      ensures Valid()
      ensures joined == (i != n && !old(gap)[i].scanning && old(gap)[i].connecting && old(gap)[n].advType == ADV_IND
                         && old(gap)[i].peerAddress == addresses[n] && received)
      ensures !joined ==>
                && gap == old(gap) && n < |old(log)| && i < |old(log)|
                && W() == old(W()).(log := if i != n && old(gap)[i].scanning && received
                                           then Logged(old(log), i, AdvReport(n)) else old(log))
      ensures joined ==>
                && gap == old(gap)[i := old(gap)[i].(connecting := false)][n := old(gap)[n].(advertising := false)]
                && JoinDone(old(W()), W(), n, i, old(gap)[i].paramInterval, old(gap)[i].paramTimeout, simTimeMs,
                            addresses[i], addresses[n])
    {
      hide Sound, Unread, JoinDone, Live;
      SoundSizes(W());
      joined := false;
      if i != n {
        if gap[i].scanning {
          if received {
            PushAbout(i, AdvReport(n));
          }
        } else if gap[i].connecting && gap[n].advType == ADV_IND {
          if gap[i].peerAddress == addresses[n] {
            if received {
              ghost var w, g := W(), gap;
              ConnectMasterToSlave(i, n);
              ghost var v := W();
              assert gap[n] == g[n];
              gap := gap[n := gap[n].(advertising := false)];
              joined := true;
              IntentsOfJoin(g, n, i);
              JoinStays(w, v, W(), n, i, g[i].paramInterval, g[i].paramTimeout, simTimeMs, addresses[i], addresses[n]);
              JoinIsSound(w, W(), n, i, g[i].paramInterval, g[i].paramTimeout, simTimeMs, addresses[i], addresses[n]);
            }
          }
        }
      }
    }

    /** One advertising event of a node: scanning nodes get a report, and the first node that is connecting to it
        and hears it gets the link. That ends the advertising and the event. */
    method SimulateAdvertising(n: nat, due: bool, indexStep: nat, draw: nat, received: seq<bool>)
      returns (ghost master: Option<nat>, ghost heard: Log)
      requires Valid() && n < |connections| && |received| == meshNodes
      modifies `connections, `gap, `queues, `log, `linkCount, `parties
      ensures Valid()
      ensures !(old(gap)[n].advertising && due) ==> master.None? && W() == old(W()) && gap == old(gap)
      ensures old(gap)[n].advertising && due ==>
                Advertised(old(W()), W(), old(gap), gap, received, n, if indexStep <= 1 then 0 else draw % indexStep,
                           if indexStep == 0 then 1 else indexStep, addresses, simTimeMs, master, heard)
    {
      hide Sound, Unread, JoinDone, Hears, Takes, Reported;
      master, heard := None, log;
      if !gap[n].advertising || !due {
        return;
      }
      var step, start := Step(indexStep), Start(indexStep, draw);
      ghost var w, g := W(), gap;
      NothingReported(log, g, received, n, start, step);
      var i := start;
      while i < meshNodes
        invariant Valid() && gap == g && W() == w.(log := heard) && log == heard
        invariant i >= start && (i - start) % step == 0
        invariant Reported(w.log, heard, g, received, n, start, step, i)
        invariant forall j: nat | j < i :: !Takes(g, received, n, start, step, addresses[n], j)
      {
        ghost var before := log;
        var joined := Offer(n, i, received[i]);
        TakesNext(g, received, n, start, step, addresses[n], i);
        if joined {
          master := Some(i);
          return;
        }
        ReportNext(w.log, before, log, g, received, n, start, step, i);
        heard := log;
        i := i + step;
      }
      ReportLimit(w.log, heard, g, received, n, start, step, i);
    }

    // ---------- Runs ----------

    ghost predicate Shaped(s: Snapshot) {
      |s.gap| == |s.w.t| == |s.w.log| == |s.read| == |limits| == |addresses|
    }

    lemma NowIsShaped()
      requires Valid()
      ensures Shaped(Now()) && |Now().gap| == |connections|
    {
      SoundSizes(W());
      hide Sound;
    }

    /** What the calls do that change only the GAP state of a node. */
    ghost predicate DoesGap(a: Action, s: Snapshot, s': Snapshot)
      requires Shaped(s) && !a.Clock? && a.n < |s.gap|
    {
      var g, t := s.gap[a.n], s.w.t[a.n];
      match a
      case DoAdvStart(n, advType, busy) =>
        s' == if busy || (advType != ADV_NONCONN_IND && CountRole(t, false) >= limits[n].peripheral) then s
              else s.With(n, g.(advertising := true, advType := advType))
      case DoAdvStop(n) => s' == s.With(n, g.(advertising := false))
      case DoScanStart(n, busy) => s' == if busy || g.connecting then s else s.With(n, g.(scanning := true))
      case DoScanStop(n) => s' == s.With(n, g.(scanning := false))
      case DoConnect(n, peer, timeoutS, params, busy) =>
        s' == if g.connecting || busy || CountRole(t, true) >= limits[n].central || LastFree(t).None? then s
              else s.With(n, g.(scanning := false, connecting := true, peerAddress := peer,
                                connectDeadline := I32(s.simTimeMs + 1000 * timeoutS),
                                paramInterval := params.minInterval * 5 / 4, paramTimeout := params.supTimeout * 10))
      case DoConnectCancel(n) => s' == s.With(n, g.(connecting := false))
      case NodeClock(n, ms) => s' == s.With(n, g.(timeMs := (g.timeMs + ms) % 4294967296))
      case _ => true
    }

    method PerformGap(a: Action)
      requires Valid() && a.OnlyGap() && a.n < |connections|
      modifies `gap
      ensures Valid() && Persists(old(W()), W())
      ensures Shaped(old(Now())) && DoesGap(a, old(Now()), Now())
    {
      hide Sound, Unread, Intents, Persists, DoesGap;
      ghost var w := W();
      if a.DoConnect? {
        PerformConnect(a);
      } else if a.DoConnectCancel? || a.NodeClock? {
        PerformCancelOrClock(a);
      } else {
        PerformAdvertiseOrScan(a);
      }
      SameLinksPersist(w, W());
    }

    method PerformConnect(a: Action)
      requires Valid() && a.DoConnect? && a.n < |connections|
      modifies `gap
      ensures Valid()
      ensures Shaped(old(Now())) && DoesGap(a, old(Now()), Now())
    {
      NowIsShaped();
      hide Sound, Unread, Intents, CountRole, LastFree, I32;
      var _ := GapConnect(a.n, a.peer, a.timeoutS, a.params, a.busy);
    }

    method PerformCancelOrClock(a: Action)
      requires Valid() && (a.DoConnectCancel? || a.NodeClock?) && a.n < |connections|
      modifies `gap
      ensures Valid()
      ensures Shaped(old(Now())) && DoesGap(a, old(Now()), Now())
    {
      NowIsShaped();
      hide Sound, Unread, Intents, CountRole, LastFree, I32;
      if a.DoConnectCancel? {
        ConnectCancel(a.n);
      } else {
        TickNode(a.n, a.ms);
      }
    }

    method PerformAdvertiseOrScan(a: Action)
      requires Valid() && (a.DoAdvStart? || a.DoAdvStop? || a.DoScanStart? || a.DoScanStop?) && a.n < |connections|
      modifies `gap
      ensures Valid()
      ensures Shaped(old(Now())) && DoesGap(a, old(Now()), Now())
    {
      NowIsShaped();
      hide Sound, Unread, Intents, CountRole, LastFree, I32;
      match a {
        case DoAdvStart(n, advType, busy) => var _ := AdvStart(n, advType, busy);
        case DoAdvStop(n) => AdvStop(n);
        case DoScanStart(n, busy) => var _ := ScanStart(n, busy);
        case DoScanStop(n) => var _ := ScanStop(n);
        case _ =>
      }
    }

    /** What the clock, the timeouts and the taking of events do. */
    ghost predicate DoesAside(a: Action, s: Snapshot, s': Snapshot)
      requires Shaped(s) && (a.Clock? || a.n < |s.gap|)
    {
      match a
      case DoEvtGet(n) => s' == if s.read[n] == |s.w.log[n]| then s else s.(read := s.read[n := s.read[n] + 1])
      case Timeouts(n) =>
        var u := s.With(n, s.gap[n].(connecting := false));
        s' == if !s.gap[n].connecting || s.gap[n].connectDeadline > I32(s.simTimeMs) then s
              else u.(w := u.w.(log := Logged(u.w.log, n, ConnectTimeout)))
      case Clock(ms) => s' == s.(simTimeMs := (s.simTimeMs + ms) % 4294967296)
      case _ => true
    }

    method PerformTimeouts(a: Action)
      requires Valid() && a.Timeouts? && a.n < |connections|
      modifies `gap, `queues, `log
      ensures Valid()
      ensures Shaped(old(Now())) && DoesAside(a, old(Now()), Now())
    {
      NowIsShaped();
      hide Sound, Unread, Intents, I32;
      SimulateTimeouts(a.n);
    }

    method PerformAside(a: Action)
      requires Valid() && (a.Clock? || ((a.Timeouts? || a.DoEvtGet?) && a.n < |connections|))
      modifies `gap, `queues, `log, `read, `simTimeMs
      ensures Valid() && Persists(old(W()), W())
      ensures Shaped(old(Now())) && DoesAside(a, old(Now()), Now())
    {
      NowIsShaped();
      hide Sound, Unread, Intents, I32, Persists;
      ghost var w := W();
      if a.Timeouts? {
        PerformTimeouts(a);
      } else if a.DoEvtGet? {
        var _ := EvtGet(a.n);
      } else {
        Tick(a.ms);
      }
      SameLinksPersist(w, W());
    }

    ghost predicate DoesDisconnect(n: nat, handle: int, s: Snapshot, s': Snapshot)
      requires n < |s.w.t|
    {
      match FirstByHandle(s.w.t[n], handle)
      case None => s' == s
      case Some(k) => s' == s.(w := s'.w) && CutDone(s.w, s'.w, Ref(n, k), 0x16, 0x13)
    }

    method PerformDisconnect(n: nat, handle: int)
      requires Valid() && n < |connections|
      modifies `connections, `queues, `log
      ensures Valid() && Persists(old(W()), W())
      ensures DoesDisconnect(n, handle, old(Now()), Now())
    {
      hide Sound, Unread, CutDone, Persists, FirstByHandle;
      ghost var w := W();
      var r := GapDisconnect(n, handle);
      if r.Success? {
        CutPersists(w, W(), Ref(n, FirstByHandle(w.t[n], handle).value), BLE_HCI_LOCAL_HOST_TERMINATED_CONNECTION,
                    BLE_HCI_REMOTE_USER_TERMINATED_CONNECTION);
      } else {
        SameLinksPersist(w, W());
      }
    }

    /** A write, or a notification when there is no operation. */
    ghost predicate DoesWrite(n: nat, handle: int, op: Option<WriteOp>, attribute: nat, data: seq<bv8>, busy: bool,
                              s: Snapshot, s': Snapshot)
      requires n < |s.w.t|
    {
      var kind, length := if op.Some? then KindOf(op.value) else Some(Notification), if op.Some? then |data| else 0;
      if busy || Admission(s.w.t[n], handle, kind, length).Failure? then s' == s
      else
        && s' == s.(w := s'.w)
        && TakeDone(s.w, s'.w, Ref(n, FirstByHandle(s.w.t[n], handle).value), Message(kind.value, attribute, data),
                    s.simTimeMs)
    }

    method PerformWrite(n: nat, handle: int, op: Option<WriteOp>, attribute: nat, data: seq<bv8>, busy: bool)
      requires Valid() && n < |connections|
      modifies `connections, `packetCount, `taken
      ensures Valid() && Persists(old(W()), W())
      ensures DoesWrite(n, handle, op, attribute, data, busy, old(Now()), Now())
    {
      hide Sound, Unread, TakeDone, Persists, FirstByHandle, FreeSlot;
      ghost var w := W();
      if op.Some? {
        var r := GattcWrite(n, handle, op.value, attribute, data, busy);
        if r.Success? {
          TakePersists(w, W(), Ref(n, FirstByHandle(w.t[n], handle).value),
                       Message(KindOf(op.value).value, attribute, data), simTimeMs);
        } else {
          SameLinksPersist(w, W());
        }
      } else {
        var r := GattsHvx(n, handle, attribute, data, busy);
        if r.Success? {
          TakePersists(w, W(), Ref(n, FirstByHandle(w.t[n], handle).value), Message(Notification, attribute, data),
                       simTimeMs);
        } else {
          SameLinksPersist(w, W());
        }
      }
    }

    ghost predicate DoesRssiSet(n: nat, handle: int, on: bool, s: Snapshot, s': Snapshot)
      requires n < |s.w.t|
    {
      match FirstByHandle(s.w.t[n], handle)
      case None => s' == s
      case Some(k) =>
        s' == s.(w := s.w.(t := Put(s.w.t, Ref(n, k), At(s.w.t, Ref(n, k)).(rssiActive := on))))
    }

    method PerformRssiSet(n: nat, handle: int, on: bool)
      requires Valid() && n < |connections|
      modifies `connections
      ensures Valid() && Persists(old(W()), W())
      ensures DoesRssiSet(n, handle, on, old(Now()), Now())
    {
      hide Sound, Unread, Persists, FirstByHandle;
      ghost var w := W();
      var r := RssiSet(n, handle, on);
      if r.Success? {
        ghost var c := Ref(n, FirstByHandle(w.t[n], handle).value);
        TouchPersists(w, W(), c, At(w.t, c).(rssiActive := on));
      } else {
        SameLinksPersist(w, W());
      }
    }

    ghost predicate DoesParamUpdate(n: nat, handle: int, request: Option<ConnParams>, timerDs: nat, busy: bool,
                                    s: Snapshot, s': Snapshot)
      requires n < |s.w.t|
    {
      match FirstByHandle(s.w.t[n], handle)
      case None => s' == s
      case Some(k) =>
        if busy then s' == s
        else s' == s.(w := s'.w) && exists r :: ParamDone(s.w, s'.w, Ref(n, k), request, timerDs, r)
    }

    method PerformParamUpdate(n: nat, handle: int, request: Option<ConnParams>, timerDs: nat, busy: bool)
      requires Valid() && n < |connections|
      modifies `connections, `queues, `log
      ensures Valid() && Persists(old(W()), W())
      ensures DoesParamUpdate(n, handle, request, timerDs, busy, old(Now()), Now())
    {
      hide Sound, Unread, Persists, FirstByHandle, ParamDone;
      ghost var w := W();
      var r := ConnParamUpdate(n, handle, request, timerDs, busy);
      if !busy && FirstByHandle(w.t[n], handle).Some? {
        ParamPersists(w, W(), Ref(n, FirstByHandle(w.t[n], handle).value), request, timerDs, r);
      } else {
        SameLinksPersist(w, W());
      }
    }

    ghost predicate DoesAdvertising(n: nat, due: bool, indexStep: nat, draw: nat, received: seq<bool>, s: Snapshot,
                                    s': Snapshot)
      requires n < |s.gap|
    {
      if !s.gap[n].advertising || !due then s' == s
      else
        && s' == s.(w := s'.w, gap := s'.gap)
        && var start, step := if indexStep <= 1 then 0 else draw % indexStep, if indexStep == 0 then 1 else indexStep;
           exists master, heard ::
             Advertised(s.w, s'.w, s.gap, s'.gap, received, n, start, step, addresses, s.simTimeMs, master, heard)
    }

    method PerformAdvertising(n: nat, due: bool, indexStep: nat, draw: nat, received: seq<bool>)
      requires Valid() && n < |connections| && |received| == meshNodes
      modifies `connections, `gap, `queues, `log, `linkCount, `parties
      ensures Valid() && Persists(old(W()), W())
      ensures n < |old(gap)| && DoesAdvertising(n, due, indexStep, draw, received, old(Now()), Now())
    {
      hide Sound, Unread, Persists, Advertised;
      ghost var w, g := W(), gap;
      ghost var master, heard := SimulateAdvertising(n, due, indexStep, draw, received);
      if g[n].advertising && due {
        AdvertisedPersists(w, W(), g, gap, received, n, Start(indexStep, draw), Step(indexStep), addresses, simTimeMs,
                           master, heard);
      } else {
        SameLinksPersist(w, W());
      }
    }

    ghost predicate DoesConnections(n: nat, blocked: bool, draws: seq<nat>, reachable: seq<bool>, rssiDue: seq<bool>,
                                    losses: seq<bool>, s: Snapshot, s': Snapshot)
      requires n < |s.gap| && |draws| == |reachable| == |rssiDue| == |losses| == total
    {
      if blocked then s' == s
      else
        && s' == s.(w := s'.w)
        && exists events, measurements, lost ::
             && EventPass(events, n, s.gap[n].timeMs, s.simTimeMs, draws, reachable)
             && RssiPass(measurements, n, rssiDue) && LossPass(lost, n, losses)
             && events[0] == s.w && measurements[0] == events[total] && lost[0] == measurements[total]
             && lost[total] == s'.w
    }

    method PerformConnections(n: nat, blocked: bool, draws: seq<nat>, reachable: seq<bool>, rssiDue: seq<bool>,
                              losses: seq<bool>)
      requires Valid() && n < |connections|
      requires |draws| == total == |reachable| && |rssiDue| == total == |losses|
      modifies `connections, `queues, `log
      ensures Valid() && Persists(old(W()), W())
      ensures n < |old(gap)| && DoesConnections(n, blocked, draws, reachable, rssiDue, losses, old(Now()), Now())
    {
      hide Sound, Unread, Persists, Progress, EventDone, RssiDone, LossDone;
      ghost var w := W();
      ghost var events, measurements, lost := SimulateConnections(n, blocked, draws, reachable, rssiDue, losses);
      ProgressPersists(w, W());
    }

    ghost predicate DoesParamTimeouts(n: nat, timerDs: nat, s: Snapshot, s': Snapshot) {
      && s' == s.(w := s'.w)
      && exists ws: seq<World> :: TimeoutPass(ws, n, timerDs, total) && ws[0] == s.w && ws[total] == s'.w
    }

    method PerformParamTimeouts(n: nat, timerDs: nat)
      requires Valid() && n < |connections|
      modifies `connections, `queues, `log
      ensures Valid() && Persists(old(W()), W())
      ensures DoesParamTimeouts(n, timerDs, old(Now()), Now())
    {
      hide Sound, Unread, Persists, Progress, TimeoutDone;
      ghost var w := W();
      ghost var ws := SimulateConnectionParameterUpdateRequestTimeout(n, timerDs);
      ProgressPersists(w, W());
    }

    ghost predicate DoesReset(n: nat, s: Snapshot, s': Snapshot)
      requires n < |s.gap| && n < |s.read|
    {
      var g := Gap(0, false, ADV_IND, false, false, 0, 0, 0, 0);
      exists ws: seq<World> ::
        && LossPass(ws, n, AllLost(total)) && ws[0] == s.w && n < |ws[total].t| && n < |ws[total].log|
        && s' == s.(gap := s.gap[n := g], read := s.read[n := |ws[total].log[n]|],
                    w := ws[total].(t := ws[total].t[n := FreshRow(total)], intents := Intents(s.gap[n := g])))
    }

    method PerformReset(n: nat)
      requires Valid() && n < |connections|
      modifies `connections, `gap, `queues, `log, `read
      ensures Valid() && Persists(old(W()), W())
      ensures n < |old(gap)| && n < |old(read)| && DoesReset(n, old(Now()), Now())
    {
      hide Sound, Unread, Persists, Progress, LossDone;
      ghost var w := W();
      ghost var ws := ResetCurrentNode(n);
      ProgressPersists(w, ws[total]);
      FreshPersists(ws[total], W(), n, FreshRow(total));
      PersistsChains(w, ws[total], W());
    }

    /** What the calls and steps do that change links. */
    ghost predicate DoesLinks(a: Action, s: Snapshot, s': Snapshot)
      requires Shaped(s) && !a.Clock? && a.n < |s.gap|
    {
      match a
      case DoDisconnect(n, handle) => DoesDisconnect(n, handle, s, s')
      case DoWrite(n, handle, op, attribute, data, busy) =>
        DoesWrite(n, handle, Some(op), attribute, data, busy, s, s')
      case DoHvx(n, handle, attribute, data, busy) => DoesWrite(n, handle, None, attribute, data, busy, s, s')
      case DoRssiSet(n, handle, on) => DoesRssiSet(n, handle, on, s, s')
      case DoParamUpdate(n, handle, request, timerDs, busy) =>
        DoesParamUpdate(n, handle, request, timerDs, busy, s, s')
      case Advertising(n, due, indexStep, draw, received) =>
        if |received| == meshNodes then DoesAdvertising(n, due, indexStep, draw, received, s, s') else s' == s
      case Connections(n, blocked, draws, reachable, rssiDue, losses) =>
        if |draws| == |reachable| == |rssiDue| == |losses| == total then
          DoesConnections(n, blocked, draws, reachable, rssiDue, losses, s, s')
        else s' == s
      case ParamTimeouts(n, timerDs) => DoesParamTimeouts(n, timerDs, s, s')
      case Reset(n) => DoesReset(n, s, s')
      case _ => true
    }

    method PerformLinks(a: Action)
      requires Valid() && !a.Clock? && a.n < |connections|
      modifies this
      ensures Valid() && Persists(old(W()), W())
      ensures Shaped(old(Now())) && DoesLinks(a, old(Now()), Now())
    {
      NowIsShaped();
      hide Sound, Unread, Persists, DoesDisconnect, DoesWrite, DoesRssiSet, DoesParamUpdate, DoesAdvertising,
           DoesConnections, DoesParamTimeouts, DoesReset, Intents;
      SameLinksPersist(W(), W());
      match a {
        case DoDisconnect(n, handle) => PerformDisconnect(n, handle);
        case DoWrite(n, handle, op, attribute, data, busy) => PerformWrite(n, handle, Some(op), attribute, data, busy);
        case DoHvx(n, handle, attribute, data, busy) => PerformWrite(n, handle, None, attribute, data, busy);
        case DoRssiSet(n, handle, on) => PerformRssiSet(n, handle, on);
        case DoParamUpdate(n, handle, request, timerDs, busy) => PerformParamUpdate(n, handle, request, timerDs, busy);
        case Advertising(n, due, indexStep, draw, received) =>
          if |received| == meshNodes {
            PerformAdvertising(n, due, indexStep, draw, received);
          }
        case Connections(n, blocked, draws, reachable, rssiDue, losses) =>
          if |draws| == total && |reachable| == total && |rssiDue| == total && |losses| == total {
            PerformConnections(n, blocked, draws, reachable, rssiDue, losses);
          }
        case ParamTimeouts(n, timerDs) => PerformParamTimeouts(n, timerDs);
        case Reset(n) => PerformReset(n);
        case _ =>
      }
    }

    /** What any call or step does, by the specification of each; one that does not fit the network does nothing. */
    ghost predicate Does(a: Action, s: Snapshot, s': Snapshot) {
      && Shaped(s)
      && if !a.Clock? && a.n >= |s.gap| then s' == s
         else
           match a
           case DoAdvStart(_, _, _) | DoAdvStop(_) | DoScanStart(_, _) | DoScanStop(_) => DoesGap(a, s, s')
           case DoConnect(_, _, _, _, _) | DoConnectCancel(_) | NodeClock(_, _) => DoesGap(a, s, s')
           case DoEvtGet(_) | Timeouts(_) | Clock(_) => DoesAside(a, s, s')
           case _ => DoesLinks(a, s, s')
    }

    lemma DoesOne(a: Action, s: Snapshot, s': Snapshot)
      requires Shaped(s)
      requires if !a.Clock? && a.n >= |s.gap| then s' == s
               else if a.Clock? || a.Timeouts? || a.DoEvtGet? then DoesAside(a, s, s')
               else if a.OnlyGap() then DoesGap(a, s, s')
               else DoesLinks(a, s, s')
      ensures Does(a, s, s')
    {
      hide DoesLinks, DoesAside, DoesGap;
    }

    /** Any call or step, of any node, with any random outcomes; one that does not fit the network is skipped. */
    method Perform(a: Action)
      requires Valid()
      modifies this
      ensures Valid() && Persists(old(W()), W())
      ensures Does(a, old(Now()), Now())
    {
      NowIsShaped();
      ghost var s := Now();
      SameLinksPersist(W(), W());
      hide *;
      if !a.Clock? && a.n >= |connections| {
        DoesOne(a, s, s);
        return;
      }
      if a.Clock? || a.Timeouts? || a.DoEvtGet? {
        PerformAside(a);
      } else if a.OnlyGap() {
        PerformGap(a);
      } else {
        PerformLinks(a);
      }
      DoesOne(a, s, Now());
    }

    /** Every call and step does what its own specification says, one after the other, and in every run: no link comes
        back once it is closed, and an unreliable packet with the highest id blocks its buffer until the link is
        closed. */
    method Run(actions: seq<Action>) returns (ghost ss: seq<Snapshot>)
      requires Valid()
      modifies this
      ensures Valid() && Persists(old(W()), W())
      ensures |ss| == |actions| + 1 && ss[0] == old(Now()) && ss[|actions|] == Now()
      ensures forall i | 0 <= i < |actions| :: Does(actions[i], ss[i], ss[i + 1])
    {
      hide Sound, Unread, Persists, Does;
      SameLinksPersist(W(), W());
      ss := [Now()];
      for i := 0 to |actions|
        invariant Valid() && Persists(old(W()), W())
        invariant |ss| == i + 1 && ss[0] == old(Now()) && ss[i] == Now()
        invariant forall j | 0 <= j < i :: Does(actions[j], ss[j], ss[j + 1])
      {
        ghost var w := W();
        Perform(actions[i]);
        PersistsChains(old(W()), w, W());
        ss := ss + [Now()];
      }
    }
  }
}
