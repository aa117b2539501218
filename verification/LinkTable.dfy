/** The connection slots of all nodes. A pointer to a slot is the pair (node, slot), because slots never
    move; links are numbered 1, 2, 3, ... in the order in which they are opened, and the 16-bit handle the
    simulator gives a link is a function of that number. */
module LinkTable {
  import opened Results
  import opened PacketBuffers

  const SIM_MAX_CONNECTION_NUM := 10
  const HANDLE_WRAP := 65000
  const BLE_CONN_HANDLE_INVALID := 0xFFFF
  const GATT_MTU_SIZE_DEFAULT := 23

  datatype Ref = Ref(node: nat, slot: nat)

  datatype ConnParams = ConnParams(minInterval: nat, maxInterval: nat, slaveLatency: nat, supTimeout: nat)

  datatype Connection = Connection(
    active: bool, link: nat, isCentral: bool, owner: nat, partner: nat, partnerConnection: Option<Ref>,
    interval: nat, supervisionTimeout: nat, mtu: nat, lastReceived: nat, lastEvent: nat, rssiActive: bool,
    paramPending: bool, paramTimeout: nat, paramRequest: ConnParams, buffers: Buffers)
  {
    predicate Is(central: bool) { active && isCentral == central }
  }

  const DEFAULT: Connection :=
    Connection(false, 0, false, 0, 0, None, 0, 0, 0, 0, 0, false, false, 0, ConnParams(0, 0, 0, 0), EMPTY)

  type Row = seq<Connection>
  type Table = seq<Row>

  /** The nodes a link was opened between. */
  datatype Parties = Parties(central: nat, peripheral: nat)

  /** `globalConnHandleCounter` after the given number of links: it restarts at 1 after 65000. */
  function HandleOf(link: nat): (h: nat)
    ensures 0 < link <= HANDLE_WRAP ==> h == link
  {
    if link == 0 then 0 else (link - 1) % HANDLE_WRAP + 1
  }

  /** Incrementing the counter and restarting at 1 when it exceeds 65000 yields the next link's handle. */
  lemma NextHandle(link: nat)
    ensures HandleOf(link + 1) == if HandleOf(link) + 1 > HANDLE_WRAP then 1 else HandleOf(link) + 1
  {
    if link > 0 {
      var q, r := (link - 1) / HANDLE_WRAP, (link - 1) % HANDLE_WRAP;
      assert link == HANDLE_WRAP * q + (r + 1);
      if r + 1 == HANDLE_WRAP {
        assert link == HANDLE_WRAP * (q + 1);
      }
    }
  }

  /** Two links have the same handle exactly when their numbers differ by a multiple of 65000. */
  lemma SameHandleIff(a: nat, b: nat)
    requires a > 0 && b > 0
    ensures HandleOf(a) == HandleOf(b) <==> (a - b) % HANDLE_WRAP == 0
  {
    var qa, qb := (a - 1) / HANDLE_WRAP, (b - 1) / HANDLE_WRAP;
    assert a - b == HANDLE_WRAP * (qa - qb) + (HandleOf(a) - HandleOf(b));
  }

  // ---------- Access ----------

  predicate In(t: Table, r: Ref) {
    r.node < |t| && r.slot < |t[r.node]|
  }

  function At(t: Table, r: Ref): Connection
    requires In(t, r)
  {
    t[r.node][r.slot]
  }

  function Put(t: Table, r: Ref, c: Connection): (u: Table)
    requires In(t, r)
    ensures |u| == |t| && forall n | 0 <= n < |t| :: |u[n]| == |t[n]|
    ensures forall q :: In(u, q) <==> In(t, q)
    ensures forall q | In(t, q) :: At(u, q) == if q == r then c else At(t, q)
  {
    t[r.node := t[r.node][r.slot := c]]
  }

  /** Changes one buffer of one slot. */
  function Refill(t: Table, r: Ref, k: nat, x: Slot): Table
    requires In(t, r) && k < NUM_SLOTS && |At(t, r).buffers.unreliable| == NUM_UNRELIABLE
  {
    Put(t, r, At(t, r).(buffers := At(t, r).buffers.With(k, x)))
  }

  // ---------- Roles ----------

  function CountRole(row: Row, central: bool): nat {
    if row == [] then 0
    else CountRole(row[..|row| - 1], central) + (if row[|row| - 1].Is(central) then 1 else 0)
  }

  lemma {:induction false} CountUpdate(row: Row, k: nat, c: Connection, central: bool)
    requires k < |row|
    ensures CountRole(row[k := c], central) + (if row[k].Is(central) then 1 else 0)
            == CountRole(row, central) + (if c.Is(central) then 1 else 0)
    decreases |row|
  {
    var n := |row| - 1;
    if k < n {
      assert row[k := c][..n] == row[..n][k := c];
      CountUpdate(row[..n], k, c, central);
    } else {
      assert row[k := c][..n] == row[..n];
    }
  }

  /** A row whose links do not use up all slots has an inactive slot. */
  lemma {:induction false} SpareSlot(row: Row)
    requires CountRole(row, true) + CountRole(row, false) < |row|
    ensures exists k :: 0 <= k < |row| && !row[k].active
    decreases |row|
  {
    var n := |row| - 1;
    if row[n].active {
      SpareSlot(row[..n]);
      var k :| 0 <= k < n && !row[..n][k].active;
      assert !row[k].active;
    }
  }

  /** The last inactive slot, as the loops of `ConnectMasterToSlave` leave it. */
  function LastFree(row: Row): (k: Option<nat>)
    ensures k.Some? ==> k.value < |row| && !row[k.value].active
    ensures k.None? ==> forall i | 0 <= i < |row| :: row[i].active
  {
    if row == [] then None
    else if !row[|row| - 1].active then Some(|row| - 1)
    else LastFree(row[..|row| - 1])
  }

  /** The first active slot with the given handle. */
  function FirstByHandle(row: Row, handle: int): (k: Option<nat>)
    ensures k.Some? ==> k.value < |row| && row[k.value].active && HandleOf(row[k.value].link) == handle
    ensures k.Some? ==> forall i | 0 <= i < k.value :: row[i].active ==> HandleOf(row[i].link) != handle
    ensures k.None? ==> forall i | 0 <= i < |row| :: row[i].active ==> HandleOf(row[i].link) != handle
  {
    if row == [] then None
    else
      var k := FirstByHandle(row[..|row| - 1], handle);
      if k.Some? then k
      else if row[|row| - 1].active && HandleOf(row[|row| - 1].link) == handle then Some(|row| - 1)
      else None
  }

  // ---------- Pairs ----------

  /** Two slots are the ends of one link. */
  ghost predicate Ends(r: Ref, c: Connection, q: Ref, d: Connection) {
    && c.active && d.active
    && c.partnerConnection == Some(q) && d.partnerConnection == Some(r)
    && c.owner == r.node && c.partner == q.node
    && d.owner == q.node && d.partner == r.node
    && r.node != q.node
    && c.isCentral != d.isCentral
    && c.link == d.link
  }

  ghost predicate PairedAt(t: Table, r: Ref)
    requires In(t, r)
  {
    var c := At(t, r);
    c.active ==>
      && c.partnerConnection.Some? && In(t, c.partnerConnection.value)
      && Ends(r, c, c.partnerConnection.value, At(t, c.partnerConnection.value))
  }

  ghost predicate Paired(t: Table) {
    forall r | In(t, r) :: PairedAt(t, r)
  }

  /** Both ends of a link use the same interval and the same supervision timeout. */
  ghost predicate Agreeing(t: Table)
    requires Paired(t)
  {
    forall r | In(t, r) && At(t, r).active ::
      var c, d := At(t, r), At(t, At(t, r).partnerConnection.value);
      assert PairedAt(t, r);
      c.interval == d.interval && c.supervisionTimeout == d.supervisionTimeout
  }

  ghost predicate NumberedAt(t: Table, parties: seq<Parties>, r: Ref)
    requires In(t, r)
  {
    var c := At(t, r);
    c.active ==>
      && 1 <= c.link <= |parties|
      && parties[c.link - 1] == if c.isCentral then Parties(c.owner, c.partner) else Parties(c.partner, c.owner)
  }

  /** Every live link has a number that was given out, and at most one slot has it in either role. */
  ghost predicate Numbered(t: Table, parties: seq<Parties>) {
    && (forall s | 0 <= s < |parties| :: parties[s].central != parties[s].peripheral)
    && (forall s | 0 <= s < |parties| :: parties[s].central < |t| && parties[s].peripheral < |t|)
    && (forall r | In(t, r) :: NumberedAt(t, parties, r))
    && (forall r, q | In(t, r) && In(t, q) && At(t, r).active && At(t, q).active
                      && At(t, r).link == At(t, q).link && At(t, r).isCentral == At(t, q).isCentral :: r == q)
  }

  /** A link number names one pair of slots: whoever has the number is this slot or its partner. */
  lemma LinkNamesOnePair(t: Table, parties: seq<Parties>, r: Ref, q: Ref)
    requires Paired(t) && Numbered(t, parties)
    requires In(t, r) && In(t, q) && At(t, r).active && At(t, q).active && At(t, r).link == At(t, q).link
    ensures q == r || At(t, r).partnerConnection == Some(q)
  {
    assert PairedAt(t, r);
    if At(t, r).isCentral == At(t, q).isCentral {
      assert q == r;
    } else {
      var p := At(t, r).partnerConnection.value;
      assert At(t, p).link == At(t, q).link && At(t, p).isCentral == At(t, q).isCentral;
      assert q == p;
    }
  }

  /** Until the 65001st link is opened a handle names one pair as well. */
  lemma HandleNamesOnePair(t: Table, parties: seq<Parties>, r: Ref, q: Ref)
    requires Paired(t) && Numbered(t, parties) && |parties| <= HANDLE_WRAP
    requires In(t, r) && In(t, q) && At(t, r).active && At(t, q).active
    requires HandleOf(At(t, r).link) == HandleOf(At(t, q).link)
    ensures q == r || At(t, r).partnerConnection == Some(q)
  {
    assert NumberedAt(t, parties, r) && NumberedAt(t, parties, q);
    LinkNamesOnePair(t, parties, r, q);
  }

  // ---------- Opening ----------

  /** A slot after `ConnectMasterToSlave`: encryption, a pending parameter request and the buffers are
      left as they were. */
  function Opened(c: Connection, link: nat, central: bool, owner: nat, partner: Ref, interval: nat,
                  timeout: nat, now: nat): Connection
  {
    c.(active := true, rssiActive := false, link := link, interval := interval, supervisionTimeout := timeout,
       owner := owner, partner := partner.node, partnerConnection := Some(partner), mtu := GATT_MTU_SIZE_DEFAULT,
       isCentral := central, lastReceived := now)
  }

  function Open(t: Table, slave: Ref, master: Ref, link: nat, interval: nat, timeout: nat, now: nat): Table
    requires In(t, slave) && In(t, master)
  {
    var u := Put(t, slave, Opened(At(t, slave), link, false, slave.node, master, interval, timeout, now));
    Put(u, master, Opened(At(t, master), link, true, master.node, slave, interval, timeout, now))
  }

  lemma OpenPaired(t: Table, slave: Ref, master: Ref, link: nat, interval: nat, timeout: nat, now: nat)
    requires Paired(t) && In(t, slave) && In(t, master) && slave.node != master.node
    requires !At(t, slave).active && !At(t, master).active
    ensures Paired(Open(t, slave, master, link, interval, timeout, now))
  {
    var u := Open(t, slave, master, link, interval, timeout, now);
    forall r | In(u, r)
      ensures PairedAt(u, r)
    {
      assert PairedAt(t, r);
    }
  }

  lemma OpenAgreeing(t: Table, slave: Ref, master: Ref, link: nat, interval: nat, timeout: nat, now: nat)
    requires Paired(t) && Agreeing(t) && In(t, slave) && In(t, master) && slave.node != master.node
    requires !At(t, slave).active && !At(t, master).active
    requires Paired(Open(t, slave, master, link, interval, timeout, now))
    ensures Agreeing(Open(t, slave, master, link, interval, timeout, now))
  {
    var u := Open(t, slave, master, link, interval, timeout, now);
    forall r | In(u, r) && At(u, r).active
      ensures At(u, r).interval == At(u, At(u, r).partnerConnection.value).interval
      ensures At(u, r).supervisionTimeout == At(u, At(u, r).partnerConnection.value).supervisionTimeout
    {
      assert PairedAt(t, r);
    }
  }

  lemma OpenNumbered(t: Table, parties: seq<Parties>, slave: Ref, master: Ref, interval: nat, timeout: nat, now: nat)
    requires Numbered(t, parties) && In(t, slave) && In(t, master) && slave.node != master.node
    requires !At(t, slave).active && !At(t, master).active
    ensures Numbered(Open(t, slave, master, |parties| + 1, interval, timeout, now),
                     parties + [Parties(master.node, slave.node)])
  {
    var u := Open(t, slave, master, |parties| + 1, interval, timeout, now);
    var parties' := parties + [Parties(master.node, slave.node)];
    forall r | In(u, r)
      ensures NumberedAt(u, parties', r)
      ensures r != slave && r != master && At(u, r).active ==> At(u, r).link <= |parties|
    {
      assert NumberedAt(t, parties, r);
    }
  }

  // ---------- Closing ----------

  function Closed(c: Connection): Connection {
    c.(active := false, buffers := EMPTY)
  }

  function Close(t: Table, r: Ref, p: Ref): Table
    requires In(t, r) && In(t, p)
  {
    Put(Put(t, r, Closed(At(t, r))), p, Closed(At(t, p)))
  }

  /** Closing a link takes down its two ends and no other slot. */
  lemma CloseKeepsPairs(t: Table, parties: seq<Parties>, r: Ref, p: Ref)
    requires Paired(t) && Numbered(t, parties) && In(t, r) && In(t, p) && Ends(r, At(t, r), p, At(t, p))
    ensures Paired(Close(t, r, p)) && Numbered(Close(t, r, p), parties)
  {
    var u := Close(t, r, p);
    forall q | In(u, q)
      ensures PairedAt(u, q)
      ensures NumberedAt(u, parties, q)
    {
      assert PairedAt(t, q) && NumberedAt(t, parties, q);
    }
  }

  lemma CloseKeepsAgreement(t: Table, r: Ref, p: Ref)
    requires Paired(t) && Agreeing(t) && In(t, r) && In(t, p) && Ends(r, At(t, r), p, At(t, p))
    requires Paired(Close(t, r, p))
    ensures Agreeing(Close(t, r, p))
  {
    var u := Close(t, r, p);
    forall q | In(u, q) && At(u, q).active
      ensures At(u, q).interval == At(u, At(u, q).partnerConnection.value).interval
      ensures At(u, q).supervisionTimeout == At(u, At(u, q).partnerConnection.value).supervisionTimeout
    {
      assert PairedAt(t, q) && PairedAt(u, q);
    }
  }

  // ---------- Changes that leave the links alone ----------

  ghost predicate SameEnd(c: Connection, d: Connection) {
    && c.active == d.active
    && (c.active ==>
        && c.link == d.link && c.isCentral == d.isCentral && c.owner == d.owner && c.partner == d.partner
        && c.partnerConnection == d.partnerConnection)
  }

  ghost predicate SameLinks(t: Table, u: Table) {
    && |t| == |u|
    && (forall n | 0 <= n < |t| :: |t[n]| == |u[n]|)
    && (forall r | In(t, r) :: In(u, r) && SameEnd(At(t, r), At(u, r)))
  }

  lemma SameLinksKeepsPairs(t: Table, u: Table, parties: seq<Parties>)
    requires Paired(t) && Numbered(t, parties) && SameLinks(t, u)
    ensures Paired(u) && Numbered(u, parties)
  {
    forall r | In(u, r)
      ensures PairedAt(u, r) && NumberedAt(u, parties, r)
    {
      assert In(t, r);
      assert PairedAt(t, r) && NumberedAt(t, parties, r);
    }
  }

  lemma {:induction false} SameRoleCounts(row: Row, row': Row, central: bool)
    requires |row| == |row'|
    requires forall k | 0 <= k < |row| :: SameEnd(row[k], row'[k])
    ensures CountRole(row, central) == CountRole(row', central)
    decreases |row|
  {
    if row != [] {
      var n := |row| - 1;
      assert SameEnd(row[n], row'[n]);
      forall k | 0 <= k < n
        ensures SameEnd(row[..n][k], row'[..n][k])
      {
        assert SameEnd(row[k], row'[k]);
      }
      SameRoleCounts(row[..n], row'[..n], central);
    }
  }

  // ---------- Role limits ----------

  /** `configuredCentralConnectionCount` and `configuredPeripheralConnectionCount` of a node. */
  datatype Limits = Limits(central: nat, peripheral: nat)
  {
    function Of(role: bool): nat { if role then central else peripheral }
  }

  /** Which roles a node is about to take up: `connectingActive`, and advertising that asks for a link. */
  datatype Intent = Intent(connecting: bool, connectable: bool)
  {
    predicate Of(role: bool) { if role then connecting else connectable }
  }

  ghost predicate Within(row: Row, limits: Limits, intent: Intent) {
    forall role :: CountRole(row, role) + (if intent.Of(role) then 1 else 0) <= limits.Of(role)
  }

  ghost predicate RolesKept(t: Table, limits: seq<Limits>, intents: seq<Intent>) {
    && |limits| == |t| == |intents|
    && forall n | 0 <= n < |t| :: Within(t[n], limits[n], intents[n])
  }

  /** A node that still means to take up a role has a slot for it. */
  lemma IntentHasSlot(row: Row, limits: Limits, intent: Intent, role: bool)
    requires Within(row, limits, intent) && intent.Of(role)
    requires limits.central + limits.peripheral <= |row|
    ensures CountRole(row, role) < limits.Of(role)
    ensures exists k :: 0 <= k < |row| && !row[k].active
  {
    assert CountRole(row, !role) <= limits.Of(!role);
    assert CountRole(row, role) < limits.Of(role);
    SpareSlot(row);
  }

  /** Taking up the intended role on a free slot, and giving the intent up, stays within the limits. */
  lemma TakeUpRole(row: Row, limits: Limits, intent: Intent, role: bool, k: nat, c: Connection)
    requires Within(row, limits, intent) && intent.Of(role) && k < |row| && !row[k].active && c.Is(role)
    ensures Within(row[k := c], limits,
                   if role then intent.(connecting := false) else intent.(connectable := false))
  {
    var intent' := if role then intent.(connecting := false) else intent.(connectable := false);
    forall x
      ensures CountRole(row[k := c], x) + (if intent'.Of(x) then 1 else 0) <= limits.Of(x)
    {
      CountUpdate(row, k, c, x);
      assert CountRole(row, x) + (if intent.Of(x) then 1 else 0) <= limits.Of(x);
    }
  }

  lemma DropLink(row: Row, limits: Limits, intent: Intent, k: nat, c: Connection)
    requires Within(row, limits, intent) && k < |row| && !c.active
    ensures Within(row[k := c], limits, intent)
  {
    forall x
      ensures CountRole(row[k := c], x) + (if intent.Of(x) then 1 else 0) <= limits.Of(x)
    {
      CountUpdate(row, k, c, x);
      assert CountRole(row, x) + (if intent.Of(x) then 1 else 0) <= limits.Of(x);
    }
  }

  lemma SameLinksKeepsRoles(t: Table, u: Table, limits: seq<Limits>, intents: seq<Intent>)
    requires RolesKept(t, limits, intents) && SameLinks(t, u)
    ensures RolesKept(u, limits, intents)
  {
    forall n | 0 <= n < |u|
      ensures Within(u[n], limits[n], intents[n])
    {
      assert Within(t[n], limits[n], intents[n]);
      forall k | 0 <= k < |t[n]|
        ensures SameEnd(t[n][k], u[n][k])
      {
        assert In(t, Ref(n, k));
        assert SameEnd(At(t, Ref(n, k)), At(u, Ref(n, k)));
      }
      forall x
        ensures CountRole(u[n], x) + (if intents[n].Of(x) then 1 else 0) <= limits[n].Of(x)
      {
        SameRoleCounts(t[n], u[n], x);
        assert CountRole(t[n], x) + (if intents[n].Of(x) then 1 else 0) <= limits[n].Of(x);
      }
    }
  }

  lemma CloseKeepsRoles(t: Table, limits: seq<Limits>, intents: seq<Intent>, r: Ref, p: Ref)
    requires RolesKept(t, limits, intents) && In(t, r) && In(t, p) && Ends(r, At(t, r), p, At(t, p))
    ensures RolesKept(Close(t, r, p), limits, intents)
  {
    var u := Close(t, r, p);
    assert Within(t[r.node], limits[r.node], intents[r.node]) && Within(t[p.node], limits[p.node], intents[p.node]);
    DropLink(t[r.node], limits[r.node], intents[r.node], r.slot, Closed(At(t, r)));
    DropLink(t[p.node], limits[p.node], intents[p.node], p.slot, Closed(At(t, p)));
    forall n | 0 <= n < |u|
      ensures Within(u[n], limits[n], intents[n])
    {
      assert Within(t[n], limits[n], intents[n]);
    }
  }

  lemma OpenKeepsRoles(t: Table, limits: seq<Limits>, intents: seq<Intent>, slave: Ref, master: Ref, link: nat,
                       interval: nat, timeout: nat, now: nat)
    requires RolesKept(t, limits, intents) && In(t, slave) && In(t, master) && slave.node != master.node
    requires !At(t, slave).active && !At(t, master).active
    requires intents[slave.node].connectable && intents[master.node].connecting
    ensures RolesKept(Open(t, slave, master, link, interval, timeout, now), limits,
                      intents[slave.node := intents[slave.node].(connectable := false)]
                             [master.node := intents[master.node].(connecting := false)])
  {
    var u := Open(t, slave, master, link, interval, timeout, now);
    var s, m := slave.node, master.node;
    var intents' := intents[s := intents[s].(connectable := false)][m := intents[m].(connecting := false)];
    assert Within(t[s], limits[s], intents[s]) && Within(t[m], limits[m], intents[m]);
    TakeUpRole(t[s], limits[s], intents[s], false, slave.slot, At(u, slave));
    TakeUpRole(t[m], limits[m], intents[m], true, master.slot, At(u, master));
    forall n | 0 <= n < |u|
      ensures Within(u[n], limits[n], intents'[n])
    {
      assert Within(t[n], limits[n], intents[n]);
    }
  }
}
