/** One connection event of a link: which packets leave, what the receiver gets and how they are confirmed. */
module ConnectionEvents {
  import opened PacketBuffers
  import opened LinkTraces

  /** How many packets of the queue leave: at most the budget, and none after a reliable write. */
  function Burst(q: seq<Packet>, budget: nat): (m: nat)
    ensures m <= |q| && m <= budget
    decreases budget
  {
    if budget == 0 || q == [] then 0
    else if q[0].Reliable() then 1
    else 1 + Burst(q[1..], budget - 1)
  }

  /** What the other node gets. */
  function Arrivals(link: nat, sent: seq<Packet>): (es: seq<Event>)
    ensures |es| == |sent|
  {
    seq(|sent|, i requires 0 <= i < |sent| => Received(link, sent[i].message))
  }

  function TxEvent(link: nat, count: nat): seq<Event> {
    if count > 0 then [TxComplete(link, count)] else []
  }

  /** What the sender gets, when `before` unreliable packets are still to be confirmed. */
  function Acks(link: nat, sent: seq<Packet>, before: nat): seq<Event> {
    if sent == [] then TxEvent(link, before)
    else if sent[0].Reliable() then
      TxEvent(link, before) + [WriteResponse(link, sent[0].id)] + Acks(link, sent[1..], 0)
    else Acks(link, sent[1..], before + 1)
  }

  function CountReliable(sent: seq<Packet>): nat {
    if sent == [] then 0 else (if sent[0].Reliable() then 1 else 0) + CountReliable(sent[1..])
  }

  /** The packets confirmed by TX_COMPLETE, and the ids confirmed by WRITE_RSP. */
  function TxTotal(es: seq<Event>): nat {
    if es == [] then 0 else (if es[0].TxComplete? then es[0].count else 0) + TxTotal(es[1..])
  }

  function Responses(es: seq<Event>): seq<nat> {
    if es == [] then [] else (if es[0].WriteResponse? then [es[0].id] else []) + Responses(es[1..])
  }

  lemma {:induction false} BurstStops(q: seq<Packet>, budget: nat, k: nat)
    requires k <= |q| && k <= budget && forall j | 0 <= j < k :: !q[j].Reliable()
    ensures k == budget || k == |q| ==> Burst(q, budget) == k
    ensures k < budget && k < |q| && q[k].Reliable() ==> Burst(q, budget) == k + 1
    decreases k
  {
    if k > 0 {
      assert forall j | 0 <= j < k - 1 :: q[1..][j] == q[j + 1];
      BurstStops(q[1..], budget - 1, k - 1);
    }
  }

  /** A burst holds at most one reliable write, and that is its last packet; without one it ends only because
      the budget or the queue is used up. */
  lemma {:induction false} BurstShape(q: seq<Packet>, budget: nat)
    ensures var m := Burst(q, budget);
            && (forall j | 0 <= j < m - 1 :: !q[j].Reliable())
            && (m < budget && m < |q| ==> m > 0 && q[m - 1].Reliable())
            && CountReliable(q[..m]) == if m > 0 && q[m - 1].Reliable() then 1 else 0
    decreases budget
  {
    var m := Burst(q, budget);
    if budget > 0 && q != [] {
      if q[0].Reliable() {
        assert q[..1][1..] == [];
      } else {
        BurstShape(q[1..], budget - 1);
        assert q[..m][1..] == q[1..][..m - 1];
        forall j | 0 <= j < m - 1
          ensures !q[j].Reliable()
        {
          if j > 0 {
            assert q[j] == q[1..][j - 1];
          }
        }
      }
    }
  }

  lemma {:induction false} TxTotalConcat(a: seq<Event>, b: seq<Event>)
    ensures TxTotal(a + b) == TxTotal(a) + TxTotal(b)
    ensures Responses(a + b) == Responses(a) + Responses(b)
    decreases |a|
  {
    if a == [] {
      assert a + b == b;
    } else {
      assert (a + b)[1..] == a[1..] + b;
      TxTotalConcat(a[1..], b);
    }
  }

  function ReliableIds(sent: seq<Packet>): seq<nat> {
    if sent == [] then [] else (if sent[0].Reliable() then [sent[0].id] else []) + ReliableIds(sent[1..])
  }

  lemma AnsweredWrite(link: nat, count: nat, id: nat, rest: seq<Event>)
    ensures TxTotal(TxEvent(link, count) + [WriteResponse(link, id)] + rest) == count + TxTotal(rest)
    ensures Responses(TxEvent(link, count) + [WriteResponse(link, id)] + rest) == [id] + Responses(rest)
  {
    var w := [WriteResponse(link, id)];
    TxEventTotal(link, count);
    assert TxTotal(w) == 0 && Responses(w) == [id] by {
      assert w[1..] == [];
    }
    hide TxTotal, Responses;
    TxTotalConcat(TxEvent(link, count) + w, rest);
    TxTotalConcat(TxEvent(link, count), w);
  }

  /** The TX_COMPLETE counts add up to the unreliable packets sent, and every reliable write is answered once. */
  lemma {:induction false} AcksConfirmAll(link: nat, sent: seq<Packet>, before: nat)
    ensures TxTotal(Acks(link, sent, before)) == before + |sent| - CountReliable(sent)
    ensures Responses(Acks(link, sent, before)) == ReliableIds(sent)
    decreases |sent|
  {
    hide TxTotal, Responses;
    if sent == [] {
      TxEventTotal(link, before);
    } else if sent[0].Reliable() {
      AcksConfirmAll(link, sent[1..], 0);
      AnsweredWrite(link, before, sent[0].id, Acks(link, sent[1..], 0));
    } else {
      AcksConfirmAll(link, sent[1..], before + 1);
      assert ReliableIds(sent) == ReliableIds(sent[1..]);
    }
  }

  lemma TxEventTotal(link: nat, count: nat)
    ensures TxTotal(TxEvent(link, count)) == count && Responses(TxEvent(link, count)) == []
  {
    if count > 0 {
      assert TxEvent(link, count)[1..] == [];
    }
  }

  /** Unreliable packets alone are confirmed by one event. */
  lemma {:induction false} AcksOfUnreliable(link: nat, sent: seq<Packet>, before: nat)
    requires forall j | 0 <= j < |sent| :: !sent[j].Reliable()
    ensures Acks(link, sent, before) == TxEvent(link, before + |sent|)
    decreases |sent|
  {
    if sent != [] {
      AcksOfUnreliable(link, sent[1..], before + 1);
    }
  }

  /** A burst that ends with a reliable write: first TX_COMPLETE for everything before it, then its WRITE_RSP,
      and nothing more. */
  lemma {:induction false} AcksOfReliable(link: nat, sent: seq<Packet>, before: nat)
    requires sent != [] && sent[|sent| - 1].Reliable() && forall j | 0 <= j < |sent| - 1 :: !sent[j].Reliable()
    ensures Acks(link, sent, before)
            == TxEvent(link, before + |sent| - 1) + [WriteResponse(link, sent[|sent| - 1].id)]
    decreases |sent|
  {
    if |sent| > 1 {
      assert sent[1..][|sent| - 2] == sent[|sent| - 1];
      AcksOfReliable(link, sent[1..], before + 1);
    } else {
      assert sent[1..] == [];
      assert Acks(link, [], 0) == [];
    }
  }
}
