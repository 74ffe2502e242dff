/**
 * The outbound side of the WebSocket client: the buffered channel between the
 * senders and the message loop, together with the history of every envelope
 * that was offered, queued and consumed.
 */
module Outboxes {
  import opened Protocol
  import opened Subsequences

  const OUTBOUND_CAPACITY := 200

  /** What became of an envelope that the message loop took from the queue. */
  datatype Fate = InFlight | Written | Lost

  datatype Delivery = Delivery(envelope: Envelope, epoch: nat, fate: Fate)

  /**
   * `checked` holds the envelope of every sender that has seen `connected` set
   * and not yet tried the channel: sendEnvelope does the two non-atomically.
   */
  datatype Outbox = Outbox(
    queue: seq<Envelope>,
    checked: map<Sender, Envelope>,
    attempted: seq<Envelope>,
    accepted: seq<Envelope>,
    consumed: seq<Delivery>)

  const EMPTY := Outbox([], map[], [], [], [])

  /** sendEnvelope up to its connection check. */
  function Check(o: Outbox, e: Envelope, connected: bool): Outbox {
    o.(attempted := o.attempted + [e],
       checked := if connected then o.checked[e.sender := e] else o.checked)
  }

  /** The non-blocking channel send at the end of sendEnvelope. */
  function Push(o: Outbox, x: Sender): Outbox
    requires x in o.checked
  {
    var rest := o.(checked := o.checked - {x});
    if |o.queue| < OUTBOUND_CAPACITY then
      rest.(queue := o.queue + [o.checked[x]], accepted := o.accepted + [o.checked[x]])
    else rest
  }

  /** The message loop receives the oldest envelope. */
  function Take(o: Outbox, epoch: nat): Outbox
    requires o.queue != []
  {
    o.(queue := o.queue[1..], consumed := o.consumed + [Delivery(o.queue[0], epoch, InFlight)])
  }

  /** The write of the envelope just taken ends. */
  function Settle(o: Outbox, fate: Fate): Outbox
    requires o.consumed != []
  {
    var n := |o.consumed| - 1;
    o.(consumed := o.consumed[..n] + [o.consumed[n].(fate := fate)])
  }

  function Envelopes(deliveries: seq<Delivery>): (r: seq<Envelope>)
    ensures |r| == |deliveries|
    ensures forall i :: 0 <= i < |r| ==> r[i] == deliveries[i].envelope
  {
    seq(|deliveries|, i requires 0 <= i < |deliveries| => deliveries[i].envelope)
  }

  /** The frames on the wire, over all connections, in order. */
  function WrittenEnvelopes(deliveries: seq<Delivery>): (r: seq<Envelope>)
  {
    if deliveries == [] then []
    else
      var last := deliveries[|deliveries| - 1];
      WrittenEnvelopes(deliveries[..|deliveries| - 1]) + (if last.fate == Written then [last.envelope] else [])
  }

  function Wire(o: Outbox): seq<Envelope> {
    WrittenEnvelopes(o.consumed)
  }

  /** Nothing is created, duplicated or reordered between a successful send and the message loop. */
  ghost predicate Conserved(o: Outbox) {
    && |o.queue| <= OUTBOUND_CAPACITY
    && o.accepted == Envelopes(o.consumed) + o.queue
  }

  /** Only the newest delivery can be in flight. */
  ghost predicate OneInFlight(o: Outbox, writing: bool) {
    && (forall i :: 0 <= i < |o.consumed| - 1 ==> o.consumed[i].fate != InFlight)
    && (writing ==> o.consumed != [])
    && (o.consumed != [] ==> (o.consumed[|o.consumed| - 1].fate == InFlight <==> writing))
  }

  /** A lost envelope is the last one consumed in its epoch, so each epoch loses at most one. */
  ghost predicate LossEndsEpoch(deliveries: seq<Delivery>) {
    forall i, j :: 0 <= i < j < |deliveries| && deliveries[i].fate == Lost ==> deliveries[i].epoch < deliveries[j].epoch
  }

  ghost predicate EpochsUpTo(deliveries: seq<Delivery>, epoch: nat) {
    forall i :: 0 <= i < |deliveries| ==> deliveries[i].epoch <= epoch
  }

  ghost predicate NoLossIn(deliveries: seq<Delivery>, epoch: nat) {
    forall i :: 0 <= i < |deliveries| && deliveries[i].fate == Lost ==> deliveries[i].epoch != epoch
  }

  /** Each sender's queued envelopes follow the order of its calls; a call still at the channel is its last. */
  ghost predicate SenderOrder(o: Outbox, x: Sender) {
    var calls := From(o.attempted, x);
    if x in o.checked then
      && o.checked[x].sender == x
      && calls != [] && calls[|calls| - 1] == o.checked[x]
      && InOrder(From(o.accepted, x), calls[..|calls| - 1])
    else InOrder(From(o.accepted, x), calls)
  }

  lemma PushConserves(o: Outbox, x: Sender)
    requires x in o.checked && Conserved(o)
    ensures Conserved(Push(o, x))
  {
    if |o.queue| < OUTBOUND_CAPACITY {
      assert Envelopes(o.consumed) + (o.queue + [o.checked[x]]) == (Envelopes(o.consumed) + o.queue) + [o.checked[x]];
    }
  }

  lemma TakeConserves(o: Outbox, epoch: nat)
    requires o.queue != [] && Conserved(o)
    ensures Conserved(Take(o, epoch))
  {
    var o' := Take(o, epoch);
    assert o.queue == [o.queue[0]] + o.queue[1..];
    assert Envelopes(o'.consumed) == Envelopes(o.consumed) + [o.queue[0]];
  }

  lemma SettleConserves(o: Outbox, fate: Fate)
    requires o.consumed != [] && Conserved(o)
    ensures Conserved(Settle(o, fate))
  {
    assert Envelopes(Settle(o, fate).consumed) == Envelopes(o.consumed);
  }

  lemma TakeInFlight(o: Outbox, epoch: nat)
    requires o.queue != [] && OneInFlight(o, false)
    ensures OneInFlight(Take(o, epoch), true)
  {
  }

  lemma SettleInFlight(o: Outbox, fate: Fate)
    requires fate != InFlight && OneInFlight(o, true)
    ensures OneInFlight(Settle(o, fate), false)
  {
  }

  lemma TakeKeepsLosses(o: Outbox, epoch: nat)
    requires o.queue != []
    requires LossEndsEpoch(o.consumed) && EpochsUpTo(o.consumed, epoch) && NoLossIn(o.consumed, epoch)
    ensures LossEndsEpoch(Take(o, epoch).consumed)
    ensures EpochsUpTo(Take(o, epoch).consumed, epoch) && NoLossIn(Take(o, epoch).consumed, epoch)
  {
  }

  lemma SettleKeepsLosses(o: Outbox, fate: Fate, epoch: nat)
    requires OneInFlight(o, true)
    requires LossEndsEpoch(o.consumed) && EpochsUpTo(o.consumed, epoch)
    ensures LossEndsEpoch(Settle(o, fate).consumed)
    ensures EpochsUpTo(Settle(o, fate).consumed, epoch)
    ensures fate != Lost && NoLossIn(o.consumed, epoch) ==> NoLossIn(Settle(o, fate).consumed, epoch)
  {
  }

  /** A new call of an idle sender. */
  lemma CheckKeepsOrder(o: Outbox, e: Envelope, connected: bool, x: Sender)
    requires e.sender !in o.checked && SenderOrder(o, x)
    ensures SenderOrder(Check(o, e, connected), x)
  {
    var o' := Check(o, e, connected);
    FromAppend(o.attempted, e, x);
    var calls, calls' := From(o.attempted, x), From(o'.attempted, x);
    if e.sender == x {
      assert calls'[..|calls'| - 1] == calls;
      Skip(From(o.accepted, x), calls, [e]);
    } else {
      assert calls' == calls;
    }
  }

  /** A call that reaches the channel ends, accepted or turned away. */
  lemma PushEndsCall(o: Outbox, x: Sender)
    requires x in o.checked && SenderOrder(o, x)
    ensures SenderOrder(Push(o, x), x)
  {
    var e := o.checked[x];
    var calls := From(o.attempted, x);
    var before := calls[..|calls| - 1];
    assert calls == before + [e];
    if |o.queue| < OUTBOUND_CAPACITY {
      FromAppend(o.accepted, e, x);
      Keep(From(o.accepted, x), before, e);
    } else {
      Skip(From(o.accepted, x), before, [e]);
    }
  }

  lemma PushKeepsOrder(o: Outbox, x: Sender, y: Sender)
    requires x in o.checked && o.checked[x].sender == x && x != y && SenderOrder(o, y)
    ensures SenderOrder(Push(o, x), y)
  {
    FromAppend(o.accepted, o.checked[x], y);
    assert From(o.accepted, y) + [] == From(o.accepted, y);
  }

  lemma WrittenFromAppend(deliveries: seq<Delivery>, d: Delivery)
    ensures WrittenEnvelopes(deliveries + [d])
         == WrittenEnvelopes(deliveries) + (if d.fate == Written then [d.envelope] else [])
  {
    assert (deliveries + [d])[..|deliveries|] == deliveries;
  }

  /** What reaches the wire is, for each sender, in the order in which the queue accepted it. */
  lemma {:induction false} WireInOrder(deliveries: seq<Delivery>, x: Sender)
    ensures InOrder(From(WrittenEnvelopes(deliveries), x), From(Envelopes(deliveries), x))
  {
    if deliveries == [] {
      Reflexive<Envelope>([]);
    } else {
      var n := |deliveries| - 1;
      var before, last := deliveries[..n], deliveries[n];
      WireInOrder(before, x);
      assert Envelopes(deliveries) == Envelopes(before) + [last.envelope];
      FromAppend(Envelopes(before), last.envelope, x);
      FromAppend(WrittenEnvelopes(before), last.envelope, x);
      var wire, all := From(WrittenEnvelopes(before), x), From(Envelopes(before), x);
      assert WrittenEnvelopes(before) + [] == WrittenEnvelopes(before);
      if last.envelope.sender == x {
        if last.fate == Written {
          Keep(wire, all, last.envelope);
        } else {
          Skip(wire, all, [last.envelope]);
        }
      } else {
        assert wire + [] == wire && all + [] == all;
      }
    }
  }

  lemma {:induction false} FromPrefix(a: seq<Envelope>, b: seq<Envelope>, x: Sender)
    ensures From(a + b, x) == From(a, x) + From(b, x)
  {
    if b == [] {
      assert a + b == a;
    } else {
      var n := |b| - 1;
      var front, last := b[..n], b[n];
      assert b == front + [last];
      FromPrefix(a, front, x);
      FromAppend(front, last, x);
      FromAppend(a + front, last, x);
      Regroup(a, front, [last]);
      Regroup(From(a, x), From(front, x), if last.sender == x then [last] else []);
    }
  }

  lemma Regroup(a: seq<Envelope>, b: seq<Envelope>, c: seq<Envelope>)
    ensures a + (b + c) == (a + b) + c
  {
  }

  /** Per sender, the wire carries an in-order subsequence of the calls that were made. */
  lemma WireFollowsCalls(o: Outbox, x: Sender)
    requires Conserved(o) && SenderOrder(o, x)
    ensures InOrder(From(Wire(o), x), From(o.attempted, x))
  {
    var wire, taken := From(Wire(o), x), From(Envelopes(o.consumed), x);
    var accepted, calls := From(o.accepted, x), From(o.attempted, x);
    WireInOrder(o.consumed, x);
    FromPrefix(Envelopes(o.consumed), o.queue, x);
    PrefixInOrder(accepted, |taken|);
    assert accepted[..|taken|] == taken;
    Transitive(wire, taken, accepted);
    if x in o.checked {
      PrefixInOrder(calls, |calls| - 1);
      Transitive(accepted, calls[..|calls| - 1], calls);
    }
    Transitive(wire, accepted, calls);
  }

  // ---- Counting frames and losses ----

  function CountLost(deliveries: seq<Delivery>): nat {
    if deliveries == [] then 0
    else CountLost(deliveries[..|deliveries| - 1]) + (if deliveries[|deliveries| - 1].fate.Lost? then 1 else 0)
  }

  lemma TakeCounts(o: Outbox, epoch: nat)
    requires o.queue != []
    ensures Wire(Take(o, epoch)) == Wire(o)
    ensures CountLost(Take(o, epoch).consumed) == CountLost(o.consumed)
  {
    var d := Delivery(o.queue[0], epoch, InFlight);
    WrittenFromAppend(o.consumed, d);
    assert Wire(o) + [] == Wire(o);
    assert (o.consumed + [d])[..|o.consumed|] == o.consumed;
  }

  lemma SettleCounts(o: Outbox, fate: Fate)
    requires OneInFlight(o, true)
    ensures Wire(Settle(o, fate))
         == Wire(o) + (if fate.Written? then [o.consumed[|o.consumed| - 1].envelope] else [])
    ensures CountLost(Settle(o, fate).consumed) == CountLost(o.consumed) + (if fate.Lost? then 1 else 0)
  {
    var n := |o.consumed| - 1;
    var front, last := o.consumed[..n], o.consumed[n];
    assert o.consumed == front + [last];
    var settled := last.(fate := fate);
    assert Settle(o, fate).consumed == front + [settled];
    WrittenFromAppend(front, last);
    WrittenFromAppend(front, settled);
    assert (front + [settled])[..n] == front;
  }

  /** One round of the message loop: take the oldest envelope and write it, or fail to. */
  lemma RoundCounts(o: Outbox, epoch: nat, ok: bool)
    requires o.queue != [] && OneInFlight(o, false)
    ensures var o' := Settle(Take(o, epoch), if ok then Written else Lost);
            && o'.queue == o.queue[1..] && OneInFlight(o', false)
            && Wire(o') == (if ok then Wire(o) + [o.queue[0]] else Wire(o))
            && CountLost(o'.consumed) == CountLost(o.consumed) + (if ok then 0 else 1)
  {
    TakeCounts(o, epoch);
    TakeInFlight(o, epoch);
    SettleCounts(Take(o, epoch), if ok then Written else Lost);
    SettleInFlight(Take(o, epoch), if ok then Written else Lost);
    assert Wire(o) + [] == Wire(o);
  }
}
