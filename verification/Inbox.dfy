/**
 * The inbound side: the buffered channel between the connection readers and the
 * command loop, with the history of every command frame handed to it.
 */
module Inboxes {
  import opened Protocol

  const COMMAND_CAPACITY := 100

  /** A command frame, whether it was queued, and how many commands were queued when it arrived. */
  datatype Arrival = Arrival(command: CommandEnvelope, queued: bool, depth: nat)

  datatype Inbox = Inbox(queue: seq<CommandEnvelope>, arrivals: seq<Arrival>, taken: seq<CommandEnvelope>)

  const EMPTY := Inbox([], [], [])

  /** handleIncomingMessage for a command. */
  function Offer(i: Inbox, c: CommandEnvelope): Inbox {
    var arrival := Arrival(c, |i.queue| < COMMAND_CAPACITY, |i.queue|);
    i.(arrivals := i.arrivals + [arrival],
       queue := if arrival.queued then i.queue + [c] else i.queue)
  }

  /** The command loop receives the oldest command. */
  function Take(i: Inbox): Inbox
    requires i.queue != []
  {
    i.(queue := i.queue[1..], taken := i.taken + [i.queue[0]])
  }

  /** The commands that got into the channel, in arrival order. */
  function Accepted(arrivals: seq<Arrival>): seq<CommandEnvelope> {
    if arrivals == [] then []
    else
      var last := arrivals[|arrivals| - 1];
      Accepted(arrivals[..|arrivals| - 1]) + (if last.queued then [last.command] else [])
  }

  function Dropped(arrivals: seq<Arrival>): nat {
    if arrivals == [] then 0
    else Dropped(arrivals[..|arrivals| - 1]) + (if arrivals[|arrivals| - 1].queued then 0 else 1)
  }

  ghost predicate Conserved(i: Inbox) {
    && |i.queue| <= COMMAND_CAPACITY
    && Accepted(i.arrivals) == i.taken + i.queue
    && |i.arrivals| == Dropped(i.arrivals) + |i.taken| + |i.queue|
    && (forall k :: 0 <= k < |i.arrivals| ==> (i.arrivals[k].queued <==> i.arrivals[k].depth < COMMAND_CAPACITY))
  }

  /** Every command frame is counted once: dropped, only at a full queue, or queued, or taken. */
  lemma OfferConserves(i: Inbox, c: CommandEnvelope)
    requires Conserved(i)
    ensures Conserved(Offer(i, c))
    ensures Dropped(Offer(i, c).arrivals) == Dropped(i.arrivals) + (if |i.queue| == COMMAND_CAPACITY then 1 else 0)
  {
    var i' := Offer(i, c);
    assert i'.arrivals[..|i.arrivals|] == i.arrivals;
    assert i.taken + (i.queue + [c]) == (i.taken + i.queue) + [c];
    assert Accepted(i.arrivals) + [] == Accepted(i.arrivals);
  }

  lemma TakeConserves(i: Inbox)
    requires i.queue != [] && Conserved(i)
    ensures Conserved(Take(i))
  {
    assert i.queue == [i.queue[0]] + i.queue[1..];
    assert i.taken + i.queue == (i.taken + [i.queue[0]]) + i.queue[1..];
  }
}
