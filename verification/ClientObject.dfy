/**
 * The client as the object that the goroutines share: mutex-guarded fields and
 * two buffered channels. Each method is one atomic block of the program and
 * takes the object from one state of the transition system to the next; the
 * ghost part remembers program counters and history.
 */
module ClientObjects {
  import opened Protocol
  import opened Backoff
  import opened ManagerLogs
  import opened Outboxes
  import opened Channels
  import opened ClientMachine
  import Inboxes

  /** In the select of the message loop, with a connection and no write under way. */
  ghost predicate InSelect(s: State) {
    s.pc.Selecting? && s.conn.Some? && OneInFlight(s.out, false)
  }

  /** The oldest envelope is taken and written, or lost. */
  function Round(c: Config, s: State, ok: bool): State
    requires s.pc.Selecting? && s.out.queue != []
  {
    var taken := ManagerNext(c, s, TakeEnvelope);
    ManagerNext(c, taken, if ok then WriteSucceeds else WriteFails)
  }

  lemma RoundEffects(c: Config, s: State, ok: bool)
    requires InSelect(s) && s.out.queue != []
    ensures ok ==> InSelect(Round(c, s, ok))
    ensures !ok ==> Round(c, s, ok).pc.Leaving?
    ensures Round(c, s, ok).out.queue == s.out.queue[1..]
    ensures Wire(Round(c, s, ok).out) == if ok then Wire(s.out) + [s.out.queue[0]] else Wire(s.out)
  {
    RoundCounts(s.out, s.epoch, ok);
  }

  /** Rounds until the script or the queue is exhausted, or a write fails. */
  ghost function Drain(c: Config, s: State, network: seq<bool>): State
    requires InSelect(s)
    decreases |network|
  {
    if network == [] || s.out.queue == [] then s
    else if !network[0] then Round(c, s, false)
    else
      RoundEffects(c, s, true);
      Drain(c, Round(c, s, true), network[1..])
  }

  /** How many writes succeed in a drain. */
  function Successes(network: seq<bool>, queued: nat): (n: nat)
    ensures n <= |network| && n <= queued
    ensures forall i :: 0 <= i < n ==> network[i]
    ensures n == |network| || n == queued || !network[n]
  {
    if network == [] || queued == 0 || !network[0] then 0 else 1 + Successes(network[1..], queued - 1)
  }

  /** The wire gains the oldest envelopes, in order. */
  lemma {:induction false} DrainWrites(c: Config, s: State, network: seq<bool>)
    requires InSelect(s)
    ensures Wire(Drain(c, s, network).out)
         == Wire(s.out) + s.out.queue[..Successes(network, |s.out.queue|)]
    decreases |network|
  {
    var queue := s.out.queue;
    assert Wire(s.out) + queue[..0] == Wire(s.out);
    if network != [] && queue != [] {
      RoundEffects(c, s, network[0]);
      if network[0] {
        DrainWrites(c, Round(c, s, true), network[1..]);
        Shift(Wire(s.out), queue, Successes(network[1..], |queue| - 1));
      }
    }
  }

  /** A failed write ends the loop and takes one more envelope with it; nothing else leaves the queue. */
  lemma {:induction false} DrainLeaves(c: Config, s: State, network: seq<bool>)
    requires InSelect(s)
    ensures var n := Successes(network, |s.out.queue|);
            if n == |network| || n == |s.out.queue| then
              InSelect(Drain(c, s, network)) && Drain(c, s, network).out.queue == s.out.queue[n..]
            else
              Drain(c, s, network).pc.Leaving? && Drain(c, s, network).out.queue == s.out.queue[n + 1..]
    decreases |network|
  {
    if network != [] && s.out.queue != [] {
      RoundEffects(c, s, network[0]);
      if network[0] {
        DrainLeaves(c, Round(c, s, true), network[1..]);
      }
    }
  }

  lemma Shift(wire: seq<Envelope>, queue: seq<Envelope>, n: nat)
    requires n < |queue|
    ensures (wire + [queue[0]]) + queue[1..][..n] == wire + queue[..n + 1]
  {
  }

  lemma SettleKeepsQueue(o: Outbox, queue: seq<Envelope>, fate: Fate)
    requires o.consumed != []
    ensures Settle(o.(queue := queue), fate) == Settle(o, fate).(queue := queue)
  {
  }

  class Client {
    const config: Config
    const commandCh: Channel<CommandEnvelope>
    const outboundCh: Channel<Envelope>
    var conn: Option<nat>
    var connected: bool
    var refusedReason: string
    var reconnectDelay: Nanos
    var contextDone: bool
    var closeChClosed: bool
    ghost var rest: State

    ghost predicate Valid()
      reads this, commandCh, commandCh.buffer, outboundCh, outboundCh.buffer
    {
      && commandCh.Valid() && commandCh.buffer.Length == Inboxes.COMMAND_CAPACITY
      && outboundCh.Valid() && outboundCh.buffer.Length == OUTBOUND_CAPACITY
      && commandCh.buffer as object != outboundCh.buffer as object
      && (contextDone <==> !rest.stop.NotStopped?)
      && (closeChClosed <==> rest.stop.ChannelClosed? || rest.stop.ConnClosed?)
    }

    /** The state of the transition system that the object stands for. */
    ghost function View(): State
      requires Valid()
      reads this, commandCh, commandCh.buffer, outboundCh, outboundCh.buffer
    {
      rest.(conn := conn, connected := connected, reason := refusedReason, delay := reconnectDelay,
            out := rest.out.(queue := outboundCh.Contents()),
            inb := rest.inb.(queue := commandCh.Contents()))
    }

    constructor (reconnectInterval: Nanos, maxReconnectDelay: Nanos)
      ensures Valid() && fresh(commandCh) && fresh(commandCh.buffer) && fresh(outboundCh) && fresh(outboundCh.buffer)
      ensures config == FillDefaults(reconnectInterval, maxReconnectDelay)
      ensures commandCh.buffer.Length == 100 && outboundCh.buffer.Length == 200
      ensures View() == Init(config)
    {
      var c := FillDefaults(reconnectInterval, maxReconnectDelay);
      config := c;
      commandCh := new Channel<CommandEnvelope>(Inboxes.COMMAND_CAPACITY);
      outboundCh := new Channel<Envelope>(OUTBOUND_CAPACITY);
      conn, connected, refusedReason := None, false, "";
      reconnectDelay := c.reconnectInterval;
      contextDone, closeChClosed := false, false;
      rest := Init(c);
    }

    // ---- connectionManager ----

    /** The wait after a failed dial has run out. */
    method RetryTimerFires() returns (slept: Nanos)
      requires Valid() && ManagerEnabled(View(), RetryTimer)
      modifies this
      ensures Valid() && slept == old(reconnectDelay)
      ensures View() == ManagerNext(config, old(View()), RetryTimer)
    {
      slept := reconnectDelay;
      rest := rest.(pc := Top, log := rest.log + [Slept(reconnectDelay)]);
      reconnectDelay := NextDelay(reconnectDelay, config.maxReconnectDelay);
    }

    /** connect, after the dial: the new connection is published under the lock. */
    method PublishConnection(dialled: nat)
      requires Valid() && ManagerEnabled(View(), Install) && dialled == View().epoch
      modifies this
      ensures Valid() && View() == ManagerNext(config, old(View()), Install)
    {
      conn := Some(dialled);
      connected := true;
      rest := rest.(pc := Entering);
    }

    /** The delay is reset and the message loop starts with its reader. */
    method EnterMessageLoop()
      requires Valid() && ManagerEnabled(View(), EnterLoop)
      modifies this
      ensures Valid() && View() == ManagerNext(config, old(View()), EnterLoop)
    {
      reconnectDelay := config.reconnectInterval;
      rest := rest.(pc := Selecting, readers := rest.readers[rest.epoch := Spawned]);
    }

    /** The deferred clean-up of messageLoop. */
    method LeaveMessageLoop()
      requires Valid() && ManagerEnabled(View(), CleanUp)
      modifies this
      ensures Valid() && View() == ManagerNext(config, old(View()), CleanUp)
    {
      rest := rest.(pc := PostLoop, log := rest.log + [LoopLeft]);
      if conn.Some? {
        rest := rest.(open := rest.open - {conn.value});
        conn := None;
      }
      connected := false;
    }

    /** Reads and clears the refusal reason under the lock. */
    method TakeRefusal() returns (refused: string)
      requires Valid() && ManagerEnabled(View(), TakeReason)
      modifies this
      ensures Valid() && refused == old(refusedReason)
      ensures View() == ManagerNext(config, old(View()), TakeReason)
      ensures refused != "" <==> View().pc.Refused?
    {
      refused := refusedReason;
      refusedReason := "";
      rest := rest.(pc := if refused == "" then Top else Refused,
                    log := rest.log + [ReasonTaken(refused)], mail := rest.mail + [Took(refused)]);
    }

    // ---- messageLoop ----

    /** The receive case of the loop's select. */
    method ReceiveOutbound() returns (received: bool, e: Envelope)
      requires Valid() && View().pc.Selecting?
      modifies this, outboundCh
      ensures Valid()
      ensures received <==> ManagerEnabled(old(View()), TakeEnvelope)
      ensures received ==> View() == ManagerNext(config, old(View()), TakeEnvelope) && e == old(View()).out.queue[0]
      ensures !received ==> View() == old(View())
    {
      received, e := outboundCh.TryReceive();
      if received {
        BeginWrite(e);
      }
    }

    /** The bookkeeping of an envelope received: its delivery is in flight. */
    ghost method BeginWrite(e: Envelope)
      requires Valid()
      modifies this`rest
      ensures Valid()
      ensures var before := old(View());
              View() == before.(
                pc := Writing,
                out := before.out.(consumed := before.out.consumed + [Delivery(e, before.epoch, InFlight)]))
    {
      rest := rest.(pc := Writing,
                    out := rest.out.(consumed := rest.out.consumed + [Delivery(e, rest.epoch, InFlight)]));
    }

    /** writeEnvelope: it fails without a connection, and whenever the network does. */
    method WriteEnvelope(networkOk: bool) returns (ok: bool)
      requires Valid() && View().pc.Writing? && View().out.consumed != []
      modifies this
      ensures Valid()
      ensures ok <==> old(conn).Some? && networkOk
      ensures View() == ManagerNext(config, old(View()), if ok then WriteSucceeds else WriteFails)
    {
      ok := conn.Some? && networkOk;
      EndWrite(if ok then Selecting else Leaving, if ok then Written else Lost);
    }

    /** The bookkeeping of a finished write: the delivery gets its fate, the loop goes on or ends. */
    ghost method EndWrite(pc: Pc, fate: Fate)
      requires Valid() && View().out.consumed != []
      modifies this`rest
      ensures Valid()
      ensures View() == old(View()).(pc := pc, out := Settle(old(View()).out, fate))
    {
      SettleKeepsQueue(rest.out, outboundCh.Contents(), fate);
      rest := rest.(pc := pc, out := Settle(rest.out, fate));
    }

    /** One round of the loop in which the outbound case is chosen. */
    method SendOne(networkOk: bool) returns (received: bool)
      requires Valid() && View().pc.Selecting? && View().conn.Some?
      modifies this, outboundCh
      ensures Valid() && (received <==> old(View()).out.queue != [])
      ensures View() == if received then Round(config, old(View()), networkOk) else old(View())
    {
      var e;
      received, e := ReceiveOutbound();
      if received {
        var ok := WriteEnvelope(networkOk);
      }
    }

    /** The loop as long as only its outbound case is ready, against a script of write outcomes. */
    method DrainOutbound(network: seq<bool>)
      requires Valid() && InSelect(View())
      modifies this, outboundCh
      ensures Valid() && View() == Drain(config, old(View()), network)
    {
      var i := 0;
      ghost var start := View();
      assert network[0..] == network;
      while i < |network|
        invariant Valid() && InSelect(View()) && i <= |network|
        invariant Drain(config, View(), network[i..]) == Drain(config, start, network)
      {
        ghost var before := View();
        var received := SendOne(network[i]);
        if !received {
          return;
        }
        RoundEffects(config, before, network[i]);
        assert network[i..][1..] == network[i + 1..];
        if !network[i] {
          return;
        }
        i := i + 1;
      }
    }

    // ---- messageReader ----

    /** The reader reads the shared connection when it first runs. */
    method CaptureConnection(ghost e: nat) returns (mine: Option<nat>)
      requires Valid() && Enabled(View(), ReaderOf(e, Capture))
      modifies this
      ensures Valid() && mine == conn == old(conn)
      ensures View() == Next(config, old(View()), ReaderOf(e, Capture))
    {
      mine := conn;
      rest := rest.(readers := rest.readers[e := if mine.Some? then Looping(mine.value) else Done]);
    }

    /** Stores the text of a 1008 close under the lock. */
    method ReportRefusal(ghost e: nat, text: string)
      requires Valid() && Enabled(View(), ReaderOf(e, Report)) && text == View().readers[e].text
      modifies this
      ensures Valid() && View() == Next(config, old(View()), ReaderOf(e, Report))
    {
      refusedReason := text;
      rest := rest.(readers := rest.readers[e := Done], mail := rest.mail + [Put(e, text)]);
    }

    /** handleIncomingMessage */
    method HandleIncomingMessage(ghost e: nat, frame: Frame) returns (dropped: bool)
      requires Valid() && Enabled(View(), ReaderOf(e, Deliver)) && frame == View().readers[e].frame
      modifies this, commandCh, commandCh.buffer
      ensures Valid() && View() == Next(config, old(View()), ReaderOf(e, Deliver))
      ensures dropped <==> frame.CommandFrame? && |old(View()).inb.queue| == Inboxes.COMMAND_CAPACITY
    {
      dropped := false;
      if frame.CommandFrame? {
        var sent := OfferCommand(frame.command);
        dropped := !sent;
      }
      rest := rest.(readers := rest.readers[e := Looping(rest.readers[e].conn)]);
    }

    /** The select with a default around the send to the command channel. */
    method OfferCommand(command: CommandEnvelope) returns (sent: bool)
      requires Valid()
      modifies this, commandCh, commandCh.buffer
      ensures Valid()
      ensures View() == old(View()).(inb := Inboxes.Offer(old(View()).inb, command))
      ensures sent <==> |old(View()).inb.queue| < Inboxes.COMMAND_CAPACITY
    {
      ghost var depth := |commandCh.Contents()|;
      sent := commandCh.TrySend(command);
      Record(rest.inb.arrivals + [Inboxes.Arrival(command, sent, depth)], rest.inb.taken);
    }

    /** The consumer side of Commands(). */
    method ReceiveCommand() returns (received: bool, command: CommandEnvelope)
      requires Valid()
      modifies this, commandCh
      ensures Valid()
      ensures received <==> Enabled(old(View()), TakeCommand)
      ensures received ==> View() == Next(config, old(View()), TakeCommand) && command == old(View()).inb.queue[0]
      ensures !received ==> View() == old(View())
    {
      received, command := commandCh.TryReceive();
      if received {
        Record(rest.inb.arrivals, rest.inb.taken + [command]);
      }
    }

    /** The bookkeeping of the command channel. */
    ghost method Record(arrivals: seq<Inboxes.Arrival>, taken: seq<CommandEnvelope>)
      requires Valid()
      modifies this`rest
      ensures Valid()
      ensures View() == old(View()).(inb := old(View()).inb.(arrivals := arrivals, taken := taken))
    {
      rest := rest.(inb := rest.inb.(arrivals := arrivals, taken := taken));
    }

    // ---- sendEnvelope ----

    /** Its first half: is there a connection? */
    method CheckConnected(e: Envelope) returns (ok: bool)
      requires Valid() && Enabled(View(), CallSend(e))
      modifies this
      ensures Valid() && ok == old(connected)
      ensures View() == Next(config, old(View()), CallSend(e))
    {
      ok := connected;
      rest := rest.(out := Outboxes.Check(rest.out, e, ok));
    }

    /** Its second half: the non-blocking send. */
    method Enqueue(e: Envelope) returns (ok: bool)
      requires Valid() && Enabled(View(), TrySend(e.sender)) && View().out.checked[e.sender] == e
      modifies this, outboundCh, outboundCh.buffer
      ensures Valid() && View() == Next(config, old(View()), TrySend(e.sender))
      ensures ok <==> |old(View()).out.queue| < OUTBOUND_CAPACITY
    {
      ok := outboundCh.TrySend(e);
      EndSend(e, ok);
    }

    /** The bookkeeping of a call that has reached the channel. */
    ghost method EndSend(e: Envelope, ok: bool)
      requires Valid()
      modifies this`rest
      ensures Valid()
      ensures var o := old(View()).out;
              View() == old(View()).(
                out := o.(checked := o.checked - {e.sender},
                          accepted := if ok then o.accepted + [e] else o.accepted))
    {
      rest := rest.(out := rest.out.(checked := rest.out.checked - {e.sender},
                                     accepted := if ok then rest.out.accepted + [e] else rest.out.accepted));
    }

    /** Both halves with nothing in between; success means queued as the newest. */
    method SendEnvelope(e: Envelope) returns (ok: bool)
      requires Valid() && Enabled(View(), CallSend(e))
      modifies this, outboundCh, outboundCh.buffer
      ensures Valid()
      ensures ok <==> old(connected) && |old(View()).out.queue| < OUTBOUND_CAPACITY
      ensures View().out.queue == if ok then old(View()).out.queue + [e] else old(View()).out.queue
      ensures var called := Next(config, old(View()), CallSend(e));
              View() == if old(connected) then Next(config, called, TrySend(e.sender)) else called
    {
      ok := CheckConnected(e);
      if ok {
        ok := Enqueue(e);
      }
    }

    // ---- Stop ----

    method CancelContext()
      requires Valid() && View().stop.NotStopped?
      modifies this
      ensures Valid() && View() == Next(config, old(View()), AdvanceStop)
      ensures contextDone && View().stop.ContextCancelled?
    {
      contextDone := true;
      rest := rest.(stop := ContextCancelled);
    }

    method CloseChannel()
      requires Valid() && View().stop.ContextCancelled?
      modifies this
      ensures Valid() && View() == Next(config, old(View()), AdvanceStop)
      ensures closeChClosed && View().stop.ChannelClosed?
    {
      closeChClosed := true;
      rest := rest.(stop := ChannelClosed);
    }

    /** Closes the published connection; clearing the field is left to the message loop. */
    method CloseConnection()
      requires Valid() && View().stop.ChannelClosed?
      modifies this
      ensures Valid() && View() == Next(config, old(View()), AdvanceStop)
      ensures old(conn).Some? ==> old(conn).value !in View().open
      ensures conn == old(conn) && View().stop.ConnClosed?
    {
      rest := rest.(stop := ConnClosed);
      if conn.Some? {
        rest := rest.(open := rest.open - {conn.value});
      }
    }

    /** Stop with nothing in between: the client is cancelled and its connection closed, all else is as before. */
    method Stop()
      requires Valid() && View().stop.NotStopped?
      modifies this
      ensures Valid() && contextDone && closeChClosed && conn == old(conn)
      ensures View() == old(View()).(stop := ConnClosed, open := View().open)
      ensures View().open == if conn.Some? then old(View()).open - {conn.value} else old(View()).open
    {
      CancelContext();
      CloseChannel();
      CloseConnection();
    }
  }
}
