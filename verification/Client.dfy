/**
 * The WebSocket client (pkg/websocket/client.go) as a transition system. Every
 * action is one atomic block of one goroutine: the connection manager, the
 * readers (one spawned per connection), the senders, the consumer of the
 * command channel, and Stop. Network outcomes and `select` choices are actions.
 */
module ClientMachine {
  import opened Protocol
  import opened Backoff
  import opened ManagerLogs
  import opened Outboxes
  import Inboxes

  /** Program counter of the connection manager, which also runs the message loop. */
  datatype Pc =
    | Top          // loop head, before the shutdown check
    | Ready        // check passed, dial not yet started
    | Dialing
    | Installing   // dialled, connection not yet published
    | Failed       // waiting for the retry timer
    | Entering     // connected, message loop not yet entered
    | Selecting
    | Writing
    | Leaving      // message loop over, deferred clean-up not yet run
    | PostLoop
    | Taking       // about to read and clear the refusal reason
    | Refused      // waiting the maximum delay
    | Exited

  /** Program counter of a connection reader; it captures `conn` only when it first runs. */
  datatype Reader =
    | Spawned
    | Looping(conn: nat)
    | Reading(conn: nat)
    | Holding(conn: nat, frame: Frame)
    | Closing(conn: nat, text: string)  // has seen a 1008 close, reason not yet stored
    | Done

  datatype Stop = NotStopped | ContextCancelled | ChannelClosed | ConnClosed

  /** Writes and reads of refusedReason. */
  datatype Mail = Put(reader: nat, text: string) | Took(text: string)

  /**
   * `broken` holds the read error of every connection on which a read has
   * failed: the text of a 1008 close, or none for any other error. The first
   * error of a connection is permanent; later reads return the same one.
   */
  datatype State = State(
    pc: Pc,
    delay: Nanos,
    conn: Option<nat>,
    connected: bool,
    reason: string,
    epoch: nat,
    open: set<nat>,
    broken: map<nat, Option<string>>,
    readers: map<nat, Reader>,
    stop: Stop,
    out: Outbox,
    inb: Inboxes.Inbox,
    log: seq<Entry>,
    mail: seq<Mail>)

  datatype ManagerStep =
    | Exit
    | PassCheck
    | StartDial
    | DialFails
    | DialSucceeds
    | Install
    | RetryTimer
    | EnterLoop
    | LeaveOnStop
    | LeaveOnReader
    | TakeEnvelope
    | WriteSucceeds
    | WriteFails
    | CleanUp
    | PassPostCheck
    | TakeReason
    | RefusalTimer

  /** `policyText` is the close text of a 1008 close; any other read error has none. */
  datatype ReaderStep =
    | Capture
    | Check
    | Read(frame: Frame)
    | Fail(policyText: Option<string>)
    | Report
    | Deliver

  datatype Action =
    | Manager(step: ManagerStep)
    | ReaderOf(epoch: nat, rstep: ReaderStep)
    | CallSend(envelope: Envelope)
    | TrySend(sender: Sender)
    | TakeCommand
    | AdvanceStop

  predicate Cancelled(s: State) {
    !s.stop.NotStopped?
  }

  function Init(c: Config): State {
    State(Top, c.reconnectInterval, None, false, "", 0, {}, map[], map[], NotStopped,
          Outboxes.EMPTY, Inboxes.EMPTY, [], [])
  }

  predicate ManagerEnabled(s: State, m: ManagerStep) {
    match m
    case Exit => Cancelled(s) && (s.pc.Top? || s.pc.Failed? || s.pc.PostLoop? || s.pc.Refused?)
    case PassCheck => !Cancelled(s) && s.pc.Top?
    case StartDial => s.pc.Ready?
    case DialFails => s.pc.Dialing?
    case DialSucceeds => s.pc.Dialing?
    case Install => s.pc.Installing?
    case RetryTimer => s.pc.Failed?
    case EnterLoop => s.pc.Entering?
    case LeaveOnStop => Cancelled(s) && s.pc.Selecting?
    case LeaveOnReader => s.pc.Selecting? && s.epoch in s.readers && s.readers[s.epoch].Done?
    case TakeEnvelope => s.pc.Selecting? && s.out.queue != []
    case WriteSucceeds => s.pc.Writing? && s.out.consumed != []
    case WriteFails => s.pc.Writing? && s.out.consumed != []
    case CleanUp => s.pc.Leaving?
    case PassPostCheck => !Cancelled(s) && s.pc.PostLoop?
    case TakeReason => s.pc.Taking?
    case RefusalTimer => s.pc.Refused?
  }

  function Log(s: State, e: Entry): seq<Entry> {
    s.log + [e]
  }

  function ManagerNext(c: Config, s: State, m: ManagerStep): State
    requires ManagerEnabled(s, m)
  {
    match m
    case Exit => s.(pc := Exited)
    case PassCheck => s.(pc := Ready)
    case StartDial => s.(pc := Dialing, log := Log(s, DialStarted))
    case DialFails => s.(pc := Failed, log := Log(s, DialFailed))
    case DialSucceeds =>
      s.(pc := Installing, epoch := s.epoch + 1, open := s.open + {s.epoch + 1}, log := Log(s, Connected(s.epoch + 1)))
    case Install => s.(pc := Entering, conn := Some(s.epoch), connected := true)
    case RetryTimer =>
      s.(pc := Top, delay := NextDelay(s.delay, c.maxReconnectDelay), log := Log(s, Slept(s.delay)))
    case EnterLoop =>
      s.(pc := Selecting, delay := c.reconnectInterval, readers := s.readers[s.epoch := Spawned])
    case LeaveOnStop => s.(pc := Leaving)
    case LeaveOnReader => s.(pc := Leaving)
    case TakeEnvelope => s.(pc := Writing, out := Take(s.out, s.epoch))
    case WriteSucceeds => s.(pc := Selecting, out := Settle(s.out, Written))
    case WriteFails => s.(pc := Leaving, out := Settle(s.out, Lost))
    case CleanUp =>
      s.(pc := PostLoop, conn := None, connected := false, log := Log(s, LoopLeft),
         open := if s.conn.Some? then s.open - {s.conn.value} else s.open)
    case PassPostCheck => s.(pc := Taking)
    case TakeReason =>
      s.(pc := if s.reason == "" then Top else Refused, reason := "",
         log := Log(s, ReasonTaken(s.reason)), mail := s.mail + [Took(s.reason)])
    case RefusalTimer => s.(pc := Top, log := Log(s, Slept(c.maxReconnectDelay)))
  }

  /** May a read of connection `id` fail with this error? */
  predicate CanFail(s: State, id: nat, policyText: Option<string>) {
    id in s.broken ==> s.broken[id] == policyText
  }

  predicate ReaderEnabled(s: State, r: Reader, m: ReaderStep) {
    match m
    case Capture => r.Spawned?
    case Check => r.Looping?
    case Read(_) => r.Reading? && r.conn !in s.broken
    case Fail(policyText) => r.Reading? && CanFail(s, r.conn, policyText)
    case Report => r.Closing?
    case Deliver => r.Holding?
  }

  /** The reader's own next program counter. */
  function ReaderNext(s: State, r: Reader, m: ReaderStep): Reader
    requires ReaderEnabled(s, r, m)
  {
    match m
    case Capture => if s.conn.Some? then Looping(s.conn.value) else Done
    case Check => if Cancelled(s) then Done else Reading(r.conn)
    case Read(frame) => Holding(r.conn, frame)
    case Fail(policyText) => if policyText.Some? then Closing(r.conn, policyText.value) else Done
    case Report => Done
    case Deliver => Looping(r.conn)
  }

  function ReaderEffect(s: State, e: nat, m: ReaderStep): State
    requires e in s.readers && ReaderEnabled(s, s.readers[e], m)
  {
    var r := s.readers[e];
    var moved := s.(readers := s.readers[e := ReaderNext(s, r, m)]);
    match m
    case Fail(policyText) => moved.(broken := s.broken[r.conn := policyText])
    case Report => moved.(reason := r.text, mail := s.mail + [Put(e, r.text)])
    case Deliver =>
      if r.frame.CommandFrame? then moved.(inb := Inboxes.Offer(s.inb, r.frame.command)) else moved
    case _ => moved
  }

  function StopNext(s: State): State
    requires !s.stop.ConnClosed?
  {
    match s.stop
    case NotStopped => s.(stop := ContextCancelled)
    case ContextCancelled => s.(stop := ChannelClosed)
    case ChannelClosed => s.(stop := ConnClosed, open := if s.conn.Some? then s.open - {s.conn.value} else s.open)
  }

  predicate Enabled(s: State, a: Action) {
    match a
    case Manager(m) => ManagerEnabled(s, m)
    case ReaderOf(e, m) => e in s.readers && ReaderEnabled(s, s.readers[e], m)
    case CallSend(e) => e.sender !in s.out.checked
    case TrySend(x) => x in s.out.checked
    case TakeCommand => s.inb.queue != []
    case AdvanceStop => !s.stop.ConnClosed?
  }

  function Next(c: Config, s: State, a: Action): State
    requires Enabled(s, a)
  {
    match a
    case Manager(m) => ManagerNext(c, s, m)
    case ReaderOf(e, m) => ReaderEffect(s, e, m)
    case CallSend(e) => s.(out := Outboxes.Check(s.out, e, s.connected))
    case TrySend(x) => s.(out := Push(s.out, x))
    case TakeCommand => s.(inb := Inboxes.Take(s.inb))
    case AdvanceStop => StopNext(s)
  }

  /** `acts` is a run from s. */
  ghost predicate Runs(c: Config, s: State, acts: seq<Action>)
    decreases |acts|
  {
    acts == [] || (Enabled(s, acts[0]) && Runs(c, Next(c, s, acts[0]), acts[1..]))
  }

  ghost function After(c: Config, s: State, acts: seq<Action>): State
    requires Runs(c, s, acts)
    decreases |acts|
  {
    if acts == [] then s else After(c, Next(c, s, acts[0]), acts[1..])
  }

  lemma ManagerLogGrows(c: Config, s: State, m: ManagerStep) returns (e: Entry)
    requires ManagerEnabled(s, m)
    ensures ManagerNext(c, s, m).log == s.log || ManagerNext(c, s, m).log == s.log + [e]
    ensures m != StartDial ==> !e.DialStarted?
  {
    e :=
      match m
      case StartDial => DialStarted
      case DialFails => DialFailed
      case DialSucceeds => Connected(s.epoch + 1)
      case RetryTimer => Slept(s.delay)
      case TakeReason => ReasonTaken(s.reason)
      case RefusalTimer => Slept(c.maxReconnectDelay)
      case _ => LoopLeft;
  }

  lemma OthersLeaveManager(c: Config, s: State, a: Action)
    requires Enabled(s, a) && !a.Manager?
    ensures var t := Next(c, s, a);
            t.pc == s.pc && t.log == s.log && t.delay == s.delay && t.epoch == s.epoch
  {
  }

  /** A step adds at most one entry to the log, a dial only by starting it. */
  lemma LogGrows(c: Config, s: State, a: Action) returns (e: Entry)
    requires Enabled(s, a)
    ensures Next(c, s, a).log == s.log || Next(c, s, a).log == s.log + [e]
    ensures a != Manager(StartDial) ==> !e.DialStarted?
  {
    e := LoopLeft;
    if a.Manager? {
      e := ManagerLogGrows(c, s, a.step);
    } else {
      OthersLeaveManager(c, s, a);
    }
  }
}
