/**
 * The histories kept in the client's state are not bookkeeping of their own:
 * they are what the run did. Attempts, arrivals, frames, losses, the manager's
 * log and the mail of refusal reasons are tied here to the actions of the run;
 * the accepted envelopes are the consumed and the queued ones.
 */
module ClientTraces {
  import opened Protocol
  import opened ManagerLogs
  import opened Outboxes
  import opened ClientMachine
  import opened ClientInvariants
  import Inboxes

  /** The envelopes with which sendEnvelope was called. */
  function SendCalls(acts: seq<Action>): seq<Envelope> {
    if acts == [] then []
    else (if acts[0].CallSend? then [acts[0].envelope] else []) + SendCalls(acts[1..])
  }

  function CountManager(acts: seq<Action>, m: ManagerStep): nat {
    if acts == [] then 0 else (if acts[0] == Manager(m) then 1 else 0) + CountManager(acts[1..], m)
  }

  /** The command that this action hands to handleIncomingMessage, if any. */
  function HandedOver(s: State, a: Action): seq<CommandEnvelope>
    requires Enabled(s, a)
  {
    if a.ReaderOf? && a.rstep.Deliver? && s.readers[a.epoch].frame.CommandFrame? then
      [s.readers[a.epoch].frame.command]
    else []
  }

  /** The commands handed to handleIncomingMessage along a run. */
  ghost function CommandsRead(c: Config, s: State, acts: seq<Action>): seq<CommandEnvelope>
    requires Runs(c, s, acts)
    decreases |acts|
  {
    if acts == [] then []
    else HandedOver(s, acts[0]) + CommandsRead(c, Next(c, s, acts[0]), acts[1..])
  }

  function ArrivedCommands(arrivals: seq<Inboxes.Arrival>): (r: seq<CommandEnvelope>)
    ensures |r| == |arrivals|
  {
    seq(|arrivals|, i requires 0 <= i < |arrivals| => arrivals[i].command)
  }

  lemma StepAttempts(c: Config, s: State, a: Action)
    requires Enabled(s, a)
    ensures Next(c, s, a).out.attempted == s.out.attempted + SendCalls([a])
  {
    match a
    case CallSend(_) =>
    case _ => assert s.out.attempted + [] == s.out.attempted;
  }

  lemma ArrivedAppend(arrivals: seq<Inboxes.Arrival>, x: Inboxes.Arrival)
    ensures ArrivedCommands(arrivals + [x]) == ArrivedCommands(arrivals) + [x.command]
  {
  }

  lemma StepArrivals(c: Config, s: State, a: Action)
    requires Enabled(s, a)
    ensures ArrivedCommands(Next(c, s, a).inb.arrivals) == ArrivedCommands(s.inb.arrivals) + HandedOver(s, a)
  {
    if HandedOver(s, a) == [] {
      assert Next(c, s, a).inb.arrivals == s.inb.arrivals;
    } else {
      var command := HandedOver(s, a)[0];
      ArrivedAppend(s.inb.arrivals, Inboxes.Offer(s.inb, command).arrivals[|s.inb.arrivals|]);
    }
  }

  lemma ManagerWrites(c: Config, s: State, m: ManagerStep)
    requires ManagerEnabled(s, m) && Consuming(s)
    ensures var o := ManagerNext(c, s, m).out;
            && |Wire(o)| == |Wire(s.out)| + (if m == WriteSucceeds then 1 else 0)
            && CountLost(o.consumed) == CountLost(s.out.consumed) + (if m == WriteFails then 1 else 0)
  {
    match m
    case TakeEnvelope => TakeCounts(s.out, s.epoch);
    case WriteSucceeds => SettleCounts(s.out, Written);
    case WriteFails => SettleCounts(s.out, Lost);
    case _ =>
  }

  lemma StepWrites(c: Config, s: State, a: Action)
    requires Enabled(s, a) && Consuming(s)
    ensures |Wire(Next(c, s, a).out)| == |Wire(s.out)| + CountManager([a], WriteSucceeds)
    ensures CountLost(Next(c, s, a).out.consumed) == CountLost(s.out.consumed) + CountManager([a], WriteFails)
  {
    match a
    case Manager(m) => ManagerWrites(c, s, m);
    case _ => assert Next(c, s, a).out.consumed == s.out.consumed;
  }

  /** One attempt per call, in order. */
  lemma {:induction false} AttemptHistory(c: Config, s: State, acts: seq<Action>)
    requires Runs(c, s, acts)
    ensures After(c, s, acts).out.attempted == s.out.attempted + SendCalls(acts)
    decreases |acts|
  {
    if acts == [] {
      assert s.out.attempted + [] == s.out.attempted;
    } else {
      var a, t := acts[0], Next(c, s, acts[0]);
      StepAttempts(c, s, a);
      AttemptHistory(c, t, acts[1..]);
      assert SendCalls([a]) + SendCalls(acts[1..]) == SendCalls(acts);
      Associative(s.out.attempted, SendCalls([a]), SendCalls(acts[1..]));
    }
  }

  /** One frame per successful write, one loss per failed write. */
  lemma {:induction false} WriteHistory(c: Config, s: State, acts: seq<Action>)
    requires Inv(c, s) && Runs(c, s, acts)
    ensures var o := After(c, s, acts).out;
            && |Wire(o)| == |Wire(s.out)| + CountManager(acts, WriteSucceeds)
            && CountLost(o.consumed) == CountLost(s.out.consumed) + CountManager(acts, WriteFails)
    decreases |acts|
  {
    if acts != [] {
      StepKeepsInv(c, s, acts[0]);
      StepWrites(c, s, acts[0]);
      WriteHistory(c, Next(c, s, acts[0]), acts[1..]);
    }
  }

  lemma Associative<T>(a: seq<T>, b: seq<T>, c: seq<T>)
    ensures (a + b) + c == a + (b + c)
  {
  }

  /** The inbound history: one arrival per command frame handed over, in order. */
  lemma {:induction false} InboundHistory(c: Config, s: State, acts: seq<Action>)
    requires Runs(c, s, acts)
    ensures ArrivedCommands(After(c, s, acts).inb.arrivals)
         == ArrivedCommands(s.inb.arrivals) + CommandsRead(c, s, acts)
    decreases |acts|
  {
    if acts == [] {
      assert ArrivedCommands(s.inb.arrivals) + [] == ArrivedCommands(s.inb.arrivals);
    } else {
      var a, t := acts[0], Next(c, s, acts[0]);
      StepArrivals(c, s, a);
      InboundHistory(c, t, acts[1..]);
      Associative(ArrivedCommands(s.inb.arrivals), HandedOver(s, a), CommandsRead(c, t, acts[1..]));
    }
  }

  // ---- Frames ----

  /** The frames that reader e has read in a run. */
  function FramesRead(acts: seq<Action>, e: nat): seq<Frame> {
    if acts == [] then []
    else
      (if acts[0].ReaderOf? && acts[0].epoch == e && acts[0].rstep.Read? then [acts[0].rstep.frame] else [])
      + FramesRead(acts[1..], e)
  }

  /** The frame that this action lets reader e hand to handleIncomingMessage, if any. */
  function FrameHandled(s: State, a: Action, e: nat): seq<Frame>
    requires Enabled(s, a)
  {
    if a.ReaderOf? && a.epoch == e && a.rstep.Deliver? then [s.readers[e].frame] else []
  }

  ghost function FramesHandled(c: Config, s: State, acts: seq<Action>, e: nat): seq<Frame>
    requires Runs(c, s, acts)
    decreases |acts|
  {
    if acts == [] then [] else FrameHandled(s, acts[0], e) + FramesHandled(c, Next(c, s, acts[0]), acts[1..], e)
  }

  /** The frame read by e and not yet handled. */
  function Held(s: State, e: nat): seq<Frame> {
    if e in s.readers && s.readers[e].Holding? then [s.readers[e].frame] else []
  }

  lemma StepFrames(c: Config, s: State, a: Action, e: nat)
    requires Enabled(s, a) && ReadersMatch(s)
    ensures Held(s, e) + FramesRead([a], e) == FrameHandled(s, a, e) + Held(Next(c, s, a), e)
  {
    match a
    case Manager(m) => ManagerHoldsNothing(c, s, m, e);
    case ReaderOf(e', m) =>
      if e' == e {
        ReaderFrames(c, s, e, m);
      } else {
        assert FramesRead([a], e) == [] && FrameHandled(s, a, e) == [];
      }
    case _ => assert FramesRead([a], e) == [] && Next(c, s, a).readers == s.readers;
  }

  lemma ManagerHoldsNothing(c: Config, s: State, m: ManagerStep, e: nat)
    requires ManagerEnabled(s, m) && ReadersMatch(s)
    ensures Held(ManagerNext(c, s, m), e) == Held(s, e)
  {
  }

  lemma ReaderFrames(c: Config, s: State, e: nat, m: ReaderStep)
    requires Enabled(s, ReaderOf(e, m))
    ensures Held(s, e) + FramesRead([ReaderOf(e, m)], e)
         == FrameHandled(s, ReaderOf(e, m), e) + Held(Next(c, s, ReaderOf(e, m)), e)
  {
  }

  /** In every run each reader handles the frames that it has read, in order; at most the last is outstanding. */
  lemma {:induction false} FrameHistory(c: Config, s: State, acts: seq<Action>, e: nat)
    requires Runs(c, s, acts) && ReadersMatch(s)
    ensures Held(s, e) + FramesRead(acts, e) == FramesHandled(c, s, acts, e) + Held(After(c, s, acts), e)
    decreases |acts|
  {
    if acts != [] {
      var a, t := acts[0], Next(c, s, acts[0]);
      StepKeepsReaders(c, s, a);
      StepFrames(c, s, a, e);
      FrameHistory(c, t, acts[1..], e);
      FirstRead(acts, e);
      Chain(Held(s, e), FramesRead([a], e), FrameHandled(s, a, e), Held(t, e),
            FramesRead(acts[1..], e), FramesHandled(c, t, acts[1..], e), Held(After(c, s, acts), e));
    }
  }

  lemma FirstRead(acts: seq<Action>, e: nat)
    requires acts != []
    ensures FramesRead(acts, e) == FramesRead([acts[0]], e) + FramesRead(acts[1..], e)
  {
    assert [acts[0]][1..] == [];
  }

  lemma Chain(
    held: seq<Frame>, read: seq<Frame>, handled: seq<Frame>, held': seq<Frame>,
    read': seq<Frame>, handled': seq<Frame>, held'': seq<Frame>)
    requires held + read == handled + held' && held' + read' == handled' + held''
    ensures held + (read + read') == (handled + handled') + held''
  {
    Associative(held, read, read');
    Associative(handled, held', read');
    Associative(handled, handled', held'');
  }

  // ---- The manager's log ----

  /** What an entry of the log stands for, without its particulars. */
  datatype Mark = Dial | Failure | Connection | End | Taking | Wait

  function MarkOf(e: Entry): Mark {
    match e
    case DialStarted => Dial
    case DialFailed => Failure
    case Connected(_) => Connection
    case LoopLeft => End
    case ReasonTaken(_) => Mark.Taking
    case Slept(_) => Wait
  }

  function Marks(log: seq<Entry>): (r: seq<Mark>)
    ensures |r| == |log|
  {
    seq(|log|, i requires 0 <= i < |log| => MarkOf(log[i]))
  }

  function MarksOf(m: ManagerStep): seq<Mark> {
    match m
    case StartDial => [Dial]
    case DialFails => [Failure]
    case DialSucceeds => [Connection]
    case CleanUp => [End]
    case TakeReason => [Mark.Taking]
    case RetryTimer => [Wait]
    case RefusalTimer => [Wait]
    case _ => []
  }

  /** The dials, failures, connections, loop ends, takes and waits of a run, in order. */
  function Deeds(acts: seq<Action>): seq<Mark> {
    if acts == [] then []
    else (if acts[0].Manager? then MarksOf(acts[0].step) else []) + Deeds(acts[1..])
  }

  lemma MarksAppend(log: seq<Entry>, e: Entry)
    ensures Marks(log + [e]) == Marks(log) + [MarkOf(e)]
  {
  }

  lemma ManagerMarks(c: Config, s: State, m: ManagerStep)
    requires ManagerEnabled(s, m)
    ensures Marks(ManagerNext(c, s, m).log) == Marks(s.log) + MarksOf(m)
  {
    var t := ManagerNext(c, s, m);
    if |t.log| > |s.log| {
      MarksAppend(s.log, Last(t.log));
    }
  }

  lemma StepMarks(c: Config, s: State, a: Action)
    requires Enabled(s, a)
    ensures Marks(Next(c, s, a).log) == Marks(s.log) + (if a.Manager? then MarksOf(a.step) else [])
  {
    if a.Manager? {
      ManagerMarks(c, s, a.step);
    } else {
      OthersLeaveManager(c, s, a);
    }
  }

  /** The log is the manager's deeds, one entry each, in order. */
  lemma {:induction false} LogHistory(c: Config, s: State, acts: seq<Action>)
    requires Runs(c, s, acts)
    ensures Marks(After(c, s, acts).log) == Marks(s.log) + Deeds(acts)
    decreases |acts|
  {
    if acts == [] {
      assert Marks(s.log) + [] == Marks(s.log);
    } else {
      var a, t := acts[0], Next(c, s, acts[0]);
      StepMarks(c, s, a);
      LogHistory(c, t, acts[1..]);
      Associative(Marks(s.log), if a.Manager? then MarksOf(a.step) else [], Deeds(acts[1..]));
    }
  }

  function Count(marks: seq<Mark>, m: Mark): nat {
    if marks == [] then 0 else Count(marks[..|marks| - 1], m) + (if marks[|marks| - 1] == m then 1 else 0)
  }

  /** The dials counted in a log are its dial entries. */
  lemma {:induction false} DialsAreMarks(log: seq<Entry>)
    ensures Dials(log) == Count(Marks(log), Dial)
  {
    if log != [] {
      DialsAreMarks(Front(log));
      MarksAppend(Front(log), Last(log));
      assert log == Front(log) + [Last(log)];
    }
  }

  // ---- Refusal reasons ----

  /** Who wrote to the cell of the refusal reason: a reader, or the manager clearing it. */
  function Writer(m: Mail): Option<nat> {
    match m
    case Put(e, _) => Some(e)
    case Took(_) => None
  }

  function Writers(mail: seq<Mail>): (r: seq<Option<nat>>)
    ensures |r| == |mail|
  {
    seq(|mail|, i requires 0 <= i < |mail| => Writer(mail[i]))
  }

  /** The writes of an action to that cell. */
  function WritesOf(a: Action): seq<Option<nat>> {
    match a
    case Manager(TakeReason) => [None]
    case ReaderOf(e, Report) => [Some(e)]
    case _ => []
  }

  function ReasonWrites(acts: seq<Action>): seq<Option<nat>> {
    if acts == [] then [] else WritesOf(acts[0]) + ReasonWrites(acts[1..])
  }

  lemma WritersAppend(mail: seq<Mail>, m: Mail)
    ensures Writers(mail + [m]) == Writers(mail) + [Writer(m)]
  {
  }

  lemma StepMail(c: Config, s: State, a: Action)
    requires Enabled(s, a)
    ensures Writers(Next(c, s, a).mail) == Writers(s.mail) + WritesOf(a)
  {
    match a
    case Manager(TakeReason) => WritersAppend(s.mail, Took(s.reason));
    case ReaderOf(e, Report) => WritersAppend(s.mail, Put(e, s.readers[e].text));
    case _ => assert Next(c, s, a).mail == s.mail;
  }

  /** The mail is the reasons stored and taken, one entry each, in order. */
  lemma {:induction false} MailHistory(c: Config, s: State, acts: seq<Action>)
    requires Runs(c, s, acts)
    ensures Writers(After(c, s, acts).mail) == Writers(s.mail) + ReasonWrites(acts)
    decreases |acts|
  {
    if acts == [] {
      assert Writers(s.mail) + [] == Writers(s.mail);
    } else {
      var a, t := acts[0], Next(c, s, acts[0]);
      StepMail(c, s, a);
      MailHistory(c, t, acts[1..]);
      Associative(Writers(s.mail), WritesOf(a), ReasonWrites(acts[1..]));
    }
  }
}
