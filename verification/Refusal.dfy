/**
 * What a platform refusal (a 1008 close with a text) does to the next dial.
 * The reason is a single cell shared by all readers. A refusal is respected
 * only if its reader stores the reason before the manager takes it, and if no
 * reader of an earlier connection, which may still be running, stores an empty
 * text over it; these lemmas say exactly when.
 */
module Refusals {
  import opened Protocol
  import opened ManagerLogs
  import opened ClientMachine
  import opened ClientInvariants
  import opened Shutdown

  /** The message loop is over or about to be, and the reason has not been taken. */
  predicate BeforeTaking(pc: Pc) {
    pc.Selecting? || pc.Writing? || pc.Leaving? || pc.PostLoop? || pc.Taking?
  }

  /** Could a read of connection `id` still end in a 1008 close without a text? */
  predicate MayCloseSilently(s: State, id: nat) {
    CanFail(s, id, Some(""))
  }

  /** Could this reader still overwrite the reason with an empty close text? */
  predicate MayErase(r: Reader, s: State) {
    match r
    case Spawned => s.conn.Some? && MayCloseSilently(s, s.conn.value)
    case Looping(id) => MayCloseSilently(s, id)
    case Reading(id) => MayCloseSilently(s, id)
    case Holding(id, _) => MayCloseSilently(s, id)
    case Closing(_, text) => text == ""
    case Done => false
  }

  /** No reader can. */
  ghost predicate Quiet(s: State) {
    forall e :: e in s.readers ==> !MayErase(s.readers[e], s)
  }

  /** The first dial after position n comes right behind a wait of the maximum delay. */
  ghost predicate FirstDialWaits(c: Config, log: seq<Entry>, n: nat) {
    forall j :: n <= j < |log| && log[j].DialStarted? && NoDials(log, n, j)
      ==> 0 < j && log[j - 1] == Slept(c.maxReconnectDelay)
  }

  ghost predicate NoDials(log: seq<Entry>, from: nat, to: nat) {
    forall k :: from <= k < to && k < |log| ==> !log[k].DialStarted?
  }

  /** Every continuation of s waits in full before it dials. */
  ghost predicate Respected(c: Config, s: State) {
    forall acts | Runs(c, s, acts) :: FirstDialWaits(c, After(c, s, acts).log, |s.log|)
  }

  // ---- If no reader can erase the reason, every run waits ----

  /** How far a run from a refused state, whose log had length n, has come. */
  ghost predicate Phase(c: Config, n: nat, s: State) {
    && n <= |s.log|
    && (Dialled(c, s.log, n) || (NoDials(s.log, n, |s.log|) && Before(c, s)))
  }

  ghost predicate NotYet(c: Config, s: State) {
    match s.pc
    case Top => s.log != [] && Last(s.log) == Slept(c.maxReconnectDelay)
    case Ready => s.log != [] && Last(s.log) == Slept(c.maxReconnectDelay)
    case Refused => true
    case Exited => true
    case _ => s.reason != "" && Quiet(s)
  }

  /** The first dial has happened, behind its wait. */
  ghost predicate Dialled(c: Config, log: seq<Entry>, n: nat) {
    exists j :: n <= j < |log| && FirstDialAt(c, log, n, j)
  }

  ghost predicate FirstDialAt(c: Config, log: seq<Entry>, n: nat, j: nat)
    requires j < |log|
  {
    log[j].DialStarted? && NoDials(log, n, j) && 0 < j && log[j - 1] == Slept(c.maxReconnectDelay)
  }

  lemma DialledGrows(c: Config, log: seq<Entry>, n: nat, e: Entry)
    requires Dialled(c, log, n)
    ensures Dialled(c, log + [e], n)
  {
    var j :| n <= j < |log| && FirstDialAt(c, log, n, j);
    assert FirstDialAt(c, log + [e], n, j);
  }

  lemma DialHappens(c: Config, log: seq<Entry>, n: nat)
    requires n <= |log| && NoDials(log, n, |log|) && log != [] && Last(log) == Slept(c.maxReconnectDelay)
    ensures Dialled(c, log + [DialStarted], n)
  {
    assert FirstDialAt(c, log + [DialStarted], n, |log|);
  }

  lemma ReaderKeepsQuiet(c: Config, s: State, e: nat, m: ReaderStep)
    requires Enabled(s, ReaderOf(e, m)) && s.reason != "" && Quiet(s)
    ensures Next(c, s, ReaderOf(e, m)).reason != "" && Quiet(Next(c, s, ReaderOf(e, m)))
  {
    var t := Next(c, s, ReaderOf(e, m));
    assert !MayErase(s.readers[e], s);
    assert t.conn == s.conn && t.broken == s.broken;
    forall k | k in t.readers
      ensures !MayErase(t.readers[k], t)
    {
      if k != e {
        assert t.readers[k] == s.readers[k];
      }
    }
  }

  ghost predicate Before(c: Config, s: State) {
    && (s.pc.Top? || s.pc.Ready? || s.pc.Refused? || BeforeTaking(s.pc) || s.pc.Exited?)
    && NotYet(c, s)
  }

  lemma ManagerKeepsBefore(c: Config, s: State, m: ManagerStep)
    requires ManagerEnabled(s, m) && Before(c, s) && m != StartDial
    ensures Before(c, ManagerNext(c, s, m))
  {
  }

  lemma StepKeepsBefore(c: Config, s: State, a: Action)
    requires Enabled(s, a) && Before(c, s) && a != Manager(StartDial)
    ensures Before(c, Next(c, s, a))
  {
    match a
    case Manager(m) => ManagerKeepsBefore(c, s, m);
    case ReaderOf(e, m) =>
      if BeforeTaking(s.pc) {
        ReaderKeepsQuiet(c, s, e, m);
      }
    case _ =>
  }

  lemma StepKeepsPhase(c: Config, n: nat, s: State, a: Action)
    requires Enabled(s, a) && Phase(c, n, s)
    ensures Phase(c, n, Next(c, s, a))
  {
    var e := LogGrows(c, s, a);
    if Dialled(c, s.log, n) {
      DialledGrows(c, s.log, n, e);
    } else if a == Manager(StartDial) {
      DialHappens(c, s.log, n);
    } else {
      StepKeepsBefore(c, s, a);
    }
  }

  lemma {:induction false} RunKeepsPhase(c: Config, n: nat, s: State, acts: seq<Action>)
    requires Phase(c, n, s) && Runs(c, s, acts)
    ensures Phase(c, n, After(c, s, acts))
    decreases |acts|
  {
    if acts != [] {
      StepKeepsPhase(c, n, s, acts[0]);
      RunKeepsPhase(c, n, Next(c, s, acts[0]), acts[1..]);
    }
  }

  lemma PhaseWaits(c: Config, n: nat, s: State)
    requires Phase(c, n, s)
    ensures FirstDialWaits(c, s.log, n)
  {
    if Dialled(c, s.log, n) {
      var i :| n <= i < |s.log| && FirstDialAt(c, s.log, n, i);
      forall j | n <= j < |s.log| && s.log[j].DialStarted? && NoDials(s.log, n, j)
        ensures 0 < j && s.log[j - 1] == Slept(c.maxReconnectDelay)
      {
        assert i == j;
      }
    }
  }

  lemma QuietMeansRespected(c: Config, s: State)
    requires BeforeTaking(s.pc) && s.reason != "" && Quiet(s)
    ensures Respected(c, s)
  {
    forall acts | Runs(c, s, acts)
      ensures FirstDialWaits(c, After(c, s, acts).log, |s.log|)
    {
      RunKeepsPhase(c, |s.log|, s, acts);
      PhaseWaits(c, |s.log|, After(c, s, acts));
    }
  }

  // ---- After cancellation nothing is dialled ----

  lemma StepKeepsUndialled(c: Config, n: nat, s: State, a: Action)
    requires Enabled(s, a) && Cancelled(s) && !s.pc.Ready? && NoDials(s.log, n, |s.log|)
    ensures var t := Next(c, s, a);
            Cancelled(t) && !t.pc.Ready? && NoDials(t.log, n, |t.log|)
  {
    var e := LogGrows(c, s, a);
    if a.Manager? {
      NotReadyAgain(c, s, a.step);
    } else {
      OthersLeaveManager(c, s, a);
    }
  }

  lemma {:induction false} CancelledDialsNothing(c: Config, n: nat, s: State, acts: seq<Action>)
    requires Runs(c, s, acts) && Cancelled(s) && !s.pc.Ready? && NoDials(s.log, n, |s.log|)
    ensures NoDials(After(c, s, acts).log, n, |After(c, s, acts).log|)
    decreases |acts|
  {
    if acts != [] {
      StepKeepsUndialled(c, n, s, acts[0]);
      CancelledDialsNothing(c, n, Next(c, s, acts[0]), acts[1..]);
    }
  }

  lemma CancelledMeansRespected(c: Config, s: State)
    requires BeforeTaking(s.pc) && Cancelled(s)
    ensures Respected(c, s)
  {
    forall acts | Runs(c, s, acts)
      ensures FirstDialWaits(c, After(c, s, acts).log, |s.log|)
    {
      CancelledDialsNothing(c, |s.log|, s, acts);
    }
  }

  // ---- Otherwise some run does not ----

  lemma Cons(c: Config, s: State, a: Action, acts: seq<Action>)
    requires Enabled(s, a) && Runs(c, Next(c, s, a), acts)
    ensures Runs(c, s, [a] + acts) && After(c, s, [a] + acts) == After(c, Next(c, s, a), acts)
  {
    assert ([a] + acts)[1..] == acts;
  }

  lemma One(c: Config, s: State, a: Action)
    requires Enabled(s, a)
    ensures Runs(c, s, [a]) && After(c, s, [a]) == Next(c, s, a)
  {
    assert [a][1..] == [];
  }

  lemma {:induction false} Append(c: Config, s: State, first: seq<Action>, second: seq<Action>)
    requires Runs(c, s, first) && Runs(c, After(c, s, first), second)
    ensures Runs(c, s, first + second) && After(c, s, first + second) == After(c, After(c, s, first), second)
    decreases |first|
  {
    if first == [] {
      assert first + second == second;
    } else {
      var t := Next(c, s, first[0]);
      Append(c, t, first[1..], second);
      Cons(c, s, first[0], first[1..] + second);
      assert [first[0]] + (first[1..] + second) == first + second;
    }
  }

  function ReaderDistance(r: Reader): nat {
    match r
    case Spawned => 4
    case Holding(_, _) => 4
    case Looping(_) => 3
    case Reading(_) => 2
    case Closing(_, _) => 1
    case Done => 0
  }

  /** A reader that may erase the reason can be driven to do it; the manager and the queue stay as they are. */
  lemma {:induction false} DriveErase(c: Config, s: State, e: nat) returns (acts: seq<Action>)
    requires !Cancelled(s) && e in s.readers && MayErase(s.readers[e], s)
    ensures Runs(c, s, acts)
    ensures var t := After(c, s, acts);
            && t.reason == "" && !Cancelled(t) && t.pc == s.pc && t.log == s.log
            && t.connected == s.connected && t.out == s.out
    decreases ReaderDistance(s.readers[e])
  {
    var r := s.readers[e];
    var m :=
      match r
      case Spawned => Capture
      case Holding(_, _) => Deliver
      case Looping(_) => Check
      case Reading(_) => Fail(Some(""))
      case _ => Report;
    var a := ReaderOf(e, m);
    var t := Next(c, s, a);
    var rest: seq<Action> := [];
    if !r.Closing? {
      rest := DriveErase(c, t, e);
    }
    Cons(c, s, a, rest);
    acts := [a] + rest;
  }

  /** Nothing that concerns the readers, the reason or the log has changed. */
  ghost predicate SameReaders(s: State, t: State) {
    && t.readers == s.readers && t.broken == s.broken && t.epoch == s.epoch
    && t.reason == s.reason && t.log == s.log && t.stop == s.stop
  }

  /** A connected loop can always come to a write: a heartbeat is sent if nothing is queued. */
  lemma ReachWriting(c: Config, s: State) returns (acts: seq<Action>)
    requires s.pc.Selecting? && s.connected
    ensures Runs(c, s, acts)
    ensures After(c, s, acts).pc.Writing? && After(c, s, acts).out.consumed != []
    ensures SameReaders(s, After(c, s, acts))
  {
    acts := [];
    if s.out.queue == [] {
      acts := QueueHeartbeat(c, s);
    }
    var t := After(c, s, acts);
    One(c, t, Manager(TakeEnvelope));
    Append(c, s, acts, [Manager(TakeEnvelope)]);
    acts := acts + [Manager(TakeEnvelope)];
  }

  lemma QueueHeartbeat(c: Config, s: State) returns (acts: seq<Action>)
    requires s.connected && s.out.queue == []
    ensures Runs(c, s, acts)
    ensures After(c, s, acts).out.queue != [] && After(c, s, acts).pc == s.pc
    ensures SameReaders(s, After(c, s, acts))
  {
    if Ticker in s.out.checked {
      One(c, s, TrySend(Ticker));
      acts := [TrySend(Ticker)];
    } else {
      var call := CallSend(Envelope(Ticker, HeartbeatBody));
      One(c, Next(c, s, call), TrySend(Ticker));
      Cons(c, s, call, [TrySend(Ticker)]);
      acts := [call] + [TrySend(Ticker)];
    }
  }

  function ManagerDistance(pc: Pc): nat {
    match pc
    case Writing => 7
    case Leaving => 6
    case PostLoop => 5
    case Taking => 4
    case Top => 3
    case Ready => 2
    case _ => 0
  }

  /** From a write that fails, with no reason stored, the manager can dial again without any wait. */
  lemma {:induction false} DriveDial(c: Config, s: State, n: nat) returns (acts: seq<Action>)
    requires !Cancelled(s) && s.reason == "" && n <= |s.log| && NoDials(s.log, n, |s.log|)
    requires (BeforeTaking(s.pc) && !s.pc.Selecting?)
          || ((s.pc.Top? || s.pc.Ready?) && s.log != [] && Last(s.log) == ReasonTaken(""))
    requires s.pc.Writing? ==> s.out.consumed != []
    ensures Runs(c, s, acts) && !FirstDialWaits(c, After(c, s, acts).log, n)
    decreases ManagerDistance(s.pc)
  {
    var m :=
      match s.pc
      case Writing => WriteFails
      case Leaving => CleanUp
      case PostLoop => PassPostCheck
      case Taking => TakeReason
      case Top => PassCheck
      case _ => StartDial;
    var a := Manager(m);
    var t := Next(c, s, a);
    var rest: seq<Action> := [];
    if s.pc.Ready? {
      assert t.log[|s.log|].DialStarted? && NoDials(t.log, n, |s.log|);
      assert t.log[|s.log| - 1] == Last(s.log);
    } else {
      rest := DriveDial(c, t, n);
    }
    Cons(c, s, a, rest);
    acts := [a] + rest;
  }

  /** Without a stored reason the next dial need not wait, whatever the readers are about to store. */
  lemma UnstoredReasonIsLost(c: Config, s: State) returns (acts: seq<Action>)
    requires !Cancelled(s) && BeforeTaking(s.pc) && s.reason == ""
    requires s.pc.Selecting? ==> s.connected
    requires s.pc.Writing? ==> s.out.consumed != []
    ensures Runs(c, s, acts) && !FirstDialWaits(c, After(c, s, acts).log, |s.log|)
  {
    if s.pc.Selecting? {
      var first := ReachWriting(c, s);
      var second := DriveDial(c, After(c, s, first), |s.log|);
      Append(c, s, first, second);
      acts := first + second;
    } else {
      acts := DriveDial(c, s, |s.log|);
    }
  }

  lemma ErasableReasonIsLost(c: Config, s: State, e: nat) returns (acts: seq<Action>)
    requires !Cancelled(s) && BeforeTaking(s.pc) && e in s.readers && MayErase(s.readers[e], s)
    requires s.pc.Selecting? ==> s.connected
    requires s.pc.Writing? ==> s.out.consumed != []
    ensures Runs(c, s, acts) && !FirstDialWaits(c, After(c, s, acts).log, |s.log|)
  {
    var first := DriveErase(c, s, e);
    var second := UnstoredReasonIsLost(c, After(c, s, first));
    Append(c, s, first, second);
    acts := first + second;
  }

  /**
   * From any point before the reason is taken, the next dial waits the maximum
   * delay in every run exactly when the client is stopping, or a reason is
   * already stored and no reader can still store an empty text over it. A
   * refusal that has been read and not yet stored is no reason to wait.
   */
  lemma RefusalRespectedIff(c: Config, s: State)
    requires Inv(c, s) && BeforeTaking(s.pc)
    ensures Respected(c, s) <==> Cancelled(s) || (s.reason != "" && Quiet(s))
  {
    if Cancelled(s) {
      CancelledMeansRespected(c, s);
    } else if s.reason == "" {
      var acts := UnstoredReasonIsLost(c, s);
    } else if Quiet(s) {
      QuietMeansRespected(c, s);
    } else {
      var e :| e in s.readers && MayErase(s.readers[e], s);
      var acts := ErasableReasonIsLost(c, s, e);
    }
  }

  /** The current connection was closed with 1008 and a text. */
  predicate RefusedHere(s: State) {
    s.epoch in s.broken && s.broken[s.epoch].Some? && s.broken[s.epoch].value != ""
  }

  /** This reader is not at work on an earlier connection. */
  predicate OffEarlierConnections(r: Reader, s: State) {
    r.Done? || r.Spawned? || r.conn == s.epoch
  }

  /**
   * Only a reader of an earlier connection can be in the way: once a refusal is
   * stored, readers that share the refused connection find the same text.
   */
  lemma RefusalRespected(c: Config, s: State)
    requires Inv(c, s) && BeforeTaking(s.pc) && RefusedHere(s) && s.reason != ""
    requires forall e :: e in s.readers ==> OffEarlierConnections(s.readers[e], s)
    ensures Respected(c, s)
  {
    forall e | e in s.readers
      ensures !MayErase(s.readers[e], s)
    {
      assert OffEarlierConnections(s.readers[e], s);
    }
    QuietMeansRespected(c, s);
  }
}
