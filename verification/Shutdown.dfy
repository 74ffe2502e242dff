/** After Stop has cancelled the context, the connection manager and the readers wind down. */
module Shutdown {
  import opened Protocol
  import opened ManagerLogs
  import opened Outboxes
  import opened ClientMachine
  import opened ClientInvariants

  function Rank(pc: Pc): nat {
    match pc
    case Ready => 10
    case Dialing => 9
    case Installing => 8
    case Entering => 7
    case Selecting => 6
    case Writing => 6
    case Leaving => 5
    case PostLoop => 4
    case Taking => 3
    case Failed => 2
    case Refused => 2
    case Top => 1
    case Exited => 0
  }

  /** Within one rank the message loop can only drain the queue. */
  function Backlog(s: State): nat {
    2 * |s.out.queue| + (if s.pc.Writing? then 1 else 0)
  }

  /** Every manager step moves to a lower rank, or stays in it with a smaller backlog. */
  lemma ManagerStepDescends(c: Config, s: State, m: ManagerStep)
    requires Cancelled(s) && ManagerEnabled(s, m)
    ensures var t := ManagerNext(c, s, m);
            Rank(t.pc) < Rank(s.pc) || (Rank(t.pc) == Rank(s.pc) && Backlog(t) < Backlog(s))
  {
  }

  /** The manager is never stuck before it has exited. */
  lemma ManagerNotStuck(s: State) returns (m: ManagerStep)
    requires Cancelled(s) && !s.pc.Exited?
    requires s.pc.Writing? ==> s.out.consumed != []
    ensures ManagerEnabled(s, m)
  {
    match s.pc
    case Ready => m := StartDial;
    case Dialing => m := DialFails;
    case Installing => m := Install;
    case Entering => m := EnterLoop;
    case Selecting => m := LeaveOnStop;
    case Writing => m := WriteFails;
    case Leaving => m := CleanUp;
    case Taking => m := TakeReason;
    case _ => m := Exit;
  }

  /** Rank and backlog in one number; the capacity keeps the backlog below the weight of one rank. */
  function Weight(s: State): nat {
    (2 * OUTBOUND_CAPACITY + 2) * Rank(s.pc) + Backlog(s)
  }

  lemma ManagerStepWeighs(c: Config, s: State, m: ManagerStep)
    requires Cancelled(s) && ManagerEnabled(s, m) && |s.out.queue| <= OUTBOUND_CAPACITY
    ensures Weight(ManagerNext(c, s, m)) < Weight(s)
  {
    ManagerStepDescends(c, s, m);
  }

  lemma OtherStepWeighs(c: Config, s: State, a: Action)
    requires Enabled(s, a) && !a.Manager?
    ensures Weight(Next(c, s, a)) <= Weight(s) + (if a.TrySend? then 2 else 0)
  {
  }

  lemma StepKeepsStop(c: Config, s: State, a: Action)
    requires Enabled(s, a) && Cancelled(s) && |s.out.queue| <= OUTBOUND_CAPACITY
    ensures Cancelled(Next(c, s, a)) && |Next(c, s, a).out.queue| <= OUTBOUND_CAPACITY
  {
  }

  function ManagerSteps(acts: seq<Action>): nat {
    if acts == [] then 0 else (if acts[0].Manager? then 1 else 0) + ManagerSteps(acts[1..])
  }

  function Sends(acts: seq<Action>): nat {
    if acts == [] then 0 else (if acts[0].TrySend? then 1 else 0) + Sends(acts[1..])
  }

  /**
   * In every run after cancellation the manager takes a bounded number of
   * steps, two more for every later send; without sends the bound is fixed.
   */
  lemma {:induction false} ManagerStops(c: Config, s: State, acts: seq<Action>)
    requires Runs(c, s, acts)
    requires Cancelled(s) && |s.out.queue| <= OUTBOUND_CAPACITY
    ensures ManagerSteps(acts) + Weight(After(c, s, acts)) <= Weight(s) + 2 * Sends(acts)
    decreases |acts|
  {
    if acts != [] {
      var a, t := acts[0], Next(c, s, acts[0]);
      StepKeepsStop(c, s, a);
      ManagerStops(c, t, acts[1..]);
      if a.Manager? {
        ManagerStepWeighs(c, s, a.step);
      } else {
        OtherStepWeighs(c, s, a);
      }
    }
  }

  /** Dials that the manager may still start once the context is cancelled. */
  function DialsLeft(s: State): nat {
    Dials(s.log) + (if s.pc.Ready? then 1 else 0)
  }

  lemma DialsAppend(log: seq<Entry>, e: Entry)
    ensures Dials(log + [e]) == Dials(log) + (if e.DialStarted? then 1 else 0)
  {
    assert Front(log + [e]) == log;
  }

  /** A cancelled manager does not get ready for another dial. */
  lemma NotReadyAgain(c: Config, s: State, m: ManagerStep)
    requires ManagerEnabled(s, m) && Cancelled(s)
    ensures !ManagerNext(c, s, m).pc.Ready? && (s.pc.Ready? <==> m == StartDial)
  {
  }

  lemma StepStartsNoDial(c: Config, s: State, a: Action)
    requires Enabled(s, a) && Cancelled(s)
    ensures DialsLeft(Next(c, s, a)) <= DialsLeft(s)
  {
    var e := LogGrows(c, s, a);
    DialsAppend(s.log, e);
    if a.Manager? {
      NotReadyAgain(c, s, a.step);
    } else {
      OthersLeaveManager(c, s, a);
    }
  }

  /** At most the one dial whose shutdown check was already passed is started after cancellation. */
  lemma {:induction false} AtMostOneMoreDial(c: Config, s: State, acts: seq<Action>)
    requires Runs(c, s, acts) && Cancelled(s)
    ensures Dials(After(c, s, acts).log) <= Dials(s.log) + (if s.pc.Ready? then 1 else 0)
    decreases |acts|
  {
    if acts != [] {
      var t := Next(c, s, acts[0]);
      StepStartsNoDial(c, s, acts[0]);
      assert Cancelled(t);
      AtMostOneMoreDial(c, t, acts[1..]);
    }
  }

  /** How often the manager takes the refusal reason in a run. */
  function Takes(acts: seq<Action>): nat {
    if acts == [] then 0 else (if acts[0] == Manager(TakeReason) then 1 else 0) + Takes(acts[1..])
  }

  lemma StepTakesLast(c: Config, s: State, m: ManagerStep)
    requires ManagerEnabled(s, m) && Cancelled(s)
    ensures !ManagerNext(c, s, m).pc.Taking? && (s.pc.Taking? <==> m == TakeReason)
  {
  }

  /** A cancelled manager leaves the refusal reason alone, unless it was already about to take it. */
  lemma {:induction false} AtMostOneMoreTake(c: Config, s: State, acts: seq<Action>)
    requires Runs(c, s, acts) && Cancelled(s)
    ensures Takes(acts) <= if s.pc.Taking? then 1 else 0
    decreases |acts|
  {
    if acts != [] {
      var a, t := acts[0], Next(c, s, acts[0]);
      assert Cancelled(t);
      AtMostOneMoreTake(c, t, acts[1..]);
      if a.Manager? {
        StepTakesLast(c, s, a.step);
      } else {
        OthersLeaveManager(c, s, a);
      }
    }
  }

  // ---- Readers ----

  /** How many steps a reader can still take once the context is cancelled. */
  function ReaderRank(r: Reader): nat {
    match r
    case Reading(_) => 3
    case Holding(_, _) => 2
    case Spawned => 2
    case Looping(_) => 1
    case Closing(_, _) => 1
    case Done => 0
  }

  /** A reader that may yet be started counts as a new one. */
  function ReaderLeft(s: State, e: nat): nat {
    if e in s.readers then ReaderRank(s.readers[e]) else ReaderRank(Spawned)
  }

  lemma ReaderStepDescends(c: Config, s: State, e: nat, m: ReaderStep)
    requires Cancelled(s) && Enabled(s, ReaderOf(e, m))
    ensures ReaderLeft(Next(c, s, ReaderOf(e, m)), e) < ReaderLeft(s, e)
  {
  }

  /** No other step gives a reader more to do; EnterLoop starts one that is not there yet. */
  lemma OtherStepLeavesReader(c: Config, s: State, a: Action, e: nat)
    requires Enabled(s, a) && ReadersMatch(s)
    requires !(a.ReaderOf? && a.epoch == e)
    ensures ReaderLeft(Next(c, s, a), e) == ReaderLeft(s, e)
  {
    if a != Manager(EnterLoop) && !a.ReaderOf? {
      assert Next(c, s, a).readers == s.readers;
    }
  }

  function ReaderSteps(acts: seq<Action>, e: nat): nat {
    if acts == [] then 0 else (if acts[0].ReaderOf? && acts[0].epoch == e then 1 else 0) + ReaderSteps(acts[1..], e)
  }

  /** In every run after cancellation each reader, started or not, takes at most three steps. */
  lemma {:induction false} ReaderStops(c: Config, s: State, acts: seq<Action>, e: nat)
    requires Runs(c, s, acts) && Cancelled(s) && ReadersMatch(s)
    ensures ReaderSteps(acts, e) + ReaderLeft(After(c, s, acts), e) <= ReaderLeft(s, e) <= 3
    decreases |acts|
  {
    if acts != [] {
      var a, t := acts[0], Next(c, s, acts[0]);
      StepKeepsReaders(c, s, a);
      assert Cancelled(t);
      ReaderStops(c, t, acts[1..], e);
      if a.ReaderOf? && a.epoch == e {
        ReaderStepDescends(c, s, e, a.rstep);
      } else {
        OtherStepLeavesReader(c, s, a, e);
      }
    }
  }

  /** A reader that has not ended can step; a blocked read ends with the close of its connection. */
  lemma ReaderNotStuck(s: State, e: nat) returns (m: ReaderStep)
    requires e in s.readers && !s.readers[e].Done?
    ensures Enabled(s, ReaderOf(e, m))
  {
    var r := s.readers[e];
    match r
    case Spawned => m := Capture;
    case Looping(_) => m := Check;
    case Reading(id) => m := Fail(if id in s.broken then s.broken[id] else None);
    case Holding(_, _) => m := Deliver;
    case _ => m := Report;
  }
}
