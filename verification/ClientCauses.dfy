/**
 * Causes: what closes a connection, what ends a message loop, a reader or the
 * manager, and what the manager can wait for, in every run.
 */
module ClientCauses {
  import opened Protocol
  import opened ManagerLogs
  import opened Outboxes
  import opened ClientMachine
  import opened ClientInvariants
  import opened ClientTheorems

  // ---- Stop ----

  /** How many of its three steps Stop has taken. */
  function Stage(stop: Stop): nat {
    match stop
    case NotStopped => 0
    case ContextCancelled => 1
    case ChannelClosed => 2
    case ConnClosed => 3
  }

  function StopSteps(acts: seq<Action>): nat {
    if acts == [] then 0 else (if acts[0].AdvanceStop? then 1 else 0) + StopSteps(acts[1..])
  }

  lemma ManagerLeavesStop(c: Config, s: State, m: ManagerStep)
    requires ManagerEnabled(s, m)
    ensures ManagerNext(c, s, m).stop == s.stop
  {
  }

  lemma StepStages(c: Config, s: State, a: Action)
    requires Enabled(s, a)
    ensures Stage(Next(c, s, a).stop) == Stage(s.stop) + (if a.AdvanceStop? then 1 else 0)
  {
    if a.Manager? {
      ManagerLeavesStop(c, s, a.step);
    }
  }

  /** Stop goes through its steps one by one, and nothing else cancels the client. */
  lemma {:induction false} StopHistory(c: Config, s: State, acts: seq<Action>)
    requires Runs(c, s, acts)
    ensures Stage(After(c, s, acts).stop) == Stage(s.stop) + StopSteps(acts)
    decreases |acts|
  {
    if acts != [] {
      StepStages(c, s, acts[0]);
      StopHistory(c, Next(c, s, acts[0]), acts[1..]);
    }
  }

  /** So a run from the start is cancelled exactly if Stop was called in it. */
  lemma CancelledIff(c: Config, acts: seq<Action>)
    requires Runs(c, Init(c), acts)
    ensures Cancelled(After(c, Init(c), acts)) <==> 0 < StopSteps(acts) <= 3
  {
    StopHistory(c, Init(c), acts);
  }

  // ---- Open connections ----

  lemma ManagerDialsOnlyNew(c: Config, s: State, m: ManagerStep)
    requires ManagerEnabled(s, m)
    ensures var t := ManagerNext(c, s, m);
            s.epoch <= t.epoch && forall id :: id in t.open && id !in s.open ==> s.epoch < id
  {
  }

  lemma StepDialsOnlyNew(c: Config, s: State, a: Action)
    requires Enabled(s, a)
    ensures var t := Next(c, s, a);
            s.epoch <= t.epoch && forall id :: id in t.open && id !in s.open ==> s.epoch < id
  {
    match a
    case Manager(m) => ManagerDialsOnlyNew(c, s, m);
    case _ => OthersLeaveManager(c, s, a);
  }

  /** A connection that is closed is never open again. */
  lemma {:induction false} ClosedStaysClosed(c: Config, s: State, acts: seq<Action>, id: nat)
    requires Runs(c, s, acts) && id <= s.epoch && id !in s.open
    ensures id !in After(c, s, acts).open
    decreases |acts|
  {
    if acts != [] {
      StepDialsOnlyNew(c, s, acts[0]);
      ClosedStaysClosed(c, Next(c, s, acts[0]), acts[1..], id);
    }
  }

  /**
   * The last step of Stop closes the published connection for good, in every
   * continuation, and leaves the field for the message loop to clear.
   */
  lemma StopClosesConnection(c: Config, s: State, acts: seq<Action>)
    requires Reachable(c, s) && s.stop.ChannelClosed? && s.conn.Some?
    requires Runs(c, s, acts) && acts != [] && acts[0] == AdvanceStop
    ensures s.conn.value !in After(c, s, acts).open
    ensures Next(c, s, AdvanceStop).conn == s.conn
  {
    ReachableInv(c, s);
    ClosedStaysClosed(c, Next(c, s, AdvanceStop), acts[1..], s.conn.value);
  }

  /** An open connection is closed only while published, by the clean-up of its loop or by the last step of Stop. */
  lemma ClosedOnlyBy(c: Config, s: State, a: Action, id: nat)
    requires Enabled(s, a) && id in s.open && id !in Next(c, s, a).open
    ensures a == Manager(CleanUp) || (a == AdvanceStop && s.stop.ChannelClosed?)
    ensures s.conn == Some(id)
  {
  }

  // ---- Why a loop ends ----

  /** A read has failed on the newest connection, or a write has, or the client is being stopped. */
  ghost predicate Fault(s: State) {
    || Cancelled(s)
    || s.epoch in s.broken
    || (s.out.consumed != []
        && s.out.consumed[|s.out.consumed| - 1].fate.Lost? && s.out.consumed[|s.out.consumed| - 1].epoch == s.epoch)
  }

  /** The reader of the running loop works on the loop's connection, and ends only with it or with the client. */
  ghost predicate OwnReader(s: State) {
    s.pc.Selecting? || s.pc.Writing? ==>
      && s.epoch in s.readers
      && match s.readers[s.epoch]
         case Spawned => true
         case Done => Cancelled(s) || s.epoch in s.broken
         case r => r.conn == s.epoch
  }

  ghost predicate Caused(s: State) {
    && OwnReader(s)
    && (s.pc.Writing? ==>
          s.out.consumed != [] && s.out.consumed[|s.out.consumed| - 1].epoch == s.epoch)
    && (s.pc.Leaving? ==> Fault(s))
    && (s.pc.Exited? ==> Cancelled(s))
    && (s.conn.Some? && !s.stop.ConnClosed? ==> s.conn.value in s.open)
  }

  lemma ManagerKeepsCauses(c: Config, s: State, m: ManagerStep)
    requires ManagerEnabled(s, m) && Lifecycle(s) && Caused(s)
    ensures Caused(ManagerNext(c, s, m))
  {
  }

  lemma ReaderKeepsOwn(c: Config, s: State, e: nat, m: ReaderStep)
    requires Enabled(s, ReaderOf(e, m)) && Lifecycle(s) && TextsMatch(s) && OwnReader(s)
    ensures OwnReader(Next(c, s, ReaderOf(e, m)))
  {
    var t := Next(c, s, ReaderOf(e, m));
    if e != s.epoch && s.epoch in s.readers {
      assert t.readers[s.epoch] == s.readers[s.epoch];
    }
  }

  lemma ReaderLeavesRest(c: Config, s: State, e: nat, m: ReaderStep)
    requires Enabled(s, ReaderOf(e, m))
    ensures var t := Next(c, s, ReaderOf(e, m));
            && t.pc == s.pc && t.out == s.out && t.open == s.open && t.conn == s.conn && t.stop == s.stop
            && t.epoch == s.epoch && s.broken.Keys <= t.broken.Keys
  {
  }

  lemma StepKeepsCauses(c: Config, s: State, a: Action)
    requires Enabled(s, a) && Lifecycle(s) && TextsMatch(s) && Caused(s)
    ensures Caused(Next(c, s, a))
  {
    match a
    case Manager(m) => ManagerKeepsCauses(c, s, m);
    case ReaderOf(e, m) =>
      ReaderKeepsOwn(c, s, e, m);
      ReaderLeavesRest(c, s, e, m);
    case _ =>
  }

  lemma {:induction false} RunKeepsCauses(c: Config, s: State, acts: seq<Action>)
    requires Runs(c, s, acts) && Inv(c, s) && Caused(s)
    ensures Caused(After(c, s, acts))
    decreases |acts|
  {
    if acts != [] {
      StepKeepsInv(c, s, acts[0]);
      StepKeepsCauses(c, s, acts[0]);
      RunKeepsCauses(c, Next(c, s, acts[0]), acts[1..]);
    }
  }

  lemma ReachableCauses(c: Config, s: State)
    requires Reachable(c, s)
    ensures Caused(s)
  {
    var acts :| Runs(c, Init(c), acts) && s == After(c, Init(c), acts);
    InitInv(c);
    RunKeepsCauses(c, Init(c), acts);
  }

  /** A message loop is left only for a reason: Stop, a failed read or a failed write on its own connection. */
  lemma LoopLeftForCause(c: Config, s: State)
    requires Reachable(c, s) && s.pc.Leaving?
    ensures s.conn.Some?
    ensures || Cancelled(s)
            || s.conn.value in s.broken
            || (s.out.consumed != []
                && s.out.consumed[|s.out.consumed| - 1].fate.Lost?
                && s.out.consumed[|s.out.consumed| - 1].epoch == s.conn.value)
  {
    ReachableInv(c, s);
    ReachableCauses(c, s);
  }

  /** The manager exits only after Stop, and a published connection stays open until Stop or the end of its loop. */
  lemma ExitNeedsStop(c: Config, s: State)
    requires Reachable(c, s)
    ensures s.pc.Exited? ==> Cancelled(s)
    ensures s.conn.Some? && !s.stop.ConnClosed? ==> s.open == {s.conn.value}
  {
    ReachableInv(c, s);
    ReachableCauses(c, s);
  }

  /** Exited, or in a loop with an empty queue and a live reader. */
  ghost predicate Waiting(s: State) {
    || s.pc.Exited?
    || (s.pc.Selecting? && !Cancelled(s) && s.out.queue == []
        && s.epoch in s.readers && !s.readers[s.epoch].Done?)
  }

  lemma ManagerGoesOn(s: State) returns (m: ManagerStep)
    requires !Waiting(s)
    requires s.pc.Selecting? ==> s.epoch in s.readers
    requires s.pc.Writing? ==> s.out.consumed != []
    ensures ManagerEnabled(s, m)
  {
    match s.pc
    case Top => m := if Cancelled(s) then Exit else PassCheck;
    case Ready => m := StartDial;
    case Dialing => m := DialFails;
    case Installing => m := Install;
    case Failed => m := RetryTimer;
    case Entering => m := EnterLoop;
    case Selecting =>
      m := if Cancelled(s) then LeaveOnStop else if s.out.queue != [] then TakeEnvelope else LeaveOnReader;
    case Writing => m := WriteSucceeds;
    case Leaving => m := CleanUp;
    case PostLoop => m := if Cancelled(s) then Exit else PassPostCheck;
    case Taking => m := TakeReason;
    case _ => m := RefusalTimer;
  }

  lemma WaitingIsBlocked(s: State, m: ManagerStep)
    requires Waiting(s)
    ensures !ManagerEnabled(s, m)
  {
  }

  /** In every reachable state the manager has a step, unless it has exited or waits in a quiet loop. */
  lemma ManagerWaitsIff(c: Config, s: State)
    requires Reachable(c, s)
    ensures (forall m :: !ManagerEnabled(s, m)) <==> Waiting(s)
  {
    ReachableCauses(c, s);
    if Waiting(s) {
      forall m
        ensures !ManagerEnabled(s, m)
      {
        WaitingIsBlocked(s, m);
      }
    } else {
      var m := ManagerGoesOn(s);
    }
  }
}
