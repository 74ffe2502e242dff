/** The client's guarantees over every run from the initial state, any number of reconnects included. */
module ClientTheorems {
  import opened Protocol
  import opened Subsequences
  import opened Backoff
  import opened ManagerLogs
  import opened Outboxes
  import opened ClientMachine
  import opened ClientInvariants
  import opened Refusals
  import Inboxes

  /** A state that the client can reach. */
  ghost predicate Reachable(c: Config, s: State) {
    exists acts :: Runs(c, Init(c), acts) && s == After(c, Init(c), acts)
  }

  lemma ReachableInv(c: Config, s: State)
    requires Reachable(c, s)
    ensures Inv(c, s)
  {
    var acts :| Runs(c, Init(c), acts) && s == After(c, Init(c), acts);
    Always(c, acts);
  }

  /** For each sender, the frames on the wire are an in-order subsequence of its send calls. */
  lemma WireOrder(c: Config, s: State, x: Sender)
    requires Reachable(c, s)
    ensures InOrder(From(Wire(s.out), x), From(s.out.attempted, x))
  {
    ReachableInv(c, s);
    WireFollowsCalls(s.out, x);
  }

  /** Accepted envelopes are the consumed ones, in order, then the queue; a loss is the end of its connection. */
  lemma OutboundAccounting(c: Config, s: State)
    requires Reachable(c, s)
    ensures s.out.accepted == Envelopes(s.out.consumed) + s.out.queue
    ensures |s.out.queue| <= 200
    ensures forall i :: 0 <= i < |s.out.consumed| ==>
              (s.out.consumed[i].fate.InFlight? <==> i == |s.out.consumed| - 1 && s.pc.Writing?)
    ensures forall i, j :: 0 <= i < j < |s.out.consumed| && s.out.consumed[i].fate.Lost?
              ==> s.out.consumed[i].epoch < s.out.consumed[j].epoch
  {
    ReachableInv(c, s);
  }

  /** Every command frame handed over was dropped, exactly at a full queue, or is queued, or was taken in order. */
  lemma InboundAccounting(c: Config, s: State)
    requires Reachable(c, s)
    ensures Inboxes.Accepted(s.inb.arrivals) == s.inb.taken + s.inb.queue
    ensures |s.inb.arrivals| == Inboxes.Dropped(s.inb.arrivals) + |s.inb.taken| + |s.inb.queue|
    ensures |s.inb.queue| <= 100
    ensures forall k :: 0 <= k < |s.inb.arrivals| ==> (s.inb.arrivals[k].queued <==> s.inb.arrivals[k].depth < 100)
  {
    ReachableInv(c, s);
  }

  /** At most one dialled connection is unclosed; none while dialling and none after exit. */
  lemma ConnectionLifecycle(c: Config, s: State)
    requires Reachable(c, s)
    ensures s.connected <==> s.conn.Some?
    ensures |s.open| <= 1
    ensures s.pc.Ready? || s.pc.Dialing? || s.pc.Exited? ==> s.conn.None? && s.open == {}
    ensures s.pc.Writing? ==> s.conn == Some(s.epoch)
  {
    ReachableInv(c, s);
    assert s.open <= {s.epoch};
    SubsetOfOne(s.open, s.epoch);
  }

  lemma SubsetOfOne(open: set<nat>, id: nat)
    requires open <= {id}
    ensures |open| <= 1
  {
    if id in open {
      assert open == {id};
    } else {
      assert open == {};
    }
  }

  /** The waits of an outage are exactly the backoff, and the attempts are bounded by the time slept. */
  lemma OutageInRun(c: Config, s: State, cap: nat)
    requires Reachable(c, s)
    requires SafeDurations(c.reconnectInterval, c.maxReconnectDelay)
    requires c.reconnectInterval <= c.maxReconnectDelay
    requires CapReachedAt(c.reconnectInterval, c.maxReconnectDelay, cap)
    ensures 0 <= Waits(s.log)
    ensures Outage(s.log) == TotalWait(c.reconnectInterval, c.maxReconnectDelay, Waits(s.log))
    ensures Attempts(s.log) <= cap + 1 + Outage(s.log) / c.maxReconnectDelay
  {
    ReachableInv(c, s);
    OutageIsTotalWait(c, s.log);
    OutageNonNegative(c, s.log);
    OutageAttempts(c, s.log, cap);
  }

  /** The wait behind the (k+1)-th failure in a row is min(start * 2^k, max), and the first one is start itself. */
  lemma FailureWaitInRun(c: Config, s: State, i: nat)
    requires Reachable(c, s)
    requires SafeDurations(c.reconnectInterval, c.maxReconnectDelay)
    requires 0 < i < |s.log| && s.log[i].Slept? && s.log[i - 1].DialFailed?
    ensures 0 < Failures(s.log[..i])
    ensures var k := Failures(s.log[..i]) - 1;
            s.log[i].duration
            == if k == 0 then c.reconnectInterval else Min(c.reconnectInterval * Pow2(k), c.maxReconnectDelay)
  {
    ReachableInv(c, s);
    LegalAt(c, s.log, i);
    assert Last(s.log[..i]).DialFailed?;
    var k := Failures(s.log[..i]) - 1;
    DelayIsCapped(c.reconnectInterval, c.maxReconnectDelay, k);
    DoubledIsPower(c.reconnectInterval, k);
  }

  /** A non-empty reason that the manager takes keeps it from dialling for the maximum delay. */
  lemma TakenRefusalWaits(c: Config, s: State, i: nat, j: nat)
    requires Reachable(c, s)
    requires i < j < |s.log| && s.log[i].ReasonTaken? && s.log[i].text != "" && s.log[j].DialStarted?
    ensures i + 1 < j && s.log[i + 1] == Slept(c.maxReconnectDelay)
  {
    ReachableInv(c, s);
    DialAfterRefusal(c, s.log, i, j);
  }

  /** Each stored reason is taken at most once: a second take in a row finds nothing. */
  lemma ReasonTakenOnce(c: Config, s: State, i: nat, j: nat)
    requires Reachable(c, s)
    requires i < j < |s.mail| && s.mail[i].Took? && s.mail[j].Took?
    requires forall k :: i < k < j ==> s.mail[k].Took?
    ensures s.mail[j].text == ""
  {
    ReachableInv(c, s);
    var before := s.mail[..j];
    assert before[|before| - 1] == s.mail[j - 1];
    assert s.mail[j].text == Pending(before);
  }

  // ---- Refusals in runs ----

  lemma Step(c: Config, s: State, a: Action) returns (t: State)
    requires Reachable(c, s) && Enabled(s, a)
    ensures t == Next(c, s, a) && Reachable(c, t)
  {
    t := Next(c, s, a);
    One(c, s, a);
    Continue(c, s, [a]);
  }

  lemma Continue(c: Config, s: State, acts: seq<Action>)
    requires Reachable(c, s) && Runs(c, s, acts)
    ensures Reachable(c, After(c, s, acts))
  {
    var before :| Runs(c, Init(c), before) && s == After(c, Init(c), before);
    Append(c, Init(c), before, acts);
  }

  /** In a running message loop, with its reader not yet started. */
  ghost predicate FreshLoop(s: State) {
    && s.pc.Selecting? && !Cancelled(s) && s.connected && s.conn == Some(s.epoch) && s.reason == ""
    && s.epoch in s.readers && s.readers[s.epoch].Spawned? && s.epoch !in s.broken
  }

  lemma Dial(c: Config, s: State) returns (t: State)
    requires Reachable(c, s) && s.pc.Top? && !Cancelled(s)
    ensures Reachable(c, t) && t.pc.Installing? && t.epoch == s.epoch + 1
    ensures t.stop == s.stop && t.reason == s.reason && t.readers == s.readers && t.broken == s.broken
  {
    t := Step(c, s, Manager(PassCheck));
    t := Step(c, t, Manager(StartDial));
    t := Step(c, t, Manager(DialSucceeds));
  }

  lemma Connect(c: Config, s: State) returns (t: State)
    requires Reachable(c, s) && s.pc.Top? && !Cancelled(s) && s.reason == "" && s.epoch + 1 !in s.broken
    ensures Reachable(c, t) && FreshLoop(t) && t.epoch == s.epoch + 1
    ensures t.readers == s.readers[t.epoch := Spawned] && t.broken == s.broken
  {
    t := Dial(c, s);
    t := Step(c, t, Manager(Install));
    t := Step(c, t, Manager(EnterLoop));
  }

  /** The reader of the loop reads a 1008 close and has not stored its text yet. */
  lemma ReadClose(c: Config, s: State, text: string) returns (t: State)
    requires Reachable(c, s) && FreshLoop(s)
    ensures Reachable(c, t)
    ensures t == s.(readers := s.readers[s.epoch := Closing(s.epoch, text)], broken := s.broken[s.epoch := Some(text)])
  {
    t := Step(c, s, ReaderOf(s.epoch, Capture));
    t := Step(c, t, ReaderOf(s.epoch, Check));
    t := Step(c, t, ReaderOf(s.epoch, Fail(Some(text))));
  }

  /** A failed write ends the loop and, no reason being stored, brings the manager back to its head. */
  lemma LoseConnection(c: Config, s: State) returns (t: State)
    requires Reachable(c, s) && s.pc.Selecting? && !Cancelled(s) && s.connected && s.reason == ""
    ensures Reachable(c, t) && t.pc.Top? && !Cancelled(t) && t.reason == ""
    ensures t.epoch == s.epoch && t.readers == s.readers && t.broken == s.broken
  {
    var acts := ReachWriting(c, s);
    Continue(c, s, acts);
    t := Step(c, After(c, s, acts), Manager(WriteFails));
    t := Step(c, t, Manager(CleanUp));
    t := Step(c, t, Manager(PassPostCheck));
    t := Step(c, t, Manager(TakeReason));
  }

  /** Two connections, each closed with 1008; neither text is stored yet and the first loop is over. */
  lemma TwoCloses(c: Config, first: string, second: string) returns (s: State)
    ensures Reachable(c, s)
    ensures s.pc.Selecting? && !Cancelled(s) && s.epoch == 2 && s.reason == ""
    ensures s.readers == map[1 := Closing(1, first), 2 := Closing(2, second)]
    ensures s.broken == map[1 := Some(first), 2 := Some(second)]
  {
    s := OneClose(c, first);
    s := LoseConnection(c, s);
    s := Connect(c, s);
    s := ReadClose(c, s, second);
  }

  lemma OneClose(c: Config, text: string) returns (s: State)
    ensures Reachable(c, s)
    ensures s.pc.Selecting? && !Cancelled(s) && s.connected && s.epoch == 1 && s.reason == ""
    ensures s.readers == map[1 := Closing(1, text)] && s.broken == map[1 := Some(text)]
  {
    Start(c);
    s := Connect(c, Init(c));
    s := ReadClose(c, s, text);
  }

  lemma Start(c: Config)
    ensures Reachable(c, Init(c))
  {
    assert Runs(c, Init(c), []) && After(c, Init(c), []) == Init(c);
  }

  lemma ReachableRefusalIff(c: Config, s: State)
    requires Reachable(c, s) && BeforeTaking(s.pc)
    ensures Respected(c, s) <==> Cancelled(s) || (s.reason != "" && Quiet(s))
  {
    ReachableInv(c, s);
    RefusalRespectedIff(c, s);
  }

  /**
   * With a single connection: its reader has read a refusal, and a write that
   * fails before the text is stored lets the manager dial again at once.
   */
  lemma RefusalLostToWrite(c: Config, text: string) returns (s: State)
    ensures Reachable(c, s) && BeforeTaking(s.pc) && !Cancelled(s)
    ensures s.readers == map[1 := Closing(1, text)]
    ensures !Respected(c, s)
  {
    s := OneClose(c, text);
    ReachableRefusalIff(c, s);
  }

  /**
   * A stored refusal can be lost, too: the reader of the connection before it
   * has read a 1008 close without a text and stores that last.
   */
  lemma RefusalCanBeErased(c: Config, text: string) returns (s: State)
    requires text != ""
    ensures Reachable(c, s) && BeforeTaking(s.pc) && !Cancelled(s)
    ensures s.reason == text && s.readers == map[1 := Closing(1, ""), 2 := Done]
    ensures !Respected(c, s)
  {
    s := TwoCloses(c, "", text);
    s := Step(c, s, ReaderOf(2, Report));
    assert MayErase(s.readers[1], s);
    ReachableRefusalIff(c, s);
  }

  /** Conversely a refusal not yet stored is respected if an earlier one is already in its place. */
  lemma EarlierReasonSuffices(c: Config, first: string, second: string) returns (s: State)
    requires first != "" && second != ""
    ensures Reachable(c, s) && BeforeTaking(s.pc) && !Cancelled(s)
    ensures s.readers == map[1 := Done, 2 := Closing(2, second)]
    ensures Respected(c, s)
  {
    s := TwoCloses(c, first, second);
    s := Step(c, s, ReaderOf(1, Report));
    ReachableRefusalIff(c, s);
  }
}
