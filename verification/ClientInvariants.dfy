/** What every step of the client keeps, and hence what holds in every reachable state. */
module ClientInvariants {
  import opened Protocol
  import opened Backoff
  import opened ManagerLogs
  import opened Outboxes
  import opened Subsequences
  import opened ClientMachine
  import Inboxes

  // ---- Connections ----

  predicate HasConnection(pc: Pc) {
    pc.Entering? || pc.Selecting? || pc.Writing? || pc.Leaving?
  }

  /**
   * `connected` says exactly whether a connection is published; the manager
   * holds one exactly from publication to clean-up, and it is the newest one;
   * no other dialled connection is unclosed.
   */
  ghost predicate Lifecycle(s: State) {
    && (s.connected <==> s.conn.Some?)
    && (s.conn.Some? <==> HasConnection(s.pc))
    && (s.conn.Some? ==> s.conn.value == s.epoch && s.open <= {s.epoch})
    && (s.conn.None? ==> s.open == if s.pc.Installing? then {s.epoch} else {})
  }

  lemma ManagerKeepsLifecycle(c: Config, s: State, m: ManagerStep)
    requires ManagerEnabled(s, m) && Lifecycle(s)
    ensures Lifecycle(ManagerNext(c, s, m))
  {
  }

  lemma StepKeepsLifecycle(c: Config, s: State, a: Action)
    requires Enabled(s, a) && Lifecycle(s)
    ensures Lifecycle(Next(c, s, a))
  {
    match a
    case Manager(m) => ManagerKeepsLifecycle(c, s, m);
    case _ =>
  }

  // ---- The manager's log ----

  /** The log says where the manager is. */
  ghost predicate LogMatches(c: Config, s: State) {
    var log := s.log;
    match s.pc
    case Top => log == [] || Last(log).Slept? || Last(log) == ReasonTaken("")
    case Ready => log == [] || Last(log).Slept? || Last(log) == ReasonTaken("")
    case Dialing => log != [] && Last(log).DialStarted?
    case Installing => log != [] && Last(log) == Connected(s.epoch)
    case Failed => log != [] && Last(log).DialFailed?
    case Entering => log != [] && Last(log) == Connected(s.epoch)
    case Selecting => log != [] && Last(log) == Connected(s.epoch)
    case Writing => log != [] && Last(log) == Connected(s.epoch)
    case Leaving => log != [] && Last(log) == Connected(s.epoch)
    case PostLoop => log != [] && Last(log) == LoopLeft
    case Taking => log != [] && Last(log) == LoopLeft
    case Refused => log != [] && Last(log).ReasonTaken? && Last(log).text != ""
    case Exited => true
  }

  /** The delay is the backoff function of the failures so far; a connection resets it on entering the loop. */
  ghost predicate DelayMatches(c: Config, s: State) {
    match s.pc
    case Installing => true
    case Entering => true
    case Exited => true
    case Failed => Failures(s.log) > 0
                   && s.delay == Delay(c.reconnectInterval, c.maxReconnectDelay, Failures(s.log) - 1)
    case _ => s.delay == Delay(c.reconnectInterval, c.maxReconnectDelay, Failures(s.log))
  }

  ghost predicate Logged(c: Config, s: State) {
    Legal(c, s.log) && LogMatches(c, s) && DelayMatches(c, s)
  }

  lemma ManagerKeepsWord(c: Config, s: State, m: ManagerStep)
    requires ManagerEnabled(s, m) && Logged(c, s)
    ensures Legal(c, ManagerNext(c, s, m).log) && LogMatches(c, ManagerNext(c, s, m))
  {
    match m
    case StartDial => Extend(c, s.log, DialStarted);
    case DialFails => Extend(c, s.log, DialFailed);
    case DialSucceeds => Extend(c, s.log, Connected(s.epoch + 1));
    case RetryTimer => Extend(c, s.log, Slept(s.delay));
    case CleanUp => Extend(c, s.log, LoopLeft);
    case TakeReason => Extend(c, s.log, ReasonTaken(s.reason));
    case RefusalTimer => Extend(c, s.log, Slept(c.maxReconnectDelay));
    case _ =>
  }

  lemma ManagerKeepsDelay(c: Config, s: State, m: ManagerStep)
    requires ManagerEnabled(s, m) && LogMatches(c, s) && DelayMatches(c, s)
    ensures DelayMatches(c, ManagerNext(c, s, m))
  {
    match m
    case StartDial => FailuresAppend(s.log, DialStarted);
    case DialFails => FailuresAppend(s.log, DialFailed);
    case RetryTimer => FailuresAppend(s.log, Slept(s.delay));
    case CleanUp => FailuresAppend(s.log, LoopLeft);
    case TakeReason => FailuresAppend(s.log, ReasonTaken(s.reason));
    case RefusalTimer => FailuresAppend(s.log, Slept(c.maxReconnectDelay));
    case _ =>
  }

  lemma StepKeepsLog(c: Config, s: State, a: Action)
    requires Enabled(s, a) && Logged(c, s)
    ensures Logged(c, Next(c, s, a))
  {
    match a
    case Manager(m) =>
      ManagerKeepsWord(c, s, m);
      ManagerKeepsDelay(c, s, m);
    case _ => OthersLeaveManager(c, s, a);
  }

  // ---- The refusal reason ----

  /** The last reason stored since the last one was taken. */
  function Pending(mail: seq<Mail>): string {
    if mail == [] then ""
    else match mail[|mail| - 1]
      case Put(_, text) => text
      case Took(_) => ""
  }

  /** Every reason taken is the one pending at that moment, so none is taken twice. */
  ghost predicate EachTakenOnce(mail: seq<Mail>) {
    forall i :: 0 <= i < |mail| && mail[i].Took? ==> mail[i].text == Pending(mail[..i])
  }

  ghost predicate Mailed(s: State) {
    s.reason == Pending(s.mail) && EachTakenOnce(s.mail)
  }

  lemma MailAppend(mail: seq<Mail>, m: Mail)
    requires EachTakenOnce(mail) && (m.Took? ==> m.text == Pending(mail))
    ensures EachTakenOnce(mail + [m])
  {
    var all := mail + [m];
    forall i | 0 <= i < |all| && all[i].Took?
      ensures all[i].text == Pending(all[..i])
    {
      assert all[..i] == mail[..i];
      assert mail[..|mail|] == mail;
    }
  }

  lemma StepKeepsMail(c: Config, s: State, a: Action)
    requires Enabled(s, a) && Mailed(s)
    ensures Mailed(Next(c, s, a))
  {
    match a
    case Manager(TakeReason) => MailAppend(s.mail, Took(s.reason));
    case ReaderOf(e, Report) => MailAppend(s.mail, Put(e, s.readers[e].text));
    case _ =>
  }

  // ---- Outbound envelopes ----

  /** Per connection: only the open loop can still consume, and a loss closes it. */
  ghost predicate Consuming(s: State) {
    && OneInFlight(s.out, s.pc.Writing?)
    && LossEndsEpoch(s.out.consumed)
    && EpochsUpTo(s.out.consumed, s.epoch)
    && (s.pc.Installing? || s.pc.Entering? || s.pc.Selecting? || s.pc.Writing? ==> NoLossIn(s.out.consumed, s.epoch))
  }

  ghost predicate Outbound(s: State) {
    && Outboxes.Conserved(s.out)
    && (forall x :: SenderOrder(s.out, x))
    && Consuming(s)
  }

  lemma NewEpochIsClean(deliveries: seq<Delivery>, epoch: nat)
    requires EpochsUpTo(deliveries, epoch)
    ensures EpochsUpTo(deliveries, epoch + 1) && NoLossIn(deliveries, epoch + 1)
  {
  }

  lemma ManagerKeepsConsuming(c: Config, s: State, m: ManagerStep)
    requires ManagerEnabled(s, m) && Consuming(s)
    ensures Consuming(ManagerNext(c, s, m))
  {
    match m
    case DialSucceeds => NewEpochIsClean(s.out.consumed, s.epoch);
    case TakeEnvelope =>
      TakeInFlight(s.out, s.epoch);
      TakeKeepsLosses(s.out, s.epoch);
    case WriteSucceeds =>
      SettleInFlight(s.out, Written);
      SettleKeepsLosses(s.out, Written, s.epoch);
    case WriteFails =>
      SettleInFlight(s.out, Lost);
      SettleKeepsLosses(s.out, Lost, s.epoch);
    case _ =>
  }

  lemma StepKeepsConsuming(c: Config, s: State, a: Action)
    requires Enabled(s, a) && Consuming(s)
    ensures Consuming(Next(c, s, a))
  {
    match a
    case Manager(m) => ManagerKeepsConsuming(c, s, m);
    case _ =>
  }

  lemma StepConservesOutbox(c: Config, s: State, a: Action)
    requires Enabled(s, a) && Outboxes.Conserved(s.out)
    ensures Outboxes.Conserved(Next(c, s, a).out)
  {
    match a
    case Manager(TakeEnvelope) => Outboxes.TakeConserves(s.out, s.epoch);
    case Manager(WriteSucceeds) => SettleConserves(s.out, Written);
    case Manager(WriteFails) => SettleConserves(s.out, Lost);
    case TrySend(x) => PushConserves(s.out, x);
    case _ =>
  }

  lemma StepKeepsSenderOrder(c: Config, s: State, a: Action, y: Sender)
    requires Enabled(s, a) && SenderOrder(s.out, y)
    requires a.TrySend? ==> SenderOrder(s.out, a.sender)
    ensures SenderOrder(Next(c, s, a).out, y)
  {
    match a
    case CallSend(e) => CheckKeepsOrder(s.out, e, s.connected, y);
    case TrySend(x) =>
      if x == y {
        PushEndsCall(s.out, x);
      } else {
        PushKeepsOrder(s.out, x, y);
      }
    case Manager(m) => ManagerKeepsSends(c, s, m);
    case _ => assert Next(c, s, a).out == s.out;
  }

  lemma ManagerKeepsSends(c: Config, s: State, m: ManagerStep)
    requires ManagerEnabled(s, m)
    ensures var o := ManagerNext(c, s, m).out;
            o.checked == s.out.checked && o.attempted == s.out.attempted && o.accepted == s.out.accepted
  {
  }

  lemma StepKeepsOutbound(c: Config, s: State, a: Action)
    requires Enabled(s, a) && Outbound(s)
    ensures Outbound(Next(c, s, a))
  {
    StepConservesOutbox(c, s, a);
    StepKeepsConsuming(c, s, a);
    forall y
      ensures SenderOrder(Next(c, s, a).out, y)
    {
      StepKeepsSenderOrder(c, s, a, y);
    }
  }

  // ---- Inbound commands ----

  lemma StepConservesInbox(c: Config, s: State, a: Action)
    requires Enabled(s, a) && Inboxes.Conserved(s.inb)
    ensures Inboxes.Conserved(Next(c, s, a).inb)
  {
    match a
    case TakeCommand => Inboxes.TakeConserves(s.inb);
    case ReaderOf(e, Deliver) =>
      if s.readers[e].frame.CommandFrame? {
        Inboxes.OfferConserves(s.inb, s.readers[e].frame.command);
      }
    case _ =>
  }

  // ---- Readers ----

  /** There is a reader for every connection whose loop was entered, and only for those. */
  ghost predicate ReadersMatch(s: State) {
    && (forall e :: e in s.readers ==> 0 < e <= s.epoch)
    && (s.pc.Installing? || s.pc.Entering? ==> 0 < s.epoch && s.epoch !in s.readers)
    && (s.pc.Selecting? || s.pc.Writing? || s.pc.Leaving? || s.pc.PostLoop? || s.pc.Taking? ==> s.epoch in s.readers)
  }

  /** A reader about to store a close text has it from its connection. */
  ghost predicate TextsMatch(s: State) {
    forall e :: e in s.readers && s.readers[e].Closing? ==>
      s.readers[e].conn in s.broken && s.broken[s.readers[e].conn] == Some(s.readers[e].text)
  }

  lemma StepKeepsReaders(c: Config, s: State, a: Action)
    requires Enabled(s, a) && ReadersMatch(s)
    ensures ReadersMatch(Next(c, s, a))
  {
    match a
    case Manager(m) => ManagerKeepsReaders(c, s, m);
    case _ =>
  }

  lemma ManagerKeepsReaders(c: Config, s: State, m: ManagerStep)
    requires ManagerEnabled(s, m) && ReadersMatch(s)
    ensures ReadersMatch(ManagerNext(c, s, m))
  {
  }

  lemma StepKeepsTexts(c: Config, s: State, a: Action)
    requires Enabled(s, a) && TextsMatch(s)
    ensures TextsMatch(Next(c, s, a))
  {
    match a
    case Manager(m) => ManagerKeepsTexts(c, s, m);
    case ReaderOf(e, m) => ReaderKeepsTexts(c, s, e, m);
    case _ => assert Next(c, s, a).readers == s.readers && Next(c, s, a).broken == s.broken;
  }

  lemma ManagerKeepsTexts(c: Config, s: State, m: ManagerStep)
    requires ManagerEnabled(s, m) && TextsMatch(s)
    ensures TextsMatch(ManagerNext(c, s, m))
  {
  }

  lemma ReaderKeepsTexts(c: Config, s: State, e: nat, m: ReaderStep)
    requires Enabled(s, ReaderOf(e, m)) && TextsMatch(s)
    ensures TextsMatch(Next(c, s, ReaderOf(e, m)))
  {
  }

  // ---- All together ----

  ghost predicate Inv(c: Config, s: State) {
    && Lifecycle(s)
    && Logged(c, s)
    && Mailed(s)
    && Outbound(s)
    && Inboxes.Conserved(s.inb)
    && ReadersMatch(s)
    && TextsMatch(s)
  }

  lemma StepKeepsInv(c: Config, s: State, a: Action)
    requires Enabled(s, a) && Inv(c, s)
    ensures Inv(c, Next(c, s, a))
  {
    StepKeepsLifecycle(c, s, a);
    StepKeepsLog(c, s, a);
    StepKeepsMail(c, s, a);
    StepKeepsOutbound(c, s, a);
    StepConservesInbox(c, s, a);
    StepKeepsReaders(c, s, a);
    StepKeepsTexts(c, s, a);
  }

  lemma InitInv(c: Config)
    ensures Inv(c, Init(c))
  {
    forall x
      ensures SenderOrder(Init(c).out, x)
    {
      EmptyInOrder<Envelope>([]);
    }
  }

  lemma {:induction false} RunKeepsInv(c: Config, s: State, acts: seq<Action>)
    requires Inv(c, s) && Runs(c, s, acts)
    ensures Inv(c, After(c, s, acts))
    decreases |acts|
  {
    if acts != [] {
      StepKeepsInv(c, s, acts[0]);
      RunKeepsInv(c, Next(c, s, acts[0]), acts[1..]);
    }
  }

  /** Every state that the client can reach satisfies the invariant. */
  lemma Always(c: Config, acts: seq<Action>)
    requires Runs(c, Init(c), acts)
    ensures Inv(c, After(c, Init(c), acts))
  {
    InitInv(c);
    RunKeepsInv(c, Init(c), acts);
  }
}
