/** What every step of the whole kubelet keeps. */
module KubeletInvariants {
  import opened Protocol
  import opened ManagerLogs
  import opened Outboxes
  import opened PodCaches
  import opened Commands
  import opened Kubelets
  import CM = ClientMachine
  import CI = ClientInvariants

  // ---- What a client action does to the histories ----

  lemma ManagerEffects(c: Config, s: CM.State, m: CM.ManagerStep)
    requires CM.ManagerEnabled(s, m)
    ensures CM.ManagerNext(c, s, m).inb == s.inb
    ensures CM.ManagerNext(c, s, m).out.attempted == s.out.attempted
  {
  }

  lemma ClientEffects(c: Config, s: CM.State, a: CM.Action)
    requires CM.Enabled(s, a)
    ensures CM.Next(c, s, a).inb.taken
         == if a.TakeCommand? then s.inb.taken + [s.inb.queue[0]] else s.inb.taken
    ensures CM.Next(c, s, a).out.attempted
         == if a.CallSend? then s.out.attempted + [a.envelope] else s.out.attempted
  {
    match a
    case Manager(m) => ManagerEffects(c, s, m);
    case _ =>
  }

  // ---- The client's own invariant ----

  lemma StepIsClientStep(k: Setup, s: State, a: Action)
    requires Enabled(k, s, a)
    ensures match ClientAction(k, s, a)
            case None => Next(k, s, a).client == s.client
            case Some(b) => CM.Enabled(s.client, b) && Next(k, s, a).client == CM.Next(k.net, s.client, b)
  {
  }

  lemma StepKeepsClient(k: Setup, s: State, a: Action)
    requires Enabled(k, s, a) && CI.Inv(k.net, s.client)
    ensures CI.Inv(k.net, Next(k, s, a).client)
  {
    StepIsClientStep(k, s, a);
    match ClientAction(k, s, a)
    case None =>
    case Some(b) => CI.StepKeepsInv(k.net, s.client, b);
  }

  // ---- The cache is the replay of its history ----

  ghost predicate Replayed(s: State) {
    s.cache == Replay(s.history)
  }

  /** A step either leaves the cache alone or applies one recorded cache step. */
  lemma CacheEffects(k: Setup, s: State, a: Action)
    requires Enabled(k, s, a)
    ensures var t := Next(k, s, a);
            || (t.history == s.history && t.cache == s.cache)
            || (|t.history| == |s.history| + 1
                && t.history == s.history + [t.history[|s.history|]]
                && t.cache == Apply(s.cache, t.history[|s.history|]))
  {
  }

  lemma StepKeepsReplay(k: Setup, s: State, a: Action)
    requires Enabled(k, s, a) && Replayed(s)
    ensures Replayed(Next(k, s, a))
  {
    var t := Next(k, s, a);
    CacheEffects(k, s, a);
    if t.history != s.history {
      ReplayAppend(s.history, t.history[|s.history|]);
    }
  }

  // ---- Commands: taken, executed, answered ----

  function Envs(executed: seq<Execution>): (r: seq<CommandEnvelope>)
    ensures |r| == |executed|
  {
    seq(|executed|, i requires 0 <= i < |executed| => executed[i].env)
  }

  function ResponseEnvelopes(executed: seq<Execution>): (r: seq<Envelope>)
    ensures |r| == |executed|
  {
    seq(|executed|, i requires 0 <= i < |executed| => ResponseEnvelope(executed[i].handled.response))
  }

  /** The command taken from the channel and not yet executed. */
  function InHand(loop: Loop): seq<CommandEnvelope> {
    match loop
    case Executing(env) => [env]
    case Rejecting(env, _, _) => [env]
    case _ => []
  }

  /** Executed, but sendEnvelope not yet called for the response. */
  predicate Unsent(loop: Loop) {
    loop.Answering? || loop.Notifying? || loop.Sending?
  }

  function Sent(s: State): seq<Execution> {
    if Unsent(s.loop) && s.executed != [] then s.executed[..|s.executed| - 1] else s.executed
  }

  /** The loop works on the execution recorded last. */
  ghost predicate Current(s: State) {
    Unsent(s.loop) ==>
      && s.executed != []
      && s.executed[|s.executed| - 1].env == s.loop.env
      && s.executed[|s.executed| - 1].handled.response == s.loop.response
  }

  /** Every execution is the handler's answer to its envelope. */
  ghost predicate Genuine(k: Setup, e: Execution) {
    exists answers, applied :: e.handled == HandleCommand(k.dec, k.registered, e.env, answers, applied)
  }

  ghost predicate AllGenuine(k: Setup, s: State) {
    forall i :: 0 <= i < |s.executed| ==> Genuine(k, s.executed[i])
  }

  ghost predicate Answered(s: State) {
    && Current(s)
    && s.client.inb.taken == Envs(s.executed) + InHand(s.loop)
    && From(s.client.out.attempted, Processor) == ResponseEnvelopes(Sent(s))
  }

  lemma AppendExecution(executed: seq<Execution>, e: Execution)
    ensures Envs(executed + [e]) == Envs(executed) + [e.env]
    ensures ResponseEnvelopes(executed + [e]) == ResponseEnvelopes(executed) + [ResponseEnvelope(e.handled.response)]
    ensures (executed + [e])[..|executed|] == executed
  {
  }

  lemma AnswerKeeps(s: State, t: State, env: CommandEnvelope, h: Handled)
    requires Answered(s) && InHand(s.loop) == [env]
    requires t.client == s.client && t.executed == s.executed + [Execution(env, h)]
    requires t.loop == Answering(env, h.response)
    ensures Answered(t)
  {
    AppendExecution(s.executed, Execution(env, h));
    assert Envs(s.executed) + [env] + [] == Envs(s.executed) + [env];
  }

  lemma LastResponse(executed: seq<Execution>)
    requires executed != []
    ensures var n := |executed| - 1;
            ResponseEnvelopes(executed)
            == ResponseEnvelopes(executed[..n]) + [ResponseEnvelope(executed[n].handled.response)]
  {
  }

  lemma SendEffects(k: Setup, s: State)
    requires Enabled(k, s, SendResponse)
    ensures var t := Next(k, s, SendResponse);
            && t.client.out.attempted == s.client.out.attempted + [ResponseEnvelope(s.loop.response)]
            && t.client.inb.taken == s.client.inb.taken
            && t.executed == s.executed && InHand(t.loop) == [] && !Unsent(t.loop)
  {
  }

  lemma SendKeeps(k: Setup, s: State)
    requires Enabled(k, s, SendResponse) && Answered(s)
    ensures Answered(Next(k, s, SendResponse))
  {
    SendEffects(k, s);
    FromAppend(s.client.out.attempted, ResponseEnvelope(s.loop.response), Processor);
    LastResponse(s.executed);
  }

  lemma TakeKeeps(k: Setup, s: State)
    requires Enabled(k, s, TakeCommand) && Answered(s)
    ensures Answered(Next(k, s, TakeCommand))
  {
    ClientEffects(k.net, s.client, CM.TakeCommand);
    assert Envs(s.executed) + [] == Envs(s.executed);
  }

  lemma RejectKeeps(k: Setup, s: State)
    requires Enabled(k, s, Reject) && Answered(s)
    ensures Answered(Next(k, s, Reject))
  {
    var t := Next(k, s, Reject);
    if t.loop.Answering? {
      AnswerKeeps(s, t, s.loop.env, t.executed[|s.executed|].handled);
    }
  }

  lemma ExecuteKeeps(k: Setup, s: State, a: Action)
    requires Enabled(k, s, a) && Answered(s) && (a.Execute? || a.NotifyRejected?)
    ensures Answered(Next(k, s, a))
  {
    var t := Next(k, s, a);
    AnswerKeeps(s, t, s.loop.env, t.executed[|s.executed|].handled);
  }

  lemma PushKeeps(k: Setup, s: State)
    requires Enabled(k, s, PushResponse) && Answered(s)
    ensures Answered(Next(k, s, PushResponse))
  {
    ClientEffects(k.net, s.client, CM.TrySend(Processor));
  }

  lemma LoopKeepsAnswered(k: Setup, s: State, a: Action)
    requires Enabled(k, s, a) && Answered(s) && !a.Net? && !OfWorker(a)
    ensures Answered(Next(k, s, a))
  {
    match a
    case TakeCommand => TakeKeeps(k, s);
    case Execute(_) => ExecuteKeeps(k, s, a);
    case Reject => RejectKeeps(k, s);
    case NotifyRejected(_) => ExecuteKeeps(k, s, a);
    case SendResponse => SendKeeps(k, s);
    case PushResponse => PushKeeps(k, s);
    case _ => BookkeepingKeepsAnswered(k, s, a);
  }

  lemma BookkeepingEffects(k: Setup, s: State, a: Action)
    requires Enabled(k, s, a) && (a.Book? || a.NotifyDeployed? || a.StopLoop?)
    ensures var t := Next(k, s, a);
            && t.client == s.client && t.executed == s.executed
            && InHand(t.loop) == InHand(s.loop) && (Unsent(t.loop) <==> Unsent(s.loop))
            && (Unsent(s.loop) ==> t.loop.env == s.loop.env && t.loop.response == s.loop.response)
  {
  }

  lemma BookkeepingKeepsAnswered(k: Setup, s: State, a: Action)
    requires Enabled(k, s, a) && Answered(s) && (a.Book? || a.NotifyDeployed? || a.StopLoop?)
    ensures Answered(Next(k, s, a))
  {
    BookkeepingEffects(k, s, a);
  }

  /** Steps of other goroutines: the command loop is untouched, and no response is sent. */
  lemma BystanderEffects(k: Setup, s: State, a: Action)
    requires Enabled(k, s, a) && (a.Net? || OfWorker(a))
    ensures Next(k, s, a).loop == s.loop && Next(k, s, a).executed == s.executed
    ensures match ClientAction(k, s, a)
            case None => Next(k, s, a).client == s.client
            case Some(b) =>
              && CM.Enabled(s.client, b) && Next(k, s, a).client == CM.Next(k.net, s.client, b)
              && !b.TakeCommand? && (b.CallSend? ==> b.envelope.sender != Processor)
  {
  }

  lemma OthersKeepAnswered(k: Setup, s: State, a: Action)
    requires Enabled(k, s, a) && Answered(s) && (a.Net? || OfWorker(a))
    ensures Answered(Next(k, s, a))
  {
    BystanderEffects(k, s, a);
    match ClientAction(k, s, a)
    case None =>
    case Some(b) =>
      ForeignCall(k.net, s.client, b, Processor);
      ClientEffects(k.net, s.client, b);
  }

  lemma NewExecution(k: Setup, s: State, a: Action)
    requires Enabled(k, s, a)
    ensures var t := Next(k, s, a);
            || t.executed == s.executed
            || (|t.executed| == |s.executed| + 1 && t.executed == s.executed + [t.executed[|s.executed|]]
                && Genuine(k, t.executed[|s.executed|]))
  {
  }

  lemma StepKeepsGenuine(k: Setup, s: State, a: Action)
    requires Enabled(k, s, a) && AllGenuine(k, s)
    ensures AllGenuine(k, Next(k, s, a))
  {
    NewExecution(k, s, a);
  }

  // ---- Bookkeeping ----

  /** The bookings that a sequence of executions calls for, in order. */
  function Bookings(dec: Decoders, executed: seq<Execution>): seq<Booking> {
    if executed == [] then []
    else
      var last := executed[|executed| - 1];
      Bookings(dec, executed[..|executed| - 1])
      + (match BookingFor(dec, last.env, last.handled.response) case Some(b) => [b] case None => [])
  }

  function Decided(s: State): seq<Execution> {
    if s.loop.Answering? && s.executed != [] then s.executed[..|s.executed| - 1] else s.executed
  }

  ghost predicate Booked(k: Setup, s: State) {
    Current(s) && s.booked == Bookings(k.dec, Decided(s))
  }

  lemma BookKeepsBooked(k: Setup, s: State)
    requires Enabled(k, s, Book) && Booked(k, s)
    ensures Booked(k, Next(k, s, Book))
  {
    var last := s.executed[|s.executed| - 1];
    assert last.env == s.loop.env && last.handled.response == s.loop.response;
    if BookingFor(k.dec, last.env, last.handled.response).None? {
      assert s.booked + [] == s.booked;
    }
  }

  lemma ExecutionEffects(k: Setup, s: State, a: Action)
    requires Enabled(k, s, a) && !a.Book?
    ensures var t := Next(k, s, a);
            && t.booked == s.booked
            && (|| (t.executed == s.executed && (t.loop.Answering? <==> s.loop.Answering?))
                || (t.loop.Answering? && !s.loop.Answering? && |t.executed| == |s.executed| + 1
                    && t.executed[..|s.executed|] == s.executed))
  {
    var t := Next(k, s, a);
    assert t.executed == s.executed || t.executed[..|s.executed|] == s.executed;
  }

  lemma OthersKeepBooked(k: Setup, s: State, a: Action)
    requires Enabled(k, s, a) && Booked(k, s) && Current(Next(k, s, a)) && !a.Book?
    ensures Booked(k, Next(k, s, a))
  {
    ExecutionEffects(k, s, a);
  }

  // ---- Pod events ----

  function EventEnvelopes(calls: seq<Call>): (r: seq<Envelope>)
    ensures |r| == |calls|
  {
    seq(|calls|, i requires 0 <= i < |calls| => EventEnvelope(calls[i].event))
  }

  function Announced(s: State): seq<Call> {
    if s.worker.Announcing? && s.calls != [] then s.calls[..|s.calls| - 1] else s.calls
  }

  ghost predicate EventsFollow(s: State) {
    && (s.worker.Announcing? ==> s.calls != [] && s.calls[|s.calls| - 1].event == s.worker.event)
    && From(s.client.out.attempted, Controller) == EventEnvelopes(Announced(s))
  }

  lemma AppendCall(calls: seq<Call>, c: Call)
    ensures EventEnvelopes(calls + [c]) == EventEnvelopes(calls) + [EventEnvelope(c.event)]
    ensures (calls + [c])[..|calls|] == calls
  {
  }

  lemma LastEvent(calls: seq<Call>)
    requires calls != []
    ensures var n := |calls| - 1;
            EventEnvelopes(calls) == EventEnvelopes(calls[..n]) + [EventEnvelope(calls[n].event)]
  {
  }

  lemma SendEventEffects(k: Setup, s: State)
    requires Enabled(k, s, SendEvent)
    ensures var t := Next(k, s, SendEvent);
            && t.client.out.attempted == s.client.out.attempted + [EventEnvelope(s.worker.event)]
            && t.calls == s.calls && !t.worker.Announcing?
  {
  }

  lemma SendEventKeeps(k: Setup, s: State)
    requires Enabled(k, s, SendEvent) && EventsFollow(s)
    ensures EventsFollow(Next(k, s, SendEvent))
  {
    SendEventEffects(k, s);
    FromAppend(s.client.out.attempted, EventEnvelope(s.worker.event), Controller);
    LastEvent(s.calls);
  }

  lemma CallEffects(k: Setup, s: State, a: Action)
    requires Enabled(k, s, a) && (a.CreatePod? || a.DeletePod?)
    ensures var t := Next(k, s, a);
            && t.client == s.client && t.worker.Announcing? && !s.worker.Announcing?
            && |t.calls| == |s.calls| + 1 && t.calls == s.calls + [t.calls[|s.calls|]]
            && t.calls[|s.calls|].event == t.worker.event
  {
  }

  lemma CallKeeps(k: Setup, s: State, a: Action)
    requires Enabled(k, s, a) && EventsFollow(s) && (a.CreatePod? || a.DeletePod?)
    ensures EventsFollow(Next(k, s, a))
  {
    CallEffects(k, s, a);
    AppendCall(s.calls, Next(k, s, a).calls[|s.calls|]);
  }

  lemma PushEventKeeps(k: Setup, s: State)
    requires Enabled(k, s, PushEvent) && EventsFollow(s)
    ensures EventsFollow(Next(k, s, PushEvent))
  {
    ClientEffects(k.net, s.client, CM.TrySend(Controller));
  }

  lemma WorkerKeepsEvents(k: Setup, s: State, a: Action)
    requires Enabled(k, s, a) && EventsFollow(s) && OfWorker(a)
    ensures EventsFollow(Next(k, s, a))
  {
    match a
    case SendEvent => SendEventKeeps(k, s);
    case PushEvent => PushEventKeeps(k, s);
    case CreatePod(_) => CallKeeps(k, s, a);
    case DeletePod(_) => CallKeeps(k, s, a);
    case _ =>
  }

  /** Steps of other goroutines: the worker is untouched, and no pod event is sent. */
  lemma OtherEffects(k: Setup, s: State, a: Action)
    requires Enabled(k, s, a) && !OfWorker(a)
    ensures Next(k, s, a).worker == s.worker && Next(k, s, a).calls == s.calls
    ensures match ClientAction(k, s, a)
            case None => Next(k, s, a).client == s.client
            case Some(b) =>
              && CM.Enabled(s.client, b) && Next(k, s, a).client == CM.Next(k.net, s.client, b)
              && (b.CallSend? ==> b.envelope.sender != Controller)
  {
  }

  lemma ForeignCall(c: Config, s: CM.State, a: CM.Action, x: Sender)
    requires CM.Enabled(s, a) && (a.CallSend? ==> a.envelope.sender != x)
    ensures From(CM.Next(c, s, a).out.attempted, x) == From(s.out.attempted, x)
  {
    ClientEffects(c, s, a);
    if a.CallSend? {
      FromAppend(s.out.attempted, a.envelope, x);
      assert From(s.out.attempted, x) + [] == From(s.out.attempted, x);
    }
  }

  lemma OthersKeepEvents(k: Setup, s: State, a: Action)
    requires Enabled(k, s, a) && EventsFollow(s) && !OfWorker(a)
    ensures EventsFollow(Next(k, s, a))
  {
    OtherEffects(k, s, a);
    match ClientAction(k, s, a)
    case None =>
    case Some(b) => ForeignCall(k.net, s.client, b, Controller);
  }

  /** A deletion event carries the id that was in the cache when DeletePod read it. */
  ghost predicate Truthful(c: Call, h: seq<Step>) {
    && c.at <= |h|
    && (c.event.PodDeleted? ==>
          c.event.providerPodID == ProviderPodID(Replay(h[..c.at]), CacheKey(c.event.namespace, c.event.podName)))
  }

  ghost predicate DeletionsTruthful(s: State) {
    forall i :: 0 <= i < |s.calls| ==> Truthful(s.calls[i], s.history)
  }

  lemma TruthfulExtends(c: Call, h: seq<Step>, h': seq<Step>)
    requires Truthful(c, h) && h <= h'
    ensures Truthful(c, h')
  {
    assert h'[..c.at] == h[..c.at];
  }

  lemma HistoryGrows(k: Setup, s: State, a: Action)
    requires Enabled(k, s, a)
    ensures s.history <= Next(k, s, a).history
  {
  }

  lemma StepKeepsDeletions(k: Setup, s: State, a: Action)
    requires Enabled(k, s, a) && DeletionsTruthful(s) && Replayed(s)
    ensures DeletionsTruthful(Next(k, s, a))
  {
    var t := Next(k, s, a);
    HistoryGrows(k, s, a);
    forall i | 0 <= i < |t.calls|
      ensures Truthful(t.calls[i], t.history)
    {
      if i < |s.calls| {
        assert t.calls[i] == s.calls[i];
        TruthfulExtends(s.calls[i], s.history, t.history);
      } else {
        assert t.history[..|s.history|] == s.history;
      }
    }
  }

  // ---- Which envelopes exist ----

  ghost predicate AllTyped(envelopes: seq<Envelope>) {
    forall i :: 0 <= i < |envelopes| ==> Typed(envelopes[i])
  }

  ghost predicate OutTyped(o: Outbox) {
    && AllTyped(o.attempted) && AllTyped(o.accepted)
    && forall x :: x in o.checked ==> Typed(o.checked[x])
  }

  lemma ClientKeepsTyped(c: Config, s: CM.State, a: CM.Action)
    requires CM.Enabled(s, a) && OutTyped(s.out)
    requires a.CallSend? ==> Typed(a.envelope)
    ensures OutTyped(CM.Next(c, s, a).out)
  {
    match a
    case Manager(m) => CI.ManagerKeepsSends(c, s, m);
    case CallSend(e) =>
    case TrySend(x) =>
    case _ => assert CM.Next(c, s, a).out == s.out;
  }

  lemma StepKeepsTyped(k: Setup, s: State, a: Action)
    requires Enabled(k, s, a) && OutTyped(s.client.out)
    requires s.worker.Announcing? ==> !s.worker.event.KubeletReady?
    ensures OutTyped(Next(k, s, a).client.out)
  {
    StepIsClientStep(k, s, a);
    match ClientAction(k, s, a)
    case None =>
    case Some(b) => ClientKeepsTyped(k.net, s.client, b);
  }

  ghost predicate WorkerEvents(s: State) {
    s.worker.Announcing? || s.worker.Pushing? ==> !s.worker.event.KubeletReady?
  }

  lemma StepKeepsWorkerEvents(k: Setup, s: State, a: Action)
    requires Enabled(k, s, a) && WorkerEvents(s)
    ensures WorkerEvents(Next(k, s, a))
  {
  }

  // ---- Nobody waits for a call of its own ----

  /** A sender has a call at the channel exactly while its program counter says so. */
  ghost predicate CallsMatch(s: State) {
    && (Processor in s.client.out.checked <==> s.loop.Queueing?)
    && (Controller in s.client.out.checked <==> s.worker.Pushing?)
  }

  lemma CheckedEffects(c: Config, s: CM.State, a: CM.Action)
    requires CM.Enabled(s, a)
    ensures CM.Next(c, s, a).out.checked.Keys
         == match a
            case CallSend(e) => if s.connected then s.out.checked.Keys + {e.sender} else s.out.checked.Keys
            case TrySend(x) => s.out.checked.Keys - {x}
            case _ => s.out.checked.Keys
  {
    match a
    case Manager(m) => CI.ManagerKeepsSends(c, s, m);
    case CallSend(e) =>
    case TrySend(x) =>
    case _ => assert CM.Next(c, s, a).out == s.out;
  }

  lemma LoopEffects(k: Setup, s: State, a: Action)
    requires Enabled(k, s, a) && !OfWorker(a)
    ensures Next(k, s, a).worker == s.worker
    ensures !a.SendResponse? && !a.PushResponse? ==> (Next(k, s, a).loop.Queueing? <==> s.loop.Queueing?)
    ensures a.SendResponse? ==> (Next(k, s, a).loop.Queueing? <==> s.client.connected)
    ensures a.PushResponse? ==> !Next(k, s, a).loop.Queueing?
  {
  }

  lemma WorkerEffects(k: Setup, s: State, a: Action)
    requires Enabled(k, s, a) && OfWorker(a)
    ensures Next(k, s, a).loop == s.loop
    ensures !a.SendEvent? && !a.PushEvent? ==> (Next(k, s, a).worker.Pushing? <==> s.worker.Pushing?)
    ensures a.SendEvent? ==> (Next(k, s, a).worker.Pushing? <==> s.client.connected)
    ensures a.PushEvent? ==> !Next(k, s, a).worker.Pushing?
  {
  }

  lemma StepKeepsCalls(k: Setup, s: State, a: Action)
    requires Enabled(k, s, a) && CallsMatch(s)
    ensures CallsMatch(Next(k, s, a))
  {
    StepIsClientStep(k, s, a);
    match ClientAction(k, s, a)
    case None =>
    case Some(b) => CheckedEffects(k.net, s.client, b);
    if OfWorker(a) {
      WorkerEffects(k, s, a);
    } else {
      LoopEffects(k, s, a);
    }
  }

  lemma LoopGoesOn(k: Setup, s: State) returns (a: Action)
    requires CallsMatch(s) && !s.loop.Stopped?
    requires s.loop.Idle? ==> s.client.inb.queue != []
    ensures Enabled(k, s, a) && !a.Net? && !OfWorker(a) && !a.StopLoop?
  {
    match s.loop
    case Idle => a := TakeCommand;
    case Executing(env) => a := if RejectionOf(k.dec, env).Some? then Reject else Execute(NO_ANSWERS);
    case Rejecting(_, _, _) => a := NotifyRejected(true);
    case Answering(_, _) => a := Book;
    case Notifying(_, _, _, _) => a := NotifyDeployed(true);
    case Sending(_, _) => a := SendResponse;
    case _ => a := PushResponse;
  }

  lemma WorkerGoesOn(k: Setup, s: State) returns (a: Action)
    requires CallsMatch(s) && !s.worker.Free?
    ensures Enabled(k, s, a) && OfWorker(a)
  {
    match s.worker
    case Announcing(_, _) => a := SendEvent;
    case Pushing(_, _) => a := PushEvent;
    case _ => a := RemovePod;
  }

  // ---- All together ----

  ghost predicate Inv(k: Setup, s: State) {
    && CI.Inv(k.net, s.client)
    && Replayed(s)
    && Answered(s)
    && AllGenuine(k, s)
    && Booked(k, s)
    && EventsFollow(s)
    && DeletionsTruthful(s)
    && WorkerEvents(s)
    && OutTyped(s.client.out)
    && CallsMatch(s)
  }

  lemma StepKeepsInv(k: Setup, s: State, a: Action)
    requires Enabled(k, s, a) && Inv(k, s)
    ensures Inv(k, Next(k, s, a))
  {
    StepKeepsClient(k, s, a);
    StepKeepsReplay(k, s, a);
    if a.Net? || OfWorker(a) {
      OthersKeepAnswered(k, s, a);
    } else {
      LoopKeepsAnswered(k, s, a);
    }
    StepKeepsGenuine(k, s, a);
    if a.Book? {
      BookKeepsBooked(k, s);
    } else {
      OthersKeepBooked(k, s, a);
    }
    if OfWorker(a) {
      WorkerKeepsEvents(k, s, a);
    } else {
      OthersKeepEvents(k, s, a);
    }
    StepKeepsDeletions(k, s, a);
    StepKeepsWorkerEvents(k, s, a);
    StepKeepsTyped(k, s, a);
    StepKeepsCalls(k, s, a);
  }

  lemma InitInv(k: Setup)
    ensures Inv(k, Init(k))
  {
    CI.InitInv(k.net);
  }

  lemma {:induction false} RunKeepsInv(k: Setup, s: State, acts: seq<Action>)
    requires Inv(k, s) && Runs(k, s, acts)
    ensures Inv(k, After(k, s, acts))
    decreases |acts|
  {
    if acts != [] {
      StepKeepsInv(k, s, acts[0]);
      RunKeepsInv(k, Next(k, s, acts[0]), acts[1..]);
    }
  }

  ghost predicate Reachable(k: Setup, s: State) {
    exists acts :: Runs(k, Init(k), acts) && s == After(k, Init(k), acts)
  }

  lemma ReachableInv(k: Setup, s: State)
    requires Reachable(k, s)
    ensures Inv(k, s)
  {
    var acts :| Runs(k, Init(k), acts) && s == After(k, Init(k), acts);
    InitInv(k);
    RunKeepsInv(k, Init(k), acts);
  }
}
