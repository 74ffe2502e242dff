/** End-to-end guarantees of the kubelet over every run. */
module KubeletTheorems {
  import opened Protocol
  import opened Subsequences
  import opened Outboxes
  import opened PodCaches
  import opened PodStatuses
  import opened Commands
  import opened Kubelets
  import opened KubeletInvariants
  import Inboxes

  // ---- Responses ----

  /** The responses among envelopes. */
  function Responses(envelopes: seq<Envelope>): seq<Envelope> {
    if envelopes == [] then []
    else
      var last := envelopes[|envelopes| - 1];
      Responses(envelopes[..|envelopes| - 1]) + (if last.body.ResponseBody? then [last] else [])
  }

  /** The pod_created and pod_deleted events among envelopes. */
  function PodEvents(envelopes: seq<Envelope>): seq<Envelope> {
    if envelopes == [] then []
    else
      var last := envelopes[|envelopes| - 1];
      PodEvents(envelopes[..|envelopes| - 1])
      + (if last.body.EventBody? && !last.body.event.KubeletReady? then [last] else [])
  }

  lemma {:induction false} ResponsesAreProcessors(envelopes: seq<Envelope>)
    requires AllTyped(envelopes)
    ensures Responses(envelopes) == From(envelopes, Processor)
  {
    if envelopes != [] {
      ResponsesAreProcessors(envelopes[..|envelopes| - 1]);
      assert Typed(envelopes[|envelopes| - 1]);
    }
  }

  lemma {:induction false} PodEventsAreControllers(envelopes: seq<Envelope>)
    requires AllTyped(envelopes)
    ensures PodEvents(envelopes) == From(envelopes, Controller)
  {
    if envelopes != [] {
      PodEventsAreControllers(envelopes[..|envelopes| - 1]);
      assert Typed(envelopes[|envelopes| - 1]);
    }
  }

  lemma {:induction false} WireTyped(deliveries: seq<Delivery>)
    requires AllTyped(Envelopes(deliveries))
    ensures AllTyped(WrittenEnvelopes(deliveries))
  {
    if deliveries != [] {
      var n := |deliveries| - 1;
      assert forall i :: 0 <= i < n ==> Envelopes(deliveries[..n])[i] == Envelopes(deliveries)[i];
      WireTyped(deliveries[..n]);
      assert Typed(Envelopes(deliveries)[n]);
    }
  }

  lemma WireIsTyped(o: Outbox)
    requires Outboxes.Conserved(o) && OutTyped(o)
    ensures AllTyped(Wire(o))
  {
    assert forall i :: 0 <= i < |o.consumed| ==> Envelopes(o.consumed)[i] == o.accepted[i];
    WireTyped(o.consumed);
  }

  /** The command id that an envelope answers. */
  function CommandID(e: Envelope): string {
    if e.body.ResponseBody? then e.body.response.commandID else ""
  }

  function CommandIDs(envelopes: seq<Envelope>): (ids: seq<string>)
    ensures |ids| == |envelopes|
  {
    seq(|envelopes|, i requires 0 <= i < |envelopes| => CommandID(envelopes[i]))
  }

  function IDs(commands: seq<CommandEnvelope>): (ids: seq<string>)
    ensures |ids| == |commands|
  {
    seq(|commands|, i requires 0 <= i < |commands| => commands[i].id)
  }

  lemma CommandIDsInOrder(a: seq<Envelope>, b: seq<Envelope>)
    requires InOrder(a, b)
    ensures InOrder(CommandIDs(a), CommandIDs(b))
  {
    var at :| Embeds(a, b, at);
    assert Embeds(CommandIDs(a), CommandIDs(b), at);
  }

  lemma GenuineID(k: Setup, e: Execution)
    requires Genuine(k, e)
    ensures WellFormedResponse(e.handled.response, e.env.id)
  {
    var answers, applied :| e.handled == HandleCommand(k.dec, k.registered, e.env, answers, applied);
    EveryCommandAnswered(k.dec, k.registered, e.env, answers, applied);
  }

  /** Responses are sent under the ids of the commands, in the order in which these were accepted. */
  lemma SentIDsArePrefix(k: Setup, s: State)
    requires Inv(k, s)
    ensures CommandIDs(ResponseEnvelopes(Sent(s))) <= IDs(Inboxes.Accepted(s.client.inb.arrivals))
  {
    var sent := CommandIDs(ResponseEnvelopes(Sent(s)));
    var accepted := Inboxes.Accepted(s.client.inb.arrivals);
    forall i | 0 <= i < |sent|
      ensures i < |accepted| && sent[i] == accepted[i].id
    {
      assert Sent(s)[i] == s.executed[i];
      GenuineID(k, s.executed[i]);
      assert Envs(s.executed)[i] == s.executed[i].env == s.client.inb.taken[i] == accepted[i];
    }
  }

  /**
   * In every run, over any number of reconnects, the command ids of the
   * responses on the wire are an in-order subsequence of the ids of the
   * commands accepted into the channel: at most one response per command, none
   * out of order.
   */
  lemma ResponseOrder(k: Setup, s: State)
    requires Reachable(k, s)
    ensures InOrder(CommandIDs(Responses(Wire(s.client.out))), IDs(Inboxes.Accepted(s.client.inb.arrivals)))
  {
    ReachableInv(k, s);
    var o := s.client.out;
    WireIsTyped(o);
    ResponsesAreProcessors(Wire(o));
    WireFollowsCalls(o, Processor);
    var sent := ResponseEnvelopes(Sent(s));
    CommandIDsInOrder(From(Wire(o), Processor), sent);
    SentIDsArePrefix(k, s);
    var ids := IDs(Inboxes.Accepted(s.client.inb.arrivals));
    PrefixInOrder(ids, |sent|);
    assert ids[..|sent|] == CommandIDs(sent);
    Transitive(CommandIDs(From(Wire(o), Processor)), CommandIDs(sent), ids);
  }

  /** Every command frame is exactly one of dropped, queued, in hand and executed. */
  lemma CommandAccounting(k: Setup, s: State)
    requires Reachable(k, s)
    ensures Inboxes.Accepted(s.client.inb.arrivals) == Envs(s.executed) + InHand(s.loop) + s.client.inb.queue
    ensures |s.client.inb.arrivals|
         == Inboxes.Dropped(s.client.inb.arrivals) + |s.client.inb.queue| + |InHand(s.loop)| + |s.executed|
  {
    ReachableInv(k, s);
  }

  /** Every executed command's response is sent once, in order; only the one in hand is not yet sent. */
  lemma ResponsesSentOnce(k: Setup, s: State)
    requires Reachable(k, s)
    ensures From(s.client.out.attempted, Processor) == ResponseEnvelopes(Sent(s))
    ensures Unsent(s.loop) ==> s.executed != [] && Sent(s) == s.executed[..|s.executed| - 1]
    ensures !Unsent(s.loop) ==> Sent(s) == s.executed
  {
    ReachableInv(k, s);
  }

  // ---- Bookkeeping ----

  /** A successful deployment among the executed commands, as the provider saw it. */
  ghost predicate DeploymentCalled(e: Execution, b: Booking) {
    && e.handled.response.data.Deployed?
    && e.handled.calls == [DeployCall(b.params.provider, b.params)]
    && b.result == e.handled.response.data.deploy
  }

  lemma GenuineBooking(k: Setup, e: Execution)
    requires Genuine(k, e)
    ensures BookingFor(k.dec, e.env, e.handled.response).Some? <==> e.handled.response.data.Deployed?
    ensures e.handled.response.data.Deployed?
        ==> DeploymentCalled(e, BookingFor(k.dec, e.env, e.handled.response).value)
  {
    var answers, applied :| e.handled == HandleCommand(k.dec, k.registered, e.env, answers, applied);
    BookingMatchesCall(k.dec, k.registered, e.env, answers, applied);
  }

  /** The executions that deployed something. */
  function Deployments(executed: seq<Execution>): seq<Execution> {
    if executed == [] then []
    else
      var last := executed[|executed| - 1];
      Deployments(executed[..|executed| - 1]) + (if last.handled.response.data.Deployed? then [last] else [])
  }

  lemma {:induction false} BookingsMatchDeployments(k: Setup, executed: seq<Execution>)
    requires forall i :: 0 <= i < |executed| ==> Genuine(k, executed[i])
    ensures |Bookings(k.dec, executed)| == |Deployments(executed)|
    ensures forall i :: 0 <= i < |Deployments(executed)|
              ==> DeploymentCalled(Deployments(executed)[i], Bookings(k.dec, executed)[i])
  {
    if executed != [] {
      BookingsMatchDeployments(k, executed[..|executed| - 1]);
      GenuineBooking(k, executed[|executed| - 1]);
    }
  }

  /**
   * Bookkeeping runs exactly once, in order, for every command that deployed
   * something and for no other, with the parameters of the provider call and
   * the result that is answered. Only the command being answered may be behind.
   */
  lemma BookedExactlyOnce(k: Setup, s: State)
    requires Reachable(k, s)
    ensures var deployed := Deployments(Decided(s));
            |s.booked| == |deployed|
            && forall i :: 0 <= i < |deployed| ==> DeploymentCalled(deployed[i], s.booked[i])
    ensures !s.loop.Answering? ==> Decided(s) == s.executed
  {
    ReachableInv(k, s);
    BookingsMatchDeployments(k, Decided(s));
  }

  // ---- Pod events ----

  /** On the wire, pod events are an in-order subsequence of the CreatePod and DeletePod calls. */
  lemma PodEventOrder(k: Setup, s: State)
    requires Reachable(k, s)
    ensures InOrder(PodEvents(Wire(s.client.out)), EventEnvelopes(s.calls))
  {
    ReachableInv(k, s);
    var o := s.client.out;
    WireIsTyped(o);
    PodEventsAreControllers(Wire(o));
    WireFollowsCalls(o, Controller);
    var all, announced := EventEnvelopes(s.calls), EventEnvelopes(Announced(s));
    PrefixInOrder(all, |announced|);
    assert all[..|announced|] == announced;
    Transitive(From(Wire(o), Controller), announced, all);
  }

  /** Each CreatePod and DeletePod call sends its event once, in order; that of the call in progress may be missing. */
  lemma EventsSentOnce(k: Setup, s: State)
    requires Reachable(k, s)
    ensures From(s.client.out.attempted, Controller) == EventEnvelopes(Announced(s))
    ensures s.worker.Announcing? ==> s.calls != [] && Announced(s) == s.calls[..|s.calls| - 1]
    ensures !s.worker.Announcing? ==> Announced(s) == s.calls
  {
    ReachableInv(k, s);
  }

  /** A pod_deleted event names the pod id of the latest deployment since the latest create, as of DeletePod's read. */
  lemma DeletionNamesLatestDeployment(k: Setup, s: State, i: nat)
    requires Reachable(k, s)
    requires i < |s.calls| && s.calls[i].event.PodDeleted?
    ensures var event := s.calls[i].event;
            && s.calls[i].at <= |s.history|
            && LatestDeployedID(
                 s.history[..s.calls[i].at], CacheKey(event.namespace, event.podName), event.providerPodID)
  {
    ReachableInv(k, s);
    var event := s.calls[i].event;
    assert Truthful(s.calls[i], s.history);
    ProviderPodIDIsLatest(
      s.history[..s.calls[i].at], CacheKey(event.namespace, event.podName), event.providerPodID);
  }

  // ---- The cache ----

  /** Whatever the interleaving, the entries of a key are those of replaying only the steps on that key. */
  lemma CacheIsolation(k: Setup, s: State, key: string)
    requires Reachable(k, s)
    ensures CellOf(s.cache, key) == CellOf(Replay(On(s.history, key)), key)
    ensures s.cache.infos.Keys <= s.cache.pods.Keys
  {
    ReachableInv(k, s);
    ReplayByKey(s.history, key);
    InfosHavePods(s.history);
  }

  lemma {:induction false} RejectionHolds(h: seq<Step>, n: nat, key: string, code: string, message: string)
    requires n <= |h| && IsRejected(Replay(h[..n]), key, code, message)
    requires forall i :: n <= i < |h| ==> !Lifts(h[i], key)
    ensures IsRejected(Replay(h), key, code, message)
  {
    if n == |h| {
      assert h[..n] == h;
    } else {
      var before := h[..|h| - 1];
      assert before[..n] == h[..n];
      RejectionHolds(before, n, key, code, message);
      StepKeepsRejection(Replay(before), h[|h| - 1], key, code, message);
    }
  }

  lemma RejectionRecorded(h: seq<Step>, n: nat, key: string, code: string, message: string)
    requires n < |h| && h[n] == Rejected(key, code, message) && code != ""
    requires key in Replay(h[..n]).infos
    ensures IsRejected(Replay(h[..n + 1]), key, code, message)
  {
    assert h[..n + 1] == h[..n] + [h[n]];
    ReplayAppend(h[..n], h[n]);
    InfosHavePods(h[..n]);
    RejectionTakes(Replay(h[..n]), key, code, message);
  }

  /**
   * In every run: from the step that rejects a tracked pod with a code, until a
   * step that creates, removes or rejects it, GetPodStatus reports the rejection.
   */
  lemma RejectionVisible(
    k: Setup, s: State, n: nat, key: string, code: string, message: string, poll: Option<StatusResult>)
    requires Reachable(k, s)
    requires n < |s.history| && s.history[n] == Rejected(key, code, message) && code != ""
    requires key in Replay(s.history[..n]).infos
    requires forall i :: n < i < |s.history| ==> !Lifts(s.history[i], key)
    ensures ShowsRejection(s.cache, key, code, message, poll)
  {
    ReachableInv(k, s);
    RejectionRecorded(s.history, n, key, code, message);
    RejectionHolds(s.history, n + 1, key, code, message);
    RejectedShows(s.cache, key, code, message, poll);
  }

  // ---- Progress ----

  /** The command loop can always go on until it has stopped, unless it waits for a command. */
  lemma LoopNotStuck(k: Setup, s: State) returns (a: Action)
    requires Reachable(k, s) && !s.loop.Stopped?
    requires s.loop.Idle? ==> s.client.inb.queue != []
    ensures Enabled(k, s, a) && !a.Net? && !OfWorker(a) && !a.StopLoop?
  {
    ReachableInv(k, s);
    a := LoopGoesOn(k, s);
  }

  /** A call of the controller's worker that has begun can always go on. */
  lemma WorkerNotStuck(k: Setup, s: State) returns (a: Action)
    requires Reachable(k, s) && !s.worker.Free?
    ensures Enabled(k, s, a) && OfWorker(a)
  {
    ReachableInv(k, s);
    a := WorkerGoesOn(k, s);
  }
}
