/**
 * The whole kubelet: the WebSocket client, the pod cache, the command loop and
 * the pod controller's single worker, interleaved at the granularity of their
 * critical sections and channel operations.
 */
module Kubelets {
  import opened Protocol
  import opened ManagerLogs
  import opened PodCaches
  import opened Commands
  import CM = ClientMachine

  /** What is fixed at start-up. */
  datatype Setup = Setup(net: Config, dec: Decoders, registered: set<string>)

  /** Program counter of processCommands. */
  datatype Loop =
    | Idle
    | Executing(env: CommandEnvelope)
    | Rejecting(env: CommandEnvelope, params: RejectParams, version: nat)  // rejected, pod object not yet notified
    | Answering(env: CommandEnvelope, response: Response)                  // executed, bookkeeping still to be decided
    | Notifying(env: CommandEnvelope, response: Response, key: string, version: nat)
    | Sending(env: CommandEnvelope, response: Response)
    | Queueing(env: CommandEnvelope, response: Response)
    | Stopped

  /** Program counter of the controller's worker; a deletion removes the pod after sending. */
  datatype Worker =
    | Free
    | Announcing(event: Event, removing: Option<string>)
    | Pushing(event: Event, removing: Option<string>)
    | Removing(key: string)

  /** An executed command and what became of it. */
  datatype Execution = Execution(env: CommandEnvelope, handled: Handled)

  /** A pod event and the length of the cache's history when its content was determined. */
  datatype Call = Call(event: Event, at: nat)

  datatype State = State(
    client: CM.State,
    cache: Cache,
    history: seq<Step>,
    loop: Loop,
    worker: Worker,
    executed: seq<Execution>,
    booked: seq<Booking>,
    calls: seq<Call>)

  datatype Action =
    | Net(step: CM.Action)
    | TakeCommand
    | Execute(answers: Answers)
    | Reject
    | NotifyRejected(notified: bool)
    | Book
    | NotifyDeployed(notified: bool)
    | SendResponse
    | PushResponse
    | StopLoop
    | CreatePod(pod: Pod)
    | UpdatePod(pod: Pod)
    | DeletePod(meta: PodMeta)
    | SendEvent
    | PushEvent
    | RemovePod

  function Init(k: Setup): State {
    State(CM.Init(k.net), PodCaches.EMPTY, [], Idle, Free, [], [], [])
  }

  function KeyOf(m: PodMeta): string {
    CacheKey(m.namespace, m.name)
  }

  function ResponseEnvelope(r: Response): Envelope {
    Envelope(Processor, ResponseBody(r))
  }

  function EventEnvelope(e: Event): Envelope {
    Envelope(Controller, EventBody(e))
  }

  /** Which goroutine sends which kind of envelope. */
  predicate Typed(e: Envelope) {
    match e.body
    case ResponseBody(_) => e.sender == Processor
    case EventBody(event) => if event.KubeletReady? then e.sender.OnConnect? else e.sender == Controller
    case HeartbeatBody => e.sender == Ticker
    case RegistrationBody => e.sender.OnConnect?
  }

  /** Client actions that belong to neither the command loop nor the controller's worker. */
  predicate Background(a: CM.Action) {
    match a
    case CallSend(e) => Typed(e) && e.sender != Processor && e.sender != Controller
    case TrySend(x) => x != Processor && x != Controller
    case TakeCommand => false
    case _ => true
  }

  predicate Enabled(k: Setup, s: State, a: Action) {
    match a
    case Net(b) => Background(b) && CM.Enabled(s.client, b)
    case TakeCommand => s.loop.Idle? && CM.Enabled(s.client, CM.TakeCommand)
    case Execute(_) => s.loop.Executing? && RejectionOf(k.dec, s.loop.env).None?
    case Reject => s.loop.Executing? && RejectionOf(k.dec, s.loop.env).Some?
    case NotifyRejected(_) => s.loop.Rejecting?
    case Book => s.loop.Answering?
    case NotifyDeployed(_) => s.loop.Notifying?
    case SendResponse => s.loop.Sending? && CM.Enabled(s.client, CM.CallSend(ResponseEnvelope(s.loop.response)))
    case PushResponse => s.loop.Queueing? && CM.Enabled(s.client, CM.TrySend(Processor))
    case StopLoop => s.loop.Idle?
    case CreatePod(_) => s.worker.Free?
    case UpdatePod(_) => s.worker.Free?
    case DeletePod(_) => s.worker.Free?
    case SendEvent => s.worker.Announcing? && CM.Enabled(s.client, CM.CallSend(EventEnvelope(s.worker.event)))
    case PushEvent => s.worker.Pushing? && CM.Enabled(s.client, CM.TrySend(Controller))
    case RemovePod => s.worker.Removing?
  }

  function OnCache(s: State, step: Step): State {
    s.(cache := Apply(s.cache, step), history := s.history + [step])
  }

  function OnClient(k: Setup, s: State, a: CM.Action): State
    requires CM.Enabled(s.client, a)
  {
    s.(client := CM.Next(k.net, s.client, a))
  }

  /** The command is answered with what the handler made of it. */
  function Answer(s: State, env: CommandEnvelope, h: Handled): State {
    s.(loop := Answering(env, h.response), executed := s.executed + [Execution(env, h)])
  }

  /** Answers for a rejection command: no provider is involved. */
  const NO_ANSWERS := Answers(Err(OtherError("")), Err(OtherError("")), Err(OtherError("")))

  function Worked(removing: Option<string>): Worker {
    if removing.Some? then Removing(removing.value) else Free
  }

  function LoopNext(k: Setup, s: State, a: Action): State
    requires Enabled(k, s, a)
  {
    match a
    case TakeCommand => OnClient(k, s, CM.TakeCommand).(loop := Executing(s.client.inb.queue[0]))
    case Execute(answers) =>
      Answer(s, s.loop.env, HandleCommand(k.dec, k.registered, s.loop.env, answers, NoCallback))
    case Reject =>
      var p := RejectionOf(k.dec, s.loop.env).value;
      var key := PodKey(p.namespace, p.podName);
      var t := OnCache(s, Rejected(key, p.code, p.message));
      if key in s.cache.pods then t.(loop := Rejecting(s.loop.env, p, s.cache.pods[key].version))
      else
        var applied := NotApplied("pod " + key + " not found");
        Answer(t, s.loop.env, HandleCommand(k.dec, k.registered, s.loop.env, NO_ANSWERS, applied))
    case NotifyRejected(notified) =>
      var p := s.loop.params;
      var report := Report("Failed", p.code, p.message);
      var t := if notified then OnCache(s, SetReport(PodKey(p.namespace, p.podName), s.loop.version, report)) else s;
      Answer(t, s.loop.env, HandleCommand(k.dec, k.registered, s.loop.env, NO_ANSWERS, Applied))
    case Book =>
      (match BookingFor(k.dec, s.loop.env, s.loop.response)
       case None => s.(loop := Sending(s.loop.env, s.loop.response))
       case Some(b) =>
         var key := PodKey(b.params.namespace, b.params.podName);
         var t := OnCache(s, Step.Deployed(key, b.params.provider, b.result)).(booked := s.booked + [b]);
         t.(loop := if key in s.cache.pods then Notifying(s.loop.env, s.loop.response, key, s.cache.pods[key].version)
                    else Sending(s.loop.env, s.loop.response)))
    case NotifyDeployed(notified) =>
      var t := if notified then OnCache(s, SetReport(s.loop.key, s.loop.version, WAITING)) else s;
      t.(loop := Sending(s.loop.env, s.loop.response))
    case SendResponse =>
      OnClient(k, s, CM.CallSend(ResponseEnvelope(s.loop.response)))
      .(loop := if s.client.connected then Queueing(s.loop.env, s.loop.response) else Idle)
    case PushResponse => OnClient(k, s, CM.TrySend(Processor)).(loop := Idle)
    case StopLoop => s.(loop := Stopped)
    case _ => s
  }

  function WorkerNext(k: Setup, s: State, a: Action): State
    requires Enabled(k, s, a)
  {
    match a
    case CreatePod(pod) =>
      var event := PodCreated(pod.meta.name, pod.meta.namespace, pod.meta.uid);
      OnCache(s, Create(KeyOf(pod.meta), pod))
      .(worker := Announcing(event, None), calls := s.calls + [Call(event, |s.history|)])
    case UpdatePod(pod) => OnCache(s, Update(KeyOf(pod.meta), pod))
    case DeletePod(m) =>
      var event := PodDeleted(m.name, m.namespace, m.uid, ProviderPodID(s.cache, KeyOf(m)));
      s.(worker := Announcing(event, Some(KeyOf(m))), calls := s.calls + [Call(event, |s.history|)])
    case SendEvent =>
      OnClient(k, s, CM.CallSend(EventEnvelope(s.worker.event)))
      .(worker := if s.client.connected then Pushing(s.worker.event, s.worker.removing) else Worked(s.worker.removing))
    case PushEvent => OnClient(k, s, CM.TrySend(Controller)).(worker := Worked(s.worker.removing))
    case RemovePod => OnCache(s, Remove(s.worker.key)).(worker := Free)
    case _ => s
  }

  predicate OfWorker(a: Action) {
    a.CreatePod? || a.UpdatePod? || a.DeletePod? || a.SendEvent? || a.PushEvent? || a.RemovePod?
  }

  function Next(k: Setup, s: State, a: Action): State
    requires Enabled(k, s, a)
  {
    if a.Net? then OnClient(k, s, a.step)
    else if OfWorker(a) then WorkerNext(k, s, a)
    else LoopNext(k, s, a)
  }

  /** The client action that a step performs, if any. */
  function ClientAction(k: Setup, s: State, a: Action): Option<CM.Action>
    requires Enabled(k, s, a)
  {
    match a
    case Net(b) => Some(b)
    case TakeCommand => Some(CM.TakeCommand)
    case SendResponse => Some(CM.CallSend(ResponseEnvelope(s.loop.response)))
    case PushResponse => Some(CM.TrySend(Processor))
    case SendEvent => Some(CM.CallSend(EventEnvelope(s.worker.event)))
    case PushEvent => Some(CM.TrySend(Controller))
    case _ => None
  }

  ghost predicate Runs(k: Setup, s: State, acts: seq<Action>)
    decreases |acts|
  {
    acts == [] || (Enabled(k, s, acts[0]) && Runs(k, Next(k, s, acts[0]), acts[1..]))
  }

  ghost function After(k: Setup, s: State, acts: seq<Action>): State
    requires Runs(k, s, acts)
    decreases |acts|
  {
    if acts == [] then s else After(k, Next(k, s, acts[0]), acts[1..])
  }
}
