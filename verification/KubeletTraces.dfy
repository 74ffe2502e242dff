/** The kubelet's histories tied to each other and to the calls that were made. */
module KubeletTraces {
  import opened Protocol
  import opened PodCaches
  import opened Commands
  import opened Kubelets
  import opened KubeletInvariants
  import CM = ClientMachine
  import CT = ClientTheorems

  // ---- The client inside the kubelet ----

  /** The client's share of a run. */
  ghost function ClientActions(k: Setup, s: State, acts: seq<Action>): seq<CM.Action>
    requires Runs(k, s, acts)
    decreases |acts|
  {
    if acts == [] then []
    else
      (match ClientAction(k, s, acts[0]) case None => [] case Some(b) => [b])
      + ClientActions(k, Next(k, s, acts[0]), acts[1..])
  }

  /** Seen from the client, a run of the kubelet is a run of the client. */
  lemma {:induction false} ClientProjection(k: Setup, s: State, acts: seq<Action>)
    requires Runs(k, s, acts)
    ensures CM.Runs(k.net, s.client, ClientActions(k, s, acts))
    ensures CM.After(k.net, s.client, ClientActions(k, s, acts)) == After(k, s, acts).client
    decreases |acts|
  {
    if acts != [] {
      var a, t := acts[0], Next(k, s, acts[0]);
      StepIsClientStep(k, s, a);
      ClientProjection(k, t, acts[1..]);
      var rest := ClientActions(k, t, acts[1..]);
      match ClientAction(k, s, a)
      case None => assert [] + rest == rest;
      case Some(b) => assert ([b] + rest)[1..] == rest;
    }
  }

  /** Hence everything proved of the client alone holds of the client in the kubelet. */
  lemma ClientReachable(k: Setup, s: State)
    requires Reachable(k, s)
    ensures CT.Reachable(k.net, s.client)
  {
    var acts :| Runs(k, Init(k), acts) && s == After(k, Init(k), acts);
    ClientProjection(k, Init(k), acts);
  }

  // ---- Cache steps of commands ----

  function DeploySteps(h: seq<Step>): seq<Step> {
    if h == [] then []
    else DeploySteps(h[..|h| - 1]) + (if h[|h| - 1].Deployed? then [h[|h| - 1]] else [])
  }

  function RejectSteps(h: seq<Step>): seq<Step> {
    if h == [] then []
    else RejectSteps(h[..|h| - 1]) + (if h[|h| - 1].Rejected? then [h[|h| - 1]] else [])
  }

  lemma StepsAppend(h: seq<Step>, step: Step)
    ensures DeploySteps(h + [step]) == (if step.Deployed? then DeploySteps(h) + [step] else DeploySteps(h))
    ensures RejectSteps(h + [step]) == (if step.Rejected? then RejectSteps(h) + [step] else RejectSteps(h))
  {
    assert (h + [step])[..|h|] == h;
    assert DeploySteps(h) + [] == DeploySteps(h) && RejectSteps(h) + [] == RejectSteps(h);
  }

  /** The cache step that a booking makes. */
  function BookingStep(b: Booking): Step {
    Step.Deployed(PodKey(b.params.namespace, b.params.podName), b.params.provider, b.result)
  }

  function BookingSteps(booked: seq<Booking>): (r: seq<Step>)
    ensures |r| == |booked|
  {
    seq(|booked|, i requires 0 <= i < |booked| => BookingStep(booked[i]))
  }

  /** The cache step that a rejection command makes. */
  function RejectionStep(p: RejectParams): Step {
    Rejected(PodKey(p.namespace, p.podName), p.code, p.message)
  }

  function RejectionSteps(dec: Decoders, executed: seq<Execution>): seq<Step> {
    if executed == [] then []
    else
      var last := RejectionOf(dec, executed[|executed| - 1].env);
      RejectionSteps(dec, executed[..|executed| - 1]) + (if last.Some? then [RejectionStep(last.value)] else [])
  }

  lemma RejectionsAppend(dec: Decoders, executed: seq<Execution>, e: Execution)
    ensures RejectionSteps(dec, executed + [e])
         == RejectionSteps(dec, executed)
            + (if RejectionOf(dec, e.env).Some? then [RejectionStep(RejectionOf(dec, e.env).value)] else [])
  {
    assert (executed + [e])[..|executed|] == executed;
  }

  /** Deployments reach the cache through bookings only, one step each, in order. */
  ghost predicate DeploysBooked(s: State) {
    DeploySteps(s.history) == BookingSteps(s.booked)
  }

  /** Every well-formed rejection command reaches the cache exactly once, in order. */
  ghost predicate RejectsApplied(k: Setup, s: State) {
    && (s.loop.Rejecting? ==> RejectionOf(k.dec, s.loop.env) == Some(s.loop.params))
    && RejectSteps(s.history)
       == RejectionSteps(k.dec, s.executed) + (if s.loop.Rejecting? then [RejectionStep(s.loop.params)] else [])
  }

  /** Only Book records a deployment, only Reject a rejection. */
  lemma StepKinds(k: Setup, s: State, a: Action)
    requires Enabled(k, s, a)
    ensures var h, h' := s.history, Next(k, s, a).history;
            || h' == h
            || (&& |h'| == |h| + 1 && h' == h + [h'[|h|]]
                && (h'[|h|].Deployed? ==> a.Book?) && (h'[|h|].Rejected? ==> a.Reject?))
  {
  }

  lemma OnlyBookDeploys(k: Setup, s: State, a: Action)
    requires Enabled(k, s, a) && !a.Book?
    ensures DeploySteps(Next(k, s, a).history) == DeploySteps(s.history)
  {
    var h' := Next(k, s, a).history;
    StepKinds(k, s, a);
    if h' != s.history {
      StepsAppend(s.history, h'[|s.history|]);
    }
  }

  /** Book records a booking and makes its cache step, or does neither. */
  lemma BookEffects(k: Setup, s: State)
    requires Enabled(k, s, Book)
    ensures var t := Next(k, s, Book);
            || (t.booked == s.booked && t.history == s.history)
            || (|t.booked| == |s.booked| + 1 && t.booked == s.booked + [t.booked[|s.booked|]]
                && t.history == s.history + [BookingStep(t.booked[|s.booked|])])
  {
  }

  lemma BookingsAppend(booked: seq<Booking>, b: Booking)
    ensures BookingSteps(booked + [b]) == BookingSteps(booked) + [BookingStep(b)]
  {
  }

  lemma BookDeploysOnce(k: Setup, s: State)
    requires Enabled(k, s, Book) && DeploysBooked(s)
    ensures DeploysBooked(Next(k, s, Book))
  {
    var t := Next(k, s, Book);
    BookEffects(k, s);
    if t.booked != s.booked {
      var b := t.booked[|s.booked|];
      StepsAppend(s.history, BookingStep(b));
      BookingsAppend(s.booked, b);
    }
  }

  lemma StepKeepsDeploysBooked(k: Setup, s: State, a: Action)
    requires Enabled(k, s, a) && DeploysBooked(s)
    ensures DeploysBooked(Next(k, s, a))
  {
    if a.Book? {
      BookDeploysOnce(k, s);
    } else {
      ExecutionEffects(k, s, a);
      OnlyBookDeploys(k, s, a);
    }
  }

  lemma OnlyRejectRejects(k: Setup, s: State, a: Action)
    requires Enabled(k, s, a) && !a.Reject?
    ensures RejectSteps(Next(k, s, a).history) == RejectSteps(s.history)
  {
    var h' := Next(k, s, a).history;
    StepKinds(k, s, a);
    if h' != s.history {
      StepsAppend(s.history, h'[|s.history|]);
    }
  }

  /** `t` has executed one more command than `s`. */
  ghost predicate OneMore(s: State, t: State, env: CommandEnvelope) {
    && t.loop.Answering? && |t.executed| == |s.executed| + 1
    && t.executed == s.executed + [t.executed[|s.executed|]]
    && t.executed[|s.executed|].env == env
  }

  lemma RejectEffects(k: Setup, s: State)
    requires Enabled(k, s, Reject)
    ensures var t, p := Next(k, s, Reject), RejectionOf(k.dec, s.loop.env).value;
            && t.history == s.history + [RejectionStep(p)]
            && (|| OneMore(s, t, s.loop.env)
                || (t.loop.Rejecting? && t.loop.env == s.loop.env && t.loop.params == p && t.executed == s.executed))
  {
  }

  lemma RejectKeepsApplied(k: Setup, s: State)
    requires Enabled(k, s, Reject) && RejectsApplied(k, s)
    ensures RejectsApplied(k, Next(k, s, Reject))
  {
    var t := Next(k, s, Reject);
    RejectEffects(k, s);
    StepsAppend(s.history, RejectionStep(RejectionOf(k.dec, s.loop.env).value));
    NothingAdded(RejectionSteps(k.dec, s.executed));
    if t.loop.Answering? {
      RejectionsAppend(k.dec, s.executed, t.executed[|s.executed|]);
      NothingAdded(RejectionSteps(k.dec, t.executed));
    }
  }

  lemma NothingAdded(steps: seq<Step>)
    ensures steps + [] == steps
  {
  }

  lemma ExecuteEffects(k: Setup, s: State, a: Action)
    requires Enabled(k, s, a) && (a.Execute? || a.NotifyRejected?)
    ensures OneMore(s, Next(k, s, a), s.loop.env)
  {
  }

  lemma ExecuteKeepsApplied(k: Setup, s: State, a: Action)
    requires Enabled(k, s, a) && RejectsApplied(k, s) && (a.Execute? || a.NotifyRejected?)
    ensures RejectsApplied(k, Next(k, s, a))
  {
    var t := Next(k, s, a);
    OnlyRejectRejects(k, s, a);
    ExecuteEffects(k, s, a);
    RejectionsAppend(k.dec, s.executed, t.executed[|s.executed|]);
    NothingAdded(RejectionSteps(k.dec, s.executed));
    NothingAdded(RejectionSteps(k.dec, t.executed));
  }

  lemma OtherLoopEffects(k: Setup, s: State, a: Action)
    requires Enabled(k, s, a) && !a.Execute? && !a.NotifyRejected? && !a.Reject?
    ensures Next(k, s, a).executed == s.executed
    ensures Next(k, s, a).loop.Rejecting? <==> s.loop.Rejecting?
    ensures s.loop.Rejecting? ==> Next(k, s, a).loop == s.loop
  {
  }

  lemma StepKeepsRejectsApplied(k: Setup, s: State, a: Action)
    requires Enabled(k, s, a) && RejectsApplied(k, s)
    ensures RejectsApplied(k, Next(k, s, a))
  {
    if a.Reject? {
      RejectKeepsApplied(k, s);
    } else if a.Execute? || a.NotifyRejected? {
      ExecuteKeepsApplied(k, s, a);
    } else {
      OnlyRejectRejects(k, s, a);
      OtherLoopEffects(k, s, a);
    }
  }

  // ---- The controller's calls ----

  /** What identifies a pod event, apart from the provider's pod id. */
  datatype Named = Named(deleted: bool, podName: string, namespace: string, uid: string)

  function NameOf(e: Event): Named {
    match e
    case PodCreated(name, namespace, uid) => Named(false, name, namespace, uid)
    case PodDeleted(name, namespace, uid, _) => Named(true, name, namespace, uid)
    case KubeletReady(_) => Named(false, "", "", "")
  }

  /** The events that CreatePod and DeletePod calls must announce. */
  function Due(acts: seq<Action>): seq<Named> {
    if acts == [] then []
    else
      (match acts[0]
       case CreatePod(pod) => [Named(false, pod.meta.name, pod.meta.namespace, pod.meta.uid)]
       case DeletePod(m) => [Named(true, m.name, m.namespace, m.uid)]
       case _ => [])
      + Due(acts[1..])
  }

  function Names(calls: seq<Call>): (r: seq<Named>)
    ensures |r| == |calls|
  {
    seq(|calls|, i requires 0 <= i < |calls| => NameOf(calls[i].event))
  }

  lemma StepCalls(k: Setup, s: State, a: Action)
    requires Enabled(k, s, a)
    ensures Names(Next(k, s, a).calls) == Names(s.calls) + Due([a])
  {
    var t := Next(k, s, a);
    if a.CreatePod? || a.DeletePod? {
      assert t.calls == s.calls + [t.calls[|s.calls|]];
      assert Due([a]) == [NameOf(t.calls[|s.calls|].event)] + Due([]);
    } else {
      assert t.calls == s.calls;
      assert Due([a]) == [];
    }
  }

  /** Every CreatePod and DeletePod call makes one event of its own kind and pod, in call order. */
  lemma {:induction false} CallsAnnounced(k: Setup, s: State, acts: seq<Action>)
    requires Runs(k, s, acts)
    ensures Names(After(k, s, acts).calls) == Names(s.calls) + Due(acts)
    decreases |acts|
  {
    if acts == [] {
      assert Names(s.calls) + [] == Names(s.calls);
    } else {
      var a, t := acts[0], Next(k, s, acts[0]);
      StepCalls(k, s, a);
      CallsAnnounced(k, t, acts[1..]);
      DueFirst(acts);
      Regroup(Names(s.calls), Due([a]), Due(acts[1..]));
    }
  }

  lemma DueFirst(acts: seq<Action>)
    requires acts != []
    ensures Due(acts) == Due([acts[0]]) + Due(acts[1..])
  {
    assert [acts[0]][1..] == [];
  }

  lemma Regroup(a: seq<Named>, b: seq<Named>, c: seq<Named>)
    ensures (a + b) + c == a + (b + c)
  {
  }

  // ---- The controller's cache steps ----

  predicate IsController(step: Step) {
    step.Create? || step.Update? || step.Remove?
  }

  /** The creates, updates and removals in a history. */
  function ControllerSteps(h: seq<Step>): seq<Step> {
    if h == [] then []
    else ControllerSteps(h[..|h| - 1]) + (if IsController(h[|h| - 1]) then [h[|h| - 1]] else [])
  }

  /** The removal that a DeletePod call in progress still owes. */
  function Owed(w: Worker): seq<Step> {
    match w
    case Announcing(_, Some(key)) => [Remove(key)]
    case Pushing(_, Some(key)) => [Remove(key)]
    case Removing(key) => [Remove(key)]
    case _ => []
  }

  function OwedBy(a: Action): seq<Step> {
    match a
    case CreatePod(pod) => [Create(KeyOf(pod.meta), pod)]
    case UpdatePod(pod) => [Update(KeyOf(pod.meta), pod)]
    case DeletePod(m) => [Remove(KeyOf(m))]
    case _ => []
  }

  /** The cache steps that the controller's calls must make. */
  function OwedSteps(acts: seq<Action>): seq<Step> {
    if acts == [] then [] else OwedBy(acts[0]) + OwedSteps(acts[1..])
  }

  lemma ControllerAppend(h: seq<Step>, step: Step)
    ensures ControllerSteps(h + [step])
         == (if IsController(step) then ControllerSteps(h) + [step] else ControllerSteps(h))
  {
    assert (h + [step])[..|h|] == h;
    NothingAdded(ControllerSteps(h));
  }

  /** The steps made and those still owed. */
  function Account(s: State): seq<Step> {
    ControllerSteps(s.history) + Owed(s.worker)
  }

  /** Each action of the worker pays with a step, or leaves the debt as it is. */
  lemma WorkerPays(k: Setup, s: State, a: Action)
    requires Enabled(k, s, a) && OfWorker(a)
    ensures var t := Next(k, s, a);
            || (a.CreatePod? && Owed(s.worker) == Owed(t.worker) == [] && t.history == s.history + OwedBy(a))
            || (a.UpdatePod? && Owed(s.worker) == Owed(t.worker) == [] && t.history == s.history + OwedBy(a))
            || (a.DeletePod? && Owed(s.worker) == [] && Owed(t.worker) == OwedBy(a) && t.history == s.history)
            || (a.RemovePod? && Owed(t.worker) == OwedBy(a) == [] && t.history == s.history + Owed(s.worker))
            || (Owed(s.worker) == Owed(t.worker) && OwedBy(a) == [] && t.history == s.history)
  {
  }

  lemma OthersPayNothing(k: Setup, s: State, a: Action)
    requires Enabled(k, s, a) && !OfWorker(a)
    ensures Next(k, s, a).worker == s.worker && OwedBy(a) == []
    ensures ControllerSteps(Next(k, s, a).history) == ControllerSteps(s.history)
  {
    var h, h' := s.history, Next(k, s, a).history;
    LoopRecords(k, s, a);
    if h' != h {
      ControllerAppend(h, h'[|h|]);
    }
  }

  lemma LoopRecords(k: Setup, s: State, a: Action)
    requires Enabled(k, s, a) && !OfWorker(a)
    ensures var h, h' := s.history, Next(k, s, a).history;
            h' == h || (|h'| == |h| + 1 && h' == h + [h'[|h|]] && !IsController(h'[|h|]))
  {
  }

  lemma StepPays(k: Setup, s: State, a: Action)
    requires Enabled(k, s, a)
    ensures Account(Next(k, s, a)) == Account(s) + OwedBy(a)
  {
    var t := Next(k, s, a);
    var done := ControllerSteps(s.history);
    if OfWorker(a) {
      WorkerPays(k, s, a);
      if t.history != s.history {
        ControllerAppend(s.history, t.history[|s.history|]);
      }
    } else {
      OthersPayNothing(k, s, a);
    }
    NothingAdded(Account(s));
    NothingAdded(done);
  }

  /**
   * The creates, updates and removals in the cache's history are those of the
   * controller's calls, each once and in order; a DeletePod call in progress
   * still owes the last one.
   */
  lemma {:induction false} ControllerStepsExactlyOnce(k: Setup, s: State, acts: seq<Action>)
    requires Runs(k, s, acts)
    ensures Account(After(k, s, acts)) == Account(s) + OwedSteps(acts)
    decreases |acts|
  {
    if acts == [] {
      NothingAdded(Account(s));
    } else {
      StepPays(k, s, acts[0]);
      ControllerStepsExactlyOnce(k, Next(k, s, acts[0]), acts[1..]);
      RegroupSteps(Account(s), OwedBy(acts[0]), OwedSteps(acts[1..]));
    }
  }

  lemma RegroupSteps(a: seq<Step>, b: seq<Step>, c: seq<Step>)
    ensures (a + b) + c == a + (b + c)
  {
  }

  // ---- Over runs ----

  lemma {:induction false} RunKeepsCommandSteps(k: Setup, s: State, acts: seq<Action>)
    requires Runs(k, s, acts) && DeploysBooked(s) && RejectsApplied(k, s)
    ensures DeploysBooked(After(k, s, acts)) && RejectsApplied(k, After(k, s, acts))
    decreases |acts|
  {
    if acts != [] {
      StepKeepsDeploysBooked(k, s, acts[0]);
      StepKeepsRejectsApplied(k, s, acts[0]);
      RunKeepsCommandSteps(k, Next(k, s, acts[0]), acts[1..]);
    }
  }

  /**
   * In every run the deployments in the cache's history are the bookings, and
   * the rejections in it are those of the executed rejection commands (and of
   * the one in hand), each once and in order.
   */
  lemma CommandStepsExactlyOnce(k: Setup, s: State)
    requires Reachable(k, s)
    ensures DeploySteps(s.history) == BookingSteps(s.booked)
    ensures RejectSteps(s.history)
         == RejectionSteps(k.dec, s.executed) + (if s.loop.Rejecting? then [RejectionStep(s.loop.params)] else [])
  {
    var acts :| Runs(k, Init(k), acts) && s == After(k, Init(k), acts);
    RunKeepsCommandSteps(k, Init(k), acts);
  }
}
