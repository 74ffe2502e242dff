/**
 * The command loop (processCommands in pkg/virtual_kubelet/kubelet.go) run on
 * the pod cache object, against a script of commands and provider answers, and
 * its relation to the interleaved machine.
 */
module CommandLoops {
  import opened Protocol
  import opened PodCaches
  import opened PodCacheObjects
  import opened Commands
  import opened Kubelets

  /** A command and what the providers answer while it is executed. */
  datatype Job = Job(env: CommandEnvelope, answers: Answers)

  /** What the rejection callback reports for this command, given the cached pods. */
  function RejectOutcomeFor(dec: Decoders, keys: set<string>, env: CommandEnvelope): RejectOutcome {
    match RejectionOf(dec, env)
    case None => NoCallback
    case Some(p) =>
      var key := PodKey(p.namespace, p.podName);
      if key in keys then Applied else NotApplied("pod " + key + " not found")
  }

  function Respond(dec: Decoders, registered: set<string>, s: Cache, job: Job): Response {
    HandleCommand(dec, registered, job.env, job.answers, RejectOutcomeFor(dec, s.pods.Keys, job.env)).response
  }

  /** The cache after a command that was answered with `response`. */
  function Processed(dec: Decoders, s: Cache, env: CommandEnvelope, response: Response, notifying: bool): Cache {
    match RejectionOf(dec, env)
    case Some(p) =>
      var key := PodKey(p.namespace, p.podName);
      Notified(Apply(s, Rejected(key, p.code, p.message)), key, Report("Failed", p.code, p.message), notifying)
    case None =>
      Accounted(s, BookingFor(dec, env, response), notifying)
  }

  /** The cache after the bookkeeping of a deployment, if there is one to book. */
  function Accounted(s: Cache, booking: Option<Booking>, notifying: bool): Cache {
    match booking
    case None => s
    case Some(b) =>
      var key := PodKey(b.params.namespace, b.params.podName);
      Notified(Apply(s, Step.Deployed(key, b.params.provider, b.result)), key, WAITING, notifying)
  }

  function CacheAfter(dec: Decoders, registered: set<string>, s: Cache, jobs: seq<Job>, notifying: bool): Cache {
    if jobs == [] then s
    else
      var last := jobs[|jobs| - 1];
      var before := CacheAfter(dec, registered, s, jobs[..|jobs| - 1], notifying);
      Processed(dec, before, last.env, Respond(dec, registered, before, last), notifying)
  }

  function ResponsesTo(
    dec: Decoders, registered: set<string>, s: Cache, jobs: seq<Job>, notifying: bool): seq<Response>
  {
    if jobs == [] then []
    else
      var front := jobs[..|jobs| - 1];
      ResponsesTo(dec, registered, s, front, notifying)
      + [Respond(dec, registered, CacheAfter(dec, registered, s, front, notifying), jobs[|jobs| - 1])]
  }

  /** One response per command, in order, under the command's id, with data or an error. */
  lemma {:induction false} OneResponseEach(
    dec: Decoders, registered: set<string>, s: Cache, jobs: seq<Job>, notifying: bool)
    ensures |ResponsesTo(dec, registered, s, jobs, notifying)| == |jobs|
    ensures forall i :: 0 <= i < |jobs|
              ==> WellFormedResponse(ResponsesTo(dec, registered, s, jobs, notifying)[i], jobs[i].env.id)
  {
    if jobs != [] {
      var front, last := jobs[..|jobs| - 1], jobs[|jobs| - 1];
      OneResponseEach(dec, registered, s, front, notifying);
      var keys := CacheAfter(dec, registered, s, front, notifying).pods.Keys;
      EveryCommandAnswered(dec, registered, last.env, last.answers, RejectOutcomeFor(dec, keys, last.env));
    }
  }

  /** The same pods with the same specifications, and records for the same pods. */
  ghost predicate SamePods(s: Cache, t: Cache) {
    && t.pods.Keys == s.pods.Keys && t.infos.Keys == s.infos.Keys
    && forall k :: k in s.pods ==> t.pods[k].pod.meta == s.pods[k].pod.meta
  }

  lemma NotifiedKeepsPods(s: Cache, key: string, report: Report, notifying: bool)
    ensures SamePods(s, Notified(s, key, report, notifying))
  {
  }

  lemma CommandKeepsPods(s: Cache, step: Step)
    requires IsCommand(step)
    ensures SamePods(s, Apply(s, step))
  {
    CommandsKeepKeysAndSpecs(s, step);
  }

  lemma SamePodsTransitive(s: Cache, t: Cache, u: Cache)
    requires SamePods(s, t) && SamePods(t, u)
    ensures SamePods(s, u)
  {
  }

  lemma StepAndNotification(s: Cache, step: Step, key: string, report: Report, notifying: bool)
    requires IsCommand(step)
    ensures SamePods(s, Notified(Apply(s, step), key, report, notifying))
  {
    CommandKeepsPods(s, step);
    NotifiedKeepsPods(Apply(s, step), key, report, notifying);
    SamePodsTransitive(s, Apply(s, step), Notified(Apply(s, step), key, report, notifying));
  }

  lemma ProcessedKeepsPods(dec: Decoders, s: Cache, env: CommandEnvelope, response: Response, notifying: bool)
    ensures SamePods(s, Processed(dec, s, env, response, notifying))
  {
    match RejectionOf(dec, env)
    case Some(p) =>
      var key := PodKey(p.namespace, p.podName);
      StepAndNotification(s, Rejected(key, p.code, p.message), key, Report("Failed", p.code, p.message), notifying);
    case None =>
      match BookingFor(dec, env, response)
      case None =>
      case Some(b) =>
        var key := PodKey(b.params.namespace, b.params.podName);
        StepAndNotification(s, Step.Deployed(key, b.params.provider, b.result), key, WAITING, notifying);
  }

  /** However many commands are processed: no pod appears, disappears or changes its specification. */
  lemma {:induction false} CommandsLeavePods(
    dec: Decoders, registered: set<string>, s: Cache, jobs: seq<Job>, notifying: bool)
    ensures SamePods(s, CacheAfter(dec, registered, s, jobs, notifying))
  {
    if jobs != [] {
      var front, last := jobs[..|jobs| - 1], jobs[|jobs| - 1];
      var before := CacheAfter(dec, registered, s, front, notifying);
      CommandsLeavePods(dec, registered, s, front, notifying);
      ProcessedKeepsPods(dec, before, last.env, Respond(dec, registered, before, last), notifying);
      SamePodsTransitive(s, before, CacheAfter(dec, registered, s, jobs, notifying));
    }
  }

  /** A rejection is never booked. */
  lemma RejectionsAreNotBooked(
    dec: Decoders, registered: set<string>, env: CommandEnvelope, answers: Answers, applied: RejectOutcome)
    requires RejectionOf(dec, env).Some?
    ensures BookingFor(dec, env, HandleCommand(dec, registered, env, answers, applied).response).None?
  {
    BookingMatchesCall(dec, registered, env, answers, applied);
    DeployedIff(dec, registered, env, answers, applied);
  }

  /** A round in which the command is a well-formed rejection. */
  method ProcessRejection(
    cache: PodCache, dec: Decoders, registered: set<string>, job: Job, params: RejectParams, notifying: bool)
    returns (response: Response)
    requires cache.Valid() && RejectionOf(dec, job.env) == Some(params)
    modifies cache.Records(), cache.pods.Values
    ensures cache.Valid()
    ensures response == Respond(dec, registered, old(cache.View()), job)
    ensures cache.View() == Processed(dec, old(cache.View()), job.env, response, notifying)
  {
    var err := cache.HandleReject(params, notifying);
    var applied := if err.Some? then NotApplied(err.value) else Applied;
    response := ExecuteCommand(dec, registered, job.env, job.answers, applied);
  }

  /** One round of the loop, up to the sending of the response. */
  method ProcessCommand(cache: PodCache, dec: Decoders, registered: set<string>, job: Job, notifying: bool)
    returns (response: Response)
    requires cache.Valid()
    modifies cache.Records(), cache.pods.Values
    ensures cache.Valid()
    ensures response == Respond(dec, registered, old(cache.View()), job)
    ensures cache.View() == Processed(dec, old(cache.View()), job.env, response, notifying)
  {
    var rejection := RejectionOf(dec, job.env);
    if rejection.Some? {
      response := ProcessRejection(cache, dec, registered, job, rejection.value, notifying);
      return;
    }
    response := ExecuteCommand(dec, registered, job.env, job.answers, NoCallback);
    var booking := BookingFor(dec, job.env, response);
    if booking.Some? {
      cache.HandleDeploymentSuccess(booking.value.params, booking.value.result, notifying);
    }
  }

  /** The loop: every command is answered once, in order, and the cache is what the commands make of it. */
  method ProcessCommands(cache: PodCache, dec: Decoders, registered: set<string>, jobs: seq<Job>, notifying: bool)
    returns (responses: seq<Response>)
    requires cache.Valid()
    modifies cache.Records(), cache.pods.Values
    ensures cache.Valid()
    ensures responses == ResponsesTo(dec, registered, old(cache.View()), jobs, notifying)
    ensures cache.View() == CacheAfter(dec, registered, old(cache.View()), jobs, notifying)
  {
    responses := [];
    ghost var start := cache.View();
    for i := 0 to |jobs|
      invariant cache.Valid()
      invariant responses == ResponsesTo(dec, registered, start, jobs[..i], notifying)
      invariant cache.View() == CacheAfter(dec, registered, start, jobs[..i], notifying)
    {
      var response := ProcessCommand(cache, dec, registered, jobs[i], notifying);
      assert jobs[..i + 1][..i] == jobs[..i];
      responses := responses + [response];
    }
    assert jobs[..|jobs|] == jobs;
  }

  // ---- The same in the interleaved machine ----

  lemma One(k: Setup, s: State, a: Action)
    requires Enabled(k, s, a)
    ensures Runs(k, s, [a]) && After(k, s, [a]) == Next(k, s, a)
  {
    assert [a][1..] == [];
  }

  lemma Then(k: Setup, s: State, a: Action, acts: seq<Action>)
    requires Enabled(k, s, a) && Runs(k, Next(k, s, a), acts)
    ensures Runs(k, s, [a] + acts) && After(k, s, [a] + acts) == After(k, Next(k, s, a), acts)
  {
    assert ([a] + acts)[1..] == acts;
  }

  /** The loop holds the response to `env`, unsent, the cache being `cache` and the client untouched. */
  ghost predicate Reached(s: State, t: State, env: CommandEnvelope, response: Response, cache: Cache) {
    t.loop == Sending(env, response) && t.cache == cache && t.client == s.client && t.worker == s.worker
  }

  lemma BookResult(k: Setup, s: State)
    requires Enabled(k, s, Book)
    ensures var t := Next(k, s, Book);
            && t.client == s.client && t.worker == s.worker
            && match BookingFor(k.dec, s.loop.env, s.loop.response)
               case None => t.cache == s.cache && t.loop == Sending(s.loop.env, s.loop.response)
               case Some(b) =>
                 var key := PodKey(b.params.namespace, b.params.podName);
                 && t.cache == Apply(s.cache, Step.Deployed(key, b.params.provider, b.result))
                 && t.cache.pods == s.cache.pods
                 && t.loop == if key in s.cache.pods
                              then Notifying(s.loop.env, s.loop.response, key, s.cache.pods[key].version)
                              else Sending(s.loop.env, s.loop.response)
  {
  }

  /** From an executed command on: nothing to book, or a booking and its notification. */
  lemma BookingRound(k: Setup, s: State, notifying: bool) returns (acts: seq<Action>)
    requires s.loop.Answering?
    ensures Runs(k, s, acts)
    ensures Reached(
              s, After(k, s, acts), s.loop.env, s.loop.response,
              Accounted(s.cache, BookingFor(k.dec, s.loop.env, s.loop.response), notifying))
  {
    var t := Next(k, s, Book);
    BookResult(k, s);
    if t.loop.Notifying? {
      One(k, t, NotifyDeployed(notifying));
      Then(k, s, Book, [NotifyDeployed(notifying)]);
      acts := [Book] + [NotifyDeployed(notifying)];
    } else {
      One(k, s, Book);
      acts := [Book];
    }
  }

  /** A command that is no rejection. */
  lemma ExecutionRound(k: Setup, s: State, job: Job, notifying: bool) returns (acts: seq<Action>)
    requires s.loop == Executing(job.env) && RejectionOf(k.dec, job.env).None?
    ensures Runs(k, s, acts)
    ensures var response := Respond(k.dec, k.registered, s.cache, job);
            Reached(s, After(k, s, acts), job.env, response, Processed(k.dec, s.cache, job.env, response, notifying))
  {
    var t := Next(k, s, Execute(job.answers));
    var rest := BookingRound(k, t, notifying);
    Then(k, s, Execute(job.answers), rest);
    acts := [Execute(job.answers)] + rest;
  }

  /** The providers have no part in the answer to a rejection. */
  lemma RejectionIgnoresAnswers(
    dec: Decoders, registered: set<string>, env: CommandEnvelope, a: Answers, b: Answers, applied: RejectOutcome)
    requires RejectionOf(dec, env).Some?
    ensures HandleCommand(dec, registered, env, a, applied) == HandleCommand(dec, registered, env, b, applied)
  {
  }

  lemma RejectionResponse(k: Setup, s: State, job: Job)
    requires RejectionOf(k.dec, job.env).Some?
    ensures var applied := RejectOutcomeFor(k.dec, s.cache.pods.Keys, job.env);
            var response := Respond(k.dec, k.registered, s.cache, job);
            && HandleCommand(k.dec, k.registered, job.env, NO_ANSWERS, applied).response == response
            && BookingFor(k.dec, job.env, response).None?
  {
    var applied := RejectOutcomeFor(k.dec, s.cache.pods.Keys, job.env);
    RejectionIgnoresAnswers(k.dec, k.registered, job.env, job.answers, NO_ANSWERS, applied);
    RejectionsAreNotBooked(k.dec, k.registered, job.env, job.answers, applied);
  }

  /** The rejection of an unknown pod. */
  lemma UnknownRejectionRound(k: Setup, s: State, job: Job, notifying: bool) returns (acts: seq<Action>)
    requires s.loop == Executing(job.env) && RejectionOf(k.dec, job.env).Some?
    requires Next(k, s, Reject).loop.Answering?
    ensures Runs(k, s, acts)
    ensures var response := Respond(k.dec, k.registered, s.cache, job);
            Reached(s, After(k, s, acts), job.env, response, Processed(k.dec, s.cache, job.env, response, notifying))
  {
    RejectionResponse(k, s, job);
    var rest := BookingRound(k, Next(k, s, Reject), notifying);
    Then(k, s, Reject, rest);
    acts := [Reject] + rest;
  }

  /** From a recorded rejection on: the notification, and nothing to book. */
  lemma NotifyingRound(k: Setup, s: State, notifying: bool) returns (acts: seq<Action>)
    requires s.loop.Rejecting? && RejectionOf(k.dec, s.loop.env) == Some(s.loop.params)
    ensures Runs(k, s, acts)
    ensures var p := s.loop.params;
            var report := Report("Failed", p.code, p.message);
            Reached(
              s, After(k, s, acts), s.loop.env,
              HandleCommand(k.dec, k.registered, s.loop.env, NO_ANSWERS, Applied).response,
              if notifying then Apply(s.cache, SetReport(PodKey(p.namespace, p.podName), s.loop.version, report))
              else s.cache)
  {
    RejectionsAreNotBooked(k.dec, k.registered, s.loop.env, NO_ANSWERS, Applied);
    var rest := BookingRound(k, Next(k, s, NotifyRejected(notifying)), notifying);
    Then(k, s, NotifyRejected(notifying), rest);
    acts := [NotifyRejected(notifying)] + rest;
  }

  lemma KnownRejection(k: Setup, s: State)
    requires Enabled(k, s, Reject) && Next(k, s, Reject).loop.Rejecting?
    ensures var t, p := Next(k, s, Reject), RejectionOf(k.dec, s.loop.env).value;
            var key := PodKey(p.namespace, p.podName);
            && key in s.cache.pods && t.loop == Rejecting(s.loop.env, p, s.cache.pods[key].version)
            && t.cache == Apply(s.cache, Rejected(key, p.code, p.message)) && t.cache.pods == s.cache.pods
            && t.client == s.client && t.worker == s.worker
  {
  }

  /** The rejection of a cached pod. */
  lemma KnownRejectionRound(k: Setup, s: State, job: Job, notifying: bool) returns (acts: seq<Action>)
    requires s.loop == Executing(job.env) && RejectionOf(k.dec, job.env).Some?
    requires Next(k, s, Reject).loop.Rejecting?
    ensures Runs(k, s, acts)
    ensures var response := Respond(k.dec, k.registered, s.cache, job);
            Reached(s, After(k, s, acts), job.env, response, Processed(k.dec, s.cache, job.env, response, notifying))
  {
    KnownRejection(k, s);
    RejectionResponse(k, s, job);
    var rest := NotifyingRound(k, Next(k, s, Reject), notifying);
    Then(k, s, Reject, rest);
    acts := [Reject] + rest;
  }

  /** A round of the loop as ProcessCommand computes it is a run of the machine, with nothing in between. */
  lemma RoundIsRun(k: Setup, s: State, job: Job, notifying: bool) returns (acts: seq<Action>)
    requires s.loop == Executing(job.env)
    ensures Runs(k, s, acts)
    ensures var response := Respond(k.dec, k.registered, s.cache, job);
            Reached(s, After(k, s, acts), job.env, response, Processed(k.dec, s.cache, job.env, response, notifying))
  {
    if RejectionOf(k.dec, job.env).Some? {
      if Next(k, s, Reject).loop.Rejecting? {
        acts := KnownRejectionRound(k, s, job, notifying);
      } else {
        acts := UnknownRejectionRound(k, s, job, notifying);
      }
    } else {
      acts := ExecutionRound(k, s, job, notifying);
    }
  }
}
