/**
 * What follows a command in every run of the kubelet: the report written into
 * the pod object that the command found, and the answer to a rejection.
 */
module KubeletReports {
  import opened Protocol
  import opened PodCaches
  import opened PodStatuses
  import opened PodHistories
  import opened Commands
  import opened Kubelets
  import opened KubeletInvariants

  // ---- Reports ----

  /** h[m] is a command's step that found object v cached under `key`; `report` is the one that goes with it. */
  ghost predicate Source(h: seq<Step>, m: nat, key: string, v: nat, report: Report) {
    && m < |h| && h[m].key == key
    && key in Replay(h[..m]).pods && Replay(h[..m]).pods[key].version == v
    && (|| (h[m].Deployed? && report == Report("Pending", "", "Instance deployed, waiting for startup"))
        || (h[m].Rejected? && report == Report("Failed", h[m].code, h[m].message)))
  }

  /** The last step of a command calls for this report; the controller may have stepped in since. */
  ghost predicate Due(h: seq<Step>, key: string, v: nat, report: Report) {
    exists m: nat :: Source(h, m, key, v, report) && forall x :: m < x < |h| ==> !IsCommand(h[x])
  }

  ghost predicate ReportsAreDue(h: seq<Step>) {
    forall n :: 0 <= n < |h| && h[n].SetReport? ==> Due(h[..n], h[n].key, h[n].version, h[n].report)
  }

  /** The report that the loop is about to write. */
  function Written(loop: Loop): Step
    requires loop.Rejecting? || loop.Notifying?
  {
    match loop
    case Rejecting(_, p, v) => SetReport(PodKey(p.namespace, p.podName), v, Report("Failed", p.code, p.message))
    case Notifying(_, _, key, v) => SetReport(key, v, WAITING)
  }

  /** The loop is about to write only a report that is due. */
  ghost predicate LoopIsDue(s: State) {
    s.loop.Rejecting? || s.loop.Notifying? ==>
      var w := Written(s.loop);
      Due(s.history, w.key, w.version, w.report)
  }

  lemma NewlyDue(h: seq<Step>, step: Step, v: nat, report: Report)
    requires step.key in Replay(h).pods && Replay(h).pods[step.key].version == v
    requires || (step.Deployed? && report == WAITING)
             || (step.Rejected? && report == Report("Failed", step.code, step.message))
    ensures Due(h + [step], step.key, v, report)
  {
    assert (h + [step])[..|h|] == h;
    assert Source(h + [step], |h|, step.key, v, report);
  }

  lemma StillDue(h: seq<Step>, step: Step, key: string, v: nat, report: Report)
    requires Due(h, key, v, report) && !IsCommand(step)
    ensures Due(h + [step], key, v, report)
  {
    var m: nat :| Source(h, m, key, v, report) && forall x :: m < x < |h| ==> !IsCommand(h[x]);
    assert (h + [step])[..m] == h[..m];
    assert Source(h + [step], m, key, v, report);
  }

  lemma ReportsAppend(h: seq<Step>, step: Step)
    requires ReportsAreDue(h) && (step.SetReport? ==> Due(h, step.key, step.version, step.report))
    ensures ReportsAreDue(h + [step])
  {
    var all := h + [step];
    forall n | 0 <= n < |all| && all[n].SetReport?
      ensures Due(all[..n], all[n].key, all[n].version, all[n].report)
    {
      assert all[..n] == h[..n];
      assert h[..|h|] == h;
    }
  }

  predicate Notifies(a: Action) {
    a.NotifyRejected? || a.NotifyDeployed?
  }

  lemma RejectRecords(k: Setup, s: State)
    requires Enabled(k, s, Reject)
    ensures var t, p := Next(k, s, Reject), RejectionOf(k.dec, s.loop.env).value;
            var key := PodKey(p.namespace, p.podName);
            && t.history == s.history + [Rejected(key, p.code, p.message)] && !t.loop.Notifying?
            && (t.loop.Rejecting? ==>
                  key in s.cache.pods && t.loop.params == p && t.loop.version == s.cache.pods[key].version)
  {
  }

  lemma NotifyRecords(k: Setup, s: State, a: Action)
    requires Enabled(k, s, a) && Notifies(a)
    ensures var t := Next(k, s, a);
            && !t.loop.Rejecting? && !t.loop.Notifying?
            && (t.history == s.history || t.history == s.history + [Written(s.loop)])
  {
  }

  lemma OthersRecord(k: Setup, s: State, a: Action)
    requires Enabled(k, s, a) && !a.Book? && !a.Reject? && !Notifies(a)
    ensures var h, h' := s.history, Next(k, s, a).history;
            h' == h || (|h'| == |h| + 1 && h' == h + [h'[|h|]] && !IsCommand(h'[|h|]))
    ensures var loop := Next(k, s, a).loop;
            loop == s.loop || (!loop.Rejecting? && !loop.Notifying?)
  {
  }

  ghost predicate BookRecords(k: Setup, s: State, t: State)
    requires s.loop.Answering?
  {
    match BookingFor(k.dec, s.loop.env, s.loop.response)
    case None => t.loop.Sending? && t.history == s.history
    case Some(b) =>
      var key := PodKey(b.params.namespace, b.params.podName);
      && t.history == s.history + [Step.Deployed(key, b.params.provider, b.result)]
      && (t.loop.Sending?
          || (t.loop.Notifying? && t.loop.key == key && key in s.cache.pods
              && t.loop.version == s.cache.pods[key].version))
  }

  lemma BookKeepsReports(k: Setup, s: State)
    requires Enabled(k, s, Book) && Replayed(s) && ReportsAreDue(s.history)
    ensures ReportsAreDue(Next(k, s, Book).history) && LoopIsDue(Next(k, s, Book))
  {
    var t := Next(k, s, Book);
    assert BookRecords(k, s, t);
    match BookingFor(k.dec, s.loop.env, s.loop.response)
    case None =>
    case Some(b) =>
      var step := Step.Deployed(PodKey(b.params.namespace, b.params.podName), b.params.provider, b.result);
      ReportsAppend(s.history, step);
      if t.loop.Notifying? {
        NewlyDue(s.history, step, t.loop.version, WAITING);
      }
  }

  lemma RejectKeepsReports(k: Setup, s: State)
    requires Enabled(k, s, Reject) && Replayed(s) && ReportsAreDue(s.history)
    ensures ReportsAreDue(Next(k, s, Reject).history) && LoopIsDue(Next(k, s, Reject))
  {
    var t := Next(k, s, Reject);
    var p := RejectionOf(k.dec, s.loop.env).value;
    var step := Rejected(PodKey(p.namespace, p.podName), p.code, p.message);
    RejectRecords(k, s);
    ReportsAppend(s.history, step);
    if t.loop.Rejecting? {
      NewlyDue(s.history, step, t.loop.version, Report("Failed", p.code, p.message));
    }
  }

  lemma NotifyKeepsReports(k: Setup, s: State, a: Action)
    requires Enabled(k, s, a) && Notifies(a)
    requires ReportsAreDue(s.history) && LoopIsDue(s)
    ensures ReportsAreDue(Next(k, s, a).history) && LoopIsDue(Next(k, s, a))
  {
    var t := Next(k, s, a);
    NotifyRecords(k, s, a);
    if t.history != s.history {
      ReportsAppend(s.history, Written(s.loop));
    }
  }

  lemma OthersKeepReports(k: Setup, s: State, a: Action)
    requires Enabled(k, s, a) && !a.Book? && !a.Reject? && !Notifies(a)
    requires ReportsAreDue(s.history) && LoopIsDue(s)
    ensures ReportsAreDue(Next(k, s, a).history) && LoopIsDue(Next(k, s, a))
  {
    var t := Next(k, s, a);
    OthersRecord(k, s, a);
    if t.history != s.history {
      var step := t.history[|s.history|];
      ReportsAppend(s.history, step);
      if s.loop.Rejecting? || s.loop.Notifying? {
        var w := Written(s.loop);
        StillDue(s.history, step, w.key, w.version, w.report);
      }
    }
  }

  lemma StepKeepsReports(k: Setup, s: State, a: Action)
    requires Enabled(k, s, a) && Replayed(s) && ReportsAreDue(s.history) && LoopIsDue(s)
    ensures ReportsAreDue(Next(k, s, a).history) && LoopIsDue(Next(k, s, a))
  {
    match a
    case Book => BookKeepsReports(k, s);
    case Reject => RejectKeepsReports(k, s);
    case NotifyRejected(_) => NotifyKeepsReports(k, s, a);
    case NotifyDeployed(_) => NotifyKeepsReports(k, s, a);
    case _ => OthersKeepReports(k, s, a);
  }

  /** How many commands' steps found their pod cached. */
  function Found(h: seq<Step>): nat {
    if h == [] then 0
    else
      var front, last := h[..|h| - 1], h[|h| - 1];
      Found(front) + (if (last.Deployed? || last.Rejected?) && last.key in Replay(front).pods then 1 else 0)
  }

  lemma FoundAppend(h: seq<Step>, step: Step)
    ensures Found(h + [step])
         == Found(h) + (if (step.Deployed? || step.Rejected?) && step.key in Replay(h).pods then 1 else 0)
  {
    assert (h + [step])[..|h|] == h;
  }

  /** How often the loop comes to updatePodStatus. */
  function Notices(acts: seq<Action>): nat {
    if acts == [] then 0 else (if Notifies(acts[0]) then 1 else 0) + Notices(acts[1..])
  }

  function Unnoticed(loop: Loop): nat {
    if loop.Rejecting? || loop.Notifying? then 1 else 0
  }

  lemma BookFinds(k: Setup, s: State)
    requires Enabled(k, s, Book) && Replayed(s)
    ensures var t := Next(k, s, Book);
            Found(t.history) == Found(s.history) + Unnoticed(t.loop)
  {
    match BookingFor(k.dec, s.loop.env, s.loop.response)
    case None =>
    case Some(b) =>
      FoundAppend(
        s.history, Step.Deployed(PodKey(b.params.namespace, b.params.podName), b.params.provider, b.result));
  }

  lemma RejectFinds(k: Setup, s: State)
    requires Enabled(k, s, Reject) && Replayed(s)
    ensures var t := Next(k, s, Reject);
            Found(t.history) == Found(s.history) + Unnoticed(t.loop)
  {
    var p := RejectionOf(k.dec, s.loop.env).value;
    FoundAppend(s.history, Rejected(PodKey(p.namespace, p.podName), p.code, p.message));
  }

  lemma StepFinds(k: Setup, s: State, a: Action)
    requires Enabled(k, s, a) && Replayed(s)
    ensures var t := Next(k, s, a);
            Found(t.history) + Unnoticed(s.loop)
            == Found(s.history) + Unnoticed(t.loop) + (if Notifies(a) then 1 else 0)
  {
    match a
    case Book => BookFinds(k, s);
    case Reject => RejectFinds(k, s);
    case _ =>
      if Notifies(a) {
        NotifyFinds(k, s, a);
      } else {
        OthersFind(k, s, a);
      }
  }

  lemma NotifyFinds(k: Setup, s: State, a: Action)
    requires Enabled(k, s, a) && Notifies(a)
    ensures Unnoticed(s.loop) == 1 && Unnoticed(Next(k, s, a).loop) == 0
    ensures Found(Next(k, s, a).history) == Found(s.history)
  {
    NotifyRecords(k, s, a);
    FoundAppend(s.history, Written(s.loop));
  }

  lemma OthersFind(k: Setup, s: State, a: Action)
    requires Enabled(k, s, a) && !a.Book? && !a.Reject? && !Notifies(a)
    ensures Unnoticed(Next(k, s, a).loop) == Unnoticed(s.loop)
    ensures Found(Next(k, s, a).history) == Found(s.history)
  {
    var h := Next(k, s, a).history;
    OthersRecord(k, s, a);
    LoopStays(k, s, a);
    if h != s.history {
      FoundAppend(s.history, h[|s.history|]);
    }
  }

  lemma LoopStays(k: Setup, s: State, a: Action)
    requires Enabled(k, s, a) && !a.Book? && !a.Reject? && !Notifies(a)
    ensures Unnoticed(Next(k, s, a).loop) == Unnoticed(s.loop)
  {
  }

  /** In every run the loop notifies once for every command that found its pod cached, and for no other. */
  lemma {:induction false} NotifiedExactlyOnce(k: Setup, s: State, acts: seq<Action>)
    requires Runs(k, s, acts) && Replayed(s)
    ensures var t := After(k, s, acts);
            Found(t.history) + Unnoticed(s.loop) == Found(s.history) + Unnoticed(t.loop) + Notices(acts)
    decreases |acts|
  {
    if acts != [] {
      StepKeepsReplay(k, s, acts[0]);
      StepFinds(k, s, acts[0]);
      NotifiedExactlyOnce(k, Next(k, s, acts[0]), acts[1..]);
    }
  }

  // ---- The end of the loop ----

  lemma StepStops(k: Setup, s: State, a: Action)
    requires Enabled(k, s, a)
    ensures Next(k, s, a).loop.Stopped? <==> s.loop.Stopped? || a.StopLoop?
  {
  }

  /** The command loop ends exactly when its context is cancelled, whatever becomes of the responses. */
  lemma {:induction false} StoppedIff(k: Setup, s: State, acts: seq<Action>)
    requires Runs(k, s, acts)
    ensures After(k, s, acts).loop.Stopped? <==> s.loop.Stopped? || StopLoop in acts
    decreases |acts|
  {
    if acts != [] {
      StepStops(k, s, acts[0]);
      StoppedIff(k, Next(k, s, acts[0]), acts[1..]);
      assert acts == [acts[0]] + acts[1..];
    }
  }

  // ---- Answers to rejections ----

  /** What a rejection must be answered with, given the cache that it finds. */
  function Verdict(before: Cache, key: string): Option<ErrorDetails> {
    if key in before.pods then None
    else Some(ErrorDetails("reject_failed", "pod " + key + " not found", ""))
  }

  /** The verdicts on the rejections of a history. */
  function Verdicts(h: seq<Step>): seq<Option<ErrorDetails>> {
    if h == [] then []
    else
      var front, last := h[..|h| - 1], h[|h| - 1];
      Verdicts(front) + (if last.Rejected? then [Verdict(Replay(front), last.key)] else [])
  }

  /** The errors, or none, with which the executed rejection commands were answered. */
  function RejectionErrors(dec: Decoders, executed: seq<Execution>): seq<Option<ErrorDetails>> {
    if executed == [] then []
    else
      var last := executed[|executed| - 1];
      RejectionErrors(dec, executed[..|executed| - 1])
      + (if RejectionOf(dec, last.env).Some? then [last.handled.response.error] else [])
  }

  /** A rejection that found its pod and still notifies it will be answered without an error. */
  ghost predicate VerdictsGiven(k: Setup, s: State) {
    && (s.loop.Rejecting? ==> RejectionOf(k.dec, s.loop.env).Some?)
    && Verdicts(s.history) == RejectionErrors(k.dec, s.executed) + (if s.loop.Rejecting? then [None] else [])
  }

  lemma VerdictsAppend(h: seq<Step>, step: Step)
    ensures Verdicts(h + [step]) == Verdicts(h) + (if step.Rejected? then [Verdict(Replay(h), step.key)] else [])
  {
    assert (h + [step])[..|h|] == h;
  }

  lemma ErrorsAppend(dec: Decoders, executed: seq<Execution>, e: Execution)
    ensures RejectionErrors(dec, executed + [e])
         == RejectionErrors(dec, executed)
            + (if RejectionOf(dec, e.env).Some? then [e.handled.response.error] else [])
  {
    assert (executed + [e])[..|executed|] == executed;
  }

  lemma RejectVerdict(k: Setup, s: State)
    requires Enabled(k, s, Reject)
    ensures var t, p := Next(k, s, Reject), RejectionOf(k.dec, s.loop.env).value;
            var key := PodKey(p.namespace, p.podName);
            && t.history == s.history + [Rejected(key, p.code, p.message)]
            && (key in s.cache.pods ==>
                  t.executed == s.executed && t.loop.Rejecting? && t.loop.env == s.loop.env)
            && (key !in s.cache.pods ==>
                  && !t.loop.Rejecting? && |t.executed| == |s.executed| + 1
                  && t.executed == s.executed + [t.executed[|s.executed|]]
                  && t.executed[|s.executed|].env == s.loop.env
                  && t.executed[|s.executed|].handled.response.error == Verdict(s.cache, key))
  {
  }

  lemma RejectKeepsVerdicts(k: Setup, s: State)
    requires Enabled(k, s, Reject) && Replayed(s) && VerdictsGiven(k, s)
    ensures VerdictsGiven(k, Next(k, s, Reject))
  {
    var t, p := Next(k, s, Reject), RejectionOf(k.dec, s.loop.env).value;
    RejectVerdict(k, s);
    VerdictsAppend(s.history, Rejected(PodKey(p.namespace, p.podName), p.code, p.message));
    if !t.loop.Rejecting? {
      ErrorsAppend(k.dec, s.executed, t.executed[|s.executed|]);
    }
  }

  lemma NotifiedVerdict(k: Setup, s: State, a: Action)
    requires Enabled(k, s, a) && a.NotifyRejected? && RejectionOf(k.dec, s.loop.env).Some?
    ensures var t := Next(k, s, a);
            && |t.executed| == |s.executed| + 1 && t.executed == s.executed + [t.executed[|s.executed|]]
            && t.executed[|s.executed|].env == s.loop.env
            && t.executed[|s.executed|].handled.response.error == None
            && !t.loop.Rejecting?
            && (t.history == s.history || (|t.history| == |s.history| + 1 && !t.history[|s.history|].Rejected?
                                           && t.history == s.history + [t.history[|s.history|]]))
  {
  }

  lemma OtherVerdict(k: Setup, s: State, a: Action)
    requires Enabled(k, s, a) && !a.Reject? && !a.NotifyRejected?
    ensures var t := Next(k, s, a);
            && (t.loop.Rejecting? <==> s.loop.Rejecting?) && (s.loop.Rejecting? ==> t.loop == s.loop)
            && (t.executed == s.executed
                || (|t.executed| == |s.executed| + 1 && t.executed == s.executed + [t.executed[|s.executed|]]
                    && RejectionOf(k.dec, t.executed[|s.executed|].env).None?))
            && (t.history == s.history || (|t.history| == |s.history| + 1 && !t.history[|s.history|].Rejected?
                                           && t.history == s.history + [t.history[|s.history|]]))
  {
  }

  lemma StepKeepsVerdicts(k: Setup, s: State, a: Action)
    requires Enabled(k, s, a) && Replayed(s) && VerdictsGiven(k, s)
    ensures VerdictsGiven(k, Next(k, s, a))
  {
    var t := Next(k, s, a);
    if a.Reject? {
      RejectKeepsVerdicts(k, s);
    } else {
      if a.NotifyRejected? {
        NotifiedVerdict(k, s, a);
      } else {
        OtherVerdict(k, s, a);
      }
      if t.history != s.history {
        VerdictsAppend(s.history, t.history[|s.history|]);
      }
      if t.executed != s.executed {
        ErrorsAppend(k.dec, s.executed, t.executed[|s.executed|]);
      }
    }
  }

  // ---- Over runs ----

  lemma {:induction false} RunKeepsReports(k: Setup, s: State, acts: seq<Action>)
    requires Runs(k, s, acts) && Replayed(s) && ReportsAreDue(s.history) && LoopIsDue(s) && VerdictsGiven(k, s)
    ensures var t := After(k, s, acts);
            ReportsAreDue(t.history) && LoopIsDue(t) && VerdictsGiven(k, t)
    decreases |acts|
  {
    if acts != [] {
      StepKeepsReplay(k, s, acts[0]);
      StepKeepsReports(k, s, acts[0]);
      StepKeepsVerdicts(k, s, acts[0]);
      RunKeepsReports(k, Next(k, s, acts[0]), acts[1..]);
    }
  }

  /**
   * In every run a report is written only for the last deployment or rejection
   * before it, into the object that this one found in the cache, and it is the
   * Pending or the Failed one that belongs to it.
   */
  lemma ReportsFollowCommands(k: Setup, s: State, n: nat)
    requires Reachable(k, s)
    requires n < |s.history| && s.history[n].SetReport?
    ensures Due(s.history[..n], s.history[n].key, s.history[n].version, s.history[n].report)
  {
    var acts :| Runs(k, Init(k), acts) && s == After(k, Init(k), acts);
    RunKeepsReports(k, Init(k), acts);
  }

  /**
   * In every run the rejection commands are answered, in order, as the cache
   * decided: without an error exactly for those that found their pod cached.
   */
  lemma RejectionsAnswered(k: Setup, s: State)
    requires Reachable(k, s)
    ensures Verdicts(s.history)
         == RejectionErrors(k.dec, s.executed) + (if s.loop.Rejecting? then [None] else [])
  {
    var acts :| Runs(k, Init(k), acts) && s == After(k, Init(k), acts);
    RunKeepsReports(k, Init(k), acts);
  }

  // ---- What GetPodStatus answers in runs ----

  /** In every run the answer is that of the history: not found, Failed by the last rejection, or Pending. */
  lemma StatusInRun(k: Setup, s: State, key: string)
    requires Reachable(k, s)
    ensures var answer := GetPodStatus(CellOf(s.cache, key));
            && (answer.NotFound? <==> forall j: nat :: !LiveStore(s.history, key, j))
            && (forall code, message :: code != "" ==>
                  (answer == RejectedAnswer(code, message) <==> RejectedBy(s.history, key, code, message)))
            && ((exists j: nat :: LiveStore(s.history, key, j))
                && (forall code, message :: RejectedBy(s.history, key, code, message) ==> code == "")
                ==> answer == Answer(PodStatus("Pending", "", "", [PodScheduled], [])))
  {
    ReachableInv(k, s);
    StatusHistory(s.history, key);
  }

  /** In every run, whatever is polled, a rejection shows exactly if it is the last one since the live create. */
  lemma RejectionVisibleIff(
    k: Setup, s: State, key: string, code: string, message: string, poll: Option<StatusResult>)
    requires Reachable(k, s) && code != ""
    ensures ShowsRejection(s.cache, key, code, message, poll) <==> RejectedBy(s.history, key, code, message)
  {
    ReachableInv(k, s);
    ShowsRejectionIff(s.history, key, code, message, poll);
  }

  /** In every run the record of a live create holds what happened to it since, field by field. */
  lemma RecordInRun(k: Setup, s: State, key: string, i: nat)
    requires Reachable(k, s) && LiveCreate(s.history, key, i)
    ensures key in s.cache.infos && RecordSince(s.history, key, i, s.cache.infos[key])
  {
    ReachableInv(k, s);
    RecordHistory(s.history, key, i);
  }

  /** In every run the cached pod is the newest stored one, with the last report written into that very object. */
  lemma EntryInRun(k: Setup, s: State, key: string, j: nat)
    requires Reachable(k, s) && LiveStore(s.history, key, j)
    ensures key in s.cache.pods && EntrySince(s.history, key, j, s.cache.pods[key])
  {
    ReachableInv(k, s);
    EntryHistory(s.history, key, j);
  }
}
