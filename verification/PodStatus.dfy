/**
 * From a RunPod answer to the Kubernetes pod status: status mapping
 * (pkg/providers/interface.go), RunPod's GetStatus (pkg/providers/runpod/client.go)
 * and the projection in GetPodStatus (pkg/virtual_kubelet/kubelet.go).
 */
module PodStatuses {
  import opened Protocol
  import opened Strings
  import opened PodCaches

  // ---- Standard statuses and phases ----

  function MapRunPodStatus(status: string): string {
    match status
    case "STARTING" => "STARTING"
    case "RUNNING" => "RUNNING"
    case "TERMINATING" => "TERMINATING"
    case "TERMINATED" => "TERMINATED"
    case "EXITED" => "EXITED"
    case _ => status
  }

  function PhaseForStatus(standard: string, successful: bool): string {
    if standard == "PENDING" || standard == "STARTING" then "Pending"
    else if standard == "RUNNING" || standard == "TERMINATING" then "Running"
    else if standard == "TERMINATED" || standard == "EXITED" then if successful then "Succeeded" else "Failed"
    else if standard == "FAILED" then "Failed"
    else "Unknown"
  }

  // ---- RunPod's answer ----

  datatype Runtime = Runtime(exitCode: int, message: string, completionStatus: string)

  datatype DetailedStatus = DetailedStatus(desiredStatus: string, runtime: Option<Runtime>, lastError: string)

  predicate SuccessfulCompletion(d: DetailedStatus) {
    && d.runtime.Some?
    && (|| d.runtime.value.exitCode == 0
        || Contains(ToLower(d.runtime.value.completionStatus), "success")
        || Contains(ToLower(d.runtime.value.completionStatus), "completed"))
  }

  /** isSuccessfulCompletion, branch by branch. */
  method IsSuccessfulCompletion(d: DetailedStatus) returns (successful: bool)
    ensures successful <==> SuccessfulCompletion(d)
  {
    if d.runtime.None? {
      return false;
    }
    if d.runtime.value.exitCode == 0 {
      return true;
    }
    var completion := d.runtime.value.completionStatus;
    if completion != "" {
      return Contains(ToLower(completion), "success") || Contains(ToLower(completion), "completed");
    }
    assert ToLower("") == "";
    return false;
  }

  /** GetStatus after a successful API call; None is RunPod's 404. */
  function RunPodStatus(providerPodID: string, answer: Option<DetailedStatus>): StatusResult {
    match answer
    case None =>
      StatusResult("", providerPodID, "runpod", "NOT_FOUND", "Failed", false, true, 0, "pod not found on RunPod")
    case Some(d) =>
      var standard := MapRunPodStatus(d.desiredStatus);
      StatusResult(
        "", providerPodID, "runpod", standard, PhaseForStatus(standard, SuccessfulCompletion(d)),
        d.desiredStatus == "RUNNING",
        d.desiredStatus == "TERMINATED" || d.desiredStatus == "EXITED",
        if d.runtime.Some? then d.runtime.value.exitCode else 0,
        if d.runtime.None? then ""
        else if d.runtime.value.message != "" then d.runtime.value.message else d.lastError)
  }

  /** The same, with the result filled in field by field. */
  method GetStatus(providerPodID: string, answer: Option<DetailedStatus>) returns (result: StatusResult)
    ensures result == RunPodStatus(providerPodID, answer)
  {
    if answer.None? {
      return StatusResult(
          "", providerPodID, "runpod", "NOT_FOUND", "Failed", false, true, 0, "pod not found on RunPod");
    }
    var status := answer.value;
    var standard := MapRunPodStatus(status.desiredStatus);
    var successful := IsSuccessfulCompletion(status);
    result := StatusResult(
      "", providerPodID, "runpod", standard, PhaseForStatus(standard, successful),
      status.desiredStatus == "RUNNING",
      status.desiredStatus == "TERMINATED" || status.desiredStatus == "EXITED", 0, "");
    if status.runtime.Some? {
      result := result.(exitCode := status.runtime.value.exitCode, message := status.runtime.value.message);
      if result.message == "" {
        result := result.(message := status.lastError);
      }
    }
  }

  lemma StandardStatusIsIdentity(status: string)
    ensures MapRunPodStatus(status) == status
  {
  }

  /** Whatever RunPod answers, the flags and the phase agree. */
  lemma RunPodStatusCoherent(providerPodID: string, answer: Option<DetailedStatus>)
    ensures var r := RunPodStatus(providerPodID, answer);
            && !(r.isRunning && r.isTerminated)
            && (r.isRunning ==> r.phase == "Running")
            && (r.isTerminated ==> r.phase == "Succeeded" || r.phase == "Failed")
            && (r.phase == "Succeeded" ==> r.isTerminated && answer.Some? && SuccessfulCompletion(answer.value))
            && (r.phase == "Running" && !r.isRunning ==> r.status == "TERMINATING")
            && (r.phase == "Failed" && !r.isTerminated ==> r.status == "FAILED")
  {
    if answer.Some? {
      StandardStatusIsIdentity(answer.value.desiredStatus);
    }
  }

  predicate Ended(d: DetailedStatus) {
    d.desiredStatus == "TERMINATED" || d.desiredStatus == "EXITED"
  }

  /** The container exited with 0, or the completion text says so, in any case. */
  ghost predicate Completed(d: DetailedStatus) {
    && d.runtime.Some?
    && (|| d.runtime.value.exitCode == 0
        || (exists i: nat :: OccursAt(ToLower(d.runtime.value.completionStatus), "success", i))
        || (exists i: nat :: OccursAt(ToLower(d.runtime.value.completionStatus), "completed", i)))
  }

  lemma CompletedIff(d: DetailedStatus)
    ensures SuccessfulCompletion(d) <==> Completed(d)
  {
    if d.runtime.Some? {
      ContainsIff(ToLower(d.runtime.value.completionStatus), "success");
      ContainsIff(ToLower(d.runtime.value.completionStatus), "completed");
    }
  }

  /** When RunPod's answer means which phase: five conditions that exclude each other and leave nothing out. */
  lemma RunPodPhaseIff(providerPodID: string, d: DetailedStatus)
    ensures var phase := RunPodStatus(providerPodID, Some(d)).phase;
            && (phase == "Succeeded" <==> Ended(d) && Completed(d))
            && (phase == "Failed" <==> (Ended(d) && !Completed(d)) || d.desiredStatus == "FAILED")
            && (phase == "Running" <==> d.desiredStatus == "RUNNING" || d.desiredStatus == "TERMINATING")
            && (phase == "Pending" <==> d.desiredStatus == "PENDING" || d.desiredStatus == "STARTING")
            && phase in {"Succeeded", "Failed", "Running", "Pending", "Unknown"}
  {
    CompletedIff(d);
  }

  /** The other fields of the result; a message is reported only for a container that has run. */
  lemma RunPodFields(providerPodID: string, d: DetailedStatus)
    ensures var r := RunPodStatus(providerPodID, Some(d));
            && r.providerPodID == providerPodID && r.provider == "runpod" && r.status == d.desiredStatus
            && (r.isRunning <==> d.desiredStatus == "RUNNING")
            && (r.isTerminated <==> Ended(d))
            && (d.runtime.None? ==> r.exitCode == 0 && r.message == "")
            && (d.runtime.Some? ==> r.exitCode == d.runtime.value.exitCode)
            && (d.runtime.Some? && d.runtime.value.message != "" ==> r.message == d.runtime.value.message)
            && (d.runtime.Some? && d.runtime.value.message == "" ==> r.message == d.lastError)
    ensures var missing := RunPodStatus(providerPodID, None);
            && missing.providerPodID == providerPodID && missing.provider == "runpod"
            && missing.phase == "Failed" && missing.isTerminated && !missing.isRunning
            && missing.status == "NOT_FOUND" && missing.exitCode == 0 && missing.message == "pod not found on RunPod"
  {
    StandardStatusIsIdentity(d.desiredStatus);
  }

  // ---- GetPodStatus ----

  datatype Condition = PodScheduled | PodReady

  /** The three optional parts of a Kubernetes container state; the code sets them separately. */
  datatype ContainerStatus = ContainerStatus(
    name: string, ready: bool, started: bool,
    terminated: Option<(int, string)>, running: bool, waiting: Option<(string, string)>)

  datatype PodStatus = PodStatus(
    phase: string, reason: string, message: string, conditions: seq<Condition>, containers: seq<ContainerStatus>)

  /** Panics is the index error on a pod without containers. */
  datatype StatusAnswer = NotFound | Panics | Answer(status: PodStatus)

  const INT32_SPAN := 0x1_0000_0000

  /** The Go conversion int32(x). */
  function Int32(x: int): (r: int)
    ensures -0x8000_0000 <= r < 0x8000_0000
    ensures -0x8000_0000 <= x < 0x8000_0000 ==> r == x
    ensures (r - x) % 0x1_0000_0000 == 0
  {
    (x + 0x8000_0000) % INT32_SPAN - 0x8000_0000
  }

  function ContainerFor(name: string, phase: string, info: Info, r: StatusResult): ContainerStatus {
    var blank := ContainerStatus(name, phase == "Running", phase == "Running", None, false, None);
    if r.isTerminated then blank.(terminated := Some((Int32(r.exitCode), r.message)))
    else if r.isRunning then blank.(running := true)
    else blank.(waiting := Some((info.status, r.message)))
  }

  function PodPhase(r: StatusResult): string {
    if r.phase == "Running" || r.phase == "Succeeded" || r.phase == "Failed" then r.phase else "Pending"
  }

  function GetPodStatus(cell: Cell): StatusAnswer {
    if cell.entry.None? then NotFound
    else if cell.info.Some? && cell.info.value.rejectCode != "" then
      Answer(PodStatus("Failed", cell.info.value.rejectCode, cell.info.value.rejectMessage, [PodScheduled], []))
    else if cell.info.Some? && cell.info.value.statusResult.Some? then
      var r := cell.info.value.statusResult.value;
      var containers := cell.entry.value.pod.meta.containers;
      if containers == [] then Panics
      else
        var phase := PodPhase(r);
        Answer(PodStatus(
                 phase, "", "",
                 if phase == "Running" then [PodScheduled, PodReady] else [PodScheduled],
                 [ContainerFor(containers[0], phase, cell.info.value, r)]))
    else Answer(PodStatus("Pending", "", "", [PodScheduled], []))
  }

  predicate OneState(c: ContainerStatus) {
    || (c.terminated.Some? && !c.running && c.waiting.None?)
    || (c.terminated.None? && c.running && c.waiting.None?)
    || (c.terminated.None? && !c.running && c.waiting.Some?)
  }

  /** Rejected, which comes first. */
  predicate Refused(cell: Cell) {
    cell.info.Some? && cell.info.value.rejectCode != ""
  }

  /** Not rejected, and a poll result is there. */
  predicate Polled(cell: Cell) {
    cell.info.Some? && cell.info.value.rejectCode == "" && cell.info.value.statusResult.Some?
  }

  lemma StatusNotFoundIff(cell: Cell)
    ensures GetPodStatus(cell).NotFound? <==> cell.entry.None?
  {
  }

  /** The phase, its reason and the conditions of an answer, from the fields of record and poll result. */
  lemma StatusPhaseIff(cell: Cell, status: PodStatus)
    requires GetPodStatus(cell) == Answer(status)
    ensures status.phase == "Running" <==> Polled(cell) && cell.info.value.statusResult.value.phase == "Running"
    ensures status.phase == "Succeeded" <==> Polled(cell) && cell.info.value.statusResult.value.phase == "Succeeded"
    ensures status.phase == "Failed"
       <==> Refused(cell) || (Polled(cell) && cell.info.value.statusResult.value.phase == "Failed")
    ensures status.phase in {"Pending", "Running", "Succeeded", "Failed"}
    ensures Refused(cell)
        ==> status.reason == cell.info.value.rejectCode && status.message == cell.info.value.rejectMessage
    ensures !Refused(cell) ==> status.reason == "" && status.message == ""
    ensures status.conditions == if status.phase == "Running" then [PodScheduled, PodReady] else [PodScheduled]
  {
  }

  /** A container is reported exactly after a poll: the pod's first one, in the state that the poll result calls for. */
  lemma StatusContainerIff(cell: Cell, status: PodStatus)
    requires GetPodStatus(cell) == Answer(status)
    ensures !Polled(cell) ==> status.containers == []
    ensures Polled(cell) ==>
              && |status.containers| == 1 && cell.entry.Some? && cell.entry.value.pod.meta.containers != []
              && var c, r := status.containers[0], cell.info.value.statusResult.value;
                 && c.name == cell.entry.value.pod.meta.containers[0]
                 && (c.ready <==> r.phase == "Running") && (c.started <==> r.phase == "Running")
                 && c.terminated == (if r.isTerminated then Some((Int32(r.exitCode), r.message)) else None)
                 && (c.running <==> !r.isTerminated && r.isRunning)
                 && c.waiting == if r.isTerminated || r.isRunning then None
                                 else Some((cell.info.value.status, r.message))
  {
  }

  /** A cached pod that is neither rejected nor polled is Pending, scheduled and nothing else. */
  lemma UnpolledIsPending(cell: Cell)
    requires cell.entry.Some? && !Refused(cell) && !Polled(cell)
    ensures GetPodStatus(cell) == Answer(PodStatus("Pending", "", "", [PodScheduled], []))
  {
  }

  /** The whole pipeline: an answer of RunPod, stored for an unrejected pod, projected by GetPodStatus. */
  lemma PipelineCoherent(cell: Cell, answer: Option<DetailedStatus>, status: PodStatus)
    requires cell.info.Some? && cell.info.value.rejectCode == ""
    requires cell.info.value.statusResult == Some(RunPodStatus(cell.info.value.providerPodID, answer))
    requires GetPodStatus(cell) == Answer(status)
    ensures |status.containers| == 1 && OneState(status.containers[0])
    ensures PodReady in status.conditions <==> status.phase == "Running"
    ensures status.containers[0].ready <==> status.phase == "Running"
    ensures status.containers[0].running ==> status.phase == "Running"
    ensures status.phase == "Running" && !status.containers[0].running
       <==> answer.Some? && answer.value.desiredStatus == "TERMINATING"
    ensures status.phase == "Succeeded" ==> status.containers[0].terminated.Some?
                                            && answer.Some? && answer.value.runtime.Some?
    ensures status.containers[0].terminated.Some? ==> status.phase == "Succeeded" || status.phase == "Failed"
    ensures status.phase == "Succeeded" <==> answer.Some? && Ended(answer.value) && Completed(answer.value)
    ensures status.phase == "Failed"
       <==> || answer.None?
            || (Ended(answer.value) && !Completed(answer.value))
            || answer.value.desiredStatus == "FAILED"
    ensures status.phase == "Running"
       <==> answer.Some? && (answer.value.desiredStatus == "RUNNING" || answer.value.desiredStatus == "TERMINATING")
  {
    RunPodStatusCoherent(cell.info.value.providerPodID, answer);
    StatusPhaseIff(cell, status);
    if answer.Some? {
      StandardStatusIsIdentity(answer.value.desiredStatus);
      RunPodPhaseIff(cell.info.value.providerPodID, answer.value);
    }
  }

  /** GetPodStatus fails to answer exactly for unknown pods and, once polled, for pods without containers. */
  lemma StatusPanicsIff(cell: Cell)
    ensures GetPodStatus(cell).Panics?
       <==> && cell.entry.Some? && cell.info.Some? && cell.info.value.rejectCode == ""
            && cell.info.value.statusResult.Some? && cell.entry.value.pod.meta.containers == []
  {
  }

  // ---- Rejections latch ----

  /** The answer for a rejected pod. */
  function RejectedAnswer(code: string, message: string): StatusAnswer {
    Answer(PodStatus("Failed", code, message, [PodScheduled], []))
  }

  /** The cell with any last poll result: nothing in the cache's steps sets it. */
  function WithPoll(cell: Cell, poll: Option<StatusResult>): Cell {
    if cell.info.Some? then cell.(info := Some(cell.info.value.(statusResult := poll))) else cell
  }

  /** GetPodStatus reports the rejection of k, whatever was polled. */
  predicate ShowsRejection(s: Cache, k: string, code: string, message: string, poll: Option<StatusResult>) {
    GetPodStatus(WithPoll(CellOf(s, k), poll)) == RejectedAnswer(code, message)
  }

  /** A rejection shows exactly when the pod is tracked and the code is not empty. */
  lemma RejectionShowsIff(s: Cache, k: string, code: string, message: string, poll: Option<StatusResult>)
    ensures ShowsRejection(Apply(s, Rejected(k, code, message)), k, code, message, poll)
       <==> k in s.pods && k in s.infos && code != ""
  {
  }

  /** Steps that can lift a rejection of k. */
  predicate Lifts(step: Step, k: string) {
    step.key == k && (step.Create? || step.Remove? || step.Rejected?)
  }

  ghost predicate IsRejected(s: Cache, k: string, code: string, message: string) {
    && k in s.pods && k in s.infos
    && code != "" && s.infos[k].rejectCode == code && s.infos[k].rejectMessage == message
  }

  lemma RejectedShows(s: Cache, k: string, code: string, message: string, poll: Option<StatusResult>)
    requires IsRejected(s, k, code, message)
    ensures ShowsRejection(s, k, code, message, poll)
  {
  }

  lemma RejectionTakes(s: Cache, k: string, code: string, message: string)
    requires k in s.pods && k in s.infos && code != ""
    ensures IsRejected(Apply(s, Rejected(k, code, message)), k, code, message)
  {
  }

  lemma StepKeepsRejection(s: Cache, step: Step, k: string, code: string, message: string)
    requires IsRejected(s, k, code, message) && !Lifts(step, k)
    ensures IsRejected(Apply(s, step), k, code, message)
  {
  }

  /**
   * Once a rejection with a code has reached a tracked pod, every later state
   * reports it, whatever updates, deployments, notifications or poll results
   * follow, until the pod is created anew, deleted or rejected again.
   */
  lemma {:induction false} RejectionLatches(
    h: seq<Step>, later: seq<Step>, k: string, code: string, message: string, poll: Option<StatusResult>)
    requires k in Replay(h).pods && k in Replay(h).infos && code != ""
    requires forall i :: 0 <= i < |later| ==> !Lifts(later[i], k)
    ensures var s := Replay(h + [Rejected(k, code, message)] + later);
            && IsRejected(s, k, code, message)
            && ShowsRejection(s, k, code, message, poll)
  {
    var rejected := h + [Rejected(k, code, message)];
    if later == [] {
      ReplayAppend(h, Rejected(k, code, message));
      assert rejected + later == rejected;
    } else {
      var n := |later| - 1;
      RejectionLatches(h, later[..n], k, code, message, poll);
      assert rejected + later == (rejected + later[..n]) + [later[n]];
      ReplayAppend(rejected + later[..n], later[n]);
      StepKeepsRejection(Replay(rejected + later[..n]), later[n], k, code, message);
    }
  }
}
