/**
 * What the pod cache holds and GetPodStatus answers after a history, said in
 * terms of the steps of the history alone: which came last, and since when.
 */
module PodHistories {
  import opened Protocol
  import opened PodCaches
  import opened PodStatuses

  // ---- Records ----

  /** h[j] is the last rejection recorded for k after i. */
  ghost predicate LastReject(h: seq<Step>, k: string, i: nat, j: nat) {
    && i < j < |h| && h[j].Rejected? && h[j].key == k
    && forall m :: j < m < |h| && h[m].key == k ==> !h[m].Rejected?
  }

  ghost predicate NoReject(h: seq<Step>, k: string, i: nat) {
    forall m :: i < m < |h| && h[m].key == k ==> !h[m].Rejected?
  }

  /** h[j] is the last deployment or rejection recorded for k after i. */
  ghost predicate LastOutcome(h: seq<Step>, k: string, i: nat, j: nat) {
    && i < j < |h| && (h[j].Deployed? || h[j].Rejected?) && h[j].key == k
    && forall m :: j < m < |h| && h[m].key == k ==> !h[m].Deployed? && !h[m].Rejected?
  }

  /** The fields that a deployment sets and nothing else does. */
  ghost predicate DeploymentFields(h: seq<Step>, k: string, i: nat, info: Info) {
    && (NoDeploy(h, k, i) ==>
          && info.providerPodID == "" && info.provider == ""
          && info.costPerHour == 0.0 && info.machineID == "" && info.location == "")
    && forall j: nat :: LastDeploy(h, k, i, j) ==>
          && info.providerPodID == h[j].result.providerPodID
          && info.provider == (if h[j].result.provider == "" then h[j].routed else h[j].result.provider)
          && info.costPerHour == h[j].result.costPerHour
          && info.machineID == h[j].result.machineID
          && info.location == h[j].result.datacenterID
  }

  /** The fields that a rejection sets and nothing else does. */
  ghost predicate RejectionFields(h: seq<Step>, k: string, i: nat, info: Info) {
    && (NoReject(h, k, i) ==> info.rejectCode == "" && info.rejectMessage == "")
    && forall j: nat :: LastReject(h, k, i, j) ==>
          info.rejectCode == h[j].code && info.rejectMessage == h[j].message
  }

  /** The status, which both of them set. */
  ghost predicate StatusField(h: seq<Step>, k: string, i: nat, info: Info) {
    && (NoDeploy(h, k, i) && NoReject(h, k, i) ==> info.status == "PENDING")
    && forall j: nat :: LastOutcome(h, k, i, j) ==>
          info.status == if h[j].Deployed? then h[j].result.status else "REJECTED"
  }

  /** The record that the create h[i] leaves behind after the rest of the history. */
  ghost predicate RecordSince(h: seq<Step>, k: string, i: nat, info: Info)
    requires i < |h| && h[i].Create?
  {
    && info.podID == h[i].pod.meta.uid && info.statusResult.None?
    && DeploymentFields(h, k, i, info) && RejectionFields(h, k, i, info) && StatusField(h, k, i, info)
  }

  lemma NewRecord(h: seq<Step>, k: string, i: nat)
    requires i + 1 == |h| && h[i].Create?
    ensures RecordSince(h, k, i, NewInfo(h[i].pod.meta.uid))
  {
  }

  /** A step that neither deploys nor rejects k changes no last one. */
  lemma NoOutcome(h: seq<Step>, step: Step, k: string, i: nat, info: Info)
    requires i < |h| && h[i].Create? && RecordSince(h, k, i, info)
    requires step.key == k ==> !step.Deployed? && !step.Rejected?
    ensures RecordSince(h + [step], k, i, info)
  {
    var all := h + [step];
    assert forall m :: 0 <= m < |h| ==> all[m] == h[m];
    forall j: nat
      ensures LastDeploy(all, k, i, j) ==> LastDeploy(h, k, i, j)
      ensures LastReject(all, k, i, j) ==> LastReject(h, k, i, j)
      ensures LastOutcome(all, k, i, j) ==> LastOutcome(h, k, i, j)
    {
    }
    assert NoDeploy(all, k, i) ==> NoDeploy(h, k, i);
    assert NoReject(all, k, i) ==> NoReject(h, k, i);
  }

  lemma DeployOutcome(h: seq<Step>, step: Step, k: string, i: nat, info: Info)
    requires i < |h| && h[i].Create? && RecordSince(h, k, i, info)
    requires step.key == k && step.Deployed?
    ensures RecordSince(h + [step], k, i, WithDeployment(info, step.routed, step.result))
  {
    var all := h + [step];
    assert forall m :: 0 <= m < |h| ==> all[m] == h[m];
    assert all[|h|] == step && !NoDeploy(all, k, i);
    forall j: nat
      ensures LastDeploy(all, k, i, j) ==> j == |h|
      ensures LastReject(all, k, i, j) ==> LastReject(h, k, i, j)
      ensures LastOutcome(all, k, i, j) ==> j == |h|
    {
    }
    assert NoReject(all, k, i) ==> NoReject(h, k, i);
  }

  lemma RejectOutcome(h: seq<Step>, step: Step, k: string, i: nat, info: Info)
    requires i < |h| && h[i].Create? && RecordSince(h, k, i, info)
    requires step.key == k && step.Rejected?
    ensures RecordSince(h + [step], k, i, WithRejection(info, step.code, step.message))
  {
    var all := h + [step];
    assert forall m :: 0 <= m < |h| ==> all[m] == h[m];
    assert all[|h|] == step && !NoReject(all, k, i);
    forall j: nat
      ensures LastDeploy(all, k, i, j) ==> LastDeploy(h, k, i, j)
      ensures LastReject(all, k, i, j) ==> j == |h|
      ensures LastOutcome(all, k, i, j) ==> j == |h|
    {
    }
    assert NoDeploy(all, k, i) ==> NoDeploy(h, k, i);
  }

  /** Every field of a tracked record, from the create that is still live and the steps since. */
  lemma {:induction false} RecordHistory(h: seq<Step>, k: string, i: nat)
    requires LiveCreate(h, k, i)
    ensures k in Replay(h).infos && RecordSince(h, k, i, Replay(h).infos[k])
  {
    var before, last := h[..|h| - 1], h[|h| - 1];
    assert h == before + [last];
    if i == |h| - 1 {
      NewRecord(h, k, i);
    } else {
      assert LiveCreate(before, k, i);
      RecordHistory(before, k, i);
      var info := Replay(before).infos[k];
      if last.key == k && last.Deployed? {
        DeployOutcome(before, last, k, i, info);
      } else if last.key == k && last.Rejected? {
        RejectOutcome(before, last, k, i, info);
      } else {
        NoOutcome(before, last, k, i, info);
      }
    }
  }

  // ---- Rejections ----

  /** The last rejection since the live create of k has this code and message. */
  ghost predicate RejectedBy(h: seq<Step>, k: string, code: string, message: string) {
    exists i: nat, j: nat ::
      LiveCreate(h, k, i) && LastReject(h, k, i, j) && h[j].code == code && h[j].message == message
  }

  lemma {:induction false} LastRejectExists(h: seq<Step>, k: string, i: nat) returns (j: nat)
    requires i < |h| && !NoReject(h, k, i)
    ensures LastReject(h, k, i, j)
  {
    var n := |h| - 1;
    if h[n].key == k && h[n].Rejected? {
      j := n;
    } else {
      assert !NoReject(h[..n], k, i);
      j := LastRejectExists(h[..n], k, i);
    }
  }

  /** A record shows a rejection exactly if one follows its create, and then the last one. */
  lemma RecordRejectedIff(h: seq<Step>, k: string, code: string, message: string)
    requires code != ""
    ensures IsRejected(Replay(h), k, code, message) <==> RejectedBy(h, k, code, message)
  {
    InfosHavePods(h);
    if RejectedBy(h, k, code, message) {
      var i: nat, j: nat :|
        LiveCreate(h, k, i) && LastReject(h, k, i, j) && h[j].code == code && h[j].message == message;
      RecordHistory(h, k, i);
    }
    if IsRejected(Replay(h), k, code, message) {
      TrackedIsCreated(h, k);
      var i: nat :| LiveCreate(h, k, i);
      RecordHistory(h, k, i);
      var j := LastRejectExists(h, k, i);
    }
  }

  /** Without a rejection since its create, a record shows none. */
  lemma UnrejectedRecord(h: seq<Step>, k: string, i: nat)
    requires LiveCreate(h, k, i) && NoReject(h, k, i)
    ensures k in Replay(h).infos && Replay(h).infos[k].rejectCode == "" && Replay(h).infos[k].rejectMessage == ""
  {
    RecordHistory(h, k, i);
  }

  // ---- Cached pods ----

  predicate Stores(step: Step, k: string) {
    step.key == k && (step.Create? || step.Update?)
  }

  /** How many objects were stored under k. */
  function CountStores(h: seq<Step>, k: string): nat {
    if h == [] then 0 else CountStores(h[..|h| - 1], k) + (if Stores(h[|h| - 1], k) then 1 else 0)
  }

  /** h[j] stored the object that is cached under k. */
  ghost predicate LiveStore(h: seq<Step>, k: string, j: nat) {
    && j < |h| && Stores(h[j], k)
    && forall m :: j < m < |h| && h[m].key == k ==> !Stores(h[m], k) && !h[m].Remove?
  }

  /** h[m] is the last report written into that object. */
  ghost predicate LastReport(h: seq<Step>, k: string, v: nat, j: nat, m: nat) {
    && j < m < |h| && h[m].SetReport? && h[m].key == k && h[m].version == v
    && forall x :: m < x < |h| && h[x].SetReport? && h[x].key == k ==> h[x].version != v
  }

  ghost predicate NoReportWritten(h: seq<Step>, k: string, v: nat, j: nat) {
    forall x :: j < x < |h| && h[x].SetReport? && h[x].key == k ==> h[x].version != v
  }

  /** The object that h[j] stored, with what was written into it since. */
  ghost predicate EntrySince(h: seq<Step>, k: string, j: nat, e: Entry)
    requires j < |h| && Stores(h[j], k)
  {
    && e.version == CountStores(h, k) && e.pod.meta == h[j].pod.meta
    && (NoReportWritten(h, k, e.version, j) ==> e.pod.report == h[j].pod.report)
    && forall m: nat :: LastReport(h, k, e.version, j, m) ==> e.pod.report == h[m].report
  }

  lemma EntryExtends(h: seq<Step>, step: Step, k: string, j: nat, e: Entry)
    requires LiveStore(h, k, j) && EntrySince(h, k, j, e)
    requires !Stores(step, k)
    ensures var hit := step.SetReport? && step.key == k && step.version == e.version;
            EntrySince(h + [step], k, j, if hit then Entry(e.pod.(report := step.report), e.version) else e)
  {
    var all := h + [step];
    assert all[..|h|] == h && all[|h|] == step;
    assert forall m :: 0 <= m < |h| ==> all[m] == h[m];
    forall m: nat
      ensures LastReport(all, k, e.version, j, m) && m < |h| ==> LastReport(h, k, e.version, j, m)
    {
    }
    assert NoReportWritten(all, k, e.version, j) ==> NoReportWritten(h, k, e.version, j);
    if step.SetReport? && step.key == k && step.version == e.version {
      assert !NoReportWritten(all, k, e.version, j);
      forall m: nat | LastReport(all, k, e.version, j, m)
        ensures m == |h|
      {
      }
    }
  }

  lemma {:induction false} VersionCounts(h: seq<Step>, k: string)
    ensures Version(Replay(h), k) == CountStores(h, k)
  {
    if h != [] {
      VersionCounts(h[..|h| - 1], k);
    }
  }

  /** The cached pod of a live store: the newest object, its specification, and the last report written into it. */
  lemma {:induction false} EntryHistory(h: seq<Step>, k: string, j: nat)
    requires LiveStore(h, k, j)
    ensures k in Replay(h).pods && EntrySince(h, k, j, Replay(h).pods[k])
  {
    var before, last := h[..|h| - 1], h[|h| - 1];
    assert h == before + [last];
    if j == |h| - 1 {
      VersionCounts(before, k);
    } else {
      assert LiveStore(before, k, j);
      EntryHistory(before, k, j);
      EntryExtends(before, last, k, j, Replay(before).pods[k]);
    }
  }

  /** A pod is cached exactly if a create or an update of it has not been followed by a deletion. */
  lemma {:induction false} CachedIff(h: seq<Step>, k: string)
    ensures k in Replay(h).pods <==> exists j: nat :: LiveStore(h, k, j)
  {
    if h != [] {
      var before, last := h[..|h| - 1], h[|h| - 1];
      assert h == before + [last];
      CachedIff(before, k);
      if Stores(last, k) {
        assert LiveStore(h, k, |h| - 1);
      } else if last.key == k && last.Remove? {
        forall j: nat
          ensures !LiveStore(h, k, j)
        {
        }
      } else {
        forall j: nat
          ensures LiveStore(h, k, j) <==> LiveStore(before, k, j)
        {
          LiveStoreExtends(before, last, k, j);
        }
      }
    }
  }

  lemma LiveStoreExtends(h: seq<Step>, step: Step, k: string, j: nat)
    requires !Stores(step, k) && !(step.key == k && step.Remove?)
    ensures LiveStore(h + [step], k, j) <==> LiveStore(h, k, j)
  {
    var all := h + [step];
    assert forall m :: 0 <= m < |h| ==> all[m] == h[m];
  }

  // ---- What GetPodStatus answers ----

  /** Nothing in a history sets a poll result. */
  lemma NeverPolled(h: seq<Step>, k: string)
    ensures !Polled(CellOf(Replay(h), k))
  {
    TrackedIsCreated(h, k);
    if i: nat :| LiveCreate(h, k, i) {
      RecordHistory(h, k, i);
    }
  }

  /** A rejection is reported, whatever was polled, exactly if it is the last one since the live create. */
  lemma ShowsRejectionIff(h: seq<Step>, k: string, code: string, message: string, poll: Option<StatusResult>)
    requires code != ""
    ensures ShowsRejection(Replay(h), k, code, message, poll) <==> RejectedBy(h, k, code, message)
  {
    RecordRejectedIff(h, k, code, message);
    if IsRejected(Replay(h), k, code, message) {
      RejectedShows(Replay(h), k, code, message, poll);
    }
    var cell := WithPoll(CellOf(Replay(h), k), poll);
    if ShowsRejection(Replay(h), k, code, message, poll) {
      StatusPhaseIff(cell, PodStatus("Failed", code, message, [PodScheduled], []));
      StatusNotFoundIff(cell);
    }
  }

  /**
   * After any history there are exactly three answers: not found without a live
   * store, Failed with the code and message of the last rejection since the live
   * create if that has a code, and Pending in every other case.
   */
  lemma StatusHistory(h: seq<Step>, k: string)
    ensures var answer := GetPodStatus(CellOf(Replay(h), k));
            && (answer.NotFound? <==> forall j: nat :: !LiveStore(h, k, j))
            && (forall code, message :: code != "" ==>
                  (answer == RejectedAnswer(code, message) <==> RejectedBy(h, k, code, message)))
            && ((exists j: nat :: LiveStore(h, k, j))
                && (forall code, message :: RejectedBy(h, k, code, message) ==> code == "")
                ==> answer == Answer(PodStatus("Pending", "", "", [PodScheduled], [])))
  {
    var cell := CellOf(Replay(h), k);
    CachedIff(h, k);
    StatusNotFoundIff(cell);
    NeverPolled(h, k);
    forall code, message | code != ""
      ensures GetPodStatus(cell) == RejectedAnswer(code, message) <==> RejectedBy(h, k, code, message)
    {
      var poll := if cell.info.Some? then cell.info.value.statusResult else None;
      assert WithPoll(cell, poll) == cell;
      ShowsRejectionIff(h, k, code, message, poll);
    }
    if cell.entry.Some? && Refused(cell) {
      RecordRejectedIff(h, k, cell.info.value.rejectCode, cell.info.value.rejectMessage);
    } else if cell.entry.Some? {
      UnpolledIsPending(cell);
    }
  }
}
