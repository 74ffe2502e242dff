/**
 * The kubelet's pod cache (pkg/virtual_kubelet/kubelet.go) as a state machine
 * whose steps are the critical sections of podsMutex, plus the unlocked write
 * into a pod object that follows a deployment or a rejection.
 */
module PodCaches {
  import opened Protocol

  /** The part of a pod that only the controller sets. */
  datatype PodMeta = PodMeta(namespace: string, name: string, uid: string, containers: seq<string>)

  /** The status fields that updatePodStatus writes. */
  datatype Report = Report(phase: string, reason: string, message: string)

  datatype Pod = Pod(meta: PodMeta, report: Report)

  /** A cached pod object. Objects stored under one key are told apart by their version. */
  datatype Entry = Entry(pod: Pod, version: nat)

  datatype Info = Info(
    podID: string, providerPodID: string, provider: string, status: string, costPerHour: real,
    machineID: string, location: string, statusResult: Option<StatusResult>,
    rejectCode: string, rejectMessage: string)

  datatype Cache = Cache(pods: map<string, Entry>, infos: map<string, Info>, versions: map<string, nat>)

  const EMPTY := Cache(map[], map[], map[])

  datatype Step =
    | Create(key: string, pod: Pod)
    | Update(key: string, pod: Pod)
    | Remove(key: string)
    | Deployed(key: string, routed: string, result: DeployResult)
    | Rejected(key: string, code: string, message: string)
    | SetReport(key: string, version: nat, report: Report)

  predicate IsCommand(step: Step) {
    step.Deployed? || step.Rejected? || step.SetReport?
  }

  function Version(s: Cache, k: string): nat {
    if k in s.versions then s.versions[k] else 0
  }

  function NewInfo(uid: string): Info {
    Info(uid, "", "", "PENDING", 0.0, "", "", None, "", "")
  }

  /** handleDeploymentSuccess on the record of a tracked pod. */
  function WithDeployment(info: Info, routed: string, r: DeployResult): Info {
    info.(providerPodID := r.providerPodID,
          provider := if r.provider == "" then routed else r.provider,
          status := r.status, costPerHour := r.costPerHour,
          machineID := r.machineID, location := r.datacenterID)
  }

  /** handleReject on the record of a tracked pod. */
  function WithRejection(info: Info, code: string, message: string): Info {
    info.(rejectCode := code, rejectMessage := message, status := "REJECTED")
  }

  function Put(s: Cache, k: string, pod: Pod): Cache {
    var v := Version(s, k) + 1;
    s.(pods := s.pods[k := Entry(pod, v)], versions := s.versions[k := v])
  }

  function Apply(s: Cache, step: Step): Cache {
    match step
    case Create(k, pod) =>
      var t := Put(s, k, pod);
      t.(infos := t.infos[k := NewInfo(pod.meta.uid)])
    case Update(k, pod) => Put(s, k, pod)
    case Remove(k) => s.(pods := s.pods - {k}, infos := s.infos - {k})
    case Deployed(k, routed, r) =>
      if k in s.infos then s.(infos := s.infos[k := WithDeployment(s.infos[k], routed, r)]) else s
    case Rejected(k, code, message) =>
      if k in s.infos then s.(infos := s.infos[k := WithRejection(s.infos[k], code, message)]) else s
    case SetReport(k, v, report) =>
      if k in s.pods && s.pods[k].version == v then
        s.(pods := s.pods[k := s.pods[k].(pod := s.pods[k].pod.(report := report))])
      else s
  }

  /** The report that follows a deployment. */
  const WAITING := Report("Pending", "", "Instance deployed, waiting for startup")

  /** updatePodStatus on the cached pod of `key`, if there is one, provided that a callback is installed. */
  function Notified(s: Cache, key: string, report: Report, notifying: bool): Cache {
    if notifying && key in s.pods then Apply(s, SetReport(key, s.pods[key].version, report)) else s
  }

  /** The cache after a history, oldest step first. */
  function Replay(h: seq<Step>): Cache {
    if h == [] then EMPTY else Apply(Replay(h[..|h| - 1]), h[|h| - 1])
  }

  lemma ReplayAppend(h: seq<Step>, step: Step)
    ensures Replay(h + [step]) == Apply(Replay(h), step)
  {
    assert (h + [step])[..|h|] == h;
  }

  // ---- One key at a time ----

  /** Everything the cache holds about one key. */
  datatype Cell = Cell(entry: Option<Entry>, info: Option<Info>, version: nat)

  function CellOf(s: Cache, k: string): Cell {
    Cell(if k in s.pods then Some(s.pods[k]) else None,
         if k in s.infos then Some(s.infos[k]) else None,
         Version(s, k))
  }

  function CellStep(c: Cell, step: Step): Cell {
    match step
    case Create(_, pod) => Cell(Some(Entry(pod, c.version + 1)), Some(NewInfo(pod.meta.uid)), c.version + 1)
    case Update(_, pod) => c.(entry := Some(Entry(pod, c.version + 1)), version := c.version + 1)
    case Remove(_) => c.(entry := None, info := None)
    case Deployed(_, routed, r) =>
      if c.info.Some? then c.(info := Some(WithDeployment(c.info.value, routed, r))) else c
    case Rejected(_, code, message) =>
      if c.info.Some? then c.(info := Some(WithRejection(c.info.value, code, message))) else c
    case SetReport(_, v, report) =>
      if c.entry.Some? && c.entry.value.version == v then
        c.(entry := Some(c.entry.value.(pod := c.entry.value.pod.(report := report))))
      else c
  }

  /** A step changes only its own key, and that only as a function of that key's cell. */
  lemma ApplyIsLocal(s: Cache, step: Step, k: string)
    ensures CellOf(Apply(s, step), k) == if step.key == k then CellStep(CellOf(s, k), step) else CellOf(s, k)
  {
  }

  /** The steps of a history that concern one key. */
  function On(h: seq<Step>, k: string): seq<Step> {
    if h == [] then []
    else On(h[..|h| - 1], k) + (if h[|h| - 1].key == k then [h[|h| - 1]] else [])
  }

  /** The entries of a key are exactly those of replaying only the steps on that key. */
  lemma {:induction false} ReplayByKey(h: seq<Step>, k: string)
    ensures CellOf(Replay(h), k) == CellOf(Replay(On(h, k)), k)
  {
    if h != [] {
      var before, last := h[..|h| - 1], h[|h| - 1];
      ReplayByKey(before, k);
      ApplyIsLocal(Replay(before), last, k);
      if last.key == k {
        ReplayAppend(On(before, k), last);
        ApplyIsLocal(Replay(On(before, k)), last, k);
      } else {
        assert On(before, k) + [] == On(before, k);
      }
    }
  }

  /** Caches that agree on every cell are equal up to counters that were never used. */
  lemma SameCells(s: Cache, t: Cache)
    requires forall k :: CellOf(s, k) == CellOf(t, k)
    ensures s.pods == t.pods && s.infos == t.infos
  {
    forall k
      ensures k in s.pods <==> k in t.pods
      ensures k in s.pods ==> s.pods[k] == t.pods[k]
      ensures k in s.infos <==> k in t.infos
      ensures k in s.infos ==> s.infos[k] == t.infos[k]
    {
      assert CellOf(s, k) == CellOf(t, k);
    }
  }

  /** Steps on distinct pods commute. */
  lemma DistinctPodsCommute(s: Cache, a: Step, b: Step)
    requires a.key != b.key
    ensures Apply(Apply(s, a), b).pods == Apply(Apply(s, b), a).pods
    ensures Apply(Apply(s, a), b).infos == Apply(Apply(s, b), a).infos
  {
    var ab, ba := Apply(Apply(s, a), b), Apply(Apply(s, b), a);
    forall k
      ensures CellOf(ab, k) == CellOf(ba, k)
    {
      ApplyIsLocal(s, a, k);
      ApplyIsLocal(Apply(s, a), b, k);
      ApplyIsLocal(s, b, k);
      ApplyIsLocal(Apply(s, b), a, k);
    }
    SameCells(ab, ba);
  }

  // ---- What commands cannot do ----

  lemma CommandsKeepKeysAndSpecs(s: Cache, step: Step)
    requires IsCommand(step)
    ensures Apply(s, step).pods.Keys == s.pods.Keys && Apply(s, step).infos.Keys == s.infos.Keys
    ensures forall k :: k in s.pods ==> Apply(s, step).pods[k].pod.meta == s.pods[k].pod.meta
  {
  }

  /** Every tracked record belongs to a cached pod; an update alone can cache a pod without a record. */
  lemma {:induction false} InfosHavePods(h: seq<Step>)
    ensures Replay(h).infos.Keys <= Replay(h).pods.Keys
  {
    if h != [] {
      InfosHavePods(h[..|h| - 1]);
    }
  }

  // ---- The provider pod id reported on deletion ----

  /** What DeletePod reads under the lock before it sends its event. */
  function ProviderPodID(s: Cache, k: string): string {
    if k in s.infos then s.infos[k].providerPodID else ""
  }

  /** h[i] created the record of k that is still there. */
  ghost predicate LiveCreate(h: seq<Step>, k: string, i: nat) {
    && i < |h| && h[i].Create? && h[i].key == k
    && forall m :: i < m < |h| && h[m].key == k ==> !h[m].Create? && !h[m].Remove?
  }

  /** h[j] is the last deployment recorded for k after i. */
  ghost predicate LastDeploy(h: seq<Step>, k: string, i: nat, j: nat) {
    && i < j < |h| && h[j].Deployed? && h[j].key == k
    && forall m :: j < m < |h| && h[m].key == k ==> !h[m].Deployed?
  }

  ghost predicate NoDeploy(h: seq<Step>, k: string, i: nat) {
    forall m :: i < m < |h| && h[m].key == k ==> !h[m].Deployed?
  }

  /** `id` is what the last deployment after i recorded, empty if there is none. */
  ghost predicate DeployedSince(h: seq<Step>, k: string, i: nat, id: string) {
    if NoDeploy(h, k, i) then id == ""
    else exists j: nat :: LastDeploy(h, k, i, j) && id == h[j].result.providerPodID
  }

  /** The id of the latest deployment since the latest create, empty if either is missing. */
  ghost predicate LatestDeployedID(h: seq<Step>, k: string, id: string) {
    if exists i: nat :: LiveCreate(h, k, i) then
      exists i: nat :: LiveCreate(h, k, i) && DeployedSince(h, k, i, id)
    else id == ""
  }

  lemma {:induction false} TrackedIsCreated(h: seq<Step>, k: string)
    ensures k in Replay(h).infos <==> exists i: nat :: LiveCreate(h, k, i)
  {
    if h != [] {
      var before, last := h[..|h| - 1], h[|h| - 1];
      TrackedIsCreated(before, k);
      if last.key == k && last.Create? {
        assert LiveCreate(h, k, |h| - 1);
      } else if last.key == k && last.Remove? {
        forall i: nat
          ensures !LiveCreate(h, k, i)
        {
        }
      } else {
        forall i: nat
          ensures LiveCreate(h, k, i) <==> LiveCreate(before, k, i)
        {
          LiveCreateExtends(before, last, k, i);
          assert before + [last] == h;
        }
      }
    }
  }

  lemma LiveCreateExtends(h: seq<Step>, step: Step, k: string, i: nat)
    requires step.key == k ==> !step.Create? && !step.Remove?
    ensures LiveCreate(h + [step], k, i) <==> LiveCreate(h, k, i)
  {
    var all := h + [step];
    assert forall m :: 0 <= m < |h| ==> all[m] == h[m];
  }

  lemma DeployedSinceExtends(h: seq<Step>, step: Step, k: string, i: nat, id: string)
    requires DeployedSince(h, k, i, id) && !(step.key == k && step.Deployed?)
    ensures DeployedSince(h + [step], k, i, id)
  {
    var all := h + [step];
    if !NoDeploy(h, k, i) {
      var j: nat :| LastDeploy(h, k, i, j) && id == h[j].result.providerPodID;
      assert LastDeploy(all, k, i, j) && all[j] == h[j];
    }
  }

  lemma NewDeployIsLast(h: seq<Step>, step: Step, k: string, i: nat)
    requires step.key == k && step.Deployed? && i < |h|
    ensures DeployedSince(h + [step], k, i, step.result.providerPodID)
  {
    assert LastDeploy(h + [step], k, i, |h|);
  }

  /** The record of a live create holds the id of the last deployment after it. */
  lemma {:induction false} RecordedID(h: seq<Step>, k: string, i: nat)
    requires LiveCreate(h, k, i)
    ensures k in Replay(h).infos
    ensures DeployedSince(h, k, i, Replay(h).infos[k].providerPodID)
  {
    var before, last := h[..|h| - 1], h[|h| - 1];
    assert h == before + [last];
    if i < |h| - 1 {
      assert LiveCreate(before, k, i);
      RecordedID(before, k, i);
      if last.key == k && last.Deployed? {
        NewDeployIsLast(before, last, k, i);
      } else {
        DeployedSinceExtends(before, last, k, i, Replay(before).infos[k].providerPodID);
      }
    }
  }

  /** For every history, the id that DeletePod reads is the latest deployed one. */
  lemma ProviderPodIDIsLatest(h: seq<Step>, k: string, id: string)
    ensures ProviderPodID(Replay(h), k) == id <==> LatestDeployedID(h, k, id)
  {
    TrackedIsCreated(h, k);
    if k in Replay(h).infos {
      var i: nat :| LiveCreate(h, k, i);
      RecordedID(h, k, i);
      assert LatestDeployedID(h, k, ProviderPodID(Replay(h), k));
      if LatestDeployedID(h, k, id) {
        LatestIsUnique(h, k, ProviderPodID(Replay(h), k), id);
      }
    }
  }

  lemma LatestIsUnique(h: seq<Step>, k: string, a: string, b: string)
    requires LatestDeployedID(h, k, a) && LatestDeployedID(h, k, b)
    ensures a == b
  {
    if i: nat :| LiveCreate(h, k, i) {
      forall i': nat | LiveCreate(h, k, i')
        ensures i' == i
      {
      }
      forall j: nat, j': nat | LastDeploy(h, k, i, j) && LastDeploy(h, k, i, j')
        ensures j == j'
      {
      }
    }
  }
}
