/**
 * The pod cache as the object that the controller's calls and the command loop
 * share: two maps of references, to pod objects and to instance records that are
 * updated in place. Each method is one critical section.
 */
module PodCacheObjects {
  import opened Protocol
  import opened PodCaches
  import opened PodStatuses

  /** A cached copy of a pod; its status is written in place, the rest never. */
  class PodObject {
    const meta: PodMeta
    ghost const key: string
    ghost const version: nat
    var report: Report

    constructor (pod: Pod, ghost key: string, ghost version: nat)
      ensures meta == pod.meta && report == pod.report && this.key == key && this.version == version
    {
      meta, report := pod.meta, pod.report;
      this.key, this.version := key, version;
    }

    ghost function View(): Entry
      reads this
    {
      Entry(Pod(meta, report), version)
    }
  }

  /** A PodInstanceInfo; creation and check times are not modelled. */
  class InstanceInfo {
    var podID: string
    var providerPodID: string
    var provider: string
    var status: string
    var costPerHour: real
    var machineID: string
    var location: string
    var statusResult: Option<StatusResult>
    var rejectCode: string
    var rejectMessage: string

    ghost function View(): Info
      reads this
    {
      Info(podID, providerPodID, provider, status, costPerHour, machineID, location, statusResult,
           rejectCode, rejectMessage)
    }

    constructor (uid: string)
      ensures View() == NewInfo(uid)
    {
      podID, status := uid, "PENDING";
      providerPodID, provider, machineID, location := "", "", "", "";
      costPerHour := 0.0;
      statusResult := None;
      rejectCode, rejectMessage := "", "";
    }

    /** The assignments of handleDeploymentSuccess. */
    method Deploy(params: DeployParams, result: DeployResult)
      modifies this
      ensures View() == WithDeployment(old(View()), params.provider, result)
    {
      providerPodID := result.providerPodID;
      provider := result.provider;
      if provider == "" {
        provider := params.provider;
      }
      status := result.status;
      costPerHour := result.costPerHour;
      machineID := result.machineID;
      location := result.datacenterID;
    }

    /** The assignments of handleReject. */
    method Reject(params: RejectParams)
      modifies this
      ensures View() == WithRejection(old(View()), params.code, params.message)
    {
      rejectCode := params.code;
      rejectMessage := params.message;
      status := "REJECTED";
    }
  }

  class PodCache {
    var pods: map<string, PodObject>
    var podStatus: map<string, InstanceInfo>
    ghost var versions: map<string, nat>

    /** The cached object of a key is its newest. */
    ghost predicate ValidPods()
      reads this`pods, this`versions
    {
      forall k :: k in pods ==> pods[k].key == k && k in versions && pods[k].version == versions[k]
    }

    /** `p` was stored here: it is the cached object of its key, or an older or removed one. */
    ghost predicate Known(p: PodObject)
      reads this`pods, this`versions
    {
      && p.key in versions && p.version <= versions[p.key]
      && (p.key in pods && pods[p.key].version == p.version ==> pods[p.key] == p)
    }

    /** No two keys share a record. */
    ghost predicate ValidRecords()
      reads this`podStatus
    {
      forall k, l :: k in podStatus && l in podStatus && podStatus[k] == podStatus[l] ==> k == l
    }

    ghost predicate Valid()
      reads this
    {
      ValidPods() && ValidRecords()
    }

    ghost function Records(): set<InstanceInfo>
      reads this`podStatus
    {
      set k | k in podStatus :: podStatus[k]
    }

    ghost function PodsView(): map<string, Entry>
      requires ValidPods()
      reads this`pods, this`versions, pods.Values
    {
      map k | k in pods :: pods[k].View()
    }

    ghost function InfosView(): map<string, Info>
      reads this`podStatus, Records()
    {
      map k | k in podStatus :: podStatus[k].View()
    }

    ghost function View(): Cache
      requires Valid()
      reads this, pods.Values, Records()
    {
      Cache(PodsView(), InfosView(), versions)
    }

    constructor ()
      ensures Valid() && View() == EMPTY && pods == map[] && podStatus == map[]
    {
      pods, podStatus, versions := map[], map[], map[];
    }

    /** CreatePod under the lock. */
    method StoreNew(pod: Pod)
      requires Valid()
      modifies this
      ensures Valid()
      ensures var key := CacheKey(pod.meta.namespace, pod.meta.name);
              key in pods && fresh(pods[key]) && key in podStatus && fresh(podStatus[key])
      ensures View() == Apply(old(View()), Create(CacheKey(pod.meta.namespace, pod.meta.name), pod))
    {
      var key := CacheKey(pod.meta.namespace, pod.meta.name);
      StoreObject(key, pod);
      assert InfosView() == old(InfosView());
      ghost var stored := PodsView();
      StoreRecord(key, pod.meta.uid);
      assert PodsView() == stored;
    }

    /** UpdatePod under the lock: the object is replaced, the record is not touched. */
    method StoreUpdate(pod: Pod)
      requires Valid()
      modifies this
      ensures Valid() && podStatus == old(podStatus)
      ensures var key := CacheKey(pod.meta.namespace, pod.meta.name);
              key in pods && fresh(pods[key])
      ensures View() == Apply(old(View()), Update(CacheKey(pod.meta.namespace, pod.meta.name), pod))
    {
      StoreObject(CacheKey(pod.meta.namespace, pod.meta.name), pod);
    }

    /** pods[key] = pod.DeepCopy() */
    method StoreObject(key: string, pod: Pod)
      requires ValidPods()
      modifies this`pods, this`versions
      ensures ValidPods() && key in pods && fresh(pods[key])
      ensures var v := (if key in old(versions) then old(versions)[key] else 0) + 1;
              PodsView() == old(PodsView())[key := Entry(pod, v)] && versions == old(versions)[key := v]
      ensures forall p: PodObject {:trigger Known(p)} :: old(allocated(p)) && old(Known(p)) ==> Known(p)
    {
      var copy := new PodObject(pod, key, (if key in versions then versions[key] else 0) + 1);
      PutObject(key, copy);
    }

    /** The map entry is replaced; the object before it stays known, as an older one. */
    method PutObject(key: string, copy: PodObject)
      requires ValidPods() && copy.key == key
      requires copy.version == (if key in versions then versions[key] else 0) + 1
      modifies this`pods, this`versions
      ensures ValidPods() && pods == old(pods)[key := copy] && versions == old(versions)[key := copy.version]
      ensures PodsView() == old(PodsView())[key := copy.View()]
      ensures forall p: PodObject {:trigger Known(p)} :: old(allocated(p)) && old(Known(p)) ==> Known(p)
    {
      pods := pods[key := copy];
      versions := versions[key := copy.version];
    }

    /** podStatus[key] = &PodInstanceInfo{...} */
    method StoreRecord(key: string, uid: string)
      requires ValidRecords()
      modifies this`podStatus
      ensures ValidRecords() && fresh(Records() - old(Records())) && key in podStatus && fresh(podStatus[key])
      ensures InfosView() == old(InfosView())[key := NewInfo(uid)]
    {
      var record := new InstanceInfo(uid);
      assert record !in Records();
      podStatus := podStatus[key := record];
    }

    /** DeletePod's first critical section. */
    method ReadProviderPodID(key: string) returns (id: string)
      requires Valid()
      ensures id == ProviderPodID(View(), key)
    {
      id := "";
      if key in podStatus {
        id := podStatus[key].providerPodID;
      }
    }

    /** DeletePod's second critical section. */
    method Delete(key: string)
      requires Valid()
      modifies this
      ensures Valid() && Records() <= old(Records())
      ensures View() == Apply(old(View()), Remove(key))
    {
      ForgetObject(key);
      ghost var left, infos := PodsView(), InfosView();
      ForgetRecord(key);
      assert PodsView() == left && infos == old(InfosView());
    }

    /** delete(pods, key) */
    method ForgetObject(key: string)
      requires ValidPods()
      modifies this`pods
      ensures ValidPods() && PodsView() == old(PodsView()) - {key}
      ensures forall p: PodObject {:trigger Known(p)} :: old(allocated(p)) && old(Known(p)) ==> Known(p)
    {
      pods := pods - {key};
    }

    /** delete(podStatus, key) */
    method ForgetRecord(key: string)
      requires ValidRecords()
      modifies this`podStatus
      ensures ValidRecords() && Records() <= old(Records())
      ensures InfosView() == old(InfosView()) - {key}
    {
      podStatus := podStatus - {key};
    }

    /** handleDeploymentSuccess under the lock; the pod found is notified afterwards. */
    method RecordDeployment(params: DeployParams, result: DeployResult) returns (found: PodObject?)
      requires Valid()
      modifies Records()
      ensures Valid()
      ensures var key := PodKey(params.namespace, params.podName);
              View() == Apply(old(View()), Step.Deployed(key, params.provider, result))
      ensures found != null <==> PodKey(params.namespace, params.podName) in pods
      ensures found != null ==> found == pods[PodKey(params.namespace, params.podName)]
    {
      var key := PodKey(params.namespace, params.podName);
      if key in podStatus {
        podStatus[key].Deploy(params, result);
        RecordChanged(key);
      }
      found := if key in pods then pods[key] else null;
    }

    /** handleReject under the lock. */
    method RecordRejection(params: RejectParams) returns (found: PodObject?)
      requires Valid()
      modifies Records()
      ensures Valid()
      ensures var key := PodKey(params.namespace, params.podName);
              View() == Apply(old(View()), Rejected(key, params.code, params.message))
      ensures found != null <==> PodKey(params.namespace, params.podName) in pods
      ensures found != null ==> found == pods[PodKey(params.namespace, params.podName)]
    {
      var key := PodKey(params.namespace, params.podName);
      found := if key in pods then pods[key] else null;
      if key in podStatus {
        MarkRejected(key, params);
      }
    }

    /** The record of one key is marked as rejected. */
    method MarkRejected(key: string, params: RejectParams)
      requires ValidRecords() && key in podStatus
      modifies podStatus[key]
      ensures InfosView() == old(InfosView())[key := WithRejection(old(InfosView())[key], params.code, params.message)]
    {
      podStatus[key].Reject(params);
      RecordChanged(key);
    }

    /** Writing one record changes the entry of its key only, since no two keys share a record. */
    twostate lemma RecordChanged(key: string)
      requires ValidRecords() && key in podStatus && unchanged(this)
      requires forall r :: r in Records() && r != podStatus[key] ==> unchanged(r)
      ensures InfosView() == old(InfosView())[key := podStatus[key].View()]
    {
      forall k | k in podStatus && k != key
        ensures podStatus[k].View() == old(podStatus[k].View())
      {
        assert podStatus[k] in Records() && podStatus[k] != podStatus[key];
      }
    }

    /** updatePodStatus, without the lock: the object may have been replaced or removed in the meantime. */
    method UpdatePodStatus(pod: PodObject, report: Report)
      requires Valid() && Known(pod)
      modifies pod
      ensures Valid() && pod.report == report
      ensures View() == Apply(old(View()), SetReport(pod.key, pod.version, report))
    {
      ghost var infos := InfosView();
      pod.report := report;
      assert InfosView() == infos;
    }

    /** handleDeploymentSuccess from end to end, with nothing in between. */
    method HandleDeploymentSuccess(params: DeployParams, result: DeployResult, notifying: bool)
      requires Valid()
      modifies Records(), pods.Values
      ensures Valid()
      ensures var key := PodKey(params.namespace, params.podName);
              View() == Notified(Apply(old(View()), Step.Deployed(key, params.provider, result)),
                                 key, WAITING, notifying)
      ensures var key := PodKey(params.namespace, params.podName);
              && (key in podStatus ==>
                    podStatus[key].status == result.status && podStatus[key].costPerHour == result.costPerHour)
              && (notifying && key in pods ==>
                    pods[key].report == Report("Pending", "", "Instance deployed, waiting for startup"))
    {
      var found := RecordDeployment(params, result);
      if found != null && notifying {
        UpdatePodStatus(found, WAITING);
      }
    }

    /** handleReject from end to end: an unknown pod is an error, but its record is marked all the same. */
    method HandleReject(params: RejectParams, notifying: bool) returns (err: Option<string>)
      requires Valid()
      modifies Records(), pods.Values
      ensures Valid()
      ensures var key := PodKey(params.namespace, params.podName);
              err == if key in pods then None else Some("pod " + key + " not found")
      ensures var key := PodKey(params.namespace, params.podName);
              View() == Notified(Apply(old(View()), Rejected(key, params.code, params.message)),
                                 key, Report("Failed", params.code, params.message), notifying)
      ensures var key := PodKey(params.namespace, params.podName);
              && (key in podStatus ==>
                    podStatus[key].status == "REJECTED" && podStatus[key].rejectCode == params.code
                    && podStatus[key].rejectMessage == params.message)
              && (notifying && key in pods ==>
                    pods[key].report == Report("Failed", params.code, params.message))
    {
      var found := RecordRejection(params);
      if found == null {
        return Some("pod " + PodKey(params.namespace, params.podName) + " not found");
      }
      if notifying {
        UpdatePodStatus(found, Report("Failed", params.code, params.message));
      }
      return None;
    }

    /** GetPodStatus: the lookups, then the projection. */
    method PodStatusOf(namespace: string, name: string) returns (answer: StatusAnswer)
      requires Valid()
      ensures answer == GetPodStatus(CellOf(View(), CacheKey(namespace, name)))
    {
      var key := CacheKey(namespace, name);
      if key !in pods {
        return NotFound;
      }
      var pod := pods[key];
      if key in podStatus {
        var info := podStatus[key];
        if info.rejectCode != "" {
          return Answer(PodStatus("Failed", info.rejectCode, info.rejectMessage, [PodScheduled], []));
        }
        if info.statusResult.Some? {
          var r := info.statusResult.value;
          if pod.meta.containers == [] {
            return Panics;
          }
          var phase, conditions := "Pending", [PodScheduled];
          match r.phase {
            case "Running" =>
              phase := "Running";
              conditions := conditions + [PodReady];
            case "Succeeded" => phase := "Succeeded";
            case "Failed" => phase := "Failed";
            case _ =>
          }
          var container := ContainerStatus(
            pod.meta.containers[0], phase == "Running", phase == "Running", None, false, None);
          if r.isTerminated {
            container := container.(terminated := Some((Int32(r.exitCode), r.message)));
          } else if r.isRunning {
            container := container.(running := true);
          } else {
            container := container.(waiting := Some((info.status, r.message)));
          }
          return Answer(PodStatus(phase, "", "", conditions, [container]));
        }
      }
      return Answer(PodStatus("Pending", "", "", [PodScheduled], []));
    }
  }
}
