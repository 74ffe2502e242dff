/** The selection and mapping loops of the RunPod client (pkg/providers/runpod/client.go). */
module RunPodClient {
  import opened Protocol
  import opened Strings
  import opened PodCaches
  import opened PodStatuses
  import opened Commands

  // ---- getGPUTypes: filter and sort ----

  datatype GPUType = GPUType(
    id: string, memoryInGb: int,
    secureCloud: bool, securePrice: real,
    communityCloud: bool, communityPrice: real)

  /** An offer that the request can use: available in the named cloud, priced in (0, max), with enough memory. */
  predicate Usable(g: GPUType, minRAM: int, maxPrice: real, cloud: string) {
    || (cloud == "SECURE" && g.secureCloud && 0.0 < g.securePrice < maxPrice && g.memoryInGb >= minRAM)
    || (cloud == "COMMUNITY" && g.communityCloud && 0.0 < g.communityPrice < maxPrice && g.memoryInGb >= minRAM)
  }

  /** The price in the named cloud. */
  function PriceIn(g: GPUType, cloud: string): real {
    if cloud == "COMMUNITY" then g.communityPrice else g.securePrice
  }

  predicate CheapestFirst(gpus: seq<GPUType>, cloud: string) {
    forall i, j :: 0 <= i < j < |gpus| ==> PriceIn(gpus[i], cloud) <= PriceIn(gpus[j], cloud)
  }

  function Select(offers: seq<GPUType>, minRAM: int, maxPrice: real, cloud: string): seq<GPUType> {
    if offers == [] then []
    else
      var last := offers[|offers| - 1];
      Select(offers[..|offers| - 1], minRAM, maxPrice, cloud)
      + (if Usable(last, minRAM, maxPrice, cloud) then [last] else [])
  }

  lemma {:induction false} SelectCounts(offers: seq<GPUType>, minRAM: int, maxPrice: real, cloud: string, g: GPUType)
    ensures multiset(Select(offers, minRAM, maxPrice, cloud))[g]
         == if Usable(g, minRAM, maxPrice, cloud) then multiset(offers)[g] else 0
  {
    if offers != [] {
      var n := |offers| - 1;
      SelectCounts(offers[..n], minRAM, maxPrice, cloud, g);
      assert offers == offers[..n] + [offers[n]];
    }
  }

  /** `gpus` are the usable offers, each as often as it was offered, in ascending order of price. */
  ghost predicate Selection(
    gpus: seq<GPUType>, offers: seq<GPUType>, minRAM: int, maxPrice: real, cloud: string)
  {
    && (forall g :: multiset(gpus)[g] == if Usable(g, minRAM, maxPrice, cloud) then multiset(offers)[g] else 0)
    && CheapestFirst(gpus, cloud)
  }

  /** What that says of the offers in each cloud. */
  lemma SelectionByCloud(gpus: seq<GPUType>, offers: seq<GPUType>, minRAM: int, maxPrice: real, cloud: string)
    requires Selection(gpus, offers, minRAM, maxPrice, cloud)
    ensures cloud == "SECURE" ==>
              && (forall g :: g in gpus <==>
                    g in offers && g.secureCloud && 0.0 < g.securePrice < maxPrice && g.memoryInGb >= minRAM)
              && (forall i, j :: 0 <= i < j < |gpus| ==> gpus[i].securePrice <= gpus[j].securePrice)
    ensures cloud == "COMMUNITY" ==>
              && (forall g :: g in gpus <==>
                    g in offers && g.communityCloud && 0.0 < g.communityPrice < maxPrice && g.memoryInGb >= minRAM)
              && (forall i, j :: 0 <= i < j < |gpus| ==> gpus[i].communityPrice <= gpus[j].communityPrice)
  {
    forall g
      ensures g in gpus <==> g in offers && Usable(g, minRAM, maxPrice, cloud)
    {
      assert g in gpus <==> multiset(gpus)[g] > 0;
      assert g in offers <==> multiset(offers)[g] > 0;
    }
  }

  /** The selected offers, each as often as it was offered, cheapest first in the price the filter used. */
  method GetGPUTypes(offers: seq<GPUType>, minRAM: int, maxPrice: real, cloud: string) returns (gpus: seq<GPUType>)
    ensures Selection(gpus, offers, minRAM, maxPrice, cloud)
    ensures cloud != "SECURE" && cloud != "COMMUNITY" ==> gpus == []
  {
    var filtered := [];
    for i := 0 to |offers|
      invariant filtered == Select(offers[..i], minRAM, maxPrice, cloud)
    {
      var gpu := offers[i];
      var price, cloudCheck := 0.0, false;
      if cloud == "SECURE" {
        price, cloudCheck := gpu.securePrice, gpu.secureCloud;
      } else if cloud == "COMMUNITY" {
        price, cloudCheck := gpu.communityPrice, gpu.communityCloud;
      }
      assert offers[..i + 1][..i] == offers[..i];
      if cloudCheck && price > 0.0 && price < maxPrice && gpu.memoryInGb >= minRAM {
        filtered := filtered + [gpu];
      }
    }
    assert offers[..|offers|] == offers;
    gpus := SortByPrice(filtered, cloud);
    forall g
      ensures multiset(gpus)[g] == if Usable(g, minRAM, maxPrice, cloud) then multiset(offers)[g] else 0
    {
      SelectCounts(offers, minRAM, maxPrice, cloud, g);
    }
    if cloud != "SECURE" && cloud != "COMMUNITY" {
      NothingElsewhere(offers, minRAM, maxPrice, cloud);
      assert |gpus| == |multiset(gpus)| == 0;
    }
  }

  lemma {:induction false} NothingElsewhere(offers: seq<GPUType>, minRAM: int, maxPrice: real, cloud: string)
    requires cloud != "SECURE" && cloud != "COMMUNITY"
    ensures Select(offers, minRAM, maxPrice, cloud) == []
  {
    if offers != [] {
      NothingElsewhere(offers[..|offers| - 1], minRAM, maxPrice, cloud);
    }
  }

  /** Stands for sort.Slice, of which only its guarantee is used: an ordered permutation. */
  method SortByPrice(gpus: seq<GPUType>, cloud: string) returns (sorted: seq<GPUType>)
    ensures multiset(sorted) == multiset(gpus)
    ensures CheapestFirst(sorted, cloud)
  {
    sorted := [];
    for i := 0 to |gpus|
      invariant multiset(sorted) == multiset(gpus[..i])
      invariant CheapestFirst(sorted, cloud)
    {
      assert gpus[..i + 1] == gpus[..i] + [gpus[i]];
      sorted := Insert(sorted, gpus[i], cloud);
    }
    assert gpus[..|gpus|] == gpus;
  }

  method Insert(sorted: seq<GPUType>, g: GPUType, cloud: string) returns (r: seq<GPUType>)
    requires CheapestFirst(sorted, cloud)
    ensures multiset(r) == multiset(sorted) + multiset{g}
    ensures CheapestFirst(r, cloud)
  {
    var i := InsertionPoint(sorted, g, cloud);
    r := sorted[..i] + [g] + sorted[i..];
    InsertKeepsOrder(sorted, g, i, cloud);
    InsertKeepsElements(sorted, g, i);
  }

  method InsertionPoint(sorted: seq<GPUType>, g: GPUType, cloud: string) returns (i: nat)
    ensures i <= |sorted|
    ensures i == 0 || PriceIn(sorted[i - 1], cloud) <= PriceIn(g, cloud)
    ensures i == |sorted| || PriceIn(g, cloud) <= PriceIn(sorted[i], cloud)
  {
    i := |sorted|;
    while 0 < i && PriceIn(g, cloud) < PriceIn(sorted[i - 1], cloud)
      invariant i <= |sorted|
      invariant i == |sorted| || PriceIn(g, cloud) <= PriceIn(sorted[i], cloud)
    {
      i := i - 1;
    }
  }

  lemma InsertKeepsElements(sorted: seq<GPUType>, g: GPUType, i: nat)
    requires i <= |sorted|
    ensures multiset(sorted[..i] + [g] + sorted[i..]) == multiset(sorted) + multiset{g}
  {
    assert sorted == sorted[..i] + sorted[i..];
  }

  lemma InsertKeepsOrder(sorted: seq<GPUType>, g: GPUType, i: nat, cloud: string)
    requires CheapestFirst(sorted, cloud) && i <= |sorted|
    requires i == 0 || PriceIn(sorted[i - 1], cloud) <= PriceIn(g, cloud)
    requires i == |sorted| || PriceIn(g, cloud) <= PriceIn(sorted[i], cloud)
    ensures CheapestFirst(sorted[..i] + [g] + sorted[i..], cloud)
  {
    var r := sorted[..i] + [g] + sorted[i..];
    forall j, k | 0 <= j < k < |r|
      ensures PriceIn(r[j], cloud) <= PriceIn(r[k], cloud)
    {
      var a := if j < i then j else j - 1;
      var b := if k < i then k else k - 1;
      if j != i && k != i {
        assert r[j] == sorted[a] && r[k] == sorted[b];
      } else if j == i {
        assert r[k] == sorted[b] && i <= b;
      } else {
        assert r[j] == sorted[a] && a <= i - 1;
      }
    }
  }

  // ---- proxyPortURLs ----

  /** The port of a spec such as "8080/http"; other protocols have no proxy URL. */
  function HttpPort(spec: string): Option<string> {
    var port := TrimSpace(CutBefore(spec, '/'));
    if port == "" || ToLower(TrimSpace(CutAfter(spec, '/'))) != "http" then None else Some(port)
  }

  function ProxyURL(podID: string, port: string): string {
    "https://" + podID + "-" + port + ".proxy.runpod.net"
  }

  /** "http" in any case. */
  predicate IsHTTP(proto: string) {
    && |proto| == 4
    && (proto[0] == 'h' || proto[0] == 'H') && (proto[1] == 't' || proto[1] == 'T')
    && (proto[2] == 't' || proto[2] == 'T') && (proto[3] == 'p' || proto[3] == 'P')
  }

  lemma IsHTTPIff(proto: string)
    ensures ToLower(proto) == "http" <==> IsHTTP(proto)
  {
    var lower := ToLower(proto);
    if IsHTTP(proto) {
      assert lower[0] == 'h' && lower[1] == 't' && lower[2] == 't' && lower[3] == 'p';
    }
    if lower == "http" {
      assert lower[0] == LowerAscii(proto[0]) && lower[1] == LowerAscii(proto[1]);
      assert lower[2] == LowerAscii(proto[2]) && lower[3] == LowerAscii(proto[3]);
    }
  }

  /** `before` and `after` are what is left and right of the first slash. */
  predicate SplitAtSlash(spec: string, before: string, after: string) {
    spec == before + "/" + after && '/' !in before
  }

  /** A port specification: a port that is not blank, a slash, and http in any case, with spaces around either. */
  ghost predicate HttpSpec(spec: string, port: string) {
    port != "" && exists before, after, proto ::
      SplitAtSlash(spec, before, after) && TrimsTo(before, port) && TrimsTo(after, proto) && IsHTTP(proto)
  }

  lemma CutsAtFirstSlash(spec: string, before: string, after: string)
    requires SplitAtSlash(spec, before, after)
    ensures before == CutBefore(spec, '/') && after == CutAfter(spec, '/')
  {
    var b, a := CutBefore(spec, '/'), CutAfter(spec, '/');
    assert spec[|before|] == '/';
    assert '/' in spec;
    assert spec == b + ['/'] + a;
    assert spec[|b|] == '/';
    assert forall i :: 0 <= i < |before| ==> spec[i] == before[i];
    assert forall i :: 0 <= i < |b| ==> spec[i] == b[i];
    assert |before| == |b|;
    assert spec[..|b|] == b && spec[..|b|] == before;
    assert spec[|b| + 1..] == a && spec[|b| + 1..] == after;
  }

  lemma NoSlashNoPort(spec: string)
    requires '/' !in spec
    ensures HttpPort(spec).None?
  {
    assert TrimSpace("") == "";
    assert |ToLower("")| == 0;
  }

  lemma HttpPortIff(spec: string, port: string)
    ensures HttpPort(spec) == Some(port) <==> HttpSpec(spec, port)
  {
    var before, after := CutBefore(spec, '/'), CutAfter(spec, '/');
    var proto := TrimSpace(after);
    TrimSpaceIff(before, port);
    TrimSpaceIff(after, proto);
    IsHTTPIff(proto);
    if HttpPort(spec) == Some(port) {
      if '/' !in spec {
        NoSlashNoPort(spec);
        assert false;
      }
      assert SplitAtSlash(spec, before, after);
    }
    if HttpSpec(spec, port) {
      var b, a, p :| SplitAtSlash(spec, b, a) && TrimsTo(b, port) && TrimsTo(a, p) && IsHTTP(p);
      CutsAtFirstSlash(spec, b, a);
      TrimSpaceIff(after, p);
    }
  }

  function Elements(specs: seq<string>): set<string> {
    set spec | spec in specs
  }

  /** The ports with a proxy URL among a set of specs. */
  function HttpPorts(specs: set<string>): set<string> {
    set spec | spec in specs && HttpPort(spec).Some? :: HttpPort(spec).value
  }

  /** The result as a function of the pod and the set of specs, so of neither their order nor their number. */
  function PortMap(podID: string, specs: set<string>): Option<map<string, string>> {
    if podID == "" || HttpPorts(specs) == {} then None
    else Some(URLs(podID, HttpPorts(specs)))
  }

  function URLs(podID: string, ports: set<string>): (m: map<string, string>)
    ensures m.Keys == ports
  {
    map port | port in ports :: ProxyURL(podID, port)
  }

  method ProxyPortURLs(podID: string, ports: seq<string>) returns (urls: Option<map<string, string>>)
    ensures urls == PortMap(podID, Elements(ports))
  {
    if podID == "" || |ports| == 0 {
      assert |ports| == 0 ==> HttpPorts(Elements(ports)) == {};
      return None;
    }
    var found := CollectURLs(podID, ports);
    if |found| == 0 {
      return None;
    }
    return Some(found);
  }

  /** The loop over the specs. */
  method CollectURLs(podID: string, ports: seq<string>) returns (found: map<string, string>)
    ensures found == URLs(podID, HttpPorts(Elements(ports)))
  {
    found := map[];
    for i := 0 to |ports|
      invariant found == URLs(podID, HttpPorts(Elements(ports[..i])))
    {
      NextURL(podID, ports, i);
      var port := TrimSpace(CutBefore(ports[i], '/'));
      var proto := TrimSpace(CutAfter(ports[i], '/'));
      if port != "" && ToLower(proto) == "http" {
        found := found[port := ProxyURL(podID, port)];
      }
    }
    assert ports[..|ports|] == ports;
  }

  function WithPort(urls: map<string, string>, podID: string, port: Option<string>): map<string, string> {
    if port.Some? then urls[port.value := ProxyURL(podID, port.value)] else urls
  }

  lemma NextURL(podID: string, ports: seq<string>, i: nat)
    requires i < |ports|
    ensures URLs(podID, HttpPorts(Elements(ports[..i + 1])))
         == WithPort(URLs(podID, HttpPorts(Elements(ports[..i]))), podID, HttpPort(ports[i]))
  {
    NextSpec(ports, i);
  }

  lemma NextSpec(ports: seq<string>, i: nat)
    requires i < |ports|
    ensures HttpPorts(Elements(ports[..i + 1]))
         == HttpPorts(Elements(ports[..i])) + (if HttpPort(ports[i]).Some? then {HttpPort(ports[i]).value} else {})
  {
    var before, after := Elements(ports[..i]), Elements(ports[..i + 1]);
    assert ports[..i + 1] == ports[..i] + [ports[i]];
    assert after == before + {ports[i]};
  }

  /** A pod id and at least one HTTP port are what it takes to get a map. */
  lemma PortMapNilIff(podID: string, specs: set<string>)
    ensures PortMap(podID, specs).None? <==> podID == "" || forall spec, port :: spec in specs ==> !HttpSpec(spec, port)
  {
    if spec :| spec in specs && HttpPort(spec).Some? {
      assert HttpPort(spec).value in HttpPorts(specs);
      HttpPortIff(spec, HttpPort(spec).value);
    }
    if spec, port :| spec in specs && HttpSpec(spec, port) {
      HttpPortIff(spec, port);
      assert port in HttpPorts(specs);
    }
  }

  /** The ports of the map are exactly those of the HTTP specs, each with its own URL. */
  lemma PortMapEntries(podID: string, specs: set<string>, port: string)
    requires PortMap(podID, specs).Some?
    ensures port in PortMap(podID, specs).value <==> exists spec :: spec in specs && HttpSpec(spec, port)
    ensures port in PortMap(podID, specs).value ==>
              PortMap(podID, specs).value[port] == "https://" + podID + "-" + port + ".proxy.runpod.net"
    ensures port in PortMap(podID, specs).value ==> port != "" && Trimmed(port)
  {
    if port in PortMap(podID, specs).value {
      var spec :| spec in specs && HttpPort(spec) == Some(port);
      HttpPortIff(spec, port);
    }
    if spec :| spec in specs && HttpSpec(spec, port) {
      HttpPortIff(spec, port);
      assert port in HttpPorts(specs);
    }
  }

  // ---- Deploy: the result of a created pod ----

  datatype Machine = Machine(gpuTypeID: string, dataCenterID: string)

  datatype CreatedPod = CreatedPod(
    id: string, costPerHr: real, desiredStatus: string, machineID: string, machine: Option<Machine>)

  const RUNPOD := "runpod"

  /** Deploy after the REST call; a nil port map is an empty one. */
  function DeployedPod(created: CreatedPod, ports: seq<string>): DeployResult {
    var urls := PortMap(created.id, Elements(ports));
    DeployResult(
      created.id, RUNPOD, MapRunPodStatus(if created.desiredStatus == "" then "STARTING" else created.desiredStatus),
      created.costPerHr,
      if created.machine.Some? then created.machine.value.gpuTypeID else "",
      created.machineID,
      if created.machine.Some? then created.machine.value.dataCenterID else "",
      if urls.Some? then urls.value else map[])
  }

  /** Deploy, filling in the result step by step. */
  method Deploy(created: CreatedPod, ports: seq<string>) returns (result: DeployResult)
    ensures result == DeployedPod(created, ports)
  {
    var status := created.desiredStatus;
    if status == "" {
      status := "STARTING";
    }
    var urls := ProxyPortURLs(created.id, ports);
    result := DeployResult(
      created.id, RUNPOD, MapRunPodStatus(status), created.costPerHr, "", created.machineID, "",
      if urls.Some? then urls.value else map[]);
    if created.machine.Some? {
      result := result.(gpuType := created.machine.value.gpuTypeID);
      result := result.(datacenterID := created.machine.value.dataCenterID);
    }
  }

  /**
   * From the command to the pod's record: a deployment routed to the RunPod
   * client, which is registered under its own name, is recorded under the name
   * it was routed on, with the created pod's id, cost, machine and data center,
   * and with its status, STARTING if it has none yet.
   */
  lemma RunPodDeploymentRecorded(
    dec: Decoders, registered: set<string>, env: CommandEnvelope, answers: Answers, applied: RejectOutcome,
    created: CreatedPod, cache: Cache)
    requires DeploymentOf(dec, env).Some? && DeploymentOf(dec, env).value.provider == RUNPOD && RUNPOD in registered
    requires answers.deploy == Ok(DeployedPod(created, DeploymentOf(dec, env).value.ports))
    ensures var params := DeploymentOf(dec, env).value;
            var booking := BookingFor(dec, env, HandleCommand(dec, registered, env, answers, applied).response);
            var key := PodKey(params.namespace, params.podName);
            && booking.Some? && booking.value.params == params
            && (key in cache.infos ==>
                  var info := Apply(cache, Step.Deployed(key, params.provider, booking.value.result)).infos[key];
                  && info.provider == params.provider
                  && info.providerPodID == created.id
                  && info.status == (if created.desiredStatus == "" then "STARTING" else created.desiredStatus)
                  && info.costPerHour == created.costPerHr
                  && info.machineID == created.machineID
                  && info.location == (if created.machine.Some? then created.machine.value.dataCenterID else "")
                  && info.rejectCode == cache.infos[key].rejectCode)
  {
    DeployedIff(dec, registered, env, answers, applied);
    BookingMatchesCall(dec, registered, env, answers, applied);
    StandardStatusIsIdentity(if created.desiredStatus == "" then "STARTING" else created.desiredStatus);
  }

  /** What the platform is told of a created pod: where it runs, what it costs, and the URL of each HTTP port. */
  lemma DeployedPodFields(created: CreatedPod, ports: seq<string>, port: string)
    ensures var r := DeployedPod(created, ports);
            && r.providerPodID == created.id && r.provider == "runpod" && r.machineID == created.machineID
            && r.costPerHour == created.costPerHr
            && r.status == (if created.desiredStatus == "" then "STARTING" else created.desiredStatus)
            && r.gpuType == (if created.machine.Some? then created.machine.value.gpuTypeID else "")
            && r.datacenterID == (if created.machine.Some? then created.machine.value.dataCenterID else "")
            && (port in r.ports <==> created.id != "" && exists spec :: spec in ports && HttpSpec(spec, port))
            && (port in r.ports ==> r.ports[port] == "https://" + created.id + "-" + port + ".proxy.runpod.net")
  {
    StandardStatusIsIdentity(if created.desiredStatus == "" then "STARTING" else created.desiredStatus);
    PortMapNilIff(created.id, Elements(ports));
    if PortMap(created.id, Elements(ports)).Some? {
      PortMapEntries(created.id, Elements(ports), port);
    }
    assert forall spec :: spec in ports <==> spec in Elements(ports);
  }
}
