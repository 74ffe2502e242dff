/** The messages of the kubelet protocol (pkg/websocket/protocol.go), as values. */
module Protocol {
  import opened Strings

  datatype Option<+T> = None | Some(value: T)

  datatype DeployParams = DeployParams(podName: string, namespace: string, provider: string, ports: seq<string>)

  datatype DeployResult = DeployResult(
    providerPodID: string, provider: string, status: string, costPerHour: real,
    gpuType: string, machineID: string, datacenterID: string, ports: map<string, string>)

  datatype TerminateParams = TerminateParams(
    podName: string, namespace: string, provider: string, providerPodID: string)

  datatype StatusParams = StatusParams(podName: string, namespace: string, provider: string, providerPodID: string)

  datatype StatusResult = StatusResult(
    podName: string, providerPodID: string, provider: string, status: string, phase: string,
    isRunning: bool, isTerminated: bool, exitCode: int, message: string)

  datatype RejectParams = RejectParams(podName: string, namespace: string, code: string, message: string)

  /** The data member of a response; Null is an absent one. */
  datatype ResponseData = Null | Empty | Deployed(deploy: DeployResult) | Terminated | Status(report: StatusResult)

  datatype ErrorDetails = ErrorDetails(code: string, message: string, providerError: string)

  datatype Response = Response(commandID: string, success: bool, data: ResponseData, error: Option<ErrorDetails>)

  function NewSuccessResponse(commandID: string, data: ResponseData): Response {
    Response(commandID, true, if data == Null then Empty else data, None)
  }

  function NewErrorResponse(commandID: string, code: string, message: string, providerError: string): Response {
    Response(commandID, false, Null, Some(ErrorDetails(code, message, providerError)))
  }

  datatype Event =
    | PodCreated(podName: string, namespace: string, uid: string)
    | PodDeleted(podName: string, namespace: string, uid: string, providerPodID: string)
    | KubeletReady(nodeName: string)

  datatype Body = ResponseBody(response: Response) | EventBody(event: Event) | HeartbeatBody | RegistrationBody

  /** The goroutine that sends: the command loop, the pod controller's worker, the ticker, or an on-connect call. */
  datatype Sender = Processor | Controller | Ticker | OnConnect(epoch: nat)

  /** An outgoing envelope with the goroutine that built it. */
  datatype Envelope = Envelope(sender: Sender, body: Body)

  /** An incoming command envelope: its id is the command id, its payload is undecoded. */
  datatype CommandEnvelope = CommandEnvelope(id: string, payload: string)

  /** What a frame from the platform turns out to be. */
  datatype Frame = Unparsable | CommandFrame(command: CommandEnvelope) | HeartbeatFrame | OtherFrame

  /** The key under which commands address a pod. */
  function PodKey(namespace: string, name: string): string {
    TrimSpace(namespace) + "/" + TrimSpace(name)
  }

  /** The key under which the pod controller's calls store a pod. */
  function CacheKey(namespace: string, name: string): string {
    namespace + "/" + name
  }

  /** A command reaches the pod stored for the same names exactly when neither name has outer spaces. */
  lemma KeysAgreeIff(namespace: string, name: string)
    ensures PodKey(namespace, name) == CacheKey(namespace, name) <==> Trimmed(namespace) && Trimmed(name)
  {
    TrimSpaceFixes(namespace);
    TrimSpaceFixes(name);
    var n, m := TrimSpace(namespace), TrimSpace(name);
    if PodKey(namespace, name) == CacheKey(namespace, name) {
      assert |n| + |m| == |namespace| + |name|;
      assert (n + "/" + m)[..|n|] == n;
      assert (n + "/" + m)[|n| + 1..] == m;
      assert (namespace + "/" + name)[..|namespace|] == namespace;
      assert (namespace + "/" + name)[|namespace| + 1..] == name;
    }
  }

  /** Distinct pods have distinct keys as long as namespaces contain no slash. */
  lemma CacheKeyInjective(namespace: string, name: string, namespace': string, name': string)
    requires '/' !in namespace && '/' !in namespace'
    requires CacheKey(namespace, name) == CacheKey(namespace', name')
    ensures namespace == namespace' && name == name'
  {
    var key := CacheKey(namespace, name);
    assert key[|namespace|] == '/' && key[|namespace'|] == '/';
    assert forall i :: 0 <= i < |namespace| ==> key[i] == namespace[i];
    assert forall i :: 0 <= i < |namespace'| ==> key[i] == namespace'[i];
    assert |namespace| == |namespace'|;
    assert key[..|namespace|] == namespace && key[..|namespace'|] == namespace';
    assert key[|namespace| + 1..] == name && key[|namespace'| + 1..] == name';
  }

  /** The envelopes of one sender, in order. */
  function From(envelopes: seq<Envelope>, sender: Sender): (r: seq<Envelope>)
    ensures |r| <= |envelopes|
  {
    if envelopes == [] then []
    else
      var last := envelopes[|envelopes| - 1];
      From(envelopes[..|envelopes| - 1], sender) + (if last.sender == sender then [last] else [])
  }

  lemma FromAppend(envelopes: seq<Envelope>, e: Envelope, sender: Sender)
    ensures From(envelopes + [e], sender) == From(envelopes, sender) + (if e.sender == sender then [e] else [])
  {
    assert (envelopes + [e])[..|envelopes|] == envelopes;
  }
}
