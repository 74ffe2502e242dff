# A verified model of the proxy kubelet

The proxy kubelet is a virtual Kubernetes node. A pod controller calls it to
create, update and delete pods; it reports these calls to a platform over one
long-lived WebSocket connection and executes the platform's commands (deploy,
terminate, status, ping, reject) against GPU cloud providers. This project
models the parts in which goroutines share state, and proves what they
guarantee together.

**The WebSocket client.** `ClientMachine` (Client.dfy) is a transition system
whose actions are the atomic blocks of the goroutines: the connection manager
with its message loop, one reader per connection, the senders, the consumer of
commands and `Stop`. Network outcomes and `select` choices are part of the
action. `Outboxes` and `Inboxes` hold the two bounded channels with ghost
histories, `ManagerLogs` what the manager does as a word of events, `Backoff`
the reconnect delay in 64-bit arithmetic. `ClientInvariants` shows what each
step keeps; `ClientTheorems`, `Shutdown` and `Refusals` state the guarantees
over all runs; `ClientTraces` ties the histories to the actions of the run, and
`ClientCauses` says what can close a connection, end a loop or the manager, or
keep the manager waiting.
`ClientObjects` is the imperative side: a class with the client's fields and
two ring-buffer channels (`Channels`), whose methods are proved to take the
steps of the transition system.

**The pod cache.** `PodCaches` gives the meaning of the critical sections of
`podsMutex` and of the unlocked write into a pod object; `PodCacheObjects` is
the pair of maps of references that implements them, records and pod objects
being updated in place. `PodStatuses` covers the way from a RunPod answer to
the Kubernetes pod status, and latched rejections. `PodHistories` says what the
cache holds and what is reported after any history, from its steps alone.

**The command pipeline.** `Commands` is the command handler with provider
answers as parameters; `CommandLoops` runs it on the pod cache object.
`Kubelets` composes client, cache, command loop and the controller's single
worker (cmd/virtual_kubelet/main.go:422 starts one) into one interleaved
machine; `KubeletTheorems` holds the end-to-end results, `KubeletReports` those
on reports, records and statuses. `ClientReachable`
carries everything proved of the client alone over to the composed machine.

**Providers and configuration.** `Providers` and `PingAlls` are the registry
and its fork-join health check, `RunPodClient` the offer selection, the port map
and the deploy result, `BackendUrls` the two forms of the backend address.

## What turned out not to hold

- The full wait after a platform refusal (a close with status 1008, section
  7.4.1 of RFC 6455) is not guaranteed. As long as the manager has not looked
  at the stored reason, the next dial waits in every run if and only if the
  client is stopping, or a reason is already stored and no reader can still
  store an empty text over it (`Refusals.RefusalRespectedIff`). Both ways of
  losing it are reachable. With a single connection, a write can fail after the
  close was read and before its text is stored
  (`ClientTheorems.RefusalLostToWrite`). With two, the reader of the earlier one,
  closed with an empty text, can store that last
  (`ClientTheorems.RefusalCanBeErased`). What is not yet stored does no harm if
  an earlier reason is in its place (`ClientTheorems.EarlierReasonSuffices`).
- The backoff is exact only if both durations are below 2^62 nanoseconds
  (`Backoff.DelayExactIff`); above, the doubling wraps and a delay is negative
  (`Backoff.DelayCanWrap`).
- Removing the socket path can eat the second slash of the scheme
  (`BackendUrls.HTTPSchemeKeptIff`, `BackendUrls.SchemeCanBeLost`).
- A command that names a cached pod's own namespace and name reaches it only if
  neither of the two has outer spaces: the key of a command trims them, the
  cache's key does not (`Protocol.KeysAgreeIff`).
- A rejection shows only for a tracked pod and a non-empty code
  (`PodStatuses.RejectionShowsIff`).
- `GetPodStatus` indexes the first container without a check; the panic is a
  result of the model (`PodStatuses.StatusPanicsIff`).
- docs/ARCHITECTURE.md:163 says that a rejected pod stays Pending. The code
  marks it Failed, and so does the model.

## Modelling decisions

- A reader captures the shared connection when it is first scheduled, which may
  be after its loop has ended and another connection is published. No exclusive
  reader is assumed, and no order of commands across connections is claimed.
- A read is atomic, also where two readers share a connection. The first read
  error of a connection is permanent: later reads return the same error, as
  the WebSocket library (go.mod:7) has it.
- The delay, the connection, the flag and the reason are program variables; the
  log, the mail of refusal reasons, epochs and the accepted, consumed and
  attempted envelopes are histories.
- Each goroutine that sends is a sender; a sender makes one call at a time. The
  heartbeat ticker and the on-connect calls may send at any moment.
- Every cached pod object carries a version, so that a write to an object that
  has been replaced or removed has no effect on the cache.
- Nothing in the modelled files assigns `StatusResult`, so without one every
  unrejected cached pod is Pending in every run (`KubeletReports.StatusInRun`).
  What `GetPodStatus` makes of a poll result is proved over an arbitrary one.
- JSON decoding is a deterministic partial function of the text. Strings are
  sequences of characters; ASCII case mapping is exact here because no
  non-ASCII character folds or lowers into the words searched for.
- Prices and costs are reals.

## Model

| member | source | states |
|---|---|---|
| Channels.Channel.constructor | pkg/websocket/client.go:111-112 | a channel starts empty with the given capacity |
| Channels.Channel.TrySend | pkg/websocket/client.go:457-462 | succeeds exactly below capacity and then appends; at capacity nothing changes |
| Channels.Channel.TryReceive | pkg/websocket/client.go:376 | yields the oldest value exactly when there is one and leaves the others in order |
| Backoff.DelayIsCapped | pkg/websocket/client.go:226-236 | below 2^62 the k-th wait is the start for k = 0 and min(start * 2^k, max) after that, and it is positive |
| Backoff.DelayExactIff | pkg/websocket/client.go:234 | the loop computes capped exponential backoff at every k if and only if both durations are below 2^62 |
| Backoff.DelayCanWrap | pkg/websocket/client.go:234 | a start of 2^62 ns is followed by a negative delay |
| Backoff.CapExists | pkg/websocket/client.go:234 | for every start and maximum there is exactly one least number of doublings that reaches the maximum |
| Backoff.TotalWaitByPowers | pkg/websocket/client.go:226-236 | the first n waits total R(2^n-1) up to the cap K and R(2^K-1)+(n-K)M beyond it, for R at most M |
| Backoff.TotalWaitAboveMax | pkg/websocket/client.go:226-236 | with R above M the first n waits total R+(n-1)M |
| Backoff.OutageBound | pkg/websocket/client.go:226-236 | waits that total at most T mean at most K+1+T/M attempts |
| Backoff.RetryDial | pkg/websocket/client.go:215-239 | the retry loop waits exactly the backoff sequence, one wait per failure, and resets the delay at the first success |
| ManagerLogs.FillDefaults | pkg/websocket/client.go:89-94 | unset intervals become 5 s and 300 s, set ones are kept, so every client runs with positive durations |
| ManagerLogs.OutageIsTotalWait | pkg/websocket/client.go:226-236 | for every possible history the time slept in the current outage is the total of the first waits of the backoff |
| ManagerLogs.OutageAttempts | pkg/websocket/client.go:226-236 | for every possible history the dials of the current outage number at most K+1+T/M |
| ManagerLogs.AfterReason | pkg/websocket/client.go:256-274 | a taken reason is followed by the maximum wait if it is non-empty and directly by a dial if it is empty |
| Outboxes.PushConserves | pkg/websocket/client.go:457-462 | accepted = consumed followed by queued, and the bound of 200, survive a send |
| Outboxes.SettleKeepsLosses | pkg/websocket/client.go:377-380 | a loss stays the last envelope consumed in its connection, and a successful write adds none |
| Outboxes.RoundCounts | pkg/websocket/client.go:376-380 | one round takes exactly the oldest envelope and adds it to the wire or to the losses, never both |
| Outboxes.WireInOrder | pkg/websocket/client.go:376-380 | per sender the written envelopes are an in-order subsequence of the consumed ones |
| Outboxes.WireFollowsCalls | pkg/websocket/client.go:452-463 | per sender the written envelopes are an in-order subsequence of the send calls, refused and lost ones missing |
| Inboxes.OfferConserves | pkg/websocket/client.go:437-443 | a command frame is queued, or dropped exactly when 100 are queued; all frames stay accounted for |
| Inboxes.TakeConserves | pkg/virtual_kubelet/kubelet.go:496 | taking a command keeps accepted = taken followed by queued |
| ClientInvariants.StepKeepsLifecycle | pkg/websocket/client.go:307-358 | every step keeps: connected iff a connection is published, published from install to clean-up, no other one unclosed |
| ClientInvariants.StepKeepsLog | pkg/websocket/client.go:215-275 | every step keeps: the manager's history is a possible one and the delay is the backoff of the failures so far |
| ClientInvariants.StepKeepsMail | pkg/websocket/client.go:256-259 | every step keeps: the stored reason is the last one put and not yet taken |
| ClientInvariants.StepKeepsOutbound | pkg/websocket/client.go:349-383 | every step keeps outbound conservation, per-sender order, one envelope in flight and one loss per connection |
| ClientInvariants.StepConservesInbox | pkg/websocket/client.go:435-449 | every step keeps the accounting of command frames |
| ClientInvariants.StepKeepsReaders | pkg/websocket/client.go:360-366 | every step keeps: readers exist only for connections whose loop was entered |
| ClientInvariants.StepKeepsTexts | pkg/websocket/client.go:408-416 | every step keeps: the text that a reader is about to store is that of the 1008 close of its connection |
| ClientInvariants.Always | pkg/websocket/client.go:212-497 | the conjunction of these invariants holds in every reachable state |
| ClientTheorems.WireOrder | pkg/websocket/client.go:452-497 | in every reachable state and for each sender, the frames on all connections follow the order of its calls |
| ClientTheorems.OutboundAccounting | pkg/websocket/client.go:349-383 | accepted = consumed + queue, at most 200 queued, only the newest in flight, a loss is the last of its connection |
| ClientTheorems.InboundAccounting | pkg/websocket/client.go:435-449 | accepted commands are taken or queued in order; every frame is dropped, queued or taken; dropped exactly at 100 queued |
| ClientTheorems.ConnectionLifecycle | pkg/websocket/client.go:307-358 | connected iff a connection is published, at most one is unclosed, none while dialling or after exit |
| ClientTheorems.OutageInRun | pkg/websocket/client.go:226-236 | in every run the time slept in an outage is exact and bounds its attempts by K+1+T/M |
| ClientTheorems.FailureWaitInRun | pkg/websocket/client.go:226-236 | in every run the wait behind the (k+1)-th failure in a row is R for k = 0 and min(R*2^k, M) otherwise |
| ClientTheorems.TakenRefusalWaits | pkg/websocket/client.go:256-274 | in every run a non-empty taken reason is followed by a full maximum wait before any dial |
| ClientTheorems.ReasonTakenOnce | pkg/websocket/client.go:256-259 | in every run a second take without a new refusal finds nothing |
| ClientTheorems.RefusalLostToWrite | pkg/websocket/client.go:377-380 | with one connection whose reader has read any 1008 text and not stored it, a reachable state from which some run dials without the wait |
| ClientTheorems.RefusalCanBeErased | pkg/websocket/client.go:386-417 | a reachable state with a stored refusal over which the reader of the earlier connection stores an empty text, so that some run dials without the wait |
| ClientTheorems.EarlierReasonSuffices | pkg/websocket/client.go:413-417 | a reachable state in which a refusal is read and not stored, and every run waits all the same, because an earlier refusal is stored |
| Refusals.RefusalRespectedIff | pkg/websocket/client.go:256-274 | from any state before the reason is taken, every run waits the maximum delay before its next dial, if and only if the client is stopping, or a reason is stored and no reader can still store an empty text |
| Refusals.RefusalRespected | pkg/websocket/client.go:256-274 | a stored refusal is respected in every run once no reader is at work on an earlier connection; readers that share the refused one find the same text |
| Shutdown.ManagerStepDescends | pkg/websocket/client.go:217-275 | after cancellation each manager step lowers the pair of rank and backlog |
| Shutdown.ManagerNotStuck | pkg/websocket/client.go:217-275 | after cancellation a manager that has not exited can step |
| Shutdown.ManagerStops | pkg/websocket/client.go:145-161 | after cancellation every run has a bounded number of manager steps, two more per later send |
| Shutdown.AtMostOneMoreDial | pkg/websocket/client.go:217-226 | after cancellation a dial starts only if its shutdown check was already passed, so at most one |
| Shutdown.AtMostOneMoreTake | pkg/websocket/client.go:250-259 | after cancellation the refusal reason is taken only if the check before it was already passed |
| Shutdown.ReaderStops | pkg/websocket/client.go:395-431 | in every run after cancellation each reader, started or yet to be, takes at most three steps |
| Shutdown.ReaderNotStuck | pkg/websocket/client.go:386-431 | a reader that has not ended can step |
| ClientTraces.AttemptHistory | pkg/websocket/client.go:452-463 | in every run one attempt per call of sendEnvelope, in order |
| ClientTraces.WriteHistory | pkg/websocket/client.go:376-380 | in every run one frame per successful write and one loss per failed write |
| ClientTraces.LogHistory | pkg/websocket/client.go:212-276 | in every run the log is the dials, failures, connections, loop ends, takes and waits of the manager, in order |
| ClientTraces.DialsAreMarks | pkg/websocket/client.go:226 | the dials counted in a log are its dial entries, hence the dials of the run |
| ClientTraces.MailHistory | pkg/websocket/client.go:256-417 | in every run the mail is the stores and takes of the reason, in order and by their writers |
| ClientTraces.InboundHistory | pkg/websocket/client.go:430-443 | in every run: one arrival per command frame handed over, in order |
| ClientTraces.FrameHistory | pkg/websocket/client.go:403-431 | in every run each reader handles the frames it has read, in order, at most the last one being still to be handled |
| ClientCauses.StopHistory | pkg/websocket/client.go:145-155 | in every run Stop is as far as the number of its steps taken, and nothing else cancels |
| ClientCauses.CancelledIff | pkg/websocket/client.go:145-155 | a run from the start is cancelled exactly if Stop was called in it |
| ClientCauses.ClosedStaysClosed | pkg/websocket/client.go:303-311 | in every run a closed connection is never open again |
| ClientCauses.StopClosesConnection | pkg/websocket/client.go:151-155 | Stop closes the published connection for every continuation, and leaves the field as it is |
| ClientCauses.ClosedOnlyBy | pkg/websocket/client.go:350-358 | a connection is closed only while published, by the clean-up of its loop or by the last step of Stop |
| ClientCauses.LoopLeftForCause | pkg/websocket/client.go:368-382 | in every run a loop is left only for Stop, a failed read or a failed write on its own connection |
| ClientCauses.ExitNeedsStop | pkg/websocket/client.go:217-275 | in every run the manager exits only after Stop began; a published connection stays open until Stop closes it or its loop ends |
| ClientCauses.ManagerWaitsIff | pkg/websocket/client.go:217-382 | in every reachable state the manager has no step exactly after its exit, or in a loop with an empty queue and a live reader |
| ClientObjects.RoundEffects | pkg/websocket/client.go:376-380 | a round takes the oldest envelope; it reaches the wire or ends the loop |
| ClientObjects.DrainWrites | pkg/websocket/client.go:368-382 | the loop writes the oldest envelopes in order, one per successful write |
| ClientObjects.DrainLeaves | pkg/websocket/client.go:368-382 | a failed write costs exactly one more envelope and ends the loop; the rest stays queued |
| ClientObjects.Client.constructor | pkg/websocket/client.go:108-116 | a new client stands for the initial state, with channels for 100 commands and 200 envelopes |
| ClientObjects.Client.RetryTimerFires | pkg/websocket/client.go:233-236 | sleeps the current delay, then doubles and caps it |
| ClientObjects.Client.PublishConnection | pkg/websocket/client.go:307-311 | publishes the dialled connection |
| ClientObjects.Client.EnterMessageLoop | pkg/websocket/client.go:239-248 | resets the delay and starts loop and reader |
| ClientObjects.Client.LeaveMessageLoop | pkg/websocket/client.go:350-358 | closes and clears the connection |
| ClientObjects.Client.TakeRefusal | pkg/websocket/client.go:256-264 | hands out the reason, clears it, and waits exactly if it was non-empty |
| ClientObjects.Client.ReceiveOutbound | pkg/websocket/client.go:376 | takes the oldest envelope, exactly if there is one |
| ClientObjects.Client.WriteEnvelope | pkg/websocket/client.go:466-497 | succeeds exactly with a connection and a working network; otherwise the envelope is lost and the loop ends |
| ClientObjects.Client.SendOne | pkg/websocket/client.go:376-380 | is one round of the transition system, or nothing on an empty queue |
| ClientObjects.Client.DrainOutbound | pkg/websocket/client.go:368-382 | the loop against any script of write outcomes is the drain of the transition system |
| ClientObjects.Client.CaptureConnection | pkg/websocket/client.go:386-393 | the reader keeps the connection published at that moment and ends if there is none |
| ClientObjects.Client.ReportRefusal | pkg/websocket/client.go:413-417 | the close text replaces the stored reason |
| ClientObjects.Client.HandleIncomingMessage | pkg/websocket/client.go:435-449 | only commands are queued, and one is dropped exactly at 100 queued |
| ClientObjects.Client.ReceiveCommand | pkg/virtual_kubelet/kubelet.go:496 | takes the oldest command, exactly if there is one |
| ClientObjects.Client.CheckConnected | pkg/websocket/client.go:453-455 | reads the flag; the call goes on exactly if it is set |
| ClientObjects.Client.Enqueue | pkg/websocket/client.go:457-462 | accepts exactly below 200 queued |
| ClientObjects.Client.SendEnvelope | pkg/websocket/client.go:452-463 | undisturbed, is the check followed by the send if connected; success means queued as the newest |
| ClientObjects.Client.CancelContext | pkg/websocket/client.go:148 | is the first step of Stop |
| ClientObjects.Client.CloseConnection | pkg/websocket/client.go:151-155 | the published connection is not open afterwards, and the field still names it |
| ClientObjects.Client.CloseChannel | pkg/websocket/client.go:149 | is the second step of Stop |
| ClientObjects.Client.Stop | pkg/websocket/client.go:145-155 | undisturbed: cancelled, channel closed, connection closed and not cleared, all else as before |
| PodCaches.ApplyIsLocal | pkg/virtual_kubelet/kubelet.go:143-241 | a step changes its own key only, as a function of that key's entries |
| PodCaches.ReplayByKey | pkg/virtual_kubelet/kubelet.go:143-241 | after any history a key's entries are those of replaying only the steps on that key |
| PodCaches.DistinctPodsCommute | pkg/virtual_kubelet/kubelet.go:143-241 | steps on distinct pods commute |
| PodCaches.CommandsKeepKeysAndSpecs | pkg/virtual_kubelet/kubelet.go:520-567 | commands neither create nor remove entries nor change a pod's specification |
| PodCaches.InfosHavePods | pkg/virtual_kubelet/kubelet.go:149-238 | after any history every record belongs to a cached pod |
| PodCaches.TrackedIsCreated | pkg/virtual_kubelet/kubelet.go:149-238 | a record exists exactly if a create of the key has not been followed by a deletion |
| PodCaches.RecordedID | pkg/virtual_kubelet/kubelet.go:523-525 | the record of the latest create holds the id of the last deployment after it, or none |
| PodCaches.ProviderPodIDIsLatest | pkg/virtual_kubelet/kubelet.go:208-214 | for every history the id read by DeletePod is that of the latest deployment since the latest create, or empty; both directions |
| PodHistories.RecordHistory | pkg/virtual_kubelet/kubelet.go:149-159 | for every history, every field of a tracked record: fresh at its create, then by the last deployment, the last rejection, or for the status the last of both |
| PodHistories.RecordRejectedIff | pkg/virtual_kubelet/kubelet.go:552-558 | for every history a record holds a coded rejection if and only if that is the last rejection since its create |
| PodHistories.UnrejectedRecord | pkg/virtual_kubelet/kubelet.go:154-158 | without a rejection since its create, a record holds neither code nor message |
| PodHistories.CachedIff | pkg/virtual_kubelet/kubelet.go:150-236 | a pod is cached exactly if a create or update of it has not been followed by a deletion |
| PodHistories.EntryHistory | pkg/virtual_kubelet/kubelet.go:195-197 | the cached pod is the newest stored one, with the last report written into that very object |
| PodHistories.NeverPolled | pkg/virtual_kubelet/kubelet.go:154-158 | no history gives a record a poll result |
| PodCacheObjects.InstanceInfo.Deploy | pkg/virtual_kubelet/kubelet.go:525-534 | the record takes over the result, with the requested provider where the result names none |
| PodCacheObjects.InstanceInfo.Reject | pkg/virtual_kubelet/kubelet.go:554-558 | the record is marked with code and message, the rest kept |
| PodCacheObjects.PodCache.StoreNew | pkg/virtual_kubelet/kubelet.go:150-159 | is the create step: both the object and the record are freshly allocated |
| PodCacheObjects.PodCache.StoreUpdate | pkg/virtual_kubelet/kubelet.go:195-197 | is the update step: a new object, all records the same objects as before |
| PodCacheObjects.PodCache.ReadProviderPodID | pkg/virtual_kubelet/kubelet.go:208-214 | reads the recorded id, empty without a record |
| PodCacheObjects.PodCache.Delete | pkg/virtual_kubelet/kubelet.go:235-238 | is the remove step |
| PodCacheObjects.PodCache.RecordDeployment | pkg/virtual_kubelet/kubelet.go:523-539 | is the deployment step and finds the cached pod of that moment |
| PodCacheObjects.PodCache.RecordRejection | pkg/virtual_kubelet/kubelet.go:552-559 | is the rejection step and finds the cached pod of that moment |
| PodCacheObjects.PodCache.RecordChanged | pkg/virtual_kubelet/kubelet.go:524-534 | writing one record through its reference changes no other key's record |
| PodCacheObjects.PodCache.UpdatePodStatus | pkg/virtual_kubelet/kubelet.go:609-623 | writing into a pod object shows in the cache exactly if the object is still the cached one |
| PodCacheObjects.PodCache.HandleDeploymentSuccess | pkg/virtual_kubelet/kubelet.go:520-545 | undisturbed, is the deployment step followed by the notification of the cached pod: status and cost are the result's, the report is Pending |
| PodCacheObjects.PodCache.HandleReject | pkg/virtual_kubelet/kubelet.go:549-567 | undisturbed, is the rejection step followed by the Failed notification with code and message; an error exactly for an unknown pod |
| PodCacheObjects.PodCache.PodStatusOf | pkg/virtual_kubelet/kubelet.go:259-332 | the branches and assignments compute the projection of the two cached entries |
| PodStatuses.IsSuccessfulCompletion | pkg/providers/runpod/client.go:562-579 | successful exactly with a runtime and exit code 0 or a completion text containing success or completed in any case |
| PodStatuses.GetStatus | pkg/providers/runpod/client.go:183-220 | the result filled in field by field is the status of the answer, or of a missing pod |
| PodStatuses.RunPodPhaseIff | pkg/providers/interface.go:94-112 | for every answer and each phase, the exact condition on RunPod's status, exit code and completion text |
| PodStatuses.RunPodFields | pkg/providers/runpod/client.go:188-217 | the remaining fields: running, terminated, exit code and message, and those of a missing pod |
| PodStatuses.RunPodStatusCoherent | pkg/providers/runpod/client.go:188-220 | for every answer: running means phase Running, terminated means Succeeded or Failed, never both; Succeeded needs success |
| PodStatuses.PipelineCoherent | pkg/virtual_kubelet/kubelet.go:289-329 | from any RunPod answer: exactly one container state, Ready iff Running; the exact conditions for Succeeded, Failed and Running |
| PodStatuses.StatusPanicsIff | pkg/virtual_kubelet/kubelet.go:289-307 | the index panic happens exactly for an unrejected, polled pod without containers |
| PodStatuses.StatusNotFoundIff | pkg/virtual_kubelet/kubelet.go:267-269 | not found exactly if no pod is cached |
| PodStatuses.StatusPhaseIff | pkg/virtual_kubelet/kubelet.go:271-303 | for each phase the exact condition on record and poll result; reason, message and conditions that go with it |
| PodStatuses.StatusContainerIff | pkg/virtual_kubelet/kubelet.go:305-328 | a container exactly after a poll: the first one's name, readiness, and the one state with its contents |
| PodStatuses.UnpolledIsPending | pkg/virtual_kubelet/kubelet.go:271-280 | a cached pod neither rejected nor polled is Pending and scheduled, nothing else |
| PodStatuses.RejectionShowsIff | pkg/virtual_kubelet/kubelet.go:282-287 | a rejection is reported exactly if the pod is tracked and the code is non-empty |
| PodStatuses.StepKeepsRejection | pkg/virtual_kubelet/kubelet.go:523-559 | no step but a create, a deletion or another rejection of the key changes a recorded rejection |
| PodStatuses.RejectionLatches | pkg/virtual_kubelet/kubelet.go:282-287 | once rejected, Failed with that code and message is reported after every continuation without such a step, whatever is polled |
| PodHistories.ShowsRejectionIff | pkg/virtual_kubelet/kubelet.go:282-287 | for every history and poll result, a coded rejection is reported if and only if it is the last one since the live create |
| PodHistories.StatusHistory | pkg/virtual_kubelet/kubelet.go:259-332 | after any history exactly three answers: not found, Failed by the last coded rejection, Pending in every other case |
| Strings.TrimSpaceIff | pkg/websocket/protocol.go:428-430 | trimming removes the outer spaces, all of them and nothing else |
| Protocol.KeysAgreeIff | pkg/websocket/protocol.go:428-430 | the command's key is the controller's key exactly if neither name has outer spaces |
| Protocol.CacheKeyInjective | pkg/virtual_kubelet/kubelet.go:625-627 | distinct pods have distinct keys, namespaces having no slash |
| Commands.EveryCommandAnswered | pkg/command/handler.go:50-81 | every command, however malformed, is answered under its id with either data or an error, calling at most one provider |
| Commands.SuccessIff | pkg/command/handler.go:62-228 | the exact conditions under which a command succeeds |
| Commands.DeployedIff | pkg/command/handler.go:84-120 | a deploy result is answered exactly if a decodable deploy command reached a registered provider that accepted it |
| Commands.BookingMatchesCall | pkg/virtual_kubelet/kubelet.go:500-510 | the second decoding never fails or disagrees: booked exactly for deploy results, with the params of the provider call |
| Commands.RecordedProvider | pkg/command/handler.go:108-110 | the booked provider is the one routed on, unless the provider names itself differently |
| Commands.ProviderErrorSurfaces | pkg/command/handler.go:231-240 | a provider's own code and message reach the platform |
| Commands.DeployRouted | pkg/command/handler.go:84-120 | one call with the command's parameters if the provider is registered; its failure, or else its result, is answered |
| Commands.TerminateRouted | pkg/command/handler.go:123-153 | likewise, under the code for terminations |
| Commands.StatusRouted | pkg/command/handler.go:155-191 | likewise; the answer names the command's pod and provider id, the rest is the provider's |
| Commands.MalformedAnswered | pkg/command/handler.go:50-92 | an undecodable command or parameter block reaches no provider, and what it is answered |
| Commands.AnsweredAlone | pkg/command/handler.go:62-228 | pings, rejections and unknown commands reach no provider, and what each is answered |
| Commands.RunDeploy | pkg/command/handler.go:84-120 | the handler with its in-place completion answers as specified |
| Commands.RunStatus | pkg/command/handler.go:155-191 | the handler with its overwritten fields answers as specified |
| Commands.ExecuteCommand | pkg/command/handler.go:50-81 | decoding and dispatch through these handlers answer as specified |
| CommandLoops.ProcessCommand | pkg/virtual_kubelet/kubelet.go:496-510 | one round on the pod cache object answers and changes the cache as specified |
| CommandLoops.ProcessCommands | pkg/virtual_kubelet/kubelet.go:491-518 | the loop over any script of commands answers each in turn and leaves the cache that the commands make |
| CommandLoops.OneResponseEach | pkg/virtual_kubelet/kubelet.go:491-518 | one well-formed response per command, in order, under its id |
| CommandLoops.CommandsLeavePods | pkg/virtual_kubelet/kubelet.go:491-518 | however many commands: the same pods with the same specifications |
| CommandLoops.RoundIsRun | pkg/virtual_kubelet/kubelet.go:491-518 | an undisturbed round is a run of the interleaved machine with the same response and cache |
| Providers.Manager.RegisterProvider | pkg/providers/manager.go:28-40 | the first registration of a name wins, a later one is an error and changes nothing |
| Providers.Manager.GetProvider | pkg/providers/manager.go:43-53 | finds exactly the registered provider, which calls itself by that name |
| Providers.Manager.Snapshot | pkg/providers/manager.go:158-163 | the copy equals the registry |
| Providers.HealthOf | pkg/providers/manager.go:195-204 | health is the pointwise image of the ping results |
| PingAlls.StepKeepsInv | pkg/providers/manager.go:157-192 | every step keeps: the wait group counts the live goroutines, and results come only from finished pings |
| PingAlls.PingAllReturnsEverything | pkg/providers/manager.go:157-192 | under every interleaving the result has exactly the names of the snapshot, each with its provider's own answer, each pinged once |
| PingAlls.RegistryHistory | pkg/providers/manager.go:28-40 | in every run the registry holds exactly the providers there at the start or registered since |
| PingAlls.SnapshotHistory | pkg/providers/manager.go:158-163 | in every run the snapshot is the registry at the moment at which it was taken |
| PingAlls.PingHistory | pkg/providers/manager.go:169-187 | in every run the pings are the answers given, by the providers of those names, in order |
| PingAlls.PingAllAnswersEveryProvider | pkg/providers/manager.go:157-192 | under every interleaving: one entry for each provider registered before the snapshot and for no other, with what it answered |
| PingAlls.PingAllCoversRegistry | pkg/providers/manager.go:157-192 | every provider registered before the call is in the result, with its own answer |
| PingAlls.PingAllNeverStuck | pkg/providers/manager.go:169-191 | until it has returned, one of its own steps is possible |
| RunPodClient.GetGPUTypes | pkg/providers/runpod/client.go:396-426 | exactly the usable offers, each as often as offered, ascending in the price that the filter used; none for another cloud |
| RunPodClient.SelectionByCloud | pkg/providers/runpod/client.go:398-424 | in each cloud: exactly the offers available there, priced above 0 and below the maximum, with enough memory, ascending in that price |
| RunPodClient.SortByPrice | pkg/providers/runpod/client.go:416-424 | an ordered permutation |
| RunPodClient.SelectCounts | pkg/providers/runpod/client.go:398-413 | the filter keeps each usable offer as often as it occurs and no other |
| RunPodClient.ProxyPortURLs | pkg/providers/runpod/client.go:155-172 | the map is a function of the pod id and the set of specs, so independent of order and duplicates |
| RunPodClient.CollectURLs | pkg/providers/runpod/client.go:159-167 | the loop collects exactly the HTTP ports, each with its URL |
| RunPodClient.PortMapNilIff | pkg/providers/runpod/client.go:156-170 | nil exactly for an empty pod id or no HTTP port |
| RunPodClient.HttpPortIff | pkg/providers/runpod/client.go:160-164 | a spec is an HTTP port exactly if it is a non-blank port, the first slash, and http in any case, with spaces around either |
| RunPodClient.PortMapEntries | pkg/providers/runpod/client.go:161-166 | the ports are exactly those of the HTTP specs, each with its own URL, spelled out |
| RunPodClient.Deploy | pkg/providers/runpod/client.go:131-149 | the result filled in step by step is that of the created pod |
| RunPodClient.RunPodDeploymentRecorded | pkg/virtual_kubelet/kubelet.go:520-534 | a RunPod deployment is recorded under the name it was routed on, with the created pod's id, status, cost, machine and data center |
| RunPodClient.DeployedPodFields | pkg/providers/runpod/client.go:131-147 | what the platform is told of a created pod, field by field, STARTING being the status in want of another |
| BackendUrls.WebSocketURLIdempotent | pkg/config/config.go:231-245 | normalising twice is normalising once |
| BackendUrls.WebSocketScheme | pkg/config/config.go:231-245 | the result always has a WebSocket scheme |
| BackendUrls.FromHTTP | pkg/config/config.go:235-236 | http becomes ws, the rest unchanged, although the replacement looks for a first occurrence |
| BackendUrls.FromHTTPS | pkg/config/config.go:237-238 | https becomes wss, the rest unchanged |
| BackendUrls.HTTPURLBySchemeAndPath | pkg/config/config.go:248-267 | the HTTP address is the HTTP scheme and the rest of the address, with the socket path removed |
| BackendUrls.HTTPURLFromNormalised | pkg/config/config.go:248-267 | for every string, the HTTP address of the normalised address is that of the original |
| BackendUrls.HTTPSchemeKeptIff | pkg/config/config.go:261-264 | the HTTP scheme survives exactly unless the rest starts with the bare socket path not followed by a slash |
| BackendUrls.SchemeCanBeLost | pkg/config/config.go:261-264 | a host that starts with the bare socket path loses the scheme's second slash |
| BackendUrls.DefaultIsSecure | pkg/config/config.go:239-258 | an address without a scheme is taken to be a secure one, in both forms |
| BackendUrls.SocketPathRemoved | pkg/config/config.go:248-267 | from the socket's address to the HTTP one: another scheme, the path behind the host removed, the rest kept |
| KubeletInvariants.StepKeepsInv | pkg/virtual_kubelet/kubelet.go:143-567 | every step of the composed machine keeps the client's and the kubelet's invariants |
| KubeletTheorems.ResponseOrder | pkg/virtual_kubelet/kubelet.go:491-518 | in every run the command ids of responses on the wire are an in-order subsequence of those accepted: at most one each |
| KubeletTheorems.CommandAccounting | pkg/virtual_kubelet/kubelet.go:491-518 | in every run each command frame is exactly one of dropped, queued, in hand and executed |
| KubeletTheorems.ResponsesSentOnce | pkg/virtual_kubelet/kubelet.go:513-515 | in every run each executed command's response is sent once, in order, the one in hand excepted |
| KubeletTheorems.BookedExactlyOnce | pkg/virtual_kubelet/kubelet.go:500-510 | in every run bookkeeping happens exactly once per successful deploy, in order, with the params of the provider call |
| KubeletTheorems.PodEventOrder | pkg/virtual_kubelet/kubelet.go:166-232 | in every run the pod events on the wire are an in-order subsequence of the CreatePod and DeletePod calls |
| KubeletTheorems.EventsSentOnce | pkg/virtual_kubelet/kubelet.go:166-232 | in every run each CreatePod and DeletePod call sends its event once, in order, the call in progress excepted |
| KubeletTheorems.DeletionNamesLatestDeployment | pkg/virtual_kubelet/kubelet.go:208-228 | in every run a deletion event names the latest deployment since the latest create, as of the locked read |
| KubeletTheorems.CacheIsolation | pkg/virtual_kubelet/kubelet.go:143-241 | in every run a key's entries are those of replaying its own steps, and records have pods |
| KubeletTheorems.RejectionVisible | pkg/virtual_kubelet/kubelet.go:282-287 | in every run a coded rejection of a tracked pod is reported until it is created, deleted or rejected again |
| KubeletReports.RejectionVisibleIff | pkg/virtual_kubelet/kubelet.go:282-287 | in every run, whatever is polled, a coded rejection is reported if and only if it is the last one since the live create |
| KubeletReports.StatusInRun | pkg/virtual_kubelet/kubelet.go:259-332 | in every run: not found, Failed by the last coded rejection, Pending in every other case |
| KubeletReports.RecordInRun | pkg/virtual_kubelet/kubelet.go:520-559 | in every run a record holds what happened since its create, field by field |
| KubeletReports.EntryInRun | pkg/virtual_kubelet/kubelet.go:150-197 | in every run the cached pod is the newest stored one, with the last report written into it |
| KubeletReports.ReportsFollowCommands | pkg/virtual_kubelet/kubelet.go:538-565 | in every run a report is that of the last deployment or rejection before it, written into the object which that one found |
| KubeletReports.NotifiedExactlyOnce | pkg/virtual_kubelet/kubelet.go:538-565 | in every run the loop notifies once for each command that found its pod cached, and for no other |
| KubeletReports.StoppedIff | pkg/virtual_kubelet/kubelet.go:491-495 | in every run the command loop has ended exactly if its context was cancelled |
| KubeletReports.RejectionsAnswered | pkg/virtual_kubelet/kubelet.go:549-567 | in every run rejections are answered in order, without an error exactly if the pod was cached at that moment |
| KubeletTheorems.LoopNotStuck | pkg/virtual_kubelet/kubelet.go:491-518 | in every reachable state the command loop can go on until it has stopped, unless it waits for a command |
| KubeletTheorems.WorkerNotStuck | pkg/virtual_kubelet/kubelet.go:143-241 | in every reachable state a call of the controller that has begun can go on |
| KubeletTraces.ClientProjection | pkg/virtual_kubelet/kubelet.go:491-518 | a run of the kubelet, seen from the client, is a run of the client |
| KubeletTraces.ClientReachable | pkg/virtual_kubelet/kubelet.go:105-138 | so every guarantee of the client holds inside the kubelet |
| KubeletTraces.CommandStepsExactlyOnce | pkg/virtual_kubelet/kubelet.go:520-567 | in every run deployments and rejections reach the cache once per booking and per rejection command, in order, and from nowhere else |
| KubeletTraces.CallsAnnounced | pkg/virtual_kubelet/kubelet.go:166-228 | in every run each CreatePod and DeletePod call makes one event of its kind and pod, in call order |
| KubeletTraces.ControllerStepsExactlyOnce | pkg/virtual_kubelet/kubelet.go:143-241 | in every run the creates, updates and removals of the cache are those of the controller's calls, once each and in order; a deletion in progress still owes the last |

## Left out

- Dialling, TLS, WebSocket frames, deadlines and pings: a dial, read or write is an outcome chosen by the environment.
- Clock time and fairness of `select`: waits are entries of a log with their durations; every ready branch may be taken.
- The loop of the connection manager as one method: its atomic blocks are methods, their order is the transition system's, because other goroutines run between them.
- The order registration first, ready event second: both are sends of an on-connect call and may be overtaken by older envelopes, which the outbound channel keeps across connections.
- A bound on the rate of ordinary reconnects: after a connection that was established and lost the code dials at once.
- Cancellation of the kubelet's own context: the command loop may stop at any moment between two commands.
- GetPodStatus's second look at a record after unlocking: the two entries are read as one snapshot; the rejection of a pod is then two fields read together.
- CreatePod's own notification: it writes into the controller's object, which is not the cached copy.
- Creation times, check times, timestamps, message ids and the pod specification in a creation event.
- HTTP and GraphQL calls to RunPod: the modelled members begin with the decoded answer; a missing key or a transport error is a provider error of the handler.
- RunPodClient.SortByPrice: stands in for the library's sort with an insertion sort; only the ordered permutation is used, and nothing is said of the order of equal prices.
- The text of a decoding error behind its fixed prefix.
- `convertDeployParams`, `applyContainerSpec`, the deploy request, API key precedence: one-branch copies of fields.
- `buildDialURL` and `redactURL`: they rest on the URL parser of the standard library.
- Loading and validation of the configuration, node status, taints, the health server, informers and controllers.
- Vast.ai and other providers: only their status mapping exists in the repository.
