/** The command handler (pkg/command/handler.go) and the bookkeeping that follows it. */
module Commands {
  import opened Protocol

  const INVALID_COMMAND := "invalid_command"
  const INVALID_PARAMS := "invalid_params"
  const UNKNOWN_COMMAND := "unknown_command"
  const DEPLOYMENT_FAILED := "deployment_failed"
  const TERMINATION_FAILED := "termination_failed"
  const STATUS_FAILED := "status_failed"
  const REJECT_FAILED := "reject_failed"

  datatype Command = Command(kind: string, data: string)

  /** JSON decoding, as deterministic partial functions of the raw text. */
  datatype Decoders = Decoders(
    command: string -> Option<Command>,
    deploy: string -> Option<DeployParams>,
    terminate: string -> Option<TerminateParams>,
    status: string -> Option<StatusParams>,
    reject: string -> Option<RejectParams>)

  /** An error value: a ProviderError, or any other. */
  datatype Failure = ProviderError(provider: string, code: string, message: string) | OtherError(text: string)

  datatype Outcome<+T> = Ok(value: T) | Err(failure: Failure)

  /** What the providers would answer to one call of each kind. */
  datatype Answers = Answers(
    deploy: Outcome<DeployResult>, status: Outcome<StatusResult>, terminate: Outcome<()>)

  /** What the callback for rejections did. */
  datatype RejectOutcome = NoCallback | Applied | NotApplied(text: string)

  /** A call that reached a registered provider. */
  datatype ProviderCall =
    | DeployCall(provider: string, deploy: DeployParams)
    | StatusCall(provider: string, status: StatusParams)
    | TerminateCall(provider: string, terminate: TerminateParams)

  datatype Handled = Handled(response: Response, calls: seq<ProviderCall>)

  function ErrorText(f: Failure): string {
    match f
    case ProviderError(provider, code, message) =>
      if code != "" then provider + " error " + code + ": " + message else provider + " error: " + message
    case OtherError(text) => text
  }

  /** A provider's own code, where it has one. */
  function OwnCode(f: Failure, code: string): string {
    if f.ProviderError? && f.code != "" then f.code else code
  }

  /** errorResponse */
  function ErrorResponse(id: string, code: string, f: Failure): Response {
    match f
    case ProviderError(_, _, message) => NewErrorResponse(id, OwnCode(f, code), ErrorText(f), message)
    case OtherError(text) => NewErrorResponse(id, code, text, "")
  }

  /** Manager.GetProvider in front of a provider call. */
  function Route<T>(registered: set<string>, provider: string, answer: Outcome<T>): Outcome<T> {
    if provider in registered then answer else Err(OtherError("provider " + provider + " not found"))
  }

  function Calls(registered: set<string>, provider: string, call: ProviderCall): seq<ProviderCall> {
    if provider in registered then [call] else []
  }

  function WithProvider(r: DeployResult, provider: string): DeployResult {
    if r.provider == "" then r.(provider := provider) else r
  }

  function HandleDeploy(
    dec: Decoders, registered: set<string>, id: string, data: string, answer: Outcome<DeployResult>): Handled
  {
    match dec.deploy(data)
    case None => Handled(NewErrorResponse(id, INVALID_PARAMS, "failed to parse deploy parameters", ""), [])
    case Some(params) =>
      Handled(
        match Route(registered, params.provider, answer)
        case Err(f) => ErrorResponse(id, DEPLOYMENT_FAILED, f)
        case Ok(result) => NewSuccessResponse(id, ResponseData.Deployed(WithProvider(result, params.provider))),
        Calls(registered, params.provider, DeployCall(params.provider, params)))
  }

  function HandleTerminate(
    dec: Decoders, registered: set<string>, id: string, data: string, answer: Outcome<()>): Handled
  {
    match dec.terminate(data)
    case None => Handled(NewErrorResponse(id, INVALID_PARAMS, "failed to parse terminate parameters", ""), [])
    case Some(params) =>
      Handled(
        match Route(registered, params.provider, answer)
        case Err(f) => ErrorResponse(id, TERMINATION_FAILED, f)
        case Ok(_) => NewSuccessResponse(id, Terminated),
        Calls(registered, params.provider, TerminateCall(params.provider, params)))
  }

  function WithStatusParams(r: StatusResult, params: StatusParams): StatusResult {
    r.(podName := params.podName, providerPodID := params.providerPodID,
       provider := if r.provider == "" then params.provider else r.provider)
  }

  function HandleStatus(
    dec: Decoders, registered: set<string>, id: string, data: string, answer: Outcome<StatusResult>): Handled
  {
    match dec.status(data)
    case None => Handled(NewErrorResponse(id, INVALID_PARAMS, "failed to parse status parameters", ""), [])
    case Some(params) =>
      Handled(
        match Route(registered, params.provider, answer)
        case Err(f) => ErrorResponse(id, STATUS_FAILED, f)
        case Ok(result) => NewSuccessResponse(id, Status(WithStatusParams(result, params))),
        Calls(registered, params.provider, StatusCall(params.provider, params)))
  }

  function HandleReject(dec: Decoders, id: string, data: string, applied: RejectOutcome): Handled {
    match dec.reject(data)
    case None => Handled(NewErrorResponse(id, INVALID_PARAMS, "failed to parse reject parameters", ""), [])
    case Some(_) =>
      Handled(
        match applied
        case NoCallback => NewErrorResponse(id, REJECT_FAILED, "no reject handler configured", "")
        case NotApplied(text) => NewErrorResponse(id, REJECT_FAILED, text, "")
        case Applied => NewSuccessResponse(id, Empty),
        [])
  }

  function Handle(
    dec: Decoders, registered: set<string>, id: string, cmd: Command, answers: Answers,
    applied: RejectOutcome): Handled
  {
    match cmd.kind
    case "deploy" => HandleDeploy(dec, registered, id, cmd.data, answers.deploy)
    case "terminate" => HandleTerminate(dec, registered, id, cmd.data, answers.terminate)
    case "status" => HandleStatus(dec, registered, id, cmd.data, answers.status)
    case "ping" => Handled(NewSuccessResponse(id, Empty), [])
    case "reject" => HandleReject(dec, id, cmd.data, applied)
    case kind => Handled(NewErrorResponse(id, UNKNOWN_COMMAND, "unknown command type: " + kind, ""), [])
  }

  function HandleCommand(
    dec: Decoders, registered: set<string>, env: CommandEnvelope, answers: Answers, applied: RejectOutcome): Handled
  {
    match dec.command(env.payload)
    case None => Handled(NewErrorResponse(env.id, INVALID_COMMAND, "failed to parse command", ""), [])
    case Some(cmd) => Handle(dec, registered, env.id, cmd, answers, applied)
  }

  /** The rejection that a command carries, if it is a well-formed one. */
  function RejectionOf(dec: Decoders, env: CommandEnvelope): Option<RejectParams> {
    match dec.command(env.payload)
    case Some(cmd) => if cmd.kind == "reject" then dec.reject(cmd.data) else None
    case None => None
  }

  /** What processCommands re-decodes from the envelope before it books a deployment. */
  function DeploymentOf(dec: Decoders, env: CommandEnvelope): Option<DeployParams> {
    match dec.command(env.payload)
    case Some(cmd) => if cmd.kind == "deploy" then dec.deploy(cmd.data) else None
    case None => None
  }

  datatype Booking = Booking(params: DeployParams, result: DeployResult)

  /** The bookkeeping step of processCommands for a response, if there is one. */
  function BookingFor(dec: Decoders, env: CommandEnvelope, response: Response): Option<Booking> {
    if response.success && response.data.Deployed? then
      match DeploymentOf(dec, env)
      case Some(params) => Some(Booking(params, response.data.deploy))
      case None => None
    else None
  }

  // ---- Properties ----

  ghost predicate WellFormedResponse(r: Response, id: string) {
    && r.commandID == id
    && (r.success <==> r.error.None?)
    && (r.success <==> !r.data.Null?)
  }

  ghost predicate WellFormed(h: Handled, id: string) {
    WellFormedResponse(h.response, id) && |h.calls| <= 1
  }

  lemma DeployWellFormed(
    dec: Decoders, registered: set<string>, id: string, data: string, answer: Outcome<DeployResult>)
    ensures WellFormed(HandleDeploy(dec, registered, id, data, answer), id)
  {
  }

  lemma StatusWellFormed(
    dec: Decoders, registered: set<string>, id: string, data: string, answer: Outcome<StatusResult>)
    ensures WellFormed(HandleStatus(dec, registered, id, data, answer), id)
  {
  }

  lemma TerminateWellFormed(dec: Decoders, registered: set<string>, id: string, data: string, answer: Outcome<()>)
    ensures WellFormed(HandleTerminate(dec, registered, id, data, answer), id)
  {
  }

  lemma DispatchWellFormed(
    dec: Decoders, registered: set<string>, id: string, cmd: Command, answers: Answers, applied: RejectOutcome)
    ensures WellFormed(Handle(dec, registered, id, cmd, answers, applied), id)
  {
    match cmd.kind
    case "deploy" => DeployWellFormed(dec, registered, id, cmd.data, answers.deploy);
    case "terminate" => TerminateWellFormed(dec, registered, id, cmd.data, answers.terminate);
    case "status" => StatusWellFormed(dec, registered, id, cmd.data, answers.status);
    case _ =>
  }

  /** Every command is answered under its own id, with either data or an error, and calls at most one provider. */
  lemma EveryCommandAnswered(
    dec: Decoders, registered: set<string>, env: CommandEnvelope, answers: Answers, applied: RejectOutcome)
    ensures WellFormed(HandleCommand(dec, registered, env, answers, applied), env.id)
  {
    if dec.command(env.payload).Some? {
      DispatchWellFormed(dec, registered, env.id, dec.command(env.payload).value, answers, applied);
    }
  }

  /** The conditions under which a decoded command succeeds. */
  predicate Succeeds(dec: Decoders, registered: set<string>, cmd: Command, answers: Answers, applied: RejectOutcome) {
    || (cmd.kind == "deploy" && answers.deploy.Ok?
        && dec.deploy(cmd.data).Some? && dec.deploy(cmd.data).value.provider in registered)
    || (cmd.kind == "terminate" && answers.terminate.Ok?
        && dec.terminate(cmd.data).Some? && dec.terminate(cmd.data).value.provider in registered)
    || (cmd.kind == "status" && answers.status.Ok?
        && dec.status(cmd.data).Some? && dec.status(cmd.data).value.provider in registered)
    || cmd.kind == "ping"
    || (cmd.kind == "reject" && applied.Applied? && dec.reject(cmd.data).Some?)
  }

  lemma SuccessIff(
    dec: Decoders, registered: set<string>, env: CommandEnvelope, answers: Answers, applied: RejectOutcome)
    ensures HandleCommand(dec, registered, env, answers, applied).response.success
       <==> && dec.command(env.payload).Some?
            && Succeeds(dec, registered, dec.command(env.payload).value, answers, applied)
  {
  }

  /** A deploy result is answered exactly when a deploy command reached a registered provider that accepted it. */
  lemma DeployedIff(
    dec: Decoders, registered: set<string>, env: CommandEnvelope, answers: Answers, applied: RejectOutcome)
    ensures HandleCommand(dec, registered, env, answers, applied).response.data.Deployed?
       <==> DeploymentOf(dec, env).Some? && DeploymentOf(dec, env).value.provider in registered && answers.deploy.Ok?
  {
  }

  /**
   * The second decoding never fails and never disagrees: a booking is made
   * exactly for a deploy result, with the parameters that the provider was
   * called with and the result that is answered.
   */
  lemma BookingMatchesCall(
    dec: Decoders, registered: set<string>, env: CommandEnvelope, answers: Answers, applied: RejectOutcome)
    ensures var h := HandleCommand(dec, registered, env, answers, applied);
            && (BookingFor(dec, env, h.response).Some? <==> h.response.data.Deployed?)
            && (h.response.data.Deployed? ==>
                  && answers.deploy.Ok?
                  && var booking := BookingFor(dec, env, h.response).value;
                     h.calls == [DeployCall(booking.params.provider, booking.params)]
                     && booking.result == h.response.data.deploy
                     && booking.result == WithProvider(answers.deploy.value, booking.params.provider))
  {
    DeployedIff(dec, registered, env, answers, applied);
  }

  /** The provider booked is the one routed on, if the provider's answer names none or the same. */
  lemma RecordedProvider(
    dec: Decoders, registered: set<string>, env: CommandEnvelope, answers: Answers, applied: RejectOutcome)
    requires HandleCommand(dec, registered, env, answers, applied).response.data.Deployed?
    ensures var booking := BookingFor(dec, env, HandleCommand(dec, registered, env, answers, applied).response);
            && booking.Some?
            && answers.deploy.Ok?
            && (answers.deploy.value.provider == "" || answers.deploy.value.provider == booking.value.params.provider
                ==> booking.value.result.provider == booking.value.params.provider)
  {
    BookingMatchesCall(dec, registered, env, answers, applied);
  }

  /** A provider's own error code and message reach the platform. */
  lemma ProviderErrorSurfaces(
    dec: Decoders, registered: set<string>, env: CommandEnvelope, answers: Answers, applied: RejectOutcome)
    requires DeploymentOf(dec, env).Some? && DeploymentOf(dec, env).value.provider in registered
    requires answers.deploy.Err? && answers.deploy.failure.ProviderError?
    ensures var r := HandleCommand(dec, registered, env, answers, applied).response;
            && !r.success
            && r.error.value.code == OwnCode(answers.deploy.failure, DEPLOYMENT_FAILED)
            && r.error.value.providerError == answers.deploy.failure.message
  {
  }

  // ---- What is answered, and whom it takes ----

  /** The answer to a failure: a ProviderError's own code if it has one, and both of its texts. */
  ghost predicate FailureAnswered(r: Response, fallback: string, f: Failure) {
    && !r.success && r.error.Some?
    && match f
       case ProviderError(provider, code, message) =>
         && r.error.value.providerError == message
         && r.error.value.code == (if code == "" then fallback else code)
         && r.error.value.message
            == if code == "" then provider + " error: " + message else provider + " error " + code + ": " + message
       case OtherError(text) => r.error.value == ErrorDetails(fallback, text, "")
  }

  /**
   * A decoded command for a provider: one call with its parameters if the
   * provider is registered, none otherwise; the call's failure, or the missing
   * provider, is answered with the code of the command as a fallback.
   */
  ghost predicate Routed<T>(
    h: Handled, registered: set<string>, provider: string, call: ProviderCall, fallback: string, answer: Outcome<T>)
  {
    if provider in registered then
      h.calls == [call] && (answer.Err? ==> FailureAnswered(h.response, fallback, answer.failure))
    else
      h.calls == [] && h.response.error == Some(ErrorDetails(fallback, "provider " + provider + " not found", ""))
  }

  lemma DeployRouted(
    dec: Decoders, registered: set<string>, env: CommandEnvelope, answers: Answers, applied: RejectOutcome,
    data: string, p: DeployParams)
    requires dec.command(env.payload) == Some(Command("deploy", data)) && dec.deploy(data) == Some(p)
    ensures var h := HandleCommand(dec, registered, env, answers, applied);
            && Routed(h, registered, p.provider, DeployCall(p.provider, p), "deployment_failed", answers.deploy)
            && (h.response.success ==>
                  && answers.deploy.Ok? && h.response.data.Deployed?
                  && var result := answers.deploy.value;
                     h.response.data.deploy
                     == result.(provider := if result.provider == "" then p.provider else result.provider))
  {
  }

  lemma TerminateRouted(
    dec: Decoders, registered: set<string>, env: CommandEnvelope, answers: Answers, applied: RejectOutcome,
    data: string, p: TerminateParams)
    requires dec.command(env.payload) == Some(Command("terminate", data)) && dec.terminate(data) == Some(p)
    ensures var h := HandleCommand(dec, registered, env, answers, applied);
            && Routed(h, registered, p.provider, TerminateCall(p.provider, p), "termination_failed", answers.terminate)
            && (h.response.success ==> h.response.data == Terminated)
  {
  }

  /** A status answer names the pod and the provider's id of the command, whatever the provider said of them. */
  lemma StatusRouted(
    dec: Decoders, registered: set<string>, env: CommandEnvelope, answers: Answers, applied: RejectOutcome,
    data: string, p: StatusParams)
    requires dec.command(env.payload) == Some(Command("status", data)) && dec.status(data) == Some(p)
    ensures var h := HandleCommand(dec, registered, env, answers, applied);
            && Routed(h, registered, p.provider, StatusCall(p.provider, p), "status_failed", answers.status)
            && (h.response.success ==>
                  && answers.status.Ok? && h.response.data.Status?
                  && var asked, told := answers.status.value, h.response.data.report;
                     && told.podName == p.podName && told.providerPodID == p.providerPodID
                     && told.provider == (if asked.provider == "" then p.provider else asked.provider)
                     && told == asked.(podName := told.podName, providerPodID := told.providerPodID,
                                       provider := told.provider))
  {
  }

  /** A command that cannot be decoded reaches no provider. */
  lemma MalformedAnswered(
    dec: Decoders, registered: set<string>, env: CommandEnvelope, answers: Answers, applied: RejectOutcome)
    ensures dec.command(env.payload).None? ==>
              HandleCommand(dec, registered, env, answers, applied)
              == Handled(NewErrorResponse(env.id, "invalid_command", "failed to parse command", ""), [])
    ensures var cmd := dec.command(env.payload);
            cmd.Some? && (|| (cmd.value.kind == "deploy" && dec.deploy(cmd.value.data).None?)
                          || (cmd.value.kind == "terminate" && dec.terminate(cmd.value.data).None?)
                          || (cmd.value.kind == "status" && dec.status(cmd.value.data).None?)
                          || (cmd.value.kind == "reject" && dec.reject(cmd.value.data).None?))
            ==> var h := HandleCommand(dec, registered, env, answers, applied);
                && h.calls == [] && h.response.error.Some? && h.response.error.value.code == "invalid_params"
                && h.response.error.value.message == "failed to parse " + cmd.value.kind + " parameters"
  {
    assert "failed to parse " + "deploy" + " parameters" == "failed to parse deploy parameters";
    assert "failed to parse " + "terminate" + " parameters" == "failed to parse terminate parameters";
    assert "failed to parse " + "status" + " parameters" == "failed to parse status parameters";
    assert "failed to parse " + "reject" + " parameters" == "failed to parse reject parameters";
  }

  /** Pings, rejections and unknown commands reach no provider either. */
  lemma AnsweredAlone(
    dec: Decoders, registered: set<string>, env: CommandEnvelope, answers: Answers, applied: RejectOutcome,
    kind: string, data: string)
    requires dec.command(env.payload) == Some(Command(kind, data))
    requires kind != "deploy" && kind != "terminate" && kind != "status"
    ensures var h := HandleCommand(dec, registered, env, answers, applied);
            && h.calls == []
            && (kind == "ping" ==> h.response.success && h.response.data == Empty)
            && (kind != "ping" && kind != "reject" ==>
                  h.response.error == Some(ErrorDetails("unknown_command", "unknown command type: " + kind, "")))
            && (kind == "reject" && dec.reject(data).Some? ==>
                  match applied
                  case Applied => h.response.success && h.response.data == Empty
                  case NotApplied(text) => h.response.error == Some(ErrorDetails("reject_failed", text, ""))
                  case NoCallback =>
                    h.response.error == Some(ErrorDetails("reject_failed", "no reject handler configured", "")))
  {
  }

  /** handleDeploy as it runs: the provider's result is completed in place. */
  method RunDeploy(dec: Decoders, registered: set<string>, id: string, data: string, answer: Outcome<DeployResult>)
    returns (response: Response)
    ensures response == HandleDeploy(dec, registered, id, data, answer).response
  {
    var params := dec.deploy(data);
    if params.None? {
      return NewErrorResponse(id, INVALID_PARAMS, "failed to parse deploy parameters", "");
    }
    var outcome := Route(registered, params.value.provider, answer);
    if outcome.Err? {
      return ErrorResponse(id, DEPLOYMENT_FAILED, outcome.failure);
    }
    var result := outcome.value;
    if result.provider == "" {
      result := result.(provider := params.value.provider);
    }
    return NewSuccessResponse(id, ResponseData.Deployed(result));
  }

  /** handleStatus as it runs: three fields of the provider's result are overwritten. */
  method RunStatus(dec: Decoders, registered: set<string>, id: string, data: string, answer: Outcome<StatusResult>)
    returns (response: Response)
    ensures response == HandleStatus(dec, registered, id, data, answer).response
  {
    var params := dec.status(data);
    if params.None? {
      return NewErrorResponse(id, INVALID_PARAMS, "failed to parse status parameters", "");
    }
    var outcome := Route(registered, params.value.provider, answer);
    if outcome.Err? {
      return ErrorResponse(id, STATUS_FAILED, outcome.failure);
    }
    var result := outcome.value;
    result := result.(podName := params.value.podName);
    result := result.(providerPodID := params.value.providerPodID);
    if result.provider == "" {
      result := result.(provider := params.value.provider);
    }
    return NewSuccessResponse(id, Status(result));
  }

  /** HandleCommand and Handle as they run: decoding, then the dispatch on the kind of the command. */
  method ExecuteCommand(
    dec: Decoders, registered: set<string>, env: CommandEnvelope, answers: Answers, applied: RejectOutcome)
    returns (response: Response)
    ensures response == HandleCommand(dec, registered, env, answers, applied).response
  {
    var decoded := dec.command(env.payload);
    if decoded.None? {
      return NewErrorResponse(env.id, INVALID_COMMAND, "failed to parse command", "");
    }
    var cmd := decoded.value;
    match cmd.kind {
      case "deploy" => response := RunDeploy(dec, registered, env.id, cmd.data, answers.deploy);
      case "terminate" =>
        response := HandleTerminate(dec, registered, env.id, cmd.data, answers.terminate).response;
      case "status" => response := RunStatus(dec, registered, env.id, cmd.data, answers.status);
      case "ping" => response := NewSuccessResponse(env.id, Empty);
      case "reject" => response := HandleReject(dec, env.id, cmd.data, applied).response;
      case kind => response := NewErrorResponse(env.id, UNKNOWN_COMMAND, "unknown command type: " + kind, "");
    }
  }
}
