/**
 * What the three `secrets` commands (`add`, `update`, `delete`) share: the field
 * names shown to the user, the request they send to the StaticKit API and the way
 * they dispatch on its reply.
 *
 * The HTTP call is an input: the reply (a status below 500 with the `errors` of its
 * body, or a thrown error) is given, and the request the command would send is
 * part of the outcome. `deploy.getDeployKey(args)` is an input as well.
 */
module Secrets {
  import opened Wrappers
  import opened Messages

  const DefaultEndpoint := "https://api.statickit.com"
  const RequestFailed := "Request failed unexpectedly"
  const KeyNotValid := "Deploy key is not valid"
  const NotFound := "Secret not found"

  /** `humanizeField(name)`: the API's field names as the user knows them. */
  function HumanizeField(name: string): (r: string)
    ensures name == "key" ==> r == "Name"
    ensures name == "value" ==> r == "Value"
    ensures name != "key" && name != "value" ==> r == name
  {
    match name
    case "key" => "Name"
    case "value" => "Value"
    case _ => name
  }

  /** Two API fields are shown under the same name only when one of them is `key`/`value` and the other its label. */
  lemma HumanizeFieldCollisions(a: string, b: string)
    requires a != b && HumanizeField(a) == HumanizeField(b)
    ensures {a, b} == {"key", "Name"} || {a, b} == {"value", "Value"}
  {
  }

  /** One entry of `response.data.errors`; an absent property is `None`. */
  datatype ApiError = ApiError(code: Option<string>, field: Option<string>, message: Option<string>)

  /** A value interpolated into a template string: `undefined` shows as the text "undefined". */
  function Interpolate(v: Option<string>): string {
    match v
    case None => "undefined"
    case Some(s) => s
  }

  /** `log.error(`${humanizeField(error.field)} ${error.message}`)`. */
  function FieldError(e: ApiError): Message {
    var field := match e.field case None => None case Some(f) => Some(HumanizeField(f));
    LogError(Interpolate(field) + " " + Interpolate(e.message))
  }

  /** `error.code == 'FORMAT' && error.field == 'key'`. */
  predicate IsKeyFormatError(e: ApiError) {
    e.code == Some("FORMAT") && e.field == Some("key")
  }

  /** What the API replied, as far as the commands look at it. */
  datatype HttpReply =
    | Reply(status: int, errors: Option<seq<ApiError>>)  // `response.data.errors`, `None` when absent
    | Threw                                              // no response: the request itself failed

  datatype HttpMethod = Post | Patch | Delete

  /** The arguments of the `axios` call. `body` is `None` when no `data` is sent. */
  datatype SecretRequest = SecretRequest(
    verb: HttpMethod,
    url: string,
    body: Option<seq<(string, string)>>,
    deployKey: string,
    userAgent: string)

  /**
   * One run of a command: the console messages in order, the request sent (if any),
   * `process.exitCode` (`None` when it is left unset) and whether the handler's
   * promise rejects with the rethrown error.
   */
  datatype SecretsRun = SecretsRun(
    messages: seq<Message>,
    request: Option<SecretRequest>,
    exitCode: Option<int>,
    rethrown: bool)

  /** `args.endpoint || 'https://api.statickit.com'`. */
  function Endpoint(endpoint: Option<string>): (r: string)
    ensures endpoint.Some? && endpoint.value != "" ==> r == endpoint.value
    ensures endpoint.None? || endpoint.value == "" ==> r == DefaultEndpoint
  {
    if endpoint.Some? && endpoint.value != "" then endpoint.value else DefaultEndpoint
  }

  /** `!deployKey` is false: a non-empty key was found. */
  predicate HasKey(deployKey: Option<string>) {
    deployKey.Some? && deployKey.value != ""
  }

  function UserAgent(version: string): string {
    "@statickit/cli@" + version
  }

  /** The guard every command runs first: report that a deploy key is required. */
  function MissingKey(before: seq<Message>): SecretsRun {
    SecretsRun(before + [AuthRequired], None, Some(1), false)
  }

  /** The `catch` block: report, set the exit code and rethrow. */
  function Unexpected(before: seq<Message>, request: SecretRequest): SecretsRun {
    SecretsRun(before + [LogError(RequestFailed)], Some(request), Some(1), true)
  }

  /** `errors.forEach(error => emit(classify(error)))`. */
  function Classify(errors: seq<ApiError>, classify: ApiError -> Message): (r: seq<Message>)
    ensures |r| == |errors|
    ensures forall i :: 0 <= i < |errors| ==> r[i] == classify(errors[i])
  {
    if errors == [] then [] else [classify(errors[0])] + Classify(errors[1..], classify)
  }

  /**
   * The `try` block after the request was sent (`before` is what was logged so far):
   * `axios` rejects statuses of 500 and above (`validateStatus`), so those reach the
   * `catch` like a failed request; 422 walks `response.data.errors`, and a missing
   * list throws a `TypeError` that also reaches the `catch`. `notFound` says whether
   * the command has a `case 404`. Any other status matches no case: nothing more is
   * logged and the exit code stays unset.
   */
  function Respond(before: seq<Message>, request: SecretRequest, reply: HttpReply, success: string,
                   notFound: bool, classify: ApiError -> Message): (r: SecretsRun)
    ensures r.request == Some(request)
    ensures |before| <= |r.messages|
    ensures |r.messages| <= |before| + 1 || (reply.Reply? && reply.status == 422 && reply.errors.Some?)
  {
    match reply
    case Threw => Unexpected(before, request)
    case Reply(status, errors) =>
      if status >= 500 then Unexpected(before, request)
      else if status == 200 then SecretsRun(before + [LogSuccess(success)], Some(request), None, false)
      else if status == 401 then SecretsRun(before + [LogError(KeyNotValid)], Some(request), Some(1), false)
      else if status == 404 && notFound then SecretsRun(before + [LogError(NotFound)], Some(request), Some(1), false)
      else if status == 422 then
        match errors
        case None => Unexpected(before, request)
        case Some(es) => SecretsRun(before + Classify(es, classify), Some(request), Some(1), false)
      else SecretsRun(before, Some(request), None, false)
  }

  /** Statuses the `switch` has a case for. */
  predicate Handled(status: int, notFound: bool) {
    status == 200 || status == 401 || status == 422 || (status == 404 && notFound)
  }

  /** The request is sent whatever the reply, and the messages logged before it come first. */
  lemma RespondSendsRequest(before: seq<Message>, request: SecretRequest, reply: HttpReply, success: string,
                            notFound: bool, classify: ApiError -> Message)
    ensures var run := Respond(before, request, reply, success, notFound, classify);
            run.request == Some(request) && |before| <= |run.messages| && run.messages[..|before|] == before
  {
  }

  /** The exit code stays unset exactly on success and on a status below 500 that no case handles. */
  lemma RespondExitCode(before: seq<Message>, request: SecretRequest, reply: HttpReply, success: string,
                        notFound: bool, classify: ApiError -> Message)
    ensures var run := Respond(before, request, reply, success, notFound, classify);
            (run.exitCode.None? <==> (reply.Reply? && reply.status < 500
                                      && (reply.status == 200 || !Handled(reply.status, notFound))))
            && (run.exitCode.Some? ==> run.exitCode == Some(1))
  {
  }

  /** The error is rethrown exactly when the request failed, the status is 500 or above, or a 422 lacks its errors. */
  lemma RespondRethrows(before: seq<Message>, request: SecretRequest, reply: HttpReply, success: string,
                        notFound: bool, classify: ApiError -> Message)
    ensures var run := Respond(before, request, reply, success, notFound, classify);
            (run.rethrown <==> (reply.Threw? || reply.status >= 500 || (reply.status == 422 && reply.errors.None?)))
            && (run.rethrown ==> run.messages == before + [LogError(RequestFailed)] && run.exitCode == Some(1))
  {
  }

  /** A 422 with its errors logs one message per error, in order, and sets exit code 1. */
  lemma RespondValidationErrors(before: seq<Message>, request: SecretRequest, es: seq<ApiError>, success: string,
                                notFound: bool, classify: ApiError -> Message)
    ensures var run := Respond(before, request, Reply(422, Some(es)), success, notFound, classify);
            && |run.messages| == |before| + |es|
            && (forall i :: 0 <= i < |es| ==> run.messages[|before| + i] == classify(es[i]))
            && run.exitCode == Some(1) && !run.rethrown
  {
  }

  /** Emitting messages one error at a time while some errors make the callback throw. */
  datatype Emission = Emission(messages: seq<Message>, threw: bool)

  /**
   * `errors.forEach(cb)` where `cb` may throw (`None`): the messages of the errors
   * before the first throwing one are logged, then the loop stops.
   */
  function ClassifyUntilThrow(errors: seq<ApiError>, classify: ApiError -> Option<Message>): (r: Emission)
    ensures r.threw <==> exists i :: 0 <= i < |errors| && classify(errors[i]).None?
    ensures |r.messages| <= |errors| && (!r.threw ==> |r.messages| == |errors|)
    ensures forall i :: 0 <= i < |r.messages| ==> classify(errors[i]) == Some(r.messages[i])
    ensures r.threw ==> |r.messages| < |errors| && classify(errors[|r.messages|]).None?
  {
    if errors == [] then Emission([], false)
    else match classify(errors[0])
      case None => Emission([], true)
      case Some(m) =>
        var rest := ClassifyUntilThrow(errors[1..], classify);
        assert forall i :: 1 <= i < |errors| ==> errors[i] == errors[1..][i - 1];
        Emission([m] + rest.messages, rest.threw)
  }
}
