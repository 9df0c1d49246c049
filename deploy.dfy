/**
 * The `deploy` command: a chain of gates from the raw configuration text to the
 * deploy request, then the rendering of the response.
 *
 *  1. raw config: `--config`, else the collaborator's raw config; empty means absent;
 *  2. parse it;
 *  3. walk the parsed value and collect sensitive keys holding literals (skipped
 *     in effect by `--force`, but the walk itself always runs, and it throws on a
 *     non-string sensitive value or on an object that shadows `hasOwnProperty`);
 *  4. substitute `$NAME` tokens in the raw text, collecting undefined names;
 *  5. parse the substituted text;
 *  6. deploy key: `--key`, else the collaborator's key;
 *  7. send the request and dispatch on the response status.
 *
 * The JSON parser, the environment, the request and the package version are
 * inputs. Every message is a tag; `exitCode` is `process.exitCode` (`None` when the
 * handler leaves it unset); `rejected` says the handler's promise rejects.
 */
module DeployCommand {
  import opened Wrappers
  import opened JsValues
  import opened TreeTraversal
  import opened Messages
  import opened EnvRefs
  import opened SecretCheck

  datatype DeployArgs = DeployArgs(config: Option<string>, key: Option<string>, endpoint: Option<string>, force: bool)

  /** One entry of `response.data.errors`. */
  datatype ValidationError = ValidationError(field: string, message: string)

  /** `response.data`: the deployment id, the error code, the errors and the deploy log. */
  datatype DeployData = DeployData(id: Option<string>, code: Option<string>, errors: Option<seq<ValidationError>>, log: Option<seq<string>>)

  /** What `await deploy.request(...)` gives: a response, or a thrown exception. */
  datatype DeployResponse = Responded(status: int, data: DeployData) | RequestThrew

  /** The collaborators: `deploy.getRawConfig`, `deploy.getDeployKey`, `process.env`, the request's outcome, the package version. */
  datatype Collaborators = Collaborators(
    rawConfig: Option<string>,
    deployKey: Option<string>,
    env: map<string, string>,
    response: DeployResponse,
    version: string)

  datatype DeployRequest = DeployRequest(endpoint: string, config: Json, key: string, userAgent: string)

  datatype DeployRun = DeployRun(messages: seq<Message>, exitCode: Option<int>, request: Option<DeployRequest>, rejected: bool)

  const DefaultEndpoint := "https://formspree.io"
  const ConfigNotProvided := "Configuration not provided"
  const ConfigNotParsed := "Configuration could not be parsed"
  const SensitivePrefix := "The following properties must reference environment variables: "
  const OverrideHint := "To override this, use the `-f` flag."
  const UndefinedPrefix := "The following environment variables were referenced but are not defined: "
  const ConfigValidationError := "CONFIG_VALIDATION_ERROR"

  /** `a || b` on two optional strings, as then tested by `!x`: the first non-empty one. */
  function FirstNonEmpty(a: Option<string>, b: Option<string>): (r: Option<string>)
    ensures r.Some? ==> r.value != "" && (r == a || r == b)
    ensures r.None? <==> (a.None? || a.value == "") && (b.None? || b.value == "")
    ensures a.Some? && a.value != "" ==> r == a
  {
    if a.Some? && a.value != "" then a else if b.Some? && b.value != "" then b else None
  }

  function Endpoint(args: DeployArgs): string {
    if args.endpoint.Some? && args.endpoint.value != "" then args.endpoint.value else DefaultEndpoint
  }

  function UserAgent(version: string): string {
    "@formspree/cli@" + version
  }

  /** A failed gate: one or more messages, exit code 1, no request. */
  function Fail(messages: seq<Message>): DeployRun {
    DeployRun(messages, Some(1), None, false)
  }

  /** The title `printErrors` shows for one validation error. */
  function ErrorTitle(code: Option<string>, error: ValidationError): string {
    if code == Some(ConfigValidationError) then error.field + " " + error.message else error.message
  }

  /** `printErrors({code, errors})`: a blank line, the numbered titles, a blank line. */
  function PrintErrors(code: Option<string>, errors: seq<ValidationError>): (r: seq<Message>)
    ensures |r| == |errors| + 2
    ensures r[0] == ErrLine("") && r[|r| - 1] == ErrLine("")
    ensures forall i :: 0 <= i < |errors| ==>
              r[i + 1] == ErrLine(NumberedLine(i + 1, ErrorTitle(code, errors[i])))
  {
    var titles := seq(|errors|, i requires 0 <= i < |errors| => ErrorTitle(code, errors[i]));
    [ErrLine("")] + NumberedLines(titles, 1, Stderr) + [ErrLine("")]
  }

  /** `printDeployLog({log})`: nothing without a log, otherwise the numbered entries between blank lines. */
  function PrintDeployLog(log: Option<seq<string>>): (r: seq<Message>)
    ensures log.None? <==> r == []
    ensures log.Some? ==> |r| == |log.value| + 2 && r[0] == OutLine("") && r[|r| - 1] == OutLine("")
    ensures log.Some? ==> forall i :: 0 <= i < |log.value| ==>
              r[i + 1] == OutLine(NumberedLine(i + 1, log.value[i]))
  {
    match log
    case None => []
    case Some(items) => [OutLine("")] + NumberedLines(items, 1, Stdout) + [OutLine("")]
  }

  /** `${id}` in a template: an absent id prints as "undefined". */
  function IdText(id: Option<string>): string {
    if id.Some? then id.value else "undefined"
  }

  /** The `switch (response.status)` and the `catch` around the request. */
  function Dispatch(request: DeployRequest, response: DeployResponse): (r: DeployRun)
    ensures r.request == Some(request) && !r.rejected && r.messages != []
    ensures r.exitCode.None? <==> response.Responded? && response.status == 200
    ensures r.exitCode.Some? ==> r.exitCode == Some(1)
  {
    match response
    case RequestThrew =>
      DeployRun([LogError("Deployment failed unexpectedly")], Some(1), Some(request), false)
    case Responded(status, data) =>
      if status == 200 then
        DeployRun([LogSuccess("Deployment succeeded (" + IdText(data.id) + ")")] + PrintDeployLog(data.log),
                  None, Some(request), false)
      else if status == 401 then
        DeployRun([LogError("Deploy key is not valid")], Some(1), Some(request), false)
      else if status == 422 then
        match data.errors
        case Some(errors) =>
          DeployRun([LogError("Deployment failed")] + PrintErrors(data.code, errors), Some(1), Some(request), false)
        case None =>
          // `errors.forEach` on undefined throws inside the try; the catch reports it.
          DeployRun([LogError("Deployment failed"), ErrLine(""), LogError("Deployment failed unexpectedly")],
                    Some(1), Some(request), false)
      else
        DeployRun([LogError("Deployment failed")], Some(1), Some(request), false)
  }

  /** Gates 4 to 7, on the raw text that passed the sensitive-key check. */
  function DeploySubstituted(args: DeployArgs, c: Collaborators, parse: string -> Option<Json>, rawConfig: string)
    : (r: DeployRun)
    ensures !r.rejected && r.messages != []
    ensures r.request.Some? <==>
              && Substitute(rawConfig, c.env).undefinedNames == []
              && parse(Substitute(rawConfig, c.env).text).Some?
              && FirstNonEmpty(args.key, c.deployKey).Some?
    ensures r.request.None? ==> r.exitCode == Some(1) && |r.messages| == 1
  {
    var substituted := Substitute(rawConfig, c.env);
    if substituted.undefinedNames != [] then
      Fail([LogError(UndefinedPrefix + Join(substituted.undefinedNames, ", "))])
    else match parse(substituted.text)
      case None => Fail([LogError(ConfigNotParsed)])
      case Some(config) =>
        match FirstNonEmpty(args.key, c.deployKey)
        case None => Fail([AuthRequired])
        case Some(key) => Dispatch(DeployRequest(Endpoint(args), config, key, UserAgent(c.version)), c.response)
  }

  /** `handler(args)` for the deploy command. */
  function Deploy(args: DeployArgs, c: Collaborators, parse: string -> Option<Json>): (r: DeployRun)
    ensures r.rejected ==> r.request.None? && r.exitCode.None? && r.messages == []
    ensures !r.rejected ==> r.messages != []
    ensures r.request.None? && !r.rejected ==> r.exitCode == Some(1) && 1 <= |r.messages| <= 2
  {
    match FirstNonEmpty(args.config, c.rawConfig)
    case None => Fail([LogError(ConfigNotProvided)])
    case Some(rawConfig) =>
      match parse(rawConfig)
      case None => Fail([LogError(ConfigNotParsed)])
      case Some(parsedRawConfig) =>
        // Either throw ends the walk with nothing logged, so which comes first does not matter.
        if HasOwnPropertyShadowed(parsedRawConfig) then DeployRun([], None, None, true)
        else match ScanVisits(Traverse(parsedRawConfig))
        case Threw(_) => DeployRun([], None, None, true)
        case Collected(invalidKeys) =>
          if !args.force && invalidKeys != [] then
            Fail([LogError(SensitivePrefix + Join(invalidKeys, ", ")), LogMeta(OverrideHint)])
          else DeploySubstituted(args, c, parse, rawConfig)
  }

  /** The deploy handler: each gate returns early with exit code 1. */
  method Handler(args: DeployArgs, c: Collaborators, parse: string -> Option<Json>) returns (run: DeployRun)
    ensures run == Deploy(args, c, parse)
  {
    var rawConfig := FirstNonEmpty(args.config, c.rawConfig);
    if rawConfig.None? {
      return Fail([LogError(ConfigNotProvided)]);
    }
    var parsedRawConfig := parse(rawConfig.value);
    if parsedRawConfig.None? {
      return Fail([LogError(ConfigNotParsed)]);
    }
    if HasOwnPropertyShadowed(parsedRawConfig.value) {
      return DeployRun([], None, None, true);
    }
    var scan := CollectInvalidKeys(parsedRawConfig.value);
    if scan.Threw? {
      return DeployRun([], None, None, true);
    }
    if !args.force && scan.invalidKeys != [] {
      return Fail([LogError(SensitivePrefix + Join(scan.invalidKeys, ", ")), LogMeta(OverrideHint)]);
    }
    var rawConfigWithSecrets, undefinedEnvRefs := ReplaceEnvRefs(rawConfig.value, c.env);
    if undefinedEnvRefs != [] {
      return Fail([LogError(UndefinedPrefix + Join(undefinedEnvRefs, ", "))]);
    }
    var config := parse(rawConfigWithSecrets);
    if config.None? {
      return Fail([LogError(ConfigNotParsed)]);
    }
    var key := FirstNonEmpty(args.key, c.deployKey);
    if key.None? {
      return Fail([AuthRequired]);
    }
    run := Dispatch(DeployRequest(Endpoint(args), config.value, key.value, UserAgent(c.version)), c.response);
  }
}
