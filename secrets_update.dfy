/** `secrets update <name> [value]`: change a secret's value with a PATCH to the API. */
module SecretsUpdate {
  import opened Wrappers
  import opened Messages
  import opened Secrets

  /** `value` is optional on the command line; an absent one is dropped from the JSON body. */
  datatype UpdateArgs = UpdateArgs(name: string, value: Option<string>, endpoint: Option<string>)

  /** The body of the 422 `forEach` callback: there is no "already taken" case. */
  function ClassifyUpdateError(e: ApiError): (m: Message)
    ensures IsKeyFormatError(e) ==> m == SecretKeyInvalid
    ensures !IsKeyFormatError(e) ==> m == FieldError(e)
  {
    if IsKeyFormatError(e) then SecretKeyInvalid else FieldError(e)
  }

  /** `{ value: args.value }` as serialized: an `undefined` value leaves an empty object. */
  function UpdateBody(value: Option<string>): seq<(string, string)> {
    match value
    case None => []
    case Some(v) => [("value", v)]
  }

  function UpdateRequest(args: UpdateArgs, deployKey: string, version: string): SecretRequest {
    SecretRequest(Patch, Endpoint(args.endpoint) + "/cli/v1/secrets/" + args.name,
                  Some(UpdateBody(args.value)), deployKey, UserAgent(version))
  }

  function Progress(name: string): Message {
    LogProgress("Updating " + name + "...")
  }

  /** `handler(args)`; 404 has its own case. */
  function Update(args: UpdateArgs, deployKey: Option<string>, reply: HttpReply, version: string): (r: SecretsRun)
    ensures r.request.Some? <==> HasKey(deployKey)
    ensures r.request.Some? ==> r.request.value.deployKey == deployKey.value
  {
    if !HasKey(deployKey) then MissingKey([])
    else
      Respond([Progress(args.name)], UpdateRequest(args, deployKey.value, version), reply, "Secret updated", true,
              ClassifyUpdateError)
  }

  /** Without a deploy key nothing is sent and the command fails with the key-required message only. */
  lemma NoKeyNoRequest(args: UpdateArgs, deployKey: Option<string>, reply: HttpReply, version: string)
    requires !HasKey(deployKey)
    ensures Update(args, deployKey, reply, version) == SecretsRun([AuthRequired], None, Some(1), false)
  {
  }

  /** With a key, a PATCH of the value alone is sent to `<endpoint>/cli/v1/secrets/<name>`, whatever the reply. */
  lemma RequestSent(args: UpdateArgs, key: string, reply: HttpReply, version: string)
    requires key != ""
    ensures var run := Update(args, Some(key), reply, version);
            && run.request.Some? && run.request.value.verb == Patch
            && run.request.value.url == Endpoint(args.endpoint) + "/cli/v1/secrets/" + args.name
            && run.request.value.body.Some?
            && (forall p :: p in run.request.value.body.value ==> p.0 == "value")
            && (args.value.Some? ==> run.request.value.body.value == [("value", args.value.value)])
            && (args.value.None? ==> run.request.value.body.value == [])
            && run.request.value.deployKey == key
            && run.request.value.userAgent == "@statickit/cli@" + version
            && run.messages[0] == LogProgress("Updating " + args.name + "...")
  {
    RespondSendsRequest([Progress(args.name)], UpdateRequest(args, key, version), reply, "Secret updated", true,
                        ClassifyUpdateError);
  }

  /** The request of the `sends request to update secret` unit test. */
  lemma DefaultEndpointRequest(version: string)
    ensures Update(UpdateArgs("my-secret", Some("hush"), None), Some("xxx"), Reply(200, None), version)
         == SecretsRun([Progress("my-secret"), LogSuccess("Secret updated")],
                       Some(SecretRequest(Patch, "https://api.statickit.com/cli/v1/secrets/my-secret",
                                          Some([("value", "hush")]), "xxx", UserAgent(version))),
                       None, false)
  {
    assert Endpoint(None) + "/cli/v1/secrets/" + "my-secret" == "https://api.statickit.com/cli/v1/secrets/my-secret";
  }

  /** A 404 reports the missing secret and fails. */
  lemma NotFoundReported(args: UpdateArgs, key: string, errors: Option<seq<ApiError>>, version: string)
    requires key != ""
    ensures Update(args, Some(key), Reply(404, errors), version).messages == [Progress(args.name), LogError(NotFound)]
    ensures Update(args, Some(key), Reply(404, errors), version).exitCode == Some(1)
  {
  }

  /** On 422 each error gives one message, in order: a malformed key, or the humanized field and message. */
  lemma ValidationErrorsClassified(args: UpdateArgs, key: string, es: seq<ApiError>, version: string)
    requires key != ""
    ensures var run := Update(args, Some(key), Reply(422, Some(es)), version);
            && run.exitCode == Some(1) && !run.rethrown
            && |run.messages| == 1 + |es|
            && (forall i :: 0 <= i < |es| && IsKeyFormatError(es[i]) ==> run.messages[1 + i] == SecretKeyInvalid)
            && (forall i :: 0 <= i < |es| && !IsKeyFormatError(es[i]) ==> run.messages[1 + i] == FieldError(es[i]))
  {
    var before := [Progress(args.name)];
    RespondValidationErrors(before, UpdateRequest(args, key, version), es, "Secret updated", true,
                            ClassifyUpdateError);
    assert |before| == 1;
  }

  /**
   * The 422 callback as the source calls it: `messages.secretKeyInvalid` is not among
   * the exports of `src/messages.js`, so calling it throws a `TypeError` (`None`).
   */
  function ClassifyUpdateErrorAsWritten(e: ApiError): (m: Option<Message>)
    ensures m.None? <==> IsKeyFormatError(e)
  {
    if IsKeyFormatError(e) then None else Some(FieldError(e))
  }

  /** The 422 branch as written. */
  function ValidationAsWritten(args: UpdateArgs, key: string, es: seq<ApiError>, version: string): (r: SecretsRun)
    ensures r.rethrown <==> exists i :: 0 <= i < |es| && IsKeyFormatError(es[i])
    ensures r.request == Some(UpdateRequest(args, key, version)) && r.exitCode == Some(1)
  {
    var emitted := ClassifyUntilThrow(es, ClassifyUpdateErrorAsWritten);
    var before := [Progress(args.name)] + emitted.messages;
    if emitted.threw then Unexpected(before, UpdateRequest(args, key, version))
    else SecretsRun(before, Some(UpdateRequest(args, key, version)), Some(1), false)
  }

  /**
   * A malformed name: as written, the handler reports "Request failed unexpectedly"
   * and rejects; the intended handler reports the invalid key.
   */
  lemma MalformedNameCrashesAsWritten(args: UpdateArgs, key: string, version: string)
    requires key != ""
    ensures var malformed := ApiError(Some("FORMAT"), Some("key"), Some("is invalid"));
            && ValidationAsWritten(args, key, [malformed], version).messages
               == [Progress(args.name), LogError(RequestFailed)]
            && ValidationAsWritten(args, key, [malformed], version).rethrown
            && Update(args, Some(key), Reply(422, Some([malformed])), version).messages
               == [Progress(args.name), SecretKeyInvalid]
            && !Update(args, Some(key), Reply(422, Some([malformed])), version).rethrown
  {
    var malformed := ApiError(Some("FORMAT"), Some("key"), Some("is invalid"));
    assert ClassifyUntilThrow([malformed], ClassifyUpdateErrorAsWritten) == Emission([], true);
  }
}
