/** `secrets add <name> <value>`: create a secret with a POST to the API. */
module SecretsAdd {
  import opened Wrappers
  import opened Messages
  import opened Secrets

  datatype AddArgs = AddArgs(name: string, value: string, endpoint: Option<string>)

  const TakenMessage := "has already been taken"

  /** `error.field == 'key' && error.message == 'has already been taken'`. */
  predicate IsTakenError(e: ApiError) {
    e.field == Some("key") && e.message == Some(TakenMessage)
  }

  /** The body of the 422 `forEach` callback: the first matching branch decides the message. */
  function ClassifyAddError(args: AddArgs, deployKey: string, e: ApiError): (m: Message)
    ensures IsTakenError(e) ==> m == SecretAlreadyExists(args.name, args.value, deployKey)
    ensures !IsTakenError(e) && IsKeyFormatError(e) ==> m == SecretKeyInvalid
    ensures !IsTakenError(e) && !IsKeyFormatError(e) ==> m == FieldError(e)
  {
    if IsTakenError(e) then SecretAlreadyExists(args.name, args.value, deployKey)
    else if IsKeyFormatError(e) then SecretKeyInvalid
    else FieldError(e)
  }

  /** The 422 `forEach` callback, closed over the arguments and the deploy key. */
  function AddClassifier(args: AddArgs, deployKey: string): ApiError -> Message {
    e => ClassifyAddError(args, deployKey, e)
  }

  /** The request the handler sends once it has a key. */
  function AddRequest(args: AddArgs, deployKey: string, version: string): SecretRequest {
    SecretRequest(Post, Endpoint(args.endpoint) + "/cli/v1/secrets",
                  Some([("key", args.name), ("value", args.value)]), deployKey, UserAgent(version))
  }

  function Progress(name: string): Message {
    LogProgress("Adding " + name + " to your secrets...")
  }

  /** `handler(args)`; there is no `case 404`. */
  function Add(args: AddArgs, deployKey: Option<string>, reply: HttpReply, version: string): (r: SecretsRun)
    ensures r.request.Some? <==> HasKey(deployKey)
    ensures r.request.Some? ==> r.request.value.deployKey == deployKey.value
  {
    if !HasKey(deployKey) then MissingKey([])
    else
      Respond([Progress(args.name)], AddRequest(args, deployKey.value, version), reply, "Secret added", false,
              AddClassifier(args, deployKey.value))
  }

  /** Without a deploy key nothing is sent and the command fails with the key-required message only. */
  lemma NoKeyNoRequest(args: AddArgs, deployKey: Option<string>, reply: HttpReply, version: string)
    requires !HasKey(deployKey)
    ensures Add(args, deployKey, reply, version) == SecretsRun([AuthRequired], None, Some(1), false)
  {
  }

  /** With a key, a POST carrying the name and value is sent to `<endpoint>/cli/v1/secrets`, whatever the reply. */
  lemma RequestSent(args: AddArgs, key: string, reply: HttpReply, version: string)
    requires key != ""
    ensures var run := Add(args, Some(key), reply, version);
            && run.request.Some? && run.request.value.verb == Post
            && run.request.value.url == Endpoint(args.endpoint) + "/cli/v1/secrets"
            && run.request.value.body == Some([("key", args.name), ("value", args.value)])
            && run.request.value.deployKey == key
            && run.request.value.userAgent == "@statickit/cli@" + version
            && run.messages[0] == LogProgress("Adding " + args.name + " to your secrets...")
  {
    var before := [Progress(args.name)];
    RespondSendsRequest(before, AddRequest(args, key, version), reply, "Secret added", false,
                        AddClassifier(args, key));
  }

  /** The request of the `sends request to add secret` unit test. */
  lemma DefaultEndpointRequest(version: string)
    ensures Add(AddArgs("my-secret", "shhh", None), Some("xxx"), Reply(200, None), version)
         == SecretsRun([Progress("my-secret"), LogSuccess("Secret added")],
                       Some(SecretRequest(Post, "https://api.statickit.com/cli/v1/secrets",
                                          Some([("key", "my-secret"), ("value", "shhh")]), "xxx",
                                          UserAgent(version))),
                       None, false)
  {
    assert Endpoint(None) + "/cli/v1/secrets" == "https://api.statickit.com/cli/v1/secrets";
  }

  /** A 404 matches no case: only the progress line is logged and the exit code stays unset. */
  lemma NotFoundFallsThrough(args: AddArgs, key: string, errors: Option<seq<ApiError>>, version: string)
    requires key != ""
    ensures var run := Add(args, Some(key), Reply(404, errors), version);
            run.messages == [Progress(args.name)] && run.exitCode.None? && !run.rethrown
  {
  }

  /**
   * On 422 each error gives one message, in order; "already taken" wins over the
   * format check even for a `FORMAT` error on `key`.
   */
  lemma ValidationErrorsClassified(args: AddArgs, key: string, es: seq<ApiError>, version: string)
    requires key != ""
    ensures var run := Add(args, Some(key), Reply(422, Some(es)), version);
            && run.exitCode == Some(1) && !run.rethrown
            && |run.messages| == 1 + |es|
            && (forall i :: 0 <= i < |es| && IsTakenError(es[i])
                  ==> run.messages[1 + i] == SecretAlreadyExists(args.name, args.value, key))
            && (forall i :: 0 <= i < |es| && !IsTakenError(es[i]) && IsKeyFormatError(es[i])
                  ==> run.messages[1 + i] == SecretKeyInvalid)
            && (forall i :: 0 <= i < |es| && !IsTakenError(es[i]) && !IsKeyFormatError(es[i])
                  ==> run.messages[1 + i] == FieldError(es[i]))
  {
    RespondValidationErrors([Progress(args.name)], AddRequest(args, key, version), es, "Secret added", false,
                            AddClassifier(args, key));
  }

  /**
   * The 422 callback as the source calls it: `messages.secretAlreadyExists` and
   * `messages.secretKeyInvalid` are not among the exports of `src/messages.js`, so
   * calling either throws a `TypeError` (`None`).
   */
  function ClassifyAddErrorAsWritten(args: AddArgs, deployKey: string, e: ApiError): (m: Option<Message>)
    ensures m.None? <==> IsTakenError(e) || IsKeyFormatError(e)
  {
    if IsTakenError(e) || IsKeyFormatError(e) then None else Some(FieldError(e))
  }

  /**
   * The 422 branch as written: the messages of the errors before the first taken or
   * malformed key are logged, then the `TypeError` reaches the `catch`.
   */
  function ValidationAsWritten(args: AddArgs, key: string, es: seq<ApiError>, version: string): (r: SecretsRun)
    ensures r.rethrown <==> exists i :: 0 <= i < |es| && (IsTakenError(es[i]) || IsKeyFormatError(es[i]))
    ensures r.request == Some(AddRequest(args, key, version)) && r.exitCode == Some(1)
  {
    var emitted := ClassifyUntilThrow(es, e => ClassifyAddErrorAsWritten(args, key, e));
    var before := [Progress(args.name)] + emitted.messages;
    if emitted.threw then Unexpected(before, AddRequest(args, key, version))
    else SecretsRun(before, Some(AddRequest(args, key, version)), Some(1), false)
  }

  /**
   * A name that is already taken: as written, the handler reports "Request failed
   * unexpectedly" and rejects; the intended handler reports that the secret exists.
   */
  lemma TakenNameCrashesAsWritten(args: AddArgs, key: string, version: string)
    requires key != ""
    ensures var taken := ApiError(None, Some("key"), Some(TakenMessage));
            && ValidationAsWritten(args, key, [taken], version).messages
               == [Progress(args.name), LogError(RequestFailed)]
            && ValidationAsWritten(args, key, [taken], version).rethrown
            && Add(args, Some(key), Reply(422, Some([taken])), version).messages
               == [Progress(args.name), SecretAlreadyExists(args.name, args.value, key)]
            && !Add(args, Some(key), Reply(422, Some([taken])), version).rethrown
  {
    var taken := ApiError(None, Some("key"), Some(TakenMessage));
    assert ClassifyUntilThrow([taken], e => ClassifyAddErrorAsWritten(args, key, e)) == Emission([], true);
  }

  /** When no error hits a missing helper, the code as written and the intended handler agree. */
  lemma AsWrittenAgreesWithoutKeyErrors(args: AddArgs, key: string, es: seq<ApiError>, version: string)
    requires key != ""
    requires forall i :: 0 <= i < |es| ==> !IsTakenError(es[i]) && !IsKeyFormatError(es[i])
    ensures ValidationAsWritten(args, key, es, version) == Add(args, Some(key), Reply(422, Some(es)), version)
  {
    var emitted := ClassifyUntilThrow(es, e => ClassifyAddErrorAsWritten(args, key, e));
    var intended := Classify(es, AddClassifier(args, key));
    assert |emitted.messages| == |intended|;
    assert forall i :: 0 <= i < |es| ==> emitted.messages[i] == intended[i];
    assert emitted.messages == intended;
  }
}
