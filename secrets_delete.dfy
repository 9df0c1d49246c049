/** `secrets delete <name>`: remove a secret with a DELETE to the API. */
module SecretsDelete {
  import opened Wrappers
  import opened Messages
  import opened Secrets

  datatype DeleteArgs = DeleteArgs(name: string, endpoint: Option<string>)

  /** No `data` is sent. */
  function DeleteRequest(args: DeleteArgs, deployKey: string, version: string): SecretRequest {
    SecretRequest(Delete, Endpoint(args.endpoint) + "/cli/v1/secrets/" + args.name, None, deployKey, UserAgent(version))
  }

  function Progress(name: string): Message {
    LogProgress("Deleting " + name + "...")
  }

  /** `handler(args)`: the preamble comes before the key check; every 422 error is shown by field. */
  function Remove(args: DeleteArgs, deployKey: Option<string>, reply: HttpReply, version: string): (r: SecretsRun)
    ensures r.request.Some? <==> HasKey(deployKey)
    ensures r.request.Some? ==> r.request.value.deployKey == deployKey.value
  {
    if !HasKey(deployKey) then MissingKey([Preamble])
    else
      Respond([Preamble, Progress(args.name)], DeleteRequest(args, deployKey.value, version), reply,
              "Secret deleted", true, FieldError)
  }

  /** Every run starts with the preamble, with or without a key. */
  lemma PreambleFirst(args: DeleteArgs, deployKey: Option<string>, reply: HttpReply, version: string)
    ensures var run := Remove(args, deployKey, reply, version);
            |run.messages| >= 1 && run.messages[0] == Preamble
  {
    if HasKey(deployKey) {
      RespondSendsRequest([Preamble, Progress(args.name)], DeleteRequest(args, deployKey.value, version), reply,
                          "Secret deleted", true, FieldError);
    }
  }

  /** Without a deploy key nothing is sent: the preamble, then the key-required message, exit code 1. */
  lemma NoKeyNoRequest(args: DeleteArgs, deployKey: Option<string>, reply: HttpReply, version: string)
    requires !HasKey(deployKey)
    ensures Remove(args, deployKey, reply, version) == SecretsRun([Preamble, AuthRequired], None, Some(1), false)
  {
  }

  /** With a key, a DELETE without a body is sent to `<endpoint>/cli/v1/secrets/<name>`, whatever the reply. */
  lemma RequestSent(args: DeleteArgs, key: string, reply: HttpReply, version: string)
    requires key != ""
    ensures var run := Remove(args, Some(key), reply, version);
            && run.request.Some? && run.request.value.verb == Delete
            && run.request.value.url == Endpoint(args.endpoint) + "/cli/v1/secrets/" + args.name
            && run.request.value.body.None?
            && run.request.value.deployKey == key
            && run.request.value.userAgent == "@statickit/cli@" + version
            && run.messages[..2] == [Preamble, LogProgress("Deleting " + args.name + "...")]
  {
    RespondSendsRequest([Preamble, Progress(args.name)], DeleteRequest(args, key, version), reply,
                        "Secret deleted", true, FieldError);
  }

  /** The request of the `sends request to delete secret` unit test. */
  lemma DefaultEndpointRequest(version: string)
    ensures Remove(DeleteArgs("my-secret", None), Some("xxx"), Reply(200, None), version)
         == SecretsRun([Preamble, Progress("my-secret"), LogSuccess("Secret deleted")],
                       Some(SecretRequest(Delete, "https://api.statickit.com/cli/v1/secrets/my-secret",
                                          None, "xxx", UserAgent(version))),
                       None, false)
  {
    assert Endpoint(None) + "/cli/v1/secrets/" + "my-secret" == "https://api.statickit.com/cli/v1/secrets/my-secret";
  }

  /** A 404 reports the missing secret and fails. */
  lemma NotFoundReported(args: DeleteArgs, key: string, errors: Option<seq<ApiError>>, version: string)
    requires key != ""
    ensures Remove(args, Some(key), Reply(404, errors), version).messages
         == [Preamble, Progress(args.name), LogError(NotFound)]
    ensures Remove(args, Some(key), Reply(404, errors), version).exitCode == Some(1)
  {
  }

  /** On 422 every error, a malformed key included, is shown as its humanized field and message, in order. */
  lemma ValidationErrorsByField(args: DeleteArgs, key: string, es: seq<ApiError>, version: string)
    requires key != ""
    ensures var run := Remove(args, Some(key), Reply(422, Some(es)), version);
            && run.exitCode == Some(1) && !run.rethrown
            && |run.messages| == 2 + |es|
            && (forall i :: 0 <= i < |es| ==> run.messages[2 + i] == FieldError(es[i]))
  {
    var before := [Preamble, Progress(args.name)];
    RespondValidationErrors(before, DeleteRequest(args, key, version), es, "Secret deleted", true, FieldError);
    assert |before| == 2;
  }
}
