/**
 * What the deploy handler promises, stated over its specification `Deploy`.
 */
module DeployProperties {
  import opened Wrappers
  import opened JsValues
  import opened TreeTraversal
  import opened Messages
  import opened EnvRefs
  import opened SecretCheck
  import opened DeployCommand

  /** The walk of the parsed configuration finishes without throwing. */
  ghost predicate WalkCompletes(parsed: Json) {
    !HasOwnPropertyShadowed(parsed) && ScanVisits(Traverse(parsed)).Collected?
  }

  /** Every gate up to the second parse passes. */
  ghost predicate ConfigGatesPass(args: DeployArgs, c: Collaborators, parse: string -> Option<Json>) {
    var raw := FirstNonEmpty(args.config, c.rawConfig);
    && raw.Some?
    && parse(raw.value).Some?
    && WalkCompletes(parse(raw.value).value)
    && (args.force || ScanVisits(Traverse(parse(raw.value).value)).invalidKeys == [])
    && Substitute(raw.value, c.env).undefinedNames == []
    && parse(Substitute(raw.value, c.env).text).Some?
  }

  /** Every gate before the request passes. */
  ghost predicate GatesPass(args: DeployArgs, c: Collaborators, parse: string -> Option<Json>) {
    ConfigGatesPass(args, c, parse) && FirstNonEmpty(args.key, c.deployKey).Some?
  }

  /**
   * A request is made exactly when every gate passes, and it carries the re-parsed
   * substituted configuration, the deploy key, the endpoint and the user agent.
   */
  lemma RequestOnlyWhenEveryGatePasses(args: DeployArgs, c: Collaborators, parse: string -> Option<Json>)
    ensures Deploy(args, c, parse).request.Some? <==> GatesPass(args, c, parse)
    ensures GatesPass(args, c, parse) ==>
              var raw := FirstNonEmpty(args.config, c.rawConfig).value;
              Deploy(args, c, parse).request
                == Some(DeployRequest(Endpoint(args), parse(Substitute(raw, c.env).text).value,
                                      FirstNonEmpty(args.key, c.deployKey).value, UserAgent(c.version)))
  {
  }

  /**
   * The exit code is left unset only when the deployment succeeded (status 200) or
   * the handler itself threw; every other outcome sets it to 1.
   */
  lemma ExitCodeUnsetOnlyOnSuccess(args: DeployArgs, c: Collaborators, parse: string -> Option<Json>)
    ensures var run := Deploy(args, c, parse);
            (run.exitCode == None
             <==> run.rejected || (run.request.Some? && c.response.Responded? && c.response.status == 200))
    ensures var run := Deploy(args, c, parse);
            run.exitCode != None ==> run.exitCode == Some(1) && !run.rejected && run.messages != []
  {
  }

  /**
   * The handler throws exactly when the walk throws: some sensitive key holds a
   * non-string value (`value.match` is not a function), or the walk reaches an
   * object with an own `hasOwnProperty` property. The walk runs whether or not
   * `--force` is given, so `--force` does not avoid either.
   */
  lemma RejectedOnlyWhenWalkThrows(args: DeployArgs, c: Collaborators, parse: string -> Option<Json>)
    ensures var raw := FirstNonEmpty(args.config, c.rawConfig);
            (Deploy(args, c, parse).rejected
             <==> raw.Some? && parse(raw.value).Some?
                  && (HasOwnPropertyShadowed(parse(raw.value).value)
                      || exists i :: 0 <= i < |Traverse(parse(raw.value).value)|
                                     && CheckLeaf(Traverse(parse(raw.value).value)[i]) == NotAString))
    ensures Deploy(args, c, parse).rejected ==> Deploy(args, c, parse).request.None? && Deploy(args, c, parse).messages == []
  {
    var raw := FirstNonEmpty(args.config, c.rawConfig);
    if raw.Some? && parse(raw.value).Some? {
      var parsed := parse(raw.value).value;
      var visits := Traverse(parsed);
      if !HasOwnPropertyShadowed(parsed) && ScanVisits(visits).Collected? {
        assert !Deploy(args, c, parse).rejected;
      } else {
        assert Deploy(args, c, parse).rejected;
        if !HasOwnPropertyShadowed(parsed) {
          var i :| 0 <= i < |visits| && CheckLeaf(visits[i]) == NotAString;
          assert CheckLeaf(Traverse(parse(raw.value).value)[i]) == NotAString;
        }
      }
    }
  }

  /** Without a raw configuration the handler stops at once; no later gate gives this message. */
  lemma NoConfigReported(args: DeployArgs, c: Collaborators, parse: string -> Option<Json>)
    ensures Deploy(args, c, parse) == Fail([LogError(ConfigNotProvided)])
            <==> FirstNonEmpty(args.config, c.rawConfig).None?
  {
  }

  /** With every configuration gate passed but no key, only `authRequired` is shown; no other gate shows it. */
  lemma NoKeyReported(args: DeployArgs, c: Collaborators, parse: string -> Option<Json>)
    ensures Deploy(args, c, parse) == Fail([AuthRequired])
            <==> ConfigGatesPass(args, c, parse) && FirstNonEmpty(args.key, c.deployKey).None?
  {
  }

  /**
   * Once every gate passes, the request is sent and the response decides the
   * outcome: success with the id and the deploy log, an invalid key, the numbered
   * validation errors, any other status, or a request that threw.
   */
  lemma DispatchAfterGates(args: DeployArgs, c: Collaborators, parse: string -> Option<Json>)
    requires GatesPass(args, c, parse)
    ensures var run := Deploy(args, c, parse);
            run.request.Some? && !run.rejected
    ensures var run := Deploy(args, c, parse);
            c.response.RequestThrew? ==>
              run.messages == [LogError("Deployment failed unexpectedly")] && run.exitCode == Some(1)
    ensures var run := Deploy(args, c, parse);
            c.response.Responded? && c.response.status == 200 ==>
              run.messages == [LogSuccess("Deployment succeeded (" + IdText(c.response.data.id) + ")")]
                            + PrintDeployLog(c.response.data.log)
              && run.exitCode.None?
    ensures var run := Deploy(args, c, parse);
            c.response.Responded? && c.response.status == 401 ==>
              run.messages == [LogError("Deploy key is not valid")] && run.exitCode == Some(1)
    ensures var run := Deploy(args, c, parse);
            c.response.Responded? && c.response.status == 422 && c.response.data.errors.Some? ==>
              run.messages == [LogError("Deployment failed")]
                            + PrintErrors(c.response.data.code, c.response.data.errors.value)
              && run.exitCode == Some(1)
    ensures var run := Deploy(args, c, parse);
            c.response.Responded? && c.response.status == 422 && c.response.data.errors.None? ==>
              run.messages == [LogError("Deployment failed"), ErrLine(""), LogError("Deployment failed unexpectedly")]
              && run.exitCode == Some(1)
    ensures var run := Deploy(args, c, parse);
            c.response.Responded? && c.response.status !in {200, 401, 422} ==>
              run.messages == [LogError("Deployment failed")] && run.exitCode == Some(1)
  {
  }

  /** Both parse gates fail with the same single message. */
  lemma ParseFailuresShareOneMessage(args: DeployArgs, c: Collaborators, parse: string -> Option<Json>)
    requires FirstNonEmpty(args.config, c.rawConfig).Some?
    ensures var raw := FirstNonEmpty(args.config, c.rawConfig).value;
            parse(raw).None? ==> Deploy(args, c, parse) == Fail([LogError(ConfigNotParsed)])
    ensures var raw := FirstNonEmpty(args.config, c.rawConfig).value;
            && parse(raw).Some? && WalkCompletes(parse(raw).value)
            && (args.force || ScanVisits(Traverse(parse(raw).value)).invalidKeys == [])
            && Substitute(raw, c.env).undefinedNames == []
            && parse(Substitute(raw, c.env).text).None?
            ==> Deploy(args, c, parse) == Fail([LogError(ConfigNotParsed)])
  {
  }

  /**
   * Without `--force`, literal secrets stop the handler before substitution: the
   * error names every offending key and the override hint follows, whatever the
   * environment, the deploy key or the server would have said.
   */
  lemma SensitiveCheckPrecedesSubstitution(args: DeployArgs, c: Collaborators, parse: string -> Option<Json>,
                                           env': map<string, string>, key': Option<string>, response': DeployResponse)
    requires !args.force
    requires FirstNonEmpty(args.config, c.rawConfig).Some?
    requires var raw := FirstNonEmpty(args.config, c.rawConfig).value;
             parse(raw).Some? && WalkCompletes(parse(raw).value)
             && ScanVisits(Traverse(parse(raw).value)).invalidKeys != []
    ensures var raw := FirstNonEmpty(args.config, c.rawConfig).value;
            var keys := OffendingKeys(Traverse(parse(raw).value));
            Deploy(args, c, parse) == Fail([LogError(SensitivePrefix + Join(keys, ", ")), LogMeta(OverrideHint)])
    ensures Deploy(args, c, parse) == Deploy(args, c.(env := env', deployKey := key', response := response'), parse)
  {
    var raw := FirstNonEmpty(args.config, c.rawConfig).value;
    OffendingKeysInOrder(Traverse(parse(raw).value));
  }

  /**
   * Undefined references stop the handler before the second parse, the key lookup
   * and the request; the error lists every token of the raw text whose variable is
   * absent or empty, in order of occurrence.
   */
  lemma UndefinedReferencesReportedTogether(args: DeployArgs, c: Collaborators, parse: string -> Option<Json>,
                                            key': Option<string>, response': DeployResponse)
    requires FirstNonEmpty(args.config, c.rawConfig).Some?
    requires var raw := FirstNonEmpty(args.config, c.rawConfig).value;
             parse(raw).Some? && WalkCompletes(parse(raw).value)
             && (args.force || ScanVisits(Traverse(parse(raw).value)).invalidKeys == [])
    requires var raw := FirstNonEmpty(args.config, c.rawConfig).value;
             exists n :: n in Tokens(raw) && !Defined(c.env, n)
    ensures var raw := FirstNonEmpty(args.config, c.rawConfig).value;
            Deploy(args, c, parse) == Fail([LogError(UndefinedPrefix + Join(UndefinedAmong(Tokens(raw), c.env), ", "))])
    ensures Deploy(args, c, parse) == Deploy(args, c.(deployKey := key', response := response'), parse)
  {
    var raw := FirstNonEmpty(args.config, c.rawConfig).value;
    UndefinedNamesAreUndefinedTokens(raw, c.env);
  }

  /**
   * A configuration without `$` that passes the sensitive-key check, or any such
   * configuration under `--force`, is submitted exactly as first parsed: inline
   * literals reach the server unchanged.
   */
  lemma LiteralConfigSubmittedAsParsed(args: DeployArgs, c: Collaborators, parse: string -> Option<Json>)
    requires FirstNonEmpty(args.config, c.rawConfig).Some?
    requires var raw := FirstNonEmpty(args.config, c.rawConfig).value;
             '$' !in raw && parse(raw).Some? && WalkCompletes(parse(raw).value)
             && (args.force || ScanVisits(Traverse(parse(raw).value)).invalidKeys == [])
    requires FirstNonEmpty(args.key, c.deployKey).Some?
    ensures var raw := FirstNonEmpty(args.config, c.rawConfig).value;
            Deploy(args, c, parse).request
              == Some(DeployRequest(Endpoint(args), parse(raw).value, FirstNonEmpty(args.key, c.deployKey).value,
                                    UserAgent(c.version)))
  {
    var raw := FirstNonEmpty(args.config, c.rawConfig).value;
    NoDollarNoTokens(raw);
    SubstituteWithoutTokens(raw, c.env);
  }
}
