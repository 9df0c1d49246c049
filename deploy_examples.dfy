/**
 * The deploy command on the inputs of its unit tests (test/cmds/deploy.test.js).
 * The parser is abstract, so each example states what the parser returns for the
 * raw text as a precondition.
 */
module DeployExamples {
  import opened Wrappers
  import opened JsValues
  import opened TreeTraversal
  import opened Messages
  import opened EnvRefs
  import opened SecretCheck
  import opened DeployCommand
  import opened DeployProperties

  /** The environment of the unit tests. */
  function TestEnv(): map<string, string> {
    map["MY_SECRET" := "pa$$w0rd", "API_KEY" := "12345"]
  }

  /** What one token turns into. */
  function Replacement(env: map<string, string>, name: string): string {
    if Defined(env, name) then env[name] else "undefined"
  }

  function Missing(env: map<string, string>, name: string): seq<string> {
    if Defined(env, name) then [] else [name]
  }

  /** A `$`-free piece followed by one reference. */
  lemma ReferenceAfterPrefix(pre: string, name: string, rest: string, env: map<string, string>)
    requires '$' !in pre
    requires name != [] && forall c :: c in name ==> IsWordChar(c)
    requires rest == [] || !IsWordChar(rest[0])
    ensures Substitute(pre + ("$" + name + rest), env)
         == Substitution(pre + Replacement(env, name) + Substitute(rest, env).text,
                         Missing(env, name) + Substitute(rest, env).undefinedNames)
  {
    var token := "$" + name + rest;
    SubstituteToken(name, rest, env);
    SubstituteDollarFreePrefix(pre, token, env);
    PrefixCombined(pre, Substitute(token, env), Replacement(env, name), Missing(env, name), Substitute(rest, env));
  }

  /** Re-association of a copied prefix in front of a replaced token. */
  lemma PrefixCombined(pre: string, t: Substitution, replacement: string, missing: seq<string>, r: Substitution)
    requires t == Substitution(replacement + r.text, missing + r.undefinedNames)
    ensures Substitution(pre + t.text, t.undefinedNames)
         == Substitution(pre + replacement + r.text, missing + r.undefinedNames)
  {
    assert pre + (replacement + r.text) == pre + replacement + r.text;
  }

  /** A text with two references `$first` and `$second` between `$`-free pieces. */
  lemma SubstituteTwoReferences(pre: string, first: string, middle: string, second: string, post: string,
                                env: map<string, string>)
    requires '$' !in pre && '$' !in middle && '$' !in post
    requires first != [] && forall c :: c in first ==> IsWordChar(c)
    requires second != [] && forall c :: c in second ==> IsWordChar(c)
    requires middle != [] && !IsWordChar(middle[0])
    requires post == [] || !IsWordChar(post[0])
    ensures Substitute(pre + ("$" + first + (middle + ("$" + second + post))), env)
         == Substitution(pre + Replacement(env, first) + (middle + Replacement(env, second) + post),
                         Missing(env, first) + Missing(env, second))
  {
    NoDollarNoTokens(post);
    SubstituteWithoutTokens(post, env);
    assert Missing(env, second) + [] == Missing(env, second);
    ReferenceAfterPrefix(middle, second, post, env);
    var rest := middle + ("$" + second + post);
    assert rest[0] == middle[0];
    ReferenceAfterPrefix(pre, first, rest, env);
  }

  /** The fixed pieces of the test configurations around their two references. */
  predicate TestPieces(pre: string, middle: string, post: string) {
    pre == "{\"mySecret\":\"" && middle == "\",\"apiKey\":\"" && post == "\"}"
  }

  /** Each `$NAME` becomes its value verbatim; the `$$` inside `pa$$w0rd` is not expanded again. */
  lemma SecretsSubstitutedVerbatim(pre: string, middle: string, post: string, env: map<string, string>)
    requires TestPieces(pre, middle, post) && env == TestEnv()
    ensures Substitute(pre + ("$MY_SECRET" + (middle + ("$API_KEY" + post))), env)
         == Substitution(pre + "pa$$w0rd" + (middle + "12345" + post), [])
  {
    SubstituteTwoReferences(pre, "MY_SECRET", middle, "API_KEY", post, env);
    assert "$MY_SECRET" == "$" + "MY_SECRET";
    assert "$API_KEY" == "$" + "API_KEY";
  }

  /** Both undefined names are collected, in order, before the handler gives up. */
  lemma UndefinedNamesCollected(pre: string, middle: string, post: string, env: map<string, string>)
    requires TestPieces(pre, middle, post) && env == TestEnv()
    ensures Substitute(pre + ("$MY_SECRET_1" + (middle + ("$API_KEY_1" + post))), env).undefinedNames
         == ["MY_SECRET_1", "API_KEY_1"]
  {
    SubstituteTwoReferences(pre, "MY_SECRET_1", middle, "API_KEY_1", post, env);
    assert "$MY_SECRET_1" == "$" + "MY_SECRET_1";
    assert "$API_KEY_1" == "$" + "API_KEY_1";
  }

  /**
   * The configuration of the "apiKey/apiSecret/secretKey properties do not point to
   * env vars" tests, with `sensitive` as the nested key.
   */
  function NestedInlineKey(sensitive: string): Json {
    JObject([("forms", JObject([("contactForm", JObject([("actions",
      JArray([JObject([(sensitive, JString("my-inline-key"))])]))]))]))])
  }

  /** The inline key two objects and one array deep is reached, under its own key. */
  lemma NestedInlineKeyVisited(sensitive: string)
    ensures Traverse(NestedInlineKey(sensitive)) == [Visit(sensitive, JString("my-inline-key"))]
  {
    var visit := Visit(sensitive, JString("my-inline-key"));
    var leaf := JObject([(sensitive, JString("my-inline-key"))]);
    FlatObjectVisitsEveryProperty([(sensitive, JString("my-inline-key"))]);
    assert Traverse(leaf) == [visit];
    assert [leaf][1..] == [];
    assert DescendElements([leaf]) == [visit];
    var actions := JObject([("actions", JArray([leaf]))]);
    assert VisitProperty("actions", JArray([leaf])) == [visit];
    OneMemberVisits("actions", JArray([leaf]));
    assert Traverse(actions) == [visit];
    var contact := JObject([("contactForm", actions)]);
    OneMemberVisits("contactForm", actions);
    assert Traverse(contact) == [visit];
    OneMemberVisits("forms", contact);
  }

  /** An object with a single property is visited as that property. */
  lemma OneMemberVisits(key: string, value: Json)
    ensures Traverse(JObject([(key, value)])) == VisitProperty(key, value)
  {
    assert [(key, value)][1..] == [];
    assert TraverseMembers([(key, value)]) == VisitProperty(key, value) + TraverseMembers([]);
  }

  /** Without `--force` the deploy stops and names the nested sensitive key, with the `-f` hint. */
  lemma NestedInlineKeyRejected(args: DeployArgs, c: Collaborators, parse: string -> Option<Json>, sensitive: string)
    requires sensitive in SensitiveKeys
    requires !args.force && args.config.Some? && args.config.value != ""
    requires parse(args.config.value) == Some(NestedInlineKey(sensitive))
    ensures Deploy(args, c, parse) == Fail([LogError(SensitivePrefix + sensitive), LogMeta(OverrideHint)])
  {
    NestedInlineKeyVisited(sensitive);
    NestedInlineKeyNotShadowed(sensitive);
    var visits := [Visit(sensitive, JString("my-inline-key"))];
    assert ScanVisits(visits) == Collected([sensitive]) by {
      assert visits[..0] == [];
      assert !IsEnvReference("my-inline-key");
    }
    OffendingKeysReported(args, c, parse, NestedInlineKey(sensitive), [sensitive]);
  }

  /** The sensitive-key gate on a walk that completed with offending keys. */
  lemma OffendingKeysReported(args: DeployArgs, c: Collaborators, parse: string -> Option<Json>,
                              parsed: Json, keys: seq<string>)
    requires !args.force && args.config.Some? && args.config.value != "" && parse(args.config.value) == Some(parsed)
    requires !HasOwnPropertyShadowed(parsed) && ScanVisits(Traverse(parsed)) == Collected(keys) && keys != []
    ensures Deploy(args, c, parse) == Fail([LogError(SensitivePrefix + Join(keys, ", ")), LogMeta(OverrideHint)])
  {
  }

  /** No object of the nested test configuration has a `hasOwnProperty` key. */
  lemma NestedInlineKeyNotShadowed(sensitive: string)
    requires sensitive in SensitiveKeys
    ensures !HasOwnPropertyShadowed(NestedInlineKey(sensitive))
  {
    var leafMembers := [(sensitive, JString("my-inline-key"))];
    var leaf := JObject(leafMembers);
    FlatObjectShadowedIffOwnKey(leafMembers);
    assert Keys(leafMembers) == [sensitive];
    assert [leaf][1..] == [];
    assert !ElementsShadow([leaf]);
    OneMemberNotShadowed("actions", JArray([leaf]));
    var actions := JObject([("actions", JArray([leaf]))]);
    OneMemberNotShadowed("contactForm", actions);
    OneMemberNotShadowed("forms", JObject([("contactForm", actions)]));
  }

  lemma OneMemberNotShadowed(key: string, value: Json)
    requires key != "hasOwnProperty" && !PropertyShadows(value)
    ensures !HasOwnPropertyShadowed(JObject([(key, value)]))
  {
    assert [(key, value)][1..] == [];
    assert Get([(key, value)], "hasOwnProperty") == Get([], "hasOwnProperty");
    assert MembersShadow([(key, value)]) == (PropertyShadows(value) || MembersShadow([]));
  }

  /** A configuration object with its own `hasOwnProperty` property: the walk throws, even with `--force`. */
  lemma ShadowingConfigRejected(args: DeployArgs, c: Collaborators, parse: string -> Option<Json>)
    requires args.config.Some? && args.config.value != ""
    requires parse(args.config.value) == Some(JObject([("hasOwnProperty", JNumber(1.0))]))
    ensures Deploy(args, c, parse) == DeployRun([], None, None, true)
  {
    assert Get([("hasOwnProperty", JNumber(1.0))], "hasOwnProperty").Some?;
  }

  /** A 422 with one general error: the failure line, then the numbered message between blank lines. */
  lemma GeneralValidationErrorDisplayed(args: DeployArgs, c: Collaborators, parse: string -> Option<Json>)
    requires args.config == Some("{}") && args.key == Some("xxx") && parse("{}") == Some(JObject([]))
    requires c.response == Responded(422, DeployData(Some("xxxx-xxxx-xxxx"), None,
                                                     Some([ValidationError("name", "is required")]), None))
    ensures Deploy(args, c, parse)
         == DeployRun([LogError("Deployment failed"), ErrLine(""), ErrLine(NumberedLine(1, "is required")), ErrLine("")],
                      Some(1), Some(DeployRequest(Endpoint(args), JObject([]), "xxx", UserAgent(c.version))), false)
  {
    NoDollarNoTokens("{}");
    SubstituteWithoutTokens("{}", c.env);
    assert Traverse(JObject([])) == [];
    assert ScanVisits([]) == Collected([]);
    assert FirstNonEmpty(args.key, c.deployKey) == Some("xxx");
    var errors := [ValidationError("name", "is required")];
    var printed := PrintErrors(None, errors);
    assert printed == [ErrLine(""), ErrLine(NumberedLine(1, "is required")), ErrLine("")];
  }

  /** The raw text of the `--force` test's configuration. */
  predicate InlineKeyText(raw: string) {
    raw == "{\"apiKey\":\"my-inline-key\"}"
  }

  /** With `--force` the same kind of inline key is submitted unchanged. */
  lemma InlineKeySubmittedWithForce(args: DeployArgs, c: Collaborators, parse: string -> Option<Json>, raw: string)
    requires InlineKeyText(raw) && args.force && args.config == Some(raw) && args.key == Some("xxx")
    requires parse(raw) == Some(JObject([("apiKey", JString("my-inline-key"))]))
    ensures Deploy(args, c, parse).request
         == Some(DeployRequest(Endpoint(args), JObject([("apiKey", JString("my-inline-key"))]), "xxx", UserAgent(c.version)))
  {
    assert raw != [] && '$' !in raw;
    FlatObjectShadowedIffOwnKey([("apiKey", JString("my-inline-key"))]);
    assert Keys([("apiKey", JString("my-inline-key"))]) == ["apiKey"];
    FlatObjectVisitsEveryProperty([("apiKey", JString("my-inline-key"))]);
    var visits := [Visit("apiKey", JString("my-inline-key"))];
    assert ScanVisits(visits) == Collected(["apiKey"]) by {
      assert visits[..0] == [];
      assert !IsEnvReference("my-inline-key");
    }
    LiteralConfigSubmittedAsParsed(args, c, parse);
  }

  /** A configuration with no sensitive-key violation goes on to substitution. */
  lemma CleanConfigReachesSubstitution(args: DeployArgs, c: Collaborators, parse: string -> Option<Json>,
                                       parsed: Json)
    requires args.config.Some? && args.config.value != [] && parse(args.config.value) == Some(parsed)
    requires !HasOwnPropertyShadowed(parsed) && ScanVisits(Traverse(parsed)) == Collected([])
    ensures Deploy(args, c, parse) == DeploySubstituted(args, c, parse, args.config.value)
  {
  }

  /** A complete substitution that parses is sent with the key that was found. */
  lemma SubstitutedTextSent(args: DeployArgs, c: Collaborators, parse: string -> Option<Json>,
                            rawConfig: string, text: string, key: string)
    requires Substitute(rawConfig, c.env) == Substitution(text, [])
    requires parse(text).Some? && FirstNonEmpty(args.key, c.deployKey) == Some(key)
    ensures DeploySubstituted(args, c, parse, rawConfig).request
         == Some(DeployRequest(Endpoint(args), parse(text).value, key, UserAgent(c.version)))
  {
  }

  /** The two test references, both accepted by the sensitive-key check. */
  lemma TwoReferencesAccepted(first: string, second: string)
    requires IsEnvReference(first) && IsEnvReference(second)
    ensures !HasOwnPropertyShadowed(JObject([("mySecret", JString(first)), ("apiKey", JString(second))]))
    ensures ScanVisits(Traverse(JObject([("mySecret", JString(first)), ("apiKey", JString(second))])))
         == Collected([])
  {
    var members := [("mySecret", JString(first)), ("apiKey", JString(second))];
    FlatObjectShadowedIffOwnKey(members);
    assert Keys(members) == ["mySecret", "apiKey"];
    FlatObjectVisitsEveryProperty(members);
    var visits := [Visit("mySecret", JString(first)), Visit("apiKey", JString(second))];
    assert Traverse(JObject(members)) == visits;
    assert visits[..1] == [visits[0]] && visits[..1][..0] == [];
  }

  /** References to undefined variables: both names reported together, nothing sent. */
  lemma UndefinedVariablesReported(args: DeployArgs, c: Collaborators, parse: string -> Option<Json>,
                                   pre: string, middle: string, post: string)
    requires TestPieces(pre, middle, post) && c.env == TestEnv()
    requires args.config == Some(pre + ("$MY_SECRET_1" + (middle + ("$API_KEY_1" + post))))
    requires parse(args.config.value)
          == Some(JObject([("mySecret", JString("$MY_SECRET_1")), ("apiKey", JString("$API_KEY_1"))]))
    ensures Deploy(args, c, parse) == Fail([LogError(UndefinedPrefix + Join(["MY_SECRET_1", "API_KEY_1"], ", "))])
  {
    assert IsEnvReference("$MY_SECRET_1") && IsEnvReference("$API_KEY_1");
    TwoReferencesAccepted("$MY_SECRET_1", "$API_KEY_1");
    CleanConfigReachesSubstitution(args, c, parse, parse(args.config.value).value);
    UndefinedNamesCollected(pre, middle, post, c.env);
  }

  /** Defined references: the re-parsed, substituted text is what is sent. */
  lemma SubstitutedConfigSent(args: DeployArgs, c: Collaborators, parse: string -> Option<Json>,
                              pre: string, middle: string, post: string)
    requires TestPieces(pre, middle, post) && c.env == TestEnv() && args.key == Some("xxx")
    requires args.config == Some(pre + ("$MY_SECRET" + (middle + ("$API_KEY" + post))))
    requires parse(args.config.value)
          == Some(JObject([("mySecret", JString("$MY_SECRET")), ("apiKey", JString("$API_KEY"))]))
    requires parse(pre + "pa$$w0rd" + (middle + "12345" + post))
          == Some(JObject([("mySecret", JString("pa$$w0rd")), ("apiKey", JString("12345"))]))
    ensures Deploy(args, c, parse).request
         == Some(DeployRequest(Endpoint(args), JObject([("mySecret", JString("pa$$w0rd")), ("apiKey", JString("12345"))]),
                               "xxx", UserAgent(c.version)))
  {
    assert IsEnvReference("$MY_SECRET") && IsEnvReference("$API_KEY");
    TwoReferencesAccepted("$MY_SECRET", "$API_KEY");
    CleanConfigReachesSubstitution(args, c, parse, parse(args.config.value).value);
    SecretsSubstitutedVerbatim(pre, middle, post, c.env);
    SubstitutedTextSent(args, c, parse, args.config.value, pre + "pa$$w0rd" + (middle + "12345" + post), "xxx");
  }

  /** An empty configuration with a key and a 200 response: success, exit code unset. */
  lemma EmptyConfigDeployed(args: DeployArgs, c: Collaborators, parse: string -> Option<Json>)
    requires args.config == Some("{}") && args.key == Some("xxx") && parse("{}") == Some(JObject([]))
    requires c.response == Responded(200, DeployData(Some("xxxx-xxxx-xxxx"), None, None, None))
    ensures Deploy(args, c, parse)
         == DeployRun([LogSuccess("Deployment succeeded (xxxx-xxxx-xxxx)")], None,
                      Some(DeployRequest(Endpoint(args), JObject([]), "xxx", UserAgent(c.version))), false)
  {
    NoDollarNoTokens("{}");
    SubstituteWithoutTokens("{}", c.env);
    assert Traverse(JObject([])) == [];
    assert ScanVisits([]) == Collected([]);
    assert FirstNonEmpty(args.key, c.deployKey) == Some("xxx");
    assert PrintDeployLog(None) == [];
    assert "Deployment succeeded (" + IdText(Some("xxxx-xxxx-xxxx")) + ")" == "Deployment succeeded (xxxx-xxxx-xxxx)";
  }
}
