# Formspree CLI core, modelled in Dafny

This project models the core of the Formspree command-line tool:

- **`traverse`** is the generic walker over a parsed configuration. It calls a visitor on every leaf, under the leaf's own key.
- **`deploy`** is a chain of gates from the raw `formspree.json` text to the deploy request:
  - raw config present;
  - the text parses;
  - no sensitive key (`apiKey`, `apiSecret`, `secretKey`, `apiToken`) holds a literal instead of a `$NAME` reference, unless `--force` is given;
  - every `$NAME` reference is defined in the environment;
  - the substituted text parses;
  - a deploy key is present.

  The command then renders the server's response: success with the deploy log, an invalid key, numbered validation errors, or an unexpected failure.
- **`forms add`** inserts `{ name }` under `forms[key]` of the local configuration object, in place, unless a truthy entry is already there.
- **`secrets add` / `update` / `delete`** each:
  - build a POST, PATCH or DELETE request to the StaticKit API;
  - dispatch on the reply's status;
  - classify 422 validation errors, first match wins, using `humanizeField`.

The JSON parser, `process.env`, the deploy key lookup, the HTTP replies and the package version are all inputs. Each handler is specified by a function from its inputs to a run record. The record holds:
- the console messages, as tags;
- the request sent, if any;
- `process.exitCode`;
- whether the handler's promise rejects.

Where the source changes state step by step, the model is imperative and is proved against those functions:
- `DeployCommand.Handler` returns early from each gate;
- `SecretCheck.CollectInvalidKeys` is the visitor loop pushing into `invalidKeys`;
- `EnvRefs.ReplaceEnvRefs` is the left-to-right `replace` scan;
- `FormsAdd.Handler` updates a `ConfigObject` in place.

`isArray` (src/traverse.js:1-3) is the predicate `TreeTraversal.IsArray`.

Behaviour modelled from the code where a prose description could suggest otherwise:
- An undefined `$NAME` is not removed from the text. The `replace` callback returns `undefined`, so the token becomes the text `undefined`. The handler stops on the collected names either way.
- The deploy handler installs no shim and presents no secret-reference errors. A 422 is rendered by `printErrors` only: `field message` when the code is `CONFIG_VALIDATION_ERROR`, the message alone otherwise.
- `traverse` visits an array's scalar elements under the index keys `"0"`, `"1"`, … only when `traverse` itself is called on that array: the root array, or a structured element of an array that `forEach` walks. An array element of such an array is a property value again, walked by `forEach`, which skips scalars; so the depth at which scalars are visited alternates. A root string is walked one character per index key.
- A sensitive key holding a non-string (a number, a boolean, `null`) makes `value.match` throw a `TypeError` inside the walk. The handler's promise then rejects with no exit code set, and `--force` does not avoid it.
- An object reached by the walk that has an own property named `hasOwnProperty` (for example `{"hasOwnProperty": 1}`) makes `obj.hasOwnProperty(key)` throw a `TypeError` as well, with the same outcome.
- A 422 whose body has no `errors` throws inside the `try`, so the `catch` reports it:
  - for `deploy`, after `Deployment failed` and a blank line;
  - for `secrets`, with a rethrow.
- An empty string counts as absent for `--config`, `--key`, `--endpoint` and environment values, because the source tests them with `||` and `!x`.

## Model

| member | source | states |
|---|---|---|
| TreeTraversal.Traverse | src/traverse.js:5-22 | every call of the visitor receives a leaf: never an array, never a non-null object |
| TreeTraversal.TraverseMembersAppend | src/traverse.js:6-21 | the visits of the properties `a + b` are those of `a` followed by those of `b` |
| TreeTraversal.ObjectVisitsInKeyOrder | src/traverse.js:6-21 | depth-first in key order: an object's visits are its properties' visits, one property after another |
| TreeTraversal.FlatObjectVisitsEveryProperty | src/traverse.js:6-19 | an object of scalar properties calls the visitor once per property, in order, with the property's own key and value |
| TreeTraversal.NullPropertyVisited | src/traverse.js:15-18 | a property holding `null` is passed to the visitor |
| TreeTraversal.ScalarsOfKeyedArrayNotVisited | src/traverse.js:10-14 | an array held by a key yields no visit for its scalar elements, nor for the key itself |
| TreeTraversal.DescendElementsAppend | src/traverse.js:11-14 | the structured elements of a keyed array are walked in element order |
| TreeTraversal.RootArrayVisitsScalarsByIndex | src/traverse.js:5-8 | a root array's scalars are visited under the index keys "0", "1", … |
| TreeTraversal.ArrayInKeyedArrayVisitsScalarsByIndex | src/traverse.js:10-14 | an array that is an element of a keyed array is walked like a root array, by index keys, never under the outer key |
| TreeTraversal.ArrayInRootArrayScalarsNotVisited | src/traverse.js:6-14 | an array that is an element of the root array is a property value, walked by `forEach`: its scalars are not visited |
| TreeTraversal.HasOwnPropertyShadowed | src/traverse.js:7 | when `obj.hasOwnProperty(key)` throws during the walk: an object with an own `hasOwnProperty` property always makes it throw, a scalar root never does; the lemmas below give the full characterisation |
| TreeTraversal.FlatObjectShadowedIffOwnKey | src/traverse.js:6-7 | an object of scalar properties makes the walk throw exactly when one of its own keys is `hasOwnProperty` |
| TreeTraversal.NestedShadowingReached | src/traverse.js:7-17 | an object shadowing `hasOwnProperty` makes the walk throw at any depth, under a key or inside a keyed array |
| TreeTraversal.IndexedShadowElements | src/traverse.js:6-14 | an array walked by `for...in` reaches a shadowing object only through a structured element, which `forEach` enters too |
| TreeTraversal.ElementsShadowNested | src/traverse.js:6-14 | conversely, an array walked by `forEach` that reaches a shadowing object reaches it when walked by `for...in` |
| TreeTraversal.TraverseLeafProperties | src/traverse.js:6-18 | every visit passes a (key, value) pair that is a leaf property of some object the walk reaches, with that property's own key and value, or else is keyed by an index (`for...in` over an array or a string); the visitor never sees a composed path, nor a value under another property's key |
| Decimal.DigitsValueOfNatToString | src/traverse.js:6 | reading back the decimal key of an index gives the index |
| Decimal.NatToStringInjective | src/traverse.js:6 | distinct array positions are enumerated under distinct keys |
| JsValues.Get | src/cmds/forms_cmds/add.js:19 | a lookup is `undefined` exactly when the key is not an own property |
| JsValues.Put | src/cmds/forms_cmds/add.js:22 | an assignment keeps the key list, or appends the new key at the end |
| JsValues.GetPutSame | src/cmds/forms_cmds/add.js:22 | after `obj[key] = v`, `obj[key]` reads `v` |
| JsValues.GetPutOther | src/cmds/forms_cmds/add.js:22 | `obj[key] = v` leaves every other property unchanged |
| Messages.NumberedLines | src/cmds/deploy.js:36-38 | one bare line per item on the chosen console stream, in order, the i-th numbered `from + i` |
| SecretCheck.CheckLeaf | src/cmds/deploy.js:101-108 | a key is reported iff it is sensitive and its string value is not `$NAME`; a non-string sensitive value makes the callback throw |
| SecretCheck.ScanVisits | src/cmds/deploy.js:98-108 | the walk throws iff some sensitive leaf is not a string; otherwise it reports only sensitive keys, none iff every leaf is accepted |
| SecretCheck.ThrowIsFinal | src/cmds/deploy.js:101-108 | once the callback has thrown, later leaves change nothing |
| SecretCheck.OffendingKeysInOrder | src/cmds/deploy.js:101-108 | the reported keys are exactly the offending leaves' keys, in visit order, duplicates kept |
| SecretCheck.NoSensitiveKeyNoViolation | src/cmds/deploy.js:99-107 | leaves without a sensitive key are never reported |
| SecretCheck.CollectInvalidKeys | src/cmds/deploy.js:98-108 | the visitor loop pushing into `invalidKeys` computes the walk's outcome |
| EnvRefs.WordRunEnd | src/cmds/deploy.js:129 | the greedy `[A-Za-z0-9_]+` run ends at the first non-word character or at the end |
| EnvRefs.IsEnvReference | src/cmds/deploy.js:104 | a value matches `^\$([A-Za-z0-9_]+)$` iff it is one `$NAME` token whose greedy word run reaches the end of the value |
| EnvRefs.Substitute | src/cmds/deploy.js:128-135 | the one-pass `replace` with its callback: every recorded name is a non-empty name whose variable is undefined or empty; the lemmas below state what the text becomes and which names are recorded |
| EnvRefs.Tokens | src/cmds/deploy.js:129 | every matched name is non-empty and made of word characters |
| EnvRefs.UndefinedAmong | src/cmds/deploy.js:130-134 | a name is collected iff it is referenced and its variable is absent or empty |
| EnvRefs.UndefinedNamesAreUndefinedTokens | src/cmds/deploy.js:126-135 | the names pushed by the callback are all undefined tokens of the whole text, in order, none dropped |
| EnvRefs.SubstituteWithoutTokens | src/cmds/deploy.js:128-135 | a text without references is returned unchanged, with nothing undefined |
| EnvRefs.NoDollarNoTokens | src/cmds/deploy.js:129 | a text without `$` has no references |
| EnvRefs.SubstituteDollarFreePrefix | src/cmds/deploy.js:128-135 | a `$`-free prefix is copied verbatim ahead of the substitution of the rest |
| EnvRefs.SubstituteToken | src/cmds/deploy.js:128-135 | a maximal `$NAME` becomes the variable's value, or "undefined" with the name recorded |
| EnvRefs.WordRunEndAt | src/cmds/deploy.js:129 | the greedy run ends exactly at the first non-word character |
| EnvRefs.SelfReferencesRoundTrip | src/cmds/deploy.js:128-135 | a self-referencing environment (each name bound to `$name`) leaves the text unchanged and reports nothing undefined |
| EnvRefs.ReplaceEnvRefs | src/cmds/deploy.js:126-135 | the character scan computes the substitution and the undefined names |
| DeployCommand.FirstNonEmpty | src/cmds/deploy.js:75 | `a || b` on optional strings: the first non-empty one, absent iff both are absent or empty |
| DeployCommand.PrintErrors | src/cmds/deploy.js:10-30 | a blank line, one numbered line per error (`field message` only for CONFIG_VALIDATION_ERROR), a blank line |
| DeployCommand.PrintDeployLog | src/cmds/deploy.js:32-40 | nothing iff there is no log; otherwise the numbered entries between blank lines |
| DeployCommand.Dispatch | src/cmds/deploy.js:166-207 | the request and its outcome: the request is always recorded, something is always logged, and the exit code stays unset iff the response is a 200; otherwise it is 1 |
| DeployCommand.DeploySubstituted | src/cmds/deploy.js:126-207 | after the sensitive-key gate: a request is sent iff no reference is undefined, the substituted text parses and a deploy key is present; each failing gate logs one message with exit code 1 |
| DeployCommand.Deploy | src/cmds/deploy.js:74-208 | the whole handler: a throwing walk logs and sends nothing and leaves the exit code unset; every other run logs something, and a run that sends nothing stopped at a gate with exit code 1 and one or two messages; `DeployProperties` states the gates one by one |
| DeployCommand.Handler | src/cmds/deploy.js:74-208 | the early-returning handler computes the gate-chain specification |
| DeployProperties.RequestOnlyWhenEveryGatePasses | src/cmds/deploy.js:74-174 | a request is made iff every gate passes, and it carries the re-parsed substituted config, the key, the endpoint and the user agent |
| DeployProperties.ExitCodeUnsetOnlyOnSuccess | src/cmds/deploy.js:178-207 | the exit code is left unset iff the deploy got a 200 or the handler threw; otherwise it is 1 and something was reported |
| DeployProperties.RejectedOnlyWhenWalkThrows | src/cmds/deploy.js:101-108 | the handler rejects iff the walk of the parsed config throws (a non-string sensitive leaf, or an object shadowing `hasOwnProperty`), `--force` or not; then nothing is logged or sent |
| DeployProperties.NoConfigReported | src/cmds/deploy.js:80-84 | "Configuration not provided" with exit code 1 is the outcome iff neither `--config` nor the config file gives a non-empty text |
| DeployProperties.NoKeyReported | src/cmds/deploy.js:158-164 | `authRequired` alone with exit code 1 is the outcome iff every configuration gate passes and no non-empty deploy key is found |
| DeployProperties.DispatchAfterGates | src/cmds/deploy.js:166-207 | once every gate passes the request is sent, and the status decides the messages: 200 success with the id and the deploy log (exit code unset), 401 invalid key, 422 "Deployment failed" and the `printErrors` lines, any other status "Deployment failed", a thrown request "Deployment failed unexpectedly" (each with exit code 1) |
| DeployProperties.ParseFailuresShareOneMessage | src/cmds/deploy.js:88-93 | the first parse failure, and likewise the second one (lines 150-155) whenever the walk completed and `--force` or a clean walk let the text through, ends with the single message "Configuration could not be parsed" |
| DeployProperties.SensitiveCheckPrecedesSubstitution | src/cmds/deploy.js:110-121 | without `--force`, literal secrets stop the handler with every offending key and the `-f` hint, independent of environment, key and server |
| DeployProperties.UndefinedReferencesReportedTogether | src/cmds/deploy.js:137-146 | undefined references stop the handler with all of their names at once, before the key lookup and the request |
| DeployProperties.LiteralConfigSubmittedAsParsed | src/cmds/deploy.js:128-174 | a config without `$` that passes the check is sent exactly as first parsed |
| DeployExamples.SubstituteTwoReferences | src/cmds/deploy.js:128-135 | two references between `$`-free pieces are replaced in place, and the undefined names are collected in order |
| DeployExamples.SecretsSubstitutedVerbatim | test/cmds/deploy.test.js:64-81 | `$MY_SECRET` and `$API_KEY` become `pa$$w0rd` and `12345`; the `$$` of a value is not expanded again |
| DeployExamples.UndefinedNamesCollected | test/cmds/deploy.test.js:83-91 | both undefined names are collected, in order |
| DeployExamples.NestedInlineKeyVisited | test/cmds/deploy.test.js:93-104 | the nested inline key is reached under its own key through two objects and an array |
| DeployExamples.NestedInlineKeyRejected | test/cmds/deploy.test.js:93-145 | the nested `apiKey`/`apiSecret`/`secretKey` literal fails the deploy with its name and the `-f` hint |
| DeployExamples.ShadowingConfigRejected | src/traverse.js:7 | the configuration `{"hasOwnProperty": 1}` makes the handler reject with nothing logged or sent, `--force` or not |
| DeployExamples.InlineKeySubmittedWithForce | test/cmds/deploy.test.js:147-166 | with `--force` the inline key is sent unchanged |
| DeployExamples.UndefinedVariablesReported | test/cmds/deploy.test.js:83-91 | both undefined variables are reported in one error and nothing is sent |
| DeployExamples.SubstitutedConfigSent | test/cmds/deploy.test.js:64-81 | the substituted and re-parsed config is what is sent |
| DeployExamples.EmptyConfigDeployed | test/cmds/deploy.test.js:29-40 | `{}` with key `xxx` and a 200 gives one success line with the id, exit code unset |
| DeployExamples.GeneralValidationErrorDisplayed | test/cmds/deploy.test.js:42-62 | a 422 with one general error shows "Deployment failed" and `1) is required` between blank lines, exit code 1 |
| FormsAdd.EnsureForms | src/cmds/forms_cmds/add.js:16 | afterwards `forms` is truthy; a falsy or absent one becomes `{}`; nothing else changes |
| FormsAdd.AddForm | src/cmds/forms_cmds/add.js:14-26 | the handler on the config's properties: afterwards `forms` is truthy, every other top-level property is unchanged, what is written is the updated config, and only a string or array `forms` is outside the model |
| FormsAdd.Handler | src/cmds/forms_cmds/add.js:14-26 | the in-place update of the config object, the write and the message follow the add specification |
| FormsAdd.AddsIffAbsent | src/cmds/forms_cmds/add.js:19-25 | the config is written iff no truthy entry is under the key |
| FormsAdd.AddedFormIsFound | src/cmds/forms_cmds/add.js:21-24 | after a successful add, `forms[key]` is `{ name }`, the new config is written and "`key` added" is logged |
| FormsAdd.ExistingKeyRejected | src/cmds/forms_cmds/add.js:19-20 | an existing key is reported with "`key` already exists"; nothing changes or is written |
| FormsAdd.OthersPreserved | src/cmds/forms_cmds/add.js:15-23 | other top-level properties and other form entries are unchanged |
| FormsAdd.FormsCreatedWhenAbsent | src/cmds/forms_cmds/add.js:16 | without a usable `forms`, one is created holding only the new form |
| FormsAdd.AddTwiceRejected | src/cmds/forms_cmds/add.js:19-20 | adding the same key again is a rejected no-op, whatever the name |
| Secrets.HumanizeField | src/cmds/secrets_cmds/add.js:7-16 | `key` shows as `Name`, `value` as `Value`, every other field as itself |
| Secrets.HumanizeFieldCollisions | src/cmds/secrets_cmds/add.js:7-16 | the only ambiguity of the table: an API field literally named `Name` (or `Value`) prints the same as `key` (or `value`), and no other two fields share a label |
| Secrets.Endpoint | src/cmds/secrets_cmds/add.js:35 | the given endpoint when non-empty, otherwise `https://api.statickit.com` |
| Secrets.Classify | src/cmds/secrets_cmds/add.js:72-83 | one message per error, in order |
| Secrets.Respond | src/cmds/secrets_cmds/add.js:46-92 | the request and the `switch`/`catch` that follow it: the request is always recorded, the earlier lines are kept, and at most one line is added except by a 422 that carries its errors; the `Respond*` lemmas give each status |
| Secrets.RespondSendsRequest | src/cmds/secrets_cmds/add.js:44-59 | once the key is present the request is sent whatever the reply, after the lines already logged |
| Secrets.RespondExitCode | src/cmds/secrets_cmds/add.js:61-92 | the exit code is unset iff the status is 200 or an unhandled status below 500; otherwise it is 1 |
| Secrets.RespondRethrows | src/cmds/secrets_cmds/add.js:46-92 | the error is rethrown iff the request failed, the status is 500 or more, or a 422 lacks errors; then "Request failed unexpectedly" is logged with exit code 1 |
| Secrets.RespondValidationErrors | src/cmds/secrets_cmds/add.js:71-86 | a 422 logs one classified message per error, in order, with exit code 1 |
| Secrets.ClassifyUntilThrow | src/cmds/secrets_cmds/add.js:72-83 | a throwing callback stops the loop: the loop throws iff some error makes the callback throw; the logged messages are the classifications of the errors before it, in order, and when it throws, the error right after the logged ones is the first that makes the callback throw |
| SecretsAdd.ClassifyAddError | src/cmds/secrets_cmds/add.js:72-83 | first match wins: already taken, then malformed key, then humanized field and message |
| SecretsAdd.Add | src/cmds/secrets_cmds/add.js:33-93 | the handler: a request is sent iff a non-empty deploy key is given, and it carries that key; the lemmas below give the request and each reply |
| SecretsAdd.NoKeyNoRequest | src/cmds/secrets_cmds/add.js:38-42 | without a key, only the key-required message, exit code 1, no request |
| SecretsAdd.RequestSent | src/cmds/secrets_cmds/add.js:44-59 | POST to `<endpoint>/cli/v1/secrets` with name and value, the key and the user agent, after the progress line |
| SecretsAdd.DefaultEndpointRequest | test/cmds/secret_cmds/add.test.js:19-34 | the unit test's request goes to `https://api.statickit.com/cli/v1/secrets` and logs success |
| SecretsAdd.NotFoundFallsThrough | src/cmds/secrets_cmds/add.js:61-87 | a 404 matches no case: nothing more is logged and the exit code stays unset |
| SecretsAdd.ValidationErrorsClassified | src/cmds/secrets_cmds/add.js:71-86 | a 422 gives one message per error in order; "already taken" wins over a FORMAT error on `key` |
| SecretsAdd.ClassifyAddErrorAsWritten | src/cmds/secrets_cmds/add.js:77-79 | as written, the callback throws exactly on a taken or malformed key |
| SecretsAdd.ValidationAsWritten | src/cmds/secrets_cmds/add.js:71-92 | the 422 branch as written: it rethrows iff some error is a taken or malformed key, and it always records the request and sets exit code 1 |
| SecretsAdd.TakenNameCrashesAsWritten | src/cmds/secrets_cmds/add.js:71-92 | as written, a taken name gives "Request failed unexpectedly" and a rethrow; the intended handler reports the existing secret |
| SecretsAdd.AsWrittenAgreesWithoutKeyErrors | src/cmds/secrets_cmds/add.js:71-92 | without key errors, the code as written and the intended handler agree |
| SecretsUpdate.ClassifyUpdateError | src/cmds/secrets_cmds/update.js:76-82 | a malformed key gives the invalid-key message; everything else gives field and message; there is no "taken" case |
| SecretsUpdate.Update | src/cmds/secrets_cmds/update.js:33-92 | the handler: a request is sent iff a non-empty deploy key is given, and it carries that key; the lemmas below give the request and each reply |
| SecretsUpdate.NoKeyNoRequest | src/cmds/secrets_cmds/update.js:38-42 | without a key, only the key-required message, exit code 1, no request |
| SecretsUpdate.RequestSent | src/cmds/secrets_cmds/update.js:44-58 | PATCH to `<endpoint>/cli/v1/secrets/<name>` whose body holds only `value`, and is empty when no value is given |
| SecretsUpdate.DefaultEndpointRequest | test/secret_cmds/update.test.js:19-35 | the unit test's request goes to `https://api.statickit.com/cli/v1/secrets/my-secret` with value `hush` |
| SecretsUpdate.NotFoundReported | src/cmds/secrets_cmds/update.js:70-73 | a 404 logs "Secret not found" with exit code 1 |
| SecretsUpdate.ValidationErrorsClassified | src/cmds/secrets_cmds/update.js:75-85 | a 422 gives one message per error in order, with exit code 1 |
| SecretsUpdate.ClassifyUpdateErrorAsWritten | src/cmds/secrets_cmds/update.js:77-79 | as written, the callback throws exactly on a malformed key |
| SecretsUpdate.ValidationAsWritten | src/cmds/secrets_cmds/update.js:75-91 | the 422 branch as written: it rethrows iff some error is a malformed key, and it always records the request and sets exit code 1 |
| SecretsUpdate.MalformedNameCrashesAsWritten | src/cmds/secrets_cmds/update.js:75-91 | as written, a malformed name gives "Request failed unexpectedly" and a rethrow; the intended handler reports the invalid key |
| SecretsDelete.Remove | src/cmds/secrets_cmds/delete.js:33-87 | the handler: a request is sent iff a non-empty deploy key is given, and it carries that key; the lemmas below give the preamble, the request and each reply |
| SecretsDelete.PreambleFirst | src/cmds/secrets_cmds/delete.js:38-44 | every run starts with the preamble, with or without a key |
| SecretsDelete.NoKeyNoRequest | src/cmds/secrets_cmds/delete.js:38-44 | without a key: the preamble, the key-required message, exit code 1, no request |
| SecretsDelete.RequestSent | src/cmds/secrets_cmds/delete.js:46-57 | DELETE without a body to `<endpoint>/cli/v1/secrets/<name>`, after the preamble and the progress line |
| SecretsDelete.DefaultEndpointRequest | test/secret_cmds/delete.test.js:19-34 | the unit test's request goes to `https://api.statickit.com/cli/v1/secrets/my-secret` |
| SecretsDelete.NotFoundReported | src/cmds/secrets_cmds/delete.js:69-72 | a 404 logs "Secret not found" with exit code 1 |
| SecretsDelete.ValidationErrorsByField | src/cmds/secrets_cmds/delete.js:74-80 | a 422 shows every error, a malformed key included, as humanized field and message, in order, with exit code 1 |

## Findings

| source | as written | input that shows it | evidently intended | confidence | as-written member | corrected member |
|---|---|---|---|---|---|---|
| src/cmds/secrets_cmds/add.js:77-79 | calls `messages.secretAlreadyExists` and `messages.secretKeyInvalid`, which `src/messages.js` does not export, so the 422 callback throws a `TypeError` | a 422 whose errors hold `{ field: "key", message: "has already been taken" }` | report that the secret exists, or that the name is invalid | medium (the messages module may lag behind the commands); not executed | SecretsAdd.TakenNameCrashesAsWritten | SecretsAdd.ValidationErrorsClassified |
| src/cmds/secrets_cmds/update.js:77-79 | calls `messages.secretKeyInvalid`, which `src/messages.js` does not export | a 422 whose errors hold `{ code: "FORMAT", field: "key" }` | report that the name is invalid | medium (same cause); not executed | SecretsUpdate.MalformedNameCrashesAsWritten | SecretsUpdate.ValidationErrorsClassified |

The intended handlers, `SecretsAdd.Add` and `SecretsUpdate.Update`, treat the two helpers as message tags. `SecretsAdd.AsWrittenAgreesWithoutKeyErrors` shows that the two readings differ only on such errors.

## Left out

- Console rendering: colours (`chalk`), the check and cross prefixes, the `ora` spinner, and the text of `authRequired` and the preamble. Messages are tags carrying their plain text.
- `JSON.parse` is an input function. The model assumes it yields the members of an object in JavaScript's enumeration order. The rule that integer-like keys come first is not modelled.
- Numbers are exact reals. There is no IEEE double rounding.
- Strings are sequences of characters. UTF-16 surrogate pairs are not modelled, which matters only for the index keys of a root string.
- Property lookups on `Object.prototype` names (`constructor`, `toString`, …) are not modelled, neither in `process.env` nor in `forms`. In the source, `forms add constructor x` reports "already exists".
- `deploy.getRawConfig`, `deploy.getDeployKey`, `deploy.request`, `axios`, `utils.readConfig` and `utils.writeConfig` are I/O. The first four are inputs. The config object and the written value stand in for the file.
- A `response.data` that is absent altogether is not modelled. Only its `errors` may be absent.
- FormsAdd.AddForm: a truthy `forms` that is a string or an array gives `Unsupported` instead of JavaScript's property semantics on those values. A truthy number or `true` is modelled: the assignment is dropped, and the unchanged config is written and reported as added.
- FormsAdd.Handler: `forms` is an alias of `config.forms` in the source. The model writes the updated entries back into `config.members`, which has the same effect.
- A configuration file whose top-level value is not an object is not modelled.
- yargs argument coercion (a numeric `<value>` becoming a number) is not modelled. Arguments are strings.
- The `deploy` command's `--file` option only selects where `deploy.getRawConfig` reads. It is folded into that input.
