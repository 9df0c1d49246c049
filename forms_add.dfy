/**
 * `forms add <key> <name>`: insert `{ name }` under `forms[key]` of the local
 * configuration object unless a truthy entry is already there.
 *
 * The configuration is a mutable object (the value `utils.readConfig` returns);
 * the handler updates it in place and hands it to `utils.writeConfig`. The write
 * is returned as the JSON value that would be serialized.
 */
module FormsAdd {
  import opened Wrappers
  import opened JsValues
  import opened Messages

  /** The entry a new form gets: `{ name: args.name }`. */
  function FormEntry(name: string): Json {
    JObject([("name", JString(name))])
  }

  /** `chalk.cyan(`\`${key}\``)` without the colour codes. */
  function ColoredKey(key: string): string {
    "`" + key + "`"
  }

  /** Everything one call of the handler does. */
  datatype FormsAddRun =
    | Ran(members: seq<(string, Json)>, written: Option<Json>, message: Message)
      // `forms` is a non-empty string or an array: property access on it is not modelled
    | Unsupported

  /** `config.forms || (config.forms = {})`: the configuration once `forms` is guaranteed to be truthy. */
  function EnsureForms(members: seq<(string, Json)>): (r: seq<(string, Json)>)
    ensures Truthy(Get(r, "forms"))
    ensures Truthy(Get(members, "forms")) ==> r == members
    ensures !Truthy(Get(members, "forms")) ==> Get(r, "forms") == Some(JObject([]))
    ensures forall k :: k != "forms" ==> Get(r, k) == Get(members, k)
  {
    if Truthy(Get(members, "forms")) then members
    else
      var r := Put(members, "forms", JObject([]));
      GetPutSame(members, "forms", JObject([]));
      forall k | k != "forms" ensures Get(r, k) == Get(members, k) {
        GetPutOther(members, "forms", JObject([]), k);
      }
      r
  }

  /** The handler on the configuration's members. */
  function AddForm(members: seq<(string, Json)>, key: string, name: string): (r: FormsAddRun)
    ensures r.Ran? ==> Truthy(Get(r.members, "forms"))
    ensures r.Ran? ==> forall k :: k != "forms" ==> Get(r.members, k) == Get(members, k)
    ensures r.Ran? && r.written.Some? ==> r.written == Some(JObject(r.members))
    ensures r.Unsupported? <==> Get(EnsureForms(members), "forms").value.JString? || Get(EnsureForms(members), "forms").value.JArray?
  {
    var base := EnsureForms(members);
    match Get(base, "forms").value
    case JObject(forms) =>
      if Truthy(Get(forms, key)) then
        Ran(base, None, LogError(ColoredKey(key) + " already exists"))
      else
        var updated := Put(base, "forms", JObject(Put(forms, key, FormEntry(name))));
        GetPutSame(base, "forms", JObject(Put(forms, key, FormEntry(name))));
        forall k | k != "forms" ensures Get(updated, k) == Get(base, k) {
          GetPutOther(base, "forms", JObject(Put(forms, key, FormEntry(name))), k);
        }
        Ran(updated, Some(JObject(updated)), LogSuccess(ColoredKey(key) + " added"))
    case JString(_) => Unsupported
    case JArray(_) => Unsupported
    // A truthy number or `true`: `forms[key]` is undefined and the assignment to a
    // primitive is dropped, so the unchanged configuration is written and reported as added.
    case _ => Ran(base, Some(JObject(base)), LogSuccess(ColoredKey(key) + " added"))
  }

  /** The object `utils.readConfig` returned. */
  class ConfigObject {
    var members: seq<(string, Json)>

    constructor(members: seq<(string, Json)>)
      ensures this.members == members
    {
      this.members := members;
    }

    /** Reading `config.forms`. */
    function Forms(): Option<Json>
      reads this
    {
      Get(members, "forms")
    }
  }

  /**
   * `handler(args)`: `config` is updated in place; `written` is what is passed to
   * `utils.writeConfig`, if anything; `message` is what is logged.
   */
  method Handler(config: ConfigObject, key: string, name: string)
    returns (supported: bool, written: Option<Json>, message: Option<Message>)
    modifies config
    ensures var run := AddForm(old(config.members), key, name);
            if run.Ran? then supported && config.members == run.members && written == run.written
                             && message == Some(run.message)
            else !supported && config.members == old(config.members) && written == None && message == None
  {
    if !Truthy(config.Forms()) {
      config.members := Put(config.members, "forms", JObject([]));
    }
    assert config.members == EnsureForms(old(config.members));
    var forms := config.Forms().value;
    if forms.JObject? {
      if Truthy(Get(forms.members, key)) {
        return true, None, Some(LogError(ColoredKey(key) + " already exists"));
      }
      // `forms` aliases `config.forms`: the insert is visible through `config`.
      config.members := Put(config.members, "forms", JObject(Put(forms.members, key, FormEntry(name))));
      return true, Some(JObject(config.members)), Some(LogSuccess(ColoredKey(key) + " added"));
    } else if forms.JString? || forms.JArray? {
      return false, None, None;
    } else {
      return true, Some(JObject(config.members)), Some(LogSuccess(ColoredKey(key) + " added"));
    }
  }

  /** The forms map of a configuration whose `forms` is an object or falsy. */
  predicate FormsIsObjectOrFalsy(members: seq<(string, Json)>) {
    !Truthy(Get(members, "forms")) || Get(members, "forms").value.JObject?
  }

  /** The form entries after `config.forms || (config.forms = {})`. */
  function FormEntries(members: seq<(string, Json)>): seq<(string, Json)>
    requires FormsIsObjectOrFalsy(members)
  {
    Get(EnsureForms(members), "forms").value.members
  }

  /** The configuration with the new form inserted into its form entries. */
  function WithForm(members: seq<(string, Json)>, key: string, name: string): seq<(string, Json)>
    requires FormsIsObjectOrFalsy(members)
  {
    Put(EnsureForms(members), "forms", JObject(Put(FormEntries(members), key, FormEntry(name))))
  }

  lemma AddFormInserts(members: seq<(string, Json)>, key: string, name: string)
    requires FormsIsObjectOrFalsy(members) && !Truthy(Get(FormEntries(members), key))
    ensures AddForm(members, key, name)
         == Ran(WithForm(members, key, name), Some(JObject(WithForm(members, key, name))),
                LogSuccess(ColoredKey(key) + " added"))
  {
  }

  /** The new form is written exactly when no truthy entry is under its key. */
  lemma AddsIffAbsent(members: seq<(string, Json)>, key: string, name: string)
    requires FormsIsObjectOrFalsy(members)
    ensures AddForm(members, key, name).Ran?
    ensures AddForm(members, key, name).written.Some? <==> !Truthy(Get(FormEntries(members), key))
  {
  }

  /** After a successful add, `forms[key]` is `{ name }` and the written value is the new configuration. */
  lemma AddedFormIsFound(members: seq<(string, Json)>, key: string, name: string)
    requires FormsIsObjectOrFalsy(members) && !Truthy(Get(FormEntries(members), key))
    ensures var run := AddForm(members, key, name);
            && run.Ran? && run.written == Some(JObject(run.members))
            && run.message == LogSuccess("`" + key + "` added")
            && Get(run.members, "forms").Some? && Get(run.members, "forms").value.JObject?
            && Get(Get(run.members, "forms").value.members, key) == Some(FormEntry(name))
  {
    AddFormInserts(members, key, name);
    var forms := FormEntries(members);
    GetPutSame(EnsureForms(members), "forms", JObject(Put(forms, key, FormEntry(name))));
    GetPutSame(forms, key, FormEntry(name));
    assert ColoredKey(key) + " added" == "`" + key + "` added";
  }

  /** A truthy form entry can only sit in a `forms` that was already truthy. */
  lemma ExistingEntryMeansFormsTruthy(members: seq<(string, Json)>, key: string)
    requires FormsIsObjectOrFalsy(members) && Truthy(Get(FormEntries(members), key))
    ensures Truthy(Get(members, "forms")) && EnsureForms(members) == members
  {
  }

  /** A key that already holds a truthy entry is reported and nothing changes or is written. */
  lemma ExistingKeyRejected(members: seq<(string, Json)>, key: string, name: string)
    requires FormsIsObjectOrFalsy(members) && Truthy(Get(FormEntries(members), key))
    ensures AddForm(members, key, name) == Ran(members, None, LogError("`" + key + "` already exists"))
  {
    ExistingEntryMeansFormsTruthy(members, key);
    assert AddForm(members, key, name) == Ran(members, None, LogError(ColoredKey(key) + " already exists"));
    assert ColoredKey(key) + " already exists" == "`" + key + "` already exists";
  }

  /** A successful add changes no other top-level property and no other form entry. */
  lemma OthersPreserved(members: seq<(string, Json)>, key: string, name: string)
    requires FormsIsObjectOrFalsy(members) && !Truthy(Get(FormEntries(members), key))
    ensures var after := AddForm(members, key, name).members;
            && Get(after, "forms").Some? && Get(after, "forms").value.JObject?
            && (forall k :: k != "forms" ==> Get(after, k) == Get(members, k))
            && (forall k :: k != key ==> Get(Get(after, "forms").value.members, k) == Get(FormEntries(members), k))
  {
    AddFormInserts(members, key, name);
    var base := EnsureForms(members);
    var forms := FormEntries(members);
    var after := WithForm(members, key, name);
    GetPutSame(base, "forms", JObject(Put(forms, key, FormEntry(name))));
    forall k | k != "forms" ensures Get(after, k) == Get(members, k) {
      GetPutOther(base, "forms", JObject(Put(forms, key, FormEntry(name))), k);
    }
    forall k | k != key ensures Get(Put(forms, key, FormEntry(name)), k) == Get(forms, k) {
      GetPutOther(forms, key, FormEntry(name), k);
    }
  }

  /** Without a usable `forms`, one is created holding only the new form. */
  lemma FormsCreatedWhenAbsent(members: seq<(string, Json)>, key: string, name: string)
    requires !Truthy(Get(members, "forms"))
    ensures var run := AddForm(members, key, name);
            && run.Ran? && Get(run.members, "forms") == Some(JObject([(key, FormEntry(name))]))
  {
    var base := EnsureForms(members);
    GetPutSame(base, "forms", JObject([(key, FormEntry(name))]));
  }

  /** Adding the same key again is a rejected no-op, whatever the second name. */
  lemma AddTwiceRejected(members: seq<(string, Json)>, key: string, name: string, otherName: string)
    requires FormsIsObjectOrFalsy(members) && !Truthy(Get(FormEntries(members), key))
    ensures var once := AddForm(members, key, name).members;
            AddForm(once, key, otherName) == Ran(once, None, LogError("`" + key + "` already exists"))
  {
    AddedFormIsFound(members, key, name);
    var once := AddForm(members, key, name).members;
    assert FormsIsObjectOrFalsy(once);
    assert Truthy(Get(FormEntries(once), key));
    ExistingKeyRejected(once, key, otherName);
  }
}
