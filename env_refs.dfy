/**
 * The two fixed patterns of the deploy command, written as scans over characters:
 *  - `/^\$([A-Za-z0-9_]+)$/`, a whole value that is one environment reference;
 *  - `/\$([A-Za-z0-9_]+)/gi` used by `String.prototype.replace`, which replaces every
 *    maximal `$NAME` token of the raw configuration text, left to right, in one pass.
 */
module EnvRefs {
  import opened Wrappers

  predicate IsWordChar(c: char) {
    'A' <= c <= 'Z' || 'a' <= c <= 'z' || '0' <= c <= '9' || c == '_'
  }

  /** The value matches `^\$[A-Za-z0-9_]+$`. */
  predicate IsEnvReference(s: string): (r: bool)
    ensures r <==> TokenAt(s, 0) && WordRunEnd(s, 1) == |s|
  {
    |s| >= 2 && s[0] == '$' && forall i :: 1 <= i < |s| ==> IsWordChar(s[i])
  }

  /** A match of `\$[A-Za-z0-9_]+` starts at position `i`. */
  predicate TokenAt(text: string, i: nat) {
    i + 1 < |text| && text[i] == '$' && IsWordChar(text[i + 1])
  }

  /** Where the greedy run of word characters starting at `i` ends. */
  function WordRunEnd(text: string, i: nat): (j: nat)
    requires i <= |text|
    ensures i <= j <= |text|
    ensures forall k :: i <= k < j ==> IsWordChar(text[k])
    ensures j == |text| || !IsWordChar(text[j])
    decreases |text| - i
  {
    if i < |text| && IsWordChar(text[i]) then WordRunEnd(text, i + 1) else i
  }

  /** `env[name]` is truthy: bound, and not to the empty string. */
  predicate Defined(env: map<string, string>, name: string) {
    name in env && env[name] != ""
  }

  /** The replaced text and the undefined names pushed by the callback, in order. */
  datatype Substitution = Substitution(text: string, undefinedNames: seq<string>)

  /**
   * `text.replace(/\$([A-Za-z0-9_]+)/gi, callback)`: each token becomes the
   * environment value verbatim; an undefined name is recorded and, because the
   * callback then returns `undefined`, the token becomes the text "undefined".
   * The scan resumes after each token, so substituted values are never re-scanned.
   */
  function Substitute(text: string, env: map<string, string>): (r: Substitution)
    ensures forall n :: n in r.undefinedNames ==> n != [] && !Defined(env, n)
    decreases |text|
  {
    if text == [] then Substitution([], [])
    else if TokenAt(text, 0) then
      var j := WordRunEnd(text, 1);
      var name := text[1..j];
      var rest := Substitute(text[j..], env);
      if Defined(env, name) then Substitution(env[name] + rest.text, rest.undefinedNames)
      else Substitution("undefined" + rest.text, [name] + rest.undefinedNames)
    else
      var rest := Substitute(text[1..], env);
      Substitution([text[0]] + rest.text, rest.undefinedNames)
  }

  /** The names of all tokens of `text`, in order of occurrence. */
  function Tokens(text: string): (names: seq<string>)
    ensures forall k :: 0 <= k < |names| ==> names[k] != [] && forall c :: c in names[k] ==> IsWordChar(c)
    decreases |text|
  {
    if text == [] then []
    else if TokenAt(text, 0) then
      var j := WordRunEnd(text, 1);
      [text[1..j]] + Tokens(text[j..])
    else Tokens(text[1..])
  }

  /** The names in `names` that `env` leaves undefined, in order. */
  function UndefinedAmong(names: seq<string>, env: map<string, string>): (r: seq<string>)
    ensures forall n :: n in r <==> n in names && !Defined(env, n)
  {
    if names == [] then []
    else (if Defined(env, names[0]) then [] else [names[0]]) + UndefinedAmong(names[1..], env)
  }

  /**
   * Every token is looked up, and the undefined ones are all collected, in order,
   * over the whole text: none is dropped after the first failure.
   */
  lemma {:induction false} UndefinedNamesAreUndefinedTokens(text: string, env: map<string, string>)
    ensures Substitute(text, env).undefinedNames == UndefinedAmong(Tokens(text), env)
    decreases |text|
  {
    if text == [] {
    } else if TokenAt(text, 0) {
      var j := WordRunEnd(text, 1);
      UndefinedNamesAreUndefinedTokens(text[j..], env);
      assert ([text[1..j]] + Tokens(text[j..]))[1..] == Tokens(text[j..]);
    } else {
      UndefinedNamesAreUndefinedTokens(text[1..], env);
    }
  }

  /** Text without any token is returned unchanged, and nothing is undefined. */
  lemma {:induction false} SubstituteWithoutTokens(text: string, env: map<string, string>)
    requires Tokens(text) == []
    ensures Substitute(text, env) == Substitution(text, [])
    decreases |text|
  {
    if text != [] {
      assert !TokenAt(text, 0);
      SubstituteWithoutTokens(text[1..], env);
      assert [text[0]] + text[1..] == text;
    }
  }

  /** Text without a `$` has no token. */
  lemma {:induction false} NoDollarNoTokens(text: string)
    requires '$' !in text
    ensures Tokens(text) == []
    decreases |text|
  {
    if text != [] {
      assert text[0] != '$';
      NoDollarNoTokens(text[1..]);
    }
  }

  /** A `$`-free prefix is copied as it is, and the scan goes on after it. */
  lemma {:induction false} SubstituteDollarFreePrefix(prefix: string, rest: string, env: map<string, string>)
    requires '$' !in prefix
    ensures Substitute(prefix + rest, env)
         == Substitution(prefix + Substitute(rest, env).text, Substitute(rest, env).undefinedNames)
    decreases |prefix|
  {
    if prefix == [] {
      assert prefix + rest == rest;
    } else {
      assert prefix[0] != '$';
      assert (prefix + rest)[1..] == prefix[1..] + rest;
      SubstituteDollarFreePrefix(prefix[1..], rest, env);
      assert [prefix[0]] + (prefix[1..] + Substitute(rest, env).text) == prefix + Substitute(rest, env).text;
    }
  }

  lemma SubstituteUnfoldToken(text: string, env: map<string, string>)
    requires TokenAt(text, 0)
    ensures var j := WordRunEnd(text, 1);
            var name := text[1..j];
            var r := Substitute(text[j..], env);
            Substitute(text, env)
              == if Defined(env, name) then Substitution(env[name] + r.text, r.undefinedNames)
                 else Substitution("undefined" + r.text, [name] + r.undefinedNames)
  {
  }

  lemma SubstituteUnfoldChar(text: string, env: map<string, string>)
    requires text != [] && !TokenAt(text, 0)
    ensures var r := Substitute(text[1..], env);
            Substitute(text, env) == Substitution([text[0]] + r.text, r.undefinedNames)
  {
  }

  /**
   * A maximal token `$name` is replaced by the value of `name` verbatim (a `$` in
   * that value is not expanded again), or by "undefined" with `name` recorded; the
   * scan then resumes right after the token.
   */
  lemma SubstituteToken(name: string, rest: string, env: map<string, string>)
    requires name != [] && forall c :: c in name ==> IsWordChar(c)
    requires rest == [] || !IsWordChar(rest[0])
    ensures var r := Substitute(rest, env);
            Substitute("$" + name + rest, env)
              == if Defined(env, name) then Substitution(env[name] + r.text, r.undefinedNames)
                 else Substitution("undefined" + r.text, [name] + r.undefinedNames)
  {
    var text := "$" + name + rest;
    assert TokenAt(text, 0) by { assert text[1] == name[0]; }
    var j := WordRunEnd(text, 1);
    assert j == 1 + |name| by {
      forall k | 1 <= k < 1 + |name| ensures IsWordChar(text[k]) {
        assert text[k] == name[k - 1];
      }
      WordRunEndAt(text, 1, 1 + |name|);
    }
    assert text[1..j] == name;
    assert text[j..] == rest;
  }

  lemma {:induction false} WordRunEndAt(text: string, i: nat, j: nat)
    requires i <= j <= |text|
    requires forall k :: i <= k < j ==> IsWordChar(text[k])
    requires j == |text| || !IsWordChar(text[j])
    ensures WordRunEnd(text, i) == j
    decreases j - i
  {
    if i < j {
      WordRunEndAt(text, i + 1, j);
    }
  }

  /**
   * Binding every referenced name to its own reference `$name` gives back the text:
   * each token is replaced exactly once, by its value, in place.
   */
  lemma {:induction false} SelfReferencesRoundTrip(text: string, env: map<string, string>)
    requires forall n :: n in Tokens(text) ==> n in env && env[n] == "$" + n
    ensures Substitute(text, env) == Substitution(text, [])
    decreases |text|
  {
    if text == [] {
    } else if TokenAt(text, 0) {
      var j := WordRunEnd(text, 1);
      assert Tokens(text) == [text[1..j]] + Tokens(text[j..]);
      SelfReferencesRoundTrip(text[j..], env);
      SelfReferenceReplaced(text, env);
    } else {
      assert Tokens(text) == Tokens(text[1..]);
      SelfReferencesRoundTrip(text[1..], env);
      SubstituteUnfoldChar(text, env);
      HeadTail(text);
    }
  }

  /** A leading token bound to its own reference is put back as it was. */
  lemma SelfReferenceReplaced(text: string, env: map<string, string>)
    requires TokenAt(text, 0)
    requires var name := text[1..WordRunEnd(text, 1)]; name in env && env[name] == "$" + name
    requires Substitute(text[WordRunEnd(text, 1)..], env) == Substitution(text[WordRunEnd(text, 1)..], [])
    ensures Substitute(text, env) == Substitution(text, [])
  {
    var j := WordRunEnd(text, 1);
    var name := text[1..j];
    SubstituteUnfoldToken(text, env);
    assert Defined(env, name);
    TokenSplit(text, j);
  }

  lemma HeadTail(text: string)
    requires text != []
    ensures [text[0]] + text[1..] == text
  {
  }

  lemma ConcatAssoc<T>(a: seq<T>, b: seq<T>, c: seq<T>)
    ensures a + (b + c) == a + b + c
  {
  }

  /** A slice of a suffix is a slice of the whole. */
  lemma SuffixSlice(text: string, i: nat, a: nat, b: nat)
    requires a <= b && i + b <= |text|
    ensures text[i..][a..b] == text[i + a..i + b]
    ensures text[i..][b..] == text[i + b..]
  {
  }

  /** A text that starts with `$` is that `$`, the characters up to `j`, and the rest. */
  lemma TokenSplit(text: string, j: nat)
    requires 1 <= j <= |text| && text[0] == '$'
    ensures text == "$" + text[1..j] + text[j..]
  {
    assert text[..1] == "$";
    assert text == text[..1] + text[1..j] + text[j..];
  }

  /** The scan of `text` has produced `done` from `text[..i]`; the rest comes from `text[i..]`. */
  predicate ScannedUpTo(text: string, env: map<string, string>, i: nat, done: Substitution)
    requires i <= |text|
  {
    var r := Substitute(text[i..], env);
    Substitute(text, env) == Substitution(done.text + r.text, done.undefinedNames + r.undefinedNames)
  }

  /** One step of the scan at position `i` of `text`, where a token `text[i..j]` starts. */
  lemma SubstituteTokenStep(text: string, env: map<string, string>, i: nat, j: nat, done: Substitution)
    requires i + 1 < j <= |text| && text[i] == '$'
    requires forall k :: i + 1 <= k < j ==> IsWordChar(text[k])
    requires j == |text| || !IsWordChar(text[j])
    requires ScannedUpTo(text, env, i, done)
    ensures var name := text[i + 1..j];
            ScannedUpTo(text, env, j,
              if Defined(env, name) then Substitution(done.text + env[name], done.undefinedNames)
              else Substitution(done.text + "undefined", done.undefinedNames + [name]))
  {
    var rest := text[i..];
    var name := text[i + 1..j];
    var r := Substitute(text[j..], env);
    var scanned := Substitute(rest, env);
    assert Substitute(text, env)
        == Substitution(done.text + scanned.text, done.undefinedNames + scanned.undefinedNames);
    SuffixSlice(text, i, 1, j - i);
    WordRunEndAt(rest, 1, j - i);
    SubstituteUnfoldToken(rest, env);
    assert scanned == if Defined(env, name) then Substitution(env[name] + r.text, r.undefinedNames)
                      else Substitution("undefined" + r.text, [name] + r.undefinedNames);
    if Defined(env, name) {
      ConcatAssoc(done.text, env[name], r.text);
    } else {
      ConcatAssoc(done.text, "undefined", r.text);
      ConcatAssoc(done.undefinedNames, [name], r.undefinedNames);
    }
  }

  /** One step of the scan at position `i` of `text`, where no token starts. */
  lemma SubstituteCharStep(text: string, env: map<string, string>, i: nat, done: Substitution)
    requires i < |text| && !TokenAt(text[i..], 0)
    requires ScannedUpTo(text, env, i, done)
    ensures ScannedUpTo(text, env, i + 1, Substitution(done.text + [text[i]], done.undefinedNames))
  {
    assert text[i..][1..] == text[i + 1..];
    SubstituteUnfoldChar(text[i..], env);
    var r := Substitute(text[i + 1..], env);
    assert done.text + ([text[i]] + r.text) == (done.text + [text[i]]) + r.text;
  }

  /**
   * `rawConfig.replace(...)` with the pushes of its callback, as a left-to-right scan.
   */
  method ReplaceEnvRefs(rawConfig: string, env: map<string, string>)
    returns (replaced: string, undefinedEnvRefs: seq<string>)
    ensures Substitution(replaced, undefinedEnvRefs) == Substitute(rawConfig, env)
  {
    replaced, undefinedEnvRefs := [], [];
    var i := 0;
    assert rawConfig[0..] == rawConfig;
    while i < |rawConfig|
      invariant 0 <= i <= |rawConfig|
      invariant ScannedUpTo(rawConfig, env, i, Substitution(replaced, undefinedEnvRefs))
      decreases |rawConfig| - i
    {
      if i + 1 < |rawConfig| && rawConfig[i] == '$' && IsWordChar(rawConfig[i + 1]) {
        var j := i + 1;
        while j < |rawConfig| && IsWordChar(rawConfig[j])
          invariant i + 1 <= j <= |rawConfig|
          invariant forall k :: i + 1 <= k < j ==> IsWordChar(rawConfig[k])
          decreases |rawConfig| - j
        {
          j := j + 1;
        }
        SubstituteTokenStep(rawConfig, env, i, j, Substitution(replaced, undefinedEnvRefs));
        var variableName := rawConfig[i + 1..j];
        if variableName in env && env[variableName] != "" {
          replaced := replaced + env[variableName];
        } else {
          undefinedEnvRefs := undefinedEnvRefs + [variableName];
          replaced := replaced + "undefined";
        }
        i := j;
      } else {
        SubstituteCharStep(rawConfig, env, i, Substitution(replaced, undefinedEnvRefs));
        replaced := replaced + [rawConfig[i]];
        i := i + 1;
      }
    }
    assert rawConfig[i..] == [];
  }
}
