/**
 * The JavaScript values the CLI handles after `JSON.parse`: a tagged variant for
 * objects, arrays and scalars, with the two pieces of JavaScript object semantics
 * the core relies on — truthiness and own-property get/set on a plain object.
 *
 * An object is the ordered list of its own properties. The list is taken to be in
 * the order a `for...in` loop enumerates them, and to hold each key once (as
 * `JSON.parse` produces: a repeated key keeps one entry).
 */
module JsValues {
  import opened Wrappers

  datatype Json =
    | JNull
    | JBool(b: bool)
    | JNumber(n: real)
    | JString(s: string)
    | JArray(elems: seq<Json>)
    | JObject(members: seq<(string, Json)>)

  /** `typeof v === 'object' && v !== null`: an object or an array. */
  predicate IsStructured(v: Json) {
    v.JObject? || v.JArray?
  }

  /** JavaScript's ToBoolean; `undefined` (an absent property) is `None`. */
  predicate Truthy(v: Option<Json>) {
    match v
    case None => false
    case Some(JNull) => false
    case Some(JBool(b)) => b
    case Some(JNumber(n)) => n != 0.0
    case Some(JString(s)) => s != ""
    case Some(_) => true
  }

  /** The keys of an object, in enumeration order. */
  function Keys(members: seq<(string, Json)>): (ks: seq<string>)
    ensures |ks| == |members|
    ensures forall i :: 0 <= i < |members| ==> ks[i] == members[i].0
  {
    if members == [] then [] else [members[0].0] + Keys(members[1..])
  }

  /** `obj[key]` on a plain object: the value of the property named `key`, if any. */
  function Get(members: seq<(string, Json)>, key: string): (r: Option<Json>)
    ensures r.None? <==> key !in Keys(members)
  {
    if members == [] then None
    else if members[0].0 == key then Some(members[0].1)
    else Get(members[1..], key)
  }

  /**
   * `obj[key] = value` on a plain object: an existing property keeps its place and
   * takes the new value; a new property is appended.
   */
  function Put(members: seq<(string, Json)>, key: string, value: Json): (r: seq<(string, Json)>)
    ensures key in Keys(members) ==> Keys(r) == Keys(members)
    ensures key !in Keys(members) ==> Keys(r) == Keys(members) + [key]
  {
    if members == [] then [(key, value)]
    else if members[0].0 == key then [(key, value)] + members[1..]
    else [members[0]] + Put(members[1..], key, value)
  }

  /** After `obj[key] = value`, reading `obj[key]` gives `value`. */
  lemma {:induction false} GetPutSame(members: seq<(string, Json)>, key: string, value: Json)
    ensures Get(Put(members, key, value), key) == Some(value)
  {
    if members != [] && members[0].0 != key {
      GetPutSame(members[1..], key, value);
      assert Put(members, key, value)[1..] == Put(members[1..], key, value);
    }
  }

  /** `obj[key] = value` leaves every other property as it was. */
  lemma {:induction false} GetPutOther(members: seq<(string, Json)>, key: string, value: Json, other: string)
    requires other != key
    ensures Get(Put(members, key, value), other) == Get(members, other)
  {
    if members == [] {
    } else if members[0].0 == key {
      assert Put(members, key, value)[1..] == members[1..];
    } else if members[0].0 != other {
      GetPutOther(members[1..], key, value, other);
      assert Put(members, key, value)[1..] == Put(members[1..], key, value);
    }
  }
}
