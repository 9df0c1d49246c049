/**
 * The generic walker `traverse(obj, fn)`: a depth-first `for...in` over the own
 * properties of `obj` that calls `fn(key, value)` on every property whose value is
 * neither an array nor a non-null object. The callback is replaced by the returned
 * sequence of its calls.
 *
 * How arrays are handled depends on where they sit:
 *  - an array stored under a key is walked with `forEach`, descending only into
 *    elements that are objects or arrays; its scalar elements and its own key are
 *    never visited;
 *  - an array that `traverse` is applied to directly (the root, or a structured
 *    element of an array that `forEach` walks) is enumerated by `for...in`, so its
 *    scalar elements are visited under their index keys "0", "1", ...; an element of
 *    it that is itself an array is a property value again, walked by `forEach`, so
 *    the depth at which scalars are visited alternates
 * A root string is enumerated the same way, one character per index key; any other
 * root scalar has no enumerable properties.
 */
module TreeTraversal {
  import opened JsValues
  import Decimal

  /** One call `fn(key, value)` of the visitor. */
  datatype Visit = Visit(key: string, value: Json)

  /** `isArray(o)`. */
  predicate IsArray(v: Json) {
    v.JArray?
  }

  predicate IsLeaf(v: Json) {
    !IsArray(v) && !IsStructured(v)
  }

  predicate AllLeaves(visits: seq<Visit>) {
    forall i :: 0 <= i < |visits| ==> IsLeaf(visits[i].value)
  }

  /** The property key `for...in` yields for position `i` of an array or string. */
  function IndexKey(i: nat): string {
    Decimal.NatToString(i)
  }

  /**
   * `traverse(obj, fn)`: the calls of `fn`, in order, for a walk that does not
   * throw (`HasOwnPropertyShadowed` says when `hasOwnProperty` throws).
   */
  function Traverse(obj: Json): (r: seq<Visit>)
    ensures AllLeaves(r)
    decreases obj, 0
  {
    match obj
    case JObject(members) => TraverseMembers(members)
    case JArray(elems) => TraverseIndexed(elems, 0)
    case JString(s) => TraverseChars(s, 0)
    case _ => []
  }

  /** The loop body for one own property `key` holding `value`. */
  function VisitProperty(key: string, value: Json): (r: seq<Visit>)
    ensures AllLeaves(r)
    decreases value, 1
  {
    if IsArray(value) then DescendElements(value.elems)
    else if IsStructured(value) then Traverse(value)
    else [Visit(key, value)]
  }

  /** `value.forEach(...)` over an array held by a key: only objects and arrays are entered. */
  function DescendElements(elems: seq<Json>): (r: seq<Visit>)
    ensures AllLeaves(r)
    decreases elems, 2
  {
    if elems == [] then []
    else (if IsStructured(elems[0]) then Traverse(elems[0]) else []) + DescendElements(elems[1..])
  }

  /** `for...in` over the properties of a plain object. */
  function TraverseMembers(members: seq<(string, Json)>): (r: seq<Visit>)
    ensures AllLeaves(r)
    decreases members, 2
  {
    if members == [] then []
    else
      assert members[0].1 < members[0];
      VisitProperty(members[0].0, members[0].1) + TraverseMembers(members[1..])
  }

  /** `for...in` over an array: properties "offset", "offset+1", ... */
  function TraverseIndexed(elems: seq<Json>, offset: nat): (r: seq<Visit>)
    ensures AllLeaves(r)
    decreases elems, 2
  {
    if elems == [] then []
    else VisitProperty(IndexKey(offset), elems[0]) + TraverseIndexed(elems[1..], offset + 1)
  }

  /** `for...in` over a string primitive: one-character strings under index keys. */
  function TraverseChars(s: string, offset: nat): (r: seq<Visit>)
    ensures AllLeaves(r)
    decreases s
  {
    if s == [] then []
    else [Visit(IndexKey(offset), JString([s[0]]))] + TraverseChars(s[1..], offset + 1)
  }

  /** The visits of the properties of `a + b` are those of `a` followed by those of `b`. */
  lemma {:induction false} TraverseMembersAppend(a: seq<(string, Json)>, b: seq<(string, Json)>)
    ensures TraverseMembers(a + b) == TraverseMembers(a) + TraverseMembers(b)
  {
    if a == [] {
      assert a + b == b;
    } else {
      assert (a + b)[1..] == a[1..] + b;
      TraverseMembersAppend(a[1..], b);
    }
  }

  /** Depth-first in key order: an object's visits are its properties' visits, one property after another. */
  lemma ObjectVisitsInKeyOrder(a: seq<(string, Json)>, key: string, value: Json, b: seq<(string, Json)>)
    ensures Traverse(JObject(a + [(key, value)] + b))
         == Traverse(JObject(a)) + VisitProperty(key, value) + Traverse(JObject(b))
  {
    TraverseMembersAppend(a + [(key, value)], b);
    TraverseMembersAppend(a, [(key, value)]);
    assert [(key, value)][1..] == [];
  }

  /**
   * An object whose properties all hold scalars (null included) is visited once per
   * property, in order, with the property's own key and value.
   */
  lemma {:induction false} FlatObjectVisitsEveryProperty(members: seq<(string, Json)>)
    requires forall i :: 0 <= i < |members| ==> IsLeaf(members[i].1)
    ensures |Traverse(JObject(members))| == |members|
    ensures forall i :: 0 <= i < |members| ==>
              Traverse(JObject(members))[i] == Visit(members[i].0, members[i].1)
  {
    if members != [] {
      FlatObjectVisitsEveryProperty(members[1..]);
      var r := Traverse(JObject(members));
      var rest := TraverseMembers(members[1..]);
      assert r == TraverseMembers(members);
      assert VisitProperty(members[0].0, members[0].1) == [Visit(members[0].0, members[0].1)];
      assert r == [Visit(members[0].0, members[0].1)] + rest;
      forall i | 0 < i < |members|
        ensures r[i] == Visit(members[i].0, members[i].1)
      {
        assert r[i] == rest[i - 1];
      }
    }
  }

  /** A key holding `null` is passed to the visitor. */
  lemma NullPropertyVisited(key: string)
    ensures Traverse(JObject([(key, JNull)])) == [Visit(key, JNull)]
  {
    FlatObjectVisitsEveryProperty([(key, JNull)]);
  }

  lemma {:induction false} DescendElementsSkipsScalars(elems: seq<Json>)
    requires forall i :: 0 <= i < |elems| ==> IsLeaf(elems[i])
    ensures DescendElements(elems) == []
  {
    if elems != [] {
      DescendElementsSkipsScalars(elems[1..]);
    }
  }

  /**
   * The scalar elements of an array held by a key are skipped, and so is the key
   * itself: such a property produces no visit at all.
   */
  lemma ScalarsOfKeyedArrayNotVisited(key: string, elems: seq<Json>)
    requires forall i :: 0 <= i < |elems| ==> IsLeaf(elems[i])
    ensures Traverse(JObject([(key, JArray(elems))])) == []
  {
    DescendElementsSkipsScalars(elems);
    assert [(key, JArray(elems))][1..] == [];
    assert VisitProperty(key, JArray(elems)) == DescendElements(elems);
    assert TraverseMembers([(key, JArray(elems))]) == VisitProperty(key, JArray(elems)) + TraverseMembers([]);
  }

  /** The elements of an array held by a key that are objects or arrays are walked, in order. */
  lemma {:induction false} DescendElementsAppend(a: seq<Json>, b: seq<Json>)
    ensures DescendElements(a + b) == DescendElements(a) + DescendElements(b)
  {
    if a == [] {
      assert a + b == b;
    } else {
      assert (a + b)[1..] == a[1..] + b;
      DescendElementsAppend(a[1..], b);
    }
  }

  lemma {:induction false} TraverseIndexedScalars(elems: seq<Json>, offset: nat)
    requires forall i :: 0 <= i < |elems| ==> IsLeaf(elems[i])
    ensures |TraverseIndexed(elems, offset)| == |elems|
    ensures forall i :: 0 <= i < |elems| ==>
              TraverseIndexed(elems, offset)[i] == Visit(IndexKey(offset + i), elems[i])
  {
    if elems != [] {
      TraverseIndexedScalars(elems[1..], offset + 1);
      var r := TraverseIndexed(elems, offset);
      assert VisitProperty(IndexKey(offset), elems[0]) == [Visit(IndexKey(offset), elems[0])];
      assert r == [Visit(IndexKey(offset), elems[0])] + TraverseIndexed(elems[1..], offset + 1);
      forall i | 0 <= i < |elems|
        ensures r[i] == Visit(IndexKey(offset + i), elems[i])
      {
        if i > 0 {
          assert r[i] == TraverseIndexed(elems[1..], offset + 1)[i - 1];
        }
      }
    }
  }

  /** The scalars of a root array are visited under the index keys "0", "1", ... */
  lemma RootArrayVisitsScalarsByIndex(elems: seq<Json>)
    requires forall i :: 0 <= i < |elems| ==> IsLeaf(elems[i])
    ensures |Traverse(JArray(elems))| == |elems|
    ensures forall i :: 0 <= i < |elems| ==> Traverse(JArray(elems))[i] == Visit(IndexKey(i), elems[i])
  {
    TraverseIndexedScalars(elems, 0);
  }

  /**
   * An array that is itself an element of an array held by `key` is walked like a
   * root array: its scalars are visited under index keys, never under `key`.
   */
  lemma ArrayInKeyedArrayVisitsScalarsByIndex(key: string, elems: seq<Json>)
    requires forall i :: 0 <= i < |elems| ==> IsLeaf(elems[i])
    ensures Traverse(JObject([(key, JArray([JArray(elems)]))])) == Traverse(JArray(elems))
    ensures |Traverse(JObject([(key, JArray([JArray(elems)]))]))| == |elems|
    ensures forall i :: 0 <= i < |elems| ==> Traverse(JObject([(key, JArray([JArray(elems)]))]))[i] == Visit(IndexKey(i), elems[i])
  {
    RootArrayVisitsScalarsByIndex(elems);
    assert [JArray(elems)][1..] == [];
    assert DescendElements([JArray(elems)]) == Traverse(JArray(elems)) + DescendElements([]);
    assert [(key, JArray([JArray(elems)]))][1..] == [];
    assert VisitProperty(key, JArray([JArray(elems)])) == DescendElements([JArray(elems)]);
    assert TraverseMembers([(key, JArray([JArray(elems)]))])
        == VisitProperty(key, JArray([JArray(elems)])) + TraverseMembers([]);
  }

  /**
   * An array that is an element of a root array is a property value (under key "0"):
   * it is walked by `forEach`, so its scalars are not visited.
   */
  lemma ArrayInRootArrayScalarsNotVisited(elems: seq<Json>)
    requires forall i :: 0 <= i < |elems| ==> IsLeaf(elems[i])
    ensures Traverse(JArray([JArray(elems)])) == []
  {
    DescendElementsSkipsScalars(elems);
    assert [JArray(elems)][1..] == [];
    assert VisitProperty(IndexKey(0), JArray(elems)) == DescendElements(elems);
    assert TraverseIndexed([JArray(elems)], 0) == VisitProperty(IndexKey(0), JArray(elems)) + TraverseIndexed([], 1);
  }

  /**
   * `obj.hasOwnProperty(key)` resolves to an own property of that name when the
   * object has one; JSON gives it a non-function value, so the call throws a
   * `TypeError` on the first key. True when the walk of `obj` reaches such an object.
   * Arrays and strings inherit the prototype method and never throw.
   */
  predicate HasOwnPropertyShadowed(obj: Json): (r: bool)
    ensures obj.JObject? && Get(obj.members, "hasOwnProperty").Some? ==> r
    ensures IsLeaf(obj) ==> !r
    decreases obj, 0
  {
    match obj
    case JObject(members) => Get(members, "hasOwnProperty").Some? || MembersShadow(members)
    case JArray(elems) => IndexedShadow(elems)
    case _ => false
  }

  /** The loop body for one property reaches a shadowing object. */
  predicate PropertyShadows(value: Json)
    decreases value, 1
  {
    if IsArray(value) then ElementsShadow(value.elems)
    else IsStructured(value) && HasOwnPropertyShadowed(value)
  }

  /** `value.forEach(...)` enters a structured element whose walk throws. */
  predicate ElementsShadow(elems: seq<Json>)
    decreases elems, 2
  {
    elems != [] && ((IsStructured(elems[0]) && HasOwnPropertyShadowed(elems[0])) || ElementsShadow(elems[1..]))
  }

  predicate MembersShadow(members: seq<(string, Json)>)
    decreases members, 2
  {
    members != [] && (assert members[0].1 < members[0]; PropertyShadows(members[0].1) || MembersShadow(members[1..]))
  }

  predicate IndexedShadow(elems: seq<Json>)
    decreases elems, 2
  {
    elems != [] && (PropertyShadows(elems[0]) || IndexedShadow(elems[1..]))
  }

  lemma {:induction false} LeafMembersNeverShadow(members: seq<(string, Json)>)
    requires forall i :: 0 <= i < |members| ==> IsLeaf(members[i].1)
    ensures !MembersShadow(members)
  {
    if members != [] {
      LeafMembersNeverShadow(members[1..]);
    }
  }

  /** An object of scalar properties throws exactly when one of its keys is `hasOwnProperty`. */
  lemma FlatObjectShadowedIffOwnKey(members: seq<(string, Json)>)
    requires forall i :: 0 <= i < |members| ==> IsLeaf(members[i].1)
    ensures HasOwnPropertyShadowed(JObject(members)) <==> "hasOwnProperty" in Keys(members)
  {
    LeafMembersNeverShadow(members);
  }

  /** A shadowing object makes the walk throw at any depth: under a key, or inside a keyed array. */
  lemma NestedShadowingReached(key: string, inner: Json)
    requires IsStructured(inner) && HasOwnPropertyShadowed(inner)
    ensures HasOwnPropertyShadowed(JObject([(key, inner)]))
    ensures HasOwnPropertyShadowed(JObject([(key, JArray([inner]))]))
  {
    assert PropertyShadows(inner) by {
      if IsArray(inner) {
        assert HasOwnPropertyShadowed(inner) == IndexedShadow(inner.elems);
        IndexedShadowElements(inner.elems);
      }
    }
    assert MembersShadow([(key, inner)]);
    assert ElementsShadow([inner]);
  }

  /** A root array throws only through a structured element, which `forEach` would enter too. */
  lemma {:induction false} IndexedShadowElements(elems: seq<Json>)
    requires IndexedShadow(elems)
    ensures ElementsShadow(elems)
    decreases elems
  {
    if PropertyShadows(elems[0]) {
      if IsArray(elems[0]) {
        ElementsShadowNested(elems[0].elems);
      }
      assert IsStructured(elems[0]) && HasOwnPropertyShadowed(elems[0]);
    } else {
      IndexedShadowElements(elems[1..]);
    }
  }

  /** A keyed array that reaches a shadowing object, walked as a root array, reaches it too. */
  lemma {:induction false} ElementsShadowNested(elems: seq<Json>)
    requires ElementsShadow(elems)
    ensures IndexedShadow(elems)
    decreases elems
  {
    if IsStructured(elems[0]) && HasOwnPropertyShadowed(elems[0]) {
      if IsArray(elems[0]) {
        IndexedShadowElements(elems[0].elems);
      }
      assert PropertyShadows(elems[0]);
    } else {
      ElementsShadowNested(elems[1..]);
    }
  }

  /** A key made of decimal digits only, as `for...in` yields for an array or string. */
  predicate IsIndexKey(k: string) {
    k != [] && forall i :: 0 <= i < |k| ==> Decimal.IsDigit(k[i])
  }

  /**
   * Every (key, value) property of any object or array reachable in `v`, at any
   * depth, whose value is a leaf (neither an array nor a non-null object).
   */
  ghost function LeafPropertiesWithin(v: Json): set<(string, Json)>
    decreases v, 0
  {
    match v
    case JObject(members) => LeafPropertiesOfMembers(members)
    case JArray(elems) => LeafPropertiesOfElements(elems)
    case _ => {}
  }

  ghost function LeafPropertiesOfMembers(members: seq<(string, Json)>): set<(string, Json)>
    decreases members
  {
    if members == [] then {}
    else
      assert members[0].1 < members[0];
      (if IsLeaf(members[0].1) then {members[0]} else {})
        + LeafPropertiesWithin(members[0].1) + LeafPropertiesOfMembers(members[1..])
  }

  ghost function LeafPropertiesOfElements(elems: seq<Json>): set<(string, Json)>
    decreases elems
  {
    if elems == [] then {} else LeafPropertiesWithin(elems[0]) + LeafPropertiesOfElements(elems[1..])
  }

  /**
   * Each visit of one property is the property itself (when it holds a leaf), a
   * leaf property reachable inside its value, or an index-keyed visit.
   */
  lemma {:induction false} VisitPropertyLeaves(key: string, value: Json)
    ensures forall w :: w in VisitProperty(key, value) ==>
              (w.key == key && w.value == value && IsLeaf(value)) ||
              (w.key, w.value) in LeafPropertiesWithin(value) || IsIndexKey(w.key)
    decreases value, 1
  {
    if IsArray(value) {
      DescendElementsLeaves(value.elems);
    } else if IsStructured(value) {
      TraverseLeafProperties(value);
    }
  }

  lemma {:induction false} DescendElementsLeaves(elems: seq<Json>)
    ensures forall w :: w in DescendElements(elems) ==>
              (w.key, w.value) in LeafPropertiesOfElements(elems) || IsIndexKey(w.key)
    decreases elems, 2
  {
    if elems != [] {
      if IsStructured(elems[0]) {
        TraverseLeafProperties(elems[0]);
      }
      DescendElementsLeaves(elems[1..]);
    }
  }

  lemma {:induction false} TraverseMembersLeaves(members: seq<(string, Json)>)
    ensures forall w :: w in TraverseMembers(members) ==>
              (w.key, w.value) in LeafPropertiesOfMembers(members) || IsIndexKey(w.key)
    decreases members, 2
  {
    if members != [] {
      assert members[0].1 < members[0];
      VisitPropertyLeaves(members[0].0, members[0].1);
      TraverseMembersLeaves(members[1..]);
    }
  }

  lemma {:induction false} TraverseIndexedLeaves(elems: seq<Json>, offset: nat)
    ensures forall w :: w in TraverseIndexed(elems, offset) ==>
              (w.key, w.value) in LeafPropertiesOfElements(elems) || IsIndexKey(w.key)
    decreases elems, 2
  {
    if elems != [] {
      VisitPropertyLeaves(IndexKey(offset), elems[0]);
      TraverseIndexedLeaves(elems[1..], offset + 1);
    }
  }

  lemma {:induction false} TraverseCharsKeys(s: string, offset: nat)
    ensures forall w :: w in TraverseChars(s, offset) ==> IsIndexKey(w.key)
    decreases s
  {
    if s != [] {
      TraverseCharsKeys(s[1..], offset + 1);
    }
  }

  /**
   * Every visit is a property `(key, value)` of some object the walk reaches, with
   * that property's own key and value, or else is keyed by an index: the visitor
   * never sees a path built from several keys, nor a value paired with another
   * property's key.
   */
  lemma {:induction false} TraverseLeafProperties(obj: Json)
    ensures forall w :: w in Traverse(obj) ==>
              (w.key, w.value) in LeafPropertiesWithin(obj) || IsIndexKey(w.key)
    decreases obj, 0
  {
    match obj
    case JObject(members) => TraverseMembersLeaves(members);
    case JArray(elems) => TraverseIndexedLeaves(elems, 0);
    case JString(s) => TraverseCharsKeys(s, 0);
    case _ =>
  }
}
