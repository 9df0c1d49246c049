/**
 * The deploy command's local guard against committing raw secrets: the traverse
 * callback that pushes the key of every leaf that sits under a sensitive key but
 * is not a `$NAME` reference.
 */
module SecretCheck {
  import opened JsValues
  import opened TreeTraversal
  import opened EnvRefs

  const SensitiveKeys: seq<string> := ["apiKey", "apiSecret", "secretKey", "apiToken"]

  /** What the callback does with one visit. */
  datatype LeafVerdict =
    | Accepted     // not a sensitive key, or a `$NAME` reference
    | Offending    // a sensitive key holding some other string: its key is pushed
    | NotAString   // a sensitive key holding a non-string: `value.match` throws a TypeError

  function CheckLeaf(visit: Visit): (v: LeafVerdict)
    ensures visit.key !in SensitiveKeys ==> v == Accepted
    ensures v == Offending <==> visit.key in SensitiveKeys && visit.value.JString? && !IsEnvReference(visit.value.s)
    ensures v == NotAString <==> visit.key in SensitiveKeys && !visit.value.JString?
  {
    if visit.key !in SensitiveKeys then Accepted
    else match visit.value
      case JString(s) => if IsEnvReference(s) then Accepted else Offending
      case _ => NotAString
  }

  /** `invalidKeys` after the walk, or the key whose value made the walk throw. */
  datatype KeyScan = Collected(invalidKeys: seq<string>) | Threw(key: string)

  /** The callback run over `visits` in order; a throw ends the walk. */
  function ScanVisits(visits: seq<Visit>): (r: KeyScan)
    ensures r.Threw? <==> exists i :: 0 <= i < |visits| && CheckLeaf(visits[i]) == NotAString
    ensures r.Collected? ==> |r.invalidKeys| <= |visits|
    ensures r.Collected? ==> forall k :: k in r.invalidKeys ==> k in SensitiveKeys
    ensures r.Collected? ==>
              (r.invalidKeys == [] <==> forall i :: 0 <= i < |visits| ==> CheckLeaf(visits[i]) == Accepted)
    decreases |visits|
  {
    if visits == [] then Collected([])
    else
      var last := visits[|visits| - 1];
      var before := ScanVisits(visits[..|visits| - 1]);
      if before.Threw? then before
      else match CheckLeaf(last)
        case NotAString => Threw(last.key)
        case Offending => Collected(before.invalidKeys + [last.key])
        case Accepted => before
  }

  /** Once the walk has thrown, later visits change nothing. */
  lemma {:induction false} ThrowIsFinal(visits: seq<Visit>, more: seq<Visit>)
    requires ScanVisits(visits).Threw?
    ensures ScanVisits(visits + more) == ScanVisits(visits)
    decreases |more|
  {
    if more == [] {
      assert visits + more == visits;
    } else {
      var init := more[..|more| - 1];
      ThrowIsFinal(visits, init);
      assert (visits + more)[..|visits + more| - 1] == visits + init;
    }
  }

  /** Each offending leaf contributes its key once, in visit order. */
  lemma {:induction false} OffendingKeysInOrder(visits: seq<Visit>)
    requires ScanVisits(visits).Collected?
    ensures ScanVisits(visits).invalidKeys == OffendingKeys(visits)
    decreases |visits|
  {
    if visits != [] {
      OffendingKeysInOrder(visits[..|visits| - 1]);
      OffendingKeysSnoc(visits[..|visits| - 1], visits[|visits| - 1]);
      assert visits[..|visits| - 1] + [visits[|visits| - 1]] == visits;
    }
  }

  /** The keys of the offending visits, read from the front: the reference reading of the rule. */
  function OffendingKeys(visits: seq<Visit>): seq<string> {
    if visits == [] then []
    else (if CheckLeaf(visits[0]) == Offending then [visits[0].key] else []) + OffendingKeys(visits[1..])
  }

  lemma {:induction false} OffendingKeysSnoc(visits: seq<Visit>, last: Visit)
    ensures OffendingKeys(visits + [last])
         == OffendingKeys(visits) + (if CheckLeaf(last) == Offending then [last.key] else [])
    decreases |visits|
  {
    if visits == [] {
      assert [] + [last] == [last];
    } else {
      var head := if CheckLeaf(visits[0]) == Offending then [visits[0].key] else [];
      var tail := if CheckLeaf(last) == Offending then [last.key] else [];
      assert (visits + [last])[0] == visits[0];
      assert (visits + [last])[1..] == visits[1..] + [last];
      assert OffendingKeys(visits + [last]) == head + OffendingKeys(visits[1..] + [last]);
      OffendingKeysSnoc(visits[1..], last);
      assert head + (OffendingKeys(visits[1..]) + tail) == head + OffendingKeys(visits[1..]) + tail;
    }
  }

  /** A configuration in which no leaf has a sensitive key is never reported. */
  lemma NoSensitiveKeyNoViolation(visits: seq<Visit>)
    requires forall i :: 0 <= i < |visits| ==> visits[i].key !in SensitiveKeys
    ensures ScanVisits(visits) == Collected([])
  {
  }

  /** One more visit after a walk that has not thrown: its verdict decides the new scan. */
  lemma ScanStep(visits: seq<Visit>, i: nat)
    requires i < |visits| && ScanVisits(visits[..i]).Collected?
    ensures ScanVisits(visits[..i + 1])
         == match CheckLeaf(visits[i])
            case NotAString => Threw(visits[i].key)
            case Offending => Collected(ScanVisits(visits[..i]).invalidKeys + [visits[i].key])
            case Accepted => ScanVisits(visits[..i])
  {
    assert visits[..i + 1][..i] == visits[..i];
    assert visits[..i + 1][i] == visits[i];
  }

  /**
   * `traverse(parsedRawConfig, callback)` with the callback pushing into
   * `invalidKeys`; a non-string sensitive leaf makes the callback throw.
   */
  method CollectInvalidKeys(parsedRawConfig: Json) returns (r: KeyScan)
    ensures r == ScanVisits(Traverse(parsedRawConfig))
  {
    var visits := Traverse(parsedRawConfig);
    var invalidKeys: seq<string> := [];
    var i := 0;
    while i < |visits|
      invariant 0 <= i <= |visits|
      invariant ScanVisits(visits[..i]) == Collected(invalidKeys)
      decreases |visits| - i
    {
      var key, value := visits[i].key, visits[i].value;
      ScanStep(visits, i);
      if key in SensitiveKeys {
        if !value.JString? {
          ThrowIsFinal(visits[..i + 1], visits[i + 1..]);
          assert visits[..i + 1] + visits[i + 1..] == visits;
          return Threw(key);
        }
        if !IsEnvReference(value.s) {
          invalidKeys := invalidKeys + [key];
        }
      }
      i := i + 1;
    }
    assert visits[..i] == visits;
    r := Collected(invalidKeys);
  }
}
