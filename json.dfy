/**
 * JSON values as the plugins see them once the resolver has parsed a file.
 * Object members keep JavaScript's property order for the keys the plugins
 * assign: an existing key is updated in place and a new non-index key goes
 * last. Integer-like keys, which JavaScript lists first, are not assigned.
 */
module Json {
  import opened Wrappers

  datatype Json =
    | JNull
    | JBool(b: bool)
    | JNumber(n: int)
    | JString(s: string)
    | JArray(items: seq<Json>)
    | JObject(members: seq<(string, Json)>)

  /** The keys of an object's members, in property order. */
  function Keys(members: seq<(string, Json)>): (ks: seq<string>)
    ensures |ks| == |members|
    ensures forall i :: 0 <= i < |members| ==> ks[i] == members[i].0
  {
    if members == [] then [] else [members[0].0] + Keys(members[1..])
  }

  /** `obj[key]` on an object's members: the value of the first member named `key`. */
  function Lookup(members: seq<(string, Json)>, key: string): (r: Option<Json>)
    ensures r.None? <==> key !in Keys(members)
  {
    if members == [] then None
    else if members[0].0 == key then Some(members[0].1)
    else Lookup(members[1..], key)
  }

  /** `obj[key] = value` on an object's members. */
  function Put(members: seq<(string, Json)>, key: string, value: Json): (r: seq<(string, Json)>)
    ensures Lookup(r, key) == Some(value)
    ensures forall k :: k != key ==> Lookup(r, k) == Lookup(members, k)
  {
    if members == [] then [(key, value)]
    else if members[0].0 == key then
      var r := [(key, value)] + members[1..];
      assert r[1..] == members[1..];
      r
    else
      var t := Put(members[1..], key, value);
      var r := [members[0]] + t;
      assert r[1..] == t;
      assert forall k :: k != key ==> Lookup(r, k) == Lookup(members, k) by {
        forall k | k != key ensures Lookup(r, k) == Lookup(members, k) {
          if k != members[0].0 {
            assert Lookup(r, k) == Lookup(t, k);
          }
        }
      }
      r
  }

  /** Assigning an existing key keeps the key order; a new key goes last. */
  lemma {:induction false} PutKeys(members: seq<(string, Json)>, key: string, value: Json)
    ensures Keys(Put(members, key, value)) ==
      if key in Keys(members) then Keys(members) else Keys(members) + [key]
  {
    var r := Put(members, key, value);
    if members == [] {
    } else if members[0].0 == key {
      assert r[1..] == members[1..];
      assert Keys(r) == [key] + Keys(members[1..]) == Keys(members);
    } else {
      var t := Put(members[1..], key, value);
      assert r == [members[0]] + t;
      assert r[1..] == t;
      PutKeys(members[1..], key, value);
      assert Keys(r) == [members[0].0] + Keys(t);
      assert Keys(members) == [members[0].0] + Keys(members[1..]);
      assert key in Keys(members) <==> key in Keys(members[1..]);
    }
  }

  /** Assigning the value a key already has leaves the object as it was. */
  lemma {:induction false} PutUnchanged(members: seq<(string, Json)>, key: string, value: Json)
    requires Lookup(members, key) == Some(value)
    ensures Put(members, key, value) == members
  {
    if members[0].0 != key {
      PutUnchanged(members[1..], key, value);
      assert Put(members, key, value) == [members[0]] + Put(members[1..], key, value);
    } else {
      assert members == [(key, value)] + members[1..];
    }
  }

  /** `value.key` on any JSON value: only objects have named properties. */
  function Get(value: Json, key: string): Option<Json> {
    if value.JObject? then Lookup(value.members, key) else None
  }

  /** Both members of a two-member object literal read back. */
  lemma LookupPair(k1: string, v1: Json, k2: string, v2: Json)
    requires k1 != k2
    ensures Lookup([(k1, v1), (k2, v2)], k1) == Some(v1)
    ensures Lookup([(k1, v1), (k2, v2)], k2) == Some(v2)
  {
    assert [(k1, v1), (k2, v2)][1..] == [(k2, v2)];
  }

  /** JavaScript truthiness of a property read, `None` being `undefined`. */
  predicate Truthy(value: Option<Json>) {
    match value
    case None => false
    case Some(JNull) => false
    case Some(JBool(b)) => b
    case Some(JNumber(n)) => n != 0
    case Some(JString(s)) => s != ""
    case Some(JArray(_)) => true
    case Some(JObject(_)) => true
  }

  /**
   * `value == "object"` with JavaScript's loose equality. An array compares by
   * its `toString`, the comma-joined text of its items, so only an array whose
   * one item is itself loosely `"object"` matches; an object's text is
   * `[object Object]`, and a number or boolean never equals a non-numeric string.
   * Where the conversion throws, see `LooseEqualityThrows`.
   */
  predicate LooselyEqualsObjectText(value: Option<Json>) {
    value.Some? && EqualsObjectText(value.value)
  }

  predicate EqualsObjectText(value: Json) {
    match value
    case JString(s) => s == "object"
    case JArray(items) => |items| == 1 && EqualsObjectText(items[0])
    case _ => false
  }

  /**
   * Converting `value` to a primitive throws a TypeError. A JSON value holds
   * no functions, so an object with its own `toString` member has no callable
   * `toString`, and `valueOf` gives back the object itself; an array converts
   * each of its items when it joins them.
   */
  predicate ToPrimitiveThrows(value: Json) {
    match value
    case JObject(members) => "toString" in Keys(members)
    case JArray(items) => exists i :: 0 <= i < |items| && ToPrimitiveThrows(items[i])
    case _ => false
  }

  /** `value == "object"` throws a TypeError instead of giving a boolean. */
  predicate LooseEqualityThrows(value: Option<Json>) {
    value.Some? && ToPrimitiveThrows(value.value)
  }

  /** A value loosely equal to `"object"` converts without throwing. */
  lemma {:induction false} ObjectTextDoesNotThrow(value: Json)
    ensures EqualsObjectText(value) ==> !ToPrimitiveThrows(value)
  {
    match value
    case JArray(items) =>
      if |items| == 1 {
        ObjectTextDoesNotThrow(items[0]);
      }
    case _ =>
  }

  /** `value == "object"` has one outcome: true, false, or a TypeError. */
  lemma LooseEqualityOutcome(value: Option<Json>)
    ensures !(LooselyEqualsObjectText(value) && LooseEqualityThrows(value))
  {
    if value.Some? {
      ObjectTextDoesNotThrow(value.value);
    }
  }
}
