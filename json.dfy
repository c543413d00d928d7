/**
  JSON-shaped values as both sides of the tool see them: the frontend's JavaScript
  (which adds `undefined`) and the backend's Python (where a decoded body is a dict).
  Numbers are exact reals; floating point is not modelled.
 */
module Json {

  datatype Option<+T> = None | Some(value: T) {
    function GetOr(default: T): T {
      match this
      case Some(v) => v
      case None => default
    }
  }

  datatype Json =
    | Undefined             // JavaScript `undefined`; no JSON text decodes to it, at any depth
    | Null
    | Bool(b: bool)
    | Num(n: real)
    | Str(s: string)
    | Arr(items: seq<Json>)
    | Obj(fields: map<string, Json>)

  /** A value JSON text can decode to: `undefined` appears nowhere in it. */
  predicate FullyDefined(v: Json) {
    match v
    case Undefined => false
    case Arr(items) => forall i :: 0 <= i < |items| ==> FullyDefined(items[i])
    case Obj(fields) => forall k :: k in fields ==> FullyDefined(fields[k])
    case _ => true
  }

  /** A decoded JSON object: none of its members holds `undefined`, at any depth. */
  predicate Decoded(obj: map<string, Json>) {
    forall k :: k in obj ==> FullyDefined(obj[k])
  }

  /** `obj.key` (or `obj["key"]`) on a JavaScript object: the member, or `undefined` when absent. */
  function Get(obj: map<string, Json>, key: string): (v: Json)
    ensures key in obj ==> v == obj[key]
    ensures Decoded(obj) ==> (v != Undefined <==> key in obj)
  {
    if key in obj then obj[key] else Undefined
  }

  /** An optional environment string as JavaScript reads it from `process.env`. */
  function FromEnv(value: Option<string>): Json
  {
    match value
    case Some(s) => Str(s)
    case None => Undefined
  }

  /** `v === null || v === ""`: the emptiness test both buttons' guards use. */
  predicate NullOrEmpty(v: Json) {
    v == Null || v == Str("")
  }

  /** The result of reading a property in JavaScript: a value, or the TypeError it throws. */
  datatype Access = Value(v: Json) | TypeError(message: string)

  /** The text V8 gives the TypeError thrown by reading `key` of null or undefined. */
  function ReadErrorMessage(base: Json, key: string): string
    requires base == Null || base == Undefined
  {
    "Cannot read properties of " + (if base == Null then "null" else "undefined") + " (reading '" + key + "')"
  }

  /**
    The property names this frontend reads with `.`. None of them is an array index,
    `length` or a member every object inherits from `Object.prototype`, so only an
    object's own members answer them; `split` is read only from values that are
    not strings, which have no such method.
   */
  predicate ReadKey(base: Json, key: string) {
    key == "response" || key == "user-address" || key == "name" || (key == "split" && !base.Str?)
  }

  /**
    `base.key` for one of the keys above: objects yield their member, other non-null
    values have no such property, and null or undefined throw.
   */
  function Property(base: Json, key: string): Access
    requires ReadKey(base, key)
  {
    match base
    case Undefined => TypeError(ReadErrorMessage(base, key))
    case Null => TypeError(ReadErrorMessage(base, key))
    case Obj(m) => Value(Get(m, key))
    case _ => Value(Undefined)
  }

  /** `base[0]`: the first element of an array or character of a string, member "0" of an object. */
  function First(base: Json): Access
  {
    match base
    case Undefined => TypeError(ReadErrorMessage(base, "0"))
    case Null => TypeError(ReadErrorMessage(base, "0"))
    case Arr(items) => Value(if |items| > 0 then items[0] else Undefined)
    case Str(s) => Value(if |s| > 0 then Str([s[0]]) else Undefined)
    case Obj(m) => Value(Get(m, "0"))
    case _ => Value(Undefined)
  }

  /** A property read chained onto an access that may already have thrown. */
  function ThenProperty(a: Access, key: string): Access
    requires a.Value? ==> ReadKey(a.v, key)
  {
    match a
    case TypeError(_) => a
    case Value(v) => Property(v, key)
  }

  /**
    What a nested value becomes through `JSON.stringify` and back: an `undefined`
    array element is written as `null`, an object member whose value is `undefined`
    is left out, and everything else is kept, at every depth.
   */
  function Encode(v: Json): (w: Json)
    ensures FullyDefined(w)
  {
    match v
    case Undefined => Null
    case Arr(items) => Arr(seq(|items|, i requires 0 <= i < |items| => Encode(items[i])))
    case Obj(fields) => Obj(map k | k in fields && fields[k] != Undefined :: Encode(fields[k]))
    case _ => v
  }

  /** A value that holds no `undefined` crosses the wire unchanged. */
  lemma {:induction false} EncodeIdentity(v: Json)
    requires FullyDefined(v)
    ensures Encode(v) == v
  {
    match v {
      case Arr(items) =>
        forall i | 0 <= i < |items|
          ensures Encode(items[i]) == items[i]
        {
          EncodeIdentity(items[i]);
        }
        assert Encode(v).items == items;
      case Obj(fields) =>
        forall k | k in fields
          ensures Encode(fields[k]) == fields[k]
        {
          EncodeIdentity(fields[k]);
        }
        assert Encode(v).fields == fields;
      case _ =>
    }
  }

  predicate DistinctKeys(fields: seq<(string, Json)>) {
    forall i, j :: 0 <= i < j < |fields| ==> fields[i].0 != fields[j].0
  }

  /**
    What the receiving side decodes from an object literal that was sent through
    `JSON.stringify`: each property in order, a later one replacing an earlier one
    of the same name, a property whose value is `undefined` left out, and every
    other value encoded.
   */
  function Stringify(fields: seq<(string, Json)>): (wire: map<string, Json>)
    ensures Decoded(wire)
  {
    if fields == [] then map[]
    else
      var rest := Stringify(fields[..|fields| - 1]);
      var (k, v) := fields[|fields| - 1];
      if v == Undefined then rest - {k} else rest[k := Encode(v)]
  }

  /** With distinct names, a property reaches the wire exactly when its value is defined, and encoded. */
  lemma {:induction false} StringifyMembers(fields: seq<(string, Json)>, i: nat)
    requires DistinctKeys(fields) && i < |fields|
    ensures fields[i].0 in Stringify(fields) <==> fields[i].1 != Undefined
    ensures fields[i].1 != Undefined ==> Stringify(fields)[fields[i].0] == Encode(fields[i].1)
  {
    var n := |fields| - 1;
    if i < n {
      var init := fields[..n];
      assert DistinctKeys(init);
      assert init[i] == fields[i];
      StringifyMembers(init, i);
      assert fields[n].0 != fields[i].0;
    }
  }

  /** Nothing reaches the wire but the record's own property names. */
  lemma {:induction false} StringifyKeys(fields: seq<(string, Json)>, k: string)
    requires k in Stringify(fields)
    ensures exists i :: 0 <= i < |fields| && fields[i].0 == k
  {
    var n := |fields| - 1;
    if fields[n].0 != k {
      StringifyKeys(fields[..n], k);
      var i :| 0 <= i < n && fields[..n][i].0 == k;
      assert fields[i].0 == k;
    }
  }
}
