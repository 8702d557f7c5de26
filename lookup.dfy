/** Keyed lookup on a marshaled object, as the decoders rely on it: the
    library's `value(forKey:)` in its required and optional forms. The
    library's own implementation is not part of this model; these functions
    encode the behaviour the decoders assume of it. */
module Lookup {
  import opened Results
  import opened JsonValues
  import opened KeyPath

  /** The value reached from `j` by following `path` through nested objects;
      nothing when a segment names no field or a step lands on a non-object. */
  function Descend(j: Json, path: seq<string>): Option<Json>
    decreases |path|
  {
    if path == [] then Some(j)
    else match j
      case JObj(fields) =>
        if path[0] in fields then Descend(fields[path[0]], path[1..]) else None
      case _ => None
  }

  /** The value a (possibly dotted) key names in `json`. */
  function Find(json: map<string, Json>, key: string): Option<Json>
  {
    Descend(JObj(json), Split(key))
  }

  /** A key without '.' reads one field of the object itself. */
  lemma FindField(json: map<string, Json>, key: string)
    requires IsSegment(key)
    ensures Find(json, key) == if key in json then Some(json[key]) else None
  {
    SplitSingle(key);
    if key in json {
      assert Descend(json[key], []) == Some(json[key]);
      assert [key][1..] == [];
    }
  }

  /** A key "outer.inner" reads field `inner` of the object held in field `outer`. */
  lemma FindNested(json: map<string, Json>, outer: string, inner: string)
    requires IsSegment(outer) && IsSegment(inner)
    ensures Find(json, outer + "." + inner) ==
      if outer in json && json[outer].JObj? && inner in json[outer].obj
      then Some(json[outer].obj[inner])
      else None
  {
    SplitPair(outer, inner);
    assert [outer, inner][1..] == [inner] && [inner][1..] == [];
    if outer in json {
      var o := json[outer];
      assert Find(json, outer + "." + inner) == Descend(o, [inner]);
      if o.JObj? && inner in o.obj {
        assert Descend(o.obj[inner], []) == Some(o.obj[inner]);
      }
    }
  }

  /** The raw value at `key`: a missing key and a null value are both errors. */
  function AnyValue(json: map<string, Json>, key: string): Result<Json>
  {
    match Find(json, key)
    case None => Err(KeyNotFound(key))
    case Some(JNull) => Err(NullValue(key))
    case Some(v) => Ok(v)
  }

  /** `try json.value(forKey: key) as String`. */
  function RequiredString(json: map<string, Json>, key: string): Result<string>
  {
    var v :- AnyValue(json, key);
    if v.JStr? then Ok(v.str) else Err(TypeMismatch("String", KindName(v)))
  }

  /** `try json.value(forKey: key) as String?`: a missing key or a null value
      is `nil`; a value of another type is still an error. */
  function OptionalString(json: map<string, Json>, key: string): Result<Option<string>>
  {
    match RequiredString(json, key)
    case Ok(s) => Ok(Some(s))
    case Err(KeyNotFound(_)) => Ok(None)
    case Err(NullValue(_)) => Ok(None)
    case Err(e) => Err(e)
  }

  /** `try json.value(forKey: key)` into a string-backed enumeration: the raw
      string is read, then `fromRaw` (the enumeration's `init(rawValue:)`)
      must recognise it. */
  function RawValue<E>(json: map<string, Json>, key: string, fromRaw: string -> Option<E>, typeName: string): Result<E>
  {
    var raw :- RequiredString(json, key);
    match fromRaw(raw)
    case Some(e) => Ok(e)
    case None => Err(TypeMismatch(typeName, raw))
  }

  /** `try json.value(forKey: key)` into a nested `Unmarshaling` type: the
      value must be an object, which is handed to that type's decoder. */
  function RequiredObject(json: map<string, Json>, key: string): Result<map<string, Json>>
  {
    var v :- AnyValue(json, key);
    if v.JObj? then Ok(v.obj) else Err(TypeMismatch("MarshaledObject", KindName(v)))
  }

  /** The field `key` holds a string. */
  predicate HasString(json: map<string, Json>, key: string)
  {
    key in json && json[key].JStr?
  }

  /** The field `key` is acceptable to an optional string read: absent, null or a string. */
  predicate OptionalStringOk(json: map<string, Json>, key: string)
  {
    key !in json || json[key] == JNull || json[key].JStr?
  }

  /** The string in field `key`, if there is one. */
  function StringIn(json: map<string, Json>, key: string): Option<string>
  {
    if HasString(json, key) then Some(json[key].str) else None
  }

  /** Required string lookup of a plain key: present strings succeed, a
      missing key, a null and any other type each fail with their own error. */
  lemma RequiredStringField(json: map<string, Json>, key: string)
    requires IsSegment(key)
    ensures RequiredString(json, key).Ok? <==> HasString(json, key)
    ensures HasString(json, key) ==> RequiredString(json, key) == Ok(json[key].str)
    ensures key !in json ==> RequiredString(json, key) == Err(KeyNotFound(key))
    ensures key in json && json[key] == JNull ==> RequiredString(json, key) == Err(NullValue(key))
    ensures key in json && json[key] != JNull && !json[key].JStr? ==>
      RequiredString(json, key) == Err(TypeMismatch("String", KindName(json[key])))
  {
    FindField(json, key);
  }

  /** Optional string lookup of a plain key: absence or null is `nil`, a
      string is kept, and any other type fails. */
  lemma OptionalStringField(json: map<string, Json>, key: string)
    requires IsSegment(key)
    ensures OptionalString(json, key).Ok? <==> OptionalStringOk(json, key)
    ensures OptionalStringOk(json, key) ==> OptionalString(json, key) == Ok(StringIn(json, key))
    ensures !OptionalStringOk(json, key) ==>
      OptionalString(json, key) == Err(TypeMismatch("String", KindName(json[key])))
  {
    FindField(json, key);
  }

  /** `json` with field `key` set to `value`, or removed when `value` is nothing. */
  function Replace(json: map<string, Json>, key: string, value: Option<Json>): map<string, Json>
  {
    match value
    case Some(v) => json[key := v]
    case None => json - {key}
  }

  /** Changing one field leaves every plain key naming another field where it was. */
  lemma FindReplaced(json: map<string, Json>, changed: string, value: Option<Json>, key: string)
    requires IsSegment(key) && key != changed
    ensures Find(Replace(json, changed, value), key) == Find(json, key)
  {
    FindField(json, key);
    FindField(Replace(json, changed, value), key);
  }

  /** The typed reads of a key depend only on the value the key names. */
  lemma ReadsAgree(json: map<string, Json>, other: map<string, Json>, key: string)
    requires Find(json, key) == Find(other, key)
    ensures AnyValue(json, key) == AnyValue(other, key)
    ensures RequiredString(json, key) == RequiredString(other, key)
    ensures OptionalString(json, key) == OptionalString(other, key)
    ensures RequiredObject(json, key) == RequiredObject(other, key)
  {
  }
}
