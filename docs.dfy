// Parsed YAML/JSON documents, as the loaders receive them after the file
// has been read, and the Python dictionary operations applied to them.

module Docs {
  import opened Base

  datatype Value =
    | Null
    | Bool(b: bool)
    | Int(i: int)
    | Float(r: real)
    | Str(s: string)
    | List(items: seq<Value>)
    | Obj(fields: Dict<string, Value>)

  /** Every mapping in the document lists each of its keys once, as a parsed document does. */
  predicate WellFormed(v: Value) {
    match v
    case List(items) => forall i :: 0 <= i < |items| ==> WellFormed(items[i])
    case Obj(fields) => fields.Valid() && forall k :: k in fields.vals ==> WellFormed(fields.vals[k])
    case _ => true
  }

  lemma WellFormedField(v: Value, key: string)
    requires WellFormed(v) && HasKey(v, key)
    ensures WellFormed(v.fields.vals[key])
    ensures v.fields.vals[key].Obj? ==> v.fields.vals[key].fields.Valid()
  {
  }

  /** isinstance(v, (int, float)); a bool is an int in Python. */
  predicate IsNumber(v: Value) { v.Bool? || v.Int? || v.Float? }

  /** isinstance(v, int) */
  predicate IsInteger(v: Value) { v.Bool? || v.Int? }

  function NumberOf(v: Value): real
    requires IsNumber(v)
  {
    match v
    case Bool(b) => if b then 1.0 else 0.0
    case Int(i) => i as real
    case Float(r) => r
  }

  /** Using v in arithmetic: a TypeError unless v is a number. */
  function AsNumber(v: Value, what: string): (r: Result<real>)
    ensures r.Ok? <==> IsNumber(v)
    ensures r.Ok? ==> r.value == NumberOf(v)
  {
    if IsNumber(v) then Ok(NumberOf(v)) else Fail(TypeMismatch(what))
  }

  function AsString(v: Value, what: string): (r: Result<string>)
    ensures r.Ok? <==> v.Str?
  {
    if v.Str? then Ok(v.s) else Fail(TypeMismatch(what))
  }

  /** Python truthiness. */
  predicate Truthy(v: Value) {
    match v
    case Null => false
    case Bool(b) => b
    case Int(i) => i != 0
    case Float(r) => r != 0.0
    case Str(s) => s != ""
    case List(items) => items != []
    case Obj(fields) => fields.keys != []
  }

  predicate HasKey(v: Value, key: string) { v.Obj? && key in v.fields.vals }

  /** v[key]: a TypeError when v is not a mapping, a KeyError when the key is absent. */
  function Field(v: Value, key: string): (r: Result<Value>)
    ensures r.Ok? <==> HasKey(v, key)
    ensures r.Ok? ==> r.value == v.fields.vals[key]
  {
    if !v.Obj? then Fail(TypeMismatch("not a mapping"))
    else if key !in v.fields.vals then Fail(MissingKey(key))
    else Ok(v.fields.vals[key])
  }

  /** v.get(key, default) */
  function FieldOr(v: Value, key: string, default: Value): (r: Result<Value>)
    ensures r.Ok? <==> v.Obj?
    ensures r.Ok? ==> r.value == (if key in v.fields.vals then v.fields.vals[key] else default)
  {
    if !v.Obj? then Fail(TypeMismatch("not a mapping"))
    else Ok(v.fields.Get(key, default))
  }

  /** A mapping literal; a later pair with the same key overwrites an earlier one. */
  function ObjOf(pairs: seq<(string, Value)>): (v: Value)
    ensures v.Obj? && v.fields.Valid()
    decreases |pairs|
  {
    if pairs == [] then Obj(EmptyDict())
    else
      var pre := ObjOf(pairs[..|pairs| - 1]);
      Obj(pre.fields.Put(pairs[|pairs| - 1].0, pairs[|pairs| - 1].1))
  }

  /** A mapping of numbers, read into an ordered dictionary of reals. */
  function NumberDict(d: Dict<string, Value>, what: string): (r: Result<Dict<string, real>>)
    ensures r.Ok? ==> (d.Valid() ==> r.value.Valid()) && r.value.keys == d.keys && r.value.vals.Keys == d.vals.Keys
    ensures r.Ok? ==> forall k :: k in d.vals ==> IsNumber(d.vals[k]) && r.value.vals[k] == NumberOf(d.vals[k])
    ensures r.Ok? <==> forall k :: k in d.vals ==> IsNumber(d.vals[k])
  {
    if forall k :: k in d.vals ==> IsNumber(d.vals[k]) then
      Ok(Dict(d.keys, map k | k in d.vals :: NumberOf(d.vals[k])))
    else Fail(TypeMismatch(what))
  }

  /** The inverse of NumberDict: every real written as a float. */
  function FloatDict(d: Dict<string, real>): (r: Dict<string, Value>)
    ensures r.keys == d.keys && r.vals.Keys == d.vals.Keys
    ensures forall k :: k in d.vals ==> r.vals[k] == Float(d.vals[k])
    ensures d.Valid() ==> r.Valid()
  {
    Dict(d.keys, map k | k in d.vals :: Float(d.vals[k]))
  }

  lemma NumberDictOfFloatDict(d: Dict<string, real>, what: string)
    requires d.Valid()
    ensures NumberDict(FloatDict(d), what) == Ok(d)
  {
    var r := NumberDict(FloatDict(d), what);
    assert r.value.vals == d.vals;
  }

  /** `for x in v`: a list yields its items, a string its one-character
      strings and a mapping its keys; any other value is not iterable (a TypeError). */
  function Iterated(v: Value): (r: Result<seq<Value>>)
    ensures r.Ok? <==> v.List? || v.Str? || v.Obj?
    ensures v.List? ==> r == Ok(v.items)
    ensures v.Str? ==> r.Ok? && |r.value| == |v.s|
    ensures v.Obj? ==> r.Ok? && |r.value| == |v.fields.keys|
    ensures r.Ok? && !v.List? ==> forall i :: 0 <= i < |r.value| ==> r.value[i].Str?
    ensures WellFormed(v) && r.Ok? ==> forall i :: 0 <= i < |r.value| ==> WellFormed(r.value[i])
  {
    match v
    case List(items) => Ok(items)
    case Str(s) => Ok(seq(|s|, i requires 0 <= i < |s| => Str([s[i]])))
    case Obj(fields) => Ok(seq(|fields.keys|, i requires 0 <= i < |fields.keys| => Str(fields.keys[i])))
    case _ => Fail(TypeMismatch("not iterable"))
  }
}
