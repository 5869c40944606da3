// Shared vocabulary of the StarSim model: identifiers, optional values,
// the exceptions the engine can raise (as values), ordered dictionaries
// and the real-number helpers the stages use.

module Base {

  // core/ids.py: every identifier is a string.
  type WorldId = string
  type LaneId = string
  type CommodityId = string
  type FactionId = string
  type RecipeId = string
  type EventId = string

  /** Entries below this bound are deleted from inventories (the 1e-9 cleanup). */
  const EPSILON: real := 0.000000001

  datatype Option<T> = None | Some(value: T)

  /** The exceptions the engine raises, as values. */
  datatype Error =
    | NegativeQuantity                 // ValueError from an inventory primitive
    | UnknownCommodity(id: string)     // ValueError from CommodityRegistry.get
    | UnknownRecipe(id: string)        // ValueError from RecipeRegistry.get
    | UnknownEvent(id: string)         // ValueError from EventRegistry.get
    | MissingKey(key: string)          // KeyError on a plain dictionary
    | MissingComponent(name: string)   // AttributeError: a None component or a missing attribute
    | NegativeSample                   // ValueError from rng.sample with k < 0
    | EmptyData                        // ValueError on empty registry data
    | Invalid(message: string)         // ValueError raised by a validator or loader
    | TypeMismatch(what: string)       // TypeError on a value of the wrong type
    | Unimportable(name: string)       // ImportError: a name the module does not define
    | NoItem                           // IndexError on an empty sequence
    | Schema(check: SchemaCheck, subject: string)  // GenerationSchemaError: the check and the entry it names
    | Universe(problem: UniverseCheck)  // UniverseSchemaError from load_universe

  /** The checks of load_universe. */
  datatype UniverseCheck =
    | MissingSeed | DuplicateWorlds | DuplicateLanes
    | UnknownWorld(lane: string, world: string)  // a lane naming a world that was not loaded

  /** The checks of the generation schema, each named after its message. */
  datatype SchemaCheck =
    | NotAList | MissingField | BadId | BadName | BadWeight | BadDistribution | BadBand
    | BadResourceTables | TableIncomplete | BothThresholds | BadGte | BadLt | BadPotentials
    | BadRange | BadBins | NoRangeOrBins | BadMinPlanets | BadMaxPlanets | BadTypeWeights | BadTypeWeight

  datatype Result<T> = Ok(value: T) | Fail(error: Error) {
    predicate IsFailure() { Fail? }
    function PropagateFailure<U>(): Result<U> requires Fail? { Fail(error) }
    function Extract(): T requires Ok? { value }
  }

  /** Python truthiness of a string. */
  predicate Truthy(s: string) { s != "" }

  function Min(a: real, b: real): (r: real)
    ensures r <= a && r <= b && (r == a || r == b)
  {
    if b < a then b else a
  }

  function Max(a: real, b: real): (r: real)
    ensures r >= a && r >= b && (r == a || r == b)
  {
    if b > a then b else a
  }

  /** max(lo, min(hi, x)), the clamp every stage writes out. */
  function Clamp(x: real, lo: real, hi: real): (r: real)
    ensures lo <= hi ==> lo <= r <= hi
    ensures lo <= x <= hi ==> r == x
  {
    Max(lo, Min(hi, x))
  }

  predicate InUnit(x: real) { 0.0 <= x <= 1.0 }

  /** Python's round() on a real: nearest integer, ties to the even one. */
  function RoundHalfEven(x: real): (n: int)
    ensures x - 0.5 <= n as real <= x + 0.5
    ensures (n as real - x == 0.5 || x - n as real == 0.5) ==> n % 2 == 0
  {
    var f := x.Floor;
    var frac := x - f as real;
    if frac < 0.5 then f
    else if frac > 0.5 then f + 1
    else if f % 2 == 0 then f else f + 1
  }

  // ---------------------------------------------------------------------
  // Insertion-ordered dictionaries (Python dict iteration order).
  // ---------------------------------------------------------------------

  predicate Distinct<T(==)>(s: seq<T>) {
    forall i, j :: 0 <= i < j < |s| ==> s[i] != s[j]
  }

  datatype Dict<K(==), V> = Dict(keys: seq<K>, vals: map<K, V>) {
    /** The key sequence lists each key of the map exactly once. */
    predicate Valid() {
      Distinct(keys) && (forall k :: k in vals ==> k in keys) && (forall i :: 0 <= i < |keys| ==> keys[i] in vals)
    }

    function Get(k: K, default: V): V {
      if k in vals then vals[k] else default
    }

    /** d[k] = v: an existing key keeps its position, a new key goes last. */
    function Put(k: K, v: V): (d: Dict<K, V>)
      ensures Valid() ==> d.Valid()
      ensures d.vals == vals[k := v]
      ensures k in vals ==> d.keys == keys
      ensures k !in vals ==> d.keys == keys + [k]
    {
      Dict(if k in vals then keys else keys + [k], vals[k := v])
    }

    /** list(d.values()) */
    function Values(): (vs: seq<V>)
      requires Valid()
      ensures |vs| == |keys|
      ensures forall i :: 0 <= i < |keys| ==> vs[i] == vals[keys[i]]
    {
      seq(|keys|, i requires 0 <= i < |keys| => vals[keys[i]])
    }
  }

  function EmptyDict<K(==), V>(): (d: Dict<K, V>)
    ensures d.Valid() && d.keys == [] && d.vals == map[]
  {
    Dict([], map[])
  }

  // ---------------------------------------------------------------------
  // Strings in lexicographic order, used to list a set of keys.
  // ---------------------------------------------------------------------

  /** a <= b, comparing character by character; a prefix comes first. */
  predicate StrLe(a: string, b: string)
    decreases |a|
  {
    a == [] || (b != [] && (a[0] < b[0] || (a[0] == b[0] && StrLe(a[1..], b[1..]))))
  }

  lemma {:induction false} StrLeTotal(a: string, b: string)
    ensures StrLe(a, b) || StrLe(b, a)
    decreases |a|
  {
    if a != [] && b != [] && a[0] == b[0] { StrLeTotal(a[1..], b[1..]); }
  }

  lemma {:induction false} StrLeAntisymmetric(a: string, b: string)
    requires StrLe(a, b) && StrLe(b, a)
    ensures a == b
    decreases |a|
  {
    if a != [] {
      StrLeAntisymmetric(a[1..], b[1..]);
      assert a == [a[0]] + a[1..] && b == [b[0]] + b[1..];
    }
  }

  lemma {:induction false} StrLeTransitive(a: string, b: string, c: string)
    requires StrLe(a, b) && StrLe(b, c)
    ensures StrLe(a, c)
    decreases |a|
  {
    if a != [] && a[0] == b[0] && b[0] == c[0] { StrLeTransitive(a[1..], b[1..], c[1..]); }
  }

  predicate Least(x: string, s: set<string>) {
    x in s && forall y :: y in s ==> StrLe(x, y)
  }

  lemma LeastUnique(s: set<string>)
    requires s != {}
    ensures exists x :: Least(x, s)
    ensures forall x, x' :: Least(x, s) && Least(x', s) ==> x == x'
  {
    HasLeast(s);
    forall x, x' | Least(x, s) && Least(x', s) ensures x == x' { StrLeAntisymmetric(x, x'); }
  }

  /** A finite set of strings has a least element. */
  lemma {:induction false} HasLeast(s: set<string>)
    requires s != {}
    ensures exists x :: Least(x, s)
    decreases |s|
  {
    var a :| a in s;
    var rest := s - {a};
    if rest == {} {
      assert s == {a};
      StrLeTotal(a, a);
      assert Least(a, s);
    } else {
      HasLeast(rest);
      var m :| Least(m, rest);
      StrLeTotal(a, m);
      if StrLe(a, m) {
        forall y | y in s ensures StrLe(a, y) {
          if y == a { StrLeTotal(a, a); } else { assert y in rest; StrLeTransitive(a, m, y); }
        }
        assert Least(a, s);
      } else {
        forall y | y in s ensures StrLe(m, y) {
          if y != a { assert y in rest; }
        }
        assert Least(m, s);
      }
    }
  }

  /** The keys of s, each once, in lexicographic order. */
  function SortedKeys(s: set<string>): (r: seq<string>)
    ensures Distinct(r) && (forall i :: 0 <= i < |r| ==> r[i] in s) && (forall k :: k in s ==> k in r)
    ensures forall i, j :: 0 <= i < j < |r| ==> StrLe(r[i], r[j])
    decreases |s|
  {
    if s == {} then []
    else
      HasLeast(s);
      LeastUnique(s);
      var x :| Least(x, s);
      [x] + SortedKeys(s - {x})
  }

  /** sum(values) over a key sequence. */
  function SumOver<K(==)>(keys: seq<K>, m: map<K, real>): real
    requires forall k :: k in keys ==> k in m
  {
    if keys == [] then 0.0 else SumOver(keys[..|keys| - 1], m) + m[keys[|keys| - 1]]
  }
}
