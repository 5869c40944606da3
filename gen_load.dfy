// The generation data loaders: the schema checks over parsed planet-type and
// system-template documents, and the weighted-choice helper. A
// GenerationSchemaError is a Schema error naming the check that failed and
// the entry its message names (a key, a planet type or template id, a table
// or a resource).

module GenLoad {
  import opened Base
  import opened Docs

  // ---------------------------------------------------------------------
  // Python's `in` on a parsed value
  // ---------------------------------------------------------------------

  /** key occurs in s as a contiguous run. */
  predicate Substring(key: string, s: string)
    decreases |s|
  {
    |key| <= |s| && (s[..|key|] == key || (s != [] && Substring(key, s[1..])))
  }

  /** key in v: a key of a mapping, an item of a list, a substring of a
      string; a TypeError on anything that is not iterable. */
  function In(key: string, v: Value): (r: Result<bool>)
    ensures r.Fail? <==> v.Null? || v.Bool? || v.Int? || v.Float?
    ensures v.Obj? ==> r == Ok(key in v.fields.vals)
  {
    match v
    case Obj(fields) => Ok(key in fields.vals)
    case List(items) => Ok(Str(key) in items)
    case Str(s) => Ok(Substring(key, s))
    case _ => Fail(TypeMismatch("argument is not iterable"))
  }

  /** key in v, where v is known to be iterable. */
  predicate Has(key: string, v: Value) {
    In(key, v) == Ok(true)
  }

  // ---------------------------------------------------------------------
  // _process_weights_for_random_selection (lines 14-21)
  // ---------------------------------------------------------------------

  function WeightsOf(choices: seq<Value>): Result<seq<Value>>
    decreases |choices|
  {
    if choices == [] then Ok([])
    else
      var w :- Field(choices[0], "weight");
      var rest :- WeightsOf(choices[1..]);
      Ok([w] + rest)
  }

  /** The choices as they are and the weight of each, in the same order. */
  function ProcessWeights(choices: seq<Value>): Result<(seq<Value>, seq<Value>)> {
    var ws :- WeightsOf(choices);
    Ok((choices, ws))
  }

  lemma {:induction false} WeightsOfPaired(choices: seq<Value>)
    ensures WeightsOf(choices).Ok? <==> forall i :: 0 <= i < |choices| ==> HasKey(choices[i], "weight")
    ensures WeightsOf(choices).Ok? ==>
      |WeightsOf(choices).value| == |choices| &&
      forall i :: 0 <= i < |choices| ==> WeightsOf(choices).value[i] == choices[i].fields.vals["weight"]
    decreases |choices|
  {
    if choices != [] {
      WeightsOfPaired(choices[1..]);
      assert forall i :: 1 <= i < |choices| ==> choices[i] == choices[1..][i - 1];
    }
  }

  lemma {:induction false} WeightsOfFirstError(choices: seq<Value>, i: nat)
    requires i < |choices| && !HasKey(choices[i], "weight")
    requires forall j :: 0 <= j < i ==> HasKey(choices[j], "weight")
    ensures WeightsOf(choices) == Fail(Field(choices[i], "weight").error)
    decreases i
  {
    if i > 0 {
      WeightsOfFirstError(choices[1..], i - 1);
    }
  }

  /** The two lists have the input's length, the choices are the input and
      weights[i] is choices[i]["weight"]; an entry without a weight raises
      the error of the first such entry. */
  lemma ProcessWeightsPaired(choices: seq<Value>)
    ensures var r := ProcessWeights(choices);
      (r.Ok? <==> forall i :: 0 <= i < |choices| ==> HasKey(choices[i], "weight")) &&
      (r.Ok? ==>
        r.value.0 == choices && |r.value.1| == |choices| &&
        forall i :: 0 <= i < |choices| ==> r.value.1[i] == choices[i].fields.vals["weight"])
    ensures forall i ::
      (0 <= i < |choices| && !HasKey(choices[i], "weight") && forall j :: 0 <= j < i ==> HasKey(choices[j], "weight")) ==>
      ProcessWeights(choices) == Fail(Field(choices[i], "weight").error)
  {
    WeightsOfPaired(choices);
    forall i | 0 <= i < |choices| && !HasKey(choices[i], "weight") && (forall j :: 0 <= j < i ==> HasKey(choices[j], "weight"))
      ensures ProcessWeights(choices) == Fail(Field(choices[i], "weight").error)
    {
      WeightsOfFirstError(choices, i);
    }
  }

  // ---------------------------------------------------------------------
  // validate_resource_potential_definition (lines 24-35)
  // ---------------------------------------------------------------------

  /** A two-number list with lo <= hi. */
  predicate RangeOk(r: Value) {
    r.List? && |r.items| == 2 && IsNumber(r.items[0]) && IsNumber(r.items[1]) &&
    NumberOf(r.items[0]) <= NumberOf(r.items[1])
  }

  /** A mapping with a numeric value and a numeric weight >= 0. */
  predicate BinOk(b: Value) {
    b.Obj? && "value" in b.fields.vals && "weight" in b.fields.vals &&
    IsNumber(b.fields.vals["value"]) && IsNumber(b.fields.vals["weight"]) &&
    NumberOf(b.fields.vals["weight"]) >= 0.0
  }

  predicate BinsOk(b: Value) {
    b.List? && forall i :: 0 <= i < |b.items| ==> BinOk(b.items[i])
  }

  function ValidatePotential(pd: Value, rid: string): Result<()> {
    var hasRange :- In("range", pd);
    if hasRange then
      var rd :- Field(pd, "range");
      if RangeOk(rd) then Ok(()) else Fail(Schema(BadRange, rid))
    else
      if Has("bins", pd) then
        var bd :- Field(pd, "bins");
        if BinsOk(bd) then Ok(()) else Fail(Schema(BadBins, rid))
      else Fail(Schema(NoRangeOrBins, rid))
  }

  /** A sound potential: a mapping with a valid range, or with no range and
      valid bins. */
  predicate SoundPotential(pd: Value) {
    pd.Obj? &&
    if "range" in pd.fields.vals then RangeOk(pd.fields.vals["range"])
    else "bins" in pd.fields.vals && BinsOk(pd.fields.vals["bins"])
  }

  /** A potential passes iff it is sound; a range takes precedence over
      bins, and a mapping with neither is reported as such. */
  lemma PotentialSound(pd: Value, rid: string)
    ensures ValidatePotential(pd, rid).Ok? <==> SoundPotential(pd)
    ensures pd.Obj? && "range" !in pd.fields.vals && "bins" !in pd.fields.vals ==>
      ValidatePotential(pd, rid) == Fail(Schema(NoRangeOrBins, rid))
    ensures pd.Obj? && "range" in pd.fields.vals && !RangeOk(pd.fields.vals["range"]) ==>
      ValidatePotential(pd, rid) == Fail(Schema(BadRange, rid))
    ensures pd.Obj? && "range" !in pd.fields.vals && "bins" in pd.fields.vals && !BinsOk(pd.fields.vals["bins"]) ==>
      ValidatePotential(pd, rid) == Fail(Schema(BadBins, rid))
  {
  }

  // ---------------------------------------------------------------------
  // validate_planet_type_schema (lines 38-81)
  // ---------------------------------------------------------------------

  const GTE: string := "when_habitability_gte"
  const LT: string := "when_habitability_lt"
  const PLANET_KEYS: seq<string> := ["id", "name", "weight", "habitability_distribution", "resource_tables"]
  const TEMPLATE_KEYS: seq<string> := ["id", "name", "min_planets", "max_planets", "planet_type_weights"]

  predicate NonEmptyString(v: Value) { v.Str? && v.s != "" }
  predicate Positive(v: Value) { IsNumber(v) && NumberOf(v) > 0.0 }
  predicate InUnitRange(v: Value) { IsNumber(v) && 0.0 <= NumberOf(v) <= 1.0 }

  /** The first of keys that v lacks, checked in order. */
  function FirstMissing(v: Value, keys: seq<string>): Result<Option<string>>
    decreases |keys|
  {
    if keys == [] then Ok(None)
    else
      var has :- In(keys[0], v);
      if !has then Ok(Some(keys[0])) else FirstMissing(v, keys[1..])
  }

  /** The loop over required keys: a missing key is reported by name (the
      message reads v.get('id'), an AttributeError when v is not a mapping). */
  function RequireKeys(v: Value, keys: seq<string>): Result<()> {
    var m :- FirstMissing(v, keys);
    if m.None? then Ok(())
    else if !v.Obj? then Fail(MissingComponent("get"))
    else Fail(Schema(MissingField, m.value))
  }

  lemma {:induction false} RequireKeysObj(v: Value, keys: seq<string>)
    requires v.Obj?
    ensures RequireKeys(v, keys).Ok? <==> forall i :: 0 <= i < |keys| ==> keys[i] in v.fields.vals
    ensures forall i :: 0 <= i < |keys| && keys[i] !in v.fields.vals && (forall j :: 0 <= j < i ==> keys[j] in v.fields.vals) ==>
      RequireKeys(v, keys) == Fail(Schema(MissingField, keys[i]))
    decreases |keys|
  {
    if keys != [] {
      RequireKeysObj(v, keys[1..]);
      assert forall i :: 1 <= i < |keys| ==> keys[i] == keys[1..][i - 1];
    }
  }

  /** The band and weight of one distribution entry, which has both keys. */
  predicate BandOk(h: Value)
    requires h.Obj? && "band" in h.fields.vals && "weight" in h.fields.vals
  {
    var band := h.fields.vals["band"];
    band.List? && |band.items| == 2 && InUnitRange(band.items[0]) && InUnitRange(band.items[1]) &&
    NumberOf(band.items[0]) <= NumberOf(band.items[1]) && Positive(h.fields.vals["weight"])
  }

  /** The condition on one distribution entry. */
  function BandCheck(h: Value): Result<bool> {
    var b :- In("band", h);
    if !b then Ok(false)
    else
      if !Has("weight", h) then Ok(false)
      else if !h.Obj? then Fail(TypeMismatch("not a mapping"))
      else Ok(BandOk(h))
  }


  predicate SoundBand(h: Value) {
    h.Obj? && "band" in h.fields.vals && "weight" in h.fields.vals && BandOk(h)
  }

  lemma BandCheckSound(h: Value)
    ensures BandCheck(h) == Ok(true) <==> SoundBand(h)
  {
  }

  // ---------------------------------------------------------------------
  // The loops: each entry is checked in turn and the first failure raised
  // ---------------------------------------------------------------------

  function FirstError(rs: seq<Result<()>>): Result<()>
    decreases |rs|
  {
    if rs == [] then Ok(())
    else if rs[0].Fail? then rs[0]
    else FirstError(rs[1..])
  }

  /** The loop passes iff every entry passes, and otherwise raises what the
      first failing entry raises. */
  lemma {:induction false} FirstErrorIs(rs: seq<Result<()>>)
    ensures FirstError(rs).Ok? <==> forall j :: 0 <= j < |rs| ==> rs[j].Ok?
    ensures forall k :: (0 <= k < |rs| && rs[k].Fail? && forall j :: 0 <= j < k ==> rs[j].Ok?) ==> FirstError(rs) == rs[k]
    decreases |rs|
  {
    if rs != [] {
      FirstErrorIs(rs[1..]);
      assert forall j :: 1 <= j < |rs| ==> rs[j] == rs[1..][j - 1];
    }
  }

  /** The text of an id in a message. */
  function Text(v: Value): string {
    if v.Str? then v.s else ""
  }

  // ---------------------------------------------------------------------
  // The habitability distribution (lines 56-60)
  // ---------------------------------------------------------------------

  function BandResult(h: Value, pid: string): Result<()> {
    var ok :- BandCheck(h);
    if ok then Ok(()) else Fail(Schema(BadBand, pid))
  }

  function BandResults(hs: seq<Value>, pid: string): (rs: seq<Result<()>>)
    ensures |rs| == |hs| && forall j :: 0 <= j < |hs| ==> rs[j] == BandResult(hs[j], pid)
  {
    seq(|hs|, j requires 0 <= j < |hs| => BandResult(hs[j], pid))
  }

  function ValidateBands(hs: seq<Value>, pid: string): Result<()> {
    FirstError(BandResults(hs, pid))
  }

  lemma BandsSound(hs: seq<Value>, pid: string)
    ensures ValidateBands(hs, pid).Ok? <==> forall i :: 0 <= i < |hs| ==> SoundBand(hs[i])
  {
    var rs := BandResults(hs, pid);
    FirstErrorIs(rs);
    forall i | 0 <= i < |hs| ensures rs[i].Ok? <==> SoundBand(hs[i]) {
      BandCheckSound(hs[i]);
    }
  }

  // ---------------------------------------------------------------------
  // Resource tables (lines 62-81)
  // ---------------------------------------------------------------------

  function PotentialResults(d: Dict<string, Value>): (rs: seq<Result<()>>)
    requires d.Valid()
    ensures |rs| == |d.keys| && forall j :: 0 <= j < |d.keys| ==> rs[j] == ValidatePotential(d.vals[d.keys[j]], d.keys[j])
  {
    seq(|d.keys|, j requires 0 <= j < |d.keys| => ValidatePotential(d.vals[d.keys[j]], d.keys[j]))
  }

  /** The potentials of one table, in key order. */
  function ValidatePotentials(d: Dict<string, Value>): Result<()>
    requires d.Valid()
  {
    FirstError(PotentialResults(d))
  }

  lemma PotentialsSound(d: Dict<string, Value>)
    requires d.Valid()
    ensures ValidatePotentials(d).Ok? <==> forall k :: k in d.vals ==> SoundPotential(d.vals[k])
  {
    var rs := PotentialResults(d);
    FirstErrorIs(rs);
    forall j | 0 <= j < |d.keys| ensures rs[j].Ok? <==> SoundPotential(d.vals[d.keys[j]]) {
      PotentialSound(d.vals[d.keys[j]], d.keys[j]);
    }
    forall k | k in d.vals ensures exists j :: 0 <= j < |d.keys| && d.keys[j] == k {
      assert k in d.keys;
    }
  }

  /** The checks on one table before its potentials are read: potentials
      plus exactly one threshold, and the threshold a number in [0, 1]. */
  function TableHeader(t: Value, name: string, pid: string): (r: Result<()>)
    ensures r.Ok? ==> t.Obj? && "potentials" in t.fields.vals
  {
    var p :- In("potentials", t);
    if !(p && (Has(GTE, t) || Has(LT, t))) then
      Fail(Schema(TableIncomplete, name))
    else if Has(GTE, t) && Has(LT, t) then
      Fail(Schema(BothThresholds, name))
    else if !t.Obj? then Fail(TypeMismatch("not a mapping"))
    else if GTE in t.fields.vals && !InUnitRange(t.fields.vals[GTE]) then
      Fail(Schema(BadGte, name))
    else if LT in t.fields.vals && !InUnitRange(t.fields.vals[LT]) then
      Fail(Schema(BadLt, name))
    else Ok(())
  }

  predicate SoundHeader(t: Value) {
    t.Obj? && "potentials" in t.fields.vals && ((GTE in t.fields.vals) != (LT in t.fields.vals)) &&
    (GTE in t.fields.vals ==> InUnitRange(t.fields.vals[GTE])) &&
    (LT in t.fields.vals ==> InUnitRange(t.fields.vals[LT]))
  }

  lemma HeaderSound(t: Value, name: string, pid: string)
    ensures TableHeader(t, name, pid).Ok? <==> SoundHeader(t)
  {
    if t.Obj? {
      assert Has(GTE, t) <==> GTE in t.fields.vals;
      assert Has(LT, t) <==> LT in t.fields.vals;
    }
  }

  /** One resource table: its header, then its potentials, a mapping of
      sound potentials. */
  function ValidateTable(t: Value, name: string, pid: string): Result<()>
    requires WellFormed(t)
  {
    var _ :- TableHeader(t, name, pid);
    var pots := t.fields.vals["potentials"];
    if !pots.Obj? then Fail(Schema(BadPotentials, name))
    else
      WellFormedField(t, "potentials");
      ValidatePotentials(pots.fields)
  }

  predicate SoundTable(t: Value) {
    SoundHeader(t) && t.fields.vals["potentials"].Obj? &&
    forall k :: k in t.fields.vals["potentials"].fields.vals ==> SoundPotential(t.fields.vals["potentials"].fields.vals[k])
  }

  lemma TableSound(t: Value, name: string, pid: string)
    requires WellFormed(t)
    ensures ValidateTable(t, name, pid).Ok? <==> SoundTable(t)
  {
    HeaderSound(t, name, pid);
    if SoundHeader(t) && t.fields.vals["potentials"].Obj? {
      WellFormedField(t, "potentials");
      PotentialsSound(t.fields.vals["potentials"].fields);
    }
  }

  function TableResults(d: Dict<string, Value>, pid: string): (rs: seq<Result<()>>)
    requires d.Valid() && forall k :: k in d.vals ==> WellFormed(d.vals[k])
    ensures |rs| == |d.keys| && forall j :: 0 <= j < |d.keys| ==> rs[j] == ValidateTable(d.vals[d.keys[j]], d.keys[j], pid)
  {
    seq(|d.keys|, j requires 0 <= j < |d.keys| => ValidateTable(d.vals[d.keys[j]], d.keys[j], pid))
  }

  function ValidateTables(d: Dict<string, Value>, pid: string): Result<()>
    requires d.Valid() && forall k :: k in d.vals ==> WellFormed(d.vals[k])
  {
    FirstError(TableResults(d, pid))
  }

  lemma TablesSound(d: Dict<string, Value>, pid: string)
    requires d.Valid() && forall k :: k in d.vals ==> WellFormed(d.vals[k])
    ensures ValidateTables(d, pid).Ok? <==> forall k :: k in d.vals ==> SoundTable(d.vals[k])
  {
    var rs := TableResults(d, pid);
    FirstErrorIs(rs);
    forall j | 0 <= j < |d.keys| ensures rs[j].Ok? <==> SoundTable(d.vals[d.keys[j]]) {
      TableSound(d.vals[d.keys[j]], d.keys[j], pid);
    }
    forall k | k in d.vals ensures exists j :: 0 <= j < |d.keys| && d.keys[j] == k {
      assert k in d.keys;
    }
  }

  // ---------------------------------------------------------------------
  // One planet type (lines 43-81)
  // ---------------------------------------------------------------------

  predicate HasPlanetKeys(pt: Value) {
    pt.Obj? && "id" in pt.fields.vals && "name" in pt.fields.vals && "weight" in pt.fields.vals &&
    "habitability_distribution" in pt.fields.vals && "resource_tables" in pt.fields.vals
  }

  lemma PlanetKeys(pt: Value)
    requires pt.Obj?
    ensures RequireKeys(pt, PLANET_KEYS).Ok? <==> HasPlanetKeys(pt)
    ensures forall i :: (0 <= i < |PLANET_KEYS| && PLANET_KEYS[i] !in pt.fields.vals && forall j :: 0 <= j < i ==> PLANET_KEYS[j] in pt.fields.vals) ==>
      RequireKeys(pt, PLANET_KEYS) == Fail(Schema(MissingField, PLANET_KEYS[i]))
  {
    RequireKeysObj(pt, PLANET_KEYS);
  }

  /** The checks before the distribution's entries: the keys, the id, the
      name, the weight, and a non-empty distribution list. */
  function PlanetHeader(pt: Value): (r: Result<()>)
    ensures r.Ok? ==> HasPlanetKeys(pt) && pt.fields.vals["habitability_distribution"].List?
  {
    var _ :- RequireKeys(pt, PLANET_KEYS);
    if !pt.Obj? then Fail(TypeMismatch("not a mapping"))
    else
      PlanetKeys(pt);
      var f := pt.fields.vals;
      if !NonEmptyString(f["id"]) then Fail(Schema(BadId, Text(f["id"])))
      else if !NonEmptyString(f["name"]) then Fail(Schema(BadName, Text(f["id"])))
      else if !Positive(f["weight"]) then Fail(Schema(BadWeight, Text(f["id"])))
      else if !(f["habitability_distribution"].List? && |f["habitability_distribution"].items| > 0) then
        Fail(Schema(BadDistribution, Text(f["id"])))
      else Ok(())
  }

  predicate SoundPlanetHeader(pt: Value) {
    HasPlanetKeys(pt) &&
    NonEmptyString(pt.fields.vals["id"]) && NonEmptyString(pt.fields.vals["name"]) && Positive(pt.fields.vals["weight"]) &&
    pt.fields.vals["habitability_distribution"].List? && |pt.fields.vals["habitability_distribution"].items| > 0
  }

  lemma PlanetHeaderSound(pt: Value)
    ensures PlanetHeader(pt).Ok? <==> SoundPlanetHeader(pt)
  {
    if pt.Obj? {
      PlanetKeys(pt);
    }
  }

  /** The checks on one planet type, in the loader's order, the first
      failure reported. */
  function ValidatePlanetType(pt: Value): Result<()>
    requires WellFormed(pt)
  {
    var _ :- PlanetHeader(pt);
    var f := pt.fields.vals;
    var _ :- ValidateBands(f["habitability_distribution"].items, Text(f["id"]));
    var rt := f["resource_tables"];
    if !rt.Obj? then Fail(Schema(BadResourceTables, Text(f["id"])))
    else
      WellFormedField(pt, "resource_tables");
      ValidateTables(rt.fields, Text(f["id"]))
  }

  /** What a planet type must be: all five keys; a non-empty string id and
      name; a positive weight; a non-empty distribution of sound bands; a
      mapping of sound resource tables. */
  predicate SoundPlanetType(pt: Value) {
    SoundPlanetHeader(pt) &&
    (forall i :: 0 <= i < |pt.fields.vals["habitability_distribution"].items| ==>
      SoundBand(pt.fields.vals["habitability_distribution"].items[i])) &&
    pt.fields.vals["resource_tables"].Obj? &&
    forall k :: k in pt.fields.vals["resource_tables"].fields.vals ==> SoundTable(pt.fields.vals["resource_tables"].fields.vals[k])
  }

  lemma PlanetTypeSound(pt: Value)
    requires WellFormed(pt)
    ensures ValidatePlanetType(pt).Ok? <==> SoundPlanetType(pt)
  {
    PlanetHeaderSound(pt);
    if SoundPlanetHeader(pt) {
      var f := pt.fields.vals;
      BandsSound(f["habitability_distribution"].items, Text(f["id"]));
      if f["resource_tables"].Obj? {
        WellFormedField(pt, "resource_tables");
        TablesSound(f["resource_tables"].fields, Text(f["id"]));
      }
    }
  }

  /** The first missing key is the one reported, in the order id, name,
      weight, habitability_distribution, resource_tables. */
  lemma PlanetTypeMissingKey(pt: Value, i: nat)
    requires WellFormed(pt) && pt.Obj? && i < |PLANET_KEYS|
    requires PLANET_KEYS[i] !in pt.fields.vals && forall j :: 0 <= j < i ==> PLANET_KEYS[j] in pt.fields.vals
    ensures ValidatePlanetType(pt) == Fail(Schema(MissingField, PLANET_KEYS[i]))
  {
    PlanetKeys(pt);
  }

  /** A bad weight is reported before anything about the distribution or
      the tables is looked at. */
  lemma PlanetTypeWeightFirst(pt: Value)
    requires WellFormed(pt) && HasPlanetKeys(pt)
    requires NonEmptyString(pt.fields.vals["id"]) && NonEmptyString(pt.fields.vals["name"])
    requires !Positive(pt.fields.vals["weight"])
    ensures ValidatePlanetType(pt) == Fail(Schema(BadWeight, pt.fields.vals["id"].s))
  {
    PlanetKeys(pt);
  }

  // ---------------------------------------------------------------------
  // validate_planet_type_schema (lines 38-43)
  // ---------------------------------------------------------------------

  function PlanetTypeResults(items: seq<Value>): (rs: seq<Result<()>>)
    requires forall j :: 0 <= j < |items| ==> WellFormed(items[j])
    ensures |rs| == |items| && forall j :: 0 <= j < |items| ==> rs[j] == ValidatePlanetType(items[j])
  {
    seq(|items|, j requires 0 <= j < |items| => ValidatePlanetType(items[j]))
  }

  /** The top level is a list, and each entry is checked in order. */
  function ValidatePlanetTypes(data: Value): Result<()>
    requires WellFormed(data)
  {
    if !data.List? then Fail(Schema(NotAList, "planet_types"))
    else FirstError(PlanetTypeResults(data.items))
  }

  /** The planet-type document passes iff it is a list of sound planet
      types, and otherwise the first failing entry's error is raised. */
  lemma PlanetTypesSound(data: Value)
    requires WellFormed(data)
    ensures ValidatePlanetTypes(data).Ok? <==> data.List? && forall j :: 0 <= j < |data.items| ==> SoundPlanetType(data.items[j])
    ensures data.List? ==> forall k ::
      (0 <= k < |data.items| && ValidatePlanetType(data.items[k]).Fail? && forall j :: 0 <= j < k ==> ValidatePlanetType(data.items[j]).Ok?) ==>
      ValidatePlanetTypes(data) == ValidatePlanetType(data.items[k])
  {
    if data.List? {
      var rs := PlanetTypeResults(data.items);
      FirstErrorIs(rs);
      forall j | 0 <= j < |data.items| ensures rs[j].Ok? <==> SoundPlanetType(data.items[j]) {
        PlanetTypeSound(data.items[j]);
      }
    }
  }

  // ---------------------------------------------------------------------
  // validate_system_template_schema (lines 84-106)
  // ---------------------------------------------------------------------

  predicate WeightOk(w: Value) { IsNumber(w) && NumberOf(w) >= 0.0 }

  function WeightResults(d: Dict<string, Value>, sid: string): (rs: seq<Result<()>>)
    requires d.Valid()
    ensures |rs| == |d.keys| && forall j :: 0 <= j < |d.keys| ==>
      rs[j] == if WeightOk(d.vals[d.keys[j]]) then Ok(())
               else Fail(Schema(BadTypeWeight, d.keys[j]))
  {
    seq(|d.keys|, j requires 0 <= j < |d.keys| =>
      if WeightOk(d.vals[d.keys[j]]) then Ok(())
      else Fail(Schema(BadTypeWeight, d.keys[j])))
  }

  predicate HasTemplateKeys(st: Value) {
    st.Obj? && "id" in st.fields.vals && "name" in st.fields.vals && "min_planets" in st.fields.vals &&
    "max_planets" in st.fields.vals && "planet_type_weights" in st.fields.vals
  }

  lemma TemplateKeys(st: Value)
    requires st.Obj?
    ensures RequireKeys(st, TEMPLATE_KEYS).Ok? <==> HasTemplateKeys(st)
    ensures forall i :: (0 <= i < |TEMPLATE_KEYS| && TEMPLATE_KEYS[i] !in st.fields.vals && forall j :: 0 <= j < i ==> TEMPLATE_KEYS[j] in st.fields.vals) ==>
      RequireKeys(st, TEMPLATE_KEYS) == Fail(Schema(MissingField, TEMPLATE_KEYS[i]))
  {
    RequireKeysObj(st, TEMPLATE_KEYS);
  }

  /** The checks on one system template before its weights: the keys, the
      id, the name, the planet counts and a non-empty weight mapping. */
  function TemplateHeader(st: Value): (r: Result<()>)
    ensures r.Ok? ==> HasTemplateKeys(st) && st.fields.vals["planet_type_weights"].Obj?
  {
    var _ :- RequireKeys(st, TEMPLATE_KEYS);
    if !st.Obj? then Fail(TypeMismatch("not a mapping"))
    else
      TemplateKeys(st);
      var f := st.fields.vals;
      if !NonEmptyString(f["id"]) then Fail(Schema(BadId, Text(f["id"])))
      else if !NonEmptyString(f["name"]) then Fail(Schema(BadName, Text(f["id"])))
      else if !(IsInteger(f["min_planets"]) && NumberOf(f["min_planets"]) >= 0.0) then
        Fail(Schema(BadMinPlanets, Text(f["id"])))
      else if !(IsInteger(f["max_planets"]) && NumberOf(f["max_planets"]) >= NumberOf(f["min_planets"])) then
        Fail(Schema(BadMaxPlanets, Text(f["id"])))
      else if !(f["planet_type_weights"].Obj? && |f["planet_type_weights"].fields.keys| > 0) then
        Fail(Schema(BadTypeWeights, Text(f["id"])))
      else Ok(())
  }

  predicate SoundTemplateHeader(st: Value) {
    HasTemplateKeys(st) &&
    NonEmptyString(st.fields.vals["id"]) && NonEmptyString(st.fields.vals["name"]) &&
    IsInteger(st.fields.vals["min_planets"]) && NumberOf(st.fields.vals["min_planets"]) >= 0.0 &&
    IsInteger(st.fields.vals["max_planets"]) && NumberOf(st.fields.vals["max_planets"]) >= NumberOf(st.fields.vals["min_planets"]) &&
    st.fields.vals["planet_type_weights"].Obj? && |st.fields.vals["planet_type_weights"].fields.keys| > 0
  }

  lemma TemplateHeaderSound(st: Value)
    ensures TemplateHeader(st).Ok? <==> SoundTemplateHeader(st)
  {
    if st.Obj? {
      TemplateKeys(st);
    }
  }

  /** The checks on one system template, in the loader's order. */
  function ValidateTemplate(st: Value): Result<()>
    requires WellFormed(st)
  {
    var _ :- TemplateHeader(st);
    WellFormedField(st, "planet_type_weights");
    FirstError(WeightResults(st.fields.vals["planet_type_weights"].fields, Text(st.fields.vals["id"])))
  }

  /** What a system template must be: all five keys; a non-empty string id
      and name; min_planets an int >= 0 and max_planets an int >= it; a
      non-empty mapping of planet-type weights, each a number >= 0. */
  predicate SoundTemplate(st: Value) {
    SoundTemplateHeader(st) &&
    forall k :: k in st.fields.vals["planet_type_weights"].fields.vals ==> WeightOk(st.fields.vals["planet_type_weights"].fields.vals[k])
  }

  lemma TemplateSound(st: Value)
    requires WellFormed(st)
    ensures ValidateTemplate(st).Ok? <==> SoundTemplate(st)
  {
    TemplateHeaderSound(st);
    if SoundTemplateHeader(st) {
      WellFormedField(st, "planet_type_weights");
      var d := st.fields.vals["planet_type_weights"].fields;
      var rs := WeightResults(d, Text(st.fields.vals["id"]));
      FirstErrorIs(rs);
      forall k | k in d.vals ensures exists j :: 0 <= j < |d.keys| && d.keys[j] == k {
        assert k in d.keys;
      }
    }
  }

  /** The first missing template key is the one reported. */
  lemma TemplateMissingKey(st: Value, i: nat)
    requires WellFormed(st) && st.Obj? && i < |TEMPLATE_KEYS|
    requires TEMPLATE_KEYS[i] !in st.fields.vals && forall j :: 0 <= j < i ==> TEMPLATE_KEYS[j] in st.fields.vals
    ensures ValidateTemplate(st) == Fail(Schema(MissingField, TEMPLATE_KEYS[i]))
  {
    TemplateKeys(st);
  }

  function TemplateResults(items: seq<Value>): (rs: seq<Result<()>>)
    requires forall j :: 0 <= j < |items| ==> WellFormed(items[j])
    ensures |rs| == |items| && forall j :: 0 <= j < |items| ==> rs[j] == ValidateTemplate(items[j])
  {
    seq(|items|, j requires 0 <= j < |items| => ValidateTemplate(items[j]))
  }

  /** validate_system_template_schema */
  function ValidateTemplates(data: Value): Result<()>
    requires WellFormed(data)
  {
    if !data.List? then Fail(Schema(NotAList, "system_templates"))
    else FirstError(TemplateResults(data.items))
  }

  /** The template document passes iff it is a list of sound templates, and
      otherwise the first failing entry's error is raised. */
  lemma TemplatesSound(data: Value)
    requires WellFormed(data)
    ensures ValidateTemplates(data).Ok? <==> data.List? && forall j :: 0 <= j < |data.items| ==> SoundTemplate(data.items[j])
    ensures data.List? ==> forall k ::
      (0 <= k < |data.items| && ValidateTemplate(data.items[k]).Fail? && forall j :: 0 <= j < k ==> ValidateTemplate(data.items[j]).Ok?) ==>
      ValidateTemplates(data) == ValidateTemplate(data.items[k])
  {
    if data.List? {
      var rs := TemplateResults(data.items);
      FirstErrorIs(rs);
      forall j | 0 <= j < |data.items| ensures rs[j].Ok? <==> SoundTemplate(data.items[j]) {
        TemplateSound(data.items[j]);
      }
    }
  }
}
