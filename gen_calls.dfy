// generation/system_gen.py against the modules it binds to and the code that
// calls it: the names its import statement asks of generation/load.py
// (line 10), the keywords generate_planet passes to the Planet dataclass of
// generation/model.py (lines 128-134), the keywords generate_universe passes
// to UniverseState (line 185), and the arguments its callers pass to
// generate_universe (line 177).

module GenCalls {
  import opened Base

  /** The first name, in order, that is not among the known ones. */
  function FirstUnknown(known: set<string>, names: seq<string>): Option<string>
    decreases |names|
  {
    if names == [] then None
    else if names[0] !in known then Some(names[0])
    else FirstUnknown(known, names[1..])
  }

  /** None exactly when every name is known; otherwise the name reported is
      unknown and every name before its first occurrence is known. */
  lemma {:induction false} FirstUnknownFacts(known: set<string>, names: seq<string>)
    ensures FirstUnknown(known, names).None? <==> forall i :: 0 <= i < |names| ==> names[i] in known
    ensures FirstUnknown(known, names).Some? ==>
      exists i :: 0 <= i < |names| && names[i] == FirstUnknown(known, names).value && names[i] !in known &&
        forall j :: 0 <= j < i ==> names[j] in known
    decreases |names|
  {
    if names != [] && names[0] in known {
      FirstUnknownFacts(known, names[1..]);
      if FirstUnknown(known, names[1..]).Some? {
        var i :| 0 <= i < |names[1..]| && names[1..][i] == FirstUnknown(known, names[1..]).value && names[1..][i] !in known &&
          forall j :: 0 <= j < i ==> names[1..][j] in known;
        assert names[i + 1] == names[1..][i];
        forall j | 0 <= j < i + 1 ensures names[j] in known {
          if j > 0 { assert names[j] == names[1..][j - 1]; }
        }
      }
      forall i | 0 < i < |names| ensures names[i] == names[1..][i - 1] { }
    }
  }

  /** `from M import n1, n2, ...`: an ImportError at the first name M does not define. */
  function ImportFrom(defined: set<string>, names: seq<string>): (r: Result<()>)
    ensures r.Ok? <==> FirstUnknown(defined, names).None?
    ensures r.Fail? ==> r.error == Unimportable(FirstUnknown(defined, names).value)
  {
    match FirstUnknown(defined, names)
    case None => Ok(())
    case Some(n) => Fail(Unimportable(n))
  }

  /** A call by keyword: a TypeError at the first keyword that is not a
      parameter, otherwise at a parameter without a default that is left out. */
  function CallByKeyword(params: set<string>, required: set<string>, keywords: seq<string>): (r: Result<()>)
    ensures r.Ok? <==> FirstUnknown(params, keywords).None? && forall k :: k in required ==> k in keywords
    ensures FirstUnknown(params, keywords).Some? ==> r == Fail(TypeMismatch(FirstUnknown(params, keywords).value))
  {
    match FirstUnknown(params, keywords)
    case Some(k) => Fail(TypeMismatch(k))
    case None => if forall k :: k in required ==> k in keywords then Ok(()) else Fail(TypeMismatch("missing argument"))
  }

  /** The module-level names of generation/load.py: its own classes and
      functions and the names it imports. */
  const LOAD_NAMES: set<string> := {
    "annotations", "Path", "Dict", "List", "Any", "Union", "yaml", "CommodityId",
    "GenerationSchemaError", "_process_weights_for_random_selection",
    "validate_resource_potential_definition", "validate_planet_type_schema",
    "validate_system_template_schema", "load_planet_types", "load_system_templates",
    "load_habitability_tables"}

  /** The names system_gen.py's import statement asks for, as written. */
  const SYSTEM_GEN_IMPORTS: seq<string> :=
    ["load_planet_types", "load_system_templates", "load_planet_names", "load_system_names",
     "_process_weights_for_random_selection"]

  /** The same statement without the two names no code in system_gen.py calls. */
  const SYSTEM_GEN_IMPORTS_USED: seq<string> :=
    ["load_planet_types", "load_system_templates", "_process_weights_for_random_selection"]

  /** As written, importing system_gen.py raises ImportError on load_planet_names,
      which generation/load.py does not define. */
  lemma SystemGenImportFails()
    ensures ImportFrom(LOAD_NAMES, SYSTEM_GEN_IMPORTS) == Fail(Unimportable("load_planet_names"))
  {
    assert "load_planet_types" in LOAD_NAMES && "load_system_templates" in LOAD_NAMES;
    assert "load_planet_names" !in LOAD_NAMES;
  }

  /** Importing only the names the module uses succeeds. */
  lemma SystemGenImportUsedSucceeds()
    ensures ImportFrom(LOAD_NAMES, SYSTEM_GEN_IMPORTS_USED) == Ok(())
  {
    FirstUnknownFacts(LOAD_NAMES, SYSTEM_GEN_IMPORTS_USED);
  }

  /** The parameters of Planet's generated __init__, and those without a default. */
  const PLANET_PARAMETERS: set<string> := {"type", "habitability", "resource_potentials", "tags"}
  const PLANET_REQUIRED: set<string> := {"type", "habitability"}

  /** The keywords generate_planet passes to Planet, as written. */
  const GENERATE_PLANET_KEYWORDS: seq<string> := ["type", "name", "habitability", "resource_potentials", "tags"]

  /** The same call without the name the dataclass has no field for. */
  const GENERATE_PLANET_FIELDS: seq<string> := ["type", "habitability", "resource_potentials", "tags"]

  /** As written, generate_planet's call to Planet is a TypeError on the keyword name. */
  lemma GeneratePlanetCallFails()
    ensures CallByKeyword(PLANET_PARAMETERS, PLANET_REQUIRED, GENERATE_PLANET_KEYWORDS) == Fail(TypeMismatch("name"))
  {
    assert "type" in PLANET_PARAMETERS && "name" !in PLANET_PARAMETERS;
  }

  /** Without the name keyword the call binds every field, as GenModel.Planet has them. */
  lemma GeneratePlanetFieldsCall()
    ensures CallByKeyword(PLANET_PARAMETERS, PLANET_REQUIRED, GENERATE_PLANET_FIELDS) == Ok(())
  {
    FirstUnknownFacts(PLANET_PARAMETERS, GENERATE_PLANET_FIELDS);
    assert GENERATE_PLANET_FIELDS[0] == "type" && GENERATE_PLANET_FIELDS[1] == "habitability";
  }

  /** A call with n positional arguments and then keywords. The positional
      arguments bind the first n parameters. The call is a TypeError when
      there are more positional arguments than parameters, when a keyword is
      not a parameter or names one already bound, or when a parameter without
      a default is left unbound. */
  function CallWith(params: seq<string>, required: set<string>, n: nat, keywords: seq<string>): (r: Result<()>)
    ensures r.Ok? <==>
      n <= |params| &&
      (forall i :: 0 <= i < |keywords| ==> keywords[i] in params && keywords[i] !in params[..n]) &&
      (forall p :: p in required ==> p in params[..n] || p in keywords)
    ensures (n <= |params| &&
             (forall i :: 0 <= i < |keywords| ==> keywords[i] in params && keywords[i] !in params[..n]) &&
             (exists p :: p in required && p !in params[..n] && p !in keywords)) ==>
      r == Fail(TypeMismatch("missing argument"))
  {
    if n > |params| then Fail(TypeMismatch("too many positional arguments"))
    else if exists i :: 0 <= i < |keywords| && keywords[i] in params[..n] then Fail(TypeMismatch("multiple values"))
    else
      var bound := params[..n] + keywords;
      var known := set p | p in params;
      FirstUnknownFacts(known, bound);
      assert forall i :: 0 <= i < |keywords| ==> keywords[i] == bound[n + i];
      assert forall i :: 0 <= i < n ==> bound[i] == params[i];
      CallByKeyword(known, required, bound)
  }

  /** The parameters of UniverseState's generated __init__ (rng and _adj are
      init=False fields) and the one without a default. */
  const UNIVERSE_PARAMETERS: set<string> := {
    "seed", "tick", "worlds", "lanes", "commodity_registry", "recipe_registry",
    "event_registry", "factions", "active_shipments", "lane_capacity_tracker"}
  const UNIVERSE_REQUIRED: set<string> := {"seed"}

  /** As written, generate_universe without an initial state calls
      UniverseState(seed=..., rng=rng): a TypeError on the keyword rng. */
  lemma FreshUniverseCallFails()
    ensures CallByKeyword(UNIVERSE_PARAMETERS, UNIVERSE_REQUIRED, ["seed", "rng"]) == Fail(TypeMismatch("rng"))
  {
    assert "seed" in UNIVERSE_PARAMETERS && "rng" !in UNIVERSE_PARAMETERS;
  }

  /** UniverseState(seed=...) binds every required field; the generator is then
      assigned to the new state, as the initial-state branch does. */
  lemma FreshUniverseSeedCall()
    ensures CallByKeyword(UNIVERSE_PARAMETERS, UNIVERSE_REQUIRED, ["seed"]) == Ok(())
  {
    FirstUnknownFacts(UNIVERSE_PARAMETERS, ["seed"]);
  }

  /** generate_universe's parameters in order, and those without a default. */
  const GENERATE_UNIVERSE_PARAMETERS: seq<string> :=
    ["rng", "n_systems", "system_templates_data", "planet_types_data",
     "planet_names_data", "system_names_data", "initial_state"]
  const GENERATE_UNIVERSE_REQUIRED: set<string> :=
    {"rng", "n_systems", "system_templates_data", "planet_types_data",
     "planet_names_data", "system_names_data"}

  /** The keywords the callers pass after the generator. */
  const GENERATE_UNIVERSE_KEYWORDS: seq<string> := ["n_systems", "system_templates_data", "planet_types_data"]
  const GENERATE_UNIVERSE_KEYWORDS_STATE: seq<string> := GENERATE_UNIVERSE_KEYWORDS + ["initial_state"]
  /** The two arguments the callers leave out. */
  const NAME_DATA: seq<string> := ["planet_names_data", "system_names_data"]

  /** As written, every caller of generate_universe leaves planet_names_data
      unbound: four positional arguments (scripts/gen_universe.py,
      tests/test_milestone21.py), the generator and three keywords
      (tests/test_generator_regression.py), and the same with initial_state
      (visualizer/app.py). Each call is a TypeError. */
  lemma GenerateUniverseCallsFail()
    ensures CallWith(GENERATE_UNIVERSE_PARAMETERS, GENERATE_UNIVERSE_REQUIRED, 4, []) == Fail(TypeMismatch("missing argument"))
    ensures CallWith(GENERATE_UNIVERSE_PARAMETERS, GENERATE_UNIVERSE_REQUIRED, 1, GENERATE_UNIVERSE_KEYWORDS) == Fail(TypeMismatch("missing argument"))
    ensures CallWith(GENERATE_UNIVERSE_PARAMETERS, GENERATE_UNIVERSE_REQUIRED, 1, GENERATE_UNIVERSE_KEYWORDS_STATE) == Fail(TypeMismatch("missing argument"))
  {
    var ps := GENERATE_UNIVERSE_PARAMETERS;
    assert "planet_names_data" in GENERATE_UNIVERSE_REQUIRED;
    assert ps[..4] == ["rng", "n_systems", "system_templates_data", "planet_types_data"];
    assert ps[..1] == ["rng"];
    assert "planet_names_data" !in ps[..4] && "planet_names_data" !in ps[..1];
    assert "planet_names_data" !in GENERATE_UNIVERSE_KEYWORDS_STATE;
    var k := GENERATE_UNIVERSE_KEYWORDS_STATE;
    assert k == ["n_systems", "system_templates_data", "planet_types_data", "initial_state"];
    assert forall i :: 0 <= i < |k| ==> k[i] in ps && k[i] !in ps[..1];
  }

  /** With the name data passed, positionally or by keyword, each of those
      calls binds every parameter without a default. */
  lemma GenerateUniverseNamedCalls()
    ensures CallWith(GENERATE_UNIVERSE_PARAMETERS, GENERATE_UNIVERSE_REQUIRED, 6, []) == Ok(())
    ensures CallWith(GENERATE_UNIVERSE_PARAMETERS, GENERATE_UNIVERSE_REQUIRED, 1, GENERATE_UNIVERSE_KEYWORDS + NAME_DATA) == Ok(())
    ensures CallWith(GENERATE_UNIVERSE_PARAMETERS, GENERATE_UNIVERSE_REQUIRED, 1, GENERATE_UNIVERSE_KEYWORDS_STATE + NAME_DATA) == Ok(())
  {
    var ps := GENERATE_UNIVERSE_PARAMETERS;
    assert ps[..6] == ["rng", "n_systems", "system_templates_data", "planet_types_data",
                       "planet_names_data", "system_names_data"];
    assert ps[..1] == ["rng"];
    var k1 := GENERATE_UNIVERSE_KEYWORDS + NAME_DATA;
    var k2 := GENERATE_UNIVERSE_KEYWORDS_STATE + NAME_DATA;
    assert k1 == ["n_systems", "system_templates_data", "planet_types_data", "planet_names_data", "system_names_data"];
    assert k2 == ["n_systems", "system_templates_data", "planet_types_data", "initial_state",
                  "planet_names_data", "system_names_data"];
    assert forall i :: 0 <= i < |k1| ==> k1[i] == ps[i + 1];
    assert forall i :: 0 <= i < 3 ==> k2[i] == ps[i + 1];
    assert k2[3] == ps[6] && k2[4] == ps[4] && k2[5] == ps[5];
  }
}
