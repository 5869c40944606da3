// economy/recipes.py: production recipes and their registry.

module EconRecipes {
  import opened Base
  import opened Docs
  import opened Registries

  datatype Recipe = Recipe(
    id: RecipeId,
    name: Value,
    inputs: Dict<CommodityId, real>,
    outputs: Dict<CommodityId, real>,
    maxUnitsPerTick: real)

  /** A recipe written without the optional fields. */
  function DefaultRecipe(id: RecipeId, name: Value): (r: Recipe)
    ensures r.inputs.Valid() && r.inputs.keys == [] && r.outputs.Valid() && r.outputs.keys == []
    ensures r.maxUnitsPerTick == 0.0
  {
    Recipe(id, name, EmptyDict(), EmptyDict(), 0.0)
  }

  /** r_data.get(key, {}) as a mapping of quantities. */
  function QuantityMap(e: Value, key: string): (r: Result<Dict<CommodityId, real>>)
    requires e.Obj?
    ensures !HasKey(e, key) ==> r == Ok(EmptyDict())
    ensures r.Ok? && WellFormed(e) ==> r.value.Valid()
  {
    if key !in e.fields.vals then Ok(EmptyDict())
    else
      var m := e.fields.vals[key];
      assert WellFormed(e) && m.Obj? ==> m.fields.Valid() by {
        if WellFormed(e) { WellFormedField(e, key); }
      }
      if m.Obj? then NumberDict(m.fields, key) else Fail(TypeMismatch(key))
  }

  /** One loaded entry: id and name are required; inputs, outputs and the unit cap default. */
  function ParseRecipe(e: Value): (r: Result<(string, Recipe)>)
    ensures r.Ok? ==> HasKey(e, "id") && HasKey(e, "name") && Field(e, "id") == Ok(Str(r.value.0))
    ensures r.Ok? ==> r.value.1.id == r.value.0
    ensures r.Ok? && WellFormed(e) ==> r.value.1.inputs.Valid() && r.value.1.outputs.Valid()
    ensures r.Ok? && !HasKey(e, "inputs") ==> r.value.1.inputs == EmptyDict()
    ensures r.Ok? && !HasKey(e, "outputs") ==> r.value.1.outputs == EmptyDict()
    ensures r.Ok? && !HasKey(e, "max_production_units_per_tick") ==> r.value.1.maxUnitsPerTick == 0.0
  {
    var idv :- Field(e, "id");
    var id :- AsString(idv, "recipe id");
    var name :- Field(e, "name");
    var inputs :- QuantityMap(e, "inputs");
    var outputs :- QuantityMap(e, "outputs");
    var mv := e.fields.Get("max_production_units_per_tick", Float(0.0));
    var maxUnits :- AsNumber(mv, "max_production_units_per_tick");
    Ok((id, Recipe(id, name, inputs, outputs, maxUnits)))
  }

  /** Every registered recipe lists each input and output commodity once. */
  predicate RecipesValid(reg: Dict<RecipeId, Recipe>) {
    forall k :: k in reg.vals ==> reg.vals[k].inputs.Valid() && reg.vals[k].outputs.Valid()
  }

  class RecipeRegistry {
    var recipes: Dict<RecipeId, Recipe>

    constructor ()
      ensures recipes == EmptyDict()
    {
      recipes := EmptyDict();
    }

    /** The loop of load_from_yaml after the file is parsed; empty data raises. */
    method Load(data: Value) returns (r: Result<()>)
      modifies this
      ensures data.Null? ==> r == Fail(EmptyData) && recipes == old(recipes)
      ensures Iterated(data).Fail? ==> r.Fail? && recipes == old(recipes)
      ensures !data.Null? && Iterated(data).Ok? ==> Loaded(recipes, r) == LoadEach(old(recipes), Iterated(data).value, ParseRecipe)
    {
      if data.Null? {
        return Fail(EmptyData);
      }
      var it := Iterated(data);
      if it.Fail? {
        return Fail(it.error);
      }
      var items := it.value;
      var i := 0;
      while i < |items|
        invariant 0 <= i <= |items|
        invariant Loaded(recipes, Ok(())) == LoadEach(old(recipes), items[..i], ParseRecipe)
      {
        assert items[..i + 1][..i] == items[..i];
        var p := ParseRecipe(items[i]);
        if p.Fail? {
          LoadEachStopped(old(recipes), items, ParseRecipe, i + 1);
          return Fail(p.error);
        }
        recipes := recipes.Put(p.value.0, p.value.1);
        i := i + 1;
      }
      assert items[..i] == items;
      return Ok(());
    }

    /** get: the registered recipe, or ValueError for an unknown id. */
    function Get(id: RecipeId): (r: Result<Recipe>)
      reads this
      ensures r.Ok? <==> id in recipes.vals
      ensures r.Ok? ==> r.value == recipes.vals[id]
      ensures r.Fail? ==> r.error == UnknownRecipe(id)
    {
      if id in recipes.vals then Ok(recipes.vals[id]) else Fail(UnknownRecipe(id))
    }

    /** all_recipes: every registered recipe, in registration order. */
    function AllRecipes(): (rs: seq<Recipe>)
      reads this
      requires recipes.Valid()
      ensures |rs| == |recipes.keys|
      ensures forall i :: 0 <= i < |rs| ==> rs[i] == recipes.vals[recipes.keys[i]]
    {
      recipes.Values()
    }
  }
}
