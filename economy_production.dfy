// economy/production.py: the industry component and produce.

module EconIndustry {
  import opened Base

  datatype IndustryV = IndustryV(caps: Dict<RecipeId, real>)

  class Industry {
    /** The world holding this industry (proof bookkeeping only). */
    ghost const owner: WorldId
    var caps: Dict<RecipeId, real>

    constructor (ghost owner: WorldId, caps: Dict<RecipeId, real>)
      ensures this.owner == owner && caps == this.caps
    {
      this.owner := owner;
      this.caps := caps;
    }

    function V(): IndustryV
      reads this
    {
      IndustryV(caps)
    }
  }
}

module EconProduction {
  import opened Base
  import opened EconInventory
  import opened EconMarketData
  import opened EconIndustry
  import opened EconRecipes
  import opened WorldModel

  /** available / qty_per_unit: the units one input allows. */
  function PerUnit(avail: real, qty: real): real
    requires qty > 0.0
  {
    avail / qty
  }

  /** qty_per_unit * production_units: the quantity of one input or output moved. */
  function Scaled(qty: real, units: real): real { qty * units }

  /** min(bound, x), where None stands for float('inf'). */
  function MinBound(bound: Option<real>, x: real): real {
    if bound.None? then x else Min(bound.value, x)
  }

  /** max_possible_by_inputs after the given inputs: the running minimum of
      available/qty over the inputs with a positive quantity (None: no such input). */
  function InputBound(q: Stock, keys: seq<CommodityId>, inputs: map<CommodityId, real>): Option<real>
    requires forall k :: k in keys ==> k in inputs
    decreases |keys|
  {
    if keys == [] then None
    else
      var pre := InputBound(q, keys[..|keys| - 1], inputs);
      var k := keys[|keys| - 1];
      if inputs[k] > 0.0 then Some(MinBound(pre, PerUnit(Amount(q, k, 0.0), inputs[k]))) else pre
  }

  /** The bound is unbounded exactly when no input has a positive quantity;
      otherwise it is the least available/qty over those inputs. */
  lemma {:induction false} InputBoundIsMinimum(q: Stock, keys: seq<CommodityId>, inputs: map<CommodityId, real>)
    requires forall k :: k in keys ==> k in inputs
    ensures InputBound(q, keys, inputs).None? <==> forall k :: k in keys ==> inputs[k] <= 0.0
    ensures InputBound(q, keys, inputs).Some? ==>
      forall k :: k in keys && inputs[k] > 0.0 ==> InputBound(q, keys, inputs).value <= PerUnit(Amount(q, k, 0.0), inputs[k])
    ensures InputBound(q, keys, inputs).Some? ==>
      exists k :: k in keys && inputs[k] > 0.0 && InputBound(q, keys, inputs).value == PerUnit(Amount(q, k, 0.0), inputs[k])
    decreases |keys|
  {
    if keys != [] {
      var pre := keys[..|keys| - 1];
      InputBoundIsMinimum(q, pre, inputs);
      assert forall k :: k in keys ==> k in pre || k == keys[|keys| - 1];
    }
  }

  /** production_units = min(cap, max_production_units_per_tick, max_possible_by_inputs). */
  function Units(q: Stock, recipe: Recipe, cap: real): real
    requires recipe.inputs.Valid()
  {
    MinBound(InputBound(q, recipe.inputs.keys, recipe.inputs.vals), Min(cap, recipe.maxUnitsPerTick))
  }

  /** The units respect the cap, the recipe's per-tick limit and every positive
      input's stock, and equal one of these bounds. */
  lemma UnitsBounds(q: Stock, recipe: Recipe, cap: real)
    requires recipe.inputs.Valid()
    ensures Units(q, recipe, cap) <= cap && Units(q, recipe, cap) <= recipe.maxUnitsPerTick
    ensures forall k :: k in recipe.inputs.vals && recipe.inputs.vals[k] > 0.0 ==>
      Units(q, recipe, cap) <= PerUnit(Amount(q, k, 0.0), recipe.inputs.vals[k])
    ensures Units(q, recipe, cap) == cap || Units(q, recipe, cap) == recipe.maxUnitsPerTick ||
      exists k :: k in recipe.inputs.vals && recipe.inputs.vals[k] > 0.0 &&
        Units(q, recipe, cap) == PerUnit(Amount(q, k, 0.0), recipe.inputs.vals[k])
  {
    InputBoundIsMinimum(q, recipe.inputs.keys, recipe.inputs.vals);
  }

  /** Within the bound of an input, the input's stock covers qty*units. */
  lemma ScaledWithin(avail: real, qty: real, units: real)
    requires qty > 0.0 && units <= PerUnit(avail, qty)
    ensures Scaled(qty, units) <= avail
  {
    var b := PerUnit(avail, qty);
    assert b * qty == avail;
    assert qty * units <= qty * b;
  }

  /** The input removals: remove_clamped(input, qty*units) for each input, in order. */
  function RemovedInputs(q: Stock, keys: seq<CommodityId>, inputs: map<CommodityId, real>, units: real): Result<Stock>
    requires forall k :: k in keys ==> k in inputs
    decreases |keys|
  {
    if keys == [] then Ok(q)
    else
      var pre :- RemovedInputs(q, keys[..|keys| - 1], inputs, units);
      var k := keys[|keys| - 1];
      var rm :- RemovedClamped(pre, k, Scaled(inputs[k], units));
      Ok(rm.stock)
  }

  /** The output additions: add(output, qty*units) for each output, in order. */
  function AddedOutputs(q: Stock, keys: seq<CommodityId>, outputs: map<CommodityId, real>, units: real): Result<Stock>
    requires forall k :: k in keys ==> k in outputs
    decreases |keys|
  {
    if keys == [] then Ok(q)
    else
      var pre :- AddedOutputs(q, keys[..|keys| - 1], outputs, units);
      var k := keys[|keys| - 1];
      Added(pre, k, Scaled(outputs[k], units))
  }

  /** With distinct inputs, each input ends as one remove_clamped of its own
      quantity from its original stock; other commodities are untouched. */
  lemma {:induction false} RemovedInputsAt(q: Stock, keys: seq<CommodityId>, inputs: map<CommodityId, real>, units: real, k: CommodityId)
    requires forall k :: k in keys ==> k in inputs
    requires Distinct(keys) && RemovedInputs(q, keys, inputs, units).Ok?
    ensures k !in keys ==> Amount(RemovedInputs(q, keys, inputs, units).value, k, 0.0) == Amount(q, k, 0.0)
    ensures k in keys ==>
      (RemovedClamped(q, k, Scaled(inputs[k], units)).Ok? &&
       Amount(RemovedInputs(q, keys, inputs, units).value, k, 0.0) ==
         Amount(RemovedClamped(q, k, Scaled(inputs[k], units)).value.stock, k, 0.0))
    decreases |keys|
  {
    if keys != [] {
      var pre := keys[..|keys| - 1];
      var last := keys[|keys| - 1];
      assert forall i :: 0 <= i < |pre| ==> pre[i] != last;
      RemovedInputsAt(q, pre, inputs, units, k);
      if k != last {
        assert k in keys <==> k in pre;
      } else {
        RemovedInputsAt(q, pre, inputs, units, last);
      }
    }
  }

  /** With distinct outputs, each output rises by exactly qty*units; other commodities are untouched. */
  lemma {:induction false} AddedOutputsAt(q: Stock, keys: seq<CommodityId>, outputs: map<CommodityId, real>, units: real, k: CommodityId)
    requires forall k :: k in keys ==> k in outputs
    requires Distinct(keys) && AddedOutputs(q, keys, outputs, units).Ok?
    ensures k !in keys ==> Amount(AddedOutputs(q, keys, outputs, units).value, k, 0.0) == Amount(q, k, 0.0)
    ensures k in keys ==>
      Amount(AddedOutputs(q, keys, outputs, units).value, k, 0.0) == Amount(q, k, 0.0) + Scaled(outputs[k], units)
    decreases |keys|
  {
    if keys != [] {
      var pre := keys[..|keys| - 1];
      var last := keys[|keys| - 1];
      assert forall i :: 0 <= i < |pre| ==> pre[i] != last;
      RemovedOutputsHelper(pre, last, k);
      AddedOutputsAt(q, pre, outputs, units, k);
    }
  }

  lemma RemovedOutputsHelper(pre: seq<CommodityId>, last: CommodityId, k: CommodityId)
    requires forall i :: 0 <= i < |pre| ==> pre[i] != last
    ensures k in pre + [last] <==> k in pre || k == last
    ensures k == last ==> k !in pre
  {
  }

  /** Both the removals and the additions keep every stock non-negative. */
  lemma {:induction false} MovesKeepNonNegative(q: Stock, recipe: Recipe, units: real)
    requires recipe.inputs.Valid() && recipe.outputs.Valid() && NonNegative(q)
    ensures RemovedInputs(q, recipe.inputs.keys, recipe.inputs.vals, units).Ok? ==>
      NonNegative(RemovedInputs(q, recipe.inputs.keys, recipe.inputs.vals, units).value)
    ensures AddedOutputs(q, recipe.outputs.keys, recipe.outputs.vals, units).Ok? ==>
      NonNegative(AddedOutputs(q, recipe.outputs.keys, recipe.outputs.vals, units).value)
  {
    RemovedKeepsNonNegative(q, recipe.inputs.keys, recipe.inputs.vals, units);
    AddedKeepsNonNegative(q, recipe.outputs.keys, recipe.outputs.vals, units);
  }

  lemma {:induction false} RemovedKeepsNonNegative(q: Stock, keys: seq<CommodityId>, inputs: map<CommodityId, real>, units: real)
    requires forall k :: k in keys ==> k in inputs
    requires NonNegative(q)
    ensures RemovedInputs(q, keys, inputs, units).Ok? ==> NonNegative(RemovedInputs(q, keys, inputs, units).value)
    decreases |keys|
  {
    if keys != [] {
      RemovedKeepsNonNegative(q, keys[..|keys| - 1], inputs, units);
    }
  }

  lemma {:induction false} AddedKeepsNonNegative(q: Stock, keys: seq<CommodityId>, outputs: map<CommodityId, real>, units: real)
    requires forall k :: k in keys ==> k in outputs
    requires NonNegative(q)
    ensures AddedOutputs(q, keys, outputs, units).Ok? ==> NonNegative(AddedOutputs(q, keys, outputs, units).value)
    decreases |keys|
  {
    if keys != [] {
      AddedKeepsNonNegative(q, keys[..|keys| - 1], outputs, units);
    }
  }

  /** One recipe at its cap: nothing happens unless the units are positive;
      then the inputs are removed and the outputs added. */
  function RunRecipe(q: Stock, recipe: Recipe, cap: real): (r: Result<Stock>)
    requires recipe.inputs.Valid() && recipe.outputs.Valid()
    ensures Units(q, recipe, cap) <= 0.0 ==> r == Ok(q)
  {
    var units := Units(q, recipe, cap);
    if units > 0.0 then
      var q1 :- RemovedInputs(q, recipe.inputs.keys, recipe.inputs.vals, units);
      AddedOutputs(q1, recipe.outputs.keys, recipe.outputs.vals, units)
    else Ok(q)
  }

  /** A recipe whose per-tick limit is not positive (the default 0.0) never produces. */
  lemma IdleRecipe(q: Stock, recipe: Recipe, cap: real)
    requires recipe.inputs.Valid() && recipe.outputs.Valid()
    requires recipe.maxUnitsPerTick <= 0.0
    ensures RunRecipe(q, recipe, cap) == Ok(q)
  {
    UnitsBounds(q, recipe, cap);
  }

  /** A positive input that is not also an output drops by exactly qty*units:
      its removal is never clamped; a remainder below EPSILON is deleted. */
  lemma RunRecipeInput(q: Stock, recipe: Recipe, cap: real, k: CommodityId)
    requires recipe.inputs.Valid() && recipe.outputs.Valid()
    requires RunRecipe(q, recipe, cap).Ok? && Units(q, recipe, cap) > 0.0
    requires k in recipe.inputs.vals && recipe.inputs.vals[k] > 0.0 && k !in recipe.outputs.vals
    ensures var left := Amount(q, k, 0.0) - Scaled(recipe.inputs.vals[k], Units(q, recipe, cap));
      left >= 0.0 &&
      Amount(RunRecipe(q, recipe, cap).value, k, 0.0) == (if left < EPSILON then 0.0 else left)
  {
    var units := Units(q, recipe, cap);
    var qty := recipe.inputs.vals[k];
    UnitsBounds(q, recipe, cap);
    ScaledWithin(Amount(q, k, 0.0), qty, units);
    var q1 := RemovedInputs(q, recipe.inputs.keys, recipe.inputs.vals, units).value;
    RemovedInputsAt(q, recipe.inputs.keys, recipe.inputs.vals, units, k);
    AddedOutputsAt(q1, recipe.outputs.keys, recipe.outputs.vals, units, k);
  }

  /** An output that is not also an input rises by exactly qty*units. */
  lemma RunRecipeOutput(q: Stock, recipe: Recipe, cap: real, k: CommodityId)
    requires recipe.inputs.Valid() && recipe.outputs.Valid()
    requires RunRecipe(q, recipe, cap).Ok? && Units(q, recipe, cap) > 0.0
    requires k in recipe.outputs.vals && k !in recipe.inputs.vals
    ensures Amount(RunRecipe(q, recipe, cap).value, k, 0.0) ==
      Amount(q, k, 0.0) + Scaled(recipe.outputs.vals[k], Units(q, recipe, cap))
  {
    var units := Units(q, recipe, cap);
    var q1 := RemovedInputs(q, recipe.inputs.keys, recipe.inputs.vals, units).value;
    RemovedInputsAt(q, recipe.inputs.keys, recipe.inputs.vals, units, k);
    AddedOutputsAt(q1, recipe.outputs.keys, recipe.outputs.vals, units, k);
  }

  /** A commodity that is neither an input nor an output keeps its amount. */
  lemma RunRecipeOther(q: Stock, recipe: Recipe, cap: real, k: CommodityId)
    requires recipe.inputs.Valid() && recipe.outputs.Valid()
    requires RunRecipe(q, recipe, cap).Ok?
    requires k !in recipe.outputs.vals && k !in recipe.inputs.vals
    ensures Amount(RunRecipe(q, recipe, cap).value, k, 0.0) == Amount(q, k, 0.0)
  {
    var units := Units(q, recipe, cap);
    if units > 0.0 {
      var q1 := RemovedInputs(q, recipe.inputs.keys, recipe.inputs.vals, units).value;
      RemovedInputsAt(q, recipe.inputs.keys, recipe.inputs.vals, units, k);
      AddedOutputsAt(q1, recipe.outputs.keys, recipe.outputs.vals, units, k);
    }
  }

  /** A recipe run keeps every stock non-negative. */
  lemma RunRecipeNonNegative(q: Stock, recipe: Recipe, cap: real)
    requires recipe.inputs.Valid() && recipe.outputs.Valid() && NonNegative(q)
    requires RunRecipe(q, recipe, cap).Ok?
    ensures NonNegative(RunRecipe(q, recipe, cap).value)
  {
    var units := Units(q, recipe, cap);
    if units > 0.0 {
      MovesKeepNonNegative(q, recipe, units);
      var q1 := RemovedInputs(q, recipe.inputs.keys, recipe.inputs.vals, units).value;
      MovesKeepNonNegative(q1, recipe, units);
    }
  }

  /** The caps loop: every recipe in caps order, each seeing the stock the
      earlier ones left; an unregistered recipe raises. */
  function Produced(q: Stock, keys: seq<RecipeId>, caps: map<RecipeId, real>, reg: Dict<RecipeId, Recipe>): Result<Stock>
    requires forall k :: k in keys ==> k in caps
    requires RecipesValid(reg)
    decreases |keys|
  {
    if keys == [] then Ok(q)
    else
      var pre :- Produced(q, keys[..|keys| - 1], caps, reg);
      var id := keys[|keys| - 1];
      if id !in reg.vals then Fail(UnknownRecipe(id))
      else RunRecipe(pre, reg.vals[id], caps[id])
  }

  /** A cap naming an unregistered recipe makes the loop raise. */
  lemma {:induction false} ProducedUnknown(q: Stock, keys: seq<RecipeId>, caps: map<RecipeId, real>, reg: Dict<RecipeId, Recipe>, id: RecipeId)
    requires forall k :: k in keys ==> k in caps
    requires RecipesValid(reg)
    requires id in keys && id !in reg.vals
    ensures Produced(q, keys, caps, reg).Fail?
    decreases |keys|
  {
    var pre := keys[..|keys| - 1];
    if id != keys[|keys| - 1] {
      assert id in pre;
      ProducedUnknown(q, pre, caps, reg, id);
    }
  }

  /** A failure part-way stays a failure. */
  lemma {:induction false} ProducedStopped(q: Stock, keys: seq<RecipeId>, caps: map<RecipeId, real>, reg: Dict<RecipeId, Recipe>, j: nat)
    requires forall k :: k in keys ==> k in caps
    requires RecipesValid(reg)
    requires j <= |keys| && Produced(q, keys[..j], caps, reg).Fail?
    ensures Produced(q, keys, caps, reg).Fail?
    decreases |keys| - j
  {
    if j < |keys| {
      var pre := keys[..|keys| - 1];
      assert pre[..j] == keys[..j];
      ProducedStopped(q, pre, caps, reg, j);
    } else {
      assert keys[..j] == keys;
    }
  }

  /** No stock goes negative during produce. */
  lemma {:induction false} ProducedNonNegative(q: Stock, keys: seq<RecipeId>, caps: map<RecipeId, real>, reg: Dict<RecipeId, Recipe>)
    requires forall k :: k in keys ==> k in caps
    requires RecipesValid(reg) && NonNegative(q)
    ensures Produced(q, keys, caps, reg).Ok? ==> NonNegative(Produced(q, keys, caps, reg).value)
    decreases |keys|
  {
    if keys != [] {
      var pre := keys[..|keys| - 1];
      ProducedNonNegative(q, pre, caps, reg);
      var id := keys[|keys| - 1];
      if Produced(q, pre, caps, reg).Ok? && id in reg.vals {
        var mid := Produced(q, pre, caps, reg).value;
        if RunRecipe(mid, reg.vals[id], caps[id]).Ok? {
          RunRecipeNonNegative(mid, reg.vals[id], caps[id]);
        }
      }
    }
  }

  /** produce(world, state) on a world value: without a market or an industry
      nothing happens; otherwise only the market's stock changes. */
  function ProducedWorld(w: WorldV, reg: Dict<RecipeId, Recipe>): (r: Result<WorldV>)
    requires RecipesValid(reg)
    requires w.industry.Some? ==> w.industry.value.caps.Valid()
    ensures w.market.None? || w.industry.None? ==> r == Ok(w)
    ensures r.Ok? && w.market.Some? ==>
      (r.value.market.Some? && r.value == w.(market := Some(w.market.value.(stock := r.value.market.value.stock))))
  {
    if w.market.None? || w.industry.None? then Ok(w)
    else
      var m := w.market.value;
      var caps := w.industry.value.caps;
      match Produced(m.stock, caps.keys, caps.vals, reg)
      case Fail(e) => Fail(e)
      case Ok(q) => Ok(w.(market := Some(m.(stock := q))))
  }

  /** produce keeps every stock non-negative, and an unregistered recipe in the caps raises. */
  lemma ProducedWorldSafe(w: WorldV, reg: Dict<RecipeId, Recipe>)
    requires RecipesValid(reg)
    requires w.industry.Some? && w.industry.value.caps.Valid() && w.market.Some?
    ensures ProducedWorld(w, reg).Ok? && NonNegative(w.market.value.stock) ==>
      NonNegative(ProducedWorld(w, reg).value.market.value.stock)
    ensures (exists id :: id in w.industry.value.caps.vals && id !in reg.vals) ==> ProducedWorld(w, reg).Fail?
  {
    var caps := w.industry.value.caps;
    if NonNegative(w.market.value.stock) {
      ProducedNonNegative(w.market.value.stock, caps.keys, caps.vals, reg);
    }
    if exists id :: id in caps.vals && id !in reg.vals {
      var id :| id in caps.vals && id !in reg.vals;
      ProducedUnknown(w.market.value.stock, caps.keys, caps.vals, reg, id);
    }
  }

  /** The refine_alloy scenario: 5 minerals and 2 energy per alloy, cap 10. */
  function AlloyRecipe(): (r: Recipe)
    ensures r.inputs.Valid() && r.outputs.Valid()
  {
    Recipe("refine_alloy", Docs.Str("Refine Alloy"),
           Dict(["minerals", "energy"], map["minerals" := 5.0, "energy" := 2.0]),
           Dict(["alloy"], map["alloy" := 1.0]), 10.0)
  }

  /** With 100 minerals and 100 energy, 10 units run: -50 minerals, -20 energy, +10 alloy. */
  lemma AlloyScenario()
    ensures var q := map["minerals" := 100.0, "energy" := 100.0];
      Units(q, AlloyRecipe(), 10.0) == 10.0 &&
      RunRecipe(q, AlloyRecipe(), 10.0) == Ok(map["minerals" := 50.0, "energy" := 80.0, "alloy" := 10.0])
  {
    var r := AlloyRecipe();
    var ins, outs := r.inputs.vals, r.outputs.vals;
    var q := map["minerals" := 100.0, "energy" := 100.0];
    assert r.inputs.keys[..1] == ["minerals"] && ["minerals"][..0] == [] && r.outputs.keys[..0] == [];
    assert PerUnit(100.0, 5.0) == 20.0 && PerUnit(100.0, 2.0) == 50.0;
    assert InputBound(q, ["minerals"], ins) == Some(20.0);
    assert InputBound(q, r.inputs.keys, ins) == Some(20.0);
    assert Scaled(5.0, 10.0) == 50.0 && Scaled(2.0, 10.0) == 20.0 && Scaled(1.0, 10.0) == 10.0;
    var m1 := q["minerals" := 50.0];
    assert RemovedClamped(q, "minerals", 50.0) == Ok(Removal(m1, 50.0));
    assert RemovedInputs(q, ["minerals"], ins, 10.0) == Ok(m1);
    var m2 := m1["energy" := 80.0];
    assert RemovedClamped(m1, "energy", 20.0) == Ok(Removal(m2, 20.0));
    assert RemovedInputs(q, r.inputs.keys, ins, 10.0) == Ok(m2);
    assert AddedOutputs(m2, r.outputs.keys, outs, 10.0) == Ok(m2["alloy" := 10.0]);
    assert m2["alloy" := 10.0] == map["minerals" := 50.0, "energy" := 80.0, "alloy" := 10.0];
  }

  /** With 1000 minerals and only 10 energy, 5 units run: -25 minerals, all 10 energy, +5 alloy. */
  lemma AlloyEnergyLimited()
    ensures var q := map["minerals" := 1000.0, "energy" := 10.0];
      Units(q, AlloyRecipe(), 10.0) == 5.0 &&
      RunRecipe(q, AlloyRecipe(), 10.0) == Ok(map["minerals" := 975.0, "alloy" := 5.0])
  {
    var r := AlloyRecipe();
    var ins, outs := r.inputs.vals, r.outputs.vals;
    var q := map["minerals" := 1000.0, "energy" := 10.0];
    assert r.inputs.keys[..1] == ["minerals"] && ["minerals"][..0] == [] && r.outputs.keys[..0] == [];
    assert PerUnit(1000.0, 5.0) == 200.0 && PerUnit(10.0, 2.0) == 5.0;
    assert InputBound(q, ["minerals"], ins) == Some(200.0);
    assert InputBound(q, r.inputs.keys, ins) == Some(5.0);
    assert Scaled(5.0, 5.0) == 25.0 && Scaled(2.0, 5.0) == 10.0 && Scaled(1.0, 5.0) == 5.0;
    var n1 := q["minerals" := 975.0];
    assert RemovedClamped(q, "minerals", 25.0) == Ok(Removal(n1, 25.0));
    assert RemovedInputs(q, ["minerals"], ins, 5.0) == Ok(n1);
    var n2 := n1 - {"energy"};
    assert RemovedClamped(n1, "energy", 10.0) == Ok(Removal(n2, 10.0));
    assert RemovedInputs(q, r.inputs.keys, ins, 5.0) == Ok(n2);
    assert AddedOutputs(n2, r.outputs.keys, outs, 5.0) == Ok(n2["alloy" := 5.0]);
    assert n2["alloy" := 5.0] == map["minerals" := 975.0, "alloy" := 5.0];
  }

  /** A failure part-way through the removals stays a failure. */
  lemma {:induction false} RemovedInputsStopped(q: Stock, keys: seq<CommodityId>, inputs: map<CommodityId, real>, units: real, j: nat)
    requires forall k :: k in keys ==> k in inputs
    requires j <= |keys| && RemovedInputs(q, keys[..j], inputs, units).Fail?
    ensures RemovedInputs(q, keys, inputs, units).Fail?
    decreases |keys| - j
  {
    if j < |keys| {
      var pre := keys[..|keys| - 1];
      assert pre[..j] == keys[..j];
      RemovedInputsStopped(q, pre, inputs, units, j);
    } else {
      assert keys[..j] == keys;
    }
  }

  /** A failure part-way through the additions stays a failure. */
  lemma {:induction false} AddedOutputsStopped(q: Stock, keys: seq<CommodityId>, outputs: map<CommodityId, real>, units: real, j: nat)
    requires forall k :: k in keys ==> k in outputs
    requires j <= |keys| && AddedOutputs(q, keys[..j], outputs, units).Fail?
    ensures AddedOutputs(q, keys, outputs, units).Fail?
    decreases |keys| - j
  {
    if j < |keys| {
      var pre := keys[..|keys| - 1];
      assert pre[..j] == keys[..j];
      AddedOutputsStopped(q, pre, outputs, units, j);
    } else {
      assert keys[..j] == keys;
    }
  }

  /** The inner loop computing max_possible_by_inputs from the inventory. */
  method InputBoundOf(inv: Inventory, inputs: Dict<CommodityId, real>) returns (bound: Option<real>)
    requires inputs.Valid()
    ensures bound == InputBound(inv.quantities, inputs.keys, inputs.vals)
  {
    var keys := inputs.keys;
    bound := None;
    var i := 0;
    while i < |keys|
      invariant 0 <= i <= |keys|
      invariant bound == InputBound(inv.quantities, keys[..i], inputs.vals)
    {
      assert keys[..i + 1][..i] == keys[..i];
      var c := keys[i];
      var qty := inputs.vals[c];
      if qty > 0.0 {
        var avail := inv.Get(c, 0.0);
        bound := Some(MinBound(bound, PerUnit(avail, qty)));
      }
      i := i + 1;
    }
    assert keys[..i] == keys;
  }

  /** The input loop: remove_clamped(input, qty*units) for each input. */
  method RemoveInputs(inv: Inventory, inputs: Dict<CommodityId, real>, units: real) returns (r: Result<()>)
    requires inputs.Valid()
    modifies inv
    ensures var s := RemovedInputs(old(inv.quantities), inputs.keys, inputs.vals, units);
      (r.Ok? <==> s.Ok?) && (r.Ok? ==> inv.quantities == s.value)
  {
    var keys := inputs.keys;
    ghost var q0 := inv.quantities;
    var i := 0;
    while i < |keys|
      invariant 0 <= i <= |keys|
      invariant RemovedInputs(q0, keys[..i], inputs.vals, units) == Ok(inv.quantities)
    {
      assert keys[..i + 1][..i] == keys[..i];
      var c := keys[i];
      var got := inv.RemoveClamped(c, Scaled(inputs.vals[c], units));
      if got.Fail? {
        RemovedInputsStopped(q0, keys, inputs.vals, units, i + 1);
        return Fail(got.error);
      }
      i := i + 1;
    }
    assert keys[..i] == keys;
    return Ok(());
  }

  /** The output loop: add(output, qty*units) for each output. */
  method AddOutputs(inv: Inventory, outputs: Dict<CommodityId, real>, units: real) returns (r: Result<()>)
    requires outputs.Valid()
    modifies inv
    ensures var s := AddedOutputs(old(inv.quantities), outputs.keys, outputs.vals, units);
      (r.Ok? <==> s.Ok?) && (r.Ok? ==> inv.quantities == s.value)
  {
    var keys := outputs.keys;
    ghost var q0 := inv.quantities;
    var i := 0;
    while i < |keys|
      invariant 0 <= i <= |keys|
      invariant AddedOutputs(q0, keys[..i], outputs.vals, units) == Ok(inv.quantities)
    {
      assert keys[..i + 1][..i] == keys[..i];
      var c := keys[i];
      var got := inv.Add(c, Scaled(outputs.vals[c], units));
      if got.Fail? {
        AddedOutputsStopped(q0, keys, outputs.vals, units, i + 1);
        return Fail(got.error);
      }
      i := i + 1;
    }
    assert keys[..i] == keys;
    return Ok(());
  }

  /** One pass of the caps loop, in place. */
  method ProduceRecipe(inv: Inventory, recipe: Recipe, cap: real) returns (r: Result<()>)
    requires recipe.inputs.Valid() && recipe.outputs.Valid()
    modifies inv
    ensures var s := RunRecipe(old(inv.quantities), recipe, cap);
      (r.Ok? <==> s.Ok?) && (r.Ok? ==> inv.quantities == s.value)
  {
    var bound := InputBoundOf(inv, recipe.inputs);
    var units := MinBound(bound, Min(cap, recipe.maxUnitsPerTick));
    if units > 0.0 {
      r := RemoveInputs(inv, recipe.inputs, units);
      if r.Fail? {
        return;
      }
      r := AddOutputs(inv, recipe.outputs, units);
    } else {
      r := Ok(());
    }
  }

  /** The caps loop of produce, in place on the inventory. */
  method ProduceAll(inv: Inventory, caps: Dict<RecipeId, real>, registry: RecipeRegistry) returns (r: Result<()>)
    requires caps.Valid() && RecipesValid(registry.recipes)
    modifies inv
    ensures var s := Produced(old(inv.quantities), caps.keys, caps.vals, registry.recipes);
      (r.Ok? <==> s.Ok?) && (r.Ok? ==> inv.quantities == s.value)
  {
    var keys := caps.keys;
    ghost var q0 := inv.quantities;
    var i := 0;
    while i < |keys|
      invariant 0 <= i <= |keys|
      invariant Produced(q0, keys[..i], caps.vals, registry.recipes) == Ok(inv.quantities)
    {
      assert keys[..i + 1][..i] == keys[..i];
      var id := keys[i];
      var recipe := registry.Get(id);
      if recipe.Fail? {
        ProducedStopped(q0, keys, caps.vals, registry.recipes, i + 1);
        return Fail(recipe.error);
      }
      var done := ProduceRecipe(inv, recipe.value, caps.vals[id]);
      if done.Fail? {
        ProducedStopped(q0, keys, caps.vals, registry.recipes, i + 1);
        return Fail(done.error);
      }
      i := i + 1;
    }
    assert keys[..i] == keys;
    return Ok(());
  }

  /** produce(world, state): only the world's market inventory changes. */
  method Produce(world: World, registry: RecipeRegistry) returns (r: Result<()>)
    requires RecipesValid(registry.recipes)
    requires world.industry != null ==> world.industry.caps.Valid()
    modifies world.Inventories()
    ensures r.Ok? <==> ProducedWorld(old(world.V()), registry.recipes).Ok?
    ensures r.Ok? ==> world.V() == ProducedWorld(old(world.V()), registry.recipes).value
  {
    if world.market == null || world.industry == null {
      return Ok(());
    }
    r := ProduceAll(world.market.inventory, world.industry.caps, registry);
  }
}
