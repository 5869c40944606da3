// economy/investment.py: civilian and military investment, which spend a
// stock commodity to raise the cap of one eligible recipe.

module EconInvestment {
  import opened Base
  import opened EconInventory
  import opened EconIndustry
  import opened WorldModel
  import opened CoreRng

  const MINERALS: CommodityId := "minerals"
  const ALLOY: CommodityId := "alloy"
  const MINERALS_NEEDED: real := 10.0
  const ALLOYS_NEEDED: real := 5.0
  /** Cap added to the chosen recipe. */
  const INVESTMENT_UNITS: real := 1.0
  const CIVILIAN_RECIPES: seq<RecipeId> := ["farm_food", "mine_minerals", "refine_consumer_goods"]
  const MILITARY_RECIPES: seq<RecipeId> := ["refine_alloy", "assemble_alloys"]

  /** The candidates that are already keys of the caps, in candidate order. */
  function Available(cands: seq<RecipeId>, caps: Dict<RecipeId, real>): (r: seq<RecipeId>)
    ensures forall k :: k in r <==> k in cands && k in caps.vals
    ensures |r| <= |cands|
    ensures Distinct(cands) ==> Distinct(r)
    decreases |cands|
  {
    if cands == [] then []
    else
      var pre := Available(cands[..|cands| - 1], caps);
      var last := cands[|cands| - 1];
      assert forall k :: k in cands <==> k in cands[..|cands| - 1] || k == last;
      if last in caps.vals then pre + [last] else pre
  }

  /** What an investment leaves: the stock, the caps, and whether a draw was used. */
  datatype Investment = Investment(stock: Stock, caps: Dict<RecipeId, real>, drew: bool)

  /** The body of invest_civilian / invest_military past their guards, with the next
      output of the generator: at least `needed` of the commodity buys one unit of
      cap for one available candidate, chosen by that output. */
  function Invested(stock: Stock, caps: Dict<RecipeId, real>, c: CommodityId, needed: real,
                    cands: seq<RecipeId>, draw: nat): Investment
    requires needed >= 0.0
  {
    if Amount(stock, c, 0.0) >= needed then
      var spent := RemovedClamped(stock, c, needed).value.stock;
      var avail := Available(cands, caps);
      if avail != [] then
        var k := avail[PickIndex(draw, |avail|)];
        Investment(spent, caps.Put(k, caps.vals[k] + INVESTMENT_UNITS), true)
      else Investment(spent, caps, false)
    else Investment(stock, caps, false)
  }

  /** Below `needed` nothing changes and no draw is used. */
  lemma InvestedShort(stock: Stock, caps: Dict<RecipeId, real>, c: CommodityId, needed: real, cands: seq<RecipeId>, draw: nat)
    requires needed >= 0.0 && Amount(stock, c, 0.0) < needed
    ensures Invested(stock, caps, c, needed, cands, draw) == Investment(stock, caps, false)
  {
  }

  /** With enough stock exactly `needed` is removed, whether or not a recipe is eligible. */
  lemma InvestedSpends(stock: Stock, caps: Dict<RecipeId, real>, c: CommodityId, needed: real, cands: seq<RecipeId>, draw: nat)
    requires needed >= 0.0 && Amount(stock, c, 0.0) >= needed
    ensures Ok(Removal(Invested(stock, caps, c, needed, cands, draw).stock, needed)) == RemovedClamped(stock, c, needed)
  {
  }

  /** The caps keep their keys and their order, and without a draw they are unchanged. */
  lemma InvestedKeepsKeys(stock: Stock, caps: Dict<RecipeId, real>, c: CommodityId, needed: real, cands: seq<RecipeId>, draw: nat)
    requires needed >= 0.0 && caps.Valid()
    ensures var r := Invested(stock, caps, c, needed, cands, draw);
      r.caps.Valid() && r.caps.keys == caps.keys && r.caps.vals.Keys == caps.vals.Keys &&
      (!r.drew ==> r.caps == caps)
  {
    var avail := Available(cands, caps);
    if Amount(stock, c, 0.0) >= needed && avail != [] {
      var k := avail[PickIndex(draw, |avail|)];
      assert k in avail;
    }
  }

  /** A draw is used exactly when the stock suffices and some candidate is a caps
      key; then one such candidate's cap grows by 1 and no other cap changes. */
  lemma InvestedRaisesOne(stock: Stock, caps: Dict<RecipeId, real>, c: CommodityId, needed: real, cands: seq<RecipeId>, draw: nat)
    requires needed >= 0.0
    ensures var r := Invested(stock, caps, c, needed, cands, draw);
      (r.drew <==> Amount(stock, c, 0.0) >= needed && exists k :: k in cands && k in caps.vals) &&
      (r.drew ==> exists k :: k in cands && k in caps.vals &&
                    r.caps.vals == caps.vals[k := caps.vals[k] + INVESTMENT_UNITS])
  {
    var r := Invested(stock, caps, c, needed, cands, draw);
    var avail := Available(cands, caps);
    if Amount(stock, c, 0.0) >= needed && avail != [] {
      var k := avail[PickIndex(draw, |avail|)];
      assert k in avail;
      assert r.caps.vals == caps.vals[k := caps.vals[k] + INVESTMENT_UNITS];
    } else if Amount(stock, c, 0.0) >= needed {
      assert !r.drew;
      assert forall k :: k in cands && k in caps.vals ==> k in avail;
    }
  }

  /** invest_civilian / invest_military on a world value: without a market or an
      industry nothing happens. */
  function InvestedWorld(w: WorldV, c: CommodityId, needed: real, cands: seq<RecipeId>, draw: nat): (r: (WorldV, bool))
    requires needed >= 0.0
    ensures w.market.None? || w.industry.None? ==> r == (w, false)
    ensures w.market.Some? && w.industry.Some? ==>
      var i := Invested(w.market.value.stock, w.industry.value.caps, c, needed, cands, draw);
      r == (w.(market := Some(w.market.value.(stock := i.stock)), industry := Some(IndustryV(i.caps))), i.drew)
  {
    if w.market.None? || w.industry.None? then (w, false)
    else
      var i := Invested(w.market.value.stock, w.industry.value.caps, c, needed, cands, draw);
      (w.(market := Some(w.market.value.(stock := i.stock)), industry := Some(IndustryV(i.caps))), i.drew)
  }

  /** A military investment on alloy 12 with refine_alloy as the only military
      cap spends 5 alloy and raises refine_alloy from 2 to 3, whatever the draw. */
  lemma MilitaryScenario(draw: nat)
    ensures var caps := Dict(["refine_alloy", "farm_food"], map["refine_alloy" := 2.0, "farm_food" := 4.0]);
      Invested(map[ALLOY := 12.0], caps, ALLOY, ALLOYS_NEEDED, MILITARY_RECIPES, draw) ==
      Investment(map[ALLOY := 7.0], caps.(vals := caps.vals["refine_alloy" := 3.0]), true)
  {
    var caps := Dict(["refine_alloy", "farm_food"], map["refine_alloy" := 2.0, "farm_food" := 4.0]);
    var cands := MILITARY_RECIPES;
    assert cands[..1] == ["refine_alloy"] && cands[..1][..0] == [];
    assert Available(cands[..1], caps) == ["refine_alloy"];
    assert Available(cands, caps) == ["refine_alloy"];
    assert Amount(map[ALLOY := 12.0], ALLOY, 0.0) == 12.0;
    assert map[ALLOY := 12.0][ALLOY := 7.0] == map[ALLOY := 7.0];
  }

  /** The body past the guards, in place on the inventory and the caps. */
  method InvestIn(inv: Inventory, industry: Industry, rng: Rng, c: CommodityId, needed: real, cands: seq<RecipeId>)
    requires needed >= 0.0
    modifies inv, industry, rng
    ensures var i := Invested(old(inv.quantities), old(industry.caps), c, needed, cands, old(rng.Peek()));
      inv.quantities == i.stock && industry.caps == i.caps &&
      rng.pos == old(rng.pos) + (if i.drew then 1 else 0)
  {
    if inv.Get(c, 0.0) >= needed {
      var _ := inv.RemoveClamped(c, needed);
      var avail := Available(cands, industry.caps);
      if avail != [] {
        var k := rng.Choice(avail);
        industry.caps := industry.caps.Put(k, industry.caps.vals[k] + INVESTMENT_UNITS);
      }
    }
  }

  /** The shared shape of invest_civilian and invest_military, in place. */
  method Invest(world: World, rng: Rng, c: CommodityId, needed: real, cands: seq<RecipeId>)
    requires world.Valid() && needed >= 0.0
    modifies world.Inventories(), world.industry, rng
    ensures var (w, drew) := InvestedWorld(old(world.V()), c, needed, cands, old(rng.Peek()));
      world.V() == w && rng.pos == old(rng.pos) + (if drew then 1 else 0)
  {
    if world.market == null || world.industry == null {
      return;
    }
    InvestIn(world.market.inventory, world.industry, rng, c, needed, cands);
  }

  /** invest_civilian(world, state): 10 minerals buy one cap unit for farm_food,
      mine_minerals or refine_consumer_goods. */
  method InvestCivilian(world: World, rng: Rng)
    requires world.Valid()
    modifies world.Inventories(), world.industry, rng
    ensures var (w, drew) := InvestedWorld(old(world.V()), MINERALS, MINERALS_NEEDED, CIVILIAN_RECIPES, old(rng.Peek()));
      world.V() == w && rng.pos == old(rng.pos) + (if drew then 1 else 0)
  {
    Invest(world, rng, MINERALS, MINERALS_NEEDED, CIVILIAN_RECIPES);
  }

  /** invest_military(world, state): 5 alloy buy one cap unit for refine_alloy or
      assemble_alloys. */
  method InvestMilitary(world: World, rng: Rng)
    requires world.Valid()
    modifies world.Inventories(), world.industry, rng
    ensures var (w, drew) := InvestedWorld(old(world.V()), ALLOY, ALLOYS_NEEDED, MILITARY_RECIPES, old(rng.Peek()));
      world.V() == w && rng.pos == old(rng.pos) + (if drew then 1 else 0)
  {
    Invest(world, rng, ALLOY, ALLOYS_NEEDED, MILITARY_RECIPES);
  }
}
