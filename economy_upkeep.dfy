// economy/upkeep.py: energy upkeep of a world's population and industry,
// with penalties when the energy in stock does not cover it.

module EconUpkeep {
  import opened Base
  import opened EconInventory
  import opened EconMarketData
  import opened EconPopulation
  import opened EconIndustry
  import opened WorldModel

  const ENERGY: CommodityId := "energy"
  /** Energy per unit of industry cap. */
  const CAP_UPKEEP_RATE: real := 0.1
  /** Stability and prosperity lost per unit of deficit ratio. */
  const PENALTY_RATE: real := 0.05
  /** Share of each cap lost per unit of deficit ratio. */
  const THROTTLE_RATE: real := 0.1

  /** population_upkeep: size times the per-capita rate. */
  function PopulationUpkeep(size: real, rate: real): real { size * rate }

  /** total_energy_upkeep: the population's upkeep plus 0.1 per unit of cap. */
  function TotalUpkeep(size: real, rate: real, caps: Dict<RecipeId, real>): real
    requires caps.Valid()
  {
    PopulationUpkeep(size, rate) + SumOver(caps.keys, caps.vals) * CAP_UPKEEP_RATE
  }

  /** The unpaid share of the upkeep; 0 when the upkeep is not positive. */
  function DeficitRatio(deficit: real, total: real): real {
    if total > 0.0 then deficit / total else 0.0
  }

  /** With the removed energy between 0 and the upkeep, the deficit ratio lies in [0,1]. */
  lemma DeficitRatioInUnit(total: real, removed: real)
    requires 0.0 <= removed <= total
    ensures InUnit(DeficitRatio(total - removed, total))
    ensures removed < total ==> DeficitRatio(total - removed, total) > 0.0
  {
    if total > 0.0 {
      var r := DeficitRatio(total - removed, total);
      assert r * total == total - removed;
    }
  }

  /** max(0, x - ratio*0.05): the floored stability or prosperity penalty. */
  function Penalized(x: real, ratio: real): (r: real)
    ensures r >= 0.0
    ensures ratio >= 0.0 && x >= 0.0 ==> r <= x
    ensures InUnit(x) && ratio >= 0.0 ==> InUnit(r)
  {
    Max(0.0, x - ratio * PENALTY_RATE)
  }

  /** max(0, cap * (1 - ratio*0.1)): the floored, throttled cap. */
  function Throttled(cap: real, ratio: real): (r: real)
    ensures r >= 0.0
  {
    Max(0.0, cap * (1.0 - ratio * THROTTLE_RATE))
  }

  /** A throttled cap never exceeds the cap it came from, for a ratio in [0,1]. */
  lemma ThrottledAtMost(cap: real, ratio: real)
    requires cap >= 0.0 && InUnit(ratio)
    ensures Throttled(cap, ratio) <= cap
  {
    var f := 1.0 - ratio * THROTTLE_RATE;
    assert 0.0 <= f <= 1.0;
    assert cap * f <= cap * 1.0;
  }

  /** The throttling loop over the given keys: caps[k] = max(0, caps[k]*(1 - ratio*0.1)). */
  function ThrottledCaps(d: Dict<RecipeId, real>, keys: seq<RecipeId>, ratio: real): Dict<RecipeId, real>
    decreases |keys|
  {
    if keys == [] then d
    else
      var pre := ThrottledCaps(d, keys[..|keys| - 1], ratio);
      var k := keys[|keys| - 1];
      pre.Put(k, Throttled(pre.Get(k, 0.0), ratio))
  }

  /** Over the dictionary's own keys, every cap is throttled once, no key is
      added and the key order is kept. */
  lemma {:induction false} ThrottledCapsAt(d: Dict<RecipeId, real>, keys: seq<RecipeId>, ratio: real, k: RecipeId)
    requires d.Valid() && Distinct(keys) && forall j :: j in keys ==> j in d.vals
    ensures ThrottledCaps(d, keys, ratio).keys == d.keys
    ensures ThrottledCaps(d, keys, ratio).vals.Keys == d.vals.Keys
    ensures k in keys ==> ThrottledCaps(d, keys, ratio).vals[k] == Throttled(d.vals[k], ratio)
    ensures k !in keys && k in d.vals ==> ThrottledCaps(d, keys, ratio).vals[k] == d.vals[k]
    decreases |keys|
  {
    if keys != [] {
      var pre := keys[..|keys| - 1];
      var last := keys[|keys| - 1];
      assert forall i :: 0 <= i < |pre| ==> pre[i] != last;
      assert last !in pre;
      ThrottledCapsAt(d, pre, ratio, k);
      ThrottledCapsAt(d, pre, ratio, last);
      assert k in keys <==> k in pre || k == last;
    }
  }

  /** What apply_upkeep reads and changes once every component is present. */
  datatype Upkeep = Upkeep(stock: Stock, stability: real, prosperity: real, caps: Dict<RecipeId, real>)

  /** The body of apply_upkeep past its guards: remove the upkeep from the
      energy in stock; if some of it could not be paid, penalize stability and
      prosperity and throttle every cap by the unpaid share. */
  function Upkept(u: Upkeep, size: real, rate: real): (r: Result<Upkeep>)
    requires u.caps.Valid()
    ensures r.Ok? <==> TotalUpkeep(size, rate, u.caps) >= 0.0
  {
    var total := TotalUpkeep(size, rate, u.caps);
    var rm :- RemovedClamped(u.stock, ENERGY, total);
    var deficit := total - rm.removed;
    if deficit > 0.0 then
      var ratio := DeficitRatio(deficit, total);
      Ok(Upkeep(rm.stock, Penalized(u.stability, ratio), Penalized(u.prosperity, ratio),
                ThrottledCaps(u.caps, u.caps.keys, ratio)))
    else Ok(u.(stock := rm.stock))
  }

  /** apply_upkeep(world, state) on a world value. Without a market, a
      population and an industry nothing happens; a population without an
      upkeep rate raises AttributeError; a negative upkeep raises ValueError. */
  function UpkeptWorld(w: WorldV): (r: Result<WorldV>)
    requires w.industry.Some? ==> w.industry.value.caps.Valid()
    ensures w.market.None? || w.population.None? || w.industry.None? ==> r == Ok(w)
    ensures r.Ok? && w.market.Some? && w.industry.Some? ==>
      (r.value.market.Some? && r.value.industry.Some? &&
       r.value == w.(market := Some(w.market.value.(stock := r.value.market.value.stock)),
                     stability := r.value.stability, prosperity := r.value.prosperity,
                     industry := r.value.industry))
  {
    if w.market.None? || w.population.None? || w.industry.None? then Ok(w)
    else
      var m, pop := w.market.value, w.population.value;
      if pop.energyUpkeep.None? then Fail(MissingComponent("energy_upkeep_per_capita_per_tick"))
      else
        var u :- Upkept(Upkeep(m.stock, w.stability, w.prosperity, w.industry.value.caps),
                        pop.size, pop.energyUpkeep.value);
        Ok(w.(market := Some(m.(stock := u.stock)), stability := u.stability, prosperity := u.prosperity,
              industry := Some(IndustryV(u.caps))))
  }

  /** When the energy in stock covers the upkeep, exactly the upkeep is removed
      and stability, prosperity and caps are unchanged. */
  lemma UpkeepCovered(u: Upkeep, size: real, rate: real)
    requires u.caps.Valid()
    requires 0.0 <= TotalUpkeep(size, rate, u.caps) <= Amount(u.stock, ENERGY, 0.0)
    ensures Upkept(u, size, rate).Ok?
    ensures var r := Upkept(u, size, rate).value;
      Ok(Removal(r.stock, TotalUpkeep(size, rate, u.caps))) == RemovedClamped(u.stock, ENERGY, TotalUpkeep(size, rate, u.caps)) &&
      r.stability == u.stability && r.prosperity == u.prosperity && r.caps == u.caps
  {
  }

  /** With a deficit, the ratio is in (0,1] for a non-negative stock; stability
      and prosperity fall by ratio*0.05, floored at 0, all the energy in stock
      is used up, and every cap is throttled. */
  lemma UpkeepDeficit(u: Upkeep, size: real, rate: real, k: RecipeId)
    requires u.caps.Valid() && NonNegative(u.stock)
    requires 0.0 <= TotalUpkeep(size, rate, u.caps) && Amount(u.stock, ENERGY, 0.0) < TotalUpkeep(size, rate, u.caps)
    ensures Upkept(u, size, rate).Ok?
    ensures var total := TotalUpkeep(size, rate, u.caps);
      var ratio := DeficitRatio(total - Amount(u.stock, ENERGY, 0.0), total);
      var r := Upkept(u, size, rate).value;
      InUnit(ratio) && ratio > 0.0 &&
      Amount(r.stock, ENERGY, 0.0) == 0.0 &&
      r.stability == Penalized(u.stability, ratio) && r.prosperity == Penalized(u.prosperity, ratio) &&
      r.caps.keys == u.caps.keys &&
      (k in u.caps.vals ==> k in r.caps.vals && r.caps.vals[k] == Throttled(u.caps.vals[k], ratio))
  {
    var total := TotalUpkeep(size, rate, u.caps);
    var avail := Amount(u.stock, ENERGY, 0.0);
    UpkeptShort(u, size, rate);
    DeficitRatioInUnit(total, avail);
    ThrottledCapsAt(u.caps, u.caps.keys, DeficitRatio(total - avail, total), k);
  }

  /** Upkept when the stock falls short: the whole stock is removed. */
  lemma UpkeptShort(u: Upkeep, size: real, rate: real)
    requires u.caps.Valid()
    requires 0.0 <= TotalUpkeep(size, rate, u.caps) && Amount(u.stock, ENERGY, 0.0) < TotalUpkeep(size, rate, u.caps)
    ensures var total := TotalUpkeep(size, rate, u.caps);
      var avail := Amount(u.stock, ENERGY, 0.0);
      var ratio := DeficitRatio(total - avail, total);
      var rm := RemovedClamped(u.stock, ENERGY, total);
      rm.Ok? && rm.value.removed == avail && ENERGY !in rm.value.stock &&
      Upkept(u, size, rate) == Ok(Upkeep(rm.value.stock, Penalized(u.stability, ratio), Penalized(u.prosperity, ratio),
                                         ThrottledCaps(u.caps, u.caps.keys, ratio)))
  {
  }

  /** apply_upkeep keeps stability and prosperity in [0,1], the stock and the
      caps non-negative, keeps every cap, and never raises one. */
  lemma UpkeepBounds(u: Upkeep, size: real, rate: real, k: RecipeId)
    requires u.caps.Valid() && NonNegative(u.stock) && Upkept(u, size, rate).Ok?
    requires k in u.caps.vals && u.caps.vals[k] >= 0.0
    ensures var r := Upkept(u, size, rate).value;
      (InUnit(u.stability) ==> InUnit(r.stability)) &&
      (InUnit(u.prosperity) ==> InUnit(r.prosperity)) &&
      NonNegative(r.stock) &&
      k in r.caps.vals && 0.0 <= r.caps.vals[k] <= u.caps.vals[k]
  {
    var total := TotalUpkeep(size, rate, u.caps);
    var avail := Amount(u.stock, ENERGY, 0.0);
    if avail < total {
      UpkeepDeficit(u, size, rate, k);
      ThrottledAtMost(u.caps.vals[k], DeficitRatio(total - avail, total));
    } else {
      UpkeepCovered(u, size, rate);
    }
  }

  /** The caps of the upkeep scenario: mine_minerals 10 and farm_food 5. */
  function ScenarioCaps(): Dict<RecipeId, real> {
    Dict(["mine_minerals", "farm_food"], map["mine_minerals" := 10.0, "farm_food" := 5.0])
  }

  /** The upkeep of 1000 people at 0.01 with caps 10 and 5 is 11.5; from 100
      energy it leaves 88.5 and changes nothing else. */
  lemma UpkeepScenario()
    ensures TotalUpkeep(1000.0, 0.01, ScenarioCaps()) == 11.5
    ensures var u := Upkeep(map[ENERGY := 100.0], 0.8, 0.8, ScenarioCaps());
      Upkept(u, 1000.0, 0.01) == Ok(u.(stock := map[ENERGY := 88.5]))
  {
    var caps := ScenarioCaps();
    assert caps.keys[..1] == ["mine_minerals"] && ["mine_minerals"][..0] == [];
    assert SumOver(caps.keys, caps.vals) == 15.0;
    assert PopulationUpkeep(1000.0, 0.01) == 10.0;
    var u := Upkeep(map[ENERGY := 100.0], 0.8, 0.8, caps);
    UpkeepCovered(u, 1000.0, 0.01);
    assert Amount(u.stock, ENERGY, 0.0) == 100.0;
    assert u.stock[ENERGY := 88.5] == map[ENERGY := 88.5];
    assert RemovedClamped(u.stock, ENERGY, 11.5) == Ok(Removal(map[ENERGY := 88.5], 11.5));
  }

  /** The throttling loop, in place on the industry's caps. */
  method ThrottleCaps(industry: Industry, ratio: real)
    requires industry.caps.Valid()
    modifies industry
    ensures industry.caps == ThrottledCaps(old(industry.caps), old(industry.caps.keys), ratio)
  {
    var keys := industry.caps.keys;
    ghost var d0 := industry.caps;
    var i := 0;
    while i < |keys|
      invariant 0 <= i <= |keys|
      invariant industry.caps == ThrottledCaps(d0, keys[..i], ratio)
    {
      assert keys[..i + 1][..i] == keys[..i];
      var k := keys[i];
      industry.caps := industry.caps.Put(k, Throttled(industry.caps.Get(k, 0.0), ratio));
      i := i + 1;
    }
    assert keys[..i] == keys;
  }

  /** sum(industry.caps.values()) */
  method SumCaps(caps: Dict<RecipeId, real>) returns (s: real)
    requires caps.Valid()
    ensures s == SumOver(caps.keys, caps.vals)
  {
    s := 0.0;
    var i := 0;
    while i < |caps.keys|
      invariant 0 <= i <= |caps.keys|
      invariant s == SumOver(caps.keys[..i], caps.vals)
    {
      assert caps.keys[..i + 1][..i] == caps.keys[..i];
      s := s + caps.vals[caps.keys[i]];
      i := i + 1;
    }
    assert caps.keys[..i] == caps.keys;
  }

  /** The body of apply_upkeep past its guards, in place. */
  method PayUpkeep(world: World, inv: Inventory, industry: Industry, size: real, rate: real) returns (r: Result<()>)
    requires industry.caps.Valid()
    modifies world`stability, world`prosperity, inv, industry
    ensures var u := Upkept(Upkeep(old(inv.quantities), old(world.stability), old(world.prosperity), old(industry.caps)), size, rate);
      (r.Ok? <==> u.Ok?) &&
      (r.Ok? ==> u.value == Upkeep(inv.quantities, world.stability, world.prosperity, industry.caps))
  {
    var capSum := SumCaps(industry.caps);
    var total := PopulationUpkeep(size, rate) + capSum * CAP_UPKEEP_RATE;
    var got := inv.RemoveClamped(ENERGY, total);
    if got.Fail? {
      return Fail(got.error);
    }
    var deficit := total - got.value;
    if deficit > 0.0 {
      var ratio := DeficitRatio(deficit, total);
      world.stability := Penalized(world.stability, ratio);
      world.prosperity := Penalized(world.prosperity, ratio);
      ThrottleCaps(industry, ratio);
    }
    return Ok(());
  }

  /** apply_upkeep(world, state) in place. */
  method ApplyUpkeep(world: World) returns (r: Result<()>)
    requires world.Valid()
    requires world.industry != null ==> world.industry.caps.Valid()
    modifies world`stability, world`prosperity, world.Inventories(), world.industry
    ensures r.Ok? <==> UpkeptWorld(old(world.V())).Ok?
    ensures r.Ok? ==> world.V() == UpkeptWorld(old(world.V())).value
  {
    if world.market == null || world.population == null || world.industry == null {
      return Ok(());
    }
    var pop := world.population;
    if pop.energyUpkeep.None? {
      return Fail(MissingComponent("energy_upkeep_per_capita_per_tick"));
    }
    r := PayUpkeep(world, world.market.inventory, world.industry, pop.size, pop.energyUpkeep.value);
  }
}
