// generation/bootstrap.py: apply_planet_potentials_to_world, which gives a
// generated world its missing components and derives its starting state from
// the first planet.

module GenBootstrap {
  import opened Base
  import opened EconInventory
  import opened EconMarketData
  import opened EconPopulation
  import opened EconIndustry
  import opened FactionModel
  import opened GenModel
  import opened WorldModel

  const BASE_POPULATION: real := 1000000.0
  const PRODUCTION_CAP_SCALING_FACTOR: real := 100.0

  const MINERALS: CommodityId := "minerals"
  const FOOD: CommodityId := "food"
  const ENERGY: CommodityId := "energy"
  const MINE_MINERALS: RecipeId := "mine_minerals"
  const FARM_FOOD: RecipeId := "farm_food"

  // ---------------------------------------------------------------------
  // Potentials to industry caps
  // ---------------------------------------------------------------------

  /** The recipe a minerals or food potential sets. */
  function Target(c: CommodityId): RecipeId
    requires c == MINERALS || c == FOOD
  {
    if c == MINERALS then MINE_MINERALS else FARM_FOOD
  }

  /** One potential entry applied to the caps: minerals and food set their
      recipe's cap to the scaled potential; energy adds half of it to both,
      each starting from 0 when absent (setdefault, farm_food first); any
      other commodity leaves the caps alone. */
  function PotentialApplied(caps: Dict<RecipeId, real>, c: CommodityId, p: real): Dict<RecipeId, real>
  {
    var scaled := p * PRODUCTION_CAP_SCALING_FACTOR;
    if c == MINERALS then caps.Put(MINE_MINERALS, scaled)
    else if c == FOOD then caps.Put(FARM_FOOD, scaled)
    else if c == ENERGY then
      var c1 := caps.Put(FARM_FOOD, caps.Get(FARM_FOOD, 0.0) + scaled * 0.5);
      c1.Put(MINE_MINERALS, c1.Get(MINE_MINERALS, 0.0) + scaled * 0.5)
    else caps
  }

  /** The caps after the potentials listed in ks, in that order. */
  function Potentials(caps: Dict<RecipeId, real>, ks: seq<CommodityId>, pots: map<CommodityId, real>): Dict<RecipeId, real>
    requires forall k :: k in ks ==> k in pots
  {
    if ks == [] then caps
    else
      var last := ks[|ks| - 1];
      PotentialApplied(Potentials(caps, ks[..|ks| - 1], pots), last, pots[last])
  }

  lemma PotentialAppliedEffect(caps: Dict<RecipeId, real>, c: CommodityId, p: real)
    ensures var r := PotentialApplied(caps, c, p);
      (caps.Valid() ==> r.Valid()) &&
      caps.vals.Keys <= r.vals.Keys <= caps.vals.Keys + {MINE_MINERALS, FARM_FOOD} &&
      (forall k :: k != MINE_MINERALS && k != FARM_FOOD && k in caps.vals ==> r.vals[k] == caps.vals[k]) &&
      (c == MINERALS ==> r.vals[MINE_MINERALS] == 100.0 * p && r.Get(FARM_FOOD, 0.0) == caps.Get(FARM_FOOD, 0.0)) &&
      (c == FOOD ==> r.vals[FARM_FOOD] == 100.0 * p && r.Get(MINE_MINERALS, 0.0) == caps.Get(MINE_MINERALS, 0.0)) &&
      (c == ENERGY ==>
        r.vals[FARM_FOOD] == caps.Get(FARM_FOOD, 0.0) + 50.0 * p &&
        r.vals[MINE_MINERALS] == caps.Get(MINE_MINERALS, 0.0) + 50.0 * p) &&
      (c != MINERALS && c != FOOD && c != ENERGY ==> r == caps)
  {
  }

  lemma {:induction false} PotentialsSplit(caps: Dict<RecipeId, real>, a: seq<CommodityId>, b: seq<CommodityId>, pots: map<CommodityId, real>)
    requires forall k :: k in a + b ==> k in pots
    ensures Potentials(caps, a + b, pots) == Potentials(Potentials(caps, a, pots), b, pots)
    decreases |b|
  {
    if b == [] {
      assert a + b == a;
    } else {
      var b0 := b[..|b| - 1];
      assert (a + b)[..|a + b| - 1] == a + b0;
      assert (a + b)[|a + b| - 1] == b[|b| - 1];
      PotentialsSplit(caps, a, b0, pots);
    }
  }

  /** Potentials for other commodities than c and energy never touch c's recipe. */
  lemma {:induction false} PotentialsUntouched(caps: Dict<RecipeId, real>, ks: seq<CommodityId>, pots: map<CommodityId, real>, c: CommodityId)
    requires forall k :: k in ks ==> k in pots
    requires c == MINERALS || c == FOOD
    requires c !in ks && ENERGY !in ks
    ensures var r := Potentials(caps, ks, pots);
      caps.vals.Keys <= r.vals.Keys && r.Get(Target(c), 0.0) == caps.Get(Target(c), 0.0)
  {
    if ks != [] {
      var init := ks[..|ks| - 1];
      var last := ks[|ks| - 1];
      assert forall k :: k in init ==> k in ks;
      PotentialsUntouched(caps, init, pots, c);
      PotentialAppliedEffect(Potentials(caps, init, pots), last, pots[last]);
    }
  }

  /** Every key the potentials add is farm_food or mine_minerals, nothing
      already there is lost, and any other cap keeps its value. */
  lemma {:induction false} PotentialsFrame(caps: Dict<RecipeId, real>, ks: seq<CommodityId>, pots: map<CommodityId, real>)
    requires forall k :: k in ks ==> k in pots
    ensures var r := Potentials(caps, ks, pots);
      (caps.Valid() ==> r.Valid()) &&
      caps.vals.Keys <= r.vals.Keys <= caps.vals.Keys + {MINE_MINERALS, FARM_FOOD} &&
      (forall k :: k != MINE_MINERALS && k != FARM_FOOD && k in caps.vals ==> r.vals[k] == caps.vals[k])
  {
    if ks != [] {
      var init := ks[..|ks| - 1];
      var last := ks[|ks| - 1];
      assert forall k :: k in init ==> k in ks;
      PotentialsFrame(caps, init, pots);
      PotentialAppliedEffect(Potentials(caps, init, pots), last, pots[last]);
    }
  }

  /** ks cut around its entry at index i. */
  lemma Cut(ks: seq<CommodityId>, i: nat)
    requires i < |ks|
    ensures ks == ks[..i] + [ks[i]] + ks[i + 1..]
  {
  }

  /** A distinct sequence holds ks[at] nowhere else. */
  lemma DistinctSlice(ks: seq<CommodityId>, lo: nat, hi: nat, at: nat)
    requires Distinct(ks) && lo <= hi <= |ks| && at < |ks| && !(lo <= at < hi)
    ensures ks[at] !in ks[lo..hi]
  {
    var s := ks[lo..hi];
    forall m | 0 <= m < |s| ensures s[m] != ks[at] {
      assert s[m] == ks[lo + m];
    }
  }

  lemma NotInSlice(ks: seq<CommodityId>, lo: nat, x: CommodityId)
    requires x !in ks && lo <= |ks|
    ensures x !in ks[lo..]
  {
    var s := ks[lo..];
    forall m | 0 <= m < |s| ensures s[m] != x {
      assert s[m] == ks[lo + m];
    }
  }

  /** A minerals or food entry sets its cap outright, and energy entries
      before it are lost: with energy listed first, the later entry wins. */
  lemma EnergyThenOverwrite(caps: Dict<RecipeId, real>, ks: seq<CommodityId>, pots: map<CommodityId, real>, c: CommodityId, i: nat)
    requires forall k :: k in ks ==> k in pots
    requires Distinct(ks) && (c == MINERALS || c == FOOD)
    requires i < |ks| && ks[i] == c && ENERGY !in ks[i + 1..]
    ensures Target(c) in Potentials(caps, ks, pots).vals
    ensures Potentials(caps, ks, pots).vals[Target(c)] == 100.0 * pots[c]
  {
    var pre, post := ks[..i], ks[i + 1..];
    Cut(ks, i);
    DistinctSlice(ks, i + 1, |ks|, i);
    PotentialsSplit(caps, pre + [c], post, pots);
    PotentialsSplit(caps, pre, [c], pots);
    assert [c][..0] == [];
    var mid := Potentials(caps, pre + [c], pots);
    PotentialAppliedEffect(Potentials(caps, pre, pots), c, pots[c]);
    assert mid.vals[Target(c)] == 100.0 * pots[c];
    PotentialsUntouched(mid, post, pots, c);
  }

  /** With c's entry before the energy entry, the energy boost is added on
      top: minerals or food p and energy e give 100p + 50e. */
  lemma OverwriteThenEnergy(caps: Dict<RecipeId, real>, ks: seq<CommodityId>, pots: map<CommodityId, real>, c: CommodityId, i: nat, j: nat)
    requires forall k :: k in ks ==> k in pots
    requires Distinct(ks) && (c == MINERALS || c == FOOD)
    requires i < j < |ks| && ks[i] == c && ks[j] == ENERGY
    ensures Target(c) in Potentials(caps, ks, pots).vals
    ensures Potentials(caps, ks, pots).vals[Target(c)] == 100.0 * pots[c] + 50.0 * pots[ENERGY]
  {
    var pre, post := ks[..j], ks[j + 1..];
    Cut(ks, j);
    assert forall k :: k in pre ==> k in ks;
    assert pre[i] == c;
    assert Distinct(pre);
    DistinctSlice(ks, i + 1, j, j);
    assert pre[i + 1..] == ks[i + 1..j];
    EnergyThenOverwrite(caps, pre, pots, c, i);
    var before := Potentials(caps, pre, pots);
    DistinctSlice(ks, j + 1, |ks|, i);
    DistinctSlice(ks, j + 1, |ks|, j);
    PotentialsSplit(caps, pre + [ENERGY], post, pots);
    PotentialsSplit(caps, pre, [ENERGY], pots);
    assert [ENERGY][..0] == [];
    var mid := Potentials(caps, pre + [ENERGY], pots);
    PotentialAppliedEffect(before, ENERGY, pots[ENERGY]);
    PotentialsUntouched(mid, post, pots, c);
  }

  /** Food, minerals, energy on an empty industry: the boosts add and exactly
      two caps result. */
  lemma FoodMineralsEnergy(ks: seq<CommodityId>, pots: map<CommodityId, real>)
    requires ks == [FOOD, MINERALS, ENERGY] && FOOD in pots && MINERALS in pots && ENERGY in pots
    ensures var r := Potentials(EmptyDict(), ks, pots);
      r.keys == [FARM_FOOD, MINE_MINERALS] && r.vals.Keys == {FARM_FOOD, MINE_MINERALS} &&
      r.vals[FARM_FOOD] == 100.0 * pots[FOOD] + 50.0 * pots[ENERGY] &&
      r.vals[MINE_MINERALS] == 100.0 * pots[MINERALS] + 50.0 * pots[ENERGY]
  {
    var c0: Dict<RecipeId, real> := EmptyDict();
    var c1 := PotentialApplied(c0, FOOD, pots[FOOD]);
    var c2 := PotentialApplied(c1, MINERALS, pots[MINERALS]);
    PotentialsSnoc(c0, [], FOOD, pots);
    assert [] + [FOOD] == [FOOD];
    assert Potentials(c0, [FOOD], pots) == c1;
    PotentialsSnoc(c0, [FOOD], MINERALS, pots);
    assert [FOOD] + [MINERALS] == [FOOD, MINERALS];
    assert Potentials(c0, [FOOD, MINERALS], pots) == c2;
    PotentialsSnoc(c0, [FOOD, MINERALS], ENERGY, pots);
    assert [FOOD, MINERALS] + [ENERGY] == ks;
    assert Potentials(c0, ks, pots) == PotentialApplied(c2, ENERGY, pots[ENERGY]);
    FoodThenMinerals(pots[FOOD], pots[MINERALS]);
    EnergyOnBoth(c2, pots[ENERGY]);
  }

  lemma FoodThenMinerals(f: real, m: real)
    ensures var r := PotentialApplied(PotentialApplied(EmptyDict(), FOOD, f), MINERALS, m);
      r.keys == [FARM_FOOD, MINE_MINERALS] && r.vals.Keys == {FARM_FOOD, MINE_MINERALS} &&
      r.vals[FARM_FOOD] == 100.0 * f && r.vals[MINE_MINERALS] == 100.0 * m
  {
  }

  lemma EnergyOnBoth(d: Dict<RecipeId, real>, e: real)
    requires d.keys == [FARM_FOOD, MINE_MINERALS] && d.vals.Keys == {FARM_FOOD, MINE_MINERALS}
    ensures var r := PotentialApplied(d, ENERGY, e);
      r.keys == d.keys && r.vals.Keys == d.vals.Keys &&
      r.vals[FARM_FOOD] == d.vals[FARM_FOOD] + 50.0 * e && r.vals[MINE_MINERALS] == d.vals[MINE_MINERALS] + 50.0 * e
  {
  }

  lemma PotentialsSnoc(caps: Dict<RecipeId, real>, ks: seq<CommodityId>, k: CommodityId, pots: map<CommodityId, real>)
    requires forall j :: j in ks + [k] ==> j in pots
    ensures Potentials(caps, ks + [k], pots) == PotentialApplied(Potentials(caps, ks, pots), k, pots[k])
  {
    assert (ks + [k])[..|ks|] == ks;
  }

  // ---------------------------------------------------------------------
  // The bootstrapped world, as a value
  // ---------------------------------------------------------------------

  /** max(1, floor(BASE_POPULATION * habitability)) */
  function PopulationFor(h: real): (size: real)
    ensures size >= 1.0 && size == size.Floor as real
    ensures size == 1.0 || BASE_POPULATION * h - 1.0 < size <= BASE_POPULATION * h
  {
    Max(1.0, (BASE_POPULATION * h).Floor as real)
  }

  /** The components Population(), Industry(), Market() and WorldFactionState() hold. */
  const NEW_POPULATION: PopulationV := PopulationV(DEFAULT_POPULATION_SIZE, DEFAULT_GROWTH_RATE, EmptyDict(), None)
  const NEW_INDUSTRY: IndustryV := IndustryV(EmptyDict())
  const NEW_MARKET: MarketV := MarketV(map[], EmptyDict(), EmptyDict(), DEFAULT_PRICE_CHANGE_FACTOR,
                                       DEFAULT_MIN_PRICE_MULTIPLIER, DEFAULT_MAX_PRICE_MULTIPLIER)
  const NEW_FACTIONS: FactionStateV := FactionStateV(EmptyDict(), map[], true, None, DEFAULT_GAIN, DEFAULT_LOSS)

  function OrNew<T>(o: Option<T>, dflt: T): T {
    if o.Some? then o.value else dflt
  }

  predicate PotentialsValid(w: WorldV) {
    w.planets != [] ==> w.planets[0].resourcePotentials.Valid()
  }

  /** The world with each missing component created. */
  function WithComponents(w: WorldV): WorldV {
    w.(population := Some(OrNew(w.population, NEW_POPULATION)),
       industry := Some(OrNew(w.industry, NEW_INDUSTRY)),
       market := Some(OrNew(w.market, NEW_MARKET)),
       factions := Some(OrNew(w.factions, NEW_FACTIONS)))
  }

  /** The state the first planet gives a world that has every component. */
  function FromPrimary(w: WorldV): WorldV
    requires PotentialsValid(w) && w.population.Some? && w.industry.Some?
  {
    if w.planets == [] then w
    else
      var primary := w.planets[0];
      var pots := primary.resourcePotentials;
      w.(stability := primary.habitability, prosperity := primary.habitability,
         population := Some(w.population.value.(size := PopulationFor(primary.habitability))),
         industry := Some(IndustryV(Potentials(w.industry.value.caps, pots.keys, pots.vals))))
  }

  function Bootstrapped(w: WorldV): WorldV
    requires PotentialsValid(w)
  {
    FromPrimary(WithComponents(w))
  }

  /** Every component is present afterwards; an existing market or faction
      state is kept as it was, and an existing population and industry keep
      everything but the size and caps the first planet sets. */
  lemma BootstrapComponents(w: WorldV)
    requires PotentialsValid(w)
    ensures var r := Bootstrapped(w);
      r.population.Some? && r.industry.Some? && r.market.Some? && r.factions.Some? &&
      r.market == (if w.market.Some? then w.market else Some(NEW_MARKET)) &&
      r.factions == (if w.factions.Some? then w.factions else Some(NEW_FACTIONS)) &&
      (w.population.Some? ==> r.population.value.growthRate == w.population.value.growthRate &&
                              r.population.value.needs == w.population.value.needs &&
                              r.population.value.energyUpkeep == w.population.value.energyUpkeep) &&
      (w.population.None? ==> r.population.value == NEW_POPULATION.(size := r.population.value.size)) &&
      (w.planets == [] ==> r.population == Some(OrNew(w.population, NEW_POPULATION)) &&
                           r.industry == Some(OrNew(w.industry, NEW_INDUSTRY)))
  {
  }

  /** Without planets nothing but component creation happens. */
  lemma BootstrapNoPlanets(w: WorldV)
    requires w.planets == []
    ensures var r := Bootstrapped(w);
      r.(population := w.population, industry := w.industry, market := w.market, factions := w.factions) == w
  {
  }

  /** With planets, stability and prosperity become the first planet's
      habitability, the population size max(1, floor(1e6 * habitability)),
      and the caps are the old ones (or none) with the potentials applied in
      order; nothing else changes. */
  lemma BootstrapPrimary(w: WorldV)
    requires PotentialsValid(w) && w.planets != []
    ensures var r := Bootstrapped(w);
      var h := w.planets[0].habitability;
      var pots := w.planets[0].resourcePotentials;
      var caps0 := OrNew(w.industry, NEW_INDUSTRY).caps;
      r.stability == h && r.prosperity == h &&
      r.population.value.size == PopulationFor(h) &&
      r.industry == Some(IndustryV(Potentials(caps0, pots.keys, pots.vals))) &&
      r.(stability := w.stability, prosperity := w.prosperity, population := w.population,
         industry := w.industry, market := w.market, factions := w.factions) == w
  {
  }

  /** Without energy entries, applying distinct potentials a second time
      changes nothing. */
  lemma PotentialsTwice(caps: Dict<RecipeId, real>, ks: seq<CommodityId>, pots: map<CommodityId, real>)
    requires forall k :: k in ks ==> k in pots
    requires Distinct(ks) && ENERGY !in ks
    ensures Potentials(Potentials(caps, ks, pots), ks, pots) == Potentials(caps, ks, pots)
  {
    var once := Potentials(caps, ks, pots);
    forall j | 0 <= j < |ks| && (ks[j] == MINERALS || ks[j] == FOOD)
      ensures Target(ks[j]) in once.vals && once.vals[Target(ks[j])] == 100.0 * pots[ks[j]]
    {
      NotInSlice(ks, j + 1, ENERGY);
      EnergyThenOverwrite(caps, ks, pots, ks[j], j);
    }
    PotentialsFixed(once, ks, pots);
  }

  /** Energy-free potentials whose caps are already in place change nothing. */
  lemma {:induction false} PotentialsFixed(r: Dict<RecipeId, real>, ks: seq<CommodityId>, pots: map<CommodityId, real>)
    requires forall k :: k in ks ==> k in pots
    requires ENERGY !in ks
    requires forall j :: 0 <= j < |ks| && (ks[j] == MINERALS || ks[j] == FOOD) ==>
      Target(ks[j]) in r.vals && r.vals[Target(ks[j])] == 100.0 * pots[ks[j]]
    ensures Potentials(r, ks, pots) == r
  {
    if ks != [] {
      var init := ks[..|ks| - 1];
      var last := ks[|ks| - 1];
      assert forall k :: k in init ==> k in ks;
      assert forall j :: 0 <= j < |init| ==> init[j] == ks[j];
      PotentialsFixed(r, init, pots);
      if last == MINERALS || last == FOOD {
        var t := Target(last);
        assert r.vals[t := pots[last] * PRODUCTION_CAP_SCALING_FACTOR] == r.vals;
      }
    }
  }

  /** Bootstrapping twice is bootstrapping once for a first planet without an
      energy potential (an energy potential adds its boost again). */
  lemma BootstrapIdempotentWithoutEnergy(w: WorldV)
    requires PotentialsValid(w) && (w.planets != [] ==> ENERGY !in w.planets[0].resourcePotentials.keys)
    ensures PotentialsValid(Bootstrapped(w))
    ensures Bootstrapped(Bootstrapped(w)) == Bootstrapped(w)
  {
    if w.planets != [] {
      var pots := w.planets[0].resourcePotentials;
      var caps0 := OrNew(w.industry, NEW_INDUSTRY).caps;
      PotentialsTwice(caps0, pots.keys, pots.vals);
    }
  }

  // ---------------------------------------------------------------------
  // The imperative operation on a World
  // ---------------------------------------------------------------------

  /** One pass of the caps loop. */
  method ApplyPotential(industry: Industry, c: CommodityId, p: real)
    modifies industry
    ensures industry.caps == PotentialApplied(old(industry.caps), c, p)
  {
    var scaled := p * PRODUCTION_CAP_SCALING_FACTOR;
    if c == MINERALS {
      industry.caps := industry.caps.Put(MINE_MINERALS, scaled);
    } else if c == FOOD {
      industry.caps := industry.caps.Put(FARM_FOOD, scaled);
    } else if c == ENERGY {
      Boost(industry, FARM_FOOD, scaled * 0.5);
      Boost(industry, MINE_MINERALS, scaled * 0.5);
    }
  }

  /** caps.setdefault(r, 0.0); caps[r] += amount */
  method Boost(industry: Industry, r: RecipeId, amount: real)
    modifies industry
    ensures industry.caps == old(industry.caps).Put(r, old(industry.caps).Get(r, 0.0) + amount)
  {
    if r !in industry.caps.vals {
      industry.caps := industry.caps.Put(r, 0.0);
    }
    industry.caps := industry.caps.Put(r, industry.caps.vals[r] + amount);
    assert industry.caps.vals == old(industry.caps).vals[r := old(industry.caps).Get(r, 0.0) + amount];
  }

  /** The caps loop over the first planet's potentials. */
  method ApplyPotentials(industry: Industry, pots: Dict<CommodityId, real>)
    requires pots.Valid()
    modifies industry
    ensures industry.caps == Potentials(old(industry.caps), pots.keys, pots.vals)
  {
    for i := 0 to |pots.keys|
      invariant industry.caps == Potentials(old(industry.caps), pots.keys[..i], pots.vals)
    {
      var c := pots.keys[i];
      ApplyPotential(industry, c, pots.vals[c]);
      assert pots.keys[..i + 1][..i] == pots.keys[..i];
    }
    assert pots.keys[..|pots.keys|] == pots.keys;
  }

  /** Population() and Industry() for a world lacking them. */
  method CreateProducers(world: World)
    requires world.Valid()
    modifies world`population, world`industry
    ensures world.Valid()
    ensures world.V() == old(world.V()).(population := Some(OrNew(old(world.V()).population, NEW_POPULATION)),
                                         industry := Some(OrNew(old(world.V()).industry, NEW_INDUSTRY)))
    ensures old(world.population) != null ==> world.population == old(world.population)
    ensures old(world.industry) != null ==> world.industry == old(world.industry)
    ensures old(world.population) == null ==> fresh(world.population)
    ensures old(world.industry) == null ==> fresh(world.industry)
    ensures world.population != null && world.industry != null
  {
    ghost var w := world.V();
    if world.population == null {
      world.population := new Population(world.id, DEFAULT_POPULATION_SIZE, DEFAULT_GROWTH_RATE, EmptyDict(), None);
    }
    if world.industry == null {
      world.industry := new Industry(world.id, EmptyDict());
    }
    assert world.population.V() == OrNew(w.population, NEW_POPULATION);
    assert world.industry.V() == OrNew(w.industry, NEW_INDUSTRY);
  }

  /** Market() and WorldFactionState() for a world lacking them. */
  method CreateHoldings(world: World)
    requires world.Valid()
    modifies world`market, world`factions
    ensures world.Valid()
    ensures world.V() == old(world.V()).(market := Some(OrNew(old(world.V()).market, NEW_MARKET)),
                                         factions := Some(OrNew(old(world.V()).factions, NEW_FACTIONS)))
    ensures old(world.market) != null ==> world.market == old(world.market)
    ensures old(world.factions) != null ==> world.factions == old(world.factions)
  {
    ghost var w := world.V();
    if world.market == null {
      world.market := new Market(world.id, EmptyDict(), EmptyDict());
    }
    if world.factions == null {
      world.factions := new WorldFactionState(world.id);
    }
    assert world.market.V() == OrNew(w.market, NEW_MARKET);
    assert world.factions.V() == OrNew(w.factions, NEW_FACTIONS);
  }

  /** apply_planet_potentials_to_world: creates the missing components
      (keeping existing ones, object for object), then sets stability,
      prosperity, population size and caps from the first planet, if any. */
  method ApplyPlanetPotentials(world: World)
    requires world.Valid()
    requires PotentialsValid(world.V())
    modifies world, world.population, world.industry
    ensures world.Valid()
    ensures world.V() == Bootstrapped(old(world.V()))
    ensures old(world.population) != null ==> world.population == old(world.population)
    ensures old(world.industry) != null ==> world.industry == old(world.industry)
    ensures old(world.market) != null ==> world.market == old(world.market)
    ensures old(world.factions) != null ==> world.factions == old(world.factions)
  {
    CreateProducers(world);
    CreateHoldings(world);
    SetFromPrimary(world);
  }

  /** The first-planet half of apply_planet_potentials_to_world. */
  method SetFromPrimary(world: World)
    requires world.Valid() && world.population != null && world.industry != null
    requires PotentialsValid(world.V())
    modifies world`stability, world`prosperity, world.population, world.industry
    ensures world.Valid()
    ensures world.V() == FromPrimary(old(world.V()))
  {
    if world.planets != [] {
      var primary := world.planets[0];
      world.stability := primary.habitability;
      world.prosperity := primary.habitability;
      world.population.size := PopulationFor(primary.habitability);
      ApplyPotentials(world.industry, primary.resourcePotentials);
    }
  }
}
