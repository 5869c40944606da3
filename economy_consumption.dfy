// economy/consumption.py: the population component and consume.

module EconPopulation {
  import opened Base

  const DEFAULT_POPULATION_SIZE: real := 1000000.0
  const DEFAULT_GROWTH_RATE: real := 0.01

  /** energyUpkeep is None when the population has no
      energy_upkeep_per_capita_per_tick attribute. */
  datatype PopulationV = PopulationV(
    size: real,
    growthRate: real,
    needs: Dict<CommodityId, real>,
    energyUpkeep: Option<real>)

  class Population {
    /** The world holding this population (proof bookkeeping only). */
    ghost const owner: WorldId
    var size: real
    var growthRate: real
    var needs: Dict<CommodityId, real>
    var energyUpkeep: Option<real>

    constructor (ghost owner: WorldId, size: real, growthRate: real, needs: Dict<CommodityId, real>, energyUpkeep: Option<real>)
      ensures this.owner == owner && V() == PopulationV(size, growthRate, needs, energyUpkeep)
    {
      this.owner := owner;
      this.size := size;
      this.growthRate := growthRate;
      this.needs := needs;
      this.energyUpkeep := energyUpkeep;
    }

    function V(): PopulationV
      reads this
    {
      PopulationV(size, growthRate, needs, energyUpkeep)
    }
  }
}

module EconConsumption {
  import opened Base
  import opened EconInventory
  import opened EconMarketData
  import opened EconPopulation
  import opened WorldModel

  /** A shortage ratio above this is significant. */
  const SHORTAGE_THRESHOLD: real := 0.1
  const SCARCITY_RATE: real := 0.01
  const STABILITY_RATE: real := 0.05
  const UNREST_RATE: real := 0.05

  /** The three world fields consume writes. */
  datatype Pressures = Pressures(scarcity: real, stability: real, unrest: real)

  predicate PressuresInUnit(p: Pressures) {
    InUnit(p.scarcity) && InUnit(p.stability) && InUnit(p.unrest)
  }

  /** needed_qty: the per-capita need times the population size. */
  function Needed(need: real, size: real): real { need * size }

  /** The unserved share of a need; 0 when nothing is needed. */
  function ShortageRatio(needed: real, consumed: real): real {
    if needed > 0.0 then (needed - consumed) / needed else 0.0
  }

  /** With the consumed amount between 0 and the need, the ratio lies in [0,1],
      and it is 0 exactly when the need is fully served. */
  lemma ShortageRatioInUnit(needed: real, consumed: real)
    requires 0.0 <= consumed <= needed || needed <= 0.0
    ensures InUnit(ShortageRatio(needed, consumed))
    ensures needed > 0.0 ==> (ShortageRatio(needed, consumed) == 0.0 <==> consumed == needed)
  {
    if needed > 0.0 {
      var r := ShortageRatio(needed, consumed);
      assert r * needed == needed - consumed;
      ConsumedShare(needed, consumed, r);
    }
  }

  lemma ConsumedShare(needed: real, consumed: real, r: real)
    requires 0.0 <= consumed <= needed && needed > 0.0
    requires r * needed == needed - consumed
    ensures 0.0 <= r <= 1.0
    ensures r == 0.0 <==> consumed == needed
  {
  }

  /** The pressure update after one need: only a significant shortage moves
      the pressures, scarcity and unrest up and stability down, each kept in [0,1]. */
  function Pressed(p: Pressures, ratio: real): (r: Pressures)
    ensures ratio <= SHORTAGE_THRESHOLD ==> r == p
    ensures ratio > SHORTAGE_THRESHOLD && PressuresInUnit(p) ==>
      r.scarcity >= p.scarcity && r.stability <= p.stability && r.unrest >= p.unrest
    ensures PressuresInUnit(p) ==> PressuresInUnit(r)
  {
    if ratio > SHORTAGE_THRESHOLD then
      Pressures(Min(1.0, p.scarcity + ratio * SCARCITY_RATE),
                Max(0.0, p.stability - ratio * STABILITY_RATE),
                Min(1.0, p.unrest + ratio * UNREST_RATE))
    else p
  }

  datatype Consumption = Consumption(stock: Stock, pressures: Pressures)

  /** One pass of the needs loop: remove_clamped of the need, then the pressure update. */
  function ConsumeNeed(s: Consumption, c: CommodityId, need: real, size: real): Result<Consumption> {
    var needed := Needed(need, size);
    var rm :- RemovedClamped(s.stock, c, needed);
    Ok(Consumption(rm.stock, Pressed(s.pressures, ShortageRatio(needed, rm.removed))))
  }

  /** The needs loop over the given keys, in order; a negative need raises. */
  function Consumed(s: Consumption, keys: seq<CommodityId>, needs: map<CommodityId, real>, size: real): Result<Consumption>
    requires forall k :: k in keys ==> k in needs
    decreases |keys|
  {
    if keys == [] then Ok(s)
    else
      var pre :- Consumed(s, keys[..|keys| - 1], needs, size);
      var c := keys[|keys| - 1];
      ConsumeNeed(pre, c, needs[c], size)
  }

  /** The loop succeeds exactly when no needed quantity is negative; otherwise
      it raises the inventory's ValueError. */
  lemma {:induction false} ConsumedOk(s: Consumption, keys: seq<CommodityId>, needs: map<CommodityId, real>, size: real)
    requires forall k :: k in keys ==> k in needs
    ensures Consumed(s, keys, needs, size).Ok? <==> forall k :: k in keys ==> Needed(needs[k], size) >= 0.0
    ensures Consumed(s, keys, needs, size).Fail? ==> Consumed(s, keys, needs, size).error == NegativeQuantity
    decreases |keys|
  {
    if keys != [] {
      var pre := keys[..|keys| - 1];
      ConsumedOk(s, pre, needs, size);
      assert forall k :: k in keys ==> k in pre || k == keys[|keys| - 1];
    }
  }

  /** Pressures that start in [0,1] stay in [0,1], and no stock goes negative. */
  lemma {:induction false} ConsumedKeepsBounds(s: Consumption, keys: seq<CommodityId>, needs: map<CommodityId, real>, size: real)
    requires forall k :: k in keys ==> k in needs
    requires Consumed(s, keys, needs, size).Ok?
    ensures PressuresInUnit(s.pressures) ==> PressuresInUnit(Consumed(s, keys, needs, size).value.pressures)
    ensures NonNegative(s.stock) ==> NonNegative(Consumed(s, keys, needs, size).value.stock)
    decreases |keys|
  {
    if keys != [] {
      ConsumedKeepsBounds(s, keys[..|keys| - 1], needs, size);
    }
  }

  /** A commodity outside the needs keeps its entry (or its absence). */
  lemma {:induction false} ConsumedOutside(s: Consumption, keys: seq<CommodityId>, needs: map<CommodityId, real>, size: real, c: CommodityId)
    requires forall k :: k in keys ==> k in needs
    requires Consumed(s, keys, needs, size).Ok?
    requires c !in keys
    ensures c in Consumed(s, keys, needs, size).value.stock <==> c in s.stock
    ensures c in s.stock ==> Consumed(s, keys, needs, size).value.stock[c] == s.stock[c]
    decreases |keys|
  {
    if keys != [] {
      ConsumedOutside(s, keys[..|keys| - 1], needs, size, c);
    }
  }

  /** A need met in full from the stock on hand removes exactly the need and raises no pressure. */
  lemma ServedNeed(s: Consumption, c: CommodityId, need: real, size: real)
    requires 0.0 <= Needed(need, size) <= Amount(s.stock, c, 0.0)
    ensures ConsumeNeed(s, c, need, size).Ok?
    ensures ConsumeNeed(s, c, need, size).value.pressures == s.pressures
    ensures Amount(ConsumeNeed(s, c, need, size).value.stock, c, 0.0) ==
      (if Amount(s.stock, c, 0.0) - Needed(need, size) < EPSILON then 0.0 else Amount(s.stock, c, 0.0) - Needed(need, size))
  {
    var needed := Needed(need, size);
    ShortageRatioInUnit(needed, needed);
  }

  /** When the stock on hand covers every need, the pressures do not move. */
  lemma {:induction false} ConsumedFullyServed(s: Consumption, keys: seq<CommodityId>, needs: map<CommodityId, real>, size: real)
    requires forall k :: k in keys ==> k in needs
    requires Distinct(keys)
    requires forall k :: k in keys ==> 0.0 <= Needed(needs[k], size) <= Amount(s.stock, k, 0.0)
    ensures Consumed(s, keys, needs, size).Ok?
    ensures Consumed(s, keys, needs, size).value.pressures == s.pressures
    decreases |keys|
  {
    if keys != [] {
      var pre := keys[..|keys| - 1];
      var c := keys[|keys| - 1];
      assert forall i :: 0 <= i < |pre| ==> pre[i] != c;
      ConsumedFullyServed(s, pre, needs, size);
      ConsumedOutside(s, pre, needs, size, c);
      var mid := Consumed(s, pre, needs, size).value;
      assert Amount(mid.stock, c, 0.0) == Amount(s.stock, c, 0.0);
      ServedNeed(mid, c, needs[c], size);
    }
  }

  /** A failure part-way stays a failure. */
  lemma {:induction false} ConsumedStopped(s: Consumption, keys: seq<CommodityId>, needs: map<CommodityId, real>, size: real, j: nat)
    requires forall k :: k in keys ==> k in needs
    requires j <= |keys|
    requires Consumed(s, keys[..j], needs, size).Fail?
    ensures Consumed(s, keys, needs, size).Fail?
    decreases |keys| - j
  {
    if j < |keys| {
      var pre := keys[..|keys| - 1];
      assert pre[..j] == keys[..j];
      ConsumedStopped(s, pre, needs, size, j);
    } else {
      assert keys[..j] == keys;
    }
  }

  function PressuresOf(w: WorldV): Pressures {
    Pressures(w.scarcity, w.stability, w.unrest)
  }

  /** consume(world, tick) on a world value: without a population or a market
      nothing happens; otherwise only the stock and the three pressures change. */
  function ConsumedWorld(w: WorldV): (r: Result<WorldV>)
    requires w.population.Some? ==> w.population.value.needs.Valid()
    ensures w.population.None? || w.market.None? ==> r == Ok(w)
    ensures r.Ok? && w.market.Some? ==>
      (r.value.market.Some? &&
       r.value == w.(market := Some(w.market.value.(stock := r.value.market.value.stock)),
                     scarcity := r.value.scarcity, stability := r.value.stability, unrest := r.value.unrest))
  {
    if w.population.None? || w.market.None? then Ok(w)
    else
      var pop := w.population.value;
      var m := w.market.value;
      match Consumed(Consumption(m.stock, PressuresOf(w)), pop.needs.keys, pop.needs.vals, pop.size)
      case Fail(e) => Fail(e)
      case Ok(s) =>
        Ok(w.(market := Some(m.(stock := s.stock)),
              scarcity := s.pressures.scarcity, stability := s.pressures.stability, unrest := s.pressures.unrest))
  }

  /** consume keeps the pressures in [0,1] and the stock non-negative, and leaves
      every commodity outside the needs alone. */
  lemma ConsumedWorldBounds(w: WorldV, c: CommodityId)
    requires w.population.Some? ==> w.population.value.needs.Valid()
    requires ConsumedWorld(w).Ok? && w.market.Some? && w.population.Some?
    ensures PressuresInUnit(PressuresOf(w)) ==> PressuresInUnit(PressuresOf(ConsumedWorld(w).value))
    ensures NonNegative(w.market.value.stock) ==> NonNegative(ConsumedWorld(w).value.market.value.stock)
    ensures c !in w.population.value.needs.vals ==>
      Amount(ConsumedWorld(w).value.market.value.stock, c, 0.0) == Amount(w.market.value.stock, c, 0.0)
  {
    var pop := w.population.value;
    var s := Consumption(w.market.value.stock, PressuresOf(w));
    ConsumedKeepsBounds(s, pop.needs.keys, pop.needs.vals, pop.size);
    if c !in pop.needs.vals {
      ConsumedOutside(s, pop.needs.keys, pop.needs.vals, pop.size, c);
    }
  }

  /** The needs loop of consume, in place on the inventory and the world's pressures. */
  method ConsumeNeeds(world: World, inv: Inventory, needs: Dict<CommodityId, real>, size: real) returns (r: Result<()>)
    requires needs.Valid()
    modifies world`scarcity, world`stability, world`unrest, inv
    ensures var s := Consumed(Consumption(old(inv.quantities), Pressures(old(world.scarcity), old(world.stability), old(world.unrest))),
                              needs.keys, needs.vals, size);
      (r.Ok? <==> s.Ok?) &&
      (r.Ok? ==> s.value == Consumption(inv.quantities, Pressures(world.scarcity, world.stability, world.unrest)))
  {
    var keys := needs.keys;
    ghost var s0 := Consumption(inv.quantities, Pressures(world.scarcity, world.stability, world.unrest));
    ghost var cur := s0;
    var i := 0;
    while i < |keys|
      invariant 0 <= i <= |keys|
      invariant Consumed(s0, keys[..i], needs.vals, size) == Ok(cur)
      invariant cur == Consumption(inv.quantities, Pressures(world.scarcity, world.stability, world.unrest))
    {
      ConsumedNext(s0, keys, needs.vals, size, i);
      var got := ConsumeOne(world, inv, keys[i], needs.vals[keys[i]], size);
      if got.Fail? {
        ConsumedStopped(s0, keys, needs.vals, size, i + 1);
        return Fail(got.error);
      }
      cur := Consumption(inv.quantities, Pressures(world.scarcity, world.stability, world.unrest));
      i := i + 1;
    }
    assert keys[..i] == keys;
    return Ok(());
  }

  lemma ConsumedNext(s: Consumption, keys: seq<CommodityId>, needs: map<CommodityId, real>, size: real, i: nat)
    requires forall k :: k in keys ==> k in needs
    requires i < |keys|
    ensures keys[i] in needs && Consumed(s, keys[..i + 1], needs, size) ==
      (var pre :- Consumed(s, keys[..i], needs, size); ConsumeNeed(pre, keys[i], needs[keys[i]], size))
  {
    assert keys[..i + 1][..i] == keys[..i];
  }

  /** One need of the loop: remove what is needed (clamped to the stock), then
      raise the pressures when the shortage ratio passes the threshold. */
  method ConsumeOne(world: World, inv: Inventory, c: CommodityId, need: real, size: real) returns (r: Result<()>)
    modifies world`scarcity, world`stability, world`unrest, inv
    ensures var s := ConsumeNeed(Consumption(old(inv.quantities), Pressures(old(world.scarcity), old(world.stability), old(world.unrest))),
                                 c, need, size);
      (r.Ok? <==> s.Ok?) &&
      (r.Ok? ==> s.value == Consumption(inv.quantities, Pressures(world.scarcity, world.stability, world.unrest)))
  {
    var needed := Needed(need, size);
    var got := inv.RemoveClamped(c, needed);
    if got.Fail? {
      return Fail(got.error);
    }
    var ratio := ShortageRatio(needed, got.value);
    if ratio > SHORTAGE_THRESHOLD {
      world.scarcity := Min(1.0, world.scarcity + ratio * SCARCITY_RATE);
      world.stability := Max(0.0, world.stability - ratio * STABILITY_RATE);
      world.unrest := Min(1.0, world.unrest + ratio * UNREST_RATE);
    }
    return Ok(());
  }

  /** consume(world, tick) in place; tick is not used. A negative need raises
      after the earlier needs were consumed. */
  method Consume(world: World) returns (r: Result<()>)
    requires world.population != null ==> world.population.needs.Valid()
    modifies world, world.Inventories()
    ensures world.market == old(world.market) && world.population == old(world.population)
    ensures r.Ok? <==> ConsumedWorld(old(world.V())).Ok?
    ensures r.Ok? ==> world.V() == ConsumedWorld(old(world.V())).value
  {
    if world.population == null || world.market == null {
      return Ok(());
    }
    var pop := world.population;
    r := ConsumeNeeds(world, world.market.inventory, pop.needs, pop.size);
  }
}
