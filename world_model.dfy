// world/model.py: worlds (with their optional components) and lanes.

module WorldModel {
  import opened Base
  import opened Docs
  import opened EconInventory
  import opened EconMarketData
  import opened EconPopulation
  import opened EconIndustry
  import opened FactionModel
  import opened GenModel

  /** tags is a set, kept here in its iteration order without repeats. */
  datatype WorldV = WorldV(
    id: WorldId,
    name: Value,
    stability: real,
    prosperity: real,
    tech: real,
    tags: seq<string>,
    x: real,
    y: real,
    scarcity: real,
    unrest: real,
    planets: seq<Planet>,
    market: Option<MarketV>,
    population: Option<PopulationV>,
    industry: Option<IndustryV>,
    factions: Option<FactionStateV>,
    control: Option<FactionId>)

  datatype LaneV = LaneV(id: LaneId, a: WorldId, b: WorldId, distance: real, hazard: real, capacity: real)

  class World {
    const id: WorldId
    var name: Value
    var stability: real
    var prosperity: real
    var tech: real
    var tags: seq<string>
    var x: real
    var y: real
    var scarcity: real
    var unrest: real
    var planets: seq<Planet>
    var market: Market?
    var population: Population?
    var industry: Industry?
    var factions: WorldFactionState?
    var control: Option<FactionId>

    /** World(id, name) with every default: stability, prosperity and tech 1.0,
        pressures 0.0, no tags, no planets and no components. */
    constructor (id: WorldId, name: Value)
      ensures Valid()
      ensures V() == WorldV(id, name, 1.0, 1.0, 1.0, [], 0.0, 0.0, 0.0, 0.0, [], None, None, None, None, None)
    {
      this.id := id;
      this.name := name;
      stability := 1.0;
      prosperity := 1.0;
      tech := 1.0;
      tags := [];
      x := 0.0;
      y := 0.0;
      scarcity := 0.0;
      unrest := 0.0;
      planets := [];
      market := null;
      population := null;
      industry := null;
      factions := null;
      control := None;
    }

    /** Every component belongs to this world. */
    ghost predicate Valid()
      reads this
    {
      (market != null ==> market.owner == id && market.inventory.owner == id) &&
      (population != null ==> population.owner == id) &&
      (industry != null ==> industry.owner == id) &&
      (factions != null ==> factions.owner == id)
    }

    /** The objects making up this world. */
    function Objs(): set<object>
      reads this
    {
      {this} +
      (if market != null then {market, market.inventory} else {}) +
      (if population != null then {population} else {}) +
      (if industry != null then {industry} else {}) +
      (if factions != null then {factions} else {})
    }

    function Inventories(): set<object>
      reads this
    {
      if market != null then {market.inventory} else {}
    }

    function V(): WorldV
      reads Objs()
    {
      WorldV(id, name, stability, prosperity, tech, tags, x, y, scarcity, unrest, planets,
             if market != null then Some(market.V()) else None,
             if population != null then Some(population.V()) else None,
             if industry != null then Some(industry.V()) else None,
             if factions != null then Some(factions.V()) else None,
             control)
    }
  }
}
