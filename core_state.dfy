// core/state.py: the universe state and the lane adjacency derived from it.
// Worlds and lanes are held as values that the stages reassign (see README).

module CoreState {
  import opened Base
  import opened WorldModel
  import opened CoreRng
  import opened LogisticsShipping
  import opened LogisticsCapacity
  import opened EconCommodities
  import opened EconRecipes
  import opened EventRegistry
  import opened FactionModel

  type Adjacency = Dict<WorldId, seq<LaneId>>

  /** The part of the universe the faction and event stages change: worlds,
      lanes, and how many generator outputs have been used. */
  datatype Sim = Sim(worlds: Dict<WorldId, WorldV>, lanes: Dict<LaneId, LaneV>, pos: nat)

  /** The lanes among `keys` with an endpoint at w, in lane order; a lane with
      both endpoints at w is listed twice, once per endpoint. */
  function Incident(w: WorldId, keys: seq<LaneId>, lanes: map<LaneId, LaneV>): seq<LaneId>
    requires forall l :: l in keys ==> l in lanes
    decreases |keys|
  {
    if keys == [] then []
    else
      var l := keys[|keys| - 1];
      Incident(w, keys[..|keys| - 1], lanes) + (if lanes[l].a == w then [l] else []) + (if lanes[l].b == w then [l] else [])
  }

  /** A lane is listed under w exactly when it is one of `keys` with an endpoint at w. */
  lemma {:induction false} IncidentMembers(w: WorldId, keys: seq<LaneId>, lanes: map<LaneId, LaneV>, l: LaneId)
    requires forall k :: k in keys ==> k in lanes
    ensures l in Incident(w, keys, lanes) <==> l in keys && (lanes[l].a == w || lanes[l].b == w)
    decreases |keys|
  {
    if keys != [] {
      var pre := keys[..|keys| - 1];
      assert forall k :: k in keys <==> k in pre || k == keys[|keys| - 1];
      IncidentMembers(w, pre, lanes, l);
    }
  }

  /** What rebuild_adjacency computes: a key per world, in world order, listing
      the ids of its lanes. */
  function AdjacencyOf(worldIds: seq<WorldId>, lanes: Dict<LaneId, LaneV>): (adj: Adjacency)
    requires lanes.Valid()
  {
    Dict(worldIds, map w | w in worldIds :: Incident(w, lanes.keys, lanes.vals))
  }

  /** The adjacency keys are exactly the world ids, and each lane id is listed
      under each endpoint that is a known world; a lane with an unknown endpoint
      adds no key. */
  lemma AdjacencyOfLists(worldIds: seq<WorldId>, lanes: Dict<LaneId, LaneV>, w: WorldId, l: LaneId)
    requires lanes.Valid() && Distinct(worldIds)
    ensures AdjacencyOf(worldIds, lanes).Valid()
    ensures w in AdjacencyOf(worldIds, lanes).vals <==> w in worldIds
    ensures w in worldIds ==>
      (l in AdjacencyOf(worldIds, lanes).vals[w] <==> l in lanes.vals && (lanes.vals[l].a == w || lanes.vals[l].b == w))
  {
    IncidentMembers(w, lanes.keys, lanes.vals, l);
  }

  /** Every lane id the adjacency lists is a known lane. */
  predicate AdjacencyKnown(adj: Adjacency, lanes: Dict<LaneId, LaneV>) {
    forall w, l :: w in adj.vals && l in adj.vals[w] ==> l in lanes.vals
  }

  lemma AdjacencyOfKnown(worldIds: seq<WorldId>, lanes: Dict<LaneId, LaneV>)
    requires lanes.Valid() && Distinct(worldIds)
    ensures AdjacencyKnown(AdjacencyOf(worldIds, lanes), lanes)
  {
    forall w, l | w in AdjacencyOf(worldIds, lanes).vals && l in AdjacencyOf(worldIds, lanes).vals[w]
      ensures l in lanes.vals
    {
      AdjacencyOfLists(worldIds, lanes, w, l);
    }
  }

  /** The endpoint of a lane that is not w (the a end when neither is). */
  function Other(lane: LaneV, w: WorldId): WorldId {
    if lane.a == w then lane.b else lane.a
  }

  /** neighbors(world_id): for each adjacent lane, its other endpoint; [] for an
      unknown or isolated world. */
  function NeighborsOf(adj: Adjacency, lanes: Dict<LaneId, LaneV>, w: WorldId): (ns: seq<WorldId>)
    requires AdjacencyKnown(adj, lanes)
    ensures w !in adj.vals ==> ns == []
    ensures |ns| == |adj.Get(w, [])|
    ensures forall i :: 0 <= i < |ns| ==> adj.vals[w][i] in lanes.vals && ns[i] == Other(lanes.vals[adj.vals[w][i]], w)
  {
    var ls := adj.Get(w, []);
    seq(|ls|, i requires 0 <= i < |ls| => Other(lanes.vals[ls[i]], w))
  }

  /** lanes_from(world_id): the lane records of the world's adjacency list, in order. */
  function LanesFromOf(adj: Adjacency, lanes: Dict<LaneId, LaneV>, w: WorldId): (ls: seq<LaneV>)
    requires AdjacencyKnown(adj, lanes)
    ensures w !in adj.vals ==> ls == []
    ensures |ls| == |adj.Get(w, [])|
    ensures forall i :: 0 <= i < |ls| ==> adj.vals[w][i] in lanes.vals && ls[i] == lanes.vals[adj.vals[w][i]]
  {
    var ids := adj.Get(w, []);
    seq(|ids|, i requires 0 <= i < |ids| => lanes.vals[ids[i]])
  }

  /** After a rebuild, v is a neighbour of a known world w exactly when some lane
      joins w and v. */
  lemma NeighborsOfRebuilt(worldIds: seq<WorldId>, lanes: Dict<LaneId, LaneV>, w: WorldId, v: WorldId)
    requires lanes.Valid() && Distinct(worldIds) && w in worldIds
    ensures AdjacencyKnown(AdjacencyOf(worldIds, lanes), lanes)
    ensures v in NeighborsOf(AdjacencyOf(worldIds, lanes), lanes, w) <==>
      exists l :: l in lanes.vals && ((lanes.vals[l].a == w && lanes.vals[l].b == v) || (lanes.vals[l].b == w && lanes.vals[l].a == v))
  {
    var adj := AdjacencyOf(worldIds, lanes);
    AdjacencyOfKnown(worldIds, lanes);
    var ns := NeighborsOf(adj, lanes, w);
    var ls := adj.vals[w];
    if v in ns {
      var i :| 0 <= i < |ns| && ns[i] == v;
      AdjacencyOfLists(worldIds, lanes, w, ls[i]);
      assert ls[i] in ls;
    }
    if exists l :: l in lanes.vals && ((lanes.vals[l].a == w && lanes.vals[l].b == v) || (lanes.vals[l].b == w && lanes.vals[l].a == v)) {
      var l :| l in lanes.vals && ((lanes.vals[l].a == w && lanes.vals[l].b == v) || (lanes.vals[l].b == w && lanes.vals[l].a == v));
      AdjacencyOfLists(worldIds, lanes, w, l);
      var i :| 0 <= i < |ls| && ls[i] == l;
      assert ns[i] == v;
    }
  }

  /** `if w in adj: adj[w].append(l)` */
  function Appended(adj: Adjacency, w: WorldId, l: LaneId): (r: Adjacency)
    ensures r.keys == adj.keys && r.vals.Keys == adj.vals.Keys
    ensures forall v :: v in adj.vals ==> r.vals[v] == if v == w then adj.vals[v] + [l] else adj.vals[v]
  {
    if w in adj.vals then adj.Put(w, adj.vals[w] + [l]) else adj
  }

  /** One more lane of the rebuild loop. */
  lemma IncidentStep(keys: seq<LaneId>, j: nat, lanes: map<LaneId, LaneV>)
    requires j < |keys| && forall k :: k in keys ==> k in lanes
    ensures forall k :: k in keys[..j + 1] ==> k in lanes
    ensures forall w :: (Incident(w, keys[..j + 1], lanes) ==
      Incident(w, keys[..j], lanes) + (if lanes[keys[j]].a == w then [keys[j]] else []) + (if lanes[keys[j]].b == w then [keys[j]] else []))
  {
    assert keys[..j + 1][..j] == keys[..j];
  }

  /** The lists after one more lane of the rebuild loop. */
  lemma AppendLaneStep(built: Adjacency, keys: seq<LaneId>, j: nat, lanes: map<LaneId, LaneV>)
    requires j < |keys| && forall k :: k in keys ==> k in lanes
    requires forall w :: w in built.vals ==> built.vals[w] == Incident(w, keys[..j], lanes)
    ensures forall k :: k in keys[..j + 1] ==> k in lanes
    ensures var l := keys[j];
      var r := Appended(Appended(built, lanes[l].a, l), lanes[l].b, l);
      r.keys == built.keys && r.vals.Keys == built.vals.Keys &&
      forall w :: w in r.vals ==> r.vals[w] == Incident(w, keys[..j + 1], lanes)
  {
    IncidentStep(keys, j, lanes);
    var l := keys[j];
    var m := Appended(built, lanes[l].a, l);
    var r := Appended(m, lanes[l].b, l);
    forall w | w in r.vals ensures r.vals[w] == Incident(w, keys[..j + 1], lanes) {
      var x := if lanes[l].a == w then [l] else [];
      var y := if lanes[l].b == w then [l] else [];
      assert m.vals[w] == Incident(w, keys[..j], lanes) + x;
      assert r.vals[w] == m.vals[w] + y;
    }
  }

  class UniverseState {
    const seed: int
    var tick: int
    const rng: Rng
    var worlds: Dict<WorldId, WorldV>
    var lanes: Dict<LaneId, LaneV>
    const commodityRegistry: CommodityRegistry
    const recipeRegistry: RecipeRegistry
    const eventRegistry: EventRegistry
    var factions: Dict<FactionId, Faction>
    var activeShipments: seq<Shipment>
    const tracker: LaneCapacity
    /** The derived adjacency, refreshed only by RebuildAdjacency. */
    var adj: Adjacency

    /** Worlds and lanes are listed once each under their own ids, and the
        adjacency names only known lanes. */
    predicate Valid()
      reads this
    {
      worlds.Valid() && lanes.Valid() &&
      (forall w :: w in worlds.vals ==> worlds.vals[w].id == w) &&
      (forall l :: l in lanes.vals ==> lanes.vals[l].id == l) &&
      AdjacencyKnown(adj, lanes)
    }

    /** UniverseState(seed, tick, worlds, lanes, ...) with its registries and
        factions given and the generator's outputs as an oracle stream. The
        adjacency is built on construction. */
    constructor (seed: int, tick: int, draws: nat -> nat, worlds: Dict<WorldId, WorldV>, lanes: Dict<LaneId, LaneV>,
                 commodityRegistry: CommodityRegistry, recipeRegistry: RecipeRegistry, eventRegistry: EventRegistry,
                 factions: Dict<FactionId, Faction>, shipments: seq<Shipment>, tracker: LaneCapacity)
      requires worlds.Valid() && lanes.Valid()
      requires forall w :: w in worlds.vals ==> worlds.vals[w].id == w
      requires forall l :: l in lanes.vals ==> lanes.vals[l].id == l
      ensures Valid()
      ensures this.seed == seed && this.tick == tick && fresh(rng) && rng.draws == draws && rng.pos == 0
      ensures this.worlds == worlds && this.lanes == lanes && this.factions == factions
      ensures this.commodityRegistry == commodityRegistry && this.recipeRegistry == recipeRegistry
      ensures this.eventRegistry == eventRegistry && this.activeShipments == shipments && this.tracker == tracker
      ensures adj == AdjacencyOf(worlds.keys, lanes)
    {
      this.seed := seed;
      this.tick := tick;
      rng := new Rng(draws);
      this.worlds := worlds;
      this.lanes := lanes;
      this.commodityRegistry := commodityRegistry;
      this.recipeRegistry := recipeRegistry;
      this.eventRegistry := eventRegistry;
      this.factions := factions;
      activeShipments := shipments;
      this.tracker := tracker;
      adj := EmptyDict();
      new;
      RebuildAdjacency();
    }

    /** rebuild_adjacency(): one empty list per world, then each lane id appended
        under each endpoint that is a known world. */
    method RebuildAdjacency()
      requires worlds.Valid() && lanes.Valid()
      modifies this`adj
      ensures adj == AdjacencyOf(worlds.keys, lanes)
      ensures Valid() <== (forall w :: w in worlds.vals ==> worlds.vals[w].id == w) &&
                          (forall l :: l in lanes.vals ==> lanes.vals[l].id == l)
    {
      var ids := worlds.keys;
      var built := EmptyLists(ids);
      built := AppendLanes(built, lanes.keys, lanes.vals);
      assert built.vals == AdjacencyOf(ids, lanes).vals;
      adj := built;
      AdjacencyOfKnown(ids, lanes);
    }

    /** The lane loop of rebuild_adjacency, starting from empty lists. */
    static method AppendLanes(start: Adjacency, keys: seq<LaneId>, lanes: map<LaneId, LaneV>) returns (built: Adjacency)
      requires forall k :: k in keys ==> k in lanes
      requires forall w :: w in start.vals ==> start.vals[w] == []
      ensures built.keys == start.keys && built.vals.Keys == start.vals.Keys
      ensures forall w :: w in built.vals ==> built.vals[w] == Incident(w, keys, lanes)
    {
      built := start;
      var j := 0;
      while j < |keys|
        invariant 0 <= j <= |keys|
        invariant built.keys == start.keys && built.vals.Keys == start.vals.Keys
        invariant forall w :: w in built.vals ==> built.vals[w] == Incident(w, keys[..j], lanes)
      {
        AppendLaneStep(built, keys, j, lanes);
        var l := keys[j];
        built := Appended(Appended(built, lanes[l].a, l), lanes[l].b, l);
        j := j + 1;
      }
      assert keys[..j] == keys;
    }

    /** {world_id: [] for world_id in self.worlds} */
    static method EmptyLists(ids: seq<WorldId>) returns (d: Adjacency)
      ensures d.keys == ids && d.vals.Keys == set w | w in ids
      ensures forall w :: w in d.vals ==> d.vals[w] == []
    {
      d := Dict(ids, map w | w in ids :: []);
    }

    /** neighbors(world_id) on the current adjacency. */
    function Neighbors(w: WorldId): seq<WorldId>
      reads this
      requires AdjacencyKnown(adj, lanes)
    {
      NeighborsOf(adj, lanes, w)
    }

    /** lanes_from(world_id) on the current adjacency. */
    function LanesFrom(w: WorldId): seq<LaneV>
      reads this
      requires AdjacencyKnown(adj, lanes)
    {
      LanesFromOf(adj, lanes, w)
    }
  }
}
