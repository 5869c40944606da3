// io/save_load.py: to_dict writes the universe as a document of plain
// values, from_dict rebuilds the universe's contents from such a document.

module SaveLoad {
  import opened Base
  import opened Docs
  import opened EconInventory
  import opened EconMarketData
  import opened EconPopulation
  import opened EconIndustry
  import opened FactionModel
  import opened WorldModel
  import opened LogisticsShipping
  import opened LogisticsCapacity
  import Events = EventRegistry
  import opened WorldLoad

  /** What to_dict reads from a UniverseState and from_dict hands to a new
      one: the seed and tick, the worlds and lanes, the shipments in transit,
      the lane-capacity tracker's usage map (and whether it is still the
      tracker's defaultdict), the factions and the registered events. */
  datatype Snapshot = Snapshot(
    seed: int,
    tick: int,
    worlds: Dict<WorldId, WorldV>,
    lanes: Dict<LaneId, LaneV>,
    shipments: seq<Shipment>,
    used: Usage,
    usedDefaults: bool,
    factions: Dict<FactionId, Faction>,
    events: Dict<EventId, Events.EventDef>)

  // ---------------------------------------------------------------------
  // to_dict

  /** The keys of a map in one fixed order. to_dict lists a Python dict in
      insertion order, which a map value does not record. */
  ghost function KeysOf<K(!new)>(s: set<K>): (r: seq<K>)
    ensures Distinct(r) && forall k :: k in r <==> k in s
    decreases |s|
  {
    if s == {} then []
    else
      var k :| k in s;
      var rest := KeysOf(s - {k});
      assert forall j :: 0 <= j < |rest| ==> rest[j] != k;
      [k] + rest
  }

  /** A map of reals written as a mapping of floats. */
  ghost function FloatMap(m: map<string, real>): (r: Dict<string, Value>)
    ensures r.Valid() && r.vals.Keys == m.Keys
    ensures forall k :: k in m ==> r.vals[k] == Float(m[k])
  {
    Dict(KeysOf(m.Keys), map k | k in m :: Float(m[k]))
  }

  function StrList(s: seq<string>): (v: Value)
    ensures v.List? && |v.items| == |s| && forall i :: 0 <= i < |s| ==> v.items[i] == Str(s[i])
  {
    List(seq(|s|, i requires 0 <= i < |s| => Str(s[i])))
  }

  function OptStr(o: Option<string>): Value {
    if o.Some? then Str(o.value) else Null
  }

  ghost function MarketDict(m: MarketV): Value {
    Obj(Dict(["inventory", "prices", "targets"],
      map["inventory" := Obj(FloatMap(m.stock)), "prices" := Obj(FloatDict(m.prices)),
          "targets" := Obj(FloatDict(m.targets))]))
  }

  function PopulationDict(p: PopulationV): Value {
    Obj(Dict(["size", "growth_rate", "needs"],
      map["size" := Float(p.size), "growth_rate" := Float(p.growthRate), "needs" := Obj(FloatDict(p.needs))]))
  }

  function IndustryDict(i: IndustryV): Value {
    Obj(Dict(["caps"], map["caps" := Obj(FloatDict(i.caps))]))
  }

  ghost function FactionStateDict(f: FactionStateV): Value {
    Obj(Dict(["influence", "garrison", "control", "control_threshold_gain", "control_threshold_loss"],
      map["influence" := Obj(FloatDict(f.influence)), "garrison" := Obj(FloatMap(f.garrison)),
          "control" := OptStr(f.control), "control_threshold_gain" := Float(f.gain),
          "control_threshold_loss" := Float(f.loss)]))
  }

  /** The eight fields every world writes. */
  function PlainWorldDict(w: WorldV): Dict<string, Value> {
    Dict(["id", "name", "stability", "prosperity", "tech", "tags", "scarcity", "unrest"],
      map["id" := Str(w.id), "name" := w.name, "stability" := Float(w.stability),
          "prosperity" := Float(w.prosperity), "tech" := Float(w.tech), "tags" := StrList(w.tags),
          "scarcity" := Float(w.scarcity), "unrest" := Float(w.unrest)])
  }

  /** d[key] = enc(x) when the component x is present. */
  function PutSome<T>(d: Dict<string, Value>, key: string, o: Option<T>, enc: T -> Value): Dict<string, Value> {
    if o.Some? then d.Put(key, enc(o.value)) else d
  }

  /** One world: its plain fields, then a key for each component it has. */
  ghost function WorldDict(w: WorldV): Value {
    Obj(PutSome(PutSome(PutSome(PutSome(PlainWorldDict(w),
      "market", w.market, MarketDict),
      "population", w.population, PopulationDict),
      "industry", w.industry, IndustryDict),
      "factions", w.factions, FactionStateDict))
  }

  function LaneDict(l: LaneV): Value {
    Obj(Dict(["id", "a", "b", "distance", "hazard", "capacity"],
      map["id" := Str(l.id), "a" := Str(l.a), "b" := Str(l.b),
          "distance" := Float(l.distance), "hazard" := Float(l.hazard), "capacity" := Float(l.capacity)]))
  }

  lemma LaneDictValid(l: LaneV)
    ensures LaneDict(l).fields.Valid()
  {
  }

  function ShipmentDict(s: Shipment): Value {
    Obj(Dict(["commodity_id", "quantity", "source_world_id", "destination_world_id", "eta_tick", "lane_id"],
      map["commodity_id" := Str(s.commodity), "quantity" := Float(s.quantity),
          "source_world_id" := Str(s.source), "destination_world_id" := Str(s.destination),
          "eta_tick" := Int(s.etaTick), "lane_id" := OptStr(s.laneId)]))
  }

  /** A faction: color, capital and resource desire are not written. */
  function FactionDict(f: Faction): Value {
    Obj(Dict(["id", "name", "traits", "weights"],
      map["id" := Str(f.id), "name" := f.name, "traits" := StrList(f.traits), "weights" := Obj(f.weights)]))
  }

  function EventDict(e: Events.EventDef): Value {
    Obj(Dict(["id", "base_weight", "conditions", "effects"],
      map["id" := Str(e.id), "base_weight" := Float(e.baseWeight), "conditions" := List(e.conditions),
          "effects" := List(e.effects)]))
  }

  /** [enc(x) for x in d.values()] */
  function Listed<T>(d: Dict<string, T>, enc: T -> Value): (r: seq<Value>)
    requires d.Valid()
    ensures |r| == |d.keys| && forall i :: 0 <= i < |d.keys| ==> r[i] == enc(d.vals[d.keys[i]])
  {
    seq(|d.keys|, i requires 0 <= i < |d.keys| => enc(d.vals[d.keys[i]]))
  }

  function ShipmentList(s: seq<Shipment>): (r: seq<Value>)
    ensures |r| == |s| && forall i :: 0 <= i < |s| ==> r[i] == ShipmentDict(s[i])
  {
    seq(|s|, i requires 0 <= i < |s| => ShipmentDict(s[i]))
  }

  /** The dictionaries of a snapshot list each key once, as Python's do. */
  predicate Listable(s: Snapshot) {
    s.worlds.Valid() && s.lanes.Valid() && s.factions.Valid() && s.events.Valid()
  }

  /** The document to_dict returns, from its eight values. */
  function Document(seed: Value, tick: Value, worlds: Value, lanes: Value, shipments: Value,
                    tracker: Value, factions: Value, events: Value): Value {
    Obj(Dict(["seed", "tick", "worlds", "lanes", "active_shipments", "lane_capacity_tracker", "factions", "event_registry"],
      map["seed" := seed, "tick" := tick, "worlds" := worlds, "lanes" := lanes,
          "active_shipments" := shipments, "lane_capacity_tracker" := tracker,
          "factions" := factions, "event_registry" := events]))
  }

  /** to_dict(state) */
  ghost function ToDict(s: Snapshot): Value
    requires Listable(s)
  {
    Document(Int(s.seed), Int(s.tick), List(Listed(s.worlds, WorldDict)), List(Listed(s.lanes, LaneDict)),
      List(ShipmentList(s.shipments)), Obj(FloatMap(s.used)), List(Listed(s.factions, FactionDict)),
      List(Listed(s.events, EventDict)))
  }

  // ---------------------------------------------------------------------
  // from_dict

  /** A value used as an int: a TypeError unless it is an int (a bool counts). */
  function AsInt(v: Value, what: string): (r: Result<int>)
    ensures r.Ok? <==> IsInteger(v)
    ensures v.Int? ==> r == Ok(v.i)
  {
    match v
    case Bool(b) => Ok(if b then 1 else 0)
    case Int(i) => Ok(i)
    case _ => Fail(TypeMismatch(what))
  }

  /** An optional id: None for a missing key or null. */
  function OptStrOf(v: Value, what: string): (r: Result<Option<string>>)
    ensures r.Ok? <==> v.Null? || v.Str?
    ensures r.Ok? ==> OptStr(r.value) == v
  {
    match v
    case Null => Ok(None)
    case Str(s) => Ok(Some(s))
    case _ => Fail(TypeMismatch(what))
  }

  /** One faction entry: id, name, the traits as a set and the weights as
      written; the other fields keep the Faction defaults. */
  function RestoredFaction(f: Value): (r: Result<Faction>)
    ensures r.Ok? ==> HasKey(f, "id") && f.fields.vals["id"] == Str(r.value.id)
    ensures r.Ok? ==>
      r.value.color == DEFAULT_COLOR && r.value.capitalWorld.None? &&
      r.value.resourceDesire == DEFAULT_RESOURCE_DESIRE
  {
    var idV :- Field(f, "id");
    var id :- AsString(idV, "faction id");
    var name :- Field(f, "name");
    var traits :- TagsFrom(f.fields.Get("traits", List([])));
    var weights :- ItemsOf(f.fields.Get("weights", NoFields));
    Ok(Faction(id, name, DEFAULT_COLOR, traits, weights, None, DEFAULT_RESOURCE_DESIRE))
  }

  /** A world's faction state: influence and garrison read as numbers, a
      control only when the stored value is truthy, the thresholds with
      their defaults 0.7 and 0.4, and plain dictionaries. */
  function FactionStateFrom(wf: Value): (r: Result<FactionStateV>)
    requires WellFormed(wf)
    ensures r.Ok? ==> wf.Obj? && !r.value.defaults && r.value.influence.Valid()
    ensures r.Ok? ==> NumberAt(wf, "control_threshold_gain", DEFAULT_GAIN, r.value.gain)
    ensures r.Ok? ==> NumberAt(wf, "control_threshold_loss", DEFAULT_LOSS, r.value.loss)
    ensures r.Ok? ==> (r.value.control.Some? <==> Docs.Truthy(wf.fields.Get("control", Null)))
  {
    var influenceV :- GetOr(wf, "influence", NoFields);
    var influenceItems :- ItemsOf(influenceV);
    var influence :- NumberDict(influenceItems, "influence");
    assert WellFormed(NoFields);
    assert WellFormed(wf.fields.Get("garrison", NoFields));
    var garrisonItems :- ItemsOf(wf.fields.Get("garrison", NoFields));
    var garrison :- NumberDict(garrisonItems, "garrison");
    var controlV := wf.fields.Get("control", Null);
    var control :- if Docs.Truthy(controlV) then (var c :- AsString(controlV, "faction id"); Ok(Some(c))) else Ok(None);
    var gain :- AsNumber(wf.fields.Get("control_threshold_gain", Float(DEFAULT_GAIN)), "control_threshold_gain");
    var loss :- AsNumber(wf.fields.Get("control_threshold_loss", Float(DEFAULT_LOSS)), "control_threshold_loss");
    Ok(FactionStateV(influence, garrison.vals, false, control, gain, loss))
  }

  /** One world entry: the market, population and industry as load_universe
      reads them, then the faction state, then the plain fields; the world's
      control is its faction state's. */
  function RestoredWorld(w: Value): (r: Result<WorldV>)
    requires WellFormed(w)
    ensures r.Ok? ==> HasKey(w, "id") && w.fields.vals["id"] == Str(r.value.id)
    ensures r.Ok? ==> r.value.control == (if r.value.factions.Some? then r.value.factions.value.control else None)
  {
    if !w.Obj? then Fail(TypeMismatch("not a mapping"))
    else
      var parts :- PartsFrom(w);
      var factions :-
        if "factions" in w.fields.vals && !w.fields.vals["factions"].Null? then
          var f :- FactionStateFrom(w.fields.vals["factions"]); Ok(Some(f))
        else Ok(None);
      var idV :- Field(w, "id");
      var id :- AsString(idV, "world id");
      var name :- Field(w, "name");
      var stability :- AsNumber(w.fields.Get("stability", Float(1.0)), "stability");
      var prosperity :- AsNumber(w.fields.Get("prosperity", Float(1.0)), "prosperity");
      var tech :- AsNumber(w.fields.Get("tech", Float(1.0)), "tech");
      var tags :- TagsFrom(w.fields.Get("tags", List([])));
      var scarcity :- AsNumber(w.fields.Get("scarcity", Float(0.0)), "scarcity");
      var unrest :- AsNumber(w.fields.Get("unrest", Float(0.0)), "unrest");
      Ok(WorldV(id, name, stability, prosperity, tech, tags, 0.0, 0.0, scarcity, unrest, [],
                parts.market, parts.population, parts.industry, factions,
                if factions.Some? then factions.value.control else None))
  }

  /** One lane entry: the id (read for the key and again for the lane), the
      endpoints, and distance, hazard and capacity defaulting to 1.0, 0.0
      and 1.0. The endpoints are not checked against the worlds. */
  function RestoredLane(l: Value): (r: Result<LaneV>)
    ensures r.Ok? ==> HasKey(l, "id") && l.fields.vals["id"] == Str(r.value.id)
  {
    var keyV :- Field(l, "id");
    var key :- AsString(keyV, "lane id");
    var a :- Field(l, "a");
    var aId :- AsString(a, "world id");
    var b :- Field(l, "b");
    var bId :- AsString(b, "world id");
    var distance :- AsNumber(l.fields.Get("distance", Float(1.0)), "distance");
    var hazard :- AsNumber(l.fields.Get("hazard", Float(0.0)), "hazard");
    var capacity :- AsNumber(l.fields.Get("capacity", Float(1.0)), "capacity");
    Ok(LaneV(key, aId, bId, distance, hazard, capacity))
  }

  /** One shipment entry, field for field; lane_id may be missing or null. */
  function RestoredShipment(s: Value): (r: Result<Shipment>)
  {
    var cV :- Field(s, "commodity_id");
    var c :- AsString(cV, "commodity id");
    var qV :- Field(s, "quantity");
    var q :- AsNumber(qV, "quantity");
    var srcV :- Field(s, "source_world_id");
    var src :- AsString(srcV, "world id");
    var dstV :- Field(s, "destination_world_id");
    var dst :- AsString(dstV, "world id");
    var etaV :- Field(s, "eta_tick");
    var eta :- AsInt(etaV, "eta_tick");
    var lane :- OptStrOf(s.fields.Get("lane_id", Null), "lane id");
    Ok(Shipment(c, q, src, dst, eta, lane))
  }

  /** One event entry, read as the registry reads its file. */
  function RestoredEvent(e: Value): (r: Result<Events.EventDef>)
  {
    var p :- Events.ParseEvent(e);
    Ok(p.1)
  }

  function FactionKey(f: Faction): FactionId { f.id }
  function EventKey(e: Events.EventDef): EventId { e.id }

  function FactionResults(entries: seq<Value>): (rs: seq<Result<Faction>>)
    ensures |rs| == |entries| && forall i :: 0 <= i < |entries| ==> rs[i] == RestoredFaction(entries[i])
  {
    seq(|entries|, i requires 0 <= i < |entries| => RestoredFaction(entries[i]))
  }

  function RestoredWorlds(entries: seq<Value>): (rs: seq<Result<WorldV>>)
    requires forall i :: 0 <= i < |entries| ==> WellFormed(entries[i])
    ensures |rs| == |entries| && forall i :: 0 <= i < |entries| ==> rs[i] == RestoredWorld(entries[i])
  {
    seq(|entries|, i requires 0 <= i < |entries| => RestoredWorld(entries[i]))
  }

  function RestoredLanes(entries: seq<Value>): (rs: seq<Result<LaneV>>)
    ensures |rs| == |entries| && forall i :: 0 <= i < |entries| ==> rs[i] == RestoredLane(entries[i])
  {
    seq(|entries|, i requires 0 <= i < |entries| => RestoredLane(entries[i]))
  }

  function RestoredEvents(entries: seq<Value>): (rs: seq<Result<Events.EventDef>>)
    ensures |rs| == |entries| && forall i :: 0 <= i < |entries| ==> rs[i] == RestoredEvent(entries[i])
  {
    seq(|entries|, i requires 0 <= i < |entries| => RestoredEvent(entries[i]))
  }

  /** The shipments loop: every entry in order, the first failure stopping it. */
  function Shipments(entries: seq<Value>): (r: Result<seq<Shipment>>)
    ensures r.Ok? <==> forall i :: 0 <= i < |entries| ==> RestoredShipment(entries[i]).Ok?
    ensures r.Ok? ==> |r.value| == |entries| && forall i :: 0 <= i < |entries| ==> RestoredShipment(entries[i]) == Ok(r.value[i])
  {
    if entries == [] then Ok([])
    else
      var pre :- Shipments(entries[..|entries| - 1]);
      var s :- RestoredShipment(entries[|entries| - 1]);
      assert forall i :: 0 <= i < |entries| - 1 ==> entries[..|entries| - 1][i] == entries[i];
      Ok(pre + [s])
  }

  /** data[key] iterated when the key is present; no entries otherwise. */
  function OptionalEntries(data: Value, key: string): (r: Result<seq<Value>>)
    requires WellFormed(data) && data.Obj?
    ensures r.Ok? ==> forall i :: 0 <= i < |r.value| ==> WellFormed(r.value[i])
    ensures key !in data.fields.vals ==> r == Ok([])
    ensures key in data.fields.vals ==> r == Iterated(data.fields.vals[key])
  {
    if key in data.fields.vals then Iterated(data.fields.vals[key]) else Ok([])
  }

  /** The lane-capacity tracker: a fresh defaultdict, or the stored usage as
      a plain dict. */
  function TrackerFrom(data: Value): (r: Result<(Usage, bool)>)
    requires data.Obj?
    ensures "lane_capacity_tracker" !in data.fields.vals ==> r == Ok((map[], true))
    ensures r.Ok? && "lane_capacity_tracker" in data.fields.vals ==> !r.value.1
  {
    if "lane_capacity_tracker" in data.fields.vals then
      var items :- ItemsOf(data.fields.vals["lane_capacity_tracker"]);
      var used :- NumberDict(items, "capacity");
      Ok((used.vals, false))
    else Ok((map[], true))
  }

  /** The first half of from_dict: factions, worlds and lanes. */
  datatype Head = Head(factions: Dict<FactionId, Faction>, worlds: Dict<WorldId, WorldV>, lanes: Dict<LaneId, LaneV>)

  /** The factions loop: a faction per entry of data['factions'], if present. */
  function FactionsFrom(data: Value): (r: Result<Dict<FactionId, Faction>>)
    requires WellFormed(data) && data.Obj?
  {
    var entries :- OptionalEntries(data, "factions");
    Keyed(FactionResults(entries), FactionKey, |entries|)
  }

  /** The worlds loop: a world per entry of data['worlds']. */
  function WorldsFrom(data: Value): (r: Result<Dict<WorldId, WorldV>>)
    requires WellFormed(data) && data.Obj?
  {
    var worldsV :- Field(data, "worlds");
    assert WellFormed(worldsV);
    var entries :- Iterated(worldsV);
    Keyed(RestoredWorlds(entries), WorldKey, |entries|)
  }

  /** The lanes comprehension: a lane per entry of data['lanes']. */
  function LanesFrom(data: Value): (r: Result<Dict<LaneId, LaneV>>)
  {
    var lanesV :- Field(data, "lanes");
    var entries :- Iterated(lanesV);
    Keyed(RestoredLanes(entries), LaneKey, |entries|)
  }

  function HeadFrom(data: Value): (r: Result<Head>)
    requires WellFormed(data) && data.Obj?
  {
    var factions :- FactionsFrom(data);
    var worlds :- WorldsFrom(data);
    var lanes :- LanesFrom(data);
    Ok(Head(factions, worlds, lanes))
  }

  /** The second half: shipments, the tracker, the events, and the seed and
      tick the UniverseState call reads last. */
  datatype Tail = Tail(seed: int, tick: int, shipments: seq<Shipment>, used: Usage, usedDefaults: bool,
                       events: Dict<EventId, Events.EventDef>)

  /** The event registry: an event per entry of data['event_registry'], if present. */
  function EventsFrom(data: Value): (r: Result<Dict<EventId, Events.EventDef>>)
    requires WellFormed(data) && data.Obj?
  {
    var entries :- OptionalEntries(data, "event_registry");
    Keyed(RestoredEvents(entries), EventKey, |entries|)
  }

  function TailFrom(data: Value): (r: Result<Tail>)
    requires WellFormed(data) && data.Obj?
  {
    var shipmentEntries :- OptionalEntries(data, "active_shipments");
    var shipments :- Shipments(shipmentEntries);
    var tracker :- TrackerFrom(data);
    var events :- EventsFrom(data);
    var seedV :- Field(data, "seed");
    var seed :- AsInt(seedV, "seed");
    var tickV :- Field(data, "tick");
    var tick :- AsInt(tickV, "tick");
    Ok(Tail(seed, tick, shipments, tracker.0, tracker.1, events))
  }

  /** from_dict(data), up to the UniverseState call. */
  function FromDict(data: Value): (r: Result<Snapshot>)
    requires WellFormed(data)
  {
    if !data.Obj? then Fail(TypeMismatch("not a mapping"))
    else
      var h :- HeadFrom(data);
      var t :- TailFrom(data);
      Ok(Snapshot(t.seed, t.tick, h.worlds, h.lanes, t.shipments, t.used, t.usedDefaults, h.factions, t.events))
  }

  // ---------------------------------------------------------------------
  // What a round trip keeps

  /** What from_dict gives back for what to_dict wrote: a market with the
      default controller parameters, a population without energy upkeep,
      plain faction dictionaries, the world's control copied from its
      faction state, no coordinates or planets, and factions with the
      default color, capital and resource desire. */
  function NormalMarket(m: MarketV): MarketV {
    m.(factor := DEFAULT_PRICE_CHANGE_FACTOR, minMult := DEFAULT_MIN_PRICE_MULTIPLIER,
       maxMult := DEFAULT_MAX_PRICE_MULTIPLIER)
  }

  function NormalPopulation(p: PopulationV): PopulationV {
    p.(energyUpkeep := None)
  }

  function NormalFactionState(f: FactionStateV): FactionStateV {
    f.(defaults := false)
  }

  function NormalWorld(w: WorldV): WorldV {
    var factions := if w.factions.Some? then Some(NormalFactionState(w.factions.value)) else None;
    w.(x := 0.0, y := 0.0, planets := [],
       market := if w.market.Some? then Some(NormalMarket(w.market.value)) else None,
       population := if w.population.Some? then Some(NormalPopulation(w.population.value)) else None,
       factions := factions,
       control := if factions.Some? then factions.value.control else None)
  }

  function NormalFaction(f: Faction): Faction {
    f.(color := DEFAULT_COLOR, capitalWorld := None, resourceDesire := DEFAULT_RESOURCE_DESIRE)
  }

  /** Every value of a dictionary passed through f, keys and order kept. */
  function Mapped<T>(d: Dict<string, T>, f: T -> T): (r: Dict<string, T>)
    ensures r.keys == d.keys && r.vals.Keys == d.vals.Keys
    ensures d.Valid() ==> r.Valid()
    ensures forall k :: k in d.vals ==> r.vals[k] == f(d.vals[k])
  {
    Dict(d.keys, map k | k in d.vals :: f(d.vals[k]))
  }

  // ---------------------------------------------------------------------
  // Round trips, entity by entity

  /** A map of non-negative reals comes back from the inventory loop as it was. */
  lemma StockRoundTrip(q: Stock)
    requires NonNegative(q)
    ensures StockFrom(map[], FloatMap(q), |FloatMap(q).keys|) == Ok(q)
  {
    var d := FloatMap(q);
    StockFromAll(d);
    assert (map k | k in d.vals :: NumberOf(d.vals[k])) == q;
  }

  /** A map of reals comes back from a mapping of floats as it was. */
  lemma FloatMapRoundTrip(m: map<string, real>, what: string)
    ensures NumberDict(FloatMap(m), what).Ok? && NumberDict(FloatMap(m), what).value.vals == m
  {
  }

  lemma LaneRoundTrip(l: LaneV)
    ensures RestoredLane(LaneDict(l)) == Ok(l)
  {
  }

  lemma ShipmentRoundTrip(s: Shipment)
    ensures RestoredShipment(ShipmentDict(s)) == Ok(s)
  {
  }

  lemma EventRoundTrip(e: Events.EventDef)
    ensures RestoredEvent(EventDict(e)) == Ok(e)
  {
  }

  /** A list of distinct names comes back from set(...) in its own order. */
  lemma TagsRoundTrip(tags: seq<string>)
    requires Distinct(tags)
    ensures TagsFrom(StrList(tags)) == Ok(tags)
  {
    assert Names(StrList(tags).items) == tags;
  }

  /** A faction with distinct traits comes back with only the fields
      to_dict wrote. */
  lemma FactionRoundTrip(f: Faction)
    requires Distinct(f.traits)
    ensures RestoredFaction(FactionDict(f)) == Ok(NormalFaction(f))
  {
    assert FactionDict(f).fields.Get("traits", List([])) == StrList(f.traits);
    TagsRoundTrip(f.traits);
  }

  /** What a world's components must hold for to_dict and from_dict to
      agree on them: stock that the inventory accepts, dictionaries that
      list their keys once, and a control that is truthy when present. */
  predicate SaveableMarket(m: MarketV) {
    NonNegative(m.stock) && m.prices.Valid() && m.targets.Valid()
  }

  predicate SaveableFactionState(f: FactionStateV) {
    f.influence.Valid() && f.control != Some("")
  }

  /** A mapping of floats that lists its keys once is well formed. */
  lemma FloatsWellFormed(d: Dict<string, Value>)
    requires d.Valid() && forall k :: k in d.vals ==> d.vals[k].Float?
    ensures WellFormed(Obj(d))
  {
  }

  lemma MarketDictWellFormed(m: MarketV)
    requires SaveableMarket(m)
    ensures WellFormed(MarketDict(m))
  {
    FloatsWellFormed(FloatMap(m.stock));
    FloatsWellFormed(FloatDict(m.prices));
    FloatsWellFormed(FloatDict(m.targets));
    assert MarketDict(m).fields.Valid();
  }

  lemma MarketRoundTrip(m: MarketV)
    requires SaveableMarket(m)
    ensures WellFormed(MarketDict(m)) && MarketFrom(MarketDict(m)) == Ok(NormalMarket(m))
  {
    MarketDictWellFormed(m);
    var d := MarketDict(m).fields;
    assert d.Get("inventory", NoFields) == Obj(FloatMap(m.stock));
    StockRoundTrip(m.stock);
    NumberDictOfFloatDict(m.prices, "price");
    NumberDictOfFloatDict(m.targets, "target");
  }

  lemma PopulationDictWellFormed(p: PopulationV)
    requires p.needs.Valid()
    ensures WellFormed(PopulationDict(p))
  {
  }

  lemma PopulationRoundTrip(p: PopulationV)
    requires p.needs.Valid()
    ensures WellFormed(PopulationDict(p)) && PopulationFrom(PopulationDict(p)) == Ok(NormalPopulation(p))
  {
    PopulationDictWellFormed(p);
    NumberDictOfFloatDict(p.needs, "need");
  }

  lemma IndustryDictWellFormed(i: IndustryV)
    requires i.caps.Valid()
    ensures WellFormed(IndustryDict(i))
  {
  }

  lemma IndustryRoundTrip(i: IndustryV)
    requires i.caps.Valid()
    ensures WellFormed(IndustryDict(i)) && IndustryFrom(IndustryDict(i)) == Ok(i)
  {
    IndustryDictWellFormed(i);
    NumberDictOfFloatDict(i.caps, "cap");
  }

  lemma FactionStateDictValid(f: FactionStateV)
    ensures FactionStateDict(f).fields.Valid()
  {
  }

  lemma FactionStateDictWellFormed(f: FactionStateV)
    requires f.influence.Valid()
    ensures WellFormed(FactionStateDict(f))
  {
    var d := FactionStateDict(f).fields;
    FactionStateDictValid(f);
    FloatsWellFormed(FloatDict(f.influence));
    FloatsWellFormed(FloatMap(f.garrison));
    assert forall k :: k in d.vals ==> WellFormed(d.vals[k]);
  }

  /** FactionStateFrom, given what each field of the stored state reads as. */
  lemma FactionStateFromFields(wf: Value, f: FactionStateV)
    requires WellFormed(wf) && wf.Obj?
    requires var i := wf.fields.Get("influence", NoFields);
      i.Obj? && NumberDict(i.fields, "influence") == Ok(f.influence)
    requires var g := wf.fields.Get("garrison", NoFields);
      g.Obj? && NumberDict(g.fields, "garrison").Ok? && NumberDict(g.fields, "garrison").value.vals == f.garrison
    requires wf.fields.Get("control", Null) == OptStr(f.control)
    requires wf.fields.Get("control_threshold_gain", Float(DEFAULT_GAIN)) == Float(f.gain)
    requires wf.fields.Get("control_threshold_loss", Float(DEFAULT_LOSS)) == Float(f.loss)
    ensures FactionStateFrom(wf) == Ok(NormalFactionState(f).(control := if f.control == Some("") then None else f.control))
  {
  }

  lemma FactionStateRoundTrip(f: FactionStateV)
    requires SaveableFactionState(f)
    ensures WellFormed(FactionStateDict(f)) && FactionStateFrom(FactionStateDict(f)) == Ok(NormalFactionState(f))
  {
    FactionStateReadBack(f);
  }

  /** An empty control id is falsy: from_dict reads it back as no control. */
  lemma EmptyControlDropped(f: FactionStateV)
    requires f.influence.Valid() && f.control == Some("")
    ensures WellFormed(FactionStateDict(f)) && FactionStateFrom(FactionStateDict(f)).Ok?
    ensures FactionStateFrom(FactionStateDict(f)).value.control.None?
  {
    FactionStateReadBack(f);
  }

  /** What from_dict makes of any faction state to_dict wrote. */
  lemma FactionStateReadBack(f: FactionStateV)
    requires f.influence.Valid()
    ensures WellFormed(FactionStateDict(f)) &&
      FactionStateFrom(FactionStateDict(f)) == Ok(NormalFactionState(f).(control := if f.control == Some("") then None else f.control))
  {
    FactionStateDictWellFormed(f);
    var d := FactionStateDict(f).fields;
    assert d.Get("influence", NoFields) == Obj(FloatDict(f.influence));
    NumberDictOfFloatDict(f.influence, "influence");
    assert d.Get("garrison", NoFields) == Obj(FloatMap(f.garrison));
    FloatMapRoundTrip(f.garrison, "garrison");
    assert d.Get("control", Null) == OptStr(f.control);
    assert d.Get("control_threshold_gain", Float(DEFAULT_GAIN)) == Float(f.gain);
    assert d.Get("control_threshold_loss", Float(DEFAULT_LOSS)) == Float(f.loss);
    FactionStateFromFields(FactionStateDict(f), f);
  }


  predicate SaveableWorld(w: WorldV) {
    WellFormed(w.name) && Distinct(w.tags) &&
    (w.market.Some? ==> SaveableMarket(w.market.value)) &&
    (w.population.Some? ==> w.population.value.needs.Valid()) &&
    (w.industry.Some? ==> w.industry.value.caps.Valid()) &&
    (w.factions.Some? ==> SaveableFactionState(w.factions.value))
  }

  /** d[k] = v keeps a mapping well formed when v is. */
  lemma PutWellFormed(d: Dict<string, Value>, k: string, v: Value)
    requires WellFormed(Obj(d)) && WellFormed(v)
    ensures WellFormed(Obj(d.Put(k, v)))
  {
  }

  lemma PutSomeWellFormed<T>(d: Dict<string, Value>, key: string, o: Option<T>, enc: T -> Value)
    requires WellFormed(Obj(d)) && (o.Some? ==> WellFormed(enc(o.value)))
    ensures WellFormed(Obj(PutSome(d, key, o, enc)))
  {
    if o.Some? {
      PutWellFormed(d, key, enc(o.value));
    }
  }

  /** A component key is present exactly when the component is, and holds
      its encoding; every other key keeps what it had. */
  lemma PutSomeFields<T>(d: Dict<string, Value>, key: string, o: Option<T>, enc: T -> Value)
    ensures key in PutSome(d, key, o, enc).vals <==> key in d.vals || o.Some?
    ensures o.Some? ==> PutSome(d, key, o, enc).vals[key] == enc(o.value)
    ensures forall k :: k != key ==> (k in PutSome(d, key, o, enc).vals <==> k in d.vals)
    ensures forall k :: k != key && k in d.vals ==> PutSome(d, key, o, enc).vals[k] == d.vals[k]
  {
  }

  lemma PlainWorldDictValid(w: WorldV)
    ensures PlainWorldDict(w).Valid()
  {
  }

  lemma PlainWorldDictWellFormed(w: WorldV)
    requires WellFormed(w.name)
    ensures WellFormed(Obj(PlainWorldDict(w)))
  {
    var d := PlainWorldDict(w);
    PlainWorldDictValid(w);
    assert forall k :: k in d.vals ==> WellFormed(d.vals[k]);
  }

  lemma WorldDictWellFormed(w: WorldV)
    requires SaveableWorld(w)
    ensures WellFormed(WorldDict(w))
  {
    var d0 := PlainWorldDict(w);
    PlainWorldDictWellFormed(w);
    if w.market.Some? { MarketDictWellFormed(w.market.value); }
    var d1 := PutSome(d0, "market", w.market, MarketDict);
    PutSomeWellFormed(d0, "market", w.market, MarketDict);
    if w.population.Some? { PopulationDictWellFormed(w.population.value); }
    var d2 := PutSome(d1, "population", w.population, PopulationDict);
    PutSomeWellFormed(d1, "population", w.population, PopulationDict);
    if w.industry.Some? { IndustryDictWellFormed(w.industry.value); }
    var d3 := PutSome(d2, "industry", w.industry, IndustryDict);
    PutSomeWellFormed(d2, "industry", w.industry, IndustryDict);
    if w.factions.Some? { FactionStateDictWellFormed(w.factions.value); }
    PutSomeWellFormed(d3, "factions", w.factions, FactionStateDict);
  }

  /** The keys of a world's mapping: the eight plain fields as written,
      then one key for each component the world has. */
  lemma WorldDictFields(w: WorldV)
    ensures var d := WorldDict(w).fields; var p := PlainWorldDict(w);
      (forall k :: k in p.vals ==> k in d.vals && d.vals[k] == p.vals[k]) &&
      ("market" in d.vals <==> w.market.Some?) &&
      (w.market.Some? ==> d.vals["market"] == MarketDict(w.market.value)) &&
      ("population" in d.vals <==> w.population.Some?) &&
      (w.population.Some? ==> d.vals["population"] == PopulationDict(w.population.value)) &&
      ("industry" in d.vals <==> w.industry.Some?) &&
      (w.industry.Some? ==> d.vals["industry"] == IndustryDict(w.industry.value)) &&
      ("factions" in d.vals <==> w.factions.Some?) &&
      (w.factions.Some? ==> d.vals["factions"] == FactionStateDict(w.factions.value))
  {
    var d0 := PlainWorldDict(w);
    var d1 := PutSome(d0, "market", w.market, MarketDict);
    var d2 := PutSome(d1, "population", w.population, PopulationDict);
    var d3 := PutSome(d2, "industry", w.industry, IndustryDict);
    PutSomeFields(d0, "market", w.market, MarketDict);
    PutSomeFields(d1, "population", w.population, PopulationDict);
    PutSomeFields(d2, "industry", w.industry, IndustryDict);
    PutSomeFields(d3, "factions", w.factions, FactionStateDict);
  }

  lemma PartsRoundTrip(w: WorldV)
    requires SaveableWorld(w)
    ensures WellFormed(WorldDict(w)) &&
      PartsFrom(WorldDict(w)) == Ok(Parts(NormalWorld(w).market, NormalWorld(w).population, w.industry))
  {
    WorldDictWellFormed(w);
    WorldDictFields(w);
    if w.market.Some? { MarketRoundTrip(w.market.value); }
    if w.population.Some? { PopulationRoundTrip(w.population.value); }
    if w.industry.Some? { IndustryRoundTrip(w.industry.value); }
  }

  /** The eight plain fields of a world, read back. */
  lemma PlainWorldDictReads(w: WorldV)
    ensures var p := PlainWorldDict(w).vals;
      p.Keys == {"id", "name", "stability", "prosperity", "tech", "tags", "scarcity", "unrest"} &&
      p["id"] == Str(w.id) && p["name"] == w.name && p["stability"] == Float(w.stability) &&
      p["prosperity"] == Float(w.prosperity) && p["tech"] == Float(w.tech) &&
      p["tags"] == StrList(w.tags) && p["scarcity"] == Float(w.scarcity) && p["unrest"] == Float(w.unrest)
  {
  }

  /** RestoredWorld, given what each field of the stored world reads as. */
  lemma RestoredWorldFields(v: Value, w: WorldV)
    requires WellFormed(v) && v.Obj? && Distinct(w.tags)
    requires PartsFrom(v) == Ok(Parts(NormalWorld(w).market, NormalWorld(w).population, w.industry))
    requires ("factions" in v.fields.vals && !v.fields.vals["factions"].Null?) <==> w.factions.Some?
    requires w.factions.Some? ==>
      FactionStateFrom(v.fields.vals["factions"]) == Ok(NormalFactionState(w.factions.value))
    requires HasKey(v, "id") && v.fields.vals["id"] == Str(w.id)
    requires HasKey(v, "name") && v.fields.vals["name"] == w.name
    requires v.fields.Get("stability", Float(1.0)) == Float(w.stability)
    requires v.fields.Get("prosperity", Float(1.0)) == Float(w.prosperity)
    requires v.fields.Get("tech", Float(1.0)) == Float(w.tech)
    requires v.fields.Get("tags", List([])) == StrList(w.tags)
    requires v.fields.Get("scarcity", Float(0.0)) == Float(w.scarcity)
    requires v.fields.Get("unrest", Float(0.0)) == Float(w.unrest)
    ensures RestoredWorld(v) == Ok(NormalWorld(w))
  {
    TagsRoundTrip(w.tags);
  }

  /** A world comes back with the fields to_dict wrote and the components
      it had, each as its own loader reads it. */
  lemma WorldRoundTrip(w: WorldV)
    requires SaveableWorld(w)
    ensures WellFormed(WorldDict(w)) && RestoredWorld(WorldDict(w)) == Ok(NormalWorld(w))
  {
    PartsRoundTrip(w);
    WorldDictFields(w);
    PlainWorldDictReads(w);
    if w.factions.Some? { FactionStateRoundTrip(w.factions.value); }
    RestoredWorldFields(WorldDict(w), w);
  }

  // ---------------------------------------------------------------------
  // Round trips of whole dictionaries

  /** The first n entries of d, each passed through f. */
  ghost function MappedPrefix<T>(d: Dict<string, T>, f: T -> T, n: nat): Dict<string, T>
    requires n <= |d.keys|
  {
    Dict(d.keys[..n], map k | k in d.keys[..n] && k in d.vals :: f(d.vals[k]))
  }

  /** Restoring the entries of a dictionary keyed by id, one by one, gives
      the dictionary back when each entry comes back as f of itself with
      the same id. */
  lemma {:induction false} KeyedPrefixRestores<T>(d: Dict<string, T>, rs: seq<Result<T>>, key: T -> string, f: T -> T, n: nat)
    requires d.Valid() && n <= |rs| == |d.keys|
    requires forall k :: k in d.vals ==> key(f(d.vals[k])) == k
    requires forall i :: 0 <= i < |rs| ==> rs[i] == Ok(f(d.vals[d.keys[i]]))
    ensures Keyed(rs, key, n) == Ok(MappedPrefix(d, f, n))
  {
    if n > 0 {
      KeyedPrefixRestores(d, rs, key, f, n - 1);
      KeyedPrefixStep(d, rs, key, f, n);
    }
  }

  lemma KeyedPrefixStep<T>(d: Dict<string, T>, rs: seq<Result<T>>, key: T -> string, f: T -> T, n: nat)
    requires d.Valid() && 0 < n <= |rs| == |d.keys|
    requires Keyed(rs, key, n - 1) == Ok(MappedPrefix(d, f, n - 1))
    requires rs[n - 1] == Ok(f(d.vals[d.keys[n - 1]])) && key(f(d.vals[d.keys[n - 1]])) == d.keys[n - 1]
    ensures Keyed(rs, key, n) == Ok(MappedPrefix(d, f, n))
  {
    KeyedStepIsPut(rs, key, n - 1, MappedPrefix(d, f, n - 1), f(d.vals[d.keys[n - 1]]));
    MappedPrefixStep(d, f, n);
  }

  /** One more entry of d, put under its own key, extends the prefix. */
  lemma MappedPrefixStep<T>(d: Dict<string, T>, f: T -> T, n: nat)
    requires d.Valid() && 0 < n <= |d.keys|
    ensures MappedPrefix(d, f, n - 1).Put(d.keys[n - 1], f(d.vals[d.keys[n - 1]])) == MappedPrefix(d, f, n)
  {
    var pre := MappedPrefix(d, f, n - 1);
    var c := d.keys[n - 1];
    assert c !in pre.vals by {
      assert c !in d.keys[..n - 1];
    }
    assert d.keys[..n] == d.keys[..n - 1] + [c];
    assert pre.Put(c, f(d.vals[c])).vals == MappedPrefix(d, f, n).vals;
  }

  lemma KeyedRestores<T>(d: Dict<string, T>, rs: seq<Result<T>>, key: T -> string, f: T -> T)
    requires d.Valid() && |rs| == |d.keys|
    requires forall k :: k in d.vals ==> key(f(d.vals[k])) == k
    requires forall i :: 0 <= i < |rs| ==> rs[i] == Ok(f(d.vals[d.keys[i]]))
    ensures Keyed(rs, key, |rs|) == Ok(Mapped(d, f))
  {
    KeyedPrefixRestores(d, rs, key, f, |rs|);
    assert d.keys[..|rs|] == d.keys;
    assert MappedPrefix(d, f, |rs|) == Mapped(d, f);
  }

  /** The identity, for dictionaries whose entries come back unchanged. */
  function Same<T>(x: T): T { x }

  lemma MappedSame<T>(d: Dict<string, T>)
    ensures Mapped(d, Same) == d
  {
    assert Mapped(d, Same).vals == d.vals;
  }

  // ---------------------------------------------------------------------
  // Whole snapshots

  predicate SaveableFaction(f: Faction) {
    WellFormed(f.name) && Distinct(f.traits) && WellFormed(Obj(f.weights))
  }

  predicate SaveableEvent(e: Events.EventDef) {
    WellFormed(List(e.conditions)) && WellFormed(List(e.effects))
  }

  /** What a snapshot must hold for from_dict to read back what to_dict
      wrote: every dictionary keyed by the ids of its entries, and every
      entry saveable. */
  predicate Saveable(s: Snapshot) {
    Listable(s) &&
    (forall k :: k in s.worlds.vals ==> s.worlds.vals[k].id == k && SaveableWorld(s.worlds.vals[k])) &&
    (forall k :: k in s.lanes.vals ==> s.lanes.vals[k].id == k) &&
    (forall k :: k in s.factions.vals ==> s.factions.vals[k].id == k && SaveableFaction(s.factions.vals[k])) &&
    (forall k :: k in s.events.vals ==> s.events.vals[k].id == k && SaveableEvent(s.events.vals[k]))
  }

  /** What from_dict(to_dict(state)) holds: the worlds and factions as
      NormalWorld and NormalFaction leave them, and the tracker's usage as
      a plain dict. */
  ghost function Normal(s: Snapshot): Snapshot {
    s.(worlds := Mapped(s.worlds, NormalWorld), factions := Mapped(s.factions, NormalFaction),
       usedDefaults := false)
  }

  lemma ListedWellFormed<T>(d: Dict<string, T>, enc: T -> Value)
    requires d.Valid() && forall k :: k in d.vals ==> WellFormed(enc(d.vals[k]))
    ensures WellFormed(List(Listed(d, enc)))
  {
  }

  lemma LaneDictWellFormed(l: LaneV)
    ensures WellFormed(LaneDict(l))
  {
    LaneDictValid(l);
  }

  lemma ShipmentDictWellFormed(sh: Shipment)
    ensures WellFormed(ShipmentDict(sh))
  {
    assert ShipmentDict(sh).fields.Valid();
  }

  lemma FactionDictWellFormed(f: Faction)
    requires SaveableFaction(f)
    ensures WellFormed(FactionDict(f))
  {
    assert FactionDict(f).fields.Valid();
  }

  lemma EventDictWellFormed(e: Events.EventDef)
    requires SaveableEvent(e)
    ensures WellFormed(EventDict(e))
  {
    assert EventDict(e).fields.Valid();
  }

  lemma DocumentValid(seed: Value, tick: Value, worlds: Value, lanes: Value, shipments: Value,
                       tracker: Value, factions: Value, events: Value)
    ensures Document(seed, tick, worlds, lanes, shipments, tracker, factions, events).fields.Valid()
  {
    var d := Document(seed, tick, worlds, lanes, shipments, tracker, factions, events).fields;
    assert Distinct(d.keys);
    assert forall k :: k in d.vals ==> k in d.keys;
  }

  /** A document is well formed when its eight values are. */
  lemma DocumentWellFormed(seed: Value, tick: Value, worlds: Value, lanes: Value, shipments: Value,
                           tracker: Value, factions: Value, events: Value)
    requires WellFormed(seed) && WellFormed(tick) && WellFormed(worlds) && WellFormed(lanes)
    requires WellFormed(shipments) && WellFormed(tracker) && WellFormed(factions) && WellFormed(events)
    ensures WellFormed(Document(seed, tick, worlds, lanes, shipments, tracker, factions, events))
  {
    DocumentValid(seed, tick, worlds, lanes, shipments, tracker, factions, events);
  }

  /** The eight top-level fields of the document, read back. */
  lemma DocumentReads(seed: Value, tick: Value, worlds: Value, lanes: Value, shipments: Value,
                      tracker: Value, factions: Value, events: Value)
    ensures var d := Document(seed, tick, worlds, lanes, shipments, tracker, factions, events).fields.vals;
      "seed" in d && "tick" in d && "worlds" in d && "lanes" in d && "active_shipments" in d &&
      "lane_capacity_tracker" in d && "factions" in d && "event_registry" in d &&
      d["seed"] == seed && d["tick"] == tick && d["worlds"] == worlds && d["lanes"] == lanes &&
      d["active_shipments"] == shipments && d["lane_capacity_tracker"] == tracker &&
      d["factions"] == factions && d["event_registry"] == events
  {
  }

  lemma WorldsWellFormed(d: Dict<WorldId, WorldV>)
    requires d.Valid() && forall k :: k in d.vals ==> SaveableWorld(d.vals[k])
    ensures WellFormed(List(Listed(d, WorldDict)))
  {
    forall k | k in d.vals ensures WellFormed(WorldDict(d.vals[k])) {
      WorldDictWellFormed(d.vals[k]);
    }
    ListedWellFormed(d, WorldDict);
  }

  lemma LanesWellFormed(d: Dict<LaneId, LaneV>)
    requires d.Valid()
    ensures WellFormed(List(Listed(d, LaneDict)))
  {
    forall k | k in d.vals ensures WellFormed(LaneDict(d.vals[k])) {
      LaneDictWellFormed(d.vals[k]);
    }
    ListedWellFormed(d, LaneDict);
  }

  lemma ShipmentsWellFormed(ss: seq<Shipment>)
    ensures WellFormed(List(ShipmentList(ss)))
  {
    forall i | 0 <= i < |ss| ensures WellFormed(ShipmentDict(ss[i])) {
      ShipmentDictWellFormed(ss[i]);
    }
  }

  lemma FactionsWellFormed(d: Dict<FactionId, Faction>)
    requires d.Valid() && forall k :: k in d.vals ==> SaveableFaction(d.vals[k])
    ensures WellFormed(List(Listed(d, FactionDict)))
  {
    forall k | k in d.vals ensures WellFormed(FactionDict(d.vals[k])) {
      FactionDictWellFormed(d.vals[k]);
    }
    ListedWellFormed(d, FactionDict);
  }

  lemma EventsWellFormed(d: Dict<EventId, Events.EventDef>)
    requires d.Valid() && forall k :: k in d.vals ==> SaveableEvent(d.vals[k])
    ensures WellFormed(List(Listed(d, EventDict)))
  {
    forall k | k in d.vals ensures WellFormed(EventDict(d.vals[k])) {
      EventDictWellFormed(d.vals[k]);
    }
    ListedWellFormed(d, EventDict);
  }

  lemma ToDictWellFormed(s: Snapshot)
    requires Saveable(s)
    ensures WellFormed(ToDict(s))
  {
    WorldsWellFormed(s.worlds);
    LanesWellFormed(s.lanes);
    ShipmentsWellFormed(s.shipments);
    FloatsWellFormed(FloatMap(s.used));
    FactionsWellFormed(s.factions);
    EventsWellFormed(s.events);
    DocumentWellFormed(Int(s.seed), Int(s.tick), List(Listed(s.worlds, WorldDict)), List(Listed(s.lanes, LaneDict)),
      List(ShipmentList(s.shipments)), Obj(FloatMap(s.used)), List(Listed(s.factions, FactionDict)),
      List(Listed(s.events, EventDict)));
  }


  /** The factions come back as NormalFaction leaves them, in their order. */
  lemma FactionsRestored(d: Dict<FactionId, Faction>)
    requires d.Valid() && forall k :: k in d.vals ==> d.vals[k].id == k && SaveableFaction(d.vals[k])
    ensures var es := Listed(d, FactionDict);
      Keyed(FactionResults(es), FactionKey, |es|) == Ok(Mapped(d, NormalFaction))
  {
    var es := Listed(d, FactionDict);
    var rs := FactionResults(es);
    forall i | 0 <= i < |rs| ensures rs[i] == Ok(NormalFaction(d.vals[d.keys[i]])) {
      FactionRoundTrip(d.vals[d.keys[i]]);
    }
    KeyedRestores(d, rs, FactionKey, NormalFaction);
  }

  /** The worlds come back as NormalWorld leaves them, in their order. */
  lemma WorldsRestored(d: Dict<WorldId, WorldV>)
    requires d.Valid() && forall k :: k in d.vals ==> d.vals[k].id == k && SaveableWorld(d.vals[k])
    ensures var es := Listed(d, WorldDict);
      (forall i :: 0 <= i < |es| ==> WellFormed(es[i])) &&
      Keyed(RestoredWorlds(es), WorldKey, |es|) == Ok(Mapped(d, NormalWorld))
  {
    var es := Listed(d, WorldDict);
    forall i | 0 <= i < |es| ensures WellFormed(es[i]) && RestoredWorld(es[i]) == Ok(NormalWorld(d.vals[d.keys[i]])) {
      WorldRoundTrip(d.vals[d.keys[i]]);
    }
    KeyedRestores(d, RestoredWorlds(es), WorldKey, NormalWorld);
  }

  /** The lanes come back unchanged, in their order. */
  lemma LanesRestored(d: Dict<LaneId, LaneV>)
    requires d.Valid() && forall k :: k in d.vals ==> d.vals[k].id == k
    ensures var es := Listed(d, LaneDict);
      Keyed(RestoredLanes(es), LaneKey, |es|) == Ok(d)
  {
    var es := Listed(d, LaneDict);
    var rs := RestoredLanes(es);
    forall i | 0 <= i < |rs| ensures rs[i] == Ok(Same(d.vals[d.keys[i]])) {
      LaneRoundTrip(d.vals[d.keys[i]]);
    }
    KeyedRestores(d, rs, LaneKey, Same);
    MappedSame(d);
  }

  /** The events come back unchanged, in their order. */
  lemma EventsRestored(d: Dict<EventId, Events.EventDef>)
    requires d.Valid() && forall k :: k in d.vals ==> d.vals[k].id == k
    ensures var es := Listed(d, EventDict);
      Keyed(RestoredEvents(es), EventKey, |es|) == Ok(d)
  {
    var es := Listed(d, EventDict);
    var rs := RestoredEvents(es);
    forall i | 0 <= i < |rs| ensures rs[i] == Ok(Same(d.vals[d.keys[i]])) {
      EventRoundTrip(d.vals[d.keys[i]]);
    }
    KeyedRestores(d, rs, EventKey, Same);
    MappedSame(d);
  }

  /** The shipments come back unchanged, in their order. */
  lemma ShipmentsRestored(ss: seq<Shipment>)
    ensures Shipments(ShipmentList(ss)) == Ok(ss)
  {
    var es := ShipmentList(ss);
    forall i | 0 <= i < |es| ensures RestoredShipment(es[i]) == Ok(ss[i]) {
      ShipmentRoundTrip(ss[i]);
    }
    assert Shipments(es).value == ss;
  }

  /** Each loop of from_dict over a document whose entry holds what
      to_dict wrote for that dictionary. */
  lemma FactionsFromListed(data: Value, d: Dict<FactionId, Faction>)
    requires d.Valid() && forall k :: k in d.vals ==> d.vals[k].id == k && SaveableFaction(d.vals[k])
    requires WellFormed(data) && HasKey(data, "factions") && data.fields.vals["factions"] == List(Listed(d, FactionDict))
    ensures FactionsFrom(data) == Ok(Mapped(d, NormalFaction))
  {
    FactionsRestored(d);
  }

  lemma WorldsFromListed(data: Value, d: Dict<WorldId, WorldV>)
    requires d.Valid() && forall k :: k in d.vals ==> d.vals[k].id == k && SaveableWorld(d.vals[k])
    requires WellFormed(data) && HasKey(data, "worlds") && data.fields.vals["worlds"] == List(Listed(d, WorldDict))
    ensures WorldsFrom(data) == Ok(Mapped(d, NormalWorld))
  {
    WorldsRestored(d);
  }

  lemma LanesFromListed(data: Value, d: Dict<LaneId, LaneV>)
    requires d.Valid() && forall k :: k in d.vals ==> d.vals[k].id == k
    requires HasKey(data, "lanes") && data.fields.vals["lanes"] == List(Listed(d, LaneDict))
    ensures LanesFrom(data) == Ok(d)
  {
    LanesRestored(d);
  }

  lemma EventsFromListed(data: Value, d: Dict<EventId, Events.EventDef>)
    requires d.Valid() && forall k :: k in d.vals ==> d.vals[k].id == k
    requires WellFormed(data) && HasKey(data, "event_registry") && data.fields.vals["event_registry"] == List(Listed(d, EventDict))
    ensures EventsFrom(data) == Ok(d)
  {
    EventsRestored(d);
  }

  lemma ShipmentsFromListed(data: Value, ss: seq<Shipment>)
    requires WellFormed(data) && HasKey(data, "active_shipments") && data.fields.vals["active_shipments"] == List(ShipmentList(ss))
    ensures OptionalEntries(data, "active_shipments") == Ok(ShipmentList(ss)) && Shipments(ShipmentList(ss)) == Ok(ss)
  {
    ShipmentsRestored(ss);
  }

  lemma TrackerFromFloats(data: Value, used: Usage)
    requires HasKey(data, "lane_capacity_tracker") && data.fields.vals["lane_capacity_tracker"] == Obj(FloatMap(used))
    ensures TrackerFrom(data) == Ok((used, false))
  {
    FloatMapRoundTrip(used, "capacity");
  }

  /** The two halves of from_dict over any document holding what to_dict
      writes for s. */
  lemma HeadFromListed(data: Value, s: Snapshot)
    requires Saveable(s) && WellFormed(data) && data.Obj?
    requires HasKey(data, "factions") && data.fields.vals["factions"] == List(Listed(s.factions, FactionDict))
    requires HasKey(data, "worlds") && data.fields.vals["worlds"] == List(Listed(s.worlds, WorldDict))
    requires HasKey(data, "lanes") && data.fields.vals["lanes"] == List(Listed(s.lanes, LaneDict))
    ensures HeadFrom(data) == Ok(Head(Mapped(s.factions, NormalFaction), Mapped(s.worlds, NormalWorld), s.lanes))
  {
    FactionsFromListed(data, s.factions);
    WorldsFromListed(data, s.worlds);
    LanesFromListed(data, s.lanes);
  }

  lemma TailFromListed(data: Value, s: Snapshot)
    requires Saveable(s) && WellFormed(data) && data.Obj?
    requires HasKey(data, "active_shipments") && data.fields.vals["active_shipments"] == List(ShipmentList(s.shipments))
    requires HasKey(data, "lane_capacity_tracker") && data.fields.vals["lane_capacity_tracker"] == Obj(FloatMap(s.used))
    requires HasKey(data, "event_registry") && data.fields.vals["event_registry"] == List(Listed(s.events, EventDict))
    requires HasKey(data, "seed") && data.fields.vals["seed"] == Int(s.seed)
    requires HasKey(data, "tick") && data.fields.vals["tick"] == Int(s.tick)
    ensures TailFrom(data) == Ok(Tail(s.seed, s.tick, s.shipments, s.used, false, s.events))
  {
    ShipmentsFromListed(data, s.shipments);
    TrackerFromFloats(data, s.used);
    EventsFromListed(data, s.events);
  }

  lemma HeadRoundTrip(s: Snapshot)
    requires Saveable(s)
    ensures WellFormed(ToDict(s)) &&
      HeadFrom(ToDict(s)) == Ok(Head(Mapped(s.factions, NormalFaction), Mapped(s.worlds, NormalWorld), s.lanes))
  {
    ToDictWellFormed(s);
    DocumentReads(Int(s.seed), Int(s.tick), List(Listed(s.worlds, WorldDict)), List(Listed(s.lanes, LaneDict)),
      List(ShipmentList(s.shipments)), Obj(FloatMap(s.used)), List(Listed(s.factions, FactionDict)),
      List(Listed(s.events, EventDict)));
    HeadFromListed(ToDict(s), s);
  }

  lemma TailRoundTrip(s: Snapshot)
    requires Saveable(s)
    ensures WellFormed(ToDict(s)) && TailFrom(ToDict(s)) == Ok(Tail(s.seed, s.tick, s.shipments, s.used, false, s.events))
  {
    ToDictWellFormed(s);
    DocumentReads(Int(s.seed), Int(s.tick), List(Listed(s.worlds, WorldDict)), List(Listed(s.lanes, LaneDict)),
      List(ShipmentList(s.shipments)), Obj(FloatMap(s.used)), List(Listed(s.factions, FactionDict)),
      List(Listed(s.events, EventDict)));
    TailFromListed(ToDict(s), s);
  }

  /** from_dict(to_dict(state)) gives back the state's contents, as Normal
      describes them. */
  lemma RoundTrip(s: Snapshot)
    requires Saveable(s)
    ensures WellFormed(ToDict(s)) && FromDict(ToDict(s)) == Ok(Normal(s))
  {
    HeadRoundTrip(s);
    TailRoundTrip(s);
  }

  // ---------------------------------------------------------------------
  // What to_dict does not write

  /** Encoding the entries after f gives the same list when f changes
      nothing the encoding writes. */
  lemma ListedMapped<T>(d: Dict<string, T>, f: T -> T, enc: T -> Value)
    requires d.Valid() && forall k :: k in d.vals ==> enc(f(d.vals[k])) == enc(d.vals[k])
    ensures Mapped(d, f).Valid() && Listed(Mapped(d, f), enc) == Listed(d, enc)
  {
  }

  /** A world's coordinates, planets, market parameters, energy upkeep,
      faction-state flag and control are not written. */
  lemma WorldDictNormal(w: WorldV)
    ensures WorldDict(NormalWorld(w)) == WorldDict(w)
  {
    var n := NormalWorld(w);
    assert PlainWorldDict(n) == PlainWorldDict(w);
    if w.market.Some? {
      assert MarketDict(n.market.value) == MarketDict(w.market.value);
    }
    if w.population.Some? {
      assert PopulationDict(n.population.value) == PopulationDict(w.population.value);
    }
    if w.factions.Some? {
      assert FactionStateDict(n.factions.value) == FactionStateDict(w.factions.value);
    }
  }

  /** A faction's color, capital and resource desire are not written. */
  lemma FactionDictNormal(f: Faction)
    ensures FactionDict(NormalFaction(f)) == FactionDict(f)
  {
  }

  /** to_dict cannot tell a snapshot from its normal form. */
  lemma ToDictNormal(s: Snapshot)
    requires Listable(s)
    ensures Listable(Normal(s)) && ToDict(Normal(s)) == ToDict(s)
  {
    forall k | k in s.worlds.vals ensures WorldDict(NormalWorld(s.worlds.vals[k])) == WorldDict(s.worlds.vals[k]) {
      WorldDictNormal(s.worlds.vals[k]);
    }
    ListedMapped(s.worlds, NormalWorld, WorldDict);
    forall k | k in s.factions.vals ensures FactionDict(NormalFaction(s.factions.vals[k])) == FactionDict(s.factions.vals[k]) {
      FactionDictNormal(s.factions.vals[k]);
    }
    ListedMapped(s.factions, NormalFaction, FactionDict);
  }

  /** Saving what was loaded from a save writes the same document again,
      and loading that gives the same contents again. */
  lemma SaveIsStable(s: Snapshot)
    requires Saveable(s)
    ensures WellFormed(ToDict(s)) && FromDict(ToDict(s)).Ok?
    ensures var t := FromDict(ToDict(s)).value;
      Listable(t) && ToDict(t) == ToDict(s) && FromDict(ToDict(t)) == Ok(t)
  {
    RoundTrip(s);
    ToDictNormal(s);
  }

  // ---------------------------------------------------------------------
  // What from_dict rejects

  /** inventory.add raises on a negative stored quantity, so the market fails. */
  lemma NegativeStockRejected(md: Value, c: CommodityId)
    requires WellFormed(md) && HasKey(md, "inventory") && md.fields.vals["inventory"].Obj?
    requires c in md.fields.vals["inventory"].fields.vals
    requires IsNumber(md.fields.vals["inventory"].fields.vals[c])
    requires NumberOf(md.fields.vals["inventory"].fields.vals[c]) < 0.0
    ensures MarketFrom(md).Fail?
  {
    var d := md.fields.vals["inventory"].fields;
    assert WellFormed(md.fields.vals["inventory"]);
    assert c in d.keys;
    var i :| 0 <= i < |d.keys| && d.keys[i] == c;
    StockFromOk(map[], d, |d.keys|);
    assert !Quantity(d.vals[d.keys[i]]);
  }

  /** A world whose market cannot be rebuilt cannot be rebuilt either. */
  lemma MarketFailureRejectsWorld(w: Value)
    requires WellFormed(w) && HasKey(w, "market") && MarketFrom(w.fields.vals["market"]).Fail?
    ensures RestoredWorld(w).Fail?
  {
    assert PartsFrom(w).Fail?;
  }

  /** A world entry that cannot be rebuilt makes from_dict raise. */
  lemma WorldFailureRejected(data: Value, k: nat)
    requires WellFormed(data) && HasKey(data, "worlds") && data.fields.vals["worlds"].List?
    requires k < |data.fields.vals["worlds"].items|
    requires WellFormed(data.fields.vals["worlds"].items[k])
    requires RestoredWorld(data.fields.vals["worlds"].items[k]).Fail?
    ensures FromDict(data).Fail?
  {
    var entries := data.fields.vals["worlds"].items;
    assert WellFormed(data.fields.vals["worlds"]);
    KeyedOk(RestoredWorlds(entries), WorldKey, |entries|);
    assert WorldsFrom(data).Fail?;
    assert HeadFrom(data).Fail?;
  }

  // ---------------------------------------------------------------------
  // from_dict, with its loops run as loops

  /** The results of restoring each entry, in order. */
  function Restored<T>(entries: seq<Value>, restore: Value --> Result<T>): (rs: seq<Result<T>>)
    requires forall i :: 0 <= i < |entries| ==> restore.requires(entries[i])
    ensures |rs| == |entries| && forall i :: 0 <= i < |entries| ==> rs[i] == restore(entries[i])
  {
    seq(|entries|, i requires 0 <= i < |entries| => restore(entries[i]))
  }

  /**
   * The loop shared by factions, worlds and the event registry: restore each
   * entry, stop at the first failure, store the others under their ids.
   */
  method RestoreEach<T>(entries: seq<Value>, restore: Value --> Result<T>, key: T -> string)
    returns (r: Result<Dict<string, T>>)
    requires forall i :: 0 <= i < |entries| ==> restore.requires(entries[i])
    ensures r == Keyed(Restored(entries, restore), key, |entries|)
  {
    ghost var rs := Restored(entries, restore);
    var d: Dict<string, T> := EmptyDict();
    for i := 0 to |entries|
      invariant Keyed(rs, key, i) == Ok(d)
    {
      var x := restore(entries[i]);
      if x.Fail? {
        KeyedStops(rs, key, i, d);
        return Fail(x.error);
      }
      KeyedStepIsPut(rs, key, i, d, x.value);
      d := d.Put(key(x.value), x.value);
    }
    r := Ok(d);
  }

  /** for s_data in data['active_shipments']: active_shipments.append(Shipment(...)) */
  method RestoreShipments(entries: seq<Value>) returns (r: Result<seq<Shipment>>)
    ensures r == Shipments(entries)
  {
    var shipments: seq<Shipment> := [];
    for i := 0 to |entries|
      invariant Shipments(entries[..i]) == Ok(shipments)
    {
      assert entries[..i + 1][..i] == entries[..i];
      var x := RestoredShipment(entries[i]);
      if x.Fail? {
        ShipmentsStop(entries, i);
        return Fail(x.error);
      }
      shipments := shipments + [x.value];
    }
    assert entries[..|entries|] == entries;
    r := Ok(shipments);
  }

  /** A failing entry after a good prefix makes the whole shipments loop fail with its error. */
  lemma {:induction false} ShipmentsStop(entries: seq<Value>, i: nat)
    requires i < |entries| && Shipments(entries[..i]).Ok? && RestoredShipment(entries[i]).Fail?
    ensures Shipments(entries) == Fail(RestoredShipment(entries[i]).error)
    decreases |entries|
  {
    var p := entries[..|entries| - 1];
    if |entries| == i + 1 {
      assert p == entries[..i];
      ShipmentsFailAtEnd(entries);
    } else {
      assert p[..i] == entries[..i] && p[i] == entries[i];
      ShipmentsStop(p, i);
      ShipmentsFailKept(entries);
    }
  }

  /** A last entry that fails after a good prefix is the loop's error. */
  lemma ShipmentsFailAtEnd(entries: seq<Value>)
    requires entries != [] && Shipments(entries[..|entries| - 1]).Ok?
    requires RestoredShipment(entries[|entries| - 1]).Fail?
    ensures Shipments(entries) == Fail(RestoredShipment(entries[|entries| - 1]).error)
  {
  }

  /** A failure in the prefix is kept whatever follows. */
  lemma ShipmentsFailKept(entries: seq<Value>)
    requires entries != [] && Shipments(entries[..|entries| - 1]).Fail?
    ensures Shipments(entries) == Shipments(entries[..|entries| - 1])
  {
  }

  /** from_dict(data), each loop run as a loop. */
  method LoadSnapshot(data: Value) returns (r: Result<Snapshot>)
    requires WellFormed(data)
    ensures r == FromDict(data)
  {
    if !data.Obj? {
      return Fail(TypeMismatch("not a mapping"));
    }
    var factionEntries := OptionalEntries(data, "factions");
    if factionEntries.Fail? {
      return Fail(factionEntries.error);
    }
    var factions := RestoreEach(factionEntries.value, RestoredFaction, FactionKey);
    assert Restored(factionEntries.value, RestoredFaction) == FactionResults(factionEntries.value);
    if factions.Fail? {
      return Fail(factions.error);
    }
    var worldsV := Field(data, "worlds");
    if worldsV.Fail? {
      return Fail(worldsV.error);
    }
    var worldEntries := Iterated(worldsV.value);
    if worldEntries.Fail? {
      return Fail(worldEntries.error);
    }
    var worlds := RestoreEach(worldEntries.value, RestoredWorld, WorldKey);
    assert Restored(worldEntries.value, RestoredWorld) == RestoredWorlds(worldEntries.value);
    if worlds.Fail? {
      return Fail(worlds.error);
    }
    var lanes := LanesFrom(data);
    if lanes.Fail? {
      return Fail(lanes.error);
    }
    var shipmentEntries := OptionalEntries(data, "active_shipments");
    if shipmentEntries.Fail? {
      return Fail(shipmentEntries.error);
    }
    var shipments := RestoreShipments(shipmentEntries.value);
    if shipments.Fail? {
      return Fail(shipments.error);
    }
    var tracker := TrackerFrom(data);
    if tracker.Fail? {
      return Fail(tracker.error);
    }
    var eventEntries := OptionalEntries(data, "event_registry");
    if eventEntries.Fail? {
      return Fail(eventEntries.error);
    }
    var events := RestoreEach(eventEntries.value, RestoredEvent, EventKey);
    assert Restored(eventEntries.value, RestoredEvent) == RestoredEvents(eventEntries.value);
    if events.Fail? {
      return Fail(events.error);
    }
    var seedV := Field(data, "seed");
    if seedV.Fail? {
      return Fail(seedV.error);
    }
    var seed := AsInt(seedV.value, "seed");
    if seed.Fail? {
      return Fail(seed.error);
    }
    var tickV := Field(data, "tick");
    if tickV.Fail? {
      return Fail(tickV.error);
    }
    var tick := AsInt(tickV.value, "tick");
    if tick.Fail? {
      return Fail(tick.error);
    }
    r := Ok(Snapshot(seed.value, tick.value, worlds.value, lanes.value, shipments.value, tracker.value.0,
                     tracker.value.1, factions.value, events.value));
  }
}
