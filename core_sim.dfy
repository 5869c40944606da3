// core/sim.py: one tick of the simulation. The stages run in a fixed order
// (consumption, production, trade, prices, factions, events), every entry is
// logged with the tick the step started at, and the tick then rises by one.

module CoreSim {
  import opened Base
  import opened Docs
  import opened EconInventory
  import opened EconMarketData
  import opened EconCommodities
  import opened EconRecipes
  import opened WorldModel
  import opened LogisticsShipping
  import opened LogisticsCapacity
  import opened FactionModel
  import opened EventRegistry
  import opened CoreState
  import opened CoreLog
  import EconConsumption
  import EconProduction
  import EconMarket
  import EconTrade
  import FactionAI
  import FactionIntegrate
  import EventGenerator
  import EventEffects

  type Worlds = Dict<WorldId, WorldV>

  /** TickReport(tick, log) */
  datatype TickReport = TickReport(tick: int, log: AuditLog)

  // ----- the entries of a tick -----

  const CONSUMPTION_IMPACT := "economy.consumption.impact"
  const NO_CONSUMPTION := "economy.consumption"
  const PRODUCTION_OUTPUT := "economy.production.output"
  const NO_PRODUCTION := "economy.production"
  const NEW_SHIPMENTS := "economy.trade.new_shipments"
  const ARRIVALS := "economy.trade.arrivals"
  const NO_TRADE := "economy.trade"
  const PRICE_UPDATE := "economy.prices.update"
  const NO_PRICES := "economy.prices"
  const FACTIONS_STEP := "factions.step"
  const EVENT_TRIGGERED := "event.triggered"
  const EVENTS_ROLL := "events.roll"

  /** The stage an entry kind belongs to, numbered in the order the stages run. */
  function Rank(kind: string): nat {
    if kind == CONSUMPTION_IMPACT || kind == NO_CONSUMPTION then 1
    else if kind == PRODUCTION_OUTPUT || kind == NO_PRODUCTION then 2
    else if kind == NEW_SHIPMENTS || kind == ARRIVALS || kind == NO_TRADE then 3
    else if kind == PRICE_UPDATE || kind == NO_PRICES then 4
    else if kind == FACTIONS_STEP then 5
    else 6
  }

  /** The stage of each kind an entry can have. */
  lemma Ranks()
    ensures Rank(CONSUMPTION_IMPACT) == 1 && Rank(NO_CONSUMPTION) == 1
    ensures Rank(PRODUCTION_OUTPUT) == 2 && Rank(NO_PRODUCTION) == 2
    ensures Rank(NEW_SHIPMENTS) == 3 && Rank(ARRIVALS) == 3 && Rank(NO_TRADE) == 3
    ensures Rank(PRICE_UPDATE) == 4 && Rank(NO_PRICES) == 4
    ensures Rank(FACTIONS_STEP) == 5 && Rank(EVENT_TRIGGERED) == 6 && Rank(EVENTS_ROLL) == 6
  {
  }

  /** Every entry was logged at `tick`. */
  predicate AllAt(es: seq<AuditEntry>, tick: int) {
    forall i :: 0 <= i < |es| ==> es[i].tick == tick
  }

  /** Every entry belongs to stage n. */
  predicate AllRank(es: seq<AuditEntry>, n: nat) {
    forall i :: 0 <= i < |es| ==> Rank(es[i].kind) == n
  }

  /** No entry of a later stage comes before an entry of an earlier one. */
  predicate Ordered(es: seq<AuditEntry>) {
    forall i, j :: 0 <= i < j < |es| ==> Rank(es[i].kind) <= Rank(es[j].kind)
  }

  /** An entry of this kind and, when a world is given, of that world. */
  predicate Counted(e: AuditEntry, kind: string, wid: Option<WorldId>) {
    e.kind == kind && (wid.None? || e.worldId == wid)
  }

  function Count(es: seq<AuditEntry>, kind: string, wid: Option<WorldId>): nat
    decreases |es|
  {
    if es == [] then 0
    else Count(es[..|es| - 1], kind, wid) + (if Counted(es[|es| - 1], kind, wid) then 1 else 0)
  }

  lemma {:induction false} CountConcat(a: seq<AuditEntry>, b: seq<AuditEntry>, kind: string, wid: Option<WorldId>)
    ensures Count(a + b, kind, wid) == Count(a, kind, wid) + Count(b, kind, wid)
    decreases |b|
  {
    if b != [] {
      assert (a + b)[..|a + b| - 1] == a + b[..|b| - 1];
      CountConcat(a, b[..|b| - 1], kind, wid);
    } else {
      assert a + b == a;
    }
  }

  /** A sequence with no counted entry counts zero. */
  lemma {:induction false} CountNone(es: seq<AuditEntry>, kind: string, wid: Option<WorldId>)
    requires forall i :: 0 <= i < |es| ==> !Counted(es[i], kind, wid)
    ensures Count(es, kind, wid) == 0
    decreases |es|
  {
    if es != [] {
      CountNone(es[..|es| - 1], kind, wid);
    }
  }

  /** A sequence of entries all of one kind counts its length. */
  lemma {:induction false} CountEvery(es: seq<AuditEntry>, kind: string)
    requires forall i :: 0 <= i < |es| ==> es[i].kind == kind
    ensures Count(es, kind, None) == |es|
    decreases |es|
  {
    if es != [] {
      CountEvery(es[..|es| - 1], kind);
    }
  }

  /** An entry kind of another stage does not occur among a stage's entries. */
  lemma CountOtherStage(es: seq<AuditEntry>, n: nat, kind: string, wid: Option<WorldId>)
    requires AllRank(es, n) && Rank(kind) != n
    ensures Count(es, kind, wid) == 0
  {
    CountNone(es, kind, wid);
  }

  // ----- the stages that visit every world -----

  /** The three stages that visit the worlds in order, with the registry each reads. */
  datatype Stage = Consumption | Production(recipes: Dict<RecipeId, Recipe>) | Prices(commodities: Dict<CommodityId, Commodity>)

  function StageRank(s: Stage): nat {
    match s
    case Consumption => 1
    case Production(_) => 2
    case Prices(_) => 4
  }

  /** The kind of the entry a stage logs for a world it has nothing to do for. */
  function NoOpKind(s: Stage): string {
    match s
    case Consumption => NO_CONSUMPTION
    case Production(_) => NO_PRODUCTION
    case Prices(_) => NO_PRICES
  }

  /** The world lacks a component the stage needs. */
  predicate Lacks(s: Stage, w: WorldV) {
    match s
    case Consumption => w.population.None? || w.market.None?
    case Production(_) => w.industry.None? || w.market.None?
    case Prices(_) => w.market.None?
  }

  /** The mappings the stage walks list each key once. */
  predicate Ready(s: Stage, w: WorldV) {
    match s
    case Consumption => w.population.Some? ==> w.population.value.needs.Valid()
    case Production(reg) => RecipesValid(reg) && (w.industry.Some? ==> w.industry.value.caps.Valid())
    case Prices(reg) => reg.Valid() && (w.market.Some? ==> w.market.value.prices.Valid())
  }

  /** What the economic stages never change about a world. */
  predicate WorldKept(x: WorldV, y: WorldV) {
    y.id == x.id && y.population == x.population && y.industry == x.industry && y.factions == x.factions &&
    (x.market.Some? <==> y.market.Some?) &&
    (x.market.Some? && x.market.value.prices.Valid() ==> y.market.value.prices.Valid())
  }

  predicate Kept(a: Worlds, b: Worlds) {
    b.keys == a.keys && b.vals.Keys == a.vals.Keys &&
    forall k :: k in a.vals ==> WorldKept(a.vals[k], b.vals[k])
  }

  lemma KeptReady(a: Worlds, b: Worlds, keys: seq<WorldId>, s: Stage)
    requires Kept(a, b) && forall k :: k in keys ==> k in a.vals && Ready(s, a.vals[k])
    ensures forall k :: k in keys ==> k in b.vals && Ready(s, b.vals[k]) && Lacks(s, b.vals[k]) == Lacks(s, a.vals[k])
  {
  }

  /** One more world of a stage keeps what the stage promises. */
  lemma StagedStep(s: Stage, ws: Worlds, pre: Staged, k: WorldId, w: WorldV, es: seq<AuditEntry>, tick: int)
    requires Kept(ws, pre.worlds) && k in pre.worlds.vals && WorldKept(pre.worlds.vals[k], w)
    requires AllAt(pre.entries, tick) && AllRank(pre.entries, StageRank(s)) && AllAt(es, tick) && AllRank(es, StageRank(s))
    ensures Kept(ws, pre.worlds.Put(k, w))
    ensures AllAt(pre.entries + es, tick) && AllRank(pre.entries + es, StageRank(s))
  {
    var all := pre.entries + es;
    forall i | 0 <= i < |all| ensures all[i].tick == tick && Rank(all[i].kind) == StageRank(s) {
      if i < |pre.entries| { assert all[i] == pre.entries[i]; } else { assert all[i] == es[i - |pre.entries|]; }
    }
  }

  /** The consistency the faction and event stages rely on survives the economic stages. */
  lemma KeptConsistent(a: Worlds, b: Worlds, lanes: Dict<LaneId, LaneV>, pos: nat, adj: Adjacency)
    requires Kept(a, b) && FactionIntegrate.Consistent(Sim(a, lanes, pos), adj)
    ensures FactionIntegrate.Consistent(Sim(b, lanes, pos), adj)
  {
    assert forall k :: k in b.vals ==> b.vals[k].id == a.vals[k].id && b.vals[k].factions == a.vals[k].factions;
  }

  /** process_trade changes only stocks, so it keeps what the economic stages keep. */
  lemma SameWorldsKept(a: Worlds, b: Worlds)
    requires EconTrade.SameWorlds(a, b)
    ensures Kept(a, b)
  {
    forall k | k in a.vals ensures WorldKept(a.vals[k], b.vals[k]) {
      assert b.vals[k] == a.vals[k].(market := b.vals[k].market);
    }
  }

  /** update_prices leaves a well-formed price dictionary well formed. */
  lemma UpdatedPricesValid(w: WorldV, reg: Dict<CommodityId, Commodity>)
    requires reg.Valid() && w.market.Some? && w.market.value.prices.Valid()
    requires EconMarket.UpdatedPrices(w, reg).Ok?
    ensures EconMarket.UpdatedPrices(w, reg).value.market.value.prices.Valid()
  {
    var m1 := EconMarket.SeededMarket(w.market.value, reg);
    assert m1.prices.Valid();
    EconMarket.RepricedOk(m1, m1.targets.keys, reg, EconMarket.MarketLaw(m1.factor, m1.minMult, m1.maxMult));
  }

  /** The details of a consumption impact entry. */
  function ImpactDetails(w: WorldV, w': WorldV): Dict<string, Value> {
    Dict(["old_stability", "new_stability", "old_unrest", "new_unrest"],
         map["old_stability" := Float(w.stability), "new_stability" := Float(w'.stability),
             "old_unrest" := Float(w.unrest), "new_unrest" := Float(w'.unrest)])
  }

  function NoConsumption(w: WorldV, tick: int): AuditEntry {
    Note(NO_CONSUMPTION, tick, Some(w.id), "No population or market, no consumption.")
  }

  /** The consumption stage on one world: consume when it has a population and
      a market, logging an impact entry exactly when stability or unrest moved;
      otherwise one no-op entry. */
  function ConsumptionAt(w: WorldV, tick: int): (r: Result<(WorldV, seq<AuditEntry>)>)
    requires Ready(Consumption, w)
    ensures r.Ok? <==> EconConsumption.ConsumedWorld(w).Ok?
    ensures r.Ok? ==> r.value.0 == EconConsumption.ConsumedWorld(w).value
    ensures r.Ok? && Lacks(Consumption, w) ==> r.value.1 == [NoConsumption(w, tick)]
    ensures r.Ok? && !Lacks(Consumption, w) ==>
      (r.value.1 != [] <==> r.value.0.stability != w.stability || r.value.0.unrest != w.unrest) &&
      (r.value.1 != [] ==> r.value.1 == [Entry(CONSUMPTION_IMPACT, tick, Some(w.id), None, 0.0, None, Some(ImpactDetails(w, r.value.0)))])
  {
    if w.population.Some? && w.market.Some? then
      var w' :- EconConsumption.ConsumedWorld(w);
      if w'.stability != w.stability || w'.unrest != w.unrest then
        Ok((w', [Entry(CONSUMPTION_IMPACT, tick, Some(w.id), None, 0.0, None, Some(ImpactDetails(w, w')))]))
      else Ok((w', []))
    else Ok((w, [NoConsumption(w, tick)]))
  }

  /** Some commodity's amount differs, counting a missing one as 0. */
  predicate InventoryChanged(q0: Stock, q1: Stock) {
    exists c :: c in q0.Keys + q1.Keys && Amount(q1, c, 0.0) != Amount(q0, c, 0.0)
  }

  /** The non-zero `final.get(c, 0) - initial.get(c, 0)` over the union of both inventories' keys. */
  function Changes(q0: Stock, q1: Stock): map<CommodityId, real> {
    map c | c in q0.Keys + q1.Keys && Amount(q1, c, 0.0) != Amount(q0, c, 0.0) :: Amount(q1, c, 0.0) - Amount(q0, c, 0.0)
  }

  /** A mapping of changes as a document object, its keys in lexicographic order. */
  function ChangesObj(ch: map<CommodityId, real>): Dict<string, Value> {
    Dict(SortedKeys(ch.Keys), map c | c in ch :: Float(ch[c]))
  }

  lemma ChangesObjFacts(ch: map<CommodityId, real>)
    ensures ChangesObj(ch).Valid() && ChangesObj(ch).vals.Keys == ch.Keys
    ensures forall c :: c in ch ==> ChangesObj(ch).vals[c] == Float(ch[c])
    ensures ChangesObj(ch).keys == [] <==> ch == map[]
  {
    if ch != map[] { var c :| c in ch; assert c in SortedKeys(ch.Keys); }
  }

  /** The details of a production output entry, {"changes": produced_items}. */
  function OutputDetails(q0: Stock, q1: Stock): Dict<string, Value> {
    Dict(["changes"], map["changes" := Obj(ChangesObj(Changes(q0, q1)))])
  }

  /** The "changes" mapping lists each commodity whose amount moved exactly
      once, with its signed change, and nothing else; it is non-empty exactly
      when the inventory changed. */
  lemma OutputDetailsFacts(q0: Stock, q1: Stock)
    ensures var d := OutputDetails(q0, q1).vals["changes"].fields;
      d.Valid() &&
      (forall c :: c in d.vals <==> c in q0.Keys + q1.Keys && Amount(q1, c, 0.0) != Amount(q0, c, 0.0)) &&
      (forall c :: c in d.vals ==> d.vals[c] == Float(Amount(q1, c, 0.0) - Amount(q0, c, 0.0))) &&
      (d.keys != [] <==> InventoryChanged(q0, q1))
  {
    var ch := Changes(q0, q1);
    ChangesFacts(q0, q1);
    ChangesObjFacts(ch);
    assert OutputDetails(q0, q1).vals["changes"].fields == ChangesObj(ch);
  }

  lemma ChangesFacts(q0: Stock, q1: Stock)
    ensures forall c :: c in Changes(q0, q1) <==> c in q0.Keys + q1.Keys && Amount(q1, c, 0.0) != Amount(q0, c, 0.0)
    ensures forall c :: c in Changes(q0, q1) ==> Changes(q0, q1)[c] == Amount(q1, c, 0.0) - Amount(q0, c, 0.0)
    ensures Changes(q0, q1) != map[] <==> InventoryChanged(q0, q1)
  {
    if InventoryChanged(q0, q1) {
      var c :| c in q0.Keys + q1.Keys && Amount(q1, c, 0.0) != Amount(q0, c, 0.0);
      assert c in Changes(q0, q1);
    }
  }

  function NoProduction(w: WorldV, tick: int): AuditEntry {
    Note(NO_PRODUCTION, tick, Some(w.id), "No industry or market, no production.")
  }

  /** The production stage on one world: produce when it has an industry and a
      market, logging an output entry exactly when the inventory changed;
      otherwise one no-op entry. */
  function ProductionAt(w: WorldV, reg: Dict<RecipeId, Recipe>, tick: int): (r: Result<(WorldV, seq<AuditEntry>)>)
    requires Ready(Production(reg), w)
    ensures r.Ok? <==> EconProduction.ProducedWorld(w, reg).Ok?
    ensures r.Ok? ==> r.value.0 == EconProduction.ProducedWorld(w, reg).value
    ensures r.Ok? && Lacks(Production(reg), w) ==> r.value.1 == [NoProduction(w, tick)]
    ensures r.Ok? && !Lacks(Production(reg), w) ==>
      (r.value.1 != [] <==> InventoryChanged(w.market.value.stock, r.value.0.market.value.stock)) &&
      (r.value.1 != [] ==> r.value.1 == [Entry(PRODUCTION_OUTPUT, tick, Some(w.id), None, 0.0, None,
                                             Some(OutputDetails(w.market.value.stock, r.value.0.market.value.stock)))])
  {
    if w.industry.Some? && w.market.Some? then
      var w' :- EconProduction.ProducedWorld(w, reg);
      if InventoryChanged(w.market.value.stock, w'.market.value.stock) then
        Ok((w', [Entry(PRODUCTION_OUTPUT, tick, Some(w.id), None, 0.0, None,
                       Some(OutputDetails(w.market.value.stock, w'.market.value.stock)))]))
      else Ok((w', []))
    else Ok((w, [NoProduction(w, tick)]))
  }

  function PriceEntry(wid: WorldId, tick: int, c: CommodityId, before: real, after: real): AuditEntry {
    Entry(PRICE_UPDATE, tick, Some(wid), None, after - before, None,
          Some(Dict(["commodity_id", "old_price", "new_price"],
                    map["commodity_id" := Str(c), "old_price" := Float(before), "new_price" := Float(after)])))
  }

  /** The logging loop over the new prices: the old price defaults to the base
      price, which is looked up (and must be registered) for every commodity. */
  function PriceEntries(initial: Dict<CommodityId, real>, prices: map<CommodityId, real>, keys: seq<CommodityId>,
                        reg: Dict<CommodityId, Commodity>, wid: WorldId, tick: int): (r: Result<seq<AuditEntry>>)
    requires forall c :: c in keys ==> c in prices
    ensures r.Ok? <==> forall c :: c in keys ==> c in reg.vals
    ensures r.Ok? ==> forall i :: 0 <= i < |r.value| ==>
      r.value[i].kind == PRICE_UPDATE && r.value[i].tick == tick && r.value[i].worldId == Some(wid)
    decreases |keys|
  {
    if keys == [] then Ok([])
    else
      var pre := PriceEntries(initial, prices, keys[..|keys| - 1], reg, wid, tick);
      var c := keys[|keys| - 1];
      assert forall k :: k in keys <==> k in keys[..|keys| - 1] || k == c;
      if pre.Fail? then Fail(pre.error)
      else if c !in reg.vals then Fail(UnknownCommodity(c))
      else
        var before := initial.Get(c, reg.vals[c].basePrice);
        Ok(pre.value + (if before != prices[c] then [PriceEntry(wid, tick, c, before, prices[c])] else []))
  }

  /** The entry names commodity c. */
  predicate Names(e: AuditEntry, c: CommodityId) {
    "commodity_id" in e.details.vals && e.details.vals["commodity_id"] == Str(c)
  }

  lemma PriceEntryNames(wid: WorldId, tick: int, c: CommodityId, before: real, after: real)
    ensures Names(PriceEntry(wid, tick, c, before, after), c)
  {
  }

  /** An entry is logged for a commodity exactly when its price moved. */
  lemma {:induction false} PriceEntriesMoved(initial: Dict<CommodityId, real>, prices: map<CommodityId, real>,
                                             keys: seq<CommodityId>, reg: Dict<CommodityId, Commodity>, wid: WorldId,
                                             tick: int, c: CommodityId)
    requires forall k :: k in keys ==> k in prices
    requires Distinct(keys) && c in keys
    requires PriceEntries(initial, prices, keys, reg, wid, tick).Ok?
    ensures var before := initial.Get(c, reg.vals[c].basePrice);
      PriceEntry(wid, tick, c, before, prices[c]) in PriceEntries(initial, prices, keys, reg, wid, tick).value <==>
      before != prices[c]
    decreases |keys|
  {
    var pre := keys[..|keys| - 1];
    var last := keys[|keys| - 1];
    var before := initial.Get(c, reg.vals[c].basePrice);
    var e := PriceEntry(wid, tick, c, before, prices[c]);
    assert forall k :: k in keys <==> k in pre || k == last;
    PriceEntryNames(wid, tick, c, before, prices[c]);
    if c == last {
      assert c !in pre;
      PriceEntriesAbsent(initial, prices, pre, reg, wid, tick, c);
    } else {
      assert c in pre && Distinct(pre);
      PriceEntriesMoved(initial, prices, pre, reg, wid, tick, c);
      var b := initial.Get(last, reg.vals[last].basePrice);
      PriceEntryNames(wid, tick, last, b, prices[last]);
    }
  }

  /** No entry names a commodity that is not among the keys. */
  lemma {:induction false} PriceEntriesAbsent(initial: Dict<CommodityId, real>, prices: map<CommodityId, real>,
                                              keys: seq<CommodityId>, reg: Dict<CommodityId, Commodity>, wid: WorldId,
                                              tick: int, c: CommodityId)
    requires forall k :: k in keys ==> k in prices
    requires c !in keys && PriceEntries(initial, prices, keys, reg, wid, tick).Ok?
    ensures forall e :: e in PriceEntries(initial, prices, keys, reg, wid, tick).value ==> !Names(e, c)
    decreases |keys|
  {
    if keys != [] {
      var last := keys[|keys| - 1];
      assert c !in keys[..|keys| - 1];
      PriceEntriesAbsent(initial, prices, keys[..|keys| - 1], reg, wid, tick, c);
      var b := initial.Get(last, reg.vals[last].basePrice);
      PriceEntryNames(wid, tick, last, b, prices[last]);
    }
  }

  function NoPrices(w: WorldV, tick: int): AuditEntry {
    Note(NO_PRICES, tick, Some(w.id), "No market in world, no price update.")
  }

  /** The price stage on one world: update the prices of a world with a market
      and log each price that moved; otherwise one no-op entry. */
  function PricesAt(w: WorldV, reg: Dict<CommodityId, Commodity>, tick: int): (r: Result<(WorldV, seq<AuditEntry>)>)
    requires Ready(Prices(reg), w)
    ensures r.Ok? ==> EconMarket.UpdatedPrices(w, reg).Ok? && r.value.0 == EconMarket.UpdatedPrices(w, reg).value
    ensures Lacks(Prices(reg), w) ==> r == Ok((w, [NoPrices(w, tick)]))
    ensures !Lacks(Prices(reg), w) && EconMarket.UpdatedPrices(w, reg).Ok? ==>
      (var m := EconMarket.UpdatedPrices(w, reg).value.market.value;
       m.prices.Valid() &&
       (r.Ok? <==> forall c :: c in m.prices.keys ==> c in reg.vals) &&
       (r.Ok? ==> r.value.1 == PriceEntries(w.market.value.prices, m.prices.vals, m.prices.keys, reg, w.id, tick).value))
  {
    if w.market.Some? then
      var w' :- EconMarket.UpdatedPrices(w, reg);
      UpdatedPricesValid(w, reg);
      var m := w'.market.value;
      var es :- PriceEntries(w.market.value.prices, m.prices.vals, m.prices.keys, reg, w.id, tick);
      Ok((w', es))
    else Ok((w, [NoPrices(w, tick)]))
  }

  /** What every stage does to one world: it keeps what Kept keeps, logs only
      entries of its own stage about that world at `tick`, and logs exactly one
      no-op entry when the world lacks the stage's component. */
  predicate StageAt(s: Stage, w: WorldV, tick: int, out: (WorldV, seq<AuditEntry>)) {
    WorldKept(w, out.0) && AllAt(out.1, tick) && AllRank(out.1, StageRank(s)) &&
    (forall i :: 0 <= i < |out.1| ==> out.1[i].worldId == Some(w.id)) &&
    Count(out.1, NoOpKind(s), Some(w.id)) == if Lacks(s, w) then 1 else 0
  }

  lemma NoteCounts(e: AuditEntry)
    ensures Count([e], e.kind, e.worldId) == 1
  {
    assert [e][..0] == [];
  }

  lemma ConsumptionAtFacts(w: WorldV, tick: int)
    requires Ready(Consumption, w) && ConsumptionAt(w, tick).Ok?
    ensures StageAt(Consumption, w, tick, ConsumptionAt(w, tick).value)
  {
    var out := ConsumptionAt(w, tick).value;
    if Lacks(Consumption, w) {
      NoteCounts(NoConsumption(w, tick));
    } else {
      CountNone(out.1, NO_CONSUMPTION, Some(w.id));
    }
  }

  lemma ProductionAtFacts(w: WorldV, reg: Dict<RecipeId, Recipe>, tick: int)
    requires Ready(Production(reg), w) && ProductionAt(w, reg, tick).Ok?
    ensures StageAt(Production(reg), w, tick, ProductionAt(w, reg, tick).value)
  {
    var out := ProductionAt(w, reg, tick).value;
    if Lacks(Production(reg), w) {
      NoteCounts(NoProduction(w, tick));
    } else {
      CountNone(out.1, NO_PRODUCTION, Some(w.id));
    }
  }

  lemma PricesAtFacts(w: WorldV, reg: Dict<CommodityId, Commodity>, tick: int)
    requires Ready(Prices(reg), w) && PricesAt(w, reg, tick).Ok?
    ensures StageAt(Prices(reg), w, tick, PricesAt(w, reg, tick).value)
  {
    var out := PricesAt(w, reg, tick).value;
    if Lacks(Prices(reg), w) {
      NoteCounts(NoPrices(w, tick));
    } else {
      UpdatedPricesValid(w, reg);
      var w' := EconMarket.UpdatedPrices(w, reg).value;
      var m := w'.market.value;
      assert out.0 == w';
      assert out.1 == PriceEntries(w.market.value.prices, m.prices.vals, m.prices.keys, reg, w.id, tick).value;
      assert forall i :: 0 <= i < |out.1| ==> out.1[i].kind == PRICE_UPDATE && out.1[i].tick == tick && out.1[i].worldId == Some(w.id);
      CountNone(out.1, NO_PRICES, Some(w.id));
      Ranks();
    }
  }

  /** A stage on one world. */
  function AtWorld(s: Stage, w: WorldV, tick: int): (r: Result<(WorldV, seq<AuditEntry>)>)
    requires Ready(s, w)
    ensures r.Ok? ==> StageAt(s, w, tick, r.value)
  {
    match s
    case Consumption =>
      var r := ConsumptionAt(w, tick);
      if r.Ok? then ConsumptionAtFacts(w, tick); r else r
    case Production(reg) =>
      var r := ProductionAt(w, reg, tick);
      if r.Ok? then ProductionAtFacts(w, reg, tick); r else r
    case Prices(reg) =>
      var r := PricesAt(w, reg, tick);
      if r.Ok? then PricesAtFacts(w, reg, tick); r else r
  }

  datatype Staged = Staged(worlds: Worlds, entries: seq<AuditEntry>)

  /** `for world in state.worlds.values()`: the stage on each world in order,
      each entry list appended to the log. */
  function WorldStage(s: Stage, ws: Worlds, keys: seq<WorldId>, tick: int): (r: Result<Staged>)
    requires forall k :: k in keys ==> k in ws.vals && Ready(s, ws.vals[k])
    ensures r.Ok? ==> Kept(ws, r.value.worlds) && AllAt(r.value.entries, tick) && AllRank(r.value.entries, StageRank(s))
    decreases |keys|
  {
    if keys == [] then Ok(Staged(ws, []))
    else
      var pre :- WorldStage(s, ws, keys[..|keys| - 1], tick);
      var k := keys[|keys| - 1];
      KeptReady(ws, pre.worlds, keys, s);
      var done :- AtWorld(s, pre.worlds.vals[k], tick);
      StagedStep(s, ws, pre, k, done.0, done.1, tick);
      Ok(Staged(pre.worlds.Put(k, done.0), pre.entries + done.1))
  }

  lemma WorldStageNext(s: Stage, ws: Worlds, keys: seq<WorldId>, tick: int, i: nat)
    requires forall k :: k in keys ==> k in ws.vals && Ready(s, ws.vals[k])
    requires i < |keys| && WorldStage(s, ws, keys[..i], tick).Ok?
    ensures var pre := WorldStage(s, ws, keys[..i], tick).value;
      keys[i] in pre.worlds.vals && Ready(s, pre.worlds.vals[keys[i]]) &&
      WorldStage(s, ws, keys[..i + 1], tick) ==
        (var done :- AtWorld(s, pre.worlds.vals[keys[i]], tick);
         Ok(Staged(pre.worlds.Put(keys[i], done.0), pre.entries + done.1)))
  {
    assert keys[..i + 1][..i] == keys[..i];
    KeptReady(ws, WorldStage(s, ws, keys[..i], tick).value.worlds, keys, s);
  }

  lemma {:induction false} WorldStageStopped(s: Stage, ws: Worlds, keys: seq<WorldId>, tick: int, j: nat)
    requires forall k :: k in keys ==> k in ws.vals && Ready(s, ws.vals[k])
    requires j <= |keys| && WorldStage(s, ws, keys[..j], tick).Fail?
    ensures WorldStage(s, ws, keys, tick) == WorldStage(s, ws, keys[..j], tick)
    decreases |keys| - j
  {
    if j < |keys| {
      assert keys[..j + 1][..j] == keys[..j];
      WorldStageStopped(s, ws, keys, tick, j + 1);
    } else {
      assert keys[..j] == keys;
    }
  }

  /** Each world that lacks the stage's component gets exactly one no-op entry,
      and every other world none. */
  lemma {:induction false} WorldStageNoOps(s: Stage, ws: Worlds, keys: seq<WorldId>, tick: int, k: WorldId)
    requires forall k :: k in keys ==> k in ws.vals && Ready(s, ws.vals[k])
    requires Distinct(keys) && forall k :: k in keys ==> ws.vals[k].id == k
    requires WorldStage(s, ws, keys, tick).Ok?
    ensures Count(WorldStage(s, ws, keys, tick).value.entries, NoOpKind(s), Some(k)) ==
      if k in keys && Lacks(s, ws.vals[k]) then 1 else 0
    decreases |keys|
  {
    if keys != [] {
      var n := |keys| - 1;
      var p, done := WorldStageLast(s, ws, keys, tick);
      WorldStageNoOps(s, ws, keys[..n], tick, k);
      NoOpsStep(s, ws, keys, tick, k, p, done);
    }
  }

  /** A successful stage over keys is the stage over all but the last key, p,
      then the last world, done. */
  lemma WorldStageLast(s: Stage, ws: Worlds, keys: seq<WorldId>, tick: int) returns (p: Staged, done: (WorldV, seq<AuditEntry>))
    requires forall k :: k in keys ==> k in ws.vals && Ready(s, ws.vals[k])
    requires forall k :: k in keys ==> ws.vals[k].id == k
    requires keys != [] && WorldStage(s, ws, keys, tick).Ok?
    ensures forall k :: k in keys[..|keys| - 1] ==> k in ws.vals && Ready(s, ws.vals[k])
    ensures WorldStage(s, ws, keys[..|keys| - 1], tick) == Ok(p)
    ensures keys[|keys| - 1] in p.worlds.vals && Ready(s, p.worlds.vals[keys[|keys| - 1]])
    ensures AtWorld(s, p.worlds.vals[keys[|keys| - 1]], tick) == Ok(done)
    ensures var w := p.worlds.vals[keys[|keys| - 1]];
      w.id == keys[|keys| - 1] && Lacks(s, w) == Lacks(s, ws.vals[keys[|keys| - 1]]) && StageAt(s, w, tick, done)
    ensures WorldStage(s, ws, keys, tick).value.entries == p.entries + done.1
  {
    var n := |keys| - 1;
    p := WorldStage(s, ws, keys[..n], tick).value;
    KeptReady(ws, p.worlds, keys, s);
    done := AtWorld(s, p.worlds.vals[keys[n]], tick).value;
  }

  /** The step of WorldStageNoOps, for the prefix result p and the last world's outcome. */
  lemma NoOpsStep(s: Stage, ws: Worlds, keys: seq<WorldId>, tick: int, k: WorldId, p: Staged, done: (WorldV, seq<AuditEntry>))
    requires keys != [] && Distinct(keys) && forall k :: k in keys ==> k in ws.vals && ws.vals[k].id == k
    requires var last := keys[|keys| - 1];
      last in p.worlds.vals && p.worlds.vals[last].id == last &&
      Lacks(s, p.worlds.vals[last]) == Lacks(s, ws.vals[last]) &&
      StageAt(s, p.worlds.vals[last], tick, done)
    requires Count(p.entries, NoOpKind(s), Some(k)) == if k in keys[..|keys| - 1] && Lacks(s, ws.vals[k]) then 1 else 0
    ensures Count(p.entries + done.1, NoOpKind(s), Some(k)) == if k in keys && Lacks(s, ws.vals[k]) then 1 else 0
  {
    var n := |keys| - 1;
    assert keys[..n + 1] == keys;
    assert keys[n] !in keys[..n];
    StageAtCount(s, p.worlds.vals[keys[n]], tick, done, k);
    CountConcat(p.entries, done.1, NoOpKind(s), Some(k));
    assert k in keys <==> k in keys[..n] || k == keys[n];
  }

  /** The no-op entries one world's stage logs about world k. */
  lemma StageAtCount(s: Stage, w: WorldV, tick: int, out: (WorldV, seq<AuditEntry>), k: WorldId)
    requires StageAt(s, w, tick, out)
    ensures Count(out.1, NoOpKind(s), Some(k)) == if k == w.id && Lacks(s, w) then 1 else 0
  {
    if k != w.id {
      CountNone(out.1, NoOpKind(s), Some(k));
    }
  }

  // ----- trade -----

  function ShipmentIds(ss: seq<Shipment>): seq<Value> {
    seq(|ss|, i requires 0 <= i < |ss| => Str(ss[i].commodity))
  }

  function ArrivalItems(ss: seq<Shipment>): seq<Value> {
    seq(|ss|, i requires 0 <= i < |ss| =>
      Obj(Dict([ss[i].commodity], map[ss[i].commodity := Float(ss[i].quantity)])))
  }

  /** The entries after process_trade: the en-route list whenever a shipment is
      active, then the arrivals, or a no-trade entry when nothing arrived. */
  function TradeEntries(active: seq<Shipment>, arrived: seq<Shipment>, tick: int): (es: seq<AuditEntry>)
    ensures AllAt(es, tick) && AllRank(es, 3)
  {
    Ranks();
    EnRoute(active, tick) + Arrived(arrived, tick)
  }

  function EnRoute(active: seq<Shipment>, tick: int): seq<AuditEntry> {
    if active != [] then
      [Entry(NEW_SHIPMENTS, tick, None, None, 0.0, None, Some(Dict(["shipments"], map["shipments" := List(ShipmentIds(active))])))]
    else []
  }

  function Arrived(arrived: seq<Shipment>, tick: int): seq<AuditEntry> {
    if arrived != [] then
      [Entry(ARRIVALS, tick, None, None, 0.0, None, Some(Dict(["arrivals"], map["arrivals" := List(ArrivalItems(arrived))])))]
    else [Note(NO_TRADE, tick, None, "No active trade or arrivals.")]
  }

  /** One en-route entry exactly when a shipment is active; one arrivals entry
      exactly when something arrived, and a no-trade entry exactly when nothing did. */
  lemma TradeCounted(active: seq<Shipment>, arrived: seq<Shipment>, tick: int)
    ensures var es := TradeEntries(active, arrived, tick);
      Count(es, NEW_SHIPMENTS, None) == (if active != [] then 1 else 0) &&
      Count(es, ARRIVALS, None) == (if arrived != [] then 1 else 0) &&
      Count(es, NO_TRADE, None) == (if arrived == [] then 1 else 0)
  {
    TradeKinds();
    TradeCounts(EnRoute(active, tick), Arrived(arrived, tick), tick);
  }

  lemma TradeKinds()
    ensures NEW_SHIPMENTS != ARRIVALS && NEW_SHIPMENTS != NO_TRADE && ARRIVALS != NO_TRADE
  {
  }

  /** The trade counts of an en-route part of at most one entry and an arrivals part of one. */
  lemma TradeCounts(en: seq<AuditEntry>, done: seq<AuditEntry>, tick: int)
    requires |en| <= 1 && |done| == 1
    ensures forall kind: string :: (Count(en + done, kind, None) ==
      (if en != [] && en[0].kind == kind then 1 else 0) + (if done[0].kind == kind then 1 else 0))
  {
    forall kind: string ensures Count(en + done, kind, None) ==
      (if en != [] && en[0].kind == kind then 1 else 0) + (if done[0].kind == kind then 1 else 0)
    {
      CountConcat(en, done, kind, None);
      assert done[..0] == [];
      if en != [] { assert en[..0] == []; }
    }
  }

  // ----- events -----

  function EventEntry(ev: EventDef, wid: WorldId, e: Value, tick: int): AuditEntry {
    Entry(EVENT_TRIGGERED, tick, Some(wid), None, 0.0, None,
          Some(Dict(["event_id", "effect"], map["event_id" := Str(ev.id), "effect" := e])))
  }

  /** What the event stage changes, with the entries it logs. */
  datatype Round = Round(sim: Sim, entries: seq<AuditEntry>)

  /** Every entry is an event entry logged at `tick`. */
  predicate Triggers(es: seq<AuditEntry>, tick: int) {
    forall i :: 0 <= i < |es| ==> es[i].kind == EVENT_TRIGGERED && es[i].tick == tick
  }

  /** `for effect in event_def.effects`: apply the effect to the target world,
      then log it. */
  function EffectsRun(u: Sim, adj: Adjacency, draws: nat -> nat, ev: EventDef, wid: WorldId, effects: seq<Value>, tick: int)
    : (r: Result<Round>)
    requires FactionIntegrate.Consistent(u, adj) && wid in u.worlds.vals
    ensures r.Ok? ==> FactionIntegrate.Consistent(r.value.sim, adj) && EventEffects.Reshaped(u, r.value.sim)
    ensures r.Ok? ==> |r.value.entries| == |effects| && Triggers(r.value.entries, tick)
    decreases |effects|
  {
    if effects == [] then Ok(Round(u, []))
    else
      var pre :- EffectsRun(u, adj, draws, ev, wid, effects[..|effects| - 1], tick);
      var e := effects[|effects| - 1];
      var v :- EventEffects.Applied(pre.sim, adj, draws, e, wid);
      EventEffects.AppliedKeeps(pre.sim, adj, draws, e, wid);
      Ok(Round(v, pre.entries + [EventEntry(ev, wid, e, tick)]))
  }

  /** The number of effects of the picked events. */
  function EffectTotal(picks: seq<(EventDef, WorldId)>): nat {
    if picks == [] then 0 else EffectTotal(picks[..|picks| - 1]) + |picks[|picks| - 1].0.effects|
  }

  /** `for event_def, target_world_id in events_this_tick`: a target that is no
      longer a world raises KeyError. */
  function Triggered(u: Sim, adj: Adjacency, draws: nat -> nat, picks: seq<(EventDef, WorldId)>, tick: int): (r: Result<Round>)
    requires FactionIntegrate.Consistent(u, adj)
    ensures r.Ok? ==> FactionIntegrate.Consistent(r.value.sim, adj) && EventEffects.Reshaped(u, r.value.sim)
    ensures r.Ok? ==> |r.value.entries| == EffectTotal(picks) && Triggers(r.value.entries, tick)
    decreases |picks|
  {
    if picks == [] then Ok(Round(u, []))
    else
      var pre :- Triggered(u, adj, draws, picks[..|picks| - 1], tick);
      var ev := picks[|picks| - 1].0;
      var wid := picks[|picks| - 1].1;
      if wid !in pre.sim.worlds.vals then Fail(MissingKey(wid))
      else
        var done :- EffectsRun(pre.sim, adj, draws, ev, wid, ev.effects, tick);
        Ok(Round(done.sim, pre.entries + done.entries))
  }

  // ----- the whole tick -----

  /** What step reads but does not change: the generator's outputs, the
      adjacency, the registries, the factions and the kind of lane tracker. */
  datatype Context = Context(
    draws: nat -> nat,
    adj: Adjacency,
    commodities: Dict<CommodityId, Commodity>,
    recipes: Dict<RecipeId, Recipe>,
    events: Dict<EventId, EventDef>,
    factions: Dict<FactionId, Faction>,
    defaults: bool)

  /** The universe after a tick, with the shipments that arrived and the events rolled. */
  datatype After = After(
    sim: Sim,
    shipments: seq<Shipment>,
    used: Usage,
    arrived: seq<Shipment>,
    picked: seq<(EventDef, WorldId)>,
    log: seq<AuditEntry>,
    tick: int)

  /** What step needs: a consistent universe whose dictionaries list each key once. */
  predicate StepReady(c: Context, u: Sim) {
    FactionIntegrate.Consistent(u, c.adj) && u.lanes.Valid() && c.commodities.Valid() && RecipesValid(c.recipes) &&
    c.factions.Valid() && c.events.Valid() && AllReady(c, u.worlds)
  }

  function FactionsNote(tick: int): AuditEntry {
    Note(FACTIONS_STEP, tick, None, "Faction actions applied.")
  }

  function RollNote(tick: int): AuditEntry {
    Note(EVENTS_ROLL, tick, None, "No events triggered this tick.")
  }

  /** Every world of `ws` is ready for the three world stages. */
  predicate AllReady(c: Context, ws: Worlds) {
    forall k :: k in ws.vals ==>
      Ready(Consumption, ws.vals[k]) && Ready(Production(c.recipes), ws.vals[k]) && Ready(Prices(c.commodities), ws.vals[k])
  }

  lemma ReadyFor(c: Context, ws: Worlds, s: Stage)
    requires ws.Valid() && AllReady(c, ws)
    requires s == Consumption || s == Production(c.recipes) || s == Prices(c.commodities)
    ensures forall k :: k in ws.keys ==> k in ws.vals && Ready(s, ws.vals[k])
  {
  }

  lemma KeptAllReady(c: Context, a: Worlds, b: Worlds)
    requires Kept(a, b) && AllReady(c, a)
    ensures AllReady(c, b) && (a.Valid() ==> b.Valid())
  {
    assert forall k :: k in b.vals ==> k in a.vals;
  }

  lemma KeptTrans(a: Worlds, b: Worlds, d: Worlds)
    requires Kept(a, b) && Kept(b, d)
    ensures Kept(a, d)
  {
  }

  /** The economic stages one after the other: the worlds after each of them,
      the trade outcome and the entries each logged. */
  datatype Economy = Economy(consumed: Staged, produced: Staged, trade: EconTrade.TradeOutcome, traded: seq<AuditEntry>,
                             priced: Staged)

  /** Consumption, then production, over every world. */
  function Made(c: Context, ws: Worlds, tick: int): (r: Result<(Staged, Staged)>)
    requires ws.Valid() && AllReady(c, ws)
    ensures r.Ok? ==> Kept(ws, r.value.0.worlds) && Kept(ws, r.value.1.worlds)
    ensures r.Ok? ==> AllRank(r.value.0.entries, 1) && AllAt(r.value.0.entries, tick)
    ensures r.Ok? ==> AllRank(r.value.1.entries, 2) && AllAt(r.value.1.entries, tick)
  {
    ReadyFor(c, ws, Consumption);
    var cs :- WorldStage(Consumption, ws, ws.keys, tick);
    KeptAllReady(c, ws, cs.worlds);
    ReadyFor(c, cs.worlds, Production(c.recipes));
    var ps :- WorldStage(Production(c.recipes), cs.worlds, cs.worlds.keys, tick);
    KeptTrans(ws, cs.worlds, ps.worlds);
    Ok((cs, ps))
  }

  /** Trade, then the price update over every world. */
  function Marketed(c: Context, ws: Worlds, lanes: Dict<LaneId, LaneV>, active: seq<Shipment>, tick: int)
    : (r: Result<(EconTrade.TradeOutcome, Staged)>)
    requires ws.Valid() && AllReady(c, ws) && lanes.Valid() && c.commodities.Valid()
    ensures r.Ok? ==> Kept(ws, r.value.0.worlds) && Kept(ws, r.value.1.worlds)
    ensures r.Ok? ==> AllRank(r.value.1.entries, 4) && AllAt(r.value.1.entries, tick)
  {
    var t :- EconTrade.ProcessedTrade(ws, lanes, c.commodities, active, c.defaults, tick, true);
    EconTrade.ProcessedTradeSameWorlds(ws, lanes, c.commodities, active, c.defaults, tick, true);
    SameWorldsKept(ws, t.worlds);
    KeptAllReady(c, ws, t.worlds);
    ReadyFor(c, t.worlds, Prices(c.commodities));
    var qs :- WorldStage(Prices(c.commodities), t.worlds, t.worlds.keys, tick);
    KeptTrans(ws, t.worlds, qs.worlds);
    Ok((t, qs))
  }

  /** The four economic stages: consumption, production, trade and prices. */
  function Economic(c: Context, u: Sim, active: seq<Shipment>, tick: int): (r: Result<Economy>)
    requires StepReady(c, u)
    ensures r.Ok? ==> Kept(u.worlds, r.value.priced.worlds) && EconomyLogged(r.value, tick)
    ensures r.Ok? ==> r.value.traded == TradeEntries(r.value.trade.shipments, r.value.trade.arrived, tick)
  {
    var m :- Made(c, u.worlds, tick);
    KeptAllReady(c, u.worlds, m.1.worlds);
    var k :- Marketed(c, m.1.worlds, u.lanes, active, tick);
    KeptTrans(u.worlds, m.1.worlds, k.1.worlds);
    Ok(Economy(m.0, m.1, k.0, TradeEntries(k.0.shipments, k.0.arrived, tick), k.1))
  }

  /** Each economic stage logged at the tick, with entries of its own stage only. */
  predicate EconomyLogged(e: Economy, tick: int) {
    AllRank(e.consumed.entries, 1) && AllRank(e.produced.entries, 2) && AllRank(e.traded, 3) &&
    AllRank(e.priced.entries, 4) && AllAt(e.consumed.entries, tick) && AllAt(e.produced.entries, tick) &&
    AllAt(e.traded, tick) && AllAt(e.priced.entries, tick)
  }

  /** The entries of the economic stages, in stage order. */
  function EconomicLog(e: Economy): seq<AuditEntry> {
    e.consumed.entries + e.produced.entries + e.traded + e.priced.entries
  }

  lemma EconomicOrdered(a: seq<AuditEntry>, b: seq<AuditEntry>, t: seq<AuditEntry>, q: seq<AuditEntry>, tick: int)
    requires AllRank(a, 1) && AllRank(b, 2) && AllRank(t, 3) && AllRank(q, 4)
    requires AllAt(a, tick) && AllAt(b, tick) && AllAt(t, tick) && AllAt(q, tick)
    ensures Ordered(a + b + t + q) && AllAt(a + b + t + q, tick)
    ensures forall i :: 0 <= i < |a + b + t + q| ==> Rank((a + b + t + q)[i].kind) <= 4
  {
    var s := a + b + t + q;
    forall i | 0 <= i < |s| ensures Rank(s[i].kind) == StageOf(i, |a|, |b|, |t|) && s[i].tick == tick {
      if i < |a| { assert s[i] == a[i]; }
      else if i < |a| + |b| { assert s[i] == b[i - |a|]; }
      else if i < |a| + |b| + |t| { assert s[i] == t[i - |a| - |b|]; }
      else { assert s[i] == q[i - |a| - |b| - |t|]; }
    }
  }

  /** The stage number of position i in four concatenated stages. */
  function StageOf(i: int, na: int, nb: int, nt: int): nat {
    if i < na then 1 else if i < na + nb then 2 else if i < na + nb + nt then 3 else 4
  }

  /** The factions stage and the event stage: the universe after them, the
      events rolled and one entry per applied effect. */
  datatype Tail = Tail(sim: Sim, picked: seq<(EventDef, WorldId)>, entries: seq<AuditEntry>)

  /** apply_faction_actions, then generate_events with at most one event, then
      each effect of each picked event applied to its target world. */
  function Later(c: Context, v: Sim, tick: int): (r: Result<Tail>)
    requires FactionIntegrate.Consistent(v, c.adj) && c.factions.Valid() && c.events.Valid()
    ensures r.Ok? ==> Triggers(r.value.entries, tick) && |r.value.entries| == EffectTotal(r.value.picked)
    ensures r.Ok? ==> |r.value.picked| <= 1 && FactionIntegrate.Consistent(r.value.sim, c.adj)
  {
    var a :- FactionIntegrate.Acted(v, c.draws, c.factions, c.factions.keys, c.adj);
    var g :- EventGenerator.Generated(a.worlds, c.events.Values(), c.adj, a.lanes, 1, c.draws, a.pos);
    PickedAtMostOne(a.worlds, c.events.Values(), c.adj, a.lanes, c.draws, a.pos);
    var ev :- Triggered(Sim(a.worlds, a.lanes, g.pos), c.adj, c.draws, g.picked, tick);
    Ok(Tail(ev.sim, g.picked, ev.entries))
  }

  /** generate_events(state) with its default of one event per tick. */
  lemma PickedAtMostOne(worlds: Worlds, events: seq<EventDef>, adj: Adjacency, lanes: Dict<LaneId, LaneV>,
                        draws: nat -> nat, pos: nat)
    requires worlds.Valid() && AdjacencyKnown(adj, lanes)
    requires EventGenerator.Generated(worlds, events, adj, lanes, 1, draws, pos).Ok?
    ensures var g := EventGenerator.Generated(worlds, events, adj, lanes, 1, draws, pos).value;
      |g.picked| <= 1 && pos <= g.pos
  {
    EventGenerator.GeneratedFacts(worlds, events, adj, lanes, 1, draws, pos);
  }

  /** The log of a tick: the economic entries, the factions entry, then the
      effect entries or, when no event was picked, the no-event entry. */
  function TickLog(e: Economy, picked: seq<(EventDef, WorldId)>, es: seq<AuditEntry>, tick: int): seq<AuditEntry> {
    EconomicLog(e) + [FactionsNote(tick)] + EventsLog(picked, es, tick)
  }

  /** step(state) on values: the stages in their fixed order; the tick rises by one. */
  function Stepped(c: Context, u: Sim, active: seq<Shipment>, tick: int): (r: Result<After>)
    requires StepReady(c, u)
    ensures r.Ok? ==> r.value.tick == tick + 1 && |r.value.picked| <= 1 && FactionIntegrate.Consistent(r.value.sim, c.adj)
  {
    var econ :- Economic(c, u, active, tick);
    KeptConsistent(u.worlds, econ.priced.worlds, u.lanes, u.pos, c.adj);
    Finished(c, Sim(econ.priced.worlds, u.lanes, u.pos), econ, tick)
  }

  /** The stages of step(state) after the economic ones, from the simulation v they left behind. */
  function Finished(c: Context, v: Sim, econ: Economy, tick: int): (r: Result<After>)
    requires FactionIntegrate.Consistent(v, c.adj) && c.factions.Valid() && c.events.Valid()
    ensures r.Ok? ==> r.value.tick == tick + 1 && |r.value.picked| <= 1 && FactionIntegrate.Consistent(r.value.sim, c.adj)
  {
    var t :- Later(c, v, tick);
    Ok(After(t.sim, econ.trade.shipments, econ.trade.used, econ.trade.arrived, t.picked,
             TickLog(econ, t.picked, t.entries, tick), tick + 1))
  }

  /** No entry ranks above n. */
  predicate AtMost(es: seq<AuditEntry>, n: nat) {
    forall i :: 0 <= i < |es| ==> Rank(es[i].kind) <= n
  }

  /** Appending the entries of a later stage keeps the log ordered. */
  lemma OrderedAppend(a: seq<AuditEntry>, b: seq<AuditEntry>, n: nat, tick: int)
    requires Ordered(a) && AtMost(a, n) && AllRank(b, n) && AllAt(a, tick) && AllAt(b, tick)
    ensures Ordered(a + b) && AtMost(a + b, n) && AllAt(a + b, tick)
  {
    var s := a + b;
    forall i | 0 <= i < |s| ensures s[i].tick == tick && Rank(s[i].kind) <= n && (i >= |a| ==> Rank(s[i].kind) == n) {
      if i < |a| { assert s[i] == a[i]; } else { assert s[i] == b[i - |a|]; }
    }
    forall i, j | 0 <= i < j < |s| ensures Rank(s[i].kind) <= Rank(s[j].kind) {
      if j < |a| { assert s[i] == a[i] && s[j] == a[j]; }
    }
  }

  /** The entries of the event stage: one per applied effect, or the no-event entry. */
  lemma EventsRank(picked: seq<(EventDef, WorldId)>, es: seq<AuditEntry>, tick: int)
    requires Triggers(es, tick)
    ensures AllRank(EventsLog(picked, es, tick), 6) && AllAt(EventsLog(picked, es, tick), tick)
  {
    Ranks();
  }

  /** A tick's entries all carry the tick the step started at and come in stage order. */
  lemma TickLogOrdered(e: Economy, picked: seq<(EventDef, WorldId)>, es: seq<AuditEntry>, tick: int)
    requires EconomyLogged(e, tick) && Triggers(es, tick)
    ensures Ordered(TickLog(e, picked, es, tick)) && AllAt(TickLog(e, picked, es, tick), tick)
  {
    var a := EconomicLog(e);
    EconomicOrdered(e.consumed.entries, e.produced.entries, e.traded, e.priced.entries, tick);
    Ranks();
    OrderedAppend(a, [FactionsNote(tick)], 5, tick);
    EventsRank(picked, es, tick);
    OrderedAppend(a + [FactionsNote(tick)], EventsLog(picked, es, tick), 6, tick);
  }

  lemma SteppedOrdered(c: Context, u: Sim, active: seq<Shipment>, tick: int)
    requires StepReady(c, u) && Stepped(c, u, active, tick).Ok?
    ensures var r := Stepped(c, u, active, tick).value;
      r.tick == tick + 1 && AllAt(r.log, tick) && Ordered(r.log)
  {
    var econ := Economic(c, u, active, tick).value;
    KeptConsistent(u.worlds, econ.priced.worlds, u.lanes, u.pos, c.adj);
    var t := Later(c, Sim(econ.priced.worlds, u.lanes, u.pos), tick).value;
    TickLogOrdered(econ, t.picked, t.entries, tick);
  }

  // ----- what a tick logs -----

  /** The events part of a tick's log. */
  function EventsLog(picked: seq<(EventDef, WorldId)>, es: seq<AuditEntry>, tick: int): seq<AuditEntry> {
    if picked == [] then [RollNote(tick)] else es
  }

  /** A count over a tick's log is the sum of the counts over its parts. */
  lemma TickLogSplit(e: Economy, picked: seq<(EventDef, WorldId)>, es: seq<AuditEntry>, tick: int,
                     kind: string, wid: Option<WorldId>)
    ensures Count(TickLog(e, picked, es, tick), kind, wid) ==
      Count(e.consumed.entries, kind, wid) + Count(e.produced.entries, kind, wid) + Count(e.traded, kind, wid) +
      Count(e.priced.entries, kind, wid) + Count([FactionsNote(tick)], kind, wid) + Count(EventsLog(picked, es, tick), kind, wid)
  {
    var a := e.consumed.entries;
    var b := e.produced.entries;
    var t := e.traded;
    var q := e.priced.entries;
    CountConcat(a, b, kind, wid);
    CountConcat(a + b, t, kind, wid);
    CountConcat(a + b + t, q, kind, wid);
    CountConcat(a + b + t + q, [FactionsNote(tick)], kind, wid);
    CountConcat(a + b + t + q + [FactionsNote(tick)], EventsLog(picked, es, tick), kind, wid);
  }

  /** Exactly one factions entry per tick, one no-event entry when no event was
      picked, and one event entry per applied effect. */
  lemma TickLogSingles(e: Economy, picked: seq<(EventDef, WorldId)>, es: seq<AuditEntry>, tick: int)
    requires EconomyLogged(e, tick) && Triggers(es, tick) && |es| == EffectTotal(picked)
    ensures var l := TickLog(e, picked, es, tick);
      Count(l, FACTIONS_STEP, None) == 1 && Count(l, EVENTS_ROLL, None) == (if picked == [] then 1 else 0) &&
      Count(l, EVENT_TRIGGERED, None) == EffectTotal(picked)
  {
    Ranks();
    var ev := EventsLog(picked, es, tick);
    EventsRank(picked, es, tick);
    NoteCounts(FactionsNote(tick));
    TickLogSplit(e, picked, es, tick, FACTIONS_STEP, None);
    CountOtherStage(e.consumed.entries, 1, FACTIONS_STEP, None);
    CountOtherStage(e.produced.entries, 2, FACTIONS_STEP, None);
    CountOtherStage(e.traded, 3, FACTIONS_STEP, None);
    CountOtherStage(e.priced.entries, 4, FACTIONS_STEP, None);
    CountOtherStage(ev, 6, FACTIONS_STEP, None);
    assert AllRank([FactionsNote(tick)], 5);
    ElseStages(e, [FactionsNote(tick)], 5, EVENTS_ROLL);
    ElseStages(e, [FactionsNote(tick)], 5, EVENT_TRIGGERED);
    TickLogSplit(e, picked, es, tick, EVENTS_ROLL, None);
    TickLogSplit(e, picked, es, tick, EVENT_TRIGGERED, None);
    if picked == [] {
      NoteCounts(RollNote(tick));
      CountNone(ev, EVENT_TRIGGERED, None);
    } else {
      CountNone(ev, EVENTS_ROLL, None);
      CountEvery(ev, EVENT_TRIGGERED);
    }
  }

  /** A kind of the last stage does not occur before it. */
  lemma ElseStages(e: Economy, f: seq<AuditEntry>, n: nat, kind: string)
    requires AllRank(e.consumed.entries, 1) && AllRank(e.produced.entries, 2) && AllRank(e.traded, 3)
    requires AllRank(e.priced.entries, 4) && AllRank(f, n) && Rank(kind) == 6 && n != 6
    ensures Count(e.consumed.entries, kind, None) == 0 && Count(e.produced.entries, kind, None) == 0
    ensures Count(e.traded, kind, None) == 0 && Count(e.priced.entries, kind, None) == 0 && Count(f, kind, None) == 0
  {
    CountOtherStage(e.consumed.entries, 1, kind, None);
    CountOtherStage(e.produced.entries, 2, kind, None);
    CountOtherStage(e.traded, 3, kind, None);
    CountOtherStage(e.priced.entries, 4, kind, None);
    CountOtherStage(f, n, kind, None);
  }

  /** The trade entries: the en-route entry when shipments are active, the
      arrivals entry when some arrived and the no-trade entry otherwise. */
  lemma TickLogTrade(e: Economy, picked: seq<(EventDef, WorldId)>, es: seq<AuditEntry>, tick: int)
    requires EconomyLogged(e, tick) && Triggers(es, tick)
    requires e.traded == TradeEntries(e.trade.shipments, e.trade.arrived, tick)
    ensures var l := TickLog(e, picked, es, tick);
      Count(l, NEW_SHIPMENTS, None) == (if e.trade.shipments != [] then 1 else 0) &&
      Count(l, ARRIVALS, None) == (if e.trade.arrived != [] then 1 else 0) &&
      Count(l, NO_TRADE, None) == (if e.trade.arrived == [] then 1 else 0)
  {
    Ranks();
    TradeCounted(e.trade.shipments, e.trade.arrived, tick);
    TradeKindOnly(e, picked, es, tick, NEW_SHIPMENTS);
    TradeKindOnly(e, picked, es, tick, ARRIVALS);
    TradeKindOnly(e, picked, es, tick, NO_TRADE);
  }

  /** A trade kind is counted in the tick's log as in the trade entries. */
  lemma TradeKindOnly(e: Economy, picked: seq<(EventDef, WorldId)>, es: seq<AuditEntry>, tick: int, kind: string)
    requires EconomyLogged(e, tick) && Triggers(es, tick) && Rank(kind) == 3
    ensures Count(TickLog(e, picked, es, tick), kind, None) == Count(e.traded, kind, None)
  {
    Ranks();
    EventsRank(picked, es, tick);
    assert AllRank([FactionsNote(tick)], 5);
    TradeStageOnly(e, EventsLog(picked, es, tick), tick, kind);
    TickLogSplit(e, picked, es, tick, kind, None);
  }

  /** A trade kind occurs only among the trade entries. */
  lemma TradeStageOnly(e: Economy, ev: seq<AuditEntry>, tick: int, kind: string)
    requires AllRank(e.consumed.entries, 1) && AllRank(e.produced.entries, 2) && AllRank(e.priced.entries, 4)
    requires AllRank([FactionsNote(tick)], 5) && AllRank(ev, 6) && Rank(kind) == 3
    ensures Count(e.consumed.entries, kind, None) == 0 && Count(e.produced.entries, kind, None) == 0
    ensures Count(e.priced.entries, kind, None) == 0 && Count([FactionsNote(tick)], kind, None) == 0
    ensures Count(ev, kind, None) == 0
  {
    CountOtherStage(e.consumed.entries, 1, kind, None);
    CountOtherStage(e.produced.entries, 2, kind, None);
    CountOtherStage(e.priced.entries, 4, kind, None);
    CountOtherStage([FactionsNote(tick)], 5, kind, None);
    CountOtherStage(ev, 6, kind, None);
  }

  /** A world stage's no-op kind occurs only among that stage's entries. */
  lemma TickLogStage(e: Economy, picked: seq<(EventDef, WorldId)>, es: seq<AuditEntry>, tick: int, s: Stage, k: WorldId)
    requires EconomyLogged(e, tick) && Triggers(es, tick)
    ensures Count(TickLog(e, picked, es, tick), NoOpKind(s), Some(k)) ==
      Count((match s case Consumption => e.consumed case Production(_) => e.produced case Prices(_) => e.priced).entries,
            NoOpKind(s), Some(k))
  {
    Ranks();
    var kind := NoOpKind(s);
    var ev := EventsLog(picked, es, tick);
    EventsRank(picked, es, tick);
    assert AllRank([FactionsNote(tick)], 5);
    TickLogSplit(e, picked, es, tick, kind, Some(k));
    CountOtherStage(e.traded, 3, kind, Some(k));
    CountOtherStage([FactionsNote(tick)], 5, kind, Some(k));
    CountOtherStage(ev, 6, kind, Some(k));
    if !s.Consumption? { CountOtherStage(e.consumed.entries, 1, kind, Some(k)); }
    if !s.Production? { CountOtherStage(e.produced.entries, 2, kind, Some(k)); }
    if !s.Prices? { CountOtherStage(e.priced.entries, 4, kind, Some(k)); }
  }

  /** A world's components survive the stages, so whether it lacks one does too. */
  lemma KeptLacks(a: Worlds, b: Worlds, s: Stage)
    requires Kept(a, b)
    ensures forall k :: k in a.vals ==> k in b.vals && b.vals[k].id == a.vals[k].id && Lacks(s, b.vals[k]) == Lacks(s, a.vals[k])
  {
  }

  /** One no-op entry for each world that lacks what the stage needs: the stage
      walks the worlds in the order of `keys`, each listed once. */
  lemma StageNoOps(s: Stage, u: Worlds, ws: Worlds, tick: int, k: WorldId)
    requires Kept(u, ws) && u.Valid() && FactionAI.WorldIdsMatch(u)
    requires forall k :: k in ws.keys ==> k in ws.vals && Ready(s, ws.vals[k])
    requires WorldStage(s, ws, ws.keys, tick).Ok?
    ensures Count(WorldStage(s, ws, ws.keys, tick).value.entries, NoOpKind(s), Some(k)) ==
      if k in u.vals && Lacks(s, u.vals[k]) then 1 else 0
  {
    KeptLacks(u, ws, s);
    WorldStageNoOps(s, ws, ws.keys, tick, k);
  }

  /** The no-op entries of the world stages, relative to the worlds the tick started from. */
  lemma MadeNoOps(c: Context, ws: Worlds, tick: int, k: WorldId)
    requires ws.Valid() && AllReady(c, ws) && FactionAI.WorldIdsMatch(ws) && Made(c, ws, tick).Ok?
    ensures var m := Made(c, ws, tick).value;
      Count(m.0.entries, NO_CONSUMPTION, Some(k)) == (if k in ws.vals && Lacks(Consumption, ws.vals[k]) then 1 else 0) &&
      Count(m.1.entries, NO_PRODUCTION, Some(k)) == (if k in ws.vals && Lacks(Production(c.recipes), ws.vals[k]) then 1 else 0)
  {
    ReadyFor(c, ws, Consumption);
    var cs := WorldStage(Consumption, ws, ws.keys, tick).value;
    KeptAllReady(c, ws, cs.worlds);
    ReadyFor(c, cs.worlds, Production(c.recipes));
    StageNoOps(Consumption, ws, ws, tick, k);
    StageNoOps(Production(c.recipes), ws, cs.worlds, tick, k);
  }

  /** The prices stage inside Marketed runs on the worlds process_trade left. */
  lemma MarketedPrices(c: Context, ws: Worlds, lanes: Dict<LaneId, LaneV>, active: seq<Shipment>, tick: int)
    returns (t: EconTrade.TradeOutcome)
    requires ws.Valid() && AllReady(c, ws) && lanes.Valid() && c.commodities.Valid()
    requires Marketed(c, ws, lanes, active, tick).Ok?
    ensures Kept(ws, t.worlds) && forall k :: k in t.worlds.keys ==> k in t.worlds.vals && Ready(Prices(c.commodities), t.worlds.vals[k])
    ensures WorldStage(Prices(c.commodities), t.worlds, t.worlds.keys, tick).Ok?
    ensures Marketed(c, ws, lanes, active, tick).value.1 == WorldStage(Prices(c.commodities), t.worlds, t.worlds.keys, tick).value
  {
    t := EconTrade.ProcessedTrade(ws, lanes, c.commodities, active, c.defaults, tick, true).value;
    EconTrade.ProcessedTradeSameWorlds(ws, lanes, c.commodities, active, c.defaults, tick, true);
    SameWorldsKept(ws, t.worlds);
    KeptAllReady(c, ws, t.worlds);
    ReadyFor(c, t.worlds, Prices(c.commodities));
  }

  lemma MarketedNoOps(c: Context, ws: Worlds, lanes: Dict<LaneId, LaneV>, active: seq<Shipment>, tick: int, k: WorldId)
    requires ws.Valid() && AllReady(c, ws) && lanes.Valid() && c.commodities.Valid() && FactionAI.WorldIdsMatch(ws)
    requires Marketed(c, ws, lanes, active, tick).Ok?
    ensures Count(Marketed(c, ws, lanes, active, tick).value.1.entries, NO_PRICES, Some(k)) ==
      if k in ws.vals && Lacks(Prices(c.commodities), ws.vals[k]) then 1 else 0
  {
    var t := MarketedPrices(c, ws, lanes, active, tick);
    StageNoOps(Prices(c.commodities), ws, t.worlds, tick, k);
  }

  /** The no-op entries of the world stages, relative to the worlds the tick started from. */
  lemma EconomicNoOps(c: Context, u: Sim, active: seq<Shipment>, tick: int, k: WorldId)
    requires StepReady(c, u) && Economic(c, u, active, tick).Ok?
    ensures var e := Economic(c, u, active, tick).value;
      Count(e.consumed.entries, NO_CONSUMPTION, Some(k)) == (if k in u.worlds.vals && Lacks(Consumption, u.worlds.vals[k]) then 1 else 0) &&
      Count(e.produced.entries, NO_PRODUCTION, Some(k)) == (if k in u.worlds.vals && Lacks(Production(c.recipes), u.worlds.vals[k]) then 1 else 0) &&
      Count(e.priced.entries, NO_PRICES, Some(k)) == (if k in u.worlds.vals && Lacks(Prices(c.commodities), u.worlds.vals[k]) then 1 else 0)
  {
    var m := Made(c, u.worlds, tick).value;
    MadeNoOps(c, u.worlds, tick, k);
    KeptAllReady(c, u.worlds, m.1.worlds);
    KeptLacks(u.worlds, m.1.worlds, Prices(c.commodities));
    assert FactionAI.WorldIdsMatch(m.1.worlds);
    MarketedNoOps(c, m.1.worlds, u.lanes, active, tick, k);
  }

  /** The entries a tick logs once: one factions entry; the no-event entry
      exactly when no event was picked, else one entry per applied effect; the
      en-route entry exactly when shipments are active after trade; the
      arrivals entry exactly when some shipment arrived, else the no-trade entry. */
  lemma SteppedCounts(c: Context, u: Sim, active: seq<Shipment>, tick: int)
    requires StepReady(c, u) && Stepped(c, u, active, tick).Ok?
    ensures var r := Stepped(c, u, active, tick).value;
      Count(r.log, FACTIONS_STEP, None) == 1 &&
      Count(r.log, EVENTS_ROLL, None) == (if r.picked == [] then 1 else 0) &&
      Count(r.log, EVENT_TRIGGERED, None) == EffectTotal(r.picked) &&
      Count(r.log, NEW_SHIPMENTS, None) == (if r.shipments != [] then 1 else 0) &&
      Count(r.log, ARRIVALS, None) == (if r.arrived != [] then 1 else 0) &&
      Count(r.log, NO_TRADE, None) == (if r.arrived == [] then 1 else 0)
  {
    var econ := Economic(c, u, active, tick).value;
    KeptConsistent(u.worlds, econ.priced.worlds, u.lanes, u.pos, c.adj);
    var t := Later(c, Sim(econ.priced.worlds, u.lanes, u.pos), tick).value;
    TickLogSingles(econ, t.picked, t.entries, tick);
    TickLogTrade(econ, t.picked, t.entries, tick);
  }

  /** Each world of the universe the tick started from gets one no-consumption,
      one no-production and one no-price entry exactly when it lacks the
      component that stage needs, and no such entry otherwise. */
  lemma SteppedNoOps(c: Context, u: Sim, active: seq<Shipment>, tick: int, k: WorldId)
    requires StepReady(c, u) && Stepped(c, u, active, tick).Ok?
    ensures var r := Stepped(c, u, active, tick).value;
      Count(r.log, NO_CONSUMPTION, Some(k)) ==
        (if k in u.worlds.vals && (u.worlds.vals[k].population.None? || u.worlds.vals[k].market.None?) then 1 else 0) &&
      Count(r.log, NO_PRODUCTION, Some(k)) ==
        (if k in u.worlds.vals && (u.worlds.vals[k].industry.None? || u.worlds.vals[k].market.None?) then 1 else 0) &&
      Count(r.log, NO_PRICES, Some(k)) == (if k in u.worlds.vals && u.worlds.vals[k].market.None? then 1 else 0)
  {
    var econ := Economic(c, u, active, tick).value;
    KeptConsistent(u.worlds, econ.priced.worlds, u.lanes, u.pos, c.adj);
    var t := Later(c, Sim(econ.priced.worlds, u.lanes, u.pos), tick).value;
    EconomicNoOps(c, u, active, tick, k);
    TickLogStage(econ, t.picked, t.entries, tick, Consumption, k);
    TickLogStage(econ, t.picked, t.entries, tick, Production(c.recipes), k);
    TickLogStage(econ, t.picked, t.entries, tick, Prices(c.commodities), k);
  }

  // ----- the stages on the universe state -----

  lemma PriceEntriesNext(initial: Dict<CommodityId, real>, prices: map<CommodityId, real>, keys: seq<CommodityId>,
                         reg: Dict<CommodityId, Commodity>, wid: WorldId, tick: int, i: nat)
    requires forall c :: c in keys ==> c in prices
    requires i < |keys| && PriceEntries(initial, prices, keys[..i], reg, wid, tick).Ok?
    ensures var pre := PriceEntries(initial, prices, keys[..i], reg, wid, tick).value;
      var c := keys[i];
      c in prices &&
      PriceEntries(initial, prices, keys[..i + 1], reg, wid, tick) ==
        if c !in reg.vals then Fail(UnknownCommodity(c))
        else
          var before := initial.Get(c, reg.vals[c].basePrice);
          Ok(pre + (if before != prices[c] then [PriceEntry(wid, tick, c, before, prices[c])] else []))
  {
    assert keys[..i + 1][..i] == keys[..i];
  }

  lemma {:induction false} PriceEntriesStopped(initial: Dict<CommodityId, real>, prices: map<CommodityId, real>,
                                               keys: seq<CommodityId>, reg: Dict<CommodityId, Commodity>, wid: WorldId,
                                               tick: int, j: nat)
    requires forall c :: c in keys ==> c in prices
    requires j <= |keys| && PriceEntries(initial, prices, keys[..j], reg, wid, tick).Fail?
    ensures PriceEntries(initial, prices, keys, reg, wid, tick).Fail?
    decreases |keys| - j
  {
    if j < |keys| {
      assert keys[..j + 1][..j] == keys[..j];
      PriceEntriesStopped(initial, prices, keys, reg, wid, tick, j + 1);
    } else {
      assert keys[..j] == keys;
    }
  }

  /** The consumption stage's body for one world: consume(world, tick) and its entry. */
  method ConsumeAt(state: UniverseState, log: AuditLog, wid: WorldId) returns (r: Result<()>)
    requires wid in state.worlds.vals && Ready(Consumption, state.worlds.vals[wid])
    modifies state`worlds, log
    ensures var out := ConsumptionAt(old(state.worlds.vals[wid]), state.tick);
      (r.Ok? <==> out.Ok?) &&
      (r.Ok? ==> state.worlds == old(state.worlds).Put(wid, out.value.0) && log.entries == old(log.entries) + out.value.1)
  {
    var w := state.worlds.vals[wid];
    if w.population.Some? && w.market.Some? {
      var w' :- EconConsumption.ConsumedWorld(w);
      state.worlds := state.worlds.Put(wid, w');
      if w'.stability != w.stability || w'.unrest != w.unrest {
        log.AddEntry(CONSUMPTION_IMPACT, state.tick, Some(w.id), None, 0.0, None, Some(ImpactDetails(w, w')));
      }
    } else {
      assert state.worlds.vals == state.worlds.vals[wid := w];
      log.AddEntry(NO_CONSUMPTION, state.tick, Some(w.id), None, 0.0, Some("No population or market, no consumption."), None);
    }
    return Ok(());
  }

  /** The production stage's body for one world: produce(world, state) and its entry. */
  method ProduceAt(state: UniverseState, log: AuditLog, wid: WorldId) returns (r: Result<()>)
    requires wid in state.worlds.vals && Ready(Production(state.recipeRegistry.recipes), state.worlds.vals[wid])
    modifies state`worlds, log
    ensures var out := ProductionAt(old(state.worlds.vals[wid]), state.recipeRegistry.recipes, state.tick);
      (r.Ok? <==> out.Ok?) &&
      (r.Ok? ==> state.worlds == old(state.worlds).Put(wid, out.value.0) && log.entries == old(log.entries) + out.value.1)
  {
    var w := state.worlds.vals[wid];
    if w.industry.Some? && w.market.Some? {
      var w' :- EconProduction.ProducedWorld(w, state.recipeRegistry.recipes);
      state.worlds := state.worlds.Put(wid, w');
      if InventoryChanged(w.market.value.stock, w'.market.value.stock) {
        log.AddEntry(PRODUCTION_OUTPUT, state.tick, Some(w.id), None, 0.0, None,
                     Some(OutputDetails(w.market.value.stock, w'.market.value.stock)));
      }
    } else {
      assert state.worlds.vals == state.worlds.vals[wid := w];
      log.AddEntry(NO_PRODUCTION, state.tick, Some(w.id), None, 0.0, Some("No industry or market, no production."), None);
    }
    return Ok(());
  }

  /** The price stage's body for one world: update_prices(world, state), then
      an entry for each price that moved. */
  method PriceAt(state: UniverseState, log: AuditLog, wid: WorldId) returns (r: Result<()>)
    requires wid in state.worlds.vals && Ready(Prices(state.commodityRegistry.commodities), state.worlds.vals[wid])
    modifies state`worlds, log
    ensures var out := PricesAt(old(state.worlds.vals[wid]), state.commodityRegistry.commodities, state.tick);
      (r.Ok? <==> out.Ok?) &&
      (r.Ok? ==> state.worlds == old(state.worlds).Put(wid, out.value.0) && log.entries == old(log.entries) + out.value.1)
  {
    var w := state.worlds.vals[wid];
    var reg := state.commodityRegistry.commodities;
    if w.market.None? {
      assert state.worlds.vals == state.worlds.vals[wid := w];
      log.AddEntry(NO_PRICES, state.tick, Some(w.id), None, 0.0, Some("No market in world, no price update."), None);
      return Ok(());
    }
    var w' :- EconMarket.UpdatedPrices(w, reg);
    UpdatedPricesValid(w, reg);
    state.worlds := state.worlds.Put(wid, w');
    var initial := w.market.value.prices;
    var prices := w'.market.value.prices;
    r := LogPrices(log, initial, prices, reg, w.id, state.tick);
  }

  /** `for c_id, new_price in world.market.prices.items()`: log each moved price. */
  method LogPrices(log: AuditLog, initial: Dict<CommodityId, real>, prices: Dict<CommodityId, real>,
                   reg: Dict<CommodityId, Commodity>, wid: WorldId, tick: int) returns (r: Result<()>)
    requires prices.Valid()
    modifies log
    ensures var out := PriceEntries(initial, prices.vals, prices.keys, reg, wid, tick);
      (r.Ok? <==> out.Ok?) && (r.Ok? ==> log.entries == old(log.entries) + out.value)
  {
    ghost var e0, cur := log.entries, [];
    var keys := prices.keys;
    var i := 0;
    while i < |keys|
      invariant 0 <= i <= |keys|
      invariant PriceEntries(initial, prices.vals, keys[..i], reg, wid, tick) == Ok(cur)
      invariant log.entries == e0 + cur
    {
      PriceEntriesNext(initial, prices.vals, keys, reg, wid, tick, i);
      var c := keys[i];
      if c !in reg.vals {
        PriceEntriesStopped(initial, prices.vals, keys, reg, wid, tick, i + 1);
        return Fail(UnknownCommodity(c));
      }
      var before := initial.Get(c, reg.vals[c].basePrice);
      LogPrice(log, wid, tick, c, before, prices.vals[c]);
      cur := PriceEntries(initial, prices.vals, keys[..i + 1], reg, wid, tick).value;
      i := i + 1;
    }
    assert keys[..i] == keys;
    return Ok(());
  }

  /** `if old_price != new_price: log.add_entry("economy.prices.update", ...)` */
  method LogPrice(log: AuditLog, wid: WorldId, tick: int, c: CommodityId, before: real, after: real)
    modifies log
    ensures log.entries == old(log.entries) + if before != after then [PriceEntry(wid, tick, c, before, after)] else []
  {
    if before != after {
      log.AddEntry(PRICE_UPDATE, tick, Some(wid), None, after - before, None,
                   Some(Dict(["commodity_id", "old_price", "new_price"],
                             map["commodity_id" := Str(c), "old_price" := Float(before), "new_price" := Float(after)])));
    }
  }

  /** The registry a stage reads, as the universe state holds it. */
  predicate StageOfState(s: Stage, state: UniverseState)
    reads state, state.recipeRegistry, state.commodityRegistry
  {
    match s
    case Consumption => true
    case Production(reg) => reg == state.recipeRegistry.recipes
    case Prices(reg) => reg == state.commodityRegistry.commodities
  }

  /** One world's turn in a stage. */
  method StageWorld(state: UniverseState, log: AuditLog, s: Stage, wid: WorldId) returns (r: Result<()>)
    requires StageOfState(s, state) && wid in state.worlds.vals && Ready(s, state.worlds.vals[wid])
    modifies state`worlds, log
    ensures var out := AtWorld(s, old(state.worlds.vals[wid]), state.tick);
      (r.Ok? <==> out.Ok?) &&
      (r.Ok? ==> state.worlds == old(state.worlds).Put(wid, out.value.0) && log.entries == old(log.entries) + out.value.1)
  {
    match s
    case Consumption => r := ConsumeAt(state, log, wid);
    case Production(_) => r := ProduceAt(state, log, wid);
    case Prices(_) => r := PriceAt(state, log, wid);
  }

  /** `for world in state.worlds.values()`: the stage on every world in order. */
  method RunStage(state: UniverseState, log: AuditLog, s: Stage) returns (r: Result<()>)
    requires StageOfState(s, state)
    requires forall k :: k in state.worlds.keys ==> k in state.worlds.vals && Ready(s, state.worlds.vals[k])
    modifies state`worlds, log
    ensures var out := WorldStage(s, old(state.worlds), old(state.worlds.keys), state.tick);
      (r.Ok? <==> out.Ok?) &&
      (r.Ok? ==> state.worlds == out.value.worlds && log.entries == old(log.entries) + out.value.entries)
  {
    ghost var ws, e0, tick := state.worlds, log.entries, state.tick;
    ghost var cur := Staged(ws, []);
    var keys := state.worlds.keys;
    var i := 0;
    while i < |keys|
      invariant 0 <= i <= |keys| && state.tick == tick
      invariant WorldStage(s, ws, keys[..i], tick) == Ok(cur)
      invariant state.worlds == cur.worlds && log.entries == e0 + cur.entries
    {
      var ok := StageStep(state, log, s, ws, keys, i, e0);
      if ok.Fail? {
        WorldStageStopped(s, ws, keys, tick, i + 1);
        return Fail(ok.error);
      }
      cur := WorldStage(s, ws, keys[..i + 1], tick).value;
      i := i + 1;
    }
    assert keys[..i] == keys;
    return Ok(());
  }

  /** One turn of RunStage's loop: the prefix result grows by world keys[i]. */
  method StageStep(state: UniverseState, log: AuditLog, s: Stage, ghost ws: Worlds, keys: seq<WorldId>, i: nat,
                   ghost e0: seq<AuditEntry>) returns (r: Result<()>)
    requires StageOfState(s, state)
    requires forall k :: k in keys ==> k in ws.vals && Ready(s, ws.vals[k])
    requires i < |keys| && WorldStage(s, ws, keys[..i], state.tick).Ok?
    requires state.worlds == WorldStage(s, ws, keys[..i], state.tick).value.worlds
    requires log.entries == e0 + WorldStage(s, ws, keys[..i], state.tick).value.entries
    modifies state`worlds, log
    ensures var out := WorldStage(s, ws, keys[..i + 1], state.tick);
      (r.Ok? <==> out.Ok?) &&
      (r.Ok? ==> state.worlds == out.value.worlds && log.entries == e0 + out.value.entries)
  {
    ghost var tick := state.tick;
    ghost var pre := WorldStage(s, ws, keys[..i], tick).value;
    WorldStageNext(s, ws, keys, tick, i);
    ghost var out := AtWorld(s, pre.worlds.vals[keys[i]], tick);
    r := StageWorld(state, log, s, keys[i]);
    if r.Ok? {
      assert WorldStage(s, ws, keys[..i + 1], tick) == Ok(Staged(pre.worlds.Put(keys[i], out.value.0), pre.entries + out.value.1));
      Appended(e0, pre.entries, out.value.1);
    }
  }

  lemma Appended(a: seq<AuditEntry>, b: seq<AuditEntry>, c: seq<AuditEntry>)
    ensures a + b + c == a + (b + c)
  {
  }

  /** The trade entries after process_trade. */
  method LogTrade(log: AuditLog, active: seq<Shipment>, arrived: seq<Shipment>, tick: int)
    modifies log
    ensures log.entries == old(log.entries) + TradeEntries(active, arrived, tick)
  {
    ghost var e0 := log.entries;
    if active != [] {
      log.AddEntry(NEW_SHIPMENTS, tick, None, None, 0.0, None,
                   Some(Dict(["shipments"], map["shipments" := List(ShipmentIds(active))])));
    }
    ghost var e1 := log.entries;
    if arrived != [] {
      log.AddEntry(ARRIVALS, tick, None, None, 0.0, None,
                   Some(Dict(["arrivals"], map["arrivals" := List(ArrivalItems(arrived))])));
    } else {
      log.AddEntry(NO_TRADE, tick, None, None, 0.0, Some("No active trade or arrivals."), None);
    }
    Appended(e0, e1[|e0|..], log.entries[|e1|..]);
  }

  /** The universe state as the value the faction and event stages work on. */
  function SimOf(state: UniverseState): Sim
    reads state, state.rng
  {
    Sim(state.worlds, state.lanes, state.rng.pos)
  }

  /** One effect of a picked event: apply_effect, then its entry. */
  method EffectStep(state: UniverseState, log: AuditLog, ev: EventDef, wid: WorldId, ghost u: Sim, i: nat,
                    ghost e0: seq<AuditEntry>) returns (r: Result<()>)
    requires FactionIntegrate.Consistent(u, state.adj) && wid in u.worlds.vals && i < |ev.effects|
    requires EffectsRun(u, state.adj, state.rng.draws, ev, wid, ev.effects[..i], state.tick).Ok?
    requires SimOf(state) == EffectsRun(u, state.adj, state.rng.draws, ev, wid, ev.effects[..i], state.tick).value.sim
    requires log.entries == e0 + EffectsRun(u, state.adj, state.rng.draws, ev, wid, ev.effects[..i], state.tick).value.entries
    modifies state`worlds, state`lanes, state.rng, log
    ensures var out := EffectsRun(u, state.adj, state.rng.draws, ev, wid, ev.effects[..i + 1], state.tick);
      (r.Ok? <==> out.Ok?) &&
      (r.Ok? ==> SimOf(state) == out.value.sim && log.entries == e0 + out.value.entries)
  {
    ghost var tick, adj, draws := state.tick, state.adj, state.rng.draws;
    ghost var pre := EffectsRun(u, adj, draws, ev, wid, ev.effects[..i], tick).value;
    EffectsRunNext(u, adj, draws, ev, wid, ev.effects, i, tick);
    r := EventEffects.ApplyEffect(state, ev.effects[i], wid);
    if r.Ok? {
      log.AddEntry(EVENT_TRIGGERED, state.tick, Some(wid), None, 0.0, None,
                   Some(Dict(["event_id", "effect"], map["event_id" := Str(ev.id), "effect" := ev.effects[i]])));
      Appended(e0, pre.entries, [EventEntry(ev, wid, ev.effects[i], tick)]);
    }
  }

  lemma EffectsRunNext(u: Sim, adj: Adjacency, draws: nat -> nat, ev: EventDef, wid: WorldId, effects: seq<Value>,
                       i: nat, tick: int)
    requires FactionIntegrate.Consistent(u, adj) && wid in u.worlds.vals && i < |effects|
    requires EffectsRun(u, adj, draws, ev, wid, effects[..i], tick).Ok?
    ensures var pre := EffectsRun(u, adj, draws, ev, wid, effects[..i], tick).value;
      FactionIntegrate.Consistent(pre.sim, adj) && wid in pre.sim.worlds.vals &&
      EffectsRun(u, adj, draws, ev, wid, effects[..i + 1], tick) ==
        (var v :- EventEffects.Applied(pre.sim, adj, draws, effects[i], wid);
         Ok(Round(v, pre.entries + [EventEntry(ev, wid, effects[i], tick)])))
  {
    assert effects[..i + 1][..i] == effects[..i];
  }

  /** `for effect in event_def.effects`. */
  method RunEffects(state: UniverseState, log: AuditLog, ev: EventDef, wid: WorldId) returns (r: Result<()>)
    requires FactionIntegrate.Consistent(SimOf(state), state.adj) && wid in state.worlds.vals
    modifies state`worlds, state`lanes, state.rng, log
    ensures var out := EffectsRun(old(SimOf(state)), state.adj, state.rng.draws, ev, wid, ev.effects, state.tick);
      (r.Ok? <==> out.Ok?) &&
      (r.Ok? ==> SimOf(state) == out.value.sim && log.entries == old(log.entries) + out.value.entries)
  {
    ghost var u, e0, adj, draws, tick := SimOf(state), log.entries, state.adj, state.rng.draws, state.tick;
    ghost var cur := Round(u, []);
    var i := 0;
    while i < |ev.effects|
      invariant 0 <= i <= |ev.effects| && state.adj == adj && state.tick == tick
      invariant EffectsRun(u, adj, draws, ev, wid, ev.effects[..i], tick) == Ok(cur)
      invariant SimOf(state) == cur.sim && log.entries == e0 + cur.entries
    {
      var ok := EffectStep(state, log, ev, wid, u, i, e0);
      if ok.Fail? {
        EffectsRunStopped(u, adj, draws, ev, wid, ev.effects, tick, i + 1);
        return Fail(ok.error);
      }
      cur := EffectsRun(u, adj, draws, ev, wid, ev.effects[..i + 1], tick).value;
      i := i + 1;
    }
    assert ev.effects[..i] == ev.effects;
    return Ok(());
  }

  lemma {:induction false} EffectsRunStopped(u: Sim, adj: Adjacency, draws: nat -> nat, ev: EventDef, wid: WorldId,
                                             effects: seq<Value>, tick: int, j: nat)
    requires FactionIntegrate.Consistent(u, adj) && wid in u.worlds.vals
    requires j <= |effects| && EffectsRun(u, adj, draws, ev, wid, effects[..j], tick).Fail?
    ensures EffectsRun(u, adj, draws, ev, wid, effects, tick).Fail?
    decreases |effects|
  {
    if j < |effects| {
      var p := effects[..|effects| - 1];
      assert p[..j] == effects[..j];
      EffectsRunStopped(u, adj, draws, ev, wid, p, tick, j);
      EffectsRunFailed(u, adj, draws, ev, wid, effects, tick);
    } else {
      assert effects[..j] == effects;
    }
  }

  /** A failed prefix fails the whole run. */
  lemma EffectsRunFailed(u: Sim, adj: Adjacency, draws: nat -> nat, ev: EventDef, wid: WorldId, effects: seq<Value>, tick: int)
    requires FactionIntegrate.Consistent(u, adj) && wid in u.worlds.vals && effects != []
    requires EffectsRun(u, adj, draws, ev, wid, effects[..|effects| - 1], tick).Fail?
    ensures EffectsRun(u, adj, draws, ev, wid, effects, tick).Fail?
  {
  }

  lemma {:induction false} TriggeredStopped(u: Sim, adj: Adjacency, draws: nat -> nat, picks: seq<(EventDef, WorldId)>,
                                            tick: int, j: nat)
    requires FactionIntegrate.Consistent(u, adj)
    requires j <= |picks| && Triggered(u, adj, draws, picks[..j], tick).Fail?
    ensures Triggered(u, adj, draws, picks, tick).Fail?
    decreases |picks|
  {
    if j < |picks| {
      var p := picks[..|picks| - 1];
      assert p[..j] == picks[..j];
      TriggeredStopped(u, adj, draws, p, tick, j);
      TriggeredFailed(u, adj, draws, picks, tick);
    } else {
      assert picks[..j] == picks;
    }
  }

  /** A failed prefix fails the whole round. */
  lemma TriggeredFailed(u: Sim, adj: Adjacency, draws: nat -> nat, picks: seq<(EventDef, WorldId)>, tick: int)
    requires FactionIntegrate.Consistent(u, adj) && picks != []
    requires Triggered(u, adj, draws, picks[..|picks| - 1], tick).Fail?
    ensures Triggered(u, adj, draws, picks, tick).Fail?
  {
  }

  /** One picked event: its target must still be a world; then its effects. */
  method EventStep(state: UniverseState, log: AuditLog, picks: seq<(EventDef, WorldId)>, ghost u: Sim, i: nat,
                   ghost e0: seq<AuditEntry>) returns (r: Result<()>)
    requires FactionIntegrate.Consistent(u, state.adj) && i < |picks|
    requires Triggered(u, state.adj, state.rng.draws, picks[..i], state.tick).Ok?
    requires SimOf(state) == Triggered(u, state.adj, state.rng.draws, picks[..i], state.tick).value.sim
    requires log.entries == e0 + Triggered(u, state.adj, state.rng.draws, picks[..i], state.tick).value.entries
    modifies state`worlds, state`lanes, state.rng, log
    ensures var out := Triggered(u, state.adj, state.rng.draws, picks[..i + 1], state.tick);
      (r.Ok? <==> out.Ok?) &&
      (r.Ok? ==> SimOf(state) == out.value.sim && log.entries == e0 + out.value.entries)
  {
    ghost var tick, adj, draws := state.tick, state.adj, state.rng.draws;
    ghost var pre := Triggered(u, adj, draws, picks[..i], tick).value;
    assert picks[..i + 1][..i] == picks[..i];
    assert picks[..i + 1][i] == picks[i];
    var (ev, wid) := picks[i];
    if wid !in state.worlds.vals {
      return Fail(MissingKey(wid));
    }
    ghost var e1 := log.entries;
    r := RunEffects(state, log, ev, wid);
    if r.Ok? {
      Appended(e0, pre.entries, log.entries[|e1|..]);
    }
  }

  /** `for event_def, target_world_id in events_this_tick`. */
  method RunEvents(state: UniverseState, log: AuditLog, picks: seq<(EventDef, WorldId)>) returns (r: Result<()>)
    requires FactionIntegrate.Consistent(SimOf(state), state.adj)
    modifies state`worlds, state`lanes, state.rng, log
    ensures var out := Triggered(old(SimOf(state)), state.adj, state.rng.draws, picks, state.tick);
      (r.Ok? <==> out.Ok?) &&
      (r.Ok? ==> SimOf(state) == out.value.sim && log.entries == old(log.entries) + out.value.entries)
  {
    ghost var u, e0, adj, draws, tick := SimOf(state), log.entries, state.adj, state.rng.draws, state.tick;
    ghost var cur := Round(u, []);
    var i := 0;
    while i < |picks|
      invariant 0 <= i <= |picks| && state.adj == adj && state.tick == tick
      invariant Triggered(u, adj, draws, picks[..i], tick) == Ok(cur)
      invariant SimOf(state) == cur.sim && log.entries == e0 + cur.entries
    {
      var ok := EventStep(state, log, picks, u, i, e0);
      if ok.Fail? {
        TriggeredStopped(u, adj, draws, picks, tick, i + 1);
        return Fail(ok.error);
      }
      cur := Triggered(u, adj, draws, picks[..i + 1], tick).value;
      i := i + 1;
    }
    assert picks[..i] == picks;
    return Ok(());
  }

  /** What step reads from the universe state and does not change. */
  function ContextOf(state: UniverseState): Context
    reads state, state.rng, state.commodityRegistry, state.recipeRegistry, state.eventRegistry, state.tracker
  {
    Context(state.rng.draws, state.adj, state.commodityRegistry.commodities, state.recipeRegistry.recipes,
            state.eventRegistry.events, state.factions, state.tracker.defaults)
  }

  lemma AppendedLog(e0: seq<AuditEntry>, a: seq<AuditEntry>, b: seq<AuditEntry>, t: seq<AuditEntry>, q: seq<AuditEntry>)
    ensures e0 + (a + b + t + q) == e0 + a + b + t + q
  {
    Appended(e0, a, b);
    Appended(e0, a + b, t);
    Appended(e0, a + b + t, q);
  }

  /** Consumption, then production, on the universe state. */
  method RunMade(state: UniverseState, log: AuditLog) returns (r: Result<()>)
    requires state.worlds.Valid() && AllReady(ContextOf(state), state.worlds)
    modifies state`worlds, log
    ensures var out := Made(ContextOf(state), old(state.worlds), state.tick);
      (r.Ok? <==> out.Ok?) &&
      (r.Ok? ==> state.worlds == out.value.1.worlds && log.entries == old(log.entries) + out.value.0.entries + out.value.1.entries)
  {
    ghost var c, ws, tick := ContextOf(state), state.worlds, state.tick;
    ReadyFor(c, ws, Consumption);
    var ok := RunStage(state, log, Consumption);
    if ok.Fail? { return Fail(ok.error); }
    ghost var cs := WorldStage(Consumption, ws, ws.keys, tick).value;
    KeptAllReady(c, ws, cs.worlds);
    ReadyFor(c, cs.worlds, Production(c.recipes));
    r := RunStage(state, log, Production(state.recipeRegistry.recipes));
  }

  /** Trade with its entries, then the price update, on the universe state. */
  method RunMarketed(state: UniverseState, log: AuditLog) returns (r: Result<()>)
    requires state.worlds.Valid() && AllReady(ContextOf(state), state.worlds)
    requires state.lanes.Valid() && state.commodityRegistry.commodities.Valid()
    modifies state`worlds, state`activeShipments, state.tracker, log
    ensures state.tracker.defaults == old(state.tracker.defaults)
    ensures var out := Marketed(old(ContextOf(state)), old(state.worlds), state.lanes, old(state.activeShipments), state.tick);
      (r.Ok? <==> out.Ok?) &&
      (r.Ok? ==> state.worlds == out.value.1.worlds && state.activeShipments == out.value.0.shipments &&
                 state.tracker.used == out.value.0.used &&
                 log.entries == old(log.entries) + TradeEntries(out.value.0.shipments, out.value.0.arrived, state.tick) +
                                out.value.1.entries)
  {
    ghost var c, ws, tick := ContextOf(state), state.worlds, state.tick;
    var arrived := EconTrade.ProcessTrade(state, true);
    if arrived.Fail? { return Fail(arrived.error); }
    ghost var t := EconTrade.ProcessedTrade(ws, state.lanes, c.commodities, old(state.activeShipments), c.defaults, tick, true).value;
    EconTrade.ProcessedTradeSameWorlds(ws, state.lanes, c.commodities, old(state.activeShipments), c.defaults, tick, true);
    SameWorldsKept(ws, t.worlds);
    KeptAllReady(c, ws, t.worlds);
    ReadyFor(c, t.worlds, Prices(c.commodities));
    LogTrade(log, state.activeShipments, arrived.value, state.tick);
    r := RunStage(state, log, Prices(state.commodityRegistry.commodities));
  }

  /** The four economic stages on the universe state, with their entries. */
  method RunEconomy(state: UniverseState, log: AuditLog) returns (r: Result<()>)
    requires StepReady(ContextOf(state), SimOf(state))
    modifies state`worlds, state`activeShipments, state.tracker, log
    ensures ContextOf(state) == old(ContextOf(state))
    ensures var out := Economic(old(ContextOf(state)), old(SimOf(state)), old(state.activeShipments), state.tick);
      (r.Ok? <==> out.Ok?) &&
      (r.Ok? ==> state.worlds == out.value.priced.worlds && state.activeShipments == out.value.trade.shipments &&
                 state.tracker.used == out.value.trade.used && log.entries == old(log.entries) + EconomicLog(out.value))
  {
    ghost var c, u, e0, tick := ContextOf(state), SimOf(state), log.entries, state.tick;
    r := RunMade(state, log);
    if r.Fail? { return; }
    ghost var m := Made(c, u.worlds, tick).value;
    KeptAllReady(c, u.worlds, m.1.worlds);
    r := RunMarketed(state, log);
    if r.Ok? {
      ghost var k := Marketed(c, m.1.worlds, u.lanes, old(state.activeShipments), tick).value;
      AppendedLog(e0, m.0.entries, m.1.entries, TradeEntries(k.0.shipments, k.0.arrived, tick), k.1.entries);
    }
  }

  /** Factions, then events, on the universe state, with their entries. */
  method RunLater(state: UniverseState, log: AuditLog) returns (r: Result<()>)
    requires FactionIntegrate.Consistent(SimOf(state), state.adj) && state.factions.Valid() && state.eventRegistry.events.Valid()
    modifies state`worlds, state`lanes, state.rng, log
    ensures var out := Later(old(ContextOf(state)), old(SimOf(state)), state.tick);
      (r.Ok? <==> out.Ok?) &&
      (r.Ok? ==> SimOf(state) == out.value.sim &&
                 log.entries == old(log.entries) + [FactionsNote(state.tick)] + EventsLog(out.value.picked, out.value.entries, state.tick))
  {
    ghost var c, v, tick := ContextOf(state), SimOf(state), state.tick;
    var ok := FactionIntegrate.ApplyFactionActions(state);
    if ok.Fail? { return Fail(ok.error); }
    log.AddEntry(FACTIONS_STEP, state.tick, None, None, 0.0, Some("Faction actions applied."), None);
    ghost var a := SimOf(state);
    var picked := EventGenerator.GenerateEvents(state, 1);
    if picked.Fail? { return Fail(picked.error); }
    if picked.value != [] {
      r := RunEvents(state, log, picked.value);
    } else {
      log.AddEntry(EVENTS_ROLL, state.tick, None, None, 0.0, Some("No events triggered this tick."), None);
      r := Ok(());
    }
  }

  lemma TickLogAppended(e: seq<AuditEntry>, f: AuditEntry, ev: seq<AuditEntry>)
    ensures [] + e + [f] + ev == e + [f] + ev
  {
    assert [] + e == e;
  }

  /** step(state): the six stages in order, then the tick rises by one. The
      report holds the new tick and the log of the tick. */
  method Step(state: UniverseState) returns (r: Result<TickReport>)
    requires StepReady(ContextOf(state), SimOf(state))
    modifies state`worlds, state`lanes, state`activeShipments, state`tick, state.rng, state.tracker
    ensures var out := Stepped(old(ContextOf(state)), old(SimOf(state)), old(state.activeShipments), old(state.tick));
      (r.Ok? <==> out.Ok?) &&
      (r.Ok? ==> fresh(r.value.log) && r.value.tick == state.tick && r.value.log.entries == out.value.log &&
                 Ticked(state, out.value))
  {
    var log := new AuditLog();
    var ok := StepInto(state, log, ContextOf(state), SimOf(state), state.activeShipments, state.tick);
    if ok.Fail? { return Fail(ok.error); }
    return Ok(TickReport(state.tick, log));
  }

  /** The universe state holds what the tick produced. */
  predicate Ticked(state: UniverseState, a: After)
    reads state, state.rng, state.tracker
  {
    SimOf(state) == a.sim && state.activeShipments == a.shipments && state.tracker.used == a.used && state.tick == a.tick
  }

  /** The stages of step(state) logging into `log`, then the tick update;
      c, u, active and tick are what the state held before. */
  method StepInto(state: UniverseState, log: AuditLog, ghost c: Context, ghost u: Sim, ghost active: seq<Shipment>,
                  ghost tick: int) returns (r: Result<()>)
    requires c == ContextOf(state) && u == SimOf(state) && active == state.activeShipments && tick == state.tick
    requires StepReady(c, u) && log.entries == []
    modifies state`worlds, state`lanes, state`activeShipments, state`tick, state.rng, state.tracker, log
    ensures var out := Stepped(c, u, active, tick);
      (r.Ok? <==> out.Ok?) && (r.Ok? ==> log.entries == out.value.log && Ticked(state, out.value))
  {
    var ok := RunEconomy(state, log);
    if ok.Fail? { return Fail(ok.error); }
    ghost var econ := Economic(c, u, active, tick).value;
    KeptConsistent(u.worlds, econ.priced.worlds, u.lanes, u.pos, c.adj);
    r := StepRest(state, log, c, Sim(econ.priced.worlds, u.lanes, u.pos), tick, econ);
  }

  /** The factions and events stages of step(state) and the tick update, after the economic stages. */
  method StepRest(state: UniverseState, log: AuditLog, ghost c: Context, ghost v: Sim, ghost tick: int,
                  ghost econ: Economy) returns (r: Result<()>)
    requires c == ContextOf(state) && v == SimOf(state) && tick == state.tick && log.entries == EconomicLog(econ)
    requires FactionIntegrate.Consistent(v, c.adj) && c.factions.Valid() && c.events.Valid()
    requires state.activeShipments == econ.trade.shipments && state.tracker.used == econ.trade.used
    modifies state`worlds, state`lanes, state`tick, state.rng, log
    ensures var out := Finished(c, v, econ, tick);
      (r.Ok? <==> out.Ok?) && (r.Ok? ==> log.entries == out.value.log && Ticked(state, out.value))
  {
    r := RunLater(state, log);
    if r.Fail? { return; }
    ghost var t := Later(c, v, tick).value;
    TickLogAppended(EconomicLog(econ), FactionsNote(tick), EventsLog(t.picked, t.entries, tick));
    state.tick := state.tick + 1;
  }
}
