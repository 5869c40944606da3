# StarSim core in Dafny

This project models the core of StarSim, a deterministic, seeded simulation of
star systems (worlds) joined by hyperspace lanes, and proves properties of that
model. The parts are:

- **Tick loop.** One call to `CoreSim.Step` (src/starsim/core/sim.py) runs one tick,
  in this order (`CoreSim.StepInto`, `CoreSim.RunEconomy`, `CoreSim.StepRest`):
  1. Consumption: each world's population consumes from its market.
  2. Production: each world's industry runs its recipes.
  3. Trade: shipments are planned over lanes of limited capacity, and due ones arrive.
  4. Market prices: each market reprices its commodities.
  5. Factions: each faction chooses and applies one action. Investment happens
     only here, inside the faction actions (`FactionIntegrate.InvestAt`).
  6. Events: weighted random events are picked and their effects applied.
  7. The tick counter advances.

  Upkeep (`EconUpkeep.ApplyUpkeep`) is modelled, but no stage of the tick calls it.
  The audit log does not record every change. What one tick logs is:
  - a no-op entry for each world that lacks the component a stage needs
    (`CoreSim.SteppedNoOps`);
  - a price entry only for each price that moved (`CoreSim.PriceEntriesMoved`);
  - one summary entry for the factions stage, the no-event entry when no event
    was picked and otherwise one entry per effect, and the trade entries for
    shipments en route, arrivals or no trade (`CoreSim.SteppedCounts`).

  `UniverseState`, `World`, `Inventory`, `Market`, `LaneCapacity`, `AuditLog` and
  the random number generator are classes whose methods update their fields. Each
  method is proved against value-level functions of the old state. For a few
  loops (`EconUpkeep.SumCaps`, `EconProduction.InputBoundOf`,
  `WorldLoad.FillInventory`) that function follows the loop step by step, so the
  method's contract says only that it computes what the loop computes. The lemmas
  state what the source promises about those functions:
  - stock never goes negative;
  - prices stay inside their band;
  - lane capacity is never exceeded;
  - delivered shipments credit their destination;
  - the log records the stages in order;
  - worlds that a stage does not touch stay as they were.
- **Registries.** Commodity, recipe and event definitions are parsed from
  already-loaded documents. `Docs.Value` stands for a parsed YAML/JSON value.
- **Save and load.** `to_dict`/`from_dict` snapshots with round-trip lemmas. A
  saved state reads back as the same state, and saving is stable.
- **World loading.** `load_universe` on a parsed document. Proved: its duplicate-id
  and unknown-endpoint checks, and that the worlds and lanes come out in order.
- **Generation.**
  - The schema validators.
  - Planet-potential bootstrap.
  - System generation: connected components, resource-table selection and the
    universe fill.
  - Lane generation: a disjoint-set union (union-find, with path compression and
    union by rank), Kruskal's spanning forest, and degree augmentation.
- **Visualizer.** The breadth-first `_get_shortest_path_hops` of visualizer/app.py.

Python floats are modelled as Dafny `real`. Dicts whose iteration order matters
are `Base.Dict`, an ordered key list with a map. Random draws come from an
oracle stream: `CoreRng.Rng` holds `draws: nat -> nat` and a position, and a
pick among `n` items is `draws(pos) % n`. Errors the source raises are
`Result` failures carrying an error kind.

Some parts of the source would fail when run. They are modelled by their
evident intent, and "## Left out" lists them. The four such failures in system
generation are under "## Findings", each with a Dafny half that exhibits the
failure and a corrected half.

## Model

| member | source | states |
|---|---|---|
| EconInventory.Added | src/starsim/economy/inventory.py:15-19 | a negative quantity is a ValueError; otherwise the commodity's amount rises by the quantity (from 0 when absent), every other entry stays as it was, and a non-negative stock stays non-negative |
| EconInventory.RemovedClamped | src/starsim/economy/inventory.py:21-34 | a negative quantity is a ValueError; otherwise the amount removed is min(quantity, stored), the entry is deleted when what is left is below 1e-9 and holds the rest otherwise, nothing else changes, and the removal lies in [0, quantity] |
| EconInventory.Stored | src/starsim/economy/inventory.py:39-44 | a negative quantity is a ValueError; otherwise the commodity holds the quantity, or is absent when the quantity is below 1e-9, and nothing else changes |
| EconInventory.OpsKeepNonNegative | src/starsim/economy/inventory.py:15-44 | no sequence of add, remove_clamped and item assignments that all succeed makes any quantity negative |
| EconInventory.RemoveAbsentIsNoOp | src/starsim/economy/inventory.py:29-34 | removing a commodity that is not stored removes 0 and leaves the stock as it was |
| EconInventory.Inventory.constructor | src/starsim/economy/inventory.py:8-9 | a new inventory is empty |
| EconInventory.Inventory.Get | src/starsim/economy/inventory.py:11-13 | the stored amount, or the default when the commodity is absent |
| EconInventory.Inventory.Add | src/starsim/economy/inventory.py:15-19 | the new stock is Added of the old one; a negative quantity raises and changes nothing |
| EconInventory.Inventory.RemoveClamped | src/starsim/economy/inventory.py:21-34 | returns the amount removed, and the new stock is RemovedClamped of the old one; a negative quantity raises and changes nothing |
| EconInventory.Inventory.SetItem | src/starsim/economy/inventory.py:39-44 | the new stock is Stored of the old one; a negative quantity raises and changes nothing |
| LogisticsCapacity.Remaining | src/starsim/logistics/capacity.py:17-18 | the remaining capacity is max(0, total - used), with used 0 for an unseen lane |
| LogisticsCapacity.Used | src/starsim/logistics/capacity.py:14-15 | the lane's used capacity grows by the quantity and every other lane's stays the same |
| LogisticsCapacity.RemainingAfterReset | src/starsim/logistics/capacity.py:17-21 | after a reset each lane has max(0, total) left |
| LogisticsCapacity.RemainingNonIncreasing | src/starsim/logistics/capacity.py:14-18 | with non-negative additions, used capacity never falls and remaining capacity never rises between resets |
| LogisticsCapacity.LaneCapacity.constructor | src/starsim/logistics/capacity.py:12 | a new tracker is an empty defaultdict |
| LogisticsCapacity.LaneCapacity.AddUsedCapacity | src/starsim/logistics/capacity.py:14-15 | the usage becomes Used of the old one; on the plain dict left by from_dict an unseen lane is a KeyError with nothing changed |
| LogisticsCapacity.LaneCapacity.GetRemainingCapacity | src/starsim/logistics/capacity.py:17-18 | returns Remaining of the old usage; reading through the defaultdict records 0.0 for an unseen lane and no used value changes; on a plain dict an unseen lane is a KeyError |
| LogisticsCapacity.LaneCapacity.Reset | src/starsim/logistics/capacity.py:20-21 | the usage becomes empty and keeps its kind of dict |
| CoreLog.Entry | src/starsim/core/log.py:32-40 | the entry carries every argument as given, and `details or {}` replaces missing or empty details by an empty mapping |
| CoreLog.Note | src/starsim/core/log.py:22-31 | an entry with the defaults: no faction, delta 0.0, the given reason and empty details |
| CoreLog.AuditLog.constructor | src/starsim/core/log.py:19-20 | a new log has no entries |
| CoreLog.AuditLog.AddEntry | src/starsim/core/log.py:22-41 | exactly one entry, Entry of the arguments, goes at the end and the earlier entries stay as they were |
| CoreState.IncidentMembers | src/starsim/core/state.py:45-49 | a lane is listed under a world exactly when it has an endpoint there |
| CoreState.AdjacencyOfLists | src/starsim/core/state.py:43-49 | the rebuilt adjacency has one key per world, in world order, and lists a lane under a world exactly when the lane has an endpoint there; an endpoint that is not a world adds no key |
| CoreState.AdjacencyOfKnown | src/starsim/core/state.py:43-49 | every lane id the rebuilt adjacency lists is a known lane |
| CoreState.NeighborsOf | src/starsim/core/state.py:51-59 | one neighbour per adjacent lane, in adjacency order, each the lane's other endpoint; an unknown world has none |
| CoreState.LanesFromOf | src/starsim/core/state.py:61-62 | the lane records of the world's adjacency list, in order; an unknown world has none |
| CoreState.NeighborsOfRebuilt | src/starsim/core/state.py:43-59 | after a rebuild, v is a neighbour of a world w exactly when some lane joins w and v |
| CoreState.Appended | src/starsim/core/state.py:46-49 | `if w in adj: adj[w].append(l)`: only w's list grows, by l at its end, and no key is added |
| CoreState.UniverseState.constructor | src/starsim/core/state.py:17-37 | the fields hold the given values, the generator starts at its first output, and the adjacency is built from the worlds and lanes |
| CoreState.UniverseState.RebuildAdjacency | src/starsim/core/state.py:43-49 | the adjacency becomes AdjacencyOf(world ids, lanes) and nothing else changes |
| CoreState.UniverseState.AppendLanes | src/starsim/core/state.py:45-49 | after the lane loop each world's list is its incident lanes in lane order |
| CoreState.UniverseState.EmptyLists | src/starsim/core/state.py:44 | one empty list per world, in world order |
| WorldModel.World.constructor | src/starsim/world/model.py:15-42 | World(id, name) has stability, prosperity and tech 1.0, no tags, coordinates and pressures 0.0, no planets and no components |
| CoreRng.PickIndex | src/starsim/core/rng.py:3-5 | the index a generator output selects among n choices is below n |
| CoreRng.Sampled | src/starsim/core/rng.py:3-5 | rng.sample(pool, k) takes k elements of the pool, one per generator output, and distinct elements give distinct picks |
| CoreRng.VacatedFacts | src/starsim/core/rng.py:3-5 | removing the picked slot keeps a distinct pool distinct, drops the picked element and adds nothing new |
| CoreRng.Rng.constructor | src/starsim/core/rng.py:3-5 | a new generator starts at its first output of the seeded stream |
| CoreRng.Rng.Choice | src/starsim/core/rng.py:3-5 | rng.choice(s) returns the element the next output selects and uses exactly one output |
| CoreRng.Rng.Sample | src/starsim/core/rng.py:3-5 | rng.sample(s, k) returns Sampled(s, k) from the next output on and uses k outputs |
| EventGenerator.NumberAt | src/starsim/events/generator.py:21-26 | condition.get(key, default) read as a number: the default when the key is absent, a TypeError for a value that is not a number |
| EventGenerator.InBand | src/starsim/events/generator.py:25-26 | `min <= x <= max` with min defaulting to 0.0 and max to 1.0, both bounds inclusive; a bound that is not a number is a TypeError |
| EventGenerator.AnyLaneInBandExists | src/starsim/events/generator.py:44-52 | with numeric bounds, a lane_hazard condition holds exactly when some connected lane's hazard lies in the band |
| EventGenerator.Met | src/starsim/events/generator.py:20-52 | an unknown condition type is never met; world_tag is met exactly when the tag is a string the world carries, an absent tag is a KeyError and a list or mapping tag (unhashable in a set) is a TypeError |
| EventGenerator.Factor | src/starsim/events/generator.py:19-52 | a condition without "type" is a KeyError; a satisfied condition contributes its weight_multiplier (default 1.0) and an unsatisfied one 1.0 |
| EventGenerator.Multiplier | src/starsim/events/generator.py:13-55 | with no conditions the multiplier is 1.0 |
| EventGenerator.MultiplierIsProduct | src/starsim/events/generator.py:18-55 | the multiplier is the product of the weight_multipliers of exactly the satisfied conditions, and it fails exactly when the condition loop raises |
| EventGenerator.MultiplierUnmet | src/starsim/events/generator.py:18-55 | a world that satisfies none of the conditions keeps multiplier 1.0 |
| EventGenerator.EvaluateConditions | src/starsim/events/generator.py:13-55 | the loop over the conditions returns Multiplier of them, or the first error |
| EventGenerator.WorldCandidatesMembers | src/starsim/events/generator.py:64-69 | a world's candidates are exactly the registered events whose weight base_weight * multiplier is positive |
| EventGenerator.CandidatesMembers | src/starsim/events/generator.py:62-69 | every candidate is a positive-weight (event, world) pair of a known world, and every such pair is a candidate |
| EventGenerator.CandidatesFail | src/starsim/events/generator.py:64-69 | collecting candidates fails exactly when some (event, world) pair's conditions fail to evaluate |
| EventGenerator.TotalWeightPositive | src/starsim/events/generator.py:85 | the `sum(weights) > 0` guard never blocks a non-empty roll, since every candidate weight is positive |
| EventGenerator.PickCount | src/starsim/events/generator.py:86-89 | k = min(max_events_per_tick, number of candidates), and a negative k picks nothing |
| EventGenerator.Picks | src/starsim/events/generator.py:86-91 | random.choices returns k picks, each an (event, world) pair of some candidate |
| EventGenerator.GeneratedFacts | src/starsim/events/generator.py:58-93 | the roll draws PickCount pairs, each a positive-weight candidate, using one generator output per pick |
| EventGenerator.GeneratedEmpty | src/starsim/events/generator.py:72-73 | with no positive-weight pair the roll is empty and uses no output |
| EventGenerator.ScanEvents | src/starsim/events/generator.py:65-69 | the event loop for one world returns WorldCandidates, or the first error |
| EventGenerator.CollectCandidates | src/starsim/events/generator.py:62-69 | both loops return Candidates over the worlds in order, or the first error |
| EventGenerator.ChooseMany | src/starsim/events/generator.py:86-91 | the draw returns Picks of the candidates and uses exactly k outputs |
| EventGenerator.GenerateEvents | src/starsim/events/generator.py:58-93 | the result and the generator position after it are those of Generated; it fails exactly when Generated fails |
| EventEffects.WithField | src/starsim/events/effects.py:15-26 | writing one of stability, prosperity, unrest or scarcity changes that field and no other |
| EventEffects.FieldChanged | src/starsim/events/effects.py:15-26 | a change_* effect sets its field to clamp(old + delta, 0, 1), delta defaulting to 0.0; the result is in [0, 1], equals old + delta when that is in range, and no other field changes; a delta that is not a number is a TypeError |
| EventEffects.StockChanged | src/starsim/events/effects.py:27-36 | a world without a market is unchanged; otherwise only the commodity's stock changes, by add or remove_clamped of the quantity, and a missing commodity_id is a KeyError |
| EventEffects.Hazarded | src/starsim/events/effects.py:51-52 | the lane's hazard becomes clamp(hazard + delta, 0, 1) and nothing else of the lane changes |
| EventEffects.HazardChangedFacts | src/starsim/events/effects.py:37-52 | change_lane_hazard changes at most one known lane: the named one, or a lane connected to the world picked with one generator output; an unknown lane id or a world without lanes changes nothing |
| EventEffects.SampleCount | src/starsim/events/effects.py:56-59 | the sample size is min(num_worlds, number of worlds); a negative count is a ValueError and a count that is not an integer a TypeError |
| EventEffects.RemovedFromFacts | src/starsim/events/effects.py:60-63 | with distinct targets, each target with a market has the commodity removed once by remove_clamped and every other world is unchanged |
| EventEffects.RandomRemovalFacts | src/starsim/events/effects.py:53-63 | remove_inventory_random_worlds acts on min(num_worlds, #worlds) distinct worlds drawn with one output each; the lanes and every world outside the draw are unchanged |
| EventEffects.RemovedFromNeeds | src/starsim/events/effects.py:60-63 | a removal that reached a world with a market had a string commodity id and a non-negative quantity |
| EventEffects.RemovedFromMarkets | src/starsim/events/effects.py:60-63 | the removal loop never adds or drops a market |
| EventEffects.Applied | src/starsim/events/effects.py:11-64 | an effect without "type" is a KeyError and an effect of an unknown type changes nothing |
| EventEffects.AppliedKeeps | src/starsim/events/effects.py:11-64 | every effect keeps the worlds and lanes listed as they were, each world's id and faction state, and uses generator outputs only forward |
| EventEffects.HazardChanged | src/starsim/events/effects.py:37-43 | a truthy list or mapping lane_id is the TypeError of looking it up in the lanes dict; any other truthy lane_id that names no lane changes nothing |
| EventEffects.ChangeLaneHazard | src/starsim/events/effects.py:37-52 | the new lanes and generator position are those of HazardChanged of the old ones |
| EventEffects.RemoveAt | src/starsim/events/effects.py:61-63 | the new worlds are RemovedAt of the old ones, with the same error |
| EventEffects.RemoveFromWorlds | src/starsim/events/effects.py:60-63 | the removal loop leaves the worlds RemovedFrom the old ones over the drawn targets |
| EventEffects.RemoveRandomWorlds | src/starsim/events/effects.py:53-63 | the new worlds and generator position are those of RandomRemoval of the old ones; it fails exactly when RandomRemoval does |
| EventEffects.ApplyEffect | src/starsim/events/effects.py:11-64 | the new worlds, lanes and generator position are those of Applied of the old state; it fails exactly when Applied does |
| EconMarketData.Market.constructor | src/starsim/economy/market.py:13-22 | a new market has an empty inventory, the given prices and targets, factor 0.1 and multipliers 0.5 and 2.0 |
| EconMarket.BandOrdered | src/starsim/economy/market.py:68-70 | for a non-negative base price and min multiplier <= max multiplier, min_bound <= max_bound |
| EconMarket.NewPriceWithinBounds | src/starsim/economy/market.py:62-73 | the adjusted and clamped price lies in [base*min_mult, base*max_mult] |
| EconMarket.NewPriceDirection | src/starsim/economy/market.py:51-63 | inside the band, stock below target raises a positive price, stock above target lowers it, stock at target keeps it |
| EconMarket.NonPositiveTargetLowersPrice | src/starsim/economy/market.py:53-56 | a target <= 0 counts as ratio 10.0, so the unclamped price falls |
| EconMarket.SeededEntries | src/starsim/economy/market.py:35-41 | the first loop keeps existing targets and prices and adds exactly the registry commodities that were missing |
| EconMarket.SeededFill | src/starsim/economy/market.py:37-41 | an added target is 10.0 and an added price is the commodity's base price |
| EconMarket.RepricedOk | src/starsim/economy/market.py:43-45 | the reprice loop succeeds exactly when every target commodity is registered; a missing one is the ValueError of registry.get |
| EconMarket.RepricedEntries | src/starsim/economy/market.py:43-73 | each target commodity's new price is the law applied to its own old price (or its base price when it had none), stock and target |
| EconMarket.RepricedFails | src/starsim/economy/market.py:45 | one unregistered target makes the whole loop raise |
| EconMarket.UpdatedPrices | src/starsim/economy/market.py:29-30 | a world without a market is unchanged; otherwise only its market changes |
| EconMarket.UpdatedMarket | src/starsim/economy/market.py:25-74 | update_prices keeps the inventory and the three parameters of the market |
| EconMarket.UpdatedMarketFails | src/starsim/economy/market.py:43-45 | the update fails exactly when some target, after seeding, is not in the registry |
| EconMarket.UpdatedMarketSeeds | src/starsim/economy/market.py:35-41 | after the update every registry commodity has a target and a price; a new target is 10.0 |
| EconMarket.UpdatedMarketAt | src/starsim/economy/market.py:43-73 | every target is registered and its price is the law applied to its seeded price |
| EconMarket.UpdatedMarketOwnPrice | src/starsim/economy/market.py:43-73 | a commodity that already had a target is repriced from its own old price, or its base price when it had no price |
| EconMarket.UpdatedMarketWithin | src/starsim/economy/market.py:67-73 | a law bounded for a commodity's base price keeps that commodity's price in the same bounds |
| EconMarket.MarketLawBanded | src/starsim/economy/market.py:62-73 | the concrete law of update_prices is bounded by the band of the base price |
| EconMarket.UpdatedMarketBounded | src/starsim/economy/market.py:67-73 | after update_prices every target commodity's price lies in [base*min_mult, base*max_mult] |
| EconMarket.UpdatedMarketPrice | src/starsim/economy/market.py:53-73 | each commodity that had a target moves by clamp(price * (1 + (1 - ratio) * factor)) from its own old price |
| EconMarket.SeedDefaults | src/starsim/economy/market.py:35-41 | the first loop in place leaves the market equal to SeededMarket of the old one |
| EconMarket.SeedOne | src/starsim/economy/market.py:36-41 | one commodity's missing target and price get their defaults; the parameters are unchanged |
| EconMarket.RepriceTargets | src/starsim/economy/market.py:43-73 | the second loop in place fails exactly when Repriced fails and otherwise leaves the prices Repriced yields |
| EconMarket.Reprice | src/starsim/economy/market.py:34-73 | one market in place becomes UpdatedMarket of the old one, failing exactly when it does |
| EconMarket.UpdatePrices | src/starsim/economy/market.py:25-74 | the world becomes UpdatedPrices of the old world and keeps its market object; it fails exactly when UpdatedPrices does |
| EconPopulation.Population.constructor | src/starsim/economy/consumption.py:12-16 | a population holds its size, growth rate and per-capita needs, plus the optional energy upkeep the upkeep stage reads |
| EconConsumption.ShortageRatioInUnit | src/starsim/economy/consumption.py:47-50 | with 0 <= consumed <= needed, the shortage ratio lies in [0,1] and is 0 exactly when the need was met in full |
| EconConsumption.ConsumedShare | src/starsim/economy/consumption.py:48 | (needed - consumed) / needed lies in [0,1] and is 0 exactly when consumed == needed |
| EconConsumption.Pressed | src/starsim/economy/consumption.py:58-63 | a ratio <= 0.1 leaves the pressures alone; above it scarcity rises by ratio*0.01 capped at 1, stability falls by ratio*0.05 floored at 0 and unrest rises by ratio*0.05 capped at 1; pressures in [0,1] stay there |
| EconConsumption.ConsumedOk | src/starsim/economy/consumption.py:38-44 | the needs loop succeeds exactly when no needed quantity is negative, and otherwise raises the ValueError of remove_clamped |
| EconConsumption.ConsumedKeepsBounds | src/starsim/economy/consumption.py:38-63 | pressures that start in [0,1] stay in [0,1] and no stock goes negative |
| EconConsumption.ConsumedOutside | src/starsim/economy/consumption.py:38-44 | a commodity that is not a need keeps its stock entry, or its absence |
| EconConsumption.ServedNeed | src/starsim/economy/consumption.py:44-50 | a need covered by the stock removes exactly the needed quantity and moves no pressure |
| EconConsumption.ConsumedFullyServed | src/starsim/economy/consumption.py:38-63 | when the stock covers every need, the pressures do not move |
| EconConsumption.ConsumedStopped | src/starsim/economy/consumption.py:38-44 | a need that raises stops the loop with that error |
| EconConsumption.ConsumedWorld | src/starsim/economy/consumption.py:19-28 | a world without a population or a market is unchanged; otherwise only the market stock and the three pressures change |
| EconConsumption.ConsumedWorldBounds | src/starsim/economy/consumption.py:19-63 | consume keeps the pressures in [0,1] and the stock non-negative, and leaves every commodity the population does not need as it was |
| EconConsumption.ConsumeNeeds | src/starsim/economy/consumption.py:38-63 | the loop in place leaves the inventory and pressures that Consumed gives, failing exactly when it does |
| EconConsumption.ConsumeOne | src/starsim/economy/consumption.py:39-63 | one need in place is ConsumeNeed of the old stock and pressures |
| EconConsumption.Consume | src/starsim/economy/consumption.py:19-63 | consume(world, tick) leaves the world equal to ConsumedWorld of the old world and keeps its market and population objects; it fails exactly when ConsumedWorld does |
| EconIndustry.Industry.constructor | src/starsim/economy/production.py:13-15 | an industry holds its recipe caps |
| EconProduction.InputBoundIsMinimum | src/starsim/economy/production.py:31-36 | max_possible_by_inputs is infinite exactly when no input has a positive quantity, and otherwise is the least available/qty over the positive inputs, attained by one of them |
| EconProduction.UnitsBounds | src/starsim/economy/production.py:39 | the units are at most the cap, the recipe's per-tick limit and every positive input's bound, and equal one of them |
| EconProduction.ScaledWithin | src/starsim/economy/production.py:36-44 | within an input's bound, qty*units does not exceed the input's stock |
| EconProduction.RemovedInputsAt | src/starsim/economy/production.py:43-44 | with distinct inputs, each input ends as one remove_clamped of qty*units from its own stock and every other commodity is unchanged |
| EconProduction.AddedOutputsAt | src/starsim/economy/production.py:47-48 | with distinct outputs, each output rises by exactly qty*units and every other commodity is unchanged |
| EconProduction.MovesKeepNonNegative | src/starsim/economy/production.py:41-48 | the removals and the additions keep every stock non-negative |
| EconProduction.RunRecipe | src/starsim/economy/production.py:39-48 | nothing moves unless the units are positive |
| EconProduction.IdleRecipe | src/starsim/economy/production.py:39-41 | a recipe whose per-tick limit is not positive never produces |
| EconProduction.RunRecipeInput | src/starsim/economy/production.py:39-44 | a positive input that is not an output drops by exactly qty*units, which the stock covers |
| EconProduction.RunRecipeOutput | src/starsim/economy/production.py:47-48 | an output that is not an input rises by exactly qty*units |
| EconProduction.RunRecipeOther | src/starsim/economy/production.py:41-48 | a commodity that is neither input nor output keeps its amount |
| EconProduction.RunRecipeNonNegative | src/starsim/economy/production.py:41-48 | a recipe run keeps every stock non-negative |
| EconProduction.ProducedUnknown | src/starsim/economy/production.py:28-29 | a cap naming an unregistered recipe makes produce raise the registry's ValueError |
| EconProduction.ProducedStopped | src/starsim/economy/production.py:28-29 | a failure part-way through the caps loop stays a failure |
| EconProduction.ProducedNonNegative | src/starsim/economy/production.py:28-48 | no stock goes negative during produce |
| EconProduction.ProducedWorld | src/starsim/economy/production.py:22-26 | a world without a market or an industry is unchanged; otherwise only the market stock changes |
| EconProduction.ProducedWorldSafe | src/starsim/economy/production.py:18-48 | produce keeps the stock non-negative, and an unregistered recipe among the caps makes it raise |
| EconProduction.AlloyScenario | src/starsim/economy/production.py:28-48 | 5 minerals and 2 energy per alloy at cap 10 with 100 of each: 10 units run, leaving 50 minerals, 80 energy and 10 alloy |
| EconProduction.AlloyEnergyLimited | src/starsim/economy/production.py:31-39 | with 1000 minerals and 10 energy the energy input limits the run to 5 units |
| EconProduction.InputBoundOf | src/starsim/economy/production.py:31-36 | the inner loop returns exactly InputBound of the inventory |
| EconProduction.RemoveInputs | src/starsim/economy/production.py:43-44 | the input loop in place leaves the stock RemovedInputs gives, failing exactly when it does |
| EconProduction.AddOutputs | src/starsim/economy/production.py:47-48 | the output loop in place leaves the stock AddedOutputs gives |
| EconProduction.ProduceRecipe | src/starsim/economy/production.py:29-48 | one pass of the caps loop in place is RunRecipe of the old stock |
| EconProduction.ProduceAll | src/starsim/economy/production.py:28-48 | the caps loop in place is Produced of the old stock, failing exactly when it does |
| EconProduction.Produce | src/starsim/economy/production.py:18-48 | produce(world, state) leaves the world equal to ProducedWorld of the old world, failing exactly when it does |
| EconUpkeep.DeficitRatioInUnit | src/starsim/economy/upkeep.py:33-37 | with 0 <= consumed <= upkeep, the deficit ratio lies in [0,1] and is positive when the upkeep was not covered |
| EconUpkeep.Penalized | src/starsim/economy/upkeep.py:40-41 | max(0, x - ratio*0.05) is non-negative, never above x for a non-negative ratio, and stays in [0,1] |
| EconUpkeep.Throttled | src/starsim/economy/upkeep.py:45 | a throttled cap is never negative |
| EconUpkeep.ThrottledAtMost | src/starsim/economy/upkeep.py:45 | for a ratio in [0,1] a throttled cap never exceeds the cap it came from |
| EconUpkeep.ThrottledCapsAt | src/starsim/economy/upkeep.py:44-45 | the throttling loop keeps the keys and their order and throttles each listed cap exactly once |
| EconUpkeep.Upkept | src/starsim/economy/upkeep.py:24-45 | the upkeep succeeds exactly when total_energy_upkeep is non-negative; otherwise remove_clamped raises ValueError |
| EconUpkeep.UpkeptWorld | src/starsim/economy/upkeep.py:16-21 | a world without a market, a population or an industry is unchanged; otherwise only the stock, stability, prosperity and caps change |
| EconUpkeep.UpkeepCovered | src/starsim/economy/upkeep.py:32-35 | when the energy covers the upkeep, exactly the upkeep is removed and nothing else changes |
| EconUpkeep.UpkeepDeficit | src/starsim/economy/upkeep.py:35-45 | with a deficit the ratio lies in (0,1], stability and prosperity drop by ratio*0.05 floored at 0 and every cap is throttled |
| EconUpkeep.UpkeptShort | src/starsim/economy/upkeep.py:32-33 | when the stock falls short the whole energy stock is removed |
| EconUpkeep.UpkeepBounds | src/starsim/economy/upkeep.py:32-45 | apply_upkeep keeps stability and prosperity in [0,1], the stock non-negative and each cap between 0 and its old value |
| EconUpkeep.UpkeepScenario | src/starsim/economy/upkeep.py:24-45 | 1000 people at 0.01 with caps 10 and 5 need 11.5 energy; from 100 energy 88.5 remain and nothing else changes |
| EconUpkeep.ThrottleCaps | src/starsim/economy/upkeep.py:44-45 | the throttling loop in place leaves the caps ThrottledCaps gives |
| EconUpkeep.SumCaps | src/starsim/economy/upkeep.py:27 | the loop returns the sum of the cap values |
| EconUpkeep.PayUpkeep | src/starsim/economy/upkeep.py:24-45 | the body in place leaves the stock, stability, prosperity and caps that Upkept gives, failing exactly when it does |
| EconUpkeep.ApplyUpkeep | src/starsim/economy/upkeep.py:12-45 | apply_upkeep leaves the world equal to UpkeptWorld of the old world, failing exactly when it does |
| EconInvestment.Available | src/starsim/economy/investment.py:29 | the filtered candidates are exactly those that are keys of the caps, in candidate order, without repeats |
| EconInvestment.InvestedShort | src/starsim/economy/investment.py:22 | below the needed stock nothing changes and no random draw is made |
| EconInvestment.InvestedSpends | src/starsim/economy/investment.py:22-23 | with enough stock exactly the needed amount is removed by remove_clamped, whether or not a recipe is eligible |
| EconInvestment.InvestedKeepsKeys | src/starsim/economy/investment.py:29-33 | the caps keep their keys and order, and without a draw they are unchanged |
| EconInvestment.InvestedRaisesOne | src/starsim/economy/investment.py:22-33 | a draw is made exactly when the stock suffices and some candidate is a caps key; then exactly the chosen candidate's cap rises by 1 |
| EconInvestment.InvestedWorld | src/starsim/economy/investment.py:16-17 | a world without a market or an industry is unchanged and makes no draw; otherwise only the stock and the caps change |
| EconInvestment.MilitaryScenario | src/starsim/economy/investment.py:44-58 | with 12 alloy and refine_alloy the only military cap, 5 alloy are spent and refine_alloy goes from 2 to 3 |
| EconInvestment.InvestIn | src/starsim/economy/investment.py:22-33 | the body in place leaves the stock and caps Invested gives and advances the generator only when a draw was made |
| EconInvestment.Invest | src/starsim/economy/investment.py:12-33 | the shared shape in place leaves the world InvestedWorld gives |
| EconInvestment.InvestCivilian | src/starsim/economy/investment.py:12-33 | invest_civilian spends 10 minerals for one cap unit on farm_food, mine_minerals or refine_consumer_goods, as InvestedWorld states |
| EconInvestment.InvestMilitary | src/starsim/economy/investment.py:37-58 | invest_military spends 5 alloy for one cap unit on refine_alloy or assemble_alloys, as InvestedWorld states |
| EconTrade.OfferedQuantity | src/starsim/economy/trade.py:44 | the quantity offered is min(stock, 10): at most each, and equal to one of them |
| EconTrade.Offer | src/starsim/economy/trade.py:40-55 | one direction of one lane gives at most one shipment |
| EconTrade.ConcatMapMembers | src/starsim/economy/trade.py:19-72 | a shipment is in the nested loops' output exactly when one iteration produced it |
| EconTrade.CandidateTradesSound | src/starsim/economy/trade.py:13-72 | every candidate is an offer of some known lane for some registered commodity |
| EconTrade.CandidateTradesComplete | src/starsim/economy/trade.py:13-72 | every offer of a known lane for a registered commodity is a candidate |
| EconTrade.PairOfferFacts | src/starsim/economy/trade.py:40-71 | a pair offer rides the lane between its two endpoints, both with markets, carries the commodity with 0 < qty <= min(stock, 10) and arrives at tick + round(distance) |
| EconTrade.CandidateFacts | src/starsim/economy/trade.py:19-72 | every candidate rides a known lane between its endpoints, both known worlds with markets, carries a registered commodity and a quantity in (0, min(source stock, 10)] |
| EconTrade.OfferExactly | src/starsim/economy/trade.py:30-55 | for a commodity priced in both markets, the A-to-B candidate exists exactly when price_b - price_a - shipping cost > 0.1 and A holds some stock |
| EconTrade.TradeScenario | src/starsim/economy/trade.py:13-72 | food at 8 on one world with 5 in stock and 15 on the other, over a lane of distance 1, gives exactly one candidate of 5 units arriving a tick later |
| EconTrade.Touched | src/starsim/economy/trade.py:89 | reading the tracker through its defaultdict inserts a 0.0 entry for the lane and changes no used value |
| EconTrade.AcceptedStopped | src/starsim/economy/trade.py:86-98 | a candidate that raises stops the acceptance loop with that error |
| EconTrade.AcceptKeeps | src/starsim/economy/trade.py:87-98 | one acceptance keeps every lane's used capacity within max(0, capacity) and every stock non-negative |
| EconTrade.AcceptedKeeps | src/starsim/economy/trade.py:86-98 | the acceptance loop keeps used capacity within every lane's capacity and every stock non-negative |
| EconTrade.AcceptSameWorlds | src/starsim/economy/trade.py:93-94 | one acceptance changes nothing of any world but a market stock |
| EconTrade.AcceptedSameWorlds | src/starsim/economy/trade.py:86-98 | the acceptance loop changes only market stocks |
| EconTrade.DeliveredStopped | src/starsim/economy/trade.py:107-113 | a shipment that cannot be delivered stops the delivery loop with that error |
| EconTrade.Due | src/starsim/economy/trade.py:108-111 | the arrived shipments are exactly the active ones with eta_tick <= tick |
| EconTrade.Pending | src/starsim/economy/trade.py:112-113 | the remaining shipments are exactly the active ones with eta_tick > tick |
| EconTrade.DuePendingPartition | src/starsim/economy/trade.py:107-115 | arrived and remaining shipments together are, as a multiset, exactly the active ones |
| EconTrade.DeliveredSplits | src/starsim/economy/trade.py:104-115 | the loop sends exactly the due shipments, in order, to the arrived list and the others, in order, to the remaining list |
| EconTrade.DeliverSplits | src/starsim/economy/trade.py:108-113 | one step appends the shipment to exactly one of the two lists |
| EconTrade.DeliveredKeeps | src/starsim/economy/trade.py:107-113 | the loop fails exactly when some due shipment's destination is unknown (KeyError) or has no market (AttributeError); otherwise it changes only stocks and keeps them non-negative |
| EconTrade.DeliverKeeps | src/starsim/economy/trade.py:108-113 | one step fails exactly when the shipment is due and cannot be delivered |
| EconTrade.DeliveredCredits | src/starsim/economy/trade.py:107-111 | each world with a market receives exactly the quantities due to it |
| EconTrade.AcceptedBooks | src/starsim/economy/trade.py:79-101 | with new trades disallowed nothing is accepted and the tracker is empty; otherwise process_trade continues from the books the acceptance loop left |
| EconTrade.ProcessedTradeBounded | src/starsim/economy/trade.py:75-116 | after process_trade no lane carries more than max(0, capacity) this tick and every stock stays non-negative |
| EconTrade.ProcessedTradeShipments | src/starsim/economy/trade.py:97-115 | the shipments handled are the old active ones followed by the accepted candidates; the arrived are the due ones and the new active list the pending ones |
| EconTrade.ProcessedTradeSameWorlds | src/starsim/economy/trade.py:75-116 | process_trade changes nothing of a world but its market stock |
| EconTrade.ProcessedTradeDisallowed | src/starsim/economy/trade.py:83 | with allow_new_trades false no shipment is added and no lane capacity is used |
| EconTrade.AcceptCandidate | src/starsim/economy/trade.py:87-98 | one candidate in place leaves the worlds, active shipments and tracker that Accept gives |
| EconTrade.DeliverShipment | src/starsim/economy/trade.py:108-113 | one active shipment in place is Deliver of the old worlds |
| EconTrade.AcceptAll | src/starsim/economy/trade.py:86-101 | the acceptance loop in place is Accepted of the old books, failing exactly when it does |
| EconTrade.DeliverAll | src/starsim/economy/trade.py:104-113 | the delivery loop in place returns the arrived and kept lists Delivered gives |
| EconTrade.ProcessTrade | src/starsim/economy/trade.py:75-116 | process_trade leaves the worlds, active shipments and tracker ProcessedTrade gives and returns the arrived shipments, failing exactly when it does |
| EconRecipes.DefaultRecipe | src/starsim/economy/recipes.py:11-17 | a recipe written without its optional fields has no inputs, no outputs and a per-tick limit of 0.0 |
| EconRecipes.QuantityMap | src/starsim/economy/recipes.py:35-36 | a missing inputs or outputs key gives the empty mapping |
| EconRecipes.ParseRecipe | src/starsim/economy/recipes.py:32-38 | an entry loads only with id and name present, under its own id; a missing inputs, outputs or max_production_units_per_tick takes its default |
| EconRecipes.RecipeRegistry.constructor | src/starsim/economy/recipes.py:21-22 | a new registry is empty |
| EconRecipes.RecipeRegistry.Load | src/starsim/economy/recipes.py:28-39 | None data is the ValueError and changes nothing; data that cannot be iterated raises and changes nothing; otherwise the registry is LoadEach over the iterated items |
| EconRecipes.RecipeRegistry.Get | src/starsim/economy/recipes.py:41-44 | get succeeds exactly for a registered id and returns its recipe; otherwise ValueError |
| EconRecipes.RecipeRegistry.AllRecipes | src/starsim/economy/recipes.py:46-47 | all_recipes lists every registered recipe in registration order |
| EconCommodities.ParseCommodity | src/starsim/economy/commodities.py:26-31 | an entry loads only with id, name, base_price and perishable present, under its own id, with its base price |
| EconCommodities.LoadKeepsIdsMatch | src/starsim/economy/commodities.py:25-32 | the load loop keeps every commodity registered under its own id |
| EconCommodities.CommodityRegistry.constructor | src/starsim/economy/commodities.py:18-19 | a new registry is empty |
| EconCommodities.CommodityRegistry.Load | src/starsim/economy/commodities.py:21-32 | data that cannot be iterated (None among it) raises and changes nothing; otherwise the registry is LoadEach over the iterated items |
| EconCommodities.CommodityRegistry.Get | src/starsim/economy/commodities.py:34-37 | get succeeds exactly for a registered id and returns its commodity; otherwise ValueError |
| EconCommodities.CommodityRegistry.AllCommodities | src/starsim/economy/commodities.py:39-40 | all_commodities lists every registered commodity in registration order |
| Docs.Field | src/starsim/events/registry.py:22 | d[key] succeeds exactly when d is a mapping holding the key, and returns its value; otherwise a TypeError or KeyError |
| Docs.FieldOr | src/starsim/events/registry.py:23-25 | d.get(key, default) succeeds exactly on a mapping and returns the value or the default |
| Registries.PutAll | src/starsim/events/registry.py:27 | storing parsed entries one after another keeps the registry well formed |
| Registries.PutAllLastWins | src/starsim/events/registry.py:20-27 | the last entry loaded under an id is the one that stays registered |
| Registries.PutAllKeys | src/starsim/events/registry.py:20-27 | exactly the earlier ids and the loaded ids are registered, and earlier entries not reloaded are kept |
| Docs.Iterated | src/starsim/events/registry.py:20 | for-iteration succeeds exactly on a list, a string or a mapping: a list yields its items, a string one-character strings, a mapping its keys |
| Registries.LoadEachStrings | src/starsim/events/registry.py:20-22 | string entries, which no entry parser accepts, leave the registry as it was, and the load succeeds only when there are none |
| Registries.LoadNonList | src/starsim/economy/recipes.py:31-34 | loading a string or a mapping changes no entry and succeeds exactly when the string or the mapping is empty |
| Registries.ParseAll | src/starsim/events/registry.py:20-26 | parsing succeeds exactly when every entry parses, each result that entry's parse |
| Registries.LoadEachIsPutAll | src/starsim/events/registry.py:20-27 | the load loop succeeds exactly when every entry parses, and then equals storing them all; otherwise it fails with the first entry's error |
| Registries.LoadEachStopped | src/starsim/events/registry.py:20-27 | once an entry has raised, later entries change nothing |
| EventRegistry.ListField | src/starsim/events/registry.py:24-25 | e.get(key, []) gives [] for a missing key and the list itself otherwise |
| EventRegistry.ParseEvent | src/starsim/events/registry.py:21-26 | an entry loads only with an id, under that id; base_weight defaults to 1.0 and conditions and effects to [] |
| EventRegistry.EventRegistry.constructor | src/starsim/events/registry.py:10-11 | a new registry is empty |
| EventRegistry.EventRegistry.Load | src/starsim/events/registry.py:13-27 | None data is the ValueError and changes nothing; data that cannot be iterated raises and changes nothing; otherwise the registry is LoadEach over the iterated items |
| EventRegistry.EventRegistry.Get | src/starsim/events/registry.py:29-32 | get succeeds exactly for a registered id and returns its event; otherwise ValueError |
| EventRegistry.EventRegistry.AllEvents | src/starsim/events/registry.py:34-35 | all_events lists every registered event in registration order |
| CoreSim.Ranks | src/starsim/core/sim.py:28-125 | each entry kind belongs to its stage, numbered in the order the six stages run |
| CoreSim.CountOtherStage | src/starsim/core/sim.py:28-125 | an entry kind of another stage never occurs among a stage's entries |
| CoreSim.KeptConsistent | src/starsim/core/sim.py:28-104 | the world-to-lane consistency the faction and event stages rely on survives the economic stages |
| CoreSim.SameWorldsKept | src/starsim/core/sim.py:69 | process_trade changes only stocks, so it keeps what the economic stages keep |
| CoreSim.ConsumptionAt | src/starsim/core/sim.py:29-44 | a world with a population and a market is consumed and logs one impact entry, with old and new stability and unrest, exactly when stability or unrest moved; any other world logs the no-consumption entry |
| CoreSim.ChangesFacts | src/starsim/core/sim.py:53-55 | produced_items holds exactly the commodities of either inventory whose amount moved, each with final minus initial, and is non-empty exactly when the inventory changed |
| CoreSim.ChangesObjFacts | src/starsim/core/sim.py:63 | the "changes" object has exactly the moved commodities as keys, each with its difference as a float |
| CoreSim.OutputDetailsFacts | src/starsim/core/sim.py:53-63 | the production entry's details are {"changes": produced_items}, whose keys are exactly the moved commodities with their differences, non-empty exactly when the inventory moved |
| CoreSim.ProductionAt | src/starsim/core/sim.py:47-66 | a world with an industry and a market is produced and logs one output entry with the changes exactly when its inventory moved; any other world logs the no-production entry |
| CoreSim.PriceEntries | src/starsim/core/sim.py:92-102 | the logging loop fails exactly when a priced commodity is unregistered, and every entry is a price update of this world at this tick |
| CoreSim.PriceEntryNames | src/starsim/core/sim.py:95-102 | a price entry names its commodity |
| CoreSim.PriceEntriesMoved | src/starsim/core/sim.py:92-102 | one entry is logged for a commodity exactly when its price moved from the old price, which defaults to the base price, with delta new minus old |
| CoreSim.PriceEntriesAbsent | src/starsim/core/sim.py:92 | no entry names a commodity that has no price |
| CoreSim.PricesAt | src/starsim/core/sim.py:88-104 | a world with a market has its prices updated and logs PriceEntries over the new prices; a world without one logs the no-prices entry |
| CoreSim.ConsumptionAtFacts | src/starsim/core/sim.py:29-44 | the consumption stage on one world keeps every field the stage does not own and logs at this tick entries of stage 1 only |
| CoreSim.ProductionAtFacts | src/starsim/core/sim.py:47-66 | the production stage on one world keeps every field the stage does not own and logs at this tick entries of stage 2 only |
| CoreSim.PricesAtFacts | src/starsim/core/sim.py:88-104 | the price stage on one world keeps every field the stage does not own and logs at this tick entries of stage 4 only |
| CoreSim.AtWorld | src/starsim/core/sim.py:29-104 | a stage on one world keeps what the stage keeps and logs only its own entries |
| CoreSim.WorldStage | src/starsim/core/sim.py:29 | a world loop keeps every world's id and components and logs at this tick only entries of its stage |
| CoreSim.WorldStageStopped | src/starsim/core/sim.py:29-44 | a world whose stage raises stops the loop with that error |
| CoreSim.WorldStageNoOps | src/starsim/core/sim.py:43-44 | each world that lacks the stage's component gets exactly one no-op entry and every other world none |
| CoreSim.StageAtCount | src/starsim/core/sim.py:43-44 | one world's stage logs a no-op entry for that world exactly when it lacks the component |
| CoreSim.TradeEntries | src/starsim/core/sim.py:70-85 | the trade entries are logged at this tick and belong to the trade stage |
| CoreSim.TradeCounted | src/starsim/core/sim.py:70-85 | one en-route entry exactly when a shipment is active, one arrivals entry exactly when a shipment arrived, and the no-trade entry exactly when none arrived |
| CoreSim.EffectsRun | src/starsim/core/sim.py:115-123 | applying an event's effects keeps the universe consistent and its shape, and logs one triggered entry per effect |
| CoreSim.Triggered | src/starsim/core/sim.py:113-123 | the event loop keeps the universe consistent and logs exactly one entry per applied effect; a target that is not a world is a KeyError |
| CoreSim.EffectsRunStopped | src/starsim/core/sim.py:115-116 | an effect that raises stops the run |
| CoreSim.TriggeredStopped | src/starsim/core/sim.py:113-116 | an event that raises stops the loop |
| CoreSim.Made | src/starsim/core/sim.py:28-66 | consumption then production keep every world's id and components and log only their own stage's entries |
| CoreSim.Marketed | src/starsim/core/sim.py:68-104 | trade then prices keep every world's id and components and log only their own stage's entries |
| CoreSim.Economic | src/starsim/core/sim.py:28-104 | the four economic stages keep every world's components and log trade entries built from the shipments process_trade left |
| CoreSim.EconomicOrdered | src/starsim/core/sim.py:28-104 | the economic entries come in stage order and carry the tick |
| CoreSim.Later | src/starsim/core/sim.py:106-125 | factions then events pick at most one event and log one entry per applied effect, keeping the universe consistent |
| CoreSim.PickedAtMostOne | src/starsim/core/sim.py:111 | generate_events with its default count picks at most one event |
| CoreSim.Stepped | src/starsim/core/sim.py:20-130 | a tick runs the six stages in order, picks at most one event, keeps the universe consistent and raises the tick by one |
| CoreSim.Finished | src/starsim/core/sim.py:106-130 | after the economic stages, factions and events run and the tick rises by one |
| CoreSim.TickLogOrdered | src/starsim/core/sim.py:24-125 | every entry of a tick carries the tick the step started at, and no entry of a later stage precedes one of an earlier stage |
| CoreSim.SteppedOrdered | src/starsim/core/sim.py:20-130 | the log of step is in stage order and every entry carries the starting tick |
| CoreSim.TickLogSingles | src/starsim/core/sim.py:107-125 | a tick logs exactly one factions entry, the no-event entry exactly when no event was picked, and one triggered entry per applied effect |
| CoreSim.TickLogTrade | src/starsim/core/sim.py:70-85 | the trade kinds in a tick's log are counted as in the trade entries |
| CoreSim.SteppedCounts | src/starsim/core/sim.py:69-125 | one factions entry; the no-event entry exactly when no event was picked, else one entry per effect; the en-route entry exactly when shipments are active after trade; the arrivals entry exactly when some arrived, else the no-trade entry |
| CoreSim.SteppedNoOps | src/starsim/core/sim.py:43-104 | each world gets one no-consumption, one no-production and one no-prices entry exactly when it lacks what that stage needs, and none otherwise |
| CoreSim.PriceEntriesStopped | src/starsim/core/sim.py:93 | an unregistered priced commodity makes the logging loop raise the registry's ValueError |
| CoreSim.ConsumeAt | src/starsim/core/sim.py:30-44 | one world of the consumption loop in place: the world becomes ConsumptionAt's and its entries are appended |
| CoreSim.ProduceAt | src/starsim/core/sim.py:48-66 | one world of the production loop in place: the world becomes ProductionAt's and its entries are appended |
| CoreSim.PriceAt | src/starsim/core/sim.py:89-104 | one world of the price loop in place: the world becomes PricesAt's and its entries are appended |
| CoreSim.LogPrices | src/starsim/core/sim.py:92-102 | the logging loop appends exactly PriceEntries |
| CoreSim.LogPrice | src/starsim/core/sim.py:94-102 | an entry is appended exactly when the old and new prices differ |
| CoreSim.StageWorld | src/starsim/core/sim.py:29-104 | one world's turn in a stage in place is AtWorld of the old world |
| CoreSim.RunStage | src/starsim/core/sim.py:29 | a world loop in place leaves the worlds and appends the entries WorldStage gives, failing exactly when it does |
| CoreSim.LogTrade | src/starsim/core/sim.py:70-85 | the trade entries after process_trade are appended |
| CoreSim.RunEffects | src/starsim/core/sim.py:115-123 | the effect loop in place is EffectsRun of the old universe |
| CoreSim.RunEvents | src/starsim/core/sim.py:112-123 | the event loop in place is Triggered of the old universe |
| CoreSim.RunMade | src/starsim/core/sim.py:28-66 | consumption and production in place are Made of the old worlds |
| CoreSim.RunMarketed | src/starsim/core/sim.py:68-104 | trade and prices in place are Marketed of the old worlds and shipments |
| CoreSim.RunEconomy | src/starsim/core/sim.py:28-104 | the four economic stages in place are Economic of the old universe and change no registry |
| CoreSim.RunLater | src/starsim/core/sim.py:106-125 | factions and events in place are Later of the old universe |
| CoreSim.Step | src/starsim/core/sim.py:20-130 | step(state) returns a fresh log holding exactly the log Stepped gives and the new tick, and leaves the state Stepped gives; it fails exactly when Stepped does |
| CoreSim.StepInto | src/starsim/core/sim.py:24-128 | the stages log into the step's log and leave the state Stepped gives |
| CoreSim.StepRest | src/starsim/core/sim.py:106-128 | the factions and event stages and the tick update leave the state Finished gives |
| SaveLoad.KeysOf | src/starsim/io/save_load.py:83-84 | a map's keys are listed once each, and every key is listed |
| SaveLoad.FloatMap | src/starsim/io/save_load.py:34-36 | a mapping of reals is written as a mapping of floats with the same keys and values |
| SaveLoad.StrList | src/starsim/io/save_load.py:28 | list(world.tags) writes every tag as a string, in order |
| SaveLoad.Listed | src/starsim/io/save_load.py:58-68 | [enc(x) for x in d.values()] encodes every value in key order |
| SaveLoad.ShipmentList | src/starsim/io/save_load.py:70-80 | every active shipment is written, in order |
| SaveLoad.AsInt | src/starsim/io/save_load.py:209 | a value used as an int succeeds exactly on an integer (a bool counts) |
| SaveLoad.OptStrOf | src/starsim/io/save_load.py:210 | an optional lane id reads back a missing key or null as None and a string as itself |
| SaveLoad.RestoredFaction | src/starsim/io/save_load.py:122-129 | a faction entry loads only with an id and a name, under that id, with traits as a set and weights defaulting to {} |
| SaveLoad.FactionStateFrom | src/starsim/io/save_load.py:161-172 | a world's faction state reads influence and garrison as plain dictionaries, the thresholds defaulting to 0.7 and 0.4, and control present exactly when the stored control is truthy |
| SaveLoad.RestoredWorld | src/starsim/io/save_load.py:132-188 | a world entry loads only with an id, under that id, and its control is copied from its faction state |
| SaveLoad.RestoredLane | src/starsim/io/save_load.py:190-199 | a lane entry loads only with an id, under that id, with distance, hazard and capacity defaulting to 1.0, 0.0 and 1.0 |
| SaveLoad.Shipments | src/starsim/io/save_load.py:201-212 | the shipments loop succeeds exactly when every entry restores, and then gives each entry's shipment, in order |
| SaveLoad.OptionalEntries | src/starsim/io/save_load.py:121-122 | an absent optional key gives no entries; a present one is iterated |
| SaveLoad.TrackerFrom | src/starsim/io/save_load.py:214-218 | without a stored tracker the tracker is a fresh defaultdict; with one it is a plain dict of the stored usage |
| SaveLoad.StockRoundTrip | src/starsim/io/save_load.py:136-138 | a non-negative inventory written by to_dict comes back from the add loop as it was; to_dict writes it at line 34 |
| SaveLoad.FloatMapRoundTrip | src/starsim/io/save_load.py:139-140 | prices and targets come back as they were written; to_dict writes it at lines 35-36 |
| SaveLoad.LaneRoundTrip | src/starsim/io/save_load.py:190-199 | every lane comes back unchanged; to_dict writes it at lines 58-68 |
| SaveLoad.ShipmentRoundTrip | src/starsim/io/save_load.py:201-212 | every shipment comes back unchanged; to_dict writes it at lines 70-80 |
| SaveLoad.EventRoundTrip | src/starsim/io/save_load.py:220-229 | every event definition comes back unchanged; to_dict writes it at lines 96-104 |
| SaveLoad.TagsRoundTrip | src/starsim/io/save_load.py:180 | distinct tags come back from set(...) as they were; to_dict writes it at line 28 |
| SaveLoad.FactionRoundTrip | src/starsim/io/save_load.py:120-129 | a faction comes back with its id, name, traits and weights, and the unwritten fields at their defaults; to_dict writes it at lines 86-94 |
| SaveLoad.MarketRoundTrip | src/starsim/io/save_load.py:133-141 | a market comes back with its stock, prices and targets, and the controller parameters at their defaults; to_dict writes it at lines 32-37 |
| SaveLoad.PopulationRoundTrip | src/starsim/io/save_load.py:143-151 | a population comes back with its size, growth rate and needs, and no energy upkeep; to_dict writes it at lines 38-43 |
| SaveLoad.IndustryRoundTrip | src/starsim/io/save_load.py:153-157 | an industry comes back unchanged; to_dict writes it at lines 44-47 |
| SaveLoad.FactionStateRoundTrip | src/starsim/io/save_load.py:159-172 | a faction state with a non-empty control comes back with its values as plain dictionaries; to_dict writes it at lines 48-55 |
| SaveLoad.EmptyControlDropped | src/starsim/io/save_load.py:165 | an empty control id is falsy and reads back as no control |
| SaveLoad.FactionStateReadBack | src/starsim/io/save_load.py:159-172 | any stored faction state reads back normalised, with an empty control dropped; to_dict writes it at lines 48-55 |
| SaveLoad.PutSomeFields | src/starsim/io/save_load.py:32-55 | a component key is written exactly when the component is present and holds its encoding |
| SaveLoad.WorldDictFields | src/starsim/io/save_load.py:22-55 | a world's mapping holds the eight plain fields and exactly the keys of the components it has |
| SaveLoad.WorldRoundTrip | src/starsim/io/save_load.py:131-188 | a world comes back with the fields to_dict wrote and its components normalised; to_dict writes it at lines 21-56 |
| SaveLoad.FactionsRestored | src/starsim/io/save_load.py:120-129 | the factions come back normalised, in their order; to_dict writes it at lines 86-94 |
| SaveLoad.WorldsRestored | src/starsim/io/save_load.py:131-188 | the worlds come back normalised, in their order; to_dict writes it at lines 20-56 |
| SaveLoad.LanesRestored | src/starsim/io/save_load.py:190-199 | the lanes come back unchanged, in their order; to_dict writes it at lines 58-68 |
| SaveLoad.EventsRestored | src/starsim/io/save_load.py:220-229 | the events come back unchanged, in their order; to_dict writes it at lines 96-104 |
| SaveLoad.ShipmentsRestored | src/starsim/io/save_load.py:201-212 | the shipments come back unchanged, in their order; to_dict writes it at lines 70-80 |
| SaveLoad.TrackerFromFloats | src/starsim/io/save_load.py:214-218 | the stored lane usage comes back as it was, as a plain dict; to_dict writes it at lines 82-84 |
| SaveLoad.RoundTrip | src/starsim/io/save_load.py:18-241 | from_dict(to_dict(state)) succeeds and gives back the state's contents in normal form: seed, tick, worlds, lanes, shipments, usage, factions and events |
| SaveLoad.WorldDictNormal | src/starsim/io/save_load.py:22-55 | to_dict writes no coordinate, planet, market parameter or energy upkeep of a world |
| SaveLoad.FactionDictNormal | src/starsim/io/save_load.py:86-94 | to_dict writes no color, capital or resource desire of a faction |
| SaveLoad.ToDictNormal | src/starsim/io/save_load.py:18-115 | to_dict cannot tell a state from its normal form |
| SaveLoad.SaveIsStable | src/starsim/io/save_load.py:18-241 | saving what was loaded from a save writes the same document, and loading that gives the same contents again |
| SaveLoad.NegativeStockRejected | src/starsim/io/save_load.py:137-138 | a negative stored stock makes inventory.add raise, so the market cannot be restored |
| SaveLoad.MarketFailureRejectsWorld | src/starsim/io/save_load.py:134-141 | a world whose market cannot be restored cannot be restored either |
| SaveLoad.WorldFailureRejected | src/starsim/io/save_load.py:132-188 | a world entry that cannot be restored makes from_dict raise |
| SaveLoad.RestoreEach | src/starsim/io/save_load.py:120-188 | a restoring loop returns the entries keyed by id, or the first error |
| SaveLoad.RestoreShipments | src/starsim/io/save_load.py:203-212 | the shipments loop returns exactly Shipments of the entries |
| SaveLoad.ShipmentsStop | src/starsim/io/save_load.py:203-212 | a failing entry after a good prefix makes the loop fail with its error |
| SaveLoad.LoadSnapshot | src/starsim/io/save_load.py:118-241 | from_dict run loop by loop returns exactly FromDict of the document |
| WorldLoad.GetOr | src/starsim/world/load.py:29 | `.get` succeeds exactly on a mapping and returns the value under the key or the default; anything else is an AttributeError |
| WorldLoad.ItemsOf | src/starsim/world/load.py:55 | `.items()` succeeds exactly on a mapping and yields its entries in order |
| WorldLoad.IdsOf | src/starsim/world/load.py:40 | the id list succeeds exactly when every entry has an "id" key, and holds those ids in entry order |
| WorldLoad.Unique | src/starsim/world/load.py:41-42 | the duplicate check passes exactly when all ids are hashable and no two are equal as set elements (1 and 1.0 collide); with hashable repeats it raises the given schema error |
| WorldLoad.AddStepIsAdded | src/starsim/world/load.py:56 | one inventory.add with a number adds that quantity; with a non-number it is a TypeError |
| WorldLoad.StockFromOk | src/starsim/world/load.py:55-56 | filling an inventory succeeds exactly when every quantity is a non-negative number |
| WorldLoad.FilledWithStep | src/starsim/world/load.py:55-56 | each add of a valid quantity extends the filled inventory by that commodity |
| WorldLoad.StockFromValues | src/starsim/world/load.py:55-56 | a successful fill of an empty inventory holds every quantity read so far |
| WorldLoad.StockFromAll | src/starsim/world/load.py:55-56 | with all quantities valid, the filled inventory is exactly the mapping read as numbers |
| WorldLoad.StockFromFails | src/starsim/world/load.py:55-56 | once an add has failed, the whole fill fails |
| WorldLoad.FillInventory | src/starsim/world/load.py:54-56 | the add loop succeeds exactly when StockFrom does and leaves the inventory holding its result |
| WorldLoad.MarketFrom | src/starsim/world/load.py:52-59 | a market is built with the default price factor and multipliers, a non-negative inventory and well-formed price and target maps |
| WorldLoad.PopulationFrom | src/starsim/world/load.py:61-69 | a population takes size and growth_rate from the entry with defaults 0 and 0.0 and no energy upkeep |
| WorldLoad.IndustryFrom | src/starsim/world/load.py:71-75 | an industry is built from a mapping and its caps are well formed |
| WorldLoad.Dedup | src/starsim/world/load.py:83 | set() of the tags keeps each tag once and no other |
| WorldLoad.TagsFrom | src/starsim/world/load.py:83 | tags read successfully exactly from a list of strings, giving each listed tag once |
| WorldLoad.PartsFrom | src/starsim/world/load.py:51-75 | market and industry are present exactly when their keys are; population exactly when its key is present and not null; the market is MarketFrom of the entry |
| WorldLoad.WorldFrom | src/starsim/world/load.py:77-89 | a built world takes its id from the entry's "id" |
| WorldLoad.WorldFromMeans | src/starsim/world/load.py:77-89 | a built world has the entry's name, stability/prosperity/tech defaulting to 1.0, scarcity/unrest defaulting to 0.0, the tag set of the entry, no factions, control or planets, and components present exactly as PartsFrom says |
| WorldLoad.KeyedIds | src/starsim/world/load.py:77 | after a dict-assignment loop every value is stored under its own key |
| WorldLoad.KeyedValid | src/starsim/world/load.py:77 | the assignment loop's dictionary keeps each key once |
| WorldLoad.KeyedOk | src/starsim/world/load.py:49-89 | the loop succeeds exactly when every entry built |
| WorldLoad.KeyedStepIsPut | src/starsim/world/load.py:77 | one successful iteration stores its value under its key |
| WorldLoad.KeyedHasAll | src/starsim/world/load.py:77 | after a successful loop every built entry's key is present |
| WorldLoad.KeyedFirstFailure | src/starsim/world/load.py:49-89 | the loop fails with the error of the first entry that fails |
| WorldLoad.KeyedFails | src/starsim/world/load.py:49-89 | once the loop has failed it stays failed with that error |
| WorldLoad.KeyedStops | src/starsim/world/load.py:49-89 | a failing entry after a good prefix makes the whole loop fail with its error |
| WorldLoad.KeyedFrom | src/starsim/world/load.py:77 | every stored value is one of the built entries |
| WorldLoad.KeyedInOrder | src/starsim/world/load.py:77 | with distinct keys the dictionary lists the entries in loop order, each under its key |
| WorldLoad.LaneFrom | src/starsim/world/load.py:92-109 | a built lane names two known worlds and takes its id from the entry |
| WorldLoad.LaneFromMeans | src/starsim/world/load.py:94-109 | a lane's endpoints are the entry's a and b; distance, hazard and capacity default to 1.0, 0.0 and 1.0; an unknown a, then an unknown b, raises the schema error naming it |
| WorldLoad.CheckedEntries | src/starsim/world/load.py:34-46 | entries pass exactly as iterated, all with an id and no repeated id |
| WorldLoad.CheckedEntriesRejects | src/starsim/world/load.py:40-46 | two entries with equal hashable ids make the duplicate check fail |
| WorldLoad.EntriesOf | src/starsim/world/load.py:29-46 | the seed is present and not null, and worlds and lanes pass the duplicate checks |
| WorldLoad.LoadedRejectsNoSeed | src/starsim/world/load.py:25-31 | a null document gives None; a non-mapping is an AttributeError; a missing or null seed raises UniverseSchemaError |
| WorldLoad.LoadedSeed | src/starsim/world/load.py:113-118 | the state carries the document's seed and its tick, defaulting to 0 |
| WorldLoad.LoadedRejectsDuplicateWorlds | src/starsim/world/load.py:40-42 | two worlds with equal ids reject the document |
| WorldLoad.LoadedRejectsDuplicateLanes | src/starsim/world/load.py:44-46 | two lanes with equal ids reject the document once the worlds pass |
| WorldLoad.LoadedSound | src/starsim/world/load.py:48-118 | a loaded universe keys every world and lane by its own id, and every lane joins two loaded worlds |
| WorldLoad.WorldsKeyed | src/starsim/world/load.py:48-89 | the worlds loop keys each world by its id |
| WorldLoad.LanesJoinWorlds | src/starsim/world/load.py:91-109 | the lanes loop keys each lane by its id and both its endpoints are known worlds |
| WorldLoad.LoadedInOrder | src/starsim/world/load.py:48-109 | the worlds appear in document order, each the world built from its entry, and every lane entry is loaded |
| WorldLoad.LoadedRejectsUnknownWorld | src/starsim/world/load.py:94-100 | the first lane naming an unknown world rejects the document with that lane's error |
| WorldLoad.BuildWorlds | src/starsim/world/load.py:48-89 | the worlds loop returns exactly the keyed worlds built from the entries, or the first error |
| WorldLoad.BuildLanes | src/starsim/world/load.py:91-109 | the lanes loop returns exactly the keyed lanes built from the entries, or the first error |
| WorldLoad.LoadUniverse | src/starsim/world/load.py:19-120 | load_universe with both loops run as loops returns exactly LoadedFrom of the document |
| FactionModel.Leader | src/starsim/factions/model.py:50 | the dominant faction is one of the influence keys |
| FactionModel.LeaderIsFirstMaximum | src/starsim/factions/model.py:50-51 | max with key=influence.get picks a faction of greatest influence, the first such in dictionary order |
| FactionModel.ResolvedControlChoices | src/starsim/factions/model.py:41-69 | resolved control is None, the old controller, or the dominant faction; with influence present a controller is never lost |
| FactionModel.ResolvedControlThresholds | src/starsim/factions/model.py:57-69 | a controller with influence at least the loss threshold keeps the world; a new controller has at least the gain threshold, leads every faction, and replaces an old controller only when that one is below the loss threshold; a strict leader at the gain threshold takes an uncontrolled world or one whose controller fell below the loss threshold |
| FactionModel.WorldFactionState.constructor | src/starsim/factions/model.py:24-39 | a fresh state has empty defaulting influence and garrison maps, no controller and thresholds 0.7 and 0.4 |
| FactionModel.WorldFactionState.Restored | src/starsim/factions/model.py:24-39 | a state built from saved fields holds exactly those fields, with plain (non-defaulting) dictionaries |
| FactionModel.WorldFactionState.ResolveControl | src/starsim/factions/model.py:41-69 | resolve_control changes only the controller, to the hysteresis rule's choice |
| FactionActions.Influenced | src/starsim/factions/actions.py:18-19 | influence[f] += 0.1 raises KeyError exactly when the map is plain and lacks f; otherwise it adds 0.1 to f alone, keeps every other field, and resolves control |
| FactionActions.ExpandedInfluence | src/starsim/factions/actions.py:11-21 | expand_influence is a no-op returning False for an unknown world or one without faction state; otherwise it replaces that world's faction state by Influenced and keeps the world keys |
| FactionActions.Reinforced | src/starsim/factions/actions.py:31 | garrison[f] += 10.0 raises KeyError exactly when the map is plain and lacks f; otherwise adds 10 to f alone and changes nothing else |
| FactionActions.ReinforcedWorld | src/starsim/factions/actions.py:24-33 | reinforce is a no-op returning False for an unknown world or one without faction state; otherwise it updates that world's garrison only |
| FactionActions.RaidPatrolFacts | src/starsim/factions/actions.py:36-57 | raid raises hazard by 0.1 capped at 1, patrol lowers it by 0.05 floored at 0, on that lane only; both return False exactly for an unknown lane and keep hazards within [0, 1] |
| FactionActions.Aided | src/starsim/factions/actions.py:60-70 | aid_world adds 0.05 to stability and prosperity, each capped at 1, on that world only, and returns False exactly for an unknown world |
| FactionActions.AidedBounds | src/starsim/factions/actions.py:67-68 | aid never lowers stability or prosperity at or below 1 and keeps both within [0, 1] |
| FactionActions.ExpandKeepsControl | src/starsim/factions/actions.py:18-19 | after an expansion influence is non-empty, a controller is kept, and control is None, the old controller or the leader |
| FactionActions.ExpandScenario | src/starsim/factions/actions.py:18-19 | on a fresh world six expansions leave it uncontrolled and the seventh gives the faction control |
| FactionActions.ExpansionsOfOne | src/starsim/factions/actions.py:18-19 | n expansions by one faction on a fresh state give it influence n times 0.1, and control exactly when that reaches 0.7 |
| FactionActions.ExpandInfluence | src/starsim/factions/actions.py:11-21 | the method fails or returns and updates the worlds exactly as ExpandedInfluence |
| FactionActions.Reinforce | src/starsim/factions/actions.py:24-33 | the method fails or returns and updates the worlds exactly as ReinforcedWorld |
| FactionActions.RaidLane | src/starsim/factions/actions.py:36-45 | the method leaves the lanes and returns exactly as Raided |
| FactionActions.PatrolLane | src/starsim/factions/actions.py:48-57 | the method leaves the lanes and returns exactly as Patrolled |
| FactionActions.AidWorld | src/starsim/factions/actions.py:60-70 | the method leaves the worlds and returns exactly as Aided |
| FactionAI.WorldValueOwnership | src/starsim/factions/ai.py:38-39 | a world is worth exactly 20 more to the faction that controls it than to any other faction |
| FactionAI.Considered | src/starsim/factions/ai.py:61-62 | a candidate either replaces the best plan or leaves it as it was |
| FactionAI.BestIsFirstMaximum | src/starsim/factions/ai.py:54-62 | the greedy scan with strict `>` from minus infinity gives no_action on no candidates, otherwise the first candidate of greatest score |
| FactionAI.ExpandCandidatesMembers | src/starsim/factions/ai.py:58-60 | the expand candidates are exactly the worlds with faction state not controlled by this faction, each scored by compute_world_value |
| FactionAI.InvestCandidatesMembers | src/starsim/factions/ai.py:66-71 | the investment candidates are exactly the owned worlds whose market holds enough of the commodity, each scored by the given formula |
| FactionAI.BestAppend | src/starsim/factions/ai.py:58-84 | scanning one more candidate is considering it after the scan so far |
| FactionAI.SelectedActionFacts | src/starsim/factions/ai.py:49-86 | select_action returns no_action exactly when there is no candidate, otherwise the first best-scoring candidate over the expand, civilian and military scans in that order |
| FactionAI.SelectedActionKinds | src/starsim/factions/ai.py:49-86 | a chosen plan targets a known world and is an eligible expansion, a civilian investment by an expansionist faction with 10 minerals, or a military one by an aggressive faction with 5 alloy |
| FactionAI.SelectAction | src/starsim/factions/ai.py:49-86 | the three loops return exactly SelectedAction |
| FactionAI.ScanExpand | src/starsim/factions/ai.py:58-62 | the expand loop returns the best of the expand candidates |
| FactionAI.ScanInvest | src/starsim/factions/ai.py:65-84 | an investment loop continues the scan over its candidates |
| FactionAI.InvestScanStep | src/starsim/factions/ai.py:67-73 | each investment iteration considers the world exactly when it is eligible |
| FactionIntegrate.InvestedAt | src/starsim/factions/integrate.py:37-40 | an investment at an unknown world changes nothing; otherwise it updates only that world and advances the generator by one draw exactly when it drew |
| FactionIntegrate.DispatchedNoOp | src/starsim/factions/integrate.py:26-40 | a plan with no target, an empty target or an unknown kind changes nothing |
| FactionIntegrate.DispatchedKeeps | src/starsim/factions/integrate.py:26-40 | one dispatched action keeps the universe consistent, changes only holdings for expansion and investment, and uses at most one draw |
| FactionIntegrate.ExpandedKeeps | src/starsim/factions/actions.py:11-21 | expansion keeps the universe consistent and changes only faction state |
| FactionIntegrate.ReinforcedKeeps | src/starsim/factions/actions.py:24-33 | reinforcement keeps the universe consistent |
| FactionIntegrate.AidedKeeps | src/starsim/factions/actions.py:60-70 | aid keeps the universe consistent |
| FactionIntegrate.InvestedAtKeeps | src/starsim/factions/integrate.py:37-40 | investment keeps the universe consistent, changes only holdings and uses at most one draw |
| FactionIntegrate.Acted | src/starsim/factions/integrate.py:12-45 | acting for every faction in turn, when it succeeds, leaves the universe consistent |
| FactionIntegrate.DispatchedThen | src/starsim/factions/integrate.py:26-40 | dispatching from a consistent universe keeps it consistent |
| FactionIntegrate.ActedStopped | src/starsim/factions/integrate.py:20-40 | once one faction's action has failed the whole pass fails |
| FactionIntegrate.ActedOnlyHoldings | src/starsim/factions/integrate.py:20-40 | the whole pass changes only holdings (faction state, market, industry) and uses at most one draw per faction |
| FactionIntegrate.ActedNext | src/starsim/factions/integrate.py:20-40 | each loop iteration dispatches the faction's selected action on the state the previous factions left |
| FactionIntegrate.InvestAt | src/starsim/factions/integrate.py:37-40 | the investment returns True exactly for a known world and leaves the state as InvestedAt |
| FactionIntegrate.DispatchAction | src/starsim/factions/integrate.py:26-40 | the dispatch chain fails or leaves the state exactly as Dispatched |
| FactionIntegrate.ActOne | src/starsim/factions/integrate.py:21-40 | one iteration selects the faction's plan and dispatches it, as DispatchedThen |
| FactionIntegrate.ApplyFactionActions | src/starsim/factions/integrate.py:12-45 | apply_faction_actions fails or leaves the state exactly as Acted over the factions in dictionary order |
| GenBootstrap.PotentialAppliedEffect | src/starsim/generation/bootstrap.py:54-67 | one potential sets mine_minerals or farm_food to 100 times it, or for energy adds 50 times it to both (created at 0 first); any other commodity changes nothing, and no other cap changes |
| GenBootstrap.PotentialsSplit | src/starsim/generation/bootstrap.py:54-67 | the potentials loop over a concatenation is the loop over each part in turn |
| GenBootstrap.PotentialsUntouched | src/starsim/generation/bootstrap.py:54-67 | without its commodity and without energy a recipe's cap is left as it was |
| GenBootstrap.PotentialsFrame | src/starsim/generation/bootstrap.py:54-67 | the loop only adds mine_minerals and farm_food and changes no other cap |
| GenBootstrap.EnergyThenOverwrite | src/starsim/generation/bootstrap.py:57-65 | a minerals or food potential with no energy after it leaves exactly 100 times that potential, whatever energy added before |
| GenBootstrap.OverwriteThenEnergy | src/starsim/generation/bootstrap.py:57-67 | a minerals or food potential followed later by energy leaves 100 times it plus 50 times the energy potential |
| GenBootstrap.FoodMineralsEnergy | src/starsim/generation/bootstrap.py:54-67 | food, minerals then energy on empty caps gives farm_food and mine_minerals, in that order, each 100 times its own potential plus 50 times the energy potential |
| GenBootstrap.FoodThenMinerals | src/starsim/generation/bootstrap.py:57-60 | food then minerals gives exactly the two caps in that order at 100 times each potential |
| GenBootstrap.EnergyOnBoth | src/starsim/generation/bootstrap.py:61-67 | energy on caps holding both recipes adds half its scaled value to each and keeps the key order |
| GenBootstrap.PotentialsSnoc | src/starsim/generation/bootstrap.py:54-67 | the loop over one more potential applies that potential to the loop so far |
| GenBootstrap.PopulationFor | src/starsim/generation/bootstrap.py:47 | population is max(1, floor(1000000 × habitability)): a whole number at least 1 |
| GenBootstrap.BootstrapComponents | src/starsim/generation/bootstrap.py:28-35 | after bootstrap every component exists, an existing market and faction state are kept, and an existing population keeps its growth, needs and upkeep |
| GenBootstrap.BootstrapNoPlanets | src/starsim/generation/bootstrap.py:28-38 | without planets only the missing components are created |
| GenBootstrap.BootstrapPrimary | src/starsim/generation/bootstrap.py:38-67 | with planets, stability and prosperity become the first planet's habitability, the population size PopulationFor of it and the caps the potentials loop; nothing else changes |
| GenBootstrap.PotentialsTwice | src/starsim/generation/bootstrap.py:54-67 | without energy the potentials loop is idempotent |
| GenBootstrap.PotentialsFixed | src/starsim/generation/bootstrap.py:54-60 | caps that already hold every scaled minerals and food potential are left unchanged |
| GenBootstrap.BootstrapIdempotentWithoutEnergy | src/starsim/generation/bootstrap.py:20-67 | without an energy potential, applying the bootstrap twice is applying it once |
| GenBootstrap.ApplyPotential | src/starsim/generation/bootstrap.py:55-67 | one loop body updates the caps in place exactly as PotentialApplied |
| GenBootstrap.Boost | src/starsim/generation/bootstrap.py:64-67 | setdefault then `+=` adds the amount to the cap, creating it at 0 |
| GenBootstrap.ApplyPotentials | src/starsim/generation/bootstrap.py:54-67 | the loop updates the caps in place exactly as Potentials |
| GenBootstrap.CreateProducers | src/starsim/generation/bootstrap.py:28-31 | a missing population and industry are created fresh, existing ones kept as the same objects |
| GenBootstrap.CreateHoldings | src/starsim/generation/bootstrap.py:32-35 | a missing market and faction state are created, existing ones kept as the same objects |
| GenBootstrap.ApplyPlanetPotentials | src/starsim/generation/bootstrap.py:20-67 | apply_planet_potentials_to_world leaves the world exactly as Bootstrapped and keeps existing component objects |
| GenBootstrap.SetFromPrimary | src/starsim/generation/bootstrap.py:38-67 | the planet branch leaves the world exactly as FromPrimary |
| GenSystem.AdjacencyLists | src/starsim/generation/system_gen.py:43-46 | the adjacency lists build exactly when every lane endpoint is a world; then there is one list per world and v is listed under u exactly when a lane joins them |
| GenSystem.AdjacencyError | src/starsim/generation/system_gen.py:45-46 | the first lane naming an unknown world raises KeyError for that endpoint, a before b |
| GenSystem.AdjacencyList | src/starsim/generation/system_gen.py:43-46 | the adjacency loop returns exactly Adjacency |
| GenSystem.AdjacencyGraph | src/starsim/generation/system_gen.py:43-46 | the built lists are keyed by the worlds and symmetric |
| GenSystem.EndsKnown | src/starsim/generation/system_gen.py:45-46 | a lane's link joins known worlds in both directions |
| GenSystem.LinkedStep | src/starsim/generation/system_gen.py:60-63 | a neighbour of a reachable world is reachable |
| GenSystem.Visit | src/starsim/generation/system_gen.py:60-63 | the neighbour loop marks every neighbour visited and queues exactly the unvisited ones |
| GenSystem.Expand | src/starsim/generation/system_gen.py:57-63 | one turn of the BFS loop keeps the frontier invariant and makes progress |
| GenSystem.Explore | src/starsim/generation/system_gen.py:53-64 | the BFS from an unvisited world returns exactly its connected component, disjoint from earlier ones |
| GenSystem.Exhausted | src/starsim/generation/system_gen.py:57 | with the queue empty the collected set is the component |
| GenSystem.Components | src/starsim/generation/system_gen.py:48-65 | the scan returns the components seeded at each first uncovered world in order, pairwise disjoint and together covering every world |
| GenSystem.ConnectedComponents | src/starsim/generation/system_gen.py:39-65 | _get_connected_components fails exactly on an unknown lane endpoint, with the adjacency error, and otherwise returns the components in seed order covering every world |
| GenSystem.ComponentsPartition | src/starsim/generation/system_gen.py:39-65 | the components partition the worlds and no lane crosses between two of them |
| GenSystem.PassesMeans | src/starsim/generation/system_gen.py:103-111 | a table's test is the gte test, then the lt test; it can only fail on a threshold that is not a number |
| GenSystem.ScanFinds | src/starsim/generation/system_gen.py:102-111 | the table loop breaks at the first table whose test passes, or finds none |
| GenSystem.SelectedFirst | src/starsim/generation/system_gen.py:102-115 | the first passing table is selected, otherwise the first table (IndexError with none) |
| GenSystem.SelectResourceTable | src/starsim/generation/system_gen.py:101-115 | the selection loop returns exactly SelectedTable |
| GenSystem.Position | src/starsim/generation/system_gen.py:161-162 | coordinates are clamped into [0, 800] × [0, 600]: kept inside, moved to the nearer bound outside |
| GenSystem.SysIdsDistinct | src/starsim/generation/system_gen.py:202 | the ids sys-1, sys-2, … are pairwise different |
| GenSystem.Built | src/starsim/generation/system_gen.py:206-207 | a generated world carries the id it was generated for |
| GenSystem.SysIds | src/starsim/generation/system_gen.py:201-202 | the n candidate ids are sys-1 … sys-n in order |
| GenSystem.SysIdsUnique | src/starsim/generation/system_gen.py:201-202 | the candidate ids are distinct |
| GenSystem.Missing | src/starsim/generation/system_gen.py:203-204 | the ids generated are exactly the candidates not already present |
| GenSystem.GeneratedKeys | src/starsim/generation/system_gen.py:200-208 | the generation loop appends exactly the missing ids after the existing worlds |
| GenSystem.GeneratedValues | src/starsim/generation/system_gen.py:200-208 | existing worlds are kept and every new world is the bootstrapped generated world |
| GenSystem.GeneratedWorlds | src/starsim/generation/system_gen.py:208 | every world stays keyed by its own id |
| GenSystem.GeneratedUniverse | src/starsim/generation/system_gen.py:200-208 | for sys-1 … sys-n the loop keeps the existing worlds, appends the missing ids in order and stores a bootstrapped world for each |
| GenSystem.DefaultTemplate | src/starsim/generation/system_gen.py:189-191 | the default system template is found exactly when the templates hold a truthy "default_system"; otherwise ValueError |
| GenSystem.GenerateUniverse | src/starsim/generation/system_gen.py:177-212 | generate_universe fails without a default template and changes nothing, otherwise leaves the worlds exactly as Generated over sys-1 … sys-n |
| GenCalls.FirstUnknownFacts | src/starsim/generation/system_gen.py:10 | the first unknown name is None exactly when every name is known, else the first name not known |
| GenCalls.ImportFrom | src/starsim/generation/system_gen.py:10 | `from M import names` succeeds exactly when M defines every name, and raises ImportError for the first it does not |
| GenCalls.CallByKeyword | src/starsim/generation/system_gen.py:128-134 | a dataclass call succeeds exactly when every keyword is a field and every required field is given; an unknown keyword is a TypeError naming it |
| GenCalls.SystemGenImportFails | src/starsim/generation/system_gen.py:10 | importing system_gen raises ImportError at load_planet_names |
| GenCalls.SystemGenImportUsedSucceeds | src/starsim/generation/system_gen.py:10 | importing only the names generation/load.py defines succeeds |
| GenCalls.GeneratePlanetCallFails | src/starsim/generation/system_gen.py:128-134 | Planet(type=, name=, …) raises TypeError at the keyword name |
| GenCalls.GeneratePlanetFieldsCall | src/starsim/generation/system_gen.py:128-134 | the call with Planet's own fields succeeds |
| GenCalls.CallWith | src/starsim/generation/system_gen.py:177 | a call with n positional arguments and keywords succeeds exactly when n does not exceed the parameters, every keyword is a parameter not bound positionally, and every parameter without a default is bound; a required parameter left unbound is the missing-argument TypeError |
| GenCalls.FreshUniverseCallFails | src/starsim/generation/system_gen.py:185 | UniverseState(seed=..., rng=rng) raises TypeError at rng, which is an init=False field |
| GenCalls.FreshUniverseSeedCall | src/starsim/generation/system_gen.py:185 | UniverseState(seed=...) binds every field without a default |
| GenCalls.GenerateUniverseCallsFail | src/starsim/generation/system_gen.py:177 | the three call shapes of generate_universe's callers leave planet_names_data unbound and raise the missing-argument TypeError |
| GenCalls.GenerateUniverseNamedCalls | src/starsim/generation/system_gen.py:177 | the same calls with planet_names_data and system_names_data passed bind every required parameter |
| GenLoad.In | src/starsim/generation/load.py:26 | `key in v` is a TypeError exactly on None, booleans and numbers, and on a mapping tests its keys |
| GenLoad.WeightsOfPaired | src/starsim/generation/load.py:20 | the weights list succeeds exactly when every choice has a "weight", and then holds each choice's weight at the same index |
| GenLoad.WeightsOfFirstError | src/starsim/generation/load.py:20 | the first choice without a weight gives the error of that lookup |
| GenLoad.ProcessWeightsPaired | src/starsim/generation/load.py:14-21 | _process_weights_for_random_selection returns the choices unchanged with equal-length weights, weights[i] the weight of choice i, or fails at the first choice lacking one |
| GenLoad.PotentialSound | src/starsim/generation/load.py:24-35 | a potential passes exactly when it is a mapping with a two-number range lo ≤ hi, or no range and bins of mappings with numeric value and numeric weight ≥ 0; a range takes precedence; each failure gives its own error |
| GenLoad.RequireKeysObj | src/starsim/generation/load.py:44-46 | the key check on a mapping passes exactly when every listed key is present, and reports the first missing key |
| GenLoad.BandCheckSound | src/starsim/generation/load.py:59 | a habitability band passes exactly when it has a two-number band inside [0, 1] with lo ≤ hi and a numeric weight > 0 |
| GenLoad.FirstErrorIs | src/starsim/generation/load.py:43-81 | a validation loop passes exactly when every item does, and otherwise reports the first failure |
| GenLoad.BandsSound | src/starsim/generation/load.py:58-60 | the band loop passes exactly when every band is sound |
| GenLoad.PotentialsSound | src/starsim/generation/load.py:80-81 | the potentials loop passes exactly when every potential is sound |
| GenLoad.TableHeader | src/starsim/generation/load.py:66-76 | a table that passes the header checks is a mapping with potentials |
| GenLoad.HeaderSound | src/starsim/generation/load.py:66-76 | a table header passes exactly when it has potentials and exactly one of gte and lt, with its threshold a number in [0, 1] |
| GenLoad.TableSound | src/starsim/generation/load.py:66-81 | a resource table passes exactly when its header is sound and its potentials form a mapping of sound potentials |
| GenLoad.TablesSound | src/starsim/generation/load.py:65-81 | the resource tables loop passes exactly when every table is sound |
| GenLoad.PlanetKeys | src/starsim/generation/load.py:44-46 | a planet type mapping has all five required keys exactly when the key check passes, which otherwise reports the first missing one |
| GenLoad.PlanetHeader | src/starsim/generation/load.py:44-57 | a planet type past the header checks has all keys and a list distribution |
| GenLoad.PlanetHeaderSound | src/starsim/generation/load.py:44-57 | the header checks pass exactly when id and name are non-empty strings, weight a number > 0 and the distribution a non-empty list |
| GenLoad.PlanetTypeSound | src/starsim/generation/load.py:43-81 | a planet type passes exactly when its header, every band and every resource table are sound |
| GenLoad.PlanetTypeMissingKey | src/starsim/generation/load.py:44-46 | the first missing key is reported before anything else |
| GenLoad.PlanetTypeWeightFirst | src/starsim/generation/load.py:52-57 | a bad weight is reported before the distribution is looked at |
| GenLoad.PlanetTypesSound | src/starsim/generation/load.py:38-81 | validate_planet_type_schema passes exactly on a list of sound planet types, and otherwise reports the first failing one |
| GenLoad.WeightResults | src/starsim/generation/load.py:104-106 | each planet type weight passes exactly when it is a number ≥ 0 |
| GenLoad.TemplateKeys | src/starsim/generation/load.py:90-92 | a template mapping has all five required keys exactly when the key check passes, which otherwise reports the first missing one |
| GenLoad.TemplateHeader | src/starsim/generation/load.py:90-103 | a template past the header checks has all keys and a mapping of type weights |
| GenLoad.TemplateHeaderSound | src/starsim/generation/load.py:90-103 | the header checks pass exactly when id and name are non-empty strings, min_planets an int ≥ 0, max_planets an int ≥ min and the weights a non-empty mapping |
| GenLoad.TemplateSound | src/starsim/generation/load.py:89-106 | a template passes exactly when its header is sound and every type weight is a number ≥ 0 |
| GenLoad.TemplateMissingKey | src/starsim/generation/load.py:90-92 | the first missing template key is reported before anything else |
| GenLoad.TemplatesSound | src/starsim/generation/load.py:84-106 | validate_system_template_schema passes exactly on a list of sound templates, and otherwise reports the first failing one |
| GenLanes.Root | src/starsim/generation/lane_gen.py:23-27 | following parents reaches a root of strictly higher rank than any non-root on the way |
| GenLanes.RootRankFree | src/starsim/generation/lane_gen.py:23-27 | the root reached depends only on the parent links, not on the rank bookkeeping |
| GenLanes.Singletons | src/starsim/generation/lane_gen.py:19-21 | with every element its own parent there are exactly n classes |
| GenLanes.Compressed | src/starsim/generation/lane_gen.py:26 | path compression keeps the forest ranked and changes no element's root |
| GenLanes.Linked | src/starsim/generation/lane_gen.py:33-39 | attaching one root under another moves exactly that root's class to the other root |
| GenLanes.LinkedRoots | src/starsim/generation/lane_gen.py:33-39 | linking two roots removes one class |
| GenLanes.DisjointSetUnion.constructor | src/starsim/generation/lane_gen.py:19-21 | a new DSU has every element its own root with rank 0, so n classes |
| GenLanes.DisjointSetUnion.Find | src/starsim/generation/lane_gen.py:23-27 | find returns i's root and, with path compression, leaves every element's root and the partition unchanged |
| GenLanes.DisjointSetUnion.Union | src/starsim/generation/lane_gen.py:29-41 | union returns True exactly when the roots differed; afterwards i and j share one of the old roots and only their two classes merge; the lower-rank root goes under the higher and rank grows only on a tie; False changes no class and no rank |
| GenLanes.DisjointSetUnion.Unite | src/starsim/generation/lane_gen.py:33-39 | the rank comparison attaches the lower root under the higher, on a tie j's root under i's with i's rank raised |
| GenLanes.DisjointSetUnion.Link | src/starsim/generation/lane_gen.py:34-39 | one parent assignment merges the child root's class into the target's |
| GenLanes.KeySame | src/starsim/generation/lane_gen.py:83 | equal sorted pairs mean the same two endpoints |
| GenLanes.JoinedEdge | src/starsim/generation/lane_gen.py:96-108 | an edge connects its two endpoints both ways |
| GenLanes.JoinedTrans | src/starsim/generation/lane_gen.py:96-108 | connection is transitive |
| GenLanes.JoinedSym | src/starsim/generation/lane_gen.py:96-108 | connection is symmetric |
| GenLanes.JoinedSub | src/starsim/generation/lane_gen.py:96-108 | a connection by a subset of the edges is a connection by the edges |
| GenLanes.JoinedLabels | src/starsim/generation/lane_gen.py:96-108 | worlds connected by edges that respect a labelling share a label |
| GenLanes.ForestNext | src/starsim/generation/lane_gen.py:102-108 | Kruskal keeps an edge exactly when its endpoints are not yet connected |
| GenLanes.ForestIn | src/starsim/generation/lane_gen.py:102-108 | every forest edge is a candidate edge |
| GenLanes.ForestJoins | src/starsim/generation/lane_gen.py:102-108 | every candidate edge's endpoints are connected by the forest |
| GenLanes.ForestConnects | src/starsim/generation/lane_gen.py:102-108 | the forest connects exactly the worlds the candidate edges connect |
| GenLanes.ForestAcyclic | src/starsim/generation/lane_gen.py:106-108 | no forest edge joins worlds already connected by the forest edges before it |
| GenLanes.AcyclicKeys | src/starsim/generation/lane_gen.py:106-108 | an acyclic edge list has no loop and no repeated pair |
| GenLanes.AllSides | src/starsim/generation/lane_gen.py:74-77 | the sides of the triangles join valid point indices |
| GenLanes.DedupedUnique | src/starsim/generation/lane_gen.py:71-91 | the collected edges repeat no unordered pair, and every triangle side's pair is among them |
| GenLanes.DedupedFrom | src/starsim/generation/lane_gen.py:71-91 | every collected edge is a triangle side |
| GenLanes.DedupedNext | src/starsim/generation/lane_gen.py:83-91 | a side is appended exactly when its sorted pair is new |
| GenLanes.CandidateEdges | src/starsim/generation/lane_gen.py:70-91 | the triangle loop returns exactly the deduplicated sides in discovery order |
| GenLanes.CollectTriangle | src/starsim/generation/lane_gen.py:75-91 | one triangle adds its three sides in turn, keeping the seen set equal to the collected pairs |
| GenLanes.CollectSide | src/starsim/generation/lane_gen.py:76-91 | one side is collected as DedupedNext says |
| GenLanes.MirrorsMerged | src/starsim/generation/lane_gen.py:106-108 | after a union the DSU classes are exactly the forest's connected classes with the new edge |
| GenLanes.OneClass | src/starsim/generation/lane_gen.py:96-108 | when the forest connects every world the DSU has a single class |
| GenLanes.KruskalStep | src/starsim/generation/lane_gen.py:102-108 | one iteration adds the edge exactly when its endpoints are unconnected, keeping the DSU in step with the forest |
| GenLanes.Kruskal | src/starsim/generation/lane_gen.py:96-108 | the loop returns exactly the spanning forest, with fewer edges than worlds, and n-1 edges when the candidates connect all worlds |
| GenLanes.DegreeAppend | src/starsim/generation/lane_gen.py:114-116 | one more edge adds one degree to each endpoint |
| GenLanes.AugmentedStarts | src/starsim/generation/lane_gen.py:110-132 | the final edges begin with the forest and continue with remaining candidates |
| GenLanes.AugmentedAdds | src/starsim/generation/lane_gen.py:129-132 | an extra edge is added only when both endpoints have degree below 3 |
| GenLanes.AugmentedDegree | src/starsim/generation/lane_gen.py:126-132 | augmentation never takes a world's degree above 3, unless the forest already had it higher |
| GenLanes.AugmentedKeys | src/starsim/generation/lane_gen.py:119-132 | with no pair repeated in the forest or the rest, none is repeated in the final edges |
| GenLanes.Remaining | src/starsim/generation/lane_gen.py:119-123 | the remaining candidates are exactly those whose pair is not a forest pair, in order |
| GenLanes.RemainingUnique | src/starsim/generation/lane_gen.py:120-123 | filtering keeps distinct pairs distinct |
| GenLanes.FinalStarts | src/starsim/generation/lane_gen.py:110-132 | the final edges are the forest, then candidates outside it |
| GenLanes.FinalUnique | src/starsim/generation/lane_gen.py:110-132 | no unordered world pair appears twice in the final edges |
| GenLanes.FinalDegree | src/starsim/generation/lane_gen.py:110-132 | the final degree of a world is at most 3 or its forest degree |
| GenLanes.BumpedCounts | src/starsim/generation/lane_gen.py:113-116 | the defaultdict counters equal the degrees of the edges counted |
| GenLanes.Augment | src/starsim/generation/lane_gen.py:110-132 | the degree loop returns exactly Augmented |
| GenLanes.NatStrInjective | src/starsim/generation/lane_gen.py:140 | distinct numbers render as distinct decimal strings |
| GenLanes.LaneNamesDistinct | src/starsim/generation/lane_gen.py:140 | lane ids lane-gen-0, lane-gen-1, … are distinct |
| GenLanes.Emit | src/starsim/generation/lane_gen.py:137-145 | one lane per final edge, in order, with id lane-gen-idx and the edge's endpoints as source and target |
| GenLanes.GenerateLanes | src/starsim/generation/lane_gen.py:43-147 | fewer than two worlds or a failed triangulation give []; otherwise the lanes are exactly the final edges in order, named by position |
| VisualizerHops.WithinGrows | visualizer/app.py:39-62 | the worlds within j hops are among those within k hops for j ≤ k |
| VisualizerHops.WithinCases | visualizer/app.py:56-61 | a world first reached at k + 1 hops is a neighbour of a world within k hops |
| VisualizerHops.Rooted | visualizer/app.py:47-61 | every queued world lies within its recorded hop count of the start |
| VisualizerHops.Covered | visualizer/app.py:50-61 | once every world closer than k is expanded, every world within k hops has been discovered with at most k hops |
| VisualizerHops.Found | visualizer/app.py:57-58 | meeting a target as a neighbour gives its shortest hop count, within min_hops |
| VisualizerHops.Nearest | visualizer/app.py:57-58 | the first target met during the layer-by-layer search is at the shortest distance |
| VisualizerHops.Exhausted | visualizer/app.py:50-62 | when the queue empties, no target lies within min_hops hops |
| VisualizerHops.StartIsTarget | visualizer/app.py:44-45 | a start that is a target is at distance 0 |
| VisualizerHops.Pop | visualizer/app.py:51-54 | popping the queue front either skips an entry at the hop limit or starts expanding it |
| VisualizerHops.Visit | visualizer/app.py:57-61 | one neighbour ends the search exactly when it is a target, else is marked visited and queued one hop further if new |
| VisualizerHops.Expand | visualizer/app.py:56-61 | the neighbour loop returns a shortest target hop count or leaves the search invariant for the next entry |
| VisualizerHops.ShortestPathHops | visualizer/app.py:39-62 | the result is 0 exactly when start is a target, a positive result is at most min_hops and is the shortest hop count to a target, and None exactly when no target is within min_hops hops |
| Base.RoundHalfEven | src/starsim/economy/trade.py:52 | round() gives an integer within one half of its argument, and a tie goes to the even integer |

## Left out

Numbers and text:
- Floats are Dafny `real`, so the model has no rounding error, NaN or infinity. `Base.RoundHalfEven` stands for Python's `round` and is exact.
- `Base.Dict` keys in parsed documents (`Docs.Value`) are strings only. Python sets, such as world and planet tags, are modelled as duplicate-free sequences.
- CoreSim.ProductionAt: the keys of the "changes" detail are listed in lexicographic order. The source lists them in Python set-iteration order, which no specification fixes.
- CoreSim.Step: the audit-log reasons the source builds with f-strings (src/starsim/core/sim.py:39, 62, 74, 81, 100, 121) are `None`. Their text depends on Python's `.2f` formatting.

State and aliasing:
- CoreState.UniverseState: worlds and lanes are held as values that the stages reassign, not as shared objects. Aliasing between a world held in the dict and one held elsewhere is not captured.
- Stage methods that fail (`Result.Fail`), such as CoreSim.RunStage, CoreSim.RunEffects, EconTrade.ProcessTrade, SaveLoad.LoadSnapshot and WorldLoad.LoadUniverse: their contracts describe the state only on success. The source leaves partly updated state behind when it raises partway through, and the model does not say which part was updated.

Randomness:
- CoreRng.Rng: Python's Mersenne Twister is replaced by an oracle stream `draws`, and a pick among `n` items is `draws(pos) % n`. The model does not reproduce Python's RNG bit for bit.
- EventGenerator.Picks: `rng.choices` with weights (src/starsim/events/generator.py:85-90) is modelled as unweighted picks from the candidate list. Which candidates exist, and their weights, are modelled exactly.
- GenSystem.Position: the `gauss` draws are given as parameters, and only the clamping to the coordinate box is modelled. The `uniform` and `randint` draws of generation are not modelled.
- GenSystem.GenerateUniverse: `generate_world` is replaced by a given world maker `make` (the `GenSystem.Maker` predicate). The model does not thread the generator's state through the worlds it makes. `_sample_from_range_or_bins`, `generate_planet` and `generate_world` (src/starsim/generation/system_gen.py:26-175) sample floats and names from the generator, so they are not modelled; `GenSystem.SelectResourceTable` and `GenSystem.Position` model their deterministic parts. Without an initial state the source calls `UniverseState(seed=rng.randint(0, 2**32 - 1), rng=rng)` (src/starsim/generation/system_gen.py:185). That call raises TypeError as written, because `rng` is an `init=False` field (src/starsim/core/state.py:21); the branch is not modelled, the model always fills a given state, and "## Findings" records the failure.
- The capital-assignment block of visualizer/app.py is not modelled, because it uses the unseeded global `random.shuffle`.

Entities:
- WorldModel.WorldV does not hold `food_balance`, `starvation_level`, `consumer_goods_balance` or `consumer_goods_shortage_level` (src/starsim/world/model.py:29-32). Only the reports read them, and no core operation writes them.
- GenLanes.GenerateLanes: the emitted lanes carry an id and their two ends. The `math.sqrt` distance `round(dist, 2)` and the hazard `round(dist / 100, 2)` (src/starsim/generation/lane_gen.py:143-144) are floating point and are not modelled. The Delaunay triangles and the edge list sorted by distance (src/starsim/generation/lane_gen.py:61-94) come from NumPy and SciPy, so they are parameters.
- `_get_closest_worlds_between_components` (src/starsim/generation/system_gen.py:67-88) is not modelled. It compares `math.sqrt` distances.

Parsing strictness:
These parsers are stricter than the source. They reject values that Python would carry along unchecked until a later stage fails on them. Every later stage needs numbers and strings there, so the model reports the error when parsing.
- EventRegistry.ParseEvent: a non-string id, a non-numeric `base_weight`, or non-list `conditions`/`effects` is a load error.
- EconRecipes.ParseRecipe: a non-string id, a non-numeric `max_production_units_per_tick` and a non-numeric input or output quantity (`EconRecipes.QuantityMap`) are load errors.
- EconCommodities.ParseCommodity: a non-string id and a non-numeric `base_price` are load errors.
- SaveLoad.LoadSnapshot: snapshot fields are read with `AsString`, `AsNumber` and `AsInt`, so a field of the wrong type is a load error. Events are read with `EventRegistry.ParseEvent` and are just as strict.
- WorldLoad.LoadUniverse: integer world ids, lane ids and lane endpoints are rejected, where Python would accept any hashable value. A non-numeric world field (stability, prosperity, tech, scarcity, unrest), population size or growth_rate, or lane distance, hazard or capacity is also a load error (`WorldLoad.AsNumber`), as is a non-numeric need, price, target or cap (`WorldLoad.NumberDict`) and a tags value that is not a list of strings (`WorldLoad.TagsFrom`). Python would store such values and fail, if at all, only when they are used.

Names that fail at run time, modelled by intent:
- FactionAI.SelectAction: src/starsim/factions/ai.py calls `CommodityId("food")` and the like (lines 20-21, 69, 80) without importing `CommodityId`. Each call is modelled as the plain string it wraps.
- FactionIntegrate.ApplyFactionActions: src/starsim/factions/integrate.py imports `select_action` and the action functions only under `TYPE_CHECKING` (lines 4-10), so they are unbound at run time. They are modelled as ordinary imports.
- FactionIntegrate.InvestAt: `invest_civilian_action` and `invest_military_action` are called but not defined anywhere in the source. They are modelled as their names suggest: look up the world, return False when it is missing, otherwise run the civilian or military investment and return True.
- GenSystem.GenerateUniverse: the loop that draws coordinates for a world whose `x` or `y` is None (src/starsim/generation/system_gen.py:194-197) is not modelled. It never runs: `World.x` and `World.y` default to 0.0 (src/starsim/world/model.py:23-24) and no loader stores None there.
- SaveLoad.RoundTrip: the round trip is of the snapshot contents before `UniverseState.__post_init__` runs. That method reseeds the generator from the seed and loads data/events.yaml into the restored event registry (src/starsim/core/state.py:36, 40), so a saved event whose id is also in the file comes back as the file's definition, and the file's other events are added.
- EventEffects.ChangeLaneHazard: src/starsim/events/effects.py calls `LaneId(lane_id)` (line 42), but imports `LaneId` only under `TYPE_CHECKING`. The call is modelled as the lane id itself.

I/O and surroundings:
- File I/O. These are not modelled; the registries and documents they produce are given as parsed values:
  - `open`/`yaml.safe_load` in the registry loaders;
  - `load_planet_types`, `load_system_templates` and `load_habitability_tables` (src/starsim/generation/load.py:109-134);
  - the file read in `load_universe`;
  - `save_to_json` and `load_from_json` (src/starsim/io/save_load.py:244-255);
  - `UniverseState.__post_init__`, which reads the data files (src/starsim/core/state.py:35-40).
- `select_action_debug` (src/starsim/factions/ai.py:89-104) and every debug `print` are output only and are not modelled.
- The Flask routes and caching of visualizer/app.py are server code and are not modelled; only `_get_shortest_path_hops` is.
- The reports (src/starsim/reports/gazette.py and world_cards.py) and the command-line scripts are not part of this model.

## Findings

| source | as written | input that shows it | evidently intended | confidence | as-written member | corrected member |
|---|---|---|---|---|---|---|
| src/starsim/generation/system_gen.py:10 | imports `load_planet_names` and `load_system_names` from `generation/load.py`, which defines neither. Importing the module raises ImportError, and so does visualizer/app.py:16, which imports it | importing `starsim.generation.system_gen` | import only the loaders that exist and take the name data as parameters, as `generate_universe` already does | not executed | GenCalls.SystemGenImportFails | GenCalls.SystemGenImportUsedSucceeds |
| src/starsim/generation/system_gen.py:128-134 | `generate_planet` builds `Planet(name=...)`, but the `Planet` dataclass (src/starsim/generation/model.py:10-14) has no `name` field, so the call raises TypeError | any `generate_planet` call | build the planet from its type, habitability, resource potentials and tags | not executed | GenCalls.GeneratePlanetCallFails | GenCalls.GeneratePlanetFieldsCall |
| src/starsim/generation/system_gen.py:185 | without an initial state, `generate_universe` calls `UniverseState(seed=..., rng=rng)`, but `rng` is declared `field(init=False)` (src/starsim/core/state.py:21), so the generated `__init__` has no `rng` parameter and the call raises TypeError | `generate_universe` with no `initial_state` | build the state from the seed alone and then assign the generator, as the initial-state branch does | not executed | GenCalls.FreshUniverseCallFails | GenCalls.FreshUniverseSeedCall |
| src/starsim/generation/system_gen.py:177 | `generate_universe` requires `planet_names_data` and `system_names_data`, which have no default, but every caller leaves both out (scripts/gen_universe.py:45, tests/test_generator_regression.py:26 and 122, tests/test_milestone21.py:87-88, visualizer/app.py:78), so each call raises TypeError even once the import is fixed | any of those calls | the callers pass the planet and system name data | not executed | GenCalls.GenerateUniverseCallsFail | GenCalls.GenerateUniverseNamedCalls |

So that the properties are stated about the design, `GenSystem.ConnectedComponents`,
`GenSystem.SelectResourceTable`, `GenSystem.GenerateUniverse` and
`VisualizerHops.ShortestPathHops` model the corrected module. They assume the
import succeeds, planets carry only the four fields of `Planet`, and
`generate_universe` is given the name data and a state to fill.
