// events/effects.py: one event effect applied to its target world (and, for
// some effect types, to lanes or other worlds).
//
// A commodity id in an effect is read as a string (the inventories are keyed
// by commodity-id strings). LaneId(lane_id) is read as the lane id itself.

module EventEffects {
  import opened Base
  import opened Docs
  import opened EconInventory
  import opened WorldModel
  import opened CoreState
  import opened CoreRng
  import opened EventGenerator
  import opened FactionIntegrate

  /** The effect types with a clamped world field. */
  const FIELD_EFFECTS: seq<string> := ["change_stability", "change_prosperity", "change_unrest", "change_scarcity"]

  const EFFECT_TYPES: seq<Value> :=
    [Str("change_stability"), Str("change_prosperity"), Str("change_unrest"), Str("change_scarcity"),
     Str("add_inventory"), Str("remove_inventory"), Str("change_lane_hazard"), Str("remove_inventory_random_worlds")]

  /** The world field a change_* effect writes. */
  function FieldOf(w: WorldV, ty: string): real
    requires ty in FIELD_EFFECTS
  {
    if ty == "change_stability" then w.stability
    else if ty == "change_prosperity" then w.prosperity
    else if ty == "change_unrest" then w.unrest
    else w.scarcity
  }

  function WithField(w: WorldV, ty: string, x: real): (r: WorldV)
    requires ty in FIELD_EFFECTS
    ensures FieldOf(r, ty) == x
    ensures forall other :: other in FIELD_EFFECTS && other != ty ==> FieldOf(r, other) == FieldOf(w, other)
    ensures r == w.(stability := r.stability, prosperity := r.prosperity, unrest := r.unrest, scarcity := r.scarcity)
  {
    if ty == "change_stability" then w.(stability := x)
    else if ty == "change_prosperity" then w.(prosperity := x)
    else if ty == "change_unrest" then w.(unrest := x)
    else w.(scarcity := x)
  }

  /** change_stability / change_prosperity / change_unrest / change_scarcity:
      the field becomes clamp(old + delta, 0, 1), delta defaulting to 0.0; it
      lands in [0, 1] for any delta, and no other field changes. */
  function FieldChanged(w: WorldV, ty: string, e: Value): (r: Result<WorldV>)
    requires e.Obj? && ty in FIELD_EFFECTS
    ensures r.Ok? <==> NumberAt(e, "delta", 0.0).Ok?
    ensures r.Ok? ==> InUnit(FieldOf(r.value, ty))
    ensures r.Ok? ==> var d := NumberAt(e, "delta", 0.0).value;
      FieldOf(r.value, ty) == Clamp(FieldOf(w, ty) + d, 0.0, 1.0) &&
      (0.0 <= FieldOf(w, ty) + d <= 1.0 ==> FieldOf(r.value, ty) == FieldOf(w, ty) + d)
    ensures r.Ok? ==> forall other :: other in FIELD_EFFECTS && other != ty ==> FieldOf(r.value, other) == FieldOf(w, other)
    ensures r.Ok? ==> r.value == w.(stability := r.value.stability, prosperity := r.value.prosperity,
                                    unrest := r.value.unrest, scarcity := r.value.scarcity)
  {
    var d :- NumberAt(e, "delta", 0.0);
    Ok(WithField(w, ty, Clamp(FieldOf(w, ty) + d, 0.0, 1.0)))
  }

  /** add_inventory (add) or remove_inventory (not add): only a world with a
      market changes, and then only the commodity's stock, through add or
      remove_clamped. */
  function StockChanged(w: WorldV, e: Value, add: bool): (r: Result<WorldV>)
    requires e.Obj?
    ensures w.market.None? ==> r == Ok(w)
    ensures r.Ok? && w.market.Some? ==>
      HasKey(e, "commodity_id") && e.fields.vals["commodity_id"].Str? &&
      HasKey(e, "quantity") && IsNumber(e.fields.vals["quantity"]) &&
      var c := e.fields.vals["commodity_id"].s;
      var q := NumberOf(e.fields.vals["quantity"]);
      var s := w.market.value.stock;
      q >= 0.0 &&
      r.value == w.(market := Some(w.market.value.(stock := if add then Added(s, c, q).value else RemovedClamped(s, c, q).value.stock)))
    ensures w.market.Some? && !HasKey(e, "commodity_id") ==> r == Fail(MissingKey("commodity_id"))
  {
    if w.market.None? then Ok(w)
    else
      var cv :- Field(e, "commodity_id");
      var qv :- Field(e, "quantity");
      var c :- AsString(cv, "commodity_id");
      var q :- AsNumber(qv, "quantity");
      var s := w.market.value.stock;
      var s' :- if add then Added(s, c, q) else (var rm :- RemovedClamped(s, c, q); Ok(rm.stock));
      Ok(w.(market := Some(w.market.value.(stock := s'))))
  }

  /** lane.hazard = max(0.0, min(1.0, lane.hazard + delta)) */
  function Hazarded(lane: LaneV, d: real): (r: LaneV)
    ensures InUnit(r.hazard) && r == lane.(hazard := r.hazard)
    ensures 0.0 <= lane.hazard + d <= 1.0 ==> r.hazard == lane.hazard + d
  {
    lane.(hazard := Clamp(lane.hazard + d, 0.0, 1.0))
  }

  /** change_lane_hazard: a truthy lane_id names the lane (an unknown one
      changes nothing); without one, the next output picks a lane connected
      to the world, and a world without lanes changes nothing. delta is read
      only once a lane is found. A list or mapping lane_id cannot be looked up
      in the lanes dict: a TypeError. */
  function HazardChanged(u: Sim, adj: Adjacency, draws: nat -> nat, e: Value, w: WorldV): (r: Result<Sim>)
    requires e.Obj? && AdjacencyKnown(adj, u.lanes)
    ensures var lid := e.fields.Get("lane_id", Null);
      Docs.Truthy(lid) && Unhashable(lid) ==> r == Fail(TypeMismatch("lane_id"))
    ensures var lid := e.fields.Get("lane_id", Null);
      Docs.Truthy(lid) && !Unhashable(lid) && !(lid.Str? && lid.s in u.lanes.vals) ==> r == Ok(u)
  {
    var lid := e.fields.Get("lane_id", Null);
    if Docs.Truthy(lid) then
      if Unhashable(lid) then Fail(TypeMismatch("lane_id"))
      else if lid.Str? && lid.s in u.lanes.vals then
        var d :- NumberAt(e, "delta", 0.0);
        Ok(u.(lanes := u.lanes.Put(lid.s, Hazarded(u.lanes.vals[lid.s], d))))
      else Ok(u)
    else
      var ids := adj.Get(w.id, []);
      if ids == [] then Ok(u)
      else
        var l := ids[PickIndex(draws(u.pos), |ids|)];
        var d :- NumberAt(e, "delta", 0.0);
        Ok(Sim(u.worlds, u.lanes.Put(l, Hazarded(u.lanes.vals[l], d)), u.pos + 1))
  }

  /** change_lane_hazard changes at most one lane, a known one, and either the
      named lane or (using one output) a lane connected to the world; its
      hazard becomes clamp(h + delta, 0, 1). A world with no lanes and no
      lane_id is left as it was. */
  lemma HazardChangedFacts(u: Sim, adj: Adjacency, draws: nat -> nat, e: Value, w: WorldV)
    requires e.Obj? && AdjacencyKnown(adj, u.lanes)
    requires HazardChanged(u, adj, draws, e, w).Ok?
    ensures var r := HazardChanged(u, adj, draws, e, w).value;
      r.worlds == u.worlds && r.lanes.keys == u.lanes.keys && r.lanes.vals.Keys == u.lanes.vals.Keys
    ensures var r := HazardChanged(u, adj, draws, e, w).value;
      r == u ||
      exists l :: l in u.lanes.vals &&
        r.lanes == u.lanes.Put(l, Hazarded(u.lanes.vals[l], NumberAt(e, "delta", 0.0).value)) &&
        (if Docs.Truthy(e.fields.Get("lane_id", Null)) then e.fields.Get("lane_id", Null) == Str(l) && r.pos == u.pos
         else l in adj.Get(w.id, []) && r.pos == u.pos + 1)
    ensures !Docs.Truthy(e.fields.Get("lane_id", Null)) && adj.Get(w.id, []) == [] ==> HazardChanged(u, adj, draws, e, w) == Ok(u)
  {
    var lid := e.fields.Get("lane_id", Null);
    if !Docs.Truthy(lid) {
      var ids := adj.Get(w.id, []);
      if ids != [] {
        var l := ids[PickIndex(draws(u.pos), |ids|)];
        assert l in adj.vals[w.id];
      }
    }
  }

  /** min(num_worlds, len(worlds)) as random.sample accepts it: a negative
      count is a ValueError and a count that is not an integer a TypeError. */
  function SampleCount(nv: Value, n: nat): (r: Result<nat>)
    ensures r.Ok? ==> IsNumber(nv) && r.value as real == Min(NumberOf(nv), n as real) && r.value <= n
    ensures IsNumber(nv) && NumberOf(nv) < 0.0 ==> r == Fail(NegativeSample)
    ensures IsInteger(nv) && NumberOf(nv) >= 0.0 ==> r.Ok?
  {
    if !IsNumber(nv) then Fail(TypeMismatch("num_worlds"))
    else
      var kv := if (n as real) < NumberOf(nv) then Int(n) else nv;
      if NumberOf(kv) < 0.0 then Fail(NegativeSample)
      else if !IsInteger(kv) then Fail(TypeMismatch("num_worlds"))
      else Ok(NumberOf(kv).Floor as nat)
  }

  /** The removal loop of remove_inventory_random_worlds over targets. */
  function RemovedFrom(worlds: Dict<WorldId, WorldV>, targets: seq<WorldId>, cv: Value, qv: Value): (r: Result<Dict<WorldId, WorldV>>)
    requires forall t :: t in targets ==> t in worlds.vals
    ensures r.Ok? ==> r.value.keys == worlds.keys && r.value.vals.Keys == worlds.vals.Keys
    decreases |targets|
  {
    if targets == [] then Ok(worlds)
    else
      var pre :- RemovedFrom(worlds, targets[..|targets| - 1], cv, qv);
      RemovedAt(pre, targets[|targets| - 1], cv, qv)
  }

  /** One pass of the removal loop, at world t. */
  function RemovedAt(worlds: Dict<WorldId, WorldV>, t: WorldId, cv: Value, qv: Value): (r: Result<Dict<WorldId, WorldV>>)
    requires t in worlds.vals
    ensures r.Ok? ==> r.value.keys == worlds.keys && r.value.vals.Keys == worlds.vals.Keys
  {
    var w := worlds.vals[t];
    if w.market.None? then Ok(worlds)
    else
      var c :- AsString(cv, "commodity_id");
      var q :- AsNumber(qv, "quantity");
      var rm :- RemovedClamped(w.market.value.stock, c, q);
      Ok(worlds.Put(t, w.(market := Some(w.market.value.(stock := rm.stock)))))
  }

  lemma RemovedFromNext(worlds: Dict<WorldId, WorldV>, targets: seq<WorldId>, cv: Value, qv: Value, i: nat, cur: Dict<WorldId, WorldV>)
    requires forall t :: t in targets ==> t in worlds.vals
    requires i < |targets| && RemovedFrom(worlds, targets[..i], cv, qv) == Ok(cur)
    ensures cur.vals.Keys == worlds.vals.Keys
    ensures RemovedFrom(worlds, targets[..i + 1], cv, qv) == RemovedAt(cur, targets[i], cv, qv)
  {
    assert targets[..i + 1][..i] == targets[..i];
  }

  /** The world v after the removal: a target with a market loses the commodity
      by remove_clamped; every other world is unchanged. */
  function AfterRemoval(w: WorldV, target: bool, c: CommodityId, q: real): WorldV
    requires q >= 0.0
  {
    if target && w.market.Some? then w.(market := Some(w.market.value.(stock := RemovedClamped(w.market.value.stock, c, q).value.stock)))
    else w
  }

  /** With distinct targets, every target with a market has the commodity
      removed (clamped) exactly once, and every other world is unchanged. */
  lemma {:induction false} RemovedFromFacts(worlds: Dict<WorldId, WorldV>, targets: seq<WorldId>, cv: Value, qv: Value, v: WorldId)
    requires forall t :: t in targets ==> t in worlds.vals
    requires Distinct(targets) && RemovedFrom(worlds, targets, cv, qv).Ok? && v in worlds.vals
    requires (exists t :: t in targets && worlds.vals[t].market.Some?) ==> cv.Str? && IsNumber(qv) && NumberOf(qv) >= 0.0
    ensures cv.Str? && IsNumber(qv) && NumberOf(qv) >= 0.0 ==>
      RemovedFrom(worlds, targets, cv, qv).value.vals[v] == AfterRemoval(worlds.vals[v], v in targets, cv.s, NumberOf(qv))
    ensures v !in targets ==> RemovedFrom(worlds, targets, cv, qv).value.vals[v] == worlds.vals[v]
    decreases |targets|
  {
    if targets != [] {
      var pre := targets[..|targets| - 1];
      var t := targets[|targets| - 1];
      assert targets == pre + [t];
      assert Distinct(pre) by {
        forall i, j | 0 <= i < j < |pre| ensures pre[i] != pre[j] { assert pre[i] == targets[i] && pre[j] == targets[j]; }
      }
      assert t !in pre by {
        forall i | 0 <= i < |pre| ensures pre[i] != t { assert pre[i] == targets[i]; }
      }
      RemovedFromFacts(worlds, pre, cv, qv, v);
      RemovedFromFacts(worlds, pre, cv, qv, t);
    }
  }

  /** remove_inventory_random_worlds: min(num_worlds, #worlds) distinct worlds
      drawn by sample, then the commodity removed (clamped) from each of them
      that has a market. */
  function RandomRemoval(u: Sim, draws: nat -> nat, e: Value): (r: Result<Sim>)
    requires u.worlds.Valid()
  {
    var cv :- Field(e, "commodity_id");
    var qv :- Field(e, "quantity");
    var nv :- Field(e, "num_worlds");
    var k :- SampleCount(nv, |u.worlds.keys|);
    var targets := Sampled(u.worlds.keys, k, draws, u.pos);
    var worlds :- RemovedFrom(u.worlds, targets, cv, qv);
    Ok(Sim(worlds, u.lanes, u.pos + k))
  }

  /** The removal acts on min(num_worlds, #worlds) distinct worlds, one output
      each; a world outside them is unchanged, and a drawn world with a
      market has the commodity removed by remove_clamped. */
  lemma RandomRemovalFacts(u: Sim, draws: nat -> nat, e: Value, v: WorldId)
    requires u.worlds.Valid() && RandomRemoval(u, draws, e).Ok? && v in u.worlds.vals
    ensures HasKey(e, "num_worlds") && IsNumber(e.fields.vals["num_worlds"])
    ensures var k := SampleCount(e.fields.vals["num_worlds"], |u.worlds.keys|).value;
      var targets := Sampled(u.worlds.keys, k, draws, u.pos);
      var r := RandomRemoval(u, draws, e).value;
      |targets| == k && Distinct(targets) && k as real == Min(NumberOf(e.fields.vals["num_worlds"]), |u.worlds.keys| as real) &&
      r.lanes == u.lanes && r.pos == u.pos + k &&
      r.worlds.keys == u.worlds.keys && r.worlds.vals.Keys == u.worlds.vals.Keys &&
      (v !in targets ==> r.worlds.vals[v] == u.worlds.vals[v])
    ensures var k := SampleCount(e.fields.vals["num_worlds"], |u.worlds.keys|).value;
      var targets := Sampled(u.worlds.keys, k, draws, u.pos);
      var cv := e.fields.vals["commodity_id"];
      var qv := e.fields.vals["quantity"];
      (exists t :: t in targets && u.worlds.vals[t].market.Some?) ==>
        cv.Str? && IsNumber(qv) && NumberOf(qv) >= 0.0 &&
        RandomRemoval(u, draws, e).value.worlds.vals[v] == AfterRemoval(u.worlds.vals[v], v in targets, cv.s, NumberOf(qv))
  {
    var cv := e.fields.vals["commodity_id"];
    var qv := e.fields.vals["quantity"];
    var k := SampleCount(e.fields.vals["num_worlds"], |u.worlds.keys|).value;
    var targets := Sampled(u.worlds.keys, k, draws, u.pos);
    if exists t :: t in targets && u.worlds.vals[t].market.Some? {
      var t :| t in targets && u.worlds.vals[t].market.Some?;
      RemovedFromNeeds(u.worlds, targets, cv, qv, t);
    }
    RemovedFromFacts(u.worlds, targets, cv, qv, v);
  }

  /** A successful removal that reached a world with a market had a string
      commodity id and a non-negative quantity. */
  lemma {:induction false} RemovedFromNeeds(worlds: Dict<WorldId, WorldV>, targets: seq<WorldId>, cv: Value, qv: Value, t: WorldId)
    requires forall x :: x in targets ==> x in worlds.vals
    requires RemovedFrom(worlds, targets, cv, qv).Ok? && t in targets && worlds.vals[t].market.Some?
    ensures cv.Str? && IsNumber(qv) && NumberOf(qv) >= 0.0
    decreases |targets|
  {
    var pre := targets[..|targets| - 1];
    var last := targets[|targets| - 1];
    assert targets == pre + [last];
    if t in pre {
      RemovedFromNeeds(worlds, pre, cv, qv, t);
    } else {
      RemovedFromMarkets(worlds, pre, cv, qv, t);
    }
  }

  /** The removal loop never adds or drops a market. */
  lemma {:induction false} RemovedFromMarkets(worlds: Dict<WorldId, WorldV>, targets: seq<WorldId>, cv: Value, qv: Value, v: WorldId)
    requires forall x :: x in targets ==> x in worlds.vals
    requires RemovedFrom(worlds, targets, cv, qv).Ok? && v in worlds.vals
    ensures RemovedFrom(worlds, targets, cv, qv).value.vals[v].market.Some? == worlds.vals[v].market.Some?
    decreases |targets|
  {
    if targets != [] {
      RemovedFromMarkets(worlds, targets[..|targets| - 1], cv, qv, v);
    }
  }

  // ----- one effect -----

  /** apply_effect(effect, world, state) on the world listed under wid. */
  function Applied(u: Sim, adj: Adjacency, draws: nat -> nat, e: Value, wid: WorldId): (r: Result<Sim>)
    requires u.worlds.Valid() && AdjacencyKnown(adj, u.lanes) && wid in u.worlds.vals
    ensures !HasKey(e, "type") ==> r.Fail?
    ensures HasKey(e, "type") && e.fields.vals["type"] !in EFFECT_TYPES ==> r == Ok(u)
  {
    var ty :- Field(e, "type");
    var w := u.worlds.vals[wid];
    if ty.Str? && ty.s in FIELD_EFFECTS then
      var w' :- FieldChanged(w, ty.s, e);
      Ok(u.(worlds := u.worlds.Put(wid, w')))
    else if ty == Str("add_inventory") || ty == Str("remove_inventory") then
      var w' :- StockChanged(w, e, ty == Str("add_inventory"));
      Ok(u.(worlds := u.worlds.Put(wid, w')))
    else if ty == Str("change_lane_hazard") then HazardChanged(u, adj, draws, e, w)
    else if ty == Str("remove_inventory_random_worlds") then RandomRemoval(u, draws, e)
    else Ok(u)
  }

  /** An effect keeps the worlds and lanes listed as they were, each world's
      id and faction state, and the consistency the faction stage relies on;
      it uses outputs only forward. */
  predicate Reshaped(u: Sim, r: Sim) {
    r.worlds.keys == u.worlds.keys && r.worlds.vals.Keys == u.worlds.vals.Keys &&
    r.lanes.keys == u.lanes.keys && r.lanes.vals.Keys == u.lanes.vals.Keys && u.pos <= r.pos &&
    (forall v :: v in u.worlds.vals ==> r.worlds.vals[v].id == u.worlds.vals[v].id &&
                                         r.worlds.vals[v].factions == u.worlds.vals[v].factions)
  }

  lemma AppliedKeeps(u: Sim, adj: Adjacency, draws: nat -> nat, e: Value, wid: WorldId)
    requires Consistent(u, adj) && wid in u.worlds.vals && Applied(u, adj, draws, e, wid).Ok?
    ensures Reshaped(u, Applied(u, adj, draws, e, wid).value)
    ensures Consistent(Applied(u, adj, draws, e, wid).value, adj)
  {
    var ty := e.fields.vals["type"];
    var w := u.worlds.vals[wid];
    if ty.Str? && ty.s in FIELD_EFFECTS {
      WorldPutKeeps(u, adj, wid, FieldChanged(w, ty.s, e).value);
    } else if ty == Str("add_inventory") || ty == Str("remove_inventory") {
      WorldPutKeeps(u, adj, wid, StockChanged(w, e, ty == Str("add_inventory")).value);
    } else if ty == Str("change_lane_hazard") {
      HazardChangedFacts(u, adj, draws, e, u.worlds.vals[wid]);
    } else if ty == Str("remove_inventory_random_worlds") {
      var r := Applied(u, adj, draws, e, wid).value;
      forall v | v in u.worlds.vals ensures r.worlds.vals[v].id == u.worlds.vals[v].id &&
                                            r.worlds.vals[v].factions == u.worlds.vals[v].factions {
        RandomRemovalShape(u, draws, e, v);
      }
    }
  }

  lemma WorldPutKeeps(u: Sim, adj: Adjacency, wid: WorldId, w': WorldV)
    requires Consistent(u, adj) && wid in u.worlds.vals
    requires w'.id == u.worlds.vals[wid].id && w'.factions == u.worlds.vals[wid].factions
    ensures Reshaped(u, u.(worlds := u.worlds.Put(wid, w'))) && Consistent(u.(worlds := u.worlds.Put(wid, w')), adj)
  {
  }

  lemma RandomRemovalShape(u: Sim, draws: nat -> nat, e: Value, v: WorldId)
    requires u.worlds.Valid() && RandomRemoval(u, draws, e).Ok? && v in u.worlds.vals
    ensures var r := RandomRemoval(u, draws, e).value;
      r.worlds.vals[v] == u.worlds.vals[v].(market := r.worlds.vals[v].market)
  {
    var k := SampleCount(e.fields.vals["num_worlds"], |u.worlds.keys|).value;
    var targets := Sampled(u.worlds.keys, k, draws, u.pos);
    RemovedFromShape(u.worlds, targets, e.fields.vals["commodity_id"], e.fields.vals["quantity"], v);
  }

  lemma {:induction false} RemovedFromShape(worlds: Dict<WorldId, WorldV>, targets: seq<WorldId>, cv: Value, qv: Value, v: WorldId)
    requires forall x :: x in targets ==> x in worlds.vals
    requires RemovedFrom(worlds, targets, cv, qv).Ok? && v in worlds.vals
    ensures var r := RemovedFrom(worlds, targets, cv, qv).value;
      r.vals[v] == worlds.vals[v].(market := r.vals[v].market)
    decreases |targets|
  {
    if targets != [] {
      RemovedFromShape(worlds, targets[..|targets| - 1], cv, qv, v);
    }
  }

  // ----- the effect on the universe state -----

  /** The lane step of change_lane_hazard. */
  method ChangeLaneHazard(state: UniverseState, e: Value, w: WorldV) returns (r: Result<()>)
    requires e.Obj? && AdjacencyKnown(state.adj, state.lanes)
    modifies state`lanes, state.rng
    ensures var out := HazardChanged(Sim(state.worlds, old(state.lanes), old(state.rng.pos)), state.adj, state.rng.draws, e, w);
      (r.Ok? <==> out.Ok?) && (r.Ok? ==> out.value == Sim(state.worlds, state.lanes, state.rng.pos))
  {
    var lid := e.fields.Get("lane_id", Null);
    if Docs.Truthy(lid) {
      if Unhashable(lid) {
        return Fail(TypeMismatch("lane_id"));
      }
      if lid.Str? && lid.s in state.lanes.vals {
        var d :- NumberAt(e, "delta", 0.0);
        state.lanes := state.lanes.Put(lid.s, Hazarded(state.lanes.vals[lid.s], d));
      }
      return Ok(());
    }
    var ids := state.adj.Get(w.id, []);
    if ids == [] {
      return Ok(());
    }
    var l := state.rng.Choice(ids);
    var d :- NumberAt(e, "delta", 0.0);
    state.lanes := state.lanes.Put(l, Hazarded(state.lanes.vals[l], d));
    return Ok(());
  }

  /** target_world.market.inventory.remove_clamped(commodity_id, quantity_per_world)
      for one drawn world that has a market. */
  method RemoveAt(state: UniverseState, t: WorldId, cv: Value, qv: Value) returns (r: Result<()>)
    requires t in state.worlds.vals
    modifies state`worlds
    ensures var out := RemovedAt(old(state.worlds), t, cv, qv);
      (r.Ok? <==> out.Ok?) && (r.Ok? ==> out.value == state.worlds) && (r.Fail? ==> out == Fail(r.error))
  {
    var w := state.worlds.vals[t];
    if w.market.None? {
      return Ok(());
    }
    var c :- AsString(cv, "commodity_id");
    var q :- AsNumber(qv, "quantity");
    var rm :- RemovedClamped(w.market.value.stock, c, q);
    state.worlds := state.worlds.Put(t, w.(market := Some(w.market.value.(stock := rm.stock))));
    return Ok(());
  }

  /** The removal loop of remove_inventory_random_worlds. */
  method RemoveFromWorlds(state: UniverseState, targets: seq<WorldId>, cv: Value, qv: Value) returns (r: Result<()>)
    requires forall t :: t in targets ==> t in state.worlds.vals
    modifies state`worlds
    ensures var out := RemovedFrom(old(state.worlds), targets, cv, qv);
      (r.Ok? <==> out.Ok?) && (r.Ok? ==> out.value == state.worlds)
  {
    ghost var start := state.worlds;
    ghost var cur := start;
    var i := 0;
    while i < |targets|
      invariant 0 <= i <= |targets| && state.worlds == cur
      invariant RemovedFrom(start, targets[..i], cv, qv) == Ok(cur)
    {
      RemovedFromNext(start, targets, cv, qv, i, cur);
      var done := RemoveAt(state, targets[i], cv, qv);
      if done.Fail? {
        RemovedFromStopped(start, targets, cv, qv, i + 1);
        return done;
      }
      cur := state.worlds;
      i := i + 1;
    }
    assert targets[..i] == targets;
    return Ok(());
  }

  lemma {:induction false} RemovedFromStopped(worlds: Dict<WorldId, WorldV>, targets: seq<WorldId>, cv: Value, qv: Value, j: nat)
    requires forall t :: t in targets ==> t in worlds.vals
    requires j <= |targets| && RemovedFrom(worlds, targets[..j], cv, qv).Fail?
    ensures RemovedFrom(worlds, targets, cv, qv) == RemovedFrom(worlds, targets[..j], cv, qv)
    decreases |targets| - j
  {
    if j < |targets| {
      assert targets[..j + 1][..j] == targets[..j];
      RemovedFromStopped(worlds, targets, cv, qv, j + 1);
    } else {
      assert targets[..j] == targets;
    }
  }

  /** remove_inventory_random_worlds on the universe state. */
  method RemoveRandomWorlds(state: UniverseState, e: Value) returns (r: Result<()>)
    requires state.worlds.Valid()
    modifies state`worlds, state.rng
    ensures var out := RandomRemoval(Sim(old(state.worlds), state.lanes, old(state.rng.pos)), state.rng.draws, e);
      (r.Ok? <==> out.Ok?) && (r.Ok? ==> out.value == Sim(state.worlds, state.lanes, state.rng.pos))
  {
    var cv :- Field(e, "commodity_id");
    var qv :- Field(e, "quantity");
    var nv :- Field(e, "num_worlds");
    var k :- SampleCount(nv, |state.worlds.keys|);
    var targets := state.rng.Sample(state.worlds.keys, k);
    r := RemoveFromWorlds(state, targets, cv, qv);
  }

  /** apply_effect(effect, state.worlds[wid], state). */
  method ApplyEffect(state: UniverseState, e: Value, wid: WorldId) returns (r: Result<()>)
    requires state.worlds.Valid() && AdjacencyKnown(state.adj, state.lanes) && wid in state.worlds.vals
    modifies state`worlds, state`lanes, state.rng
    ensures var out := Applied(Sim(old(state.worlds), old(state.lanes), old(state.rng.pos)), state.adj, state.rng.draws, e, wid);
      (r.Ok? <==> out.Ok?) && (r.Ok? ==> out.value == Sim(state.worlds, state.lanes, state.rng.pos))
  {
    var ty :- Field(e, "type");
    var w := state.worlds.vals[wid];
    if ty.Str? && ty.s in FIELD_EFFECTS {
      var w' :- FieldChanged(w, ty.s, e);
      state.worlds := state.worlds.Put(wid, w');
    } else if ty == Str("add_inventory") || ty == Str("remove_inventory") {
      var w' :- StockChanged(w, e, ty == Str("add_inventory"));
      state.worlds := state.worlds.Put(wid, w');
    } else if ty == Str("change_lane_hazard") {
      r := ChangeLaneHazard(state, e, w);
      return;
    } else if ty == Str("remove_inventory_random_worlds") {
      r := RemoveRandomWorlds(state, e);
      return;
    }
    return Ok(());
  }
}
