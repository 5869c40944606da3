// factions/actions.py: the faction actions, each a clamped update of one
// world's faction state, one world's fields or one lane's hazard.

module FactionActions {
  import opened Base
  import opened FactionModel
  import opened WorldModel
  import opened CoreState

  const INFLUENCE_STEP: real := 0.1
  const GARRISON_STEP: real := 10.0
  const RAID_STEP: real := 0.1
  const PATROL_STEP: real := 0.05
  const AID_STEP: real := 0.05

  type Worlds = Dict<WorldId, WorldV>
  type Lanes = Dict<LaneId, LaneV>

  /** Every faction state lists each faction's influence once. */
  predicate FactionStatesValid(worlds: Worlds) {
    forall w :: w in worlds.vals && worlds.vals[w].factions.Some? ==> worlds.vals[w].factions.value.influence.Valid()
  }

  /** influence[f] += 0.1, then resolve_control; the plain dict of a restored
      state raises KeyError for a faction it has not seen. */
  function Influenced(s: FactionStateV, f: FactionId): (r: Result<FactionStateV>)
    requires s.influence.Valid()
    ensures r.Ok? <==> s.defaults || f in s.influence.vals
    ensures r.Fail? ==> r.error == MissingKey(f)
    ensures r.Ok? ==> (r.value.influence.Valid() && f in r.value.influence.vals &&
      r.value.influence.vals[f] == s.influence.Get(f, 0.0) + INFLUENCE_STEP &&
      (forall g :: g != f ==> (g in r.value.influence.vals <==> g in s.influence.vals)) &&
      (forall g :: g in s.influence.vals && g != f ==> r.value.influence.vals[g] == s.influence.vals[g]))
    ensures r.Ok? ==> (r.value.garrison == s.garrison && r.value.defaults == s.defaults &&
      r.value.gain == s.gain && r.value.loss == s.loss)
    ensures r.Ok? ==> r.value.control == ResolvedControl(s.(influence := r.value.influence))
  {
    if !s.defaults && f !in s.influence.vals then Fail(MissingKey(f))
    else
      var raised := s.(influence := s.influence.Put(f, s.influence.Get(f, 0.0) + INFLUENCE_STEP));
      Ok(raised.(control := ResolvedControl(raised)))
  }

  /** expand_influence: a world with a faction state gets the influence step and
      a fresh control decision; otherwise False and nothing changes. */
  function ExpandedInfluence(worlds: Worlds, f: FactionId, w: WorldId): (r: Result<(Worlds, bool)>)
    requires FactionStatesValid(worlds)
    ensures w !in worlds.vals || worlds.vals[w].factions.None? ==> r == Ok((worlds, false))
    ensures r.Fail? ==> r.error == MissingKey(f)
    ensures r.Ok? && r.value.1 ==> (w in worlds.vals && worlds.vals[w].factions.Some? &&
      var s := Influenced(worlds.vals[w].factions.value, f);
      s.Ok? && r.value.0 == worlds.Put(w, worlds.vals[w].(factions := Some(s.value))))
    ensures r.Ok? ==> FactionStatesValid(r.value.0) && r.value.0.keys == worlds.keys
  {
    if w !in worlds.vals || worlds.vals[w].factions.None? then Ok((worlds, false))
    else
      var s :- Influenced(worlds.vals[w].factions.value, f);
      Ok((worlds.Put(w, worlds.vals[w].(factions := Some(s))), true))
  }

  /** garrison[f] += 10.0; the plain dict of a restored state raises KeyError
      for a faction it has not seen. */
  function Reinforced(s: FactionStateV, f: FactionId): (r: Result<FactionStateV>)
    ensures r.Ok? <==> s.defaults || f in s.garrison
    ensures r.Fail? ==> r.error == MissingKey(f)
    ensures r.Ok? ==> f in r.value.garrison && r.value.garrison[f] == (if f in s.garrison then s.garrison[f] else 0.0) + GARRISON_STEP
    ensures r.Ok? ==> forall g :: g != f ==> ((g in r.value.garrison <==> g in s.garrison) &&
                                        (g in s.garrison ==> r.value.garrison[g] == s.garrison[g]))
    ensures r.Ok? ==> r.value == s.(garrison := r.value.garrison)
  {
    if !s.defaults && f !in s.garrison then Fail(MissingKey(f))
    else Ok(s.(garrison := s.garrison[f := (if f in s.garrison then s.garrison[f] else 0.0) + GARRISON_STEP]))
  }

  /** reinforce: a world with a faction state gets the garrison step; otherwise
      False and nothing changes. */
  function ReinforcedWorld(worlds: Worlds, f: FactionId, w: WorldId): (r: Result<(Worlds, bool)>)
    ensures w !in worlds.vals || worlds.vals[w].factions.None? ==> r == Ok((worlds, false))
    ensures r.Fail? ==> r.error == MissingKey(f)
    ensures r.Ok? && r.value.1 ==> (w in worlds.vals && worlds.vals[w].factions.Some? &&
      var s := Reinforced(worlds.vals[w].factions.value, f);
      s.Ok? && r.value.0 == worlds.Put(w, worlds.vals[w].(factions := Some(s.value))))
    ensures r.Ok? ==> (FactionStatesValid(worlds) ==> FactionStatesValid(r.value.0)) && r.value.0.keys == worlds.keys
  {
    if w !in worlds.vals || worlds.vals[w].factions.None? then Ok((worlds, false))
    else
      var s :- Reinforced(worlds.vals[w].factions.value, f);
      Ok((worlds.Put(w, worlds.vals[w].(factions := Some(s))), true))
  }

  /** The lane's hazard replaced by h(hazard); False for an unknown lane. */
  function Rehazarded(lanes: Lanes, l: LaneId, h: real -> real): (r: (Lanes, bool))
    ensures r.1 <==> l in lanes.vals
    ensures !r.1 ==> r.0 == lanes
    ensures r.1 ==> r.0 == lanes.Put(l, lanes.vals[l].(hazard := h(lanes.vals[l].hazard)))
  {
    if l !in lanes.vals then (lanes, false)
    else (lanes.Put(l, lanes.vals[l].(hazard := h(lanes.vals[l].hazard))), true)
  }

  /** raid_lane: hazard := min(1, hazard + 0.1). */
  function Raided(lanes: Lanes, l: LaneId): (r: (Lanes, bool)) {
    Rehazarded(lanes, l, h => Min(1.0, h + RAID_STEP))
  }

  /** patrol_lane: hazard := max(0, hazard - 0.05). */
  function Patrolled(lanes: Lanes, l: LaneId): (r: (Lanes, bool)) {
    Rehazarded(lanes, l, h => Max(0.0, h - PATROL_STEP))
  }

  /** Every lane hazard lies in [0, 1]. */
  predicate HazardsInUnit(lanes: Lanes) {
    forall l :: l in lanes.vals ==> InUnit(lanes.vals[l].hazard)
  }

  /** A raid raises the hazard by 0.1 up to 1, a patrol lowers it by 0.05 down
      to 0; both keep every hazard in [0, 1], change no other lane field and no
      other lane, and report False exactly for an unknown lane. */
  lemma RaidPatrolFacts(lanes: Lanes, l: LaneId)
    ensures Raided(lanes, l).1 <==> l in lanes.vals
    ensures Patrolled(lanes, l).1 <==> l in lanes.vals
    ensures l !in lanes.vals ==> Raided(lanes, l).0 == lanes && Patrolled(lanes, l).0 == lanes
    ensures l in lanes.vals ==>
      var h := lanes.vals[l].hazard;
      Raided(lanes, l).0.vals == lanes.vals[l := lanes.vals[l].(hazard := Min(1.0, h + RAID_STEP))] &&
      Patrolled(lanes, l).0.vals == lanes.vals[l := lanes.vals[l].(hazard := Max(0.0, h - PATROL_STEP))] &&
      Raided(lanes, l).0.keys == lanes.keys && Patrolled(lanes, l).0.keys == lanes.keys &&
      (h <= 1.0 ==> h <= Raided(lanes, l).0.vals[l].hazard) && (h >= 0.0 ==> Patrolled(lanes, l).0.vals[l].hazard <= h)
    ensures HazardsInUnit(lanes) ==> HazardsInUnit(Raided(lanes, l).0) && HazardsInUnit(Patrolled(lanes, l).0)
  {
    if l in lanes.vals {
      var h := lanes.vals[l].hazard;
      assert Raided(lanes, l).0.vals[l].hazard == Min(1.0, h + RAID_STEP);
      assert Patrolled(lanes, l).0.vals[l].hazard == Max(0.0, h - PATROL_STEP);
    }
  }

  /** aid_world: stability and prosperity each rise by 0.05, capped at 1; False
      for an unknown world. */
  function Aided(worlds: Worlds, w: WorldId): (r: (Worlds, bool))
    ensures r.1 <==> w in worlds.vals
    ensures !r.1 ==> r.0 == worlds
    ensures r.1 ==> var v := worlds.vals[w];
      r.0 == worlds.Put(w, v.(stability := Min(1.0, v.stability + AID_STEP), prosperity := Min(1.0, v.prosperity + AID_STEP)))
    ensures FactionStatesValid(worlds) ==> FactionStatesValid(r.0)
  {
    if w !in worlds.vals then (worlds, false)
    else
      var v := worlds.vals[w];
      (worlds.Put(w, v.(stability := Min(1.0, v.stability + AID_STEP), prosperity := Min(1.0, v.prosperity + AID_STEP))), true)
  }

  /** Aid never lowers stability or prosperity and keeps them in [0, 1]. */
  lemma AidedBounds(worlds: Worlds, w: WorldId)
    requires w in worlds.vals
    ensures var v := worlds.vals[w]; var v' := Aided(worlds, w).0.vals[w];
      v.stability <= 1.0 ==> v.stability <= v'.stability <= 1.0
    ensures var v := worlds.vals[w]; var v' := Aided(worlds, w).0.vals[w];
      v.prosperity <= 1.0 ==> v.prosperity <= v'.prosperity <= 1.0
    ensures var v := worlds.vals[w]; var v' := Aided(worlds, w).0.vals[w];
      (InUnit(v.stability) ==> InUnit(v'.stability)) && (InUnit(v.prosperity) ==> InUnit(v'.prosperity))
  {
    var v := worlds.vals[w];
    assert Aided(worlds, w).0.vals[w] == v.(stability := Min(1.0, v.stability + AID_STEP), prosperity := Min(1.0, v.prosperity + AID_STEP));
  }

  /** After an expansion on a state with some influence, a controlled world
      stays controlled: control never reverts to None. */
  lemma ExpandKeepsControl(s: FactionStateV, f: FactionId)
    requires s.influence.Valid() && Influenced(s, f).Ok?
    ensures Influenced(s, f).value.influence.keys != []
    ensures s.control.Some? ==> Influenced(s, f).value.control.Some?
    ensures Influenced(s, f).value.control == None || Influenced(s, f).value.control == s.control ||
            Influenced(s, f).value.control == Some(Leader(Influenced(s, f).value.influence.keys, Influenced(s, f).value.influence.vals))
  {
    var r := Influenced(s, f).value;
    assert f in r.influence.keys;
    ResolvedControlChoices(s.(influence := r.influence));
  }

  /** A new faction state gains a controller after seven expansions by one
      faction (0.7 reaches the gain threshold) and not after six. */
  lemma ExpandScenario(f: FactionId)
    ensures var s0 := FactionStateV(EmptyDict(), map[], true, None, DEFAULT_GAIN, DEFAULT_LOSS);
      var s6 := Expansions(s0, f, 6);
      var s7 := Expansions(s0, f, 7);
      s6.Ok? && s6.value.control == None && s7.Ok? && s7.value.control == Some(f)
  {
    var s0 := FactionStateV(EmptyDict(), map[], true, None, DEFAULT_GAIN, DEFAULT_LOSS);
    ExpansionsOfOne(s0, f, 6);
    ExpansionsOfOne(s0, f, 7);
  }

  /** n expansions of f in a row. */
  function Expansions(s: FactionStateV, f: FactionId, n: nat): (r: Result<FactionStateV>)
    requires s.influence.Valid()
    ensures r.Ok? ==> r.value.influence.Valid()
  {
    if n == 0 then Ok(s)
    else
      var pre :- Expansions(s, f, n - 1);
      Influenced(pre, f)
  }

  /** From a new state, expansions by f alone give f an influence of 0.1 per
      expansion, and control is None until it reaches 0.7. */
  lemma {:induction false} ExpansionsOfOne(s0: FactionStateV, f: FactionId, n: nat)
    requires s0 == FactionStateV(EmptyDict(), map[], true, None, DEFAULT_GAIN, DEFAULT_LOSS)
    ensures var r := Expansions(s0, f, n);
      r.Ok? && r.value.defaults && r.value.gain == DEFAULT_GAIN &&
      (n > 0 ==> r.value.influence.keys == [f] && r.value.influence.vals == map[f := n as real * INFLUENCE_STEP]) &&
      (r.value.control == if n as real * INFLUENCE_STEP >= DEFAULT_GAIN then Some(f) else None)
  {
    if n > 0 {
      ExpansionsOfOne(s0, f, n - 1);
      var pre := Expansions(s0, f, n - 1).value;
      var x := (n - 1) as real * INFLUENCE_STEP;
      SoloStep(pre, f, x);
      assert Expansions(s0, f, n) == Influenced(pre, f);
      assert x + INFLUENCE_STEP == n as real * INFLUENCE_STEP;
    }
  }

  /** One expansion of the only faction with influence x. */
  lemma SoloStep(s: FactionStateV, f: FactionId, x: real)
    requires s.defaults && s.gain == DEFAULT_GAIN && s.influence.Valid() && x >= 0.0
    requires (s.influence.keys == [] && x == 0.0) || (s.influence.keys == [f] && s.influence.vals == map[f := x])
    requires s.control == if x >= DEFAULT_GAIN then Some(f) else None
    ensures var r := Influenced(s, f);
      r.Ok? && r.value.defaults && r.value.gain == DEFAULT_GAIN &&
      r.value.influence.keys == [f] && r.value.influence.vals == map[f := x + INFLUENCE_STEP] &&
      r.value.control == if x + INFLUENCE_STEP >= DEFAULT_GAIN then Some(f) else None
  {
    var r := Influenced(s, f).value;
    assert r.influence.keys == [f];
    assert r.influence.vals == map[f := x + INFLUENCE_STEP];
    assert Leader(r.influence.keys, r.influence.vals) == f;
  }

  // ----- the actions on the universe state -----

  /** expand_influence(faction_id, world_id, state) */
  method ExpandInfluence(state: UniverseState, f: FactionId, w: WorldId) returns (r: Result<bool>)
    requires FactionStatesValid(state.worlds)
    modifies state`worlds
    ensures var out := ExpandedInfluence(old(state.worlds), f, w);
      (r.Ok? <==> out.Ok?) && (r.Ok? ==> r.value == out.value.1 && state.worlds == out.value.0)
  {
    if w !in state.worlds.vals || state.worlds.vals[w].factions.None? {
      return Ok(false);
    }
    var world := state.worlds.vals[w];
    var s :- Influenced(world.factions.value, f);
    state.worlds := state.worlds.Put(w, world.(factions := Some(s)));
    return Ok(true);
  }

  /** reinforce(faction_id, world_id, state) */
  method Reinforce(state: UniverseState, f: FactionId, w: WorldId) returns (r: Result<bool>)
    modifies state`worlds
    ensures var out := ReinforcedWorld(old(state.worlds), f, w);
      (r.Ok? <==> out.Ok?) && (r.Ok? ==> r.value == out.value.1 && state.worlds == out.value.0)
  {
    if w !in state.worlds.vals || state.worlds.vals[w].factions.None? {
      return Ok(false);
    }
    var world := state.worlds.vals[w];
    var s :- Reinforced(world.factions.value, f);
    state.worlds := state.worlds.Put(w, world.(factions := Some(s)));
    return Ok(true);
  }

  /** raid_lane(faction_id, lane_id, state) */
  method RaidLane(state: UniverseState, l: LaneId) returns (ok: bool)
    modifies state`lanes
    ensures (state.lanes, ok) == Raided(old(state.lanes), l)
  {
    if l !in state.lanes.vals {
      return false;
    }
    var lane := state.lanes.vals[l];
    state.lanes := state.lanes.Put(l, lane.(hazard := Min(1.0, lane.hazard + RAID_STEP)));
    return true;
  }

  /** patrol_lane(faction_id, lane_id, state) */
  method PatrolLane(state: UniverseState, l: LaneId) returns (ok: bool)
    modifies state`lanes
    ensures (state.lanes, ok) == Patrolled(old(state.lanes), l)
  {
    if l !in state.lanes.vals {
      return false;
    }
    var lane := state.lanes.vals[l];
    state.lanes := state.lanes.Put(l, lane.(hazard := Max(0.0, lane.hazard - PATROL_STEP)));
    return true;
  }

  /** aid_world(faction_id, world_id, state) */
  method AidWorld(state: UniverseState, w: WorldId) returns (ok: bool)
    modifies state`worlds
    ensures (state.worlds, ok) == Aided(old(state.worlds), w)
  {
    if w !in state.worlds.vals {
      return false;
    }
    var v := state.worlds.vals[w];
    state.worlds := state.worlds.Put(w, v.(stability := Min(1.0, v.stability + AID_STEP), prosperity := Min(1.0, v.prosperity + AID_STEP)));
    return true;
  }
}
