// factions/integrate.py: each faction, in order, chooses one action on the
// current state and carries it out.
//
// invest_civilian_action and invest_military_action are named by the
// dispatch but defined nowhere; they are modelled as the other world actions
// are written: an unknown world gives False, otherwise the world investment
// runs on the shared generator and the result is True.

module FactionIntegrate {
  import opened Base
  import opened EconInventory
  import opened EconIndustry
  import opened EconInvestment
  import opened FactionModel
  import opened WorldModel
  import opened CoreState
  import opened CoreRng
  import opened FactionActions
  import opened FactionAI

  /** What the stage relies on: worlds listed once under their own ids with
      well-formed faction states, and an adjacency naming known lanes. */
  predicate Consistent(u: Sim, adj: Adjacency) {
    u.worlds.Valid() && WorldIdsMatch(u.worlds) && FactionStatesValid(u.worlds) && AdjacencyKnown(adj, u.lanes)
  }

  /** Worlds and lanes differ at most in the faction state, market and industry
      of each world; every other field and every lane is unchanged. */
  predicate OnlyHoldingsChanged(a: Sim, b: Sim) {
    b.lanes == a.lanes && b.worlds.keys == a.worlds.keys && b.worlds.vals.Keys == a.worlds.vals.Keys &&
    forall w :: w in a.worlds.vals ==>
      b.worlds.vals[w] == a.worlds.vals[w].(factions := b.worlds.vals[w].factions, market := b.worlds.vals[w].market,
                                            industry := b.worlds.vals[w].industry)
  }

  /** The world investment at world t on the next generator output. */
  function InvestedAt(u: Sim, draws: nat -> nat, t: WorldId, c: CommodityId, needed: real, cands: seq<RecipeId>): (r: Sim)
    requires needed >= 0.0
    ensures t !in u.worlds.vals ==> r == u
    ensures t in u.worlds.vals ==> var (w, drew) := InvestedWorld(u.worlds.vals[t], c, needed, cands, draws(u.pos));
      r == Sim(u.worlds.Put(t, w), u.lanes, if drew then u.pos + 1 else u.pos)
  {
    if t !in u.worlds.vals then u
    else
      var (w, drew) := InvestedWorld(u.worlds.vals[t], c, needed, cands, draws(u.pos));
      Sim(u.worlds.Put(t, w), u.lanes, if drew then u.pos + 1 else u.pos)
  }

  /** The dispatch of one action plan by faction f: an action runs only when its
      kind is one of the seven and its target is a non-empty id; anything else,
      no_action included, changes nothing. */
  function Dispatched(u: Sim, draws: nat -> nat, f: FactionId, a: Action): Result<Sim>
    requires FactionStatesValid(u.worlds)
  {
    if a.target.None? || !Base.Truthy(a.target.value) then Ok(u)
    else
      var t := a.target.value;
      if a.kind == EXPAND then
        var (worlds, _) :- ExpandedInfluence(u.worlds, f, t);
        Ok(u.(worlds := worlds))
      else if a.kind == "reinforce" then
        var (worlds, _) :- ReinforcedWorld(u.worlds, f, t);
        Ok(u.(worlds := worlds))
      else if a.kind == "raid_lane" then Ok(u.(lanes := Raided(u.lanes, t).0))
      else if a.kind == "patrol_lane" then Ok(u.(lanes := Patrolled(u.lanes, t).0))
      else if a.kind == "aid_world" then Ok(u.(worlds := Aided(u.worlds, t).0))
      else if a.kind == INVEST_CIVILIAN then Ok(InvestedAt(u, draws, t, EconInvestment.MINERALS, MINERALS_NEEDED, CIVILIAN_RECIPES))
      else if a.kind == INVEST_MILITARY then Ok(InvestedAt(u, draws, t, EconInvestment.ALLOY, ALLOYS_NEEDED, MILITARY_RECIPES))
      else Ok(u)
  }

  /** An unknown kind, no_action, or a missing or empty target changes nothing. */
  lemma DispatchedNoOp(u: Sim, draws: nat -> nat, f: FactionId, a: Action)
    requires FactionStatesValid(u.worlds)
    requires a.target.None? || a.target.value == "" ||
             a.kind !in {EXPAND, "reinforce", "raid_lane", "patrol_lane", "aid_world", INVEST_CIVILIAN, INVEST_MILITARY}
    ensures Dispatched(u, draws, f, a) == Ok(u)
  {
  }

  /** A dispatch keeps the state consistent. An action select_action can
      choose (expand or an investment, or no_action) changes only faction
      states, markets and industries, and uses at most one generator output. */
  lemma DispatchedKeeps(u: Sim, draws: nat -> nat, f: FactionId, a: Action, adj: Adjacency)
    requires Consistent(u, adj) && Dispatched(u, draws, f, a).Ok?
    ensures Consistent(Dispatched(u, draws, f, a).value, adj)
    ensures a.kind in {EXPAND, INVEST_CIVILIAN, INVEST_MILITARY, NO_ACTION.kind} ==>
      OnlyHoldingsChanged(u, Dispatched(u, draws, f, a).value)
    ensures u.pos <= Dispatched(u, draws, f, a).value.pos <= u.pos + 1
  {
    if a.target.Some? && Base.Truthy(a.target.value) {
      var t := a.target.value;
      if a.kind == EXPAND {
        ExpandedKeeps(u, f, t, adj);
      } else if a.kind == "reinforce" {
        ReinforcedKeeps(u, f, t, adj);
      } else if a.kind == "raid_lane" || a.kind == "patrol_lane" {
        RaidPatrolFacts(u.lanes, t);
      } else if a.kind == "aid_world" {
        AidedKeeps(u, t, adj);
      } else if a.kind == INVEST_CIVILIAN {
        InvestedAtKeeps(u, draws, t, EconInvestment.MINERALS, MINERALS_NEEDED, CIVILIAN_RECIPES, adj);
      } else if a.kind == INVEST_MILITARY {
        InvestedAtKeeps(u, draws, t, EconInvestment.ALLOY, ALLOYS_NEEDED, MILITARY_RECIPES, adj);
      }
    }
  }

  lemma ExpandedKeeps(u: Sim, f: FactionId, t: WorldId, adj: Adjacency)
    requires Consistent(u, adj) && ExpandedInfluence(u.worlds, f, t).Ok?
    ensures var r := u.(worlds := ExpandedInfluence(u.worlds, f, t).value.0);
      Consistent(r, adj) && OnlyHoldingsChanged(u, r)
  {
    var r := ExpandedInfluence(u.worlds, f, t).value.0;
    if t in u.worlds.vals && u.worlds.vals[t].factions.Some? {
      assert r.vals == u.worlds.vals[t := u.worlds.vals[t].(factions := r.vals[t].factions)];
    }
  }

  lemma ReinforcedKeeps(u: Sim, f: FactionId, t: WorldId, adj: Adjacency)
    requires Consistent(u, adj) && ReinforcedWorld(u.worlds, f, t).Ok?
    ensures Consistent(u.(worlds := ReinforcedWorld(u.worlds, f, t).value.0), adj)
  {
  }

  lemma AidedKeeps(u: Sim, t: WorldId, adj: Adjacency)
    requires Consistent(u, adj)
    ensures Consistent(u.(worlds := Aided(u.worlds, t).0), adj)
  {
  }

  lemma InvestedAtKeeps(u: Sim, draws: nat -> nat, t: WorldId, c: CommodityId, needed: real, cands: seq<RecipeId>, adj: Adjacency)
    requires Consistent(u, adj) && needed >= 0.0
    ensures var r := InvestedAt(u, draws, t, c, needed, cands);
      Consistent(r, adj) && OnlyHoldingsChanged(u, r) && u.pos <= r.pos <= u.pos + 1
  {
  }

  /** apply_faction_actions over the factions listed in keys, in order: each
      chooses on the state its predecessors left. */
  function Acted(u: Sim, draws: nat -> nat, factions: Dict<FactionId, Faction>, keys: seq<FactionId>, adj: Adjacency): (r: Result<Sim>)
    requires Consistent(u, adj) && forall k :: k in keys ==> k in factions.vals
    ensures r.Ok? ==> Consistent(r.value, adj)
    decreases |keys|
  {
    if keys == [] then Ok(u)
    else
      var pre :- Acted(u, draws, factions, keys[..|keys| - 1], adj);
      var k := keys[|keys| - 1];
      var a := SelectedAction(factions.vals[k], pre.worlds, adj, pre.lanes);
      DispatchedThen(pre, draws, k, a, adj)
  }

  /** A dispatch with its consistency carried in its contract. */
  function DispatchedThen(u: Sim, draws: nat -> nat, f: FactionId, a: Action, adj: Adjacency): (r: Result<Sim>)
    requires Consistent(u, adj)
    ensures r == Dispatched(u, draws, f, a)
    ensures r.Ok? ==> Consistent(r.value, adj)
  {
    var r := Dispatched(u, draws, f, a);
    if r.Ok? then DispatchedKeeps(u, draws, f, a, adj); r else r
  }

  lemma {:induction false} ActedStopped(u: Sim, draws: nat -> nat, factions: Dict<FactionId, Faction>, keys: seq<FactionId>,
                                        adj: Adjacency, j: nat)
    requires Consistent(u, adj) && forall k :: k in keys ==> k in factions.vals
    requires j <= |keys| && Acted(u, draws, factions, keys[..j], adj).Fail?
    ensures Acted(u, draws, factions, keys, adj).Fail?
    decreases |keys| - j
  {
    if j < |keys| {
      assert keys[..j + 1][..j] == keys[..j];
      ActedStopped(u, draws, factions, keys, adj, j + 1);
    } else {
      assert keys[..j] == keys;
    }
  }

  /** The faction stage never changes a lane or any world field other than its
      faction state, market and industry, and uses at most one generator
      output per faction. */
  lemma {:induction false} ActedOnlyHoldings(u: Sim, draws: nat -> nat, factions: Dict<FactionId, Faction>, keys: seq<FactionId>,
                                             adj: Adjacency)
    requires Consistent(u, adj) && forall k :: k in keys ==> k in factions.vals
    requires Acted(u, draws, factions, keys, adj).Ok?
    ensures OnlyHoldingsChanged(u, Acted(u, draws, factions, keys, adj).value)
    ensures u.pos <= Acted(u, draws, factions, keys, adj).value.pos <= u.pos + |keys|
    decreases |keys|
  {
    if keys != [] {
      var pre := keys[..|keys| - 1];
      ActedOnlyHoldings(u, draws, factions, pre, adj);
      var mid := Acted(u, draws, factions, pre, adj).value;
      var k := keys[|keys| - 1];
      var a := SelectedAction(factions.vals[k], mid.worlds, adj, mid.lanes);
      SelectedActionKinds(factions.vals[k], mid.worlds, adj, mid.lanes);
      DispatchedKeeps(mid, draws, k, a, adj);
    }
  }

  // ----- the stage on the universe state -----

  /** invest_civilian_action / invest_military_action at world t. */
  method InvestAt(state: UniverseState, t: WorldId, c: CommodityId, needed: real, cands: seq<RecipeId>) returns (ok: bool)
    requires needed >= 0.0
    modifies state`worlds, state.rng
    ensures ok <==> t in old(state.worlds).vals
    ensures Sim(state.worlds, state.lanes, state.rng.pos) ==
            InvestedAt(Sim(old(state.worlds), state.lanes, old(state.rng.pos)), state.rng.draws, t, c, needed, cands)
  {
    if t !in state.worlds.vals {
      return false;
    }
    var w := state.worlds.vals[t];
    if w.market.Some? && w.industry.Some? && Amount(w.market.value.stock, c, 0.0) >= needed {
      var spent := RemovedClamped(w.market.value.stock, c, needed).value.stock;
      var caps := w.industry.value.caps;
      var avail := Available(cands, caps);
      if avail != [] {
        var k := state.rng.Choice(avail);
        caps := caps.Put(k, caps.vals[k] + INVESTMENT_UNITS);
      }
      state.worlds := state.worlds.Put(t, w.(market := Some(w.market.value.(stock := spent)), industry := Some(IndustryV(caps))));
    } else {
      assert state.worlds.Put(t, InvestedWorld(w, c, needed, cands, state.rng.Peek()).0) == state.worlds;
    }
    return true;
  }

  /** The dispatch chain of apply_faction_actions for one plan. */
  method DispatchAction(state: UniverseState, f: FactionId, a: Action) returns (r: Result<()>)
    requires FactionStatesValid(state.worlds)
    modifies state`worlds, state`lanes, state.rng
    ensures var out := Dispatched(Sim(old(state.worlds), old(state.lanes), old(state.rng.pos)), state.rng.draws, f, a);
      (r.Ok? <==> out.Ok?) && (r.Ok? ==> out.value == Sim(state.worlds, state.lanes, state.rng.pos))
  {
    if a.target.None? || !Base.Truthy(a.target.value) {
      return Ok(());
    }
    var t := a.target.value;
    if a.kind == EXPAND {
      var ok :- ExpandInfluence(state, f, t);
    } else if a.kind == "reinforce" {
      var ok :- Reinforce(state, f, t);
    } else if a.kind == "raid_lane" {
      var ok := RaidLane(state, t);
    } else if a.kind == "patrol_lane" {
      var ok := PatrolLane(state, t);
    } else if a.kind == "aid_world" {
      var ok := AidWorld(state, t);
    } else if a.kind == INVEST_CIVILIAN {
      var ok := InvestAt(state, t, EconInvestment.MINERALS, MINERALS_NEEDED, CIVILIAN_RECIPES);
    } else if a.kind == INVEST_MILITARY {
      var ok := InvestAt(state, t, EconInvestment.ALLOY, ALLOYS_NEEDED, MILITARY_RECIPES);
    }
    return Ok(());
  }

  /** One pass of the loop: faction k selects on the current state and its
      plan is dispatched. */
  method ActOne(state: UniverseState, k: FactionId) returns (r: Result<()>)
    requires Consistent(Sim(state.worlds, state.lanes, state.rng.pos), state.adj) && k in state.factions.vals
    modifies state`worlds, state`lanes, state.rng
    ensures var u := Sim(old(state.worlds), old(state.lanes), old(state.rng.pos));
      var out := DispatchedThen(u, state.rng.draws, k, SelectedAction(state.factions.vals[k], u.worlds, state.adj, u.lanes), state.adj);
      (r.Ok? <==> out.Ok?) && (r.Ok? ==> out.value == Sim(state.worlds, state.lanes, state.rng.pos))
  {
    var plan := SelectAction(state.factions.vals[k], state.worlds, state.adj, state.lanes);
    r := DispatchAction(state, k, plan);
  }

  lemma ActedNext(u: Sim, draws: nat -> nat, factions: Dict<FactionId, Faction>, keys: seq<FactionId>, adj: Adjacency,
                  i: nat, mid: Sim)
    requires Consistent(u, adj) && forall k :: k in keys ==> k in factions.vals
    requires i < |keys| && Acted(u, draws, factions, keys[..i], adj) == Ok(mid)
    ensures Consistent(mid, adj)
    ensures Acted(u, draws, factions, keys[..i + 1], adj) ==
            DispatchedThen(mid, draws, keys[i], SelectedAction(factions.vals[keys[i]], mid.worlds, adj, mid.lanes), adj)
  {
    assert keys[..i + 1][..i] == keys[..i];
  }

  /** apply_faction_actions(state): every faction, in order, selects on the
      current state and its plan is dispatched; the success flag is dropped. */
  method ApplyFactionActions(state: UniverseState) returns (r: Result<()>)
    requires Consistent(Sim(state.worlds, state.lanes, state.rng.pos), state.adj) && state.factions.Valid()
    modifies state`worlds, state`lanes, state.rng
    ensures var out := Acted(Sim(old(state.worlds), old(state.lanes), old(state.rng.pos)), state.rng.draws,
                             state.factions, state.factions.keys, state.adj);
      (r.Ok? <==> out.Ok?) && (r.Ok? ==> out.value == Sim(state.worlds, state.lanes, state.rng.pos))
  {
    ghost var start := Sim(state.worlds, state.lanes, state.rng.pos);
    ghost var draws, adj := state.rng.draws, state.adj;
    var factions := state.factions;
    var keys := factions.keys;
    var i := 0;
    while i < |keys|
      invariant 0 <= i <= |keys|
      invariant Acted(start, draws, factions, keys[..i], adj) == Ok(Sim(state.worlds, state.lanes, state.rng.pos))
    {
      ghost var cur := Sim(state.worlds, state.lanes, state.rng.pos);
      ActedNext(start, draws, factions, keys, adj, i, cur);
      var done := ActOne(state, keys[i]);
      if done.Fail? {
        ActedStopped(start, draws, factions, keys, adj, i + 1);
        return Fail(done.error);
      }
      i := i + 1;
    }
    assert keys[..i] == keys;
    return Ok(());
  }
}
