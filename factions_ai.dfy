// factions/ai.py: the value of a world to a faction, and the greedy choice of
// one action per faction per tick.

module FactionAI {
  import opened Base
  import opened EconInventory
  import opened FactionModel
  import opened WorldModel
  import opened CoreState

  type Worlds = Dict<WorldId, WorldV>
  type Lanes = Dict<LaneId, LaneV>

  const FOOD: CommodityId := "food"
  const MINERALS: CommodityId := "minerals"
  const ALLOY: CommodityId := "alloy"
  const EXPAND: string := "expand_influence"
  const INVEST_CIVILIAN: string := "invest_civilian"
  const INVEST_MILITARY: string := "invest_military"

  /** The economic terms: 0.01 per food and 0.005 per mineral in the market,
      10 per industry cap. */
  function EconomicValue(w: WorldV): real {
    (if w.market.Some? then Amount(w.market.value.stock, FOOD, 0.0) * 0.01 + Amount(w.market.value.stock, MINERALS, 0.0) * 0.005
     else 0.0) +
    (if w.industry.Some? then |w.industry.value.caps.keys| as real * 10.0 else 0.0)
  }

  /** compute_world_value(faction, world, state): economic terms, 2 per
      neighbour, 50 for a capital and 30 for a sacred world, 20 for a world this
      faction controls, less 10 per unrest, 5 per scarcity and 15 per missing
      stability. */
  function WorldValue(f: Faction, w: WorldV, adj: Adjacency, lanes: Lanes): real
    requires AdjacencyKnown(adj, lanes)
  {
    EconomicValue(w) +
    |NeighborsOf(adj, lanes, w.id)| as real * 2.0 +
    (if "capital" in w.tags then 50.0 else 0.0) +
    (if "sacred" in w.tags then 30.0 else 0.0) +
    (if w.factions.Some? && w.factions.value.control == Some(f.id) then 20.0 else 0.0) -
    w.unrest * 10.0 - w.scarcity * 5.0 - (1.0 - w.stability) * 15.0
  }

  /** A world is worth exactly 20 more to the faction that controls it than to
      any other faction. */
  lemma WorldValueOwnership(f: Faction, g: Faction, w: WorldV, adj: Adjacency, lanes: Lanes)
    requires AdjacencyKnown(adj, lanes)
    requires w.factions.Some? && w.factions.value.control == Some(f.id) && g.id != f.id
    ensures WorldValue(f, w, adj, lanes) == WorldValue(g, w, adj, lanes) + 20.0
  {
  }

  // ----- select_action -----

  /** Every world is stored under its own id. */
  predicate WorldIdsMatch(worlds: Worlds) {
    forall k :: k in worlds.vals ==> worlds.vals[k].id == k
  }

  /** An action plan; a score of None stands for minus infinity. */
  datatype Action = Action(kind: string, target: Option<WorldId>, score: Option<real>)

  const NO_ACTION: Action := Action("no_action", None, None)

  datatype Candidate = Candidate(kind: string, target: WorldId, score: real)

  /** A candidate replaces the best so far only with a strictly higher score. */
  function Considered(best: Action, c: Candidate): (r: Action)
    ensures r == best || r == Action(c.kind, Some(c.target), Some(c.score))
  {
    if best.score.None? || c.score > best.score.value then Action(c.kind, Some(c.target), Some(c.score)) else best
  }

  /** The greedy scan over the candidates, in order. */
  function Best(best: Action, cs: seq<Candidate>): Action
    decreases |cs|
  {
    if cs == [] then best
    else Considered(Best(best, cs[..|cs| - 1]), cs[|cs| - 1])
  }

  /** The choice is the first candidate of maximal score; with none, no_action
      with no target and a score of minus infinity. */
  lemma {:induction false} BestIsFirstMaximum(cs: seq<Candidate>)
    ensures cs == [] ==> Best(NO_ACTION, cs) == NO_ACTION
    ensures cs != [] ==> exists i :: (0 <= i < |cs| && FirstMaximum(cs, i) &&
      Best(NO_ACTION, cs) == Action(cs[i].kind, Some(cs[i].target), Some(cs[i].score)))
    decreases |cs|
  {
    if cs != [] {
      var pre := cs[..|cs| - 1];
      var last := cs[|cs| - 1];
      BestIsFirstMaximum(pre);
      if pre == [] {
        assert FirstMaximum(cs, 0);
      } else {
        var i :| 0 <= i < |pre| && FirstMaximum(pre, i) &&
          Best(NO_ACTION, pre) == Action(pre[i].kind, Some(pre[i].target), Some(pre[i].score));
        if last.score > pre[i].score {
          forall j | 0 <= j < |cs| - 1 ensures cs[j].score < last.score {
            assert cs[j] == pre[j];
          }
          assert FirstMaximum(cs, |cs| - 1);
        } else {
          forall j | 0 <= j < |cs| ensures cs[j].score <= cs[i].score {
            if j < |cs| - 1 { assert cs[j] == pre[j]; }
          }
          forall j | 0 <= j < i ensures cs[j].score < cs[i].score {
            assert cs[j] == pre[j];
          }
          assert cs[i] == pre[i];
          assert FirstMaximum(cs, i);
        }
      }
    }
  }

  /** cs[i] has the maximal score and every earlier candidate a strictly lower one. */
  predicate FirstMaximum(cs: seq<Candidate>, i: nat)
    requires i < |cs|
  {
    (forall j :: 0 <= j < |cs| ==> cs[j].score <= cs[i].score) &&
    (forall j :: 0 <= j < i ==> cs[j].score < cs[i].score)
  }

  /** An expand candidate: a world with a faction state not controlled by this faction. */
  predicate ExpandEligible(f: Faction, w: WorldV) {
    w.factions.Some? && w.factions.value.control != Some(f.id)
  }

  /** An owned world with at least `needed` of commodity c in its market. */
  predicate InvestEligible(f: Faction, w: WorldV, c: CommodityId, needed: real) {
    w.factions.Some? && w.factions.value.control == Some(f.id) &&
    w.market.Some? && Amount(w.market.value.stock, c, 0.0) >= needed
  }

  function CivilianScore(w: WorldV): real { w.prosperity * 10.0 + (1.0 - w.scarcity) * 5.0 }

  function MilitaryScore(w: WorldV): real { w.unrest * 10.0 + (1.0 - w.stability) * 5.0 }

  /** The expand candidates over the worlds listed in keys, in order. */
  function ExpandCandidates(f: Faction, worlds: Worlds, keys: seq<WorldId>, adj: Adjacency, lanes: Lanes): seq<Candidate>
    requires AdjacencyKnown(adj, lanes) && forall k :: k in keys ==> k in worlds.vals
    decreases |keys|
  {
    if keys == [] then []
    else
      var k := keys[|keys| - 1];
      ExpandCandidates(f, worlds, keys[..|keys| - 1], adj, lanes) +
        (if ExpandEligible(f, worlds.vals[k]) then [Candidate(EXPAND, k, WorldValue(f, worlds.vals[k], adj, lanes))] else [])
  }

  /** The investment candidates of one kind over the worlds listed in keys, in order. */
  function InvestCandidates(f: Faction, worlds: Worlds, keys: seq<WorldId>, kind: string, c: CommodityId, needed: real,
                            score: WorldV -> real): seq<Candidate>
    requires forall k :: k in keys ==> k in worlds.vals
    decreases |keys|
  {
    if keys == [] then []
    else
      var k := keys[|keys| - 1];
      InvestCandidates(f, worlds, keys[..|keys| - 1], kind, c, needed, score) +
        (if InvestEligible(f, worlds.vals[k], c, needed) then [Candidate(kind, k, score(worlds.vals[k]))] else [])
  }

  /** Expand candidates are exactly the eligible listed worlds, each scored by its value. */
  lemma {:induction false} ExpandCandidatesMembers(f: Faction, worlds: Worlds, keys: seq<WorldId>, adj: Adjacency, lanes: Lanes, x: Candidate)
    requires AdjacencyKnown(adj, lanes) && forall k :: k in keys ==> k in worlds.vals
    ensures x in ExpandCandidates(f, worlds, keys, adj, lanes) <==>
      x.target in keys && x.kind == EXPAND && ExpandEligible(f, worlds.vals[x.target]) &&
      x.score == WorldValue(f, worlds.vals[x.target], adj, lanes)
    decreases |keys|
  {
    if keys != [] {
      var pre := keys[..|keys| - 1];
      ExpandCandidatesMembers(f, worlds, pre, adj, lanes, x);
      assert x.target in keys <==> x.target in pre || x.target == keys[|keys| - 1];
    }
  }

  /** Investment candidates are exactly the eligible listed worlds, each scored by `score`. */
  lemma {:induction false} InvestCandidatesMembers(f: Faction, worlds: Worlds, keys: seq<WorldId>, kind: string, c: CommodityId,
                                                   needed: real, score: WorldV -> real, x: Candidate)
    requires forall k :: k in keys ==> k in worlds.vals
    ensures x in InvestCandidates(f, worlds, keys, kind, c, needed, score) <==>
      x.target in keys && x.kind == kind && InvestEligible(f, worlds.vals[x.target], c, needed) &&
      x.score == score(worlds.vals[x.target])
    decreases |keys|
  {
    if keys != [] {
      var pre := keys[..|keys| - 1];
      InvestCandidatesMembers(f, worlds, pre, kind, c, needed, score, x);
      assert x.target in keys <==> x.target in pre || x.target == keys[|keys| - 1];
    }
  }

  /** Scanning one more candidate. */
  lemma BestAppend(b: Action, xs: seq<Candidate>, ys: seq<Candidate>)
    requires |ys| <= 1
    ensures Best(b, xs + ys) == if ys == [] then Best(b, xs) else Considered(Best(b, xs), ys[0])
  {
    if ys == [] {
      assert xs + ys == xs;
    } else {
      assert (xs + ys)[..|xs + ys| - 1] == xs;
    }
  }

  /** Every candidate, category by category: expand, then civilian investment
      for an expansionist faction, then military investment for an aggressive one. */
  function Candidates(f: Faction, worlds: Worlds, adj: Adjacency, lanes: Lanes): seq<Candidate>
    requires AdjacencyKnown(adj, lanes) && worlds.Valid() && WorldIdsMatch(worlds)
  {
    ExpandCandidates(f, worlds, worlds.keys, adj, lanes) +
    (if "expansionist" in f.traits then InvestCandidates(f, worlds, worlds.keys, INVEST_CIVILIAN, MINERALS, 10.0, CivilianScore) else []) +
    (if "aggressive" in f.traits then InvestCandidates(f, worlds, worlds.keys, INVEST_MILITARY, ALLOY, 5.0, MilitaryScore) else [])
  }

  /** select_action(faction, state) */
  function SelectedAction(f: Faction, worlds: Worlds, adj: Adjacency, lanes: Lanes): Action
    requires AdjacencyKnown(adj, lanes) && worlds.Valid() && WorldIdsMatch(worlds)
  {
    Best(NO_ACTION, Candidates(f, worlds, adj, lanes))
  }

  /** What select_action promises: no_action exactly when there is no
      candidate; otherwise a candidate of maximal score, the earliest one on a
      tie, expand before civilian before military and worlds in order. */
  lemma SelectedActionFacts(f: Faction, worlds: Worlds, adj: Adjacency, lanes: Lanes)
    requires AdjacencyKnown(adj, lanes) && worlds.Valid() && WorldIdsMatch(worlds)
    ensures var cs := Candidates(f, worlds, adj, lanes);
      (SelectedAction(f, worlds, adj, lanes) == NO_ACTION <==> cs == []) &&
      (cs != [] ==> exists i :: (0 <= i < |cs| && FirstMaximum(cs, i) &&
        SelectedAction(f, worlds, adj, lanes) == Action(cs[i].kind, Some(cs[i].target), Some(cs[i].score))))
  {
    BestIsFirstMaximum(Candidates(f, worlds, adj, lanes));
  }

  /** A chosen action names a known world and is one of the three kinds. */
  lemma SelectedActionKinds(f: Faction, worlds: Worlds, adj: Adjacency, lanes: Lanes)
    requires AdjacencyKnown(adj, lanes) && worlds.Valid() && WorldIdsMatch(worlds)
    ensures var a := SelectedAction(f, worlds, adj, lanes);
      a == NO_ACTION ||
      (a.target.Some? && a.target.value in worlds.vals && a.score.Some? &&
       ((a.kind == EXPAND && ExpandEligible(f, worlds.vals[a.target.value])) ||
        (a.kind == INVEST_CIVILIAN && "expansionist" in f.traits && InvestEligible(f, worlds.vals[a.target.value], MINERALS, 10.0)) ||
        (a.kind == INVEST_MILITARY && "aggressive" in f.traits && InvestEligible(f, worlds.vals[a.target.value], ALLOY, 5.0))))
  {
    var cs := Candidates(f, worlds, adj, lanes);
    BestIsFirstMaximum(cs);
    if cs != [] {
      var keys := worlds.keys;
      var i :| 0 <= i < |cs| && SelectedAction(f, worlds, adj, lanes) == Action(cs[i].kind, Some(cs[i].target), Some(cs[i].score));
      var x := cs[i];
      assert x in cs;
      var e := ExpandCandidates(f, worlds, keys, adj, lanes);
      var civ := if "expansionist" in f.traits then InvestCandidates(f, worlds, keys, INVEST_CIVILIAN, MINERALS, 10.0, CivilianScore) else [];
      var mil := if "aggressive" in f.traits then InvestCandidates(f, worlds, keys, INVEST_MILITARY, ALLOY, 5.0, MilitaryScore) else [];
      assert x in e || x in civ || x in mil;
      ExpandCandidatesMembers(f, worlds, keys, adj, lanes, x);
      InvestCandidatesMembers(f, worlds, keys, INVEST_CIVILIAN, MINERALS, 10.0, CivilianScore, x);
      InvestCandidatesMembers(f, worlds, keys, INVEST_MILITARY, ALLOY, 5.0, MilitaryScore, x);
    }
  }

  /** select_action as the source writes it: three scans of the worlds
      updating the best plan so far; nothing is changed. */
  method SelectAction(f: Faction, worlds: Worlds, adj: Adjacency, lanes: Lanes) returns (a: Action)
    requires AdjacencyKnown(adj, lanes) && worlds.Valid() && WorldIdsMatch(worlds)
    ensures a == SelectedAction(f, worlds, adj, lanes)
  {
    var keys := worlds.keys;
    ghost var e := ExpandCandidates(f, worlds, keys, adj, lanes);
    a := ScanExpand(f, worlds, adj, lanes);
    ghost var civ := if "expansionist" in f.traits then InvestCandidates(f, worlds, keys, INVEST_CIVILIAN, MINERALS, 10.0, CivilianScore) else [];
    ghost var mil := if "aggressive" in f.traits then InvestCandidates(f, worlds, keys, INVEST_MILITARY, ALLOY, 5.0, MilitaryScore) else [];
    if "expansionist" in f.traits {
      a := ScanInvest(f, worlds, a, e, INVEST_CIVILIAN, MINERALS, 10.0, CivilianScore);
    } else {
      assert e + civ == e;
    }
    if "aggressive" in f.traits {
      a := ScanInvest(f, worlds, a, e + civ, INVEST_MILITARY, ALLOY, 5.0, MilitaryScore);
    } else {
      assert e + civ + mil == e + civ;
    }
  }

  /** The expand scan of select_action. */
  method ScanExpand(f: Faction, worlds: Worlds, adj: Adjacency, lanes: Lanes) returns (a: Action)
    requires AdjacencyKnown(adj, lanes) && worlds.Valid() && WorldIdsMatch(worlds)
    ensures a == Best(NO_ACTION, ExpandCandidates(f, worlds, worlds.keys, adj, lanes))
  {
    var keys := worlds.keys;
    a := NO_ACTION;
    var i := 0;
    while i < |keys|
      invariant 0 <= i <= |keys|
      invariant a == Best(NO_ACTION, ExpandCandidates(f, worlds, keys[..i], adj, lanes))
    {
      assert keys[..i + 1][..i] == keys[..i];
      var w := worlds.vals[keys[i]];
      ghost var one := if ExpandEligible(f, w) then [Candidate(EXPAND, keys[i], WorldValue(f, w, adj, lanes))] else [];
      BestAppend(NO_ACTION, ExpandCandidates(f, worlds, keys[..i], adj, lanes), one);
      if ExpandEligible(f, w) {
        var value := WorldValue(f, w, adj, lanes);
        if a.score.None? || value > a.score.value {
          a := Action(EXPAND, Some(w.id), Some(value));
        }
      }
      i := i + 1;
    }
    assert keys[..i] == keys;
  }

  /** One investment scan of select_action, continuing from the plan chosen
      over the candidates before it. */
  method ScanInvest(f: Faction, worlds: Worlds, a0: Action, ghost before: seq<Candidate>, kind: string, c: CommodityId,
                    needed: real, score: WorldV -> real) returns (a: Action)
    requires worlds.Valid() && WorldIdsMatch(worlds)
    requires a0 == Best(NO_ACTION, before)
    ensures a == Best(NO_ACTION, before + InvestCandidates(f, worlds, worlds.keys, kind, c, needed, score))
  {
    var keys := worlds.keys;
    a := a0;
    assert before + [] == before;
    var i := 0;
    while i < |keys|
      invariant 0 <= i <= |keys|
      invariant a == Best(NO_ACTION, before + InvestCandidates(f, worlds, keys[..i], kind, c, needed, score))
    {
      var w := worlds.vals[keys[i]];
      InvestScanStep(f, worlds, keys, i, before, kind, c, needed, score);
      if InvestEligible(f, w, c, needed) {
        var value := score(w);
        if a.score.None? || value > a.score.value {
          a := Action(kind, Some(w.id), Some(value));
        }
      }
      i := i + 1;
    }
    assert keys[..i] == keys;
  }

  /** One world of an investment scan. */
  lemma InvestScanStep(f: Faction, worlds: Worlds, keys: seq<WorldId>, i: nat, before: seq<Candidate>, kind: string,
                       c: CommodityId, needed: real, score: WorldV -> real)
    requires i < |keys| && forall k :: k in keys ==> k in worlds.vals
    ensures var w := worlds.vals[keys[i]];
      var b := Best(NO_ACTION, before + InvestCandidates(f, worlds, keys[..i], kind, c, needed, score));
      Best(NO_ACTION, before + InvestCandidates(f, worlds, keys[..i + 1], kind, c, needed, score)) ==
        if InvestEligible(f, w, c, needed) then Considered(b, Candidate(kind, keys[i], score(w))) else b
  {
    assert keys[..i + 1][..i] == keys[..i];
    var w := worlds.vals[keys[i]];
    var pre := InvestCandidates(f, worlds, keys[..i], kind, c, needed, score);
    var one := if InvestEligible(f, w, c, needed) then [Candidate(kind, keys[i], score(w))] else [];
    assert before + InvestCandidates(f, worlds, keys[..i + 1], kind, c, needed, score) == (before + pre) + one;
    BestAppend(NO_ACTION, before + pre, one);
  }
}
