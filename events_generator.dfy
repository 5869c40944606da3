// events/generator.py: the weight multiplier an event's conditions give a
// world, and the per-tick roll that draws events among the (event, world)
// pairs of positive weight.
//
// random.choices is modelled on the generator oracle: each of the k picks
// uses one output and selects one candidate. The weights shape only the
// probability of each candidate, which the oracle leaves open.

module EventGenerator {
  import opened Base
  import opened Docs
  import opened EventRegistry
  import opened WorldModel
  import opened CoreState
  import opened CoreRng

  /** condition.get(key, default), used where a number is needed. */
  function NumberAt(c: Value, key: string, default: real): (r: Result<real>)
    requires c.Obj?
    ensures !HasKey(c, key) ==> r == Ok(default)
    ensures HasKey(c, key) ==> r == AsNumber(c.fields.vals[key], key)
  {
    AsNumber(c.fields.Get(key, Float(default)), key)
  }

  /** `x >= min and x <= max`, min defaulting to 0.0 and max to 1.0; the
      bounds are inclusive, and max is read only when min holds. */
  function InBand(x: real, c: Value): (r: Result<bool>)
    requires c.Obj?
    ensures NumberAt(c, "min", 0.0).Ok? && NumberAt(c, "max", 1.0).Ok? ==>
      r == Ok(NumberAt(c, "min", 0.0).value <= x <= NumberAt(c, "max", 1.0).value)
    ensures !HasKey(c, "min") && !HasKey(c, "max") ==> r == Ok(0.0 <= x <= 1.0)
    ensures r.Fail? ==> r.error.TypeMismatch?
  {
    var lo :- NumberAt(c, "min", 0.0);
    if !(x >= lo) then Ok(false)
    else
      var hi :- NumberAt(c, "max", 1.0);
      Ok(x <= hi)
  }

  /** The lane loop of a lane_hazard condition: the first connected lane in the
      band stops it. */
  function AnyLaneInBand(ls: seq<LaneV>, c: Value): (r: Result<bool>)
    requires c.Obj?
    ensures ls == [] ==> r == Ok(false)
  {
    if ls == [] then Ok(false)
    else
      var met :- InBand(ls[0].hazard, c);
      if met then Ok(true) else AnyLaneInBand(ls[1..], c)
  }

  /** With numeric bounds, a lane_hazard condition holds iff some connected
      lane's hazard lies in the band. */
  lemma {:induction false} AnyLaneInBandExists(ls: seq<LaneV>, c: Value, lo: real, hi: real)
    requires c.Obj? && NumberAt(c, "min", 0.0) == Ok(lo) && NumberAt(c, "max", 1.0) == Ok(hi)
    ensures AnyLaneInBand(ls, c) == Ok(exists i :: 0 <= i < |ls| && lo <= ls[i].hazard <= hi)
    decreases |ls|
  {
    if ls != [] {
      AnyLaneInBandExists(ls[1..], c, lo, hi);
      if !(lo <= ls[0].hazard <= hi) {
        assert (exists i :: 0 <= i < |ls| && lo <= ls[i].hazard <= hi) <==>
               (exists i :: 0 <= i < |ls[1..]| && lo <= ls[1..][i].hazard <= hi) by {
          forall i | 0 < i < |ls| ensures ls[i] == ls[1..][i - 1] { }
        }
      }
    }
  }

  const CONDITION_TYPES: seq<Value> :=
    [Str("world_unrest"), Str("world_scarcity"), Str("world_tag"), Str("world_tech"), Str("lane_hazard")]

  /** A list or a mapping cannot be looked up in a Python set: a TypeError. */
  predicate Unhashable(v: Value) { v.List? || v.Obj? }

  /** Whether one condition of type ty is satisfied by world w with connected
      lanes ls. */
  function Met(ty: Value, c: Value, w: WorldV, ls: seq<LaneV>): (r: Result<bool>)
    requires c.Obj?
    ensures ty !in CONDITION_TYPES ==> r == Ok(false)
    ensures ty == Str("world_tag") && HasKey(c, "tag") && !Unhashable(c.fields.vals["tag"]) ==>
      r == Ok(c.fields.vals["tag"].Str? && c.fields.vals["tag"].s in w.tags)
    ensures ty == Str("world_tag") && HasKey(c, "tag") && Unhashable(c.fields.vals["tag"]) ==>
      r == Fail(TypeMismatch("tag"))
    ensures ty == Str("world_tag") && !HasKey(c, "tag") ==> r == Fail(MissingKey("tag"))
  {
    if ty == Str("world_unrest") then InBand(w.unrest, c)
    else if ty == Str("world_scarcity") then InBand(w.scarcity, c)
    else if ty == Str("world_tag") then
      var tag :- Field(c, "tag");
      if Unhashable(tag) then Fail(TypeMismatch("tag"))
      else Ok(tag.Str? && tag.s in w.tags)
    else if ty == Str("world_tech") then InBand(w.tech, c)
    else if ty == Str("lane_hazard") then AnyLaneInBand(ls, c)
    else Ok(false)
  }

  /** The factor one condition contributes: its weight_multiplier (default 1.0)
      when satisfied, 1.0 when not. A condition without a type is a KeyError. */
  function Factor(c: Value, w: WorldV, ls: seq<LaneV>): (r: Result<real>)
    ensures !HasKey(c, "type") ==> r.Fail?
    ensures r.Ok? ==> HasKey(c, "type") && Met(c.fields.vals["type"], c, w, ls).Ok?
    ensures r.Ok? && Met(c.fields.vals["type"], c, w, ls) == Ok(false) ==> r.value == 1.0
    ensures r.Ok? && Met(c.fields.vals["type"], c, w, ls) == Ok(true) ==> r == NumberAt(c, "weight_multiplier", 1.0)
  {
    var ty :- Field(c, "type");
    var met :- Met(ty, c, w, ls);
    if met then NumberAt(c, "weight_multiplier", 1.0) else Ok(1.0)
  }

  /** x * y on reals. */
  function Times(x: real, y: real): real { x * y }

  /** evaluate_event_conditions: the product of the condition factors, from 1.0. */
  function Multiplier(conds: seq<Value>, w: WorldV, ls: seq<LaneV>): (r: Result<real>)
    ensures conds == [] ==> r == Ok(1.0)
    decreases |conds|
  {
    if conds == [] then Ok(1.0)
    else
      var m :- Multiplier(conds[..|conds| - 1], w, ls);
      var f :- Factor(conds[|conds| - 1], w, ls);
      Ok(Times(m, f))
  }

  lemma {:induction false} MultiplierStopped(conds: seq<Value>, w: WorldV, ls: seq<LaneV>, j: nat)
    requires j <= |conds| && Multiplier(conds[..j], w, ls).Fail?
    ensures Multiplier(conds, w, ls) == Multiplier(conds[..j], w, ls)
    decreases |conds| - j
  {
    if j < |conds| {
      assert conds[..j + 1][..j] == conds[..j];
      MultiplierStopped(conds, w, ls, j + 1);
    } else {
      assert conds[..j] == conds;
    }
  }

  lemma MultiplierNext(conds: seq<Value>, w: WorldV, ls: seq<LaneV>, i: nat, m: real)
    requires i < |conds| && Multiplier(conds[..i], w, ls) == Ok(m)
    ensures var f := Factor(conds[i], w, ls);
      Multiplier(conds[..i + 1], w, ls) == if f.Fail? then Fail(f.error) else Ok(Times(m, f.value))
  {
    assert conds[..i + 1][..i] == conds[..i];
  }

  function Product(xs: seq<real>): real
    decreases |xs|
  {
    if xs == [] then 1.0 else Times(Product(xs[..|xs| - 1]), xs[|xs| - 1])
  }

  /** The weight_multiplier of each satisfied condition, in order: the
      reference reading of the condition loop. */
  function MetWeights(conds: seq<Value>, w: WorldV, ls: seq<LaneV>): Result<seq<real>>
    decreases |conds|
  {
    if conds == [] then Ok([])
    else
      var pre :- MetWeights(conds[..|conds| - 1], w, ls);
      var c := conds[|conds| - 1];
      var ty :- Field(c, "type");
      var met :- Met(ty, c, w, ls);
      if met then
        var m :- NumberAt(c, "weight_multiplier", 1.0);
        Ok(pre + [m])
      else Ok(pre)
  }

  /** The multiplier is multiplied once per satisfied condition by that
      condition's weight_multiplier and is left alone by every other one. */
  lemma {:induction false} MultiplierIsProduct(conds: seq<Value>, w: WorldV, ls: seq<LaneV>)
    ensures Multiplier(conds, w, ls).Ok? <==> MetWeights(conds, w, ls).Ok?
    ensures Multiplier(conds, w, ls).Ok? ==> Multiplier(conds, w, ls).value == Product(MetWeights(conds, w, ls).value)
    decreases |conds|
  {
    if conds != [] {
      var pre := conds[..|conds| - 1];
      MultiplierIsProduct(pre, w, ls);
      var c := conds[|conds| - 1];
      if MetWeights(conds, w, ls).Ok? {
        var ps := MetWeights(pre, w, ls).value;
        var ty := c.fields.vals["type"];
        if Met(ty, c, w, ls).value {
          var m := NumberAt(c, "weight_multiplier", 1.0).value;
          assert (ps + [m])[..|ps|] == ps;
        }
      }
    }
  }

  /** A world that satisfies none of the conditions keeps multiplier 1.0. */
  lemma {:induction false} MultiplierUnmet(conds: seq<Value>, w: WorldV, ls: seq<LaneV>)
    requires forall i :: 0 <= i < |conds| ==> Factor(conds[i], w, ls) == Ok(1.0)
    ensures Multiplier(conds, w, ls) == Ok(1.0)
    decreases |conds|
  {
    if conds != [] {
      var pre := conds[..|conds| - 1];
      assert forall i :: 0 <= i < |pre| ==> pre[i] == conds[i];
      MultiplierUnmet(pre, w, ls);
    }
  }

  // ----- candidates -----

  datatype Candidate = Candidate(event: EventDef, world: WorldId, weight: real)

  /** base_weight * multiplier for event e on world w. */
  function Weight(e: EventDef, w: WorldV, ls: seq<LaneV>): Result<real> {
    var m :- Multiplier(e.conditions, w, ls);
    Ok(Times(e.baseWeight, m))
  }

  /** The inner loop of generate_events for world k: the events of positive
      weight, in registry order. */
  function WorldCandidates(k: WorldId, w: WorldV, events: seq<EventDef>, ls: seq<LaneV>): (r: Result<seq<Candidate>>)
    decreases |events|
  {
    if events == [] then Ok([])
    else
      var pre :- WorldCandidates(k, w, events[..|events| - 1], ls);
      var e := events[|events| - 1];
      var wt :- Weight(e, w, ls);
      Ok(if wt > 0.0 then pre + [Candidate(e, k, wt)] else pre)
  }

  /** The lanes of world w, as lanes_from(world.id) returns them. */
  function LanesOf(worlds: Dict<WorldId, WorldV>, adj: Adjacency, lanes: Dict<LaneId, LaneV>, k: WorldId): seq<LaneV>
    requires AdjacencyKnown(adj, lanes) && k in worlds.vals
  {
    LanesFromOf(adj, lanes, worlds.vals[k].id)
  }

  /** The outer loop of generate_events over the worlds listed in keys. */
  function Candidates(worlds: Dict<WorldId, WorldV>, keys: seq<WorldId>, events: seq<EventDef>, adj: Adjacency,
                      lanes: Dict<LaneId, LaneV>): (r: Result<seq<Candidate>>)
    requires AdjacencyKnown(adj, lanes) && forall k :: k in keys ==> k in worlds.vals
    decreases |keys|
  {
    if keys == [] then Ok([])
    else
      var pre :- Candidates(worlds, keys[..|keys| - 1], events, adj, lanes);
      var k := keys[|keys| - 1];
      var more :- WorldCandidates(k, worlds.vals[k], events, LanesOf(worlds, adj, lanes, k));
      Ok(pre + more)
  }

  /** An (event, world) pair is a candidate with weight x exactly when the
      event is registered, the world is known and x = base_weight*multiplier > 0. */
  predicate IsCandidate(x: Candidate, worlds: Dict<WorldId, WorldV>, events: seq<EventDef>, adj: Adjacency,
                        lanes: Dict<LaneId, LaneV>)
    requires AdjacencyKnown(adj, lanes)
  {
    x.world in worlds.vals && x.event in events &&
    Weight(x.event, worlds.vals[x.world], LanesOf(worlds, adj, lanes, x.world)) == Ok(x.weight) && x.weight > 0.0
  }

  lemma {:induction false} WorldCandidatesMembers(k: WorldId, w: WorldV, events: seq<EventDef>, ls: seq<LaneV>, x: Candidate)
    requires WorldCandidates(k, w, events, ls).Ok?
    ensures x in WorldCandidates(k, w, events, ls).value <==>
      (x.world == k && x.event in events && Weight(x.event, w, ls) == Ok(x.weight) && x.weight > 0.0)
    ensures forall e :: e in events ==> Weight(e, w, ls).Ok?
    decreases |events|
  {
    if events != [] {
      var pre := events[..|events| - 1];
      WorldCandidatesMembers(k, w, pre, ls, x);
      assert events == pre + [events[|events| - 1]];
    }
  }

  /** Every candidate is a positive-weight pair, and every positive-weight pair
      of a listed world is a candidate. */
  lemma {:induction false} CandidatesMembers(worlds: Dict<WorldId, WorldV>, keys: seq<WorldId>, events: seq<EventDef>,
                                             adj: Adjacency, lanes: Dict<LaneId, LaneV>, x: Candidate)
    requires AdjacencyKnown(adj, lanes) && forall k :: k in keys ==> k in worlds.vals
    requires Candidates(worlds, keys, events, adj, lanes).Ok?
    ensures x in Candidates(worlds, keys, events, adj, lanes).value <==> x.world in keys && IsCandidate(x, worlds, events, adj, lanes)
    decreases |keys|
  {
    if keys != [] {
      var pre := keys[..|keys| - 1];
      var k := keys[|keys| - 1];
      CandidatesMembers(worlds, pre, events, adj, lanes, x);
      WorldCandidatesMembers(k, worlds.vals[k], events, LanesOf(worlds, adj, lanes, k), x);
      assert keys == pre + [k];
    }
  }

  /** The roll fails exactly when some (event, world) pair's conditions fail to
      evaluate. */
  lemma {:induction false} CandidatesFail(worlds: Dict<WorldId, WorldV>, keys: seq<WorldId>, events: seq<EventDef>,
                                          adj: Adjacency, lanes: Dict<LaneId, LaneV>)
    requires AdjacencyKnown(adj, lanes) && forall k :: k in keys ==> k in worlds.vals
    ensures Candidates(worlds, keys, events, adj, lanes).Ok? <==>
      forall k, e :: k in keys && e in events ==> Weight(e, worlds.vals[k], LanesOf(worlds, adj, lanes, k)).Ok?
    decreases |keys|
  {
    if keys != [] {
      var pre := keys[..|keys| - 1];
      var k := keys[|keys| - 1];
      CandidatesFail(worlds, pre, events, adj, lanes);
      assert keys == pre + [k];
      var ls := LanesOf(worlds, adj, lanes, k);
      if Candidates(worlds, pre, events, adj, lanes).Ok? {
        if WorldCandidates(k, worlds.vals[k], events, ls).Ok? {
          WorldCandidatesMembers(k, worlds.vals[k], events, ls, Candidate(NO_EVENT, k, 0.0));
        } else {
          WorldCandidatesFail(k, worlds.vals[k], events, ls);
        }
      }
    }
  }

  const NO_EVENT := EventDef("", 0.0, [], [])

  lemma {:induction false} WorldCandidatesFail(k: WorldId, w: WorldV, events: seq<EventDef>, ls: seq<LaneV>)
    requires WorldCandidates(k, w, events, ls).Fail?
    ensures exists e :: e in events && Weight(e, w, ls).Fail?
    decreases |events|
  {
    var pre := events[..|events| - 1];
    if WorldCandidates(k, w, pre, ls).Fail? {
      WorldCandidatesFail(k, w, pre, ls);
      var e :| e in pre && Weight(e, w, ls).Fail?;
      assert e in events;
    } else {
      assert events[|events| - 1] in events;
    }
  }

  // ----- the roll -----

  function TotalWeight(cs: seq<Candidate>): real
    decreases |cs|
  {
    if cs == [] then 0.0 else TotalWeight(cs[..|cs| - 1]) + cs[|cs| - 1].weight
  }

  /** The total-weight guard of generate_events never blocks a non-empty roll:
      every candidate weight is positive. */
  lemma {:induction false} TotalWeightPositive(cs: seq<Candidate>)
    requires cs != [] && forall i :: 0 <= i < |cs| ==> cs[i].weight > 0.0
    ensures TotalWeight(cs) > 0.0
    decreases |cs|
  {
    var pre := cs[..|cs| - 1];
    if pre != [] {
      assert forall i :: 0 <= i < |pre| ==> pre[i] == cs[i];
      TotalWeightPositive(pre);
    }
  }

  /** k = min(max_events_per_tick, n) as random.choices uses it: a negative k
      yields no picks. */
  function PickCount(maxEvents: int, n: nat): (k: nat)
    ensures k <= n && (maxEvents >= 0 ==> k == if maxEvents < n then maxEvents else n)
    ensures maxEvents < 0 ==> k == 0
  {
    if n < maxEvents then n else if maxEvents < 0 then 0 else maxEvents
  }

  /** random.choices(cands, k): pick i uses generator output pos + i. */
  function Picks(cands: seq<Candidate>, draws: nat -> nat, pos: nat, k: nat): (r: seq<(EventDef, WorldId)>)
    requires |cands| > 0
    ensures |r| == k
    ensures forall i :: 0 <= i < k ==> exists j :: 0 <= j < |cands| && r[i] == (cands[j].event, cands[j].world)
    decreases k
  {
    if k == 0 then []
    else
      var pre := Picks(cands, draws, pos, k - 1);
      var c := cands[PickIndex(draws(pos + k - 1), |cands|)];
      var r := pre + [(c.event, c.world)];
      assert forall i :: 0 <= i < k - 1 ==> r[i] == pre[i];
      r
  }

  datatype Roll = Roll(picked: seq<(EventDef, WorldId)>, pos: nat)

  /** generate_events(state, max_events_per_tick). */
  function Generated(worlds: Dict<WorldId, WorldV>, events: seq<EventDef>, adj: Adjacency, lanes: Dict<LaneId, LaneV>,
                     maxEvents: int, draws: nat -> nat, pos: nat): Result<Roll>
    requires worlds.Valid() && AdjacencyKnown(adj, lanes)
  {
    var cands :- Candidates(worlds, worlds.keys, events, adj, lanes);
    if cands == [] then Ok(Roll([], pos))
    else if !(TotalWeight(cands) > 0.0) then Ok(Roll([], pos))
    else
      var k := PickCount(maxEvents, |cands|);
      Ok(Roll(Picks(cands, draws, pos, k), pos + k))
  }

  /** The roll draws min(max_events, #candidates) pairs (none when that is
      negative), each one a positive-weight (event, world) pair, using one
      generator output per pick; with no candidates it is empty. */
  lemma GeneratedFacts(worlds: Dict<WorldId, WorldV>, events: seq<EventDef>, adj: Adjacency, lanes: Dict<LaneId, LaneV>,
                       maxEvents: int, draws: nat -> nat, pos: nat)
    requires worlds.Valid() && AdjacencyKnown(adj, lanes)
    requires Generated(worlds, events, adj, lanes, maxEvents, draws, pos).Ok?
    ensures var g := Generated(worlds, events, adj, lanes, maxEvents, draws, pos).value;
      var cands := Candidates(worlds, worlds.keys, events, adj, lanes).value;
      |g.picked| == PickCount(maxEvents, |cands|) && g.pos == pos + |g.picked|
    ensures var g := Generated(worlds, events, adj, lanes, maxEvents, draws, pos).value;
      forall i :: 0 <= i < |g.picked| ==>
        exists x :: IsCandidate(x, worlds, events, adj, lanes) && g.picked[i] == (x.event, x.world)
  {
    var cands := Candidates(worlds, worlds.keys, events, adj, lanes).value;
    if cands != [] {
      CandidatesListed(worlds, events, adj, lanes);
      TotalWeightPositive(cands);
      var picks := Picks(cands, draws, pos, PickCount(maxEvents, |cands|));
      assert Generated(worlds, events, adj, lanes, maxEvents, draws, pos).value.picked == picks;
      forall i | 0 <= i < |picks|
        ensures exists x :: IsCandidate(x, worlds, events, adj, lanes) && picks[i] == (x.event, x.world)
      {
        var j :| 0 <= j < |cands| && picks[i] == (cands[j].event, cands[j].world);
        assert IsCandidate(cands[j], worlds, events, adj, lanes);
      }
    }
  }

  lemma CandidatesListed(worlds: Dict<WorldId, WorldV>, events: seq<EventDef>, adj: Adjacency, lanes: Dict<LaneId, LaneV>)
    requires worlds.Valid() && AdjacencyKnown(adj, lanes)
    requires Candidates(worlds, worlds.keys, events, adj, lanes).Ok?
    ensures var cands := Candidates(worlds, worlds.keys, events, adj, lanes).value;
      forall i :: 0 <= i < |cands| ==> IsCandidate(cands[i], worlds, events, adj, lanes) && cands[i].weight > 0.0
  {
    var cands := Candidates(worlds, worlds.keys, events, adj, lanes).value;
    forall i | 0 <= i < |cands| ensures IsCandidate(cands[i], worlds, events, adj, lanes) {
      CandidatesMembers(worlds, worlds.keys, events, adj, lanes, cands[i]);
    }
  }

  /** A roll with no positive-weight pair draws nothing and uses no output. */
  lemma GeneratedEmpty(worlds: Dict<WorldId, WorldV>, events: seq<EventDef>, adj: Adjacency, lanes: Dict<LaneId, LaneV>,
                       maxEvents: int, draws: nat -> nat, pos: nat)
    requires worlds.Valid() && AdjacencyKnown(adj, lanes)
    requires Candidates(worlds, worlds.keys, events, adj, lanes).Ok?
    requires forall x :: !IsCandidate(x, worlds, events, adj, lanes)
    ensures Generated(worlds, events, adj, lanes, maxEvents, draws, pos) == Ok(Roll([], pos))
  {
    var cands := Candidates(worlds, worlds.keys, events, adj, lanes).value;
    if cands != [] {
      CandidatesMembers(worlds, worlds.keys, events, adj, lanes, cands[0]);
    }
  }

  // ----- the loops -----

  /** evaluate_event_conditions(event_def, world, state). */
  method EvaluateConditions(conds: seq<Value>, w: WorldV, ls: seq<LaneV>) returns (r: Result<real>)
    ensures r == Multiplier(conds, w, ls)
  {
    var multiplier := 1.0;
    var i := 0;
    while i < |conds|
      invariant 0 <= i <= |conds|
      invariant Multiplier(conds[..i], w, ls) == Ok(multiplier)
    {
      MultiplierNext(conds, w, ls, i, multiplier);
      var f := Factor(conds[i], w, ls);
      if f.Fail? {
        MultiplierStopped(conds, w, ls, i + 1);
        return Fail(f.error);
      }
      multiplier := Times(multiplier, f.value);
      i := i + 1;
    }
    assert conds[..i] == conds;
    return Ok(multiplier);
  }

  /** The inner loop of generate_events for world k. */
  method ScanEvents(k: WorldId, w: WorldV, events: seq<EventDef>, ls: seq<LaneV>) returns (r: Result<seq<Candidate>>)
    ensures r == WorldCandidates(k, w, events, ls)
  {
    var found: seq<Candidate> := [];
    var i := 0;
    while i < |events|
      invariant 0 <= i <= |events|
      invariant WorldCandidates(k, w, events[..i], ls) == Ok(found)
    {
      WorldCandidatesNext(k, w, events, ls, i, found);
      var m := EvaluateConditions(events[i].conditions, w, ls);
      if m.Fail? {
        WorldCandidatesStopped(k, w, events, ls, i + 1);
        return Fail(m.error);
      }
      var weight := Times(events[i].baseWeight, m.value);
      if weight > 0.0 {
        found := found + [Candidate(events[i], k, weight)];
      }
      i := i + 1;
    }
    assert events[..i] == events;
    return Ok(found);
  }

  lemma WorldCandidatesNext(k: WorldId, w: WorldV, events: seq<EventDef>, ls: seq<LaneV>, i: nat, found: seq<Candidate>)
    requires i < |events| && WorldCandidates(k, w, events[..i], ls) == Ok(found)
    ensures var wt := Weight(events[i], w, ls);
      WorldCandidates(k, w, events[..i + 1], ls) ==
        if wt.Fail? then Fail(wt.error)
        else Ok(if wt.value > 0.0 then found + [Candidate(events[i], k, wt.value)] else found)
  {
    assert events[..i + 1][..i] == events[..i];
  }

  lemma {:induction false} WorldCandidatesStopped(k: WorldId, w: WorldV, events: seq<EventDef>, ls: seq<LaneV>, j: nat)
    requires j <= |events| && WorldCandidates(k, w, events[..j], ls).Fail?
    ensures WorldCandidates(k, w, events, ls) == WorldCandidates(k, w, events[..j], ls)
    decreases |events| - j
  {
    if j < |events| {
      assert events[..j + 1][..j] == events[..j];
      WorldCandidatesStopped(k, w, events, ls, j + 1);
    } else {
      assert events[..j] == events;
    }
  }

  lemma {:induction false} CandidatesStopped(worlds: Dict<WorldId, WorldV>, keys: seq<WorldId>, events: seq<EventDef>,
                                             adj: Adjacency, lanes: Dict<LaneId, LaneV>, j: nat)
    requires AdjacencyKnown(adj, lanes) && forall k :: k in keys ==> k in worlds.vals
    requires j <= |keys| && Candidates(worlds, keys[..j], events, adj, lanes).Fail?
    ensures Candidates(worlds, keys, events, adj, lanes) == Candidates(worlds, keys[..j], events, adj, lanes)
    decreases |keys| - j
  {
    if j < |keys| {
      assert keys[..j + 1][..j] == keys[..j];
      CandidatesStopped(worlds, keys, events, adj, lanes, j + 1);
    } else {
      assert keys[..j] == keys;
    }
  }

  lemma CandidatesNext(worlds: Dict<WorldId, WorldV>, keys: seq<WorldId>, events: seq<EventDef>, adj: Adjacency,
                       lanes: Dict<LaneId, LaneV>, i: nat, found: seq<Candidate>)
    requires AdjacencyKnown(adj, lanes) && forall k :: k in keys ==> k in worlds.vals
    requires i < |keys| && Candidates(worlds, keys[..i], events, adj, lanes) == Ok(found)
    ensures var more := WorldCandidates(keys[i], worlds.vals[keys[i]], events, LanesOf(worlds, adj, lanes, keys[i]));
      Candidates(worlds, keys[..i + 1], events, adj, lanes) == if more.Fail? then Fail(more.error) else Ok(found + more.value)
  {
    assert keys[..i + 1][..i] == keys[..i];
  }

  /** Both loops of generate_events, before the draw. */
  method CollectCandidates(worlds: Dict<WorldId, WorldV>, events: seq<EventDef>, adj: Adjacency, lanes: Dict<LaneId, LaneV>)
    returns (r: Result<seq<Candidate>>)
    requires worlds.Valid() && AdjacencyKnown(adj, lanes)
    ensures r == Candidates(worlds, worlds.keys, events, adj, lanes)
  {
    var keys := worlds.keys;
    var found: seq<Candidate> := [];
    var i := 0;
    while i < |keys|
      invariant 0 <= i <= |keys|
      invariant Candidates(worlds, keys[..i], events, adj, lanes) == Ok(found)
    {
      CandidatesNext(worlds, keys, events, adj, lanes, i, found);
      var more := ScanEvents(keys[i], worlds.vals[keys[i]], events, LanesOf(worlds, adj, lanes, keys[i]));
      if more.Fail? {
        CandidatesStopped(worlds, keys, events, adj, lanes, i + 1);
        return Fail(more.error);
      }
      found := found + more.value;
      i := i + 1;
    }
    assert keys[..i] == keys;
    return Ok(found);
  }

  /** The draw of random.choices(cands, k=k). */
  method ChooseMany(rng: Rng, cands: seq<Candidate>, k: nat) returns (picked: seq<(EventDef, WorldId)>)
    requires |cands| > 0
    modifies rng
    ensures picked == Picks(cands, rng.draws, old(rng.pos), k) && rng.pos == old(rng.pos) + k
  {
    picked := [];
    var i := 0;
    while i < k
      invariant 0 <= i <= k
      invariant rng.pos == old(rng.pos) + i
      invariant picked == Picks(cands, rng.draws, old(rng.pos), i)
    {
      var c := rng.Choice(cands);
      picked := picked + [(c.event, c.world)];
      i := i + 1;
    }
  }

  /** generate_events(state, max_events_per_tick). */
  method GenerateEvents(state: UniverseState, maxEvents: int) returns (r: Result<seq<(EventDef, WorldId)>>)
    requires state.worlds.Valid() && state.eventRegistry.events.Valid() && AdjacencyKnown(state.adj, state.lanes)
    modifies state.rng
    ensures var g := Generated(state.worlds, state.eventRegistry.events.Values(), state.adj, state.lanes, maxEvents,
                               state.rng.draws, old(state.rng.pos));
      (r.Ok? <==> g.Ok?) && (r.Ok? ==> r.value == g.value.picked && state.rng.pos == g.value.pos)
  {
    var cands :- CollectCandidates(state.worlds, state.eventRegistry.AllEvents(), state.adj, state.lanes);
    if cands == [] {
      return Ok([]);
    }
    if !(TotalWeight(cands) > 0.0) {
      return Ok([]);
    }
    var picked := ChooseMany(state.rng, cands, PickCount(maxEvents, |cands|));
    return Ok(picked);
  }
}
