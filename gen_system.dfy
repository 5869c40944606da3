// generation/system_gen.py: the connected components of the lane graph, the
// choice of a planet's resource table, coordinate clamping and the way
// generate_universe fills in the missing systems.

module GenSystem {
  import opened Base
  import opened Docs
  import opened WorldModel
  import opened CoreState
  import opened GenBootstrap
  import GenLanes

  // ---------------------------------------------------------------------
  // The adjacency list of _get_connected_components (lines 43-46)
  // ---------------------------------------------------------------------

  /** World id to the other endpoints of its lanes, in lane order. */
  type Graph = map<WorldId, seq<WorldId>>

  /** The adjacency lists after the given lanes: each lane appends b to a's
      list and then a to b's; a KeyError names the first endpoint that is not
      a world (a is looked up before b). */
  function Adjacency(ids: seq<WorldId>, lanes: seq<LaneV>): Result<Graph>
    decreases |lanes|
  {
    if lanes == [] then Ok(map w | w in ids :: [])
    else
      var pre :- Adjacency(ids, lanes[..|lanes| - 1]);
      var l := lanes[|lanes| - 1];
      if l.a !in pre then Fail(MissingKey(l.a))
      else
        var m := pre[l.a := pre[l.a] + [l.b]];
        if l.b !in m then Fail(MissingKey(l.b))
        else Ok(m[l.b := m[l.b] + [l.a]])
  }

  /** The ordered pairs the lanes join, each lane in both directions. */
  function LinkPairs(lanes: seq<LaneV>): set<(WorldId, WorldId)>
    decreases |lanes|
  {
    if lanes == [] then {}
    else
      var l := lanes[|lanes| - 1];
      LinkPairs(lanes[..|lanes| - 1]) + {(l.a, l.b), (l.b, l.a)}
  }

  predicate Known(ids: seq<WorldId>, lanes: seq<LaneV>) {
    forall i :: 0 <= i < |lanes| ==> lanes[i].a in ids && lanes[i].b in ids
  }

  /** The lists exist exactly when every lane endpoint is a world; then there
      is one list per world, and v is listed under u exactly when a lane joins
      u and v. */
  lemma AdjacencyLists(ids: seq<WorldId>, lanes: seq<LaneV>)
    ensures Adjacency(ids, lanes).Ok? <==> Known(ids, lanes)
    ensures Adjacency(ids, lanes).Ok? ==>
      var g := Adjacency(ids, lanes).value;
      g.Keys == (set w | w in ids) &&
      forall u, v :: u in g ==> (v in g[u] <==> (u, v) in LinkPairs(lanes))
  {
    AdjacencyKeys(ids, lanes);
    AdjacencyEnds(ids, lanes);
  }

  /** The lists exist exactly when every lane endpoint is a world, one per world. */
  lemma {:induction false} AdjacencyKeys(ids: seq<WorldId>, lanes: seq<LaneV>)
    ensures Adjacency(ids, lanes).Ok? <==> Known(ids, lanes)
    ensures Adjacency(ids, lanes).Ok? ==> Adjacency(ids, lanes).value.Keys == (set w | w in ids)
    decreases |lanes|
  {
    if lanes != [] {
      var pre := lanes[..|lanes| - 1];
      AdjacencyKeys(ids, pre);
      assert forall i :: 0 <= i < |pre| ==> pre[i] == lanes[i];
    }
  }

  /** v is listed under u exactly when a lane joins u and v. */
  lemma {:induction false} AdjacencyEnds(ids: seq<WorldId>, lanes: seq<LaneV>)
    ensures Adjacency(ids, lanes).Ok? ==>
      var g := Adjacency(ids, lanes).value;
      forall u, v :: u in g ==> (v in g[u] <==> (u, v) in LinkPairs(lanes))
    decreases |lanes|
  {
    if lanes != [] {
      var pre := lanes[..|lanes| - 1];
      AdjacencyEnds(ids, pre);
      if Adjacency(ids, pre).Ok? {
        var l := lanes[|lanes| - 1];
        if l.a in Adjacency(ids, pre).value {
          EndsStep(Adjacency(ids, pre).value, l, LinkPairs(pre));
        }
      }
    }
  }

  /** One lane adds its two ordered pairs to the lists. */
  lemma EndsStep(g: Graph, l: LaneV, ends: set<(WorldId, WorldId)>)
    requires l.a in g && forall u, v :: u in g ==> (v in g[u] <==> (u, v) in ends)
    ensures var m := g[l.a := g[l.a] + [l.b]];
      l.b in m ==>
      var r := m[l.b := m[l.b] + [l.a]];
      forall u, v :: u in r ==> (v in r[u] <==> (u, v) in ends + {(l.a, l.b), (l.b, l.a)})
  {
    var m := g[l.a := g[l.a] + [l.b]];
    if l.b in m {
      var r := m[l.b := m[l.b] + [l.a]];
      forall u, v | u in r ensures v in r[u] <==> (u, v) in ends + {(l.a, l.b), (l.b, l.a)} {
        assert v in r[u] <==> v in g[u] || (u == l.a && v == l.b) || (u == l.b && v == l.a);
      }
    }
  }

  /** The KeyError names the first lane with an unknown endpoint: its a end if
      that is unknown, otherwise its b end. */
  lemma {:induction false} AdjacencyError(ids: seq<WorldId>, lanes: seq<LaneV>, i: nat)
    requires i < |lanes| && Known(ids, lanes[..i]) && !(lanes[i].a in ids && lanes[i].b in ids)
    ensures Adjacency(ids, lanes) == Fail(MissingKey(if lanes[i].a !in ids then lanes[i].a else lanes[i].b))
    decreases |lanes|
  {
    var pre := lanes[..|lanes| - 1];
    if i < |lanes| - 1 {
      assert pre[..i] == lanes[..i];
      AdjacencyError(ids, pre, i);
    } else {
      assert pre == lanes[..i];
      AdjacencyLists(ids, pre);
    }
  }

  /** One lane of the adjacency loop. */
  lemma AdjacencyNext(ids: seq<WorldId>, lanes: seq<LaneV>, i: nat)
    requires i < |lanes|
    ensures Adjacency(ids, lanes[..i + 1]) ==
      var r := Adjacency(ids, lanes[..i]);
      if r.Fail? then r
      else
        var l := lanes[i];
        if l.a !in r.value then Fail(MissingKey(l.a))
        else
          var m := r.value[l.a := r.value[l.a] + [l.b]];
          if l.b !in m then Fail(MissingKey(l.b))
          else Ok(m[l.b := m[l.b] + [l.a]])
  {
    assert lanes[..i + 1][..i] == lanes[..i];
  }

  /** Once a prefix of the lanes fails, so do all the lanes, with the same error. */
  lemma {:induction false} AdjacencyFailed(ids: seq<WorldId>, lanes: seq<LaneV>, i: nat)
    requires i <= |lanes| && Adjacency(ids, lanes[..i]).Fail?
    ensures Adjacency(ids, lanes) == Adjacency(ids, lanes[..i])
    decreases |lanes| - i
  {
    if i < |lanes| {
      AdjacencyNext(ids, lanes, i);
      AdjacencyFailed(ids, lanes, i + 1);
    } else {
      assert lanes[..i] == lanes;
    }
  }

  /** Lines 43-46. */
  method AdjacencyList(ids: seq<WorldId>, lanes: seq<LaneV>) returns (r: Result<Graph>)
    ensures r == Adjacency(ids, lanes)
  {
    var g: Graph := map w | w in ids :: [];
    assert lanes[..0] == [];
    for i := 0 to |lanes|
      invariant Adjacency(ids, lanes[..i]) == Ok(g)
    {
      AdjacencyNext(ids, lanes, i);
      var l := lanes[i];
      if l.a !in g {
        AdjacencyFailed(ids, lanes, i + 1);
        return Fail(MissingKey(l.a));
      }
      g := g[l.a := g[l.a] + [l.b]];
      if l.b !in g {
        AdjacencyFailed(ids, lanes, i + 1);
        return Fail(MissingKey(l.b));
      }
      g := g[l.b := g[l.b] + [l.a]];
    }
    assert lanes[..|lanes|] == lanes;
    return Ok(g);
  }

  // ---------------------------------------------------------------------
  // Connectivity
  // ---------------------------------------------------------------------

  /** A graph over the worlds ids: a list per world, neighbours that are
      worlds, and every link listed at both ends. */
  predicate GraphOn(g: Graph, ids: seq<WorldId>) {
    g.Keys == (set w | w in ids) &&
    (forall u, v :: u in g && v in g[u] ==> v in g && u in g[v])
  }

  lemma AdjacencyGraph(ids: seq<WorldId>, lanes: seq<LaneV>)
    requires Adjacency(ids, lanes).Ok?
    ensures GraphOn(Adjacency(ids, lanes).value, ids)
  {
    AdjacencyLists(ids, lanes);
    var g := Adjacency(ids, lanes).value;
    forall u, v | u in g && v in g[u] ensures v in g && u in g[v] {
      EndsKnown(ids, lanes, u, v);
    }
  }

  lemma {:induction false} EndsKnown(ids: seq<WorldId>, lanes: seq<LaneV>, u: WorldId, v: WorldId)
    requires Known(ids, lanes) && (u, v) in LinkPairs(lanes)
    ensures v in ids && (v, u) in LinkPairs(lanes)
    decreases |lanes|
  {
    var pre := lanes[..|lanes| - 1];
    assert forall i :: 0 <= i < |pre| ==> pre[i] == lanes[i];
    if (u, v) in LinkPairs(pre) {
      EndsKnown(ids, pre, u, v);
    }
  }

  /** A set no link leaves. */
  ghost predicate LinkClosed(g: Graph, S: set<WorldId>) {
    forall u, v :: u in S && u in g && v in g[u] ==> v in S
  }

  /** y is reachable from x: it lies in every closed set holding x. */
  ghost predicate Linked(g: Graph, x: WorldId, y: WorldId) {
    forall S :: LinkClosed(g, S) && x in S ==> y in S
  }

  lemma LinkedStep(g: Graph, x: WorldId, u: WorldId, v: WorldId)
    requires Linked(g, x, u) && u in g && v in g[u]
    ensures Linked(g, x, v)
  {
    forall S | LinkClosed(g, S) && x in S ensures v in S {
    }
  }

  /** c is the component of s: the worlds reachable from s, a closed set. */
  ghost predicate IsComponent(g: Graph, s: WorldId, c: set<WorldId>) {
    s in c && LinkClosed(g, c) && forall y :: y in c <==> Linked(g, s, y)
  }

  function Union(cs: seq<set<WorldId>>): set<WorldId>
    decreases |cs|
  {
    if cs == [] then {} else Union(cs[..|cs| - 1]) + cs[|cs| - 1]
  }

  lemma {:induction false} UnionHolds(cs: seq<set<WorldId>>, i: nat)
    requires i < |cs|
    ensures cs[i] <= Union(cs)
    decreases |cs|
  {
    if i < |cs| - 1 {
      UnionHolds(cs[..|cs| - 1], i);
    }
  }

  /** ids[k] is the first world outside V. */
  predicate FirstOutside(ids: seq<WorldId>, k: nat, V: set<WorldId>) {
    k < |ids| && ids[k] !in V && forall j :: 0 <= j < k ==> ids[j] in V
  }

  /** Each seed is the first world not covered by the components before it. */
  predicate Ordered(ids: seq<WorldId>, comps: seq<set<WorldId>>, seeds: seq<nat>) {
    |seeds| == |comps| &&
    forall i :: 0 <= i < |comps| ==> FirstOutside(ids, seeds[i], Union(comps[..i]))
  }

  /** comps[i] is the component seeded at ids[seeds[i]]. */
  ghost predicate Seeded(g: Graph, ids: seq<WorldId>, comps: seq<set<WorldId>>, seeds: seq<nat>) {
    |seeds| == |comps| &&
    forall i :: 0 <= i < |comps| ==> seeds[i] < |ids| && IsComponent(g, ids[seeds[i]], comps[i])
  }

  /** Increasing seeds, pairwise disjoint components. */
  predicate Apart(comps: seq<set<WorldId>>, seeds: seq<nat>) {
    |seeds| == |comps| &&
    forall i, j :: 0 <= i < j < |comps| ==> seeds[i] < seeds[j] && comps[i] !! comps[j]
  }

  /** comps are the components seeded at ids[seeds[i]], in seed order, each
      seed the first world not covered by the components before it. */
  ghost predicate Found(g: Graph, ids: seq<WorldId>, comps: seq<set<WorldId>>, seeds: seq<nat>) {
    Ordered(ids, comps, seeds) && Seeded(g, ids, comps, seeds) && Apart(comps, seeds)
  }

  lemma OrderedNext(ids: seq<WorldId>, comps: seq<set<WorldId>>, seeds: seq<nat>, c: set<WorldId>, k: nat)
    requires Ordered(ids, comps, seeds) && FirstOutside(ids, k, Union(comps))
    ensures Ordered(ids, comps + [c], seeds + [k])
  {
    var comps', seeds' := comps + [c], seeds + [k];
    assert comps'[..|comps|] == comps;
    forall i | 0 <= i < |comps'| ensures FirstOutside(ids, seeds'[i], Union(comps'[..i])) {
      if i < |comps| {
        assert comps'[..i] == comps[..i];
      }
    }
  }

  lemma SeededNext(g: Graph, ids: seq<WorldId>, comps: seq<set<WorldId>>, seeds: seq<nat>, c: set<WorldId>, k: nat)
    requires Seeded(g, ids, comps, seeds) && k < |ids| && IsComponent(g, ids[k], c)
    ensures Seeded(g, ids, comps + [c], seeds + [k])
  {
    var comps', seeds' := comps + [c], seeds + [k];
    forall i | 0 <= i < |comps'| ensures seeds'[i] < |ids| && IsComponent(g, ids[seeds'[i]], comps'[i]) {
      if i < |comps| {
        assert comps'[i] == comps[i] && seeds'[i] == seeds[i];
      }
    }
  }

  lemma ApartNext(comps: seq<set<WorldId>>, seeds: seq<nat>, c: set<WorldId>, k: nat)
    requires Apart(comps, seeds) && c !! Union(comps)
    requires forall i :: 0 <= i < |seeds| ==> seeds[i] < k
    ensures Apart(comps + [c], seeds + [k])
  {
    var comps', seeds' := comps + [c], seeds + [k];
    forall i, j | 0 <= i < j < |comps'| ensures seeds'[i] < seeds'[j] && comps'[i] !! comps'[j] {
      if j == |comps| {
        UnionHolds(comps, i);
      }
    }
  }

  /** The inner loop, for v in adj_list[u]: each unvisited neighbour is marked
      and queued in list order. */
  method Visit(g: Graph, u: WorldId, visited: set<WorldId>, queue: seq<WorldId>)
    returns (visited': set<WorldId>, queue': seq<WorldId>)
    requires u in g
    ensures visited' == visited + (set v | v in g[u])
    ensures forall q :: q in queue' <==> q in queue || (q in g[u] && q !in visited)
    ensures visited' == visited ==> queue' == queue
  {
    visited', queue' := visited, queue;
    var ns := g[u];
    for t := 0 to |ns|
      invariant visited' == visited + (set v | v in ns[..t])
      invariant forall q :: q in queue' <==> q in queue || (q in ns[..t] && q !in visited)
      invariant visited' == visited ==> queue' == queue
    {
      assert ns[..t + 1] == ns[..t] + [ns[t]];
      if ns[t] !in visited' {
        visited' := visited' + {ns[t]};
        queue' := queue' + [ns[t]];
      }
    }
    assert ns[..|ns|] == ns;
  }

  /** The state of the search from s: visited is seen, the component so far
      and the queue; every neighbour of the component is visited; everything
      in the component or the queue is reachable from s. */
  ghost predicate Frontier(g: Graph, seen: set<WorldId>, s: WorldId, comp: set<WorldId>,
                           visited: set<WorldId>, queue: seq<WorldId>) {
    visited <= g.Keys && seen <= visited &&
    visited == seen + comp + (set q | q in queue) &&
    comp !! seen && (forall q :: q in queue ==> q !in seen) &&
    (s in comp || s in queue) &&
    (forall u, v :: u in comp && u in g && v in g[u] ==> v in visited) &&
    (forall y :: y in comp || y in queue ==> Linked(g, s, y))
  }

  /** One turn of the while loop: pop u, add it to the component, queue its
      unvisited neighbours. */
  method Expand(g: Graph, ghost seen: set<WorldId>, ghost s: WorldId, comp: set<WorldId>,
                visited: set<WorldId>, queue: seq<WorldId>)
    returns (comp': set<WorldId>, visited': set<WorldId>, queue': seq<WorldId>)
    requires (forall u, v :: u in g && v in g[u] ==> v in g)
    requires Frontier(g, seen, s, comp, visited, queue) && queue != []
    ensures Frontier(g, seen, s, comp', visited', queue')
    ensures visited <= visited' && (visited' == visited ==> |queue'| < |queue|)
  {
    var u := queue[0];
    var rest := queue[1..];
    assert forall q :: q in queue <==> q == u || q in rest;
    comp' := comp + {u};
    visited', queue' := Visit(g, u, visited, rest);
    forall q | q in queue' ensures Linked(g, s, q) {
      if q in g[u] {
        LinkedStep(g, s, u, q);
      }
    }
  }

  /** The breadth-first search from s (lines 53-63), over worlds not yet in
      `seen`, a closed set. */
  method Explore(g: Graph, ids: seq<WorldId>, seen: set<WorldId>, s: WorldId) returns (comp: set<WorldId>)
    requires GraphOn(g, ids) && s in g && s !in seen && seen <= g.Keys && LinkClosed(g, seen)
    ensures IsComponent(g, s, comp) && comp !! seen && comp <= g.Keys
  {
    var visited := seen + {s};
    var queue := [s];
    comp := {};
    FrontierStart(g, seen, s);
    while queue != []
      invariant Frontier(g, seen, s, comp, visited, queue)
      decreases g.Keys - visited, |queue|
    {
      ghost var before := visited;
      comp, visited, queue := Expand(g, seen, s, comp, visited, queue);
      assert g.Keys - visited <= g.Keys - before;
    }
    Exhausted(g, ids, seen, s, comp, visited);
  }

  lemma FrontierStart(g: Graph, seen: set<WorldId>, s: WorldId)
    requires s in g && seen <= g.Keys && s !in seen
    ensures Frontier(g, seen, s, {}, seen + {s}, [s])
  {
    assert (set q | q in [s]) == {s};
    assert Linked(g, s, s);
  }

  lemma ClosedUnion(g: Graph, A: set<WorldId>, B: set<WorldId>)
    requires LinkClosed(g, A) && LinkClosed(g, B)
    ensures LinkClosed(g, A + B)
  {
  }

  /** An empty queue leaves a closed component: a neighbour of it cannot lie
      in the closed set seen, because links are listed at both ends. */
  lemma Exhausted(g: Graph, ids: seq<WorldId>, seen: set<WorldId>, s: WorldId, comp: set<WorldId>, visited: set<WorldId>)
    requires GraphOn(g, ids) && LinkClosed(g, seen)
    requires Frontier(g, seen, s, comp, visited, [])
    ensures IsComponent(g, s, comp) && comp !! seen && comp <= g.Keys
  {
    forall u, v | u in comp && u in g && v in g[u] ensures v in comp {
      assert v in g && u in g[v];
    }
  }

  /** The outer loop's state after the first idx worlds. */
  ghost predicate Scanned(g: Graph, ids: seq<WorldId>, comps: seq<set<WorldId>>, seeds: seq<nat>,
                          visited: set<WorldId>, idx: nat) {
    idx <= |ids| && visited == Union(comps) && visited <= g.Keys && LinkClosed(g, visited) &&
    (forall j :: 0 <= j < idx ==> ids[j] in visited) &&
    Found(g, ids, comps, seeds) && (forall i :: 0 <= i < |seeds| ==> seeds[i] < idx)
  }

  lemma ScannedAdd(g: Graph, ids: seq<WorldId>, comps: seq<set<WorldId>>, seeds: seq<nat>,
                   visited: set<WorldId>, idx: nat, c: set<WorldId>)
    requires Scanned(g, ids, comps, seeds, visited, idx) && idx < |ids| && ids[idx] !in visited
    requires IsComponent(g, ids[idx], c) && c !! visited && c <= g.Keys
    ensures Scanned(g, ids, comps + [c], seeds + [idx], visited + c, idx + 1)
  {
    FoundNext(g, ids, comps, seeds, c, idx);
    ClosedUnion(g, visited, c);
    assert (comps + [c])[..|comps|] == comps;
    assert forall i :: 0 <= i < |seeds + [idx]| ==> (seeds + [idx])[i] < idx + 1;
  }

  /** A new component seeded at the first world outside the earlier ones keeps Found. */
  lemma FoundNext(g: Graph, ids: seq<WorldId>, comps: seq<set<WorldId>>, seeds: seq<nat>, c: set<WorldId>, idx: nat)
    requires Found(g, ids, comps, seeds) && FirstOutside(ids, idx, Union(comps))
    requires IsComponent(g, ids[idx], c) && c !! Union(comps)
    requires forall i :: 0 <= i < |seeds| ==> seeds[i] < idx
    ensures Found(g, ids, comps + [c], seeds + [idx])
  {
    OrderedNext(ids, comps, seeds, c, idx);
    SeededNext(g, ids, comps, seeds, c, idx);
    ApartNext(comps, seeds, c, idx);
  }

  lemma ScannedSkip(g: Graph, ids: seq<WorldId>, comps: seq<set<WorldId>>, seeds: seq<nat>,
                    visited: set<WorldId>, idx: nat)
    requires Scanned(g, ids, comps, seeds, visited, idx) && idx < |ids| && ids[idx] in visited
    ensures Scanned(g, ids, comps, seeds, visited, idx + 1)
  {
  }

  lemma ScannedAll(g: Graph, ids: seq<WorldId>, comps: seq<set<WorldId>>, seeds: seq<nat>, visited: set<WorldId>)
    requires GraphOn(g, ids) && Scanned(g, ids, comps, seeds, visited, |ids|)
    ensures Union(comps) == set w | w in ids
  {
  }

  /** _get_connected_components on the adjacency lists: one component per
      world not yet visited, in world order. */
  method Components(g: Graph, ids: seq<WorldId>) returns (comps: seq<set<WorldId>>, ghost seeds: seq<nat>)
    requires GraphOn(g, ids)
    ensures Found(g, ids, comps, seeds)
    ensures Union(comps) == set w | w in ids
  {
    var visited: set<WorldId> := {};
    comps, seeds := [], [];
    for idx := 0 to |ids|
      invariant Scanned(g, ids, comps, seeds, visited, idx)
    {
      if ids[idx] !in visited {
        assert ids[idx] in g;
        var c := Explore(g, ids, visited, ids[idx]);
        ScannedAdd(g, ids, comps, seeds, visited, idx, c);
        comps, seeds := comps + [c], seeds + [idx];
        visited := visited + c;
      } else {
        ScannedSkip(g, ids, comps, seeds, visited, idx);
      }
    }
    ScannedAll(g, ids, comps, seeds, visited);
  }

  /** _get_connected_components(worlds, lanes): the adjacency lists, then the
      search. A lane with an unknown endpoint raises the KeyError of
      AdjacencyList. */
  method ConnectedComponents(ids: seq<WorldId>, lanes: seq<LaneV>)
    returns (r: Result<seq<set<WorldId>>>, ghost seeds: seq<nat>)
    ensures r.Ok? <==> Known(ids, lanes)
    ensures r.Fail? ==> Adjacency(ids, lanes) == Fail(r.error)
    ensures r.Ok? ==> Adjacency(ids, lanes).Ok? && Found(Adjacency(ids, lanes).value, ids, r.value, seeds)
    ensures r.Ok? ==> Union(r.value) == set w | w in ids
  {
    AdjacencyLists(ids, lanes);
    var adj := AdjacencyList(ids, lanes);
    if adj.Fail? {
      return Fail(adj.error), [];
    }
    AdjacencyGraph(ids, lanes);
    var comps;
    comps, seeds := Components(adj.value, ids);
    return Ok(comps), seeds;
  }

  lemma {:induction false} EndsHold(lanes: seq<LaneV>, k: nat)
    requires k < |lanes|
    ensures (lanes[k].a, lanes[k].b) in LinkPairs(lanes) && (lanes[k].b, lanes[k].a) in LinkPairs(lanes)
    decreases |lanes|
  {
    if k < |lanes| - 1 {
      var pre := lanes[..|lanes| - 1];
      assert pre[k] == lanes[k];
      EndsHold(pre, k);
    }
  }

  /** Both endpoints of every lane lie in the same component, and every world
      lies in exactly one component. */
  lemma ComponentsPartition(ids: seq<WorldId>, lanes: seq<LaneV>, comps: seq<set<WorldId>>, seeds: seq<nat>)
    requires Adjacency(ids, lanes).Ok? && Found(Adjacency(ids, lanes).value, ids, comps, seeds)
    requires Union(comps) == set w | w in ids
    ensures forall k, i :: 0 <= k < |lanes| && 0 <= i < |comps| ==> (lanes[k].a in comps[i] <==> lanes[k].b in comps[i])
    ensures forall w, i, j :: 0 <= i < |comps| && 0 <= j < |comps| && w in comps[i] && w in comps[j] ==> i == j
    ensures forall w :: w in ids <==> w in Union(comps)
  {
    var g := Adjacency(ids, lanes).value;
    AdjacencyLists(ids, lanes);
    forall k, i | 0 <= k < |lanes| && 0 <= i < |comps| ensures lanes[k].a in comps[i] <==> lanes[k].b in comps[i] {
      EndsHold(lanes, k);
      assert IsComponent(g, ids[seeds[i]], comps[i]);
      assert lanes[k].a in ids && lanes[k].b in ids;
    }
  }

  // ---------------------------------------------------------------------
  // Resource-table selection in generate_planet (lines 101-115)
  // ---------------------------------------------------------------------

  const GTE: string := "when_habitability_gte"
  const LT: string := "when_habitability_lt"

  /** The lt test of one table: false without the key, a TypeError when the
      threshold is not a number. */
  function LtPasses(h: real, t: Value): Result<bool> {
    if HasKey(t, LT) then
      var x :- AsNumber(t.fields.vals[LT], LT);
      Ok(h < x)
    else Ok(false)
  }

  /** The test of one table: the gte test, and the lt test when that one is
      absent or fails. */
  function Passes(h: real, t: Value): Result<bool> {
    if HasKey(t, GTE) then
      var x :- AsNumber(t.fields.vals[GTE], GTE);
      if h >= x then Ok(true) else LtPasses(h, t)
    else LtPasses(h, t)
  }

  /** The index of the first table from i on whose test passes. */
  function ScanFrom(h: real, tables: seq<Value>, i: nat): Result<Option<nat>>
    decreases |tables| - i
  {
    if i >= |tables| then Ok(None)
    else
      var p :- Passes(h, tables[i]);
      if p then Ok(Some(i)) else ScanFrom(h, tables, i + 1)
  }

  /** The table generate_planet samples potentials from: the first whose test
      passes, else the first of all (an IndexError when there is none). */
  function SelectedTable(h: real, resourceTables: Value): Result<Value>
    requires WellFormed(resourceTables)
  {
    if !resourceTables.Obj? then Fail(TypeMismatch("resource_tables"))
    else
      var tables := resourceTables.fields.Values();
      var found :- ScanFrom(h, tables, 0);
      if found.Some? && found.value < |tables| then Ok(tables[found.value])
      else if tables == [] then Fail(NoItem)
      else Ok(tables[0])
  }

  /** Both thresholds that a table has are numbers. */
  predicate Numeric(t: Value) {
    (HasKey(t, GTE) ==> IsNumber(t.fields.vals[GTE])) && (HasKey(t, LT) ==> IsNumber(t.fields.vals[LT]))
  }

  /** The test as a plain condition. */
  predicate Pass(h: real, t: Value)
    requires Numeric(t)
  {
    (HasKey(t, GTE) && h >= NumberOf(t.fields.vals[GTE])) || (HasKey(t, LT) && h < NumberOf(t.fields.vals[LT]))
  }

  lemma PassesMeans(h: real, t: Value)
    ensures Passes(h, t).Ok? <==> Numeric(t) || (HasKey(t, GTE) && IsNumber(t.fields.vals[GTE]) && h >= NumberOf(t.fields.vals[GTE]))
    ensures Numeric(t) ==> Passes(h, t) == Ok(Pass(h, t))
  {
  }

  /** With numeric thresholds the scan finds the first passing table. */
  lemma {:induction false} ScanFinds(h: real, tables: seq<Value>, i: nat)
    requires forall j :: i <= j < |tables| ==> Numeric(tables[j])
    ensures ScanFrom(h, tables, i).Ok?
    ensures forall k :: i <= k < |tables| && Pass(h, tables[k]) && (forall j :: i <= j < k ==> !Pass(h, tables[j])) ==>
      ScanFrom(h, tables, i) == Ok(Some(k))
    ensures (forall j :: i <= j < |tables| ==> !Pass(h, tables[j])) ==> ScanFrom(h, tables, i) == Ok(None)
    decreases |tables| - i
  {
    if i < |tables| {
      PassesMeans(h, tables[i]);
      ScanFinds(h, tables, i + 1);
    }
  }

  /** The selected table is the first, in order, whose gte or lt test passes
      on the habitability, and the first table when none passes. */
  lemma SelectedFirst(h: real, resourceTables: Value, k: nat)
    requires WellFormed(resourceTables) && resourceTables.Obj?
    requires var tables := resourceTables.fields.Values();
      forall j :: 0 <= j < |tables| ==> Numeric(tables[j])
    ensures var tables := resourceTables.fields.Values();
      (k < |tables| && Pass(h, tables[k]) && (forall j :: 0 <= j < k ==> !Pass(h, tables[j])) ==>
        SelectedTable(h, resourceTables) == Ok(tables[k])) &&
      ((forall j :: 0 <= j < |tables| ==> !Pass(h, tables[j])) ==>
        SelectedTable(h, resourceTables) == if tables == [] then Fail(NoItem) else Ok(tables[0]))
  {
    ScanFinds(h, resourceTables.fields.Values(), 0);
  }

  /** The loop with its break, then the fallback. */
  method SelectResourceTable(h: real, resourceTables: Value) returns (r: Result<Value>)
    requires WellFormed(resourceTables)
    ensures r == SelectedTable(h, resourceTables)
  {
    if !resourceTables.Obj? {
      return Fail(TypeMismatch("resource_tables"));
    }
    var tables := resourceTables.fields.Values();
    var i := 0;
    while i < |tables|
      invariant i <= |tables| && ScanFrom(h, tables, 0) == ScanFrom(h, tables, i)
    {
      var t := tables[i];
      if HasKey(t, GTE) {
        var x := AsNumber(t.fields.vals[GTE], GTE);
        if x.Fail? {
          return Fail(x.error);
        }
        if h >= x.value {
          return Ok(t);
        }
      }
      if HasKey(t, LT) {
        var x := AsNumber(t.fields.vals[LT], LT);
        if x.Fail? {
          return Fail(x.error);
        }
        if h < x.value {
          return Ok(t);
        }
      }
      i := i + 1;
    }
    if tables == [] {
      return Fail(NoItem);
    }
    return Ok(tables[0]);
  }

  // ---------------------------------------------------------------------
  // Coordinates (lines 17-18, 161-162)
  // ---------------------------------------------------------------------

  const X_MIN: real := 0.0
  const X_MAX: real := 800.0
  const Y_MIN: real := 0.0
  const Y_MAX: real := 600.0

  /** max(lo, min(hi, draw)) for the drawn coordinates. */
  function Position(gx: real, gy: real): (p: (real, real))
    ensures X_MIN <= p.0 <= X_MAX && Y_MIN <= p.1 <= Y_MAX
    ensures X_MIN <= gx <= X_MAX ==> p.0 == gx
    ensures Y_MIN <= gy <= Y_MAX ==> p.1 == gy
    ensures (gx < X_MIN ==> p.0 == X_MIN) && (gx > X_MAX ==> p.0 == X_MAX)
    ensures (gy < Y_MIN ==> p.1 == Y_MIN) && (gy > Y_MAX ==> p.1 == Y_MAX)
  {
    (Clamp(gx, X_MIN, X_MAX), Clamp(gy, Y_MIN, Y_MAX))
  }

  // ---------------------------------------------------------------------
  // generate_universe (lines 189-208)
  // ---------------------------------------------------------------------

  /** f"sys-{i}" */
  function SysId(i: nat): WorldId {
    "sys-" + GenLanes.NatStr(i)
  }

  lemma SysIdsDistinct(i: nat, j: nat)
    requires i != j
    ensures SysId(i) != SysId(j)
  {
    if SysId(i) == SysId(j) {
      assert SysId(i)[4..] == GenLanes.NatStr(i) && SysId(j)[4..] == GenLanes.NatStr(j);
      GenLanes.NatStrInjective(i, j);
    }
  }

  /** The generator fills in a world for an id: its planets, name, starting
      fields and position are drawn, and its id is the one given. */
  ghost predicate Maker(make: WorldId -> WorldV) {
    forall id :: make(id).id == id && PotentialsValid(make(id))
  }

  /** The world generate_universe stores for an id: generated, then
      bootstrapped. */
  function Built(make: WorldId -> WorldV, id: WorldId): (w: WorldV)
    requires Maker(make)
    ensures w.id == id
  {
    Bootstrapped(make(id))
  }

  /** sys-1 .. sys-n, in the order generate_universe visits them. */
  function SysIds(n: nat): (ids: seq<WorldId>)
    ensures |ids| == n && forall i :: 0 <= i < n ==> ids[i] == SysId(i + 1)
  {
    seq(n, i requires 0 <= i => SysId(i + 1))
  }

  lemma SysIdsUnique(n: nat)
    ensures Distinct(SysIds(n))
  {
    var ids := SysIds(n);
    forall i, j | 0 <= i < j < n ensures ids[i] != ids[j] {
      SysIdsDistinct(i + 1, j + 1);
    }
  }

  /** The worlds after visiting ids: each one is built and added when it is
      not among the ids the state started with. */
  function Generated(worlds: Dict<WorldId, WorldV>, existing: set<WorldId>, ids: seq<WorldId>, make: WorldId -> WorldV): Dict<WorldId, WorldV>
    requires Maker(make)
    decreases |ids|
  {
    if ids == [] then worlds
    else
      var d := Generated(worlds, existing, ids[..|ids| - 1], make);
      var id := ids[|ids| - 1];
      if id in existing then d else d.Put(id, Built(make, id))
  }

  /** The visited ids that were missing, in order. */
  function Missing(existing: set<WorldId>, ids: seq<WorldId>): (ms: seq<WorldId>)
    ensures forall m :: m in ms <==> m in ids && m !in existing
    decreases |ids|
  {
    if ids == [] then []
    else
      var pre := ids[..|ids| - 1];
      assert forall m :: m in ids <==> m in pre || m == ids[|ids| - 1];
      Missing(existing, pre) + (if ids[|ids| - 1] in existing then [] else [ids[|ids| - 1]])
  }

  /** The missing ids are added after the existing worlds, in order. */
  lemma {:induction false} GeneratedKeys(worlds: Dict<WorldId, WorldV>, ids: seq<WorldId>, make: WorldId -> WorldV)
    requires Maker(make) && worlds.Valid() && Distinct(ids)
    ensures var r := Generated(worlds, worlds.vals.Keys, ids, make);
      r.Valid() && r.keys == worlds.keys + Missing(worlds.vals.Keys, ids)
    decreases |ids|
  {
    if ids != [] {
      var pre := ids[..|ids| - 1];
      var id := ids[|ids| - 1];
      assert Distinct(pre);
      GeneratedKeys(worlds, pre, make);
      var d := Generated(worlds, worlds.vals.Keys, pre, make);
      if id !in worlds.vals {
        assert id !in pre;
        assert id !in d.vals;
      }
    }
  }

  /** Existing worlds are kept as they are, and every added one is the built
      world for its id. */
  lemma {:induction false} GeneratedValues(worlds: Dict<WorldId, WorldV>, existing: set<WorldId>, ids: seq<WorldId>, make: WorldId -> WorldV)
    requires Maker(make) && existing == worlds.vals.Keys
    ensures var r := Generated(worlds, existing, ids, make);
      worlds.vals.Keys <= r.vals.Keys &&
      (forall k :: k in worlds.vals ==> r.vals[k] == worlds.vals[k]) &&
      (forall k :: k in r.vals && k !in worlds.vals ==> r.vals[k] == Built(make, k))
    decreases |ids|
  {
    if ids != [] {
      GeneratedValues(worlds, existing, ids[..|ids| - 1], make);
    }
  }

  /** Every world stored under its own id, before and after generating. */
  lemma {:induction false} GeneratedWorlds(worlds: Dict<WorldId, WorldV>, existing: set<WorldId>, ids: seq<WorldId>, make: WorldId -> WorldV)
    requires Maker(make) && worlds.Valid() && forall w :: w in worlds.vals ==> worlds.vals[w].id == w
    ensures var r := Generated(worlds, existing, ids, make);
      r.Valid() && forall w :: w in r.vals ==> r.vals[w].id == w
    decreases |ids|
  {
    if ids != [] {
      GeneratedWorlds(worlds, existing, ids[..|ids| - 1], make);
    }
  }

  /** generate_universe: the existing worlds stay as they were, and sys-1 ..
      sys-n follow them, in order, where they were missing, each the built
      world for its id. */
  lemma GeneratedUniverse(worlds: Dict<WorldId, WorldV>, n: nat, make: WorldId -> WorldV)
    requires Maker(make) && worlds.Valid()
    ensures var r := Generated(worlds, worlds.vals.Keys, SysIds(n), make);
      r.Valid() && r.keys == worlds.keys + Missing(worlds.vals.Keys, SysIds(n)) &&
      worlds.vals.Keys <= r.vals.Keys &&
      (forall k :: k in worlds.vals ==> r.vals[k] == worlds.vals[k]) &&
      (forall k :: k in r.vals && k !in worlds.vals ==> r.vals[k] == Built(make, k))
  {
    SysIdsUnique(n);
    GeneratedKeys(worlds, SysIds(n), make);
    GeneratedValues(worlds, worlds.vals.Keys, SysIds(n), make);
  }

  /** system_templates_data.get("default_system"), which must be truthy. */
  function DefaultTemplate(templates: Value): (r: Result<Value>)
    ensures r.Ok? <==> templates.Obj? && Docs.Truthy(templates.fields.Get("default_system", Null))
  {
    var t :- FieldOr(templates, "default_system", Null);
    if !Docs.Truthy(t) then Fail(Invalid("Default system template not found.")) else Ok(t)
  }

  /** generate_universe on an initial state: a missing or falsy default_system
      template raises before anything changes; otherwise sys-1 .. sys-n are
      generated and bootstrapped where missing. */
  method GenerateUniverse(state: UniverseState, n: nat, templates: Value, make: WorldId -> WorldV) returns (r: Result<()>)
    requires state.Valid() && Maker(make)
    modifies state`worlds
    ensures state.Valid()
    ensures r.Ok? <==> DefaultTemplate(templates).Ok?
    ensures r.Fail? ==> r.error == DefaultTemplate(templates).error && state.worlds == old(state.worlds)
    ensures r.Ok? ==> state.worlds == Generated(old(state.worlds), old(state.worlds.vals.Keys), SysIds(n), make)
  {
    var t := DefaultTemplate(templates);
    if t.Fail? {
      return Fail(t.error);
    }
    ghost var start := state.worlds;
    var existing := state.worlds.vals.Keys;
    ghost var ids := SysIds(n);
    for i := 0 to n
      invariant state.worlds == Generated(start, existing, ids[..i], make)
    {
      var id := SysId(i + 1);
      assert ids[..i + 1][..i] == ids[..i];
      if id !in existing {
        state.worlds := state.worlds.Put(id, Built(make, id));
      }
    }
    assert ids[..n] == ids;
    GeneratedWorlds(start, existing, ids, make);
    return Ok(());
  }
}
