// The visualizer's lane-hop search: a breadth-first search that stops at the
// first target it meets and does not expand a node that is min_hops away.

module VisualizerHops {
  import opened Base

  /** lane_graph: each world's neighbours, in the order its lanes were added. */
  type LaneGraph = map<WorldId, seq<WorldId>>

  /** lane_graph.get(w, []) */
  function Neighbors(g: LaneGraph, w: WorldId): seq<WorldId> {
    if w in g then g[w] else []
  }

  /** The worlds at most k lane hops from start. */
  function Within(g: LaneGraph, start: WorldId, k: nat): set<WorldId> {
    if k == 0 then {start}
    else
      var p := Within(g, start, k - 1);
      p + set u, w | u in p && w in Neighbors(g, u) :: w
  }

  /** n hops reach a target and n - 1 hops do not. */
  predicate Closest(g: LaneGraph, start: WorldId, targets: set<WorldId>, n: nat) {
    targets * Within(g, start, n) != {} && (n == 0 || targets * Within(g, start, n - 1) == {})
  }

  /** How far the search may go: min_hops, or no hops at all when it is not positive. */
  function Reach(minHops: int): nat {
    if minHops > 0 then minHops else 0
  }

  lemma {:induction false} WithinGrows(g: LaneGraph, start: WorldId, j: nat, k: nat)
    requires j <= k
    ensures Within(g, start, j) <= Within(g, start, k)
    decreases k
  {
    if j < k {
      WithinGrows(g, start, j, k - 1);
    }
  }

  /** A neighbour of a world within k hops is within k + 1 hops. */
  lemma WithinStep(g: LaneGraph, start: WorldId, k: nat, u: WorldId, w: WorldId)
    requires u in Within(g, start, k) && w in Neighbors(g, u)
    ensures w in Within(g, start, k + 1)
  {
  }

  /** Every world within k + 1 hops is within k hops or next to one. */
  lemma WithinCases(g: LaneGraph, start: WorldId, k: nat, w: WorldId)
    requires w in Within(g, start, k + 1) && w !in Within(g, start, k)
    ensures exists u :: u in Within(g, start, k) && w in Neighbors(g, u)
  {
  }

  /** The hops recorded for a discovered world. */
  ghost function HopsOf(order: seq<(WorldId, nat)>, idx: map<WorldId, nat>, v: WorldId): nat
    requires v in idx && idx[v] < |order|
  {
    order[idx[v]].1
  }

  /** The bookkeeping of the search: order lists every world ever queued,
      with its hops; idx gives each one's position in order. */
  ghost predicate Indexed(order: seq<(WorldId, nat)>, idx: map<WorldId, nat>) {
    (forall v :: v in idx ==> idx[v] < |order| && order[idx[v]].0 == v) &&
    (forall i :: 0 <= i < |order| ==> order[i].0 in idx && idx[order[i].0] == i)
  }

  /** The queue holds at most two layers: the entries before `from` have at
      most lvl hops, those from `from` up to `mid` exactly lvl, the rest lvl + 1. */
  ghost predicate Layered(order: seq<(WorldId, nat)>, from: nat, mid: nat, lvl: nat) {
    from <= mid <= |order| &&
    (forall i :: 0 <= i < from ==> order[i].1 <= lvl) &&
    (forall i :: from <= i < mid ==> order[i].1 == lvl) &&
    (forall i :: mid <= i < |order| ==> order[i].1 == lvl + 1)
  }

  /** Every world of the first `closed` entries with fewer than minHops hops
      has all its neighbours discovered, at most one hop further. */
  ghost predicate ClosedUpTo(g: LaneGraph, order: seq<(WorldId, nat)>, idx: map<WorldId, nat>, closed: nat, minHops: int)
    requires Indexed(order, idx)
  {
    forall u :: u in idx && idx[u] < closed && HopsOf(order, idx, u) < minHops ==>
      forall w :: w in Neighbors(g, u) ==> w in idx && HopsOf(order, idx, w) <= HopsOf(order, idx, u) + 1
  }

  /** Once every world with fewer than k hops is closed, everything within k
      hops has been discovered, with at most k hops. */
  lemma {:induction false} Covered(g: LaneGraph, start: WorldId, order: seq<(WorldId, nat)>, idx: map<WorldId, nat>,
                                   closed: nat, minHops: int, k: nat)
    requires Indexed(order, idx) && ClosedUpTo(g, order, idx, closed, minHops)
    requires start in idx && HopsOf(order, idx, start) == 0
    requires k == 0 || k <= minHops
    requires forall v :: v in idx && HopsOf(order, idx, v) < k ==> idx[v] < closed
    ensures forall v :: v in Within(g, start, k) ==> v in idx && HopsOf(order, idx, v) <= k
  {
    if k > 0 {
      Covered(g, start, order, idx, closed, minHops, k - 1);
      forall v | v in Within(g, start, k)
        ensures v in idx && HopsOf(order, idx, v) <= k
      {
        CoveredStep(g, start, order, idx, closed, minHops, k - 1, v);
      }
    }
  }

  /** One more hop: a world within k + 1 hops, when everything within k hops
      is discovered and closed, is discovered with at most k + 1 hops. */
  lemma CoveredStep(g: LaneGraph, start: WorldId, order: seq<(WorldId, nat)>, idx: map<WorldId, nat>,
                    closed: nat, minHops: int, k: nat, v: WorldId)
    requires Indexed(order, idx) && ClosedUpTo(g, order, idx, closed, minHops) && k < minHops
    requires forall u :: u in idx && HopsOf(order, idx, u) <= k ==> idx[u] < closed
    requires forall u :: u in Within(g, start, k) ==> u in idx && HopsOf(order, idx, u) <= k
    requires v in Within(g, start, k + 1)
    ensures v in idx && HopsOf(order, idx, v) <= k + 1
  {
    if v !in Within(g, start, k) {
      WithinCases(g, start, k, v);
      var u :| u in Within(g, start, k) && v in Neighbors(g, u);
      assert idx[u] < closed;
    }
  }

  /** Worlds all discovered, when no discovered world is a target, hold no target. */
  lemma Untargeted(targets: set<WorldId>, s: set<WorldId>, idx: map<WorldId, nat>)
    requires forall v :: v in s ==> v in idx
    requires forall v :: v in idx ==> v !in targets
    ensures targets * s == {}
  {
  }

  /** A subset has no more elements than the set around it. */
  lemma {:induction false} SubsetSize(a: set<WorldId>, b: set<WorldId>)
    requires a <= b
    ensures |a| <= |b|
    decreases |a|
  {
    if a != {} {
      var x :| x in a;
      SubsetSize(a - {x}, b - {x});
    }
  }

  /** Queueing a new world keeps the bookkeeping and every recorded hop count. */
  lemma Enqueued(order: seq<(WorldId, nat)>, idx: map<WorldId, nat>, w: WorldId, h: nat)
    requires Indexed(order, idx) && w !in idx
    ensures Indexed(order + [(w, h)], idx[w := |order|])
    ensures forall v :: v in idx ==> HopsOf(order + [(w, h)], idx[w := |order|], v) == HopsOf(order, idx, v)
  {
    var order', idx' := order + [(w, h)], idx[w := |order|];
    forall i | 0 <= i < |order'|
      ensures order'[i].0 in idx' && idx'[order'[i].0] == i
    {
      if i < |order| {
        assert order'[i] == order[i];
      }
    }
  }

  /** Queueing a new world keeps every closed world closed. */
  lemma EnqueuedClosed(g: LaneGraph, order: seq<(WorldId, nat)>, idx: map<WorldId, nat>, closed: nat, minHops: int,
                       w: WorldId, h: nat)
    requires Indexed(order, idx) && w !in idx && closed <= |order|
    requires ClosedUpTo(g, order, idx, closed, minHops)
    ensures Indexed(order + [(w, h)], idx[w := |order|])
    ensures ClosedUpTo(g, order + [(w, h)], idx[w := |order|], closed, minHops)
  {
    Enqueued(order, idx, w, h);
  }

  /** A world whose neighbours are all discovered closes the next entry. */
  lemma ClosedNext(g: LaneGraph, order: seq<(WorldId, nat)>, idx: map<WorldId, nat>, at: nat, minHops: int)
    requires Indexed(order, idx) && at < |order| && ClosedUpTo(g, order, idx, at, minHops)
    requires order[at].1 < minHops ==>
      forall w :: w in Neighbors(g, order[at].0) ==> w in idx && HopsOf(order, idx, w) <= order[at].1 + 1
    ensures ClosedUpTo(g, order, idx, at + 1, minHops)
  {
    forall u | u in idx && idx[u] == at
      ensures u == order[at].0
    {
    }
  }

  /** An entry of the next layer goes at the end of the queue. */
  lemma LayeredAppend(order: seq<(WorldId, nat)>, from: nat, mid: nat, lvl: nat, x: (WorldId, nat))
    requires Layered(order, from, mid, lvl) && x.1 == lvl + 1
    ensures Layered(order + [x], from, mid, lvl)
  {
    forall i | 0 <= i < |order|
      ensures (order + [x])[i] == order[i]
    {
    }
  }

  /** Queueing the j-th neighbour of entry `at` one hop further sees it. */
  lemma SeenAppend(g: LaneGraph, order: seq<(WorldId, nat)>, idx: map<WorldId, nat>, at: nat, j: nat, w: WorldId, h: nat)
    requires Indexed(order, idx) && at < |order| && SeenUpTo(g, order, idx, at, j)
    requires j < |Neighbors(g, order[at].0)| && w == Neighbors(g, order[at].0)[j] && w !in idx && h == order[at].1 + 1
    ensures Indexed(order + [(w, h)], idx[w := |order|])
    ensures SeenUpTo(g, order + [(w, h)], idx[w := |order|], at, j + 1)
  {
    Enqueued(order, idx, w, h);
    assert (order + [(w, h)])[at] == order[at];
    assert HopsOf(order + [(w, h)], idx[w := |order|], w) == h;
  }

  /** Popping the queue's head leaves the rest of order. */
  lemma Dequeued(order: seq<(WorldId, nat)>, head: nat)
    requires head < |order|
    ensures order[head..][0] == order[head] && order[head..][1..] == order[head + 1..]
  {
  }

  /** Queueing an entry extends the queue and the visited set by it. */
  lemma Appended(order: seq<(WorldId, nat)>, idx: map<WorldId, nat>, at: nat, w: WorldId, h: nat)
    requires at < |order|
    ensures (order + [(w, h)])[at + 1..] == order[at + 1..] + [(w, h)]
    ensures idx[w := |order|].Keys == idx.Keys + {w}
  {
  }

  /** A set of worlds holding the neighbours of each of its worlds. */
  ghost predicate Confined(g: LaneGraph, all: set<WorldId>) {
    forall u :: u in all ==> forall w :: w in Neighbors(g, u) ==> w in all
  }

  /** Visiting neighbours of a visited world stays within a confined set. */
  lemma StaysConfined(g: LaneGraph, all: set<WorldId>, visited: set<WorldId>, visited': set<WorldId>, u: WorldId)
    requires Confined(g, all) && visited <= all && u in visited
    requires forall v :: v in visited' ==> v in visited || v in Neighbors(g, u)
    ensures visited' <= all
  {
  }

  /** The worlds the search can meet are finitely many: start and the
      listed neighbours. */
  lemma Universe(g: LaneGraph, start: WorldId) returns (all: set<WorldId>)
    ensures start in all && Confined(g, all)
  {
    all := {start} + set u, w | u in g && w in g[u] :: w;
  }

  /** Each queued entry after the first was queued by an earlier one, as its
      neighbour and one hop further. */
  ghost predicate Tree(g: LaneGraph, start: WorldId, order: seq<(WorldId, nat)>, parent: seq<nat>) {
    |order| > 0 && order[0] == (start, 0) && |parent| == |order| &&
    forall i {:trigger parent[i]} :: 0 < i < |order| ==>
      parent[i] < i && order[i].0 in Neighbors(g, order[parent[i]].0) && order[i].1 == order[parent[i]].1 + 1
  }

  /** A queued entry is within its recorded hops of start. */
  lemma {:induction false} Rooted(g: LaneGraph, start: WorldId, order: seq<(WorldId, nat)>, parent: seq<nat>, i: nat)
    requires Tree(g, start, order, parent) && i < |order|
    ensures order[i].0 in Within(g, start, order[i].1)
    decreases i
  {
    if i > 0 {
      Rooted(g, start, order, parent, parent[i]);
      WithinStep(g, start, order[parent[i]].1, order[parent[i]].0, order[i].0);
    }
  }

  lemma TreeGrows(g: LaneGraph, start: WorldId, order: seq<(WorldId, nat)>, parent: seq<nat>, at: nat, w: WorldId)
    requires Tree(g, start, order, parent) && at < |order| && w in Neighbors(g, order[at].0)
    ensures Tree(g, start, order + [(w, order[at].1 + 1)], parent + [at])
  {
    var order', parent' := order + [(w, order[at].1 + 1)], parent + [at];
    forall i | 0 < i < |order'|
      ensures parent'[i] < i && order'[i].0 in Neighbors(g, order'[parent'[i]].0) && order'[i].1 == order'[parent'[i]].1 + 1
    {
      if i < |order| {
        assert order'[i] == order[i] && parent'[i] == parent[i] && order'[parent[i]] == order[parent[i]];
      }
    }
  }

  // ---------------------------------------------------------------------
  // The loop invariants: one predicate for the while loop over the queue,
  // one for the loop over a world's neighbours.

  /** What holds before each popleft: order lists every world queued so far,
      with its hops and the entry that queued it; the first `head` have been
      popped; none is a target; the queue holds layers lvl and lvl + 1. */
  ghost predicate Searching(g: LaneGraph, start: WorldId, targets: set<WorldId>, minHops: int,
                            order: seq<(WorldId, nat)>, parent: seq<nat>, idx: map<WorldId, nat>,
                            head: nat, mid: nat, lvl: nat)
  {
    Tree(g, start, order, parent) && Indexed(order, idx) && idx[start] == 0 && |idx.Keys| == |order| &&
    (forall v :: v in idx ==> v !in targets) &&
    Layered(order, head, mid, lvl) && ClosedUpTo(g, order, idx, head, minHops)
  }

  /** What holds before the j-th neighbour of the popped entry `at` is looked at. */
  ghost predicate Expanding(g: LaneGraph, start: WorldId, targets: set<WorldId>, minHops: int,
                            order: seq<(WorldId, nat)>, parent: seq<nat>, idx: map<WorldId, nat>,
                            at: nat, mid: nat, j: nat)
  {
    Tree(g, start, order, parent) && at < mid && at < |order| && Indexed(order, idx) && idx[start] == 0 && |idx.Keys| == |order| &&
    (forall v :: v in idx ==> v !in targets) &&
    Layered(order, at, mid, order[at].1) && ClosedUpTo(g, order, idx, at, minHops) && order[at].1 < minHops &&
    SeenUpTo(g, order, idx, at, j)
  }

  /** The first j neighbours of entry `at` are discovered, at most one hop further. */
  ghost predicate SeenUpTo(g: LaneGraph, order: seq<(WorldId, nat)>, idx: map<WorldId, nat>, at: nat, j: nat)
    requires Indexed(order, idx) && at < |order|
  {
    j <= |Neighbors(g, order[at].0)| &&
    forall k :: 0 <= k < j ==>
      Neighbors(g, order[at].0)[k] in idx && HopsOf(order, idx, Neighbors(g, order[at].0)[k]) <= order[at].1 + 1
  }

  /** The search begins with start, not a target, alone in the queue. */
  lemma Begun(g: LaneGraph, start: WorldId, targets: set<WorldId>, minHops: int)
    requires start !in targets
    ensures Searching(g, start, targets, minHops, [(start, 0)], [0], map[start := 0], 0, 1, 0)
  {
    assert map[start := 0].Keys == {start};
  }

  /** Before each pop, the entry about to be popped is in the current layer:
      once the last entry of a layer has been popped, the next layer begins. */
  lemma NextLayer(g: LaneGraph, start: WorldId, targets: set<WorldId>, minHops: int,
                  order: seq<(WorldId, nat)>, parent: seq<nat>, idx: map<WorldId, nat>, head: nat, mid: nat, lvl: nat)
    returns (mid': nat, lvl': nat)
    requires Searching(g, start, targets, minHops, order, parent, idx, head, mid, lvl) && head < |order|
    ensures Searching(g, start, targets, minHops, order, parent, idx, head, mid', lvl') && head < mid'
  {
    if head == mid {
      mid', lvl' := |order|, lvl + 1;
    } else {
      mid', lvl' := mid, lvl;
    }
  }

  /** Popping an entry at min_hops or beyond expands nothing. */
  lemma Skipped(g: LaneGraph, start: WorldId, targets: set<WorldId>, minHops: int,
                order: seq<(WorldId, nat)>, parent: seq<nat>, idx: map<WorldId, nat>, head: nat, mid: nat, lvl: nat)
    requires Searching(g, start, targets, minHops, order, parent, idx, head, mid, lvl) && head < mid
    requires order[head].1 >= minHops
    ensures Searching(g, start, targets, minHops, order, parent, idx, head + 1, mid, lvl)
  {
    ClosedNext(g, order, idx, head, minHops);
  }

  /** Popping an entry below min_hops starts on its neighbours. */
  lemma Popped(g: LaneGraph, start: WorldId, targets: set<WorldId>, minHops: int,
               order: seq<(WorldId, nat)>, parent: seq<nat>, idx: map<WorldId, nat>, head: nat, mid: nat, lvl: nat)
    requires Searching(g, start, targets, minHops, order, parent, idx, head, mid, lvl) && head < mid
    requires order[head].1 < minHops
    ensures Expanding(g, start, targets, minHops, order, parent, idx, head, mid, 0)
  {
  }

  /** One popleft: the entry popped belongs to the current layer; below
      min_hops its neighbours are to be looked at, otherwise it is dropped. */
  lemma Pop(g: LaneGraph, start: WorldId, targets: set<WorldId>, minHops: int,
            order: seq<(WorldId, nat)>, parent: seq<nat>, idx: map<WorldId, nat>, head: nat, mid: nat, lvl: nat,
            all: set<WorldId>)
    returns (mid': nat)
    requires Searching(g, start, targets, minHops, order, parent, idx, head, mid, lvl) && head < |order|
    requires idx.Keys <= all
    ensures |order| <= |all|
    ensures order[head..][0] == order[head] && order[head..][1..] == order[head + 1..]
    ensures order[head].1 < minHops ==> Expanding(g, start, targets, minHops, order, parent, idx, head, mid', 0)
    ensures order[head].1 >= minHops ==> Searching(g, start, targets, minHops, order, parent, idx, head + 1, mid', order[head].1)
  {
    Bounded(order, idx, all);
    Dequeued(order, head);
    var lvl';
    mid', lvl' := NextLayer(g, start, targets, minHops, order, parent, idx, head, mid, lvl);
    assert order[head].1 == lvl';
    if order[head].1 >= minHops {
      Skipped(g, start, targets, minHops, order, parent, idx, head, mid', lvl');
    } else {
      Popped(g, start, targets, minHops, order, parent, idx, head, mid', lvl');
    }
  }

  /** A neighbour already visited needs nothing. */
  lemma SeenBefore(g: LaneGraph, start: WorldId, targets: set<WorldId>, minHops: int,
                   order: seq<(WorldId, nat)>, parent: seq<nat>, idx: map<WorldId, nat>, at: nat, mid: nat, j: nat)
    requires Expanding(g, start, targets, minHops, order, parent, idx, at, mid, j) && j < |Neighbors(g, order[at].0)|
    requires Neighbors(g, order[at].0)[j] in idx
    ensures Expanding(g, start, targets, minHops, order, parent, idx, at, mid, j + 1)
  {
  }

  /** A neighbour neither visited nor a target is queued one hop further. */
  lemma Discovered(g: LaneGraph, start: WorldId, targets: set<WorldId>, minHops: int,
                   order: seq<(WorldId, nat)>, parent: seq<nat>, idx: map<WorldId, nat>, at: nat, mid: nat, j: nat,
                   w: WorldId, h: nat)
    requires Expanding(g, start, targets, minHops, order, parent, idx, at, mid, j) && j < |Neighbors(g, order[at].0)|
    requires w == Neighbors(g, order[at].0)[j] && h == order[at].1 + 1 && w !in idx && w !in targets
    ensures Expanding(g, start, targets, minHops, order + [(w, h)], parent + [at], idx[w := |order|], at, mid, j + 1)
    ensures (order + [(w, h)])[at + 1..] == order[at + 1..] + [(w, h)] && idx[w := |order|].Keys == idx.Keys + {w}
  {
    Appended(order, idx, at, w, h);
    TreeGrows(g, start, order, parent, at, w);
    EnqueuedClosed(g, order, idx, at, minHops, w, h);
    LayeredAppend(order, at, mid, order[at].1, (w, h));
    SeenAppend(g, order, idx, at, j, w, h);
    assert (order + [(w, h)])[at] == order[at];
    assert idx[w := |order|].Keys == idx.Keys + {w};
  }

  /** With all its neighbours seen, the popped entry is closed. */
  lemma Expanded(g: LaneGraph, start: WorldId, targets: set<WorldId>, minHops: int,
                 order: seq<(WorldId, nat)>, parent: seq<nat>, idx: map<WorldId, nat>, at: nat, mid: nat)
    requires at < |order| && Expanding(g, start, targets, minHops, order, parent, idx, at, mid, |Neighbors(g, order[at].0)|)
    ensures Searching(g, start, targets, minHops, order, parent, idx, at + 1, mid, order[at].1)
  {
    ClosedNext(g, order, idx, at, minHops);
  }

  /** A target next to the entry being expanded is the nearest one. */
  lemma Found(g: LaneGraph, start: WorldId, targets: set<WorldId>, minHops: int,
              order: seq<(WorldId, nat)>, parent: seq<nat>, idx: map<WorldId, nat>, at: nat, mid: nat, j: nat, hops: nat)
    requires Expanding(g, start, targets, minHops, order, parent, idx, at, mid, j) && j < |Neighbors(g, order[at].0)|
    requires Neighbors(g, order[at].0)[j] in targets && hops == order[at].1
    ensures hops + 1 <= minHops && Closest(g, start, targets, hops + 1)
    ensures targets * Within(g, start, Reach(minHops)) != {}
  {
    Rooted(g, start, order, parent, at);
    forall v | v in idx && HopsOf(order, idx, v) < hops
      ensures idx[v] < at
    {
    }
    Nearest(g, start, targets, minHops, order, idx, at, Neighbors(g, order[at].0)[j]);
  }

  /** The closest target: a neighbour of an entry with fewer hops than
      min_hops, all entries with fewer hops than which are closed. */
  lemma Nearest(g: LaneGraph, start: WorldId, targets: set<WorldId>, minHops: int,
                order: seq<(WorldId, nat)>, idx: map<WorldId, nat>, at: nat, w: WorldId)
    requires Indexed(order, idx) && at < |order| && ClosedUpTo(g, order, idx, at, minHops)
    requires order[0] == (start, 0) && idx[start] == 0
    requires forall v :: v in idx ==> v !in targets
    requires forall v :: v in idx && HopsOf(order, idx, v) < order[at].1 ==> idx[v] < at
    requires order[at].0 in Within(g, start, order[at].1) && order[at].1 < minHops
    requires w in Neighbors(g, order[at].0) && w in targets
    ensures Closest(g, start, targets, order[at].1 + 1)
    ensures targets * Within(g, start, Reach(minHops)) != {}
  {
    var h := order[at].1;
    TargetNear(g, start, targets, minHops, h, order[at].0, w);
    Covered(g, start, order, idx, at, minHops, h);
    Untargeted(targets, Within(g, start, h), idx);
  }

  /** A target next to a world within h < min_hops hops is within h + 1
      hops, and so within reach. */
  lemma TargetNear(g: LaneGraph, start: WorldId, targets: set<WorldId>, minHops: int, h: nat, u: WorldId, w: WorldId)
    requires u in Within(g, start, h) && h < minHops && w in Neighbors(g, u) && w in targets
    ensures targets * Within(g, start, h + 1) != {} && targets * Within(g, start, Reach(minHops)) != {}
  {
    WithinStep(g, start, h, u, w);
    assert w in targets * Within(g, start, h + 1);
    WithinGrows(g, start, h + 1, Reach(minHops));
    assert w in targets * Within(g, start, Reach(minHops));
  }

  /** With every queued entry popped, nothing within reach is a target. */
  lemma Exhausted(g: LaneGraph, start: WorldId, targets: set<WorldId>, minHops: int,
                  order: seq<(WorldId, nat)>, parent: seq<nat>, idx: map<WorldId, nat>, mid: nat, lvl: nat)
    requires Searching(g, start, targets, minHops, order, parent, idx, |order|, mid, lvl)
    ensures targets * Within(g, start, Reach(minHops)) == {}
  {
    Covered(g, start, order, idx, |order|, minHops, Reach(minHops));
    Untargeted(targets, Within(g, start, Reach(minHops)), idx);
  }

  /** The queue never holds more than the worlds there are. */
  lemma Bounded(order: seq<(WorldId, nat)>, idx: map<WorldId, nat>, all: set<WorldId>)
    requires |idx.Keys| == |order| && idx.Keys <= all
    ensures |order| <= |all|
  {
    SubsetSize(idx.Keys, all);
  }

  /** A start that is a target is found at once, and counts as within reach. */
  lemma StartIsTarget(g: LaneGraph, start: WorldId, targets: set<WorldId>, minHops: int)
    requires start in targets
    ensures Closest(g, start, targets, 0) && targets * Within(g, start, Reach(minHops)) != {}
  {
    WithinGrows(g, start, 0, Reach(minHops));
    assert start in targets * Within(g, start, 0) && start in targets * Within(g, start, Reach(minHops));
  }

  /**
   * One pass of the for loop over lane_graph.get(current, []): the j-th
   * neighbour w of the popped entry is a target, or was visited before, or
   * is visited now and queued one hop further.
   */
  method Visit(g: LaneGraph, start: WorldId, targets: set<WorldId>, minHops: int,
               current: WorldId, hops: nat, w: WorldId, queue: seq<(WorldId, nat)>, visited: set<WorldId>,
               ghost order: seq<(WorldId, nat)>, ghost parent: seq<nat>, ghost idx: map<WorldId, nat>,
               ghost at: nat, ghost mid: nat, ghost j: nat)
    returns (found: bool, queue': seq<(WorldId, nat)>, visited': set<WorldId>,
             ghost order': seq<(WorldId, nat)>, ghost parent': seq<nat>, ghost idx': map<WorldId, nat>)
    requires Expanding(g, start, targets, minHops, order, parent, idx, at, mid, j) && order[at] == (current, hops)
    requires j < |Neighbors(g, current)| && w == Neighbors(g, current)[j]
    requires queue == order[at + 1..] && visited == idx.Keys
    ensures found <==> w in targets
    ensures found ==> hops + 1 <= minHops && Closest(g, start, targets, hops + 1)
    ensures found ==> targets * Within(g, start, Reach(minHops)) != {}
    ensures !found ==> Expanding(g, start, targets, minHops, order', parent', idx', at, mid, j + 1)
    ensures !found ==> order'[at] == (current, hops) && queue' == order'[at + 1..] && visited' == idx'.Keys
    ensures !found ==> visited' == visited + {w}
  {
    queue', visited', order', parent', idx' := queue, visited, order, parent, idx;
    if w in targets {
      Found(g, start, targets, minHops, order, parent, idx, at, mid, j, hops);
      return true, queue', visited', order', parent', idx';
    }
    found := false;
    if w in visited {
      SeenBefore(g, start, targets, minHops, order, parent, idx, at, mid, j);
    } else {
      Discovered(g, start, targets, minHops, order, parent, idx, at, mid, j, w, hops + 1);
      var entry: (WorldId, nat) := (w, hops + 1);
      visited' := visited + {w};
      queue' := queue + [entry];
      idx' := idx[w := |order|];
      order' := order + [entry];
      parent' := parent + [at];
    }
  }

  /**
   * The for loop over lane_graph.get(current, []) for a popped entry below
   * min_hops: true as soon as a neighbour is a target; otherwise every new
   * neighbour is visited and queued one hop further, and the entry is closed.
   */
  method Expand(g: LaneGraph, start: WorldId, targets: set<WorldId>, minHops: int,
                current: WorldId, hops: nat, queue: seq<(WorldId, nat)>, visited: set<WorldId>,
                ghost order: seq<(WorldId, nat)>, ghost parent: seq<nat>, ghost idx: map<WorldId, nat>,
                ghost at: nat, ghost mid: nat)
    returns (found: bool, queue': seq<(WorldId, nat)>, visited': set<WorldId>,
             ghost order': seq<(WorldId, nat)>, ghost parent': seq<nat>, ghost idx': map<WorldId, nat>)
    requires Expanding(g, start, targets, minHops, order, parent, idx, at, mid, 0) && order[at] == (current, hops)
    requires queue == order[at + 1..] && visited == idx.Keys
    ensures found ==> hops + 1 <= minHops && Closest(g, start, targets, hops + 1)
    ensures found ==> targets * Within(g, start, Reach(minHops)) != {}
    ensures !found ==> Searching(g, start, targets, minHops, order', parent', idx', at + 1, mid, hops)
    ensures !found ==> at + 1 <= |order'| && queue' == order'[at + 1..] && visited' == idx'.Keys
    ensures !found ==> forall v :: v in visited' ==> v in visited || v in Neighbors(g, current)
  {
    queue', visited', order', parent', idx' := queue, visited, order, parent, idx;
    var ns := Neighbors(g, current);
    for j := 0 to |ns|
      invariant Expanding(g, start, targets, minHops, order', parent', idx', at, mid, j)
      invariant order'[at] == (current, hops) && queue' == order'[at + 1..] && visited' == idx'.Keys
      invariant forall v :: v in visited' ==> v in visited || v in ns
    {
      found, queue', visited', order', parent', idx' :=
        Visit(g, start, targets, minHops, current, hops, ns[j], queue', visited', order', parent', idx', at, mid, j);
      if found {
        return;
      }
    }
    Expanded(g, start, targets, minHops, order', parent', idx', at, mid);
    found := false;
  }

  /**
   * _get_shortest_path_hops(lane_graph, start, targets, min_hops): 0 when
   * start is a target; otherwise the fewest lane hops to a target when that
   * is at most min_hops, and None when no target is that close. The graph is
   * a value and is only read.
   */
  method ShortestPathHops(g: LaneGraph, start: WorldId, targets: set<WorldId>, minHops: int) returns (r: Option<nat>)
    ensures r == Some(0) <==> start in targets
    ensures r.Some? && r.value > 0 ==> r.value <= minHops
    ensures r.Some? ==> Closest(g, start, targets, r.value)
    ensures r.None? <==> targets * Within(g, start, Reach(minHops)) == {}
  {
    if start in targets {
      StartIsTarget(g, start, targets, minHops);
      return Some(0);
    }
    var queue: seq<(WorldId, nat)> := [(start, 0)];
    var visited: set<WorldId> := {start};
    ghost var order: seq<(WorldId, nat)> := queue;
    ghost var parent: seq<nat> := [0];
    ghost var idx: map<WorldId, nat> := map[start := 0];
    ghost var head: nat, mid: nat, lvl: nat := 0, 1, 0;
    ghost var all := Universe(g, start);
    Begun(g, start, targets, minHops);
    while queue != []
      invariant Searching(g, start, targets, minHops, order, parent, idx, head, mid, lvl)
      invariant head <= |order| && queue == order[head..] && visited == idx.Keys && visited <= all
      decreases |all| - head
    {
      mid := Pop(g, start, targets, minHops, order, parent, idx, head, mid, lvl, all);
      var (current, hops) := queue[0];
      queue := queue[1..];
      ghost var at := head;
      head, lvl := head + 1, hops;
      if hops >= minHops {
        continue;
      }
      ghost var old_visited := visited;
      var found;
      found, queue, visited, order, parent, idx := Expand(g, start, targets, minHops, current, hops, queue, visited,
                                                          order, parent, idx, at, mid);
      if found {
        return Some(hops + 1);
      }
      StaysConfined(g, all, old_visited, visited, current);
    }
    Exhausted(g, start, targets, minHops, order, parent, idx, mid, lvl);
    return None;
  }
}
