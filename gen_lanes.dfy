// generation/lane_gen.py: the union-find structure, Kruskal's spanning
// forest over the (already sorted) triangulation edges, the degree-capped
// extra edges and the generated lane records.

module GenLanes {
  import opened Base

  // ---------------------------------------------------------------------
  // Union-find over the elements 0 .. n-1, as sequences.
  // ---------------------------------------------------------------------

  function Highest(rk: seq<nat>): (m: nat)
    ensures forall i :: 0 <= i < |rk| ==> rk[i] <= m
  {
    if rk == [] then 0
    else
      var m := Highest(rk[..|rk| - 1]);
      if rk[|rk| - 1] > m then rk[|rk| - 1] else m
  }

  /** Every parent pointer stays in range and leads to a strictly higher rank;
      so following parents always ends at a root, an element that is its own parent. */
  ghost predicate Ranked(p: seq<nat>, rk: seq<nat>) {
    |p| == |rk| && forall i :: 0 <= i < |p| ==> p[i] < |p| && (p[i] != i ==> rk[i] < rk[p[i]])
  }

  /** The representative of i's set: its root. */
  ghost function Root(p: seq<nat>, rk: seq<nat>, i: nat): (r: nat)
    requires Ranked(p, rk) && i < |p|
    ensures r < |p| && p[r] == r
    ensures rk[i] <= rk[r] && (p[i] != i ==> rk[i] < rk[r])
    decreases Highest(rk) - rk[i]
  {
    if p[i] == i then i else Root(p, rk, p[i])
  }

  /** The set of representatives: one per class of the partition. */
  ghost function Roots(p: seq<nat>, rk: seq<nat>): set<nat>
    requires Ranked(p, rk)
  {
    set k | 0 <= k < |p| :: Root(p, rk, k)
  }

  /** The ranks only bound the walk: the root does not depend on them. */
  lemma {:induction false} RootRankFree(p: seq<nat>, rk: seq<nat>, rk2: seq<nat>, i: nat)
    requires Ranked(p, rk) && Ranked(p, rk2) && i < |p|
    ensures Root(p, rk2, i) == Root(p, rk, i)
    decreases Highest(rk) - rk[i]
  {
    if p[i] != i {
      RootRankFree(p, rk, rk2, p[i]);
    }
  }

  /** Where every element is its own parent, every element is its own class. */
  lemma Singletons(p: seq<nat>, rk: seq<nat>)
    requires Ranked(p, rk) && forall i :: 0 <= i < |p| ==> p[i] == i
    ensures Roots(p, rk) == Below(|p|) && |Roots(p, rk)| == |p|
  {
    forall k | 0 <= k < |p|
      ensures k in Roots(p, rk)
    {
      assert Root(p, rk, k) == k;
    }
  }

  /** The elements 0 .. n-1. */
  function Below(n: nat): (s: set<nat>)
    ensures forall k: nat :: k in s <==> k < n
    ensures |s| == n
  {
    if n == 0 then {} else Below(n - 1) + {n - 1}
  }

  /** Two forests with the same root everywhere have the same classes. */
  lemma SameRoots(p: seq<nat>, q: seq<nat>, rk: seq<nat>)
    requires Ranked(p, rk) && Ranked(q, rk) && |p| == |q|
    requires forall k :: 0 <= k < |p| ==> Root(q, rk, k) == Root(p, rk, k)
    ensures Roots(q, rk) == Roots(p, rk)
  {
  }

  lemma CompressedRanked(p: seq<nat>, rk: seq<nat>, i: nat)
    requires Ranked(p, rk) && i < |p|
    ensures Ranked(p[i := Root(p, rk, i)], rk)
  {
  }

  /** Path compression: pointing i straight at its root keeps every element's root. */
  lemma {:induction false} Compressed(p: seq<nat>, rk: seq<nat>, i: nat, j: nat)
    requires Ranked(p, rk) && i < |p| && j < |p|
    ensures Ranked(p[i := Root(p, rk, i)], rk)
    ensures Root(p[i := Root(p, rk, i)], rk, j) == Root(p, rk, j)
    decreases Highest(rk) - rk[j]
  {
    CompressedRanked(p, rk, i);
    var q := p[i := Root(p, rk, i)];
    if j == i {
      var r := Root(p, rk, i);
      if r != i {
        assert q[r] == r;
      }
    } else if p[j] != j {
      Compressed(p, rk, i, p[j]);
    }
  }

  /** The ranks after linking root c under root t: only t's rank may grow. */
  ghost predicate LinkRanks(p: seq<nat>, rk: seq<nat>, rk2: seq<nat>, c: nat, t: nat) {
    Ranked(p, rk) && c < |p| && t < |p| && c != t && p[c] == c && p[t] == t &&
    |rk2| == |rk| && rk[t] <= rk2[t] && rk[c] < rk2[t] &&
    forall m :: 0 <= m < |rk| && m != t ==> rk2[m] == rk[m]
  }

  lemma LinkedRanked(p: seq<nat>, rk: seq<nat>, rk2: seq<nat>, c: nat, t: nat)
    requires LinkRanks(p, rk, rk2, c, t)
    ensures Ranked(p[c := t], rk2)
  {
    var q := p[c := t];
    forall i | 0 <= i < |q| && q[i] != i
      ensures rk2[i] < rk2[q[i]]
    {
      if i != c {
        assert rk[i] < rk[p[i]];
      }
    }
  }

  /** Linking root c under root t merges c's class into t's and leaves every other class alone. */
  lemma {:induction false} Linked(p: seq<nat>, rk: seq<nat>, rk2: seq<nat>, c: nat, t: nat, k: nat)
    requires LinkRanks(p, rk, rk2, c, t) && k < |p|
    ensures Ranked(p[c := t], rk2)
    ensures Root(p[c := t], rk2, k) == if Root(p, rk, k) == c then t else Root(p, rk, k)
    decreases Highest(rk) - rk[k]
  {
    LinkedRanked(p, rk, rk2, c, t);
    if k != c && p[k] != k {
      Linked(p, rk, rk2, c, t, p[k]);
    }
  }

  /** After a link the classes are the old ones less c's. */
  lemma LinkedRoots(p: seq<nat>, rk: seq<nat>, rk2: seq<nat>, c: nat, t: nat)
    requires LinkRanks(p, rk, rk2, c, t)
    ensures Ranked(p[c := t], rk2)
    ensures Roots(p[c := t], rk2) == Roots(p, rk) - {c}
    ensures |Roots(p[c := t], rk2)| == |Roots(p, rk)| - 1
  {
    var q := p[c := t];
    LinkedRanked(p, rk, rk2, c, t);
    forall r | r in Roots(q, rk2)
      ensures r in Roots(p, rk) - {c}
    {
      var k :| 0 <= k < |q| && Root(q, rk2, k) == r;
      Linked(p, rk, rk2, c, t, k);
      assert Root(p, rk, t) == t;
    }
    forall r | r in Roots(p, rk) - {c}
      ensures r in Roots(q, rk2)
    {
      var k :| 0 <= k < |p| && Root(p, rk, k) == r;
      Linked(p, rk, rk2, c, t, k);
    }
    assert Root(p, rk, c) == c;
  }

  /** DisjointSetUnion: parent and rank lists of one length. */
  class DisjointSetUnion {
    const parent: array<nat>
    const rank: array<nat>

    ghost predicate Valid()
      reads this, parent, rank
    {
      parent != rank && Ranked(parent[..], rank[..])
    }

    /** find(k) as a value: the root of k's set. */
    ghost function Of(k: nat): nat
      reads this, parent, rank
      requires Valid() && k < parent.Length
    {
      Root(parent[..], rank[..], k)
    }

    /** The representatives of the current classes. */
    ghost function Classes(): set<nat>
      reads this, parent, rank
      requires Valid()
    {
      Roots(parent[..], rank[..])
    }

    /** DisjointSetUnion(n): every element is its own root, with rank 0. */
    constructor (n: nat)
      ensures Valid() && parent.Length == n && fresh(parent) && fresh(rank)
      ensures forall i :: 0 <= i < n ==> parent[i] == i && rank[i] == 0
      ensures |Classes()| == n
    {
      parent := new nat[n](i => i);
      rank := new nat[n](i => 0);
      new;
      Singletons(parent[..], rank[..]);
    }

    /** find(i) with path compression: returns i's root and keeps every element's root. */
    method Find(i: nat) returns (r: nat)
      requires Valid() && i < parent.Length
      modifies parent
      ensures Valid()
      ensures r == old(Of(i))
      ensures forall k :: 0 <= k < parent.Length ==> Of(k) == old(Of(k))
      ensures Classes() == old(Classes())
      decreases Highest(rank[..]) - rank[i]
    {
      if parent[i] == i {
        return i;
      }
      ghost var p0 := parent[..];
      r := Find(parent[i]);
      ghost var p1 := parent[..];
      assert Of(i) == Root(p0, rank[..], i);
      assert Root(p0, rank[..], i) == Root(p0, rank[..], p0[i]);
      assert Root(p0, rank[..], p0[i]) == r;
      CompressedRanked(p1, rank[..], i);
      parent[i] := r;
      assert parent[..] == p1[i := Root(p1, rank[..], i)];
      forall k | 0 <= k < parent.Length
        ensures Of(k) == Root(p0, rank[..], k)
      {
        Compressed(p1, rank[..], i, k);
      }
      SameRoots(p0, parent[..], rank[..]);
    }

    /** union(i, j): true exactly when i and j were in different classes; then the
        lower-ranked root goes under the other, and a tie raises the surviving root's rank. */
    method Union(i: nat, j: nat) returns (merged: bool)
      requires Valid() && i < parent.Length && j < parent.Length
      modifies parent, rank
      ensures Valid()
      ensures merged <==> old(Of(i)) != old(Of(j))
      ensures Of(i) == Of(j) && (Of(i) == old(Of(i)) || Of(i) == old(Of(j)))
      ensures forall k :: 0 <= k < parent.Length ==>
        Of(k) == (if old(Of(k)) == old(Of(i)) || old(Of(k)) == old(Of(j)) then Of(i) else old(Of(k)))
      ensures !merged ==> Classes() == old(Classes()) && rank[..] == old(rank[..])
      ensures merged ==> |Classes()| == |old(Classes())| - 1
      ensures var a, b := old(Of(i)), old(Of(j));
        merged ==>
          (old(rank[a]) < old(rank[b]) ==> parent[a] == b && rank[..] == old(rank[..])) &&
          (old(rank[a]) > old(rank[b]) ==> parent[b] == a && rank[..] == old(rank[..])) &&
          (old(rank[a]) == old(rank[b]) ==> parent[b] == a && rank[..] == old(rank[..])[a := old(rank[a]) + 1])
    {
      var ri := Find(i);
      var rj := Find(j);
      if ri == rj {
        return false;
      }
      Unite(ri, rj);
      return true;
    }

    /** The linking half of union, on two distinct roots. */
    method Unite(ri: nat, rj: nat)
      requires Valid() && ri < parent.Length && rj < parent.Length && ri != rj
      requires parent[ri] == ri && parent[rj] == rj
      modifies parent, rank
      ensures Valid()
      ensures Of(ri) == ri || Of(ri) == rj
      ensures forall k :: 0 <= k < parent.Length ==>
        Of(k) == (if old(Of(k)) == ri || old(Of(k)) == rj then Of(ri) else old(Of(k)))
      ensures |Classes()| == |old(Classes())| - 1
      ensures old(rank[ri]) < old(rank[rj]) ==> parent[ri] == rj && rank[..] == old(rank[..])
      ensures old(rank[ri]) > old(rank[rj]) ==> parent[rj] == ri && rank[..] == old(rank[..])
      ensures old(rank[ri]) == old(rank[rj]) ==> parent[rj] == ri && rank[..] == old(rank[..])[ri := old(rank[ri]) + 1]
    {
      if rank[ri] < rank[rj] {
        Link(ri, rj, rank[rj]);
      } else if rank[ri] > rank[rj] {
        Link(rj, ri, rank[ri]);
      } else {
        Link(rj, ri, rank[ri] + 1);
      }
    }

    /** parent[c] = t, with t's rank set to rt. */
    method Link(c: nat, t: nat, rt: nat)
      requires Valid() && c < parent.Length && t < parent.Length
      requires LinkRanks(parent[..], rank[..], rank[..][t := rt], c, t)
      modifies parent, rank
      ensures Valid()
      ensures parent[..] == old(parent[..])[c := t] && rank[..] == old(rank[..])[t := rt]
      ensures forall k :: 0 <= k < parent.Length ==> Of(k) == (if old(Of(k)) == c then t else old(Of(k)))
      ensures Classes() == old(Classes()) - {c} && |Classes()| == |old(Classes())| - 1
    {
      ghost var p0, rk0 := parent[..], rank[..];
      parent[c] := t;
      rank[t] := rt;
      assert parent[..] == p0[c := t] && rank[..] == rk0[t := rt];
      LinkedRoots(p0, rk0, rk0[t := rt], c, t);
      forall k | 0 <= k < parent.Length
        ensures Of(k) == (if Root(p0, rk0, k) == c then t else Root(p0, rk0, k))
      {
        Linked(p0, rk0, rk0[t := rt], c, t, k);
      }
    }
  }

  // ---------------------------------------------------------------------
  // Edges between worlds, and what they connect.
  // ---------------------------------------------------------------------

  /** A candidate lane (world_id1, world_id2, dist). */
  datatype Edge = Edge(a: WorldId, b: WorldId, dist: real)

  /** Python's order on strings: code point by code point, a proper prefix first. */
  predicate Less(x: string, y: string) {
    if x == [] then y != []
    else if y == [] then false
    else if x[0] != y[0] then x[0] < y[0]
    else Less(x[1..], y[1..])
  }

  /** tuple(sorted((w1, w2))): the unordered pair of worlds an edge joins. */
  function Key(e: Edge): (WorldId, WorldId) {
    if Less(e.b, e.a) then (e.b, e.a) else (e.a, e.b)
  }

  /** Equal keys mean the same two endpoints, in one order or the other. */
  lemma KeySame(e: Edge, f: Edge)
    requires Key(e) == Key(f)
    ensures (e.a == f.a && e.b == f.b) || (e.a == f.b && e.b == f.a)
  {
  }

  /** No unordered pair occurs twice. */
  predicate UniqueKeys(es: seq<Edge>) {
    forall i, j :: 0 <= i < j < |es| ==> Key(es[i]) != Key(es[j])
  }

  lemma UniqueAppend(es: seq<Edge>, e: Edge)
    requires UniqueKeys(es) && forall i :: 0 <= i < |es| ==> Key(es[i]) != Key(e)
    ensures UniqueKeys(es + [e])
  {
    var g := es + [e];
    forall i, j | 0 <= i < j < |g|
      ensures Key(g[i]) != Key(g[j])
    {
      assert g[i] == es[i];
    }
  }

  /** Both endpoints of every edge are among the worlds. */
  predicate Within(ids: seq<WorldId>, es: seq<Edge>) {
    forall i :: 0 <= i < |es| ==> es[i].a in ids && es[i].b in ids
  }

  /** S holds both endpoints of every edge or neither. */
  ghost predicate Closed(S: set<WorldId>, es: seq<Edge>) {
    forall i :: 0 <= i < |es| ==> (es[i].a in S <==> es[i].b in S)
  }

  /** x and y are connected by es: every edge-closed set holding x holds y. */
  ghost predicate Joined(es: seq<Edge>, x: WorldId, y: WorldId) {
    forall S: set<WorldId> :: Closed(S, es) && x in S ==> y in S
  }

  lemma JoinedEdge(es: seq<Edge>, i: nat)
    requires i < |es|
    ensures Joined(es, es[i].a, es[i].b) && Joined(es, es[i].b, es[i].a)
  {
  }

  lemma JoinedTrans(es: seq<Edge>, x: WorldId, y: WorldId, z: WorldId)
    requires Joined(es, x, y) && Joined(es, y, z)
    ensures Joined(es, x, z)
  {
  }

  /** The worlds the edges touch. */
  function Ends(es: seq<Edge>): (s: set<WorldId>)
    ensures forall i :: 0 <= i < |es| ==> es[i].a in s && es[i].b in s
  {
    if es == [] then {} else Ends(es[..|es| - 1]) + {es[|es| - 1].a, es[|es| - 1].b}
  }

  lemma JoinedSym(es: seq<Edge>, x: WorldId, y: WorldId)
    requires Joined(es, x, y)
    ensures Joined(es, y, x)
  {
    forall S | Closed(S, es) && y in S
      ensures x in S
    {
      if x !in S {
        var T := (Ends(es) + {x, y}) - S;
        forall i | 0 <= i < |es|
          ensures es[i].a in T <==> es[i].b in T
        {
        }
        assert Closed(T, es) && x in T;
      }
    }
  }

  /** Connections survive adding edges, and more generally moving to a superset. */
  lemma JoinedSub(fs: seq<Edge>, es: seq<Edge>, x: WorldId, y: WorldId)
    requires forall i :: 0 <= i < |fs| ==> fs[i] in es
    requires Joined(fs, x, y)
    ensures Joined(es, x, y)
  {
    forall S | Closed(S, es) && x in S
      ensures y in S
    {
      forall i | 0 <= i < |fs|
        ensures fs[i].a in S <==> fs[i].b in S
      {
        var j :| 0 <= j < |es| && es[j] == fs[i];
      }
      assert Closed(S, fs);
    }
  }

  /** A labelling that is constant along every edge is constant on every connected pair. */
  lemma JoinedLabels(ids: seq<WorldId>, es: seq<Edge>, lab: map<WorldId, nat>, x: WorldId, y: WorldId)
    requires Within(ids, es) && (forall w :: w in ids ==> w in lab)
    requires forall i :: 0 <= i < |es| ==> lab[es[i].a] == lab[es[i].b]
    requires x in ids && Joined(es, x, y)
    ensures y in ids && lab[y] == lab[x]
  {
    var S := set w | w in ids && lab[w] == lab[x];
    assert Closed(S, es);
  }

  // ---------------------------------------------------------------------
  // Kruskal's loop as a specification: an edge is kept exactly when its
  // endpoints are not yet connected by the edges kept before it.
  // ---------------------------------------------------------------------

  ghost function SpanningForest(es: seq<Edge>): seq<Edge>
    decreases |es|
  {
    if es == [] then []
    else
      var f := SpanningForest(es[..|es| - 1]);
      var e := es[|es| - 1];
      if Joined(f, e.a, e.b) then f else f + [e]
  }

  lemma ForestNext(es: seq<Edge>, k: nat)
    requires k < |es|
    ensures SpanningForest(es[..k + 1]) ==
      (var f := SpanningForest(es[..k]); if Joined(f, es[k].a, es[k].b) then f else f + [es[k]])
  {
    assert es[..k + 1][..k] == es[..k];
  }

  /** Every kept edge is a candidate edge. */
  lemma {:induction false} ForestIn(es: seq<Edge>)
    ensures forall i :: 0 <= i < |SpanningForest(es)| ==> SpanningForest(es)[i] in es
  {
    if es != [] {
      var p := es[..|es| - 1];
      ForestIn(p);
      assert forall e :: e in p ==> e in es;
    }
  }

  /** Every candidate edge ends up with its endpoints connected by the kept edges. */
  lemma {:induction false} ForestJoins(es: seq<Edge>)
    ensures forall i :: 0 <= i < |es| ==> Joined(SpanningForest(es), es[i].a, es[i].b)
  {
    if es != [] {
      var p := es[..|es| - 1];
      var f := SpanningForest(p);
      var e := es[|es| - 1];
      ForestJoins(p);
      forall i | 0 <= i < |es|
        ensures Joined(SpanningForest(es), es[i].a, es[i].b)
      {
        if i < |es| - 1 {
          assert es[i] == p[i];
          if !Joined(f, e.a, e.b) {
            JoinedSub(f, f + [e], es[i].a, es[i].b);
          }
        } else if !Joined(f, e.a, e.b) {
          JoinedEdge(f + [e], |f|);
        }
      }
    }
  }

  /** The kept edges connect exactly the pairs the candidate edges connect. */
  lemma ForestConnects(es: seq<Edge>, x: WorldId, y: WorldId)
    ensures Joined(SpanningForest(es), x, y) <==> Joined(es, x, y)
  {
    var f := SpanningForest(es);
    ForestIn(es);
    if Joined(f, x, y) {
      JoinedSub(f, es, x, y);
    }
    if Joined(es, x, y) {
      ForestJoins(es);
      forall S | Closed(S, f) && x in S
        ensures y in S
      {
        forall i | 0 <= i < |es|
          ensures es[i].a in S <==> es[i].b in S
        {
          JoinedSym(f, es[i].a, es[i].b);
        }
        assert Closed(S, es);
      }
    }
  }

  /** No kept edge joins two worlds already connected by the edges kept before it. */
  lemma {:induction false} ForestAcyclic(es: seq<Edge>)
    ensures forall m :: 0 <= m < |SpanningForest(es)| ==>
      !Joined(SpanningForest(es)[..m], SpanningForest(es)[m].a, SpanningForest(es)[m].b)
  {
    if es != [] {
      var p := es[..|es| - 1];
      var f := SpanningForest(p);
      ForestAcyclic(p);
      if SpanningForest(es) != f {
        assert SpanningForest(es) == f + [es[|es| - 1]];
        assert (f + [es[|es| - 1]])[..|f|] == f;
        forall m | 0 <= m < |f|
          ensures (f + [es[|es| - 1]])[..m] == f[..m]
        {
        }
      }
    }
  }

  /** An acyclic edge list has no loops and repeats no unordered pair. */
  lemma AcyclicKeys(f: seq<Edge>)
    requires forall m :: 0 <= m < |f| ==> !Joined(f[..m], f[m].a, f[m].b)
    ensures UniqueKeys(f) && forall i :: 0 <= i < |f| ==> f[i].a != f[i].b
  {
    forall i, j | 0 <= i < j < |f|
      ensures Key(f[i]) != Key(f[j])
    {
      assert f[..j][i] == f[i];
      JoinedEdge(f[..j], i);
    }
  }

  // ---------------------------------------------------------------------
  // Collecting the triangulation's edges once each (lines 70-91).
  // ---------------------------------------------------------------------

  /** A triangle of the triangulation: three positions in the world list. */
  type Simplex = seq<nat>

  /** The sides of a triangle in the order the loop visits them. */
  function Sides(t: Simplex): seq<(nat, nat)>
    requires |t| == 3
  {
    [(t[0], t[1]), (t[1], t[2]), (t[2], t[0])]
  }

  ghost predicate Triangles(n: nat, sx: seq<Simplex>) {
    forall s :: 0 <= s < |sx| ==> |sx[s]| == 3 && sx[s][0] < n && sx[s][1] < n && sx[s][2] < n
  }

  function AllSides(n: nat, sx: seq<Simplex>): (ps: seq<(nat, nat)>)
    requires Triangles(n, sx)
    ensures forall k :: 0 <= k < |ps| ==> ps[k].0 < n && ps[k].1 < n
  {
    if sx == [] then [] else AllSides(n, sx[..|sx| - 1]) + Sides(sx[|sx| - 1])
  }

  /** The edge a side stands for; dist is the Euclidean distance of the two positions. */
  function SideEdge(ids: seq<WorldId>, side: (nat, nat), dist: (nat, nat) -> real): Edge
    requires side.0 < |ids| && side.1 < |ids|
  {
    Edge(ids[side.0], ids[side.1], dist(side.0, side.1))
  }

  /** The deduplicating loop as a specification: a side is kept when its pair is new. */
  function Deduped(ids: seq<WorldId>, ps: seq<(nat, nat)>, dist: (nat, nat) -> real): seq<Edge>
    requires forall k :: 0 <= k < |ps| ==> ps[k].0 < |ids| && ps[k].1 < |ids|
  {
    if ps == [] then []
    else
      var r := Deduped(ids, ps[..|ps| - 1], dist);
      var e := SideEdge(ids, ps[|ps| - 1], dist);
      if Key(e) in KeysOf(r) then r else r + [e]
  }

  /** The collected edges repeat no unordered pair, and every side's pair is among them. */
  lemma {:induction false} DedupedUnique(ids: seq<WorldId>, ps: seq<(nat, nat)>, dist: (nat, nat) -> real)
    requires forall k :: 0 <= k < |ps| ==> ps[k].0 < |ids| && ps[k].1 < |ids|
    ensures UniqueKeys(Deduped(ids, ps, dist))
    ensures forall k :: 0 <= k < |ps| ==> Key(SideEdge(ids, ps[k], dist)) in KeysOf(Deduped(ids, ps, dist))
  {
    if ps != [] {
      var p := ps[..|ps| - 1];
      var r := Deduped(ids, p, dist);
      var e := SideEdge(ids, ps[|ps| - 1], dist);
      DedupedUnique(ids, p, dist);
      KeysOfAppend(r, e);
      if Key(e) !in KeysOf(r) {
        forall i | 0 <= i < |r|
          ensures Key(r[i]) != Key(e)
        {
        }
        UniqueAppend(r, e);
      }
      forall k | 0 <= k < |ps|
        ensures Key(SideEdge(ids, ps[k], dist)) in KeysOf(Deduped(ids, ps, dist))
      {
        if k < |p| {
          assert ps[k] == p[k];
        }
      }
    }
  }

  /** The edges of all the sides, repeats included. */
  function SideEdges(ids: seq<WorldId>, ps: seq<(nat, nat)>, dist: (nat, nat) -> real): (es: seq<Edge>)
    requires forall k :: 0 <= k < |ps| ==> ps[k].0 < |ids| && ps[k].1 < |ids|
    ensures |es| == |ps| && forall k :: 0 <= k < |ps| ==> es[k] == SideEdge(ids, ps[k], dist)
  {
    if ps == [] then [] else SideEdges(ids, ps[..|ps| - 1], dist) + [SideEdge(ids, ps[|ps| - 1], dist)]
  }

  /** Each collected edge is the edge of some side. */
  lemma {:induction false} DedupedFrom(ids: seq<WorldId>, ps: seq<(nat, nat)>, dist: (nat, nat) -> real)
    requires forall k :: 0 <= k < |ps| ==> ps[k].0 < |ids| && ps[k].1 < |ids|
    ensures forall e :: e in Deduped(ids, ps, dist) ==> e in SideEdges(ids, ps, dist)
  {
    if ps != [] {
      var p := ps[..|ps| - 1];
      DedupedFrom(ids, p, dist);
      assert SideEdges(ids, ps, dist) == SideEdges(ids, p, dist) + [SideEdge(ids, ps[|ps| - 1], dist)];
    }
  }

  lemma DedupedNext(ids: seq<WorldId>, ps: seq<(nat, nat)>, side: (nat, nat), dist: (nat, nat) -> real)
    requires forall k :: 0 <= k < |ps| ==> ps[k].0 < |ids| && ps[k].1 < |ids|
    requires side.0 < |ids| && side.1 < |ids|
    ensures Deduped(ids, ps + [side], dist) ==
      (var r := Deduped(ids, ps, dist); var e := SideEdge(ids, side, dist); if Key(e) in KeysOf(r) then r else r + [e])
  {
    assert (ps + [side])[..|ps|] == ps;
  }

  /** Lines 71-91: every triangle side, once per unordered pair of worlds, in visiting order. */
  method CandidateEdges(ids: seq<WorldId>, simplices: seq<Simplex>, dist: (nat, nat) -> real) returns (edges: seq<Edge>)
    requires Triangles(|ids|, simplices)
    ensures edges == Deduped(ids, AllSides(|ids|, simplices), dist)
  {
    edges := [];
    var seen: set<(WorldId, WorldId)> := {};
    for s := 0 to |simplices|
      invariant edges == Deduped(ids, AllSides(|ids|, simplices[..s]), dist) && seen == KeysOf(edges)
    {
      assert simplices[..s + 1][..s] == simplices[..s];
      edges, seen := CollectTriangle(ids, simplices[s], dist, AllSides(|ids|, simplices[..s]), edges, seen);
    }
    assert simplices[..|simplices|] == simplices;
  }

  /** The inner loop over one triangle's three sides. */
  method CollectTriangle(ids: seq<WorldId>, t: Simplex, dist: (nat, nat) -> real, ghost before: seq<(nat, nat)>,
                         edges0: seq<Edge>, seen0: set<(WorldId, WorldId)>)
    returns (edges: seq<Edge>, seen: set<(WorldId, WorldId)>)
    requires |t| == 3 && t[0] < |ids| && t[1] < |ids| && t[2] < |ids|
    requires forall k :: 0 <= k < |before| ==> before[k].0 < |ids| && before[k].1 < |ids|
    requires edges0 == Deduped(ids, before, dist) && seen0 == KeysOf(edges0)
    ensures edges == Deduped(ids, before + Sides(t), dist) && seen == KeysOf(edges)
  {
    edges, seen := edges0, seen0;
    assert before + Sides(t)[..0] == before;
    ghost var sofar := before;
    for i := 0 to 3
      invariant TriangleAt(ids, t, dist, before, i, sofar, edges, seen)
    {
      var p1, p2 := t[i], t[(i + 1) % 3];
      ghost var e0 := edges;
      edges, seen := CollectSide(ids, (p1, p2), dist, sofar, edges, seen);
      TriangleNext(ids, t, dist, before, i, sofar, e0, edges, seen);
      sofar := sofar + [(p1, p2)];
    }
    assert Sides(t)[..3] == Sides(t);
  }

  /** The state of the side loop after its first i sides. */
  ghost predicate TriangleAt(ids: seq<WorldId>, t: Simplex, dist: (nat, nat) -> real, before: seq<(nat, nat)>, i: nat,
                             sofar: seq<(nat, nat)>, edges: seq<Edge>, seen: set<(WorldId, WorldId)>) {
    |t| == 3 && i <= 3 && sofar == before + Sides(t)[..i] && SidesIn(|ids|, sofar) &&
    edges == Deduped(ids, sofar, dist) && seen == KeysOf(edges)
  }

  lemma TriangleNext(ids: seq<WorldId>, t: Simplex, dist: (nat, nat) -> real, before: seq<(nat, nat)>, i: nat,
                     sofar: seq<(nat, nat)>, e0: seq<Edge>, edges: seq<Edge>, seen: set<(WorldId, WorldId)>)
    requires |t| == 3 && t[0] < |ids| && t[1] < |ids| && t[2] < |ids|
    requires TriangleAt(ids, t, dist, before, i, sofar, e0, KeysOf(e0)) && i < 3
    requires edges == Deduped(ids, sofar + [(t[i], t[(i + 1) % 3])], dist) && seen == KeysOf(edges)
    ensures TriangleAt(ids, t, dist, before, i + 1, sofar + [(t[i], t[(i + 1) % 3])], edges, seen)
  {
    SidesInAppend(|ids|, sofar, (t[i], t[(i + 1) % 3]));
    SoFarNext(before, t, i);
  }

  lemma SoFarNext(before: seq<(nat, nat)>, t: Simplex, i: nat)
    requires |t| == 3 && i < 3
    ensures before + Sides(t)[..i + 1] == (before + Sides(t)[..i]) + [(t[i], t[(i + 1) % 3])]
  {
    SidesPrefixNext(t, i);
  }

  /** Every side joins two of the n worlds. */
  predicate SidesIn(n: nat, ps: seq<(nat, nat)>) {
    forall k :: 0 <= k < |ps| ==> ps[k].0 < n && ps[k].1 < n
  }

  lemma SidesInAppend(n: nat, ps: seq<(nat, nat)>, side: (nat, nat))
    requires SidesIn(n, ps) && side.0 < n && side.1 < n
    ensures SidesIn(n, ps + [side])
  {
  }

  /** Side i of a triangle joins corner i to corner (i + 1) % 3. */
  lemma SidesPrefixNext(t: Simplex, i: nat)
    requires |t| == 3 && i < 3
    ensures Sides(t)[..i + 1] == Sides(t)[..i] + [(t[i], t[(i + 1) % 3])]
  {
    if i == 0 {
    } else if i == 1 {
    } else {
      assert (i + 1) % 3 == 0;
    }
  }

  /** One side: kept when its unordered pair has not been seen. */
  method CollectSide(ids: seq<WorldId>, side: (nat, nat), dist: (nat, nat) -> real, ghost before: seq<(nat, nat)>,
                     edges0: seq<Edge>, seen0: set<(WorldId, WorldId)>)
    returns (edges: seq<Edge>, seen: set<(WorldId, WorldId)>)
    requires side.0 < |ids| && side.1 < |ids|
    requires forall k :: 0 <= k < |before| ==> before[k].0 < |ids| && before[k].1 < |ids|
    requires edges0 == Deduped(ids, before, dist) && seen0 == KeysOf(edges0)
    ensures edges == Deduped(ids, before + [side], dist) && seen == KeysOf(edges)
  {
    edges, seen := edges0, seen0;
    var e := Edge(ids[side.0], ids[side.1], dist(side.0, side.1));
    DedupedNext(ids, before, side, dist);
    if Key(e) !in seen {
      KeysOfAppend(edges, e);
      seen := seen + {Key(e)};
      edges := edges + [e];
    }
  }

  // ---------------------------------------------------------------------
  // Kruskal's loop over the union-find structure.
  // ---------------------------------------------------------------------

  /** world_id_to_idx[w]: the position of w among the worlds. */
  function IndexOf(ids: seq<WorldId>, w: WorldId): (k: nat)
    requires w in ids
    ensures k < |ids| && ids[k] == w
  {
    if ids[0] == w then 0 else 1 + IndexOf(ids[1..], w)
  }

  /** The union-find classes, read through the world positions, are exactly
      the pairs of worlds that f connects. */
  ghost predicate Mirrors(p: seq<nat>, rk: seq<nat>, ids: seq<WorldId>, f: seq<Edge>) {
    Ranked(p, rk) && |p| == |ids| && Within(ids, f) &&
    forall x, y :: x in ids && y in ids ==>
      (Root(p, rk, IndexOf(ids, x)) == Root(p, rk, IndexOf(ids, y)) <==> Joined(f, x, y))
  }

  lemma MirrorsStart(p: seq<nat>, rk: seq<nat>, ids: seq<WorldId>)
    requires Ranked(p, rk) && |p| == |ids| && Distinct(ids)
    requires forall i :: 0 <= i < |p| ==> p[i] == i
    ensures Mirrors(p, rk, ids, [])
  {
    forall x, y | x in ids && y in ids
      ensures Root(p, rk, IndexOf(ids, x)) == Root(p, rk, IndexOf(ids, y)) <==> Joined([], x, y)
    {
      if x != y {
        assert Closed({x}, []);
      }
    }
  }

  lemma MirrorsKept(p0: seq<nat>, p1: seq<nat>, rk: seq<nat>, ids: seq<WorldId>, f: seq<Edge>)
    requires Mirrors(p0, rk, ids, f) && Ranked(p1, rk) && |p1| == |p0|
    requires forall k :: 0 <= k < |p0| ==> Root(p1, rk, k) == Root(p0, rk, k)
    ensures Mirrors(p1, rk, ids, f)
  {
  }

  /** p1 is p0 with the classes of e's endpoints merged under one of their two roots. */
  ghost predicate MergedAt(p0: seq<nat>, rk0: seq<nat>, p1: seq<nat>, rk1: seq<nat>, ids: seq<WorldId>, e: Edge) {
    Ranked(p0, rk0) && Ranked(p1, rk1) && |p0| == |ids| && |p1| == |ids| && e.a in ids && e.b in ids &&
    var ra, rb, r := Root(p0, rk0, IndexOf(ids, e.a)), Root(p0, rk0, IndexOf(ids, e.b)), Root(p1, rk1, IndexOf(ids, e.a));
    (r == ra || r == rb) &&
    forall k :: 0 <= k < |p1| ==> Root(p1, rk1, k) == if Root(p0, rk0, k) == ra || Root(p0, rk0, k) == rb then r else Root(p0, rk0, k)
  }

  lemma MergedJoins(p0: seq<nat>, rk0: seq<nat>, p1: seq<nat>, rk1: seq<nat>, ids: seq<WorldId>, f: seq<Edge>, e: Edge, x: WorldId, y: WorldId)
    requires Mirrors(p0, rk0, ids, f) && MergedAt(p0, rk0, p1, rk1, ids, e) && x in ids && y in ids
    requires Root(p1, rk1, IndexOf(ids, x)) == Root(p1, rk1, IndexOf(ids, y))
    ensures Joined(f + [e], x, y)
  {
    var g := f + [e];
    var ra, rb := Root(p0, rk0, IndexOf(ids, e.a)), Root(p0, rk0, IndexOf(ids, e.b));
    var rx, ry := Root(p0, rk0, IndexOf(ids, x)), Root(p0, rk0, IndexOf(ids, y));
    JoinedEdge(g, |f|);
    if rx == ry {
      JoinedSub(f, g, x, y);
    } else if rx == ra {
      JoinedSub(f, g, x, e.a);
      JoinedSub(f, g, e.b, y);
      JoinedTrans(g, x, e.a, e.b);
      JoinedTrans(g, x, e.b, y);
    } else {
      JoinedSub(f, g, x, e.b);
      JoinedSub(f, g, e.a, y);
      JoinedTrans(g, x, e.b, e.a);
      JoinedTrans(g, x, e.a, y);
    }
  }

  lemma MergedClasses(p0: seq<nat>, rk0: seq<nat>, p1: seq<nat>, rk1: seq<nat>, ids: seq<WorldId>, f: seq<Edge>, e: Edge, x: WorldId, y: WorldId)
    requires Mirrors(p0, rk0, ids, f) && MergedAt(p0, rk0, p1, rk1, ids, e) && x in ids && y in ids
    requires Joined(f + [e], x, y)
    ensures Root(p1, rk1, IndexOf(ids, x)) == Root(p1, rk1, IndexOf(ids, y))
  {
    var g := f + [e];
    var lab := map w | w in ids :: Root(p1, rk1, IndexOf(ids, w));
    forall i | 0 <= i < |g|
      ensures lab[g[i].a] == lab[g[i].b]
    {
      if i < |f| {
        assert g[i] == f[i];
        JoinedEdge(f, i);
      }
    }
    JoinedLabels(ids, g, lab, x, y);
  }

  /** Merging the classes of e's endpoints mirrors adding e to the kept edges. */
  lemma MirrorsMerged(p0: seq<nat>, rk0: seq<nat>, p1: seq<nat>, rk1: seq<nat>, ids: seq<WorldId>, f: seq<Edge>, e: Edge)
    requires Mirrors(p0, rk0, ids, f) && MergedAt(p0, rk0, p1, rk1, ids, e)
    ensures Mirrors(p1, rk1, ids, f + [e])
  {
    forall x, y | x in ids && y in ids
      ensures Root(p1, rk1, IndexOf(ids, x)) == Root(p1, rk1, IndexOf(ids, y)) <==> Joined(f + [e], x, y)
    {
      if Root(p1, rk1, IndexOf(ids, x)) == Root(p1, rk1, IndexOf(ids, y)) {
        MergedJoins(p0, rk0, p1, rk1, ids, f, e, x, y);
      }
      if Joined(f + [e], x, y) {
        MergedClasses(p0, rk0, p1, rk1, ids, f, e, x, y);
      }
    }
  }

  /** Where every world is connected to the first, there is one class. */
  lemma OneClass(p: seq<nat>, rk: seq<nat>, ids: seq<WorldId>, f: seq<Edge>)
    requires Mirrors(p, rk, ids, f) && Distinct(ids) && |ids| > 0
    requires forall w :: w in ids ==> Joined(f, ids[0], w)
    ensures Roots(p, rk) == {Root(p, rk, 0)}
  {
    forall k | 0 <= k < |p|
      ensures Root(p, rk, k) == Root(p, rk, 0)
    {
      assert IndexOf(ids, ids[k]) == k && IndexOf(ids, ids[0]) == 0;
    }
  }

  /** One turn of the Kruskal loop: the edge is kept exactly when find reports two roots. */
  method KruskalStep(dsu: DisjointSetUnion, ids: seq<WorldId>, e: Edge, ghost f: seq<Edge>) returns (added: bool)
    requires dsu.Valid() && Distinct(ids) && e.a in ids && e.b in ids
    requires Mirrors(dsu.parent[..], dsu.rank[..], ids, f) && |f| + |dsu.Classes()| == |ids|
    modifies dsu.parent, dsu.rank
    ensures dsu.Valid()
    ensures added <==> !Joined(f, e.a, e.b)
    ensures var g := if added then f + [e] else f;
      Mirrors(dsu.parent[..], dsu.rank[..], ids, g) && |g| + |dsu.Classes()| == |ids|
  {
    var ia := IndexOf(ids, e.a);
    var ib := IndexOf(ids, e.b);
    ghost var p0 := dsu.parent[..];
    var ra := dsu.Find(ia);
    ghost var pm := dsu.parent[..];
    assert forall k :: 0 <= k < |p0| ==> dsu.Of(k) == Root(p0, dsu.rank[..], k);
    var rb := dsu.Find(ib);
    assert forall k :: 0 <= k < |p0| ==> dsu.Of(k) == Root(pm, dsu.rank[..], k);
    MirrorsKept(p0, dsu.parent[..], dsu.rank[..], ids, f);
    added := ra != rb;
    if added {
      Merge(dsu, ids, e, f);
    }
  }

  /** dsu.union on an edge whose endpoints are in different classes. */
  method Merge(dsu: DisjointSetUnion, ids: seq<WorldId>, e: Edge, ghost f: seq<Edge>)
    requires dsu.Valid() && e.a in ids && e.b in ids
    requires Mirrors(dsu.parent[..], dsu.rank[..], ids, f) && |f| + |dsu.Classes()| == |ids|
    requires dsu.Of(IndexOf(ids, e.a)) != dsu.Of(IndexOf(ids, e.b))
    modifies dsu.parent, dsu.rank
    ensures dsu.Valid()
    ensures Mirrors(dsu.parent[..], dsu.rank[..], ids, f + [e]) && |f + [e]| + |dsu.Classes()| == |ids|
  {
    ghost var p1, rk1 := dsu.parent[..], dsu.rank[..];
    var ia, ib := IndexOf(ids, e.a), IndexOf(ids, e.b);
    var _ := dsu.Union(ia, ib);
    ghost var ra, rb, r := Root(p1, rk1, ia), Root(p1, rk1, ib), dsu.Of(ia);
    forall k | 0 <= k < |p1|
      ensures dsu.Of(k) == if Root(p1, rk1, k) == ra || Root(p1, rk1, k) == rb then r else Root(p1, rk1, k)
    {
    }
    assert MergedAt(p1, rk1, dsu.parent[..], dsu.rank[..], ids, e);
    MirrorsMerged(p1, rk1, dsu.parent[..], dsu.rank[..], ids, f, e);
  }

  /** Kruskal's loop (lines 96-108): keeps exactly the spanning-forest edges, at most
      one fewer than the worlds, and exactly one fewer when the edges connect every world. */
  method Kruskal(ids: seq<WorldId>, edges: seq<Edge>) returns (mst: seq<Edge>)
    requires Distinct(ids) && Within(ids, edges)
    ensures mst == SpanningForest(edges)
    ensures |ids| > 0 ==> |mst| < |ids|
    ensures |ids| > 0 && (forall w :: w in ids ==> Joined(edges, ids[0], w)) ==> |mst| == |ids| - 1
  {
    var dsu := new DisjointSetUnion(|ids|);
    MirrorsStart(dsu.parent[..], dsu.rank[..], ids);
    mst := [];
    for k := 0 to |edges|
      invariant dsu.Valid() && mst == SpanningForest(edges[..k])
      invariant Mirrors(dsu.parent[..], dsu.rank[..], ids, mst) && |mst| + |dsu.Classes()| == |ids|
    {
      ForestNext(edges, k);
      var added := KruskalStep(dsu, ids, edges[k], mst);
      if added {
        mst := mst + [edges[k]];
      }
    }
    assert edges[..|edges|] == edges;
    if |ids| > 0 {
      assert Root(dsu.parent[..], dsu.rank[..], 0) in dsu.Classes();
      if forall w :: w in ids ==> Joined(edges, ids[0], w) {
        forall w | w in ids
          ensures Joined(mst, ids[0], w)
        {
          ForestConnects(edges, ids[0], w);
        }
        OneClass(dsu.parent[..], dsu.rank[..], ids, mst);
      }
    }
  }

  // ---------------------------------------------------------------------
  // Extra edges, up to degree 3.
  // ---------------------------------------------------------------------

  /** How many edge ends lie at w. */
  function Degree(es: seq<Edge>, w: WorldId): nat {
    if es == [] then 0
    else
      var e := es[|es| - 1];
      Degree(es[..|es| - 1], w) + (if e.a == w then 1 else 0) + (if e.b == w then 1 else 0)
  }

  lemma DegreeAppend(es: seq<Edge>, e: Edge, w: WorldId)
    ensures Degree(es + [e], w) == Degree(es, w) + (if e.a == w then 1 else 0) + (if e.b == w then 1 else 0)
  {
    assert (es + [e])[..|es|] == es;
  }

  /** The augmentation loop as a specification: an edge is added when both of its
      endpoints have degree below 3 in the edges chosen so far. */
  function Augmented(base: seq<Edge>, rest: seq<Edge>): seq<Edge>
    decreases |rest|
  {
    if rest == [] then base
    else
      var f := Augmented(base, rest[..|rest| - 1]);
      var e := rest[|rest| - 1];
      if Degree(f, e.a) < 3 && Degree(f, e.b) < 3 then f + [e] else f
  }

  /** The chosen edges start with the base and continue with some of the rest. */
  lemma {:induction false} AugmentedStarts(base: seq<Edge>, rest: seq<Edge>)
    ensures |base| <= |Augmented(base, rest)| && Augmented(base, rest)[..|base|] == base
    ensures forall i :: |base| <= i < |Augmented(base, rest)| ==> Augmented(base, rest)[i] in rest
  {
    if rest != [] {
      var p := rest[..|rest| - 1];
      AugmentedStarts(base, p);
      assert forall e :: e in p ==> e in rest;
    }
  }

  /** Every added edge found both of its endpoints below degree 3. */
  lemma {:induction false} AugmentedAdds(base: seq<Edge>, rest: seq<Edge>)
    ensures forall i :: |base| <= i < |Augmented(base, rest)| ==>
      Degree(Augmented(base, rest)[..i], Augmented(base, rest)[i].a) < 3 &&
      Degree(Augmented(base, rest)[..i], Augmented(base, rest)[i].b) < 3
  {
    if rest != [] {
      var f := Augmented(base, rest[..|rest| - 1]);
      AugmentedStarts(base, rest[..|rest| - 1]);
      AugmentedAdds(base, rest[..|rest| - 1]);
      var a := Augmented(base, rest);
      if a != f {
        forall i | |base| <= i < |f|
          ensures a[..i] == f[..i] && a[i] == f[i]
        {
        }
        assert a[..|f|] == f;
      }
    }
  }

  function Cap(d: nat): nat {
    if d > 3 then d else 3
  }

  /** Augmenting never takes a world above degree 3 unless the base already did. */
  lemma {:induction false} AugmentedDegree(base: seq<Edge>, rest: seq<Edge>, w: WorldId)
    requires forall i :: 0 <= i < |rest| ==> rest[i].a != rest[i].b
    ensures Degree(Augmented(base, rest), w) <= Cap(Degree(base, w))
  {
    if rest != [] {
      var p := rest[..|rest| - 1];
      var e := rest[|rest| - 1];
      AugmentedDegree(base, p, w);
      DegreeAppend(Augmented(base, p), e, w);
    }
  }

  /** No unordered pair is chosen twice when the base and the rest repeat none and share none. */
  lemma {:induction false} AugmentedKeys(base: seq<Edge>, rest: seq<Edge>)
    requires UniqueKeys(base) && UniqueKeys(rest)
    requires forall i, j :: 0 <= i < |base| && 0 <= j < |rest| ==> Key(base[i]) != Key(rest[j])
    ensures UniqueKeys(Augmented(base, rest))
  {
    if rest != [] {
      var p := rest[..|rest| - 1];
      var e := rest[|rest| - 1];
      var f := Augmented(base, p);
      AugmentedKeys(base, p);
      AugmentedStarts(base, p);
      forall i | 0 <= i < |f|
        ensures Key(f[i]) != Key(e)
      {
        if i < |base| {
          assert f[i] == f[..|base|][i];
        } else {
          var j :| 0 <= j < |p| && p[j] == f[i];
          assert p[j] == rest[j];
        }
      }
      if Augmented(base, rest) != f {
        UniqueAppend(f, e);
      }
    }
  }

  /** tuple(sorted(...)) of every edge. */
  function KeysOf(es: seq<Edge>): set<(WorldId, WorldId)> {
    set i | 0 <= i < |es| :: Key(es[i])
  }

  lemma KeysOfAppend(es: seq<Edge>, e: Edge)
    ensures KeysOf(es + [e]) == KeysOf(es) + {Key(e)}
  {
    var g := es + [e];
    forall k | k in KeysOf(g)
      ensures k in KeysOf(es) + {Key(e)}
    {
      var i :| 0 <= i < |g| && Key(g[i]) == k;
      if i < |es| {
        assert g[i] == es[i];
      }
    }
    forall k | k in KeysOf(es)
      ensures k in KeysOf(g)
    {
      var i :| 0 <= i < |es| && Key(es[i]) == k;
      assert g[i] == es[i];
    }
    assert g[|es|] == e;
  }

  /** The candidate edges whose pair is not among keys, in their order. */
  function Remaining(es: seq<Edge>, keys: set<(WorldId, WorldId)>): (r: seq<Edge>)
    ensures forall i :: 0 <= i < |r| ==> r[i] in es && Key(r[i]) !in keys
    ensures forall i :: 0 <= i < |es| && Key(es[i]) !in keys ==> es[i] in r
  {
    if es == [] then []
    else
      var p := es[..|es| - 1];
      var r := Remaining(p, keys);
      assert forall i :: 0 <= i < |p| ==> p[i] == es[i];
      if Key(es[|es| - 1]) in keys then r else r + [es[|es| - 1]]
  }

  lemma {:induction false} RemainingUnique(es: seq<Edge>, keys: set<(WorldId, WorldId)>)
    requires UniqueKeys(es)
    ensures UniqueKeys(Remaining(es, keys))
  {
    if es != [] {
      var p := es[..|es| - 1];
      RemainingUnique(p, keys);
      var r := Remaining(p, keys);
      forall i | 0 <= i < |r|
        ensures Key(r[i]) != Key(es[|es| - 1])
      {
        var j :| 0 <= j < |p| && p[j] == r[i];
        assert p[j] == es[j];
      }
      if Key(es[|es| - 1]) !in keys {
        UniqueAppend(r, es[|es| - 1]);
      }
    }
  }

  /** The lanes generated from the sorted candidate edges: the spanning forest,
      then the remaining candidates that pass the degree test. */
  ghost function FinalEdges(edges: seq<Edge>): seq<Edge> {
    var f := SpanningForest(edges);
    Augmented(f, Remaining(edges, KeysOf(f)))
  }

  /** The final edges start with the whole spanning forest, then candidates outside it. */
  lemma FinalStarts(edges: seq<Edge>)
    ensures var f := SpanningForest(edges); var fin := FinalEdges(edges);
      |f| <= |fin| && fin[..|f|] == f &&
      forall i :: |f| <= i < |fin| ==> fin[i] in edges && Key(fin[i]) !in KeysOf(f)
  {
    var f := SpanningForest(edges);
    AugmentedStarts(f, Remaining(edges, KeysOf(f)));
  }

  /** No unordered pair of worlds is emitted twice when no candidate repeats one. */
  lemma FinalUnique(edges: seq<Edge>)
    requires UniqueKeys(edges)
    ensures UniqueKeys(FinalEdges(edges))
  {
    var f := SpanningForest(edges);
    var rest := Remaining(edges, KeysOf(f));
    ForestAcyclic(edges);
    AcyclicKeys(f);
    RemainingUnique(edges, KeysOf(f));
    AugmentedKeys(f, rest);
  }

  /** An extra edge only goes to worlds below degree 3 and never takes one past it. */
  lemma FinalDegree(edges: seq<Edge>, w: WorldId)
    requires forall i :: 0 <= i < |edges| ==> edges[i].a != edges[i].b
    ensures Degree(FinalEdges(edges), w) <= Cap(Degree(SpanningForest(edges), w))
  {
    var f := SpanningForest(edges);
    AugmentedDegree(f, Remaining(edges, KeysOf(f)), w);
  }

  /** node_degrees_current[w] of a defaultdict(int). */
  function Count(deg: map<WorldId, nat>, w: WorldId): nat {
    if w in deg then deg[w] else 0
  }

  function Bumped(deg: map<WorldId, nat>, e: Edge): (d: map<WorldId, nat>)
  {
    var d1 := deg[e.a := Count(deg, e.a) + 1];
    d1[e.b := Count(d1, e.b) + 1]
  }

  lemma BumpedCounts(deg: map<WorldId, nat>, es: seq<Edge>, e: Edge)
    requires forall w :: Count(deg, w) == Degree(es, w)
    ensures forall w :: Count(Bumped(deg, e), w) == Degree(es + [e], w)
  {
    forall w
      ensures Count(Bumped(deg, e), w) == Degree(es + [e], w)
    {
      DegreeAppend(es, e, w);
    }
  }

  /** Lines 112-132: count the spanning-forest degrees, then walk the remaining
      candidates in order and add each whose endpoints are both below degree 3. */
  method Augment(mst: seq<Edge>, rest: seq<Edge>) returns (final: seq<Edge>)
    ensures final == Augmented(mst, rest)
  {
    var deg: map<WorldId, nat> := map[];
    for i := 0 to |mst|
      invariant forall w :: Count(deg, w) == Degree(mst[..i], w)
    {
      BumpedCounts(deg, mst[..i], mst[i]);
      assert mst[..i + 1] == mst[..i] + [mst[i]];
      deg := Bumped(deg, mst[i]);
    }
    assert mst[..|mst|] == mst;
    final := mst;
    for i := 0 to |rest|
      invariant final == Augmented(mst, rest[..i])
      invariant forall w :: Count(deg, w) == Degree(final, w)
    {
      assert rest[..i + 1][..i] == rest[..i];
      var e := rest[i];
      if Count(deg, e.a) < 3 && Count(deg, e.b) < 3 {
        BumpedCounts(deg, final, e);
        final := final + [e];
        deg := Bumped(deg, e);
      }
    }
    assert rest[..|rest|] == rest;
  }

  // ---------------------------------------------------------------------
  // Lane records.
  // ---------------------------------------------------------------------

  /** A generated lane record; the rounded distance and hazard fields are not modelled. */
  datatype GenLane = GenLane(id: LaneId, source: WorldId, target: WorldId)

  function Digit(d: nat): char
    requires d < 10
  {
    ('0' as int + d) as char
  }

  /** str(n): the decimal digits of n. */
  function NatStr(n: nat): (s: string)
    ensures |s| >= 1 && (n >= 10 <==> |s| >= 2)
  {
    if n < 10 then [Digit(n)] else NatStr(n / 10) + [Digit(n % 10)]
  }

  lemma {:induction false} NatStrInjective(m: nat, n: nat)
    requires NatStr(m) == NatStr(n)
    ensures m == n
  {
    if m >= 10 && n >= 10 {
      var sm, sn := NatStr(m), NatStr(n);
      assert sm[|sm| - 1] == sn[|sn| - 1];
      assert sm[..|sm| - 1] == NatStr(m / 10) && sn[..|sn| - 1] == NatStr(n / 10);
      NatStrInjective(m / 10, n / 10);
    }
  }

  /** f"lane-gen-{idx}" */
  function LaneName(idx: nat): LaneId {
    "lane-gen-" + NatStr(idx)
  }

  /** Distinct positions give distinct lane ids. */
  lemma LaneNamesDistinct(i: nat, j: nat)
    requires i != j
    ensures LaneName(i) != LaneName(j)
  {
    if LaneName(i) == LaneName(j) {
      assert LaneName(i)[9..] == NatStr(i) && LaneName(j)[9..] == NatStr(j);
      NatStrInjective(i, j);
    }
  }

  /** Lines 137-145: lane idx joins the endpoints of final edge idx. */
  method Emit(final: seq<Edge>) returns (lanes: seq<GenLane>)
    ensures |lanes| == |final|
    ensures forall m :: 0 <= m < |lanes| ==> lanes[m] == GenLane(LaneName(m), final[m].a, final[m].b)
  {
    lanes := [];
    for idx := 0 to |final|
      invariant |lanes| == idx
      invariant forall m :: 0 <= m < idx ==> lanes[m] == GenLane(LaneName(m), final[m].a, final[m].b)
    {
      lanes := lanes + [GenLane(LaneName(idx), final[idx].a, final[idx].b)];
    }
  }

  /** generate_non_intersecting_lanes on the worlds in dictionary order and on the
      triangulation's candidate edges sorted by distance (None: the triangulation failed). */
  method GenerateLanes(ids: seq<WorldId>, sorted: Option<seq<Edge>>) returns (lanes: seq<GenLane>)
    requires Distinct(ids) && (sorted.Some? ==> Within(ids, sorted.value))
    ensures |ids| < 2 || sorted.None? ==> lanes == []
    ensures |ids| >= 2 && sorted.Some? ==>
      var fin := FinalEdges(sorted.value);
      |lanes| == |fin| && forall m :: 0 <= m < |lanes| ==> lanes[m] == GenLane(LaneName(m), fin[m].a, fin[m].b)
  {
    if |ids| < 2 || sorted.None? {
      return [];
    }
    var edges := sorted.value;
    var mst := Kruskal(ids, edges);
    var keys := set i | 0 <= i < |mst| :: Key(mst[i]);
    var rest := Remaining(edges, keys);
    var final := Augment(mst, rest);
    lanes := Emit(final);
  }
}
