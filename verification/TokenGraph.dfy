/** The stable directed multigraph below the token graph: node and edge slots with reused indices,
    and per node its outgoing edges, newest first. */
module TokenGraph {
  import opened Routing

  datatype Edge = Edge(source: nat, target: nat, pool: Pool)

  /** The cached view of an edge that the search loops read. */
  datatype Cached = Cached(target: nat, tokenIn: Token, tokenOut: Token, pool: Pool)

  datatype Digraph = Digraph(nodes: map<nat, Token>, edges: map<nat, Edge>, adj: map<nat, seq<nat>>)

  const EMPTY := Digraph(map[], map[], map[])

  function AddNode(g: Digraph, n: nat, t: Token): Digraph {
    g.(nodes := g.nodes[n := t], adj := g.adj[n := []])
  }

  function AddEdge(g: Digraph, e: nat, d: Edge): Digraph
    requires d.source in g.adj
  {
    g.(edges := g.edges[e := d], adj := g.adj[d.source := [e] + g.adj[d.source]])
  }

  function RemoveEdge(g: Digraph, e: nat): Digraph
    requires e in g.edges && g.edges[e].source in g.adj
  {
    var n := g.edges[e].source;
    g.(edges := g.edges - {e}, adj := g.adj[n := Without(g.adj[n], {e})])
  }

  /** Removing a node that no edge touches. */
  function RemoveNode(g: Digraph, n: nat): Digraph {
    g.(nodes := g.nodes - {n}, adj := g.adj - {n})
  }

  function Without(s: seq<nat>, gone: set<nat>): (r: seq<nat>)
    ensures forall e :: e in r <==> e in s && e !in gone
  {
    if s == [] then []
    else if s[0] in gone then Without(s[1..], gone)
    else [s[0]] + Without(s[1..], gone)
  }

  function DropPool(s: seq<Cached>, pool: Pool): seq<Cached> {
    if s == [] then []
    else if s[0].pool == pool then DropPool(s[1..], pool)
    else [s[0]] + DropPool(s[1..], pool)
  }

  function Lookup<K, V>(m: map<K, seq<V>>, k: K): seq<V> { if k in m then m[k] else [] }

  lemma {:induction false} WithoutDistinct(s: seq<nat>, gone: set<nat>)
    requires Distinct(s)
    ensures Distinct(Without(s, gone))
  {
    if s != [] { WithoutDistinct(s[1..], gone); }
  }

  lemma {:induction false} WithoutTwice(s: seq<nat>, a: set<nat>, b: set<nat>)
    ensures Without(Without(s, a), b) == Without(s, a + b)
  {
    if s != [] { WithoutTwice(s[1..], a, b); }
  }

  lemma {:induction false} WithoutNone(s: seq<nat>, a: set<nat>, b: set<nat>)
    requires forall e :: e in s ==> e !in b
    ensures Without(s, a + b) == Without(s, a)
  {
    if s != [] { WithoutNone(s[1..], a, b); }
  }

  lemma {:induction false} WithoutNothing(s: seq<nat>)
    ensures Without(s, {}) == s
  {
    if s != [] { WithoutNothing(s[1..]); }
  }

  lemma {:induction false} DropAbsent(s: seq<Cached>, pool: Pool)
    requires forall i :: 0 <= i < |s| ==> s[i].pool != pool
    ensures DropPool(s, pool) == s
  {
    if s != [] { DropAbsent(s[1..], pool); }
  }

  // ---- what each index says about the others ----

  ghost predicate NodesOk(nodes: map<nat, Token>, nodeMap: map<Token, nat>) {
    && (forall t :: t in nodeMap ==> nodeMap[t] in nodes && nodes[nodeMap[t]] == t)
    && (forall n :: n in nodes ==> nodes[n] in nodeMap && nodeMap[nodes[n]] == n)
  }

  ghost predicate EndsOk(nodes: map<nat, Token>, d: Edge) { d.source in nodes && d.target in nodes }

  ghost predicate ListOk(edges: map<nat, Edge>, n: nat, ids: seq<nat>) {
    Distinct(ids) && forall e :: e in ids <==> e in edges && edges[e].source == n
  }

  /** Every edge joins live nodes and stands once in the list of its source. */
  ghost predicate AdjacencyOk(g: Digraph) {
    && g.adj.Keys == g.nodes.Keys
    && (forall e :: e in g.edges ==> EndsOk(g.nodes, g.edges[e]))
    && (forall n :: n in g.adj ==> ListOk(g.edges, n, g.adj[n]))
  }

  ghost predicate IsEdge(g: Digraph, e: nat, h: Hop) {
    e in g.edges && EndsOk(g.nodes, g.edges[e]) && h == Hop(g.edges[e].pool, g.nodes[g.edges[e].source], g.nodes[g.edges[e].target])
  }

  /** The edges are in bijection with the hops `edgeOf` lists. */
  ghost predicate HopsOk(g: Digraph, edgeOf: map<Hop, nat>) {
    && (forall h :: h in edgeOf ==> IsEdge(g, edgeOf[h], h))
    && (forall e, h :: IsEdge(g, e, h) ==> h in edgeOf && edgeOf[h] == e)
  }

  /** The per-pool edge lists hold exactly the pool's edges. */
  ghost predicate EdgeMapOk(edges: map<nat, Edge>, edgeMap: map<Pool, seq<nat>>) {
    && (forall p :: p in edgeMap ==> Distinct(edgeMap[p]))
    && (forall p, e :: e in Lookup(edgeMap, p) <==> e in edges && edges[e].pool == p)
  }

  ghost predicate Shows(g: Digraph, e: nat, c: Cached) {
    && e in g.edges && EndsOk(g.nodes, g.edges[e])
    && c == Cached(g.edges[e].target, g.nodes[g.edges[e].source], g.nodes[g.edges[e].target], g.edges[e].pool)
  }

  ghost predicate Mirrors(g: Digraph, ids: seq<nat>, cache: seq<Cached>) {
    |ids| == |cache| && forall i :: 0 <= i < |ids| ==> Shows(g, ids[i], cache[i])
  }

  /** The cached list of each node is its adjacency, newest first, with live targets. */
  ghost predicate CacheOk(g: Digraph, outgoing: map<nat, seq<Cached>>) {
    && (forall n :: n in outgoing ==> n in g.adj)
    && (forall n :: n in g.adj ==> Mirrors(g, g.adj[n], Lookup(outgoing, n)))
  }

  // ---- adding a node ----

  lemma AddNodeKeepsAdjacency(g: Digraph, n: nat, t: Token)
    requires AdjacencyOk(g) && n !in g.nodes
    ensures AdjacencyOk(AddNode(g, n, t))
  {
  }

  lemma AddNodeKeepsHops(g: Digraph, edgeOf: map<Hop, nat>, n: nat, t: Token)
    requires AdjacencyOk(g) && HopsOk(g, edgeOf) && n !in g.nodes
    ensures HopsOk(AddNode(g, n, t), edgeOf)
  {
    hide ListOk;
    var g' := AddNode(g, n, t);
    assert forall e, h :: IsEdge(g', e, h) <==> IsEdge(g, e, h);
  }

  lemma AddNodeKeepsCache(g: Digraph, outgoing: map<nat, seq<Cached>>, n: nat, t: Token)
    requires AdjacencyOk(g) && CacheOk(g, outgoing) && n !in g.nodes
    ensures CacheOk(AddNode(g, n, t), outgoing)
  {
    hide AdjacencyOk, Mirrors;
    AdjKeys(g);
    var g' := AddNode(g, n, t);
    forall m | m in g'.adj ensures Mirrors(g', g'.adj[m], Lookup(outgoing, m)) {
      if m == n {
        MirrorsNothing(g');
      } else {
        MirrorsCarry(g, g', g.adj[m], Lookup(outgoing, m));
      }
    }
  }

  lemma MirrorsNothing(g: Digraph)
    ensures Mirrors(g, [], [])
  {
  }

  /** A list keeps mirroring while its edges and the nodes they join stay. */
  lemma MirrorsCarry(g: Digraph, g': Digraph, ids: seq<nat>, cache: seq<Cached>)
    requires Mirrors(g, ids, cache)
    requires forall e :: e in g.edges && EndsOk(g.nodes, g.edges[e]) && e in ids ==>
               e in g'.edges && g'.edges[e] == g.edges[e] && EndsOk(g'.nodes, g.edges[e])
               && g'.nodes[g.edges[e].source] == g.nodes[g.edges[e].source] && g'.nodes[g.edges[e].target] == g.nodes[g.edges[e].target]
    ensures Mirrors(g', ids, cache)
  {
    forall i | 0 <= i < |ids| ensures Shows(g', ids[i], cache[i]) {
      assert Shows(g, ids[i], cache[i]) && ids[i] in ids;
    }
  }

  lemma AdjKeys(g: Digraph)
    requires AdjacencyOk(g)
    ensures g.adj.Keys == g.nodes.Keys
  {
  }

  // ---- adding an edge ----

  lemma AddEdgeKeepsAdjacency(g: Digraph, e: nat, d: Edge)
    requires AdjacencyOk(g) && e !in g.edges && EndsOk(g.nodes, d)
    ensures AdjacencyOk(AddEdge(g, e, d))
  {
    var g' := AddEdge(g, e, d);
    forall n | n in g'.adj ensures ListOk(g'.edges, n, g'.adj[n]) {
      assert ListOk(g.edges, n, g.adj[n]);
    }
  }

  lemma AddEdgeKeepsHops(g: Digraph, edgeOf: map<Hop, nat>, e: nat, d: Edge, h: Hop)
    requires HopsOk(g, edgeOf) && e !in g.edges && EndsOk(g.nodes, d) && d.source in g.adj
    requires h == Hop(d.pool, g.nodes[d.source], g.nodes[d.target]) && h !in edgeOf
    ensures HopsOk(AddEdge(g, e, d), edgeOf[h := e])
  {
    var g' := AddEdge(g, e, d);
    assert forall f, k :: IsEdge(g', f, k) <==> IsEdge(g, f, k) || (f == e && k == h);
  }

  lemma AddEdgeKeepsCache(g: Digraph, outgoing: map<nat, seq<Cached>>, e: nat, d: Edge, c: Cached)
    requires AdjacencyOk(g) && CacheOk(g, outgoing) && e !in g.edges && EndsOk(g.nodes, d)
    requires c == Cached(d.target, g.nodes[d.source], g.nodes[d.target], d.pool)
    ensures CacheOk(AddEdge(g, e, d), outgoing[d.source := [c] + Lookup(outgoing, d.source)])
  {
    hide AdjacencyOk, Mirrors;
    AdjKeys(g);
    var g', out' := AddEdge(g, e, d), outgoing[d.source := [c] + Lookup(outgoing, d.source)];
    forall n | n in g'.adj ensures Mirrors(g', g'.adj[n], Lookup(out', n)) {
      MirrorsCarry(g, g', g.adj[n], Lookup(outgoing, n));
      if n == d.source { MirrorsCons(g', e, g.adj[n], c, Lookup(outgoing, n)); }
    }
  }

  lemma MirrorsCons(g: Digraph, e: nat, ids: seq<nat>, c: Cached, cache: seq<Cached>)
    requires Mirrors(g, ids, cache) && Shows(g, e, c)
    ensures Mirrors(g, [e] + ids, [c] + cache)
  {
    hide Shows;
  }

  lemma MirrorsTail(g: Digraph, ids: seq<nat>, cache: seq<Cached>)
    requires Mirrors(g, ids, cache) && ids != []
    ensures cache != [] && Shows(g, ids[0], cache[0]) && Mirrors(g, ids[1..], cache[1..])
  {
    hide Shows;
  }

  lemma AddEdgeKeepsEdgeMap(edges: map<nat, Edge>, edgeMap: map<Pool, seq<nat>>, e: nat, d: Edge)
    requires EdgeMapOk(edges, edgeMap) && e !in edges
    ensures EdgeMapOk(edges[e := d], edgeMap[d.pool := Lookup(edgeMap, d.pool) + [e]])
  {
    var m := edgeMap[d.pool := Lookup(edgeMap, d.pool) + [e]];
    assert e !in Lookup(edgeMap, d.pool);
    forall p, f ensures f in Lookup(m, p) <==> f in edges[e := d] && edges[e := d][f].pool == p {
      assert f in Lookup(edgeMap, p) <==> f in edges && edges[f].pool == p;
    }
  }

  // ---- removing a pool's edges ----

  /** The graph with the edges of `gone` deleted. */
  function Pruned(g: Digraph, gone: set<nat>): Digraph {
    Digraph(g.nodes, g.edges - gone, map n | n in g.adj :: Without(g.adj[n], gone))
  }

  lemma PrunedNothing(g: Digraph)
    ensures Pruned(g, {}) == g
  {
    forall n | n in g.adj ensures Without(g.adj[n], {}) == g.adj[n] { WithoutNothing(g.adj[n]); }
    assert Pruned(g, {}).adj == g.adj;
  }

  lemma PrunedStep(g: Digraph, gone: set<nat>, e: nat)
    requires AdjacencyOk(g) && e in g.edges && e !in gone
    ensures RemoveEdge(Pruned(g, gone), e) == Pruned(g, gone + {e})
  {
    hide AdjacencyOk, ListOk, Without;
    SourceLive(g, e);
    var a, b := RemoveEdge(Pruned(g, gone), e), Pruned(g, gone + {e});
    assert a.edges == b.edges;
    forall n | n in g.adj ensures a.adj[n] == b.adj[n] {
      PrunedListStep(g, gone, e, n);
    }
    assert a.adj == b.adj;
  }

  lemma SourceLive(g: Digraph, e: nat)
    requires AdjacencyOk(g) && e in g.edges
    ensures g.edges[e].source in g.adj && EndsOk(g.nodes, g.edges[e])
  {
  }

  lemma PrunedListStep(g: Digraph, gone: set<nat>, e: nat, n: nat)
    requires AdjacencyOk(g) && e in g.edges && n in g.adj
    ensures Without(g.adj[n], gone + {e}) == if n == g.edges[e].source then Without(Without(g.adj[n], gone), {e}) else Without(g.adj[n], gone)
  {
    assert ListOk(g.edges, n, g.adj[n]);
    if n == g.edges[e].source {
      WithoutTwice(g.adj[n], gone, {e});
    } else {
      WithoutNone(g.adj[n], gone, {e});
    }
  }

  ghost predicate PoolEdges(edges: map<nat, Edge>, pool: Pool, gone: set<nat>) {
    forall e :: e in gone <==> e in edges && edges[e].pool == pool
  }

  /** Deleting exactly one pool's edges leaves the other hops in bijection with the rest. */
  lemma PrunedKeepsHops(g: Digraph, edgeOf: map<Hop, nat>, gone: set<nat>, pool: Pool)
    requires HopsOk(g, edgeOf) && PoolEdges(g.edges, pool, gone)
    ensures HopsOk(Pruned(g, gone), map h | h in edgeOf && h.pool != pool :: edgeOf[h])
  {
    var g' := Pruned(g, gone);
    assert forall e, h :: IsEdge(g', e, h) <==> IsEdge(g, e, h) && h.pool != pool;
  }

  lemma PrunedKeepsAdjacency(g: Digraph, gone: set<nat>)
    requires AdjacencyOk(g)
    ensures AdjacencyOk(Pruned(g, gone))
  {
    var g' := Pruned(g, gone);
    forall n | n in g'.adj ensures ListOk(g'.edges, n, g'.adj[n]) {
      assert ListOk(g.edges, n, g.adj[n]);
      WithoutDistinct(g.adj[n], gone);
    }
  }

  lemma {:induction false} DropMirrors(g: Digraph, ids: seq<nat>, cache: seq<Cached>, gone: set<nat>, pool: Pool)
    requires Mirrors(g, ids, cache)
    requires PoolEdges(g.edges, pool, gone)
    ensures Mirrors(Pruned(g, gone), Without(ids, gone), DropPool(cache, pool))
  {
    if ids == [] {
      LengthsAgree(g, ids, cache);
    } else {
      hide Mirrors;
      MirrorsTail(g, ids, cache);
      DropMirrors(g, ids[1..], cache[1..], gone, pool);
      if ids[0] !in gone { MirrorsCons(Pruned(g, gone), ids[0], Without(ids[1..], gone), cache[0], DropPool(cache[1..], pool)); }
    }
  }

  lemma LengthsAgree(g: Digraph, ids: seq<nat>, cache: seq<Cached>)
    requires Mirrors(g, ids, cache)
    ensures |ids| == |cache|
  {
  }

  /** Filtering the lists of the pool's own nodes is enough: no other list mentions the pool. */
  lemma PrunedKeepsCache(g: Digraph, outgoing: map<nat, seq<Cached>>, outgoing': map<nat, seq<Cached>>, gone: set<nat>, pool: Pool, touched: set<nat>)
    requires AdjacencyOk(g) && CacheOk(g, outgoing) && outgoing'.Keys == outgoing.Keys
    requires PoolEdges(g.edges, pool, gone)
    requires forall e :: e in g.edges && g.edges[e].pool == pool ==> g.edges[e].source in touched
    requires forall n :: n in outgoing ==> outgoing'[n] == if n in touched then DropPool(outgoing[n], pool) else outgoing[n]
    ensures CacheOk(Pruned(g, gone), outgoing')
  {
    var g' := Pruned(g, gone);
    forall n | n in g'.adj ensures Mirrors(g', g'.adj[n], Lookup(outgoing', n)) {
      assert Mirrors(g, g.adj[n], Lookup(outgoing, n));
      assert ListOk(g.edges, n, g.adj[n]);
      DropMirrors(g, g.adj[n], Lookup(outgoing, n), gone, pool);
      if n !in touched {
        forall i | 0 <= i < |Lookup(outgoing, n)| ensures Lookup(outgoing, n)[i].pool != pool {
          assert Shows(g, g.adj[n][i], Lookup(outgoing, n)[i]) && g.adj[n][i] in g.adj[n];
        }
        DropAbsent(Lookup(outgoing, n), pool);
      }
    }
  }

  // ---- removing an untouched node ----

  ghost predicate Untouched(g: Digraph, n: nat) {
    forall e :: e in g.edges ==> g.edges[e].source != n && g.edges[e].target != n
  }

  lemma RemoveNodeKeepsAdjacency(g: Digraph, n: nat)
    requires AdjacencyOk(g) && Untouched(g, n)
    ensures AdjacencyOk(RemoveNode(g, n))
  {
  }

  lemma RemoveNodeKeepsHops(g: Digraph, edgeOf: map<Hop, nat>, n: nat)
    requires HopsOk(g, edgeOf) && Untouched(g, n)
    ensures HopsOk(RemoveNode(g, n), edgeOf)
  {
    var g' := RemoveNode(g, n);
    assert forall e, h :: IsEdge(g', e, h) <==> IsEdge(g, e, h);
  }

  lemma RemoveNodeKeepsCache(g: Digraph, outgoing: map<nat, seq<Cached>>, n: nat)
    requires CacheOk(g, outgoing) && Untouched(g, n)
    ensures CacheOk(RemoveNode(g, n), outgoing - {n})
  {
    hide Mirrors;
    var g' := RemoveNode(g, n);
    forall m | m in g'.adj ensures Mirrors(g', g'.adj[m], Lookup(outgoing - {n}, m)) {
      MirrorsCarry(g, g', g.adj[m], Lookup(outgoing, m));
    }
  }

  lemma FreshIndex(used: set<nat>)
    ensures exists n: nat :: n !in used
  {
    var bound := Bound(used);
    assert bound !in used;
  }
}
