/** The token graph with its indexes, edited pool by pool. */
module AmmGraphs {
  import opened Routing
  import opened PoolTokens
  import opened TokenGraph

  datatype Mutation =
    | Unchanged
    | Added(directed: nat)
    | Updated(removed: nat, added: nat)
    | Removed(directed: nat)
    | Skipped(reason: SkipReason)

  // ---- the graph a pool table stands for ----

  /** A hop is in the graph exactly when its pool holds both of its distinct tokens. */
  predicate Joins(poolTokens: map<Pool, seq<Token>>, h: Hop) {
    && h.pool in poolTokens && h.tokenIn != h.tokenOut
    && h.tokenIn in poolTokens[h.pool] && h.tokenOut in poolTokens[h.pool]
  }

  ghost predicate CliquesOk(edgeOf: map<Hop, nat>, poolTokens: map<Pool, seq<Token>>) {
    forall h :: h in edgeOf <==> Joins(poolTokens, h)
  }

  function DirectedEdges(n: nat): nat { if n == 0 then 0 else n * (n - 1) }

  ghost predicate CountsOk(edgeMap: map<Pool, seq<nat>>, poolTokens: map<Pool, seq<Token>>) {
    && edgeMap.Keys == poolTokens.Keys
    && forall p :: p in edgeMap ==> |edgeMap[p]| == DirectedEdges(|poolTokens[p]|)
  }

  predicate IsPair(tokens: seq<Token>, pair: (Token, Token)) {
    pair.0 in tokens && pair.1 in tokens && pair.0.id < pair.1.id
  }

  predicate Backs(pairPools: map<(Token, Token), set<Pool>>, pair: (Token, Token), p: Pool) {
    pair in pairPools && p in pairPools[pair]
  }

  /** The pair index lists exactly the pools that hold both tokens, and no empty entries. */
  ghost predicate PairsOk(pairPools: map<(Token, Token), set<Pool>>, poolTokens: map<Pool, seq<Token>>) {
    && (forall pair :: pair in pairPools ==> pairPools[pair] != {})
    && (forall pair, p :: Backs(pairPools, pair, p) <==> p in poolTokens && IsPair(poolTokens[p], pair))
  }

  ghost predicate Used(poolTokens: map<Pool, seq<Token>>, t: Token) {
    exists p :: p in poolTokens && t in poolTokens[p]
  }

  /** Some other member of a list with at least two distinct entries. */
  lemma HasOther(tokens: seq<Token>, t: Token) returns (u: Token)
    requires Sorted(tokens) && |tokens| >= 2
    ensures u in tokens && u != t
  {
    u := if tokens[0] == t then tokens[1] else tokens[0];
  }

  /** A node is edge-free exactly when no pool holds its token. */
  lemma UntouchedIffUnused(g: Digraph, nodeMap: map<Token, nat>, edgeOf: map<Hop, nat>, poolTokens: map<Pool, seq<Token>>, t: Token)
    requires NodesOk(g.nodes, nodeMap) && AdjacencyOk(g) && HopsOk(g, edgeOf) && CliquesOk(edgeOf, poolTokens) && TokensOk(poolTokens)
    requires t in nodeMap
    ensures Untouched(g, nodeMap[t]) <==> !Used(poolTokens, t)
  {
    hide ListOk, Sorted;
    if p :| p in poolTokens && t in poolTokens[p] {
      var u := HasOther(poolTokens[p], t);
      assert Joins(poolTokens, Hop(p, t, u));
      assert IsEdge(g, edgeOf[Hop(p, t, u)], Hop(p, t, u));
    }
    if e :| e in g.edges && (g.edges[e].source == nodeMap[t] || g.edges[e].target == nodeMap[t]) {
      assert EndsOk(g.nodes, g.edges[e]);
      var h := Hop(g.edges[e].pool, g.nodes[g.edges[e].source], g.nodes[g.edges[e].target]);
      assert IsEdge(g, e, h) && Joins(poolTokens, h);
    }
  }

  class AmmGraph {
    var graph: Digraph
    var nodeMap: map<Token, nat>
    var edgeMap: map<Pool, seq<nat>>
    var poolTokens: map<Pool, seq<Token>>
    var pairPools: map<(Token, Token), set<Pool>>
    var outgoing: map<nat, seq<Cached>>
    var version: nat
    ghost var edgeOf: map<Hop, nat>

    /** Nodes, edges, adjacency, cached lists and per-pool edge lists describe one multigraph. */
    ghost predicate Linked()
      reads this`graph, this`nodeMap, this`edgeMap, this`outgoing, this`edgeOf
    {
      NodesOk(graph.nodes, nodeMap) && AdjacencyOk(graph) && HopsOk(graph, edgeOf) && CacheOk(graph, outgoing) && EdgeMapOk(graph.edges, edgeMap)
    }

    ghost predicate Valid()
      reads this`graph, this`nodeMap, this`edgeMap, this`outgoing, this`edgeOf, this`poolTokens, this`pairPools
    {
      Linked() && TokensOk(poolTokens) && CliquesOk(edgeOf, poolTokens) && CountsOk(edgeMap, poolTokens) && PairsOk(pairPools, poolTokens)
    }

    /** No node without a pool. */
    ghost predicate Compact()
      reads this`nodeMap, this`poolTokens
    {
      forall t :: t in nodeMap ==> Used(poolTokens, t)
    }

    constructor ()
      ensures Valid() && Compact() && poolTokens == map[] && nodeMap == map[] && version == 0
    {
      graph, nodeMap, edgeMap, poolTokens, pairPools, outgoing := EMPTY, map[], map[], map[], map[], map[];
      version, edgeOf := 0, map[];
    }

    method GetOrCreateNode(token: Token) returns (node: nat)
      requires Linked()
      modifies this`graph, this`nodeMap
      ensures Linked() && token in nodeMap && node == nodeMap[token]
      ensures nodeMap.Keys == old(nodeMap).Keys + {token}
      ensures forall t :: t in old(nodeMap) ==> nodeMap[t] == old(nodeMap)[t]
    {
      hide AdjacencyOk, HopsOk, CacheOk, EdgeMapOk, AddNode;
      if token in nodeMap { return nodeMap[token]; }
      FreshIndex(graph.nodes.Keys);
      node :| node !in graph.nodes.Keys;
      AddNodeKeepsAdjacency(graph, node, token);
      AddNodeKeepsHops(graph, edgeOf, node, token);
      AddNodeKeepsCache(graph, outgoing, node, token);
      AddNodeKeepsRest(graph, nodeMap, node, token);
      graph, nodeMap := AddNode(graph, node, token), nodeMap[token := node];
    }

    /** One directed edge: into the graph, in front of the cached list, behind the pool's list. */
    method AddDirectedEdge(pool: Pool, tokenIn: Token, tokenOut: Token)
      requires Linked() && tokenIn in nodeMap && tokenOut in nodeMap && Hop(pool, tokenIn, tokenOut) !in edgeOf
      modifies this`graph, this`outgoing, this`edgeMap, this`edgeOf
      ensures Linked() && edgeOf.Keys == old(edgeOf).Keys + {Hop(pool, tokenIn, tokenOut)}
      ensures pool in edgeMap && |edgeMap[pool]| == |Lookup(old(edgeMap), pool)| + 1
      ensures edgeMap == old(edgeMap)[pool := edgeMap[pool]]
    {
      hide AdjacencyOk, HopsOk, CacheOk, EdgeMapOk;
      var from, to := nodeMap[tokenIn], nodeMap[tokenOut];
      FreshIndex(graph.edges.Keys);
      var e :| e !in graph.edges.Keys;
      var d := Edge(from, to, pool);
      var c := Cached(to, tokenIn, tokenOut, pool);
      AdjKeys(graph);
      AddEdgeKeepsAdjacency(graph, e, d);
      AddEdgeKeepsHops(graph, edgeOf, e, d, Hop(pool, tokenIn, tokenOut));
      AddEdgeKeepsCache(graph, outgoing, e, d, c);
      AddEdgeKeepsEdgeMap(graph.edges, edgeMap, e, d);
      graph := AddEdge(graph, e, d);
      outgoing := outgoing[from := [c] + Lookup(outgoing, from)];
      edgeMap := edgeMap[pool := Lookup(edgeMap, pool) + [e]];
      edgeOf := edgeOf[Hop(pool, tokenIn, tokenOut) := e];
    }

    /** All edges of `pool` that leave its `i`-th token. */
    method AddRow(pool: Pool, tokens: seq<Token>, i: nat)
      requires Linked() && i < |tokens| && Distinct(tokens)
      requires forall t :: t in tokens ==> t in nodeMap
      requires forall h :: h in edgeOf && h.pool == pool ==> h.tokenIn in tokens[..i]
      modifies this`graph, this`outgoing, this`edgeMap, this`edgeOf
      ensures Linked()
      ensures forall h :: h in edgeOf <==> h in old(edgeOf) || InRow(pool, tokens, i, |tokens|, h)
      ensures |Lookup(edgeMap, pool)| == |Lookup(old(edgeMap), pool)| + |tokens| - 1
      ensures |tokens| >= 2 ==> pool in edgeMap
      ensures forall p :: p != pool ==> (p in edgeMap <==> p in old(edgeMap)) && Lookup(edgeMap, p) == Lookup(old(edgeMap), p)
    {
      hide Linked;
      for j := 0 to |tokens|
        invariant Linked()
        invariant forall h :: h in edgeOf <==> h in old(edgeOf) || InRow(pool, tokens, i, j, h)
        invariant |Lookup(edgeMap, pool)| == |Lookup(old(edgeMap), pool)| + (if j <= i then j else j - 1)
        invariant j >= 1 && !(j == 1 && i == 0) ==> pool in edgeMap
        invariant forall p :: p != pool ==> (p in edgeMap <==> p in old(edgeMap)) && Lookup(edgeMap, p) == Lookup(old(edgeMap), p)
      {
        RowGrows(pool, tokens, i, j);
        if i != j {
          AddDirectedEdge(pool, tokens[i], tokens[j]);
        }
      }
    }

    method CreateNodes(tokens: seq<Token>)
      requires Linked()
      modifies this`graph, this`nodeMap
      ensures Linked() && nodeMap.Keys == old(nodeMap).Keys + (set t | t in tokens)
    {
      hide Linked;
      for k := 0 to |tokens|
        invariant Linked() && nodeMap.Keys == old(nodeMap).Keys + (set t | t in tokens[..k])
      {
        var _ := GetOrCreateNode(tokens[k]);
        assert tokens[..k + 1] == tokens[..k] + [tokens[k]];
      }
      assert tokens[..|tokens|] == tokens;
    }

    /** The nested loops: an edge for every ordered pair of positions. */
    method AddClique(pool: Pool, tokens: seq<Token>)
      requires Linked() && Distinct(tokens) && |tokens| >= 2 && pool !in edgeMap
      requires forall t :: t in tokens ==> t in nodeMap
      requires forall h :: h in edgeOf ==> h.pool != pool
      modifies this`graph, this`outgoing, this`edgeMap, this`edgeOf
      ensures Linked()
      ensures forall h :: h in edgeOf <==> h in old(edgeOf) || InRows(pool, tokens, |tokens|, h)
      ensures pool in edgeMap && |edgeMap[pool]| == DirectedEdges(|tokens|) && edgeMap == old(edgeMap)[pool := edgeMap[pool]]
    {
      hide Linked, Distinct;
      for i := 0 to |tokens|
        invariant Linked()
        invariant forall h :: h in edgeOf <==> h in old(edgeOf) || InRows(pool, tokens, i, h)
        invariant |Lookup(edgeMap, pool)| == i * (|tokens| - 1) && (i > 0 ==> pool in edgeMap)
        invariant forall p :: p != pool ==> (p in edgeMap <==> p in old(edgeMap)) && Lookup(edgeMap, p) == Lookup(old(edgeMap), p)
      {
        AddRow(pool, tokens, i);
        RowsGrow(pool, tokens, i);
      }
    }

    method AddPoolEdges(pool: Pool, tokens: seq<Token>)
      requires Valid() && pool !in poolTokens && Sorted(tokens) && |tokens| >= 2
      modifies this`graph, this`nodeMap, this`outgoing, this`edgeMap, this`edgeOf, this`pairPools, this`poolTokens
      ensures Valid() && poolTokens == old(poolTokens)[pool := tokens]
      ensures nodeMap.Keys == old(nodeMap).Keys + (set t | t in tokens)
    {
      hide Linked, PairsOk, Sorted, CliquesOk, InRows, Distinct, TokensOk;
      SortedDistinct(tokens);
      PoolIsNew(edgeOf, edgeMap, poolTokens, pool);
      CreateNodes(tokens);
      AddClique(pool, tokens);
      AddPoolPairs(pool, tokens);
      NewCliques(old(edgeOf), edgeOf, poolTokens, pool, tokens);
      TokensAdded(poolTokens, pool, tokens);
      poolTokens := poolTokens[pool := tokens];
    }

    method AddPoolPairs(pool: Pool, tokens: seq<Token>)
      requires PairsOk(pairPools, poolTokens) && pool !in poolTokens && Sorted(tokens)
      modifies this`pairPools
      ensures PairsOk(pairPools, poolTokens[pool := tokens])
    {
      hide PairsOk;
      PairsStart(pairPools, poolTokens, pool);
      for i := 0 to |tokens|
        invariant PairsUpTo(pairPools, old(pairPools), pool, tokens, i, i + 1)
      {
        for j := i + 1 to |tokens|
          invariant PairsUpTo(pairPools, old(pairPools), pool, tokens, i, j)
        {
          var pair := (tokens[i], tokens[j]);
          PairsStep(pairPools, old(pairPools), pool, tokens, i, j);
          pairPools := pairPools[pair := (if pair in pairPools then pairPools[pair] else {}) + {pool}];
        }
        PairsNextRow(pairPools, old(pairPools), pool, tokens, i);
      }
      PairsDone(pairPools, old(pairPools), poolTokens, pool, tokens);
    }

    method RemovePoolPairs(pool: Pool, tokens: seq<Token>, ghost before: map<Pool, seq<Token>>)
      requires PairsOk(pairPools, before) && TokensOk(before) && tokens == Lookup(before, pool)
      modifies this`pairPools
      ensures PairsOk(pairPools, before - {pool})
    {
      hide UnpairedUpTo, NoEmptyPairs, PairsOk, TokensOk;
      PairsNotEmpty(pairPools, before);
      UnpairedStart(pairPools, pool, tokens);
      for i := 0 to |tokens|
        invariant UnpairedUpTo(pairPools, old(pairPools), pool, tokens, i, i + 1)
      {
        for j := i + 1 to |tokens|
          invariant UnpairedUpTo(pairPools, old(pairPools), pool, tokens, i, j)
        {
          UnpairedStep(pairPools, old(pairPools), pool, tokens, i, j);
          pairPools := Unpair(pairPools, (tokens[i], tokens[j]), pool);
        }
        UnpairedNextRow(pairPools, old(pairPools), pool, tokens, i);
      }
      UnpairedDone(pairPools, old(pairPools), before, pool, tokens);
    }

    method DeleteEdges(edges: seq<nat>)
      requires AdjacencyOk(graph) && Distinct(edges) && forall e :: e in edges ==> e in graph.edges
      modifies this`graph
      ensures graph == Pruned(old(graph), Elements(edges))
    {
      hide AdjacencyOk, Pruned, RemoveEdge;
      PrunedNothing(graph);
      assert Elements(edges[..0]) == {};
      for k := 0 to |edges|
        invariant graph == Pruned(old(graph), Elements(edges[..k]))
      {
        ghost var gone := Elements(edges[..k]);
        assert edges[..k + 1] == edges[..k] + [edges[k]];
        assert Elements(edges[..k + 1]) == gone + {edges[k]};
        PrunedStep(old(graph), gone, edges[k]);
        PrunedHas(old(graph), gone, edges[k]);
        graph := RemoveEdge(graph, edges[k]);
      }
      assert edges[..|edges|] == edges;
    }

    /** Filter the cached lists of the given tokens' nodes. */
    method DropCached(pool: Pool, tokens: seq<Token>)
      modifies this`outgoing
      ensures outgoing.Keys == old(outgoing).Keys
      ensures forall n :: n in outgoing ==> outgoing[n] == if n in NodesOf(nodeMap, tokens) then DropPool(old(outgoing)[n], pool) else old(outgoing)[n]
    {
      hide DropPool;
      for k := 0 to |tokens|
        invariant outgoing.Keys == old(outgoing).Keys
        invariant forall n :: n in outgoing ==> outgoing[n] == if n in NodesOf(nodeMap, tokens[..k]) then DropPool(old(outgoing)[n], pool) else old(outgoing)[n]
      {
        NodesOfGrows(nodeMap, tokens, k);
        forall n | n in outgoing ensures DropPool(DropPool(old(outgoing)[n], pool), pool) == DropPool(old(outgoing)[n], pool) {
          DropTwice(old(outgoing)[n], pool);
        }
        if tokens[k] in nodeMap && nodeMap[tokens[k]] in outgoing {
          var node := nodeMap[tokens[k]];
          outgoing := outgoing[node := DropPool(outgoing[node], pool)];
        }
      }
      assert tokens[..|tokens|] == tokens;
    }

    /** Remove every edge of `pool`; nodes stay. */
    method RemovePoolEdges(pool: Pool) returns (removed: nat, tokens: seq<Token>)
      requires Valid()
      modifies this`graph, this`outgoing, this`edgeMap, this`edgeOf, this`pairPools, this`poolTokens
      ensures Valid() && poolTokens == old(poolTokens) - {pool}
      ensures tokens == Lookup(old(poolTokens), pool) && removed == DirectedEdges(|tokens|)
    {
      hide Linked, PairsOk, CliquesOk, TokensOk, CountsOk;
      tokens := Lookup(poolTokens, pool);
      ghost var before := poolTokens;
      CountsRemoved(edgeMap, before, pool);
      TokensRemoved(before, pool);
      poolTokens := poolTokens - {pool};
      RemovePoolPairs(pool, tokens, before);
      if pool !in edgeMap {
        assert poolTokens == before;
        return 0, tokens;
      }
      removed := UnlinkPool(pool, tokens, before);
    }

    /** Delete the pool's edges from the graph, the cached lists and the edge list. */
    method UnlinkPool(pool: Pool, tokens: seq<Token>, ghost before: map<Pool, seq<Token>>) returns (removed: nat)
      requires Linked() && CliquesOk(edgeOf, before) && pool in edgeMap && tokens == Lookup(before, pool)
      modifies this`graph, this`outgoing, this`edgeMap, this`edgeOf
      ensures Linked() && CliquesOk(edgeOf, before - {pool}) && edgeMap == old(edgeMap) - {pool} && removed == |old(edgeMap)[pool]|
    {
      hide AdjacencyOk, HopsOk, CacheOk, EdgeMapOk, Pruned, CliquesOk, NodesOk, PoolEdges, NodesOf, Distinct, HopsWithout;
      var edges := edgeMap[pool];
      removed := |edges|;
      ghost var gone := Elements(edges);
      RemovalKeeps(graph, nodeMap, edgeOf, edgeMap, before, pool);
      DeleteEdges(edges);
      DropCached(pool, tokens);
      PrunedKeepsCache(old(graph), old(outgoing), outgoing, gone, pool, NodesOf(nodeMap, tokens));
      edgeMap, edgeOf := edgeMap - {pool}, HopsWithout(edgeOf, pool);
    }

    /** Drop the nodes among `tokens` that no edge touches any more. */
    method PruneOrphanTokens(tokens: seq<Token>)
      requires Valid()
      modifies this`graph, this`nodeMap, this`outgoing
      ensures Valid()
      ensures forall t :: t in nodeMap <==> t in old(nodeMap) && (t in tokens ==> Used(poolTokens, t))
    {
      hide Valid, Used;
      for k := 0 to |tokens|
        invariant Valid()
        invariant forall t :: t in nodeMap <==> t in old(nodeMap) && (t in tokens[..k] ==> Used(poolTokens, t))
      {
        assert tokens[..k + 1] == tokens[..k] + [tokens[k]];
        PruneToken(tokens[k]);
      }
      assert tokens[..|tokens|] == tokens;
    }

    method PruneToken(token: Token)
      requires Valid()
      modifies this`graph, this`nodeMap, this`outgoing
      ensures Valid()
      ensures nodeMap.Keys == if Used(poolTokens, token) then old(nodeMap).Keys else old(nodeMap).Keys - {token}
    {
      hide NodesOk, AdjacencyOk, HopsOk, CacheOk, EdgeMapOk, CliquesOk, CountsOk, PairsOk, TokensOk, Used;
      if token !in nodeMap {
        return;
      }
      var node := nodeMap[token];
      var hasEdges := exists e :: e in graph.edges && (graph.edges[e].source == node || graph.edges[e].target == node);
      UntouchedIffUnused(graph, nodeMap, edgeOf, poolTokens, token);
      if !hasEdges {
        RemoveNodeKeepsAdjacency(graph, node);
        RemoveNodeKeepsHops(graph, edgeOf, node);
        RemoveNodeKeepsCache(graph, outgoing, node);
        RemoveNodeKeepsNodes(graph, nodeMap, token);
        graph, outgoing, nodeMap := RemoveNode(graph, node), outgoing - {node}, nodeMap - {token};
      }
    }

    /** Remove a pool but leave its tokens as nodes. */
    method RemovePool(pool: Pool) returns (removed: nat)
      requires Valid()
      modifies this
      ensures Valid() && poolTokens == old(poolTokens) - {pool} && nodeMap == old(nodeMap)
      ensures removed == DirectedEdges(|Lookup(old(poolTokens), pool)|)
      ensures version == if poolTokens == old(poolTokens) then old(version) else old(version) + 1
    {
      hide Linked, TokensOk, CliquesOk, CountsOk, PairsOk;
      PoolHasEdges(poolTokens);
      var count, _ := RemovePoolEdges(pool);
      removed := count;
      if removed > 0 { version := version + 1; }
    }

    /** Remove a pool and the tokens only it used. */
    method RemovePoolCompacting(pool: Pool) returns (m: Mutation)
      requires Valid()
      modifies this
      ensures Valid() && poolTokens == old(poolTokens) - {pool} && (old(Compact()) ==> Compact())
      ensures m == if pool in old(poolTokens) then Removed(DirectedEdges(|old(poolTokens)[pool]|)) else Unchanged
      ensures version == if pool in old(poolTokens) then old(version) + 1 else old(version)
      ensures pool !in old(poolTokens) ==> nodeMap == old(nodeMap)
    {
      hide Linked, TokensOk, CliquesOk, CountsOk, PairsOk, Used;
      PoolHasEdges(poolTokens);
      var directed, tokens := RemovePoolEdges(pool);
      if directed == 0 {
        assert poolTokens == old(poolTokens);
        return Unchanged;
      }
      PruneOrphanTokens(tokens);
      StillUsed(old(poolTokens), pool);
      version := version + 1;
      m := Removed(directed);
    }

    /** Bring one registration's topology up to date. */
    method ApplyPool(r: Registration, includeDegraded: bool) returns (m: Mutation)
      requires Valid()
      modifies this
      ensures Valid() && poolTokens == Applied(old(poolTokens), r.pool, IndexedTokens(r, includeDegraded))
      ensures old(Compact()) ==> Compact()
      ensures version == if poolTokens == old(poolTokens) then old(version) else old(version) + 1
      ensures poolTokens == old(poolTokens) ==> nodeMap == old(nodeMap)
      ensures Describes(m, old(poolTokens), poolTokens, r.pool)
      ensures m.Skipped? ==> WhySkipped(r, includeDegraded) == Some(m.reason)
    {
      hide Valid, Compact, Describes, TokensForPool;
      if !Indexable(r.status, includeDegraded) {
        m := RemoveOrSkip(r.pool, BadStatus(r.status));
        return;
      }
      match TokensForPool(r.metadata)
      case Failure(reason) => m := RemoveOrSkip(r.pool, reason);
      case Success(tokens) => m := SetTokens(r.pool, tokens);
    }

    method RemoveOrSkip(pool: Pool, reason: SkipReason) returns (m: Mutation)
      requires Valid()
      modifies this
      ensures Valid() && poolTokens == old(poolTokens) - {pool} && (old(Compact()) ==> Compact())
      ensures version == if poolTokens == old(poolTokens) then old(version) else old(version) + 1
      ensures poolTokens == old(poolTokens) ==> nodeMap == old(nodeMap)
      ensures Describes(m, old(poolTokens), poolTokens, pool) && (m.Skipped? ==> m.reason == reason)
    {
      hide Valid, Compact, DirectedEdges;
      m := RemovePoolCompacting(pool);
      if m.Unchanged? { m := Skipped(reason); }
    }

    /** Give a pool its token list: nothing to do, a replacement, or a new pool. */
    method SetTokens(pool: Pool, tokens: seq<Token>) returns (m: Mutation)
      requires Valid() && Sorted(tokens) && |tokens| >= 2
      modifies this
      ensures Valid() && poolTokens == old(poolTokens)[pool := tokens] && (old(Compact()) ==> Compact())
      ensures version == if poolTokens == old(poolTokens) then old(version) else old(version) + 1
      ensures poolTokens == old(poolTokens) ==> nodeMap == old(nodeMap)
      ensures Describes(m, old(poolTokens), poolTokens, pool) && !m.Skipped?
    {
      hide Valid, Used, Sorted, DirectedEdges;
      if pool in poolTokens && poolTokens[pool] == tokens { return Unchanged; }
      var known := pool in poolTokens;
      var removedEdges, oldTokens := 0, [];
      if known {
        StillUsed(poolTokens, pool);
        removedEdges, oldTokens := RemovePoolEdges(pool);
        PruneOrphanTokens(oldTokens);
      }
      ghost var rest := poolTokens;
      AddPoolEdges(pool, tokens);
      NowUsed(rest, pool, tokens);
      version := version + 1;
      m := if known then Updated(removedEdges, DirectedEdges(|tokens|)) else Added(DirectedEdges(|tokens|));
    }

    /** Index a registration the graph does not know yet, or say why it is skipped. */
    method IndexNew(r: Registration, includeDegraded: bool) returns (skip: Option<SkipReason>)
      requires Valid() && Compact() && r.pool !in poolTokens
      modifies this`graph, this`nodeMap, this`outgoing, this`edgeMap, this`edgeOf, this`pairPools, this`poolTokens
      ensures Valid() && Compact() && poolTokens == Applied(old(poolTokens), r.pool, IndexedTokens(r, includeDegraded))
      ensures skip.None? <==> r.pool in poolTokens
      ensures skip == WhySkipped(r, includeDegraded)
    {
      hide Valid, Used, Sorted, TokensForPool;
      assert poolTokens - {r.pool} == poolTokens;
      if !Indexable(r.status, includeDegraded) { return Some(BadStatus(r.status)); }
      var extracted := TokensForPool(r.metadata);
      if extracted.Failure? { return Some(extracted.error); }
      NowUsed(poolTokens, r.pool, extracted.value);
      AddPoolEdges(r.pool, extracted.value);
      return None;
    }

    /** Build from a registry, visiting the pools in any order. */
    static method FromRegistry(registry: map<Pool, Registration>, includeDegraded: bool)
      returns (g: AmmGraph, indexed: set<Pool>, skipped: map<Pool, SkipReason>)
      requires forall p :: p in registry ==> registry[p].pool == p
      ensures fresh(g) && g.Valid() && g.Compact() && g.version == 0
      ensures g.poolTokens == Table(registry, includeDegraded)
      ensures forall p :: p in indexed <==> p in g.poolTokens
      ensures forall p :: p in skipped <==> p in registry && p !in g.poolTokens
      ensures forall p :: p in skipped ==> p in registry && WhySkipped(registry[p], includeDegraded) == Some(skipped[p])
    {
      hide AmmGraph.Valid, AmmGraph.Compact, Table, IndexedTokens, WhySkipped, Applied, Minus;
      g := new AmmGraph();
      indexed, skipped := {}, map[];
      var todo := registry.Keys;
      TableStarts(registry, includeDegraded);
      while todo != {}
        invariant fresh(g) && g.Valid() && g.Compact() && g.version == 0 && todo <= registry.Keys
        invariant g.poolTokens == Table(Minus(registry, todo), includeDegraded)
        invariant forall p :: p in indexed <==> p in g.poolTokens
        invariant forall p :: p in skipped <==> p in registry && p !in todo && p !in g.poolTokens
        invariant forall p :: p in skipped ==> WhySkipped(registry[p], includeDegraded) == Some(skipped[p])
        decreases |todo|
      {
        var p :| p in todo;
        TableGrows(registry, todo, p, includeDegraded);
        todo := todo - {p};
        var skip := g.IndexNew(registry[p], includeDegraded);
        if skip.Some? {
          skipped := skipped[p := skip.value];
        } else {
          indexed := indexed + {p};
        }
      }
      MinusNothing(registry);
    }

    /** Replace the graph by a fresh build, advancing the version only if pools or tokens differ. */
    method RebuildFromRegistry(registry: map<Pool, Registration>, includeDegraded: bool)
      requires Valid() && forall p :: p in registry ==> registry[p].pool == p
      modifies this
      ensures Valid() && Compact() && poolTokens == Table(registry, includeDegraded)
      ensures version == if poolTokens == old(poolTokens) && nodeMap.Keys == old(nodeMap).Keys then old(version) else old(version) + 1
    {
      hide AmmGraph.Valid, AmmGraph.Compact, Table;
      var g, _, _ := FromRegistry(registry, includeDegraded);
      var same := poolTokens == g.poolTokens && |nodeMap| == |g.nodeMap| && forall t :: t in nodeMap ==> t in g.nodeMap;
      SameKeys(nodeMap, g.nodeMap);
      Become(g, if same then version else version + 1);
    }

    method Become(g: AmmGraph, version: nat)
      requires g.Valid()
      modifies this
      ensures Valid() && (old(g.Compact()) ==> Compact()) && poolTokens == old(g.poolTokens) && nodeMap == old(g.nodeMap) && this.version == version
    {
      hide NodesOk, AdjacencyOk, HopsOk, CacheOk, EdgeMapOk, CliquesOk, CountsOk, PairsOk, TokensOk, Used;
      graph, nodeMap, edgeMap, poolTokens, pairPools, outgoing, edgeOf := g.graph, g.nodeMap, g.edgeMap, g.poolTokens, g.pairPools, g.outgoing, g.edgeOf;
      this.version := version;
    }

    /** An independent copy. */
    method Clone() returns (g: AmmGraph)
      requires Valid()
      ensures fresh(g) && g.Valid() && (Compact() ==> g.Compact())
      ensures g.poolTokens == poolTokens && g.nodeMap == nodeMap && g.version == version
    {
      hide Valid, Compact;
      g := new AmmGraph();
      g.Become(this, version);
    }

    /** What the search loops see: per token, the cached outgoing edges as hops. */
    ghost function SearchGraph(): Graph
      reads this
    {
      map t | t in nodeMap :: HopsIn(Lookup(outgoing, nodeMap[t]))
    }

    /** The cached lists form a well-formed clique-per-pool graph with exactly the pool table's hops. */
    lemma SearchGraphExact()
      requires Valid()
      ensures WellFormed(SearchGraph()) && PoolsAreCliques(SearchGraph())
      ensures forall h :: HasEdge(SearchGraph(), h) <==> Joins(poolTokens, h)
    {
      CachedHopsExact(graph, nodeMap, edgeOf, outgoing, poolTokens, SearchGraph());
    }
  }

  lemma AddNodeKeepsRest(g: Digraph, nodeMap: map<Token, nat>, n: nat, t: Token)
    requires NodesOk(g.nodes, nodeMap) && n !in g.nodes && t !in nodeMap
    ensures NodesOk(AddNode(g, n, t).nodes, nodeMap[t := n]) && AddNode(g, n, t).edges == g.edges
  {
  }

  ghost predicate InRow(pool: Pool, tokens: seq<Token>, i: nat, j: nat, h: Hop)
    requires i < |tokens| && j <= |tokens|
  {
    h.pool == pool && h.tokenIn == tokens[i] && h.tokenOut in tokens[..j] && h.tokenOut != tokens[i]
  }

  ghost predicate InRows(pool: Pool, tokens: seq<Token>, i: nat, h: Hop)
    requires i <= |tokens|
  {
    h.pool == pool && h.tokenIn in tokens[..i] && h.tokenOut in tokens && h.tokenOut != h.tokenIn
  }

  lemma RowGrows(pool: Pool, tokens: seq<Token>, i: nat, j: nat)
    requires i < |tokens| && j < |tokens| && Distinct(tokens)
    ensures forall h :: InRow(pool, tokens, i, j + 1, h) <==> InRow(pool, tokens, i, j, h) || (i != j && h == Hop(pool, tokens[i], tokens[j]))
    ensures !InRow(pool, tokens, i, j, Hop(pool, tokens[i], tokens[j])) && tokens[i] !in tokens[..i]
  {
    assert tokens[..j + 1] == tokens[..j] + [tokens[j]];
    assert forall x :: x in tokens[..j + 1] <==> x in tokens[..j] || x == tokens[j];
    forall h ensures InRow(pool, tokens, i, j + 1, h) <==> InRow(pool, tokens, i, j, h) || (i != j && h == Hop(pool, tokens[i], tokens[j])) {
      assert h == Hop(h.pool, h.tokenIn, h.tokenOut);
    }
  }

  lemma RowsGrow(pool: Pool, tokens: seq<Token>, i: nat)
    requires i < |tokens| && Distinct(tokens)
    ensures forall h :: InRows(pool, tokens, i + 1, h) <==> InRows(pool, tokens, i, h) || InRow(pool, tokens, i, |tokens|, h)
  {
  }

  lemma PoolIsNew(edgeOf: map<Hop, nat>, edgeMap: map<Pool, seq<nat>>, poolTokens: map<Pool, seq<Token>>, pool: Pool)
    requires CliquesOk(edgeOf, poolTokens) && CountsOk(edgeMap, poolTokens) && pool !in poolTokens
    ensures (forall h :: h in edgeOf ==> h.pool != pool) && pool !in edgeMap
  {
  }

  lemma NewCliques(before: map<Hop, nat>, after: map<Hop, nat>, poolTokens: map<Pool, seq<Token>>, pool: Pool, tokens: seq<Token>)
    requires CliquesOk(before, poolTokens) && pool !in poolTokens
    requires forall h :: h in after <==> h in before || InRows(pool, tokens, |tokens|, h)
    ensures CliquesOk(after, poolTokens[pool := tokens])
  {
  }

  lemma TokensAdded(poolTokens: map<Pool, seq<Token>>, pool: Pool, tokens: seq<Token>)
    requires TokensOk(poolTokens) && Sorted(tokens) && |tokens| >= 2
    ensures TokensOk(poolTokens[pool := tokens])
  {
  }

  // ---- the pair index while a pool is being added ----

  ghost predicate PairSeen(tokens: seq<Token>, i: nat, j: nat, pair: (Token, Token)) {
    exists a, b :: 0 <= a < b < |tokens| && (a < i || (a == i && b < j)) && pair == (tokens[a], tokens[b])
  }

  lemma PairSeenStep(tokens: seq<Token>, i: nat, j: nat)
    requires i < j < |tokens|
    ensures forall q :: PairSeen(tokens, i, j + 1, q) <==> PairSeen(tokens, i, j, q) || q == (tokens[i], tokens[j])
    ensures PairSeen(tokens, i, j + 1, (tokens[i], tokens[j]))
  {
    assert PairSeen(tokens, i, j + 1, (tokens[i], tokens[j])) by { assert 0 <= i < j < |tokens| && i == i && j < j + 1; }
    forall q ensures PairSeen(tokens, i, j + 1, q) <==> PairSeen(tokens, i, j, q) || q == (tokens[i], tokens[j]) {
      if a, b :| 0 <= a < b < |tokens| && (a < i || (a == i && b < j + 1)) && q == (tokens[a], tokens[b]) {
        assert (a == i && b == j) || PairSeen(tokens, i, j, q);
      }
    }
  }

  ghost predicate PairsUpTo(now: map<(Token, Token), set<Pool>>, before: map<(Token, Token), set<Pool>>, pool: Pool, tokens: seq<Token>, i: nat, j: nat) {
    && (forall pair :: pair in now ==> now[pair] != {})
    && (forall pair, p :: Backs(now, pair, p) <==> Backs(before, pair, p) || (p == pool && PairSeen(tokens, i, j, pair)))
  }

  lemma PairsStart(now: map<(Token, Token), set<Pool>>, poolTokens: map<Pool, seq<Token>>, pool: Pool)
    requires PairsOk(now, poolTokens) && pool !in poolTokens
    ensures forall tokens :: PairsUpTo(now, now, pool, tokens, 0, 1)
  {
  }

  lemma PairsStep(now: map<(Token, Token), set<Pool>>, before: map<(Token, Token), set<Pool>>, pool: Pool, tokens: seq<Token>, i: nat, j: nat)
    requires i < j < |tokens| && PairsUpTo(now, before, pool, tokens, i, j)
    ensures var pair := (tokens[i], tokens[j]);
            PairsUpTo(now[pair := (if pair in now then now[pair] else {}) + {pool}], before, pool, tokens, i, j + 1)
  {
    var pair := (tokens[i], tokens[j]);
    var next := now[pair := (if pair in now then now[pair] else {}) + {pool}];
    PairSeenStep(tokens, i, j);
    assert forall q, p :: Backs(next, q, p) <==> Backs(now, q, p) || (q == pair && p == pool);
  }

  lemma PairsNextRow(now: map<(Token, Token), set<Pool>>, before: map<(Token, Token), set<Pool>>, pool: Pool, tokens: seq<Token>, i: nat)
    requires i < |tokens| && PairsUpTo(now, before, pool, tokens, i, |tokens|)
    ensures PairsUpTo(now, before, pool, tokens, i + 1, i + 2)
  {
  }

  lemma PairsDone(now: map<(Token, Token), set<Pool>>, before: map<(Token, Token), set<Pool>>, poolTokens: map<Pool, seq<Token>>, pool: Pool, tokens: seq<Token>)
    requires PairsOk(before, poolTokens) && pool !in poolTokens && Sorted(tokens)
    requires PairsUpTo(now, before, pool, tokens, |tokens|, |tokens| + 1)
    ensures PairsOk(now, poolTokens[pool := tokens])
  {
  }

  lemma AllPairsSeen(tokens: seq<Token>)
    requires Sorted(tokens)
    ensures forall pair :: PairSeen(tokens, |tokens|, |tokens| + 1, pair) <==> IsPair(tokens, pair)
  {
  }

  // ---- removal ----

  ghost predicate NoEmptyPairs(pairs: map<(Token, Token), set<Pool>>) {
    forall pair :: pair in pairs ==> pairs[pair] != {}
  }

  /** Take `pool` off one pair, and the pair off the index when nothing is left. */
  function Unpair(pairs: map<(Token, Token), set<Pool>>, pair: (Token, Token), pool: Pool): map<(Token, Token), set<Pool>> {
    if pair !in pairs then pairs
    else if pairs[pair] - {pool} == {} then pairs - {pair}
    else pairs[pair := pairs[pair] - {pool}]
  }

  ghost predicate UnpairedUpTo(now: map<(Token, Token), set<Pool>>, before: map<(Token, Token), set<Pool>>, pool: Pool, tokens: seq<Token>, i: nat, j: nat) {
    && NoEmptyPairs(now)
    && (forall pair, p :: Backs(now, pair, p) <==> Backs(before, pair, p) && !(p == pool && PairSeen(tokens, i, j, pair)))
  }

  lemma UnpairedStart(now: map<(Token, Token), set<Pool>>, pool: Pool, tokens: seq<Token>)
    requires NoEmptyPairs(now)
    ensures UnpairedUpTo(now, now, pool, tokens, 0, 1)
  {
  }

  lemma UnpairedStep(now: map<(Token, Token), set<Pool>>, before: map<(Token, Token), set<Pool>>, pool: Pool, tokens: seq<Token>, i: nat, j: nat)
    requires i < j < |tokens| && UnpairedUpTo(now, before, pool, tokens, i, j)
    ensures UnpairedUpTo(Unpair(now, (tokens[i], tokens[j]), pool), before, pool, tokens, i, j + 1)
  {
    var pair := (tokens[i], tokens[j]);
    var next := Unpair(now, pair, pool);
    assert forall q, p :: Backs(next, q, p) <==> Backs(now, q, p) && !(q == pair && p == pool) by { UnpairExact(now, pair, pool); }
    PairSeenStep(tokens, i, j);
  }

  lemma UnpairExact(pairs: map<(Token, Token), set<Pool>>, pair: (Token, Token), pool: Pool)
    ensures forall q, p :: Backs(Unpair(pairs, pair, pool), q, p) <==> Backs(pairs, q, p) && !(q == pair && p == pool)
  {
    if pair in pairs && pairs[pair] - {pool} == {} {
      assert forall p :: p in pairs[pair] ==> p == pool || p in pairs[pair] - {pool};
    }
  }

  lemma UnpairedNextRow(now: map<(Token, Token), set<Pool>>, before: map<(Token, Token), set<Pool>>, pool: Pool, tokens: seq<Token>, i: nat)
    requires i < |tokens| && UnpairedUpTo(now, before, pool, tokens, i, |tokens|)
    ensures UnpairedUpTo(now, before, pool, tokens, i + 1, i + 2)
  {
  }

  lemma PairsNotEmpty(pairs: map<(Token, Token), set<Pool>>, poolTokens: map<Pool, seq<Token>>)
    requires PairsOk(pairs, poolTokens)
    ensures NoEmptyPairs(pairs)
  {
  }

  lemma UnpairedDone(now: map<(Token, Token), set<Pool>>, before: map<(Token, Token), set<Pool>>, poolTokens: map<Pool, seq<Token>>, pool: Pool, tokens: seq<Token>)
    requires PairsOk(before, poolTokens) && TokensOk(poolTokens) && tokens == Lookup(poolTokens, pool)
    requires UnpairedUpTo(now, before, pool, tokens, |tokens|, |tokens| + 1)
    ensures PairsOk(now, poolTokens - {pool})
  {
  }

  lemma TokensRemoved(poolTokens: map<Pool, seq<Token>>, pool: Pool)
    requires TokensOk(poolTokens)
    ensures TokensOk(poolTokens - {pool})
  {
  }

  function HopsWithout(edgeOf: map<Hop, nat>, pool: Pool): map<Hop, nat> {
    map h | h in edgeOf && h.pool != pool :: edgeOf[h]
  }

  /** Removing a pool from edge list and table keeps their sizes in step. */
  lemma CountsRemoved(edgeMap: map<Pool, seq<nat>>, poolTokens: map<Pool, seq<Token>>, pool: Pool)
    requires CountsOk(edgeMap, poolTokens)
    ensures CountsOk(edgeMap - {pool}, poolTokens - {pool}) && (pool in edgeMap <==> pool in poolTokens)
    ensures pool in edgeMap ==> |edgeMap[pool]| == DirectedEdges(|poolTokens[pool]|)
  {
  }

  function Elements(s: seq<nat>): set<nat> { set e | e in s }

  function NodesOf(nodeMap: map<Token, nat>, tokens: seq<Token>): set<nat> {
    set t | t in tokens && t in nodeMap :: nodeMap[t]
  }

  lemma NodesOfGrows(nodeMap: map<Token, nat>, tokens: seq<Token>, k: nat)
    requires k < |tokens|
    ensures NodesOf(nodeMap, tokens[..k + 1]) == NodesOf(nodeMap, tokens[..k]) + (if tokens[k] in nodeMap then {nodeMap[tokens[k]]} else {})
  {
  }

  lemma {:induction false} DropTwice(s: seq<Cached>, pool: Pool)
    ensures DropPool(DropPool(s, pool), pool) == DropPool(s, pool)
  {
    if s != [] { DropTwice(s[1..], pool); }
  }

  lemma PrunedHas(g: Digraph, gone: set<nat>, e: nat)
    requires AdjacencyOk(g) && e in g.edges && e !in gone
    ensures e in Pruned(g, gone).edges && Pruned(g, gone).edges[e].source in Pruned(g, gone).adj
  {
  }

  /** The pool's edge list is exactly its edges, and they leave its own tokens' nodes. */
  lemma PoolEdgesListed(g: Digraph, nodeMap: map<Token, nat>, edgeOf: map<Hop, nat>, edgeMap: map<Pool, seq<nat>>, poolTokens: map<Pool, seq<Token>>, pool: Pool)
    requires NodesOk(g.nodes, nodeMap) && AdjacencyOk(g) && HopsOk(g, edgeOf) && EdgeMapOk(g.edges, edgeMap) && CliquesOk(edgeOf, poolTokens)
    requires pool in edgeMap
    ensures Distinct(edgeMap[pool]) && PoolEdges(g.edges, pool, Elements(edgeMap[pool]))
    ensures forall e :: e in g.edges && g.edges[e].pool == pool ==> g.edges[e].source in NodesOf(nodeMap, Lookup(poolTokens, pool))
  {
    hide ListOk;
    forall e ensures e in edgeMap[pool] <==> e in g.edges && g.edges[e].pool == pool {
      assert e in Lookup(edgeMap, pool) <==> e in g.edges && g.edges[e].pool == pool;
    }
    forall e | e in g.edges && g.edges[e].pool == pool ensures g.edges[e].source in NodesOf(nodeMap, Lookup(poolTokens, pool)) {
      assert EndsOk(g.nodes, g.edges[e]);
      var h := Hop(pool, g.nodes[g.edges[e].source], g.nodes[g.edges[e].target]);
      assert IsEdge(g, e, h) && Joins(poolTokens, h);
    }
  }

  lemma EdgeMapPruned(g: Digraph, edgeMap: map<Pool, seq<nat>>, pool: Pool, gone: set<nat>)
    requires EdgeMapOk(g.edges, edgeMap) && PoolEdges(g.edges, pool, gone)
    ensures EdgeMapOk(Pruned(g, gone).edges, edgeMap - {pool}) && Pruned(g, gone).nodes == g.nodes
  {
    forall p, e ensures e in Lookup(edgeMap - {pool}, p) <==> e in g.edges - gone && (g.edges - gone)[e].pool == p {
      assert e in Lookup(edgeMap, p) <==> e in g.edges && g.edges[e].pool == p;
    }
  }

  lemma CliquesRemoved(edgeOf: map<Hop, nat>, poolTokens: map<Pool, seq<Token>>, pool: Pool)
    requires CliquesOk(edgeOf, poolTokens)
    ensures CliquesOk(map h | h in edgeOf && h.pool != pool :: edgeOf[h], poolTokens - {pool})
  {
  }

  lemma RemovalKeeps(g: Digraph, nodeMap: map<Token, nat>, edgeOf: map<Hop, nat>, edgeMap: map<Pool, seq<nat>>, poolTokens: map<Pool, seq<Token>>, pool: Pool)
    requires NodesOk(g.nodes, nodeMap) && AdjacencyOk(g) && HopsOk(g, edgeOf) && EdgeMapOk(g.edges, edgeMap) && CliquesOk(edgeOf, poolTokens)
    requires pool in edgeMap
    ensures Distinct(edgeMap[pool]) && PoolEdges(g.edges, pool, Elements(edgeMap[pool]))
    ensures forall e :: e in edgeMap[pool] ==> e in g.edges
    ensures forall e :: e in g.edges && g.edges[e].pool == pool ==> g.edges[e].source in NodesOf(nodeMap, Lookup(poolTokens, pool))
    ensures var g' := Pruned(g, Elements(edgeMap[pool]));
            var rest := HopsWithout(edgeOf, pool);
            && NodesOk(g'.nodes, nodeMap) && AdjacencyOk(g') && HopsOk(g', rest) && EdgeMapOk(g'.edges, edgeMap - {pool})
            && CliquesOk(rest, poolTokens - {pool})
  {
    hide AdjacencyOk, HopsOk, EdgeMapOk, CliquesOk, NodesOk, Pruned;
    var gone := Elements(edgeMap[pool]);
    PoolEdgesListed(g, nodeMap, edgeOf, edgeMap, poolTokens, pool);
    assert forall e :: e in edgeMap[pool] ==> e in gone;
    PrunedKeepsHops(g, edgeOf, gone, pool);
    PrunedKeepsAdjacency(g, gone);
    EdgeMapPruned(g, edgeMap, pool, gone);
    CliquesRemoved(edgeOf, poolTokens, pool);
  }

  lemma RemoveNodeKeepsNodes(g: Digraph, nodeMap: map<Token, nat>, t: Token)
    requires NodesOk(g.nodes, nodeMap) && t in nodeMap
    ensures NodesOk(RemoveNode(g, nodeMap[t]).nodes, nodeMap - {t}) && RemoveNode(g, nodeMap[t]).edges == g.edges
  {
  }

  lemma PoolHasEdges(poolTokens: map<Pool, seq<Token>>)
    requires TokensOk(poolTokens)
    ensures forall p :: p in poolTokens ==> DirectedEdges(|poolTokens[p]|) > 0
  {
  }

  /** A token still used after a pool left was used before; one used before is still used or the pool's own. */
  lemma StillUsed(poolTokens: map<Pool, seq<Token>>, pool: Pool)
    ensures forall t :: Used(poolTokens, t) ==> Used(poolTokens - {pool}, t) || t in Lookup(poolTokens, pool)
  {
    forall t | Used(poolTokens, t) ensures Used(poolTokens - {pool}, t) || t in Lookup(poolTokens, pool) {
      var p :| p in poolTokens && t in poolTokens[p];
      assert p != pool ==> p in poolTokens - {pool} && t in (poolTokens - {pool})[p];
    }
  }

  lemma NowUsed(poolTokens: map<Pool, seq<Token>>, pool: Pool, tokens: seq<Token>)
    requires pool !in poolTokens
    ensures forall t :: Used(poolTokens[pool := tokens], t) <==> Used(poolTokens, t) || t in tokens
  {
    var next := poolTokens[pool := tokens];
    forall t ensures Used(next, t) <==> Used(poolTokens, t) || t in tokens {
      if p :| p in poolTokens && t in poolTokens[p] { assert p in next && t in next[p]; }
      if t in tokens { assert pool in next && t in next[pool]; }
    }
  }

  /** A mutation tells what happened to the pool, with the number of directed edges involved. */
  ghost predicate Describes(m: Mutation, before: map<Pool, seq<Token>>, after: map<Pool, seq<Token>>, pool: Pool) {
    match m
    case Unchanged => after == before && pool in before
    case Skipped(_) => after == before && pool !in before
    case Added(directed) => pool !in before && pool in after && directed == DirectedEdges(|after[pool]|)
    case Removed(directed) => pool in before && pool !in after && directed == DirectedEdges(|before[pool]|)
    case Updated(removed, added) =>
      && pool in before && pool in after && before[pool] != after[pool]
      && removed == DirectedEdges(|before[pool]|) && added == DirectedEdges(|after[pool]|)
  }

  /** The pool table after one registration. */
  function Applied(poolTokens: map<Pool, seq<Token>>, pool: Pool, tokens: Option<seq<Token>>): map<Pool, seq<Token>> {
    if tokens.Some? then poolTokens[pool := tokens.value] else poolTokens - {pool}
  }

  // ---- building ----

  /** The pool table a registry stands for. */
  function Table(registry: map<Pool, Registration>, includeDegraded: bool): map<Pool, seq<Token>> {
    map p | p in registry && IndexedTokens(registry[p], includeDegraded).Some? :: IndexedTokens(registry[p], includeDegraded).value
  }

  function Minus(registry: map<Pool, Registration>, todo: set<Pool>): map<Pool, Registration> { registry - todo }

  lemma TableGrows(registry: map<Pool, Registration>, todo: set<Pool>, p: Pool, includeDegraded: bool)
    requires p in todo && p in registry
    ensures p !in Table(Minus(registry, todo), includeDegraded)
    ensures forall q :: q in Table(Minus(registry, todo - {p}), includeDegraded) && q != p <==> q in Table(Minus(registry, todo), includeDegraded)
    ensures Table(Minus(registry, todo - {p}), includeDegraded) ==
            Applied(Table(Minus(registry, todo), includeDegraded), p, IndexedTokens(registry[p], includeDegraded))
  {
    hide IndexedTokens, Table, Minus;
    var a, b := Table(Minus(registry, todo), includeDegraded), Table(Minus(registry, todo - {p}), includeDegraded);
    var c := Applied(a, p, IndexedTokens(registry[p], includeDegraded));
    TableAt(registry, todo, includeDegraded, p);
    forall q ensures (q in b && q != p <==> q in a) && (q in b <==> q in c) && (q in b ==> b[q] == c[q]) {
      TableAt(registry, todo, includeDegraded, q);
      TableAt(registry, todo - {p}, includeDegraded, q);
    }
  }

  lemma TableAt(registry: map<Pool, Registration>, todo: set<Pool>, includeDegraded: bool, q: Pool)
    ensures var t := Table(Minus(registry, todo), includeDegraded);
            if q in registry && q !in todo && IndexedTokens(registry[q], includeDegraded).Some?
            then q in t && t[q] == IndexedTokens(registry[q], includeDegraded).value
            else q !in t
  {
    hide IndexedTokens;
  }

  lemma MinusNothing(registry: map<Pool, Registration>)
    ensures Minus(registry, {}) == registry
  {
  }

  lemma TableStarts(registry: map<Pool, Registration>, includeDegraded: bool)
    ensures Table(Minus(registry, registry.Keys), includeDegraded) == map[]
  {
  }

  lemma SameKeys(a: map<Token, nat>, b: map<Token, nat>)
    ensures |a| == |b| && (forall t :: t in a ==> t in b) <==> a.Keys == b.Keys
  {
    assert |a| == |a.Keys| && |b| == |b.Keys|;
    if t :| a.Keys <= b.Keys && t in b && t !in a {
      SubsetSize(a.Keys, b.Keys - {t});
    }
  }

  // ---- the search's view ----

  function HopsIn(cache: seq<Cached>): (r: seq<Hop>)
    ensures |r| == |cache| && forall i :: 0 <= i < |r| ==> r[i] == Hop(cache[i].pool, cache[i].tokenIn, cache[i].tokenOut)
  {
    seq(|cache|, i requires 0 <= i < |cache| => Hop(cache[i].pool, cache[i].tokenIn, cache[i].tokenOut))
  }

  /** The hop cached at position `i` is an edge from that node. */
  lemma CachedHopIsEdge(g: Digraph, nodeMap: map<Token, nat>, edgeOf: map<Hop, nat>, outgoing: map<nat, seq<Cached>>, t: Token, i: nat)
    requires NodesOk(g.nodes, nodeMap) && AdjacencyOk(g) && HopsOk(g, edgeOf) && CacheOk(g, outgoing)
    requires t in nodeMap && i < |Lookup(outgoing, nodeMap[t])|
    ensures nodeMap[t] in g.adj && i < |g.adj[nodeMap[t]]|
    ensures var h := HopsIn(Lookup(outgoing, nodeMap[t]))[i];
            h.tokenIn == t && h.tokenOut in nodeMap && h in edgeOf && edgeOf[h] == g.adj[nodeMap[t]][i]
  {
    var n := nodeMap[t];
    assert Mirrors(g, g.adj[n], Lookup(outgoing, n)) && ListOk(g.edges, n, g.adj[n]);
    var e := g.adj[n][i];
    assert Shows(g, e, Lookup(outgoing, n)[i]) && e in g.adj[n];
    assert IsEdge(g, e, HopsIn(Lookup(outgoing, n))[i]);
  }

  lemma EdgeIsCached(g: Digraph, nodeMap: map<Token, nat>, edgeOf: map<Hop, nat>, outgoing: map<nat, seq<Cached>>, h: Hop)
    requires NodesOk(g.nodes, nodeMap) && AdjacencyOk(g) && HopsOk(g, edgeOf) && CacheOk(g, outgoing) && h in edgeOf
    ensures h.tokenIn in nodeMap && h in HopsIn(Lookup(outgoing, nodeMap[h.tokenIn]))
  {
  }

  lemma CachedHopsAreEdges(g: Digraph, nodeMap: map<Token, nat>, edgeOf: map<Hop, nat>, outgoing: map<nat, seq<Cached>>)
    requires NodesOk(g.nodes, nodeMap) && AdjacencyOk(g) && HopsOk(g, edgeOf) && CacheOk(g, outgoing)
    ensures forall t, i :: t in nodeMap && 0 <= i < |HopsIn(Lookup(outgoing, nodeMap[t]))| ==>
              Leaves(edgeOf, nodeMap, t, HopsIn(Lookup(outgoing, nodeMap[t]))[i])
    ensures forall t :: t in nodeMap ==> Distinct(HopsIn(Lookup(outgoing, nodeMap[t])))
  {
    hide NodesOk, AdjacencyOk, HopsOk, CacheOk;
    forall t, i | t in nodeMap && 0 <= i < |HopsIn(Lookup(outgoing, nodeMap[t]))|
      ensures Leaves(edgeOf, nodeMap, t, HopsIn(Lookup(outgoing, nodeMap[t]))[i])
    {
      CachedHopIsEdge(g, nodeMap, edgeOf, outgoing, t, i);
    }
    forall t | t in nodeMap ensures Distinct(HopsIn(Lookup(outgoing, nodeMap[t]))) {
      var hops := HopsIn(Lookup(outgoing, nodeMap[t]));
      forall i, j | 0 <= i < j < |hops| ensures hops[i] != hops[j] {
        CachedHopIsEdge(g, nodeMap, edgeOf, outgoing, t, i);
        CachedHopIsEdge(g, nodeMap, edgeOf, outgoing, t, j);
        ListDistinct(g, nodeMap[t]);
      }
    }
  }

  ghost predicate Leaves(edgeOf: map<Hop, nat>, nodeMap: map<Token, nat>, t: Token, h: Hop) {
    h in edgeOf && h.tokenIn == t && h.tokenOut in nodeMap
  }

  lemma CachedHopsExact(g: Digraph, nodeMap: map<Token, nat>, edgeOf: map<Hop, nat>, outgoing: map<nat, seq<Cached>>, poolTokens: map<Pool, seq<Token>>, s: Graph)
    requires NodesOk(g.nodes, nodeMap) && AdjacencyOk(g) && HopsOk(g, edgeOf) && CacheOk(g, outgoing) && CliquesOk(edgeOf, poolTokens)
    requires s == map t | t in nodeMap :: HopsIn(Lookup(outgoing, nodeMap[t]))
    ensures WellFormed(s) && PoolsAreCliques(s)
    ensures forall h :: HasEdge(s, h) <==> Joins(poolTokens, h)
  {
    hide NodesOk, AdjacencyOk, HopsOk, CacheOk, PoolsAreCliques, HopsIn, WellFormed;
    CachedHopsAreEdges(g, nodeMap, edgeOf, outgoing);
    ListsWellFormed(nodeMap, edgeOf, poolTokens, s);
    forall h ensures HasEdge(s, h) <==> Joins(poolTokens, h) {
      if h in edgeOf { EdgeIsCached(g, nodeMap, edgeOf, outgoing, h); }
    }
    CliquesFromJoins(s, poolTokens);
  }

  lemma ListsWellFormed(nodeMap: map<Token, nat>, edgeOf: map<Hop, nat>, poolTokens: map<Pool, seq<Token>>, s: Graph)
    requires CliquesOk(edgeOf, poolTokens) && s.Keys == nodeMap.Keys
    requires forall t, i :: t in s && 0 <= i < |s[t]| ==> Leaves(edgeOf, nodeMap, t, s[t][i])
    requires forall t :: t in s ==> Distinct(s[t])
    ensures WellFormed(s)
  {
  }

  lemma CliquesFromJoins(s: Graph, poolTokens: map<Pool, seq<Token>>)
    requires forall h :: HasEdge(s, h) <==> Joins(poolTokens, h)
    ensures PoolsAreCliques(s)
  {
  }

  lemma ListDistinct(g: Digraph, n: nat)
    requires AdjacencyOk(g) && n in g.adj
    ensures Distinct(g.adj[n])
  {
  }
}
