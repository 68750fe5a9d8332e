/** Which token balances matter: those of pools that share a token pair with another pool. The
    pair index and the scan over directed edges are two ways to the same answer. */
module ParallelPools {
  import opened Routing
  import opened PoolTokens
  import opened TokenGraph
  import opened AmmGraphs

  const PARALLEL_EDGE_THRESHOLD := 2

  datatype Scope = ParallelEdgeOutputs | AllDirectedEdges

  /** Both pools hold the two distinct tokens. */
  ghost predicate Share(poolTokens: map<Pool, seq<Token>>, p: Pool, q: Pool, t: Token, u: Token) {
    Joins(poolTokens, Hop(p, t, u)) && Joins(poolTokens, Hop(q, t, u))
  }

  ghost predicate HasParallel(poolTokens: map<Pool, seq<Token>>, p: Pool, t: Token) {
    exists q, u :: q != p && Share(poolTokens, p, q, t, u)
  }

  /** The tokens of `p` whose balances are tracked. */
  ghost predicate Tracked(poolTokens: map<Pool, seq<Token>>, scope: Scope, p: Pool, t: Token) {
    p in poolTokens && t in poolTokens[p] && (scope.ParallelEdgeOutputs? ==> HasParallel(poolTokens, p, t))
  }

  /** A pool is parallel to another when they share a pair; to itself when it is indexed. */
  ghost predicate Parallel(poolTokens: map<Pool, seq<Token>>, p: Pool, q: Pool) {
    exists t, u :: Share(poolTokens, p, q, t, u)
  }

  /** Pools outside the changed ones and their neighbours, before and after, track the same tokens. */
  lemma UnaffectedTrackTheSame(before: map<Pool, seq<Token>>, after: map<Pool, seq<Token>>, scope: Scope, changed: set<Pool>, p: Pool, t: Token)
    requires forall q :: q !in changed ==> (q in before <==> q in after) && (q in before ==> before[q] == after[q])
    requires p !in changed
    requires scope.ParallelEdgeOutputs? ==> forall q :: q in changed ==> !Parallel(before, q, p) && !Parallel(after, q, p)
    ensures Tracked(before, scope, p, t) <==> Tracked(after, scope, p, t)
  {
    if scope.ParallelEdgeOutputs? {
      if HasParallel(before, p, t) {
        var q, u :| q != p && Share(before, p, q, t, u);
        assert Share(before, q, p, t, u);
        assert Share(after, p, q, t, u);
      }
      if HasParallel(after, p, t) {
        var q, u :| q != p && Share(after, p, q, t, u);
        assert Share(after, q, p, t, u);
        assert Share(before, p, q, t, u);
      }
    }
  }

  // ---- through the pair index ----

  /** `t` is in a pair of `p`, first in the first `i` rows, that at least two pools back. */
  ghost predicate TrackedUpTo(poolTokens: map<Pool, seq<Token>>, p: Pool, i: nat, j: nat, t: Token)
    requires p in poolTokens
  {
    exists q, pair :: q != p && q in poolTokens && PairSeen(poolTokens[p], i, j, pair) && IsPair(poolTokens[q], pair) && (t == pair.0 || t == pair.1)
  }

  lemma AtLeastTwoMembers(s: set<Pool>, p: Pool)
    requires p in s
    ensures |s| >= 2 <==> exists q :: q in s && q != p
  {
    if q :| q in s && q != p {
      assert {p, q} <= s;
      var rest := s - {p, q};
      assert s == rest + {p, q};
    } else {
      assert s == {p};
    }
  }

  lemma PairTracked(poolTokens: map<Pool, seq<Token>>, p: Pool, t: Token)
    requires TokensOk(poolTokens) && p in poolTokens
    ensures TrackedUpTo(poolTokens, p, |poolTokens[p]|, |poolTokens[p]| + 1, t) <==> Tracked(poolTokens, ParallelEdgeOutputs, p, t)
  {
    hide TokensOk, PairSeen, IsPair, Share;
    var tokens := poolTokens[p];
    SortedAt(poolTokens, p);
    AllPairsSeen(tokens);
    if TrackedUpTo(poolTokens, p, |tokens|, |tokens| + 1, t) {
      var q, pair :| q != p && q in poolTokens && PairSeen(tokens, |tokens|, |tokens| + 1, pair) && IsPair(poolTokens[q], pair) && (t == pair.0 || t == pair.1);
      PairIsShared(poolTokens, p, q, pair);
    }
    if Tracked(poolTokens, ParallelEdgeOutputs, p, t) {
      var q, u :| q != p && Share(poolTokens, p, q, t, u);
      var pair := SharedIsPair(poolTokens, p, q, t, u);
    }
  }

  lemma SortedAt(poolTokens: map<Pool, seq<Token>>, p: Pool)
    requires TokensOk(poolTokens) && p in poolTokens
    ensures Sorted(poolTokens[p])
  {
  }

  lemma PairIsShared(poolTokens: map<Pool, seq<Token>>, p: Pool, q: Pool, pair: (Token, Token))
    requires p in poolTokens && q in poolTokens && IsPair(poolTokens[p], pair) && IsPair(poolTokens[q], pair)
    ensures Share(poolTokens, p, q, pair.0, pair.1) && Share(poolTokens, p, q, pair.1, pair.0) && pair.0 in poolTokens[p] && pair.1 in poolTokens[p]
  {
  }

  lemma SharedIsPair(poolTokens: map<Pool, seq<Token>>, p: Pool, q: Pool, t: Token, u: Token) returns (pair: (Token, Token))
    requires Share(poolTokens, p, q, t, u)
    ensures p in poolTokens && q in poolTokens && IsPair(poolTokens[p], pair) && IsPair(poolTokens[q], pair) && (pair == (t, u) || pair == (u, t))
  {
    pair := if t.id < u.id then (t, u) else (u, t);
  }

  /** Enough pools back the pair. */
  predicate Crowded(pairs: map<(Token, Token), set<Pool>>, pair: (Token, Token)) {
    pair in pairs && |pairs[pair]| >= PARALLEL_EDGE_THRESHOLD
  }

  /** `tracked_tokens_for_pool`: walk the pool's pairs and keep those backed by two pools or more. */
  method TrackedTokensForPool(g: AmmGraph, pool: Pool, parallelOnly: bool) returns (tracked: set<Token>)
    requires g.Valid()
    ensures forall t :: t in tracked <==> Tracked(g.poolTokens, if parallelOnly then ParallelEdgeOutputs else AllDirectedEdges, pool, t)
  {
    hide AmmGraph.Linked, CliquesOk, CountsOk, TrackedUpTo, PairsOk, Crowded, Collects;
    if pool !in g.poolTokens { return {}; }
    var tokens := g.poolTokens[pool];
    if !parallelOnly {
      return set t | t in tokens;
    }
    tracked := {};
    CollectsNothing(g.poolTokens, pool);
    for i := 0 to |tokens|
      invariant Collects(tracked, g.poolTokens, pool, i, i + 1)
    {
      for j := i + 1 to |tokens|
        invariant Collects(tracked, g.poolTokens, pool, i, j)
      {
        var pair := (tokens[i], tokens[j]);
        CollectsStep(tracked, g.poolTokens, g.pairPools, pool, i, j);
        if Crowded(g.pairPools, pair) {
          tracked := tracked + {pair.0, pair.1};
        }
      }
      CollectsNextRow(tracked, g.poolTokens, pool, i);
    }
    CollectsAll(tracked, g.poolTokens, pool);
  }

  ghost predicate Collects(tracked: set<Token>, poolTokens: map<Pool, seq<Token>>, p: Pool, i: nat, j: nat)
    requires p in poolTokens
  {
    forall t :: t in tracked <==> TrackedUpTo(poolTokens, p, i, j, t)
  }

  lemma CollectsNothing(poolTokens: map<Pool, seq<Token>>, p: Pool)
    requires p in poolTokens
    ensures Collects({}, poolTokens, p, 0, 1)
  {
  }

  lemma CollectsStep(tracked: set<Token>, poolTokens: map<Pool, seq<Token>>, pairs: map<(Token, Token), set<Pool>>, p: Pool, i: nat, j: nat)
    requires TokensOk(poolTokens) && PairsOk(pairs, poolTokens) && p in poolTokens && i < j < |poolTokens[p]|
    requires Collects(tracked, poolTokens, p, i, j)
    ensures var pair := (poolTokens[p][i], poolTokens[p][j]);
            Collects(if Crowded(pairs, pair) then tracked + {pair.0, pair.1} else tracked, poolTokens, p, i, j + 1)
  {
    hide TrackedUpTo, Crowded, PairsOk, TokensOk;
    var pair := (poolTokens[p][i], poolTokens[p][j]);
    var next := if Crowded(pairs, pair) then tracked + {pair.0, pair.1} else tracked;
    TrackedStep(poolTokens, pairs, p, i, j);
    forall t ensures t in next <==> TrackedUpTo(poolTokens, p, i, j + 1, t) {
      assert t in tracked <==> TrackedUpTo(poolTokens, p, i, j, t);
    }
  }

  lemma CollectsNextRow(tracked: set<Token>, poolTokens: map<Pool, seq<Token>>, p: Pool, i: nat)
    requires p in poolTokens && i < |poolTokens[p]| && Collects(tracked, poolTokens, p, i, |poolTokens[p]|)
    ensures Collects(tracked, poolTokens, p, i + 1, i + 2)
  {
  }

  lemma CollectsAll(tracked: set<Token>, poolTokens: map<Pool, seq<Token>>, p: Pool)
    requires TokensOk(poolTokens) && p in poolTokens && Collects(tracked, poolTokens, p, |poolTokens[p]|, |poolTokens[p]| + 1)
    ensures forall t :: t in tracked <==> Tracked(poolTokens, ParallelEdgeOutputs, p, t)
  {
    hide TrackedUpTo, Tracked, TokensOk;
    forall t ensures t in tracked <==> Tracked(poolTokens, ParallelEdgeOutputs, p, t) {
      PairTracked(poolTokens, p, t);
    }
  }

  lemma TrackedStep(poolTokens: map<Pool, seq<Token>>, pairs: map<(Token, Token), set<Pool>>, p: Pool, i: nat, j: nat)
    requires TokensOk(poolTokens) && PairsOk(pairs, poolTokens) && p in poolTokens && i < j < |poolTokens[p]|
    ensures var pair := (poolTokens[p][i], poolTokens[p][j]);
            forall t :: TrackedUpTo(poolTokens, p, i, j + 1, t) <==>
              TrackedUpTo(poolTokens, p, i, j, t) || (Crowded(pairs, pair) && (t == pair.0 || t == pair.1))
  {
    hide IsPair, PairsOk, TokensOk, PairSeen, Crowded;
    var tokens := poolTokens[p];
    var pair := (tokens[i], tokens[j]);
    PairSeenStep(tokens, i, j);
    BackedByTwo(poolTokens, pairs, p, i, j);
    forall t | TrackedUpTo(poolTokens, p, i, j, t) || (Crowded(pairs, pair) && (t == pair.0 || t == pair.1))
      ensures TrackedUpTo(poolTokens, p, i, j + 1, t)
    {
      if TrackedUpTo(poolTokens, p, i, j, t) {
        var q, r :| q != p && q in poolTokens && PairSeen(tokens, i, j, r) && IsPair(poolTokens[q], r) && (t == r.0 || t == r.1);
        assert PairSeen(tokens, i, j + 1, r);
      } else {
        var q :| q != p && q in poolTokens && IsPair(poolTokens[q], pair);
        assert PairSeen(tokens, i, j + 1, pair);
      }
    }
    forall t | TrackedUpTo(poolTokens, p, i, j + 1, t)
      ensures TrackedUpTo(poolTokens, p, i, j, t) || (Crowded(pairs, pair) && (t == pair.0 || t == pair.1))
    {
      var q, r :| q != p && q in poolTokens && PairSeen(tokens, i, j + 1, r) && IsPair(poolTokens[q], r) && (t == r.0 || t == r.1);
      assert r == pair || PairSeen(tokens, i, j, r);
    }
  }

  /** A pair of `p` is backed twice exactly when another pool holds it too. */
  lemma BackedByTwo(poolTokens: map<Pool, seq<Token>>, pairs: map<(Token, Token), set<Pool>>, p: Pool, i: nat, j: nat)
    requires TokensOk(poolTokens) && PairsOk(pairs, poolTokens) && p in poolTokens && i < j < |poolTokens[p]|
    ensures var pair := (poolTokens[p][i], poolTokens[p][j]);
            Crowded(pairs, pair) <==> (exists q :: q != p && q in poolTokens && IsPair(poolTokens[q], pair))
  {
    var pair := (poolTokens[p][i], poolTokens[p][j]);
    assert Backs(pairs, pair, p);
    AtLeastTwoMembers(pairs[pair], p);
    if q :| q in pairs[pair] && q != p { assert Backs(pairs, pair, q); }
    if q :| q != p && q in poolTokens && IsPair(poolTokens[q], pair) { assert Backs(pairs, pair, q); }
  }

  // ---- neighbours ----

  ghost predicate NeighborUpTo(poolTokens: map<Pool, seq<Token>>, p: Pool, i: nat, j: nat, q: Pool)
    requires p in poolTokens
  {
    q in poolTokens && exists pair :: PairSeen(poolTokens[p], i, j, pair) && IsPair(poolTokens[q], pair)
  }

  lemma PairNeighbor(poolTokens: map<Pool, seq<Token>>, p: Pool, q: Pool)
    requires TokensOk(poolTokens) && p in poolTokens
    ensures NeighborUpTo(poolTokens, p, |poolTokens[p]|, |poolTokens[p]| + 1, q) <==> Parallel(poolTokens, p, q)
  {
    var tokens := poolTokens[p];
    SortedAt(poolTokens, p);
    AllPairsSeen(tokens);
    if NeighborUpTo(poolTokens, p, |tokens|, |tokens| + 1, q) {
      var pair :| PairSeen(tokens, |tokens|, |tokens| + 1, pair) && IsPair(poolTokens[q], pair);
      PairIsShared(poolTokens, p, q, pair);
    }
    if t, u :| Share(poolTokens, p, q, t, u) {
      var pair := SharedIsPair(poolTokens, p, q, t, u);
    }
  }

  /** `parallel_neighbors`: the union of the pair index over the pool's pairs. */
  method ParallelNeighbors(g: AmmGraph, pool: Pool) returns (neighbors: set<Pool>)
    requires g.Valid()
    ensures forall q :: q in neighbors <==> Parallel(g.poolTokens, pool, q)
  {
    hide AmmGraph.Linked, CliquesOk, CountsOk, NeighborUpTo, PairsOk, Gathers;
    if pool !in g.poolTokens { return {}; }
    var tokens := g.poolTokens[pool];
    neighbors := {};
    GathersNothing(g.poolTokens, pool);
    for i := 0 to |tokens|
      invariant Gathers(neighbors, g.poolTokens, pool, i, i + 1)
    {
      for j := i + 1 to |tokens|
        invariant Gathers(neighbors, g.poolTokens, pool, i, j)
      {
        var pair := (tokens[i], tokens[j]);
        GathersStep(neighbors, g.poolTokens, g.pairPools, pool, i, j);
        neighbors := neighbors + (if pair in g.pairPools then g.pairPools[pair] else {});
      }
      GathersNextRow(neighbors, g.poolTokens, pool, i);
    }
    GathersAll(neighbors, g.poolTokens, pool);
  }

  ghost predicate Gathers(neighbors: set<Pool>, poolTokens: map<Pool, seq<Token>>, p: Pool, i: nat, j: nat)
    requires p in poolTokens
  {
    forall q :: q in neighbors <==> NeighborUpTo(poolTokens, p, i, j, q)
  }

  lemma GathersNothing(poolTokens: map<Pool, seq<Token>>, p: Pool)
    requires p in poolTokens
    ensures Gathers({}, poolTokens, p, 0, 1)
  {
  }

  lemma GathersStep(neighbors: set<Pool>, poolTokens: map<Pool, seq<Token>>, pairs: map<(Token, Token), set<Pool>>, p: Pool, i: nat, j: nat)
    requires PairsOk(pairs, poolTokens) && p in poolTokens && i < j < |poolTokens[p]| && Gathers(neighbors, poolTokens, p, i, j)
    ensures var pair := (poolTokens[p][i], poolTokens[p][j]);
            Gathers(neighbors + (if pair in pairs then pairs[pair] else {}), poolTokens, p, i, j + 1)
  {
    hide NeighborUpTo, PairsOk;
    var pair := (poolTokens[p][i], poolTokens[p][j]);
    var next := neighbors + (if pair in pairs then pairs[pair] else {});
    NeighborStep(poolTokens, pairs, p, i, j);
    forall q ensures q in next <==> NeighborUpTo(poolTokens, p, i, j + 1, q) {
      assert q in neighbors <==> NeighborUpTo(poolTokens, p, i, j, q);
    }
  }

  lemma GathersNextRow(neighbors: set<Pool>, poolTokens: map<Pool, seq<Token>>, p: Pool, i: nat)
    requires p in poolTokens && i < |poolTokens[p]| && Gathers(neighbors, poolTokens, p, i, |poolTokens[p]|)
    ensures Gathers(neighbors, poolTokens, p, i + 1, i + 2)
  {
  }

  lemma GathersAll(neighbors: set<Pool>, poolTokens: map<Pool, seq<Token>>, p: Pool)
    requires TokensOk(poolTokens) && p in poolTokens && Gathers(neighbors, poolTokens, p, |poolTokens[p]|, |poolTokens[p]| + 1)
    ensures forall q :: q in neighbors <==> Parallel(poolTokens, p, q)
  {
    hide NeighborUpTo, Parallel, TokensOk;
    forall q ensures q in neighbors <==> Parallel(poolTokens, p, q) { PairNeighbor(poolTokens, p, q); }
  }

  lemma NeighborStep(poolTokens: map<Pool, seq<Token>>, pairs: map<(Token, Token), set<Pool>>, p: Pool, i: nat, j: nat)
    requires PairsOk(pairs, poolTokens) && p in poolTokens && i < j < |poolTokens[p]|
    ensures var pair := (poolTokens[p][i], poolTokens[p][j]);
            forall q :: NeighborUpTo(poolTokens, p, i, j + 1, q) <==> NeighborUpTo(poolTokens, p, i, j, q) || Backs(pairs, pair, q)
  {
  }

  // ---- through the directed edges ----

  /** The group of a directed pair: the pools of the visited edges that join it, once each. */
  ghost predicate Grouped(groups: map<(Token, Token), seq<Pool>>, edgeOf: map<Hop, nat>, visited: set<nat>) {
    && (forall pair :: pair in groups ==> Distinct(groups[pair]))
    && (forall p, t, u :: p in Lookup(groups, (t, u)) <==> Hop(p, t, u) in edgeOf && edgeOf[Hop(p, t, u)] in visited)
  }

  lemma GroupStep(g: Digraph, groups: map<(Token, Token), seq<Pool>>, edgeOf: map<Hop, nat>, visited: set<nat>, e: nat, h: Hop)
    requires HopsOk(g, edgeOf) && Grouped(groups, edgeOf, visited) && e !in visited && IsEdge(g, e, h)
    ensures Grouped(groups[(h.tokenIn, h.tokenOut) := Lookup(groups, (h.tokenIn, h.tokenOut)) + [h.pool]], edgeOf, visited + {e})
  {
  }

  method GroupEdges(g: AmmGraph) returns (groups: map<(Token, Token), seq<Pool>>)
    requires g.Valid()
    ensures Grouped(groups, g.edgeOf, g.graph.edges.Keys)
  {
    hide Grouped, HopsOk, AdjacencyOk, CacheOk, EdgeMapOk, CliquesOk, CountsOk, PairsOk, TokensOk, NodesOk;
    groups := map[];
    var todo := g.graph.edges.Keys;
    GroupStart(g.edgeOf);
    assert g.graph.edges.Keys - todo == {};
    while todo != {}
      invariant todo <= g.graph.edges.Keys
      invariant Grouped(groups, g.edgeOf, g.graph.edges.Keys - todo)
      decreases |todo|
    {
      var e :| e in todo;
      SourceLive(g.graph, e);
      var d := g.graph.edges[e];
      var h := Hop(d.pool, g.graph.nodes[d.source], g.graph.nodes[d.target]);
      GroupStep(g.graph, groups, g.edgeOf, g.graph.edges.Keys - todo, e, h);
      groups := groups[(h.tokenIn, h.tokenOut) := Lookup(groups, (h.tokenIn, h.tokenOut)) + [h.pool]];
      assert g.graph.edges.Keys - (todo - {e}) == (g.graph.edges.Keys - todo) + {e};
      todo := todo - {e};
    }
    assert g.graph.edges.Keys - {} == g.graph.edges.Keys;
  }

  lemma GroupStart(edgeOf: map<Hop, nat>)
    ensures Grouped(map[], edgeOf, {})
  {
  }

  lemma LongGroup(s: seq<Pool>, p: Pool)
    requires Distinct(s) && p in s
    ensures |s| >= 2 <==> exists q :: q in s && q != p
  {
    if |s| >= 2 { assert s[0] in s && s[1] in s && s[0] != s[1]; }
  }

  /** Whether the group of `pair` puts `t` on `p`'s list. */
  ghost predicate FromGroup(groups: map<(Token, Token), seq<Pool>>, pair: (Token, Token), p: Pool, t: Token) {
    pair in groups && |groups[pair]| >= PARALLEL_EDGE_THRESHOLD && p in groups[pair] && t == pair.1
  }

  /** A group of two pools or more ending in `t` is exactly a parallel pool. */
  lemma GroupsTrack(g: Digraph, edgeOf: map<Hop, nat>, poolTokens: map<Pool, seq<Token>>, groups: map<(Token, Token), seq<Pool>>, p: Pool, t: Token)
    requires HopsOk(g, edgeOf) && CliquesOk(edgeOf, poolTokens) && Grouped(groups, edgeOf, g.edges.Keys)
    ensures FromSome(groups, groups.Keys, p, t) <==> Tracked(poolTokens, ParallelEdgeOutputs, p, t)
  {
    assert forall r, u, v :: r in Lookup(groups, (u, v)) <==> Joins(poolTokens, Hop(r, u, v)) by { GroupsJoin(g, edgeOf, poolTokens, groups); }
    if pair :| pair in groups.Keys && FromGroup(groups, pair, p, t) {
      LongGroup(groups[pair], p);
      var q :| q in groups[pair] && q != p;
      assert p in Lookup(groups, (pair.0, t)) && q in Lookup(groups, (pair.0, t));
      assert Share(poolTokens, p, q, t, pair.0);
    }
    if q, u :| q != p && Share(poolTokens, p, q, t, u) {
      assert p in Lookup(groups, (u, t)) && q in Lookup(groups, (u, t));
      LongGroup(groups[(u, t)], p);
      assert (u, t) in groups.Keys && FromGroup(groups, (u, t), p, t);
    }
  }

  lemma GroupsJoin(g: Digraph, edgeOf: map<Hop, nat>, poolTokens: map<Pool, seq<Token>>, groups: map<(Token, Token), seq<Pool>>)
    requires HopsOk(g, edgeOf) && CliquesOk(edgeOf, poolTokens) && Grouped(groups, edgeOf, g.edges.Keys)
    ensures forall r, u, v :: r in Lookup(groups, (u, v)) <==> Joins(poolTokens, Hop(r, u, v))
  {
  }

  ghost predicate FromSome(groups: map<(Token, Token), seq<Pool>>, done: set<(Token, Token)>, p: Pool, t: Token) {
    exists pair :: pair in done && FromGroup(groups, pair, p, t)
  }

  ghost predicate CollectedFrom(out: map<Pool, set<Token>>, groups: map<(Token, Token), seq<Pool>>, done: set<(Token, Token)>) {
    && (forall p :: p in out ==> out[p] != {})
    && (forall p, t :: (p in out && t in out[p]) <==> FromSome(groups, done, p, t))
  }

  /** `parallel_output_tokens_by_pool`: group the directed edges, keep groups of two and more. */
  method ParallelOutputTokens(g: AmmGraph) returns (out: map<Pool, set<Token>>)
    requires g.Valid()
    ensures forall p :: p in out ==> out[p] != {}
    ensures forall p, t :: (p in out && t in out[p]) <==> Tracked(g.poolTokens, ParallelEdgeOutputs, p, t)
  {
    hide AmmGraph.Linked, CliquesOk, CountsOk, PairsOk, TokensOk, Tracked, Grouped, FromGroup, FromSome, CollectedFrom;
    var groups := GroupEdges(g);
    out := map[];
    CollectStart(groups);
    var todo := groups.Keys;
    while todo != {}
      invariant todo <= groups.Keys && CollectedFrom(out, groups, groups.Keys - todo)
      decreases |todo|
    {
      var pair :| pair in todo;
      CollectStep(out, groups, groups.Keys - todo, pair);
      if |groups[pair]| >= PARALLEL_EDGE_THRESHOLD {
        out := AddOutputs(out, groups[pair], pair.1);
      }
      assert groups.Keys - (todo - {pair}) == (groups.Keys - todo) + {pair};
      todo := todo - {pair};
    }
    assert groups.Keys - {} == groups.Keys;
    CollectedAll(g, groups, out);
  }

  /** Put `t` on the list of every pool of the group. */
  function AddOutputs(out: map<Pool, set<Token>>, pools: seq<Pool>, t: Token): (r: map<Pool, set<Token>>)
    ensures forall p :: p in r <==> p in out || p in pools
    ensures forall p :: p in r ==> r[p] == (if p in out then out[p] else {}) + (if p in pools then {t} else {})
  {
    if pools == [] then out
    else
      var rest := AddOutputs(out, pools[1..], t);
      rest[pools[0] := (if pools[0] in rest then rest[pools[0]] else {}) + {t}]
  }

  lemma CollectStart(groups: map<(Token, Token), seq<Pool>>)
    ensures CollectedFrom(map[], groups, groups.Keys - groups.Keys)
  {
  }

  lemma CollectStep(out: map<Pool, set<Token>>, groups: map<(Token, Token), seq<Pool>>, done: set<(Token, Token)>, pair: (Token, Token))
    requires CollectedFrom(out, groups, done) && pair in groups
    ensures CollectedFrom(if |groups[pair]| >= PARALLEL_EDGE_THRESHOLD then AddOutputs(out, groups[pair], pair.1) else out, groups, done + {pair})
  {
    hide FromGroup, FromSome;
    var next := if |groups[pair]| >= PARALLEL_EDGE_THRESHOLD then AddOutputs(out, groups[pair], pair.1) else out;
    forall p, t ensures (p in next && t in next[p]) <==> FromSome(groups, done + {pair}, p, t) {
      FromSomeGrows(groups, done, pair, p, t);
      AddedFromGroup(out, groups, pair, p, t);
    }
  }

  lemma AddedFromGroup(out: map<Pool, set<Token>>, groups: map<(Token, Token), seq<Pool>>, pair: (Token, Token), p: Pool, t: Token)
    requires pair in groups
    ensures var next := if |groups[pair]| >= PARALLEL_EDGE_THRESHOLD then AddOutputs(out, groups[pair], pair.1) else out;
            (p in next && t in next[p]) <==> (p in out && t in out[p]) || FromGroup(groups, pair, p, t)
  {
  }

  lemma FromSomeGrows(groups: map<(Token, Token), seq<Pool>>, done: set<(Token, Token)>, pair: (Token, Token), p: Pool, t: Token)
    ensures FromSome(groups, done + {pair}, p, t) <==> FromSome(groups, done, p, t) || FromGroup(groups, pair, p, t)
  {
  }

  lemma CollectedAll(g: AmmGraph, groups: map<(Token, Token), seq<Pool>>, out: map<Pool, set<Token>>)
    requires g.Valid() && Grouped(groups, g.edgeOf, g.graph.edges.Keys) && CollectedFrom(out, groups, groups.Keys)
    ensures forall p :: p in out ==> out[p] != {}
    ensures forall p, t :: (p in out && t in out[p]) <==> Tracked(g.poolTokens, ParallelEdgeOutputs, p, t)
  {
    hide HopsOk, NodesOk, AdjacencyOk, CacheOk, EdgeMapOk, CliquesOk, CountsOk, PairsOk, TokensOk, Tracked, Grouped, FromSome;
    forall p, t ensures (p in out && t in out[p]) <==> Tracked(g.poolTokens, ParallelEdgeOutputs, p, t) {
      GroupsTrack(g.graph, g.edgeOf, g.poolTokens, groups, p, t);
    }
  }

  // ---- every token of every edge ----

  /** The tokens of the visited edges, per pool. */
  ghost predicate TokensOfEdges(out: map<Pool, set<Token>>, g: Digraph, visited: set<nat>) {
    && (forall p :: p in out ==> out[p] != {})
    && (forall p, t :: (p in out && t in out[p]) <==> TouchedBy(g, visited, p, t))
  }

  ghost predicate TouchedBy(g: Digraph, visited: set<nat>, p: Pool, t: Token) {
    exists e :: e in visited && Touches(g, e, p, t)
  }

  ghost predicate Touches(g: Digraph, e: nat, p: Pool, t: Token) {
    && e in g.edges && EndsOk(g.nodes, g.edges[e]) && g.edges[e].pool == p
    && (t == g.nodes[g.edges[e].source] || t == g.nodes[g.edges[e].target])
  }

  /** `all_directed_edge_tokens_by_pool`. */
  method AllEdgeTokens(g: AmmGraph) returns (out: map<Pool, set<Token>>)
    requires g.Valid()
    ensures forall p :: p in out ==> out[p] != {}
    ensures forall p, t :: (p in out && t in out[p]) <==> Tracked(g.poolTokens, AllDirectedEdges, p, t)
  {
    hide NodesOk, AdjacencyOk, HopsOk, CacheOk, EdgeMapOk, CliquesOk, CountsOk, PairsOk, TokensOk, Tracked, TokensOfEdges;
    out := map[];
    NoEdgesVisited(g.graph);
    var todo := g.graph.edges.Keys;
    assert g.graph.edges.Keys - todo == {};
    while todo != {}
      invariant todo <= g.graph.edges.Keys && TokensOfEdges(out, g.graph, g.graph.edges.Keys - todo)
      decreases |todo|
    {
      var e :| e in todo;
      SourceLive(g.graph, e);
      EdgeVisited(out, g.graph, g.graph.edges.Keys - todo, e);
      var d := g.graph.edges[e];
      out := out[d.pool := (if d.pool in out then out[d.pool] else {}) + {g.graph.nodes[d.source], g.graph.nodes[d.target]}];
      assert g.graph.edges.Keys - (todo - {e}) == (g.graph.edges.Keys - todo) + {e};
      todo := todo - {e};
    }
    assert g.graph.edges.Keys - {} == g.graph.edges.Keys;
    AllVisited(out, g.graph);
    forall p, t ensures (p in out && t in out[p]) <==> Tracked(g.poolTokens, AllDirectedEdges, p, t) {
      TouchedIffTracked(g.graph, g.edgeOf, g.poolTokens, p, t);
    }
  }

  lemma NoEdgesVisited(g: Digraph)
    ensures TokensOfEdges(map[], g, {})
  {
  }

  lemma AllVisited(out: map<Pool, set<Token>>, g: Digraph)
    requires TokensOfEdges(out, g, g.edges.Keys)
    ensures forall p :: p in out ==> out[p] != {}
    ensures forall p, t :: (p in out && t in out[p]) <==> TouchedBy(g, g.edges.Keys, p, t)
  {
  }

  lemma EdgeVisited(out: map<Pool, set<Token>>, g: Digraph, visited: set<nat>, e: nat)
    requires TokensOfEdges(out, g, visited) && e in g.edges && EndsOk(g.nodes, g.edges[e])
    ensures var d := g.edges[e];
            TokensOfEdges(out[d.pool := (if d.pool in out then out[d.pool] else {}) + {g.nodes[d.source], g.nodes[d.target]}], g, visited + {e})
  {
    hide TouchedBy;
    var d := g.edges[e];
    var next := out[d.pool := (if d.pool in out then out[d.pool] else {}) + {g.nodes[d.source], g.nodes[d.target]}];
    forall p, t ensures (p in next && t in next[p]) <==> TouchedBy(g, visited + {e}, p, t) {
      assert (p in out && t in out[p]) <==> TouchedBy(g, visited, p, t);
      TouchedGrows(g, visited, e, p, t);
    }
  }

  lemma TouchedGrows(g: Digraph, visited: set<nat>, e: nat, p: Pool, t: Token)
    ensures TouchedBy(g, visited + {e}, p, t) <==> TouchedBy(g, visited, p, t) || Touches(g, e, p, t)
  {
  }

  lemma TouchedIffTracked(g: Digraph, edgeOf: map<Hop, nat>, poolTokens: map<Pool, seq<Token>>, p: Pool, t: Token)
    requires HopsOk(g, edgeOf) && CliquesOk(edgeOf, poolTokens) && TokensOk(poolTokens)
    ensures TouchedBy(g, g.edges.Keys, p, t) <==> Tracked(poolTokens, AllDirectedEdges, p, t)
  {
    hide Sorted;
    if e :| e in g.edges.Keys && Touches(g, e, p, t) {
      var h := Hop(p, g.nodes[g.edges[e].source], g.nodes[g.edges[e].target]);
      assert IsEdge(g, e, h) && Joins(poolTokens, h);
    }
    if Tracked(poolTokens, AllDirectedEdges, p, t) {
      var u := HasOther(poolTokens[p], t);
      assert Joins(poolTokens, Hop(p, t, u));
      var e := edgeOf[Hop(p, t, u)];
      assert IsEdge(g, e, Hop(p, t, u));
      assert e in g.edges.Keys && Touches(g, e, p, t);
    }
  }
}
