/** Where prefix dominance stops being sound: two families of graphs, and the exact hop bounds. */
module DominanceLimits {
  import opened Routing
  import opened PathEnumeration
  import opened PrefixDominance
  import opened AmmGraphs

  // ---- a graph from its pools ----

  ghost function Listed<T(!new)>(s: set<T>): (r: seq<T>)
    ensures forall x :: x in r <==> x in s
    ensures Distinct(r)
  {
    if s == {} then []
    else
      var x :| x in s;
      var rest := Listed(s - {x});
      assert forall i :: 0 <= i < |rest| ==> rest[i] in rest;
      rest + [x]
  }

  type Tables = map<Pool, seq<Token>>

  ghost function TokensOf(pools: Tables): set<Token> {
    set p, t | p in pools && t in pools[p] :: t
  }

  /** The graph in which every pool connects each ordered pair of its tokens. */
  ghost function CliqueGraph(pools: Tables): Graph {
    map t | t in TokensOf(pools) ::
      Listed(set p, u | p in pools && u in pools[p] && t in pools[p] && u != t :: Hop(p, t, u))
  }

  lemma CliqueGraphFacts(pools: Tables)
    ensures TokensOf(pools) == CliqueGraph(pools).Keys
    ensures forall e :: HasEdge(CliqueGraph(pools), e) <==> Joins(pools, e)
    ensures WellFormed(CliqueGraph(pools)) && PoolsAreCliques(CliqueGraph(pools))
  {
    var g := CliqueGraph(pools);
    forall e ensures HasEdge(g, e) <==> Joins(pools, e) {
      if Joins(pools, e) {
        assert e.tokenIn in g;
        assert Hop(e.pool, e.tokenIn, e.tokenOut) in g[e.tokenIn];
      }
    }
    forall t, i | t in g && 0 <= i < |g[t]|
      ensures g[t][i].tokenIn == t && g[t][i].tokenOut in g && g[t][i].tokenOut != t
    {
      var e := g[t][i];
      assert e in g[t];
      assert e.tokenIn == t;
      assert HasEdge(g, e);
      assert Joins(pools, e);
    }
    CliquesFromJoins(g, pools);
  }

  // ---- three or more demanded hops: a shortcut dominates a chain but is too short ----

  /** The hops 0 -> 1 -> ... -> k, each over its own pool. */
  function Chain(k: nat): (p: Path)
    ensures |p| == k && forall i {:trigger p[i]} :: 0 <= i < k ==> p[i] == Hop(Pool(i), Token(i), Token(i + 1))
  {
    if k == 0 then [] else Chain(k - 1) + [Hop(Pool(k - 1), Token(k - 1), Token(k))]
  }

  lemma ChainStops(k: nat)
    ensures forall i {:trigger Stops(Token(0), Chain(k))[i]} :: 0 <= i <= k ==> Stops(Token(0), Chain(k))[i] == Token(i)
  {
  }

  ghost function ChainPools(n: nat): Tables
    requires n >= 3
  {
    map p | p in (set i | 0 <= i <= n :: Pool(i)) ::
      if p.id == n then [Token(0), Token(n - 1)] else [Token(p.id), Token(p.id + 1)]
  }

  ghost function ChainCase(n: nat, maxHops: nat): Case
    requires n >= 3
  {
    Case(Query(CliqueGraph(ChainPools(n)), Token(0), Token(n), SearchConfig(n, maxHops, None, None), false),
         [Hop(Pool(n), Token(0), Token(n - 1))], Chain(n - 1), [Hop(Pool(n - 1), Token(n - 1), Token(n))])
  }

  lemma ChainWalks(n: nat, k: nat)
    requires n >= 3 && k <= n
    ensures IsWalk(CliqueGraph(ChainPools(n)), Token(0), Chain(k)) && DistinctPools(Chain(k)) && Distinct(Stops(Token(0), Chain(k)))
  {
    hide CliqueGraph, WellFormed, PoolsAreCliques, HasEdge, Stops, Chain;
    ChainStops(k);
    CliqueGraphFacts(ChainPools(n));
    forall i | 0 <= i < k ensures HasEdge(CliqueGraph(ChainPools(n)), Chain(k)[i]) {
      assert Joins(ChainPools(n), Chain(k)[i]);
    }
  }

  /** The question the family asks: from the start of the chain to its end. */
  ghost predicate AsksChain(q: Query, n: nat) {
    && n >= 3 && q.g == CliqueGraph(ChainPools(n)) && q.tokenIn == Token(0) && q.tokenOut == Token(n)
    && q.cfg.connectors.None? && !q.revisit
  }

  lemma ChainIsOpen(q: Query, n: nat, k: nat)
    requires AsksChain(q, n) && k < n
    ensures q.Open(Chain(k))
  {
    hide CliqueGraph, IsWalk, Stops, Chain, DistinctPools;
    ChainWalks(n, k);
  }

  lemma ChainIsAdmissible(q: Query, n: nat)
    requires AsksChain(q, n) && q.cfg.minHops <= n <= q.cfg.maxHops
    ensures q.Admissible(Chain(n))
  {
    hide CliqueGraph, IsWalk, Stops, Chain, DistinctPools;
    ChainWalks(n, n);
  }

  lemma ShortcutStops(n: nat)
    requires n >= 3
    ensures Stops(Token(0), [Hop(Pool(n), Token(0), Token(n - 1))]) == [Token(0), Token(n - 1)]
  {
  }

  lemma ShortcutIsOpen(q: Query, n: nat)
    requires AsksChain(q, n)
    ensures q.Open([Hop(Pool(n), Token(0), Token(n - 1))])
  {
    hide CliqueGraph, WellFormed, PoolsAreCliques, HasEdge, Stops;
    var p := [Hop(Pool(n), Token(0), Token(n - 1))];
    CliqueGraphFacts(ChainPools(n));
    ShortcutStops(n);
    assert Joins(ChainPools(n), p[0]);
  }

  lemma ShortcutDominates(x: Case, n: nat, maxHops: nat)
    requires 3 <= n <= maxHops && x == ChainCase(n, maxHops)
    ensures Dominates(LabelOf(x.q, x.kept, 0), LabelOf(x.q, x.pruned, 0))
    ensures Stops(x.q.tokenIn, x.kept)[1] == Stops(x.q.tokenIn, x.pruned)[n - 1]
  {
  }

  lemma ChainStart(n: nat)
    requires n >= 3
    ensures var g := CliqueGraph(ChainPools(n));
            WellFormed(g) && PoolsAreCliques(g) && Token(0) in g
  {
    hide CliqueGraph, WellFormed, PoolsAreCliques;
    CliqueGraphFacts(ChainPools(n));
    assert Pool(0) in ChainPools(n) && Token(0) in ChainPools(n)[Pool(0)];
  }

  /** Only the last pool of the chain reaches its end, from the token the shortcut already stands on:
      every completion of the shortcut has two hops in all. */
  lemma ShortcutCompletesShort(q: Query, n: nat, c: Path)
    requires AsksChain(q, n) && q.cfg.minHops >= 3
    ensures !q.Admissible([Hop(Pool(n), Token(0), Token(n - 1))] + c)
  {
    hide CliqueGraph, WellFormed, PoolsAreCliques, HasEdge;
    CliqueGraphFacts(ChainPools(n));
    assert forall e :: HasEdge(q.g, e) && e.tokenOut == Token(n) ==> e.tokenIn == Token(n - 1);
    var p := [Hop(Pool(n), Token(0), Token(n - 1))] + c;
    assert Stops(Token(0), p)[1] == p[0].tokenOut;
  }

  /** However many hops (three or more) the caller demands, a shortcut that is too short to be
      completed at all can dominate, and so discard, the prefix of a route. */
  lemma ManyHopsDemandedLoses(minHops: nat, maxHops: nat)
    requires 3 <= minHops <= maxHops
    ensures var x := ChainCase(minHops, maxHops);
            x.Possible() && forall c :: !x.q.Admissible(x.kept + c)
  {
    hide CliqueGraph, ChainPools, Stops, Chain, Query.Open, Query.Admissible, WellFormed, PoolsAreCliques, LabelOf, Dominates;
    var x := ChainCase(minHops, maxHops);
    var n := minHops;
    ChainStart(n);
    ChainIsOpen(x.q, n, n - 1);
    ChainIsAdmissible(x.q, n);
    ShortcutIsOpen(x.q, n);
    ShortcutDominates(x, n, maxHops);
    assert Chain(n) == x.pruned + x.completion;
    forall c ensures !x.q.Admissible(x.kept + c) { ShortcutCompletesShort(x.q, n, c); }
  }

  // ---- four or more allowed hops: a used pool returns two hops later ----

  const T0 := Token(0)
  const T1 := Token(1)
  const T2 := Token(2)
  const T3 := Token(3)
  const T4 := Token(4)

  const FORK: Tables := map[Pool(0) := [T0, T1, T3, T4], Pool(1) := [T1, T2], Pool(2) := [T0, T1], Pool(3) := [T2, T3]]

  ghost function ForkCase(minHops: nat, maxHops: nat): Case {
    Case(Query(CliqueGraph(FORK), T0, T4, SearchConfig(minHops, maxHops, None, None), false),
         [Hop(Pool(0), T0, T1), Hop(Pool(1), T1, T2)],
         [Hop(Pool(2), T0, T1), Hop(Pool(1), T1, T2)],
         [Hop(Pool(3), T2, T3), Hop(Pool(0), T3, T4)])
  }

  lemma PairStops(p: Path)
    requires |p| == 2
    ensures Stops(T0, p) == [T0, p[0].tokenOut, p[1].tokenOut]
  {
  }

  lemma ForkStops(p: Path)
    requires |p| == 4
    ensures Stops(T0, p) == [T0, p[0].tokenOut, p[1].tokenOut, p[2].tokenOut, p[3].tokenOut]
  {
  }

  lemma ForkOpen(q: Query, first: Pool)
    requires q.g == CliqueGraph(FORK) && q.tokenIn == T0 && q.tokenOut == T4 && q.cfg.connectors.None?
    requires first == Pool(0) || first == Pool(2)
    ensures q.Open([Hop(first, T0, T1), Hop(Pool(1), T1, T2)])
  {
    hide CliqueGraph, HasEdge, Stops, FORK;
    var p := [Hop(first, T0, T1), Hop(Pool(1), T1, T2)];
    PairStops(p);
    ForkEdges();
  }

  lemma ForkAdmissible(x: Case, minHops: nat, maxHops: nat)
    requires x == ForkCase(minHops, maxHops) && minHops <= 4 <= maxHops
    ensures x.q.Admissible(x.pruned + x.completion)
  {
    hide CliqueGraph, HasEdge, Stops, FORK;
    var p := x.pruned + x.completion;
    ForkStops(p);
    ForkEdges();
  }

  lemma ForkStart()
    ensures T0 in CliqueGraph(FORK) && WellFormed(CliqueGraph(FORK)) && PoolsAreCliques(CliqueGraph(FORK))
  {
    hide CliqueGraph, WellFormed, PoolsAreCliques;
    CliqueGraphFacts(FORK);
    assert Pool(0) in FORK && T0 in FORK[Pool(0)];
  }

  lemma ForkEdges()
    ensures var g := CliqueGraph(FORK);
            && HasEdge(g, Hop(Pool(0), T0, T1)) && HasEdge(g, Hop(Pool(2), T0, T1)) && HasEdge(g, Hop(Pool(1), T1, T2))
            && HasEdge(g, Hop(Pool(3), T2, T3)) && HasEdge(g, Hop(Pool(0), T3, T4))
  {
    hide CliqueGraph, HasEdge, WellFormed, PoolsAreCliques;
    CliqueGraphFacts(FORK);
  }

  /** Only pool 0 touches the target, and the kept prefix has spent it: it has no completion. */
  lemma ForkStuck(q: Query, c: Path)
    requires q.g == CliqueGraph(FORK) && q.tokenIn == T0 && q.tokenOut == T4
    ensures !q.Admissible([Hop(Pool(0), T0, T1), Hop(Pool(1), T1, T2)] + c)
  {
    hide CliqueGraph, HasEdge, WellFormed, PoolsAreCliques, Stops;
    CliqueGraphFacts(FORK);
    assert forall e :: HasEdge(q.g, e) && e.tokenOut == T4 ==> e.pool == Pool(0);
    var p := [Hop(Pool(0), T0, T1), Hop(Pool(1), T1, T2)] + c;
    assert p[0].pool == Pool(0) && p[1].tokenOut == T2;
  }

  /** Pool 0 does not touch the token both prefixes stand on, so the kept label does not mention it. */
  lemma ForkDominates(x: Case, minHops: nat, maxHops: nat)
    requires x == ForkCase(minHops, maxHops)
    ensures Dominates(LabelOf(x.q, x.kept, 0), LabelOf(x.q, x.pruned, 0))
    ensures Stops(x.q.tokenIn, x.kept)[2] == Stops(x.q.tokenIn, x.pruned)[2]
  {
    hide CliqueGraph, Stops, Blocked;
    PairStops(x.kept);
    PairStops(x.pruned);
    ForkBlocksNothing(x.q);
    assert Pools(x.kept) == {Pool(0), Pool(1)} by { assert x.kept == [x.kept[0], x.kept[1]]; }
    assert Visited(T0, x.kept) == {T0, T1, T2} == Visited(T0, x.pruned);
  }

  lemma ForkBlocksNothing(q: Query)
    requires q.g == CliqueGraph(FORK) && q.tokenIn == T0 && q.tokenOut == T4 && !q.revisit
    ensures Blocked(q, T2, {T0, T1, T2}, {Pool(0), Pool(1)}) == {}
  {
  }

  /** With four or more hops allowed, the one-hop look-ahead of a label misses a pool the kept prefix
      has spent and every completion needs: it can discard the prefix of a route for one that cannot
      be completed at all. */
  lemma FourHopsAllowedLoses(minHops: nat, maxHops: nat)
    requires 1 <= minHops <= 4 <= maxHops
    ensures var x := ForkCase(minHops, maxHops);
            x.Possible() && forall c :: !x.q.Admissible(x.kept + c)
  {
    hide CliqueGraph, Stops, Query.Open, Query.Admissible, WellFormed, PoolsAreCliques, LabelOf, Dominates, FORK;
    var x := ForkCase(minHops, maxHops);
    ForkStart();
    ForkOpen(x.q, Pool(0));
    ForkOpen(x.q, Pool(2));
    ForkAdmissible(x, minHops, maxHops);
    ForkDominates(x, minHops, maxHops);
    forall c ensures !x.q.Admissible(x.kept + c) { ForkStuck(x.q, c); }
  }

  // ---- the exact bounds ----

  /** Prices under which every pool returns what it is given. */
  ghost function Parity(): Truths { imap k: Key :: Ok(k.amount) }

  lemma {:induction false} ParityRuns(p: Path, amount: nat)
    ensures Run(QuoterOf(Parity()), p, amount).Ran? && Run(QuoterOf(Parity()), p, amount).amountOut == amount
  {
    if p != [] { ParityRuns(p[1..], amount); }
  }

  /** A case whose kept prefix has no completion loses the discarded route under equal prices. */
  lemma NothingMakesUp(x: Case)
    requires x.Possible() && forall c :: !x.q.Admissible(x.kept + c)
    ensures Priced(x, Parity(), 0).Loses()
  {
    hide Query.Admissible, LabelOf, Dominates, Run, QuoterOf, Monotone, Case.Possible;
    ParityMonotone();
    ParityRuns(x.kept, 0);
    ParityRuns(x.pruned, 0);
    ParityRuns(x.pruned + x.completion, 0);
    KeptDominates(x);
  }

  lemma ParityMonotone()
    ensures Monotone(QuoterOf(Parity()))
  {
  }

  lemma KeptDominates(x: Case)
    requires x.Possible()
    ensures Dominates(LabelOf(x.q, x.kept, 0), LabelOf(x.q, x.pruned, 0))
  {
  }

  /** Discarding dominated prefixes never costs output exactly when at most three hops are allowed and
      at most two are demanded. */
  lemma DominanceExactBounds(minHops: nat, maxHops: nat)
    requires 1 <= minHops <= maxHops
    ensures DominanceSound(minHops, maxHops) <==> maxHops <= 3 && minHops <= 2
  {
    hide Case.Possible, Case.MadeUp, Query.Admissible, Run;
    if maxHops <= 3 && minHops <= 2 {
      forall y: Priced | y.x.q.cfg.minHops == minHops && y.x.q.cfg.maxHops == maxHops ensures !y.Loses() {
        NoLoss(y);
      }
    } else {
      var x := if minHops >= 3 then ChainCase(minHops, maxHops) else ForkCase(minHops, maxHops);
      if minHops >= 3 { ManyHopsDemandedLoses(minHops, maxHops); } else { FourHopsAllowedLoses(minHops, maxHops); }
      NothingMakesUp(x);
      assert Priced(x, Parity(), 0).x.q.cfg.minHops == minHops;
    }
  }

  lemma NoLoss(y: Priced)
    requires y.x.q.cfg.maxHops <= 3 && y.x.q.cfg.minHops <= 2
    ensures !y.Loses()
  {
    hide Case.Possible, Case.Discards, Case.MadeUp, Monotone, Run;
    var f := QuoterOf(y.truth);
    if y.x.Possible() && Monotone(f) && y.x.Discards(f, y.amountIn) && Run(f, y.x.pruned + y.x.completion, y.amountIn).Ran? {
      PruningKeepsBestAmount(y.x, f, y.amountIn);
    }
  }
}
