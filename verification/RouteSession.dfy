/** The stateful route session: a table of materialized routes, kept exact by requoting only what a
    batch of pool changes can have touched. */
module RouteSession {
  import opened Routing
  import QuoteDag
  import Ranking
  import PathEnumeration
  import StreamSearch
  import StreamState

  datatype Entry = Quoted(quote: RouteQuote) | Failed

  datatype Status = Unchanged | Updated | RecomputeRequired

  type Table = map<Path, Entry>

  type PathIndex = map<Pool, set<Path>>

  // ---- what the indexes must cover ----

  /** `e` swaps the same token pair as `hop`. */
  predicate Parallel(e: Hop, hop: Hop) { e.tokenIn == hop.tokenIn && e.tokenOut == hop.tokenOut }

  /** Every hop is an edge, and every pool that could stand in for one of its hops is tracked. */
  ghost predicate Covered(g: Graph, path: Path, tracked: set<Pool>) {
    forall i :: 0 <= i < |path| ==> HopCovered(g, path[i], tracked)
  }

  ghost predicate HopCovered(g: Graph, hop: Hop, tracked: set<Pool>) {
    HasEdge(g, hop) && forall e :: HasEdge(g, e) && Parallel(e, hop) ==> e.pool in tracked
  }

  /** `y` is `path` with the pool of one hop exchanged for a parallel one. */
  ghost predicate IsProbe(g: Graph, path: Path, y: Path) {
    exists i, e :: 0 <= i < |path| && HasEdge(g, e) && Parallel(e, path[i]) && y == path[i := e]
  }

  lemma ProbesStayCovered(g: Graph, path: Path, y: Path, tracked: set<Pool>)
    requires Covered(g, path, tracked) && IsProbe(g, path, y)
    ensures y != [] && Covered(g, y, tracked)
  {
  }

  lemma CoveredPools(g: Graph, path: Path, tracked: set<Pool>)
    requires Covered(g, path, tracked)
    ensures Pools(path) <= tracked
  {
  }

  ghost predicate NoEmptySets(index: PathIndex) {
    forall k :: k in index ==> index[k] != {}
  }

  ghost predicate Grows(before: PathIndex, after: PathIndex) {
    forall k :: k in before ==> k in after && before[k] <= after[k]
  }

  function AddPath(index: PathIndex, k: Pool, p: Path): PathIndex {
    index[k := (if k in index then index[k] else {}) + {p}]
  }

  // ---- truth of the table ----

  ghost predicate EntryTrue(q: Quoter, amountIn: nat, p: Path, e: Entry) {
    match e
    case Quoted(x) => QuotePathSpec(q, p, amountIn) == Success(x)
    case Failed => QuotePathSpec(q, p, amountIn).Failure?
  }

  ghost predicate TableTrue(q: Quoter, amountIn: nat, table: Table) {
    forall p :: p in table ==> EntryTrue(q, amountIn, p, table[p])
  }

  /** `best` is a largest quote of the table, or absent when nothing is quoted. */
  ghost predicate BestOf(table: Table, best: Option<RouteQuote>) {
    && (best.None? ==> forall p :: p in table ==> table[p].Failed?)
    && (best.Some? ==>
          && (exists p :: p in table && table[p] == Quoted(best.value))
          && forall p :: p in table && table[p].Quoted? ==> table[p].quote.amountOut <= best.value.amountOut)
  }

  /** Every table route is indexed under each of its pools, and the index lists only table routes. */
  ghost predicate RoutesIndexed(table: Table, index: PathIndex) {
    && NoEmptySets(index)
    && (forall p, h :: p in table && h in p ==> h.pool in index && p in index[h.pool])
    && (forall k, p :: k in index && p in index[k] ==> p in table)
  }

  ghost predicate ProbeOk(g: Graph, y: Path, tracked: set<Pool>) { y != [] && Covered(g, y, tracked) }

  ghost predicate AllCovered(g: Graph, table: Table, probes: PathIndex, tracked: set<Pool>) {
    && (forall p :: p in table ==> Covered(g, p, tracked))
    && (forall k, y :: k in probes && y in probes[k] ==> ProbeOk(g, y, tracked))
  }

  lemma UntouchedEntry(q: Quoter, q': Quoter, affected: set<Pool>, amountIn: nat, p: Path, e: Entry)
    requires ChangesOnly(q, q', affected) && EntryTrue(q, amountIn, p, e)
    requires forall h :: h in p ==> h.pool !in affected
    ensures EntryTrue(q', amountIn, p, e)
  {
    forall i, a: nat | 0 <= i < |p| ensures q(p[i], a) == q'(p[i], a) {
      assert p[i] in p;
    }
    RunDependsOnPathPools(q, q', p, amountIn);
  }

  method ListPaths(paths: set<Path>) returns (s: seq<Path>)
    ensures Distinct(s) && (forall p :: p in s <==> p in paths) && (set p | p in s) == paths
  {
    s := [];
    var rest := paths;
    while rest != {}
      invariant rest <= paths
      invariant Distinct(s) && forall p :: p in s <==> p in paths && p !in rest
      decreases rest
    {
      var p :| p in rest;
      assert forall i :: 0 <= i < |s| ==> s[i] in s;
      s := s + [p];
      rest := rest - {p};
    }
  }

  /** `index_route_path`: file the route under each pool it uses. */
  method IndexRoutePath(index0: PathIndex, path: Path) returns (index: PathIndex)
    ensures Grows(index0, index)
    ensures forall k :: k in index <==> k in index0 || k in Pools(path)
    ensures forall k :: k in Pools(path) ==> path in index[k]
    ensures forall k, p :: k in index && p in index[k] ==> p == path || (k in index0 && p in index0[k])
    ensures NoEmptySets(index0) ==> NoEmptySets(index)
  {
    index := index0;
    for i := 0 to |path|
      invariant Grows(index0, index)
      invariant forall k :: k in index <==> k in index0 || k in Pools(path[..i])
      invariant forall k :: k in Pools(path[..i]) ==> path in index[k]
      invariant forall k, p :: k in index && p in index[k] ==> p == path || (k in index0 && p in index0[k])
      invariant NoEmptySets(index0) ==> NoEmptySets(index)
    {
      assert path[..i + 1] == path[..i] + [path[i]];
      assert Pools(path[..i + 1]) == Pools(path[..i]) + {path[i].pool};
      index := AddPath(index, path[i].pool, path);
    }
    assert path[..|path|] == path;
  }

  /** The pools that could stand in for some hop of the path. */
  ghost predicate StandIn(g: Graph, path: Path, k: Pool) {
    exists i, e :: 0 <= i < |path| && HasEdge(g, e) && Parallel(e, path[i]) && e.pool == k
  }

  ghost predicate Holds(index: PathIndex, k: Pool, y: Path) { k in index && y in index[k] }

  /** `e` can take over the `i`-th hop: it is parallel and its pool is not on the path. */
  ghost predicate Replaces(g: Graph, path: Path, i: int, e: Hop) {
    0 <= i < |path| && HasEdge(g, e) && Parallel(e, path[i]) && e.pool !in Pools(path)
  }

  /** `y` is `path` with one hop taken over, seen from either of the two pools concerned. Only hops
      before `n`, and those at `n` by an edge in `taken`, are considered. */
  ghost predicate ReplacedBy(g: Graph, path: Path, n: nat, taken: seq<Hop>, k: Pool, y: Path) {
    exists i, e :: Replaces(g, path, i, e) && (i < n || (i == n && e in taken)) && (k == path[i].pool || k == e.pool) && y == path[i := e]
  }

  ghost predicate Replacement(g: Graph, path: Path, k: Pool, y: Path) {
    exists i, e :: Replaces(g, path, i, e) && (k == path[i].pool || k == e.pool) && y == path[i := e]
  }

  ghost predicate Enlarges(before: PathIndex, after: PathIndex) {
    Grows(before, after) && (NoEmptySets(before) ==> NoEmptySets(after)) && forall k :: k in after ==> k in before || after[k] != {}
  }

  /** The index gains every replacement of `path`, under both pools concerned, and nothing else. */
  ghost predicate ProbesFiled(g: Graph, path: Path, before: PathIndex, after: PathIndex) {
    Enlarges(before, after) && forall k, y :: Holds(after, k, y) <==> Holds(before, k, y) || Replacement(g, path, k, y)
  }

  ghost predicate Filing(g: Graph, path: Path, before: PathIndex, index: PathIndex, n: nat, taken: seq<Hop>) {
    Enlarges(before, index) && forall k, y :: Holds(index, k, y) <==> Holds(before, k, y) || ReplacedBy(g, path, n, taken, k, y)
  }

  lemma FilingBegins(g: Graph, path: Path, before: PathIndex)
    ensures Filing(g, path, before, before, 0, [])
  {
  }

  lemma FilingSkips(g: Graph, path: Path, before: PathIndex, index: PathIndex, n: nat, taken: seq<Hop>, e: Hop)
    requires Filing(g, path, before, index, n, taken) && !Replaces(g, path, n, e)
    ensures Filing(g, path, before, index, n, taken + [e])
  {
    hide Replaces, Enlarges, Holds;
    forall k, y ensures ReplacedBy(g, path, n, taken, k, y) <==> ReplacedBy(g, path, n, taken + [e], k, y) {
      TakenMore(g, path, n, taken, e, k, y);
    }
  }

  /** One more edge considered adds at most its own replacement. */
  lemma TakenMore(g: Graph, path: Path, n: nat, taken: seq<Hop>, e: Hop, k: Pool, y: Path)
    ensures ReplacedBy(g, path, n, taken + [e], k, y) <==>
              ReplacedBy(g, path, n, taken, k, y) || (Replaces(g, path, n, e) && (k == path[n].pool || k == e.pool) && y == path[n := e])
  {
    hide HasEdge, Pools;
  }

  lemma FilingAdds(g: Graph, path: Path, before: PathIndex, index: PathIndex, n: nat, taken: seq<Hop>, e: Hop)
    requires Filing(g, path, before, index, n, taken) && Replaces(g, path, n, e)
    ensures Filing(g, path, before, AddPath(AddPath(index, path[n].pool, path[n := e]), e.pool, path[n := e]), n, taken + [e])
  {
    hide HasEdge, Pools, ReplacedBy, Enlarges, Holds;
    var y0 := path[n := e];
    var mid := AddPath(index, path[n].pool, y0);
    AddedEnlarges(before, index, path[n].pool, y0);
    AddedEnlarges(before, mid, e.pool, y0);
    forall k, y ensures Holds(AddPath(mid, e.pool, y0), k, y) <==> Holds(before, k, y) || ReplacedBy(g, path, n, taken + [e], k, y) {
      TakenMore(g, path, n, taken, e, k, y);
      AddedHolds(index, path[n].pool, y0, k, y);
      AddedHolds(mid, e.pool, y0, k, y);
    }
  }

  lemma AddedEnlarges(before: PathIndex, index: PathIndex, k: Pool, y: Path)
    requires Enlarges(before, index)
    ensures Enlarges(before, AddPath(index, k, y))
  {
    assert y in AddPath(index, k, y)[k];
  }

  lemma AddedHolds(index: PathIndex, k0: Pool, y0: Path, k: Pool, y: Path)
    ensures Holds(AddPath(index, k0, y0), k, y) <==> Holds(index, k, y) || (k == k0 && y == y0)
  {
  }

  lemma FilingMovesOn(g: Graph, path: Path, before: PathIndex, index: PathIndex, n: nat, edges: seq<Hop>)
    requires Filing(g, path, before, index, n, edges) && n < |path|
    requires forall e :: HasEdge(g, e) && e.tokenIn == path[n].tokenIn ==> e in edges
    ensures Filing(g, path, before, index, n + 1, [])
  {
    hide Enlarges, Holds;
    forall k, y ensures ReplacedBy(g, path, n, edges, k, y) <==> ReplacedBy(g, path, n + 1, [], k, y) {
      HopDone(g, path, n, edges, k, y);
    }
  }

  lemma HopDone(g: Graph, path: Path, n: nat, edges: seq<Hop>, k: Pool, y: Path)
    requires n < |path| && forall e :: HasEdge(g, e) && e.tokenIn == path[n].tokenIn ==> e in edges
    ensures ReplacedBy(g, path, n, edges, k, y) <==> ReplacedBy(g, path, n + 1, [], k, y)
  {
    hide HasEdge, Pools;
  }

  lemma FilingEnds(g: Graph, path: Path, before: PathIndex, index: PathIndex)
    requires Filing(g, path, before, index, |path|, [])
    ensures ProbesFiled(g, path, before, index)
  {
    hide Enlarges, Holds, HasEdge, Pools;
    forall k, y ensures ReplacedBy(g, path, |path|, [], k, y) <==> Replacement(g, path, k, y) {
    }
  }

  /** `index_probe_paths_for_route`: for each hop and each parallel pool not already on the path, file
      the exchanged path under both pools. */
  method IndexProbePaths(g: Graph, path: Path, index0: PathIndex) returns (index: PathIndex)
    requires WellFormed(g)
    ensures ProbesFiled(g, path, index0, index)
  {
    hide WellFormed, ProbesFiled, Filing, HasEdge, Pools;
    index := index0;
    FilingBegins(g, path, index0);
    for i := 0 to |path|
      invariant Filing(g, path, index0, index, i, [])
    {
      var hop := path[i];
      var edges := if hop.tokenIn in g then g[hop.tokenIn] else [];
      EdgesFrom(g, hop.tokenIn);
      for j := 0 to |edges|
        invariant Filing(g, path, index0, index, i, edges[..j])
      {
        var e := edges[j];
        assert edges[..j + 1] == edges[..j] + [e];
        if e.tokenOut != hop.tokenOut || e.pool == hop.pool || exists m :: 0 <= m < |path| && m != i && path[m].pool == e.pool {
          NoReplacement(g, path, i, e);
          FilingSkips(g, path, index0, index, i, edges[..j], e);
        } else {
          CanReplace(g, path, i, e);
          FilingAdds(g, path, index0, index, i, edges[..j], e);
          index := AddPath(AddPath(index, hop.pool, path[i := e]), e.pool, path[i := e]);
        }
      }
      assert edges[..|edges|] == edges;
      FilingMovesOn(g, path, index0, index, i, edges);
    }
    FilingEnds(g, path, index0, index);
  }

  lemma NoReplacement(g: Graph, path: Path, i: nat, e: Hop)
    requires i < |path| && (e.tokenOut != path[i].tokenOut || e.pool == path[i].pool || exists m :: 0 <= m < |path| && m != i && path[m].pool == e.pool)
    ensures !Replaces(g, path, i, e)
  {
    hide HasEdge;
    assert forall m :: 0 <= m < |path| ==> path[m] in path;
  }

  lemma CanReplace(g: Graph, path: Path, i: nat, e: Hop)
    requires i < |path| && HasEdge(g, e) && Parallel(e, path[i]) && forall m :: 0 <= m < |path| ==> path[m].pool != e.pool
    ensures Replaces(g, path, i, e)
  {
  }

  /** Afterwards every stand-in pool is on the path or in the index. */
  lemma StandInsFiled(g: Graph, path: Path, before: PathIndex, after: PathIndex, k: Pool)
    requires ProbesFiled(g, path, before, after) && StandIn(g, path, k)
    ensures k in Pools(path) || k in after
  {
    hide HasEdge, Pools, Enlarges;
    var i, e :| 0 <= i < |path| && HasEdge(g, e) && Parallel(e, path[i]) && e.pool == k;
    if k !in Pools(path) {
      assert Replaces(g, path, i, e);
      assert Replacement(g, path, k, path[i := e]);
      assert Holds(after, k, path[i := e]);
    }
  }

  /** A replacement is a probe of the path, filed under a pool of it or under a stand-in. */
  lemma ReplacementIsProbe(g: Graph, path: Path, k: Pool, y: Path)
    requires Replacement(g, path, k, y)
    ensures IsProbe(g, path, y) && (k in Pools(path) || StandIn(g, path, k))
  {
    hide HasEdge;
    var i, e :| Replaces(g, path, i, e) && (k == path[i].pool || k == e.pool) && y == path[i := e];
    assert path[i] in path;
  }

  /** Every replacement of every materialized route is filed. */
  ghost predicate ProbesComplete(g: Graph, table: Table, probes: PathIndex) {
    forall p, k, y :: p in table && Replacement(g, p, k, y) ==> Holds(probes, k, y)
  }

  lemma InsertFiles(g: Graph, table: Table, x: RouteQuote, before: PathIndex, after: PathIndex)
    requires ProbesComplete(g, table, before) && ProbesFiled(g, x.path, before, after)
    ensures ProbesComplete(g, table[x.path := Quoted(x)], after)
  {
    hide Replacement, Enlarges, Holds;
  }

  /** The best is at least every viable replacement, of a route in `table`, that an affected pool is part of. */
  ghost predicate Outruns(g: Graph, table: Table, affected: set<Pool>, q: Quoter, amountIn: nat, best: Option<RouteQuote>) {
    forall p, k, y :: p in table && k in affected && Replacement(g, p, k, y) && QuotePathSpec(q, y, amountIn).Success? ==>
      best.Some? && QuotePathSpec(q, y, amountIn).value.amountOut <= best.value.amountOut
  }

  /** The cached outcomes of the other pools. */
  function Without(cache: QuoteDag.QuoteTable, affected: set<Pool>): QuoteDag.QuoteTable {
    map k | k in cache && k.0.pool !in affected :: cache[k]
  }

  lemma WithoutStaysTrue(q: Quoter, q': Quoter, affected: set<Pool>, cache: QuoteDag.QuoteTable, scope: set<Pool>)
    requires ChangesOnly(q, q', affected) && QuoteDag.CacheTrue(q, cache, scope)
    ensures QuoteDag.CacheTrue(q', Without(cache, affected), scope)
  {
  }

  /** The paths that quote in this pool state. */
  ghost function QuotesUnder(q: Quoter, amountIn: nat, paths: set<Path>): set<Path> {
    set p | p in paths && QuotePathSpec(q, p, amountIn).Success?
  }

  ghost predicate NoneQuotes(q: Quoter, amountIn: nat, paths: set<Path>) {
    forall p :: p in paths ==> QuotePathSpec(q, p, amountIn).Failure?
  }

  lemma NothingQuotes(q: Quoter, amountIn: nat)
    ensures QuotesUnder(q, amountIn, {}) == {} && NoneQuotes(q, amountIn, {} + {})
  {
  }

  lemma CountsTell(q: Quoter, amountIn: nat, a: set<Path>, b: set<Path>)
    ensures NoneQuotes(q, amountIn, a + b) <==> |QuotesUnder(q, amountIn, a)| == 0 && |QuotesUnder(q, amountIn, b)| == 0
  {
    hide QuotePathSpec;
    if NoneQuotes(q, amountIn, a + b) {
      assert QuotesUnder(q, amountIn, a) == {} && QuotesUnder(q, amountIn, b) == {};
    } else {
      var p :| p in a + b && !QuotePathSpec(q, p, amountIn).Failure?;
      assert p in QuotesUnder(q, amountIn, a) || p in QuotesUnder(q, amountIn, b);
    }
  }

  /** A complete report of distinct paths has one quote for each that quotes. */
  lemma CountQuoted(q: Quoter, amountIn: nat, paths: seq<Path>, r: QuoteDag.Report)
    requires QuoteDag.ReportOk(q, paths, amountIn, r) && !r.stopped && Distinct(paths) && QuoteDag.CoversViable(q, amountIn, paths, r.quotes)
    ensures |r.quotes| == |QuotesUnder(q, amountIn, set p | p in paths)|
  {
    hide QuotePathSpec;
    var listed := QuoteDag.QuotePaths(r.quotes);
    OnceEach(paths, listed, QuoteDag.FailurePaths(r.failures));
    DistinctCount(listed);
    forall p ensures p in listed <==> p in paths && QuotePathSpec(q, p, amountIn).Success? {
      if p in listed {
        var i :| 0 <= i < |listed| && listed[i] == p;
        assert r.quotes[i] in r.quotes;
      }
      if p in paths && QuotePathSpec(q, p, amountIn).Success? {
        var x := QuotePathSpec(q, p, amountIn).value;
        var i :| 0 <= i < |r.quotes| && r.quotes[i] == x;
        QuotesItsPath(q, p, amountIn);
        assert listed[i] == p;
      }
    }
    assert (set p | p in listed) == QuotesUnder(q, amountIn, set p | p in paths);
  }

  lemma QuotesItsPath(q: Quoter, p: Path, amountIn: nat)
    requires QuotePathSpec(q, p, amountIn).Success?
    ensures QuotePathSpec(q, p, amountIn).value.path == p
  {
  }

  /** Part of a duplicate-free multiset has no duplicates. */
  lemma OnceEach(paths: seq<Path>, a: seq<Path>, b: seq<Path>)
    requires Distinct(paths) && multiset(a) + multiset(b) == multiset(paths)
    ensures Distinct(a)
  {
    forall i, j | 0 <= i < j < |a| ensures a[i] != a[j] {
      AtMostOnce(paths, a[i]);
      if a[i] == a[j] { CountedTwice(a, i, j); }
    }
  }

  lemma CountedTwice(a: seq<Path>, i: nat, j: nat)
    requires i < j < |a| && a[i] == a[j]
    ensures multiset(a)[a[i]] >= 2
  {
    assert a == a[..j] + a[j..];
    assert a[i] in a[..j] && a[j] in a[j..];
  }

  lemma {:induction false} AtMostOnce(paths: seq<Path>, p: Path)
    requires Distinct(paths)
    ensures multiset(paths)[p] <= 1
  {
    if paths != [] {
      var n := |paths| - 1;
      assert paths == paths[..n] + [paths[n]];
      AtMostOnce(paths[..n], p);
      if p == paths[n] { assert p !in paths[..n]; }
    }
  }

  /** All of `paths` that quote are in the table. */
  ghost predicate Includes(q: Quoter, amountIn: nat, table: Table, paths: set<Path>) {
    forall y :: y in paths && QuotePathSpec(q, y, amountIn).Success? ==> y in table
  }

  lemma RequotedOutrun(g: Graph, t0: Table, probes: PathIndex, affected: set<Pool>, selected: set<Path>, q: Quoter, amountIn: nat, t: Table, best: Option<RouteQuote>)
    requires ProbesComplete(g, t0, probes) && forall k, y :: k in affected && Holds(probes, k, y) ==> y in selected
    requires Includes(q, amountIn, t, selected) && TableTrue(q, amountIn, t) && BestOf(t, best)
    ensures Outruns(g, t0, affected, q, amountIn, best)
  {
    hide Replacement, QuotePathSpec, Holds;
    forall y | y in selected && QuotePathSpec(q, y, amountIn).Success?
      ensures best.Some? && QuotePathSpec(q, y, amountIn).value.amountOut <= best.value.amountOut
    {
      assert EntryTrue(q, amountIn, y, t[y]);
    }
  }

  lemma EdgesFrom(g: Graph, t: Token)
    requires WellFormed(g)
    ensures var edges := if t in g then g[t] else [];
            && (forall j :: 0 <= j < |edges| ==> HasEdge(g, edges[j]) && edges[j].tokenIn == t)
            && (forall e :: HasEdge(g, e) && e.tokenIn == t ==> e in edges)
  {
  }

  /** Standing of an affected pool in the registry. */
  datatype PoolStanding = Usable | Degraded | Missing

  class RouteSearchSession {
    const g: Graph
    const amountIn: nat
    const maxProbes: nat
    var table: Table
    var poolToRoutes: PathIndex
    var probeIndex: PathIndex
    var best: Option<RouteQuote>
    var cache: QuoteDag.QuoteTable

    /** The pools whose changes can reach a materialized or probe path. */
    ghost function Tracked(): set<Pool>
      reads this`poolToRoutes, this`probeIndex
    {
      poolToRoutes.Keys + probeIndex.Keys
    }

    /** The indexes are complete for the routes they hold. */
    ghost predicate Shape()
      reads this`table, this`poolToRoutes, this`probeIndex
    {
      && WellFormed(g)
      && RoutesIndexed(table, poolToRoutes)
      && NoEmptySets(probeIndex)
      && AllCovered(g, table, probeIndex, Tracked())
      && ProbesComplete(g, table, probeIndex)
      && [] !in table
    }

    /** The table, the best route and the reachable part of the cache agree with pool state `q`. */
    ghost predicate Exact(q: Quoter)
      reads this
    {
      && Shape()
      && TableTrue(q, amountIn, table)
      && BestOf(table, best)
      && QuoteDag.CacheTrue(q, cache, Tracked())
    }

    /** Materialize a quoted route: table entry, pool index, probe index. A route over tracked hops
        does not enlarge the tracked set. */
    method InsertQuote(x: RouteQuote)
      requires Shape() && x.path != [] && forall i :: 0 <= i < |x.path| ==> HasEdge(g, x.path[i])
      modifies this`table, this`poolToRoutes, this`probeIndex
      ensures Shape()
      ensures table == old(table)[x.path := Quoted(x)]
      ensures old(Tracked()) <= Tracked()
      ensures Covered(g, x.path, old(Tracked())) ==> Tracked() == old(Tracked())
    {
      hide WellFormed, HasEdge, Pools, ProbesComplete;
      ghost var t0, p0, r0 := table, probeIndex, poolToRoutes;
      var routes := IndexRoutePath(poolToRoutes, x.path);
      var probes := IndexProbePaths(g, x.path, probeIndex);
      table := table[x.path := Quoted(x)];
      poolToRoutes := routes;
      probeIndex := probes;
      InsertCovers(g, t0, x, r0, routes, p0, probes);
      InsertFiles(g, t0, x, p0, probes);
      InsertIndexes(t0, x, r0, routes);
      if Covered(g, x.path, r0.Keys + p0.Keys) {
        InsertTracksNothingNew(g, x.path, r0, routes, p0, probes);
      }
    }

    method InsertQuotes(quotes: seq<RouteQuote>)
      requires Shape() && forall x :: x in quotes ==> x.path != [] && Covered(g, x.path, Tracked())
      modifies this`table, this`poolToRoutes, this`probeIndex
      ensures Shape() && Tracked() == old(Tracked())
      ensures TableUpdated(old(table), quotes, table)
    {
      hide Shape, Covered;
      UpdatedByNone(table);
      for i := 0 to |quotes|
        invariant Shape() && Tracked() == old(Tracked())
        invariant TableUpdated(old(table), quotes[..i], table)
      {
        assert quotes[i] in quotes;
        CoveredEdges(g, quotes[i].path, Tracked());
        UpdatedByOne(old(table), quotes[..i], table, quotes[i]);
        assert quotes[..i + 1] == quotes[..i] + [quotes[i]];
        InsertQuote(quotes[i]);
      }
      assert quotes[..|quotes|] == quotes;
    }

    /** Quote paths against the new pool state through the cache, and materialize the viable ones. */
    method QuoteAndInsert(q: Quoter, paths: seq<Path>, keep: nat -> bool) returns (quoted: nat)
      requires Shape() && QuoteDag.CacheTrue(q, cache, Tracked())
      requires forall p :: p in paths ==> p != [] && Covered(g, p, Tracked())
      modifies this`table, this`poolToRoutes, this`probeIndex, this`cache
      ensures Shape() && Tracked() == old(Tracked()) && QuoteDag.CacheTrue(q, cache, Tracked())
      ensures Requoted(q, amountIn, old(table), paths, forall i :: keep(i), table)
      ensures Distinct(paths) && (forall i :: keep(i)) ==> quoted == |QuotesUnder(q, amountIn, set p | p in paths)|
    {
      hide QuotesUnder, Shape, Covered, QuoteDag.CacheTrue, QuoteDag.ReportOk, Requoted, TableUpdated, QuoteDag.CoversViable;
      forall p | p in paths ensures Pools(p) <= Tracked() {
        CoveredPools(g, p, Tracked());
      }
      var r, requests := QuoteDag.QuotePathList(q, paths, amountIn, cache, keep, _ => true, Tracked());
      cache := r.cache;
      ReportPaths(q, paths, amountIn, r);
      ghost var t0 := table;
      InsertQuotes(r.quotes);
      if forall i :: keep(i) {
        QuoteDag.ReportCovers(q, paths, amountIn, r);
        if Distinct(paths) { CountQuoted(q, amountIn, paths, r); }
      }
      UpdateRequotes(q, amountIn, t0, paths, r.quotes, forall i :: keep(i), table);
      quoted := |r.quotes|;
    }

    /** Mark every path failed before its fresh quote, if any, replaces the mark. */
    method MarkFailed(paths: seq<Path>)
      requires Shape() && forall p :: p in paths ==> p in table
      modifies this`table
      ensures Shape() && table.Keys == old(table).Keys
      ensures forall p :: p in table ==> table[p] == if p in paths then Failed else old(table)[p]
    {
      hide WellFormed, HasEdge;
      for i := 0 to |paths|
        invariant table.Keys == old(table).Keys
        invariant forall p :: p in table ==> table[p] == if p in paths[..i] then Failed else old(table)[p]
      {
        assert paths[..i + 1] == paths[..i] + [paths[i]];
        assert paths[i] in paths;
        table := table[paths[i] := Failed];
      }
      assert paths[..|paths|] == paths;
      assert RoutesIndexed(table, poolToRoutes);
      assert AllCovered(g, table, probeIndex, Tracked());
    }

    method BestFromTable() returns (b: Option<RouteQuote>)
      ensures BestOf(table, b)
    {
      b := None;
      var rest := table.Keys;
      while rest != {}
        invariant rest <= table.Keys
        invariant b.None? ==> forall p :: p in table && p !in rest ==> table[p].Failed?
        invariant b.Some? ==> exists p :: p in table && table[p] == Quoted(b.value)
        invariant b.Some? ==> forall p :: p in table && p !in rest && table[p].Quoted? ==> table[p].quote.amountOut <= b.value.amountOut
        decreases rest
      {
        var p :| p in rest;
        if table[p].Quoted? && (b.None? || table[p].quote.amountOut >= b.value.amountOut) {
          b := Some(table[p].quote);
        }
        rest := rest - {p};
      }
    }

    /** Invalidate, requote the materialized routes, then try the probes. */
    method Requote(ghost q: Quoter, q': Quoter, affected: set<Pool>, materialized: set<Path>, probes: set<Path>, keep: nat -> bool)
      returns (requoted: nat, probed: nat)
      requires Exact(q) && ChangesOnly(q, q', affected)
      requires materialized == Materialized(affected) && probes == Probes(affected)
      modifies this`table, this`poolToRoutes, this`probeIndex, this`cache
      ensures Shape() && Tracked() == old(Tracked()) && QuoteDag.CacheTrue(q', cache, Tracked())
      ensures (forall i :: keep(i)) ==> TableTrue(q', amountIn, table) && Includes(q', amountIn, table, materialized + probes)
      ensures (forall i :: keep(i)) ==> requoted == |QuotesUnder(q', amountIn, materialized)| && probed == |QuotesUnder(q', amountIn, probes)|
    {
      hide Shape, RouteSearchSession.Exact, Covered, QuoteDag.CacheTrue, EntryTrue, TableTrue, ChangesOnly, Distinct, QuotesUnder, Requoted, Includes,
        Materialized, Probes, Without;
      ghost var t0 := table;
      Selection(q, affected);
      WithoutStaysTrue(q, q', affected, cache, Tracked());
      cache := Without(cache, affected);
      var routes := ListPaths(materialized);
      MarkFailed(routes);
      ghost var t1 := table;
      requoted := QuoteAndInsert(q', routes, keep);
      ghost var t2 := table;
      var others := ListPaths(probes);
      probed := QuoteAndInsert(q', others, keep);
      if forall i :: keep(i) {
        RequoteIsTrue(q, q', amountIn, affected, t0, t1, t2, table, routes, others);
        RequoteIncludes(q', amountIn, t1, t2, table, routes, others, materialized + probes);
      }
    }

    lemma Selection(q: Quoter, affected: set<Pool>)
      requires Exact(q)
      ensures Shape() && TableTrue(q, amountIn, table) && QuoteDag.CacheTrue(q, cache, Tracked())
      ensures forall p :: p in Materialized(affected) ==> p in table && p != [] && Covered(g, p, Tracked())
      ensures forall p :: p in Probes(affected) ==> p !in Materialized(affected) && p != [] && Covered(g, p, Tracked())
      ensures forall p, h :: p in table && p !in Materialized(affected) && h in p ==> h.pool !in affected
    {
      hide Shape, Materialized, Probes, Covered, TableTrue, QuoteDag.CacheTrue;
      SelectionFacts(affected);
    }

    /** Selected paths are covered, and what is not selected avoids the affected pools. */
    lemma SelectionFacts(affected: set<Pool>)
      requires Shape()
      ensures forall p :: p in Materialized(affected) ==> p in table && p != [] && Covered(g, p, Tracked())
      ensures forall p :: p in Probes(affected) ==> p !in Materialized(affected) && ProbeOk(g, p, Tracked())
      ensures forall p, h :: p in table && p !in Materialized(affected) && h in p ==> h.pool !in affected
      ensures forall k, p :: k in affected && k in poolToRoutes && p in poolToRoutes[k] ==> p in Materialized(affected)
      ensures forall k, p :: k in affected && k in probeIndex && p in probeIndex[k] ==> p in Materialized(affected) + Probes(affected)
    {
    }

    /** With nothing selected, no affected pool is tracked: neither the table nor any path a later
        refresh can select depends on it, so the skipped invalidation is harmless. */
    lemma OutOfReach(q: Quoter, q': Quoter, affected: set<Pool>)
      requires Exact(q) && ChangesOnly(q, q', affected)
      requires Materialized(affected) == {} && Probes(affected) == {}
      ensures affected !! Tracked() && Exact(q')
    {
      SelectionFacts(affected);
      forall p | p in table ensures EntryTrue(q', amountIn, p, table[p]) {
        UntouchedEntry(q, q', affected, amountIn, p, table[p]);
      }
    }

    lemma ShapeOf(q: Quoter)
      requires Exact(q)
      ensures Shape()
    {
    }

    lemma ExactNow(q: Quoter)
      requires Shape() && TableTrue(q, amountIn, table) && BestOf(table, best) && QuoteDag.CacheTrue(q, cache, Tracked())
      ensures Exact(q)
    {
    }

    lemma NothingChanged(q: Quoter, q': Quoter)
      requires Exact(q) && ChangesOnly(q, q', {})
      ensures Exact(q') && Probes({}) == {} && Materialized({}) == {}
    {
      forall p | p in table ensures EntryTrue(q', amountIn, p, table[p]) {
        UntouchedEntry(q, q', {}, amountIn, p, table[p]);
      }
    }

    /** Whatever is filed under an affected pool is selected. */
    lemma Selects(affected: set<Pool>)
      requires Shape()
      ensures ProbesComplete(g, table, probeIndex)
      ensures forall k, y :: k in affected && Holds(probeIndex, k, y) ==> y in Materialized(affected) + Probes(affected)
    {
    }

    lemma NothingSelected(q: Quoter, affected: set<Pool>)
      requires Exact(q) && Materialized(affected) + Probes(affected) == {}
      ensures Outruns(g, table, affected, q, amountIn, best)
    {
      hide Shape, Materialized, Probes, TableTrue, BestOf, ProbesComplete;
      ShapeOf(q);
      Selects(affected);
      RequotedOutrun(g, table, probeIndex, affected, {}, q, amountIn, table, best);
    }

    /** The table routes that use an affected pool. */
    function Materialized(affected: set<Pool>): set<Path>
      reads this`poolToRoutes
    {
      set k, p | k in affected && k in poolToRoutes && p in poolToRoutes[k] :: p
    }

    /** The probe paths filed under an affected pool and not already in the table selection. */
    function Probes(affected: set<Pool>): set<Path>
      reads this`poolToRoutes, this`probeIndex
    {
      (set k, p | k in affected && k in probeIndex && p in probeIndex[k] :: p) - Materialized(affected)
    }

    /** Whether the refresh has to give up and ask for a full recompute. */
    ghost predicate MustRecompute(affected: set<Pool>, standing: Pool -> PoolStanding, early: bool)
      reads this`poolToRoutes, this`probeIndex
    {
      early || (exists k :: k in affected && standing(k) != Usable) || |Probes(affected)| > maxProbes
    }

    /** Bring the session from pool state `q` to pool state `q'`, which differs at most on the
        affected pools. Unless it asks for a recompute (and then it changed nothing), a session whose
        observer never stops is exact for the new state. */
    method RefreshAffected(ghost q: Quoter, q': Quoter, affected: set<Pool>, standing: Pool -> PoolStanding, early: bool,
                           control: nat -> bool) returns (status: Status, requoted: nat, probed: nat)
      requires Exact(q) && ChangesOnly(q, q', affected)
      modifies this
      ensures Shape() && Tracked() == old(Tracked())
      ensures status == RecomputeRequired ==>
                table == old(table) && best == old(best) && cache == old(cache) && poolToRoutes == old(poolToRoutes) && probeIndex == old(probeIndex)
      ensures status == RecomputeRequired ==> Exact(q)
      ensures (forall i :: control(i)) ==> (status == RecomputeRequired <==> old(MustRecompute(affected, standing, early)))
      ensures (forall i :: control(i)) && status != RecomputeRequired ==> Exact(q') && Outruns(g, old(table), affected, q', amountIn, best)
      ensures status != Updated ==> best == old(best)
      ensures (forall i :: control(i)) && status != RecomputeRequired ==>
                && requoted == |QuotesUnder(q', amountIn, old(Materialized(affected)))| && probed == |QuotesUnder(q', amountIn, old(Probes(affected)))|
                && (status == Unchanged <==> best == old(best) && NoneQuotes(q', amountIn, old(Materialized(affected) + Probes(affected))))
    {
      hide Shape, RouteSearchSession.Exact, ChangesOnly, Materialized, Probes, QuotesUnder, NoneQuotes;
      requoted, probed := 0, 0;
      ShapeOf(q);
      if !control(0) {
        status := if early then RecomputeRequired else Unchanged;
        return;
      }
      if early {
        status := RecomputeRequired;
        return;
      }
      if affected == {} {
        NothingChanged(q, q');
        NothingSelected(q', affected);
        NothingQuotes(q', amountIn);
        status := Unchanged;
        return;
      }
      if exists k :: k in affected && standing(k) != Usable {
        status := RecomputeRequired;
        return;
      }
      var materialized, probes := Materialized(affected), Probes(affected);
      if materialized == {} && probes == {} {
        OutOfReach(q, q', affected);
        NothingSelected(q', affected);
        NothingQuotes(q', amountIn);
        status := Unchanged;
        return;
      }
      if |probes| > maxProbes {
        status := RecomputeRequired;
        return;
      }
      var before := best;
      ghost var t0, p0 := table, probeIndex;
      Selects(affected);
      CountsTell(q', amountIn, materialized, probes);
      requoted, probed := Requote(q, q', affected, materialized, probes, (i: nat) => control(i + 1));
      best := BestFromTable();
      if forall i :: control(i) {
        ExactNow(q');
        RequotedOutrun(g, t0, p0, affected, materialized + probes, q', amountIn, table, best);
      }
      status := if requoted == 0 && probed == 0 && best == before then Unchanged else Updated;
    }

    constructor (g: Graph, amountIn: nat, maxProbes: nat)
      requires WellFormed(g)
      ensures this.g == g && this.amountIn == amountIn && this.maxProbes == maxProbes
      ensures Shape() && table == map[] && best.None? && cache == map[]
    {
      this.g, this.amountIn, this.maxProbes := g, amountIn, maxProbes;
      table, poolToRoutes, probeIndex, best, cache := map[], map[], map[], None, map[];
    }
  }

  lemma InsertIndexes(table: Table, x: RouteQuote, before: PathIndex, after: PathIndex)
    requires RoutesIndexed(table, before) && Grows(before, after) && NoEmptySets(after)
    requires forall k :: k in Pools(x.path) ==> k in after && x.path in after[k]
    requires forall k, p :: k in after && p in after[k] ==> p == x.path || (k in before && p in before[k])
    ensures RoutesIndexed(table[x.path := Quoted(x)], after)
  {
  }

  lemma InsertCovers(g: Graph, table: Table, x: RouteQuote, r0: PathIndex, r1: PathIndex, p0: PathIndex, p1: PathIndex)
    requires AllCovered(g, table, p0, r0.Keys + p0.Keys) && Grows(r0, r1) && ProbesFiled(g, x.path, p0, p1)
    requires forall i :: 0 <= i < |x.path| ==> HasEdge(g, x.path[i])
    requires forall k :: k in Pools(x.path) ==> k in r1
    ensures AllCovered(g, table[x.path := Quoted(x)], p1, r1.Keys + p1.Keys)
  {
    hide HasEdge, Pools, Replacement, IsProbe;
    var old_, new_ := r0.Keys + p0.Keys, r1.Keys + p1.Keys;
    assert old_ <= new_;
    assert Covered(g, x.path, new_) by {
      forall i | 0 <= i < |x.path| ensures HopCovered(g, x.path[i], new_) {
        forall e | HasEdge(g, e) && Parallel(e, x.path[i]) ensures e.pool in new_ {
          assert StandIn(g, x.path, e.pool);
          StandInsFiled(g, x.path, p0, p1, e.pool);
        }
      }
    }
    forall p: Path | Covered(g, p, old_) ensures Covered(g, p, new_) {
      CoverageGrows(g, p, old_, new_);
    }
    forall k, y | k in p1 && y in p1[k] ensures ProbeOk(g, y, new_) {
      assert Holds(p1, k, y);
      if Holds(p0, k, y) {
        assert ProbeOk(g, y, old_);
      } else {
        ReplacementIsProbe(g, x.path, k, y);
        ProbesStayCovered(g, x.path, y, new_);
      }
    }
  }

  lemma CoverageGrows(g: Graph, p: Path, small: set<Pool>, big: set<Pool>)
    requires Covered(g, p, small) && small <= big
    ensures Covered(g, p, big)
  {
  }

  lemma InsertTracksNothingNew(g: Graph, path: Path, r0: PathIndex, r1: PathIndex, p0: PathIndex, p1: PathIndex)
    requires Covered(g, path, r0.Keys + p0.Keys) && ProbesFiled(g, path, p0, p1) && Grows(r0, r1)
    requires forall k :: k in r1 <==> k in r0 || k in Pools(path)
    ensures r1.Keys + p1.Keys == r0.Keys + p0.Keys
  {
    hide HasEdge, Replacement;
    CoveredPools(g, path, r0.Keys + p0.Keys);
    forall k | k in p1 && k !in p0 ensures k in r0.Keys + p0.Keys {
      var y :| y in p1[k];
      assert Holds(p1, k, y);
      ReplacementIsProbe(g, path, k, y);
    }
  }

  // ---- how quoting a list of paths changes the table ----

  ghost predicate HasQuote(quotes: seq<RouteQuote>, p: Path) {
    exists x :: x in quotes && x.path == p
  }

  ghost predicate TableUpdated(t0: Table, quotes: seq<RouteQuote>, t1: Table) {
    && (forall p :: p in t1 <==> p in t0 || HasQuote(quotes, p))
    && (forall p :: p in t1 && !HasQuote(quotes, p) ==> t1[p] == t0[p])
    && (forall p :: p in t1 && HasQuote(quotes, p) ==> t1[p].Quoted? && t1[p].quote in quotes && t1[p].quote.path == p)
  }

  lemma UpdatedByNone(t: Table)
    ensures TableUpdated(t, [], t)
  {
  }

  lemma UpdatedByOne(t0: Table, quotes: seq<RouteQuote>, t1: Table, x: RouteQuote)
    requires TableUpdated(t0, quotes, t1)
    ensures TableUpdated(t0, quotes + [x], t1[x.path := Quoted(x)])
  {
  }

  lemma CoveredEdges(g: Graph, p: Path, tracked: set<Pool>)
    requires Covered(g, p, tracked)
    ensures forall i :: 0 <= i < |p| ==> HasEdge(g, p[i])
  {
  }

  /** The listed paths that quote are materialized with that quote; nothing else changes. */
  ghost predicate Requoted(q: Quoter, amountIn: nat, t0: Table, paths: seq<Path>, complete: bool, t1: Table) {
    && (forall p :: p in t0 ==> p in t1)
    && (forall p :: p in t1 ==> p in t0 || (p in paths && QuotePathSpec(q, p, amountIn).Success?))
    && (forall p :: p in t1 && p in t0 && (p !in paths || QuotePathSpec(q, p, amountIn).Failure?) ==> t1[p] == t0[p])
    && (complete ==> forall p :: p in paths && QuotePathSpec(q, p, amountIn).Success? ==>
          p in t1 && t1[p] == Quoted(QuotePathSpec(q, p, amountIn).value))
  }

  lemma ReportPaths(q: Quoter, paths: seq<Path>, amountIn: nat, r: QuoteDag.Report)
    requires QuoteDag.ReportOk(q, paths, amountIn, r)
    ensures forall x :: x in r.quotes ==> x.path in paths && QuotePathSpec(q, x.path, amountIn) == Success(x)
  {
  }

  lemma UpdateRequotes(q: Quoter, amountIn: nat, t0: Table, paths: seq<Path>, quotes: seq<RouteQuote>, complete: bool, t1: Table)
    requires TableUpdated(t0, quotes, t1)
    requires forall x :: x in quotes ==> x.path in paths && QuotePathSpec(q, x.path, amountIn) == Success(x)
    requires complete ==> QuoteDag.CoversViable(q, amountIn, paths, quotes)
    ensures Requoted(q, amountIn, t0, paths, complete, t1)
  {
  }

  /** Requoting the selection, with everything selected that touches an affected pool, makes the
      whole table true of the new state. */
  lemma RequoteIsTrue(q: Quoter, q': Quoter, amountIn: nat, affected: set<Pool>, t0: Table, t1: Table, t2: Table, t3: Table,
                      routes: seq<Path>, others: seq<Path>)
    requires TableTrue(q, amountIn, t0) && ChangesOnly(q, q', affected)
    requires forall p, h :: p in t0 && p !in routes && h in p ==> h.pool !in affected
    requires forall p :: p in others ==> p !in routes
    requires t1.Keys == t0.Keys && forall p :: p in t1 ==> t1[p] == if p in routes then Failed else t0[p]
    requires Requoted(q', amountIn, t1, routes, true, t2) && Requoted(q', amountIn, t2, others, true, t3)
    requires forall p :: p in routes ==> p in t0
    ensures TableTrue(q', amountIn, t3)
  {
    hide QuotePathSpec, ChangesOnly;
    forall p | p in t3 ensures EntryTrue(q', amountIn, p, t3[p]) {
      if p in routes {
        assert t3[p] == t2[p];
      } else if p in others && QuotePathSpec(q', p, amountIn).Success? {
        assert t3[p] == Quoted(QuotePathSpec(q', p, amountIn).value);
      } else {
        assert t3[p] == t2[p] == t1[p] == t0[p];
        UntouchedEntry(q, q', affected, amountIn, p, t0[p]);
      }
    }
  }

  lemma RequoteIncludes(q: Quoter, amountIn: nat, t1: Table, t2: Table, t3: Table, routes: seq<Path>, others: seq<Path>, selected: set<Path>)
    requires Requoted(q, amountIn, t1, routes, true, t2) && Requoted(q, amountIn, t2, others, true, t3)
    requires forall p :: p in routes ==> p in t1
    requires forall p :: p in selected ==> p in routes || p in others
    ensures Includes(q, amountIn, t3, selected)
  {
    hide QuotePathSpec;
  }

  // ---- a session's life ----

  /** A viable route over edges of the graph, with its true quote. */
  ghost predicate Viable(g: Graph, q: Quoter, amountIn: nat, x: RouteQuote) {
    QuotePathSpec(q, x.path, amountIn) == Success(x) && forall i :: 0 <= i < |x.path| ==> HasEdge(g, x.path[i])
  }

  /** File the quotes, the best and the cache of a finished streamed search. The best is one of the
      quotes, so filing them files it too. */
  method SeedSession(g: Graph, q: Quoter, amountIn: nat, maxProbes: nat, quotes: seq<RouteQuote>, best: Option<RouteQuote>,
                           cache: QuoteDag.QuoteTable) returns (s: RouteSearchSession)
    requires WellFormed(g) && (forall x :: x in quotes ==> Viable(g, q, amountIn, x)) && Ranking.LargestOf(quotes, best)
    requires forall k :: k in cache ==> cache[k] == q(k.0, k.1)
    ensures fresh(s) && s.g == g && s.amountIn == amountIn && s.Exact(q) && s.best == best && TableUpdated(map[], quotes, s.table)
  {
    hide QuotePathSpec, WellFormed, HasEdge, RouteSearchSession.Shape, RouteSearchSession.Exact, TableUpdated, TableTrue, BestOf, Ranking.LargestOf, QuoteDag.CacheTrue;
    s := new RouteSearchSession(g, amountIn, maxProbes);
    UpdatedByNone(s.table);
    for i := 0 to |quotes|
      invariant s.Shape() && TableUpdated(map[], quotes[..i], s.table) && s.cache == map[]
    {
      assert quotes[i] in quotes && quotes[..i + 1] == quotes[..i] + [quotes[i]];
      assert quotes[i].path != [] by { EmptyNeverViable(q, amountIn, quotes[i]); }
      UpdatedByOne(map[], quotes[..i], s.table, quotes[i]);
      s.InsertQuote(quotes[i]);
    }
    assert quotes[..|quotes|] == quotes;
    s.best := best;
    s.cache := cache;
    FreshTableTrue(q, amountIn, quotes, s.table, best);
    TrueEverywhere(q, cache, s.Tracked());
    s.ExactNow(q);
  }

  lemma TrueEverywhere(q: Quoter, cache: QuoteDag.QuoteTable, scope: set<Pool>)
    requires forall k :: k in cache ==> cache[k] == q(k.0, k.1)
    ensures QuoteDag.CacheTrue(q, cache, scope)
  {
  }

  lemma EmptyNeverViable(q: Quoter, amountIn: nat, x: RouteQuote)
    requires QuotePathSpec(q, x.path, amountIn) == Success(x)
    ensures x.path != []
  {
  }

  lemma FreshTableTrue(q: Quoter, amountIn: nat, quotes: seq<RouteQuote>, table: Table, best: Option<RouteQuote>)
    requires TableUpdated(map[], quotes, table) && Ranking.LargestOf(quotes, best)
    requires forall x :: x in quotes ==> QuotePathSpec(q, x.path, amountIn) == Success(x)
    ensures TableTrue(q, amountIn, table) && BestOf(table, best)
  {
    hide QuotePathSpec;
    if best.Some? {
      assert HasQuote(quotes, best.value.path);
      assert table[best.value.path] == Quoted(best.value);
    } else {
      assert forall p :: !HasQuote(quotes, p);
    }
  }

  const DEFAULT_INCREMENTAL_PROBE_LIMIT := 256

  /** Stream the request, then keep its quotes, its best and its cache as a session. */
  method StartRouteSession(q: PathEnumeration.Query, f: Quoter, amountIn: nat, config: StreamState.Config, control: nat -> bool, run: StreamSearch.HeuristicRun)
    returns (s: Result<RouteSearchSession, StreamSearch.StreamError>, finality: Option<StreamState.Finality>)
    requires WellFormed(q.g) && !q.revisit && config.topK > 0 && config.workers > 0
    requires StreamSearch.AllTrue(q, f, amountIn, run.quotes) && (q.cfg.maxCandidates.None? ==> !run.capped) && StreamSearch.TrueTable(f, run.table)
    ensures s.Success? <==> finality.Some?
    ensures s.Failure? && s.error.Rejected? ==> StreamSearch.Refused(q, s.error.error)
    ensures s.Failure? && !s.error.Rejected? && config.completion == StreamState.ExhaustiveCompletion && q.cfg.maxCandidates.None? ==> StreamSearch.NothingViable(q, f, amountIn)
    ensures StreamSearch.Answerable(q, f, amountIn, config, control, (i: nat) => true) ==>
              s.Success? && finality == Some(StreamState.ExhaustiveDone) && s.value.best.Some? && StreamSearch.IsMaximum(q, f, amountIn, s.value.best.value)
    ensures s.Success? && StreamSearch.NeverStopped(config, control, (i: nat) => true) ==> forall x :: x in run.quotes ==> x.path in s.value.table
    ensures s.Success? ==> fresh(s.value) && s.value.g == q.g && s.value.amountIn == amountIn && s.value.Exact(f)
    ensures s.Success? && finality == Some(StreamState.ExhaustiveDone) && q.cfg.maxCandidates.None? ==>
              s.value.best.Some? && StreamSearch.IsMaximum(q, f, amountIn, s.value.best.value)
  {
    hide QuotePathSpec, WellFormed, PathEnumeration.Query.Admissible, StreamSearch.TrueQuote, StreamSearch.IsMaximum, StreamState.Disciplined, RouteSearchSession.Exact;
    var poll := (i: nat) => true;
    EmitAllAnswers(q, f, amountIn, config, control, poll);
    var r, events, quotes, table := StreamSearch.StreamRoutes(q, f, amountIn, config.(emitAll := true), control, poll, run);
    if r.Failure? { return Failure(r.error), None; }
    QuotesAreViable(q, f, amountIn, quotes);
    AllFiled(run.quotes, quotes);
    var session := SeedSession(q.g, f, amountIn, DEFAULT_INCREMENTAL_PROBE_LIMIT, quotes, r.value.best, table);
    return Success(session), Some(r.value.finality);
  }

  lemma AllFiled(first: seq<RouteQuote>, quotes: seq<RouteQuote>)
    ensures first <= quotes ==> forall x :: x in first ==> HasQuote(quotes, x.path)
  {
    if first <= quotes {
      forall x | x in first ensures HasQuote(quotes, x.path) { assert x in quotes; }
    }
  }

  lemma EmitAllAnswers(q: PathEnumeration.Query, f: Quoter, amountIn: nat, config: StreamState.Config, control: nat -> bool, poll: nat -> bool)
    requires forall i :: poll(i)
    ensures StreamSearch.NeverStopped(config, control, (i: nat) => true) ==> StreamSearch.NeverStopped(config.(emitAll := true), control, poll)
    ensures StreamSearch.Answerable(q, f, amountIn, config, control, (i: nat) => true) ==> StreamSearch.Answerable(q, f, amountIn, config.(emitAll := true), control, poll)
  {
  }

  lemma QuotesAreViable(q: PathEnumeration.Query, f: Quoter, amountIn: nat, quotes: seq<RouteQuote>)
    requires StreamSearch.AllTrue(q, f, amountIn, quotes)
    ensures forall x :: x in quotes ==> Viable(q.g, f, amountIn, x)
  {
    hide QuotePathSpec, HasEdge;
    forall x | x in quotes ensures Viable(q.g, f, amountIn, x) {
      assert StreamSearch.TrueQuote(q, f, amountIn, x);
    }
  }

  /** One batch of pool changes: the state after it, the pools it names, how they stand in the
      registry, and whether something else already asks for a recompute. */
  datatype Update = Update(truth: Quoter, affected: set<Pool>, standing: Pool -> PoolStanding, early: bool)

  /** The pool state before the `n`-th batch. */
  function StateAt(q: Quoter, updates: seq<Update>, n: nat): Quoter
    requires n <= |updates|
  {
    if n == 0 then q else updates[n - 1].truth
  }

  /** Every batch names all the pools it changes. */
  ghost predicate Names(q: Quoter, updates: seq<Update>) {
    forall n :: 0 <= n < |updates| ==> ChangesOnly(StateAt(q, updates, n), updates[n].truth, updates[n].affected)
  }

  lemma FirstState(q: Quoter, updates: seq<Update>)
    ensures StateAt(q, updates, 0) == q
  {
  }

  lemma NextState(q: Quoter, updates: seq<Update>, n: nat)
    requires n < |updates|
    ensures StateAt(q, updates, n + 1) == updates[n].truth
  {
  }

  /** Whenever the best changed from one refresh to the next, the refresh said so. */
  ghost predicate Announces(told: seq<Status>, bests: seq<Option<RouteQuote>>) {
    && |bests| == |told| + 1
    && forall n :: 0 <= n < |told| ==> told[n] != RecomputeRequired && (told[n] == Unchanged ==> bests[n + 1] == bests[n])
  }

  lemma NothingTold(best: Option<RouteQuote>)
    ensures Announces([], [best])
  {
  }

  lemma ToldMore(told: seq<Status>, bests: seq<Option<RouteQuote>>, status: Status, best: Option<RouteQuote>)
    requires Announces(told, bests) && status != RecomputeRequired && (status == Unchanged ==> best == bests[|told|])
    ensures Announces(told + [status], bests + [best])
  {
  }

  /** Any number of fully named batches: the session is exact after each, up to the first that must be
      answered by a recompute, which it leaves alone. */
  method Follow(s: RouteSearchSession, q: Quoter, updates: seq<Update>) returns (applied: nat, told: seq<Status>, bests: seq<Option<RouteQuote>>)
    requires s.Exact(q) && Names(q, updates)
    modifies s
    ensures applied <= |updates| && s.Exact(StateAt(q, updates, applied))
    ensures applied < |updates| ==> s.MustRecompute(updates[applied].affected, updates[applied].standing, updates[applied].early)
    ensures |told| == applied && Announces(told, bests) && bests[0] == old(s.best) && bests[applied] == s.best
  {
    hide Announces, StateAt, RouteSearchSession.Exact, RouteSearchSession.MustRecompute, ChangesOnly;
    applied, told, bests := 0, [], [s.best];
    NothingTold(s.best);
    FirstState(q, updates);
    while applied < |updates|
      invariant applied <= |updates| && s.Exact(StateAt(q, updates, applied))
      invariant |told| == applied && |bests| == applied + 1 && Announces(told, bests) && bests[0] == old(s.best) && bests[applied] == s.best
    {
      var u := updates[applied];
      NextState(q, updates, applied);
      var status, _, _ := s.RefreshAffected(StateAt(q, updates, applied), u.truth, u.affected, u.standing, u.early, _ => true);
      if status == RecomputeRequired { return; }
      ToldMore(told, bests, status, s.best);
      applied, told, bests := applied + 1, told + [status], bests + [s.best];
    }
  }
}
