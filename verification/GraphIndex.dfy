/** The request-path counters of the sidecar, maintained from deltas: they must equal a scan of the
    graph the deltas lead to. */
module GraphIndexes {
  import opened Routing
  import opened PoolTokens
  import opened TokenGraph
  import opened AmmGraphs
  import ParallelPools
  import Liquidity
  import opened LiveGraph

  datatype GraphIndexError =
    | VersionExhausted | NonContiguous | IncoherentPool | EdgeCountOverflow | TokenPoolCountOverflow

  type PoolTable = map<Pool, seq<Token>>

  // ---- what the counters count ----

  ghost function PoolsWith(table: PoolTable, t: Token): set<Pool> { set p | p in table && t in table[p] }

  /** Directed edges of the given pools. */
  ghost function EdgesOf(table: PoolTable, pools: set<Pool>): nat
    requires pools <= table.Keys
  {
    if pools == {} then 0
    else
      var p :| p in pools;
      DirectedEdges(|table[p]|) + EdgesOf(table, pools - {p})
  }

  /** The sum does not depend on the order in which pools are taken. */
  lemma {:induction false} EdgesWithout(table: PoolTable, pools: set<Pool>, q: Pool)
    requires pools <= table.Keys && q in pools
    ensures EdgesOf(table, pools) == DirectedEdges(|table[q]|) + EdgesOf(table, pools - {q})
  {
    var p :| p in pools && EdgesOf(table, pools) == DirectedEdges(|table[p]|) + EdgesOf(table, pools - {p});
    if p != q {
      EdgesWithout(table, pools - {p}, q);
      EdgesWithout(table, pools - {q}, p);
      assert pools - {p} - {q} == pools - {q} - {p};
    }
  }

  lemma {:induction false} EdgesFrame(a: PoolTable, b: PoolTable, pools: set<Pool>)
    requires pools <= a.Keys && pools <= b.Keys && forall p :: p in pools ==> a[p] == b[p]
    ensures EdgesOf(a, pools) == EdgesOf(b, pools)
  {
    if pools != {} {
      var p :| p in pools;
      EdgesWithout(a, pools, p);
      EdgesWithout(b, pools, p);
      EdgesFrame(a, b, pools - {p});
    }
  }

  ghost function TotalEdges(table: PoolTable): nat { EdgesOf(table, table.Keys) }

  lemma TotalAfterRemove(table: PoolTable, p: Pool)
    requires p in table
    ensures TotalEdges(table) == DirectedEdges(|table[p]|) + TotalEdges(table - {p})
  {
    EdgesWithout(table, table.Keys, p);
    assert (table - {p}).Keys == table.Keys - {p};
    EdgesFrame(table, table - {p}, table.Keys - {p});
  }

  lemma TotalAfterAdd(table: PoolTable, p: Pool, tokens: seq<Token>)
    requires p !in table
    ensures TotalEdges(table[p := tokens]) == DirectedEdges(|tokens|) + TotalEdges(table)
  {
    TotalAfterRemove(table[p := tokens], p);
    assert table[p := tokens] - {p} == table;
  }

  lemma CountAfterRemove(table: PoolTable, p: Pool, t: Token)
    requires p in table
    ensures |PoolsWith(table, t)| == |PoolsWith(table - {p}, t)| + (if t in table[p] then 1 else 0)
  {
    if t in table[p] {
      assert PoolsWith(table, t) == PoolsWith(table - {p}, t) + {p};
    } else {
      assert PoolsWith(table, t) == PoolsWith(table - {p}, t);
    }
  }

  lemma CountAfterAdd(table: PoolTable, p: Pool, tokens: seq<Token>, t: Token)
    requires p !in table
    ensures |PoolsWith(table[p := tokens], t)| == |PoolsWith(table, t)| + (if t in tokens then 1 else 0)
  {
    CountAfterRemove(table[p := tokens], p, t);
    assert table[p := tokens] - {p} == table;
  }

  // ---- what a delta says ----

  function Canonical(o: Option<IndexedPool>): Option<seq<Token>> {
    if o.None? then None else Some(Normalize(o.value.tokens))
  }

  /** The table after the changes, in order. */
  function Changed(table: PoolTable, changes: seq<PoolDelta>): PoolTable {
    if changes == [] then table
    else
      var c := changes[|changes| - 1];
      Applied(Changed(table, changes[..|changes| - 1]), c.pool, Canonical(c.after))
  }

  /** Every change starts from what the changes before it left. */
  predicate Fits(table: PoolTable, changes: seq<PoolDelta>) {
    changes == [] ||
    (var c := changes[|changes| - 1];
     var init := changes[..|changes| - 1];
     Fits(table, init) && Find(Changed(table, init), c.pool) == Canonical(c.before))
  }

  /** Counts with staged values in front of the committed ones. */
  function CountAt(counts: map<Token, nat>, staged: map<Token, nat>, t: Token): nat {
    if t in staged then staged[t] else if t in counts then counts[t] else 0
  }

  ghost predicate CountsMatch(counts: map<Token, nat>, staged: map<Token, nat>, table: PoolTable) {
    forall t :: CountAt(counts, staged, t) == |PoolsWith(table, t)|
  }

  /** Tokens are counted when some pool holds them, and no zero is kept. */
  ghost predicate CountersOk(counts: map<Token, nat>, table: PoolTable) {
    CountsMatch(counts, map[], table) && forall t :: t in counts ==> counts[t] > 0
  }

  datatype Direction = Add | Remove

  /** `update_token_counts`: one step up or down for every token of the list. */
  method UpdateTokenCounts(counts: map<Token, nat>, staged: map<Token, nat>, tokens: seq<Token>, dir: Direction) returns (r: Result<map<Token, nat>, GraphIndexError>)
    requires Distinct(tokens)
    ensures r.Success? ==> forall t :: CountAt(counts, r.value, t) == CountAt(counts, staged, t) + (if t in tokens then (if dir.Add? then 1 else -1) else 0)
    ensures r.Failure? <==> exists t :: t in tokens && (if dir.Add? then CountAt(counts, staged, t) >= USIZE_MAX else CountAt(counts, staged, t) == 0)
    ensures r.Failure? ==> r.error == if dir.Add? then TokenPoolCountOverflow else IncoherentPool
  {
    var next: map<Token, nat> := staged;
    for k := 0 to |tokens|
      invariant forall t :: CountAt(counts, next, t) == CountAt(counts, staged, t) + (if t in tokens[..k] then (if dir.Add? then 1 else -1) else 0)
      invariant forall t :: t in tokens[..k] ==> if dir.Add? then CountAt(counts, staged, t) < USIZE_MAX else CountAt(counts, staged, t) > 0
    {
      assert tokens[..k + 1] == tokens[..k] + [tokens[k]];
      assert tokens[k] !in tokens[..k] && tokens[k] in tokens;
      var count := CountAt(counts, next, tokens[k]);
      if dir.Add? {
        if count >= USIZE_MAX { return Failure(TokenPoolCountOverflow); }
        next := next[tokens[k] := count + 1];
      } else {
        if count == 0 { return Failure(IncoherentPool); }
        next := next[tokens[k] := count - 1];
      }
    }
    assert tokens[..|tokens|] == tokens;
    r := Success(next);
  }

  // ---- staging a change ----

  /** The staged table: committed pools with the staged entries in front. */
  ghost function Overlay(table: PoolTable, staged: map<Pool, Option<seq<Token>>>): PoolTable {
    map p | p in table.Keys + staged.Keys && StagedAt(table, staged, p).Some? :: StagedAt(table, staged, p).value
  }

  function StagedAt(table: PoolTable, staged: map<Pool, Option<seq<Token>>>, p: Pool): Option<seq<Token>> {
    if p in staged then staged[p] else Find(table, p)
  }

  lemma OverlayStep(table: PoolTable, staged: map<Pool, Option<seq<Token>>>, p: Pool, entry: Option<seq<Token>>)
    ensures Overlay(table, staged[p := entry]) == Applied(Overlay(table, staged), p, entry)
    ensures Find(Overlay(table, staged), p) == StagedAt(table, staged, p)
  {
  }

  /** The staged values describe `table`. */
  ghost predicate StagedOk(committed: PoolTable, counts: map<Token, nat>, pools: map<Pool, Option<seq<Token>>>, staged: map<Token, nat>, edges: nat, table: PoolTable) {
    Overlay(committed, pools) == table && CountsMatch(counts, staged, table) && edges == TotalEdges(table)
  }

  /** `directed_edge_count` with its overflow check. */
  function CheckedEdges(n: nat): Result<nat, GraphIndexError> {
    if DirectedEdges(n) > USIZE_MAX then Failure(EdgeCountOverflow) else Success(DirectedEdges(n))
  }

  /** Some counter would leave the machine's range. */
  predicate Overflow(e: GraphIndexError) { e.EdgeCountOverflow? || e.TokenPoolCountOverflow? }

  /** The counters of the table fit the machine's range. */
  ghost predicate InRange(table: PoolTable) {
    TotalEdges(table) <= USIZE_MAX && forall t :: |PoolsWith(table, t)| <= USIZE_MAX
  }

  /** So do those of every table on the way through the changes. */
  ghost predicate AllInRange(table: PoolTable, changes: seq<PoolDelta>) {
    forall k :: 0 <= k <= |changes| ==> InRange(Changed(table, changes[..k]))
  }

  /** Take the tokens a pool had out of the staged counters. */
  method Subtract(counts: map<Token, nat>, staged: map<Token, nat>, edges: nat, tokens: seq<Token>, ghost table: PoolTable, ghost pool: Pool)
    returns (r: Result<(map<Token, nat>, nat), GraphIndexError>)
    requires CountsMatch(counts, staged, table) && edges == TotalEdges(table) && Find(table, pool) == Some(tokens) && Distinct(tokens)
    ensures r.Success? ==> CountsMatch(counts, r.value.0, table - {pool}) && r.value.1 == TotalEdges(table - {pool})
    ensures r.Failure? ==> Overflow(r.error) && !InRange(table)
  {
    hide TotalEdges, PoolsWith, DirectedEdges;
    TotalAfterRemove(table, pool);
    CountsDown(counts, staged, table, pool);
    var count := CheckedEdges(|tokens|);
    if count.Failure? { return Failure(count.error); }
    if edges < count.value { return Failure(IncoherentPool); }
    var next := UpdateTokenCounts(counts, staged, tokens, Remove);
    if next.Failure? {
      assert false;
    }
    forall t ensures CountAt(counts, next.value, t) == |PoolsWith(table - {pool}, t)| { CountAfterRemove(table, pool, t); }
    r := Success((next.value, edges - count.value));
  }

  lemma CountsDown(counts: map<Token, nat>, staged: map<Token, nat>, table: PoolTable, pool: Pool)
    requires CountsMatch(counts, staged, table) && pool in table
    ensures forall t :: t in table[pool] ==> CountAt(counts, staged, t) > 0
  {
    forall t | t in table[pool] ensures CountAt(counts, staged, t) > 0 { assert pool in PoolsWith(table, t); }
  }

  /** Add the tokens a pool gets to the staged counters. */
  method AddTokens(counts: map<Token, nat>, staged: map<Token, nat>, edges: nat, tokens: seq<Token>, ghost table: PoolTable, ghost pool: Pool)
    returns (r: Result<(map<Token, nat>, nat), GraphIndexError>)
    requires CountsMatch(counts, staged, table) && edges == TotalEdges(table) && pool !in table && Distinct(tokens)
    ensures r.Success? ==> CountsMatch(counts, r.value.0, table[pool := tokens]) && r.value.1 == TotalEdges(table[pool := tokens])
    ensures r.Failure? ==> Overflow(r.error) && !InRange(table[pool := tokens])
    ensures r.Success? && (forall t :: |PoolsWith(table, t)| <= USIZE_MAX) ==> InRange(table[pool := tokens])
  {
    hide TotalEdges, PoolsWith, DirectedEdges;
    TotalAfterAdd(table, pool, tokens);
    forall t ensures |PoolsWith(table[pool := tokens], t)| == |PoolsWith(table, t)| + (if t in tokens then 1 else 0) { CountAfterAdd(table, pool, tokens, t); }
    var count := CheckedEdges(|tokens|);
    if count.Failure? { return Failure(count.error); }
    if edges + count.value > USIZE_MAX { return Failure(EdgeCountOverflow); }
    var next := UpdateTokenCounts(counts, staged, tokens, Add);
    if next.Failure? { return Failure(next.error); }
    r := Success((next.value, edges + count.value));
  }

  class GraphIndex {
    var stateVersion: nat
    var edges: nat
    var poolTokens: PoolTable
    var tokenPools: map<Token, nat>

    /** The counters are those of the pool table. */
    ghost predicate Valid() reads this {
      edges == TotalEdges(poolTokens) && CountersOk(tokenPools, poolTokens)
    }

    constructor (version: nat)
      ensures Valid() && stateVersion == version && poolTokens == map[]
    {
      stateVersion, edges, poolTokens, tokenPools := version, 0, map[], map[];
    }

    /** Scan a graph: tokens per pool from its edges, then pools per token. */
    static method FromGraph(g: AmmGraph, version: nat) returns (index: GraphIndex)
      requires g.Valid()
      ensures fresh(index) && index.Valid() && index.stateVersion == version && index.poolTokens == g.poolTokens
    {
      hide AmmGraph.Valid, CountersOk, TotalEdges;
      index := new GraphIndex(version);
      var tokens := ParallelPools.AllEdgeTokens(g);
      var table := CanonicalTable(tokens);
      ScanIsTable(g, tokens, table);
      EdgeCountIsTotal(g);
      var counts := TokenPoolCounts(table);
      index.edges, index.poolTokens, index.tokenPools := |g.graph.edges|, table, counts;
    }

    /** Apply one contiguous delta. Old deltas are ignored; an error leaves the index alone; success
        makes it the index of the changed table. */
    method ApplyDelta(version: nat, changes: seq<PoolDelta>) returns (r: Result<bool, GraphIndexError>)
      requires Valid()
      modifies this
      ensures Valid()
      ensures version <= old(stateVersion) <==> r.Success? && !r.value
      ensures !(r.Success? && r.value) ==> unchanged(this)
      ensures r.Success? && r.value ==> stateVersion == version == old(stateVersion) + 1 && Fits(old(poolTokens), changes) && poolTokens == Changed(old(poolTokens), changes)
      ensures r.Failure? ==> Justified(r.error, old(stateVersion), version, old(poolTokens), changes)
      ensures InRange(old(poolTokens)) ==>
                (r.Success? && r.value <==>
                   version == old(stateVersion) + 1 && old(stateVersion) < U64_MAX && Fits(old(poolTokens), changes) && AllInRange(old(poolTokens), changes))
    {
      hide Fits, Changed, CountsMatch, TotalEdges, Overlay, InRange, AllInRange;
      if version <= stateVersion { return Success(false); }
      if stateVersion >= U64_MAX { return Failure(VersionExhausted); }
      if version != stateVersion + 1 { return Failure(GraphIndexError.NonContiguous); }
      var staged := Stage(changes);
      if staged.Failure? { return Failure(staged.error); }
      var (nextPools, nextCounts, nextEdges) := staged.value;
      var table := CommitPools(poolTokens, nextPools);
      var counts := CommitCounts(tokenPools, nextCounts);
      CountersCommitted(tokenPools, nextCounts, counts, poolTokens, table);
      poolTokens, tokenPools, edges, stateVersion := table, counts, nextEdges, version;
      r := Success(true);
    }

    /** Stage every change of a delta without touching the index. */
    method Stage(changes: seq<PoolDelta>)
      returns (r: Result<(map<Pool, Option<seq<Token>>>, map<Token, nat>, nat), GraphIndexError>)
      requires Valid()
      ensures r.Success? ==> Fits(poolTokens, changes) && StagedOk(poolTokens, tokenPools, r.value.0, r.value.1, r.value.2, Changed(poolTokens, changes))
      ensures r.Failure? ==> if r.error == IncoherentPool then !Fits(poolTokens, changes) else Overflow(r.error) && !AllInRange(poolTokens, changes)
      ensures r.Success? && InRange(poolTokens) ==> AllInRange(poolTokens, changes)
    {
      hide StagedOk, Fits, Changed, CountersOk, InRange;
      var nextEdges, nextPools: map<Pool, Option<seq<Token>>>, nextCounts: map<Token, nat> := edges, map[], map[];
      NothingStaged(poolTokens, tokenPools, edges, changes);
      for k := 0 to |changes|
        invariant Fits(poolTokens, changes[..k]) && StagedOk(poolTokens, tokenPools, nextPools, nextCounts, nextEdges, Changed(poolTokens, changes[..k]))
        invariant InRange(poolTokens) ==> forall j :: 0 <= j <= k ==> InRange(Changed(poolTokens, changes[..j]))
      {
        FitsStep(poolTokens, changes, k);
        var step := StageChange(nextPools, nextCounts, nextEdges, changes[k], Changed(poolTokens, changes[..k]));
        if step.Failure? {
          if step.error == IncoherentPool { FitsPrefix(poolTokens, changes, k + 1); }
          return Failure(step.error);
        }
        nextPools, nextCounts, nextEdges := step.value.0, step.value.1, step.value.2;
      }
      assert changes[..|changes|] == changes;
      r := Success((nextPools, nextCounts, nextEdges));
    }

    method StageChange(pools: map<Pool, Option<seq<Token>>>, counts: map<Token, nat>, edgeCount: nat, c: PoolDelta, ghost table: PoolTable)
      returns (r: Result<(map<Pool, Option<seq<Token>>>, map<Token, nat>, nat), GraphIndexError>)
      requires StagedOk(poolTokens, tokenPools, pools, counts, edgeCount, table)
      ensures r.Success? ==> Find(table, c.pool) == Canonical(c.before)
      ensures r.Success? ==> StagedOk(poolTokens, tokenPools, r.value.0, r.value.1, r.value.2, Applied(table, c.pool, Canonical(c.after)))
      ensures r.Failure? ==> if r.error == IncoherentPool then Find(table, c.pool) != Canonical(c.before)
                             else Overflow(r.error) && (!InRange(table) || !InRange(Applied(table, c.pool, Canonical(c.after))))
      ensures r.Success? && InRange(table) ==> InRange(Applied(table, c.pool, Canonical(c.after)))
    {
      hide TotalEdges, PoolsWith, CountsMatch, Overlay;
      var before, after := Canonical(c.before), Canonical(c.after);
      OverlayStep(poolTokens, pools, c.pool, after);
      if StagedAt(poolTokens, pools, c.pool) != before { return Failure(IncoherentPool); }
      var next: (map<Token, nat>, nat) := (counts, edgeCount);
      ghost var rest := table - {c.pool};
      FewerFit(table, c.pool);
      if before.Some? {
        SortedDistinct(before.value);
        var down := Subtract(tokenPools, counts, edgeCount, before.value, table, c.pool);
        if down.Failure? { return Failure(down.error); }
        next := down.value;
      } else {
        assert rest == table;
      }
      if after.Some? {
        SortedDistinct(after.value);
        var up := AddTokens(tokenPools, next.0, next.1, after.value, rest, c.pool);
        assert rest[c.pool := after.value] == Applied(table, c.pool, after);
        if up.Failure? { return Failure(up.error); }
        next := up.value;
      }
      r := Success((pools[c.pool := after], next.0, next.1));
    }
  }

  /** The reason behind an error of the sidecar. */
  ghost predicate Justified(e: GraphIndexError, current: nat, version: nat, table: PoolTable, changes: seq<PoolDelta>) {
    match e
    case VersionExhausted => current >= U64_MAX && version > current
    case NonContiguous => version > current + 1
    case IncoherentPool => version == current + 1 && !Fits(table, changes)
    case _ => version == current + 1 && !AllInRange(table, changes)
  }

  /** Removing a pool lowers every counter. */
  lemma FewerFit(table: PoolTable, pool: Pool)
    ensures TotalEdges(table - {pool}) <= TotalEdges(table) && forall t :: |PoolsWith(table - {pool}, t)| <= |PoolsWith(table, t)|
  {
    hide TotalEdges, PoolsWith;
    if pool in table {
      TotalAfterRemove(table, pool);
      forall t ensures |PoolsWith(table - {pool}, t)| <= |PoolsWith(table, t)| { CountAfterRemove(table, pool, t); }
    } else {
      assert table - {pool} == table;
    }
  }

  lemma NothingStaged(table: PoolTable, counts: map<Token, nat>, edges: nat, changes: seq<PoolDelta>)
    requires edges == TotalEdges(table) && CountersOk(counts, table)
    ensures Changed(table, changes[..0]) == table && Fits(table, changes[..0]) && StagedOk(table, counts, map[], map[], edges, Changed(table, changes[..0]))
  {
  }

  lemma FitsStep(table: PoolTable, changes: seq<PoolDelta>, k: nat)
    requires k < |changes|
    ensures Fits(table, changes[..k + 1]) <==> Fits(table, changes[..k]) && Find(Changed(table, changes[..k]), changes[k].pool) == Canonical(changes[k].before)
    ensures Changed(table, changes[..k + 1]) == Applied(Changed(table, changes[..k]), changes[k].pool, Canonical(changes[k].after))
  {
    assert changes[..k + 1][..k] == changes[..k];
  }

  lemma {:induction false} FitsPrefix(table: PoolTable, changes: seq<PoolDelta>, k: nat)
    requires k <= |changes|
    ensures Fits(table, changes) ==> Fits(table, changes[..k])
    decreases |changes| - k
  {
    if k < |changes| {
      FitsPrefix(table, changes, k + 1);
      FitsStep(table, changes, k);
    } else {
      assert changes[..k] == changes;
    }
  }

  // ---- committing ----

  method CommitPools(table: PoolTable, staged: map<Pool, Option<seq<Token>>>) returns (next: PoolTable)
    ensures next == Overlay(table, staged)
  {
    next := table;
    var todo := staged.Keys;
    while todo != {}
      invariant todo <= staged.Keys
      invariant forall p :: Find(next, p) == if p in todo then Find(table, p) else StagedAt(table, staged, p)
      decreases |todo|
    {
      var p :| p in todo;
      todo := todo - {p};
      if staged[p].Some? { next := next[p := staged[p].value]; } else { next := next - {p}; }
    }
    SameTables(next, Overlay(table, staged), table, staged);
  }

  lemma SameTables(a: PoolTable, b: PoolTable, table: PoolTable, staged: map<Pool, Option<seq<Token>>>)
    requires b == Overlay(table, staged) && forall p :: Find(a, p) == StagedAt(table, staged, p)
    ensures a == b
  {
    forall p ensures (p in a <==> p in b) && (p in a ==> a[p] == b[p]) { assert Find(a, p) == StagedAt(table, staged, p); }
  }

  /** Write the staged counts back, dropping zeros. */
  method CommitCounts(counts: map<Token, nat>, staged: map<Token, nat>) returns (next: map<Token, nat>)
    requires forall t :: t in counts ==> counts[t] > 0
    ensures forall t :: CountAt(next, map[], t) == CountAt(counts, staged, t)
    ensures forall t :: t in next ==> next[t] > 0
  {
    next := counts;
    var todo := staged.Keys;
    while todo != {}
      invariant todo <= staged.Keys
      invariant forall t :: CountAt(next, map[], t) == if t in todo then CountAt(counts, map[], t) else CountAt(counts, staged, t)
      invariant forall t :: t in next ==> next[t] > 0
      decreases |todo|
    {
      var t :| t in todo;
      todo := todo - {t};
      if staged[t] == 0 { next := next - {t}; } else { next := next[t := staged[t]]; }
    }
  }

  lemma CountersCommitted(counts: map<Token, nat>, staged: map<Token, nat>, next: map<Token, nat>, before: PoolTable, table: PoolTable)
    requires CountsMatch(counts, staged, table)
    requires forall t :: CountAt(next, map[], t) == CountAt(counts, staged, t)
    requires forall t :: t in next ==> next[t] > 0
    ensures CountersOk(next, table)
  {
  }

  // ---- scanning ----

  method CanonicalTokens(tokens: set<Token>) returns (r: seq<Token>)
    ensures Sorted(r) && forall t :: t in r <==> t in tokens
  {
    r := [];
    var todo := tokens;
    while todo != {}
      invariant todo <= tokens && Sorted(r) && forall t :: t in r <==> t in tokens && t !in todo
      decreases |todo|
    {
      var t :| t in todo;
      todo := todo - {t};
      r := InsertToken(t, r);
    }
  }

  method CanonicalTable(tokens: map<Pool, set<Token>>) returns (table: PoolTable)
    ensures table.Keys == tokens.Keys
    ensures forall p :: p in table ==> Sorted(table[p]) && forall t :: t in table[p] <==> t in tokens[p]
  {
    table := map[];
    var todo := tokens.Keys;
    while todo != {}
      invariant todo <= tokens.Keys && table.Keys == tokens.Keys - todo
      invariant forall p :: p in table ==> Sorted(table[p]) && forall t :: t in table[p] <==> t in tokens[p]
      decreases |todo|
    {
      var p :| p in todo;
      var canonical := CanonicalTokens(tokens[p]);
      table := table[p := canonical];
      todo := todo - {p};
    }
  }

  /** Reading the token lists back off the edges gives the graph's own lists. */
  lemma ScanIsTable(g: AmmGraph, tokens: map<Pool, set<Token>>, table: PoolTable)
    requires g.Valid() && table.Keys == tokens.Keys
    requires forall p, t :: (p in tokens && t in tokens[p]) <==> ParallelPools.Tracked(g.poolTokens, ParallelPools.AllDirectedEdges, p, t)
    requires forall p :: p in tokens ==> tokens[p] != {}
    requires forall p :: p in table ==> Sorted(table[p]) && forall t :: t in table[p] <==> t in tokens[p]
    ensures table == g.poolTokens && TokensOk(table)
  {
    hide AmmGraph.Linked, CliquesOk, CountsOk, PairsOk, Sorted;
    forall p ensures p in table <==> p in g.poolTokens {
      if p in table {
        var t :| t in tokens[p];
        assert ParallelPools.Tracked(g.poolTokens, ParallelPools.AllDirectedEdges, p, t);
      }
      if p in g.poolTokens {
        assert ParallelPools.Tracked(g.poolTokens, ParallelPools.AllDirectedEdges, p, g.poolTokens[p][0]);
      }
    }
    forall p | p in table ensures table[p] == g.poolTokens[p] {
      forall t ensures t in table[p] <==> t in g.poolTokens[p] {
        assert ParallelPools.Tracked(g.poolTokens, ParallelPools.AllDirectedEdges, p, t) <==> t in g.poolTokens[p];
      }
      SortedUnique(table[p], g.poolTokens[p]);
    }
  }

  method TokenPoolCounts(table: PoolTable) returns (counts: map<Token, nat>)
    requires TokensOk(table)
    ensures CountersOk(counts, table)
  {
    hide PoolsWith, Sorted;
    counts := map[];
    var done: PoolTable := map[];
    var todo := table.Keys;
    assert CountersOk(counts, done) by { EmptyCounts(); }
    while todo != {}
      invariant todo <= table.Keys && done == table - todo && CountersOk(counts, done)
      decreases |todo|
    {
      var p :| p in todo;
      counts := CountPool(counts, table[p], done, p);
      assert done[p := table[p]] == table - (todo - {p});
      done := done[p := table[p]];
      todo := todo - {p};
    }
    assert done == table;
  }

  lemma EmptyCounts()
    ensures CountersOk(map[], map[])
  {
  }

  method CountPool(counts: map<Token, nat>, tokens: seq<Token>, ghost table: PoolTable, ghost p: Pool) returns (next: map<Token, nat>)
    requires CountersOk(counts, table) && p !in table && Sorted(tokens)
    ensures CountersOk(next, table[p := tokens])
  {
    hide PoolsWith, Sorted, CountAt;
    SortedDistinct(tokens);
    next := counts;
    for k := 0 to |tokens|
      invariant forall t :: CountAt(next, map[], t) == CountAt(counts, map[], t) + (if t in tokens[..k] then 1 else 0)
      invariant forall t :: t in next ==> next[t] > 0
    {
      assert tokens[..k + 1] == tokens[..k] + [tokens[k]] && tokens[k] !in tokens[..k];
      CountSet(next, tokens[k], CountAt(next, map[], tokens[k]) + 1);
      next := next[tokens[k] := CountAt(next, map[], tokens[k]) + 1];
    }
    assert tokens[..|tokens|] == tokens;
    forall t ensures CountAt(next, map[], t) == |PoolsWith(table[p := tokens], t)| {
      CountAfterAdd(table, p, tokens, t);
      assert CountAt(counts, map[], t) == |PoolsWith(table, t)|;
    }
  }

  lemma CountSet(counts: map<Token, nat>, u: Token, n: nat)
    ensures forall t :: CountAt(counts[u := n], map[], t) == if t == u then n else CountAt(counts, map[], t)
  {
    forall t ensures CountAt(counts[u := n], map[], t) == if t == u then n else CountAt(counts, map[], t) {
      var none: map<Token, nat> := map[];
      assert t !in none;
    }
  }

  // ---- the number of edges in the graph ----

  ghost function EdgesIn(edges: map<nat, Edge>, pools: set<Pool>): set<nat> { set e | e in edges && edges[e].pool in pools }

  lemma ElementsSize(s: seq<nat>)
    requires Distinct(s)
    ensures |Elements(s)| == |s|
  {
    DistinctCount(s);
    assert Elements(s) == set e | e in s;
  }

  lemma {:induction false} EdgesOfPools(edges: map<nat, Edge>, edgeMap: map<Pool, seq<nat>>, table: PoolTable, pools: set<Pool>)
    requires EdgeMapOk(edges, edgeMap) && CountsOk(edgeMap, table) && pools <= table.Keys
    ensures |EdgesIn(edges, pools)| == EdgesOf(table, pools)
  {
    if pools == {} {
      assert EdgesIn(edges, pools) == {};
    } else {
      var p :| p in pools;
      EdgesOfPools(edges, edgeMap, table, pools - {p});
      EdgesWithout(table, pools, p);
      ElementsSize(edgeMap[p]);
      forall e ensures e in Elements(edgeMap[p]) <==> e in edges && edges[e].pool == p {
        assert e in Lookup(edgeMap, p) <==> e in edges && edges[e].pool == p;
      }
      assert EdgesIn(edges, pools) == EdgesIn(edges, pools - {p}) + Elements(edgeMap[p]);
    }
  }

  /** `edge_count` is the sum of n(n-1) over the pools. */
  lemma EdgeCountIsTotal(g: AmmGraph)
    requires g.Valid()
    ensures |g.graph.edges| == TotalEdges(g.poolTokens)
  {
    hide NodesOk, CacheOk, HopsOk, AdjacencyOk, PairsOk, CliquesOk, TokensOk;
    EdgesOfPools(g.graph.edges, g.edgeMap, g.poolTokens, g.poolTokens.Keys);
    forall e | e in g.graph.edges ensures g.graph.edges[e].pool in g.poolTokens {
      assert e in Lookup(g.edgeMap, g.graph.edges[e].pool);
    }
    assert EdgesIn(g.graph.edges, g.poolTokens.Keys) == g.graph.edges.Keys;
    assert |g.graph.edges| == |g.graph.edges.Keys|;
  }

  // ---- following the live graph ----

  lemma NormalizeSorted(tokens: seq<Token>)
    requires Sorted(tokens)
    ensures Normalize(tokens) == tokens
  {
  }

  /** The deltas of the live graph fit an index of its old table and lead to its new one. */
  lemma {:induction false} LiveDeltasFit(index: Index, changes: seq<PoolDelta>, s: Snapshot, includeDegraded: bool)
    requires DeltasOk(changes, index, s, includeDegraded) && TokensOk(TokensOf(index))
    ensures Fits(TokensOf(index), changes) && Changed(TokensOf(index), changes) == TokensOf(ApplyDeltas(index, changes))
  {
    hide DeltasOk, TokensOk, TokensOf, ApplyDeltas, Applied, Canonical;
    if changes == [] {
      NoChanges(index);
    } else {
      var k := |changes| - 1;
      var init, c := changes[..k], changes[k];
      assert changes == init + [c] && changes[..k + 1] == changes;
      DeltasPrefix(changes, k, index, s, includeDegraded);
      LiveDeltasFit(index, init, s, includeDegraded);
      LiveDeltaFits(index, init, c, s, includeDegraded);
      FitsStep(TokensOf(index), changes, k);
    }
  }

  lemma LiveDeltaFits(index: Index, init: seq<PoolDelta>, c: PoolDelta, s: Snapshot, includeDegraded: bool)
    requires DeltasOk(init + [c], index, s, includeDegraded) && DeltasOk(init, index, s, includeDegraded) && TokensOk(TokensOf(index))
    ensures Find(TokensOf(ApplyDeltas(index, init)), c.pool) == Canonical(c.before)
    ensures Applied(TokensOf(ApplyDeltas(index, init)), c.pool, Canonical(c.after)) == TokensOf(ApplyDeltas(index, init + [c]))
  {
    hide DeltasOk, TokensOk, Canonical;
    LastDelta(index, init, c, s, includeDegraded);
    assert (init + [c])[..|init|] == init;
    var next := ApplyDeltas(index, init + [c]);
    assert next == if c.after.Some? then ApplyDeltas(index, init)[c.pool := c.after.value] else ApplyDeltas(index, init) - {c.pool};
  }

  /** The last delta still finds the old entry, and both its token lists are canonical. */
  lemma LastDelta(index: Index, init: seq<PoolDelta>, c: PoolDelta, s: Snapshot, includeDegraded: bool)
    requires DeltasOk(init + [c], index, s, includeDegraded) && DeltasOk(init, index, s, includeDegraded) && TokensOk(TokensOf(index))
    ensures Find(ApplyDeltas(index, init), c.pool) == c.before
    ensures Canonical(c.before) == (if c.before.Some? then Some(c.before.value.tokens) else None)
    ensures Canonical(c.after) == (if c.after.Some? then Some(c.after.value.tokens) else None)
  {
    hide ApplyDeltas, Sorted, Normalize;
    var all := init + [c];
    assert all[|init|] == c && c in all;
    ApplyDeltasExact(index, init, s, includeDegraded);
    forall i | 0 <= i < |init| ensures init[i].pool != c.pool { assert all[i] == init[i]; }
    if c.before.Some? {
      assert TokensOf(index)[c.pool] == c.before.value.tokens;
      NormalizeSorted(c.before.value.tokens);
    }
    if c.after.Some? { NormalizeSorted(c.after.value.tokens); }
  }

  lemma NoChanges(index: Index)
    ensures ApplyDeltas(index, []) == index
  {
  }

  lemma DeltasPrefix(changes: seq<PoolDelta>, k: nat, index: Index, s: Snapshot, includeDegraded: bool)
    requires DeltasOk(changes, index, s, includeDegraded) && k <= |changes|
    ensures DeltasOk(changes[..k], index, s, includeDegraded)
  {
  }

  /** An index that satisfied the deltas' old side satisfies their new side. */
  lemma DeltasLeadTo(before: Index, after: Index, changes: seq<PoolDelta>, s: Snapshot, includeDegraded: bool)
    requires DeltasOk(changes, before, s, includeDegraded) && IndexExact(after, s, includeDegraded)
    requires forall p :: p !in PoolsIn(changes) ==> Find(before, p) == Find(after, p)
    ensures ApplyDeltas(before, changes) == after
  {
    hide DeltasOk, ApplyDeltas, TargetOf;
    ApplyDeltasExact(before, changes, s, includeDegraded);
    forall p ensures Find(ApplyDeltas(before, changes), p) == Find(after, p) {
      assert TargetOf(s, includeDegraded, p) == Success(Find(after, p));
    }
    SameFinds(ApplyDeltas(before, changes), after);
  }

  /** One commit through the live graph and its delta through the sidecar index: they stay in step, and
      the sidecar stops exactly if a counter leaves its range on the way through the delta. */
  method FollowCommit(live: LiveAmmGraph, index: GraphIndex, c: Commit, ghost prior: Snapshot)
    returns (error: Option<GraphIndexError>, accepted: bool, ghost changes: seq<PoolDelta>)
    requires live.Represents(prior) && index.Valid() && index.poolTokens == live.graph.poolTokens && index.stateVersion == live.stateVersion
    requires Keyed(c.snapshot) && (!c.fullRefresh ==> forall p :: p !in c.changed ==> Find(prior.pools, p) == Find(c.snapshot.pools, p))
    modifies live, index
    ensures index.Valid()
    ensures accepted ==> c.snapshot.runtime == old(live.runtime) && c.snapshot.version == old(live.stateVersion) + 1
    ensures accepted ==> live.Represents(c.snapshot) && Succeeds(live.runtime, old(live.stateVersion), c) && live.graph.version <= old(live.graph.version) + 1
    ensures !accepted ==> live.Represents(prior) && error.None? && unchanged(live)
    ensures !accepted ==>
              !Succeeds(live.runtime, live.stateVersion, c) || Unresolved(c.snapshot, live.includeDegraded) || live.graph.version >= U64_MAX
    ensures accepted ==> Fits(old(index.poolTokens), changes) && Changed(old(index.poolTokens), changes) == live.graph.poolTokens
    ensures accepted ==> Mixes(old(index.poolTokens), changes, live.graph.poolTokens)
    ensures error.None? ==> index.poolTokens == live.graph.poolTokens && index.stateVersion == live.stateVersion
    ensures error.Some? ==> accepted && Overflow(error.value) && !AllInRange(old(index.poolTokens), changes)
    ensures accepted && old(InRange(index.poolTokens)) ==> (error.None? <==> AllInRange(old(index.poolTokens), changes))
  {
    hide IndexExact, AmmGraph.Valid, AmmGraph.Compact, Liquidity.PoolLiquidityIndex.Valid, KeysExact, DeltasOk, CountersOk, TotalEdges, Fits, Changed, PoolsIn, SameTopology, Keyed, TokensOf,
      Unresolved, InRange, AllInRange, Mixes, SourcesStep;
    changes := [];
    ghost var before := live.indexed;
    GraphTokensOk(live.graph);
    var r := live.ApplyCommit(c, prior);
    if r.Failure? { return None, false, []; }
    accepted, changes := true, r.value.changes;
    DeltasLeadTo(before, live.indexed, r.value.changes, c.snapshot, live.includeDegraded);
    LiveDeltasFit(before, r.value.changes, c.snapshot, live.includeDegraded);
    LiveDeltasMix(before, r.value.changes, c.snapshot, live.includeDegraded);
    var applied := index.ApplyDelta(r.value.sourceVersion, r.value.changes);
    error := if applied.Failure? then Some(applied.error) else None;
  }

  // ---- tables on the way ----

  /** Every entry of `m` is one of `a` or one of `b`. */
  ghost predicate Between(a: PoolTable, m: PoolTable, b: PoolTable) {
    forall p :: p in m ==> Find(a, p) == Some(m[p]) || Find(b, p) == Some(m[p])
  }

  /** Every table on the way through the changes lies between the first and the last. */
  ghost predicate Mixes(table: PoolTable, changes: seq<PoolDelta>, last: PoolTable) {
    forall k :: 0 <= k <= |changes| ==> Between(table, Changed(table, changes[..k]), last)
  }

  /** The deltas of the live graph name each pool once, so each entry on the way is old or new. */
  lemma LiveDeltasMix(index: Index, changes: seq<PoolDelta>, s: Snapshot, includeDegraded: bool)
    requires DeltasOk(changes, index, s, includeDegraded) && TokensOk(TokensOf(index))
    ensures Mixes(TokensOf(index), changes, TokensOf(ApplyDeltas(index, changes)))
  {
    hide DeltasOk, TokensOk, ApplyDeltas, Between, Changed;
    forall k | 0 <= k <= |changes| ensures Between(TokensOf(index), Changed(TokensOf(index), changes[..k]), TokensOf(ApplyDeltas(index, changes))) {
      DeltasPrefix(changes, k, index, s, includeDegraded);
      LiveDeltasFit(index, changes[..k], s, includeDegraded);
      PrefixBetween(index, changes, k, s, includeDegraded);
    }
  }

  lemma PrefixBetween(index: Index, changes: seq<PoolDelta>, k: nat, s: Snapshot, includeDegraded: bool)
    requires k <= |changes| && DeltasOk(changes, index, s, includeDegraded) && DeltasOk(changes[..k], index, s, includeDegraded)
    ensures Between(TokensOf(index), TokensOf(ApplyDeltas(index, changes[..k])), TokensOf(ApplyDeltas(index, changes)))
  {
    hide DeltasOk, ApplyDeltas, TargetOf;
    var some, all := ApplyDeltas(index, changes[..k]), ApplyDeltas(index, changes);
    ApplyDeltasExact(index, changes[..k], s, includeDegraded);
    ApplyDeltasExact(index, changes, s, includeDegraded);
    forall p | p in some ensures Find(index, p) == Some(some[p]) || Find(all, p) == Some(some[p]) {
      assert Find(some, p) == Some(some[p]);
      if p in PoolsIn(changes[..k]) {
        var d :| d in changes[..k] && d.pool == p;
        assert d in changes && p in PoolsIn(changes);
      }
    }
  }

  lemma {:induction false} EdgesGrow(table: PoolTable, pools: set<Pool>, more: set<Pool>)
    requires pools !! more && pools + more <= table.Keys
    ensures EdgesOf(table, pools + more) == EdgesOf(table, pools) + EdgesOf(table, more)
  {
    if more == {} {
      assert pools + more == pools;
    } else {
      var p :| p in more;
      EdgesWithout(table, pools + more, p);
      EdgesWithout(table, more, p);
      EdgesGrow(table, pools, more - {p});
      assert pools + more - {p} == pools + (more - {p});
    }
  }

  lemma EdgesAtMost(a: PoolTable, m: PoolTable, pools: set<Pool>)
    requires pools <= m.Keys && forall p :: p in pools ==> Find(a, p) == Some(m[p])
    ensures EdgesOf(m, pools) <= TotalEdges(a)
  {
    hide EdgesOf;
    assert pools <= a.Keys by { assert forall p :: p in pools ==> Find(a, p).Some?; }
    forall p | p in pools ensures a[p] == m[p] { assert Find(a, p) == Some(m[p]); }
    EdgesFrame(m, a, pools);
    EdgesGrow(a, pools, a.Keys - pools);
    assert pools + (a.Keys - pools) == a.Keys;
  }

  /** A table between two others has no more than both together. */
  lemma BetweenIsBounded(a: PoolTable, m: PoolTable, b: PoolTable)
    requires Between(a, m, b)
    ensures TotalEdges(m) <= TotalEdges(a) + TotalEdges(b)
    ensures forall t :: |PoolsWith(m, t)| <= |PoolsWith(a, t)| + |PoolsWith(b, t)|
  {
    hide EdgesOf;
    var first, second := set p | p in m && Find(a, p) == Some(m[p]), set p | p in m && Find(a, p) != Some(m[p]);
    EdgesGrow(m, first, second);
    assert first + second == m.Keys;
    EdgesAtMost(a, m, first);
    EdgesAtMost(b, m, second);
    forall t ensures |PoolsWith(m, t)| <= |PoolsWith(a, t)| + |PoolsWith(b, t)| {
      forall p | p in PoolsWith(m, t) ensures p in PoolsWith(a, t) + PoolsWith(b, t) {
        assert Find(a, p) == Some(m[p]) || Find(b, p) == Some(m[p]);
      }
      SubsetSize(PoolsWith(m, t), PoolsWith(a, t) + PoolsWith(b, t));
    }
  }

  /** The two tables together fit the machine's range. */
  ghost predicate Roomy(a: PoolTable, b: PoolTable) {
    TotalEdges(a) + TotalEdges(b) <= USIZE_MAX && forall t :: |PoolsWith(a, t)| + |PoolsWith(b, t)| <= USIZE_MAX
  }

  lemma RoomyIsInRange(table: PoolTable, changes: seq<PoolDelta>, last: PoolTable)
    requires Mixes(table, changes, last) && Roomy(table, last)
    ensures AllInRange(table, changes)
  {
    hide Between, TotalEdges, PoolsWith, Changed;
    forall k | 0 <= k <= |changes| ensures InRange(Changed(table, changes[..k])) {
      BetweenIsBounded(table, Changed(table, changes[..k]), last);
    }
  }

  lemma GraphTokensOk(g: AmmGraph)
    requires g.Valid()
    ensures TokensOk(g.poolTokens)
  {
  }

  /** The pool table of a snapshot. */
  ghost function TableAt(s: Snapshot, includeDegraded: bool): PoolTable { Table(Registry(s), includeDegraded) }

  /** Every two successive tables fit the machine's range together. */
  ghost predicate AllRoomy(start: Snapshot, commits: seq<Commit>, includeDegraded: bool) {
    forall k :: 0 <= k < |commits| ==> Roomy(TableAt(SnapshotAfter(start, commits, k), includeDegraded), TableAt(commits[k].snapshot, includeDegraded))
  }

  /** Any run of commits through both. They end on the same table and version; the run ends early only at
      a commit the live graph refuses or at a delta on whose way a counter leaves its range; and it
      goes through when the commits are contiguous and complete and there is room for the counters. */
  method FollowCommits(live: LiveAmmGraph, index: GraphIndex, commits: seq<Commit>, ghost start: Snapshot)
    returns (applied: nat, error: Option<GraphIndexError>, ghost table: PoolTable, ghost changes: seq<PoolDelta>)
    requires live.Represents(start) && ListsAllChanges(start, commits)
    requires index.Valid() && index.poolTokens == live.graph.poolTokens && index.stateVersion == live.stateVersion
    modifies live, index
    ensures applied <= |commits| && live.Represents(SnapshotAfter(start, commits, applied)) && index.Valid()
    ensures error.None? ==> index.poolTokens == live.graph.poolTokens && index.stateVersion == live.stateVersion
    ensures error.Some? ==> applied > 0 && Overflow(error.value) && !AllInRange(table, changes)
    ensures error.Some? ==> table == TableAt(SnapshotAfter(start, commits, applied - 1), live.includeDegraded) && Fits(table, changes) && Changed(table, changes) == live.graph.poolTokens
    ensures applied < |commits| && error.None? ==>
              || !Succeeds(live.runtime, live.stateVersion, commits[applied])
              || Unresolved(commits[applied].snapshot, live.includeDegraded) || live.graph.version >= U64_MAX
    ensures Contiguous(start, commits, live.includeDegraded) && AllRoomy(start, commits, live.includeDegraded) && old(live.graph.version) + |commits| <= U64_MAX ==>
              applied == |commits| && error.None?
  {
    hide LiveAmmGraph.Represents, GraphIndex.Valid, Keyed, Overflow, Succeeds, Unresolved, TableAt, Roomy, Fits, Changed, Mixes, InRange, AllInRange;
    applied, error, table, changes := 0, None, map[], [];
    ghost var version := live.graph.version;
    OnSnapshot(live, start);
    while applied < |commits|
      invariant applied <= |commits| && live.Represents(SnapshotAfter(start, commits, applied)) && index.Valid() && error.None?
      invariant index.poolTokens == live.graph.poolTokens && index.stateVersion == live.stateVersion && live.graph.version <= version + applied
      invariant live.runtime == start.runtime && live.stateVersion == start.version + applied
    {
      var accepted: bool;
      OnSnapshot(live, SnapshotAfter(start, commits, applied));
      table := index.poolTokens;
      ghost var runtime, number := live.runtime, live.stateVersion;
      error, accepted, changes := FollowCommit(live, index, commits[applied], SnapshotAfter(start, commits, applied));
      if !accepted {
        NextSucceeds(start, commits, applied, live.includeDegraded, runtime, number);
        return;
      }
      OnSnapshot(live, commits[applied].snapshot);
      if AllRoomy(start, commits, live.includeDegraded) && Mixes(table, changes, live.graph.poolTokens) { RoomyIsInRange(table, changes, live.graph.poolTokens); }
      applied := applied + 1;
      if error.Some? { return; }
    }
  }

  lemma NextSucceeds(start: Snapshot, commits: seq<Commit>, k: nat, includeDegraded: bool, runtime: nat, version: nat)
    requires k < |commits| && runtime == start.runtime && version == start.version + k
    ensures Contiguous(start, commits, includeDegraded) ==> Succeeds(runtime, version, commits[k]) && !Unresolved(commits[k].snapshot, includeDegraded)
  {
  }

  lemma OnSnapshot(live: LiveAmmGraph, s: Snapshot)
    requires live.Represents(s)
    ensures live.graph.poolTokens == TableAt(s, live.includeDegraded) && live.runtime == s.runtime && live.stateVersion == s.version
  {
    hide IndexExact, KeysExact, AmmGraph.Valid, AmmGraph.Compact, Liquidity.PoolLiquidityIndex.Valid, Table, TokensOf, Registry;
    TableIsIndex(live.indexed, s, live.includeDegraded);
  }

  /** Counters maintained by deltas equal those of a scan of the same table. */
  lemma DeltasEqualScan(a: GraphIndex, b: GraphIndex)
    requires a.Valid() && b.Valid() && a.poolTokens == b.poolTokens
    ensures a.edges == b.edges && a.tokenPools == b.tokenPools
  {
    hide PoolsWith, TotalEdges;
    forall t ensures (t in a.tokenPools <==> t in b.tokenPools) && (t in a.tokenPools ==> a.tokenPools[t] == b.tokenPools[t]) {
      assert CountAt(a.tokenPools, map[], t) == CountAt(b.tokenPools, map[], t);
    }
  }
}
