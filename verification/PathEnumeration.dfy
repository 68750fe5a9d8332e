/** Bounded breadth-first enumeration of simple routes and cycles. */
module PathEnumeration {
  import opened Routing

  datatype SearchConfig = SearchConfig(minHops: nat, maxHops: nat, maxCandidates: Option<nat>, connectors: Option<set<Token>>) {
    /** The bounds `SearchConfig::validate` accepts. */
    predicate Valid() { 1 <= minHops <= maxHops && maxCandidates != Some(0) }
  }

  datatype SearchError = InvalidConfig | TokenNotFound(token: Token) | NoPath

  datatype RouteEnumeration = RouteEnumeration(paths: seq<Path>, duplicatesSkipped: nat, stopped: bool)

  datatype SearchState = SearchState(node: Token, path: Path, visited: set<Token>, used: set<Pool>)

  predicate ConnectorAllowed(t: Token, tokenIn: Token, tokenOut: Token, connectors: Option<set<Token>>) {
    t == tokenIn || t == tokenOut || connectors.None? || t in connectors.value
  }

  /** One route question: which simple paths lead from `tokenIn` to `tokenOut`. `revisit` permits
      a cycle to close on its own start. */
  datatype Query = Query(g: Graph, tokenIn: Token, tokenOut: Token, cfg: SearchConfig, revisit: bool) {

    predicate ClosingCycle() { revisit && tokenIn == tokenOut }

    predicate Allowed(t: Token) { ConnectorAllowed(t, tokenIn, tokenOut, cfg.connectors) }

    /** The paths the caller asks for, stated without reference to any search order. */
    ghost predicate Admissible(p: Path) {
      && |p| > 0
      && cfg.minHops <= |p| <= cfg.maxHops
      && IsWalk(g, tokenIn, p)
      && p[|p| - 1].tokenOut == tokenOut
      && DistinctPools(p)
      && (forall i :: 0 <= i < |p| - 1 ==> p[i].tokenOut == tokenIn || p[i].tokenOut == tokenOut || cfg.connectors.None? || p[i].tokenOut in cfg.connectors.value)
      && (forall i, j :: 0 <= i < j <= |p| && !(ClosingCycle() && i == 0 && j == |p|) ==>
            Stops(tokenIn, p)[i] != Stops(tokenIn, p)[j])
    }

    /** A partial path the search may still extend. */
    ghost predicate Open(p: Path) {
      && IsWalk(g, tokenIn, p)
      && DistinctPools(p)
      && (forall i :: 0 <= i < |p| ==> p[i].tokenOut != tokenOut && Allowed(p[i].tokenOut))
      && Distinct(Stops(tokenIn, p))
    }

    ghost predicate StateOk(s: SearchState) {
      && Open(s.path)
      && s.node == Stops(tokenIn, s.path)[|s.path|]
      && s.node in g
      && s.visited == Visited(tokenIn, s.path)
      && s.used == Pools(s.path)
    }

    /** The tests the inner loop applies to one outgoing edge. */
    predicate EdgeAccepted(s: SearchState, e: Hop) {
      && e.pool !in s.used
      && (e.tokenOut !in s.visited || (ClosingCycle() && e.tokenOut == tokenIn))
      && (e.tokenOut == tokenOut || Allowed(e.tokenOut))
    }
  }

  lemma {:induction false} StopsPrefix(start: Token, p: Path, k: nat)
    requires k <= |p|
    ensures Stops(start, p[..k]) == Stops(start, p)[..k + 1]
  {
    if k == |p| {
      assert p[..k] == p;
    } else {
      var n := |p| - 1;
      StopsPrefix(start, p[..n], k);
      assert p[..n][..k] == p[..k];
    }
  }

  lemma StepFacts(g: Graph, start: Token, p: Path, e: Hop)
    requires IsWalk(g, start, p) && HasEdge(g, e) && e.tokenIn == Stops(start, p)[|p|]
    ensures IsWalk(g, start, p + [e])
    ensures Stops(start, p + [e]) == Stops(start, p) + [e.tokenOut]
    ensures Pools(p + [e]) == Pools(p) + {e.pool}
    ensures Visited(start, p + [e]) == Visited(start, p) + {e.tokenOut}
  {
    assert (p + [e])[..|p|] == p;
    assert forall h :: h in p + [e] <==> h in p || h == e;
  }

  lemma PoolsStayDistinct(p: Path, e: Hop)
    requires DistinctPools(p) && e.pool !in Pools(p)
    ensures DistinctPools(p + [e])
  {
  }

  /** An accepted edge into the target closes an admissible path when the length fits. */
  lemma CloseAdmissible(q: Query, s: SearchState, e: Hop)
    requires q.StateOk(s) && HasEdge(q.g, e) && e.tokenIn == s.node && e.tokenOut == q.tokenOut
    requires q.EdgeAccepted(s, e)
    requires q.cfg.minHops <= |s.path| + 1 <= q.cfg.maxHops
    ensures q.Admissible(s.path + [e])
  {
    StepFacts(q.g, q.tokenIn, s.path, e);
    PoolsStayDistinct(s.path, e);
    var p := s.path + [e];
    var stops := Stops(q.tokenIn, s.path);
    forall i | 0 <= i < |p| && !(q.ClosingCycle() && i == 0) ensures stops[i] != q.tokenOut {
      if i > 0 {
        assert stops[i] == s.path[i - 1].tokenOut;
      } else {
        assert stops[0] in s.visited;
      }
    }
  }

  lemma IndexedTarget(g: Graph, e: Hop)
    requires WellFormed(g) && HasEdge(g, e)
    ensures e.tokenOut in g
  {
  }

  /** An accepted edge elsewhere yields a state the search may queue. */
  lemma ExtendState(q: Query, s: SearchState, e: Hop)
    requires WellFormed(q.g)
    requires q.StateOk(s) && HasEdge(q.g, e) && e.tokenIn == s.node && e.tokenOut != q.tokenOut
    requires q.EdgeAccepted(s, e)
    ensures q.StateOk(SearchState(e.tokenOut, s.path + [e], s.visited + {e.tokenOut}, s.used + {e.pool}))
  {
    hide WellFormed, HasEdge, IsWalk, DistinctPools, Pools, Stops, Distinct, Visited;
    StepFacts(q.g, q.tokenIn, s.path, e);
    PoolsStayDistinct(s.path, e);
    IndexedTarget(q.g, e);
    NewStop(q.tokenIn, s.path, e.tokenOut);
    assert (s.path + [e])[|s.path|] == e;
    assert forall i :: 0 <= i < |s.path| ==> (s.path + [e])[i] == s.path[i];
  }

  lemma NewStop(start: Token, p: Path, t: Token)
    requires Distinct(Stops(start, p)) && t !in Visited(start, p)
    ensures Distinct(Stops(start, p) + [t])
  {
    var stops := Stops(start, p);
    assert forall i :: 0 <= i < |stops| ==> stops[i] in Visited(start, p);
  }

  /** The next hop of an admissible path through a queued prefix passes every test. */
  lemma NextHopAccepted(q: Query, s: SearchState, p: Path)
    requires q.StateOk(s) && q.Admissible(p) && s.path < p
    ensures var e := p[|s.path|];
            HasEdge(q.g, e) && e.tokenIn == s.node && q.EdgeAccepted(s, e)
            && (e.tokenOut == q.tokenOut <==> |p| == |s.path| + 1)
  {
    var k := |s.path|;
    var e := p[k];
    var stops := Stops(q.tokenIn, p);
    StopsPrefix(q.tokenIn, p, k);
    assert s.path == p[..k];
    assert stops[k + 1] == e.tokenOut && stops[|p|] == q.tokenOut;
    assert e.pool !in s.used by {
      assert forall h :: h in s.path ==> exists i :: 0 <= i < k && p[i] == h;
    }
    assert forall t :: t in s.visited ==> exists i :: 0 <= i <= k && stops[i] == t;
  }

  ghost predicate Covered(queue: seq<SearchState>, p: Path) {
    exists i :: 0 <= i < |queue| && queue[i].path <= p
  }

  ghost predicate ByLength(paths: seq<Path>) {
    forall i, j :: 0 <= i < j < |paths| ==> |paths[i]| <= |paths[j]|
  }

  // ---- termination of the breadth-first loop ----

  ghost predicate DegreeBound(g: Graph, b: nat) {
    forall t :: t in g ==> |g[t]| <= b
  }

  lemma SomeDegreeBound(g: Graph) returns (b: nat)
    ensures DegreeBound(g, b)
  {
    b := 0;
    var rest := g.Keys;
    while rest != {}
      invariant rest <= g.Keys
      invariant forall t :: t in g && t !in rest ==> |g[t]| <= b
      decreases rest
    {
      var t :| t in rest;
      if |g[t]| > b { b := |g[t]|; }
      rest := rest - {t};
    }
  }

  /** Number of states a subtree of the given remaining depth may still produce. */
  ghost function Work(b: nat, depth: nat): nat {
    if depth == 0 then 1 else 1 + b * Work(b, depth - 1)
  }

  ghost function Pending(b: nat, maxHops: nat, queue: seq<SearchState>): nat {
    if queue == [] then 0
    else Work(b, if |queue[0].path| <= maxHops then maxHops - |queue[0].path| else 0)
         + Pending(b, maxHops, queue[1..])
  }

  lemma {:induction false} PendingPush(b: nat, maxHops: nat, queue: seq<SearchState>, s: SearchState)
    ensures Pending(b, maxHops, queue + [s])
         == Pending(b, maxHops, queue) + Work(b, if |s.path| <= maxHops then maxHops - |s.path| else 0)
  {
    if queue == [] {
      assert queue + [s] == [s];
      assert [s][1..] == [];
    } else {
      assert (queue + [s])[1..] == queue[1..] + [s];
      PendingPush(b, maxHops, queue[1..], s);
    }
  }

  lemma PendingPop(b: nat, maxHops: nat, queue: seq<SearchState>)
    requires queue != []
    ensures Pending(b, maxHops, queue[1..])
            + (if |queue[0].path| <= maxHops then Work(b, maxHops - |queue[0].path|) else 1)
         == Pending(b, maxHops, queue)
    ensures Pending(b, maxHops, queue[1..]) < Pending(b, maxHops, queue)
  {
  }

  lemma EdgesOf(g: Graph, t: Token)
    requires WellFormed(g) && t in g
    ensures Distinct(g[t])
    ensures forall i :: 0 <= i < |g[t]| ==> HasEdge(g, g[t][i]) && g[t][i].tokenIn == t
  {
  }

  lemma WorkStep(b: nat, depth: nat, n: nat)
    requires depth > 0 && n <= b
    ensures n * Work(b, depth - 1) < Work(b, depth)
  {
  }

  /** Queued states are sound partial paths, shortest first, of at most two adjacent lengths. */
  ghost predicate QueueOk(q: Query, queue: seq<SearchState>, len: nat) {
    && (forall i :: 0 <= i < |queue| ==> q.StateOk(queue[i]))
    && (forall i :: 0 <= i < |queue| ==> len <= |queue[i].path| <= len + 1)
    && (forall i, j :: 0 <= i < j < |queue| ==> |queue[i].path| <= |queue[j].path|)
  }

  ghost predicate FoundOk(q: Query, found: seq<Path>) {
    && (forall p :: p in found ==> q.Admissible(p))
    && Distinct(found) && ByLength(found)
  }

  ghost predicate NoLonger(found: seq<Path>, len: nat) {
    forall i :: 0 <= i < |found| ==> |found[i]| <= len
  }

  /** `p` runs through `cur` only by taking one of `edges` as its last step. */
  ghost predicate OneStepVia(cur: Path, p: Path, edges: seq<Hop>) {
    cur <= p ==> |p| == |cur| + 1 && p[|cur|] in edges
  }

  /** No queued path is a prefix of another queued or found path. */
  ghost predicate Separate(queue: seq<SearchState>, found: seq<Path>) {
    && (forall i, j :: 0 <= i < |queue| && 0 <= j < |queue| && i != j ==> !(queue[i].path <= queue[j].path))
    && (forall i, j :: 0 <= i < |queue| && 0 <= j < |found| ==> !(queue[i].path <= found[j]))
  }

  /** The state under expansion overlaps the rest only through the edges already taken. */
  ghost predicate CurrentSeparate(queue: seq<SearchState>, found: seq<Path>, cur: Path, taken: seq<Hop>) {
    && (forall i :: 0 <= i < |queue| ==> !(queue[i].path <= cur) && OneStepVia(cur, queue[i].path, taken))
    && (forall j :: 0 <= j < |found| ==> OneStepVia(cur, found[j], taken))
  }

  /** Every admissible path is found, runs through a queued prefix, or leaves the current state by
      an edge still to be tried. */
  ghost predicate Complete(q: Query, queue: seq<SearchState>, found: seq<Path>, cur: Path, left: seq<Hop>) {
    forall p :: q.Admissible(p) ==> p in found || Covered(queue, p) || (cur < p && p[|cur|] in left)
  }

  /** What holds while the edges of `cur` from index `done` on are still to be tried. */
  ghost predicate Frontier(q: Query, queue: seq<SearchState>, found: seq<Path>, cur: Path, edges: seq<Hop>, done: nat)
    requires done <= |edges|
  {
    && QueueOk(q, queue, |cur|)
    && FoundOk(q, found) && NoLonger(found, |cur| + 1)
    && Separate(queue, found)
    && CurrentSeparate(queue, found, cur, edges[..done])
    && Complete(q, queue, found, cur, edges[done..])
  }

  /** Between two expansions: no state is being worked on. */
  ghost predicate Idle(q: Query, queue: seq<SearchState>, found: seq<Path>) {
    && QueueOk(q, queue, if queue == [] then 0 else |queue[0].path|)
    && FoundOk(q, found) && (queue == [] || NoLonger(found, |queue[0].path| + 1))
    && Separate(queue, found)
    && Complete(q, queue, found, [], [])
  }

  lemma BeginExpansion(q: Query, queue: seq<SearchState>, found: seq<Path>)
    requires queue != [] && Idle(q, queue, found)
    ensures q.StateOk(queue[0]) && queue[0].node in q.g
    ensures Frontier(q, queue[1..], found, queue[0].path, q.g[queue[0].node], 0)
  {
    var s := queue[0];
    assert q.StateOk(s) && s.node in q.g;
    hide Query.StateOk, Query.Admissible, Complete, CurrentSeparate;
    var edges := q.g[s.node];
    assert edges[0..] == edges && edges[..0] == [];
    SeparateHead(queue, found);
    BeginComplete(q, queue, found);
    QueueTail(q, queue);
  }

  lemma QueueTail(q: Query, queue: seq<SearchState>)
    requires queue != [] && QueueOk(q, queue, |queue[0].path|)
    ensures QueueOk(q, queue[1..], |queue[0].path|)
  {
  }

  lemma BeginComplete(q: Query, queue: seq<SearchState>, found: seq<Path>)
    requires queue != [] && q.StateOk(queue[0]) && Complete(q, queue, found, [], [])
    ensures Complete(q, queue[1..], found, queue[0].path, q.g[queue[0].node])
  {
    var s := queue[0];
    assert s.node in q.g;
    hide Query.StateOk, Query.Admissible;
    var rest := queue[1..];
    forall p: Path | q.Admissible(p)
      ensures p in found || Covered(rest, p) || (s.path < p && p[|s.path|] in q.g[s.node])
    {
      if p !in found {
        var i :| 0 <= i < |queue| && queue[i].path <= p;
        if i > 0 {
          assert rest[i - 1].path <= p;
        } else {
          HeadNotWhole(q, s, p);
          NextHopAccepted(q, s, p);
        }
      }
    }
  }

  lemma SeparateHead(queue: seq<SearchState>, found: seq<Path>)
    requires queue != [] && Separate(queue, found)
    ensures Separate(queue[1..], found)
    ensures CurrentSeparate(queue[1..], found, queue[0].path, [])
  {
  }

  /** A partial path is never itself admissible. */
  lemma HeadNotWhole(q: Query, s: SearchState, p: Path)
    requires q.StateOk(s) && q.Admissible(p) && s.path <= p
    ensures s.path < p
  {
  }

  lemma EndExpansion(q: Query, queue: seq<SearchState>, found: seq<Path>, cur: Path, edges: seq<Hop>)
    requires Frontier(q, queue, found, cur, edges, |edges|)
    ensures Idle(q, queue, found)
  {
    assert edges[|edges|..] == [];
    if queue != [] {
      assert |cur| <= |queue[0].path|;
    }
  }

  lemma TooDeep(q: Query, queue: seq<SearchState>, found: seq<Path>, s: SearchState)
    requires q.StateOk(s) && |s.path| >= q.cfg.maxHops
    requires Frontier(q, queue, found, s.path, q.g[s.node], 0)
    ensures Idle(q, queue, found)
  {
  }

  lemma CompleteStep(q: Query, queue: seq<SearchState>, found: seq<Path>, queue': seq<SearchState>, found': seq<Path>,
                     cur: Path, edges: seq<Hop>, j: nat)
    requires j < |edges|
    requires Complete(q, queue, found, cur, edges[j..])
    requires queue <= queue' && found <= found'
    requires forall p :: q.Admissible(p) && cur < p && p[|cur|] == edges[j] ==> p in found' || Covered(queue', p)
    ensures Complete(q, queue', found', cur, edges[j + 1..])
  {
  }

  lemma TakenGrows(queue: seq<SearchState>, found: seq<Path>, cur: Path, edges: seq<Hop>, j: nat)
    requires j < |edges| && CurrentSeparate(queue, found, cur, edges[..j])
    ensures CurrentSeparate(queue, found, cur, edges[..j + 1])
  {
  }

  /** An edge that fails a test, or leads nowhere within the bounds, loses no admissible path. */
  lemma SkipEdge(q: Query, s: SearchState, queue: seq<SearchState>, found: seq<Path>, edges: seq<Hop>, j: nat)
    requires q.StateOk(s) && j < |edges|
    requires Frontier(q, queue, found, s.path, edges, j)
    requires !q.EdgeAccepted(s, edges[j])
          || (edges[j].tokenOut == q.tokenOut && |s.path| + 1 < q.cfg.minHops)
          || (edges[j].tokenOut != q.tokenOut && |s.path| + 1 >= q.cfg.maxHops)
    ensures Frontier(q, queue, found, s.path, edges, j + 1)
  {
    hide Query.Admissible, Query.StateOk, QueueOk, FoundOk, CurrentSeparate, Separate, NoLonger;
    forall p: Path | q.Admissible(p) && s.path < p && p[|s.path|] == edges[j] ensures false {
      NextHopAccepted(q, s, p);
      NoLongerThan(q, p);
    }
    CompleteStep(q, queue, found, queue, found, s.path, edges, j);
    TakenGrows(queue, found, s.path, edges, j);
  }

  lemma NoLongerThan(q: Query, p: Path)
    requires q.Admissible(p)
    ensures q.cfg.minHops <= |p| <= q.cfg.maxHops
  {
  }

  /** Recording a closing path keeps the bookkeeping. */
  lemma RecordPath(q: Query, s: SearchState, queue: seq<SearchState>, found: seq<Path>, edges: seq<Hop>, j: nat)
    requires q.StateOk(s) && j < |edges| && Distinct(edges)
    requires Frontier(q, queue, found, s.path, edges, j)
    requires q.EdgeAccepted(s, edges[j]) && edges[j].tokenOut == q.tokenOut
    requires HasEdge(q.g, edges[j]) && edges[j].tokenIn == s.node
    requires q.cfg.minHops <= |s.path| + 1 <= q.cfg.maxHops
    ensures s.path + [edges[j]] !in found
    ensures FoundOk(q, found + [s.path + [edges[j]]])
    ensures Frontier(q, queue, found + [s.path + [edges[j]]], s.path, edges, j + 1)
  {
    hide Query.Admissible, Query.StateOk, QueueOk, FoundOk, CurrentSeparate, Separate, NoLonger, HasEdge;
    var path := s.path + [edges[j]];
    var found' := found + [path];
    CloseAdmissible(q, s, edges[j]);
    assert path in found';
    forall p: Path | q.Admissible(p) && s.path < p && p[|s.path|] == edges[j] ensures p in found' {
      NextHopAccepted(q, s, p);
      assert p == path;
    }
    CompleteStep(q, queue, found, queue, found', s.path, edges, j);
    RecordSeparate(q, queue, found, s.path, edges, j, path);
  }

  lemma RecordSeparate(q: Query, queue: seq<SearchState>, found: seq<Path>, cur: Path, edges: seq<Hop>, j: nat, path: Path)
    requires j < |edges| && Distinct(edges) && path == cur + [edges[j]]
    requires q.Admissible(path) && FoundOk(q, found) && NoLonger(found, |cur| + 1)
    requires Separate(queue, found) && CurrentSeparate(queue, found, cur, edges[..j])
    ensures path !in found
    ensures FoundOk(q, found + [path]) && NoLonger(found + [path], |cur| + 1)
    ensures Separate(queue, found + [path]) && CurrentSeparate(queue, found + [path], cur, edges[..j + 1])
  {
  }

  /** Queueing an extension keeps the bookkeeping. */
  lemma PushState(q: Query, s: SearchState, queue: seq<SearchState>, found: seq<Path>, edges: seq<Hop>, j: nat, next: SearchState)
    requires WellFormed(q.g)
    requires q.StateOk(s) && j < |edges| && Distinct(edges)
    requires Frontier(q, queue, found, s.path, edges, j)
    requires q.EdgeAccepted(s, edges[j]) && edges[j].tokenOut != q.tokenOut
    requires HasEdge(q.g, edges[j]) && edges[j].tokenIn == s.node
    requires next == SearchState(edges[j].tokenOut, s.path + [edges[j]], s.visited + {edges[j].tokenOut}, s.used + {edges[j].pool})
    ensures Frontier(q, queue + [next], found, s.path, edges, j + 1)
  {
    hide Query.Admissible, Query.StateOk, WellFormed, FoundOk, CurrentSeparate, Separate, QueueOk, Complete;
    ExtendState(q, s, edges[j]);
    PushComplete(q, queue, found, s.path, edges, j, next);
    PushSeparate(queue, found, s.path, edges, j, next);
    QueuePush(q, queue, |s.path|, next);
  }

  lemma QueuePush(q: Query, queue: seq<SearchState>, len: nat, next: SearchState)
    requires QueueOk(q, queue, len) && q.StateOk(next) && |next.path| == len + 1
    ensures QueueOk(q, queue + [next], len)
  {
    hide Query.StateOk;
    assert (queue + [next])[|queue|] == next;
    assert forall i :: 0 <= i < |queue| ==> (queue + [next])[i] == queue[i];
  }

  lemma PushComplete(q: Query, queue: seq<SearchState>, found: seq<Path>, cur: Path, edges: seq<Hop>, j: nat, next: SearchState)
    requires j < |edges| && next.path == cur + [edges[j]] && Complete(q, queue, found, cur, edges[j..])
    ensures Complete(q, queue + [next], found, cur, edges[j + 1..])
  {
    hide Query.Admissible, Complete;
    var queue' := queue + [next];
    forall p: Path | q.Admissible(p) && cur < p && p[|cur|] == edges[j] ensures Covered(queue', p) {
      assert p[..|cur| + 1] == next.path;
      assert queue'[|queue|].path <= p;
    }
    CompleteStep(q, queue, found, queue', found, cur, edges, j);
  }

  lemma PushSeparate(queue: seq<SearchState>, found: seq<Path>, cur: Path, edges: seq<Hop>, j: nat, next: SearchState)
    requires j < |edges| && Distinct(edges) && next.path == cur + [edges[j]]
    requires Separate(queue, found) && CurrentSeparate(queue, found, cur, edges[..j])
    ensures Separate(queue + [next], found) && CurrentSeparate(queue + [next], found, cur, edges[..j + 1])
  {
  }

  lemma StartIsIdle(q: Query)
    requires q.tokenIn in q.g
    ensures Idle(q, [SearchState(q.tokenIn, [], {q.tokenIn}, {})], [])
  {
  }

  /** The found paths, in order, without the excluded ones. */
  function Fresh(found: seq<Path>, excluded: set<Path>): seq<Path> {
    if found == [] then []
    else
      var rest := Fresh(found[..|found| - 1], excluded);
      if found[|found| - 1] in excluded then rest else rest + [found[|found| - 1]]
  }

  lemma TallyPush(q: Query, excluded: set<Path>, cap: Option<nat>, found: seq<Path>, paths: seq<Path>,
                  skipped: set<Path>, duplicatesSkipped: nat, path: Path)
    requires Tally(q, excluded, cap, found, paths, skipped, duplicatesSkipped, found != [])
    requires cap.Some? ==> |paths| < cap.value
    requires path !in found && FoundOk(q, found + [path])
    ensures if path in excluded
            then Tally(q, excluded, cap, found + [path], paths, skipped + {path}, duplicatesSkipped + 1, true)
            else Tally(q, excluded, cap, found + [path], paths + [path], skipped, duplicatesSkipped, true)
  {
    hide FoundOk, Fresh;
    FreshPush(found, path, excluded);
  }

  lemma FreshPush(found: seq<Path>, path: Path, excluded: set<Path>)
    ensures Fresh(found + [path], excluded)
         == if path in excluded then Fresh(found, excluded) else Fresh(found, excluded) + [path]
    ensures (set p | p in excluded && p in found + [path])
         == (set p | p in excluded && p in found) + (if path in excluded then {path} else {})
  {
  }

  lemma {:induction false} FreshFacts(found: seq<Path>, excluded: set<Path>)
    ensures forall p :: p in Fresh(found, excluded) <==> p in found && p !in excluded
    ensures Distinct(found) ==> Distinct(Fresh(found, excluded))
    ensures ByLength(found) ==> ByLength(Fresh(found, excluded))
  {
    if found != [] {
      var n := |found| - 1;
      assert found == found[..n] + [found[n]];
      FreshFacts(found[..n], excluded);
      var rest := Fresh(found[..n], excluded);
      assert forall p :: p in found <==> p in found[..n] || p == found[n];
      if ByLength(found) {
        forall i | 0 <= i < |rest| ensures |rest[i]| <= |found[n]| {
          assert rest[i] in found[..n];
        }
      }
    }
  }

  /** Whether the enumeration ran to the end: not interrupted, and not cut by the cap. */
  predicate RanToEnd(e: RouteEnumeration, cap: Option<nat>) {
    !e.stopped && (cap.None? || |e.paths| < cap.value)
  }

  ghost predicate EnumerationOk(q: Query, excluded: set<Path>, cap: Option<nat>, e: RouteEnumeration) {
    && (forall p :: p in e.paths ==> q.Admissible(p) && p !in excluded)
    && Distinct(e.paths)
    && ByLength(e.paths)
    && (cap.Some? ==> |e.paths| <= cap.value)
    && (RanToEnd(e, cap) ==>
          && (forall p :: q.Admissible(p) && p !in excluded ==> p in e.paths)
          && (exists p :: q.Admissible(p))
          && e.duplicatesSkipped == |set p | p in excluded && q.Admissible(p)|)
  }

  lemma NothingFound(q: Query)
    requires Idle(q, [], [])
    ensures forall p :: !q.Admissible(p)
  {
  }

  /** The loop's real variables against the ghost record of everything found. */
  ghost predicate Tally(q: Query, excluded: set<Path>, cap: Option<nat>, found: seq<Path>, paths: seq<Path>,
                        skipped: set<Path>, duplicatesSkipped: nat, foundPath: bool)
  {
    && FoundOk(q, found)
    && paths == Fresh(found, excluded)
    && skipped == (set p | p in excluded && p in found) && duplicatesSkipped == |skipped|
    && foundPath == (found != [])
    && (cap.Some? ==> |paths| <= cap.value)
  }

  lemma EmptyTally(q: Query, excluded: set<Path>, cap: Option<nat>)
    ensures Tally(q, excluded, cap, [], [], {}, 0, false)
  {
  }

  /** The report of a finished enumeration, whichever way the loop ended. */
  lemma Finish(q: Query, excluded: set<Path>, cap: Option<nat>, queue: seq<SearchState>, found: seq<Path>,
               skipped: set<Path>, e: RouteEnumeration)
    requires Tally(q, excluded, cap, found, e.paths, skipped, e.duplicatesSkipped, found != [])
    requires RanToEnd(e, cap) ==> queue == [] && found != [] && Idle(q, queue, found)
    ensures EnumerationOk(q, excluded, cap, e)
  {
    hide Query.Admissible, Query.StateOk, Fresh, QueueOk, Separate, Distinct, ByLength;
    FreshFacts(found, excluded);
    if RanToEnd(e, cap) {
      assert found[0] in found;
      assert skipped == set p | p in excluded && q.Admissible(p);
    }
  }

  /** Breadth-first enumeration. `poll(i)` is the answer of the i-th call of the caller's
      `should_continue`; a caller without one answers true throughout. */
  method EnumerateRoutes(q: Query, excluded: set<Path>, cap: Option<nat>, poll: nat -> bool)
    returns (r: Result<RouteEnumeration, SearchError>)
    requires WellFormed(q.g)
    ensures r == Failure(InvalidConfig) <==> q.cfg.minHops == 0 || q.cfg.maxHops < q.cfg.minHops || q.cfg.maxCandidates == Some(0)
    ensures q.cfg.Valid() ==>
              (r == Failure(TokenNotFound(q.tokenIn)) <==> q.tokenIn !in q.g)
              && (q.tokenIn in q.g ==> (r == Failure(TokenNotFound(q.tokenOut)) <==> q.tokenOut !in q.g))
    ensures q.cfg.Valid() && q.tokenIn in q.g && q.tokenOut in q.g && r.Failure? ==>
              r.error == NoPath && forall p :: !q.Admissible(p)
    ensures r.Success? ==> EnumerationOk(q, excluded, cap, r.value)
    ensures r.Success? && r.value.stopped ==> exists i :: !poll(i)
  {
    if !q.cfg.Valid() {
      return Failure(InvalidConfig);
    }
    if q.tokenIn !in q.g {
      return Failure(TokenNotFound(q.tokenIn));
    }
    if q.tokenOut !in q.g {
      return Failure(TokenNotFound(q.tokenOut));
    }
    if cap == Some(0) {
      return Success(RouteEnumeration([], 0, false));
    }
    r := Explore(q, excluded, cap, poll);
  }

  /** The queue loop behind `EnumerateRoutes`. */
  method Explore(q: Query, excluded: set<Path>, cap: Option<nat>, poll: nat -> bool)
    returns (r: Result<RouteEnumeration, SearchError>)
    requires WellFormed(q.g) && q.tokenIn in q.g && cap != Some(0)
    ensures r.Failure? ==> r.error == NoPath && forall p :: !q.Admissible(p)
    ensures r.Success? ==> EnumerationOk(q, excluded, cap, r.value)
    ensures r.Success? && r.value.stopped ==> exists i :: !poll(i)
  {
    hide Query.Admissible, Query.StateOk, Frontier, Idle, WellFormed, Pending, Work, Tally;
    var paths: seq<Path> := [];
    var queue := [SearchState(q.tokenIn, [], {q.tokenIn}, {})];
    var duplicatesSkipped := 0;
    var foundPath, stopped := false, false;
    var polls := 0;
    ghost var found: seq<Path> := [];
    ghost var skipped: set<Path> := {};
    ghost var b := SomeDegreeBound(q.g);
    StartIsIdle(q);
    EmptyTally(q, excluded, cap);

    label search:
    while queue != []
      invariant Idle(q, queue, found)
      invariant Tally(q, excluded, cap, found, paths, skipped, duplicatesSkipped, found != []) && foundPath == (found != [])
      invariant !stopped && (cap.Some? ==> |paths| < cap.value)
      decreases Pending(b, q.cfg.maxHops, queue)
    {
      var state := queue[0];
      BeginExpansion(q, queue, found);
      PendingPop(b, q.cfg.maxHops, queue);
      queue := queue[1..];
      var more := poll(polls);
      polls := polls + 1;
      if !more {
        stopped := true;
        break search;
      }
      if |state.path| >= q.cfg.maxHops {
        TooDeep(q, queue, found, state);
        continue search;
      }
      var edges := q.g[state.node];
      EdgesOf(q.g, state.node);
      ghost var w := Work(b, q.cfg.maxHops - |state.path| - 1);
      ghost var base := Pending(b, q.cfg.maxHops, queue);
      var j := 0;
      while j < |edges|
        invariant 0 <= j <= |edges|
        invariant Frontier(q, queue, found, state.path, edges, j)
        invariant Tally(q, excluded, cap, found, paths, skipped, duplicatesSkipped, found != []) && foundPath == (found != [])
        invariant !stopped && (cap.Some? ==> |paths| < cap.value)
        invariant Pending(b, q.cfg.maxHops, queue) <= base + j * w
      {
        more := poll(polls);
        polls := polls + 1;
        if !more {
          stopped := true;
          break search;
        }
        var e := edges[j];
        assert (j + 1) * w == j * w + w;
        if !q.EdgeAccepted(state, e) {
          SkipEdge(q, state, queue, found, edges, j);
        } else if e.tokenOut == q.tokenOut {
          var path := state.path + [e];
          if |path| >= q.cfg.minHops {
            RecordPath(q, state, queue, found, edges, j);
            TallyPush(q, excluded, cap, found, paths, skipped, duplicatesSkipped, path);
            foundPath := true;
            found := found + [path];
            if path in excluded {
              duplicatesSkipped := duplicatesSkipped + 1;
              skipped := skipped + {path};
            } else {
              paths := paths + [path];
            }
            if cap.Some? && |paths| >= cap.value {
              break search;
            }
          } else {
            SkipEdge(q, state, queue, found, edges, j);
          }
        } else if |state.path| + 1 < q.cfg.maxHops {
          var next := SearchState(e.tokenOut, state.path + [e], state.visited + {e.tokenOut}, state.used + {e.pool});
          PushState(q, state, queue, found, edges, j, next);
          PendingPush(b, q.cfg.maxHops, queue, next);
          queue := queue + [next];
        } else {
          SkipEdge(q, state, queue, found, edges, j);
        }
        j := j + 1;
      }
      EndExpansion(q, queue, found, state.path, edges);
      WorkStep(b, q.cfg.maxHops - |state.path|, |edges|);
    }

    if !foundPath && !stopped {
      NothingFound(q);
      return Failure(NoPath);
    }
    r := Success(RouteEnumeration(paths, duplicatesSkipped, stopped));
    Finish(q, excluded, cap, queue, found, skipped, r.value);
  }
}
