/** Upper-bound pruning: no completion of a prefix can return more than the largest target-token
    balance among the pools it could finish through. */
module BalanceCap {
  import opened Routing
  import opened PathEnumeration

  datatype Cap = Unknown | Known(amount: nat)

  /** Fresh target-token balance per pool; `None` for an unknown or stale one. */
  type Balances = Pool -> Option<nat>

  function Out(g: Graph, t: Token): seq<Hop> { if t in g then g[t] else [] }

  /** A walk that has not touched the target. */
  ghost predicate Approach(g: Graph, start: Token, target: Token, p: Path) {
    IsWalk(g, start, p) && forall h :: h in p ==> h.tokenOut != target
  }

  /** `e` enters the target at the end of some approach of at most `maxHops` hops in all. */
  ghost predicate Finishes(g: Graph, start: Token, target: Token, maxHops: nat, e: Hop) {
    && HasEdge(g, e) && e.tokenOut == target
    && exists p :: Approach(g, start, target, p) && |p| < maxHops && Stops(start, p)[|p|] == e.tokenIn
  }

  ghost predicate Reached(g: Graph, start: Token, target: Token, node: Token, depth: nat) {
    exists p :: Approach(g, start, target, p) && |p| == depth && Stops(start, p)[|p|] == node
  }

  lemma ReachedStep(g: Graph, start: Token, target: Token, node: Token, depth: nat, e: Hop)
    requires Reached(g, start, target, node, depth)
    requires HasEdge(g, e) && e.tokenIn == node && e.tokenOut != target
    ensures Reached(g, start, target, e.tokenOut, depth + 1)
  {
    var p :| Approach(g, start, target, p) && |p| == depth && Stops(start, p)[|p|] == node;
    StepFacts(g, start, p, e);
    assert Approach(g, start, target, p + [e]);
  }

  // ---- bookkeeping of the search ----

  datatype Mark = Mark(node: Token, depth: nat)

  /** Every edge of `node` has been taken into account: final ones in the cap, others in the marks. */
  ghost predicate EdgeDone(e: Hop, depth: nat, target: Token, maxHops: nat, balance: Balances, cap: Option<nat>, marks: set<Mark>) {
    if e.tokenOut == target then
      balance(e.pool).Some? && cap.Some? && balance(e.pool).value <= cap.value
    else
      depth + 1 < maxHops ==> Mark(e.tokenOut, depth + 1) in marks
  }

  ghost predicate AllDone(g: Graph, target: Token, maxHops: nat, balance: Balances, cap: Option<nat>, seen: set<Mark>, marks: set<Mark>) {
    forall m, i :: m in seen && 0 <= i < |Out(g, m.node)| ==>
      EdgeDone(Out(g, m.node)[i], m.depth, target, maxHops, balance, cap, marks)
  }

  ghost predicate MarksReached(g: Graph, start: Token, target: Token, marks: set<Mark>) {
    forall m :: m in marks ==> Reached(g, start, target, m.node, m.depth)
  }

  /** The cap, if any, is the balance of a reachable final pool. */
  ghost predicate CapAttained(g: Graph, start: Token, target: Token, maxHops: nat, balance: Balances, cap: Option<nat>) {
    cap.Some? ==> exists e :: Finishes(g, start, target, maxHops, e) && balance(e.pool) == cap
  }

  ghost function InQueue(queue: seq<Mark>): set<Mark> { set m | m in queue }

  lemma {:induction false} ClosureReaches(g: Graph, start: Token, target: Token, maxHops: nat, balance: Balances,
                                          cap: Option<nat>, seen: set<Mark>, p: Path)
    requires AllDone(g, target, maxHops, balance, cap, seen, seen) && Mark(start, 0) in seen
    requires Approach(g, start, target, p) && |p| < maxHops
    ensures Mark(Stops(start, p)[|p|], |p|) in seen
    decreases |p|
  {
    if p != [] {
      var n := |p| - 1;
      var pre := p[..n];
      StopsPrefix(start, p, n);
      assert Approach(g, start, target, pre) by {
        assert forall i :: 0 <= i < n ==> pre[i] == p[i];
      }
      ClosureReaches(g, start, target, maxHops, balance, cap, seen, pre);
      var e := p[n];
      assert e in p;
      var i :| 0 <= i < |g[e.tokenIn]| && g[e.tokenIn][i] == e;
      assert EdgeDone(Out(g, e.tokenIn)[i], n, target, maxHops, balance, cap, seen);
    }
  }

  /** A finished search has accounted for every final edge in reach. */
  lemma FinishedCoversAll(g: Graph, start: Token, target: Token, maxHops: nat, balance: Balances, cap: Option<nat>, seen: set<Mark>, e: Hop)
    requires AllDone(g, target, maxHops, balance, cap, seen, seen) && (maxHops > 0 ==> Mark(start, 0) in seen)
    requires Finishes(g, start, target, maxHops, e)
    ensures balance(e.pool).Some? && cap.Some? && balance(e.pool).value <= cap.value
  {
    var p :| Approach(g, start, target, p) && |p| < maxHops && Stops(start, p)[|p|] == e.tokenIn;
    ClosureReaches(g, start, target, maxHops, balance, cap, seen, p);
    var i :| 0 <= i < |g[e.tokenIn]| && g[e.tokenIn][i] == e;
    assert EdgeDone(Out(g, e.tokenIn)[i], |p|, target, maxHops, balance, cap, seen);
  }

  /** The cap is exact: known when every final pool in reach has a fresh balance, and then it is
      the largest of them. */
  ghost predicate CapExact(g: Graph, start: Token, target: Token, maxHops: nat, balance: Balances, r: Cap) {
    match r
    case Known(v) =>
      && (forall e :: Finishes(g, start, target, maxHops, e) ==> balance(e.pool).Some? && balance(e.pool).value <= v)
      && (exists e :: Finishes(g, start, target, maxHops, e) && balance(e.pool) == Some(v))
    case Unknown =>
      || (forall e :: !Finishes(g, start, target, maxHops, e))
      || (exists e :: Finishes(g, start, target, maxHops, e) && balance(e.pool).None?)
  }

  lemma EdgeFinishes(g: Graph, start: Token, target: Token, maxHops: nat, node: Token, depth: nat, e: Hop)
    requires Reached(g, start, target, node, depth) && depth < maxHops
    requires HasEdge(g, e) && e.tokenIn == node && e.tokenOut == target
    ensures Finishes(g, start, target, maxHops, e)
  {
  }

  lemma Conclude(g: Graph, start: Token, target: Token, maxHops: nat, balance: Balances, cap: Option<nat>, seen: set<Mark>)
    requires Book(g, start, target, maxHops, balance, cap, seen, seen)
    ensures CapExact(g, start, target, maxHops, balance, if cap.Some? then Known(cap.value) else Unknown)
  {
    hide Finishes, AllDone;
    forall e | Finishes(g, start, target, maxHops, e)
      ensures balance(e.pool).Some? && cap.Some? && balance(e.pool).value <= cap.value
    {
      FinishedCoversAll(g, start, target, maxHops, balance, cap, seen, e);
    }
  }

  lemma OutEdge(g: Graph, t: Token, i: nat)
    requires WellFormed(g) && i < |Out(g, t)|
    ensures HasEdge(g, Out(g, t)[i]) && Out(g, t)[i].tokenIn == t && Out(g, t)[i].tokenOut in g
  {
  }

  /** The state of the search: `seen` pairs are expanded, all `marks` are reachable. */
  ghost predicate Book(g: Graph, start: Token, target: Token, maxHops: nat, balance: Balances, cap: Option<nat>,
                       seen: set<Mark>, marks: set<Mark>)
  {
    && Mark(start, 0) in marks
    && MarksReached(g, start, target, marks)
    && (forall m :: m in marks ==> m.node in g.Keys + {start})
    && AllDone(g, target, maxHops, balance, cap, seen, marks)
    && CapAttained(g, start, target, maxHops, balance, cap)
  }

  /** Within one expansion: the first `j` edges of the pair are accounted for. */
  ghost predicate Partial(edges: seq<Hop>, j: nat, depth: nat, target: Token, maxHops: nat, balance: Balances, cap: Option<nat>, marks: set<Mark>)
    requires j <= |edges|
  {
    forall i :: 0 <= i < j ==> EdgeDone(edges[i], depth, target, maxHops, balance, cap, marks)
  }

  function Raise(cap: Option<nat>, b: nat): Option<nat> {
    if cap.Some? && cap.value >= b then cap else Some(b)
  }

  lemma TakeFinal(g: Graph, start: Token, target: Token, maxHops: nat, balance: Balances, cap: Option<nat>,
                  seen: set<Mark>, marks: set<Mark>, m: Mark, j: nat)
    requires WellFormed(g) && Book(g, start, target, maxHops, balance, cap, seen, marks) && m in marks && m.depth < maxHops
    requires j < |Out(g, m.node)| && Out(g, m.node)[j].tokenOut == target
    requires Partial(Out(g, m.node), j, m.depth, target, maxHops, balance, cap, marks)
    ensures Finishes(g, start, target, maxHops, Out(g, m.node)[j])
    ensures balance(Out(g, m.node)[j].pool).Some? ==>
              var cap' := Raise(cap, balance(Out(g, m.node)[j].pool).value);
              && Book(g, start, target, maxHops, balance, cap', seen, marks)
              && Partial(Out(g, m.node), j + 1, m.depth, target, maxHops, balance, cap', marks)
  {
    hide Reached, Finishes, WellFormed;
    var e := Out(g, m.node)[j];
    OutEdge(g, m.node, j);
    EdgeFinishes(g, start, target, maxHops, m.node, m.depth, e);
  }

  lemma TakeStep(g: Graph, start: Token, target: Token, maxHops: nat, balance: Balances, cap: Option<nat>,
                 seen: set<Mark>, marks: set<Mark>, m: Mark, j: nat)
    requires WellFormed(g) && Book(g, start, target, maxHops, balance, cap, seen, marks) && m in marks && m.depth < maxHops
    requires j < |Out(g, m.node)| && Out(g, m.node)[j].tokenOut != target
    requires Partial(Out(g, m.node), j, m.depth, target, maxHops, balance, cap, marks)
    ensures var marks' := if m.depth + 1 < maxHops then marks + {Mark(Out(g, m.node)[j].tokenOut, m.depth + 1)} else marks;
            && Book(g, start, target, maxHops, balance, cap, seen, marks')
            && Partial(Out(g, m.node), j + 1, m.depth, target, maxHops, balance, cap, marks')
  {
    hide Reached, Finishes, WellFormed, CapAttained;
    var e := Out(g, m.node)[j];
    OutEdge(g, m.node, j);
    ReachedStep(g, start, target, m.node, m.depth, e);
  }

  /** Look at every edge of one pair: raise the cap at the target, list the other ends to visit. */
  method Expand(g: Graph, start: Token, target: Token, maxHops: nat, balance: Balances, cap0: Option<nat>, mark: Mark,
                ghost seen: set<Mark>, ghost marks: set<Mark>)
    returns (cap: Option<nat>, more: seq<Mark>, unknown: bool)
    requires WellFormed(g) && mark.depth < maxHops && mark in marks
    requires Book(g, start, target, maxHops, balance, cap0, seen, marks)
    ensures unknown ==> CapExact(g, start, target, maxHops, balance, Unknown)
    ensures !unknown ==> Book(g, start, target, maxHops, balance, cap, seen, marks + InQueue(more))
    ensures !unknown ==> Partial(Out(g, mark.node), |Out(g, mark.node)|, mark.depth, target, maxHops, balance, cap, marks + InQueue(more))
  {
    hide *;
    cap, more, unknown := cap0, [], false;
    var edges := Out(g, mark.node);
    EmptyQueue(marks);
    NoEdgesYet(edges, mark.depth, target, maxHops, balance, cap, marks);
    var j := 0;
    while j < |edges|
      invariant 0 <= j <= |edges|
      invariant Book(g, start, target, maxHops, balance, cap, seen, marks + InQueue(more))
      invariant Partial(edges, j, mark.depth, target, maxHops, balance, cap, marks + InQueue(more))
    {
      var e := edges[j];
      if e.tokenOut == target {
        TakeFinal(g, start, target, maxHops, balance, cap, seen, marks + InQueue(more), mark, j);
        if balance(e.pool).None? {
          UnknownBalance(g, start, target, maxHops, balance, e);
          unknown := true;
          return;
        }
        cap := Raise(cap, balance(e.pool).value);
      } else {
        TakeStep(g, start, target, maxHops, balance, cap, seen, marks + InQueue(more), mark, j);
        if mark.depth + 1 < maxHops {
          QueuePushed(marks, more, Mark(e.tokenOut, mark.depth + 1));
          more := more + [Mark(e.tokenOut, mark.depth + 1)];
        }
      }
      j := j + 1;
    }
  }

  lemma QueueConcat(seen: set<Mark>, queue: seq<Mark>, more: seq<Mark>)
    ensures seen + InQueue(queue + more) == seen + InQueue(queue) + InQueue(more)
  {
  }

  /** Breadth-first search over (node, depth) pairs. It ends: each pair is expanded once. */
  method TargetBalanceCap(g: Graph, start: Token, target: Token, maxHops: nat, balance: Balances) returns (r: Cap)
    requires WellFormed(g)
    ensures CapExact(g, start, target, maxHops, balance, r)
  {
    hide *;
    if maxHops == 0 {
      NoHopsNoCap(g, start, target, balance);
      return Unknown;
    }
    var cap: Option<nat> := None;
    var queue: seq<Mark> := [Mark(start, 0)];
    var seen: set<Mark> := {};
    ghost var universe := set t, d | t in g.Keys + {start} && 0 <= d < maxHops :: Mark(t, d);
    StartReached(g, start, target, maxHops, balance);
    while queue != []
      invariant seen <= universe
      invariant Book(g, start, target, maxHops, balance, cap, seen, seen + InQueue(queue))
      decreases |universe - seen|, |queue|
    {
      var mark := queue[0];
      ghost var all := seen + InQueue(queue);
      QueueHead(queue);
      queue := queue[1..];
      if mark.depth >= maxHops || mark in seen {
        assert seen + InQueue(queue) + {mark} == all;
        SkipMark(g, start, target, maxHops, balance, cap, seen, all, InQueue(queue), mark);
        continue;
      }
      MarkKnown(g, start, target, maxHops, balance, cap, seen, all, mark);
      ShrinkUniverse(universe, seen, mark);
      ghost var before := seen;
      seen := seen + {mark};
      assert seen + InQueue(queue) == all;
      var more, unknown;
      cap, more, unknown := Expand(g, start, target, maxHops, balance, cap, mark, before, all);
      if unknown {
        return Unknown;
      }
      QueueConcat(seen, queue, more);
      queue := queue + more;
      DoneMark(g, start, target, maxHops, balance, cap, before, mark, seen + InQueue(queue));
    }
    EmptyQueue(seen);
    Conclude(g, start, target, maxHops, balance, cap, seen);
    r := if cap.Some? then Known(cap.value) else Unknown;
  }

  lemma NoHopsNoCap(g: Graph, start: Token, target: Token, balance: Balances)
    ensures CapExact(g, start, target, 0, balance, Unknown)
  {
  }

  lemma EmptyQueue(seen: set<Mark>)
    ensures seen + InQueue([]) == seen
  {
  }

  lemma QueuePushed(seen: set<Mark>, queue: seq<Mark>, m: Mark)
    ensures seen + InQueue(queue + [m]) == seen + InQueue(queue) + {m}
  {
  }

  lemma QueueHead(queue: seq<Mark>)
    requires queue != []
    ensures InQueue(queue) == InQueue(queue[1..]) + {queue[0]}
  {
  }

  lemma MarkKnown(g: Graph, start: Token, target: Token, maxHops: nat, balance: Balances, cap: Option<nat>,
                  seen: set<Mark>, marks: set<Mark>, m: Mark)
    requires Book(g, start, target, maxHops, balance, cap, seen, marks) && m in marks
    ensures m.node in g.Keys + {start}
  {
  }

  lemma NoEdgesYet(edges: seq<Hop>, depth: nat, target: Token, maxHops: nat, balance: Balances, cap: Option<nat>, marks: set<Mark>)
    ensures Partial(edges, 0, depth, target, maxHops, balance, cap, marks)
  {
  }

  lemma StartReached(g: Graph, start: Token, target: Token, maxHops: nat, balance: Balances)
    ensures Book(g, start, target, maxHops, balance, None, {}, {} + InQueue([Mark(start, 0)]))
  {
  }

  lemma UnknownBalance(g: Graph, start: Token, target: Token, maxHops: nat, balance: Balances, e: Hop)
    requires Finishes(g, start, target, maxHops, e) && balance(e.pool).None?
    ensures CapExact(g, start, target, maxHops, balance, Unknown)
  {
  }

  lemma ShrinkUniverse(universe: set<Mark>, seen: set<Mark>, m: Mark)
    requires m in universe && m !in seen
    ensures |universe - (seen + {m})| < |universe - seen|
  {
    assert universe - seen == (universe - (seen + {m})) + {m};
  }

  lemma SkipMark(g: Graph, start: Token, target: Token, maxHops: nat, balance: Balances, cap: Option<nat>, seen: set<Mark>,
                 all: set<Mark>, rest: set<Mark>, m: Mark)
    requires Book(g, start, target, maxHops, balance, cap, seen, all) && seen + rest + {m} == all && maxHops > 0
    requires m.depth >= maxHops || m in seen
    ensures Book(g, start, target, maxHops, balance, cap, seen, seen + rest)
  {
    hide Reached, CapAttained;
  }

  lemma DoneMark(g: Graph, start: Token, target: Token, maxHops: nat, balance: Balances, cap: Option<nat>, seen: set<Mark>, m: Mark, marks: set<Mark>)
    requires Book(g, start, target, maxHops, balance, cap, seen, marks)
    requires Partial(Out(g, m.node), |Out(g, m.node)|, m.depth, target, maxHops, balance, cap, marks)
    ensures Book(g, start, target, maxHops, balance, cap, seen + {m}, marks)
  {
  }

  // ---- soundness of pruning by the cap ----

  /** A swap into the target never pays out more than the pool holds. */
  ghost predicate PaysWithin(f: Quoter, balance: Balances, target: Token) {
    forall e: Hop, a: nat :: e.tokenOut == target && f(e, a).Ok? && balance(e.pool).Some? ==>
      f(e, a).amount <= balance(e.pool).value
  }

  lemma AdmissibleAt(q: Query, p: Path, i: nat)
    requires q.Admissible(p) && i < |p|
    ensures HasEdge(q.g, p[i]) && p[i].tokenIn == Stops(q.tokenIn, p)[i]
    ensures !q.revisit ==> (p[i].tokenOut == q.tokenOut <==> i == |p| - 1)
  {
  }

  lemma CompletionBasics(q: Query, s: SearchState, c: Path)
    requires q.StateOk(s) && q.Admissible(s.path + c)
    ensures s.node == Stops(q.tokenIn, s.path)[|s.path|] && |s.path + c| <= q.cfg.maxHops
  {
  }

  /** What comes before the last hop of a completion is a walk that avoids the target. */
  lemma CompletionApproaches(q: Query, s: SearchState, c: Path)
    requires q.StateOk(s) && !q.revisit && c != [] && q.Admissible(s.path + c)
    ensures Approach(q.g, s.node, q.tokenOut, c[..|c| - 1])
  {
    hide Stops, Query.Admissible, Query.StateOk, HasEdge;
    var p, m, n := s.path + c, |s.path|, |c| - 1;
    var approach := c[..n];
    CompletionBasics(q, s, c);
    StopsPrefix(s.node, c, n);
    forall i | 0 <= i < n
      ensures HasEdge(q.g, approach[i]) && approach[i].tokenIn == Stops(s.node, approach)[i] && approach[i].tokenOut != q.tokenOut
    {
      assert approach[i] == p[m + i];
      SuffixStopsAt(q.tokenIn, s.path, c, i);
      AdmissibleAt(q, p, m + i);
    }
  }

  /** The last hop of any admissible completion is one of the final edges the cap covers. */
  lemma CompletionFinishes(q: Query, s: SearchState, c: Path)
    requires q.StateOk(s) && !q.revisit && c != [] && q.Admissible(s.path + c)
    ensures Finishes(q.g, s.node, q.tokenOut, q.cfg.maxHops - |s.path|, c[|c| - 1])
  {
    hide Stops, Query.Admissible, Query.StateOk, HasEdge, Approach;
    var p, m, n := s.path + c, |s.path|, |c| - 1;
    CompletionBasics(q, s, c);
    CompletionApproaches(q, s, c);
    StopsPrefix(s.node, c, n);
    SuffixStopsAt(q.tokenIn, s.path, c, n);
    assert c[n] == p[m + n];
    AdmissibleAt(q, p, m + n);
  }

  /** The stops of a longer walk from some point on are the stops of its remainder. */
  lemma {:induction false} SuffixStops(start: Token, a: Path, b: Path)
    ensures Stops(start, a + b)[|a|..] == Stops(Stops(start, a)[|a|], b)
    decreases |b|
  {
    if b == [] {
      assert a + b == a;
    } else {
      var n, m := |b| - 1, |a|;
      SuffixStops(start, a, b[..n]);
      assert (a + b)[..m + n] == a + b[..n] && (a + b)[m + n] == b[n];
      var front, t := Stops(start, a + b[..n]), [b[n].tokenOut];
      assert Stops(start, a + b) == front + t;
      assert (front + t)[m..] == front[m..] + t;
    }
  }

  lemma SuffixStopsAt(start: Token, a: Path, b: Path, i: nat)
    requires i <= |b|
    ensures Stops(start, a + b)[|a| + i] == Stops(Stops(start, a)[|a|], b)[i]
  {
    SuffixStops(start, a, b);
    assert Stops(start, a + b)[|a|..][i] == Stops(start, a + b)[|a| + i];
  }

  /** No completion of a prefix returns more than a known cap. */
  lemma CapBoundsCompletions(q: Query, s: SearchState, c: Path, balance: Balances, cap: nat, f: Quoter, amountIn: nat)
    requires q.StateOk(s) && !q.revisit && c != [] && q.Admissible(s.path + c)
    requires CapExact(q.g, s.node, q.tokenOut, q.cfg.maxHops - |s.path|, balance, Known(cap))
    requires PaysWithin(f, balance, q.tokenOut) && Run(f, s.path + c, amountIn).Ran?
    ensures Run(f, s.path + c, amountIn).amountOut <= cap
  {
    hide Query.Admissible, Query.StateOk, Finishes, Run;
    CompletionBasics(q, s, c);
    CompletionFinishes(q, s, c);
    var last := c[|c| - 1];
    var front := s.path + c[..|c| - 1];
    assert s.path + c == front + [last];
    AdmissibleAt(q, s.path + c, |front|);
    LastHop(f, front, last, amountIn);
  }

  lemma LastHop(f: Quoter, front: Path, last: Hop, amountIn: nat)
    requires Run(f, front + [last], amountIn).Ran?
    ensures Run(f, front, amountIn).Ran?
    ensures f(last, Run(f, front, amountIn).amountOut) == Ok(Run(f, front + [last], amountIn).amountOut)
  {
    RunAppend(f, front, [last], amountIn);
    assert [last][1..] == [];
  }

  datatype PruneConfig = PruneConfig(enabled: bool, balanceCapPruning: bool)

  /** The pruning decision of the heuristic loop. A pruned prefix has no completion better than the
      incumbent route. */
  method ShouldPrunePrefix(q: Query, s: SearchState, incumbent: Option<nat>, config: PruneConfig,
                           index: Option<Balances>, ghost f: Quoter, ghost amountIn: nat) returns (prune: bool)
    requires WellFormed(q.g) && q.StateOk(s)
    requires index.Some? ==> PaysWithin(f, index.value, q.tokenOut)
    ensures prune ==> incumbent.Some? && config.enabled && config.balanceCapPruning
    ensures prune ==> forall c: Path :: c != [] && q.Admissible(s.path + c) && Run(f, s.path + c, amountIn).Ran? ==>
              Run(f, s.path + c, amountIn).amountOut <= incumbent.value
  {
    hide Query.Admissible, Query.StateOk, CapExact, PaysWithin, Run, WellFormed;
    if q.revisit || !config.enabled || !config.balanceCapPruning || incumbent.None?
       || s.node == q.tokenOut || |s.path| >= q.cfg.maxHops || index.None? {
      return false;
    }
    var remaining := q.cfg.maxHops - |s.path|;
    var cap := TargetBalanceCap(q.g, s.node, q.tokenOut, remaining, index.value);
    if cap.Known? && cap.amount <= incumbent.value {
      CapBoundsAll(q, s, index.value, cap.amount, f, amountIn);
      return true;
    }
    prune := false;
  }

  lemma CapBoundsAll(q: Query, s: SearchState, balance: Balances, cap: nat, f: Quoter, amountIn: nat)
    requires q.StateOk(s) && !q.revisit && |s.path| <= q.cfg.maxHops
    requires CapExact(q.g, s.node, q.tokenOut, q.cfg.maxHops - |s.path|, balance, Known(cap)) && PaysWithin(f, balance, q.tokenOut)
    ensures forall c: Path :: c != [] && q.Admissible(s.path + c) && Run(f, s.path + c, amountIn).Ran? ==>
              Run(f, s.path + c, amountIn).amountOut <= cap
  {
    hide Query.Admissible, Query.StateOk, CapExact, PaysWithin, Run;
    forall c: Path | c != [] && q.Admissible(s.path + c) && Run(f, s.path + c, amountIn).Ran?
      ensures Run(f, s.path + c, amountIn).amountOut <= cap
    {
      CapBoundsCompletions(q, s, c, balance, cap, f, amountIn);
    }
  }
}
