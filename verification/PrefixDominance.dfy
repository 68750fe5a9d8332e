/** Prefix-dominance pruning of the heuristic search: the label index, and when discarding a
    dominated prefix is harmless. */
module PrefixDominance {
  import opened Routing
  import opened PathEnumeration

  // ---- the label index ----

  datatype Label = Label(amount: nat, visited: set<Token>, blocked: set<Pool>)

  /** `a` is at least as good as `b` in every respect the index compares. */
  predicate Dominates(a: Label, b: Label) {
    a.amount >= b.amount && a.visited <= b.visited && a.blocked <= b.blocked
  }

  ghost predicate SomeDominates(labels: seq<Label>, l: Label) {
    exists i :: 0 <= i < |labels| && Dominates(labels[i], l)
  }

  ghost predicate Antichain(labels: seq<Label>) {
    forall i, j :: 0 <= i < |labels| && 0 <= j < |labels| && i != j ==> !Dominates(labels[i], labels[j])
  }

  /** The labels a newcomer does not dominate, in order. */
  function Retain(labels: seq<Label>, l: Label): (r: seq<Label>)
    ensures forall i :: 0 <= i < |r| ==> r[i] in labels && !Dominates(l, r[i])
    ensures forall i :: 0 <= i < |labels| && !Dominates(l, labels[i]) ==> labels[i] in r
  {
    if labels == [] then []
    else if Dominates(l, labels[|labels| - 1]) then Retain(labels[..|labels| - 1], l)
    else Retain(labels[..|labels| - 1], l) + [labels[|labels| - 1]]
  }

  lemma {:induction false} RetainAntichain(labels: seq<Label>, l: Label)
    requires Antichain(labels)
    ensures Antichain(Retain(labels, l))
  {
    if labels != [] {
      var n := |labels| - 1;
      var rest := Retain(labels[..n], l);
      RetainAntichain(labels[..n], l);
      forall i | 0 <= i < |rest| ensures !Dominates(rest[i], labels[n]) && !Dominates(labels[n], rest[i]) {
        var j :| 0 <= j < n && labels[..n][j] == rest[i];
        assert labels[j] == rest[i];
      }
    }
  }

  class PrefixDominanceIndex {
    var labels: map<Token, seq<Label>>
    /** Everything ever offered to the index. */
    ghost var offered: set<(Token, Label)>

    ghost predicate Valid()
      reads this
    {
      && (forall t :: t in labels ==> Antichain(labels[t]))
      && (forall x :: x in offered ==> x.0 in labels && SomeDominates(labels[x.0], x.1))
      && (forall t, i :: t in labels && 0 <= i < |labels[t]| ==> (t, labels[t][i]) in offered)
    }

    constructor ()
      ensures Valid() && labels == map[] && offered == {}
    {
      labels, offered := map[], {};
    }

    function At(token: Token): seq<Label>
      reads this
    {
      if token in labels then labels[token] else []
    }

    /** Offer a label: report it dominated, or keep it and evict whatever it dominates. Afterwards
        the index is an antichain that weakly dominates everything ever offered. */
    method InsertOrDominated(token: Token, label_: Label) returns (dominated: bool)
      requires Valid()
      modifies this
      ensures Valid() && offered == old(offered) + {(token, label_)}
      ensures dominated <==> old(token in labels && SomeDominates(labels[token], label_))
      ensures old((token, label_) in offered) ==> dominated
      ensures dominated ==> labels == old(labels)
      ensures !dominated ==> labels == old(labels[token := Retain(At(token), label_) + [label_]])
    {
      var here := At(token);
      offered := offered + {(token, label_)};
      dominated := exists i :: 0 <= i < |here| && Dominates(here[i], label_);
      if dominated {
        assert SomeDominates(here, label_);
        return;
      }
      var next := Retain(here, label_) + [label_];
      Admit(here, label_);
      labels := labels[token := next];
      forall x | x in offered ensures x.0 in labels && SomeDominates(labels[x.0], x.1) {
        if x == (token, label_) {
          assert next[|next| - 1] == label_;
        } else if x.0 == token {
          assert SomeDominates(here, x.1);
        }
      }
      forall i | 0 <= i < |next| ensures (token, next[i]) in offered {
        if i < |next| - 1 {
          var j :| 0 <= j < |here| && here[j] == next[i];
        }
      }
    }

    /** Whether some label beats the candidate with a strict advantage somewhere. */
    predicate IsStrictlyDominated(token: Token, l: Label)
      reads this
    {
      token in labels &&
      exists i :: 0 <= i < |labels[token]| && Dominates(labels[token][i], l)
        && (labels[token][i].amount > l.amount || |labels[token][i].visited| < |l.visited|
            || |labels[token][i].blocked| < |l.blocked|)
    }

    /** A label that was offered is strictly dominated exactly when it is no longer retained. */
    lemma StrictIffDropped(token: Token, l: Label)
      requires Valid() && (token, l) in offered
      ensures token in labels && (IsStrictlyDominated(token, l) <==> l !in labels[token])
    {
      var here := labels[token];
      assert SomeDominates(here, l);
      if l !in here {
        var i :| 0 <= i < |here| && Dominates(here[i], l);
        assert here[i] in here;
        StrictlyBetter(here[i], l);
      }
    }
  }

  lemma StrictlyBetter(a: Label, b: Label)
    requires Dominates(a, b) && a != b
    ensures a.amount > b.amount || |a.visited| < |b.visited| || |a.blocked| < |b.blocked|
  {
    if a.visited < b.visited { ProperSubset(a.visited, b.visited); }
    if a.blocked < b.blocked { ProperSubset(a.blocked, b.blocked); }
  }

  lemma ProperSubset<T>(a: set<T>, b: set<T>)
    requires a < b
    ensures |a| < |b|
  {
    var x :| x in b && x !in a;
    SubsetSize(a, b - {x});
  }

  /** Admitting an undominated label keeps an antichain and loses no dominance already provided. */
  lemma Admit(labels: seq<Label>, l: Label)
    requires Antichain(labels) && !SomeDominates(labels, l)
    ensures Antichain(Retain(labels, l) + [l])
    ensures forall x :: SomeDominates(labels, x) ==> SomeDominates(Retain(labels, l) + [l], x)
  {
    RetainAntichain(labels, l);
    var kept := Retain(labels, l);
    var next := kept + [l];
    forall i | 0 <= i < |kept| ensures !Dominates(kept[i], l) {
      var j :| 0 <= j < |labels| && labels[j] == kept[i];
    }
    forall x | SomeDominates(labels, x) ensures SomeDominates(next, x) {
      var i :| 0 <= i < |labels| && Dominates(labels[i], x);
      if Dominates(l, labels[i]) {
        assert Dominates(next[|kept|], x);
      } else {
        var j :| 0 <= j < |kept| && kept[j] == labels[i];
        assert Dominates(next[j], x);
      }
    }
  }

  // ---- what a label remembers of the pools its prefix used ----

  /** An edge the prefix could take next if its pool were still free. */
  predicate CouldTake(q: Query, visited: set<Token>, e: Hop) {
    && (e.tokenOut !in visited || (q.ClosingCycle() && e.tokenOut == q.tokenIn))
    && (e.tokenOut == q.tokenOut || q.Allowed(e.tokenOut))
  }

  /** The used pools that block an otherwise possible next hop. */
  function Blocked(q: Query, node: Token, visited: set<Token>, used: set<Pool>): set<Pool> {
    if node in q.g
    then set e | e in q.g[node] && e.pool in used && CouldTake(q, visited, e) :: e.pool
    else {}
  }

  /** A used pool is blocked exactly if, were it still free, the search would accept one of its edges here. */
  ghost predicate IsBlocked(q: Query, node: Token, visited: set<Token>, used: set<Pool>, p: Pool) {
    p in used && exists e :: HasEdge(q.g, e) && e.tokenIn == node && e.pool == p && q.EdgeAccepted(SearchState(node, [], visited, used - {p}), e)
  }

  lemma BlockedExactly(q: Query, node: Token, visited: set<Token>, used: set<Pool>)
    requires WellFormed(q.g)
    ensures forall p :: p in Blocked(q, node, visited, used) <==> IsBlocked(q, node, visited, used, p)
  {
    forall p ensures p in Blocked(q, node, visited, used) <==> IsBlocked(q, node, visited, used, p) {
      if p in Blocked(q, node, visited, used) {
        var e :| e in q.g[node] && e.pool in used && CouldTake(q, visited, e) && e.pool == p;
        assert HasEdge(q.g, e) && q.EdgeAccepted(SearchState(node, [], visited, used - {p}), e);
      }
      if IsBlocked(q, node, visited, used, p) {
        var e :| HasEdge(q.g, e) && e.tokenIn == node && e.pool == p && q.EdgeAccepted(SearchState(node, [], visited, used - {p}), e);
        assert CouldTake(q, visited, e);
      }
    }
  }

  method FutureBlockedPools(q: Query, node: Token, visited: set<Token>, used: set<Pool>) returns (blocked: set<Pool>)
    requires WellFormed(q.g)
    ensures blocked == Blocked(q, node, visited, used) && forall p :: p in blocked <==> IsBlocked(q, node, visited, used, p)
  {
    hide WellFormed, IsBlocked;
    BlockedExactly(q, node, visited, used);
    blocked := {};
    var edges := if node in q.g then q.g[node] else [];
    for i := 0 to |edges|
      invariant blocked == set e | e in edges[..i] && e.pool in used && CouldTake(q, visited, e) :: e.pool
    {
      var e := edges[i];
      assert edges[..i + 1] == edges[..i] + [e];
      if e.pool in used && CouldTake(q, visited, e) {
        blocked := blocked + {e.pool};
      }
    }
    assert edges[..|edges|] == edges;
  }

  function LabelOf(q: Query, p: Path, amount: nat): Label {
    var visited := Visited(q.tokenIn, p);
    Label(amount, visited, Blocked(q, Stops(q.tokenIn, p)[|p|], visited, Pools(p)))
  }

  // ---- when dominance is sound ----

  /** A retained prefix, a prefix it dominates, and a completion of the latter. */
  datatype Case = Case(q: Query, kept: Path, pruned: Path, completion: Path) {

    ghost predicate Possible() {
      && WellFormed(q.g) && PoolsAreCliques(q.g) && q.tokenIn in q.g && q.cfg.Valid()
      && q.Open(kept) && q.Open(pruned) && kept != [] && pruned != [] && completion != []
      && Stops(q.tokenIn, kept)[|kept|] == Stops(q.tokenIn, pruned)[|pruned|]
      && Dominates(LabelOf(q, kept, 0), LabelOf(q, pruned, 0))
      && q.Admissible(pruned + completion)
    }

    ghost predicate Kept() {
      q.Admissible(kept + completion) && |kept + completion| <= |pruned + completion|
    }

    /** The search compares the two prefixes by these amounts and discards the second. */
    ghost predicate Discards(f: Quoter, amountIn: nat) {
      && Run(f, kept, amountIn).Ran? && Run(f, pruned, amountIn).Ran?
      && Dominates(LabelOf(q, kept, Run(f, kept, amountIn).amountOut), LabelOf(q, pruned, Run(f, pruned, amountIn).amountOut))
    }

    /** Some completion of the retained prefix makes up for the route that went with the discarded one. */
    ghost predicate MadeUp(f: Quoter, amountIn: nat) {
      exists c: Path :: q.Admissible(kept + c) && ReturnsAtLeast(f, kept + c, pruned + completion, amountIn)
    }
  }

  /** `a` is viable and returns no less than `b`, which is viable. */
  ghost predicate ReturnsAtLeast(f: Quoter, a: Path, b: Path, amountIn: nat) {
    Run(f, a, amountIn).Ran? && Run(f, b, amountIn).Ran? && Run(f, a, amountIn).amountOut >= Run(f, b, amountIn).amountOut
  }

  /** A case under concrete prices. */
  datatype Priced = Priced(x: Case, truth: Truths, amountIn: nat) {

    ghost predicate Loses() {
      var f := QuoterOf(truth);
      x.Possible() && Monotone(f) && x.Discards(f, amountIn) && Run(f, x.pruned + x.completion, amountIn).Ran? && !x.MadeUp(f, amountIn)
    }
  }

  /** With these hop bounds and pools monotone in their input, discarding a dominated prefix never
      costs output: whatever the graph, the prefixes and the prices. */
  ghost predicate DominanceSound(minHops: nat, maxHops: nat) {
    forall y: Priced :: y.x.q.cfg.minHops == minHops && y.x.q.cfg.maxHops == maxHops ==> !y.Loses()
  }

  function StateOf(q: Query, p: Path): SearchState {
    SearchState(Stops(q.tokenIn, p)[|p|], p, Visited(q.tokenIn, p), Pools(p))
  }

  lemma StateOfOk(q: Query, p: Path)
    requires WellFormed(q.g) && q.Open(p) && p != []
    ensures q.StateOk(StateOf(q, p))
  {
  }

  /** Visited sets fix path length, so a dominating prefix is no longer than the one it dominates. */
  lemma DominatorNoLonger(q: Query, kept: Path, pruned: Path)
    requires q.Open(kept) && q.Open(pruned) && Visited(q.tokenIn, kept) <= Visited(q.tokenIn, pruned)
    ensures |kept| <= |pruned|
  {
    DistinctCount(Stops(q.tokenIn, kept));
    DistinctCount(Stops(q.tokenIn, pruned));
    SubsetSize(Visited(q.tokenIn, kept), Visited(q.tokenIn, pruned));
  }

  /** What a possible case provides, without its definition. */
  lemma CaseFacts(x: Case)
    requires x.Possible()
    ensures WellFormed(x.q.g) && PoolsAreCliques(x.q.g) && x.completion != [] && x.kept != []
    ensures var k, s := StateOf(x.q, x.kept), StateOf(x.q, x.pruned);
            && x.q.StateOk(k) && x.q.StateOk(s) && k.node == s.node && k.visited <= s.visited
            && Blocked(x.q, k.node, k.visited, k.used) <= Blocked(x.q, s.node, s.visited, s.used) <= s.used
    ensures 1 <= |x.kept| <= |x.pruned| && |x.pruned| + |x.completion| <= x.q.cfg.maxHops
    ensures x.q.Admissible(x.pruned + x.completion)
  {
    StateOfOk(x.q, x.kept);
    StateOfOk(x.q, x.pruned);
    DominatorNoLonger(x.q, x.kept, x.pruned);
  }

  /** The first hop of the pruned prefix's completion is open to the kept prefix as well. */
  lemma FirstHopShared(x: Case)
    requires x.Possible()
    ensures var e := x.completion[0];
            && HasEdge(x.q.g, e) && e.tokenIn == StateOf(x.q, x.kept).node
            && x.q.EdgeAccepted(StateOf(x.q, x.kept), e)
            && x.q.EdgeAccepted(StateOf(x.q, x.pruned), e)
            && (e.tokenOut == x.q.tokenOut <==> |x.completion| == 1)
  {
    CaseFacts(x);
    hide Case.Possible, Query.Admissible, Query.StateOk, WellFormed, PoolsAreCliques;
    var q, s, k := x.q, StateOf(x.q, x.pruned), StateOf(x.q, x.kept);
    var whole := x.pruned + x.completion;
    assert whole[|x.pruned|] == x.completion[0];
    NextHopAccepted(q, s, whole);
    var e := x.completion[0];
    assert e.pool in k.used ==> e.pool in Blocked(q, k.node, k.visited, k.used);
  }

  /** The second hop follows the first and avoids every pool of the pruned prefix. */
  lemma SecondHopFacts(x: Case)
    requires x.Possible() && |x.completion| == 2
    ensures HasEdge(x.q.g, x.completion[1]) && x.completion[1].tokenIn == x.completion[0].tokenOut
    ensures x.completion[1].pool !in Pools(x.pruned)
  {
    hide Case.Possible, Query.Admissible, Query.StateOk, WellFormed, PoolsAreCliques, Visited, Blocked, Pools;
    CaseFacts(x);
    assert x.completion == [x.completion[0], x.completion[1]];
    AdmissiblePair(x.q, x.pruned, x.completion[0], x.completion[1]);
  }

  lemma AdmissiblePair(q: Query, p: Path, e: Hop, f: Hop)
    requires q.Admissible(p + [e, f])
    ensures HasEdge(q.g, f) && f.tokenIn == e.tokenOut && f.pool !in Pools(p)
  {
    var whole := p + [e, f];
    assert whole[|p|] == e && whole[|p| + 1] == f;
    assert Stops(q.tokenIn, whole)[|p| + 1] == whole[|p|].tokenOut;
    forall h | h in p ensures h.pool != f.pool {
      var i :| 0 <= i < |p| && p[i] == h;
      assert whole[i] == h;
    }
  }

  /** A pool the kept prefix used cannot be the pruned prefix's second step either: cliques make it
      block the first. */
  lemma SecondHopShared(x: Case)
    requires x.Possible() && |x.kept| == 1 && |x.completion| == 2
    ensures x.completion[1].pool != x.kept[0].pool
  {
    hide Case.Possible, Query.Admissible, WellFormed, PoolsAreCliques;
    CaseFacts(x);
    FirstHopShared(x);
    SecondHopFacts(x);
    EdgeLeaves(x.q.g, x.completion[0]);
    if x.completion[1].pool == x.kept[0].pool {
      BlocksFirst(x.q, x.kept, x.completion[0], x.completion[1]);
    }
  }

  lemma BlocksFirst(q: Query, kept: Path, e0: Hop, e1: Hop)
    requires |kept| == 1 && q.StateOk(StateOf(q, kept)) && PoolsAreCliques(q.g)
    requires HasEdge(q.g, e0) && e0.tokenIn == kept[0].tokenOut != e0.tokenOut && CouldTake(q, Visited(q.tokenIn, kept), e0)
    requires HasEdge(q.g, e1) && e1.tokenIn == e0.tokenOut && e1.pool == kept[0].pool
    ensures e1.pool in Blocked(q, kept[0].tokenOut, Visited(q.tokenIn, kept), Pools(kept))
  {
  }

  lemma EdgeLeaves(g: Graph, e: Hop)
    requires WellFormed(g) && HasEdge(g, e)
    ensures e.tokenIn != e.tokenOut
  {
  }

  /** Up to three hops, and with at most two demanded, every completion of a dominated prefix is a
      completion of the prefix that dominates it, and no longer. */
  lemma DominanceLosesNothing(x: Case)
    requires x.Possible() && x.q.cfg.maxHops <= 3 && x.q.cfg.minHops <= 2
    ensures x.Kept()
  {
    hide Case.Possible, Query.Admissible, Query.Open, Query.StateOk, WellFormed, PoolsAreCliques, Stops, Visited, Pools, Blocked;
    CaseFacts(x);
    FirstHopShared(x);
    if |x.completion| == 1 {
      CloseAdmissible(x.q, StateOf(x.q, x.kept), x.completion[0]);
      assert x.kept + x.completion == x.kept + [x.completion[0]];
    } else {
      TwoStepsShared(x);
    }
  }

  lemma PoolsOfOne(p: Path)
    requires |p| == 1
    ensures Pools(p) == {p[0].pool}
  {
  }

  function Advance(s: SearchState, e: Hop): SearchState {
    SearchState(e.tokenOut, s.path + [e], s.visited + {e.tokenOut}, s.used + {e.pool})
  }

  lemma TwoStepsShared(x: Case)
    requires x.Possible() && |x.kept| == 1 && |x.completion| == 2 && x.q.cfg.minHops <= 3 <= x.q.cfg.maxHops
    ensures x.q.Admissible(x.kept + x.completion)
  {
    hide Case.Possible, Query.Admissible, Query.Open, Query.StateOk, WellFormed, PoolsAreCliques, Stops, Visited, Pools, Blocked;
    var q, kept, c := x.q, x.kept, x.completion;
    var k, s := StateOf(q, kept), StateOf(q, x.pruned);
    CaseFacts(x);
    FirstHopShared(x);
    SecondHopShared(x);
    PoolsOfOne(kept);
    ExtendState(q, k, c[0]);
    ExtendState(q, s, c[0]);
    var k', s' := Advance(k, c[0]), Advance(s, c[0]);
    var whole := x.pruned + c;
    assert s'.path == whole[..|s'.path|] && whole[|s'.path|] == c[1];
    NextHopAccepted(q, s', whole);
    CloseAdmissible(q, k', c[1]);
    assert kept + c == (kept + [c[0]]) + [c[1]];
  }

  /** More in never means less out, nor failure instead of success. */
  ghost predicate Monotone(f: Quoter) {
    forall h: Hop, a: nat, b: nat :: a <= b && f(h, a).Ok? ==> f(h, b).Ok? && f(h, a).amount <= f(h, b).amount
  }

  lemma {:induction false} RunMonotone(f: Quoter, p: Path, a: nat, b: nat)
    requires Monotone(f) && a <= b && Run(f, p, a).Ran?
    ensures Run(f, p, b).Ran? && Run(f, p, a).amountOut <= Run(f, p, b).amountOut
  {
    if p != [] {
      RunMonotone(f, p[1..], f(p[0], a).amount, f(p[0], b).amount);
    }
  }

  /** The pruning theorem in amounts: whatever the dominated prefix could have returned, the
      dominating one returns at least as much over an admissible path with no more hops. */
  lemma PruningKeepsBestAmount(x: Case, f: Quoter, amountIn: nat)
    requires x.Possible() && x.q.cfg.maxHops <= 3 && x.q.cfg.minHops <= 2 && Monotone(f)
    requires x.Discards(f, amountIn) && Run(f, x.pruned + x.completion, amountIn).Ran?
    ensures x.q.Admissible(x.kept + x.completion) && |x.kept + x.completion| <= |x.pruned + x.completion|
    ensures ReturnsAtLeast(f, x.kept + x.completion, x.pruned + x.completion, amountIn) && x.MadeUp(f, amountIn)
  {
    DominanceLosesNothing(x);
    hide Case.Possible, Query.Admissible;
    RunAppend(f, x.pruned, x.completion, amountIn);
    RunAppend(f, x.kept, x.completion, amountIn);
    RunMonotone(f, x.completion, Run(f, x.pruned, amountIn).amountOut, Run(f, x.kept, amountIn).amountOut);
  }
}
