/** The level-by-level heuristic search with all its lossless prunings: dead ends, balance caps and
    prefix dominance. It finds the same best amount as a search that prunes nothing. */
module PrunedSearch {
  import opened Routing
  import opened PathEnumeration
  import opened PrefixDominance
  import opened BalanceCap
  import Stream = StreamSearch

  // ---- dead ends ----

  /** The question with the hop bounds relaxed to any closing within `n` hops. */
  ghost function Within(q: Query, n: nat): Query {
    q.(cfg := q.cfg.(minHops := 1, maxHops := n))
  }

  lemma WithinState(q: Query, n: nat, s: SearchState)
    ensures Within(q, n).StateOk(s) <==> q.StateOk(s)
  {
  }

  ghost predicate CanClose(q: Query, s: SearchState, remaining: nat) {
    exists c: Path :: c != [] && Within(q, |s.path| + remaining).Admissible(s.path + c)
  }

  lemma ClosesNow(q: Query, s: SearchState, e: Hop, remaining: nat)
    requires q.StateOk(s) && HasEdge(q.g, e) && e.tokenIn == s.node && q.EdgeAccepted(s, e) && e.tokenOut == q.tokenOut && remaining > 0
    ensures CanClose(q, s, remaining)
  {
    var wide := Within(q, |s.path| + remaining);
    WithinState(q, |s.path| + remaining, s);
    CloseAdmissible(wide, s, e);
  }

  lemma ClosesLater(q: Query, s: SearchState, e: Hop, remaining: nat)
    requires remaining > 0 && CanClose(q, Advance(s, e), remaining - 1)
    ensures CanClose(q, s, remaining)
  {
    hide Query.Admissible;
    var wide := Within(q, |s.path| + remaining);
    var c: Path :| c != [] && wide.Admissible(s.path + [e] + c);
    assert s.path + [e] + c == s.path + ([e] + c);
  }

  /** What a closing completion needs of its first hop. */
  ghost predicate Opening(q: Query, s: SearchState, e: Hop, remaining: nat) {
    && q.EdgeAccepted(s, e)
    && (e.tokenOut == q.tokenOut || (remaining > 1 && CanClose(q, Advance(s, e), remaining - 1)))
  }

  lemma CloseOpens(q: Query, s: SearchState, remaining: nat)
    requires WellFormed(q.g) && q.StateOk(s) && CanClose(q, s, remaining)
    ensures exists e :: e in q.g[s.node] && Opening(q, s, e, remaining)
  {
    hide Query.Admissible, Query.StateOk, WellFormed;
    var wide := Within(q, |s.path| + remaining);
    WithinState(q, |s.path| + remaining, s);
    var c: Path :| c != [] && wide.Admissible(s.path + c);
    assert (s.path + c)[|s.path|] == c[0];
    NextHopAccepted(wide, s, s.path + c);
    assert |c| <= remaining by { assert wide.Admissible(s.path + c); CompletionBasics(wide, s, c); }
    if c[0].tokenOut != q.tokenOut {
      assert s.path + c == s.path + [c[0]] + c[1..];
    }
  }

  /** Depth-first look for any way to close: exactly whether there is one. */
  method HasStaticRoute(q: Query, s: SearchState, remaining: nat) returns (found: bool)
    requires WellFormed(q.g) && q.StateOk(s)
    ensures found <==> CanClose(q, s, remaining)
    decreases remaining
  {
    hide Query.Admissible, Query.StateOk, Query.EdgeAccepted, WellFormed, CanClose, HasEdge;
    NodeIndexed(q, s);
    if remaining == 0 {
      NoHopsLeft(q, s);
      return false;
    }
    var edges := q.g[s.node];
    EdgesOf(q.g, s.node);
    for i := 0 to |edges|
      invariant forall k :: 0 <= k < i ==> !Opening(q, s, edges[k], remaining)
    {
      var e := edges[i];
      if q.EdgeAccepted(s, e) {
        if e.tokenOut == q.tokenOut {
          ClosesNow(q, s, e, remaining);
          return true;
        }
        if remaining > 1 {
          ExtendState(q, s, e);
          found := HasStaticRoute(q, Advance(s, e), remaining - 1);
          if found {
            ClosesLater(q, s, e, remaining);
            return;
          }
        }
      }
    }
    if CanClose(q, s, remaining) {
      CloseOpens(q, s, remaining);
    }
    found := false;
  }

  lemma NodeIndexed(q: Query, s: SearchState)
    requires q.StateOk(s)
    ensures s.node in q.g
  {
  }

  lemma NoHopsLeft(q: Query, s: SearchState)
    ensures !CanClose(q, s, 0)
  {
  }

  // ---- what a search has done so far ----

  /** The label index and everything ever offered to it, the prefixes admitted and not dropped
      again, those of them still to be expanded, and the routes found. */
  datatype Ledger = Ledger(labels: map<Token, seq<Label>>, offered: set<(Token, Label)>, alive: set<Path>, open: set<Path>, found: seq<RouteQuote>)

  /** One search: a question, prices, and whether dominated prefixes are dropped. */
  datatype Hunt = Hunt(q: Query, f: Quoter, amountIn: nat, dominance: bool) {

    ghost predicate Viable(p: Path) { Run(f, p, amountIn).Ran? }

    function Worth(p: Path): nat { if Run(f, p, amountIn).Ran? then Run(f, p, amountIn).amountOut else 0 }

    function LabelAt(p: Path): Label { LabelOf(q, p, Worth(p)) }

    function End(p: Path): Token { Stops(q.tokenIn, p)[|p|] }

    /** Some route found returns no less than `p`. */
    ghost predicate Matched(found: seq<RouteQuote>, p: Path) {
      Viable(p) ==> exists x :: x in found && x.amountOut >= Worth(p)
    }

    ghost predicate Hopeless(p: Path) {
      forall c: Path :: c != [] ==> !q.Admissible(p + c)
    }

    /** The edge has been followed from `p` as far as the search follows it. */
    ghost predicate Tried(l: Ledger, p: Path, e: Hop) {
      q.EdgeAccepted(StateOf(q, p), e) && Viable(p + [e]) ==>
        if e.tokenOut == q.tokenOut then q.cfg.minHops <= |p| + 1 ==> Matched(l.found, p + [e])
        else |p| + 1 < q.cfg.maxHops ==>
          Hopeless(p + [e]) || if dominance then (e.tokenOut, LabelAt(p + [e])) in l.offered else p + [e] in l.alive
    }

    ghost predicate Expanded(l: Ledger, p: Path) {
      forall e :: HasEdge(q.g, e) && e.tokenIn == End(p) ==> Tried(l, p, e)
    }

    /** Nothing through `p` beats what has been found. */
    ghost predicate Capped(found: seq<RouteQuote>, p: Path) {
      forall c: Path :: c != [] && q.Admissible(p + c) ==> Matched(found, p + c)
    }

    ghost predicate Done(l: Ledger, p: Path) { Expanded(l, p) || Capped(l.found, p) }

    /** A partial path the search may stand on. */
    ghost predicate Sound(p: Path) {
      q.StateOk(StateOf(q, p)) && Viable(p)
    }

    ghost predicate Stands(alive: set<Path>, t: Token, l: Label) {
      exists p :: p in alive && p != [] && End(p) == t && LabelAt(p) == l
    }

    /** Every retained label belongs to a prefix that was not dropped. */
    ghost predicate Represented(labels: map<Token, seq<Label>>, alive: set<Path>) {
      forall t, i :: t in labels && 0 <= i < |labels[t]| ==> Stands(alive, t, labels[t][i])
    }

    ghost predicate Kept(l: Ledger) {
      && Stream.AllTrue(q, f, amountIn, l.found)
      && [] in l.alive && (forall p :: p in l.alive ==> Sound(p))
      && (forall p :: p in l.alive && p !in l.open ==> Done(l, p))
      && (dominance ==> Represented(l.labels, l.alive))
    }

    /** The index answers for everything it was ever offered. */
    ghost predicate Indexed(l: Ledger) {
      forall x :: x in l.offered ==> x.0 in l.labels && SomeDominates(l.labels[x.0], x.1)
    }

    /** Dominated prefixes can be dropped without loss. */
    ghost predicate Lossless() {
      dominance ==> q.cfg.maxHops <= 3 && q.cfg.minHops <= 2 && Monotone(f)
    }

    ghost predicate Posed() {
      WellFormed(q.g) && PoolsAreCliques(q.g) && q.cfg.Valid() && q.tokenIn in q.g
    }
  }

  // ---- nothing is lost ----

  lemma Transfers(h: Hunt, found: seq<RouteQuote>, a: Path, b: Path)
    requires h.Matched(found, a) && ReturnsAtLeast(h.f, a, b, h.amountIn)
    ensures h.Matched(found, b)
  {
    hide Run;
  }

  lemma FirstHop(h: Hunt, p: Path, c: Path)
    requires h.Posed() && h.Sound(p) && c != [] && h.q.Admissible(p + c) && h.Viable(p + c)
    ensures HasEdge(h.q.g, c[0]) && c[0].tokenIn == h.End(p) && h.q.EdgeAccepted(StateOf(h.q, p), c[0]) && h.Viable(p + [c[0]])
    ensures c[0].tokenOut == h.q.tokenOut <==> |c| == 1
    ensures |c| == 1 ==> p + [c[0]] == p + c
    ensures |c| > 1 ==> h.Sound(p + [c[0]]) && p + [c[0]] + c[1..] == p + c && |p| + 1 < h.q.cfg.maxHops
    ensures h.q.cfg.minHops <= |p| + |c|
  {
    hide Query.Admissible, Query.StateOk, WellFormed, PoolsAreCliques, Run, Stops, Visited, Pools;
    var e, s := c[0], StateOf(h.q, p);
    assert (p + c)[|p|] == e && p + [e] + c[1..] == p + c;
    NextHopAccepted(h.q, s, p + c);
    RunAppend(h.f, p + [e], c[1..], h.amountIn);
    CompletionBasics(h.q, s, c);
    NoLongerThan(h.q, p + c);
    if |c| > 1 {
      ExtendState(h.q, s, e);
      StateStep(h.q, p, e);
    }
  }

  lemma StateStep(q: Query, p: Path, e: Hop)
    requires q.StateOk(StateOf(q, p)) && HasEdge(q.g, e) && e.tokenIn == StateOf(q, p).node
    ensures StateOf(q, p + [e]) == Advance(StateOf(q, p), e)
  {
    StepFacts(q.g, q.tokenIn, p, e);
  }

  /** A dominated extension has a representative that does at least as well. */
  lemma Representative(h: Hunt, l: Ledger, p: Path, c: Path) returns (r: Path)
    requires h.Posed() && h.Lossless() && h.dominance && h.Kept(l) && h.Indexed(l)
    requires h.Sound(p) && p != [] && c != [] && h.q.Admissible(p + c) && h.Viable(p + c) && (h.End(p), h.LabelAt(p)) in l.offered
    ensures r in l.alive && h.q.Admissible(r + c) && ReturnsAtLeast(h.f, r + c, p + c, h.amountIn)
  {
    hide Query.Admissible, Run, WellFormed, PoolsAreCliques, Hunt.Done;
    var t := h.End(p);
    var i :| 0 <= i < |l.labels[t]| && Dominates(l.labels[t][i], h.LabelAt(p));
    assert h.Stands(l.alive, t, l.labels[t][i]);
    r :| r in l.alive && r != [] && h.End(r) == t && h.LabelAt(r) == l.labels[t][i];
    PruningKeepsBestAmount(Case(h.q, r, p, c), h.f, h.amountIn);
  }

  /** Whatever an admitted prefix could still become, a route found is at least as good. */
  lemma {:induction false} Reaches(h: Hunt, l: Ledger, p: Path, c: Path)
    requires h.Posed() && h.Lossless() && h.Kept(l) && h.Indexed(l) && l.open == {}
    requires p in l.alive && c != [] && h.q.Admissible(p + c)
    ensures h.Matched(l.found, p + c)
    decreases |c|
  {
    hide *;
    AliveFacts(h, l, p);
    if h.Viable(p + c) {
      var settled := OneStep(h, l, p, c);
      if !settled {
        var p', rest := p + [c[0]], c[1..];
        if h.dominance {
          var r := Representative(h, l, p', rest);
          Reaches(h, l, r, rest);
          Transfers(h, l.found, r + rest, p + c);
        } else {
          Reaches(h, l, p', rest);
        }
      }
    } else {
      Unviable(h, l.found, p + c);
    }
  }

  lemma AliveFacts(h: Hunt, l: Ledger, p: Path)
    requires h.Kept(l) && l.open == {} && p in l.alive
    ensures h.Done(l, p) && h.Sound(p)
  {
  }

  /** A finished prefix has the completion's route in hand or has passed the completion on. */
  lemma OneStep(h: Hunt, l: Ledger, p: Path, c: Path) returns (settled: bool)
    requires h.Posed() && h.Done(l, p) && h.Sound(p) && c != [] && h.q.Admissible(p + c) && h.Viable(p + c)
    ensures settled ==> h.Matched(l.found, p + c)
    ensures !settled ==>
              var p' := p + [c[0]];
              && |c| > 1 && h.Sound(p') && p' + c[1..] == p + c
              && if h.dominance then (h.End(p'), h.LabelAt(p')) in l.offered else p' in l.alive
  {
    hide Query.Admissible, Query.StateOk, Query.EdgeAccepted, Hunt.Posed, Hunt.Sound, Hunt.Viable, Hunt.Matched, HasEdge, Stops, LabelOf;
    settled := h.Capped(l.found, p) || |c| == 1;
    if !h.Capped(l.found, p) {
      FirstHop(h, p, c);
      StepEnd(h, p, c[0]);
      assert h.Tried(l, p, c[0]);
      if |c| > 1 { assert !h.Hopeless(p + [c[0]]); }
    }
  }

  lemma StepEnd(h: Hunt, p: Path, e: Hop)
    ensures h.End(p + [e]) == e.tokenOut
  {
    assert (p + [e])[|p|] == e;
  }

  lemma Unviable(h: Hunt, found: seq<RouteQuote>, p: Path)
    requires !h.Viable(p)
    ensures h.Matched(found, p)
  {
  }

  /** The search theorem: once nothing is left to expand, the best route found is a maximum over all
      admissible paths, and finding nothing means that nothing is viable. */
  lemma PrunedSearchIsExact(h: Hunt, l: Ledger)
    requires h.Posed() && h.Lossless() && h.Kept(l) && h.Indexed(l) && l.open == {}
    ensures forall best :: Best(l.found, best) ==> Stream.IsMaximum(h.q, h.f, h.amountIn, best)
    ensures l.found == [] ==> Stream.NothingViable(h.q, h.f, h.amountIn)
  {
    hide Query.Admissible, Hunt.Posed, Hunt.Lossless, Hunt.Indexed, Hunt.Done, Hunt.Sound;
    forall p | h.q.Admissible(p) ensures p != [] && h.Matched(l.found, p) {
      NonEmpty(h.q, p);
      assert [] + p == p;
      Reaches(h, l, [], p);
    }
  }

  lemma NonEmpty(q: Query, p: Path)
    requires q.Admissible(p)
    ensures p != []
  {
  }

  ghost predicate Best(found: seq<RouteQuote>, best: RouteQuote) {
    best in found && forall x :: x in found ==> x.amountOut <= best.amountOut
  }

  // ---- how the ledger moves on ----

  /** Nothing that was found, offered or, without dominance, admitted is taken back. */
  ghost predicate Grows(h: Hunt, l: Ledger, l': Ledger) {
    && (forall x :: x in l.found ==> x in l'.found) && l.offered <= l'.offered
    && (h.dominance || l.alive <= l'.alive)
  }

  lemma MatchedGrows(h: Hunt, l: Ledger, l': Ledger, p: Path)
    requires Grows(h, l, l') && h.Matched(l.found, p)
    ensures h.Matched(l'.found, p)
  {
    hide Run;
  }

  lemma TriedGrows(h: Hunt, l: Ledger, l': Ledger, p: Path, e: Hop)
    requires Grows(h, l, l') && h.Tried(l, p, e)
    ensures h.Tried(l', p, e)
  {
    hide Query.EdgeAccepted, Hunt.Viable, Hunt.Hopeless, Hunt.LabelAt, Hunt.Matched;
    if h.Matched(l.found, p + [e]) { MatchedGrows(h, l, l', p + [e]); }
  }

  lemma DoneGrows(h: Hunt, l: Ledger, l': Ledger, p: Path)
    requires Grows(h, l, l') && h.Done(l, p)
    ensures h.Done(l', p)
  {
    hide Query.Admissible, Query.EdgeAccepted, Hunt.Tried, Hunt.Matched, Grows, HasEdge, Stops;
    if h.Expanded(l, p) {
      forall e | HasEdge(h.q.g, e) && e.tokenIn == h.End(p) ensures h.Tried(l', p, e) { TriedGrows(h, l, l', p, e); }
    } else {
      forall c: Path | c != [] && h.q.Admissible(p + c) ensures h.Matched(l'.found, p + c) { MatchedGrows(h, l, l', p + c); }
    }
  }

  lemma KeptGrows(h: Hunt, l: Ledger, l': Ledger)
    requires h.Kept(l) && Grows(h, l, l')
    requires Stream.AllTrue(h.q, h.f, h.amountIn, l'.found) && [] in l'.alive && (forall p :: p in l'.alive ==> h.Sound(p))
    requires forall p :: p in l'.alive && p !in l'.open ==> p in l.alive && p !in l.open
    requires h.dominance ==> h.Represented(l'.labels, l'.alive)
    ensures h.Kept(l')
  {
    hide Hunt.Sound, Hunt.Done, Hunt.Represented, Stream.AllTrue, Grows;
    forall p | p in l'.alive && p !in l'.open ensures h.Done(l', p) { DoneGrows(h, l, l', p); }
  }

  /** A route is recorded. */
  lemma Records(h: Hunt, l: Ledger, x: RouteQuote)
    requires h.Kept(l) && Stream.TrueQuote(h.q, h.f, h.amountIn, x)
    ensures var l' := l.(found := l.found + [x]); h.Kept(l') && Grows(h, l, l')
  {
    hide Hunt.Sound, Hunt.Done, Hunt.Represented, Stream.TrueQuote;
    KeptGrows(h, l, l.(found := l.found + [x]));
  }

  /** Without dominance every extension is admitted. */
  lemma Admits(h: Hunt, l: Ledger, p: Path)
    requires h.Kept(l) && !h.dominance && h.Sound(p)
    ensures var l' := l.(alive := l.alive + {p}, open := l.open + {p}); h.Kept(l') && Grows(h, l, l')
  {
    hide Hunt.Sound, Hunt.Done, Hunt.Represented, Stream.AllTrue;
    KeptGrows(h, l, l.(alive := l.alive + {p}, open := l.open + {p}));
  }

  /** A dominated extension leaves nothing but its offer. */
  lemma Rejects(h: Hunt, l: Ledger, x: (Token, Label))
    requires h.Kept(l)
    ensures var l' := l.(offered := l.offered + {x}); h.Kept(l') && Grows(h, l, l')
  {
    hide Hunt.Sound, Hunt.Done, Hunt.Represented, Stream.AllTrue;
    KeptGrows(h, l, l.(offered := l.offered + {x}));
  }

  /** The ledger after the index took in the label of `p`. */
  ghost function Entered(h: Hunt, l: Ledger, p: Path): Ledger {
    var t := h.End(p);
    var here := if t in l.labels then l.labels[t] else [];
    Ledger(l.labels[t := Retain(here, h.LabelAt(p)) + [h.LabelAt(p)]], l.offered + {(t, h.LabelAt(p))}, l.alive + {p}, l.open + {p}, l.found)
  }

  lemma Enters(h: Hunt, l: Ledger, p: Path)
    requires h.Kept(l) && h.dominance && h.Sound(p) && p != []
    ensures h.Kept(Entered(h, l, p)) && Grows(h, l, Entered(h, l, p))
  {
    hide Hunt.Sound, Hunt.Done, Stream.AllTrue, Hunt.End, Hunt.LabelAt;
    var l' := Entered(h, l, p);
    forall t, i | t in l'.labels && 0 <= i < |l'.labels[t]| ensures h.Stands(l'.alive, t, l'.labels[t][i]) {
      if l'.labels[t][i] != h.LabelAt(p) || t != h.End(p) {
        assert exists j :: t in l.labels && 0 <= j < |l.labels[t]| && l.labels[t][j] == l'.labels[t][i];
        assert h.Stands(l.alive, t, l'.labels[t][i]);
      }
    }
    KeptGrows(h, l, l');
  }

  /** A prefix whose label is no longer retained can go. */
  lemma Drops(h: Hunt, l: Ledger, p: Path)
    requires h.Kept(l) && h.dominance && p != [] && (h.End(p) in l.labels ==> h.LabelAt(p) !in l.labels[h.End(p)])
    ensures var l' := l.(alive := l.alive - {p}, open := l.open - {p}); h.Kept(l') && Grows(h, l, l')
  {
    hide Hunt.Sound, Hunt.Done, Stream.AllTrue, Hunt.End, Hunt.LabelAt;
    var l' := l.(alive := l.alive - {p}, open := l.open - {p});
    forall t, i | t in l.labels && 0 <= i < |l.labels[t]| ensures h.Stands(l'.alive, t, l.labels[t][i]) {
      assert h.Stands(l.alive, t, l.labels[t][i]);
    }
    KeptGrows(h, l, l');
  }

  /** A finished prefix is closed. */
  lemma Closes(h: Hunt, l: Ledger, p: Path)
    requires h.Kept(l) && h.Done(l, p)
    ensures var l' := l.(open := l.open - {p}); h.Kept(l') && Grows(h, l, l')
  {
    hide Hunt.Sound, Hunt.Done, Hunt.Represented, Stream.AllTrue;
    var l' := l.(open := l.open - {p});
    forall p' | p' in l'.alive && p' !in l'.open ensures h.Done(l', p') { DoneGrows(h, l, l', p'); }
  }

  // ---- the search ----

  /** A partial path with its hop quotes and the amount it has arrived at. */
  datatype Prefix = Prefix(state: SearchState, hops: seq<HopQuote>, amount: nat)

  /** What the loops carry along: the next level, the routes found, and the best amount among them. */
  datatype Work = Work(next: seq<Prefix>, found: seq<RouteQuote>, incumbent: Option<nat>)

  ghost predicate Fits(h: Hunt, offered: set<(Token, Label)>, x: Prefix) {
    var p := x.state.path;
    && h.Sound(p) && |p| < h.q.cfg.maxHops && x.state == StateOf(h.q, p) && Run(h.f, p, h.amountIn) == Ran(x.hops, x.amount)
    && (h.dominance && p != [] ==> (x.state.node, h.LabelAt(p)) in offered)
  }

  ghost predicate AllFit(h: Hunt, offered: set<(Token, Label)>, xs: seq<Prefix>, depth: nat) {
    forall i :: 0 <= i < |xs| ==> Fits(h, offered, xs[i]) && |xs[i].state.path| == depth
  }

  ghost function PathsOf(xs: seq<Prefix>): set<Path> { set x | x in xs :: x.state.path }

  ghost predicate IncumbentOk(w: Work) {
    && (w.incumbent.Some? ==> exists x :: x in w.found && x.amountOut >= w.incumbent.value)
  }

  /** Ledger, index and loop variables tell the same story. */
  ghost predicate InStep(h: Hunt, l: Ledger, w: Work, depth: nat) {
    && h.Kept(l) && l.found == w.found && IncumbentOk(w) && h.q.tokenIn !in l.labels
    && AllFit(h, l.offered, w.next, depth)
  }

  ghost predicate Mirrors(index: PrefixDominanceIndex, l: Ledger)
    reads index
  {
    index.Valid() && l.labels == index.labels && l.offered == index.offered
  }

  function Larger(a: Option<nat>, b: nat): Option<nat> { if a.Some? && a.value >= b then a else Some(b) }

  lemma RunStep(f: Quoter, p: Path, e: Hop, amountIn: nat, hops: seq<HopQuote>, amount: nat)
    requires Run(f, p, amountIn) == Ran(hops, amount)
    ensures match f(e, amount)
            case Ok(out) => Run(f, p + [e], amountIn) == Ran(hops + [HopQuote(e, amount, out)], out)
            case Err(reason) => Run(f, p + [e], amountIn) == Stuck(reason)
  {
    RunAppend(f, p, [e], amountIn);
    assert [e][1..] == [] && [e][0] == e;
    assert f(e, amount).Ok? ==> Run(f, [], f(e, amount).amount) == Ran([], f(e, amount).amount);
  }

  lemma DeadEnd(h: Hunt, p: Path, e: Hop)
    requires |p| < h.q.cfg.maxHops && !CanClose(h.q, Advance(StateOf(h.q, p), e), h.q.cfg.maxHops - |p| - 1)
    ensures h.Hopeless(p + [e])
  {
    hide Query.Admissible;
    forall c: Path | c != [] ensures !h.q.Admissible(p + [e] + c) { WithinAdmits(h.q, p + [e] + c); }
  }

  lemma WithinAdmits(q: Query, p: Path)
    ensures q.Admissible(p) ==> Within(q, q.cfg.maxHops).Admissible(p)
  {
  }

  /** A closing hop yields a true quote of an admissible path. */
  lemma NewRoute(h: Hunt, x: Prefix, e: Hop, out: nat)
    requires h.Sound(x.state.path) && x.state == StateOf(h.q, x.state.path) && Run(h.f, x.state.path, h.amountIn) == Ran(x.hops, x.amount)
    requires HasEdge(h.q.g, e) && e.tokenIn == x.state.node && h.q.EdgeAccepted(x.state, e) && e.tokenOut == h.q.tokenOut && h.f(e, x.amount) == Ok(out)
    requires h.q.cfg.minHops <= |x.state.path| + 1 <= h.q.cfg.maxHops
    ensures Stream.TrueQuote(h.q, h.f, h.amountIn, RouteQuote(x.state.path + [e], h.amountIn, out, x.hops + [HopQuote(e, x.amount, out)]))
    ensures h.Worth(x.state.path + [e]) == out
  {
    hide Query.Admissible, Query.StateOk, Query.EdgeAccepted, HasEdge, Run, Stops;
    CloseAdmissible(h.q, x.state, e);
    RunStep(h.f, x.state.path, e, h.amountIn, x.hops, x.amount);
  }

  lemma KnownRoute(h: Hunt, found: seq<RouteQuote>, p: Path)
    requires Stream.AllTrue(h.q, h.f, h.amountIn, found) && p in Stream.PathsIn(found)
    ensures h.Matched(found, p)
  {
    hide Query.Admissible, Run;
    var x :| x in found && x.path == p;
    assert Stream.TrueQuote(h.q, h.f, h.amountIn, x);
  }

  /** Everything one edge leaves behind. */
  ghost predicate Followed(h: Hunt, l: Ledger, w: Work, l': Ledger, w': Work, depth: nat) {
    && InStep(h, l', w', depth) && Grows(h, l, l') && w.found <= w'.found && l'.open <= l.open + PathsOf(w'.next) && w.next <= w'.next
  }

  /** An accepted edge into the target: record the route unless it is known already. */
  method CloseRoute(h: Hunt, x: Prefix, e: Hop, out: nat, w: Work, ghost l: Ledger) returns (w': Work, ghost l': Ledger)
    requires InStep(h, l, w, |x.state.path| + 1) && Fits(h, l.offered, x) && |x.state.path| < h.q.cfg.maxHops
    requires HasEdge(h.q.g, e) && e.tokenIn == x.state.node && h.q.EdgeAccepted(x.state, e) && e.tokenOut == h.q.tokenOut && h.f(e, x.amount) == Ok(out)
    ensures Followed(h, l, w, l', w', |x.state.path| + 1) && h.Tried(l', x.state.path, e)
    ensures l'.labels == l.labels && l'.offered == l.offered
  {
    hide Query.EdgeAccepted, Hunt.Sound, Hunt.Done, Hunt.Represented, Stream.TrueQuote, Run, Stops, HasEdge, Hunt.LabelAt;
    w', l' := w, l;
    var path := x.state.path + [e];
    if |path| >= h.q.cfg.minHops {
      if path in Stream.PathsIn(w.found) {
        KnownRoute(h, w.found, path);
      } else {
        var quote := RouteQuote(path, h.amountIn, out, x.hops + [HopQuote(e, x.amount, out)]);
        NewRoute(h, x, e, out);
        Records(h, l, quote);
        l' := l.(found := l.found + [quote]);
        w' := w.(found := w.found + [quote], incumbent := Larger(w.incumbent, out));
        assert quote in w'.found;
      }
    }
  }

  /** The prefix one hop further. */
  lemma Further(h: Hunt, x: Prefix, e: Hop, out: nat) returns (y: Prefix)
    requires WellFormed(h.q.g) && h.Sound(x.state.path) && x.state == StateOf(h.q, x.state.path) && Run(h.f, x.state.path, h.amountIn) == Ran(x.hops, x.amount)
    requires HasEdge(h.q.g, e) && e.tokenIn == x.state.node && h.q.EdgeAccepted(x.state, e) && e.tokenOut != h.q.tokenOut && h.f(e, x.amount) == Ok(out)
    ensures y == Prefix(Advance(x.state, e), x.hops + [HopQuote(e, x.amount, out)], out)
    ensures h.Sound(y.state.path) && y.state == StateOf(h.q, y.state.path) && Run(h.f, y.state.path, h.amountIn) == Ran(y.hops, y.amount)
    ensures e.tokenOut != h.q.tokenIn && h.End(y.state.path) == e.tokenOut
    ensures h.LabelAt(y.state.path) == Label(out, y.state.visited, Blocked(h.q, e.tokenOut, y.state.visited, y.state.used))
  {
    y := Prefix(Advance(x.state, e), x.hops + [HopQuote(e, x.amount, out)], out);
    StartVisited(h.q, x.state.path);
    hide Query.Admissible, Query.StateOk, WellFormed, HasEdge, Run, Stops, Visited, Pools;
    ExtendState(h.q, x.state, e);
    StateStep(h.q, x.state.path, e);
    RunStep(h.f, x.state.path, e, h.amountIn, x.hops, x.amount);
    StepEnd(h, x.state.path, e);
  }

  lemma StartVisited(q: Query, p: Path)
    ensures q.tokenIn in Visited(q.tokenIn, p)
  {
    assert Stops(q.tokenIn, p)[0] in Stops(q.tokenIn, p);
  }

  lemma Pushes(h: Hunt, l: Ledger, w: Work, l': Ledger, y: Prefix, depth: nat)
    requires InStep(h, l, w, depth) && h.Kept(l') && l'.found == l.found && Grows(h, l, l') && h.q.tokenIn !in l'.labels
    requires Fits(h, l'.offered, y) && |y.state.path| == depth && l'.open <= l.open + {y.state.path}
    ensures Followed(h, l, w, l', w.(next := w.next + [y]), depth)
  {
    hide Hunt.Kept, Hunt.Sound, Run, Hunt.LabelAt, StateOf;
    var next := w.next + [y];
    assert next[|w.next|] == y;
    assert forall x :: x in next <==> x in w.next || x == y;
  }

  lemma Stays(h: Hunt, l: Ledger, w: Work, l': Ledger, depth: nat)
    requires InStep(h, l, w, depth) && h.Kept(l') && l'.found == l.found && Grows(h, l, l') && h.q.tokenIn !in l'.labels && l'.open <= l.open
    ensures Followed(h, l, w, l', w, depth)
  {
    hide Hunt.Kept, Hunt.Sound, Run, Hunt.LabelAt, StateOf;
  }

  /** An accepted edge elsewhere that leads on: offer the longer prefix and queue it unless it is dominated. */
  method Extend(h: Hunt, index: PrefixDominanceIndex, x: Prefix, e: Hop, out: nat, w: Work, ghost l: Ledger) returns (w': Work, ghost l': Ledger)
    requires WellFormed(h.q.g) && InStep(h, l, w, |x.state.path| + 1) && Mirrors(index, l) && Fits(h, l.offered, x) && |x.state.path| + 1 < h.q.cfg.maxHops
    requires HasEdge(h.q.g, e) && e.tokenIn == x.state.node && h.q.EdgeAccepted(x.state, e) && e.tokenOut != h.q.tokenOut && h.f(e, x.amount) == Ok(out)
    modifies index
    ensures Followed(h, l, w, l', w', |x.state.path| + 1) && h.Tried(l', x.state.path, e) && Mirrors(index, l')
  {
    hide WellFormed, IsBlocked, Query.EdgeAccepted, Hunt.Sound, Hunt.Kept, Run, Stops, HasEdge, Hunt.LabelAt, PrefixDominanceIndex.Valid, AllFit, Hunt.End, Followed, Grows, Blocked;
    var y := Prefix(Advance(x.state, e), x.hops + [HopQuote(e, x.amount, out)], out);
    ghost var p := y.state.path;
    ghost var _ := Further(h, x, e, out);
    if h.dominance {
      var blocked := FutureBlockedPools(h.q, e.tokenOut, y.state.visited, y.state.used);
      var dominated := index.InsertOrDominated(e.tokenOut, Label(out, y.state.visited, blocked));
      if dominated {
        Rejects(h, l, (e.tokenOut, h.LabelAt(p)));
        w', l' := w, l.(offered := l.offered + {(e.tokenOut, h.LabelAt(p))});
        Stays(h, l, w, l', |p|);
      } else {
        Enters(h, l, p);
        w', l' := w.(next := w.next + [y]), Entered(h, l, p);
        Pushes(h, l, w, l', y, |p|);
      }
    } else {
      Admits(h, l, p);
      w', l' := w.(next := w.next + [y]), l.(alive := l.alive + {p}, open := l.open + {p});
      Pushes(h, l, w, l', y, |p|);
    }
  }

  /** Follow one edge of a prefix as far as the tests let it. */
  method FollowEdge(h: Hunt, index: PrefixDominanceIndex, x: Prefix, e: Hop, w: Work, ghost l: Ledger) returns (w': Work, ghost l': Ledger)
    requires WellFormed(h.q.g) && InStep(h, l, w, |x.state.path| + 1) && Mirrors(index, l) && Fits(h, l.offered, x) && |x.state.path| < h.q.cfg.maxHops
    requires HasEdge(h.q.g, e) && e.tokenIn == x.state.node
    modifies index
    ensures Followed(h, l, w, l', w', |x.state.path| + 1) && h.Tried(l', x.state.path, e) && Mirrors(index, l')
  {
    hide WellFormed, Query.EdgeAccepted, Query.StateOk, Hunt.Kept, Run, Stops, HasEdge, Hunt.LabelAt, PrefixDominanceIndex.Valid, AllFit, Hunt.End,
         Followed, Grows, Hunt.Hopeless, CanClose, StateOf, Hunt.Matched;
    w', l' := w, l;
    Same(h, l, w, |x.state.path| + 1);
    if !h.q.EdgeAccepted(x.state, e) {
      return;
    }
    if e.tokenOut != h.q.tokenOut {
      if |x.state.path| + 1 >= h.q.cfg.maxHops {
        return;
      }
      ExtendState(h.q, x.state, e);
      var leads := HasStaticRoute(h.q, Advance(x.state, e), h.q.cfg.maxHops - |x.state.path| - 1);
      if !leads {
        DeadEnd(h, x.state.path, e);
        return;
      }
    }
    RunStep(h.f, x.state.path, e, h.amountIn, x.hops, x.amount);
    match h.f(e, x.amount)
    case Err(_) =>
    case Ok(out) =>
      if e.tokenOut == h.q.tokenOut {
        w', l' := CloseRoute(h, x, e, out, w, l);
      } else {
        w', l' := Extend(h, index, x, e, out, w, l);
      }
  }

  lemma Same(h: Hunt, l: Ledger, w: Work, depth: nat)
    requires InStep(h, l, w, depth)
    ensures Followed(h, l, w, l, w, depth)
  {
  }

  lemma FollowedOn(h: Hunt, l0: Ledger, w0: Work, l: Ledger, w: Work, l': Ledger, w': Work, depth: nat)
    requires Followed(h, l0, w0, l, w, depth) && Followed(h, l, w, l', w', depth)
    ensures Followed(h, l0, w0, l', w', depth)
  {
    hide InStep;
    assert forall x :: x in w.next ==> x in w'.next;
  }

  lemma StillFits(h: Hunt, l: Ledger, l': Ledger, x: Prefix)
    requires Fits(h, l.offered, x) && Grows(h, l, l')
    ensures Fits(h, l'.offered, x)
  {
    hide Hunt.Sound, Run, Hunt.LabelAt, StateOf;
  }

  /** The edges out of `p` outside `rest` have been followed. */
  ghost predicate TriedBut(h: Hunt, l: Ledger, p: Path, rest: set<Hop>) {
    forall e :: HasEdge(h.q.g, e) && e.tokenIn == h.End(p) && e !in rest ==> h.Tried(l, p, e)
  }

  lemma TriedOne(h: Hunt, l: Ledger, l': Ledger, p: Path, rest: set<Hop>, e: Hop)
    requires TriedBut(h, l, p, rest) && Grows(h, l, l') && h.Tried(l', p, e)
    ensures TriedBut(h, l', p, rest - {e})
  {
    hide Hunt.Tried, HasEdge, Hunt.End, Grows;
    forall d | HasEdge(h.q.g, d) && d.tokenIn == h.End(p) && d !in rest - {e} ensures h.Tried(l', p, d) {
      if d != e { TriedGrows(h, l, l', p, d); }
    }
  }

  /** The outgoing edges of a prefix. */
  function Ways(q: Query, t: Token): (r: set<Hop>)
    requires t in q.g
  {
    set e | e in q.g[t]
  }

  lemma WaysExact(h: Hunt, l: Ledger, x: Prefix)
    requires WellFormed(h.q.g) && Fits(h, l.offered, x)
    ensures x.state.node in h.q.g && (forall e :: e in Ways(h.q, x.state.node) ==> HasEdge(h.q.g, e) && e.tokenIn == x.state.node)
    ensures TriedBut(h, l, x.state.path, Ways(h.q, x.state.node))
  {
    hide Run, Hunt.LabelAt, Hunt.Tried;
  }

  /** Follow every edge of a prefix, in any order. */
  method ExpandPrefix(h: Hunt, index: PrefixDominanceIndex, x: Prefix, w: Work, ghost l: Ledger) returns (w': Work, ghost l': Ledger)
    requires WellFormed(h.q.g) && InStep(h, l, w, |x.state.path| + 1) && Mirrors(index, l) && Fits(h, l.offered, x) && |x.state.path| < h.q.cfg.maxHops
    modifies index
    ensures Followed(h, l, w, l', w', |x.state.path| + 1) && h.Done(l', x.state.path) && Mirrors(index, l')
  {
    hide *;
    w', l' := w, l;
    WaysExact(h, l, x);
    Same(h, l, w, |x.state.path| + 1);
    var rest := Ways(h.q, x.state.node);
    while rest != {}
      invariant Followed(h, l, w, l', w', |x.state.path| + 1) && Mirrors(index, l') && rest <= Ways(h.q, x.state.node)
      invariant TriedBut(h, l', x.state.path, rest) && Fits(h, l'.offered, x)
      decreases rest
    {
      var e :| e in rest;
      ghost var l1, w1 := l', w';
      FollowedFacts(h, l, w, l', w', |x.state.path| + 1);
      w', l' := FollowEdge(h, index, x, e, w', l');
      FollowedFacts(h, l1, w1, l', w', |x.state.path| + 1);
      TriedOne(h, l1, l', x.state.path, rest, e);
      StillFits(h, l1, l', x);
      FollowedOn(h, l, w, l1, w1, l', w', |x.state.path| + 1);
      rest := rest - {e};
    }
    AllTried(h, l', x.state.path);
  }

  lemma FollowedFacts(h: Hunt, l: Ledger, w: Work, l': Ledger, w': Work, depth: nat)
    requires Followed(h, l, w, l', w', depth)
    ensures InStep(h, l', w', depth) && Grows(h, l, l')
  {
  }

  lemma AllTried(h: Hunt, l: Ledger, p: Path)
    requires TriedBut(h, l, p, {})
    ensures h.Done(l, p)
  {
  }

  lemma LabelOfPrefix(h: Hunt, offered: set<(Token, Label)>, x: Prefix)
    requires Fits(h, offered, x)
    ensures h.LabelAt(x.state.path) == Label(x.amount, x.state.visited, Blocked(h.q, x.state.node, x.state.visited, x.state.used))
    ensures h.End(x.state.path) == x.state.node && (x.state.path == [] ==> x.state.node == h.q.tokenIn)
    ensures h.dominance && x.state.path != [] ==> (x.state.node, h.LabelAt(x.state.path)) in offered
    ensures h.q.StateOk(x.state)
  {
    hide Blocked, Run, Query.StateOk;
  }

  /** Whether a prefix has lost its place in the index: exactly whether its label was evicted. */
  method Outdone(h: Hunt, index: PrefixDominanceIndex, x: Prefix, ghost l: Ledger) returns (lost: bool)
    requires WellFormed(h.q.g) && h.dominance && Fits(h, l.offered, x) && Mirrors(index, l) && h.q.tokenIn !in l.labels
    ensures lost <==> x.state.path != [] && (h.End(x.state.path) in l.labels ==> h.LabelAt(x.state.path) !in l.labels[h.End(x.state.path)])
  {
    hide Fits, Blocked, IsBlocked, WellFormed, PrefixDominanceIndex.Valid, Hunt.End, Hunt.LabelAt, StateOf;
    LabelOfPrefix(h, l.offered, x);
    var blocked := FutureBlockedPools(h.q, x.state.node, x.state.visited, x.state.used);
    lost := index.IsStrictlyDominated(x.state.node, Label(x.amount, x.state.visited, blocked));
    if x.state.path != [] { index.StrictIffDropped(x.state.node, h.LabelAt(x.state.path)); }
  }

  /** A prefix that cannot beat the incumbent, or cannot get any longer, is finished. */
  lemma Beaten(h: Hunt, l: Ledger, w: Work, x: Prefix, depth: nat)
    requires InStep(h, l, w, depth) && (|x.state.path| >= h.q.cfg.maxHops ||
               (w.incumbent.Some? && forall c: Path :: c != [] && h.q.Admissible(x.state.path + c) && Run(h.f, x.state.path + c, h.amountIn).Ran? ==>
                  Run(h.f, x.state.path + c, h.amountIn).amountOut <= w.incumbent.value))
    ensures h.Done(l, x.state.path)
  {
    hide Run, Hunt.Kept, AllFit, Hunt.Expanded;
    assert h.Capped(l.found, x.state.path) by { if |x.state.path| < h.q.cfg.maxHops { hide Query.Admissible; } }
  }

  lemma ClosesInStep(h: Hunt, l: Ledger, w: Work, p: Path, depth: nat)
    requires InStep(h, l, w, depth) && h.Done(l, p)
    ensures var l' := l.(open := l.open - {p}); InStep(h, l', w, depth) && Grows(h, l, l')
  {
    hide Hunt.Kept, AllFit, Hunt.Done;
    Closes(h, l, p);
  }

  lemma DropsInStep(h: Hunt, l: Ledger, w: Work, p: Path, depth: nat)
    requires InStep(h, l, w, depth) && h.dominance && p != [] && (h.End(p) in l.labels ==> h.LabelAt(p) !in l.labels[h.End(p)])
    ensures var l' := l.(alive := l.alive - {p}, open := l.open - {p}); InStep(h, l', w, depth) && Grows(h, l, l')
  {
    hide Hunt.Kept, AllFit, Hunt.End, Hunt.LabelAt;
    Drops(h, l, p);
  }

  /** What visiting a prefix leaves behind. */
  ghost predicate Visits(h: Hunt, l: Ledger, w: Work, l': Ledger, w': Work, p: Path, depth: nat) {
    InStep(h, l', w', depth) && Grows(h, l, l') && w.found <= w'.found && l'.open <= l.open - {p} + PathsOf(w'.next) && w.next <= w'.next
  }

  lemma VisitsWith(h: Hunt, l: Ledger, w: Work, l1: Ledger, w1: Work, l': Ledger, p: Path, depth: nat)
    requires Followed(h, l, w, l1, w1, depth) && InStep(h, l', w1, depth) && Grows(h, l1, l') && l'.open == l1.open - {p}
    ensures Visits(h, l, w, l', w1, p, depth)
  {
    hide InStep;
  }

  /** Look at one prefix of the current level: skip it, drop it or expand it. */
  method VisitPrefix(h: Hunt, index: PrefixDominanceIndex, x: Prefix, w: Work, config: PruneConfig, balances: Option<Balances>, ghost l: Ledger)
    returns (w': Work, ghost l': Ledger)
    requires WellFormed(h.q.g) && InStep(h, l, w, |x.state.path| + 1) && Mirrors(index, l) && Fits(h, l.offered, x)
    requires balances.Some? ==> PaysWithin(h.f, balances.value, h.q.tokenOut)
    modifies index
    ensures Visits(h, l, w, l', w', x.state.path, |x.state.path| + 1) && Mirrors(index, l')
  {
    hide WellFormed, InStep, Fits, PrefixDominanceIndex.Valid, PaysWithin, Run, Query.Admissible, Query.StateOk, Hunt.Done, Hunt.End, Hunt.LabelAt, Followed, Visits, Grows;
    ghost var p, depth := x.state.path, |x.state.path| + 1;
    LabelOfPrefix(h, l.offered, x);
    Same(h, l, w, depth);
    StartKept(h, l, w, depth);
    w', l' := w, l;
    var pruned := |x.state.path| >= h.q.cfg.maxHops;
    if !pruned {
      pruned := ShouldPrunePrefix(h.q, x.state, w.incumbent, config, balances, h.f, h.amountIn);
    }
    if pruned {
      Beaten(h, l, w, x, depth);
    } else {
      if h.dominance {
        var lost := Outdone(h, index, x, l);
        if lost {
          DropsInStep(h, l, w, p, depth);
          l' := l.(alive := l.alive - {p}, open := l.open - {p});
          VisitsWith(h, l, w, l, w, l', p, depth);
          return;
        }
      }
      w', l' := ExpandPrefix(h, index, x, w, l);
    }
    ghost var l1 := l';
    FollowedFacts(h, l, w, l1, w', depth);
    ClosesInStep(h, l1, w', p, depth);
    l' := l1.(open := l1.open - {p});
    VisitsWith(h, l, w, l1, w', l', p, depth);
  }

  lemma StartKept(h: Hunt, l: Ledger, w: Work, depth: nat)
    requires InStep(h, l, w, depth)
    ensures h.q.tokenIn !in l.labels
  {
  }

  lemma AllStillFit(h: Hunt, l: Ledger, l': Ledger, xs: seq<Prefix>, depth: nat)
    requires AllFit(h, l.offered, xs, depth) && Grows(h, l, l')
    ensures AllFit(h, l'.offered, xs, depth)
  {
    hide Fits, Grows;
    forall i | 0 <= i < |xs| ensures Fits(h, l'.offered, xs[i]) { StillFits(h, l, l', xs[i]); }
  }

  /** Progress through one level: everything unfinished is still ahead in it or already in the next. */
  ghost predicate Midway(h: Hunt, l: Ledger, w: Work, ahead: seq<Prefix>, depth: nat) {
    InStep(h, l, w, depth + 1) && AllFit(h, l.offered, ahead, depth) && l.open <= PathsOf(ahead) + PathsOf(w.next)
  }

  lemma Ahead(h: Hunt, l: Ledger, w: Work, ahead: seq<Prefix>, l': Ledger, w': Work, depth: nat)
    requires Midway(h, l, w, ahead, depth) && ahead != [] && Visits(h, l, w, l', w', ahead[0].state.path, depth + 1)
    ensures Midway(h, l', w', ahead[1..], depth)
  {
    hide InStep, AllFit;
    AllStillFit(h, l, l', ahead, depth);
    FitTail(h, l'.offered, ahead, depth);
    assert forall x :: x in ahead <==> x == ahead[0] || x in ahead[1..];
    assert forall x :: x in w.next ==> x in w'.next;
  }

  lemma FitTail(h: Hunt, offered: set<(Token, Label)>, xs: seq<Prefix>, depth: nat)
    requires AllFit(h, offered, xs, depth) && xs != []
    ensures AllFit(h, offered, xs[1..], depth) && Fits(h, offered, xs[0]) && |xs[0].state.path| == depth
  {
    hide Fits;
  }

  lemma MidwayFacts(h: Hunt, l: Ledger, w: Work, ahead: seq<Prefix>, depth: nat)
    requires Midway(h, l, w, ahead, depth)
    ensures InStep(h, l, w, depth + 1) && AllFit(h, l.offered, ahead, depth)
  {
  }

  /** Visit every prefix of one level. */
  method SearchLevel(h: Hunt, index: PrefixDominanceIndex, frontier: seq<Prefix>, w: Work, config: PruneConfig, balances: Option<Balances>,
                     ghost l: Ledger, ghost depth: nat)
    returns (w': Work, ghost l': Ledger)
    requires WellFormed(h.q.g) && Midway(h, l, w, frontier, depth) && Mirrors(index, l)
    requires balances.Some? ==> PaysWithin(h.f, balances.value, h.q.tokenOut)
    modifies index
    ensures Midway(h, l', w', [], depth) && Mirrors(index, l') && w.found <= w'.found
  {
    hide WellFormed, Midway, InStep, AllFit, Fits, PrefixDominanceIndex.Valid, PaysWithin, Grows;
    w', l' := w, l;
    var ahead := frontier;
    while ahead != []
      invariant Midway(h, l', w', ahead, depth) && Mirrors(index, l') && w.found <= w'.found
    {
      ghost var l1, w1 := l', w';
      MidwayFacts(h, l', w', ahead, depth);
      FitTail(h, l'.offered, ahead, depth);
      w', l' := VisitPrefix(h, index, ahead[0], w', config, balances, l');
      Ahead(h, l1, w1, ahead, l', w', depth);
      ahead := ahead[1..];
    }
  }

  /** Between two levels: everything unfinished is in the frontier. */
  ghost predicate Between(h: Hunt, l: Ledger, w: Work, frontier: seq<Prefix>, depth: nat) {
    && h.Kept(l) && l.found == w.found && IncumbentOk(w) && h.q.tokenIn !in l.labels && w.next == []
    && AllFit(h, l.offered, frontier, depth) && l.open <= PathsOf(frontier)
  }

  /** Halfway through the retention pass: `kept` stays, `left` is still to be looked at. */
  ghost predicate Sifting(h: Hunt, l: Ledger, w: Work, kept: seq<Prefix>, left: seq<Prefix>, depth: nat) {
    && InStep(h, l, w.(next := []), depth) && AllFit(h, l.offered, kept, depth) && AllFit(h, l.offered, left, depth)
    && l.open <= PathsOf(kept) + PathsOf(left)
  }

  lemma SiftKeeps(h: Hunt, l: Ledger, w: Work, kept: seq<Prefix>, left: seq<Prefix>, depth: nat)
    requires Sifting(h, l, w, kept, left, depth) && left != []
    ensures Fits(h, l.offered, left[0]) && h.q.tokenIn !in l.labels
    ensures Sifting(h, l, w, kept + [left[0]], left[1..], depth)
  {
    hide Hunt.Kept, Fits;
    assert forall x :: x in left <==> x == left[0] || x in left[1..];
    assert forall x :: x in kept + [left[0]] <==> x == left[0] || x in kept;
  }

  lemma SiftDrops(h: Hunt, l: Ledger, w: Work, kept: seq<Prefix>, left: seq<Prefix>, depth: nat)
    requires Sifting(h, l, w, kept, left, depth) && left != [] && h.dominance
    requires var p := left[0].state.path; p != [] && (h.End(p) in l.labels ==> h.LabelAt(p) !in l.labels[h.End(p)])
    ensures var p := left[0].state.path;
            Sifting(h, l.(alive := l.alive - {p}, open := l.open - {p}), w, kept, left[1..], depth)
  {
    hide InStep, Fits, Hunt.End, Hunt.LabelAt;
    DropsInStep(h, l, w.(next := []), left[0].state.path, depth);
    assert forall x :: x in left <==> x == left[0] || x in left[1..];
  }

  /** Drop from the next level whatever a later arrival has outdone. */
  method RetainUndominated(h: Hunt, index: PrefixDominanceIndex, w: Work, ghost l: Ledger, ghost depth: nat) returns (frontier: seq<Prefix>, ghost l': Ledger)
    requires WellFormed(h.q.g) && Mirrors(index, l) && Sifting(h, l, w, [], w.next, depth)
    ensures Sifting(h, l', w, frontier, [], depth) && Mirrors(index, l') && l'.found == l.found
  {
    hide Sifting, Fits, WellFormed, PrefixDominanceIndex.Valid, Hunt.End, Hunt.LabelAt;
    frontier, l' := [], l;
    if !h.dominance {
      frontier := w.next;
      SiftAll(h, l, w, depth);
      return;
    }
    var left := w.next;
    while left != []
      invariant Sifting(h, l', w, frontier, left, depth) && Mirrors(index, l') && l'.found == l.found
    {
      SiftKeeps(h, l', w, frontier, left, depth);
      var lost := Outdone(h, index, left[0], l');
      if lost {
        SiftDrops(h, l', w, frontier, left, depth);
        ghost var p := left[0].state.path;
        l' := l'.(alive := l'.alive - {p}, open := l'.open - {p});
      } else {
        frontier := frontier + [left[0]];
      }
      left := left[1..];
    }
  }

  lemma SiftAll(h: Hunt, l: Ledger, w: Work, depth: nat)
    requires Sifting(h, l, w, [], w.next, depth)
    ensures Sifting(h, l, w, w.next, [], depth)
  {
  }

  lemma LevelEnds(h: Hunt, l: Ledger, w: Work, depth: nat)
    requires Midway(h, l, w, [], depth)
    ensures Sifting(h, l, w, [], w.next, depth + 1)
  {
    hide Hunt.Kept, Fits;
  }

  lemma LevelBegins(h: Hunt, l: Ledger, w: Work, frontier: seq<Prefix>, depth: nat)
    requires Sifting(h, l, w, frontier, [], depth)
    ensures Between(h, l, w.(next := []), frontier, depth)
  {
    hide Hunt.Kept, Fits;
  }

  lemma Resume(h: Hunt, l: Ledger, w: Work, frontier: seq<Prefix>, depth: nat)
    requires Between(h, l, w, frontier, depth)
    ensures Midway(h, l, w, frontier, depth)
  {
    hide Hunt.Kept, Fits;
  }

  ghost function Origin(lane: seq<RouteQuote>): Ledger {
    Ledger(map[], {}, {[]}, {[]}, lane)
  }

  lemma Begins(h: Hunt, lane: seq<RouteQuote>, incumbent: Option<nat>)
    requires h.Posed() && Stream.AllTrue(h.q, h.f, h.amountIn, lane) && IncumbentOk(Work([], lane, incumbent))
    ensures Between(h, Origin(lane), Work([], lane, incumbent), [Prefix(SearchState(h.q.tokenIn, [], {h.q.tokenIn}, {}), [], h.amountIn)], 0)
  {
    hide WellFormed, PoolsAreCliques, Stream.AllTrue;
    assert Stops(h.q.tokenIn, []) == [h.q.tokenIn];
    assert StateOf(h.q, []) == SearchState(h.q.tokenIn, [], {h.q.tokenIn}, {});
  }

  lemma Deep(h: Hunt, l: Ledger, w: Work, frontier: seq<Prefix>, depth: nat)
    requires Between(h, l, w, frontier, depth) && frontier != []
    ensures depth < h.q.cfg.maxHops
  {
    assert Fits(h, l.offered, frontier[0]);
  }

  lemma Concludes(h: Hunt, index: PrefixDominanceIndex, l: Ledger, w: Work, depth: nat)
    requires Between(h, l, w, [], depth) && Mirrors(index, l)
    ensures h.Kept(l) && h.Indexed(l) && l.open == {} && l.found == w.found && Stream.AllTrue(h.q, h.f, h.amountIn, w.found)
  {
  }

  method Incumbent(lane: seq<RouteQuote>) returns (incumbent: Option<nat>)
    ensures IncumbentOk(Work([], lane, incumbent))
    ensures forall x :: x in lane ==> incumbent.Some? && x.amountOut <= incumbent.value
  {
    incumbent := None;
    for i := 0 to |lane|
      invariant incumbent.Some? ==> exists x :: x in lane && x.amountOut >= incumbent.value
      invariant forall k :: 0 <= k < i ==> incumbent.Some? && lane[k].amountOut <= incumbent.value
    {
      assert lane[i] in lane;
      incumbent := Larger(incumbent, lane[i].amountOut);
    }
  }

  /** The whole search from the quotes of the fast lane on. With dominated prefixes dropped only where
      that is lossless, its best route is a maximum over everything a full search would look at. */
  method SearchPruned(h: Hunt, config: PruneConfig, balances: Option<Balances>, lane: seq<RouteQuote>) returns (found: seq<RouteQuote>)
    requires h.Posed() && Stream.AllTrue(h.q, h.f, h.amountIn, lane)
    requires balances.Some? ==> PaysWithin(h.f, balances.value, h.q.tokenOut)
    ensures Stream.AllTrue(h.q, h.f, h.amountIn, found) && lane <= found
    ensures h.Lossless() ==> forall best :: Best(found, best) ==> Stream.IsMaximum(h.q, h.f, h.amountIn, best)
    ensures h.Lossless() && found == [] ==> Stream.NothingViable(h.q, h.f, h.amountIn)
  {
    hide WellFormed, PoolsAreCliques, Between, Midway, Sifting, IncumbentOk, PrefixDominanceIndex.Valid, PaysWithin, Hunt.Lossless, Stream.AllTrue,
         Stream.IsMaximum, Stream.NothingViable, Best, Hunt.Kept, Hunt.Indexed;
    var incumbent := Incumbent(lane);
    var index := new PrefixDominanceIndex();
    var w := Work([], lane, incumbent);
    ghost var l, depth := Origin(lane), 0;
    var frontier := [Prefix(SearchState(h.q.tokenIn, [], {h.q.tokenIn}, {}), [], h.amountIn)];
    Begins(h, lane, incumbent);
    while frontier != []
      invariant fresh(index) && Between(h, l, w, frontier, depth) && Mirrors(index, l) && lane <= w.found
      decreases if frontier == [] then 0 else 1 + h.q.cfg.maxHops - depth
    {
      Deep(h, l, w, frontier, depth);
      Resume(h, l, w, frontier, depth);
      w, l := SearchLevel(h, index, frontier, w, config, balances, l, depth);
      LevelEnds(h, l, w, depth);
      frontier, l := RetainUndominated(h, index, w, l, depth + 1);
      LevelBegins(h, l, w, frontier, depth + 1);
      w, depth := w.(next := []), depth + 1;
    }
    Concludes(h, index, l, w, depth);
    if h.Lossless() { PrunedSearchIsExact(h, l); }
    found := w.found;
  }
}
