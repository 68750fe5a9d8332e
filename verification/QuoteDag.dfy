/** Shared-prefix evaluation of many paths: a trie of hops, quoted through an exact-hop cache. */
module QuoteDag {
  import opened Routing

  datatype Node = Node(children: seq<Child>, terminals: seq<Path>)

  datatype Child = Child(hop: Hop, node: Node)

  datatype PathFailure = PathFailure(path: Path, reason: string)

  // ---- building the trie ----

  /** Position of the child for `hop`, or the number of children when there is none. */
  function ChildIndex(children: seq<Child>, hop: Hop): (i: nat)
    ensures i <= |children|
    ensures i < |children| ==> children[i].hop == hop
    ensures forall j :: 0 <= j < i ==> children[j].hop != hop
  {
    if children == [] then 0
    else if children[0].hop == hop then 0
    else 1 + ChildIndex(children[1..], hop)
  }

  const EMPTY := Node([], [])

  /** Descend along `suffix`, creating missing children, and leave `full` as a terminal. */
  function Insert(n: Node, suffix: Path, full: Path): Node
    decreases |suffix|
  {
    if suffix == [] then n.(terminals := n.terminals + [full])
    else
      var i := ChildIndex(n.children, suffix[0]);
      if i < |n.children| then
        n.(children := n.children[i := Child(suffix[0], Insert(n.children[i].node, suffix[1..], full))])
      else
        n.(children := n.children + [Child(suffix[0], Insert(EMPTY, suffix[1..], full))])
  }

  /** Every terminal below a node, in the order failures are collected. */
  function Terminals(n: Node): seq<Path>
    decreases n, 1
  {
    n.terminals + KidTerminals(n.children)
  }

  function KidTerminals(kids: seq<Child>): seq<Path>
    decreases kids, 0
  {
    if kids == [] then []
    else
      assert kids[0].node < kids[0];
      Terminals(kids[0].node) + KidTerminals(kids[1..])
  }

  /** Terminals sit exactly at the node their hops lead to, siblings differ, and no subtree is bare. */
  ghost predicate Wf(n: Node, prefix: Path)
    decreases n, 1
  {
    && (forall p :: p in n.terminals ==> p == prefix)
    && KidsWf(n.children, prefix)
  }

  ghost predicate KidsWf(kids: seq<Child>, prefix: Path)
    decreases kids, 0
  {
    kids == [] ||
    (assert kids[0].node < kids[0];
     && Wf(kids[0].node, prefix + [kids[0].hop])
     && Terminals(kids[0].node) != []
     && (forall i :: 1 <= i < |kids| ==> kids[i].hop != kids[0].hop)
     && KidsWf(kids[1..], prefix))
  }

  lemma {:induction false} InsertKeepsWf(n: Node, prefix: Path, suffix: Path)
    requires Wf(n, prefix)
    ensures Wf(Insert(n, suffix, prefix + suffix), prefix)
    ensures multiset(Terminals(Insert(n, suffix, prefix + suffix))) == multiset(Terminals(n)) + multiset{prefix + suffix}
    decreases |suffix|, 0, n
  {
    hide *;
    var full := prefix + suffix;
    NodeParts(n, prefix);
    NodeParts(Insert(n, suffix, full), prefix);
    InsertUnfold(n, suffix, full);
    if suffix == [] {
      assert full == prefix;
    } else {
      KidInsert(n.children, prefix, suffix);
    }
  }

  lemma NodeParts(n: Node, prefix: Path)
    ensures Wf(n, prefix) <==> (forall p :: p in n.terminals ==> p == prefix) && KidsWf(n.children, prefix)
    ensures Terminals(n) == n.terminals + KidTerminals(n.children)
  {
  }

  lemma InsertUnfold(n: Node, suffix: Path, full: Path)
    ensures Insert(n, suffix, full) == if suffix == [] then n.(terminals := n.terminals + [full]) else n.(children := InsertKid(n.children, suffix, full))
  {
  }

  /** `Insert` seen on the child list alone. */
  function InsertKid(kids: seq<Child>, suffix: Path, full: Path): seq<Child>
    requires suffix != []
  {
    var i := ChildIndex(kids, suffix[0]);
    if i < |kids| then kids[i := Child(suffix[0], Insert(kids[i].node, suffix[1..], full))]
    else kids + [Child(suffix[0], Insert(EMPTY, suffix[1..], full))]
  }

  lemma InsertKidTail(kids: seq<Child>, suffix: Path, full: Path)
    requires suffix != [] && kids != [] && kids[0].hop != suffix[0]
    ensures InsertKid(kids, suffix, full) == [kids[0]] + InsertKid(kids[1..], suffix, full)
  {
  }

  lemma InsertKidHops(kids: seq<Child>, suffix: Path, full: Path)
    requires suffix != []
    ensures var kids' := InsertKid(kids, suffix, full);
            |kids| <= |kids'| && forall i :: 0 <= i < |kids'| ==> kids'[i].hop == if i < |kids| then kids[i].hop else suffix[0]
  {
  }

  lemma {:induction false} KidInsert(kids: seq<Child>, prefix: Path, suffix: Path)
    requires suffix != [] && KidsWf(kids, prefix)
    ensures KidsWf(InsertKid(kids, suffix, prefix + suffix), prefix)
    ensures multiset(KidTerminals(InsertKid(kids, suffix, prefix + suffix))) == multiset(KidTerminals(kids)) + multiset{prefix + suffix}
    decreases |suffix|, 0, kids
  {
    hide *;
    var full := prefix + suffix;
    var hop := suffix[0];
    assert full == (prefix + [hop]) + suffix[1..];
    KidsHead(kids, prefix);
    if kids == [] || kids[0].hop == hop {
      var node := if kids == [] then EMPTY else kids[0].node;
      EmptyNode(prefix + [hop]);
      InsertKeepsWf(node, prefix + [hop], suffix[1..]);
      var child := Child(hop, Insert(node, suffix[1..], full));
      ReplaceHead(child, if kids == [] then [] else kids[1..], prefix);
      InsertKidHead(kids, suffix, full);
    } else {
      InsertKidTail(kids, suffix, full);
      KidInsert(kids[1..], prefix, suffix);
      InsertKidHops(kids[1..], suffix, full);
      ReplaceHead(kids[0], InsertKid(kids[1..], suffix, full), prefix);
    }
  }

  lemma EmptyNode(prefix: Path)
    ensures Wf(EMPTY, prefix) && Terminals(EMPTY) == [] && KidTerminals([]) == [] && KidsWf([], prefix)
  {
  }

  lemma KidsHead(kids: seq<Child>, prefix: Path)
    requires KidsWf(kids, prefix)
    ensures kids == [] ==> KidTerminals(kids) == []
    ensures kids != [] ==> Wf(kids[0].node, prefix + [kids[0].hop]) && KidsWf(kids[1..], prefix) && Terminals(kids[0].node) != []
    ensures kids != [] ==> forall i :: 1 <= i < |kids| ==> kids[i].hop != kids[0].hop
    ensures kids != [] ==> KidTerminals(kids) == Terminals(kids[0].node) + KidTerminals(kids[1..])
  {
  }

  lemma InsertKidHead(kids: seq<Child>, suffix: Path, full: Path)
    requires suffix != [] && (kids == [] || kids[0].hop == suffix[0])
    ensures InsertKid(kids, suffix, full)
         == [Child(suffix[0], Insert(if kids == [] then EMPTY else kids[0].node, suffix[1..], full))] + if kids == [] then [] else kids[1..]
  {
  }

  lemma ReplaceHead(child: Child, rest: seq<Child>, prefix: Path)
    requires Wf(child.node, prefix + [child.hop]) && KidsWf(rest, prefix)
    requires Terminals(child.node) != []
    requires forall i :: 0 <= i < |rest| ==> rest[i].hop != child.hop
    ensures KidsWf([child] + rest, prefix)
    ensures KidTerminals([child] + rest) == Terminals(child.node) + KidTerminals(rest)
  {
  }

  // ---- what evaluating the trie produces ----

  /** One terminal's fate, in evaluation order. */
  datatype Item = Viable(quote: RouteQuote) | Dead(failure: PathFailure) {
    function Path(): Path { if Viable? then quote.path else failure.path }
  }

  function Blame(paths: seq<Path>, reason: string): (r: seq<Item>)
    ensures |r| == |paths| && forall i :: 0 <= i < |r| ==> r[i] == Dead(PathFailure(paths[i], reason))
  {
    if paths == [] then [] else [Dead(PathFailure(paths[0], reason))] + Blame(paths[1..], reason)
  }

  function Hits(paths: seq<Path>, amountIn: nat, amount: nat, trace: seq<HopQuote>): (r: seq<Item>)
    ensures |r| == |paths| && forall i :: 0 <= i < |r| ==> r[i] == Viable(RouteQuote(paths[i], amountIn, amount, trace))
  {
    if paths == [] then [] else [Viable(RouteQuote(paths[0], amountIn, amount, trace))] + Hits(paths[1..], amountIn, amount, trace)
  }

  function Items(q: Quoter, n: Node, amountIn: nat, amount: nat, trace: seq<HopQuote>): seq<Item>
    decreases n, 1
  {
    Hits(n.terminals, amountIn, amount, trace) + KidItems(q, n.children, amountIn, amount, trace)
  }

  function ChildItems(q: Quoter, c: Child, amountIn: nat, amount: nat, trace: seq<HopQuote>): seq<Item>
    decreases c, 2
  {
    match q(c.hop, amount)
    case Err(reason) => Blame(Terminals(c.node), reason)
    case Ok(out) => Items(q, c.node, amountIn, out, trace + [HopQuote(c.hop, amount, out)])
  }

  function KidItems(q: Quoter, kids: seq<Child>, amountIn: nat, amount: nat, trace: seq<HopQuote>): seq<Item>
    decreases kids, 0
  {
    if kids == [] then []
    else ChildItems(q, kids[0], amountIn, amount, trace) + KidItems(q, kids[1..], amountIn, amount, trace)
  }

  /** The fate of `item` is the one hop-by-hop quoting gives its path. */
  ghost predicate Faithful(q: Quoter, amountIn: nat, item: Item) {
    match item
    case Viable(quote) => QuotePathSpec(q, quote.path, amountIn) == Success(quote)
    case Dead(failure) => QuotePathSpec(q, failure.path, amountIn) == Failure(failure.reason)
  }

  function ItemPaths(items: seq<Item>): seq<Path> {
    seq(|items|, i requires 0 <= i < |items| => items[i].Path())
  }

  lemma ItemPathsAppend(a: seq<Item>, b: seq<Item>)
    ensures ItemPaths(a + b) == ItemPaths(a) + ItemPaths(b)
  {
  }

  /** Every terminal below a node extends the node's prefix. */
  lemma {:induction false} TerminalsExtend(n: Node, prefix: Path)
    requires Wf(n, prefix)
    ensures forall p :: p in Terminals(n) ==> prefix <= p
    decreases n, 1
  {
    KidTerminalsExtend(n.children, prefix);
  }

  lemma {:induction false} KidTerminalsExtend(kids: seq<Child>, prefix: Path)
    requires KidsWf(kids, prefix)
    ensures forall p :: p in KidTerminals(kids) ==>
              prefix < p && exists i :: 0 <= i < |kids| && kids[i].hop == p[|prefix|]
    decreases kids, 0
  {
    if kids != [] {
      assert kids[0].node < kids[0];
      TerminalsExtend(kids[0].node, prefix + [kids[0].hop]);
      KidTerminalsExtend(kids[1..], prefix);
      forall p | p in KidTerminals(kids)
        ensures prefix < p && exists i :: 0 <= i < |kids| && kids[i].hop == p[|prefix|]
      {
        if p in Terminals(kids[0].node) {
          assert prefix + [kids[0].hop] <= p;
          assert kids[0].hop == p[|prefix|];
        } else {
          var i :| 0 <= i < |kids[1..]| && kids[1..][i].hop == p[|prefix|];
          assert kids[i + 1].hop == p[|prefix|];
        }
      }
    }
  }

  /** A hop that fails after a good prefix dooms every path through it, with that hop's reason. */
  lemma FailedHop(q: Quoter, amountIn: nat, prefix: Path, trace: seq<HopQuote>, amount: nat, hop: Hop, p: Path)
    requires Run(q, prefix, amountIn) == Ran(trace, amount)
    requires q(hop, amount).Err? && prefix + [hop] <= p
    ensures QuotePathSpec(q, p, amountIn) == Failure(q(hop, amount).reason)
  {
    assert p == prefix + p[|prefix|..];
    assert p[|prefix|..][0] == hop;
    RunAppend(q, prefix, p[|prefix|..], amountIn);
  }

  lemma StepHop(q: Quoter, amountIn: nat, prefix: Path, trace: seq<HopQuote>, amount: nat, hop: Hop)
    requires Run(q, prefix, amountIn) == Ran(trace, amount) && q(hop, amount).Ok?
    ensures Run(q, prefix + [hop], amountIn)
         == Ran(trace + [HopQuote(hop, amount, q(hop, amount).amount)], q(hop, amount).amount)
  {
    RunAppend(q, prefix, [hop], amountIn);
    assert [hop][1..] == [];
    assert Run(q, [hop], amount) == Ran([HopQuote(hop, amount, q(hop, amount).amount)], q(hop, amount).amount);
  }

  /** Trie evaluation refines sequential quoting: each terminal below the node has exactly one
      item, and that item is what quoting its path alone gives. */
  lemma {:induction false} ItemsFaithful(q: Quoter, n: Node, prefix: Path, amountIn: nat, amount: nat, trace: seq<HopQuote>)
    requires Wf(n, prefix) && Run(q, prefix, amountIn) == Ran(trace, amount)
    requires prefix == [] ==> n.terminals == []
    ensures forall i :: 0 <= i < |Items(q, n, amountIn, amount, trace)| ==>
              Faithful(q, amountIn, Items(q, n, amountIn, amount, trace)[i])
    ensures multiset(ItemPaths(Items(q, n, amountIn, amount, trace))) == multiset(Terminals(n))
    decreases n, 1
  {
    var hits := Hits(n.terminals, amountIn, amount, trace);
    var rest := KidItems(q, n.children, amountIn, amount, trace);
    assert forall i :: 0 <= i < |hits| ==> n.terminals[i] in n.terminals;
    assert forall i :: 0 <= i < |hits| ==> Faithful(q, amountIn, hits[i]);
    assert ItemPaths(hits) == n.terminals;
    KidItemsFaithful(q, n.children, prefix, amountIn, amount, trace);
    ItemPathsAppend(hits, rest);
  }

  lemma {:induction false} ChildItemsFaithful(q: Quoter, c: Child, prefix: Path, amountIn: nat, amount: nat, trace: seq<HopQuote>)
    requires Wf(c.node, prefix + [c.hop]) && Run(q, prefix, amountIn) == Ran(trace, amount)
    ensures forall i :: 0 <= i < |ChildItems(q, c, amountIn, amount, trace)| ==>
              Faithful(q, amountIn, ChildItems(q, c, amountIn, amount, trace)[i])
    ensures multiset(ItemPaths(ChildItems(q, c, amountIn, amount, trace))) == multiset(Terminals(c.node))
    decreases c, 2
  {
    match q(c.hop, amount) {
      case Err(reason) =>
        TerminalsExtend(c.node, prefix + [c.hop]);
        var dead := Blame(Terminals(c.node), reason);
        assert ItemPaths(dead) == Terminals(c.node);
        forall i | 0 <= i < |dead| ensures Faithful(q, amountIn, dead[i]) {
          assert Terminals(c.node)[i] in Terminals(c.node);
          FailedHop(q, amountIn, prefix, trace, amount, c.hop, Terminals(c.node)[i]);
        }
      case Ok(out) =>
        StepHop(q, amountIn, prefix, trace, amount, c.hop);
        ItemsFaithful(q, c.node, prefix + [c.hop], amountIn, out, trace + [HopQuote(c.hop, amount, out)]);
    }
  }

  lemma {:induction false} KidItemsFaithful(q: Quoter, kids: seq<Child>, prefix: Path, amountIn: nat, amount: nat, trace: seq<HopQuote>)
    requires KidsWf(kids, prefix) && Run(q, prefix, amountIn) == Ran(trace, amount)
    ensures forall i :: 0 <= i < |KidItems(q, kids, amountIn, amount, trace)| ==>
              Faithful(q, amountIn, KidItems(q, kids, amountIn, amount, trace)[i])
    ensures multiset(ItemPaths(KidItems(q, kids, amountIn, amount, trace))) == multiset(KidTerminals(kids))
    decreases kids, 0
  {
    if kids != [] {
      ChildItemsFaithful(q, kids[0], prefix, amountIn, amount, trace);
      KidItemsFaithful(q, kids[1..], prefix, amountIn, amount, trace);
      ItemPathsAppend(ChildItems(q, kids[0], amountIn, amount, trace), KidItems(q, kids[1..], amountIn, amount, trace));
    }
  }

  // ---- which hop quotes are asked for ----

  /** The prefixes whose last hop the evaluator quotes, in order. */
  ghost function Requested(q: Quoter, n: Node, prefix: Path, amount: nat): seq<Path>
    decreases n, 1
  {
    KidRequested(q, n.children, prefix, amount)
  }

  ghost function ChildRequested(q: Quoter, c: Child, prefix: Path, amount: nat): seq<Path>
    decreases c, 2
  {
    [prefix + [c.hop]] +
    (match q(c.hop, amount)
     case Err(_) => []
     case Ok(out) => Requested(q, c.node, prefix + [c.hop], out))
  }

  ghost function KidRequested(q: Quoter, kids: seq<Child>, prefix: Path, amount: nat): seq<Path>
    decreases kids, 0
  {
    if kids == [] then [] else ChildRequested(q, kids[0], prefix, amount) + KidRequested(q, kids[1..], prefix, amount)
  }

  /** `r` is a prefix of `full` strictly longer than `base`. */
  ghost predicate Between(base: Path, r: Path, full: Path) {
    base < r <= full
  }

  ghost predicate Under(r: Path, base: Path, terminals: seq<Path>) {
    exists p :: p in terminals && Between(base, r, p)
  }

  ghost predicate RequestsUnder(rs: seq<Path>, base: Path, terminals: seq<Path>) {
    forall i :: 0 <= i < |rs| ==> Under(rs[i], base, terminals)
  }

  /** No prefix is quoted twice, and each one belongs to a path that has to be evaluated. */
  lemma {:induction false} RequestedOnce(q: Quoter, n: Node, prefix: Path, amount: nat)
    requires Wf(n, prefix)
    ensures Distinct(Requested(q, n, prefix, amount))
    ensures RequestsUnder(Requested(q, n, prefix, amount), prefix, Terminals(n))
    decreases n, 1
  {
    KidRequestedOnce(q, n.children, prefix, amount);
    assert forall p :: p in KidTerminals(n.children) ==> p in Terminals(n);
  }

  lemma {:induction false} ChildRequestedOnce(q: Quoter, c: Child, prefix: Path, amount: nat)
    requires Wf(c.node, prefix + [c.hop]) && Terminals(c.node) != []
    ensures Distinct(ChildRequested(q, c, prefix, amount))
    ensures RequestsUnder(ChildRequested(q, c, prefix, amount), prefix, Terminals(c.node))
    ensures forall r :: r in ChildRequested(q, c, prefix, amount) ==> prefix + [c.hop] <= r
    decreases c, 2
  {
    var here := prefix + [c.hop];
    TerminalsExtend(c.node, here);
    var p0 := Terminals(c.node)[0];
    assert p0 in Terminals(c.node) && Between(prefix, here, p0);
    if q(c.hop, amount).Ok? {
      var below := Requested(q, c.node, here, q(c.hop, amount).amount);
      RequestedOnce(q, c.node, here, q(c.hop, amount).amount);
      forall i | 0 <= i < |below|
        ensures here < below[i] && Under(below[i], prefix, Terminals(c.node))
      {
        assert Under(below[i], here, Terminals(c.node));
        var p :| p in Terminals(c.node) && Between(here, below[i], p);
        assert Between(prefix, below[i], p);
      }
    }
  }

  lemma {:induction false} KidRequestedOnce(q: Quoter, kids: seq<Child>, prefix: Path, amount: nat)
    requires KidsWf(kids, prefix)
    ensures Distinct(KidRequested(q, kids, prefix, amount))
    ensures RequestsUnder(KidRequested(q, kids, prefix, amount), prefix, KidTerminals(kids))
    decreases kids, 0
  {
    if kids != [] {
      var first := ChildRequested(q, kids[0], prefix, amount);
      var rest := KidRequested(q, kids[1..], prefix, amount);
      ChildRequestedOnce(q, kids[0], prefix, amount);
      KidRequestedOnce(q, kids[1..], prefix, amount);
      KidTerminalsExtend(kids[1..], prefix);
      forall j | 0 <= j < |rest| ensures rest[j] !in first {
        assert Under(rest[j], prefix, KidTerminals(kids[1..]));
        var p :| p in KidTerminals(kids[1..]) && Between(prefix, rest[j], p);
        assert rest[j][|prefix|] == p[|prefix|];
        assert forall r :: r in first ==> r[|prefix|] == kids[0].hop;
      }
      DistinctConcat(first, rest);
      UnderConcat(first, rest, prefix, Terminals(kids[0].node), KidTerminals(kids[1..]));
    }
  }

  lemma UnderConcat(a: seq<Path>, b: seq<Path>, base: Path, s: seq<Path>, t: seq<Path>)
    requires RequestsUnder(a, base, s) && RequestsUnder(b, base, t)
    ensures RequestsUnder(a + b, base, s + t)
  {
  }

  /** All non-empty prefixes of the given paths. */
  function PrefixSet(paths: seq<Path>): set<Path> {
    set i, k | 0 <= i < |paths| && 1 <= k <= |paths[i]| :: paths[i][..k]
  }

  lemma {:induction false} DistinctFits<T>(s: seq<T>, all: set<T>)
    requires Distinct(s) && forall i :: 0 <= i < |s| ==> s[i] in all
    ensures |s| <= |all|
  {
    if s != [] {
      var n := |s| - 1;
      DistinctFits(s[..n], all - {s[n]});
    }
  }

  // ---- the evaluator ----

  function QuotesOf(items: seq<Item>): seq<RouteQuote> {
    if items == [] then []
    else
      var n := |items| - 1;
      if items[n].Viable? then QuotesOf(items[..n]) + [items[n].quote] else QuotesOf(items[..n])
  }

  function FailuresOf(items: seq<Item>): seq<PathFailure> {
    if items == [] then []
    else
      var n := |items| - 1;
      if items[n].Dead? then FailuresOf(items[..n]) + [items[n].failure] else FailuresOf(items[..n])
  }

  type QuoteTable = map<(Hop, nat), Outcome>

  /** Cached hop quotes of the pools in `scope` agree with the current pool state. */
  ghost predicate CacheTrue(q: Quoter, cache: QuoteTable, scope: set<Pool>) {
    forall k :: k in cache && k.0.pool in scope ==> cache[k] == q(k.0, k.1)
  }

  /** The cache only gained entries, all of them current. */
  ghost predicate CacheGrown(q: Quoter, before: QuoteTable, after: QuoteTable) {
    && (forall k :: k in before ==> k in after && after[k] == before[k])
    && (forall k :: k in after && k !in before ==> after[k] == q(k.0, k.1))
  }

  lemma GrownRefl(q: Quoter, a: QuoteTable)
    ensures CacheGrown(q, a, a)
  {
  }

  lemma GrownTrans(q: Quoter, a: QuoteTable, b: QuoteTable, c: QuoteTable)
    requires CacheGrown(q, a, b) && CacheGrown(q, b, c)
    ensures CacheGrown(q, a, c)
  {
  }

  ghost predicate InScope(n: Node, scope: set<Pool>) {
    forall p :: p in Terminals(n) ==> Pools(p) <= scope
  }

  ghost predicate KidsInScope(kids: seq<Child>, scope: set<Pool>) {
    forall p :: p in KidTerminals(kids) ==> Pools(p) <= scope
  }

  lemma NodeInScope(n: Node, prefix: Path, scope: set<Pool>)
    requires Wf(n, prefix) && InScope(n, scope)
    ensures KidsWf(n.children, prefix) && KidsInScope(n.children, scope)
  {
  }

  lemma ChildInScope(kids: seq<Child>, prefix: Path, scope: set<Pool>)
    requires kids != [] && KidsWf(kids, prefix) && KidsInScope(kids, scope)
    ensures Wf(kids[0].node, prefix + [kids[0].hop]) && KidsWf(kids[1..], prefix)
    ensures kids[0].hop.pool in scope && InScope(kids[0].node, scope)
    ensures KidsInScope(kids[1..], scope)
  {
    TerminalsExtend(kids[0].node, prefix + [kids[0].hop]);
    var p := Terminals(kids[0].node)[0];
    assert p in KidTerminals(kids);
    assert p[|prefix|] == kids[0].hop;
    assert p[|prefix|] in p;
  }

  class QuoteDagEvaluator {
    const q: Quoter
    const amountIn: nat
    /** Answer of the observer to the i-th quote and the i-th failure it is shown. */
    const keepQuote: nat -> bool
    const keepFailure: nat -> bool
    var cache: QuoteTable
    var quotes: seq<RouteQuote>
    var failures: seq<PathFailure>
    var stopped: bool
    ghost var log: seq<Item>
    ghost var requested: seq<Path>

    constructor (q: Quoter, amountIn: nat, cache: QuoteTable, keepQuote: nat -> bool, keepFailure: nat -> bool)
      ensures this.q == q && this.amountIn == amountIn && this.cache == cache
      ensures this.keepQuote == keepQuote && this.keepFailure == keepFailure
      ensures log == [] && requested == [] && !stopped && Valid()
    {
      this.q, this.amountIn, this.cache := q, amountIn, cache;
      this.keepQuote, this.keepFailure := keepQuote, keepFailure;
      quotes, failures, stopped, log, requested := [], [], false, [], [];
    }

    ghost predicate Valid()
      reads this
    {
      && quotes == QuotesOf(log) && failures == FailuresOf(log)
      && (stopped ==> exists i :: !keepQuote(i) || !keepFailure(i))
    }

    /** Record one terminal's fate and ask the observer whether to go on. */
    method Push(item: Item)
      requires Valid() && !stopped
      modifies this
      ensures Valid() && log == old(log) + [item]
      ensures cache == old(cache) && requested == old(requested)
    {
      assert (log + [item])[..|log|] == log;
      log := log + [item];
      match item {
        case Viable(quote) =>
          stopped := !keepQuote(|quotes|);
          quotes := quotes + [quote];
        case Dead(failure) =>
          stopped := !keepFailure(|failures|);
          failures := failures + [failure];
      }
    }

    /** One hop through the exact-hop cache: hit, or simulate and remember. */
    method QuoteHop(hop: Hop, amount: nat, ghost scope: set<Pool>) returns (o: Outcome)
      requires CacheTrue(q, cache, scope) && hop.pool in scope
      modifies this`cache
      ensures o == q(hop, amount) && CacheTrue(q, cache, scope) && CacheGrown(q, old(cache), cache)
    {
      if (hop, amount) in cache {
        o := cache[(hop, amount)];
      } else {
        o := q(hop, amount);
        cache := cache[(hop, amount) := o];
      }
    }

    /** Record fates one by one until the observer stops the run. */
    method PushAll(items: seq<Item>)
      requires Valid() && !stopped
      modifies this
      ensures Valid() && cache == old(cache) && requested == old(requested)
      ensures old(log) <= log <= old(log) + items && (!stopped ==> log == old(log) + items)
    {
      var i := 0;
      while i < |items|
        invariant 0 <= i <= |items|
        invariant Valid() && cache == old(cache) && requested == old(requested) && !stopped
        invariant log == old(log) + items[..i]
      {
        assert items[..i + 1] == items[..i] + [items[i]];
        Push(items[i]);
        i := i + 1;
        if stopped { return; }
      }
    }

    /** Depth-first evaluation of a subtree: exactly the items the specification lists, in order,
        or a prefix of them when the observer stops the run. */
    method Evaluate(n: Node, amount: nat, trace: seq<HopQuote>, ghost prefix: Path, ghost scope: set<Pool>)
      requires Valid() && !stopped && CacheTrue(q, cache, scope)
      requires Wf(n, prefix) && InScope(n, scope)
      modifies this
      ensures Valid() && CacheTrue(q, cache, scope) && CacheGrown(q, old(cache), cache)
      ensures old(log) <= log <= old(log) + Items(q, n, amountIn, amount, trace)
      ensures !stopped ==> log == old(log) + Items(q, n, amountIn, amount, trace)
      ensures requested <= old(requested) + Requested(q, n, prefix, amount)
      ensures !stopped ==> requested == old(requested) + Requested(q, n, prefix, amount)
      decreases n, 1
    {
      hide CacheTrue, CacheGrown, Items, KidItems, KidRequested, ChildItems, ChildRequested, Requested, Wf, KidsWf, InScope, KidsInScope, Hits, Valid;
      ghost var kids := n.children;
      NodeInScope(n, prefix, scope);
      var hits := Hits(n.terminals, amountIn, amount, trace);
      ItemsUnfold(q, n, prefix, amountIn, amount, trace);
      GrownRefl(q, cache);
      ghost var goal := log + Items(q, n, amountIn, amount, trace);
      ghost var log00 := log;
      PushAll(hits);
      Consume(log00, hits, KidItems(q, kids, amountIn, amount, trace), goal, log);
      if stopped { return; }
      ghost var log1 := log;
      EvaluateKids(n, amount, trace, prefix, scope);
      Consume(log1, KidItems(q, kids, amountIn, amount, trace), [], log1 + KidItems(q, kids, amountIn, amount, trace), log);
    }

    /** The children of a node, one after the other. */
    method EvaluateKids(n: Node, amount: nat, trace: seq<HopQuote>, ghost prefix: Path, ghost scope: set<Pool>)
      requires Valid() && !stopped && CacheTrue(q, cache, scope)
      requires KidsWf(n.children, prefix) && KidsInScope(n.children, scope)
      modifies this
      ensures Valid() && CacheTrue(q, cache, scope) && CacheGrown(q, old(cache), cache)
      ensures old(log) <= log <= old(log) + KidItems(q, n.children, amountIn, amount, trace)
      ensures !stopped ==> log == old(log) + KidItems(q, n.children, amountIn, amount, trace)
      ensures requested <= old(requested) + KidRequested(q, n.children, prefix, amount)
      ensures !stopped ==> requested == old(requested) + KidRequested(q, n.children, prefix, amount)
      decreases n, 0
    {
      hide CacheTrue, CacheGrown, KidItems, KidRequested, ChildItems, ChildRequested, KidsWf, KidsInScope, Wf, InScope, Valid;
      ghost var kids := n.children;
      ghost var goal := log + KidItems(q, kids, amountIn, amount, trace);
      ghost var asked := requested + KidRequested(q, kids, prefix, amount);
      GrownRefl(q, cache);
      var j := 0;
      assert kids[0..] == kids;
      while j < |n.children|
        invariant 0 <= j <= |n.children|
        invariant Valid() && !stopped && CacheTrue(q, cache, scope) && CacheGrown(q, old(cache), cache) && old(log) <= log
        invariant KidsWf(kids[j..], prefix) && KidsInScope(kids[j..], scope)
        invariant log + KidItems(q, kids[j..], amountIn, amount, trace) == goal
        invariant requested + KidRequested(q, kids[j..], prefix, amount) == asked
      {
        assert kids[j..][0] == n.children[j] && kids[j..][1..] == kids[j + 1..];
        ChildInScope(kids[j..], prefix, scope);
        KidsUnfold(q, kids[j..], prefix, amountIn, amount, trace);
        ghost var before := cache;
        ghost var log0, asked0 := log, requested;
        EvaluateChild(n.children[j], amount, trace, prefix, scope);
        GrownTrans(q, old(cache), before, cache);
        Consume(log0, ChildItems(q, kids[j], amountIn, amount, trace), KidItems(q, kids[j + 1..], amountIn, amount, trace), goal, log);
        Consume(asked0, ChildRequested(q, kids[j], prefix, amount), KidRequested(q, kids[j + 1..], prefix, amount), asked, requested);
        j := j + 1;
        if stopped { return; }
      }
      assert kids[j..] == [];
      KidsUnfold(q, [], prefix, amountIn, amount, trace);
    }

    /** Quote one edge of the trie, then either descend or fail everything below it. */
    method EvaluateChild(child: Child, amount: nat, trace: seq<HopQuote>, ghost prefix: Path, ghost scope: set<Pool>)
      requires Valid() && !stopped && CacheTrue(q, cache, scope)
      requires Wf(child.node, prefix + [child.hop]) && InScope(child.node, scope) && child.hop.pool in scope
      modifies this
      ensures Valid() && CacheTrue(q, cache, scope) && CacheGrown(q, old(cache), cache)
      ensures old(log) <= log <= old(log) + ChildItems(q, child, amountIn, amount, trace)
      ensures !stopped ==> log == old(log) + ChildItems(q, child, amountIn, amount, trace)
      ensures requested <= old(requested) + ChildRequested(q, child, prefix, amount)
      ensures !stopped ==> requested == old(requested) + ChildRequested(q, child, prefix, amount)
      decreases child, 2
    {
      hide CacheTrue, CacheGrown, Items, Requested, Wf, InScope, Terminals;
      var o := QuoteHop(child.hop, amount, scope);
      ghost var before := cache;
      requested := requested + [prefix + [child.hop]];
      match o {
        case Ok(out) =>
          Evaluate(child.node, out, trace + [HopQuote(child.hop, amount, out)], prefix + [child.hop], scope);
          GrownTrans(q, old(cache), before, cache);
        case Err(reason) =>
          PushAll(Blame(Terminals(child.node), reason));
      }
    }
  }

  /** Consuming the head of what is left to produce. */
  lemma Consume<T>(before: seq<T>, head: seq<T>, rest: seq<T>, goal: seq<T>, after: seq<T>)
    requires goal == before + (head + rest) && after <= before + head
    ensures after <= goal
    ensures after == before + head ==> after + rest == goal
  {
  }

  lemma ItemsUnfold(q: Quoter, n: Node, prefix: Path, amountIn: nat, amount: nat, trace: seq<HopQuote>)
    ensures Items(q, n, amountIn, amount, trace)
         == Hits(n.terminals, amountIn, amount, trace) + KidItems(q, n.children, amountIn, amount, trace)
    ensures Requested(q, n, prefix, amount) == KidRequested(q, n.children, prefix, amount)
  {
  }

  lemma KidsUnfold(q: Quoter, kids: seq<Child>, prefix: Path, amountIn: nat, amount: nat, trace: seq<HopQuote>)
    ensures KidItems(q, kids, amountIn, amount, trace) == if kids == [] then [] else
              ChildItems(q, kids[0], amountIn, amount, trace) + KidItems(q, kids[1..], amountIn, amount, trace)
    ensures KidRequested(q, kids, prefix, amount) == if kids == [] then [] else
              ChildRequested(q, kids[0], prefix, amount) + KidRequested(q, kids[1..], prefix, amount)
  {
  }

  // ---- evaluating a list of paths ----

  function QuotePaths(quotes: seq<RouteQuote>): seq<Path> {
    seq(|quotes|, i requires 0 <= i < |quotes| => quotes[i].path)
  }

  function FailurePaths(failures: seq<PathFailure>): seq<Path> {
    seq(|failures|, i requires 0 <= i < |failures| => failures[i].path)
  }

  lemma {:induction false} SplitLog(items: seq<Item>)
    ensures multiset(QuotePaths(QuotesOf(items))) + multiset(FailurePaths(FailuresOf(items))) == multiset(ItemPaths(items))
    ensures forall x :: x in QuotesOf(items) ==> Viable(x) in items
    ensures forall x :: x in FailuresOf(items) ==> Dead(x) in items
  {
    if items != [] {
      var n := |items| - 1;
      SplitLog(items[..n]);
      assert items == items[..n] + [items[n]];
      assert ItemPaths(items) == ItemPaths(items[..n]) + [items[n].Path()];
      if items[n].Viable? {
        assert QuotePaths(QuotesOf(items)) == QuotePaths(QuotesOf(items[..n])) + [items[n].quote.path];
      } else {
        assert FailurePaths(FailuresOf(items)) == FailurePaths(FailuresOf(items[..n])) + [items[n].failure.path];
      }
    }
  }

  datatype Report = Report(quotes: seq<RouteQuote>, failures: seq<PathFailure>, stopped: bool, cache: QuoteTable)

  /** What a caller may rely on, whatever order the trie visited the paths in. */
  ghost predicate ReportOk(q: Quoter, paths: seq<Path>, amountIn: nat, r: Report) {
    && (forall x :: x in r.quotes ==> x.path in paths && QuotePathSpec(q, x.path, amountIn) == Success(x))
    && (forall x :: x in r.failures ==> x.path in paths && QuotePathSpec(q, x.path, amountIn) == Failure(x.reason))
    && (!r.stopped ==>
          multiset(QuotePaths(r.quotes)) + multiset(FailurePaths(r.failures)) == multiset(paths))
  }

  ghost predicate AllFaithful(q: Quoter, amountIn: nat, items: seq<Item>) {
    forall i :: 0 <= i < |items| ==> Faithful(q, amountIn, items[i])
  }

  lemma LogGivesReport(q: Quoter, paths: seq<Path>, amountIn: nat, items: seq<Item>, all: seq<Item>, r: Report)
    requires items <= all && AllFaithful(q, amountIn, all) && multiset(ItemPaths(all)) <= multiset(paths)
    requires r.quotes == QuotesOf(items) && r.failures == FailuresOf(items)
    requires !r.stopped ==> items == all && multiset(ItemPaths(all)) == multiset(paths)
    ensures ReportOk(q, paths, amountIn, r)
  {
    SplitLog(items);
    forall i | 0 <= i < |items| ensures items[i].Path() in paths && Faithful(q, amountIn, items[i]) {
      assert items[i] == all[i];
      assert ItemPaths(all)[i] in multiset(ItemPaths(all));
    }
  }

  /** Evaluate a list of paths through one trie and one hop cache. Every path occurrence is
      reported once, as the quote or the failure that quoting it alone would give, and no hop
      prefix is requested twice. */
  method QuotePathList(q: Quoter, paths: seq<Path>, amountIn: nat, cache: QuoteTable,
                       keepQuote: nat -> bool, keepFailure: nat -> bool, ghost scope: set<Pool>)
    returns (r: Report, ghost requests: nat)
    requires CacheTrue(q, cache, scope) && forall p :: p in paths ==> Pools(p) <= scope
    ensures ReportOk(q, paths, amountIn, r)
    ensures CacheTrue(q, r.cache, scope) && CacheGrown(q, cache, r.cache)
    ensures requests <= |PrefixSet(paths)|
    ensures r.stopped ==> exists i :: !keepQuote(i) || !keepFailure(i)
  {
    var ev := new QuoteDagEvaluator(q, amountIn, cache, keepQuote, keepFailure);
    hide CacheTrue, CacheGrown, Wf, ReportOk, Items, Requested, PrefixSet, Balanced, InScope;
    GrownRefl(q, cache);
    var root, seen := BuildDag(ev, paths);
    ghost var early := ev.log;
    requests := 0;
    if !ev.stopped {
      RootInScope(q, amountIn, early, root, paths, scope);
      ev.Evaluate(root, amountIn, [], [], scope);
      requests := |ev.requested|;
      RequestBound(q, root, paths, amountIn, ev.requested);
    }
    r := Report(ev.quotes, ev.failures, ev.stopped, ev.cache);
    BalancedGivesReport(q, paths, amountIn, early, root, seen, ev.log, r);
  }

  lemma RootInScope(q: Quoter, amountIn: nat, log: seq<Item>, root: Node, paths: seq<Path>, scope: set<Pool>)
    requires Balanced(q, amountIn, log, root, paths) && forall p :: p in paths ==> Pools(p) <= scope
    ensures Wf(root, []) && InScope(root, scope) && forall p :: p in Terminals(root) ==> p in paths
  {
    assert forall p :: p in Terminals(root) ==> p in multiset(Terminals(root)) && p in multiset(paths);
  }

  /** Every path of `paths` is either already reported or waiting in the trie, once each. */
  ghost predicate Balanced(q: Quoter, amountIn: nat, log: seq<Item>, root: Node, paths: seq<Path>) {
    && Wf(root, []) && root.terminals == []
    && AllFaithful(q, amountIn, log)
    && multiset(ItemPaths(log)) + multiset(Terminals(root)) == multiset(paths)
  }

  lemma BalancedEmptyPath(q: Quoter, amountIn: nat, log: seq<Item>, root: Node, paths: seq<Path>)
    requires Balanced(q, amountIn, log, root, paths)
    ensures Balanced(q, amountIn, log + [Dead(PathFailure([], EMPTY_PATH))], root, paths + [[]])
  {
    ItemPathsAppend(log, [Dead(PathFailure([], EMPTY_PATH))]);
    assert ItemPaths([Dead(PathFailure([], EMPTY_PATH))]) == [[]];
  }

  lemma BalancedInsert(q: Quoter, amountIn: nat, log: seq<Item>, root: Node, paths: seq<Path>, path: Path)
    requires Balanced(q, amountIn, log, root, paths) && path != []
    ensures Balanced(q, amountIn, log, Insert(root, path, path), paths + [path])
  {
    InsertKeepsWf(root, [], path);
    assert [] + path == path;
  }

  /** Put every non-empty path into the trie; an empty path fails at once. */
  method BuildDag(ev: QuoteDagEvaluator, paths: seq<Path>) returns (root: Node, ghost seen: nat)
    requires ev.Valid() && ev.log == [] && ev.requested == [] && !ev.stopped
    modifies ev
    ensures ev.Valid() && ev.cache == old(ev.cache) && ev.requested == []
    ensures seen <= |paths| && Balanced(ev.q, ev.amountIn, ev.log, root, paths[..seen])
    ensures !ev.stopped ==> paths[..seen] == paths
  {
    root := EMPTY;
    assert Balanced(ev.q, ev.amountIn, [], root, paths[..0]);
    hide Balanced, Insert;
    var i := 0;
    while i < |paths| && !ev.stopped
      invariant 0 <= i <= |paths|
      invariant ev.Valid() && ev.cache == old(ev.cache) && ev.requested == []
      invariant Balanced(ev.q, ev.amountIn, ev.log, root, paths[..i])
    {
      assert paths[..i + 1] == paths[..i] + [paths[i]];
      if paths[i] == [] {
        BalancedEmptyPath(ev.q, ev.amountIn, ev.log, root, paths[..i]);
        ev.Push(Dead(PathFailure(paths[i], EMPTY_PATH)));
      } else {
        BalancedInsert(ev.q, ev.amountIn, ev.log, root, paths[..i], paths[i]);
        root := Insert(root, paths[i], paths[i]);
      }
      i := i + 1;
    }
    seen := i;
  }

  lemma BalancedGivesReport(q: Quoter, paths: seq<Path>, amountIn: nat, log: seq<Item>, root: Node, seen: nat, after: seq<Item>, r: Report)
    requires seen <= |paths| && Balanced(q, amountIn, log, root, paths[..seen])
    requires r.quotes == QuotesOf(after) && r.failures == FailuresOf(after)
    requires log <= after <= log + Items(q, root, amountIn, amountIn, [])
    requires !r.stopped ==> seen == |paths| && after == log + Items(q, root, amountIn, amountIn, [])
    ensures ReportOk(q, paths, amountIn, r)
  {
    var items := Items(q, root, amountIn, amountIn, []);
    ItemsFaithful(q, root, [], amountIn, amountIn, []);
    ItemPathsAppend(log, items);
    assert paths == paths[..seen] + paths[seen..];
    LogGivesReport(q, paths, amountIn, after, log + items, r);
  }

  lemma RequestBound(q: Quoter, root: Node, paths: seq<Path>, amountIn: nat, requested: seq<Path>)
    requires Wf(root, []) && requested <= Requested(q, root, [], amountIn)
    requires forall p :: p in Terminals(root) ==> p in paths
    ensures |requested| <= |PrefixSet(paths)|
  {
    RequestedOnce(q, root, [], amountIn);
    forall i | 0 <= i < |requested| ensures requested[i] in PrefixSet(paths) {
      assert Under(requested[i], [], Terminals(root));
      var p :| p in Terminals(root) && Between([], requested[i], p);
      var k :| 0 <= k < |paths| && paths[k] == p;
      assert paths[k][..|requested[i]|] == requested[i];
    }
    DistinctFits(requested, PrefixSet(paths));
  }

  /** Every viable path of `paths` is among `xs`. */
  ghost predicate CoversViable(f: Quoter, amountIn: nat, paths: seq<Path>, xs: seq<RouteQuote>) {
    forall p :: p in paths && QuotePathSpec(f, p, amountIn).Success? ==> QuotePathSpec(f, p, amountIn).value in xs
  }

  lemma ReportCovers(f: Quoter, paths: seq<Path>, amountIn: nat, r: Report)
    requires ReportOk(f, paths, amountIn, r) && !r.stopped
    ensures CoversViable(f, amountIn, paths, r.quotes)
  {
    hide QuotePathSpec;
    forall p | p in paths && QuotePathSpec(f, p, amountIn).Success? ensures QuotePathSpec(f, p, amountIn).value in r.quotes {
      assert p in multiset(paths);
      assert p !in FailurePaths(r.failures) by {
        assert forall i :: 0 <= i < |r.failures| ==> r.failures[i] in r.failures;
      }
      var i :| 0 <= i < |r.quotes| && r.quotes[i].path == p;
      assert r.quotes[i] in r.quotes;
    }
  }
}
