/** Values shared by the whole routing core: tokens, pools, hops, paths, and the
    hop-by-hop quoting that every faster evaluation in the project is compared with. */
module Routing {

  datatype Option<+T> = None | Some(value: T)

  datatype Result<+T, +E> = Success(value: T) | Failure(error: E)

  datatype Token = Token(id: nat)

  /** A pool's logical key: its own address, or an identifier inside a vault. */
  datatype Pool = Pool(id: nat) | InVault(id: nat)

  datatype Hop = Hop(pool: Pool, tokenIn: Token, tokenOut: Token)

  type Path = seq<Hop>

  /** Result of simulating one swap: the output amount or the reason it failed. */
  datatype Outcome = Ok(amount: nat) | Err(reason: string)

  /** Adapter simulation on a fixed pool state: deterministic in the hop and the input amount. */
  type Quoter = (Hop, nat) -> Outcome

  /** What a hop quote depends on besides the pool state. */
  datatype Key = Key(hop: Hop, amount: nat)

  /** A pool state by its outcomes: the true outcome of every key, failure where none is listed. */
  type Truths = imap<Key, Outcome>

  function At(truth: Truths, k: Key): Outcome { if k in truth then truth[k] else Err("unlisted") }

  function QuoterOf(truth: Truths): Quoter { (h: Hop, a: nat) => At(truth, Key(h, a)) }

  /** Every quoter is the quoter of some truths. */
  lemma QuoterTruths(q: Quoter) returns (truth: Truths)
    ensures forall h, a :: QuoterOf(truth)(h, a) == q(h, a)
  {
    truth := imap k: Key :: q(k.hop, k.amount);
  }

  datatype HopQuote = HopQuote(hop: Hop, amountIn: nat, amountOut: nat)

  datatype RouteQuote = RouteQuote(path: Path, amountIn: nat, amountOut: nat, hops: seq<HopQuote>)

  const EMPTY_PATH := "empty path"

  /** Sequential simulation of a path: the per-hop trace, or the first failing hop's reason. */
  datatype Trace = Ran(hops: seq<HopQuote>, amountOut: nat) | Stuck(reason: string)

  function Run(q: Quoter, path: Path, amount: nat): (t: Trace)
    ensures t.Ran? ==> |t.hops| == |path|
  {
    if path == [] then Ran([], amount)
    else match q(path[0], amount)
      case Err(reason) => Stuck(reason)
      case Ok(out) =>
        match Run(q, path[1..], out)
        case Stuck(reason) => Stuck(reason)
        case Ran(hops, final) => Ran([HopQuote(path[0], amount, out)] + hops, final)
  }

  /** The quote of a whole path, with the empty path refused. */
  function QuotePathSpec(q: Quoter, path: Path, amount: nat): Result<RouteQuote, string> {
    if path == [] then Failure(EMPTY_PATH)
    else match Run(q, path, amount)
      case Stuck(reason) => Failure(reason)
      case Ran(hops, out) => Success(RouteQuote(path, amount, out, hops))
  }

  lemma {:induction false} RunAppend(q: Quoter, a: Path, b: Path, amount: nat)
    ensures Run(q, a + b, amount) ==
            match Run(q, a, amount)
            case Stuck(reason) => Stuck(reason)
            case Ran(hops, mid) =>
              match Run(q, b, mid)
              case Stuck(reason) => Stuck(reason)
              case Ran(more, out) => Ran(hops + more, out)
  {
    if a == [] {
      assert a + b == b;
      match Run(q, b, amount) {
        case Stuck(_) =>
        case Ran(more, _) => assert [] + more == more;
      }
    } else {
      assert (a + b)[1..] == a[1..] + b;
      match q(a[0], amount) {
        case Err(_) =>
        case Ok(out) =>
          RunAppend(q, a[1..], b, out);
          match Run(q, a[1..], out) {
            case Stuck(_) =>
            case Ran(hops, mid) =>
              match Run(q, b, mid) {
                case Stuck(_) =>
                case Ran(more, _) =>
                  assert [HopQuote(a[0], amount, out)] + (hops + more)
                      == ([HopQuote(a[0], amount, out)] + hops) + more;
              }
          }
      }
    }
  }

  /** Two quoters that agree on every pool a path uses give the path the same trace. */
  lemma {:induction false} RunDependsOnPathPools(q: Quoter, q': Quoter, path: Path, amount: nat)
    requires forall i, a :: 0 <= i < |path| ==> q(path[i], a) == q'(path[i], a)
    ensures Run(q, path, amount) == Run(q', path, amount)
  {
    if path != [] {
      assert q(path[0], amount) == q'(path[0], amount);
      if q(path[0], amount).Ok? {
        forall i, a | 0 <= i < |path[1..]| ensures q(path[1..][i], a) == q'(path[1..][i], a) {
          assert path[1..][i] == path[i + 1];
        }
        RunDependsOnPathPools(q, q', path[1..], q(path[0], amount).amount);
      }
    }
  }

  /** The two pool states differ at most on `pools`. */
  ghost predicate ChangesOnly(q: Quoter, q': Quoter, pools: set<Pool>) {
    forall h: Hop, a: nat :: h.pool !in pools ==> q(h, a) == q'(h, a)
  }

  /** Hop-by-hop quoting as the searcher does it: an amount carried through a loop. */
  method QuotePath(q: Quoter, path: Path, amountIn: nat) returns (r: Result<RouteQuote, string>)
    ensures r == QuotePathSpec(q, path, amountIn)
  {
    if path == [] {
      return Failure(EMPTY_PATH);
    }
    var amount := amountIn;
    var hops: seq<HopQuote> := [];
    for i := 0 to |path|
      invariant Run(q, path[..i], amountIn) == Ran(hops, amount)
    {
      assert path == path[..i] + path[i..];
      RunAppend(q, path[..i], path[i..], amountIn);
      RunAppend(q, path[..i], [path[i]], amountIn);
      assert path[..i + 1] == path[..i] + [path[i]];
      match q(path[i], amount) {
        case Err(reason) => return Failure(reason);
        case Ok(out) =>
          assert Run(q, [path[i]], amount) == Ran([HopQuote(path[i], amount, out)], out);
          hops := hops + [HopQuote(path[i], amount, out)];
          amount := out;
      }
    }
    assert path[..|path|] == path;
    r := Success(RouteQuote(path, amountIn, amount, hops));
  }

  /** A token graph as the search loops see it: per token, the cached outgoing edges. */
  type Graph = map<Token, seq<Hop>>

  predicate HasEdge(g: Graph, e: Hop) {
    e.tokenIn in g && e in g[e.tokenIn]
  }

  /** What the graph index guarantees to the search: edges leave the token they are listed
      under for another indexed token, and none is listed twice. */
  ghost predicate WellFormed(g: Graph) {
    && (forall t, i :: t in g && 0 <= i < |g[t]| ==>
          g[t][i].tokenIn == t && g[t][i].tokenOut in g && g[t][i].tokenOut != t)
    && (forall t, i, j :: t in g && 0 <= i < j < |g[t]| ==> g[t][i] != g[t][j])
  }

  /** Every pool connects each ordered pair of the tokens it touches. */
  ghost predicate PoolsAreCliques(g: Graph) {
    && (forall e :: HasEdge(g, e) ==> HasEdge(g, Hop(e.pool, e.tokenOut, e.tokenIn)))
    && (forall e, f :: HasEdge(g, e) && HasEdge(g, f) && e.pool == f.pool && e.tokenIn != f.tokenOut
          ==> HasEdge(g, Hop(e.pool, e.tokenIn, f.tokenOut)))
  }

  /** The tokens a walk from `start` stands on, in order. */
  function Stops(start: Token, p: Path): (r: seq<Token>)
    ensures |r| == |p| + 1 && r[0] == start
    ensures forall i {:trigger p[i]} :: 0 <= i < |p| ==> r[i + 1] == p[i].tokenOut
  {
    if p == [] then [start]
    else Stops(start, p[..|p| - 1]) + [p[|p| - 1].tokenOut]
  }

  /** Contiguous hops over edges of the graph. */
  ghost predicate IsWalk(g: Graph, start: Token, p: Path) {
    forall i :: 0 <= i < |p| ==> HasEdge(g, p[i]) && p[i].tokenIn == Stops(start, p)[i]
  }

  ghost predicate DistinctPools(p: Path) {
    forall i, j :: 0 <= i < j < |p| ==> p[i].pool != p[j].pool
  }

  function Pools(p: Path): set<Pool> {
    set h | h in p :: h.pool
  }

  function Visited(start: Token, p: Path): set<Token> {
    set t | t in Stops(start, p)
  }

  ghost predicate Distinct<T>(s: seq<T>) {
    forall i, j :: 0 <= i < j < |s| ==> s[i] != s[j]
  }

  // ---- finite collections and machine ranges ----

  const U64_MAX: nat := 0xFFFF_FFFF_FFFF_FFFF

  const USIZE_MAX: nat := U64_MAX

  function Find<K(==), V>(m: map<K, V>, k: K): Option<V> { if k in m then Some(m[k]) else None }

  lemma SubsetSize<T>(a: set<T>, b: set<T>)
    requires a <= b
    ensures |a| <= |b|
  {
    assert b == a + (b - a);
  }

  lemma HeadIn<T>(s: seq<T>)
    ensures s == [] || s[0] in s
  {
  }

  lemma DistinctConcat<T>(a: seq<T>, b: seq<T>)
    requires Distinct(a) && Distinct(b) && forall x :: x in a ==> x !in b
    ensures Distinct(a + b)
  {
    forall i, j | 0 <= i < j < |a + b| ensures (a + b)[i] != (a + b)[j] {
      if i < |a| <= j { assert a[i] in a && b[j - |a|] in b; }
    }
  }

  lemma {:induction false} DistinctCount<T>(s: seq<T>)
    requires Distinct(s)
    ensures |set x | x in s| == |s|
  {
    if s != [] {
      var n := |s| - 1;
      DistinctCount(s[..n]);
      assert s == s[..n] + [s[n]];
      assert (set x | x in s) == (set x | x in s[..n]) + {s[n]};
    }
  }

  /** A number above all of `used`. */
  ghost function Bound(used: set<nat>): (b: nat)
    ensures forall n :: n in used ==> n < b
  {
    if used == {} then 0 else
      var n :| n in used;
      var b := Bound(used - {n});
      assert forall m :: m in used ==> m == n || m in used - {n};
      if n < b then b else n + 1
  }
}
