/** Pool registrations and the canonical token list each indexable pool contributes. */
module PoolTokens {
  import opened Routing

  datatype Status = Ready | Degraded | Other

  datatype Metadata =
    | Pair(token0: Option<Token>, token1: Option<Token>)
    | Multi(tokens: seq<Token>)
    | Unsupported

  type Address = Token

  /** The address a pool's key stands for, if it stands for one. */
  function KeyAddress(p: Pool): Option<Address> { if p.Pool? then Some(Token(p.id)) else None }

  /** Where a pool's tokens are kept: at the address of its key, or as cash words of a vault. */
  datatype Holding = PoolHeld | VaultHeld(vault: Option<Address>, cash: map<Token, CashWord>)

  datatype CashWord = CashWord(slot: nat, high: bool)

  datatype Registration = Registration(pool: Pool, status: Status, metadata: Metadata, holding: Holding)

  datatype SkipReason = BadStatus(status: Status) | MissingMetadata | UnsupportedMetadata | TooFewTokens(count: nat)

  /** Strictly increasing in address order, hence without duplicates. */
  ghost predicate Sorted(s: seq<Token>) {
    forall i, j :: 0 <= i < j < |s| ==> s[i].id < s[j].id
  }

  function InsertToken(t: Token, s: seq<Token>): (r: seq<Token>)
    requires Sorted(s)
    ensures Sorted(r) && forall x :: x in r <==> x == t || x in s
  {
    if s == [] || t.id < s[0].id then [t] + s
    else if t == s[0] then s
    else
      var r := InsertToken(t, s[1..]);
      assert s == [s[0]] + s[1..];
      TailAbove(s);
      assert forall x :: x in r ==> s[0].id < x.id;
      assert forall i :: 0 <= i < |r| ==> r[i] in r;
      [s[0]] + r
  }

  lemma TailAbove(s: seq<Token>)
    requires Sorted(s) && s != []
    ensures forall x :: x in s[1..] ==> s[0].id < x.id
  {
  }

  /** Sorted without repetitions, holding exactly the given tokens. */
  function Normalize(raw: seq<Token>): (r: seq<Token>)
    ensures Sorted(r) && forall x :: x in r <==> x in raw
  {
    if raw == [] then [] else InsertToken(raw[0], Normalize(raw[1..]))
  }

  /** The canonical list is determined by the tokens it holds. */
  lemma {:induction false} SortedUnique(a: seq<Token>, b: seq<Token>)
    requires Sorted(a) && Sorted(b) && forall x :: x in a <==> x in b
    ensures a == b
  {
    if a == [] {
      HeadIn(b);
    } else {
      assert a[0] in a && a[0] in b;
      assert b[0] in b && b[0] in a;
      assert a == [a[0]] + a[1..] && b == [b[0]] + b[1..];
      assert a[0] == b[0];
      forall x ensures x in a[1..] <==> x in b[1..] {
        if x in a[1..] { assert x in a && x != a[0]; }
        if x in b[1..] { assert x in b && x != b[0]; }
      }
      SortedUnique(a[1..], b[1..]);
    }
  }

  predicate Indexable(status: Status, includeDegraded: bool) {
    status == Ready || (includeDegraded && status == Degraded)
  }

  /** `tokens_for_pool`: the canonical token list, or why the pool cannot be indexed. */
  function TokensForPool(m: Metadata): (r: Result<seq<Token>, SkipReason>)
    ensures r.Success? ==> Sorted(r.value) && |r.value| >= 2
    ensures r.Success? ==> RegisteredTokens(m).Some? && forall t :: t in r.value <==> t in RegisteredTokens(m).value
    ensures RegisteredTokens(m).Some? ==>
              r == if |Normalize(RegisteredTokens(m).value)| < 2 then Failure(TooFewTokens(|Normalize(RegisteredTokens(m).value)|)) else Success(Normalize(RegisteredTokens(m).value))
    ensures r.Failure? && RegisteredTokens(m).None? ==> (r.error == MissingMetadata <==> m.Pair?)
  {
    match m
    case Unsupported => Failure(UnsupportedMetadata)
    case Pair(Some(a), Some(b)) => AtLeastTwo(Normalize([a, b]))
    case Pair(_, _) => Failure(MissingMetadata)
    case Multi(raw) => AtLeastTwo(Normalize(raw))
  }

  function AtLeastTwo(tokens: seq<Token>): (r: Result<seq<Token>, SkipReason>)
    ensures r.Success? <==> |tokens| >= 2
    ensures r.Success? ==> r.value == tokens
  {
    if |tokens| < 2 then Failure(TooFewTokens(|tokens|)) else Success(tokens)
  }

  /** Why a registration is not indexed, if it is not. */
  function WhySkipped(r: Registration, includeDegraded: bool): (o: Option<SkipReason>)
    ensures o.Some? <==> IndexedTokens(r, includeDegraded).None?
  {
    if !Indexable(r.status, includeDegraded) then Some(BadStatus(r.status))
    else match TokensForPool(r.metadata)
      case Success(_) => None
      case Failure(reason) => Some(reason)
  }

  /** What the graph indexes for a registration. */
  function IndexedTokens(r: Registration, includeDegraded: bool): (o: Option<seq<Token>>)
    ensures o.Some? ==> Sorted(o.value) && |o.value| >= 2
  {
    if !Indexable(r.status, includeDegraded) then None
    else match TokensForPool(r.metadata)
      case Success(tokens) => Some(tokens)
      case Failure(_) => None
  }

  /** A registration's own token list, when its metadata has one. */
  function RegisteredTokens(m: Metadata): Option<seq<Token>> {
    match m
    case Pair(Some(a), Some(b)) => Some([a, b])
    case Multi(raw) => Some(raw)
    case _ => None
  }

  /** The metadata names the token, and is complete. */
  ghost predicate Names(m: Metadata, t: Token) {
    match m
    case Pair(Some(a), Some(b)) => t == a || t == b
    case Multi(raw) => t in raw
    case _ => false
  }

  /** A registration is indexed exactly if its status allows it and it names two different tokens; the list
      holds all it names. Otherwise the reason is the first thing wrong. */
  lemma IndexedExactly(r: Registration, includeDegraded: bool)
    ensures IndexedTokens(r, includeDegraded).Some? <==>
              && (r.status == Ready || (r.status == Degraded && includeDegraded))
              && exists t, u :: t != u && Names(r.metadata, t) && Names(r.metadata, u)
    ensures IndexedTokens(r, includeDegraded).Some? ==> forall t :: t in IndexedTokens(r, includeDegraded).value <==> Names(r.metadata, t)
    ensures var w := WhySkipped(r, includeDegraded);
            if r.status == Other || (r.status == Degraded && !includeDegraded) then w == Some(BadStatus(r.status))
            else match r.metadata
              case Unsupported => w == Some(UnsupportedMetadata)
              case Pair(None, _) => w == Some(MissingMetadata)
              case Pair(_, None) => w == Some(MissingMetadata)
              case _ => w.Some? ==> w == Some(TooFewTokens(if exists t :: Names(r.metadata, t) then 1 else 0))
  {
    var tokens := TokensForPool(r.metadata);
    if tokens.Success? {
      assert tokens.value[0] in tokens.value && tokens.value[1] in tokens.value;
      assert Names(r.metadata, tokens.value[0]) && Names(r.metadata, tokens.value[1]);
    } else if RegisteredTokens(r.metadata).Some? {
      FewNames(r.metadata, Normalize(RegisteredTokens(r.metadata).value));
    }
  }

  lemma FewNames(m: Metadata, tokens: seq<Token>)
    requires |tokens| < 2 && forall t :: t in tokens <==> Names(m, t)
    ensures !exists t, u :: t != u && Names(m, t) && Names(m, u)
    ensures |tokens| == if exists t :: Names(m, t) then 1 else 0
  {
    if |tokens| == 1 { assert Names(m, tokens[0]) by { assert tokens[0] in tokens; } }
  }

  ghost predicate TokensOk(poolTokens: map<Pool, seq<Token>>) {
    forall p :: p in poolTokens ==> Sorted(poolTokens[p]) && |poolTokens[p]| >= 2
  }

  /** `normalize` seen as a property: distinct tokens in a sorted list have distinct positions. */
  lemma SortedDistinct(s: seq<Token>)
    requires Sorted(s)
    ensures Distinct(s)
  {
  }
}
