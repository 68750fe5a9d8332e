/** Bringing tracked balances in line with a graph and a registry: for selected pools of an existing
    index, or for a whole registry at once. */
module Reconcile {
  import opened Routing
  import opened PoolTokens
  import opened TokenGraph
  import opened AmmGraphs
  import ParallelPools
  import opened Liquidity

  type Contents = map<(Pool, Token), Tracked>

  function Keep(tokens: seq<Token>, needed: set<Token>): (r: seq<Token>)
    requires Sorted(tokens)
    ensures Sorted(r) && forall t :: t in r <==> t in tokens && t in needed
  {
    if tokens == [] then []
    else
      var rest := Keep(tokens[1..], needed);
      TailAbove(tokens);
      if tokens[0] in needed then
        assert forall i :: 0 <= i < |rest| ==> rest[i] in rest;
        [tokens[0]] + rest
      else rest
  }

  /** The tokens of a registration whose balances are to be tracked. */
  function DesiredTokens(r: Registration, needed: set<Token>): (tokens: seq<Token>)
    ensures Sorted(tokens)
  {
    match RegisteredTokens(r.metadata)
    case None => []
    case Some(raw) => Keep(Normalize(raw), needed)
  }

  /** Where a registration says the balance of `t` is kept, its slot still undiscovered. */
  function SourceFor(r: Registration, t: Token): Source {
    match r.holding
    case PoolHeld => if KeyAddress(r.pool).Some? then Erc20(KeyAddress(r.pool).value, None) else NoSource
    case VaultHeld(Some(vault), cash) => if t in cash then VaultCash(vault, cash[t].slot, cash[t].high) else NoSource
    case _ => NoSource
  }

  /** The source is the one the registration describes, field by field: a pool's own balance at the address
      of its key, a vault's cash word with its field, and nothing where the description is incomplete. */
  ghost predicate KeptWhere(r: Registration, t: Token, source: Source) {
    if r.holding.PoolHeld? then
      if r.pool.Pool? then source.Erc20? && source.holder == Token(r.pool.id) else source == NoSource
    else if r.holding.vault.Some? && t in r.holding.cash then
      && source.VaultCash? && source.vault == r.holding.vault.value
      && source.word == r.holding.cash[t].slot && source.high == r.holding.cash[t].high
    else source == NoSource
  }

  /** Every redone entry is where its registration says; a known balance or slot is one it had before. */
  ghost predicate AllKeptWhere(before: Contents, after: Contents, registry: map<Pool, Registration>, pools: set<Pool>) {
    forall k :: k in after && k.0 in pools ==>
      k.0 in registry && KeptWhere(registry[k.0], k.1, after[k].source) && (Find(before, k) == Some(after[k]) || Undiscovered(after[k]))
  }

  ghost predicate Undiscovered(e: Tracked) {
    e.balance == Unknown && (e.source.Erc20? ==> e.source.slot == None)
  }

  lemma RefreshedKeptWhere(r: Registration, t: Token, previous: Option<Tracked>)
    ensures var e := Refreshed(previous, SourceFor(r, t));
            KeptWhere(r, t, e.source) && (previous == Some(e) || Undiscovered(e))
  {
  }

  lemma RedoneKeptWhere(before: Contents, after: Contents, registry: map<Pool, Registration>, poolTokens: map<Pool, seq<Token>>, scope: ParallelPools.Scope, pools: set<Pool>)
    requires RedoneAll(before, after, registry, poolTokens, scope, pools)
    ensures AllKeptWhere(before, after, registry, pools)
  {
    hide KeptWhere, SourceFor, Refreshed, ParallelPools.Tracked, Undiscovered;
    forall k | k in after && k.0 in pools
      ensures k.0 in registry && KeptWhere(registry[k.0], k.1, after[k].source) && (Find(before, k) == Some(after[k]) || Undiscovered(after[k]))
    {
      assert AskedEntryOk(before, after, registry, poolTokens, scope, k);
      RefreshedKeptWhere(registry[k.0], k.1, Find(before, k));
    }
  }

  lemma BuiltKeptWhere(c: Contents, registry: map<Pool, Registration>, poolTokens: map<Pool, seq<Token>>, scope: ParallelPools.Scope)
    requires BuiltFrom(c, registry, poolTokens, scope, registry.Keys)
    ensures AllKeptWhere(map[], c, registry, registry.Keys)
  {
    hide TooFew, ParallelPools.Tracked;
    forall k | k in c ensures k.0 in registry && KeptWhere(registry[k.0], k.1, c[k].source) && Undiscovered(c[k]) {
      assert Find(c, k) == BuiltEntry(registry, poolTokens, scope, registry.Keys, k);
    }
  }

  /** A discovered slot is kept while the holder stays the same. */
  function Preserve(previous: Source, desired: Source): Source {
    if previous.Erc20? && previous.slot.Some? && desired.Erc20? && previous.holder == desired.holder then previous else desired
  }

  /** The registration still keeps the balance where it was; only the slot may have been discovered. */
  predicate SamePlace(previous: Source, desired: Source) {
    previous == desired || (previous.Erc20? && desired.Erc20? && previous.holder == desired.holder && previous.slot.Some?)
  }

  /** An entry after reconciling: the balance is carried over only with an unchanged source. */
  function Refreshed(previous: Option<Tracked>, desired: Source): (e: Tracked)
    ensures e.balance != Unknown ==> previous == Some(e)
    ensures previous.Some? && SamePlace(previous.value.source, desired) ==> e == previous.value
    ensures previous.None? || !SamePlace(previous.value.source, desired) ==> e == Tracked.Tracked(desired, Unknown)
  {
    if previous.None? then Tracked.Tracked(desired, Unknown)
    else
      var source := Preserve(previous.value.source, desired);
      Tracked.Tracked(source, if previous.value.source == source then previous.value.balance else Unknown)
  }

  /** Whether the registry and the needed tokens ask for this balance. */
  predicate Wanted(registry: map<Pool, Registration>, pool: Pool, needed: set<Token>, t: Token) {
    pool in registry && t in DesiredTokens(registry[pool], needed)
  }

  ghost predicate EntryOk(before: Contents, after: Contents, registry: map<Pool, Registration>, needed: set<Token>, k: (Pool, Token)) {
    && (k in after <==> Wanted(registry, k.0, needed, k.1))
    && (k in after ==> after[k] == Refreshed(Find(before, k), SourceFor(registry[k.0], k.1)))
  }

  ghost predicate SameEntry(before: Contents, after: Contents, k: (Pool, Token)) {
    Find(before, k) == Find(after, k)
  }

  /** Exactly the entries of `pool` were redone. */
  ghost predicate Redone(before: Contents, after: Contents, registry: map<Pool, Registration>, pool: Pool, needed: set<Token>) {
    forall k: (Pool, Token) :: if k.0 == pool then EntryOk(before, after, registry, needed, k) else SameEntry(before, after, k)
  }

  // ---- one pool ----

  /** What is tracked for the pool now, read through its list of targets. */
  method Previous(index: PoolLiquidityIndex, pool: Pool) returns (previous: map<Token, Tracked>)
    requires index.Valid()
    ensures forall t :: Find(previous, t) == Find(index.Contents(), (pool, t))
  {
    hide IndexesOk, Inverse, PoolKeys, ContentsOf;
    previous := map[];
    var indices := Lookup(index.byPool, pool);
    PoolEntries(index.targets, index.owners, index.byPoolToken, index.byTokenHolder, index.byStorageSlot, index.freeTargets, index.byPool, pool);
    for k := 0 to |indices|
      invariant forall t :: t in previous ==> Find(index.Contents(), (pool, t)) == Some(previous[t])
      invariant forall i :: i in indices[..k] && i < |index.targets| ==> index.targets[i].token in previous
    {
      assert indices[k] in indices && EntryAt(index.targets, index.byPoolToken, pool, indices[k]);
      assert indices[..k + 1] == indices[..k] + [indices[k]];
      var target := index.targets[indices[k]];
      if target.active {
        previous := previous[target.token := Tracked.Tracked(target.source, target.balance)];
      }
    }
    assert indices[..|indices|] == indices;
  }

  /** The pool's list reaches every entry of the pool, and each of its targets is one. */
  lemma PoolEntries(ts: seq<Target>, owners: seq<Pool>, byPoolToken: map<(Pool, Token), nat>, byTokenHolder: map<(Token, Address), seq<nat>>,
                    byStorageSlot: map<(Address, nat), seq<nat>>, free: seq<nat>, byPool: map<Pool, seq<nat>>, pool: Pool)
    requires IndexesOk(ts, owners, byPoolToken, byTokenHolder, byStorageSlot, free) && Inverse(byPool, PoolKeys(ts, owners))
    ensures forall i :: i in Lookup(byPool, pool) ==> EntryAt(ts, byPoolToken, pool, i)
    ensures forall t :: (pool, t) in ContentsOf(ts, byPoolToken) ==> exists i :: i in Lookup(byPool, pool) && i < |ts| && ts[i].token == t
  {
    hide FreeOk, HolderKeys, SlotKeys;
    var list := Lookup(byPool, pool);
    forall i | i in list ensures EntryAt(ts, byPoolToken, pool, i) {
      InverseAt(byPool, PoolKeys(ts, owners), pool, i);
      assert PairKeys(ts, owners)[i] == Some((pool, ts[i].token));
    }
    forall t | (pool, t) in byPoolToken ensures exists i :: i in list && i < |ts| && ts[i].token == t {
      var j := byPoolToken[(pool, t)];
      assert PairKeys(ts, owners)[j] == Some((pool, t));
      InverseAt(byPool, PoolKeys(ts, owners), pool, j);
    }
  }

  /** Position `i` is an active target that stands for its pool and token. */
  ghost predicate EntryAt(ts: seq<Target>, byPoolToken: map<(Pool, Token), nat>, pool: Pool, i: nat) {
    && i < |ts| && ts[i].active
    && Find(ContentsOf(ts, byPoolToken), (pool, ts[i].token)) == Some(Tracked.Tracked(ts[i].source, ts[i].balance))
  }

  /** Rebuild one pool's targets from its registration, carrying balances over where sources agree. */
  method ReconcilePool(index: PoolLiquidityIndex, registry: map<Pool, Registration>, pool: Pool, needed: set<Token>)
    requires index.Valid()
    modifies index
    ensures index.Valid() && Redone(old(index.Contents()), index.Contents(), registry, pool, needed)
    ensures CountsRedone(old(index.poolTokenCounts), index.poolTokenCounts, index.Contents(), registry, {pool})
  {
    hide PoolLiquidityIndex.Valid, PoolLiquidityIndex.Contents, DesiredTokens, Redone, CountsRedone, HasEntry;
    var previous := Previous(index, pool);
    var desired := if pool in registry && needed != {} then DesiredTokens(registry[pool], needed) else [];
    SortedDistinct(desired);
    ghost var before := index.Contents();
    index.RemovePoolTargets(pool);
    ghost var rest := index.Contents();
    if pool in registry {
      var count := TokenCount(registry[pool]);
      if count >= 2 && desired != [] { index.poolTokenCounts := index.poolTokenCounts[pool := count]; }
    }
    PushDesired(index, registry, pool, desired, previous);
    DesiredPushed(before, rest, index.Contents(), registry, pool, needed, desired, previous);
    PushedHasEntry(rest, index.Contents(), registry, pool, desired, previous);
    CountRedone(old(index.poolTokenCounts), index.poolTokenCounts, index.Contents(), registry, pool);
  }

  function TokenCount(r: Registration): nat {
    match RegisteredTokens(r.metadata) case None => 0 case Some(raw) => |Normalize(raw)|
  }

  ghost predicate HasEntry(c: Contents, pool: Pool) { exists t :: (pool, t) in c }

  /** How many tokens the index remembers for a pool: its registered number while it tracks some. */
  ghost function CountFor(c: Contents, registry: map<Pool, Registration>, pool: Pool): Option<nat> {
    if pool in registry && TokenCount(registry[pool]) >= 2 && HasEntry(c, pool) then Some(TokenCount(registry[pool])) else None
  }

  ghost predicate CountsRedone(before: map<Pool, nat>, after: map<Pool, nat>, c: Contents, registry: map<Pool, Registration>, pools: set<Pool>) {
    forall p :: Find(after, p) == if p in pools then CountFor(c, registry, p) else Find(before, p)
  }

  lemma CountRedone(before: map<Pool, nat>, after: map<Pool, nat>, c: Contents, registry: map<Pool, Registration>, pool: Pool)
    requires after == (if CountFor(c, registry, pool).Some? then (before - {pool})[pool := CountFor(c, registry, pool).value] else before - {pool})
    ensures CountsRedone(before, after, c, registry, {pool})
  {
  }

  lemma PushedHasEntry(rest: Contents, after: Contents, registry: map<Pool, Registration>, pool: Pool, tokens: seq<Token>, previous: map<Token, Tracked>)
    requires Pushed(rest, after, registry, pool, tokens, previous) && (tokens != [] ==> pool in registry) && forall t :: (pool, t) !in rest
    ensures HasEntry(after, pool) <==> tokens != []
  {
    HeadIn(tokens);
    if tokens != [] { assert Find(after, (pool, tokens[0])).Some?; }
    if t :| (pool, t) in after { assert Find(after, (pool, t)).Some? && Find(rest, (pool, t)).None?; }
  }

  /** The entry pushed for a desired token. */
  function Entry(registry: map<Pool, Registration>, pool: Pool, previous: map<Token, Tracked>, t: Token): Tracked
    requires pool in registry
  {
    Refreshed(Find(previous, t), SourceFor(registry[pool], t))
  }

  /** `after` is `rest` plus an entry per listed token. */
  ghost predicate Pushed(rest: Contents, after: Contents, registry: map<Pool, Registration>, pool: Pool, tokens: seq<Token>, previous: map<Token, Tracked>) {
    forall k :: Find(after, k) == if k.0 == pool && k.1 in tokens && pool in registry then Some(Entry(registry, pool, previous, k.1)) else Find(rest, k)
  }

  method PushDesired(index: PoolLiquidityIndex, registry: map<Pool, Registration>, pool: Pool, desired: seq<Token>, previous: map<Token, Tracked>)
    requires index.Valid() && Distinct(desired) && (desired != [] ==> pool in registry)
    requires forall t :: (pool, t) !in index.Contents()
    modifies index
    ensures index.Valid() && Pushed(old(index.Contents()), index.Contents(), registry, pool, desired, previous)
    ensures index.poolTokenCounts == old(index.poolTokenCounts)
  {
    hide PoolLiquidityIndex.Valid, PoolLiquidityIndex.Contents, Pushed, Refreshed, SourceFor;
    ghost var rest := index.Contents();
    NothingPushed(rest, registry, pool, previous);
    for k := 0 to |desired|
      invariant index.Valid() && Pushed(rest, index.Contents(), registry, pool, desired[..k], previous)
      invariant index.poolTokenCounts == old(index.poolTokenCounts)
    {
      var t := desired[k];
      var e := Refreshed(Find(previous, t), SourceFor(registry[pool], t));
      PushedStep(rest, index.Contents(), registry, pool, desired, k, previous);
      KeysAgree(index);
      index.PushTarget(pool, t, e.source, e.balance);
    }
    assert desired[..|desired|] == desired;
  }

  lemma KeysAgree(index: PoolLiquidityIndex)
    requires index.Valid()
    ensures index.Contents().Keys == index.byPoolToken.Keys
  {
  }

  lemma NothingPushed(rest: Contents, registry: map<Pool, Registration>, pool: Pool, previous: map<Token, Tracked>)
    ensures Pushed(rest, rest, registry, pool, [], previous)
  {
  }

  lemma PushedStep(rest: Contents, now: Contents, registry: map<Pool, Registration>, pool: Pool, desired: seq<Token>, k: nat, previous: map<Token, Tracked>)
    requires k < |desired| && Distinct(desired) && pool in registry && (forall t :: (pool, t) !in rest)
    requires Pushed(rest, now, registry, pool, desired[..k], previous)
    ensures (pool, desired[k]) !in now
    ensures Pushed(rest, now[(pool, desired[k]) := Entry(registry, pool, previous, desired[k])], registry, pool, desired[..k + 1], previous)
  {
  }

  lemma DesiredPushed(before: Contents, rest: Contents, after: Contents, registry: map<Pool, Registration>, pool: Pool, needed: set<Token>, desired: seq<Token>, previous: map<Token, Tracked>)
    requires rest == (map k | k in before && k.0 != pool :: before[k])
    requires desired == if pool in registry && needed != {} then DesiredTokens(registry[pool], needed) else []
    requires forall t :: Find(previous, t) == Find(before, (pool, t))
    requires Pushed(rest, after, registry, pool, desired, previous)
    ensures Redone(before, after, registry, pool, needed)
  {
  }

  // ---- selected pools ----

  /** The graph and the registry together ask for this balance. */
  ghost predicate Asked(registry: map<Pool, Registration>, poolTokens: map<Pool, seq<Token>>, scope: ParallelPools.Scope, k: (Pool, Token)) {
    && k.0 in registry && RegisteredTokens(registry[k.0].metadata).Some? && k.1 in RegisteredTokens(registry[k.0].metadata).value
    && ParallelPools.Tracked(poolTokens, scope, k.0, k.1)
  }

  ghost predicate AskedEntryOk(before: Contents, after: Contents, registry: map<Pool, Registration>, poolTokens: map<Pool, seq<Token>>, scope: ParallelPools.Scope, k: (Pool, Token)) {
    && (k in after <==> Asked(registry, poolTokens, scope, k))
    && (k in after ==> after[k] == Refreshed(Find(before, k), SourceFor(registry[k.0], k.1)))
  }

  /** Exactly the entries of `pools` were redone. */
  ghost predicate RedoneAll(before: Contents, after: Contents, registry: map<Pool, Registration>, poolTokens: map<Pool, seq<Token>>, scope: ParallelPools.Scope, pools: set<Pool>) {
    forall k: (Pool, Token) :: if k.0 in pools then AskedEntryOk(before, after, registry, poolTokens, scope, k) else SameEntry(before, after, k)
  }

  method ReconcilePools(index: PoolLiquidityIndex, registry: map<Pool, Registration>, g: AmmGraph, scope: ParallelPools.Scope, pools: set<Pool>)
    requires index.Valid() && g.Valid()
    modifies index
    ensures index.Valid() && RedoneAll(old(index.Contents()), index.Contents(), registry, g.poolTokens, scope, pools)
    ensures AllKeptWhere(old(index.Contents()), index.Contents(), registry, pools)
    ensures CountsRedone(old(index.poolTokenCounts), index.poolTokenCounts, index.Contents(), registry, pools)
  {
    hide PoolLiquidityIndex.Valid, PoolLiquidityIndex.Contents, AmmGraph.Valid, RedoneAll, Redone, CountsRedone, ParallelPools.Tracked, AllKeptWhere;
    NoCountsRedone(index.poolTokenCounts, index.Contents(), registry);
    ghost var before := index.Contents();
    RedoneNone(before, registry, g.poolTokens, scope);
    var todo := pools;
    assert pools - todo == {};
    while todo != {}
      invariant todo <= pools && index.Valid() && g.Valid()
      invariant RedoneAll(before, index.Contents(), registry, g.poolTokens, scope, pools - todo)
      invariant CountsRedone(old(index.poolTokenCounts), index.poolTokenCounts, index.Contents(), registry, pools - todo)
      decreases |todo|
    {
      var pool :| pool in todo;
      var needed := ParallelPools.TrackedTokensForPool(g, pool, scope.ParallelEdgeOutputs?);
      assert scope == if scope.ParallelEdgeOutputs? then ParallelPools.ParallelEdgeOutputs else ParallelPools.AllDirectedEdges;
      ghost var now, counts := index.Contents(), index.poolTokenCounts;
      ReconcilePool(index, registry, pool, needed);
      CountsRedoneMore(old(index.poolTokenCounts), counts, index.poolTokenCounts, now, index.Contents(), registry, pools - todo, pool, needed);
      RedoneMore(before, now, index.Contents(), registry, g.poolTokens, scope, pools - todo, pool, needed);
      assert pools - (todo - {pool}) == (pools - todo) + {pool};
      todo := todo - {pool};
    }
    assert pools - {} == pools;
    RedoneKeptWhere(before, index.Contents(), registry, g.poolTokens, scope, pools);
  }

  lemma NoCountsRedone(counts: map<Pool, nat>, c: Contents, registry: map<Pool, Registration>)
    ensures CountsRedone(counts, counts, c, registry, {})
  {
  }

  lemma CountsRedoneMore(before: map<Pool, nat>, now: map<Pool, nat>, after: map<Pool, nat>, c: Contents, c': Contents, registry: map<Pool, Registration>, done: set<Pool>, pool: Pool, needed: set<Token>)
    requires CountsRedone(before, now, c, registry, done) && CountsRedone(now, after, c', registry, {pool}) && Redone(c, c', registry, pool, needed) && pool !in done
    ensures CountsRedone(before, after, c', registry, done + {pool})
  {
    hide TokenCount, EntryOk;
    forall p ensures Find(after, p) == if p in done + {pool} then CountFor(c', registry, p) else Find(before, p) {
      assert Find(now, p) == if p in done then CountFor(c, registry, p) else Find(before, p);
      assert Find(after, p) == if p == pool then CountFor(c', registry, p) else Find(now, p);
      if p != pool { SameEntries(c, c', registry, pool, needed, p); }
    }
  }

  lemma SameEntries(c: Contents, c': Contents, registry: map<Pool, Registration>, pool: Pool, needed: set<Token>, p: Pool)
    requires Redone(c, c', registry, pool, needed) && p != pool
    ensures HasEntry(c, p) <==> HasEntry(c', p)
  {
    if t :| (p, t) in c { assert SameEntry(c, c', (p, t)); }
    if t :| (p, t) in c' { assert SameEntry(c, c', (p, t)); }
  }

  lemma RedoneNone(c: Contents, registry: map<Pool, Registration>, poolTokens: map<Pool, seq<Token>>, scope: ParallelPools.Scope)
    ensures RedoneAll(c, c, registry, poolTokens, scope, {})
  {
  }

  lemma RedoneMore(before: Contents, now: Contents, after: Contents, registry: map<Pool, Registration>, poolTokens: map<Pool, seq<Token>>, scope: ParallelPools.Scope, done: set<Pool>, pool: Pool, needed: set<Token>)
    requires RedoneAll(before, now, registry, poolTokens, scope, done) && pool !in done && Redone(now, after, registry, pool, needed)
    requires forall t :: t in needed <==> ParallelPools.Tracked(poolTokens, scope, pool, t)
    ensures RedoneAll(before, after, registry, poolTokens, scope, done + {pool})
  {
  }

  // ---- a whole registry ----

  /** A fresh index holds exactly the balances asked for, none of them known yet. */
  ghost predicate BuiltFrom(c: Contents, registry: map<Pool, Registration>, poolTokens: map<Pool, seq<Token>>, scope: ParallelPools.Scope, done: set<Pool>) {
    forall k: (Pool, Token) :: Find(c, k) == BuiltEntry(registry, poolTokens, scope, done, k)
  }

  ghost function BuiltEntry(registry: map<Pool, Registration>, poolTokens: map<Pool, seq<Token>>, scope: ParallelPools.Scope, done: set<Pool>, k: (Pool, Token)): Option<Tracked> {
    if k.0 in done && Asked(registry, poolTokens, scope, k) && !TooFew(registry[k.0]) then Some(Tracked.Tracked(SourceFor(registry[k.0], k.1), Unknown)) else None
  }

  method FromRegistry(registry: map<Pool, Registration>, g: AmmGraph, scope: ParallelPools.Scope) returns (index: PoolLiquidityIndex)
    requires g.Valid()
    ensures fresh(index) && index.Valid() && BuiltFrom(index.Contents(), registry, g.poolTokens, scope, registry.Keys)
    ensures AllKeptWhere(map[], index.Contents(), registry, registry.Keys)
    ensures CountsBuilt(index.poolTokenCounts, registry, g.poolTokens, scope, registry.Keys)
  {
    hide AllKeptWhere, CountsBuilt, TokenCount, PoolLiquidityIndex.Valid, PoolLiquidityIndex.Contents, AmmGraph.Valid, BuiltFrom, ParallelPools.Tracked, DesiredTokens, TooFew, Pushed, Wanted;
    var tracked := TrackedByPool(g, scope);
    index := new PoolLiquidityIndex();
    BuiltNone(registry, g.poolTokens, scope);
    NoCountsBuilt(registry, g.poolTokens, scope);
    var todo := registry.Keys;
    assert registry.Keys - todo == {};
    while todo != {}
      invariant todo <= registry.Keys && index.Valid() && fresh(index)
      invariant BuiltFrom(index.Contents(), registry, g.poolTokens, scope, registry.Keys - todo)
      invariant CountsBuilt(index.poolTokenCounts, registry, g.poolTokens, scope, registry.Keys - todo)
      decreases |todo|
    {
      var pool :| pool in todo;
      var needed := if pool in tracked then tracked[pool] else {};
      ghost var now := index.Contents();
      NotBuiltYet(now, registry, g.poolTokens, scope, registry.Keys - todo, pool);
      CountsBuiltMore(index.poolTokenCounts, registry, g.poolTokens, scope, registry.Keys - todo, pool, needed);
      ghost var tokens := IndexPool(index, registry, pool, needed);
      BuiltMore(now, index.Contents(), registry, g.poolTokens, scope, registry.Keys - todo, pool, needed, tokens);
      assert registry.Keys - (todo - {pool}) == (registry.Keys - todo) + {pool};
      todo := todo - {pool};
    }
    assert registry.Keys - {} == registry.Keys;
    BuiltKeptWhere(index.Contents(), registry, g.poolTokens, scope);
  }

  /** One turn of the build: the needed tokens of a pool with at least two. */
  method IndexPool(index: PoolLiquidityIndex, registry: map<Pool, Registration>, pool: Pool, needed: set<Token>) returns (tokens: seq<Token>)
    requires index.Valid() && pool in registry && forall t :: (pool, t) !in index.Contents()
    modifies index
    ensures index.Valid() && tokens == (if TooFew(registry[pool]) then [] else DesiredTokens(registry[pool], needed))
    ensures Pushed(old(index.Contents()), index.Contents(), registry, pool, tokens, map[])
    ensures index.poolTokenCounts == Counted(old(index.poolTokenCounts), registry[pool], pool, needed)
  {
    hide PoolLiquidityIndex.Valid, PoolLiquidityIndex.Contents, DesiredTokens;
    tokens := [];
    if !TooFew(registry[pool]) {
      tokens := DesiredTokens(registry[pool], needed);
      if needed != {} && RegisteredTokens(registry[pool].metadata).Some? {
        index.poolTokenCounts := index.poolTokenCounts[pool := |Normalize(RegisteredTokens(registry[pool].metadata).value)|];
      }
    }
    SortedDistinct(tokens);
    PushDesired(index, registry, pool, tokens, map[]);
  }

  /** The token counts after one pool of a build. */
  function Counted(counts: map<Pool, nat>, r: Registration, pool: Pool, needed: set<Token>): map<Pool, nat> {
    if needed != {} && TokenCount(r) >= 2 then counts[pool := TokenCount(r)] else counts
  }

  ghost predicate TracksAny(poolTokens: map<Pool, seq<Token>>, scope: ParallelPools.Scope, p: Pool) {
    exists t :: ParallelPools.Tracked(poolTokens, scope, p, t)
  }

  /** A build counts exactly the pools of two tokens and more of which something is tracked. */
  ghost predicate CountsBuilt(counts: map<Pool, nat>, registry: map<Pool, Registration>, poolTokens: map<Pool, seq<Token>>, scope: ParallelPools.Scope, done: set<Pool>) {
    forall p :: Find(counts, p) ==
      if p in done && p in registry && TokenCount(registry[p]) >= 2 && TracksAny(poolTokens, scope, p) then Some(TokenCount(registry[p])) else None
  }

  lemma NoCountsBuilt(registry: map<Pool, Registration>, poolTokens: map<Pool, seq<Token>>, scope: ParallelPools.Scope)
    ensures CountsBuilt(map[], registry, poolTokens, scope, {})
  {
  }

  lemma CountsBuiltMore(counts: map<Pool, nat>, registry: map<Pool, Registration>, poolTokens: map<Pool, seq<Token>>, scope: ParallelPools.Scope, done: set<Pool>, pool: Pool, needed: set<Token>)
    requires CountsBuilt(counts, registry, poolTokens, scope, done) && pool in registry && pool !in done
    requires forall t :: t in needed <==> ParallelPools.Tracked(poolTokens, scope, pool, t)
    ensures CountsBuilt(Counted(counts, registry[pool], pool, needed), registry, poolTokens, scope, done + {pool})
  {
    hide ParallelPools.Tracked, TokenCount;
    assert TracksAny(poolTokens, scope, pool) <==> needed != {} by {
      if t :| ParallelPools.Tracked(poolTokens, scope, pool, t) { assert t in needed; }
    }
  }

  predicate TooFew(r: Registration) {
    RegisteredTokens(r.metadata).Some? && |Normalize(RegisteredTokens(r.metadata).value)| < 2
  }

  /** `tracked_tokens_by_pool`: both scopes, by scanning the directed edges. */
  method TrackedByPool(g: AmmGraph, scope: ParallelPools.Scope) returns (tracked: map<Pool, set<Token>>)
    requires g.Valid()
    ensures forall p, t :: (p in tracked && t in tracked[p]) <==> ParallelPools.Tracked(g.poolTokens, scope, p, t)
  {
    hide AmmGraph.Valid;
    if scope.ParallelEdgeOutputs? {
      tracked := ParallelPools.ParallelOutputTokens(g);
    } else {
      tracked := ParallelPools.AllEdgeTokens(g);
    }
  }

  lemma BuiltNone(registry: map<Pool, Registration>, poolTokens: map<Pool, seq<Token>>, scope: ParallelPools.Scope)
    ensures BuiltFrom(map[], registry, poolTokens, scope, {})
  {
  }

  lemma NotBuiltYet(c: Contents, registry: map<Pool, Registration>, poolTokens: map<Pool, seq<Token>>, scope: ParallelPools.Scope, done: set<Pool>, pool: Pool)
    requires BuiltFrom(c, registry, poolTokens, scope, done) && pool !in done
    ensures forall t :: (pool, t) !in c
  {
    forall t ensures (pool, t) !in c { assert Find(c, (pool, t)) == None; }
  }

  lemma BuiltMore(now: Contents, after: Contents, registry: map<Pool, Registration>, poolTokens: map<Pool, seq<Token>>, scope: ParallelPools.Scope, done: set<Pool>, pool: Pool, needed: set<Token>, tokens: seq<Token>)
    requires BuiltFrom(now, registry, poolTokens, scope, done) && pool !in done && pool in registry
    requires Pushed(now, after, registry, pool, tokens, map[])
    requires tokens == (if TooFew(registry[pool]) then [] else DesiredTokens(registry[pool], needed))
    requires forall t :: t in needed <==> ParallelPools.Tracked(poolTokens, scope, pool, t)
    ensures BuiltFrom(after, registry, poolTokens, scope, done + {pool})
  {
  }

  /** A Fresh balance survives a reconcile only under the same key with the same source. */
  lemma FreshSurvives(before: Contents, after: Contents, registry: map<Pool, Registration>, poolTokens: map<Pool, seq<Token>>, scope: ParallelPools.Scope, pools: set<Pool>, k: (Pool, Token))
    requires RedoneAll(before, after, registry, poolTokens, scope, pools) && k in after && after[k].balance.Fresh?
    ensures k in before && before[k] == after[k]
  {
  }
}
