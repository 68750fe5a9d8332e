/** The graph, the indexed pools and the tracked balances, kept in step with a stream of commits by
    touching only what each commit changed. */
module LiveGraph {
  import opened Routing
  import opened PoolTokens
  import opened TokenGraph
  import opened AmmGraphs
  import ParallelPools
  import opened Liquidity
  import Reconcile

  /** What a state snapshot knows about a logical pool; registration or revision may be missing. */
  datatype Record = Record(instance: nat, registration: Option<Registration>, revision: Option<nat>)

  datatype Snapshot = Snapshot(runtime: nat, version: nat, point: nat, pools: map<Pool, Record>)

  datatype Commit = Commit(snapshot: Snapshot, version: nat, point: nat, changed: set<Pool>, fullRefresh: bool)

  datatype IndexedPool = IndexedPool(instance: nat, revision: nat, tokens: seq<Token>)

  datatype LiveError =
    | RuntimeMismatch | CommitVersionMismatch | NonContiguous | StaleSnapshot
    | MissingRegistration | MissingRevision | GraphVersionExhausted

  datatype Impact = NoImpact | IdentityChanged | Localized | FullReconciliation

  datatype PoolDelta = PoolDelta(pool: Pool, before: Option<IndexedPool>, after: Option<IndexedPool>)

  datatype GraphDelta = GraphDelta(sourceVersion: nat, fromVersion: nat, toVersion: nat, impact: Impact, changes: seq<PoolDelta>)

  type Index = map<Pool, IndexedPool>

  /** `indexed_pool`: what a snapshot says should be indexed for one of its pools. */
  function IndexedFor(r: Record, includeDegraded: bool): Result<Option<IndexedPool>, LiveError> {
    if r.registration.None? then Failure(MissingRegistration)
    else match IndexedTokens(r.registration.value, includeDegraded)
      case None => Success(None)
      case Some(tokens) =>
        if r.revision.None? then Failure(MissingRevision) else Success(Some(IndexedPool(r.instance, r.revision.value, tokens)))
  }

  function TargetOf(s: Snapshot, includeDegraded: bool, p: Pool): Result<Option<IndexedPool>, LiveError> {
    if p in s.pools then IndexedFor(s.pools[p], includeDegraded) else Success(None)
  }

  /** Registrations are filed under their own key. */
  ghost predicate Keyed(s: Snapshot) {
    forall p :: p in s.pools && s.pools[p].registration.Some? ==> s.pools[p].registration.value.pool == p
  }

  function Registry(s: Snapshot): map<Pool, Registration> {
    map p | p in s.pools && s.pools[p].registration.Some? :: s.pools[p].registration.value
  }

  /** The index agrees with the snapshot, pool by pool. */
  ghost predicate IndexExact(index: Index, s: Snapshot, includeDegraded: bool) {
    forall p :: TargetOf(s, includeDegraded, p) == Success(Find(index, p))
  }

  function TokensOf(index: Index): map<Pool, seq<Token>> { map p | p in index :: index[p].tokens }

  /** The tracked balances are exactly those the pool table asks for. */
  ghost predicate KeysExact(c: Reconcile.Contents, poolTokens: map<Pool, seq<Token>>, scope: ParallelPools.Scope) {
    forall k: (Pool, Token) :: k in c <==> ParallelPools.Tracked(poolTokens, scope, k.0, k.1)
  }

  /** Same pools with the same instances and tokens: only revisions may differ. */
  ghost predicate SameTopology(a: Index, b: Index) {
    a.Keys == b.Keys && forall p :: p in a ==> a[p].instance == b[p].instance && a[p].tokens == b[p].tokens
  }

  predicate SameShape(a: Option<IndexedPool>, b: Option<IndexedPool>) {
    if a.Some? && b.Some? then a.value.instance == b.value.instance && a.value.tokens == b.value.tokens else a == b
  }

  predicate SameTokens(a: Option<IndexedPool>, b: Option<IndexedPool>) {
    if a.Some? && b.Some? then a.value.tokens == b.value.tokens else a.None? && b.None?
  }

  // ---- facts about snapshots and indexes ----

  /** What it means that the index is exact: a pool is in it exactly if the snapshot has an indexable
      registration for it, with the snapshot's instance and revision and all the tokens it names; and a pool
      that does not resolve lacks its registration, or its revision while it is indexable. */
  lemma IndexMeans(index: Index, s: Snapshot, includeDegraded: bool, p: Pool)
    ensures TargetOf(s, includeDegraded, p).Failure? <==>
              p in s.pools && (s.pools[p].registration.None? || (s.pools[p].revision.None? && IndexedTokens(s.pools[p].registration.value, includeDegraded).Some?))
    ensures TargetOf(s, includeDegraded, p).Failure? ==>
              TargetOf(s, includeDegraded, p).error == if s.pools[p].registration.None? then MissingRegistration else MissingRevision
    ensures IndexExact(index, s, includeDegraded) ==>
              && (p in index <==> p in s.pools && s.pools[p].registration.Some? && IndexedTokens(s.pools[p].registration.value, includeDegraded).Some?)
              && (p in index ==> index[p].instance == s.pools[p].instance && Some(index[p].revision) == s.pools[p].revision
                                 && forall t :: t in index[p].tokens <==> Names(s.pools[p].registration.value.metadata, t))
  {
    hide IndexedTokens, WhySkipped;
    if IndexExact(index, s, includeDegraded) { assert TargetOf(s, includeDegraded, p) == Success(Find(index, p)); }
    if p in s.pools && s.pools[p].registration.Some? { IndexedExactly(s.pools[p].registration.value, includeDegraded); }
  }

  lemma ShapesReflexive()
    ensures forall a :: SameShape(a, a)
  {
  }

  lemma TopologyAt(a: Index, b: Index)
    ensures SameTopology(a, b) <==> forall p :: SameShape(Find(a, p), Find(b, p))
  {
    if forall p :: SameShape(Find(a, p), Find(b, p)) {
      forall p ensures p in a <==> p in b { assert SameShape(Find(a, p), Find(b, p)); }
      forall p | p in a ensures a[p].instance == b[p].instance && a[p].tokens == b[p].tokens { assert SameShape(Find(a, p), Find(b, p)); }
    }
  }

  lemma TableAt(index: Index, s: Snapshot, includeDegraded: bool, p: Pool)
    requires IndexExact(index, s, includeDegraded)
    ensures Find(Table(Registry(s), includeDegraded), p) == Find(TokensOf(index), p)
  {
    assert TargetOf(s, includeDegraded, p) == Success(Find(index, p));
  }

  /** Building the graph from the registry gives the table of the index. */
  lemma TableIsIndex(index: Index, s: Snapshot, includeDegraded: bool)
    requires IndexExact(index, s, includeDegraded)
    ensures Table(Registry(s), includeDegraded) == TokensOf(index)
  {
    hide Table, TokensOf, IndexExact, Registry;
    var a, b := Table(Registry(s), includeDegraded), TokensOf(index);
    forall p ensures (p in a <==> p in b) && (p in a ==> a[p] == b[p]) {
      TableAt(index, s, includeDegraded, p);
    }
  }

  lemma TopologyKeepsTokens(a: Index, b: Index)
    requires SameTopology(a, b)
    ensures TokensOf(a) == TokensOf(b)
  {
    assert forall p :: p in a || p in b ==> SameShape(Find(a, p), Find(b, p));
  }

  /** What the graph tracks, the registry it was built from asks for. */
  lemma AskedIffTracked(index: Index, s: Snapshot, includeDegraded: bool, scope: ParallelPools.Scope, k: (Pool, Token))
    requires IndexExact(index, s, includeDegraded)
    ensures Reconcile.Asked(Registry(s), TokensOf(index), scope, k) <==> ParallelPools.Tracked(TokensOf(index), scope, k.0, k.1)
  {
    hide ParallelPools.HasParallel;
    if ParallelPools.Tracked(TokensOf(index), scope, k.0, k.1) {
      assert TargetOf(s, includeDegraded, k.0) == Success(Find(index, k.0));
    }
  }

  /** Reconciling the changed pools and their neighbours before and after makes all keys right. */
  lemma AffectedSuffice(before: Reconcile.Contents, after: Reconcile.Contents, prior: Index, updated: Index, s: Snapshot, includeDegraded: bool,
                        scope: ParallelPools.Scope, changed: set<Pool>, affected: set<Pool>)
    requires KeysExact(before, TokensOf(prior), scope) && IndexExact(updated, s, includeDegraded)
    requires forall p :: p !in changed ==> Find(prior, p) == Find(updated, p)
    requires changed <= affected
    requires scope.ParallelEdgeOutputs? ==>
               forall q, p :: q in changed && p !in affected ==> !Beside(TokensOf(prior), TokensOf(updated), q, p)
    requires Reconcile.RedoneAll(before, after, Registry(s), TokensOf(updated), scope, affected)
    ensures KeysExact(after, TokensOf(updated), scope)
  {
    hide ParallelPools.Tracked, ParallelPools.Parallel, Reconcile.Asked, IndexExact;
    forall k: (Pool, Token) ensures k in after <==> ParallelPools.Tracked(TokensOf(updated), scope, k.0, k.1) {
      assert if k.0 in affected then Reconcile.AskedEntryOk(before, after, Registry(s), TokensOf(updated), scope, k) else Reconcile.SameEntry(before, after, k);
      if k.0 in affected {
        AskedIffTracked(updated, s, includeDegraded, scope, k);
      } else {
        SameOutside(prior, updated, changed);
        ParallelPools.UnaffectedTrackTheSame(TokensOf(prior), TokensOf(updated), scope, changed, k.0, k.1);
      }
    }
  }

  lemma SameOutside(a: Index, b: Index, changed: set<Pool>)
    requires forall p :: p !in changed ==> Find(a, p) == Find(b, p)
    ensures forall q :: q !in changed ==> (q in TokensOf(a) <==> q in TokensOf(b)) && (q in TokensOf(a) ==> TokensOf(a)[q] == TokensOf(b)[q])
  {
  }

  // ---- where balances are kept ----

  /** Every tracked balance is kept where the snapshot's registration says. */
  ghost predicate SourcesMatch(c: Reconcile.Contents, s: Snapshot) {
    forall k :: k in c ==> k.0 in Registry(s) && Reconcile.SamePlace(c[k].source, Reconcile.SourceFor(Registry(s)[k.0], k.1))
  }

  ghost predicate KeptAlike(prior: Snapshot, s: Snapshot, k: (Pool, Token)) {
    && k.0 in Registry(prior) && k.0 in Registry(s)
    && Reconcile.SourceFor(Registry(prior)[k.0], k.1) == Reconcile.SourceFor(Registry(s)[k.0], k.1)
  }

  /** The pools whose balances a step redoes: those whose index entry changed and, where only parallel
      pools count, their neighbours before and after. A step that is not a full refresh redoes none
      when no instance and no token list changed. */
  ghost predicate Redo(was: Index, now: Index, scope: ParallelPools.Scope, full: bool, p: Pool) {
    (full || !SameTopology(was, now)) && Affected(was, now, scope, p)
  }

  ghost predicate Affected(was: Index, now: Index, scope: ParallelPools.Scope, p: Pool) {
    || Find(was, p) != Find(now, p)
    || (scope.ParallelEdgeOutputs? && exists q :: Find(was, q) != Find(now, q) && Beside(TokensOf(was), TokensOf(now), q, p))
  }

  ghost predicate Beside(before: map<Pool, seq<Token>>, after: map<Pool, seq<Token>>, q: Pool, p: Pool) {
    ParallelPools.Parallel(before, q, p) || ParallelPools.Parallel(after, q, p)
  }

  /** What a step does to the sources: if they were right, they are right afterwards exactly if the
      balances of the pools not redone are kept where they were. */
  ghost predicate SourcesStep(before: Reconcile.Contents, after: Reconcile.Contents, prior: Snapshot, s: Snapshot, was: Index, now: Index, scope: ParallelPools.Scope, full: bool) {
    SourcesMatch(before, prior) ==>
      (SourcesMatch(after, s) <==> forall k :: k in after && !Redo(was, now, scope, full, k.0) ==> KeptAlike(prior, s, k))
  }

  /** A registered source names a place; a tracked one can be in only one of them. */
  lemma OnePlace(source: Source, a: Registration, b: Registration, t: Token)
    requires Reconcile.SamePlace(source, Reconcile.SourceFor(a, t))
    ensures Reconcile.SamePlace(source, Reconcile.SourceFor(b, t)) <==> Reconcile.SourceFor(a, t) == Reconcile.SourceFor(b, t)
  {
  }

  lemma SourcesAfter(before: Reconcile.Contents, after: Reconcile.Contents, prior: Snapshot, s: Snapshot, was: Index, now: Index,
                     includeDegraded: bool, scope: ParallelPools.Scope, redone: set<Pool>, full: bool)
    requires Reconcile.RedoneAll(before, after, Registry(s), TokensOf(now), scope, redone)
    requires KeysExact(after, TokensOf(now), scope) && IndexExact(now, s, includeDegraded)
    requires forall p :: p in redone <==> Redo(was, now, scope, full, p)
    ensures SourcesStep(before, after, prior, s, was, now, scope, full)
  {
    hide Redo, Reconcile.SamePlace, Reconcile.SourceFor, Reconcile.Asked, Registry, IndexExact, KeysExact, SameShape, ParallelPools.Tracked;
    forall k | k in after && SourcesMatch(before, prior)
      ensures k.0 in Registry(s) && (Reconcile.SamePlace(after[k].source, Reconcile.SourceFor(Registry(s)[k.0], k.1)) <==> k.0 in redone || KeptAlike(prior, s, k))
    {
      TrackedIsRegistered(after, now, s, includeDegraded, scope, k);
      assert if k.0 in redone then Reconcile.AskedEntryOk(before, after, Registry(s), TokensOf(now), scope, k) else Reconcile.SameEntry(before, after, k);
      if k.0 in redone {
        RefreshedInPlace(Find(before, k), Reconcile.SourceFor(Registry(s)[k.0], k.1));
      } else {
        OnePlace(after[k].source, Registry(prior)[k.0], Registry(s)[k.0], k.1);
      }
    }
  }

  lemma RefreshedInPlace(previous: Option<Tracked>, desired: Source)
    ensures Reconcile.SamePlace(Reconcile.Refreshed(previous, desired).source, desired)
  {
  }

  lemma TrackedIsRegistered(c: Reconcile.Contents, index: Index, s: Snapshot, includeDegraded: bool, scope: ParallelPools.Scope, k: (Pool, Token))
    requires KeysExact(c, TokensOf(index), scope) && IndexExact(index, s, includeDegraded) && k in c
    ensures k.0 in Registry(s) && k.0 in index
  {
    assert ParallelPools.Tracked(TokensOf(index), scope, k.0, k.1);
    assert TargetOf(s, includeDegraded, k.0) == Success(Find(index, k.0));
  }

  /** A source up to its discovered slot. */
  function Place(source: Source): Source { if source.Erc20? then Erc20(source.holder, None) else source }

  /** Nothing is redone, nothing moves. */
  lemma SourcesUntouched(c: Reconcile.Contents, prior: Snapshot, s: Snapshot, was: Index, now: Index, includeDegraded: bool, scope: ParallelPools.Scope)
    requires KeysExact(c, TokensOf(now), scope) && IndexExact(now, s, includeDegraded) && SameTopology(was, now)
    ensures SourcesStep(c, c, prior, s, was, now, scope, false)
  {
    hide Reconcile.SamePlace, Reconcile.SourceFor, Registry, IndexExact, KeysExact, SameShape;
    forall k | k in c && SourcesMatch(c, prior)
      ensures k.0 in Registry(s) && (Reconcile.SamePlace(c[k].source, Reconcile.SourceFor(Registry(s)[k.0], k.1)) <==> KeptAlike(prior, s, k))
    {
      TrackedIsRegistered(c, now, s, includeDegraded, scope, k);
      OnePlace(c[k].source, Registry(prior)[k.0], Registry(s)[k.0], k.1);
    }
  }

  /** A pool's balances move only together with its instance or its tokens. */
  ghost predicate HoldingsStable(prior: Snapshot, s: Snapshot, includeDegraded: bool) {
    forall p :: p in Registry(prior) && p in Registry(s) && SameIndexed(prior, s, includeDegraded, p) ==>
      Registry(prior)[p].holding == Registry(s)[p].holding && Registry(prior)[p].pool == Registry(s)[p].pool
  }

  ghost predicate SameIndexed(prior: Snapshot, s: Snapshot, includeDegraded: bool, p: Pool) {
    var a, b := TargetOf(prior, includeDegraded, p), TargetOf(s, includeDegraded, p);
    a.Success? && b.Success? && SameShape(a.value, b.value)
  }

  /** Then the sources stay right. */
  lemma StableHoldingsKeepSources(before: Reconcile.Contents, after: Reconcile.Contents, prior: Snapshot, s: Snapshot, was: Index, now: Index,
                                  includeDegraded: bool, scope: ParallelPools.Scope, full: bool)
    requires SourcesStep(before, after, prior, s, was, now, scope, full) && SourcesMatch(before, prior) && HoldingsStable(prior, s, includeDegraded)
    requires KeysExact(after, TokensOf(now), scope) && IndexExact(now, s, includeDegraded) && IndexExact(was, prior, includeDegraded)
    ensures SourcesMatch(after, s)
  {
    hide SourcesMatch, KeysExact, Registry, TokensOf, IndexedFor, Redo;
    forall k | k in after && !Redo(was, now, scope, full, k.0) ensures KeptAlike(prior, s, k) {
      NotRedone(was, now, scope, full, k.0);
      TrackedIsRegistered(after, now, s, includeDegraded, scope, k);
      assert TargetOf(s, includeDegraded, k.0) == Success(Find(now, k.0));
      assert TargetOf(prior, includeDegraded, k.0) == Success(Find(was, k.0));
      assert SameShape(Find(was, k.0), Find(now, k.0));
      IndexedIsRegistered(prior, includeDegraded, k.0);
      assert SameIndexed(prior, s, includeDegraded, k.0);
    }
  }

  lemma NotRedone(was: Index, now: Index, scope: ParallelPools.Scope, full: bool, p: Pool)
    requires !Redo(was, now, scope, full, p)
    ensures SameShape(Find(was, p), Find(now, p))
  {
  }

  lemma IndexedIsRegistered(s: Snapshot, includeDegraded: bool, p: Pool)
    requires TargetOf(s, includeDegraded, p).Success? && TargetOf(s, includeDegraded, p).value.Some?
    ensures p in Registry(s)
  {
  }

  // ---- deltas ----

  /** Each delta tells the old and the new entry of a different pool, and they differ. */
  ghost predicate DeltasOk(deltas: seq<PoolDelta>, index: Index, s: Snapshot, includeDegraded: bool) {
    && (forall i, j :: 0 <= i < j < |deltas| ==> deltas[i].pool != deltas[j].pool)
    && (forall d :: d in deltas ==>
          && d.before == Find(index, d.pool) && TargetOf(s, includeDegraded, d.pool) == Success(d.after) && d.before != d.after)
  }

  ghost predicate Covered(deltas: seq<PoolDelta>, index: Index, s: Snapshot, includeDegraded: bool, pools: set<Pool>) {
    forall p :: p in pools ==> TargetOf(s, includeDegraded, p).Success? && (TargetOf(s, includeDegraded, p).value == Find(index, p) || p in PoolsIn(deltas))
  }

  function PoolsIn(deltas: seq<PoolDelta>): set<Pool> { set d | d in deltas :: d.pool }

  /** `apply_index_deltas`. */
  function ApplyDeltas(index: Index, deltas: seq<PoolDelta>): Index {
    if deltas == [] then index
    else
      var d := deltas[|deltas| - 1];
      var rest := ApplyDeltas(index, deltas[..|deltas| - 1]);
      if d.after.Some? then rest[d.pool := d.after.value] else rest - {d.pool}
  }

  lemma {:induction false} ApplyDeltasExact(index: Index, deltas: seq<PoolDelta>, s: Snapshot, includeDegraded: bool)
    requires DeltasOk(deltas, index, s, includeDegraded)
    ensures forall p :: if p in PoolsIn(deltas) then TargetOf(s, includeDegraded, p) == Success(Find(ApplyDeltas(index, deltas), p)) else Find(ApplyDeltas(index, deltas), p) == Find(index, p)
  {
    hide TargetOf;
    if deltas != [] {
      var d := deltas[|deltas| - 1];
      var init := deltas[..|deltas| - 1];
      assert deltas == init + [d] && d in deltas;
      assert DeltasOk(init, index, s, includeDegraded) by { assert forall x :: x in init ==> x in deltas; }
      ApplyDeltasExact(index, init, s, includeDegraded);
      forall p ensures if p in PoolsIn(deltas) then TargetOf(s, includeDegraded, p) == Success(Find(ApplyDeltas(index, deltas), p)) else Find(ApplyDeltas(index, deltas), p) == Find(index, p) {
        assert p in PoolsIn(deltas) <==> p in PoolsIn(init) || p == d.pool;
      }
    }
  }

  /** With every changed pool covered, applying the deltas makes the index exact again. */
  lemma DeltasReachSnapshot(index: Index, deltas: seq<PoolDelta>, prior: Snapshot, s: Snapshot, includeDegraded: bool, changed: set<Pool>)
    requires IndexExact(index, prior, includeDegraded)
    requires DeltasOk(deltas, index, s, includeDegraded) && Covered(deltas, index, s, includeDegraded, changed)
    requires forall p :: p !in changed ==> Find(prior.pools, p) == Find(s.pools, p)
    ensures IndexExact(ApplyDeltas(index, deltas), s, includeDegraded)
    ensures forall p :: p !in PoolsIn(deltas) ==> Find(index, p) == Find(ApplyDeltas(index, deltas), p)
  {
    hide IndexedFor, DeltasOk;
    ApplyDeltasExact(index, deltas, s, includeDegraded);
    forall p ensures TargetOf(s, includeDegraded, p) == Success(Find(ApplyDeltas(index, deltas), p)) {
      assert TargetOf(prior, includeDegraded, p) == Success(Find(index, p));
      if p !in changed { assert Find(prior.pools, p) == Find(s.pools, p); }
    }
  }

  /** The deltas name exactly the pools whose entries change. */
  lemma ChangedInDeltas(index: Index, deltas: seq<PoolDelta>, s: Snapshot, includeDegraded: bool)
    requires DeltasOk(deltas, index, s, includeDegraded)
    ensures forall p :: p in PoolsIn(deltas) <==> Find(index, p) != Find(ApplyDeltas(index, deltas), p)
  {
    hide ApplyDeltas, TargetOf;
    ApplyDeltasExact(index, deltas, s, includeDegraded);
    forall p | p in PoolsIn(deltas) ensures Find(index, p) != Find(ApplyDeltas(index, deltas), p) {
      var d :| d in deltas && d.pool == p;
    }
  }

  lemma ChangedInDiff(before: Index, after: Index, changes: seq<PoolDelta>, s: Snapshot, includeDegraded: bool)
    requires DeltasOk(changes, before, s, includeDegraded) && IndexExact(after, s, includeDegraded)
    requires forall p :: p !in PoolsIn(changes) ==> Find(before, p) == Find(after, p)
    ensures forall p :: p in PoolsIn(changes) <==> Find(before, p) != Find(after, p)
  {
    hide TargetOf;
    forall p | p in PoolsIn(changes) ensures Find(before, p) != Find(after, p) {
      var d :| d in changes && d.pool == p;
      assert TargetOf(s, includeDegraded, p) == Success(Find(after, p));
    }
  }

  /** The topology is unchanged exactly when no delta changes an instance or a token list. */
  lemma ImpactExact(index: Index, deltas: seq<PoolDelta>, s: Snapshot, includeDegraded: bool)
    requires DeltasOk(deltas, index, s, includeDegraded)
    ensures (forall d :: d in deltas ==> SameShape(d.before, d.after)) <==> SameTopology(index, ApplyDeltas(index, deltas))
  {
    hide SameTopology, SameShape, ApplyDeltas, TargetOf;
    TopologyAt(index, ApplyDeltas(index, deltas));
    ShapesReflexive();
    ApplyDeltasExact(index, deltas, s, includeDegraded);
    var next := ApplyDeltas(index, deltas);
    forall d | d in deltas ensures d.before == Find(index, d.pool) && d.after == Find(next, d.pool) {
      assert d.pool in PoolsIn(deltas);
    }
    if forall d :: d in deltas ==> SameShape(d.before, d.after) {
      forall p ensures SameShape(Find(index, p), Find(next, p)) {
        if p in PoolsIn(deltas) {
          var d :| d in deltas && d.pool == p;
        }
      }
    }
  }

  /** The pool table changes exactly when some delta changes, adds or removes a token list. */
  lemma LocalizedExact(index: Index, deltas: seq<PoolDelta>, s: Snapshot, includeDegraded: bool)
    requires DeltasOk(deltas, index, s, includeDegraded)
    ensures (exists d :: d in deltas && !SameTokens(d.before, d.after)) <==> TokensOf(ApplyDeltas(index, deltas)) != TokensOf(index)
  {
    hide ApplyDeltas;
    ApplyDeltasExact(index, deltas, s, includeDegraded);
    var next := ApplyDeltas(index, deltas);
    if d :| d in deltas && !SameTokens(d.before, d.after) {
      assert d.pool in PoolsIn(deltas) && Find(index, d.pool) == d.before && Find(next, d.pool) == d.after;
      assert Find(TokensOf(index), d.pool) != Find(TokensOf(next), d.pool);
    } else {
      forall p ensures (p in TokensOf(next) <==> p in TokensOf(index)) && (p in TokensOf(next) ==> TokensOf(next)[p] == TokensOf(index)[p]) {
        if p in PoolsIn(deltas) {
          var d :| d in deltas && d.pool == p;
          assert SameTokens(d.before, d.after) && Find(index, p) == d.before && Find(next, p) == d.after;
        } else {
          assert Find(next, p) == Find(index, p);
        }
      }
    }
  }

  ghost predicate BesideAny(before: map<Pool, seq<Token>>, after: map<Pool, seq<Token>>, changed: set<Pool>, p: Pool) {
    exists q :: q in changed && Beside(before, after, q, p)
  }

  lemma BesideMore(before: map<Pool, seq<Token>>, after: map<Pool, seq<Token>>, done: set<Pool>, key: Pool)
    ensures forall p :: BesideAny(before, after, done + {key}, p) <==> BesideAny(before, after, done, p) || Beside(before, after, key, p)
  {
    hide Beside;
    forall p ensures BesideAny(before, after, done + {key}, p) <==> BesideAny(before, after, done, p) || Beside(before, after, key, p) {
      if q :| q in done && Beside(before, after, q, p) { assert q in done + {key}; }
      if Beside(before, after, key, p) { assert key in done + {key}; }
    }
  }

  /** The affected pools of the changed entries are exactly those a step has to redo. */
  lemma AffectedIsRedo(was: Index, now: Index, scope: ParallelPools.Scope, full: bool, changed: set<Pool>, affected: set<Pool>)
    requires forall p :: p in changed <==> Find(was, p) != Find(now, p)
    requires forall p :: p in affected <==> p in changed || (scope.ParallelEdgeOutputs? && BesideAny(TokensOf(was), TokensOf(now), changed, p))
    requires full || !SameTopology(was, now)
    ensures forall p :: p in affected <==> Redo(was, now, scope, full, p)
    ensures changed <= affected
    ensures scope.ParallelEdgeOutputs? ==> forall q, p :: q in changed && p !in affected ==> !Beside(TokensOf(was), TokensOf(now), q, p)
  {
    hide Beside, TokensOf;
  }

  // ---- the live graph ----

  class LiveAmmGraph {
    var graph: AmmGraph
    var liquidity: PoolLiquidityIndex
    var indexed: Index
    var runtime: nat
    var stateVersion: nat
    var point: nat
    const includeDegraded: bool
    const scope: ParallelPools.Scope

    /** Index, graph and tracked balances are those of the snapshot. */
    ghost predicate Represents(s: Snapshot)
      reads this, graph, liquidity
    {
      && runtime == s.runtime && stateVersion == s.version && point == s.point
      && IndexExact(indexed, s, includeDegraded)
      && graph.Valid() && graph.Compact() && graph.poolTokens == TokensOf(indexed)
      && liquidity.Valid() && KeysExact(liquidity.Contents(), TokensOf(indexed), scope)
    }

    constructor (graph: AmmGraph, liquidity: PoolLiquidityIndex, indexed: Index, s: Snapshot, includeDegraded: bool, scope: ParallelPools.Scope)
      ensures this.graph == graph && this.liquidity == liquidity && this.indexed == indexed
      ensures runtime == s.runtime && stateVersion == s.version && point == s.point
      ensures this.includeDegraded == includeDegraded && this.scope == scope
    {
      this.graph, this.liquidity, this.indexed := graph, liquidity, indexed;
      runtime, stateVersion, point := s.runtime, s.version, s.point;
      this.includeDegraded, this.scope := includeDegraded, scope;
    }

    /** Build everything from one snapshot. */
    static method FromSnapshot(s: Snapshot, includeDegraded: bool, scope: ParallelPools.Scope) returns (r: Result<LiveAmmGraph, LiveError>)
      requires Keyed(s)
      ensures r.Success? ==> fresh(r.value) && r.value.Represents(s) && r.value.includeDegraded == includeDegraded && r.value.scope == scope
      ensures r.Success? ==> SourcesMatch(r.value.liquidity.Contents(), s) && r.value.graph.version == 0
      ensures r.Failure? <==> exists p :: p in s.pools && IndexedFor(s.pools[p], includeDegraded).Failure?
    {
      hide AmmGraph.Valid, AmmGraph.Compact, PoolLiquidityIndex.Valid, PoolLiquidityIndex.Contents, IndexExact, KeysExact, SourcesMatch, Table, IndexedFor;
      var g, _, _ := AmmGraph.FromRegistry(Registry(s), includeDegraded);
      var liquidity := Reconcile.FromRegistry(Registry(s), g, scope);
      var indexed := IndexedFromSnapshot(s, includeDegraded);
      if indexed.Failure? { return Failure(indexed.error); }
      TableIsIndex(indexed.value, s, includeDegraded);
      BuiltKeysExact(liquidity.Contents(), indexed.value, s, includeDegraded, scope);
      var live := new LiveAmmGraph(g, liquidity, indexed.value, s, includeDegraded, scope);
      r := Success(live);
    }

    /** The old and new entries of the listed pools, and how much they matter. */
    method ComputeDeltas(s: Snapshot, changed: set<Pool>) returns (r: Result<(seq<PoolDelta>, Impact), LiveError>)
      ensures r.Success? ==> DeltasOk(r.value.0, indexed, s, includeDegraded) && Covered(r.value.0, indexed, s, includeDegraded, changed)
      ensures r.Success? ==> (r.value.1 == NoImpact <==> forall d :: d in r.value.0 ==> SameShape(d.before, d.after))
      ensures r.Success? ==> (r.value.1 == Localized <==> exists d :: d in r.value.0 && !SameTokens(d.before, d.after))
      ensures r.Success? ==> r.value.1 != FullReconciliation && PoolsIn(r.value.0) <= changed
      ensures r.Failure? <==> exists p :: p in changed && TargetOf(s, includeDegraded, p).Failure?
      ensures r.Failure? ==> (r.error == MissingRegistration || r.error == MissingRevision) && Blames(s, includeDegraded, r.error)
    {
      hide Gathered, TargetOf, ImpactOf, MaxImpact;
      var deltas: seq<PoolDelta>, impact := [], NoImpact;
      var todo := changed;
      assert changed - todo == {};
      NothingGathered(indexed, s, includeDegraded);
      while todo != {}
        invariant todo <= changed && Gathered(deltas, impact, indexed, s, includeDegraded, changed - todo)
        decreases |todo|
      {
        var key :| key in todo;
        var before := Find(indexed, key);
        var target := TargetOf(s, includeDegraded, key);
        if target.Failure? {
          TargetErrors(s, includeDegraded, key);
          return Failure(target.error);
        }
        var after := target.value;
        GatheredMore(deltas, impact, indexed, s, includeDegraded, changed - todo, key);
        impact := MaxImpact(impact, ImpactOf(before, after));
        if before != after { deltas := deltas + [PoolDelta(key, before, after)]; }
        assert changed - (todo - {key}) == (changed - todo) + {key};
        todo := todo - {key};
      }
      assert changed - {} == changed;
      GatheredAll(deltas, impact, indexed, s, includeDegraded, changed);
      r := Success((deltas, impact));
    }

    /** Replay the deltas on a graph that still shows the old index. */
    method ReplayDeltas(next: AmmGraph, s: Snapshot, deltas: seq<PoolDelta>)
      requires next.Valid() && next.Compact() && next.poolTokens == TokensOf(indexed)
      requires DeltasOk(deltas, indexed, s, includeDegraded) && Keyed(s)
      modifies next
      ensures next.Valid() && next.Compact() && next.poolTokens == TokensOf(ApplyDeltas(indexed, deltas))
    {
      hide AmmGraph.Valid, AmmGraph.Compact, DeltasOk, TokensOf, IndexedTokens;
      assert deltas[..0] == [];
      for k := 0 to |deltas|
        invariant next.Valid() && next.Compact() && next.poolTokens == TokensOf(ApplyDeltas(indexed, deltas[..k]))
      {
        ReplayStep(indexed, deltas, k, s, includeDegraded);
        if deltas[k].after.Some? {
          var _ := next.ApplyPool(s.pools[deltas[k].pool].registration.value, includeDegraded);
        } else {
          var _ := next.RemovePoolCompacting(deltas[k].pool);
        }
      }
      assert deltas[..|deltas|] == deltas;
    }

    /** The changed pools and, where only parallel pools count, their neighbours before and after. */
    method AffectedPools(before: AmmGraph, after: AmmGraph, changed: set<Pool>) returns (affected: set<Pool>)
      requires before.Valid() && after.Valid()
      ensures forall p :: p in affected <==> p in changed || (scope.ParallelEdgeOutputs? && BesideAny(before.poolTokens, after.poolTokens, changed, p))
    {
      hide AmmGraph.Valid, ParallelPools.Parallel;
      affected := changed;
      if scope.ParallelEdgeOutputs? {
        var todo := changed;
        assert changed - todo == {};
        while todo != {}
          invariant todo <= changed
          invariant forall p :: p in affected <==> p in changed || BesideAny(before.poolTokens, after.poolTokens, changed - todo, p)
          decreases |todo|
        {
          var key :| key in todo;
          BesideMore(before.poolTokens, after.poolTokens, changed - todo, key);
          assert changed - (todo - {key}) == (changed - todo) + {key};
          todo := todo - {key};
          var a := ParallelPools.ParallelNeighbors(before, key);
          var b := ParallelPools.ParallelNeighbors(after, key);
          affected := affected + a + b;
        }
        assert changed - {} == changed;
      }
    }

    /** The delta tells the truth about the step from the old index and version to the new. */
    ghost predicate Tells(d: GraphDelta, index: Index, version: nat, s: Snapshot)
      reads this, graph
    {
      && d.sourceVersion == s.version && d.fromVersion == version && d.toVersion == graph.version
      && graph.version == (if SameTopology(index, indexed) then version else version + 1)
      && DeltasOk(d.changes, index, s, includeDegraded)
      && (d.impact.NoImpact? <==> SameTopology(index, indexed))
      && forall p :: p !in PoolsIn(d.changes) ==> Find(index, p) == Find(indexed, p)
    }

    /** Move graph, balances and index to `s` in one go; nothing shared is written. */
    method Install(s: Snapshot, next: AmmGraph, nextIndexed: Index, toVersion: nat, changed: set<Pool>, ghost full: bool, ghost prior: Snapshot)
      requires Represents(prior) && s.runtime == runtime && IndexExact(nextIndexed, s, includeDegraded) && next != graph
      requires next.Valid() && next.Compact() && next.poolTokens == TokensOf(nextIndexed)
      requires (forall p :: p in changed <==> Find(indexed, p) != Find(nextIndexed, p)) && (full || !SameTopology(indexed, nextIndexed))
      modifies this, next`version
      ensures Represents(s) && indexed == nextIndexed && graph == next && next.version == toVersion && fresh(liquidity)
      ensures SourcesStep(old(liquidity.Contents()), liquidity.Contents(), prior, s, old(indexed), indexed, scope, full)
    {
      hide AmmGraph.Valid, AmmGraph.Compact, PoolLiquidityIndex.Valid, PoolLiquidityIndex.Contents, IndexExact, KeysExact, SourcesStep, Redo, Beside, BesideAny,
        SameTopology, Reconcile.RedoneAll;
      next.version := toVersion;
      var affected := AffectedPools(graph, next, changed);
      AffectedIsRedo(indexed, nextIndexed, scope, full, changed, affected);
      var nextLiquidity := liquidity.Clone();
      ghost var before := nextLiquidity.Contents();
      Reconcile.ReconcilePools(nextLiquidity, Registry(s), next, scope, affected);
      AffectedSuffice(before, nextLiquidity.Contents(), indexed, nextIndexed, s, includeDegraded, scope, changed, affected);
      SourcesAfter(before, nextLiquidity.Contents(), prior, s, indexed, nextIndexed, includeDegraded, scope, affected, full);
      graph, liquidity, indexed, stateVersion, point := next, nextLiquidity, nextIndexed, s.version, s.point;
    }

    /** Incremental path: recompute only the listed pools. */
    method ApplySnapshotChanges(s: Snapshot, changed: set<Pool>, ghost prior: Snapshot) returns (r: Result<GraphDelta, LiveError>)
      requires Represents(prior) && s.runtime == runtime && Keyed(s)
      requires forall p :: p !in changed ==> Find(prior.pools, p) == Find(s.pools, p)
      modifies this
      ensures r.Success? ==>
                && Represents(s) && Tells(r.value, old(indexed), old(graph.version), s)
                && (graph == old(graph) || fresh(graph)) && (liquidity == old(liquidity) || fresh(liquidity))
                && SourcesStep(old(liquidity.Contents()), liquidity.Contents(), prior, s, old(indexed), indexed, scope, false)
                && (r.value.impact.Localized? <==> TokensOf(indexed) != TokensOf(old(indexed))) && !r.value.impact.FullReconciliation?
                && forall p :: p in changed ==> TargetOf(s, includeDegraded, p).Success?
      ensures r.Failure? ==>
                && unchanged(this) && (Unresolved(s, includeDegraded) || graph.version >= U64_MAX)
                && Excuses(r.error, s, runtime, stateVersion, graph.version, true, includeDegraded) && r.error != StaleSnapshot && r.error != NonContiguous
    {
      hide Excuses, Blames, AmmGraph.Valid, AmmGraph.Compact, PoolLiquidityIndex.Valid, PoolLiquidityIndex.Contents, IndexExact, KeysExact, DeltasOk, Covered, PoolsIn, SameTopology,
        TokensOf, SourcesStep, ApplyDeltas, TargetOf, SameShape, SameTokens, Find, Keyed;
      WhatExcuses(s, runtime, stateVersion, graph.version, includeDegraded);
      var computed := ComputeDeltas(s, changed);
      if computed.Failure? { return Failure(computed.error); }
      var (deltas, impact) := computed.value;
      DeltasReachSnapshot(indexed, deltas, prior, s, includeDegraded, changed);
      ImpactExact(indexed, deltas, s, includeDegraded);
      LocalizedExact(indexed, deltas, s, includeDegraded);
      var from := graph.version;
      var nextIndexed := ApplyDeltas(indexed, deltas);
      if impact == NoImpact {
        TopologyKeepsTokens(indexed, nextIndexed);
        indexed, stateVersion, point := nextIndexed, s.version, s.point;
        SourcesUntouched(liquidity.Contents(), prior, s, old(indexed), nextIndexed, includeDegraded, scope);
        return Success(GraphDelta(s.version, from, from, impact, deltas));
      }
      var next := graph.Clone();
      ReplayDeltas(next, s, deltas);
      if from >= U64_MAX { return Failure(GraphVersionExhausted); }
      ChangedInDeltas(indexed, deltas, s, includeDegraded);
      Install(s, next, nextIndexed, from + 1, PoolsIn(deltas), false, prior);
      r := Success(GraphDelta(s.version, from, from + 1, impact, deltas));
    }

    /** Recovery path: rebuild the graph, then reconcile the balances of the pools that differ. */
    method ReconcileSnapshot(s: Snapshot, ghost prior: Snapshot) returns (r: Result<GraphDelta, LiveError>)
      requires Represents(prior) && Keyed(s)
      modifies this
      ensures r.Success? ==> Represents(s) && Tells(r.value, old(indexed), old(graph.version), s) && s.version > old(stateVersion)
      ensures r.Success? ==> SourcesStep(old(liquidity.Contents()), liquidity.Contents(), prior, s, old(indexed), indexed, scope, true)
      ensures r.Success? ==> fresh(graph) && fresh(liquidity)
      ensures r.Failure? ==> unchanged(this) && (s.runtime != runtime || s.version <= stateVersion || Unresolved(s, includeDegraded) || graph.version >= U64_MAX)
      ensures r.Failure? ==> Excuses(r.error, s, runtime, stateVersion, graph.version, true, includeDegraded) && r.error != NonContiguous
      ensures r.Success? ==> r.value.impact == if SameTopology(old(indexed), indexed) then NoImpact else FullReconciliation
    {
      hide AmmGraph.Valid, AmmGraph.Compact, PoolLiquidityIndex.Valid, PoolLiquidityIndex.Contents, IndexExact, KeysExact, DeltasOk, Covered, PoolsIn, SameTopology, Table, TokensOf, SemanticChanged,
        Unresolved, SourcesStep, Excuses, Blames;
      WhatExcuses(s, runtime, stateVersion, graph.version, includeDegraded);
      if s.runtime != runtime { return Failure(RuntimeMismatch); }
      if s.version <= stateVersion { return Failure(StaleSnapshot); }
      var computed := IndexedFromSnapshot(s, includeDegraded);
      if computed.Failure? { return Failure(computed.error); }
      var nextIndexed := computed.value;
      var next, _, _ := AmmGraph.FromRegistry(Registry(s), includeDegraded);
      TableIsIndex(nextIndexed, s, includeDegraded);
      var diff := ComputeDeltas(s, indexed.Keys + nextIndexed.Keys);
      if diff.Failure? {
        SomeUnresolved(s, includeDegraded, indexed.Keys + nextIndexed.Keys);
        return Failure(diff.error);
      }
      var (changes, _) := diff.value;
      DiffCovers(indexed, nextIndexed, changes, s, includeDegraded);
      var topologyChanged := SemanticChanged(indexed, nextIndexed);
      SemanticExact(indexed, nextIndexed);
      var from := graph.version;
      if topologyChanged && from >= U64_MAX { return Failure(GraphVersionExhausted); }
      var to := if topologyChanged then from + 1 else from;
      ChangedInDiff(indexed, nextIndexed, changes, s, includeDegraded);
      Install(s, next, nextIndexed, to, PoolsIn(changes), true, prior);
      r := Success(GraphDelta(s.version, from, to, if topologyChanged then FullReconciliation else NoImpact, changes));
    }

    /** Apply one commit: everything moves to its snapshot, or nothing changes at all. */
    method ApplyCommit(c: Commit, ghost prior: Snapshot) returns (r: Result<GraphDelta, LiveError>)
      requires Represents(prior) && Keyed(c.snapshot)
      requires !c.fullRefresh ==> forall p :: p !in c.changed ==> Find(prior.pools, p) == Find(c.snapshot.pools, p)
      modifies this
      ensures r.Success? ==> Represents(c.snapshot) && c.snapshot.version == old(stateVersion) + 1 && Tells(r.value, old(indexed), old(graph.version), c.snapshot)
      ensures r.Failure? ==> unchanged(this) && Represents(prior)
      ensures r.Success? ==> SourcesStep(old(liquidity.Contents()), liquidity.Contents(), prior, c.snapshot, old(indexed), indexed, scope, c.fullRefresh)
      ensures c.snapshot.runtime != old(runtime) ==> r == Failure(RuntimeMismatch)
      ensures r.Failure? ==>
                Excuses(r.error, c.snapshot, runtime, stateVersion, graph.version, c.snapshot.version == c.version && c.snapshot.point == c.point, includeDegraded)
      ensures r.Success? && c.fullRefresh ==> r.value.impact.NoImpact? || r.value.impact.FullReconciliation?
      ensures r.Success? && !c.fullRefresh ==> !r.value.impact.FullReconciliation? && (r.value.impact.Localized? <==> TokensOf(indexed) != TokensOf(old(indexed)))
      ensures r.Success? ==> Succeeds(runtime, old(stateVersion), c) && graph.version <= old(graph.version) + 1
      ensures Succeeds(runtime, old(stateVersion), c) && !Unresolved(c.snapshot, includeDegraded) && old(graph.version) < U64_MAX ==> r.Success?
    {
      hide AmmGraph.Valid, AmmGraph.Compact, PoolLiquidityIndex.Valid, PoolLiquidityIndex.Contents, IndexExact, KeysExact, SourcesStep, Blames, TokensOf;
      var s := c.snapshot;
      if s.runtime != runtime { return Failure(RuntimeMismatch); }
      if s.version != c.version || s.point != c.point { return Failure(CommitVersionMismatch); }
      if stateVersion >= U64_MAX || s.version != stateVersion + 1 { return Failure(NonContiguous); }
      if c.fullRefresh {
        r := ReconcileSnapshot(s, prior);
      } else {
        r := ApplySnapshotChanges(s, c.changed, prior);
      }
    }
  }

  /** The commit is for this runtime, is consistent in itself and comes next. */
  predicate Succeeds(runtime: nat, version: nat, c: Commit) {
    && c.snapshot.runtime == runtime && c.snapshot.version == c.version && c.snapshot.point == c.point
    && version < U64_MAX && c.snapshot.version == version + 1
  }

  // ---- whole runs ----

  ghost function SnapshotAfter(start: Snapshot, commits: seq<Commit>, k: nat): Snapshot
    requires k <= |commits|
  {
    if k == 0 then start else commits[k - 1].snapshot
  }

  /** Each commit lists at least the pools that changed since the one before. */
  ghost predicate ListsAllChanges(start: Snapshot, commits: seq<Commit>) {
    forall k :: 0 <= k < |commits| ==>
      && Keyed(commits[k].snapshot)
      && (!commits[k].fullRefresh ==> forall p :: p !in commits[k].changed ==> Find(SnapshotAfter(start, commits, k).pools, p) == Find(commits[k].snapshot.pools, p))
  }

  ghost predicate AllStable(start: Snapshot, commits: seq<Commit>, includeDegraded: bool) {
    forall k :: 0 <= k < |commits| ==> HoldingsStable(SnapshotAfter(start, commits, k), commits[k].snapshot, includeDegraded)
  }

  /** The commits come one after the other, each complete and consistent in itself. */
  ghost predicate Contiguous(start: Snapshot, commits: seq<Commit>, includeDegraded: bool) {
    forall k :: 0 <= k < |commits| ==>
      && Succeeds(start.runtime, start.version + k, commits[k]) && !Unresolved(commits[k].snapshot, includeDegraded)
  }

  /** Following commits keeps the live graph on the last snapshot it accepted. It stops only at a commit
      that is not the next one, that has an unresolved pool, or when the graph's version is used up. */
  method FollowCommits(live: LiveAmmGraph, commits: seq<Commit>, ghost start: Snapshot) returns (applied: nat, error: Option<LiveError>)
    requires live.Represents(start) && ListsAllChanges(start, commits)
    modifies live
    ensures applied <= |commits| && (error.None? <==> applied == |commits|)
    ensures live.Represents(SnapshotAfter(start, commits, applied))
    ensures live.stateVersion == start.version + applied && live.graph.version <= old(live.graph.version) + applied
    ensures applied < |commits| ==>
              || !Succeeds(live.runtime, live.stateVersion, commits[applied])
              || Unresolved(commits[applied].snapshot, live.includeDegraded) || live.graph.version >= U64_MAX
    ensures Contiguous(start, commits, live.includeDegraded) && old(live.graph.version) + |commits| <= U64_MAX ==> applied == |commits|
    ensures old(SourcesMatch(live.liquidity.Contents(), start)) && AllStable(start, commits, live.includeDegraded) ==>
              SourcesMatch(live.liquidity.Contents(), SnapshotAfter(start, commits, applied))
  {
    hide SourcesMatch, SourcesStep, HoldingsStable, LiveAmmGraph.Tells, Succeeds, Keyed, Unresolved, IndexExact, KeysExact,
      AmmGraph.Valid, AmmGraph.Compact, PoolLiquidityIndex.Valid, PoolLiquidityIndex.Contents;
    ghost var stable := SourcesMatch(live.liquidity.Contents(), start) && AllStable(start, commits, live.includeDegraded);
    ghost var version := live.graph.version;
    applied, error := 0, None;
    while applied < |commits|
      invariant applied <= |commits| && live.Represents(SnapshotAfter(start, commits, applied))
      invariant live.stateVersion == start.version + applied && live.runtime == start.runtime && live.graph.version <= version + applied && error.None?
      invariant stable ==> SourcesMatch(live.liquidity.Contents(), SnapshotAfter(start, commits, applied))
    {
      ghost var prior, before, was := SnapshotAfter(start, commits, applied), live.liquidity.Contents(), live.indexed;
      var r := live.ApplyCommit(commits[applied], prior);
      if r.Failure? { return applied, Some(r.error); }
      if stable {
        StableHoldingsKeepSources(before, live.liquidity.Contents(), prior, commits[applied].snapshot, was, live.indexed, live.includeDegraded, live.scope,
                                  commits[applied].fullRefresh);
      }
      applied := applied + 1;
    }
  }

  // ---- a source left behind ----

  /** A vault pool whose balances are cash words of `vault`. */
  function VaultPoolAt(version: nat, vault: Address): Snapshot {
    var cash := map[Token(0) := CashWord(0, false), Token(1) := CashWord(0, true)];
    var r := Registration(InVault(0), Ready, Multi([Token(0), Token(1)]), VaultHeld(Some(vault), cash));
    Snapshot(0, version, version, map[InVault(0) := Record(0, Some(r), Some(version))])
  }

  lemma VaultPoolIndexed(version: nat, vault: Address)
    ensures var s := VaultPoolAt(version, vault);
            && Keyed(s) && !Unresolved(s, false) && Registry(s).Keys == {InVault(0)}
            && TargetOf(s, false, InVault(0)) == Success(Some(IndexedPool(0, version, Normalize([Token(0), Token(1)]))))
            && (forall p :: p != InVault(0) ==> TargetOf(s, false, p) == Success(None))
            && Reconcile.SourceFor(Registry(s)[InVault(0)], Token(0)) == VaultCash(vault, 0, false)
  {
    TwoTokens();
  }

  lemma TwoTokens()
    ensures |Normalize([Token(0), Token(1)])| >= 2 && Token(0) in Normalize([Token(0), Token(1)])
  {
    var n := Normalize([Token(0), Token(1)]);
    assert Token(0) in [Token(0), Token(1)] && Token(1) in [Token(0), Token(1)];
    assert Token(0) in n && Token(1) in n;
    if |n| < 2 { OneElement(n, Token(0), Token(1)); }
  }

  lemma OneElement(s: seq<Token>, a: Token, b: Token)
    requires |s| < 2 && a in s && b in s
    ensures a == b
  {
  }

  /** A commit that moves a pool's cash to another vault and changes neither instance nor tokens: the
      live graph accepts it and keeps tracking the words of the old vault. */
  method VaultMoveLeftBehind(version: nat, a: Address, b: Address) returns (live: LiveAmmGraph)
    requires a != b && version < U64_MAX
    ensures fresh(live) && live.Represents(VaultPoolAt(version + 1, b)) && !SourcesMatch(live.liquidity.Contents(), VaultPoolAt(version + 1, b))
  {
    hide AmmGraph.Valid, AmmGraph.Compact, PoolLiquidityIndex.Valid, PoolLiquidityIndex.Contents, VaultPoolAt, SourcesMatch, Registry, TargetOf, LiveAmmGraph.Tells,
      Unresolved, Keyed, Reconcile.SourceFor;
    var prior, s := VaultPoolAt(version, a), VaultPoolAt(version + 1, b);
    VaultPoolIndexed(version, a);
    VaultPoolIndexed(version + 1, b);
    VaultPoolNumbers(version, a);
    VaultPoolNumbers(version + 1, b);
    var built := LiveAmmGraph.FromSnapshot(prior, false, ParallelPools.AllDirectedEdges);
    if built.Failure? { assert false by { AllResolve(prior); } }
    live := built.value;
    ghost var was := live.indexed;
    var r := live.ApplyCommit(Commit(s, version + 1, version + 1, {InVault(0)}, false), prior);
    VaultMoveKeepsShape(prior, s, was, live.indexed);
    VaultTracked(live.liquidity.Contents(), live.indexed, s);
    assert !KeptAlike(prior, s, (InVault(0), Token(0)));
  }

  lemma VaultPoolNumbers(version: nat, vault: Address)
    ensures var s := VaultPoolAt(version, vault);
            s.runtime == 0 && s.version == version && s.point == version && s.pools.Keys == {InVault(0)}
  {
  }

  lemma AllResolve(s: Snapshot)
    requires !Unresolved(s, false)
    ensures forall p :: p in s.pools ==> IndexedFor(s.pools[p], false).Success?
  {
    forall p | p in s.pools ensures IndexedFor(s.pools[p], false).Success? { assert TargetOf(s, false, p).Success?; }
  }

  lemma VaultMoveKeepsShape(prior: Snapshot, s: Snapshot, was: Index, now: Index)
    requires IndexExact(was, prior, false) && IndexExact(now, s, false)
    requires forall p :: p != InVault(0) ==> TargetOf(prior, false, p) == Success(None) && TargetOf(s, false, p) == Success(None)
    requires exists a, b, tokens :: TargetOf(prior, false, InVault(0)) == Success(Some(IndexedPool(0, a, tokens))) && TargetOf(s, false, InVault(0)) == Success(Some(IndexedPool(0, b, tokens)))
    ensures SameTopology(was, now)
  {
    hide TargetOf, SameTopology;
    TopologyAt(was, now);
    forall p ensures SameShape(Find(was, p), Find(now, p)) {
      assert TargetOf(prior, false, p) == Success(Find(was, p)) && TargetOf(s, false, p) == Success(Find(now, p));
    }
  }

  lemma VaultTracked(c: Reconcile.Contents, index: Index, s: Snapshot)
    requires IndexExact(index, s, false) && KeysExact(c, TokensOf(index), ParallelPools.AllDirectedEdges)
    requires exists v :: TargetOf(s, false, InVault(0)) == Success(Some(IndexedPool(0, v, Normalize([Token(0), Token(1)]))))
    ensures (InVault(0), Token(0)) in c
  {
    hide TargetOf;
    TwoTokens();
    assert TargetOf(s, false, InVault(0)) == Success(Find(index, InVault(0)));
    assert ParallelPools.Tracked(TokensOf(index), ParallelPools.AllDirectedEdges, InVault(0), Token(0));
  }

  /** Two live graphs on the same snapshot agree, so following commits equals rebuilding at the end:
      same index, same tokens, same hops in the search's view, same tracked balances, and these kept in
      the same places when both follow the registrations. */
  lemma IncrementalEqualsRebuild(a: LiveAmmGraph, b: LiveAmmGraph, s: Snapshot)
    requires a.Represents(s) && b.Represents(s) && a.includeDegraded == b.includeDegraded && a.scope == b.scope
    ensures a.indexed == b.indexed && a.graph.poolTokens == b.graph.poolTokens
    ensures a.graph.nodeMap.Keys == b.graph.nodeMap.Keys
    ensures forall h :: HasEdge(a.graph.SearchGraph(), h) <==> HasEdge(b.graph.SearchGraph(), h)
    ensures a.liquidity.Contents().Keys == b.liquidity.Contents().Keys
    ensures SourcesMatch(a.liquidity.Contents(), s) && SourcesMatch(b.liquidity.Contents(), s) ==>
              forall k :: k in a.liquidity.Contents() ==> Place(a.liquidity.Contents()[k].source) == Place(b.liquidity.Contents()[k].source)
  {
    hide AmmGraph.Valid, AmmGraph.SearchGraph, PoolLiquidityIndex.Valid, PoolLiquidityIndex.Contents, ParallelPools.Tracked, HasEdge, AmmGraph.Compact, Joins;
    forall p ensures Find(a.indexed, p) == Find(b.indexed, p) {
      assert TargetOf(s, a.includeDegraded, p) == Success(Find(a.indexed, p));
      assert TargetOf(s, b.includeDegraded, p) == Success(Find(b.indexed, p));
    }
    SameFinds(a.indexed, b.indexed);
    a.graph.SearchGraphExact();
    b.graph.SearchGraphExact();
    SameNodes(a.graph, b.graph);
  }

  lemma SameFinds(a: Index, b: Index)
    requires forall p :: Find(a, p) == Find(b, p)
    ensures a == b
  {
    forall p ensures (p in a <==> p in b) && (p in a ==> a[p] == b[p]) { assert Find(a, p) == Find(b, p); }
  }

  /** In a compact graph the nodes are exactly the tokens of its pools. */
  lemma SameNodes(a: AmmGraph, b: AmmGraph)
    requires a.Valid() && b.Valid() && a.Compact() && b.Compact() && a.poolTokens == b.poolTokens
    ensures a.nodeMap.Keys == b.nodeMap.Keys
  {
    hide AmmGraph.Valid;
    forall t ensures t in a.nodeMap <==> t in b.nodeMap {
      if p :| p in a.poolTokens && t in a.poolTokens[p] {
        PoolTokensAreNodes(a, p, t);
        PoolTokensAreNodes(b, p, t);
      }
    }
  }

  lemma PoolTokensAreNodes(g: AmmGraph, p: Pool, t: Token)
    requires g.Valid() && p in g.poolTokens && t in g.poolTokens[p]
    ensures t in g.nodeMap
  {
    hide AdjacencyOk, CacheOk, EdgeMapOk, CountsOk, PairsOk, Sorted;
    var u := HasOther(g.poolTokens[p], t);
    assert Joins(g.poolTokens, Hop(p, t, u));
    assert IsEdge(g.graph, g.edgeOf[Hop(p, t, u)], Hop(p, t, u));
  }

  /** `indexed_from_snapshot`. */
  method IndexedFromSnapshot(s: Snapshot, includeDegraded: bool) returns (r: Result<Index, LiveError>)
    ensures r.Success? ==> IndexExact(r.value, s, includeDegraded)
    ensures r.Failure? <==> exists p :: p in s.pools && IndexedFor(s.pools[p], includeDegraded).Failure?
    ensures r.Failure? ==> Unresolved(s, includeDegraded) && (r.error == MissingRegistration || r.error == MissingRevision) && Blames(s, includeDegraded, r.error)
  {
    hide IndexedFor;
    var index: Index := map[];
    var todo := s.pools.Keys;
    while todo != {}
      invariant todo <= s.pools.Keys
      invariant forall p :: p in s.pools && p !in todo ==> IndexedFor(s.pools[p], includeDegraded) == Success(Find(index, p))
      invariant forall p :: p in index ==> p in s.pools && p !in todo
      decreases |todo|
    {
      var p :| p in todo;
      todo := todo - {p};
      var entry := IndexedFor(s.pools[p], includeDegraded);
      if entry.Failure? {
        TargetErrors(s, includeDegraded, p);
        assert TargetOf(s, includeDegraded, p) == Failure(entry.error);
        return Failure(entry.error);
      }
      if entry.value.Some? { index := index[p := entry.value.value]; }
    }
    r := Success(index);
  }

  /** `semantic_index_changed`. */
  predicate SemanticChanged(before: Index, after: Index) {
    || (exists p :: p in before && (p !in after || before[p].instance != after[p].instance || before[p].tokens != after[p].tokens))
    || (exists p :: p in after && p !in before)
  }

  lemma SemanticExact(before: Index, after: Index)
    ensures SemanticChanged(before, after) <==> !SameTopology(before, after)
  {
    if SemanticChanged(before, after) {
      if p :| p in before && (p !in after || before[p].instance != after[p].instance || before[p].tokens != after[p].tokens) {
        assert !SameShape(Find(before, p), Find(after, p));
      } else {
        var p :| p in after && p !in before;
        assert !SameShape(Find(before, p), Find(after, p));
      }
    }
  }

  lemma DiffCovers(before: Index, after: Index, changes: seq<PoolDelta>, s: Snapshot, includeDegraded: bool)
    requires IndexExact(after, s, includeDegraded) && Covered(changes, before, s, includeDegraded, before.Keys + after.Keys)
    ensures forall p :: p !in PoolsIn(changes) ==> Find(before, p) == Find(after, p)
  {
  }

  lemma BuiltSources(c: Reconcile.Contents, index: Index, s: Snapshot, scope: ParallelPools.Scope)
    requires Reconcile.BuiltFrom(c, Registry(s), TokensOf(index), scope, Registry(s).Keys)
    ensures SourcesMatch(c, s)
  {
    hide Reconcile.Asked, Reconcile.TooFew, Reconcile.SourceFor, Registry;
    forall k | k in c ensures k.0 in Registry(s) && Reconcile.SamePlace(c[k].source, Reconcile.SourceFor(Registry(s)[k.0], k.1)) {
      assert Find(c, k) == Reconcile.BuiltEntry(Registry(s), TokensOf(index), scope, Registry(s).Keys, k);
    }
  }

  /** A freshly built balance index has exactly the keys the table asks for. */
  lemma BuiltKeysExact(c: Reconcile.Contents, index: Index, s: Snapshot, includeDegraded: bool, scope: ParallelPools.Scope)
    requires IndexExact(index, s, includeDegraded)
    requires Reconcile.BuiltFrom(c, Registry(s), TokensOf(index), scope, Registry(s).Keys)
    ensures KeysExact(c, TokensOf(index), scope) && SourcesMatch(c, s)
  {
    BuiltSources(c, index, s, scope);
    hide ParallelPools.Tracked, IndexExact, IndexedFor;
    forall k: (Pool, Token) ensures k in c <==> ParallelPools.Tracked(TokensOf(index), scope, k.0, k.1) {
      AskedIffTracked(index, s, includeDegraded, scope, k);
      assert Find(c, k) == Reconcile.BuiltEntry(Registry(s), TokensOf(index), scope, Registry(s).Keys, k);
      TrackedNotTooFew(index, s, includeDegraded, scope, k);
    }
  }

  lemma TrackedNotTooFew(index: Index, s: Snapshot, includeDegraded: bool, scope: ParallelPools.Scope, k: (Pool, Token))
    requires IndexExact(index, s, includeDegraded)
    ensures ParallelPools.Tracked(TokensOf(index), scope, k.0, k.1) ==> k.0 in Registry(s) && !Reconcile.TooFew(Registry(s)[k.0])
  {
    if k.0 in TokensOf(index) {
      assert TargetOf(s, includeDegraded, k.0) == Success(Find(index, k.0));
    }
  }

  /** Some pool of the snapshot lacks its registration or its revision. */
  /** The error is what is wrong: with the snapshot itself, with its place in the stream, or with the graph's
      version counter. `consistent` tells whether a commit's two halves name the same state. */
  ghost predicate Excuses(e: LiveError, s: Snapshot, runtime: nat, stateVersion: nat, version: nat, consistent: bool, includeDegraded: bool) {
    match e
    case RuntimeMismatch => s.runtime != runtime
    case CommitVersionMismatch => s.runtime == runtime && !consistent
    case NonContiguous => s.runtime == runtime && consistent && (s.version != stateVersion + 1 || stateVersion >= U64_MAX)
    case StaleSnapshot => s.runtime == runtime && s.version <= stateVersion
    case MissingRegistration => Blames(s, includeDegraded, e)
    case MissingRevision => Blames(s, includeDegraded, e)
    case GraphVersionExhausted => version >= U64_MAX
  }

  lemma WhatExcuses(s: Snapshot, runtime: nat, stateVersion: nat, version: nat, includeDegraded: bool)
    ensures s.runtime != runtime ==> Excuses(RuntimeMismatch, s, runtime, stateVersion, version, true, includeDegraded)
    ensures s.runtime == runtime && s.version <= stateVersion ==> Excuses(StaleSnapshot, s, runtime, stateVersion, version, true, includeDegraded)
    ensures version >= U64_MAX ==> Excuses(GraphVersionExhausted, s, runtime, stateVersion, version, true, includeDegraded)
    ensures forall e :: (e == MissingRegistration || e == MissingRevision) && Blames(s, includeDegraded, e) ==> Excuses(e, s, runtime, stateVersion, version, true, includeDegraded)
  {
  }

  ghost predicate Blames(s: Snapshot, includeDegraded: bool, e: LiveError) {
    exists p :: TargetOf(s, includeDegraded, p) == Failure(e)
  }

  ghost predicate Unresolved(s: Snapshot, includeDegraded: bool) {
    exists p :: TargetOf(s, includeDegraded, p).Failure?
  }

  lemma SomeUnresolved(s: Snapshot, includeDegraded: bool, pools: set<Pool>)
    requires exists p :: p in pools && TargetOf(s, includeDegraded, p).Failure?
    ensures Unresolved(s, includeDegraded)
  {
  }

  function ImpactOf(before: Option<IndexedPool>, after: Option<IndexedPool>): Impact {
    match (before, after)
    case (Some(a), Some(b)) => if a.tokens == b.tokens then (if a.instance == b.instance then NoImpact else IdentityChanged) else Localized
    case (None, None) => NoImpact
    case _ => Localized
  }

  function MaxImpact(a: Impact, b: Impact): Impact {
    if a.FullReconciliation? || b.FullReconciliation? then FullReconciliation
    else if a.Localized? || b.Localized? then Localized
    else if a.IdentityChanged? || b.IdentityChanged? then IdentityChanged
    else NoImpact
  }

  /** The deltas and the impact of the pools handled so far. */
  ghost predicate Gathered(deltas: seq<PoolDelta>, impact: Impact, index: Index, s: Snapshot, includeDegraded: bool, done: set<Pool>) {
    && DeltasOk(deltas, index, s, includeDegraded) && Covered(deltas, index, s, includeDegraded, done)
    && (impact == NoImpact <==> forall d :: d in deltas ==> SameShape(d.before, d.after))
    && (impact == Localized <==> exists d :: d in deltas && !SameTokens(d.before, d.after))
    && impact != FullReconciliation && PoolsIn(deltas) <= done
  }

  lemma NothingGathered(index: Index, s: Snapshot, includeDegraded: bool)
    ensures Gathered([], NoImpact, index, s, includeDegraded, {})
  {
  }

  lemma GatheredMore(deltas: seq<PoolDelta>, impact: Impact, index: Index, s: Snapshot, includeDegraded: bool, done: set<Pool>, key: Pool)
    requires Gathered(deltas, impact, index, s, includeDegraded, done) && key !in done && TargetOf(s, includeDegraded, key).Success?
    ensures var d := PoolDelta(key, Find(index, key), TargetOf(s, includeDegraded, key).value);
            Gathered(if d.before != d.after then deltas + [d] else deltas, MaxImpact(impact, ImpactOf(d.before, d.after)), index, s, includeDegraded, done + {key})
  {
    hide DeltasOk, Covered, PoolsIn, TargetOf;
    MoreDeltas(deltas, index, s, includeDegraded, done, key);
    var d := PoolDelta(key, Find(index, key), TargetOf(s, includeDegraded, key).value);
    assert ImpactOf(d.before, d.after) == NoImpact <==> SameShape(d.before, d.after);
    assert ImpactOf(d.before, d.after) == Localized <==> !SameTokens(d.before, d.after);
    assert d in deltas + [d];
    LocalizedGrows(deltas, d);
  }

  lemma LocalizedGrows(deltas: seq<PoolDelta>, d: PoolDelta)
    ensures (exists e :: e in deltas + [d] && !SameTokens(e.before, e.after)) <==>
            (exists e :: e in deltas && !SameTokens(e.before, e.after)) || !SameTokens(d.before, d.after)
  {
    if e :| e in deltas && !SameTokens(e.before, e.after) { assert e in deltas + [d]; }
    assert d in deltas + [d];
  }

  lemma GatheredAll(deltas: seq<PoolDelta>, impact: Impact, index: Index, s: Snapshot, includeDegraded: bool, done: set<Pool>)
    requires Gathered(deltas, impact, index, s, includeDegraded, done)
    ensures DeltasOk(deltas, index, s, includeDegraded) && Covered(deltas, index, s, includeDegraded, done)
    ensures impact == NoImpact <==> forall d :: d in deltas ==> SameShape(d.before, d.after)
    ensures impact == Localized <==> exists d :: d in deltas && !SameTokens(d.before, d.after)
    ensures impact != FullReconciliation && PoolsIn(deltas) <= done
    ensures forall p :: p in done ==> TargetOf(s, includeDegraded, p).Success?
  {
  }

  lemma TargetErrors(s: Snapshot, includeDegraded: bool, p: Pool)
    ensures TargetOf(s, includeDegraded, p).Failure? ==> TargetOf(s, includeDegraded, p).error == MissingRegistration || TargetOf(s, includeDegraded, p).error == MissingRevision
  {
  }

  lemma MoreDeltas(deltas: seq<PoolDelta>, index: Index, s: Snapshot, includeDegraded: bool, done: set<Pool>, key: Pool)
    requires DeltasOk(deltas, index, s, includeDegraded) && Covered(deltas, index, s, includeDegraded, done)
    requires PoolsIn(deltas) <= done && key !in done && TargetOf(s, includeDegraded, key).Success?
    ensures var d := PoolDelta(key, Find(index, key), TargetOf(s, includeDegraded, key).value);
            var next := if d.before != d.after then deltas + [d] else deltas;
            DeltasOk(next, index, s, includeDegraded) && Covered(next, index, s, includeDegraded, done + {key}) && PoolsIn(next) <= done + {key}
  {
  }

  /** One replayed delta moves the graph's table from one index to the next. */
  lemma ReplayStep(index: Index, deltas: seq<PoolDelta>, k: nat, s: Snapshot, includeDegraded: bool)
    requires DeltasOk(deltas, index, s, includeDegraded) && k < |deltas| && Keyed(s)
    ensures var d := deltas[k];
            var tokens := TokensOf(ApplyDeltas(index, deltas[..k]));
            if d.after.Some? then
              && d.pool in s.pools && s.pools[d.pool].registration.Some?
              && s.pools[d.pool].registration.value.pool == d.pool
              && TokensOf(ApplyDeltas(index, deltas[..k + 1])) == Applied(tokens, d.pool, IndexedTokens(s.pools[d.pool].registration.value, includeDegraded))
            else TokensOf(ApplyDeltas(index, deltas[..k + 1])) == tokens - {d.pool}
  {
    hide TokensOf, IndexedTokens, TargetOf, Applied;
    var d := deltas[k];
    assert d in deltas;
    assert deltas[..k + 1][..k] == deltas[..k];
    var rest := ApplyDeltas(index, deltas[..k]);
    assert ApplyDeltas(index, deltas[..k + 1]) == if d.after.Some? then rest[d.pool := d.after.value] else rest - {d.pool};
    TokensApplied(rest, d);
    if d.after.Some? { TargetTokens(s, includeDegraded, d); }
  }

  lemma TokensApplied(index: Index, d: PoolDelta)
    ensures TokensOf(if d.after.Some? then index[d.pool := d.after.value] else index - {d.pool})
         == Applied(TokensOf(index), d.pool, if d.after.Some? then Some(d.after.value.tokens) else None)
    ensures TokensOf(index - {d.pool}) == TokensOf(index) - {d.pool}
  {
  }

  /** A delta that leaves a pool indexed carries the tokens of its registration. */
  lemma TargetTokens(s: Snapshot, includeDegraded: bool, d: PoolDelta)
    requires Keyed(s) && TargetOf(s, includeDegraded, d.pool) == Success(d.after) && d.after.Some?
    ensures d.pool in s.pools && s.pools[d.pool].registration.Some? && s.pools[d.pool].registration.value.pool == d.pool
    ensures IndexedTokens(s.pools[d.pool].registration.value, includeDegraded) == Some(d.after.value.tokens)
  {
  }
}
