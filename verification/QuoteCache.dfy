/** The single-flight hop-quote cache that search workers share, as interleaved atomic steps. A
    step is one critical section of the cache's lock, or the unlocked simulation between two. */
module QuoteCache {
  import opened Routing

  /** `claimant` is a history variable: the worker that put the in-flight marker there. No step
      reads it. */
  datatype Slot = InFlight(claimant: WorkerId) | Ready(outcome: Outcome)

  /** Where a worker stands inside a lookup. */
  datatype Phase =
    | Looking(key: Key)                       // about to take the lock, first time or woken
    | Waiting(key: Key)                       // asleep on the condition variable
    | Executing(key: Key)                     // owns the slot, simulating without the lock
    | Computed(key: Key, outcome: Outcome)    // simulation returned, result not yet stored
    | Returned(key: Key, outcome: Outcome)

  type WorkerId = nat

  datatype State = State(
    truth: Truths,
    entries: map<Key, Slot>,
    keysByPool: map<Pool, set<Key>>,
    workers: map<WorkerId, Phase>,
    starts: map<Key, nat>,   // simulations begun since the key's pool was last invalidated
    panics: map<Key, nat>)   // those of them that panicked

  function Truth(s: State, k: Key): Outcome { At(s.truth, k) }

  function Count(m: map<Key, nat>, k: Key): nat { if k in m then m[k] else 0 }

  // ---- the reverse index ----

  function AddKey(index: map<Pool, set<Key>>, k: Key): map<Pool, set<Key>> {
    var p := k.hop.pool;
    index[p := (if p in index then index[p] else {}) + {k}]
  }

  function RemoveKey(index: map<Pool, set<Key>>, k: Key): map<Pool, set<Key>> {
    var p := k.hop.pool;
    if p !in index then index
    else if index[p] - {k} == {} then index - {p}
    else index[p := index[p] - {k}]
  }

  // ---- steps ----

  datatype Event =
    | Call(w: WorkerId, key: Key)
    | Lookup(w: WorkerId)
    | Simulate(w: WorkerId)
    | Publish(w: WorkerId)
    | Panic(w: WorkerId)
    | SpuriousWake(w: WorkerId)
    | Leave(w: WorkerId)
    | Invalidate(pools: set<Pool>, truth': Truths)

  predicate Owns(ph: Phase, k: Key) {
    (ph.Executing? || ph.Computed?) && ph.key == k
  }

  /** No worker is between claiming and storing a key of one of `pools`. */
  ghost predicate NoneInFlight(s: State, pools: set<Pool>) {
    forall k :: k in s.entries && s.entries[k].InFlight? ==> k.hop.pool !in pools
  }

  /** The world moves, at most for `pools`. */
  ghost predicate Moves(truth: Truths, truth': Truths, pools: set<Pool>) {
    ChangesOnly(QuoterOf(truth), QuoterOf(truth'), pools)
  }

  lemma MovesAt(truth: Truths, truth': Truths, pools: set<Pool>)
    ensures Moves(truth, truth', pools) <==> forall k: Key :: k.hop.pool !in pools ==> At(truth, k) == At(truth', k)
  {
    if forall k: Key :: k.hop.pool !in pools ==> At(truth, k) == At(truth', k) {
      forall h: Hop, a: nat | h.pool !in pools ensures QuoterOf(truth)(h, a) == QuoterOf(truth')(h, a) {
        assert At(truth, Key(h, a)) == At(truth', Key(h, a));
      }
    }
    if Moves(truth, truth', pools) {
      forall k: Key | k.hop.pool !in pools ensures At(truth, k) == At(truth', k) {
        assert QuoterOf(truth)(k.hop, k.amount) == QuoterOf(truth')(k.hop, k.amount);
      }
    }
  }

  ghost predicate Enabled(s: State, e: Event) {
    match e
    case Call(w, _) => w !in s.workers
    case Lookup(w) => w in s.workers && s.workers[w].Looking?
    case Simulate(w) => w in s.workers && s.workers[w].Executing?
    case Publish(w) => w in s.workers && s.workers[w].Computed?
    case Panic(w) => w in s.workers && s.workers[w].Executing?
    case SpuriousWake(w) => w in s.workers && s.workers[w].Waiting?
    case Leave(w) => w in s.workers && s.workers[w].Returned?
    case Invalidate(pools, truth') => Moves(s.truth, truth', pools) && NoneInFlight(s, pools)
  }

  /** `notify_all`: every sleeper goes back for the lock. */
  function WakeAll(workers: map<WorkerId, Phase>): (r: map<WorkerId, Phase>)
    ensures r.Keys == workers.Keys
    ensures forall w :: w in workers ==> !r[w].Waiting?
    ensures forall w :: w in workers && !workers[w].Waiting? ==> r[w] == workers[w]
    ensures forall w :: w in workers && workers[w].Waiting? ==> r[w] == Looking(workers[w].key)
  {
    map w | w in workers :: if workers[w].Waiting? then Looking(workers[w].key) else workers[w]
  }

  function DoLookup(s: State, w: WorkerId): State
    requires w in s.workers && s.workers[w].Looking?
  {
    var k := s.workers[w].key;
    if k !in s.entries then
      s.(entries := s.entries[k := InFlight(w)],
         keysByPool := AddKey(s.keysByPool, k),
         workers := s.workers[w := Executing(k)],
         starts := s.starts[k := Count(s.starts, k) + 1])
    else match s.entries[k]
      case Ready(o) => s.(workers := s.workers[w := Returned(k, o)])
      case InFlight(_) => s.(workers := s.workers[w := Waiting(k)])
  }

  function DoPublish(s: State, w: WorkerId): State
    requires w in s.workers && s.workers[w].Computed?
  {
    var k, o := s.workers[w].key, s.workers[w].outcome;
    s.(entries := if k in s.entries && s.entries[k].InFlight? then s.entries[k := Ready(o)] else s.entries,
       workers := WakeAll(s.workers)[w := Returned(k, o)])
  }

  function DoPanic(s: State, w: WorkerId): State
    requires w in s.workers && s.workers[w].Executing?
  {
    var k := s.workers[w].key;
    s.(entries := s.entries - {k},
       keysByPool := RemoveKey(s.keysByPool, k),
       workers := WakeAll(s.workers) - {w},
       panics := s.panics[k := Count(s.panics, k) + 1])
  }

  /** `invalidate_pools` after the world moved to `truth'`. An empty pool set changes nothing. */
  function DoInvalidate(s: State, pools: set<Pool>, truth': Truths): State {
    if pools == {} then s.(truth := truth')
    else
      var gone := set p, k | p in pools && p in s.keysByPool && k in s.keysByPool[p] :: k;
      s.(truth := truth',
         entries := s.entries - gone,
         keysByPool := s.keysByPool - pools,
         workers := WakeAll(s.workers),
         starts := map k | k in s.starts && k.hop.pool !in pools :: s.starts[k],
         panics := map k | k in s.panics && k.hop.pool !in pools :: s.panics[k])
  }

  ghost function Apply(s: State, e: Event): State
    requires Enabled(s, e)
  {
    match e
    case Call(w, k) => s.(workers := s.workers[w := Looking(k)])
    case Lookup(w) => DoLookup(s, w)
    case Simulate(w) => s.(workers := s.workers[w := Computed(s.workers[w].key, Truth(s, s.workers[w].key))])
    case Publish(w) => DoPublish(s, w)
    case Panic(w) => DoPanic(s, w)
    case SpuriousWake(w) => s.(workers := s.workers[w := Looking(s.workers[w].key)])
    case Leave(w) => s.(workers := s.workers - {w})
    case Invalidate(pools, truth') => DoInvalidate(s, pools, truth')
  }

  // ---- what every reachable state satisfies ----

  type Slots = map<Key, Slot>
  type Index = map<Pool, set<Key>>
  type Crew = map<WorkerId, Phase>

  /** `keysByPool` is exactly the reverse index of the entries. */
  ghost predicate IndexExact(entries: Slots, index: Index) {
    && (forall p :: p in index ==> index[p] != {})
    && (forall p, k :: p in index && k in index[p] ==> k in entries && k.hop.pool == p)
    && (forall k :: k in entries ==> k.hop.pool in index && k in index[k.hop.pool])
  }

  /** In-flight slots and owning workers match one to one. */
  ghost predicate OwnersExact(entries: Slots, workers: Crew) {
    && (forall w :: w in workers && (workers[w].Executing? || workers[w].Computed?) ==>
          workers[w].key in entries && entries[workers[w].key] == InFlight(w))
    && (forall k :: k in entries && entries[k].InFlight? ==>
          entries[k].claimant in workers && Owns(workers[entries[k].claimant], k))
  }

  ghost predicate SlotsTrue(q: Truths, entries: Slots) {
    forall k :: k in entries && entries[k].Ready? ==> entries[k].outcome == At(q, k)
  }

  ghost predicate ComputedTrue(q: Truths, workers: Crew) {
    forall w :: w in workers && workers[w].Computed? ==> workers[w].outcome == At(q, workers[w].key)
  }

  ghost predicate SleepersGuarded(entries: Slots, workers: Crew) {
    forall w :: w in workers && workers[w].Waiting? ==> workers[w].key in entries && entries[workers[w].key].InFlight?
  }

  /** A key's simulations since its last invalidation: the panicked ones, plus the one behind its slot. */
  ghost predicate StartsExact(s: State) {
    forall k :: Count(s.starts, k) == Count(s.panics, k) + (if k in s.entries then 1 else 0)
  }

  ghost predicate Inv(s: State) {
    && IndexExact(s.entries, s.keysByPool)
    && OwnersExact(s.entries, s.workers)
    && SlotsTrue(s.truth, s.entries)
    && ComputedTrue(s.truth, s.workers)
    && SleepersGuarded(s.entries, s.workers)
    && StartsExact(s)
  }

  ghost predicate Init(s: State) {
    s.entries == map[] && s.keysByPool == map[] && s.workers == map[] && s.starts == map[] && s.panics == map[]
  }

  lemma IndexAdd(entries: Slots, index: Index, k: Key, slot: Slot)
    requires IndexExact(entries, index)
    ensures IndexExact(entries[k := slot], AddKey(index, k))
  {
  }

  lemma IndexRemove(entries: Slots, index: Index, k: Key)
    requires IndexExact(entries, index)
    ensures IndexExact(entries - {k}, RemoveKey(index, k))
  {
  }

  // Each step, seen on the slots and the workers alone.

  ghost predicate CrewOk(q: Truths, entries: Slots, workers: Crew) {
    OwnersExact(entries, workers) && SleepersGuarded(entries, workers) && ComputedTrue(q, workers)
  }

  lemma CrewClaims(q: Truths, entries: Slots, workers: Crew, w: WorkerId, k: Key)
    requires CrewOk(q, entries, workers) && w in workers && workers[w].Looking? && k !in entries
    ensures CrewOk(q, entries[k := InFlight(w)], workers[w := Executing(k)])
  {
  }

  lemma CrewMoves(q: Truths, entries: Slots, workers: Crew, w: WorkerId, ph: Phase)
    requires CrewOk(q, entries, workers) && (w in workers ==> workers[w].Looking? || workers[w].Waiting?)
    requires ph.Looking? || ph.Returned? || (ph.Waiting? && ph.key in entries && entries[ph.key].InFlight?)
    ensures CrewOk(q, entries, workers[w := ph])
  {
  }

  lemma CrewComputes(q: Truths, entries: Slots, workers: Crew, w: WorkerId)
    requires CrewOk(q, entries, workers) && w in workers && workers[w].Executing?
    ensures CrewOk(q, entries, workers[w := Computed(workers[w].key, At(q, workers[w].key))])
  {
  }

  lemma CrewStores(q: Truths, entries: Slots, workers: Crew, w: WorkerId, o: Outcome)
    requires CrewOk(q, entries, workers) && w in workers && workers[w].Computed?
    ensures CrewOk(q, entries[workers[w].key := Ready(o)], WakeAll(workers)[w := Returned(workers[w].key, o)])
  {
  }

  lemma CrewDrops(q: Truths, entries: Slots, workers: Crew, w: WorkerId)
    requires CrewOk(q, entries, workers) && w in workers && workers[w].Executing?
    ensures CrewOk(q, entries - {workers[w].key}, WakeAll(workers) - {w})
  {
  }

  lemma CrewSurvives(q: Truths, q': Truths, pools: set<Pool>, entries: Slots, entries': Slots, workers: Crew)
    requires CrewOk(q, entries, workers) && Moves(q, q', pools)
    requires forall k :: k in entries && entries[k].InFlight? ==> k.hop.pool !in pools
    requires forall k :: k in entries' <==> k in entries && k.hop.pool !in pools
    requires forall k :: k in entries' ==> entries'[k] == entries[k]
    ensures CrewOk(q', entries', WakeAll(workers))
  {
    hide Moves;
    MovesAt(q, q', pools);
  }

  lemma LookupKeepsInv(s: State, w: WorkerId)
    requires Inv(s) && w in s.workers && s.workers[w].Looking?
    ensures Inv(DoLookup(s, w))
  {
    hide IndexExact, AddKey, OwnersExact, SleepersGuarded, ComputedTrue;
    var k := s.workers[w].key;
    assert CrewOk(s.truth, s.entries, s.workers);
    if k !in s.entries {
      IndexAdd(s.entries, s.keysByPool, k, InFlight(w));
      CrewClaims(s.truth, s.entries, s.workers, w, k);
    } else {
      CrewMoves(s.truth, s.entries, s.workers, w,
                if s.entries[k].Ready? then Returned(k, s.entries[k].outcome) else Waiting(k));
    }
  }

  lemma PublishKeepsInv(s: State, w: WorkerId)
    requires Inv(s) && w in s.workers && s.workers[w].Computed?
    ensures Inv(DoPublish(s, w))
  {
    var k, o := s.workers[w].key, s.workers[w].outcome;
    assert CrewOk(s.truth, s.entries, s.workers);
    CrewStores(s.truth, s.entries, s.workers, w, o);
    assert s.entries[k] == InFlight(w) && o == Truth(s, k);
    SameKeys(s.entries, s.keysByPool, k, Ready(o));
    hide IndexExact, OwnersExact, SleepersGuarded, ComputedTrue;
  }

  lemma SameKeys(entries: Slots, index: Index, k: Key, slot: Slot)
    requires IndexExact(entries, index) && k in entries
    ensures IndexExact(entries[k := slot], index)
  {
  }

  lemma PanicKeepsInv(s: State, w: WorkerId)
    requires Inv(s) && w in s.workers && s.workers[w].Executing?
    ensures Inv(DoPanic(s, w))
  {
    assert CrewOk(s.truth, s.entries, s.workers);
    IndexRemove(s.entries, s.keysByPool, s.workers[w].key);
    CrewDrops(s.truth, s.entries, s.workers, w);
    assert s.workers[w].key in s.entries;
    hide IndexExact, RemoveKey, OwnersExact, SleepersGuarded, ComputedTrue;
  }

  lemma InvalidateRemoves(s: State, pools: set<Pool>, truth': Truths)
    requires IndexExact(s.entries, s.keysByPool) && pools != {}
    ensures var s' := DoInvalidate(s, pools, truth');
            && (forall k :: k in s'.entries <==> k in s.entries && k.hop.pool !in pools)
            && IndexExact(s'.entries, s'.keysByPool)
  {
  }

  lemma SafeInvalidation(s: State, pools: set<Pool>, truth': Truths)
    requires Inv(s) && Moves(s.truth, truth', pools) && NoneInFlight(s, pools)
    ensures Inv(DoInvalidate(s, pools, truth'))
  {
    hide IndexExact, OwnersExact, SleepersGuarded, ComputedTrue, NoneInFlight, SlotsTrue, Moves;
    var s' := DoInvalidate(s, pools, truth');
    if pools == {} {
      TruthStands(s, truth');
    } else {
      InvalidateRemoves(s, pools, truth');
      NoneAffected(s, pools);
      CrewSurvives(s.truth, truth', pools, s.entries, s'.entries, s.workers);
      SlotsSurvive(s.truth, truth', pools, s.entries, s'.entries);
    }
  }

  lemma NoneAffected(s: State, pools: set<Pool>)
    requires NoneInFlight(s, pools)
    ensures forall k :: k in s.entries && s.entries[k].InFlight? ==> k.hop.pool !in pools
  {
  }

  lemma TruthStands(s: State, truth': Truths)
    requires Inv(s) && Moves(s.truth, truth', {})
    ensures SlotsTrue(truth', s.entries) && ComputedTrue(truth', s.workers)
  {
    hide Moves, IndexExact, OwnersExact, SleepersGuarded, StartsExact;
    MovesAt(s.truth, truth', {});
  }

  lemma SlotsSurvive(q: Truths, q': Truths, pools: set<Pool>, entries: Slots, entries': Slots)
    requires SlotsTrue(q, entries) && Moves(q, q', pools)
    requires forall k :: k in entries' ==> k in entries && k.hop.pool !in pools && entries'[k] == entries[k]
    ensures SlotsTrue(q', entries')
  {
    hide Moves;
    MovesAt(q, q', pools);
  }

  lemma StepKeepsInv(s: State, e: Event)
    requires Inv(s) && Enabled(s, e)
    ensures Inv(Apply(s, e))
  {
    assert CrewOk(s.truth, s.entries, s.workers);
    match e {
      case Call(w, k) => CrewMoves(s.truth, s.entries, s.workers, w, Looking(k));
      case Lookup(w) => LookupKeepsInv(s, w);
      case Simulate(w) => CrewComputes(s.truth, s.entries, s.workers, w);
      case Publish(w) => PublishKeepsInv(s, w);
      case Panic(w) => PanicKeepsInv(s, w);
      case SpuriousWake(w) => CrewMoves(s.truth, s.entries, s.workers, w, Looking(s.workers[w].key));
      case Leave(w) =>
      case Invalidate(pools, truth') => SafeInvalidation(s, pools, truth');
    }
  }

  /** Any interleaving of any number of workers' steps. */
  ghost predicate Steps(run: seq<State>, events: seq<Event>) {
    && |run| == |events| + 1
    && forall i :: 0 <= i < |events| ==> Enabled(run[i], events[i]) && run[i + 1] == Apply(run[i], events[i])
  }

  ghost predicate IsRun(run: seq<State>, events: seq<Event>) {
    Steps(run, events) && Init(run[0])
  }

  /** From a coherent state on, the cache stays coherent. */
  lemma {:induction false} StepsStayCoherent(run: seq<State>, events: seq<Event>, n: nat)
    requires Steps(run, events) && n < |run| && Inv(run[0])
    ensures Inv(run[n])
  {
    if n > 0 {
      StepsStayCoherent(run, events, n - 1);
      StepKeepsInv(run[n - 1], events[n - 1]);
    }
  }

  /** In every state of every run the cache is coherent. */
  lemma RunsAreCoherent(run: seq<State>, events: seq<Event>, n: nat)
    requires IsRun(run, events) && n < |run|
    ensures Inv(run[n])
  {
    StepsStayCoherent(run, events, n);
  }

  // ---- invalidation ----

  /** Whatever happens from `s` on, no stored value and no value handed out just now is wrong. */
  ghost predicate StaysTrue(s: State) {
    forall run: seq<State>, events: seq<Event> :: Steps(run, events) && run[0] == s ==> Truthful(run[|events|], events)
  }

  ghost predicate Truthful(s: State, events: seq<Event>) {
    && SlotsTrue(s.truth, s.entries)
    && (events != [] && events[|events| - 1].Lookup? ==> HandsOutTruth(s, events[|events| - 1].w))
  }

  ghost predicate HandsOutTruth(s: State, w: WorkerId) {
    w in s.workers && s.workers[w].Returned? ==> s.workers[w].outcome == Truth(s, s.workers[w].key)
  }

  /** Invalidation is safe exactly when no affected key is in flight: otherwise some continuation
      stores an outdated value and serves it. */
  lemma InvalidationExactCondition(s: State, pools: set<Pool>, truth': Truths)
    requires Inv(s) && Moves(s.truth, truth', pools)
    ensures StaysTrue(DoInvalidate(s, pools, truth')) <==> NoneInFlight(s, pools)
  {
    hide Inv, Enabled, Apply, DoInvalidate, Truthful;
    var s' := DoInvalidate(s, pools, truth');
    if NoneInFlight(s, pools) {
      SafeInvalidation(s, pools, truth');
      forall run: seq<State>, events: seq<Event> | Steps(run, events) && run[0] == s' ensures Truthful(run[|events|], events) {
        CoherentIsTruthful(run, events);
      }
    } else {
      var run, events := OrphanServesStale(s, pools, truth');
      assert Steps(run, events) && run[0] == s' && !Truthful(run[|events|], events);
    }
  }

  lemma CoherentIsTruthful(run: seq<State>, events: seq<Event>)
    requires Steps(run, events) && Inv(run[0])
    ensures Truthful(run[|events|], events)
  {
    hide Enabled, Apply, Inv;
    var n := |events|;
    StepsStayCoherent(run, events, n);
    InvParts(run[n]);
    if n > 0 && events[n - 1].Lookup? {
      StepsStayCoherent(run, events, n - 1);
      LookupTruth(run[n - 1], events[n - 1].w);
    }
  }

  lemma InvParts(s: State)
    requires Inv(s)
    ensures SlotsTrue(s.truth, s.entries)
  {
  }

  lemma LookupTruth(s: State, w: WorkerId)
    requires Inv(s) && Enabled(s, Lookup(w))
    ensures HandsOutTruth(Apply(s, Lookup(w)), w)
  {
  }

  /** An outcome other than `o`. */
  function Other(o: Outcome): (r: Outcome)
    ensures r != o
  {
    if o == Ok(0) then Ok(1) else Ok(0)
  }

  /** The owner of a key that was invalidated under it still has its result to store. */
  ghost predicate Orphaned(s: State, w: WorkerId, k: Key) {
    w in s.workers && s.workers[w].Computed? && s.workers[w].key == k && k !in s.entries
    && forall j :: j in s.entries && s.entries[j].InFlight? ==> j.hop.pool != k.hop.pool
  }

  /** The claimant of an affected in-flight key is orphaned at once, or as soon as its simulation ends. */
  lemma InvalidationOrphans(s: State, pools: set<Pool>, truth': Truths) returns (w: WorkerId, k: Key, run: seq<State>, events: seq<Event>)
    requires Inv(s) && !NoneInFlight(s, pools)
    ensures Steps(run, events) && run[0] == DoInvalidate(s, pools, truth') && Orphaned(run[|events|], w, k)
  {
    hide Inv, DoInvalidate;
    k, w := AffectedOwner(s, pools);
    var s1 := DoInvalidate(s, pools, truth');
    OwnerSurvives(s, pools, truth', w, k);
    if s.workers[w].Computed? {
      run, events := [s1], [];
    } else {
      run, events := [s1, Apply(s1, Simulate(w))], [Simulate(w)];
    }
  }

  lemma AffectedOwner(s: State, pools: set<Pool>) returns (k: Key, w: WorkerId)
    requires Inv(s) && !NoneInFlight(s, pools)
    ensures w in s.workers && Owns(s.workers[w], k) && k in s.entries && k.hop.pool in pools && IndexExact(s.entries, s.keysByPool)
  {
    k :| k in s.entries && s.entries[k].InFlight? && k.hop.pool in pools;
    w := s.entries[k].claimant;
  }

  lemma OwnerSurvives(s: State, pools: set<Pool>, truth': Truths, w: WorkerId, k: Key)
    requires IndexExact(s.entries, s.keysByPool) && w in s.workers && Owns(s.workers[w], k) && k.hop.pool in pools
    ensures var s1 := DoInvalidate(s, pools, truth');
            w in s1.workers && s1.workers[w] == s.workers[w] && forall j :: j in s1.entries ==> j.hop.pool !in pools
  {
    InvalidateRemoves(s, pools, truth');
  }

  ghost function FreshWorker(workers: Crew): (w: WorkerId)
    ensures w !in workers
  {
    Bound(workers.Keys)
  }

  /** From an orphan on: the world moves, another worker claims the key, the orphan stores its old
      result into that claim, and a third worker is served it. */
  lemma OrphanPublishes(s: State, w: WorkerId, k: Key) returns (run: seq<State>, events: seq<Event>)
    requires Orphaned(s, w, k)
    ensures Steps(run, events) && run[0] == s && events != [] && !SlotsTrue(run[|events|].truth, run[|events|].entries)
    ensures events[|events| - 1].Lookup? && !HandsOutTruth(run[|events|], events[|events| - 1].w)
  {
    hide Orphaned, Enabled, Apply, Truth, SlotsTrue, HandsOutTruth, Owns;
    var s1, e1 := Moved(s, w, k);
    var s3, second := Reclaimed(s1, w, k);
    var s4 := Overwritten(s3, w, k);
    var s6, third := Served(s4, k);
    events := [e1, Call(second, k), Lookup(second), Publish(w), Call(third, k), Lookup(third)];
    run := [s, s1, Apply(s1, events[1]), s3, s4, Apply(s4, events[4]), s6];
  }

  /** An allowed invalidation of the orphan's pool moves the truth of its key and leaves the orphan alone. */
  lemma Moved(s: State, w: WorkerId, k: Key) returns (s1: State, e: Event)
    requires Orphaned(s, w, k)
    ensures Enabled(s, e) && s1 == Apply(s, e) && Orphaned(s1, w, k)
    ensures s1.workers[w] == s.workers[w] && Truth(s1, k) != s.workers[w].outcome
  {
    var truth' := s.truth[k := Other(s.workers[w].outcome)];
    e := Invalidate({k.hop.pool}, truth');
    s1 := DoInvalidate(s, {k.hop.pool}, truth');
  }

  /** The orphan's old result is about to land in another worker's claim. */
  ghost predicate Colliding(s: State, w: WorkerId, k: Key) {
    && w in s.workers && s.workers[w].Computed? && s.workers[w].key == k && s.workers[w].outcome != Truth(s, k)
    && k in s.entries && s.entries[k].InFlight?
  }

  lemma Reclaimed(s: State, w: WorkerId, k: Key) returns (s2: State, second: WorkerId)
    requires Orphaned(s, w, k) && Truth(s, k) != s.workers[w].outcome
    ensures Enabled(s, Call(second, k)) && Enabled(Apply(s, Call(second, k)), Lookup(second))
    ensures s2 == Apply(Apply(s, Call(second, k)), Lookup(second)) && Colliding(s2, w, k)
  {
    second := FreshWorker(s.workers);
    s2 := DoLookup(s.(workers := s.workers[second := Looking(k)]), second);
  }

  ghost predicate Wrong(s: State, k: Key) {
    k in s.entries && s.entries[k].Ready? && s.entries[k].outcome != Truth(s, k)
  }

  lemma Overwritten(s: State, w: WorkerId, k: Key) returns (s1: State)
    requires Colliding(s, w, k)
    ensures Enabled(s, Publish(w)) && s1 == Apply(s, Publish(w)) && Wrong(s1, k)
  {
    s1 := DoPublish(s, w);
  }

  lemma Served(s: State, k: Key) returns (s2: State, third: WorkerId)
    requires Wrong(s, k)
    ensures Enabled(s, Call(third, k)) && Enabled(Apply(s, Call(third, k)), Lookup(third))
    ensures s2 == Apply(Apply(s, Call(third, k)), Lookup(third)) && !HandsOutTruth(s2, third) && !SlotsTrue(s2.truth, s2.entries)
  {
    third := FreshWorker(s.workers);
    s2 := DoLookup(s.(workers := s.workers[third := Looking(k)]), third);
    assert s2.workers[third].Returned? && Wrong(s2, k);
  }

  lemma OrphanServesStale(s: State, pools: set<Pool>, truth': Truths) returns (run: seq<State>, events: seq<Event>)
    requires Inv(s) && !NoneInFlight(s, pools)
    ensures Steps(run, events) && run[0] == DoInvalidate(s, pools, truth') && !Truthful(run[|events|], events)
  {
    hide Inv, Enabled, Apply, DoInvalidate, Orphaned, NoneInFlight;
    var w, k, a, ea := InvalidationOrphans(s, pools, truth');
    var b, eb := OrphanPublishes(a[|ea|], w, k);
    run, events := a + b[1..], ea + eb;
    StepsJoin(a, ea, b, eb);
  }

  lemma StepsJoin(a: seq<State>, ea: seq<Event>, b: seq<State>, eb: seq<Event>)
    requires Steps(a, ea) && Steps(b, eb) && b[0] == a[|ea|]
    ensures Steps(a + b[1..], ea + eb) && (a + b[1..])[|ea + eb|] == b[|eb|]
  {
    hide Enabled, Apply;
    var run, events := a + b[1..], ea + eb;
    forall i | 0 <= i < |events| ensures Enabled(run[i], events[i]) && run[i + 1] == Apply(run[i], events[i]) {
      if i >= |ea| {
        assert run[i] == b[i - |ea|] && run[i + 1] == b[i - |ea| + 1] && events[i] == eb[i - |ea|];
      }
    }
  }

  /** What callers get: a lookup that returns, returns the true quote of the moment, whether it
      simulated the hop itself or was served another worker's result. */
  lemma CallersSeeTruth(s: State, w: WorkerId)
    requires Inv(s)
    ensures Enabled(s, Lookup(w)) && DoLookup(s, w).workers[w].Returned? ==>
              DoLookup(s, w).workers[w].outcome == Truth(s, s.workers[w].key)
    ensures Enabled(s, Publish(w)) ==> DoPublish(s, w).workers[w] == Returned(s.workers[w].key, Truth(s, s.workers[w].key))
  {
  }

  /** Single flight: between invalidations a key is simulated at most once more often than its
      simulations panicked. */
  lemma SimulatedOnce(run: seq<State>, events: seq<Event>, n: nat, k: Key)
    requires IsRun(run, events) && n < |run|
    ensures Count(run[n].starts, k) <= Count(run[n].panics, k) + 1
  {
    RunsAreCoherent(run, events, n);
  }

  /** Nobody sleeps forever: a sleeper's key has an owner other than itself, and whatever that owner
      does next in the protocol either brings it closer to storing or wakes the sleeper. */
  lemma SleeperHasLiveOwner(s: State, w: WorkerId) returns (owner: WorkerId)
    requires Inv(s) && w in s.workers && s.workers[w].Waiting?
    ensures owner in s.workers && owner != w && Owns(s.workers[owner], s.workers[w].key)
    ensures s.workers[owner].Executing? ==>
              Enabled(s, Simulate(owner)) && Enabled(s, Panic(owner))
              && Apply(s, Panic(owner)).workers[w] == Looking(s.workers[w].key)
    ensures s.workers[owner].Computed? ==>
              Enabled(s, Publish(owner))
              && Apply(s, Publish(owner)).workers[w] == Looking(s.workers[w].key)
              && Apply(s, Publish(owner)).entries[s.workers[w].key].Ready?
  {
    owner := s.entries[s.workers[w].key].claimant;
  }

  /** While any worker is inside a lookup, some worker can take a step that is not a spurious wake. */
  lemma NoDeadlock(s: State, w: WorkerId) returns (e: Event)
    requires Inv(s) && w in s.workers
    ensures Enabled(s, e) && (e.Lookup? || e.Simulate? || e.Publish? || e.Leave?)
  {
    match s.workers[w] {
      case Looking(_) => e := Lookup(w);
      case Executing(_) => e := Simulate(w);
      case Computed(_, _) => e := Publish(w);
      case Returned(_, _) => e := Leave(w);
      case Waiting(k) =>
        var owner := SleeperHasLiveOwner(s, w);
        e := if s.workers[owner].Executing? then Simulate(owner) else Publish(owner);
    }
  }
}
