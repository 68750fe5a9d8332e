# The AMM routing core, modelled and proved in Dafny

This project models how the AMM router finds, streams, keeps and publishes the best route for a swap, and
proves that each fast mechanism agrees with the simple thing it stands for. Tokens and pools are opaque
values. Simulating one swap on a fixed pool state is a deterministic partial function of the hop and the
input amount (`Routing.Quoter`); everything else is derived from it.

| part | files | main result |
|---|---|---|
| Path search | `Routing`, `PathEnumeration` | breadth-first enumeration returns exactly the admissible simple paths |
| Quoting | `QuoteDag`, `QuoteCache`, `SharedQuotes` | the prefix trie equals hop-by-hop quoting; the shared cache is single-flight and true under every interleaving |
| Pruning | `PrefixDominance`, `DominanceLimits`, `BalanceCap`, `PrunedSearch` | pruned prefixes could not have won, with the exact hop bounds for which that holds; the pruned search finds the maximum of the full one |
| Streaming | `Ranking`, `StreamState`, `StreamSearch` | a run that ends exhaustive reports the maximum over all admissible paths; every event trace is disciplined |
| Sessions | `RouteSession` | after any batches of pool changes the route table is exact |
| Live routes | `LiveRoutes`, `LiveRouteHistory`, `LiveRouteJobs`, `LiveRouteActor`, `RouteWorker` | published results are fenced to their view and spec and every one has an answer behind it; no work is lost, done twice or done in vain; a worker's answer is whole unless a cancellation token was raised |
| Token graph | `PoolTokens`, `TokenGraph`, `AmmGraph`, `ParallelPools` | all indexes describe one clique-per-pool graph; the cached lists are what the search needs |
| Balances | `Liquidity`, `Reconcile` | reverse maps are the exact inverse of the active targets; a slot write reaches exactly its targets |
| Live graph | `LiveGraph`, `GraphIndex` | following commits equals rebuilding at the end; the sidecar counters equal a scan |
| Router bytes | `PackedRoute` | the packed route is decodable, with the exact exceptions |

The parts are linked: `AmmGraph.SearchGraphExact` establishes the graph properties that enumeration, dominance
and sessions require; `StreamSearch` runs `PathEnumeration`, `QuoteDag` and `StreamState`, handing one table of
hop outcomes from worker to worker; `SharedQuotes` shows that a lookup in the single-flight cache keeps the
contract of that table's lookup; `PrunedSearch` combines the label index, the balance caps and the dead-end check into one search;
`RouteSession.StartRouteSession` and `RouteWorker.RunJob` run `StreamSearch`, the first to keep its quotes, the second to
answer a job of the live runtime; `LiveGraph` drives `AmmGraph` and `Reconcile`, and its deltas drive `GraphIndex`.

Protocols between threads (the quote cache, the live route actor with its workers and clients) are state
machines over atomic steps: every interleaving is a run, and results are for every state of every run. The actor
itself is also a class whose turns, with anything workers and clients do in between, are proved to take exactly
the steps their inputs stand for, and so to follow such a run. Code that updates fields or works through
loops is a class or a method with invariants. Hash-map and hash-set iteration, petgraph's choice of free node
and edge indices, and the order in which subscriptions are visited are nondeterministic choices, so the results
hold for every order.

## What the proofs found

- Reported confidence can fall. If a gate releases the initial results only when an exhaustive search completes
  and the callback answers stop to that very event, 10,000 basis points are announced and the closing report
  then says 9,999 or less with finality Stopped. `StreamState.StreamingRouteState.Finish` proves this is the
  only way. `StreamSearch.StreamRoutes` proves it of every request of a whole family, and
  `StreamSearch.CertaintyCanBeWithdrawn` gives one.
- Discarding dominated prefixes never costs output exactly for at most three allowed and at most two demanded
  hops (`DominanceLimits.DominanceExactBounds`). Beyond these bounds there are graphs where the retained prefix
  has no completion at all, while the discarded one belonged to a route. The default configuration
  (src/search.rs:52-63) is inside the bounds.
- The refinement pass keeps the label index of the initial pass (src/search.rs:3089-3093), and a label offered a
  second time is always dominated (`PrefixDominance.PrefixDominanceIndex.InsertOrDominated`): a prefix reached in
  both passes is not extended again, so edges deferred behind it stay untried.
- Invalidating the quote cache is safe exactly when no key of an affected pool is in flight
  (`QuoteCache.InvalidationExactCondition`): otherwise the owner of such a key can later store its outdated
  result into another worker's claim, and it is served.
- Recording a balance slot for a holder that already has a different one leaves the old slot pointing at the
  target. The index stays exact if and only if no target is reassigned
  (`Liquidity.PoolLiquidityIndex.SetErc20Slot`).
- A commit can leave a tracked balance source behind. The holder of a plain balance is the pool's own address and
  cannot move, but the vault or the cash fields of a vault pool can change without a new instance or token list, and
  then the pool is not reconciled. `LiveGraph.VaultMoveLeftBehind` builds a live graph and such a commit. After every
  accepted commit the sources match if and only if the pools outside `LiveGraph.Redo`, a set computed from the two
  indexes and the scope, keep their balances where they were (`LiveGraph.LiveAmmGraph.ApplyCommit`).
- In packed routes a spender of zero and the offset 2^32 - 1 read back as absent. Decoding is exact if and only
  if neither occurs (`PackedRoute.RouteRoundTrip`).

## Model

| member | source | states |
|---|---|---|
| `Routing.QuotePath` | src/search.rs:4671-4715 | the amount-carrying loop returns the recursive hop-by-hop trace, the first failing hop's reason, or the empty-path error |
| `Routing.RunAppend` | src/search.rs:4671-4715 | quoting a concatenation is quoting the first part and then the second from its output |
| `Routing.RunDependsOnPathPools` | src/search.rs:4671-4715 | a path's trace depends only on the pools it uses |
| `PathEnumeration.EnumerateRoutes` | src/search.rs:4549-4668 | the error cases exactly; otherwise only admissible, non-excluded, distinct paths in nondecreasing length, at most the cap, and all of them when neither cap nor caller cut it short; skipped duplicates are counted exactly |
| `PathEnumeration.Explore` | src/search.rs:4572-4668 | the queue loop terminates and finds every admissible path, or reports no path only when none exists |
| `PathEnumeration.CloseAdmissible` | src/search.rs:4607-4640 | a state the loop reached, closed by an edge it accepts onto the target, is an admissible path |
| `PathEnumeration.NextHopAccepted` | src/search.rs:4607-4640 | conversely the next hop of any admissible path is an edge the loop accepts |
| `QuoteDag.InsertKeepsWf` | src/search.rs:4808-4842 | inserting a path keeps the trie well formed and adds exactly that path to its terminals |
| `QuoteDag.ItemsFaithful` | src/search.rs:4875-4925 | what evaluating a subtree reports is, path by path, what quoting the path alone gives, and covers the terminals exactly |
| `QuoteDag.RequestedOnce` | src/search.rs:4875-4925 | no hop prefix is requested twice |
| `QuoteDag.QuoteDagEvaluator.Evaluate` | src/search.rs:4875-4925 | the recursive evaluator logs exactly the specified items in order, or a prefix of them when stopped, and keeps the hop cache true |
| `QuoteDag.QuotePathList` | src/search.rs:4745-4802 | every path occurrence is reported once as its own sequential quote or failure; requests never exceed the number of distinct non-empty prefixes |
| `QuoteDag.ReportCovers` | src/search.rs:4745-4802 | an unstopped report contains the quote of every viable path |
| `QuoteCache.StepKeepsInv` | src/search.rs:5139-5298 | every atomic step of every worker keeps index, entries, owners and sleepers consistent |
| `QuoteCache.RunsAreCoherent` | src/search.rs:5139-5298 | in every state of every interleaving keys_by_pool is the reverse index of entries and every Ready value is the true quote |
| `QuoteCache.InvalidationExactCondition` | src/search.rs:5139-5157 | no continuation ever stores or hands out a wrong value if and only if no affected key is in flight at the invalidation |
| `QuoteCache.OrphanServesStale` | src/search.rs:5159-5216 | from any coherent state with an affected key in flight, the steps by which an outdated result is stored and served |
| `QuoteCache.CallersSeeTruth` | src/search.rs:5159-5216 | a lookup that returns, returns the true quote of the moment |
| `QuoteCache.SimulatedOnce` | src/search.rs:5159-5216 | between invalidations a key is simulated at most once more often than it panicked |
| `QuoteCache.SleeperHasLiveOwner` | src/search.rs:5249-5298 | a waiter's key has another live owner whose publish or panic wakes it |
| `QuoteCache.NoDeadlock` | src/search.rs:5159-5283 | while a worker is inside a lookup some worker can make progress |
| `SharedQuotes.SharedLookupMeetsQuoteHop` | src/search.rs:4985-5216 | a lookup through the shared cache, under any interleaving without invalidation, returns the hop's own outcome and the finished entries stay true and only grow: the contract of the evaluator's hop lookup |
| `SharedQuotes.ReadyTableTrue` | src/search.rs:5159-5216 | the finished entries of a coherent cache are a table of true outcomes |
| `PrefixDominance.PrefixDominanceIndex.InsertOrDominated` | src/search.rs:5486-5515 | reports domination exactly, and always for a label offered before; otherwise the new labels are the undominated old ones and the newcomer; keeps an antichain that weakly dominates everything ever offered |
| `PrefixDominance.PrefixDominanceIndex.StrictIffDropped` | src/search.rs:5516-5535 | a label that was offered is strictly dominated exactly when the index no longer retains it |
| `PrefixDominance.FutureBlockedPools` | src/search.rs:4121-4155 | the loop collects exactly the used pools of which, were they still free, the search would accept an edge at this node |
| `PrefixDominance.DominanceLosesNothing` | src/search.rs:3283-3312 | up to three hops with at most two demanded, every admissible completion of a dominated prefix completes the dominating one, no longer |
| `PrefixDominance.PruningKeepsBestAmount` | src/search.rs:3283-3312 | with pools monotone in their input that completion also returns no less, so the discarded route is made up for |
| `DominanceLimits.ManyHopsDemandedLoses` | src/search.rs:3283-3312 | for every minimum of three or more hops there is a graph where a prefix of a route is dominated by one that has no admissible completion |
| `DominanceLimits.FourHopsAllowedLoses` | src/search.rs:4121-4155 | for every maximum of four or more hops the one-hop look-ahead lets a prefix without any admissible completion dominate the prefix of a route |
| `DominanceLimits.DominanceExactBounds` | src/search.rs:3283-3312 | for all graphs, prefixes and monotone prices some completion of the retained prefix returns at least what the discarded route would have, if and only if max_hops <= 3 and min_hops <= 2 |
| `BalanceCap.TargetBalanceCap` | src/search.rs:4071-4118 | the search terminates; a Known cap is the exact maximum of the balances of all final edges in reach, all of them fresh; Unknown means none in reach or one without a fresh balance |
| `BalanceCap.CapBoundsCompletions` | src/search.rs:4027-4069 | if swaps into the target pay at most the pool's balance, no completion returns more than a Known cap |
| `BalanceCap.ShouldPrunePrefix` | src/search.rs:4027-4069 | a pruned prefix has no admissible completion better than the incumbent, and pruning happens only when enabled and with an incumbent |
| `PrunedSearch.HasStaticRoute` | src/search.rs:4158-4264 | the depth-first look returns true if and only if the prefix can be closed within the remaining hops |
| `PrunedSearch.PrunedSearchIsExact` | src/search.rs:3105-3345 | whatever the order of expansion: once every retained label belongs to a prefix that was expanded or capped, the best route found is a maximum over all admissible paths, and finding none means that none is viable |
| `PrunedSearch.SearchPruned` | src/search.rs:3089-3368 | the level-by-level search with dead-end, balance-cap and dominance pruning terminates, reports only true quotes and finds the maximum: at any hop bounds without dominance, and for at most three allowed and two demanded hops and monotone pools with it |
| `PrunedSearch.Outdone` | src/search.rs:3127-3146 | the strict-domination check drops a prefix exactly when its label has been evicted |
| `Ranking.RecordKeepsTopK` | src/search.rs:5745-5768 | recording a quote keeps a sorted, path-distinct list of the k best of the distinct paths seen |
| `Ranking.OrderIndependent` | src/search.rs:5745-5768 | the retained amounts do not depend on arrival order |
| `Ranking.RankIsPlace` | src/search.rs:5745-5768 | the rank told to the caller is the newcomer's place in the new list, behind all routes at least as good and before all worse ones; without a rank the list is unchanged |
| `StreamState.ConfidenceMonotone` | src/search.rs:5808-5825 | confidence never falls as counters grow and stays below 10,000 |
| `StreamState.ConfidenceMeans` | src/search.rs:5808-5825 | 0 exactly without a route, 7,000 exactly while the heuristic phase runs, 9,000 after it, and then the evaluated share of a known universe in tenths of a percent, rounded down, up to 9,999 |
| `StreamState.SatisfiedIffMet` | src/search.rs:861-879 | a policy is satisfied if and only if every threshold it sets is reached (mode All) or some threshold it sets is reached (mode Any); an unknown fraction reaches none |
| `StreamState.StreamingRouteState.ProgressTells` | src/search.rs:5769-5806 | the counters of a progress report are the quotes observed, the failures and the known total, the share is exact and the best amount is the largest observed; the closing report of an exhaustive run claims the whole |
| `StreamState.StreamingRouteState.ObserveQuote` | src/search.rs:5635-5697 | counts, ranks and replaces the best only by a strictly better quote; the head of the ranking is the stored best; improvements over the heuristic best are counted; exactly which events the caller is told, in order: progress, the release when the gate's policy is met, and after the gate every improvement and every route asked for; the trace stays disciplined; it says stop only for a reason |
| `StreamState.StreamingRouteState.EmitProgressAndApplyPolicies` | src/search.rs:5827-5889 | reports progress, opens the gate if and only if the callback goes on, a route exists and the demands of the gate's policy are met, and goes on if and only if the callback accepts every event and the demands of the stop policy are not met |
| `StreamState.StreamingRouteState.ObserveFailedCandidates` | src/search.rs:5699-5711 | failures only raise confidence and never touch the ranking |
| `StreamState.StreamingRouteState.FinishHeuristicPhase` | src/search.rs:5713-5721 | closing the heuristic phase keeps ranking and trace |
| `StreamState.StreamingRouteState.SetTotalCandidates` | src/search.rs:5723-5731 | fixing the total keeps confidence monotone |
| `StreamState.StreamingRouteState.Finish` | src/search.rs:5951-5976 | nothing precedes the gate, it opens at most once, best amounts strictly increase; 10,000 is told only by the closing report of an exhaustive result with a route or by results released at completion, and in the second case the result is exhaustive if and only if the callback continues; confidence rises to the end if and only if certainty is not withdrawn |
| `StreamSearch.CertaintyCanBeWithdrawn` | src/search.rs:5891-5976 | a request on a one-pool graph whose announced certainty is withdrawn and whose reported confidence falls |
| `StreamSearch.SplitPaths` | src/search.rs:5338-5345 | each worker gets exactly its share of the paths, in order and once, and every path is in one |
| `StreamSearch.QuoteAndStream` | src/search.rs:4415-4526 | under any interleaving of worker messages all viable paths are observed with true quotes, unless stopped for a reason |
| `StreamSearch.StreamRoutes` | src/search.rs:2255-2555 | an exhaustive request that nobody stops, without a cap, with a valid configuration, indexed tokens and a viable path succeeds with the maximum over all admissible paths; a run that nobody stops observes all heuristic quotes first and in order, and without the exhaustive phase reports a largest of exactly these and fails exactly if the heuristic phase erred without a quote; a rejection names its true cause, and any other failure means that no heuristic quote exists and, in an uncapped exhaustive request, that nothing is viable; every finality has its cause; the report counts every candidate once, and a completed exhaustive run has evaluated exactly its universe; the events begin with the start and, unless the run was stopped, end with the report; the trace is disciplined and 10,000 is reported if and only if the result is exhaustive with a route; the observed quotes are true and the best is a largest of them; a described family of requests withdraws certainty |
| `StreamSearch.ExhaustivePhase` | src/search.rs:2409-2555 | the same for the phase that enumerates and quotes what the heuristic phase did not |
| `RouteSession.RouteSearchSession.InsertQuote` | src/search.rs:1809-1815 | table, pool index and probe index stay complete (every replacement of every route is filed), and a route over tracked hops does not enlarge the tracked set |
| `RouteSession.IndexProbePaths` | src/search.rs:6001-6039 | the index gains exactly the paths with one hop taken over by a parallel pool that is not on the path, each under both pools concerned |
| `RouteSession.RouteSearchSession.Requote` | src/search.rs:1711-1774 | after invalidation and requoting, every table entry is true for the new pool state and every selected path that quotes is in the table |
| `RouteSession.RouteSearchSession.OutOfReach` | src/search.rs:1666-1697 | with nothing selected, no affected pool is tracked, so skipping the cache invalidation is harmless for every later refresh |
| `RouteSession.RouteSearchSession.RefreshAffected` | src/search.rs:1579-1807 | recompute is required exactly in the stated cases and then changes nothing; otherwise every entry is a fresh quote or a real failure, the best is the table maximum and at least every viable one-hop replacement of a route that an affected pool is part of; both counts of requoted paths are exact, and the status is Unchanged if and only if the best is the same and none of the selected paths quotes |
| `RouteSession.StartRouteSession` | src/search.rs:2155-2195 | streams the request and builds a session from its quotes, best and cache: exact, with all heuristic routes in the table when nobody stops the run, and with the exhaustive maximum as best when the stream was exhaustive without a cap; an unstopped answerable request succeeds, and a failure names a refused request or means nothing is viable |
| `RouteSession.Follow` | src/search.rs:1579-1807 | over any fully named changes, each with its own pool standings, the session is exact for the state after every refresh, every refresh that changes the best says so, and it stops only where a recompute is due |
| `LiveRoutes.StepKeepsInv` | src/live_routes.rs:963-1405 | every handler, worker and client step keeps every invariant of the actor |
| `LiveRoutes.RunsKeepInv` | src/live_routes.rs:884-1405 | the invariants hold in every state of every run |
| `LiveRoutes.PublishedResultsAreFenced` | src/live_routes.rs:1273-1420 | every Ready snapshot ever published carries a complete search of its epoch's spec on exactly the view stored in it; provisional quotes too; a published failure is never a cancellation |
| `LiveRoutes.QuiescentIsCurrent` | src/live_routes.rs:1195-1342 | with nothing active or pending, every uncancelled subscription is Ready or Failed for the current view, epoch and spec, or is dirty with its job numbers used up |
| `LiveRoutes.WorkIsNeverLost` | src/live_routes.rs:1142-1271 | pending has no duplicates, a dirty idle subscription is queued, an active job is outdated exactly when its subscription is dirty, and an awaited job is queued, running or answered |
| `LiveRoutes.NewlyQueuedExact` | src/live_routes.rs:1009-1018 | a commit queues exactly the idle subscriptions not already queued, once each |
| `LiveRouteHistory.Hears` | src/live_routes.rs:1273-1405 | the awaited answer of a timely job is shown for what it is, success as Ready with its report and best, failure as Failed, and only a success is remembered; an untimely answer shows nothing and frees the subscription for another job; a progressive quote is shown only for the awaited, timely, uncancelled job; any other message does nothing |
| `LiveRouteHistory.MemoryIsLatestResult` | src/live_routes.rs:963-1405 | in every run what a subscription remembers is the best of the latest result it showed, and nothing before the first |
| `LiveRouteHistory.PublishedWasShown` | src/live_routes.rs:963-1405 | every snapshot ever published was shown to its subscriber, and what a pending or searching one offers as previous is the best of the latest result shown until then |
| `LiveRouteHistory.ResultsHaveAnswers` | src/live_routes.rs:1308-1395 | every Ready or Failed snapshot ever published is that of an answer received for the same subscription, epoch and view: no success is shown as a failure or the other way round |
| `LiveRouteJobs.RunsStayTidy` | src/live_routes.rs:963-1405 | in every run no job is queued, running or answered twice, the queue stays within its bound, and every unanswered job is awaited by an unchanged subscription or told to stop |
| `LiveRouteJobs.NobodyWorksInVain` | src/live_routes.rs:963-1271 | a queued or running job whose subscription is gone, has changed or waits for another job has had its token or its subscription's raised, and has not answered |
| `LiveRouteActors.LiveRouteActor.ApplyCommit` | src/live_routes.rs:963-1021 | the loop over subscriptions performs the commit step and keeps every invariant: each subscription shows pending on the new view with its memory, its job is told to stop, and it is queued if it has none |
| `LiveRouteActors.LiveRouteActor.AddSubscription` | src/live_routes.rs:1051-1110 | performs the subscribe step under a number never used before, pending, queued and with nothing remembered, keeps every invariant and reports capacity or exhausted numbers exactly |
| `LiveRouteActors.LiveRouteActor.CancelSubscription` | src/live_routes.rs:1112-1140 | performs the cancel step and keeps every invariant: both tokens are raised and the last snapshot says so; afterwards no message of the subscription's workers changes anything |
| `LiveRouteActors.LiveRouteActor.ReplaceSubscription` | src/live_routes.rs:1142-1187 | performs the replace step, keeps every invariant and reports its errors exactly: the next epoch begins pending with the old memory, and a job still active is told to stop, stale and no longer accepted |
| `LiveRouteActors.LiveRouteActor.SchedulePending` | src/live_routes.rs:1195-1271 | performs single scheduling steps, keeps every invariant and ends with nothing pending or a full queue |
| `LiveRouteActors.LiveRouteActor.ScheduleHead` | src/live_routes.rs:1195-1271 | one turn: the head of the list gets a new job of its own request on the present view exactly if it wants one, has a number left and the queue has room |
| `LiveRouteActors.ScheduleAllDrains` | src/live_routes.rs:1195-1271 | scheduling keeps every invariant and ends with nothing pending or a full queue |
| `LiveRouteActors.LiveRouteActor.ReceiveMessage` | src/live_routes.rs:1273-1405 | takes a worker's message and does with it exactly what `LiveRouteHistory.Hears` says, and keeps every invariant; whatever becomes Ready is a complete search of the subscription's present spec on the actor's present view |
| `LiveRouteActors.LiveRouteActor.Turn` | src/live_routes.rs:884-927 | takes exactly the steps its input stands for (a ready commit before a worker's message) and then scheduling steps until the list is empty or the queue is full; keeps every invariant, and when nothing is active and the queue has room every subscription is up to date |
| `LiveRouteActors.LiveRouteActor.Live` | src/live_routes.rs:884-927 | over any sequence of inputs and of steps by workers and clients, each one that can occur at its moment is carried out by exactly its steps, in order, and every state in between keeps the invariants, the fencing of published results and quiescent consistency |
| `LiveRouteActors.LiveRouteActor.HandleInput` | src/live_routes.rs:888-925 | performs exactly the protocol steps the input stands for and keeps every invariant |
| `RouteWorker.FlagsOnlyGrow` | src/live_routes.rs:963-1405 | in every run a cancellation token once raised stays raised |
| `RouteWorker.RunJob` | src/live_routes.rs:1605-1661 | a job's answer speaks for its own spec and view and is cut short or cancelled only if one of its tokens is raised when it answers, and cancelled outright if one was raised before it began; a whole answer to an unlimited request names the maximum, and an untouched job fails only if the request is refused, nothing is viable or the search panicked |
| `PoolTokens.SortedUnique` | src/graph.rs:616-627 | a canonical token list is determined by the tokens it holds |
| `PoolTokens.TokensForPool` | src/graph.rs:580-627 | an extracted list holds exactly the registered tokens, sorted, duplicate-free and at least two; otherwise the reason, with its token count, is the true one |
| `PoolTokens.IndexedExactly` | src/graph.rs:576-627 | a registration is indexed if and only if its status allows it and it names two different tokens, the list holds all it names, and a skip reason is the first thing wrong |
| `AmmGraphs.AmmGraph.AddPoolEdges` | src/graph.rs:456-486 | adds the pool's clique to every index, with newest-first cached lists, and its tokens to the nodes |
| `AmmGraphs.AmmGraph.RemovePoolEdges` | src/graph.rs:498-517 | removes exactly the pool from every index and reports n(n-1) edges; filtering only its own tokens' lists is enough |
| `AmmGraphs.AmmGraph.PruneOrphanTokens` | src/graph.rs:540-561 | drops exactly the listed tokens no pool uses |
| `AmmGraphs.UntouchedIffUnused` | src/graph.rs:540-561 | a node has no edge if and only if no pool holds its token |
| `AmmGraphs.AmmGraph.RemovePool` | src/graph.rs:290-296 | removes the pool, keeps the nodes, advances the version exactly if the pool was there and returns its n(n-1) directed edges |
| `AmmGraphs.AmmGraph.RemovePoolCompacting` | src/graph.rs:341-349 | also leaves no unused node, and classifies what happened |
| `AmmGraphs.AmmGraph.ApplyPool` | src/graph.rs:299-338 | brings one registration up to date in every index; the version advances exactly when the pool table changes; the reported mutation and skip reason are the true ones |
| `AmmGraphs.AmmGraph.FromRegistry` | src/graph.rs:222-262 | builds exactly the registry's indexable pools without unused nodes and reports the rest as skipped, each with its reason |
| `AmmGraphs.AmmGraph.RebuildFromRegistry` | src/graph.rs:265-287 | equals a fresh build; the version advances exactly when pools or tokens differ |
| `AmmGraphs.AmmGraph.SearchGraphExact` | src/graph.rs:400-405 | the cached lists are a well-formed clique-per-pool graph with exactly the hops of the pool table |
| `ParallelPools.TrackedTokensForPool` | src/graph.rs:407-430 | the walk over the pair index returns exactly the tokens shared in a pair with another pool |
| `ParallelPools.ParallelNeighbors` | src/graph.rs:433-444 | returns exactly the pools that share a pair |
| `ParallelPools.ParallelOutputTokens` | src/liquidity.rs:1260-1285 | grouping the directed edges gives the same tokens as the pair index |
| `ParallelPools.AllEdgeTokens` | src/liquidity.rs:1287-1303 | scanning all edges gives every token of every pool |
| `ParallelPools.UnaffectedTrackTheSame` | src/live_graph.rs:643-658 | outside the changed pools and their neighbours before and after, the tracked tokens are the same |
| `Liquidity.PoolLiquidityIndex.PushTarget` | src/liquidity.rs:778-815 | reuses the newest tombstone, appends only without one, and keeps all reverse maps exact |
| `Liquidity.PoolLiquidityIndex.RemovePoolTargets` | src/liquidity.rs:1039-1062 | removes exactly the pool's entries, each slot goes once onto the free list, all maps stay exact |
| `Liquidity.InverseDrops` | src/liquidity.rs:1175-1189 | dropping one position keeps a reverse map exact and without empty lists |
| `Liquidity.PoolLiquidityIndex.UpdateSlotValue` | src/liquidity.rs:976-993 | a storage write makes fresh exactly the active targets read from that word, a token's own balance slot as the whole value and a vault's word as its low or high 112 bits, changes nothing else, and returns how many there are |
| `Liquidity.PoolLiquidityIndex.SetErc20Slot` | src/liquidity.rs:937-955 | ties exactly the active balances of that token at that holder to the slot; the indexes stay exact if and only if none had a different slot |
| `Liquidity.CashFields` | src/liquidity.rs:1311-1318 | the two 112-bit cash fields of a vault word are recovered whatever lies above them |
| `Liquidity.ReassignmentExample` | src/liquidity.rs:937-955 | an index in which, after a second discovery, the old word still lists the target and the invariant is broken |
| `Reconcile.Refreshed` | src/liquidity.rs:1100-1117 | an entry is carried over whole while the registration keeps the balance in the same place, discovered slot included; otherwise it starts over unknown |
| `Reconcile.ReconcilePool` | src/liquidity.rs:443-510 | redoes exactly one pool's entries from its registration, carrying balances over where the source agrees |
| `Reconcile.ReconcilePools` | src/liquidity.rs:426-513 | redoes exactly the selected pools' entries and token counts, everything else is untouched; every redone balance is where its registration says, field by field, and a known balance or slot is one it had before |
| `Reconcile.FreshSurvives` | src/liquidity.rs:426-513 | a Fresh balance survives only under the same pool and token with the same source |
| `Reconcile.FromRegistry` | src/liquidity.rs:319-409 | a fresh index holds exactly the balances graph and registry ask for, each where its registration says, field by field, none known yet, and the token counts of the pools it tracks |
| `LiveGraph.LiveAmmGraph.FromSnapshot` | src/live_graph.rs:210-232 | index, graph and tracked balances are those of the snapshot, or a pool does not resolve |
| `LiveGraph.IndexMeans` | src/live_graph.rs:597-620 | a pool is in an exact index if and only if the snapshot has an indexable registration for it, with the snapshot's instance and revision and all the tokens it names; a pool fails to resolve exactly without its registration, or without its revision while indexable |
| `LiveGraph.LiveAmmGraph.ComputeDeltas` | src/live_graph.rs:399-427 | the deltas are exactly the listed pools whose entries differ, and the impact is none exactly if no instance or token list changed |
| `LiveGraph.LocalizedExact` | src/live_graph.rs:405-431 | the impact is localized exactly when the pool table changes |
| `LiveGraph.LiveAmmGraph.AffectedPools` | src/live_graph.rs:643-658 | exactly the changed pools and, where parallel pools matter, their neighbours before or after |
| `LiveGraph.AffectedSuffice` | src/live_graph.rs:469-482 | reconciling the affected pools makes the tracked keys of all pools right |
| `LiveGraph.SourcesAfter` | src/live_graph.rs:469-482 | after reconciling the pools that the two indexes and the scope single out, the tracked sources match the registrations if and only if all other tracked balances are kept where they were |
| `LiveGraph.VaultMoveLeftBehind` | src/live_graph.rs:235-256 | a live graph built from a snapshot accepts a commit that gives a vault pool another vault, and its tracked sources no longer match the registrations |
| `LiveGraph.StableHoldingsKeepSources` | src/live_graph.rs:387-482 | if balances move only together with a pool's instance or tokens, the tracked sources keep matching the registrations |
| `LiveGraph.LiveAmmGraph.ApplySnapshotChanges` | src/live_graph.rs:387-499 | the incremental step reaches the snapshot or changes nothing; nothing shared with readers is written |
| `LiveGraph.LiveAmmGraph.ReconcileSnapshot` | src/live_graph.rs:259-283 | the recovery step reaches a newer snapshot or changes nothing |
| `LiveGraph.LiveAmmGraph.ApplyCommit` | src/live_graph.rs:235-256 | a commit is accepted only if it is the next version of the same runtime, and then whenever every pool resolves and the version counter has room; a rejected commit changes nothing and its error says what is wrong; the version advances, by one, exactly when an instance or token list changed; the delta tells the truth; the tracked sources match afterwards if and only if no balance outside the redone pools moved |
| `LiveGraph.FollowCommits` | src/live_graph.rs:235-256 | after any run of commits that list their changes the live graph is on the last accepted snapshot; it stops only at a commit that is not the next version, does not resolve or finds the version counter exhausted, so contiguous resolvable commits are all applied; sources match while balances move only with instance or tokens |
| `LiveGraph.IncrementalEqualsRebuild` | src/live_graph.rs:210-256 | two live graphs on one snapshot agree in index, pools, tokens, hops and tracked balances, however they got there, and in where these are kept when both match the registrations |
| `GraphIndexes.UpdateTokenCounts` | sidecar/src/graph_index.rs:182-206 | one step per token; succeeds if and only if every token is counted where it is removed and has room where it is added |
| `GraphIndexes.EdgeCountIsTotal` | sidecar/src/graph_index.rs:38-44 | the graph's edge count is the sum of n(n-1) over its pools |
| `GraphIndexes.GraphIndex.FromGraph` | sidecar/src/graph_index.rs:21-45 | the scan recovers the graph's pool table, its edge count and the per-token pool counts without zeros |
| `GraphIndexes.GraphIndex.ApplyDelta` | sidecar/src/graph_index.rs:60-141 | stale deltas are ignored; starting from a table in range, a delta is applied if and only if it is the next version, fits the table and every counter of every staged table is in range, and then gives the counters of the changed table; every error is the true one and leaves the index alone |
| `GraphIndexes.LiveDeltasFit` | sidecar/src/graph_index.rs:77-118 | the live graph's deltas fit the index of its old table and lead to its new one |
| `GraphIndexes.FollowCommit` | sidecar/src/graph_index.rs:60-141 | a commit and its delta keep graph and sidecar in step; starting from a table in range, the sidecar fails if and only if a counter of a staged table is out of range |
| `GraphIndexes.FollowCommits` | sidecar/src/graph_index.rs:60-141 | after any run of commits the sidecar has the live graph's table and version; it stops only at a commit the live graph refuses or at a counter out of range, and follows all contiguous resolvable commits whose tables leave room |
| `GraphIndexes.RoomyIsInRange` | sidecar/src/graph_index.rs:77-118 | if the tables before and after a commit leave room together, no staged table in between can push a counter out of range |
| `GraphIndexes.DeltasEqualScan` | sidecar/src/graph_index.rs:21-141 | counters maintained by deltas equal those of a scan of the same table |
| `PackedRoute.EncodePackedRoute` | src/demo_router.rs:788-874 | the buffer loop produces the output token and then each hop's bytes, or names the first hop that cannot be packed and why |
| `PackedRoute.WireOf` | src/demo_router.rs:788-887 | for every kind of hop the protocol byte, the ranges of the three addresses and of what the protocol adds, and the big-endian words |
| `PackedRoute.EncodableIffSupported` | src/demo_router.rs:788-874 | encoding succeeds if and only if every variant, offset and length is in range |
| `PackedRoute.RouteRoundTrip` | src/demo_router.rs:788-887 | the decoder recovers the route if and only if no hop has spender zero or offset 2^32 - 1 |
| `PackedRoute.SharedBytes` | src/demo_router.rs:788-887 | two routes share bytes if and only if they agree up to those two values |
| `PackedRoute.AmbiguousSpender` | src/demo_router.rs:857-866 | two different routes with the same bytes |

## Left out

- Adapter arithmetic, swap simulation, EVM caches and overlays: one deterministic quote function stands for them.
- Threads, channels, watch and broadcast delivery: present only as atomic steps; lost or lagging observers are not modelled.
- Heuristic choices (beam width, edge limits and shortlists, refinement, fast lane, connector scoring, liquidity ranking): in a streamed search the heuristic phase is an arbitrary producer of true quotes of admissible paths. The fast lane itself does not check visited tokens (src/search.rs:3474-3517), so its paths are admissible only when the two tokens of the request differ.
- PrunedSearch.SearchPruned: one pass without beam, edge limits, candidate cap or stopping callback, because those drop routes by choice; edges are followed in any order.
- RouteWorker.RunJob: takes the search's panic as a parameter and assumes that the results channel stays open, because nobody reads an answer after it closed.
- StreamSearch.StreamRoutes: claims the maximum only without a candidate cap, because with a cap the code reports Exhaustive after evaluating the capped candidates.
- PrefixDominance.PruningKeepsBestAmount: assumes pools monotone in their input, because the code relies on it.
- RouteSession.RouteSearchSession.RefreshAffected: exact only for callbacks that continue, because a stop leaves routes unrequoted; graph version and state point checks are one parameter.
- LiveRoutes.QuiescentIsCurrent: says of subscriptions whose 64-bit job numbers are used up only that they are dirty, because the code drops them from the queue.
- LiveGraph.IncrementalEqualsRebuild: compares where balances are kept only while both graphs match the registrations, because a commit can leave a source behind (the exact condition is in the step contract).
- Input priorities between commits and other inputs, shutdown, terminal failure, sequence numbers, triggers and observer events of the live route actor: bookkeeping around the modelled steps.
- Cycle requests and batch requests over the same enumeration and cache: they add no new mechanism.
- Estimated-rate pruning: disabled by default.
- Asynchronous balance refresh, slot discovery and transfer logs: they depend on provider data.
- Tallies in liquidity reports: plain counters with no further promise.
- Graph lineage numbers and panics on exhausted graph versions: counters are assumed not to overflow, except where the code returns an error.
- HTTP, configuration and coverage code of the sidecar; gas simulation, calldata and bytecode of the demo router.
