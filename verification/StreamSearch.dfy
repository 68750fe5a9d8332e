/** A whole streamed search: heuristic quotes first, then the deduplicated exhaustive remainder
    quoted by workers whose messages arrive in any order. */
module StreamSearch {
  import opened Routing
  import opened PathEnumeration
  import QuoteDag
  import Ranking
  import opened StreamState

  /** What the heuristic phase did: the complete quotes it produced, in order, how it ended, and the
      hop outcomes it left in the shared cache.
      Nothing is assumed about which admissible paths it tried. */
  datatype HeuristicRun = HeuristicRun(quotes: seq<RouteQuote>, failed: nat, errored: bool, capped: bool, table: QuoteDag.QuoteTable)

  datatype StreamError = Rejected(error: SearchError) | HeuristicFailed | NoRoute | NoViableRoute

  /** `x` is the true quote of an admissible path. */
  ghost predicate TrueQuote(q: Query, f: Quoter, amountIn: nat, x: RouteQuote) {
    q.Admissible(x.path) && QuotePathSpec(f, x.path, amountIn) == Success(x)
  }

  ghost predicate AllTrue(q: Query, f: Quoter, amountIn: nat, xs: seq<RouteQuote>) {
    forall x :: x in xs ==> TrueQuote(q, f, amountIn, x)
  }

  /** No admissible path returns more than `best`, and some admissible path returns exactly that. */
  ghost predicate IsMaximum(q: Query, f: Quoter, amountIn: nat, best: RouteQuote) {
    && TrueQuote(q, f, amountIn, best)
    && forall p :: q.Admissible(p) && QuotePathSpec(f, p, amountIn).Success? ==>
         QuotePathSpec(f, p, amountIn).value.amountOut <= best.amountOut
  }

  ghost predicate NothingViable(q: Query, f: Quoter, amountIn: nat) {
    forall p :: q.Admissible(p) ==> QuotePathSpec(f, p, amountIn).Failure?
  }

  lemma TrueQuotesDetermine(q: Query, f: Quoter, amountIn: nat, xs: seq<RouteQuote>)
    requires AllTrue(q, f, amountIn, xs)
    ensures Ranking.PathDetermines(xs)
  {
    hide Query.Admissible, QuotePathSpec;
    assert forall i :: 0 <= i < |xs| ==> xs[i] in xs;
  }

  // ---- worker chunks ----

  /** The paths at positions `c`, `c + workers`, `c + 2 * workers`, ..., in order. */
  ghost function Share(paths: seq<Path>, workers: nat, c: nat): (share: seq<Path>)
    requires workers > 0
    ensures forall p :: p in share ==> p in paths
  {
    if paths == [] then []
    else
      var n := |paths| - 1;
      Share(paths[..n], workers, c) + (if n % workers == c then [paths[n]] else [])
  }

  lemma {:induction false} SharesCover(paths: seq<Path>, workers: nat, i: nat)
    requires workers > 0 && i < |paths|
    ensures paths[i] in Share(paths, workers, i % workers)
  {
    if i < |paths| - 1 { SharesCover(paths[..|paths| - 1], workers, i); }
  }

  /** Deal the paths to the workers in turn: each worker gets its share, in order and once. */
  method SplitPaths(paths: seq<Path>, workers: nat) returns (chunks: seq<seq<Path>>)
    requires workers > 0
    ensures |chunks| == workers && forall c :: 0 <= c < workers ==> chunks[c] == Share(paths, workers, c)
    ensures Left(chunks) == |paths|
    ensures forall i :: 0 <= i < |paths| ==> paths[i] in chunks[i % workers]
  {
    chunks := seq(workers, _ => []);
    NothingLeft(chunks);
    for i := 0 to |paths|
      invariant Left(chunks) == i
      invariant |chunks| == workers && forall c :: 0 <= c < workers ==> chunks[c] == Share(paths[..i], workers, c)
    {
      assert paths[..i + 1][..i] == paths[..i];
      var c := i % workers;
      LeftUpdated(chunks, c, chunks[c] + [paths[i]]);
      chunks := chunks[c := chunks[c] + [paths[i]]];
    }
    assert paths[..|paths|] == paths;
    forall i | 0 <= i < |paths| ensures paths[i] in chunks[i % workers] { SharesCover(paths, workers, i); }
  }

  /** A table of hop outcomes without a wrong entry. */
  ghost predicate TrueTable(f: Quoter, table: QuoteDag.QuoteTable) {
    forall k :: k in table ==> table[k] == f(k.0, k.1)
  }

  ghost function PoolsOf(paths: seq<Path>): set<Pool> {
    set p, h | p in paths && h in p :: h.pool
  }

  /** One worker's share, quoted to the end through the shared table of hop outcomes. */
  method QuoteChunk(f: Quoter, chunk: seq<Path>, amountIn: nat, table: QuoteDag.QuoteTable)
    returns (quotes: seq<RouteQuote>, failures: nat, next: QuoteDag.QuoteTable)
    requires TrueTable(f, table)
    ensures forall x :: x in quotes ==> x.path in chunk && QuotePathSpec(f, x.path, amountIn) == Success(x)
    ensures QuoteDag.CoversViable(f, amountIn, chunk, quotes) && TrueTable(f, next)
    ensures |quotes| + failures == |chunk|
  {
    ghost var scope := PoolsOf(chunk);
    forall p | p in chunk ensures Pools(p) <= scope {
    }
    var r, requests := QuoteDag.QuotePathList(f, chunk, amountIn, table, _ => true, _ => true, scope);
    quotes, failures, next := r.quotes, |r.failures|, r.cache;
    QuoteDag.ReportCovers(f, chunk, amountIn, r);
    EachOnce(f, chunk, amountIn, r);
  }

  /** Every path of an unstopped report is a quote or a failure. */
  lemma EachOnce(f: Quoter, paths: seq<Path>, amountIn: nat, r: QuoteDag.Report)
    requires QuoteDag.ReportOk(f, paths, amountIn, r) && !r.stopped
    ensures |r.quotes| + |r.failures| == |paths|
  {
    hide QuotePathSpec;
    var a, b := QuoteDag.QuotePaths(r.quotes), QuoteDag.FailurePaths(r.failures);
    assert |multiset(a) + multiset(b)| == |a| + |b| && |multiset(paths)| == |paths|;
  }

  ghost predicate Waiting(streams: seq<seq<RouteQuote>>, x: RouteQuote) {
    exists c :: 0 <= c < |streams| && x in streams[c]
  }

  ghost predicate StreamsTrue(q: Query, f: Quoter, amountIn: nat, streams: seq<seq<RouteQuote>>) {
    forall c :: 0 <= c < |streams| ==> AllTrue(q, f, amountIn, streams[c])
  }

  /** Viable paths are observed already or still on their way. */
  ghost predicate OnTheWay(f: Quoter, amountIn: nat, paths: seq<Path>, seen: seq<RouteQuote>, streams: seq<seq<RouteQuote>>) {
    forall p :: p in paths && QuotePathSpec(f, p, amountIn).Success? ==>
      var x := QuotePathSpec(f, p, amountIn).value;
      x in seen || Waiting(streams, x)
  }

  /** How many elements the sequences hold together. */
  ghost function Left<T>(streams: seq<seq<T>>): nat {
    if streams == [] then 0 else |streams[0]| + Left(streams[1..])
  }

  lemma {:induction false} LeftUpdated<T>(streams: seq<seq<T>>, c: nat, s: seq<T>)
    requires c < |streams|
    ensures Left(streams[c := s]) == Left(streams) - |streams[c]| + |s|
  {
    if c > 0 {
      LeftUpdated(streams[1..], c - 1, s);
      assert streams[c := s][1..] == streams[1..][c - 1 := s];
    } else {
      assert streams[0 := s][1..] == streams[1..];
    }
  }

  lemma {:induction false} NothingLeft<T>(streams: seq<seq<T>>)
    requires forall c :: 0 <= c < |streams| ==> streams[c] == []
    ensures Left(streams) == 0
  {
    if streams != [] { NothingLeft(streams[1..]); }
  }

  lemma {:induction false} LeftPushed<T>(streams: seq<seq<T>>, s: seq<T>)
    ensures Left(streams + [s]) == Left(streams) + |s|
  {
    if streams == [] {
      assert streams + [s] == [s] && [s][1..] == [];
    } else {
      assert (streams + [s])[1..] == streams[1..] + [s];
      LeftPushed(streams[1..], s);
    }
  }

  /** Run the workers, then hand their messages to the coordinator in an arbitrary interleaving that
      keeps each worker's own order. */
  method QuoteAndStream(st: StreamingRouteState, q: Query, f: Quoter, paths: seq<Path>, amountIn: nat, workers: nat, table: QuoteDag.QuoteTable)
    returns (stopped: bool, failures: nat, next: QuoteDag.QuoteTable)
    requires TrueTable(f, table)
    requires st.Valid() && AllTrue(q, f, amountIn, st.seen) && workers > 0
    requires forall p :: p in paths ==> q.Admissible(p)
    modifies st
    ensures st.Valid() && AllTrue(q, f, amountIn, st.seen) && st.total == old(st.total) && TrueTable(f, next)
    ensures old(st.seen) <= st.seen && old(st.events) <= st.events
    ensures !stopped ==> QuoteDag.CoversViable(f, amountIn, paths, st.seen) && st.stopFinality == old(st.stopFinality)
    ensures !stopped ==> |st.seen| + failures == |old(st.seen)| + |paths| && st.failedCandidates == old(st.failedCandidates)
    ensures stopped ==> st.StopJustified()
  {
    var chunks := SplitPaths(paths, workers);
    var streams: seq<seq<RouteQuote>>;
    streams, failures, next := RunWorkers(q, f, paths, chunks, amountIn, table);
    stopped := false;
    hide Query.Admissible, QuotePathSpec, StreamingRouteState.Valid;
    StartOnTheWay(f, amountIn, paths, chunks, st.seen, streams);
    while exists c :: 0 <= c < |streams| && streams[c] != []
      invariant st.Valid() && AllTrue(q, f, amountIn, st.seen) && st.total == old(st.total)
      invariant old(st.seen) <= st.seen && old(st.events) <= st.events
      invariant StreamsTrue(q, f, amountIn, streams)
      invariant OnTheWay(f, amountIn, paths, st.seen, streams)
      invariant st.stopFinality == old(st.stopFinality) && st.failedCandidates == old(st.failedCandidates)
      invariant |st.seen| + Left(streams) + failures == |old(st.seen)| + |paths|
      decreases Left(streams)
    {
      var c :| 0 <= c < |streams| && streams[c] != [];
      var x := streams[c][0];
      ghost var seen0 := st.seen;
      Arrive(q, f, amountIn, paths, st.seen, streams, c);
      TrueQuotesDetermine(q, f, amountIn, st.seen + [x]);
      LeftUpdated(streams, c, streams[c][1..]);
      streams := streams[c := streams[c][1..]];
      var go := st.ObserveQuote(Exhaustive, x);
      if !go {
        stopped := true;
        return;
      }
    }
    Delivered(f, amountIn, paths, st.seen, streams);
    NothingLeft(streams);
  }

  lemma Delivered(f: Quoter, amountIn: nat, paths: seq<Path>, seen: seq<RouteQuote>, streams: seq<seq<RouteQuote>>)
    requires OnTheWay(f, amountIn, paths, seen, streams)
    requires forall c :: 0 <= c < |streams| ==> streams[c] == []
    ensures QuoteDag.CoversViable(f, amountIn, paths, seen)
  {
  }

  lemma Arrive(q: Query, f: Quoter, amountIn: nat, paths: seq<Path>, seen: seq<RouteQuote>, streams: seq<seq<RouteQuote>>, c: nat)
    requires AllTrue(q, f, amountIn, seen) && StreamsTrue(q, f, amountIn, streams)
    requires c < |streams| && streams[c] != [] && OnTheWay(f, amountIn, paths, seen, streams)
    ensures AllTrue(q, f, amountIn, seen + [streams[c][0]])
    ensures StreamsTrue(q, f, amountIn, streams[c := streams[c][1..]])
    ensures OnTheWay(f, amountIn, paths, seen + [streams[c][0]], streams[c := streams[c][1..]])
  {
    hide TrueQuote, QuotePathSpec;
    var x0 := streams[c][0];
    var streams' := streams[c := streams[c][1..]];
    assert streams[c] == [x0] + streams[c][1..];
    forall x | x in seen || Waiting(streams, x) ensures x in seen + [x0] || Waiting(streams', x) {
      if x !in seen && x != x0 {
        var d :| 0 <= d < |streams| && x in streams[d];
        assert x in streams'[d];
      }
    }
  }

  lemma StartOnTheWay(f: Quoter, amountIn: nat, paths: seq<Path>, chunks: seq<seq<Path>>, seen: seq<RouteQuote>, streams: seq<seq<RouteQuote>>)
    requires |streams| == |chunks| > 0
    requires forall i :: 0 <= i < |paths| ==> paths[i] in chunks[i % |chunks|]
    requires forall c :: 0 <= c < |chunks| ==> QuoteDag.CoversViable(f, amountIn, chunks[c], streams[c])
    ensures OnTheWay(f, amountIn, paths, seen, streams)
  {
  }

  method RunWorkers(q: Query, f: Quoter, ghost paths: seq<Path>, chunks: seq<seq<Path>>, amountIn: nat, table: QuoteDag.QuoteTable)
    returns (streams: seq<seq<RouteQuote>>, failures: nat, next: QuoteDag.QuoteTable)
    requires TrueTable(f, table)
    requires forall p :: p in paths ==> q.Admissible(p)
    requires forall c :: 0 <= c < |chunks| ==> forall p :: p in chunks[c] ==> p in paths
    ensures |streams| == |chunks| && StreamsTrue(q, f, amountIn, streams) && TrueTable(f, next)
    ensures forall c :: 0 <= c < |chunks| ==> QuoteDag.CoversViable(f, amountIn, chunks[c], streams[c])
    ensures Left(streams) + failures == Left(chunks)
  {
    hide Query.Admissible, QuotePathSpec, QuoteDag.CoversViable;
    streams, failures, next := [], 0, table;
    for i := 0 to |chunks|
      invariant |streams| == i && StreamsTrue(q, f, amountIn, streams) && TrueTable(f, next)
      invariant forall c :: 0 <= c < i ==> QuoteDag.CoversViable(f, amountIn, chunks[c], streams[c])
      invariant Left(streams) + failures == Left(chunks[..i])
    {
      assert chunks[..i + 1] == chunks[..i] + [chunks[i]];
      LeftPushed(chunks[..i], chunks[i]);
      var quotes, failed, grown := QuoteChunk(f, chunks[i], amountIn, next);
      next := grown;
      assert AllTrue(q, f, amountIn, quotes);
      LeftPushed(streams, quotes);
      streams := streams + [quotes];
      failures := failures + failed;
    }
    assert chunks[..|chunks|] == chunks;
  }

  // ---- the whole run ----

  /** Every viable admissible path has been observed. */
  ghost predicate AllObserved(q: Query, f: Quoter, amountIn: nat, seen: seq<RouteQuote>) {
    forall p :: q.Admissible(p) && QuotePathSpec(f, p, amountIn).Success? ==> QuotePathSpec(f, p, amountIn).value in seen
  }

  function PathsIn(quotes: seq<RouteQuote>): set<Path> {
    set x | x in quotes :: x.path
  }

  /** The remainder the heuristic phase left, plus what it observed, is everything. */
  lemma RemainderCompletes(q: Query, f: Quoter, amountIn: nat, heuristic: seq<RouteQuote>, e: RouteEnumeration, seen: seq<RouteQuote>)
    requires EnumerationOk(q, PathsIn(heuristic), None, e) && !e.stopped
    requires AllTrue(q, f, amountIn, heuristic) && heuristic <= seen
    requires QuoteDag.CoversViable(f, amountIn, e.paths, seen)
    ensures AllObserved(q, f, amountIn, seen)
  {
  }

  /** When everything has been observed, the head of the ranking is the exhaustive maximum. */
  lemma BestIsMaximum(q: Query, f: Quoter, amountIn: nat, seen: seq<RouteQuote>, top: seq<RouteQuote>, k: nat)
    requires k > 0 && Ranking.TopK(top, seen, k) && top != []
    requires AllTrue(q, f, amountIn, seen) && AllObserved(q, f, amountIn, seen)
    ensures IsMaximum(q, f, amountIn, top[0])
  {
    hide QuotePathSpec, Query.Admissible;
    assert top[0] in seen;
    forall x | x in seen ensures x.amountOut <= top[0].amountOut {
      var j :| 0 <= j < |seen| && seen[j] == x;
      assert Ranking.Beaten(top, k, seen[j]);
    }
  }

  lemma NothingObserved(q: Query, f: Quoter, amountIn: nat, seen: seq<RouteQuote>)
    requires AllObserved(q, f, amountIn, seen) && seen == []
    ensures NothingViable(q, f, amountIn)
  {
  }

  /** What a finished run promises, whatever the callback, the policies and the interleaving did. */
  ghost predicate RunOk(q: Query, f: Quoter, amountIn: nat, r: Result<Report, StreamError>, completion: Completion) {
    && (r.Success? && r.value.finality == ExhaustiveDone && q.cfg.maxCandidates.None? ==>
          r.value.best.Some? && IsMaximum(q, f, amountIn, r.value.best.value))
    && (r.Failure? && !r.error.Rejected? && completion == ExhaustiveCompletion && q.cfg.maxCandidates.None? ==>
          NothingViable(q, f, amountIn))
    && (r.Failure? && r.error.Rejected? ==> Refused(q, r.error.error))
    && (r.Failure? && completion != ExhaustiveCompletion ==> r.error.Rejected? || r.error.HeuristicFailed?)
  }

  /** Why a request is refused before anything is searched. */
  predicate Refused(q: Query, e: SearchError) {
    match e
    case InvalidConfig => q.cfg.minHops == 0 || q.cfg.maxHops < q.cfg.minHops || q.cfg.maxCandidates == Some(0)
    case TokenNotFound(t) => q.cfg.Valid() && t !in q.g && t == (if q.tokenIn !in q.g then q.tokenIn else q.tokenOut)
    case NoPath => false
  }

  /** A request that nobody cuts short and that has an answer. */
  ghost predicate Answerable(q: Query, f: Quoter, amountIn: nat, config: Config, control: nat -> bool, poll: nat -> bool) {
    && NeverStopped(config, control, poll) && q.cfg.maxCandidates.None? && config.completion == ExhaustiveCompletion
    && q.cfg.Valid() && q.tokenIn in q.g && q.tokenOut in q.g && !NothingViable(q, f, amountIn)
  }

  /** An accepted request fails only without a single heuristic quote, and blames the heuristic phase only
      if that erred. */
  ghost predicate HeuristicBlamed(r: Result<Report, StreamError>, run: HeuristicRun) {
    r.Failure? && !r.error.Rejected? ==> run.quotes == [] && (r.error.HeuristicFailed? ==> run.errored)
  }

  /** The heuristic quotes are observed first, in order and, unless somebody stops the run, all of them. */
  ghost predicate HeuristicFirst(run: HeuristicRun, quotes: seq<RouteQuote>) {
    quotes <= run.quotes || run.quotes <= quotes
  }

  /** What a run that nobody stops makes of the heuristic quotes: it observes them all; a run that does not
      go on to the exhaustive phase observes nothing else, and fails exactly if the heuristic phase erred
      with nothing to show. */
  ghost predicate Delivers(completion: Completion, run: HeuristicRun, r: Result<Report, StreamError>, quotes: seq<RouteQuote>) {
    && run.quotes <= quotes
    && (completion != ExhaustiveCompletion ==>
          && quotes == run.quotes && (r.Success? ==> Ranking.LargestOf(run.quotes, r.value.best))
          && (r.Failure? <==> run.errored && run.quotes == []))
  }

  /** The report counts every candidate once: the viable ones are the quotes observed, and a completed
      exhaustive run has evaluated exactly its universe. */
  ghost predicate Evaluated(r: Report, viable: nat) {
    && r.progress.viable == viable && r.progress.evaluated == r.progress.viable + r.progress.failed
    && (r.finality == ExhaustiveDone && r.progress.total.Some? ==> r.progress.total == Some(r.progress.evaluated))
  }

  /** A run that nobody stops and that ends with the heuristic phase counts that phase's failures, if it got
      to report them. */
  ghost predicate Tallied(config: Config, control: nat -> bool, poll: nat -> bool, run: HeuristicRun, r: Report) {
    NeverStopped(config, control, poll) && config.completion != ExhaustiveCompletion ==>
      r.progress.total.None? && r.progress.failed == if run.errored then 0 else run.failed
  }

  /** A run that was not stopped tells its report last. */
  ghost predicate Closed(events: seq<Event>, r: Result<Report, StreamError>) {
    r.Success? && r.value.finality != Stopped ==> events != [] && events[|events| - 1] == Completed(r.value)
  }

  /** The observed quotes are true quotes of admissible paths and the reported best is a largest of them. */
  ghost predicate Supplies(q: Query, f: Quoter, amountIn: nat, quotes: seq<RouteQuote>, r: Report) {
    AllTrue(q, f, amountIn, quotes) && Ranking.LargestOf(quotes, r.best)
  }

  lemma BestIsLargest(st: StreamingRouteState)
    requires st.RankOk()
    ensures Ranking.LargestOf(st.seen, st.best)
  {
    Ranking.HeadIsLargest(st.topRoutes, st.seen, st.config.topK);
  }

  function Answer(r: Result<Report, StreamError>): Option<Report> { if r.Success? then Some(r.value) else None }

  lemma ReportIsCertain(events: seq<Event>, config: Config, control: nat -> bool, r: Report)
    requires Disciplined(events, config, control, Some(r))
    ensures r.progress.confidence == 10_000 <==> r.finality == ExhaustiveDone && r.best.Some?
  {
  }

  /** Nobody asks the run to stop. */
  ghost predicate NeverStopped(config: Config, control: nat -> bool, poll: nat -> bool) {
    config.stopPolicy.None? && Undisturbed(control, poll)
  }

  /** Every event is accepted and every cancellation check passes. */
  ghost predicate Undisturbed(control: nat -> bool, poll: nat -> bool) {
    (forall i :: control(i)) && (forall i :: poll(i))
  }

  /** Each way to end has its cause. */
  ghost predicate Explained(config: Config, control: nat -> bool, poll: nat -> bool, capped: bool, finality: Finality) {
    match finality
    case ExhaustiveDone => config.completion == ExhaustiveCompletion
    case FastLaneOnly => config.completion == FastLaneExhausted
    case HeuristicOnly => config.completion == HeuristicExhausted
    case StopPolicySatisfied => config.stopPolicy.Some?
    case Stopped => capped || !Undisturbed(control, poll)
  }

  /** The callback accepts the `n` events from index `from` on. */
  ghost predicate Accepts(control: nat -> bool, from: nat, n: nat) {
    forall i :: from <= i < from + n ==> control(i)
  }

  /** A request that will announce certainty and take it back: the gate waits for certainty, the
      heuristic phase already quotes every admissible path, nobody interferes, and the callback stops
      on one event: the sixth after the heuristic quotes, which releases the results. */
  ghost predicate Trapped(q: Query, config: Config, control: nat -> bool, poll: nat -> bool, run: HeuristicRun) {
    && Hushed(config) && config.completion == ExhaustiveCompletion && q.cfg.Valid() && q.cfg.maxCandidates.None?
    && q.tokenIn in q.g && q.tokenOut in q.g
    && FindsAll(q, run) && run.failed == 0 && !run.capped
    && (forall i :: poll(i)) && (forall i: nat :: control(i) <==> i != |run.quotes| + 5)
  }

  ghost predicate FindsAll(q: Query, run: HeuristicRun) {
    run.quotes != [] && forall p :: q.Admissible(p) ==> p in PathsIn(run.quotes)
  }

  /** Certainty was announced and withdrawn. */
  ghost predicate Trap(r: Result<Report, StreamError>, events: seq<Event>, control: nat -> bool) {
    r.Success? && r.value.finality == Stopped && CertaintyWithdrawn(events, control)
  }

  ghost predicate LeadsToTrap(config: Config, control: nat -> bool, released: bool, n: nat, best: Option<RouteQuote>, e: RouteEnumeration) {
    Hushed(config) && !released && best.Some? && e.paths == [] && Accepts(control, n, 2) && !control(n + 2)
  }

  ghost predicate EndsInTrap(q: Query, config: Config, control: nat -> bool, poll: nat -> bool, run: HeuristicRun, released: bool, n: nat, best: Option<RouteQuote>) {
    && Hushed(config) && !released && best.Some? && FindsAll(q, run) && q.cfg.maxCandidates.None? && (forall i :: poll(i))
    && Accepts(control, n, 2) && !control(n + 2) && exists p :: q.Admissible(p)
  }

  /** Up to the exhaustive phase a trapped run goes on undisturbed. */
  lemma TrapAhead(q: Query, f: Quoter, amountIn: nat, config: Config, control: nat -> bool, poll: nat -> bool, run: HeuristicRun)
    requires AllTrue(q, f, amountIn, run.quotes)
    ensures Trapped(q, config, control, poll, run) ==>
              && config.gate.Some? && config.completion == ExhaustiveCompletion && q.cfg.Valid() && q.tokenIn in q.g && q.tokenOut in q.g
              && poll(0) && run.quotes != [] && run.failed == 0 && !run.capped && Hushed(config)
              && control(0) && Accepts(control, 1, |run.quotes| + 1) && control(|run.quotes| + 2)
              && forall best: Option<RouteQuote> :: best.Some? ==> EndsInTrap(q, config, control, poll, run, false, |run.quotes| + 3, best)
  {
    hide Query.Admissible, QuotePathSpec, Met;
    HeadIn(run.quotes);
  }

  /** Nothing is left to enumerate when the heuristic phase found everything. */
  lemma NothingRemains(q: Query, run: HeuristicRun, cap: Option<nat>, e: RouteEnumeration)
    requires EnumerationOk(q, PathsIn(run.quotes), cap, e)
    ensures FindsAll(q, run) ==> e.paths == []
  {
    HeadIn(e.paths);
  }

  /** A disciplined run that stopped and let confidence fall is a trap. */
  lemma Springs(events: seq<Event>, config: Config, control: nat -> bool, r: Report)
    requires Disciplined(events, config, control, Some(r)) && !ConfidenceRises(events) && r.finality == Stopped
    ensures Trap(Success(r), events, control)
  {
  }

  /** Observe the heuristic quotes until the callback or a policy stops the run. */
  method ObserveHeuristic(st: StreamingRouteState, q: Query, f: Quoter, amountIn: nat, quotes: seq<RouteQuote>) returns (stopped: bool)
    requires st.Valid() && st.seen == [] && AllTrue(q, f, amountIn, quotes)
    modifies st
    ensures st.Valid() && AllTrue(q, f, amountIn, st.seen) && st.total == old(st.total) && old(st.events) <= st.events
    ensures st.failedCandidates == old(st.failedCandidates)
    ensures !stopped ==> st.seen == quotes && st.stopFinality == old(st.stopFinality)
    ensures st.seen <= quotes && (stopped ==> st.StopJustified())
    ensures Hushed(st.config) && !old(st.released) && Accepts(st.control, |old(st.events)|, |quotes|) ==>
              !stopped && !st.released && |st.events| == |old(st.events)| + |quotes|
  {
    hide TrueQuote, StreamingRouteState.Valid;
    stopped := false;
    var i := 0;
    while i < |quotes|
      invariant 0 <= i <= |quotes|
      invariant st.Valid() && st.seen == quotes[..i] && st.total == old(st.total) && old(st.events) <= st.events
      invariant Hushed(st.config) && !old(st.released) ==> !st.released && |st.events| == |old(st.events)| + i
      invariant st.stopFinality == old(st.stopFinality) && st.failedCandidates == old(st.failedCandidates)
    {
      assert quotes[..i + 1] == quotes[..i] + [quotes[i]];
      TrueQuotesDetermine(q, f, amountIn, quotes[..i + 1]);
      var go := st.ObserveQuote(Heuristic, quotes[i]);
      i := i + 1;
      if !go {
        stopped := true;
        return;
      }
    }
    assert quotes[..i] == quotes;
  }

  /** The heuristic phase and its closing progress report. */
  method HeuristicPhase(st: StreamingRouteState, q: Query, f: Quoter, amountIn: nat, run: HeuristicRun) returns (stopped: bool)
    requires st.Valid() && st.seen == [] && AllTrue(q, f, amountIn, run.quotes) && st.total.None?
    modifies st
    ensures st.Valid() && AllTrue(q, f, amountIn, st.seen) && st.total.None? && old(st.events) <= st.events
    ensures !stopped ==> st.seen == run.quotes && st.stopFinality == old(st.stopFinality)
    ensures st.seen <= run.quotes && (st.seen == run.quotes || st.StopJustified())
    ensures st.StopJustified() || st.failedCandidates == old(st.failedCandidates) + (if run.errored then 0 else run.failed)
    ensures stopped ==> (run.capped && !run.errored && st.stopFinality == old(st.stopFinality)) || st.StopJustified()
    ensures Hushed(st.config) && !old(st.released) && run.failed == 0 && !run.capped && Accepts(st.control, |old(st.events)|, |run.quotes| + 1) ==>
              !stopped && !st.released && |st.events| == |old(st.events)| + |run.quotes| + 1
  {
    hide TrueQuote, StreamingRouteState.Valid;
    stopped := ObserveHeuristic(st, q, f, amountIn, run.quotes);
    if stopped || !run.errored {
      var go := st.ObserveFailedCandidates(Heuristic, run.failed);
      stopped := stopped || !go || run.capped;
    }
    if !stopped {
      var go := st.FinishHeuristicPhase();
      stopped := !go;
    }
  }

  /** Stream a request. `poll` answers the owner's cancellation checks. */
  method StreamRoutes(q: Query, f: Quoter, amountIn: nat, config: Config, control: nat -> bool, poll: nat -> bool, run: HeuristicRun)
    returns (r: Result<Report, StreamError>, events: seq<Event>, quotes: seq<RouteQuote>, table: QuoteDag.QuoteTable)
    requires WellFormed(q.g) && !q.revisit && config.topK > 0 && config.workers > 0
    requires AllTrue(q, f, amountIn, run.quotes) && (q.cfg.maxCandidates.None? ==> !run.capped)
    requires TrueTable(f, run.table)
    ensures TrueTable(f, table)
    ensures Trapped(q, config, control, poll, run) ==> Trap(r, events, control)
    ensures RunOk(q, f, amountIn, r, config.completion)
    ensures Disciplined(events, config, control, Answer(r))
    ensures r.Success? ==> (r.value.progress.confidence == 10_000 <==> r.value.finality == ExhaustiveDone && r.value.best.Some?)
    ensures r.Success? ==> Supplies(q, f, amountIn, quotes, r.value) && Evaluated(r.value, |quotes|) && Tallied(config, control, poll, run, r.value)
    ensures HeuristicBlamed(r, run) && HeuristicFirst(run, quotes)
    ensures Closed(events, r) && (q.cfg.Valid() ==> events != [] && events[0] == Started)
    ensures NeverStopped(config, control, poll) && !(r.Failure? && r.error.Rejected?) ==> Delivers(config.completion, run, r, quotes)
    ensures Answerable(q, f, amountIn, config, control, poll) ==> r.Success? && r.value.finality == ExhaustiveDone && IsMaximum(q, f, amountIn, r.value.best.value)
    ensures r.Success? ==> Explained(config, control, poll, run.capped, r.value.finality)
  {
    hide TrueQuote, QuotePathSpec, Query.Admissible, WellFormed, StreamingRouteState.Valid, IsMaximum, NothingViable, AllObserved,
         EnumerationOk, Disciplined, StreamingRouteState.Trace, Ranking.LargestOf, Ranking.TopK, RankFits, Trap, Trapped, EndsInTrap, Hushed, TrueTable;
    TrapAhead(q, f, amountIn, config, control, poll, run);
    if !q.cfg.Valid() {
      EmptyTrace(config, control);
      return Failure(Rejected(InvalidConfig)), [], [], run.table;
    }
    var st := new StreamingRouteState(config, control);
    StartTrace(st);
    var go := st.Emit(Started);
    if !go {
      DisciplineOf(st);
      BestIsLargest(st);
      return Success(st.ReportFor(Stopped)), st.events, st.seen, run.table;
    }
    if q.tokenIn !in q.g || q.tokenOut !in q.g {
      DisciplineOf(st);
      return Failure(Rejected(TokenNotFound(if q.tokenIn !in q.g then q.tokenIn else q.tokenOut))), st.events, st.seen, run.table;
    }
    r, events, table := SearchPhases(st, q, f, amountIn, poll, run);
    quotes := st.seen;
    if r.Success? { ReportIsCertain(events, config, control, r.value); }
  }

  ghost predicate Counting(r: Report, viable: nat, failed: nat, total: Option<nat>) {
    r.progress.viable == viable && r.progress.failed == failed && r.progress.evaluated == viable + failed && r.progress.total == total
  }

  /** What every way to end an accepted run promises. */
  ghost predicate Settled(q: Query, f: Quoter, amountIn: nat, config: Config, control: nat -> bool, run: HeuristicRun, events: seq<Event>, seen: seq<RouteQuote>,
                          r: Result<Report, StreamError>) {
    && RunOk(q, f, amountIn, r, config.completion) && Disciplined(events, config, control, Answer(r)) && Closed(events, r)
    && (r.Success? ==> Supplies(q, f, amountIn, seen, r.value) && Evaluated(r.value, |seen|))
    && HeuristicBlamed(r, run) && (r.Failure? ==> !r.error.Rejected?)
  }

  /** End a run short of the exhaustive result. */
  method EndEarly(st: StreamingRouteState, q: Query, f: Quoter, amountIn: nat, run: HeuristicRun, finality: Finality, emitCompleted: bool)
    returns (r: Result<Report, StreamError>)
    requires st.Valid() && AllTrue(q, f, amountIn, st.seen) && finality != ExhaustiveDone && (emitCompleted <==> finality != Stopped)
    modifies st
    ensures r.Success? && (r.value.finality == finality || (r.value.finality == Stopped && exists i :: !st.control(i)))
    ensures Settled(q, f, amountIn, st.config, st.control, run, st.events, st.seen, r) && Ranking.LargestOf(st.seen, r.value.best)
    ensures st.seen == old(st.seen) && old(st.events) <= st.events && Counting(r.value, |st.seen|, old(st.failedCandidates), old(st.total))
  {
    hide TrueQuote, QuotePathSpec, Query.Admissible, StreamingRouteState.Valid, IsMaximum, NothingViable, Disciplined, Ranking.LargestOf, RankFits;
    var report := st.Finish(finality, emitCompleted);
    BestIsLargest(st);
    r := Success(report);
  }

  /** End a run whose universe has been evaluated. */
  method EndExhaustive(st: StreamingRouteState, q: Query, f: Quoter, amountIn: nat, run: HeuristicRun) returns (r: Result<Report, StreamError>)
    requires st.Valid() && AllTrue(q, f, amountIn, st.seen) && st.best.Some? && (q.cfg.maxCandidates.None? ==> IsMaximum(q, f, amountIn, st.best.value))
    requires st.total.Some? ==> st.total == Some(|st.seen| + st.failedCandidates)
    modifies st
    ensures r.Success? && (r.value.finality == ExhaustiveDone || (r.value.finality == Stopped && exists i :: !st.control(i)))
    ensures Settled(q, f, amountIn, st.config, st.control, run, st.events, st.seen, r)
    ensures st.seen == old(st.seen) && old(st.events) <= st.events
    ensures old(st.WithdrawsCertainty(ExhaustiveDone)) ==> Trap(r, st.events, st.control)
  {
    hide TrueQuote, QuotePathSpec, Query.Admissible, StreamingRouteState.Valid, IsMaximum, NothingViable, Disciplined, Ranking.LargestOf, RankFits, Trap, ConfidenceRises;
    ghost var withdraws := st.WithdrawsCertainty(ExhaustiveDone);
    var report := st.Finish(ExhaustiveDone, true);
    BestIsLargest(st);
    if withdraws { Springs(st.events, st.config, st.control, report); }
    r := Success(report);
  }

  /** An accepted run that has nothing to show. */
  lemma FailsSettled(st: StreamingRouteState, q: Query, f: Quoter, amountIn: nat, run: HeuristicRun, error: StreamError)
    requires st.Valid() && run.quotes == [] && !error.Rejected? && (error.HeuristicFailed? ==> run.errored)
    requires st.config.completion == ExhaustiveCompletion && q.cfg.maxCandidates.None? ==> NothingViable(q, f, amountIn)
    requires st.config.completion != ExhaustiveCompletion ==> error.HeuristicFailed?
    ensures Settled(q, f, amountIn, st.config, st.control, run, st.events, st.seen, Failure(error))
  {
    hide StreamingRouteState.Valid, NothingViable, Disciplined;
    DisciplineOf(st);
  }

  /** The heuristic phase and, where the request asks for it, the exhaustive one. */
  method SearchPhases(st: StreamingRouteState, q: Query, f: Quoter, amountIn: nat, poll: nat -> bool, run: HeuristicRun)
    returns (r: Result<Report, StreamError>, events: seq<Event>, table: QuoteDag.QuoteTable)
    requires WellFormed(q.g) && q.cfg.Valid() && q.tokenIn in q.g && q.tokenOut in q.g && st.config.workers > 0
    requires st.failedCandidates == 0
    requires st.Valid() && st.seen == [] && |st.events| == 1 && st.released == st.config.gate.None? && st.total.None? && st.stopFinality.None?
    requires AllTrue(q, f, amountIn, run.quotes) && (q.cfg.maxCandidates.None? ==> !run.capped) && TrueTable(f, run.table)
    modifies st
    ensures TrueTable(f, table)
    ensures Trapped(q, st.config, st.control, poll, run) ==> Trap(r, events, st.control)
    ensures Settled(q, f, amountIn, st.config, st.control, run, events, st.seen, r) && HeuristicFirst(run, st.seen) && old(st.events) <= events
    ensures r.Success? ==> Tallied(st.config, st.control, poll, run, r.value)
    ensures NeverStopped(st.config, st.control, poll) ==> Delivers(st.config.completion, run, r, st.seen)
    ensures r.Success? ==> Explained(st.config, st.control, poll, run.capped, r.value.finality)
  {
    hide Settled, Supplies, TrueQuote, QuotePathSpec, Query.Admissible, WellFormed, StreamingRouteState.Valid, IsMaximum, NothingViable, AllObserved,
         EnumerationOk, Disciplined, StreamingRouteState.Trace, Ranking.LargestOf, Ranking.TopK, RankFits, Trap, Trapped, EndsInTrap, Hushed, TrueTable;
    TrapAhead(q, f, amountIn, st.config, st.control, poll, run);
    var go;
    var stopped := HeuristicPhase(st, q, f, amountIn, run);
    var polled := poll(0);
    if stopped || !polled {
      var finality := if st.stopFinality.Some? then st.stopFinality.value else Stopped;
      StopKinds(st);
      r := EndEarly(st, q, f, amountIn, run, finality, st.stopFinality == Some(StopPolicySatisfied));
      return r, st.events, run.table;
    }
    PhaseTrace(st, Heuristic);
    go := st.Emit(PhaseCompleted(Heuristic));
    if !go {
      r := EndEarly(st, q, f, amountIn, run, Stopped, false);
      return r, st.events, run.table;
    }
    NoBestNoneSeen(st);
    if st.config.completion != ExhaustiveCompletion {
      if st.best.None? && run.errored {
        FailsSettled(st, q, f, amountIn, run, HeuristicFailed);
        return Failure(HeuristicFailed), st.events, run.table;
      }
      r := EndEarly(st, q, f, amountIn, run, if st.config.completion == FastLaneExhausted then FastLaneOnly else HeuristicOnly, true);
      return r, st.events, run.table;
    }
    r, events, table := ExhaustivePhase(st, q, f, amountIn, poll, run);
  }

  /** Enumerate what the heuristic phase did not evaluate, quote it, and settle the result. */
  method ExhaustivePhase(st: StreamingRouteState, q: Query, f: Quoter, amountIn: nat, poll: nat -> bool, run: HeuristicRun)
    returns (r: Result<Report, StreamError>, events: seq<Event>, table: QuoteDag.QuoteTable)
    requires TrueTable(f, run.table)
    ensures TrueTable(f, table)
    ensures EndsInTrap(q, st.config, st.control, poll, run, old(st.released), |old(st.events)|, old(st.best)) ==> Trap(r, events, st.control)
    requires WellFormed(q.g) && q.cfg.Valid() && q.tokenIn in q.g && q.tokenOut in q.g && st.config.workers > 0
    requires st.Valid() && st.seen == run.quotes && AllTrue(q, f, amountIn, run.quotes) && st.total.None? && st.stopFinality.None?
    requires st.config.completion == ExhaustiveCompletion
    modifies st
    ensures Settled(q, f, amountIn, st.config, st.control, run, events, st.seen, r) && run.quotes <= st.seen && old(st.events) <= events
    ensures r.Success? ==> Explained(st.config, st.control, poll, false, r.value.finality)
  {
    hide Settled, Supplies, TrueQuote, QuotePathSpec, Query.Admissible, WellFormed, StreamingRouteState.Valid, IsMaximum, NothingViable, AllObserved,
         Disciplined, StreamingRouteState.Trace, Ranking.LargestOf, Ranking.TopK, EnumerationOk, RankFits, Trap, FindsAll;
    var evaluated := PathsIn(run.quotes);
    var budget := if q.cfg.maxCandidates.None? then None
                  else Some(if st.Evaluated() >= q.cfg.maxCandidates.value then 0 else q.cfg.maxCandidates.value - st.Evaluated());
    var found := EnumerateRoutes(q, evaluated, budget, (i: nat) => poll(i + 1));
    if found.Failure? {
      NoPathsAllObserved(q, f, amountIn, st.seen);
      if st.best.None? {
        NoBestNoneSeen(st);
        NothingObserved(q, f, amountIn, st.seen);
        FailsSettled(st, q, f, amountIn, run, if run.errored then HeuristicFailed else NoRoute);
        return Failure(if run.errored then HeuristicFailed else NoRoute), st.events, run.table;
      }
      SettleMaximum(st, q, f, amountIn);
      r := EndExhaustive(st, q, f, amountIn, run);
      return r, st.events, run.table;
    }
    var enumeration := found.value;
    if enumeration.stopped {
      r := EndEarly(st, q, f, amountIn, run, Stopped, false);
      return r, st.events, run.table;
    }
    EnumerationFacts(q, evaluated, budget, enumeration);
    NothingRemains(q, run, budget, enumeration);
    r, events, table := EvaluateRemainder(st, q, f, amountIn, enumeration, budget, run);
  }

  lemma NoPathsAllObserved(q: Query, f: Quoter, amountIn: nat, seen: seq<RouteQuote>)
    requires forall p :: !q.Admissible(p)
    ensures AllObserved(q, f, amountIn, seen)
  {
  }

  lemma EnumerationFacts(q: Query, excluded: set<Path>, cap: Option<nat>, e: RouteEnumeration)
    requires EnumerationOk(q, excluded, cap, e)
    ensures forall p :: p in e.paths ==> q.Admissible(p)
  {
  }

  lemma EmptyTrace(config: Config, control: nat -> bool)
    ensures Disciplined([], config, control, None)
  {
  }

  lemma StartTrace(st: StreamingRouteState)
    requires st.Valid()
    ensures TraceOk(st.events + [Started], st.config.gate.Some?, st.released, st.best, st.CurrentConfidence())
  {
    EmitKeepsTrace(st.events, Started, st.config.gate.Some?, st.released, st.best, st.CurrentConfidence());
  }

  lemma PhaseTrace(st: StreamingRouteState, ph: Phase)
    requires st.Valid()
    ensures TraceOk(st.events + [PhaseCompleted(ph)], st.config.gate.Some?, st.released, st.best, st.CurrentConfidence())
  {
    EmitKeepsTrace(st.events, PhaseCompleted(ph), st.config.gate.Some?, st.released, st.best, st.CurrentConfidence());
  }

  lemma DisciplineOf(st: StreamingRouteState)
    requires st.Valid()
    ensures Disciplined(st.events, st.config, st.control, None)
    ensures Disciplined(st.events, st.config, st.control, Some(st.ReportFor(Stopped)))
  {
    ConfidenceMonotone(st.best.Some?, st.Evaluated(), st.total, st.heuristicDone, st.best.Some?, st.Evaluated(), st.total, st.heuristicDone);
  }

  lemma StopKinds(st: StreamingRouteState)
    requires st.Valid()
    ensures st.stopFinality.Some? ==> st.stopFinality.value == Stopped || st.stopFinality.value == StopPolicySatisfied
  {
  }

  lemma NoBestNoneSeen(st: StreamingRouteState)
    requires st.Valid()
    ensures st.best.None? <==> st.seen == []
  {
  }

  lemma SettleMaximum(st: StreamingRouteState, q: Query, f: Quoter, amountIn: nat)
    requires st.Valid() && st.best.Some? && AllTrue(q, f, amountIn, st.seen) && AllObserved(q, f, amountIn, st.seen)
    ensures IsMaximum(q, f, amountIn, st.best.value)
  {
    hide Ranking.TopK, IsMaximum, AllTrue, AllObserved;
    BestIsMaximum(q, f, amountIn, st.seen, st.topRoutes, st.config.topK);
  }

  method EvaluateRemainder(st: StreamingRouteState, q: Query, f: Quoter, amountIn: nat, enumeration: RouteEnumeration,
                           ghost budget: Option<nat>, run: HeuristicRun)
    returns (r: Result<Report, StreamError>, events: seq<Event>, table: QuoteDag.QuoteTable)
    requires TrueTable(f, run.table)
    ensures TrueTable(f, table)
    ensures LeadsToTrap(st.config, st.control, old(st.released), |old(st.events)|, old(st.best), enumeration) ==> Trap(r, events, st.control)
    requires st.config.workers > 0 && st.total.None? && st.stopFinality.None?
    requires st.Valid() && st.seen == run.quotes && AllTrue(q, f, amountIn, run.quotes)
    requires EnumerationOk(q, PathsIn(run.quotes), budget, enumeration) && !enumeration.stopped
    requires forall p :: p in enumeration.paths ==> q.Admissible(p)
    requires (q.cfg.maxCandidates.None? ==> budget.None?) && st.config.completion == ExhaustiveCompletion
    modifies st
    ensures Settled(q, f, amountIn, st.config, st.control, run, events, st.seen, r) && run.quotes <= st.seen && old(st.events) <= events
    ensures r.Success? ==> r.value.finality == ExhaustiveDone || StopReason(st.config, st.control, Some(r.value.finality))
  {
    hide Settled, Supplies, TrueQuote, QuotePathSpec, Query.Admissible, StreamingRouteState.Valid, IsMaximum, NothingViable, AllObserved,
         Disciplined, StreamingRouteState.Trace, Ranking.LargestOf, Ranking.TopK, EnumerationOk, QuoteDag.CoversViable, Trap, ConfidenceRises, RankFits;
    var paths := enumeration.paths;
    var stopped;
    stopped, table := QuoteRemainder(st, q, f, amountIn, paths, run.table);
    if stopped {
      var finality := if st.stopFinality.Some? then st.stopFinality.value else Stopped;
      StopKinds(st);
      r := EndEarly(st, q, f, amountIn, run, finality, st.stopFinality == Some(StopPolicySatisfied));
      return r, st.events, table;
    }
    if budget.None? {
      RemainderCompletes(q, f, amountIn, run.quotes, enumeration, st.seen);
    }
    r, events := CompleteExhaustive(st, q, f, amountIn, run);
  }

  /** Everything is evaluated: close the phase and settle the result. */
  method CompleteExhaustive(st: StreamingRouteState, q: Query, f: Quoter, amountIn: nat, run: HeuristicRun)
    returns (r: Result<Report, StreamError>, events: seq<Event>)
    requires run.quotes <= st.seen && st.total == Some(|st.seen| + st.failedCandidates) && st.config.completion == ExhaustiveCompletion
    requires st.Valid() && AllTrue(q, f, amountIn, st.seen) && (q.cfg.maxCandidates.None? ==> AllObserved(q, f, amountIn, st.seen))
    modifies st
    ensures Settled(q, f, amountIn, st.config, st.control, run, events, st.seen, r) && run.quotes <= st.seen && old(st.events) <= events
    ensures r.Success? ==> r.value.finality == ExhaustiveDone || StopReason(st.config, st.control, Some(r.value.finality))
    ensures Hushed(st.config) && !old(st.released) && old(st.best).Some? && st.control(|old(st.events)|) && !st.control(|old(st.events)| + 1) ==>
              Trap(r, events, st.control)
  {
    hide Settled, Supplies, TrueQuote, QuotePathSpec, Query.Admissible, StreamingRouteState.Valid, IsMaximum, NothingViable, AllObserved,
         Disciplined, StreamingRouteState.Trace, Ranking.LargestOf, Ranking.TopK, Trap, ConfidenceRises, RankFits;
    PhaseTrace(st, Exhaustive);
    var go := st.Emit(PhaseCompleted(Exhaustive));
    if !go {
      r := EndEarly(st, q, f, amountIn, run, Stopped, false);
      return r, st.events;
    }
    if st.best.None? {
      NoBestNoneSeen(st);
      if q.cfg.maxCandidates.None? {
        NothingObserved(q, f, amountIn, st.seen);
      }
      FailsSettled(st, q, f, amountIn, run, if run.errored then HeuristicFailed else NoViableRoute);
      return Failure(if run.errored then HeuristicFailed else NoViableRoute), st.events;
    }
    if q.cfg.maxCandidates.None? {
      SettleMaximum(st, q, f, amountIn);
    }
    r := EndExhaustive(st, q, f, amountIn, run);
    events := st.events;
  }

  /** Announce the universe, quote the remainder, count its failures. */
  method QuoteRemainder(st: StreamingRouteState, q: Query, f: Quoter, amountIn: nat, paths: seq<Path>, table: QuoteDag.QuoteTable) returns (stopped: bool, next: QuoteDag.QuoteTable)
    requires TrueTable(f, table)
    requires st.Valid() && AllTrue(q, f, amountIn, st.seen) && st.total.None? && st.config.workers > 0
    requires forall p :: p in paths ==> q.Admissible(p)
    modifies st
    ensures st.Valid() && AllTrue(q, f, amountIn, st.seen) && old(st.seen) <= st.seen && TrueTable(f, next) && old(st.events) <= st.events
    ensures paths == [] && Hushed(st.config) && !old(st.released) ==> !st.released && OneMore(old(st.events), st.events, !stopped, st.control)
    ensures paths == [] ==> st.best == old(st.best)
    ensures !stopped ==> QuoteDag.CoversViable(f, amountIn, paths, st.seen) && st.stopFinality == old(st.stopFinality)
    ensures !stopped ==> st.total == Some(|st.seen| + st.failedCandidates)
    ensures stopped ==> st.StopJustified()
  {
    hide TrueQuote, QuotePathSpec, Query.Admissible, StreamingRouteState.Valid;
    CountsSeen(st);
    next := table;
    var go := st.SetTotalCandidates(st.Evaluated() + |paths|);
    stopped := !go;
    CountsSeen(st);
    if !stopped && paths != [] {
      var failures;
      stopped, failures, next := QuoteAndStream(st, q, f, paths, amountIn, Min(st.config.workers, |paths|), table);
      if !stopped {
        go := st.ObserveFailedCandidates(Exhaustive, failures);
        stopped := !go;
      }
    }
  }

  lemma CountsSeen(st: StreamingRouteState)
    requires st.Valid()
    ensures st.Evaluated() == |st.seen| + st.failedCandidates
  {
  }

  // ---- certainty can be withdrawn ----

  const ONLY := Hop(Pool(0), Token(0), Token(1))

  /** One pool, one hop, one route. */
  function OneRoute(): Query {
    Query(map[Token(0) := [ONLY], Token(1) := [Hop(Pool(0), Token(1), Token(0))]], Token(0), Token(1), SearchConfig(1, 1, None, None), false)
  }

  lemma OneRouteOnly()
    ensures WellFormed(OneRoute().g) && forall p: Path :: OneRoute().Admissible(p) <==> p == [ONLY]
  {
    var q := OneRoute();
    assert Stops(q.tokenIn, [ONLY]) == [Token(0), Token(1)];
    assert q.Admissible([ONLY]) by { assert HasEdge(q.g, ONLY); }
    forall p: Path | q.Admissible(p) ensures p == [ONLY] {
      assert p[0].tokenIn == Stops(q.tokenIn, p)[0] && HasEdge(q.g, p[0]);
    }
  }

  /** A request whose reported confidence falls: a gate that waits for certainty, a heuristic phase
      that finds the only route, and a callback that stops on the released results. */
  method CertaintyCanBeWithdrawn(amount: nat) returns (r: Result<Report, StreamError>, events: seq<Event>, control: nat -> bool)
    ensures Trap(r, events, control) && !ConfidenceRises(events)
  {
    var q := OneRoute();
    var f: Quoter := (h: Hop, a: nat) => Ok(a);
    var quote := RouteQuote([ONLY], amount, amount, [HopQuote(ONLY, amount, amount)]);
    var config := Config(ExhaustiveCompletion, 1, false, 1, None, Some(Policy(All, Some(10_000), None)));
    control := i => i != 6;
    var run := HeuristicRun([quote], 0, false, false, map[]);
    OneRouteOnly();
    assert [ONLY][1..] == [] && Run(f, [], amount) == Ran([], amount);
    assert Run(f, [ONLY], amount) == Ran(quote.hops, amount);
    assert TrueQuote(q, f, amount, quote);
    assert Demands(config.gate.value, ConfidenceAtLeast(10_000));
    assert Trapped(q, config, control, (i: nat) => true, run) by { assert quote in run.quotes && quote.path in PathsIn(run.quotes); }
    var quotes, table;
    r, events, quotes, table := StreamRoutes(q, f, amount, config, control, (i: nat) => true, run);
    Falls(events, config, control, r.value);
  }

  lemma Falls(events: seq<Event>, config: Config, control: nat -> bool, r: Report)
    requires Disciplined(events, config, control, Some(r)) && CertaintyWithdrawn(events, control)
    ensures !ConfidenceRises(events)
  {
  }
}
