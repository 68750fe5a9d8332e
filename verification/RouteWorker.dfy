/** What one route worker makes of one job: the streamed search of the job's request on the job's
    view, watched over by two cancellation tokens that are never lowered again. */
module RouteWorker {
  import opened Routing
  import opened PathEnumeration
  import StreamState
  import Stream = StreamSearch
  import opened LiveRoutes

  /** Tokens once raised stay raised, in every run of the runtime. */
  lemma {:induction false} FlagsOnlyGrow(states: seq<Sys>, steps: seq<Step>, i: nat, j: nat)
    requires IsRun(states, steps) && i <= j < |states|
    ensures states[i].cancelledJobs <= states[j].cancelledJobs && states[i].cancelledSubs <= states[j].cancelledSubs
  {
    hide Apply, Enabled, Init;
    if i < j {
      FlagsOnlyGrow(states, steps, i, j - 1);
      StepKeepsFlags(states[j - 1], steps[j - 1]);
    }
  }

  lemma StepKeepsFlags(s: Sys, step: Step)
    requires Enabled(s, step)
    ensures s.cancelledJobs <= Apply(s, step).cancelledJobs && s.cancelledSubs <= Apply(s, step).cancelledSubs
  {
    hide DoCommit, DoSubscribe, DoReplace, DoCancel, DoScheduleOne, Handle, HonestOutcome, Lists;
    match step
    case Commit(view, ids) => CommitKeepsFlags(s, view, ids);
    case Subscribe(spec) => SubscribeKeepsFlags(s, spec);
    case Replace(id, spec) => ReplaceKeepsFlags(s, id, spec);
    case Cancel(id) => CancelKeepsFlags(s, id);
    case Schedule => ScheduleKeepsFlags(s);
    case Receive(i) => HandleKeepsFlags(s.(inbox := s.inbox[..i] + s.inbox[i + 1..]), s.inbox[i]);
    case _ =>
  }

  lemma CommitKeepsFlags(s: Sys, view: View, ids: seq<SubId>)
    ensures s.cancelledJobs <= DoCommit(s, view, ids).cancelledJobs && s.cancelledSubs == DoCommit(s, view, ids).cancelledSubs
  {
    hide NewlyQueued, CommitEntry;
  }

  lemma SubscribeKeepsFlags(s: Sys, spec: Spec)
    ensures s.cancelledJobs == DoSubscribe(s, spec).cancelledJobs && s.cancelledSubs == DoSubscribe(s, spec).cancelledSubs
  {
  }

  lemma ReplaceKeepsFlags(s: Sys, id: SubId, spec: Spec)
    ensures s.cancelledJobs <= DoReplace(s, id, spec).cancelledJobs && s.cancelledSubs == DoReplace(s, id, spec).cancelledSubs
  {
  }

  lemma CancelKeepsFlags(s: Sys, id: SubId)
    ensures s.cancelledJobs <= DoCancel(s, id).cancelledJobs && s.cancelledSubs <= DoCancel(s, id).cancelledSubs
  {
  }

  lemma ScheduleKeepsFlags(s: Sys)
    requires s.pending != []
    ensures s.cancelledJobs == DoScheduleOne(s).cancelledJobs && s.cancelledSubs == DoScheduleOne(s).cancelledSubs
  {
  }

  lemma HandleKeepsFlags(s: Sys, m: Message)
    ensures s.cancelledJobs == Handle(s, m).cancelledJobs && s.cancelledSubs == Handle(s, m).cancelledSubs
  {
    hide Accepts, Stale;
  }

  /** The worker's `i`-th question is answered at moment `at(i)` of the run: go on exactly if neither
      of the job's tokens is raised then. */
  ghost predicate ReadsTokens(states: seq<Sys>, stamp: Stamp, at: nat -> nat, answer: nat -> bool) {
    forall i :: at(i) < |states| && answer(i) == !Flagged(states[at(i)], stamp)
  }

  lemma UnflaggedUndisturbed(states: seq<Sys>, steps: seq<Step>, stamp: Stamp, at: nat -> nat, answer: nat -> bool)
    requires IsRun(states, steps) && ReadsTokens(states, stamp, at, answer) && !Flagged(states[|states| - 1], stamp)
    ensures forall i :: answer(i)
  {
    forall i ensures answer(i) {
      FlagsOnlyGrow(states, steps, at(i), |states| - 1);
      assert answer(i) == !Flagged(states[at(i)], stamp);
    }
  }

  /** The result names a largest output of all admissible paths. */
  ghost predicate NamesMaximum(q: Query, f: Quoter, amountIn: nat, r: LiveRoutes.Report) {
    r.best.Some? && exists best :: Stream.IsMaximum(q, f, amountIn, best) && r.best.value.amount == best.amountOut
  }

  /** A request to search everything: no candidate cap, no policy to stop on. */
  predicate Unlimited(q: Query, config: StreamState.Config) {
    q.cfg.maxCandidates.None? && config.completion == StreamState.ExhaustiveCompletion && config.stopPolicy.None?
  }

  /** Work on `job`, which asks `q` for `amountIn` on a view whose pools quote as `f`. The last of
      `states` is the moment the worker answers. */
  method RunJob(job: Job, q: Query, f: Quoter, amountIn: nat, config: StreamState.Config, run: Stream.HeuristicRun, raised: bool, panics: bool,
                control: nat -> bool, poll: nat -> bool, ghost states: seq<Sys>, ghost steps: seq<Step>, ghost first: nat, ghost eventAt: nat -> nat, ghost pollAt: nat -> nat)
    returns (outcome: LiveRoutes.Outcome)
    requires WellFormed(q.g) && !q.revisit && config.topK > 0 && config.workers > 0
    requires Stream.AllTrue(q, f, amountIn, run.quotes) && (q.cfg.maxCandidates.None? ==> !run.capped) && Stream.TrueTable(f, run.table)
    requires IsRun(states, steps) && first < |states| && raised == Flagged(states[first], job.stamp)
    requires ReadsTokens(states, job.stamp, eventAt, control) && ReadsTokens(states, job.stamp, pollAt, poll)
    ensures HonestOutcome(states[|states| - 1].cancelledJobs, states[|states| - 1].cancelledSubs, job, outcome)
    ensures raised ==> outcome == Broke(true)
    ensures outcome.Done? && outcome.report.whole && Unlimited(q, config) ==> NamesMaximum(q, f, amountIn, outcome.report)
    ensures !Flagged(states[|states| - 1], job.stamp) && !panics && Unlimited(q, config) && outcome.Broke? ==>
              !q.cfg.Valid() || q.tokenIn !in q.g || q.tokenOut !in q.g || Stream.NothingViable(q, f, amountIn)
  {
    hide Stream.TrueQuote, WellFormed, StreamState.Disciplined, Stream.IsMaximum, Stream.Trapped, Stream.Supplies, Stream.NothingViable;
    FlagsOnlyGrow(states, steps, first, |states| - 1);
    if raised {
      return Broke(true);
    }
    if panics {
      return Broke(false);
    }
    var r, events, quotes, table := Stream.StreamRoutes(q, f, amountIn, config, control, poll, run);
    if !Flagged(states[|states| - 1], job.stamp) {
      UnflaggedUndisturbed(states, steps, job.stamp, eventAt, control);
      UnflaggedUndisturbed(states, steps, job.stamp, pollAt, poll);
    }
    match r
    case Failure(_) => outcome := Broke(false);
    case Success(report) =>
      var whole := report.finality != StreamState.Stopped || run.capped;
      var best := if report.best.Some? then Some(Tagged(job.spec, job.view, report.best.value.amountOut)) else None;
      outcome := Done(LiveRoutes.Report(job.spec, job.view, whole, best));
  }
}
