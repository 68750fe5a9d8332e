/** What subscribers get to see over whole runs: every answer is shown as what it is, every result
    shown has an answer behind it, and "previous" is the latest result shown before. */
module LiveRouteHistory {
  import opened Routing
  import opened LiveRoutes

  // ---- one message ----

  /** The snapshot state an answered job turns into. */
  ghost predicate ResultOf(st: Stamp, outcome: LiveRoutes.Outcome, state: SubState) {
    match outcome
    case Done(r) => state.Ready? && state.source == st.source && state.best == r.best && state.report == r
    case Broke(cancelled) => state.Failed? && state.source == st.source && state.cancelled == cancelled
  }

  /** A subscription shows `state`, stamped with its epoch and the actor's view. */
  ghost predicate Showing(s: Sys, id: SubId, state: SubState) {
    id in s.entries && s.entries[id].snapshot == Snapshot(id, s.entries[id].epoch, s.view, state) && s.entries[id].snapshot in s.log
  }

  /** Nothing changed but the entry of one subscription and what is published and queued for it. */
  ghost predicate OnlyAbout(id: SubId, s: Sys, t: Sys) {
    && t.entries.Keys == s.entries.Keys && (forall other :: other in s.entries && other != id ==> t.entries[other] == s.entries[other])
    && (forall other :: other != id ==> (other in t.pendingSet <==> other in s.pendingSet))
    && t.view == s.view && t.nextSub == s.nextSub && t.queue == s.queue && t.running == s.running && t.inbox == s.inbox
    && t.cancelledJobs == s.cancelledJobs && t.cancelledSubs == s.cancelledSubs && t.specs == s.specs
  }

  ghost predicate SameRequest(e: Entry, e': Entry) {
    e'.spec == e.spec && e'.epoch == e.epoch && e'.nextJob == e.nextJob
  }

  /** The job belongs to the present view and epoch and its subscription is not cancelled. */
  ghost predicate Timely(s: Sys, st: Stamp)
    requires st.sub in s.entries
  {
    st.source == s.view.source && st.epoch == s.entries[st.sub].epoch && st.sub !in s.cancelledSubs
  }

  /** What a message taken out of the channel does: the awaited answer of a timely job is shown for what
      it is, and a success is remembered; that of an untimely one only frees the subscription for another
      job; a progressive quote of a timely uncancelled job is shown as provisional; anything else does nothing. */
  ghost predicate Heard(s: Sys, m: Message, t: Sys) {
    var st := m.stamp;
    if st.sub !in s.entries || s.entries[st.sub].active != Some(st) then t == s
    else
      var id, e := st.sub, s.entries[st.sub];
      match m
      case Completed(_, outcome) =>
        && OnlyAbout(id, s, t) && SameRequest(e, t.entries[id]) && t.entries[id].active.None?
        && if Timely(s, st) then
             && Showing(t, id, t.entries[id].snapshot.state) && ResultOf(st, outcome, t.entries[id].snapshot.state)
             && t.entries[id].lastReady == (if outcome.Done? then outcome.report.best else e.lastReady)
             && t.entries[id].dirty == e.dirty && t.pending == s.pending
           else
             && t.entries[id].snapshot == e.snapshot && t.entries[id].lastReady == e.lastReady && t.log == s.log
             && (t.entries[id].dirty <==> id !in s.cancelledSubs) && (id !in s.cancelledSubs ==> id in t.pendingSet)
      case Progress(_, best) =>
        if Timely(s, st) && st !in s.cancelledJobs && best.Some? then
          && OnlyAbout(id, s, t) && SameRequest(e, t.entries[id]) && t.entries[id].active == e.active
          && t.entries[id].dirty == e.dirty && t.entries[id].lastReady == e.lastReady && t.pending == s.pending
          && Showing(t, id, Searching(st, best, e.lastReady))
        else t == s
  }

  lemma Hears(s: Sys, m: Message)
    ensures Heard(s, m, Handle(s, m))
  {
    match m
    case Progress(st, best) => HearsProgress(s, st, best);
    case Completed(st, outcome) => HearsCompleted(s, st, outcome);
  }

  lemma HearsProgress(s: Sys, st: Stamp, best: Option<Tagged>)
    ensures Heard(s, Message.Progress(st, best), DoProgress(s, st, best))
  {
  }

  lemma HearsCompleted(s: Sys, st: Stamp, outcome: LiveRoutes.Outcome)
    ensures Heard(s, Message.Completed(st, outcome), DoCompleted(s, st, outcome))
  {
    hide ResultOf;
    if st.sub in s.entries && s.entries[st.sub].active == Some(st) {
      if Stale(s, st) {
        hide Publish;
      } else {
        hide Enqueue;
        IsResultOf(st, outcome);
      }
    }
  }

  lemma IsResultOf(st: Stamp, outcome: LiveRoutes.Outcome)
    ensures outcome.Done? ==> ResultOf(st, outcome, Ready(st.source, outcome.report.best, outcome.report))
    ensures outcome.Broke? ==> ResultOf(st, outcome, Failed(st.source, outcome.cancelled))
  {
  }

  // ---- commands and commits ----

  /** The entries of the other subscriptions are as before. */
  ghost predicate OthersStay(s: Sys, t: Sys, id: SubId) {
    forall other :: other != id ==> Find(t.entries, other) == Find(s.entries, other)
  }

  /** The job the subscription is waiting for, if any, has been told to stop. */
  ghost predicate ToldToStop(e: Entry, t: Sys) { e.active.Some? ==> e.active.value in t.cancelledJobs }

  /** A commit: every subscription falls back to pending on the new view with its memory, its job is told to
      stop, and it is queued unless it has one. */
  ghost predicate Advanced(s: Sys, view: View, t: Sys) {
    && t.view == view && t.entries.Keys == s.entries.Keys && t.queue == s.queue && t.cancelledSubs == s.cancelledSubs
    && forall id :: id in s.entries ==>
         && SameRequest(s.entries[id], t.entries[id]) && t.entries[id].active == s.entries[id].active && t.entries[id].dirty
         && t.entries[id].lastReady == s.entries[id].lastReady && Showing(t, id, SubState.Pending(view.source, s.entries[id].lastReady))
         && ToldToStop(s.entries[id], t) && (s.entries[id].active.None? ==> id in t.pendingSet)
  }

  ghost predicate Accepted(s: Sys, spec: Spec, id: SubId, t: Sys) {
    && id == s.nextSub && id in t.entries && OthersStay(s, t, id) && id in t.pendingSet && t.view == s.view
    && t.entries[id].spec == spec && t.entries[id].epoch == 0 && t.entries[id].active.None? && t.entries[id].lastReady.None?
    && Showing(t, id, SubState.Pending(s.view.source, None))
  }

  /** A new request under the same number: the next epoch begins, pending with the memory of the old one. */
  ghost predicate Replaced(s: Sys, id: SubId, spec: Spec, t: Sys)
    requires id in s.entries
  {
    var e := s.entries[id];
    && id in t.entries && OthersStay(s, t, id) && t.view == s.view
    && t.entries[id].spec == spec && t.entries[id].epoch == e.epoch + 1 && t.entries[id].active == e.active && t.entries[id].lastReady == e.lastReady
    && t.entries[id].dirty && Showing(t, id, SubState.Pending(s.view.source, e.lastReady))
    && ToldToStop(e, t) && (e.active.None? ==> id in t.pendingSet)
  }

  /** A subscription ends: its token and that of its job are raised, and its last snapshot says so. */
  ghost predicate Ended(s: Sys, id: SubId, t: Sys)
    requires id in s.entries
  {
    && id !in t.entries && OthersStay(s, t, id) && id in t.cancelledSubs && ToldToStop(s.entries[id], t)
    && Snapshot(id, s.entries[id].epoch, s.view, SubState.Cancelled) in t.log
  }

  /** The head of the list gets a job of its own request on the present view, if it wants one and there is room. */
  ghost predicate Dealt(s: Sys, t: Sys)
    requires s.pending != []
  {
    var id := s.pending[0];
    && OthersStay(s, t, id) && t.view == s.view && t.cancelledJobs == s.cancelledJobs && t.cancelledSubs == s.cancelledSubs
    && if id in s.entries && s.entries[id].dirty && s.entries[id].active.None? && s.entries[id].nextJob < U64_MAX && |s.queue| < s.capacity then
         var e, stamp := s.entries[id], Stamp(id, s.entries[id].epoch, s.entries[id].nextJob, s.view.source);
         && t.queue == s.queue + [Job(stamp, s.view, e.spec)] && id in t.entries && t.entries[id].active == Some(stamp) && !t.entries[id].dirty
         && t.entries[id].nextJob == e.nextJob + 1 && t.entries[id].spec == e.spec && t.entries[id].epoch == e.epoch
         && t.entries[id].lastReady == e.lastReady && Showing(t, id, Searching(stamp, None, e.lastReady))
       else t.queue == s.queue && t.entries == s.entries && t.log == s.log
  }

  lemma CommitAdvances(s: Sys, view: View, ids: seq<SubId>)
    requires Lists(ids, s.entries)
    ensures Advanced(s, view, DoCommit(s, view, ids))
  {
    hide NewlyQueued, Showing, ToldToStop;
    NewlyQueuedExact(s.entries, s.pendingSet, ids);
    forall id | id in s.entries
      ensures Showing(DoCommit(s, view, ids), id, SubState.Pending(view.source, s.entries[id].lastReady)) && ToldToStop(s.entries[id], DoCommit(s, view, ids))
    {
      CommitShows(s, view, ids, id);
    }
  }

  lemma CommitShows(s: Sys, view: View, ids: seq<SubId>, id: SubId)
    requires id in s.entries
    ensures Showing(DoCommit(s, view, ids), id, SubState.Pending(view.source, s.entries[id].lastReady)) && ToldToStop(s.entries[id], DoCommit(s, view, ids))
  {
    hide NewlyQueued;
  }

  lemma SubscribeAccepts(s: Sys, spec: Spec)
    requires |s.entries| < s.maxSubs && s.nextSub < U64_MAX
    ensures Accepted(s, spec, s.nextSub, DoSubscribe(s, spec))
  {
  }

  lemma ReplaceReplaces(s: Sys, id: SubId, spec: Spec)
    requires id in s.entries && s.entries[id].epoch < U64_MAX
    ensures Replaced(s, id, spec, DoReplace(s, id, spec))
  {
  }

  lemma CancelEnds(s: Sys, id: SubId)
    requires id in s.entries
    ensures Ended(s, id, DoCancel(s, id))
  {
  }

  lemma ScheduleDeals(s: Sys)
    requires s.pending != []
    ensures Dealt(s, DoScheduleOne(s))
  {
  }

  // ---- results and the answers behind them ----

  /** The step handles an answer whose result is the snapshot. */
  ghost predicate Behind(s: Sys, step: Step, sn: Snapshot) {
    && step.Receive? && step.index < |s.inbox| && s.inbox[step.index].Completed?
    && var m := s.inbox[step.index];
    && m.stamp.sub == sn.id && m.stamp.epoch == sn.epoch && m.stamp.source == sn.view.source && ResultOf(m.stamp, m.outcome, sn.state)
  }

  ghost predicate IsResult(sn: Snapshot) { sn.state.Ready? || sn.state.Failed? }

  /** The best shown last, up to moment `k`. */
  ghost function LatestReady(states: seq<Sys>, k: nat, id: SubId): Option<Tagged>
    requires k < |states|
  {
    if id in states[k].entries && states[k].entries[id].snapshot.state.Ready? then states[k].entries[id].snapshot.state.best
    else if k == 0 then None
    else LatestReady(states, k - 1, id)
  }

  /** What a snapshot offers while no result of its own is there. */
  ghost predicate OffersPrevious(sn: Snapshot, best: Option<Tagged>) {
    match sn.state
    case Pending(_, previous) => previous == best
    case Searching(_, _, previous) => previous == best
    case _ => true
  }

  /** The subscription shows its memory where it has no result of its own to show. */
  ghost predicate Mindful(e: Entry) {
    OffersPrevious(e.snapshot, e.lastReady) && (e.snapshot.state.Ready? ==> e.lastReady == e.snapshot.state.best)
  }

  ghost predicate AllMindful(s: Sys) {
    forall id :: id in s.entries ==> id < s.nextSub && Mindful(s.entries[id])
  }

  /** A subscription's memory changes only with a result shown, and starts empty under a new number. */
  ghost predicate Remembers(s: Sys, t: Sys) {
    && s.nextSub <= t.nextSub
    && forall id :: id in t.entries ==>
         && id < t.nextSub && Mindful(t.entries[id])
         && (!t.entries[id].snapshot.state.Ready? ==>
               if id in s.entries then t.entries[id].lastReady == s.entries[id].lastReady else id >= s.nextSub && t.entries[id].lastReady == None)
  }

  lemma CommitRemembers(s: Sys, view: View, ids: seq<SubId>)
    requires AllMindful(s)
    ensures Remembers(s, DoCommit(s, view, ids))
  {
    hide NewlyQueued;
  }

  lemma SubscribeRemembers(s: Sys, spec: Spec)
    requires AllMindful(s)
    ensures Remembers(s, DoSubscribe(s, spec))
  {
  }

  lemma ReplaceRemembers(s: Sys, id: SubId, spec: Spec)
    requires AllMindful(s)
    ensures Remembers(s, DoReplace(s, id, spec))
  {
  }

  lemma CancelRemembers(s: Sys, id: SubId)
    requires AllMindful(s)
    ensures Remembers(s, DoCancel(s, id))
  {
  }

  lemma ScheduleRemembers(s: Sys)
    requires AllMindful(s) && s.pending != []
    ensures Remembers(s, DoScheduleOne(s))
  {
  }

  lemma HandleRemembers(s: Sys, m: Message)
    requires AllMindful(s)
    ensures Remembers(s, Handle(s, m))
  {
    match m
    case Progress(st, best) => ProgressRemembers(s, st, best);
    case Completed(st, outcome) => CompletedRemembers(s, st, outcome);
  }

  lemma ProgressRemembers(s: Sys, st: Stamp, best: Option<Tagged>)
    requires AllMindful(s)
    ensures Remembers(s, DoProgress(s, st, best))
  {
  }

  lemma CompletedRemembers(s: Sys, st: Stamp, outcome: LiveRoutes.Outcome)
    requires AllMindful(s)
    ensures Remembers(s, DoCompleted(s, st, outcome))
  {
    hide Stale, Enqueue;
    EnqueueKeepsEntries();
  }

  lemma EnqueueKeepsEntries()
    ensures forall s: Sys, id: SubId :: Enqueue(s, id).entries == s.entries && Enqueue(s, id).nextSub == s.nextSub
  {
  }

  lemma StepRemembers(s: Sys, step: Step)
    requires AllMindful(s) && Enabled(s, step)
    ensures Remembers(s, Apply(s, step)) && AllMindful(Apply(s, step))
  {
    hide DoCommit, DoSubscribe, DoReplace, DoCancel, DoScheduleOne, Handle, HonestOutcome, Lists, Mindful;
    match step
    case Commit(view, ids) => CommitRemembers(s, view, ids);
    case Subscribe(spec) => SubscribeRemembers(s, spec);
    case Replace(id, spec) => ReplaceRemembers(s, id, spec);
    case Cancel(id) => CancelRemembers(s, id);
    case Schedule => ScheduleRemembers(s);
    case Receive(i) => HandleRemembers(s.(inbox := s.inbox[..i] + s.inbox[i + 1..]), s.inbox[i]);
    case _ => PlainRemembers(s, Apply(s, step));
  }

  lemma PlainRemembers(s: Sys, t: Sys)
    requires AllMindful(s) && t.entries == s.entries && t.nextSub == s.nextSub
    ensures Remembers(s, t)
  {
  }

  // ---- what one step publishes ----

  /** What is published is shown to its subscriber, unless it says goodbye; a result has its answer behind it. */
  ghost predicate Publishes(s: Sys, step: Step, t: Sys) {
    forall sn :: sn in t.log && sn !in s.log ==>
      && (sn.state.Cancelled? || (sn.id in t.entries && t.entries[sn.id].snapshot == sn))
      && (IsResult(sn) ==> Behind(s, step, sn))
  }

  lemma CommitPublishes(s: Sys, view: View, ids: seq<SubId>)
    ensures Publishes(s, Step.Commit(view, ids), DoCommit(s, view, ids))
  {
    hide NewlyQueued;
  }

  lemma SubscribePublishes(s: Sys, spec: Spec)
    ensures Publishes(s, Step.Subscribe(spec), DoSubscribe(s, spec))
  {
  }

  lemma ReplacePublishes(s: Sys, id: SubId, spec: Spec)
    ensures Publishes(s, Step.Replace(id, spec), DoReplace(s, id, spec))
  {
  }

  lemma CancelPublishes(s: Sys, id: SubId)
    ensures Publishes(s, Step.Cancel(id), DoCancel(s, id))
  {
  }

  lemma SchedulePublishes(s: Sys)
    requires s.pending != []
    ensures Publishes(s, Step.Schedule, DoScheduleOne(s))
  {
  }

  lemma ReceivePublishes(s: Sys, i: nat)
    requires i < |s.inbox|
    ensures Publishes(s, Step.Receive(i), Apply(s, Step.Receive(i)))
  {
    hide Accepts;
  }

  lemma StepPublishes(s: Sys, step: Step)
    requires Enabled(s, step)
    ensures Publishes(s, step, Apply(s, step))
  {
    hide DoCommit, DoSubscribe, DoReplace, DoCancel, DoScheduleOne, Handle, HonestOutcome, Lists, Behind, IsResult;
    match step
    case Commit(view, ids) => CommitPublishes(s, view, ids);
    case Subscribe(spec) => SubscribePublishes(s, spec);
    case Replace(id, spec) => ReplacePublishes(s, id, spec);
    case Cancel(id) => CancelPublishes(s, id);
    case Schedule => SchedulePublishes(s);
    case Receive(i) => ReceivePublishes(s, i);
    case _ =>
  }

  // ---- whole runs ----

  lemma {:induction false} RunsRemember(states: seq<Sys>, steps: seq<Step>, k: nat)
    requires IsRun(states, steps) && k < |states|
    ensures AllMindful(states[k])
  {
    if k > 0 {
      RunsRemember(states, steps, k - 1);
      hide Enabled, Apply, Init, AllMindful;
      StepRemembers(states[k - 1], steps[k - 1]);
    }
  }

  /** A number not yet given away has shown nothing. */
  lemma {:induction false} NothingShownBefore(states: seq<Sys>, steps: seq<Step>, k: nat, id: SubId)
    requires IsRun(states, steps) && k < |states| && id >= states[k].nextSub
    ensures LatestReady(states, k, id) == None
  {
    hide Enabled, Apply, Init, Mindful;
    RunsRemember(states, steps, k);
    if k > 0 {
      RunsRemember(states, steps, k - 1);
      StepRemembers(states[k - 1], steps[k - 1]);
      NothingShownBefore(states, steps, k - 1, id);
    }
  }

  /** What a subscription remembers is the best of the latest result it showed, and nothing if it has
      shown none yet. */
  lemma {:induction false} MemoryIsLatestResult(states: seq<Sys>, steps: seq<Step>, k: nat, id: SubId)
    requires IsRun(states, steps) && k < |states| && id in states[k].entries
    ensures states[k].entries[id].lastReady == LatestReady(states, k, id)
  {
    RunsRemember(states, steps, k);
    hide Enabled, Apply;
    if k > 0 && !states[k].entries[id].snapshot.state.Ready? {
      RunsRemember(states, steps, k - 1);
      StepRemembers(states[k - 1], steps[k - 1]);
      if id in states[k - 1].entries {
        MemoryIsLatestResult(states, steps, k - 1, id);
      } else {
        NothingShownBefore(states, steps, k - 1, id);
      }
    }
  }

  lemma NothingPublishedFirst(states: seq<Sys>, steps: seq<Step>)
    requires IsRun(states, steps)
    ensures |states| > 0 && states[0].log == {}
  {
  }

  lemma StepOf(states: seq<Sys>, steps: seq<Step>, k: nat)
    requires IsRun(states, steps) && k + 1 < |states|
    ensures k < |steps| && Enabled(states[k], steps[k]) && states[k + 1] == Apply(states[k], steps[k])
  {
    hide Enabled, Apply, Init;
  }

  lemma MindfulOffers(e: Entry)
    requires Mindful(e)
    ensures OffersPrevious(e.snapshot, e.lastReady)
  {
  }

  /** The moment at which a subscriber was shown the snapshot. */
  ghost predicate ShownAt(states: seq<Sys>, j: nat, sn: Snapshot)
    requires j < |states|
  {
    sn.id in states[j].entries && states[j].entries[sn.id].snapshot == sn
  }

  /** Whatever was published was shown at some moment, or says goodbye. What a snapshot without a result
      offers as previous is the best of the latest result shown up to that moment. */
  lemma {:induction false} PublishedWasShown(states: seq<Sys>, steps: seq<Step>, k: nat, sn: Snapshot)
    requires IsRun(states, steps) && k < |states| && sn in states[k].log && !sn.state.Cancelled?
    ensures exists j: nat :: j <= k && ShownAt(states, j, sn) && OffersPrevious(sn, LatestReady(states, j, sn.id))
  {
    hide IsRun, Enabled, Apply, Mindful, OffersPrevious, IsResult, LatestReady;
    NothingPublishedFirst(states, steps);
    if k > 0 {
      if sn in states[k - 1].log {
        PublishedWasShown(states, steps, k - 1, sn);
      } else {
        StepOf(states, steps, k - 1);
        StepPublishes(states[k - 1], steps[k - 1]);
        RunsRemember(states, steps, k);
        MemoryIsLatestResult(states, steps, k, sn.id);
        MindfulOffers(states[k].entries[sn.id]);
        assert ShownAt(states, k, sn);
      }
    }
  }

  /** Every result ever published is that of an answer some worker sent, for the same subscription, epoch and
      view: a success is never shown as a failure, nor a failure as a success. */
  lemma {:induction false} ResultsHaveAnswers(states: seq<Sys>, steps: seq<Step>, k: nat, sn: Snapshot)
    requires IsRun(states, steps) && k < |states| && sn in states[k].log && IsResult(sn)
    ensures exists j: nat :: j < k && Behind(states[j], steps[j], sn)
  {
    hide IsRun, Enabled, Apply, IsResult, Behind;
    NothingPublishedFirst(states, steps);
    if k > 0 {
      StepOf(states, steps, k - 1);
      if sn in states[k - 1].log {
        ResultsHaveAnswers(states, steps, k - 1, sn);
      } else {
        StepPublishes(states[k - 1], steps[k - 1]);
        assert Behind(states[k - 1], steps[k - 1], sn);
      }
    }
  }
}
