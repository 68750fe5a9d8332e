/** The live route runtime as a state machine: the actor's handlers, the bounded job queue, and
    workers that finish whenever they like. Any handler may run between any two worker steps. */
module LiveRoutes {
  import opened Routing

  type SubId = nat

  datatype Provenance = Provenance(runtime: nat, version: nat, point: nat, graph: nat)

  /** One coherent search input; `contents` stands for registry, graph, liquidity and state. */
  datatype View = View(source: Provenance, contents: nat)

  datatype Spec = Spec(request: nat, streaming: nat)

  datatype Stamp = Stamp(sub: SubId, epoch: nat, job: nat, source: Provenance)

  /** A quote that remembers which request on which view produced it. */
  datatype Tagged = Tagged(spec: Spec, view: View, amount: nat)

  /** The result of one search; `whole` unless a cancellation flag cut the run short. */
  datatype Report = Report(spec: Spec, view: View, whole: bool, best: Option<Tagged>)

  datatype Outcome = Done(report: Report) | Broke(cancelled: bool)

  datatype Job = Job(stamp: Stamp, view: View, spec: Spec)

  datatype Message = Progress(stamp: Stamp, best: Option<Tagged>) | Completed(stamp: Stamp, outcome: Outcome)

  datatype SubState =
    | Pending(source: Provenance, previous: Option<Tagged>)
    | Searching(stamp: Stamp, provisional: Option<Tagged>, previous: Option<Tagged>)
    | Ready(source: Provenance, best: Option<Tagged>, report: Report)
    | Failed(source: Provenance, cancelled: bool)
    | Cancelled

  datatype Snapshot = Snapshot(id: SubId, epoch: nat, view: View, state: SubState)

  datatype Entry = Entry(spec: Spec, epoch: nat, nextJob: nat, active: Option<Stamp>, dirty: bool, lastReady: Option<Tagged>, snapshot: Snapshot)

  /** The actor's fields, the channels around it, and two histories: every spec a
      subscription ever had per epoch, and every snapshot ever published. */
  datatype Sys = Sys(
    view: View,
    entries: map<SubId, Entry>,
    pending: seq<SubId>,
    pendingSet: set<SubId>,
    nextSub: nat,
    maxSubs: nat,
    capacity: nat,
    queue: seq<Job>,
    running: set<Job>,
    inbox: seq<Message>,
    cancelledJobs: set<Stamp>,
    cancelledSubs: set<SubId>,
    specs: map<(SubId, nat), Spec>,
    log: set<Snapshot>)

  // ---- handlers ----

  function Enqueue(s: Sys, id: SubId): Sys {
    if id in s.pendingSet then s else s.(pending := s.pending + [id], pendingSet := s.pendingSet + {id})
  }

  /** Publish a new state for a live subscription, stamped with its epoch and the actor's view. */
  function Publish(s: Sys, id: SubId, state: SubState): Sys
    requires id in s.entries
  {
    var sn := Snapshot(id, s.entries[id].epoch, s.view, state);
    s.(entries := s.entries[id := s.entries[id].(snapshot := sn)], log := s.log + {sn})
  }

  function CommitEntry(id: SubId, e: Entry, view: View): Entry {
    e.(dirty := true, snapshot := Snapshot(id, e.epoch, view, SubState.Pending(view.source, e.lastReady)))
  }

  /** The idle subscriptions of `ids` that are not queued yet, in order. */
  function NewlyQueued(entries: map<SubId, Entry>, queued: set<SubId>, ids: seq<SubId>): seq<SubId> {
    if ids == [] then []
    else
      var rest := NewlyQueued(entries, queued, ids[..|ids| - 1]);
      var id := ids[|ids| - 1];
      if id in entries && entries[id].active.None? && id !in queued && id !in rest then rest + [id] else rest
  }

  /** `apply_commit`: move to the next view, mark everything dirty, cancel running work, queue the
      idle. `ids` lists the subscriptions in the order the loop visits them. */
  function DoCommit(s: Sys, view: View, ids: seq<SubId>): Sys {
    var entries := map id | id in s.entries :: CommitEntry(id, s.entries[id], view);
    var more := NewlyQueued(s.entries, s.pendingSet, ids);
    s.(view := view,
       entries := entries,
       pending := s.pending + more,
       pendingSet := s.pendingSet + (set id | id in more),
       cancelledJobs := s.cancelledJobs + (set id | id in s.entries && s.entries[id].active.Some? :: s.entries[id].active.value),
       log := s.log + (set id | id in s.entries :: entries[id].snapshot))
  }

  function DoSubscribe(s: Sys, spec: Spec): Sys {
    if |s.entries| >= s.maxSubs || s.nextSub >= U64_MAX then s
    else
      var id := s.nextSub;
      var sn := Snapshot(id, 0, s.view, SubState.Pending(s.view.source, None));
      Enqueue(s.(nextSub := id + 1,
                 entries := s.entries[id := Entry(spec, 0, 0, None, true, None, sn)],
                 specs := s.specs[(id, 0) := spec],
                 log := s.log + {sn}), id)
  }

  function DoReplace(s: Sys, id: SubId, spec: Spec): Sys {
    if id !in s.entries || s.entries[id].epoch >= U64_MAX then s
    else
      var e := s.entries[id];
      var s1 := s.(entries := s.entries[id := e.(spec := spec, epoch := e.epoch + 1, dirty := true)],
                   specs := s.specs[(id, e.epoch + 1) := spec],
                   cancelledJobs := if e.active.Some? then s.cancelledJobs + {e.active.value} else s.cancelledJobs);
      var s2 := Publish(s1, id, SubState.Pending(s.view.source, e.lastReady));
      if e.active.Some? then s2 else Enqueue(s2, id)
  }

  /** Explicit cancellation, or the cleanup message a dropped handle leaves behind. */
  function DoCancel(s: Sys, id: SubId): Sys {
    if id !in s.entries then s
    else
      var e := s.entries[id];
      var sn := Snapshot(id, e.epoch, s.view, SubState.Cancelled);
      s.(entries := s.entries - {id},
         cancelledSubs := s.cancelledSubs + {id},
         cancelledJobs := if e.active.Some? then s.cancelledJobs + {e.active.value} else s.cancelledJobs,
         log := s.log + {sn})
  }

  predicate Schedulable(s: Sys, id: SubId) {
    id in s.entries && s.entries[id].dirty && s.entries[id].active.None? && s.entries[id].nextJob < U64_MAX
  }

  /** Hand one subscription's job to the worker queue. */
  function Submit(s: Sys, id: SubId): Sys
    requires Schedulable(s, id)
  {
    var e := s.entries[id];
    var stamp := Stamp(id, e.epoch, e.nextJob, s.view.source);
    var s1 := s.(queue := s.queue + [Job(stamp, s.view, e.spec)],
                 entries := s.entries[id := e.(nextJob := e.nextJob + 1, active := Some(stamp), dirty := false)]);
    Publish(s1, id, Searching(stamp, None, e.lastReady))
  }

  /** One turn of the scheduling loop: the head of the pending list is dropped, submitted, or put
      back at the end when the queue is full. */
  function DoScheduleOne(s: Sys): Sys
    requires s.pending != []
  {
    var id := s.pending[0];
    var s1 := s.(pending := s.pending[1..], pendingSet := s.pendingSet - {id});
    if !Schedulable(s1, id) then s1
    else if |s1.queue| < s1.capacity then Submit(s1, id)
    else Enqueue(s1, id)
  }

  /** Whether a progress message still speaks for the subscription. */
  predicate Accepts(s: Sys, st: Stamp) {
    && st.sub in s.entries
    && st.source == s.view.source
    && s.entries[st.sub].epoch == st.epoch
    && st.sub !in s.cancelledSubs
    && s.entries[st.sub].active == Some(st)
    && st !in s.cancelledJobs
  }

  function DoProgress(s: Sys, st: Stamp, best: Option<Tagged>): Sys {
    if !Accepts(s, st) || best.None? then s
    else Publish(s, st.sub, Searching(st, best, s.entries[st.sub].lastReady))
  }

  predicate Stale(s: Sys, st: Stamp)
    requires st.sub in s.entries
  {
    st.source != s.view.source || s.entries[st.sub].epoch != st.epoch || st.sub in s.cancelledSubs
  }

  function DoCompleted(s: Sys, st: Stamp, outcome: Outcome): Sys {
    if st.sub !in s.entries || s.entries[st.sub].active != Some(st) then s
    else
      var id := st.sub;
      var e := s.entries[id];
      if Stale(s, st) then
        var dirty := id !in s.cancelledSubs;
        var s1 := s.(entries := s.entries[id := e.(active := None, dirty := dirty)]);
        if dirty then Enqueue(s1, id) else s1
      else match outcome
        case Done(report) =>
          Publish(s.(entries := s.entries[id := e.(active := None, lastReady := report.best)]), id, Ready(st.source, report.best, report))
        case Broke(cancelled) =>
          Publish(s.(entries := s.entries[id := e.(active := None)]), id, Failed(st.source, cancelled))
  }

  function Handle(s: Sys, m: Message): Sys {
    match m
    case Progress(st, best) => DoProgress(s, st, best)
    case Completed(st, outcome) => DoCompleted(s, st, outcome)
  }

  // ---- steps of the whole system ----

  datatype Step =
    | Commit(view: View, ids: seq<SubId>)
    | Subscribe(spec: Spec)
    | Replace(id: SubId, spec: Spec)
    | Cancel(id: SubId)
    | Schedule
    | Receive(index: nat)            // the actor takes some message out of the results channel
    | UserCancel(id: SubId)          // a client flips its subscription's token at any moment
    | Begin                          // a worker takes the next queued job
    | Emit(job: Job, best: Option<nat>)
    | Finish(job: Job, outcome: Outcome)

  predicate Flagged(s: Sys, st: Stamp) { st in s.cancelledJobs || st.sub in s.cancelledSubs }

  /** What a worker may report for a job: the search of its own spec on its own view, cut short or
      refused only under a cancellation flag. */
  predicate HonestOutcome(jobs: set<Stamp>, subs: set<SubId>, job: Job, outcome: Outcome) {
    match outcome
    case Done(r) =>
      && r.spec == job.spec && r.view == job.view && (!r.whole ==> (job.stamp in jobs || job.stamp.sub in subs))
      && (r.best.Some? ==> r.best.value.spec == job.spec && r.best.value.view == job.view)
    case Broke(cancelled) => cancelled ==> (job.stamp in jobs || job.stamp.sub in subs)
  }

  ghost predicate Lists(ids: seq<SubId>, entries: map<SubId, Entry>) {
    forall id :: id in ids <==> id in entries
  }

  ghost predicate Enabled(s: Sys, step: Step) {
    match step
    case Commit(view, ids) => view.source.version == s.view.source.version + 1 && Lists(ids, s.entries)
    case Schedule => s.pending != []
    case Receive(i) => i < |s.inbox|
    case UserCancel(id) => id < s.nextSub
    case Begin => s.queue != []
    case Emit(job, _) => job in s.running
    case Finish(job, outcome) => job in s.running && HonestOutcome(s.cancelledJobs, s.cancelledSubs, job, outcome)
    case _ => true
  }

  ghost function Apply(s: Sys, step: Step): Sys
    requires Enabled(s, step)
  {
    match step
    case Commit(view, ids) => DoCommit(s, view, ids)
    case Subscribe(spec) => DoSubscribe(s, spec)
    case Replace(id, spec) => DoReplace(s, id, spec)
    case Cancel(id) => DoCancel(s, id)
    case Schedule => DoScheduleOne(s)
    case Receive(i) => Handle(s.(inbox := s.inbox[..i] + s.inbox[i + 1..]), s.inbox[i])
    case UserCancel(id) => s.(cancelledSubs := s.cancelledSubs + {id})
    case Begin => s.(queue := s.queue[1..], running := s.running + {s.queue[0]})
    case Emit(job, best) =>
      s.(inbox := s.inbox + [Progress(job.stamp, if best.Some? then Some(Tagged(job.spec, job.view, best.value)) else None)])
    case Finish(job, outcome) => s.(running := s.running - {job}, inbox := s.inbox + [Completed(job.stamp, outcome)])
  }

  // ---- invariants ----

  /** `pending` is a duplicate-free listing of `pendingSet`. */
  ghost predicate PendingOk(s: Sys) {
    Distinct(s.pending) && (forall id :: id in s.pending <==> id in s.pendingSet)
  }

  /** An idle subscription with outstanding changes is queued, unless its job numbers ran out. */
  ghost predicate NoLostWork(s: Sys) {
    forall id :: id in s.entries && s.entries[id].dirty && s.entries[id].active.None? ==>
      id in s.pendingSet || s.entries[id].nextJob >= U64_MAX
  }

  /** A running job is outdated exactly when the subscription is dirty. */
  ghost predicate ActiveOk(s: Sys) {
    forall id :: id in s.entries && s.entries[id].active.Some? ==>
      var e := s.entries[id];
      var st := e.active.value;
      && st.sub == id && st.job < e.nextJob && st.epoch <= e.epoch && st.source.version <= s.view.source.version
      && (e.dirty <==> st.source != s.view.source || st.epoch != e.epoch)
  }

  /** A job the actor waits for is queued, running, or has answered. */
  ghost predicate Outstanding(queue: seq<Job>, running: set<Job>, inbox: seq<Message>, st: Stamp) {
    || (exists i :: 0 <= i < |queue| && queue[i].stamp == st)
    || (exists j :: j in running && j.stamp == st)
    || (exists i :: 0 <= i < |inbox| && inbox[i].Completed? && inbox[i].stamp == st)
  }

  ghost predicate AllOutstanding(s: Sys) {
    forall id :: id in s.entries && s.entries[id].active.Some? ==> Outstanding(s.queue, s.running, s.inbox, s.entries[id].active.value)
  }

  ghost predicate OthersOutstanding(s: Sys, st: Stamp) {
    forall id :: id in s.entries && s.entries[id].active.Some? && s.entries[id].active != Some(st) ==>
      Outstanding(s.queue, s.running, s.inbox, s.entries[id].active.value)
  }

  ghost predicate Recorded(specs: map<(SubId, nat), Spec>, nextSub: nat, id: SubId, e: Entry) {
    id < nextSub && (id, e.epoch) in specs && specs[(id, e.epoch)] == e.spec
  }

  ghost predicate Reached(entries: map<SubId, Entry>, nextSub: nat, id: SubId, epoch: nat) {
    id < nextSub && (id in entries ==> epoch <= entries[id].epoch)
  }

  /** The history of specs covers every live epoch and is never rewritten. */
  ghost predicate SpecsOk(s: Sys) {
    && (forall id :: id in s.entries ==> Recorded(s.specs, s.nextSub, id, s.entries[id]))
    && (forall k :: k in s.specs ==> Reached(s.entries, s.nextSub, k.0, k.1))
  }

  ghost predicate Past(s: Sys, v: View) { v.source.version < s.view.source.version || v == s.view }

  /** Work stamped `st` belongs to the spec of its epoch and to the view its source names. */
  ghost predicate TagOk(s: Sys, st: Stamp, spec: Spec, view: View) {
    && (st.sub, st.epoch) in s.specs && s.specs[(st.sub, st.epoch)] == spec
    && view.source == st.source && Past(s, view)
  }

  ghost predicate BestOk(best: Option<Tagged>, spec: Spec, view: View) {
    best.Some? ==> best.value.spec == spec && best.value.view == view
  }

  ghost predicate MessageOk(s: Sys, m: Message) {
    match m
    case Progress(st, best) => best.Some? ==> TagOk(s, st, best.value.spec, best.value.view)
    case Completed(st, Done(r)) => TagOk(s, st, r.spec, r.view) && BestOk(r.best, r.spec, r.view) && (!r.whole ==> Flagged(s, st))
    case Completed(st, Broke(cancelled)) => cancelled ==> Flagged(s, st)
  }

  ghost predicate WorkOk(s: Sys) {
    && (forall i :: 0 <= i < |s.queue| ==> TagOk(s, s.queue[i].stamp, s.queue[i].spec, s.queue[i].view))
    && (forall j :: j in s.running ==> TagOk(s, j.stamp, j.spec, j.view))
    && (forall i :: 0 <= i < |s.inbox| ==> MessageOk(s, s.inbox[i]))
  }

  /** A flagged job is outdated: its epoch is over or its source is. */
  ghost predicate Outdated(entries: map<SubId, Entry>, nextSub: nat, source: Provenance, st: Stamp) {
    && st.sub < nextSub && st.source.version <= source.version
    && (st.sub in entries ==>
          && st.epoch <= entries[st.sub].epoch
          && !(st.epoch == entries[st.sub].epoch && st.source == source))
  }

  /** Only outdated jobs carry a job-cancellation flag. */
  ghost predicate FlagsOk(s: Sys) {
    forall st :: st in s.cancelledJobs ==> Outdated(s.entries, s.nextSub, s.view.source, st)
  }

  /** A published snapshot speaks for exactly its view and its epoch's spec. */
  ghost predicate SnapshotOk(s: Sys, sn: Snapshot) {
    match sn.state
    case Ready(source, best, r) =>
      && r.whole && r.view == sn.view && source == sn.view.source
      && (sn.id, sn.epoch) in s.specs && r.spec == s.specs[(sn.id, sn.epoch)] && best == r.best && BestOk(best, r.spec, r.view)
    case Failed(source, cancelled) => !cancelled && source == sn.view.source
    case Searching(st, provisional, _) =>
      && st.source == sn.view.source && st.epoch == sn.epoch && st.sub == sn.id
      && (provisional.Some? ==>
            && provisional.value.view == sn.view
            && (sn.id, sn.epoch) in s.specs && provisional.value.spec == s.specs[(sn.id, sn.epoch)])
    case _ => true
  }

  ghost predicate LogOk(s: Sys) {
    forall sn :: sn in s.log ==> SnapshotOk(s, sn)
  }

  /** A clean idle subscription shows a result for the current view and epoch. */
  ghost predicate Settled(s: Sys) {
    forall id :: id in s.entries && s.entries[id].active.None? && !s.entries[id].dirty && id !in s.cancelledSubs ==>
      var sn := s.entries[id].snapshot;
      && sn in s.log && sn.id == id && sn.epoch == s.entries[id].epoch && sn.view == s.view
      && (sn.state.Ready? || sn.state.Failed?) && sn.state.source == s.view.source
  }

  ghost predicate Inv(s: Sys) {
    PendingOk(s) && NoLostWork(s) && ActiveOk(s) && AllOutstanding(s) && SpecsOk(s) && WorkOk(s) && FlagsOk(s) && LogOk(s) && Settled(s)
  }

  ghost predicate Init(s: Sys) {
    && s.entries == map[] && s.pending == [] && s.pendingSet == {} && s.nextSub == 0
    && s.queue == [] && s.running == {} && s.inbox == [] && s.cancelledJobs == {} && s.specs == map[] && s.log == {}
  }

  // ---- frames ----

  /** The histories of `t` extend those of `s`. */
  ghost predicate Later(s: Sys, t: Sys) {
    && (forall k :: k in s.specs ==> k in t.specs && t.specs[k] == s.specs[k])
    && s.cancelledJobs <= t.cancelledJobs && s.cancelledSubs <= t.cancelledSubs
    && (t.view == s.view || t.view.source.version > s.view.source.version)
  }

  lemma MessageKept(s: Sys, t: Sys, m: Message)
    requires Later(s, t) && MessageOk(s, m)
    ensures MessageOk(t, m)
  {
  }

  /** Work keeps its tags while the histories grow and new work is tagged. */
  lemma WorkKept(s: Sys, t: Sys)
    requires Later(s, t) && WorkOk(s)
    requires forall i :: 0 <= i < |t.queue| ==> t.queue[i] in s.queue || TagOk(t, t.queue[i].stamp, t.queue[i].spec, t.queue[i].view)
    requires forall j :: j in t.running ==> j in s.running || TagOk(t, j.stamp, j.spec, j.view)
    requires forall i :: 0 <= i < |t.inbox| ==> t.inbox[i] in s.inbox || MessageOk(t, t.inbox[i])
    ensures WorkOk(t)
  {
  }

  lemma LogKept(s: Sys, t: Sys)
    requires Later(s, t) && LogOk(s)
    requires forall sn :: sn in t.log && sn !in s.log ==> SnapshotOk(t, sn)
    ensures LogOk(t)
  {
  }

  lemma OutstandingKept(s: Sys, t: Sys, st: Stamp)
    requires Outstanding(s.queue, s.running, s.inbox, st)
    requires forall j :: j in s.queue ==> j in t.queue || j in t.running
    requires forall j :: j in s.running && j.stamp == st ==> j in t.running || exists i :: 0 <= i < |t.inbox| && t.inbox[i].Completed? && t.inbox[i].stamp == st
    requires forall m :: m in s.inbox && m.Completed? && m.stamp == st ==> m in t.inbox
    ensures Outstanding(t.queue, t.running, t.inbox, st)
  {
  }

  // ---- every handler keeps the invariants ----

  lemma {:induction false} NewlyQueuedExact(entries: map<SubId, Entry>, queued: set<SubId>, ids: seq<SubId>)
    ensures Distinct(NewlyQueued(entries, queued, ids))
    ensures forall id :: id in NewlyQueued(entries, queued, ids) <==>
              id in ids && id in entries && entries[id].active.None? && id !in queued
  {
    if ids != [] {
      NewlyQueuedExact(entries, queued, ids[..|ids| - 1]);
      assert ids == ids[..|ids| - 1] + [ids[|ids| - 1]];
    }
  }

  lemma CommitKeepsQueues(s: Sys, view: View, ids: seq<SubId>)
    requires ActiveOk(s) && PendingOk(s) && NoLostWork(s) && Settled(s) && Enabled(s, Step.Commit(view, ids))
    ensures PendingOk(DoCommit(s, view, ids)) && NoLostWork(DoCommit(s, view, ids)) && Settled(DoCommit(s, view, ids))
  {
    NewlyQueuedExact(s.entries, s.pendingSet, ids);
    var more := NewlyQueued(s.entries, s.pendingSet, ids);
    DistinctConcat(s.pending, more);
    assert forall id :: id in s.pending + more <==> id in s.pending || id in more;
  }

  lemma CommitKeepsJobs(s: Sys, view: View, ids: seq<SubId>)
    requires ActiveOk(s) && AllOutstanding(s) && Enabled(s, Step.Commit(view, ids))
    ensures ActiveOk(DoCommit(s, view, ids)) && AllOutstanding(DoCommit(s, view, ids))
  {
  }

  lemma CommitKeepsSpecs(s: Sys, view: View, ids: seq<SubId>)
    requires ActiveOk(s) && SpecsOk(s) && FlagsOk(s) && Enabled(s, Step.Commit(view, ids))
    ensures SpecsOk(DoCommit(s, view, ids)) && FlagsOk(DoCommit(s, view, ids))
  {
  }

  lemma CommitKeepsHistory(s: Sys, view: View, ids: seq<SubId>)
    requires SpecsOk(s) && FlagsOk(s) && WorkOk(s) && LogOk(s) && Enabled(s, Step.Commit(view, ids))
    ensures WorkOk(DoCommit(s, view, ids)) && LogOk(DoCommit(s, view, ids))
  {
  }

  lemma SubscribeKeepsQueues(s: Sys, spec: Spec)
    requires ActiveOk(s) && PendingOk(s) && NoLostWork(s) && Settled(s)
    ensures PendingOk(DoSubscribe(s, spec)) && NoLostWork(DoSubscribe(s, spec)) && Settled(DoSubscribe(s, spec))
  {
  }

  lemma SubscribeKeepsJobs(s: Sys, spec: Spec)
    requires ActiveOk(s) && AllOutstanding(s)
    ensures ActiveOk(DoSubscribe(s, spec)) && AllOutstanding(DoSubscribe(s, spec))
  {
    hide Outstanding;
  }

  lemma SubscribeKeepsSpecs(s: Sys, spec: Spec)
    requires SpecsOk(s)
    ensures SpecsOk(DoSubscribe(s, spec))
  {
  }

  lemma SubscribeKeepsFlags(s: Sys, spec: Spec)
    requires ActiveOk(s) && SpecsOk(s) && FlagsOk(s)
    ensures FlagsOk(DoSubscribe(s, spec))
  {
  }

  lemma SubscribeKeepsHistory(s: Sys, spec: Spec)
    requires SpecsOk(s) && FlagsOk(s) && WorkOk(s) && LogOk(s)
    ensures WorkOk(DoSubscribe(s, spec)) && LogOk(DoSubscribe(s, spec))
  {
    WorkKept(s, DoSubscribe(s, spec));
    LogKept(s, DoSubscribe(s, spec));
  }

  lemma ReplaceKeepsQueues(s: Sys, id: SubId, spec: Spec)
    requires ActiveOk(s) && PendingOk(s) && NoLostWork(s) && Settled(s)
    ensures PendingOk(DoReplace(s, id, spec)) && NoLostWork(DoReplace(s, id, spec)) && Settled(DoReplace(s, id, spec))
  {
  }

  lemma ReplaceKeepsJobs(s: Sys, id: SubId, spec: Spec)
    requires ActiveOk(s) && AllOutstanding(s)
    ensures ActiveOk(DoReplace(s, id, spec)) && AllOutstanding(DoReplace(s, id, spec))
  {
  }

  lemma ReplaceKeepsSpecs(s: Sys, id: SubId, spec: Spec)
    requires SpecsOk(s)
    ensures SpecsOk(DoReplace(s, id, spec))
  {
  }

  lemma ReplaceKeepsFlags(s: Sys, id: SubId, spec: Spec)
    requires ActiveOk(s) && SpecsOk(s) && FlagsOk(s)
    ensures FlagsOk(DoReplace(s, id, spec))
  {
  }

  lemma ReplaceKeepsHistory(s: Sys, id: SubId, spec: Spec)
    requires SpecsOk(s) && FlagsOk(s) && WorkOk(s) && LogOk(s)
    ensures WorkOk(DoReplace(s, id, spec)) && LogOk(DoReplace(s, id, spec))
  {
    WorkKept(s, DoReplace(s, id, spec));
    LogKept(s, DoReplace(s, id, spec));
  }

  lemma CancelKeepsQueues(s: Sys, id: SubId)
    requires ActiveOk(s) && PendingOk(s) && NoLostWork(s) && Settled(s)
    ensures PendingOk(DoCancel(s, id)) && NoLostWork(DoCancel(s, id)) && Settled(DoCancel(s, id))
  {
  }

  lemma CancelKeepsJobs(s: Sys, id: SubId)
    requires ActiveOk(s) && AllOutstanding(s)
    ensures ActiveOk(DoCancel(s, id)) && AllOutstanding(DoCancel(s, id))
  {
  }

  lemma CancelKeepsSpecs(s: Sys, id: SubId)
    requires ActiveOk(s) && SpecsOk(s) && FlagsOk(s)
    ensures SpecsOk(DoCancel(s, id)) && FlagsOk(DoCancel(s, id))
  {
  }

  lemma CancelKeepsHistory(s: Sys, id: SubId)
    requires SpecsOk(s) && FlagsOk(s) && WorkOk(s) && LogOk(s)
    ensures WorkOk(DoCancel(s, id)) && LogOk(DoCancel(s, id))
  {
  }

  lemma ScheduleKeepsQueues(s: Sys)
    requires ActiveOk(s) && PendingOk(s) && NoLostWork(s) && Settled(s) && s.pending != []
    ensures PendingOk(DoScheduleOne(s)) && NoLostWork(DoScheduleOne(s)) && Settled(DoScheduleOne(s))
  {
  }

  lemma ScheduleKeepsJobs(s: Sys)
    requires ActiveOk(s) && AllOutstanding(s) && s.pending != []
    ensures ActiveOk(DoScheduleOne(s)) && AllOutstanding(DoScheduleOne(s))
  {
    var t := DoScheduleOne(s);
    forall id | id in t.entries && t.entries[id].active.Some? ensures Outstanding(t.queue, t.running, t.inbox, t.entries[id].active.value) {
      if s.entries[id].active.Some? {
        OutstandingKept(s, t, t.entries[id].active.value);
      } else {
        assert t.queue[|s.queue|].stamp == t.entries[id].active.value;
      }
    }
  }

  lemma ScheduleKeepsSpecs(s: Sys)
    requires ActiveOk(s) && SpecsOk(s) && FlagsOk(s) && s.pending != []
    ensures SpecsOk(DoScheduleOne(s)) && FlagsOk(DoScheduleOne(s))
  {
  }

  lemma ScheduleKeepsHistory(s: Sys)
    requires SpecsOk(s) && FlagsOk(s) && WorkOk(s) && LogOk(s) && s.pending != []
    ensures WorkOk(DoScheduleOne(s)) && LogOk(DoScheduleOne(s))
  {
  }

  lemma ProgressKeepsQueues(s: Sys, st: Stamp, best: Option<Tagged>)
    requires ActiveOk(s) && PendingOk(s) && NoLostWork(s) && Settled(s) && MessageOk(s, Message.Progress(st, best))
    ensures PendingOk(DoProgress(s, st, best)) && NoLostWork(DoProgress(s, st, best)) && Settled(DoProgress(s, st, best))
  {
  }

  lemma ProgressKeepsJobs(s: Sys, st: Stamp, best: Option<Tagged>)
    requires ActiveOk(s) && AllOutstanding(s) && MessageOk(s, Message.Progress(st, best))
    ensures ActiveOk(DoProgress(s, st, best)) && AllOutstanding(DoProgress(s, st, best))
  {
  }

  lemma ProgressKeepsSpecs(s: Sys, st: Stamp, best: Option<Tagged>)
    requires ActiveOk(s) && SpecsOk(s) && FlagsOk(s) && MessageOk(s, Message.Progress(st, best))
    ensures SpecsOk(DoProgress(s, st, best)) && FlagsOk(DoProgress(s, st, best))
  {
  }

  lemma ProgressKeepsHistory(s: Sys, st: Stamp, best: Option<Tagged>)
    requires SpecsOk(s) && FlagsOk(s) && WorkOk(s) && LogOk(s) && MessageOk(s, Message.Progress(st, best))
    ensures WorkOk(DoProgress(s, st, best)) && LogOk(DoProgress(s, st, best))
  {
  }

  lemma CompletedKeepsQueues(s: Sys, st: Stamp, outcome: Outcome)
    requires ActiveOk(s) && PendingOk(s) && NoLostWork(s) && Settled(s) && MessageOk(s, Message.Completed(st, outcome))
    ensures PendingOk(DoCompleted(s, st, outcome)) && NoLostWork(DoCompleted(s, st, outcome)) && Settled(DoCompleted(s, st, outcome))
  {
  }

  lemma CompletedKeepsActive(s: Sys, st: Stamp, outcome: Outcome)
    requires ActiveOk(s) && MessageOk(s, Message.Completed(st, outcome))
    ensures ActiveOk(DoCompleted(s, st, outcome))
  {
  }

  lemma CompletedKeepsJobs(s: Sys, st: Stamp, outcome: Outcome)
    requires ActiveOk(s) && OthersOutstanding(s, st) && MessageOk(s, Message.Completed(st, outcome))
    ensures AllOutstanding(DoCompleted(s, st, outcome))
  {
  }

  lemma CompletedKeepsSpecs(s: Sys, st: Stamp, outcome: Outcome)
    requires SpecsOk(s) && MessageOk(s, Message.Completed(st, outcome))
    ensures SpecsOk(DoCompleted(s, st, outcome))
  {
    hide SpecsOk;
    SpecsKept(s, DoCompleted(s, st, outcome));
  }

  /** The specs stay right while every subscription keeps its spec and epoch. */
  lemma SpecsKept(s: Sys, s': Sys)
    requires SpecsOk(s) && s'.specs == s.specs && s'.nextSub == s.nextSub && s'.entries.Keys == s.entries.Keys
    requires forall id :: id in s.entries ==> s'.entries[id].spec == s.entries[id].spec && s'.entries[id].epoch == s.entries[id].epoch
    ensures SpecsOk(s')
  {
  }

  lemma CompletedKeepsFlags(s: Sys, st: Stamp, outcome: Outcome)
    requires ActiveOk(s) && SpecsOk(s) && FlagsOk(s) && MessageOk(s, Message.Completed(st, outcome))
    ensures FlagsOk(DoCompleted(s, st, outcome))
  {
  }

  lemma CompletedKeepsHistory(s: Sys, st: Stamp, outcome: Outcome)
    requires SpecsOk(s) && FlagsOk(s) && WorkOk(s) && LogOk(s) && MessageOk(s, Message.Completed(st, outcome))
    ensures WorkOk(DoCompleted(s, st, outcome)) && LogOk(DoCompleted(s, st, outcome))
  {
    WorkKept(s, DoCompleted(s, st, outcome));
    LogKept(s, DoCompleted(s, st, outcome));
  }

  /** The invariants of a state whose message `m` has just been taken out of the channel. */
  ghost predicate InvBut(s: Sys, m: Message) {
    && PendingOk(s) && NoLostWork(s) && ActiveOk(s) && SpecsOk(s) && WorkOk(s) && FlagsOk(s) && LogOk(s) && Settled(s)
    && MessageOk(s, m)
    && (match m case Progress(_, _) => AllOutstanding(s) case Completed(st, _) => OthersOutstanding(s, st))
  }

  lemma TakeKeepsInv(s: Sys, i: nat)
    requires Inv(s) && i < |s.inbox|
    ensures InvBut(s.(inbox := s.inbox[..i] + s.inbox[i + 1..]), s.inbox[i])
  {
    hide PendingOk, NoLostWork, SpecsOk, FlagsOk, LogOk, Settled, MessageOk, TagOk, Outstanding;
    var t := s.(inbox := s.inbox[..i] + s.inbox[i + 1..]);
    var m := s.inbox[i];
    FramePlain(s, t);
    WorkKept(s, t);
    assert MessageOk(s, m);
    MessageKept(s, t, m);
    assert s.inbox == s.inbox[..i] + [m] + s.inbox[i + 1..];
    forall id | id in t.entries && t.entries[id].active.Some? && !(m.Completed? && t.entries[id].active.value == m.stamp)
      ensures Outstanding(t.queue, t.running, t.inbox, t.entries[id].active.value)
    {
      OutstandingKept(s, t, t.entries[id].active.value);
    }
  }

  /** Moving work between the channels and raising flags leaves the actor's own invariants alone. */
  lemma FramePlain(s: Sys, t: Sys)
    requires PendingOk(s) && NoLostWork(s) && ActiveOk(s) && SpecsOk(s) && FlagsOk(s) && LogOk(s) && Settled(s)
    requires s.cancelledSubs <= t.cancelledSubs
    requires t == s.(queue := t.queue, running := t.running, inbox := t.inbox, cancelledSubs := t.cancelledSubs)
    ensures PendingOk(t) && NoLostWork(t) && ActiveOk(t) && SpecsOk(t) && FlagsOk(t) && LogOk(t) && Settled(t)
  {
  }

  lemma ReceiveKeepsInv(s: Sys, m: Message)
    requires InvBut(s, m)
    ensures Inv(Handle(s, m))
  {
    hide PendingOk, NoLostWork, ActiveOk, AllOutstanding, OthersOutstanding, SpecsOk, WorkOk, FlagsOk, LogOk, Settled, DoProgress, DoCompleted, MessageOk;
    match m
    case Progress(st, best) =>
      ProgressKeepsQueues(s, st, best);
      ProgressKeepsJobs(s, st, best);
      ProgressKeepsSpecs(s, st, best);
      ProgressKeepsHistory(s, st, best);
    case Completed(st, outcome) =>
      CompletedKeepsQueues(s, st, outcome);
      CompletedKeepsActive(s, st, outcome);
      CompletedKeepsJobs(s, st, outcome);
      CompletedKeepsSpecs(s, st, outcome);
      CompletedKeepsFlags(s, st, outcome);
      CompletedKeepsHistory(s, st, outcome);
  }

  /** Worker and client steps: a job starts, reports, ends, or a client raises its flag. */
  lemma ChannelKeepsInv(s: Sys, step: Step)
    requires Inv(s) && Enabled(s, step)
    requires step.UserCancel? || step.Begin? || step.Emit? || step.Finish?
    ensures Inv(Apply(s, step))
  {
    hide PendingOk, NoLostWork, ActiveOk, SpecsOk, FlagsOk, LogOk, Settled, Outstanding;
    var t := Apply(s, step);
    FramePlain(s, t);
    WorkKept(s, t);
    forall id | id in t.entries && t.entries[id].active.Some?
      ensures Outstanding(t.queue, t.running, t.inbox, t.entries[id].active.value)
    {
      if step.Finish? {
        assert t.inbox[|s.inbox|] == Message.Completed(step.job.stamp, step.outcome);
      }
      if step.Begin? {
        assert s.queue == [s.queue[0]] + t.queue;
      }
      OutstandingKept(s, t, t.entries[id].active.value);
    }
  }

  /** Every step of the actor, its clients and its workers keeps every invariant. */
  lemma StepKeepsInv(s: Sys, step: Step)
    requires Inv(s) && Enabled(s, step)
    ensures Inv(Apply(s, step))
  {
    hide PendingOk, NoLostWork, ActiveOk, AllOutstanding, SpecsOk, WorkOk, FlagsOk, LogOk, Settled,
      DoCommit, DoSubscribe, DoReplace, DoCancel, DoScheduleOne, Handle, InvBut;
    match step
    case Commit(view, ids) =>
      CommitKeepsQueues(s, view, ids);
      CommitKeepsJobs(s, view, ids);
      CommitKeepsSpecs(s, view, ids);
      CommitKeepsHistory(s, view, ids);
    case Subscribe(spec) =>
      SubscribeKeepsQueues(s, spec);
      SubscribeKeepsJobs(s, spec);
      SubscribeKeepsSpecs(s, spec);
      SubscribeKeepsFlags(s, spec);
      SubscribeKeepsHistory(s, spec);
    case Replace(id, spec) =>
      ReplaceKeepsQueues(s, id, spec);
      ReplaceKeepsJobs(s, id, spec);
      ReplaceKeepsSpecs(s, id, spec);
      ReplaceKeepsFlags(s, id, spec);
      ReplaceKeepsHistory(s, id, spec);
    case Cancel(id) =>
      CancelKeepsQueues(s, id);
      CancelKeepsJobs(s, id);
      CancelKeepsSpecs(s, id);
      CancelKeepsHistory(s, id);
    case Schedule =>
      ScheduleKeepsQueues(s);
      ScheduleKeepsJobs(s);
      ScheduleKeepsSpecs(s);
      ScheduleKeepsHistory(s);
    case Receive(i) =>
      TakeKeepsInv(s, i);
      ReceiveKeepsInv(s.(inbox := s.inbox[..i] + s.inbox[i + 1..]), s.inbox[i]);
    case _ =>
      ChannelKeepsInv(s, step);
  }

  // ---- whole runs ----

  ghost predicate IsRun(states: seq<Sys>, steps: seq<Step>) {
    && |states| == |steps| + 1 && Init(states[0])
    && (forall i :: 0 <= i < |steps| ==> Enabled(states[i], steps[i]) && states[i + 1] == Apply(states[i], steps[i]))
  }

  lemma {:induction false} RunsKeepInv(states: seq<Sys>, steps: seq<Step>, k: nat)
    requires IsRun(states, steps) && k < |states|
    ensures Inv(states[k])
  {
    if k > 0 {
      RunsKeepInv(states, steps, k - 1);
      hide Inv, Enabled, Apply, Init;
      StepKeepsInv(states[k - 1], steps[k - 1]);
    }
  }

  /** Fencing: whatever the interleaving, a published Ready snapshot carries a complete search of
      its epoch's spec on exactly the view stored in it, a failure is never a cancellation, and a provisional quote never comes from
      another view or spec. */
  lemma PublishedResultsAreFenced(states: seq<Sys>, steps: seq<Step>, k: nat, sn: Snapshot)
    requires IsRun(states, steps) && k < |states| && sn in states[k].log
    ensures sn.state.Ready? ==>
              var r := sn.state.report;
              && r.whole && r.view == sn.view && sn.state.source == sn.view.source && sn.state.best == r.best
              && (sn.id, sn.epoch) in states[k].specs && r.spec == states[k].specs[(sn.id, sn.epoch)]
    ensures sn.state.Failed? ==> !sn.state.cancelled && sn.state.source == sn.view.source
    ensures sn.state.Searching? && sn.state.provisional.Some? ==>
              var q := sn.state.provisional.value;
              && q.view == sn.view && (sn.id, sn.epoch) in states[k].specs && q.spec == states[k].specs[(sn.id, sn.epoch)]
  {
    RunsKeepInv(states, steps, k);
    assert SnapshotOk(states[k], sn);
  }

  /** The subscription shows a complete result, or a failure, for the current view, epoch and spec. */
  ghost predicate Shows(s: Sys, id: SubId)
    requires id in s.entries
  {
    var e := s.entries[id];
    var sn := e.snapshot;
    && sn.epoch == e.epoch && sn.view == s.view
    && (sn.state.Failed? || (sn.state.Ready? && sn.state.report.whole && sn.state.report.spec == e.spec && sn.state.report.view == s.view))
  }

  ghost predicate Idle(s: Sys) { forall i :: i in s.entries ==> s.entries[i].active.None? }

  /** Every uncancelled subscription shows its current result, or has used up its job numbers. */
  ghost predicate UpToDate(s: Sys) {
    forall id :: id in s.entries && id !in s.cancelledSubs ==> Shows(s, id) || (s.entries[id].dirty && s.entries[id].nextJob >= U64_MAX)
  }

  /** Quiescence: with nothing active and nothing pending everything is up to date. */
  lemma IdleIsUpToDate(s: Sys)
    requires Inv(s) && s.pending == [] && Idle(s)
    ensures UpToDate(s)
  {
    hide ActiveOk, AllOutstanding, WorkOk, FlagsOk;
    forall id | id in s.entries && id !in s.cancelledSubs ensures Shows(s, id) || (s.entries[id].dirty && s.entries[id].nextJob >= U64_MAX) {
      assert id !in s.pending;
      if !s.entries[id].dirty {
        assert SnapshotOk(s, s.entries[id].snapshot);
      }
    }
  }

  lemma QuiescentIsCurrent(states: seq<Sys>, steps: seq<Step>, k: nat)
    requires IsRun(states, steps) && k < |states| && states[k].pending == [] && Idle(states[k])
    ensures UpToDate(states[k])
  {
    hide Inv, UpToDate, Idle;
    RunsKeepInv(states, steps, k);
    IdleIsUpToDate(states[k]);
  }

  /** Work is never lost: a dirty idle subscription is queued once, an outdated job is one whose
      subscription is dirty, and every job waited for is still queued, running or answered. */
  lemma WorkIsNeverLost(states: seq<Sys>, steps: seq<Step>, k: nat, id: SubId)
    requires IsRun(states, steps) && k < |states| && id in states[k].entries
    ensures var s := states[k];
            var e := s.entries[id];
            && Distinct(s.pending) && (e.active.None? && e.dirty && e.nextJob < U64_MAX ==> id in s.pending)
            && (e.active.Some? ==>
                  && Outstanding(s.queue, s.running, s.inbox, e.active.value)
                  && (e.dirty <==> e.active.value.source != s.view.source || e.active.value.epoch != e.epoch))
  {
    RunsKeepInv(states, steps, k);
  }

  // ---- runs as step lists ----

  /** The steps lead from `s` to `t`, each enabled in its turn. */
  ghost predicate Leads(s: Sys, steps: seq<Step>, t: Sys)
    decreases |steps|
  {
    if steps == [] then s == t else Enabled(s, steps[0]) && Leads(Apply(s, steps[0]), steps[1..], t)
  }

  lemma {:induction false} LeadsKeepsInv(s: Sys, steps: seq<Step>, t: Sys)
    requires Leads(s, steps, t) && Inv(s)
    ensures Inv(t)
    decreases |steps|
  {
    hide Inv, Enabled, Apply;
    if steps != [] {
      StepKeepsInv(s, steps[0]);
      LeadsKeepsInv(Apply(s, steps[0]), steps[1..], t);
    }
  }

  lemma {:induction false} LeadsOn(s: Sys, steps: seq<Step>, t: Sys, more: seq<Step>, u: Sys)
    requires Leads(s, steps, t) && Leads(t, more, u)
    ensures Leads(s, steps + more, u)
    decreases |steps|
  {
    hide Enabled, Apply;
    if steps == [] {
      assert steps + more == more;
    } else {
      assert (steps + more)[1..] == steps[1..] + more;
      LeadsOn(Apply(s, steps[0]), steps[1..], t, more, u);
    }
  }

  lemma LeadsOnce(s: Sys, step: Step)
    requires Enabled(s, step)
    ensures Leads(s, [step], Apply(s, step))
  {
    hide Enabled, Apply;
    assert [step][1..] == [];
  }

  lemma InitKeepsInv(s: Sys)
    requires Init(s)
    ensures Inv(s)
  {
  }

  /** What every published snapshot satisfies. */
  ghost predicate Fenced(s: Sys) {
    forall sn :: sn in s.log && sn.state.Ready? ==>
      var r := sn.state.report;
      && r.whole && r.view == sn.view && sn.state.source == sn.view.source && sn.state.best == r.best
      && (sn.id, sn.epoch) in s.specs && r.spec == s.specs[(sn.id, sn.epoch)]
  }

  lemma InvIsFenced(s: Sys)
    requires Inv(s)
    ensures Fenced(s)
  {
    hide PendingOk, NoLostWork, ActiveOk, AllOutstanding, SpecsOk, WorkOk, FlagsOk, Settled;
    forall sn | sn in s.log ensures SnapshotOk(s, sn) {}
  }
}
