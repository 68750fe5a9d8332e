/** The actor itself: the handlers that update its fields in place, each proved to take the
    protocol state to the one its specification names. */
module LiveRouteActors {
  import opened Routing
  import opened LiveRoutes
  import opened LiveRouteHistory

  /** What the actor may be given: a commit, a command, a dropped handle's cleanup, or a worker's message
      at some place of the results channel, possibly with a commit that became ready meanwhile. */
  datatype Input =
    | CommitIn(view: View)
    | SubscribeIn(spec: Spec)
    | ReplaceIn(id: SubId, spec: Spec)
    | CancelIn(id: SubId)
    | WorkerIn(index: nat, commit: Option<View>)

  datatype Happening = Input(input: Input) | Outside(step: Step)

  predicate Arrives(s: Sys, input: Input) {
    match input
    case CommitIn(next) => next.source.version == s.view.source.version + 1
    case WorkerIn(i, commit) => i < |s.inbox| && (commit.Some? ==> commit.value.source.version == s.view.source.version + 1)
    case _ => true
  }

  function InputSize(input: Input): nat { if input.WorkerIn? && input.commit.Some? then 2 else 1 }

  /** The commit step of a view: every live subscription is visited, in some order. */
  ghost predicate IsCommit(s: Sys, view: View, step: Step) {
    step.Commit? && step.view == view && Lists(step.ids, s.entries)
  }

  /** The protocol steps an input stands for. */
  ghost predicate Means(s: Sys, input: Input, steps: seq<Step>) {
    && |steps| == InputSize(input)
    && match input
       case CommitIn(next) => IsCommit(s, next, steps[0])
       case SubscribeIn(spec) => steps[0] == Step.Subscribe(spec)
       case ReplaceIn(id, spec) => steps[0] == Step.Replace(id, spec)
       case CancelIn(id) => steps[0] == Step.Cancel(id)
       case WorkerIn(i, None) => steps[0] == Step.Receive(i)
       case WorkerIn(i, Some(next)) => IsCommit(s, next, steps[0]) && steps[1] == Step.Receive(i)
  }

  /** Nothing schedulable is left behind unless the worker queue is full. */
  predicate Drained(s: Sys) { s.pending == [] || |s.queue| >= s.capacity }

  /** A turn: the steps of its input, then scheduling steps until the list is drained. */
  ghost predicate IsTurn(s: Sys, input: Input, steps: seq<Step>, t: Sys) {
    && InputSize(input) <= |steps| && Means(s, input, steps[..InputSize(input)])
    && (forall i :: InputSize(input) <= i < |steps| ==> steps[i].Schedule?)
    && Leads(s, steps, t) && Drained(t)
  }

  predicate ByOthers(step: Step) { step.UserCancel? || step.Begin? || step.Emit? || step.Finish? }

  /** What a happening does: its turn or its step if it can happen at its moment, otherwise nothing. */
  ghost predicate Does(s: Sys, h: Happening, steps: seq<Step>, t: Sys) {
    match h
    case Input(input) => if Arrives(s, input) then IsTurn(s, input, steps, t) else steps == [] && t == s
    case Outside(step) => if ByOthers(step) && Enabled(s, step) then steps == [step] && Leads(s, steps, t) else steps == [] && t == s
  }

  /** The happenings, one after the other, each through its own steps. */
  ghost predicate Unfolds(states: seq<Sys>, happenings: seq<Happening>, parts: seq<seq<Step>>) {
    && |states| == |happenings| + 1 && |parts| == |happenings|
    && forall k :: 0 <= k < |happenings| ==> Does(states[k], happenings[k], parts[k], states[k + 1])
  }

  datatype ActorError = SubscriptionCapacity | SequenceExhausted | SubscriptionNotFound

  /** `schedule_pending` as repeated single turns: until the list is empty or the queue is full. */
  ghost function ScheduleAll(s: Sys): Sys
    decreases |s.pending|
  {
    if s.pending == [] then s
    else if Blocked(s) then DoScheduleOne(s)
    else ScheduleAll(DoScheduleOne(s))
  }

  /** The head of the list wants a job and the worker queue has no room. */
  ghost predicate Blocked(s: Sys)
    requires s.pending != []
  {
    var id := s.pending[0];
    Schedulable(s.(pending := s.pending[1..], pendingSet := s.pendingSet - {id}), id) && |s.queue| >= s.capacity
  }

  lemma TurnShrinks(s: Sys)
    requires s.pending != []
    ensures DoScheduleOne(s).capacity == s.capacity
    ensures !Blocked(s) ==> |DoScheduleOne(s).pending| < |s.pending|
    ensures Blocked(s) ==> |DoScheduleOne(s).queue| >= s.capacity
  {
  }

  /** Scheduling keeps every invariant, and stops only with nothing pending or a full queue. */
  lemma {:induction false} ScheduleAllDrains(s: Sys)
    requires Inv(s)
    ensures Inv(ScheduleAll(s))
    ensures ScheduleAll(s).pending == [] || |ScheduleAll(s).queue| >= s.capacity
    decreases |s.pending|
  {
    hide Inv, DoScheduleOne, Blocked;
    if s.pending != [] {
      TurnShrinks(s);
      StepKeepsInv(s, Step.Schedule);
      if !Blocked(s) { ScheduleAllDrains(DoScheduleOne(s)); }
    }
  }

  class LiveRouteActor {
    var view: View
    var entries: map<SubId, Entry>
    var pending: seq<SubId>
    var pendingSet: set<SubId>
    var nextSub: nat
    const maxSubs: nat
    // the bounded worker queue and the cancellation flags shared with workers and clients
    const capacity: nat
    var queue: seq<Job>
    var cancelledJobs: set<Stamp>
    var cancelledSubs: set<SubId>
    // what workers hold and have sent, and the histories
    var running: set<Job>
    var inbox: seq<Message>
    ghost var specs: map<(SubId, nat), Spec>
    ghost var log: set<Snapshot>

    ghost function State(): Sys reads this {
      Sys(view, entries, pending, pendingSet, nextSub, maxSubs, capacity, queue, running, inbox, cancelledJobs, cancelledSubs, specs, log)
    }

    constructor (initial: View, maxSubs: nat, capacity: nat)
      ensures Init(State()) && Inv(State()) && view == initial && this.maxSubs == maxSubs && this.capacity == capacity
    {
      view := initial;
      entries, pending, pendingSet, nextSub := map[], [], {}, 0;
      this.maxSubs, this.capacity := maxSubs, capacity;
      queue, cancelledJobs, cancelledSubs := [], {}, {};
      running, inbox, specs, log := {}, [], map[], {};
      new;
      InitKeepsInv(State());
    }

    method EnqueuePending(id: SubId)
      modifies this
      ensures State() == Enqueue(old(State()), id)
    {
      if id !in pendingSet {
        pendingSet := pendingSet + {id};
        pending := pending + [id];
      }
    }

    method PublishSnapshot(id: SubId, state: SubState)
      modifies this
      ensures State() == if id in old(entries) then Publish(old(State()), id, state) else old(State())
    {
      if id in entries {
        var sn := Snapshot(id, entries[id].epoch, view, state);
        entries := entries[id := entries[id].(snapshot := sn)];
        log := log + {sn};
      }
    }

    /** Accept a subscription under a number never used before, pending and queued. */
    method AddSubscription(spec: Spec) returns (r: Result<SubId, ActorError>)
      requires Inv(State())
      modifies this
      ensures Inv(State()) && State() == DoSubscribe(old(State()), spec)
      ensures r.Success? ==> r.value !in old(entries) && forall k :: k in old(specs) ==> k.0 != r.value
      ensures r.Success? <==> |old(entries)| < maxSubs && old(nextSub) < U64_MAX
      ensures r.Success? ==> Accepted(old(State()), spec, r.value, State())
      ensures r.Failure? ==> (r.error == SubscriptionCapacity <==> |old(entries)| >= maxSubs)
    {
      hide Inv, DoSubscribe, Accepted;
      if |entries| < maxSubs && nextSub < U64_MAX { SubscribeAccepts(State(), spec); }
      StepKeepsInv(State(), Step.Subscribe(spec));
      NumbersAreNew(State());
      r := Register(spec);
    }

    method Register(spec: Spec) returns (r: Result<SubId, ActorError>)
      modifies this
      ensures State() == DoSubscribe(old(State()), spec)
      ensures r.Success? <==> |old(entries)| < maxSubs && old(nextSub) < U64_MAX
      ensures r.Success? ==> r.value == old(nextSub)
      ensures r.Failure? ==> (r.error == SubscriptionCapacity <==> |old(entries)| >= maxSubs)
    {
      if |entries| >= maxSubs { return Failure(SubscriptionCapacity); }
      if nextSub >= U64_MAX { return Failure(SequenceExhausted); }
      var id := nextSub;
      var initial := Snapshot(id, 0, view, SubState.Pending(view.source, None));
      nextSub, entries, specs, log :=
        id + 1, entries[id := Entry(spec, 0, 0, None, true, None, initial)], specs[(id, 0) := spec], log + {initial};
      EnqueuePending(id);
      return Success(id);
    }

    /** Forget a subscription; whatever its workers still send changes nothing. */
    method CancelSubscription(id: SubId) returns (r: Result<(), ActorError>)
      requires Inv(State())
      modifies this
      ensures Inv(State()) && State() == DoCancel(old(State()), id)
      ensures r.Success? <==> id in old(entries)
      ensures r.Success? ==> Ended(old(State()), id, State())
      ensures id !in entries && forall m: Message :: m.stamp.sub == id ==> Handle(State(), m) == State()
    {
      hide Inv, Ended;
      StepKeepsInv(State(), Step.Cancel(id));
      if id in entries { CancelEnds(State(), id); }
      if id !in entries { return Failure(SubscriptionNotFound); }
      var entry := entries[id];
      entries := entries - {id};
      cancelledSubs := cancelledSubs + {id};
      if entry.active.Some? { cancelledJobs := cancelledJobs + {entry.active.value}; }
      log := log + {Snapshot(id, entry.epoch, view, SubState.Cancelled)};
      return Success(());
    }

    /** Change the request: a new epoch begins, and no job begun before it can publish. */
    method ReplaceSubscription(id: SubId, spec: Spec) returns (r: Result<(), ActorError>)
      requires Inv(State())
      modifies this
      ensures Inv(State()) && State() == DoReplace(old(State()), id, spec)
      ensures r.Success? ==> id in old(entries) && Replaced(old(State()), id, spec, State())
      ensures r.Success? && entries[id].active.Some? ==> Stale(State(), entries[id].active.value) && !Accepts(State(), entries[id].active.value)
      ensures r.Success? <==> id in old(entries) && old(entries)[id].epoch < U64_MAX
      ensures r.Failure? ==> (r.error == SubscriptionNotFound <==> id !in old(entries))
    {
      hide Inv, Replaced;
      StepKeepsInv(State(), Step.Replace(id, spec));
      if id in entries && entries[id].epoch < U64_MAX { ReplaceReplaces(State(), id, spec); }
      OldEpochs(State(), id);
      if id !in entries { return Failure(SubscriptionNotFound); }
      var entry := entries[id];
      if entry.epoch >= U64_MAX { return Failure(SequenceExhausted); }
      if entry.active.Some? { cancelledJobs := cancelledJobs + {entry.active.value}; }
      entries := entries[id := entry.(spec := spec, epoch := entry.epoch + 1, dirty := true)];
      specs := specs[(id, entry.epoch + 1) := spec];
      PublishSnapshot(id, SubState.Pending(view.source, entry.lastReady));
      if entry.active.None? { EnqueuePending(id); }
      return Success(());
    }

    /** The commit loop's turn for one subscription: flag its job, mark it dirty, publish, queue. */
    method Invalidate(id: SubId)
      requires id in entries
      modifies this
      ensures State() == CommitOne(old(State()), id)
    {
      var entry := entries[id];
      if entry.active.Some? { cancelledJobs := cancelledJobs + {entry.active.value}; }
      entries := entries[id := entry.(dirty := true)];
      PublishSnapshot(id, SubState.Pending(view.source, entry.lastReady));
      if entry.active.None? { EnqueuePending(id); }
    }

    /** Move to the view of a contiguous commit; the subscriptions are visited in any order. */
    method ApplyCommit(next: View) returns (ghost ids: seq<SubId>)
      requires Inv(State()) && next.source.version == view.source.version + 1
      modifies this
      ensures Lists(ids, old(entries)) && State() == DoCommit(old(State()), next, ids) && Inv(State())
      ensures Advanced(old(State()), next, State())
    {
      hide Advanced, Inv, DoCommit, CommitPrefix, CommitOne;
      view := next;
      ids := [];
      var todo := entries.Keys;
      CommitPrefixNone(old(State()), next);
      while todo != {}
        invariant entries.Keys == old(entries).Keys
        invariant forall id :: id in old(entries) <==> id in todo || id in ids
        invariant forall id :: id in ids ==> id !in todo
        invariant State() == CommitPrefix(old(State()), next, ids)
        decreases |todo|
      {
        var id :| id in todo;
        todo := todo - {id};
        Invalidate(id);
        CommitPrefixStep(old(State()), next, ids, id);
        ids := ids + [id];
      }
      CommitPrefixAll(old(State()), next, ids);
      CommitAdvances(old(State()), next, ids);
      StepKeepsInv(old(State()), Step.Commit(next, ids));
    }

    /** One turn of the scheduling loop; `full` tells that the queue refused the job. */
    method ScheduleHead() returns (full: bool)
      requires pending != []
      modifies this
      ensures State() == DoScheduleOne(old(State())) && full == Blocked(old(State())) && Dealt(old(State()), State())
    {
      hide Dealt;
      ScheduleDeals(State());
      full := false;
      var id := pending[0];
      pending, pendingSet := pending[1..], pendingSet - {id};
      if id in entries && entries[id].dirty && entries[id].active.None? && entries[id].nextJob < U64_MAX {
        var entry := entries[id];
        var stamp := Stamp(id, entry.epoch, entry.nextJob, view.source);
        if |queue| < capacity {
          queue := queue + [Job(stamp, view, entry.spec)];
          entries := entries[id := entry.(nextJob := entry.nextJob + 1, active := Some(stamp), dirty := false)];
          PublishSnapshot(id, Searching(stamp, None, entry.lastReady));
        } else {
          EnqueuePending(id);
          full := true;
        }
      }
    }

    /** Hand queued subscriptions to the workers until the list is empty or the queue is full. */
    method SchedulePending() returns (ghost turns: nat)
      requires Inv(State())
      modifies this
      ensures Inv(State()) && State() == ScheduleAll(old(State())) && (pending == [] || |queue| >= capacity)
      ensures Leads(old(State()), seq(turns, _ => Step.Schedule), State())
    {
      hide Inv, DoScheduleOne, Blocked, Leads;
      turns := 0;
      ScheduleAllDrains(State());
      NoTurns(State());
      while pending != []
        invariant ScheduleAll(State()) == ScheduleAll(old(State())) && Inv(State())
        invariant Leads(old(State()), seq(turns, _ => Step.Schedule), State())
        decreases |pending|
      {
        ghost var before := State();
        TurnShrinks(State());
        StepKeepsInv(before, Step.Schedule);
        var full := ScheduleHead();
        OneMoreTurn(old(State()), turns, before);
        turns := turns + 1;
        if full { return; }
      }
    }

    predicate AcceptsStamp(st: Stamp) reads this
      ensures AcceptsStamp(st) <==> Accepts(State(), st)
    {
      && st.sub in entries && st.source == view.source && entries[st.sub].epoch == st.epoch
      && st.sub !in cancelledSubs && entries[st.sub].active == Some(st) && st !in cancelledJobs
    }

    /** Take a message out of the results channel and handle it. What it publishes as ready is a
        complete search of the subscription's present spec on the actor's present view. */
    method ReceiveMessage(i: nat)
      requires Inv(State()) && i < |inbox|
      modifies this
      ensures Inv(State()) && State() == Apply(old(State()), Step.Receive(i))
      ensures Heard(old(State()).(inbox := old(inbox)[..i] + old(inbox)[i + 1..]), old(inbox)[i], State())
      ensures forall sn :: sn in log && sn !in old(log) && sn.state.Ready? ==> SpeaksForNow(State(), sn)
    {
      hide Inv, Handle, Heard;
      StepKeepsInv(State(), Step.Receive(i));
      ghost var taken := State().(inbox := inbox[..i] + inbox[i + 1..]);
      HandlePublishes(taken, inbox[i]);
      Hears(taken, inbox[i]);
      var m := inbox[i];
      inbox := inbox[..i] + inbox[i + 1..];
      HandleWorkerMessage(m);
      forall sn | sn in log && sn !in old(log) && sn.state.Ready? ensures SpeaksForNow(State(), sn) {
        NewlyReady(State(), sn);
      }
    }

    method HandleWorkerMessage(m: Message)
      modifies this
      ensures State() == Handle(old(State()), m)
    {
      match m
      case Progress(st, best) =>
        if AcceptsStamp(st) && best.Some? {
          PublishSnapshot(st.sub, Searching(st, best, entries[st.sub].lastReady));
        }
      case Completed(st, outcome) =>
        if st.sub !in entries || entries[st.sub].active != Some(st) { return; }
        var id := st.sub;
        entries := entries[id := entries[id].(active := None)];
        var entry := entries[id];
        if st.source != view.source || entry.epoch != st.epoch || id in cancelledSubs {
          var dirty := id !in cancelledSubs;
          entries := entries[id := entry.(dirty := dirty)];
          if dirty { EnqueuePending(id); }
          return;
        }
        match outcome
        case Done(report) =>
          entries := entries[id := entry.(lastReady := report.best)];
          PublishSnapshot(id, Ready(st.source, report.best, report));
        case Broke(cancelled) =>
          PublishSnapshot(id, Failed(st.source, cancelled));
    }

    /** One turn of the actor: an input, then scheduling. A commit that is ready when a worker's
        message was chosen goes first. */
    method Turn(input: Input) returns (ghost steps: seq<Step>)
      requires Inv(State()) && Arrives(State(), input)
      modifies this
      ensures Inv(State()) && IsTurn(old(State()), input, steps, State()) && Fenced(State())
      ensures Idle(State()) && |queue| < capacity ==> UpToDate(State())
    {
      hide Inv, Leads, Means, Apply, Fenced, UpToDate, Idle, DoCommit, DoSubscribe, DoReplace, DoCancel, ScheduleAll;
      steps := HandleInput(input);
      MeansSize(old(State()), input, steps);
      ghost var handled := State();
      ghost var turns := SchedulePending();
      LeadsOn(old(State()), steps, handled, seq(turns, _ => Step.Schedule), State());
      ghost var first := steps;
      steps := steps + seq(turns, _ => Step.Schedule);
      assert steps[..InputSize(input)] == first;
      InvIsFenced(State());
      if Idle(State()) && pending == [] { IdleIsUpToDate(State()); }
    }

    method HandleInput(input: Input) returns (ghost steps: seq<Step>)
      requires Inv(State()) && Arrives(State(), input)
      modifies this
      ensures Inv(State()) && Means(old(State()), input, steps) && Leads(old(State()), steps, State())
    {
      hide Inv, Leads, DoCommit, DoSubscribe, DoReplace, DoCancel, Handle;
      steps := [];
      NoTurns(State());
      match input
      case CommitIn(next) =>
        ghost var ids := ApplyCommit(next);
        steps := [Step.Commit(next, ids)];
        LeadsOnce(old(State()), steps[0]);
      case SubscribeIn(spec) =>
        var _ := AddSubscription(spec);
        steps := [Step.Subscribe(spec)];
        LeadsOnce(old(State()), steps[0]);
      case ReplaceIn(id, spec) =>
        var _ := ReplaceSubscription(id, spec);
        steps := [Step.Replace(id, spec)];
        LeadsOnce(old(State()), steps[0]);
      case CancelIn(id) =>
        var _ := CancelSubscription(id);
        steps := [Step.Cancel(id)];
        LeadsOnce(old(State()), steps[0]);
      case WorkerIn(i, commit) =>
        steps := HandleWorkerInput(i, commit);
    }

    method HandleWorkerInput(i: nat, commit: Option<View>) returns (ghost steps: seq<Step>)
      requires Inv(State()) && Arrives(State(), WorkerIn(i, commit))
      modifies this
      ensures Inv(State()) && Means(old(State()), WorkerIn(i, commit), steps) && Leads(old(State()), steps, State())
    {
      hide Inv, Leads, DoCommit, Handle;
      steps := [];
      NoTurns(State());
      if commit.Some? {
        ghost var ids := ApplyCommit(commit.value);
        CommitKeepsInbox(old(State()), commit.value, ids);
        steps := [Step.Commit(commit.value, ids)];
        LeadsOnce(old(State()), steps[0]);
      }
      ghost var mid := State();
      ReceiveMessage(i);
      LeadsOnce(mid, Step.Receive(i));
      LeadsOn(old(State()), steps, mid, [Step.Receive(i)], State());
      steps := steps + [Step.Receive(i)];
    }

    /** What workers and clients do to the shared channels and flags. */
    method Outside(step: Step)
      requires ByOthers(step)
      requires Inv(State()) && Enabled(State(), step)
      modifies this
      ensures Inv(State()) && State() == Apply(old(State()), step)
    {
      hide Inv;
      StepKeepsInv(State(), step);
      match step
      case UserCancel(id) => cancelledSubs := cancelledSubs + {id};
      case Begin => queue, running := queue[1..], running + {queue[0]};
      case Emit(job, best) =>
        inbox := inbox + [Message.Progress(job.stamp, if best.Some? then Some(Tagged(job.spec, job.view, best.value)) else None)];
      case Finish(job, outcome) => running, inbox := running - {job}, inbox + [Message.Completed(job.stamp, outcome)];
    }

    /** Any number of turns, with anything workers and clients do in between; what cannot happen at its
        moment is passed over. The actor follows a run of the protocol throughout. */
    method Live(happenings: seq<Happening>) returns (ghost states: seq<Sys>, ghost parts: seq<seq<Step>>)
      requires Inv(State())
      modifies this
      ensures Unfolds(states, happenings, parts) && states[0] == old(State()) && states[|happenings|] == State()
      ensures forall k :: 0 <= k < |states| ==> Inv(states[k]) && Fenced(states[k]) && (states[k].pending == [] && Idle(states[k]) ==> UpToDate(states[k]))
    {
      hide Inv, Does, Fenced, UpToDate, Idle;
      states, parts := [State()], [];
      Healthy(State());
      for k := 0 to |happenings|
        invariant |states| == k + 1 && |parts| == k && states[0] == old(State()) && states[k] == State() && Inv(State())
        invariant forall j :: 0 <= j < k ==> Does(states[j], happenings[j], parts[j], states[j + 1])
        invariant forall j :: 0 <= j <= k ==> Inv(states[j]) && Fenced(states[j]) && (states[j].pending == [] && Idle(states[j]) ==> UpToDate(states[j]))
      {
        ghost var steps := Happen(happenings[k]);
        Healthy(State());
        states, parts := states + [State()], parts + [steps];
      }
    }

    method Happen(h: Happening) returns (ghost steps: seq<Step>)
      requires Inv(State())
      modifies this
      ensures Inv(State()) && Does(old(State()), h, steps, State())
    {
      hide Inv, Leads, Means, Apply, Enabled, Fenced, UpToDate, Idle, IsTurn;
      steps := [];
      match h {
        case Input(input) =>
          if CanArrive(input) { steps := Turn(input); }
        case Outside(step) =>
          if CanHappen(step) {
            LeadsOnce(State(), step);
            Outside(step);
            steps := [step];
          }
      }
    }

    predicate CanArrive(input: Input) reads this
      ensures CanArrive(input) <==> Arrives(State(), input)
    {
      match input
      case CommitIn(next) => next.source.version == view.source.version + 1
      case WorkerIn(i, commit) => i < |inbox| && (commit.Some? ==> commit.value.source.version == view.source.version + 1)
      case _ => true
    }

    predicate CanHappen(step: Step) reads this
      ensures CanHappen(step) <==> ByOthers(step) && Enabled(State(), step)
    {
      match step
      case UserCancel(id) => id < nextSub
      case Begin => queue != []
      case Emit(job, _) => job in running
      case Finish(job, outcome) => job in running && HonestOutcome(cancelledJobs, cancelledSubs, job, outcome)
      case _ => false
    }
  }

  /** The state after the commit loop has visited `ids`. */
  ghost function CommitPrefix(s: Sys, next: View, ids: seq<SubId>): Sys {
    var visited := map id | id in s.entries :: if id in ids then CommitEntry(id, s.entries[id], next) else s.entries[id];
    var more := NewlyQueued(s.entries, s.pendingSet, ids);
    s.(view := next,
       entries := visited,
       pending := s.pending + more,
       pendingSet := s.pendingSet + (set id | id in more),
       cancelledJobs := s.cancelledJobs + (set id | id in s.entries && id in ids && s.entries[id].active.Some? :: s.entries[id].active.value),
       log := s.log + (set id | id in s.entries && id in ids :: visited[id].snapshot))
  }

  /** One turn of the commit loop. */
  ghost function CommitOne(s: Sys, id: SubId): Sys
    requires id in s.entries
  {
    var e := s.entries[id];
    var s1 := s.(entries := s.entries[id := e.(dirty := true)],
                 cancelledJobs := if e.active.Some? then s.cancelledJobs + {e.active.value} else s.cancelledJobs);
    var s2 := Publish(s1, id, SubState.Pending(s.view.source, e.lastReady));
    if e.active.Some? then s2 else Enqueue(s2, id)
  }

  lemma CommitPrefixNone(s: Sys, next: View)
    ensures CommitPrefix(s, next, []) == s.(view := next)
  {
  }

  lemma CommitPrefixQueues(s: Sys, next: View, ids: seq<SubId>, id: SubId)
    requires id in s.entries && id !in ids
    ensures var a, b := CommitPrefix(s, next, ids + [id]), CommitOne(CommitPrefix(s, next, ids), id);
            a.pending == b.pending && a.pendingSet == b.pendingSet
  {
  }

  lemma CommitPrefixStep(s: Sys, next: View, ids: seq<SubId>, id: SubId)
    requires id in s.entries && id !in ids
    ensures CommitPrefix(s, next, ids).entries.Keys == s.entries.Keys
    ensures CommitPrefix(s, next, ids + [id]) == CommitOne(CommitPrefix(s, next, ids), id)
    ensures CommitPrefix(s, next, ids + [id]).entries.Keys == s.entries.Keys
  {
    CommitPrefixQueues(s, next, ids, id);
    CommitPrefixEntries(s, next, ids, id);
    CommitPrefixJobs(s, next, ids, id);
    CommitPrefixLog(s, next, ids, id);
  }

  lemma CommitPrefixEntries(s: Sys, next: View, ids: seq<SubId>, id: SubId)
    requires id in s.entries && id !in ids
    ensures CommitPrefix(s, next, ids).entries.Keys == s.entries.Keys
    ensures CommitPrefix(s, next, ids + [id]).entries == CommitOne(CommitPrefix(s, next, ids), id).entries
    ensures CommitPrefix(s, next, ids + [id]).entries.Keys == s.entries.Keys
  {
    hide NewlyQueued;
  }

  lemma CommitPrefixLog(s: Sys, next: View, ids: seq<SubId>, id: SubId)
    requires id in s.entries && id !in ids
    ensures CommitPrefix(s, next, ids + [id]).log == CommitOne(CommitPrefix(s, next, ids), id).log
  {
    hide NewlyQueued;
  }

  lemma CommitPrefixJobs(s: Sys, next: View, ids: seq<SubId>, id: SubId)
    requires id in s.entries && id !in ids
    ensures CommitPrefix(s, next, ids + [id]).cancelledJobs == CommitOne(CommitPrefix(s, next, ids), id).cancelledJobs
  {
    hide NewlyQueued;
  }

  lemma CommitPrefixAll(s: Sys, next: View, ids: seq<SubId>)
    requires Lists(ids, s.entries)
    ensures CommitPrefix(s, next, ids) == DoCommit(s, next, ids)
  {
  }

  // ---- facts the handlers rely on ----

  lemma NumbersAreNew(s: Sys)
    requires Inv(s)
    ensures s.nextSub !in s.entries && forall k :: k in s.specs ==> k.0 != s.nextSub
  {
    hide PendingOk, NoLostWork, ActiveOk, AllOutstanding, WorkOk, FlagsOk, LogOk, Settled;
  }

  lemma OldEpochs(s: Sys, id: SubId)
    requires Inv(s)
    ensures id in s.entries && s.entries[id].active.Some? ==> s.entries[id].active.value.sub == id && s.entries[id].active.value.epoch <= s.entries[id].epoch
  {
    hide PendingOk, NoLostWork, AllOutstanding, SpecsOk, WorkOk, FlagsOk, LogOk, Settled;
  }

  lemma MeansSize(s: Sys, input: Input, steps: seq<Step>)
    requires Means(s, input, steps)
    ensures |steps| == InputSize(input)
  {
  }

  lemma Healthy(s: Sys)
    requires Inv(s)
    ensures Fenced(s) && (s.pending == [] && Idle(s) ==> UpToDate(s))
  {
    hide Inv, Fenced, UpToDate, Idle;
    InvIsFenced(s);
    if s.pending == [] && Idle(s) { IdleIsUpToDate(s); }
  }

  lemma NoTurns(s: Sys)
    ensures Leads(s, [], s) && seq(0, _ => Step.Schedule) == []
  {
  }

  lemma OneMoreTurn(s: Sys, turns: nat, t: Sys)
    requires Leads(s, seq(turns, _ => Step.Schedule), t) && t.pending != []
    ensures Leads(s, seq(turns + 1, _ => Step.Schedule), DoScheduleOne(t))
  {
    hide Leads, DoScheduleOne;
    LeadsOnce(t, Step.Schedule);
    LeadsOn(s, seq(turns, _ => Step.Schedule), t, [Step.Schedule], DoScheduleOne(t));
    assert seq(turns, _ => Step.Schedule) + [Step.Schedule] == seq(turns + 1, _ => Step.Schedule);
  }

  /** The snapshot is a complete search of the subscription's present spec on the actor's present view. */
  ghost predicate SpeaksForNow(s: Sys, sn: Snapshot) {
    && sn.state.Ready? && sn.id in s.entries && sn.view == s.view && sn.epoch == s.entries[sn.id].epoch
    && sn.state.report.whole && sn.state.report.view == s.view && sn.state.report.spec == s.entries[sn.id].spec
  }

  lemma HandlePublishes(s: Sys, m: Message)
    ensures var t := Handle(s, m);
            forall sn :: sn in t.log && sn !in s.log ==> sn.id in t.entries && sn.view == t.view && sn.epoch == t.entries[sn.id].epoch
  {
  }

  lemma NewlyReady(s: Sys, sn: Snapshot)
    requires Inv(s) && sn in s.log && sn.state.Ready? && sn.id in s.entries && sn.view == s.view && sn.epoch == s.entries[sn.id].epoch
    ensures SpeaksForNow(s, sn)
  {
    hide PendingOk, NoLostWork, ActiveOk, AllOutstanding, WorkOk, FlagsOk, Settled;
    assert SnapshotOk(s, sn);
  }

  lemma CommitKeepsInbox(s: Sys, next: View, ids: seq<SubId>)
    ensures DoCommit(s, next, ids).inbox == s.inbox
  {
  }
}
