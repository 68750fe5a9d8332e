/** Jobs over whole runs: each is answered at most once, the queue stays within its bound, and a job
    nobody waits for has been told to stop. */
module LiveRouteJobs {
  import opened Routing
  import opened LiveRoutes

  /** The stamp of a job that has not answered yet. */
  ghost predicate Open(s: Sys, st: Stamp) {
    (exists i :: 0 <= i < |s.queue| && s.queue[i].stamp == st) || (exists j :: j in s.running && j.stamp == st)
  }

  ghost predicate AnswerAt(s: Sys, i: int) { 0 <= i < |s.inbox| && s.inbox[i].Completed? }

  /** No stamp is queued twice, running twice, answered twice, or in two of these places. */
  ghost predicate Once(s: Sys) {
    && (forall i, j :: 0 <= i < j < |s.queue| ==> s.queue[i].stamp != s.queue[j].stamp)
    && (forall a, b :: a in s.running && b in s.running && a.stamp == b.stamp ==> a == b)
    && (forall i, b :: 0 <= i < |s.queue| && b in s.running ==> s.queue[i].stamp != b.stamp)
    && (forall i :: AnswerAt(s, i) ==> !Open(s, s.inbox[i].stamp))
    && (forall i, j :: AnswerAt(s, i) && AnswerAt(s, j) && i != j ==> s.inbox[i].stamp != s.inbox[j].stamp)
  }

  /** Stamps carry numbers already given away. */
  ghost predicate Issued(s: Sys, st: Stamp) {
    st.sub < s.nextSub && (st.sub in s.entries ==> st.job < s.entries[st.sub].nextJob)
  }

  ghost predicate AllIssued(s: Sys) {
    && (forall i :: 0 <= i < |s.queue| ==> Issued(s, s.queue[i].stamp))
    && (forall j :: j in s.running ==> Issued(s, j.stamp))
    && (forall i :: AnswerAt(s, i) ==> Issued(s, s.inbox[i].stamp))
  }

  /** The job has been told to stop, or its subscription waits for it and has not changed since. */
  ghost predicate Needed(s: Sys, st: Stamp) {
    Flagged(s, st) || (st.sub in s.entries && s.entries[st.sub].active == Some(st) && !s.entries[st.sub].dirty)
  }

  ghost predicate AllNeeded(s: Sys) {
    && (forall i :: 0 <= i < |s.queue| ==> Needed(s, s.queue[i].stamp))
    && (forall j :: j in s.running ==> Needed(s, j.stamp))
  }

  ghost predicate Tidy(s: Sys) {
    Once(s) && AllIssued(s) && AllNeeded(s) && |s.queue| <= s.capacity
  }

  /** Numbers grow and flags stay; a job that was needed is needed still, or told to stop. */
  ghost predicate Carries(s: Sys, t: Sys) {
    && s.nextSub <= t.nextSub && s.cancelledJobs <= t.cancelledJobs && s.cancelledSubs <= t.cancelledSubs && t.capacity == s.capacity
    && (forall id :: id in t.entries ==> if id in s.entries then s.entries[id].nextJob <= t.entries[id].nextJob else id >= s.nextSub)
    && (forall st :: Open(s, st) && Needed(s, st) ==> Needed(t, st))
  }

  /** A handler that leaves the channels alone. */
  lemma HandlerTidies(s: Sys, t: Sys)
    requires Tidy(s) && Carries(s, t) && t.queue == s.queue && t.running == s.running && t.inbox == s.inbox
    ensures Tidy(t)
  {
    hide Needed, Carries, Open;
    CarriesIssued(s, t);
    forall i | 0 <= i < |t.queue| ensures Needed(t, t.queue[i].stamp) { StillNeeded(s, t, t.queue[i].stamp, t.queue[i]); }
    forall j | j in t.running ensures Needed(t, j.stamp) { StillNeeded(s, t, j.stamp, j); }
    SameOpen(s, t);
  }

  lemma SameOpen(s: Sys, t: Sys)
    requires t.queue == s.queue && t.running == s.running
    ensures forall st :: Open(s, st) <==> Open(t, st)
  {
  }

  lemma StillNeeded(s: Sys, t: Sys, st: Stamp, job: Job)
    requires Carries(s, t) && Needed(s, st) && job.stamp == st && (job in s.queue || job in s.running)
    ensures Needed(t, st)
  {
    hide Needed;
    assert Open(s, st);
  }

  lemma CarriesIssued(s: Sys, t: Sys)
    requires Carries(s, t)
    ensures forall st :: Issued(s, st) ==> Issued(t, st)
    ensures t.capacity == s.capacity
  {
    hide Needed;
  }

  lemma CommitCarries(s: Sys, view: View, ids: seq<SubId>)
    ensures Carries(s, DoCommit(s, view, ids))
  {
    hide NewlyQueued, Open;
  }

  lemma SubscribeCarries(s: Sys, spec: Spec)
    requires s.nextSub !in s.entries
    ensures Carries(s, DoSubscribe(s, spec))
  {
    hide Open;
  }

  lemma ReplaceCarries(s: Sys, id: SubId, spec: Spec)
    ensures Carries(s, DoReplace(s, id, spec))
  {
    hide Open;
  }

  lemma CancelCarries(s: Sys, id: SubId)
    ensures Carries(s, DoCancel(s, id))
  {
    hide Open;
  }

  /** An answer frees its subscription: nobody else is working on that job. */
  lemma HandleCarries(s: Sys, m: Message)
    requires m.Completed? ==> !Open(s, m.stamp)
    ensures Carries(s, Handle(s, m))
  {
    hide Open;
  }

  /** Taking a message out of the channel. */
  lemma TakeTidies(s: Sys, i: nat)
    requires Tidy(s) && i < |s.inbox|
    ensures Tidy(s.(inbox := s.inbox[..i] + s.inbox[i + 1..]))
    ensures s.inbox[i].Completed? ==> !Open(s, s.inbox[i].stamp)
  {
    hide Open, Issued, Needed;
    var t := s.(inbox := s.inbox[..i] + s.inbox[i + 1..]);
    SameOpen(s, t);
    assert forall k :: 0 <= k < |t.inbox| ==> t.inbox[k] == s.inbox[if k < i then k else k + 1];
    assert forall k :: AnswerAt(t, k) ==> AnswerAt(s, if k < i then k else k + 1);
    SameNeeds(s, t);
  }

  lemma SameNeeds(s: Sys, t: Sys)
    requires t == s.(queue := t.queue, running := t.running, inbox := t.inbox)
    ensures forall st :: (Issued(s, st) <==> Issued(t, st)) && (Needed(s, st) <==> Needed(t, st))
  {
  }

  // ---- the channels ----

  lemma BeginTidies(s: Sys)
    requires Tidy(s) && s.queue != []
    ensures Tidy(s.(queue := s.queue[1..], running := s.running + {s.queue[0]}))
  {
    hide Issued, Needed;
    var t := s.(queue := s.queue[1..], running := s.running + {s.queue[0]});
    SameNeeds(s, t);
    forall st | Open(t, st) ensures Open(s, st) {
      if i :| 0 <= i < |t.queue| && t.queue[i].stamp == st { assert s.queue[i + 1].stamp == st; }
    }
    assert forall i :: AnswerAt(t, i) <==> AnswerAt(s, i);
  }

  lemma EmitTidies(s: Sys, m: Message)
    requires Tidy(s) && m.Progress?
    ensures Tidy(s.(inbox := s.inbox + [m]))
  {
    hide Issued, Needed, Open;
    var t := s.(inbox := s.inbox + [m]);
    SameNeeds(s, t);
    SameOpen(s, t);
    assert forall i :: AnswerAt(t, i) ==> AnswerAt(s, i) && t.inbox[i] == s.inbox[i];
  }

  lemma FinishTidies(s: Sys, job: Job, outcome: LiveRoutes.Outcome)
    requires Tidy(s) && job in s.running
    ensures Tidy(s.(running := s.running - {job}, inbox := s.inbox + [Message.Completed(job.stamp, outcome)]))
  {
    hide Issued, Needed;
    var t := s.(running := s.running - {job}, inbox := s.inbox + [Message.Completed(job.stamp, outcome)]);
    SameNeeds(s, t);
    assert Open(s, job.stamp);
    forall i | AnswerAt(t, i) ensures !Open(t, t.inbox[i].stamp) {
      if i < |s.inbox| { assert AnswerAt(s, i); }
    }
    forall i, j | AnswerAt(t, i) && AnswerAt(t, j) && i < j ensures t.inbox[i].stamp != t.inbox[j].stamp {
      assert AnswerAt(s, i);
      if j < |s.inbox| { assert AnswerAt(s, j); }
    }
  }

  // ---- scheduling ----

  lemma DealTidies(s: Sys, id: SubId)
    requires Tidy(s) && Schedulable(s, id) && id < s.nextSub && |s.queue| < s.capacity
    ensures Tidy(Submit(s, id))
  {
    var t := Submit(s, id);
    var stamp := Stamp(id, s.entries[id].epoch, s.entries[id].nextJob, s.view.source);
    NewStamp(s, stamp);
    DealCarries(s, id);
    hide Needed, Issued, Schedulable, Carries, Submit;
    var job := t.queue[|s.queue|];
    CarriesIssued(s, t);
    forall st ensures Open(t, st) <==> Open(s, st) || st == stamp {
      if i :| 0 <= i < |s.queue| && s.queue[i].stamp == st { assert t.queue[i].stamp == st; }
      if st == stamp { assert t.queue[|s.queue|].stamp == st; }
    }
    forall i | 0 <= i < |t.queue| ensures Needed(t, t.queue[i].stamp) {
      if i < |s.queue| { StillNeeded(s, t, t.queue[i].stamp, t.queue[i]); }
    }
    forall j | j in t.running ensures Needed(t, j.stamp) { StillNeeded(s, t, j.stamp, j); }
    assert forall i :: AnswerAt(t, i) <==> AnswerAt(s, i);
  }

  lemma NewStamp(s: Sys, stamp: Stamp)
    requires AllIssued(s) && stamp.sub in s.entries && stamp.job == s.entries[stamp.sub].nextJob
    ensures !Open(s, stamp) && forall i :: AnswerAt(s, i) ==> s.inbox[i].stamp != stamp
  {
  }

  lemma DealCarries(s: Sys, id: SubId)
    requires Schedulable(s, id) && id < s.nextSub
    ensures var t, stamp := Submit(s, id), Stamp(id, s.entries[id].epoch, s.entries[id].nextJob, s.view.source);
            && Carries(s, t) && |t.queue| == |s.queue| + 1 && t.queue[..|s.queue|] == s.queue && t.queue[|s.queue|].stamp == stamp
            && t.running == s.running && t.inbox == s.inbox && Needed(t, stamp) && Issued(t, stamp)
  {
    hide Open;
  }

  lemma ScheduleTidies(s: Sys)
    requires Tidy(s) && s.pending != [] && forall id :: id in s.entries ==> id < s.nextSub
    ensures Tidy(DoScheduleOne(s))
  {
    hide Tidy, Submit;
    var s1 := s.(pending := s.pending[1..], pendingSet := s.pendingSet - {s.pending[0]});
    SidesAside(s, s1);
    if Schedulable(s1, s.pending[0]) {
      if |s1.queue| < s1.capacity { DealTidies(s1, s.pending[0]); } else { SidesAside(s1, Enqueue(s1, s.pending[0])); }
    }
  }

  lemma SidesAside(s: Sys, t: Sys)
    requires Tidy(s) && t == s.(pending := t.pending, pendingSet := t.pendingSet)
    ensures Tidy(t)
  {
    hide Open;
    HandlerTidies(s, t);
  }

  // ---- whole runs ----

  lemma StepTidies(s: Sys, step: Step)
    requires Inv(s) && Tidy(s) && Enabled(s, step)
    ensures Tidy(Apply(s, step))
  {
    NumbersGiven(s);
    hide Inv, Tidy, DoCommit, DoSubscribe, DoReplace, DoCancel, DoScheduleOne, Handle, HonestOutcome, Lists, Carries, Open;
    match step
    case Commit(view, ids) =>
      CommitCarries(s, view, ids);
      CommitAside(s, view, ids);
      HandlerTidies(s, DoCommit(s, view, ids));
    case Subscribe(spec) =>
      SubscribeCarries(s, spec);
      SubscribeAside(s, spec);
      HandlerTidies(s, DoSubscribe(s, spec));
    case Replace(id, spec) =>
      ReplaceCarries(s, id, spec);
      ReplaceAside(s, id, spec);
      HandlerTidies(s, DoReplace(s, id, spec));
    case Cancel(id) =>
      CancelCarries(s, id);
      CancelAside(s, id);
      HandlerTidies(s, DoCancel(s, id));
    case Schedule => ScheduleTidies(s);
    case Receive(i) =>
      var taken := s.(inbox := s.inbox[..i] + s.inbox[i + 1..]);
      TakeTidies(s, i);
      SameOpen(s, taken);
      HandleCarries(taken, s.inbox[i]);
      HandleAside(taken, s.inbox[i]);
      HandlerTidies(taken, Handle(taken, s.inbox[i]));
    case UserCancel(id) =>
      CancelFlagCarries(s, id);
      HandlerTidies(s, Apply(s, step));
    case Begin => BeginTidies(s);
    case Emit(job, best) =>
      EmitTidies(s, Progress(job.stamp, if best.Some? then Some(Tagged(job.spec, job.view, best.value)) else None));
    case Finish(job, outcome) => FinishTidies(s, job, outcome);
  }

  lemma NumbersGiven(s: Sys)
    requires Inv(s)
    ensures forall id :: id in s.entries ==> id < s.nextSub
  {
  }

  lemma CancelFlagCarries(s: Sys, id: SubId)
    ensures Carries(s, s.(cancelledSubs := s.cancelledSubs + {id}))
  {
    hide Open;
  }

  ghost predicate Aside(s: Sys, t: Sys) { t.queue == s.queue && t.running == s.running && t.inbox == s.inbox }

  lemma CommitAside(s: Sys, view: View, ids: seq<SubId>)
    ensures Aside(s, DoCommit(s, view, ids))
  {
    hide NewlyQueued;
  }

  lemma SubscribeAside(s: Sys, spec: Spec)
    ensures Aside(s, DoSubscribe(s, spec))
  {
  }

  lemma ReplaceAside(s: Sys, id: SubId, spec: Spec)
    ensures Aside(s, DoReplace(s, id, spec))
  {
  }

  lemma CancelAside(s: Sys, id: SubId)
    ensures Aside(s, DoCancel(s, id))
  {
  }

  lemma HandleAside(s: Sys, m: Message)
    ensures Aside(s, Handle(s, m))
  {
  }

  lemma {:induction false} RunsStayTidy(states: seq<Sys>, steps: seq<Step>, k: nat)
    requires IsRun(states, steps) && k < |states|
    ensures Tidy(states[k])
  {
    if k > 0 {
      RunsStayTidy(states, steps, k - 1);
      RunsKeepInv(states, steps, k - 1);
      hide Inv, Tidy, Enabled, Apply, Init;
      StepTidies(states[k - 1], steps[k - 1]);
    }
  }

  /** In every run: a job handed to the workers whose subscription is gone, changed, or waits for another job
      has been told to stop; a job that answered will not answer again; and the queue is never overfull. */
  lemma NobodyWorksInVain(states: seq<Sys>, steps: seq<Step>, k: nat, job: Job)
    requires IsRun(states, steps) && k < |states| && (job in states[k].queue || job in states[k].running)
    ensures var s := states[k];
            && (Flagged(s, job.stamp) || (job.stamp.sub in s.entries && s.entries[job.stamp.sub].active == Some(job.stamp) && !s.entries[job.stamp.sub].dirty))
            && (forall m :: m in s.inbox && m.Completed? ==> m.stamp != job.stamp) && |s.queue| <= s.capacity
  {
    RunsStayTidy(states, steps, k);
    assert Open(states[k], job.stamp);
    forall m | m in states[k].inbox && m.Completed? ensures m.stamp != job.stamp {
      var i :| 0 <= i < |states[k].inbox| && states[k].inbox[i] == m;
      assert AnswerAt(states[k], i);
    }
  }
}
