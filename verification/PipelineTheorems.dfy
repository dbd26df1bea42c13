/** What holds in every reachable state of the pipeline, and over every run from one. */
module PipelineTheorems {
  import opened Options
  import opened PrintConstants
  import opened JobMonitor
  import opened JobPipeline
  import opened JobInvariant
  import opened WatchInvariant
  import opened PipelineInvariant

  // ---------------------------------------------------------------------------------------
  // Ownership and memory safety
  // ---------------------------------------------------------------------------------------

  /**
   * No thread ever follows a pointer to a deleted job and no job is deleted twice; the one sender
   * owns the current job, which is live and not queued, exactly when there is a current job.
   */
  lemma OneOwner(s: State)
    requires Reachable(s)
    ensures !s.j.q.dangling && NoDuplicates(s.j.freed) && NoDuplicates(s.j.q.jobQueue)
    ensures s.j.q.currentJob.Some? <==> exists t :: IsSending(s.j, t)
    ensures forall t, u | IsSending(s.j, t) && IsSending(s.j, u) :: t == u
    ensures forall t | IsSending(s.j, t) ::
              var h := s.j.workers[t].job;
              s.j.q.currentJob == Some(h) && h in s.j.q.jobs && h !in s.j.q.jobQueue && h !in s.j.freed
  {
    ReachableInv(s);
  }

  /** JobSentCallback, which deletes whatever is current, deletes the job its own thread has sent. */
  lemma CallbackFreesItsOwn(s: State, t: ThreadId)
    requires Reachable(s) && Enabled(s, SentCallback(t))
    ensures Apply(s, SentCallback(t)).j.freed == s.j.freed + [s.j.workers[t].job]
  {
    ReachableInv(s);
    assert IsSending(s.j, t);
  }

  /** When no worker is left, nothing waits, nothing is current, and every job ever built has been deleted. */
  lemma {:induction false} QuietMeansDone(s: State)
    requires Reachable(s) && s.j.workers == map[]
    ensures s.j.q.jobQueue == [] && s.j.q.currentJob.None?
    ensures s.j.q.jobs == map[] && forall h | h in s.j.built :: h in s.j.freed
    ensures forall h | h in s.j.added :: h in s.j.started <==> h !in s.j.removed
  {
    ReachableInv(s);
    PlacesAreDisjoint(s.j);
    assert forall t :: !IsSending(s.j, t) && !IsAwaiting(s.j, t);
    assert forall t, h :: !IsAdding(s.j, t, h);
    assert forall h :: h !in s.j.q.jobs;
  }

  /** No access to a deleted job goes unnoticed: in any state at all, it shows. */
  lemma {:induction false} FaultsShow(s: State, a: Action)
    requires Enabled(s, a)
    requires
      || (a.StartJob? && s.j.workers[a.t].job !in s.j.q.jobs)
      || ((a.FailSending? || a.Publish?) && s.j.workers[a.t].job !in s.j.q.jobs)
      || (a.SentCallback? && s.j.q.currentJob.Some? && s.j.q.currentJob.value !in s.j.q.jobs)
      || (a.GetNextJob? && s.j.q.currentJob.Some? && s.j.q.jobQueue != [] &&
          s.j.q.jobQueue[|s.j.q.jobQueue| - 1] !in s.j.q.jobs)
      || (a.SearchQueue? && s.j.q.jobQueue != [] && s.j.q.jobQueue[0] !in s.j.q.jobs)
    ensures Apply(s, a).j.q.dangling
  {
    if a.SearchQueue? {
      SearchShows(s.j.q, a.id);
    }
  }

  lemma SearchShows(q: Queue, id: string)
    requires q.jobQueue != [] && q.jobQueue[0] !in q.jobs
    ensures Searched(q, id).dangling
  {
    assert q.jobQueue[0] !in q.jobs;
  }

  // ---------------------------------------------------------------------------------------
  // Order and conservation
  // ---------------------------------------------------------------------------------------

  /** Every added job is in exactly one place: started, removed by a request, or still queued. */
  lemma {:induction false} Conservation(s: State, h: Handle)
    requires Reachable(s) && h in s.j.added
    ensures h in s.j.removed <==> !(h in s.j.started || h in s.j.q.jobQueue)
    ensures !(h in s.j.started && h in s.j.q.jobQueue)
    ensures NoDuplicates(s.j.started) && NoDuplicates(s.j.q.jobQueue)
  {
    ReachableInv(s);
    PlacesAreDisjoint(s.j);
    PrefixNoDuplicates(s.j.started, s.j.q.jobQueue);
  }

  lemma PrefixNoDuplicates(a: seq<Handle>, b: seq<Handle>)
    requires NoDuplicates(a + b)
    ensures NoDuplicates(a)
  {
    assert forall i | 0 <= i < |a| :: a[i] == (a + b)[i];
  }

  /** Without keeps the order of what it keeps: later in the result is later in the list. */
  lemma {:induction false} WithoutKeepsOrder(hs: seq<Handle>, gone: set<Handle>, i: nat, k: nat)
    returns (p: nat, q: nat)
    requires i < k < |Without(hs, gone)|
    ensures p < q < |hs| && hs[p] == Without(hs, gone)[i] && hs[q] == Without(hs, gone)[k]
  {
    var front := hs[..|hs| - 1];
    if k < |Without(front, gone)| {
      p, q := WithoutKeepsOrder(front, gone, i, k);
    } else {
      q := |hs| - 1;
      WithoutElements(front, gone);
      assert Without(front, gone)[i] in front;
      p :| 0 <= p < |front| && front[p] == Without(front, gone)[i];
    }
  }

  /** First in, first out: a job that became current earlier was added earlier. */
  lemma {:induction false} StartedInAddedOrder(s: State, i: nat, k: nat) returns (p: nat, q: nat)
    requires Reachable(s) && i < k < |s.j.started|
    ensures p < q < |s.j.added| && s.j.added[p] == s.j.started[i] && s.j.added[q] == s.j.started[k]
  {
    ReachableInv(s);
    assert s.j.started[i] == (s.j.started + s.j.q.jobQueue)[i];
    assert s.j.started[k] == (s.j.started + s.j.q.jobQueue)[k];
    p, q := WithoutKeepsOrder(s.j.added, s.j.removed, i, k);
  }

  /** What a run can only add to. */
  ghost predicate Grown(s: State, s': State) {
    && s.j.removed <= s'.j.removed
    && s.j.started <= s'.j.started
    && s.j.added <= s'.j.added
    && s.w.erased <= s'.w.erased
  }

  lemma StepGrows(s: State, a: Action)
    requires Enabled(s, a)
    ensures Grown(s, Apply(s, a))
  {
  }

  lemma {:induction false} RunGrows(s: State, actions: seq<Action>)
    requires ValidRun(s, actions)
    ensures Grown(s, After(s, actions))
    decreases |actions|
  {
    if actions == [] {
    } else {
      StepGrows(s, actions[0]);
      RunGrows(Apply(s, actions[0]), actions[1..]);
    }
  }

  /** A job cancelled or interrupted while queued never becomes current and is never monitored. */
  lemma {:induction false} RemovedNeverStarts(s: State, actions: seq<Action>, h: Handle)
    requires Reachable(s) && ValidRun(s, actions) && h in s.j.removed
    ensures
      var s' := After(s, actions);
      h !in s'.j.started && s'.j.q.currentJob != Some(h) &&
      forall m | m in s'.w.w.monitors :: m in s'.w.origin && s'.w.origin[m] != h
  {
    ReachableInv(s);
    RunKeepsInv(s, actions);
    RunGrows(s, actions);
    var s' := After(s, actions);
    PlacesAreDisjoint(s'.j);
    assert s'.j.q.currentJob.Some? ==> s'.j.started[|s'.j.started| - 1] in s'.j.started;
  }

  // ---------------------------------------------------------------------------------------
  // The monitor loop
  // ---------------------------------------------------------------------------------------

  /**
   * No lost wake-up: isMonitoringRunning_ is true exactly when the one monitor loop is alive, and it is
   * alive as long as any job is monitored.
   */
  lemma NoLostWakeup(s: State)
    requires Reachable(s)
    ensures s.w.w.isMonitoringRunning <==> exists t :: t in s.w.watchers
    ensures forall t, u | t in s.w.watchers && u in s.w.watchers :: t == u
    ensures s.w.w.jobMonitorList != [] ==> exists t :: t in s.w.watchers
  {
    ReachableInv(s);
  }

  predicate IsLoopStep(a: Action) {
    IsEvaluation(a) || a.TakeSnapshot? || a.EraseCompleted? || a.EndPass?
  }

  lemma LoopCanStep(s: State, t: ThreadId, poll: Poll) returns (a: Action)
    requires WatchInv(s.w) && t in s.w.watchers && ValidPoll(poll)
    ensures Enabled(s, a) && IsLoopStep(a) && a.t == t
    ensures a == TakeSnapshot(t) || a == ReadCanceled(t, true) || a == ReadInterrupt(t) || a == QueryState(t, poll)
            || a == EraseCompleted(t) || a == EndPass(t)
  {
    assert PassInv(s.w, t);
    match s.w.watchers[t]
    case Idle => a := TakeSnapshot(t);
    case Passing(pass) =>
      assert pass != [] ==> pass[0] in pass;
      a := if pass == [] then EndPass(t) else ReadCanceled(t, true);
    case NotCanceled(pass) => assert pass[0] in pass; a := ReadInterrupt(t);
    case Querying(pass) => assert pass[0] in pass; a := QueryState(t, poll);
    case Erasing(pass) => assert pass[0] in pass; a := EraseCompleted(t);
  }

  /** The monitor loop can always take its next step: no pass gets stuck on an object that is gone. */
  lemma LoopNeverStuck(s: State, t: ThreadId, poll: Poll) returns (a: Action)
    requires Reachable(s) && t in s.w.watchers && ValidPoll(poll)
    ensures Enabled(s, a) && IsLoopStep(a) && a.t == t
    ensures a == TakeSnapshot(t) || a == ReadCanceled(t, true) || a == ReadInterrupt(t) || a == QueryState(t, poll)
            || a == EraseCompleted(t) || a == EndPass(t)
  {
    ReachableInv(s);
    a := LoopCanStep(s, t, poll);
  }

  /** The "completed job lost" branch is unreachable, and nothing is erased twice or while still listed. */
  lemma CompletedJobNeverLost(s: State)
    requires Reachable(s)
    ensures !s.w.lost && NoDuplicates(s.w.erased)
    ensures forall m | m in s.w.w.monitors :: m in s.w.erased <==> m !in s.w.w.jobMonitorList
  {
    ReachableInv(s);
  }

  lemma ErasingRemovesHead(w: WatchSide, t: ThreadId, m: Handle)
    requires WatchInv(w) && AtHead(w, t) && w.watchers[t].Erasing? && m in w.w.jobMonitorList
    ensures m in DoErase(w, t).w.jobMonitorList <==> m != Head(w, t)
  {
    var ms := w.w.jobMonitorList;
    assert PassInv(w, t);
    WithoutIndexElements(ms, IndexOf(ms, Head(w, t)));
  }

  /** Only the loop that has evaluated a job erases it: in particular a job pushed during a pass survives the pass. */
  lemma OnlyTheLoopErases(s: State, a: Action, m: Handle)
    requires Reachable(s) && Enabled(s, a) && m in s.w.w.jobMonitorList
    ensures m in Apply(s, a).w.w.jobMonitorList <==> !(a.EraseCompleted? && IsErasing(s.w, a.t, m))
  {
    if a.EraseCompleted? {
      ReachableInv(s);
      ErasingRemovesHead(s.w, a.t, m);
    }
  }

  lemma EvaluationLogs(s: State, a: Action, m: Handle)
    requires Enabled(s, a) && IsEvaluation(a) && m != Head(s.w, a.t) && m in s.w.log
    ensures m in Apply(s, a).w.log && Apply(s, a).w.log[m] == s.w.log[m]
  {
  }

  lemma OthersDoNotLog(s: State, a: Action, m: Handle)
    requires Enabled(s, a) && !IsEvaluation(a) && m in s.w.log && m in s.w.w.monitors
    ensures m in Apply(s, a).w.log && Apply(s, a).w.log[m] == s.w.log[m]
  {
  }

  /** Nothing but an evaluation of the monitored job itself adds to its log. */
  lemma LogStep(s: State, a: Action, m: Handle)
    requires Enabled(s, a) && m in s.w.log && m in s.w.w.monitors
    requires IsEvaluation(a) ==> m != Head(s.w, a.t)
    ensures m in Apply(s, a).w.log && Apply(s, a).w.log[m] == s.w.log[m]
  {
    if IsEvaluation(a) {
      EvaluationLogs(s, a, m);
    } else {
      OthersDoNotLog(s, a, m);
    }
  }

  /** What an evaluation step reports is what is logged, and what it makes of the object is what is kept. */
  lemma EvaluationIsRecorded(s: State, a: Action)
    requires Enabled(s, a) && IsEvaluation(a) && Head(s.w, a.t) in s.w.log
    ensures
      var m, w' := Head(s.w, a.t), Apply(s, a).w;
      var before := s.w.w.monitors[m];
      var o := match a
        case ReadCanceled(_, cancelOk) => CheckCanceled(before, cancelOk)
        case ReadInterrupt(_) => CheckInterrupt(before)
        case QueryState(_, poll) => Query(before, poll);
      m in w'.log && w'.log[m] == s.w.log[m] + o.reports && m in w'.w.monitors && w'.w.monitors[m] == o.m
  {
  }

  /** A job is published as a new monitor object of its own, behind the others, with nothing reported yet. */
  lemma PublishedIsNew(s: State, a: Action)
    requires Reachable(s) && Enabled(s, a) && a.Publish?
    ensures
      var h, w' := s.j.workers[a.t].job, Apply(s, a).w;
      && h in s.j.built && w'.w.jobMonitorList == s.w.w.jobMonitorList + [a.m]
      && w'.w.monitors ==
         s.w.w.monitors[a.m := NewMonitor(a.hasService, s.j.built[h], a.isIppOverUsb, a.make)]
      && w'.origin == s.w.origin[a.m := h] && w'.log == s.w.log[a.m := []]
  {
    ReachableInv(s);
    assert IsSending(s.j, a.t);
  }

  /** An erased job is not evaluated any more. */
  lemma ErasedIsOutOfReach(w: WatchSide, t: ThreadId, m: Handle)
    requires WatchInv(w) && m in w.erased && AtHead(w, t)
    ensures m != Head(w, t)
  {
  }

  lemma ErasedHasLog(w: WatchSide, m: Handle)
    requires WatchInv(w) && m in w.erased
    ensures m in w.log && m in w.w.monitors
  {
  }

  lemma ErasedIsNotEvaluated(s: State, a: Action, m: Handle)
    requires WatchInv(s.w) && Enabled(s, a) && IsEvaluation(a) && m in s.w.erased
    ensures m != Head(s.w, a.t)
  {
    ErasedIsOutOfReach(s.w, a.t, m);
  }

  lemma ErasedStep(s: State, a: Action, m: Handle)
    requires Inv(s) && Enabled(s, a) && m in s.w.erased
    ensures m in s.w.log && m in Apply(s, a).w.log && Apply(s, a).w.log[m] == s.w.log[m]
  {
    ErasedHasLog(s.w, m);
    if IsEvaluation(a) {
      ErasedIsNotEvaluated(s, a, m);
    }
    LogStep(s, a, m);
  }

  /** The monitor never reports a job after removing it. */
  lemma {:induction false} NoReportAfterErasing(s: State, actions: seq<Action>, m: Handle)
    requires Inv(s) && ValidRun(s, actions) && m in s.w.erased
    ensures m in s.w.log && m in After(s, actions).w.log && After(s, actions).w.log[m] == s.w.log[m]
    decreases |actions|
  {
    if actions == [] {
      ErasedHasLog(s.w, m);
    } else {
      var s' := Apply(s, actions[0]);
      ErasedStep(s, actions[0], m);
      StepKeepsInv(s, actions[0]);
      StepGrows(s, actions[0]);
      NoReportAfterErasing(s', actions[1..], m);
    }
  }

  /**
   * Over its whole life a monitored job is reported COMPLETED at most once, and then last; a job that had
   * a service and was erased ended on a final report, unless CUPS aborted it after the user cancelled.
   */
  lemma {:induction false} CompletedIsLast(s: State, m: Handle)
    requires Reachable(s) && m in s.w.w.monitors
    ensures m in s.w.log
    ensures forall i | 0 <= i < |s.w.log[m]| - 1 :: s.w.log[m][i].state != PRINT_JOB_COMPLETED
    ensures m in s.w.erased ==> EndedWell(s.w.w.monitors[m], s.w.log[m])
  {
    ReachableInv(s);
    var log := s.w.log[m];
    if log != [] {
      assert forall i | 0 <= i < |log| - 1 :: log[i] == log[..|log| - 1][i] && log[i] in log;
    }
  }
}
