/**
 * What a cancel or interrupt request can rely on. It takes two critical sections, one per mutex, and a job
 * may cross from the one to the other in between. This module follows one job: from where it can still be
 * published to the monitored list, and that from everywhere else it never is.
 */
module RequestClaims {
  import opened JobMonitor
  import opened JobPipeline
  import opened JobInvariant
  import opened WatchInvariant
  import opened PipelineInvariant
  import opened PipelineTheorems

  /** Service job ids identify jobs. */
  ghost predicate DistinctIds(j: JobSide) {
    forall h, k | h in j.built && k in j.built && j.built[h] == j.built[k] :: h == k
  }

  predicate IsStarting(j: JobSide, t: ThreadId, h: Handle) {
    t in j.workers && j.workers[t] == Starting(h)
  }

  predicate IsInWindow(j: JobSide, t: ThreadId, h: Handle) {
    t in j.workers && j.workers[t] == Sending(h)
  }

  /** The sender has read isCanceled as false and has not yet pushed the job to the monitored list. */
  ghost predicate InWindow(j: JobSide, h: Handle) {
    exists t :: IsInWindow(j, t, h)
  }

  /** The job is neither being added nor queued, and if its sender has yet to read isCanceled, it will read true. */
  ghost predicate Claimed(j: JobSide, h: Handle) {
    && h in j.built && h !in j.q.jobQueue
    && (forall t :: !IsAdding(j, t, h))
    && (forall t | IsStarting(j, t, h) :: h in j.q.jobs && j.q.jobs[h].isCanceled)
  }

  predicate IsStartingUnflagged(j: JobSide, t: ThreadId, h: Handle) {
    IsStarting(j, t, h) && !(h in j.q.jobs && j.q.jobs[h].isCanceled)
  }

  /** The four places from which a job can still reach the monitored list. */
  ghost predicate CanBePublished(j: JobSide, h: Handle) {
    || (exists t :: IsAdding(j, t, h))
    || h in j.q.jobQueue
    || (exists t :: IsStartingUnflagged(j, t, h))
    || InWindow(j, h)
  }

  lemma CanBePublishedUnless(j: JobSide, h: Handle)
    requires h in j.built
    ensures CanBePublished(j, h) <==> !Claimed(j, h) || InWindow(j, h)
  {
    if forall t :: !IsStartingUnflagged(j, t, h) {
      assert forall t | IsStarting(j, t, h) :: !IsStartingUnflagged(j, t, h);
    }
  }

  // ---------------------------------------------------------------------------------------
  // A claimed job stays claimed, and outside the window it stays outside
  // ---------------------------------------------------------------------------------------

  ghost predicate Stays(j: JobSide, j': JobSide, h: Handle) {
    Claimed(j', h) && (!InWindow(j, h) ==> !InWindow(j', h))
  }

  lemma BuildStays(j: JobSide, t: ThreadId, k: Handle, id: string, h: Handle)
    requires JobInv(j) && Claimed(j, h) && t !in j.workers && k !in j.built
    ensures Stays(j, DoBuild(j, t, k, id), h)
  {
    var j' := DoBuild(j, t, k, id);
    assert forall u :: IsAdding(j', u, h) ==> IsAdding(j, u, h);
    assert forall u :: IsStarting(j', u, h) <==> IsStarting(j, u, h);
    assert forall u :: IsInWindow(j', u, h) <==> IsInWindow(j, u, h);
  }

  lemma PushStays(j: JobSide, t: ThreadId, h: Handle)
    requires JobInv(j) && Claimed(j, h) && t in j.workers && j.workers[t].Adding?
    ensures Stays(j, DoPush(j, t), h)
  {
    var j' := DoPush(j, t);
    assert IsAdding(j, t, j.workers[t].job);
    assert forall u :: IsAdding(j', u, h) ==> IsAdding(j, u, h);
    assert forall u :: IsStarting(j', u, h) <==> IsStarting(j, u, h);
    assert forall u :: IsInWindow(j', u, h) <==> IsInWindow(j, u, h);
  }

  lemma GetNextStays(j: JobSide, t: ThreadId, h: Handle)
    requires JobInv(j) && Claimed(j, h) && t in j.workers && j.workers[t].AwaitingNext?
    ensures Stays(j, DoGetNext(j, t), h)
  {
    var j' := DoGetNext(j, t);
    assert forall u :: IsAdding(j', u, h) ==> IsAdding(j, u, h);
    assert NextJob(j.q).Some? ==> j.q.jobQueue[0] in j.q.jobQueue;
    assert forall u :: IsStarting(j', u, h) <==> IsStarting(j, u, h);
    assert forall u :: IsInWindow(j', u, h) <==> IsInWindow(j, u, h);
  }

  lemma StartStays(j: JobSide, t: ThreadId, verified: bool, h: Handle)
    requires JobInv(j) && Claimed(j, h) && t in j.workers && j.workers[t].Starting?
    ensures Stays(j, DoStart(j, t, verified), h)
  {
    var j' := DoStart(j, t, verified);
    assert forall u :: IsAdding(j', u, h) ==> IsAdding(j, u, h);
    assert j.workers[t] == Starting(h) ==> IsStarting(j, t, h);
    assert forall u :: IsStarting(j', u, h) ==> IsStarting(j, u, h);
    assert forall u :: IsInWindow(j', u, h) ==> IsInWindow(j, u, h);
  }

  lemma FinishStays(j: JobSide, t: ThreadId, h: Handle)
    requires JobInv(j) && Claimed(j, h) && t in j.workers && j.workers[t].Sending?
    ensures Stays(j, DoFinish(j, t), h)
  {
    var j' := DoFinish(j, t);
    assert forall u :: IsAdding(j', u, h) ==> IsAdding(j, u, h);
    assert forall u :: IsStarting(j', u, h) <==> IsStarting(j, u, h);
    assert forall u :: IsInWindow(j', u, h) ==> IsInWindow(j, u, h);
  }

  lemma SentCallbackStays(j: JobSide, t: ThreadId, h: Handle)
    requires JobInv(j) && Claimed(j, h) && t in j.workers && j.workers[t].Sent?
    ensures Stays(j, DoSentCallback(j, t), h)
  {
    var j' := DoSentCallback(j, t);
    assert forall u :: IsAdding(j', u, h) ==> IsAdding(j, u, h);
    assert IsSending(j, t);
    forall u
      ensures !IsStarting(j', u, h)
      ensures IsInWindow(j', u, h) <==> IsInWindow(j, u, h)
    {
      assert IsStarting(j, u, h) ==> IsSending(j, u);
    }
  }

  lemma RemoveStays(j: JobSide, id: string, h: Handle)
    requires JobInv(j) && Claimed(j, h) && InQueue(j, id)
    ensures Stays(j, DoRemove(j, id), h)
  {
    var j', i := DoRemove(j, id), FirstWith(j.q.jobs, j.q.jobQueue, id);
    assert forall u :: IsAdding(j', u, h) ==> IsAdding(j, u, h);
    WithoutIndexElements(j.q.jobQueue, i);
    assert j.q.jobQueue[i] in j.q.jobQueue;
    assert forall u :: IsStarting(j', u, h) <==> IsStarting(j, u, h);
    assert forall u :: IsInWindow(j', u, h) <==> IsInWindow(j, u, h);
  }

  lemma FlagStays(j: JobSide, id: string, h: Handle)
    requires JobInv(j) && Claimed(j, h) && !InQueue(j, id)
    ensures Stays(j, DoFlag(j, id), h)
  {
    var j' := DoFlag(j, id);
    assert forall u :: IsAdding(j', u, h) ==> IsAdding(j, u, h);
    assert forall u :: IsStarting(j', u, h) <==> IsStarting(j, u, h);
    assert forall u :: IsInWindow(j', u, h) <==> IsInWindow(j, u, h);
  }

  lemma JobStepStays(s: State, a: Action, h: Handle)
    requires Inv(s) && Enabled(s, a) && IsJobAction(a) && Claimed(s.j, h)
    ensures Stays(s.j, Apply(s, a).j, h)
  {
    match a
    case BuildJob(t, k, id) => BuildStays(s.j, t, k, id, h);
    case PushJob(t) => PushStays(s.j, t, h);
    case GetNextJob(t) => GetNextStays(s.j, t, h);
    case StartJob(t, verified) => StartStays(s.j, t, verified, h);
    case FailSending(t) => FinishStays(s.j, t, h);
    case SentCallback(t) => SentCallbackStays(s.j, t, h);
  }

  lemma StepStays(s: State, a: Action, h: Handle)
    requires Inv(s) && Enabled(s, a) && Claimed(s.j, h)
    ensures Stays(s.j, Apply(s, a).j, h)
  {
    if IsJobAction(a) {
      JobStepStays(s, a, h);
    } else if a.Publish? {
      FinishStays(s.j, a.t, h);
    } else if a.SearchQueue? {
      if InQueue(s.j, a.id) {
        RemoveStays(s.j, a.id, h);
      } else {
        FlagStays(s.j, a.id, h);
      }
    }
  }

  // ---------------------------------------------------------------------------------------
  // Its monitor objects: no new ones, and cancelled ones stay cancelled
  // ---------------------------------------------------------------------------------------

  predicate StandsFor(w: WatchSide, m: Handle, h: Handle) {
    m in w.w.monitors && m in w.origin && w.origin[m] == h
  }

  predicate IsFlagged(m: Monitor, kind: RequestKind) {
    match kind
    case Cancel => m.isCanceled
    case Interrupt => m.isInterrupt
  }

  /** Every monitored object of the job is flagged. */
  ghost predicate AllFlagged(w: WatchSide, h: Handle, kind: RequestKind) {
    forall m | m in w.w.jobMonitorList && StandsFor(w, m, h) :: IsFlagged(w.w.monitors[m], kind)
  }

  ghost predicate NothingNew(w: WatchSide, w': WatchSide, h: Handle) {
    forall m | StandsFor(w', m, h) ::
      && StandsFor(w, m, h)
      && (w.w.monitors[m].isCanceled ==> w'.w.monitors[m].isCanceled)
      && (w.w.monitors[m].isInterrupt ==> w'.w.monitors[m].isInterrupt)
  }

  lemma AdvancedBringsNothingNew(w: WatchSide, t: ThreadId, o: Outcome, next: Watcher, h: Handle)
    requires AtHead(w, t) && OutcomeOk(w.w.monitors[Head(w, t)], o)
    ensures NothingNew(w, Advanced(w, t, o, next), h)
  {
  }

  lemma EvaluationBringsNothingNew(s: State, a: Action, h: Handle)
    requires Enabled(s, a) && IsEvaluation(a)
    ensures NothingNew(s.w, Apply(s, a).w, h)
  {
    EvaluationOutcomeOk(s, a);
    var (o, next) := OutcomeOf(s, a);
    AdvancedBringsNothingNew(s.w, a.t, o, next, h);
  }

  lemma PublishBringsNothingNew(s: State, a: Action, h: Handle)
    requires Enabled(s, a) && a.Publish? && !InWindow(s.j, h)
    ensures NothingNew(s.w, Apply(s, a).w, h)
  {
    var w' := Apply(s, a).w;
    assert s.j.workers[a.t].job == h ==> IsInWindow(s.j, a.t, h);
    assert forall m :: StandsFor(w', m, h) ==> StandsFor(s.w, m, h);
  }

  lemma OthersBringNothingNew(s: State, a: Action, h: Handle)
    requires Enabled(s, a) && !IsEvaluation(a) && !a.Publish?
    ensures NothingNew(s.w, Apply(s, a).w, h)
  {
    var w' := Apply(s, a).w;
    assert forall m :: StandsFor(w', m, h) ==> StandsFor(s.w, m, h);
  }

  lemma StepBringsNothingNew(s: State, a: Action, h: Handle)
    requires Enabled(s, a) && !InWindow(s.j, h)
    ensures NothingNew(s.w, Apply(s, a).w, h)
  {
    if IsEvaluation(a) {
      EvaluationBringsNothingNew(s, a, h);
    } else if a.Publish? {
      PublishBringsNothingNew(s, a, h);
    } else {
      OthersBringNothingNew(s, a, h);
    }
  }

  lemma StaysFlagged(w: WatchSide, w': WatchSide, h: Handle, kind: RequestKind)
    requires WatchInv(w) && WatchInv(w') && w.erased <= w'.erased && NothingNew(w, w', h) && AllFlagged(w, h, kind)
    ensures AllFlagged(w', h, kind)
  {
  }

  lemma NothingNewTrans(w: WatchSide, w1: WatchSide, w2: WatchSide, h: Handle)
    requires NothingNew(w, w1, h) && NothingNew(w1, w2, h)
    ensures NothingNew(w, w2, h)
  {
  }

  /** Once claimed and outside the window, a job is never published any more. */
  lemma {:induction false} NeverPublishedAgain(s: State, actions: seq<Action>, h: Handle)
    requires Inv(s) && ValidRun(s, actions) && Claimed(s.j, h) && !InWindow(s.j, h)
    ensures NothingNew(s.w, After(s, actions).w, h)
    decreases |actions|
  {
    if actions == [] {
    } else {
      var s' := Apply(s, actions[0]);
      StepBringsNothingNew(s, actions[0], h);
      StepStays(s, actions[0], h);
      StepKeepsInv(s, actions[0]);
      NeverPublishedAgain(s', actions[1..], h);
      NothingNewTrans(s.w, s'.w, After(s', actions[1..]).w, h);
    }
  }

  /**
   * A job whose sender has not yet read isCanceled when the flag is set is never monitored,
   * whatever happens next.
   */
  lemma {:induction false} FlaggedInTimeIsNeverMonitored(s: State, t: ThreadId, h: Handle, actions: seq<Action>)
    requires Reachable(s) && ValidRun(s, actions)
    requires IsStarting(s.j, t, h) && h in s.j.q.jobs && s.j.q.jobs[h].isCanceled
    ensures forall m | m in After(s, actions).w.w.monitors :: !StandsFor(After(s, actions).w, m, h)
  {
    ReachableInv(s);
    assert IsSending(s.j, t);
    assert IsLaunching(s.j, t, h);
    PlacesAreDisjoint(s.j);
    assert s.j.started[|s.j.started| - 1] in s.j.started;
    forall u
      ensures !IsInWindow(s.j, u, h)
    {
      assert IsInWindow(s.j, u, h) ==> IsSending(s.j, u);
    }
    NeverPublishedAgain(s, actions, h);
    forall m
      ensures !StandsFor(s.w, m, h)
    {
      assert StandsFor(s.w, m, h) ==> !Launching(s.j, h);
    }
  }

  lemma UnverifiedIsClaimed(s: State, t: ThreadId, h: Handle)
    requires Inv(s) && Enabled(s, StartJob(t, false)) && h == s.j.workers[t].job
    ensures
      var s' := Apply(s, StartJob(t, false));
      Claimed(s'.j, h) && !InWindow(s'.j, h) && forall m :: !StandsFor(s'.w, m, h)
  {
    var s' := Apply(s, StartJob(t, false));
    assert IsSending(s.j, t) && IsLaunching(s.j, t, h);
    assert forall u :: !IsAdding(s'.j, u, h) && !IsStarting(s'.j, u, h) && !IsInWindow(s'.j, u, h) by {
      forall u
        ensures !IsAdding(s'.j, u, h) && !IsStarting(s'.j, u, h) && !IsInWindow(s'.j, u, h)
      {
        assert IsAdding(s'.j, u, h) ==> IsAdding(s.j, u, h);
        assert u != t && (IsStarting(s'.j, u, h) || IsInWindow(s'.j, u, h)) ==> IsSending(s.j, u);
      }
    }
    forall m
      ensures !StandsFor(s'.w, m, h)
    {
      assert StandsFor(s.w, m, h) ==> !Launching(s.j, h);
    }
  }

  /** A job whose verification fails is never monitored, whatever happens next. */
  lemma {:induction false} UnverifiedIsNeverMonitored(s: State, t: ThreadId, h: Handle, actions: seq<Action>)
    requires Reachable(s) && Enabled(s, StartJob(t, false)) && h == s.j.workers[t].job
    requires ValidRun(Apply(s, StartJob(t, false)), actions)
    ensures
      var s' := After(Apply(s, StartJob(t, false)), actions);
      forall m | m in s'.w.w.monitors :: m in s'.w.origin && s'.w.origin[m] != h
  {
    ReachableInv(s);
    var s1 := Apply(s, StartJob(t, false));
    UnverifiedIsClaimed(s, t, h);
    StepKeepsInv(s, StartJob(t, false));
    NeverPublishedAgain(s1, actions, h);
    RunKeepsInv(s1, actions);
    var s' := After(s1, actions);
    forall m | m in s'.w.w.monitors
      ensures m in s'.w.origin && s'.w.origin[m] != h
    {
      assert !StandsFor(s1.w, m, h);
      assert !StandsFor(s'.w, m, h);
    }
  }

  // ---------------------------------------------------------------------------------------
  // Requests that hold
  // ---------------------------------------------------------------------------------------

  /** Whatever the threads do from here on, the job is never monitored without the flag. */
  ghost predicate RequestHolds(s: State, h: Handle, kind: RequestKind) {
    forall actions {:trigger ValidRun(s, actions)} | ValidRun(s, actions) :: AllFlagged(After(s, actions).w, h, kind)
  }

  lemma ClaimedRequestHolds(s: State, h: Handle, kind: RequestKind)
    requires Inv(s) && h in s.j.built && !CanBePublished(s.j, h) && AllFlagged(s.w, h, kind)
    ensures RequestHolds(s, h, kind)
  {
    CanBePublishedUnless(s.j, h);
    forall actions | ValidRun(s, actions)
      ensures AllFlagged(After(s, actions).w, h, kind)
    {
      NeverPublishedAgain(s, actions, h);
      RunKeepsInv(s, actions);
      RunGrows(s, actions);
      StaysFlagged(s.w, After(s, actions).w, h, kind);
    }
  }

  /** A request finds the monitor object of a job, if it is in the list. */
  lemma SearchFinds(s: State, h: Handle)
    requires Inv(s) && h in s.j.built && DistinctIds(s.j)
    ensures
      var found := FoundMonitor(s.w.w, s.j.built[h]);
      && (found.Some? ==> found.value in s.w.w.jobMonitorList && StandsFor(s.w, found.value, h))
      && (found.None? ==> forall m | m in s.w.w.jobMonitorList :: !StandsFor(s.w, m, h))
  {
  }

  /** A job with a monitor object has passed the four places. */
  lemma MonitoredIsPast(s: State, m: Handle, h: Handle)
    requires Inv(s) && StandsFor(s.w, m, h)
    ensures h in s.j.built && !CanBePublished(s.j, h)
  {
    PlacesAreDisjoint(s.j);
    assert forall t :: IsStarting(s.j, t, h) || IsInWindow(s.j, t, h) ==> IsLaunching(s.j, t, h);
  }
}
