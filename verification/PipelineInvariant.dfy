/** The invariant of the whole pipeline, kept by every action and so true of every reachable state. */
module PipelineInvariant {
  import opened JobMonitor
  import opened JobPipeline
  import opened JobInvariant
  import opened JobPreservation
  import opened WatchInvariant

  /** A worker holds the job and may still publish it. */
  ghost predicate Launching(j: JobSide, h: Handle) {
    exists t :: IsLaunching(j, t, h)
  }

  predicate IsLaunching(j: JobSide, t: ThreadId, h: Handle) {
    t in j.workers && (j.workers[t] == Starting(h) || j.workers[t] == Sending(h))
  }

  /** Each monitor object stands for one started job that cannot be published again. */
  ghost predicate LinkInv(j: JobSide, w: WatchSide) {
    && (forall m | m in w.w.monitors ::
          && m in w.origin && w.origin[m] in j.started && !Launching(j, w.origin[m])
          && w.origin[m] in j.built && w.w.monitors[m].serviceJobId == j.built[w.origin[m]])
    && (forall m, n | m in w.w.monitors && n in w.w.monitors && w.origin[m] == w.origin[n] :: m == n)
  }

  ghost predicate Inv(s: State) {
    JobInv(s.j) && WatchInv(s.w) && LinkInv(s.j, s.w)
  }

  // ---------------------------------------------------------------------------------------
  // The link between the two sides
  // ---------------------------------------------------------------------------------------

  /** The job side moved on without launching a job that had been started before. */
  ghost predicate LaunchesOnlyFresh(j: JobSide, j': JobSide) {
    && j.started <= j'.started
    && (forall h | h in j.built :: h in j'.built && j'.built[h] == j.built[h])
    && (forall h | h in j.started && Launching(j', h) :: Launching(j, h))
  }

  lemma JobStepKeepsLink(j: JobSide, j': JobSide, w: WatchSide)
    requires LinkInv(j, w) && LaunchesOnlyFresh(j, j')
    ensures LinkInv(j', w)
  {
  }

  /** The monitor side moved on without touching the identity of monitor objects. */
  predicate KeepsIdentity(w: WatchSide, w': WatchSide) {
    && w'.w.monitors.Keys == w.w.monitors.Keys && w'.origin == w.origin
    && forall m | m in w.w.monitors :: w'.w.monitors[m].serviceJobId == w.w.monitors[m].serviceJobId
  }

  lemma WatchStepKeepsLink(j: JobSide, w: WatchSide, w': WatchSide)
    requires LinkInv(j, w) && KeepsIdentity(w, w')
    ensures LinkInv(j, w')
  {
  }

  lemma BuildLaunchesFresh(j: JobSide, t: ThreadId, h: Handle, id: string)
    requires JobInv(j) && t !in j.workers && h !in j.built
    ensures LaunchesOnlyFresh(j, DoBuild(j, t, h, id))
  {
    var j' := DoBuild(j, t, h, id);
    assert forall u, k :: IsLaunching(j', u, k) <==> IsLaunching(j, u, k);
  }

  lemma PushLaunchesFresh(j: JobSide, t: ThreadId)
    requires JobInv(j) && t in j.workers && j.workers[t].Adding?
    ensures LaunchesOnlyFresh(j, DoPush(j, t))
  {
    var j' := DoPush(j, t);
    assert forall u, k :: IsLaunching(j', u, k) <==> IsLaunching(j, u, k);
  }

  lemma GetNextLaunchesFresh(j: JobSide, t: ThreadId)
    requires JobInv(j) && t in j.workers && j.workers[t].AwaitingNext?
    ensures LaunchesOnlyFresh(j, DoGetNext(j, t))
  {
    var j' := DoGetNext(j, t);
    PlacesAreDisjoint(j);
    match NextJob(j.q)
    case None =>
      assert forall u, k :: IsLaunching(j', u, k) <==> IsLaunching(j, u, k);
    case Some(h) =>
      assert h in j.q.jobQueue && h !in j.started;
      assert forall u, k :: IsLaunching(j', u, k) <==> (u == t && k == h) || IsLaunching(j, u, k);
  }

  lemma StartLaunchesFresh(j: JobSide, t: ThreadId, verified: bool)
    requires JobInv(j) && t in j.workers && j.workers[t].Starting?
    ensures LaunchesOnlyFresh(j, DoStart(j, t, verified))
  {
    var j' := DoStart(j, t, verified);
    assert IsLaunching(j, t, j.workers[t].job);
    assert forall u, k :: IsLaunching(j', u, k) ==> IsLaunching(j, u, k);
  }

  lemma FinishLaunchesFresh(j: JobSide, t: ThreadId)
    requires JobInv(j) && t in j.workers && j.workers[t].Sending?
    ensures LaunchesOnlyFresh(j, DoFinish(j, t)) && !Launching(DoFinish(j, t), j.workers[t].job)
  {
    var j' := DoFinish(j, t);
    assert forall u, k :: IsLaunching(j', u, k) ==> IsLaunching(j, u, k) && u != t;
    assert forall u, k :: IsLaunching(j, u, k) ==> IsSending(j, u);
    assert IsSending(j, t);
  }

  lemma SentCallbackLaunchesFresh(j: JobSide, t: ThreadId)
    requires JobInv(j) && t in j.workers && j.workers[t].Sent?
    ensures LaunchesOnlyFresh(j, DoSentCallback(j, t))
  {
    var j' := DoSentCallback(j, t);
    assert forall u, k :: IsLaunching(j', u, k) <==> IsLaunching(j, u, k);
  }

  lemma RequestKeepsLink(j: JobSide, j': JobSide, w: WatchSide)
    requires LinkInv(j, w)
    requires j'.workers == j.workers && j'.started == j.started && j'.built == j.built
    ensures LinkInv(j', w)
  {
    assert forall u, k :: IsLaunching(j', u, k) <==> IsLaunching(j, u, k);
    JobStepKeepsLink(j, j', w);
  }

  lemma FlaggingKeepsLink(j: JobSide, w: WatchSide, m: Handle, monitor: Monitor)
    requires LinkInv(j, w) && m in w.w.monitors && OnlyFlagged(w.w.monitors[m], monitor)
    ensures LinkInv(j, WithMonitor(w, m, monitor))
  {
  }

  /** Publishing a job ties a new monitor object to a job no other stands for. */
  lemma PublishKeepsLink(j: JobSide, w: WatchSide, t: ThreadId, m: Handle, monitor: Monitor, mt: ThreadId)
    requires JobInv(j) && LinkInv(j, w) && t in j.workers && j.workers[t].Sending? && m !in w.w.monitors
    requires monitor.serviceJobId == j.built[j.workers[t].job]
    ensures LinkInv(DoFinish(j, t), DoPublish(w, m, monitor, j.workers[t].job, mt))
  {
    var h := j.workers[t].job;
    var j', w' := DoFinish(j, t), DoPublish(w, m, monitor, h, mt);
    assert IsSending(j, t);
    assert IsLaunching(j, t, h);
    FinishLaunchesFresh(j, t);
    JobStepKeepsLink(j, j', w);
    assert forall n | n in w'.w.monitors && n != m :: n in w.w.monitors && w'.origin[n] == w.origin[n];
  }

  // ---------------------------------------------------------------------------------------
  // Every action
  // ---------------------------------------------------------------------------------------

  predicate IsJobAction(a: Action) {
    a.BuildJob? || a.PushJob? || a.GetNextJob? || a.StartJob? || a.FailSending? || a.SentCallback?
  }

  lemma EnteringActionKeeps(s: State, a: Action)
    requires Inv(s) && Enabled(s, a) && (a.BuildJob? || a.PushJob? || a.GetNextJob?)
    ensures Inv(Apply(s, a))
  {
    match a
    case BuildJob(t, h, id) => BuildKeeps(s.j, t, h, id); BuildLaunchesFresh(s.j, t, h, id);
    case PushJob(t) => PushKeeps(s.j, t); PushLaunchesFresh(s.j, t);
    case GetNextJob(t) => GetNextKeeps(s.j, t); GetNextLaunchesFresh(s.j, t);
    JobStepKeepsLink(s.j, Apply(s, a).j, s.w);
  }

  lemma SenderActionKeeps(s: State, a: Action)
    requires Inv(s) && Enabled(s, a) && (a.StartJob? || a.FailSending? || a.SentCallback?)
    ensures Inv(Apply(s, a))
  {
    match a
    case StartJob(t, v) => StartKeeps(s.j, t, v); StartLaunchesFresh(s.j, t, v);
    case FailSending(t) => FinishKeeps(s.j, t); FinishLaunchesFresh(s.j, t);
    case SentCallback(t) => SentCallbackKeeps(s.j, t); SentCallbackLaunchesFresh(s.j, t);
    JobStepKeepsLink(s.j, Apply(s, a).j, s.w);
  }

  lemma PublishActionKeeps(s: State, a: Action)
    requires Inv(s) && Enabled(s, a) && a.Publish?
    ensures Inv(Apply(s, a))
  {
    var h := s.j.workers[a.t].job;
    assert IsSending(s.j, a.t);
    assert h in s.j.q.jobs;
    var monitor := NewMonitor(a.hasService, s.j.q.jobs[h].serviceJobId, a.isIppOverUsb, a.make);
    FinishKeeps(s.j, a.t);
    PublishKeeps(s.w, a.m, monitor, h, a.mt);
    PublishKeepsLink(s.j, s.w, a.t, a.m, monitor, a.mt);
  }

  lemma SearchQueueKeeps(s: State, a: Action)
    requires Inv(s) && Enabled(s, a) && a.SearchQueue?
    ensures Inv(Apply(s, a))
  {
    if InQueue(s.j, a.id) {
      RemoveKeeps(s.j, a.id);
      RequestKeepsLink(s.j, DoRemove(s.j, a.id), s.w);
    } else {
      JobPreservation.FlagKeeps(s.j, a.id);
      RequestKeepsLink(s.j, DoFlag(s.j, a.id), s.w);
    }
  }

  lemma FlagMonitorKeeps(s: State, m: Handle, monitor: Monitor)
    requires Inv(s) && m in s.w.w.monitors && OnlyFlagged(s.w.w.monitors[m], monitor)
    ensures JobInv(s.j) && WatchInv(WithMonitor(s.w, m, monitor)) && LinkInv(s.j, WithMonitor(s.w, m, monitor))
  {
    FlaggingKeeps(s.w, m, monitor);
    FlaggingKeepsLink(s.j, s.w, m, monitor);
  }

  lemma RequestActionKeeps(s: State, a: Action)
    requires Inv(s) && Enabled(s, a) && (a.SearchMonitors? || a.MarkInterrupt?)
    ensures Inv(Apply(s, a))
  {
    if a.SearchMonitors? {
      var found := FoundMonitor(s.w.w, s.requests[a.t].id);
      if found.Some? && s.requests[a.t].kind.Cancel? {
        var m := found.value;
        FlagMonitorKeeps(s, m, s.w.w.monitors[m].(isCanceled := true));
      }
    } else {
      var m := s.requests[a.t].monitor;
      if m in s.w.w.monitors {
        FlagMonitorKeeps(s, m, s.w.w.monitors[m].(isInterrupt := true));
      }
    }
  }

  predicate IsEvaluation(a: Action) {
    a.ReadCanceled? || a.ReadInterrupt? || a.QueryState?
  }

  /** The outcome of the evaluation step an action performs, and where the loop goes if it is not over. */
  function OutcomeOf(s: State, a: Action): (Outcome, Watcher)
    requires Enabled(s, a) && IsEvaluation(a)
  {
    var m, pass := s.w.w.monitors[Head(s.w, a.t)], s.w.watchers[a.t].pass;
    match a
    case ReadCanceled(_, cancelOk) => (CheckCanceled(m, cancelOk), NotCanceled(pass))
    case ReadInterrupt(_) => (CheckInterrupt(m), Querying(pass))
    case QueryState(_, poll) => (Query(m, poll), Passing(pass))
  }

  lemma EvaluationOutcomeOk(s: State, a: Action)
    requires Enabled(s, a) && IsEvaluation(a)
    ensures var (o, next) := OutcomeOf(s, a);
      OutcomeOk(s.w.w.monitors[Head(s.w, a.t)], o) && GoesOn(s.w, a.t, next) &&
      Apply(s, a) == s.(w := Advanced(s.w, a.t, o, next))
  {
    var m := s.w.w.monitors[Head(s.w, a.t)];
    match a
    case ReadCanceled(_, cancelOk) => StepsAreOk(m, cancelOk);
    case ReadInterrupt(_) => StepsAreOk(m, true);
    case QueryState(_, poll) => QueryIsOk(m, poll);
  }

  lemma AdvancedKeepsIdentity(w: WatchSide, t: ThreadId, o: Outcome, next: Watcher)
    requires AtHead(w, t) && OutcomeOk(w.w.monitors[Head(w, t)], o)
    ensures KeepsIdentity(w, Advanced(w, t, o, next))
  {
  }

  lemma EvaluationKeeps(s: State, a: Action)
    requires Inv(s) && Enabled(s, a) && IsEvaluation(a)
    ensures Inv(Apply(s, a))
  {
    EvaluationOutcomeOk(s, a);
    var (o, next) := OutcomeOf(s, a);
    AdvancedKeeps(s.w, a.t, o, next);
    AdvancedKeepsIdentity(s.w, a.t, o, next);
    WatchStepKeepsLink(s.j, s.w, Advanced(s.w, a.t, o, next));
  }

  lemma LoopStepKeepsLink(j: JobSide, w: WatchSide, w': WatchSide)
    requires LinkInv(j, w) && w'.w.monitors == w.w.monitors && w'.origin == w.origin
    ensures LinkInv(j, w')
  {
  }

  lemma EraseKeepsLink(j: JobSide, w: WatchSide, t: ThreadId)
    requires LinkInv(j, w) && AtHead(w, t)
    ensures LinkInv(j, DoErase(w, t))
  {
    LoopStepKeepsLink(j, w, DoErase(w, t));
  }

  lemma SnapshotActionKeeps(s: State, t: ThreadId)
    requires Inv(s) && Enabled(s, TakeSnapshot(t))
    ensures Inv(Apply(s, TakeSnapshot(t)))
  {
    SnapshotKeeps(s.w, t);
    LoopStepKeepsLink(s.j, s.w, DoSnapshot(s.w, t));
  }

  lemma EraseActionKeeps(s: State, t: ThreadId)
    requires Inv(s) && Enabled(s, EraseCompleted(t))
    ensures Inv(Apply(s, EraseCompleted(t)))
  {
    EraseKeeps(s.w, t);
    EraseKeepsLink(s.j, s.w, t);
    assert Apply(s, EraseCompleted(t)) == s.(w := DoErase(s.w, t));
  }

  lemma EndPassActionKeeps(s: State, t: ThreadId)
    requires Inv(s) && Enabled(s, EndPass(t))
    ensures Inv(Apply(s, EndPass(t)))
  {
    EndPassKeeps(s.w, t);
    LoopStepKeepsLink(s.j, s.w, DoEndPass(s.w, t));
  }

  lemma StepKeepsInv(s: State, a: Action)
    requires Inv(s) && Enabled(s, a)
    ensures Inv(Apply(s, a))
  {
    if a.BuildJob? || a.PushJob? || a.GetNextJob? {
      EnteringActionKeeps(s, a);
    } else if a.StartJob? || a.FailSending? || a.SentCallback? {
      SenderActionKeeps(s, a);
    } else if a.Publish? {
      PublishActionKeeps(s, a);
    } else if a.SearchQueue? {
      SearchQueueKeeps(s, a);
    } else if a.SearchMonitors? || a.MarkInterrupt? {
      RequestActionKeeps(s, a);
    } else if IsEvaluation(a) {
      EvaluationKeeps(s, a);
    } else {
      match a
      case TakeSnapshot(t) => SnapshotActionKeeps(s, t);
      case EraseCompleted(t) => EraseActionKeeps(s, t);
      case EndPass(t) => EndPassActionKeeps(s, t);
    }
  }

  lemma InitialInv()
    ensures Inv(INITIAL)
  {
  }

  lemma {:induction false} RunKeepsInv(s: State, actions: seq<Action>)
    requires Inv(s) && ValidRun(s, actions)
    ensures Inv(After(s, actions))
    decreases |actions|
  {
    if actions == [] {
    } else {
      StepKeepsInv(s, actions[0]);
      RunKeepsInv(Apply(s, actions[0]), actions[1..]);
    }
  }

  /** Whatever the threads do, in whatever order, the invariant holds. */
  lemma ReachableInv(s: State)
    requires Reachable(s)
    ensures Inv(s)
  {
    var actions :| ValidRun(INITIAL, actions) && After(INITIAL, actions) == s;
    InitialInv();
    RunKeepsInv(INITIAL, actions);
  }
}
