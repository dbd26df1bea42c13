/** A cancel or interrupt request touches the job it names and no other, over any run. */
module RequestScope {
  import opened JobMonitor
  import opened JobPipeline
  import opened JobInvariant
  import opened WatchInvariant
  import opened PipelineInvariant
  import opened RequestClaims

  /** The job was not removed from the queue, and is not flagged. */
  ghost predicate JobUntouched(j: JobSide, h: Handle) {
    h in j.built && h !in j.removed && (h in j.q.jobs ==> !j.q.jobs[h].isCanceled)
  }

  /** No object the job is monitored by is flagged. */
  ghost predicate ObjectsUntouched(w: WatchSide, h: Handle) {
    forall m | StandsFor(w, m, h) :: !w.w.monitors[m].isCanceled && !w.w.monitors[m].isInterrupt
  }

  /** A request under way that is about another job than h, which has this id. */
  predicate IsElsewhere(w: WatchSide, r: Requester, h: Handle, id: string) {
    match r
    case SearchingMonitors(_, other) => other != id
    case MarkingInterrupt(m) => m in w.w.monitors && m in w.origin && w.origin[m] != h
  }

  ghost predicate LeftAlone(s: State, h: Handle) {
    JobUntouched(s.j, h) && ObjectsUntouched(s.w, h) &&
    forall t | t in s.requests :: IsElsewhere(s.w, s.requests[t], h, s.j.built[h])
  }

  // ---------------------------------------------------------------------------------------
  // The job side
  // ---------------------------------------------------------------------------------------

  lemma WorkerKeepsUntouched(s: State, a: Action, h: Handle)
    requires JobInv(s.j) && Enabled(s, a) && (IsJobAction(a) || a.Publish?) && JobUntouched(s.j, h)
    ensures JobUntouched(Apply(s, a).j, h) && Apply(s, a).j.built[h] == s.j.built[h]
  {
  }

  /** The first section removes or flags a job of the id it is given. */
  lemma SearchKeepsUntouched(j: JobSide, id: string, h: Handle)
    requires JobInv(j) && JobUntouched(j, h) && id != j.built[h]
    ensures JobUntouched(if InQueue(j, id) then DoRemove(j, id) else DoFlag(j, id), h)
  {
    if InQueue(j, id) {
      assert HasId(j.q.jobs, j.q.jobQueue[FirstWith(j.q.jobs, j.q.jobQueue, id)], id);
    }
  }

  lemma JobStaysUntouched(s: State, a: Action, h: Handle)
    requires Inv(s) && Enabled(s, a) && JobUntouched(s.j, h) && (a.SearchQueue? ==> a.id != s.j.built[h])
    ensures JobUntouched(Apply(s, a).j, h) && Apply(s, a).j.built[h] == s.j.built[h]
  {
    if IsJobAction(a) || a.Publish? {
      WorkerKeepsUntouched(s, a, h);
    } else if a.SearchQueue? {
      SearchKeepsUntouched(s.j, a.id, h);
    }
  }

  // ---------------------------------------------------------------------------------------
  // The monitor side
  // ---------------------------------------------------------------------------------------

  /** No object of the job is new and flagged, and no flag of an old one has changed. */
  ghost predicate SameFlags(w: WatchSide, w': WatchSide, h: Handle) {
    forall m | StandsFor(w', m, h) ::
      if StandsFor(w, m, h) then
        w'.w.monitors[m].isCanceled == w.w.monitors[m].isCanceled &&
        w'.w.monitors[m].isInterrupt == w.w.monitors[m].isInterrupt
      else
        !w'.w.monitors[m].isCanceled && !w'.w.monitors[m].isInterrupt
  }

  lemma AdvanceKeepsFlags(w: WatchSide, t: ThreadId, o: Outcome, next: Watcher, h: Handle)
    requires AtHead(w, t) && OutcomeOk(w.w.monitors[Head(w, t)], o)
    ensures SameFlags(w, Advanced(w, t, o, next), h)
  {
  }

  lemma EvaluationKeepsFlags(s: State, a: Action, h: Handle)
    requires Enabled(s, a) && IsEvaluation(a)
    ensures SameFlags(s.w, Apply(s, a).w, h)
  {
    EvaluationOutcomeOk(s, a);
    var (o, next) := OutcomeOf(s, a);
    AdvanceKeepsFlags(s.w, a.t, o, next, h);
  }

  lemma FlagOfAnother(w: WatchSide, m: Handle, monitor: Monitor, h: Handle)
    requires m in w.w.monitors && m in w.origin && w.origin[m] != h
    ensures SameFlags(w, WithMonitor(w, m, monitor), h)
  {
  }

  /** The second section finds an object of the id it is given. */
  lemma FoundIsAnother(j: JobSide, w: WatchSide, id: string, h: Handle)
    requires WatchInv(w) && LinkInv(j, w) && h in j.built && id != j.built[h]
    ensures
      var found := FoundMonitor(w.w, id);
      found.Some? ==> found.value in w.w.monitors && found.value in w.origin && w.origin[found.value] != h
  {
    var found := FoundMonitor(w.w, id);
    if found.Some? {
      assert MonitorHasId(w.w.monitors, found.value, id);
    }
  }

  lemma RequestKeepsFlags(s: State, a: Action, h: Handle)
    requires Inv(s) && Enabled(s, a) && (a.SearchMonitors? || a.MarkInterrupt?)
    requires h in s.j.built && IsElsewhere(s.w, s.requests[a.t], h, s.j.built[h])
    ensures SameFlags(s.w, Apply(s, a).w, h)
  {
    if a.SearchMonitors? {
      var found := FoundMonitor(s.w.w, s.requests[a.t].id);
      FoundIsAnother(s.j, s.w, s.requests[a.t].id, h);
      if found.Some? {
        FlagOfAnother(s.w, found.value, s.w.w.monitors[found.value].(isCanceled := true), h);
      }
    } else {
      var m := s.requests[a.t].monitor;
      FlagOfAnother(s.w, m, s.w.w.monitors[m].(isInterrupt := true), h);
    }
  }

  lemma OthersKeepFlags(s: State, a: Action, h: Handle)
    requires Enabled(s, a) && !IsEvaluation(a) && !a.SearchMonitors? && !a.MarkInterrupt?
    ensures SameFlags(s.w, Apply(s, a).w, h)
  {
  }

  lemma FlagsStayDown(s: State, a: Action, h: Handle)
    requires Inv(s) && Enabled(s, a) && LeftAlone(s, h)
    ensures ObjectsUntouched(Apply(s, a).w, h)
  {
    if IsEvaluation(a) {
      EvaluationKeepsFlags(s, a, h);
    } else if a.SearchMonitors? || a.MarkInterrupt? {
      RequestKeepsFlags(s, a, h);
    } else {
      OthersKeepFlags(s, a, h);
    }
  }

  // ---------------------------------------------------------------------------------------
  // Requests under way
  // ---------------------------------------------------------------------------------------

  lemma OriginStays(s: State, a: Action, m: Handle)
    requires Enabled(s, a) && m in s.w.w.monitors && m in s.w.origin
    ensures
      var w' := Apply(s, a).w;
      m in w'.w.monitors && m in w'.origin && w'.origin[m] == s.w.origin[m]
  {
  }

  lemma ElsewhereStays(s: State, a: Action, r: Requester, h: Handle, id: string)
    requires Enabled(s, a) && IsElsewhere(s.w, r, h, id)
    ensures IsElsewhere(Apply(s, a).w, r, h, id)
  {
    if r.MarkingInterrupt? {
      OriginStays(s, a, r.monitor);
    }
  }

  /** A step leaves every request as it was, ends it, starts one, or turns a search into a mark. */
  lemma NextRequest(s: State, a: Action, t: ThreadId)
    requires Enabled(s, a) && t in Apply(s, a).requests
    ensures
      var r := Apply(s, a).requests[t];
      || (t in s.requests && r == s.requests[t])
      || (a.SearchQueue? && r == SearchingMonitors(a.kind, a.id))
      || (a == SearchMonitors(t) && FoundMonitor(s.w.w, s.requests[t].id).Some? &&
          r == MarkingInterrupt(FoundMonitor(s.w.w, s.requests[t].id).value))
  {
  }

  lemma RequestStaysElsewhere(s: State, a: Action, t: ThreadId, h: Handle)
    requires Inv(s) && Enabled(s, a) && LeftAlone(s, h) && (a.SearchQueue? ==> a.id != s.j.built[h])
    requires t in Apply(s, a).requests
    ensures IsElsewhere(Apply(s, a).w, Apply(s, a).requests[t], h, s.j.built[h])
  {
    NextRequest(s, a, t);
    var r := Apply(s, a).requests[t];
    if t in s.requests && r == s.requests[t] {
      ElsewhereStays(s, a, r, h, s.j.built[h]);
    } else if !a.SearchQueue? {
      FoundIsAnother(s.j, s.w, s.requests[t].id, h);
      OriginStays(s, a, r.monitor);
    }
  }

  lemma {:induction false} StepLeavesAlone(s: State, a: Action, h: Handle)
    requires Inv(s) && Enabled(s, a) && LeftAlone(s, h) && (a.SearchQueue? ==> a.id != s.j.built[h])
    ensures LeftAlone(Apply(s, a), h) && Apply(s, a).j.built[h] == s.j.built[h]
  {
    JobStaysUntouched(s, a, h);
    FlagsStayDown(s, a, h);
    forall t | t in Apply(s, a).requests
      ensures IsElsewhere(Apply(s, a).w, Apply(s, a).requests[t], h, s.j.built[h])
    {
      RequestStaysElsewhere(s, a, t, h);
    }
  }

  // ---------------------------------------------------------------------------------------
  // Runs
  // ---------------------------------------------------------------------------------------

  /**
   * As long as nobody asks for a job's id, the job is neither removed nor flagged, and nor is any object it is
   * monitored by, whatever is asked of other jobs.
   */
  lemma {:induction false} OnlyTheNamedJob(s: State, actions: seq<Action>, h: Handle)
    requires Inv(s) && ValidRun(s, actions) && LeftAlone(s, h)
    requires forall a | a in actions :: a.SearchQueue? ==> a.id != s.j.built[h]
    ensures LeftAlone(After(s, actions), h)
    decreases |actions|
  {
    if actions == [] {
    } else {
      var a := actions[0];
      assert a in actions;
      StepLeavesAlone(s, a, h);
      StepKeepsInv(s, a);
      OnlyTheNamedJob(Apply(s, a), actions[1..], h);
    }
  }

  /** A request that marks refers to an object that exists. */
  ghost predicate MarksExist(s: State) {
    forall t | t in s.requests && s.requests[t].MarkingInterrupt? :: s.requests[t].monitor in s.w.w.monitors
  }

  lemma StepKeepsMarks(s: State, a: Action)
    requires Inv(s) && Enabled(s, a) && MarksExist(s)
    ensures MarksExist(Apply(s, a))
  {
    var s' := Apply(s, a);
    forall t | t in s'.requests && s'.requests[t].MarkingInterrupt?
      ensures s'.requests[t].monitor in s'.w.w.monitors
    {
      NextRequest(s, a, t);
      assert s'.requests[t].monitor in s.w.w.monitors;
      OriginStays(s, a, s'.requests[t].monitor);
    }
  }

  lemma {:induction false} RunKeepsMarks(s: State, actions: seq<Action>)
    requires Inv(s) && MarksExist(s) && ValidRun(s, actions)
    ensures MarksExist(After(s, actions))
    decreases |actions|
  {
    if actions == [] {
    } else {
      StepKeepsMarks(s, actions[0]);
      StepKeepsInv(s, actions[0]);
      RunKeepsMarks(Apply(s, actions[0]), actions[1..]);
    }
  }

  lemma ReachableMarks(s: State)
    requires Reachable(s)
    ensures MarksExist(s)
  {
    var actions :| ValidRun(INITIAL, actions) && After(INITIAL, actions) == s;
    InitialInv();
    RunKeepsMarks(INITIAL, actions);
  }

  lemma {:induction false} BuiltIsLeftAlone(s: State, t: ThreadId, h: Handle, id: string)
    requires Reachable(s) && Enabled(s, BuildJob(t, h, id))
    requires forall u | u in s.requests && s.requests[u].SearchingMonitors? :: s.requests[u].id != id
    ensures LeftAlone(Apply(s, BuildJob(t, h, id)), h)
  {
    ReachableInv(s);
    ReachableMarks(s);
    assert h !in s.j.removed;
    assert forall m | m in s.w.w.monitors :: s.w.origin[m] in s.j.built;
  }

  /**
   * A job whose id nobody asks for, from the moment it is built: in no run is it removed from the queue or
   * flagged, nor any object it is monitored by, whatever is asked of other jobs.
   */
  lemma {:induction false} UnaskedIsUntouched(s: State, t: ThreadId, h: Handle, id: string, actions: seq<Action>)
    requires Reachable(s) && Enabled(s, BuildJob(t, h, id)) && ValidRun(Apply(s, BuildJob(t, h, id)), actions)
    requires forall u | u in s.requests && s.requests[u].SearchingMonitors? :: s.requests[u].id != id
    requires forall a | a in actions :: a.SearchQueue? ==> a.id != id
    ensures
      var s' := After(Apply(s, BuildJob(t, h, id)), actions);
      && h !in s'.j.removed && (h in s'.j.q.jobs ==> !s'.j.q.jobs[h].isCanceled)
      && forall m | StandsFor(s'.w, m, h) :: !s'.w.w.monitors[m].isCanceled && !s'.w.w.monitors[m].isInterrupt
  {
    var s1 := Apply(s, BuildJob(t, h, id));
    BuiltIsLeftAlone(s, t, h, id);
    ReachableInv(s);
    StepKeepsInv(s, BuildJob(t, h, id));
    OnlyTheNamedJob(s1, actions, h);
  }

  // ---------------------------------------------------------------------------------------
  // The end of a request
  // ---------------------------------------------------------------------------------------

  /** A request goes on after a section only if that section has left something to do. */
  lemma RequestGoesOnIff(s: State, a: Action)
    requires Enabled(s, a) && (a.SearchQueue? || a.SearchMonitors? || a.MarkInterrupt?)
    ensures a.SearchQueue? ==> (a.t in Apply(s, a).requests <==> !InQueue(s.j, a.id))
    ensures a.SearchMonitors? ==>
              (a.t in Apply(s, a).requests <==>
               s.requests[a.t].kind.Interrupt? && FoundMonitor(s.w.w, s.requests[a.t].id).Some?)
    ensures a.MarkInterrupt? ==> a.t !in Apply(s, a).requests
    ensures forall t | t != a.t :: t in Apply(s, a).requests <==> t in s.requests
  {
  }
}
