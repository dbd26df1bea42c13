/**
 * When does InterruptCupsJob take effect? Its second critical section only looks the monitor object up; the
 * flag is set after the lock is gone, when the object may already have left the list. This module proves
 * when the request is lost, and what the monitor loop still reports about a job that was marked.
 */
module InterruptTheorem {
  import opened Options
  import opened PrintConstants
  import opened JobMonitor
  import opened JobMonitorTheorems
  import opened JobPipeline
  import opened WatchInvariant
  import opened PipelineInvariant
  import opened PipelineTheorems
  import opened ProgressTheorem
  import opened RequestClaims
  import opened CancelTheorem
  import opened LoopTheorem

  // ---------------------------------------------------------------------------------------
  // The critical sections
  // ---------------------------------------------------------------------------------------

  /** Nothing is listed for the job: the request ends, and holds exactly when the job cannot be published. */
  lemma {:induction false} NothingToInterrupt(s: State, t: ThreadId, h: Handle)
    requires Inv(s) && FlagsCurrent(s.j) && DistinctIds(s.j) && h in s.j.built
    requires t in s.requests && s.requests[t] == SearchingMonitors(Interrupt, s.j.built[h])
    requires FoundMonitor(s.w.w, s.j.built[h]).None?
    ensures RequestHolds(DoSearchMonitors(s, t), h, Interrupt) <==> !CanBePublished(s.j, h)
  {
    var s' := DoSearchMonitors(s, t);
    assert Apply(s, SearchMonitors(t)) == s' && s'.j == s.j && s'.w == s.w;
    StepKeepsInv(s, SearchMonitors(t));
    SearchFinds(s, h);
    if CanBePublished(s.j, h) {
      PublishableFails(s', h, Interrupt);
    } else {
      ClaimedRequestHolds(s', h, Interrupt);
    }
  }

  lemma StandsForStep(s: State, a: Action, m: Handle, h: Handle)
    requires Enabled(s, a) && StandsFor(s.w, m, h)
    ensures StandsFor(Apply(s, a).w, m, h)
  {
  }

  lemma {:induction false} RunKeepsStandsFor(s: State, actions: seq<Action>, m: Handle, h: Handle)
    requires ValidRun(s, actions) && StandsFor(s.w, m, h)
    ensures StandsFor(After(s, actions).w, m, h)
    decreases |actions|
  {
    if actions == [] {
    } else {
      StandsForStep(s, actions[0], m, h);
      RunKeepsStandsFor(Apply(s, actions[0]), actions[1..], m, h);
    }
  }

  /** The object found is the job's only one, and once it is marked the request holds, erased or not. */
  lemma {:induction false} MarkingHolds(s: State, t: ThreadId, m: Handle, h: Handle)
    requires Inv(s) && t in s.requests && s.requests[t] == MarkingInterrupt(m) && StandsFor(s.w, m, h)
    ensures RequestHolds(DoMarkInterrupt(s, t), h, Interrupt)
  {
    var s' := DoMarkInterrupt(s, t);
    assert Apply(s, MarkInterrupt(t)) == s' && s'.j == s.j;
    StepKeepsInv(s, MarkInterrupt(t));
    MonitoredIsPast(s, m, h);
    forall n | n in s'.w.w.jobMonitorList && StandsFor(s'.w, n, h)
      ensures s'.w.w.monitors[n].isInterrupt
    {
      assert n == m;
    }
    ClaimedRequestHolds(s', h, Interrupt);
  }

  /** What the second section does, and leaves open. */
  ghost predicate Decided(s: State, t: ThreadId, h: Handle)
    requires h in s.j.built && t in s.requests && s.requests[t] == SearchingMonitors(Interrupt, s.j.built[h])
  {
    match FoundMonitor(s.w.w, s.j.built[h])
    case None => RequestHolds(DoSearchMonitors(s, t), h, Interrupt) <==> !CanBePublished(s.j, h)
    case Some(m) =>
      StandsFor(s.w, m, h) && !CanBePublished(s.j, h) &&
      DoSearchMonitors(s, t).requests == s.requests[t := MarkingInterrupt(m)]
  }

  lemma {:induction false} SecondSectionInterrupts(s: State, t: ThreadId, h: Handle)
    requires Inv(s) && FlagsCurrent(s.j) && DistinctIds(s.j) && h in s.j.built
    requires t in s.requests && s.requests[t] == SearchingMonitors(Interrupt, s.j.built[h])
    ensures Decided(s, t, h)
  {
    SearchFinds(s, h);
    match FoundMonitor(s.w.w, s.j.built[h])
    case None => NothingToInterrupt(s, t, h);
    case Some(m) => MonitoredIsPast(s, m, h);
  }

  /**
   * Interrupting a job, whatever happens between the sections. If the second one finds no object of the job,
   * the request holds for good if and only if the job cannot be published any more (for a job that had been
   * added: if and only if its sender is not in the window). If it finds one, the job cannot be published again.
   */
  lemma {:induction false} InterruptTakesEffectIff(
      s: State, t: ThreadId, h: Handle, between: seq<Action>, s2: State)
    requires Reachable(s) && h in s.j.built && Enabled(s, SearchQueue(t, Interrupt, s.j.built[h]))
    requires ValidRun(Apply(s, SearchQueue(t, Interrupt, s.j.built[h])), between)
    requires s2 == After(Apply(s, SearchQueue(t, Interrupt, s.j.built[h])), between)
    requires t in s2.requests && s2.requests[t] == SearchingMonitors(Interrupt, s.j.built[h]) && DistinctIds(s2.j)
    ensures h in s.j.added ==> (CanBePublished(s2.j, h) <==> InWindow(s2.j, h))
    ensures h in s2.j.built && s2.j.built[h] == s.j.built[h] && Decided(s2, t, h)
  {
    SecondSectionReached(s, t, h, Interrupt, between, s2);
    SecondSectionInterrupts(s2, t, h);
  }

  /** A request that has found an object holds from the moment that object is marked, however late that is. */
  lemma {:induction false} LateMarkHolds(s: State, t: ThreadId, h: Handle, later: seq<Action>)
    requires Inv(s) && DistinctIds(s.j) && h in s.j.built
    requires t in s.requests && s.requests[t] == SearchingMonitors(Interrupt, s.j.built[h])
    requires FoundMonitor(s.w.w, s.j.built[h]).Some? && ValidRun(DoSearchMonitors(s, t), later)
    ensures
      var m, s' := FoundMonitor(s.w.w, s.j.built[h]).value, After(DoSearchMonitors(s, t), later);
      t in s'.requests && s'.requests[t] == MarkingInterrupt(m) ==> RequestHolds(DoMarkInterrupt(s', t), h, Interrupt)
  {
    var m, found := FoundMonitor(s.w.w, s.j.built[h]).value, DoSearchMonitors(s, t);
    SearchFinds(s, h);
    assert Apply(s, SearchMonitors(t)) == found && found.w == s.w;
    StepKeepsInv(s, SearchMonitors(t));
    RunKeepsInv(found, later);
    RunKeepsStandsFor(found, later, m, h);
    var s' := After(found, later);
    if t in s'.requests && s'.requests[t] == MarkingInterrupt(m) {
      MarkingHolds(s', t, m, h);
    }
  }

  /** One job, its sender past the check, and an interrupt that is lost. */
  lemma InterruptLostToWindow() returns (s: State, s2: State)
    ensures Reachable(s) && s.j.added == [0] && s.j.q.jobQueue == [] && s.j.built == map[0 := "job"]
    ensures Enabled(s, SearchQueue(0, Interrupt, "job")) && s2 == Apply(s, SearchQueue(0, Interrupt, "job"))
    ensures s2.requests == map[0 := SearchingMonitors(Interrupt, "job")]
    ensures InWindow(s2.j, 0) && !RequestHolds(DoSearchMonitors(s2, 0), 0, Interrupt)
  {
    s := OneInWindow();
    s2 := LateRequest(s, Interrupt);
    NothingBetween(s2);
    InterruptTakesEffectIff(s, 0, 0, [], s2);
  }

  /** One job, built but not yet queued, and an interrupt that finds it nowhere. */
  lemma EarlyInterruptIsLost() returns (s: State, s2: State)
    ensures Reachable(s) && s.j.workers == map[0 := Adding(0)] && s.j.built == map[0 := "job"]
    ensures Enabled(s, SearchQueue(0, Interrupt, "job")) && s2 == Apply(s, SearchQueue(0, Interrupt, "job"))
    ensures s2.requests == map[0 := SearchingMonitors(Interrupt, "job")]
    ensures !InWindow(s2.j, 0) && !RequestHolds(DoSearchMonitors(s2, 0), 0, Interrupt)
  {
    s := OneBuilt();
    s2 := EarlyRequest(s, Interrupt);
    NothingBetween(s2);
    InterruptTakesEffectIff(s, 0, 0, [], s2);
  }

  // ---------------------------------------------------------------------------------------
  // What the loop reports about a marked job
  // ---------------------------------------------------------------------------------------

  /** The evaluation in progress has already read isInterrupt as false, or has said to stop. */
  predicate PastInterrupt(w: WatchSide, t: ThreadId, m: Handle) {
    t in w.watchers && (w.watchers[t].Querying? || w.watchers[t].Erasing?) &&
    w.watchers[t].pass != [] && w.watchers[t].pass[0] == m
  }

  /** Marked and listed, and no evaluation is past the mark; so far this has been reported. */
  ghost predicate Marked(w: WatchSide, m: Handle, log: seq<Report>) {
    && m in w.w.jobMonitorList && m in w.w.monitors && m in w.log && w.log[m] == log
    && w.w.monitors[m].hasService && w.w.monitors[m].isInterrupt
    && forall t :: !PastInterrupt(w, t, m)
  }

  /** The two ways it can end: the interrupt is seen, or a cancel is seen first and CUPS refuses it. */
  predicate StopsMarked(r: Report) {
    || r == Report(PRINT_JOB_BLOCKED, PRINT_JOB_BLOCKED_INTERRUPT)
    || r == Report(PRINT_JOB_COMPLETED, PRINT_JOB_COMPLETED_CANCELLED)
  }

  ghost predicate Stopped(w: WatchSide, m: Handle, log: seq<Report>) {
    && Closed(w, m) && m in w.w.monitors && m in w.log && |w.log[m]| == |log| + 1
    && w.log[m] == log + [w.log[m][|log|]] && StopsMarked(w.log[m][|log|])
  }

  /** What an evaluation step makes of a marked job: it goes on to the next read, or stops with a report. */
  predicate GoesOnOrStops(m: Monitor, o: Outcome) {
    && o.m.hasService == m.hasService && o.m.isInterrupt == m.isInterrupt
    && (|| (o.verdict == Proceed && o.reports == [])
        || (o.verdict == Drop && |o.reports| == 1 && StopsMarked(o.reports[0])))
  }

  lemma OwnAdvanceGoesOn(w: WatchSide, t: ThreadId, o: Outcome, next: Watcher, m: Handle, log: seq<Report>)
    requires AtHead(w, t) && Head(w, t) == m && Marked(w, m, log) && next.NotCanceled? && o.verdict == Proceed
    requires GoesOnOrStops(w.w.monitors[m], o)
    ensures Marked(Advanced(w, t, o, next), m, log)
  {
    var w' := Advanced(w, t, o, next);
    assert forall u :: u != t ==> (PastInterrupt(w', u, m) <==> PastInterrupt(w, u, m));
    assert w'.log[m] == log + [] == log;
  }

  lemma OwnAdvanceStops(w: WatchSide, t: ThreadId, o: Outcome, next: Watcher, m: Handle, log: seq<Report>)
    requires AtHead(w, t) && Head(w, t) == m && Marked(w, m, log) && o.verdict == Drop
    requires GoesOnOrStops(w.w.monitors[m], o)
    ensures Stopped(Advanced(w, t, o, next), m, log)
  {
    var w' := Advanced(w, t, o, next);
    assert IsErasing(w', t, m);
    assert w'.log[m] == log + o.reports;
  }

  lemma {:induction false} OwnEvaluationStep(s: State, a: Action, m: Handle, log: seq<Report>)
    requires Inv(s) && Enabled(s, a) && IsEvaluation(a) && Head(s.w, a.t) == m && Marked(s.w, m, log)
    ensures Marked(Apply(s, a).w, m, log) || Stopped(Apply(s, a).w, m, log)
  {
    var (o, next) := OutcomeOf(s, a);
    EvaluationOutcomeOk(s, a);
    assert !PastInterrupt(s.w, a.t, m);
    if o.verdict == Drop {
      OwnAdvanceStops(s.w, a.t, o, next, m, log);
    } else {
      OwnAdvanceGoesOn(s.w, a.t, o, next, m, log);
    }
  }

  lemma OtherAdvance(w: WatchSide, t: ThreadId, o: Outcome, next: Watcher, m: Handle, log: seq<Report>)
    requires AtHead(w, t) && Head(w, t) != m && Marked(w, m, log) && GoesOn(w, t, next)
    ensures Marked(Advanced(w, t, o, next), m, log)
  {
    var w' := Advanced(w, t, o, next);
    assert forall u :: u != t ==> (PastInterrupt(w', u, m) <==> PastInterrupt(w, u, m));
  }

  lemma {:induction false} OtherEvaluationStep(s: State, a: Action, m: Handle, log: seq<Report>)
    requires Inv(s) && Enabled(s, a) && IsEvaluation(a) && Head(s.w, a.t) != m && Marked(s.w, m, log)
    ensures Marked(Apply(s, a).w, m, log)
  {
    EvaluationOutcomeOk(s, a);
    var (o, next) := OutcomeOf(s, a);
    OtherAdvance(s.w, a.t, o, next, m, log);
  }

  /** The monitor side moved on without touching a listed object, and brought no evaluation past its mark. */
  ghost predicate LeavesAlone(w: WatchSide, w': WatchSide, m: Handle) {
    && (m in w.w.jobMonitorList ==> m in w'.w.jobMonitorList)
    && (m in w.w.monitors ==>
          && m in w'.w.monitors && w'.w.monitors[m].hasService == w.w.monitors[m].hasService
          && (w.w.monitors[m].isInterrupt ==> w'.w.monitors[m].isInterrupt))
    && (m in w.log && m in w.w.monitors ==> m in w'.log && w'.log[m] == w.log[m])
    && forall t :: PastInterrupt(w', t, m) ==> PastInterrupt(w, t, m)
  }

  lemma StaysMarked(w: WatchSide, w': WatchSide, m: Handle, log: seq<Report>)
    requires Marked(w, m, log) && LeavesAlone(w, w', m)
    ensures Marked(w', m, log)
  {
  }

  lemma EraseLeavesAlone(w: WatchSide, t: ThreadId, m: Handle)
    requires WatchInv(w) && AtHead(w, t) && w.watchers[t].Erasing? && m in w.w.jobMonitorList && m != Head(w, t)
    ensures LeavesAlone(w, DoErase(w, t), m)
  {
    ErasingRemovesHead(w, t, m);
  }

  lemma PublishLeavesAlone(w: WatchSide, n: Handle, monitor: Monitor, h: Handle, mt: ThreadId, m: Handle)
    requires n !in w.w.monitors && mt !in w.watchers
    ensures LeavesAlone(w, DoPublish(w, n, monitor, h, mt), m)
  {
  }

  lemma LoopLeavesAlone(s: State, a: Action, m: Handle)
    requires Enabled(s, a) && (a.TakeSnapshot? || a.EndPass?)
    ensures LeavesAlone(s.w, Apply(s, a).w, m)
  {
  }

  lemma RequestLeavesAlone(s: State, a: Action, m: Handle)
    requires Enabled(s, a) && (a.SearchQueue? || a.SearchMonitors? || a.MarkInterrupt?)
    ensures LeavesAlone(s.w, Apply(s, a).w, m)
  {
    var w' := Apply(s, a).w;
    assert forall t :: PastInterrupt(w', t, m) <==> PastInterrupt(s.w, t, m);
  }

  lemma OtherStep(s: State, a: Action, m: Handle)
    requires Inv(s) && Enabled(s, a) && !IsEvaluation(a) && !a.EraseCompleted?
    ensures LeavesAlone(s.w, Apply(s, a).w, m)
  {
    if a.Publish? {
      var h := s.j.workers[a.t].job;
      var id := if h in s.j.q.jobs then s.j.q.jobs[h].serviceJobId else "";
      PublishLeavesAlone(s.w, a.m, NewMonitor(a.hasService, id, a.isIppOverUsb, a.make), h, a.mt, m);
    } else if a.TakeSnapshot? || a.EndPass? {
      LoopLeavesAlone(s, a, m);
    } else if a.SearchQueue? || a.SearchMonitors? || a.MarkInterrupt? {
      RequestLeavesAlone(s, a, m);
    } else {
      assert Apply(s, a).w == s.w;
    }
  }

  lemma {:induction false} UnevaluatedStep(s: State, a: Action, m: Handle, log: seq<Report>)
    requires Inv(s) && Enabled(s, a) && !IsEvaluation(a) && Marked(s.w, m, log)
    ensures Marked(Apply(s, a).w, m, log)
  {
    if a.EraseCompleted? {
      assert !PastInterrupt(s.w, a.t, m);
      EraseLeavesAlone(s.w, a.t, m);
    } else {
      OtherStep(s, a, m);
    }
    StaysMarked(s.w, Apply(s, a).w, m, log);
  }

  lemma {:induction false} EvaluatedStep(s: State, a: Action, m: Handle, log: seq<Report>)
    requires Inv(s) && Enabled(s, a) && IsEvaluation(a) && Marked(s.w, m, log)
    ensures Marked(Apply(s, a).w, m, log) || Stopped(Apply(s, a).w, m, log)
  {
    if Head(s.w, a.t) == m {
      OwnEvaluationStep(s, a, m, log);
    } else {
      OtherEvaluationStep(s, a, m, log);
    }
  }

  lemma {:induction false} MarkedStep(s: State, a: Action, m: Handle, log: seq<Report>)
    requires Inv(s) && Enabled(s, a) && Marked(s.w, m, log)
    ensures Marked(Apply(s, a).w, m, log) || Stopped(Apply(s, a).w, m, log)
  {
    if IsEvaluation(a) {
      EvaluatedStep(s, a, m, log);
    } else {
      UnevaluatedStep(s, a, m, log);
    }
  }

  /** Once an evaluation has said to stop, nothing more is reported, and it stays so. */
  lemma {:induction false} ClosedStep(s: State, a: Action, m: Handle)
    requires Inv(s) && Enabled(s, a) && Closed(s.w, m) && m in s.w.w.monitors && m in s.w.log
    ensures Closed(Apply(s, a).w, m) && m in Apply(s, a).w.w.monitors
    ensures m in Apply(s, a).w.log && Apply(s, a).w.log[m] == s.w.log[m]
  {
    if IsEvaluation(a) {
      ClosedIsNotEvaluated(s, a, m);
    }
    LogStep(s, a, m);
    StaysClosed(s, a, m);
    ObjectsStay(s, a, m);
  }

  lemma ClosedIsNotEvaluated(s: State, a: Action, m: Handle)
    requires Inv(s) && Enabled(s, a) && IsEvaluation(a) && Closed(s.w, m)
    ensures m != Head(s.w, a.t)
  {
    if m in s.w.erased {
      ErasedIsOutOfReach(s.w, a.t, m);
    } else {
      NobodyErases(s.w, a.t);
    }
  }

  /** The loop that has been told to stop does nothing else before it erases. */
  lemma ErasingLoopWaits(s: State, a: Action, t: ThreadId, m: Handle)
    requires Inv(s) && Enabled(s, a) && IsErasing(s.w, t, m) && !a.EraseCompleted?
    ensures IsErasing(Apply(s, a).w, t, m)
  {
    assert forall u | u in s.w.watchers :: u == t;
  }

  lemma ErasingEnds(w: WatchSide, t: ThreadId, u: ThreadId, m: Handle)
    requires WatchInv(w) && IsErasing(w, t, m) && AtHead(w, u)
    ensures m in DoErase(w, u).erased
  {
    assert u == t && PassInv(w, t);
  }

  lemma {:induction false} StaysClosed(s: State, a: Action, m: Handle)
    requires Inv(s) && Enabled(s, a) && Closed(s.w, m)
    ensures Closed(Apply(s, a).w, m)
  {
    StepGrows(s, a);
    if m !in s.w.erased {
      var t :| IsErasing(s.w, t, m);
      if a.EraseCompleted? {
        ErasingEnds(s.w, t, a.t, m);
      } else {
        ErasingLoopWaits(s, a, t, m);
      }
    }
  }

  lemma ObjectsStay(s: State, a: Action, m: Handle)
    requires Enabled(s, a) && m in s.w.w.monitors
    ensures m in Apply(s, a).w.w.monitors
  {
  }

  /**
   * From the moment a listed job is marked, and no evaluation of it is past the mark, the monitor loop makes
   * at most one more report about it, over any run: "interrupted", or "cancelled" if a cancel it had not yet
   * seen was refused. Until then the job is still listed; after it, its evaluation has ended.
   */
  lemma {:induction false} MarkedIsReportedOnce(s: State, actions: seq<Action>, m: Handle, log: seq<Report>)
    requires Inv(s) && ValidRun(s, actions) && (Marked(s.w, m, log) || Stopped(s.w, m, log))
    ensures Marked(After(s, actions).w, m, log) || Stopped(After(s, actions).w, m, log)
    decreases |actions|
  {
    if actions == [] {
    } else {
      if Marked(s.w, m, log) {
        MarkedStep(s, actions[0], m, log);
      } else {
        ClosedStep(s, actions[0], m);
      }
      StepKeepsInv(s, actions[0]);
      MarkedIsReportedOnce(Apply(s, actions[0]), actions[1..], m, log);
    }
  }

  // ---------------------------------------------------------------------------------------
  // Marked while an evaluation is already past the mark
  // ---------------------------------------------------------------------------------------

  predicate IsQuerying(w: WatchSide, t: ThreadId, m: Handle) {
    t in w.watchers && w.watchers[t].Querying? && w.watchers[t].pass != [] && w.watchers[t].pass[0] == m
  }

  /** Marked and listed, but an evaluation has already read isInterrupt as false. */
  ghost predicate MarkedLate(w: WatchSide, m: Handle, log: seq<Report>) {
    && m in w.w.jobMonitorList && m in w.w.monitors && m in w.log && w.log[m] == log
    && w.w.monitors[m].hasService && w.w.monitors[m].isInterrupt
    && exists t :: IsQuerying(w, t, m)
  }

  /** At most one report has been added. */
  predicate AddsAtMostOne(log: seq<Report>, log': seq<Report>) {
    log <= log' && |log'| <= |log| + 1
  }

  /** That evaluation, or one that had already been told to stop, has ended the job. */
  ghost predicate Over(w: WatchSide, m: Handle, log: seq<Report>) {
    Closed(w, m) && m in w.w.monitors && m in w.log && AddsAtMostOne(log, w.log[m])
  }

  /** That evaluation left the job listed, perhaps with a report of its own, and the mark counts from here. */
  ghost predicate MarkedSince(w: WatchSide, m: Handle, log: seq<Report>, log1: seq<Report>) {
    AddsAtMostOne(log, log1) && (Marked(w, m, log1) || Stopped(w, m, log1))
  }

  /** All that can become of a marked job. */
  ghost predicate Interrupted(w: WatchSide, m: Handle, log: seq<Report>) {
    MarkedLate(w, m, log) || Over(w, m, log) || exists log1 :: MarkedSince(w, m, log, log1)
  }

  /** The evaluation in progress ends and leaves the job listed: the mark counts from here. */
  lemma {:induction false} LateKeep(w: WatchSide, t: ThreadId, o: Outcome, m: Handle, log: seq<Report>)
    requires WatchInv(w) && AtHead(w, t) && IsQuerying(w, t, m) && MarkedLate(w, m, log)
    requires SameJob(w.w.monitors[m], o.m) && o.verdict == Keep
    ensures
      var w' := Advanced(w, t, o, Passing(w.watchers[t].pass));
      Marked(w', m, log + o.reports) && t in w'.watchers
  {
    var w' := Advanced(w, t, o, Passing(w.watchers[t].pass));
    assert PassInv(w, t);
    assert forall u :: !PastInterrupt(w', u, m);
  }

  lemma {:induction false} LateAdvance(w: WatchSide, t: ThreadId, o: Outcome, m: Handle, log: seq<Report>)
    requires WatchInv(w) && AtHead(w, t) && IsQuerying(w, t, m) && MarkedLate(w, m, log)
    requires OutcomeOk(w.w.monitors[m], o) && o.verdict != Proceed
    ensures Interrupted(Advanced(w, t, o, Passing(w.watchers[t].pass)), m, log)
  {
    var w' := Advanced(w, t, o, Passing(w.watchers[t].pass));
    if o.verdict == Drop {
      assert w'.log[m] == log + o.reports;
      assert IsErasing(w', t, m);
    } else {
      LateKeep(w, t, o, m, log);
      assert MarkedSince(w', m, log, log + o.reports);
    }
  }

  lemma {:induction false} LateEvaluationStep(s: State, a: Action, t: ThreadId, m: Handle, log: seq<Report>)
    requires Inv(s) && Enabled(s, a) && IsEvaluation(a) && IsQuerying(s.w, t, m) && MarkedLate(s.w, m, log)
    ensures Interrupted(Apply(s, a).w, m, log)
  {
    assert a.t == t && a.QueryState?;
    QueryIsDisciplined(s.w.w.monitors[m], a.poll);
    QueryIsOk(s.w.w.monitors[m], a.poll);
    LateAdvance(s.w, t, Query(s.w.w.monitors[m], a.poll), m, log);
  }

  lemma QueryingLoopWaits(s: State, a: Action, t: ThreadId, m: Handle)
    requires Inv(s) && Enabled(s, a) && IsQuerying(s.w, t, m) && !IsEvaluation(a)
    ensures !a.EraseCompleted? && IsQuerying(Apply(s, a).w, t, m)
  {
    assert forall u | u in s.w.watchers :: u == t;
  }

  lemma {:induction false} LateStep(s: State, a: Action, m: Handle, log: seq<Report>)
    requires Inv(s) && Enabled(s, a) && MarkedLate(s.w, m, log)
    ensures Interrupted(Apply(s, a).w, m, log)
  {
    var t :| IsQuerying(s.w, t, m);
    if IsEvaluation(a) {
      LateEvaluationStep(s, a, t, m, log);
    } else {
      QueryingLoopWaits(s, a, t, m);
      OtherStep(s, a, m);
    }
  }

  lemma {:induction false} MarkedSinceStep(s: State, a: Action, m: Handle, log: seq<Report>, log1: seq<Report>)
    requires Inv(s) && Enabled(s, a) && MarkedSince(s.w, m, log, log1)
    ensures MarkedSince(Apply(s, a).w, m, log, log1)
  {
    if Marked(s.w, m, log1) {
      MarkedStep(s, a, m, log1);
    } else {
      ClosedStep(s, a, m);
    }
  }

  lemma {:induction false} InterruptedStep(s: State, a: Action, m: Handle, log: seq<Report>)
    requires Inv(s) && Enabled(s, a) && Interrupted(s.w, m, log)
    ensures Interrupted(Apply(s, a).w, m, log)
  {
    if MarkedLate(s.w, m, log) {
      LateStep(s, a, m, log);
    } else if Over(s.w, m, log) {
      ClosedStep(s, a, m);
    } else {
      var log1 :| MarkedSince(s.w, m, log, log1);
      MarkedSinceStep(s, a, m, log, log1);
    }
  }

  lemma {:induction false} RunStaysInterrupted(s: State, actions: seq<Action>, m: Handle, log: seq<Report>)
    requires Inv(s) && ValidRun(s, actions) && Interrupted(s.w, m, log)
    ensures Interrupted(After(s, actions).w, m, log)
    decreases |actions|
  {
    if actions == [] {
    } else {
      InterruptedStep(s, actions[0], m, log);
      StepKeepsInv(s, actions[0]);
      RunStaysInterrupted(Apply(s, actions[0]), actions[1..], m, log);
    }
  }

  /** Wherever the loop is when the mark is set, one of the cases applies. */
  lemma {:induction false} MarkIsSomewhere(s: State, m: Handle)
    requires Inv(s) && m in s.w.w.monitors && s.w.w.monitors[m].hasService && s.w.w.monitors[m].isInterrupt
    ensures m in s.w.log && Interrupted(s.w, m, s.w.log[m])
  {
    var log := s.w.log[m];
    if m in s.w.w.jobMonitorList {
      if t :| PastInterrupt(s.w, t, m) {
        assert s.w.watchers[t].Querying? ==> IsQuerying(s.w, t, m);
        assert s.w.watchers[t].Erasing? ==> IsErasing(s.w, t, m);
      } else {
        assert MarkedSince(s.w, m, log, log);
      }
    }
  }

  /**
   * Whenever and wherever a job with a service is marked: over any run it gets at most one more report of
   * the mark's own, after at most one of the evaluation in progress, and none once its evaluation has ended.
   */
  lemma {:induction false} MarkIsReported(s: State, actions: seq<Action>, m: Handle)
    requires Inv(s) && ValidRun(s, actions)
    requires m in s.w.w.monitors && s.w.w.monitors[m].hasService && s.w.w.monitors[m].isInterrupt
    ensures m in s.w.log && Interrupted(After(s, actions).w, m, s.w.log[m])
  {
    MarkIsSomewhere(s, m);
    RunStaysInterrupted(s, actions, m, s.w.log[m]);
  }

  // ---------------------------------------------------------------------------------------
  // The report is made
  // ---------------------------------------------------------------------------------------

  lemma {:induction false} ReadsOn(s: State, t: ThreadId, m: Handle, log: seq<Report>)
    requires Inv(s) && Marked(s.w, m, log) && IsAboutTo(s.w, t, m)
    ensures Enabled(s, ReadCanceled(t, true))
    ensures
      var w' := Apply(s, ReadCanceled(t, true)).w;
      Marked(w', m, log) && AtHead(w', t) && w'.watchers[t].NotCanceled? && Head(w', t) == m
  {
    var o, next := CheckCanceled(s.w.w.monitors[m], true), NotCanceled(s.w.watchers[t].pass);
    EvaluationOutcomeOk(s, ReadCanceled(t, true));
    OwnAdvanceGoesOn(s.w, t, o, next, m, log);
  }

  lemma {:induction false} SeesMark(s: State, t: ThreadId, m: Handle, log: seq<Report>)
    requires Marked(s.w, m, log) && AtHead(s.w, t) && s.w.watchers[t].NotCanceled? && Head(s.w, t) == m
    ensures Enabled(s, ReadInterrupt(t)) && Stopped(Apply(s, ReadInterrupt(t)).w, m, log)
  {
    var o, next := CheckInterrupt(s.w.w.monitors[m]), Querying(s.w.watchers[t].pass);
    OwnAdvanceStops(s.w, t, o, next, m, log);
  }

  lemma {:induction false} AboutToStop(s: State, m: Handle, log: seq<Report>) returns (actions: seq<Action>)
    requires Inv(s) && Marked(s.w, m, log) && AboutTo(s.w, m)
    ensures IsLoopRun(s, actions) && |actions| == 2
    ensures Stopped(After(s, actions).w, m, log)
  {
    var t :| IsAboutTo(s.w, t, m);
    var a, b := ReadCanceled(t, true), ReadInterrupt(t);
    ReadsOn(s, t, m, log);
    SeesMark(Apply(s, a), t, m, log);
    LoopStepRun(s, a);
    LoopStepRun(Apply(s, a), b);
    LoopRunConcat(s, [a], [b]);
    actions := [a] + [b];
  }

  lemma {:induction false} ComesToMark(s: State, t: ThreadId, m: Handle, log: seq<Report>, poll: Poll)
    returns (actions: seq<Action>, s': State, stopped: bool)
    requires Inv(s) && Marked(s.w, m, log) && t in s.w.watchers && ValidPoll(poll)
    ensures IsLoopRun(s, actions) && s' == After(s, actions) && |actions| <= DistanceTo(s.w, t, m)
    ensures stopped ==> Stopped(s'.w, m, log)
    ensures !stopped ==> Inv(s') && Marked(s'.w, m, log) && AboutTo(s'.w, m)
  {
    actions := LoopReaches(s, t, m, poll);
    s' := After(s, actions);
    MarkedIsReportedOnce(s, actions, m, log);
    RunKeepsInv(s, actions);
    stopped := Stopped(s'.w, m, log);
  }

  /** From the mark the loop, left to itself, gets to the one report within a bounded number of steps. */
  lemma {:induction false} MarkedGetsReported(s: State, t: ThreadId, m: Handle, log: seq<Report>, poll: Poll)
    returns (actions: seq<Action>)
    requires Inv(s) && Marked(s.w, m, log) && t in s.w.watchers && ValidPoll(poll)
    ensures IsLoopRun(s, actions) && |actions| <= DistanceTo(s.w, t, m) + 2
    ensures Stopped(After(s, actions).w, m, log)
  {
    var before, s', stopped := ComesToMark(s, t, m, log, poll);
    if stopped {
      actions := before;
    } else {
      var last := AboutToStop(s', m, log);
      LoopRunConcat(s, before, last);
      actions := before + last;
    }
  }

  const OFFLINE := Report(PRINT_JOB_BLOCKED, PRINT_JOB_BLOCKED_OFFLINE)

  /** The offline poll: two more reports although the mark was already set. */
  lemma {:induction false} LateMarkAllowsAnother(s: State, t: ThreadId, m: Handle, log: seq<Report>, poll: Poll)
    requires Inv(s) && MarkedLate(s.w, m, log) && IsQuerying(s.w, t, m)
    requires ValidPoll(poll) && !poll.online && !s.w.w.monitors[m].isIppOverUsb
    ensures Enabled(s, QueryState(t, poll)) && t in Apply(s, QueryState(t, poll)).w.watchers
    ensures Inv(Apply(s, QueryState(t, poll))) && Marked(Apply(s, QueryState(t, poll)).w, m, log + [OFFLINE])
  {
    StepKeepsInv(s, QueryState(t, poll));
    LateKeep(s.w, t, Query(s.w.w.monitors[m], poll), m, log);
  }

  // ---------------------------------------------------------------------------------------
  // A mark that comes late
  // ---------------------------------------------------------------------------------------

  const ONE_MONITOR := NewMonitor(true, "job", false, "")

  /** The one job is monitored and sent, nothing has been reported, and the loop is where it is said to be. */
  predicate OneMonitored(s: State, x: Watcher) {
    && s.requests == map[] && s.j.q == Queue(ONE_JOB, [], Some(0), false)
    && s.w.w == Watch(map[0 := ONE_MONITOR], [0], true) && s.w.watchers == map[0 := x] && s.w.log == map[0 := []]
  }

  lemma OnePublished() returns (s: State)
    ensures Reachable(s) && OneMonitored(s, Idle)
  {
    var s' := OneInWindow();
    var a := Publish(0, 0, 0, true, false, "");
    StepReachable(s', a);
    s := Apply(s', a);
  }

  lemma OneSnapshot() returns (s: State)
    ensures Reachable(s) && OneMonitored(s, Passing([0]))
  {
    var s' := OnePublished();
    StepReachable(s', TakeSnapshot(0));
    s := Apply(s', TakeSnapshot(0));
  }

  lemma OneNotCanceled() returns (s: State)
    ensures Reachable(s) && OneMonitored(s, NotCanceled([0]))
  {
    var s' := OneSnapshot();
    StepReachable(s', ReadCanceled(0, true));
    s := Apply(s', ReadCanceled(0, true));
    assert s.w.w.monitors == map[0 := ONE_MONITOR];
  }

  lemma OneQueried() returns (s: State)
    ensures Reachable(s) && OneMonitored(s, Querying([0]))
  {
    var s' := OneNotCanceled();
    StepReachable(s', ReadInterrupt(0));
    s := Apply(s', ReadInterrupt(0));
    assert s.w.w.monitors == map[0 := ONE_MONITOR];
  }

  lemma OneFlagged() returns (s: State)
    ensures Reachable(s) && s.requests == map[0 := SearchingMonitors(Interrupt, "job")]
    ensures s.w.w == Watch(map[0 := ONE_MONITOR], [0], true) && s.w.log == map[0 := []]
    ensures s.w.watchers == map[0 := Querying([0])]
  {
    var s' := OneQueried();
    StepReachable(s', SearchQueue(0, Interrupt, "job"));
    s := Apply(s', SearchQueue(0, Interrupt, "job"));
  }

  lemma OneRequested() returns (s: State)
    ensures Reachable(s) && s.requests == map[0 := MarkingInterrupt(0)]
    ensures s.w.w == Watch(map[0 := ONE_MONITOR], [0], true) && s.w.log == map[0 := []]
    ensures s.w.watchers == map[0 := Querying([0])]
  {
    var s' := OneFlagged();
    StepReachable(s', SearchMonitors(0));
    s := Apply(s', SearchMonitors(0));
  }

  /** A reachable state in which the mark has come too late for the evaluation in progress. */
  lemma MarkCanComeLate() returns (s: State)
    ensures Reachable(s) && MarkedLate(s.w, 0, []) && IsQuerying(s.w, 0, 0) && !s.w.w.monitors[0].isIppOverUsb
  {
    var s' := OneRequested();
    StepReachable(s', MarkInterrupt(0));
    s := Apply(s', MarkInterrupt(0));
    assert IsQuerying(s.w, 0, 0);
  }

  lemma {:induction false} ReportedTwice(s: State, t: ThreadId, m: Handle, log: seq<Report>, poll: Poll)
    returns (actions: seq<Action>)
    requires Inv(s) && MarkedLate(s.w, m, log) && IsQuerying(s.w, t, m)
    requires ValidPoll(poll) && !poll.online && !s.w.w.monitors[m].isIppOverUsb
    ensures IsLoopRun(s, actions) && Stopped(After(s, actions).w, m, log + [OFFLINE])
  {
    var a := QueryState(t, poll);
    LateMarkAllowsAnother(s, t, m, log, poll);
    LoopStepRun(s, a);
    var rest := MarkedGetsReported(Apply(s, a), t, m, log + [OFFLINE], poll);
    LoopRunConcat(s, [a], rest);
    actions := [a] + rest;
  }

  /** The printer is off when the mark is set: the evaluation in progress reports it, the next one the interrupt. */
  lemma {:induction false} TwoMoreReports(poll: Poll) returns (s: State, actions: seq<Action>)
    requires ValidPoll(poll) && !poll.online
    ensures Reachable(s) && MarkedLate(s.w, 0, []) && ValidRun(s, actions)
    ensures
      var log := After(s, actions).w.log;
      0 in log && |log[0]| == 2 && log[0][0] == OFFLINE && StopsMarked(log[0][1])
  {
    s := MarkCanComeLate();
    ReachableInv(s);
    actions := ReportedTwice(s, 0, 0, [], poll);
    assert [] + [OFFLINE] == [OFFLINE];
  }
}
